/**
 * `IAMService` (app/services/iam_service.py): the fixed role / resource /
 * action permission table and the user store. The store, one JSON file per
 * user in the source, is a map from username to record; bcrypt is a pair of
 * functions supplied by the caller, with the random salt as a parameter.
 */
module Iam {
  import opened Base

  /** `self.permissions`: resource -> action -> roles allowed. */
  const Permissions: map<string, map<string, seq<string>>> := map[
    "ai-analytics" := map["view" := ["admin", "analyst"], "edit" := ["admin"], "delete" := ["admin"]],
    "users" := map["view" := ["admin"], "edit" := ["admin"], "delete" := ["admin"]],
    "settings" := map["view" := ["admin"], "edit" := ["admin"]]
  ]

  /** `check_permission(user_role, resource, action)`. */
  function CheckPermission(role: string, resource: string, action: string): (granted: bool)
    ensures resource !in Permissions ==> !granted
    ensures resource in Permissions && action !in Permissions[resource] ==> !granted
    ensures granted <==> resource in Permissions && action in Permissions[resource] && role in Permissions[resource][action]
  {
    if resource !in Permissions then false
    else if action !in Permissions[resource] then false
    else role in Permissions[resource][action]
  }

  /** With the fixed table, "analyst" may only view ai-analytics. */
  lemma AnalystOnlyViewsAnalytics(resource: string, action: string)
    ensures CheckPermission("analyst", resource, action) <==> resource == "ai-analytics" && action == "view"
  {
    if CheckPermission("analyst", resource, action) {
      assert resource in Permissions.Keys;
      assert resource == "ai-analytics" || resource == "users" || resource == "settings";
      if resource == "ai-analytics" {
        assert action == "view" || action == "edit" || action == "delete";
      }
    }
  }

  /** "admin" holds every action the table defines, and only those. */
  lemma AdminHoldsEveryDefinedAction(resource: string, action: string)
    ensures CheckPermission("admin", resource, action) <==> resource in Permissions && action in Permissions[resource]
  {
    if resource in Permissions && action in Permissions[resource] {
      assert resource == "ai-analytics" || resource == "users" || resource == "settings";
    }
  }

  /** `settings` defines no `delete`, so nobody may delete settings. */
  lemma NobodyDeletesSettings(role: string)
    ensures !CheckPermission(role, "settings", "delete")
  {
    assert "delete" !in Permissions["settings"];
  }

  /** The stored user document. Clock readings are in whole seconds. */
  datatype UserRecord = UserRecord(
    username: string, password: string, role: string,
    createdAt: nat, lastLogin: Option<nat>, isActive: bool)

  /** A user document as `get_user` and `list_users` return it: everything but `password`. */
  datatype UserView = UserView(username: string, role: string, createdAt: nat, lastLogin: Option<nat>, isActive: bool)

  /** What `authenticate_user` returns on success, without the token. */
  datatype AuthResult = AuthResult(username: string, role: string)

  /** `bcrypt.hashpw(password, salt)` and `bcrypt.checkpw(password, hashed)`. */
  datatype Hasher = Hasher(hashpw: (string, string) -> string, checkpw: (string, string) -> bool)

  /** `user_data.pop('password', None)`. */
  function View(u: UserRecord): (v: UserView)
    ensures v.username == u.username && v.role == u.role && v.createdAt == u.createdAt
    ensures v.lastLogin == u.lastLogin && v.isActive == u.isActive
  {
    UserView(u.username, u.role, u.createdAt, u.lastLogin, u.isActive)
  }

  /** What a read returns does not depend on the stored password hash. */
  lemma ViewIgnoresPassword(u: UserRecord, hash: string)
    ensures View(u.(password := hash)) == View(u)
  {
  }

  /** The document `create_user` writes. */
  function NewUser(username: string, hashed: string, role: string, now: nat): (u: UserRecord)
    ensures u.username == username && u.password == hashed && u.role == role
    ensures u.createdAt == now && u.lastLogin.None? && u.isActive
  {
    UserRecord(username, hashed, role, now, None, true)
  }

  class IAMService {
    /** The users directory: username -> the document in `{username}.json`. */
    var users: map<string, UserRecord>

    /** Every document is filed under its own username. */
    predicate Valid()
      reads this
    {
      forall u :: u in users ==> users[u].username == u
    }

    constructor(stored: map<string, UserRecord>)
      requires forall u :: u in stored ==> stored[u].username == u
      ensures users == stored && Valid()
    {
      users := stored;
    }

    /** `create_user(username, password, role)` at clock reading `now`, with `salt` from `gensalt()`. */
    method CreateUser(username: string, password: string, role: string, now: nat, salt: string, h: Hasher)
      returns (created: bool)
      modifies this
      ensures created <==> username !in old(users)
      ensures !created ==> users == old(users)
      ensures created ==> users == old(users)[username := NewUser(username, h.hashpw(password, salt), role, now)]
      ensures old(Valid()) ==> Valid()
    {
      if username in users {
        return false;
      }
      var hashed := h.hashpw(password, salt);
      users := users[username := NewUser(username, hashed, role, now)];
      created := true;
    }

    /**
     * `authenticate_user(username, password)` at clock reading `now`.
     * `encodeOk` is whether `jwt.encode` returns; where it raises (as it does
     * without the `JWT_*` settings) the answer is `None`, but the new
     * `last_login` has already been written.
     */
    method AuthenticateUser(username: string, password: string, now: nat, h: Hasher, encodeOk: bool)
      returns (result: Option<AuthResult>)
      modifies this
      ensures result.Some? <==> username in old(users) && h.checkpw(password, old(users)[username].password) && encodeOk
      ensures result.Some? ==> result.value == AuthResult(username, old(users)[username].role)
      ensures username in old(users) && h.checkpw(password, old(users)[username].password) ==>
                users == old(users)[username := old(users)[username].(lastLogin := Some(now))]
      ensures !(username in old(users) && h.checkpw(password, old(users)[username].password)) ==> users == old(users)
      ensures old(Valid()) ==> Valid()
    {
      if username !in users {
        return None;
      }
      var userData := users[username];
      if !h.checkpw(password, userData.password) {
        return None;
      }
      userData := userData.(lastLogin := Some(now));
      users := users[username := userData];
      if !encodeOk {
        return None;
      }
      result := Some(AuthResult(username, userData.role));
    }

    /** `update_password(username, old_password, new_password)`, with `salt` from `gensalt()`. */
    method UpdatePassword(username: string, oldPassword: string, newPassword: string, salt: string, h: Hasher)
      returns (updated: bool)
      modifies this
      ensures updated <==> username in old(users) && h.checkpw(oldPassword, old(users)[username].password)
      ensures !updated ==> users == old(users)
      ensures updated ==>
                users == old(users)[username := old(users)[username].(password := h.hashpw(newPassword, salt))]
      ensures old(Valid()) ==> Valid()
    {
      if username !in users {
        return false;
      }
      var userData := users[username];
      if !h.checkpw(oldPassword, userData.password) {
        return false;
      }
      userData := userData.(password := h.hashpw(newPassword, salt));
      users := users[username := userData];
      updated := true;
    }

    /** `get_user(username)`: the document without its password, `None` for an unknown user. */
    function GetUser(username: string): (r: Option<UserView>)
      reads this
      ensures r.Some? <==> username in users
      ensures r.Some? ==> r.value == View(users[username])
    {
      if username in users then Some(View(users[username])) else None
    }

    /** `list_users()`: one password-free document per stored user, in directory order. */
    method ListUsers() returns (listed: seq<UserView>)
      ensures |listed| == |users|
      ensures forall u :: u in users ==> View(users[u]) in listed
      ensures forall v :: v in listed ==> exists u :: u in users && v == View(users[u])
    {
      listed := [];
      var remaining := users.Keys;
      while remaining != {}
        invariant remaining <= users.Keys
        invariant |listed| + |remaining| == |users|
        invariant forall u :: u in users && u !in remaining ==> View(users[u]) in listed
        invariant forall v :: v in listed ==> exists u :: u in users && v == View(users[u])
        decreases |remaining|
      {
        var u :| u in remaining;
        listed := listed + [View(users[u])];
        remaining := remaining - {u};
      }
    }
  }

  /** A second account under an existing name is refused, and the first keeps its record. */
  method CreateTwice(username: string, now: nat, salt: string, h: Hasher) returns (first: bool, second: bool)
    ensures first && !second
  {
    var iam := new IAMService(map[]);
    first := iam.CreateUser(username, "first", "user", now, salt, h);
    second := iam.CreateUser(username, "second", "admin", now, salt, h);
  }
}
