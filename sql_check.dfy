/**
 * The two string checks the SQL generator applies to model output:
 * `AIService.validate_sql_query` and the code-fence clean-up at the start of
 * `AIService.generate_query`.
 */
module SqlCheck {
  import opened Base
  import opened Text

  /** What `validate_sql_query` returns: `(is_valid, message)`. */
  datatype Verdict = Verdict(valid: bool, message: string)

  /** The substrings refused, in the order they are tested. */
  const InvalidSequences: seq<string> := [":", ";", "--", "/*", "*/"]

  /** The join forms accepted when the query mentions `JOIN`. */
  const JoinTypes: seq<string> := ["INNER JOIN", "LEFT JOIN", "RIGHT JOIN", "FULL JOIN"]

  const ValidMessage: string := "Query is valid"

  function InvalidCharacter(c: string): string {
    "Invalid character '" + c + "' found in query"
  }

  /** The first of `candidates`, in order, that occurs in `q`. */
  function FirstContained(q: string, candidates: seq<string>): (r: Option<string>)
    ensures r.Some? ==> r.value in candidates && Contains(q, r.value)
    ensures r.None? <==> forall k :: 0 <= k < |candidates| ==> !Contains(q, candidates[k])
    decreases |candidates|
  {
    if candidates == [] then None
    else if Contains(q, candidates[0]) then Some(candidates[0])
    else FirstContained(q, candidates[1..])
  }

  /** The text the validator looks at: everything before the first `--`, stripped. */
  function Inspected(query: string): string {
    Strip(Before(query, "--"))
  }

  /** `keyword` occurs in `u` and the text after it (up to its next occurrence) is blank. */
  predicate EmptyClause(u: string, keyword: string) {
    Contains(u, keyword) && Strip(After(u, keyword)) == ""
  }

  /** `validate_sql_query(query)`. */
  function ValidateSqlQuery(query: string): Verdict {
    Judge(Inspected(query))
  }

  /** The checks of `validate_sql_query`, applied to the inspected text `q`. */
  function Judge(q: string): Verdict {
    match FirstContained(q, InvalidSequences)
    case Some(c) => Verdict(false, InvalidCharacter(c))
    case None =>
      var u := Upper(q);
      if !StartsWith(u, "SELECT") then Verdict(false, "Query must start with SELECT")
      else if !Contains(u, "FROM") then Verdict(false, "Query must contain a FROM clause")
      else if Contains(u, "JOIN") && FirstContained(u, JoinTypes).None? then Verdict(false, "Invalid JOIN syntax")
      else if EmptyClause(u, "WHERE") then Verdict(false, "WHERE clause cannot be empty")
      else if EmptyClause(u, "GROUP BY") then Verdict(false, "GROUP BY clause cannot be empty")
      else if EmptyClause(u, "ORDER BY") then Verdict(false, "ORDER BY clause cannot be empty")
      else Verdict(true, ValidMessage)
  }

  /** The verdict depends only on the text before the first `--`. */
  lemma ValidateIgnoresComment(query: string)
    ensures ValidateSqlQuery(query) == ValidateSqlQuery(Before(query, "--"))
  {
    BeforeIdempotent(query, "--");
  }

  /** Appending a `--` comment to a query never changes its verdict. */
  lemma CommentTailIgnored(s: string, t: string)
    requires !Contains(s, "--") && !EndsWith(s, "-")
    ensures ValidateSqlQuery(s + "--" + t) == ValidateSqlQuery(s)
  {
    CommentStart(s, t);
    assert Inspected(s + "--" + t) == Inspected(s);
  }

  lemma CommentStart(s: string, t: string)
    requires !Contains(s, "--") && !EndsWith(s, "-")
    ensures Before(s + "--" + t, "--") == s
  {
    var full := s + "--" + t;
    MarkerFound(s, t);
    assert full[..|s|] == s;
  }

  /** The first `--` of `s + "--" + t` is the appended one. */
  lemma MarkerFound(s: string, t: string)
    requires !Contains(s, "--") && !EndsWith(s, "-")
    ensures Find(s + "--" + t, "--") == Some(|s|)
  {
    var full := s + "--" + t;
    MarkerAt(s, t);
    FindAtOrBefore(full, "--", |s|);
    var i := Find(full, "--").value;
    if i < |s| {
      NoEarlierMarker(s, t, i);
      assert false;
    }
  }

  lemma MarkerAt(s: string, t: string)
    ensures OccursAt(s + "--" + t, "--", |s|)
  {
    var full := s + "--" + t;
    assert full == s + ("--" + t);
    assert full[|s|..|s| + 2] == ("--" + t)[..2];
  }

  /** An occurrence at `k` means the first one is found at or before `k`. */
  lemma FindAtOrBefore(s: string, w: string, k: nat)
    requires OccursAt(s, w, k)
    ensures Find(s, w).Some? && Find(s, w).value <= k && OccursAt(s, w, Find(s, w).value)
  {
  }

  lemma NoEarlierMarker(s: string, t: string, i: nat)
    requires !Contains(s, "--") && !EndsWith(s, "-") && i < |s|
    ensures !OccursAt(s + "--" + t, "--", i)
  {
    if OccursAt(s + "--" + t, "--", i) {
      if i + 2 <= |s| {
        PrefixOccurrence(s, "--" + t, "--", i);
        assert false;
      } else {
        DashBeforeMarker(s, t);
        assert false;
      }
    }
  }

  lemma PrefixOccurrence(s: string, t: string, w: string, i: nat)
    requires i + |w| <= |s| && OccursAt(s + t, w, i)
    ensures Contains(s, w)
  {
    assert (s + t)[i..i + |w|] == s[i..i + |w|];
    OccursAtContains(s, w, i);
  }

  lemma DashBeforeMarker(s: string, t: string)
    requires |s| > 0 && OccursAt(s + "--" + t, "--", |s| - 1)
    ensures EndsWith(s, "-")
  {
    var full := s + "--" + t;
    assert full[|s| - 1] == full[|s| - 1..|s| + 1][0];
    assert s[|s| - 1..] == [s[|s| - 1]];
  }

  /** The forbidden sequences are found in the raw text before the first `--`. */
  lemma InspectedContains(query: string, c: string)
    requires c in [":", ";", "/*", "*/"]
    ensures Contains(Inspected(query), c) <==> Contains(Before(query, "--"), c)
  {
    ContainsStrip(Before(query, "--"), c);
  }

  /** The validator reports the first forbidden sequence in list order, looking only before the first `--`. */
  lemma ForbiddenReportedInOrder(query: string)
    ensures var p := Before(query, "--");
            && (Contains(p, ":") ==>
                  ValidateSqlQuery(query) == Verdict(false, InvalidCharacter(":")))
            && (!Contains(p, ":") && Contains(p, ";") ==>
                  ValidateSqlQuery(query) == Verdict(false, InvalidCharacter(";")))
            && (!Contains(p, ":") && !Contains(p, ";") && Contains(p, "/*") ==>
                  ValidateSqlQuery(query) == Verdict(false, InvalidCharacter("/*")))
            && (!Contains(p, ":") && !Contains(p, ";") && !Contains(p, "/*") && Contains(p, "*/") ==>
                  ValidateSqlQuery(query) == Verdict(false, InvalidCharacter("*/")))
  {
    InspectedContains(query, ":");
    InspectedContains(query, ";");
    InspectedContains(query, "/*");
    InspectedContains(query, "*/");
    InspectedHasNoCommentMarker(query);
  }

  lemma InspectedHasNoCommentMarker(query: string)
    ensures !Contains(Inspected(query), "--")
  {
    BeforeHasNoOccurrence(query, "--");
    ContainsStrip(Before(query, "--"), "--");
  }

  /** `--` is listed as forbidden but can never be reported. */
  lemma CommentMarkerNeverReported(query: string)
    ensures ValidateSqlQuery(query).message != InvalidCharacter("--")
  {
    InspectedHasNoCommentMarker(query);
    var q := Inspected(query);
    JudgeShape(q);
    var r := FirstContained(q, InvalidSequences);
    if r.Some? {
      assert r.value != "--";
      InvalidCharacterInjective(r.value, "--");
    } else {
      assert |InvalidCharacter("--")| == 37;
    }
  }

  /** A forbidden sequence gives its own message; every other message is shorter than any such one. */
  lemma JudgeShape(q: string)
    ensures var r := FirstContained(q, InvalidSequences);
            if r.Some? then Judge(q) == Verdict(false, InvalidCharacter(r.value))
            else |Judge(q).message| <= 32
  {
  }

  lemma InvalidCharacterInjective(a: string, b: string)
    ensures InvalidCharacter(a) == InvalidCharacter(b) ==> a == b
  {
    var n := |"Invalid character '"|;
    if InvalidCharacter(a) == InvalidCharacter(b) {
      assert |a| == |b|;
      assert InvalidCharacter(a)[n..n + |a|] == a;
      assert InvalidCharacter(b)[n..n + |b|] == b;
    }
  }

  /** A query passes exactly when every structural check passes. */
  lemma ValidIff(query: string)
    ensures var p := Before(query, "--");
            var u := Upper(Strip(p));
            ValidateSqlQuery(query).valid <==>
              && !Contains(p, ":") && !Contains(p, ";") && !Contains(p, "/*") && !Contains(p, "*/")
              && StartsWith(u, "SELECT")
              && Contains(u, "FROM")
              && (Contains(u, "JOIN") ==> exists k :: 0 <= k < |JoinTypes| && Contains(u, JoinTypes[k]))
              && !EmptyClause(u, "WHERE")
              && !EmptyClause(u, "GROUP BY")
              && !EmptyClause(u, "ORDER BY")
    ensures ValidateSqlQuery(query).valid <==> ValidateSqlQuery(query).message == ValidMessage
  {
    InspectedContains(query, ":");
    InspectedContains(query, ";");
    InspectedContains(query, "/*");
    InspectedContains(query, "*/");
    InspectedHasNoCommentMarker(query);
    var q := Inspected(query);
    var r := FirstContained(q, InvalidSequences);
    if r.Some? {
      assert |InvalidCharacter(r.value)| != |ValidMessage|;
    }
  }

  // ----- code-fence clean-up -----

  /** Lines 394-399 of `generate_query`: strip, drop a leading "```sql" and a trailing "```", strip. */
  function CleanFence(raw: string): string {
    Strip(DropFence(Strip(raw)))
  }

  /** Drops a leading "```sql", then a trailing "```" from what is left. */
  function DropFence(a: string): string {
    var b := if StartsWith(a, "```sql") then a[6..] else a;
    if EndsWith(b, "```") then b[..|b| - 3] else b
  }

  predicate NoEdgeSpace(s: string) {
    |s| == 0 || (!IsSpace(s[0]) && !IsSpace(s[|s| - 1]))
  }

  /** Clean-up leaves a string alone that has no surrounding whitespace and no fence. */
  lemma CleanFenceNoOp(s: string)
    requires NoEdgeSpace(s) && !StartsWith(s, "```sql") && !EndsWith(s, "```")
    ensures CleanFence(s) == s
  {
    StripNoOp(s);
  }

  /** The cleaned text never starts or ends with whitespace. */
  lemma CleanFenceNoEdgeSpace(raw: string)
    ensures NoEdgeSpace(CleanFence(raw))
  {
    StripHasNoEdgeSpace(DropFence(Strip(raw)));
  }

  /** Cleaning a cleaned string that carries no fence marker changes nothing. */
  lemma CleanFenceIdempotent(raw: string)
    requires !StartsWith(CleanFence(raw), "```sql") && !EndsWith(CleanFence(raw), "```")
    ensures CleanFence(CleanFence(raw)) == CleanFence(raw)
  {
    CleanFenceNoEdgeSpace(raw);
    CleanFenceNoOp(CleanFence(raw));
  }

  /** A fenced body comes back as the stripped body. */
  lemma FenceRemoved(body: string)
    ensures CleanFence("```sql" + body + "```") == Strip(body)
  {
    var s := "```sql" + body + "```";
    assert s[0] == '`' && s[|s| - 1] == '`';
    StripNoOp(s);
    assert StartsWith(s, "```sql") by { assert s[..6] == "```sql"; }
    var b := s[6..];
    assert b == body + "```";
    assert EndsWith(b, "```") by { assert b[|b| - 3..] == "```"; }
    assert b[..|b| - 3] == body;
  }
}
