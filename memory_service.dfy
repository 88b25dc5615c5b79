/**
 * `MemoryService` (app/services/memory_service.py): past conversations kept
 * in a vector collection, recalled by similarity, rendered for prompts and
 * pruned by age. The collection is a sequence of records; which records are
 * most similar to a question is an oracle (`ranking`); clock readings are
 * parameters in whole seconds.
 */
module Memory {
  import opened Base
  import opened Text
  import opened Dicts
  import opened Json

  const ConversationKind: string := "conversation"
  const SecondsPerDay: int := 24 * 60 * 60

  /** One stored record: the document, its id and its metadata fields. */
  datatype Entry = Entry(id: string, document: string, question: string, metadata: string, timestamp: nat, kind: string)

  /** One recalled memory, with its metadata decoded (`JNull` when there was none). */
  datatype Recollection = Recollection(id: string, question: string, response: string, metadata: Json, timestamp: nat)

  /** The `metadata` argument of `store_conversation`: absent, a dict, or a ready string. */
  datatype MetadataArg = NoMetadata | DictMetadata(fields: Dict<Json>) | TextMetadata(text: string)

  /** What `get_memory_stats` returns. */
  datatype Stats = Stats(totalMemories: nat, lastUpdated: Option<nat>, memoryDirectory: string)

  /** The metadata string stored: a dict serialised to JSON, `None` stored as "". */
  function StoredMetadata(m: MetadataArg, codec: Codec): string {
    match m
    case NoMetadata => ""
    case DictMetadata(fields) => codec.dumps(JObj(fields))
    case TextMetadata(text) => text
  }

  /** Whether `json.dumps(metadata)` succeeds; only a dict holding a native value makes it raise. */
  predicate Storable(m: MetadataArg) {
    m.DictMetadata? ==> Serializable(JObj(m.fields))
  }

  /** `f"conv_{int(time.time())}_{self.memory_count}"`. */
  function ConversationId(secs: nat, count: nat): string {
    "conv_" + NatToString(secs) + "_" + NatToString(count)
  }

  lemma ConversationIdShape(secs: nat, count: nat)
    ensures StartsWith(ConversationId(secs, count), "conv_")
    ensures ConversationId(secs, count)[5..] == NatToString(secs) + "_" + NatToString(count)
  {
    var id := ConversationId(secs, count);
    assert id == "conv_" + (NatToString(secs) + "_" + NatToString(count));
    assert id[..5] == "conv_";
  }

  // ----- recall -----

  /** The records the query can return, most similar first: ranked, present, and of kind "conversation". */
  function Candidates(c: seq<Entry>, ranking: seq<nat>): (r: seq<Entry>)
    ensures |r| <= |ranking|
    ensures forall e :: e in r ==> e in c && e.kind == ConversationKind
    decreases |ranking|
  {
    if ranking == [] then []
    else
      var rest := Candidates(c, ranking[1..]);
      var i := ranking[0];
      if i < |c| && c[i].kind == ConversationKind then [c[i]] + rest else rest
  }

  /** The first `k` of `s`, or all of it. */
  function Take<T>(s: seq<T>, k: nat): (r: seq<T>)
    ensures |r| == Min(k, |s|) && r == s[..|r|]
  {
    s[..Min(k, |s|)]
  }

  /** One result of the query as `get_relevant_memories` reads it; `None` when its metadata does not parse. */
  function Recall(e: Entry, codec: Codec): Option<Recollection> {
    if e.metadata == "" then Some(Recollection(e.id, e.question, e.document, JNull, e.timestamp))
    else match codec.loads(e.metadata)
      case None => None
      case Some(v) => Some(Recollection(e.id, e.question, e.document, v, e.timestamp))
  }

  /** The loop of `get_relevant_memories`: each result in order, skipping those that fail to decode. */
  function Recalled(hits: seq<Entry>, codec: Codec): seq<Recollection>
    decreases |hits|
  {
    if hits == [] then []
    else
      var rest := Recalled(hits[1..], codec);
      match Recall(hits[0], codec)
      case None => rest
      case Some(m) => [m] + rest
  }

  /** With a codec that reads back what it writes, a stored record is recalled with the metadata it was given. */
  lemma StoreThenRecall(id: string, question: string, response: string, fields: Dict<Json>, now: nat, codec: Codec)
    requires RoundTrips(codec) && Storable(DictMetadata(fields))
    ensures Recall(Entry(id, response, question, StoredMetadata(DictMetadata(fields), codec), now, ConversationKind), codec)
            == Some(Recollection(id, question, response, JObj(fields), now))
  {
    assert codec.dumps(JObj(fields)) != "" && codec.loads(codec.dumps(JObj(fields))) == Some(JObj(fields));
  }

  /** Decoding never adds records. */
  lemma {:induction false} RecalledBound(hits: seq<Entry>, codec: Codec)
    ensures |Recalled(hits, codec)| <= |hits|
    decreases |hits|
  {
    if hits != [] {
      RecalledBound(hits[1..], codec);
    }
  }

  /** Decoding works record by record and keeps the order of the results. */
  lemma {:induction false} RecalledAppend(a: seq<Entry>, b: seq<Entry>, codec: Codec)
    ensures Recalled(a + b, codec) == Recalled(a, codec) + Recalled(b, codec)
    decreases |a|
  {
    if a == [] {
      assert a + b == b;
    } else {
      assert (a + b)[0] == a[0] && (a + b)[1..] == a[1..] + b;
      RecalledAppend(a[1..], b, codec);
    }
  }

  /** A single result is kept, decoded, exactly when its metadata is empty or parses. */
  lemma RecalledSingle(e: Entry, codec: Codec)
    ensures Recalled([e], codec) == if Recall(e, codec).Some? then [Recall(e, codec).value] else []
  {
    assert [e][1..] == [];
  }

  // ----- rendering -----

  const PromptHeader: string := "\nRelevant past conversations:\n"

  /** The text `format_memories_for_prompt` adds for memory number `n`. */
  function MemoryBlock(n: nat, m: Recollection, codec: Codec): string {
    QuestionLine(n, m) + ResponseLine(m) + ContextLine(m, codec) + TimeLine(m)
  }

  function QuestionLine(n: nat, m: Recollection): string {
    "\n" + NatToString(n) + ". Question: " + m.question + "\n"
  }

  function ResponseLine(m: Recollection): string {
    "   Response: " + m.response + "\n"
  }

  /** The `Context:` line, present only for truthy metadata. */
  function ContextLine(m: Recollection, codec: Codec): string {
    if Truthy(m.metadata) then "   Context: " + codec.dumps(m.metadata) + "\n" else ""
  }

  function TimeLine(m: Recollection): string {
    "   Time: " + NatToString(m.timestamp) + "\n"
  }

  /** The blocks of `ms`, numbered from `first`. */
  function MemoryBlocks(ms: seq<Recollection>, first: nat, codec: Codec): string
    decreases |ms|
  {
    if ms == [] then "" else MemoryBlock(first, ms[0], codec) + MemoryBlocks(ms[1..], first + 1, codec)
  }

  /** `format_memories_for_prompt(memories)`. */
  function FormattedMemories(ms: seq<Recollection>, codec: Codec): string {
    if ms == [] then "" else PromptHeader + MemoryBlocks(ms, 1, codec)
  }

  /** No memories render as ""; any memory makes the text start with the header. */
  lemma FormattedEmptyIff(ms: seq<Recollection>, codec: Codec)
    ensures FormattedMemories(ms, codec) == "" <==> ms == []
    ensures ms != [] ==> StartsWith(FormattedMemories(ms, codec), PromptHeader)
  {
    if ms != [] {
      var f := FormattedMemories(ms, codec);
      assert f[..|PromptHeader|] == PromptHeader;
    }
  }

  /** Rendering splits at any point, the numbering of the second part continuing where the first stops. */
  lemma {:induction false} MemoryBlocksAppend(a: seq<Recollection>, b: seq<Recollection>, first: nat, codec: Codec)
    ensures MemoryBlocks(a + b, first, codec) == MemoryBlocks(a, first, codec) + MemoryBlocks(b, first + |a|, codec)
    decreases |a|
  {
    if a == [] {
      assert a + b == b;
    } else {
      assert (a + b)[0] == a[0] && (a + b)[1..] == a[1..] + b;
      MemoryBlocksAppend(a[1..], b, first + 1, codec);
    }
  }

  /** A memory carries a `Context:` line exactly when its metadata is truthy. */
  lemma ContextLineIff(n: nat, m: Recollection, codec: Codec)
    ensures MemoryBlock(n, m, codec) == QuestionLine(n, m) + ResponseLine(m) + TimeLine(m) <==> !Truthy(m.metadata)
  {
    if Truthy(m.metadata) {
      assert |MemoryBlock(n, m, codec)| > |QuestionLine(n, m) + ResponseLine(m) + TimeLine(m)|;
    } else {
      assert ContextLine(m, codec) == "";
      assert QuestionLine(n, m) + ResponseLine(m) + "" == QuestionLine(n, m) + ResponseLine(m);
    }
  }

  lemma MemoryBlocksAt(ms: seq<Recollection>, i: nat, codec: Codec)
    requires i < |ms|
    ensures MemoryBlocks(ms[i..], i + 1, codec) == MemoryBlock(i + 1, ms[i], codec) + MemoryBlocks(ms[i + 1..], i + 2, codec)
  {
    assert ms[i..][1..] == ms[i + 1..];
  }

  lemma Concat4(f: string, a: string, b: string, c: string, d: string, rest: string)
    ensures f + a + b + c + d + rest == f + (a + b + c + d + rest)
  {
  }

  /** `format_memories_for_prompt`: accumulates the text with `+=`, numbering from 1. */
  method FormatMemoriesForPrompt(memories: seq<Recollection>, codec: Codec) returns (formatted: string)
    ensures formatted == FormattedMemories(memories, codec)
  {
    if memories == [] {
      return "";
    }
    formatted := PromptHeader;
    var i := 0;
    while i < |memories|
      invariant 0 <= i <= |memories|
      invariant formatted + MemoryBlocks(memories[i..], i + 1, codec) == FormattedMemories(memories, codec)
    {
      var memory := memories[i];
      MemoryBlocksAt(memories, i, codec);
      Concat4(formatted, QuestionLine(i + 1, memory), ResponseLine(memory), ContextLine(memory, codec),
              TimeLine(memory), MemoryBlocks(memories[i + 1..], i + 2, codec));
      formatted := formatted + QuestionLine(i + 1, memory);
      formatted := formatted + ResponseLine(memory);
      if Truthy(memory.metadata) {
        formatted := formatted + ("   Context: " + codec.dumps(memory.metadata) + "\n");
      } else {
        assert formatted + ContextLine(memory, codec) == formatted;
      }
      formatted := formatted + TimeLine(memory);
      i := i + 1;
    }
  }

  // ----- cleanup -----

  /** The records older than `cutoff`, which cleanup selects. */
  function Older(c: seq<Entry>, cutoff: int): seq<Entry>
    decreases |c|
  {
    if c == [] then []
    else (if c[0].timestamp < cutoff then [c[0]] else []) + Older(c[1..], cutoff)
  }

  /** The records cleanup keeps. */
  function Kept(c: seq<Entry>, cutoff: int): seq<Entry>
    decreases |c|
  {
    if c == [] then []
    else (if c[0].timestamp < cutoff then [] else [c[0]]) + Kept(c[1..], cutoff)
  }

  /** Cleanup selects exactly the records stamped before the cutoff and keeps exactly the others. */
  lemma {:induction false} OlderKeptMembers(c: seq<Entry>, cutoff: int, e: Entry)
    ensures e in Older(c, cutoff) <==> e in c && e.timestamp < cutoff
    ensures e in Kept(c, cutoff) <==> e in c && e.timestamp >= cutoff
    decreases |c|
  {
    if c != [] {
      OlderKeptMembers(c[1..], cutoff, e);
      assert e in c <==> e == c[0] || e in c[1..];
    }
  }

  /** Every record is either selected or kept, never both. */
  lemma {:induction false} OlderKeptPartition(c: seq<Entry>, cutoff: int)
    ensures |Older(c, cutoff)| + |Kept(c, cutoff)| == |c|
    decreases |c|
  {
    if c != [] {
      OlderKeptPartition(c[1..], cutoff);
    }
  }

  /** Nothing is older than the cutoff once cleanup has run. */
  lemma {:induction false} KeptHasNoOlder(c: seq<Entry>, cutoff: int)
    ensures Older(Kept(c, cutoff), cutoff) == []
    decreases |c|
  {
    if c != [] {
      KeptHasNoOlder(c[1..], cutoff);
      var k := Kept(c, cutoff);
      if c[0].timestamp >= cutoff {
        assert k == [c[0]] + Kept(c[1..], cutoff);
        assert k[1..] == Kept(c[1..], cutoff);
      } else {
        assert k == Kept(c[1..], cutoff);
      }
    }
  }

  function Cutoff(now: nat, daysToKeep: nat): int {
    now - daysToKeep * SecondsPerDay
  }

  /** `MemoryService`: the collection and the statistics read back from it. */
  class MemoryService {
    var collection: seq<Entry>
    var memoryCount: nat
    var lastUpdated: Option<nat>
    const memoryDir: string

    /** The statistics agree with the collection, as `_update_memory_stats` leaves them. */
    predicate Valid()
      reads this
    {
      memoryCount == |collection|
    }

    /** Opens the persisted collection `stored` at clock reading `now`. */
    constructor(stored: seq<Entry>, dir: string, now: nat)
      ensures collection == stored && memoryCount == |stored| && lastUpdated == Some(now) && memoryDir == dir
      ensures Valid()
    {
      collection := stored;
      memoryCount := |stored|;
      lastUpdated := Some(now);
      memoryDir := dir;
    }

    /** `_update_memory_stats`. */
    method UpdateMemoryStats(now: nat)
      modifies this
      ensures collection == old(collection) && memoryCount == |collection| && lastUpdated == Some(now)
      ensures Valid()
    {
      memoryCount := |collection|;
      lastUpdated := Some(now);
    }

    /** `store_conversation(question, response, metadata)` at clock reading `now`. */
    /**
     * `store_conversation(question, response, metadata)` at clock reading
     * `now`: the new record's id, or `None` for the re-raised `TypeError` of
     * a `json.dumps` that meets a native value, when nothing is stored.
     */
    method StoreConversation(question: string, response: string, metadata: MetadataArg, now: nat, codec: Codec)
      returns (id: Option<string>)
      modifies this
      ensures id.None? <==> !Storable(metadata)
      ensures id.None? ==>
                collection == old(collection) && memoryCount == old(memoryCount) && lastUpdated == old(lastUpdated)
      ensures id.Some? ==>
                && id.value == ConversationId(now, old(memoryCount))
                && collection == old(collection)
                     + [Entry(id.value, response, question, StoredMetadata(metadata, codec), now, ConversationKind)]
                && memoryCount == |collection| && lastUpdated == Some(now)
      ensures old(Valid()) ==> Valid()
    {
      if !Storable(metadata) {
        return None;
      }
      var meta := StoredMetadata(metadata, codec);
      var conversationId := ConversationId(now, memoryCount);
      collection := collection + [Entry(conversationId, response, question, meta, now, ConversationKind)];
      UpdateMemoryStats(now);
      id := Some(conversationId);
    }

    /**
     * `get_relevant_memories(question, n_results)`: `ranking` is the
     * collection's answer (record indices, most similar first), `None` when
     * the query raises.
     */
    method GetRelevantMemories(question: string, nResults: nat, ranking: Option<seq<nat>>, codec: Codec)
      returns (memories: seq<Recollection>)
      ensures ranking.None? ==> memories == []
      ensures ranking.Some? ==>
                memories == Recalled(Take(Candidates(collection, ranking.value), Min(nResults, memoryCount)), codec)
      ensures |memories| <= Min(nResults, memoryCount)
    {
      memories := [];
      if ranking.None? {
        return;
      }
      var hits := Take(Candidates(collection, ranking.value), Min(nResults, memoryCount));
      RecalledBound(hits, codec);
      var i := 0;
      while i < |hits|
        invariant 0 <= i <= |hits|
        invariant memories + Recalled(hits[i..], codec) == Recalled(hits, codec)
      {
        assert hits[i..][1..] == hits[i + 1..];
        var m := Recall(hits[i], codec);
        if m.Some? {
          memories := memories + [m.value];
        }
        i := i + 1;
      }
    }

    /** `get_memory_stats`. */
    function GetMemoryStats(): (s: Stats)
      reads this
      ensures Valid() ==> s.totalMemories == |collection|
      ensures s.lastUpdated == lastUpdated && s.memoryDirectory == memoryDir
    {
      Stats(memoryCount, lastUpdated, memoryDir)
    }

    /** `cleanup_old_memories(days_to_keep)` at clock reading `now`: the number of records removed. */
    method CleanupOldMemories(now: nat, daysToKeep: nat) returns (removed: nat)
      modifies this
      ensures var cutoff := Cutoff(now, daysToKeep);
              && removed == |Older(old(collection), cutoff)|
              && collection == Kept(old(collection), cutoff)
      ensures removed > 0 ==> memoryCount == |collection| && lastUpdated == Some(now)
      ensures removed == 0 ==> memoryCount == old(memoryCount) && lastUpdated == old(lastUpdated)
      ensures old(Valid()) ==> Valid() && memoryCount == old(memoryCount) - removed
    {
      var cutoff := Cutoff(now, daysToKeep);
      var selected := Older(collection, cutoff);
      OlderKeptPartition(collection, cutoff);
      if selected != [] {
        collection := Kept(collection, cutoff);
        UpdateMemoryStats(now);
      } else {
        KeptNoneOlder(collection, cutoff);
      }
      removed := |selected|;
    }
  }

  /** When nothing is older than the cutoff, cleanup keeps the collection as it is. */
  lemma {:induction false} KeptNoneOlder(c: seq<Entry>, cutoff: int)
    requires Older(c, cutoff) == []
    ensures Kept(c, cutoff) == c
    decreases |c|
  {
    if c != [] {
      assert c[0].timestamp >= cutoff;
      assert Older(c[1..], cutoff) == [];
      KeptNoneOlder(c[1..], cutoff);
      assert Kept(c, cutoff) == [c[0]] + Kept(c[1..], cutoff);
    }
  }

  /** A second cleanup with the same cutoff removes nothing. */
  lemma SecondCleanupRemovesNothing(c: seq<Entry>, cutoff: int)
    ensures |Older(Kept(c, cutoff), cutoff)| == 0
    ensures Kept(Kept(c, cutoff), cutoff) == Kept(c, cutoff)
  {
    KeptHasNoOlder(c, cutoff);
    KeptNoneOlder(Kept(c, cutoff), cutoff);
  }
}
