/** The semantic cache: retrieval, verification before reuse, bounded admission. */
module SemanticCache {
  import opened Basics

  // ----- requests and replies -----

  datatype Message = Message(role: string, content: string)

  /** A chat request: every field beside the messages, the earlier messages, and the last message. */
  datatype Body = Body(fields: map<string, Json>, earlier: seq<Message>, lastRole: string, content: string)

  /** What a request digest stands for; digests of different documents are taken to differ. */
  datatype Key = Key(tenant: string, body: Body)

  const RETRIEVAL_QUERY := "<retrieval-query>"

  /** The scope: tenant and whole request, with only the last message's text masked. */
  function ScopeOf(k: Key): Key {
    k.(body := k.body.(content := RETRIEVAL_QUERY))
  }

  /** A provider's value: a JSON document, or something JSON cannot express, on which the completeness check may raise. */
  datatype Value = Document(json: Json) | Foreign(crashes: bool)

  datatype Upstream = Paused | Raises | Returns(value: Value)

  predicate Holds(fields: map<string, Json>, name: string, value: Json) {
    name in fields && fields[name] == value
  }

  predicate Lacks(fields: map<string, Json>, name: string) {
    name !in fields || !Truthy(fields[name])
  }

  predicate CompleteChoice(choice: Json) {
    && choice.Obj?
    && Holds(choice.fields, "finish_reason", Str("stop"))
    && "message" in choice.fields && choice.fields["message"].Obj?
    && var message := choice.fields["message"].fields;
       && Holds(message, "role", Str("assistant"))
       && "content" in message && message["content"].Str? && !Blank(message["content"].text)
       && Lacks(message, "tool_calls") && Lacks(message, "function_call") && Lacks(message, "refusal")
  }

  /** A complete answer to the request: the requested number of stopped, nonempty, tool-free choices. */
  predicate Complete(answer: Json, body: Body) {
    && answer.Obj?
    && "error" !in answer.fields
    && "model" in answer.fields && answer.fields["model"].Str?
    && "choices" in answer.fields && answer.fields["choices"].Arr?
    && var expected := if "n" in body.fields then body.fields["n"] else Number(1.0);
       var choices := answer.fields["choices"].items;
       && expected == Number(|choices| as real) && |choices| >= 1
       && forall i :: 0 <= i < |choices| ==> CompleteChoice(choices[i])
  }

  predicate StartsAt(text: string, word: string, i: int) {
    0 <= i <= |text| - |word| && text[i..i + |word|] == word
  }

  predicate Mentions(text: string, word: string) {
    exists i :: 0 <= i <= |text| && StartsAt(text, word, i)
  }

  /** The completeness check asks a non-object for "error" and then for its fields, which raises. */
  predicate CheckCrashes(value: Value) {
    match value
    case Foreign(crashes) => crashes
    case Document(Obj(_)) => false
    case Document(Arr(items)) => Str("error") !in items
    case Document(Str(text)) => !Mentions(text, "error")
    case Document(_) => true
  }

  function TextChoice(text: string): Json {
    Obj(map["finish_reason" := Str("stop"), "message" := Obj(map["role" := Str("assistant"), "content" := Str(text)])])
  }

  /** One stopped, nonblank answer is complete wherever one is asked for, spelt out or not. */
  lemma TextAnswerIsComplete(text: string, model: string, body: Body)
    requires "n" in body.fields ==> body.fields["n"] == Number(1.0)
    ensures Complete(Obj(map["model" := Str(model), "choices" := Arr([TextChoice(text)])]), body) <==>
      exists i :: 0 <= i < |text| && !IsSpace(text[i])
  {
    var answer := Obj(map["model" := Str(model), "choices" := Arr([TextChoice(text)])]);
    assert answer.fields["choices"].items[0] == TextChoice(text);
    assert CompleteChoice(TextChoice(text)) <==> !Blank(text);
  }

  /** Errors, cut off or tool-calling choices, and any other number of choices than asked for are never complete. */
  lemma NeverComplete(answer: Json, body: Body, i: nat)
    requires answer.Obj? && "choices" in answer.fields && answer.fields["choices"].Arr? && i < |answer.fields["choices"].items|
    requires var choice := answer.fields["choices"].items[i];
      || "error" in answer.fields
      || (if "n" in body.fields then body.fields["n"] else Number(1.0)) != Number(|answer.fields["choices"].items| as real)
      || !choice.Obj? || "finish_reason" !in choice.fields || choice.fields["finish_reason"] != Str("stop")
      || ("message" in choice.fields && choice.fields["message"].Obj?
          && exists key :: key in ["tool_calls", "function_call", "refusal"] && key in choice.fields["message"].fields
                           && Truthy(choice.fields["message"].fields[key]))
    ensures !Complete(answer, body)
  {
  }

  // ----- configuration, entries and the answers of the outside world -----

  datatype Mode = Similarity | Verified

  datatype Config = Config(mode: Mode, threshold: real, margin: real, ttl: int, limit: nat, maxBytes: nat)

  predicate ValidConfig(c: Config) {
    -1.0 <= c.threshold <= 1.0 && 0.0 <= c.margin <= 2.0 && c.ttl > 0 && c.limit >= 1 && c.maxBytes >= 1
  }

  /** The fixed surroundings: settings, the byte size of a document, and the order of request digests. */
  datatype Setup = Setup(config: Config, size: Json -> nat, rank: Key -> int)

  datatype Entry = Entry(key: Key, answer: Json, vector: seq<real>, eventId: string, expires: int, bytes: nat)

  datatype Usage = Usage(prompt: nat, completion: nat)

  datatype Verdict = Verdict(approved: bool, calls: int, usage: seq<Option<Usage>>, latency: int, error: Option<string>)

  predicate ValidVerdict(v: Verdict) {
    0 <= v.calls <= 1 && |v.usage| <= v.calls && v.latency >= 0
  }

  const VERIFICATION_FAILED := Verdict(false, 1, [], 0, Some("verification_failed"))

  datatype VerifierReply = VerifierPauses | VerifierRaises | Malformed | Says(verdict: Verdict)

  datatype Encoding = EncoderPauses | EncoderFails | Encoded(vector: seq<real>)

  /** One call, with what eligibility, clock, encoder, verifier and provider will answer if asked during it. */
  datatype Call = Call(key: Key, eventId: string, eligible: bool, eligibleAtReuse: bool, eligibleAtAdmission: bool,
                       now: int, later: int, encoding: Encoding, verifier: VerifierReply, reply: Upstream)

  datatype Status = Hit | Miss | Bypass

  datatype Reason = NotEligible | ExactHit | SemanticHit(mode: Mode) | Generated | ProcessingFailed | NotAdmitted

  datatype CacheResult = CacheResult(response: Value, status: Status, reason: Reason, stored: bool, candidate: Option<string>,
                                     similarity: Option<real>, verification: Option<Verdict>)

  datatype Outcome = Done(result: CacheResult) | Raised | PausedRun

  // ----- the recency-ordered entries, least recent first -----

  function Sum(entries: seq<Entry>): nat {
    if entries == [] then 0 else Sum(entries[..|entries| - 1]) + entries[|entries| - 1].bytes
  }

  function Unexpired(entries: seq<Entry>, now: int): seq<Entry> {
    if entries == [] then []
    else
      var last := entries[|entries| - 1];
      Unexpired(entries[..|entries| - 1], now) + if last.expires <= now then [] else [last]
  }

  ghost predicate HasKey(entries: seq<Entry>, k: Key) {
    exists i :: 0 <= i < |entries| && entries[i].key == k
  }

  ghost predicate DistinctKeys(entries: seq<Entry>) {
    forall i, j :: 0 <= i < j < |entries| ==> entries[i].key != entries[j].key
  }

  /** The entry at `i` becomes the most recent. */
  function Promote(entries: seq<Entry>, i: nat): seq<Entry>
    requires i < |entries|
  {
    entries[..i] + entries[i + 1..] + [entries[i]]
  }

  predicate WithinBounds(c: Config, entries: seq<Entry>) {
    |entries| <= c.limit && Sum(entries) <= c.maxBytes
  }

  /** Drop the least recent entries until both bounds hold. */
  function Evicted(c: Config, entries: seq<Entry>): seq<Entry> {
    if entries == [] || WithinBounds(c, entries) then entries else Evicted(c, entries[1..])
  }

  /** What is stored under a key was a complete answer to exactly that request, and its size is accounted for. */
  predicate WellMade(s: Setup, e: Entry) {
    e.bytes == s.size(e.answer) && Complete(e.answer, e.key.body)
  }

  ghost predicate Sound(s: Setup, entries: seq<Entry>) {
    && DistinctKeys(entries)
    && WithinBounds(s.config, entries)
    && forall i :: 0 <= i < |entries| ==> WellMade(s, entries[i])
  }

  // ----- retrieval, declared -----

  /** Componentwise products summed over the common length. */
  function Dot(a: seq<real>, b: seq<real>): real {
    if a == [] || b == [] then 0.0 else a[0] * b[0] + Dot(a[1..], b[1..])
  }

  predicate InScope(e: Entry, k: Key) {
    ScopeOf(e.key) == ScopeOf(k)
  }

  /** Comparable: every entry of the scope has a vector of the query's dimension. */
  ghost predicate SameDimension(live: seq<Entry>, k: Key, v: seq<real>) {
    forall i :: 0 <= i < |live| && InScope(live[i], k) ==> |live[i].vector| == |v|
  }

  /** The entry at `i` is the first of its scope by score, then by digest. */
  ghost predicate Leads(s: Setup, live: seq<Entry>, k: Key, v: seq<real>, i: nat) {
    && i < |live| && InScope(live[i], k)
    && forall j :: 0 <= j < |live| && InScope(live[j], k) ==>
         || Dot(v, live[i].vector) > Dot(v, live[j].vector)
         || (Dot(v, live[i].vector) == Dot(v, live[j].vector) && s.rank(live[i].key) <= s.rank(live[j].key))
  }

  /** It meets the threshold and is ahead of every other entry of the scope by the margin. */
  ghost predicate Convincing(s: Setup, live: seq<Entry>, k: Key, v: seq<real>, i: nat) {
    && i < |live|
    && Dot(v, live[i].vector) >= s.config.threshold
    && forall j :: 0 <= j < |live| && j != i && InScope(live[j], k) ==>
         Dot(v, live[i].vector) - Dot(v, live[j].vector) >= s.config.margin
  }

  predicate Affirms(v: VerifierReply) {
    v.Says? && ValidVerdict(v.verdict) && v.verdict.approved && v.verdict.error.None?
  }

  /** What is recorded of one verification attempt: a failure unless a well-formed verdict came back. */
  function Recorded(v: VerifierReply): Verdict {
    if v.Says? && ValidVerdict(v.verdict) then v.verdict else VERIFICATION_FAILED
  }

  /** The outcome of retrieval: an entry to reuse, or none, with what there is to report. */
  datatype Retrieval = Retrieval(paused: bool, reuse: Option<nat>, score: Option<real>, verification: Option<Verdict>, failed: bool)

  ghost predicate Retrieves(s: Setup, live: seq<Entry>, c: Call, r: Retrieval) {
    match c.encoding
    case EncoderPauses => r == Retrieval(true, None, None, None, false)
    case EncoderFails => r == Retrieval(false, None, None, None, true)
    case Encoded(v) =>
      if !SameDimension(live, c.key, v) then r == Retrieval(false, None, None, None, true)
      else if forall j :: 0 <= j < |live| ==> !InScope(live[j], c.key) then r == Retrieval(false, None, None, None, false)
      else exists i :: Leads(s, live, c.key, v, i) && RetrievesLeader(s, live, c, v, i, r)
  }

  ghost predicate RetrievesLeader(s: Setup, live: seq<Entry>, c: Call, v: seq<real>, i: nat, r: Retrieval) {
    i < |live| &&
    var score := Some(Dot(v, live[i].vector));
    if !Convincing(s, live, c.key, v, i) then r == Retrieval(false, None, score, None, false)
    else if s.config.mode.Similarity? then
      r == Retrieval(false, if c.eligibleAtReuse then Some(i) else None, score, None, false)
    else if c.verifier.VerifierPauses? then
      r == Retrieval(true, None, score, Some(VERIFICATION_FAILED), false)
    else
      var spoken := c.verifier.Says? && ValidVerdict(c.verifier.verdict);
      r == Retrieval(false, if Affirms(c.verifier) && c.eligibleAtReuse then Some(i) else None, score,
                     Some(Recorded(c.verifier)), !spoken)
  }

  // ----- one call, declared -----

  datatype Effect = Effect(entries: seq<Entry>, outcome: Outcome, calls: nat, lastVerification: Option<Verdict>)

  predicate Bypasses(c: Call) {
    !c.eligible || !Lacks(c.key.body.fields, "stream") || c.key.body.lastRole != "user"
  }

  function Forwarded(reply: Upstream): Outcome {
    match reply
    case Paused => PausedRun
    case Raises => Raised
    case Returns(v) => Done(CacheResult(v, Bypass, NotEligible, false, None, None, None))
  }

  predicate Admits(s: Setup, c: Call, v: Value) {
    c.eligibleAtAdmission && v.Document? && Complete(v.json, c.key.body) && c.encoding.Encoded? && s.size(v.json) <= s.config.maxBytes
  }

  function NewEntry(s: Setup, c: Call, answer: Json): Entry
    requires c.encoding.Encoded?
  {
    Entry(c.key, answer, c.encoding.vector, c.eventId, c.later + s.config.ttl, s.size(answer))
  }

  /** Generation after a lookup that reused nothing. */
  function Generation(s: Setup, live: seq<Entry>, c: Call, r: Retrieval): Effect {
    match c.reply
    case Paused => Effect(live, PausedRun, 1, r.verification)
    case Raises => Effect(live, Raised, 1, r.verification)
    case Returns(v) =>
      if c.eligibleAtAdmission && CheckCrashes(v) then Effect(live, Raised, 1, r.verification)
      else if Admits(s, c, v) then
        Effect(Evicted(s.config, live + [NewEntry(s, c, v.json)]),
               Done(CacheResult(v, Miss, Generated, true, None, r.score, r.verification)), 1, r.verification)
      else
        Effect(live, Done(CacheResult(v, Miss, if r.failed then ProcessingFailed else NotAdmitted, false, None, r.score, r.verification)),
               1, r.verification)
  }

  /** A stored answer goes out unchanged; the provider is not called. */
  function Reuse(live: seq<Entry>, i: nat, reason: Reason, score: Option<real>, verification: Option<Verdict>): Effect
    requires i < |live|
  {
    Effect(Promote(live, i), Done(CacheResult(Document(live[i].answer), Hit, reason, false, Some(live[i].eventId), score, verification)),
           0, verification)
  }

  ghost predicate Steps(s: Setup, before: seq<Entry>, c: Call, x: Effect) {
    var live := Unexpired(before, c.now);
    if Bypasses(c) then x == Effect(before, Forwarded(c.reply), 1, None)
    else if HasKey(live, c.key) then
      exists i :: 0 <= i < |live| && live[i].key == c.key && x == Reuse(live, i, ExactHit, None, None)
    else exists r :: Retrieves(s, live, c, r) && Concludes(s, live, c, r, x)
  }

  ghost predicate Concludes(s: Setup, live: seq<Entry>, c: Call, r: Retrieval, x: Effect) {
    if r.paused then x == Effect(live, PausedRun, 0, r.verification)
    else match r.reuse
      case Some(i) => i < |live| && x == Reuse(live, i, SemanticHit(s.config.mode), r.score, r.verification)
      case None => x == Generation(s, live, c, r)
  }

  // ----- the recency list keeps its invariants -----

  lemma {:induction false} UnexpiredSize(entries: seq<Entry>, now: int)
    ensures Sum(Unexpired(entries, now)) <= Sum(entries) && |Unexpired(entries, now)| <= |entries|
  {
    if entries == [] {
    } else {
      var n := |entries| - 1;
      var last, rest := entries[n], Unexpired(entries[..n], now);
      UnexpiredSize(entries[..n], now);
      SumAppend(rest, last);
      assert rest + [] == rest;
    }
  }

  lemma {:induction false} UnexpiredMembers(entries: seq<Entry>, now: int)
    ensures forall e :: e in Unexpired(entries, now) <==> e in entries && e.expires > now
  {
    if entries == [] {
    } else {
      var n := |entries| - 1;
      UnexpiredMembers(entries[..n], now);
      assert entries == entries[..n] + [entries[n]];
    }
  }

  lemma {:induction false} UnexpiredDistinct(entries: seq<Entry>, now: int)
    requires DistinctKeys(entries)
    ensures DistinctKeys(Unexpired(entries, now))
  {
    if entries == [] {
    } else {
      var n := |entries| - 1;
      var init, last := entries[..n], entries[n];
      UnexpiredDistinct(init, now);
      UnexpiredMembers(init, now);
      var rest := Unexpired(init, now);
      forall i | 0 <= i < |rest|
        ensures rest[i].key != last.key
      {
        assert rest[i] in init;
      }
    }
  }

  lemma ExpireStep(all: seq<Entry>, i: nat, now: int)
    requires i < |all|
    ensures Unexpired(all[..i + 1], now) == if all[i].expires <= now then Unexpired(all[..i], now) else Unexpired(all[..i], now) + [all[i]]
    ensures Sum(all[i..]) == all[i].bytes + Sum(all[i + 1..])
  {
    assert all[..i + 1][..i] == all[..i];
    assert Unexpired(all[..i], now) + [] == Unexpired(all[..i], now);
    assert all[i..] == [all[i]] + all[i + 1..];
    SumSplit([all[i]], all[i + 1..]);
    SumAppend([], all[i]);
  }

  lemma UnexpiredFacts(s: Setup, entries: seq<Entry>, now: int)
    requires Sound(s, entries)
    ensures Sound(s, Unexpired(entries, now))
    ensures forall e :: e in Unexpired(entries, now) <==> e in entries && e.expires > now
  {
    hide Unexpired, Sum, WellMade;
    UnexpiredSize(entries, now);
    UnexpiredMembers(entries, now);
    UnexpiredDistinct(entries, now);
    var live := Unexpired(entries, now);
    forall i | 0 <= i < |live|
      ensures WellMade(s, live[i])
    {
      assert live[i] in entries;
    }
  }

  lemma SumAppend(entries: seq<Entry>, e: Entry)
    ensures Sum(entries + [e]) == Sum(entries) + e.bytes
  {
    assert (entries + [e])[..|entries|] == entries;
  }

  lemma {:induction false} SumSplit(a: seq<Entry>, b: seq<Entry>)
    ensures Sum(a + b) == Sum(a) + Sum(b)
  {
    if b == [] {
      assert a + b == a;
    } else {
      var n := |b| - 1;
      SumSplit(a, b[..n]);
      assert b == b[..n] + [b[n]];
      assert a + b == (a + b[..n]) + [b[n]];
      SumAppend(a + b[..n], b[n]);
    }
  }

  /** Promotion reorders: same entries, same total, and the promoted one is last. */
  lemma PromoteFacts(s: Setup, entries: seq<Entry>, i: nat)
    requires i < |entries|
    ensures var p := Promote(entries, i);
      && |p| == |entries| && p[|p| - 1] == entries[i] && Sum(p) == Sum(entries)
      && (forall e :: e in p <==> e in entries)
      && (Sound(s, entries) ==> Sound(s, p))
  {
    var a, e, b := entries[..i], entries[i], entries[i + 1..];
    assert entries == a + [e] + b && Promote(entries, i) == a + b + [e];
    SumSplit(a + [e], b);
    SumAppend(a, e);
    SumSplit(a, b);
    SumAppend(a + b, e);
    if Sound(s, entries) {
      PromoteDistinct(entries, i);
    }
  }

  lemma PromoteDistinct(entries: seq<Entry>, i: nat)
    requires i < |entries| && DistinctKeys(entries)
    ensures DistinctKeys(Promote(entries, i))
  {
  }

  /** Eviction drops the shortest prefix of least recent entries that restores both bounds. */
  lemma {:induction false} EvictedIsShortest(c: Config, entries: seq<Entry>)
    requires ValidConfig(c)
    ensures var kept := Evicted(c, entries);
      && |kept| <= |entries| && kept == entries[|entries| - |kept|..]
      && WithinBounds(c, kept)
      && forall d :: 0 <= d < |entries| - |kept| ==> !WithinBounds(c, Dropped(entries, d))
  {
    if entries == [] || WithinBounds(c, entries) {
    } else {
      var rest := entries[1..];
      EvictedIsShortest(c, rest);
      var kept := Evicted(c, entries);
      forall d | 0 <= d < |entries| - |kept|
        ensures !WithinBounds(c, Dropped(entries, d))
      {
        if d > 0 {
          assert Dropped(entries, d) == Dropped(rest, d - 1);
        }
      }
    }
  }

  function Dropped(entries: seq<Entry>, d: nat): seq<Entry>
    requires d <= |entries|
  {
    entries[d..]
  }

  /** An entry that fits on its own is still there, as the most recent, after the eviction it causes. */
  lemma {:induction false} NewestSurvives(c: Config, entries: seq<Entry>, e: Entry)
    requires ValidConfig(c) && e.bytes <= c.maxBytes
    ensures var kept := Evicted(c, entries + [e]); kept != [] && kept[|kept| - 1] == e
  {
    var all := entries + [e];
    if entries == [] {
      assert all == [e] && Sum(all[..0]) == 0;
      assert WithinBounds(c, all);
    } else if !WithinBounds(c, all) {
      assert all[1..] == entries[1..] + [e];
      NewestSurvives(c, entries[1..], e);
    }
  }

  lemma AdmittedSound(s: Setup, live: seq<Entry>, e: Entry)
    requires ValidConfig(s.config) && Sound(s, live) && !HasKey(live, e.key) && WellMade(s, e)
    ensures Sound(s, Evicted(s.config, live + [e]))
    ensures forall x :: x in Evicted(s.config, live + [e]) ==> x in live || x == e
  {
    EvictedIsShortest(s.config, live + [e]);
    hide WellMade, WithinBounds, Evicted;
    assert DistinctKeys(live + [e]);
  }

  /** Every call leaves the byte total, both bounds, key uniqueness and the entries' completeness intact. */
  lemma StepsKeepSound(s: Setup, before: seq<Entry>, c: Call, x: Effect)
    requires ValidConfig(s.config) && Sound(s, before) && Steps(s, before, c, x)
    ensures Sound(s, x.entries)
  {
    hide Sound, Retrieves, Evicted, Unexpired, Promote;
    var live := Unexpired(before, c.now);
    UnexpiredFacts(s, before, c.now);
    if Bypasses(c) {
    } else if HasKey(live, c.key) {
      var i :| 0 <= i < |live| && live[i].key == c.key && x == Reuse(live, i, ExactHit, None, None);
      PromoteFacts(s, live, i);
    } else {
      var r :| Retrieves(s, live, c, r) && Concludes(s, live, c, r, x);
      if !r.paused && r.reuse.Some? {
        PromoteFacts(s, live, r.reuse.value);
      } else if c.reply.Returns? && Admits(s, c, c.reply.value) {
        AdmittedSound(s, live, NewEntry(s, c, c.reply.value.json));
      }
    }
  }

  /** Entries only come from before, except the one an admission adds. */
  lemma StepsEntries(s: Setup, before: seq<Entry>, c: Call, x: Effect, e: Entry)
    requires ValidConfig(s.config) && Sound(s, before) && Steps(s, before, c, x) && e in x.entries
    ensures e in before || (e.key == c.key && e.eventId == c.eventId && Complete(e.answer, c.key.body)
      && x.outcome.Done? && x.outcome.result.status.Miss? && x.outcome.result.stored && x.outcome.result.response == Document(e.answer)
      && e.expires == c.later + s.config.ttl && c.encoding == Encoded(e.vector) && !HasKey(Unexpired(before, c.now), c.key))
  {
    hide Sound, Complete, Retrieves, Unexpired, Promote, Evicted, CheckCrashes;
    var live := Unexpired(before, c.now);
    UnexpiredFacts(s, before, c.now);
    if Bypasses(c) {
    } else if HasKey(live, c.key) {
      var i :| 0 <= i < |live| && live[i].key == c.key && x == Reuse(live, i, ExactHit, None, None);
      PromoteFacts(s, live, i);
    } else {
      var r :| Retrieves(s, live, c, r) && Concludes(s, live, c, r, x);
      if !r.paused && r.reuse.Some? {
        PromoteFacts(s, live, r.reuse.value);
      } else if c.reply.Returns? && Admits(s, c, c.reply.value) {
        EvictedIsShortest(s.config, live + [NewEntry(s, c, c.reply.value.json)]);
      }
    }
  }

  // ----- what a result means -----

  /** Whether an answer is complete depends only on the scope of the request. */
  lemma ScopeDecidesCompleteness(a: Key, b: Key, answer: Json)
    requires ScopeOf(a) == ScopeOf(b)
    ensures a.tenant == b.tenant && (Complete(answer, a.body) <==> Complete(answer, b.body))
  {
    assert ScopeOf(a).body.fields == ScopeOf(b).body.fields;
  }

  /** The entry justifying a reuse. */
  ghost predicate Justifies(s: Setup, before: seq<Entry>, c: Call, r: CacheResult, e: Entry) {
    && e in before && e.expires > c.now && InScope(e, c.key)
    && r.response == Document(e.answer) && r.candidate == Some(e.eventId) && !r.stored
    && match r.reason
       case ExactHit => e.key == c.key && r.verification.None? && r.similarity.None?
       case SemanticHit(mode) =>
         && mode == s.config.mode && c.eligibleAtReuse && c.encoding.Encoded?
         && r.similarity == Some(Dot(c.encoding.vector, e.vector))
         && (exists i :: 0 <= i < |Unexpired(before, c.now)| && Unexpired(before, c.now)[i] == e
               && Leads(s, Unexpired(before, c.now), c.key, c.encoding.vector, i)
               && Convincing(s, Unexpired(before, c.now), c.key, c.encoding.vector, i))
         && (mode.Verified? ==> Affirms(c.verifier) && r.verification == Some(c.verifier.verdict))
         && (mode.Similarity? ==> r.verification.None?)
       case _ => false
  }

  lemma ExactIsJustified(s: Setup, before: seq<Entry>, c: Call, x: Effect, i: nat)
    requires Sound(s, before) && i < |Unexpired(before, c.now)| && Unexpired(before, c.now)[i].key == c.key
    requires x == Reuse(Unexpired(before, c.now), i, ExactHit, None, None)
    ensures Justifies(s, before, c, x.outcome.result, Unexpired(before, c.now)[i])
  {
    hide Unexpired, Sound, Leads, Convincing, Promote;
    UnexpiredFacts(s, before, c.now);
    assert Unexpired(before, c.now)[i] in Unexpired(before, c.now);
  }

  lemma SemanticIsJustified(s: Setup, before: seq<Entry>, c: Call, x: Effect, r: Retrieval)
    requires Sound(s, before) && Retrieves(s, Unexpired(before, c.now), c, r)
    requires Concludes(s, Unexpired(before, c.now), c, r, x) && !r.paused && r.reuse.Some?
    ensures r.reuse.value < |Unexpired(before, c.now)|
    ensures Justifies(s, before, c, x.outcome.result, Unexpired(before, c.now)[r.reuse.value])
  {
    hide Unexpired, Sound, Leads, Convincing, Promote, SameDimension;
    var live, v := Unexpired(before, c.now), c.encoding.vector;
    UnexpiredFacts(s, before, c.now);
    var i: nat :| Leads(s, live, c.key, v, i) && RetrievesLeader(s, live, c, v, i, r);
    LeaderInScope(s, live, c.key, v, i);
    assert live[i] in live;
  }

  /** A hit is an unexpired, same-scope, stored answer; semantically it leads, convinces and was approved. */
  lemma HitIsJustified(s: Setup, before: seq<Entry>, c: Call, x: Effect)
    requires Sound(s, before) && Steps(s, before, c, x) && x.outcome.Done? && x.outcome.result.status.Hit?
    ensures x.calls == 0 && !Bypasses(c)
    ensures exists e :: Justifies(s, before, c, x.outcome.result, e)
  {
    hide Sound, Complete, Unexpired, Justifies, Retrieves, Evicted, Promote;
    var live := Unexpired(before, c.now);
    if HasKey(live, c.key) {
      var i :| 0 <= i < |live| && live[i].key == c.key && x == Reuse(live, i, ExactHit, None, None);
      ExactIsJustified(s, before, c, x, i);
    } else {
      var r :| Retrieves(s, live, c, r) && Concludes(s, live, c, r, x);
      SemanticIsJustified(s, before, c, x, r);
    }
  }

  lemma LeaderInScope(s: Setup, live: seq<Entry>, k: Key, v: seq<real>, i: nat)
    requires Leads(s, live, k, v, i)
    ensures i < |live| && InScope(live[i], k)
  {
  }

  /** Encoder and verifier failures never lead to reuse of anything but the identical request's own answer. */
  lemma FailureNeverReuses(s: Setup, before: seq<Entry>, c: Call, x: Effect)
    requires Sound(s, before) && Steps(s, before, c, x) && x.outcome.Done? && x.outcome.result.status.Hit?
    requires c.encoding.EncoderFails? || (s.config.mode.Verified? && !Affirms(c.verifier))
    ensures x.outcome.result.reason == ExactHit && HasKey(before, c.key)
  {
    HitIsJustified(s, before, c, x);
    var e :| Justifies(s, before, c, x.outcome.result, e);
    var i :| 0 <= i < |before| && before[i] == e;
  }

  lemma LeadersAgree(s: Setup, live: seq<Entry>, k: Key, v: seq<real>, i: nat, j: nat)
    requires ValidConfig(s.config)
    requires Leads(s, live, k, v, i) && Leads(s, live, k, v, j) && Convincing(s, live, k, v, i)
    ensures Convincing(s, live, k, v, j)
  {
    assert Dot(v, live[i].vector) == Dot(v, live[j].vector);
    hide Dot;
  }

  /** With nothing stored for the request itself, reuse happens exactly for an approved, convincing leader. */
  lemma SemanticHitIff(s: Setup, before: seq<Entry>, c: Call, x: Effect)
    requires ValidConfig(s.config) && Steps(s, before, c, x) && !Bypasses(c) && !HasKey(Unexpired(before, c.now), c.key)
    ensures var live := Unexpired(before, c.now);
      (x.outcome.Done? && x.outcome.result.status.Hit?)
      <==> && c.eligibleAtReuse && c.encoding.Encoded? && SameDimension(live, c.key, c.encoding.vector)
           && (s.config.mode.Similarity? || Affirms(c.verifier))
           && exists i :: Leads(s, live, c.key, c.encoding.vector, i) && Convincing(s, live, c.key, c.encoding.vector, i)
  {
    hide Unexpired, SameDimension, Evicted, Leads, Convincing;
    var live := Unexpired(before, c.now);
    var r :| Retrieves(s, live, c, r) && Concludes(s, live, c, r, x);
    if c.encoding.Encoded? && SameDimension(live, c.key, c.encoding.vector) {
      var v := c.encoding.vector;
      forall i | Leads(s, live, c.key, v, i)
        ensures exists j :: 0 <= j < |live| && InScope(live[j], c.key)
      {
        LeaderInScope(s, live, c.key, v, i);
      }
      forall i, j | Leads(s, live, c.key, v, i) && Leads(s, live, c.key, v, j) && Convincing(s, live, c.key, v, i)
        ensures Convincing(s, live, c.key, v, j)
      {
        LeadersAgree(s, live, c.key, v, i, j);
      }
    }
  }

  lemma OnlyEntry(entries: seq<Entry>, e: Entry, i: nat)
    requires DistinctKeys(entries) && e in entries && i < |entries| && entries[i].key == e.key
    ensures entries[i] == e
  {
    var j :| 0 <= j < |entries| && entries[j] == e;
  }

  lemma SameKeySameEntry(entries: seq<Entry>, a: Entry, b: Entry)
    requires DistinctKeys(entries) && a in entries && b in entries
    ensures a.key == b.key ==> a == b
  {
    var i :| 0 <= i < |entries| && entries[i] == a;
    var j :| 0 <= j < |entries| && entries[j] == b;
  }

  /** The last entry of a state after a stored generation is the one just made. */
  lemma StoredIsLast(s: Setup, before: seq<Entry>, c: Call, x: Effect)
    requires ValidConfig(s.config) && Steps(s, before, c, x) && x.outcome.Done? && x.outcome.result.stored
    ensures c.encoding.Encoded? && x.outcome.result.response.Document? && x.calls == 1
    ensures NewEntry(s, c, x.outcome.result.response.json) in x.entries
  {
    hide Retrieves, Unexpired, Evicted, Complete, CheckCrashes, HasKey;
    var live := Unexpired(before, c.now);
    if !Bypasses(c) && !HasKey(live, c.key) {
      var r :| Retrieves(s, live, c, r) && Concludes(s, live, c, r, x);
      NewestSurvives(s.config, live, NewEntry(s, c, x.outcome.result.response.json));
    }
  }

  /** What one call stores, the next call for the same request gets back unchanged until it expires, without a provider call. */
  lemma StoredIsReplayed(s: Setup, before: seq<Entry>, first: Call, x: Effect, second: Call, y: Effect)
    requires ValidConfig(s.config) && Sound(s, before) && Steps(s, before, first, x) && Steps(s, x.entries, second, y)
    requires x.outcome.Done? && x.outcome.result.stored
    requires second.key == first.key && !Bypasses(second) && second.now < first.later + s.config.ttl
    ensures y.calls == 0 && y.outcome
      == Done(CacheResult(x.outcome.result.response, Hit, ExactHit, false, Some(first.eventId), None, None))
  {
    StepsKeepSound(s, before, first, x);
    StoredIsLast(s, before, first, x);
    UnexpiredFacts(s, x.entries, second.now);
    hide Retrieves, Unexpired, Evicted, Complete, WellMade, WithinBounds, Promote;
    var live, e := Unexpired(x.entries, second.now), NewEntry(s, first, x.outcome.result.response.json);
    var k :| 0 <= k < |live| && live[k] == e;
    assert HasKey(live, second.key);
    var i :| 0 <= i < |live| && live[i].key == second.key && y == Reuse(live, i, ExactHit, None, None);
    OnlyEntry(live, e, i);
  }

  /** Once its time to live is over, the answer a call stored is not returned: a hit is then on an older entry. */
  lemma ExpiredIsNotReplayed(s: Setup, before: seq<Entry>, first: Call, x: Effect, second: Call, y: Effect)
    requires ValidConfig(s.config) && Sound(s, before) && Steps(s, before, first, x) && Steps(s, x.entries, second, y)
    requires x.outcome.Done? && x.outcome.result.stored && second.now >= first.later + s.config.ttl
    requires y.outcome.Done? && y.outcome.result.status.Hit?
    ensures exists e :: e in before && e.key != first.key && e.expires > second.now
                        && y.outcome.result.response == Document(e.answer) && y.outcome.result.candidate == Some(e.eventId)
    ensures second.key == first.key ==> y.outcome.result.reason != ExactHit
  {
    StepsKeepSound(s, before, first, x);
    StoredIsLast(s, before, first, x);
    HitIsJustified(s, x.entries, second, y);
    var e :| Justifies(s, x.entries, second, y.outcome.result, e);
    StepsEntries(s, before, first, x, e);
    var stored := NewEntry(s, first, x.outcome.result.response.json);
    hide Steps, Justifies, Complete, WellMade, WithinBounds;
    JustifiedEntry(s, x.entries, second, y.outcome.result, e);
    SameKeySameEntry(x.entries, e, stored);
  }

  lemma JustifiedEntry(s: Setup, before: seq<Entry>, c: Call, r: CacheResult, e: Entry)
    requires Justifies(s, before, c, r, e)
    ensures e in before && e.expires > c.now && r.response == Document(e.answer) && r.candidate == Some(e.eventId)
    ensures r.reason == ExactHit ==> e.key == c.key
  {
    hide Leads, Convincing, Unexpired;
  }

  /** Ineligible, streaming and unfinished requests pass the cache by, and only these do. */
  lemma BypassIff(s: Setup, before: seq<Entry>, c: Call, x: Effect)
    requires Steps(s, before, c, x) && x.outcome.Done?
    ensures x.outcome.result.status.Bypass? <==>
      !c.eligible || ("stream" in c.key.body.fields && Truthy(c.key.body.fields["stream"])) || c.key.body.lastRole != "user"
    ensures x.outcome.result.status.Bypass? ==>
      x.entries == before && x.calls == 1 && c.reply == Returns(x.outcome.result.response) && !x.outcome.result.stored
  {
    hide Retrieves, Unexpired, Evicted, Promote, Complete, CheckCrashes;
  }

  /** What is not reused is generated anew, and stored exactly when it is complete, still eligible, encoded and small enough. */
  lemma StoredIff(s: Setup, before: seq<Entry>, c: Call, x: Effect)
    requires Steps(s, before, c, x) && x.outcome.Done? && x.outcome.result.status.Miss?
    ensures x.calls == 1 && c.reply == Returns(x.outcome.result.response) && x.outcome.result.candidate.None?
    ensures x.outcome.result.stored <==>
      && x.outcome.result.response.Document? && Complete(x.outcome.result.response.json, c.key.body)
      && c.eligibleAtAdmission && c.encoding.Encoded? && s.size(x.outcome.result.response.json) <= s.config.maxBytes
    ensures !x.outcome.result.stored ==> x.entries == Unexpired(before, c.now)
    ensures x.outcome.result.stored <==> x.outcome.result.reason == Generated
  {
    hide Retrieves, Unexpired, Evicted, Promote, Complete, CheckCrashes;
  }

  /** Two requests share a scope when they differ at most in the text of their last message. */
  lemma SameScopeIff(a: Key, b: Key)
    ensures ScopeOf(a) == ScopeOf(b) <==> a == b.(body := b.body.(content := a.body.content))
  {
  }

  /** The similarity is the sum of the products of the components. */
  lemma {:induction false} DotAppend(a: seq<real>, b: seq<real>, x: real, y: real)
    requires |a| == |b|
    ensures Dot(a + [x], b + [y]) == Dot(a, b) + x * y && Dot([], []) == 0.0
  {
    if a == [] {
      assert (a + [x])[1..] == [] && (b + [y])[1..] == [];
    } else {
      DotAppend(a[1..], b[1..], x, y);
      assert (a + [x])[1..] == a[1..] + [x] && (b + [y])[1..] == b[1..] + [y];
    }
  }

  /** Some entry of the scope leads, convincingly. */
  ghost predicate HasConvincingLeader(s: Setup, live: seq<Entry>, c: Call) {
    && c.encoding.Encoded? && SameDimension(live, c.key, c.encoding.vector)
    && exists i :: Leads(s, live, c.key, c.encoding.vector, i) && Convincing(s, live, c.key, c.encoding.vector, i)
  }

  predicate WellSpoken(v: VerifierReply) {
    v.Says? && 0 <= v.verdict.calls <= 1 && |v.verdict.usage| <= v.verdict.calls && v.verdict.latency >= 0
  }

  function RecordedAs(v: VerifierReply): Verdict {
    if WellSpoken(v) then v.verdict else Verdict(false, 1, [], 0, Some("verification_failed"))
  }

  /**
   * The verifier is asked exactly about a convincing leader in verified mode; a well-formed verdict is recorded as it
   * is, anything else as a failed attempt. What was not reused is reported as failed processing exactly if encoding,
   * comparing or verifying failed.
   */
  lemma VerificationIff(s: Setup, before: seq<Entry>, c: Call, x: Effect)
    requires ValidConfig(s.config) && Steps(s, before, c, x) && !Bypasses(c) && !HasKey(Unexpired(before, c.now), c.key)
    ensures var live := Unexpired(before, c.now);
      && (x.lastVerification.Some? <==> s.config.mode.Verified? && HasConvincingLeader(s, live, c))
      && (x.lastVerification.Some? ==> x.lastVerification.value == RecordedAs(c.verifier))
    ensures var live := Unexpired(before, c.now);
      x.outcome.Done? && x.outcome.result.status.Miss? && !x.outcome.result.stored ==>
        (x.outcome.result.reason == ProcessingFailed <==>
          || c.encoding.EncoderFails?
          || (c.encoding.Encoded? && !SameDimension(live, c.key, c.encoding.vector))
          || (s.config.mode.Verified? && HasConvincingLeader(s, live, c) && !WellSpoken(c.verifier)))
  {
    hide Unexpired, SameDimension, Evicted, Leads, Convincing, Promote, Complete, CheckCrashes;
    var live := Unexpired(before, c.now);
    var r :| Retrieves(s, live, c, r) && Concludes(s, live, c, r, x);
    if c.encoding.Encoded? && SameDimension(live, c.key, c.encoding.vector) {
      var v := c.encoding.vector;
      forall i | Leads(s, live, c.key, v, i)
        ensures exists j :: 0 <= j < |live| && InScope(live[j], c.key)
      {
        LeaderInScope(s, live, c.key, v, i);
      }
      forall i, j | Leads(s, live, c.key, v, i) && Leads(s, live, c.key, v, j) && Convincing(s, live, c.key, v, i)
        ensures Convincing(s, live, c.key, v, j)
      {
        LeadersAgree(s, live, c.key, v, i, j);
      }
    }
  }

  /** A stored answer goes last, and the shortest least-recent front goes that makes room; nothing goes if there is room. */
  lemma StoringEvictsLeast(s: Setup, before: seq<Entry>, c: Call, x: Effect) returns (e: Entry, n: nat)
    requires ValidConfig(s.config) && Steps(s, before, c, x) && x.outcome.Done? && x.outcome.result.stored
    ensures var all := Unexpired(before, c.now) + [e];
      && e.key == c.key && e.eventId == c.eventId && x.outcome.result.response == Document(e.answer)
      && n <= |Unexpired(before, c.now)| && x.entries == all[n..]
      && |x.entries| <= s.config.limit && Sum(x.entries) <= s.config.maxBytes
      && forall m :: 0 <= m < n ==> |Dropped(all, m)| > s.config.limit || Sum(Dropped(all, m)) > s.config.maxBytes
  {
    hide Retrieves, Unexpired, Complete, CheckCrashes, HasKey, Evicted, Sum;
    var live := Unexpired(before, c.now);
    StoredNew(s, before, c, x);
    e := NewEntry(s, c, x.outcome.result.response.json);
    EvictedIsShortest(s.config, live + [e]);
    NewestSurvives(s.config, live, e);
    n := |live| + 1 - |x.entries|;
  }

  lemma StoredNew(s: Setup, before: seq<Entry>, c: Call, x: Effect)
    requires Steps(s, before, c, x) && x.outcome.Done? && x.outcome.result.stored
    ensures x.outcome.result.response.Document? && c.encoding.Encoded? && s.size(x.outcome.result.response.json) <= s.config.maxBytes
    ensures x.entries == Evicted(s.config, Unexpired(before, c.now) + [NewEntry(s, c, x.outcome.result.response.json)])
  {
    hide Retrieves, Unexpired, Complete, CheckCrashes, HasKey, Evicted, Sum;
  }

  // ----- ranking candidates -----

  datatype Candidate = Candidate(score: real, at: nat)

  function RankAt(s: Setup, live: seq<Entry>, at: nat): int {
    if at < |live| then s.rank(live[at].key) else 0
  }

  predicate Ahead(s: Setup, live: seq<Entry>, a: Candidate, b: Candidate) {
    a.score > b.score || (a.score == b.score && RankAt(s, live, a.at) <= RankAt(s, live, b.at))
  }

  function Insert(s: Setup, live: seq<Entry>, c: Candidate, ranked: seq<Candidate>): seq<Candidate> {
    if ranked == [] then [c]
    else if Ahead(s, live, ranked[0], c) then [ranked[0]] + Insert(s, live, c, ranked[1..])
    else [c] + ranked
  }

  function Ranked(s: Setup, live: seq<Entry>, cs: seq<Candidate>): seq<Candidate> {
    if cs == [] then [] else Insert(s, live, cs[|cs| - 1], Ranked(s, live, cs[..|cs| - 1]))
  }

  ghost predicate InOrder(s: Setup, live: seq<Entry>, cs: seq<Candidate>) {
    forall i, j :: 0 <= i < j < |cs| ==> Ahead(s, live, cs[i], cs[j]) && cs[i].at != cs[j].at
  }

  ghost predicate DifferentEntries(cs: seq<Candidate>) {
    forall i, j :: 0 <= i < j < |cs| ==> cs[i].at != cs[j].at
  }

  lemma {:induction false} InsertFacts(s: Setup, live: seq<Entry>, c: Candidate, ranked: seq<Candidate>)
    requires InOrder(s, live, ranked) && forall i :: 0 <= i < |ranked| ==> ranked[i].at != c.at
    ensures forall x :: x in Insert(s, live, c, ranked) <==> x == c || x in ranked
    ensures InOrder(s, live, Insert(s, live, c, ranked))
  {
    if ranked == [] {
    } else if Ahead(s, live, ranked[0], c) {
      var rest := Insert(s, live, c, ranked[1..]);
      InsertFacts(s, live, c, ranked[1..]);
      assert ranked == [ranked[0]] + ranked[1..];
      forall j | 0 <= j < |rest|
        ensures Ahead(s, live, ranked[0], rest[j]) && ranked[0].at != rest[j].at
      {
        assert rest[j] in rest;
        if rest[j] != c {
          var i :| 0 <= i < |ranked[1..]| && ranked[1..][i] == rest[j];
          assert ranked[i + 1] == rest[j];
        }
      }
    } else {
      assert InOrder(s, live, [c] + ranked);
    }
  }

  lemma {:induction false} RankedFacts(s: Setup, live: seq<Entry>, cs: seq<Candidate>)
    requires DifferentEntries(cs)
    ensures InOrder(s, live, Ranked(s, live, cs)) && forall x :: x in Ranked(s, live, cs) <==> x in cs
  {
    if cs == [] {
    } else {
      var n := |cs| - 1;
      var before := Ranked(s, live, cs[..n]);
      RankedFacts(s, live, cs[..n]);
      assert cs == cs[..n] + [cs[n]];
      forall i | 0 <= i < |before|
        ensures before[i].at != cs[n].at
      {
        assert before[i] in cs[..n];
      }
      InsertFacts(s, live, cs[n], before);
    }
  }

  /** `cs` are the scored entries of the scope among the first `n`, all of the query's dimension. */
  ghost predicate Gathered(live: seq<Entry>, k: Key, v: seq<real>, n: nat, cs: seq<Candidate>) {
    && n <= |live|
    && (forall i :: 0 <= i < n && InScope(live[i], k) ==> |live[i].vector| == |v| && Candidate(Dot(v, live[i].vector), i) in cs)
    && (forall c :: c in cs ==> c.at < n && InScope(live[c.at], k) && c.score == Dot(v, live[c.at].vector))
  }

  /** The head of the ranking leads, and comparing it with the runner-up alone decides whether it convinces. */
  lemma TopLeads(s: Setup, live: seq<Entry>, k: Key, v: seq<real>, cs: seq<Candidate>)
    requires cs != [] && Gathered(live, k, v, |live|, cs) && InOrder(s, live, cs)
    ensures Leads(s, live, k, v, cs[0].at)
    ensures (cs[0].score >= s.config.threshold && (|cs| == 1 || cs[0].score - cs[1].score >= s.config.margin))
      <==> Convincing(s, live, k, v, cs[0].at)
  {
    hide Dot, InScope;
    var top := cs[0];
    assert top in cs;
    forall j | 0 <= j < |live| && InScope(live[j], k)
      ensures Ahead(s, live, top, Candidate(Dot(v, live[j].vector), j))
      ensures j != top.at ==> |cs| > 1 && cs[1].score >= Dot(v, live[j].vector)
    {
      var c := Candidate(Dot(v, live[j].vector), j);
      assert c in cs;
      var i :| 0 <= i < |cs| && cs[i] == c;
    }
    if |cs| > 1 {
      assert cs[1] in cs && cs[1].at != top.at;
    }
  }

  function IndexOf(entries: seq<Entry>, k: Key): (r: Option<nat>)
    ensures r.Some? ==> r.value < |entries| && entries[r.value].key == k
    ensures r.None? ==> !HasKey(entries, k)
  {
    if entries == [] then None
    else if entries[|entries| - 1].key == k then Some(|entries| - 1)
    else IndexOf(entries[..|entries| - 1], k)
  }

  // ----- the cache -----

  class ExperimentalSemanticCache {
    const setup: Setup
    var entries: seq<Entry>
    var bytes: nat
    var lastVerification: Option<Verdict>

    ghost predicate Valid()
      reads this
    {
      ValidConfig(setup.config) && Sound(setup, entries) && bytes == Sum(entries)
    }

    constructor (setup: Setup)
      requires ValidConfig(setup.config)
      ensures Valid() && entries == [] && lastVerification.None? && this.setup == setup
    {
      this.setup := setup;
      entries, bytes, lastVerification := [], 0, None;
    }

    /** Expired entries go, and their bytes with them. */
    method DropExpired(now: int)
      requires Valid()
      modifies this`entries, this`bytes
      ensures Valid() && entries == Unexpired(old(entries), now)
    {
      var all := entries;
      entries := [];
      UnexpiredFacts(setup, all, now);
      assert all[..0] == [] && all[0..] == all && all[..|all|] == all && all[|all|..] == [];
      for i := 0 to |all|
        invariant entries == Unexpired(all[..i], now) && bytes == Sum(entries) + Sum(all[i..])
      {
        hide Unexpired, Sum, Sound;
        ExpireStep(all, i, now);
        SumAppend(entries, all[i]);
        if all[i].expires <= now {
          bytes := bytes - all[i].bytes;
        } else {
          entries := entries + [all[i]];
        }
      }
    }

    method Gather(k: Key, v: seq<real>) returns (comparable: bool, cs: seq<Candidate>)
      ensures comparable <==> SameDimension(entries, k, v)
      ensures comparable ==> Gathered(entries, k, v, |entries|, cs) && DifferentEntries(cs)
    {
      cs := [];
      hide Dot, InScope;
      for i := 0 to |entries|
        invariant Gathered(entries, k, v, i, cs) && DifferentEntries(cs)
      {
        if InScope(entries[i], k) {
          if |entries[i].vector| != |v| {
            return false, [];
          }
          cs := cs + [Candidate(Dot(v, entries[i].vector), i)];
        }
      }
      comparable := true;
    }

    /** Encoding, scoring, thresholds and verification; what was last verified is remembered for a failing run. */
    method Retrieve(c: Call) returns (r: Retrieval)
      requires lastVerification.None?
      modifies this`lastVerification
      ensures Retrieves(setup, entries, c, r) && lastVerification == r.verification
    {
      r := Retrieval(false, None, None, None, false);
      match c.encoding {
        case EncoderPauses =>
          r := r.(paused := true);
        case EncoderFails =>
          r := r.(failed := true);
        case Encoded(v) =>
          var comparable, cs := Gather(c.key, v);
          if !comparable {
            return r.(failed := true);
          }
          RankedFacts(setup, entries, cs);
          var ranked := Ranked(setup, entries, cs);
          if ranked == [] {
            NoneInScope(entries, c.key, v, cs);
            return;
          }
          RankedGathered(setup, entries, c.key, v, cs);
          TopLeads(setup, entries, c.key, v, ranked);
          var top := ranked[0];
          var separated := |ranked| == 1 || top.score - ranked[1].score >= setup.config.margin;
          r := r.(score := Some(top.score));
          if top.score >= setup.config.threshold && separated {
            var approved := setup.config.mode.Similarity?;
            if setup.config.mode.Verified? {
              lastVerification := Some(VERIFICATION_FAILED);
              r := r.(verification := lastVerification);
              match c.verifier {
                case VerifierPauses =>
                  r := r.(paused := true);
                case VerifierRaises =>
                  r := r.(failed := true);
                case Malformed =>
                  r := r.(failed := true);
                case Says(verdict) =>
                  if ValidVerdict(verdict) {
                    lastVerification := Some(verdict);
                    r := r.(verification := lastVerification);
                    approved := verdict.approved && verdict.error.None?;
                  } else {
                    r := r.(failed := true);
                  }
              }
            }
            if approved && c.eligibleAtReuse {
              r := r.(reuse := Some(top.at));
            }
          }
      }
    }

    /** One request: the whole new state and the result are those of a declared step. */
    method Process(c: Call) returns (outcome: Outcome, calls: nat)
      requires Valid()
      modifies this
      ensures Valid()
      ensures Blank(c.key.tenant) || Blank(c.eventId) ==>
        outcome == Raised && calls == 0 && entries == old(entries) && lastVerification == old(lastVerification)
      ensures !Blank(c.key.tenant) && !Blank(c.eventId) ==>
        Steps(setup, old(entries), c, Effect(entries, outcome, calls, lastVerification))
    {
      hide Sound, Retrieves, Unexpired, Promote, Bypasses, Forwarded, Generation;
      calls := 0;
      if Blank(c.key.tenant) || Blank(c.eventId) {
        return Raised, 0;
      }
      lastVerification := None;
      if Bypasses(c) {
        return Forwarded(c.reply), 1;
      }
      DropExpired(c.now);
      var exact := IndexOf(entries, c.key);
      if exact.Some? {
        PromoteFacts(setup, entries, exact.value);
        var entry := entries[exact.value];
        entries := Promote(entries, exact.value);
        return Done(CacheResult(Document(entry.answer), Hit, ExactHit, false, Some(entry.eventId), None, None)), 0;
      }
      var r := Retrieve(c);
      if r.paused {
        return PausedRun, 0;
      }
      if r.reuse.Some? {
        ReuseInRange(setup, entries, c, r);
        PromoteFacts(setup, entries, r.reuse.value);
        var entry := entries[r.reuse.value];
        entries := Promote(entries, r.reuse.value);
        return Done(CacheResult(Document(entry.answer), Hit, SemanticHit(setup.config.mode), false, Some(entry.eventId),
                                r.score, r.verification)), 0;
      }
      calls := 1;
      outcome := Generate(c, r);
    }

    /** The provider is asked, and its answer is kept if it is complete, still eligible, comparable and small enough. */
    method Generate(c: Call, r: Retrieval) returns (outcome: Outcome)
      requires Valid() && !HasKey(entries, c.key) && lastVerification == r.verification
      modifies this`entries, this`bytes
      ensures Valid() && Effect(entries, outcome, 1, lastVerification) == Generation(setup, old(entries), c, r)
    {
      hide Sound, Complete, CheckCrashes, Evicted;
      match c.reply {
        case Paused =>
          outcome := PausedRun;
        case Raises =>
          outcome := Raised;
        case Returns(v) =>
          if c.eligibleAtAdmission && CheckCrashes(v) {
            return Raised;
          }
          var stored := c.eligibleAtAdmission && v.Document? && Complete(v.json, c.key.body) && c.encoding.Encoded?
                        && setup.size(v.json) <= setup.config.maxBytes;
          if stored {
            Admit(c, v.json);
          }
          var reason := if stored then Generated else if r.failed then ProcessingFailed else NotAdmitted;
          outcome := Done(CacheResult(v, Miss, reason, stored, None, r.score, r.verification));
      }
    }

    /** The new entry goes last; least recent entries go until both bounds hold. */
    method Admit(c: Call, answer: Json)
      requires Valid() && c.encoding.Encoded? && !HasKey(entries, c.key)
      requires Complete(answer, c.key.body) && setup.size(answer) <= setup.config.maxBytes
      modifies this`entries, this`bytes
      ensures Valid() && entries == Evicted(setup.config, old(entries) + [NewEntry(setup, c, answer)])
      ensures entries != [] && entries[|entries| - 1] == NewEntry(setup, c, answer)
    {
      hide Complete, Sum, Evicted, WithinBounds, HasKey;
      var entry := NewEntry(setup, c, answer);
      AdmittedSound(setup, entries, entry);
      NewestSurvives(setup.config, entries, entry);
      SumAppend(entries, entry);
      entries, bytes := entries + [entry], bytes + entry.bytes;
      ghost var goal := Evicted(setup.config, entries);
      EvictedStep(setup.config, entries);
      while |entries| > setup.config.limit || bytes > setup.config.maxBytes
        invariant bytes == Sum(entries) && Evicted(setup.config, entries) == goal
        invariant EvictsNext(setup.config, entries)
        decreases |entries|
      {
        entries, bytes := entries[1..], bytes - entries[0].bytes;
        EvictedStep(setup.config, entries);
      }
    }
  }

  /** The loop's test is the recursion's: outside the bounds the first entry goes, inside them nothing does. */
  ghost predicate EvictsNext(c: Config, entries: seq<Entry>) {
    if |entries| > c.limit || Sum(entries) > c.maxBytes
    then entries != [] && Evicted(c, entries) == Evicted(c, entries[1..]) && Sum(entries) == entries[0].bytes + Sum(entries[1..])
    else Evicted(c, entries) == entries
  }

  lemma EvictedStep(c: Config, entries: seq<Entry>)
    ensures EvictsNext(c, entries)
  {
    if entries != [] {
      assert entries == [entries[0]] + entries[1..];
      SumSplit([entries[0]], entries[1..]);
      SumAppend([], entries[0]);
    }
  }

  lemma NoneInScope(live: seq<Entry>, k: Key, v: seq<real>, cs: seq<Candidate>)
    requires Gathered(live, k, v, |live|, cs) && forall x :: x !in cs
    ensures SameDimension(live, k, v) && forall j :: 0 <= j < |live| ==> !InScope(live[j], k)
  {
  }

  lemma RankedGathered(s: Setup, live: seq<Entry>, k: Key, v: seq<real>, cs: seq<Candidate>)
    requires Gathered(live, k, v, |live|, cs) && forall x :: x in Ranked(s, live, cs) <==> x in cs
    ensures Gathered(live, k, v, |live|, Ranked(s, live, cs))
  {
    hide Ranked, InScope, Dot;
  }

  lemma ReuseInRange(s: Setup, live: seq<Entry>, c: Call, r: Retrieval)
    requires Retrieves(s, live, c, r) && r.reuse.Some?
    ensures r.reuse.value < |live|
  {
    hide Leads, SameDimension;
  }
}
