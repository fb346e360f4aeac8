/** The paired benchmark run, and the independent validator of its trace. */
module AnswerTrace {
  import opened Basics
  import opened SemanticCache

  // ----- workload, trace -----

  datatype Row = Row(eventId: string, tenant: string, source: string, group: string, split: string, request: Body)

  datatype Workload = Workload(name: string, provenance: string, license: string, nature: string, rows: seq<Row>)

  /** One serving arm of one event. A digest of a response stands for the response itself. */
  datatype Arm = Arm(calls: nat, usage: seq<Option<Usage>>, failed: bool, response: Option<Json>)

  datatype TraceStatus = WasHit | WasMiss | WasBypass | WasError

  datatype Event = Event(row: Row, requestDigest: Body, cache: Arm, baseline: Arm, stored: bool, status: TraceStatus,
                         candidate: Option<string>, verification: Option<Verdict>,
                         responseDigest: Option<Json>, baselineDigest: Option<Json>)

  datatype Matcher = ExactOnly | Semantic(mode: Mode)

  datatype Trace = Trace(evaluationMode: string, nature: string, split: string, matcher: Matcher, events: seq<Event>)

  const NATURES := {"synthetic_fixture", "natural", "constructed_natural_queries"}

  const PROVIDER_MODES := {"simulated_fixture", "live"}

  predicate NamesFilled(r: Row) {
    !Blank(r.eventId) && !Blank(r.tenant) && !Blank(r.source) && !Blank(r.group)
  }

  // ----- what the validator demands -----

  predicate ArmFits(a: Arm, digest: Option<Json>) {
    && |a.usage| <= a.calls
    && (if a.failed then a.response.None? else a.response.Some? && a.response.value.Obj?)
    && digest == a.response
  }

  /** A recorded verdict that claims both approval and failure. */
  predicate Contradictory(v: Option<Verdict>) {
    v.Some? && v.value.approved && v.value.error.Some?
  }

  predicate VerificationFits(v: Option<Verdict>) {
    (v.Some? ==> ValidVerdict(v.value)) && !Contradictory(v)
  }

  predicate BaseFits(split: string, e: Event) {
    && NamesFilled(e.row) && e.row.split == split && e.requestDigest == e.row.request
    && (e.stored ==> e.status == WasMiss)
    && ArmFits(e.cache, e.responseDigest) && ArmFits(e.baseline, e.baselineDigest)
    && VerificationFits(e.verification)
    && e.baseline.calls == 1
    && (e.status != WasHit ==> e.cache.calls == 1 && e.candidate.None?)
    && (e.status == WasError <==> e.cache.failed)
  }

  /** The source of a hit: an earlier stored miss of the same tenant and scope with the very same answer. */
  predicate Sources(matcher: Matcher, source: Event, e: Event) {
    && source.status == WasMiss && !source.cache.failed && source.stored
    && source.row.tenant == e.row.tenant
    && ScopeOf(Key(e.row.tenant, source.row.request)) == ScopeOf(Key(e.row.tenant, e.row.request))
    && (source.requestDigest != e.requestDigest ==>
          && matcher.Semantic?
          && (matcher.mode.Verified? ==> e.verification.Some? && e.verification.value.approved && e.verification.value.error.None?))
    && source.responseDigest == e.responseDigest
  }

  ghost predicate HitFits(trace: Trace, i: nat)
    requires i < |trace.events|
  {
    var e := trace.events[i];
    && e.cache.calls == 0 && !e.cache.failed && e.candidate.Some?
    && exists j :: 0 <= j < i && trace.events[j].row.eventId == e.candidate.value && Sources(trace.matcher, trace.events[j], e)
  }

  ghost predicate EventFits(trace: Trace, i: nat)
    requires i < |trace.events|
  {
    BaseFits(trace.split, trace.events[i]) && (trace.events[i].status == WasHit ==> HitFits(trace, i))
  }

  ghost predicate NewId(events: seq<Event>, i: nat)
    requires i < |events|
  {
    forall j :: 0 <= j < i ==> events[j].row.eventId != events[i].row.eventId
  }

  predicate HeaderFits(trace: Trace) {
    trace.evaluationMode in PROVIDER_MODES && trace.nature in NATURES && trace.split in {"dev", "test", "train"}
  }

  ghost predicate TraceFits(trace: Trace) {
    && HeaderFits(trace) && trace.events != []
    && forall i :: 0 <= i < |trace.events| ==> NewId(trace.events, i) && EventFits(trace, i)
  }

  /**
   * What acceptance vouches for: requests and answers are those recorded, every paid call is counted once, an answer
   * exists exactly where nothing failed, and every hit repeats, for free, the stored answer of an earlier miss of the
   * same tenant whose request differs in its last text at most; in verified mode only if that was approved.
   */
  lemma AcceptanceGuarantees(t: Trace, i: nat)
    requires TraceFits(t) && i < |t.events|
    ensures var e := t.events[i];
      && e.row.split == t.split && e.requestDigest == e.row.request
      && e.responseDigest == e.cache.response && e.baselineDigest == e.baseline.response
      && (e.cache.failed <==> e.cache.response.None?) && (e.baseline.failed <==> e.baseline.response.None?)
      && (e.cache.failed <==> e.status == WasError)
      && e.baseline.calls == 1 && e.cache.calls == (if e.status == WasHit then 0 else 1)
      && |e.cache.usage| <= e.cache.calls && |e.baseline.usage| <= 1
      && (e.candidate.Some? <==> e.status == WasHit) && (e.stored ==> e.status == WasMiss)
      && (forall j :: 0 <= j < |t.events| && j != i ==> t.events[j].row.eventId != e.row.eventId)
    ensures t.events[i].status == WasHit ==> exists j :: 0 <= j < i && Repeats(t.matcher, t.events[j], t.events[i])
  {
    assert NewId(t.events, i) && EventFits(t, i);
    hide NamesFilled, Sources, Repeats;
    forall j | 0 <= j < |t.events| && j != i
      ensures t.events[j].row.eventId != t.events[i].row.eventId
    {
      assert NewId(t.events, j);
    }
    if t.events[i].status == WasHit {
      var j :| 0 <= j < i && t.events[j].row.eventId == t.events[i].candidate.value && Sources(t.matcher, t.events[j], t.events[i]);
      SourceRepeats(t.matcher, t.events[j], t.events[i]);
    }
  }

  predicate Repeats(matcher: Matcher, source: Event, e: Event) {
    && e.candidate == Some(source.row.eventId) && source.status == WasMiss && source.stored && !source.cache.failed
    && source.row.tenant == e.row.tenant && source.responseDigest == e.responseDigest
    && e.row.request == source.row.request.(content := e.row.request.content)
    && (e.requestDigest != source.requestDigest ==>
          && matcher != ExactOnly
          && (matcher == Semantic(Verified) ==>
                e.verification.Some? && e.verification.value.approved && e.verification.value.error.None?))
  }

  lemma SourceRepeats(matcher: Matcher, source: Event, e: Event)
    requires Sources(matcher, source, e) && e.candidate == Some(source.row.eventId)
    ensures Repeats(matcher, source, e)
  {
    SameScopeIff(Key(e.row.tenant, source.row.request), Key(e.row.tenant, e.row.request));
  }

  /** `seen` maps the ids of the first `n` events to those events. */
  ghost predicate Seen(events: seq<Event>, n: nat, seen: map<string, Event>)
    requires n <= |events|
  {
    && (forall j :: 0 <= j < n ==> events[j].row.eventId in seen && seen[events[j].row.eventId] == events[j])
    && (forall id :: id in seen ==> exists j :: 0 <= j < n && events[j].row.eventId == id)
  }

  lemma SeenSource(trace: Trace, n: nat, seen: map<string, Event>)
    requires n < |trace.events| && Seen(trace.events, n, seen)
    ensures NewId(trace.events, n) <==> trace.events[n].row.eventId !in seen
    ensures var e := trace.events[n];
      HitFits(trace, n) <==> && e.cache.calls == 0 && !e.cache.failed && e.candidate.Some?
                             && e.candidate.value in seen && Sources(trace.matcher, seen[e.candidate.value], e)
  {
    hide Sources;
    var e := trace.events[n];
    if e.candidate.Some? && e.candidate.value in seen {
      var j :| 0 <= j < n && trace.events[j].row.eventId == e.candidate.value;
      assert seen[e.candidate.value] == trace.events[j];
    }
    if e.row.eventId in seen {
      var j :| 0 <= j < n && trace.events[j].row.eventId == e.row.eventId;
    }
  }

  lemma SeenMore(events: seq<Event>, n: nat, seen: map<string, Event>)
    requires n < |events| && Seen(events, n, seen) && NewId(events, n)
    ensures Seen(events, n + 1, seen[events[n].row.eventId := events[n]])
  {
    var more := seen[events[n].row.eventId := events[n]];
    forall id | id in more
      ensures exists j :: 0 <= j < n + 1 && events[j].row.eventId == id
    {
      if id in seen {
        var j :| 0 <= j < n && events[j].row.eventId == id;
      } else {
        assert events[n].row.eventId == id;
      }
    }
  }

  /** One pass with a table of the events already accepted decides exactly the declared demands. */
  method ValidateTrace(trace: Trace) returns (accepted: bool)
    ensures accepted <==> TraceFits(trace)
  {
    if !HeaderFits(trace) || trace.events == [] {
      return false;
    }
    var seen: map<string, Event> := map[];
    for i := 0 to |trace.events|
      invariant Seen(trace.events, i, seen)
      invariant forall j :: 0 <= j < i ==> NewId(trace.events, j) && EventFits(trace, j)
    {
      hide Seen, NewId, BaseFits, Sources, HitFits;
      var event := trace.events[i];
      SeenSource(trace, i, seen);
      if event.row.eventId in seen || !BaseFits(trace.split, event) {
        return false;
      }
      if event.status == WasHit {
        if event.candidate.None? || event.candidate.value !in seen {
          return false;
        }
        if !Sources(trace.matcher, seen[event.candidate.value], event) || event.cache.calls != 0 || event.cache.failed {
          return false;
        }
      }
      SeenMore(trace.events, i, seen);
      seen := seen[event.row.eventId := event];
    }
    accepted := true;
  }

  // ----- the run -----

  predicate IsCount(j: Json) {
    j.Number? && j.number >= 0.0 && j.number.Floor as real == j.number
  }

  /** Token usage of a reply: absent or malformed counts are unknown, but a usage that is not an object raises. */
  predicate UsageCrashes(v: Value) {
    v.Document? && v.json.Obj? && "usage" in v.json.fields && !v.json.fields["usage"].Obj?
  }

  function UsageOf(v: Value): Option<Usage>
    requires !UsageCrashes(v)
  {
    if v.Document? && v.json.Obj? && "usage" in v.json.fields then
      var u := v.json.fields["usage"].fields;
      if "prompt_tokens" in u && "completion_tokens" in u && IsCount(u["prompt_tokens"]) && IsCount(u["completion_tokens"])
      then Some(Usage(u["prompt_tokens"].number.Floor, u["completion_tokens"].number.Floor))
      else None
    else None
  }

  /** Usage is read exactly from an object with both counts, the prompt's and the completion's, as whole numbers. */
  lemma UsageIff(v: Value, prompt: nat, completion: nat)
    requires !UsageCrashes(v)
    ensures UsageOf(v) == Some(Usage(prompt, completion)) <==>
      && v.Document? && v.json.Obj? && "usage" in v.json.fields
      && Holds(v.json.fields["usage"].fields, "prompt_tokens", Number(prompt as real))
      && Holds(v.json.fields["usage"].fields, "completion_tokens", Number(completion as real))
  {
  }

  /** The provider as the run calls it: reading the usage is part of the attempt. */
  function Measured(reply: Upstream): Upstream {
    if reply.Returns? && UsageCrashes(reply.value) then Raises else reply
  }

  function Consumed(reply: Upstream): seq<Option<Usage>>
    requires Measured(reply) == reply
  {
    if reply.Returns? then [UsageOf(reply.value)] else []
  }

  /** What the outside world answers during one row. */
  datatype Turn = Turn(eligible: bool, eligibleAtReuse: bool, eligibleAtAdmission: bool, now: int, later: int,
                       encoding: Encoding, verifier: VerifierReply, reply: Upstream, baselineReply: Upstream)

  function CallOf(row: Row, t: Turn): Call {
    Call(Key(row.tenant, row.request), row.eventId, t.eligible, t.eligibleAtReuse, t.eligibleAtAdmission,
         t.now, t.later, t.encoding, t.verifier, Measured(t.reply))
  }

  predicate GoodAnswer(v: Value, body: Body) {
    v.Document? && Complete(v.json, body)
  }

  function ArmOf(v: Value, body: Body, calls: nat, usage: seq<Option<Usage>>): Arm {
    if GoodAnswer(v, body) then Arm(calls, usage, false, Some(v.json)) else Arm(calls, usage, true, None)
  }

  function BaselineArm(reply: Upstream, body: Body): Arm
    requires Measured(reply) == reply && !reply.Paused?
  {
    if reply.Returns? then ArmOf(reply.value, body, 1, Consumed(reply)) else Arm(1, [], true, None)
  }

  function CacheArm(x: Effect, reply: Upstream, body: Body): Arm
    requires Measured(reply) == reply
  {
    var usage := if x.calls > 0 then Consumed(reply) else [];
    if x.outcome.Done? then ArmOf(x.outcome.result.response, body, x.calls, usage) else Arm(x.calls, usage, true, None)
  }

  function StatusOf(s: Status): TraceStatus {
    match s case Hit => WasHit case Miss => WasMiss case Bypass => WasBypass
  }

  /** What the run records of one row. */
  function EventOf(row: Row, t: Turn, x: Effect): Event
    requires !Measured(t.baselineReply).Paused?
  {
    var cache := CacheArm(x, Measured(t.reply), row.request);
    var baseline := BaselineArm(Measured(t.baselineReply), row.request);
    var served := x.outcome.Done? && !cache.failed;
    var status := if served then StatusOf(x.outcome.result.status) else WasError;
    Event(row, row.request, cache, baseline, served && x.outcome.result.stored, status,
          if status == WasHit then x.outcome.result.candidate else None,
          if x.outcome.Done? then x.outcome.result.verification else x.lastVerification,
          cache.response, baseline.response)
  }

  /** Row `i` was served from the cache state `states[i]`, and left `states[i + 1]`. */
  ghost predicate Served(s: Setup, rows: seq<Row>, turns: seq<Turn>, states: seq<seq<Entry>>, events: seq<Event>, i: nat)
    requires i < |events| <= |rows| && |turns| == |rows| && |states| == |events| + 1
  {
    && !Measured(turns[i].baselineReply).Paused?
    && exists x :: Steps(s, states[i], CallOf(rows[i], turns[i]), x) && x.outcome != PausedRun
                   && states[i + 1] == x.entries && events[i] == EventOf(rows[i], turns[i], x)
  }

  /** The events are those of the rows served one after the other, starting from an empty cache. */
  ghost predicate Ran(s: Setup, rows: seq<Row>, turns: seq<Turn>, states: seq<seq<Entry>>, events: seq<Event>) {
    && |events| <= |rows| == |turns| && |states| == |events| + 1 && states[0] == []
    && forall i :: 0 <= i < |events| ==> Served(s, rows, turns, states, events, i)
  }

  datatype RunError = InvalidWorkload | UndeclaredProvider | RunWasPaused

  predicate ValidRow(r: Row) {
    && NamesFilled(r) && r.split in {"train", "dev", "test"}
    && !Blank(r.request.lastRole) && !Blank(r.request.content)
    && forall i :: 0 <= i < |r.request.earlier| ==> !Blank(r.request.earlier[i].role) && !Blank(r.request.earlier[i].content)
  }

  ghost predicate DistinctRows(rows: seq<Row>) {
    forall i, j :: 0 <= i < j < |rows| ==> rows[i].eventId != rows[j].eventId
  }

  /** The messages of a request with their texts normalized. */
  function TextsOf(normalize: string -> string, b: Body): seq<Message> {
    seq(|b.earlier|, i requires 0 <= i < |b.earlier| => Message(b.earlier[i].role, normalize(b.earlier[i].content)))
      + [Message(b.lastRole, normalize(b.content))]
  }

  function GroupKey(r: Row): string {
    r.group
  }

  function TextKey(normalize: string -> string): Row -> seq<Message> {
    (r: Row) => TextsOf(normalize, r.request)
  }

  /** Rows with the same key are in the same split. */
  ghost predicate OneSplit<K>(rows: seq<Row>, key: Row -> K) {
    forall i, j :: 0 <= i < j < |rows| && key(rows[i]) == key(rows[j]) ==> rows[i].split == rows[j].split
  }

  /** Valid rows under different ids, with neither a group nor a normalized request in two splits. */
  ghost predicate CleanRows(normalize: string -> string, rows: seq<Row>) {
    && DistinctRows(rows) && OneSplit(rows, GroupKey) && OneSplit(rows, TextKey(normalize))
    && forall i :: 0 <= i < |rows| ==> ValidRow(rows[i])
  }

  predicate HeadFilled(w: Workload) {
    !Blank(w.name) && !Blank(w.provenance) && !Blank(w.license) && w.nature in NATURES && w.rows != []
  }

  ghost predicate ValidWorkload(normalize: string -> string, w: Workload) {
    HeadFilled(w) && CleanRows(normalize, w.rows)
  }

  /** The table a pass over the rows has filled: the split of every key met. */
  ghost predicate SplitTable<K(!new)>(rows: seq<Row>, key: Row -> K, table: map<K, string>) {
    && (forall j :: 0 <= j < |rows| ==> key(rows[j]) in table && table[key(rows[j])] == rows[j].split)
    && (forall k :: k in table ==> exists j :: 0 <= j < |rows| && key(rows[j]) == k)
  }

  /** The lookup of one more row decides whether its key crosses a split, and the table can grow. */
  lemma SplitLookup<K(!new)>(rows: seq<Row>, key: Row -> K, table: map<K, string>, r: Row)
    requires SplitTable(rows, key, table) && OneSplit(rows, key)
    ensures OneSplit(rows + [r], key) <==> (key(r) in table ==> table[key(r)] == r.split)
    ensures OneSplit(rows + [r], key) ==> SplitTable(rows + [r], key, table[key(r) := r.split])
  {
    var more := rows + [r];
    assert more[|rows|] == r && forall j :: 0 <= j < |rows| ==> more[j] == rows[j];
    if key(r) in table {
      var j :| 0 <= j < |rows| && key(rows[j]) == key(r);
      assert key(more[j]) == key(more[|rows|]);
    }
  }

  ghost predicate IdTable(rows: seq<Row>, ids: set<string>) {
    forall id :: id in ids <==> exists j :: 0 <= j < |rows| && rows[j].eventId == id
  }

  lemma IdLookup(rows: seq<Row>, ids: set<string>, r: Row)
    requires IdTable(rows, ids) && DistinctRows(rows)
    ensures DistinctRows(rows + [r]) <==> r.eventId !in ids
    ensures IdTable(rows + [r], ids + {r.eventId})
  {
    var more := rows + [r];
    assert more[|rows|] == r && forall j :: 0 <= j < |rows| ==> more[j] == rows[j];
    if r.eventId in ids {
      var j :| 0 <= j < |rows| && rows[j].eventId == r.eventId;
      assert more[j].eventId == more[|rows|].eventId;
    }
  }

  /** The same conversation up to normalization: the same roles and, normalized, the same texts throughout. */
  predicate SameTexts(normalize: string -> string, a: Body, b: Body) {
    && |a.earlier| == |b.earlier| && a.lastRole == b.lastRole && normalize(a.content) == normalize(b.content)
    && forall i :: 0 <= i < |a.earlier| ==>
         a.earlier[i].role == b.earlier[i].role && normalize(a.earlier[i].content) == normalize(b.earlier[i].content)
  }

  lemma SameTextsIff(normalize: string -> string, a: Body, b: Body)
    ensures TextsOf(normalize, a) == TextsOf(normalize, b) <==> SameTexts(normalize, a, b)
  {
    var s, t := TextsOf(normalize, a), TextsOf(normalize, b);
    if s == t {
      assert s[|a.earlier|] == t[|a.earlier|] && |a.earlier| == |b.earlier|;
      forall i | 0 <= i < |a.earlier|
        ensures a.earlier[i].role == b.earlier[i].role && normalize(a.earlier[i].content) == normalize(b.earlier[i].content)
      {
        assert s[i] == t[i];
      }
    }
  }

  /** In a valid workload no group and no conversation, however it is written, occurs in two splits. */
  lemma SplitsDoNotLeak(normalize: string -> string, w: Workload, i: nat, j: nat)
    requires ValidWorkload(normalize, w) && i < |w.rows| && j < |w.rows| && w.rows[i].split != w.rows[j].split
    ensures w.rows[i].group != w.rows[j].group && !SameTexts(normalize, w.rows[i].request, w.rows[j].request)
    ensures w.rows[i].eventId != w.rows[j].eventId
  {
    hide ValidRow, HeadFilled;
    SameTextsIff(normalize, w.rows[i].request, w.rows[j].request);
    assert TextKey(normalize)(w.rows[i]) == TextsOf(normalize, w.rows[i].request);
    assert TextKey(normalize)(w.rows[j]) == TextsOf(normalize, w.rows[j].request);
    assert GroupKey(w.rows[i]) == w.rows[i].group && GroupKey(w.rows[j]) == w.rows[j].group;
  }

  /** What the pass has established and remembered after some rows. */
  ghost predicate Scanned(normalize: string -> string, rows: seq<Row>, ids: set<string>, groups: map<string, string>,
                          texts: map<seq<Message>, string>) {
    && CleanRows(normalize, rows) && IdTable(rows, ids)
    && SplitTable(rows, GroupKey, groups) && SplitTable(rows, TextKey(normalize), texts)
  }

  /** The lookups for one more row decide whether the rows stay clean. */
  lemma ScanRow(normalize: string -> string, rows: seq<Row>, ids: set<string>, groups: map<string, string>,
                texts: map<seq<Message>, string>, r: Row)
    requires Scanned(normalize, rows, ids, groups, texts)
    ensures var text := TextKey(normalize)(r);
      && (CleanRows(normalize, rows + [r]) <==>
            && ValidRow(r) && r.eventId !in ids
            && (r.group in groups ==> groups[r.group] == r.split) && (text in texts ==> texts[text] == r.split))
      && (CleanRows(normalize, rows + [r]) ==>
            Scanned(normalize, rows + [r], ids + {r.eventId}, groups[r.group := r.split], texts[text := r.split]))
  {
    hide IdTable, DistinctRows, SplitTable, OneSplit, TextKey, ValidRow;
    IdLookup(rows, ids, r);
    SplitLookup(rows, GroupKey, groups, r);
    SplitLookup(rows, TextKey(normalize), texts, r);
    assert (rows + [r])[|rows|] == r && forall j :: 0 <= j < |rows| ==> (rows + [r])[j] == rows[j];
  }

  lemma CleanPrefix(normalize: string -> string, rows: seq<Row>, n: nat)
    requires n <= |rows| && CleanRows(normalize, rows)
    ensures CleanRows(normalize, rows[..n])
  {
    hide ValidRow;
    assert forall i :: 0 <= i < n ==> rows[..n][i] == rows[i];
  }

  lemma WholeIsClean(normalize: string -> string, rows: seq<Row>)
    ensures CleanRows(normalize, rows) ==> forall n {:trigger rows[..n]} :: 0 <= n <= |rows| ==> CleanRows(normalize, rows[..n])
    ensures rows[..|rows|] == rows
  {
    assert rows[..|rows|] == rows;
    hide CleanRows;
    if CleanRows(normalize, rows) {
      forall n | 0 <= n <= |rows|
        ensures CleanRows(normalize, rows[..n])
      {
        CleanPrefix(normalize, rows, n);
      }
    }
  }

  lemma ScannedIsClean(normalize: string -> string, rows: seq<Row>, ids: set<string>, groups: map<string, string>,
                       texts: map<seq<Message>, string>)
    requires Scanned(normalize, rows, ids, groups, texts)
    ensures CleanRows(normalize, rows)
  {
  }

  lemma NothingScanned(normalize: string -> string)
    ensures Scanned(normalize, [], {}, map[], map[])
  {
  }

  method ValidateWorkload(normalize: string -> string, w: Workload) returns (valid: bool)
    ensures valid <==> ValidWorkload(normalize, w)
  {
    hide HeadFilled, ValidRow, CleanRows, IdTable, SplitTable, TextKey, Scanned;
    if !HeadFilled(w) {
      return false;
    }
    var ids: set<string>, groups: map<string, string>, texts: map<seq<Message>, string> := {}, map[], map[];
    NothingScanned(normalize);
    WholeIsClean(normalize, w.rows);
    for i := 0 to |w.rows|
      invariant Scanned(normalize, w.rows[..i], ids, groups, texts)
    {
      var row, text := w.rows[i], TextKey(normalize)(w.rows[i]);
      ScanRow(normalize, w.rows[..i], ids, groups, texts, row);
      TakeOneMore(w.rows, i);
      if !ValidRow(row) || row.eventId in ids {
        return false;
      }
      if (row.group in groups && groups[row.group] != row.split) || (text in texts && texts[text] != row.split) {
        return false;
      }
      ids, groups, texts := ids + {row.eventId}, groups[row.group := row.split], texts[text := row.split];
    }
    ScannedIsClean(normalize, w.rows[..|w.rows|], ids, groups, texts);
    valid := true;
  }

  function DevRows(rows: seq<Row>): seq<Row> {
    if rows == [] then [] else DevRows(rows[..|rows| - 1]) + if rows[|rows| - 1].split == "dev" then [rows[|rows| - 1]] else []
  }

  lemma {:induction false} DevRowsFacts(rows: seq<Row>)
    ensures forall r :: r in DevRows(rows) <==> r in rows && r.split == "dev"
    ensures DistinctRows(rows) ==> DistinctRows(DevRows(rows))
  {
    if rows == [] {
    } else {
      var n := |rows| - 1;
      var before := DevRows(rows[..n]);
      DevRowsFacts(rows[..n]);
      assert rows == rows[..n] + [rows[n]];
      if DistinctRows(rows) {
        forall i | 0 <= i < |before|
          ensures before[i].eventId != rows[n].eventId
        {
          assert before[i] in rows[..n];
        }
      }
    }
  }

  /**
   * The paired loop. Both arms of a row call the provider through the same counter; a pause anywhere
   * abandons the run without a trace.
   */
  method RunWorkload(normalize: string -> string, w: Workload, providerMode: string, setup: Setup, turns: seq<Turn>)
    returns (result: Result<Trace, RunError>, ghost states: seq<seq<Entry>>)
    requires ValidConfig(setup.config) && |turns| == |DevRows(w.rows)|
    ensures result == Err(InvalidWorkload) <==> !ValidWorkload(normalize, w) || DevRows(w.rows) == []
    ensures result == Err(UndeclaredProvider) <==> ValidWorkload(normalize, w) && DevRows(w.rows) != [] && providerMode !in PROVIDER_MODES
    ensures result.Ok? ==> var t := result.value;
      && t.evaluationMode == providerMode && t.nature == w.nature && t.split == "dev" && t.matcher == Semantic(setup.config.mode)
      && Ran(setup, DevRows(w.rows), turns, states, t.events) && |t.events| == |DevRows(w.rows)|
    ensures result == Err(RunWasPaused) ==> exists i :: 0 <= i < |turns| && MayPause(turns[i])
  {
    states := [[]];
    var valid := ValidateWorkload(normalize, w);
    if !valid {
      return Err(InvalidWorkload), states;
    }
    var rows := DevRows(w.rows);
    if rows == [] {
      return Err(InvalidWorkload), states;
    }
    if providerMode !in PROVIDER_MODES {
      return Err(UndeclaredProvider), states;
    }
    DevRowsFacts(w.rows);
    var cache := new ExperimentalSemanticCache(setup);
    var events: seq<Event> := [];
    hide Steps, Served;
    for i := 0 to |rows|
      invariant fresh(cache) && cache.Valid() && cache.setup == setup
      invariant |events| == i && Ran(setup, rows, turns, states, events) && states[i] == cache.entries
    {
      assert rows[i] in w.rows;
      var call := CallOf(rows[i], turns[i]);
      var outcome, calls := cache.Process(call);
      var x := Effect(cache.entries, outcome, calls, cache.lastVerification);
      if outcome.PausedRun? {
        PauseHasCause(setup, states[i], rows[i], turns[i], x);
        return Err(RunWasPaused), states;
      }
      if Measured(turns[i].baselineReply).Paused? {
        return Err(RunWasPaused), states;
      }
      RanMore(setup, rows, turns, states, events, x);
      events := events + [EventOf(rows[i], turns[i], x)];
      states := states + [cache.entries];
    }
    result := Ok(Trace(providerMode, w.nature, "dev", Semantic(setup.config.mode), events));
  }

  /** Something asked during the turn may answer with a pause. */
  predicate MayPause(t: Turn) {
    t.encoding.EncoderPauses? || t.verifier.VerifierPauses? || t.reply.Paused? || t.baselineReply.Paused?
  }

  lemma PauseHasCause(s: Setup, before: seq<Entry>, row: Row, t: Turn, x: Effect)
    requires Steps(s, before, CallOf(row, t), x) && x.outcome.PausedRun?
    ensures MayPause(t)
  {
    hide Unexpired, SameDimension, Leads, Convincing, Evicted;
  }

  lemma RanMore(s: Setup, rows: seq<Row>, turns: seq<Turn>, states: seq<seq<Entry>>, events: seq<Event>, x: Effect)
    requires Ran(s, rows, turns, states, events) && |events| < |rows|
    requires Steps(s, states[|events|], CallOf(rows[|events|], turns[|events|]), x) && x.outcome != PausedRun
    requires !Measured(turns[|events|].baselineReply).Paused?
    ensures Ran(s, rows, turns, states + [x.entries], events + [EventOf(rows[|events|], turns[|events|], x)])
  {
    hide Steps, EventOf;
    var n := |events|;
    var laterStates, laterEvents := states + [x.entries], events + [EventOf(rows[n], turns[n], x)];
    forall i | 0 <= i < |laterEvents|
      ensures Served(s, rows, turns, laterStates, laterEvents, i)
    {
      if i < n {
        assert Served(s, rows, turns, states, events, i);
        assert laterStates[i] == states[i] && laterStates[i + 1] == states[i + 1] && laterEvents[i] == events[i];
      } else {
        assert laterStates[n] == states[n] && laterStates[n + 1] == x.entries;
      }
    }
  }

  // ----- everything a run records is acceptable -----

  /** A recorded event vouches for a cache entry: it is the stored miss that generated it. */
  predicate Vouches(e: Event, entry: Entry) {
    && e.row.eventId == entry.eventId && e.row.tenant == entry.key.tenant && e.row.request == entry.key.body
    && e.requestDigest == e.row.request
    && e.status == WasMiss && e.stored && !e.cache.failed && e.responseDigest == Some(entry.answer)
  }

  /** It was made during this turn: it lives for the time to live from then on, and is found by this turn's vector. */
  predicate MadeIn(ttl: int, t: Turn, entry: Entry) {
    entry.expires == t.later + ttl && t.encoding == Encoded(entry.vector)
  }

  ghost predicate Backed(ttl: int, turns: seq<Turn>, events: seq<Event>, n: nat, entry: Entry)
    requires n <= |events| <= |turns|
  {
    exists j :: 0 <= j < n && Vouches(events[j], entry) && MadeIn(ttl, turns[j], entry)
  }

  /** Every entry of a cache state was generated by an event recorded before, in its turn. */
  ghost predicate AllBacked(ttl: int, turns: seq<Turn>, events: seq<Event>, n: nat, entries: seq<Entry>)
    requires n <= |events| <= |turns|
  {
    forall k :: 0 <= k < |entries| ==> Backed(ttl, turns, events, n, entries[k])
  }

  /** Verdicts are recorded only well formed, and a non-hit has called the provider exactly once. */
  lemma StepsCalls(s: Setup, before: seq<Entry>, c: Call, x: Effect)
    requires Steps(s, before, c, x) && x.outcome != PausedRun
    ensures x.calls == if x.outcome.Done? && x.outcome.result.status.Hit? then 0 else 1
    ensures x.lastVerification.Some? ==> x.lastVerification == Some(Recorded(c.verifier)) && ValidVerdict(x.lastVerification.value)
    ensures x.outcome.Done? ==> x.outcome.result.verification == x.lastVerification
    ensures x.outcome.Done? && x.outcome.result.stored ==> x.outcome.result.status.Miss?
    ensures s.config.mode.Similarity? ==> x.lastVerification.None?
  {
    hide Unexpired, SameDimension, Leads, Convincing, Evicted, Promote, Complete, CheckCrashes;
  }

  lemma BackedLater(ttl: int, turns: seq<Turn>, events: seq<Event>, n: nat, m: nat, entry: Entry)
    requires n <= m <= |events| <= |turns| && Backed(ttl, turns, events, n, entry)
    ensures Backed(ttl, turns, events, m, entry)
  {
  }

  lemma NewIsBacked(row: Row, t: Turn, x: Effect, e: Entry)
    requires !Measured(t.baselineReply).Paused?
    requires x.outcome.Done? && x.outcome.result.status.Miss? && x.outcome.result.stored
    requires e.key == CallOf(row, t).key && e.eventId == row.eventId
    requires x.outcome.result.response == Document(e.answer) && Complete(e.answer, row.request)
    ensures Vouches(EventOf(row, t, x), e)
  {
    hide Complete;
  }

  lemma StepIsBacked(s: Setup, before: seq<Entry>, row: Row, turns: seq<Turn>, x: Effect, events: seq<Event>, n: nat)
    requires n < |events| <= |turns|
    requires ValidConfig(s.config) && Sound(s, before) && Steps(s, before, CallOf(row, turns[n]), x)
    requires AllBacked(s.config.ttl, turns, events, n, before)
    requires !Measured(turns[n].baselineReply).Paused? && events[n] == EventOf(row, turns[n], x)
    ensures AllBacked(s.config.ttl, turns, events, n + 1, x.entries)
  {
    hide Steps, Sound, Vouches, EventOf, Complete, HasKey;
    forall k | 0 <= k < |x.entries|
      ensures Backed(s.config.ttl, turns, events, n + 1, x.entries[k])
    {
      var e := x.entries[k];
      StepsEntries(s, before, CallOf(row, turns[n]), x, e);
      if e in before {
        var i :| 0 <= i < |before| && before[i] == e;
        BackedLater(s.config.ttl, turns, events, n, n + 1, before[i]);
      } else {
        NewIsBacked(row, turns[n], x, e);
      }
    }
  }

  lemma NothingStored(s: Setup, turns: seq<Turn>, events: seq<Event>)
    requires |events| <= |turns|
    ensures Sound(s, []) && AllBacked(s.config.ttl, turns, events, 0, [])
  {
    assert Sum([]) == 0;
  }

  lemma {:induction false} StatesAreBacked(s: Setup, rows: seq<Row>, turns: seq<Turn>, states: seq<seq<Entry>>, events: seq<Event>, n: nat)
    requires ValidConfig(s.config) && Ran(s, rows, turns, states, events) && n <= |events|
    ensures Sound(s, states[n]) && AllBacked(s.config.ttl, turns, events, n, states[n])
  {
    hide Steps, Sound, AllBacked, EventOf, CallOf, Measured;
    if n == 0 {
      NothingStored(s, turns, events);
    } else {
      StatesAreBacked(s, rows, turns, states, events, n - 1);
      assert Served(s, rows, turns, states, events, n - 1);
      var before, c := states[n - 1], CallOf(rows[n - 1], turns[n - 1]);
      var x :| Steps(s, before, c, x) && x.outcome != PausedRun && states[n] == x.entries
               && events[n - 1] == EventOf(rows[n - 1], turns[n - 1], x);
      StepsKeepSound(s, before, c, x);
      StepIsBacked(s, before, rows[n - 1], turns, x, events, n - 1);
    }
  }

  /** What one row records, apart from where a hit came from. */
  lemma RecordFits(s: Setup, before: seq<Entry>, row: Row, t: Turn, x: Effect)
    requires Sound(s, before) && Steps(s, before, CallOf(row, t), x) && x.outcome != PausedRun
    requires !Measured(t.baselineReply).Paused? && NamesFilled(row)
    ensures var e := EventOf(row, t, x); BaseFits(row.split, e) <==> !Contradictory(e.verification)
    ensures EventOf(row, t, x).verification == x.lastVerification
  {
    hide Steps, Sound, NamesFilled, UsageOf;
    var c := CallOf(row, t);
    StepsCalls(s, before, c, x);
    if x.outcome.Done? && x.outcome.result.status.Hit? {
      HitIsComplete(s, before, c, x);
    }
  }

  /** What a hit returns is complete for the incoming request too. */
  lemma HitIsComplete(s: Setup, before: seq<Entry>, c: Call, x: Effect)
    requires Sound(s, before) && Steps(s, before, c, x) && x.outcome.Done? && x.outcome.result.status.Hit?
    ensures GoodAnswer(x.outcome.result.response, c.key.body)
  {
    HitIsJustified(s, before, c, x);
    hide Steps, Complete;
    var e :| Justifies(s, before, c, x.outcome.result, e);
    var i :| 0 <= i < |before| && before[i] == e;
    assert WellMade(s, before[i]);
    ScopeDecidesCompleteness(e.key, c.key, e.answer);
  }

  /** A hit names an earlier stored miss with the identical answer, whose time to live has not run out. */
  lemma HitHasSource(s: Setup, before: seq<Entry>, row: Row, turns: seq<Turn>, x: Effect, events: seq<Event>, n: nat)
    requires n < |turns| && n <= |events| <= |turns|
    requires Sound(s, before) && Steps(s, before, CallOf(row, turns[n]), x) && AllBacked(s.config.ttl, turns, events, n, before)
    requires !Measured(turns[n].baselineReply).Paused?
    requires x.outcome.Done? && x.outcome.result.status.Hit?
    ensures var e := EventOf(row, turns[n], x);
      && e.cache.calls == 0 && !e.cache.failed && e.candidate.Some?
      && exists j :: 0 <= j < n && IsSource(s, turns, events, j, n, e)
  {
    var t := turns[n];
    var c := CallOf(row, t);
    HitIsComplete(s, before, c, x);
    HitIsJustified(s, before, c, x);
    var entry :| Justifies(s, before, c, x.outcome.result, entry);
    var i :| 0 <= i < |before| && before[i] == entry;
    assert Backed(s.config.ttl, turns, events, n, entry);
    var j :| 0 <= j < n && Vouches(events[j], entry) && MadeIn(s.config.ttl, turns[j], entry);
    hide Steps, Sound, Complete;
    assert IsSource(s, turns, events, j, n, EventOf(row, t, x));
  }

  /** Event `j` is the source of the hit `e` in turn `n`, and in time. */
  predicate IsSource(s: Setup, turns: seq<Turn>, events: seq<Event>, j: nat, n: nat, e: Event)
    requires j < |events| && j < |turns| && n < |turns| && e.candidate.Some?
  {
    && events[j].row.eventId == e.candidate.value && Sources(Semantic(s.config.mode), events[j], e)
    && turns[n].now < turns[j].later + s.config.ttl
  }

  lemma EventIsFit(s: Setup, rows: seq<Row>, turns: seq<Turn>, states: seq<seq<Entry>>, t: Trace, i: nat)
    requires ValidConfig(s.config) && Ran(s, rows, turns, states, t.events) && i < |t.events|
    requires t.split == "dev" && t.matcher == Semantic(s.config.mode)
    requires NamesFilled(rows[i]) && rows[i].split == "dev"
    ensures EventFits(t, i) <==> !Contradictory(t.events[i].verification)
    ensures t.events[i].verification.Some? ==> t.events[i].verification == Some(Recorded(turns[i].verifier))
    ensures s.config.mode.Similarity? ==> t.events[i].verification.None?
  {
    StatesAreBacked(s, rows, turns, states, t.events, i);
    assert Served(s, rows, turns, states, t.events, i);
    var c := CallOf(rows[i], turns[i]);
    var x :| Steps(s, states[i], c, x) && x.outcome != PausedRun && states[i + 1] == x.entries
             && t.events[i] == EventOf(rows[i], turns[i], x);
    RecordFits(s, states[i], rows[i], turns[i], x);
    StepsCalls(s, states[i], c, x);
    if t.events[i].status == WasHit {
      HitHasSource(s, states[i], rows[i], turns, x, t.events, i);
    }
    hide Steps, Sound, AllBacked, BaseFits, Sources;
  }

  /** A verifier that does not claim approval and failure at once. */
  predicate Consistent(v: VerifierReply) {
    v.Says? ==> !(v.verdict.approved && v.verdict.error.Some?)
  }

  /**
   * The validator accepts a completed run exactly when the verifier never reported approval together
   * with an error. Without a verifier, or with a consistent one, it accepts every completed run.
   */
  lemma RunIsAcceptedIff(s: Setup, rows: seq<Row>, turns: seq<Turn>, states: seq<seq<Entry>>, t: Trace)
    requires ValidConfig(s.config) && Ran(s, rows, turns, states, t.events) && |t.events| == |rows| > 0
    requires HeaderFits(t) && t.split == "dev" && t.matcher == Semantic(s.config.mode)
    requires DistinctRows(rows) && forall i :: 0 <= i < |rows| ==> NamesFilled(rows[i]) && rows[i].split == "dev"
    ensures TraceFits(t) <==> forall i :: 0 <= i < |t.events| ==> !Contradictory(t.events[i].verification)
    ensures s.config.mode.Similarity? || (forall i :: 0 <= i < |turns| ==> Consistent(turns[i].verifier)) ==> TraceFits(t)
  {
    forall i | 0 <= i < |t.events|
      ensures t.events[i].verification.Some? ==> t.events[i].verification == Some(Recorded(turns[i].verifier))
      ensures NewId(t.events, i) && (EventFits(t, i) <==> !Contradictory(t.events[i].verification))
      ensures s.config.mode.Similarity? ==> t.events[i].verification.None?
    {
      EventIsFit(s, rows, turns, states, t, i);
      RowsRecorded(s, rows, turns, states, t.events);
    }
    hide EventFits, NewId, Ran;
  }

  lemma RowsRecorded(s: Setup, rows: seq<Row>, turns: seq<Turn>, states: seq<seq<Entry>>, events: seq<Event>)
    requires Ran(s, rows, turns, states, events)
    ensures forall i :: 0 <= i < |events| ==> events[i].row == rows[i]
  {
    hide Steps;
    forall i | 0 <= i < |events|
      ensures events[i].row == rows[i]
    {
      assert Served(s, rows, turns, states, events, i);
    }
  }

  /** What each arm consumed is recorded: the usage of its own provider answer, and none where nothing was called. */
  lemma UsageIsRecorded(s: Setup, rows: seq<Row>, turns: seq<Turn>, states: seq<seq<Entry>>, events: seq<Event>, i: nat)
    requires ValidConfig(s.config) && Ran(s, rows, turns, states, events) && i < |events|
    ensures events[i].status == WasHit ==> events[i].cache.calls == 0 && events[i].cache.usage == []
    ensures events[i].status != WasHit && turns[i].reply.Returns? && !UsageCrashes(turns[i].reply.value) ==>
      events[i].cache.usage == [UsageOf(turns[i].reply.value)]
    ensures turns[i].baselineReply.Returns? && !UsageCrashes(turns[i].baselineReply.value) ==>
      events[i].baseline.usage == [UsageOf(turns[i].baselineReply.value)]
  {
    StatesAreBacked(s, rows, turns, states, events, i);
    assert Served(s, rows, turns, states, events, i);
    var x :| Steps(s, states[i], CallOf(rows[i], turns[i]), x) && x.outcome != PausedRun && states[i + 1] == x.entries
             && events[i] == EventOf(rows[i], turns[i], x);
    hide Steps, Sound, AllBacked, UsageOf;
    StepsCalls(s, states[i], CallOf(rows[i], turns[i]), x);
    if x.outcome.Done? && x.outcome.result.status.Hit? {
      HitIsComplete(s, states[i], CallOf(rows[i], turns[i]), x);
    }
  }

  /** In a completed run no answer is reused once its time to live has run out. */
  lemma HitIsInTime(s: Setup, rows: seq<Row>, turns: seq<Turn>, states: seq<seq<Entry>>, events: seq<Event>, i: nat)
    requires ValidConfig(s.config) && Ran(s, rows, turns, states, events) && i < |events| && events[i].status == WasHit
    ensures events[i].candidate.Some?
    ensures exists j :: 0 <= j < i && IsSource(s, turns, events, j, i, events[i])
  {
    StatesAreBacked(s, rows, turns, states, events, i);
    assert Served(s, rows, turns, states, events, i);
    var x :| Steps(s, states[i], CallOf(rows[i], turns[i]), x) && x.outcome != PausedRun && states[i + 1] == x.entries
             && events[i] == EventOf(rows[i], turns[i], x);
    hide Steps, Sound, AllBacked, IsSource;
    HitHasSource(s, states[i], rows[i], turns, x, events, i);
  }

  /**
   * What is recorded agrees with what was answered in the turn: passed by exactly if ineligible, stored only while
   * admission was allowed, and another request's answer reused only while reuse was.
   */
  lemma TurnsDecide(s: Setup, rows: seq<Row>, turns: seq<Turn>, states: seq<seq<Entry>>, events: seq<Event>, i: nat)
    requires ValidConfig(s.config) && Ran(s, rows, turns, states, events) && i < |events|
    ensures events[i].row == rows[i] && events[i].requestDigest == rows[i].request
    ensures events[i].status == WasBypass ==> !CacheServes(rows[i], turns[i])
    ensures events[i].status in {WasHit, WasMiss} ==> CacheServes(rows[i], turns[i])
    ensures events[i].stored ==>
      && turns[i].eligibleAtAdmission && turns[i].encoding.Encoded?
      && events[i].responseDigest.Some? && turns[i].reply == Returns(Document(events[i].responseDigest.value))
    ensures events[i].status == WasHit ==>
      || (turns[i].eligibleAtReuse && turns[i].encoding.Encoded?)
      || exists j :: 0 <= j < i && rows[j].request == rows[i].request && rows[j].tenant == rows[i].tenant
  {
    StatesAreBacked(s, rows, turns, states, events, i);
    RowsRecorded(s, rows, turns, states, events);
    assert Served(s, rows, turns, states, events, i);
    var x :| Steps(s, states[i], CallOf(rows[i], turns[i]), x) && x.outcome != PausedRun && states[i + 1] == x.entries
             && events[i] == EventOf(rows[i], turns[i], x);
    OutcomeDecides(s, states[i], rows[i], turns[i], x);
    if events[i].status == WasHit && x.outcome.result.reason == ExactHit {
      ExactHasEarlierRow(s, rows, turns, states, events, i, x);
    }
    hide Steps, Sound, AllBacked, Ran, CacheServes;
  }

  predicate CacheServes(row: Row, t: Turn) {
    t.eligible && row.request.lastRole == "user" && Lacks(row.request.fields, "stream")
  }

  lemma OutcomeDecides(s: Setup, before: seq<Entry>, row: Row, t: Turn, x: Effect)
    requires Sound(s, before) && Steps(s, before, CallOf(row, t), x) && !Measured(t.baselineReply).Paused?
    ensures var e := EventOf(row, t, x);
      && e.requestDigest == row.request
      && (e.status == WasBypass ==> !CacheServes(row, t)) && (e.status in {WasHit, WasMiss} ==> CacheServes(row, t))
      && (e.stored ==>
            && t.eligibleAtAdmission && t.encoding.Encoded?
            && e.responseDigest.Some? && t.reply == Returns(Document(e.responseDigest.value)))
      && (e.status == WasHit ==>
            && x.outcome.Done? && x.outcome.result.status.Hit?
            && (x.outcome.result.reason != ExactHit ==> t.eligibleAtReuse && t.encoding.Encoded?))
  {
    var c := CallOf(row, t);
    if x.outcome.Done? {
      BypassIff(s, before, c, x);
      if x.outcome.result.status.Miss? {
        StoredIff(s, before, c, x);
      }
      if x.outcome.result.status.Hit? {
        HitIsJustified(s, before, c, x);
        var e :| Justifies(s, before, c, x.outcome.result, e);
        ReuseWasAllowed(s, before, c, x.outcome.result, e);
      }
    }
    hide Steps, Sound, Justifies, Complete, UsageOf;
  }

  lemma ReuseWasAllowed(s: Setup, before: seq<Entry>, c: Call, r: CacheResult, e: Entry)
    requires Justifies(s, before, c, r, e)
    ensures r.reason != ExactHit ==> c.eligibleAtReuse && c.encoding.Encoded?
  {
    hide Leads, Convincing, Unexpired;
  }

  lemma ExactHasEarlierRow(s: Setup, rows: seq<Row>, turns: seq<Turn>, states: seq<seq<Entry>>, events: seq<Event>, i: nat, x: Effect)
    requires ValidConfig(s.config) && Ran(s, rows, turns, states, events) && i < |events|
    requires Steps(s, states[i], CallOf(rows[i], turns[i]), x) && x.outcome.Done? && x.outcome.result.status.Hit?
    requires x.outcome.result.reason == ExactHit
    ensures exists j :: 0 <= j < i && rows[j].request == rows[i].request && rows[j].tenant == rows[i].tenant
  {
    StatesAreBacked(s, rows, turns, states, events, i);
    RowsRecorded(s, rows, turns, states, events);
    var c := CallOf(rows[i], turns[i]);
    HitIsJustified(s, states[i], c, x);
    var e :| Justifies(s, states[i], c, x.outcome.result, e);
    JustifiedEntry(s, states[i], c, x.outcome.result, e);
    hide Steps, Sound, Ran, Justifies;
    var k :| 0 <= k < |states[i]| && states[i][k] == e;
    assert Backed(s.config.ttl, turns, events, i, states[i][k]);
    var j :| 0 <= j < i && Vouches(events[j], e) && MadeIn(s.config.ttl, turns[j], e);
    assert rows[j] == events[j].row;
  }

  /** Run, then validate what was recorded. */
  method RunAndValidate(normalize: string -> string, w: Workload, providerMode: string, setup: Setup, turns: seq<Turn>)
    returns (result: Result<Trace, RunError>, accepted: bool)
    requires ValidConfig(setup.config) && |turns| == |DevRows(w.rows)|
    ensures result.Ok? ==> var events := result.value.events;
      accepted <==> forall i :: 0 <= i < |events| ==> !Contradictory(events[i].verification)
    ensures result.Ok? && (setup.config.mode.Similarity? || forall i :: 0 <= i < |turns| ==> Consistent(turns[i].verifier)) ==> accepted
  {
    ghost var states;
    result, states := RunWorkload(normalize, w, providerMode, setup, turns);
    accepted := false;
    if result.Ok? {
      DevRowsFacts(w.rows);
      DevRowsValid(normalize, w);
      RunIsAcceptedIff(setup, DevRows(w.rows), turns, states, result.value);
      accepted := ValidateTrace(result.value);
    }
  }

  lemma DevRowsValid(normalize: string -> string, w: Workload)
    requires ValidWorkload(normalize, w)
    ensures DistinctRows(DevRows(w.rows))
    ensures forall i :: 0 <= i < |DevRows(w.rows)| ==> NamesFilled(DevRows(w.rows)[i]) && DevRows(w.rows)[i].split == "dev"
  {
    DevRowsFacts(w.rows);
    forall i | 0 <= i < |DevRows(w.rows)|
      ensures NamesFilled(DevRows(w.rows)[i]) && DevRows(w.rows)[i].split == "dev"
    {
      assert DevRows(w.rows)[i] in DevRows(w.rows);
      var j :| 0 <= j < |w.rows| && w.rows[j] == DevRows(w.rows)[i];
      assert ValidRow(w.rows[j]);
    }
  }

  // ----- a completed run that the validator refuses -----

  const SAMPLE_ANSWER := Obj(map["model" := Str("m"), "choices" := Arr([SAMPLE_CHOICE])])

  const SAMPLE_CHOICE := Obj(map["finish_reason" := Str("stop"),
                                 "message" := Obj(map["role" := Str("assistant"), "content" := Str("x")])])

  function SampleRow(id: string, text: string): Row {
    Row(id, "t", "s", "g", "dev", Body(map[], [], "user", text))
  }

  lemma SampleRowIsValid(id: string, text: string)
    requires |id| > 0 && !IsSpace(id[0]) && |text| > 0 && !IsSpace(text[0])
    ensures ValidRow(SampleRow(id, text))
  {
    assert !IsSpace("t"[0]) && !IsSpace("s"[0]) && !IsSpace("g"[0]) && !IsSpace("user"[0]);
  }

  /** Approval together with an error: the cache does not reuse, the run records it, the validator refuses the trace. */
  lemma ContradictoryVerdictIsRefused()
    returns (s: Setup, rows: seq<Row>, turns: seq<Turn>, states: seq<seq<Entry>>, t: Trace)
    ensures ValidConfig(s.config) && Ran(s, rows, turns, states, t.events) && |t.events| == |rows| == 2
    ensures HeaderFits(t) && t.split == "dev" && t.matcher == Semantic(s.config.mode)
    ensures DistinctRows(rows) && ValidRow(rows[0]) && ValidRow(rows[1])
    ensures !TraceFits(t)
  {
    hide Steps, EventOf, CallOf, BaseFits, HitFits, ValidRow;
    s := Setup(Config(Verified, 0.5, 0.0, 60, 10, 100), (j: Json) => 1, (k: Key) => 0);
    rows := [SampleRow("a", "one"), SampleRow("b", "two")];
    SampleRowIsValid("a", "one");
    SampleRowIsValid("b", "two");
    var verdict := Verdict(true, 1, [], 0, Some("late failure"));
    var answer := Returns(Document(SAMPLE_ANSWER));
    var turn := Turn(true, true, true, 0, 0, Encoded([1.0]), Says(verdict), answer, answer);
    var x0, x1 := SampleEffects(s, rows, turn, verdict);
    turns, states := [turn, turn], [[], x0.entries, x1.entries];
    t := Trace("live", "natural", "dev", Semantic(Verified), [EventOf(rows[0], turn, x0), EventOf(rows[1], turn, x1)]);
    RecordedVerdict(rows[1], turn, x1);
    assert Served(s, rows, turns, states, t.events, 0);
    assert Served(s, rows, turns, states, t.events, 1);
    RefusedVerdict(t, 1);
  }

  lemma RecordedVerdict(row: Row, t: Turn, x: Effect)
    requires !Measured(t.baselineReply).Paused? && x.outcome.Done?
    ensures EventOf(row, t, x).verification == x.outcome.result.verification
  {
  }

  lemma RefusedVerdict(t: Trace, i: nat)
    requires i < |t.events| && Contradictory(t.events[i].verification)
    ensures !TraceFits(t)
  {
    assert !EventFits(t, i);
  }

  lemma SampleEffects(s: Setup, rows: seq<Row>, turn: Turn, verdict: Verdict) returns (x0: Effect, x1: Effect)
    requires s.config == Config(Verified, 0.5, 0.0, 60, 10, 100) && s.size(SAMPLE_ANSWER) == 1
    requires |rows| == 2 && rows[0].tenant == rows[1].tenant && rows[0].request != rows[1].request
    requires ScopeOf(Key(rows[0].tenant, rows[0].request)) == ScopeOf(Key(rows[1].tenant, rows[1].request))
    requires forall i :: 0 <= i < 2 ==> rows[i].request.lastRole == "user" && rows[i].request.fields == map[]
    requires var answer := Returns(Document(SAMPLE_ANSWER));
      turn == Turn(true, true, true, 0, 0, Encoded([1.0]), Says(verdict), answer, answer)
    requires ValidVerdict(verdict) && verdict.error.Some?
    ensures Measured(turn.baselineReply) == turn.baselineReply
    ensures Steps(s, [], CallOf(rows[0], turn), x0) && x0.outcome.Done?
    ensures Steps(s, x0.entries, CallOf(rows[1], turn), x1) && x1.outcome.Done? && x1.outcome.result.verification == Some(verdict)
  {
    hide Steps, Complete;
    SampleIsComplete(rows[0].request);
    SampleIsComplete(rows[1].request);
    var e0, e1 := NewEntry(s, CallOf(rows[0], turn), SAMPLE_ANSWER), NewEntry(s, CallOf(rows[1], turn), SAMPLE_ANSWER);
    x0 := Effect([e0], Done(CacheResult(Document(SAMPLE_ANSWER), Miss, Generated, true, None, None, None)), 1, None);
    x1 := Effect([e0, e1], Done(CacheResult(Document(SAMPLE_ANSWER), Miss, Generated, true, None, Some(1.0), Some(verdict))), 1,
                 Some(verdict));
    FirstSample(s, rows[0], turn, x0, e0);
    SecondSample(s, rows[1], turn, x1, e0, e1, verdict);
  }

  lemma SampleIsComplete(b: Body)
    requires "n" !in b.fields
    ensures Complete(SAMPLE_ANSWER, b) && !UsageCrashes(Document(SAMPLE_ANSWER))
  {
    assert !Blank("x") by {
      assert !IsSpace("x"[0]);
    }
    assert CompleteChoice(SAMPLE_CHOICE);
  }

  lemma FirstSample(s: Setup, row: Row, turn: Turn, x: Effect, e: Entry)
    requires s.config == Config(Verified, 0.5, 0.0, 60, 10, 100) && s.size(SAMPLE_ANSWER) == 1
    requires row.request.lastRole == "user" && "stream" !in row.request.fields && Complete(SAMPLE_ANSWER, row.request)
    requires turn.eligible && turn.eligibleAtAdmission && turn.encoding == Encoded([1.0])
    requires turn.reply == Returns(Document(SAMPLE_ANSWER)) && Measured(turn.reply) == turn.reply
    requires e == NewEntry(s, CallOf(row, turn), SAMPLE_ANSWER)
    requires x == Effect([e], Done(CacheResult(Document(SAMPLE_ANSWER), Miss, Generated, true, None, None, None)), 1, None)
    ensures Steps(s, [], CallOf(row, turn), x)
  {
    hide Complete;
    var c := CallOf(row, turn);
    assert Retrieves(s, [], c, Retrieval(false, None, None, None, false));
    assert [] + [e] == [e] && Sum([]) == 0;
    SumAppend([], e);
    assert Concludes(s, [], c, Retrieval(false, None, None, None, false), x);
  }

  lemma SecondSample(s: Setup, row: Row, turn: Turn, x: Effect, e0: Entry, e1: Entry, verdict: Verdict)
    requires s.config == Config(Verified, 0.5, 0.0, 60, 10, 100) && s.size(SAMPLE_ANSWER) == 1
    requires row.request.lastRole == "user" && "stream" !in row.request.fields && Complete(SAMPLE_ANSWER, row.request)
    requires turn.eligible && turn.eligibleAtAdmission && turn.encoding == Encoded([1.0]) && turn.now < e0.expires
    requires turn.reply == Returns(Document(SAMPLE_ANSWER)) && Measured(turn.reply) == turn.reply
    requires turn.verifier == Says(verdict) && ValidVerdict(verdict) && verdict.error.Some?
    requires e0.vector == [1.0] && e0.bytes == 1 && e0.key != CallOf(row, turn).key && InScope(e0, CallOf(row, turn).key)
    requires e1 == NewEntry(s, CallOf(row, turn), SAMPLE_ANSWER)
    requires x == Effect([e0, e1], Done(CacheResult(Document(SAMPLE_ANSWER), Miss, Generated, true, None, Some(1.0), Some(verdict))), 1,
                         Some(verdict))
    ensures Steps(s, [e0], CallOf(row, turn), x)
  {
    hide Complete;
    var c, live := CallOf(row, turn), [e0];
    assert Unexpired([], c.now) + [e0] == live && live[..0] == [];
    var r := Retrieval(false, None, Some(1.0), Some(verdict), false);
    assert Dot([], []) == 0.0 && Dot([1.0], [1.0]) == 1.0;
    assert Leads(s, live, c.key, [1.0], 0) && RetrievesLeader(s, live, c, [1.0], 0, r);
    assert Retrieves(s, live, c, r);
    assert live + [e1] == [e0, e1];
    SumAppend([], e0);
    SumAppend(live, e1);
    assert [] + [e0] == live && Sum([]) == 0;
    assert Concludes(s, live, c, r, x);
  }
}
