/** The independent replay of saved telemetry, and when it agrees with the evaluator. */
module ArtifactAudit {
  import opened Basics
  import opened SealedStream
  import opened StreamBuilder
  import opened SealedEvaluation

  // ----- what the audit demands of the records -----

  /** The auditor's own account of what reached the caches. */
  predicate Enters(e: Event, r: Record) {
    e.isSeed || r.decision != Reuse
  }

  predicate FieldsAgree(e: Event, r: Record) {
    r.id == e.id && r.query == e.query && r.source == e.source && r.isSeed == e.isSeed && r.reuseSafe == e.reuseSafe
  }

  predicate PathFits(r: Record) {
    && !(r.decision == Reuse && r.path == BypassPath)
    && (r.path in {CanonicalExact, AutoReuse} ==> r.decision == Reuse)
  }

  /** A named candidate is an earlier indexed event with exactly that text; a hit must name one. */
  ghost predicate CandidateFits(stream: seq<Event>, telemetry: seq<Record>, i: nat)
    requires i < |stream| == |telemetry|
  {
    match telemetry[i].matchedId
    case None => telemetry[i].decision != Reuse
    case Some(c) =>
      exists j :: 0 <= j < i && Enters(stream[j], telemetry[j]) && stream[j].id == c && stream[j].query == telemetry[i].matchedText
  }

  /** A probe's designated seed is indexed before it, is a seed, and shares its pair. */
  ghost predicate DesignatedFits(stream: seq<Event>, i: nat)
    requires i < |stream|
  {
    stream[i].isSeed || HasEarlierSeed(stream, i)
  }

  ghost predicate RecordFits(stream: seq<Event>, telemetry: seq<Record>, i: nat)
    requires i < |stream| == |telemetry|
  {
    var e, r := stream[i], telemetry[i];
    && FieldsAgree(e, r)
    && PathFits(r)
    && CandidateFits(stream, telemetry, i)
    && (r.similarity.MinusInfinity? ==> r.decision != Reuse)
    && r.outcome == Judged(e, r.decision == Reuse)
    && DesignatedFits(stream, i)
  }

  ghost predicate DistinctIds(stream: seq<Event>) {
    forall i, j :: 0 <= i < j < |stream| ==> stream[i].id != stream[j].id
  }

  ghost predicate Acceptable(stream: seq<Event>, telemetry: seq<Record>) {
    && |stream| == |telemetry|
    && DistinctIds(stream)
    && forall i :: 0 <= i < |stream| ==> RecordFits(stream, telemetry, i)
  }

  /**
   * What acceptance vouches for: the record has the event's fields, its label follows from its decision, a reuse names
   * an earlier indexed event by id and text and never comes from the bypass path, and every probe's designated seed
   * came before it.
   */
  lemma AcceptanceGuarantees(stream: seq<Event>, telemetry: seq<Record>, i: nat)
    requires Acceptable(stream, telemetry) && i < |stream|
    ensures var e, r := stream[i], telemetry[i];
      && r.id == e.id && r.query == e.query && r.source == e.source && r.isSeed == e.isSeed && r.reuseSafe == e.reuseSafe
      && r.outcome == (if e.isSeed then SeedIndexed
                       else if r.decision == Reuse then (if e.reuseSafe then TruePositive else FalsePositive)
                       else if e.reuseSafe then FalseNegative else TrueNegative)
      && (r.path == BypassPath ==> r.decision == Bypass) && (r.path in [CanonicalExact, AutoReuse] ==> r.decision == Reuse)
      && (r.decision == Reuse ==> r.matchedId.Some? && r.similarity != MinusInfinity)
      && (r.matchedId.Some? ==> exists j :: 0 <= j < i && (stream[j].isSeed || telemetry[j].decision == Bypass)
                                            && r.matchedId == Some(stream[j].id) && r.matchedText == stream[j].query)
      && (!e.isSeed ==> exists j :: 0 <= j < i && stream[j].isSeed && stream[j].pairId == e.pairId
                                     && e.matchedSeed == Some(stream[j].id))
  {
    assert RecordFits(stream, telemetry, i);
    if !stream[i].isSeed {
      var j :| 0 <= j < i && IsSeedOf(stream[j], stream[i]);
    }
  }

  datatype Refusal = LengthsDiffer | DuplicateIds | BadRecord(index: nat)

  /** The refusal names the first thing that is wrong. */
  ghost predicate Explains(stream: seq<Event>, telemetry: seq<Record>, why: Refusal) {
    match why
    case LengthsDiffer => |stream| != |telemetry|
    case DuplicateIds => |stream| == |telemetry| && !DistinctIds(stream)
    case BadRecord(i) =>
      && i < |stream| == |telemetry| && DistinctIds(stream) && !RecordFits(stream, telemetry, i)
      && forall j :: 0 <= j < i ==> RecordFits(stream, telemetry, j)
  }

  // ----- counters that only hold what was seen -----

  function Get<K>(counter: map<K, nat>, k: K): nat {
    if k in counter then counter[k] else 0
  }

  function Keyed<K(==)>(key: Record -> Option<K>, k: K): Record -> bool {
    (r: Record) => key(r) == Some(k)
  }

  /** A counter of `key` over the records: right everywhere, and without entries for what never occurred. */
  ghost predicate CounterOf<K(!new)>(records: seq<Record>, counter: map<K, nat>, key: Record -> Option<K>) {
    forall k :: Get(counter, k) == Tally(records, Keyed(key, k)) && (k in counter ==> counter[k] > 0)
  }

  function Bump<K>(counter: map<K, nat>, key: Option<K>): map<K, nat> {
    if key.Some? then counter[key.value := Get(counter, key.value) + 1] else counter
  }

  lemma CounterAppend<K(!new)>(records: seq<Record>, r: Record, counter: map<K, nat>, key: Record -> Option<K>)
    requires CounterOf(records, counter, key)
    ensures CounterOf(records + [r], Bump(counter, key(r)), key)
  {
    forall k: K
      ensures Tally(records + [r], Keyed(key, k)) == Tally(records, Keyed(key, k)) + if key(r) == Some(k) then 1 else 0
    {
      TallyAppend(records, r, Keyed(key, k));
    }
  }

  function PathKey(r: Record): Option<Path> {
    Some(r.path)
  }

  function OutcomeKey(r: Record): Option<Outcome> {
    Some(r.outcome)
  }

  function CanonicalKey(r: Record): Option<Outcome> {
    if r.path == CanonicalExact then Some(r.outcome) else None
  }

  // ----- the counts recomputed from counters are the evaluator's counts -----

  lemma {:induction false} TallySplit(records: seq<Record>, whole: Record -> bool, left: Record -> bool, right: Record -> bool)
    requires forall i :: 0 <= i < |records| ==>
      && (whole(records[i]) <==> left(records[i]) || right(records[i]))
      && !(left(records[i]) && right(records[i]))
    ensures Tally(records, whole) == Tally(records, left) + Tally(records, right)
  {
    if records == [] {
    } else {
      TallySplit(records[..|records| - 1], whole, left, right);
    }
  }

  lemma {:induction false} TallySame(records: seq<Record>, a: Record -> bool, b: Record -> bool)
    requires forall i :: 0 <= i < |records| ==> (a(records[i]) <==> b(records[i]))
    ensures Tally(records, a) == Tally(records, b)
  {
    if records == [] {
    } else {
      TallySame(records[..|records| - 1], a, b);
    }
  }

  /** What every accepted record satisfies on its own. */
  predicate Labelled(r: Record) {
    && PathFits(r)
    && r.outcome == if r.isSeed then SeedIndexed
                    else if r.decision == Reuse then (if r.reuseSafe then TruePositive else FalsePositive)
                    else if r.reuseSafe then FalseNegative else TrueNegative
  }

  ghost predicate AllLabelled(records: seq<Record>) {
    forall i :: 0 <= i < |records| ==> Labelled(records[i])
  }

  // ----- comparison with the reported summary -----

  datatype Field = HitsField | TpField | FpField | NonExactField | NonExactFpField

  const FIELDS := {HitsField, TpField, FpField, NonExactField, NonExactFpField}

  function FieldOf(c: SourceCounts, f: Field): nat {
    match f
    case HitsField => c.hits
    case TpField => c.tp
    case FpField => c.fp
    case NonExactField => c.nonExact
    case NonExactFpField => c.nonExactFp
  }

  datatype Check =
    | NQueries | TotalHits | TotalTp | TotalFp | TotalFn | TotalTn | ExactCanonicalHits
    | NonExactHits | NonExactTps | NonExactFps | PathCounts
    | SourceCheck(name: string, field: Field)

  function Flag(c: Check, differs: bool): set<Check> {
    if differs then {c} else {}
  }

  function SourceDiffers(reported: map<string, SourceCounts>, recomputed: map<string, SourceCounts>): set<Check> {
    set name, f | name in reported.Keys && f in FIELDS
                  && (name !in recomputed || FieldOf(reported[name], f) != FieldOf(recomputed[name], f))
      :: SourceCheck(name, f)
  }

  function Mismatches(n: nat, counts: Counts, paths: map<Path, nat>, sources: map<string, SourceCounts>, s: Summary): set<Check> {
    Flag(NQueries, s.queries != n)
    + Flag(TotalHits, s.counts.hits != counts.hits) + Flag(TotalTp, s.counts.tp != counts.tp)
    + Flag(TotalFp, s.counts.fp != counts.fp) + Flag(TotalFn, s.counts.fn != counts.fn)
    + Flag(TotalTn, s.counts.tn != counts.tn) + Flag(ExactCanonicalHits, s.counts.canonical != counts.canonical)
    + Flag(NonExactHits, s.counts.nonExact != counts.nonExact) + Flag(NonExactTps, s.counts.nonExactTp != counts.nonExactTp)
    + Flag(NonExactFps, s.counts.nonExactFp != counts.nonExactFp) + Flag(PathCounts, s.paths != paths)
    + SourceDiffers(s.sources, sources)
  }

  datatype Report = Report(counts: Counts, paths: map<Path, nat>, sources: map<string, SourceCounts>, mismatches: set<Check>)

  // ----- the audit -----

  method IndexById(stream: seq<Event>) returns (byId: map<nat, Event>)
    ensures forall id :: id in byId <==> exists i :: 0 <= i < |stream| && stream[i].id == id
    ensures DistinctIds(stream) ==> forall i :: 0 <= i < |stream| ==> stream[i].id in byId && byId[stream[i].id] == stream[i]
  {
    byId := map[];
    for i := 0 to |stream|
      invariant forall id :: id in byId <==> exists j :: 0 <= j < i && stream[j].id == id
      invariant DistinctIds(stream) ==> forall j :: 0 <= j < i ==> stream[j].id in byId && byId[stream[j].id] == stream[j]
    {
      byId := byId[stream[i].id := stream[i]];
    }
  }

  ghost predicate IndexedIds(stream: seq<Event>, telemetry: seq<Record>, n: nat, ids: set<nat>)
    requires n <= |stream| == |telemetry|
  {
    && (forall j :: 0 <= j < n && Enters(stream[j], telemetry[j]) ==> stream[j].id in ids)
    && (forall id :: id in ids ==> exists j :: 0 <= j < n && Enters(stream[j], telemetry[j]) && stream[j].id == id)
  }

  ghost predicate Looks(stream: seq<Event>, byId: map<nat, Event>) {
    && DistinctIds(stream)
    && forall i :: 0 <= i < |stream| ==> stream[i].id in byId && byId[stream[i].id] == stream[i]
  }

  /** The checks of one record, made with the id table and the set of indexed ids, are the declared ones. */
  method CheckRecord(stream: seq<Event>, telemetry: seq<Record>, i: nat, byId: map<nat, Event>, indexed: set<nat>) returns (ok: bool)
    requires i < |stream| == |telemetry|
    requires Looks(stream, byId) && IndexedIds(stream, telemetry, i, indexed)
    ensures ok <==> RecordFits(stream, telemetry, i)
  {
    var e, r := stream[i], telemetry[i];
    var hit := r.decision == Reuse;
    LookedUp(stream, telemetry, i, byId, indexed);
    hide HasEarlierSeed, IndexedIds, Looks;
    if !FieldsAgree(e, r) || (hit && r.path == BypassPath) {
      return false;
    }
    if r.path in {CanonicalExact, AutoReuse} && !hit {
      return false;
    }
    if r.matchedId.Some? && (r.matchedId.value !in indexed || byId[r.matchedId.value].query != r.matchedText) {
      return false;
    }
    if hit && (r.matchedId.None? || r.similarity.MinusInfinity?) {
      return false;
    }
    if r.outcome != Judged(e, hit) {
      return false;
    }
    if !e.isSeed {
      if e.matchedSeed.None? || e.matchedSeed.value !in indexed || !byId[e.matchedSeed.value].isSeed {
        return false;
      }
      if byId[e.matchedSeed.value].pairId != e.pairId {
        return false;
      }
    }
    return true;
  }

  lemma LookedUp(stream: seq<Event>, telemetry: seq<Record>, i: nat, byId: map<nat, Event>, indexed: set<nat>)
    requires i < |stream| == |telemetry|
    requires Looks(stream, byId) && IndexedIds(stream, telemetry, i, indexed)
    ensures forall id :: id in indexed ==> id in byId
    ensures telemetry[i].matchedId.Some? ==> (CandidateFits(stream, telemetry, i)
      <==> telemetry[i].matchedId.value in indexed && byId[telemetry[i].matchedId.value].query == telemetry[i].matchedText)
    ensures HasEarlierSeed(stream, i) <==> (stream[i].matchedSeed.Some? && stream[i].matchedSeed.value in indexed
      && IsSeedOf(byId[stream[i].matchedSeed.value], stream[i]))
  {
    forall id | id in indexed
      ensures id in byId && exists j :: 0 <= j < i && Enters(stream[j], telemetry[j]) && stream[j].id == id && byId[id] == stream[j]
    {
      var j :| 0 <= j < i && Enters(stream[j], telemetry[j]) && stream[j].id == id;
      assert byId[stream[j].id] == stream[j];
    }
  }

  ghost predicate FitSoFar(stream: seq<Event>, telemetry: seq<Record>, n: nat)
    requires n <= |stream| == |telemetry|
  {
    forall j :: 0 <= j < n ==> RecordFits(stream, telemetry, j)
  }

  lemma NothingIndexed(stream: seq<Event>, telemetry: seq<Record>)
    requires |stream| == |telemetry|
    ensures IndexedIds(stream, telemetry, 0, {}) && FitSoFar(stream, telemetry, 0)
  {
  }

  lemma IndexedStep(stream: seq<Event>, telemetry: seq<Record>, n: nat, ids: set<nat>)
    requires n < |stream| == |telemetry| && IndexedIds(stream, telemetry, n, ids)
    requires FitSoFar(stream, telemetry, n) && RecordFits(stream, telemetry, n)
    ensures IndexedIds(stream, telemetry, n + 1, if Enters(stream[n], telemetry[n]) then ids + {stream[n].id} else ids)
    ensures FitSoFar(stream, telemetry, n + 1)
  {
    hide RecordFits;
    forall id | id in ids
      ensures exists j :: 0 <= j < n + 1 && Enters(stream[j], telemetry[j]) && stream[j].id == id
    {
      var j :| 0 <= j < n && Enters(stream[j], telemetry[j]) && stream[j].id == id;
    }
  }

  lemma FitMeansLabelled(stream: seq<Event>, telemetry: seq<Record>)
    requires |stream| == |telemetry| && FitSoFar(stream, telemetry, |stream|)
    ensures AllLabelled(telemetry)
  {
    forall i | 0 <= i < |telemetry|
      ensures Labelled(telemetry[i])
    {
      assert RecordFits(stream, telemetry, i);
    }
  }

  /** The auditor's running counters. */
  datatype Totals = Totals(outcomes: map<Outcome, nat>, paths: map<Path, nat>, canonical: map<Outcome, nat>,
                           nonExactTp: nat, nonExactFp: nat, sources: map<string, SourceCounts>)

  const NO_TOTALS := Totals(map[], map[], map[], 0, 0, map[])

  ghost predicate Counted(records: seq<Record>, t: Totals) {
    && CounterOf(records, t.outcomes, OutcomeKey)
    && CounterOf(records, t.paths, PathKey)
    && CounterOf(records, t.canonical, CanonicalKey)
    && t.nonExactTp == Tally(records, NonExactTp)
    && t.nonExactFp == Tally(records, NonExactFp)
    && SourcesAre(records, t.sources)
  }

  lemma CountNothing()
    ensures Counted([], NO_TOTALS)
  {
  }

  /** One checked record more. */
  method CountRecord(ghost records: seq<Record>, t: Totals, e: Event, r: Record) returns (u: Totals)
    requires Counted(records, t)
    requires FieldsAgree(e, r) && r.outcome == Judged(e, r.decision == Reuse)
    ensures Counted(records + [r], u)
  {
    hide CounterOf, SourcesAre, Bump;
    CounterAppend(records, r, t.outcomes, OutcomeKey);
    CounterAppend(records, r, t.paths, PathKey);
    CounterAppend(records, r, t.canonical, CanonicalKey);
    TallyAppend(records, r, NonExactTp);
    TallyAppend(records, r, NonExactFp);
    SourcesAppend(records, r, t.sources);
    var paths := Bump(t.paths, Some(r.path));
    var outcomes := Bump(t.outcomes, Some(r.outcome));
    var canonical := Bump(t.canonical, if r.path == CanonicalExact then Some(r.outcome) else None);
    var nonExactTp, nonExactFp := t.nonExactTp, t.nonExactFp;
    var source := if e.source in t.sources then t.sources[e.source] else NO_COUNTS;
    if !e.isSeed && r.decision == Reuse {
      source := source.(hits := source.hits + 1);
      if r.outcome == TruePositive {
        source := source.(tp := source.tp + 1);
      } else {
        source := source.(fp := source.fp + 1);
      }
      if r.path != CanonicalExact {
        source := source.(nonExact := source.nonExact + 1);
        if r.outcome == FalsePositive {
          source, nonExactFp := source.(nonExactFp := source.nonExactFp + 1), nonExactFp + 1;
        } else {
          nonExactTp := nonExactTp + 1;
        }
      }
    }
    u := Totals(outcomes, paths, canonical, nonExactTp, nonExactFp, t.sources[e.source := source]);
  }

  /** The loop over event and record together: stops at the first record that does not fit. */
  method ReplayRecords(stream: seq<Event>, telemetry: seq<Record>, byId: map<nat, Event>) returns (fitting: nat, totals: Totals)
    requires |stream| == |telemetry| && Looks(stream, byId)
    ensures fitting <= |stream| && FitSoFar(stream, telemetry, fitting)
    ensures fitting < |stream| ==> !RecordFits(stream, telemetry, fitting)
    ensures fitting == |stream| ==> Counted(telemetry, totals)
  {
    var indexed: set<nat> := {};
    totals, fitting := NO_TOTALS, 0;
    CountNothing();
    hide RecordFits, Counted, Judged, Looks, IndexedIds, FitSoFar;
    NothingIndexed(stream, telemetry);
    while fitting < |stream|
      invariant fitting <= |stream|
      invariant FitSoFar(stream, telemetry, fitting) && IndexedIds(stream, telemetry, fitting, indexed)
      invariant Counted(telemetry[..fitting], totals)
    {
      var ok := CheckRecord(stream, telemetry, fitting, byId, indexed);
      if !ok {
        return;
      }
      FieldsOf(stream, telemetry, fitting);
      IndexedStep(stream, telemetry, fitting, indexed);
      TakeOneMore(telemetry, fitting);
      totals := CountRecord(telemetry[..fitting], totals, stream[fitting], telemetry[fitting]);
      if stream[fitting].isSeed || telemetry[fitting].decision != Reuse {
        indexed := indexed + {stream[fitting].id};
      }
      fitting := fitting + 1;
    }
    assert telemetry[..|stream|] == telemetry;
  }

  /**
   * The audit refuses exactly the telemetry that is not acceptable, naming the first fault, and otherwise
   * recomputes every count from the records alone and lists where the summary says something else.
   */
  method AuditRecords(stream: seq<Event>, telemetry: seq<Record>, summary: Summary) returns (result: Result<Report, Refusal>)
    ensures result.Ok? <==> Acceptable(stream, telemetry)
    ensures result.Err? ==> Explains(stream, telemetry, result.error)
    ensures result.Ok? ==> ReportsOn(telemetry, summary, result.value)
  {
    if |stream| != |telemetry| {
      return Err(LengthsDiffer);
    }
    var distinct := HasDistinctIds(stream);
    if !distinct {
      return Err(DuplicateIds);
    }
    var byId := IndexById(stream);
    var fitting, totals := ReplayRecords(stream, telemetry, byId);
    hide RecordFits, DistinctIds, CountsOf, Mismatches, Counted, CounterOf, SourcesAre;
    if fitting < |stream| {
      return Err(BadRecord(fitting));
    }
    FitMeansLabelled(stream, telemetry);
    Recount(telemetry, totals);
    var counts := Recounted(totals);
    result := Ok(Report(counts, totals.paths, totals.sources, Mismatches(|stream|, counts, totals.paths, totals.sources, summary)));
  }

  ghost predicate ReportsOn(telemetry: seq<Record>, summary: Summary, r: Report) {
    && r.counts == CountsOf(telemetry)
    && CounterOf(telemetry, r.paths, PathKey)
    && SourcesAre(telemetry, r.sources)
    && r.mismatches == Mismatches(|telemetry|, r.counts, r.paths, r.sources, summary)
  }

  lemma FieldsOf(stream: seq<Event>, telemetry: seq<Record>, i: nat)
    requires i < |stream| == |telemetry| && RecordFits(stream, telemetry, i)
    ensures FieldsAgree(stream[i], telemetry[i]) && telemetry[i].outcome == Judged(stream[i], telemetry[i].decision == Reuse)
  {
  }

  /** The auditor's derived counts: hits are true plus false positives, on the canonical path likewise. */
  function Recounted(t: Totals): Counts {
    Counts(Get(t.outcomes, TruePositive) + Get(t.outcomes, FalsePositive), Get(t.outcomes, TruePositive),
           Get(t.outcomes, FalsePositive), Get(t.outcomes, FalseNegative), Get(t.outcomes, TrueNegative),
           Get(t.canonical, TruePositive) + Get(t.canonical, FalsePositive),
           t.nonExactTp + t.nonExactFp, t.nonExactTp, t.nonExactFp)
  }

  /** They are the counts the evaluator keeps directly. */
  lemma Recount(records: seq<Record>, t: Totals)
    requires AllLabelled(records) && Counted(records, t)
    ensures CounterOf(records, t.paths, PathKey) && SourcesAre(records, t.sources)
    ensures Recounted(t) == CountsOf(records)
  {
    hide CounterOf, SourcesAre;
    RecountOutcomes(records, t.outcomes);
    RecountPaths(records, t.canonical);
  }

  lemma OutcomeKeyed(o: Outcome)
    ensures forall r: Record :: Keyed(OutcomeKey, o)(r) <==> r.outcome == o
    ensures forall r: Record :: Keyed(CanonicalKey, o)(r) <==> r.path == CanonicalExact && r.outcome == o
  {
    assert forall r: Record :: Keyed(OutcomeKey, o)(r) <==> OutcomeKey(r) == Some(o);
    assert forall r: Record :: Keyed(CanonicalKey, o)(r) <==> CanonicalKey(r) == Some(o);
  }

  lemma RecountOutcomes(records: seq<Record>, outcomes: map<Outcome, nat>)
    requires AllLabelled(records) && CounterOf(records, outcomes, OutcomeKey)
    ensures Tally(records, Hit) == Get(outcomes, TruePositive) + Get(outcomes, FalsePositive)
    ensures Tally(records, Tp) == Get(outcomes, TruePositive) && Tally(records, Fp) == Get(outcomes, FalsePositive)
    ensures Tally(records, Fn) == Get(outcomes, FalseNegative) && Tally(records, Tn) == Get(outcomes, TrueNegative)
  {
    OutcomeKeyed(TruePositive);
    OutcomeKeyed(FalsePositive);
    OutcomeKeyed(FalseNegative);
    OutcomeKeyed(TrueNegative);
    TallySplit(records, Hit, Tp, Fp);
    TallySame(records, Tp, Keyed(OutcomeKey, TruePositive));
    TallySame(records, Fp, Keyed(OutcomeKey, FalsePositive));
    TallySame(records, Fn, Keyed(OutcomeKey, FalseNegative));
    TallySame(records, Tn, Keyed(OutcomeKey, TrueNegative));
  }

  lemma RecountPaths(records: seq<Record>, canonical: map<Outcome, nat>)
    requires AllLabelled(records) && CounterOf(records, canonical, CanonicalKey)
    ensures Tally(records, Canonical) == Get(canonical, TruePositive) + Get(canonical, FalsePositive)
    ensures Tally(records, NonExact) == Tally(records, NonExactTp) + Tally(records, NonExactFp)
  {
    OutcomeKeyed(TruePositive);
    OutcomeKeyed(FalsePositive);
    TallySplit(records, Canonical, Keyed(CanonicalKey, TruePositive), Keyed(CanonicalKey, FalsePositive));
    TallySplit(records, NonExact, NonExactTp, NonExactFp);
  }

  method HasDistinctIds(stream: seq<Event>) returns (distinct: bool)
    ensures distinct <==> DistinctIds(stream)
  {
    var ids := set e | e in stream :: e.id;
    distinct := |ids| == |stream|;
    IdCount(stream, ids);
  }

  /** As many different ids as events exactly when no id repeats. */
  lemma {:induction false} IdCount(stream: seq<Event>, ids: set<nat>)
    requires ids == set e | e in stream :: e.id
    ensures |ids| <= |stream|
    ensures |ids| == |stream| <==> DistinctIds(stream)
  {
    if stream == [] {
    } else {
      var n := |stream| - 1;
      var rest := set e | e in stream[..n] :: e.id;
      IdCount(stream[..n], rest);
      assert stream == stream[..n] + [stream[n]];
      assert ids == rest + {stream[n].id};
      LastId(stream, rest);
    }
  }

  lemma LastId(stream: seq<Event>, rest: set<nat>)
    requires stream != [] && rest == set e | e in stream[..|stream| - 1] :: e.id
    ensures DistinctIds(stream) <==> DistinctIds(stream[..|stream| - 1]) && stream[|stream| - 1].id !in rest
  {
    var n := |stream| - 1;
    var before := stream[..n];
    assert forall j :: 0 <= j < n ==> before[j] == stream[j] && before[j] in before;
    if stream[n].id in rest {
      var j :| 0 <= j < n && before[j].id == stream[n].id;
      assert stream[j].id == stream[n].id;
    }
  }

  // ----- the evaluator's output under audit -----

  ghost predicate Occurs(records: seq<Record>, p: Path) {
    exists i :: 0 <= i < |records| && records[i].path == p
  }

  ghost predicate AllPathsUsed(records: seq<Record>) {
    forall p: Path :: Occurs(records, p)
  }

  /** On a linked stream, everything the evaluator writes is acceptable to the audit. */
  lemma EvaluationIsAcceptable(normalize: Normalizer, stream: seq<Event>, opinions: seq<Opinion>, telemetry: seq<Record>)
    requires Linked(stream) && Replays(normalize, stream, opinions, telemetry) && |telemetry| == |stream|
    ensures Acceptable(stream, telemetry)
  {
    ReplayIsFaithful(normalize, stream, opinions, telemetry);
    forall i | 0 <= i < |stream|
      ensures RecordFits(stream, telemetry, i)
    {
      FaithfulFits(stream, telemetry, i);
    }
  }

  lemma FaithfulFits(stream: seq<Event>, telemetry: seq<Record>, i: nat)
    requires i < |stream| == |telemetry| && DesignatedFits(stream, i)
    requires forall j :: 0 <= j < |stream| ==> Faithful(stream, telemetry, j)
    ensures RecordFits(stream, telemetry, i)
  {
    assert Faithful(stream, telemetry, i);
    if telemetry[i].matchedId.Some? {
      var c, text, before := telemetry[i].matchedId.value, telemetry[i].matchedText, telemetry[..i];
      var j :| 0 <= j < |before| && WasIndexed(before, j) && before[j].id == c && before[j].query == text;
      assert Faithful(stream, telemetry, j) && before[j] == telemetry[j];
      assert Enters(stream[j], telemetry[j]);
    }
  }

  lemma PathTally(records: seq<Record>, p: Path)
    ensures Tally(records, OnPath(p)) == Tally(records, Keyed(PathKey, p))
    ensures Tally(records, OnPath(p)) > 0 <==> Occurs(records, p)
  {
    assert forall r: Record :: OnPath(p)(r) <==> r.path == p;
    assert forall r: Record :: Keyed(PathKey, p)(r) <==> PathKey(r) == Some(p);
    TallySame(records, OnPath(p), Keyed(PathKey, p));
    TallyPositive(records, OnPath(p));
  }

  /** A path with no record has no entry in the auditor's counter, but a zero in the evaluator's. */
  lemma PathsAgreeIff(records: seq<Record>, reported: map<Path, nat>, recomputed: map<Path, nat>)
    requires PathsAre(records, reported) && CounterOf(records, recomputed, PathKey)
    ensures forall p: Path :: Get(reported, p) == Get(recomputed, p)
    ensures reported == recomputed <==> AllPathsUsed(records)
  {
    hide Occurs;
    forall p: Path
      ensures p in reported && reported[p] == Get(recomputed, p)
      ensures p in recomputed <==> Occurs(records, p)
    {
      PathTally(records, p);
      assert p in reported;
    }
  }

  lemma {:induction false} TallyPositive(records: seq<Record>, keep: Record -> bool)
    ensures Tally(records, keep) > 0 <==> exists i :: 0 <= i < |records| && keep(records[i])
  {
    if records == [] {
    } else {
      var n := |records| - 1;
      TallyPositive(records[..n], keep);
      if i :| 0 <= i < n && keep(records[..n][i]) {
        assert keep(records[i]);
      }
      if i :| 0 <= i < |records| && keep(records[i]) {
        assert i < n ==> keep(records[..n][i]);
      }
    }
  }

  lemma SourcesUnique(records: seq<Record>, a: map<string, SourceCounts>, b: map<string, SourceCounts>)
    requires SourcesAre(records, a) && SourcesAre(records, b)
    ensures a == b
  {
    hide SourceCountsOf;
    assert forall s :: s in a <==> s in b;
  }

  /** Every count agrees; the only possible mismatch is the path table, and only when some path was never used. */
  lemma EvaluationReconciles(telemetry: seq<Record>, summary: Summary, paths: map<Path, nat>, sources: map<string, SourceCounts>)
    requires summary.queries == |telemetry| && summary.counts == CountsOf(telemetry)
    requires PathsAre(telemetry, summary.paths) && SourcesAre(telemetry, summary.sources)
    requires CounterOf(telemetry, paths, PathKey) && SourcesAre(telemetry, sources)
    ensures Mismatches(|telemetry|, CountsOf(telemetry), paths, sources, summary)
      == if AllPathsUsed(telemetry) then {} else {PathCounts}
  {
    PathsAgreeIff(telemetry, summary.paths, paths);
    SourcesUnique(telemetry, summary.sources, sources);
    hide CounterOf, PathsAre, SourcesAre, AllPathsUsed, CountsOf, FieldOf;
    assert SourceDiffers(sources, sources) == {};
  }

  /** With fewer records than paths some path is unused, so even a faithful summary is reported as mismatched. */
  lemma FewRecordsNeverReconcile(records: seq<Record>)
    requires |records| < 4
    ensures !AllPathsUsed(records)
  {
    var three := {if |records| > 0 then records[0].path else BypassPath, if |records| > 1 then records[1].path else BypassPath,
                  if |records| > 2 then records[2].path else BypassPath};
    var unused := if CanonicalExact !in three then CanonicalExact else if AutoReuse !in three then AutoReuse
                  else if LocalEquivalence !in three then LocalEquivalence else BypassPath;
    assert !Occurs(records, unused);
  }

  /** Evaluate, then audit what was saved: never refused, and reconciled exactly when all four paths occurred. */
  method EvaluateAndAudit(normalize: Normalizer, stream: seq<Event>, opinions: seq<Opinion>)
    returns (telemetry: seq<Record>, summary: Summary, result: Result<Report, Refusal>)
    requires |opinions| == |stream| && Linked(stream)
    ensures Replays(normalize, stream, opinions, telemetry) && |telemetry| == |stream|
    ensures result.Ok? && result.value.counts == summary.counts && result.value.sources == summary.sources
    ensures forall p: Path :: Get(result.value.paths, p) == Get(summary.paths, p)
    ensures result.value.mismatches == if AllPathsUsed(telemetry) then {} else {PathCounts}
  {
    telemetry, summary := Evaluate(normalize, stream, opinions);
    EvaluationIsAcceptable(normalize, stream, opinions, telemetry);
    result := AuditRecords(stream, telemetry, summary);
    EvaluationReconciles(telemetry, summary, result.value.paths, result.value.sources);
    PathsAgreeIff(telemetry, summary.paths, result.value.paths);
    SourcesUnique(telemetry, summary.sources, result.value.sources);
  }

  /** The whole pipeline: whatever is built, evaluated and saved passes the audit. */
  method BuildEvaluateAudit(pairs: seq<Pair>, lags: seq<nat>, organic: seq<Organic>, normalize: Normalizer, opinions: seq<Opinion>)
    returns (stream: seq<Event>, telemetry: seq<Record>, summary: Summary, result: Result<Report, Refusal>)
    requires |lags| == |pairs| && forall k :: 0 <= k < |lags| ==> 2 <= lags[k] <= 10
    requires |opinions| == 2 * |pairs| + |organic|
    ensures MadeOf(pairs, organic, stream) && Replays(normalize, stream, opinions, telemetry)
    ensures result.Ok? && result.value.mismatches == if AllPathsUsed(telemetry) then {} else {PathCounts}
  {
    stream := AssembleSealedStream(pairs, lags, organic);
    telemetry, summary, result := EvaluateAndAudit(normalize, stream, opinions);
  }

  // ----- what reconciliation means for any saved telemetry -----

  /** No mismatch says exactly that the summary states the tallies of the records, for every source it reports. */
  lemma ReconciledIff(telemetry: seq<Record>, summary: Summary, paths: map<Path, nat>, sources: map<string, SourceCounts>)
    requires CounterOf(telemetry, paths, PathKey) && SourcesAre(telemetry, sources)
    ensures Mismatches(|telemetry|, CountsOf(telemetry), paths, sources, summary) == {}
      <==> && summary.queries == |telemetry| && summary.counts == CountsOf(telemetry) && summary.paths == paths
           && forall s :: s in summary.sources ==>
                s in sources && summary.sources[s] == SourceCountsOf(telemetry, s)
  {
    hide CounterOf, CountsOf, SourceCountsOf;
    var bad := Mismatches(|telemetry|, CountsOf(telemetry), paths, sources, summary);
    FlagsEmpty(|telemetry|, CountsOf(telemetry), paths, sources, summary);
    RowsEmpty(summary.sources, sources);
  }

  lemma FlagsEmpty(n: nat, counts: Counts, paths: map<Path, nat>, sources: map<string, SourceCounts>, s: Summary)
    ensures Mismatches(n, counts, paths, sources, s) == {}
      <==> s.queries == n && s.counts == counts && s.paths == paths && SourceDiffers(s.sources, sources) == {}
  {
    hide SourceDiffers;
    var m := Mismatches(n, counts, paths, sources, s);
    if m == {} {
      assert NQueries !in m && TotalHits !in m && TotalTp !in m && TotalFp !in m && TotalFn !in m && TotalTn !in m;
      assert ExactCanonicalHits !in m && NonExactHits !in m && NonExactTps !in m && NonExactFps !in m && PathCounts !in m;
      assert SourceDiffers(s.sources, sources) <= m;
    }
  }

  lemma RowsEmpty(reported: map<string, SourceCounts>, recomputed: map<string, SourceCounts>)
    ensures SourceDiffers(reported, recomputed) == {}
      <==> forall s :: s in reported ==> s in recomputed && reported[s] == recomputed[s]
  {
    var bad := SourceDiffers(reported, recomputed);
    if bad == {} {
      forall s | s in reported
        ensures s in recomputed && reported[s] == recomputed[s]
      {
        assert forall f :: f in FIELDS ==> SourceCheck(s, f) !in bad;
        assert HitsField in FIELDS && TpField in FIELDS && FpField in FIELDS && NonExactField in FIELDS && NonExactFpField in FIELDS;
      }
    }
  }
}
