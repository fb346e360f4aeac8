/** The evaluator's event loop: two growing caches, routing, and running counters. */
module SealedEvaluation {
  import opened Basics
  import opened SealedStream

  datatype Decision = Reuse | Bypass

  datatype Path = CanonicalExact | AutoReuse | LocalEquivalence | BypassPath

  datatype Outcome = SeedIndexed | TruePositive | FalsePositive | FalseNegative | TrueNegative

  datatype Score = Finite(value: real) | MinusInfinity

  datatype Tier = TierAutoReuse | TierAmbiguous | TierBypass

  datatype Record = Record(id: nat, query: string, source: string, isSeed: bool, reuseSafe: bool,
                           decision: Decision, path: Path, outcome: Outcome, similarity: Score,
                           matchedText: string, matchedId: Option<nat>)

  /** A cache entry: the id and text of the event that was indexed. */
  datatype Entry = Entry(id: nat, text: string)

  /** What the models say about one event: nearest neighbour, its score, routing tier, guards, local verdict. */
  datatype Opinion = Opinion(nearest: nat, score: real, tier: Tier, guardsPass: bool, local: Decision)

  /** The evaluator's memory: the canonical cache by normalized text, and the vector index. */
  datatype Memory = Memory(canonical: map<string, Entry>, index: seq<Entry>)

  type Normalizer = string -> string

  /** Normalized text that is empty is neither stored nor found. */
  function CanonicalGet(normalize: Normalizer, m: Memory, query: string): Option<Entry> {
    var key := normalize(query);
    if key == "" || key !in m.canonical then None else Some(m.canonical[key])
  }

  function Store(normalize: Normalizer, m: Memory, e: Event): Memory {
    var entry, key := Entry(e.id, e.query), normalize(e.query);
    Memory(if key == "" then m.canonical else m.canonical[key := entry], m.index + [entry])
  }

  /** The top-1 search returns some stored entry, or minus infinity from an empty index. */
  function Nearest(m: Memory, o: Opinion): (Option<Entry>, Score) {
    if m.index == [] then (None, MinusInfinity) else (Some(m.index[o.nearest % |m.index|]), Finite(o.score))
  }

  /** Stages 0 to 3: what is decided, along which path, about which candidate. */
  function Route(normalize: Normalizer, m: Memory, e: Event, o: Opinion): (Decision, Path, Score, Option<Entry>) {
    match CanonicalGet(normalize, m, e.query)
    case Some(entry) => (Reuse, CanonicalExact, Finite(0.0), Some(entry))
    case None =>
      var (found, score) := Nearest(m, o);
      var text := if found.Some? then found.value.text else "";
      if o.tier == TierAutoReuse && text != "" then
        if o.guardsPass then (Reuse, AutoReuse, score, found) else (Bypass, BypassPath, score, found)
      else if o.tier == TierBypass || text == "" then (Bypass, BypassPath, score, found)
      else (o.local, LocalEquivalence, score, found)
  }

  function Judged(e: Event, hit: bool): Outcome {
    if e.isSeed then SeedIndexed
    else if hit then (if e.reuseSafe then TruePositive else FalsePositive)
    else if e.reuseSafe then FalseNegative else TrueNegative
  }

  /** The telemetry record of one event. */
  function RecordOf(normalize: Normalizer, m: Memory, e: Event, o: Opinion): Record {
    var (decision, path, similarity, found) := Route(normalize, m, e, o);
    Record(e.id, e.query, e.source, e.isSeed, e.reuseSafe, decision, path, Judged(e, decision == Reuse), similarity,
           if found.Some? then found.value.text else "", if found.Some? then Some(found.value.id) else None)
  }

  // ----- counting -----

  function Tally(records: seq<Record>, keep: Record -> bool): nat {
    if records == [] then 0
    else Tally(records[..|records| - 1], keep) + if keep(records[|records| - 1]) then 1 else 0
  }

  lemma TallyAppend(records: seq<Record>, r: Record, keep: Record -> bool)
    ensures Tally(records + [r], keep) == Tally(records, keep) + if keep(r) then 1 else 0
  {
    assert (records + [r])[..|records|] == records;
  }

  predicate Hit(r: Record) {
    !r.isSeed && r.decision == Reuse
  }

  predicate Tp(r: Record) {
    !r.isSeed && r.decision == Reuse && r.reuseSafe
  }

  predicate Fp(r: Record) {
    !r.isSeed && r.decision == Reuse && !r.reuseSafe
  }

  predicate Fn(r: Record) {
    !r.isSeed && r.decision != Reuse && r.reuseSafe
  }

  predicate Tn(r: Record) {
    !r.isSeed && r.decision != Reuse && !r.reuseSafe
  }

  predicate Canonical(r: Record) {
    !r.isSeed && r.path == CanonicalExact
  }

  predicate NonExact(r: Record) {
    !r.isSeed && r.decision == Reuse && r.path != CanonicalExact
  }

  predicate NonExactTp(r: Record) {
    !r.isSeed && r.decision == Reuse && r.reuseSafe && r.path != CanonicalExact
  }

  predicate NonExactFp(r: Record) {
    !r.isSeed && r.decision == Reuse && !r.reuseSafe && r.path != CanonicalExact
  }

  function OnPath(path: Path): Record -> bool {
    (r: Record) => r.path == path
  }

  function From(source: string, keep: Record -> bool): Record -> bool {
    (r: Record) => r.source == source && keep(r)
  }

  datatype Counts = Counts(hits: nat, tp: nat, fp: nat, fn: nat, tn: nat, canonical: nat,
                           nonExact: nat, nonExactTp: nat, nonExactFp: nat)

  function CountsOf(records: seq<Record>): Counts {
    Counts(Tally(records, Hit), Tally(records, Tp), Tally(records, Fp), Tally(records, Fn), Tally(records, Tn),
           Tally(records, Canonical), Tally(records, NonExact), Tally(records, NonExactTp), Tally(records, NonExactFp))
  }

  datatype SourceCounts = SourceCounts(hits: nat, tp: nat, fp: nat, nonExact: nat, nonExactFp: nat)

  function SourceCountsOf(records: seq<Record>, source: string): SourceCounts {
    SourceCounts(Tally(records, From(source, Hit)), Tally(records, From(source, Tp)), Tally(records, From(source, Fp)),
                 Tally(records, From(source, NonExact)), Tally(records, From(source, NonExactFp)))
  }

  /** The reported summary. All four paths are listed, unused ones with zero. */
  datatype Summary = Summary(queries: nat, counts: Counts, paths: map<Path, nat>, sources: map<string, SourceCounts>)

  ghost predicate SourcesAre(records: seq<Record>, sources: map<string, SourceCounts>) {
    && (forall i :: 0 <= i < |records| ==> records[i].source in sources)
    && (forall s :: s in sources ==> (exists i :: 0 <= i < |records| && records[i].source == s)
                                     && sources[s] == SourceCountsOf(records, s))
  }

  ghost predicate PathsAre(records: seq<Record>, paths: map<Path, nat>) {
    forall p: Path :: p in paths && paths[p] == Tally(records, OnPath(p))
  }

  // ----- what the loop guarantees about its own memory -----

  /** Positions whose event was put into both caches: every seed, and every probe that was not reused. */
  predicate WasIndexed(records: seq<Record>, j: nat)
    requires j < |records|
  {
    records[j].isSeed || records[j].decision != Reuse
  }

  /** The caches after the first `i` events. */
  ghost function MemoryAt(normalize: Normalizer, stream: seq<Event>, records: seq<Record>, i: nat): Memory
    requires i <= |records| && i <= |stream|
  {
    if i == 0 then Memory(map[], [])
    else
      var before := MemoryAt(normalize, stream, records, i - 1);
      if WasIndexed(records, i - 1) then Store(normalize, before, stream[i - 1]) else before
  }

  /** The record at `i` is what routing its event against the caches of that moment gives. */
  ghost predicate Follows(normalize: Normalizer, stream: seq<Event>, opinions: seq<Opinion>, records: seq<Record>, i: nat)
    requires i < |records| <= |stream| == |opinions|
  {
    records[i] == RecordOf(normalize, MemoryAt(normalize, stream, records, i), stream[i], opinions[i])
  }

  ghost predicate Replays(normalize: Normalizer, stream: seq<Event>, opinions: seq<Opinion>, records: seq<Record>) {
    && |records| <= |stream| == |opinions|
    && forall i :: 0 <= i < |records| ==> Follows(normalize, stream, opinions, records, i)
  }

  lemma {:induction false} MemoryIsStable(normalize: Normalizer, stream: seq<Event>, records: seq<Record>, r: Record, i: nat)
    requires i <= |records| && i <= |stream|
    ensures MemoryAt(normalize, stream, records + [r], i) == MemoryAt(normalize, stream, records, i)
  {
    if i > 0 {
      MemoryIsStable(normalize, stream, records, r, i - 1);
      assert (records + [r])[i - 1] == records[i - 1];
    }
  }

  lemma ReplayAppend(normalize: Normalizer, stream: seq<Event>, opinions: seq<Opinion>, records: seq<Record>, r: Record)
    requires Replays(normalize, stream, opinions, records) && |records| < |stream|
    requires var n := |records|; r == RecordOf(normalize, MemoryAt(normalize, stream, records, n), stream[n], opinions[n])
    ensures Replays(normalize, stream, opinions, records + [r])
    ensures var m := MemoryAt(normalize, stream, records, |records|);
      MemoryAt(normalize, stream, records + [r], |records| + 1)
      == if r.isSeed || r.decision != Reuse then Store(normalize, m, stream[|records|]) else m
  {
    hide RecordOf, Store;
    var more := records + [r];
    forall i | 0 <= i <= |records|
      ensures Follows(normalize, stream, opinions, more, i)
    {
      MemoryIsStable(normalize, stream, records, r, i);
      if i < |records| {
        assert Follows(normalize, stream, opinions, records, i) && more[i] == records[i];
      }
    }
    MemoryIsStable(normalize, stream, records, r, |records|);
  }

  /** An entry carries the id and the text of an already indexed event. */
  ghost predicate Known(records: seq<Record>, entry: Entry) {
    exists j :: 0 <= j < |records| && WasIndexed(records, j) && records[j].id == entry.id && records[j].query == entry.text
  }

  ghost predicate Remembers(records: seq<Record>, m: Memory) {
    && (forall k :: k in m.canonical ==> Known(records, m.canonical[k]))
    && (forall i :: 0 <= i < |m.index| ==> Known(records, m.index[i]))
  }

  /** The record of one event, given what was known before it. */
  ghost predicate Faithful(stream: seq<Event>, records: seq<Record>, i: nat)
    requires i < |records| && i < |stream|
  {
    var r, e := records[i], stream[i];
    && r.id == e.id && r.query == e.query && r.source == e.source && r.isSeed == e.isSeed && r.reuseSafe == e.reuseSafe
    && r.outcome == Judged(e, r.decision == Reuse)
    && (r.path in {CanonicalExact, AutoReuse} ==> r.decision == Reuse)
    && (r.path == BypassPath ==> r.decision == Bypass)
    && (r.decision == Reuse ==> r.matchedId.Some? && r.similarity.Finite?)
    && (r.matchedId.Some? ==> Known(records[..i], Entry(r.matchedId.value, r.matchedText)))
  }

  lemma KnownGrows(records: seq<Record>, r: Record, entry: Entry)
    requires Known(records, entry)
    ensures Known(records + [r], entry)
  {
    var j :| 0 <= j < |records| && WasIndexed(records, j) && records[j].id == entry.id && records[j].query == entry.text;
    assert WasIndexed(records + [r], j) && (records + [r])[j] == records[j];
  }

  lemma RememberMore(normalize: Normalizer, records: seq<Record>, m: Memory, e: Event, r: Record)
    requires Remembers(records, m) && r.id == e.id && r.query == e.query
    ensures Remembers(records + [r], m)
    ensures r.isSeed || r.decision != Reuse ==> Remembers(records + [r], Store(normalize, m, e))
  {
    var more := records + [r];
    assert more[|records|] == r;
    assert r.isSeed || r.decision != Reuse ==> WasIndexed(more, |records|) && Known(more, Entry(e.id, e.query));
    forall k | k in m.canonical
      ensures Known(more, m.canonical[k])
    {
      KnownGrows(records, r, m.canonical[k]);
    }
    forall i | 0 <= i < |m.index|
      ensures Known(more, m.index[i])
    {
      KnownGrows(records, r, m.index[i]);
    }
  }

  function Bumped(c: Counts, r: Record): Counts {
    Counts(c.hits + (if Hit(r) then 1 else 0), c.tp + (if Tp(r) then 1 else 0), c.fp + (if Fp(r) then 1 else 0),
           c.fn + (if Fn(r) then 1 else 0), c.tn + (if Tn(r) then 1 else 0), c.canonical + (if Canonical(r) then 1 else 0),
           c.nonExact + (if NonExact(r) then 1 else 0), c.nonExactTp + (if NonExactTp(r) then 1 else 0),
           c.nonExactFp + (if NonExactFp(r) then 1 else 0))
  }

  lemma CountsAppend(records: seq<Record>, r: Record)
    ensures CountsOf(records + [r]) == Bumped(CountsOf(records), r)
  {
    TallyAppend(records, r, Hit);
    TallyAppend(records, r, Tp);
    TallyAppend(records, r, Fp);
    TallyAppend(records, r, Fn);
    TallyAppend(records, r, Tn);
    TallyAppend(records, r, Canonical);
    TallyAppend(records, r, NonExact);
    TallyAppend(records, r, NonExactTp);
    TallyAppend(records, r, NonExactFp);
  }

  function BumpedSource(c: SourceCounts, r: Record): SourceCounts {
    SourceCounts(c.hits + (if Hit(r) then 1 else 0), c.tp + (if Tp(r) then 1 else 0), c.fp + (if Fp(r) then 1 else 0),
                 c.nonExact + (if NonExact(r) then 1 else 0), c.nonExactFp + (if NonExactFp(r) then 1 else 0))
  }

  const NO_COUNTS := SourceCounts(0, 0, 0, 0, 0)

  const NO_PATHS: map<Path, nat> := map[CanonicalExact := 0, AutoReuse := 0, LocalEquivalence := 0, BypassPath := 0]

  lemma SourceAppend(records: seq<Record>, r: Record, source: string)
    ensures SourceCountsOf(records + [r], source)
      == if r.source == source then BumpedSource(SourceCountsOf(records, source), r) else SourceCountsOf(records, source)
  {
    TallyAppend(records, r, From(source, Hit));
    TallyAppend(records, r, From(source, Tp));
    TallyAppend(records, r, From(source, Fp));
    TallyAppend(records, r, From(source, NonExact));
    TallyAppend(records, r, From(source, NonExactFp));
  }

  lemma {:induction false} AbsentSource(records: seq<Record>, source: string)
    requires forall i :: 0 <= i < |records| ==> records[i].source != source
    ensures SourceCountsOf(records, source) == NO_COUNTS
  {
    if records == [] {
    } else {
      var n := |records| - 1;
      AbsentSource(records[..n], source);
      SourceAppend(records[..n], records[n], source);
      assert records == records[..n] + [records[n]];
    }
  }

  lemma SourcesAppend(records: seq<Record>, r: Record, sources: map<string, SourceCounts>)
    requires SourcesAre(records, sources)
    ensures var before := if r.source in sources then sources[r.source] else NO_COUNTS;
      SourcesAre(records + [r], sources[r.source := BumpedSource(before, r)])
  {
    var more := records + [r];
    var before := if r.source in sources then sources[r.source] else NO_COUNTS;
    var after := sources[r.source := BumpedSource(before, r)];
    if r.source !in sources {
      AbsentSource(records, r.source);
    }
    hide SourceCountsOf, BumpedSource;
    assert more[|records|] == r && forall i :: 0 <= i < |records| ==> more[i] == records[i];
    forall s | s in after
      ensures (exists i :: 0 <= i < |more| && more[i].source == s) && after[s] == SourceCountsOf(more, s)
    {
      SourceAppend(records, r, s);
      if s != r.source {
        var i :| 0 <= i < |records| && records[i].source == s;
        assert more[i].source == s;
      }
    }
  }

  lemma PathsTotal(records: seq<Record>, paths: map<Path, nat>, path: Path)
    requires PathsAre(records, paths)
    ensures path in paths
  {
  }

  lemma PathsAppend(records: seq<Record>, r: Record, paths: map<Path, nat>)
    requires PathsAre(records, paths)
    ensures PathsAre(records + [r], paths[r.path := paths[r.path] + 1])
  {
    forall p: Path
      ensures Tally(records + [r], OnPath(p)) == Tally(records, OnPath(p)) + if r.path == p then 1 else 0
    {
      TallyAppend(records, r, OnPath(p));
    }
  }

  /** The event loop: telemetry whose every record is faithful, and counters that are the tallies of it. */
  method Evaluate(normalize: Normalizer, stream: seq<Event>, opinions: seq<Opinion>)
    returns (telemetry: seq<Record>, summary: Summary)
    requires |opinions| == |stream|
    ensures Replays(normalize, stream, opinions, telemetry) && |telemetry| == |stream|
    ensures summary.queries == |stream| && summary.counts == CountsOf(telemetry)
    ensures PathsAre(telemetry, summary.paths) && SourcesAre(telemetry, summary.sources)
  {
    var memory := Memory(map[], []);
    telemetry := [];
    var hits, tp, fp, fn, tn := 0, 0, 0, 0, 0;
    var nonExact, nonExactTp, nonExactFp, exactCanonical := 0, 0, 0, 0;
    var paths := NO_PATHS;
    var sources: map<string, SourceCounts> := map[];
    hide Replays, MemoryAt, Store, SourceCountsOf, PathsAre, SourcesAre, CountsOf;
    EmptyStart();
    ReplayStart(normalize, stream, opinions);
    for i := 0 to |stream|
      invariant |telemetry| == i && Replays(normalize, stream, opinions, telemetry)
      invariant memory == MemoryAt(normalize, stream, telemetry, i)
      invariant Counts(hits, tp, fp, fn, tn, exactCanonical, nonExact, nonExactTp, nonExactFp) == CountsOf(telemetry)
      invariant PathsAre(telemetry, paths) && SourcesAre(telemetry, sources)
    {
      var e := stream[i];
      var counts := if e.source in sources then sources[e.source] else NO_COUNTS;
      var (decision, path, similarity, found) := Route(normalize, memory, e, opinions[i]);
      ghost var pathsBefore := paths;
      PathsTotal(telemetry, paths, path);
      paths := paths[path := paths[path] + 1];
      var isHit := decision == Reuse;
      var isNonExact := isHit && path != CanonicalExact;
      var outcome;
      var index := true;
      if e.isSeed {
        outcome := SeedIndexed;
      } else {
        if isHit {
          hits, counts := hits + 1, counts.(hits := counts.hits + 1);
          if isNonExact {
            nonExact, counts := nonExact + 1, counts.(nonExact := counts.nonExact + 1);
          }
          if e.reuseSafe {
            tp, counts := tp + 1, counts.(tp := counts.tp + 1);
            if isNonExact {
              nonExactTp := nonExactTp + 1;
            }
            outcome := TruePositive;
          } else {
            fp, counts := fp + 1, counts.(fp := counts.fp + 1);
            if isNonExact {
              nonExactFp, counts := nonExactFp + 1, counts.(nonExactFp := counts.nonExactFp + 1);
            }
            outcome := FalsePositive;
          }
        } else if e.reuseSafe {
          fn := fn + 1;
          outcome := FalseNegative;
        } else {
          tn := tn + 1;
          outcome := TrueNegative;
        }
        if path == CanonicalExact {
          exactCanonical := exactCanonical + 1;
        }
        index := !isHit;
      }
      var record := Record(e.id, e.query, e.source, e.isSeed, e.reuseSafe, decision, path, outcome, similarity,
                           if found.Some? then found.value.text else "", if found.Some? then Some(found.value.id) else None);
      ReplayAppend(normalize, stream, opinions, telemetry, record);
      CountsAppend(telemetry, record);
      PathsAppend(telemetry, record, pathsBefore);
      SourcesAppend(telemetry, record, sources);
      sources := sources[e.source := counts];
      if index {
        memory := Store(normalize, memory, e);
      }
      telemetry := telemetry + [record];
    }
    summary := Summary(|stream|, Counts(hits, tp, fp, fn, tn, exactCanonical, nonExact, nonExactTp, nonExactFp), paths, sources);
  }

  lemma ReplayStart(normalize: Normalizer, stream: seq<Event>, opinions: seq<Opinion>)
    requires |opinions| == |stream|
    ensures Replays(normalize, stream, opinions, []) && MemoryAt(normalize, stream, [], 0) == Memory(map[], [])
  {
  }

  lemma EmptyStart()
    ensures CountsOf([]) == Counts(0, 0, 0, 0, 0, 0, 0, 0, 0)
    ensures PathsAre([], NO_PATHS) && SourcesAre([], map[])
  {
    forall p: Path
      ensures p in NO_PATHS && NO_PATHS[p] == 0
    {
      assert p == CanonicalExact || p == AutoReuse || p == LocalEquivalence || p == BypassPath;
    }
  }

  // ----- what a replay implies -----

  lemma NothingRemembered()
    ensures Remembers([], Memory(map[], []))
  {
  }

  lemma ReplayedFields(normalize: Normalizer, stream: seq<Event>, opinions: seq<Opinion>, records: seq<Record>, i: nat)
    requires Replays(normalize, stream, opinions, records) && i < |records|
    ensures records[i].id == stream[i].id && records[i].query == stream[i].query
  {
    assert Follows(normalize, stream, opinions, records, i);
  }

  lemma {:induction false} MemoryIsKnown(normalize: Normalizer, stream: seq<Event>, opinions: seq<Opinion>, records: seq<Record>, i: nat)
    requires Replays(normalize, stream, opinions, records) && i <= |records|
    ensures Remembers(records[..i], MemoryAt(normalize, stream, records, i))
  {
    hide Remembers, RecordOf, Store;
    if i == 0 {
      NothingRemembered();
    } else {
      var m := MemoryAt(normalize, stream, records, i - 1);
      MemoryIsKnown(normalize, stream, opinions, records, i - 1);
      ReplayedFields(normalize, stream, opinions, records, i - 1);
      RememberMore(normalize, records[..i - 1], m, stream[i - 1], records[i - 1]);
      assert records[..i] == records[..i - 1] + [records[i - 1]];
    }
  }

  /** Every candidate ever reported was indexed earlier under that id with that text, and every reuse has one. */
  lemma ReplayIsFaithful(normalize: Normalizer, stream: seq<Event>, opinions: seq<Opinion>, records: seq<Record>)
    requires Replays(normalize, stream, opinions, records)
    ensures forall i :: 0 <= i < |records| ==> Faithful(stream, records, i)
  {
    hide Remembers, Route, Known;
    forall i | 0 <= i < |records|
      ensures Faithful(stream, records, i)
    {
      assert Follows(normalize, stream, opinions, records, i);
      MemoryIsKnown(normalize, stream, opinions, records, i);
      RouteIsKnown(normalize, records[..i], MemoryAt(normalize, stream, records, i), stream[i], opinions[i]);
    }
  }

  /** Every candidate the routing reports was indexed earlier, and a reuse always has a scored one. */
  lemma RouteIsKnown(normalize: Normalizer, records: seq<Record>, m: Memory, e: Event, o: Opinion)
    requires Remembers(records, m)
    ensures var (decision, path, similarity, found) := Route(normalize, m, e, o);
      && (found.Some? ==> Known(records, found.value))
      && (decision == Reuse ==> found.Some? && similarity.Finite?)
      && (path in {CanonicalExact, AutoReuse} ==> decision == Reuse)
      && (path == BypassPath ==> decision == Bypass)
  {
    hide Known;
  }
}
