/** How every event of a replay was routed, and why. */
module RoutingRule {
  import opened Basics
  import opened SealedStream
  import opened SealedEvaluation

  /** The positions indexed before `i`, in order: seeds, and probes that were not reused. */
  function Indexed(records: seq<Record>, i: nat): (positions: seq<nat>)
    requires i <= |records|
    ensures forall k :: 0 <= k < |positions| ==> positions[k] < i
  {
    if i == 0 then []
    else Indexed(records, i - 1) + if records[i - 1].isSeed || records[i - 1].decision == Bypass then [i - 1] else []
  }

  /** The event at `j` was indexed before `i` and has the same nonempty normalized text. */
  predicate SameText(normalize: Normalizer, stream: seq<Event>, records: seq<Record>, j: nat, i: nat)
    requires i <= |records| <= |stream| && i < |stream|
  {
    && j < i && (records[j].isSeed || records[j].decision == Bypass)
    && normalize(stream[i].query) != "" && normalize(stream[j].query) == normalize(stream[i].query)
  }

  ghost predicate LatestSameText(normalize: Normalizer, stream: seq<Event>, records: seq<Record>, j: nat, i: nat)
    requires i <= |records| <= |stream| && i < |stream|
  {
    SameText(normalize, stream, records, j, i) && forall k :: j < k < i ==> !SameText(normalize, stream, records, k, i)
  }

  /** The candidate a record reports is the event at this position. */
  predicate Reports(r: Record, e: Event) {
    r.matchedId == Some(e.id) && r.matchedText == e.query
  }

  lemma {:induction false} IndexIs(normalize: Normalizer, stream: seq<Event>, records: seq<Record>, i: nat)
    requires i <= |records| <= |stream|
    ensures var index, positions := MemoryAt(normalize, stream, records, i).index, Indexed(records, i);
      |index| == |positions| && forall k :: 0 <= k < |index| ==> index[k] == Entry(stream[positions[k]].id, stream[positions[k]].query)
  {
    if i > 0 {
      IndexIs(normalize, stream, records, i - 1);
    }
  }

  /** A key of the canonical cache leads to the latest indexed event with that normalized text. */
  ghost predicate LeadsTo(normalize: Normalizer, stream: seq<Event>, records: seq<Record>, i: nat, key: string, entry: Entry, j: nat)
    requires i <= |records| <= |stream|
  {
    && j < i && WasIndexed(records, j) && normalize(stream[j].query) == key && entry == Entry(stream[j].id, stream[j].query)
    && forall k :: j < k < i && WasIndexed(records, k) ==> normalize(stream[k].query) != key
  }

  lemma {:induction false} CanonicalIs(normalize: Normalizer, stream: seq<Event>, records: seq<Record>, i: nat, key: string)
    requires i <= |records| <= |stream| && key != ""
    ensures var m := MemoryAt(normalize, stream, records, i).canonical;
      if key in m then exists j :: LeadsTo(normalize, stream, records, i, key, m[key], j)
      else forall j :: 0 <= j < i && WasIndexed(records, j) ==> normalize(stream[j].query) != key
  {
    if i > 0 {
      CanonicalIs(normalize, stream, records, i - 1, key);
      var before, m := MemoryAt(normalize, stream, records, i - 1).canonical, MemoryAt(normalize, stream, records, i).canonical;
      if WasIndexed(records, i - 1) && normalize(stream[i - 1].query) == key {
        assert LeadsTo(normalize, stream, records, i, key, m[key], i - 1);
      } else if key in before {
        var j: nat :| LeadsTo(normalize, stream, records, i - 1, key, before[key], j);
        assert LeadsTo(normalize, stream, records, i, key, m[key], j);
      }
    }
  }

  /** A repeated text is answered from the canonical cache, by the latest event indexed with it. */
  lemma CanonicalFirst(normalize: Normalizer, stream: seq<Event>, opinions: seq<Opinion>, records: seq<Record>, i: nat)
    requires Replays(normalize, stream, opinions, records) && i < |records|
    ensures records[i].path == CanonicalExact <==> exists j :: SameText(normalize, stream, records, j, i)
    ensures records[i].path == CanonicalExact ==>
      && records[i].decision == Reuse && records[i].similarity == Finite(0.0)
      && exists j :: 0 <= j < i && LatestSameText(normalize, stream, records, j, i) && Reports(records[i], stream[j])
  {
    assert Follows(normalize, stream, opinions, records, i);
    var key, m := normalize(stream[i].query), MemoryAt(normalize, stream, records, i);
    if key != "" {
      CanonicalIs(normalize, stream, records, i, key);
      hide MemoryAt;
      if key in m.canonical {
        var j: nat :| LeadsTo(normalize, stream, records, i, key, m.canonical[key], j);
        assert SameText(normalize, stream, records, j, i) && LatestSameText(normalize, stream, records, j, i);
      }
    }
  }

  /** Otherwise the nearest indexed event is the candidate, and similar candidates are reused only past the rule guards. */
  lemma GuardedReuse(normalize: Normalizer, stream: seq<Event>, opinions: seq<Opinion>, records: seq<Record>, i: nat)
    requires Replays(normalize, stream, opinions, records) && i < |records| && records[i].path != CanonicalExact
    ensures var r, o, positions := records[i], opinions[i], Indexed(records, i);
      && (if positions == [] then r.matchedId.None? && r.matchedText == "" && r.similarity == MinusInfinity
          else Reports(r, stream[positions[o.nearest % |positions|]]) && r.similarity == Finite(o.score))
      && (r.path == AutoReuse <==> r.matchedText != "" && o.tier == TierAutoReuse && o.guardsPass)
      && (r.path == LocalEquivalence <==> r.matchedText != "" && o.tier == TierAmbiguous)
      && r.decision == match r.path case AutoReuse => Reuse case LocalEquivalence => o.local case _ => Bypass
  {
    assert Follows(normalize, stream, opinions, records, i);
    IndexIs(normalize, stream, records, i);
    hide MemoryAt;
  }

  /** The label of every record, by what it is and what was decided. */
  lemma LabelIs(normalize: Normalizer, stream: seq<Event>, opinions: seq<Opinion>, records: seq<Record>, i: nat)
    requires Replays(normalize, stream, opinions, records) && i < |records|
    ensures var r, e := records[i], stream[i];
      && (r.outcome == SeedIndexed <==> e.isSeed)
      && (r.outcome == TruePositive <==> !e.isSeed && r.decision == Reuse && e.reuseSafe)
      && (r.outcome == FalsePositive <==> !e.isSeed && r.decision == Reuse && !e.reuseSafe)
      && (r.outcome == FalseNegative <==> !e.isSeed && r.decision == Bypass && e.reuseSafe)
      && (r.outcome == TrueNegative <==> !e.isSeed && r.decision == Bypass && !e.reuseSafe)
  {
    assert Follows(normalize, stream, opinions, records, i);
    hide MemoryAt, Route;
  }
}
