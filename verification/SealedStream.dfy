/** The evaluation stream: seed and follow-up events placed at random lags among organic queries, then linked. */
module SealedStream {
  import opened Basics

  /** The formatted names `PAIR-0001` and `WC-0001` are injective in their number. */
  datatype PairId = OfPair(n: nat) | OfOrganic(n: nat)

  /** An event; `id` is its 1-based position in the finished stream. */
  datatype Event = Event(id: nat, query: string, source: string, pairId: PairId, isSeed: bool,
                         matchedSeed: Option<nat>, reuseSafe: bool, domain: string)

  datatype Pair = Pair(queryA: string, queryB: string, source: string, domain: string, safe: bool)

  datatype Organic = Organic(query: string, source: string, domain: string)

  function SeedOf(pairs: seq<Pair>, k: nat): Event
    requires k < |pairs|
  {
    Event(0, pairs[k].queryA, pairs[k].source, OfPair(k + 1), true, None, false, pairs[k].domain)
  }

  function FollowUpOf(pairs: seq<Pair>, k: nat): Event
    requires k < |pairs|
  {
    Event(0, pairs[k].queryB, pairs[k].source, OfPair(k + 1), false, None, pairs[k].safe, pairs[k].domain)
  }

  function OrganicOf(organic: seq<Organic>, k: nat): Event
    requires k < |organic|
  {
    Event(0, organic[k].query, organic[k].source, OfOrganic(k + 1), true, None, false, organic[k].domain)
  }

  /** The events of the first `n` pairs. */
  ghost function PairEvents(pairs: seq<Pair>, n: nat): multiset<Event>
    requires n <= |pairs|
  {
    if n == 0 then multiset{} else PairEvents(pairs, n - 1) + multiset{SeedOf(pairs, n - 1)} + multiset{FollowUpOf(pairs, n - 1)}
  }

  ghost function OrganicEvents(organic: seq<Organic>, n: nat): multiset<Event>
    requires n <= |organic|
  {
    if n == 0 then multiset{} else OrganicEvents(organic, n - 1) + multiset{OrganicOf(organic, n - 1)}
  }

  /** What the evaluator relies on: distinct ids, and each follow-up names an earlier seed of its own pair. */
  ghost predicate Linked(stream: seq<Event>) {
    && (forall i, j :: 0 <= i < j < |stream| ==> stream[i].id != stream[j].id)
    && (forall i :: 0 <= i < |stream| && !stream[i].isSeed ==> HasEarlierSeed(stream, i))
  }

  ghost predicate HasEarlierSeed(stream: seq<Event>, i: nat)
    requires i < |stream|
  {
    exists j :: 0 <= j < i && IsSeedOf(stream[j], stream[i])
  }

  predicate IsSeedOf(seed: Event, probe: Event) {
    seed.isSeed && probe.matchedSeed == Some(seed.id) && seed.pairId == probe.pairId
  }
}
