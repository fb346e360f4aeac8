/** The store's list order is order of last use, and a hit is the latest admission. */
module StoreRecency {
  import opened Basics
  import opened ResponseStore
  import opened StoreProtocol

  ghost predicate HasLive(items: seq<Item>, key: string, now: int) {
    exists x :: x in items && x.key == key && x.expires > now
  }

  /** This step writes an answer under the key: it is small enough and no invalidation came between. */
  predicate Admits(s: Sys, a: Action, key: string) {
    && a.AdmitAnswer? && a.proc in s.flows && s.flows[a.proc].key == key
    && a.bytes <= a.maxBytes && s.flows[a.proc].epoch == s.epoch
  }

  /** A hit or an admission. */
  ghost predicate Uses(s: Sys, a: Action, key: string) {
    (a.LookUp? && a.key == key && HasLive(s.items, key, a.now)) || Admits(s, a, key)
  }

  /** The last step before `n` that used the key, or -1. */
  ghost function LastUse(states: seq<Sys>, actions: seq<Action>, n: nat, key: string): (m: int)
    requires n <= |actions| && n <= |states|
    ensures -1 <= m < n && (m >= 0 ==> Uses(states[m], actions[m], key))
    ensures forall k :: m < k < n ==> !Uses(states[k], actions[k], key)
  {
    if n == 0 then -1
    else if Uses(states[n - 1], actions[n - 1], key) then n - 1
    else LastUse(states, actions, n - 1, key)
  }

  ghost function UseOf(states: seq<Sys>, actions: seq<Action>, n: nat): Item -> int {
    (x: Item) => if n <= |actions| && n <= |states| then LastUse(states, actions, n, x.key) else -1
  }

  ghost predicate Increasing(rank: Item -> int, items: seq<Item>) {
    forall i, j :: 0 <= i < j < |items| ==> rank(items[i]) < rank(items[j])
  }

  lemma {:induction false} FilterIncreasing(rank: Item -> int, keep: Item -> bool, items: seq<Item>)
    requires Increasing(rank, items)
    ensures Increasing(rank, Filter(keep, items))
  {
    if items == [] {
    } else {
      var tail, rest := items[1..], Filter(keep, items[1..]);
      FilterIncreasing(rank, keep, tail);
      forall j | 0 <= j < |rest|
        ensures rank(items[0]) < rank(rest[j])
      {
        assert rest[j] in tail;
        var i :| 0 <= i < |tail| && tail[i] == rest[j];
        assert items[i + 1] == rest[j];
      }
    }
  }

  /** Only the used key's rank changes, to one above all others. */
  lemma PutIncreasing(before: Item -> int, after: Item -> int, items: seq<Item>, item: Item)
    requires Increasing(before, items)
    requires forall x :: x in items && x.key != item.key ==> after(x) == before(x) < after(item)
    ensures Increasing(after, Put(items, item))
  {
    var others := Filter(OtherKey(item.key), items);
    FilterIncreasing(before, OtherKey(item.key), items);
    forall i | 0 <= i < |others|
      ensures after(others[i]) == before(others[i]) < after(item)
    {
      assert others[i] in others;
    }
  }

  /** The list a step leaves, apart from what an admission evicts at its front. */
  function Kept(s: Sys, a: Action): seq<Item>
    requires Allowed(s, a)
  {
    match a
    case LookUp(_, key, _, now) => LookupItems(s.items, key, now).0
    case AdmitAnswer(_, _, _, now, _, _, _) =>
      if Proposed(s, a).Some? then Put(Filter(Unexpired(now), s.items), Proposed(s, a).value) else s.items
    case InvalidateTenant(whose) => Filter(Spared(whose), s.items)
    case Crash(_) => s.items
  }

  lemma KeptIncreasing(states: seq<Sys>, actions: seq<Action>, n: nat)
    requires n < |actions| && n < |states| && Allowed(states[n], actions[n])
    requires Increasing(UseOf(states, actions, n), states[n].items)
    ensures Increasing(UseOf(states, actions, n + 1), Kept(states[n], actions[n]))
  {
    var s, a := states[n], actions[n];
    var before, after := UseOf(states, actions, n), UseOf(states, actions, n + 1);
    RanksChange(states, actions, n, s.items);
    if a.LookUp? {
      FilterIncreasing(before, Unexpired(a.now), s.items);
      LookupIncreasing(before, after, s.items, a.key, a.now);
    } else if a.AdmitAnswer? && Proposed(s, a).Some? {
      FilterIncreasing(before, Unexpired(a.now), s.items);
      RanksChange(states, actions, n, [Proposed(s, a).value]);
      hide UseOf, Increasing, Filter;
      PutIncreasing(before, after, Filter(Unexpired(a.now), s.items), Proposed(s, a).value);
    } else {
      if a.InvalidateTenant? {
        FilterIncreasing(before, Spared(a.whose), s.items);
      }
      hide UseOf, Increasing, Filter;
      SameRank(before, after, Kept(s, a));
    }
  }

  /** A used key's rank becomes the step's own, above all others; the others keep theirs. */
  lemma RanksChange(states: seq<Sys>, actions: seq<Action>, n: nat, items: seq<Item>)
    requires n < |actions| && n < |states|
    ensures forall x :: x in items ==> var after := UseOf(states, actions, n + 1)(x);
      if Uses(states[n], actions[n], x.key) then after == n else after == UseOf(states, actions, n)(x) < n
  {
    hide Uses;
  }

  lemma LookupIncreasing(before: Item -> int, after: Item -> int, items: seq<Item>, key: string, now: int)
    requires Increasing(before, Filter(Unexpired(now), items))
    requires forall x :: x in items ==> if x.key == key && HasLive(items, key, now) then before(x) < after(x) else after(x) == before(x)
    requires forall x, y :: x in items && y in items && x.key != key && y.key == key && HasLive(items, key, now) ==> before(x) < after(y)
    ensures Increasing(after, LookupItems(items, key, now).0)
  {
    HitIsRefreshed(items, key, now);
    var live := Filter(Unexpired(now), items);
    hide Increasing, Filter;
    var found := Find(live, key);
    if found.Some? {
      PutIncreasing(before, after, live, found.value);
    } else {
      SameRank(before, after, live);
    }
  }

  lemma SameRank(before: Item -> int, after: Item -> int, items: seq<Item>)
    requires Increasing(before, items) && forall x :: x in items ==> after(x) == before(x)
    ensures Increasing(after, items)
  {
  }

  /** Everything but an admission keeps all of `Kept`; an admission drops a front part of it. */
  lemma NextIsSuffix(s: Sys, a: Action)
    requires Allowed(s, a)
    ensures |Next(s, a).items| <= |Kept(s, a)| && Next(s, a).items == Kept(s, a)[|Kept(s, a)| - |Next(s, a).items|..]
  {
    if a.AdmitAnswer? && Proposed(s, a).Some? {
      EvictIsShortestPrefix(Kept(s, a), a.maxEntries, a.maxBytes);
    }
    hide Evict;
  }

  /** In every reachable store the items stand in order of last use, so no key occurs twice. */
  lemma {:induction false} OrderIsLastUse(states: seq<Sys>, actions: seq<Action>, n: nat, i: nat, j: nat)
    requires Behaviour(states, actions) && n < |states| && i < j < |states[n].items|
    ensures LastUse(states, actions, n, states[n].items[i].key) < LastUse(states, actions, n, states[n].items[j].key)
  {
    IncreasingAlways(states, actions, n);
    assert UseOf(states, actions, n)(states[n].items[i]) < UseOf(states, actions, n)(states[n].items[j]);
  }

  lemma NextIncreasing(states: seq<Sys>, actions: seq<Action>, n: nat)
    requires n < |actions| && n + 1 < |states| && Allowed(states[n], actions[n]) && states[n + 1] == Next(states[n], actions[n])
    requires Increasing(UseOf(states, actions, n), states[n].items)
    ensures Increasing(UseOf(states, actions, n + 1), states[n + 1].items)
  {
    KeptIncreasing(states, actions, n);
    NextIsSuffix(states[n], actions[n]);
    hide UseOf, Increasing, Next, Kept, Allowed;
    SuffixIncreasing(UseOf(states, actions, n + 1), Kept(states[n], actions[n]), |Kept(states[n], actions[n])| - |states[n + 1].items|);
  }

  lemma {:induction false} IncreasingAlways(states: seq<Sys>, actions: seq<Action>, n: nat)
    requires Behaviour(states, actions) && n < |states|
    ensures Increasing(UseOf(states, actions, n), states[n].items)
  {
    hide UseOf, Increasing, Next, Allowed;
    if n == 0 {
      NothingIncreasing(UseOf(states, actions, 0));
    } else {
      IncreasingAlways(states, actions, n - 1);
      assert Allowed(states[n - 1], actions[n - 1]) && states[n - 1 + 1] == Next(states[n - 1], actions[n - 1]);
      NextIncreasing(states, actions, n - 1);
    }
  }

  lemma NothingIncreasing(rank: Item -> int)
    ensures Increasing(rank, [])
  {
  }

  lemma SuffixIncreasing(rank: Item -> int, items: seq<Item>, m: nat)
    requires m <= |items| && Increasing(rank, items)
    ensures Increasing(rank, items[m..])
  {
  }

  /** Whatever live answer an admission evicts was last used before every answer it keeps. */
  lemma EvictedWereUsedBefore(states: seq<Sys>, actions: seq<Action>, n: nat, x: Item, y: Item)
    requires Behaviour(states, actions) && n < |actions| && actions[n].AdmitAnswer?
    requires x in states[n].items && x.expires > actions[n].now && x !in states[n + 1].items
    requires Admits(states[n], actions[n], states[n].flows[actions[n].proc].key) && x.key != states[n].flows[actions[n].proc].key
    requires y in states[n + 1].items
    ensures LastUse(states, actions, n, x.key) < LastUse(states, actions, n + 1, y.key)
  {
    var s, a, kept, after := states[n], actions[n], Kept(states[n], actions[n]), states[n + 1].items;
    IncreasingAlways(states, actions, n);
    KeptIncreasing(states, actions, n);
    NextIsSuffix(s, a);
    assert x in Filter(Unexpired(a.now), s.items);
    assert x in kept;
    SuffixRanksAbove(UseOf(states, actions, n + 1), kept, |kept| - |after|, x, y);
  }

  lemma SuffixRanksAbove(rank: Item -> int, items: seq<Item>, m: nat, x: Item, y: Item)
    requires m <= |items| && Increasing(rank, items) && x in items && x !in items[m..] && y in items[m..]
    ensures rank(x) < rank(y)
  {
    assert items == items[..m] + items[m..];
    var i :| 0 <= i < m && items[..m][i] == x;
    var j :| 0 <= j < |items| - m && items[m..][j] == y;
    assert rank(items[i]) < rank(items[m + j]);
  }

  /** This step stores exactly this item: the answer given, for the tenant and key looked up, for the time to live. */
  ghost predicate Stores(s: Sys, a: Action, x: Item) {
    Admits(s, a, x.key) && x == Item(x.key, s.flows[a.proc].tenant, a.payload, a.now + a.ttl, a.bytes)
  }

  /** Step `m` is the last one before `n` that writes an answer under the key. */
  predicate LatestAdmission(states: seq<Sys>, actions: seq<Action>, n: nat, m: int, key: string)
    requires n <= |states| && n <= |actions|
  {
    0 <= m < n && Admits(states[m], actions[m], key) && forall k :: m < k < n ==> !Admits(states[k], actions[k], key)
  }

  /** An admission that is let in stores its answer last, if any entry is allowed at all. */
  lemma AdmittedIsLast(s: Sys, a: Action)
    requires Allowed(s, a) && a.AdmitAnswer? && Admits(s, a, s.flows[a.proc].key) && a.maxEntries >= 1
    ensures var items := Next(s, a).items; items != [] && Stores(s, a, items[|items| - 1])
  {
    AdmittedSurvives(s.items, Proposed(s, a).value, a.now, a.maxEntries, a.maxBytes);
    hide AdmitItems;
  }

  lemma StoredOrOld(s: Sys, a: Action, x: Item)
    requires Allowed(s, a) && x in Next(s, a).items
    ensures Stores(s, a, x) || (x in s.items && !Admits(s, a, x.key))
  {
    if a.LookUp? {
      HitIsRefreshed(s.items, a.key, a.now);
    } else if a.AdmitAnswer? && Proposed(s, a).Some? {
      AdmittedItems(s.items, Proposed(s, a).value, a.now, a.maxEntries, a.maxBytes);
    }
  }

  /** Every item is as the latest admission under its key stored it. */
  lemma {:induction false} ItemIsLatestAdmission(states: seq<Sys>, actions: seq<Action>, n: nat, x: Item)
    requires Behaviour(states, actions) && n < |states| && x in states[n].items
    ensures exists m :: LatestAdmission(states, actions, n, m, x.key) && Stores(states[m], actions[m], x)
  {
    hide Admits, Next, Allowed;
    if n > 0 {
      assert Allowed(states[n - 1], actions[n - 1]) && states[n] == Next(states[n - 1], actions[n - 1]);
      StoredOrOld(states[n - 1], actions[n - 1], x);
      if !Stores(states[n - 1], actions[n - 1], x) {
        ItemIsLatestAdmission(states, actions, n - 1, x);
        var m :| LatestAdmission(states, actions, n - 1, m, x.key) && Stores(states[m], actions[m], x);
        assert LatestAdmission(states, actions, n, m, x.key);
      } else {
        assert LatestAdmission(states, actions, n, n - 1, x.key) by {
          assert Admits(states[n - 1], actions[n - 1], x.key);
        }
      }
    }
  }

  /** A hit returns the latest answer admitted under its key, within the time to live it was admitted with. */
  lemma HitIsLatestAnswer(states: seq<Sys>, actions: seq<Action>, n: nat)
    requires Behaviour(states, actions) && n < |actions|
    requires actions[n].LookUp? && HasLive(states[n].items, actions[n].key, actions[n].now)
    ensures var found := LookupItems(states[n].items, actions[n].key, actions[n].now).1;
      found.Some? && exists m :: LatestAdmission(states, actions, n, m, actions[n].key)
                                 && found.value.payload == actions[m].payload && actions[n].now < actions[m].now + actions[m].ttl
  {
    HitIsRefreshed(states[n].items, actions[n].key, actions[n].now);
    ItemIsLatestAdmission(states, actions, n, LookupItems(states[n].items, actions[n].key, actions[n].now).1.value);
    hide Behaviour, LookupItems;
  }
}
