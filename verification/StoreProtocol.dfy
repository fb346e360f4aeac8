/** Many processes over one response store, invalidated at any time. */
module StoreProtocol {
  import opened Basics
  import opened ResponseStore

  /** A process between its missed lookup and its admission. */
  datatype Flow = Flow(key: string, tenant: string, epoch: nat, at: int)

  /**
   * `origin` remembers at which step the lookup ran whose answer now sits under a key; a step is a position in the
   * behaviour.
   */
  datatype Sys = Sys(items: seq<Item>, epoch: nat, flows: map<nat, Flow>, origin: map<string, int>, step: int)

  datatype Action =
    | LookUp(proc: nat, key: string, tenant: string, now: int)
    | AdmitAnswer(proc: nat, payload: string, bytes: nat, now: int, ttl: int, maxEntries: nat, maxBytes: nat)
    | InvalidateTenant(whose: Option<string>)
    | Crash(proc: nat)

  const START := Sys([], 0, map[], map[], 0)

  predicate Allowed(s: Sys, a: Action) {
    match a
    case LookUp(proc, _, _, _) => proc !in s.flows
    case AdmitAnswer(proc, _, _, _, _, _, _) => proc in s.flows
    case InvalidateTenant(_) => true
    case Crash(proc) => proc in s.flows
  }

  /** The item an admission writes, if its size and its epoch let it in. */
  function Proposed(s: Sys, a: Action): Option<Item>
    requires a.AdmitAnswer? && a.proc in s.flows
  {
    var f := s.flows[a.proc];
    if a.bytes <= a.maxBytes && f.epoch == s.epoch then Some(Item(f.key, f.tenant, a.payload, a.now + a.ttl, a.bytes)) else None
  }

  function Next(s: Sys, a: Action): Sys
    requires Allowed(s, a)
  {
    match a
    case LookUp(proc, key, tenant, now) =>
      var (items, found) := LookupItems(s.items, key, now);
      s.(items := items, flows := if found.Some? then s.flows else s.flows[proc := Flow(key, tenant, s.epoch, s.step)],
         step := s.step + 1)
    case AdmitAnswer(proc, payload, bytes, now, ttl, maxEntries, maxBytes) =>
      var flows := s.flows - {proc};
      (match Proposed(s, a)
       case None => s.(flows := flows, step := s.step + 1)
       case Some(item) =>
         s.(items := AdmitItems(s.items, item, now, maxEntries, maxBytes), flows := flows,
            origin := s.origin[item.key := s.flows[proc].at], step := s.step + 1))
    case InvalidateTenant(tenant) =>
      s.(items := Filter(Spared(tenant), s.items), epoch := s.epoch + 1, step := s.step + 1)
    case Crash(proc) => s.(flows := s.flows - {proc}, step := s.step + 1)
  }

  ghost predicate Behaviour(states: seq<Sys>, actions: seq<Action>) {
    && |states| == |actions| + 1
    && states[0] == START
    && forall i :: 0 <= i < |actions| ==> Allowed(states[i], actions[i]) && states[i + 1] == Next(states[i], actions[i])
  }

  predicate Clears(a: Action, tenant: string) {
    a.InvalidateTenant? && (a.whose.None? || a.whose == Some(tenant))
  }

  /** The lookup behind this item ran after every past invalidation of its tenant. */
  ghost predicate FreshItem(origin: map<string, int>, past: seq<Action>, x: Item) {
    && x.key in origin && origin[x.key] < |past|
    && forall j :: 0 <= j < |past| && Clears(past[j], x.tenant) ==> origin[x.key] > j
  }

  /** A flow that could still be admitted began after every past invalidation. */
  ghost predicate FreshFlow(epoch: nat, past: seq<Action>, f: Flow) {
    && f.epoch <= epoch && f.at < |past|
    && (f.epoch == epoch ==> forall j :: 0 <= j < |past| && past[j].InvalidateTenant? ==> f.at > j)
  }

  ghost predicate FreshSince(s: Sys, past: seq<Action>) {
    && s.step == |past|
    && (forall x :: x in s.items ==> FreshItem(s.origin, past, x))
    && (forall p :: p in s.flows ==> FreshFlow(s.epoch, past, s.flows[p]))
  }

  lemma ItemStaysFresh(origin: map<string, int>, past: seq<Action>, x: Item, a: Action)
    requires FreshItem(origin, past, x) && !Clears(a, x.tenant)
    ensures FreshItem(origin, past + [a], x)
  {
  }

  lemma FlowStaysFresh(epoch: nat, past: seq<Action>, f: Flow, a: Action)
    requires FreshFlow(epoch, past, f)
    ensures FreshFlow(if a.InvalidateTenant? then epoch + 1 else epoch, past + [a], f)
  {
  }

  lemma StepKeepsFresh(s: Sys, a: Action, past: seq<Action>)
    requires FreshSince(s, past) && Allowed(s, a)
    ensures FreshSince(Next(s, a), past + [a])
  {
    forall p | p in s.flows
      ensures FreshFlow(if a.InvalidateTenant? then s.epoch + 1 else s.epoch, past + [a], s.flows[p])
    {
      FlowStaysFresh(s.epoch, past, s.flows[p], a);
    }
    ItemsStayFresh(s, a, past);
    hide FreshItem;
    if a.LookUp? {
      assert FreshFlow(s.epoch, past + [a], Flow(a.key, a.tenant, s.epoch, s.step));
    }
    hide FreshFlow;
  }

  lemma ItemsStayFresh(s: Sys, a: Action, past: seq<Action>)
    requires FreshSince(s, past) && Allowed(s, a)
    ensures forall x :: x in Next(s, a).items ==> FreshItem(Next(s, a).origin, past + [a], x)
  {
    forall x | x in Next(s, a).items
      ensures FreshItem(Next(s, a).origin, past + [a], x)
    {
      if a.AdmitAnswer? && Proposed(s, a).Some? {
        AdmittedItems(s.items, Proposed(s, a).value, a.now, a.maxEntries, a.maxBytes);
        if x == Proposed(s, a).value {
          FlowStaysFresh(s.epoch, past, s.flows[a.proc], a);
        } else {
          ItemStaysFresh(s.origin, past, x, a);
        }
      } else {
        assert x in s.items && !Clears(a, x.tenant);
        ItemStaysFresh(s.origin, past, x, a);
      }
    }
  }

  /** After an admission the store holds the new item and otherwise only old items under other keys. */
  lemma AdmittedItems(items: seq<Item>, item: Item, now: int, maxEntries: nat, maxBytes: nat)
    ensures forall x :: x in AdmitItems(items, item, now, maxEntries, maxBytes) ==>
      x == item || (x in items && x.key != item.key)
  {
    var all := Put(Filter(Unexpired(now), items), item);
    EvictIsShortestPrefix(all, maxEntries, maxBytes);
    assert forall x :: x in AdmitItems(items, item, now, maxEntries, maxBytes) ==> x in all;
  }

  lemma {:induction false} AlwaysFresh(states: seq<Sys>, actions: seq<Action>, n: nat)
    requires Behaviour(states, actions) && n < |states|
    ensures FreshSince(states[n], actions[..n])
  {
    if n == 0 {
    } else {
      AlwaysFresh(states, actions, n - 1);
      StepKeepsFresh(states[n - 1], actions[n - 1], actions[..n - 1]);
      assert actions[..n] == actions[..n - 1] + [actions[n - 1]];
    }
  }

  /**
   * No stale admission: after tenant T is invalidated at step j, a lookup at step k > j that hits an item of T
   * returns an answer whose own lookup ran after j. And a returned answer has never expired.
   */
  lemma NoStaleHit(states: seq<Sys>, actions: seq<Action>, j: nat, k: nat)
    requires Behaviour(states, actions) && j < k < |actions| && actions[k].LookUp?
    requires LookupItems(states[k].items, actions[k].key, actions[k].now).1.Some?
    ensures var x := LookupItems(states[k].items, actions[k].key, actions[k].now).1.value;
      && x.key == actions[k].key && x in states[k].items && x.expires > actions[k].now
      && (Clears(actions[j], x.tenant) ==> x.key in states[k].origin && states[k].origin[x.key] > j)
  {
    AlwaysFresh(states, actions, k);
    var x := LookupItems(states[k].items, actions[k].key, actions[k].now).1.value;
    assert x in Filter(Unexpired(actions[k].now), states[k].items);
    assert actions[..k][j] == actions[j];
  }

  /** The recorded origin is real: it is the step of a lookup of the same key that missed. */
  ghost predicate MissedAt(states: seq<Sys>, actions: seq<Action>, key: string, at: int)
    requires Behaviour(states, actions)
  {
    && 0 <= at < |actions| && actions[at].LookUp? && actions[at].key == key
    && LookupItems(states[at].items, key, actions[at].now).1.None?
  }

  ghost predicate Genuine(states: seq<Sys>, actions: seq<Action>, s: Sys)
    requires Behaviour(states, actions)
  {
    && (forall key :: key in s.origin ==> MissedAt(states, actions, key, s.origin[key]))
    && (forall p :: p in s.flows ==> MissedAt(states, actions, s.flows[p].key, s.flows[p].at))
  }

  lemma StepKeepsGenuine(states: seq<Sys>, actions: seq<Action>, s: Sys, a: Action)
    requires Behaviour(states, actions) && Genuine(states, actions, s) && Allowed(s, a)
    requires a.LookUp? && LookupItems(s.items, a.key, a.now).1.None? ==> MissedAt(states, actions, a.key, s.step)
    ensures Genuine(states, actions, Next(s, a))
  {
    hide MissedAt, Behaviour, LookupItems, AdmitItems;
  }

  lemma {:induction false} OriginsAreLookups(states: seq<Sys>, actions: seq<Action>, n: nat)
    requires Behaviour(states, actions) && n < |states|
    ensures Genuine(states, actions, states[n]) && states[n].step == n
  {
    if n == 0 {
    } else {
      OriginsAreLookups(states, actions, n - 1);
      var s, a := states[n - 1], actions[n - 1];
      assert a.LookUp? && LookupItems(s.items, a.key, a.now).1.None? ==> MissedAt(states, actions, a.key, n - 1);
      hide Genuine, MissedAt;
      StepKeepsGenuine(states, actions, s, a);
    }
  }
}
