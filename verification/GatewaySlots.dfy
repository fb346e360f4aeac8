/** The gateway's service slots, in every interleaving of completions and streams. */
module GatewaySlots {
  import opened Basics
  import opened StreamSession

  /** What one attempt to obtain an answer or to open an upstream stream comes to. */
  datatype Attempt<T> = Worked(value: T) | Raised

  datatype Served<T> = Served(value: T) | Busy | Failed

  class Gateway {
    const slots: Slots

    constructor (maxInflight: nat)
      requires maxInflight >= 1
      ensures fresh(slots) && slots.capacity == maxInflight && slots.free == maxInflight
    {
      slots := new Slots(maxInflight);
    }

    /** A completion holds its slot only while it runs: afterwards, answered or not, the slots are as before. */
    method Complete<T>(attempt: Attempt<T>) returns (r: Served<T>)
      requires slots.free <= slots.capacity
      modifies slots
      ensures slots.free == old(slots.free)
      ensures r.Busy? <==> old(slots.free) == 0
      ensures !r.Busy? ==> r == if attempt.Worked? then Served(attempt.value) else Failed
    {
      var acquired := slots.TryAcquire();
      if !acquired {
        return Busy;
      }
      match attempt {
        case Worked(value) =>
          r := Served(value);
        case Raised =>
          r := Failed;
      }
      slots.Release();
    }

    /** Opening a stream keeps the slot exactly when a session is returned; the session will give it back. */
    method OpenStream(attempt: Attempt<seq<Upstream>>) returns (r: Served<Session>)
      requires slots.free <= slots.capacity
      modifies slots
      ensures r.Busy? <==> old(slots.free) == 0
      ensures r.Served? <==> old(slots.free) > 0 && attempt.Worked?
      ensures r.Served? ==>
        && fresh(r.value) && r.value.Valid() && !r.value.closed
        && r.value.slots == slots && r.value.upstream == attempt.value
      ensures slots.free == old(slots.free) - if r.Served? then 1 else 0
    {
      var acquired := slots.TryAcquire();
      if !acquired {
        return Busy;
      }
      match attempt {
        case Worked(source) =>
          var session := new Session(slots, source);
          r := Served(session);
        case Raised =>
          slots.Release();
          r := Failed;
      }
    }
  }

  // ----- every interleaving -----

  /** A thread inside `__next__` past its closed check, or waiting for the lock in `close`. */
  datatype Place = InNext(stream: nat) | InClose(stream: nat)

  datatype Holder = Completion(call: nat) | StreamSlot(stream: nat)

  /**
   * `holders` are the running completions and the streams being opened or not yet closed; `releases` counts,
   * for each stream that was ever opened, how often it gave its slot back.
   */
  datatype Sys = Sys(capacity: nat, free: nat, holders: set<Holder>, releases: map<nat, nat>, threads: map<nat, Place>)

  datatype Action =
    | BeginComplete(call: nat)
    | EndComplete(call: nat)
    | BeginOpen(stream: nat)
    | OpenSucceeds(stream: nat)
    | OpenFails(stream: nat)
    | EnterNext(thread: nat, stream: nat)
    | LeaveNext(thread: nat)
    | StartClose(thread: nat, stream: nat)
    | FinishClose(thread: nat)

  predicate Allowed(s: Sys, a: Action) {
    match a
    case BeginComplete(call) => Completion(call) !in s.holders
    case EndComplete(call) => Completion(call) in s.holders
    case BeginOpen(stream) => StreamSlot(stream) !in s.holders && stream !in s.releases
    case OpenSucceeds(stream) => Opening(s, stream)
    case OpenFails(stream) => Opening(s, stream)
    case EnterNext(thread, stream) => thread !in s.threads && stream in s.releases
    case LeaveNext(thread) => thread in s.threads && s.threads[thread].InNext?
    case StartClose(thread, stream) => stream in s.releases && (thread in s.threads ==> s.threads[thread] == InNext(stream))
    case FinishClose(thread) => thread in s.threads && s.threads[thread].InClose?
  }

  predicate Opening(s: Sys, stream: nat) {
    StreamSlot(stream) in s.holders && stream !in s.releases
  }

  predicate Unclosed(s: Sys, stream: nat) {
    StreamSlot(stream) in s.holders && stream in s.releases
  }

  function Acquire(s: Sys, h: Holder): Sys {
    if s.free == 0 then s else s.(free := s.free - 1, holders := s.holders + {h})
  }

  function Release(s: Sys, h: Holder): Sys {
    s.(free := s.free + 1, holders := s.holders - {h})
  }

  function Next(s: Sys, a: Action): Sys
    requires Allowed(s, a)
  {
    match a
    case BeginComplete(call) => Acquire(s, Completion(call))
    case EndComplete(call) => Release(s, Completion(call))
    case BeginOpen(stream) => Acquire(s, StreamSlot(stream))
    case OpenSucceeds(stream) => s.(releases := s.releases[stream := 0])
    case OpenFails(stream) => Release(s, StreamSlot(stream))
    case EnterNext(thread, stream) => if Unclosed(s, stream) then s.(threads := s.threads[thread := InNext(stream)]) else s
    case LeaveNext(thread) => s.(threads := s.threads - {thread})
    case StartClose(thread, stream) => s.(threads := s.threads[thread := InClose(stream)])
    case FinishClose(thread) =>
      var stream := s.threads[thread].stream;
      var left := s.(threads := s.threads - {thread});
      if !Unclosed(s, stream) then left
      else Release(left.(releases := s.releases[stream := s.releases[stream] + 1]), StreamSlot(stream))
  }

  /** Slots add up to the limit, and a stream has released once if it is closed and never before. */
  ghost predicate Conserved(s: Sys) {
    && s.free + |s.holders| == s.capacity
    && (forall k :: k in s.releases ==> s.releases[k] == if StreamSlot(k) in s.holders then 0 else 1)
    && (forall t :: t in s.threads ==> s.threads[t].stream in s.releases)
  }

  ghost predicate Behaviour(states: seq<Sys>, actions: seq<Action>) {
    && |states| == |actions| + 1
    && states[0] == Sys(states[0].capacity, states[0].capacity, {}, map[], map[])
    && forall i :: 0 <= i < |actions| ==> Allowed(states[i], actions[i]) && states[i + 1] == Next(states[i], actions[i])
  }

  lemma StepConserves(s: Sys, a: Action)
    requires Conserved(s) && Allowed(s, a)
    ensures Conserved(Next(s, a)) && Next(s, a).capacity == s.capacity
  {
  }

  /**
   * Slot conservation: free slots, running completions and streams not yet closed always add up to the
   * limit, and every stream gives its slot back at most once, exactly when it is closed.
   */
  lemma {:induction false} SlotsConserved(states: seq<Sys>, actions: seq<Action>, n: nat)
    requires Behaviour(states, actions) && n < |states|
    ensures Conserved(states[n]) && states[n].capacity == states[0].capacity
  {
    if n == 0 {
    } else {
      SlotsConserved(states, actions, n - 1);
      StepConserves(states[n - 1], actions[n - 1]);
    }
  }

  /** While a slot is free whoever asks gets one, and nobody does when none is. */
  lemma ServedWhileFree(states: seq<Sys>, actions: seq<Action>, n: nat)
    requires Behaviour(states, actions) && n < |actions|
    ensures actions[n].BeginComplete? ==> (Completion(actions[n].call) in states[n + 1].holders <==> states[n].free > 0)
    ensures actions[n].BeginOpen? ==> (StreamSlot(actions[n].stream) in states[n + 1].holders <==> states[n].free > 0)
    ensures actions[n].EndComplete? ==> Completion(actions[n].call) !in states[n + 1].holders
    ensures actions[n].OpenFails? ==> StreamSlot(actions[n].stream) !in states[n + 1].holders
    ensures actions[n].EndComplete? || actions[n].OpenFails? ==> states[n + 1].free == states[n].free + 1
  {
    assert Allowed(states[n], actions[n]) && states[n + 1] == Next(states[n], actions[n]);
  }

  predicate Closed(s: Sys, stream: nat) {
    stream in s.releases && StreamSlot(stream) !in s.holders
  }

  lemma StepKeepsClosed(s: Sys, a: Action, stream: nat)
    requires Conserved(s) && Allowed(s, a) && Closed(s, stream)
    ensures Closed(Next(s, a), stream)
  {
  }

  lemma {:induction false} ClosedStays(states: seq<Sys>, actions: seq<Action>, n: nat, m: nat, stream: nat)
    requires Behaviour(states, actions) && n <= m < |states| && Closed(states[n], stream)
    ensures Closed(states[m], stream)
  {
    hide Next, Allowed, Conserved, Closed;
    if n < m {
      ClosedStays(states, actions, n, m - 1, stream);
      SlotsConserved(states, actions, m - 1);
      StepKeepsClosed(states[m - 1], actions[m - 1], stream);
    }
  }

  /** Once some thread has closed a stream it holds no slot any more, having given back exactly one, for good. */
  lemma ClosedForGood(states: seq<Sys>, actions: seq<Action>, n: nat, m: nat)
    requires Behaviour(states, actions) && n < m < |states| && actions[n].FinishClose?
    ensures var stream := states[n].threads[actions[n].thread].stream;
      Closed(states[m], stream) && states[m].releases[stream] == 1
  {
    var stream := states[n].threads[actions[n].thread].stream;
    SlotsConserved(states, actions, n);
    FinishCloses(states[n], actions[n]);
    hide Next, Conserved, Closed;
    ClosedStays(states, actions, n + 1, m, stream);
    SlotsConserved(states, actions, m);
    ClosedReleasedOnce(states[m], stream);
  }

  lemma FinishCloses(s: Sys, a: Action)
    requires Conserved(s) && Allowed(s, a) && a.FinishClose?
    ensures Closed(Next(s, a), s.threads[a.thread].stream)
  {
  }

  lemma ClosedReleasedOnce(s: Sys, stream: nat)
    requires Conserved(s) && Closed(s, stream)
    ensures stream in s.releases && s.releases[stream] == 1
  {
  }
}
