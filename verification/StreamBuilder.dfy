/**
 * Building the sealed stream: pairs placed into slots at random lags, gaps filled and compacted, follow-ups linked.
 * No event is lost or repeated on the way, and every follow-up ends up behind its own seed.
 */
module StreamBuilder {
  import opened Basics
  import opened SealedStream

  // ----- slots -----

  type Slots = seq<Option<Event>>

  const EXTENSION: Slots := seq(50, _ => None)

  ghost function Filled(slots: Slots): nat {
    if slots == [] then 0 else Filled(slots[..|slots| - 1]) + if slots[|slots| - 1].Some? then 1 else 0
  }

  lemma {:induction false} FilledAppend(a: Slots, b: Slots)
    ensures Filled(a + b) == Filled(a) + Filled(b)
  {
    if b == [] {
      assert a + b == a;
    } else {
      FilledAppend(a, b[..|b| - 1]);
      assert (a + b)[..|a + b| - 1] == a + b[..|b| - 1];
    }
  }

  lemma {:induction false} FilledBounds(slots: Slots, head: nat)
    requires head <= |slots| && forall i :: 0 <= i < head ==> slots[i].Some?
    ensures head <= Filled(slots) <= |slots|
  {
    if slots == [] {
    } else {
      var n := |slots| - 1;
      FilledBounds(slots[..n], if head <= n then head else n);
    }
  }

  lemma {:induction false} FilledNone(slots: Slots)
    requires forall i :: 0 <= i < |slots| ==> slots[i].None?
    ensures Filled(slots) == 0 && forall e :: Copies(slots, e) == 0
  {
    if slots == [] {
    } else {
      var n := |slots| - 1;
      FilledNone(slots[..n]);
      assert slots == slots[..n] + [slots[n]];
    }
  }

  lemma FilledPut(slots: Slots, i: nat, e: Event)
    requires i < |slots| && slots[i].None?
    ensures Filled(slots[i := Some(e)]) == Filled(slots) + 1
  {
    FilledAppend(slots[..i], slots[i..]);
    FilledAppend([slots[i]], slots[i + 1..]);
    FilledAppend(slots[..i], [Some(e)] + slots[i + 1..]);
    FilledAppend([Some(e)], slots[i + 1..]);
    assert slots == slots[..i] + slots[i..] && slots[i..] == [slots[i]] + slots[i + 1..];
    assert slots[i := Some(e)] == slots[..i] + ([Some(e)] + slots[i + 1..]);
    assert Filled([Some(e)]) == 1 + Filled([]) && Filled([slots[i]]) == Filled([]);
  }

  /** A follow-up never comes before every seed of its pair. */
  ghost predicate SeedsLead(slots: Slots) {
    forall i :: 0 <= i < |slots| && slots[i].Some? && !slots[i].value.isSeed ==> LedAt(slots, i)
  }

  ghost predicate LedAt(slots: Slots, i: nat)
    requires i < |slots| && slots[i].Some?
  {
    exists j :: 0 <= j < i && slots[j].Some? && slots[j].value.isSeed && slots[j].value.pairId == slots[i].value.pairId
  }

  /** `occupied` names the slots in use. */
  ghost predicate Occupies(slots: Slots, occupied: set<nat>) {
    && (forall i :: i in occupied ==> i < |slots|)
    && (forall i :: 0 <= i < |slots| ==> (i in occupied <==> slots[i].Some?))
  }

  ghost function Copies(slots: Slots, e: Event): nat {
    multiset(slots)[Some(e)]
  }

  /** `slots` hold exactly the events of the first `k` pairs. */
  ghost predicate Contents(pairs: seq<Pair>, k: nat, slots: Slots)
    requires k <= |pairs|
  {
    Filled(slots) == 2 * k && forall e :: Copies(slots, e) == PairEvents(pairs, k)[e]
  }

  ghost predicate Holds(pairs: seq<Pair>, k: nat, slots: Slots, occupied: set<nat>)
    requires k <= |pairs|
  {
    Occupies(slots, occupied) && Contents(pairs, k, slots) && SeedsLead(slots)
  }

  lemma HoldsNothing(pairs: seq<Pair>, slots: Slots)
    requires forall i :: 0 <= i < |slots| ==> slots[i].None?
    ensures Holds(pairs, 0, slots, {})
  {
    FilledNone(slots);
  }

  lemma HoldsExtended(pairs: seq<Pair>, k: nat, slots: Slots, occupied: set<nat>)
    requires k <= |pairs| && Holds(pairs, k, slots, occupied)
    ensures Holds(pairs, k, slots + EXTENSION, occupied)
  {
    hide Contents, SeedsLead;
    ContentsExtended(pairs, k, slots);
    LedExtended(slots);
  }

  lemma ContentsExtended(pairs: seq<Pair>, k: nat, slots: Slots)
    requires k <= |pairs| && Contents(pairs, k, slots)
    ensures Contents(pairs, k, slots + EXTENSION)
  {
    hide Filled;
    FilledNone(EXTENSION);
    FilledAppend(slots, EXTENSION);
    assert multiset(slots + EXTENSION) == multiset(slots) + multiset(EXTENSION);
  }

  lemma LedExtended(slots: Slots)
    requires SeedsLead(slots)
    ensures SeedsLead(slots + EXTENSION)
  {
    var more := slots + EXTENSION;
    forall i | 0 <= i < |more| && more[i].Some? && !more[i].value.isSeed
      ensures LedAt(more, i)
    {
      assert LedAt(slots, i);
      var j :| 0 <= j < i && slots[j].Some? && slots[j].value.isSeed && slots[j].value.pairId == slots[i].value.pairId;
      assert more[j] == slots[j];
    }
  }

  /** A pair put into two free slots, the seed before the follow-up. */
  lemma HoldsPair(pairs: seq<Pair>, k: nat, slots: Slots, occupied: set<nat>, a: nat, b: nat)
    requires k < |pairs| && Holds(pairs, k, slots, occupied)
    requires a < b < |slots| && a !in occupied && b !in occupied
    ensures Holds(pairs, k + 1, slots[a := Some(SeedOf(pairs, k))][b := Some(FollowUpOf(pairs, k))], occupied + {a} + {b})
  {
    var s, f := SeedOf(pairs, k), FollowUpOf(pairs, k);
    hide SeedsLead, Contents, Occupies;
    OccupiesPut(slots, occupied, a, s);
    OccupiesPut(slots[a := Some(s)], occupied + {a}, b, f);
    LedAfterPair(slots, a, b, s, f);
    ContentsPut(pairs, k, slots, a, b);
  }

  lemma OccupiesPut(slots: Slots, occupied: set<nat>, i: nat, e: Event)
    requires Occupies(slots, occupied) && i < |slots| && i !in occupied
    ensures slots[i].None? && Occupies(slots[i := Some(e)], occupied + {i})
  {
  }

  lemma ContentsPut(pairs: seq<Pair>, k: nat, slots: Slots, a: nat, b: nat)
    requires k < |pairs| && Contents(pairs, k, slots)
    requires a < b < |slots| && slots[a].None? && slots[b].None?
    ensures Contents(pairs, k + 1, slots[a := Some(SeedOf(pairs, k))][b := Some(FollowUpOf(pairs, k))])
  {
    hide SeedOf, FollowUpOf, Filled, Copies;
    var s, f := SeedOf(pairs, k), FollowUpOf(pairs, k);
    var once := slots[a := Some(s)];
    var twice := once[b := Some(f)];
    FilledPut(slots, a, s);
    FilledPut(once, b, f);
    forall e
      ensures Copies(twice, e) == PairEvents(pairs, k + 1)[e]
    {
      PutCopies(slots, a, s, e);
      PutCopies(once, b, f, e);
    }
  }

  lemma PutCopies(slots: Slots, i: nat, e: Event, x: Event)
    requires i < |slots| && slots[i].None?
    ensures Copies(slots[i := Some(e)], x) == Copies(slots, x) + if x == e then 1 else 0
  {
    assert multiset(slots[i := Some(e)]) == multiset(slots) - multiset{slots[i]} + multiset{Some(e)};
  }

  lemma LedAfterPair(slots: Slots, a: nat, b: nat, s: Event, f: Event)
    requires SeedsLead(slots) && a < b < |slots| && slots[a].None? && slots[b].None?
    requires s.isSeed && !f.isSeed && s.pairId == f.pairId
    ensures SeedsLead(slots[a := Some(s)][b := Some(f)])
  {
    var twice := slots[a := Some(s)][b := Some(f)];
    forall i | 0 <= i < |twice| && twice[i].Some? && !twice[i].value.isSeed
      ensures LedAt(twice, i)
    {
      if i == b {
        assert twice[a] == Some(s);
      } else {
        assert i != a && twice[i] == slots[i] && LedAt(slots, i);
        var j :| 0 <= j < i && slots[j].Some? && slots[j].value.isSeed && slots[j].value.pairId == slots[i].value.pairId;
        assert twice[j] == slots[j];
      }
    }
  }

  /** The first free slot from `start` on; past the end, the list grows once and the next slot is taken. */
  method FindSlot(slots: Slots, taken: set<nat>, start: nat) returns (slot: nat, more: Slots)
    requires start <= |slots| + 9 && forall i :: i in taken ==> i < |slots|
    ensures slot < |more| && slot !in taken && start <= slot
    ensures more == if slot < |slots| then slots else slots + EXTENSION
    ensures forall j :: start <= j < slot && j < |slots| ==> j in taken
  {
    slot, more := start, slots;
    while slot in taken || slot >= |more|
      invariant start <= slot <= |slots| + 10
      invariant more == slots || (more == slots + EXTENSION && |slots| <= slot)
      invariant slot > |slots| ==> more != slots || slot == start
      invariant slot == |slots| ==> more != slots || slot == start
      invariant forall j :: start <= j < slot && j < |slots| ==> j in taken
      decreases |slots| + 10 - slot
    {
      slot := slot + 1;
      if slot >= |more| {
        more := more + EXTENSION;
      }
    }
  }

  ghost predicate AllTaken(head: nat, taken: set<nat>) {
    forall i :: 0 <= i < head ==> i in taken
  }

  ghost predicate OthersKept(before: Slots, after: Slots, changed: set<nat>) {
    |before| <= |after| && forall i :: 0 <= i < |before| && i !in changed ==> after[i] == before[i]
  }

  /**
   * One pair. The slots below `head` are all taken, so the head never passes twice the number of pairs
   * placed and the seed's slot is always in range; the follow-up goes `lag` or more slots later.
   */
  method PlacePair(pairs: seq<Pair>, k: nat, lag: nat, slots: Slots, taken: set<nat>, head: nat)
    returns (slots': Slots, taken': set<nat>, head': nat, ghost followUpSlot: nat)
    requires k < |pairs| && Holds(pairs, k, slots, taken) && 2 * |pairs| <= |slots|
    requires 2 <= lag <= 10 && head <= |slots| && AllTaken(head, taken)
    ensures Holds(pairs, k + 1, slots', taken') && |slots| <= |slots'|
    ensures head <= head' <= 2 * k && head' !in taken && AllTaken(head', taken')
    ensures head' + lag <= followUpSlot < |slots'| && followUpSlot !in taken && taken' == taken + {head', followUpSlot}
    ensures slots'[head'] == Some(SeedOf(pairs, k)) && slots'[followUpSlot] == Some(FollowUpOf(pairs, k))
    ensures OthersKept(slots, slots', {head', followUpSlot})
  {
    hide Holds, SeedOf, FollowUpOf;
    TakenInRange(pairs, k, slots, taken);
    head' := head;
    while head' in taken
      invariant head <= head' <= |slots| && AllTaken(head', taken)
      decreases |slots| - head'
    {
      head' := head' + 1;
    }
    HeadRoom(pairs, k, slots, taken, head');
    HoldsExtended(pairs, k, slots, taken);
    var slot, more := FindSlot(slots, taken + {head'}, head' + lag);
    HoldsPair(pairs, k, more, taken, head', slot);
    slots' := more[head' := Some(SeedOf(pairs, k))];
    slots' := slots'[slot := Some(FollowUpOf(pairs, k))];
    taken', followUpSlot := taken + {head'} + {slot}, slot;
  }

  /** Placement of all pairs. */
  method PlacePairs(pairs: seq<Pair>, lags: seq<nat>, organicCount: nat) returns (slots: Slots, ghost occupied: set<nat>)
    requires |lags| == |pairs| && forall k :: 0 <= k < |lags| ==> 2 <= lags[k] <= 10
    ensures Holds(pairs, |pairs|, slots, occupied) && |slots| >= 2 * |pairs| + organicCount
  {
    slots := seq(2 * |pairs| + organicCount, _ => None);
    var taken: set<nat>, head := {}, 0;
    HoldsNothing(pairs, slots);
    hide Holds, OthersKept, SeedOf, FollowUpOf;
    for k := 0 to |pairs|
      invariant Holds(pairs, k, slots, taken) && |slots| >= 2 * |pairs| + organicCount
      invariant head <= |slots| && AllTaken(head, taken)
    {
      ghost var followUpSlot;
      slots, taken, head, followUpSlot := PlacePair(pairs, k, lags[k], slots, taken, head);
    }
    occupied := taken;
  }

  lemma TakenInRange(pairs: seq<Pair>, k: nat, slots: Slots, taken: set<nat>)
    requires k <= |pairs| && Holds(pairs, k, slots, taken)
    ensures forall i :: i in taken ==> i < |slots|
  {
    hide Contents, SeedsLead;
  }

  /** The head has passed only taken slots, and there are two of them for each pair placed. */
  lemma HeadRoom(pairs: seq<Pair>, k: nat, slots: Slots, taken: set<nat>, head: nat)
    requires k <= |pairs| && Holds(pairs, k, slots, taken)
    requires head <= |slots| && forall i :: 0 <= i < head ==> i in taken
    ensures head <= 2 * k
  {
    FilledBounds(slots, head);
  }

  // ----- compaction -----

  ghost predicate SeedsFirst(events: seq<Event>) {
    forall i :: 0 <= i < |events| && !events[i].isSeed ==> FollowsSeed(events, i)
  }

  ghost predicate FollowsSeed(events: seq<Event>, i: nat)
    requires i < |events|
  {
    exists j :: 0 <= j < i && events[j].isSeed && events[j].pairId == events[i].pairId
  }

  ghost predicate IncludesSlots(events: seq<Event>, slots: Slots, n: nat)
    requires n <= |slots|
  {
    forall i :: 0 <= i < n && slots[i].Some? ==> slots[i].value in events
  }

  ghost function Times(events: seq<Event>, e: Event): nat {
    multiset(events)[e]
  }

  /** The events so far are those of the first `n` slots and the first `used` organic queries. */
  ghost predicate Gathered(slots: Slots, n: nat, organic: seq<Organic>, used: nat, events: seq<Event>)
    requires n <= |slots| && used <= |organic|
  {
    && |events| == Filled(slots[..n]) + used
    && forall e :: Times(events, e) == Copies(slots[..n], e) + OrganicEvents(organic, used)[e]
  }

  lemma GatherStep(slots: Slots, n: nat, organic: seq<Organic>, used: nat, events: seq<Event>)
    requires n < |slots| && used <= |organic| && Gathered(slots, n, organic, used, events)
    ensures slots[n].Some? ==> Gathered(slots, n + 1, organic, used, events + [slots[n].value])
    ensures slots[n].None? && used < |organic| ==> Gathered(slots, n + 1, organic, used + 1, events + [OrganicOf(organic, used)])
    ensures slots[n].None? ==> Gathered(slots, n + 1, organic, used, events)
    ensures Filled(slots[..n + 1]) == Filled(slots[..n]) + if slots[n].Some? then 1 else 0
  {
    hide Copies, Times, Filled;
    TakeOneMore(slots, n);
    FilledAppend(slots[..n], [slots[n]]);
    FilledOne(slots[n]);
    forall e {
      CopiesOneMore(slots[..n], slots[n], e);
    }
    forall e, x {
      TimesOneMore(events, x, e);
    }
  }

  lemma FilledOne(slot: Option<Event>)
    ensures Filled([slot]) == if slot.Some? then 1 else 0
  {
    assert Filled([]) == 0;
  }

  lemma CopiesOneMore(slots: Slots, slot: Option<Event>, e: Event)
    ensures Copies(slots + [slot], e) == Copies(slots, e) + if slot == Some(e) then 1 else 0
  {
  }

  lemma TimesOneMore(events: seq<Event>, x: Event, e: Event)
    ensures Times(events + [x], e) == Times(events, e) + if x == e then 1 else 0
  {
  }

  lemma SeedsFirstAppend(events: seq<Event>, e: Event)
    requires SeedsFirst(events)
    requires e.isSeed || exists x :: x in events && x.isSeed && x.pairId == e.pairId
    ensures SeedsFirst(events + [e])
  {
    var more := events + [e];
    forall i | 0 <= i < |more| && !more[i].isSeed
      ensures FollowsSeed(more, i)
    {
      if i < |events| {
        assert FollowsSeed(events, i);
        var j :| 0 <= j < i && events[j].isSeed && events[j].pairId == events[i].pairId;
        assert more[j] == events[j];
      } else {
        var x :| x in events && x.isSeed && x.pairId == e.pairId;
        var j :| 0 <= j < |events| && events[j] == x;
        assert more[j] == x;
      }
    }
  }

  lemma SlotHasSeed(slots: Slots, n: nat, events: seq<Event>)
    requires n < |slots| && slots[n].Some? && SeedsLead(slots) && IncludesSlots(events, slots, n)
    ensures slots[n].value.isSeed || exists x :: x in events && x.isSeed && x.pairId == slots[n].value.pairId
  {
    if !slots[n].value.isSeed {
      assert LedAt(slots, n);
      var j :| 0 <= j < n && slots[j].Some? && slots[j].value.isSeed && slots[j].value.pairId == slots[n].value.pairId;
      assert slots[j].value in events;
    }
  }

  lemma IncludesMore(slots: Slots, n: nat, events: seq<Event>, e: Event)
    requires n < |slots| && IncludesSlots(events, slots, n)
    ensures slots[n].None? || slots[n] == Some(e) ==> IncludesSlots(events + [e], slots, n + 1)
    ensures slots[n].None? ==> IncludesSlots(events, slots, n + 1)
  {
  }

  /** What compaction has reached after `n` slots: gaps were filled as long as queries lasted. */
  ghost predicate CompactedTo(slots: Slots, n: nat, organic: seq<Organic>, used: nat, events: seq<Event>)
    requires n <= |slots|
  {
    && used <= |organic| && Gathered(slots, n, organic, used, events)
    && used == (if n - Filled(slots[..n]) < |organic| then n - Filled(slots[..n]) else |organic|)
    && IncludesSlots(events, slots, n) && SeedsFirst(events)
  }

  lemma CompactSlot(slots: Slots, n: nat, organic: seq<Organic>, used: nat, events: seq<Event>)
    requires n < |slots| && SeedsLead(slots) && CompactedTo(slots, n, organic, used, events)
    ensures slots[n].Some? ==> CompactedTo(slots, n + 1, organic, used, events + [slots[n].value])
    ensures slots[n].None? && used < |organic| ==> CompactedTo(slots, n + 1, organic, used + 1, events + [OrganicOf(organic, used)])
    ensures slots[n].None? && used == |organic| ==> CompactedTo(slots, n + 1, organic, used, events)
  {
    hide SeedsLead, SeedsFirst, Gathered, IncludesSlots, OrganicOf, Filled;
    GatherStep(slots, n, organic, used, events);
    if slots[n].Some? {
      SlotHasSeed(slots, n, events);
      IncludesMore(slots, n, events, slots[n].value);
      SeedsFirstAppend(events, slots[n].value);
    } else if used < |organic| {
      var e := OrganicOf(organic, used);
      IncludesMore(slots, n, events, e);
      OrganicIsSeed(organic, used);
      SeedsFirstAppend(events, e);
    } else {
      IncludesMore(slots, n, events, Event(0, "", "", OfPair(0), true, None, false, ""));
    }
  }

  lemma CompactEnd(slots: Slots, organic: seq<Organic>, used: nat, events: seq<Event>)
    requires CompactedTo(slots, |slots|, organic, used, events) && Filled(slots) + |organic| <= |slots|
    ensures |events| == Filled(slots) + |organic| && SeedsFirst(events)
    ensures forall e :: Times(events, e) == Copies(slots, e) + OrganicEvents(organic, |organic|)[e]
  {
    assert slots[..|slots|] == slots;
    hide Copies, Times, Filled, SeedsFirst;
  }

  lemma CompactStart(slots: Slots, organic: seq<Organic>)
    ensures CompactedTo(slots, 0, organic, 0, [])
  {
    assert slots[..0] == [];
  }

  /** Gaps take organic queries in order; what is left empty disappears. Nothing is lost, and seeds stay first. */
  method Compact(slots: Slots, organic: seq<Organic>) returns (events: seq<Event>)
    requires SeedsLead(slots) && Filled(slots) + |organic| <= |slots|
    ensures |events| == Filled(slots) + |organic|
    ensures forall e :: Times(events, e) == Copies(slots, e) + OrganicEvents(organic, |organic|)[e]
    ensures SeedsFirst(events)
  {
    events := [];
    var used := 0;
    CompactStart(slots, organic);
    hide SeedsLead, SeedsFirst, Filled, Times, Copies;
    for i := 0 to |slots|
      invariant CompactedTo(slots, i, organic, used, events)
    {
      CompactSlot(slots, i, organic, used, events);
      if slots[i].Some? {
        events := events + [slots[i].value];
      } else if used < |organic| {
        events := events + [OrganicOf(organic, used)];
        used := used + 1;
      }
    }
    CompactEnd(slots, organic, used, events);
  }

  lemma OrganicIsSeed(organic: seq<Organic>, k: nat)
    requires k < |organic|
    ensures OrganicOf(organic, k).isSeed
  {
  }

  // ----- linking -----

  /** `linked` is `event` with its position as id and, on a follow-up only, a designated seed. */
  predicate Relabels(event: Event, linked: Event, position: nat) {
    && linked == event.(id := position + 1, matchedSeed := linked.matchedSeed)
    && (event.isSeed ==> linked.matchedSeed == event.matchedSeed)
  }

  ghost predicate LinkedUpTo(events: seq<Event>, stream: seq<Event>, n: nat)
    requires n <= |events| == |stream|
  {
    && (forall i :: 0 <= i < n ==> Relabels(events[i], stream[i], i))
    && (forall i :: 0 <= i < n && !events[i].isSeed ==> HasEarlierSeed(stream, i))
    && (forall i :: n <= i < |events| ==> stream[i] == events[i])
  }

  /** The table of seeds met so far. */
  ghost predicate SeedTable(stream: seq<Event>, n: nat, table: map<PairId, nat>)
    requires n <= |stream|
  {
    && (forall p :: p in table ==> exists j :: 0 <= j < n && stream[j].isSeed && stream[j].pairId == p && stream[j].id == table[p])
    && (forall j :: 0 <= j < n && stream[j].isSeed ==> stream[j].pairId in table)
  }

  lemma LinkStep(events: seq<Event>, stream: seq<Event>, n: nat, table: map<PairId, nat>, e: Event)
    requires n < |events| == |stream| && SeedsFirst(events)
    requires LinkedUpTo(events, stream, n) && SeedTable(stream, n, table)
    requires Relabels(events[n], e, n)
    requires !e.isSeed ==> e.matchedSeed == if e.pairId in table then Some(table[e.pairId]) else None
    ensures LinkedUpTo(events, stream[n := e], n + 1)
    ensures SeedTable(stream[n := e], n + 1, if e.isSeed then table[e.pairId := e.id] else table)
  {
    hide SeedTable, SeedsFirst, HasEarlierSeed;
    LinkTable(stream, n, table, e);
    if !e.isSeed {
      LinkNew(events, stream, n, table, e);
    }
    forall i | 0 <= i < n && !events[i].isSeed
      ensures HasEarlierSeed(stream[n := e], i)
    {
      LinkOld(stream, n, e, i);
    }
  }

  lemma LinkOld(stream: seq<Event>, n: nat, e: Event, i: nat)
    requires i < n < |stream| && HasEarlierSeed(stream, i)
    ensures HasEarlierSeed(stream[n := e], i)
  {
    var j :| 0 <= j < i && IsSeedOf(stream[j], stream[i]);
    var next := stream[n := e];
    assert IsSeedOf(next[j], next[i]);
  }

  lemma LinkNew(events: seq<Event>, stream: seq<Event>, n: nat, table: map<PairId, nat>, e: Event)
    requires n < |events| == |stream| && SeedsFirst(events)
    requires LinkedUpTo(events, stream, n) && SeedTable(stream, n, table)
    requires Relabels(events[n], e, n) && !e.isSeed
    requires e.matchedSeed == if e.pairId in table then Some(table[e.pairId]) else None
    ensures HasEarlierSeed(stream[n := e], n)
  {
    assert FollowsSeed(events, n);
    var k :| 0 <= k < n && events[k].isSeed && events[k].pairId == events[n].pairId;
    assert Relabels(events[k], stream[k], k) && stream[k].pairId in table;
    var j :| 0 <= j < n && stream[j].isSeed && stream[j].pairId == e.pairId && stream[j].id == table[e.pairId];
    var next := stream[n := e];
    assert IsSeedOf(next[j], next[n]);
  }

  lemma LinkTable(stream: seq<Event>, n: nat, table: map<PairId, nat>, e: Event)
    requires n < |stream| && SeedTable(stream, n, table)
    ensures SeedTable(stream[n := e], n + 1, if e.isSeed then table[e.pairId := e.id] else table)
  {
    var next, after := stream[n := e], if e.isSeed then table[e.pairId := e.id] else table;
    assert forall j :: 0 <= j < n ==> next[j] == stream[j];
    forall p | p in after
      ensures exists j :: 0 <= j < n + 1 && next[j].isSeed && next[j].pairId == p && next[j].id == after[p]
    {
      if e.isSeed && p == e.pairId {
        assert next[n] == e;
      } else {
        var j :| 0 <= j < n && stream[j].isSeed && stream[j].pairId == p && stream[j].id == table[p];
        assert next[j] == stream[j];
      }
    }
  }

  /** Ids are positions, and every follow-up is linked to an earlier seed of its pair. */
  method Link(events: seq<Event>) returns (stream: seq<Event>)
    requires SeedsFirst(events)
    ensures |stream| == |events| && forall i :: 0 <= i < |events| ==> Relabels(events[i], stream[i], i)
    ensures Linked(stream)
  {
    stream := events;
    var seedIds: map<PairId, nat> := map[];
    for i := 0 to |events|
      invariant |stream| == |events| && LinkedUpTo(events, stream, i) && SeedTable(stream, i, seedIds)
    {
      ghost var before, table := stream, seedIds;
      var e := stream[i].(id := i + 1);
      if e.isSeed {
        seedIds := seedIds[e.pairId := e.id];
      } else {
        e := e.(matchedSeed := if e.pairId in seedIds then Some(seedIds[e.pairId]) else None);
      }
      LinkStep(events, before, i, table, e);
      hide SeedTable, LinkedUpTo, SeedsFirst;
      stream := stream[i := e];
    }
  }

  // ----- the assembled stream -----

  /** The event before it was numbered and linked. */
  function Unlinked(e: Event): Event {
    e.(id := 0, matchedSeed := None)
  }

  predicate FromPair(pairs: seq<Pair>, k: nat, e: Event)
    requires k < |pairs|
  {
    e == SeedOf(pairs, k) || e == FollowUpOf(pairs, k)
  }

  lemma {:induction false} PairEventsMembers(pairs: seq<Pair>, n: nat, e: Event)
    requires n <= |pairs| && e in PairEvents(pairs, n)
    ensures exists k :: 0 <= k < n && FromPair(pairs, k, e)
  {
    hide SeedOf, FollowUpOf;
    if n == 0 {
    } else if e in PairEvents(pairs, n - 1) {
      PairEventsMembers(pairs, n - 1, e);
    } else {
      assert FromPair(pairs, n - 1, e);
    }
  }

  lemma {:induction false} OrganicEventsMembers(organic: seq<Organic>, n: nat, e: Event)
    requires n <= |organic| && e in OrganicEvents(organic, n)
    ensures exists k :: 0 <= k < n && e == OrganicOf(organic, k)
  {
    hide OrganicOf;
    if n == 0 {
    } else if e in OrganicEvents(organic, n - 1) {
      OrganicEventsMembers(organic, n - 1, e);
    }
  }

  ghost predicate Planned(pairs: seq<Pair>, organic: seq<Organic>, events: seq<Event>) {
    forall e :: Times(events, e) == PairEvents(pairs, |pairs|)[e] + OrganicEvents(organic, |organic|)[e]
  }

  lemma EventIsPlanned(pairs: seq<Pair>, organic: seq<Organic>, events: seq<Event>, i: nat)
    requires Planned(pairs, organic, events) && i < |events|
    ensures Unlinked(events[i]) == events[i]
    ensures (exists k :: 0 <= k < |pairs| && FromPair(pairs, k, events[i]))
         || exists k :: 0 <= k < |organic| && events[i] == OrganicOf(organic, k)
  {
    var e := events[i];
    assert Times(events, e) > 0 by {
      assert e in multiset(events);
    }
    if e in PairEvents(pairs, |pairs|) {
      PairEventsMembers(pairs, |pairs|, e);
    } else {
      OrganicEventsMembers(organic, |organic|, e);
    }
  }

  /** The event carries the second query of the pair, with its label. */
  predicate AsksSecond(pair: Pair, k: nat, e: Event) {
    && !e.isSeed && e.pairId == OfPair(k + 1) && e.query == pair.queryB && e.reuseSafe == pair.safe
    && e.source == pair.source && e.domain == pair.domain
  }

  /** The event carries the first query of the pair, to be indexed and never counted as safe. */
  predicate AsksFirst(pair: Pair, k: nat, e: Event) {
    && e.isSeed && e.pairId == OfPair(k + 1) && e.query == pair.queryA && !e.reuseSafe && e.matchedSeed.None?
    && e.source == pair.source && e.domain == pair.domain
  }

  predicate AsksOrganic(organic: Organic, k: nat, e: Event) {
    && e.isSeed && e.pairId == OfOrganic(k + 1) && e.query == organic.query && !e.reuseSafe && e.matchedSeed.None?
    && e.source == organic.source && e.domain == organic.domain
  }

  /** The follow-up at `i` is linked to the seed of the very pair it comes from. */
  ghost predicate LinkedToOwnSeed(pairs: seq<Pair>, stream: seq<Event>, i: nat)
    requires i < |stream|
  {
    exists k, j :: 0 <= k < |pairs| && 0 <= j < i && AsksSecond(pairs[k], k, stream[i]) && AsksFirst(pairs[k], k, stream[j])
      && stream[i].matchedSeed == Some(stream[j].id)
  }

  ghost predicate IsInput(pairs: seq<Pair>, organic: seq<Organic>, e: Event) {
    || (exists k :: 0 <= k < |pairs| && AsksFirst(pairs[k], k, e))
    || (exists k :: 0 <= k < |organic| && AsksOrganic(organic[k], k, e))
  }

  ghost predicate MadeOf(pairs: seq<Pair>, organic: seq<Organic>, stream: seq<Event>) {
    var plain := seq(|stream|, i requires 0 <= i < |stream| => Unlinked(stream[i]));
    multiset(plain) == PairEvents(pairs, |pairs|) + OrganicEvents(organic, |organic|)
  }

  lemma StreamIsMade(pairs: seq<Pair>, organic: seq<Organic>, events: seq<Event>, stream: seq<Event>)
    requires Planned(pairs, organic, events) && |stream| == |events|
    requires forall i :: 0 <= i < |events| ==> Relabels(events[i], stream[i], i)
    ensures MadeOf(pairs, organic, stream)
    ensures forall i :: 0 <= i < |events| ==> Unlinked(stream[i]) == events[i]
  {
    hide PairEvents, OrganicEvents;
    forall i | 0 <= i < |events|
      ensures Unlinked(stream[i]) == events[i]
    {
      EventIsPlanned(pairs, organic, events, i);
      assert Relabels(events[i], stream[i], i);
    }
    hide FromPair;
    var plain := seq(|stream|, i requires 0 <= i < |stream| => Unlinked(stream[i]));
    assert plain == events;
    forall e
      ensures multiset(plain)[e] == (PairEvents(pairs, |pairs|) + OrganicEvents(organic, |organic|))[e]
    {
      assert Times(events, e) == PairEvents(pairs, |pairs|)[e] + OrganicEvents(organic, |organic|)[e];
    }
  }

  lemma OwnSeed(pairs: seq<Pair>, organic: seq<Organic>, events: seq<Event>, stream: seq<Event>, i: nat)
    requires Planned(pairs, organic, events) && |stream| == |events| && Linked(stream) && i < |stream| && !stream[i].isSeed
    requires forall j :: 0 <= j < |events| ==> Unlinked(stream[j]) == events[j] && Relabels(events[j], stream[j], j)
    ensures LinkedToOwnSeed(pairs, stream, i)
  {
    hide PairEvents, OrganicEvents, Planned;
    assert HasEarlierSeed(stream, i);
    var j :| 0 <= j < i && IsSeedOf(stream[j], stream[i]);
    EventIsPlanned(pairs, organic, events, i);
    EventIsPlanned(pairs, organic, events, j);
    var k :| 0 <= k < |pairs| && FromPair(pairs, k, events[i]);
    assert events[i] == FollowUpOf(pairs, k) && Unlinked(stream[i]) == events[i];
    var m :| 0 <= m < |pairs| && FromPair(pairs, m, events[j]);
    assert m == k && events[j] == SeedOf(pairs, k) && Unlinked(stream[j]) == events[j];
    assert AsksSecond(pairs[k], k, stream[i]) && AsksFirst(pairs[k], k, stream[j]);
  }

  lemma SeedIsInput(pairs: seq<Pair>, organic: seq<Organic>, events: seq<Event>, stream: seq<Event>, i: nat)
    requires Planned(pairs, organic, events) && |stream| == |events| && i < |stream| && stream[i].isSeed
    requires Relabels(events[i], stream[i], i)
    ensures IsInput(pairs, organic, stream[i])
  {
    hide PairEvents, OrganicEvents, Planned;
    EventIsPlanned(pairs, organic, events, i);
    if k :| 0 <= k < |pairs| && FromPair(pairs, k, events[i]) {
      assert AsksFirst(pairs[k], k, stream[i]);
    } else {
      var k :| 0 <= k < |organic| && events[i] == OrganicOf(organic, k);
      assert AsksOrganic(organic[k], k, stream[i]);
    }
  }

  /** Twice the pairs plus the organic queries, all of them exactly once, numbered and correctly linked. */
  method AssembleSealedStream(pairs: seq<Pair>, lags: seq<nat>, organic: seq<Organic>) returns (stream: seq<Event>)
    requires |lags| == |pairs| && forall k :: 0 <= k < |lags| ==> 2 <= lags[k] <= 10
    ensures |stream| == 2 * |pairs| + |organic|
    ensures MadeOf(pairs, organic, stream)
    ensures Linked(stream) && forall i :: 0 <= i < |stream| ==> stream[i].id == i + 1
    ensures forall i :: 0 <= i < |stream| && !stream[i].isSeed ==> LinkedToOwnSeed(pairs, stream, i)
    ensures forall i :: 0 <= i < |stream| && stream[i].isSeed ==> IsInput(pairs, organic, stream[i])
  {
    hide MadeOf, IsInput, LinkedToOwnSeed, Linked, SeedsFirst, Times, Copies, Filled, PairEvents, OrganicEvents;
    var slots, occupied := PlacePairs(pairs, lags, |organic|);
    var events := Compact(slots, organic);
    stream := Link(events);
    StreamIsMade(pairs, organic, events, stream);
    forall i | 0 <= i < |stream| && !stream[i].isSeed
      ensures LinkedToOwnSeed(pairs, stream, i)
    {
      OwnSeed(pairs, organic, events, stream, i);
    }
    forall i | 0 <= i < |stream| && stream[i].isSeed
      ensures IsInput(pairs, organic, stream[i])
    {
      SeedIsInput(pairs, organic, events, stream, i);
    }
  }
}
