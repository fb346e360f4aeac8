/** The semantic cache keeps order of last use, so it evicts the least recently used. */
module CacheRecency {
  import opened Basics
  import opened SemanticCache
  import opened AnswerTrace

  /** Event `i` stored the answer of this event id, or reused it. */
  predicate Uses(events: seq<Event>, i: nat, id: string)
    requires i < |events|
  {
    (events[i].stored && events[i].row.eventId == id) || (events[i].status == WasHit && events[i].candidate == Some(id))
  }

  /** The last of the first `n` events that used it, or -1. */
  function LastUse(events: seq<Event>, n: nat, id: string): (m: int)
    requires n <= |events|
    ensures -1 <= m < n && (m >= 0 ==> Uses(events, m, id))
    ensures forall k :: m < k < n ==> !Uses(events, k, id)
  {
    if n == 0 then -1 else if Uses(events, n - 1, id) then n - 1 else LastUse(events, n - 1, id)
  }

  type Ranking = string -> int

  function UseOf(events: seq<Event>, n: nat): Ranking {
    (id: string) => if n <= |events| then LastUse(events, n, id) else -1
  }

  ghost predicate Increasing(rank: Ranking, entries: seq<Entry>) {
    forall i, j :: 0 <= i < j < |entries| ==> rank(entries[i].eventId) < rank(entries[j].eventId)
  }

  ghost predicate SameRanks(before: Ranking, after: Ranking, entries: seq<Entry>) {
    forall e :: e in entries ==> after(e.eventId) == before(e.eventId)
  }

  lemma {:induction false} UnexpiredIncreasing(rank: Ranking, entries: seq<Entry>, now: int)
    requires Increasing(rank, entries)
    ensures Increasing(rank, Unexpired(entries, now))
  {
    if entries == [] {
    } else {
      var n := |entries| - 1;
      var rest := Unexpired(entries[..n], now);
      UnexpiredIncreasing(rank, entries[..n], now);
      UnexpiredMembers(entries[..n], now);
      forall i | 0 <= i < |rest|
        ensures rank(rest[i].eventId) < rank(entries[n].eventId)
      {
        assert rest[i] in entries[..n];
        var j :| 0 <= j < n && entries[..n][j] == rest[i];
        assert entries[j] == rest[i];
      }
    }
  }

  lemma SuffixIncreasing(rank: Ranking, entries: seq<Entry>, m: nat)
    requires m <= |entries| && Increasing(rank, entries)
    ensures Increasing(rank, entries[m..])
  {
  }

  /** Using one entry, and moving it to the end, keeps the order. */
  lemma PromoteIncreasing(before: Ranking, after: Ranking, entries: seq<Entry>, i: nat)
    requires Increasing(before, entries) && i < |entries|
    requires forall k :: 0 <= k < |entries| && k != i ==>
      after(entries[k].eventId) == before(entries[k].eventId) < after(entries[i].eventId)
    ensures Increasing(after, Promote(entries, i))
  {
  }

  lemma AppendIncreasing(before: Ranking, after: Ranking, entries: seq<Entry>, e: Entry)
    requires Increasing(before, entries)
    requires forall x :: x in entries ==> after(x.eventId) == before(x.eventId) < after(e.eventId)
    ensures Increasing(after, entries + [e])
  {
    assert forall k :: 0 <= k < |entries| ==> entries[k] in entries;
  }

  lemma SameIncreasing(before: Ranking, after: Ranking, entries: seq<Entry>)
    requires Increasing(before, entries) && SameRanks(before, after, entries)
    ensures Increasing(after, entries)
  {
    assert forall k :: 0 <= k < |entries| ==> entries[k] in entries;
  }

  /** What one step does to the list, with what it reports. */
  ghost predicate Moves(s: Setup, before: seq<Entry>, c: Call, x: Effect) {
    var live := Unexpired(before, c.now);
    var hit, stored := x.outcome.Done? && x.outcome.result.status.Hit?, x.outcome.Done? && x.outcome.result.stored;
    || (!hit && !stored && x.entries in [before, live])
    || (hit && !stored && exists i :: 0 <= i < |live| && x.entries == Promote(live, i)
                                       && x.outcome.result.candidate == Some(live[i].eventId))
    || (!hit && stored && exists e: Entry, m :: 0 <= m <= |live| + 1 && e.eventId == c.eventId && x.entries == (live + [e])[m..])
  }

  lemma StepMoves(s: Setup, before: seq<Entry>, c: Call, x: Effect)
    requires ValidConfig(s.config) && Steps(s, before, c, x)
    ensures Moves(s, before, c, x)
  {
    hide Retrieves, Unexpired, Evicted, Promote, Complete, CheckCrashes, HasKey, Generation, Moves, InScope;
    var live := Unexpired(before, c.now);
    if Bypasses(c) {
      BypassMoves(s, before, c, x);
    } else if HasKey(live, c.key) {
      var i :| 0 <= i < |live| && live[i].key == c.key && x == Reuse(live, i, ExactHit, None, None);
      ReuseMoves(s, before, c, x, i, ExactHit, None, None);
    } else if x.outcome.Done? && x.outcome.result.stored {
      var e, n := StoringEvictsLeast(s, before, c, x);
      StoredIsMiss(s, before, c, x);
      StoredMoves(s, before, c, x, e, n);
    } else {
      var r :| Retrieves(s, live, c, r) && Concludes(s, live, c, r, x);
      if !r.paused && r.reuse.Some? {
        ReuseMoves(s, before, c, x, r.reuse.value, SemanticHit(s.config.mode), r.score, r.verification);
      } else {
        GenerationMoves(s, before, c, x, r);
      }
    }
  }

  lemma StoredIsMiss(s: Setup, before: seq<Entry>, c: Call, x: Effect)
    requires Steps(s, before, c, x) && x.outcome.Done? && x.outcome.result.stored
    ensures x.outcome.result.status.Miss?
  {
    StepsCalls(s, before, c, x);
    hide Steps;
  }

  lemma StoredMoves(s: Setup, before: seq<Entry>, c: Call, x: Effect, e: Entry, n: nat)
    requires x.outcome.Done? && x.outcome.result.stored && !x.outcome.result.status.Hit?
    requires n <= |Unexpired(before, c.now)| && e.eventId == c.eventId && x.entries == (Unexpired(before, c.now) + [e])[n..]
    ensures Moves(s, before, c, x)
  {
    hide Unexpired;
  }

  lemma BypassMoves(s: Setup, before: seq<Entry>, c: Call, x: Effect)
    requires x == Effect(before, Forwarded(c.reply), 1, None)
    ensures Moves(s, before, c, x)
  {
    hide Unexpired;
  }

  lemma ReuseMoves(s: Setup, before: seq<Entry>, c: Call, x: Effect, i: nat, reason: Reason, score: Option<real>,
                   verification: Option<Verdict>)
    requires var live := Unexpired(before, c.now); i < |live| && x == Reuse(live, i, reason, score, verification)
    ensures Moves(s, before, c, x)
  {
    hide Unexpired, Promote;
  }

  lemma GenerationMoves(s: Setup, before: seq<Entry>, c: Call, x: Effect, r: Retrieval)
    requires (r.paused || r.reuse.None?) && Concludes(s, Unexpired(before, c.now), c, r, x)
    requires !(x.outcome.Done? && x.outcome.result.stored)
    ensures Moves(s, before, c, x)
  {
    hide Unexpired, Evicted, Complete, CheckCrashes, Admits, NewEntry;
  }

  /** What a row records of it. */
  lemma UseIsRecorded(s: Setup, before: seq<Entry>, row: Row, t: Turn, x: Effect)
    requires ValidConfig(s.config) && Sound(s, before) && Steps(s, before, CallOf(row, t), x) && !Measured(t.baselineReply).Paused?
    ensures var e := EventOf(row, t, x);
      && e.row == row
      && (e.status == WasHit <==> x.outcome.Done? && x.outcome.result.status.Hit?)
      && (e.status == WasHit ==> e.candidate == x.outcome.result.candidate)
      && (e.stored <==> x.outcome.Done? && x.outcome.result.stored)
  {
    hide Steps, Sound, UsageOf;
    if x.outcome.Done? && x.outcome.result.status.Hit? {
      HitIsComplete(s, before, CallOf(row, t), x);
    } else if x.outcome.Done? && x.outcome.result.stored {
      StoredIsComplete(s, before, CallOf(row, t), x);
    }
  }

  lemma StoredIsComplete(s: Setup, before: seq<Entry>, c: Call, x: Effect)
    requires Steps(s, before, c, x) && x.outcome.Done? && x.outcome.result.stored
    ensures GoodAnswer(x.outcome.result.response, c.key.body) && x.outcome.result.status.Miss?
  {
    StepsCalls(s, before, c, x);
    StoredIff(s, before, c, x);
  }

  /** The entries of a state were stored by different earlier rows. */
  ghost predicate StoredEarlier(rows: seq<Row>, n: nat, entries: seq<Entry>)
    requires n <= |rows|
  {
    forall e :: e in entries ==> exists j :: 0 <= j < n && rows[j].eventId == e.eventId
  }

  lemma EntriesStoredEarlier(s: Setup, rows: seq<Row>, turns: seq<Turn>, states: seq<seq<Entry>>, events: seq<Event>, n: nat)
    requires ValidConfig(s.config) && Ran(s, rows, turns, states, events) && n <= |events|
    ensures StoredEarlier(rows, n, states[n])
  {
    StatesAreBacked(s, rows, turns, states, events, n);
    RowsRecorded(s, rows, turns, states, events);
    hide Ran, Sound;
    forall e | e in states[n]
      ensures exists j :: 0 <= j < n && rows[j].eventId == e.eventId
    {
      var k :| 0 <= k < |states[n]| && states[n][k] == e;
      assert Backed(s.config.ttl, turns, events, n, states[n][k]);
      var j :| 0 <= j < n && Vouches(events[j], e) && MadeIn(s.config.ttl, turns[j], e);
      assert rows[j].eventId == e.eventId;
    }
  }

  /** The new entry's event is used later than those of all live ones. */
  lemma GrownIncreasing(rows: seq<Row>, n: nat, before: seq<Entry>, now: int, e: Entry, events: seq<Event>)
    requires n < |events| && n < |rows| && DistinctRows(rows) && StoredEarlier(rows, n, before)
    requires events[n].stored && events[n].status != WasHit && events[n].row == rows[n] && e.eventId == rows[n].eventId
    requires Increasing(UseOf(events, n), before)
    ensures Increasing(UseOf(events, n + 1), Unexpired(before, now) + [e])
  {
    var live := Unexpired(before, now);
    UnexpiredIncreasing(UseOf(events, n), before, now);
    UnexpiredMembers(before, now);
    hide Unexpired;
    forall y | y in live
      ensures y.eventId != rows[n].eventId
    {
      var j :| 0 <= j < n && rows[j].eventId == y.eventId;
    }
    AppendIncreasing(UseOf(events, n), UseOf(events, n + 1), live, e);
  }

  lemma NextIncreasing(s: Setup, rows: seq<Row>, n: nat, before: seq<Entry>, c: Call, x: Effect, events: seq<Event>)
    requires n < |events| && n < |rows| && DistinctRows(rows) && StoredEarlier(rows, n, before)
    requires Moves(s, before, c, x) && c.eventId == rows[n].eventId && events[n].row == rows[n]
    requires events[n].status == WasHit <==> x.outcome.Done? && x.outcome.result.status.Hit?
    requires events[n].status == WasHit ==> events[n].candidate == x.outcome.result.candidate
    requires events[n].stored <==> x.outcome.Done? && x.outcome.result.stored
    requires Increasing(UseOf(events, n), before)
    ensures Increasing(UseOf(events, n + 1), x.entries)
  {
    var rank, next, live := UseOf(events, n), UseOf(events, n + 1), Unexpired(before, c.now);
    UnexpiredIncreasing(rank, before, c.now);
    RanksChange(events, n);
    hide UseOf, Increasing, Unexpired, Promote, StoredEarlier, DistinctRows;
    if events[n].status == WasHit {
      var i :| 0 <= i < |live| && x.entries == Promote(live, i) && x.outcome.result.candidate == Some(live[i].eventId);
      IdsDiffer(rank, live, i);
      PromoteIncreasing(rank, next, live, i);
    } else if events[n].stored {
      var e: Entry, m :| 0 <= m <= |live| + 1 && e.eventId == c.eventId && x.entries == (live + [e])[m..];
      GrownIncreasing(rows, n, before, c.now, e, events);
      SuffixIncreasing(next, live + [e], m);
    } else {
      SameIncreasing(rank, next, before);
      SameIncreasing(rank, next, live);
    }
  }

  /** A used event's rank becomes the row's own, above all others; the others keep theirs. */
  lemma RanksChange(events: seq<Event>, n: nat)
    requires n < |events|
    ensures forall id :: if Uses(events, n, id) then UseOf(events, n + 1)(id) == n
                         else UseOf(events, n + 1)(id) == UseOf(events, n)(id) < n
  {
  }

  lemma IdsDiffer(rank: Ranking, entries: seq<Entry>, i: nat)
    requires Increasing(rank, entries) && i < |entries|
    ensures forall k :: 0 <= k < |entries| && k != i ==> entries[k].eventId != entries[i].eventId
  {
  }

  lemma {:induction false} IncreasingAlways(s: Setup, rows: seq<Row>, turns: seq<Turn>, states: seq<seq<Entry>>,
                                            events: seq<Event>, n: nat)
    requires ValidConfig(s.config) && Ran(s, rows, turns, states, events) && n <= |events| && DistinctRows(rows)
    ensures Increasing(UseOf(events, n), states[n])
  {
    hide UseOf, Increasing, Steps, Sound, AllBacked, EventOf, Moves, DistinctRows, StoredEarlier;
    if n == 0 {
      NothingIncreasing(UseOf(events, 0));
    } else {
      IncreasingAlways(s, rows, turns, states, events, n - 1);
      EntriesStoredEarlier(s, rows, turns, states, events, n - 1);
      StatesAreBacked(s, rows, turns, states, events, n - 1);
      assert Served(s, rows, turns, states, events, n - 1);
      var before, c := states[n - 1], CallOf(rows[n - 1], turns[n - 1]);
      var x :| Steps(s, before, c, x) && x.outcome != PausedRun && states[n] == x.entries
               && events[n - 1] == EventOf(rows[n - 1], turns[n - 1], x);
      StepMoves(s, before, c, x);
      UseIsRecorded(s, before, rows[n - 1], turns[n - 1], x);
      NextIncreasing(s, rows, n - 1, before, c, x, events);
    }
  }

  lemma NothingIncreasing(rank: Ranking)
    ensures Increasing(rank, [])
  {
  }

  /** In every cache state of a run over distinct rows, the entries stand in order of last use. */
  lemma OrderIsLastUse(s: Setup, rows: seq<Row>, turns: seq<Turn>, states: seq<seq<Entry>>, events: seq<Event>, n: nat, i: nat, j: nat)
    requires ValidConfig(s.config) && Ran(s, rows, turns, states, events) && n <= |events| && DistinctRows(rows)
    requires i < j < |states[n]|
    ensures LastUse(events, n, states[n][i].eventId) < LastUse(events, n, states[n][j].eventId)
  {
    IncreasingAlways(s, rows, turns, states, events, n);
    assert UseOf(events, n)(states[n][i].eventId) < UseOf(events, n)(states[n][j].eventId);
  }

  lemma SuffixRanksAbove(rank: Ranking, entries: seq<Entry>, m: nat, x: Entry, y: Entry)
    requires m <= |entries| && Increasing(rank, entries) && x in entries && x !in entries[m..] && y in entries[m..]
    ensures rank(x.eventId) < rank(y.eventId)
  {
    assert entries == entries[..m] + entries[m..];
    var i :| 0 <= i < m && entries[..m][i] == x;
    var j :| 0 <= j < |entries| - m && entries[m..][j] == y;
    assert rank(entries[i].eventId) < rank(entries[m + j].eventId);
  }

  /** Only a stored answer makes a live entry go. */
  lemma GoneIsEvicted(before: seq<Entry>, s: Setup, c: Call, x: Effect, gone: Entry)
    requires Moves(s, before, c, x) && gone in before && gone.expires > c.now && gone !in x.entries
    ensures x.outcome.Done? && x.outcome.result.stored && !x.outcome.result.status.Hit?
    ensures gone in Unexpired(before, c.now)
  {
    UnexpiredMembers(before, c.now);
    hide Unexpired, Promote, Sound;
    var live := Unexpired(before, c.now);
    assert gone in live;
    forall i | 0 <= i < |live|
      ensures gone in Promote(live, i)
    {
      PromoteFacts(s, live, i);
    }
  }

  /** Whatever unexpired entry a row makes go was last used before every entry that stays. */
  lemma EvictedWereUsedBefore(s: Setup, rows: seq<Row>, turns: seq<Turn>, states: seq<seq<Entry>>, events: seq<Event>, n: nat,
                              gone: Entry, kept: Entry)
    requires ValidConfig(s.config) && Ran(s, rows, turns, states, events) && n < |events| && DistinctRows(rows)
    requires gone in states[n] && gone.expires > turns[n].now && gone !in states[n + 1] && kept in states[n + 1]
    ensures events[n].stored && LastUse(events, n + 1, gone.eventId) < LastUse(events, n + 1, kept.eventId)
  {
    hide Increasing, Steps, Sound, AllBacked, EventOf, Moves, DistinctRows, StoredEarlier, Unexpired;
    IncreasingAlways(s, rows, turns, states, events, n);
    EntriesStoredEarlier(s, rows, turns, states, events, n);
    StatesAreBacked(s, rows, turns, states, events, n);
    assert Served(s, rows, turns, states, events, n);
    var before, c := states[n], CallOf(rows[n], turns[n]);
    var x :| Steps(s, before, c, x) && x.outcome != PausedRun && states[n + 1] == x.entries
             && events[n] == EventOf(rows[n], turns[n], x);
    StepMoves(s, before, c, x);
    UseIsRecorded(s, before, rows[n], turns[n], x);
    GoneIsEvicted(before, s, c, x, gone);
    var e, m := StoredSuffix(s, before, c, x);
    GrownIncreasing(rows, n, before, c.now, e, events);
    SuffixRanksAbove(UseOf(events, n + 1), Unexpired(before, c.now) + [e], m, gone, kept);
  }

  lemma StoredSuffix(s: Setup, before: seq<Entry>, c: Call, x: Effect) returns (e: Entry, m: nat)
    requires Moves(s, before, c, x) && x.outcome.Done? && x.outcome.result.stored
    ensures m <= |Unexpired(before, c.now)| + 1 && e.eventId == c.eventId && x.entries == (Unexpired(before, c.now) + [e])[m..]
  {
    hide Unexpired;
    e, m :| 0 <= m <= |Unexpired(before, c.now)| + 1 && e.eventId == c.eventId && x.entries == (Unexpired(before, c.now) + [e])[m..];
  }
}
