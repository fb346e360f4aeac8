/** The durable call journal: reservations, quotas, replay and the rate-limit block. */
module PilotJournal {
  import opened Basics

  const MINUTE: int := 60
  const DAY: int := 86400

  /** A finished attempt: the saved answer, or the error that is raised again on replay. */
  datatype Outcome = Answer(body: Json) | Fault(code: string, status: int)

  datatype Key = Key(run: string, ordinal: nat)

  /** A journal row. The request digest is injective, so the row keeps the request; no outcome means 'reserved'. */
  datatype Call = Call(request: Json, started: int, outcome: Option<Outcome>)

  type Calls = map<Key, Call>

  datatype Registration = Registration(fingerprint: string, maxCalls: nat)

  datatype Journal = Journal(runs: map<string, Registration>, calls: Calls, blockedUntil: int)

  const EMPTY_JOURNAL := Journal(map[], map[], 0)

  datatype Limits = Limits(run: string, maxCalls: nat, daily: nat, minute: nat) {
    predicate Valid() { 1 <= maxCalls <= 30 && 1 <= daily <= 40 && 1 <= minute <= 10 }
  }

  datatype Reason =
    | ReconstructionDiverged | UncertainAttempt | UpstreamRateLimit | RunBudgetExhausted
    | DailyQuota | MinuteQuota | JournalStateChanged | JournalUnavailable | AttemptFailed

  datatype Ticket = Fresh | Replay(outcome: Outcome) | Paused(reason: Reason, retryAt: Option<int>)

  function Midnight(now: int): (m: int)
    ensures m % DAY == 0 && m <= now < m + DAY
  {
    now - now % DAY
  }

  function OfRun(calls: Calls, run: string): set<Key> {
    set k | k in calls && k.run == run
  }

  function StartedFrom(calls: Calls, t: int): set<Key> {
    set k | k in calls && calls[k].started >= t
  }

  function StartedAfter(calls: Calls, t: int): set<Key> {
    set k | k in calls && calls[k].started > t
  }

  /** The first row of the query ordered by start time. */
  ghost function Oldest(calls: Calls, keys: set<Key>): (t: int)
    requires keys != {} && keys <= calls.Keys
    ensures exists k :: k in keys && calls[k].started == t
    ensures forall k :: k in keys ==> t <= calls[k].started
  {
    var k :| k in keys;
    var rest := keys - {k};
    assert keys == rest + {k};
    if rest == {} then calls[k].started
    else
      var t := Oldest(calls, rest);
      if calls[k].started <= t then calls[k].started else t
  }

  /** Opening a journal registers the run, or refuses a configuration that differs from the registered one. */
  function Register(j: Journal, run: string, fingerprint: string, maxCalls: nat): Option<Journal> {
    if run in j.runs then
      if j.runs[run] == Registration(fingerprint, maxCalls) then Some(j) else None
    else Some(j.(runs := j.runs[run := Registration(fingerprint, maxCalls)]))
  }

  ghost function Reserve(j: Journal, limits: Limits, ordinal: nat, request: Json, now: int): (Journal, Ticket) {
    var key := Key(limits.run, ordinal);
    var recent := StartedAfter(j.calls, now - MINUTE);
    if key in j.calls then
      var call := j.calls[key];
      (j, if call.request != request then Paused(ReconstructionDiverged, None)
          else if call.outcome.None? then Paused(UncertainAttempt, None)
          else Replay(call.outcome.value))
    else if j.blockedUntil > now then (j, Paused(UpstreamRateLimit, Some(j.blockedUntil)))
    else if |OfRun(j.calls, limits.run)| >= limits.maxCalls then (j, Paused(RunBudgetExhausted, None))
    else if |StartedFrom(j.calls, Midnight(now))| >= limits.daily then (j, Paused(DailyQuota, Some(Midnight(now) + DAY)))
    else if recent != {} && |recent| >= limits.minute then (j, Paused(MinuteQuota, Some(Oldest(j.calls, recent) + MINUTE)))
    else (j.(calls := j.calls[key := Call(request, now, None)]), Fresh)
  }

  /** The guarded UPDATE of `finish`: only a reserved row takes an outcome. */
  function Finish(j: Journal, run: string, ordinal: nat, outcome: Outcome): (Journal, bool) {
    var key := Key(run, ordinal);
    if key in j.calls && j.calls[key].outcome.None?
    then (j.(calls := j.calls[key := j.calls[key].(outcome := Some(outcome))]), true)
    else (j, false)
  }

  function Block(j: Journal, now: int): Journal {
    var nextDay := Midnight(now) + DAY;
    j.(blockedUntil := if j.blockedUntil >= nextDay then j.blockedUntil else nextDay)
  }

  // ----- the classes of the source -----

  class JournalDatabase {
    var journal: Journal

    constructor ()
      ensures journal == EMPTY_JOURNAL
    {
      journal := EMPTY_JOURNAL;
    }
  }

  class RunJournal {
    const database: JournalDatabase
    const limits: Limits

    constructor (database: JournalDatabase, limits: Limits)
      requires limits.Valid()
      ensures this.database == database && this.limits == limits
    {
      this.database, this.limits := database, limits;
    }

    method ReserveCall(ordinal: nat, request: Json, now: int) returns (ticket: Ticket)
      requires limits.Valid()
      modifies database
      ensures (database.journal, ticket) == Reserve(old(database.journal), limits, ordinal, request, now)
    {
      var key, calls := Key(limits.run, ordinal), database.journal.calls;
      if key in calls {
        var existing := calls[key];
        if existing.request != request {
          return Paused(ReconstructionDiverged, None);
        }
        if existing.outcome.None? {
          return Paused(UncertainAttempt, None);
        }
        return Replay(existing.outcome.value);
      }
      if database.journal.blockedUntil > now {
        return Paused(UpstreamRateLimit, Some(database.journal.blockedUntil));
      }
      if |OfRun(calls, limits.run)| >= limits.maxCalls {
        return Paused(RunBudgetExhausted, None);
      }
      var midnight := Midnight(now);
      if |StartedFrom(calls, midnight)| >= limits.daily {
        return Paused(DailyQuota, Some(midnight + DAY));
      }
      var recent := StartedAfter(calls, now - MINUTE);
      if |recent| >= limits.minute {
        var first := FirstStarted(calls, recent);
        return Paused(MinuteQuota, Some(first + MINUTE));
      }
      database.journal := database.journal.(calls := calls[key := Call(request, now, None)]);
      return Fresh;
    }

    static method FirstStarted(calls: Calls, keys: set<Key>) returns (t: int)
      requires keys != {} && keys <= calls.Keys
      ensures t == Oldest(calls, keys)
    {
      var k :| k in keys;
      t := calls[k].started;
      var rest := keys - {k};
      while rest != {}
        invariant rest <= keys
        invariant exists k :: k in keys && calls[k].started == t
        invariant forall k :: k in keys - rest ==> t <= calls[k].started
        decreases |rest|
      {
        var next :| next in rest;
        if calls[next].started < t {
          t := calls[next].started;
        }
        rest := rest - {next};
      }
    }

    method FinishCall(ordinal: nat, outcome: Outcome) returns (changed: bool)
      modifies database
      ensures (database.journal, changed) == Finish(old(database.journal), limits.run, ordinal, outcome)
    {
      var key, calls := Key(limits.run, ordinal), database.journal.calls;
      changed := key in calls && calls[key].outcome.None?;
      if changed {
        database.journal := database.journal.(calls := calls[key := calls[key].(outcome := Some(outcome))]);
      }
    }

    method BlockRateLimit(now: int) returns (until: int)
      modifies database
      ensures database.journal == Block(old(database.journal), now) && until == Midnight(now) + DAY
    {
      until := Midnight(now) + DAY;
      if database.journal.blockedUntil < until {
        database.journal := database.journal.(blockedUntil := until);
      }
    }
  }

  /** What a caller of the journaling provider gets. */
  datatype Seen = Response(body: Json) | ProviderError(code: string, status: int) | RunPaused(reason: Reason, retryAt: Option<int>)

  class JournaledProvider {
    const journal: RunJournal
    var ordinal: nat
    var newCalls: nat
    var replayedCalls: nat

    constructor (journal: RunJournal)
      ensures this.journal == journal && ordinal == newCalls == replayedCalls == 0
    {
      this.journal := journal;
      ordinal, newCalls, replayedCalls := 0, 0, 0;
    }

    /**
     * One call: `now` is read when reserving, `reply` is what the network would return, `later` is read if the
     * upstream limits the rate. The network is used exactly for a fresh reservation.
     */
    method CallProvider(request: Json, now: int, reply: Outcome, later: int) returns (seen: Seen, sent: bool)
      requires journal.limits.Valid()
      modifies this`ordinal, this`newCalls, this`replayedCalls, journal.database
      ensures ordinal == old(ordinal) + 1
      ensures var (reserved, ticket) := Reserve(old(journal.database.journal), journal.limits, old(ordinal), request, now);
        match ticket
        case Paused(reason, retryAt) =>
          && journal.database.journal == reserved && seen == RunPaused(reason, retryAt) && !sent
          && newCalls == old(newCalls) && replayedCalls == old(replayedCalls)
        case Replay(outcome) =>
          && journal.database.journal == old(journal.database.journal) && !sent
          && newCalls == old(newCalls) && replayedCalls == old(replayedCalls) + 1
          && seen == (match outcome case Answer(body) => Response(body) case Fault(code, status) => ProviderError(code, status))
        case Fresh =>
          var finished := Finish(reserved, journal.limits.run, old(ordinal), reply).0;
          && sent && newCalls == old(newCalls) + 1 && replayedCalls == old(replayedCalls)
          && match reply
             case Answer(body) => journal.database.journal == finished && seen == Response(body)
             case Fault(code, _) =>
               if code == "upstream_rate_limited"
               then journal.database.journal == Block(finished, later) && seen == RunPaused(UpstreamRateLimit, Some(Midnight(later) + DAY))
               else journal.database.journal == finished && seen == RunPaused(AttemptFailed, None)
    {
      var mine := ordinal;
      ordinal := ordinal + 1;
      var ticket := journal.ReserveCall(mine, request, now);
      sent := false;
      match ticket {
        case Paused(reason, retryAt) =>
          seen := RunPaused(reason, retryAt);
        case Replay(outcome) =>
          replayedCalls := replayedCalls + 1;
          seen := Raise(outcome);
        case Fresh =>
          newCalls := newCalls + 1;
          sent := true;
          var changed := journal.FinishCall(mine, reply);
          match reply {
            case Answer(body) =>
              seen := Response(body);
            case Fault(code, _) =>
              if code == "upstream_rate_limited" {
                var until := journal.BlockRateLimit(later);
                seen := RunPaused(UpstreamRateLimit, Some(until));
              } else {
                seen := RunPaused(AttemptFailed, None);
              }
          }
      }
    }
  }

  function Raise(outcome: Outcome): Seen {
    match outcome
    case Answer(body) => Response(body)
    case Fault(code, status) => ProviderError(code, status)
  }

  // ----- quotas -----

  /** The calls started in the 60 seconds ending at, and including, `end`. */
  function MinuteWindow(calls: Calls, end: int): set<Key> {
    set k | k in calls && end - MINUTE < calls[k].started <= end
  }

  function DayWindow(calls: Calls, midnight: int): set<Key> {
    set k | k in calls && midnight <= calls[k].started < midnight + DAY
  }

  /** Every 60-second window, every UTC day and every run stays within its cap. */
  ghost predicate WithinQuotas(j: Journal, daily: nat, minute: nat) {
    && (forall end :: |MinuteWindow(j.calls, end)| <= minute)
    && (forall day :: day % DAY == 0 ==> |DayWindow(j.calls, day)| <= daily)
    && (forall k :: k in j.calls ==> k.run in j.runs)
    && (forall run :: run in j.runs ==> |OfRun(j.calls, run)| <= j.runs[run].maxCalls)
  }

  /** A new row enlarges a selection by itself or not at all. */
  lemma InsertedSelection(calls: Calls, key: Key, call: Call, before: set<Key>, after: set<Key>, selected: bool)
    requires key !in calls && before <= calls.Keys
    requires forall k :: k in after <==> (k in before || (k == key && selected))
    ensures |after| == |before| + if selected then 1 else 0
  {
    assert after == before + if selected then {key} else {};
  }

  /** Reservations keep all three quotas whatever the clock reads, for any caps at least the instance's own. */
  lemma ReserveKeepsQuotas(j: Journal, limits: Limits, ordinal: nat, request: Json, now: int, daily: nat, minute: nat)
    requires WithinQuotas(j, daily, minute)
    requires limits.Valid() && limits.daily <= daily && limits.minute <= minute
    requires limits.run in j.runs && j.runs[limits.run].maxCalls == limits.maxCalls
    ensures WithinQuotas(Reserve(j, limits, ordinal, request, now).0, daily, minute)
  {
    var (next, ticket) := Reserve(j, limits, ordinal, request, now);
    if ticket.Fresh? {
      var key, call := Key(limits.run, ordinal), Call(request, now, None);
      forall end
        ensures |MinuteWindow(next.calls, end)| <= minute
      {
        InsertedSelection(j.calls, key, call, MinuteWindow(j.calls, end), MinuteWindow(next.calls, end), end - MINUTE < now <= end);
        if end - MINUTE < now <= end {
          SubsetSize(MinuteWindow(j.calls, end), StartedAfter(j.calls, now - MINUTE));
        }
      }
      forall day | day % DAY == 0
        ensures |DayWindow(next.calls, day)| <= daily
      {
        InsertedSelection(j.calls, key, call, DayWindow(j.calls, day), DayWindow(next.calls, day), day <= now < day + DAY);
        if day <= now < day + DAY {
          assert day == Midnight(now);
          SubsetSize(DayWindow(j.calls, day), StartedFrom(j.calls, Midnight(now)));
        }
      }
      forall run | run in j.runs
        ensures |OfRun(next.calls, run)| <= j.runs[run].maxCalls
      {
        InsertedSelection(j.calls, key, call, OfRun(j.calls, run), OfRun(next.calls, run), run == limits.run);
      }
    }
  }

  /** Recording an outcome starts nothing, so it moves no window. */
  lemma FinishKeepsQuotas(j: Journal, run: string, ordinal: nat, outcome: Outcome, daily: nat, minute: nat)
    requires WithinQuotas(j, daily, minute)
    ensures WithinQuotas(Finish(j, run, ordinal, outcome).0, daily, minute)
  {
    var next := Finish(j, run, ordinal, outcome).0;
    forall end
      ensures |MinuteWindow(next.calls, end)| <= minute
    {
      assert MinuteWindow(next.calls, end) == MinuteWindow(j.calls, end);
    }
    forall day | day % DAY == 0
      ensures |DayWindow(next.calls, day)| <= daily
    {
      assert DayWindow(next.calls, day) == DayWindow(j.calls, day);
    }
    forall r | r in j.runs
      ensures |OfRun(next.calls, r)| <= j.runs[r].maxCalls
    {
      assert OfRun(next.calls, r) == OfRun(j.calls, r);
    }
  }

  lemma RegisterKeepsQuotas(j: Journal, run: string, fingerprint: string, maxCalls: nat, daily: nat, minute: nat)
    requires WithinQuotas(j, daily, minute) && Register(j, run, fingerprint, maxCalls).Some?
    ensures WithinQuotas(Register(j, run, fingerprint, maxCalls).value, daily, minute)
  {
    if run !in j.runs {
      assert OfRun(j.calls, run) == {};
    }
  }

  // ----- the retry time of the minute quota -----

  predicate MinuteCheckPasses(calls: Calls, minute: nat, t: int) {
    |StartedAfter(calls, t - MINUTE)| < minute
  }

  /** The clock has never run backwards past `now`. */
  predicate NothingInFuture(calls: Calls, now: int) {
    forall k :: k in calls ==> calls[k].started <= now
  }

  /** Without new calls the minute check fails at every moment before the announced retry time. */
  lemma RetryIsNotEarly(calls: Calls, minute: nat, now: int, t: int)
    requires minute >= 1 && !MinuteCheckPasses(calls, minute, now)
    requires StartedAfter(calls, now - MINUTE) != {}
    requires t < Oldest(calls, StartedAfter(calls, now - MINUTE)) + MINUTE
    ensures !MinuteCheckPasses(calls, minute, t)
  {
    SubsetSize(StartedAfter(calls, now - MINUTE), StartedAfter(calls, t - MINUTE));
  }

  /** If the clock never ran backwards and all callers share the limit, the retry time passes the check. */
  lemma RetryIsExact(j: Journal, daily: nat, minute: nat, now: int)
    requires WithinQuotas(j, daily, minute) && minute >= 1 && NothingInFuture(j.calls, now)
    requires !MinuteCheckPasses(j.calls, minute, now)
    ensures StartedAfter(j.calls, now - MINUTE) != {}
    ensures MinuteCheckPasses(j.calls, minute, Oldest(j.calls, StartedAfter(j.calls, now - MINUTE)) + MINUTE)
  {
    var recent := StartedAfter(j.calls, now - MINUTE);
    assert recent == MinuteWindow(j.calls, now);
    var first := Oldest(j.calls, recent);
    var k :| k in recent && j.calls[k].started == first;
    assert StartedAfter(j.calls, first) <= recent - {k};
    SubsetSize(StartedAfter(j.calls, first), recent - {k});
  }

  /** What a refusal by the minute quota announces is, under those conditions, the earliest time the check passes. */
  lemma RetryIsEarliest(j: Journal, limits: Limits, ordinal: nat, request: Json, now: int, t: int, daily: nat)
    requires WithinQuotas(j, daily, limits.minute) && limits.minute >= 1 && NothingInFuture(j.calls, now)
    requires Reserve(j, limits, ordinal, request, now).1 == Paused(MinuteQuota, Some(t))
    ensures MinuteCheckPasses(j.calls, limits.minute, t)
    ensures forall u :: MinuteCheckPasses(j.calls, limits.minute, u) ==> t <= u
  {
    RetryIsExact(j, daily, limits.minute, now);
    forall u | u < t
      ensures !MinuteCheckPasses(j.calls, limits.minute, u)
    {
      RetryIsNotEarly(j.calls, limits.minute, now, u);
    }
  }

  /**
   * In general, whatever the clock did: the announced time works exactly when fewer than `minute` of the recent
   * rows are left once those sharing the oldest start are dropped. Both numbers come from the rows, ordered by
   * start, that the refused check has already read.
   */
  lemma RetryPassesIff(calls: Calls, minute: nat, now: int)
    requires minute >= 1 && !MinuteCheckPasses(calls, minute, now)
    requires StartedAfter(calls, now - MINUTE) != {}
    ensures var recent := StartedAfter(calls, now - MINUTE);
      var ties := set k | k in recent && calls[k].started == Oldest(calls, recent);
      MinuteCheckPasses(calls, minute, Oldest(calls, recent) + MINUTE) <==> |recent| - |ties| < minute
  {
    var recent := StartedAfter(calls, now - MINUTE);
    var ties := set k | k in recent && calls[k].started == Oldest(calls, recent);
    assert StartedAfter(calls, Oldest(calls, recent)) == recent - ties;
    assert |recent - ties| == |recent| - |ties|;
  }

  const STEP_LIMITS := Limits("r", 30, 40, 1)

  /** One reservation of the example: rows other than those named in the queries do not matter to it. */
  lemma ReserveUnderOne(j: Journal, ordinal: nat, now: int, run: set<Key>, today: set<Key>, recent: set<Key>)
    requires Key("r", ordinal) !in j.calls && j.blockedUntil <= now
    requires OfRun(j.calls, "r") == run && |run| < 30
    requires StartedFrom(j.calls, Midnight(now)) == today && |today| < 40
    requires StartedAfter(j.calls, now - MINUTE) == recent
    ensures Reserve(j, STEP_LIMITS, ordinal, Null, now) == if recent == {}
      then (j.(calls := j.calls[Key("r", ordinal) := Call(Null, now, None)]), Fresh)
      else (j, Paused(MinuteQuota, Some(Oldest(j.calls, recent) + MINUTE)))
  {
    assert recent != {} ==> |recent| >= 1;
  }

  /**
   * A clock that steps back from 2000 to 0 after two reservations under a limit of one per minute: the refusal
   * at 0 announces 1060, and at 1060 the same request is refused again, until 2060.
   */
  lemma RetryTooEarlyAfterClockStep()
    ensures STEP_LIMITS.Valid() && Register(EMPTY_JOURNAL, "r", "f", 30).Some?
    ensures var empty := Register(EMPTY_JOURNAL, "r", "f", 30).value;
      var (one, first) := Reserve(empty, STEP_LIMITS, 0, Null, 1000);
      var (two, second) := Reserve(one, STEP_LIMITS, 1, Null, 2000);
      && first == Fresh && second == Fresh
      && Reserve(two, STEP_LIMITS, 2, Null, 0) == (two, Paused(MinuteQuota, Some(1060)))
      && Reserve(two, STEP_LIMITS, 2, Null, 1060) == (two, Paused(MinuteQuota, Some(2060)))
  {
    hide Reserve;
    var empty, a, b := Register(EMPTY_JOURNAL, "r", "f", 30).value, Key("r", 0), Key("r", 1);
    var one := empty.(calls := map[a := Call(Null, 1000, None)]);
    var two := empty.(calls := map[a := Call(Null, 1000, None), b := Call(Null, 2000, None)]);
    ReserveUnderOne(empty, 0, 1000, {}, {}, {});
    assert empty.calls[a := Call(Null, 1000, None)] == one.calls;
    ReserveUnderOne(one, 1, 2000, {a}, {a}, {});
    assert one.calls[b := Call(Null, 2000, None)] == two.calls;
    ReserveUnderOne(two, 2, 0, {a, b}, {a, b}, {a, b});
    ReserveUnderOne(two, 2, 1060, {a, b}, {a, b}, {b});
    assert Oldest(two.calls, {a, b}) == 1000 && Oldest(two.calls, {b}) == 2000;
  }
}
