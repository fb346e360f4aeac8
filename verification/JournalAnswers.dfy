/** What callers of the journal are told: whose answer, why a pause, until when. */
module JournalAnswers {
  import opened Basics
  import opened PilotJournal
  import opened JournalProtocol

  // ----- an answer belongs to the request -----

  /** The call the session at `p` started at ordinal `k` of this run with this request: where it has got to. */
  ghost predicate Concerns(s: Sys, p: nat, run: string, k: nat, request: Json) {
    && p in s.sessions && s.sessions[p].limits.run == run
    && (s.sessions[p].ordinal > k || (s.sessions[p].ordinal == k && s.sessions[p].phase != Idle))
    && (k in s.sessions[p].seen || s.sessions[p].ordinal == k ==>
          Key(run, k) in s.journal.calls && s.journal.calls[Key(run, k)].request == request)
  }

  lemma AskConcerns(s: Sys, a: Action)
    requires Allowed(s, a) && a.Ask? && Faithful(s.journal.calls, s.sessions[a.proc])
    ensures var session := s.sessions[a.proc]; Concerns(Next(s, a), a.proc, session.limits.run, session.ordinal, a.request)
  {
  }

  lemma StepConcerns(s: Sys, a: Action, p: nat, run: string, k: nat, request: Json)
    requires Allowed(s, a) && a != Crash(p) && Concerns(s, p, run, k, request)
    ensures Concerns(Next(s, a), p, run, k, request)
  {
    NextExtends(s, a);
  }

  lemma {:induction false} StillConcerns(states: seq<Sys>, actions: seq<Action>, m: nat, i: nat)
    requires Behaviour(states, actions) && m < i < |states| && actions[m].Ask?
    requires forall j :: m < j < i ==> actions[j] != Crash(actions[m].proc)
    ensures var a, session := actions[m], states[m].sessions[actions[m].proc];
      Concerns(states[i], a.proc, session.limits.run, session.ordinal, a.request)
  {
    hide Concerns, Next;
    if i == m + 1 {
      SessionAlways(states, actions, m, actions[m].proc);
      AskConcerns(states[m], actions[m]);
    } else {
      StillConcerns(states, actions, m, i - 1);
      var session := states[m].sessions[actions[m].proc];
      StepConcerns(states[i - 1], actions[i - 1], actions[m].proc, session.limits.run, session.ordinal, actions[m].request);
    }
  }

  /**
   * Whatever callers ask: the outcome a session is shown for a call it made is the one saved for exactly the request
   * it made there, by whichever session attempted it.
   */
  lemma ShownAnswersTheRequest(states: seq<Sys>, actions: seq<Action>, m: nat, i: nat)
    requires Behaviour(states, actions) && m < i < |states| && actions[m].Ask?
    requires forall j :: m < j < i ==> actions[j] != Crash(actions[m].proc)
    ensures var p, k := actions[m].proc, states[m].sessions[actions[m].proc].ordinal;
      var key := Key(states[m].sessions[p].limits.run, k);
      && p in states[i].sessions
      && (k in states[i].sessions[p].seen ==>
            && key in states[i].journal.calls && states[i].journal.calls[key].request == actions[m].request
            && states[i].journal.calls[key].outcome == Some(states[i].sessions[p].seen[k]))
  {
    StillConcerns(states, actions, m, i);
    SessionAlways(states, actions, i, actions[m].proc);
    hide Behaviour;
  }

  /** Another request than the journal has at this place changes nothing but that the session is told of the divergence. */
  lemma DivergenceIsTold(states: seq<Sys>, actions: seq<Action>, i: nat)
    requires Behaviour(states, actions) && i < |actions| && actions[i].Ask?
    requires var session := states[i].sessions[actions[i].proc]; var key := Key(session.limits.run, session.ordinal);
      key in states[i].journal.calls && states[i].journal.calls[key].request != actions[i].request
    ensures var p := actions[i].proc; var before, after := states[i].sessions[p], states[i + 1].sessions[p];
      && states[i + 1].journal == states[i].journal && states[i + 1].network == states[i].network
      && states[i + 1].sessions == states[i].sessions[p := after]
      && after == before.(ordinal := before.ordinal + 1,
                          paused := before.paused[before.ordinal := Notice(ReconstructionDiverged, None)])
  {
  }

  /** The same request again is answered from the journal, or, if its outcome was never saved, left to a person. */
  lemma KnownCallIsTold(states: seq<Sys>, actions: seq<Action>, i: nat)
    requires Behaviour(states, actions) && i < |actions| && actions[i].Ask?
    requires var session := states[i].sessions[actions[i].proc]; var key := Key(session.limits.run, session.ordinal);
      key in states[i].journal.calls && states[i].journal.calls[key].request == actions[i].request
    ensures var p := actions[i].proc; var before, after := states[i].sessions[p], states[i + 1].sessions[p];
      var outcome := states[i].journal.calls[Key(before.limits.run, before.ordinal)].outcome;
      var moved := before.(ordinal := before.ordinal + 1);
      && states[i + 1].journal == states[i].journal && states[i + 1].network == states[i].network
      && states[i + 1].sessions == states[i].sessions[p := after]
      && after == if outcome.Some?
        then moved.(seen := before.seen[before.ordinal := outcome.value], replayedCalls := before.replayedCalls + 1)
        else moved.(paused := before.paused[before.ordinal := Notice(UncertainAttempt, None)])
  {
  }

  // ----- a new call: when it is let through, and until when it is not -----

  ghost predicate AsksNew(s: Sys, a: Action) {
    a.Ask? && a.proc in s.sessions && Key(s.sessions[a.proc].limits.run, s.sessions[a.proc].ordinal) !in s.journal.calls
  }

  /** A new call is reserved, exactly as asked, when nothing blocks it and all three counts are below the limits. */
  lemma ReservedIff(states: seq<Sys>, actions: seq<Action>, i: nat)
    requires Behaviour(states, actions) && i < |actions| && AsksNew(states[i], actions[i])
    ensures var s, a, next := states[i], actions[i], states[i + 1];
      var calls, session := s.journal.calls, s.sessions[a.proc];
      var key := Key(session.limits.run, session.ordinal);
      var ofRun := set k | k in calls && k.run == session.limits.run;
      var today := set k | k in calls && calls[k].started >= a.now - a.now % 86400;
      var recent := set k | k in calls && calls[k].started > a.now - 60;
      if s.journal.blockedUntil <= a.now && |ofRun| < session.limits.maxCalls && |today| < session.limits.daily
         && |recent| < session.limits.minute
      then next.journal == s.journal.(calls := calls[key := Call(a.request, a.now, None)])
           && next.sessions == s.sessions[a.proc := session.(phase := Calling, newCalls := session.newCalls + 1)]
      else next.journal == s.journal && session.ordinal in next.sessions[a.proc].paused
           && next.sessions[a.proc].ordinal == session.ordinal + 1 && next.sessions[a.proc].seen == session.seen
  {
    var s, a := states[i], actions[i];
    SessionAlways(states, actions, i, a.proc);
    var calls := s.journal.calls;
    assert StartedFrom(calls, Midnight(a.now)) == set k | k in calls && calls[k].started >= a.now - a.now % 86400;
    assert StartedAfter(calls, a.now - MINUTE) == set k | k in calls && calls[k].started > a.now - 60;
    assert OfRun(calls, s.sessions[a.proc].limits.run) == set k | k in calls && k.run == s.sessions[a.proc].limits.run;
  }

  /** What the session is told if it asks this at time `t` instead. */
  ghost function NoticeAt(s: Sys, a: Action, t: int): Option<Notice>
    requires Allowed(s, a) && a.Ask?
  {
    var next, k := Next(s, a.(now := t)).sessions[a.proc], s.sessions[a.proc].ordinal;
    if next.ordinal == k + 1 && k in next.paused then Some(next.paused[k]) else None
  }

  /** A refused new call is refused at every moment until the announced time. */
  lemma RefusedUntil(j: Journal, limits: Limits, ordinal: nat, request: Json, now: int, t: int, u: int)
    requires limits.Valid() && Key(limits.run, ordinal) !in j.calls && now <= u < t
    requires var ticket := Reserve(j, limits, ordinal, request, now).1; ticket.Paused? && ticket.retryAt == Some(t)
    ensures Reserve(j, limits, ordinal, request, u).1.Paused?
  {
    var ticket := Reserve(j, limits, ordinal, request, now).1;
    if ticket.reason == DailyQuota {
      assert Midnight(u) == Midnight(now);
    } else if ticket.reason == MinuteQuota {
      RetryIsNotEarly(j.calls, limits.minute, now, u);
    }
  }

  lemma RefusalEnds(j: Journal, limits: Limits, ordinal: nat, request: Json, now: int, t: int)
    requires limits.Valid() && Key(limits.run, ordinal) !in j.calls
    requires var ticket := Reserve(j, limits, ordinal, request, now).1; ticket.Paused? && ticket.retryAt == Some(t)
    ensures t > now
    ensures var first, later := Reserve(j, limits, ordinal, request, now).1, Reserve(j, limits, ordinal, request, t).1;
      && (first.reason == UpstreamRateLimit && later.Paused? ==> later.reason != UpstreamRateLimit)
      && (first.reason == DailyQuota && NothingInFuture(j.calls, now) && later.Paused? ==> later.reason != DailyQuota)
  {
    if NothingInFuture(j.calls, now) && Reserve(j, limits, ordinal, request, now).1.reason == DailyQuota {
      assert StartedFrom(j.calls, Midnight(t)) == {};
    }
  }

  /**
   * Every announced retry time lies in the future, and until then the call is refused whenever it is asked. At that
   * time an upstream block has ended, and so has a daily quota unless calls are dated in the future.
   */
  lemma RetryTimesHold(states: seq<Sys>, actions: seq<Action>, i: nat, t: int)
    requires Behaviour(states, actions) && i < |actions| && AsksNew(states[i], actions[i])
    requires var told := NoticeAt(states[i], actions[i], actions[i].now); told.Some? && told.value.retryAt == Some(t)
    ensures t > actions[i].now
    ensures forall u :: actions[i].now <= u < t ==> NoticeAt(states[i], actions[i], u).Some?
    ensures var told, later := NoticeAt(states[i], actions[i], actions[i].now), NoticeAt(states[i], actions[i], t);
      && (told.value.reason == UpstreamRateLimit && later.Some? ==> later.value.reason != UpstreamRateLimit)
      && (told.value.reason == DailyQuota && NothingInFuture(states[i].journal.calls, actions[i].now) && later.Some? ==>
            later.value.reason != DailyQuota)
  {
    var s, a := states[i], actions[i];
    SessionAlways(states, actions, i, a.proc);
    var session := s.sessions[a.proc];
    assert session.limits.Valid();
    hide Behaviour, NoticeAt, SessionInv, Reserve, NothingInFuture;
    NoticeIsTicket(s, a, a.now);
    NoticeIsTicket(s, a, t);
    RefusalEnds(s.journal, session.limits, session.ordinal, a.request, a.now, t);
    forall u | a.now <= u < t
      ensures NoticeAt(s, a, u).Some?
    {
      NoticeIsTicket(s, a, u);
      RefusedUntil(s.journal, session.limits, session.ordinal, a.request, a.now, t, u);
    }
  }

  lemma NoticeIsTicket(s: Sys, a: Action, t: int)
    requires Allowed(s, a) && AsksNew(s, a)
    requires Faithful(s.journal.calls, s.sessions[a.proc])
    ensures var session := s.sessions[a.proc];
      NoticeAt(s, a, t) == match Reserve(s.journal, session.limits, session.ordinal, a.request, t).1
        case Paused(reason, retryAt) => Some(Notice(reason, retryAt)) case _ => None
  {
  }

  lemma {:induction false} BlocksGrow(states: seq<Sys>, actions: seq<Action>, i: nat, j: nat)
    requires Behaviour(states, actions) && i <= j < |states|
    ensures states[i].journal.blockedUntil <= states[j].journal.blockedUntil
  {
    if i < j {
      BlocksGrow(states, actions, i, j - 1);
      assert Allowed(states[j - 1], actions[j - 1]) && states[j] == Next(states[j - 1], actions[j - 1]);
    }
  }

  /** After a rate limit of the provider no session of any run starts a new call on that UTC day. */
  lemma BlockHolds(states: seq<Sys>, actions: seq<Action>, i: nat, j: nat)
    requires Behaviour(states, actions) && i < j < |actions| && actions[i].BlockUpstream?
    requires actions[j].Ask? && actions[j].now < actions[i].now - actions[i].now % 86400 + 86400
    ensures states[j + 1].journal == states[j].journal
    ensures AsksNew(states[j], actions[j]) ==> var told := NoticeAt(states[j], actions[j], actions[j].now);
      told.Some? && told.value.reason == UpstreamRateLimit && told.value.retryAt.Some? && told.value.retryAt.value > actions[j].now
  {
    BlocksGrow(states, actions, i + 1, j);
    SessionAlways(states, actions, j, actions[j].proc);
    if AsksNew(states[j], actions[j]) {
      NoticeIsTicket(states[j], actions[j], actions[j].now);
    }
  }

  ghost predicate RunsInRange(j: Journal) {
    forall run :: run in j.runs ==> 1 <= j.runs[run].maxCalls <= 30
  }

  lemma StepKeepsRange(s: Sys, a: Action)
    requires Allowed(s, a) && RunsInRange(s.journal)
    ensures RunsInRange(Next(s, a).journal)
  {
  }

  lemma {:induction false} RangeAlways(states: seq<Sys>, actions: seq<Action>, i: nat)
    requires Behaviour(states, actions) && i < |states|
    ensures RunsInRange(states[i].journal)
  {
    hide Next, Allowed, RunsInRange;
    if i == 0 {
      assert RunsInRange(EMPTY_JOURNAL) by {
        NoRuns();
      }
    } else {
      RangeAlways(states, actions, i - 1);
      StepKeepsRange(states[i - 1], actions[i - 1]);
    }
  }

  lemma NoRuns()
    ensures RunsInRange(EMPTY_JOURNAL)
  {
  }

  /** In numbers: at most 30 calls per run, 40 per UTC day and 10 in any 60 seconds, whatever was configured. */
  lemma CapsInNumbers(states: seq<Sys>, actions: seq<Action>, i: nat, run: string, t: int)
    requires Behaviour(states, actions) && i < |states|
    ensures var calls := states[i].journal.calls;
      && |set k | k in calls && k.run == run| <= 30
      && |set k | k in calls && t - t % 86400 <= calls[k].started < t - t % 86400 + 86400| <= 40
      && |set k | k in calls && t - 60 < calls[k].started <= t| <= 10
  {
    RangeAlways(states, actions, i);
    HardCapsAlwaysHold(states, actions, i);
    hide Behaviour;
    var calls := states[i].journal.calls;
    assert OfRun(calls, run) == set k | k in calls && k.run == run;
    assert DayWindow(calls, Midnight(t)) == set k | k in calls && t - t % 86400 <= calls[k].started < t - t % 86400 + 86400;
    assert MinuteWindow(calls, t) == set k | k in calls && t - 60 < calls[k].started <= t;
    if run !in states[i].journal.runs {
      assert OfRun(calls, run) == {};
    }
  }
}
