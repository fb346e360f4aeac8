/** Any sessions of any runs over one journal, with crashes at every point. */
module JournalProtocol {
  import opened Basics
  import opened PilotJournal

  datatype Phase = Idle | Calling | Sent(outcome: Outcome) | Blocking

  /** A pause as its caller learns of it. */
  datatype Notice = Notice(reason: Reason, retryAt: Option<int>)

  /**
   * A journaling provider in the hands of any caller, who may ask anything, go on after a pause, or give a call up.
   * `ordinal` is that of the call under way, or else of the next one; `seen` and `paused` are what the caller got, by
   * ordinal: an outcome or a pause.
   */
  datatype Session = Session(limits: Limits, ordinal: nat, seen: map<nat, Outcome>, paused: map<nat, Notice>, phase: Phase,
                             newCalls: nat, replayedCalls: nat)

  /** `network` lists every attempt that left the process. */
  datatype Sys = Sys(journal: Journal, sessions: map<nat, Session>, network: seq<Key>)

  /** `Skip`: the call under way ends in a pause without a further write, as when the journal cannot be written. */
  datatype Action =
    | Open(proc: nat, limits: Limits, fingerprint: string)
    | Ask(proc: nat, now: int, request: Json)
    | Send(proc: nat, outcome: Outcome)
    | Record(proc: nat)
    | BlockUpstream(proc: nat, now: int)
    | Skip(proc: nat)
    | Crash(proc: nat)

  const START := Sys(EMPTY_JOURNAL, map[], [])

  function CurrentKey(s: Session): Key {
    Key(s.limits.run, s.ordinal)
  }

  function InFlight(s: Session): bool {
    s.phase.Calling? || s.phase.Sent?
  }

  const RATE_LIMITED := "upstream_rate_limited"

  ghost predicate Allowed(s: Sys, a: Action) {
    match a
    case Open(proc, limits, fingerprint) =>
      proc !in s.sessions && limits.Valid() && Register(s.journal, limits.run, fingerprint, limits.maxCalls).Some?
    case Ask(proc, _, _) => proc in s.sessions && s.sessions[proc].phase == Idle
    case Send(proc, _) => proc in s.sessions && s.sessions[proc].phase == Calling
    case Record(proc) => proc in s.sessions && s.sessions[proc].phase.Sent?
    case BlockUpstream(proc, _) => proc in s.sessions && s.sessions[proc].phase == Blocking
    case Skip(proc) => proc in s.sessions
    case Crash(proc) => proc in s.sessions
  }

  /** The provider is ready for its next ordinal. */
  function MovedOn(s: Session): Session {
    s.(ordinal := s.ordinal + 1, phase := Idle)
  }

  function Shown(s: Session, outcome: Outcome): Session {
    MovedOn(s).(seen := s.seen[s.ordinal := outcome])
  }

  function PausedBy(s: Session, reason: Reason, retryAt: Option<int>): Session {
    MovedOn(s).(paused := s.paused[s.ordinal := Notice(reason, retryAt)])
  }

  function Replayed(s: Session, outcome: Outcome): Session {
    Shown(s, outcome).(replayedCalls := s.replayedCalls + 1)
  }

  function Started(s: Session): Session {
    s.(phase := Calling, newCalls := s.newCalls + 1)
  }

  ghost function AfterAsk(s: Sys, proc: nat, now: int, request: Json): Sys
    requires proc in s.sessions
  {
    var session := s.sessions[proc];
    var (journal, ticket) := Reserve(s.journal, session.limits, session.ordinal, request, now);
    var next := match ticket
      case Fresh => Started(session)
      case Replay(outcome) => Replayed(session, outcome)
      case Paused(reason, retryAt) => PausedBy(session, reason, retryAt);
    s.(journal := journal, sessions := s.sessions[proc := next])
  }

  /** The session once its outcome was written: an answer is shown, a failure pauses, a rate limit blocks first. */
  function Told(s: Session, outcome: Outcome): Session {
    if outcome.Answer? then Shown(s, outcome)
    else if outcome.code == RATE_LIMITED then s.(phase := Blocking)
    else PausedBy(s, AttemptFailed, None)
  }

  ghost function AfterRecord(s: Sys, proc: nat): Sys
    requires proc in s.sessions && s.sessions[proc].phase.Sent?
  {
    var session := s.sessions[proc];
    var outcome := session.phase.outcome;
    var (journal, changed) := Finish(s.journal, session.limits.run, session.ordinal, outcome);
    s.(journal := journal, sessions := s.sessions[proc := if changed then Told(session, outcome) else PausedBy(session, JournalStateChanged, None)])
  }

  ghost function Next(s: Sys, a: Action): Sys
    requires Allowed(s, a)
  {
    match a
    case Open(proc, limits, fingerprint) =>
      s.(journal := Register(s.journal, limits.run, fingerprint, limits.maxCalls).value,
         sessions := s.sessions[proc := Session(limits, 0, map[], map[], Idle, 0, 0)])
    case Ask(proc, now, request) => AfterAsk(s, proc, now, request)
    case Send(proc, outcome) =>
      s.(sessions := s.sessions[proc := s.sessions[proc].(phase := Sent(outcome))],
         network := s.network + [CurrentKey(s.sessions[proc])])
    case Record(proc) => AfterRecord(s, proc)
    case BlockUpstream(proc, now) =>
      s.(journal := Block(s.journal, now),
         sessions := s.sessions[proc := PausedBy(s.sessions[proc], UpstreamRateLimit, Some(Midnight(now) + DAY))])
    case Skip(proc) => s.(sessions := s.sessions[proc := PausedBy(s.sessions[proc], JournalUnavailable, None)])
    case Crash(proc) => s.(sessions := s.sessions - {proc})
  }

  ghost predicate Behaviour(states: seq<Sys>, actions: seq<Action>) {
    && |states| == |actions| + 1
    && states[0] == START
    && forall i :: 0 <= i < |actions| ==> Allowed(states[i], actions[i]) && states[i + 1] == Next(states[i], actions[i])
  }

  /** Bounds on the limits of all sessions of a behaviour; the constructor's own maxima always qualify. */
  datatype Caps = Caps(daily: nat, minute: nat)

  const HARD_CAPS := Caps(40, 10)

  predicate Bounds(caps: Caps, limits: Limits) {
    limits.daily <= caps.daily && limits.minute <= caps.minute
  }

  ghost predicate Bounded(actions: seq<Action>, caps: Caps) {
    forall i :: 0 <= i < |actions| && actions[i].Open? ==> Bounds(caps, actions[i].limits)
  }

  // ----- invariant -----

  /** Whatever a caller was shown is the outcome saved for that ordinal. */
  ghost predicate Faithful(calls: Calls, s: Session) {
    forall k :: k in s.seen ==> k < s.ordinal && Key(s.limits.run, k) in calls && calls[Key(s.limits.run, k)].outcome == Some(s.seen[k])
  }

  ghost predicate SessionInv(j: Journal, caps: Caps, s: Session) {
    && s.limits.Valid() && Bounds(caps, s.limits)
    && s.limits.run in j.runs && j.runs[s.limits.run].maxCalls == s.limits.maxCalls
    && Faithful(j.calls, s)
    && (InFlight(s) ==> CurrentKey(s) in j.calls && j.calls[CurrentKey(s)].outcome.None?)
  }

  ghost predicate SessionsInv(j: Journal, caps: Caps, sessions: map<nat, Session>) {
    forall p :: p in sessions ==> SessionInv(j, caps, sessions[p])
  }

  /** At most one session is attempting any given row. */
  ghost predicate ExclusiveInv(sessions: map<nat, Session>) {
    forall p, q :: p in sessions && q in sessions && p != q && InFlight(sessions[p]) && InFlight(sessions[q])
      ==> CurrentKey(sessions[p]) != CurrentKey(sessions[q])
  }

  ghost predicate NetworkInv(calls: Calls, sessions: map<nat, Session>, network: seq<Key>) {
    && Distinct(network)
    && (forall k :: k in network ==> k in calls)
    && (forall p :: p in sessions && sessions[p].phase == Calling ==> CurrentKey(sessions[p]) !in network)
  }

  ghost predicate Inv(s: Sys, caps: Caps) {
    && WithinQuotas(s.journal, caps.daily, caps.minute)
    && SessionsInv(s.journal, caps, s.sessions) && ExclusiveInv(s.sessions)
    && NetworkInv(s.journal.calls, s.sessions, s.network)
  }

  /** Rows only appear or go from reserved to finished. */
  ghost predicate Extends(before: Calls, after: Calls) {
    forall k :: k in before ==>
      && k in after && after[k].request == before[k].request && after[k].started == before[k].started
      && (before[k].outcome.Some? ==> after[k].outcome == before[k].outcome)
  }

  ghost predicate Grows(before: Journal, after: Journal) {
    && Extends(before.calls, after.calls)
    && forall r :: r in before.runs ==> r in after.runs && after.runs[r] == before.runs[r]
  }

  lemma SessionExtends(before: Journal, after: Journal, caps: Caps, s: Session)
    requires SessionInv(before, caps, s) && Grows(before, after)
    requires InFlight(s) ==> after.calls[CurrentKey(s)].outcome.None?
    ensures SessionInv(after, caps, s)
  {
  }

  // ----- one session changes -----

  /** No other session is attempting this row. */
  ghost predicate Quiet(sessions: map<nat, Session>, proc: nat, key: Key) {
    forall q :: q in sessions && q != proc && InFlight(sessions[q]) ==> CurrentKey(sessions[q]) != key
  }

  lemma OthersKeepInv(before: Journal, after: Journal, caps: Caps, sessions: map<nat, Session>, proc: nat, key: Key)
    requires SessionsInv(before, caps, sessions) && Grows(before, after) && Quiet(sessions, proc, key)
    requires forall k :: k in before.calls && k != key ==> after.calls[k] == before.calls[k]
    ensures SessionsInv(after, caps, sessions - {proc})
  {
    forall p | p in sessions && p != proc
      ensures SessionInv(after, caps, sessions[p])
    {
      assert SessionInv(before, caps, sessions[p]);
      SessionExtends(before, after, caps, sessions[p]);
    }
  }

  /** The parts of the invariant that speak of sessions, after `proc` becomes `session`. */
  lemma ReplaceSession(journal: Journal, caps: Caps, sessions: map<nat, Session>, network: seq<Key>, proc: nat, session: Session)
    requires SessionsInv(journal, caps, sessions - {proc}) && ExclusiveInv(sessions) && NetworkInv(journal.calls, sessions, network)
    requires SessionInv(journal, caps, session)
    requires InFlight(session) ==> Quiet(sessions, proc, CurrentKey(session))
    requires session.phase == Calling ==> CurrentKey(session) !in network
    ensures var next := sessions[proc := session];
      SessionsInv(journal, caps, next) && ExclusiveInv(next) && NetworkInv(journal.calls, next, network)
  {
    hide SessionInv, CurrentKey, InFlight;
    var next := sessions[proc := session];
    assert forall p :: p in next && p != proc ==> p in sessions - {proc};
    assert SessionsInv(journal, caps, next);
    assert NetworkInv(journal.calls, next, network);
  }

  lemma DropSession(journal: Journal, caps: Caps, sessions: map<nat, Session>, network: seq<Key>, proc: nat)
    requires SessionsInv(journal, caps, sessions) && ExclusiveInv(sessions) && NetworkInv(journal.calls, sessions, network)
    ensures var next := sessions - {proc};
      SessionsInv(journal, caps, next) && ExclusiveInv(next) && NetworkInv(journal.calls, next, network)
  {
    hide SessionInv, CurrentKey, InFlight;
  }

  lemma NetworkGrows(before: Calls, after: Calls, sessions: map<nat, Session>, network: seq<Key>)
    requires NetworkInv(before, sessions, network) && before.Keys <= after.Keys
    ensures NetworkInv(after, sessions, network)
  {
    hide CurrentKey;
  }

  /** A row that does not exist, or that `proc` alone attempts, is quiet. */
  lemma AttemptIsQuiet(s: Sys, caps: Caps, proc: nat, key: Key)
    requires Inv(s, caps) && proc in s.sessions
    requires key !in s.journal.calls || (InFlight(s.sessions[proc]) && CurrentKey(s.sessions[proc]) == key)
    ensures Quiet(s.sessions, proc, key)
  {
    hide WithinQuotas, NetworkInv;
    forall q | q in s.sessions && q != proc && InFlight(s.sessions[q])
      ensures CurrentKey(s.sessions[q]) != key
    {
      assert SessionInv(s.journal, caps, s.sessions[q]);
    }
  }

  /** A session that attempts nothing may be exchanged freely. */
  lemma IdleKeepsInv(s: Sys, caps: Caps, proc: nat, session: Session)
    requires Inv(s, caps) && SessionInv(s.journal, caps, session) && !InFlight(session)
    ensures Inv(s.(sessions := s.sessions[proc := session]), caps)
  {
    hide WithinQuotas, SessionInv, ExclusiveInv, NetworkInv;
    assert SessionsInv(s.journal, caps, s.sessions - {proc});
    ReplaceSession(s.journal, caps, s.sessions, s.network, proc, session);
  }

  // ----- each action keeps the invariant -----

  lemma OpenKeepsInv(s: Sys, caps: Caps, a: Action)
    requires Inv(s, caps) && a.Open? && Allowed(s, a) && Bounds(caps, a.limits)
    ensures Inv(Next(s, a), caps)
  {
    var next, session := Next(s, a), Session(a.limits, 0, map[], map[], Idle, 0, 0);
    RegisterKeepsQuotas(s.journal, a.limits.run, a.fingerprint, a.limits.maxCalls, caps.daily, caps.minute);
    assert SessionInv(next.journal, caps, session);
    assert s.sessions - {a.proc} == s.sessions && Grows(s.journal, next.journal);
    hide WithinQuotas, SessionInv, ExclusiveInv, NetworkInv;
    forall p | p in s.sessions
      ensures SessionInv(next.journal, caps, s.sessions[p])
    {
      assert SessionInv(s.journal, caps, s.sessions[p]);
      RunsGrow(s.journal, next.journal, caps, s.sessions[p]);
    }
    ReplaceSession(next.journal, caps, s.sessions, s.network, a.proc, session);
  }

  lemma RunsGrow(before: Journal, after: Journal, caps: Caps, s: Session)
    requires SessionInv(before, caps, s) && Grows(before, after) && after.calls == before.calls
    ensures SessionInv(after, caps, s)
  {
    SessionExtends(before, after, caps, s);
  }

  lemma AskKeepsInv(s: Sys, caps: Caps, proc: nat, now: int, request: Json)
    requires Inv(s, caps) && Allowed(s, Ask(proc, now, request))
    ensures Inv(AfterAsk(s, proc, now, request), caps)
  {
    var session := s.sessions[proc];
    assert SessionInv(s.journal, caps, session);
    var (journal, ticket) := Reserve(s.journal, session.limits, session.ordinal, request, now);
    match ticket {
      case Fresh =>
        FreshKeepsInv(s, caps, proc, now, request);
      case Replay(outcome) =>
        assert SessionInv(s.journal, caps, Replayed(session, outcome));
        IdleKeepsInv(s, caps, proc, Replayed(session, outcome));
      case Paused(reason, retryAt) =>
        assert SessionInv(s.journal, caps, PausedBy(session, reason, retryAt));
        IdleKeepsInv(s, caps, proc, PausedBy(session, reason, retryAt));
    }
    hide Inv, SessionInv;
  }

  lemma FreshKeepsInv(s: Sys, caps: Caps, proc: nat, now: int, request: Json)
    requires Inv(s, caps) && Allowed(s, Ask(proc, now, request))
    requires var session := s.sessions[proc]; Reserve(s.journal, session.limits, session.ordinal, request, now).1.Fresh?
    ensures Inv(AfterAsk(s, proc, now, request), caps)
  {
    var session := s.sessions[proc];
    assert SessionInv(s.journal, caps, session);
    ReserveKeepsQuotas(s.journal, session.limits, session.ordinal, request, now, caps.daily, caps.minute);
    var call := Call(request, now, None);
    assert AfterAsk(s, proc, now, request) == Inserted(s, proc, call) && CurrentKey(session) !in s.journal.calls;
    hide AfterAsk, WithinQuotas, SessionInv, ExclusiveInv, NetworkInv, Reserve;
    InsertKeepsInv(s, caps, proc, call);
  }

  ghost function Inserted(s: Sys, proc: nat, call: Call): Sys
    requires proc in s.sessions
  {
    var session := s.sessions[proc];
    s.(journal := s.journal.(calls := s.journal.calls[CurrentKey(session) := call]), sessions := s.sessions[proc := Started(session)])
  }

  lemma InsertKeepsInv(s: Sys, caps: Caps, proc: nat, call: Call)
    requires Inv(s, caps) && proc in s.sessions && CurrentKey(s.sessions[proc]) !in s.journal.calls && call.outcome.None?
    requires WithinQuotas(Inserted(s, proc, call).journal, caps.daily, caps.minute)
    ensures Inv(Inserted(s, proc, call), caps)
  {
    InsertedJournal(s, caps, proc, call);
    hide WithinQuotas, SessionInv, ExclusiveInv, NetworkInv, Quiet, SessionsInv, CurrentKey;
    ReplaceSession(Inserted(s, proc, call).journal, caps, s.sessions, s.network, proc, Inserted(s, proc, call).sessions[proc]);
  }

  /** A new row is unattempted so far, and invisible to the other sessions. */
  lemma InsertedJournal(s: Sys, caps: Caps, proc: nat, call: Call)
    requires Inv(s, caps) && proc in s.sessions && CurrentKey(s.sessions[proc]) !in s.journal.calls && call.outcome.None?
    ensures var next := Inserted(s, proc, call);
      && SessionInv(next.journal, caps, next.sessions[proc])
      && SessionsInv(next.journal, caps, s.sessions - {proc}) && NetworkInv(next.journal.calls, s.sessions, s.network)
      && Quiet(s.sessions, proc, CurrentKey(next.sessions[proc])) && CurrentKey(next.sessions[proc]) !in s.network
  {
    var session := s.sessions[proc];
    assert SessionInv(s.journal, caps, session);
    var key, journal := CurrentKey(session), Inserted(s, proc, call).journal;
    AttemptIsQuiet(s, caps, proc, key);
    assert SessionInv(journal, caps, Started(session));
    assert key !in s.network;
    hide WithinQuotas, SessionInv, ExclusiveInv, NetworkInv, Quiet;
    OthersKeepInv(s.journal, journal, caps, s.sessions, proc, key);
    NetworkGrows(s.journal.calls, journal.calls, s.sessions, s.network);
  }

  lemma SendKeepsInv(s: Sys, caps: Caps, a: Action)
    requires Inv(s, caps) && a.Send? && Allowed(s, a)
    ensures Inv(Next(s, a), caps)
  {
    var session := s.sessions[a.proc];
    var key, next := CurrentKey(session), session.(phase := Sent(a.outcome));
    assert SessionInv(s.journal, caps, session) && SessionInv(s.journal, caps, next);
    AttemptIsQuiet(s, caps, a.proc, key);
    SendOnNetwork(s.journal.calls, s.sessions, s.network, a.proc, next);
    hide WithinQuotas, SessionInv, ExclusiveInv, NetworkInv;
    assert SessionsInv(s.journal, caps, s.sessions - {a.proc});
    ReplaceSession(s.journal, caps, s.sessions, s.network, a.proc, next);
  }

  /** Exactly the caller's row joins the network log, and it was not there before. */
  lemma SendOnNetwork(calls: Calls, sessions: map<nat, Session>, network: seq<Key>, proc: nat, next: Session)
    requires NetworkInv(calls, sessions, network) && ExclusiveInv(sessions)
    requires proc in sessions && sessions[proc].phase == Calling && CurrentKey(sessions[proc]) in calls
    requires next.phase.Sent? && CurrentKey(next) == CurrentKey(sessions[proc])
    ensures NetworkInv(calls, sessions[proc := next], network + [CurrentKey(next)])
  {
    hide CurrentKey;
  }

  lemma RecordKeepsInv(s: Sys, caps: Caps, proc: nat)
    requires Inv(s, caps) && proc in s.sessions && s.sessions[proc].phase.Sent?
    ensures Inv(AfterRecord(s, proc), caps)
  {
    var session := s.sessions[proc];
    var outcome := session.phase.outcome;
    var journal := Finish(s.journal, session.limits.run, session.ordinal, outcome).0;
    RecordedJournal(s, caps, proc);
    hide WithinQuotas, SessionInv, SessionsInv, ExclusiveInv, NetworkInv, Finish, Quiet, CurrentKey;
    ReplaceSession(journal, caps, s.sessions, s.network, proc, Told(session, outcome));
  }

  /** Saving an outcome changes one reserved row of the journal and nothing the other sessions rely on. */
  lemma RecordedJournal(s: Sys, caps: Caps, proc: nat)
    requires Inv(s, caps) && proc in s.sessions && s.sessions[proc].phase.Sent?
    ensures var session := s.sessions[proc]; var outcome := session.phase.outcome;
      var (journal, changed) := Finish(s.journal, session.limits.run, session.ordinal, outcome);
      && changed && WithinQuotas(journal, caps.daily, caps.minute)
      && SessionsInv(journal, caps, s.sessions - {proc}) && NetworkInv(journal.calls, s.sessions, s.network)
      && SessionInv(journal, caps, Told(session, outcome)) && !InFlight(Told(session, outcome))
  {
    var session := s.sessions[proc];
    var key, outcome := CurrentKey(session), session.phase.outcome;
    assert SessionInv(s.journal, caps, session);
    var journal := Finish(s.journal, session.limits.run, session.ordinal, outcome).0;
    FinishKeepsQuotas(s.journal, session.limits.run, session.ordinal, outcome, caps.daily, caps.minute);
    AttemptIsQuiet(s, caps, proc, key);
    RecordedSession(s.journal, caps, session);
    hide WithinQuotas, ExclusiveInv, NetworkInv, SessionInv, Told, Quiet;
    OthersKeepInv(s.journal, journal, caps, s.sessions, proc, key);
    NetworkGrows(s.journal.calls, journal.calls, s.sessions, s.network);
  }

  lemma RecordedSession(j: Journal, caps: Caps, session: Session)
    requires SessionInv(j, caps, session) && session.phase.Sent?
    ensures var outcome := session.phase.outcome;
      var journal := Finish(j, session.limits.run, session.ordinal, outcome).0;
      SessionInv(journal, caps, Told(session, outcome)) && !InFlight(Told(session, outcome))
  {
  }

  lemma BlockKeepsInv(s: Sys, caps: Caps, now: int)
    requires Inv(s, caps)
    ensures Inv(s.(journal := Block(s.journal, now)), caps)
  {
    hide ExclusiveInv, NetworkInv;
    var journal := Block(s.journal, now);
    assert journal.calls == s.journal.calls && journal.runs == s.journal.runs;
    assert WithinQuotas(journal, caps.daily, caps.minute);
    hide WithinQuotas;
    forall p | p in s.sessions
      ensures SessionInv(journal, caps, s.sessions[p])
    {
      assert SessionInv(s.journal, caps, s.sessions[p]);
    }
  }

  lemma PauseKeepsInv(s: Sys, caps: Caps, proc: nat, reason: Reason, retryAt: Option<int>)
    requires Inv(s, caps) && proc in s.sessions
    ensures Inv(s.(sessions := s.sessions[proc := PausedBy(s.sessions[proc], reason, retryAt)]), caps)
  {
    assert SessionInv(s.journal, caps, s.sessions[proc]);
    IdleKeepsInv(s, caps, proc, PausedBy(s.sessions[proc], reason, retryAt));
    hide Inv;
  }

  lemma NextKeepsInv(s: Sys, caps: Caps, a: Action)
    requires Inv(s, caps) && Allowed(s, a) && (a.Open? ==> Bounds(caps, a.limits))
    ensures Inv(Next(s, a), caps)
  {
    hide AfterRecord, AfterAsk, WithinQuotas, SessionsInv, ExclusiveInv, NetworkInv;
    match a
    case Open(_, _, _) => OpenKeepsInv(s, caps, a);
    case Ask(proc, now, request) => AskKeepsInv(s, caps, proc, now, request);
    case Send(_, _) => SendKeepsInv(s, caps, a);
    case Record(proc) => RecordKeepsInv(s, caps, proc);
    case BlockUpstream(proc, now) =>
      var until := Some(Midnight(now) + DAY);
      PauseKeepsInv(s, caps, proc, UpstreamRateLimit, until);
      BlockKeepsInv(s.(sessions := s.sessions[proc := PausedBy(s.sessions[proc], UpstreamRateLimit, until)]), caps, now);
    case Skip(proc) => PauseKeepsInv(s, caps, proc, JournalUnavailable, None);
    case Crash(proc) => DropSession(s.journal, caps, s.sessions, s.network, proc);
  }

  /** The invariant holds in every state of every behaviour, for any caps that bound the sessions' limits. */
  lemma {:induction false} InvAlways(states: seq<Sys>, actions: seq<Action>, caps: Caps, i: nat)
    requires Behaviour(states, actions) && Bounded(actions, caps) && i < |states|
    ensures Inv(states[i], caps)
  {
    if i == 0 {
    } else {
      hide Inv, Next, Allowed;
      InvAlways(states, actions, caps, i - 1);
      NextKeepsInv(states[i - 1], caps, actions[i - 1]);
    }
  }

  lemma HardCapsBound(states: seq<Sys>, actions: seq<Action>)
    requires Behaviour(states, actions)
    ensures Bounded(actions, HARD_CAPS)
  {
    hide Next;
    forall i | 0 <= i < |actions| && actions[i].Open?
      ensures Bounds(HARD_CAPS, actions[i].limits)
    {
      assert Allowed(states[i], actions[i]);
    }
  }

  /** Every session of every state is as the invariant says. */
  lemma SessionAlways(states: seq<Sys>, actions: seq<Action>, i: nat, p: nat)
    requires Behaviour(states, actions) && i < |states| && p in states[i].sessions
    ensures SessionInv(states[i].journal, HARD_CAPS, states[i].sessions[p])
  {
    HardCapsBound(states, actions);
    InvAlways(states, actions, HARD_CAPS, i);
    hide SessionInv;
  }

  // ----- theorems about every behaviour -----

  /**
   * Over all runs and sessions, crashes and clock readings: the calls started in any 60 seconds and on any UTC
   * day stay within any caps the sessions' limits stay within, and no run starts more than it registered.
   */
  lemma QuotasAlwaysHold(states: seq<Sys>, actions: seq<Action>, caps: Caps, i: nat)
    requires Behaviour(states, actions) && Bounded(actions, caps) && i < |states|
    ensures WithinQuotas(states[i].journal, caps.daily, caps.minute)
  {
    InvAlways(states, actions, caps, i);
  }

  /** In particular never more than 10 in 60 seconds or 40 on a UTC day, whatever limits were chosen. */
  lemma HardCapsAlwaysHold(states: seq<Sys>, actions: seq<Action>, i: nat)
    requires Behaviour(states, actions) && i < |states|
    ensures WithinQuotas(states[i].journal, 40, 10)
  {
    HardCapsBound(states, actions);
    QuotasAlwaysHold(states, actions, HARD_CAPS, i);
  }

  /** Where all sessions share one minute limit and no call is dated in the future, an announced retry time is the earliest. */
  lemma AnnouncedRetryIsEarliest(states: seq<Sys>, actions: seq<Action>, caps: Caps, i: nat, t: int)
    requires Behaviour(states, actions) && Bounded(actions, caps) && i < |actions| && actions[i].Ask?
    requires states[i].sessions[actions[i].proc].limits.minute == caps.minute
    requires NothingInFuture(states[i].journal.calls, actions[i].now)
    requires var session := states[i].sessions[actions[i].proc];
      Reserve(states[i].journal, session.limits, session.ordinal, actions[i].request, actions[i].now).1 == Paused(MinuteQuota, Some(t))
    ensures forall u :: MinuteCheckPasses(states[i].journal.calls, caps.minute, u) ==> t <= u
    ensures MinuteCheckPasses(states[i].journal.calls, caps.minute, t)
  {
    QuotasAlwaysHold(states, actions, caps, i);
    SessionAlways(states, actions, i, actions[i].proc);
    var session := states[i].sessions[actions[i].proc];
    RetryIsEarliest(states[i].journal, session.limits, session.ordinal, actions[i].request, actions[i].now, t, caps.daily);
  }

  /** A row reaches the network at most once, and only after its reservation is durable. */
  lemma AttemptedAtMostOnce(states: seq<Sys>, actions: seq<Action>, i: nat, a: nat, b: nat)
    requires Behaviour(states, actions) && i < |states| && a < |states[i].network| && b < |states[i].network|
    ensures states[i].network[a] == states[i].network[b] ==> a == b
    ensures states[i].network[a] in states[i].journal.calls
  {
    HardCapsBound(states, actions);
    InvAlways(states, actions, HARD_CAPS, i);
    assert states[i].network[a] in states[i].network;
  }

  lemma NextExtends(s: Sys, a: Action)
    requires Allowed(s, a)
    ensures Extends(s.journal.calls, Next(s, a).journal.calls)
  {
  }

  /** A saved outcome never changes, and rows never disappear. */
  lemma {:induction false} OutcomesAreFinal(states: seq<Sys>, actions: seq<Action>, i: nat, j: nat)
    requires Behaviour(states, actions) && i <= j < |states|
    ensures Extends(states[i].journal.calls, states[j].journal.calls)
  {
    if i == j {
    } else {
      OutcomesAreFinal(states, actions, i, j - 1);
      NextExtends(states[j - 1], actions[j - 1]);
      hide Next, Allowed;
    }
  }

  /** Any two sessions of a run, at any two moments, were shown the same outcome wherever both were shown one. */
  lemma SessionsAgree(states: seq<Sys>, actions: seq<Action>, i: nat, j: nat, p: nat, q: nat, k: nat)
    requires Behaviour(states, actions) && i <= j < |states|
    requires p in states[i].sessions && q in states[j].sessions
    requires states[i].sessions[p].limits.run == states[j].sessions[q].limits.run
    requires k in states[i].sessions[p].seen && k in states[j].sessions[q].seen
    ensures states[i].sessions[p].seen[k] == states[j].sessions[q].seen[k]
  {
    SessionAlways(states, actions, i, p);
    SessionAlways(states, actions, j, q);
    OutcomesAreFinal(states, actions, i, j);
    hide Behaviour;
  }

  /** The guarded update always finds its reserved row: `journal_state_changed` cannot happen. */
  lemma FinishAlwaysLands(states: seq<Sys>, actions: seq<Action>, i: nat)
    requires Behaviour(states, actions) && i < |actions| && actions[i].Record?
    ensures var session := states[i].sessions[actions[i].proc];
      && Finish(states[i].journal, session.limits.run, session.ordinal, session.phase.outcome).1
      && CurrentKey(session) in states[i + 1].journal.calls
      && states[i + 1].journal.calls[CurrentKey(session)].outcome == Some(session.phase.outcome)
  {
    SessionAlways(states, actions, i, actions[i].proc);
  }

  // ----- deterministic clients -----

  /** The next request after these outcomes; None when the client is done. */
  type Client = seq<Outcome> -> Option<Json>

  /** The caller was shown every outcome so far, none of its calls having ended in a pause. */
  ghost predicate Unbroken(s: Session) {
    forall k :: 0 <= k < s.ordinal ==> k in s.seen
  }

  ghost function SeenSoFar(s: Session): seq<Outcome>
    requires Unbroken(s)
  {
    seq(s.ordinal, k requires 0 <= k < s.ordinal => s.seen[k])
  }

  /** If this step asks on behalf of the run, it asks what the client asks after the outcomes shown so far. */
  ghost predicate Plays(client: Client, run: string, s: Sys, a: Action) {
    a.Ask? && a.proc in s.sessions && s.sessions[a.proc].limits.run == run ==>
      Unbroken(s.sessions[a.proc]) && client(SeenSoFar(s.sessions[a.proc])) == Some(a.request)
  }

  /** All sessions of one run are resumptions of one deterministic client; other runs are arbitrary. */
  ghost predicate Deterministic(client: Client, run: string, states: seq<Sys>, actions: seq<Action>) {
    forall i :: 0 <= i < |actions| && i < |states| ==> Plays(client, run, states[i], actions[i])
  }

  /** Outcomes saved for ordinals 0..n-1 of a run, provided they all are. */
  ghost predicate SavedUpTo(calls: Calls, run: string, n: nat) {
    forall i :: 0 <= i < n ==> Key(run, i) in calls && calls[Key(run, i)].outcome.Some?
  }

  ghost function Saved(calls: Calls, run: string, n: nat): seq<Outcome>
    requires SavedUpTo(calls, run, n)
  {
    seq(n, i requires 0 <= i < n => calls[Key(run, i)].outcome.value)
  }

  /** The row carries the request its run's client makes after the outcomes saved before it. */
  ghost predicate Reconstructible(calls: Calls, client: Client, k: Key)
    requires k in calls
  {
    SavedUpTo(calls, k.run, k.ordinal) && client(Saved(calls, k.run, k.ordinal)) == Some(calls[k].request)
  }

  ghost predicate RunInv(calls: Calls, client: Client, run: string) {
    forall k :: k in calls && k.run == run ==> Reconstructible(calls, client, k)
  }

  lemma StaysReconstructible(before: Calls, after: Calls, client: Client, k: Key)
    requires Extends(before, after) && k in before && Reconstructible(before, client, k)
    ensures Reconstructible(after, client, k)
  {
    assert Saved(after, k.run, k.ordinal) == Saved(before, k.run, k.ordinal);
  }

  /** An unbroken session has seen exactly what is saved before its ordinal. */
  lemma SeenIsSaved(calls: Calls, s: Session)
    requires Faithful(calls, s) && Unbroken(s)
    ensures SavedUpTo(calls, s.limits.run, s.ordinal) && Saved(calls, s.limits.run, s.ordinal) == SeenSoFar(s)
  {
  }

  ghost predicate AllFaithful(s: Sys) {
    forall p :: p in s.sessions ==> Faithful(s.journal.calls, s.sessions[p])
  }

  lemma FaithfulAlways(states: seq<Sys>, actions: seq<Action>, i: nat)
    requires Behaviour(states, actions) && i < |states|
    ensures AllFaithful(states[i])
  {
    HardCapsBound(states, actions);
    InvAlways(states, actions, HARD_CAPS, i);
    hide Behaviour;
    assert SessionsInv(states[i].journal, HARD_CAPS, states[i].sessions);
  }

  lemma NextKeepsRun(s: Sys, a: Action, client: Client, run: string)
    requires Allowed(s, a) && Plays(client, run, s, a) && RunInv(s.journal.calls, client, run)
    requires AllFaithful(s)
    ensures RunInv(Next(s, a).journal.calls, client, run)
  {
    var before, after := s.journal.calls, Next(s, a).journal.calls;
    NextExtends(s, a);
    RowsAdded(s, a);
    hide Next, Allowed, Reconstructible;
    forall k | k in after && k.run == run
      ensures Reconstructible(after, client, k)
    {
      if k in before {
        StaysReconstructible(before, after, client, k);
      } else {
        SeenIsSaved(before, s.sessions[a.proc]);
        NewIsReconstructible(before, after, client, s.sessions[a.proc], k);
      }
    }
  }

  /** Only a reservation adds a row, and it is the asking session's, with the request asked. */
  lemma RowsAdded(s: Sys, a: Action)
    requires Allowed(s, a)
    ensures forall k :: k in Next(s, a).journal.calls && k !in s.journal.calls ==>
      a.Ask? && k == CurrentKey(s.sessions[a.proc]) && Next(s, a).journal.calls[k].request == a.request
  {
  }

  lemma NewIsReconstructible(before: Calls, after: Calls, client: Client, s: Session, k: Key)
    requires Extends(before, after) && k in after && k == CurrentKey(s) && Unbroken(s)
    requires SavedUpTo(before, s.limits.run, s.ordinal) && Saved(before, s.limits.run, s.ordinal) == SeenSoFar(s)
    requires client(SeenSoFar(s)) == Some(after[k].request)
    ensures Reconstructible(after, client, k)
  {
    assert Saved(after, k.run, k.ordinal) == Saved(before, k.run, k.ordinal);
  }

  lemma {:induction false} RunInvAlways(states: seq<Sys>, actions: seq<Action>, client: Client, run: string, i: nat)
    requires Behaviour(states, actions) && Deterministic(client, run, states, actions) && i < |states|
    ensures RunInv(states[i].journal.calls, client, run)
  {
    if i == 0 {
    } else {
      RunInvAlways(states, actions, client, run, i - 1);
      FaithfulAlways(states, actions, i - 1);
      assert Plays(client, run, states[i - 1], actions[i - 1]);
      hide Next, Plays, RunInv, AllFaithful, Allowed;
      NextKeepsRun(states[i - 1], actions[i - 1], client, run);
    }
  }

  /** A resumed deterministic client never diverges, and replays its saved prefix at no cost to any quota. */
  lemma ReplayIsStable(states: seq<Sys>, actions: seq<Action>, client: Client, run: string, i: nat)
    requires Behaviour(states, actions) && Deterministic(client, run, states, actions)
    requires i < |actions| && actions[i].Ask? && states[i].sessions[actions[i].proc].limits.run == run
    ensures var s, session := states[i], states[i].sessions[actions[i].proc];
      && Reserve(s.journal, session.limits, session.ordinal, actions[i].request, actions[i].now).1 != Paused(ReconstructionDiverged, None)
      && (CurrentKey(session) in s.journal.calls && s.journal.calls[CurrentKey(session)].outcome.Some? ==>
            && states[i + 1].journal == s.journal && states[i + 1].network == s.network
            && states[i + 1].sessions[actions[i].proc]
               == Replayed(session, s.journal.calls[CurrentKey(session)].outcome.value))
  {
    RunInvAlways(states, actions, client, run, i);
    var s, session := states[i], states[i].sessions[actions[i].proc];
    SessionAlways(states, actions, i, actions[i].proc);
    assert Plays(client, run, s, actions[i]);
    if CurrentKey(session) in s.journal.calls {
      assert Reconstructible(s.journal.calls, client, CurrentKey(session));
      SeenIsSaved(s.journal.calls, session);
    }
  }

  /** Of two sessions of a run that were never paused, the one that got less far saw a prefix of what the other saw. */
  lemma ResumedSeesPrefix(states: seq<Sys>, actions: seq<Action>, i: nat, j: nat, p: nat, q: nat)
    requires Behaviour(states, actions) && i < |states| && j < |states|
    requires p in states[i].sessions && q in states[j].sessions
    requires states[i].sessions[p].limits.run == states[j].sessions[q].limits.run
    requires Unbroken(states[i].sessions[p]) && Unbroken(states[j].sessions[q])
    requires states[i].sessions[p].ordinal <= states[j].sessions[q].ordinal
    ensures SeenSoFar(states[i].sessions[p]) <= SeenSoFar(states[j].sessions[q])
  {
    hide Behaviour;
    forall k | 0 <= k < states[i].sessions[p].ordinal
      ensures states[i].sessions[p].seen[k] == states[j].sessions[q].seen[k]
    {
      if i <= j {
        SessionsAgree(states, actions, i, j, p, q, k);
      } else {
        SessionsAgree(states, actions, j, i, q, p, k);
      }
    }
  }
}
