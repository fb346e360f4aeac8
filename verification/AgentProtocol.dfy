/** Runners, crashes, decisions and deletions over one task table. */
module AgentProtocol {
  import opened Basics
  import opened DocumentTask
  import opened TaskTable

  /** A runner between the two parts of `advance`: the state it wrote, and where in the history that state is. */
  datatype Reservation = Reservation(agent: Agent, tenant: string, principal: string, mine: Task, at: nat)

  datatype Execution = Execution(id: nat, number: nat)

  /**
   * `history` keeps every version of a task that was ever committed, also after its row is deleted; `calls` records
   * every execution of a model call with the reservation number it used.
   */
  datatype Sys = Sys(rows: Rows, history: map<nat, seq<Task>>, pending: map<nat, Reservation>,
                     calls: seq<Execution>, advances: map<nat, nat>)

  datatype Action =
    | CreateTask(agent: Agent, id: nat, question: string, tenant: string, principal: string, requireApproval: bool, cache: bool)
    | AdvanceTask(runner: nat, agent: Agent, id: nat, tenant: string, principal: string)
    | CompleteCall(runner: nat, reply: Reply)
    | CrashBeforeCall(runner: nat)
    | CrashDuringCall(runner: nat)
    | DecideTask(agent: Agent, id: nat, decision: Decision, modified: Option<string>, tenant: string, principal: string)
    | DeleteTask(id: nat, tenant: string, principal: string)
    | InvalidateTasks(tenant: string, principal: string)

  const EMPTY := Sys(map[], map[], map[], [], map[])

  /** The environment's promises: fresh random identities, valid budgets, the gateway contract. */
  ghost predicate Allowed(s: Sys, a: Action) {
    match a
    case CreateTask(agent, id, _, _, _, _, _) => agent.Valid() && id !in s.history
    case AdvanceTask(runner, _, _, _, _) => runner !in s.pending
    case CompleteCall(runner, reply) => runner in s.pending && HonoursGateway(s.pending[runner].mine, reply)
    case CrashBeforeCall(runner) => runner in s.pending
    case CrashDuringCall(runner) => runner in s.pending
    case _ => true
  }

  /** The history after a transaction that may have rewritten row `id`. */
  ghost function Log(s: Sys, rows: Rows, id: nat): map<nat, seq<Task>> {
    if id in rows && (id !in s.rows || s.rows[id].task != rows[id].task) then
      s.history[id := (if id in s.history then s.history[id] else []) + [rows[id].task]]
    else s.history
  }

  ghost function Commit(s: Sys, rows: Rows, id: nat): Sys {
    s.(rows := rows, history := Log(s, rows, id))
  }

  function Executed(s: Sys, r: Reservation): seq<Execution> {
    if StillOwned(s.rows, r.agent, r.mine, r.tenant, r.principal) then s.calls + [Ticket(r)]
    else s.calls
  }

  /** An `advance` call counts when it was let in and its task had not halted. */
  function Counted(s: Sys, agent: Agent, id: nat, tenant: string, principal: string): map<nat, nat> {
    var loaded := Load(s.rows, agent, id, tenant, principal);
    if loaded.Ok? && !Halted(loaded.value) then
      s.advances[id := (if id in s.advances then s.advances[id] else 0) + 1]
    else s.advances
  }

  ghost function AfterCreate(s: Sys, a: Action): Sys
    requires a.CreateTask?
  {
    Commit(s, Insert(s.rows, a.agent, a.id, a.question, a.tenant, a.principal, a.requireApproval, a.cache).0, a.id)
  }

  ghost function AfterAdvance(s: Sys, a: Action): Sys
    requires a.AdvanceTask?
  {
    var (rows, begun) := Begin(s.rows, a.agent, a.id, a.tenant, a.principal);
    var done := Commit(s, rows, a.id).(advances := Counted(s, a.agent, a.id, a.tenant, a.principal));
    if begun.Reserved? then
      var at := if a.id in done.history && |done.history[a.id]| > 0 then |done.history[a.id]| - 1 else 0;
      done.(pending := s.pending[a.runner := Reservation(a.agent, a.tenant, a.principal, begun.task, at)])
    else done
  }

  ghost function AfterComplete(s: Sys, a: Action): Sys
    requires a.CompleteCall? && a.runner in s.pending
  {
    var r := s.pending[a.runner];
    Commit(s, Finish(s.rows, r.agent, r.mine, r.tenant, r.principal, a.reply).0, r.mine.id)
      .(pending := s.pending - {a.runner}, calls := Executed(s, r))
  }

  ghost function AfterDecide(s: Sys, a: Action): Sys
    requires a.DecideTask?
  {
    Commit(s, Decide(s.rows, a.agent, a.id, a.decision, a.modified, a.tenant, a.principal).0, a.id)
  }

  ghost function Next(s: Sys, a: Action): Sys
    requires Allowed(s, a)
  {
    match a
    case CreateTask(_, _, _, _, _, _, _) => AfterCreate(s, a)
    case AdvanceTask(_, _, _, _, _) => AfterAdvance(s, a)
    case CompleteCall(_, _) => AfterComplete(s, a)
    case CrashBeforeCall(runner) => s.(pending := s.pending - {runner})
    case CrashDuringCall(runner) => s.(pending := s.pending - {runner}, calls := Executed(s, s.pending[runner]))
    case DecideTask(_, _, _, _, _, _) => AfterDecide(s, a)
    case DeleteTask(id, tenant, principal) => s.(rows := Delete(s.rows, id, tenant, principal))
    case InvalidateTasks(tenant, principal) => s.(rows := Invalidate(s.rows, tenant, principal))
  }

  /** A behaviour: states linked by allowed actions, starting from an empty table. */
  ghost predicate Behaviour(states: seq<Sys>, actions: seq<Action>) {
    && |states| == |actions| + 1
    && states[0] == EMPTY
    && forall i :: 0 <= i < |actions| ==> Allowed(states[i], actions[i]) && states[i + 1] == Next(states[i], actions[i])
  }

  // ----- invariant -----

  /** Every commit strictly increases this, so no committed version of a task ever recurs. */
  ghost function Rank(t: Task): nat {
    t.reservedCalls + |t.trace| + if t.status == Failed then 1 else 0
  }

  ghost predicate GoodHistory(id: nat, versions: seq<Task>) {
    && |versions| > 0
    && (forall i :: 0 <= i < |versions| ==> versions[i].id == id && Sound(versions[i]))
    && (forall i, j :: 0 <= i < j < |versions| ==> Rank(versions[i]) < Rank(versions[j]))
    && (forall i, j :: 0 <= i <= j < |versions| ==> versions[i].reservedCalls <= versions[j].reservedCalls)
  }

  ghost function Latest(versions: seq<Task>): Task
    requires |versions| > 0
  {
    versions[|versions| - 1]
  }

  type Histories = map<nat, seq<Task>>

  ghost predicate Known(history: Histories, id: nat) {
    id in history && |history[id]| > 0
  }

  ghost predicate HistoryInv(rows: Rows, history: Histories) {
    && (forall id :: id in history ==> GoodHistory(id, history[id]))
    && (forall id :: id in rows ==> Known(history, id) && rows[id].task == Latest(history[id]))
  }

  /** A waiting runner's state is a committed version that still needs the model, its call not yet spent. */
  ghost predicate Waiting(history: Histories, r: Reservation) {
    && Known(history, r.mine.id) && r.at < |history[r.mine.id]| && history[r.mine.id][r.at] == r.mine
    && NeedsModel(r.mine) && 1 <= r.mine.reservedCalls <= Latest(history[r.mine.id]).reservedCalls
    && r.mine.providerCalls.Some? && r.mine.providerCalls.value < r.mine.reservedCalls
  }

  ghost predicate PendingInv(history: Histories, pending: map<nat, Reservation>) {
    forall p :: p in pending ==> Waiting(history, pending[p])
  }

  function Ticket(r: Reservation): Execution {
    Execution(r.mine.id, r.mine.reservedCalls)
  }

  /** No two runners hold the same reservation number of a task. */
  ghost predicate ExclusiveInv(pending: map<nat, Reservation>) {
    forall p, q :: p in pending && q in pending && p != q ==> Ticket(pending[p]) != Ticket(pending[q])
  }

  ghost predicate Charged(history: Histories, e: Execution) {
    Known(history, e.id) && 1 <= e.number <= Latest(history[e.id]).reservedCalls
  }

  ghost predicate CallsInv(history: Histories, calls: seq<Execution>) {
    && Distinct(calls)
    && (forall e :: e in calls ==> Charged(history, e))
  }

  /** A waiting runner's reservation has not been executed. */
  ghost predicate UnspentInv(pending: map<nat, Reservation>, calls: seq<Execution>) {
    forall p :: p in pending ==> Ticket(pending[p]) !in calls
  }

  ghost function AdvancesOf(advances: map<nat, nat>, id: nat): nat {
    if id in advances then advances[id] else 0
  }

  ghost predicate AdvanceInv(history: Histories, advances: map<nat, nat>) {
    && (forall id :: id in advances ==> id in history)
    && (forall id :: Known(history, id) && !Halted(Latest(history[id])) ==>
          AdvancesOf(advances, id) <= Latest(history[id]).reservedCalls + |Latest(history[id]).tools|)
  }

  ghost predicate Inv(s: Sys) {
    && HistoryInv(s.rows, s.history) && PendingInv(s.history, s.pending) && ExclusiveInv(s.pending)
    && CallsInv(s.history, s.calls) && UnspentInv(s.pending, s.calls) && AdvanceInv(s.history, s.advances)
  }

  /** Appending one sound, higher-ranked version keeps a history good. */
  lemma AppendVersion(id: nat, versions: seq<Task>, t: Task)
    requires GoodHistory(id, versions)
    requires t.id == id && Sound(t) && Rank(Latest(versions)) < Rank(t) && Latest(versions).reservedCalls <= t.reservedCalls
    ensures GoodHistory(id, versions + [t])
  {
    var next := versions + [t];
    forall i, j | 0 <= i < j < |next|
      ensures Rank(next[i]) < Rank(next[j])
    {
      assert Rank(versions[i]) <= Rank(Latest(versions));
    }
  }

  /** A version may follow the current one: it is sound, ranked higher and never returns a reservation. */
  ghost predicate MayFollow(versions: seq<Task>, t: Task)
    requires |versions| > 0
  {
    Sound(t) && Rank(Latest(versions)) < Rank(t) && Latest(versions).reservedCalls <= t.reservedCalls
  }

  ghost function Appended(history: Histories, t: Task): Histories
    requires t.id in history
  {
    history[t.id := history[t.id] + [t]]
  }

  /** The state after committing version t of its row, with the given advance counters. */
  ghost function Written(s: Sys, t: Task, advances: map<nat, nat>): Sys
    requires t.id in s.history
  {
    s.(rows := Save(s.rows, t.id, t), history := Appended(s.history, t), advances := advances)
  }

  lemma AppendKeepsHistory(rows: Rows, history: Histories, t: Task)
    requires HistoryInv(rows, history) && Known(history, t.id) && MayFollow(history[t.id], t)
    ensures HistoryInv(Save(rows, t.id, t), Appended(history, t))
  {
    assert GoodHistory(t.id, history[t.id]);
    AppendVersion(t.id, history[t.id], t);
    hide GoodHistory, Sound;
  }

  lemma AppendKeepsPending(history: Histories, t: Task, pending: map<nat, Reservation>)
    requires PendingInv(history, pending) && Known(history, t.id) && MayFollow(history[t.id], t)
    ensures PendingInv(Appended(history, t), pending)
  {
    hide Sound;
    forall p | p in pending
      ensures Waiting(Appended(history, t), pending[p])
    {
      assert Waiting(history, pending[p]);
    }
  }

  lemma AppendKeepsCalls(history: Histories, t: Task, calls: seq<Execution>)
    requires CallsInv(history, calls) && Known(history, t.id) && MayFollow(history[t.id], t)
    ensures CallsInv(Appended(history, t), calls)
  {
    hide Sound;
    forall e | e in calls
      ensures Charged(Appended(history, t), e)
    {
      assert Charged(history, e);
    }
  }

  lemma AppendKeepsAdvances(history: Histories, t: Task, before: map<nat, nat>, advances: map<nat, nat>)
    requires AdvanceInv(history, before) && Known(history, t.id)
    requires advances == before || advances == before[t.id := AdvancesOf(before, t.id) + 1]
    requires !Halted(t) ==> AdvancesOf(advances, t.id) <= t.reservedCalls + |t.tools|
    ensures AdvanceInv(Appended(history, t), advances)
  {
  }

  /** Any rewrite that may follow the current version keeps the invariant, whoever makes it. */
  lemma WriteKeepsInv(s: Sys, t: Task, advances: map<nat, nat>)
    requires Inv(s) && Known(s.history, t.id) && MayFollow(s.history[t.id], t)
    requires advances == s.advances || advances == s.advances[t.id := AdvancesOf(s.advances, t.id) + 1]
    requires !Halted(t) ==> AdvancesOf(advances, t.id) <= t.reservedCalls + |t.tools|
    ensures Inv(Written(s, t, advances))
  {
    hide HistoryInv, PendingInv, ExclusiveInv, UnspentInv, CallsInv, AdvanceInv, MayFollow, Appended, Save;
    AppendKeepsHistory(s.rows, s.history, t);
    AppendKeepsPending(s.history, t, s.pending);
    AppendKeepsCalls(s.history, t, s.calls);
    AppendKeepsAdvances(s.history, t, s.advances, advances);
  }

  /** Committing a rewritten row is exactly `Written`. */
  lemma CommitIsWritten(s: Sys, t: Task)
    requires HistoryInv(s.rows, s.history) && t.id in s.rows && Known(s.history, t.id) && MayFollow(s.history[t.id], t)
    ensures Commit(s, Save(s.rows, t.id, t), t.id) == Written(s, t, s.advances)
  {
    hide Sound, GoodHistory;
    assert Rank(s.rows[t.id].task) < Rank(t);
  }

  lemma CurrentIsSound(rows: Rows, history: Histories, id: nat)
    requires HistoryInv(rows, history) && id in rows
    ensures Known(history, id) && rows[id].task == Latest(history[id]) && Sound(rows[id].task) && rows[id].task.id == id
  {
    assert GoodHistory(id, history[id]);
    hide Sound;
  }

  // ----- each action keeps the invariant -----

  lemma CreateKeepsInv(s: Sys, a: Action)
    requires Inv(s) && a.CreateTask? && Allowed(s, a)
    ensures Inv(AfterCreate(s, a))
  {
    var t := NewTask(a.agent, a.id, a.question, a.requireApproval, a.cache);
    NewTaskSound(a.agent, a.id, a.question, a.requireApproval, a.cache);
    hide GoodHistory, ExclusiveInv, UnspentInv, CallsInv, PendingInv, Sound;
    assert a.id !in s.rows && a.id !in s.advances && a.id !in s.history;
    if ValidName(a.question) && ValidName(a.tenant) && ValidName(a.principal) {
      var row := Row(a.tenant, a.principal, a.agent.documents, t);
      FirstVersion(s, t, row);
      hide Inv;
      assert [] + [t] == [t];
      assert AfterCreate(s, a) == s.(rows := s.rows[a.id := row], history := s.history[a.id := [t]]);
    }
  }

  lemma FirstVersion(s: Sys, t: Task, row: Row)
    requires Inv(s) && t.id !in s.rows && t.id !in s.history && t.id !in s.advances
    requires Sound(t) && row.task == t
    ensures Inv(s.(rows := s.rows[t.id := row], history := s.history[t.id := [t]]))
  {
    hide Sound, ExclusiveInv, UnspentInv, AdvanceInv, CallsInv, HistoryInv, PendingInv;
    FirstInHistory(s.rows, s.history, t, row);
    FirstKeepsReferences(s, t);
    FirstKeepsAdvances(s, t);
  }

  lemma FirstInHistory(rows: Rows, history: Histories, t: Task, row: Row)
    requires HistoryInv(rows, history) && t.id !in history && Sound(t) && row.task == t
    ensures HistoryInv(rows[t.id := row], history[t.id := [t]])
  {
    assert GoodHistory(t.id, [t]);
    hide GoodHistory, Sound;
  }

  lemma FirstKeepsReferences(s: Sys, t: Task)
    requires PendingInv(s.history, s.pending) && CallsInv(s.history, s.calls) && t.id !in s.history
    ensures PendingInv(s.history[t.id := [t]], s.pending) && CallsInv(s.history[t.id := [t]], s.calls)
  {
    var history := s.history[t.id := [t]];
    forall p | p in s.pending
      ensures Waiting(history, s.pending[p])
    {
      assert Waiting(s.history, s.pending[p]);
    }
    hide Waiting;
    forall e | e in s.calls
      ensures Charged(history, e)
    {
      assert Charged(s.history, e);
    }
  }

  lemma FirstKeepsAdvances(s: Sys, t: Task)
    requires AdvanceInv(s.history, s.advances) && t.id !in s.history
    ensures AdvanceInv(s.history[t.id := [t]], s.advances)
  {
  }

  /** Part one of `advance` lets the call in while its task is still running. */
  ghost predicate Runs(s: Sys, a: Action)
    requires a.AdvanceTask?
  {
    var loaded := Load(s.rows, a.agent, a.id, a.tenant, a.principal);
    loaded.Ok? && !Halted(loaded.value)
  }

  /** The version written by part one. */
  function Stepped(agent: Agent, t: Task): Task {
    if t.status == Tools then (if RunTool(agent, t).Some? then RunTool(agent, t).value else t)
    else if t.reservedCalls >= t.maxCalls then ExhaustBudget(t) else Reserve(t)
  }

  predicate Reserves(t: Task) {
    t.status != Tools && t.reservedCalls < t.maxCalls
  }

  lemma SteppedFollows(agent: Agent, t: Task)
    requires Sound(t) && !Halted(t)
    ensures var u := Stepped(agent, t);
      && Sound(u) && Rank(t) < Rank(u) && t.reservedCalls <= u.reservedCalls && u.id == t.id
      && (t.status == Tools ==> RunTool(agent, t) == Some(u))
      && (!Halted(u) ==> u.reservedCalls + |u.tools| == t.reservedCalls + |t.tools| + 1)
      && (Reserves(t) ==> u == Reserve(t) && NeedsModel(u) && u.providerCalls.Some? && u.providerCalls.value < u.reservedCalls)
  {
    if t.status == Tools {
      RunToolSound(agent, t);
    }
  }

  /** The state after part one of a running task: `Stepped` is committed and the advance is counted. */
  ghost function AfterStep(s: Sys, a: Action): Sys
    requires a.AdvanceTask? && a.id in s.rows && Stepped(a.agent, s.rows[a.id].task).id in s.history
  {
    Written(s, Stepped(a.agent, s.rows[a.id].task), s.advances[a.id := AdvancesOf(s.advances, a.id) + 1])
  }

  ghost function NewReservation(s: Sys, a: Action): Reservation
    requires a.AdvanceTask? && a.id in s.rows && a.id in s.history
  {
    Reservation(a.agent, a.tenant, a.principal, Stepped(a.agent, s.rows[a.id].task), |s.history[a.id]|)
  }

  lemma AdvanceStep(s: Sys, a: Action)
    requires HistoryInv(s.rows, s.history) && a.AdvanceTask? && Allowed(s, a) && Runs(s, a)
    ensures var t := s.rows[a.id].task; var u := Stepped(a.agent, t);
      && Known(s.history, a.id) && u.id == a.id && MayFollow(s.history[a.id], u)
      && t == Latest(s.history[a.id])
      && (!Halted(u) ==> u.reservedCalls + |u.tools| == t.reservedCalls + |t.tools| + 1)
      && AfterAdvance(s, a) == if Reserves(t)
        then AfterStep(s, a).(pending := s.pending[a.runner := NewReservation(s, a)])
        else AfterStep(s, a)
  {
    CurrentIsSound(s.rows, s.history, a.id);
    var t := s.rows[a.id].task;
    SteppedFollows(a.agent, t);
    hide Sound, GoodHistory, RunTool, HistoryInv;
    AdvanceStepCommit(s, a);
  }

  lemma BeginIsStepped(rows: Rows, agent: Agent, id: nat, tenant: string, principal: string)
    requires var loaded := Load(rows, agent, id, tenant, principal);
      loaded.Ok? && !Halted(loaded.value) && (loaded.value.status == Tools ==> RunTool(agent, loaded.value).Some?)
    ensures var t := rows[id].task; var u := Stepped(agent, t);
      Begin(rows, agent, id, tenant, principal)
        == (Save(rows, id, u), if Reserves(t) then TaskTable.Reserved(u) else Returned(u))
  {
    hide RunTool;
  }

  lemma AdvanceStepCommit(s: Sys, a: Action)
    requires HistoryInv(s.rows, s.history) && a.AdvanceTask? && Runs(s, a) && Known(s.history, a.id)
    requires var u := Stepped(a.agent, s.rows[a.id].task);
      && u.id == a.id && MayFollow(s.history[a.id], u)
      && (s.rows[a.id].task.status == Tools ==> RunTool(a.agent, s.rows[a.id].task).Some?)
    ensures AfterAdvance(s, a) == if Reserves(s.rows[a.id].task)
        then AfterStep(s, a).(pending := s.pending[a.runner := NewReservation(s, a)])
        else AfterStep(s, a)
  {
    BeginIsStepped(s.rows, a.agent, a.id, a.tenant, a.principal);
    CountedIsIncrement(s, a);
    hide HistoryInv, MayFollow, Commit, Begin, Stepped, Reserves, RunTool, Save, Load, Counted, Runs, AdvancesOf;
    CommitIsWritten(s, Stepped(a.agent, s.rows[a.id].task));
  }

  lemma CountedIsIncrement(s: Sys, a: Action)
    requires a.AdvanceTask? && Runs(s, a)
    ensures Counted(s, a.agent, a.id, a.tenant, a.principal) == s.advances[a.id := AdvancesOf(s.advances, a.id) + 1]
    ensures a.id in s.rows
  {
  }

  lemma AdvanceKeepsInv(s: Sys, a: Action)
    requires Inv(s) && a.AdvanceTask? && Allowed(s, a)
    ensures Inv(AfterAdvance(s, a))
  {
    if Runs(s, a) {
      AdvanceStep(s, a);
      StepKeepsInv(s, a);
      hide AfterAdvance, Inv, AfterStep, MayFollow, Stepped;
      if Reserves(s.rows[a.id].task) {
        ReservationKeepsInv(s, a);
      }
    } else {
      hide Inv;
      assert AfterAdvance(s, a) == s;
    }
  }

  lemma StepKeepsInv(s: Sys, a: Action)
    requires Inv(s) && a.AdvanceTask? && Allowed(s, a) && Runs(s, a) && Known(s.history, a.id)
    requires var t := s.rows[a.id].task; var u := Stepped(a.agent, t);
      && u.id == a.id && MayFollow(s.history[a.id], u) && t == Latest(s.history[a.id])
      && (!Halted(u) ==> u.reservedCalls + |u.tools| == t.reservedCalls + |t.tools| + 1)
    ensures Inv(AfterStep(s, a))
  {
    hide HistoryInv, PendingInv, ExclusiveInv, UnspentInv, CallsInv, MayFollow, Stepped;
    WriteKeepsInv(s, Stepped(a.agent, s.rows[a.id].task), s.advances[a.id := AdvancesOf(s.advances, a.id) + 1]);
  }

  /** A fresh reservation carries a number nobody else holds and nobody has executed. */
  lemma ReservationKeepsInv(s: Sys, a: Action)
    requires Inv(s) && a.AdvanceTask? && a.id in s.rows && !Halted(s.rows[a.id].task) && Reserves(s.rows[a.id].task)
    requires Known(s.history, a.id) && Stepped(a.agent, s.rows[a.id].task).id == a.id
    requires Inv(AfterStep(s, a))
    ensures Inv(AfterStep(s, a).(pending := s.pending[a.runner := NewReservation(s, a)]))
  {
    var w, r := AfterStep(s, a), NewReservation(s, a);
    NewReservationWaits(s, a);
    hide HistoryInv, Stepped, AdvanceInv, PendingInv, ExclusiveInv, UnspentInv, CallsInv, Waiting, Ticket;
    AddTicket(w.history, s.pending, s.calls, a.runner, r);
  }

  lemma NewReservationWaits(s: Sys, a: Action)
    requires Inv(s) && a.AdvanceTask? && a.id in s.rows && !Halted(s.rows[a.id].task) && Reserves(s.rows[a.id].task)
    requires Known(s.history, a.id) && Stepped(a.agent, s.rows[a.id].task).id == a.id
    ensures var r := NewReservation(s, a);
      && Waiting(AfterStep(s, a).history, r) && Ticket(r) !in s.calls
      && forall p :: p in s.pending ==> Ticket(s.pending[p]) != Ticket(r)
  {
    CurrentIsSound(s.rows, s.history, a.id);
    SteppedFollows(a.agent, s.rows[a.id].task);
    hide HistoryInv, Sound, AdvanceInv, PendingInv, ExclusiveInv, UnspentInv, CallsInv;
    FreshTicket(s, NewReservation(s, a));
    hide Ticket;
  }

  lemma AddTicket(history: Histories, pending: map<nat, Reservation>, calls: seq<Execution>, runner: nat, r: Reservation)
    requires PendingInv(history, pending) && ExclusiveInv(pending) && UnspentInv(pending, calls)
    requires Waiting(history, r) && Ticket(r) !in calls && forall p :: p in pending ==> Ticket(pending[p]) != Ticket(r)
    ensures var next := pending[runner := r]; PendingInv(history, next) && ExclusiveInv(next) && UnspentInv(next, calls)
  {
    hide Waiting, Ticket;
  }

  lemma FreshTicket(s: Sys, r: Reservation)
    requires PendingInv(s.history, s.pending) && CallsInv(s.history, s.calls)
    requires Known(s.history, r.mine.id) && r.mine.reservedCalls > Latest(s.history[r.mine.id]).reservedCalls
    ensures Ticket(r) !in s.calls
    ensures forall p :: p in s.pending ==> Ticket(s.pending[p]) != Ticket(r)
  {
    assert !Charged(s.history, Ticket(r));
    forall p | p in s.pending
      ensures Ticket(s.pending[p]) != Ticket(r)
    {
      assert Waiting(s.history, s.pending[p]);
    }
  }

  /** Handing a reservation over to the log of executions keeps every number used at most once. */
  lemma ReleaseKeepsInv(s: Sys, runner: nat)
    requires Inv(s) && runner in s.pending
    ensures Inv(s.(pending := s.pending - {runner}))
  {
    hide HistoryInv, AdvanceInv, CallsInv, Waiting, Ticket;
  }

  lemma ExecutionKeepsInv(s: Sys, runner: nat)
    requires Inv(s) && runner in s.pending
    ensures Inv(s.(pending := s.pending - {runner}, calls := Executed(s, s.pending[runner])))
  {
    var r := s.pending[runner];
    ReleaseKeepsInv(s, runner);
    assert Waiting(s.history, r) && Charged(s.history, Ticket(r));
    hide HistoryInv, AdvanceInv, PendingInv, CallsInv, Waiting, Charged, Load;
    SpendTicket(s.history, s.pending, s.calls, runner);
  }

  lemma SpendTicket(history: Histories, pending: map<nat, Reservation>, calls: seq<Execution>, runner: nat)
    requires ExclusiveInv(pending) && UnspentInv(pending, calls) && CallsInv(history, calls)
    requires runner in pending && Charged(history, Ticket(pending[runner]))
    ensures CallsInv(history, calls + [Ticket(pending[runner])])
    ensures UnspentInv(pending - {runner}, calls + [Ticket(pending[runner])])
  {
    hide Charged, Ticket;
  }

  lemma AbsorbFollows(t: Task, reply: Reply)
    requires Sound(t) && NeedsModel(t) && HonoursGateway(t, reply)
    requires t.providerCalls.Some? && t.providerCalls.value < t.reservedCalls
    ensures var u := Absorb(t, reply);
      && Sound(u) && Rank(t) < Rank(u) && u.reservedCalls == t.reservedCalls && u.id == t.id && u.tools == t.tools
  {
    AbsorbSound(t, reply);
    AbsorbShape(t, reply);
    hide Sound, Absorb, Rank;
  }

  lemma AbsorbShape(t: Task, reply: Reply)
    requires NeedsModel(t)
    ensures var u := Absorb(t, reply);
      Rank(t) < Rank(u) && u.reservedCalls == t.reservedCalls && u.id == t.id && u.tools == t.tools
  {
    hide VerdictOf, HasRead;
  }

  lemma CompleteKeepsInv(s: Sys, a: Action)
    requires Inv(s) && a.CompleteCall? && Allowed(s, a)
    ensures Inv(AfterComplete(s, a))
  {
    var r := s.pending[a.runner];
    ExecutionKeepsInv(s, a.runner);
    if StillOwned(s.rows, r.agent, r.mine, r.tenant, r.principal) {
      SavedResult(s, a);
      hide AfterComplete, Absorb, MayFollow, AdvanceInv, HistoryInv, PendingInv, ExclusiveInv, UnspentInv, CallsInv;
      WriteKeepsInv(s.(pending := s.pending - {a.runner}, calls := Executed(s, r)), Absorb(r.mine, a.reply), s.advances);
    } else {
      hide Inv, Absorb;
    }
  }

  /** Part two saves the absorbed reply as the next version, directly after the reserved one. */
  lemma SavedResult(s: Sys, a: Action)
    requires Inv(s) && a.CompleteCall? && Allowed(s, a)
    requires var r := s.pending[a.runner]; StillOwned(s.rows, r.agent, r.mine, r.tenant, r.principal)
    ensures var r := s.pending[a.runner]; var t := Absorb(r.mine, a.reply);
      && t.id == r.mine.id && t.id in s.rows && Known(s.history, t.id) && MayFollow(s.history[t.id], t)
      && Latest(s.history[t.id]) == r.mine
      && (!Halted(t) ==> AdvancesOf(s.advances, t.id) <= t.reservedCalls + |t.tools|)
      && AfterComplete(s, a) == Written(s.(pending := s.pending - {a.runner}, calls := Executed(s, r)), t, s.advances)
  {
    var r := s.pending[a.runner];
    AbsorbedMayFollow(s, a.runner, a.reply);
    hide HistoryInv, MayFollow, Absorb, ExclusiveInv, UnspentInv, CallsInv, PendingInv, AdvanceInv;
    CommitIsWritten(s, Absorb(r.mine, a.reply));
    hide Log, Executed;
  }

  /** A runner that still owns the row holds its latest version. */
  lemma OwnedIsLatest(s: Sys, runner: nat)
    requires HistoryInv(s.rows, s.history) && PendingInv(s.history, s.pending) && runner in s.pending
    requires var r := s.pending[runner]; StillOwned(s.rows, r.agent, r.mine, r.tenant, r.principal)
    ensures var t := s.pending[runner].mine;
      && t.id in s.rows && Known(s.history, t.id) && Latest(s.history[t.id]) == t
      && Sound(t) && NeedsModel(t) && t.providerCalls.Some? && t.providerCalls.value < t.reservedCalls
  {
    var r := s.pending[runner];
    CurrentIsSound(s.rows, s.history, r.mine.id);
    assert Waiting(s.history, r);
    hide HistoryInv, PendingInv, Sound;
  }

  lemma AbsorbedMayFollow(s: Sys, runner: nat, reply: Reply)
    requires HistoryInv(s.rows, s.history) && PendingInv(s.history, s.pending) && AdvanceInv(s.history, s.advances)
    requires runner in s.pending && HonoursGateway(s.pending[runner].mine, reply)
    requires var r := s.pending[runner]; StillOwned(s.rows, r.agent, r.mine, r.tenant, r.principal)
    ensures var r := s.pending[runner]; var t := Absorb(r.mine, reply);
      && t.id == r.mine.id && t.id in s.rows && Known(s.history, t.id) && MayFollow(s.history[t.id], t)
      && Latest(s.history[t.id]) == r.mine
      && (!Halted(t) ==> AdvancesOf(s.advances, t.id) <= t.reservedCalls + |t.tools|)
  {
    hide HistoryInv, PendingInv, Sound, Absorb, StillOwned, HonoursGateway;
    OwnedIsLatest(s, runner);
    AbsorbFollows(s.pending[runner].mine, reply);
  }

  lemma DecideKeepsInv(s: Sys, a: Action)
    requires Inv(s) && a.DecideTask? && Allowed(s, a)
    ensures Inv(AfterDecide(s, a))
  {
    if Decide(s.rows, a.agent, a.id, a.decision, a.modified, a.tenant, a.principal).1.Ok? {
      SettledMayFollow(s, a);
      hide MayFollow, PendingInv, ExclusiveInv, UnspentInv, CallsInv, AdvanceInv, HistoryInv, Log;
      var u := Settle(s.rows[a.id].task, a.decision, a.modified, a.principal);
      CommitIsWritten(s, u);
      WriteKeepsInv(s, u, s.advances);
    } else {
      hide Inv;
    }
  }

  lemma SettledMayFollow(s: Sys, a: Action)
    requires HistoryInv(s.rows, s.history) && a.DecideTask? && a.id in s.rows
    requires s.rows[a.id].task.status == AwaitingApproval && ValidDecision(a.decision, a.modified)
    ensures var u := Settle(s.rows[a.id].task, a.decision, a.modified, a.principal);
      && u.id == a.id && Known(s.history, a.id) && MayFollow(s.history[a.id], u) && Halted(u)
  {
    CurrentIsSound(s.rows, s.history, a.id);
    hide HistoryInv, Sound, ValidDecision;
    SettleSound(s.rows[a.id].task, a.decision, a.modified, a.principal);
  }

  lemma RemovalKeepsInv(s: Sys, rows: Rows)
    requires Inv(s) && rows.Keys <= s.rows.Keys && forall k :: k in rows ==> rows[k] == s.rows[k]
    ensures Inv(s.(rows := rows))
  {
    hide GoodHistory, PendingInv, ExclusiveInv, UnspentInv, CallsInv, AdvanceInv;
  }

  lemma NextKeepsInv(s: Sys, a: Action)
    requires Inv(s) && Allowed(s, a)
    ensures Inv(Next(s, a))
  {
    hide Inv;
    match a
    case CreateTask(_, _, _, _, _, _, _) => CreateKeepsInv(s, a);
    case AdvanceTask(_, _, _, _, _) => AdvanceKeepsInv(s, a);
    case CompleteCall(_, _) => CompleteKeepsInv(s, a);
    case CrashBeforeCall(runner) => ReleaseKeepsInv(s, runner);
    case CrashDuringCall(runner) => ExecutionKeepsInv(s, runner);
    case DecideTask(_, _, _, _, _, _) => DecideKeepsInv(s, a);
    case DeleteTask(id, tenant, principal) => RemovalKeepsInv(s, Delete(s.rows, id, tenant, principal));
    case InvalidateTasks(tenant, principal) => RemovalKeepsInv(s, Invalidate(s.rows, tenant, principal));
  }

  /** The invariant holds in every state of every behaviour. */
  lemma {:induction false} InvAlways(states: seq<Sys>, actions: seq<Action>, i: nat)
    requires Behaviour(states, actions) && i < |states|
    ensures Inv(states[i])
  {
    if i == 0 {
    } else {
      hide Inv, Next;
      InvAlways(states, actions, i - 1);
      NextKeepsInv(states[i - 1], actions[i - 1]);
    }
  }

  // ----- theorems about every behaviour -----

  /** Ever committed versions of a task never repeat, so comparing rows cannot be fooled by an old state. */
  lemma VersionsNeverRecur(states: seq<Sys>, actions: seq<Action>, n: nat, id: nat, i: nat, j: nat)
    requires Behaviour(states, actions) && n < |states|
    requires id in states[n].history && i < j < |states[n].history[id]|
    ensures states[n].history[id][i] != states[n].history[id][j]
  {
    InvAlways(states, actions, n);
    assert GoodHistory(id, states[n].history[id]);
  }

  /** A model result is saved only as the direct successor of the very version its own runner reserved. */
  lemma ResultExtendsOwnReservation(states: seq<Sys>, actions: seq<Action>, n: nat)
    requires Behaviour(states, actions) && n < |actions| && actions[n].CompleteCall?
    requires states[n + 1].history != states[n].history
    ensures var r := states[n].pending[actions[n].runner]; var id := r.mine.id;
      && id in states[n].history && r.at == |states[n].history[id]| - 1
      && states[n].history[id][r.at] == r.mine
      && states[n + 1].history == states[n].history[id := states[n].history[id] + [Absorb(r.mine, actions[n].reply)]]
      && states[n + 1].calls == states[n].calls + [Execution(id, r.mine.reservedCalls)]
  {
    InvAlways(states, actions, n);
    var s, a := states[n], actions[n];
    var r := s.pending[a.runner];
    hide Absorb;
    assert Waiting(s.history, r);
    UnownedSavesNothing(s, a);
    SavedResult(s, a);
    assert GoodHistory(r.mine.id, s.history[r.mine.id]);
  }

  lemma UnownedSavesNothing(s: Sys, a: Action)
    requires a.CompleteCall? && Allowed(s, a)
    ensures var r := s.pending[a.runner];
      !StillOwned(s.rows, r.agent, r.mine, r.tenant, r.principal) ==> AfterComplete(s, a).history == s.history
  {
    hide Absorb;
  }

  /** Each reservation number is executed at most once, and never by a runner that has yet to call. */
  lemma EachReservationRunsOnce(states: seq<Sys>, actions: seq<Action>, n: nat, i: nat, j: nat)
    requires Behaviour(states, actions) && n < |states| && i < |states[n].calls| && j < |states[n].calls|
    ensures states[n].calls[i] == states[n].calls[j] ==> i == j
    ensures forall p :: p in states[n].pending ==> Ticket(states[n].pending[p]) != states[n].calls[i]
  {
    InvAlways(states, actions, n);
  }

  /** The reservation numbers executed for one task, in order. */
  ghost function NumbersOf(calls: seq<Execution>, id: nat): seq<nat> {
    if calls == [] then []
    else
      var e := calls[|calls| - 1];
      NumbersOf(calls[..|calls| - 1], id) + if e.id == id then [e.number] else []
  }

  lemma {:induction false} NumbersOfDistinct(history: Histories, calls: seq<Execution>, id: nat)
    requires CallsInv(history, calls)
    ensures Distinct(NumbersOf(calls, id))
    ensures forall k :: k in NumbersOf(calls, id) ==> Execution(id, k) in calls
  {
    if calls == [] {
    } else {
      var front := calls[..|calls| - 1];
      assert forall e :: e in front ==> e in calls;
      assert Distinct(front);
      NumbersOfDistinct(history, front, id);
      assert calls[|calls| - 1] !in front;
    }
  }

  /** Model executions for a task never exceed its reservations, and reservations never exceed its budget. */
  lemma ExecutionsWithinBudget(states: seq<Sys>, actions: seq<Action>, n: nat, id: nat)
    requires Behaviour(states, actions) && n < |states| && Known(states[n].history, id)
    ensures var t := Latest(states[n].history[id]);
      |NumbersOf(states[n].calls, id)| <= t.reservedCalls <= t.maxCalls <= 20
  {
    InvAlways(states, actions, n);
    var s := states[n];
    assert GoodHistory(id, s.history[id]);
    var t := Latest(s.history[id]);
    NumbersOfDistinct(s.history, s.calls, id);
    var numbers := NumbersOf(s.calls, id);
    forall i | 0 <= i < |numbers|
      ensures 1 <= numbers[i] <= t.reservedCalls
    {
      assert numbers[i] in numbers;
      assert Charged(s.history, Execution(id, numbers[i]));
    }
    DistinctNumbersBound(numbers, t.reservedCalls);
  }

  /** Contended, crashed or not: max_calls + 8 + 1 counted advances always reach a halting or approval state. */
  lemma AdvancesHalt(states: seq<Sys>, actions: seq<Action>, n: nat, id: nat)
    requires Behaviour(states, actions) && n < |states| && id in states[n].rows
    requires AdvancesOf(states[n].advances, id) >= states[n].rows[id].task.maxCalls + 8 + 1
    ensures Halted(states[n].rows[id].task)
  {
    InvAlways(states, actions, n);
    assert GoodHistory(id, states[n].history[id]);
  }

  /** Every task in every reachable table is safe to read: nothing is released without its grounds. */
  lemma ReachableTasksSound(states: seq<Sys>, actions: seq<Action>, n: nat, id: nat)
    requires Behaviour(states, actions) && n < |states| && id in states[n].rows
    ensures Sound(states[n].rows[id].task)
  {
    InvAlways(states, actions, n);
    CurrentIsSound(states[n].rows, states[n].history, id);
  }

  // ----- the grounds of every release -----

  /** In this step the owner approves or modifies the waiting draft, which writes version t. */
  ghost predicate HumanRelease(s: Sys, a: Action, id: nat, t: Task) {
    && a.DecideTask? && a.id == id && a.decision != Reject && ValidDecision(a.decision, a.modified)
    && id in s.rows && s.rows[id].tenant == a.tenant && s.rows[id].principal == a.principal
    && s.rows[id].task.status == AwaitingApproval
    && t == Settle(s.rows[id].task, a.decision, a.modified, a.principal)
  }

  /** In this step a runner's admissible approving review of read evidence, with no approval duty, writes version t. */
  ghost predicate ReviewedRelease(s: Sys, a: Action, id: nat, t: Task) {
    && a.CompleteCall? && a.runner in s.pending && id in s.rows && s.rows[id].task == s.pending[a.runner].mine
    && var mine := s.pending[a.runner].mine;
       && mine.id == id && mine.status == Reviewing && !mine.requireApproval && HasRead(mine.tools)
       && a.reply.Answered? && a.reply.admissible && VerdictOf(a.reply.json).Some? && VerdictOf(a.reply.json).value.0
       && t == Absorb(mine, a.reply)
  }

  ghost predicate Unchanged(before: Rows, after: Rows, id: nat) {
    id in before && id in after && before[id].task == after[id].task
  }

  lemma AdvanceReleasesNothing(rows: Rows, a: Action, id: nat)
    requires a.AdvanceTask?
    requires var after := Begin(rows, a.agent, a.id, a.tenant, a.principal).0; id in after && after[id].task.status == Completed
    ensures Unchanged(rows, Begin(rows, a.agent, a.id, a.tenant, a.principal).0, id)
  {
    hide Dispatch;
  }

  lemma DecisionReleases(s: Sys, a: Action, id: nat)
    requires a.DecideTask? && id in AfterDecide(s, a).rows && AfterDecide(s, a).rows[id].task.status == Completed
    ensures Unchanged(s.rows, AfterDecide(s, a).rows, id) || HumanRelease(s, a, id, AfterDecide(s, a).rows[id].task)
  {
  }

  lemma CompletionReleases(s: Sys, a: Action, id: nat)
    requires a.CompleteCall? && Allowed(s, a) && NeedsModel(s.pending[a.runner].mine)
    requires id in AfterComplete(s, a).rows && AfterComplete(s, a).rows[id].task.status == Completed
    ensures Unchanged(s.rows, AfterComplete(s, a).rows, id) || ReviewedRelease(s, a, id, AfterComplete(s, a).rows[id].task)
  {
    hide Absorb, VerdictOf, HasRead, NeedsModel, Log;
    AutomaticReleaseNeedsReview(s.pending[a.runner].mine, a.reply);
  }

  lemma PendingNeedsModel(history: Histories, pending: map<nat, Reservation>, runner: nat)
    requires PendingInv(history, pending) && runner in pending
    ensures NeedsModel(pending[runner].mine)
  {
    assert Waiting(history, pending[runner]);
  }

  /** One step leaves a completed row as it was, or has a ground for completing it. */
  lemma StepReleases(s: Sys, a: Action, id: nat)
    requires Inv(s) && Allowed(s, a) && id in Next(s, a).rows && Next(s, a).rows[id].task.status == Completed
    ensures var t := Next(s, a).rows[id].task;
      Unchanged(s.rows, Next(s, a).rows, id) || HumanRelease(s, a, id, t) || ReviewedRelease(s, a, id, t)
  {
    hide HumanRelease, ReviewedRelease, AfterDecide, AfterComplete, Begin;
    hide HistoryInv, PendingInv, ExclusiveInv, UnspentInv, CallsInv, AdvanceInv, NeedsModel;
    match a
    case AdvanceTask(_, _, _, _, _) => AdvanceReleasesNothing(s.rows, a, id);
    case CompleteCall(_, _) =>
      PendingNeedsModel(s.history, s.pending, a.runner);
      CompletionReleases(s, a, id);
    case DecideTask(_, _, _, _, _, _) => DecisionReleases(s, a, id);
    case _ =>
  }

  /** Behind every completed row there is, earlier in the behaviour, the decision or the review that completed it. */
  lemma {:induction false} ReleaseHasGrounds(states: seq<Sys>, actions: seq<Action>, n: nat, id: nat)
    requires Behaviour(states, actions) && n < |states|
    requires id in states[n].rows && states[n].rows[id].task.status == Completed
    ensures exists m :: 0 <= m < n && (HumanRelease(states[m], actions[m], id, states[n].rows[id].task)
                                       || ReviewedRelease(states[m], actions[m], id, states[n].rows[id].task))
  {
    hide HumanRelease, ReviewedRelease, Next, Allowed, Inv;
    if n > 0 {
      InvAlways(states, actions, n - 1);
      assert Allowed(states[n - 1], actions[n - 1]) && states[n] == Next(states[n - 1], actions[n - 1]);
      StepReleases(states[n - 1], actions[n - 1], id);
      if Unchanged(states[n - 1].rows, states[n].rows, id) {
        ReleaseHasGrounds(states, actions, n - 1, id);
      }
    }
  }

  /** A completed row without a human release was released by an approving review; with an approval duty there is none. */
  lemma AutomaticReleaseWasReviewed(states: seq<Sys>, actions: seq<Action>, n: nat, id: nat)
    requires Behaviour(states, actions) && n < |states|
    requires id in states[n].rows && states[n].rows[id].task.status == Completed && !HumanReleased(states[n].rows[id].task)
    ensures exists m :: 0 <= m < n && ReviewedRelease(states[m], actions[m], id, states[n].rows[id].task)
    ensures !states[n].rows[id].task.requireApproval
  {
    ReleaseHasGrounds(states, actions, n, id);
    ReachableTasksSound(states, actions, n, id);
    hide Behaviour, ReviewedRelease;
  }
}
