/** Why a task is in its status, and where its texts come from. */
module TaskOrigins {
  import opened Basics
  import opened PlanValidation
  import opened DocumentTask
  import opened TaskTable
  import opened AgentProtocol

  // ----- the steps that put a task where it is -----

  /** Not blank, and of at most 8000 characters. */
  predicate Named(text: string) {
    |text| <= 8000 && exists i :: 0 <= i < |text| && !IsSpace(text[i])
  }

  ghost predicate Created(a: Action, id: nat, t: Task) {
    && a.CreateTask? && a.id == id && Named(a.question) && Named(a.tenant) && Named(a.principal)
    && t.question == a.question && t.requireApproval == a.requireApproval && t.cache == a.cache
    && t.model == a.agent.model && t.maxCalls == a.agent.maxCalls && t.maxRevisions == a.agent.maxRevisions
  }

  /** A runner's call returns while the row is still as that runner left it. */
  ghost predicate Returns(s: Sys, a: Action, id: nat) {
    && a.CompleteCall? && a.runner in s.pending && s.pending[a.runner].mine.id == id
    && id in s.rows && s.rows[id].task == s.pending[a.runner].mine
  }

  /** It returns a usable answer for this stage. */
  ghost predicate Replies(s: Sys, a: Action, id: nat, stage: Status) {
    Returns(s, a, id) && s.rows[id].task.status == stage && a.reply.Answered? && a.reply.admissible
  }

  function ReviewJson(approved: bool, feedback: string): Json {
    Obj(map["approved" := Bool(approved), "feedback" := Str(feedback)])
  }

  ghost predicate Reviews(s: Sys, a: Action, id: nat, approved: bool, feedback: string) {
    Replies(s, a, id, Reviewing) && a.reply.json == Some(ReviewJson(approved, feedback)) && |feedback| <= 4000
  }

  /** Some document was read. */
  ghost predicate Supported(t: Task) {
    exists i :: 0 <= i < |t.tools| && t.tools[i].step.tool == Read
  }

  /** The work done so far is left as it was. */
  ghost predicate SameWork(before: Task, t: Task) {
    t.question == before.question && t.plan == before.plan && t.tools == before.tools && t.draft == before.draft
  }

  ghost predicate Planned(s: Sys, a: Action, id: nat, t: Task) {
    && Replies(s, a, id, Planning) && t.plan.Some? && WellFormed(t.plan.value) && a.reply.json == Some(Encode(t.plan.value))
  }

  /** The last step of the plan ran. */
  ghost predicate ToolsFinished(s: Sys, a: Action, id: nat, t: Task) {
    && a.AdvanceTask? && a.id == id && id in s.rows && s.rows[id].task.status == Tools
    && t.plan == s.rows[id].task.plan && t.plan.Some? && |t.tools| == |t.plan.value| == |s.rows[id].task.tools| + 1
    && t.draft == s.rows[id].task.draft && t.revisions == s.rows[id].task.revisions
  }

  /** A review that rejected, or that had no document to rest on, sent the draft back with its feedback. */
  ghost predicate SentBack(s: Sys, a: Action, id: nat, t: Task, approved: bool, feedback: string) {
    && Reviews(s, a, id, approved, feedback) && !(approved && Supported(t)) && SameWork(s.rows[id].task, t)
    && s.rows[id].task.revisions < t.maxRevisions && t.revisions == s.rows[id].task.revisions + 1 && t.feedback == Some(feedback)
  }

  ghost predicate Drafted(s: Sys, a: Action, id: nat, t: Task) {
    && Replies(s, a, id, Drafting) && t.draft == Some(a.reply.text)
    && t.plan == s.rows[id].task.plan && t.tools == s.rows[id].task.tools
  }

  /** A person is asked: the draft passed its review and needs approval, or failed it with no revision left. */
  ghost predicate Escalated(s: Sys, a: Action, id: nat, t: Task, approved: bool, feedback: string) {
    && Reviews(s, a, id, approved, feedback) && SameWork(s.rows[id].task, t)
    && (if approved && Supported(t) then t.requireApproval else t.revisions == s.rows[id].task.revisions == t.maxRevisions)
  }

  /** The owner decides on the waiting draft, and the decision is recorded. */
  ghost predicate Decided(s: Sys, a: Action, id: nat, t: Task, decision: Decision) {
    && a.DecideTask? && a.id == id && a.decision == decision && id in s.rows && s.rows[id].task.status == AwaitingApproval
    && a.tenant == s.rows[id].tenant && a.principal == s.rows[id].principal && SameWork(s.rows[id].task, t)
    && t.trace == s.rows[id].task.trace + [HumanDecision(decision, a.principal)]
  }

  /** What is released is the text a person wrote, or the draft that person or the review approved. */
  ghost predicate ReleasedModified(s: Sys, a: Action, id: nat, t: Task) {
    && Decided(s, a, id, t, Modify) && a.modified.Some? && t.answer == a.modified
    && 1 <= |a.modified.value| <= 16000 && (exists i :: 0 <= i < |a.modified.value| && !IsSpace(a.modified.value[i]))
  }

  ghost predicate ReleasedApproved(s: Sys, a: Action, id: nat, t: Task) {
    Decided(s, a, id, t, Approve) && t.answer == s.rows[id].task.draft && t.answer.Some?
  }

  ghost predicate ReleasedReviewed(s: Sys, a: Action, id: nat, t: Task, feedback: string) {
    && Reviews(s, a, id, true, feedback) && Supported(t) && !t.requireApproval && SameWork(s.rows[id].task, t)
    && t.answer == s.rows[id].task.draft && t.answer.Some?
  }

  /** The next document of the plan is not in the allowlist. */
  ghost predicate ToolFailed(s: Sys, a: Action, id: nat, t: Task) {
    && a.AdvanceTask? && a.id == id && id in s.rows && s.rows[id].task.status == Tools && t.error == Some("tool_failed")
    && t.plan.Some? && |t.tools| < |t.plan.value| && t.plan == s.rows[id].task.plan && t.tools == s.rows[id].task.tools
    && t.plan.value[|t.tools|].tool == Read && t.plan.value[|t.tools|].argument !in s.rows[id].revision
  }

  ghost predicate BudgetSpent(s: Sys, a: Action, id: nat, t: Task) {
    && a.AdvanceTask? && a.id == id && id in s.rows && s.rows[id].task.status in {Planning, Drafting, Reviewing}
    && t.reservedCalls == s.rows[id].task.reservedCalls == t.maxCalls && t.error == Some("budget_exhausted")
  }

  /** The call raised, or what it returned is no usable answer, no plan or no review. */
  ghost predicate CallFailed(s: Sys, a: Action, id: nat, t: Task) {
    && Returns(s, a, id) && t.providerCalls.None?
    && match a.reply
       case CallRaised(reason) => t.error == Some(reason)
       case Answered(_, _, admissible, _, json) =>
         && t.error == Some("ValueError")
         && (|| !admissible
             || (s.rows[id].task.status == Planning && forall p :: WellFormed(p) ==> json != Some(Encode(p)))
             || (s.rows[id].task.status == Reviewing
                   && forall approved, feedback :: |feedback| <= 4000 ==> json != Some(ReviewJson(approved, feedback))))
  }

  /** This step put the task into the status it has. */
  ghost predicate Entered(s: Sys, a: Action, id: nat, t: Task) {
    match t.status
    case Planning => Created(a, id, t)
    case Tools => Planned(s, a, id, t)
    case Drafting => ToolsFinished(s, a, id, t) || exists approved, feedback :: SentBack(s, a, id, t, approved, feedback)
    case Reviewing => Drafted(s, a, id, t)
    case AwaitingApproval => exists approved, feedback :: Escalated(s, a, id, t, approved, feedback)
    case Completed =>
      || ReleasedModified(s, a, id, t) || ReleasedApproved(s, a, id, t) || exists feedback :: ReleasedReviewed(s, a, id, t, feedback)
    case Rejected => Decided(s, a, id, t, Reject) && t.answer.None?
    case Failed => ToolFailed(s, a, id, t) || BudgetSpent(s, a, id, t) || CallFailed(s, a, id, t)
  }

  /** Only a reservation was made, or a tool step that was not the last. */
  ghost predicate Carried(before: Task, t: Task) {
    && t.status in {Planning, Tools, Drafting, Reviewing} && (t.status != Tools ==> t.tools == before.tools)
    && t == before.(reservedCalls := t.reservedCalls, tools := t.tools, trace := t.trace)
  }

  // ----- each step -----

  lemma VerdictIsReview(json: Option<Json>)
    ensures VerdictOf(json).Some? ==> var (approved, feedback) := VerdictOf(json).value;
      |feedback| <= 4000 && json == Some(ReviewJson(approved, feedback))
    ensures VerdictOf(json).None? ==> forall approved, feedback :: |feedback| <= 4000 ==> json != Some(ReviewJson(approved, feedback))
  {
    if VerdictOf(json).Some? {
      var (approved, feedback) := VerdictOf(json).value;
      assert json.value.fields == ReviewJson(approved, feedback).fields;
    }
  }

  lemma CompletionEnters(s: Sys, a: Action, id: nat)
    requires a.CompleteCall? && Allowed(s, a) && Returns(s, a, id) && Sound(s.rows[id].task) && NeedsModel(s.rows[id].task)
    ensures Entered(s, a, id, Absorb(s.rows[id].task, a.reply))
  {
    var t := s.rows[id].task;
    var u := Absorb(t, a.reply);
    hide WellFormed, PlanOf, VerdictOf;
    if a.reply.Answered? && a.reply.admissible && t.status == Reviewing {
      VerdictIsReview(a.reply.json);
      if VerdictOf(a.reply.json).Some? {
        var (approved, feedback) := VerdictOf(a.reply.json).value;
        assert Reviews(s, a, id, approved, feedback);
        if u.status == Drafting {
          assert SentBack(s, a, id, u, approved, feedback);
        } else if u.status == AwaitingApproval {
          assert Escalated(s, a, id, u, approved, feedback);
        } else {
          assert ReleasedReviewed(s, a, id, u, feedback);
        }
      }
    }
  }

  lemma SteppedEnters(s: Sys, a: Action, id: nat)
    requires a.AdvanceTask? && Allowed(s, a) && Runs(s, a) && a.id == id && Sound(s.rows[id].task)
    ensures var t, u := s.rows[id].task, Stepped(a.agent, s.rows[id].task); Carried(t, u) || Entered(s, a, id, u)
  {
    hide WellFormed;
    if s.rows[id].task.status == Tools {
      RunToolSound(a.agent, s.rows[id].task);
    }
  }

  ghost predicate Explained(s: Sys, a: Action, id: nat, after: Rows) {
    id in after ==>
      Unchanged(s.rows, after, id) || (id in s.rows && Carried(s.rows[id].task, after[id].task)) || Entered(s, a, id, after[id].task)
  }

  lemma AdvanceEnters(s: Sys, a: Action, id: nat)
    requires HistoryInv(s.rows, s.history) && a.AdvanceTask? && Allowed(s, a)
    ensures Explained(s, a, id, AfterAdvance(s, a).rows)
  {
    hide Entered, Carried, Sound, Stepped, HistoryInv, RunTool;
    if Runs(s, a) {
      CurrentIsSound(s.rows, s.history, a.id);
      SteppedFollows(a.agent, s.rows[a.id].task);
      BeginIsStepped(s.rows, a.agent, a.id, a.tenant, a.principal);
      SteppedEnters(s, a, a.id);
    }
  }

  lemma CompleteEnters(s: Sys, a: Action, id: nat)
    requires HistoryInv(s.rows, s.history) && PendingInv(s.history, s.pending) && a.CompleteCall? && Allowed(s, a)
    ensures Explained(s, a, id, AfterComplete(s, a).rows)
  {
    hide Entered, Carried, Sound, HistoryInv, PendingInv, Absorb, NeedsModel;
    PendingNeedsModel(s.history, s.pending, a.runner);
    var mine := s.pending[a.runner].mine;
    if mine.id in s.rows {
      CurrentIsSound(s.rows, s.history, mine.id);
    }
    if Returns(s, a, mine.id) {
      CompletionEnters(s, a, mine.id);
    }
  }

  lemma DecideEnters(s: Sys, a: Action, id: nat)
    requires HistoryInv(s.rows, s.history) && a.DecideTask?
    ensures Explained(s, a, id, AfterDecide(s, a).rows)
  {
    hide HistoryInv, Carried, ToolsFollowPlan, Accounted;
    if a.id in s.rows {
      CurrentIsSound(s.rows, s.history, a.id);
    }
  }

  lemma CreateEnters(s: Sys, a: Action, id: nat)
    requires a.CreateTask? && Allowed(s, a)
    ensures Explained(s, a, id, AfterCreate(s, a).rows)
  {
  }

  lemma StepEnters(s: Sys, a: Action, id: nat)
    requires Inv(s) && Allowed(s, a)
    ensures Explained(s, a, id, Next(s, a).rows)
  {
    hide AfterCreate, AfterAdvance, AfterComplete, AfterDecide, Entered, Carried;
    match a
    case CreateTask(_, _, _, _, _, _, _) => CreateEnters(s, a, id);
    case AdvanceTask(_, _, _, _, _) => AdvanceEnters(s, a, id);
    case CompleteCall(_, _) => CompleteEnters(s, a, id);
    case DecideTask(_, _, _, _, _, _) => DecideEnters(s, a, id);
    case _ =>
  }

  lemma CarriedEntered(s: Sys, a: Action, id: nat, before: Task, t: Task)
    requires Carried(before, t) && Entered(s, a, id, before)
    ensures Entered(s, a, id, t)
  {
    hide Reviews, Replies, WellFormed;
    if t.status == Drafting && !ToolsFinished(s, a, id, t) {
      var approved, feedback :| SentBack(s, a, id, before, approved, feedback);
      assert SentBack(s, a, id, t, approved, feedback);
    }
  }

  // ----- over every behaviour -----

  /**
   * Every row of every reachable table was put into its status by an earlier step, for the reason that status
   * stands for, and carries the text that step was given.
   */
  lemma {:induction false} StatusHasGrounds(states: seq<Sys>, actions: seq<Action>, n: nat, id: nat)
    requires Behaviour(states, actions) && n < |states| && id in states[n].rows
    ensures exists m :: 0 <= m < n && Entered(states[m], actions[m], id, states[n].rows[id].task)
  {
    hide Inv, Next, Allowed, Entered, Carried;
    if n > 0 {
      var s, a, t := states[n - 1], actions[n - 1], states[n].rows[id].task;
      InvAlways(states, actions, n - 1);
      assert Allowed(s, a) && states[n] == Next(s, a);
      StepEnters(s, a, id);
      if !Entered(s, a, id, t) {
        StatusHasGrounds(states, actions, n - 1, id);
        var m :| 0 <= m < n - 1 && Entered(states[m], actions[m], id, s.rows[id].task);
        if s.rows[id].task != t {
          CarriedEntered(states[m], actions[m], id, s.rows[id].task, t);
        }
      }
    }
  }

  /** In particular a released answer is word for word what a person wrote, or the draft that was approved. */
  lemma ReleasedTextHasSource(states: seq<Sys>, actions: seq<Action>, n: nat, id: nat)
    requires Behaviour(states, actions) && n < |states| && id in states[n].rows && states[n].rows[id].task.status == Completed
    ensures exists m :: 0 <= m < n && var s, a, answer := states[m], actions[m], states[n].rows[id].task.answer;
      && id in s.rows && answer.Some?
      && ((a.DecideTask? && a.id == id && a.decision == Modify && answer == a.modified)
          || (a.DecideTask? && a.id == id && a.decision == Approve && answer == s.rows[id].task.draft)
          || (a.CompleteCall? && a.runner in s.pending && s.pending[a.runner].mine == s.rows[id].task
              && answer == s.rows[id].task.draft))
  {
    StatusHasGrounds(states, actions, n, id);
    hide Behaviour;
  }

  // ----- evidence, accounts and ownership -----

  /** How one step may change a row that was there before it. */
  ghost predicate Rewritten(s: Sys, a: Action, id: nat, row: Row) {
    && id in s.rows && Sound(s.rows[id].task) && row == s.rows[id].(task := row.task)
    && var t := s.rows[id].task;
       || row.task == t
       || (a.AdvanceTask? && a.id == id && Runs(s, a) && row.task == Stepped(a.agent, t))
       || (a.CompleteCall? && NeedsModel(t) && HonoursGateway(t, a.reply) && row.task == Absorb(t, a.reply))
       || (a.DecideTask? && row.task == Settle(t, a.decision, a.modified, a.principal))
  }

  ghost predicate Inserted(a: Action, id: nat, row: Row) {
    a.CreateTask? && row == Row(a.tenant, a.principal, a.agent.documents,
                                NewTask(a.agent, a.id, a.question, a.requireApproval, a.cache))
    && a.id == id && Named(a.question) && Named(a.tenant) && Named(a.principal)
  }

  ghost predicate Traceable(s: Sys, a: Action, id: nat, after: Rows) {
    id in after ==> Rewritten(s, a, id, after[id]) || Inserted(a, id, after[id])
  }

  lemma AdvanceRows(s: Sys, a: Action, id: nat)
    requires HistoryInv(s.rows, s.history) && a.AdvanceTask? && Allowed(s, a)
    ensures Traceable(s, a, id, AfterAdvance(s, a).rows)
  {
    hide Sound, HistoryInv, RunTool, Stepped;
    if id in s.rows {
      CurrentIsSound(s.rows, s.history, id);
    }
    if Runs(s, a) {
      CurrentIsSound(s.rows, s.history, a.id);
      SteppedFollows(a.agent, s.rows[a.id].task);
      BeginIsStepped(s.rows, a.agent, a.id, a.tenant, a.principal);
    }
  }

  lemma CompleteRows(s: Sys, a: Action, id: nat)
    requires HistoryInv(s.rows, s.history) && PendingInv(s.history, s.pending) && a.CompleteCall? && Allowed(s, a)
    ensures Traceable(s, a, id, AfterComplete(s, a).rows)
  {
    hide Sound, HistoryInv, PendingInv, Absorb, NeedsModel, HonoursGateway, Runs, Log, Executed;
    PendingNeedsModel(s.history, s.pending, a.runner);
    if id in s.rows {
      CurrentIsSound(s.rows, s.history, id);
    }
  }

  lemma OtherRows(s: Sys, a: Action, id: nat)
    requires HistoryInv(s.rows, s.history) && Allowed(s, a) && !a.AdvanceTask? && !a.CompleteCall?
    ensures Traceable(s, a, id, Next(s, a).rows)
  {
    hide Sound, HistoryInv, Settle, NewTask, Runs, ValidDecision, Log;
    if id in s.rows {
      CurrentIsSound(s.rows, s.history, id);
    }
  }

  lemma RowStep(s: Sys, a: Action, id: nat)
    requires Inv(s) && Allowed(s, a)
    ensures Traceable(s, a, id, Next(s, a).rows)
  {
    hide AfterAdvance, AfterComplete, Traceable;
    if a.AdvanceTask? {
      AdvanceRows(s, a, id);
    } else if a.CompleteCall? {
      CompleteRows(s, a, id);
    } else {
      OtherRows(s, a, id);
    }
  }

  /** This step ran step `i` of the plan: the document of the row's own revision, or what the search answered. */
  ghost predicate ExecutedTool(s: Sys, a: Action, id: nat, i: nat, e: Evidence) {
    && a.AdvanceTask? && a.id == id && id in s.rows && s.rows[id].task.status == Tools && |s.rows[id].task.tools| == i
    && s.rows[id].task.plan.Some? && i < |s.rows[id].task.plan.value| && e.step == s.rows[id].task.plan.value[i]
    && match e.step.tool
       case Search => e.result == Matches(a.agent.search(e.step.argument))
       case Read => e.step.argument in s.rows[id].revision && e.result == Document(s.rows[id].revision[e.step.argument])
  }

  lemma StepExecutes(s: Sys, a: Action, id: nat, i: nat, row: Row)
    requires Rewritten(s, a, id, row) && i < |row.task.tools|
    ensures || (i < |s.rows[id].task.tools| && s.rows[id].task.tools[i] == row.task.tools[i])
            || ExecutedTool(s, a, id, i, row.task.tools[i])
  {
    var t := s.rows[id].task;
    if a.AdvanceTask? && row.task == Stepped(a.agent, t) && Runs(s, a) && t.status == Tools {
      RunToolSound(a.agent, t);
      hide ReleaseSafe, Accounted, WellFormed;
    } else {
      hide Sound, RunTool, ExecutedTool, Absorb;
      if a.CompleteCall? && NeedsModel(t) {
        AbsorbShape(t, a.reply);
      }
    }
  }

  /** All evidence a task holds was fetched by its own runners, in plan order, from the documents it was created over. */
  lemma {:induction false} EvidenceIsReal(states: seq<Sys>, actions: seq<Action>, n: nat, id: nat, i: nat)
    requires Behaviour(states, actions) && n < |states| && id in states[n].rows && i < |states[n].rows[id].task.tools|
    ensures exists m :: 0 <= m < n && ExecutedTool(states[m], actions[m], id, i, states[n].rows[id].task.tools[i])
  {
    hide Inv, Next, Allowed, Rewritten, ExecutedTool;
    if n > 0 {
      var s, a := states[n - 1], actions[n - 1];
      InvAlways(states, actions, n - 1);
      assert Allowed(s, a) && states[n] == Next(s, a);
      RowStep(s, a, id);
      if Rewritten(s, a, id, states[n].rows[id]) {
        RewrittenIn(s, a, id, states[n].rows[id]);
        StepExecutes(s, a, id, i, states[n].rows[id]);
        if !ExecutedTool(s, a, id, i, states[n].rows[id].task.tools[i]) {
          EvidenceIsReal(states, actions, n - 1, id, i);
        }
      }
    }
  }

  lemma RewrittenIn(s: Sys, a: Action, id: nat, row: Row)
    requires Rewritten(s, a, id, row)
    ensures id in s.rows && row == s.rows[id].(task := row.task)
  {
  }

  function CallsOf(e: TraceEntry): nat {
    match e
    case ModelCall(_, _, calls) => calls
    case _ => 0
  }

  function ToolOf(e: TraceEntry): seq<Tool> {
    match e
    case ToolRun(tool) => [tool]
    case _ => []
  }

  /** The provider calls a trace accounts for. */
  ghost function Spent(trace: seq<TraceEntry>): nat {
    if trace == [] then 0
    else Spent(trace[..|trace| - 1]) + CallsOf(trace[|trace| - 1])
  }

  /** The tools a trace says were run. */
  ghost function ToolsRun(trace: seq<TraceEntry>): seq<Tool> {
    if trace == [] then []
    else ToolsRun(trace[..|trace| - 1]) + ToolOf(trace[|trace| - 1])
  }

  /** Cached answers are used for drafting only, and only where the task allows it; they cost no call. */
  predicate HitFits(t: Task, e: TraceEntry) {
    e.ModelCall? && e.cacheStatus == HIT ==> t.cache && e.stage == Drafting && e.calls == 0
  }

  /** The trace accounts for every provider call and every executed tool, and for where the cache was used. */
  ghost predicate Traced(t: Task) {
    && (forall e :: e in t.trace ==> HitFits(t, e))
    && (t.providerCalls.Some? ==> t.providerCalls.value == Spent(t.trace))
    && ToolsRun(t.trace) == seq(|t.tools|, i requires 0 <= i < |t.tools| => t.tools[i].step.tool)
  }

  lemma TraceMore(trace: seq<TraceEntry>, e: TraceEntry)
    ensures Spent(trace + [e]) == Spent(trace) + CallsOf(e)
    ensures ToolsRun(trace + [e]) == ToolsRun(trace) + ToolOf(e)
  {
    assert (trace + [e])[..|trace|] == trace;
  }

  /** One more entry, with the call count and the tools that go with it. */
  lemma EntryTraced(t: Task, u: Task, e: TraceEntry)
    requires Traced(t) && u.trace == t.trace + [e] && u.cache == t.cache && HitFits(u, e)
    requires u.providerCalls.Some? ==>
      t.providerCalls.Some? && u.providerCalls.value == t.providerCalls.value + CallsOf(e)
    requires if e.ToolRun? then |u.tools| == |t.tools| + 1 && u.tools[..|t.tools|] == t.tools && u.tools[|t.tools|].step.tool == e.tool
      else u.tools == t.tools
    ensures Traced(u)
  {
    hide Spent, ToolsRun;
    TraceMore(t.trace, e);
    assert forall i :: 0 <= i < |t.tools| ==> u.tools[i] == u.tools[..|t.tools|][i];
  }

  /** A task whose trace, tools, call count and cache flag are those of a traced one. */
  lemma SameTraced(t: Task, u: Task)
    requires Traced(t) && u.trace == t.trace && u.tools == t.tools && u.providerCalls == t.providerCalls && u.cache == t.cache
    ensures Traced(u)
  {
  }

  lemma AbsorbTraced(t: Task, reply: Reply)
    requires Traced(t) && NeedsModel(t) && HonoursGateway(t, reply)
    ensures Traced(Absorb(t, reply))
  {
    hide Traced, WellFormed, PlanOf, VerdictOf, HasRead, Spent, ToolsRun;
    var u := Absorb(t, reply);
    if reply.CallRaised? {
      EntryTraced(t, u, ModelError(t.status, reply.reason));
    } else if t.providerCalls.None? {
      EntryTraced(t, u, ModelError(t.status, "TypeError"));
    } else {
      var call := ModelCall(t.status, reply.status, reply.calls);
      var called := t.(providerCalls := Some(t.providerCalls.value + reply.calls), trace := t.trace + [call]);
      EntryTraced(t, called, call);
      if u.status == Failed {
        EntryTraced(called, u, ModelError(t.status, "ValueError"));
      } else {
        SameTraced(called, u);
      }
    }
  }

  lemma SteppedTraced(agent: Agent, t: Task)
    requires Traced(t) && (t.status == Tools ==> RunTool(agent, t).Some?)
    ensures Traced(Stepped(agent, t))
  {
    hide Traced, Dispatch;
    var u := Stepped(agent, t);
    if u.trace == t.trace {
      SameTraced(t, u);
    } else {
      EntryTraced(t, u, ToolRun(t.plan.value[|t.tools|].tool));
    }
  }

  lemma SettledTraced(t: Task, decision: Decision, modified: Option<string>, principal: string)
    requires Traced(t)
    ensures Traced(Settle(t, decision, modified, principal))
  {
    hide Traced;
    EntryTraced(t, Settle(t, decision, modified, principal), HumanDecision(decision, principal));
  }

  lemma RewriteTraced(s: Sys, a: Action, id: nat, row: Row)
    requires Rewritten(s, a, id, row) && Traced(s.rows[id].task)
    ensures Traced(row.task)
  {
    var t := s.rows[id].task;
    hide Traced, Absorb, Stepped, Sound, RunTool, Settle;
    if row.task == t {
    } else if a.AdvanceTask? {
      SteppedFollows(a.agent, t);
      SteppedTraced(a.agent, t);
    } else if a.CompleteCall? {
      AbsorbTraced(t, a.reply);
    } else {
      SettledTraced(t, a.decision, a.modified, a.principal);
    }
  }

  /** In every reachable table the traces account for all provider calls and tools, and rows belong to their creators. */
  lemma {:induction false} TracesAccount(states: seq<Sys>, actions: seq<Action>, n: nat, id: nat)
    requires Behaviour(states, actions) && n < |states| && id in states[n].rows
    ensures Traced(states[n].rows[id].task)
    ensures exists m :: 0 <= m < n && var row, a := states[n].rows[id], actions[m];
      && Created(a, id, row.task) && row.tenant == a.tenant && row.principal == a.principal && row.revision == a.agent.documents
  {
    hide Inv, Next, Allowed, Rewritten, Traced;
    if n > 0 {
      var s, a := states[n - 1], actions[n - 1];
      InvAlways(states, actions, n - 1);
      assert Allowed(s, a) && states[n] == Next(s, a);
      RowStep(s, a, id);
      if Rewritten(s, a, id, states[n].rows[id]) {
        RewrittenIn(s, a, id, states[n].rows[id]);
        TracesAccount(states, actions, n - 1, id);
        RewriteTraced(s, a, id, states[n].rows[id]);
        RewriteKeepsSettings(s, a, id, states[n].rows[id]);
      } else {
        NewTraced(a);
      }
    }
  }

  lemma NewTraced(a: Action)
    requires a.CreateTask?
    ensures Traced(NewTask(a.agent, a.id, a.question, a.requireApproval, a.cache))
  {
  }

  predicate SameSettings(t: Task, u: Task) {
    && u.question == t.question && u.requireApproval == t.requireApproval && u.cache == t.cache
    && u.model == t.model && u.maxCalls == t.maxCalls && u.maxRevisions == t.maxRevisions
  }

  lemma AbsorbKeepsSettings(t: Task, reply: Reply)
    requires NeedsModel(t)
    ensures SameSettings(t, Absorb(t, reply))
  {
    hide VerdictOf, HasRead, PlanOf;
  }

  lemma RewriteKeepsSettings(s: Sys, a: Action, id: nat, row: Row)
    requires Rewritten(s, a, id, row)
    ensures SameSettings(s.rows[id].task, row.task)
  {
    hide Sound, Absorb, Runs, Dispatch;
    if a.CompleteCall? && NeedsModel(s.rows[id].task) {
      AbsorbKeepsSettings(s.rows[id].task, a.reply);
    }
  }

  // ----- who may change a row -----

  /** The owner, over the same documents and with the same model. */
  predicate ActsFor(agent: Agent, tenant: string, principal: string, row: Row) {
    tenant == row.tenant && principal == row.principal && agent.documents == row.revision && agent.model == row.task.model
  }

  /** This step is an advance, a returning call or a decision of the row's owner on the row as it is. */
  ghost predicate MadeByOwner(s: Sys, a: Action, id: nat)
    requires Allowed(s, a) && id in s.rows
  {
    match a
    case AdvanceTask(_, agent, k, tenant, principal) => k == id && ActsFor(agent, tenant, principal, s.rows[id])
    case CompleteCall(runner, _) =>
      var r := s.pending[runner];
      r.mine == s.rows[id].task && r.mine.id == id && ActsFor(r.agent, r.tenant, r.principal, s.rows[id])
    case DecideTask(agent, k, _, _, tenant, principal) => k == id && ActsFor(agent, tenant, principal, s.rows[id])
    case _ => false
  }

  /** This step deletes the row, or all rows of its owner. */
  ghost predicate RemovedByOwner(a: Action, id: nat, row: Row) {
    || (a.DeleteTask? && a.id == id && a.tenant == row.tenant && a.principal == row.principal)
    || (a.InvalidateTasks? && a.tenant == row.tenant && a.principal == row.principal)
  }

  lemma StepByOwner(s: Sys, a: Action, id: nat)
    requires Allowed(s, a) && id in s.rows && id in s.history
    ensures id in Next(s, a).rows && Next(s, a).rows[id] != s.rows[id] ==> MadeByOwner(s, a, id)
    ensures id !in Next(s, a).rows <==> RemovedByOwner(a, id, s.rows[id])
  {
    hide Absorb, RunTool, Settle, ValidDecision, NewTask;
  }

  /**
   * A row changes only through its owner: an advance, a returning call or a decision of a runner that acts for it. It
   * disappears only, and then always, when its owner deletes it or invalidates his tasks.
   */
  lemma OnlyOwnersChange(states: seq<Sys>, actions: seq<Action>, n: nat, id: nat)
    requires Behaviour(states, actions) && n < |actions| && id in states[n].rows
    ensures id in states[n + 1].rows && states[n + 1].rows[id] != states[n].rows[id] ==> MadeByOwner(states[n], actions[n], id)
    ensures id !in states[n + 1].rows <==> RemovedByOwner(actions[n], id, states[n].rows[id])
  {
    hide Inv, Next, Allowed, MadeByOwner, RemovedByOwner;
    InvAlways(states, actions, n);
    RowIsKnown(states[n], id);
    assert Allowed(states[n], actions[n]) && states[n + 1] == Next(states[n], actions[n]);
    StepByOwner(states[n], actions[n], id);
  }

  lemma RowIsKnown(s: Sys, id: nat)
    requires Inv(s) && id in s.rows
    ensures id in s.history
  {
    CurrentIsSound(s.rows, s.history, id);
  }

  /** A row appears exactly by creation with usable inputs under a fresh identity. */
  lemma CreatedIff(s: Sys, a: Action, id: nat)
    requires Inv(s) && Allowed(s, a) && id !in s.rows
    ensures id in Next(s, a).rows <==> a.CreateTask? && a.id == id && Named(a.question) && Named(a.tenant) && Named(a.principal)
  {
    hide Absorb, RunTool, Settle, ValidDecision, NewTask, HistoryInv, PendingInv, ExclusiveInv, UnspentInv, CallsInv, AdvanceInv;
  }

  /** The owner's decision on a waiting draft is taken, unless it replaces the answer by nothing or by too much. */
  lemma DecisionIsTaken(s: Sys, a: Action)
    requires Allowed(s, a) && a.DecideTask? && a.id in s.rows && s.rows[a.id].task.status == AwaitingApproval
    requires ActsFor(a.agent, a.tenant, a.principal, s.rows[a.id]) && s.rows[a.id].task.version == "document-agent-r4-v1"
    ensures a.id in Next(s, a).rows
    ensures Next(s, a).rows[a.id].task.status == AwaitingApproval <==>
      a.decision == Modify && (a.modified.None? || |a.modified.value| > 16000
                               || forall i :: 0 <= i < |a.modified.value| ==> IsSpace(a.modified.value[i]))
  {
  }
}
