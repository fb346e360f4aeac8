/** The checkpointed state of one document-agent task and the transitions that rewrite it. */
module DocumentTask {
  import opened Basics
  import opened PlanValidation

  const VERSION := "document-agent-r4-v1"

  datatype Status = Planning | Tools | Drafting | Reviewing | AwaitingApproval | Completed | Rejected | Failed

  datatype Decision = Approve | Modify | Reject

  datatype CacheStatus = HIT | MISS | BYPASS

  datatype ToolResult = Matches(ids: seq<string>) | Document(text: string)

  datatype Evidence = Evidence(step: Step, result: ToolResult)

  datatype TraceEntry =
    | ToolRun(tool: Tool)
    | ModelCall(stage: Status, cacheStatus: CacheStatus, calls: nat)
    | ModelError(stage: Status, reason: string)
    | HumanDecision(decision: Decision, principal: string)

  datatype Task = Task(
    id: nat, question: string, status: Status, plan: Option<seq<Step>>, tools: seq<Evidence>,
    draft: Option<string>, answer: Option<string>, trace: seq<TraceEntry>,
    reservedCalls: nat, providerCalls: Option<nat>, revisions: nat,
    requireApproval: bool, cache: bool, feedback: Option<string>,
    model: string, maxCalls: nat, maxRevisions: nat, version: string, error: Option<string>)

  /** An agent instance: its document allowlist (the source revision), search ranking, model and budgets. */
  datatype Agent = Agent(documents: map<string, string>, search: string -> seq<string>,
                         model: string, maxCalls: nat, maxRevisions: nat)
  {
    predicate Valid() { 3 <= maxCalls <= 20 && maxRevisions <= 3 }
  }

  /** What a gateway call can come back with. `json` is the strict parse of the answer text. */
  datatype Reply =
    | CallRaised(reason: string)
    | Answered(status: CacheStatus, calls: nat, admissible: bool, text: string, json: Option<Json>)

  predicate Halted(t: Task) {
    t.status in {Completed, Rejected, Failed, AwaitingApproval}
  }

  predicate NeedsModel(t: Task) {
    t.status in {Planning, Drafting, Reviewing}
  }

  /** Cache reuse is requested only for drafting, and only if it was enabled at creation. */
  predicate BypassesCache(t: Task) {
    !t.cache || t.status != Drafting
  }

  /** The gateway contract: a hit costs nothing, anything else costs one call, and a bypass never hits. */
  predicate HonoursGateway(t: Task, reply: Reply) {
    reply.Answered? ==>
      && reply.calls == (if reply.status == HIT then 0 else 1)
      && (BypassesCache(t) ==> reply.status == BYPASS)
  }

  function NewTask(agent: Agent, id: nat, question: string, requireApproval: bool, cache: bool): Task {
    Task(id, question, Planning, None, [], None, None, [], 0, Some(0), 0, requireApproval, cache, None,
         agent.model, agent.maxCalls, agent.maxRevisions, VERSION, None)
  }

  predicate HasRead(evidence: seq<Evidence>) {
    exists i :: 0 <= i < |evidence| && evidence[i].step.tool == Read
  }

  function Dispatch(agent: Agent, step: Step): Option<ToolResult> {
    match step.tool
    case Search => Some(Matches(agent.search(step.argument)))
    case Read => if step.argument in agent.documents then Some(Document(agent.documents[step.argument])) else None
  }

  /** One local tool. None is the uncaught index error of a task with no step left; nothing is saved then. */
  function RunTool(agent: Agent, t: Task): Option<Task> {
    if t.plan.None? then Some(t.(status := Failed, error := Some("tool_failed")))
    else if |t.tools| >= |t.plan.value| then None
    else
      var step := t.plan.value[|t.tools|];
      match Dispatch(agent, step)
      case None => Some(t.(status := Failed, error := Some("tool_failed")))
      case Some(found) =>
        var tools := t.tools + [Evidence(step, found)];
        Some(t.(tools := tools, trace := t.trace + [ToolRun(step.tool)],
                status := if |tools| == |t.plan.value| then Drafting else Tools))
  }

  function ExhaustBudget(t: Task): Task {
    t.(status := Failed, error := Some("budget_exhausted"))
  }

  function Reserve(t: Task): Task {
    t.(reservedCalls := t.reservedCalls + 1)
  }

  function FailCall(t: Task, reason: string): Task {
    t.(status := Failed, error := Some(reason), trace := t.trace + [ModelError(t.status, reason)], providerCalls := None)
  }

  /** A review verdict: exactly an approval flag and bounded feedback. */
  function VerdictOf(j: Option<Json>): Option<(bool, string)> {
    if j.Some? && j.value.Obj? && j.value.fields.Keys == {"approved", "feedback"}
       && j.value.fields["approved"].Bool? && j.value.fields["feedback"].Str?
       && |j.value.fields["feedback"].text| <= 4000
    then Some((j.value.fields["approved"].flag, j.value.fields["feedback"].text))
    else None
  }

  function ApplyReview(t: Task, approved: bool, feedback: string): Task {
    if approved && HasRead(t.tools) then
      if t.requireApproval then t.(status := AwaitingApproval) else t.(status := Completed, answer := t.draft)
    else if t.revisions < t.maxRevisions then
      t.(revisions := t.revisions + 1, feedback := Some(feedback), status := Drafting)
    else t.(status := AwaitingApproval)
  }

  /** A task after the model's reply; every malformed reply fails it and makes its call count unknown. */
  ghost function Absorb(t: Task, reply: Reply): Task {
    match reply
    case CallRaised(reason) => FailCall(t, reason)
    case Answered(status, calls, admissible, text, json) =>
      if t.providerCalls.None? then FailCall(t, "TypeError")
      else
        var u := t.(providerCalls := Some(t.providerCalls.value + calls), trace := t.trace + [ModelCall(t.status, status, calls)]);
        if !admissible then FailCall(u, "ValueError")
        else match t.status
          case Planning =>
            var plan := if json.Some? then PlanOf(json.value) else None;
            if plan.None? then FailCall(u, "ValueError") else u.(plan := plan, status := Tools)
          case Drafting => u.(draft := Some(text), status := Reviewing)
          case _ =>
            var verdict := VerdictOf(json);
            if verdict.None? then FailCall(u, "ValueError") else ApplyReview(u, verdict.value.0, verdict.value.1)
  }

  function Settle(t: Task, decision: Decision, modified: Option<string>, principal: string): Task {
    t.(status := if decision == Reject then Rejected else Completed,
       answer := match decision case Reject => None case Modify => modified case Approve => t.draft,
       trace := t.trace + [HumanDecision(decision, principal)])
  }

  predicate ValidDecision(decision: Decision, modified: Option<string>) {
    decision == Modify ==> modified.Some? && !Blank(modified.value) && |modified.value| <= 16000
  }

  // ----- what every committed version of a task satisfies -----

  ghost predicate HumanReleased(t: Task) {
    |t.trace| > 0 && match t.trace[|t.trace| - 1]
      case HumanDecision(decision, _) => decision != Reject
      case _ => false
  }

  ghost predicate HumanRejected(t: Task) {
    |t.trace| > 0 && match t.trace[|t.trace| - 1]
      case HumanDecision(decision, _) => decision == Reject
      case _ => false
  }

  /** Executed tools are a prefix of the plan, and all of it once drafting starts. */
  ghost predicate ToolsFollowPlan(t: Task) {
    match t.plan
    case None => t.tools == [] && t.status in {Planning, Failed}
    case Some(plan) =>
      && WellFormed(plan)
      && |t.tools| <= |plan|
      && (forall i :: 0 <= i < |t.tools| ==> t.tools[i].step == plan[i])
      && t.status != Planning
      && (t.status == Tools ==> |t.tools| < |plan|)
      && (t.status in {Drafting, Reviewing, AwaitingApproval, Completed, Rejected} ==> |t.tools| == |plan|)
  }

  ghost predicate ReleaseSafe(t: Task) {
    && (t.answer.Some? <==> t.status == Completed)
    && (t.status == Completed ==> HumanReleased(t) || (!t.requireApproval && HasRead(t.tools) && t.answer == t.draft))
    && (t.status == Rejected ==> HumanRejected(t))
    && (t.status in {Reviewing, AwaitingApproval, Completed, Rejected} ==> t.draft.Some?)
  }

  ghost predicate Accounted(t: Task) {
    && 3 <= t.maxCalls <= 20 && t.maxRevisions <= 3
    && t.reservedCalls <= t.maxCalls && t.revisions <= t.maxRevisions
    && (t.status != Failed ==> t.providerCalls.Some?)
    && (t.providerCalls.Some? ==> t.providerCalls.value <= t.reservedCalls)
    && (t.status == Failed <==> t.error.Some?)
  }

  ghost predicate Sound(t: Task) {
    ToolsFollowPlan(t) && ReleaseSafe(t) && Accounted(t)
  }

  /** Every dependency of an executed step was executed before it. */
  lemma DependenciesRanFirst(t: Task, i: nat, d: string)
    requires Sound(t) && i < |t.tools| && d in t.tools[i].step.dependsOn
    ensures exists j :: 0 <= j < i && t.tools[j].step.id == d
  {
    assert DependenciesPrecede(t.plan.value, i);
    var j :| 0 <= j < i && t.plan.value[j].id == d;
    assert t.tools[j].step.id == d;
  }

  lemma NewTaskSound(agent: Agent, id: nat, question: string, requireApproval: bool, cache: bool)
    requires agent.Valid()
    ensures Sound(NewTask(agent, id, question, requireApproval, cache))
  {
  }

  lemma RunToolSound(agent: Agent, t: Task)
    requires Sound(t) && t.status == Tools
    ensures RunTool(agent, t).Some? && Sound(RunTool(agent, t).value)
    ensures var u := RunTool(agent, t).value; u.status == Failed || |u.tools| == |t.tools| + 1
  {
  }

  lemma AbsorbSound(t: Task, reply: Reply)
    requires Sound(t) && NeedsModel(t) && HonoursGateway(t, reply)
    requires t.providerCalls.value < t.reservedCalls
    ensures Sound(Absorb(t, reply))
  {
    AbsorbKeepsTools(t, reply);
    AbsorbKeepsRelease(t, reply);
    AbsorbKeepsAccounts(t, reply);
    hide Absorb;
  }

  lemma AbsorbKeepsTools(t: Task, reply: Reply)
    requires ToolsFollowPlan(t) && NeedsModel(t)
    ensures ToolsFollowPlan(Absorb(t, reply))
  {
    hide HasRead, VerdictOf;
  }

  lemma AbsorbKeepsRelease(t: Task, reply: Reply)
    requires ReleaseSafe(t) && NeedsModel(t)
    ensures ReleaseSafe(Absorb(t, reply))
  {
    hide HasRead, VerdictOf;
  }

  lemma AbsorbKeepsAccounts(t: Task, reply: Reply)
    requires Accounted(t) && NeedsModel(t) && HonoursGateway(t, reply)
    requires t.providerCalls.value < t.reservedCalls
    ensures Accounted(Absorb(t, reply))
  {
    hide HasRead, VerdictOf;
  }

  /** Automatic release needs an approving review over at least one read document, and no approval duty. */
  lemma AutomaticReleaseNeedsReview(t: Task, reply: Reply)
    requires NeedsModel(t)
    ensures Absorb(t, reply).status == Completed <==>
      && t.status == Reviewing && t.providerCalls.Some? && reply.Answered? && reply.admissible
      && VerdictOf(reply.json).Some? && VerdictOf(reply.json).value.0
      && HasRead(t.tools) && !t.requireApproval
  {
  }

  lemma SettleSound(t: Task, decision: Decision, modified: Option<string>, principal: string)
    requires Sound(t) && t.status == AwaitingApproval && ValidDecision(decision, modified)
    ensures Sound(Settle(t, decision, modified, principal))
  {
  }
}
