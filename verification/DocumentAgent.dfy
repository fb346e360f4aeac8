/** The agent over a shared database, and the loop that drives one task to a halt. */
module DocumentAgent {
  import opened Basics
  import opened PlanValidation
  import opened DocumentTask
  import opened TaskTable

  class Database {
    var rows: Rows

    constructor ()
      ensures rows == map[]
    {
      rows := map[];
    }
  }

  class Runner {
    const agent: Agent
    const database: Database

    constructor (agent: Agent, database: Database)
      requires agent.Valid()
      ensures this.agent == agent && this.database == database
    {
      this.agent := agent;
      this.database := database;
    }

    method Create(id: nat, question: string, tenant: string, principal: string, requireApproval: bool, cache: bool)
      returns (r: Result<nat, Fault>)
      modifies database
      ensures (database.rows, r) == Insert(old(database.rows), agent, id, question, tenant, principal, requireApproval, cache)
    {
      if !ValidName(question) || !ValidName(tenant) || !ValidName(principal) {
        return Err(InvalidInput);
      }
      if id in database.rows {
        return Err(Duplicate);
      }
      var state := Task(id, question, Planning, None, [], None, None, [], 0, Some(0), 0, requireApproval, cache, None,
                        agent.model, agent.maxCalls, agent.maxRevisions, VERSION, None);
      database.rows := database.rows[id := Row(tenant, principal, agent.documents, state)];
      return Ok(id);
    }

    /** The first transaction of `advance`. */
    method BeginAdvance(id: nat, tenant: string, principal: string) returns (begun: Begun)
      modifies database
      ensures (database.rows, begun) == Begin(old(database.rows), agent, id, tenant, principal)
    {
      var loaded := Load(database.rows, agent, id, tenant, principal);
      if loaded.Err? {
        return Raised(loaded.error);
      }
      var s := loaded.value;
      if s.status in {Completed, Rejected, Failed, AwaitingApproval} {
        return Returned(s);
      }
      if s.status == Tools {
        if s.plan.None? {
          s := s.(status := Failed, error := Some("tool_failed"));
        } else if |s.tools| >= |s.plan.value| {
          return Raised(NoStepLeft);
        } else {
          var step := s.plan.value[|s.tools|];
          var outcome := Dispatch(agent, step);
          if outcome.Some? {
            s := s.(tools := s.tools + [Evidence(step, outcome.value)]);
            s := s.(trace := s.trace + [ToolRun(step.tool)]);
            if |s.tools| == |s.plan.value| {
              s := s.(status := Drafting);
            }
          } else {
            s := s.(status := Failed, error := Some("tool_failed"));
          }
        }
        database.rows := Save(database.rows, id, s);
        return Returned(s);
      }
      if s.reservedCalls >= s.maxCalls {
        s := s.(status := Failed, error := Some("budget_exhausted"));
        database.rows := Save(database.rows, id, s);
        return Returned(s);
      }
      s := s.(reservedCalls := s.reservedCalls + 1);
      database.rows := Save(database.rows, id, s);
      return TaskTable.Reserved(s);
    }

    /** The second transaction of `advance`: nothing is saved unless the row is still exactly `mine`. */
    method FinishAdvance(mine: Task, tenant: string, principal: string, reply: Reply) returns (r: Result<Task, Fault>)
      modifies database
      ensures (database.rows, r) == Finish(old(database.rows), agent, mine, tenant, principal, reply)
    {
      var current := Load(database.rows, agent, mine.id, tenant, principal);
      if current.Err? || current.value != mine {
        return current;
      }
      var s := Receive(mine, reply);
      database.rows := Save(database.rows, mine.id, s);
      return Ok(s);
    }

    /** The body of the try block of `advance` and its exception handler. */
    static method Receive(mine: Task, reply: Reply) returns (s: Task)
      ensures s == Absorb(mine, reply)
    {
      s := mine;
      var stage, failure := s.status, None;
      if reply.CallRaised? {
        failure := Some(reply.reason);
      } else if s.providerCalls.None? {
        failure := Some("TypeError");
      } else {
        s := s.(providerCalls := Some(s.providerCalls.value + reply.calls));
        s := s.(trace := s.trace + [ModelCall(stage, reply.status, reply.calls)]);
        if !reply.admissible {
          failure := Some("ValueError");
        } else if stage == Planning {
          var plan := None;
          if reply.json.Some? {
            plan := ValidatePlan(reply.json.value);
          }
          if plan.None? {
            failure := Some("ValueError");
          } else {
            s := s.(plan := plan, status := Tools);
          }
        } else if stage == Drafting {
          s := s.(draft := Some(reply.text), status := Reviewing);
        } else {
          var verdict := VerdictOf(reply.json);
          if verdict.None? {
            failure := Some("ValueError");
          } else {
            s := ApplyReview(s, verdict.value.0, verdict.value.1);
          }
        }
      }
      if failure.Some? {
        s := s.(status := Failed, error := failure);
        s := s.(trace := s.trace + [ModelError(stage, failure.value)]);
        s := s.(providerCalls := None);
      }
    }

    method DecideTask(id: nat, decision: Decision, modified: Option<string>, tenant: string, principal: string)
      returns (r: Result<Task, Fault>)
      modifies database
      ensures (database.rows, r) == Decide(old(database.rows), agent, id, decision, modified, tenant, principal)
    {
      if decision == Modify && (modified.None? || Blank(modified.value) || |modified.value| > 16000) {
        return Err(InvalidInput);
      }
      var loaded := Load(database.rows, agent, id, tenant, principal);
      if loaded.Err? {
        return loaded;
      }
      var s := loaded.value;
      if s.status != AwaitingApproval {
        return Err(NotAwaitingApproval);
      }
      s := s.(status := if decision == Reject then Rejected else Completed);
      s := s.(answer := if decision == Reject then None else if decision == Modify then modified else s.draft);
      s := s.(trace := s.trace + [HumanDecision(decision, principal)]);
      database.rows := Save(database.rows, id, s);
      return Ok(s);
    }

    method DeleteTask(id: nat, tenant: string, principal: string)
      modifies database
      ensures database.rows == Delete(old(database.rows), id, tenant, principal)
    {
      if id in database.rows && database.rows[id].tenant == tenant && database.rows[id].principal == principal {
        database.rows := database.rows - {id};
      }
    }

    /** One `advance` that no other runner interrupts. */
    method Advance(id: nat, tenant: string, principal: string, gateway: Task -> Reply) returns (r: Result<Task, Fault>)
      requires id in database.rows ==> database.rows[id].task.id == id
      modifies database
      ensures (database.rows, r) == Pass(old(database.rows), agent, id, tenant, principal, gateway)
    {
      hide Absorb, RunTool;
      var begun := BeginAdvance(id, tenant, principal);
      match begun {
        case Raised(fault) =>
          r := Err(fault);
        case Returned(s) =>
          SaveTwice(old(database.rows), id, s, s);
          r := Ok(s);
        case Reserved(s) =>
          SaveTwice(old(database.rows), id, s, Absorb(s, gateway(s)));
          r := FinishAdvance(s, tenant, principal, gateway(s));
      }
    }

    /** The drivers' loop: thirty advances are always enough for a sound task, however far it had got. */
    method Drive(id: nat, tenant: string, principal: string, gateway: Task -> Reply) returns (r: Result<Task, Fault>)
      requires id in database.rows ==> Sound(database.rows[id].task) && database.rows[id].task.id == id
      requires Honest(gateway)
      modifies database
      ensures match Load(old(database.rows), agent, id, tenant, principal)
        case Err(fault) => r == Err(fault) && database.rows == old(database.rows)
        case Ok(t) =>
          && r == Ok(SoloRun(agent, t, gateway, 30)) && Sound(r.value) && Halted(r.value)
          && database.rows == Save(old(database.rows), id, r.value)
    {
      ghost var start := database.rows;
      DriveOutcome(start, agent, id, tenant, principal, gateway);
      hide Pass, Sound, Honest, SoloRun, Load;
      r := Err(Unavailable);
      var n := 0;
      while n < 30
        invariant 0 <= n <= 30
        invariant (database.rows, r) == Passes(start, agent, id, tenant, principal, gateway, n)
        invariant id in database.rows ==> database.rows[id].task.id == id
      {
        PassKeepsId(database.rows, agent, id, tenant, principal, gateway);
        r := Advance(id, tenant, principal, gateway);
        n := n + 1;
        if r.Err? || Halted(r.value) {
          PassesStay(start, agent, id, tenant, principal, gateway, n, 30);
          return;
        }
      }
    }
  }

  /** One uninterrupted `advance` on the table. */
  ghost function Pass(rows: Rows, agent: Agent, id: nat, tenant: string, principal: string, gateway: Task -> Reply)
    : (Rows, Result<Task, Fault>)
  {
    match Load(rows, agent, id, tenant, principal)
    case Err(fault) => (rows, Err(fault))
    case Ok(t) => match Solo(agent, t, gateway)
      case None => (rows, Err(NoStepLeft))
      case Some(u) => (Save(rows, id, u), Ok(u))
  }

  ghost function Passes(rows: Rows, agent: Agent, id: nat, tenant: string, principal: string, gateway: Task -> Reply, n: nat)
    : (Rows, Result<Task, Fault>)
  {
    if n == 0 then (rows, Err(Unavailable))
    else Pass(Passes(rows, agent, id, tenant, principal, gateway, n - 1).0, agent, id, tenant, principal, gateway)
  }

  lemma SaveTwice(rows: Rows, id: nat, t: Task, u: Task)
    ensures Save(Save(rows, id, t), id, u) == Save(rows, id, u)
    ensures id in rows && rows[id].task == t ==> Save(rows, id, t) == rows
  {
  }

  lemma PassKeepsId(rows: Rows, agent: Agent, id: nat, tenant: string, principal: string, gateway: Task -> Reply)
    requires id in rows ==> rows[id].task.id == id
    ensures var next := Pass(rows, agent, id, tenant, principal, gateway).0; id in next ==> next[id].task.id == id
  {
    hide VerdictOf, HasRead, Dispatch;
  }

  /** A halted or refused pass repeats itself. */
  lemma {:induction false} PassesStay(rows: Rows, agent: Agent, id: nat, tenant: string, principal: string,
                                        gateway: Task -> Reply, n: nat, m: nat)
    requires 1 <= n <= m
    requires var r := Passes(rows, agent, id, tenant, principal, gateway, n).1; r.Err? || Halted(r.value)
    ensures Passes(rows, agent, id, tenant, principal, gateway, m) == Passes(rows, agent, id, tenant, principal, gateway, n)
  {
    PassRepeats(Passes(rows, agent, id, tenant, principal, gateway, n - 1).0, agent, id, tenant, principal, gateway);
    hide Pass;
    if n < m {
      PassesStay(rows, agent, id, tenant, principal, gateway, n, m - 1);
    }
  }

  lemma PassRepeats(rows: Rows, agent: Agent, id: nat, tenant: string, principal: string, gateway: Task -> Reply)
    requires var r := Pass(rows, agent, id, tenant, principal, gateway).1; r.Err? || Halted(r.value)
    ensures Pass(Pass(rows, agent, id, tenant, principal, gateway).0, agent, id, tenant, principal, gateway)
      == Pass(rows, agent, id, tenant, principal, gateway)
  {
    hide Absorb, RunTool;
    var loaded := Load(rows, agent, id, tenant, principal);
    if loaded.Ok? && Solo(agent, loaded.value, gateway).Some? {
      var u := Solo(agent, loaded.value, gateway).value;
      SoloKeepsRuntime(agent, loaded.value, gateway);
      var next := Save(rows, id, u);
      SaveTwice(rows, id, u, u);
      assert Load(next, agent, id, tenant, principal) == Ok(u);
    }
  }

  lemma SoloKeepsRuntime(agent: Agent, t: Task, gateway: Task -> Reply)
    ensures var u := Solo(agent, t, gateway); u.Some? ==> u.value.model == t.model && u.value.version == t.version
  {
    hide VerdictOf, HasRead, Dispatch;
  }

  /** Passes over a sound row are its own run, written back. */
  lemma {:induction false} PassesRunTask(rows: Rows, agent: Agent, id: nat, tenant: string, principal: string,
                                           gateway: Task -> Reply, n: nat)
    requires Load(rows, agent, id, tenant, principal).Ok? && Sound(rows[id].task)
    requires Honest(gateway)
    ensures var u := SoloRun(agent, rows[id].task, gateway, n); var done := Passes(rows, agent, id, tenant, principal, gateway, n);
      && done.0 == Save(rows, id, u) && (n > 0 ==> done.1 == Ok(u))
      && Load(Save(rows, id, u), agent, id, tenant, principal) == Ok(u)
  {
    hide Solo, Sound, Honest, Pass;
    var t := rows[id].task;
    if n == 0 {
      SaveTwice(rows, id, t, t);
    } else {
      hide Load, Save;
      PassesRunTask(rows, agent, id, tenant, principal, gateway, n - 1);
      SoloRunProgress(agent, t, gateway, n - 1);
      SoloSound(agent, SoloRun(agent, t, gateway, n - 1), gateway);
      PassOnTask(rows, agent, id, tenant, principal, gateway, SoloRun(agent, t, gateway, n - 1));
    }
  }

  lemma PassOnTask(rows: Rows, agent: Agent, id: nat, tenant: string, principal: string, gateway: Task -> Reply, t: Task)
    requires Load(rows, agent, id, tenant, principal).Ok? && Solo(agent, t, gateway).Some?
    requires Load(Save(rows, id, t), agent, id, tenant, principal) == Ok(t)
    ensures var u := Solo(agent, t, gateway).value; var table := Save(rows, id, u);
      && Pass(Save(rows, id, t), agent, id, tenant, principal, gateway) == (table, Ok(u))
      && Load(table, agent, id, tenant, principal) == Ok(u)
  {
    SoloKeepsRuntime(agent, t, gateway);
    hide Solo;
    SaveTwice(rows, id, t, Solo(agent, t, gateway).value);
  }

  lemma DriveOutcome(rows: Rows, agent: Agent, id: nat, tenant: string, principal: string, gateway: Task -> Reply)
    requires id in rows ==> Sound(rows[id].task)
    requires Honest(gateway)
    ensures match Load(rows, agent, id, tenant, principal)
      case Err(fault) => Passes(rows, agent, id, tenant, principal, gateway, 30) == (rows, Err(fault))
      case Ok(t) => var u := SoloRun(agent, t, gateway, 30);
        Passes(rows, agent, id, tenant, principal, gateway, 30) == (Save(rows, id, u), Ok(u)) && Sound(u) && Halted(u)
  {
    if Load(rows, agent, id, tenant, principal).Ok? {
      PassesRunTask(rows, agent, id, tenant, principal, gateway, 30);
      SoloRunHalts(agent, rows[id].task, gateway, 30);
    } else {
      assert Passes(rows, agent, id, tenant, principal, gateway, 1).1.Err?;
      PassesStay(rows, agent, id, tenant, principal, gateway, 1, 30);
    }
  }

  /** A gateway whose reply to every task meets the gateway contract. */
  ghost predicate Honest(gateway: Task -> Reply) {
    forall t :: HonoursGateway(t, gateway(t))
  }

  /** One uninterrupted `advance` as a function on tasks. */
  ghost function Solo(agent: Agent, t: Task, gateway: Task -> Reply): Option<Task> {
    if Halted(t) then Some(t)
    else if t.status == Tools then RunTool(agent, t)
    else if t.reservedCalls >= t.maxCalls then Some(ExhaustBudget(t))
    else Some(Absorb(Reserve(t), gateway(Reserve(t))))
  }

  ghost function SoloRun(agent: Agent, t: Task, gateway: Task -> Reply, n: nat): Task {
    if n == 0 then t
    else
      var u := SoloRun(agent, t, gateway, n - 1);
      if Solo(agent, u, gateway).Some? then Solo(agent, u, gateway).value else u
  }

  /** How far a task is on the longest path a crash-free run can take. */
  ghost function Position(t: Task): nat {
    match t.status
    case Planning => 0
    case Tools => 1 + |t.tools|
    case Drafting => 1 + |t.tools| + 2 * t.revisions
    case _ => 2 + |t.tools| + 2 * t.revisions
  }

  /** Nothing has been revised before the first draft. */
  predicate Unrevised(t: Task) {
    t.status in {Planning, Tools} ==> t.revisions == 0
  }

  lemma SoloSound(agent: Agent, t: Task, gateway: Task -> Reply)
    requires Sound(t) && Honest(gateway)
    ensures Solo(agent, t, gateway).Some? && Sound(Solo(agent, t, gateway).value)
  {
    if Halted(t) {
    } else if t.status == Tools {
      RunToolSound(agent, t);
    } else if t.reservedCalls >= t.maxCalls {
    } else {
      hide Absorb;
      AbsorbSound(Reserve(t), gateway(Reserve(t)));
    }
  }

  lemma SoloAdvances(agent: Agent, t: Task, gateway: Task -> Reply)
    requires Sound(t) && Solo(agent, t, gateway).Some?
    ensures var u := Solo(agent, t, gateway).value;
      && u.id == t.id && u.maxCalls == t.maxCalls && u.maxRevisions == t.maxRevisions && u.model == t.model && u.version == t.version
      && (!Halted(t) && !Halted(u) ==>
            && u.reservedCalls + |u.tools| == t.reservedCalls + |t.tools| + 1
            && (Unrevised(t) ==> Unrevised(u) && Position(u) == Position(t) + 1))
  {
    if NeedsModel(t) && t.reservedCalls < t.maxCalls {
      AbsorbAdvances(Reserve(t), gateway(Reserve(t)));
      hide Absorb, Sound;
    }
  }

  lemma AbsorbAdvances(t: Task, reply: Reply)
    requires NeedsModel(t) && ToolsFollowPlan(t)
    ensures var u := Absorb(t, reply);
      && u.id == t.id && u.maxCalls == t.maxCalls && u.maxRevisions == t.maxRevisions && u.model == t.model && u.version == t.version
      && u.reservedCalls == t.reservedCalls && u.tools == t.tools
      && (!Halted(u) && Unrevised(t) ==> Unrevised(u) && Position(u) == Position(t) + 1)
  {
    hide WellFormed, HasRead, VerdictOf;
  }

  lemma {:induction false} SoloRunStays(agent: Agent, t: Task, gateway: Task -> Reply, n: nat, m: nat)
    requires n <= m && Halted(SoloRun(agent, t, gateway, n))
    ensures SoloRun(agent, t, gateway, m) == SoloRun(agent, t, gateway, n)
  {
    SoloHalted(agent, SoloRun(agent, t, gateway, n), gateway);
    hide Solo, Halted;
    if n < m {
      SoloRunStays(agent, t, gateway, n, m - 1);
    }
  }

  lemma SoloHalted(agent: Agent, t: Task, gateway: Task -> Reply)
    ensures Halted(t) ==> Solo(agent, t, gateway) == Some(t)
  {
    hide Absorb, RunTool;
  }

  lemma {:induction false} SoloRunProgress(agent: Agent, t: Task, gateway: Task -> Reply, n: nat)
    requires Sound(t) && Honest(gateway)
    ensures var u := SoloRun(agent, t, gateway, n);
      && Sound(u) && u.maxCalls == t.maxCalls && u.maxRevisions == t.maxRevisions
      && (!Halted(u) ==> u.reservedCalls + |u.tools| == t.reservedCalls + |t.tools| + n)
  {
    if n == 0 {
    } else {
      SoloRunProgress(agent, t, gateway, n - 1);
      hide Solo, Honest;
      SoloSound(agent, SoloRun(agent, t, gateway, n - 1), gateway);
      SoloAdvances(agent, SoloRun(agent, t, gateway, n - 1), gateway);
    }
  }

  /** From any sound task, max_calls + 8 + 1 uninterrupted advances halt it. */
  lemma SoloRunHalts(agent: Agent, t: Task, gateway: Task -> Reply, n: nat)
    requires Sound(t) && n >= t.maxCalls + 8 + 1
    requires Honest(gateway)
    ensures Sound(SoloRun(agent, t, gateway, n)) && Halted(SoloRun(agent, t, gateway, n))
  {
    SoloRunProgress(agent, t, gateway, n);
    hide SoloRun, Honest;
  }

  lemma {:induction false} FreshRunPosition(agent: Agent, t: Task, gateway: Task -> Reply, n: nat)
    requires Sound(t) && t.status == Planning && t.revisions == 0
    requires Honest(gateway)
    ensures var u := SoloRun(agent, t, gateway, n);
      && Sound(u) && u.maxRevisions == t.maxRevisions
      && (!Halted(u) ==> Position(u) == n && Unrevised(u))
  {
    if n == 0 {
    } else {
      FreshRunPosition(agent, t, gateway, n - 1);
      hide Solo, Honest;
      SoloSound(agent, SoloRun(agent, t, gateway, n - 1), gateway);
      SoloAdvances(agent, SoloRun(agent, t, gateway, n - 1), gateway);
    }
  }

  /** A lone crash-free runner needs at most 1 + 8 + 2 * (max_revisions + 1), that is 17, advances from creation. */
  lemma FreshRunHalts(agent: Agent, id: nat, question: string, requireApproval: bool, cache: bool, gateway: Task -> Reply)
    requires agent.Valid() && Honest(gateway)
    ensures var bound := 1 + 8 + 2 * (agent.maxRevisions + 1);
      bound <= 17 && Halted(SoloRun(agent, NewTask(agent, id, question, requireApproval, cache), gateway, bound))
  {
    NewTaskSound(agent, id, question, requireApproval, cache);
    FreshRunPosition(agent, NewTask(agent, id, question, requireApproval, cache), gateway, 1 + 8 + 2 * (agent.maxRevisions + 1));
    hide SoloRun, Honest;
  }
}
