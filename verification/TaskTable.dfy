/** The `document_tasks` table and its transactions, each as a function from table to table. */
module TaskTable {
  import opened Basics
  import opened DocumentTask

  /** The revision column is the digest of the allowlist; an injective digest is the allowlist itself. */
  datatype Row = Row(tenant: string, principal: string, revision: map<string, string>, task: Task)

  type Rows = map<nat, Row>

  datatype Fault =
    | InvalidInput | Duplicate | Unavailable | RevisionChanged | RuntimeChanged | NoStepLeft | NotAwaitingApproval

  /** What part one of `advance` did: finished the call, or reserved a model call and committed. */
  datatype Begun = Returned(task: Task) | Reserved(task: Task) | Raised(fault: Fault)

  predicate ValidName(s: string) {
    !Blank(s) && |s| <= 8000
  }

  function Load(rows: Rows, agent: Agent, id: nat, tenant: string, principal: string): Result<Task, Fault> {
    if id !in rows || rows[id].tenant != tenant || rows[id].principal != principal then Err(Unavailable)
    else if rows[id].revision != agent.documents then Err(RevisionChanged)
    else if rows[id].task.model != agent.model || rows[id].task.version != VERSION then Err(RuntimeChanged)
    else Ok(rows[id].task)
  }

  /** The UPDATE statement: rewrites the row with this identity, and nothing if it is gone. */
  function Save(rows: Rows, id: nat, t: Task): Rows {
    if id in rows then rows[id := rows[id].(task := t)] else rows
  }

  function Insert(rows: Rows, agent: Agent, id: nat, question: string, tenant: string, principal: string,
                  requireApproval: bool, cache: bool): (Rows, Result<nat, Fault>) {
    if !ValidName(question) || !ValidName(tenant) || !ValidName(principal) then (rows, Err(InvalidInput))
    else if id in rows then (rows, Err(Duplicate))
    else (rows[id := Row(tenant, principal, agent.documents, NewTask(agent, id, question, requireApproval, cache))], Ok(id))
  }

  /** Part one of `advance`: one local tool, or a budget failure, or a durable call reservation. */
  function Begin(rows: Rows, agent: Agent, id: nat, tenant: string, principal: string): (Rows, Begun) {
    match Load(rows, agent, id, tenant, principal)
    case Err(fault) => (rows, Raised(fault))
    case Ok(t) =>
      if Halted(t) then (rows, Returned(t))
      else if t.status == Tools then
        match RunTool(agent, t)
        case None => (rows, Raised(NoStepLeft))
        case Some(u) => (Save(rows, id, u), Returned(u))
      else if t.reservedCalls >= t.maxCalls then (Save(rows, id, ExhaustBudget(t)), Returned(ExhaustBudget(t)))
      else (Save(rows, id, Reserve(t)), Reserved(Reserve(t)))
  }

  /** Whether part two finds the row exactly as part one of the same runner left it. */
  predicate StillOwned(rows: Rows, agent: Agent, mine: Task, tenant: string, principal: string) {
    Load(rows, agent, mine.id, tenant, principal) == Ok(mine)
  }

  /** Part two of `advance`: the model is called and its result saved only over the reserved state. */
  ghost function Finish(rows: Rows, agent: Agent, mine: Task, tenant: string, principal: string, reply: Reply)
    : (Rows, Result<Task, Fault>)
  {
    match Load(rows, agent, mine.id, tenant, principal)
    case Err(fault) => (rows, Err(fault))
    case Ok(current) =>
      if current != mine then (rows, Ok(current))
      else (Save(rows, mine.id, Absorb(mine, reply)), Ok(Absorb(mine, reply)))
  }

  function Decide(rows: Rows, agent: Agent, id: nat, decision: Decision, modified: Option<string>,
                  tenant: string, principal: string): (Rows, Result<Task, Fault>) {
    if !ValidDecision(decision, modified) then (rows, Err(InvalidInput))
    else match Load(rows, agent, id, tenant, principal)
      case Err(fault) => (rows, Err(fault))
      case Ok(t) =>
        if t.status != AwaitingApproval then (rows, Err(NotAwaitingApproval))
        else (Save(rows, id, Settle(t, decision, modified, principal)), Ok(Settle(t, decision, modified, principal)))
  }

  function Delete(rows: Rows, id: nat, tenant: string, principal: string): Rows {
    map k | k in rows && !(k == id && rows[k].tenant == tenant && rows[k].principal == principal) :: rows[k]
  }

  function Invalidate(rows: Rows, tenant: string, principal: string): Rows {
    map k | k in rows && !(rows[k].tenant == tenant && rows[k].principal == principal) :: rows[k]
  }
}
