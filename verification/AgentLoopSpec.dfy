/** What each transaction of the agent loop does to the store. */
module AgentLoopSpec {
  import opened Basics
  import opened Authorization
  import opened Tasks
  import opened Store
  import opened EngineSpec

  const MAX_STEPS := 12
  const MAX_SECONDS := 86400
  const MAX_ACTIVE_RUNS := 100
  const PLANNER_LEASE_SECONDS: Time := 180.0
  const DASHBOARD_CHANNEL := "agent"
  const LOOP_ACTOR := "agent-loop"

  function MinTime(a: Time, b: Time): Time { if a <= b then a else b }

  // ---------------------------------------------------------------------- create

  predicate RunKeyTaken(db: Db, key: RunKey) {
    exists r :: r in db.runs && db.runs[r].key == key
  }

  ghost function RunByKey(db: Db, key: RunKey): (r: Id)
    requires RunKeyTaken(db, key)
    ensures r in db.runs && db.runs[r].key == key
  {
    var r :| r in db.runs && db.runs[r].key == key;
    r
  }

  function ActiveRuns(db: Db): set<Id> { set r | r in db.runs && ActiveRun(db.runs[r].status) }

  predicate RequestOk(q: Request) {
    && !Blank(q.agent) && |q.agent| <= 128
    && !Blank(q.actor) && |q.actor| <= 128
    && !Blank(q.channel) && |q.channel| <= 32
    && !Blank(q.input) && |q.input| <= 4000
    && 1 <= q.maxSteps <= MAX_STEPS
    && 60 <= q.maxSeconds <= MAX_SECONDS
  }

  /** The caller's own key; a conversation's is derived and always fits. */
  predicate RunKeyOk(key: RunKey) { key.Dashboard? ==> !Blank(key.text) && |key.text| <= MAX_IDENTITY_CHARS }

  function FreshRun(key: RunKey, q: Request, now: Time): Run {
    Run(key, q, RunPending, now + q.maxSeconds as real, q.maxSteps + 1, 0, 0, NO_ID, NO_ID, 0.0, "", [], "", [])
  }

  ghost function Create(db: Db, env: Env, key: RunKey, q: Request, now: Time): Tx<Id> {
    if !RequestOk(q) || !RunKeyOk(key) then Tx(db, Err(Invalid))
    else if q.agent !in env.policies || env.policies[q.agent].rules.ladder == UnknownLadder
    then Tx(db, Err(Forbidden))
    else if !env.authority(q.channel, q.actor, MEMBERS) then Tx(db, Err(Forbidden))
    else if RunKeyTaken(db, key) then
      var r := RunByKey(db, key);
      if db.runs[r].request == q then Tx(db, Ok(r)) else Tx(db, Err(Conflict))
    else if !Active(db, env) then Tx(db, Err(Forbidden))
    else if |ActiveRuns(db)| >= MAX_ACTIVE_RUNS then Tx(db, Err(RateLimited))
    else Tx(db.(runs := db.runs[db.next := FreshRun(key, q, now)], next := db.next + 1), Ok(db.next))
  }

  // ------------------------------------------------------------------------ stop

  /** The run has a current task, and it is linked to it. */
  predicate CurrentLinked(db: Db, rid: Id)
    requires rid in db.runs
  {
    var run := db.runs[rid];
    run.currentTask != NO_ID && LinksTask(run, run.currentTask) && run.currentTask in db.tasks
  }

  /** What `_stop` does to the tasks: retire whatever the current one still has open. */
  function StopTasks(db: Db, rid: Id, reason: string, actor: string): map<Id, Task>
    requires rid in db.runs
  {
    if CurrentLinked(db, rid)
    then db.tasks[db.runs[rid].currentTask := StopTask(db.tasks[db.runs[rid].currentTask], reason, actor)]
    else db.tasks
  }

  /** The status and reason the run ends with. */
  function StopOutcome(db: Db, rid: Id, status: RunStatus, reason: string, actor: string): (RunStatus, string)
    requires rid in db.runs
  {
    if db.runs[rid].currentTask == NO_ID then (status, reason)
    else if !CurrentLinked(db, rid) then (Escalated, "run_task_link_invalid")
    else if StopTask(db.tasks[db.runs[rid].currentTask], reason, actor).status == Uncertain then (RunUncertain, reason)
    else (status, reason)
  }

  /** `_stop`: retire a run together with whatever its current task still has open. */
  function Stop(db: Db, rid: Id, status: RunStatus, reason: string, actor: string): Db
    requires rid in db.runs
  {
    var end := StopOutcome(db, rid, status, reason, actor);
    db.(tasks := StopTasks(db, rid, reason, actor), runs := db.runs[rid := Ended(db.runs[rid], end.0, end.1)])
  }

  function Ended(run: Run, status: RunStatus, reason: string): Run {
    run.(status := status, error := reason, claim := NO_ID, lease := 0.0)
  }

  function CancelRun(db: Db, env: Env, rid: Id, actor: string): Tx<RunStatus> {
    if !env.authority("web", actor, MEMBERS) then Tx(db, Err(Forbidden))
    else if rid !in db.runs then Tx(db, Err(NotFound))
    else if !ActiveRun(db.runs[rid].status) then Tx(db, Ok(db.runs[rid].status))
    else
      var db' := Stop(db, rid, RunCancelled, "operator_cancelled", actor);
      Tx(db', Ok(db'.runs[rid].status))
  }

  // --------------------------------------------------------------------- reserve

  /** `_observations`: the whole history of the run is there and succeeded. `fits` is
      whether its text is within the context bounds. */
  predicate Observable(db: Db, run: Run, fits: bool) {
    && |run.links| == run.steps
    && (forall k :: 0 <= k < |run.links| ==>
          && run.links[k].task in db.tasks
          && var t := db.tasks[run.links[k].task];
             t.status == Succeeded && |t.steps| > 0 && t.steps[0].status == Succeeded)
    && fits
  }

  /** Why `_reserve` retires a run instead of planning it, or None. */
  function Obstacle(db: Db, env: Env, run: Run, now: Time, fits: bool): Option<(RunStatus, string)>
    requires ActiveRun(run.status)
  {
    if run.deadline <= now then Some((Escalated, "wall_deadline_exceeded"))
    else if !env.authority(run.request.channel, run.request.actor, MEMBERS)
    then Some((Escalated, "creator_authority_revoked"))
    else if run.status.Planning? then
      if run.lease <= now then Some((Escalated, "planner_lease_expired_no_retry")) else None
    else if db.frozen then None
    else if run.status.WaitingTask? && run.currentTask !in db.tasks then Some((Escalated, "task_missing"))
    else if run.status.WaitingTask? && Open(db.tasks[run.currentTask].status) then None
    else if run.status.WaitingTask? && db.tasks[run.currentTask].status != Succeeded then
      match db.tasks[run.currentTask].status
      case Uncertain => Some((RunUncertain, "task_uncertain"))
      case Cancelled => Some((RunCancelled, "task_cancelled"))
      case _ => Some((Escalated, "task_failed"))
    else if run.calls >= run.maxCalls then Some((Escalated, "planner_call_budget_exhausted"))
    else if !Observable(db, run, fits) then Some((Escalated, "observation_unavailable_or_too_large"))
    else None
  }

  /** A live run that has nothing to be planned now. */
  predicate NotDue(db: Db, run: Run) {
    || run.status.Planning?
    || db.frozen
    || (run.status.WaitingTask? && run.currentTask in db.tasks && Open(db.tasks[run.currentTask].status))
  }

  datatype Reserved = Idle | Moved | Reservation(claim: Id, callIndex: nat)

  function Reserve(db: Db, env: Env, rid: Id, now: Time, fits: bool): Tx<Reserved> {
    if rid !in db.runs then Tx(db, Err(NotFound))
    else
      var run := db.runs[rid];
      if !ActiveRun(run.status) then Tx(db, Ok(Idle))
      else
        var obstacle := Obstacle(db, env, run, now, fits);
        if obstacle.Some?
        then Tx(Stop(db, rid, obstacle.value.0, obstacle.value.1, LOOP_ACTOR), Ok(Moved))
        else if NotDue(db, run) then Tx(db, Ok(Idle))
        else
          var planning := run.(status := Planning, claim := db.next, calls := run.calls + 1,
                               lease := MinTime(run.deadline, now + PLANNER_LEASE_SECONDS));
          Tx(db.(runs := db.runs[rid := planning], next := db.next + 1),
             Ok(Reservation(db.next, run.calls + 1)))
  }

  // ---------------------------------------------------------------------- commit

  datatype Decision =
    | UseTool(tool: string, args: Args)
    | Answer(answer: string, evidence: seq<Id>)
    | Ask(question: string)
    | Malformed

  /** `_decision`: the shape and the policy gates of one planner decision. */
  function CheckDecision(env: Env, run: Run, d: Decision): Result<()> {
    match d
    case UseTool(tool, args) =>
      if run.steps >= run.request.maxSteps then Err(Invalid)
      else if run.request.channel != DASHBOARD_CHANNEL && Outbound(tool) then Err(Forbidden)
      else if tool !in env.registry then Err(Missing)
      else if env.registry[tool].runner then Err(Forbidden)
      else
        (match Validate(env, run.request.agent, [Call(tool, args, "")], NoOrigin)
         case Err(e) => Err(e)
         case Ok(_) => Ok(()))
    case Answer(answer, evidence) =>
      if Blank(answer) || |answer| > 8000 then Err(Invalid)
      else if !(1 <= |evidence| <= MAX_STEPS)
           || (exists k :: 0 <= k < |evidence| && !LinksTask(run, evidence[k]))
           || (exists j, k :: 0 <= j < k < |evidence| && evidence[j] == evidence[k])
      then Err(Invalid)
      else Ok(())
    case Ask(question) => if Blank(question) || |question| > 1000 then Err(Invalid) else Ok(())
    case Malformed => Err(Invalid)
  }

  predicate Repeated(run: Run, tool: string, args: Args) {
    exists k :: 0 <= k < |run.links| && run.links[k].tool == tool && run.links[k].args == args
  }

  /** What the decision does inside its savepoint; Err rolls back to it. */
  ghost function Decide(db: Db, env: Env, rid: Id, d: Decision, now: Time): Result<Db>
    requires rid in db.runs
  {
    var run := db.runs[rid];
    match CheckDecision(env, run, d)
    case Err(e) => Err(e)
    case Ok(_) =>
      match d
      case UseTool(tool, args) =>
        if Repeated(run, tool, args) then Err(Invalid)
        else
          var tx := Submit(db, env, run.request.channel, RunStep(rid, run.steps), run.request.agent,
                           [Call(tool, args, "")], run.request.actor, now);
          (match tx.out
           case Err(e) => Err(e)
           case Ok(task) => Ok(tx.db.(runs := tx.db.runs[rid := Linked(run, task, tool, args)])))
      case Answer(answer, evidence) =>
        Ok(db.(runs := db.runs[rid := Closed(run, RunSucceeded, answer, evidence)]))
      case Ask(question) => Ok(db.(runs := db.runs[rid := Closed(run, NeedsInput, question, [])]))
      case Malformed => Err(Invalid)
  }

  function Linked(run: Run, task: Id, tool: string, args: Args): Run {
    run.(status := WaitingTask, steps := run.steps + 1, currentTask := task, claim := NO_ID, lease := 0.0,
         links := run.links + [Link(run.steps, task, tool, args)])
  }

  function Closed(run: Run, status: RunStatus, answer: string, evidence: seq<Id>): Run {
    run.(status := status, answer := answer, evidence := evidence, claim := NO_ID, lease := 0.0)
  }

  /** A rejection of the decision's shape or content, not of policy or state. */
  predicate Repairable(e: Error) { e.Invalid? || e.Missing? || e.NotFound? }

  datatype Committed = Ignored | Done | Repairing

  /** `_commit`. `decision` is None when the planner call itself failed. */
  ghost function Commit(
    db: Db, env: Env, rid: Id, claim: Id, decision: Option<Decision>, repair: bool, now: Time, fits: bool)
    : Tx<Committed>
  {
    if rid !in db.runs then Tx(db, Err(NotFound))
    else
      var run := db.runs[rid];
      if !run.status.Planning? || run.claim != claim then Tx(db, Ok(Ignored))
      else if run.deadline <= now || run.lease <= now
      then Tx(Stop(db, rid, Escalated, "planner_result_arrived_after_deadline", LOOP_ACTOR), Ok(Done))
      else if !Active(db, env) || !env.authority(run.request.channel, run.request.actor, MEMBERS)
      then Tx(Stop(db, rid, Escalated, "authority_or_freeze_changed_during_planning", LOOP_ACTOR), Ok(Done))
      else if decision.None?
      then Tx(Stop(db, rid, Escalated, "planner_failed_no_retry", LOOP_ACTOR), Ok(Done))
      else if !Observable(db, run, fits)
      then Tx(Stop(db, rid, Escalated, "planner_decision_rejected", LOOP_ACTOR), Ok(Done))
      else
        match Decide(db, env, rid, decision.value, now)
        case Ok(db') => Tx(db', Ok(Done))
        case Err(e) =>
          if repair && Repairable(e) && run.calls < run.maxCalls
          then Tx(db.(runs := db.runs[rid := run.(calls := run.calls + 1,
                        lease := MinTime(run.deadline, now + PLANNER_LEASE_SECONDS))]), Ok(Repairing))
          else Tx(Stop(db, rid, Escalated, "planner_decision_rejected", LOOP_ACTOR), Ok(Done))
  }
}
