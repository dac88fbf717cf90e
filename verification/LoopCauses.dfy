/** The agent loop by its causes: when a run is planned, retired, repaired or concluded, and
    what becomes of it, in terms of the run, the tenant and the history alone. */
module LoopCauses {
  import opened Basics
  import opened Authorization
  import opened Tasks
  import opened Store
  import opened EngineSpec
  import opened EngineProofs
  import opened AgentLoopSpec
  import opened AgentLoopProofs
  import opened ConversationSpec
  import opened ConversationProofs
  import opened Protocol
  import opened Runs
  import opened Provenance

  // ----------------------------------------------------------------------- history

  /** Every action of the run has succeeded. */
  ghost predicate HistorySucceeded(db: Db, run: Run) {
    forall k :: 0 <= k < |run.links| ==> LinkSucceeded(db.tasks, run, k)
  }

  /** In a good store a history is observable if and only if it succeeded throughout and its
      text fits. */
  lemma ObservableIff(db: Db, rid: Id, fits: bool)
    requires Inv(db) && rid in db.runs
    ensures Observable(db, db.runs[rid], fits) <==> fits && HistorySucceeded(db, db.runs[rid])
  {
    hide Inv, RunOk, TaskOk, TasksGood;
    var run := db.runs[rid];
    RunOfInv(db, rid);
    TasksOfInv(db);
    HistoryIsComplete(db.tasks, rid, run);
    if HistorySucceeded(db, run) {
      forall k | 0 <= k < |run.links|
        ensures run.links[k].task in db.tasks && var t := db.tasks[run.links[k].task];
                  t.status == Succeeded && |t.steps| > 0 && t.steps[0].status == Succeeded
      {
        assert LinkSucceeded(db.tasks, run, k);
        SucceededThroughout(db.tasks[run.links[k].task]);
      }
    }
  }

  lemma HistoryIsComplete(tasks: map<Id, Task>, rid: Id, run: Run)
    requires RunOk(tasks, rid, run)
    ensures |run.links| == run.steps
  {
  }

  lemma SucceededThroughout(t: Task)
    requires TaskOk(t) && t.status == Succeeded
    ensures |t.steps| > 0 && t.steps[0].status == Succeeded
  {
    hide StepOk, Ordered;
  }

  // ---------------------------------------------------------------------- retiring

  /** What retiring a run does to one step of its current task: what is open stops, a running
      step in doubt and a waiting one cancelled, and an approval nobody used is withdrawn. */
  predicate RetiredStep(s: Step, open: bool, reason: string, actor: string, s': Step) {
    && Withdrawn(s.approval, s'.approval, actor)
    && (if open && s.status.Running?
        then s' == s.(status := Uncertain, claim := NO_ID, lease := 0.0, error := reason, approval := s'.approval)
        else if open && Waiting(s.status)
        then s' == s.(status := Cancelled, claim := NO_ID, lease := 0.0, error := reason, approval := s'.approval)
        else s' == s.(approval := s'.approval))
  }

  ghost predicate RetiredTask(t: Task, reason: string, actor: string, t': Task) {
    && t' == t.(steps := t'.steps, status := Refresh(t'.steps)) && |t'.steps| == |t.steps|
    && forall i :: 0 <= i < |t.steps| ==> RetiredStep(t.steps[i], Open(t.status), reason, actor, t'.steps[i])
  }

  /** The run ended for this reason, its current task with it: as uncertain if that task is. */
  ghost predicate RetiredRun(db: Db, rid: Id, status: RunStatus, reason: string, actor: string, db': Db)
    requires rid in db.runs
  {
    var run := db.runs[rid];
    var t := run.currentTask;
    && db' == db.(tasks := db'.tasks, runs := db'.runs)
    && (if t == NO_ID then db'.tasks == db.tasks
        else && t in db.tasks && t in db'.tasks && db'.tasks == db.tasks[t := db'.tasks[t]]
             && RetiredTask(db.tasks[t], reason, actor, db'.tasks[t]))
    && db'.runs == db.runs[rid := run.(
         status := if t != NO_ID && t in db'.tasks && db'.tasks[t].status.Uncertain? then RunUncertain else status,
         error := reason, claim := NO_ID, lease := 0.0)]
  }

  lemma StopRetires(db: Db, rid: Id, status: RunStatus, reason: string, actor: string)
    requires Inv(db) && rid in db.runs
    ensures RetiredRun(db, rid, status, reason, actor, Stop(db, rid, status, reason, actor))
  {
    hide Inv, RetiredTask, RetiredRun, Stop, StopTask, CurrentLinked;
    if db.runs[rid].currentTask == NO_ID {
      StopOfNone(db, rid, status, reason, actor);
    } else {
      CurrentIsAlwaysLinked(db, rid);
      StopOfLinked(db, rid, status, reason, actor);
    }
  }

  lemma StopOfNone(db: Db, rid: Id, status: RunStatus, reason: string, actor: string)
    requires rid in db.runs && db.runs[rid].currentTask == NO_ID
    ensures RetiredRun(db, rid, status, reason, actor, Stop(db, rid, status, reason, actor))
  {
    hide RetiredTask, StopTask;
  }

  lemma StopOfLinked(db: Db, rid: Id, status: RunStatus, reason: string, actor: string)
    requires rid in db.runs && CurrentLinked(db, rid)
    ensures RetiredRun(db, rid, status, reason, actor, Stop(db, rid, status, reason, actor))
  {
    hide RetiredTask, StopTask, LinksTask, Ended;
    var t := db.runs[rid].currentTask;
    StopTaskRetires(db.tasks[t], reason, actor);
    var end := StopOutcome(db, rid, status, reason, actor);
    EndedFields(db.runs[rid], end.0, end.1);
  }

  lemma EndedFields(run: Run, status: RunStatus, reason: string)
    ensures Ended(run, status, reason) == run.(status := status, error := reason, claim := NO_ID, lease := 0.0)
  {
  }

  lemma StopTaskRetires(t: Task, reason: string, actor: string)
    ensures RetiredTask(t, reason, actor, StopTask(t, reason, actor))
  {
    hide Refresh;
  }

  // ----------------------------------------------------------------------- reserve

  /** The run's creator may still act, and its time is not up. */
  predicate Standing(env: Env, run: Run, now: Time) {
    run.deadline > now && env.authority(run.request.channel, run.request.actor, MEMBERS)
  }

  /** Nothing the run waits for is missing. */
  predicate Ready(db: Db, run: Run) {
    && !db.frozen && !run.status.Planning?
    && (run.status.WaitingTask? ==>
          run.currentTask in db.tasks && db.tasks[run.currentTask].status.Succeeded?)
  }

  /** When a planner call is reserved for a live run. */
  ghost predicate MayPlan(db: Db, env: Env, run: Run, now: Time, fits: bool) {
    && ActiveRun(run.status) && Standing(env, run, now) && Ready(db, run)
    && run.calls < run.maxCalls && HistorySucceeded(db, run) && fits
  }

  /** When a live run is retired instead, and as what. */
  ghost predicate RetiresFor(
    db: Db, env: Env, run: Run, now: Time, fits: bool, status: RunStatus, reason: string)
  {
    && ActiveRun(run.status)
    && match reason
       case "wall_deadline_exceeded" => status.Escalated? && run.deadline <= now
       case "creator_authority_revoked" =>
         && status.Escalated? && run.deadline > now
         && !env.authority(run.request.channel, run.request.actor, MEMBERS)
       case "planner_lease_expired_no_retry" =>
         status.Escalated? && Standing(env, run, now) && run.status.Planning? && run.lease <= now
       case "task_uncertain" => status.RunUncertain? && TaskEnded(db, env, run, now, Uncertain)
       case "task_cancelled" => status.RunCancelled? && TaskEnded(db, env, run, now, Cancelled)
       case "task_failed" => status.Escalated? && TaskEnded(db, env, run, now, Failed)
       case "planner_call_budget_exhausted" =>
         status.Escalated? && Standing(env, run, now) && Ready(db, run) && run.calls >= run.maxCalls
       case "observation_unavailable_or_too_large" =>
         && status.Escalated? && Standing(env, run, now) && Ready(db, run) && run.calls < run.maxCalls
         && !(HistorySucceeded(db, run) && fits)
       case _ => false
  }

  /** The task the run waits for ended so, on a tenant that works. */
  predicate TaskEnded(db: Db, env: Env, run: Run, now: Time, status: Status) {
    && Standing(env, run, now) && !db.frozen
    && run.status.WaitingTask? && run.currentTask in db.tasks && db.tasks[run.currentTask].status == status
  }

  /** A planner call is reserved: it costs one call of the budget, and the lease ends no later
      than the run. */
  ghost predicate Planned(db: Db, rid: Id, now: Time, db': Db)
    requires rid in db.runs
  {
    var run := db.runs[rid];
    db' == db.(next := db.next + 1,
               runs := db.runs[rid := run.(status := Planning, claim := db.next, calls := run.calls + 1,
                 lease := if run.deadline <= now + PLANNER_LEASE_SECONDS then run.deadline
                          else now + PLANNER_LEASE_SECONDS)])
  }

  /** Main result: a reservation by its causes. A call is reserved if and only if the run may
      be planned; the run is retired if and only if there is a reason to; and otherwise it is
      left alone. */
  lemma ReserveByCause(db: Db, env: Env, rid: Id, now: Time, fits: bool)
    requires Inv(db)
    ensures var tx := Reserve(db, env, rid, now, fits);
            if rid !in db.runs then tx == Tx(db, Err(NotFound))
            else
              var run := db.runs[rid];
              && tx.out.Ok?
              && (tx.out.value.Reservation? <==> MayPlan(db, env, run, now, fits))
              && (tx.out.value.Reservation? ==>
                    tx.out.value == Reservation(db.next, run.calls + 1) && Planned(db, rid, now, tx.db))
              && (tx.out.value.Moved? <==>
                    exists status, reason :: RetiresFor(db, env, run, now, fits, status, reason))
              && (forall status, reason :: RetiresFor(db, env, run, now, fits, status, reason) ==>
                    RetiredRun(db, rid, status, reason, LOOP_ACTOR, tx.db))
              && (tx.out.value.Idle? ==> tx.db == db)
  {
    hide Inv, Stop, Observable, RetiredRun, HistorySucceeded, Obstacle, NotDue, RetiresFor;
    if rid in db.runs && ActiveRun(db.runs[rid].status) {
      var run := db.runs[rid];
      ObservableIff(db, rid, fits);
      ObstacleByCause(db, env, rid, now, fits);
      var obstacle := Obstacle(db, env, run, now, fits);
      if obstacle.Some? {
        StopRetires(db, rid, obstacle.value.0, obstacle.value.1, LOOP_ACTOR);
        assert RetiresFor(db, env, run, now, fits, obstacle.value.0, obstacle.value.1);
      }
    } else if rid in db.runs {
      FinishedIsLeft(db, env, db.runs[rid], now, fits);
    }
  }

  lemma FinishedIsLeft(db: Db, env: Env, run: Run, now: Time, fits: bool)
    requires !ActiveRun(run.status)
    ensures !MayPlan(db, env, run, now, fits)
    ensures forall status, reason :: !RetiresFor(db, env, run, now, fits, status, reason)
  {
  }

  lemma ObstacleByCause(db: Db, env: Env, rid: Id, now: Time, fits: bool)
    requires Inv(db) && rid in db.runs && ActiveRun(db.runs[rid].status)
    ensures var run := db.runs[rid];
            var obstacle := Obstacle(db, env, run, now, fits);
            && (obstacle.None? && !NotDue(db, run) <==> MayPlan(db, env, run, now, fits))
            && (forall status, reason ::
                  obstacle == Some((status, reason)) <==> RetiresFor(db, env, run, now, fits, status, reason))
  {
    hide Inv, RunOk, Observable, HistorySucceeded, Obstacle, NotDue, MayPlan, RetiresFor;
    var run := db.runs[rid];
    ObservableIff(db, rid, fits);
    RunOfInv(db, rid);
    WaitsForItsTask(db.tasks, rid, run);
    DueByCause(db, env, run, now, fits);
    forall status, reason
      ensures Obstacle(db, env, run, now, fits) == Some((status, reason))
         <==> RetiresFor(db, env, run, now, fits, status, reason)
    {
      RetiredByCause(db, env, run, now, fits, status, reason);
    }
  }

  lemma DueByCause(db: Db, env: Env, run: Run, now: Time, fits: bool)
    requires ActiveRun(run.status) && (run.status.WaitingTask? ==> run.currentTask in db.tasks)
    requires Observable(db, run, fits) <==> fits && HistorySucceeded(db, run)
    ensures Obstacle(db, env, run, now, fits).None? && !NotDue(db, run) <==> MayPlan(db, env, run, now, fits)
  {
    hide Observable, HistorySucceeded;
  }

  lemma RetiredByCause(
    db: Db, env: Env, run: Run, now: Time, fits: bool, status: RunStatus, reason: string)
    requires ActiveRun(run.status) && (run.status.WaitingTask? ==> run.currentTask in db.tasks)
    requires Observable(db, run, fits) <==> fits && HistorySucceeded(db, run)
    ensures Obstacle(db, env, run, now, fits) == Some((status, reason))
       <==> RetiresFor(db, env, run, now, fits, status, reason)
  {
    hide Observable, HistorySucceeded, Obstacle, RetiresFor;
    if RetiresFor(db, env, run, now, fits, status, reason) {
      CauseRetires(db, env, run, now, fits, status, reason);
    }
    if Obstacle(db, env, run, now, fits).Some? {
      RetiredForCause(db, env, run, now, fits);
    }
  }

  lemma CauseRetires(db: Db, env: Env, run: Run, now: Time, fits: bool, status: RunStatus, reason: string)
    requires ActiveRun(run.status) && (run.status.WaitingTask? ==> run.currentTask in db.tasks)
    requires Observable(db, run, fits) <==> fits && HistorySucceeded(db, run)
    requires RetiresFor(db, env, run, now, fits, status, reason)
    ensures Obstacle(db, env, run, now, fits) == Some((status, reason))
  {
    hide Observable, HistorySucceeded, TaskEnded, Ready;
    if !Standing(env, run, now) || run.status.Planning? {
      NoTaskEnds(db, env, run, now);
    } else {
      StandingRetires(db, env, run, now, fits, status, reason);
    }
  }

  lemma NoTaskEnds(db: Db, env: Env, run: Run, now: Time)
    requires !Standing(env, run, now) || run.status.Planning?
    ensures !TaskEnded(db, env, run, now, Uncertain) && !TaskEnded(db, env, run, now, Cancelled)
    ensures !TaskEnded(db, env, run, now, Failed) && (run.status.Planning? ==> !Ready(db, run))
  {
  }

  lemma StandingRetires(db: Db, env: Env, run: Run, now: Time, fits: bool, status: RunStatus, reason: string)
    requires ActiveRun(run.status) && (run.status.WaitingTask? ==> run.currentTask in db.tasks)
    requires Observable(db, run, fits) <==> fits && HistorySucceeded(db, run)
    requires Standing(env, run, now) && !run.status.Planning?
    requires RetiresFor(db, env, run, now, fits, status, reason)
    ensures Obstacle(db, env, run, now, fits) == Some((status, reason))
  {
    hide Observable, HistorySucceeded;
  }

  lemma RetiredForCause(db: Db, env: Env, run: Run, now: Time, fits: bool)
    requires ActiveRun(run.status) && (run.status.WaitingTask? ==> run.currentTask in db.tasks)
    requires Observable(db, run, fits) <==> fits && HistorySucceeded(db, run)
    requires Obstacle(db, env, run, now, fits).Some?
    ensures var (status, reason) := Obstacle(db, env, run, now, fits).value;
            RetiresFor(db, env, run, now, fits, status, reason)
  {
    hide Observable, HistorySucceeded;
  }

  lemma WaitsForItsTask(tasks: map<Id, Task>, rid: Id, run: Run)
    requires RunOk(tasks, rid, run)
    ensures run.status.WaitingTask? ==> run.currentTask in tasks
  {
    if run.status.WaitingTask? {
      assert LinkOk(tasks, rid, run, run.steps - 1);
    }
  }

  // ------------------------------------------------------------------------ commit

  /** A decision that comes back for the call it was asked by, before the run's time or the
      call's own is up. */
  predicate InTime(run: Run, now: Time) { run.deadline > now && run.lease > now }

  /** The tenant works, and the run's creator may still act. */
  predicate Trusted(db: Db, env: Env, run: Run) {
    && !db.frozen && env.authority("", "", MEMBERS)
    && env.authority(run.request.channel, run.request.actor, MEMBERS)
  }

  /** The task a tool call asks for. */
  ghost function Asked(db: Db, env: Env, rid: Id, tool: string, args: Args, now: Time): Tx<Id>
    requires rid in db.runs
  {
    var run := db.runs[rid];
    Submit(db, env, run.request.channel, RunStep(rid, run.steps), run.request.agent, [Call(tool, args, "")],
           run.request.actor, now)
  }

  /** The tool may be used by this run at all: outbound tools only from the dashboard, and
      none that needs a device. */
  predicate Usable(env: Env, run: Run, tool: string) {
    && (run.request.channel == DASHBOARD_CHANNEL || !Outbound(tool))
    && tool in env.registry && !env.registry[tool].runner
  }

  predicate NewAction(run: Run, tool: string, args: Args) {
    forall k :: 0 <= k < |run.links| ==> run.links[k].tool != tool || run.links[k].args != args
  }

  /** When a decision is carried out. */
  ghost predicate Acceptable(db: Db, env: Env, rid: Id, d: Decision, now: Time)
    requires rid in db.runs
  {
    var run := db.runs[rid];
    match d
    case UseTool(tool, args) =>
      && run.steps < run.request.maxSteps && Usable(env, run, tool) && NewAction(run, tool, args)
      && Validate(env, run.request.agent, [Call(tool, args, "")], NoOrigin).Ok?
      && Asked(db, env, rid, tool, args, now).out.Ok?
    case Answer(answer, evidence) =>
      && !Blank(answer) && |answer| <= 8000 && 1 <= |evidence| <= 12
      && (forall e :: e in evidence ==> LinksTask(run, e))
      && (forall j, k :: 0 <= j < k < |evidence| ==> evidence[j] != evidence[k])
    case Ask(question) => !Blank(question) && |question| <= 1000
    case Malformed => false
  }

  /** A decision refused for its own shape or content, not for what the run may do. */
  ghost predicate Mistaken(db: Db, env: Env, rid: Id, d: Decision, now: Time)
    requires rid in db.runs
  {
    var run := db.runs[rid];
    match d
    case UseTool(tool, args) =>
      || run.steps >= run.request.maxSteps
      || ((run.request.channel == DASHBOARD_CHANNEL || !Outbound(tool)) && tool !in env.registry)
      || (Usable(env, run, tool)
          && match Validate(env, run.request.agent, [Call(tool, args, "")], NoOrigin)
             case Err(e) => e in {Invalid, Missing, NotFound}
             case Ok(_) =>
               || !NewAction(run, tool, args)
               || (Asked(db, env, rid, tool, args, now).out.Err?
                   && Asked(db, env, rid, tool, args, now).out.error in {Invalid, Missing, NotFound}))
    case _ => !Acceptable(db, env, rid, d, now)
  }

  /** What a decision carried out leaves: the run waits for its new task, or has ended with
      the answer or the question. */
  ghost predicate CarriedOut(db: Db, env: Env, rid: Id, d: Decision, now: Time, db': Db)
    requires rid in db.runs
  {
    var run := db.runs[rid];
    match d
    case UseTool(tool, args) =>
      var tx := Asked(db, env, rid, tool, args, now);
      && tx.out.Ok?
      && db' == tx.db.(runs := tx.db.runs[rid := run.(
           status := WaitingTask, steps := run.steps + 1, currentTask := tx.out.value, claim := NO_ID, lease := 0.0,
           links := run.links + [Link(run.steps, tx.out.value, tool, args)])])
    case Answer(answer, evidence) =>
      db' == db.(runs := db.runs[rid := run.(
        status := RunSucceeded, answer := answer, evidence := evidence, claim := NO_ID, lease := 0.0)])
    case Ask(question) =>
      db' == db.(runs := db.runs[rid := run.(
        status := NeedsInput, answer := question, evidence := [], claim := NO_ID, lease := 0.0)])
    case Malformed => false
  }

  /** When the decision a run was waiting for is carried out. */
  ghost predicate MayConclude(db: Db, env: Env, rid: Id, d: Option<Decision>, now: Time, fits: bool)
    requires rid in db.runs
  {
    var run := db.runs[rid];
    && InTime(run, now) && Trusted(db, env, run) && d.Some? && fits && HistorySucceeded(db, run)
    && Acceptable(db, env, rid, d.value, now)
  }

  /** When the planner is asked once more instead: it made a mistake, and a call is left. */
  ghost predicate MayRepair(db: Db, env: Env, rid: Id, d: Option<Decision>, repair: bool, now: Time, fits: bool)
    requires rid in db.runs
  {
    var run := db.runs[rid];
    && InTime(run, now) && Trusted(db, env, run) && d.Some? && fits && HistorySucceeded(db, run)
    && repair && Mistaken(db, env, rid, d.value, now) && run.calls < run.maxCalls
  }

  /** When the run is escalated instead, and why. */
  ghost predicate EscalatesFor(
    db: Db, env: Env, rid: Id, d: Option<Decision>, repair: bool, now: Time, fits: bool, reason: string)
    requires rid in db.runs
  {
    var run := db.runs[rid];
    match reason
    case "planner_result_arrived_after_deadline" => !InTime(run, now)
    case "authority_or_freeze_changed_during_planning" => InTime(run, now) && !Trusted(db, env, run)
    case "planner_failed_no_retry" => InTime(run, now) && Trusted(db, env, run) && d.None?
    case "planner_decision_rejected" =>
      && InTime(run, now) && Trusted(db, env, run) && d.Some?
      && !MayConclude(db, env, rid, d, now, fits) && !MayRepair(db, env, rid, d, repair, now, fits)
    case _ => false
  }

  ghost predicate Repaired(db: Db, rid: Id, now: Time, db': Db)
    requires rid in db.runs
  {
    var run := db.runs[rid];
    db' == db.(runs := db.runs[rid := run.(calls := run.calls + 1,
      lease := if run.deadline <= now + PLANNER_LEASE_SECONDS then run.deadline else now + PLANNER_LEASE_SECONDS)])
  }

  /** Main result: a commit by its causes. A result that is not the awaited one changes
      nothing; the awaited one is carried out, repaired or escalated, each exactly when its
      cause holds. */
  lemma CommitByCause(
    db: Db, env: Env, rid: Id, claim: Id, d: Option<Decision>, repair: bool, now: Time, fits: bool)
    requires Inv(db)
    ensures var tx := Commit(db, env, rid, claim, d, repair, now, fits);
            if rid !in db.runs then tx == Tx(db, Err(NotFound))
            else if !db.runs[rid].status.Planning? || db.runs[rid].claim != claim then tx == Tx(db, Ok(Ignored))
            else
              && (MayConclude(db, env, rid, d, now, fits) ==>
                    tx.out == Ok(Done) && CarriedOut(db, env, rid, d.value, now, tx.db))
              && (MayRepair(db, env, rid, d, repair, now, fits) ==>
                    tx.out == Ok(Repairing) && Repaired(db, rid, now, tx.db))
              && (forall reason :: EscalatesFor(db, env, rid, d, repair, now, fits, reason) ==>
                    tx.out == Ok(Done) && RetiredRun(db, rid, Escalated, reason, LOOP_ACTOR, tx.db))
              && (|| MayConclude(db, env, rid, d, now, fits) || MayRepair(db, env, rid, d, repair, now, fits)
                  || exists reason :: EscalatesFor(db, env, rid, d, repair, now, fits, reason))
  {
    hide Inv, Commit, RetiredRun, HistorySucceeded, Acceptable, Mistaken, CarriedOut, EscalatesFor, InTime, Trusted;
    if rid in db.runs && db.runs[rid].status.Planning? && db.runs[rid].claim == claim {
      var run := db.runs[rid];
      if InTime(run, now) && Trusted(db, env, run) && d.Some? {
        DecisionByCause(db, env, rid, d.value, repair, now, fits);
        assert MayConclude(db, env, rid, d, now, fits) || MayRepair(db, env, rid, d, repair, now, fits)
            || EscalatesFor(db, env, rid, d, repair, now, fits, "planner_decision_rejected");
      } else {
        LateByCause(db, env, rid, d, repair, now, fits);
      }
    } else {
      CommitElsewhere(db, env, rid, claim, d, repair, now, fits);
    }
  }

  lemma CommitElsewhere(
    db: Db, env: Env, rid: Id, claim: Id, d: Option<Decision>, repair: bool, now: Time, fits: bool)
    requires rid in db.runs ==> !db.runs[rid].status.Planning? || db.runs[rid].claim != claim
    ensures Commit(db, env, rid, claim, d, repair, now, fits)
         == Tx(db, if rid in db.runs then Ok(Ignored) else Err(NotFound))
  {
    hide Stop, Observable, Decide;
  }

  /** Nothing of the decision matters: it is late, nobody stands behind it, or there is none. */
  lemma LateByCause(db: Db, env: Env, rid: Id, d: Option<Decision>, repair: bool, now: Time, fits: bool)
    requires Inv(db) && rid in db.runs && db.runs[rid].status.Planning?
    requires !(InTime(db.runs[rid], now) && Trusted(db, env, db.runs[rid]) && d.Some?)
    ensures var tx := Commit(db, env, rid, db.runs[rid].claim, d, repair, now, fits);
            && tx.out == Ok(Done)
            && (exists reason :: EscalatesFor(db, env, rid, d, repair, now, fits, reason))
            && (forall reason :: EscalatesFor(db, env, rid, d, repair, now, fits, reason) ==>
                  RetiredRun(db, rid, Escalated, reason, LOOP_ACTOR, tx.db))
  {
    hide Inv, Stop, Commit, RetiredRun, EscalatesFor;
    var late := LateReason(db, env, rid, d, repair, now, fits);
    StopRetires(db, rid, Escalated, late, LOOP_ACTOR);
    assert EscalatesFor(db, env, rid, d, repair, now, fits, late);
  }

  lemma LateReason(db: Db, env: Env, rid: Id, d: Option<Decision>, repair: bool, now: Time, fits: bool)
    returns (late: string)
    requires rid in db.runs && db.runs[rid].status.Planning?
    requires !(InTime(db.runs[rid], now) && Trusted(db, env, db.runs[rid]) && d.Some?)
    ensures forall reason :: EscalatesFor(db, env, rid, d, repair, now, fits, reason) <==> reason == late
    ensures Commit(db, env, rid, db.runs[rid].claim, d, repair, now, fits)
         == Tx(Stop(db, rid, Escalated, late, LOOP_ACTOR), Ok(Done))
  {
    hide Stop, Observable, Decide, MayConclude, MayRepair;
    if !InTime(db.runs[rid], now) {
      late := "planner_result_arrived_after_deadline";
    } else if !Trusted(db, env, db.runs[rid]) {
      late := "authority_or_freeze_changed_during_planning";
    } else {
      late := "planner_failed_no_retry";
    }
  }

  /** A decision in time, with everybody still behind it. */
  lemma DecisionByCause(db: Db, env: Env, rid: Id, d: Decision, repair: bool, now: Time, fits: bool)
    requires Inv(db) && rid in db.runs && db.runs[rid].status.Planning?
    requires InTime(db.runs[rid], now) && Trusted(db, env, db.runs[rid])
    ensures var tx := Commit(db, env, rid, db.runs[rid].claim, Some(d), repair, now, fits);
            if MayConclude(db, env, rid, Some(d), now, fits)
            then tx.out == Ok(Done) && CarriedOut(db, env, rid, d, now, tx.db)
            else if MayRepair(db, env, rid, Some(d), repair, now, fits)
            then tx.out == Ok(Repairing) && Repaired(db, rid, now, tx.db)
            else tx.out == Ok(Done) && RetiredRun(db, rid, Escalated, "planner_decision_rejected", LOOP_ACTOR, tx.db)
    ensures MayConclude(db, env, rid, Some(d), now, fits) ==> !MayRepair(db, env, rid, Some(d), repair, now, fits)
    ensures forall reason :: EscalatesFor(db, env, rid, Some(d), repair, now, fits, reason) <==>
              && reason == "planner_decision_rejected" && !MayConclude(db, env, rid, Some(d), now, fits)
              && !MayRepair(db, env, rid, Some(d), repair, now, fits)
  {
    hide Inv, Stop, Observable, RetiredRun, HistorySucceeded, Decide, Acceptable, Mistaken, CarriedOut, EscalatesFor;
    ObservableIff(db, rid, fits);
    DecideByCause(db, env, rid, d, now);
    StopRetires(db, rid, Escalated, "planner_decision_rejected", LOOP_ACTOR);
    RejectedReason(db, env, rid, d, repair, now, fits);
  }

  lemma RejectedReason(db: Db, env: Env, rid: Id, d: Decision, repair: bool, now: Time, fits: bool)
    requires rid in db.runs && InTime(db.runs[rid], now) && Trusted(db, env, db.runs[rid])
    ensures forall reason :: EscalatesFor(db, env, rid, Some(d), repair, now, fits, reason) <==>
              && reason == "planner_decision_rejected" && !MayConclude(db, env, rid, Some(d), now, fits)
              && !MayRepair(db, env, rid, Some(d), repair, now, fits)
  {
    hide InTime, Trusted, MayConclude, MayRepair;
  }

  /** The decision itself: carried out, a mistake, or not allowed. */
  lemma DecideByCause(db: Db, env: Env, rid: Id, d: Decision, now: Time)
    requires rid in db.runs
    ensures var r := Decide(db, env, rid, d, now);
            && (r.Ok? <==> Acceptable(db, env, rid, d, now))
            && (r.Ok? ==> CarriedOut(db, env, rid, d, now, r.value))
            && (r.Err? ==> (Repairable(r.error) <==> Mistaken(db, env, rid, d, now)))
            && (r.Ok? ==> !Mistaken(db, env, rid, d, now))
  {
    hide Validate, Submit, Blank, LinksTask, Outbound;
    match d
    case UseTool(_, _) => ToolByCause(db, env, rid, d, now);
    case Answer(_, evidence) =>
      assert (forall e :: e in evidence ==> LinksTask(db.runs[rid], e))
        <==> (forall k :: 0 <= k < |evidence| ==> LinksTask(db.runs[rid], evidence[k]));
    case _ =>
  }

  lemma ToolByCause(db: Db, env: Env, rid: Id, d: Decision, now: Time)
    requires rid in db.runs && d.UseTool?
    ensures var r := Decide(db, env, rid, d, now);
            && (r.Ok? <==> Acceptable(db, env, rid, d, now))
            && (r.Ok? ==> CarriedOut(db, env, rid, d, now, r.value))
            && (r.Err? ==> (Repairable(r.error) <==> Mistaken(db, env, rid, d, now)))
            && (r.Ok? ==> !Mistaken(db, env, rid, d, now))
  {
    hide Validate, Submit, Outbound, Repeated, NewAction;
    NewIsNotRepeated(db.runs[rid], d.tool, d.args);
  }

  lemma NewIsNotRepeated(run: Run, tool: string, args: Args)
    ensures NewAction(run, tool, args) <==> !Repeated(run, tool, args)
  {
  }

  // --------------------------------------------------------------- create and cancel

  /** A new run: nothing spent of a budget of one call more than it may take actions. */
  ghost predicate NewRun(key: RunKey, q: Request, now: Time, run: Run) {
    && run.key == key && run.request == q && run.status.RunPending? && run.deadline == now + q.maxSeconds as real
    && run.maxCalls == q.maxSteps + 1 && run.calls == 0 && run.steps == 0 && run.links == []
    && run.currentTask == NO_ID && run.claim == NO_ID && run.lease == 0.0
    && run.answer == "" && run.evidence == [] && run.error == ""
  }

  /** Who may ask for a run of this kind at all. */
  predicate MayAsk(env: Env, key: RunKey, q: Request) {
    && !Blank(q.agent) && |q.agent| <= 128 && !Blank(q.actor) && |q.actor| <= 128
    && !Blank(q.channel) && |q.channel| <= 32 && !Blank(q.input) && |q.input| <= 4000
    && 1 <= q.maxSteps <= 12 && 60 <= q.maxSeconds <= 86400
    && (key.Dashboard? ==> !Blank(key.text) && |key.text| <= 256)
    && q.agent in env.policies && !env.policies[q.agent].rules.ladder.UnknownLadder?
    && env.authority(q.channel, q.actor, MEMBERS)
  }

  /** Main result: asking for a run gives the run of that key if it was asked for in the same
      words, and a new one if there is none, the tenant works and fewer than a hundred are live. */
  lemma CreateByCause(db: Db, env: Env, key: RunKey, q: Request, now: Time)
    requires Inv(db)
    ensures var tx := Create(db, env, key, q, now);
            && (forall r :: r in db.runs && db.runs[r].key == key && MayAsk(env, key, q) ==>
                  tx == Tx(db, if db.runs[r].request == q then Ok(r) else Err(Conflict)))
            && (tx.out.Ok? && (forall r :: r in db.runs ==> db.runs[r].key != key) <==>
                  && MayAsk(env, key, q) && (forall r :: r in db.runs ==> db.runs[r].key != key)
                  && !db.frozen && env.authority("", "", MEMBERS)
                  && |set r | r in db.runs && ActiveRun(db.runs[r].status)| < 100)
            && (tx.out.Ok? ==> MayAsk(env, key, q))
            && (tx.db == db || (tx.out == Ok(db.next) && tx.db == db.(runs := tx.db.runs, next := db.next + 1)
                && db.next in tx.db.runs && tx.db.runs == db.runs[db.next := tx.db.runs[db.next]]
                && NewRun(key, q, now, tx.db.runs[db.next])
                && forall r :: r in db.runs ==> db.runs[r].key != key))
  {
    hide Inv, MayAsk, RunKeyTaken, Create, NewRun, ActiveRuns;
    RunKeysOfInv(db);
    forall r | r in db.runs && db.runs[r].key == key && MayAsk(env, key, q)
      ensures Create(db, env, key, q, now) == Tx(db, if db.runs[r].request == q then Ok(r) else Err(Conflict))
    {
      AskedBefore(db, env, key, q, now, r);
    }
    AskedAnew(db, env, key, q, now);
  }

  lemma AskedBefore(db: Db, env: Env, key: RunKey, q: Request, now: Time, r: Id)
    requires forall r, q :: r in db.runs && q in db.runs && db.runs[r].key == db.runs[q].key ==> r == q
    requires r in db.runs && db.runs[r].key == key && MayAsk(env, key, q)
    ensures Create(db, env, key, q, now) == Tx(db, if db.runs[r].request == q then Ok(r) else Err(Conflict))
  {
    hide Blank, FreshRun, ActiveRuns;
    assert RunKeyTaken(db, key);
  }

  lemma AskedAnew(db: Db, env: Env, key: RunKey, q: Request, now: Time)
    ensures var tx := Create(db, env, key, q, now);
            && (tx.out.Ok? && (forall r :: r in db.runs ==> db.runs[r].key != key) <==>
                  && MayAsk(env, key, q) && (forall r :: r in db.runs ==> db.runs[r].key != key)
                  && !db.frozen && env.authority("", "", MEMBERS)
                  && |set r | r in db.runs && ActiveRun(db.runs[r].status)| < 100)
            && (tx.out.Ok? ==> MayAsk(env, key, q))
            && (tx.db == db || (tx.out == Ok(db.next) && tx.db == db.(runs := tx.db.runs, next := db.next + 1)
                && db.next in tx.db.runs && tx.db.runs == db.runs[db.next := tx.db.runs[db.next]]
                && NewRun(key, q, now, tx.db.runs[db.next])
                && forall r :: r in db.runs ==> db.runs[r].key != key))
  {
    hide Blank, FreshRun, NewRun;
    assert ActiveRuns(db) == set r | r in db.runs && ActiveRun(db.runs[r].status);
    assert RunKeyTaken(db, key) <==> exists r :: r in db.runs && db.runs[r].key == key;
    FreshIsNew(key, q, now);
  }

  lemma FreshIsNew(key: RunKey, q: Request, now: Time)
    ensures NewRun(key, q, now, FreshRun(key, q, now))
  {
  }

  lemma RunKeysOfInv(db: Db)
    requires Inv(db)
    ensures forall r, q :: r in db.runs && q in db.runs && db.runs[r].key == db.runs[q].key ==> r == q
    ensures db.next !in db.runs
  {
  }

  /** A cancellation: by a member of the workspace, of a run that is live. */
  lemma CancelByCause(db: Db, env: Env, rid: Id, actor: string)
    requires Inv(db)
    ensures var tx := CancelRun(db, env, rid, actor);
            if !env.authority("web", actor, MEMBERS) then tx == Tx(db, Err(Forbidden))
            else if rid !in db.runs then tx == Tx(db, Err(NotFound))
            else if !ActiveRun(db.runs[rid].status) then tx == Tx(db, Ok(db.runs[rid].status))
            else
              && RetiredRun(db, rid, RunCancelled, "operator_cancelled", actor, tx.db)
              && rid in tx.db.runs && tx.out == Ok(tx.db.runs[rid].status)
  {
    hide Inv, Stop;
    if rid in db.runs {
      StopRetires(db, rid, RunCancelled, "operator_cancelled", actor);
    }
  }

  // ---------------------------------------------------------------------- over runs

  /** The one operation that changed this run, and its cause at that moment. */
  ghost predicate RunChangeCaused(db: Db, op: Op, rid: Id, db': Db)
    requires rid in db.runs
  {
    && op.Loop?
    && match op.l
       case CreateRun(_, _, _, _) => false
       case AbandonRun(env, r, actor) =>
         && r == rid && env.authority("web", actor, MEMBERS) && ActiveRun(db.runs[rid].status)
         && RetiredRun(db, rid, RunCancelled, "operator_cancelled", actor, db')
       case ReserveRun(env, r, now, fits) =>
         && r == rid
         && (|| (MayPlan(db, env, db.runs[rid], now, fits) && Planned(db, rid, now, db'))
             || exists status, reason ::
                  && RetiresFor(db, env, db.runs[rid], now, fits, status, reason)
                  && RetiredRun(db, rid, status, reason, LOOP_ACTOR, db'))
       case CommitRun(env, r, claim, d, repair, now, fits) =>
         && r == rid && db.runs[rid].status.Planning? && claim == db.runs[rid].claim
         && (|| (MayConclude(db, env, rid, d, now, fits) && CarriedOut(db, env, rid, d.value, now, db'))
             || (MayRepair(db, env, rid, d, repair, now, fits) && Repaired(db, rid, now, db'))
             || exists reason ::
                  && EscalatesFor(db, env, rid, d, repair, now, fits, reason)
                  && RetiredRun(db, rid, Escalated, reason, LOOP_ACTOR, db'))
  }

  /** Main result: over any run of the system, whenever an agent run changes, one operation on
      it did that, for a cause that held at that moment, and with the effect of that cause. */
  lemma ChangesHaveCauses(trace: seq<System>, ops: seq<Op>, k: nat, rid: Id)
    requires Behaviour(trace, ops) && k < |ops| && rid in trace[k].db.runs
    ensures rid in trace[k + 1].db.runs
    ensures trace[k + 1].db.runs[rid] != trace[k].db.runs[rid] ==>
              RunChangeCaused(trace[k].db, ops[k], rid, trace[k + 1].db)
  {
    hide Inv, HeldOk, ClaimsOk, EngineStep, LoopStep, TurnStep, EngineEnabled, TurnEnabled, Evolves, Dispatched,
         SameDispatches, DispatchFacts, RunChangeCaused;
    AlwaysInv(trace, ops, k);
    assert Next(trace[k], ops[k], trace[k + 1]);
    match ops[k]
    case Engine(e) => EngineStepKeeps(trace[k].db, e);
    case Loop(l) => LoopChanges(trace[k].db, l, rid);
    case Turns(t) => TurnKeepsRuns(trace[k], t);
  }

  lemma LoopChanges(db: Db, l: LoopOp, rid: Id)
    requires Inv(db) && rid in db.runs
    ensures rid in LoopStep(db, l).runs
    ensures LoopStep(db, l).runs[rid] != db.runs[rid] ==> RunChangeCaused(db, Loop(l), rid, LoopStep(db, l))
  {
    hide Inv, Create, CancelRun, Reserve, Commit, RetiredRun, MayPlan, RetiresFor, Planned, MayConclude, MayRepair,
         EscalatesFor, CarriedOut, Repaired, NewRun, MayAsk, AllOrNothing, RunsEvolve;
    OtherRunsStay(db, l, rid);
    match l
    case CreateRun(env, key, q, now) =>
      CreateByCause(db, env, key, q, now);
    case AbandonRun(env, r, actor) =>
      CancelByCause(db, env, r, actor);
    case ReserveRun(env, r, now, fits) =>
      ReserveByCause(db, env, r, now, fits);
    case CommitRun(env, r, claim, d, repair, now, fits) =>
      CommitByCause(db, env, r, claim, d, repair, now, fits);
  }

  /** An operation on one run leaves every other alone. */
  lemma OtherRunsStay(db: Db, l: LoopOp, rid: Id)
    requires Inv(db) && rid in db.runs
    ensures rid in LoopStep(db, l).runs
    ensures l.CreateRun? || l.rid != rid ==> LoopStep(db, l).runs[rid] == db.runs[rid]
  {
    hide Inv, Commit, Reserve, CancelRun, Create, MayAsk, NewRun;
    match l
    case CreateRun(env, key, q, now) =>
      RunKeysOfInv(db);
      AskedAnew(db, env, key, q, now);
    case AbandonRun(env, r, actor) => CancelIsOfOne(db, env, r, actor);
    case ReserveRun(env, r, now, fits) => ReserveIsOfOne(db, env, r, now, fits);
    case CommitRun(env, r, claim, d, repair, now, fits) =>
      if r in db.runs { CommitIsAtomic(db, env, r, claim, d, repair, now, fits); }
      else { CommitElsewhere(db, env, r, claim, d, repair, now, fits); }
  }

  lemma CancelIsOfOne(db: Db, env: Env, rid: Id, actor: string)
    ensures var db' := CancelRun(db, env, rid, actor).db;
            db'.runs.Keys == db.runs.Keys && forall r :: r in db.runs && r != rid ==> db'.runs[r] == db.runs[r]
  {
    hide Stop;
    if rid in db.runs { StopIsOfOne(db, rid, RunCancelled, "operator_cancelled", actor); }
  }

  lemma ReserveIsOfOne(db: Db, env: Env, rid: Id, now: Time, fits: bool)
    ensures var db' := Reserve(db, env, rid, now, fits).db;
            db'.runs.Keys == db.runs.Keys && forall r :: r in db.runs && r != rid ==> db'.runs[r] == db.runs[r]
  {
    hide Stop, Obstacle, NotDue;
    if rid in db.runs && ActiveRun(db.runs[rid].status) {
      var obstacle := Obstacle(db, env, db.runs[rid], now, fits);
      if obstacle.Some? { StopIsOfOne(db, rid, obstacle.value.0, obstacle.value.1, LOOP_ACTOR); }
    }
  }

  lemma StopIsOfOne(db: Db, rid: Id, status: RunStatus, reason: string, actor: string)
    requires rid in db.runs
    ensures var db' := Stop(db, rid, status, reason, actor);
            db'.runs.Keys == db.runs.Keys && forall r :: r in db.runs && r != rid ==> db'.runs[r] == db.runs[r]
  {
    hide StopTasks, StopOutcome;
  }
}
