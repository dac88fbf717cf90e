/** The agent loop as an object over the engine's tables: one method per transaction. */
module AgentLoopRuntime {
  import opened Basics
  import opened Authorization
  import opened Tasks
  import opened Store
  import opened EngineSpec
  import opened EngineProofs
  import opened EngineRuntime
  import opened AgentLoopSpec
  import opened AgentLoopProofs

  class AgentLoop {
    const engine: Engine

    constructor (engine: Engine)
      ensures this.engine == engine
    {
      this.engine := engine;
    }

    method Create(env: Env, key: RunKey, q: Request, now: Time) returns (r: Result<Id>)
      requires engine.Valid()
      modifies engine`runs, engine`next
      ensures engine.Valid()
      ensures var tx := AgentLoopSpec.Create(old(engine.View()), env, key, q, now);
              engine.View() == tx.db && r == tx.out
    {
      hide Inv, Evolves, RequestOk, RunKeyOk, RunKeyTaken, ActiveRuns;
      CreateKeeps(engine.View(), env, key, q, now);
      if !RequestOk(q) || !RunKeyOk(key) { return Err(Invalid); }
      if q.agent !in env.policies || env.policies[q.agent].rules.ladder == UnknownLadder { return Err(Forbidden); }
      if !env.authority(q.channel, q.actor, MEMBERS) { return Err(Forbidden); }
      var existing := FindRun(key);
      if existing.Some? {
        if engine.runs[existing.value].request != q { return Err(Conflict); }
        return Ok(existing.value);
      }
      if !env.authority("", "", MEMBERS) || engine.frozen { return Err(Forbidden); }
      var pending := CountActive();
      if pending >= MAX_ACTIVE_RUNS { return Err(RateLimited); }
      var rid := engine.next;
      engine.next := engine.next + 1;
      engine.runs := engine.runs[rid := Run(key, q, RunPending, now + q.maxSeconds as real, q.maxSteps + 1, 0, 0,
                                            NO_ID, NO_ID, 0.0, "", [], "", [])];
      return Ok(rid);
    }

    method FindRun(key: RunKey) returns (r: Option<Id>)
      requires engine.Valid()
      ensures r.Some? <==> RunKeyTaken(engine.View(), key)
      ensures r.Some? ==> r.value == RunByKey(engine.View(), key)
    {
      hide Inv;
      RunsAreKeyed(engine.View());
      if rid :| rid in engine.runs && engine.runs[rid].key == key {
        return Some(rid);
      }
      return None;
    }

    method CountActive() returns (n: nat)
      ensures n == |ActiveRuns(engine.View())|
    {
      var active := set r | r in engine.runs && ActiveRun(engine.runs[r].status);
      assert active == ActiveRuns(engine.View());
      return |active|;
    }

    // ------------------------------------------------------------------------ stop

    /** `_stop`. The task row is refreshed only when one of its steps was still open. */
    method Stop(rid: Id, status: RunStatus, reason: string, actor: string)
      requires rid in engine.runs && forall t :: t in engine.tasks ==> TaskOk(engine.tasks[t])
      modifies engine`tasks, engine`runs
      ensures engine.View() == AgentLoopSpec.Stop(old(engine.View()), rid, status, reason, actor)
      ensures rid in engine.runs
    {
      hide TaskOk, LinksTask, StopTask;
      var run := engine.runs[rid];
      var tid := run.currentTask;
      var outcome, why := status, reason;
      if tid != NO_ID {
        if !LinksTask(run, tid) || tid !in engine.tasks {
          outcome, why := Escalated, "run_task_link_invalid";
        } else {
          var left := StopRows(tid, reason, actor);
          if left == Uncertain { outcome := RunUncertain; }
        }
      }
      engine.runs := engine.runs[rid := run.(status := outcome, error := why, claim := NO_ID, lease := 0.0)];
    }

    /** What `_stop` does to the linked task, and the status it leaves it with. */
    method StopRows(tid: Id, reason: string, actor: string) returns (left: Status)
      requires tid in engine.tasks && TaskOk(engine.tasks[tid])
      modifies engine`tasks
      ensures engine.tasks == old(engine.tasks)[tid := StopTask(old(engine.tasks[tid]), reason, actor)]
      ensures left == StopTask(old(engine.tasks[tid]), reason, actor).status
    {
      hide TaskOk, StopTask, RetireTask, RejectTask;
      StopByRows(engine.tasks[tid], reason, actor);
      if engine.tasks[tid].status in {Queued, WaitingApproval, Running} {
        RetireRows(tid, reason);
      }
      left := engine.tasks[tid].status;
      RejectRows(tid, actor);
    }

    /** Retires every open step of the task, then refreshes it. */
    method RetireRows(tid: Id, reason: string)
      requires tid in engine.tasks
      modifies engine`tasks
      ensures engine.tasks == old(engine.tasks)[tid := RetireTask(old(engine.tasks[tid]), reason)]
    {
      hide Refresh;
      ghost var t := engine.tasks[tid];
      var n := |engine.tasks[tid].steps|;
      for i := 0 to n
        invariant tid in engine.tasks && |engine.tasks[tid].steps| == n
        invariant engine.tasks == old(engine.tasks)[tid := t.(steps := engine.tasks[tid].steps)]
        invariant forall j :: 0 <= j < n ==>
                    engine.tasks[tid].steps[j] == if j < i then RetireStep(t.steps[j], reason) else t.steps[j]
      {
        var s := engine.tasks[tid].steps[i];
        if s.status in {Queued, WaitingApproval, Running} {
          engine.WriteStep(tid, i, s.(status := if s.status == Running then Uncertain else Cancelled,
                                      claim := NO_ID, lease := 0.0, error := reason));
        }
      }
      assert engine.tasks[tid].steps == RetireTask(t, reason).steps;
      engine.RefreshRow(tid);
    }

    /** Withdraws every unused approval of the task. */
    method RejectRows(tid: Id, actor: string)
      requires tid in engine.tasks
      modifies engine`tasks
      ensures engine.tasks == old(engine.tasks)[tid := RejectTask(old(engine.tasks[tid]), actor)]
    {
      ghost var t := engine.tasks[tid];
      var n := |engine.tasks[tid].steps|;
      for i := 0 to n
        invariant tid in engine.tasks && |engine.tasks[tid].steps| == n
        invariant engine.tasks == old(engine.tasks)[tid := t.(steps := engine.tasks[tid].steps)]
        invariant forall j :: 0 <= j < n ==>
                    engine.tasks[tid].steps[j] == if j < i then RejectStep(t.steps[j], actor) else t.steps[j]
      {
        engine.RejectUnused(tid, i, Some(actor));
      }
      assert engine.tasks[tid].steps == RejectTask(t, actor).steps;
    }

    method Cancel(env: Env, rid: Id, actor: string) returns (r: Result<RunStatus>)
      requires engine.Valid()
      modifies engine`tasks, engine`runs
      ensures engine.Valid()
      ensures var tx := CancelRun(old(engine.View()), env, rid, actor); engine.View() == tx.db && r == tx.out
    {
      hide Inv, Evolves, SameDispatches, AgentLoopSpec.Stop, TaskOk;
      CancelRunKeeps(engine.View(), env, rid, actor);
      engine.TasksOfView();
      if !env.authority("web", actor, MEMBERS) { return Err(Forbidden); }
      if rid !in engine.runs { return Err(NotFound); }
      if !ActiveRun(engine.runs[rid].status) { return Ok(engine.runs[rid].status); }
      Stop(rid, RunCancelled, "operator_cancelled", actor);
      return Ok(engine.runs[rid].status);
    }

    // --------------------------------------------------------------------- reserve

    /** `_observations`: the linked tasks in order, each succeeded; `fits` stands for the
        bound on their text. */
    method Observations(run: Run, fits: bool) returns (ok: bool)
      ensures ok == Observable(engine.View(), run, fits)
    {
      if |run.links| != run.steps { return false; }
      for k := 0 to |run.links|
        invariant forall j :: 0 <= j < k ==>
                    run.links[j].task in engine.tasks
                    && engine.tasks[run.links[j].task].status == Succeeded
                    && |engine.tasks[run.links[j].task].steps| > 0
                    && engine.tasks[run.links[j].task].steps[0].status == Succeeded
      {
        var tid := run.links[k].task;
        if tid !in engine.tasks { return false; }
        var t := engine.tasks[tid];
        if |t.steps| == 0 || t.steps[0].status != Succeeded || t.status != Succeeded { return false; }
      }
      return fits;
    }

    /** The questions `_reserve` asks of a live run: the reason to retire it, or whether a
        planner call is due. */
    method Assess(env: Env, run: Run, now: Time, fits: bool)
      returns (obstacle: Option<(RunStatus, string)>, due: bool)
      requires ActiveRun(run.status)
      ensures obstacle == Obstacle(engine.View(), env, run, now, fits)
      ensures obstacle.None? ==> due == !NotDue(engine.View(), run)
    {
      hide Observable;
      due := false;
      if run.deadline <= now { return Some((Escalated, "wall_deadline_exceeded")), due; }
      if !env.authority(run.request.channel, run.request.actor, MEMBERS) {
        return Some((Escalated, "creator_authority_revoked")), due;
      }
      if run.status == Planning {
        return if run.lease <= now then Some((Escalated, "planner_lease_expired_no_retry")) else None, due;
      }
      if engine.frozen { return None, due; }
      if run.status == WaitingTask {
        if run.currentTask !in engine.tasks { return Some((Escalated, "task_missing")), due; }
        var status := engine.tasks[run.currentTask].status;
        if status in {Queued, Running, WaitingApproval} { return None, due; }
        if status != Succeeded {
          return Some(if status == Uncertain then (RunUncertain, "task_uncertain")
                      else if status == Cancelled then (RunCancelled, "task_cancelled")
                      else (Escalated, "task_failed")), due;
        }
      }
      if run.calls >= run.maxCalls { return Some((Escalated, "planner_call_budget_exhausted")), due; }
      var observed := Observations(run, fits);
      if !observed { return Some((Escalated, "observation_unavailable_or_too_large")), due; }
      return None, true;
    }

    /** `_reserve`: retire the run, leave it, or reserve one planner call for it. */
    method Reserve(env: Env, rid: Id, now: Time, fits: bool) returns (r: Result<Reserved>)
      requires engine.Valid()
      modifies engine`tasks, engine`runs, engine`next
      ensures engine.Valid()
      ensures var tx := AgentLoopSpec.Reserve(old(engine.View()), env, rid, now, fits);
              engine.View() == tx.db && r == tx.out
    {
      hide Inv, Evolves, SameDispatches, SameTurns, AgentLoopSpec.Stop, TaskOk, Observable, Obstacle, NotDue;
      ReserveKeeps(engine.View(), env, rid, now, fits);
      engine.TasksOfView();
      if rid !in engine.runs { return Err(NotFound); }
      var run := engine.runs[rid];
      if !ActiveRun(run.status) { return Ok(Idle); }
      var obstacle, due := Assess(env, run, now, fits);
      if obstacle.Some? {
        Stop(rid, obstacle.value.0, obstacle.value.1, LOOP_ACTOR);
        return Ok(Moved);
      }
      if !due { return Ok(Idle); }
      var claim := engine.next;
      engine.next := engine.next + 1;
      engine.runs := engine.runs[rid := run.(status := Planning, claim := claim, calls := run.calls + 1,
                                             lease := MinTime(run.deadline, now + PLANNER_LEASE_SECONDS))];
      return Ok(Reservation(claim, run.calls + 1));
    }

    // ---------------------------------------------------------------------- commit

    /** `_decision`. */
    method Decision(env: Env, run: Run, d: Decision) returns (r: Result<()>)
      ensures r == CheckDecision(env, run, d)
    {
      hide Validate;
      match d
      case UseTool(tool, args) =>
        if run.steps >= run.request.maxSteps { return Err(Invalid); }
        if run.request.channel != DASHBOARD_CHANNEL && Outbound(tool) { return Err(Forbidden); }
        if tool !in env.registry { return Err(Missing); }
        if env.registry[tool].runner { return Err(Forbidden); }
        var validated := ValidatePlan(env, run.request.agent, [Call(tool, args, "")], NoOrigin);
        if validated.Err? { return Err(validated.error); }
        return Ok(());
      case Answer(answer, evidence) =>
        if Blank(answer) || |answer| > 8000 { return Err(Invalid); }
        if !(1 <= |evidence| <= MAX_STEPS) { return Err(Invalid); }
        for k := 0 to |evidence|
          invariant forall j :: 0 <= j < k ==> LinksTask(run, evidence[j])
        {
          if !LinksTask(run, evidence[k]) { return Err(Invalid); }
        }
        if exists j, k :: 0 <= j < k < |evidence| && evidence[j] == evidence[k] { return Err(Invalid); }
        return Ok(());
      case Ask(question) =>
        return if Blank(question) || |question| > 1000 then Err(Invalid) else Ok(());
      case Malformed =>
        return Err(Invalid);
    }

    /** The body of the savepoint. On an error the tables may hold anything it wrote. */
    method Decide(env: Env, rid: Id, d: Decision, now: Time) returns (r: Result<()>)
      requires engine.Valid() && rid in engine.runs
      modifies engine`tasks, engine`runs, engine`next
      ensures var decided := AgentLoopSpec.Decide(old(engine.View()), env, rid, d, now);
              && r.Ok? == decided.Ok?
              && (r.Ok? ==> engine.View() == decided.value)
              && (r.Err? ==> r.error == decided.error)
    {
      hide Inv, CheckDecision, EngineSpec.Submit;
      var run := engine.runs[rid];
      var checked := Decision(env, run, d);
      if checked.Err? { return checked; }
      match d
      case UseTool(tool, args) =>
        if Repeated(run, tool, args) { return Err(Invalid); }
        var position := run.steps;
        ghost var submitted := EngineSpec.Submit(engine.View(), env, run.request.channel, RunStep(rid, position),
                                                 run.request.agent, [Call(tool, args, "")], run.request.actor, now);
        SubmitLeavesRuns(engine.View(), env, run.request.channel, RunStep(rid, position), run.request.agent,
                         [Call(tool, args, "")], run.request.actor, now);
        var task := engine.Submit(env, run.request.channel, RunStep(rid, position), run.request.agent,
                                  [Call(tool, args, "")], run.request.actor, now);
        if task.Err? { return Err(task.error); }
        run := run.(links := run.links + [Link(position, task.value, tool, args)]);
        run := run.(status := WaitingTask, steps := run.steps + 1, currentTask := task.value, claim := NO_ID,
                    lease := 0.0);
        engine.runs := engine.runs[rid := run];
        return Ok(());
      case Answer(answer, evidence) =>
        engine.runs := engine.runs[rid := run.(status := RunSucceeded, answer := answer, evidence := evidence,
                                               claim := NO_ID, lease := 0.0)];
        return Ok(());
      case Ask(question) =>
        engine.runs := engine.runs[rid := run.(status := NeedsInput, answer := question, evidence := [],
                                               claim := NO_ID, lease := 0.0)];
        return Ok(());
      case Malformed =>
        return Err(Invalid);
    }

    /** `_commit`: one planner result, under a savepoint that a rejected decision is rolled
        back to before the run is repaired or retired. */
    method Commit(env: Env, rid: Id, claim: Id, decision: Option<Decision>, repair: bool, now: Time, fits: bool)
      returns (r: Result<Committed>)
      requires engine.Valid()
      modifies engine`tasks, engine`runs, engine`next
      ensures engine.Valid()
      ensures var tx := AgentLoopSpec.Commit(old(engine.View()), env, rid, claim, decision, repair, now, fits);
              engine.View() == tx.db && r == tx.out
    {
      hide Inv, Evolves, SameDispatches, SameTurns, AgentLoopSpec.Stop, AgentLoopSpec.Decide, TaskOk, Observable,
           Repairable, MinTime, TasksMove, TasksGood, StopOutcome, StopTasks, Abandoned;
      CommitKeeps(engine.View(), env, rid, claim, decision, repair, now, fits);
      engine.TasksOfView();
      if rid !in engine.runs { return Err(NotFound); }
      var run := engine.runs[rid];
      if run.status != Planning || run.claim != claim { return Ok(Ignored); }
      if run.deadline <= now || run.lease <= now {
        Stop(rid, Escalated, "planner_result_arrived_after_deadline", LOOP_ACTOR);
        return Ok(Done);
      }
      if !env.authority("", "", MEMBERS) || engine.frozen
         || !env.authority(run.request.channel, run.request.actor, MEMBERS)
      {
        Stop(rid, Escalated, "authority_or_freeze_changed_during_planning", LOOP_ACTOR);
        return Ok(Done);
      }
      if decision.None? {
        Stop(rid, Escalated, "planner_failed_no_retry", LOOP_ACTOR);
        return Ok(Done);
      }
      var savedTasks, savedRuns, savedNext := engine.tasks, engine.runs, engine.next;
      var observed := Observations(run, fits);
      if observed {
        var decided := Decide(env, rid, decision.value, now);
        if decided.Ok? { return Ok(Done); }
        engine.tasks, engine.runs, engine.next := savedTasks, savedRuns, savedNext;
        if repair && Repairable(decided.error) && run.calls < run.maxCalls {
          engine.runs := engine.runs[rid := run.(calls := run.calls + 1,
                                                 lease := MinTime(run.deadline, now + PLANNER_LEASE_SECONDS))];
          return Ok(Repairing);
        }
      }
      Stop(rid, Escalated, "planner_decision_rejected", LOOP_ACTOR);
      return Ok(Done);
    }
  }

  function RetireStep(s: Step, reason: string): Step {
    if Open(s.status)
    then s.(status := if s.status.Running? then Uncertain else Cancelled, claim := NO_ID, lease := 0.0, error := reason)
    else s
  }

  function RejectStep(s: Step, actor: string): Step {
    s.(approval := RejectApproval(s.approval, Some(actor)))
  }

  function RetireTask(t: Task, reason: string): Task { MapSteps(t, s => RetireStep(s, reason)) }

  /** The status is left as it was. */
  function RejectTask(t: Task, actor: string): Task {
    t.(steps := seq(|t.steps|, i requires 0 <= i < |t.steps| => RejectStep(t.steps[i], actor)))
  }

  /** Withdrawing approvals changes no status, so refreshing once, and only a task that was
      still open, leaves the task as if every change had been refreshed. */
  lemma StopByRows(t: Task, reason: string, actor: string)
    requires TaskOk(t)
    ensures StopTask(t, reason, actor) == RejectTask(if Open(t.status) then RetireTask(t, reason) else t, actor)
    ensures StopTask(t, reason, actor).status == (if Open(t.status) then RetireTask(t, reason) else t).status
  {
    hide StepOk, Ordered;
    var mid := if Open(t.status) then RetireTask(t, reason) else t;
    forall i | 0 <= i < |t.steps|
      ensures StopTask(t, reason, actor).steps[i] == RejectTask(mid, actor).steps[i]
    {
    }
    assert StopTask(t, reason, actor).steps == RejectTask(mid, actor).steps;
    SameStatesRefreshAlike(mid.steps, RejectTask(mid, actor).steps);
  }

  lemma SameStatesRefreshAlike(a: seq<Step>, b: seq<Step>)
    requires |a| == |b| && forall i :: 0 <= i < |a| ==> a[i].status == b[i].status
    ensures Refresh(a) == Refresh(b)
  {
    forall s: Status ensures Has(a, s) <==> Has(b, s) {
      if Has(a, s) {
        var i :| 0 <= i < |a| && a[i].status == s;
        assert b[i].status == s;
      }
      if Has(b, s) {
        var i :| 0 <= i < |b| && b[i].status == s;
        assert a[i].status == s;
      }
    }
  }

  lemma RunsAreKeyed(db: Db)
    requires Inv(db)
    ensures forall r, q :: r in db.runs && q in db.runs && db.runs[r].key == db.runs[q].key ==> r == q
  {
    hide TasksOk, TurnsOk, QueueOk, HistoryOk, HandoffsOk, RunOk;
  }

  lemma SubmitLeavesRuns(
    db: Db, env: Env, channel: string, key: Key, agent: string, plan: seq<Call>, actor: string, now: Time)
    requires Inv(db)
    ensures Submit(db, env, channel, key, agent, plan, actor, now).db.runs == db.runs
  {
    hide Inv, TasksGood, SameDispatches, Submit, TasksEvolve;
    GoodTasks(db);
    SubmitKeeps(db, env, channel, key, agent, plan, actor, now);
  }
}
