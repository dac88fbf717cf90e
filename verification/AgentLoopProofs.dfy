/** The agent loop keeps the invariant: budgets, linked tasks, retirement. */
module AgentLoopProofs {
  import opened Basics
  import opened Authorization
  import opened Tasks
  import opened Store
  import opened EngineSpec
  import opened EngineProofs
  import opened AgentLoopSpec

  /** One run changes, after the tasks have. */
  lemma RunChangeKeeps(db: Db, mid: Db, rid: Id, run: Run)
    requires Inv(db) && TasksMove(db, mid) && rid in db.runs
    requires RunOk(mid.tasks, rid, run) && RunEvolves(db.runs[rid], run)
    ensures Inv(mid.(runs := mid.runs[rid := run])) && Evolves(db, mid.(runs := mid.runs[rid := run]))
  {
    TasksMoveKeeps(db, mid);
    RunUpdateKeeps(mid, rid, run);
    EvolvesTransitive(db, mid, mid.(runs := mid.runs[rid := run]));
  }

  lemma TurnSurvivesRuns(tasks: map<Id, Task>, runs: map<Id, Run>, runs': map<Id, Run>, turn: Turn)
    requires TurnOk(tasks, runs, turn) && RunsEvolve(runs, runs')
    ensures TurnOk(tasks, runs', turn)
  {
    if turn.run in runs {
      assert RunEvolves(runs[turn.run], runs'[turn.run]);
    }
  }

  lemma RunUpdateKeeps(db: Db, rid: Id, run: Run)
    requires Inv(db) && rid in db.runs
    requires RunOk(db.tasks, rid, run) && RunEvolves(db.runs[rid], run)
    ensures Inv(db.(runs := db.runs[rid := run])) && Evolves(db, db.(runs := db.runs[rid := run]))
  {
    hide TasksOk, QueueOk, HistoryOk, HandoffsOk, RunOk, TasksEvolve, TurnOk;
    EvolvesReflexive(db);
    var db' := db.(runs := db.runs[rid := run]);
    forall i | 0 <= i < |db'.turns| ensures TurnOk(db'.tasks, db'.runs, db'.turns[i]) {
      TurnSurvivesRuns(db.tasks, db.runs, db'.runs, db.turns[i]);
    }
  }

  // ---------------------------------------------------------------------- create

  lemma CreateKeeps(db: Db, env: Env, key: RunKey, q: Request, now: Time)
    requires Inv(db)
    ensures var tx := Create(db, env, key, q, now);
            Inv(tx.db) && Evolves(db, tx.db) && tx.db == db.(runs := tx.db.runs, next := tx.db.next)
  {
    hide Inv, Evolves, ActiveRuns;
    EvolvesReflexive(db);
    if RequestOk(q) && !RunKeyTaken(db, key) {
      FreshRunOk(db.tasks, db.next, key, q, now);
      RunInsertKeeps(db, FreshRun(key, q, now));
    }
  }

  lemma RunInsertKeeps(db: Db, run: Run)
    requires Inv(db) && !RunKeyTaken(db, run.key) && RunOk(db.tasks, db.next, run)
    ensures var db' := db.(runs := db.runs[db.next := run], next := db.next + 1);
            Inv(db') && Evolves(db, db')
  {
    hide TasksOk, QueueOk, HistoryOk, HandoffsOk, RunOk, TasksEvolve, TurnOk;
    EvolvesReflexive(db);
    var db' := db.(runs := db.runs[db.next := run], next := db.next + 1);
    forall i | 0 <= i < |db'.turns| ensures TurnOk(db'.tasks, db'.runs, db'.turns[i]) {
      TurnSurvivesRuns(db.tasks, db.runs, db'.runs, db.turns[i]);
    }
  }

  lemma FreshRunOk(tasks: map<Id, Task>, rid: Id, key: RunKey, q: Request, now: Time)
    requires RequestOk(q)
    ensures RunOk(tasks, rid, FreshRun(key, q, now))
  {
  }

  // ------------------------------------------------------------------------ stop

  /** A linked task has exactly one step, whose status is the task's. */
  lemma LinkedTaskIsOneStep(tasks: map<Id, Task>, rid: Id, run: Run, k: nat)
    requires RunOk(tasks, rid, run) && k < run.steps
    requires run.links[k].task in tasks && TaskOk(tasks[run.links[k].task])
    ensures |tasks[run.links[k].task].steps| == 1
    ensures tasks[run.links[k].task].status == tasks[run.links[k].task].steps[0].status
  {
    assert LinkOk(tasks, rid, run, k);
    OneStepStatus(tasks[run.links[k].task]);
  }

  lemma OneStepStatus(t: Task)
    requires t.status == Refresh(t.steps) && |t.steps| == 1
    ensures t.status == t.steps[0].status
  {
    assert Has(t.steps, t.steps[0].status);
  }

  lemma SucceededIsRetired(tasks: map<Id, Task>, run: Run, k: nat)
    requires k < |run.links| && LinkSucceeded(tasks, run, k) && TaskOk(tasks[run.links[k].task])
    ensures Retired(tasks, run, k)
  {
  }

  predicate Abandoned(status: RunStatus) {
    status.Escalated? || status.RunUncertain? || status.RunCancelled?
  }

  /** `_stop` ends a live run and retires its current task; the branch for a run whose
      current task is not linked to it is never taken. */
  lemma StopKeeps(db: Db, rid: Id, status: RunStatus, reason: string, actor: string)
    requires Inv(db) && rid in db.runs && ActiveRun(db.runs[rid].status) && Abandoned(status)
    ensures var db' := Stop(db, rid, status, reason, actor);
            && Inv(db') && Evolves(db, db')
            && Abandoned(db'.runs[rid].status) && db'.runs[rid].error == reason
            && db'.tasks.Keys == db.tasks.Keys && SameTurns(db, db')
    ensures SameDispatches(db.tasks, Stop(db, rid, status, reason, actor).tasks)
  {
    hide Inv, Evolves, RunOk, TaskOk, TaskEvolves, TasksMove, StopTask, RunEvolves, SameDispatches, TasksGood;
    var run := db.runs[rid];
    var db' := Stop(db, rid, status, reason, actor);
    TasksOfInv(db);
    RunOfInv(db, rid);
    if run.currentTask == NO_ID {
      StayPut(db);
      NoTaskNoSteps(db, rid);
      StoppedRunOk(db.tasks, rid, run, db'.runs[rid].status, reason);
      RunChangeKeeps(db, db, rid, db'.runs[rid]);
    } else {
      CurrentIsLinked(db.tasks, rid, run);
      var t := StopTask(db.tasks[run.currentTask], reason, actor);
      StopLinkedKeeps(db, rid, if t.status == Uncertain then RunUncertain else status, reason, actor);
    }
  }

  lemma StopLinkedKeeps(db: Db, rid: Id, status: RunStatus, reason: string, actor: string)
    requires Inv(db) && rid in db.runs && ActiveRun(db.runs[rid].status) && Abandoned(status)
    requires db.runs[rid].currentTask != NO_ID && db.runs[rid].currentTask in db.tasks
    ensures var run := db.runs[rid];
            var tasks' := db.tasks[run.currentTask := StopTask(db.tasks[run.currentTask], reason, actor)];
            var db' := db.(tasks := tasks', runs := db.runs[rid := Ended(run, status, reason)]);
            && Inv(db') && Evolves(db, db') && SameDispatches(db.tasks, tasks') && tasks'.Keys == db.tasks.Keys
  {
    hide Inv, Evolves, RunOk, TaskOk, TaskEvolves, TasksMove, StopTask, RunEvolves, SameDispatches, TasksGood, Ended;
    var run := db.runs[rid];
    TasksOfInv(db);
    RunOfInv(db, rid);
    CurrentIsLinked(db.tasks, rid, run);
    var tid := run.currentTask;
    var t := StopTask(db.tasks[tid], reason, actor);
    StopTaskKeeps(db.tasks[tid], reason, actor);
    UpdateMoves(db, tid, t, db.next);
    var mid := db.(tasks := db.tasks[tid := t], next := db.next);
    TasksMoveKeeps(db, mid);
    RunOfInv(mid, rid);
    TasksOfInv(mid);
    CurrentIsClosed(db.tasks, mid.tasks, rid, run, reason, actor);
    StoppedRunOk(mid.tasks, rid, run, status, reason);
    RunChangeKeeps(db, mid, rid, Ended(run, status, reason));
  }

  lemma TasksOfInv(db: Db)
    requires Inv(db)
    ensures TasksGood(db) && db.next != NO_ID
    ensures forall t :: t in db.tasks ==> TaskOk(db.tasks[t])
    ensures db.frozen ==> forall t :: t in db.tasks ==> NoneRunning(db.tasks[t])
  {
  }

  lemma NoTaskNoSteps(db: Db, rid: Id)
    requires Inv(db) && rid in db.runs && db.runs[rid].currentTask == NO_ID
    ensures db.runs[rid].steps == 0
  {
    hide TasksOk, QueueOk, HistoryOk, HandoffsOk, TurnsOk;
    var run := db.runs[rid];
    assert RunOk(db.tasks, rid, run);
    assert run.steps > 0 ==> LinkOk(db.tasks, rid, run, run.steps - 1);
  }

  lemma CurrentIsLinked(tasks: map<Id, Task>, rid: Id, run: Run)
    requires RunOk(tasks, rid, run) && run.currentTask != NO_ID
    ensures run.steps > 0 && run.currentTask == run.links[run.steps - 1].task
    ensures LinksTask(run, run.currentTask) && run.currentTask in tasks
  {
    assert run.steps > 0;
    assert LinkOk(tasks, rid, run, run.steps - 1);
  }

  /** The branch of `_stop` for a run whose current task is not linked to it is dead. */
  lemma CurrentIsAlwaysLinked(db: Db, rid: Id)
    requires Inv(db) && rid in db.runs && db.runs[rid].currentTask != NO_ID
    ensures CurrentLinked(db, rid)
  {
    hide Inv, RunOk;
    RunOfInv(db, rid);
    CurrentIsLinked(db.tasks, rid, db.runs[rid]);
  }

  /** Stopping the current task leaves none of its steps open. */
  lemma CurrentIsClosed(
    tasks: map<Id, Task>, tasks': map<Id, Task>, rid: Id, run: Run, reason: string, actor: string)
    requires RunOk(tasks, rid, run) && run.steps > 0
    requires run.currentTask in tasks && TaskOk(tasks[run.currentTask])
    requires tasks' == tasks[run.currentTask := StopTask(tasks[run.currentTask], reason, actor)]
    ensures Retired(tasks', run, run.steps - 1)
  {
    LinkedTaskIsOneStep(tasks, rid, run, run.steps - 1);
  }

  lemma StoppedRunOk(tasks: map<Id, Task>, rid: Id, run: Run, status: RunStatus, reason: string)
    requires RunOk(tasks, rid, run) && ActiveRun(run.status) && Abandoned(status)
    requires forall t :: t in tasks ==> TaskOk(tasks[t])
    requires run.steps > 0 ==> Retired(tasks, run, run.steps - 1)
    ensures RunOk(tasks, rid, Ended(run, status, reason))
    ensures RunEvolves(run, Ended(run, status, reason))
  {
    hide TaskOk;
    var run' := Ended(run, status, reason);
    forall k | 0 <= k < run'.steps ensures Retired(tasks, run', k) {
      if k < run.steps - 1 {
        assert LinkSucceeded(tasks, run, k);
        SucceededIsRetired(tasks, run, k);
      }
      assert Retired(tasks, run, k);
    }
    forall k | 0 <= k < run'.steps ensures LinkOk(tasks, rid, run', k) {
      assert LinkOk(tasks, rid, run, k);
    }
    forall k | 0 <= k < run'.steps - 1 ensures LinkSucceeded(tasks, run', k) {
      assert LinkSucceeded(tasks, run, k);
    }
  }

  lemma CancelRunKeeps(db: Db, env: Env, rid: Id, actor: string)
    requires Inv(db)
    ensures Inv(CancelRun(db, env, rid, actor).db) && Evolves(db, CancelRun(db, env, rid, actor).db)
    ensures SameTurns(db, CancelRun(db, env, rid, actor).db)
    ensures SameDispatches(db.tasks, CancelRun(db, env, rid, actor).db.tasks)
  {
    hide Inv, Stop, Evolves, SameDispatches, TasksGood, TaskOk, TasksMove;
    EvolvesReflexive(db);
    TasksOfInv(db);
    StayPut(db);
    if rid in db.runs && ActiveRun(db.runs[rid].status) {
      StopKeeps(db, rid, RunCancelled, "operator_cancelled", actor);
    }
  }

  // --------------------------------------------------------------------- reserve

  lemma ReserveKeeps(db: Db, env: Env, rid: Id, now: Time, fits: bool)
    requires Inv(db)
    ensures Inv(Reserve(db, env, rid, now, fits).db) && Evolves(db, Reserve(db, env, rid, now, fits).db)
    ensures SameTurns(db, Reserve(db, env, rid, now, fits).db)
    ensures SameDispatches(db.tasks, Reserve(db, env, rid, now, fits).db.tasks)
  {
    hide Inv, Stop, Evolves, SameDispatches, TasksGood, TaskOk, TasksMove, Obstacle, NotDue, Observable;
    EvolvesReflexive(db);
    TasksOfInv(db);
    StayPut(db);
    if rid in db.runs && ActiveRun(db.runs[rid].status) {
      var run := db.runs[rid];
      var obstacle := Obstacle(db, env, run, now, fits);
      if obstacle.Some? {
        ObstacleAbandons(db, env, run, now, fits);
        StopKeeps(db, rid, obstacle.value.0, obstacle.value.1, LOOP_ACTOR);
      } else if !NotDue(db, run) {
        DueIsObservable(db, env, run, now, fits);
        PlanningKeeps(db, rid, Reserve(db, env, rid, now, fits).db.runs[rid], fits);
      }
    }
  }

  lemma ObstacleAbandons(db: Db, env: Env, run: Run, now: Time, fits: bool)
    requires ActiveRun(run.status) && Obstacle(db, env, run, now, fits).Some?
    ensures Abandoned(Obstacle(db, env, run, now, fits).value.0)
  {
    hide Observable;
  }

  lemma DueIsObservable(db: Db, env: Env, run: Run, now: Time, fits: bool)
    requires ActiveRun(run.status) && Obstacle(db, env, run, now, fits).None? && !NotDue(db, run)
    ensures Observable(db, run, fits) && run.calls < run.maxCalls && !run.status.Planning?
  {
    hide Observable;
  }

  /** Spending one more call on a run whose whole history succeeded. */
  lemma PlanningKeeps(db: Db, rid: Id, run: Run, fits: bool)
    requires Inv(db) && rid in db.runs && ActiveRun(db.runs[rid].status)
    requires Observable(db, db.runs[rid], fits) && db.runs[rid].calls < db.runs[rid].maxCalls
    requires run == db.runs[rid].(status := Planning, claim := run.claim, calls := db.runs[rid].calls + 1,
                                  lease := run.lease)
    requires run.claim != NO_ID
    requires !db.runs[rid].status.Planning? ==> run.claim == db.next
    ensures var next := if db.runs[rid].status.Planning? then db.next else db.next + 1;
            var db' := db.(runs := db.runs[rid := run], next := next);
            Inv(db') && Evolves(db, db')
  {
    hide Inv;
    var before := db.runs[rid];
    RunOfInv(db, rid);
    forall k | 0 <= k < run.steps ensures LinkSucceeded(db.tasks, run, k) && LinkOk(db.tasks, rid, run, k) {
      assert LinkOk(db.tasks, rid, before, k);
    }
    RunUpdateKeeps(db, rid, run);
    NextGrows(db.(runs := db.runs[rid := run]));
  }

  lemma NextGrows(db: Db)
    requires Inv(db)
    ensures Inv(db.(next := db.next + 1))
  {
    hide RunsOk, QueueOk, HistoryOk, HandoffsOk, TurnsOk, TasksOk;
  }

  // ---------------------------------------------------------------------- commit

  lemma DecideKeeps(db: Db, env: Env, rid: Id, d: Decision, now: Time)
    requires Inv(db) && rid in db.runs && db.runs[rid].status.Planning?
    ensures var r := Decide(db, env, rid, d, now);
            r.Ok? ==>
              && Inv(r.value) && Evolves(db, r.value) && SameDispatches(db.tasks, r.value.tasks)
              && SameTurns(db, r.value)
  {
    hide Inv, Evolves, RunOk, Submit, SameDispatches, TasksGood, TaskOk, TasksMove;
    var run := db.runs[rid];
    RunOfInv(db, rid);
    TasksOfInv(db);
    StayPut(db);
    if Decide(db, env, rid, d, now).Ok? {
      match d
      case UseTool(tool, args) =>
        LinkKeeps(db, env, rid, tool, args, now);
      case Answer(answer, evidence) =>
        CloseKeeps(db, rid, RunSucceeded, answer, evidence);
      case Ask(question) =>
        CloseKeeps(db, rid, NeedsInput, question, []);
    }
  }

  lemma RunOfInv(db: Db, rid: Id)
    requires Inv(db) && rid in db.runs
    ensures RunOk(db.tasks, rid, db.runs[rid])
  {
  }

  lemma LinkKeeps(db: Db, env: Env, rid: Id, tool: string, args: Args, now: Time)
    requires Inv(db) && rid in db.runs && db.runs[rid].status.Planning?
    requires var run := db.runs[rid];
             run.steps < run.request.maxSteps && !Repeated(run, tool, args)
    ensures var run := db.runs[rid];
            var tx := Submit(db, env, run.request.channel, RunStep(rid, run.steps), run.request.agent,
                             [Call(tool, args, "")], run.request.actor, now);
            tx.out.Ok? ==>
              var db' := tx.db.(runs := tx.db.runs[rid := Linked(run, tx.out.value, tool, args)]);
              && Inv(db') && Evolves(db, db') && SameDispatches(db.tasks, db'.tasks)
              && SameTurns(db, db')
  {
    hide Inv, TasksGood, TasksEvolve, TaskOk, Submit, RunOk, SameDispatches;
    var run := db.runs[rid];
    TasksOfInv(db);
    RunOfInv(db, rid);
    var plan := [Call(tool, args, "")];
    var tx := Submit(db, env, run.request.channel, RunStep(rid, run.steps), run.request.agent, plan,
                     run.request.actor, now);
    if tx.out.Ok? {
      SubmitKeeps(db, env, run.request.channel, RunStep(rid, run.steps), run.request.agent, plan,
                  run.request.actor, now);
      SubmittedTask(db, env, run.request.channel, RunStep(rid, run.steps), run.request.agent, plan,
                    run.request.actor, now);
      TasksMoveKeeps(db, tx.db);
      RunOfInv(tx.db, rid);
      LinkedRunOk(tx.db.tasks, rid, run, tx.out.value, tool, args);
      RunChangeKeeps(db, tx.db, rid, Linked(run, tx.out.value, tool, args));
    }
  }

  lemma LinkedRunOk(tasks: map<Id, Task>, rid: Id, run: Run, task: Id, tool: string, args: Args)
    requires RunOk(tasks, rid, run) && run.status.Planning?
    requires run.steps < run.request.maxSteps && !Repeated(run, tool, args)
    requires task in tasks && tasks[task].channel == run.request.channel
    requires tasks[task].key == RunStep(rid, run.steps) && tasks[task].plan == [Call(tool, args, "")]
    ensures RunOk(tasks, rid, Linked(run, task, tool, args))
    ensures RunEvolves(run, Linked(run, task, tool, args))
  {
    var run' := Linked(run, task, tool, args);
    forall k | 0 <= k < run'.steps ensures LinkOk(tasks, rid, run', k) {
      if k < run.steps {
        assert LinkOk(tasks, rid, run, k);
      }
    }
    forall k | 0 <= k < run'.steps - 1 ensures LinkSucceeded(tasks, run', k) {
      assert LinkSucceeded(tasks, run, k);
    }
  }

  lemma CloseKeeps(db: Db, rid: Id, status: RunStatus, answer: string, evidence: seq<Id>)
    requires Inv(db) && rid in db.runs && db.runs[rid].status.Planning?
    requires status.RunSucceeded? || status.NeedsInput?
    requires status.RunSucceeded? ==>
               |evidence| > 0 && forall k :: 0 <= k < |evidence| ==> LinksTask(db.runs[rid], evidence[k])
    ensures var db' := db.(runs := db.runs[rid := Closed(db.runs[rid], status, answer, evidence)]);
            Inv(db') && Evolves(db, db')
  {
    hide Inv, TaskOk;
    var run := db.runs[rid];
    var run' := Closed(run, status, answer, evidence);
    RunOfInv(db, rid);
    TasksOfInv(db);
    forall k | 0 <= k < run'.steps
      ensures LinkOk(db.tasks, rid, run', k) && LinkSucceeded(db.tasks, run', k) && Retired(db.tasks, run', k)
    {
      assert LinkOk(db.tasks, rid, run, k) && LinkSucceeded(db.tasks, run, k);
      SucceededIsRetired(db.tasks, run', k);
    }
    forall k | 0 <= k < |run'.evidence| ensures status.RunSucceeded? ==> LinksTask(run', run'.evidence[k]) {
      assert status.RunSucceeded? ==> LinksTask(run, evidence[k]);
    }
    RunUpdateKeeps(db, rid, run');
  }

  lemma CommitKeeps(
    db: Db, env: Env, rid: Id, claim: Id, decision: Option<Decision>, repair: bool, now: Time, fits: bool)
    requires Inv(db)
    ensures var tx := Commit(db, env, rid, claim, decision, repair, now, fits);
            && Inv(tx.db) && Evolves(db, tx.db) && SameDispatches(db.tasks, tx.db.tasks)
            && SameTurns(db, tx.db)
  {
    hide Inv, Stop, Evolves, Decide, SameDispatches, TasksGood, TaskOk, TasksMove;
    TasksOfInv(db);
    StayPut(db);
    EvolvesReflexive(db);
    if rid in db.runs && db.runs[rid].status.Planning? && db.runs[rid].claim == claim {
      var run := db.runs[rid];
      if run.deadline <= now || run.lease <= now {
        StopKeeps(db, rid, Escalated, "planner_result_arrived_after_deadline", LOOP_ACTOR);
      } else if !Active(db, env) || !env.authority(run.request.channel, run.request.actor, MEMBERS) {
        StopKeeps(db, rid, Escalated, "authority_or_freeze_changed_during_planning", LOOP_ACTOR);
      } else if decision.None? {
        StopKeeps(db, rid, Escalated, "planner_failed_no_retry", LOOP_ACTOR);
      } else if !Observable(db, run, fits) {
        StopKeeps(db, rid, Escalated, "planner_decision_rejected", LOOP_ACTOR);
      } else {
        DecisionKeeps(db, env, rid, decision.value, repair, now, fits);
      }
    }
  }

  /** A decision taken in time: committed, repaired, or rejected. */
  lemma DecisionKeeps(db: Db, env: Env, rid: Id, d: Decision, repair: bool, now: Time, fits: bool)
    requires Inv(db) && rid in db.runs && db.runs[rid].status.Planning? && Observable(db, db.runs[rid], fits)
    requires db.runs[rid].deadline > now && db.runs[rid].lease > now && Active(db, env)
    requires env.authority(db.runs[rid].request.channel, db.runs[rid].request.actor, MEMBERS)
    ensures var tx := Commit(db, env, rid, db.runs[rid].claim, Some(d), repair, now, fits);
            && Inv(tx.db) && Evolves(db, tx.db) && SameDispatches(db.tasks, tx.db.tasks)
            && SameTurns(db, tx.db)
  {
    hide Inv, Stop, Evolves, Decide, SameDispatches, TasksGood, TaskOk, TasksMove;
    TasksOfInv(db);
    StayPut(db);
    var run := db.runs[rid];
    RunOfInv(db, rid);
    DecideKeeps(db, env, rid, d, now);
    var decided := Decide(db, env, rid, d, now);
    if decided.Err? {
      if repair && Repairable(decided.error) && run.calls < run.maxCalls {
        PlanningKeeps(db, rid, run.(calls := run.calls + 1,
                                    lease := MinTime(run.deadline, now + PLANNER_LEASE_SECONDS)), fits);
      } else {
        StopKeeps(db, rid, Escalated, "planner_decision_rejected", LOOP_ACTOR);
      }
    }
  }

  /** Only the run `rid` changed; it gained exactly one link, and the store at most that
      link's task, or else no task and no link that was not there before. */
  ghost predicate AllOrNothing(db: Db, db': Db, rid: Id)
    requires rid in db.runs
  {
    && db'.runs.Keys == db.runs.Keys
    && (forall r :: r in db.runs && r != rid ==> db'.runs[r] == db.runs[r])
    && var run, run' := db.runs[rid], db'.runs[rid];
       if run'.links == run.links then db'.tasks.Keys == db.tasks.Keys
       else
         && |run'.links| == |run.links| + 1 && run.links <= run'.links
         && run'.links[|run.links|].task == run'.currentTask
         && db'.tasks.Keys == db.tasks.Keys + {run'.currentTask}
  }

  lemma NothingLinked(db: Db, db': Db, rid: Id, run: Run)
    requires rid in db.runs && db'.runs == db.runs[rid := run] && run.links == db.runs[rid].links
    requires db'.tasks.Keys == db.tasks.Keys
    ensures AllOrNothing(db, db', rid)
  {
  }

  lemma StopAddsNothing(db: Db, rid: Id, reason: string)
    requires rid in db.runs
    ensures AllOrNothing(db, Stop(db, rid, Escalated, reason, LOOP_ACTOR), rid)
  {
    hide StopTask, AllOrNothing, StopOutcome, Ended;
    var end := StopOutcome(db, rid, Escalated, reason, LOOP_ACTOR);
    EndingKeepsLinks(db.runs[rid], end.0, end.1);
    NothingLinked(db, Stop(db, rid, Escalated, reason, LOOP_ACTOR), rid, Ended(db.runs[rid], end.0, end.1));
  }

  lemma EndingKeepsLinks(run: Run, status: RunStatus, reason: string)
    ensures Ended(run, status, reason).links == run.links
  {
  }

  lemma DecideIsAtomic(db: Db, env: Env, rid: Id, d: Decision, now: Time)
    requires Inv(db) && rid in db.runs
    ensures var r := Decide(db, env, rid, d, now);
            r.Ok? ==> AllOrNothing(db, r.value, rid)
    ensures var r := Decide(db, env, rid, d, now);
            r.Ok? && d.UseTool? ==> |r.value.runs[rid].links| == |db.runs[rid].links| + 1
  {
    hide Inv, CheckDecision, Submit, TasksGood, TasksEvolve, TaskOk, SameDispatches;
    if d.UseTool? {
      var run := db.runs[rid];
      TasksOfInv(db);
      SubmitKeeps(db, env, run.request.channel, RunStep(rid, run.steps), run.request.agent,
                  [Call(d.tool, d.args, "")], run.request.actor, now);
      SubmitAddsOneTask(db, env, run.request.channel, RunStep(rid, run.steps), run.request.agent,
                        [Call(d.tool, d.args, "")], run.request.actor, now);
    }
  }

  /** A commit is all or nothing: a rejected decision leaves no task and no link behind its
      savepoint, and an accepted action leaves exactly one of each. */
  lemma CommitIsAtomic(
    db: Db, env: Env, rid: Id, claim: Id, decision: Option<Decision>, repair: bool, now: Time, fits: bool)
    requires Inv(db) && rid in db.runs
    ensures AllOrNothing(db, Commit(db, env, rid, claim, decision, repair, now, fits).db, rid)
  {
    hide Inv, Stop, Decide, Observable, Active, AllOrNothing, Repairable;
    var run := db.runs[rid];
    var db' := Commit(db, env, rid, claim, decision, repair, now, fits).db;
    StopAddsNothing(db, rid, "planner_result_arrived_after_deadline");
    StopAddsNothing(db, rid, "authority_or_freeze_changed_during_planning");
    StopAddsNothing(db, rid, "planner_failed_no_retry");
    StopAddsNothing(db, rid, "planner_decision_rejected");
    NothingLinked(db, db, rid, run);
    var again := run.(calls := run.calls + 1, lease := MinTime(run.deadline, now + PLANNER_LEASE_SECONDS));
    NothingLinked(db, db.(runs := db.runs[rid := again]), rid, again);
    if decision.Some? {
      DecideIsAtomic(db, env, rid, decision.value, now);
    }
  }
}
