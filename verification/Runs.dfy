/** What holds over every run of the system: any number of workers, operators and
    webhooks, any interleaving, from an empty store. */
module Runs {
  import opened Basics
  import opened Authorization
  import opened Tasks
  import opened Store
  import opened EngineSpec
  import opened EngineProofs
  import opened AgentLoopSpec
  import opened AgentLoopProofs
  import opened ConversationSpec
  import opened ConversationProofs
  import opened Protocol

  ghost predicate Next(s: System, op: Op, s': System) {
    Enabled(s, op) && s' == Perform(s, op)
  }

  /** A run: `ops[k]` takes `trace[k]` to `trace[k + 1]`. */
  ghost predicate Behaviour(trace: seq<System>, ops: seq<Op>) {
    && |trace| == |ops| + 1
    && trace[0] == System(EmptyStore(), {}, {}, None)
    && forall k :: 0 <= k < |ops| ==> Next(trace[k], ops[k], trace[k + 1])
  }

  lemma EmptyStoreIsGood()
    ensures SysInv(System(EmptyStore(), {}, {}, None))
  {
    assert OpenTurns([]) == {};
  }

  /** The invariant of the three coordinators holds at every point of every run. */
  lemma {:induction false} AlwaysInv(trace: seq<System>, ops: seq<Op>, k: nat)
    requires Behaviour(trace, ops) && k < |trace|
    ensures SysInv(trace[k])
  {
    hide SysInv, Enabled, Perform;
    if k == 0 {
      EmptyStoreIsGood();
    } else {
      AlwaysInv(trace, ops, k - 1);
      assert Next(trace[k - 1], ops[k - 1], trace[k]);
      StepKeeps(trace[k - 1], ops[k - 1]);
    }
  }

  /** What holds between two consecutive states holds between any two. */
  lemma {:induction false} AlwaysEvolves(trace: seq<System>, ops: seq<Op>, i: nat, j: nat)
    requires Behaviour(trace, ops) && i <= j < |trace|
    ensures Evolves(trace[i].db, trace[j].db)
    ensures trace[i].claims <= trace[j].claims && trace[i].held <= trace[j].held
    ensures Inv(trace[i].db) && Inv(trace[j].db)
    decreases j - i
  {
    hide Inv, Evolves, HeldOk, ClaimsOk, Enabled, Perform;
    AlwaysInv(trace, ops, i);
    AlwaysInv(trace, ops, j);
    if i == j {
      EvolvesReflexive(trace[i].db);
    } else {
      AlwaysEvolves(trace, ops, i, j - 1);
      assert Next(trace[j - 1], ops[j - 1], trace[j]);
      AlwaysInv(trace, ops, j - 1);
      StepKeeps(trace[j - 1], ops[j - 1]);
      EvolvesTransitive(trace[i].db, trace[j - 1].db, trace[j].db);
    }
  }

  // ---------------------------------------------------------------- at most once

  /** The `k`-th operation hands this claim to a worker. */
  predicate HandsOut(trace: seq<System>, ops: seq<Op>, k: nat, c: Claimed) {
    k < |ops| && |trace| == |ops| + 1 && ops[k].Engine? && trace[k + 1].handed == Some(c)
  }

  ghost predicate StepExists(db: Db, t: Id, pos: nat) { t in db.tasks && pos < |db.tasks[t].steps| }

  ghost function StepAt(db: Db, t: Id, pos: nat): Step
    requires StepExists(db, t, pos)
  {
    db.tasks[t].steps[pos]
  }

  lemma StepsEvolve(db: Db, db': Db, t: Id, pos: nat)
    requires Inv(db) && Inv(db') && Evolves(db, db') && StepExists(db, t, pos)
    ensures StepExists(db', t, pos) && TaskEvolves(db.tasks[t], db'.tasks[t])
    ensures StepEvolves(StepAt(db, t, pos), StepAt(db', t, pos))
    ensures TaskOk(db.tasks[t]) && TaskOk(db'.tasks[t])
    ensures StepOk(StepAt(db, t, pos)) && StepOk(StepAt(db', t, pos))
  {
    hide RunsOk, TurnsOk, QueueOk, HistoryOk, HandoffsOk, RunsEvolve, TurnsEvolve, DestinationBound, StepEvolves,
         StepOk, Refresh, Ordered, Has;
    assert TaskEvolves(db.tasks[t], db'.tasks[t]);
  }

  /** A dispatch, the moment it happens: the step was waiting and everything before it in
      its task had succeeded; whatever authorised it at submission still holds. */
  lemma DispatchMoment(trace: seq<System>, ops: seq<Op>, k: nat, c: Claimed)
    requires Behaviour(trace, ops) && HandsOut(trace, ops, k, c)
    ensures Dispatched(trace[k].db.tasks, trace[k + 1].db.tasks, c)
    ensures DispatchFacts(trace[k].db, ops[k].e, c)
    ensures StepExists(trace[k].db, c.task, c.pos) && StepExists(trace[k + 1].db, c.task, c.pos)
  {
    hide Inv, HeldOk, ClaimsOk, DispatchFacts, EngineStep, EngineEnabled;
    AlwaysInv(trace, ops, k);
    assert Next(trace[k], ops[k], trace[k + 1]);
    EngineStepKeeps(trace[k].db, ops[k].e);
  }

  /** Main result: a step is handed to a worker at most once in a whole run. When it is,
      every earlier step of its task has succeeded, and it is fully authorised; from then
      on it is never waiting or cancelled, and the approval it needed stays consumed. */
  lemma AtMostOnceInOrder(trace: seq<System>, ops: seq<Op>, i: nat, c: Claimed, k: nat)
    requires Behaviour(trace, ops) && HandsOut(trace, ops, i, c) && i < k < |trace|
    ensures forall d :: HandsOut(trace, ops, k, d) ==> (d.task, d.pos) != (c.task, c.pos)
    ensures DispatchFacts(trace[i].db, ops[i].e, c)
    ensures StepExists(trace[k].db, c.task, c.pos)
    ensures StepAt(trace[k].db, c.task, c.pos).attempts == 1
    ensures var s := StepAt(trace[k].db, c.task, c.pos);
            && !Waiting(s.status) && !s.status.Cancelled?
            && (s.needed ==> s.approval.Some? && s.approval.value.status.Consumed? && s.approval.value.fp == s.fp)
    ensures forall j :: 0 <= j < c.pos ==> StepAt(trace[k].db, c.task, j).status == Succeeded
  {
    hide Inv, Evolves, DispatchFacts, Enabled, TaskOk, TaskEvolves, Behaviour;
    DispatchMoment(trace, ops, i, c);
    AlwaysEvolves(trace, ops, i + 1, k);
    StepsEvolve(trace[i + 1].db, trace[k].db, c.task, c.pos);
    forall j | 0 <= j < c.pos ensures StepAt(trace[k].db, c.task, j).status == Succeeded {
      StepsEvolve(trace[i + 1].db, trace[k].db, c.task, j);
    }
    forall d | HandsOut(trace, ops, k, d) ensures (d.task, d.pos) != (c.task, c.pos) {
      DispatchMoment(trace, ops, k, d);
    }
  }

  /** At every point of a run, each step has been claimed at most once, by one worker under
      one token, and everything before a claimed step in its task has succeeded. */
  lemma OneClaimPerStep(trace: seq<System>, ops: seq<Op>, k: nat, c: Claimed)
    requires Behaviour(trace, ops) && k < |trace| && c in trace[k].claims
    ensures forall d :: d in trace[k].claims && d.task == c.task && d.pos == c.pos ==> d == c
    ensures StepExists(trace[k].db, c.task, c.pos) && StepAt(trace[k].db, c.task, c.pos).attempts == 1
    ensures forall j :: 0 <= j < c.pos ==> StepAt(trace[k].db, c.task, j).status == Succeeded
  {
    hide Behaviour, HeldOk, RunsOk, TurnsOk, QueueOk, HistoryOk, HandoffsOk, DestinationBound;
    AlwaysInv(trace, ops, k);
    assert TaskOk(trace[k].db.tasks[c.task]);
    assert Reached(StepAt(trace[k].db, c.task, c.pos));
  }

  /** At every point of a run, a task has at most one step running or unresolved. */
  lemma OneInFlight(trace: seq<System>, ops: seq<Op>, k: nat, t: Id, i: nat, j: nat)
    requires Behaviour(trace, ops) && k < |trace|
    requires StepExists(trace[k].db, t, i) && StepExists(trace[k].db, t, j)
    requires StepAt(trace[k].db, t, i).status in {Running, Uncertain}
    requires StepAt(trace[k].db, t, j).status in {Running, Uncertain}
    ensures i == j
  {
    hide HeldOk, ClaimsOk, RunsOk, TurnsOk, QueueOk, HistoryOk, HandoffsOk, Behaviour;
    AlwaysInv(trace, ops, k);
    AtMostOneInFlight(trace[k].db.tasks[t], i, j);
  }

  // --------------------------------------------------------------------- fencing

  /** A report the engine accepts. */
  predicate Reports(db: Db, op: Op, t: Id, pos: nat, token: Id) {
    && op.Engine? && op.e.FinishStep? && op.e.tid == t && op.e.pos == pos && op.e.token == token
    && Finish(db, t, pos, token, op.e.result, op.e.report, op.e.error, op.e.now).out.Ok?
  }

  /** Main result: a report is accepted only from the worker the step was handed to, only
      while its lease runs, and only once; afterwards the recorded result never changes. */
  lemma OneReport(trace: seq<System>, ops: seq<Op>, i: nat, t: Id, pos: nat, token: Id, k: nat)
    requires Behaviour(trace, ops) && i < |ops| && Reports(trace[i].db, ops[i], t, pos, token)
    requires i < k < |trace|
    ensures Claimed(t, pos, token) in trace[i].claims
    ensures ops[i].e.now < StepAt(trace[i].db, t, pos).lease
    ensures StepExists(trace[k].db, t, pos) && StepAt(trace[k].db, t, pos).result == ops[i].e.result
    ensures k < |ops| ==> forall other :: !Reports(trace[k].db, ops[k], t, pos, other)
    // What was reported stands; only an uncertain report may later be reconciled.
    ensures var now, said := StepAt(trace[k].db, t, pos).status, ReportStatus(ops[i].e.report);
            now == said || (said.Uncertain? && (now.Succeeded? || now.Failed?))
  {
    hide Inv, HeldOk, Enabled, TaskOk, TaskEvolves;
    AlwaysInv(trace, ops, i);
    AlwaysEvolves(trace, ops, i, i);
    assert Next(trace[i], ops[i], trace[i + 1]);
    StepsEvolve(trace[i].db, trace[i].db, t, pos);
    var e := ops[i].e;
    assert trace[i + 1].db == Finish(trace[i].db, t, pos, token, e.result, e.report, e.error, e.now).db;
    LostForGood(trace, ops, i + 1, t, pos, k);
    AlwaysEvolves(trace, ops, i + 1, k);
    StepsEvolve(trace[i + 1].db, trace[k].db, t, pos);
  }

  /** A step that was handed out and is not running any more, for whatever reason (lease
      recovery, freeze, cancel, device change, run stop, or its report), is out of its
      holder's reach: no report on it is ever accepted, and its result never changes. */
  lemma LostForGood(trace: seq<System>, ops: seq<Op>, i: nat, t: Id, pos: nat, k: nat)
    requires Behaviour(trace, ops) && i <= k < |trace|
    requires StepExists(trace[i].db, t, pos)
    requires StepAt(trace[i].db, t, pos).attempts == 1 && !StepAt(trace[i].db, t, pos).status.Running?
    ensures StepExists(trace[k].db, t, pos)
    ensures StepAt(trace[k].db, t, pos).attempts == 1 && !StepAt(trace[k].db, t, pos).status.Running?
    ensures StepAt(trace[k].db, t, pos).result == StepAt(trace[i].db, t, pos).result
    ensures forall op, token :: !Reports(trace[k].db, op, t, pos, token)
  {
    hide Inv, Evolves, Behaviour, TaskOk, TaskEvolves, StepOk;
    AlwaysEvolves(trace, ops, i, k);
    StepsEvolve(trace[i].db, trace[k].db, t, pos);
  }

  /** Every running step belongs to exactly the worker that was handed its claim. */
  lemma RunningIsClaimed(trace: seq<System>, ops: seq<Op>, k: nat, t: Id, pos: nat)
    requires Behaviour(trace, ops) && k < |trace| && StepExists(trace[k].db, t, pos)
    requires StepAt(trace[k].db, t, pos).status.Running?
    ensures Claimed(t, pos, StepAt(trace[k].db, t, pos).claim) in trace[k].claims
    ensures forall c :: c in trace[k].claims && c.task == t && c.pos == pos ==>
              c.token == StepAt(trace[k].db, t, pos).claim
    ensures !trace[k].db.frozen
  {
    hide HeldOk, RunsOk, TurnsOk, QueueOk, HistoryOk, HandoffsOk, Behaviour, TaskOk, DestinationBound;
    AlwaysInv(trace, ops, k);
    assert trace[k].db.frozen ==> NoneRunning(trace[k].db.tasks[t]);
  }

  // -------------------------------------------------------- tasks that are done for

  /** Main result: once a step of a task is cancelled, nothing of that task is ever handed
      out again, although the task may still move between cancelled, uncertain and failed.
      A succeeded or failed task keeps its status. */
  lemma CancelledForGood(trace: seq<System>, ops: seq<Op>, i: nat, t: Id, k: nat)
    requires Behaviour(trace, ops) && i <= k < |trace| && t in trace[i].db.tasks
    ensures t in trace[k].db.tasks && trace[k].db.tasks[t].status == Refresh(trace[k].db.tasks[t].steps)
    ensures trace[i].db.tasks[t].status in {Succeeded, Failed} ==>
              trace[k].db.tasks[t].status == trace[i].db.tasks[t].status
    ensures Has(trace[i].db.tasks[t].steps, Cancelled) ==>
              && (forall c :: HandsOut(trace, ops, k, c) ==> c.task != t)
              && trace[k].db.tasks[t].status in {Cancelled, Uncertain, Failed}
  {
    hide Inv, Evolves, Behaviour, HandsOut, StepEvolves, StepOk, Dispatched, TasksEvolve, Has, Ordered;
    AlwaysEvolves(trace, ops, i, k);
    TasksEvolveOf(trace[i].db, trace[k].db);
    OneTaskEvolves(trace[i].db.tasks, trace[k].db.tasks, t);
    if Has(trace[i].db.tasks[t].steps, Cancelled) {
      CancelledStays(trace[i].db.tasks[t], trace[k].db.tasks[t]);
      forall c | HandsOut(trace, ops, k, c) ensures c.task != t {
        HandedTaskIsNotCancelled(trace, ops, k, c);
      }
    }
  }

  lemma OneTaskEvolves(tasks: map<Id, Task>, tasks': map<Id, Task>, t: Id)
    requires TasksEvolve(tasks, tasks') && t in tasks
    ensures t in tasks' && TaskEvolves(tasks[t], tasks'[t])
  {
  }

  lemma HandedTaskIsNotCancelled(trace: seq<System>, ops: seq<Op>, k: nat, c: Claimed)
    requires Behaviour(trace, ops) && HandsOut(trace, ops, k, c)
    ensures c.task in trace[k].db.tasks && !Has(trace[k].db.tasks[c.task].steps, Cancelled)
  {
    hide Inv, Evolves, Behaviour, StepEvolves, TaskOk, Dispatched, TasksEvolve, Has, DispatchFacts;
    DispatchMoment(trace, ops, k, c);
    AlwaysEvolves(trace, ops, k, k + 1);
    TasksEvolveOf(trace[k].db, trace[k + 1].db);
    DispatchedCounts(trace[k].db.tasks, trace[k + 1].db.tasks, c);
    OneTaskEvolves(trace[k].db.tasks, trace[k + 1].db.tasks, c.task);
  }

  lemma CancelledStays(t: Task, t': Task)
    requires Has(t.steps, Cancelled) && TaskEvolves(t, t') && TaskOk(t) && TaskOk(t')
    ensures Has(t'.steps, Cancelled) && t'.status in {Cancelled, Uncertain, Failed}
  {
    var i :| 0 <= i < |t.steps| && t.steps[i].status == Cancelled;
    assert StepEvolves(t.steps[i], t'.steps[i]);
    assert t'.steps[i].status == Cancelled;
  }

  lemma DispatchedCounts(tasks: map<Id, Task>, tasks': map<Id, Task>, c: Claimed)
    requires Dispatched(tasks, tasks', c)
    ensures c.task in tasks && c.task in tasks'
    ensures c.pos < |tasks[c.task].steps| == |tasks'[c.task].steps|
    ensures tasks'[c.task].steps[c.pos].attempts != tasks[c.task].steps[c.pos].attempts
  {
  }

  /** A cancelled task with nothing running has only succeeded, waiting and cancelled steps,
      and nothing anyone does changes that. */
  lemma QuietCancelledStays(t: Task, t': Task)
    requires TaskOk(t) && TaskOk(t') && TaskEvolves(t, t')
    requires t.status.Cancelled? && NoneRunning(t)
    ensures t'.status.Cancelled?
  {
    assert Has(t.steps, Cancelled);
    forall i | 0 <= i < |t'.steps|
      ensures t'.steps[i].status != Uncertain && t'.steps[i].status != Failed && t'.steps[i].status != Running
    {
      assert StepEvolves(t.steps[i], t'.steps[i]) && StepOk(t.steps[i]) && StepOk(t'.steps[i]);
      assert t.steps[i].status != Running && t.steps[i].status != Uncertain && t.steps[i].status != Failed;
    }
    var c :| 0 <= c < |t.steps| && t.steps[c].status == Cancelled;
    assert StepEvolves(t.steps[c], t'.steps[c]);
    assert t'.steps[c].status == Cancelled;
  }

  /** A run that continues another. */
  ghost predicate Continues(trace: seq<System>, ops: seq<Op>, trace': seq<System>, ops': seq<Op>) {
    Behaviour(trace, ops) && Behaviour(trace', ops') && trace <= trace' && ops <= ops'
  }

  /** At this point of the run and in every later state of every run that continues it. */
  ghost predicate CancelledForEver(trace: seq<System>, ops: seq<Op>, t: Id) {
    forall trace': seq<System>, ops': seq<Op>, k: nat ::
      Continues(trace, ops, trace', ops') && |ops| <= k < |trace'| ==>
        t in trace'[k].db.tasks && trace'[k].db.tasks[t].status.Cancelled?
  }

  /** Main result: a cancelled task stays cancelled, whatever happens next, if and only if
      none of its steps is running. */
  lemma CancelledIsFinalIff(trace: seq<System>, ops: seq<Op>, t: Id)
    requires Behaviour(trace, ops) && t in trace[|ops|].db.tasks && trace[|ops|].db.tasks[t].status.Cancelled?
    ensures CancelledForEver(trace, ops, t) <==> NoneRunning(trace[|ops|].db.tasks[t])
  {
    hide Inv, Evolves, Behaviour, TaskOk, TaskEvolves, NoneRunning, Perform, Enabled;
    assert |trace| == |ops| + 1 by { TraceLength(trace, ops); }
    if NoneRunning(trace[|ops|].db.tasks[t]) {
      forall trace': seq<System>, ops': seq<Op>, k: nat | Continues(trace, ops, trace', ops') && |ops| <= k < |trace'|
        ensures t in trace'[k].db.tasks && trace'[k].db.tasks[t].status.Cancelled?
      {
        AlwaysEvolves(trace', ops', |ops|, k);
        TasksEvolveOf(trace'[|ops|].db, trace'[k].db);
        OneTaskEvolves(trace'[|ops|].db.tasks, trace'[k].db.tasks, t);
        QuietCancelledStays(trace'[|ops|].db.tasks[t], trace'[k].db.tasks[t]);
      }
    } else {
      var trace', ops' := FreezeNext(trace, ops, t);
      assert Continues(trace, ops, trace', ops') && |ops| <= |ops| + 1 < |trace'|;
    }
  }

  lemma TraceLength(trace: seq<System>, ops: seq<Op>)
    requires Behaviour(trace, ops)
    ensures |trace| == |ops| + 1
  {
  }

  /** A directory that authorises everyone, over no packs at all. */
  function Permissive(): Env {
    Env(map[], map[], (tool, args) => true, (agent, tool, args) => Ok(None), (channel, actor, roles) => true)
  }

  /** The run in which an owner freezes the tenant next: a running step becomes uncertain. */
  lemma FreezeNext(trace: seq<System>, ops: seq<Op>, t: Id) returns (trace': seq<System>, ops': seq<Op>)
    requires Behaviour(trace, ops) && t in trace[|ops|].db.tasks && !NoneRunning(trace[|ops|].db.tasks[t])
    ensures Continues(trace, ops, trace', ops') && |trace'| == |ops| + 2
    ensures t in trace'[|ops| + 1].db.tasks && trace'[|ops| + 1].db.tasks[t].status.Uncertain?
  {
    hide FreezeTask, NoneRunning;
    var op := Engine(FreezeTenant(Permissive(), true, "owner"));
    var s' := Perform(trace[|ops|], op);
    trace', ops' := trace + [s'], ops + [op];
    forall k | 0 <= k < |ops'| ensures Next(trace'[k], ops'[k], trace'[k + 1]) {
      if k < |ops| {
        assert Next(trace[k], ops[k], trace[k + 1]);
      }
    }
    assert s'.db.tasks[t] == FreezeTask(trace[|ops|].db.tasks[t]);
    FrozenIsUncertain(trace[|ops|].db.tasks[t]);
  }

  lemma FrozenIsUncertain(t: Task)
    requires !NoneRunning(t)
    ensures FreezeTask(t).status.Uncertain?
  {
    var i :| 0 <= i < |t.steps| && t.steps[i].status == Running;
    assert FreezeTask(t).steps[i].status == Uncertain;
  }

  // ------------------------------------------------------------------ agent runs

  /** Main result: a terminal run never changes again, and from that point on none of its
      linked tasks has a step that is queued, waiting or running, and none is ever handed
      to a worker. */
  lemma TerminalRunIsInert(trace: seq<System>, ops: seq<Op>, i: nat, rid: Id, k: nat, pos: nat)
    requires Behaviour(trace, ops) && i <= k < |trace| && rid in trace[i].db.runs
    requires !ActiveRun(trace[i].db.runs[rid].status) && pos < trace[i].db.runs[rid].steps
    ensures rid in trace[k].db.runs && trace[k].db.runs[rid] == trace[i].db.runs[rid]
    ensures pos < |trace[k].db.runs[rid].links| && Retired(trace[k].db.tasks, trace[k].db.runs[rid], pos)
    ensures forall c :: HandsOut(trace, ops, k, c) ==> c.task != trace[k].db.runs[rid].links[pos].task
  {
    hide Behaviour, Inv, Evolves, RunOk, Dispatched, DispatchFacts, TaskOk, Retired;
    AlwaysEvolves(trace, ops, i, k);
    OneRunEvolves(trace[i].db, trace[k].db, rid);
    FinishedRunIsRetired(trace[k].db.tasks, rid, trace[k].db.runs[rid], pos);
    forall c | HandsOut(trace, ops, k, c) ensures c.task != trace[k].db.runs[rid].links[pos].task {
      DispatchMoment(trace, ops, k, c);
      DispatchedWasOpen(trace[k].db.tasks, trace[k + 1].db.tasks, c, trace[k].db.runs[rid], pos);
    }
  }

  lemma OneRunEvolves(db: Db, db': Db, rid: Id)
    requires Inv(db) && Inv(db') && Evolves(db, db') && rid in db.runs
    ensures rid in db'.runs && RunEvolves(db.runs[rid], db'.runs[rid])
    ensures RunOk(db.tasks, rid, db.runs[rid]) && RunOk(db'.tasks, rid, db'.runs[rid])
  {
    hide TurnsOk, QueueOk, HistoryOk, HandoffsOk, TasksOk, TasksEvolve, TurnsEvolve, RunOk, RunEvolves;
  }

  lemma FinishedRunIsRetired(tasks: map<Id, Task>, rid: Id, run: Run, pos: nat)
    requires RunOk(tasks, rid, run) && !ActiveRun(run.status) && pos < run.steps
    ensures pos < |run.links| && Retired(tasks, run, pos)
  {
  }

  lemma DispatchedWasOpen(tasks: map<Id, Task>, tasks': map<Id, Task>, c: Claimed, run: Run, pos: nat)
    requires Dispatched(tasks, tasks', c) && pos < |run.links| && Retired(tasks, run, pos)
    ensures c.task != run.links[pos].task
  {
    assert Open(tasks[c.task].steps[c.pos].status);
  }

  /** A run at any point: within its budgets of calls and actions, its actions numbered in
      order and all different, and all but the newest succeeded. */
  ghost predicate RunHistory(tasks: map<Id, Task>, run: Run) {
    && run.calls <= run.maxCalls == run.request.maxSteps + 1
    && run.steps == |run.links| && run.steps <= run.calls && run.steps <= run.request.maxSteps
    && (forall k :: 0 <= k < |run.links| ==> run.links[k].position == k)
    && (forall j, k :: 0 <= j < k < |run.links| ==>
          (run.links[j].tool, run.links[j].args) != (run.links[k].tool, run.links[k].args))
    && (forall k :: 0 <= k < |run.links| - 1 ==> LinkSucceeded(tasks, run, k))
  }

  /** Main result: so is every run at every point of every behaviour. */
  lemma EarlierActionsSucceeded(trace: seq<System>, ops: seq<Op>, k: nat, rid: Id)
    requires Behaviour(trace, ops) && k < |trace| && rid in trace[k].db.runs
    ensures RunHistory(trace[k].db.tasks, trace[k].db.runs[rid])
  {
    hide Behaviour, TurnsOk, QueueOk, HistoryOk, HandoffsOk, TasksOk, HeldOk, ClaimsOk, RunOk, RunHistory;
    AlwaysInv(trace, ops, k);
    HistoryOfRun(trace[k].db.tasks, rid, trace[k].db.runs[rid]);
  }

  lemma HistoryOfRun(tasks: map<Id, Task>, rid: Id, run: Run)
    requires RunOk(tasks, rid, run)
    ensures RunHistory(tasks, run)
  {
    hide LinkSucceeded, Retired;
    forall k | 0 <= k < |run.links| ensures run.links[k].position == k {
      assert LinkOk(tasks, rid, run, k);
    }
  }

  /** How often a run changes between two points. */
  ghost function Changes(trace: seq<System>, rid: Id, lo: nat, hi: nat): nat
    requires lo <= hi < |trace|
    decreases hi - lo
  {
    if lo == hi then 0
    else
      Changes(trace, rid, lo, hi - 1)
      + (if rid in trace[hi - 1].db.runs && rid in trace[hi].db.runs
            && trace[hi - 1].db.runs[rid] != trace[hi].db.runs[rid] then 1 else 0)
  }

  /** Main result: planning ends. However often a run is reserved, repaired, committed,
      retried or cancelled, it changes at most three times per call of its budget. */
  lemma {:induction false} PlanningEnds(trace: seq<System>, ops: seq<Op>, rid: Id, lo: nat, hi: nat)
    requires Behaviour(trace, ops) && lo <= hi < |trace| && rid in trace[lo].db.runs
    ensures rid in trace[hi].db.runs
    ensures trace[hi].db.runs[rid].calls <= trace[hi].db.runs[rid].maxCalls
    ensures Fuel(trace[hi].db.runs[rid]) + Changes(trace, rid, lo, hi)
         <= 3 * (trace[lo].db.runs[rid].request.maxSteps + 1) + 1
    ensures trace[hi].db.runs[rid].request == trace[lo].db.runs[rid].request
    decreases hi - lo
  {
    hide Behaviour, Inv, Evolves, RunOk;
    AlwaysEvolves(trace, ops, lo, hi);
    OneRunEvolves(trace[lo].db, trace[hi].db, rid);
    RunBudget(trace[hi].db.tasks, rid, trace[hi].db.runs[rid]);
    if lo < hi {
      PlanningEnds(trace, ops, rid, lo, hi - 1);
      AlwaysEvolves(trace, ops, hi - 1, hi);
      OneRunEvolves(trace[hi - 1].db, trace[hi].db, rid);
    }
  }

  lemma RunBudget(tasks: map<Id, Task>, rid: Id, run: Run)
    requires RunOk(tasks, rid, run)
    ensures run.calls <= run.maxCalls == run.request.maxSteps + 1
    ensures Fuel(run) <= 3 * (run.request.maxSteps + 1) + 1
  {
  }
}
