/** Where what happens comes from: the human decision behind every approved dispatch, and
    the planner's decision behind every reply. */
module Provenance {
  import opened Basics
  import opened Authorization
  import opened Tasks
  import opened Store
  import opened EngineSpec
  import opened EngineProofs
  import opened AgentLoopSpec
  import opened AgentLoopProofs
  import opened ConversationSpec
  import opened ConversationProofs
  import opened OrderCapture
  import opened Protocol
  import opened Runs
  import opened TurnRuns
  import opened Handoffs

  // ------------------------------------------------------------------- approvals

  /** The step carries somebody's yes, used or not. */
  predicate SaidYes(s: Step, actor: string) {
    && s.approval.Some? && (s.approval.value.status.Approved? || s.approval.value.status.Consumed?)
    && s.approval.value.actor == actor
  }

  /** A change to one step that says yes for nobody. */
  ghost predicate NoNewYesInStep(s: Step, s': Step) {
    forall actor :: SaidYes(s', actor) ==> SaidYes(s, actor)
  }

  ghost predicate NoNewYesInTask(t: Task, t': Task) {
    |t'.steps| == |t.steps| && forall i :: 0 <= i < |t.steps| ==> NoNewYesInStep(t.steps[i], t'.steps[i])
  }

  /** No step gained a yes, and new tasks come without one. */
  ghost predicate NoNewYes(tasks: map<Id, Task>, tasks': map<Id, Task>) {
    && tasks.Keys <= tasks'.Keys
    && (forall t :: t in tasks ==> NoNewYesInTask(tasks[t], tasks'[t]))
    && (forall t, i, actor :: t in tasks' && t !in tasks && 0 <= i < |tasks'[t].steps| ==>
          !SaidYes(tasks'[t].steps[i], actor))
  }

  lemma NoNewYesTransitive(a: map<Id, Task>, b: map<Id, Task>, c: map<Id, Task>)
    requires NoNewYes(a, b) && NoNewYes(b, c)
    ensures NoNewYes(a, c)
  {
    hide SaidYes;
    forall t | t in a ensures NoNewYesInTask(a[t], c[t]) {
      assert NoNewYesInTask(a[t], b[t]) && NoNewYesInTask(b[t], c[t]);
      forall i | 0 <= i < |a[t].steps| ensures NoNewYesInStep(a[t].steps[i], c[t].steps[i]) {
        assert NoNewYesInStep(a[t].steps[i], b[t].steps[i]) && NoNewYesInStep(b[t].steps[i], c[t].steps[i]);
      }
    }
    forall t, i, actor | t in c && t !in a && 0 <= i < |c[t].steps| ensures !SaidYes(c[t].steps[i], actor) {
      if t in b {
        assert NoNewYesInTask(b[t], c[t]);
        assert NoNewYesInStep(b[t].steps[i], c[t].steps[i]);
      }
    }
  }

  lemma SameTasksNoYes(tasks: map<Id, Task>)
    ensures NoNewYes(tasks, tasks)
  {
  }

  lemma OneTaskNoYes(tasks: map<Id, Task>, tid: Id, t: Task)
    requires tid in tasks && NoNewYesInTask(tasks[tid], t)
    ensures NoNewYes(tasks, tasks[tid := t])
  {
  }

  lemma EachTaskNoYes(tasks: map<Id, Task>, tasks': map<Id, Task>)
    requires tasks'.Keys == tasks.Keys && forall t :: t in tasks ==> NoNewYesInTask(tasks[t], tasks'[t])
    ensures NoNewYes(tasks, tasks')
  {
  }

  lemma OneStepNoYes(t: Task, pos: nat, s: Step)
    requires pos < |t.steps| && NoNewYesInStep(t.steps[pos], s)
    ensures NoNewYesInTask(t, WithStep(t, pos, s))
  {
    hide SaidYes;
  }

  lemma StepwiseNoYes(t: Task, now: Time, device: string, actor: string, reason: string)
    ensures NoNewYesInTask(t, ExpireTask(t, now)) && NoNewYesInTask(t, FreezeTask(t))
    ensures NoNewYesInTask(t, CancelTask(t)) && NoNewYesInTask(t, UnbindDevice(t, device, actor))
    ensures NoNewYesInTask(t, StopTask(t, reason, actor))
  {
    forall i | 0 <= i < |t.steps|
      ensures NoNewYesInStep(t.steps[i], ExpireStep(t.steps[i], now))
      ensures NoNewYesInStep(t.steps[i], FreezeStep(t.steps[i]))
      ensures NoNewYesInStep(t.steps[i], CancelStep(t.steps[i]))
      ensures NoNewYesInStep(t.steps[i], UnbindStep(t.steps[i], device, actor))
      ensures NoNewYesInStep(t.steps[i], StopStep(t.steps[i], Open(t.status), reason, actor))
    {
    }
  }

  /** A plan submitted by anything but an operator's reply carries no yes. */
  lemma SubmitNoYes(
    db: Db, env: Env, channel: string, key: Key, agent: string, plan: seq<Call>, actor: string, now: Time)
    requires IdsOk(db)
    ensures NoNewYes(db.tasks, Submit(db, env, channel, key, agent, plan, actor, now).db.tasks)
  {
    hide Validate, PendingTasks, Identity, DestinationAllowed, OriginOf, Refresh, KeyTaken;
    SameTasksNoYes(db.tasks);
  }

  lemma {:induction false} TryInOrderNoYes(
    db: Db, env: Env, device: string, worker: string, now: Time, lease: Time, order: seq<Id>)
    requires Candidates(db, device, order)
    ensures NoNewYes(db.tasks, TryInOrder(db, env, device, worker, now, lease, order).0.tasks)
    decreases |order|
  {
    hide Judge, Refresh, NoNewYes;
    if order == [] {
      SameTasksNoYes(db.tasks);
    } else {
      var db' := Attempt(db, env, order[0], worker, now, lease);
      assert Candidate(db.tasks[order[0]], device);
      AttemptNoYes(db, env, order[0], worker, now, lease);
      RestStayCandidates(db, env, device, worker, now, lease, order);
      if !Judge(db, env, order[0], now).Dispatch? {
        TryInOrderNoYes(db', env, device, worker, now, lease, order[1..]);
        NoNewYesTransitive(db.tasks, db'.tasks, TryInOrder(db', env, device, worker, now, lease, order[1..]).0.tasks);
      }
    }
  }

  /** Dispatch only uses up a yes that is there. */
  lemma AttemptNoYes(db: Db, env: Env, tid: Id, worker: string, now: Time, lease: Time)
    requires tid in db.tasks && Head(db.tasks[tid].steps) < |db.tasks[tid].steps|
    ensures NoNewYes(db.tasks, Attempt(db, env, tid, worker, now, lease).tasks)
  {
    hide Validate, TaskOrigin, ParentAllows, NoNewYes, WithStep, NoNewYesInTask;
    var t := db.tasks[tid];
    var s' := Settle(t.steps[Head(t.steps)], Judge(db, env, tid, now), db.next, worker, lease);
    OneStepNoYes(t, Head(t.steps), s');
    OneTaskNoYes(db.tasks, tid, WithStep(t, Head(t.steps), s'));
  }

  lemma ClaimNoYes(db: Db, env: Env, worker: string, device: string, now: Time, leaseSeconds: int, order: seq<Id>)
    requires ClaimGate(db, env, worker, device, now, leaseSeconds).None? ==>
               ClaimOrder(Expire(db, now), device, order)
    ensures NoNewYes(db.tasks, EngineSpec.Claim(db, env, worker, device, now, leaseSeconds, order).db.tasks)
  {
    hide NoNewYes, NoNewYesInTask, TryInOrder, ExpireTask, Candidates;
    SameTasksNoYes(db.tasks);
    forall t | t in db.tasks ensures NoNewYesInTask(db.tasks[t], ExpireTask(db.tasks[t], now)) {
      StepwiseNoYes(db.tasks[t], now, "", "", "");
    }
    EachTaskNoYes(db.tasks, Expire(db, now).tasks);
    if ClaimGate(db, env, worker, device, now, leaseSeconds).None? {
      TryInOrderNoYes(Expire(db, now), env, device, worker, now, now + leaseSeconds as real, order);
      NoNewYesTransitive(db.tasks, Expire(db, now).tasks,
        TryInOrder(Expire(db, now), env, device, worker, now, now + leaseSeconds as real, order).0.tasks);
    }
  }

  lemma FinishNoYes(db: Db, tid: Id, pos: nat, token: Id, result: string, report: Report, error: string, now: Time)
    ensures NoNewYes(db.tasks, Finish(db, tid, pos, token, result, report, error, now).db.tasks)
  {
    hide NoNewYes, NoNewYesInTask, WithStep;
    SameTasksNoYes(db.tasks);
    if Holds(db, tid, pos, token, now) {
      var t := db.tasks[tid];
      var s := t.steps[pos].(status := ReportStatus(report), result := result,
                             error := Cut(error, MAX_ERROR_CHARS), claim := NO_ID, lease := 0.0);
      OneStepNoYes(t, pos, s);
      OneTaskNoYes(db.tasks, tid, WithStep(t, pos, s));
    }
  }

  lemma ReconcileNoYes(
    db: Db, env: Env, tid: Id, pos: nat, actor: string, role: string, succeeded: bool, evidence: string)
    ensures NoNewYes(db.tasks, Reconcile(db, env, tid, pos, actor, role, succeeded, evidence).db.tasks)
  {
    hide NoNewYes, NoNewYesInTask, WithStep;
    SameTasksNoYes(db.tasks);
    if tid in db.tasks && pos < |db.tasks[tid].steps| {
      var t := db.tasks[tid];
      var s := t.steps[pos].(status := if succeeded then Succeeded else Failed, error := "operator_reconciled");
      OneStepNoYes(t, pos, s);
      OneTaskNoYes(db.tasks, tid, WithStep(t, pos, s));
    }
  }

  lemma StopNoYes(db: Db, rid: Id, status: RunStatus, reason: string, actor: string)
    requires rid in db.runs
    ensures NoNewYes(db.tasks, Stop(db, rid, status, reason, actor).tasks)
  {
    hide NoNewYes, NoNewYesInTask, StopTask, LinksTask, Ended, SaidYes, StopOutcome;
    SameTasksNoYes(db.tasks);
    var tid := db.runs[rid].currentTask;
    if tid in db.tasks {
      StepwiseNoYes(db.tasks[tid], 0.0, "", actor, reason);
      OneTaskNoYes(db.tasks, tid, StopTask(db.tasks[tid], reason, actor));
    }
  }

  /** A human said yes to this step: to its approval, or by writing the reply it sends. */
  ghost predicate SaysYes(db: Db, op: Op, t: Id, pos: nat, actor: string) {
    && op.Engine?
    && match op.e
       case DecideApproval(env, tid, p, a, approved, role, now) =>
         && tid == t && p == pos && a == actor && approved
         && EngineSpec.Approve(db, env, tid, p, a, approved, role, now).out.Ok?
       case OperatorSends(env, channel, chat, text, a, role, replyKey, agent, now) =>
         a == actor && ReplyAsOperator(db, env, channel, chat, text, a, role, replyKey, agent, now).out == Ok(t)
       case _ => false
  }

  /** After the operation, whoever has said yes had done so before, or does so now. */
  ghost predicate YesFrom(db: Db, op: Op, db': Db) {
    forall t, i, actor :: t in db'.tasks && 0 <= i < |db'.tasks[t].steps| && SaidYes(db'.tasks[t].steps[i], actor) ==>
      (StepExists(db, t, i) && SaidYes(StepAt(db, t, i), actor)) || SaysYes(db, op, t, i, actor)
  }

  lemma NoYesMeans(db: Db, op: Op, db': Db)
    requires NoNewYes(db.tasks, db'.tasks)
    ensures YesFrom(db, op, db')
  {
    hide SaidYes, SaysYes;
    forall t, i, actor | t in db'.tasks && 0 <= i < |db'.tasks[t].steps| && SaidYes(db'.tasks[t].steps[i], actor)
      ensures StepExists(db, t, i) && SaidYes(StepAt(db, t, i), actor)
    {
      assert t in db.tasks;
      assert NoNewYesInTask(db.tasks[t], db'.tasks[t]);
      assert NoNewYesInStep(db.tasks[t].steps[i], db'.tasks[t].steps[i]);
    }
  }

  /** An approval changes one step, in the name of the one who decided; a rejection is no yes. */
  lemma ApproveShape(
    db: Db, env: Env, tid: Id, pos: nat, actor: string, approved: bool, role: string, now: Time)
    ensures var tx := EngineSpec.Approve(db, env, tid, pos, actor, approved, role, now);
            if tx.out.Err? then tx.db == db
            else
              && StepExists(db, tid, pos)
              && tx.db.tasks.Keys == db.tasks.Keys
              && (forall t :: t in db.tasks && t != tid ==> tx.db.tasks[t] == db.tasks[t])
              && |tx.db.tasks[tid].steps| == |db.tasks[tid].steps|
              && (forall i :: 0 <= i < |db.tasks[tid].steps| && i != pos ==>
                    tx.db.tasks[tid].steps[i] == db.tasks[tid].steps[i])
              && (forall a :: SaidYes(tx.db.tasks[tid].steps[pos], a) ==> approved && a == actor)
  {
    hide Refresh, ParentAllows, Active, ApproverRoles;
  }

  lemma ApproveYes(db: Db, e: EngineOp)
    requires e.DecideApproval?
    ensures YesFrom(db, Engine(e), EngineStep(db, e).0)
  {
    hide EngineSpec.Approve, SaidYes;
    ApproveShape(db, e.env, e.tid, e.pos, e.actor, e.approved, e.role, e.now);
  }

  /** A reply a human wrote adds at most one task, and no yes but the author's. */
  lemma OperatorShape(
    db: Db, env: Env, channel: string, conversation: string, text: string,
    actor: string, role: string, key: string, agent: string, now: Time)
    requires IdsOk(db)
    ensures var tx := ReplyAsOperator(db, env, channel, conversation, text, actor, role, key, agent, now);
            || tx.db == db
            || (tx.out == Ok(db.next) && db.next !in db.tasks
                && tx.db.tasks == db.tasks[db.next := tx.db.tasks[db.next]] && db.next in tx.db.tasks
                && forall i, a :: 0 <= i < |tx.db.tasks[db.next].steps| && SaidYes(tx.db.tasks[db.next].steps[i], a) ==>
                     a == actor)
  {
    hide Refresh, Validate, OperatorOriginOf, Identity, Blank, KeyTaken, PendingTasks, Active, ApproverRoles;
  }

  lemma OperatorYes(db: Db, e: EngineOp)
    requires e.OperatorSends? && IdsOk(db)
    ensures YesFrom(db, Engine(e), EngineStep(db, e).0)
  {
    hide ReplyAsOperator, SaidYes;
    OperatorShape(db, e.env, e.channel, e.chat, e.text, e.actor, e.role, e.replyKey, e.agent, e.now);
  }

  lemma EngineYes(db: Db, e: EngineOp)
    requires Inv(db) && EngineEnabled(db, e)
    ensures YesFrom(db, Engine(e), EngineStep(db, e).0)
  {
    hide Inv, YesFrom, NoNewYes, NoNewYesInTask, Submit, ReplyAsOperator, Approve, EngineSpec.Claim, Finish, Reconcile,
         UnbindDevice, FreezeTask, CancelTask;
    var db' := EngineStep(db, e).0;
    SameTasksNoYes(db.tasks);
    assert IdsOk(db) by { GoodIds(db); }
    match e
    case SubmitTask(env, channel, key, agent, plan, actor, now) =>
      SubmitNoYes(db, env, channel, key, agent, plan, actor, now);
      NoYesMeans(db, Engine(e), db');
    case OperatorSends(_, _, _, _, _, _, _, _, _) => OperatorYes(db, e);
    case DecideApproval(_, _, _, _, _, _, _) => ApproveYes(db, e);
    case ClaimStep(env, worker, device, now, leaseSeconds, order) =>
      ClaimNoYes(db, env, worker, device, now, leaseSeconds, order);
      NoYesMeans(db, Engine(e), db');
    case FinishStep(tid, pos, token, result, report, error, now) =>
      FinishNoYes(db, tid, pos, token, result, report, error, now);
      NoYesMeans(db, Engine(e), db');
    case CancelWork(env, tid, actor) =>
      CancelNoYes(db, env, tid, actor);
      NoYesMeans(db, Engine(e), db');
    case ReconcileStep(env, tid, pos, actor, role, succeeded, evidence) =>
      ReconcileNoYes(db, env, tid, pos, actor, role, succeeded, evidence);
      NoYesMeans(db, Engine(e), db');
    case FreezeTenant(env, stopped, actor) =>
      FreezeNoYes(db, env, stopped, actor);
      NoYesMeans(db, Engine(e), db');
    case SetDevice(env, device, revoked, actor) =>
      EnrollNoYes(db, env, device, revoked, actor);
      NoYesMeans(db, Engine(e), db');
    case _ =>
      EventsLeaveTasks(db, e);
      NoYesMeans(db, Engine(e), db');
  }

  lemma EventsLeaveTasks(db: Db, e: EngineOp)
    requires Inv(db) && EngineEnabled(db, e)
    requires e.ReceiveEvent? || e.LeaseEvent? || e.CloseEvent? || e.RepeatEvent?
    ensures EngineStep(db, e).0.tasks == db.tasks
  {
    hide Inv, Evolves, AcceptEvent, ClaimEvent, SettleEvent, RetryEvent;
    match e
    case ReceiveEvent(env, channel, event, payload, overQuota) =>
      AcceptEventKeeps(db, env, channel, event, payload, overQuota);
    case LeaseEvent(k, now) => ClaimEventKeeps(db, k, now);
    case CloseEvent(k, token, outcome, failure) => SettleEventKeeps(db, k, token, outcome, failure);
    case RepeatEvent(env, k, actor) => RetryEventKeeps(db, env, k, actor);
  }

  lemma GoodIds(db: Db)
    requires Inv(db)
    ensures IdsOk(db)
  {
  }

  lemma CancelNoYes(db: Db, env: Env, tid: Id, actor: string)
    ensures NoNewYes(db.tasks, Cancel(db, env, tid, actor).db.tasks)
  {
    hide NoNewYes, NoNewYesInTask, CancelTask;
    SameTasksNoYes(db.tasks);
    if tid in db.tasks {
      StepwiseNoYes(db.tasks[tid], 0.0, "", "", "");
      OneTaskNoYes(db.tasks, tid, CancelTask(db.tasks[tid]));
    }
  }

  lemma FreezeNoYes(db: Db, env: Env, stopped: bool, actor: string)
    ensures NoNewYes(db.tasks, Freeze(db, env, stopped, actor).db.tasks)
  {
    hide NoNewYes, NoNewYesInTask, FreezeTask;
    SameTasksNoYes(db.tasks);
    forall t | t in db.tasks ensures NoNewYesInTask(db.tasks[t], FreezeTask(db.tasks[t])) {
      StepwiseNoYes(db.tasks[t], 0.0, "", "", "");
    }
    EachTaskNoYes(db.tasks, map t | t in db.tasks :: FreezeTask(db.tasks[t]));
  }

  lemma EnrollNoYes(db: Db, env: Env, device: string, revoked: bool, actor: string)
    ensures NoNewYes(db.tasks, EnrollDevice(db, env, device, revoked, actor).db.tasks)
  {
    hide NoNewYes, NoNewYesInTask, UnbindDevice;
    SameTasksNoYes(db.tasks);
    forall t | t in db.tasks ensures NoNewYesInTask(db.tasks[t], UnbindDevice(db.tasks[t], device, actor)) {
      StepwiseNoYes(db.tasks[t], 0.0, device, actor, "");
    }
    EachTaskNoYes(db.tasks, map t | t in db.tasks :: UnbindDevice(db.tasks[t], device, actor));
  }

  lemma LoopYes(db: Db, op: LoopOp)
    requires Inv(db)
    ensures NoNewYes(db.tasks, LoopStep(db, op).tasks)
  {
    hide Inv, NoNewYes, Stop, Decide, Observable, Obstacle, NotDue, Active, ActiveRuns, RequestOk, RunKeyTaken;
    SameTasksNoYes(db.tasks);
    match op
    case CreateRun(env, key, request, now) =>
    case AbandonRun(env, rid, actor) =>
      if rid in db.runs { StopNoYes(db, rid, RunCancelled, "operator_cancelled", actor); }
    case ReserveRun(env, rid, now, fits) =>
      if rid in db.runs && ActiveRun(db.runs[rid].status) {
        var obstacle := Obstacle(db, env, db.runs[rid], now, fits);
        if obstacle.Some? { StopNoYes(db, rid, obstacle.value.0, obstacle.value.1, LOOP_ACTOR); }
      }
    case CommitRun(env, rid, claim, decision, repair, now, fits) =>
      if rid in db.runs { CommitNoYes(db, env, rid, claim, decision, repair, now, fits); }
  }

  lemma CommitNoYes(
    db: Db, env: Env, rid: Id, claim: Id, decision: Option<Decision>, repair: bool, now: Time, fits: bool)
    requires Inv(db) && rid in db.runs
    ensures NoNewYes(db.tasks, Commit(db, env, rid, claim, decision, repair, now, fits).db.tasks)
  {
    hide Inv, NoNewYes, Stop, Decide, Observable, Active, Repairable;
    SameTasksNoYes(db.tasks);
    StopNoYes(db, rid, Escalated, "planner_result_arrived_after_deadline", LOOP_ACTOR);
    StopNoYes(db, rid, Escalated, "authority_or_freeze_changed_during_planning", LOOP_ACTOR);
    StopNoYes(db, rid, Escalated, "planner_failed_no_retry", LOOP_ACTOR);
    StopNoYes(db, rid, Escalated, "planner_decision_rejected", LOOP_ACTOR);
    if decision.Some? { DecideNoYes(db, env, rid, decision.value, now); }
  }

  lemma DecideNoYes(db: Db, env: Env, rid: Id, d: Decision, now: Time)
    requires Inv(db) && rid in db.runs
    ensures var r := Decide(db, env, rid, d, now); r.Ok? ==> NoNewYes(db.tasks, r.value.tasks)
  {
    hide Inv, NoNewYes, Submit, CheckDecision;
    SameTasksNoYes(db.tasks);
    GoodIds(db);
    if d.UseTool? {
      SubmitNoYes(db, env, db.runs[rid].request.channel, RunStep(rid, db.runs[rid].steps),
                  db.runs[rid].request.agent, [Call(d.tool, d.args, "")], db.runs[rid].request.actor, now);
    }
  }

  lemma TurnYes(s: System, op: TurnOp)
    requires Inv(s.db) && TurnEnabled(s, op)
    ensures NoNewYes(s.db.tasks, TurnStep(s, op).db.tasks)
  {
    hide Inv, NoNewYes, WriteHeld, LeaveToOperator, Submit, Readable, AfterSubmit, RecordTurn, Announceable, NotBefore,
         Appended, SettleAndOrder;
    SameTasksNoYes(s.db.tasks);
    GoodIds(s.db);
    match op
    case RecordInbound(env, channel, event, agent, payload, now) =>
      RecordKeepsTasks(s.db, env, channel, event, agent, payload, now);
    case Write(h, now) => WriteHeldKeepsTasks(s.db, h, now);
    case WriteLeave(i) => LeaveKeepsTasks(s.db, i);
    case WriteSettle(env, i, reply, reason, orders, now) => SettleNoYes(s.db, env, i, reply, reason, orders, now);
    case Deliver(env, i, now) =>
      var turn := s.db.turns[i];
      SubmitNoYes(s.db, env, turn.channel, External(turn.event), turn.agent,
                  [ReplyCall(turn.channel, turn.conversation, turn.reply)], turn.sender, now);
    case _ =>
  }

  /** An order is submitted with nobody's approval. */
  lemma SettleNoYes(db: Db, env: Env, i: nat, reply: string, reason: string, orders: Orders, now: Time)
    requires Inv(db) && i < |db.turns|
    ensures NoNewYes(db.tasks, SettleAndOrder(db, env, i, reply, reason, orders, now).tasks)
  {
    hide Inv, NoNewYes, SettleTurn, HandOff, Submit, OrderDraft, PendingOrders, KeyTaken, HandoffStep;
    SameTasksNoYes(db.tasks);
    GoodIds(db);
    SettleTouchesTurns(db, i, reply, reason);
    var turn, mid := db.turns[i], SettleTurn(db, i, reply, reason);
    var draft := OrderDraft(mid, turn, orders);
    HandOffRecords(CaptureOrder(mid, env, turn, orders, now).db, turn, "order_pending");
    HandOffRecords(CaptureOrder(mid, env, turn, orders, now).db, turn, "order_rejected");
    if draft.Some? {
      SubmitNoYes(mid, env, turn.channel, OrderKey(turn.event, orders), orders.agent,
                  [Call(ORDER_WRITE_TOOL, draft.value, "")], turn.sender, now);
    }
  }

  lemma SettleKeepsRuns(db: Db, env: Env, i: nat, reply: string, reason: string, orders: Orders, now: Time)
    requires i < |db.turns|
    ensures SettleAndOrder(db, env, i, reply, reason, orders, now).runs == db.runs
  {
    hide SettleTurn, HandOff, CaptureOrder, HandoffStep;
    SettleTouchesTurns(db, i, reply, reason);
    var turn, mid := db.turns[i], SettleTurn(db, i, reply, reason);
    CaptureFrame(mid, env, turn, orders, now);
    var captured := CaptureOrder(mid, env, turn, orders, now);
    if captured.refused.Some? {
      HandOffRecords(captured.db, turn, captured.refused.value);
    }
  }

  lemma LeaveKeepsTasks(db: Db, i: nat)
    requires i < |db.turns|
    ensures LeaveToOperator(db, i).tasks == db.tasks && LeaveToOperator(db, i).runs == db.runs
  {
  }

  lemma PerformYes(s: System, op: Op)
    requires Inv(s.db) && Enabled(s, op)
    ensures YesFrom(s.db, op, Perform(s, op).db)
  {
    hide Inv, YesFrom, NoNewYes, EngineStep, LoopStep, TurnStep, EngineEnabled, TurnEnabled;
    match op
    case Engine(e) => EngineYes(s.db, e);
    case Loop(l) =>
      LoopYes(s.db, l);
      NoYesMeans(s.db, op, Perform(s, op).db);
    case Turns(t) =>
      TurnYes(s, t);
      NoYesMeans(s.db, op, Perform(s, op).db);
  }

  /** Every yes in the store was said by its actor, at some moment of the run. */
  lemma {:induction false} YesWasSaid(trace: seq<System>, ops: seq<Op>, k: nat, t: Id, pos: nat, actor: string)
    requires Behaviour(trace, ops) && k < |trace|
    requires StepExists(trace[k].db, t, pos) && SaidYes(StepAt(trace[k].db, t, pos), actor)
    ensures exists j :: 0 <= j < k && SaysYes(trace[j].db, ops[j], t, pos, actor)
  {
    hide Inv, SaidYes, SaysYes, HeldOk, ClaimsOk, Enabled, Perform;
    if k > 0 {
      AlwaysInv(trace, ops, k - 1);
      assert Next(trace[k - 1], ops[k - 1], trace[k]);
      PerformYes(trace[k - 1], ops[k - 1]);
      if !SaysYes(trace[k - 1].db, ops[k - 1], t, pos, actor) {
        YesWasSaid(trace, ops, k - 1, t, pos, actor);
      }
    }
  }

  /** The actor had what it takes to say yes: the authority of an approver, the owner's role
      where the policy asks for it, and, where it asks for an independent approver, not being
      the task's own author. */
  ghost predicate HadAuthority(db: Db, op: Op, t: Id, actor: string) {
    && op.Engine?
    && (op.e.DecideApproval? ==>
          && t in db.tasks && db.tasks[t].agent in op.e.env.policies && !db.frozen
          && var rules := op.e.env.policies[db.tasks[t].agent].rules;
             && op.e.env.authority("approval", actor, ApproverRoles(rules))
             && (rules.independentApproval ==> actor != db.tasks[t].actor)
             && (rules.approverRole == "owner" ==> op.e.role in {"owner", "super-admin"}))
    && (op.e.OperatorSends? ==>
          && op.e.agent in op.e.env.policies
          && op.e.env.authority("approval", actor, ApproverRoles(op.e.env.policies[op.e.agent].rules)))
  }

  lemma YesTakesAuthority(db: Db, op: Op, t: Id, pos: nat, actor: string)
    requires SaysYes(db, op, t, pos, actor)
    ensures HadAuthority(db, op, t, actor)
  {
    hide Validate, OperatorOriginOf, CreateTask, ParentAllows;
  }

  /** Main result: no step that needs approval is ever handed to a worker unless, earlier in
      the run, a human with an approver's authority said yes to exactly that step; and that
      human still holds an approver's authority when it is handed out. */
  lemma NoDispatchWithoutYes(trace: seq<System>, ops: seq<Op>, k: nat, c: Claimed)
    requires Behaviour(trace, ops) && HandsOut(trace, ops, k, c)
    requires StepExists(trace[k].db, c.task, c.pos) && StepAt(trace[k].db, c.task, c.pos).needed
    ensures exists actor, j ::
              && 0 <= j < k && SaysYes(trace[j].db, ops[j], c.task, c.pos, actor)
              && HadAuthority(trace[j].db, ops[j], c.task, actor)
              && StillApprover(trace[k].db, ops[k], c, actor)
  {
    hide Behaviour, Inv, Dispatched, SaysYes, HadAuthority, DispatchFacts, StillApprover;
    DispatchMoment(trace, ops, k, c);
    var actor := DispatchedApprover(trace[k].db, ops[k], c);
    YesWasSaid(trace, ops, k, c.task, c.pos, actor);
    var j :| 0 <= j < k && SaysYes(trace[j].db, ops[j], c.task, c.pos, actor);
    YesTakesAuthority(trace[j].db, ops[j], c.task, c.pos, actor);
  }

  /** The operation hands out the step while this actor may still approve it. */
  ghost predicate StillApprover(db: Db, op: Op, c: Claimed, actor: string) {
    && op.Engine? && op.e.ClaimStep? && c.task in db.tasks && db.tasks[c.task].agent in op.e.env.policies
    && op.e.env.authority("approval", actor, ApproverRoles(op.e.env.policies[db.tasks[c.task].agent].rules))
  }

  lemma DispatchedApprover(db: Db, op: Op, c: Claimed) returns (actor: string)
    requires op.Engine? && DispatchFacts(db, op.e, c) && StepAt(db, c.task, c.pos).needed
    ensures SaidYes(StepAt(db, c.task, c.pos), actor) && StillApprover(db, op, c, actor)
  {
    hide ParentAllows, DestinationNow;
    actor := StepAt(db, c.task, c.pos).approval.value.actor;
  }

  /** Main result: a dispatched step passes every gate again at that moment, and is marked as
      needing approval exactly when the rules, the risk and the origin of that moment say so. */
  lemma DispatchPassesGates(trace: seq<System>, ops: seq<Op>, k: nat, c: Claimed)
    requires Behaviour(trace, ops) && HandsOut(trace, ops, k, c)
    ensures ops[k].e.ClaimStep? && StepExists(trace[k].db, c.task, c.pos)
    ensures var db, env, t := trace[k].db, ops[k].e.env, trace[k].db.tasks[c.task];
            && TaskOrigin(db.events, t, t.steps[c.pos].call).Ok?
            && GatesNow(env, t, t.steps[c.pos], TaskOrigin(db.events, t, t.steps[c.pos].call).value)
  {
    hide Behaviour, Inv, Evolves, Dispatched, GatesNow, DestinationNow, ParentAllows, Validate, TaskOrigin, StepEvolves,
         TaskEvolves, TaskOk, StepOk;
    DispatchMoment(trace, ops, k, c);
    AlwaysEvolves(trace, ops, k, k);
    StepsEvolve(trace[k].db, trace[k].db, c.task, c.pos);
    RevalidationMeans(trace[k].db, ops[k].e.env, trace[k].db.tasks[c.task], StepAt(trace[k].db, c.task, c.pos));
  }

  /** What lets a write go out with nobody asked: an autonomous agent's plain send, not listed
      for approval, to a recipient allowlisted now or to its verified event's conversation. */
  ghost predicate Unattended(db: Db, env: Env, t: Task, s: Step) {
    && t.agent in env.policies
    && var rules := env.policies[t.agent].rules;
    && rules.ladder == Autonomous && s.call.tool !in rules.approval && t.channel != OPERATOR_CHANNEL
    && s.call.tool in env.registry && !Unattendable(env.registry[s.call.tool].risk)
    && Outbound(s.call.tool)
    && (Allowlisted(rules, Recipient(s.call))
        || (AnswersEvent(db.events, t) && s.call.tool == SendTool(t.channel)
            && Recipient(s.call) == db.events[(t.channel, t.key.text)].payload.conversation))
  }

  lemma UnneededIsUnattended(db: Db, env: Env, t: Task, s: Step)
    requires TaskOrigin(db.events, t, s.call).Ok?
    requires GatesNow(env, t, s, TaskOrigin(db.events, t, s.call).value)
    requires !s.needed && env.registry[s.call.tool].risk != Risk.Read
    ensures Unattended(db, env, t, s)
  {
    hide KnownConversation;
  }

  /** Main result: whatever is dispatched and is not a mere read was either said yes to,
      earlier in the run, by a human who may still approve it, or needs nobody's yes by the
      rules in force: an autonomous agent's send to a destination authorised now. */
  lemma EveryWriteIsAuthorized(trace: seq<System>, ops: seq<Op>, k: nat, c: Claimed)
    requires Behaviour(trace, ops) && HandsOut(trace, ops, k, c)
    ensures ops[k].e.ClaimStep? && StepExists(trace[k].db, c.task, c.pos)
    ensures var env, s := ops[k].e.env, StepAt(trace[k].db, c.task, c.pos);
            && s.call.tool in env.registry
            && (env.registry[s.call.tool].risk != Risk.Read ==>
                  || Unattended(trace[k].db, env, trace[k].db.tasks[c.task], s)
                  || exists actor, j ::
                       && 0 <= j < k && SaysYes(trace[j].db, ops[j], c.task, c.pos, actor)
                       && HadAuthority(trace[j].db, ops[j], c.task, actor)
                       && StillApprover(trace[k].db, ops[k], c, actor))
  {
    hide Behaviour, SaysYes, HadAuthority, StillApprover, Unattended, TaskOrigin, NeedsApproval;
    DispatchPassesGates(trace, ops, k, c);
    var env, s := ops[k].e.env, StepAt(trace[k].db, c.task, c.pos);
    if s.needed {
      NoDispatchWithoutYes(trace, ops, k, c);
    } else if env.registry[s.call.tool].risk != Risk.Read {
      UnneededIsUnattended(trace[k].db, env, trace[k].db.tasks[c.task], s);
    }
  }

  // ---------------------------------------------------------------------- answers

  predicate Concluded(run: Run) { run.status.RunSucceeded? || run.status.NeedsInput? }

  /** The planner's decision that concluded this run: an answer with its evidence, or a
      question. */
  ghost predicate Concludes(op: Op, rid: Id, run: Run) {
    && op.Loop? && op.l.CommitRun? && op.l.rid == rid && op.l.decision.Some?
    && (run.status.RunSucceeded? ==> op.l.decision.value == Answer(run.answer, run.evidence))
    && (run.status.NeedsInput? ==> op.l.decision.value == Ask(run.answer))
  }

  /** Every concluded run was concluded before, exactly so, or is concluded by this operation. */
  ghost predicate ConcludedFrom(db: Db, op: Op, db': Db) {
    forall r :: r in db'.runs && Concluded(db'.runs[r]) ==>
      (r in db.runs && db.runs[r] == db'.runs[r]) || Concludes(op, r, db'.runs[r])
  }

  lemma StopConcludesNothing(db: Db, rid: Id, status: RunStatus, reason: string, actor: string, op: Op)
    requires rid in db.runs && Abandoned(status)
    ensures ConcludedFrom(db, op, Stop(db, rid, status, reason, actor))
  {
    hide StopTasks, Ended, StopTask, CurrentLinked;
    var end := StopOutcome(db, rid, status, reason, actor);
    EndedIsNotConcluded(db.runs[rid], end.0, end.1);
  }

  lemma EndedIsNotConcluded(run: Run, status: RunStatus, reason: string)
    requires Abandoned(status)
    ensures !Concluded(Ended(run, status, reason))
  {
  }

  lemma LoopConcludes(db: Db, l: LoopOp)
    requires Inv(db)
    ensures ConcludedFrom(db, Loop(l), LoopStep(db, l))
  {
    hide Inv, Stop, Decide, Observable, NotDue, Active, ActiveRuns, RequestOk, RunKeyTaken, ConcludedFrom, CancelRun,
         Commit, Create, Reserve;
    match l
    case CreateRun(env, key, request, now) => CreateConcludesNothing(db, env, key, request, now, Loop(l));
    case AbandonRun(env, rid, actor) => CancelConcludesNothing(db, env, rid, actor, Loop(l));
    case ReserveRun(env, rid, now, fits) => ReserveConcludesNothing(db, env, rid, now, fits, Loop(l));
    case CommitRun(env, rid, claim, decision, repair, now, fits) =>
      CommitConcludes(db, env, rid, claim, decision, repair, now, fits);
  }

  lemma SameRunsConclude(db: Db, op: Op, db': Db)
    requires db'.runs == db.runs
    ensures ConcludedFrom(db, op, db')
  {
  }

  lemma CreateConcludesNothing(db: Db, env: Env, key: RunKey, q: Request, now: Time, op: Op)
    ensures ConcludedFrom(db, op, Create(db, env, key, q, now).db)
  {
    hide RequestOk, RunKeyTaken, ActiveRuns, Active, Concludes, FreshRun;
    FreshIsNotConcluded(key, q, now);
  }

  lemma FreshIsNotConcluded(key: RunKey, q: Request, now: Time)
    ensures !Concluded(FreshRun(key, q, now))
  {
  }

  lemma CancelConcludesNothing(db: Db, env: Env, rid: Id, actor: string, op: Op)
    ensures ConcludedFrom(db, op, CancelRun(db, env, rid, actor).db)
  {
    hide ConcludedFrom, Stop;
    SameRunsConclude(db, op, db);
    if rid in db.runs { StopConcludesNothing(db, rid, RunCancelled, "operator_cancelled", actor, op); }
  }

  lemma ReserveConcludesNothing(db: Db, env: Env, rid: Id, now: Time, fits: bool, op: Op)
    ensures ConcludedFrom(db, op, Reserve(db, env, rid, now, fits).db)
  {
    hide Stop, Observable, NotDue, Obstacle, ConcludedFrom;
    SameRunsConclude(db, op, db);
    if rid in db.runs && ActiveRun(db.runs[rid].status) {
      var run := db.runs[rid];
      AbandonedIfObstacle(db, env, run, now, fits);
      StillPlanning(db, rid, run.(status := Planning, claim := db.next, calls := run.calls + 1,
                                  lease := MinTime(run.deadline, now + PLANNER_LEASE_SECONDS)), op);
      SameRunsConcludeToo(db, op, Reserve(db, env, rid, now, fits).db);
      var obstacle := Obstacle(db, env, db.runs[rid], now, fits);
      if obstacle.Some? { StopConcludesNothing(db, rid, obstacle.value.0, obstacle.value.1, LOOP_ACTOR, op); }
    }
  }

  lemma AbandonedIfObstacle(db: Db, env: Env, run: Run, now: Time, fits: bool)
    requires ActiveRun(run.status)
    ensures var obstacle := Obstacle(db, env, run, now, fits); obstacle.Some? ==> Abandoned(obstacle.value.0)
  {
    hide Observable;
  }

  /** Only the runs matter. */
  lemma SameRunsConcludeToo(db: Db, op: Op, db': Db)
    ensures forall mid: Db :: mid.runs == db'.runs && ConcludedFrom(db, op, mid) ==> ConcludedFrom(db, op, db')
  {
  }

  lemma CommitConcludes(
    db: Db, env: Env, rid: Id, claim: Id, decision: Option<Decision>, repair: bool, now: Time, fits: bool)
    requires Inv(db)
    ensures ConcludedFrom(db, Loop(CommitRun(env, rid, claim, decision, repair, now, fits)),
                          Commit(db, env, rid, claim, decision, repair, now, fits).db)
  {
    hide Inv, Stop, Decide, Observable, Active, Repairable, ConcludedFrom;
    var op := Loop(CommitRun(env, rid, claim, decision, repair, now, fits));
    SameRunsConclude(db, op, db);
    if rid in db.runs {
      var run := db.runs[rid];
      StopConcludesNothing(db, rid, Escalated, "planner_result_arrived_after_deadline", LOOP_ACTOR, op);
      StopConcludesNothing(db, rid, Escalated, "authority_or_freeze_changed_during_planning", LOOP_ACTOR, op);
      StopConcludesNothing(db, rid, Escalated, "planner_failed_no_retry", LOOP_ACTOR, op);
      StopConcludesNothing(db, rid, Escalated, "planner_decision_rejected", LOOP_ACTOR, op);
      if run.status.Planning? {
        StillPlanning(db, rid, run.(calls := run.calls + 1,
                                    lease := MinTime(run.deadline, now + PLANNER_LEASE_SECONDS)), op);
      }
      if decision.Some? { DecideConcludes(db, env, rid, decision.value, now, op); }
    }
  }

  lemma StillPlanning(db: Db, rid: Id, run: Run, op: Op)
    requires rid in db.runs && run.status.Planning?
    ensures ConcludedFrom(db, op, db.(runs := db.runs[rid := run]))
  {
  }

  lemma DecideConcludes(db: Db, env: Env, rid: Id, d: Decision, now: Time, op: Op)
    requires Inv(db) && rid in db.runs
    requires op.Loop? && op.l.CommitRun? && op.l.rid == rid && op.l.decision == Some(d)
    ensures var r := Decide(db, env, rid, d, now); r.Ok? ==> ConcludedFrom(db, op, r.value)
  {
    hide Inv, CheckDecision, Submit, TasksGood, TasksEvolve, SameDispatches;
    if d.UseTool? {
      TasksOfInv(db);
      SubmitKeeps(db, env, db.runs[rid].request.channel, RunStep(rid, db.runs[rid].steps), db.runs[rid].request.agent,
                  [Call(d.tool, d.args, "")], db.runs[rid].request.actor, now);
    }
  }

  lemma TurnKeepsRuns(s: System, op: TurnOp)
    requires Inv(s.db) && TurnEnabled(s, op)
    ensures TurnStep(s, op).db.runs == s.db.runs
  {
    hide Inv, WriteHeld, LeaveToOperator, Submit, Readable, AfterSubmit, RecordTurn, Announceable, NotBefore, Appended,
         TasksGood, TasksEvolve, SameDispatches, SettleAndOrder;
    match op
    case RecordInbound(env, channel, event, agent, payload, now) =>
      RecordKeepsTasks(s.db, env, channel, event, agent, payload, now);
    case Write(h, now) => WriteHeldKeepsTasks(s.db, h, now);
    case WriteLeave(i) => LeaveKeepsTasks(s.db, i);
    case WriteSettle(env, i, reply, reason, orders, now) => SettleKeepsRuns(s.db, env, i, reply, reason, orders, now);
    case Deliver(env, i, now) =>
      var turn := s.db.turns[i];
      TasksOfInv(s.db);
      SubmitKeeps(s.db, env, turn.channel, External(turn.event), turn.agent,
                  [ReplyCall(turn.channel, turn.conversation, turn.reply)], turn.sender, now);
    case _ =>
  }

  lemma PerformConcludes(s: System, op: Op)
    requires Inv(s.db) && Enabled(s, op)
    ensures ConcludedFrom(s.db, op, Perform(s, op).db)
  {
    hide Inv, ConcludedFrom, EngineStep, LoopStep, TurnStep, EngineEnabled, TurnEnabled, Evolves, Dispatched,
         SameDispatches, DispatchFacts;
    match op
    case Engine(e) =>
      EngineStepKeeps(s.db, e);
      SameRunsConclude(s.db, op, Perform(s, op).db);
    case Loop(l) => LoopConcludes(s.db, l);
    case Turns(t) =>
      TurnKeepsRuns(s, t);
      SameRunsConclude(s.db, op, Perform(s, op).db);
  }

  /** Every concluded run was concluded by one planner decision committed for it. */
  lemma {:induction false} ConclusionWasDecided(trace: seq<System>, ops: seq<Op>, k: nat, rid: Id)
    requires Behaviour(trace, ops) && k < |trace|
    requires rid in trace[k].db.runs && Concluded(trace[k].db.runs[rid])
    ensures exists j :: 0 <= j < k && Concludes(ops[j], rid, trace[k].db.runs[rid])
  {
    hide Inv, Concludes, HeldOk, ClaimsOk, Enabled, Perform;
    if k > 0 {
      AlwaysInv(trace, ops, k - 1);
      assert Next(trace[k - 1], ops[k - 1], trace[k]);
      PerformConcludes(trace[k - 1], ops[k - 1]);
      if !Concludes(ops[k - 1], rid, trace[k].db.runs[rid]) {
        ConclusionWasDecided(trace, ops, k - 1, rid);
      }
    }
  }

  /** What a worker remembers of a turn to settle, it read. */
  lemma {:induction false} HeldWasRead(trace: seq<System>, ops: seq<Op>, k: nat, h: Held)
    returns (r: nat, grounded: bool)
    requires Behaviour(trace, ops) && k < |trace| && h in trace[k].held && h.ToSettle?
    ensures r < k && r < |ops| && ops[r] == Turns(TurnOp.Read(h, grounded)) && Readable(trace[r], h, grounded)
  {
    hide EngineStep, LoopStep, EngineEnabled, Readable, Submit, WriteHeld, SettleAndOrder, RecordTurn, LeaveToOperator;
    r, grounded := 0, false;
    if k > 0 {
      assert Next(trace[k - 1], ops[k - 1], trace[k]);
      if h in trace[k - 1].held {
        r, grounded := HeldWasRead(trace, ops, k - 1, h);
      } else {
        r, grounded := k - 1, ops[k - 1].t.grounded;
      }
    }
  }

  lemma ReadWasGrounded(s: System, i: nat, reply: string, grounded: bool)
    requires Readable(s, ToSettle(i, reply, ""), grounded)
    ensures grounded && i < |s.db.turns| && s.db.turns[i].status.TurnOpen?
    ensures HasAnswer(s.db.turns[i], s.db.runs) && !Blank(s.db.runs[s.db.turns[i].run].answer)
  {
    hide SettledReply, Blank;
    var turn := s.db.turns[i];
    var fallback: string, limit: nat :|
      SettledReply(turn, s.db.runs, grounded, fallback, limit) == Some((reply, ""));
    SettledReplyMeans(turn, s.db.runs, grounded, fallback, limit);
    assert turn.error != "" ==> !SettlesFor(turn, s.db.runs, grounded, "");
    assert SettlesFor(turn, s.db.runs, grounded, "");
  }

  /** Main result: a reply delivered without a handoff reason is what the planner decided, in
      a decision committed for the run of that very event, cut at most at its end; and after
      that decision, and before it was written, the reply was read with its numbers grounded. */
  lemma DeliveredReplyWasDecided(trace: seq<System>, ops: seq<Op>, k: nat, i: nat)
    requires Behaviour(trace, ops) && k < |trace| && i < |trace[k].db.turns|
    requires trace[k].db.turns[i].status.TurnDelivered? && trace[k].db.turns[i].error == ""
    ensures var turn, runs := trace[k].db.turns[i], trace[k].db.runs;
            && turn.run in runs && runs[turn.run].key == ConversationRun(turn.channel, turn.event)
            && turn.reply <= runs[turn.run].answer && !Blank(runs[turn.run].answer)
            && exists j, r, w ::
                 && 0 <= j < r < w < k && Concludes(ops[j], turn.run, runs[turn.run])
                 && ops[r] == Turns(TurnOp.Read(ToSettle(i, turn.reply, ""), true))
                 && SettlesWith(ops[w], i, turn.reply)
  {
    hide Inv, Evolves, HeldOk, ClaimsOk, Concludes, Behaviour, Readable, Blank, TurnOk, SettlesWith, RunOk, RunEvolves;
    AlwaysInv(trace, ops, k);
    PartsOfInv(trace[k].db);
    DeliveredIsAnswered(trace[k].db, i);
    DeliveredHasRun(trace[k].db, i);
    var w := AnswerWasSettled(trace, ops, k, i);
    var h := ToSettle(i, trace[k].db.turns[i].reply, "");
    SettlesWhatIsHeld(trace, ops, w, i, trace[k].db.turns[i].reply);
    var r, grounded := HeldWasRead(trace, ops, w, h);
    ReadWasGrounded(trace[r], i, h.reply, grounded);
    var rid := trace[r].db.turns[i].run;
    AlwaysEvolves(trace, ops, r, k);
    TurnsEvolveOf(trace[r].db, trace[k].db, i);
    OneRunEvolves(trace[r].db, trace[k].db, rid);
    FinishedRunStays(trace[r].db.runs[rid], trace[k].db.runs[rid]);
    ConclusionWasDecided(trace, ops, r, rid);
  }

  lemma SettlesWhatIsHeld(trace: seq<System>, ops: seq<Op>, w: nat, i: nat, reply: string)
    requires Behaviour(trace, ops) && w < |ops| && SettlesWith(ops[w], i, reply)
    ensures w < |trace| && ToSettle(i, reply, "") in trace[w].held
  {
    hide Perform;
    assert Next(trace[w], ops[w], trace[w + 1]);
  }

  lemma FinishedRunStays(run: Run, run': Run)
    requires RunEvolves(run, run') && !ActiveRun(run.status)
    ensures run' == run
  {
  }

  lemma DeliveredHasRun(db: Db, i: nat)
    requires Inv(db) && i < |db.turns| && db.turns[i].status.TurnDelivered? && db.turns[i].error == ""
    ensures var turn := db.turns[i];
            turn.run in db.runs && turn.run != NO_ID ==>
              db.runs[turn.run].key == ConversationRun(turn.channel, turn.event)
    ensures NO_ID !in db.runs
  {
    hide TasksOk, RunsOk, QueueOk, HistoryOk, HandoffsOk;
    assert TurnOk(db.tasks, db.runs, db.turns[i]);
  }
}
