/** All workers, operators and webhooks of one tenant sharing one store: every operation
    any of them can perform, in any order, any number of times, with stale reads. */
module Protocol {
  import opened Basics
  import opened Authorization
  import opened Tasks
  import opened Store
  import opened EngineSpec
  import opened EngineProofs
  import opened AgentLoopSpec
  import opened AgentLoopProofs
  import opened ConversationSpec
  import opened ConversationProofs
  import opened OrderCapture

  /** The store, what conversation workers read and may still act on, every claim a worker
      was ever handed, and the claim handed out by the latest operation, if any. Knowledge
      is never dropped: a worker may crash, be duplicated, or repeat a write at any later
      time. */
  datatype System = System(db: Db, held: set<Held>, claims: set<Claimed>, handed: Option<Claimed>)

  datatype EngineOp =
    | SubmitTask(env: Env, channel: string, key: Key, agent: string, plan: seq<Call>, actor: string, now: Time)
    | OperatorSends(env: Env, channel: string, chat: string, text: string, actor: string, role: string,
                    replyKey: string, agent: string, now: Time)
    | DecideApproval(env: Env, tid: Id, pos: nat, actor: string, approved: bool, role: string, now: Time)
    | ClaimStep(env: Env, worker: string, device: string, now: Time, leaseSeconds: int, order: seq<Id>)
    | FinishStep(tid: Id, pos: nat, token: Id, result: string, report: Report, error: string, now: Time)
    | CancelWork(env: Env, tid: Id, actor: string)
    | ReconcileStep(env: Env, tid: Id, pos: nat, actor: string, role: string, succeeded: bool, evidence: string)
    | FreezeTenant(env: Env, stopped: bool, actor: string)
    | SetDevice(env: Env, device: string, revoked: bool, actor: string)
    | ReceiveEvent(env: Env, channel: string, event: string, payload: Payload, overQuota: bool)
    | LeaseEvent(k: (string, string), now: Time)
    | CloseEvent(k: (string, string), token: Id, outcome: Outcome, failure: Option<string>)
    | RepeatEvent(env: Env, k: (string, string), actor: string)

  datatype LoopOp =
    | CreateRun(env: Env, key: RunKey, request: Request, now: Time)
    | AbandonRun(env: Env, rid: Id, actor: string)
    | ReserveRun(env: Env, rid: Id, now: Time, fits: bool)
    | CommitRun(env: Env, rid: Id, claim: Id, decision: Option<Decision>, repair: bool, now: Time, fits: bool)

  datatype TurnOp =
    | RecordInbound(env: Env, channel: string, event: string, agent: string, payload: Payload, now: Time)
    | TakeOver(chat: Chat, actor: string, minutes: int, now: Time)
    | HandBack(env: Env, chat: Chat, actor: string, now: Time)
    | Announce(tid: Id, minutes: int, now: Time)
    | Write(held: Held, now: Time)
    | WriteLeave(turn: nat)
    | WriteSettle(env: Env, turn: nat, reply: string, reason: string, orders: Orders, now: Time)
    // `grounded`: what the check of the reply's numbers says, for a turn to settle.
    | Read(fact: Held, grounded: bool)
    | Deliver(env: Env, turn: nat, now: Time)

  datatype Op = Engine(e: EngineOp) | Loop(l: LoopOp) | Turns(t: TurnOp)

  // ----------------------------------------------------------------------- engine

  ghost predicate EngineEnabled(db: Db, op: EngineOp) {
    match op
    case ClaimStep(env, worker, device, now, leaseSeconds, order) =>
      ClaimGate(db, env, worker, device, now, leaseSeconds).None? ==> ClaimOrder(Expire(db, now), device, order)
    case _ => true
  }

  ghost function EngineStep(db: Db, op: EngineOp): (Db, Option<Claimed>)
    requires EngineEnabled(db, op)
  {
    match op
    case SubmitTask(env, channel, key, agent, plan, actor, now) =>
      (Submit(db, env, channel, key, agent, plan, actor, now).db, None)
    case OperatorSends(env, channel, chat, text, actor, role, replyKey, agent, now) =>
      (ReplyAsOperator(db, env, channel, chat, text, actor, role, replyKey, agent, now).db, None)
    case DecideApproval(env, tid, pos, actor, approved, role, now) =>
      (Approve(db, env, tid, pos, actor, approved, role, now).db, None)
    case ClaimStep(env, worker, device, now, leaseSeconds, order) =>
      var tx := EngineSpec.Claim(db, env, worker, device, now, leaseSeconds, order);
      (tx.db, if tx.out.Ok? then tx.out.value else None)
    case FinishStep(tid, pos, token, result, report, error, now) =>
      (Finish(db, tid, pos, token, result, report, error, now).db, None)
    case CancelWork(env, tid, actor) => (Cancel(db, env, tid, actor).db, None)
    case ReconcileStep(env, tid, pos, actor, role, succeeded, evidence) =>
      (Reconcile(db, env, tid, pos, actor, role, succeeded, evidence).db, None)
    case FreezeTenant(env, stopped, actor) => (Freeze(db, env, stopped, actor).db, None)
    case SetDevice(env, device, revoked, actor) => (EnrollDevice(db, env, device, revoked, actor).db, None)
    case ReceiveEvent(env, channel, event, payload, overQuota) =>
      (AcceptEvent(db, env, channel, event, payload, overQuota).db, None)
    case LeaseEvent(k, now) => (ClaimEvent(db, k, now).db, None)
    case CloseEvent(k, token, outcome, failure) => (SettleEvent(db, k, token, outcome, failure), None)
    case RepeatEvent(env, k, actor) => (RetryEvent(db, env, k, actor).db, None)
  }

  /** What a claim was authorised by, at the moment it was made. */
  ghost predicate DispatchFacts(db: Db, op: EngineOp, c: Claimed) {
    && op.ClaimStep?
    && c.task in db.tasks && c.pos < |db.tasks[c.task].steps|
    && !db.frozen
    && AuthorizedNow(db, op.env, c.task, c.pos, op.now)
    && db.tasks[c.task].steps[c.pos].call.device == op.device
    && (op.device != "" ==> op.device in db.devices && !db.devices[op.device].revoked)
  }

  lemma EngineStepKeeps(db: Db, op: EngineOp)
    requires Inv(db) && EngineEnabled(db, op)
    ensures var (db', c) := EngineStep(db, op);
            && Inv(db') && Evolves(db, db')
            && SameTurns(db, db') && db'.runs == db.runs
            && (c.None? ==> SameDispatches(db.tasks, db'.tasks))
            && (c.Some? ==> Dispatched(db.tasks, db'.tasks, c.value) && DispatchFacts(db, op, c.value))
  {
    hide Inv, Evolves, SameDispatches, Dispatched, AuthorizedNow, TasksMove, TasksGood, TaskOk, NoneRunning,
         Submit, ReplyAsOperator, Approve, EngineSpec.Claim, Finish, Cancel, Reconcile, Freeze, EnrollDevice,
         AcceptEvent, ClaimEvent, SettleEvent, RetryEvent;
    TasksOfInv(db);
    StayPut(db);
    var db' := EngineStep(db, op).0;
    match op
    case SubmitTask(env, channel, key, agent, plan, actor, now) =>
      SubmitKeeps(db, env, channel, key, agent, plan, actor, now);
      TasksMoveKeeps(db, db');
    case OperatorSends(env, channel, chat, text, actor, role, replyKey, agent, now) =>
      ReplyAsOperatorKeeps(db, env, channel, chat, text, actor, role, replyKey, agent, now);
      TasksMoveKeeps(db, db');
    case DecideApproval(env, tid, pos, actor, approved, role, now) =>
      ApproveKeeps(db, env, tid, pos, actor, approved, role, now);
      TasksMoveKeeps(db, db');
    case ClaimStep(env, worker, device, now, leaseSeconds, order) =>
      ClaimKeeps(db, env, worker, device, now, leaseSeconds, order);
      ClaimDispatches(db, env, worker, device, now, leaseSeconds, order);
      ClaimingDeviceIsEnrolled(db, env, worker, device, now, leaseSeconds, order);
      TasksMoveKeeps(db, db');
      if EngineStep(db, op).1.Some? {
        DispatchedInside(db.tasks, db'.tasks, EngineStep(db, op).1.value);
      }
    case FinishStep(tid, pos, token, result, report, error, now) =>
      FinishKeeps(db, tid, pos, token, result, report, error, now);
      TasksMoveKeeps(db, db');
    case CancelWork(env, tid, actor) =>
      CancelKeeps(db, env, tid, actor);
      TasksMoveKeeps(db, db');
    case ReconcileStep(env, tid, pos, actor, role, succeeded, evidence) =>
      ReconcileKeeps(db, env, tid, pos, actor, role, succeeded, evidence);
      TasksMoveKeeps(db, db');
    case FreezeTenant(env, stopped, actor) =>
      FreezeKeeps(db, env, stopped, actor);
      TasksMoveKeeps(db, db');
    case SetDevice(env, device, revoked, actor) =>
      EnrollDeviceKeeps(db, env, device, revoked, actor);
      TasksMoveKeeps(db, db');
    case ReceiveEvent(env, channel, event, payload, overQuota) =>
      AcceptEventKeeps(db, env, channel, event, payload, overQuota);
    case LeaseEvent(k, now) =>
      ClaimEventKeeps(db, k, now);
    case CloseEvent(k, token, outcome, failure) =>
      SettleEventKeeps(db, k, token, outcome, failure);
    case RepeatEvent(env, k, actor) =>
      RetryEventKeeps(db, env, k, actor);
  }

  lemma DispatchedInside(tasks: map<Id, Task>, tasks': map<Id, Task>, c: Claimed)
    requires Dispatched(tasks, tasks', c)
    ensures c.task in tasks && c.pos < |tasks[c.task].steps|
  {
  }

  // ------------------------------------------------------------------------- loop

  ghost function LoopStep(db: Db, op: LoopOp): Db {
    match op
    case CreateRun(env, key, request, now) => Create(db, env, key, request, now).db
    case AbandonRun(env, rid, actor) => CancelRun(db, env, rid, actor).db
    case ReserveRun(env, rid, now, fits) => Reserve(db, env, rid, now, fits).db
    case CommitRun(env, rid, claim, decision, repair, now, fits) =>
      Commit(db, env, rid, claim, decision, repair, now, fits).db
  }

  lemma LoopStepKeeps(db: Db, op: LoopOp)
    requires Inv(db)
    ensures Inv(LoopStep(db, op)) && Evolves(db, LoopStep(db, op))
    ensures SameDispatches(db.tasks, LoopStep(db, op).tasks)
    ensures SameTurns(db, LoopStep(db, op))
  {
    hide Inv, Evolves, SameDispatches, TasksMove, TasksGood, TaskOk, NoneRunning, CancelRun, Reserve, Commit, Create;
    TasksOfInv(db);
    StayPut(db);
    match op
    case CreateRun(env, key, request, now) =>
      CreateKeeps(db, env, key, request, now);
    case AbandonRun(env, rid, actor) => CancelRunKeeps(db, env, rid, actor);
    case ReserveRun(env, rid, now, fits) => ReserveKeeps(db, env, rid, now, fits);
    case CommitRun(env, rid, claim, decision, repair, now, fits) =>
      CommitKeeps(db, env, rid, claim, decision, repair, now, fits);
  }

  // ------------------------------------------------------------------------ turns

  /** What a worker may come to remember, read from the store as it is now or made from
      what it already remembers. */
  ghost predicate Readable(s: System, h: Held, grounded: bool) {
    h.turn < |s.db.turns| && var turn := s.db.turns[h.turn];
    match h
    // `_open`: the candidate query.
    case ToOpen(i) => !s.db.frozen && NextQueued(s.db.turns, i)
    // ... and, between the read and the write, the run created or found for its event.
    case ToOpenWith(i, run, _) =>
      && ToOpen(i) in s.held
      && (run != NO_ID ==>
            run in s.db.runs && s.db.runs[run].key == ConversationRun(turn.channel, turn.event))
    // `_settle`: an open turn whose run has ended.
    case ToSettle(i, reply, reason) =>
      && !s.db.frozen && turn.status.TurnOpen?
      && exists fallback: string, limit: nat ::
           SettledReply(turn, s.db.runs, grounded, fallback, limit) == Some((reply, reason))
    // `_deliver`: a persisted reply nobody has submitted yet.
    case ToDeliver(_) => !s.db.frozen && turn.status.TurnDelivering? && turn.task == NO_ID
    // `_close`: the reply's task has ended.
    case ToClose(_, observed) =>
      && turn.status.TurnDelivering? && turn.task in s.db.tasks
      && observed == s.db.tasks[turn.task].status
      && (Final(observed) || observed.Uncertain?)
    case _ => false
  }

  ghost predicate TurnEnabled(s: System, op: TurnOp) {
    match op
    case RecordInbound(_, _, _, _, _, now) => NotBefore(s.db.turns, now)
    case Announce(tid, _, _) => Announceable(s.db, tid)
    case Write(h, _) => h in s.held && h.turn < |s.db.turns|
    case WriteLeave(i) => ToOpen(i) in s.held && i < |s.db.turns|
    case WriteSettle(_, i, reply, reason, _, _) => ToSettle(i, reply, reason) in s.held && i < |s.db.turns|
    case Read(h, grounded) => Readable(s, h, grounded)
    case Deliver(_, i, _) =>
      ToDeliver(i) in s.held && i < |s.db.turns| && s.db.turns[i].channel in OUTBOUND_CHANNELS
    case _ => true
  }

  ghost function WriteHeld(db: Db, h: Held, now: Time): Db
    requires h.turn < |db.turns|
  {
    match h
    // Written by `WriteLeave` and `WriteSettle`.
    case ToOpen(_) => db
    case ToSettle(_, _, _) => db
    case ToOpenWith(i, run, error) => OpenTurn(db, i, run, error).db
    case ToDeliver(i) => SuppressReply(db, i, now).db
    case ToAttach(i, task) => AttachTask(db, i, task)
    case ToFail(i, error) => GiveUp(db, i, TurnFailed, error)
    case ToClose(i, observed) => CloseTurn(db, i, observed)
  }

  /** The submission of `_deliver`, keyed by the inbound event. */
  ghost function SubmitReply(db: Db, env: Env, turn: Turn, now: Time): Tx<Id>
    requires turn.channel in OUTBOUND_CHANNELS
  {
    Submit(db, env, turn.channel, External(turn.event), turn.agent,
           [ReplyCall(turn.channel, turn.conversation, turn.reply)], turn.sender, now)
  }

  /** What the submitting worker does next. */
  ghost function AfterSubmit(db: Db, i: nat, turn: Turn, out: Result<Id>): Option<Held> {
    match out
    case Ok(task) => Some(ToAttach(i, task))
    case Err(RateLimited) => None
    case Err(Conflict) =>
      if KeyTaken(db, turn.channel, External(turn.event))
      then Some(ToAttach(i, TaskByKey(db, turn.channel, External(turn.event))))
      else Some(ToFail(i, "delivery_conflict"))
    case Err(_) => Some(ToFail(i, "delivery_rejected"))
  }

  ghost function TurnStep(s: System, op: TurnOp): System
    requires TurnEnabled(s, op)
  {
    match op
    case RecordInbound(env, channel, event, agent, payload, now) =>
      s.(db := RecordTurn(s.db, env, channel, event, agent, payload, now).db)
    case TakeOver(chat, actor, minutes, now) => s.(db := StartTakeover(s.db, chat, actor, minutes, now))
    case HandBack(env, chat, actor, now) => s.(db := ReleaseTakeover(s.db, env, chat, actor, now).db)
    case Announce(tid, minutes, now) => s.(db := AnnounceReply(s.db, tid, minutes, now))
    case Write(h, now) => s.(db := WriteHeld(s.db, h, now))
    case WriteLeave(i) => s.(db := LeaveToOperator(s.db, i))
    case WriteSettle(env, i, reply, reason, orders, now) =>
      s.(db := SettleAndOrder(s.db, env, i, reply, reason, orders, now))
    case Read(h, _) => s.(held := s.held + {h})
    case Deliver(env, i, now) =>
      var turn := s.db.turns[i];
      var tx := SubmitReply(s.db, env, turn, now);
      var next := AfterSubmit(tx.db, i, turn, tx.out);
      s.(db := tx.db, held := if next.Some? then s.held + {next.value} else s.held)
  }

  lemma WriteHeldKeeps(db: Db, h: Held, now: Time)
    requires Inv(db) && HeldOk(db, h)
    ensures Inv(WriteHeld(db, h, now)) && Evolves(db, WriteHeld(db, h, now))
  {
    hide Inv, Evolves, AtHead, Answered, OpenTurns, Appended, OpenTurn, SuppressReply,
         AttachTask, CloseTurn, GiveUp;
    EvolvesReflexive(db);
    match h
    case ToOpen(_) =>
    case ToSettle(_, _, _) =>
    case ToOpenWith(i, run, error) => OpenTurnKeeps(db, i, run, error);
    case ToDeliver(i) => SuppressReplyKeeps(db, i, now);
    case ToAttach(i, task) => AttachTaskKeeps(db, i, task);
    case ToFail(i, error) => GiveUpKeeps(db, i, TurnFailed, error);
    case ToClose(i, observed) => CloseTurnKeeps(db, i, observed);
  }

  lemma WriteHeldKeepsTasks(db: Db, h: Held, now: Time)
    requires h.turn < |db.turns|
    ensures WriteHeld(db, h, now).tasks == db.tasks && WriteHeld(db, h, now).runs == db.runs
  {
    hide CloseTurn, GiveUp, OpenTurn, SuppressReply, AttachTask;
    match h
    case ToOpenWith(i, run, error) => OpenKeepsTasks(db, i, run, error);
    case ToDeliver(i) => SuppressKeepsTasks(db, i, now);
    case ToAttach(i, task) => AttachKeepsTasks(db, i, task);
    case ToFail(i, error) => GiveUpKeepsTasks(db, i, TurnFailed, error);
    case ToClose(i, observed) => CloseKeepsTasks(db, i, observed);
    case _ =>
  }

  lemma OpenKeepsTasks(db: Db, i: nat, run: Id, error: string)
    requires i < |db.turns|
    ensures var db' := OpenTurn(db, i, run, error).db; db'.tasks == db.tasks && db'.runs == db.runs
  {
    hide OpenTurns;
  }

  lemma SuppressKeepsTasks(db: Db, i: nat, now: Time)
    requires i < |db.turns|
    ensures var db' := SuppressReply(db, i, now).db; db'.tasks == db.tasks && db'.runs == db.runs
  {
  }

  lemma AttachKeepsTasks(db: Db, i: nat, task: Id)
    requires i < |db.turns|
    ensures var db' := AttachTask(db, i, task); db'.tasks == db.tasks && db'.runs == db.runs
  {
  }

  lemma GiveUpKeepsTasks(db: Db, i: nat, status: TurnStatus, error: string)
    requires i < |db.turns|
    ensures var db' := GiveUp(db, i, status, error); db'.tasks == db.tasks && db'.runs == db.runs
  {
  }

  lemma CloseKeepsTasks(db: Db, i: nat, observed: Status)
    requires i < |db.turns|
    ensures var db' := CloseTurn(db, i, observed); db'.tasks == db.tasks && db'.runs == db.runs
  {
    hide GiveUp, Appended, Lines;
    GiveUpKeepsTasks(db, i, TurnUncertain, "send_uncertain");
    GiveUpKeepsTasks(db, i, TurnFailed, if observed.Cancelled? then "send_cancelled" else "send_failed");
  }

  /** What a worker reads is true when it reads it. */
  lemma ReadIsTrue(s: System, h: Held, grounded: bool)
    requires Inv(s.db) && Readable(s, h, grounded) && forall g :: g in s.held ==> HeldOk(s.db, g)
    ensures HeldOk(s.db, h)
  {
    hide Inv, AtHead, Eligible, SettledReply;
    PartsOfInv(s.db);
    match h
    case ToOpen(i) => CandidateIsAtHead(s.db.turns, i);
    case ToOpenWith(i, _, _) => assert HeldOk(s.db, ToOpen(i));
    case ToSettle(i, reply, reason) =>
      var fallback, limit :|
        SettledReply(s.db.turns[i], s.db.runs, grounded, fallback, limit) == Some((reply, reason));
      SettledIsAnswered(s.db.turns[i], s.db.runs, grounded, fallback, limit);
    case ToDeliver(_) =>
    case ToClose(_, _) =>
  }

  /** A settled reply without a reason is the run's own answer, cut to the channel. */
  lemma SettledIsAnswered(turn: Turn, runs: map<Id, Run>, grounded: bool, fallback: string, limit: nat)
    requires SettledReply(turn, runs, grounded, fallback, limit).Some?
    ensures var (reply, reason) := SettledReply(turn, runs, grounded, fallback, limit).value;
            reason == "" ==> Answered(runs, turn.run, reply)
  {
  }

  lemma DeliverKeeps(db: Db, env: Env, i: nat, now: Time)
    requires Inv(db) && i < |db.turns| && db.turns[i].channel in OUTBOUND_CHANNELS
    ensures var tx := SubmitReply(db, env, db.turns[i], now);
            var next := AfterSubmit(tx.db, i, db.turns[i], tx.out);
            && Inv(tx.db) && Evolves(db, tx.db) && SameDispatches(db.tasks, tx.db.tasks)
            && (next.Some? ==> HeldOk(tx.db, next.value))
  {
    hide Inv, Evolves, Submit, SameDispatches, TasksGood, TaskOk, NoneRunning;
    var turn := db.turns[i];
    var plan := [ReplyCall(turn.channel, turn.conversation, turn.reply)];
    TasksOfInv(db);
    SubmitKeeps(db, env, turn.channel, External(turn.event), turn.agent, plan, turn.sender, now);
    SubmittedTask(db, env, turn.channel, External(turn.event), turn.agent, plan, turn.sender, now);
    TasksMoveKeeps(db, SubmitReply(db, env, turn, now).db);
    PartsOfInv(SubmitReply(db, env, turn, now).db);
  }

  lemma TurnStepKeeps(s: System, op: TurnOp)
    requires Inv(s.db) && TurnEnabled(s, op) && forall g :: g in s.held ==> HeldOk(s.db, g)
    ensures var s' := TurnStep(s, op);
            && Inv(s'.db) && Evolves(s.db, s'.db) && SameDispatches(s.db.tasks, s'.db.tasks)
            && s'.claims == s.claims
            && forall g :: g in s'.held ==> g in s.held || HeldOk(s'.db, g)
  {
    hide Inv, Evolves, SameDispatches, HeldOk, Readable, TasksGood, TaskOk, NoneRunning, Submit, WriteHeld,
         AfterSubmit, RecordTurn, Announceable, SettleAndOrder;
    EvolvesReflexive(s.db);
    TasksOfInv(s.db);
    StayPut(s.db);
    match op
    case RecordInbound(env, channel, event, agent, payload, now) =>
      RecordTurnKeeps(s.db, env, channel, event, agent, payload, now);
      RecordKeepsTasks(s.db, env, channel, event, agent, payload, now);
    case TakeOver(chat, actor, minutes, now) =>
      TakeoversFree(s.db, StartTakeover(s.db, chat, actor, minutes, now).takeovers);
    case HandBack(env, chat, actor, now) =>
      TakeoversFree(s.db, ReleaseTakeover(s.db, env, chat, actor, now).db.takeovers);
    case Announce(tid, minutes, now) =>
      AnnounceReplyKeeps(s.db, tid, minutes, now);
    case Write(h, now) =>
      WriteHeldKeeps(s.db, h, now);
      WriteHeldKeepsTasks(s.db, h, now);
    case WriteLeave(i) =>
      LeaveToOperatorKeeps(s.db, i);
    case WriteSettle(env, i, reply, reason, orders, now) =>
      assert HeldOk(s.db, ToSettle(i, reply, reason));
      SettleAndOrderKeeps(s.db, env, i, reply, reason, orders, now);
    case Read(h, grounded) =>
      ReadIsTrue(s, h, grounded);
    case Deliver(env, i, now) =>
      DeliverKeeps(s.db, env, i, now);
  }

  lemma RecordKeepsTasks(
    db: Db, env: Env, channel: string, event: string, agent: string, p: Payload, now: Time)
    ensures var db' := RecordTurn(db, env, channel, event, agent, p, now).db;
            db'.tasks == db.tasks && db'.runs == db.runs
  {
  }

  // ----------------------------------------------------------------------- system

  ghost predicate Enabled(s: System, op: Op) {
    match op
    case Engine(e) => EngineEnabled(s.db, e)
    case Loop(_) => true
    case Turns(t) => TurnEnabled(s, t)
  }

  ghost function Perform(s: System, op: Op): System
    requires Enabled(s, op)
  {
    match op
    case Engine(e) =>
      var (db', c) := EngineStep(s.db, e);
      s.(db := db', claims := if c.Some? then s.claims + {c.value} else s.claims, handed := c)
    case Loop(l) => s.(db := LoopStep(s.db, l), handed := None)
    case Turns(t) => TurnStep(s, t).(handed := None)
  }

  /** Each step was handed out at most once, to the holder of its one claim. */
  ghost predicate ClaimsOk(tasks: map<Id, Task>, claims: set<Claimed>) {
    && (forall c :: c in claims ==>
          c.task in tasks && c.pos < |tasks[c.task].steps| && tasks[c.task].steps[c.pos].attempts == 1)
    && (forall c, d :: c in claims && d in claims && c.task == d.task && c.pos == d.pos ==> c == d)
    && (forall t, i :: t in tasks && 0 <= i < |tasks[t].steps| && tasks[t].steps[i].status.Running? ==>
          Claimed(t, i, tasks[t].steps[i].claim) in claims)
  }

  ghost predicate SysInv(s: System) {
    && Inv(s.db)
    && (forall h :: h in s.held ==> HeldOk(s.db, h))
    && ClaimsOk(s.db.tasks, s.claims)
  }

  lemma ClaimsSurvive(tasks: map<Id, Task>, tasks': map<Id, Task>, claims: set<Claimed>)
    requires ClaimsOk(tasks, claims) && TasksEvolve(tasks, tasks') && SameDispatches(tasks, tasks')
    requires forall t :: t in tasks' ==> TaskOk(tasks'[t])
    ensures ClaimsOk(tasks', claims)
  {
    hide TaskEvolves;
    forall c | c in claims
      ensures c.task in tasks' && c.pos < |tasks'[c.task].steps| && tasks'[c.task].steps[c.pos].attempts == 1
    {
      assert SameAttempts(tasks[c.task], tasks'[c.task]);
    }
    forall t, i | t in tasks' && 0 <= i < |tasks'[t].steps| && tasks'[t].steps[i].status.Running?
      ensures Claimed(t, i, tasks'[t].steps[i].claim) in claims
    {
      assert StepOk(tasks'[t].steps[i]);
      RunningBefore(tasks[t], tasks'[t], i);
    }
  }

  lemma ClaimsGrow(tasks: map<Id, Task>, tasks': map<Id, Task>, claims: set<Claimed>, c: Claimed)
    requires ClaimsOk(tasks, claims) && TasksEvolve(tasks, tasks') && Dispatched(tasks, tasks', c)
    requires forall t :: t in tasks' ==> TaskOk(tasks'[t])
    ensures ClaimsOk(tasks', claims + {c})
  {
    hide TaskEvolves, TaskOk;
    forall d | d in claims
      ensures d.task in tasks' && d.pos < |tasks'[d.task].steps| && tasks'[d.task].steps[d.pos].attempts == 1
    {
      if d.task != c.task {
        assert SameAttempts(tasks[d.task], tasks'[d.task]);
      }
    }
    forall t, i | t in tasks' && 0 <= i < |tasks'[t].steps| && tasks'[t].steps[i].status.Running?
      ensures Claimed(t, i, tasks'[t].steps[i].claim) in claims + {c}
    {
      if t != c.task {
        RunningBefore(tasks[t], tasks'[t], i);
      }
    }
  }

  /** A step that is running, in a task nothing of which was handed out, was running before. */
  lemma RunningBefore(t: Task, t': Task, i: nat)
    requires TaskEvolves(t, t') && SameAttempts(t, t') && TaskOk(t')
    requires i < |t'.steps| && t'.steps[i].status.Running?
    ensures t.steps[i].status.Running? && t.steps[i].claim == t'.steps[i].claim
  {
    assert StepEvolves(t.steps[i], t'.steps[i]) && StepOk(t'.steps[i]);
  }

  lemma TasksEvolveOf(db: Db, db': Db)
    requires Inv(db) && Inv(db') && Evolves(db, db')
    ensures TasksEvolve(db.tasks, db'.tasks)
    ensures forall t :: t in db.tasks ==> TaskOk(db.tasks[t])
    ensures forall t :: t in db'.tasks ==> TaskOk(db'.tasks[t])
  {
  }

  /** Every operation, from any state the system can be in, keeps everything. */
  lemma StepKeeps(s: System, op: Op)
    requires SysInv(s) && Enabled(s, op)
    ensures SysInv(Perform(s, op)) && Evolves(s.db, Perform(s, op).db)
    ensures s.held <= Perform(s, op).held && s.claims <= Perform(s, op).claims
  {
    hide Inv, Evolves, HeldOk, ClaimsOk, EngineStep, LoopStep, SameDispatches, Dispatched, TaskOk, TasksEvolve,
         DispatchFacts, EngineEnabled, TurnEnabled, WriteHeld, SubmitReply, AfterSubmit;
    var s' := Perform(s, op);
    match op {
      case Engine(e) =>
        EngineStepKeeps(s.db, e);
        TasksEvolveOf(s.db, s'.db);
        var c := EngineStep(s.db, e).1;
        if c.None? {
          ClaimsSurvive(s.db.tasks, s'.db.tasks, s.claims);
        } else {
          ClaimsGrow(s.db.tasks, s'.db.tasks, s.claims, c.value);
        }
      case Loop(l) =>
        LoopStepKeeps(s.db, l);
        TasksEvolveOf(s.db, s'.db);
        ClaimsSurvive(s.db.tasks, s'.db.tasks, s.claims);
      case Turns(t) =>
        TurnStepKeeps(s, t);
        TasksEvolveOf(s.db, s'.db);
        ClaimsSurvive(s.db.tasks, s'.db.tasks, s.claims);
    }
    forall h | h in s'.held ensures HeldOk(s'.db, h) {
      if h in s.held {
        HeldSurvives(s.db, s'.db, h);
      }
    }
  }
}
