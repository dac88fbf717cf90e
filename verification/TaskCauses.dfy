/** Over any run of the system: whenever a task changes, which operation did it, and why. */
module TaskCauses {
  import opened Basics
  import opened Authorization
  import opened Tasks
  import opened Store
  import opened EngineSpec
  import opened EngineProofs
  import opened EngineCauses
  import opened AgentLoopSpec
  import opened AgentLoopProofs
  import opened ConversationSpec
  import opened ConversationProofs
  import opened OrderCapture
  import opened Protocol
  import opened Runs
  import L = LoopCauses
  import P = Provenance

  // -------------------------------------------------------------------------- claim

  /** What a claim makes of a task: its expired leases are recovered, and then, if it was
      tried, its head becomes what it should. */
  ghost predicate ClaimedTask(db: Db, e: EngineOp, t: Id, t': Task)
    requires e.ClaimStep? && t in db.tasks
  {
    || RecoveredTask(db.tasks[t], e.now, t')
    || exists mid: Db ::
         && AllRecovered(db, e.now, mid) && Head(mid.tasks[t].steps) < |mid.tasks[t].steps|
         && Tried(mid, e.env, t, e.now, db.next, e.worker, e.now + e.leaseSeconds as real, t')
  }

  ghost predicate AllRecovered(db: Db, now: Time, mid: Db) {
    && mid == db.(tasks := mid.tasks) && mid.tasks.Keys == db.tasks.Keys
    && forall t :: t in db.tasks ==> RecoveredTask(db.tasks[t], now, mid.tasks[t])
  }

  lemma ClaimChanges(db: Db, e: EngineOp, t: Id)
    requires Inv(db) && EngineEnabled(db, e) && e.ClaimStep? && t in db.tasks
    ensures t in EngineStep(db, e).0.tasks
    ensures EngineStep(db, e).0.tasks[t] != db.tasks[t] ==> ClaimedTask(db, e, t, EngineStep(db, e).0.tasks[t])
  {
    hide Inv, EngineSpec.Claim, ClaimedTask, ClaimOrder, Expire, ClaimGate;
    if ClaimGate(db, e.env, e.worker, e.device, e.now, e.leaseSeconds).None? {
      AcceptedClaim(db, e, t);
    } else {
      RefusedClaim(db, e, t);
      RecoveredIsClaimed(db, e, t, EngineStep(db, e).0.tasks[t]);
    }
  }

  lemma RecoveredIsClaimed(db: Db, e: EngineOp, t: Id, t': Task)
    requires e.ClaimStep? && t in db.tasks
    ensures RecoveredTask(db.tasks[t], e.now, t') ==> ClaimedTask(db, e, t, t')
  {
    hide RecoveredTask, AllRecovered, Tried;
  }

  lemma TriedIsClaimed(db: Db, e: EngineOp, mid: Db, t: Id, t': Task)
    requires e.ClaimStep? && t in db.tasks && AllRecovered(db, e.now, mid) && t in mid.tasks
    requires || t' == mid.tasks[t]
             || (Head(mid.tasks[t].steps) < |mid.tasks[t].steps|
                 && Tried(mid, e.env, t, e.now, mid.next, e.worker, e.now + e.leaseSeconds as real, t'))
    ensures ClaimedTask(db, e, t, t')
  {
    hide RecoveredTask, AllRecovered, Tried;
    RecoveredAmong(db, e.now, mid, t);
  }

  lemma AcceptedClaim(db: Db, e: EngineOp, t: Id)
    requires Inv(db) && e.ClaimStep? && t in db.tasks
    requires ClaimGate(db, e.env, e.worker, e.device, e.now, e.leaseSeconds).None?
    requires ClaimOrder(Expire(db, e.now), e.device, e.order)
    ensures var db' := EngineSpec.Claim(db, e.env, e.worker, e.device, e.now, e.leaseSeconds, e.order).db;
            t in db'.tasks && ClaimedTask(db, e, t, db'.tasks[t])
  {
    hide Inv, TasksGood, EngineSpec.Claim, ClaimOutcome, HeadsExist, AllRecovered, RecoveredTask, ClaimedTask,
         ClaimOrder, ClaimGate, Expire, Tried;
    TasksOfInv(db);
    ClaimTries(db, e.env, e.worker, e.device, e.now, e.leaseSeconds, e.order);
    var mid, tx := Expire(db, e.now), EngineSpec.Claim(db, e.env, e.worker, e.device, e.now, e.leaseSeconds, e.order);
    EveryoneRecovered(db, e.now);
    OutcomeOfTask(mid, e.env, e.now, e.worker, e.now + e.leaseSeconds as real, e.order, tx.db.tasks, tx.out.value, t);
    TriedIsClaimed(db, e, mid, t, tx.db.tasks[t]);
  }

  lemma EveryoneRecovered(db: Db, now: Time)
    ensures AllRecovered(db, now, Expire(db, now))
  {
    hide RecoveredTask, ExpireTask;
    forall u | u in db.tasks ensures RecoveredTask(db.tasks[u], now, ExpireTask(db.tasks[u], now)) {
      ExpiryRecoversTask(db.tasks[u], now);
    }
  }

  lemma RecoveredAmong(db: Db, now: Time, mid: Db, t: Id)
    requires AllRecovered(db, now, mid) && t in db.tasks
    ensures t in mid.tasks && RecoveredTask(db.tasks[t], now, mid.tasks[t]) && mid.next == db.next
  {
    hide RecoveredTask;
  }

  lemma RefusedClaim(db: Db, e: EngineOp, t: Id)
    requires e.ClaimStep? && t in db.tasks
    requires ClaimGate(db, e.env, e.worker, e.device, e.now, e.leaseSeconds).Some?
    ensures var db' := EngineSpec.Claim(db, e.env, e.worker, e.device, e.now, e.leaseSeconds, e.order).db;
            t in db'.tasks && (db'.tasks[t] == db.tasks[t] || RecoveredTask(db.tasks[t], e.now, db'.tasks[t]))
  {
    hide RecoveredTask, ExpireTask;
    ExpiryRecoversTask(db.tasks[t], e.now);
  }

  lemma OutcomeOfTask(
    mid: Db, env: Env, now: Time, worker: string, lease: Time, order: seq<Id>, tasks': map<Id, Task>,
    out: Option<Claimed>, t: Id)
    requires HeadsExist(mid, order) && ClaimOutcome(mid, env, now, worker, lease, order, tasks', out) && t in mid.tasks
    ensures t in tasks'
    ensures tasks'[t] == mid.tasks[t]
         || (Head(mid.tasks[t].steps) < |mid.tasks[t].steps|
             && Tried(mid, env, t, now, mid.next, worker, lease, tasks'[t]))
  {
    hide Tried, Dispatched, AuthorizedNow, SameDispatches, TriedFirst;
    var n: nat := |order|;
    if out.Some? {
      var k :| 0 <= k < |order| && TriedFirst(mid, env, now, worker, lease, order, k + 1, tasks');
      n := k + 1;
    }
    TriedOrNot(mid, env, now, worker, lease, order, n, tasks', t);
  }

  lemma TriedOrNot(
    mid: Db, env: Env, now: Time, worker: string, lease: Time, order: seq<Id>, n: nat, tasks': map<Id, Task>, t: Id)
    requires HeadsExist(mid, order) && n <= |order| && t in mid.tasks
    requires TriedFirst(mid, env, now, worker, lease, order, n, tasks')
    ensures t in tasks'
    ensures tasks'[t] == mid.tasks[t]
         || (Head(mid.tasks[t].steps) < |mid.tasks[t].steps|
             && Tried(mid, env, t, now, mid.next, worker, lease, tasks'[t]))
  {
    hide Tried;
    if t in order[..n] {
      var k :| 0 <= k < n && order[..n][k] == t;
      assert order[k] == t;
    }
  }

  /** The step is the next of its task, waits, and is for this device. */
  predicate NextToRun(t: Task, pos: nat, device: string) {
    && t.status in {Queued, WaitingApproval, Running} && pos < |t.steps|
    && (forall j :: 0 <= j < pos ==> t.steps[j].status.Succeeded?)
    && t.steps[pos].status in {Queued, WaitingApproval} && t.steps[pos].call.device == device
  }

  /** The task is the action of this run that its key names. */
  predicate IsActionOf(db: Db, t: Id, rid: Id, k: nat) {
    && t in db.tasks && db.tasks[t].key == RunStep(rid, k)
    && rid in db.runs && k < |db.runs[rid].links| && db.runs[rid].links[k].task == t
  }

  /** A task belongs to the agent run its key names, if to any; and that run must wait for it,
      with time left. */
  lemma ParentByCause(db: Db, t: Id, now: Time)
    requires Inv(db) && t in db.tasks
    ensures ParentAllows(db.runs, t, now) <==>
              forall rid, k: nat :: IsActionOf(db, t, rid, k) ==>
                db.runs[rid].status.WaitingTask? && k == |db.runs[rid].links| - 1 && now < db.runs[rid].deadline
  {
    hide Inv, RunOk, TaskOk;
    forall rid | rid in db.runs
      ensures LinksTask(db.runs[rid], t) <==> exists k: nat :: IsActionOf(db, t, rid, k)
      ensures forall k: nat :: IsActionOf(db, t, rid, k) ==>
                (db.runs[rid].currentTask == t <==> k == |db.runs[rid].links| - 1)
    {
      RunOfInv(db, rid);
      TasksOfInv(db);
      LinkedByKey(db.tasks, rid, db.runs[rid], t);
      if k: nat :| k < |db.runs[rid].links| && db.tasks[t].key == RunStep(rid, k) && db.runs[rid].links[k].task == t {
        assert IsActionOf(db, t, rid, k);
      }
    }
  }

  lemma LinkedByKey(tasks: map<Id, Task>, rid: Id, run: Run, t: Id)
    requires RunOk(tasks, rid, run) && t in tasks && NO_ID !in tasks
    ensures LinksTask(run, t) <==>
              exists k: nat :: k < |run.links| && tasks[t].key == RunStep(rid, k) && run.links[k].task == t
    ensures forall k: nat :: k < |run.links| && tasks[t].key == RunStep(rid, k) && run.links[k].task == t ==>
              (run.currentTask == t <==> k == |run.links| - 1)
  {
    hide Retired, LinkSucceeded;
    if LinksTask(run, t) {
      var k :| 0 <= k < |run.links| && run.links[k].task == t;
      assert LinkOk(tasks, rid, run, k);
    }
    forall k: nat | k < |run.links| && tasks[t].key == RunStep(rid, k) && run.links[k].task == t
      ensures run.currentTask == t <==> k == |run.links| - 1
    {
      assert LinkOk(tasks, rid, run, run.steps - 1);
    }
  }

  /** Main result: a claim misses nobody. If it hands out nothing, no next step of any task was
      authorised; and if it hands one out, none of an older task was. */
  lemma ClaimMissesNobody(
    db: Db, env: Env, worker: string, device: string, now: Time, leaseSeconds: int, order: seq<Id>, t: Id, pos: nat)
    requires TasksGood(db) && ClaimGate(db, env, worker, device, now, leaseSeconds).None?
    requires ClaimOrder(Expire(db, now), device, order)
    requires t in db.tasks && NextToRun(Expire(db, now).tasks[t], pos, device)
    requires AuthorizedNow(Expire(db, now), env, t, pos, now)
    ensures var out := Claim(db, env, worker, device, now, leaseSeconds, order).out;
            && out.Ok? && out.value.Some?
            && out.value.value.task in db.tasks && db.tasks[out.value.value.task].created <= db.tasks[t].created
  {
    hide TasksGood, EngineSpec.Claim, ClaimOutcome, RecoveredTask, AuthorizedNow, Candidates, Expire, ClaimGate,
         NextToRun;
    var mid := Expire(db, now);
    ClaimTries(db, env, worker, device, now, leaseSeconds, order);
    NextIsCandidate(mid.tasks[t], pos, device);
    FoundFirst(mid, env, device, now, worker, now + leaseSeconds as real, order,
               EngineSpec.Claim(db, env, worker, device, now, leaseSeconds, order).db.tasks,
               EngineSpec.Claim(db, env, worker, device, now, leaseSeconds, order).out.value, t);
    AllCreatedStay(db, now);
  }

  lemma NextIsCandidate(t: Task, pos: nat, device: string)
    requires NextToRun(t, pos, device)
    ensures Candidate(t, device) && Head(t.steps) == pos
  {
    HeadIs(t.steps, pos);
  }

  lemma AllCreatedStay(db: Db, now: Time)
    ensures forall t :: t in db.tasks ==>
              t in Expire(db, now).tasks && Expire(db, now).tasks[t].created == db.tasks[t].created
    ensures Expire(db, now).tasks.Keys == db.tasks.Keys
  {
    hide ExpireTask;
    forall t | t in db.tasks ensures Expire(db, now).tasks[t].created == db.tasks[t].created {
      CreatedStays(db.tasks[t], now);
    }
  }

  lemma FoundFirst(
    mid: Db, env: Env, device: string, now: Time, worker: string, lease: Time, order: seq<Id>, tasks': map<Id, Task>,
    out: Option<Claimed>, t: Id)
    requires HeadsExist(mid, order) && ClaimOutcome(mid, env, now, worker, lease, order, tasks', out)
    requires ClaimOrder(mid, device, order) && t in mid.tasks && Candidate(mid.tasks[t], device)
    requires AuthorizedNow(mid, env, t, Head(mid.tasks[t].steps), now)
    ensures out.Some? && out.value.task in mid.tasks && mid.tasks[out.value.task].created <= mid.tasks[t].created
  {
    hide AuthorizedNow, Candidate, TriedFirst, Dispatched, SameDispatches, Candidates;
    assert t in order;
    var i :| 0 <= i < |order| && order[i] == t;
    assert AuthorizedHead(mid, env, order[i], now);
    if out.Some? {
      var k :| 0 <= k < |order| && order[k] == out.value.task
        && (forall j :: 0 <= j < k ==> !AuthorizedHead(mid, env, order[j], now));
      assert k <= i;
    }
  }

  lemma CreatedStays(t: Task, now: Time)
    ensures ExpireTask(t, now).created == t.created
  {
  }

  lemma {:induction false} HeadIs(steps: seq<Step>, pos: nat)
    requires pos < |steps| && !steps[pos].status.Succeeded?
    requires forall j :: 0 <= j < pos ==> steps[j].status.Succeeded?
    ensures Head(steps) == pos
  {
  }

  // ------------------------------------------------------------------------- tokens

  lemma {:induction false} TryInOrderFrame(
    db: Db, env: Env, device: string, worker: string, now: Time, lease: Time, order: seq<Id>)
    requires Candidates(db, device, order)
    ensures var (db', out) := TryInOrder(db, env, device, worker, now, lease, order);
            && db' == db.(tasks := db'.tasks, next := if out.Some? then db.next + 1 else db.next)
            && (out.Some? ==> out.value.token == db.next)
    decreases |order|
  {
    hide Judge, Head, Candidates, Candidate;
    if order != [] {
      FirstIsCandidate(db, device, order);
      var db' := Attempt(db, env, order[0], worker, now, lease);
      AttemptFrame(db, env, order[0], worker, now, lease);
      if !Judge(db, env, order[0], now).Dispatch? {
        RestStayCandidates(db, env, device, worker, now, lease, order);
        TryInOrderFrame(db', env, device, worker, now, lease, order[1..]);
      }
    }
  }

  lemma FirstIsCandidate(db: Db, device: string, order: seq<Id>)
    requires Candidates(db, device, order) && order != []
    ensures order[0] in db.tasks && Head(db.tasks[order[0]].steps) < |db.tasks[order[0]].steps|
  {
    hide Head;
    CandidateHasHead(db.tasks[order[0]], device);
  }

  /** A claim that hands something out uses up one identity for its token. */
  lemma ClaimUsesToken(db: Db, e: EngineOp)
    requires e.ClaimStep? && EngineEnabled(db, e)
    ensures var (db', c) := EngineStep(db, e);
            if c.Some? then c.value.token == db.next && db'.next == db.next + 1 else db'.next == db.next
  {
    hide EngineSpec.Claim, ClaimOrder, Expire;
    TokenOfClaim(db, e);
  }

  lemma TokenOfClaim(db: Db, e: EngineOp)
    requires e.ClaimStep? && EngineEnabled(db, e)
    ensures var tx := EngineSpec.Claim(db, e.env, e.worker, e.device, e.now, e.leaseSeconds, e.order);
            if tx.out.Ok? && tx.out.value.Some? then tx.out.value.value.token == db.next && tx.db.next == db.next + 1
            else tx.db.next == db.next
  {
    hide TryInOrder, Candidate, Candidates, Expire;
    ExpiryLeavesNext(db, e.now);
    if ClaimGate(db, e.env, e.worker, e.device, e.now, e.leaseSeconds).None? {
      TryInOrderFrame(Expire(db, e.now), e.env, e.device, e.worker, e.now, e.now + e.leaseSeconds as real, e.order);
    }
  }

  lemma ExpiryLeavesNext(db: Db, now: Time)
    ensures Expire(db, now).next == db.next
  {
  }

  /** Main result: no two claims of a run ever share a token. */
  lemma {:induction false} TokensAreFresh(trace: seq<System>, ops: seq<Op>, k: nat)
    requires Behaviour(trace, ops) && k < |trace|
    ensures forall c :: c in trace[k].claims ==> NO_ID < c.token < trace[k].db.next
    ensures forall c, d :: c in trace[k].claims && d in trace[k].claims && c.token == d.token ==> c == d
  {
    hide Inv, Evolves, HeldOk, ClaimsOk, EngineStep, LoopStep, TurnStep, EngineEnabled, TurnEnabled;
    if k > 0 {
      TokensAreFresh(trace, ops, k - 1);
      AlwaysEvolves(trace, ops, k - 1, k);
      NextOnlyGrows(trace[k - 1].db, trace[k].db);
      assert Next(trace[k - 1], ops[k - 1], trace[k]);
      match ops[k - 1]
      case Engine(e) => HandedOutOnlyByClaim(trace[k - 1].db, e);
      case Loop(_) =>
      case Turns(t) => TurnsHandNothingOut(trace[k - 1], t);
    }
  }

  lemma NextOnlyGrows(db: Db, db': Db)
    requires Inv(db) && Evolves(db, db')
    ensures NO_ID < db.next <= db'.next
  {
    hide TasksEvolve, RunsEvolve, TurnsEvolve, TasksOk, RunsOk, TurnsOk, QueueOk, HistoryOk, HandoffsOk;
  }

  lemma HandedOutOnlyByClaim(db: Db, e: EngineOp)
    requires EngineEnabled(db, e)
    ensures var (db', c) := EngineStep(db, e); c.Some? ==> c.value.token == db.next && db'.next == db.next + 1
  {
    hide Submit, ReplyAsOperator, Approve, EngineSpec.Claim, Finish, Cancel, Reconcile, Freeze, EnrollDevice,
         AcceptEvent, ClaimEvent, SettleEvent, RetryEvent, EngineEnabled;
    if e.ClaimStep? { ClaimUsesToken(db, e); }
  }

  lemma TurnsHandNothingOut(s: System, t: TurnOp)
    requires TurnEnabled(s, t)
    ensures TurnStep(s, t).claims == s.claims
  {
    hide WriteHeld, LeaveToOperator, Submit, Readable, AfterSubmit, RecordTurn, Announceable, NotBefore, Appended,
         SettleAndOrder;
  }

  // -------------------------------------------------------------------------- every change

  /** The one operation that changed this task, and its cause at that moment. */
  ghost predicate TaskChangeCaused(db: Db, op: Op, t: Id, db': Db)
    requires t in db.tasks && t in db'.tasks
  {
    match op
    case Engine(e) =>
      (match e
       case DecideApproval(env, tid, pos, actor, approved, role, now) =>
         && tid == t && MayDecide(db, env, t, actor, approved, role, now) && Undecided(db, t, pos, now)
         && StepWritten(db, t, pos, Decided(db.tasks[t].steps[pos], actor, approved), db')
       case ClaimStep(_, _, _, _, _, _) => ClaimedTask(db, e, t, db'.tasks[t])
       case FinishStep(tid, pos, token, result, report, error, now) =>
         && tid == t && ClaimStands(db, t, pos, token, now) && pos < |db'.tasks[t].steps|
         && Reported(db.tasks[t].steps[pos], result, report, error, db'.tasks[t].steps[pos])
         && StepWritten(db, t, pos, db'.tasks[t].steps[pos], db')
       case CancelWork(env, tid, actor) =>
         && tid == t && env.authority("web", actor, {"owner", "operator"})
         && db.tasks[t].status !in {Succeeded, Failed, Cancelled}
         && StepsWritten(db.tasks[t], db'.tasks[t], (s, s') => CancelledStep(s, s'))
       case ReconcileStep(env, tid, pos, actor, role, succeeded, evidence) =>
         && tid == t && env.authority("web", actor, {"owner"}) && !Blank(evidence)
         && pos < |db.tasks[t].steps| && db.tasks[t].steps[pos].status.Uncertain?
         && StepWritten(db, t, pos, db.tasks[t].steps[pos].(status := if succeeded then Succeeded else Failed,
                                                           error := "operator_reconciled"), db')
       case FreezeTenant(env, stopped, actor) =>
         && stopped && db'.frozen && env.authority("web", actor, {"owner"})
         && StepsWritten(db.tasks[t], db'.tasks[t], (s, s') => FrozenStep(s, s'))
       case SetDevice(env, device, revoked, actor) =>
         && env.authority("web", actor, {"owner"})
         && StepsWritten(db.tasks[t], db'.tasks[t], (s, s') => UnboundStep(device, actor, s, s'))
       case _ => false)
    case Loop(l) =>
      && !l.CreateRun? && l.rid in db.runs && db.runs[l.rid].currentTask == t
      && ActiveRun(db.runs[l.rid].status) && l.rid in db'.runs && !ActiveRun(db'.runs[l.rid].status)
      && exists actor :: L.RetiredTask(db.tasks[t], db'.runs[l.rid].error, actor, db'.tasks[t])
    case Turns(_) => false
  }

  /** Main result: over any run, whenever a task changes, one operation did that, for a cause
      that held at that moment, and with the effect of that cause. */
  lemma TasksChangeForCause(trace: seq<System>, ops: seq<Op>, k: nat, t: Id)
    requires Behaviour(trace, ops) && k < |ops| && t in trace[k].db.tasks
    ensures t in trace[k + 1].db.tasks
    ensures trace[k + 1].db.tasks[t] != trace[k].db.tasks[t] ==>
              TaskChangeCaused(trace[k].db, ops[k], t, trace[k + 1].db)
  {
    hide Inv, HeldOk, ClaimsOk, EngineStep, LoopStep, TurnStep, EngineEnabled, TurnEnabled, TaskChangeCaused;
    AlwaysInv(trace, ops, k);
    assert Next(trace[k], ops[k], trace[k + 1]);
    match ops[k]
    case Engine(e) => EngineChanges(trace[k].db, e, t);
    case Loop(l) => LoopChangesTask(trace[k].db, l, t);
    case Turns(op) => TurnsLeaveTasks(trace[k], op, t);
  }

  lemma EngineChanges(db: Db, e: EngineOp, t: Id)
    requires Inv(db) && EngineEnabled(db, e) && t in db.tasks
    ensures t in EngineStep(db, e).0.tasks
    ensures EngineStep(db, e).0.tasks[t] != db.tasks[t] ==> TaskChangeCaused(db, Engine(e), t, EngineStep(db, e).0)
  {
    hide Inv, TaskChangeCaused, EngineEnabled, Submit, ReplyAsOperator, Approve, EngineSpec.Claim, Finish, Cancel,
         Reconcile, Freeze, EnrollDevice, AcceptEvent, ClaimEvent, SettleEvent, RetryEvent;
    match e
    case SubmitTask(env, channel, key, agent, plan, actor, now) =>
      SubmissionLeaves(db, env, channel, key, agent, plan, actor, now, t);
    case OperatorSends(env, channel, chat, text, actor, role, replyKey, agent, now) =>
      ReplyLeaves(db, env, channel, chat, text, actor, role, replyKey, agent, now, t);
    case DecideApproval(_, _, _, _, _, _, _) => DecisionChanges(db, e, t);
    case ClaimStep(_, _, _, _, _, _) =>
      ClaimChanges(db, e, t);
      if EngineStep(db, e).0.tasks[t] != db.tasks[t] { ClaimCauses(db, e, t, EngineStep(db, e).0); }
    case FinishStep(_, _, _, _, _, _, _) => ReportChanges(db, e, t);
    case CancelWork(_, _, _) => OperatorsChange(db, e, t);
    case ReconcileStep(_, _, _, _, _, _, _) => ReconcileChanges(db, e, t);
    case FreezeTenant(_, _, _) => OperatorsChange(db, e, t);
    case SetDevice(_, _, _, _) => OperatorsChange(db, e, t);
    case _ => P.EventsLeaveTasks(db, e);
  }

  lemma ClaimCauses(db: Db, e: EngineOp, t: Id, db': Db)
    requires e.ClaimStep? && t in db.tasks && t in db'.tasks && ClaimedTask(db, e, t, db'.tasks[t])
    ensures TaskChangeCaused(db, Engine(e), t, db')
  {
    hide ClaimedTask;
  }

  lemma DecisionChanges(db: Db, e: EngineOp, t: Id)
    requires e.DecideApproval? && t in db.tasks
    ensures t in EngineStep(db, e).0.tasks
    ensures EngineStep(db, e).0.tasks[t] != db.tasks[t] ==> TaskChangeCaused(db, Engine(e), t, EngineStep(db, e).0)
  {
    hide Approve, StepWritten, MayDecide, Undecided;
    ApproveByCause(db, e.env, e.tid, e.pos, e.actor, e.approved, e.role, e.now);
    if e.tid in db.tasks && Undecided(db, e.tid, e.pos, e.now) && EngineStep(db, e).0 != db {
      UndecidedHasApproval(db, e.tid, e.pos, e.now);
      WrittenAlone(db, e.tid, e.pos, Decided(db.tasks[e.tid].steps[e.pos], e.actor, e.approved), EngineStep(db, e).0,
                   t);
    }
  }

  lemma ReportChanges(db: Db, e: EngineOp, t: Id)
    requires e.FinishStep? && t in db.tasks
    ensures t in EngineStep(db, e).0.tasks
    ensures EngineStep(db, e).0.tasks[t] != db.tasks[t] ==> TaskChangeCaused(db, Engine(e), t, EngineStep(db, e).0)
  {
    hide Finish, StepWritten, ClaimStands, Reported;
    FinishByCause(db, e.tid, e.pos, e.token, e.result, e.report, e.error, e.now);
    var db' := EngineStep(db, e).0;
    if db' != db { WrittenAlone(db, e.tid, e.pos, db'.tasks[e.tid].steps[e.pos], db', t); }
  }

  lemma ReconcileChanges(db: Db, e: EngineOp, t: Id)
    requires e.ReconcileStep? && t in db.tasks
    ensures t in EngineStep(db, e).0.tasks
    ensures EngineStep(db, e).0.tasks[t] != db.tasks[t] ==> TaskChangeCaused(db, Engine(e), t, EngineStep(db, e).0)
  {
    hide Reconcile, StepWritten, Blank;
    ReconcileByCause(db, e.env, e.tid, e.pos, e.actor, e.role, e.succeeded, e.evidence);
    var db' := EngineStep(db, e).0;
    if db' != db {
      WrittenAlone(db, e.tid, e.pos, db.tasks[e.tid].steps[e.pos].(status := if e.succeeded then Succeeded else Failed,
                                                                   error := "operator_reconciled"), db', t);
    }
  }

  lemma OperatorsChange(db: Db, e: EngineOp, t: Id)
    requires (e.CancelWork? || e.FreezeTenant? || e.SetDevice?) && t in db.tasks
    ensures t in EngineStep(db, e).0.tasks
    ensures EngineStep(db, e).0.tasks[t] != db.tasks[t] ==> TaskChangeCaused(db, Engine(e), t, EngineStep(db, e).0)
  {
    hide Cancel, Freeze, EnrollDevice, StepsWritten;
    match e
    case CancelWork(env, tid, actor) => EngineCauses.CancelByCause(db, env, tid, actor);
    case FreezeTenant(env, stopped, actor) => FreezeByCause(db, env, stopped, actor);
    case SetDevice(env, device, revoked, actor) => EnrollByCause(db, env, device, revoked, actor);
  }

  lemma NextIsNew(db: Db)
    requires Inv(db)
    ensures db.next !in db.tasks
  {
  }

  lemma UndecidedHasApproval(db: Db, tid: Id, pos: nat, now: Time)
    requires Undecided(db, tid, pos, now)
    ensures tid in db.tasks && pos < |db.tasks[tid].steps| && db.tasks[tid].steps[pos].approval.Some?
  {
  }

  lemma WrittenAlone(db: Db, tid: Id, pos: nat, s: Step, db': Db, t: Id)
    requires StepWritten(db, tid, pos, s, db') && t in db.tasks
    ensures t in db'.tasks && (t != tid ==> db'.tasks[t] == db.tasks[t])
  {
  }

  lemma SubmissionLeaves(
    db: Db, env: Env, channel: string, key: Key, agent: string, plan: seq<Call>, actor: string, now: Time, t: Id)
    requires Inv(db) && t in db.tasks
    ensures var db' := Submit(db, env, channel, key, agent, plan, actor, now).db;
            t in db'.tasks && db'.tasks[t] == db.tasks[t]
  {
    hide Inv, TasksGood, Submit, InOrder, HasRoom, NewTask, KeyFree, OriginIs;
    TasksOfInv(db);
    NextIsNew(db);
    SubmitByCause(db, env, channel, key, agent, plan, actor, now);
    FreeOrHeld(db, channel, key);
  }

  lemma FreeOrHeld(db: Db, channel: string, key: Key)
    ensures !KeyFree(db, channel, key) ==>
              exists t :: t in db.tasks && db.tasks[t].channel == channel && db.tasks[t].key == key
  {
  }

  lemma ReplyLeaves(
    db: Db, env: Env, channel: string, chat: string, text: string, actor: string, role: string, replyKey: string,
    agent: string, now: Time, t: Id)
    requires Inv(db) && t in db.tasks
    ensures var db' := ReplyAsOperator(db, env, channel, chat, text, actor, role, replyKey, agent, now).db;
            t in db'.tasks && db'.tasks[t] == db.tasks[t]
  {
    hide Inv, TasksGood, ReplyAsOperator, HasRoom, NewTask, KeyFree, MayReply;
    TasksOfInv(db);
    NextIsNew(db);
    ReplyByCause(db, env, channel, chat, text, actor, role, replyKey, agent, now);
    FreeOrHeld(db, "operator", OperatorReply(replyKey));
    MayReplyOn(db, env, channel, chat, text, actor, role, replyKey, agent);
  }

  lemma MayReplyOn(
    db: Db, env: Env, channel: string, chat: string, text: string, actor: string, role: string, replyKey: string,
    agent: string)
    ensures MayReply(db, env, channel, chat, text, actor, role, replyKey, agent) ==>
              channel in OUTBOUND_CHANNELS && agent in env.policies
  {
    hide PlanPasses, KnownConversation, Blank;
  }

  /** A run that ends takes the steps of its current task with it, and nothing else. */
  lemma LoopChangesTask(db: Db, l: LoopOp, t: Id)
    requires Inv(db) && t in db.tasks
    ensures t in LoopStep(db, l).tasks
    ensures LoopStep(db, l).tasks[t] != db.tasks[t] ==> TaskChangeCaused(db, Loop(l), t, LoopStep(db, l))
  {
    hide Inv, Create, CancelRun, Reserve, Commit, L.RetiredRun, L.MayPlan, L.RetiresFor, L.Planned, L.MayConclude,
         L.MayRepair, L.EscalatesFor, L.CarriedOut, L.Repaired, L.NewRun, L.MayAsk;
    var db' := LoopStep(db, l);
    match l
    case CreateRun(env, key, q, now) =>
      L.CreateByCause(db, env, key, q, now);
    case AbandonRun(env, rid, actor) =>
      L.CancelByCause(db, env, rid, actor);
      if rid in db.runs && db' != db { RetiringCauses(db, l, RunCancelled, "operator_cancelled", actor, db', t); }
    case ReserveRun(env, rid, now, fits) =>
      L.ReserveByCause(db, env, rid, now, fits);
      if rid in db.runs {
        if L.MayPlan(db, env, db.runs[rid], now, fits) {
          PlannedLeavesTasks(db, rid, now, db');
        } else if status, reason :| L.RetiresFor(db, env, db.runs[rid], now, fits, status, reason) {
          RetiresLive(db, env, db.runs[rid], now, fits, status, reason);
          RetiringCauses(db, l, status, reason, LOOP_ACTOR, db', t);
        }
      }
    case CommitRun(env, rid, claim, d, repair, now, fits) =>
      L.CommitByCause(db, env, rid, claim, d, repair, now, fits);
      if rid in db.runs && db.runs[rid].status.Planning? && db.runs[rid].claim == claim {
        if L.MayConclude(db, env, rid, d, now, fits) {
          ConcludedDecision(db, env, rid, d, now, fits);
          CarryingLeaves(db, env, rid, d.value, now, db', t);
        } else if L.MayRepair(db, env, rid, d, repair, now, fits) {
          RepairedLeavesTasks(db, rid, now, db');
        } else {
          var reason :| L.EscalatesFor(db, env, rid, d, repair, now, fits, reason);
          RetiringCauses(db, l, Escalated, reason, LOOP_ACTOR, db', t);
        }
      }
  }

  lemma RetiringCauses(db: Db, l: LoopOp, status: RunStatus, reason: string, actor: string, db': Db, t: Id)
    requires !l.CreateRun? && l.rid in db.runs && ActiveRun(db.runs[l.rid].status) && !ActiveRun(status)
    requires L.RetiredRun(db, l.rid, status, reason, actor, db') && t in db.tasks
    ensures t in db'.tasks
    ensures db'.tasks[t] != db.tasks[t] ==> TaskChangeCaused(db, Loop(l), t, db')
  {
    hide L.RetiredTask;
  }

  lemma RetiresLive(db: Db, env: Env, run: Run, now: Time, fits: bool, status: RunStatus, reason: string)
    requires L.RetiresFor(db, env, run, now, fits, status, reason)
    ensures ActiveRun(run.status) && !ActiveRun(status)
  {
    hide L.HistorySucceeded, L.Standing, L.Ready, L.TaskEnded;
  }

  lemma PlannedLeavesTasks(db: Db, rid: Id, now: Time, db': Db)
    requires rid in db.runs && L.Planned(db, rid, now, db')
    ensures db'.tasks == db.tasks
  {
  }

  lemma RepairedLeavesTasks(db: Db, rid: Id, now: Time, db': Db)
    requires rid in db.runs && L.Repaired(db, rid, now, db')
    ensures db'.tasks == db.tasks
  {
  }

  lemma ConcludedDecision(db: Db, env: Env, rid: Id, d: Option<Decision>, now: Time, fits: bool)
    requires rid in db.runs && L.MayConclude(db, env, rid, d, now, fits)
    ensures d.Some?
  {
    hide L.HistorySucceeded, L.Acceptable;
  }

  lemma CarryingLeaves(db: Db, env: Env, rid: Id, d: Decision, now: Time, db': Db, t: Id)
    requires Inv(db) && rid in db.runs && L.CarriedOut(db, env, rid, d, now, db') && t in db.tasks
    ensures t in db'.tasks && db'.tasks[t] == db.tasks[t]
  {
    hide Inv, Submit;
    if d.UseTool? {
      var run := db.runs[rid];
      SubmissionLeaves(db, env, run.request.channel, RunStep(rid, run.steps), run.request.agent,
                       [Call(d.tool, d.args, "")], run.request.actor, now, t);
    }
  }

  /** Conversations add tasks, and change none. */
  lemma TurnsLeaveTasks(s: System, op: TurnOp, t: Id)
    requires Inv(s.db) && TurnEnabled(s, op) && t in s.db.tasks
    ensures var db' := TurnStep(s, op).db; t in db'.tasks && db'.tasks[t] == s.db.tasks[t]
  {
    hide Inv, WriteHeld, LeaveToOperator, Submit, Readable, AfterSubmit, RecordTurn, Announceable, NotBefore, Appended,
         SettleAndOrder;
    match op
    case RecordInbound(env, channel, event, agent, payload, now) =>
      RecordKeepsTasks(s.db, env, channel, event, agent, payload, now);
    case Write(h, now) => WriteHeldKeepsTasks(s.db, h, now);
    case WriteLeave(i) => LeavingKeepsTasks(s.db, i);
    case WriteSettle(env, i, reply, reason, orders, now) => SettleLeaves(s.db, env, i, reply, reason, orders, now, t);
    case Deliver(env, i, now) =>
      var turn := s.db.turns[i];
      SubmissionLeaves(s.db, env, turn.channel, External(turn.event), turn.agent,
                       [ReplyCall(turn.channel, turn.conversation, turn.reply)], turn.sender, now, t);
    case _ =>
  }

  lemma LeavingKeepsTasks(db: Db, i: nat)
    requires i < |db.turns|
    ensures LeaveToOperator(db, i).tasks == db.tasks
  {
  }

  lemma SettleLeaves(
    db: Db, env: Env, i: nat, reply: string, reason: string, orders: Orders, now: Time, t: Id)
    requires Inv(db) && i < |db.turns| && t in db.tasks
    ensures var db' := SettleAndOrder(db, env, i, reply, reason, orders, now);
            t in db'.tasks && db'.tasks[t] == db.tasks[t]
  {
    hide Inv, SettleTurn, HandOff, Submit, OrderDraft, PendingOrders, KeyTaken, HandoffStep;
    var turn := db.turns[i];
    if turn.status.TurnOpen? {
      SettleTouchesTurns(db, i, reply, reason);
      var mid := SettleTurn(db, i, reply, reason);
      var captured := CaptureOrder(mid, env, turn, orders, now);
      HandOffRecords(captured.db, turn, "order_pending");
      HandOffRecords(captured.db, turn, "order_rejected");
      var draft := OrderDraft(mid, turn, orders);
      if draft.Some? {
        OrderSubmitLeaves(db, mid, env, turn.channel, OrderKey(turn.event, orders), orders.agent,
                          [Call(ORDER_WRITE_TOOL, draft.value, "")], turn.sender, now, t);
      }
    }
  }

  lemma OrderSubmitLeaves(
    db: Db, mid: Db, env: Env, channel: string, key: Key, agent: string, plan: seq<Call>, actor: string, now: Time,
    t: Id)
    requires Inv(db) && mid == db.(turns := mid.turns, handoffs := mid.handoffs) && t in db.tasks
    ensures var db' := Submit(mid, env, channel, key, agent, plan, actor, now).db;
            t in db'.tasks && db'.tasks[t] == mid.tasks[t]
  {
    hide TasksOk, RunsOk, TurnsOk, QueueOk, HistoryOk, HandoffsOk, Submit, InOrder, HasRoom, NewTask, KeyFree, OriginIs;
    SubmitByCause(mid, env, channel, key, agent, plan, actor, now);
    FreeOrHeld(mid, channel, key);
  }
}
