/** Which turns are handed to a human: exactly the ones nobody else answered and the ones
    whose order was refused, with the one exception of a reply that a takeover suppressed. */
module Handoffs {
  import opened Basics
  import opened Authorization
  import opened Tasks
  import opened Store
  import opened EngineSpec
  import opened EngineProofs
  import opened AgentLoopSpec
  import opened AgentLoopProofs
  import opened ConversationSpec
  import opened ConversationProofs
  import opened OrderCapture
  import opened Protocol
  import opened Runs
  import opened TurnRuns

  /** The operation suppresses the turn's reply: it is about to be submitted, nobody has
      submitted it, and a human holds the chat. */
  ghost predicate Suppresses(db: Db, op: Op, i: nat) {
    && op.Turns? && op.t.Write? && op.t.held == ToDeliver(i)
    && i < |db.turns| && db.turns[i].status.TurnDelivering? && db.turns[i].task == NO_ID
    && TakenOver(db, ChatOf(db.turns[i]), op.t.now)
  }

  /** The operation settles the turn, and its order goes to an operator: the run drafted a
      valid order, no task has the order's key, and the sender's other order is still
      undecided or the submission is refused. */
  ghost predicate HandsOffOrder(db: Db, op: Op, i: nat) {
    && op.Turns? && op.t.WriteSettle? && op.t.turn == i
    && i < |db.turns| && db.turns[i].status.TurnOpen?
    && OrderRefusal(db, op.t.env, db.turns[i], op.t.orders, op.t.now).Some?
  }

  /** A turn that is about to be answered after the operation was so before, and neither
      gained nor lost a handoff; or the operation settled it without a reason against its
      reply, and it has a handoff exactly when its order was refused. */
  ghost predicate AnswerFollows(db: Db, op: Op, db': Db, i: nat)
    requires i < |db.turns| && i < |db'.turns|
  {
    var e := EventOf(db.turns[i]);
    || (&& Answering(db.turns[i]) && db'.turns[i].reply == db.turns[i].reply
        && (e in db'.handoffs <==> e in db.handoffs))
    || (&& db.turns[i].status.TurnOpen? && SettlesWith(op, i, db'.turns[i].reply)
        && (e in db'.handoffs <==> HandsOffOrder(db, op, i)))
  }

  /** The operation settles the turn with this reply and no reason against it. */
  ghost predicate SettlesWith(op: Op, i: nat, reply: string) {
    op.Turns? && op.t.WriteSettle? && op.t.turn == i && op.t.reply == reply && op.t.reason == ""
  }

  /** Where new turns, operator turns and handoffs come from: a turn is recorded waiting; it
      becomes an operator's without a handoff only by suppression, and only a turn that
      changes gains a handoff. */
  ghost predicate HandoffsFollow(db: Db, op: Op, db': Db) {
    && |db.turns| <= |db'.turns|
    && (forall i :: |db.turns| <= i < |db'.turns| ==> !Taken(db'.turns[i].status))
    && (forall i: nat :: i < |db.turns| && db'.turns[i].status.TurnOperator? && db'.turns[i] != db.turns[i] ==>
          (db.turns[i].status.TurnQueued? && db'.turns[i].error == db.turns[i].error) || Suppresses(db, op, i))
    && (forall i: nat :: i < |db.turns| && Answering(db'.turns[i]) && db'.turns[i] != db.turns[i] ==>
          AnswerFollows(db, op, db', i))
    && (forall e :: e in db'.handoffs && e !in db.handoffs ==>
          exists i :: 0 <= i < |db.turns| && EventOf(db.turns[i]) == e && db'.turns[i] != db.turns[i])
  }

  lemma QuietFollows(db: Db, op: Op, db': Db)
    requires db'.turns == db.turns && db'.handoffs == db.handoffs
    ensures HandoffsFollow(db, op, db')
  {
  }

  lemma OneTurnFollows(db: Db, op: Op, db': Db, i: nat)
    requires i < |db.turns| && |db'.turns| == |db.turns| && db'.turns == db.turns[i := db'.turns[i]]
    requires HandoffStep(db.handoffs, db'.handoffs, EventOf(db.turns[i]))
    requires db'.handoffs != db.handoffs ==> db'.turns[i] != db.turns[i]
    requires db'.turns[i].status.TurnOperator? && db'.turns[i] != db.turns[i] ==>
               (db.turns[i].status.TurnQueued? && db'.turns[i].error == db.turns[i].error) || Suppresses(db, op, i)
    requires Answering(db'.turns[i]) && db'.turns[i] != db.turns[i] ==> AnswerFollows(db, op, db', i)
    ensures HandoffsFollow(db, op, db')
  {
    hide Suppresses, HandoffsEvolve, AnswerFollows, Answering;
    forall j: nat | j < |db.turns| && db'.turns[j] != db.turns[j] ensures j == i {
    }
    forall e | e in db'.handoffs && e !in db.handoffs
      ensures exists j :: 0 <= j < |db.turns| && EventOf(db.turns[j]) == e && db'.turns[j] != db.turns[j]
    {
      assert EventOf(db.turns[i]) == e;
    }
  }

  lemma OpenFollows(db: Db, op: Op, i: nat, run: Id, error: string)
    requires i < |db.turns|
    ensures HandoffsFollow(db, op, OpenTurn(db, i, run, error).db)
  {
    hide HandoffsFollow, OpenTurns, HandoffStep, Suppresses;
    QuietFollows(db, op, db);
    SameHandoffs(db.handoffs);
    var turn := db.turns[i].(status := TurnOpen, run := run, error := error);
    OneTurnFollows(db, op, db.(turns := db.turns[i := turn]), i);
  }

  lemma LeaveFollows(db: Db, op: Op, i: nat)
    requires i < |db.turns|
    ensures HandoffsFollow(db, op, LeaveToOperator(db, i))
  {
    hide HandoffsFollow, HandoffStep, Suppresses, HandOff;
    QuietFollows(db, op, db);
    if db.turns[i].status.TurnQueued? {
      var mid := db.(turns := db.turns[i := db.turns[i].(status := TurnOperator)]);
      HandOffRecords(mid, db.turns[i], "operator_takeover");
      OneTurnFollows(db, op, LeaveToOperator(db, i), i);
    }
  }

  lemma SettleFollows(
    db: Db, env: Env, i: nat, reply: string, reason: string, orders: Orders, now: Time)
    requires Inv(db) && i < |db.turns|
    ensures HandoffsFollow(db, Turns(WriteSettle(env, i, reply, reason, orders, now)),
                           SettleAndOrder(db, env, i, reply, reason, orders, now))
  {
    hide Inv, HandoffsFollow, HandoffStep, Suppresses, SettleTurn, OrderRefusal, CaptureOrder, HandOff;
    var op := Turns(WriteSettle(env, i, reply, reason, orders, now));
    QuietFollows(db, op, db);
    if db.turns[i].status.TurnOpen? {
      hide SettleAndOrder;
      SettledOutcome(db, env, i, reply, reason, orders, now);
      OneTurnFollows(db, op, SettleAndOrder(db, env, i, reply, reason, orders, now), i);
    }
  }

  lemma SuppressFollows(db: Db, i: nat, now: Time)
    requires i < |db.turns|
    ensures HandoffsFollow(db, Turns(TurnOp.Write(ToDeliver(i), now)), SuppressReply(db, i, now).db)
  {
    hide HandoffsFollow, HandoffStep, TakenOver;
    var op := Turns(TurnOp.Write(ToDeliver(i), now));
    QuietFollows(db, op, db);
    SameHandoffs(db.handoffs);
    if TakenOver(db, ChatOf(db.turns[i]), now) && db.turns[i].status.TurnDelivering? && db.turns[i].task == NO_ID {
      var turn := db.turns[i].(status := TurnOperator, error := "operator_took_over");
      OneTurnFollows(db, op, db.(turns := db.turns[i := turn]), i);
    }
  }

  lemma AttachFollows(db: Db, op: Op, i: nat, task: Id)
    requires i < |db.turns|
    ensures HandoffsFollow(db, op, AttachTask(db, i, task))
  {
    hide HandoffsFollow, HandoffStep, Suppresses;
    QuietFollows(db, op, db);
    SameHandoffs(db.handoffs);
    if db.turns[i].status.TurnDelivering? {
      OneTurnFollows(db, op, db.(turns := db.turns[i := db.turns[i].(task := task)]), i);
    }
  }

  lemma GiveUpFollows(db: Db, op: Op, i: nat, status: TurnStatus, error: string)
    requires i < |db.turns| && (status.TurnFailed? || status.TurnUncertain?)
    ensures HandoffsFollow(db, op, GiveUp(db, i, status, error))
  {
    hide HandoffsFollow, HandoffStep, Suppresses, HandOff;
    QuietFollows(db, op, db);
    if db.turns[i].status.TurnDelivering? {
      var mid := db.(turns := db.turns[i := db.turns[i].(status := status, error := error)]);
      HandOffRecords(mid, db.turns[i], error);
      OneTurnFollows(db, op, GiveUp(db, i, status, error), i);
    }
  }

  lemma ClosingFollows(db: Db, op: Op, i: nat, observed: Status)
    requires i < |db.turns|
    ensures HandoffsFollow(db, op, CloseTurn(db, i, observed))
  {
    hide HandoffsFollow, HandoffStep, Suppresses, GiveUp, Appended, Lines;
    QuietFollows(db, op, db);
    SameHandoffs(db.handoffs);
    GiveUpFollows(db, op, i, TurnUncertain, "send_uncertain");
    GiveUpFollows(db, op, i, TurnFailed, if observed.Cancelled? then "send_cancelled" else "send_failed");
    if observed.Succeeded? && db.turns[i].status.TurnDelivering? {
      OneTurnFollows(db, op, CloseTurn(db, i, observed), i);
    }
  }

  lemma WritingFollows(db: Db, h: Held, now: Time)
    requires h.turn < |db.turns|
    ensures HandoffsFollow(db, Turns(TurnOp.Write(h, now)), WriteHeld(db, h, now))
  {
    hide HandoffsFollow, OpenTurn, SuppressReply, AttachTask, GiveUp, CloseTurn;
    var op := Turns(TurnOp.Write(h, now));
    match h
    case ToOpen(_) => QuietFollows(db, op, db);
    case ToOpenWith(i, run, error) => OpenFollows(db, op, i, run, error);
    case ToSettle(_, _, _) => QuietFollows(db, op, db);
    case ToDeliver(i) => SuppressFollows(db, i, now);
    case ToAttach(i, task) => AttachFollows(db, op, i, task);
    case ToFail(i, error) => GiveUpFollows(db, op, i, TurnFailed, error);
    case ToClose(i, observed) => ClosingFollows(db, op, i, observed);
  }

  lemma OneMoreFollows(db: Db, op: Op, db': Db)
    requires |db'.turns| == |db.turns| + 1 && db'.turns[..|db.turns|] == db.turns
    requires !Taken(db'.turns[|db.turns|].status) && db'.handoffs == db.handoffs
    ensures HandoffsFollow(db, op, db')
  {
    hide Suppresses;
    assert forall i: nat :: i < |db.turns| ==> db'.turns[i] == db'.turns[..|db.turns|][i];
  }

  lemma RecordingFollows(
    db: Db, op: Op, env: Env, channel: string, event: string, agent: string, p: Payload, now: Time)
    ensures HandoffsFollow(db, op, RecordTurn(db, env, channel, event, agent, p, now).db)
  {
    hide HandoffsFollow, WaitingTurns, Recorded, Identity, Lines, Appended, Newest;
    QuietFollows(db, op, db);
    var db' := RecordTurn(db, env, channel, event, agent, p, now).db;
    if db' != db {
      OneMoreFollows(db, op, db');
    }
  }

  lemma TurnsFollow(s: System, t: TurnOp)
    requires Inv(s.db) && TurnEnabled(s, t)
    ensures HandoffsFollow(s.db, Turns(t), TurnStep(s, t).db)
  {
    hide Inv, HandoffsFollow, WriteHeld, SettleAndOrder, RecordTurn, LeaveToOperator, Readable, Submit, AfterSubmit,
         Announceable, NotBefore, Appended, Lines;
    var db' := TurnStep(s, t).db;
    match t
    case RecordInbound(env, channel, event, agent, payload, now) =>
      RecordingFollows(s.db, Turns(t), env, channel, event, agent, payload, now);
    case Write(h, now) => WritingFollows(s.db, h, now);
    case WriteLeave(i) => LeaveFollows(s.db, Turns(t), i);
    case WriteSettle(env, i, reply, reason, orders, now) => SettleFollows(s.db, env, i, reply, reason, orders, now);
    case Deliver(env, i, now) =>
      ReplyKeepsTurns(s.db, env, i, now);
      QuietFollows(s.db, Turns(t), db');
    case _ => QuietFollows(s.db, Turns(t), db');
  }

  lemma RunFollows(trace: seq<System>, ops: seq<Op>, k: nat)
    requires Behaviour(trace, ops) && k < |ops|
    ensures HandoffsFollow(trace[k].db, ops[k], trace[k + 1].db)
  {
    hide Inv, HeldOk, ClaimsOk, EngineStep, LoopStep, TurnStep, EngineEnabled, TurnEnabled, HandoffsFollow,
         SameDispatches, Dispatched, DispatchFacts;
    AlwaysInv(trace, ops, k);
    assert Next(trace[k], ops[k], trace[k + 1]);
    match ops[k] {
      case Engine(e) =>
        EngineStepKeeps(trace[k].db, e);
        QuietFollows(trace[k].db, ops[k], trace[k + 1].db);
      case Loop(l) =>
        LoopStepKeeps(trace[k].db, l);
        QuietFollows(trace[k].db, ops[k], trace[k + 1].db);
      case Turns(t) =>
        TurnsFollow(trace[k], t);
    }
  }

  /** Nothing hands off a turn that is over. */
  lemma {:induction false} HandoffOfSettledIsFixed(trace: seq<System>, ops: seq<Op>, k: nat, i: nat, later: nat)
    requires Behaviour(trace, ops) && k <= later < |trace|
    requires i < |trace[k].db.turns| && Settled(trace[k].db.turns[i].status)
    ensures i < |trace[later].db.turns| && trace[later].db.turns[i] == trace[k].db.turns[i]
    ensures EventOf(trace[k].db.turns[i]) in trace[later].db.handoffs
       <==> EventOf(trace[k].db.turns[i]) in trace[k].db.handoffs
    decreases later - k
  {
    hide Behaviour, Inv, Evolves, TurnOk, Suppresses;
    if k < later {
      HandoffOfSettledIsFixed(trace, ops, k, i, later - 1);
      AlwaysEvolves(trace, ops, later - 1, later);
      TurnsEvolveOf(trace[later - 1].db, trace[later].db, i);
      HandoffsOnlyGrow(trace[later - 1].db, trace[later].db);
      RunFollowsAt(trace, ops, later - 1);
      EventsAreUnique(trace[later - 1].db, i);
    }
  }

  lemma RunFollowsAt(trace: seq<System>, ops: seq<Op>, k: nat)
    requires Behaviour(trace, ops) && k + 1 < |trace|
    ensures k < |ops| && HandoffsFollow(trace[k].db, ops[k], trace[k + 1].db)
  {
    hide HandoffsFollow, Next;
    RunFollows(trace, ops, k);
  }

  lemma HandoffsOnlyGrow(db: Db, db': Db)
    requires Evolves(db, db')
    ensures forall e :: e in db.handoffs ==> e in db'.handoffs
  {
    hide TasksEvolve, RunsEvolve, TurnsEvolve;
  }

  lemma EventsAreUnique(db: Db, i: nat)
    requires Inv(db) && i < |db.turns|
    ensures forall j :: 0 <= j < |db.turns| && EventOf(db.turns[j]) == EventOf(db.turns[i]) ==> j == i
  {
    hide TasksOk, RunsOk, QueueOk, HistoryOk, HandoffsOk, TurnOk;
    forall j | 0 <= j < |db.turns| && j != i ensures EventOf(db.turns[j]) != EventOf(db.turns[i]) {
      assert (db.turns[if j < i then j else i].channel, db.turns[if j < i then j else i].event)
          != (db.turns[if j < i then i else j].channel, db.turns[if j < i then i else j].event);
    }
  }

  lemma HandedOffOrderStays(trace: seq<System>, ops: seq<Op>, j: nat, i: nat, k: nat)
    requires Behaviour(trace, ops) && j < |ops| && j < k < |trace| && HandsOffOrder(trace[j].db, ops[j], i)
    ensures i < |trace[j].db.turns| && i < |trace[k].db.turns|
    ensures EventOf(trace[k].db.turns[i]) == EventOf(trace[j].db.turns[i])
    ensures EventOf(trace[j].db.turns[i]) in trace[k].db.handoffs
  {
    hide Inv, Evolves, HeldOk, ClaimsOk, SettleAndOrder, OrderRefusal, HandoffStep, Settled, TurnOk;
    AlwaysInv(trace, ops, j);
    assert Next(trace[j], ops[j], trace[j + 1]);
    var t := ops[j].t;
    SettledOutcome(trace[j].db, t.env, i, t.reply, t.reason, t.orders, t.now);
    AlwaysEvolves(trace, ops, j, k);
    AlwaysEvolves(trace, ops, j + 1, k);
    TurnsEvolveOf(trace[j].db, trace[k].db, i);
    HandoffsOnlyGrow(trace[j + 1].db, trace[k].db);
  }

  /** The order of this turn was handed off before this point of the run. */
  ghost predicate OrderWasHandedOff(trace: seq<System>, ops: seq<Op>, i: nat, k: nat)
    requires k <= |ops| && |trace| == |ops| + 1
  {
    exists j :: 0 <= j < k && HandsOffOrder(trace[j].db, ops[j], i)
  }

  /** Main result: a turn that its run answers has a handoff if and only if, when it was
      settled, its order was refused. */
  lemma {:induction false} AnsweredHandoffIff(trace: seq<System>, ops: seq<Op>, k: nat, i: nat)
    requires Behaviour(trace, ops) && k < |trace| && i < |trace[k].db.turns| && Answering(trace[k].db.turns[i])
    ensures k <= |ops|
    ensures EventOf(trace[k].db.turns[i]) in trace[k].db.handoffs <==> OrderWasHandedOff(trace, ops, i, k)
  {
    hide Inv, Evolves, HandsOffOrder, Next, HeldOk, ClaimsOk, Suppresses;
    TraceLength(trace, ops);
    if j :| 0 <= j < k && HandsOffOrder(trace[j].db, ops[j], i) {
      HandedOffOrderStays(trace, ops, j, i, k);
    } else if k == 0 {
      EmptyHasNoTurns(trace, ops);
    } else {
      AlwaysEvolves(trace, ops, k - 1, k);
      RunFollowsAt(trace, ops, k - 1);
      if i < |trace[k - 1].db.turns| {
        TurnsEvolveOf(trace[k - 1].db, trace[k].db, i);
        EventsAreUnique(trace[k - 1].db, i);
        if Answering(trace[k - 1].db.turns[i]) {
          AnsweredHandoffIff(trace, ops, k - 1, i);
        }
      }
    }
  }

  /** A turn that its run answers was settled, while open, with that very reply. */
  lemma {:induction false} AnswerWasSettled(trace: seq<System>, ops: seq<Op>, k: nat, i: nat) returns (w: nat)
    requires Behaviour(trace, ops) && k < |trace| && i < |trace[k].db.turns| && Answering(trace[k].db.turns[i])
    ensures w < k && w < |ops| && SettlesWith(ops[w], i, trace[k].db.turns[i].reply)
    ensures i < |trace[w].db.turns| && trace[w].db.turns[i].status.TurnOpen?
    ensures trace[w].db.turns[i].run == trace[k].db.turns[i].run
  {
    hide Inv, Evolves, HandsOffOrder, Next, HeldOk, ClaimsOk, Suppresses, TurnOk;
    w := 0;
    if k == 0 {
      EmptyHasNoTurns(trace, ops);
    } else {
      AlwaysEvolves(trace, ops, k - 1, k);
      RunFollowsAt(trace, ops, k - 1);
      assert i < |trace[k - 1].db.turns|;
      TurnsEvolveOf(trace[k - 1].db, trace[k].db, i);
      if trace[k - 1].db.turns[i] == trace[k].db.turns[i] || Answering(trace[k - 1].db.turns[i]) {
        w := AnswerWasSettled(trace, ops, k - 1, i);
      } else {
        w := k - 1;
      }
    }
  }

  /** The operation settles the turn, whose run drafted a valid order. */
  ghost predicate SettlesWithOrder(db: Db, op: Op, i: nat) {
    && op.Turns? && op.t.WriteSettle? && op.t.turn == i
    && i < |db.turns| && db.turns[i].status.TurnOpen? && OrderDraft(db, db.turns[i], op.t.orders).Some?
  }

  /** Main result: no order is lost. Once a turn is settled whose run drafted a valid order, a
      task has the order's key for ever, or the turn has a handoff for ever; and right after
      settling there is a task if and only if the order was not handed off. */
  lemma NoOrderLost(trace: seq<System>, ops: seq<Op>, j: nat, i: nat, k: nat)
    requires Behaviour(trace, ops) && j < |ops| && j < k < |trace| && SettlesWithOrder(trace[j].db, ops[j], i)
    ensures var turn := trace[j].db.turns[i];
            var key := OrderKey(turn.event, ops[j].t.orders);
            && (KeyTaken(trace[j + 1].db, turn.channel, key) <==> !HandsOffOrder(trace[j].db, ops[j], i))
            && (KeyTaken(trace[k].db, turn.channel, key) || EventOf(turn) in trace[k].db.handoffs)
  {
    hide Inv, Evolves, HeldOk, ClaimsOk, SettleAndOrder, OrderRefusal, OrderDraft, KeyTaken;
    AlwaysInv(trace, ops, j);
    assert Next(trace[j], ops[j], trace[j + 1]);
    var t, turn := ops[j].t, trace[j].db.turns[i];
    SettledOrder(trace[j].db, t.env, i, t.reply, t.reason, t.orders, t.now);
    if HandsOffOrder(trace[j].db, ops[j], i) {
      HandedOffOrderStays(trace, ops, j, i, k);
    } else {
      AlwaysEvolves(trace, ops, j + 1, k);
      KeyStaysTaken(trace[j + 1].db, trace[k].db, turn.channel, OrderKey(turn.event, t.orders));
    }
  }

  lemma KeyStaysTaken(db: Db, db': Db, channel: string, key: Key)
    requires Evolves(db, db') && KeyTaken(db, channel, key)
    ensures KeyTaken(db', channel, key)
  {
    hide RunsEvolve, TurnsEvolve, EventsEvolve, HandoffsEvolve;
    var t :| t in db.tasks && db.tasks[t].channel == channel && db.tasks[t].key == key;
    assert TaskEvolves(db.tasks[t], db'.tasks[t]);
  }

  /** Main result: a turn whose reply a takeover suppressed has a handoff, then and for ever,
      if and only if its reply had been settled with a reason against it or its order was
      refused when it was settled. */
  lemma SuppressedHandoffIff(trace: seq<System>, ops: seq<Op>, k: nat, i: nat, later: nat)
    requires Behaviour(trace, ops) && k < |ops| && k < later < |trace| && Suppresses(trace[k].db, ops[k], i)
    ensures i < |trace[later].db.turns| && trace[later].db.turns[i].status.TurnOperator?
    ensures trace[later].db.turns[i].error == "operator_took_over"
    ensures EventOf(trace[k].db.turns[i]) in trace[later].db.handoffs
       <==> trace[k].db.turns[i].error != "" || OrderWasHandedOff(trace, ops, i, k)
  {
    hide Inv, Evolves, Enabled, HeldOk, TakenOver, HandsOffOrder;
    AlwaysInv(trace, ops, k);
    assert Next(trace[k], ops[k], trace[k + 1]);
    assert trace[k + 1].db == SuppressReply(trace[k].db, i, ops[k].t.now).db;
    HandoffOfSettledIsFixed(trace, ops, k + 1, i, later);
    if trace[k].db.turns[i].error == "" {
      AnsweredHandoffIff(trace, ops, k, i);
    } else {
      StillHandedOff(trace[k].db, i);
    }
  }

  /** An operator's turn that carries an error got it by suppression. */
  lemma {:induction false} OperatorErrorIsSuppression(trace: seq<System>, ops: seq<Op>, k: nat, i: nat) returns (j: nat)
    requires Behaviour(trace, ops) && k < |trace| && i < |trace[k].db.turns|
    requires trace[k].db.turns[i].status.TurnOperator? && trace[k].db.turns[i].error != ""
    ensures j < k && j < |ops| && Suppresses(trace[j].db, ops[j], i)
  {
    hide Inv, Evolves, Suppresses, Next, HeldOk, ClaimsOk;
    j := 0;
    if k == 0 {
      EmptyHasNoTurns(trace, ops);
    } else {
      AlwaysEvolves(trace, ops, k - 1, k);
      RunFollowsAt(trace, ops, k - 1);
      if i >= |trace[k - 1].db.turns| {
        assert false;
      } else if trace[k - 1].db.turns[i] == trace[k].db.turns[i] {
        j := OperatorErrorIsSuppression(trace, ops, k - 1, i);
      } else {
        j := k - 1;
        if trace[k - 1].db.turns[i].status.TurnQueued? {
          QueuedHasNoError(trace[k - 1].db, i);
        }
        TurnsEvolveOf(trace[k - 1].db, trace[k].db, i);
      }
    }
  }

  lemma QueuedHasNoError(db: Db, i: nat)
    requires Inv(db) && i < |db.turns| && db.turns[i].status.TurnQueued?
    ensures db.turns[i].error == ""
  {
    hide TasksOk, RunsOk, QueueOk, HistoryOk, HandoffsOk;
    assert TurnOk(db.tasks, db.runs, db.turns[i]);
  }

  lemma EmptyHasNoTurns(trace: seq<System>, ops: seq<Op>)
    requires Behaviour(trace, ops)
    ensures trace[0].db.turns == []
  {
  }

  /** Main result: nobody is forgotten, and nobody is handed off needlessly. A throttled turn
      has no handoff. One delivered with its run's own answer has one exactly when its order
      was refused. One whose reply a takeover suppressed has one exactly when the reply had
      been settled with a reason or its order was refused. Any other turn that is over has
      one. So it stays. */
  lemma NobodyForgotten(trace: seq<System>, ops: seq<Op>, k: nat, i: nat, later: nat)
    requires Behaviour(trace, ops) && k <= later < |trace|
    requires i < |trace[k].db.turns| && Settled(trace[k].db.turns[i].status)
    ensures i < |trace[later].db.turns| && trace[later].db.turns[i] == trace[k].db.turns[i]
    ensures k <= |ops|
    ensures var turn, handedOff := trace[k].db.turns[i], EventOf(trace[k].db.turns[i]) in trace[later].db.handoffs;
            if turn.status.TurnThrottled? then !handedOff
            else if turn.status.TurnDelivered? && turn.error == "" then
              && Answered(trace[later].db.runs, turn.run, turn.reply)
              && (handedOff <==> OrderWasHandedOff(trace, ops, i, k))
            else if turn.status.TurnOperator? && turn.error != "" then
              exists j :: 0 <= j < k && Suppresses(trace[j].db, ops[j], i)
                && (handedOff <==> trace[j].db.turns[i].error != "" || OrderWasHandedOff(trace, ops, i, j))
            else handedOff
  {
    hide Behaviour, Inv, Evolves, Answered, Suppresses, TurnOk, OrderWasHandedOff;
    TraceLength(trace, ops);
    HandoffOfSettledIsFixed(trace, ops, k, i, later);
    AlwaysEvolves(trace, ops, k, later);
    var turn := trace[k].db.turns[i];
    if turn.status.TurnOperator? && turn.error != "" {
      var j := OperatorErrorIsSuppression(trace, ops, k, i);
      AlwaysEvolves(trace, ops, j, k);
      SuppressedHandoffIff(trace, ops, j, i, later);
      SuppressedIsTurn(trace, ops, j, i, k);
    } else if turn.status.TurnDelivered? && turn.error == "" {
      AnsweredHandoffIff(trace, ops, k, i);
      DeliveredIsAnswered(trace[later].db, i);
    } else if turn.status.TurnThrottled? {
      NobodyYet(trace[k].db, i);
    } else {
      StillHandedOff(trace[k].db, i);
    }
  }

  lemma SuppressedIsTurn(trace: seq<System>, ops: seq<Op>, j: nat, i: nat, k: nat)
    requires Behaviour(trace, ops) && j < |ops| && j <= k < |trace| && Suppresses(trace[j].db, ops[j], i)
    ensures i < |trace[j].db.turns| && i < |trace[k].db.turns|
    ensures EventOf(trace[j].db.turns[i]) == EventOf(trace[k].db.turns[i])
  {
    hide Behaviour, Inv, Evolves, TakenOver, TurnOk;
    AlwaysEvolves(trace, ops, j, k);
    TurnsEvolveOf(trace[j].db, trace[k].db, i);
  }

  lemma DeliveredIsAnswered(db: Db, i: nat)
    requires Inv(db) && i < |db.turns| && db.turns[i].status.TurnDelivered? && db.turns[i].error == ""
    ensures Answered(db.runs, db.turns[i].run, db.turns[i].reply)
  {
    hide TasksOk, RunsOk, QueueOk, HistoryOk, HandoffsOk;
    assert TurnOk(db.tasks, db.runs, db.turns[i]);
  }
}
