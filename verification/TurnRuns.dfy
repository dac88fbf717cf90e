/** What every run of the system keeps about conversations: one turn at a time, in
    order, one reply per event, and a human for every turn the agent did not answer. */
module TurnRuns {
  import opened Basics
  import opened Authorization
  import opened Tasks
  import opened Store
  import opened EngineSpec
  import opened EngineProofs
  import opened AgentLoopSpec
  import opened AgentLoopProofs
  import opened ConversationSpec
  import opened ConversationProofs
  import opened OrderCapture
  import opened Protocol
  import opened Runs

  /** Over for good: answered, handed off, suppressed, or never queued. */
  predicate Settled(s: TurnStatus) { !s.TurnQueued? && !Busy(s) }

  lemma TurnsEvolveOf(db: Db, db': Db, i: nat)
    requires Inv(db) && Inv(db') && Evolves(db, db') && i < |db.turns|
    ensures i < |db'.turns| && TurnEvolves(db.turns[i], db'.turns[i])
    ensures TurnOk(db.tasks, db.runs, db.turns[i]) && TurnOk(db'.tasks, db'.runs, db'.turns[i])
  {
    hide TasksOk, RunsOk, QueueOk, HistoryOk, HandoffsOk, TasksEvolve, RunsEvolve, TurnOk, TurnEvolves;
  }

  /** Main result: at every point of a run, at most one turn of a conversation is open or
      delivering, and at most twenty turns of the tenant are open. */
  lemma OneBusyTurn(trace: seq<System>, ops: seq<Op>, k: nat, i: nat, j: nat)
    requires Behaviour(trace, ops) && k < |trace|
    requires i < |trace[k].db.turns| && j < |trace[k].db.turns|
    requires SameChat(trace[k].db.turns[i], trace[k].db.turns[j])
    requires Busy(trace[k].db.turns[i].status) && Busy(trace[k].db.turns[j].status)
    ensures i == j
    ensures |OpenTurns(trace[k].db.turns)| <= MAX_OPEN_TURNS
  {
    hide Behaviour, HeldOk, ClaimsOk, TasksOk, RunsOk, TurnsOk, HistoryOk, HandoffsOk, OpenTurns;
    AlwaysInv(trace, ops, k);
  }

  /** Main result: turns of a conversation are taken in recorded order. Once a turn has
      left the queue, every turn recorded before it in its conversation is over, and
      nothing that happens later changes it. */
  lemma TakenInOrder(trace: seq<System>, ops: seq<Op>, k: nat, i: nat, j: nat, later: nat)
    requires Behaviour(trace, ops) && k <= later < |trace|
    requires i < j < |trace[k].db.turns| && SameChat(trace[k].db.turns[i], trace[k].db.turns[j])
    requires Taken(trace[k].db.turns[j].status)
    ensures Settled(trace[k].db.turns[i].status)
    ensures i < |trace[later].db.turns| && trace[later].db.turns[i] == trace[k].db.turns[i]
  {
    hide Behaviour, TasksOk, RunsOk, TurnsOk, HistoryOk, HandoffsOk, OpenTurns, Evolves;
    AlwaysEvolves(trace, ops, k, later);
    TurnsEvolveOf(trace[k].db, trace[later].db, i);
  }

  // ------------------------------------------------------------ one reply per event

  predicate SameEvent(a: Turn, b: Turn) { a.channel == b.channel && a.event == b.event }

  /** Main result: one reply per event. A delivered turn is the only turn of its event and
      its task the only task under the event's key; that task has succeeded, and both stay
      as they are in every later state. */
  lemma DeliveredForGood(trace: seq<System>, ops: seq<Op>, k: nat, i: nat, later: nat)
    requires Behaviour(trace, ops) && k <= later < |trace|
    requires i < |trace[k].db.turns| && trace[k].db.turns[i].status.TurnDelivered?
    ensures var turn := trace[k].db.turns[i];
            var db := trace[later].db;
            && i < |db.turns| && db.turns[i] == turn
            && turn.task in db.tasks && db.tasks[turn.task].status == Succeeded
            && db.tasks[turn.task].channel == turn.channel && db.tasks[turn.task].key == External(turn.event)
            && (forall t :: t in db.tasks && SameKey(db.tasks[t], db.tasks[turn.task]) ==> t == turn.task)
            && (forall j :: 0 <= j < |db.turns| && SameEvent(db.turns[j], turn) ==> j == i)
  {
    hide Behaviour, Inv, Evolves;
    AlwaysEvolves(trace, ops, k, later);
    TurnsEvolveOf(trace[k].db, trace[later].db, i);
    KeysAreUnique(trace[later].db);
  }

  lemma KeysAreUnique(db: Db)
    requires Inv(db)
    ensures forall t, u :: t in db.tasks && u in db.tasks && SameKey(db.tasks[t], db.tasks[u]) ==> t == u
    ensures forall i, j :: 0 <= i < j < |db.turns| ==>
              (db.turns[i].channel, db.turns[i].event) != (db.turns[j].channel, db.turns[j].event)
  {
    hide RunsOk, QueueOk, HistoryOk, HandoffsOk, TaskOk, DestinationBound;
  }

  /** A delivery attempt that got a task back. */
  ghost predicate Submits(s: System, op: Op, i: nat, task: Id) {
    && op.Turns? && op.t.Deliver? && op.t.turn == i && Enabled(s, op)
    && SubmitReply(s.db, op.t.env, s.db.turns[i], op.t.now).out == Ok(task)
  }

  /** A crash between submission and attachment, or a second worker delivering the same
      turn, submits again and is given the task it already has. */
  lemma DuplicateDeliveriesAgree(
    trace: seq<System>, ops: seq<Op>, k: nat, i: nat, task: Id, later: nat, task': Id)
    requires Behaviour(trace, ops) && k < later < |ops|
    requires Submits(trace[k], ops[k], i, task) && Submits(trace[later], ops[later], i, task')
    ensures task' == task
  {
    hide Inv, Evolves, Submit, TaskOk, StepEvolves, Next, Submits;
    ReplyHasItsKey(trace, ops, k, i, task);
    ReplyHasItsKey(trace, ops, later, i, task');
    AlwaysEvolves(trace, ops, k, later);
    AlwaysEvolves(trace, ops, k + 1, later + 1);
    TurnsEvolveOf(trace[k].db, trace[later].db, i);
    TasksEvolveOf(trace[k + 1].db, trace[later + 1].db);
    OneTaskEvolves(trace[k + 1].db.tasks, trace[later + 1].db.tasks, task);
    KeysAreUnique(trace[later + 1].db);
  }

  lemma ReplyHasItsKey(trace: seq<System>, ops: seq<Op>, k: nat, i: nat, task: Id)
    requires Behaviour(trace, ops) && k < |ops| && Submits(trace[k], ops[k], i, task)
    ensures i < |trace[k].db.turns| && task in trace[k + 1].db.tasks
    ensures var turn := trace[k].db.turns[i];
            trace[k + 1].db.tasks[task].channel == turn.channel
            && trace[k + 1].db.tasks[task].key == External(turn.event)
  {
    hide Submit, AfterSubmit, EngineStep, LoopStep;
    assert Next(trace[k], ops[k], trace[k + 1]);
    var turn := trace[k].db.turns[i];
    SubmittedTask(trace[k].db, ops[k].t.env, turn.channel, External(turn.event), turn.agent,
                  [ReplyCall(turn.channel, turn.conversation, turn.reply)], turn.sender, ops[k].t.now);
  }

  // ------------------------------------------------------------------ agent lines

  /** The turn becomes delivered. */
  predicate Delivers(db: Db, db': Db, i: nat) {
    && i < |db.turns| && i < |db'.turns|
    && !db.turns[i].status.TurnDelivered? && db'.turns[i].status.TurnDelivered?
  }

  /** The newest line of the conversation is new, and the agent's. */
  ghost predicate AgentLineJoins(db: Db, db': Db, chat: Chat) {
    var lines, lines' := Lines(db.history, chat), Lines(db'.history, chat);
    lines' != lines && lines' != [] && lines'[|lines'| - 1].role.AgentLine?
  }

  /** An agent line joins exactly the conversations whose turn was delivered just now, and
      it is the delivered reply. */
  ghost predicate LinesFollowDeliveries(db: Db, db': Db) {
    && (forall chat :: AgentLineJoins(db, db', chat) ==>
          exists i: nat :: Delivers(db, db', i) && ChatOf(db.turns[i]) == chat)
    && (forall i: nat :: Delivers(db, db', i) ==>
          var turn := db.turns[i];
          && AgentLineJoins(db, db', ChatOf(turn))
          && Lines(db'.history, ChatOf(turn)) == Appended(Lines(db.history, ChatOf(turn)), AgentLine, turn.reply))
    && (forall i :: |db.turns| <= i < |db'.turns| ==> !db'.turns[i].status.TurnDelivered?)
  }

  predicate NoneDelivered(turns: seq<Turn>, turns': seq<Turn>) {
    |turns| <= |turns'|
    && forall i :: 0 <= i < |turns'| && turns'[i].status.TurnDelivered? ==>
         i < |turns| && turns[i].status.TurnDelivered?
  }

  lemma NewestLine(lines: seq<Line>, role: Role, text: string)
    requires lines == [] || Window(lines)
    ensures var lines' := Appended(lines, role, text);
            lines' != [] && lines' != lines
            && lines'[|lines'| - 1] == Line(Newest(lines) + 1, role, Cut(text, MAX_RUN_INPUT_CHARS))
  {
    hide Appended, After;
    AppendedIsWindow(lines, role, text);
  }

  /** Another speaker's line is no agent line, wherever it joins. */
  lemma OtherLines(db: Db, db': Db, chat: Chat, role: Role, text: string)
    requires HistoryOk(db.history, db.turns) && role != AgentLine
    requires db'.history == db.history[chat := Appended(Lines(db.history, chat), role, text)]
    requires NoneDelivered(db.turns, db'.turns)
    ensures LinesFollowDeliveries(db, db')
  {
    hide Appended, Window;
    NewestLine(Lines(db.history, chat), role, text);
  }

  lemma QuietWrite(db: Db, db': Db)
    requires db'.history == db.history && NoneDelivered(db.turns, db'.turns)
    ensures LinesFollowDeliveries(db, db')
  {
  }

  lemma CloseFollows(db: Db, i: nat, observed: Status)
    requires HistoryOk(db.history, db.turns) && i < |db.turns|
    ensures LinesFollowDeliveries(db, CloseTurn(db, i, observed))
  {
    hide Appended, Window, GiveUp;
    var db' := CloseTurn(db, i, observed);
    if !observed.Succeeded? {
      GiveUpIsQuiet(db, i, TurnUncertain, "send_uncertain");
      GiveUpIsQuiet(db, i, TurnFailed, if observed.Cancelled? then "send_cancelled" else "send_failed");
      QuietWrite(db, db');
    } else if db.turns[i].status.TurnDelivering? {
      DeliveryFollows(db, db', i);
    }
  }

  lemma DeliveryFollows(db: Db, db': Db, i: nat)
    requires HistoryOk(db.history, db.turns) && i < |db.turns| && db.turns[i].status.TurnDelivering?
    requires var turn := db.turns[i];
             db' == WithLine(db.(turns := db.turns[i := turn.(status := TurnDelivered)]), ChatOf(turn), AgentLine,
                             turn.reply)
    ensures LinesFollowDeliveries(db, db')
  {
    hide Appended, Window;
    NewestLine(Lines(db.history, ChatOf(db.turns[i])), AgentLine, db.turns[i].reply);
    assert Delivers(db, db', i);
  }

  lemma OneTurnQuiet(turns: seq<Turn>, i: nat, turn: Turn)
    requires i < |turns| && !turn.status.TurnDelivered?
    ensures NoneDelivered(turns, turns[i := turn])
  {
  }

  lemma GiveUpIsQuiet(db: Db, i: nat, status: TurnStatus, error: string)
    requires i < |db.turns| && !status.TurnDelivered?
    ensures var db' := GiveUp(db, i, status, error);
            db'.history == db.history && NoneDelivered(db.turns, db'.turns)
  {
  }

  lemma SettleIsQuiet(db: Db, env: Env, i: nat, reply: string, reason: string, orders: Orders, now: Time)
    requires Inv(db) && i < |db.turns|
    ensures var db' := SettleAndOrder(db, env, i, reply, reason, orders, now);
            db'.history == db.history && NoneDelivered(db.turns, db'.turns)
  {
    hide Inv, NoneDelivered, SettleTurn, CaptureOrder, HandoffStep, OrderRefusal;
    NothingDelivered(db.turns);
    if db.turns[i].status.TurnOpen? {
      hide SettleAndOrder;
      SettledOutcome(db, env, i, reply, reason, orders, now);
      OneTurnQuiet(db.turns, i, db.turns[i].(status := TurnDelivering, reply := reply, error := reason));
    }
  }

  lemma OpenIsQuiet(db: Db, i: nat, run: Id, error: string)
    requires i < |db.turns|
    ensures var db' := OpenTurn(db, i, run, error).db;
            db'.history == db.history && NoneDelivered(db.turns, db'.turns)
  {
    hide OpenTurns, NoneDelivered;
    NothingDelivered(db.turns);
    OneTurnQuiet(db.turns, i, db.turns[i].(status := TurnOpen, run := run, error := error));
  }

  lemma LeaveIsQuiet(db: Db, i: nat)
    requires i < |db.turns|
    ensures var db' := LeaveToOperator(db, i);
            db'.history == db.history && NoneDelivered(db.turns, db'.turns)
  {
  }

  lemma WriteFollows(db: Db, h: Held, now: Time)
    requires HistoryOk(db.history, db.turns) && h.turn < |db.turns|
    ensures LinesFollowDeliveries(db, WriteHeld(db, h, now))
  {
    hide LinesFollowDeliveries, CloseTurn, OpenTurn, GiveUp, HistoryOk, NoneDelivered, SuppressReply,
         AttachTask;
    match h
    case ToClose(i, observed) => CloseFollows(db, i, observed);
    case ToOpenWith(i, run, error) =>
      OpenIsQuiet(db, i, run, error);
      QuietWrite(db, OpenTurn(db, i, run, error).db);
    case ToFail(i, error) =>
      GiveUpIsQuiet(db, i, TurnFailed, error);
      QuietWrite(db, GiveUp(db, i, TurnFailed, error));
    case ToDeliver(i) =>
      SuppressIsQuiet(db, i, now);
      QuietWrite(db, SuppressReply(db, i, now).db);
    case ToAttach(i, task) =>
      AttachIsQuiet(db, i, task);
      QuietWrite(db, AttachTask(db, i, task));
    case _ =>
      NothingDelivered(db.turns);
      QuietWrite(db, db);
  }

  lemma NothingDelivered(turns: seq<Turn>)
    ensures NoneDelivered(turns, turns)
  {
  }

  lemma SuppressIsQuiet(db: Db, i: nat, now: Time)
    requires i < |db.turns|
    ensures var db' := SuppressReply(db, i, now).db;
            db'.history == db.history && NoneDelivered(db.turns, db'.turns)
  {
    hide NoneDelivered, TakenOver;
    NothingDelivered(db.turns);
    OneTurnQuiet(db.turns, i, db.turns[i].(status := TurnOperator, error := "operator_took_over"));
  }

  lemma AttachIsQuiet(db: Db, i: nat, task: Id)
    requires i < |db.turns|
    ensures var db' := AttachTask(db, i, task);
            db'.history == db.history && NoneDelivered(db.turns, db'.turns)
  {
    hide NoneDelivered;
    NothingDelivered(db.turns);
    if db.turns[i].status.TurnDelivering? {
      OneTurnQuiet(db.turns, i, db.turns[i].(task := task));
    }
  }

  lemma TurnStepFollows(s: System, op: TurnOp)
    requires Inv(s.db) && TurnEnabled(s, op)
    ensures LinesFollowDeliveries(s.db, TurnStep(s, op).db)
  {
    hide Inv, LinesFollowDeliveries, WriteHeld, HistoryOk, HandoffsOk, Appended, LeaveToOperator, Readable, Submit,
         AfterSubmit, Announceable, NotBefore, QueueOk, TurnOk, SettleAndOrder;
    PartsOfInv(s.db);
    var db' := TurnStep(s, op).db;
    match op
    case RecordInbound(env, channel, event, agent, payload, now) =>
      RecordFollows(s.db, env, channel, event, agent, payload, now);
    case Announce(tid, minutes, now) => AnnounceFollows(s.db, tid, minutes, now);
    case Write(h, now) => WriteFollows(s.db, h, now);
    case WriteLeave(i) =>
      LeaveIsQuiet(s.db, i);
      QuietWrite(s.db, db');
    case WriteSettle(env, i, reply, reason, orders, now) =>
      SettleIsQuiet(s.db, env, i, reply, reason, orders, now);
      QuietWrite(s.db, db');
    case Deliver(env, i, now) =>
      ReplyKeepsTurns(s.db, env, i, now);
      QuietWrite(s.db, db');
    case _ => QuietWrite(s.db, db');
  }

  lemma ReplyKeepsTurns(db: Db, env: Env, i: nat, now: Time)
    requires Inv(db) && i < |db.turns| && db.turns[i].channel in OUTBOUND_CHANNELS
    ensures SameTurns(db, SubmitReply(db, env, db.turns[i], now).db)
  {
    hide Inv, TasksGood, Submit, TaskOk, TasksEvolve, SameDispatches;
    var turn := db.turns[i];
    TasksOfInv(db);
    SubmitKeeps(db, env, turn.channel, External(turn.event), turn.agent,
                [ReplyCall(turn.channel, turn.conversation, turn.reply)], turn.sender, now);
  }

  lemma RecordFollows(db: Db, env: Env, channel: string, event: string, agent: string, p: Payload, now: Time)
    requires HistoryOk(db.history, db.turns)
    ensures LinesFollowDeliveries(db, RecordTurn(db, env, channel, event, agent, p, now).db)
  {
    hide Appended, LinesFollowDeliveries, HistoryOk, WaitingTurns, Recorded;
    var db' := RecordTurn(db, env, channel, event, agent, p, now).db;
    if db'.turns == db.turns {
      QuietWrite(db, db');
    } else {
      OtherLines(db, db', (channel, p.conversation.value), Customer, p.text);
    }
  }

  lemma AnnounceFollows(db: Db, tid: Id, minutes: int, now: Time)
    requires HistoryOk(db.history, db.turns) && Announceable(db, tid)
    ensures LinesFollowDeliveries(db, AnnounceReply(db, tid, minutes, now))
  {
    hide Appended, LinesFollowDeliveries, HistoryOk;
    var t := db.tasks[tid];
    OtherLines(db, AnnounceReply(db, tid, minutes, now), (ChannelOf(t.plan[0].tool), Recipient(t.plan[0]).value),
               OperatorLine, t.plan[0].args["text"]);
  }

  /** Main result: in every run, an agent line joins a conversation exactly when one of its
      turns is delivered, as the newest line, carrying that turn's reply. */
  lemma AgentLinesAreDeliveries(trace: seq<System>, ops: seq<Op>, k: nat)
    requires Behaviour(trace, ops) && k < |ops|
    ensures LinesFollowDeliveries(trace[k].db, trace[k + 1].db)
  {
    hide Inv, HeldOk, ClaimsOk, EngineStep, LoopStep, TurnStep, EngineEnabled, TurnEnabled, LinesFollowDeliveries,
         SameDispatches, Dispatched, DispatchFacts;
    AlwaysInv(trace, ops, k);
    assert Next(trace[k], ops[k], trace[k + 1]);
    match ops[k] {
      case Engine(e) =>
        EngineStepKeeps(trace[k].db, e);
        QuietWrite(trace[k].db, trace[k + 1].db);
      case Loop(l) =>
        LoopStepKeeps(trace[k].db, l);
        QuietWrite(trace[k].db, trace[k + 1].db);
      case Turns(t) =>
        TurnStepFollows(trace[k], t);
    }
  }

  /** How often a turn becomes delivered between two points. */
  function Deliveries(trace: seq<System>, i: nat, hi: nat): nat
    requires hi < |trace|
  {
    if hi == 0 then 0
    else Deliveries(trace, i, hi - 1) + (if Delivers(trace[hi - 1].db, trace[hi].db, i) then 1 else 0)
  }

  /** Main result: a turn that ends delivered was delivered, and so had its reply added to
      the conversation, exactly once; any other turn never. */
  lemma {:induction false} DeliveredOnce(trace: seq<System>, ops: seq<Op>, i: nat, hi: nat)
    requires Behaviour(trace, ops) && hi < |trace|
    ensures Deliveries(trace, i, hi)
         == (if i < |trace[hi].db.turns| && trace[hi].db.turns[i].status.TurnDelivered? then 1 else 0)
  {
    hide Inv, Evolves, Next, TurnOk;
    if hi > 0 {
      DeliveredOnce(trace, ops, i, hi - 1);
      AlwaysEvolves(trace, ops, hi - 1, hi);
      if i < |trace[hi - 1].db.turns| {
        TurnsEvolveOf(trace[hi - 1].db, trace[hi].db, i);
      } else if i < |trace[hi].db.turns| {
        AgentLinesAreDeliveries(trace, ops, hi - 1);
      }
    }
  }

  /** A conversation's history is at every point a contiguous window of at most forty
      lines, which no recorded turn's own line is newer than. */
  lemma HistoryIsWindow(trace: seq<System>, ops: seq<Op>, k: nat, chat: Chat)
    requires Behaviour(trace, ops) && k < |trace| && chat in trace[k].db.history
    ensures Window(trace[k].db.history[chat])
    ensures forall i :: 0 <= i < |trace[k].db.turns| && ChatOf(trace[k].db.turns[i]) == chat ==>
              trace[k].db.turns[i].seq_ <= Newest(trace[k].db.history[chat])
  {
    hide Behaviour, HeldOk, ClaimsOk, Window, Newest;
    AlwaysInv(trace, ops, k);
    PartsOfInv(trace[k].db);
  }
}
