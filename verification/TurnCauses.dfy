/** Conversation turns by their causes: when each is taken, left, settled, suppressed, sent and
    closed, what becomes of it, and, over any run, that nothing else ever does. */
module TurnCauses {
  import opened Basics
  import opened Authorization
  import opened Tasks
  import opened Store
  import opened EngineSpec
  import opened EngineProofs
  import opened EngineCauses
  import opened AgentLoopProofs
  import opened ConversationSpec
  import opened ConversationProofs
  import opened OrderCapture
  import opened Protocol
  import opened Runs

  /** One turn became this, and nothing else of the turns changed. */
  predicate TurnWritten(db: Db, i: nat, turn: Turn, db': Db) {
    i < |db.turns| && db'.turns == db.turns[i := turn]
  }

  /** The turn's event is handed off for this reason, unless it was already. */
  predicate HandedOff(db: Db, turn: Turn, reason: string, db': Db) {
    db'.handoffs == if (turn.channel, turn.event) in db.handoffs then db.handoffs
                    else db.handoffs[(turn.channel, turn.event) := reason]
  }

  // -------------------------------------------------------------------------- record

  /** The turn of a new event: it waits, unless three of its sender's wait already. */
  predicate NewTurn(db: Db, channel: string, event: string, agent: string, p: Payload, now: Time, turn: Turn)
    requires p.conversation.Some?
  {
    var waiting := set i | 0 <= i < |db.turns| && db.turns[i].status.TurnQueued? && db.turns[i].channel == channel
                           && db.turns[i].conversation == p.conversation.value && db.turns[i].sender == p.sender;
    var before := Lines(db.history, (channel, p.conversation.value));
    turn == Turn(channel, event, p.conversation.value, p.sender, agent,
                 (if before == [] then 0 else before[|before| - 1].seq_) + 1, NO_ID,
                 if |waiting| < 3 then TurnQueued else TurnThrottled, "", NO_ID, "", now)
  }

  predicate MayRecord(env: Env, channel: string, agent: string, p: Payload) {
    && channel in OUTBOUND_CHANNELS && p.conversation.Some? && Named(p.conversation.value) && Named(p.sender)
    && Named(agent) && agent in env.policies
  }

  /** Main result: an inbound message becomes one turn, once, with the customer's line beside it. */
  lemma RecordByCause(db: Db, env: Env, channel: string, event: string, agent: string, p: Payload, now: Time)
    ensures var tx := RecordTurn(db, env, channel, event, agent, p, now);
            var known := exists i ::
                           0 <= i < |db.turns| && db.turns[i].channel == channel && db.turns[i].event == event;
            && (tx.out.Ok? <==> MayRecord(env, channel, agent, p))
            && (tx.out.Err? || known ==> tx.db == db)
            && (tx.out.Ok? && !known ==>
                  var chat := (channel, p.conversation.value);
                  && |tx.db.turns| == |db.turns| + 1
                  && tx.db == db.(turns := db.turns + [tx.db.turns[|db.turns|]], history := tx.db.history)
                  && NewTurn(db, channel, event, agent, p, now, tx.db.turns[|db.turns|])
                  && tx.db.history == db.history[chat :=
                       Appended(Lines(db.history, chat), Customer, p.text)])
  {
    hide Appended, Lines, NewTurn, RecordTurn, MayRecord;
    RecordAccepts(db, env, channel, event, agent, p, now);
    if MayRecord(env, channel, agent, p) && !Recorded(db.turns, channel, event) {
      MayRecordHasChat(env, channel, agent, p);
      RecordAdds(db, env, channel, event, agent, p, now);
    }
  }

  lemma MayRecordHasChat(env: Env, channel: string, agent: string, p: Payload)
    requires MayRecord(env, channel, agent, p)
    ensures p.conversation.Some?
  {
  }

  lemma RecordAccepts(db: Db, env: Env, channel: string, event: string, agent: string, p: Payload, now: Time)
    ensures var tx := RecordTurn(db, env, channel, event, agent, p, now);
            && (tx.out.Ok? <==> MayRecord(env, channel, agent, p))
            && (tx.out.Err? || Recorded(db.turns, channel, event) ==> tx.db == db)
  {
    hide Appended, Lines, WaitingTurns, Newest, Recorded;
  }

  lemma RecordAdds(db: Db, env: Env, channel: string, event: string, agent: string, p: Payload, now: Time)
    requires p.conversation.Some? && MayRecord(env, channel, agent, p) && !Recorded(db.turns, channel, event)
    ensures var chat, db' := (channel, p.conversation.value), RecordTurn(db, env, channel, event, agent, p, now).db;
            && |db'.turns| == |db.turns| + 1
            && db' == db.(turns := db.turns + [db'.turns[|db.turns|]], history := db'.history)
            && NewTurn(db, channel, event, agent, p, now, db'.turns[|db.turns|])
            && db'.history == db.history[chat := Appended(Lines(db.history, chat), Customer, p.text)]
  {
    hide Appended, Lines, NewTurn, WaitingTurns, Newest, Recorded;
    RecordedIsNew(db, channel, event, agent, p, now);
  }

  lemma RecordedIsNew(db: Db, channel: string, event: string, agent: string, p: Payload, now: Time)
    requires p.conversation.Some?
    ensures var chat := (channel, p.conversation.value);
            NewTurn(db, channel, event, agent, p, now,
                    Turn(channel, event, p.conversation.value, p.sender, agent, Newest(Lines(db.history, chat)) + 1,
                         NO_ID, if |WaitingTurns(db, chat, p.sender)| < MAX_QUEUED_TURNS_PER_SENDER then TurnQueued
                         else TurnThrottled, "", NO_ID, "", now))
  {
    hide Lines;
    assert WaitingTurns(db, (channel, p.conversation.value), p.sender)
        == set i | 0 <= i < |db.turns| && db.turns[i].status.TurnQueued? && db.turns[i].channel == channel
                   && db.turns[i].conversation == p.conversation.value && db.turns[i].sender == p.sender;
  }

  // ----------------------------------------------------------------------- takeovers

  /** A takeover lasts as long as the agent's settings say, or half an hour. */
  lemma TakeoverByCause(db: Db, chat: Chat, actor: string, minutes: int, now: Time)
    ensures StartTakeover(db, chat, actor, minutes, now) == db.(takeovers := db.takeovers[chat :=
              Takeover(actor, now + (if 1 <= minutes <= 1440 then minutes * 60 else 1800) as real)])
  {
  }

  /** A member hands back a chat that is taken over, from now on. */
  lemma ReleaseByCause(db: Db, env: Env, chat: Chat, actor: string, now: Time)
    ensures var tx := ReleaseTakeover(db, env, chat, actor, now);
            var taken := chat in db.takeovers && db.takeovers[chat].until > now;
            && (tx.out.Ok? <==> env.authority("web", actor, {"owner", "operator"}))
            && (tx.out.Ok? ==> tx.out.value == taken)
            && (tx.db == if tx.out.Ok? && taken
                         then db.(takeovers := db.takeovers[chat := Takeover(db.takeovers[chat].actor, now)]) else db)
  {
  }

  /** A delivered operator reply whose line has not joined its conversation yet. */
  predicate ReplyWasSent(db: Db, tid: Id) {
    && tid in db.tasks && tid !in db.announced && db.tasks[tid].channel == "operator"
    && db.tasks[tid].status.Succeeded? && db.tasks[tid].plan != []
    && var call := db.tasks[tid].plan[0];
       Outbound(call.tool) && Recipient(call).Some? && "text" in call.args
  }

  /** Where the reply was sent to. */
  predicate SentTo(call: Call, chat: Chat) {
    Outbound(call.tool) && call.tool == SendTool(chat.0) && Recipient(call) == Some(chat.1)
  }

  /** Main result: a delivered reply joins its conversation, once, and its author takes over. */
  lemma AnnounceByCause(db: Db, tid: Id, minutes: int, now: Time)
    ensures Announceable(db, tid) <==> ReplyWasSent(db, tid)
    ensures ReplyWasSent(db, tid) ==>
              var db', t := AnnounceReply(db, tid, minutes, now), db.tasks[tid];
              exists chat: Chat ::
                && SentTo(t.plan[0], chat)
                && db' == db.(announced := db.announced + {tid},
                              history := db.history[chat :=
                                Appended(Lines(db.history, chat), OperatorLine, t.plan[0].args["text"])],
                              takeovers := db.takeovers[chat :=
                                Takeover(t.actor, now + (if 1 <= minutes <= 1440 then minutes * 60 else 1800) as real)])
  {
    hide Appended, Lines;
    if ReplyWasSent(db, tid) {
      var call := db.tasks[tid].plan[0];
      assert SentTo(call, (ChannelOf(call.tool), Recipient(call).value));
    }
  }

  // ------------------------------------------------------------------------- changes

  lemma OpenByCause(db: Db, i: nat, run: Id, error: string)
    requires i < |db.turns|
    ensures var db' := OpenTurn(db, i, run, error).db;
            if db.turns[i].status.TurnQueued? && |set j | 0 <= j < |db.turns| && db.turns[j].status.TurnOpen?| < 20
            then TurnWritten(db, i, db.turns[i].(status := TurnOpen, run := run, error := error), db')
                 && db' == db.(turns := db'.turns)
            else db' == db
  {
    assert OpenTurns(db.turns) == set j | 0 <= j < |db.turns| && db.turns[j].status.TurnOpen?;
  }

  lemma LeaveByCause(db: Db, i: nat)
    requires i < |db.turns|
    ensures var db' := LeaveToOperator(db, i);
            if db.turns[i].status.TurnQueued?
            then
              && TurnWritten(db, i, db.turns[i].(status := TurnOperator), db')
              && HandedOff(db, db.turns[i], "operator_takeover", db')
              && db' == db.(turns := db'.turns, handoffs := db'.handoffs)
            else db' == db
  {
  }

  lemma SuppressByCause(db: Db, i: nat, now: Time)
    requires i < |db.turns|
    ensures var tx, turn := SuppressReply(db, i, now), db.turns[i];
            var taken := (turn.channel, turn.conversation) in db.takeovers
                         && db.takeovers[(turn.channel, turn.conversation)].until > now;
            && tx.out == Ok(taken)
            && (if taken && turn.status.TurnDelivering? && turn.task == NO_ID
                then TurnWritten(db, i, turn.(status := TurnOperator, error := "operator_took_over"), tx.db)
                     && tx.db == db.(turns := tx.db.turns)
                else tx.db == db)
  {
  }

  lemma AttachByCause(db: Db, i: nat, task: Id)
    requires i < |db.turns|
    ensures var db', turn := AttachTask(db, i, task), db.turns[i];
            if turn.status.TurnDelivering? && turn.task == NO_ID
            then TurnWritten(db, i, turn.(task := task), db') && db' == db.(turns := db'.turns) else db' == db
  {
  }

  lemma GiveUpByCause(db: Db, i: nat, status: TurnStatus, error: string)
    requires i < |db.turns|
    ensures var db', turn := GiveUp(db, i, status, error), db.turns[i];
            if turn.status.TurnDelivering?
            then
              && TurnWritten(db, i, turn.(status := status, error := error), db') && HandedOff(db, turn, error, db')
              && db' == db.(turns := db'.turns, handoffs := db'.handoffs)
            else db' == db
  {
  }

  /** What closing makes of a turn, by how its send ended. */
  function Closed(turn: Turn, observed: Status): Turn {
    match observed
    case Succeeded => turn.(status := TurnDelivered)
    case Uncertain => turn.(status := TurnUncertain, error := "send_uncertain")
    case Cancelled => turn.(status := TurnFailed, error := "send_cancelled")
    case _ => turn.(status := TurnFailed, error := "send_failed")
  }

  /** Main result: a turn being delivered is closed as its send ended: delivered, with the
      agent's line beside it, or failed or uncertain, and handed off. */
  lemma CloseByCause(db: Db, i: nat, observed: Status)
    requires i < |db.turns|
    ensures var db', turn := CloseTurn(db, i, observed), db.turns[i];
            if turn.status.TurnDelivering?
            then
              && TurnWritten(db, i, Closed(turn, observed), db')
              && (if observed.Succeeded? then
                    && db'.handoffs == db.handoffs
                    && db'.history == db.history[(turn.channel, turn.conversation) :=
                         Appended(Lines(db.history, (turn.channel, turn.conversation)), AgentLine, turn.reply)]
                  else HandedOff(db, turn, Closed(turn, observed).error, db') && db'.history == db.history)
              && db' == db.(turns := db'.turns, handoffs := db'.handoffs, history := db'.history)
            else db' == db
  {
    hide Appended, Lines, GiveUp;
    GiveUpByCause(db, i, TurnUncertain, "send_uncertain");
    GiveUpByCause(db, i, TurnFailed, if observed.Cancelled? then "send_cancelled" else "send_failed");
  }

  // ----------------------------------------------------------------------------- send

  /** Main result: what the worker that submits a reply does next. It attaches the event's task,
      the one there is or the new one; it tries again later while the tenant is full; and it
      fails the delivery if the tenant is stopped or the reply may not be submitted. */
  lemma SendByCause(db: Db, env: Env, i: nat, now: Time)
    requires TasksGood(db) && i < |db.turns| && db.turns[i].channel in OUTBOUND_CHANNELS
    ensures var turn, tx := db.turns[i], SubmitReply(db, env, db.turns[i], now);
            var next, key := AfterSubmit(tx.db, i, turn, tx.out), External(turn.event);
            var fit := InOrder(db, env, turn.channel, key, turn.agent,
                               [ReplyCall(turn.channel, turn.conversation, turn.reply)], turn.sender);
            && (forall t :: fit && t in db.tasks && db.tasks[t].channel == turn.channel && db.tasks[t].key == key ==>
                  next == Some(ToAttach(i, t)) && tx.db == db)
            && (fit && KeyFree(db, turn.channel, key) && HasRoom(db, env) ==> next == Some(ToAttach(i, db.next)))
            && (fit && KeyFree(db, turn.channel, key) && !HasRoom(db, env) ==>
                  next == if db.frozen || !env.authority("", "", MEMBERS) then Some(ToFail(i, "delivery_rejected"))
                          else None)
            && (!fit && tx.out != Err(Conflict) && tx.out != Err(RateLimited) ==>
                  next == Some(ToFail(i, "delivery_rejected")))
  {
    hide TasksGood, Submit, InOrder, HasRoom, KeyFree, KeyTaken, Adds, OriginIs;
    var turn := db.turns[i];
    var key := External(turn.event);
    SubmitByCause(db, env, turn.channel, key, turn.agent, [ReplyCall(turn.channel, turn.conversation, turn.reply)],
                  turn.sender, now);
    forall t | t in db.tasks && db.tasks[t].channel == turn.channel && db.tasks[t].key == key
      ensures KeyTaken(db, turn.channel, key) && TaskByKey(db, turn.channel, key) == t
    {
      OneTaskByKey(db, turn.channel, key, t);
    }
  }

  lemma OneTaskByKey(db: Db, channel: string, key: Key, t: Id)
    requires TasksGood(db) && t in db.tasks && db.tasks[t].channel == channel && db.tasks[t].key == key
    ensures KeyTaken(db, channel, key) && TaskByKey(db, channel, key) == t
  {
    hide TasksGood;
    KeysAreUnique(db);
    assert KeyTaken(db, channel, key);
    assert SameKey(db.tasks[t], db.tasks[TaskByKey(db, channel, key)]);
  }

  // --------------------------------------------------------------------------- orders

  /** The action drafted a valid order. */
  predicate Drafts(db: Db, link: Link, orders: Orders, turn: Turn, args: Args) {
    && link.task in db.tasks && db.tasks[link.task].steps != []
    && db.tasks[link.task].steps[0].call.tool == "orders.draft" && db.tasks[link.task].steps[0].status.Succeeded?
    && orders.args(db.tasks[link.task].steps[0].result, turn) == Some(args)
  }

  /** The draft is that of the run's latest action that drafted a valid order. */
  predicate LatestDraftIs(db: Db, turn: Turn, orders: Orders, k: nat, args: Args) {
    && turn.run in db.runs && k < |db.runs[turn.run].links|
    && Drafts(db, db.runs[turn.run].links[k], orders, turn, args)
    && forall j :: k < j < |db.runs[turn.run].links| ==>
         DraftIn(db.tasks, db.runs[turn.run].links[j], orders, turn).None?
  }

  lemma DraftByCause(db: Db, link: Link, orders: Orders, turn: Turn, args: Args)
    ensures DraftIn(db.tasks, link, orders, turn) == Some(args) <==> Drafts(db, link, orders, turn, args)
  {
  }

  /** Main result: the order made is the one drafted last, where the settings want orders. */
  lemma OrderIsLatestDraft(db: Db, turn: Turn, orders: Orders, args: Args)
    ensures OrderDraft(db, turn, orders) == Some(args) <==>
              orders.agent != "" && exists k: nat :: LatestDraftIs(db, turn, orders, k, args)
  {
    hide Drafts, DraftIn, DraftOf, LatestDraft;
    if turn.run in db.runs {
      var links := db.runs[turn.run].links;
      DraftIsLatest(db.tasks, links, orders, turn);
      forall k | 0 <= k < |links|
        ensures DraftIn(db.tasks, links[k], orders, turn) == Some(args) <==> Drafts(db, links[k], orders, turn, args)
      {
        DraftByCause(db, links[k], orders, turn, args);
      }
      if OrderDraft(db, turn, orders) == Some(args) {
        var k :| 0 <= k < |links| && LatestDraft(db.tasks, links, orders, turn, k)
          && DraftIn(db.tasks, links[k], orders, turn) == DraftOf(db.tasks, links, orders, turn);
        LatestMeans(db.tasks, links, orders, turn, k);
        assert LatestDraftIs(db, turn, orders, k, args);
      }
      if k: nat :| orders.agent != "" && LatestDraftIs(db, turn, orders, k, args) {
        var j :| 0 <= j < |links| && LatestDraft(db.tasks, links, orders, turn, j)
          && DraftIn(db.tasks, links[j], orders, turn) == DraftOf(db.tasks, links, orders, turn);
        LatestMeans(db.tasks, links, orders, turn, j);
        assert j == k;
      }
    }
  }

  lemma LatestMeans(tasks: map<Id, Task>, links: seq<Link>, orders: Orders, turn: Turn, k: nat)
    requires k < |links| && LatestDraft(tasks, links, orders, turn, k)
    ensures DraftIn(tasks, links[k], orders, turn).Some?
    ensures forall j :: k < j < |links| ==> DraftIn(tasks, links[j], orders, turn).None?
  {
    hide DraftIn;
  }

  predicate SameLetter(a: char, b: char) {
    || a == b
    || ('A' <= a <= 'Z' && b as int == a as int + 32) || ('A' <= b <= 'Z' && a as int == b as int + 32)
  }

  lemma AlikeIff(a: string, b: string)
    ensures Alike(a, b) <==> |a| == |b| && forall k :: 0 <= k < |a| ==> SameLetter(a[k], b[k])
  {
    forall k | 0 <= k < |a| && |a| == |b| ensures Lower(a[k]) == Lower(b[k]) <==> SameLetter(a[k], b[k]) {
    }
  }

  /** A key of an order: it ends in ":order" or begins with "order:", in capitals or not. */
  predicate LooksLikeOrder(text: string) {
    && |text| >= 6
    && (|| (forall k :: 0 <= k < 6 ==> SameLetter(text[|text| - 6 + k], ":order"[k]))
        || (forall k :: 0 <= k < 6 ==> SameLetter(text[k], "order:"[k])))
  }

  /** Main result: an order's own key, shortened or not, is recognised as one of an order. */
  lemma OrderKeyByCause(event: string, orders: Orders)
    ensures OrderKey(event, orders)
         == External(if |event| <= 250 then event + ":order" else "order:" + orders.digest(event))
    ensures LooksLikeOrder(OrderKey(event, orders).text)
  {
  }

  lemma ShapeByCause(text: string)
    ensures OrderShaped(text) <==> LooksLikeOrder(text)
  {
    if |text| >= 6 {
      AlikeIff(text[|text| - 6..], ":order");
      AlikeIff(text[..6], "order:");
    }
  }

  /** The sender has an order of this agent nobody has decided yet. */
  ghost predicate OrderWaits(db: Db, turn: Turn, agent: string) {
    exists t :: t in db.tasks && WaitingOrder(db.tasks[t], turn, agent)
  }

  predicate WaitingOrder(t: Task, turn: Turn, agent: string) {
    && t.channel == turn.channel && t.actor == turn.sender && t.agent == agent
    && t.status in {Queued, WaitingApproval, Running}
    && t.key.External? && LooksLikeOrder(t.key.text)
    && exists k :: 0 <= k < |t.steps| && t.steps[k].call.tool == "records.create"
  }

  /** Main result: a drafted order is refused if and only if it is not a task already and either
      the sender's last one waits, or it may not be submitted. */
  lemma OrderByCause(db: Db, env: Env, turn: Turn, orders: Orders, now: Time)
    requires TasksGood(db)
    ensures var refused, draft, key := OrderRefusal(db, env, turn, orders, now), OrderDraft(db, turn, orders),
                                       OrderKey(turn.event, orders);
            && (refused == Some("order_pending") <==>
                  draft.Some? && KeyFree(db, turn.channel, key) && OrderWaits(db, turn, orders.agent))
            && (refused == Some("order_rejected") <==>
                  && draft.Some? && KeyFree(db, turn.channel, key) && !OrderWaits(db, turn, orders.agent)
                  && !(InOrder(db, env, turn.channel, key, orders.agent, [Call("records.create", draft.value, "")],
                               turn.sender)
                       && HasRoom(db, env)))
            && (refused.None? || refused == Some("order_pending") || refused == Some("order_rejected"))
  {
    hide TasksGood, Submit, InOrder, HasRoom, OrderDraft, OrderKey, PendingOrder, OriginIs, NewTask;
    var key := OrderKey(turn.event, orders);
    assert KeyFree(db, turn.channel, key) <==> !KeyTaken(db, turn.channel, key);
    WaitingIsPending(db, turn, orders.agent);
    if OrderDraft(db, turn, orders).Some? {
      SubmitByCause(db, env, turn.channel, key, orders.agent,
                    [Call("records.create", OrderDraft(db, turn, orders).value, "")], turn.sender, now);
    }
  }

  lemma WaitingIsPending(db: Db, turn: Turn, agent: string)
    ensures |PendingOrders(db, turn, agent)| >= 1 <==> OrderWaits(db, turn, agent)
  {
    hide OrderShaped, LooksLikeOrder;
    var pending := PendingOrders(db, turn, agent);
    forall t | t in db.tasks && db.tasks[t].key.External?
      ensures OrderShaped(db.tasks[t].key.text) <==> LooksLikeOrder(db.tasks[t].key.text)
    {
      ShapeByCause(db.tasks[t].key.text);
    }
    assert pending == set t | t in db.tasks && WaitingOrder(db.tasks[t], turn, agent);
    if OrderWaits(db, turn, agent) {
      var t :| t in db.tasks && WaitingOrder(db.tasks[t], turn, agent);
      assert t in pending;
    }
  }

  // ----------------------------------------------------------------------- over a run

  /** The one operation that changed this turn, and its cause at that moment. */
  ghost predicate TurnChangeCaused(db: Db, op: Op, i: nat, db': Db)
    requires i < |db.turns| && i < |db'.turns|
  {
    var turn, turn' := db.turns[i], db'.turns[i];
    && op.Turns?
    && match op.t
       case Write(h, now) =>
         && h.turn == i
         && (match h
             case ToOpenWith(_, run, error) =>
               && turn.status.TurnQueued? && turn' == turn.(status := TurnOpen, run := run, error := error)
               && |set j | 0 <= j < |db.turns| && db.turns[j].status.TurnOpen?| < 20
             case ToDeliver(_) =>
               && turn.status.TurnDelivering? && turn.task == NO_ID
               && (turn.channel, turn.conversation) in db.takeovers
               && db.takeovers[(turn.channel, turn.conversation)].until > now
               && turn' == turn.(status := TurnOperator, error := "operator_took_over")
             case ToAttach(_, task) =>
               turn.status.TurnDelivering? && turn.task == NO_ID && turn' == turn.(task := task)
             case ToFail(_, error) =>
               && turn.status.TurnDelivering? && turn' == turn.(status := TurnFailed, error := error)
               && HandedOff(db, turn, error, db')
             case ToClose(_, observed) =>
               && turn.status.TurnDelivering? && turn' == Closed(turn, observed)
               && (!observed.Succeeded? ==> HandedOff(db, turn, turn'.error, db'))
             case _ => false)
       case WriteLeave(j) =>
         && j == i && turn.status.TurnQueued? && turn' == turn.(status := TurnOperator)
         && HandedOff(db, turn, "operator_takeover", db')
       case WriteSettle(_, j, reply, reason, _, _) =>
         && j == i && turn.status.TurnOpen?
         && turn' == turn.(status := TurnDelivering, reply := reply, error := reason)
       case _ => false
  }

  /** Main result: over any run, a turn is there for ever once it is recorded, a new one is
      recorded as its message says, and one that changes is changed by one operation, for a
      cause that held at that moment, and with the effect of that cause. */
  lemma TurnsChangeForCause(trace: seq<System>, ops: seq<Op>, k: nat)
    requires Behaviour(trace, ops) && k < |ops|
    ensures |trace[k].db.turns| <= |trace[k + 1].db.turns|
    ensures forall i: nat :: i < |trace[k].db.turns| && trace[k + 1].db.turns[i] != trace[k].db.turns[i] ==>
              TurnChangeCaused(trace[k].db, ops[k], i, trace[k + 1].db)
    ensures |trace[k + 1].db.turns| > |trace[k].db.turns| ==>
              && ops[k].Turns? && ops[k].t.RecordInbound? && |trace[k + 1].db.turns| == |trace[k].db.turns| + 1
              && MayRecord(ops[k].t.env, ops[k].t.channel, ops[k].t.agent, ops[k].t.payload)
              && NewTurn(trace[k].db, ops[k].t.channel, ops[k].t.event, ops[k].t.agent, ops[k].t.payload, ops[k].t.now,
                         trace[k + 1].db.turns[|trace[k].db.turns|])
  {
    hide Inv, HeldOk, ClaimsOk, EngineStep, LoopStep, TurnStep, EngineEnabled, TurnEnabled, TurnChangeCaused,
         SameDispatches, Dispatched, DispatchFacts, NewTurn, MayRecord;
    AlwaysInv(trace, ops, k);
    assert Next(trace[k], ops[k], trace[k + 1]);
    match ops[k]
    case Engine(e) => EngineStepKeeps(trace[k].db, e);
    case Loop(l) => LoopStepKeeps(trace[k].db, l);
    case Turns(op) => TurnOpChanges(trace[k], op);
  }

  /** Why a line joins a conversation: the customer wrote it, an operator's reply was sent, or
      the agent's was delivered. */
  ghost predicate LineCaused(db: Db, op: Op, chat: Chat, db': Db) {
    && op.Turns? && chat in db'.history
    && exists role: Role, text: string ::
         && db'.history[chat] == Appended(Lines(db.history, chat), role, text)
         && match op.t
            case RecordInbound(env, channel, event, agent, payload, now) =>
              role.Customer? && channel == chat.0 && payload.conversation == Some(chat.1) && text == payload.text
            case Announce(tid, minutes, now) =>
              && role.OperatorLine? && ReplyWasSent(db, tid) && SentTo(db.tasks[tid].plan[0], chat)
              && text == db.tasks[tid].plan[0].args["text"]
            case Write(h, now) =>
              && role.AgentLine? && h.ToClose? && h.observed.Succeeded? && h.turn < |db.turns|
              && db.turns[h.turn].status.TurnDelivering? && text == db.turns[h.turn].reply
              && chat == (db.turns[h.turn].channel, db.turns[h.turn].conversation)
            case _ => false
  }

  /** Main result: over any run, a conversation's lines are there for ever, but for the oldest
      beyond forty, and one joins only because somebody said it. */
  lemma LinesJoinForCause(trace: seq<System>, ops: seq<Op>, k: nat, chat: Chat)
    requires Behaviour(trace, ops) && k < |ops|
    ensures Lines(trace[k + 1].db.history, chat) != Lines(trace[k].db.history, chat) ==>
              LineCaused(trace[k].db, ops[k], chat, trace[k + 1].db)
  {
    hide Inv, HeldOk, ClaimsOk, EngineStep, LoopStep, TurnStep, EngineEnabled, TurnEnabled, LineCaused,
         SameDispatches, Dispatched, DispatchFacts;
    AlwaysInv(trace, ops, k);
    assert Next(trace[k], ops[k], trace[k + 1]);
    match ops[k]
    case Engine(e) => EngineStepKeeps(trace[k].db, e);
    case Loop(l) => LoopStepKeeps(trace[k].db, l);
    case Turns(op) => LinesJoin(trace[k], op, chat);
  }

  lemma LinesJoin(s: System, op: TurnOp, chat: Chat)
    requires Inv(s.db) && TurnEnabled(s, op)
    ensures var db, db' := s.db, TurnStep(s, op).db;
            Lines(db'.history, chat) != Lines(db.history, chat) ==> LineCaused(db, Turns(op), chat, db')
  {
    hide Inv, WriteHeld, LeaveToOperator, SubmitReply, Readable, AfterSubmit, RecordTurn, NotBefore, Announceable,
         Appended, SettleAndOrder, HandoffStep, OrderRefusal, NewTurn, ReplyWasSent, AnnounceReply, SentTo;
    var db, db' := s.db, TurnStep(s, op).db;
    match op
    case RecordInbound(env, channel, event, agent, payload, now) =>
      RecordByCause(db, env, channel, event, agent, payload, now);
    case Announce(tid, minutes, now) => AnnouncedLine(db, tid, minutes, now, chat);
    case Write(h, now) => WrittenLine(s, h, now, chat);
    case WriteLeave(j) => LeaveByCause(db, j);
    case WriteSettle(env, j, reply, reason, orders, now) =>
      if db.turns[j].status.TurnOpen? { SettledOutcome(db, env, j, reply, reason, orders, now); }
      else { NothingToSettle(db, env, j, reply, reason, orders, now); }
    case Deliver(env, j, now) => SendingLeaves(s, op);
    case _ =>
  }

  lemma NothingToSettle(db: Db, env: Env, j: nat, reply: string, reason: string, orders: Orders, now: Time)
    requires j < |db.turns| && !db.turns[j].status.TurnOpen?
    ensures SettleAndOrder(db, env, j, reply, reason, orders, now) == db
  {
  }

  lemma AnnouncedLine(db: Db, tid: Id, minutes: int, now: Time, chat: Chat)
    requires Announceable(db, tid)
    ensures var db' := AnnounceReply(db, tid, minutes, now);
            Lines(db'.history, chat) != Lines(db.history, chat) ==>
              LineCaused(db, Turns(TurnOp.Announce(tid, minutes, now)), chat, db')
  {
    hide Appended, Announceable, AnnounceReply, ReplyWasSent, SentTo;
    AnnounceByCause(db, tid, minutes, now);
    SentHasText(db, tid);
  }

  lemma SentHasText(db: Db, tid: Id)
    requires ReplyWasSent(db, tid)
    ensures tid in db.tasks && db.tasks[tid].plan != [] && "text" in db.tasks[tid].plan[0].args
  {
  }

  lemma WrittenLine(s: System, h: Held, now: Time, chat: Chat)
    requires TurnEnabled(s, TurnOp.Write(h, now))
    ensures var db, db' := s.db, WriteHeld(s.db, h, now);
            Lines(db'.history, chat) != Lines(db.history, chat) ==>
              LineCaused(db, Turns(TurnOp.Write(h, now)), chat, db')
  {
    hide OpenTurn, SuppressReply, AttachTask, GiveUp, CloseTurn, HandedOff, Closed, Appended;
    var db := s.db;
    match h
    case ToOpenWith(i, run, error) => OpenByCause(db, i, run, error);
    case ToDeliver(i) => SuppressByCause(db, i, now);
    case ToAttach(i, task) => AttachByCause(db, i, task);
    case ToFail(i, error) => GiveUpByCause(db, i, TurnFailed, error);
    case ToClose(i, observed) => CloseByCause(db, i, observed);
    case _ =>
  }

  /** Main result: over any run, an operator's reply joins its conversation at most once. */
  lemma AnnouncedOnce(trace: seq<System>, ops: seq<Op>, i: nat, j: nat)
    requires Behaviour(trace, ops) && i < j < |ops|
    requires ops[i].Turns? && ops[i].t.Announce? && ops[j].Turns? && ops[j].t.Announce?
    ensures ops[i].t.tid != ops[j].t.tid
  {
    hide Inv, HeldOk, ClaimsOk, AnnounceReply, ReplyWasSent, Announceable, Evolves;
    assert Next(trace[i], ops[i], trace[i + 1]) && Next(trace[j], ops[j], trace[j + 1]);
    AnnounceByCause(trace[i].db, ops[i].t.tid, ops[i].t.minutes, ops[i].t.now);
    AnnounceByCause(trace[j].db, ops[j].t.tid, ops[j].t.minutes, ops[j].t.now);
    AlwaysEvolves(trace, ops, i + 1, j);
    AnnouncedStays(trace[i + 1].db, trace[j].db);
    SentIsNew(trace[j].db, ops[j].t.tid);
  }

  lemma AnnouncedStays(db: Db, db': Db)
    requires Evolves(db, db')
    ensures db.announced <= db'.announced
  {
    hide TasksEvolve, RunsEvolve, TurnsEvolve;
  }

  lemma SentIsNew(db: Db, tid: Id)
    requires ReplyWasSent(db, tid)
    ensures tid !in db.announced
  {
  }

  lemma TurnOpChanges(s: System, op: TurnOp)
    requires Inv(s.db) && TurnEnabled(s, op)
    ensures var db, db' := s.db, TurnStep(s, op).db;
            && |db.turns| <= |db'.turns|
            && (forall i: nat :: i < |db.turns| && db'.turns[i] != db.turns[i] ==>
                  TurnChangeCaused(db, Turns(op), i, db'))
            && (|db'.turns| > |db.turns| ==>
                  && op.RecordInbound? && |db'.turns| == |db.turns| + 1
                  && MayRecord(op.env, op.channel, op.agent, op.payload)
                  && NewTurn(db, op.channel, op.event, op.agent, op.payload, op.now, db'.turns[|db.turns|]))
  {
    hide Inv, WriteHeld, LeaveToOperator, SubmitReply, Readable, AfterSubmit, RecordTurn, Announceable, NotBefore,
         Appended, SettleAndOrder, HandoffStep, OrderRefusal, NewTurn, MayRecord, TurnChangeCaused, TurnEnabled;
    var db, db' := s.db, TurnStep(s, op).db;
    match op
    case RecordInbound(env, channel, event, agent, payload, now) =>
      RecordByCause(db, env, channel, event, agent, payload, now);
    case Write(h, now) => WriteChanges(s, h, now);
    case WriteLeave(j) => LeaveChanges(s, j);
    case WriteSettle(_, _, _, _, _, _) => SettleChanges(s, op);
    case Deliver(env, j, now) => SendingLeaves(s, op);
    case _ =>
  }

  lemma SendingLeaves(s: System, op: TurnOp)
    requires Inv(s.db) && TurnEnabled(s, op) && op.Deliver?
    ensures TurnStep(s, op).db.turns == s.db.turns && TurnStep(s, op).db.history == s.db.history
  {
    hide Inv, Submit, AfterSubmit;
    var turn := s.db.turns[op.turn];
    SubmitFrame(s.db, op.env, turn.channel, External(turn.event), turn.agent,
                [ReplyCall(turn.channel, turn.conversation, turn.reply)], turn.sender, op.now);
  }

  lemma LeaveChanges(s: System, j: nat)
    requires TurnEnabled(s, TurnOp.WriteLeave(j))
    ensures var db, db' := s.db, TurnStep(s, TurnOp.WriteLeave(j)).db;
            && |db.turns| == |db'.turns|
            && forall i: nat :: i < |db.turns| && db'.turns[i] != db.turns[i] ==>
                 TurnChangeCaused(db, Turns(TurnOp.WriteLeave(j)), i, db')
  {
    hide LeaveToOperator, HandedOff;
    LeaveByCause(s.db, j);
  }

  lemma SettleChanges(s: System, op: TurnOp)
    requires Inv(s.db) && TurnEnabled(s, op) && op.WriteSettle?
    ensures var db, db' := s.db, TurnStep(s, op).db;
            && |db.turns| == |db'.turns|
            && forall i: nat :: i < |db.turns| && db'.turns[i] != db.turns[i] ==>
                 TurnChangeCaused(db, Turns(op), i, db')
  {
    hide Inv, HandoffStep, OrderRefusal, SettleTurn, CaptureOrder, HandOff;
    if s.db.turns[op.turn].status.TurnOpen? {
      hide SettleAndOrder;
      SettledOutcome(s.db, op.env, op.turn, op.reply, op.reason, op.orders, op.now);
    }
  }

  lemma WriteChanges(s: System, h: Held, now: Time)
    requires TurnEnabled(s, TurnOp.Write(h, now))
    ensures var db, db' := s.db, TurnStep(s, TurnOp.Write(h, now)).db;
            && |db.turns| == |db'.turns|
            && forall i: nat :: i < |db.turns| && db'.turns[i] != db.turns[i] ==>
                 TurnChangeCaused(db, Turns(TurnOp.Write(h, now)), i, db')
  {
    hide OpenTurn, SuppressReply, AttachTask, GiveUp, CloseTurn, HandedOff, Closed, Appended, Lines;
    var db := s.db;
    match h
    case ToOpenWith(i, run, error) => OpenByCause(db, i, run, error);
    case ToDeliver(i) => SuppressByCause(db, i, now);
    case ToAttach(i, task) => AttachByCause(db, i, task);
    case ToFail(i, error) => GiveUpByCause(db, i, TurnFailed, error);
    case ToClose(i, observed) =>
      CloseByCause(db, i, observed);
    case _ =>
  }
}
