/** Order capture: the write that settles a turn also makes a task of the order its run
    drafted, or hands the turn to an operator because of it. */
module OrderCapture {
  import opened Basics
  import opened Authorization
  import opened Tasks
  import opened Store
  import opened EngineSpec
  import opened EngineProofs
  import opened ConversationSpec
  import opened ConversationProofs

  const ORDER_DRAFT_TOOL := "orders.draft"
  const ORDER_WRITE_TOOL := "records.create"
  const MAX_PENDING_ORDERS_PER_SENDER := 1
  const ORDER_SUFFIX := ":order"
  const ORDER_PREFIX := "order:"

  /** What capturing consults besides the store: the order agent of the settings (empty: no
      orders), what the JSON of one draft result makes of the order task's arguments (None:
      no valid draft), and the digest that shortens a long key. */
  datatype Orders = Orders(agent: string, args: (string, Turn) -> Option<Args>, digest: string -> string)

  // ------------------------------------------------------------------------- draft

  /** The draft one linked task of the run came to, if it is a valid one. */
  function DraftIn(tasks: map<Id, Task>, link: Link, orders: Orders, turn: Turn): Option<Args> {
    if link.task in tasks && |tasks[link.task].steps| > 0
       && tasks[link.task].steps[0].call.tool == ORDER_DRAFT_TOOL
       && tasks[link.task].steps[0].status == Succeeded
    then orders.args(tasks[link.task].steps[0].result, turn) else None
  }

  /** `_order_draft`: the latest valid one. */
  function DraftOf(tasks: map<Id, Task>, links: seq<Link>, orders: Orders, turn: Turn): Option<Args> {
    if links == [] then None
    else
      var last := DraftIn(tasks, links[|links| - 1], orders, turn);
      if last.Some? then last else DraftOf(tasks, links[..|links| - 1], orders, turn)
  }

  /** The latest link with a valid draft. */
  predicate LatestDraft(tasks: map<Id, Task>, links: seq<Link>, orders: Orders, turn: Turn, k: nat)
    requires k < |links|
  {
    && DraftIn(tasks, links[k], orders, turn).Some?
    && forall j :: k < j < |links| ==> DraftIn(tasks, links[j], orders, turn).None?
  }

  /** The draft taken is the one of the last link that has one; none only if none has. */
  lemma {:induction false} DraftIsLatest(tasks: map<Id, Task>, links: seq<Link>, orders: Orders, turn: Turn)
    ensures var draft := DraftOf(tasks, links, orders, turn);
            && (draft.None? <==> forall k :: 0 <= k < |links| ==> DraftIn(tasks, links[k], orders, turn).None?)
            && (draft.Some? ==>
                  exists k :: 0 <= k < |links| && LatestDraft(tasks, links, orders, turn, k)
                    && DraftIn(tasks, links[k], orders, turn) == draft)
  {
    hide DraftIn, LatestDraft;
    if links != [] {
      var init, last := links[..|links| - 1], links[|links| - 1];
      if DraftIn(tasks, last, orders, turn).Some? {
        LastIsLatest(tasks, links, orders, turn);
      } else {
        DraftIsLatest(tasks, init, orders, turn);
        assert forall k :: 0 <= k < |init| ==> init[k] == links[k];
        if DraftOf(tasks, init, orders, turn).Some? {
          var k :| 0 <= k < |init| && LatestDraft(tasks, init, orders, turn, k)
            && DraftIn(tasks, init[k], orders, turn) == DraftOf(tasks, init, orders, turn);
          StillLatest(tasks, links, orders, turn, k);
        }
      }
    }
  }

  lemma LastIsLatest(tasks: map<Id, Task>, links: seq<Link>, orders: Orders, turn: Turn)
    requires links != [] && DraftIn(tasks, links[|links| - 1], orders, turn).Some?
    ensures LatestDraft(tasks, links, orders, turn, |links| - 1)
  {
  }

  lemma StillLatest(tasks: map<Id, Task>, links: seq<Link>, orders: Orders, turn: Turn, k: nat)
    requires links != [] && k < |links| - 1 && DraftIn(tasks, links[|links| - 1], orders, turn).None?
    requires LatestDraft(tasks, links[..|links| - 1], orders, turn, k)
    ensures LatestDraft(tasks, links, orders, turn, k)
  {
    hide DraftIn;
    var init := links[..|links| - 1];
    assert links[k] == init[k];
    forall j | k < j < |links| ensures DraftIn(tasks, links[j], orders, turn).None? {
      if j < |init| { assert links[j] == init[j]; }
    }
  }

  // ------------------------------------------------------------------- other orders

  function OrderKey(event: string, orders: Orders): Key {
    External(if |event| + |ORDER_SUFFIX| <= MAX_IDENTITY_CHARS then event + ORDER_SUFFIX
             else ORDER_PREFIX + orders.digest(event))
  }

  function Lower(c: char): char { if 'A' <= c <= 'Z' then (c as int + 32) as char else c }

  /** `LIKE`, which ignores the case of letters. */
  predicate Alike(a: string, b: string) {
    |a| == |b| && forall k :: 0 <= k < |a| ==> Lower(a[k]) == Lower(b[k])
  }

  /** `event_key LIKE '%:order' OR event_key LIKE 'order:%'`. */
  predicate OrderShaped(text: string) {
    |text| >= |ORDER_SUFFIX|
    && (Alike(text[|text| - |ORDER_SUFFIX|..], ORDER_SUFFIX) || Alike(text[..|ORDER_PREFIX|], ORDER_PREFIX))
  }

  /** An order of this turn's sender on its channel that no one has decided yet. */
  predicate PendingOrder(t: Task, turn: Turn, agent: string) {
    && t.channel == turn.channel && t.actor == turn.sender && t.agent == agent && Open(t.status)
    && t.key.External? && OrderShaped(t.key.text)
    && exists k :: 0 <= k < |t.steps| && t.steps[k].call.tool == ORDER_WRITE_TOOL
  }

  function PendingOrders(db: Db, turn: Turn, agent: string): set<Id> {
    set t | t in db.tasks && PendingOrder(db.tasks[t], turn, agent)
  }

  // ----------------------------------------------------------------------- capture

  /** The store after the capture, and the reason the order was refused for, if it was. */
  datatype Captured = Captured(db: Db, refused: Option<string>)

  ghost function SubmitOrder(db: Db, env: Env, turn: Turn, orders: Orders, args: Args, now: Time): Tx<Id> {
    Submit(db, env, turn.channel, OrderKey(turn.event, orders), orders.agent, [Call(ORDER_WRITE_TOOL, args, "")],
           turn.sender, now)
  }

  /** The draft to make an order of: of the turn's run, when the settings name an order agent. */
  function OrderDraft(db: Db, turn: Turn, orders: Orders): Option<Args> {
    if turn.run !in db.runs || orders.agent == "" then None
    else DraftOf(db.tasks, db.runs[turn.run].links, orders, turn)
  }

  /** `_capture_order`, for the turn as it was before its reply was written. A submission that
      is refused is rolled back to a savepoint. */
  ghost function CaptureOrder(db: Db, env: Env, turn: Turn, orders: Orders, now: Time): Captured {
    match OrderDraft(db, turn, orders)
    case None => Captured(db, None)
    case Some(args) =>
      if KeyTaken(db, turn.channel, OrderKey(turn.event, orders)) then Captured(db, None)
      else if |PendingOrders(db, turn, orders.agent)| >= MAX_PENDING_ORDERS_PER_SENDER
      then Captured(db, Some("order_pending"))
      else
        var tx := SubmitOrder(db, env, turn, orders, args, now);
        if tx.out.Err? then Captured(db, Some("order_rejected")) else Captured(tx.db, None)
  }

  /** The transaction of `_settle`: the reply, its handoff, and the order. */
  ghost function SettleAndOrder(
    db: Db, env: Env, i: nat, reply: string, reason: string, orders: Orders, now: Time): Db
    requires i < |db.turns|
  {
    var turn := db.turns[i];
    if !turn.status.TurnOpen? then db
    else
      var captured := CaptureOrder(SettleTurn(db, i, reply, reason), env, turn, orders, now);
      if captured.refused.Some? then HandOff(captured.db, turn, captured.refused.value) else captured.db
  }

  /** Why settling the turn now would hand its order to an operator. */
  ghost function OrderRefusal(db: Db, env: Env, turn: Turn, orders: Orders, now: Time): Option<string> {
    CaptureOrder(db, env, turn, orders, now).refused
  }

  // ------------------------------------------------------------------------- proofs

  /** Whether a submission is refused depends on the tasks, the events and the freeze alone. */
  lemma RefusalFrame(
    db: Db, db': Db, env: Env, channel: string, key: Key, agent: string, plan: seq<Call>, actor: string, now: Time)
    requires db'.tasks == db.tasks && db'.events == db.events && db'.frozen == db.frozen
    requires !KeyTaken(db, channel, key)
    ensures Submit(db', env, channel, key, agent, plan, actor, now).out.Err?
       <==> Submit(db, env, channel, key, agent, plan, actor, now).out.Err?
  {
    hide Validate, Identity, DestinationAllowed, FreshSteps, Refresh, OriginOf;
    assert PendingTasks(db') == PendingTasks(db);
    assert !KeyTaken(db', channel, key);
  }

  /** Writing the reply first does not change what becomes of the order. */
  lemma OrderFrame(db: Db, i: nat, reply: string, reason: string, env: Env, orders: Orders, now: Time)
    requires i < |db.turns|
    ensures OrderRefusal(SettleTurn(db, i, reply, reason), env, db.turns[i], orders, now)
         == OrderRefusal(db, env, db.turns[i], orders, now)
    ensures OrderDraft(SettleTurn(db, i, reply, reason), db.turns[i], orders) == OrderDraft(db, db.turns[i], orders)
  {
    hide Submit, SettleTurn, KeyTaken, DraftOf, PendingOrder;
    var turn, db' := db.turns[i], SettleTurn(db, i, reply, reason);
    SettleTouchesTurns(db, i, reply, reason);
    assert OrderDraft(db', turn, orders) == OrderDraft(db, turn, orders);
    assert PendingOrders(db', turn, orders.agent) == PendingOrders(db, turn, orders.agent);
    KeyFrame(db, db', turn.channel, OrderKey(turn.event, orders));
    if OrderDraft(db, turn, orders).Some? && !KeyTaken(db, turn.channel, OrderKey(turn.event, orders)) {
      RefusalFrame(db, db', env, turn.channel, OrderKey(turn.event, orders), orders.agent,
                   [Call(ORDER_WRITE_TOOL, OrderDraft(db, turn, orders).value, "")], turn.sender, now);
    }
  }

  lemma KeyFrame(db: Db, db': Db, channel: string, key: Key)
    requires db'.tasks == db.tasks
    ensures KeyTaken(db', channel, key) <==> KeyTaken(db, channel, key)
  {
  }

  lemma SettleTouchesTurns(db: Db, i: nat, reply: string, reason: string)
    requires i < |db.turns|
    ensures var db' := SettleTurn(db, i, reply, reason);
            db' == db.(turns := db'.turns, handoffs := db'.handoffs)
    ensures var db' := SettleTurn(db, i, reply, reason);
            db.turns[i].status.TurnOpen? ==>
              db'.turns == db.turns[i := db.turns[i].(status := TurnDelivering, reply := reply, error := reason)]
  {
    hide HandOff, HandoffStep;
    var turn := db.turns[i];
    var mid := db.(turns := db.turns[i := turn.(status := TurnDelivering, reply := reply, error := reason)]);
    HandOffRecords(mid, turn, reason);
  }

  /** Capturing an order moves tasks, if anything, and hands nothing out. */
  lemma CaptureKeeps(db: Db, env: Env, turn: Turn, orders: Orders, now: Time)
    requires Inv(db)
    ensures var db' := CaptureOrder(db, env, turn, orders, now).db;
            && Inv(db') && Evolves(db, db') && SameTurns(db, db') && db'.runs == db.runs
            && SameDispatches(db.tasks, db'.tasks)
    ensures var refused := CaptureOrder(db, env, turn, orders, now).refused;
            refused.Some? ==> refused.value in ORDER_REASONS && CaptureOrder(db, env, turn, orders, now).db == db
  {
    hide Inv, Evolves, SameDispatches, TasksGood, TasksMove, Submit, DraftOf, PendingOrders, KeyTaken, TaskOk;
    EvolvesReflexive(db);
    GoodTasks(db);
    StayPut(db);
    var draft := OrderDraft(db, turn, orders);
    if draft.Some? {
      var tx := SubmitOrder(db, env, turn, orders, draft.value, now);
      SubmitKeeps(db, env, turn.channel, OrderKey(turn.event, orders), orders.agent,
                  [Call(ORDER_WRITE_TOOL, draft.value, "")], turn.sender, now);
      TasksMoveKeeps(db, tx.db);
    }
  }

  lemma GoodTasks(db: Db)
    requires Inv(db)
    ensures TasksGood(db)
  {
  }

  /** Handing off the order of a turn that is about to be answered. */
  lemma OrderHandOffKeeps(db: Db, i: nat, turn: Turn, reason: string)
    requires Inv(db) && i < |db.turns| && db.turns[i].status.TurnDelivering? && reason in ORDER_REASONS
    requires EventOf(turn) == EventOf(db.turns[i])
    ensures Inv(HandOff(db, turn, reason)) && Evolves(db, HandOff(db, turn, reason))
  {
    hide Inv, Evolves, QueueOk, HistoryOk, OpenTurns, HandoffsOk, HandoffStep, TurnOk;
    PartsOfInv(db);
    FitsNow(db, i);
    HandOffRecords(db, turn, reason);
    assert db.turns[i := db.turns[i]] == db.turns;
    TurnUpdateKeeps(db, HandOff(db, turn, reason), i);
  }

  /** Settling with its order keeps everything: the order's submission is a submission like
      any other, and its handoff is of a turn about to be answered. */
  lemma SettleAndOrderKeeps(
    db: Db, env: Env, i: nat, reply: string, reason: string, orders: Orders, now: Time)
    requires Inv(db) && HeldOk(db, ToSettle(i, reply, reason))
    ensures var db' := SettleAndOrder(db, env, i, reply, reason, orders, now);
            && Inv(db') && Evolves(db, db') && SameDispatches(db.tasks, db'.tasks) && db'.runs == db.runs
  {
    hide Inv, Evolves, HeldOk, SameDispatches, SettleTurn, CaptureOrder, HandOff, TasksGood;
    EvolvesReflexive(db);
    GoodTasks(db);
    StayPut(db);
    HeldTurnExists(db, i, reply, reason);
    var turn := db.turns[i];
    if turn.status.TurnOpen? {
      var mid := SettleTurn(db, i, reply, reason);
      SettleTurnKeeps(db, i, reply, reason);
      SettleTouchesTurns(db, i, reply, reason);
      CaptureKeeps(mid, env, turn, orders, now);
      var captured := CaptureOrder(mid, env, turn, orders, now);
      EvolvesTransitive(db, mid, captured.db);
      if captured.refused.Some? {
        var last := HandOff(captured.db, turn, captured.refused.value);
        OrderHandOffKeeps(captured.db, i, turn, captured.refused.value);
        EvolvesTransitive(db, captured.db, last);
        HandOffRecords(captured.db, turn, captured.refused.value);
      }
    }
  }

  lemma HeldTurnExists(db: Db, i: nat, reply: string, reason: string)
    requires HeldOk(db, ToSettle(i, reply, reason))
    ensures i < |db.turns|
  {
  }

  /** What settling comes to: the turn is answered with the reply, the history stays, and the
      turn has a handoff if and only if it had one, or a reason speaks against its reply, or
      its order is refused. */
  lemma SettledOutcome(db: Db, env: Env, i: nat, reply: string, reason: string, orders: Orders, now: Time)
    requires Inv(db) && i < |db.turns| && db.turns[i].status.TurnOpen?
    ensures var db', turn := SettleAndOrder(db, env, i, reply, reason, orders, now), db.turns[i];
            && db'.turns == db.turns[i := turn.(status := TurnDelivering, reply := reply, error := reason)]
            && db'.history == db.history
            && HandoffStep(db.handoffs, db'.handoffs, EventOf(turn))
            && (EventOf(turn) in db'.handoffs <==>
                  reason != "" || OrderRefusal(db, env, turn, orders, now).Some?)
  {
    hide Inv, Evolves, SameDispatches, SettleTurn, CaptureOrder, HandOff, HandoffStep;
    var turn := db.turns[i];
    var mid := SettleTurn(db, i, reply, reason);
    NobodyYet(db, i);
    OrderFrame(db, i, reply, reason, env, orders, now);
    SettleTouchesTurns(db, i, reply, reason);
    SettleHandsOff(db, i, reply, reason);
    CaptureFrame(mid, env, turn, orders, now);
    var captured := CaptureOrder(mid, env, turn, orders, now);
    if captured.refused.Some? {
      var last := HandOff(captured.db, turn, captured.refused.value);
      HandOffRecords(captured.db, turn, captured.refused.value);
      StepsCompose(db.handoffs, mid.handoffs, last.handoffs, EventOf(turn));
    }
  }

  /** A settled turn whose run drafted a valid order has its task, unless it is refused. */
  lemma SettledOrder(db: Db, env: Env, i: nat, reply: string, reason: string, orders: Orders, now: Time)
    requires i < |db.turns| && db.turns[i].status.TurnOpen? && OrderDraft(db, db.turns[i], orders).Some?
    ensures KeyTaken(SettleAndOrder(db, env, i, reply, reason, orders, now), db.turns[i].channel,
                     OrderKey(db.turns[i].event, orders))
       <==> OrderRefusal(db, env, db.turns[i], orders, now).None?
  {
    hide SettleTurn, CaptureOrder, HandOff, HandoffStep, OrderDraft, KeyTaken;
    var turn, mid := db.turns[i], SettleTurn(db, i, reply, reason);
    OrderFrame(db, i, reply, reason, env, orders, now);
    OrderIsTaskOrRefused(mid, env, turn, orders, now);
    var captured := CaptureOrder(mid, env, turn, orders, now);
    if captured.refused.Some? {
      var last := HandOff(captured.db, turn, captured.refused.value);
      HandOffRecords(captured.db, turn, captured.refused.value);
      KeyFrame(captured.db, last, turn.channel, OrderKey(turn.event, orders));
    }
  }

  lemma SettleHandsOff(db: Db, i: nat, reply: string, reason: string)
    requires i < |db.turns| && db.turns[i].status.TurnOpen?
    ensures var db' := SettleTurn(db, i, reply, reason);
            && HandoffStep(db.handoffs, db'.handoffs, EventOf(db.turns[i]))
            && (EventOf(db.turns[i]) in db'.handoffs <==> reason != "" || EventOf(db.turns[i]) in db.handoffs)
  {
    hide HandOff, HandoffStep;
    var turn := db.turns[i];
    SameHandoffs(db.handoffs);
    HandOffRecords(db.(turns := db.turns[i := turn.(status := TurnDelivering, reply := reply, error := reason)]),
                   turn, reason);
  }

  lemma StepsCompose(
    a: map<(string, string), string>, b: map<(string, string), string>, c: map<(string, string), string>,
    e: (string, string))
    requires HandoffStep(a, b, e) && HandoffStep(b, c, e)
    ensures HandoffStep(a, c, e)
  {
  }

  /** Capturing changes tasks and nothing of the conversations. */
  lemma CaptureFrame(db: Db, env: Env, turn: Turn, orders: Orders, now: Time)
    ensures var db' := CaptureOrder(db, env, turn, orders, now).db;
            db' == db.(tasks := db'.tasks, next := db'.next)
  {
    hide Submit, DraftOf, PendingOrders, KeyTaken;
    var draft := OrderDraft(db, turn, orders);
    if draft.Some? {
      SubmitFrame(db, env, turn.channel, OrderKey(turn.event, orders), orders.agent,
                  [Call(ORDER_WRITE_TOOL, draft.value, "")], turn.sender, now);
    }
  }

  lemma SubmitFrame(
    db: Db, env: Env, channel: string, key: Key, agent: string, plan: seq<Call>, actor: string, now: Time)
    ensures var db' := Submit(db, env, channel, key, agent, plan, actor, now).db;
            db' == db.(tasks := db'.tasks, next := db'.next)
  {
    hide Validate, Identity, DestinationAllowed, OriginOf, CreateTask;
    var v := Validate(env, agent, plan, OriginOf(db.events, channel, key));
    if v.Ok? {
      CreateFrame(db, env, channel, key, agent, plan, actor, v.value, "", now);
    }
  }

  lemma CreateFrame(
    db: Db, env: Env, channel: string, key: Key, agent: string, plan: seq<Call>, actor: string,
    fps: seq<Fingerprint>, approver: string, now: Time)
    ensures var db' := CreateTask(db, env, channel, key, agent, plan, actor, fps, approver, now).db;
            db' == db.(tasks := db'.tasks, next := db'.next)
  {
    hide PendingTasks, FreshSteps, Refresh;
    SameRows(db);
    if env.authority(channel, actor, MEMBERS) && !KeyTaken(db, channel, key)
       && Active(db, env) && |PendingTasks(db)| < MAX_PENDING_TASKS
    {
      var steps := FreshSteps(fps, approver, now);
      var task := Task(channel, key, agent, plan, actor, Refresh(steps), now, steps);
      assert CreateTask(db, env, channel, key, agent, plan, actor, fps, approver, now).db
          == db.(tasks := db.tasks[db.next := task], next := db.next + 1);
    }
  }

  lemma SameRows(db: Db)
    ensures db == db.(tasks := db.tasks, next := db.next)
  {
  }

  /** No valid draft is lost: it has a task under the order's own key, which there was or which
      is what the run drafted, submitted for the customer who then had no other order waiting;
      or the order is refused, and there is none. */
  lemma OrderIsTaskOrRefused(db: Db, env: Env, turn: Turn, orders: Orders, now: Time)
    requires OrderDraft(db, turn, orders).Some?
    ensures var captured, key := CaptureOrder(db, env, turn, orders, now), OrderKey(turn.event, orders);
            && (captured.refused.None? <==> KeyTaken(captured.db, turn.channel, key))
            && (captured.db != db ==>
                  && !KeyTaken(db, turn.channel, key) && PendingOrders(db, turn, orders.agent) == {}
                  && exists t :: IsTaskOf(captured.db, t, turn.channel, key, orders.agent,
                                          [Call(ORDER_WRITE_TOOL, OrderDraft(db, turn, orders).value, "")]))
  {
    hide Submit, DraftOf, PendingOrder;
    var args := OrderDraft(db, turn, orders).value;
    var key := OrderKey(turn.event, orders);
    var tx := SubmitOrder(db, env, turn, orders, args, now);
    SubmittedTask(db, env, turn.channel, key, orders.agent, [Call(ORDER_WRITE_TOOL, args, "")], turn.sender, now);
    if tx.out.Ok? {
      assert IsTaskOf(tx.db, tx.out.value, turn.channel, key, orders.agent, [Call(ORDER_WRITE_TOOL, args, "")]);
    }
  }
}
