/** Conversation turns as an object over the engine's tables: one method per read or
    write transaction. A read's result is the fact a worker acts on later; `HeldOk` is
    what remains true of it, however long ago it was read. */
module ConversationRuntime {
  import opened Basics
  import opened Authorization
  import opened Tasks
  import opened Store
  import opened EngineSpec
  import opened EngineProofs
  import opened EngineRuntime
  import opened ConversationSpec
  import opened ConversationProofs
  import opened OrderCapture

  const MAX_SETTLE_SCAN := 100

  class ConversationTurns {
    const engine: Engine

    constructor (engine: Engine)
      ensures this.engine == engine
    {
      this.engine := engine;
    }

    // --------------------------------------------------------------------- history

    /** `_append` at `_next_seq`: insert the line, delete what is now too old. */
    method Append(chat: Chat, role: Role, text: string)
      modifies engine`history
      ensures engine.history == old(engine.history)[chat := Appended(Lines(old(engine.history), chat), role, text)]
    {
      hide After;
      var lines := if chat in engine.history then engine.history[chat] else [];
      var n := (if lines == [] then 0 else lines[|lines| - 1].seq_) + 1;
      var rows := lines + [Line(n, role, Cut(text, MAX_RUN_INPUT_CHARS))];
      var kept := [];
      NothingAfter(n - MAX_HISTORY_ROWS);
      for k := 0 to |rows|
        invariant engine.history == old(engine.history)
        invariant kept == After(rows[..k], n - MAX_HISTORY_ROWS)
      {
        AfterNext(rows, k, n - MAX_HISTORY_ROWS);
        if rows[k].seq_ > n - MAX_HISTORY_ROWS { kept := kept + [rows[k]]; }
      }
      assert rows[..|rows|] == rows;
      engine.history := engine.history[chat := kept];
    }

    // ---------------------------------------------------------------------- record

    /** `record_turn`. */
    method RecordTurn(env: Env, channel: string, event: string, agent: string, p: Payload, now: Time)
      returns (r: Result<()>)
      requires engine.Valid() && NotBefore(engine.turns, now)
      modifies engine`turns, engine`history
      ensures engine.Valid()
      ensures var tx := ConversationSpec.RecordTurn(old(engine.View()), env, channel, event, agent, p, now);
              engine.View() == tx.db && r == tx.out
    {
      hide Inv, Evolves, Identity, Appended, Recorded, NotBefore;
      RecordTurnKeeps(engine.View(), env, channel, event, agent, p, now);
      if channel !in OUTBOUND_CHANNELS || p.conversation.None? { return Err(Invalid); }
      if !Identity(p.conversation.value) || !Identity(p.sender) || !Identity(agent) { return Err(Invalid); }
      if agent !in env.policies { return Err(Forbidden); }
      var chat := (channel, p.conversation.value);
      var lines := if chat in engine.history then engine.history[chat] else [];
      var seq_ := Newest(lines) + 1;
      var waiting := CountWaiting(chat, p.sender);
      if Recorded(engine.turns, channel, event) { return Ok(()); }
      var status := if waiting < MAX_QUEUED_TURNS_PER_SENDER then TurnQueued else TurnThrottled;
      engine.turns := engine.turns
        + [Turn(channel, event, p.conversation.value, p.sender, agent, seq_, NO_ID, status, "", NO_ID, "", now)];
      Append(chat, Customer, p.text);
      return Ok(());
    }

    method CountWaiting(chat: Chat, sender: string) returns (n: nat)
      ensures n == |WaitingTurns(engine.View(), chat, sender)|
    {
      var waiting: set<nat> := {};
      for i := 0 to |engine.turns|
        invariant waiting == set j | 0 <= j < i && engine.turns[j].status.TurnQueued?
                                   && ChatOf(engine.turns[j]) == chat && engine.turns[j].sender == sender
      {
        var t := engine.turns[i];
        if t.status == TurnQueued && (t.channel, t.conversation) == chat && t.sender == sender {
          waiting := waiting + {i};
        }
      }
      assert waiting == WaitingTurns(engine.View(), chat, sender);
      return |waiting|;
    }

    // ------------------------------------------------------------------------ open

    /** The candidate read of `_open`: the oldest queued turn of a conversation with nothing
        busy. It is then at the head of its conversation, and stays there while queued. */
    method ReadCandidate() returns (found: Option<nat>)
      requires engine.Valid()
      ensures found.Some? ==> NextQueued(engine.turns, found.value) && HeldOk(engine.View(), ToOpen(found.value))
      ensures found.None? <==> engine.frozen || forall i: nat :: !FreeToStart(engine.turns, i)
      ensures found.Some? ==>
                && FreeToStart(engine.turns, found.value)
                && forall j: nat :: j < found.value ==> !FreeToStart(engine.turns, j)
    {
      hide Inv, Eligible, AtHead, FreeToStart;
      if engine.frozen { return None; }
      found := None;
      for i := 0 to |engine.turns|
        invariant found.Some? ==>
                    && found.value < i && Eligible(engine.turns, found.value)
                    && forall j: nat :: j < i && Eligible(engine.turns, j) ==>
                         engine.turns[found.value].created < engine.turns[j].created
                         || (engine.turns[found.value].created == engine.turns[j].created && found.value <= j)
        invariant found.None? ==> forall j: nat :: j < i ==> !Eligible(engine.turns, j)
      {
        var free := IsEligible(i);
        if free && (found.None? || engine.turns[i].created < engine.turns[found.value].created) {
          found := Some(i);
        }
      }
      EligibleIsTurn(engine.turns);
      PartsOfInv(engine.View());
      forall i: nat ensures Eligible(engine.turns, i) <==> FreeToStart(engine.turns, i) {
        EligibleIsFree(engine.turns, i);
      }
      if found.Some? {
        CandidateIsAtHead(engine.turns, found.value);
        NextInLine(engine.turns, found.value);
      }
    }

    method IsEligible(i: nat) returns (b: bool)
      requires i < |engine.turns|
      ensures b == Eligible(engine.turns, i)
    {
      if engine.turns[i].status != TurnQueued { return false; }
      for j := 0 to |engine.turns|
        invariant forall k :: 0 <= k < j && SameChat(engine.turns[i], engine.turns[k]) ==> !Busy(engine.turns[k].status)
      {
        if SameChat(engine.turns[i], engine.turns[j]) && Busy(engine.turns[j].status) { return false; }
      }
      return true;
    }

    /** The write of `_open`: the ceiling is counted again, then the turn is taken only if
        it is still queued. */
    method WriteOpen(i: nat, run: Id, error: string) returns (r: Result<bool>)
      requires engine.Valid() && HeldOk(engine.View(), ToOpenWith(i, run, error))
      modifies engine`turns
      ensures engine.Valid()
      ensures var tx := OpenTurn(old(engine.View()), i, run, error); engine.View() == tx.db && r == tx.out
    {
      hide Inv, Evolves, AtHead;
      OpenTurnKeeps(engine.View(), i, run, error);
      var open := CountOpen();
      if open >= MAX_OPEN_TURNS { return Ok(false); }
      if engine.turns[i].status == TurnQueued {
        engine.turns := engine.turns[i := engine.turns[i].(status := TurnOpen, run := run, error := error)];
      }
      return Ok(true);
    }

    method CountOpen() returns (n: nat)
      ensures n == |OpenTurns(engine.turns)|
    {
      var open: set<nat> := {};
      for i := 0 to |engine.turns|
        invariant open == set j | 0 <= j < i && engine.turns[j].status.TurnOpen?
      {
        if engine.turns[i].status == TurnOpen { open := open + {i}; }
      }
      assert open == OpenTurns(engine.turns);
      return |open|;
    }

    /** `_handoff`: recorded once per event. */
    method HandOff(turn: Turn, reason: string)
      modifies engine`handoffs
      ensures engine.View() == ConversationSpec.HandOff(old(engine.View()), turn, reason)
    {
      if (turn.channel, turn.event) !in engine.handoffs {
        engine.handoffs := engine.handoffs[(turn.channel, turn.event) := reason];
      }
    }

    /** `_leave_to_operator`. */
    method WriteLeave(i: nat)
      requires engine.Valid() && HeldOk(engine.View(), ToOpen(i))
      modifies engine`turns, engine`handoffs
      ensures engine.Valid() && engine.View() == LeaveToOperator(old(engine.View()), i)
    {
      hide Inv, Evolves, AtHead;
      LeaveToOperatorKeeps(engine.View(), i);
      if engine.turns[i].status == TurnQueued {
        var turn := engine.turns[i];
        engine.turns := engine.turns[i := turn.(status := TurnOperator)];
        HandOff(turn, "operator_takeover");
      }
    }

    // ---------------------------------------------------------------------- settle

    /** The read of `_settle`: the first open turn whose run has ended, with its reply. The
        scan stops after a hundred rows, and still misses none: at most twenty are open. */
    method ReadSettled(grounded: Turn -> bool, fallback: string, limit: nat)
      returns (found: Option<(nat, string, string)>)
      requires engine.Valid()
      ensures found.None? <==>
                engine.frozen
                || forall i :: 0 <= i < |engine.turns| && engine.turns[i].status.TurnOpen? ==>
                     !RunEnded(engine.turns[i], engine.runs)
      ensures found.Some? ==>
                var (i, reply, reason) := found.value;
                && i < |engine.turns| && engine.turns[i].status.TurnOpen?
                && SettledAs(engine.turns[i], engine.runs, grounded(engine.turns[i]), fallback, limit, reply, reason)
                && SettledReply(engine.turns[i], engine.runs, grounded(engine.turns[i]), fallback, limit)
                   == Some((reply, reason))
                && forall j :: 0 <= j < i && engine.turns[j].status.TurnOpen? ==>
                     !RunEnded(engine.turns[j], engine.runs)
    {
      hide Inv, SettledReply, SettledAs, RunEnded;
      AtMostTwentyOpen(engine.View());
      if engine.frozen { return None; }
      var seen: set<nat> := {};
      for i := 0 to |engine.turns|
        invariant seen == set j | 0 <= j < i && engine.turns[j].status.TurnOpen?
        invariant forall j :: 0 <= j < i && engine.turns[j].status.TurnOpen? ==>
                    !RunEnded(engine.turns[j], engine.runs)
      {
        SubsetSize(seen, OpenTurns(engine.turns));
        if engine.turns[i].status == TurnOpen && |seen| < MAX_SETTLE_SCAN {
          var settled := SettledReply(engine.turns[i], engine.runs, grounded(engine.turns[i]), fallback, limit);
          SettledReplyMeans(engine.turns[i], engine.runs, grounded(engine.turns[i]), fallback, limit);
          if settled.Some? {
            assert RunEnded(engine.turns[i], engine.runs);
            return Some((i, settled.value.0, settled.value.1));
          }
          seen := seen + {i};
        }
      }
      return None;
    }

    /** The write of `_settle`: the reply with its handoff, and in the same transaction the
        order the run drafted. */
    method WriteSettle(env: Env, i: nat, reply: string, reason: string, orders: Orders, now: Time)
      requires engine.Valid() && HeldOk(engine.View(), ToSettle(i, reply, reason))
      modifies engine`turns, engine`handoffs, engine`tasks, engine`next
      ensures engine.Valid()
      ensures engine.View() == SettleAndOrder(old(engine.View()), env, i, reply, reason, orders, now)
    {
      hide Inv, Evolves, Answered, HeldOk, OrderCapture.CaptureOrder;
      SettleAndOrderKeeps(engine.View(), env, i, reply, reason, orders, now);
      HeldTurnExists(engine.View(), i, reply, reason);
      var turn := engine.turns[i];
      if turn.status == TurnOpen {
        SettleTurnKeeps(engine.View(), i, reply, reason);
        engine.turns := engine.turns[i := turn.(status := TurnDelivering, reply := reply, error := reason)];
        if reason != "" { HandOff(turn, reason); }
        assert engine.View() == SettleTurn(old(engine.View()), i, reply, reason);
        var refused := CaptureOrder(env, turn, orders, now);
        if refused.Some? { HandOff(turn, refused.value); }
      }
    }

    /** `_capture_order`: None when there is no order, or it has its task now. */
    method CaptureOrder(env: Env, turn: Turn, orders: Orders, now: Time) returns (refused: Option<string>)
      requires engine.Valid()
      modifies engine`tasks, engine`next
      ensures engine.Valid()
      ensures var captured := OrderCapture.CaptureOrder(old(engine.View()), env, turn, orders, now);
              engine.View() == captured.db && refused == captured.refused
    {
      hide Inv, Evolves, EngineSpec.Submit, KeyTaken, SameDispatches, SameTurns, PendingOrders, DraftOf;
      CaptureKeeps(engine.View(), env, turn, orders, now);
      var draft := FindDraft(turn, orders);
      if draft.None? { return None; }
      var key := OrderKey(turn.event, orders);
      var known := engine.FindTask(turn.channel, key);
      if known.Some? { return None; }
      var pending := CountOrders(turn, orders.agent);
      if pending >= MAX_PENDING_ORDERS_PER_SENDER { return Some("order_pending"); }
      var savedTasks, savedNext := engine.tasks, engine.next;
      var task := engine.Submit(env, turn.channel, key, orders.agent,
                                [Call(ORDER_WRITE_TOOL, draft.value, "")], turn.sender, now);
      if task.Err? {
        engine.tasks, engine.next := savedTasks, savedNext;
        return Some("order_rejected");
      }
      return None;
    }

    /** `_order_draft`: from the latest link back. */
    method FindDraft(turn: Turn, orders: Orders) returns (draft: Option<Args>)
      ensures draft == OrderDraft(engine.View(), turn, orders)
    {
      hide DraftIn;
      if turn.run !in engine.runs || orders.agent == "" { return None; }
      var links := engine.runs[turn.run].links;
      var k := |links|;
      assert links[..k] == links;
      while k > 0
        invariant k <= |links|
        invariant DraftOf(engine.tasks, links, orders, turn) == DraftOf(engine.tasks, links[..k], orders, turn)
      {
        k := k - 1;
        assert links[..k + 1][..k] == links[..k];
        draft := DraftIn(engine.tasks, links[k], orders, turn);
        if draft.Some? { return; }
      }
      return None;
    }

    /** `_pending_orders`. */
    method CountOrders(turn: Turn, agent: string) returns (n: nat)
      ensures n == |PendingOrders(engine.View(), turn, agent)|
    {
      var pending := set t | t in engine.tasks && PendingOrder(engine.tasks[t], turn, agent);
      assert pending == PendingOrders(engine.View(), turn, agent);
      return |pending|;
    }

    // --------------------------------------------------------------------- deliver

    /** The suppressing write of `_deliver`. */
    method Suppress(i: nat, now: Time) returns (r: Result<bool>)
      requires engine.Valid() && i < |engine.turns|
      modifies engine`turns
      ensures engine.Valid()
      ensures var tx := SuppressReply(old(engine.View()), i, now); engine.View() == tx.db && r == tx.out
    {
      hide Inv, Evolves;
      SuppressReplyKeeps(engine.View(), i, now);
      var turn := engine.turns[i];
      var chat := (turn.channel, turn.conversation);
      if chat !in engine.takeovers || engine.takeovers[chat].until <= now { return Ok(false); }
      if turn.status == TurnDelivering && turn.task == NO_ID {
        engine.turns := engine.turns[i := turn.(status := TurnOperator, error := "operator_took_over")];
      }
      return Ok(true);
    }

    /** The attaching write of `_deliver`, for the task `submit` returned. */
    method WriteAttach(i: nat, task: Id)
      requires engine.Valid() && HeldOk(engine.View(), ToAttach(i, task))
      modifies engine`turns
      ensures engine.Valid() && engine.View() == AttachTask(old(engine.View()), i, task)
    {
      hide Inv, Evolves;
      AttachTaskKeeps(engine.View(), i, task);
      var turn := engine.turns[i];
      if turn.status == TurnDelivering && turn.task == NO_ID {
        engine.turns := engine.turns[i := turn.(task := task)];
      }
    }

    /** `_finish`, which always hands off, and always reports progress to its caller. */
    method Finish(i: nat, status: TurnStatus, error: string) returns (moved: bool)
      requires engine.Valid() && i < |engine.turns|
      requires status.TurnFailed? || (status.TurnUncertain? && engine.turns[i].task != NO_ID)
      modifies engine`turns, engine`handoffs
      ensures moved
      ensures engine.Valid() && engine.View() == GiveUp(old(engine.View()), i, status, error)
    {
      hide Inv, Evolves;
      GiveUpKeeps(engine.View(), i, status, error);
      var turn := engine.turns[i];
      if turn.status == TurnDelivering {
        engine.turns := engine.turns[i := turn.(status := status, error := error)];
        HandOff(turn, error);
      }
      return true;
    }

    // ----------------------------------------------------------------------- close

    /** The write of `_close`, for the task status its read returned. */
    method WriteClose(i: nat, observed: Status)
      requires engine.Valid() && HeldOk(engine.View(), ToClose(i, observed))
      modifies engine`turns, engine`history, engine`handoffs
      ensures engine.Valid() && engine.View() == CloseTurn(old(engine.View()), i, observed)
    {
      hide Inv, Evolves, Appended, GiveUp;
      CloseTurnKeeps(engine.View(), i, observed);
      if observed == Uncertain {
        var _ := Finish(i, TurnUncertain, "send_uncertain");
      } else if observed != Succeeded {
        var _ := Finish(i, TurnFailed, if observed == Cancelled then "send_cancelled" else "send_failed");
      } else {
        var turn := engine.turns[i];
        if turn.status == TurnDelivering {
          engine.turns := engine.turns[i := turn.(status := TurnDelivered)];
          Append((turn.channel, turn.conversation), AgentLine, turn.reply);
        }
      }
    }

    /** One delivered operator reply: its line joins the conversation, and the takeover of
        the chat starts, in one transaction. */
    method Announce(tid: Id, minutes: int, now: Time)
      requires engine.Valid() && Announceable(engine.View(), tid)
      modifies engine`history, engine`takeovers, engine`announced
      ensures engine.Valid() && engine.View() == AnnounceReply(old(engine.View()), tid, minutes, now)
    {
      hide Inv, Evolves, Appended;
      AnnounceReplyKeeps(engine.View(), tid, minutes, now);
      var t := engine.tasks[tid];
      var chat := (ChannelOf(t.plan[0].tool), Recipient(t.plan[0]).value);
      engine.announced := engine.announced + {tid};
      Append(chat, OperatorLine, t.plan[0].args["text"]);
      var length := if 1 <= minutes <= 1440 then minutes else 30;
      engine.takeovers := engine.takeovers[chat := Takeover(t.actor, now + (length * 60) as real)];
    }
  }

  lemma NothingAfter(bound: int)
    ensures After([], bound) == []
  {
  }

  lemma AfterNext(rows: seq<Line>, k: nat, bound: int)
    requires k < |rows|
    ensures After(rows[..k + 1], bound) == After(rows[..k], bound) + (if rows[k].seq_ > bound then [rows[k]] else [])
  {
    assert rows[..k + 1][..k] == rows[..k];
  }

  lemma EligibleIsTurn(turns: seq<Turn>)
    ensures forall i: nat :: Eligible(turns, i) ==> i < |turns|
  {
  }

  lemma AtMostTwentyOpen(db: Db)
    requires Inv(db)
    ensures |OpenTurns(db.turns)| <= MAX_OPEN_TURNS
  {
    hide TasksOk, RunsOk, TurnsOk, HistoryOk, HandoffsOk, OpenTurns;
  }
}
