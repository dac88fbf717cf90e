/** Conversation turns keep the invariant, whatever a worker's stale read says. */
module ConversationProofs {
  import opened Basics
  import opened Authorization
  import opened Tasks
  import opened Store
  import opened EngineSpec
  import opened ConversationSpec

  // --------------------------------------------------------------------- history

  /** How many of these lines, numbered one after the other, are up to the bound. */
  function UpTo(lines: seq<Line>, bound: int): (n: nat)
    ensures n <= |lines|
  {
    if lines == [] || bound < lines[0].seq_ then 0
    else if bound - lines[0].seq_ + 1 <= |lines| then bound - lines[0].seq_ + 1
    else |lines|
  }

  lemma {:induction false} AfterContiguous(lines: seq<Line>, bound: int)
    requires forall k :: 0 <= k < |lines| ==> lines[k].seq_ == lines[0].seq_ + k
    ensures After(lines, bound) == lines[UpTo(lines, bound)..]
    decreases |lines|
  {
    if lines != [] {
      var init, last := lines[..|lines| - 1], lines[|lines| - 1];
      AfterContiguous(init, bound);
      if last.seq_ > bound {
        assert UpTo(lines, bound) == UpTo(init, bound);
        DropOfAppended(init, last, UpTo(init, bound));
        assert lines == init + [last];
      } else {
        assert UpTo(lines, bound) == |lines| && UpTo(init, bound) == |init|;
      }
    }
  }

  lemma DropOfAppended(init: seq<Line>, last: Line, n: nat)
    requires n <= |init|
    ensures (init + [last])[n..] == init[n..] + [last]
  {
  }

  /** Appending keeps a window: the kept lines are the longest suffix within the bound,
      still contiguous, ending with the new line. */
  lemma AppendedIsWindow(lines: seq<Line>, role: Role, text: string)
    requires lines == [] || Window(lines)
    ensures var lines' := Appended(lines, role, text);
            var all := lines + [Line(Newest(lines) + 1, role, Cut(text, MAX_RUN_INPUT_CHARS))];
            && Window(lines') && Newest(lines') == Newest(lines) + 1
            && lines' == all[if |all| <= MAX_HISTORY_ROWS then 0 else |all| - MAX_HISTORY_ROWS..]
  {
    var all := lines + [Line(Newest(lines) + 1, role, Cut(text, MAX_RUN_INPUT_CHARS))];
    AfterContiguous(all, Newest(lines) + 1 - MAX_HISTORY_ROWS);
  }

  lemma WithLineKeepsHistory(db: Db, chat: Chat, role: Role, text: string, turns: seq<Turn>)
    requires HistoryOk(db.history, turns)
    ensures HistoryOk(WithLine(db, chat, role, text).history, turns)
    ensures Newest(Lines(WithLine(db, chat, role, text).history, chat)) == Newest(Lines(db.history, chat)) + 1
  {
    hide After, Window, Appended;
    AppendedIsWindow(Lines(db.history, chat), role, text);
  }

  // ----------------------------------------------------------------------- queue

  /** A turn that already left the queue moves on without opening. */
  lemma QueueAdvances(turns: seq<Turn>, i: nat, turn: Turn)
    requires QueueOk(turns) && i < |turns| && Busy(turns[i].status)
    requires SameChat(turn, turns[i]) && Taken(turn.status) && !turn.status.TurnOpen?
    ensures QueueOk(turns[i := turn])
  {
    assert OpenTurns(turns[i := turn]) <= OpenTurns(turns);
    SubsetSize(OpenTurns(turns[i := turn]), OpenTurns(turns));
  }

  lemma {:induction false} SubsetSize<T>(a: set<T>, b: set<T>)
    requires a <= b
    ensures |a| <= |b|
  {
    assert b == a + (b - a);
  }

  /** The stale candidate is safe: taking a turn that was at the head when it was read,
      and is still queued now, keeps the queue discipline. */
  lemma QueueTakes(turns: seq<Turn>, i: nat, turn: Turn)
    requires QueueOk(turns) && AtHead(turns, i) && turns[i].status.TurnQueued?
    requires SameChat(turn, turns[i])
    requires turn.status.TurnOperator? || (turn.status.TurnOpen? && |OpenTurns(turns)| < MAX_OPEN_TURNS)
    ensures QueueOk(turns[i := turn])
  {
    var turns' := turns[i := turn];
    OneMoreOpen(turns, i, turn);
    forall j, k | 0 <= j < k < |turns| && SameChat(turns'[j], turns'[k])
      ensures !(Busy(turns'[j].status) && Busy(turns'[k].status))
      ensures Taken(turns'[k].status) ==> !turns'[j].status.TurnQueued?
      ensures Busy(turns'[j].status) ==> !Taken(turns'[k].status)
    {
      assert SameChat(turns[j], turns[k]);
    }
  }

  lemma OneMoreOpen(turns: seq<Turn>, i: nat, turn: Turn)
    requires i < |turns| && !turns[i].status.TurnOpen?
    ensures |OpenTurns(turns[i := turn])| == |OpenTurns(turns)| + (if turn.status.TurnOpen? then 1 else 0)
  {
    assert OpenTurns(turns[i := turn]) == OpenTurns(turns) + (if turn.status.TurnOpen? then {i} else {});
  }

  lemma QueueAppends(turns: seq<Turn>, turn: Turn)
    requires QueueOk(turns) && !Taken(turn.status)
    ensures QueueOk(turns + [turn])
  {
    assert OpenTurns(turns + [turn]) == OpenTurns(turns);
  }

  /** The read of `_open` finds the head of its conversation's queue. */
  lemma CandidateIsAtHead(turns: seq<Turn>, i: nat)
    requires NextQueued(turns, i)
    requires forall j, k :: 0 <= j < k < |turns| ==> turns[j].created <= turns[k].created
    ensures AtHead(turns, i)
  {
    forall j: nat | j < i && SameChat(turns[j], turns[i]) ensures !turns[j].status.TurnQueued? {
      assert turns[j].status.TurnQueued? ==> Eligible(turns, j);
    }
  }

  /** The turn waits, and nothing of its conversation is being answered. */
  predicate FreeToStart(turns: seq<Turn>, i: nat) {
    && i < |turns| && turns[i].status.TurnQueued?
    && forall j :: 0 <= j < |turns| && turns[j].channel == turns[i].channel
                   && turns[j].conversation == turns[i].conversation ==>
         turns[j].status !in {TurnOpen, TurnDelivering}
  }

  /** Main result: the candidate is the turn recorded before every other that is free to start. */
  lemma NextInLine(turns: seq<Turn>, i: nat)
    requires forall j, k :: 0 <= j < k < |turns| ==> turns[j].created <= turns[k].created
    ensures NextQueued(turns, i) <==> FreeToStart(turns, i) && forall j: nat :: j < i ==> !FreeToStart(turns, j)
  {
    hide Eligible, FreeToStart;
    forall j: nat ensures Eligible(turns, j) <==> FreeToStart(turns, j) {
      EligibleIsFree(turns, j);
    }
    FreeIsTurn(turns);
    if FreeToStart(turns, i) && (forall j: nat :: j < i ==> !FreeToStart(turns, j)) {
      forall j: nat | j < |turns| && Eligible(turns, j)
        ensures turns[i].created < turns[j].created || (turns[i].created == turns[j].created && i <= j)
      {
        assert i <= j;
      }
    }
  }

  lemma EligibleIsFree(turns: seq<Turn>, i: nat)
    ensures Eligible(turns, i) <==> FreeToStart(turns, i)
  {
    if i < |turns| {
      forall j | 0 <= j < |turns|
        ensures SameChat(turns[i], turns[j]) <==>
                  turns[j].channel == turns[i].channel && turns[j].conversation == turns[i].conversation
      {
      }
    }
  }

  lemma FreeIsTurn(turns: seq<Turn>)
    ensures forall i: nat :: FreeToStart(turns, i) ==> i < |turns|
  {
  }

  // --------------------------------------------------------------- one turn moves

  /** A handoff of one event at most is added; those there are kept. */
  ghost predicate HandoffStep(
    h: map<(string, string), string>, h': map<(string, string), string>, e: (string, string))
  {
    HandoffsEvolve(h, h') && forall k :: k in h' ==> k in h || k == e
  }

  lemma TurnUpdateKeeps(db: Db, db': Db, i: nat)
    requires Inv(db) && i < |db.turns| == |db'.turns|
    requires db' == db.(turns := db.turns[i := db'.turns[i]], history := db'.history, handoffs := db'.handoffs)
    requires TurnOk(db.tasks, db.runs, db'.turns[i]) && TurnEvolves(db.turns[i], db'.turns[i])
    requires QueueOk(db'.turns) && HistoryOk(db'.history, db.turns)
    requires HandoffStep(db.handoffs, db'.handoffs, EventOf(db'.turns[i]))
    requires HandoffFits(db'.handoffs, db'.turns[i])
    ensures Inv(db') && Evolves(db, db')
  {
    hide TasksOk, RunsOk, TurnsOk, QueueOk, HistoryOk, HandoffsOk, TasksEvolve, RunsEvolve, TurnsEvolve, TurnOk,
         TurnEvolves, HandoffFits;
    EvolvesReflexive(db);
    TurnsOkUpdate(db, i, db'.turns[i]);
    HistoryOkUpdate(db, db'.history, i, db'.turns[i]);
    HandoffsOkUpdate(db, db'.handoffs, i, db'.turns[i]);
  }

  lemma TurnsOkUpdate(db: Db, i: nat, turn: Turn)
    requires TurnsOk(db.turns, db.tasks, db.runs) && i < |db.turns|
    requires TurnOk(db.tasks, db.runs, turn) && TurnEvolves(db.turns[i], turn)
    ensures TurnsOk(db.turns[i := turn], db.tasks, db.runs)
    ensures TurnsEvolve(db.turns, db.turns[i := turn])
  {
    hide TurnOk;
  }

  lemma HistoryOkUpdate(db: Db, history: map<Chat, seq<Line>>, i: nat, turn: Turn)
    requires HistoryOk(history, db.turns) && i < |db.turns| && TurnEvolves(db.turns[i], turn)
    ensures HistoryOk(history, db.turns[i := turn])
  {
    hide Window, Newest, Lines;
  }

  lemma HandoffsOkUpdate(db: Db, handoffs: map<(string, string), string>, i: nat, turn: Turn)
    requires HandoffsOk(db.handoffs, db.turns) && TurnsOk(db.turns, db.tasks, db.runs) && i < |db.turns|
    requires TurnEvolves(db.turns[i], turn) && HandoffStep(db.handoffs, handoffs, EventOf(turn))
    requires HandoffFits(handoffs, turn)
    ensures HandoffsOk(handoffs, db.turns[i := turn])
  {
    hide TurnOk, HandoffFits, TurnsOk, TurnEvolves, EventOf, HandoffStep;
    var turns' := db.turns[i := turn];
    EventStays(db, i, turn);
    forall j | 0 <= j < |turns'| ensures HandoffFits(handoffs, turns'[j]) {
      if j != i { OtherStillFits(db.handoffs, handoffs, EventOf(turn), db.turns[j]); }
    }
    StepAddsOne(db.handoffs, handoffs, EventOf(turn));
    forall e | e in handoffs ensures exists j :: 0 <= j < |turns'| && EventOf(turns'[j]) == e {
      if e == EventOf(turn) {
        assert EventOf(turns'[i]) == e;
      } else {
        var j :| 0 <= j < |db.turns| && EventOf(db.turns[j]) == e;
        assert EventOf(turns'[j]) == e;
      }
    }
  }

  lemma OtherStillFits(
    h: map<(string, string), string>, h': map<(string, string), string>, e: (string, string), turn: Turn)
    requires HandoffStep(h, h', e) && EventOf(turn) != e && HandoffFits(h, turn)
    ensures HandoffFits(h', turn)
  {
  }

  lemma StepAddsOne(h: map<(string, string), string>, h': map<(string, string), string>, e: (string, string))
    requires HandoffStep(h, h', e)
    ensures forall k :: k in h' ==> k in h || k == e
  {
  }

  lemma EventStays(db: Db, i: nat, turn: Turn)
    requires TurnsOk(db.turns, db.tasks, db.runs) && i < |db.turns| && TurnEvolves(db.turns[i], turn)
    ensures EventOf(turn) == EventOf(db.turns[i])
    ensures forall j :: 0 <= j < |db.turns| && j != i ==> EventOf(db.turns[j]) != EventOf(turn)
  {
    hide TurnOk;
    forall j | 0 <= j < |db.turns| && j != i ensures EventOf(db.turns[j]) != EventOf(turn) {
      assert (db.turns[if j < i then j else i].channel, db.turns[if j < i then j else i].event)
          != (db.turns[if j < i then i else j].channel, db.turns[if j < i then i else j].event);
    }
  }

  lemma HandOffRecords(db: Db, turn: Turn, reason: string)
    ensures var db' := HandOff(db, turn, reason);
            && db' == db.(handoffs := db'.handoffs)
            && HandoffStep(db.handoffs, db'.handoffs, EventOf(turn)) && EventOf(turn) in db'.handoffs
  {
    hide HandoffStep;
    SameHandoffs(db.handoffs);
    OneHandoff(db.handoffs, EventOf(turn), reason);
  }

  lemma OneHandoff(h: map<(string, string), string>, e: (string, string), reason: string)
    ensures e !in h ==> HandoffStep(h, h[e := reason], e)
  {
  }

  lemma FitsNow(db: Db, i: nat)
    requires Inv(db) && i < |db.turns|
    ensures HandoffFits(db.handoffs, db.turns[i])
  {
    hide TasksOk, RunsOk, TurnsOk, QueueOk, HistoryOk, HandoffFits;
  }

  /** A turn nobody has answered yet has no handoff. */
  lemma NobodyYet(db: Db, i: nat)
    requires Inv(db) && i < |db.turns| && NotYetAnswered(db.turns[i])
    ensures EventOf(db.turns[i]) !in db.handoffs
  {
    hide TasksOk, RunsOk, TurnsOk, QueueOk, HistoryOk;
  }

  lemma StillHandedOff(db: Db, i: nat)
    requires Inv(db) && i < |db.turns| && NeedsHuman(db.turns[i])
    ensures EventOf(db.turns[i]) in db.handoffs
  {
    hide TasksOk, RunsOk, TurnsOk, QueueOk, HistoryOk;
  }

  lemma PartsOfInv(db: Db)
    requires Inv(db)
    ensures QueueOk(db.turns) && HistoryOk(db.history, db.turns) && HandoffsOk(db.handoffs, db.turns)
    ensures forall i :: 0 <= i < |db.turns| ==> TurnOk(db.tasks, db.runs, db.turns[i])
    ensures forall j, k :: 0 <= j < k < |db.turns| ==> db.turns[j].created <= db.turns[k].created
    ensures NO_ID !in db.runs && NO_ID !in db.tasks
  {
  }

  lemma OpenTurnKeeps(db: Db, i: nat, run: Id, error: string)
    requires Inv(db) && HeldOk(db, ToOpenWith(i, run, error))
    ensures Inv(OpenTurn(db, i, run, error).db) && Evolves(db, OpenTurn(db, i, run, error).db)
  {
    hide Inv, Evolves, QueueOk, HistoryOk, OpenTurns, HandoffsOk, HandoffStep;
    EvolvesReflexive(db);
    PartsOfInv(db);
    if |OpenTurns(db.turns)| < MAX_OPEN_TURNS && db.turns[i].status.TurnQueued? {
      var db' := OpenTurn(db, i, run, error).db;
      QueueTakes(db.turns, i, db'.turns[i]);
      FitsNow(db, i);
      SameHandoffs(db.handoffs);
      TurnUpdateKeeps(db, db', i);
    }
  }

  lemma LeaveToOperatorKeeps(db: Db, i: nat)
    requires Inv(db) && HeldOk(db, ToOpen(i))
    ensures Inv(LeaveToOperator(db, i)) && Evolves(db, LeaveToOperator(db, i))
  {
    hide Inv, Evolves, QueueOk, HistoryOk, OpenTurns, HandoffsOk, HandOff, HandoffStep;
    EvolvesReflexive(db);
    PartsOfInv(db);
    if db.turns[i].status.TurnQueued? {
      var turn := db.turns[i].(status := TurnOperator);
      HandOffRecords(db.(turns := db.turns[i := turn]), db.turns[i], "operator_takeover");
      QueueTakes(db.turns, i, turn);
      TurnUpdateKeeps(db, LeaveToOperator(db, i), i);
    }
  }

  // ------------------------------------------------------------------- settling

  /** The turn has nothing to wait for any more. */
  predicate RunEnded(turn: Turn, runs: map<Id, Run>) {
    turn.error != "" || turn.run !in runs || !ActiveRun(runs[turn.run].status)
  }

  /** The turn's run gave an answer, or asked a question. */
  predicate HasAnswer(turn: Turn, runs: map<Id, Run>) {
    turn.error == "" && turn.run in runs && runs[turn.run].status in {RunSucceeded, NeedsInput}
  }

  /** When this is what speaks against the reply; "" stands for nothing. */
  predicate SettlesFor(turn: Turn, runs: map<Id, Run>, grounded: bool, reason: string) {
    if turn.error != "" then reason == turn.error
    else
      match reason
      case "" => HasAnswer(turn, runs) && grounded && !Blank(runs[turn.run].answer)
      case "run_missing" => turn.run !in runs
      case "run_uncertain" => turn.run in runs && runs[turn.run].status == RunUncertain
      case "run_cancelled" => turn.run in runs && runs[turn.run].status == RunCancelled
      case "run_escalated" => turn.run in runs && runs[turn.run].status == Escalated
      case "ungrounded_number" => HasAnswer(turn, runs) && !grounded
      case "empty_reply" => HasAnswer(turn, runs) && grounded && Blank(runs[turn.run].answer)
      case _ => false
  }

  /** As much of the text as the channel takes. */
  predicate Fitted(text: string, limit: nat, reply: string) {
    reply <= text && |reply| == if |text| <= limit then |text| else limit
  }

  /** What a turn is settled with: the one reason that holds, and the run's answer if there is
      none against it, the agent's fallback or the default text if there is. */
  ghost predicate SettledAs(
    turn: Turn, runs: map<Id, Run>, grounded: bool, fallback: string, limit: nat, reply: string, reason: string)
  {
    && RunEnded(turn, runs)
    && (forall why :: SettlesFor(turn, runs, grounded, why) <==> why == reason)
    && (if reason == "" then HasAnswer(turn, runs) && Fitted(runs[turn.run].answer, limit, reply)
        else Fitted(if Blank(fallback) then DEFAULT_HANDOFF_TEXT else fallback, limit, reply))
  }

  /** Main result: a turn is settled as soon as its run has ended, and as its causes say. */
  lemma SettledReplyMeans(turn: Turn, runs: map<Id, Run>, grounded: bool, fallback: string, limit: nat)
    ensures var r := SettledReply(turn, runs, grounded, fallback, limit);
            && (r.Some? <==> RunEnded(turn, runs))
            && (r.Some? ==> SettledAs(turn, runs, grounded, fallback, limit, r.value.0, r.value.1))
  {
    hide Blank, SettlesFor;
    var r := SettledReply(turn, runs, grounded, fallback, limit);
    if r.Some? {
      forall why ensures SettlesFor(turn, runs, grounded, why) <==> why == r.value.1 {
        OneReason(turn, runs, grounded, fallback, limit, why);
      }
    }
  }

  lemma OneReason(turn: Turn, runs: map<Id, Run>, grounded: bool, fallback: string, limit: nat, why: string)
    requires SettledReply(turn, runs, grounded, fallback, limit).Some?
    ensures SettlesFor(turn, runs, grounded, why)
       <==> why == SettledReply(turn, runs, grounded, fallback, limit).value.1
  {
    hide Blank, Cut;
    assert "run_" + "uncertain" == "run_uncertain" && "run_" + "cancelled" == "run_cancelled"
        && "run_" + "escalated" == "run_escalated";
  }

  lemma SettleTurnKeeps(db: Db, i: nat, reply: string, reason: string)
    requires Inv(db) && HeldOk(db, ToSettle(i, reply, reason))
    ensures Inv(SettleTurn(db, i, reply, reason)) && Evolves(db, SettleTurn(db, i, reply, reason))
  {
    hide Inv, Evolves, QueueOk, HistoryOk, OpenTurns, HandoffsOk, HandOff, HandoffStep;
    EvolvesReflexive(db);
    PartsOfInv(db);
    if db.turns[i].status.TurnOpen? {
      var turn := db.turns[i].(status := TurnDelivering, reply := reply, error := reason);
      assert TurnOk(db.tasks, db.runs, db.turns[i]);
      HandOffRecords(db.(turns := db.turns[i := turn]), db.turns[i], reason);
      SameHandoffs(db.handoffs);
      FitsNow(db, i);
      QueueAdvances(db.turns, i, turn);
      TurnUpdateKeeps(db, SettleTurn(db, i, reply, reason), i);
    }
  }

  lemma SameHandoffs(h: map<(string, string), string>)
    ensures forall e :: HandoffStep(h, h, e)
  {
  }

  lemma SuppressReplyKeeps(db: Db, i: nat, now: Time)
    requires Inv(db) && i < |db.turns|
    ensures Inv(SuppressReply(db, i, now).db) && Evolves(db, SuppressReply(db, i, now).db)
  {
    hide Inv, Evolves, QueueOk, HistoryOk, OpenTurns, HandoffsOk, HandoffStep;
    EvolvesReflexive(db);
    PartsOfInv(db);
    if db.turns[i].status.TurnDelivering? && db.turns[i].task == NO_ID {
      assert TurnOk(db.tasks, db.runs, db.turns[i]);
      SameHandoffs(db.handoffs);
      var turn := db.turns[i].(status := TurnOperator, error := "operator_took_over");
      QueueAdvances(db.turns, i, turn);
      TurnUpdateKeeps(db, db.(turns := db.turns[i := turn]), i);
    }
  }

  lemma AttachTaskKeeps(db: Db, i: nat, task: Id)
    requires Inv(db) && HeldOk(db, ToAttach(i, task))
    ensures Inv(AttachTask(db, i, task)) && Evolves(db, AttachTask(db, i, task))
  {
    hide Inv, Evolves, QueueOk, HistoryOk, OpenTurns, HandoffsOk, HandoffStep;
    EvolvesReflexive(db);
    PartsOfInv(db);
    if db.turns[i].status.TurnDelivering? && db.turns[i].task == NO_ID {
      assert TurnOk(db.tasks, db.runs, db.turns[i]);
      SameHandoffs(db.handoffs);
      FitsNow(db, i);
      QueueAdvances(db.turns, i, db.turns[i].(task := task));
      TurnUpdateKeeps(db, AttachTask(db, i, task), i);
    }
  }

  lemma GiveUpKeeps(db: Db, i: nat, status: TurnStatus, error: string)
    requires Inv(db) && i < |db.turns|
    requires status.TurnFailed? || (status.TurnUncertain? && db.turns[i].task != NO_ID)
    ensures Inv(GiveUp(db, i, status, error)) && Evolves(db, GiveUp(db, i, status, error))
  {
    hide Inv, Evolves, QueueOk, HistoryOk, OpenTurns, HandoffsOk, HandOff, HandoffStep;
    EvolvesReflexive(db);
    PartsOfInv(db);
    if db.turns[i].status.TurnDelivering? {
      var turn := db.turns[i].(status := status, error := error);
      assert TurnOk(db.tasks, db.runs, db.turns[i]);
      HandOffRecords(db.(turns := db.turns[i := turn]), db.turns[i], error);
      QueueAdvances(db.turns, i, turn);
      TurnUpdateKeeps(db, GiveUp(db, i, status, error), i);
    }
  }

  lemma CloseTurnKeeps(db: Db, i: nat, observed: Status)
    requires Inv(db) && HeldOk(db, ToClose(i, observed))
    ensures Inv(CloseTurn(db, i, observed)) && Evolves(db, CloseTurn(db, i, observed))
  {
    hide Inv, Evolves, QueueOk, HistoryOk, OpenTurns, HandoffsOk, HandoffStep, GiveUp, Appended;
    EvolvesReflexive(db);
    PartsOfInv(db);
    if observed.Uncertain? {
      GiveUpKeeps(db, i, TurnUncertain, "send_uncertain");
    } else if !observed.Succeeded? {
      GiveUpKeeps(db, i, TurnFailed, if observed.Cancelled? then "send_cancelled" else "send_failed");
    } else if db.turns[i].status.TurnDelivering? {
      var turn := db.turns[i].(status := TurnDelivered);
      assert TurnOk(db.tasks, db.runs, db.turns[i]);
      SameHandoffs(db.handoffs);
      FitsNow(db, i);
      QueueAdvances(db.turns, i, turn);
      WithLineKeepsHistory(db.(turns := db.turns[i := turn]), ChatOf(db.turns[i]), AgentLine, db.turns[i].reply,
                           db.turns);
      TurnUpdateKeeps(db, CloseTurn(db, i, observed), i);
    }
  }

  // -------------------------------------------------------- record, takeover, lines

  /** The one assumption about time: a turn is recorded no earlier than those before it. */
  predicate NotBefore(turns: seq<Turn>, now: Time) {
    forall i :: 0 <= i < |turns| ==> turns[i].created <= now
  }

  lemma RecordTurnKeeps(db: Db, env: Env, channel: string, event: string, agent: string, p: Payload, now: Time)
    requires Inv(db) && NotBefore(db.turns, now)
    ensures Inv(RecordTurn(db, env, channel, event, agent, p, now).db)
    ensures Evolves(db, RecordTurn(db, env, channel, event, agent, p, now).db)
  {
    hide Inv, Evolves, QueueOk, HistoryOk, HandoffsOk, WaitingTurns, Appended, Recorded, NotBefore, Lines;
    EvolvesReflexive(db);
    PartsOfInv(db);
    var tx := RecordTurn(db, env, channel, event, agent, p, now);
    if tx.out.Ok? && !Recorded(db.turns, channel, event) {
      var chat := (channel, p.conversation.value);
      var turn := tx.db.turns[|db.turns|];
      WithLineKeepsHistory(db.(turns := db.turns + [turn]), chat, Customer, p.text, db.turns);
      RecordedKeeps(db, tx.db, turn);
    }
  }

  lemma RecordedKeeps(db: Db, db': Db, turn: Turn)
    requires Inv(db) && NotBefore(db.turns, turn.created) && !Recorded(db.turns, turn.channel, turn.event)
    requires db' == db.(turns := db.turns + [turn], history := db'.history)
    requires !Taken(turn.status) && turn.run == NO_ID && turn.task == NO_ID && turn.reply == "" && turn.error == ""
    requires turn.channel in OUTBOUND_CHANNELS
    requires HistoryOk(db'.history, db.turns)
    requires turn.seq_ == Newest(Lines(db.history, ChatOf(turn))) + 1 == Newest(Lines(db'.history, ChatOf(turn)))
    ensures Inv(db') && Evolves(db, db')
  {
    hide TasksOk, RunsOk, QueueOk, Window, TurnOk, Newest, Lines, HandoffsOk;
    EvolvesReflexive(db);
    QueueAppends(db.turns, turn);
    assert TurnOk(db.tasks, db.runs, turn) by {
      FreshTurnOk(db.tasks, db.runs, turn);
    }
    HandoffsOkAppended(db, turn);
  }

  /** A new turn's event has no handoff: every handoff is of an event with a turn. */
  lemma HandoffsOkAppended(db: Db, turn: Turn)
    requires HandoffsOk(db.handoffs, db.turns) && !Recorded(db.turns, turn.channel, turn.event) && !Taken(turn.status)
    ensures HandoffsOk(db.handoffs, db.turns + [turn])
  {
    var turns' := db.turns + [turn];
    assert EventOf(turn) !in db.handoffs;
    forall e | e in db.handoffs ensures exists j :: 0 <= j < |turns'| && EventOf(turns'[j]) == e {
      var j :| 0 <= j < |db.turns| && EventOf(db.turns[j]) == e;
      assert EventOf(turns'[j]) == e;
    }
  }

  lemma FreshTurnOk(tasks: map<Id, Task>, runs: map<Id, Run>, turn: Turn)
    requires !Taken(turn.status) && turn.run == NO_ID && turn.task == NO_ID && turn.reply == "" && turn.error == ""
    requires turn.channel in OUTBOUND_CHANNELS
    ensures TurnOk(tasks, runs, turn)
  {
  }

  /** Takeovers are nobody's invariant: they only steer what happens next. */
  lemma TakeoversFree(db: Db, takeovers: map<Chat, Takeover>)
    requires Inv(db)
    ensures Inv(db.(takeovers := takeovers)) && Evolves(db, db.(takeovers := takeovers))
  {
    hide TasksOk, RunsOk, TurnsOk, QueueOk, HistoryOk, HandoffsOk, TasksEvolve, RunsEvolve, TurnsEvolve;
    EvolvesReflexive(db);
  }

  lemma AnnounceReplyKeeps(db: Db, tid: Id, minutes: int, now: Time)
    requires Inv(db) && Announceable(db, tid)
    ensures Inv(AnnounceReply(db, tid, minutes, now)) && Evolves(db, AnnounceReply(db, tid, minutes, now))
  {
    hide TasksOk, RunsOk, TurnsOk, QueueOk, HistoryOk, HandoffsOk, TasksEvolve, RunsEvolve, TurnsEvolve, Appended;
    EvolvesReflexive(db);
    var t := db.tasks[tid];
    WithLineKeepsHistory(db.(announced := db.announced + {tid}),
                         (ChannelOf(t.plan[0].tool), Recipient(t.plan[0]).value), OperatorLine,
                         t.plan[0].args["text"], db.turns);
  }

  // --------------------------------------------------------------- stale knowledge

  /** What a worker read stays true, as far as it matters, under anything others do. */
  lemma HeldSurvives(db: Db, db': Db, h: Held)
    requires Inv(db) && Inv(db') && Evolves(db, db') && HeldOk(db, h)
    ensures HeldOk(db', h)
  {
    hide TasksOk, RunsOk, TurnsOk, HistoryOk, HandoffsOk, Window, RunOk;
    assert TurnEvolves(db.turns[h.turn], db'.turns[h.turn]);
    match h
    case ToOpen(i) =>
      HeadSurvives(db.turns, db'.turns, i);
    case ToOpenWith(i, run, _) =>
      HeadSurvives(db.turns, db'.turns, i);
    case ToSettle(i, _, _) =>
      if db.turns[i].run in db.runs {
        assert RunEvolves(db.runs[db.turns[i].run], db'.runs[db.turns[i].run]);
      }
    case ToDeliver(_) =>
    case ToAttach(_, task) =>
      assert TaskEvolves(db.tasks[task], db'.tasks[task]);
    case ToFail(_, _) =>
    case ToClose(i, _) =>
      assert TaskEvolves(db.tasks[db.turns[i].task], db'.tasks[db.turns[i].task]);
  }

  lemma HeadSurvives(turns: seq<Turn>, turns': seq<Turn>, i: nat)
    requires QueueOk(turns) && QueueOk(turns') && TurnsEvolve(turns, turns') && AtHead(turns, i)
    ensures AtHead(turns', i)
  {
    hide OpenTurns;
    assert TurnEvolves(turns[i], turns'[i]);
    if turns'[i].status.TurnQueued? {
      forall j | 0 <= j < i && SameChat(turns'[j], turns'[i])
        ensures !turns'[j].status.TurnQueued? && !Busy(turns'[j].status)
      {
        assert TurnEvolves(turns[j], turns'[j]);
        assert SameChat(turns[j], turns[i]);
      }
    }
  }
}
