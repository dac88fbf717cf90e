/** Conversation turns: what each transaction of `ConversationTurns` does, and what a
    worker remembers between its read and its write. */
module ConversationSpec {
  import opened Basics
  import opened Authorization
  import opened Tasks
  import opened Store
  import opened EngineSpec

  const MAX_QUEUED_TURNS_PER_SENDER := 3
  const MAX_RUN_INPUT_CHARS := 4000
  const DEFAULT_HANDOFF_TEXT := "Rahmat! Savolingizni operatorga uzatdim, tez orada javob beramiz."

  // --------------------------------------------------------------------- history

  /** `DELETE ... WHERE seq <= bound`. */
  function After(lines: seq<Line>, bound: int): seq<Line> {
    if lines == [] then []
    else After(lines[..|lines| - 1], bound)
         + (if lines[|lines| - 1].seq_ > bound then [lines[|lines| - 1]] else [])
  }

  /** `_append` at the next sequence number. */
  function Appended(lines: seq<Line>, role: Role, text: string): seq<Line> {
    var n := Newest(lines) + 1;
    After(lines + [Line(n, role, Cut(text, MAX_RUN_INPUT_CHARS))], n - MAX_HISTORY_ROWS)
  }

  function WithLine(db: Db, chat: Chat, role: Role, text: string): Db {
    db.(history := db.history[chat := Appended(Lines(db.history, chat), role, text)])
  }

  // ---------------------------------------------------------------------- record

  function WaitingTurns(db: Db, chat: Chat, sender: string): set<nat> {
    set i | 0 <= i < |db.turns| && db.turns[i].status.TurnQueued?
          && (db.turns[i].channel, db.turns[i].conversation) == chat && db.turns[i].sender == sender
  }

  predicate Recorded(turns: seq<Turn>, channel: string, event: string) {
    exists i :: 0 <= i < |turns| && turns[i].channel == channel && turns[i].event == event
  }

  /** `record_turn`: once per event, queued unless its sender already waits too often. */
  function RecordTurn(
    db: Db, env: Env, channel: string, event: string, agent: string, p: Payload, now: Time): Tx<()>
  {
    if channel !in OUTBOUND_CHANNELS || p.conversation.None? || !Identity(p.conversation.value)
       || !Identity(p.sender) || !Identity(agent)
    then Tx(db, Err(Invalid))
    else if agent !in env.policies then Tx(db, Err(Forbidden))
    else if Recorded(db.turns, channel, event) then Tx(db, Ok(()))
    else
      var chat := (channel, p.conversation.value);
      var status := if |WaitingTurns(db, chat, p.sender)| < MAX_QUEUED_TURNS_PER_SENDER
                    then TurnQueued else TurnThrottled;
      var turn := Turn(channel, event, p.conversation.value, p.sender, agent,
                       Newest(Lines(db.history, chat)) + 1, NO_ID, status, "", NO_ID, "", now);
      Tx(WithLine(db.(turns := db.turns + [turn]), chat, Customer, p.text), Ok(()))
  }

  // -------------------------------------------------------------------- takeover

  function ChatOf(t: Turn): Chat { (t.channel, t.conversation) }

  predicate TakenOver(db: Db, chat: Chat, now: Time) {
    chat in db.takeovers && db.takeovers[chat].until > now
  }

  function StartTakeover(db: Db, chat: Chat, actor: string, minutes: int, now: Time): Db {
    var length := if 1 <= minutes <= 1440 then minutes else 30;
    db.(takeovers := db.takeovers[chat := Takeover(actor, now + (length * 60) as real)])
  }

  function ReleaseTakeover(db: Db, env: Env, chat: Chat, actor: string, now: Time): Tx<bool> {
    if !env.authority("web", actor, MEMBERS) then Tx(db, Err(Forbidden))
    else if !TakenOver(db, chat, now) then Tx(db, Ok(false))
    else Tx(db.(takeovers := db.takeovers[chat := db.takeovers[chat].(until := now)]), Ok(true))
  }

  /** A delivered operator reply whose line has not joined its conversation yet. */
  predicate Announceable(db: Db, tid: Id) {
    && tid in db.tasks && tid !in db.announced
    && var t := db.tasks[tid];
       && t.channel == OPERATOR_CHANNEL && t.status == Succeeded && |t.plan| > 0
       && Outbound(t.plan[0].tool) && Recipient(t.plan[0]).Some? && "text" in t.plan[0].args
  }

  /** One iteration of `settle_operator_replies`. */
  function AnnounceReply(db: Db, tid: Id, minutes: int, now: Time): Db
    requires Announceable(db, tid)
  {
    var t := db.tasks[tid];
    var chat := (ChannelOf(t.plan[0].tool), Recipient(t.plan[0]).value);
    var db' := WithLine(db.(announced := db.announced + {tid}), chat, OperatorLine, t.plan[0].args["text"]);
    StartTakeover(db', chat, t.actor, minutes, now)
  }

  // ----------------------------------------------------------------- transitions

  function HandOff(db: Db, turn: Turn, reason: string): Db {
    if (turn.channel, turn.event) in db.handoffs then db
    else db.(handoffs := db.handoffs[(turn.channel, turn.event) := reason])
  }

  /** The candidate query of `_open`: queued, nothing of its conversation busy. */
  predicate Eligible(turns: seq<Turn>, i: nat) {
    && i < |turns| && turns[i].status.TurnQueued?
    && forall j :: 0 <= j < |turns| && SameChat(turns[i], turns[j]) ==> !Busy(turns[j].status)
  }

  /** ... ORDER BY created, rowid LIMIT 1. */
  predicate NextQueued(turns: seq<Turn>, i: nat) {
    && Eligible(turns, i)
    && forall j :: 0 <= j < |turns| && Eligible(turns, j) ==>
         turns[i].created < turns[j].created || (turns[i].created == turns[j].created && i <= j)
  }

  /** The compare-and-set of `_open`, with the ceiling counted again inside the write. */
  function OpenTurn(db: Db, i: nat, run: Id, error: string): Tx<bool>
    requires i < |db.turns|
  {
    if |OpenTurns(db.turns)| >= MAX_OPEN_TURNS then Tx(db, Ok(false))
    else if !db.turns[i].status.TurnQueued? then Tx(db, Ok(true))
    else Tx(db.(turns := db.turns[i := db.turns[i].(status := TurnOpen, run := run, error := error)]), Ok(true))
  }

  function LeaveToOperator(db: Db, i: nat): Db
    requires i < |db.turns|
  {
    if !db.turns[i].status.TurnQueued? then db
    else HandOff(db.(turns := db.turns[i := db.turns[i].(status := TurnOperator)]), db.turns[i], "operator_takeover")
  }

  /** What `_settle` decides for an open turn: None while its run is still active. */
  function SettledReply(turn: Turn, runs: map<Id, Run>, grounded: bool, fallback: string, limit: nat)
    : Option<(string, string)>
  {
    if turn.error == "" && turn.run in runs && ActiveRun(runs[turn.run].status) then None
    else
      var finished := turn.error == "" && turn.run in runs
                      && (runs[turn.run].status.RunSucceeded? || runs[turn.run].status.NeedsInput?);
      var reason :=
        if turn.error != "" then turn.error
        else if turn.run !in runs then "run_missing"
        else if !finished then "run_" + RunStatusText(runs[turn.run].status)
        else if !grounded then "ungrounded_number"
        else if Blank(runs[turn.run].answer) then "empty_reply"
        else "";
      var text := if reason == "" then runs[turn.run].answer
                  else if Blank(fallback) then DEFAULT_HANDOFF_TEXT else fallback;
      Some((Cut(text, limit), reason))
  }

  function RunStatusText(s: RunStatus): string {
    match s
    case RunUncertain => "uncertain"
    case RunCancelled => "cancelled"
    case _ => "escalated"
  }

  function SettleTurn(db: Db, i: nat, reply: string, reason: string): Db
    requires i < |db.turns|
  {
    var turn := db.turns[i];
    if !turn.status.TurnOpen? then db
    else
      var db' := db.(turns := db.turns[i := turn.(status := TurnDelivering, reply := reply, error := reason)]);
      if reason == "" then db' else HandOff(db', turn, reason)
  }

  /** A human took the chat over while the run was still working. */
  function SuppressReply(db: Db, i: nat, now: Time): Tx<bool>
    requires i < |db.turns|
  {
    var turn := db.turns[i];
    if !TakenOver(db, ChatOf(turn), now) then Tx(db, Ok(false))
    else if !turn.status.TurnDelivering? || turn.task != NO_ID then Tx(db, Ok(true))
    else Tx(db.(turns := db.turns[i := turn.(status := TurnOperator, error := "operator_took_over")]), Ok(true))
  }

  function AttachTask(db: Db, i: nat, task: Id): Db
    requires i < |db.turns|
  {
    var turn := db.turns[i];
    if !turn.status.TurnDelivering? || turn.task != NO_ID then db
    else db.(turns := db.turns[i := turn.(task := task)])
  }

  /** `_finish` with a handoff: the reply was not delivered, or nobody knows. */
  function GiveUp(db: Db, i: nat, status: TurnStatus, error: string): Db
    requires i < |db.turns|
  {
    var turn := db.turns[i];
    if !turn.status.TurnDelivering? then db
    else HandOff(db.(turns := db.turns[i := turn.(status := status, error := error)]), turn, error)
  }

  /** `_close`, for the task status its read returned. */
  function CloseTurn(db: Db, i: nat, observed: Status): Db
    requires i < |db.turns|
  {
    var turn := db.turns[i];
    if observed.Uncertain? then GiveUp(db, i, TurnUncertain, "send_uncertain")
    else if !observed.Succeeded?
    then GiveUp(db, i, TurnFailed, if observed.Cancelled? then "send_cancelled" else "send_failed")
    else if !turn.status.TurnDelivering? then db
    else WithLine(db.(turns := db.turns[i := turn.(status := TurnDelivered)]), ChatOf(turn), AgentLine, turn.reply)
  }

  // -------------------------------------------------------- what a worker remembers

  /** A fact some worker read, and acts on later, perhaps more than once, perhaps after
      anyone else has acted on it. */
  datatype Held =
    | ToOpen(turn: nat)
    | ToOpenWith(turn: nat, run: Id, error: string)
    | ToSettle(turn: nat, reply: string, reason: string)
    | ToDeliver(turn: nat)
    | ToAttach(turn: nat, task: Id)
    | ToFail(turn: nat, error: string)
    | ToClose(turn: nat, observed: Status)

  /** While it is still queued: the oldest queued turn of its conversation, where nothing is busy. */
  ghost predicate AtHead(turns: seq<Turn>, i: nat) {
    && i < |turns|
    && (turns[i].status.TurnQueued? ==>
          && (forall j :: 0 <= j < i && SameChat(turns[j], turns[i]) ==> !turns[j].status.TurnQueued?)
          && (forall j :: 0 <= j < |turns| && SameChat(turns[j], turns[i]) ==> !Busy(turns[j].status)))
  }

  ghost predicate HeldOk(db: Db, h: Held) {
    h.turn < |db.turns| && var turn := db.turns[h.turn];
    match h
    case ToOpen(i) => AtHead(db.turns, i)
    case ToOpenWith(i, run, _) =>
      AtHead(db.turns, i)
      && (run != NO_ID ==> run in db.runs && db.runs[run].key == ConversationRun(turn.channel, turn.event))
    case ToSettle(_, reply, reason) =>
      Taken(turn.status) && (turn.status.TurnOpen? && reason == "" ==> Answered(db.runs, turn.run, reply))
    case ToDeliver(_) => true
    case ToAttach(_, task) =>
      task in db.tasks && task != NO_ID
      && db.tasks[task].channel == turn.channel && db.tasks[task].key == External(turn.event)
    case ToFail(_, _) => true
    case ToClose(_, observed) =>
      turn.task != NO_ID && turn.task in db.tasks
      && (observed.Succeeded? ==> db.tasks[turn.task].status == Succeeded)
  }
}
