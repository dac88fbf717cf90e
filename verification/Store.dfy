/** The store of one tenant as a value: every table the coordinators share, the single
    invariant they all keep, and the relation no operation leaves. */
module Store {
  import opened Basics
  import opened Authorization
  import opened Tasks

  // --------------------------------------------------------------------- events

  /** An inbound message. An absent sender or text is the empty string. */
  datatype Payload = Payload(conversation: Option<string>, sender: string, text: string, rest: string)

  datatype EventStatus = EventPending | EventProcessing | EventDone | EventFailed
  datatype Outcome = NoOutcome | TaskOutcome(task: Id) | TurnOutcome(event: string)
  /** `arrived` numbers the events in the order they were accepted (the rowid). */
  datatype Event = Event(
    payload: Payload, status: EventStatus, claim: Id, lease: Time, outcome: Outcome, error: string, arrived: nat)

  datatype Device = Device(revoked: bool, generation: nat)

  // ----------------------------------------------------------------- agent runs

  datatype RunStatus =
    | RunPending | Planning | WaitingTask
    | RunSucceeded | NeedsInput | Escalated | RunUncertain | RunCancelled

  predicate ActiveRun(s: RunStatus) { s.RunPending? || s.Planning? || s.WaitingTask? }

  datatype RunKey = Dashboard(text: string) | ConversationRun(channel: string, event: string)

  /** The run fingerprint: what must be equal for a replayed `create` to find its run. */
  datatype Request = Request(
    agent: string, input: string, actor: string, channel: string, maxSteps: nat, maxSeconds: nat)

  /** A row of p_agent_turns: the task one decision of a run became. */
  datatype Link = Link(position: nat, task: Id, tool: string, args: Args)

  datatype Run = Run(
    key: RunKey, request: Request, status: RunStatus, deadline: Time, maxCalls: nat,
    calls: nat, steps: nat, currentTask: Id, claim: Id, lease: Time,
    answer: string, evidence: seq<Id>, error: string, links: seq<Link>)

  // --------------------------------------------------------- conversation turns

  datatype TurnStatus =
    | TurnQueued | TurnThrottled | TurnOperator | TurnOpen | TurnDelivering
    | TurnDelivered | TurnFailed | TurnUncertain

  predicate Busy(s: TurnStatus) { s.TurnOpen? || s.TurnDelivering? }

  datatype Turn = Turn(
    channel: string, event: string, conversation: string, sender: string, agent: string,
    seq_: nat, run: Id, status: TurnStatus, reply: string, task: Id, error: string, created: Time)

  datatype Role = Customer | AgentLine | OperatorLine
  datatype Line = Line(seq_: nat, role: Role, text: string)
  datatype Takeover = Takeover(actor: string, until: Time)

  /** (channel, conversation id). */
  type Chat = (string, string)

  const MAX_OPEN_TURNS := 20
  const MAX_HISTORY_ROWS := 40

  /** One tenant's rows. `turns` is in rowid order; `handoffs` gives the reason of the
      operator handoff of an event; `announced` marks the operator replies already added
      to their conversation; `next` is the next fresh identity. */
  datatype Db = Db(
    tasks: map<Id, Task>,
    events: map<(string, string), Event>,
    frozen: bool,
    devices: map<string, Device>,
    runs: map<Id, Run>,
    turns: seq<Turn>,
    takeovers: map<Chat, Takeover>,
    history: map<Chat, seq<Line>>,
    handoffs: map<(string, string), string>,
    announced: set<Id>,
    next: Id)

  // ------------------------------------------------------------------ invariant

  predicate SameKey(a: Task, b: Task) { a.channel == b.channel && a.key == b.key }

  /** The verified event a task on a channel with an inbound stream answers. */
  predicate AnswersEvent(events: map<(string, string), Event>, t: Task) {
    t.channel in OUTBOUND_CHANNELS && t.key.External? && (t.channel, t.key.text) in events
  }

  /** Some accepted event of this channel carries this conversation. */
  predicate KnownConversation(events: map<(string, string), Event>, channel: string, conversation: string) {
    exists k :: k in events && k.0 == channel && events[k].payload.conversation == Some(conversation)
  }

  /** Who an outbound step may write to, as fixed when its task was created. */
  ghost predicate DestinationBound(events: map<(string, string), Event>, t: Task, s: Step) {
    Outbound(s.call.tool) ==>
      if t.channel == OPERATOR_CHANNEL then
        && s.needed
        && exists channel :: channel in OUTBOUND_CHANNELS && s.call.tool == SendTool(channel)
             && Recipient(s.call).Some? && KnownConversation(events, channel, Recipient(s.call).value)
      else if t.channel in OUTBOUND_CHANNELS then
        && AnswersEvent(events, t)
        && s.call.tool == SendTool(t.channel)
        && Recipient(s.call) == events[(t.channel, t.key.text)].payload.conversation
      else Allowlisted(s.fp.rules, Recipient(s.call))
  }

  predicate NoneRunning(t: Task) { !Has(t.steps, Running) }

  /** Every identity in use was handed out before `next`. */
  ghost predicate IdsOk(db: Db) {
    && NO_ID < db.next
    && (forall t :: t in db.tasks ==> NO_ID < t < db.next)
    && (forall r :: r in db.runs ==> NO_ID < r < db.next)
  }

  ghost predicate TasksOk(tasks: map<Id, Task>, events: map<(string, string), Event>, frozen: bool) {
    && (forall t :: t in tasks ==> TaskOk(tasks[t]))
    && (forall t, u :: t in tasks && u in tasks && SameKey(tasks[t], tasks[u]) ==> t == u)
    && (forall t, i :: t in tasks && 0 <= i < |tasks[t].steps| ==>
          DestinationBound(events, tasks[t], tasks[t].steps[i]))
    && (frozen ==> forall t :: t in tasks ==> NoneRunning(tasks[t]))
  }

  predicate LinksTask(run: Run, tid: Id) {
    exists k :: 0 <= k < |run.links| && run.links[k].task == tid
  }

  /** A linked task is the one-step task its run submitted at that position. */
  ghost predicate LinkOk(tasks: map<Id, Task>, rid: Id, run: Run, k: nat)
    requires k < |run.links|
  {
    var l := run.links[k];
    && l.position == k && l.task in tasks
    && tasks[l.task].channel == run.request.channel && tasks[l.task].key == RunStep(rid, k)
    && tasks[l.task].plan == [Call(l.tool, l.args, "")]
  }

  /** `links[k].task` has succeeded. */
  ghost predicate LinkSucceeded(tasks: map<Id, Task>, run: Run, k: nat)
    requires k < |run.links|
  {
    run.links[k].task in tasks && tasks[run.links[k].task].status == Succeeded
  }

  ghost predicate Retired(tasks: map<Id, Task>, run: Run, k: nat)
    requires k < |run.links|
  {
    run.links[k].task in tasks
    && forall i :: 0 <= i < |tasks[run.links[k].task].steps| ==>
         !Open(tasks[run.links[k].task].steps[i].status)
  }

  ghost predicate RunOk(tasks: map<Id, Task>, rid: Id, run: Run) {
    // Budget: every action cost a call, and calls never exceed the budget.
    && run.maxCalls == run.request.maxSteps + 1
    && run.calls <= run.maxCalls
    && |run.links| == run.steps <= run.request.maxSteps
    && run.steps <= run.calls
    && (run.status.Planning? ==> run.steps < run.calls)
    && (run.status.RunPending? ==> run.calls == 0)
    && (run.status.WaitingTask? ==> run.steps > 0)
    && (run.claim != NO_ID <==> run.status.Planning?)
    && run.currentTask == (if run.steps == 0 then NO_ID else run.links[run.steps - 1].task)
    // History: distinct actions, one task each, all but the newest succeeded.
    && (forall k :: 0 <= k < run.steps ==> LinkOk(tasks, rid, run, k))
    && (forall j, k :: 0 <= j < k < run.steps ==>
          (run.links[j].tool, run.links[j].args) != (run.links[k].tool, run.links[k].args))
    && (forall k :: 0 <= k < run.steps - 1 ==> LinkSucceeded(tasks, run, k))
    && (run.status.Planning? || run.status.RunSucceeded? || run.status.NeedsInput? ==>
          forall k :: 0 <= k < run.steps ==> LinkSucceeded(tasks, run, k))
    // A final answer cites only tasks of this run, each of which succeeded.
    && (run.status.RunSucceeded? ==>
          run.evidence != [] && forall k :: 0 <= k < |run.evidence| ==> LinksTask(run, run.evidence[k]))
    // Retirement: a finished run leaves nothing behind that could still be dispatched.
    && (!ActiveRun(run.status) ==> forall k :: 0 <= k < run.steps ==> Retired(tasks, run, k))
  }

  ghost predicate RunsOk(runs: map<Id, Run>, tasks: map<Id, Task>) {
    && (forall r :: r in runs ==> RunOk(tasks, r, runs[r]))
    && (forall r, q :: r in runs && q in runs && runs[r].key == runs[q].key ==> r == q)
  }

  predicate SameChat(a: Turn, b: Turn) { a.channel == b.channel && a.conversation == b.conversation }

  predicate Taken(s: TurnStatus) { !s.TurnQueued? && !s.TurnThrottled? }

  /** The reply is the answer its finished run gave, possibly cut to the channel's length. */
  ghost predicate Answered(runs: map<Id, Run>, run: Id, reply: string) {
    && run in runs && (runs[run].status.RunSucceeded? || runs[run].status.NeedsInput?)
    && reply <= runs[run].answer
  }

  ghost predicate TurnOk(tasks: map<Id, Task>, runs: map<Id, Run>, turn: Turn) {
    && turn.channel in OUTBOUND_CHANNELS
    && (turn.run != NO_ID ==>
          turn.run in runs && runs[turn.run].key == ConversationRun(turn.channel, turn.event))
    && (turn.task != NO_ID ==>
          && turn.task in tasks
          && tasks[turn.task].channel == turn.channel && tasks[turn.task].key == External(turn.event)
          && turn.status in {TurnDelivering, TurnDelivered, TurnFailed, TurnUncertain})
    && (turn.status.TurnDelivered? ==> turn.task != NO_ID && tasks[turn.task].status == Succeeded)
    && (turn.status.TurnUncertain? ==> turn.task != NO_ID)
    && ((turn.status.TurnDelivering? || turn.status.TurnDelivered?) && turn.error == "" ==>
          Answered(runs, turn.run, turn.reply))
    && (!Taken(turn.status) ==> turn.run == NO_ID && turn.reply == "" && turn.error == "")
  }

  function OpenTurns(turns: seq<Turn>): set<nat> {
    set i | 0 <= i < |turns| && turns[i].status.TurnOpen?
  }

  ghost predicate TurnsOk(turns: seq<Turn>, tasks: map<Id, Task>, runs: map<Id, Run>) {
    && (forall i :: 0 <= i < |turns| ==> TurnOk(tasks, runs, turns[i]))
    && (forall i, j :: 0 <= i < j < |turns| ==>
          (turns[i].channel, turns[i].event) != (turns[j].channel, turns[j].event))
    && (forall i, j :: 0 <= i < j < |turns| ==> turns[i].created <= turns[j].created)
  }

  /** The queue discipline: one busy turn per conversation, taken in recorded order,
      and never more open turns than the tenant's ceiling. */
  ghost predicate QueueOk(turns: seq<Turn>) {
    && (forall i, j :: 0 <= i < j < |turns| && SameChat(turns[i], turns[j]) ==>
          && !(Busy(turns[i].status) && Busy(turns[j].status))
          && (Taken(turns[j].status) ==> !turns[i].status.TurnQueued?)
          && (Busy(turns[i].status) ==> !Taken(turns[j].status)))
    && |OpenTurns(turns)| <= MAX_OPEN_TURNS
  }

  /** A turn that ended, or will end, without its run's answer. */
  predicate NeedsHuman(turn: Turn) {
    || turn.status.TurnFailed? || turn.status.TurnUncertain?
    || ((turn.status.TurnDelivering? || turn.status.TurnDelivered?) && turn.error != "")
    || (turn.status.TurnOperator? && turn.error == "")
  }

  /** A turn nobody has answered yet, and nobody needs to: waiting, or worked on by its run. */
  predicate NotYetAnswered(turn: Turn) { !Taken(turn.status) || turn.status.TurnOpen? }

  /** A turn that ended, or will end, with its run's own answer. */
  predicate Answering(turn: Turn) {
    (turn.status.TurnDelivering? || turn.status.TurnDelivered?) && turn.error == ""
  }

  function EventOf(turn: Turn): (string, string) { (turn.channel, turn.event) }

  /** Why a settled turn's order goes to an operator instead of becoming a task. */
  const ORDER_REASONS: set<string> := {"order_pending", "order_rejected"}

  /** A turn that needs a human has a handoff; one nobody has answered yet has none; one that
      its run answers has one at most for its order. A reply that a takeover suppressed keeps
      whatever its settling decided. */
  predicate HandoffFits(handoffs: map<(string, string), string>, turn: Turn) {
    && (NeedsHuman(turn) ==> EventOf(turn) in handoffs)
    && (NotYetAnswered(turn) ==> EventOf(turn) !in handoffs)
    && (Answering(turn) && EventOf(turn) in handoffs ==> handoffs[EventOf(turn)] in ORDER_REASONS)
  }

  ghost predicate HandoffsOk(handoffs: map<(string, string), string>, turns: seq<Turn>) {
    && (forall i :: 0 <= i < |turns| ==> HandoffFits(handoffs, turns[i]))
    && (forall e :: e in handoffs ==> exists i :: 0 <= i < |turns| && EventOf(turns[i]) == e)
  }

  /** The kept lines of a conversation: a contiguous run of sequence numbers. */
  ghost predicate Window(lines: seq<Line>) {
    && 1 <= |lines| <= MAX_HISTORY_ROWS
    && lines[0].seq_ >= 1
    && forall k :: 0 <= k < |lines| ==> lines[k].seq_ == lines[0].seq_ + k
  }

  function Newest(lines: seq<Line>): nat { if lines == [] then 0 else lines[|lines| - 1].seq_ }

  function Lines(history: map<Chat, seq<Line>>, chat: Chat): seq<Line> {
    if chat in history then history[chat] else []
  }

  ghost predicate HistoryOk(history: map<Chat, seq<Line>>, turns: seq<Turn>) {
    && (forall chat :: chat in history ==> Window(history[chat]))
    && (forall i :: 0 <= i < |turns| ==>
          turns[i].seq_ <= Newest(Lines(history, (turns[i].channel, turns[i].conversation))))
    && (forall i, j :: 0 <= i < j < |turns| && SameChat(turns[i], turns[j]) ==>
          turns[i].seq_ < turns[j].seq_)
  }

  ghost predicate Inv(db: Db) {
    && IdsOk(db)
    && TasksOk(db.tasks, db.events, db.frozen)
    && RunsOk(db.runs, db.tasks)
    && TurnsOk(db.turns, db.tasks, db.runs)
    && QueueOk(db.turns)
    && HistoryOk(db.history, db.turns)
    && HandoffsOk(db.handoffs, db.turns)
  }

  function EmptyStore(): Db {
    Db(map[], map[], false, map[], map[], [], map[], map[], map[], {}, 1)
  }

  // ------------------------------------------------------------------ evolution

  /** How much planning a run has left: three per unspent call, plus its phase. */
  function Fuel(run: Run): nat
    requires run.calls <= run.maxCalls
  {
    3 * (run.maxCalls - run.calls)
    + (if run.status.Planning? then 2 else if ActiveRun(run.status) then 1 else 0)
  }

  ghost predicate RunEvolves(r: Run, r': Run) {
    && r'.key == r.key && r'.request == r.request && r'.deadline == r.deadline
    && r'.maxCalls == r.maxCalls
    && r.calls <= r'.calls && r.steps <= r'.steps
    && r.links <= r'.links
    && (r.calls <= r'.calls <= r.maxCalls && r' != r ==> Fuel(r') < Fuel(r))
    && (!ActiveRun(r.status) ==> r' == r)
  }

  ghost predicate TurnEvolves(t: Turn, t': Turn) {
    && t'.(run := t.run, status := t.status, reply := t.reply, task := t.task, error := t.error) == t
    && (Taken(t.status) ==> Taken(t'.status) && t'.run == t.run)
    && (t.status.TurnThrottled? ==> t' == t)
    && (t.status.TurnOpen? && t'.status.TurnOpen? ==> t' == t)
    && (t.status.TurnDelivering? ==> !t'.status.TurnOpen? && t'.reply == t.reply)
    && (Taken(t.status) && !Busy(t.status) ==> t' == t)
    && (t.task != NO_ID ==> t'.task == t.task)
  }

  ghost predicate TasksEvolve(tasks: map<Id, Task>, tasks': map<Id, Task>) {
    tasks.Keys <= tasks'.Keys && forall t :: t in tasks ==> TaskEvolves(tasks[t], tasks'[t])
  }

  ghost predicate RunsEvolve(runs: map<Id, Run>, runs': map<Id, Run>) {
    runs.Keys <= runs'.Keys && forall r :: r in runs ==> RunEvolves(runs[r], runs'[r])
  }

  ghost predicate TurnsEvolve(turns: seq<Turn>, turns': seq<Turn>) {
    |turns| <= |turns'| && forall i :: 0 <= i < |turns| ==> TurnEvolves(turns[i], turns'[i])
  }

  ghost predicate EventsEvolve(events: map<(string, string), Event>, events': map<(string, string), Event>) {
    events.Keys <= events'.Keys && forall e :: e in events ==>
      events'[e].payload == events[e].payload && events'[e].arrived == events[e].arrived
  }

  /** The first handoff of an event is kept. */
  ghost predicate HandoffsEvolve(h: map<(string, string), string>, h': map<(string, string), string>) {
    h.Keys <= h'.Keys && forall k :: k in h ==> h'[k] == h[k]
  }

  ghost predicate Evolves(db: Db, db': Db) {
    && db.next <= db'.next
    && TasksEvolve(db.tasks, db'.tasks)
    && EventsEvolve(db.events, db'.events)
    && RunsEvolve(db.runs, db'.runs)
    && TurnsEvolve(db.turns, db'.turns)
    && HandoffsEvolve(db.handoffs, db'.handoffs)
    && db.announced <= db'.announced
  }

  lemma SameTasks(tasks: map<Id, Task>, events: map<(string, string), Event>, frozen: bool)
    requires TasksOk(tasks, events, frozen)
    ensures TasksEvolve(tasks, tasks)
  {
    forall t | t in tasks ensures TaskEvolves(tasks[t], tasks[t]) {
      assert TaskOk(tasks[t]);
    }
  }

  lemma EvolvesReflexive(db: Db)
    requires Inv(db)
    ensures Evolves(db, db)
  {
    hide RunsOk, TurnsOk, QueueOk, HistoryOk, TasksOk;
    SameTasks(db.tasks, db.events, db.frozen);
  }

  lemma TasksEvolveTransitive(a: map<Id, Task>, b: map<Id, Task>, c: map<Id, Task>)
    requires forall t :: t in a && t in b && t in c ==> TaskOk(a[t]) && TaskOk(b[t]) && TaskOk(c[t])
    requires TasksEvolve(a, b) && TasksEvolve(b, c)
    ensures TasksEvolve(a, c)
  {
    forall t | t in a ensures TaskEvolves(a[t], c[t]) {
      TaskEvolvesTransitive(a[t], b[t], c[t]);
    }
  }

  lemma EvolvesTransitive(a: Db, b: Db, c: Db)
    requires Inv(a) && Inv(b) && Inv(c)
    requires Evolves(a, b) && Evolves(b, c)
    ensures Evolves(a, c)
  {
    hide RunsOk, TurnsOk, QueueOk, HistoryOk, HandoffsOk, TaskOk, DestinationBound, TasksEvolve, RunsEvolve,
         TurnsEvolve;
    TasksEvolveTransitive(a.tasks, b.tasks, c.tasks);
    RunsEvolveTransitive(a.runs, b.runs, c.runs);
    TurnsEvolveTransitive(a.turns, b.turns, c.turns);
  }

  lemma RunsEvolveTransitive(a: map<Id, Run>, b: map<Id, Run>, c: map<Id, Run>)
    requires RunsEvolve(a, b) && RunsEvolve(b, c)
    ensures RunsEvolve(a, c)
  {
    forall r | r in a ensures RunEvolves(a[r], c[r]) {
      assert RunEvolves(a[r], b[r]) && RunEvolves(b[r], c[r]);
    }
  }

  lemma TurnsEvolveTransitive(a: seq<Turn>, b: seq<Turn>, c: seq<Turn>)
    requires TurnsEvolve(a, b) && TurnsEvolve(b, c)
    ensures TurnsEvolve(a, c)
  {
    forall i | 0 <= i < |a| ensures TurnEvolves(a[i], c[i]) {
      assert TurnEvolves(a[i], b[i]) && TurnEvolves(b[i], c[i]);
    }
  }

  // --------------------------------------------------- operations on tasks alone

  ghost predicate TasksGood(db: Db) {
    IdsOk(db) && TasksOk(db.tasks, db.events, db.frozen)
  }

  /** The tables an engine operation leaves alone are unchanged, its tasks stay good,
      and the tasks it adds are new. */
  ghost predicate TasksMove(db: Db, db': Db) {
    && db'.runs == db.runs && db'.turns == db.turns && db'.takeovers == db.takeovers
    && db'.history == db.history && db'.events == db.events
    && db'.handoffs == db.handoffs && db'.announced == db.announced
    && db.next <= db'.next
    && TasksGood(db')
    && TasksEvolve(db.tasks, db'.tasks)
  }

  predicate SameTurns(db: Db, db': Db) {
    db'.turns == db.turns && db'.history == db.history && db'.handoffs == db.handoffs
  }

  lemma TasksMoveKeeps(db: Db, db': Db)
    requires Inv(db) && TasksMove(db, db')
    ensures Inv(db') && Evolves(db, db')
    ensures SameTurns(db, db') && db'.runs == db.runs
  {
    hide RunOk, TurnOk, QueueOk, HistoryOk, TaskOk, TaskEvolves, DestinationBound;
    forall r | r in db'.runs ensures RunOk(db'.tasks, r, db'.runs[r]) {
      RunSurvives(db.tasks, db'.tasks, r, db.runs[r]);
    }
    forall i | 0 <= i < |db'.turns| ensures TurnOk(db'.tasks, db'.runs, db'.turns[i]) {
      TurnSurvives(db.tasks, db'.tasks, db.runs, db.turns[i]);
    }
    EvolvesReflexive(db);
  }

  lemma TurnSurvives(tasks: map<Id, Task>, tasks': map<Id, Task>, runs: map<Id, Run>, turn: Turn)
    requires TurnOk(tasks, runs, turn) && TasksEvolve(tasks, tasks')
    ensures TurnOk(tasks', runs, turn)
  {
    if turn.task != NO_ID {
      assert TaskEvolves(tasks[turn.task], tasks'[turn.task]);
    }
  }

  /** What a run needs of its linked tasks survives whatever happens to them. */
  lemma RunSurvives(tasks: map<Id, Task>, tasks': map<Id, Task>, rid: Id, run: Run)
    requires RunOk(tasks, rid, run) && TasksEvolve(tasks, tasks')
    requires forall t :: t in tasks ==> TaskOk(tasks[t]) && TaskOk(tasks'[t])
    ensures RunOk(tasks', rid, run)
  {
    hide TaskOk, StepEvolves;
    forall k | 0 <= k < run.steps ensures LinkOk(tasks', rid, run, k) {
      assert LinkOk(tasks, rid, run, k);
      assert TaskEvolves(tasks[run.links[k].task], tasks'[run.links[k].task]);
    }
    forall k | 0 <= k < run.steps && LinkSucceeded(tasks, run, k)
      ensures LinkSucceeded(tasks', run, k)
    {
      assert TaskEvolves(tasks[run.links[k].task], tasks'[run.links[k].task]);
    }
    forall k | 0 <= k < run.steps && Retired(tasks, run, k)
      ensures Retired(tasks', run, k)
    {
      RetiredStays(tasks, tasks', run, k);
    }
  }

  lemma RetiredStays(tasks: map<Id, Task>, tasks': map<Id, Task>, run: Run, k: nat)
    requires k < |run.links| && Retired(tasks, run, k) && TasksEvolve(tasks, tasks')
    requires TaskOk(tasks[run.links[k].task]) && TaskOk(tasks'[run.links[k].task])
    ensures Retired(tasks', run, k)
  {
    var t, t' := tasks[run.links[k].task], tasks'[run.links[k].task];
    assert TaskEvolves(t, t');
    forall i | 0 <= i < |t'.steps| ensures !Open(t'.steps[i].status) {
      assert StepEvolves(t.steps[i], t'.steps[i]) && StepOk(t.steps[i]) && !Open(t.steps[i].status);
    }
  }
}
