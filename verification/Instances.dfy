/** Short runs, from the empty store, that reach the situations the exact conditions of this
    project exclude. */
module Instances {
  import opened Basics
  import opened Authorization
  import opened Tasks
  import opened Store
  import opened EngineSpec
  import opened EngineProofs
  import opened AgentLoopSpec
  import opened ConversationSpec
  import opened ConversationProofs
  import opened OrderCapture
  import opened Protocol
  import opened Runs
  import opened Handoffs

  // ------------------------------------------------------------------ the setting

  const WEB := "web"
  const READ_CALL: Call := Call(ORDER_DRAFT_TOOL, map[], "")
  const WRITE_CALL: Call := Call("write", map[], "")
  const PLAN: seq<Call> := [READ_CALL, WRITE_CALL]

  function ClerkRules(): Rules {
    Rules(Autonomous, {ORDER_DRAFT_TOOL, "write"}, {}, {}, {}, "operator", false)
  }

  /** One autonomous agent that may draft orders unattended and write with an approval. */
  function Clerk(): Env {
    Env(map["a" := Policy(ClerkRules(), "")],
        map[ORDER_DRAFT_TOOL := ToolSpec(Risk.Read, false), "write" := ToolSpec(Risk.Write, false)],
        (tool, args) => true, (agent, tool, args) => Ok(None), (channel, actor, roles) => true)
  }

  function ReadPrint(): Fingerprint { Fingerprint(READ_CALL, Risk.Read, false, ClerkRules(), None) }

  function WritePrint(): Fingerprint { Fingerprint(WRITE_CALL, Risk.Write, true, ClerkRules(), None) }

  // ------------------------------------------------------------ reaching a state

  /** A run and one more operation. */
  lemma Extend(trace: seq<System>, ops: seq<Op>, op: Op) returns (trace': seq<System>)
    requires Behaviour(trace, ops) && Enabled(trace[|ops|], op)
    ensures Behaviour(trace', ops + [op]) && trace' == trace + [Perform(trace[|ops|], op)]
  {
    hide Enabled, Perform;
    trace' := trace + [Perform(trace[|ops|], op)];
    forall k | 0 <= k < |ops + [op]| ensures Next(trace'[k], (ops + [op])[k], trace'[k + 1]) {
      if k < |ops| {
        assert Next(trace[k], ops[k], trace[k + 1]);
      }
    }
  }

  /** The run ends in this store, with the conversation workers remembering this. */
  ghost predicate EndsIn(trace: seq<System>, ops: seq<Op>, db: Db, held: set<Held>) {
    Behaviour(trace, ops) && trace[|ops|].db == db && trace[|ops|].held == held
  }

  /** Some run performs exactly these operations and ends so. */
  ghost predicate Reaches(ops: seq<Op>, db: Db, held: set<Held>) {
    exists trace :: EndsIn(trace, ops, db, held)
  }

  /** One more operation; what it does to the store and to what is remembered depends on
      nothing else. */
  lemma Then(ops: seq<Op>, db: Db, held: set<Held>, op: Op, db': Db, held': set<Held>)
    requires Reaches(ops, db, held)
    requires forall s: System :: s.db == db && s.held == held ==>
               Enabled(s, op) && Perform(s, op).db == db' && Perform(s, op).held == held'
    ensures Reaches(ops + [op], db', held')
  {
    hide Behaviour, Enabled, Perform;
    var trace :| EndsIn(trace, ops, db, held);
    TraceLength(trace, ops);
    var trace' := Extend(trace, ops, op);
    assert |ops + [op]| == |trace|;
    assert EndsIn(trace', ops + [op], db', held');
  }

  lemma StartsEmpty()
    ensures Reaches([], EmptyStore(), {})
  {
    assert EndsIn([System(EmptyStore(), {}, {}, None)], [], EmptyStore(), {});
  }

  lemma ThenEngine(ops: seq<Op>, db: Db, held: set<Held>, e: EngineOp)
    requires Reaches(ops, db, held) && EngineEnabled(db, e)
    ensures Reaches(ops + [Engine(e)], EngineStep(db, e).0, held)
  {
    hide Reaches, EngineStep, EngineEnabled;
    Then(ops, db, held, Engine(e), EngineStep(db, e).0, held);
  }

  lemma ThenLoop(ops: seq<Op>, db: Db, held: set<Held>, l: LoopOp)
    requires Reaches(ops, db, held)
    ensures Reaches(ops + [Loop(l)], LoopStep(db, l), held)
  {
    hide Reaches, LoopStep;
    Then(ops, db, held, Loop(l), LoopStep(db, l), held);
  }

  lemma ThenRead(ops: seq<Op>, db: Db, held: set<Held>, h: Held)
    requires Reaches(ops, db, held) && Readable(System(db, held, {}, None), h, true)
    ensures Reaches(ops + [Turns(TurnOp.Read(h, true))], db, held + {h})
  {
    hide Reaches, SettledReply, NextQueued;
    Then(ops, db, held, Turns(TurnOp.Read(h, true)), db, held + {h});
  }

  lemma ThenSettle(
    ops: seq<Op>, db: Db, held: set<Held>, env: Env, i: nat, reply: string, reason: string, orders: Orders, now: Time)
    requires Reaches(ops, db, held) && ToSettle(i, reply, reason) in held && i < |db.turns|
    ensures Reaches(ops + [Turns(WriteSettle(env, i, reply, reason, orders, now))],
                    SettleAndOrder(db, env, i, reply, reason, orders, now), held)
  {
    hide Reaches, SettleAndOrder;
    Then(ops, db, held, Turns(WriteSettle(env, i, reply, reason, orders, now)),
         SettleAndOrder(db, env, i, reply, reason, orders, now), held);
  }

  lemma ThenWrite(ops: seq<Op>, db: Db, held: set<Held>, h: Held, now: Time)
    requires Reaches(ops, db, held) && h in held && h.turn < |db.turns|
    ensures Reaches(ops + [Turns(TurnOp.Write(h, now))], WriteHeld(db, h, now), held)
  {
    hide Reaches, WriteHeld;
    Then(ops, db, held, Turns(TurnOp.Write(h, now)), WriteHeld(db, h, now), held);
  }

  // --------------------------------------------- a cancelled task that is not final

  function ReadStep(status: Status, claim: Id): Step {
    if status == Queued then FreshStep(ReadPrint(), "", 0.0)
    else FreshStep(ReadPrint(), "", 0.0).(status := status, claim := claim, worker := "w", lease := 60.0, attempts := 1)
  }

  function WriteStep(): Step { FreshStep(WritePrint(), "", 0.0) }

  /** The two-step task as it was submitted. */
  function Submitted(): Db {
    EmptyStore().(tasks := map[1 := Task(WEB, External("k"), "a", PLAN, "u", Queued, 0.0,
                                         [ReadStep(Queued, NO_ID), WriteStep()])], next := 2)
  }

  /** ... and with its first step in a worker's hands. */
  function HandedOut(): Db {
    EmptyStore().(tasks := map[1 := Task(WEB, External("k"), "a", PLAN, "u", Running, 0.0,
                                         [ReadStep(Running, 2), WriteStep()])], next := 3)
  }

  lemma PlanIsValid()
    ensures Validate(Clerk(), "a", PLAN, NoOrigin) == Ok([ReadPrint(), WritePrint()])
    ensures Validate(Clerk(), "a", [READ_CALL], NoOrigin) == Ok([ReadPrint()])
  {
    hide ValidateCall;
    CallsAreValid();
    assert PLAN[..1] == [READ_CALL] && [READ_CALL][..0] == [];
    assert [] + [ReadPrint()] == [ReadPrint()];
    assert [ReadPrint()] + [WritePrint()] == [ReadPrint(), WritePrint()];
    assert ValidateCalls(Clerk(), "a", ClerkRules(), NoOrigin, [READ_CALL]) == Ok([ReadPrint()]);
    assert ValidateCalls(Clerk(), "a", ClerkRules(), NoOrigin, PLAN) == Ok([ReadPrint(), WritePrint()]);
  }

  lemma CallsAreValid()
    ensures ValidateCall(Clerk(), "a", ClerkRules(), NoOrigin, READ_CALL) == Ok(ReadPrint())
    ensures ValidateCall(Clerk(), "a", ClerkRules(), NoOrigin, WRITE_CALL) == Ok(WritePrint())
  {
  }

  lemma SubmitInstance()
    ensures Submit(EmptyStore(), Clerk(), WEB, External("k"), "a", PLAN, "u", 0.0).db == Submitted()
  {
    hide Validate, CreateTask;
    PlanIsValid();
    CreateInstance();
    assert Identity(WEB) && Identity("k") && Identity("a") && Identity("u");
    assert OriginOf(EmptyStore().events, WEB, External("k")) == NoOrigin;
    assert !Outbound(READ_CALL.tool) && !Outbound(WRITE_CALL.tool);
  }

  lemma CreateInstance()
    ensures CreateTask(EmptyStore(), Clerk(), WEB, External("k"), "a", PLAN, "u", [ReadPrint(), WritePrint()],
                       "", 0.0).db == Submitted()
  {
    var steps := FreshSteps([ReadPrint(), WritePrint()], "", 0.0);
    assert steps == [ReadStep(Queued, NO_ID), WriteStep()];
    assert PendingTasks(EmptyStore()) == {};
    assert Refresh(steps) == Queued by {
      assert steps[0].status == Queued && steps[1].status == Queued;
    }
  }

  lemma ClaimInstance()
    ensures ClaimOrder(Expire(Submitted(), 0.0), "", [1])
    ensures Claim(Submitted(), Clerk(), "w", "", 0.0, 60, [1]) == Tx(HandedOut(), Ok(Some(Claimed(1, 0, 2))))
  {
    hide Attempt, Judge, Head, Expire;
    NothingExpired();
    SubmittedHead();
    AttemptInstance();
  }

  lemma SubmittedHead()
    ensures Head(Submitted().tasks[1].steps) == 0 && Candidate(Submitted().tasks[1], "")
  {
    assert Submitted().tasks[1].steps[0].status == Queued;
  }

  lemma NothingExpired()
    ensures Expire(Submitted(), 0.0) == Submitted()
  {
    hide Refresh;
    var t := Submitted().tasks[1];
    forall i | 0 <= i < |t.steps| ensures ExpireTask(t, 0.0).steps[i] == t.steps[i] {
      assert !t.steps[i].status.Running?;
    }
    assert Refresh(t.steps) == Queued by { SubmittedStatus(); }
    assert ExpireTask(t, 0.0).steps == t.steps && ExpireTask(t, 0.0) == t;
    assert Expire(Submitted(), 0.0).tasks == Submitted().tasks;
  }

  lemma SubmittedStatus()
    ensures Refresh(Submitted().tasks[1].steps) == Queued
  {
    var steps := Submitted().tasks[1].steps;
    assert steps[0].status == Queued && steps[1].status == Queued;
  }

  lemma AttemptInstance()
    ensures Judge(Submitted(), Clerk(), 1, 0.0) == Dispatch
    ensures Attempt(Submitted(), Clerk(), 1, "w", 0.0, 60.0) == HandedOut()
  {
    hide Validate, Refresh;
    PlanIsValid();
    SubmittedHead();
    var t := Submitted().tasks[1];
    assert TaskOrigin(Submitted().events, t, READ_CALL) == Ok(NoOrigin);
    assert Settle(t.steps[0], Dispatch, 2, "w", 60.0) == ReadStep(Running, 2);
    assert t.steps[0 := ReadStep(Running, 2)] == [ReadStep(Running, 2), WriteStep()];
    RunningStatus();
    assert Submitted().tasks[1 := HandedOut().tasks[1]] == HandedOut().tasks;
  }

  lemma RunningStatus()
    ensures Refresh([ReadStep(Running, 2), WriteStep()]) == Running
  {
    var steps := [ReadStep(Running, 2), WriteStep()];
    assert steps[0].status == Running && steps[1].status == Queued;
  }

  const SUBMIT: Op := Engine(SubmitTask(Clerk(), WEB, External("k"), "a", PLAN, "u", 0.0))
  const CLAIM: Op := Engine(ClaimStep(Clerk(), "w", "", 0.0, 60, [1]))

  /** The two-step plan is submitted, and its first step is handed to a worker. */
  lemma HandedOutIsReached()
    ensures Reaches([SUBMIT, CLAIM], HandedOut(), {})
  {
    hide Reaches, Submit, EngineSpec.Claim, ClaimOrder, Submitted, HandedOut;
    StartsEmpty();
    SubmitInstance();
    ClaimInstance();
    ThenEngine([], EmptyStore(), {}, SUBMIT.e);
    assert [] + [SUBMIT] == [SUBMIT];
    ThenEngine([SUBMIT], Submitted(), {}, CLAIM.e);
    assert [SUBMIT] + [CLAIM] == [SUBMIT, CLAIM];
  }

  const REJECT: Op := Engine(DecideApproval(Clerk(), 1, 1, "u", false, "operator", 1.0))

  function HalfCancelled(): Db { Approve(HandedOut(), Clerk(), 1, 1, "u", false, "operator", 1.0).db }

  /** A reachable task that is cancelled and not finally so: its later step was rejected
      while its first one was running. */
  lemma CancelledIsNotAlwaysFinal() returns (trace: seq<System>)
    ensures 1 in HalfCancelled().tasks && HalfCancelled().tasks[1].status.Cancelled?
    ensures !NoneRunning(HalfCancelled().tasks[1])
    ensures EndsIn(trace, [SUBMIT, CLAIM, REJECT], HalfCancelled(), {})
    ensures !CancelledForEver(trace, [SUBMIT, CLAIM, REJECT], 1)
  {
    hide Behaviour, HandedOut, HalfCancelled, CancelledForEver, NoneRunning, Approve;
    HandedOutIsReached();
    RejectInstance();
    ThenEngine([SUBMIT, CLAIM], HandedOut(), {}, REJECT.e);
    assert EngineStep(HandedOut(), REJECT.e).0 == HalfCancelled() by { RejectStep(); }
    assert [SUBMIT, CLAIM] + [REJECT] == [SUBMIT, CLAIM, REJECT];
    trace :| EndsIn(trace, [SUBMIT, CLAIM, REJECT], HalfCancelled(), {});
    CancelledIsFinalIff(trace, [SUBMIT, CLAIM, REJECT], 1);
  }

  lemma RejectStep()
    ensures EngineStep(HandedOut(), REJECT.e).0 == HalfCancelled()
  {
    hide Approve, HandedOut;
  }

  lemma RejectInstance()
    ensures 1 in HalfCancelled().tasks && HalfCancelled().tasks[1].status.Cancelled?
    ensures !NoneRunning(HalfCancelled().tasks[1])
  {
    var t := HalfCancelled().tasks[1];
    assert t.steps[0].status == Running && t.steps[1].status == Cancelled;
  }

  // ------------------------------------------- an expired lease a claim leaves alone

  const REVOKE: Op := Engine(SetDevice(Clerk(), "d", true, "u"))

  function Revoked(): Db { EnrollDevice(HandedOut(), Clerk(), "d", true, "u").db }

  /** A reachable state in which a claim for a revoked device leaves a lease that expired
      long ago running: here, for every moment from the lease's end on. */
  lemma RevokedDeviceKeepsExpiredLease(now: Time)
    requires now >= 60.0
    ensures !LeasesHold(Revoked().tasks, now)
    ensures ClaimGate(Revoked(), Clerk(), "w", "d", now, 60).Some?
    ensures EngineSpec.Claim(Revoked(), Clerk(), "w", "d", now, 60, []) == Tx(Revoked(), Err(Forbidden))
    ensures Reaches([SUBMIT, CLAIM, REVOKE], Revoked(), {})
  {
    hide Reaches, Revoked, HandedOut, LeasesHold;
    HandedOutIsReached();
    RevokeInstance(now);
    ThenEngine([SUBMIT, CLAIM], HandedOut(), {}, REVOKE.e);
    assert EngineStep(HandedOut(), REVOKE.e).0 == Revoked() by { RevokeStep(); }
    assert [SUBMIT, CLAIM] + [REVOKE] == [SUBMIT, CLAIM, REVOKE];
  }

  lemma RevokeStep()
    ensures EngineStep(HandedOut(), REVOKE.e).0 == Revoked()
  {
    hide EnrollDevice, HandedOut;
  }

  lemma RevokeInstance(now: Time)
    requires now >= 60.0
    ensures !LeasesHold(Revoked().tasks, now)
    ensures !Revoked().frozen && "d" in Revoked().devices && Revoked().devices["d"].revoked
  {
    hide Refresh;
    assert DeviceName("d");
    assert Revoked().tasks[1].steps[0] == UnbindStep(HandedOut().tasks[1].steps[0], "d", "u") == ReadStep(Running, 2);
  }

  // --------------------------------------------- a suppressed reply without a handoff

  /** The settings name no order agent. */
  function NoOrders(): Orders { Orders("", (result, turn) => None, event => event) }

  const EVENT := "e"
  const CHAT: Chat := ("telegram", "c")
  const INBOUND: Payload := Payload(Some("c"), "s", "hi", "")
  const REQUEST: Request := Request("a", "hi", "s", "telegram", 3, 60)

  function Asked(status: TurnStatus, run: Id, reply: string): Turn {
    Turn("telegram", EVENT, "c", "s", "a", 1, run, status, reply, NO_ID, "", 0.0)
  }

  /** The store while the one recorded message is worked on. */
  function Working(turn: Turn, runs: map<Id, Run>, next: Id): Db {
    EmptyStore().(turns := [turn], runs := runs, next := next, history := map[CHAT := [Line(1, Customer, "hi")]])
  }

  function Fresh(): Run { FreshRun(ConversationRun("telegram", EVENT), REQUEST, 0.0) }

  function Planned(): Run { Fresh().(status := Planning, claim := 2, calls := 1, lease := 60.0) }

  function Replied(): Run { Closed(Planned(), NeedsInput, "?", []) }

  const RECORD: Op := Turns(RecordInbound(Clerk(), "telegram", EVENT, "a", INBOUND, 0.0))
  const FIND: Op := Turns(TurnOp.Read(ToOpen(0), true))
  const CREATE: Op := Loop(CreateRun(Clerk(), ConversationRun("telegram", EVENT), REQUEST, 0.0))
  const JOIN: Op := Turns(TurnOp.Read(ToOpenWith(0, 1, ""), true))
  const OPEN: Op := Turns(TurnOp.Write(ToOpenWith(0, 1, ""), 0.0))
  const RESERVE: Op := Loop(ReserveRun(Clerk(), 1, 0.0, true))
  const COMMIT: Op := Loop(CommitRun(Clerk(), 1, 2, Some(Ask("?")), true, 0.0, true))
  const SEE: Op := Turns(TurnOp.Read(ToSettle(0, "?", ""), true))
  const SETTLE: Op := Turns(WriteSettle(Clerk(), 0, "?", "", NoOrders(), 0.0))
  const PICK: Op := Turns(TurnOp.Read(ToDeliver(0), true))
  const TAKE: Op := Turns(TakeOver(CHAT, "u", 30, 0.0))
  const SUPPRESS: Op := Turns(TurnOp.Write(ToDeliver(0), 0.0))

  const OPENING: seq<Op> := [RECORD, FIND, CREATE, JOIN, OPEN]
  const PLANNING: seq<Op> := [RECORD, FIND, CREATE, JOIN, OPEN, RESERVE, COMMIT]
  const TAKEN: seq<Op> := [RECORD, FIND, CREATE, JOIN, OPEN, RESERVE, COMMIT, SEE, SETTLE, PICK, TAKE]

  lemma FirstLine()
    ensures Appended([], Customer, "hi") == [Line(1, Customer, "hi")]
  {
    var line := Line(1, Customer, "hi");
    assert [] + [line] == [line] && [line][..0] == [];
    assert After([], -39) == [] && After([line], -39) == [line];
  }

  lemma RecordInstance()
    ensures RecordTurn(EmptyStore(), Clerk(), "telegram", EVENT, "a", INBOUND, 0.0).db
         == Working(Asked(TurnQueued, NO_ID, ""), map[], 1)
  {
    hide Appended;
    assert WaitingTurns(EmptyStore(), CHAT, "s") == {};
    FirstLine();
    assert [] + [Asked(TurnQueued, NO_ID, "")] == [Asked(TurnQueued, NO_ID, "")];
  }

  lemma CreateRunInstance()
    ensures Create(Working(Asked(TurnQueued, NO_ID, ""), map[], 1), Clerk(), ConversationRun("telegram", EVENT),
                   REQUEST, 0.0).db
         == Working(Asked(TurnQueued, NO_ID, ""), map[1 := Fresh()], 2)
  {
    hide RequestOk, FreshRun, Fresh;
    RequestIsOk();
    assert Fresh() == FreshRun(ConversationRun("telegram", EVENT), REQUEST, 0.0) by { FreshIs(); }
    assert ActiveRuns(Working(Asked(TurnQueued, NO_ID, ""), map[], 1)) == {};
  }

  lemma FreshIs()
    ensures Fresh() == FreshRun(ConversationRun("telegram", EVENT), REQUEST, 0.0)
  {
  }

  lemma RequestIsOk()
    ensures RequestOk(REQUEST)
  {
    assert 'a' in "a" && 'h' in "hi" && 's' in "s" && 't' in "telegram";
  }

  lemma OpenInstance()
    ensures OpenTurn(Working(Asked(TurnQueued, NO_ID, ""), map[1 := Fresh()], 2), 0, 1, "").db
         == Working(Asked(TurnOpen, 1, ""), map[1 := Fresh()], 2)
  {
    assert OpenTurns([Asked(TurnQueued, NO_ID, "")]) == {};
    assert [Asked(TurnQueued, NO_ID, "")][0 := Asked(TurnOpen, 1, "")] == [Asked(TurnOpen, 1, "")];
  }

  lemma PlanInstance()
    ensures Reserve(Working(Asked(TurnOpen, 1, ""), map[1 := Fresh()], 2), Clerk(), 1, 0.0, true).db
         == Working(Asked(TurnOpen, 1, ""), map[1 := Planned()], 3)
  {
    assert map[1 := Fresh()][1 := Planned()] == map[1 := Planned()];
  }

  lemma AskInstance()
    ensures Commit(Working(Asked(TurnOpen, 1, ""), map[1 := Planned()], 3), Clerk(), 1, 2, Some(Ask("?")), true,
                   0.0, true).db
         == Working(Asked(TurnOpen, 1, ""), map[1 := Replied()], 3)
  {
    hide Stop, Submit, Validate;
    assert !Blank("?") by { assert '?' in "?"; }
    assert map[1 := Planned()][1 := Replied()] == map[1 := Replied()];
  }

  lemma CreationIsReached()
    ensures Reaches([RECORD, FIND, CREATE], Working(Asked(TurnQueued, NO_ID, ""), map[1 := Fresh()], 2), {ToOpen(0)})
  {
    hide Reaches, RecordTurn, Create, Fresh;
    StartsEmpty();
    RecordInstance();
    CreateRunInstance();
    var db := Working(Asked(TurnQueued, NO_ID, ""), map[], 1);
    Then([], EmptyStore(), {}, RECORD, db, {});
    assert [] + [RECORD] == [RECORD];
    ThenRead([RECORD], db, {}, ToOpen(0));
    assert [RECORD] + [FIND] == [RECORD, FIND] && {} + {ToOpen(0)} == {ToOpen(0)};
    ThenLoop([RECORD, FIND], db, {ToOpen(0)}, CREATE.l);
    assert [RECORD, FIND] + [CREATE] == [RECORD, FIND, CREATE];
  }

  lemma OpeningIsReached()
    ensures Reaches(OPENING, Working(Asked(TurnOpen, 1, ""), map[1 := Fresh()], 2), {ToOpen(0), ToOpenWith(0, 1, "")})
  {
    hide Reaches, OpenTurn;
    CreationIsReached();
    OpenInstance();
    var db := Working(Asked(TurnQueued, NO_ID, ""), map[1 := Fresh()], 2);
    ThenRead([RECORD, FIND, CREATE], db, {ToOpen(0)}, ToOpenWith(0, 1, ""));
    assert {ToOpen(0)} + {ToOpenWith(0, 1, "")} == {ToOpen(0), ToOpenWith(0, 1, "")};
    assert [RECORD, FIND, CREATE] + [JOIN] == [RECORD, FIND, CREATE, JOIN];
    ThenWrite([RECORD, FIND, CREATE, JOIN], db, {ToOpen(0), ToOpenWith(0, 1, "")}, ToOpenWith(0, 1, ""), 0.0);
    assert [RECORD, FIND, CREATE, JOIN] + [OPEN] == OPENING;
  }

  lemma PlanningIsReached()
    ensures Reaches(PLANNING, Working(Asked(TurnOpen, 1, ""), map[1 := Replied()], 3),
                    {ToOpen(0), ToOpenWith(0, 1, "")})
  {
    hide Reaches, Reserve, Commit, Working, Asked, Fresh, Planned, Replied;
    OpeningIsReached();
    PlanInstance();
    AskInstance();
    var held := {ToOpen(0), ToOpenWith(0, 1, "")};
    ThenLoop(OPENING, Working(Asked(TurnOpen, 1, ""), map[1 := Fresh()], 2), held, RESERVE.l);
    ThenLoop(OPENING + [RESERVE], Working(Asked(TurnOpen, 1, ""), map[1 := Planned()], 3), held, COMMIT.l);
    assert OPENING + [RESERVE] + [COMMIT] == PLANNING;
  }

  /** The reply is settled and about to be submitted when a human takes the chat over. */
  function ReadyToSend(): Db {
    StartTakeover(Working(Asked(TurnDelivering, 1, "?"), map[1 := Replied()], 3), CHAT, "u", 30, 0.0)
  }

  lemma SettleInstance()
    ensures SettleTurn(Working(Asked(TurnOpen, 1, ""), map[1 := Replied()], 3), 0, "?", "")
         == Working(Asked(TurnDelivering, 1, "?"), map[1 := Replied()], 3)
    ensures SettledReply(Asked(TurnOpen, 1, ""), map[1 := Replied()], true, "", 4096) == Some(("?", ""))
  {
    assert !Blank("?") by { assert '?' in "?"; }
    assert [Asked(TurnOpen, 1, "")][0 := Asked(TurnDelivering, 1, "?")] == [Asked(TurnDelivering, 1, "?")];
  }

  lemma NothingOrdered(db: Db)
    requires |db.turns| > 0 && db.turns[0].status.TurnOpen?
    ensures SettleAndOrder(db, Clerk(), 0, "?", "", NoOrders(), 0.0) == SettleTurn(db, 0, "?", "")
  {
    hide SettleTurn;
  }

  lemma TakenIsReached() returns (held: set<Held>)
    ensures Reaches(TAKEN, ReadyToSend(), held) && ToDeliver(0) in held
  {
    hide Reaches, SettleTurn, SettledReply, Replied, SettleAndOrder, NoOrders;
    PlanningIsReached();
    SettleInstance();
    held := {ToOpen(0), ToOpenWith(0, 1, "")};
    var db := Working(Asked(TurnOpen, 1, ""), map[1 := Replied()], 3);
    ThenRead(PLANNING, db, held, ToSettle(0, "?", ""));
    held := held + {ToSettle(0, "?", "")};
    NothingOrdered(db);
    ThenSettle(PLANNING + [SEE], db, held, Clerk(), 0, "?", "", NoOrders(), 0.0);
    db := Working(Asked(TurnDelivering, 1, "?"), map[1 := Replied()], 3);
    ThenRead(PLANNING + [SEE] + [SETTLE], db, held, ToDeliver(0));
    held := held + {ToDeliver(0)};
    Then(PLANNING + [SEE] + [SETTLE] + [PICK], db, held, TAKE, ReadyToSend(), held);
    assert PLANNING + [SEE] + [SETTLE] + [PICK] + [TAKE] == TAKEN;
  }

  /** A reachable turn that a takeover suppressed and that no handoff ever records: its run
      had asked a question, and the question was never sent. */
  lemma SuppressedWithoutHandoff() returns (trace: seq<System>)
    ensures Behaviour(trace, TAKEN + [SUPPRESS]) && Suppresses(trace[11].db, SUPPRESS, 0)
    ensures trace[12].db.turns == [Asked(TurnOperator, 1, "?").(error := "operator_took_over")]
    ensures ("telegram", EVENT) !in trace[12].db.handoffs
  {
    hide Behaviour, Replied;
    var held := TakenIsReached();
    var before :| EndsIn(before, TAKEN, ReadyToSend(), held);
    TraceLength(before, TAKEN);
    trace := Extend(before, TAKEN, SUPPRESS);
    assert |TAKEN| == 11 && trace[11].db == ReadyToSend();
    assert trace[12].db == SuppressReply(ReadyToSend(), 0, 0.0).db;
    SuppressedHandoffIff(trace, TAKEN + [SUPPRESS], 11, 0, 12);
  }

  // ------------------------------------- an answer with a handoff, for its order

  /** Every draft is a valid order, and the settings name an agent the packs do not have. */
  function Shop(): Orders { Orders("shop", (result, turn) => Some(map[]), event => event) }

  /** The store while a task of the run is there too. */
  function Drafting(turn: Turn, run: Run, task: Task, next: Id): Db {
    Working(turn, map[1 := run], next).(tasks := map[3 := task])
  }

  function DraftTask(status: Status, step: Step): Task {
    Task("telegram", RunStep(1, 0), "a", [READ_CALL], "s", status, 0.0, [step])
  }

  function DraftQueued(): Task { DraftTask(Queued, ReadStep(Queued, NO_ID)) }

  function DraftRunning(): Task { DraftTask(Running, ReadStep(Running, 4)) }

  function DraftDone(): Task {
    DraftTask(Succeeded, ReadStep(Running, 4).(status := Succeeded, claim := NO_ID, lease := 0.0, result := "draft"))
  }

  function Waits(): Run { Linked(Planned(), 3, ORDER_DRAFT_TOOL, map[]) }

  function PlannedAgain(): Run { Waits().(status := Planning, claim := 5, calls := 2, lease := 60.0) }

  function Concluded(): Run { Closed(PlannedAgain(), NeedsInput, "?", []) }

  const DRAFT: Op := Loop(CommitRun(Clerk(), 1, 2, Some(UseTool(ORDER_DRAFT_TOOL, map[])), true, 0.0, true))
  const WORK: Op := Engine(ClaimStep(Clerk(), "w", "", 0.0, 60, [3]))
  const REPORT: Op := Engine(FinishStep(3, 0, 4, "draft", ReportSucceeded, "", 0.0))
  const REPLY: Op := Loop(CommitRun(Clerk(), 1, 5, Some(Ask("?")), true, 0.0, true))
  const ORDER: Op := Turns(WriteSettle(Clerk(), 0, "?", "", Shop(), 0.0))

  const DRAFTED: seq<Op> := [RECORD, FIND, CREATE, JOIN, OPEN, RESERVE, DRAFT, WORK, REPORT]

  lemma DraftInstance()
    ensures Commit(Working(Asked(TurnOpen, 1, ""), map[1 := Planned()], 3), Clerk(), 1, 2,
                   Some(UseTool(ORDER_DRAFT_TOOL, map[])), true, 0.0, true).db
         == Drafting(Asked(TurnOpen, 1, ""), Waits(), DraftQueued(), 4)
  {
    hide Stop, Submit, Validate, Outbound;
    var db := Working(Asked(TurnOpen, 1, ""), map[1 := Planned()], 3);
    PlanIsValid();
    DraftSubmission();
    assert !Outbound(ORDER_DRAFT_TOOL) by { NotOutbound(); }
    assert db.runs[1 := Waits()] == map[1 := Waits()];
  }

  lemma NotOutbound()
    ensures !Outbound(ORDER_DRAFT_TOOL)
  {
  }

  lemma DraftSubmission()
    ensures Submit(Working(Asked(TurnOpen, 1, ""), map[1 := Planned()], 3), Clerk(), "telegram", RunStep(1, 0), "a",
                   [READ_CALL], "s", 0.0)
         == Tx(Working(Asked(TurnOpen, 1, ""), map[1 := Planned()], 4).(tasks := map[3 := DraftQueued()]), Ok(3))
  {
    hide Validate;
    PlanIsValid();
    NotOutbound();
    var db := Working(Asked(TurnOpen, 1, ""), map[1 := Planned()], 3);
    var steps := FreshSteps([ReadPrint()], "", 0.0);
    assert steps == [ReadStep(Queued, NO_ID)];
    assert PendingTasks(db) == {};
    assert Refresh(steps) == Queued by {
      assert steps[0].status == Queued;
    }
    assert !KeyTaken(db, "telegram", RunStep(1, 0));
  }

  lemma WorkInstance()
    ensures var db := Drafting(Asked(TurnOpen, 1, ""), Waits(), DraftQueued(), 4);
            && ClaimOrder(Expire(db, 0.0), "", [3])
            && EngineSpec.Claim(db, Clerk(), "w", "", 0.0, 60, [3])
               == Tx(Drafting(Asked(TurnOpen, 1, ""), Waits(), DraftRunning(), 5), Ok(Some(Claimed(3, 0, 4))))
  {
    hide Attempt, Judge, Head, Expire;
    DraftNotExpired();
    DraftHead();
    DraftAttempt();
  }

  lemma DraftHead()
    ensures Head(DraftQueued().steps) == 0 && Candidate(DraftQueued(), "")
  {
    assert DraftQueued().steps[0].status == Queued;
  }

  lemma DraftNotExpired()
    ensures var db := Drafting(Asked(TurnOpen, 1, ""), Waits(), DraftQueued(), 4); Expire(db, 0.0) == db
  {
    hide Refresh;
    var t := DraftQueued();
    assert ExpireTask(t, 0.0).steps == t.steps;
    assert Refresh(t.steps) == Queued by { DraftStatuses(); }
    assert ExpireTask(t, 0.0) == t;
  }

  lemma DraftStatuses()
    ensures Refresh([ReadStep(Queued, NO_ID)]) == Queued && Refresh([ReadStep(Running, 4)]) == Running
    ensures Refresh(DraftDone().steps) == Succeeded
  {
    assert [ReadStep(Queued, NO_ID)][0].status == Queued && [ReadStep(Running, 4)][0].status == Running;
    assert DraftDone().steps[0].status == Succeeded;
  }

  lemma DraftAttempt()
    ensures var db := Drafting(Asked(TurnOpen, 1, ""), Waits(), DraftQueued(), 4);
            && Judge(db, Clerk(), 3, 0.0) == Dispatch
            && Attempt(db, Clerk(), 3, "w", 0.0, 60.0)
               == Drafting(Asked(TurnOpen, 1, ""), Waits(), DraftRunning(), 5)
  {
    hide Validate, Refresh;
    PlanIsValid();
    DraftHead();
    DraftStatuses();
    var db := Drafting(Asked(TurnOpen, 1, ""), Waits(), DraftQueued(), 4);
    assert ParentAllows(db.runs, 3, 0.0);
    assert TaskOrigin(db.events, DraftQueued(), READ_CALL) == Ok(NoOrigin);
    assert Settle(DraftQueued().steps[0], Dispatch, 4, "w", 60.0) == ReadStep(Running, 4);
    assert DraftQueued().steps[0 := ReadStep(Running, 4)] == [ReadStep(Running, 4)];
    assert db.tasks[3 := DraftRunning()] == map[3 := DraftRunning()];
  }

  lemma ReportInstance()
    ensures Finish(Drafting(Asked(TurnOpen, 1, ""), Waits(), DraftRunning(), 5), 3, 0, 4, "draft", ReportSucceeded,
                   "", 0.0).db
         == Drafting(Asked(TurnOpen, 1, ""), Waits(), DraftDone(), 5)
  {
    hide Refresh;
    DraftStatuses();
    var db := Drafting(Asked(TurnOpen, 1, ""), Waits(), DraftRunning(), 5);
    assert DraftRunning().steps[0 := DraftDone().steps[0]] == DraftDone().steps;
    assert db.tasks[3 := DraftDone()] == map[3 := DraftDone()];
  }

  lemma AgainInstance()
    ensures Reserve(Drafting(Asked(TurnOpen, 1, ""), Waits(), DraftDone(), 5), Clerk(), 1, 0.0, true).db
         == Drafting(Asked(TurnOpen, 1, ""), PlannedAgain(), DraftDone(), 6)
  {
    hide Stop;
    assert map[1 := Waits()][1 := PlannedAgain()] == map[1 := PlannedAgain()];
  }

  lemma ReplyInstance()
    ensures Commit(Drafting(Asked(TurnOpen, 1, ""), PlannedAgain(), DraftDone(), 6), Clerk(), 1, 5, Some(Ask("?")),
                   true, 0.0, true).db
         == Drafting(Asked(TurnOpen, 1, ""), Concluded(), DraftDone(), 6)
  {
    hide Stop, Submit, Validate;
    assert !Blank("?") by { assert '?' in "?"; }
    assert map[1 := PlannedAgain()][1 := Concluded()] == map[1 := Concluded()];
  }

  function Undecided(): Db { Drafting(Asked(TurnOpen, 1, ""), Concluded(), DraftDone(), 6) }

  function OrderRefused(): Db {
    Drafting(Asked(TurnDelivering, 1, "?"), Concluded(), DraftDone(), 6)
      .(handoffs := map[("telegram", EVENT) := "order_rejected"])
  }

  lemma OrderInstance()
    ensures SettleAndOrder(Undecided(), Clerk(), 0, "?", "", Shop(), 0.0) == OrderRefused()
    ensures OrderRefusal(Undecided(), Clerk(), Undecided().turns[0], Shop(), 0.0) == Some("order_rejected")
    ensures SettledReply(Undecided().turns[0], Undecided().runs, true, "", 4096) == Some(("?", ""))
  {
    hide SettleTurn, CaptureOrder;
    var turn := Undecided().turns[0];
    OrderFrame(Undecided(), 0, "?", "", Clerk(), Shop(), 0.0);
    OrderIsRejected(turn);
    assert [Asked(TurnOpen, 1, "")][0 := Asked(TurnDelivering, 1, "?")] == [Asked(TurnDelivering, 1, "?")];
    assert SettleTurn(Undecided(), 0, "?", "")
        == Drafting(Asked(TurnDelivering, 1, "?"), Concluded(), DraftDone(), 6) by { SettleUndecided(); }
    assert !Blank("?") by { assert '?' in "?"; }
  }

  lemma SettleUndecided()
    ensures SettleTurn(Undecided(), 0, "?", "") == Drafting(Asked(TurnDelivering, 1, "?"), Concluded(), DraftDone(), 6)
  {
    assert [Asked(TurnOpen, 1, "")][0 := Asked(TurnDelivering, 1, "?")] == [Asked(TurnDelivering, 1, "?")];
  }

  lemma OrderIsRejected(turn: Turn)
    requires turn == Asked(TurnOpen, 1, "")
    ensures var db := Drafting(Asked(TurnDelivering, 1, "?"), Concluded(), DraftDone(), 6);
            CaptureOrder(db, Clerk(), turn, Shop(), 0.0) == Captured(db, Some("order_rejected"))
  {
    hide Validate;
    var db := Drafting(Asked(TurnDelivering, 1, "?"), Concluded(), DraftDone(), 6);
    assert DraftIn(db.tasks, Concluded().links[0], Shop(), turn) == Some(map[]);
    assert OrderDraft(db, turn, Shop()) == Some(map[]);
    assert PendingOrders(db, turn, "shop") == {};
    assert !KeyTaken(db, "telegram", OrderKey(EVENT, Shop()));
    assert Validate(Clerk(), "shop", [Call(ORDER_WRITE_TOOL, map[], "")], NoOrigin).Err? by { NoShopAgent(); }
  }

  lemma NoShopAgent()
    ensures Validate(Clerk(), "shop", [Call(ORDER_WRITE_TOOL, map[], "")], NoOrigin).Err?
  {
  }

  lemma DraftIsReached()
    ensures Reaches(DRAFTED, Drafting(Asked(TurnOpen, 1, ""), Waits(), DraftDone(), 5),
                    {ToOpen(0), ToOpenWith(0, 1, "")})
  {
    hide Reaches, Reserve, Commit, EngineSpec.Claim, ClaimOrder, Finish, Working, Drafting, Asked, Fresh, Planned,
         Waits, DraftQueued, DraftRunning, DraftDone;
    OpeningIsReached();
    PlanInstance();
    DraftInstance();
    WorkInstance();
    ReportInstance();
    var held := {ToOpen(0), ToOpenWith(0, 1, "")};
    var open := Asked(TurnOpen, 1, "");
    ThenLoop(OPENING, Working(open, map[1 := Fresh()], 2), held, RESERVE.l);
    ThenLoop(OPENING + [RESERVE], Working(open, map[1 := Planned()], 3), held, DRAFT.l);
    ThenEngine(OPENING + [RESERVE] + [DRAFT], Drafting(open, Waits(), DraftQueued(), 4), held, WORK.e);
    ThenEngine(OPENING + [RESERVE] + [DRAFT] + [WORK], Drafting(open, Waits(), DraftRunning(), 5), held, REPORT.e);
    assert OPENING + [RESERVE] + [DRAFT] + [WORK] + [REPORT] == DRAFTED;
  }

  const ANSWERED: seq<Op> := [RECORD, FIND, CREATE, JOIN, OPEN, RESERVE, DRAFT, WORK, REPORT, RESERVE, REPLY]
  const ORDERING: seq<Op> := [RECORD, FIND, CREATE, JOIN, OPEN, RESERVE, DRAFT, WORK, REPORT, RESERVE, REPLY, SEE]

  lemma ReplyIsReached()
    ensures Reaches(ANSWERED, Undecided(), {ToOpen(0), ToOpenWith(0, 1, "")})
  {
    hide Reaches, Reserve, Commit, Waits, PlannedAgain, Concluded, DraftDone, Working, Asked;
    DraftIsReached();
    AgainInstance();
    ReplyInstance();
    var held := {ToOpen(0), ToOpenWith(0, 1, "")};
    ThenLoop(DRAFTED, Drafting(Asked(TurnOpen, 1, ""), Waits(), DraftDone(), 5), held, RESERVE.l);
    ThenLoop(DRAFTED + [RESERVE], Drafting(Asked(TurnOpen, 1, ""), PlannedAgain(), DraftDone(), 6), held, REPLY.l);
    assert DRAFTED + [RESERVE] + [REPLY] == ANSWERED;
  }

  lemma UndecidedIsReached() returns (held: set<Held>)
    ensures Reaches(ORDERING, Undecided(), held) && ToSettle(0, "?", "") in held
  {
    hide Reaches, SettledReply, Concluded, DraftDone, SettleAndOrder, OrderRefusal;
    ReplyIsReached();
    OrderInstance();
    held := {ToOpen(0), ToOpenWith(0, 1, "")};
    ThenRead(ANSWERED, Undecided(), held, ToSettle(0, "?", ""));
    held := held + {ToSettle(0, "?", "")};
    assert ANSWERED + [SEE] == ORDERING;
  }

  /** A reachable turn that is about to be answered with its run's own answer, and has a
      handoff all the same: its run drafted an order, and nobody takes orders. */
  lemma AnsweredWithHandoff() returns (trace: seq<System>)
    ensures Behaviour(trace, ORDERING + [ORDER]) && HandsOffOrder(trace[12].db, ORDER, 0)
    ensures trace[13].db == OrderRefused() && Answering(trace[13].db.turns[0])
    ensures EventOf(trace[13].db.turns[0]) in trace[13].db.handoffs
  {
    hide Behaviour, OrderRefusal, SettleAndOrder, SettledReply, Concluded, DraftDone;
    var held := UndecidedIsReached();
    var before :| EndsIn(before, ORDERING, Undecided(), held);
    TraceLength(before, ORDERING);
    OrderInstance();
    trace := Extend(before, ORDERING, ORDER);
    assert |ORDERING| == 12 && trace[12].db == Undecided();
    assert trace[13].db == SettleAndOrder(Undecided(), Clerk(), 0, "?", "", Shop(), 0.0);
  }

  const REFUSED: seq<Op> := ORDERING + [ORDER] + [PICK] + [TAKE]

  function RefusedAndTaken(): Db { StartTakeover(OrderRefused(), CHAT, "u", 30, 0.0) }

  lemma RefusedIsReached() returns (held: set<Held>)
    ensures Reaches(REFUSED, RefusedAndTaken(), held) && ToDeliver(0) in held
  {
    hide Reaches, Concluded, DraftDone, SettleAndOrder, SettledReply, OrderRefusal;
    held := UndecidedIsReached();
    OrderInstance();
    ThenSettle(ORDERING, Undecided(), held, Clerk(), 0, "?", "", Shop(), 0.0);
    ThenRead(ORDERING + [ORDER], OrderRefused(), held, ToDeliver(0));
    held := held + {ToDeliver(0)};
    Then(ORDERING + [ORDER] + [PICK], OrderRefused(), held, TAKE, RefusedAndTaken(), held);
  }

  /** ... and when a takeover suppresses that answer, the suppressed turn has a handoff. */
  lemma SuppressedWithHandoff() returns (trace: seq<System>)
    ensures |trace| == 17 && trace[15].db == RefusedAndTaken()
    ensures Suppresses(trace[15].db, SUPPRESS, 0) && trace[15].db.turns[0].error == ""
    ensures trace[16].db.turns == [Asked(TurnOperator, 1, "?").(error := "operator_took_over")]
    ensures ("telegram", EVENT) in trace[16].db.handoffs
    ensures Behaviour(trace, REFUSED + [SUPPRESS])
  {
    hide Behaviour, Concluded, DraftDone;
    var held := RefusedIsReached();
    var before :| EndsIn(before, REFUSED, RefusedAndTaken(), held);
    TraceLength(before, REFUSED);
    trace := Extend(before, REFUSED, SUPPRESS);
    assert |REFUSED| == 15;
    assert trace[16].db == SuppressReply(RefusedAndTaken(), 0, 0.0).db;
  }
}
