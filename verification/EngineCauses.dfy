/** The engine by its causes: when each transaction is accepted and what becomes of the task,
    in terms of the store, the plan and the directory alone. */
module EngineCauses {
  import opened Basics
  import opened Authorization
  import opened Tasks
  import opened Store
  import opened EngineSpec
  import opened EngineProofs

  // -------------------------------------------------------------------------- plans

  /** The tools that write to somebody, and the argument that says to whom. */
  lemma DestinationsByTool(call: Call)
    ensures Outbound(call.tool) <==> call.tool in {"telegram.send", "instagram.send", "whatsapp.send"}
    ensures Outbound(call.tool) ==>
              var field := if call.tool == "whatsapp.send" then "contact" else "conversation_id";
              Recipient(call) == if field in call.args then Some(call.args[field]) else None
  {
  }

  /** What lets a step go out with nobody asked: a mere read that is not listed for approval,
      or an autonomous agent's plain send to a destination that is authorised. */
  predicate NobodyAsked(rules: Rules, call: Call, risk: Risk, origin: Origin) {
    && !rules.ladder.HumanLed? && !origin.OperatorOrigin? && call.tool !in rules.approval
    && (risk.Read?
        || (&& risk.Write? && rules.ladder.Autonomous? && Outbound(call.tool)
            && (|| (Recipient(call).Some? && Recipient(call).value in rules.allowedRecipients)
                || (origin.EventOrigin? && call.tool == SendTool(origin.channel)
                    && Recipient(call) == origin.conversation))))
  }

  /** Every gate of one step. A runner's step, and no other, names its device. */
  predicate CallPasses(env: Env, agent: string, rules: Rules, origin: Origin, call: Call) {
    && call.tool in env.registry && call.tool in rules.tools
    && (origin.OperatorOrigin? ==>
          call.tool == SendTool(origin.replyChannel) && env.registry[call.tool].risk in {Risk.Read, Write})
    && env.schema(call.tool, call.args)
    && (call.tool in CONNECTION_TOOLS ==>
          "connection" in call.args && call.args["connection"] in rules.allowedConnections)
    && env.binding(agent, call.tool, call.args).Ok?
    && |call.device| <= 128 && (env.registry[call.tool].runner <==> call.device != "")
  }

  /** What a step is fingerprinted as: itself, under the rules, the risk and the binding of the
      moment, and whether somebody has to be asked. */
  predicate FingerprintOf(env: Env, agent: string, rules: Rules, origin: Origin, call: Call, fp: Fingerprint) {
    && call.tool in env.registry
    && fp.call == call && fp.rules == rules && fp.risk == env.registry[call.tool].risk
    && Ok(fp.binding) == env.binding(agent, call.tool, call.args)
    && (fp.approval <==> !NobodyAsked(rules, call, fp.risk, origin))
  }

  lemma CallByCause(env: Env, agent: string, rules: Rules, origin: Origin, call: Call)
    ensures var r := ValidateCall(env, agent, rules, origin, call);
            && (r.Ok? <==> CallPasses(env, agent, rules, origin, call))
            && (r.Ok? ==> FingerprintOf(env, agent, rules, origin, call, r.value))
  {
  }

  predicate PlanPasses(env: Env, agent: string, plan: seq<Call>, origin: Origin) {
    && agent in env.policies && !env.policies[agent].rules.ladder.UnknownLadder?
    && 1 <= |plan| <= 20 && (origin.OperatorOrigin? ==> |plan| == 1)
    && forall k :: 0 <= k < |plan| ==> CallPasses(env, agent, env.policies[agent].rules, origin, plan[k])
  }

  lemma {:induction false} CallsByCause(env: Env, agent: string, rules: Rules, origin: Origin, plan: seq<Call>)
    ensures ValidateCalls(env, agent, rules, origin, plan).Ok?
       <==> forall k :: 0 <= k < |plan| ==> CallPasses(env, agent, rules, origin, plan[k])
  {
    hide CallPasses, ValidateCall;
    if plan != [] {
      var init, last := plan[..|plan| - 1], plan[|plan| - 1];
      CallsByCause(env, agent, rules, origin, init);
      CallByCause(env, agent, rules, origin, last);
      assert plan == init + [last];
    }
  }

  /** Main result: a plan is valid if and only if its agent is known and every step passes
      every gate, and each step is then fingerprinted as what it is. */
  lemma PlanByCause(env: Env, agent: string, plan: seq<Call>, origin: Origin)
    ensures var r := Validate(env, agent, plan, origin);
            && (r.Ok? <==> PlanPasses(env, agent, plan, origin))
            && (r.Ok? ==>
                  && |r.value| == |plan| && agent in env.policies
                  && forall k :: 0 <= k < |plan| ==>
                       FingerprintOf(env, agent, env.policies[agent].rules, origin, plan[k], r.value[k]))
  {
    hide CallPasses, FingerprintOf, ValidateCalls, ValidateCall;
    var r := Validate(env, agent, plan, origin);
    if agent in env.policies {
      CallsByCause(env, agent, env.policies[agent].rules, origin, plan);
    }
    if r.Ok? {
      forall k | 0 <= k < |plan|
        ensures FingerprintOf(env, agent, env.policies[agent].rules, origin, plan[k], r.value[k])
      {
        CallByCause(env, agent, env.policies[agent].rules, origin, plan[k]);
      }
    }
  }

  // --------------------------------------------------------------------- submission

  predicate Named(s: string) { 1 <= |s| <= 256 }

  /** Where an outbound step may write: back to the conversation of the event it answers, on a
      channel with events; and elsewhere to whom the rules allow. */
  predicate MayWriteTo(db: Db, rules: Rules, channel: string, key: Key, call: Call) {
    Outbound(call.tool) ==>
      if channel in OUTBOUND_CHANNELS then
        && key.External? && (channel, key.text) in db.events && call.tool == SendTool(channel)
        && Recipient(call) == db.events[(channel, key.text)].payload.conversation
      else Recipient(call).Some? && Recipient(call).value in rules.allowedRecipients
  }

  /** What the task answers. */
  predicate OriginIs(db: Db, channel: string, key: Key, origin: Origin) {
    if channel in OUTBOUND_CHANNELS && key.External? && (channel, key.text) in db.events
    then origin == EventOrigin(channel, db.events[(channel, key.text)].payload.conversation)
    else origin.NoOrigin?
  }

  /** The submission is in order, whatever the store already holds. */
  ghost predicate InOrder(
    db: Db, env: Env, channel: string, key: Key, agent: string, plan: seq<Call>, actor: string)
  {
    && Named(channel) && (key.External? ==> Named(key.text)) && Named(agent) && Named(actor) && channel != "operator"
    && PlanPasses(env, agent, plan, OriginOf(db.events, channel, key))
    && (forall k :: 0 <= k < |plan| ==> MayWriteTo(db, env.policies[agent].rules, channel, key, plan[k]))
    && env.authority(channel, actor, MEMBERS)
  }

  /** There is room for one more: the tenant works, and fewer than a thousand tasks are open. */
  predicate HasRoom(db: Db, env: Env) {
    !db.frozen && env.authority("", "", MEMBERS) && |set t | t in db.tasks && Open(db.tasks[t].status)| < 1000
  }

  predicate KeyFree(db: Db, channel: string, key: Key) {
    forall t :: t in db.tasks ==> db.tasks[t].channel != channel || db.tasks[t].key != key
  }

  /** A new task: its steps queued in the order of its plan, each with an approval of its own,
      undecided for a day, where somebody has to be asked. */
  predicate NewTask(
    env: Env, channel: string, key: Key, agent: string, plan: seq<Call>, actor: string, now: Time, origin: Origin,
    approver: string, t: Task)
  {
    && t.channel == channel && t.key == key && t.agent == agent && t.plan == plan && t.actor == actor
    && t.created == now && t.status.Queued? && |t.steps| == |plan| && agent in env.policies
    && forall k :: 0 <= k < |plan| ==>
         && FingerprintOf(env, agent, env.policies[agent].rules, origin, plan[k], t.steps[k].fp)
         && NewStep(plan[k], now, approver, t.steps[k])
  }

  predicate NewStep(call: Call, now: Time, approver: string, s: Step) {
    && s.call == call && s.status.Queued? && s.attempts == 0 && s.claim == NO_ID && s.worker == "" && s.lease == 0.0
    && s.result == "{}" && s.error == "" && s.needed == s.fp.approval
    && s.approval == if !s.needed then None
                     else Some(Approval(s.fp, if approver == "" then Pending else Approved, approver, now + 86400.0))
  }

  /** One new task under the next identity. */
  predicate Adds(
    db: Db, env: Env, channel: string, key: Key, agent: string, plan: seq<Call>, actor: string, now: Time,
    origin: Origin, approver: string, db': Db)
  {
    && db' == db.(tasks := db'.tasks, next := db.next + 1) && db.next in db'.tasks
    && db'.tasks == db.tasks[db.next := db'.tasks[db.next]]
    && NewTask(env, channel, key, agent, plan, actor, now, origin, approver, db'.tasks[db.next])
  }

  lemma FreshAdds(
    db: Db, env: Env, channel: string, key: Key, agent: string, plan: seq<Call>, actor: string,
    fps: seq<Fingerprint>, origin: Origin, approver: string, now: Time)
    requires Validate(env, agent, plan, origin) == Ok(fps)
    ensures var steps := FreshSteps(fps, approver, now);
            Adds(db, env, channel, key, agent, plan, actor, now, origin, approver,
                 db.(tasks := db.tasks[db.next := Task(channel, key, agent, plan, actor, Refresh(steps), now, steps)],
                     next := db.next + 1))
  {
    hide Validate, FingerprintOf, FreshStep;
    PlanByCause(env, agent, plan, origin);
    var steps := FreshSteps(fps, approver, now);
    forall k | 0 <= k < |plan|
      ensures steps[k].fp == fps[k] && NewStep(plan[k], now, approver, steps[k])
    {
      CallIsKept(env, agent, env.policies[agent].rules, origin, plan[k], fps[k]);
      FreshIsNew(fps[k], approver, now);
    }
    AllQueued(steps);
  }

  lemma CallIsKept(env: Env, agent: string, rules: Rules, origin: Origin, call: Call, fp: Fingerprint)
    requires FingerprintOf(env, agent, rules, origin, call, fp)
    ensures fp.call == call
  {
  }

  lemma FreshIsNew(fp: Fingerprint, approver: string, now: Time)
    ensures NewStep(fp.call, now, approver, FreshStep(fp, approver, now))
    ensures FreshStep(fp, approver, now).fp == fp
  {
  }

  lemma AllQueued(steps: seq<Step>)
    requires steps != [] && forall k :: 0 <= k < |steps| ==> steps[k].status.Queued?
    ensures Refresh(steps).Queued?
  {
    assert steps[0].status != Succeeded;
  }

  /** Creating the task of a plan that was found in order. */
  lemma CreateTaskByCause(
    db: Db, env: Env, channel: string, key: Key, agent: string, plan: seq<Call>, actor: string,
    fps: seq<Fingerprint>, origin: Origin, approver: string, now: Time)
    requires TasksGood(db) && Validate(env, agent, plan, origin) == Ok(fps)
    ensures var tx := CreateTask(db, env, channel, key, agent, plan, actor, fps, approver, now);
            && (tx.out.Err? ==> tx.db == db)
            && (tx.out.Ok? ==> env.authority(channel, actor, MEMBERS))
            && (KeyFree(db, channel, key) ==>
                  && (tx.out.Ok? <==> env.authority(channel, actor, MEMBERS) && HasRoom(db, env))
                  && (tx.out.Ok? ==> tx.out.value == db.next
                                     && Adds(db, env, channel, key, agent, plan, actor, now, origin, approver, tx.db))
                  && (env.authority(channel, actor, MEMBERS) && !HasRoom(db, env) ==>
                        tx.out == Err(if db.frozen || !env.authority("", "", MEMBERS) then Forbidden else RateLimited)))
            && (forall t :: t in db.tasks && db.tasks[t].channel == channel && db.tasks[t].key == key ==>
                  tx == Tx(db, if !env.authority(channel, actor, MEMBERS) then Err(Forbidden)
                               else if db.tasks[t].agent == agent && db.tasks[t].plan == plan then Ok(t)
                               else Err(Conflict)))
  {
    hide Validate, FreshSteps, Adds, Refresh, TasksGood;
    KeysAreUnique(db);
    assert KeyFree(db, channel, key) <==> !KeyTaken(db, channel, key);
    assert forall t :: t in db.tasks && db.tasks[t].channel == channel && db.tasks[t].key == key ==>
             SameKey(db.tasks[t], db.tasks[TaskByKey(db, channel, key)]);
    assert PendingTasks(db) == set t | t in db.tasks && Open(db.tasks[t].status);
    FreshAdds(db, env, channel, key, agent, plan, actor, fps, origin, approver, now);
  }

  lemma KeysAreUnique(db: Db)
    requires TasksGood(db)
    ensures forall t, u :: t in db.tasks && u in db.tasks && SameKey(db.tasks[t], db.tasks[u]) ==> t == u
  {
    hide TaskOk, DestinationBound, NoneRunning;
    assert forall t, u :: t in db.tasks && u in db.tasks && SameKey(db.tasks[t], db.tasks[u]) ==> t == u;
  }

  /** Main result: a submission in order is given the task of its key if that was submitted
      for the same plan, and a new one if there is none and there is room. */
  lemma SubmitByCause(
    db: Db, env: Env, channel: string, key: Key, agent: string, plan: seq<Call>, actor: string, now: Time)
    requires TasksGood(db)
    ensures var tx := Submit(db, env, channel, key, agent, plan, actor, now);
            && (tx.out.Err? ==> tx.db == db)
            && (!InOrder(db, env, channel, key, agent, plan, actor) ==> tx.out.Err?)
            && (KeyFree(db, channel, key) ==>
                  && (tx.out.Ok? <==> InOrder(db, env, channel, key, agent, plan, actor) && HasRoom(db, env))
                  && (tx.out.Ok? ==>
                        && tx.out.value == db.next
                        && exists origin :: OriginIs(db, channel, key, origin)
                             && Adds(db, env, channel, key, agent, plan, actor, now, origin, "", tx.db))
                  && (InOrder(db, env, channel, key, agent, plan, actor) && !HasRoom(db, env) ==>
                        tx.out == Err(if db.frozen || !env.authority("", "", MEMBERS) then Forbidden else RateLimited)))
            && (forall t :: t in db.tasks && db.tasks[t].channel == channel && db.tasks[t].key == key
                            && InOrder(db, env, channel, key, agent, plan, actor) ==>
                  tx == Tx(db, if db.tasks[t].agent == agent && db.tasks[t].plan == plan then Ok(t) else Err(Conflict)))
  {
    hide TasksGood, CreateTask, Validate, PlanPasses, Adds, KeyFree, HasRoom, OriginOf, MayWriteTo, DestinationAllowed;
    var origin := OriginOf(db.events, channel, key);
    OriginIsRight(db, channel, key);
    PlanByCause(env, agent, plan, origin);
    var fps := Validate(env, agent, plan, origin);
    if fps.Ok? {
      CreateTaskByCause(db, env, channel, key, agent, plan, actor, fps.value, origin, "", now);
      forall k | 0 <= k < |plan|
        ensures DestinationAllowed(env.policies[agent].rules, channel, origin, plan[k])
           <==> MayWriteTo(db, env.policies[agent].rules, channel, key, plan[k])
      {
        DestinationByCause(db, env.policies[agent].rules, channel, key, plan[k]);
      }
    }
  }

  lemma OriginIsRight(db: Db, channel: string, key: Key)
    ensures OriginIs(db, channel, key, OriginOf(db.events, channel, key))
  {
  }

  lemma DestinationByCause(db: Db, rules: Rules, channel: string, key: Key, call: Call)
    ensures DestinationAllowed(rules, channel, OriginOf(db.events, channel, key), call)
       <==> MayWriteTo(db, rules, channel, key, call)
  {
  }

  // ----------------------------------------------------------------- operator replies

  /** A human may answer this conversation, as this agent, with this text. */
  ghost predicate MayReply(
    db: Db, env: Env, channel: string, conversation: string, text: string, actor: string, role: string, key: string,
    agent: string)
  {
    && channel in OUTBOUND_CHANNELS && role in {"owner", "operator"}
    && Named(actor) && Named(agent) && Named(conversation) && key != "" && 15 + |key| <= 256
    && !Blank(text) && |text| <= 4000
    && agent in env.policies
    && var roles := if env.policies[agent].rules.approverRole == "owner" then {"owner"} else {"owner", "operator"};
    && role in roles && env.authority("approval", actor, roles)
    && KnownConversation(db.events, channel, conversation)
    && PlanPasses(env, agent, [ReplyCall(channel, conversation, text)], OperatorOrigin(channel, conversation))
    && env.authority("operator", actor, MEMBERS)
  }

  /** Main result: an operator's reply becomes one task, whose one send always needs an approval
      and already has its author's, unless the rules want a second pair of eyes. */
  lemma ReplyByCause(
    db: Db, env: Env, channel: string, conversation: string, text: string, actor: string, role: string, key: string,
    agent: string, now: Time)
    requires TasksGood(db)
    ensures var tx := ReplyAsOperator(db, env, channel, conversation, text, actor, role, key, agent, now);
            && (tx.out.Err? ==> tx.db == db)
            && (tx.out.Ok? ==> MayReply(db, env, channel, conversation, text, actor, role, key, agent))
            && (KeyFree(db, "operator", OperatorReply(key)) ==>
                  && (tx.out.Ok? <==> && MayReply(db, env, channel, conversation, text, actor, role, key, agent)
                                      && HasRoom(db, env))
                  && (tx.out.Ok? ==>
                        && tx.out.value == db.next
                        && Adds(db, env, "operator", OperatorReply(key), agent,
                                [ReplyCall(channel, conversation, text)], actor, now,
                                OperatorOrigin(channel, conversation),
                                if env.policies[agent].rules.independentApproval then "" else actor, tx.db)))
            && (forall t :: t in db.tasks && db.tasks[t].channel == "operator" && db.tasks[t].key == OperatorReply(key)
                            && MayReply(db, env, channel, conversation, text, actor, role, key, agent) ==>
                  tx == Tx(db, if db.tasks[t].agent == agent
                                  && db.tasks[t].plan == [ReplyCall(channel, conversation, text)]
                               then Ok(t) else Err(Conflict)))
  {
    hide TasksGood, CreateTask, Validate, PlanPasses, Adds, KeyFree, HasRoom, KnownConversation, OperatorOriginOf,
         ReplyCall, Blank;
    if channel in OUTBOUND_CHANNELS && Named(conversation) {
      var call := ReplyCall(channel, conversation, text);
      ReplyOrigin(db.events, channel, conversation, text);
      var origin := OperatorOrigin(channel, conversation);
      PlanByCause(env, agent, [call], origin);
      var fps := Validate(env, agent, [call], origin);
      if fps.Ok? {
        var approver := if env.policies[agent].rules.independentApproval then "" else actor;
        CreateTaskByCause(db, env, "operator", OperatorReply(key), agent, [call], actor, fps.value, origin, approver,
                          now);
      }
    }
  }

  lemma ReplyOrigin(events: map<(string, string), Event>, channel: string, conversation: string, text: string)
    requires channel in OUTBOUND_CHANNELS && conversation != ""
    ensures OperatorOriginOf(events, ReplyCall(channel, conversation, text))
         == if KnownConversation(events, channel, conversation) then Ok(OperatorOrigin(channel, conversation))
            else Err(NotFound)
  {
    hide KnownConversation;
    var call := ReplyCall(channel, conversation, text);
    SameChannel(ChannelOf(call.tool), channel);
  }

  /** A channel is known by its send tool. */
  lemma SameChannel(a: string, b: string)
    requires SendTool(a) == SendTool(b)
    ensures a == b
  {
    assert |a| == |b|;
    assert forall k :: 0 <= k < |a| ==> a[k] == SendTool(a)[k] == SendTool(b)[k] == b[k];
  }

  // ----------------------------------------------------------------------- approval

  predicate Undecided(db: Db, tid: Id, pos: nat, now: Time) {
    && tid in db.tasks && pos < |db.tasks[tid].steps| && db.tasks[tid].steps[pos].approval.Some?
    && db.tasks[tid].steps[pos].status in {Queued, WaitingApproval}
    && db.tasks[tid].steps[pos].approval.value.status.Pending?
    && now < db.tasks[tid].steps[pos].approval.value.expires
  }

  /** Who may decide: somebody the rules of the task's agent name, and, where they want a second
      pair of eyes, to say yes, somebody else than the one who asked. */
  predicate MayDecide(db: Db, env: Env, tid: Id, actor: string, approved: bool, role: string, now: Time)
    requires tid in db.tasks
  {
    && role in {"owner", "operator", "super-admin"}
    && !db.frozen && env.authority("", "", MEMBERS) && ParentAllows(db.runs, tid, now)
    && db.tasks[tid].agent in env.policies
    && var rules := env.policies[db.tasks[tid].agent].rules;
    && (rules.approverRole == "owner" || rules.approverRole == "operator")
    && (rules.approverRole == "owner" ==> role != "operator" && env.authority("approval", actor, {"owner"}))
    && (rules.approverRole == "operator" ==> env.authority("approval", actor, {"owner", "operator"}))
    && (approved && rules.independentApproval ==> actor != db.tasks[tid].actor)
  }

  /** One step of one task changed to this, and the task's status with it. */
  ghost predicate StepWritten(db: Db, tid: Id, pos: nat, s: Step, db': Db) {
    && tid in db.tasks && pos < |db.tasks[tid].steps| && tid in db'.tasks
    && db' == db.(tasks := db.tasks[tid := db'.tasks[tid]])
    && db'.tasks[tid] == db.tasks[tid].(steps := db.tasks[tid].steps[pos := s], status := db'.tasks[tid].status)
    && db'.tasks[tid].status == Refresh(db'.tasks[tid].steps)
  }

  lemma WriteStep(db: Db, tid: Id, pos: nat, s: Step)
    requires tid in db.tasks && pos < |db.tasks[tid].steps|
    ensures StepWritten(db, tid, pos, s, db.(tasks := db.tasks[tid := WithStep(db.tasks[tid], pos, s)]))
  {
    hide Refresh;
  }

  /** The step goes back to the queue with a yes, and is cancelled with a no. */
  function Decided(s: Step, actor: string, approved: bool): Step
    requires s.approval.Some?
  {
    if approved then s.(status := Queued, approval := Some(s.approval.value.(status := Approved, actor := actor)))
    else s.(status := Cancelled, approval := Some(s.approval.value.(status := Rejected, actor := actor)))
  }

  /** Main result: an approval is decided, once, by somebody who may, while its step waits. */
  lemma ApproveByCause(
    db: Db, env: Env, tid: Id, pos: nat, actor: string, approved: bool, role: string, now: Time)
    ensures var tx := Approve(db, env, tid, pos, actor, approved, role, now);
            && (tx.out.Err? ==> tx.db == db)
            && (tx.out.Ok? <==>
                  && tid in db.tasks && MayDecide(db, env, tid, actor, approved, role, now)
                  && Undecided(db, tid, pos, now))
            && (tx.out.Ok? ==> StepWritten(db, tid, pos, Decided(db.tasks[tid].steps[pos], actor, approved), tx.db))
            && (tx.out == Err(Conflict) <==>
                  && tid in db.tasks && pos < |db.tasks[tid].steps| && db.tasks[tid].steps[pos].approval.Some?
                  && MayDecide(db, env, tid, actor, approved, role, now) && !Undecided(db, tid, pos, now))
  {
    hide ParentAllows, StepWritten, WithStep;
    if tid in db.tasks && pos < |db.tasks[tid].steps| && db.tasks[tid].steps[pos].approval.Some? {
      WriteStep(db, tid, pos, Decided(db.tasks[tid].steps[pos], actor, approved));
    }
  }

  // ---------------------------------------------------------------- report and operators

  /** The worker's claim on this step still stands. */
  predicate ClaimStands(db: Db, tid: Id, pos: nat, token: Id, now: Time) {
    && tid in db.tasks && pos < |db.tasks[tid].steps|
    && db.tasks[tid].steps[pos].status.Running? && db.tasks[tid].steps[pos].claim == token
    && now < db.tasks[tid].steps[pos].lease
  }

  /** What a report makes of its step: the result is kept whole, the error at its beginning. */
  predicate Reported(s: Step, result: string, report: Report, error: string, s': Step) {
    && s' == s.(status := s'.status, result := result, error := s'.error, claim := NO_ID, lease := 0.0)
    && s'.error <= error && |s'.error| == (if |error| <= 200 then |error| else 200)
    && s'.status == match report case ReportSucceeded => Succeeded case ReportFailed => Failed
                                 case ReportUncertain => Uncertain
  }

  /** Main result: a report is taken from the holder of the claim alone, and is what the step
      becomes. */
  lemma FinishByCause(
    db: Db, tid: Id, pos: nat, token: Id, result: string, report: Report, error: string, now: Time)
    ensures var tx := Finish(db, tid, pos, token, result, report, error, now);
            && (tx.out.Err? ==> tx.db == db)
            && (tx.out.Ok? <==> |result| <= 100000 && ClaimStands(db, tid, pos, token, now))
            && (tx.out == Err(Conflict) <==> |result| <= 100000 && !ClaimStands(db, tid, pos, token, now))
            && (tx.out.Ok? ==>
                  && tid in tx.db.tasks && pos < |tx.db.tasks[tid].steps|
                  && Reported(db.tasks[tid].steps[pos], result, report, error, tx.db.tasks[tid].steps[pos])
                  && StepWritten(db, tid, pos, tx.db.tasks[tid].steps[pos], tx.db))
  {
    hide StepWritten, Refresh;
    if ClaimStands(db, tid, pos, token, now) {
      var s := db.tasks[tid].steps[pos].(status := ReportStatus(report), result := result,
                                         error := Cut(error, MAX_ERROR_CHARS), claim := NO_ID, lease := 0.0);
      WriteStep(db, tid, pos, s);
    }
  }

  /** Main result: an owner with evidence settles what is in doubt, as it was said to be. */
  lemma ReconcileByCause(
    db: Db, env: Env, tid: Id, pos: nat, actor: string, role: string, succeeded: bool, evidence: string)
    ensures var tx := Reconcile(db, env, tid, pos, actor, role, succeeded, evidence);
            && (tx.out.Err? ==> tx.db == db)
            && (tx.out.Ok? <==>
                  && role in {"owner", "super-admin"} && !Blank(evidence) && |evidence| <= 500
                  && env.authority("web", actor, {"owner"})
                  && tid in db.tasks && pos < |db.tasks[tid].steps| && db.tasks[tid].steps[pos].status.Uncertain?)
            && (tx.out.Ok? ==>
                  StepWritten(db, tid, pos, db.tasks[tid].steps[pos].(status := if succeeded then Succeeded else Failed,
                                                                     error := "operator_reconciled"), tx.db))
  {
    hide StepWritten, WithStep, Blank;
    if tid in db.tasks && pos < |db.tasks[tid].steps| {
      WriteStep(db, tid, pos, db.tasks[tid].steps[pos].(status := if succeeded then Succeeded else Failed,
                                                        error := "operator_reconciled"));
    }
  }

  /** An approval that was not used is rejected, in nobody's name but who gave it. */
  predicate Dropped(a: Option<Approval>, a': Option<Approval>) {
    if a.Some? && a.value.status in {Pending, Approved} then a' == Some(a.value.(status := Rejected)) else a' == a
  }

  /** Every step that still waits is cancelled, and one that runs is in doubt. */
  predicate CancelledStep(s: Step, s': Step) {
    && Dropped(s.approval, s'.approval)
    && s' == (if s.status.Running? then s.(status := Uncertain, claim := NO_ID)
              else if s.status in {Queued, WaitingApproval} then s.(status := Cancelled, claim := NO_ID)
              else s).(approval := s'.approval)
  }

  /** The steps of a task changed one by one, and its status with them. */
  ghost predicate StepsWritten(t: Task, t': Task, change: (Step, Step) -> bool) {
    && t' == t.(steps := t'.steps, status := t'.status) && |t'.steps| == |t.steps|
    && t'.status == Refresh(t'.steps)
    && forall i :: 0 <= i < |t.steps| ==> change(t.steps[i], t'.steps[i])
  }

  lemma MapWrites(t: Task, f: Step -> Step, change: (Step, Step) -> bool)
    requires forall i :: 0 <= i < |t.steps| ==> change(t.steps[i], f(t.steps[i]))
    ensures StepsWritten(t, MapSteps(t, f), change)
  {
    hide Refresh;
  }

  /** Main result: a member cancels a task that is not over, all of it. */
  lemma CancelByCause(db: Db, env: Env, tid: Id, actor: string)
    ensures var tx := Cancel(db, env, tid, actor);
            && (tx.out.Err? ==> tx.db == db)
            && (tx.out.Ok? <==>
                  && env.authority("web", actor, {"owner", "operator"}) && tid in db.tasks
                  && db.tasks[tid].status !in {Succeeded, Failed, Cancelled})
            && (tx.out.Ok? ==>
                  && tid in tx.db.tasks && tx.db == db.(tasks := db.tasks[tid := tx.db.tasks[tid]])
                  && StepsWritten(db.tasks[tid], tx.db.tasks[tid], (s, s') => CancelledStep(s, s')))
  {
    hide StepsWritten, MapSteps;
    if tid in db.tasks {
      MapWrites(db.tasks[tid], s => CancelStep(s), (s, s') => CancelledStep(s, s'));
    }
  }

  /** A running step is in doubt; any other is as it was. */
  predicate FrozenStep(s: Step, s': Step) {
    s' == if s.status.Running? then s.(status := Uncertain, claim := NO_ID, error := "tenant_frozen_during_execution")
          else s
  }

  /** Main result: an owner stops the tenant, and every running step with it, or resumes it. */
  lemma FreezeByCause(db: Db, env: Env, stopped: bool, actor: string)
    ensures var tx := Freeze(db, env, stopped, actor);
            && (tx.out.Err? ==> tx.db == db)
            && (tx.out.Ok? <==> env.authority("web", actor, {"owner"}))
            && (tx.out.Ok? ==>
                  && tx.db == db.(frozen := stopped, tasks := tx.db.tasks) && tx.db.tasks.Keys == db.tasks.Keys
                  && (!stopped ==> tx.db.tasks == db.tasks)
                  && (stopped ==> forall t :: t in db.tasks ==>
                        StepsWritten(db.tasks[t], tx.db.tasks[t], (s, s') => FrozenStep(s, s'))))
  {
    hide StepsWritten, MapSteps;
    forall t | t in db.tasks
      ensures StepsWritten(db.tasks[t], FreezeTask(db.tasks[t]), (s, s') => FrozenStep(s, s'))
    {
      MapWrites(db.tasks[t], s => FreezeStep(s), (s, s') => FrozenStep(s, s'));
    }
  }

  /** A step of this device that was still to be done is not done any more. */
  predicate UnboundStep(device: string, actor: string, s: Step, s': Step) {
    if s.call.device == device && s.status in {Queued, WaitingApproval, Running}
    then
      && Withdrawn(s.approval, s'.approval, actor)
      && s' == s.(status := if s.status.Running? then Uncertain else Cancelled, claim := NO_ID, lease := 0.0,
                  error := "device_enrollment_changed", approval := s'.approval)
    else s' == s
  }

  /** Main result: enrolling a device, or revoking it, begins a new generation of it, for which
      nothing of the old one is done. */
  lemma EnrollByCause(db: Db, env: Env, device: string, revoked: bool, actor: string)
    ensures var tx := EnrollDevice(db, env, device, revoked, actor);
            && (tx.out.Err? ==> tx.db == db)
            && (tx.out.Ok? <==>
                  && 1 <= |device| <= 128
                  && (forall c :: c in device ==>
                        'A' <= c <= 'Z' || 'a' <= c <= 'z' || '0' <= c <= '9' || c == '_' || c == '-')
                  && env.authority("web", actor, {"owner"})
                  && (!revoked ==> !db.frozen && env.authority("", "", MEMBERS)))
            && (tx.out.Ok? ==>
                  && tx.out.value == (if device in db.devices then db.devices[device].generation else 0) + 1
                  && tx.db == db.(tasks := tx.db.tasks, devices := db.devices[device := Device(revoked, tx.out.value)])
                  && tx.db.tasks.Keys == db.tasks.Keys
                  && forall t :: t in db.tasks ==>
                       StepsWritten(db.tasks[t], tx.db.tasks[t], (s, s') => UnboundStep(device, actor, s, s')))
  {
    hide StepsWritten, MapSteps;
    forall t | t in db.tasks
      ensures StepsWritten(db.tasks[t], UnbindDevice(db.tasks[t], device, actor),
                           (s, s') => UnboundStep(device, actor, s, s'))
    {
      MapWrites(db.tasks[t], s => UnbindStep(s, device, actor), (s, s') => UnboundStep(device, actor, s, s'));
    }
  }

  // ------------------------------------------------------------------------- events

  /** Main result: an event is accepted once, while there is room, and replayed only as it was. */
  lemma ReceiveByCause(db: Db, env: Env, channel: string, key: string, p: Payload, overQuota: bool)
    ensures var tx := AcceptEvent(db, env, channel, key, p, overQuota);
            var fit := Named(channel) && Named(key) && env.authority(channel, p.sender, MEMBERS);
            && (tx.out.Err? ==> tx.db == db)
            && (tx.out == Ok(false) <==> fit && (channel, key) in db.events && db.events[(channel, key)].payload == p)
            && (tx.out == Ok(false) ==> tx.db == db)
            && (tx.out == Err(Conflict) <==>
                  fit && (channel, key) in db.events && db.events[(channel, key)].payload != p)
            && (tx.out == Ok(true) <==>
                  && fit && (channel, key) !in db.events && !db.frozen && env.authority("", "", MEMBERS) && !overQuota
                  && |set k | k in db.events && db.events[k].status in {EventPending, EventProcessing}| < 1000)
            && (tx.out == Ok(true) ==>
                  tx.db == db.(events := db.events[(channel, key) :=
                    Event(p, EventPending, NO_ID, 0.0, NoOutcome, "", |db.events|)]))
  {
    assert PendingEvents(db) == set k | k in db.events && db.events[k].status in {EventPending, EventProcessing};
  }

  /** The event is due: it waits, or its lease ran out. */
  predicate Due(db: Db, k: (string, string), now: Time) {
    k in db.events
    && (db.events[k].status.EventPending? || (db.events[k].status.EventProcessing? && db.events[k].lease <= now))
  }

  /** Main result: the event that is due, wanted and was accepted before every other such is
      leased for two minutes, under a fresh claim. */
  lemma LeaseByCause(db: Db, k: (string, string), now: Time, channels: Option<set<string>>, skip: set<string>)
    ensures NextEvent(db, k, now, channels, skip) <==>
              && Due(db, k, now) && (channels.Some? ==> k.0 in channels.value) && k.0 !in skip
              && forall e :: Due(db, e, now) && (channels.Some? ==> e.0 in channels.value) && e.0 !in skip ==>
                   db.events[k].arrived <= db.events[e].arrived
    ensures var tx := ClaimEvent(db, k, now);
            if db.frozen || !Due(db, k, now) then tx == Tx(db, Ok(None))
            else
              && tx.out == Ok(Some(db.next))
              && tx.db == db.(next := db.next + 1, events := db.events[k := db.events[k].(
                   status := EventProcessing, claim := db.next, lease := now + 120.0)])
  {
  }

  /** What settling an event writes: only under the claim that leased it, its outcome, or the
      reason it failed for and no outcome. */
  lemma CloseByCause(db: Db, k: (string, string), token: Id, outcome: Outcome, failure: Option<string>)
    ensures var db' := SettleEvent(db, k, token, outcome, failure);
            if k in db.events && db.events[k].claim == token then
              && db' == db.(events := db.events[k := db'.events[k]])
              && db'.events[k] == db.events[k].(
                   status := if failure.None? then EventDone else EventFailed, claim := NO_ID, lease := 0.0,
                   outcome := if failure.None? then outcome else NoOutcome,
                   error := if failure.None? then "" else failure.value)
            else db' == db
  {
  }

  /** A failed event, and no other, is put back, by a member, while its sender may still write. */
  lemma RepeatByCause(db: Db, env: Env, k: (string, string), actor: string)
    ensures var tx := RetryEvent(db, env, k, actor);
            && (tx.out.Err? ==> tx.db == db)
            && (tx.out.Ok? <==>
                  && !db.frozen && env.authority("", "", MEMBERS) && env.authority("web", actor, {"owner", "operator"})
                  && k in db.events && env.authority(k.0, db.events[k].payload.sender, MEMBERS)
                  && db.events[k].status.EventFailed?)
            && (tx.out.Ok? ==>
                  tx.db == db.(events := db.events[k := db.events[k].(status := EventPending, error := "")]))
  {
  }
}
