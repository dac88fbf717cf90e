/** Every transaction of the engine keeps the invariant and undoes nothing. */
module EngineProofs {
  import opened Basics
  import opened Authorization
  import opened Tasks
  import opened Store
  import opened EngineSpec

  // --------------------------------------------------------- shapes of a change

  /** No step was handed to a worker, and no new task arrives already dispatched. */
  ghost predicate SameDispatches(tasks: map<Id, Task>, tasks': map<Id, Task>) {
    && tasks.Keys <= tasks'.Keys
    && (forall t :: t in tasks ==> SameAttempts(tasks[t], tasks'[t]))
    && (forall t, i :: t in tasks' && t !in tasks && 0 <= i < |tasks'[t].steps| ==>
          tasks'[t].steps[i].attempts == 0)
  }

  lemma StayPut(db: Db)
    requires TasksGood(db)
    ensures TasksMove(db, db) && SameDispatches(db.tasks, db.tasks)
  {
    forall t | t in db.tasks ensures TaskEvolves(db.tasks[t], db.tasks[t]) {
      assert TaskOk(db.tasks[t]);
    }
  }

  lemma UpdateMoves(db: Db, tid: Id, t: Task, next: Id)
    requires TasksGood(db) && tid in db.tasks && db.next <= next
    requires TaskOk(t) && TaskEvolves(db.tasks[tid], t)
    requires db.frozen ==> NoneRunning(t)
    ensures TasksMove(db, db.(tasks := db.tasks[tid := t], next := next))
    ensures SameAttempts(db.tasks[tid], t) ==> SameDispatches(db.tasks, db.tasks[tid := t])
  {
    var db' := db.(tasks := db.tasks[tid := t], next := next);
    StayPut(db);
    MapMoves(db, db');
  }

  /** No task is added; every task moves well; the other tables stay. */
  lemma MapMoves(db: Db, db': Db)
    requires TasksGood(db)
    requires db' == db.(tasks := db'.tasks, next := db'.next, frozen := db'.frozen, devices := db'.devices)
    requires db.next <= db'.next && db'.tasks.Keys == db.tasks.Keys
    requires forall t :: t in db.tasks ==> TaskOk(db'.tasks[t]) && TaskEvolves(db.tasks[t], db'.tasks[t])
    requires db'.frozen ==> forall t :: t in db.tasks ==> NoneRunning(db'.tasks[t])
    ensures TasksMove(db, db')
    ensures (forall t :: t in db.tasks ==> SameAttempts(db.tasks[t], db'.tasks[t])) ==>
              SameDispatches(db.tasks, db'.tasks)
  {
    StayPut(db);
    forall t, i | t in db'.tasks && 0 <= i < |db'.tasks[t].steps|
      ensures DestinationBound(db'.events, db'.tasks[t], db'.tasks[t].steps[i])
    {
      assert DestinationBound(db.events, db.tasks[t], db.tasks[t].steps[i]);
      assert TaskEvolves(db.tasks[t], db'.tasks[t]);
      assert StepEvolves(db.tasks[t].steps[i], db'.tasks[t].steps[i]);
    }
    forall t, u | t in db'.tasks && u in db'.tasks && SameKey(db'.tasks[t], db'.tasks[u]) ensures t == u {
      assert TaskEvolves(db.tasks[t], db'.tasks[t]) && TaskEvolves(db.tasks[u], db'.tasks[u]);
      assert SameKey(db.tasks[t], db.tasks[u]);
    }
  }

  lemma InsertMoves(db: Db, t: Task)
    requires TasksGood(db) && TaskOk(t) && NoneRunning(t)
    requires !KeyTaken(db, t.channel, t.key)
    requires forall i :: 0 <= i < |t.steps| ==> DestinationBound(db.events, t, t.steps[i])
    ensures TasksMove(db, db.(tasks := db.tasks[db.next := t], next := db.next + 1))
    ensures (forall i :: 0 <= i < |t.steps| ==> t.steps[i].attempts == 0) ==>
              SameDispatches(db.tasks, db.tasks[db.next := t])
  {
    hide TasksOk, TaskOk, TasksEvolve, SameDispatches, NoneRunning, KeyTaken, DestinationBound;
    StayPut(db);
    assert db.next !in db.tasks;
    InsertedTaskOk(db, t);
    InsertedEvolves(db.tasks, db.next, t);
    if forall i :: 0 <= i < |t.steps| ==> t.steps[i].attempts == 0 {
      InsertedDispatchesNothing(db.tasks, db.next, t);
    }
  }

  lemma InsertedTaskOk(db: Db, t: Task)
    requires TasksOk(db.tasks, db.events, db.frozen) && db.next !in db.tasks
    requires TaskOk(t) && NoneRunning(t) && !KeyTaken(db, t.channel, t.key)
    requires forall i :: 0 <= i < |t.steps| ==> DestinationBound(db.events, t, t.steps[i])
    ensures TasksOk(db.tasks[db.next := t], db.events, db.frozen)
  {
    hide TaskOk, DestinationBound, NoneRunning;
  }

  lemma InsertedEvolves(tasks: map<Id, Task>, id: Id, t: Task)
    requires TasksEvolve(tasks, tasks) && id !in tasks
    ensures TasksEvolve(tasks, tasks[id := t])
  {
    hide TaskEvolves;
  }

  lemma InsertedDispatchesNothing(tasks: map<Id, Task>, id: Id, t: Task)
    requires SameDispatches(tasks, tasks) && id !in tasks
    requires forall i :: 0 <= i < |t.steps| ==> t.steps[i].attempts == 0
    ensures SameDispatches(tasks, tasks[id := t])
  {
    hide SameAttempts;
  }

  lemma TasksMoveTransitive(a: Db, b: Db, c: Db)
    requires TasksGood(a) && TasksMove(a, b) && TasksMove(b, c)
    ensures TasksMove(a, c)
  {
    forall t | t in a.tasks ensures TaskEvolves(a.tasks[t], c.tasks[t]) {
      TaskEvolvesTransitive(a.tasks[t], b.tasks[t], c.tasks[t]);
    }
  }

  /** A change made step by step keeps the task when each step moves quietly. */
  lemma MapStepsKeeps(t: Task, f: Step -> Step)
    requires TaskOk(t)
    requires forall i :: 0 <= i < |t.steps| ==> QuietMove(t.steps[i], f(t.steps[i]))
    ensures TaskOk(MapSteps(t, f)) && TaskEvolves(t, MapSteps(t, f))
    ensures SameAttempts(t, MapSteps(t, f))
  {
    QuietMovesKeep(t, seq(|t.steps|, i requires 0 <= i < |t.steps| => f(t.steps[i])));
  }

  lemma SetStepKeeps(t: Task, pos: nat, s: Step)
    requires TaskOk(t) && pos < |t.steps| && QuietMove(t.steps[pos], s)
    ensures TaskOk(WithStep(t, pos, s)) && TaskEvolves(t, WithStep(t, pos, s))
    ensures SameAttempts(t, WithStep(t, pos, s))
  {
    forall i | 0 <= i < |t.steps| ensures QuietMove(t.steps[i], t.steps[pos := s][i]) {
      assert StepOk(t.steps[i]);
    }
    QuietMovesKeep(t, t.steps[pos := s]);
  }

  lemma ExpireTaskKeeps(t: Task, now: Time)
    requires TaskOk(t)
    ensures TaskOk(ExpireTask(t, now)) && TaskEvolves(t, ExpireTask(t, now))
    ensures SameAttempts(t, ExpireTask(t, now))
    ensures NoneRunning(t) ==> NoneRunning(ExpireTask(t, now))
  {
    forall i | 0 <= i < |t.steps| ensures StepOk(t.steps[i]) {}
    MapStepsKeeps(t, s => ExpireStep(s, now));
  }

  lemma FreezeTaskKeeps(t: Task)
    requires TaskOk(t)
    ensures TaskOk(FreezeTask(t)) && TaskEvolves(t, FreezeTask(t)) && NoneRunning(FreezeTask(t))
    ensures SameAttempts(t, FreezeTask(t))
  {
    forall i | 0 <= i < |t.steps| ensures StepOk(t.steps[i]) {}
    MapStepsKeeps(t, s => FreezeStep(s));
  }

  lemma CancelTaskKeeps(t: Task)
    requires TaskOk(t)
    ensures TaskOk(CancelTask(t)) && TaskEvolves(t, CancelTask(t)) && NoneRunning(CancelTask(t))
    ensures SameAttempts(t, CancelTask(t))
  {
    forall i | 0 <= i < |t.steps| ensures QuietMove(t.steps[i], CancelStep(t.steps[i])) {
      assert StepOk(t.steps[i]);
    }
    MapStepsKeeps(t, s => CancelStep(s));
  }

  lemma UnbindDeviceKeeps(t: Task, device: string, actor: string)
    requires TaskOk(t)
    ensures TaskOk(UnbindDevice(t, device, actor)) && TaskEvolves(t, UnbindDevice(t, device, actor))
    ensures SameAttempts(t, UnbindDevice(t, device, actor))
    ensures NoneRunning(t) ==> NoneRunning(UnbindDevice(t, device, actor))
  {
    forall i | 0 <= i < |t.steps| ensures QuietMove(t.steps[i], UnbindStep(t.steps[i], device, actor)) {
      assert StepOk(t.steps[i]);
    }
    MapStepsKeeps(t, s => UnbindStep(s, device, actor));
    forall i | NoneRunning(t) && 0 <= i < |t.steps|
      ensures UnbindDevice(t, device, actor).steps[i].status != Running
    {
      assert t.steps[i].status != Running;
    }
  }

  lemma StopTaskKeeps(t: Task, reason: string, actor: string)
    requires TaskOk(t)
    ensures TaskOk(StopTask(t, reason, actor)) && TaskEvolves(t, StopTask(t, reason, actor))
    ensures SameAttempts(t, StopTask(t, reason, actor))
    ensures NoneRunning(t) ==> NoneRunning(StopTask(t, reason, actor))
  {
    forall i | 0 <= i < |t.steps| ensures QuietMove(t.steps[i], StopStep(t.steps[i], Open(t.status), reason, actor)) {
      assert StepOk(t.steps[i]);
    }
    MapStepsKeeps(t, s => StopStep(s, Open(t.status), reason, actor));
    forall i | NoneRunning(t) && 0 <= i < |t.steps|
      ensures StopTask(t, reason, actor).steps[i].status != Running
    {
      assert t.steps[i].status != Running;
    }
  }

  // ------------------------------------------------------------------ submission

  lemma FreshTaskOk(t: Task, fps: seq<Fingerprint>, approver: string, now: Time)
    requires 1 <= |t.plan| == |fps|
    requires t.steps == FreshSteps(fps, approver, now) && t.status == Refresh(t.steps)
    requires forall k :: 0 <= k < |fps| ==> fps[k].call == t.plan[k]
    ensures TaskOk(t) && NoneRunning(t) && forall i :: 0 <= i < |t.steps| ==> t.steps[i].attempts == 0
  {
  }

  lemma CreateTaskKeeps(
    db: Db, env: Env, channel: string, key: Key, agent: string, plan: seq<Call>, actor: string,
    fps: seq<Fingerprint>, approver: string, now: Time)
    requires TasksGood(db)
    requires 1 <= |plan| == |fps| && forall k :: 0 <= k < |fps| ==> fps[k].call == plan[k]
    requires var steps := FreshSteps(fps, approver, now);
             var t := Task(channel, key, agent, plan, actor, Refresh(steps), now, steps);
             forall i :: 0 <= i < |steps| ==> DestinationBound(db.events, t, steps[i])
    ensures var tx := CreateTask(db, env, channel, key, agent, plan, actor, fps, approver, now);
            TasksMove(db, tx.db) && SameDispatches(db.tasks, tx.db.tasks)
  {
    hide TasksMove, TasksGood, SameDispatches, DestinationBound, TaskOk, PendingTasks;
    StayPut(db);
    var steps := FreshSteps(fps, approver, now);
    var t := Task(channel, key, agent, plan, actor, Refresh(steps), now, steps);
    FreshTaskOk(t, fps, approver, now);
    if !KeyTaken(db, channel, key) {
      InsertMoves(db, t);
    }
  }

  lemma SubmitKeeps(
    db: Db, env: Env, channel: string, key: Key, agent: string, plan: seq<Call>, actor: string, now: Time)
    requires TasksGood(db)
    ensures TasksMove(db, Submit(db, env, channel, key, agent, plan, actor, now).db)
    ensures SameDispatches(db.tasks, Submit(db, env, channel, key, agent, plan, actor, now).db.tasks)
  {
    hide TasksMove, TasksGood, SameDispatches, CreateTask;
    StayPut(db);
    var origin := OriginOf(db.events, channel, key);
    var v := Validate(env, agent, plan, origin);
    if v.Ok? && channel != OPERATOR_CHANNEL
       && forall k :: 0 <= k < |plan| ==> DestinationAllowed(env.policies[agent].rules, channel, origin, plan[k])
    {
      CreateTaskKeeps(db, env, channel, key, agent, plan, actor, v.value, "", now);
    }
  }

  lemma ReplyAsOperatorKeeps(
    db: Db, env: Env, channel: string, conversation: string, text: string,
    actor: string, role: string, key: string, agent: string, now: Time)
    requires TasksGood(db)
    ensures TasksMove(db, ReplyAsOperator(db, env, channel, conversation, text, actor, role, key, agent, now).db)
    ensures SameDispatches(
              db.tasks, ReplyAsOperator(db, env, channel, conversation, text, actor, role, key, agent, now).db.tasks)
  {
    hide TasksMove, TasksGood, SameDispatches, CreateTask;
    StayPut(db);
    if channel in OUTBOUND_CHANNELS && agent in env.policies {
      var call := ReplyCall(channel, conversation, text);
      var origin := OperatorOriginOf(db.events, call);
      if origin.Ok? {
        var v := Validate(env, agent, [call], origin.value);
        if v.Ok? {
          var approver := if env.policies[agent].rules.independentApproval then "" else actor;
          CreateTaskKeeps(db, env, OPERATOR_CHANNEL, OperatorReply(key), agent, [call], actor, v.value, approver, now);
        }
      }
    }
  }

  /** The task a key was submitted for. */
  predicate IsTaskOf(db: Db, t: Id, channel: string, key: Key, agent: string, plan: seq<Call>) {
    && t in db.tasks && db.tasks[t].channel == channel && db.tasks[t].key == key
    && db.tasks[t].agent == agent && db.tasks[t].plan == plan
  }

  lemma SubmittedTask(
    db: Db, env: Env, channel: string, key: Key, agent: string, plan: seq<Call>, actor: string, now: Time)
    ensures var tx := Submit(db, env, channel, key, agent, plan, actor, now);
            tx.out.Ok? ==> IsTaskOf(tx.db, tx.out.value, channel, key, agent, plan)
  {
    hide Validate, PendingTasks, Identity, DestinationAllowed;
  }

  /** A submission adds its task, if it is new, and nothing else; a refused one adds nothing. */
  lemma SubmitAddsOneTask(
    db: Db, env: Env, channel: string, key: Key, agent: string, plan: seq<Call>, actor: string, now: Time)
    ensures var tx := Submit(db, env, channel, key, agent, plan, actor, now);
            && (tx.out.Err? ==> tx.db == db)
            && (tx.out.Ok? ==> tx.db.tasks.Keys == db.tasks.Keys + {tx.out.value})
  {
    hide Validate, PendingTasks, Identity, DestinationAllowed, OriginOf;
  }

  /** The gates a submission passes before its idempotency key is looked at. */
  predicate PassesGates(
    db: Db, env: Env, channel: string, key: Key, agent: string, plan: seq<Call>, actor: string)
  {
    var origin := OriginOf(db.events, channel, key);
    && env.authority(channel, actor, MEMBERS)
    && Validate(env, agent, plan, origin).Ok?
    && forall k :: 0 <= k < |plan| ==>
         DestinationAllowed(env.policies[agent].rules, channel, origin, plan[k])
  }

  /** Submitting the same plan under the same key again, in any later store, changes
      nothing; it returns the same task if and only if the plan still passes the gates,
      which are looked at before the key. */
  lemma ResubmitReturnsSameTask(
    db: Db, env: Env, t: Id, channel: string, key: Key, agent: string, plan: seq<Call>,
    actor: string, now: Time)
    requires TasksGood(db) && IsTaskOf(db, t, channel, key, agent, plan)
    requires channel != OPERATOR_CHANNEL && Identity(channel) && Identity(agent) && Identity(actor)
    requires key.External? ==> Identity(key.text)
    ensures var tx := Submit(db, env, channel, key, agent, plan, actor, now);
            && tx.db == db
            && (PassesGates(db, env, channel, key, agent, plan, actor) ==> tx.out == Ok(t))
            && (!PassesGates(db, env, channel, key, agent, plan, actor) ==> tx.out.Err?)
  {
    assert KeyTaken(db, channel, key);
    assert SameKey(db.tasks[t], db.tasks[TaskByKey(db, channel, key)]);
  }

  // --------------------------------------------------------------------- approval

  lemma ApproveKeeps(
    db: Db, env: Env, tid: Id, pos: nat, actor: string, approved: bool, role: string, now: Time)
    requires TasksGood(db)
    ensures TasksMove(db, Approve(db, env, tid, pos, actor, approved, role, now).db)
    ensures SameDispatches(db.tasks, Approve(db, env, tid, pos, actor, approved, role, now).db.tasks)
  {
    hide TasksMove, SameDispatches, DestinationBound, TaskEvolves;
    StayPut(db);
    var tx := Approve(db, env, tid, pos, actor, approved, role, now);
    if tx.out.Ok? {
      var s := db.tasks[tid].steps[pos];
      assert StepOk(s);
      var s' := tx.db.tasks[tid].steps[pos];
      SetStepKeeps(db.tasks[tid], pos, s');
      UpdateMoves(db, tid, tx.db.tasks[tid], db.next);
    }
  }

  // ------------------------------------------------------------------------ claim

  lemma ExpireKeeps(db: Db, now: Time)
    requires TasksGood(db)
    ensures TasksMove(db, Expire(db, now)) && SameDispatches(db.tasks, Expire(db, now).tasks)
  {
    hide TaskOk, TaskEvolves, SameAttempts, NoneRunning, ExpireTask, DestinationBound, SameKey;
    forall t | t in db.tasks
      ensures TaskOk(ExpireTask(db.tasks[t], now)) && TaskEvolves(db.tasks[t], ExpireTask(db.tasks[t], now))
      ensures SameAttempts(db.tasks[t], ExpireTask(db.tasks[t], now))
      ensures NoneRunning(db.tasks[t]) ==> NoneRunning(ExpireTask(db.tasks[t], now))
    {
      ExpireTaskKeeps(db.tasks[t], now);
    }
    MapMoves(db, Expire(db, now));
  }

  /** Where an outbound step may write, judged by the policy and the store of the moment. */
  ghost predicate DestinationNow(db: Db, env: Env, t: Task, s: Step) {
    Outbound(s.call.tool) ==>
      if t.channel == OPERATOR_CHANNEL then
        && Recipient(s.call).Some?
        && KnownConversation(db.events, ChannelOf(s.call.tool), Recipient(s.call).value)
      else if t.channel in OUTBOUND_CHANNELS then
        && AnswersEvent(db.events, t) && s.call.tool == SendTool(t.channel)
        && Recipient(s.call) == db.events[(t.channel, t.key.text)].payload.conversation
      else t.agent in env.policies && Allowlisted(env.policies[t.agent].rules, Recipient(s.call))
  }

  /** The step passes the whole validation again, under the policy, the registry, the schemas
      and the bindings of the moment, and to the same fingerprint it was submitted with: the
      same call, risk, approval need, rules and binding. */
  ghost predicate RevalidatedNow(db: Db, env: Env, t: Task, s: Step) {
    && t.agent in env.policies
    && TaskOrigin(db.events, t, s.call).Ok?
    && Validate(env, t.agent, [s.call], TaskOrigin(db.events, t, s.call).value) == Ok([s.fp])
  }

  /** The gates of a step and its need of an approval, as they stand now. */
  ghost predicate GatesNow(env: Env, t: Task, s: Step, origin: Origin) {
    && t.agent in env.policies
    && var rules := env.policies[t.agent].rules;
    && s.call.tool in rules.tools && s.call.tool in env.registry
    && env.schema(s.call.tool, s.call.args)
    && (s.call.tool in CONNECTION_TOOLS ==>
          "connection" in s.call.args && s.call.args["connection"] in rules.allowedConnections)
    && (s.needed <==> NeedsApproval(rules, s.call, env.registry[s.call.tool].risk, origin))
  }

  /** Revalidation means every gate, and that the approval need recomputed now is the step's. */
  lemma RevalidationMeans(db: Db, env: Env, t: Task, s: Step)
    requires RevalidatedNow(db, env, t, s) && StepOk(s)
    ensures GatesNow(env, t, s, TaskOrigin(db.events, t, s.call).value)
  {
    hide StepOk, NeedsApproval, TaskOrigin;
    var origin := TaskOrigin(db.events, t, s.call).value;
    assert s.fp.approval == s.needed by { NeedIsFingerprinted(s); }
    assert ValidateCall(env, t.agent, env.policies[t.agent].rules, origin, [s.call][0]) == Ok(s.fp);
  }

  lemma NeedIsFingerprinted(s: Step)
    requires StepOk(s)
    ensures s.fp.approval == s.needed && s.fp.call == s.call
  {
  }

  /** Everything that authorised a step at submission still holds when it is dispatched. */
  ghost predicate AuthorizedNow(db: Db, env: Env, tid: Id, pos: nat, now: Time)
    requires tid in db.tasks && pos < |db.tasks[tid].steps|
  {
    var t := db.tasks[tid];
    var s := t.steps[pos];
    && t.agent in env.policies
    // The policy, minus its descriptive part, is the one fingerprinted at submission.
    && s.fp.rules == env.policies[t.agent].rules
    && s.call.tool in env.registry && s.fp.risk == env.registry[s.call.tool].risk
    && env.binding(t.agent, s.call.tool, s.call.args) == Ok(s.fp.binding)
    && env.authority(t.channel, t.actor, MEMBERS)
    && ParentAllows(db.runs, tid, now)
    && RevalidatedNow(db, env, t, s)
    && DestinationNow(db, env, t, s)
    && (Unattendable(s.fp.risk) || s.fp.rules.ladder == HumanLed || t.channel == OPERATOR_CHANNEL ==> s.needed)
    && (s.needed ==>
          && s.approval.Some? && s.approval.value.fp == s.fp && s.approval.value.status.Approved?
          && s.approval.value.expires > now
          && env.authority("approval", s.approval.value.actor, ApproverRoles(env.policies[t.agent].rules)))
  }

  /** What a dispatching verdict has checked. */
  lemma DispatchIsChecked(db: Db, env: Env, tid: Id, now: Time)
    requires tid in db.tasks && Head(db.tasks[tid].steps) < |db.tasks[tid].steps|
    requires Judge(db, env, tid, now).Dispatch?
    ensures var t := db.tasks[tid];
            var s := t.steps[Head(t.steps)];
            && env.authority(t.channel, t.actor, MEMBERS) && ParentAllows(db.runs, tid, now)
            && RevalidatedNow(db, env, t, s)
            && (s.needed ==>
                  && s.approval.Some? && s.approval.value.fp == s.fp && s.approval.value.status.Approved?
                  && s.approval.value.expires > now
                  && env.authority("approval", s.approval.value.actor, ApproverRoles(env.policies[t.agent].rules)))
  {
    hide Validate, TaskOrigin, ParentAllows, Head;
    var t := db.tasks[tid];
    var s := t.steps[Head(t.steps)];
    var origin := TaskOrigin(db.events, t, s.call);
    assert origin.Ok?;
    OneFingerprint(env, t.agent, s.call, origin.value);
  }

  lemma OneFingerprint(env: Env, agent: string, call: Call, origin: Origin)
    ensures var v := Validate(env, agent, [call], origin);
            v.Ok? ==> agent in env.policies && |v.value| == 1 && v.value == [v.value[0]]
  {
  }

  /** What the fingerprint fixes. */
  lemma RevalidationFixes(db: Db, env: Env, t: Task, s: Step)
    requires RevalidatedNow(db, env, t, s)
    ensures s.fp.rules == env.policies[t.agent].rules
    ensures s.call.tool in env.registry && s.fp.risk == env.registry[s.call.tool].risk
    ensures env.binding(t.agent, s.call.tool, s.call.args) == Ok(s.fp.binding)
    ensures t.channel == OPERATOR_CHANNEL ==> s.fp.approval
    ensures Unattendable(s.fp.risk) || s.fp.rules.ladder == HumanLed ==> s.fp.approval
  {
    hide OriginOf, KnownConversation;
    var origin := TaskOrigin(db.events, t, s.call).value;
    assert ValidateCall(env, t.agent, env.policies[t.agent].rules, origin, [s.call][0]) == Ok(s.fp);
  }

  lemma DispatchIsAuthorized(db: Db, env: Env, tid: Id, device: string, now: Time)
    requires TasksGood(db) && tid in db.tasks && Candidate(db.tasks[tid], device)
    requires Judge(db, env, tid, now).Dispatch?
    ensures AuthorizedNow(db, env, tid, Head(db.tasks[tid].steps), now)
  {
    hide Judge, RevalidatedNow, TasksGood, ParentAllows, Candidate, StepOk, TaskOk, Head, DestinationNow;
    CandidateHasHead(db.tasks[tid], device);
    DispatchIsChecked(db, env, tid, now);
    var t := db.tasks[tid];
    var s := t.steps[Head(t.steps)];
    StepIsGood(db, tid, Head(t.steps));
    NeedIsFingerprinted(s);
    assert t.agent in env.policies by { AgentIsKnown(db, env, t, s); }
    RevalidationFixes(db, env, t, s);
    DestinationHoldsNow(db, env, t, s);
  }

  lemma AgentIsKnown(db: Db, env: Env, t: Task, s: Step)
    requires RevalidatedNow(db, env, t, s)
    ensures t.agent in env.policies
  {
  }

  lemma CandidateHasHead(t: Task, device: string)
    requires Candidate(t, device)
    ensures Head(t.steps) < |t.steps|
  {
  }

  lemma StepIsGood(db: Db, tid: Id, pos: nat)
    requires TasksGood(db) && tid in db.tasks && pos < |db.tasks[tid].steps|
    ensures StepOk(db.tasks[tid].steps[pos])
    ensures DestinationBound(db.events, db.tasks[tid], db.tasks[tid].steps[pos])
  {
    hide StepOk, DestinationBound, Ordered, Refresh;
    assert TaskOk(db.tasks[tid]);
  }

  /** A destination bound at submission is allowed by the rules in force, which are the same. */
  lemma DestinationHoldsNow(db: Db, env: Env, t: Task, s: Step)
    requires DestinationBound(db.events, t, s)
    requires t.agent in env.policies && s.fp.rules == env.policies[t.agent].rules
    ensures DestinationNow(db, env, t, s)
  {
  }

  /** Every verdict is a legal move of a waiting step. */
  lemma SettleKeeps(s: Step, v: Verdict, token: Id, worker: string, lease: Time)
    requires StepOk(s) && Waiting(s.status) && token != NO_ID
    requires v.Dispatch? && s.needed ==> s.approval.value.status.Approved?
    ensures StepOk(Settle(s, v, token, worker, lease)) && StepEvolves(s, Settle(s, v, token, worker, lease))
  {
  }

  lemma AttemptKeeps(db: Db, env: Env, tid: Id, device: string, worker: string, now: Time, lease: Time)
    requires TasksGood(db) && !db.frozen && tid in db.tasks && Candidate(db.tasks[tid], device)
    ensures TasksMove(db, Attempt(db, env, tid, worker, now, lease))
  {
    var t := db.tasks[tid];
    var h := Head(t.steps);
    var v := Judge(db, env, tid, now);
    var s' := Settle(t.steps[h], v, db.next, worker, lease);
    assert TaskOk(t);
    assert StepOk(t.steps[h]);
    if v.Dispatch? {
      DispatchIsAuthorized(db, env, tid, device, now);
    }
    SettleKeeps(t.steps[h], v, db.next, worker, lease);
    HeadMoveKeeps(t, h, s');
    UpdateMoves(db, tid, WithStep(t, h, s'), if v.Dispatch? then db.next + 1 else db.next);
  }

  /** Trying one candidate leaves the remaining ones candidates. */
  lemma RestStayCandidates(db: Db, env: Env, device: string, worker: string, now: Time, lease: Time, order: seq<Id>)
    requires Candidates(db, device, order) && order != []
    ensures Candidates(Attempt(db, env, order[0], worker, now, lease), device, order[1..])
  {
  }

  lemma {:induction false} TryInOrderKeeps(
    db: Db, env: Env, device: string, worker: string, now: Time, lease: Time, order: seq<Id>)
    requires TasksGood(db) && !db.frozen && Candidates(db, device, order)
    ensures TasksMove(db, TryInOrder(db, env, device, worker, now, lease, order).0)
    decreases |order|
  {
    if order == [] {
      StayPut(db);
    } else {
      var db' := Attempt(db, env, order[0], worker, now, lease);
      assert Candidate(db.tasks[order[0]], device);
      AttemptKeeps(db, env, order[0], device, worker, now, lease);
      RestStayCandidates(db, env, device, worker, now, lease, order);
      if !Judge(db, env, order[0], now).Dispatch? {
        TryInOrderKeeps(db', env, device, worker, now, lease, order[1..]);
        TasksMoveTransitive(db, db', TryInOrder(db', env, device, worker, now, lease, order[1..]).0);
      }
    }
  }

  /** Trying candidates after another good change is one good change. */
  lemma ThenTryInOrderKeeps(
    db: Db, mid: Db, env: Env, device: string, worker: string, now: Time, lease: Time, order: seq<Id>)
    requires TasksGood(db) && TasksMove(db, mid) && !mid.frozen && Candidates(mid, device, order)
    ensures TasksMove(db, TryInOrder(mid, env, device, worker, now, lease, order).0)
  {
    TryInOrderKeeps(mid, env, device, worker, now, lease, order);
    TasksMoveTransitive(db, mid, TryInOrder(mid, env, device, worker, now, lease, order).0);
  }

  lemma ClaimKeeps(
    db: Db, env: Env, worker: string, device: string, now: Time, leaseSeconds: int, order: seq<Id>)
    requires TasksGood(db)
    requires ClaimGate(db, env, worker, device, now, leaseSeconds).None? ==>
               ClaimOrder(Expire(db, now), device, order)
    ensures TasksMove(db, Claim(db, env, worker, device, now, leaseSeconds, order).db)
  {
    hide TasksMove, TasksGood, TryInOrder, Candidates, ExpireTask;
    var gate := ClaimGate(db, env, worker, device, now, leaseSeconds);
    if gate.Some? {
      StayPut(db);
      ExpireKeeps(db, now);
    } else {
      ExpireKeeps(db, now);
      ThenTryInOrderKeeps(db, Expire(db, now), env, device, worker, now, now + leaseSeconds as real, order);
    }
  }

  // ------------------------------------------------------------ what claim hands out

  /** The conversation the step answers, or a thing its binding names, is not there now. */
  ghost predicate TargetLost(db: Db, env: Env, t: Task, s: Step) {
    var origin := TaskOrigin(db.events, t, s.call);
    origin == Err(NotFound) || (origin.Ok? && Validate(env, t.agent, [s.call], origin.value) == Err(NotFound))
  }

  /** An approval of exactly this step that has not run out. */
  predicate OwnApproval(s: Step, now: Time) {
    s.approval.Some? && s.approval.value.fp == s.fp && s.approval.value.expires > now
  }

  /** Everything but a human's decision speaks for the step. */
  ghost predicate SoundNow(db: Db, env: Env, tid: Id, s: Step, now: Time)
    requires tid in db.tasks
  {
    && ParentAllows(db.runs, tid, now)
    && env.authority(db.tasks[tid].channel, db.tasks[tid].actor, MEMBERS)
    && RevalidatedNow(db, env, db.tasks[tid], s)
  }

  /** Why a candidate is failed, in the order in which the reasons are looked for. */
  ghost predicate FailsFor(db: Db, env: Env, tid: Id, s: Step, now: Time, reason: string)
    requires tid in db.tasks
  {
    var t := db.tasks[tid];
    && ParentAllows(db.runs, tid, now)
    && match reason
       case "authority_revoked" => !env.authority(t.channel, t.actor, MEMBERS)
       case "conversation_unknown" => env.authority(t.channel, t.actor, MEMBERS) && TargetLost(db, env, t, s)
       case "policy_changed" =>
         env.authority(t.channel, t.actor, MEMBERS) && !TargetLost(db, env, t, s) && !RevalidatedNow(db, env, t, s)
       case "approval_expired_or_invalid" => SoundNow(db, env, tid, s, now) && s.needed && !OwnApproval(s, now)
       case "approver_revoked" =>
         && SoundNow(db, env, tid, s, now) && s.needed && OwnApproval(s, now) && s.approval.value.status.Approved?
         && !env.authority("approval", s.approval.value.actor, ApproverRoles(s.fp.rules))
       case _ => false
  }

  /** What trying a candidate makes of its head: it runs if and only if it is authorised now;
      it waits, its approval untouched, if and only if only a human's yes is missing; it is
      cancelled and its approval withdrawn if and only if its agent run does not wait for it;
      and otherwise it fails, for its reason. */
  ghost predicate HeadBecomes(
    db: Db, env: Env, tid: Id, pos: nat, now: Time, token: Id, worker: string, lease: Time, s': Step)
    requires tid in db.tasks && pos < |db.tasks[tid].steps|
  {
    var s := db.tasks[tid].steps[pos];
    && (s'.status.Running? <==> AuthorizedNow(db, env, tid, pos, now))
    && (s'.status.Running? ==>
          s' == s.(status := Running, claim := token, worker := worker, lease := lease, attempts := s.attempts + 1,
                   approval := if s.needed then Some(s.approval.value.(status := Consumed)) else s.approval))
    && (s'.status.WaitingApproval? <==>
          SoundNow(db, env, tid, s, now) && s.needed && OwnApproval(s, now) && !s.approval.value.status.Approved?)
    && (s'.status.WaitingApproval? ==> s' == s.(status := WaitingApproval))
    && (s'.status.Cancelled? <==> !ParentAllows(db.runs, tid, now))
    && (s'.status.Cancelled? ==>
          && s' == s.(status := Cancelled, claim := NO_ID, lease := 0.0, error := "agent_run_inactive",
                      approval := s'.approval)
          && Withdrawn(s.approval, s'.approval, "agent-loop"))
    && (s'.status.Failed? ==> s' == s.(status := Failed, error := s'.error))
    && (forall reason: string :: s'.status.Failed? && s'.error == reason <==> FailsFor(db, env, tid, s, now, reason))
    && (s'.status.Running? || s'.status.WaitingApproval? || s'.status.Cancelled? || s'.status.Failed?)
  }

  /** An approval nobody has used is rejected; any other is left as it is. */
  predicate Withdrawn(a: Option<Approval>, a': Option<Approval>, actor: string) {
    && (a.None? <==> a'.None?)
    && (a.Some? && (a.value.status.Pending? || a.value.status.Approved?) ==>
          a' == Some(a.value.(status := Rejected, actor := actor)))
    && (a.Some? && !a.value.status.Pending? && !a.value.status.Approved? ==> a' == a)
  }

  /** Trying a candidate changes its head alone. */
  ghost predicate Tried(
    db: Db, env: Env, tid: Id, now: Time, token: Id, worker: string, lease: Time, t': Task)
    requires tid in db.tasks && Head(db.tasks[tid].steps) < |db.tasks[tid].steps|
  {
    var t, h := db.tasks[tid], Head(db.tasks[tid].steps);
    && |t'.steps| == |t.steps| && t' == WithStep(t, h, t'.steps[h])
    && HeadBecomes(db, env, tid, h, now, token, worker, lease, t'.steps[h])
  }

  /** The verdict by its causes. */
  lemma VerdictMeans(db: Db, env: Env, tid: Id, device: string, now: Time)
    requires TasksGood(db) && tid in db.tasks && Candidate(db.tasks[tid], device)
    ensures var t, v := db.tasks[tid], Judge(db, env, tid, now);
            var s := t.steps[Head(t.steps)];
            && (v.Drop? <==> !ParentAllows(db.runs, tid, now))
            && (v.Dispatch? <==> AuthorizedNow(db, env, tid, Head(t.steps), now))
            && (v.Wait? <==>
                  && SoundNow(db, env, tid, s, now) && s.needed && OwnApproval(s, now)
                  && !s.approval.value.status.Approved?)
            && (forall reason: string :: v == Refuse(reason) <==> FailsFor(db, env, tid, s, now, reason))
  {
    hide Validate, TaskOrigin, ParentAllows, Head, TasksGood, Candidate, AuthorizedNow;
    CandidateHasHead(db.tasks[tid], device);
    var t := db.tasks[tid];
    var s := t.steps[Head(t.steps)];
    var origin := TaskOrigin(db.events, t, s.call);
    if origin.Ok? {
      OneFingerprint(env, t.agent, s.call, origin.value);
      KnownAgent(env, t.agent, s.call, origin.value);
    }
    if RevalidatedNow(db, env, t, s) {
      RevalidationFixes(db, env, t, s);
    }
    if Judge(db, env, tid, now).Dispatch? {
      DispatchIsAuthorized(db, env, tid, device, now);
    }
    if AuthorizedNow(db, env, tid, Head(t.steps), now) {
      AuthorizedParts(db, env, tid, Head(t.steps), now);
    }
  }

  lemma KnownAgent(env: Env, agent: string, call: Call, origin: Origin)
    ensures Validate(env, agent, [call], origin).Ok? ==> agent in env.policies
  {
  }

  lemma AuthorizedParts(db: Db, env: Env, tid: Id, pos: nat, now: Time)
    requires tid in db.tasks && pos < |db.tasks[tid].steps| && AuthorizedNow(db, env, tid, pos, now)
    ensures var s := db.tasks[tid].steps[pos];
            && SoundNow(db, env, tid, s, now)
            && (s.needed ==>
                  && OwnApproval(s, now) && s.approval.value.status.Approved?
                  && env.authority("approval", s.approval.value.actor, ApproverRoles(s.fp.rules)))
  {
    hide ParentAllows, RevalidatedNow, DestinationNow;
  }

  /** Exactly one step was handed out: the head of its task, waiting until then, running
      now under the token the worker received, its approval used up. */
  ghost predicate Dispatched(tasks: map<Id, Task>, tasks': map<Id, Task>, c: Claimed) {
    && c.task in tasks && c.pos < |tasks[c.task].steps|
    && tasks.Keys == tasks'.Keys && |tasks'[c.task].steps| == |tasks[c.task].steps|
    && var s, s' := tasks[c.task].steps[c.pos], tasks'[c.task].steps[c.pos];
    && Waiting(s.status) && s.attempts == 0
    && (forall j :: 0 <= j < c.pos ==> tasks[c.task].steps[j].status == Succeeded)
    && s'.status == Running && s'.claim == c.token && s'.attempts == 1
    && (s.needed ==> s'.approval.Some? && s'.approval.value.status.Consumed?)
    && (forall i :: 0 <= i < |tasks[c.task].steps| && i != c.pos ==>
          tasks'[c.task].steps[i] == tasks[c.task].steps[i])
    && (forall t :: t in tasks && t != c.task ==> SameAttempts(tasks[t], tasks'[t]))
  }

  /** The verdict depends only on the candidate's own task and on tables claim leaves alone. */
  lemma JudgeFrame(db: Db, db': Db, env: Env, tid: Id, now: Time)
    requires tid in db.tasks && tid in db'.tasks && db'.tasks[tid] == db.tasks[tid]
    requires db'.runs == db.runs && db'.events == db.events
    requires Head(db.tasks[tid].steps) < |db.tasks[tid].steps|
    ensures Judge(db', env, tid, now) == Judge(db, env, tid, now)
    ensures AuthorizedNow(db', env, tid, Head(db.tasks[tid].steps), now)
        <==> AuthorizedNow(db, env, tid, Head(db.tasks[tid].steps), now)
  {
    hide Validate, TaskOrigin, NeedsApproval;
  }

  /** What a candidate becomes depends on its own task and on tables claim leaves alone. */
  lemma TriedFrame(
    db: Db, db': Db, env: Env, tid: Id, now: Time, token: Id, worker: string, lease: Time, t': Task)
    requires tid in db.tasks && tid in db'.tasks && db'.tasks[tid] == db.tasks[tid]
    requires db'.runs == db.runs && db'.events == db.events
    requires Head(db.tasks[tid].steps) < |db.tasks[tid].steps|
    requires Tried(db', env, tid, now, token, worker, lease, t')
    ensures Tried(db, env, tid, now, token, worker, lease, t')
  {
    hide Validate, TaskOrigin, Withdrawn, OwnApproval, WithStep, AuthorizedNow;
    JudgeFrame(db, db', env, tid, now);
    var s, s' := db.tasks[tid].steps[Head(db.tasks[tid].steps)], t'.steps[Head(db.tasks[tid].steps)];
    forall reason: string ensures FailsFor(db, env, tid, s, now, reason) <==> FailsFor(db', env, tid, s, now, reason) {
    }
  }

  lemma AttemptTries(db: Db, env: Env, tid: Id, device: string, worker: string, now: Time, lease: Time)
    requires TasksGood(db) && tid in db.tasks && Candidate(db.tasks[tid], device)
    ensures var db' := Attempt(db, env, tid, worker, now, lease);
            && db'.tasks == db.tasks[tid := db'.tasks[tid]]
            && Tried(db, env, tid, now, db.next, worker, lease, db'.tasks[tid])
  {
    hide TasksGood, Judge, AuthorizedNow, FailsFor, SoundNow, ParentAllows, Candidate, Refresh, Head, StepOk, TaskOk;
    CandidateHasHead(db.tasks[tid], device);
    VerdictMeans(db, env, tid, device, now);
    var h := Head(db.tasks[tid].steps);
    StepIsGood(db, tid, h);
    HeadSettles(db, env, tid, h, now, worker, lease, Judge(db, env, tid, now));
    DispatchHasApproval(db.tasks[tid].steps[h]);
  }

  lemma DispatchHasApproval(s: Step)
    requires StepOk(s)
    ensures s.needed <==> s.approval.Some?
  {
  }

  lemma HeadSettles(
    db: Db, env: Env, tid: Id, h: nat, now: Time, worker: string, lease: Time, v: Verdict)
    requires tid in db.tasks && h < |db.tasks[tid].steps| && StepOk(db.tasks[tid].steps[h])
    requires v.Drop? <==> !ParentAllows(db.runs, tid, now)
    requires v.Dispatch? <==> AuthorizedNow(db, env, tid, h, now)
    requires var s := db.tasks[tid].steps[h];
             v.Wait? <==>
               SoundNow(db, env, tid, s, now) && s.needed && OwnApproval(s, now) && !s.approval.value.status.Approved?
    requires forall reason: string ::
               v == Refuse(reason) <==> FailsFor(db, env, tid, db.tasks[tid].steps[h], now, reason)
    ensures HeadBecomes(db, env, tid, h, now, db.next, worker, lease,
                        Settle(db.tasks[tid].steps[h], v, db.next, worker, lease))
  {
    hide AuthorizedNow, FailsFor, SoundNow, ParentAllows, OwnApproval;
    var s := db.tasks[tid].steps[h];
    var s' := Settle(s, v, db.next, worker, lease);
    forall reason: string
      ensures s'.status.Failed? && s'.error == reason <==> FailsFor(db, env, tid, s, now, reason)
    {
      assert v == Refuse(reason) <==> FailsFor(db, env, tid, s, now, reason);
    }
  }

  lemma AttemptDispatches(db: Db, env: Env, tid: Id, device: string, worker: string, now: Time, lease: Time)
    requires TasksGood(db) && tid in db.tasks && Candidate(db.tasks[tid], device)
    ensures var db' := Attempt(db, env, tid, worker, now, lease);
            if Judge(db, env, tid, now).Dispatch?
            then Dispatched(db.tasks, db'.tasks, Claimed(tid, Head(db.tasks[tid].steps), db.next))
              && AuthorizedNow(db, env, tid, Head(db.tasks[tid].steps), now)
            else SameDispatches(db.tasks, db'.tasks) && db'.next == db.next
  {
    hide TasksGood, Judge, AuthorizedNow, Dispatched, SameDispatches;
    TaskIsOk(db, tid);
    var v := Judge(db, env, tid, now);
    if v.Dispatch? {
      DispatchIsAuthorized(db, env, tid, device, now);
      DispatchIsApproved(db, env, tid, now);
    }
    AttemptEffect(db.tasks, tid, device, v, db.next, worker, lease);
  }

  lemma AttemptEffect(
    tasks: map<Id, Task>, tid: Id, device: string, v: Verdict, token: Id, worker: string, lease: Time)
    requires tid in tasks && TaskOk(tasks[tid]) && Candidate(tasks[tid], device)
    requires v.Dispatch? ==>
               var s := tasks[tid].steps[Head(tasks[tid].steps)]; s.needed ==> s.approval.Some?
    ensures var t := tasks[tid];
            var h := Head(t.steps);
            var tasks' := tasks[tid := WithStep(t, h, Settle(t.steps[h], v, token, worker, lease))];
            if v.Dispatch? then Dispatched(tasks, tasks', Claimed(tid, h, token))
            else SameDispatches(tasks, tasks')
  {
    assert StepOk(tasks[tid].steps[Head(tasks[tid].steps)]);
  }

  lemma DispatchIsApproved(db: Db, env: Env, tid: Id, now: Time)
    requires tid in db.tasks && Head(db.tasks[tid].steps) < |db.tasks[tid].steps|
    requires Judge(db, env, tid, now).Dispatch?
    ensures var s := db.tasks[tid].steps[Head(db.tasks[tid].steps)];
            s.needed ==> s.approval.Some?
  {
    hide Validate;
  }

  lemma DispatchesCompose(a: map<Id, Task>, b: map<Id, Task>, c: map<Id, Task>, claimed: Claimed)
    requires SameDispatches(a, b) && a.Keys == b.Keys
    ensures SameDispatches(b, c) && b.Keys == c.Keys ==> SameDispatches(a, c)
    ensures Dispatched(b, c, claimed) && a[claimed.task] == b[claimed.task] ==> Dispatched(a, c, claimed)
  {
  }

  ghost predicate HeadsExist(db: Db, order: seq<Id>) {
    forall k :: 0 <= k < |order| ==>
      order[k] in db.tasks && Head(db.tasks[order[k]].steps) < |db.tasks[order[k]].steps|
  }

  /** The first `n` candidates became what they should, and no other task changed. */
  ghost predicate TriedFirst(
    db: Db, env: Env, now: Time, worker: string, lease: Time, order: seq<Id>, n: nat, tasks': map<Id, Task>)
    requires HeadsExist(db, order) && n <= |order|
  {
    && tasks'.Keys == db.tasks.Keys
    && (forall k :: 0 <= k < n ==> Tried(db, env, order[k], now, db.next, worker, lease, tasks'[order[k]]))
    && (forall t :: t in db.tasks && t !in order[..n] ==> tasks'[t] == db.tasks[t])
  }

  ghost predicate AuthorizedHead(db: Db, env: Env, tid: Id, now: Time)
    requires tid in db.tasks && Head(db.tasks[tid].steps) < |db.tasks[tid].steps|
  {
    AuthorizedNow(db, env, tid, Head(db.tasks[tid].steps), now)
  }

  /** `claim` hands out the first candidate that is authorised now, and nothing else: no
      candidate before it is, every candidate up to it became what it should, and the rest are
      untouched; and if it hands out nothing then no candidate is. */
  ghost predicate ClaimOutcome(
    db: Db, env: Env, now: Time, worker: string, lease: Time, order: seq<Id>, tasks': map<Id, Task>,
    out: Option<Claimed>)
    requires HeadsExist(db, order)
  {
    match out
    case None =>
      && SameDispatches(db.tasks, tasks') && db.tasks.Keys == tasks'.Keys
      && (forall k :: 0 <= k < |order| ==> !AuthorizedHead(db, env, order[k], now))
      && TriedFirst(db, env, now, worker, lease, order, |order|, tasks')
    case Some(c) =>
      && Dispatched(db.tasks, tasks', c) && c.token == db.next
      && AuthorizedNow(db, env, c.task, c.pos, now)
      && exists k :: 0 <= k < |order| && order[k] == c.task && c.pos == Head(db.tasks[c.task].steps)
           && (forall j :: 0 <= j < k ==> !AuthorizedHead(db, env, order[j], now))
           && TriedFirst(db, env, now, worker, lease, order, k + 1, tasks')
  }

  lemma {:induction false} TryInOrderDispatches(
    db: Db, env: Env, device: string, worker: string, now: Time, lease: Time, order: seq<Id>)
    requires TasksGood(db) && !db.frozen && Candidates(db, device, order)
    ensures HeadsExist(db, order)
    ensures var (db', out) := TryInOrder(db, env, device, worker, now, lease, order);
            ClaimOutcome(db, env, now, worker, lease, order, db'.tasks, out)
    decreases |order|
  {
    hide TasksGood, AuthorizedNow, Dispatched, SameDispatches, TasksMove, Judge, Tried, Attempt, Head;
    AllHaveHeads(db, device, order);
    if order == [] {
      StayPut(db);
    } else {
      var tid, rest := order[0], order[1..];
      assert Candidate(db.tasks[tid], device);
      AttemptDispatches(db, env, tid, device, worker, now, lease);
      AttemptTries(db, env, tid, device, worker, now, lease);
      VerdictMeans(db, env, tid, device, now);
      var mid := Attempt(db, env, tid, worker, now, lease);
      if Judge(db, env, tid, now).Dispatch? {
        assert order[0] == tid && order[..1] == [tid];
        assert TriedFirst(db, env, now, worker, lease, order, 0 + 1, mid.tasks);
      } else {
        AttemptKeeps(db, env, tid, device, worker, now, lease);
        MoveIsGood(db, mid);
        RestStayCandidates(db, env, device, worker, now, lease, order);
        AttemptFrame(db, env, tid, worker, now, lease);
        TryInOrderDispatches(mid, env, device, worker, now, lease, rest);
        var (db', out) := TryInOrder(mid, env, device, worker, now, lease, rest);
        OutcomeExtends(db, mid, env, now, worker, lease, order, db'.tasks, out);
      }
    }
  }

  lemma AllHaveHeads(db: Db, device: string, order: seq<Id>)
    requires Candidates(db, device, order)
    ensures HeadsExist(db, order)
  {
    hide Head;
    forall k | 0 <= k < |order| ensures Head(db.tasks[order[k]].steps) < |db.tasks[order[k]].steps| {
      CandidateHasHead(db.tasks[order[k]], device);
    }
  }

  lemma AttemptFrame(db: Db, env: Env, tid: Id, worker: string, now: Time, lease: Time)
    requires tid in db.tasks && Head(db.tasks[tid].steps) < |db.tasks[tid].steps|
    ensures var db' := Attempt(db, env, tid, worker, now, lease);
            db' == db.(tasks := db'.tasks, next := db'.next)
  {
    hide Judge, WithStep, Settle;
  }

  lemma MoveIsGood(db: Db, db': Db)
    requires TasksMove(db, db')
    ensures TasksGood(db')
  {
  }

  /** The first `n` of the rest, tried after the first, are the first `n + 1` of all. */
  lemma TriedExtends(
    db: Db, mid: Db, env: Env, now: Time, worker: string, lease: Time, order: seq<Id>, n: nat, tasks': map<Id, Task>)
    requires order != [] && HeadsExist(db, order) && HeadsExist(mid, order[1..]) && n <= |order[1..]|
    requires forall j, k :: 0 <= j < k < |order| ==> order[j] != order[k]
    requires mid == db.(tasks := mid.tasks) && order[0] in mid.tasks
    requires mid.tasks == db.tasks[order[0] := mid.tasks[order[0]]]
    requires Tried(db, env, order[0], now, db.next, worker, lease, mid.tasks[order[0]])
    requires TriedFirst(mid, env, now, worker, lease, order[1..], n, tasks')
    ensures TriedFirst(db, env, now, worker, lease, order, n + 1, tasks')
  {
    hide Tried, Head;
    assert order[0] !in order[1..][..n];
    forall k | 0 <= k < n + 1
      ensures Tried(db, env, order[k], now, db.next, worker, lease, tasks'[order[k]])
    {
      if k > 0 {
        assert order[1..][k - 1] == order[k];
        TriedFrame(db, mid, env, order[k], now, db.next, worker, lease, tasks'[order[k]]);
      }
    }
    forall t | t in db.tasks && t !in order[..n + 1] ensures tasks'[t] == db.tasks[t] {
      assert order[..n + 1] == [order[0]] + order[1..][..n];
    }
  }

  /** A refused first candidate, then an outcome for the others, is an outcome for all. */
  lemma OutcomeExtends(
    db: Db, mid: Db, env: Env, now: Time, worker: string, lease: Time, order: seq<Id>, tasks': map<Id, Task>,
    out: Option<Claimed>)
    requires order != [] && SameDispatches(db.tasks, mid.tasks)
    requires forall j, k :: 0 <= j < k < |order| ==> order[j] != order[k]
    requires HeadsExist(db, order) && HeadsExist(mid, order[1..])
    requires mid == db.(tasks := mid.tasks) && order[0] in mid.tasks
    requires mid.tasks == db.tasks[order[0] := mid.tasks[order[0]]]
    requires Tried(db, env, order[0], now, db.next, worker, lease, mid.tasks[order[0]])
    requires !AuthorizedHead(db, env, order[0], now)
    requires ClaimOutcome(mid, env, now, worker, lease, order[1..], tasks', out)
    ensures ClaimOutcome(db, env, now, worker, lease, order, tasks', out)
  {
    hide ClaimOutcome, HeadsExist, Tried, SameDispatches;
    match out
    case None => NobodyExtends(db, mid, env, now, worker, lease, order, tasks');
    case Some(c) => SomebodyExtends(db, mid, env, now, worker, lease, order, tasks', c);
  }

  lemma NobodyExtends(
    db: Db, mid: Db, env: Env, now: Time, worker: string, lease: Time, order: seq<Id>, tasks': map<Id, Task>)
    requires order != [] && SameDispatches(db.tasks, mid.tasks)
    requires forall j, k :: 0 <= j < k < |order| ==> order[j] != order[k]
    requires HeadsExist(db, order) && HeadsExist(mid, order[1..])
    requires mid == db.(tasks := mid.tasks) && order[0] in mid.tasks
    requires mid.tasks == db.tasks[order[0] := mid.tasks[order[0]]]
    requires Tried(db, env, order[0], now, db.next, worker, lease, mid.tasks[order[0]])
    requires !AuthorizedHead(db, env, order[0], now)
    requires ClaimOutcome(mid, env, now, worker, lease, order[1..], tasks', None)
    ensures ClaimOutcome(db, env, now, worker, lease, order, tasks', None)
  {
    hide AuthorizedNow, Dispatched, SameDispatches, Judge, Tried, Head, TriedFirst, AuthorizedHead;
    HeadsStayAuthorized(db, mid, env, now, order);
    DispatchesCompose(db.tasks, mid.tasks, tasks', Claimed(0, 0, 0));
    TriedExtends(db, mid, env, now, worker, lease, order, |order[1..]|, tasks');
    forall k | 0 <= k < |order| ensures !AuthorizedHead(db, env, order[k], now) {
      if k > 0 {
        assert order[1..][k - 1] == order[k];
      }
    }
  }

  lemma SomebodyExtends(
    db: Db, mid: Db, env: Env, now: Time, worker: string, lease: Time, order: seq<Id>, tasks': map<Id, Task>,
    c: Claimed)
    requires order != [] && SameDispatches(db.tasks, mid.tasks)
    requires forall j, k :: 0 <= j < k < |order| ==> order[j] != order[k]
    requires HeadsExist(db, order) && HeadsExist(mid, order[1..])
    requires mid == db.(tasks := mid.tasks) && order[0] in mid.tasks
    requires mid.tasks == db.tasks[order[0] := mid.tasks[order[0]]]
    requires Tried(db, env, order[0], now, db.next, worker, lease, mid.tasks[order[0]])
    requires !AuthorizedHead(db, env, order[0], now)
    requires ClaimOutcome(mid, env, now, worker, lease, order[1..], tasks', Some(c))
    ensures ClaimOutcome(db, env, now, worker, lease, order, tasks', Some(c))
  {
    hide AuthorizedNow, Dispatched, SameDispatches, Judge, Tried, Head, TriedFirst, AuthorizedHead;
    var k := ClaimedAt(mid, env, now, worker, lease, order[1..], tasks', c);
    HeadsStayAuthorized(db, mid, env, now, order);
    assert order[1..][k] == order[k + 1];
    DispatchesCompose(db.tasks, mid.tasks, tasks', c);
    JudgeFrame(db, mid, env, c.task, now);
    TriedExtends(db, mid, env, now, worker, lease, order, k + 1, tasks');
    forall j | 0 <= j < k + 1 ensures !AuthorizedHead(db, env, order[j], now) {
      if j > 0 {
        assert order[1..][j - 1] == order[j];
      }
    }
  }

  lemma ClaimedAt(
    db: Db, env: Env, now: Time, worker: string, lease: Time, order: seq<Id>, tasks': map<Id, Task>, c: Claimed)
    returns (k: nat)
    requires HeadsExist(db, order) && ClaimOutcome(db, env, now, worker, lease, order, tasks', Some(c))
    ensures k < |order| && order[k] == c.task && c.task in db.tasks && c.pos == Head(db.tasks[c.task].steps)
    ensures forall j :: 0 <= j < k ==> !AuthorizedHead(db, env, order[j], now)
    ensures TriedFirst(db, env, now, worker, lease, order, k + 1, tasks')
  {
    hide AuthorizedNow, Dispatched, Head, TriedFirst, AuthorizedHead;
    k :| 0 <= k < |order| && order[k] == c.task && c.pos == Head(db.tasks[c.task].steps)
      && (forall j :: 0 <= j < k ==> !AuthorizedHead(db, env, order[j], now))
      && TriedFirst(db, env, now, worker, lease, order, k + 1, tasks');
  }

  /** Trying the first candidate authorises no other, and takes nothing from it. */
  lemma HeadsStayAuthorized(db: Db, mid: Db, env: Env, now: Time, order: seq<Id>)
    requires order != [] && HeadsExist(db, order) && HeadsExist(mid, order[1..])
    requires forall j, k :: 0 <= j < k < |order| ==> order[j] != order[k]
    requires mid == db.(tasks := mid.tasks) && order[0] in mid.tasks
    requires mid.tasks == db.tasks[order[0] := mid.tasks[order[0]]]
    ensures forall k :: 1 <= k < |order| ==>
              order[k] in mid.tasks && mid.tasks[order[k]] == db.tasks[order[k]]
              && (AuthorizedHead(mid, env, order[k], now) <==> AuthorizedHead(db, env, order[k], now))
  {
    hide AuthorizedNow, Judge, Head;
    forall k | 1 <= k < |order|
      ensures order[k] in mid.tasks && mid.tasks[order[k]] == db.tasks[order[k]]
      ensures AuthorizedHead(mid, env, order[k], now) <==> AuthorizedHead(db, env, order[k], now)
    {
      assert order[1..][k - 1] == order[k];
      JudgeFrame(db, mid, env, order[k], now);
    }
  }

  lemma HeadIsClaimed(tasks: map<Id, Task>, tasks': map<Id, Task>, c: Claimed)
    requires Dispatched(tasks, tasks', c)
    ensures c.task in tasks && c.pos == Head(tasks[c.task].steps) && c.pos < |tasks[c.task].steps|
  {
  }

  /** A candidate has no expired step: recovery made every task with one uncertain. */
  lemma CandidateNotExpired(t: Task, device: string, now: Time)
    requires TaskOk(t) && Candidate(ExpireTask(t, now), device)
    ensures ExpireTask(t, now) == t
  {
    var t' := ExpireTask(t, now);
    forall i | 0 <= i < |t.steps| ensures t'.steps[i] == t.steps[i] {
      assert t'.steps[i].status != Uncertain;
    }
    assert t'.steps == t.steps;
  }

  /** What one claim does, whatever the store: hand out one authorised step, or none. */
  lemma ClaimDispatches(
    db: Db, env: Env, worker: string, device: string, now: Time, leaseSeconds: int, order: seq<Id>)
    requires TasksGood(db)
    requires ClaimGate(db, env, worker, device, now, leaseSeconds).None? ==>
               ClaimOrder(Expire(db, now), device, order)
    ensures var tx := Claim(db, env, worker, device, now, leaseSeconds, order);
            match tx.out
            case Ok(Some(c)) =>
              && Dispatched(db.tasks, tx.db.tasks, c) && c.token == db.next
              && AuthorizedNow(db, env, c.task, c.pos, now)
              && !db.frozen && db.tasks[c.task].steps[c.pos].call.device == device
            case _ => SameDispatches(db.tasks, tx.db.tasks)
  {
    hide TasksGood, AuthorizedNow, Dispatched, SameDispatches, TasksMove, Judge, ExpireTask, TryInOrder, Candidate,
         ClaimOutcome;
    StayPut(db);
    ExpireKeeps(db, now);
    var gate := ClaimGate(db, env, worker, device, now, leaseSeconds);
    if gate.None? {
      var mid := Expire(db, now);
      MoveIsGood(db, mid);
      TryInOrderDispatches(mid, env, device, worker, now, now + leaseSeconds as real, order);
      var (db', out) := TryInOrder(mid, env, device, worker, now, now + leaseSeconds as real, order);
      OutcomeBeforeExpiry(db, env, device, now, worker, now + leaseSeconds as real, order, db'.tasks, out);
    }
  }

  /** A step whose lease ran out is in doubt, and its worker may not report any more; any other
      is as it was. */
  predicate RecoveredStep(s: Step, now: Time, s': Step) {
    if s.status.Running? && s.lease <= now
    then s' == s.(status := Uncertain, claim := NO_ID, error := "lease_expired")
    else s' == s
  }

  ghost predicate RecoveredTask(t: Task, now: Time, t': Task) {
    && t' == t.(steps := t'.steps, status := Refresh(t'.steps)) && |t'.steps| == |t.steps|
    && forall i :: 0 <= i < |t.steps| ==> RecoveredStep(t.steps[i], now, t'.steps[i])
  }

  /** Main result: a claim that passes its gates first puts every step with an expired lease in
      doubt, and then makes of every candidate what it should be, up to the first that is
      authorised now, which it alone hands out. */
  lemma ClaimTries(
    db: Db, env: Env, worker: string, device: string, now: Time, leaseSeconds: int, order: seq<Id>)
    requires TasksGood(db) && ClaimGate(db, env, worker, device, now, leaseSeconds).None?
    requires ClaimOrder(Expire(db, now), device, order)
    ensures var mid, tx := Expire(db, now), Claim(db, env, worker, device, now, leaseSeconds, order);
            && mid == db.(tasks := mid.tasks) && mid.tasks.Keys == db.tasks.Keys
            && (forall t :: t in db.tasks ==> RecoveredTask(db.tasks[t], now, mid.tasks[t]))
            && tx.out.Ok? && HeadsExist(mid, order)
            && ClaimOutcome(mid, env, now, worker, now + leaseSeconds as real, order, tx.db.tasks, tx.out.value)
  {
    hide TasksGood, TasksMove, TryInOrder, Candidate, ClaimOutcome, ExpireTask, RecoveredTask, SameDispatches;
    ExpireKeeps(db, now);
    MoveIsGood(db, Expire(db, now));
    forall t | t in db.tasks ensures RecoveredTask(db.tasks[t], now, ExpireTask(db.tasks[t], now)) {
      ExpiryRecoversTask(db.tasks[t], now);
    }
    TryInOrderDispatches(Expire(db, now), env, device, worker, now, now + leaseSeconds as real, order);
  }

  lemma ExpiryRecoversTask(t: Task, now: Time)
    ensures RecoveredTask(t, now, ExpireTask(t, now))
  {
    hide Refresh;
  }

  /** What is handed out after the recovery was untouched by it. */
  lemma OutcomeBeforeExpiry(
    db: Db, env: Env, device: string, now: Time, worker: string, lease: Time, order: seq<Id>,
    tasks': map<Id, Task>, out: Option<Claimed>)
    requires TasksGood(db) && Candidates(Expire(db, now), device, order) && HeadsExist(Expire(db, now), order)
    requires SameDispatches(db.tasks, Expire(db, now).tasks)
    requires ClaimOutcome(Expire(db, now), env, now, worker, lease, order, tasks', out)
    ensures out.None? ==> SameDispatches(db.tasks, tasks')
    ensures out.Some? ==>
              var c := out.value;
              && Dispatched(db.tasks, tasks', c) && c.token == db.next
              && c.task in db.tasks && c.pos < |db.tasks[c.task].steps|
              && AuthorizedNow(db, env, c.task, c.pos, now)
              && db.tasks[c.task].steps[c.pos].call.device == device
  {
    hide TasksGood, AuthorizedNow, Dispatched, SameDispatches, Judge, ExpireTask, TriedFirst;
    var mid := Expire(db, now);
    if out.None? {
      DispatchesCompose(db.tasks, mid.tasks, tasks', Claimed(0, 0, 0));
    } else {
      var c := out.value;
      HeadIsClaimed(mid.tasks, tasks', c);
      TaskIsOk(db, c.task);
      assert Candidate(mid.tasks[c.task], device);
      CandidateNotExpired(db.tasks[c.task], device, now);
      DispatchesCompose(db.tasks, mid.tasks, tasks', c);
      JudgeFrame(db, mid, env, c.task, now);
    }
  }

  /** No running step is past its lease. */
  predicate LeasesHold(tasks: map<Id, Task>, now: Time) {
    forall t, i :: t in tasks && 0 <= i < |tasks[t].steps| && tasks[t].steps[i].status.Running? ==>
      tasks[t].steps[i].lease > now
  }

  /** The claim is well formed, and nothing stops it after the recovery: a tenant that must
      not work returns before the device is looked at. */
  predicate RecoveryStands(db: Db, env: Env, worker: string, device: string, leaseSeconds: int) {
    && worker != "" && 5 <= leaseSeconds <= 600
    && (db.frozen || !env.authority("", "", MEMBERS) || device == ""
        || (device in db.devices && !db.devices[device].revoked))
  }

  /** After a claim no running step is past its lease, if and only if none was before or the
      claim passes its own gates. A claim naming a device that is not enrolled, or revoked,
      raises inside its transaction, which takes the recovery back with it. */
  lemma ClaimRecoversLeases(
    db: Db, env: Env, worker: string, device: string, now: Time, leaseSeconds: int, order: seq<Id>)
    requires ClaimGate(db, env, worker, device, now, leaseSeconds).None? ==>
               ClaimOrder(Expire(db, now), device, order)
    ensures LeasesHold(Claim(db, env, worker, device, now, leaseSeconds, order).db.tasks, now)
       <==> LeasesHold(db.tasks, now) || RecoveryStands(db, env, worker, device, leaseSeconds)
    ensures !RecoveryStands(db, env, worker, device, leaseSeconds) ==>
              Claim(db, env, worker, device, now, leaseSeconds, order).db == db
  {
    hide LeasesHold, TryInOrder, Candidates;
    ExpiryRecovers(db, now);
    if ClaimGate(db, env, worker, device, now, leaseSeconds).None? {
      TryInOrderHolds(Expire(db, now), env, device, worker, now, now + leaseSeconds as real, order);
    }
  }

  lemma ExpiryRecovers(db: Db, now: Time)
    ensures LeasesHold(Expire(db, now).tasks, now)
  {
  }

  lemma {:induction false} TryInOrderHolds(
    db: Db, env: Env, device: string, worker: string, now: Time, lease: Time, order: seq<Id>)
    requires Candidates(db, device, order) && LeasesHold(db.tasks, now) && lease > now
    ensures LeasesHold(TryInOrder(db, env, device, worker, now, lease, order).0.tasks, now)
    decreases |order|
  {
    hide Judge, Refresh;
    if order != [] {
      var db' := Attempt(db, env, order[0], worker, now, lease);
      assert Candidate(db.tasks[order[0]], device);
      AttemptHolds(db, env, order[0], device, worker, now, lease);
      RestStayCandidates(db, env, device, worker, now, lease, order);
      if !Judge(db, env, order[0], now).Dispatch? {
        TryInOrderHolds(db', env, device, worker, now, lease, order[1..]);
      }
    }
  }

  lemma AttemptHolds(db: Db, env: Env, tid: Id, device: string, worker: string, now: Time, lease: Time)
    requires tid in db.tasks && Candidate(db.tasks[tid], device) && LeasesHold(db.tasks, now) && lease > now
    ensures LeasesHold(Attempt(db, env, tid, worker, now, lease).tasks, now)
  {
    hide Judge, Refresh;
  }

  predicate DeviceQuiet(tasks: map<Id, Task>, device: string) {
    forall t, i :: t in tasks && 0 <= i < |tasks[t].steps| && tasks[t].steps[i].call.device == device ==>
      !Open(tasks[t].steps[i].status)
  }

  /** Cancelling a task, or changing a device, takes every running step it reaches away
      from its holder. (`Freeze` does so for the whole tenant: no task of a frozen store
      has a running step, by the invariant.) */
  lemma RevocationsReachRunningSteps(db: Db, env: Env, tid: Id, device: string, revoked: bool, actor: string)
    requires TasksGood(db)
    ensures Cancel(db, env, tid, actor).out.Ok? ==> NoneRunning(Cancel(db, env, tid, actor).db.tasks[tid])
    ensures var tx := EnrollDevice(db, env, device, revoked, actor);
            tx.out.Ok? ==> DeviceQuiet(tx.db.tasks, device)
  {
    hide DeviceQuiet, NoneRunning, CancelTask, UnbindDevice, TaskOk;
    if Cancel(db, env, tid, actor).out.Ok? {
      TaskIsOk(db, tid);
      CancelTaskKeeps(db.tasks[tid]);
    }
    UnbindingQuiets(db.tasks, device, actor);
  }

  lemma UnbindingQuiets(tasks: map<Id, Task>, device: string, actor: string)
    ensures DeviceQuiet(map t | t in tasks :: UnbindDevice(tasks[t], device, actor), device)
  {
  }

  /** A step is handed only to a device that is enrolled, or to a worker without one. */
  lemma ClaimingDeviceIsEnrolled(
    db: Db, env: Env, worker: string, device: string, now: Time, leaseSeconds: int, order: seq<Id>)
    requires ClaimGate(db, env, worker, device, now, leaseSeconds).None? ==>
               ClaimOrder(Expire(db, now), device, order)
    ensures var out := Claim(db, env, worker, device, now, leaseSeconds, order).out;
            out.Ok? && out.value.Some? && device != "" ==> device in db.devices && !db.devices[device].revoked
  {
    hide Expire, TryInOrder, Candidates;
  }

  lemma TaskIsOk(db: Db, tid: Id)
    requires TasksGood(db) && tid in db.tasks
    ensures TaskOk(db.tasks[tid])
  {
  }

  // ----------------------------------------------------------- reports and operators

  lemma FinishKeeps(
    db: Db, tid: Id, pos: nat, token: Id, result: string, report: Report, error: string, now: Time)
    requires TasksGood(db)
    ensures TasksMove(db, Finish(db, tid, pos, token, result, report, error, now).db)
    ensures SameDispatches(db.tasks, Finish(db, tid, pos, token, result, report, error, now).db.tasks)
  {
    hide TasksMove, SameDispatches, DestinationBound, TaskEvolves;
    StayPut(db);
    var tx := Finish(db, tid, pos, token, result, report, error, now);
    if tx.out.Ok? {
      assert StepOk(db.tasks[tid].steps[pos]);
      SetStepKeeps(db.tasks[tid], pos, tx.db.tasks[tid].steps[pos]);
      UpdateMoves(db, tid, tx.db.tasks[tid], db.next);
    }
  }

  lemma CancelKeeps(db: Db, env: Env, tid: Id, actor: string)
    requires TasksGood(db)
    ensures TasksMove(db, Cancel(db, env, tid, actor).db)
    ensures SameDispatches(db.tasks, Cancel(db, env, tid, actor).db.tasks)
  {
    hide TasksMove, SameDispatches, DestinationBound, TaskEvolves;
    StayPut(db);
    if Cancel(db, env, tid, actor).out.Ok? {
      CancelTaskKeeps(db.tasks[tid]);
      UpdateMoves(db, tid, CancelTask(db.tasks[tid]), db.next);
    }
  }

  lemma ReconcileKeeps(
    db: Db, env: Env, tid: Id, pos: nat, actor: string, role: string, succeeded: bool, evidence: string)
    requires TasksGood(db)
    ensures TasksMove(db, Reconcile(db, env, tid, pos, actor, role, succeeded, evidence).db)
    ensures SameDispatches(db.tasks, Reconcile(db, env, tid, pos, actor, role, succeeded, evidence).db.tasks)
  {
    hide TasksMove, SameDispatches, DestinationBound, TaskEvolves;
    StayPut(db);
    var tx := Reconcile(db, env, tid, pos, actor, role, succeeded, evidence);
    if tx.out.Ok? {
      assert StepOk(db.tasks[tid].steps[pos]);
      SetStepKeeps(db.tasks[tid], pos, tx.db.tasks[tid].steps[pos]);
      UpdateMoves(db, tid, tx.db.tasks[tid], db.next);
    }
  }

  lemma FreezeKeeps(db: Db, env: Env, stopped: bool, actor: string)
    requires TasksGood(db)
    ensures TasksMove(db, Freeze(db, env, stopped, actor).db)
    ensures SameDispatches(db.tasks, Freeze(db, env, stopped, actor).db.tasks)
  {
    StayPut(db);
    var db' := Freeze(db, env, stopped, actor).db;
    if db' != db && stopped {
      forall t | t in db.tasks
        ensures TaskOk(db'.tasks[t]) && TaskEvolves(db.tasks[t], db'.tasks[t]) && NoneRunning(db'.tasks[t])
        ensures SameAttempts(db.tasks[t], db'.tasks[t])
      {
        FreezeTaskKeeps(db.tasks[t]);
      }
      MapMoves(db, db');
    } else if db' != db {
      MapMoves(db, db');
    }
  }

  lemma EnrollDeviceKeeps(db: Db, env: Env, device: string, revoked: bool, actor: string)
    requires TasksGood(db)
    ensures TasksMove(db, EnrollDevice(db, env, device, revoked, actor).db)
    ensures SameDispatches(db.tasks, EnrollDevice(db, env, device, revoked, actor).db.tasks)
  {
    var tx := EnrollDevice(db, env, device, revoked, actor);
    if tx.out.Err? {
      StayPut(db);
    } else {
      var db' := tx.db;
      forall t | t in db.tasks
        ensures TaskOk(db'.tasks[t]) && TaskEvolves(db.tasks[t], db'.tasks[t])
        ensures db'.frozen ==> NoneRunning(db'.tasks[t])
        ensures SameAttempts(db.tasks[t], db'.tasks[t])
      {
        UnbindDeviceKeeps(db.tasks[t], device, actor);
      }
      MapMoves(db, db');
    }
  }

  // --------------------------------------------------------------- inbound events

  /** Events are only added, and never change what they carry, so every destination a
      task was bound to stays known. */
  lemma EventsMoveKeeps(db: Db, events: map<(string, string), Event>, next: Id)
    requires Inv(db) && EventsEvolve(db.events, events) && db.next <= next
    ensures Inv(db.(events := events, next := next)) && Evolves(db, db.(events := events, next := next))
  {
    hide RunsOk, TurnsOk, QueueOk, HistoryOk, HandoffsOk, TaskOk, DestinationBound, TaskEvolves;
    EvolvesReflexive(db);
    forall t, i | t in db.tasks && 0 <= i < |db.tasks[t].steps|
      ensures DestinationBound(events, db.tasks[t], db.tasks[t].steps[i])
    {
      DestinationSurvives(db.events, events, db.tasks[t], db.tasks[t].steps[i]);
    }
  }

  lemma DestinationSurvives(
    events: map<(string, string), Event>, events': map<(string, string), Event>, t: Task, s: Step)
    requires EventsEvolve(events, events') && DestinationBound(events, t, s)
    ensures DestinationBound(events', t, s)
  {
    if Outbound(s.call.tool) && t.channel == OPERATOR_CHANNEL {
      var channel :| channel in OUTBOUND_CHANNELS && s.call.tool == SendTool(channel)
        && Recipient(s.call).Some? && KnownConversation(events, channel, Recipient(s.call).value);
      var k :| k in events && k.0 == channel && events[k].payload.conversation == Recipient(s.call);
      assert k in events';
    }
  }

  lemma AcceptEventKeeps(db: Db, env: Env, channel: string, key: string, p: Payload, overQuota: bool)
    requires Inv(db)
    ensures var tx := AcceptEvent(db, env, channel, key, p, overQuota);
            Inv(tx.db) && Evolves(db, tx.db) && tx.db == db.(events := tx.db.events)
  {
    hide Inv, Evolves, AcceptEvent, EventsEvolve;
    AcceptedEventsEvolve(db, env, channel, key, p, overQuota);
    EventsMoveKeeps(db, AcceptEvent(db, env, channel, key, p, overQuota).db.events, db.next);
  }

  lemma AcceptedEventsEvolve(db: Db, env: Env, channel: string, key: string, p: Payload, overQuota: bool)
    ensures var tx := AcceptEvent(db, env, channel, key, p, overQuota);
            tx.db == db.(events := tx.db.events) && EventsEvolve(db.events, tx.db.events)
  {
    hide PendingEvents, Identity, EventsEvolve;
    SameEvents(db.events);
    if (channel, key) !in db.events {
      var event := Event(p, EventPending, NO_ID, 0.0, NoOutcome, "", |db.events|);
      OneEventEvolves(db.events, (channel, key), event);
    }
  }

  lemma SameEvents(events: map<(string, string), Event>)
    ensures EventsEvolve(events, events)
  {
  }

  /** One event is new, or keeps what it brought and its place. */
  lemma OneEventEvolves(events: map<(string, string), Event>, k: (string, string), e: Event)
    requires k in events ==> e.payload == events[k].payload && e.arrived == events[k].arrived
    ensures EventsEvolve(events, events[k := e])
  {
  }

  lemma ClaimEventKeeps(db: Db, k: (string, string), now: Time)
    requires Inv(db)
    ensures var tx := ClaimEvent(db, k, now);
            Inv(tx.db) && Evolves(db, tx.db) && tx.db == db.(events := tx.db.events, next := tx.db.next)
  {
    hide Inv, Evolves, EventsEvolve;
    var tx := ClaimEvent(db, k, now);
    if tx.out == Ok(None) {
      EvolvesReflexive(db);
    } else {
      OneEventEvolves(db.events, k, tx.db.events[k]);
      EventsMoveKeeps(db, tx.db.events, db.next + 1);
    }
  }

  lemma SettleEventKeeps(db: Db, k: (string, string), token: Id, outcome: Outcome, failure: Option<string>)
    requires Inv(db)
    ensures Inv(SettleEvent(db, k, token, outcome, failure))
    ensures Evolves(db, SettleEvent(db, k, token, outcome, failure))
    ensures var db' := SettleEvent(db, k, token, outcome, failure); db' == db.(events := db'.events)
  {
    hide Inv, Evolves, EventsEvolve;
    var events := SettleEvent(db, k, token, outcome, failure).events;
    SettledEventsEvolve(db, k, token, outcome, failure);
    EventsMoveKeeps(db, events, db.next);
  }

  lemma SettledEventsEvolve(db: Db, k: (string, string), token: Id, outcome: Outcome, failure: Option<string>)
    ensures EventsEvolve(db.events, SettleEvent(db, k, token, outcome, failure).events)
  {
    hide EventsEvolve;
    SameEvents(db.events);
    if k in db.events {
      OneEventEvolves(db.events, k, SettledEvent(db.events[k], outcome, failure));
    }
  }

  lemma RetryEventKeeps(db: Db, env: Env, k: (string, string), actor: string)
    requires Inv(db)
    ensures var tx := RetryEvent(db, env, k, actor);
            Inv(tx.db) && Evolves(db, tx.db) && tx.db == db.(events := tx.db.events)
  {
    hide Inv, Evolves, EventsEvolve;
    var tx := RetryEvent(db, env, k, actor);
    if tx.out.Err? {
      EvolvesReflexive(db);
    } else {
      OneEventEvolves(db.events, k, tx.db.events[k]);
      EventsMoveKeeps(db, tx.db.events, db.next);
    }
  }
}
