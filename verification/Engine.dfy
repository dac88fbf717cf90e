/** The engine as an object over mutable tables. Every method is one write transaction,
    carried out row by row; its contract is the transaction of `EngineSpec`. */
module EngineRuntime {
  import opened Basics
  import opened Authorization
  import opened Tasks
  import opened Store
  import opened EngineSpec
  import opened EngineProofs

  class Engine {
    var tasks: map<Id, Task>
    var events: map<(string, string), Event>
    var frozen: bool
    var devices: map<string, Device>
    var runs: map<Id, Run>
    var turns: seq<Turn>
    var takeovers: map<Chat, Takeover>
    var history: map<Chat, seq<Line>>
    var handoffs: map<(string, string), string>
    var announced: set<Id>
    var next: Id

    /** The whole store as a value. */
    function View(): Db
      reads this
    {
      Db(tasks, events, frozen, devices, runs, turns, takeovers, history, handoffs, announced, next)
    }

    ghost predicate Valid()
      reads this
    {
      Inv(View())
    }

    constructor ()
      ensures Valid() && View() == EmptyStore()
    {
      tasks, events, frozen, devices, runs := map[], map[], false, map[], map[];
      turns, takeovers, history, handoffs, announced, next := [], map[], map[], map[], {}, 1;
      new;
      assert OpenTurns([]) == {};
    }

    // ---------------------------------------------------------------- rows of a task

    /** `_refresh`: read the task's step states, write the task's status. */
    method RefreshRow(tid: Id)
      requires tid in tasks
      modifies `tasks
      ensures tasks == old(tasks)[tid := WithSteps(old(tasks[tid]), old(tasks[tid]).steps)]
    {
      var status := StatusOf(tasks[tid].steps);
      tasks := tasks[tid := tasks[tid].(status := status)];
    }

    /** Writes one step row; the task's status is not refreshed. */
    method WriteStep(tid: Id, pos: nat, s: Step)
      requires tid in tasks && pos < |tasks[tid].steps|
      modifies `tasks
      ensures tasks == old(tasks)[tid := old(tasks[tid]).(steps := old(tasks[tid]).steps[pos := s])]
    {
      tasks := tasks[tid := tasks[tid].(steps := tasks[tid].steps[pos := s])];
    }

    /** Writes one step row and refreshes its task. */
    method WriteAndRefresh(tid: Id, pos: nat, s: Step)
      requires tid in tasks && pos < |tasks[tid].steps|
      modifies `tasks
      ensures tasks == old(tasks)[tid := WithStep(old(tasks[tid]), pos, s)]
    {
      hide Refresh;
      WriteStep(tid, pos, s);
      RefreshRow(tid);
    }

    /** `UPDATE p_steps SET ... WHERE ...`: every row of the tenant that qualifies. */
    method UpdateSteps(qualifies: Step -> bool, change: Step -> Step)
      modifies `tasks
      ensures tasks.Keys == old(tasks).Keys
      ensures forall t :: t in tasks ==> tasks[t] == UpdatedRows(old(tasks)[t], qualifies, change)
    {
      var rows := tasks;
      tasks := map t | t in rows :: UpdatedRows(rows[t], qualifies, change);
    }

    /** `for r in affected: self._refresh(...)`. */
    method RefreshEach(affected: set<Id>)
      requires affected <= tasks.Keys
      modifies `tasks
      ensures tasks.Keys == old(tasks).Keys
      ensures forall t :: t in tasks ==>
                tasks[t] == if t in affected then WithSteps(old(tasks)[t], old(tasks)[t].steps) else old(tasks)[t]
    {
      hide Refresh;
      var todo := affected;
      while todo != {}
        invariant todo <= affected && tasks.Keys == old(tasks).Keys
        invariant forall t :: t in tasks ==>
                    tasks[t] == if t in affected && t !in todo then WithSteps(old(tasks)[t], old(tasks)[t].steps)
                                else old(tasks)[t]
        decreases |todo|
      {
        var tid :| tid in todo;
        RefreshRow(tid);
        todo := todo - {tid};
      }
    }

    // -------------------------------------------------------------------- submission

    /** The task row an idempotency key names: at most one, by the uniqueness of keys. */
    method FindTask(channel: string, key: Key) returns (t: Option<Id>)
      requires Valid()
      ensures t.Some? <==> KeyTaken(View(), channel, key)
      ensures t.Some? ==> t.value == TaskByKey(View(), channel, key)
    {
      hide Inv;
      TasksAreKeyed(View());
      if t :| t in tasks && tasks[t].channel == channel && tasks[t].key == key {
        assert SameKey(tasks[t], tasks[TaskByKey(View(), channel, key)]);
        return Some(t);
      }
      return None;
    }

    method CountPending() returns (n: nat)
      ensures n == |PendingTasks(View())|
    {
      var pending := set t | t in tasks && Open(tasks[t].status);
      assert pending == PendingTasks(View());
      return |pending|;
    }

    /** `_create_task`. */
    method CreateTask(
      env: Env, channel: string, key: Key, agent: string, plan: seq<Call>, actor: string,
      fps: seq<Fingerprint>, approver: string, now: Time) returns (r: Result<Id>)
      requires Valid()
      modifies `tasks, `next
      ensures var tx := EngineSpec.CreateTask(old(View()), env, channel, key, agent, plan, actor, fps, approver, now);
              View() == tx.db && r == tx.out
    {
      hide Inv, Refresh, KeyTaken, PendingTasks, FreshSteps;
      if !env.authority(channel, actor, MEMBERS) { return Err(Forbidden); }
      var existing := FindTask(channel, key);
      if existing.Some? {
        var t := existing.value;
        if tasks[t].agent != agent || tasks[t].plan != plan { return Err(Conflict); }
        return Ok(t);
      }
      if !env.authority("", "", MEMBERS) || frozen { return Err(Forbidden); }
      var pending := CountPending();
      if pending >= MAX_PENDING_TASKS { return Err(RateLimited); }
      r := InsertTask(channel, key, agent, plan, actor, fps, approver, now);
    }

    /** The inserts of `_create_task`: the task row, then its steps with their approvals. */
    method InsertTask(
      channel: string, key: Key, agent: string, plan: seq<Call>, actor: string,
      fps: seq<Fingerprint>, approver: string, now: Time) returns (r: Result<Id>)
      modifies `tasks, `next
      ensures r == Ok(old(next)) && next == old(next) + 1
      ensures var steps := FreshSteps(fps, approver, now);
              tasks == old(tasks)[old(next) := Task(channel, key, agent, plan, actor, Refresh(steps), now, steps)]
    {
      hide Refresh;
      var tid := next;
      next := next + 1;
      tasks := tasks[tid := Task(channel, key, agent, plan, actor, Queued, now, [])];
      for pos := 0 to |fps|
        invariant next == old(next) + 1 && tid in tasks && |tasks[tid].steps| == pos
        invariant tasks == old(tasks)[tid := Task(channel, key, agent, plan, actor, Queued, now, tasks[tid].steps)]
        invariant forall j :: 0 <= j < pos ==> tasks[tid].steps[j] == FreshStep(fps[j], approver, now)
      {
        var row := Step(fps[pos].call, fps[pos].approval, fps[pos], Queued, NO_ID, "", 0.0, 0, "{}", "", None);
        if fps[pos].approval && approver != "" {
          row := row.(approval := Some(Approval(fps[pos], Approved, approver, now + APPROVAL_SECONDS)));
        } else if fps[pos].approval {
          row := row.(approval := Some(Approval(fps[pos], Pending, "", now + APPROVAL_SECONDS)));
        }
        tasks := tasks[tid := tasks[tid].(steps := tasks[tid].steps + [row])];
      }
      var steps := tasks[tid].steps;
      assert steps == FreshSteps(fps, approver, now);
      RefreshRow(tid);
      return Ok(tid);
    }

    /** `submit`. */
    method Submit(
      env: Env, channel: string, key: Key, agent: string, plan: seq<Call>, actor: string, now: Time)
      returns (r: Result<Id>)
      requires Valid()
      modifies `tasks, `next
      ensures Valid()
      ensures var tx := EngineSpec.Submit(old(View()), env, channel, key, agent, plan, actor, now);
              View() == tx.db && r == tx.out
    {
      hide Inv, Validate, Identity, EngineSpec.CreateTask, TasksMove, TasksGood, SameDispatches;
      TasksOfView();
      SubmitKeeps(View(), env, channel, key, agent, plan, actor, now);
      TasksMoveKeeps(View(), EngineSpec.Submit(View(), env, channel, key, agent, plan, actor, now).db);
      if !(Identity(channel) && (key.External? ==> Identity(key.text)) && Identity(agent) && Identity(actor)) {
        return Err(Invalid);
      }
      if channel == OPERATOR_CHANNEL { return Err(Forbidden); }
      var origin := OriginOf(events, channel, key);
      var validated := ValidatePlan(env, agent, plan, origin);
      if validated.Err? { return Err(validated.error); }
      for k := 0 to |plan|
        invariant View() == old(View())
        invariant forall j :: 0 <= j < k ==>
                    DestinationAllowed(env.policies[agent].rules, channel, origin, plan[j])
      {
        if !DestinationAllowed(env.policies[agent].rules, channel, origin, plan[k]) { return Err(Forbidden); }
      }
      r := CreateTask(env, channel, key, agent, plan, actor, validated.value, "", now);
    }

    lemma TasksOfView()
      requires Valid()
      ensures TasksGood(View())
      ensures forall t :: t in tasks ==> TaskOk(tasks[t])
    {
    }

    /** `operator_reply`. */
    method OperatorReply(
      env: Env, channel: string, conversation: string, text: string, actor: string, role: string,
      key: string, agent: string, now: Time) returns (r: Result<Id>)
      requires Valid()
      modifies `tasks, `next
      ensures Valid()
      ensures var tx := ReplyAsOperator(old(View()), env, channel, conversation, text, actor, role, key, agent, now);
              View() == tx.db && r == tx.out
    {
      hide Inv, Validate, Identity, EngineSpec.CreateTask, TasksMove, TasksGood, SameDispatches, OperatorOriginOf;
      TasksOfView();
      ReplyAsOperatorKeeps(View(), env, channel, conversation, text, actor, role, key, agent, now);
      TasksMoveKeeps(
        View(), ReplyAsOperator(View(), env, channel, conversation, text, actor, role, key, agent, now).db);
      if channel !in OUTBOUND_CHANNELS { return Err(Invalid); }
      if role !in MEMBERS { return Err(Forbidden); }
      if !(Identity(actor) && Identity(agent) && Identity(conversation)) || !ReplyKey(key) {
        return Err(Invalid);
      }
      if Blank(text) || |text| > 4000 { return Err(Invalid); }
      var call := ReplyCall(channel, conversation, text);
      if agent !in env.policies { return Err(Forbidden); }
      var required := ApproverRoles(env.policies[agent].rules);
      if role !in required || !env.authority("approval", actor, required) { return Err(Forbidden); }
      var origin := OperatorOriginOf(events, call);
      if origin.Err? { return Err(origin.error); }
      var validated := ValidatePlan(env, agent, [call], origin.value);
      if validated.Err? { return Err(validated.error); }
      var approver := if env.policies[agent].rules.independentApproval then "" else actor;
      r := CreateTask(env, OPERATOR_CHANNEL, Tasks.Key.OperatorReply(key), agent, [call], actor, validated.value,
                      approver, now);
    }

    // ---------------------------------------------------------------------- approval

    method Approve(env: Env, tid: Id, pos: nat, actor: string, approved: bool, role: string, now: Time)
      returns (r: Result<()>)
      requires Valid()
      modifies `tasks
      ensures Valid()
      ensures var tx := EngineSpec.Approve(old(View()), env, tid, pos, actor, approved, role, now);
              View() == tx.db && r == tx.out
    {
      hide Inv, TasksMove, TasksGood, SameDispatches, TaskOk, Refresh, ParentAllows, WithStep;
      TasksOfView();
      ApproveKeeps(View(), env, tid, pos, actor, approved, role, now);
      TasksMoveKeeps(View(), EngineSpec.Approve(View(), env, tid, pos, actor, approved, role, now).db);
      if role !in {"owner", "operator", "super-admin"} { return Err(Forbidden); }
      if tid !in tasks || pos >= |tasks[tid].steps| || tasks[tid].steps[pos].approval.None? { return Err(NotFound); }
      if !env.authority("", "", MEMBERS) || frozen { return Err(Forbidden); }
      if !ParentAllows(runs, tid, now) { return Err(Forbidden); }
      var t := tasks[tid];
      if t.agent !in env.policies { return Err(Forbidden); }
      var rules := env.policies[t.agent].rules;
      if !env.authority("approval", actor, ApproverRoles(rules)) { return Err(Forbidden); }
      if approved && rules.independentApproval && actor == t.actor { return Err(Forbidden); }
      if rules.approverRole !in {"operator", "owner"} { return Err(Forbidden); }
      if rules.approverRole == "owner" && role !in {"owner", "super-admin"} { return Err(Forbidden); }
      var s := t.steps[pos];
      var a := s.approval.value;
      if a.status != Pending || s.status !in {Queued, WaitingApproval} || a.expires <= now {
        return Err(Conflict);
      }
      DecideRows(tid, pos, approved, actor);
      return Ok(());
    }

    /** The two updates of `approve`: the approval row, then the step row. */
    method DecideRows(tid: Id, pos: nat, approved: bool, actor: string)
      requires tid in tasks && pos < |tasks[tid].steps| && tasks[tid].steps[pos].approval.Some?
      modifies `tasks
      ensures var s := old(tasks[tid]).steps[pos];
              tasks == old(tasks)[tid := WithStep(old(tasks[tid]), pos,
                s.(status := if approved then Queued else Cancelled,
                   approval := Some(s.approval.value.(status := if approved then Approved else Rejected,
                                                      actor := actor))))]
    {
      hide WithStep;
      var t := tasks[tid];
      var s := t.steps[pos];
      var decided := s.approval.value.(status := if approved then Approved else Rejected, actor := actor);
      var row := s.(approval := Some(decided));
      WriteStep(tid, pos, row);
      var written := row.(status := if approved then Queued else Cancelled);
      WriteAndRefresh(tid, pos, written);
      LastWriteStands(t, pos, row, written);
    }

    // ------------------------------------------------------------------------- claim

    /** One task of the lease recovery: every expired row is doubted, and each time the
        task's status is refreshed. */
    method RecoverTask(tid: Id, now: Time)
      requires tid in tasks && TaskOk(tasks[tid])
      modifies `tasks
      ensures tasks == old(tasks)[tid := ExpireTask(old(tasks[tid]), now)]
    {
      hide Refresh;
      var n := |tasks[tid].steps|;
      ghost var t := tasks[tid];
      for i := 0 to n
        invariant tid in tasks && |tasks[tid].steps| == n == |t.steps|
        invariant tasks == old(tasks)[tid := WithSteps(t, tasks[tid].steps)]
        invariant forall j :: 0 <= j < n ==>
                    tasks[tid].steps[j] == if j < i then ExpireStep(t.steps[j], now) else t.steps[j]
      {
        var s := tasks[tid].steps[i];
        if s.status == Running && s.lease <= now {
          WriteStep(tid, i, s.(status := Uncertain, error := "lease_expired", claim := NO_ID));
          RefreshRow(tid);
        }
      }
      assert tasks[tid].steps == ExpireTask(t, now).steps;
    }

    /** The lease recovery at the start of every claim. */
    method RecoverExpired(now: Time)
      requires Valid()
      modifies `tasks
      ensures View() == Expire(old(View()), now)
    {
      hide Inv, ExpireTask, TaskOk, TasksGood;
      TasksOfView();
      var todo := tasks.Keys;
      while todo != {}
        invariant todo <= tasks.Keys == old(tasks).Keys
        invariant forall t :: t in old(tasks) ==>
                    tasks[t] == if t in todo then old(tasks)[t] else ExpireTask(old(tasks)[t], now)
        decreases |todo|
      {
        var tid :| tid in todo;
        RecoverTask(tid, now);
        todo := todo - {tid};
      }
      assert tasks == Expire(old(View()), now).tasks;
    }

    /** The candidate query: heads of active tasks, oldest task first. */
    method SelectCandidates(device: string) returns (rows: seq<Id>)
      ensures ClaimOrder(View(), device, rows)
    {
      hide Candidate;
      var matching := set t | t in tasks && Candidate(tasks[t], device);
      rows := OldestFirst(tasks, matching);
    }

    /** One candidate row of the claim loop: retired, refused, left waiting, or dispatched. */
    method TryCandidate(env: Env, tid: Id, worker: string, now: Time, lease: Time)
      returns (claimed: Option<Claimed>)
      requires tid in tasks && Head(tasks[tid].steps) < |tasks[tid].steps|
      modifies `tasks, `next
      ensures View() == Attempt(old(View()), env, tid, worker, now, lease)
      ensures claimed == if Judge(old(View()), env, tid, now).Dispatch?
                         then Some(Claimed(tid, Head(old(tasks[tid]).steps), old(next))) else None
    {
      hide Judge, WithStep, Settle;
      var pos := Head(tasks[tid].steps);
      var verdict := Examine(env, tid, now);
      match verdict {
        case Dispatch =>
          DispatchIsApproved(View(), env, tid, now);
          var token := HandOut(tid, pos, worker, lease);
          return Some(Claimed(tid, pos, token));
        case _ =>
          Decline(tid, pos, verdict, worker, lease);
          return None;
      }
    }

    /** Why the next step may or may not be dispatched now. */
    method Examine(env: Env, tid: Id, now: Time) returns (v: Verdict)
      requires tid in tasks && Head(tasks[tid].steps) < |tasks[tid].steps|
      ensures v == Judge(View(), env, tid, now)
    {
      hide ParentAllows, Validate, Head;
      var t := tasks[tid];
      var s := t.steps[Head(t.steps)];
      if !ParentAllows(runs, tid, now) { return Drop; }
      if !env.authority(t.channel, t.actor, MEMBERS) { return Refuse("authority_revoked"); }
      var origin := TaskOrigin(events, t, s.call);
      if origin.Err? {
        return Refuse(if origin.error == NotFound then "conversation_unknown" else "policy_changed");
      }
      var validated := ValidatePlan(env, t.agent, [s.call], origin.value);
      if validated.Err? {
        return Refuse(if validated.error == NotFound then "conversation_unknown" else "policy_changed");
      }
      if validated.value[0] != s.fp { return Refuse("policy_changed"); }
      if s.needed {
        if s.approval.None? || s.approval.value.fp != s.fp || s.approval.value.expires <= now {
          return Refuse("approval_expired_or_invalid");
        }
        if s.approval.value.status != Approved { return Wait; }
        var required := if env.policies[t.agent].rules.approverRole == "owner" then OWNERS else MEMBERS;
        if !env.authority("approval", s.approval.value.actor, required) { return Refuse("approver_revoked"); }
      }
      return Dispatch;
    }

    /** The writes for a candidate that is not dispatched. */
    method Decline(tid: Id, pos: nat, v: Verdict, worker: string, lease: Time)
      requires tid in tasks && pos < |tasks[tid].steps| && !v.Dispatch?
      modifies `tasks
      ensures var t := old(tasks[tid]);
              tasks == old(tasks)[tid := WithStep(t, pos, Settle(t.steps[pos], v, old(next), worker, lease))]
    {
      hide WithStep;
      var t := tasks[tid];
      var s := t.steps[pos];
      match v
      case Drop =>
        var row := s.(status := Cancelled, claim := NO_ID, lease := 0.0, error := "agent_run_inactive");
        WriteStep(tid, pos, row);
        var withdrawn := row.(approval := RejectApproval(row.approval, Some("agent-loop")));
        WriteAndRefresh(tid, pos, withdrawn);
        LastWriteStands(t, pos, row, withdrawn);
      case Refuse(error) =>
        WriteAndRefresh(tid, pos, s.(status := Failed, error := error));
      case Wait =>
        WriteAndRefresh(tid, pos, s.(status := WaitingApproval));
    }

    /** The last writes of a claim: the approval is consumed, the step runs under a new token. */
    method HandOut(tid: Id, pos: nat, worker: string, lease: Time) returns (token: Id)
      requires tid in tasks && pos < |tasks[tid].steps|
      requires tasks[tid].steps[pos].needed ==> tasks[tid].steps[pos].approval.Some?
      modifies `tasks, `next
      ensures token == old(next) && next == old(next) + 1
      ensures var t := old(tasks[tid]);
              tasks == old(tasks)[tid := WithStep(t, pos, Settle(t.steps[pos], Dispatch, token, worker, lease))]
    {
      hide WithStep;
      var t := tasks[tid];
      var row := t.steps[pos];
      if row.needed {
        row := row.(approval := Some(row.approval.value.(status := Consumed)));
        WriteStep(tid, pos, row);
      } else {
        assert t.(steps := t.steps[pos := row]) == t;
      }
      token := next;
      next := next + 1;
      var running := row.(status := Running, claim := token, worker := worker, lease := lease,
                          attempts := row.attempts + 1);
      WriteAndRefresh(tid, pos, running);
      LastWriteStands(t, pos, row, running);
    }

    /** `claim`. The ghost result is the order in which the candidate query returned its
        rows; a revoked device raises, and the whole transaction is rolled back. */
    method Claim(env: Env, worker: string, device: string, now: Time, leaseSeconds: int)
      returns (r: Result<Option<Claimed>>, ghost order: seq<Id>)
      requires Valid()
      modifies `tasks, `next
      ensures Valid()
      ensures ClaimGate(old(View()), env, worker, device, now, leaseSeconds).None? ==>
                ClaimOrder(Expire(old(View()), now), device, order)
      ensures var tx := EngineSpec.Claim(old(View()), env, worker, device, now, leaseSeconds, order);
              View() == tx.db && r == tx.out
    {
      hide Inv, TasksMove, TasksGood, SameDispatches, TaskOk, Expire, TryInOrder, Judge, Attempt, Candidates;
      TasksOfView();
      order := [];
      if worker == "" || !(5 <= leaseSeconds <= 600) { return Err(Invalid), []; }
      var saved := tasks;
      ExpireKeepsInv(View(), now);
      RecoverExpired(now);
      if frozen || !env.authority("", "", MEMBERS) { return Ok(None), []; }
      if device != "" && (device !in devices || devices[device].revoked) {
        tasks := saved;
        return Err(Forbidden), [];
      }
      var rows := SelectCandidates(device);
      order := rows;
      ClaimKeeps(old(View()), env, worker, device, now, leaseSeconds, order);
      TasksMoveKeeps(old(View()), EngineSpec.Claim(old(View()), env, worker, device, now, leaseSeconds, order).db);
      ghost var start := View();
      var lease := now + leaseSeconds as real;
      var claimed := TryRows(env, device, worker, now, lease, rows);
      return Ok(claimed), rows;
    }

    /** The candidate loop: stop at the first row dispatched. */
    method TryRows(env: Env, device: string, worker: string, now: Time, lease: Time, rows: seq<Id>)
      returns (claimed: Option<Claimed>)
      requires Candidates(View(), device, rows)
      modifies `tasks, `next
      ensures (View(), claimed) == TryInOrder(old(View()), env, device, worker, now, lease, rows)
    {
      hide Judge, Attempt, Candidate;
      var k := 0;
      while k < |rows|
        invariant k <= |rows| && Candidates(View(), device, rows[k..])
        invariant TryInOrder(old(View()), env, device, worker, now, lease, rows)
               == TryInOrder(View(), env, device, worker, now, lease, rows[k..])
      {
        ghost var before := View();
        assert rows[k..][0] == rows[k] && rows[k..][1..] == rows[k + 1..];
        HeadOfCandidate(before, device, rows[k..]);
        claimed := TryCandidate(env, rows[k], worker, now, lease);
        if claimed.Some? { return; }
        RestStayCandidates(before, env, device, worker, now, lease, rows[k..]);
        k := k + 1;
      }
      claimed := None;
    }

    // --------------------------------------------------------- reports and operators

    method Finish(tid: Id, pos: nat, token: Id, result: string, report: Report, error: string, now: Time)
      returns (r: Result<()>)
      requires Valid()
      modifies `tasks
      ensures Valid()
      ensures var tx := EngineSpec.Finish(old(View()), tid, pos, token, result, report, error, now);
              View() == tx.db && r == tx.out
    {
      hide Inv, TasksMove, TasksGood, SameDispatches, TaskOk, WithStep;
      TasksOfView();
      FinishKeeps(View(), tid, pos, token, result, report, error, now);
      TasksMoveKeeps(View(), EngineSpec.Finish(View(), tid, pos, token, result, report, error, now).db);
      if |result| > MAX_RESULT_CHARS { return Err(Invalid); }
      if tid !in tasks || pos >= |tasks[tid].steps| { return Err(Conflict); }
      var s := tasks[tid].steps[pos];
      if s.claim != token || s.status != Running || s.lease <= now { return Err(Conflict); }
      WriteAndRefresh(tid, pos, s.(status := ReportStatus(report), result := result,
                                   error := Cut(error, MAX_ERROR_CHARS), claim := NO_ID, lease := 0.0));
      return Ok(());
    }

    method Cancel(env: Env, tid: Id, actor: string) returns (r: Result<()>)
      requires Valid()
      modifies `tasks
      ensures Valid()
      ensures var tx := EngineSpec.Cancel(old(View()), env, tid, actor);
              View() == tx.db && r == tx.out
    {
      hide Inv, TasksMove, TasksGood, SameDispatches, TaskOk, CancelTask;
      TasksOfView();
      CancelKeeps(View(), env, tid, actor);
      TasksMoveKeeps(View(), EngineSpec.Cancel(View(), env, tid, actor).db);
      if !env.authority("web", actor, MEMBERS) { return Err(Forbidden); }
      if tid !in tasks { return Err(NotFound); }
      if tasks[tid].status in {Succeeded, Failed, Cancelled} { return Err(Conflict); }
      CancelRows(tid);
      return Ok(());
    }

    /** The two updates of `cancel`: first the open steps, then every unused approval. */
    method CancelRows(tid: Id)
      requires tid in tasks
      modifies `tasks
      ensures tasks == old(tasks)[tid := CancelTask(old(tasks[tid]))]
    {
      hide Refresh;
      ghost var t := tasks[tid];
      var n := |tasks[tid].steps|;
      for i := 0 to n
        invariant tid in tasks && |tasks[tid].steps| == n
        invariant tasks == old(tasks)[tid := t.(steps := tasks[tid].steps)]
        invariant forall j :: 0 <= j < n ==> tasks[tid].steps[j] == if j < i then Retire(t.steps[j]) else t.steps[j]
      {
        var s := tasks[tid].steps[i];
        if s.status in {Queued, WaitingApproval, Running} {
          WriteStep(tid, i, s.(status := if s.status == Running then Uncertain else Cancelled, claim := NO_ID));
        }
      }
      for i := 0 to n
        invariant tid in tasks && |tasks[tid].steps| == n
        invariant tasks == old(tasks)[tid := t.(steps := tasks[tid].steps)]
        invariant forall j :: 0 <= j < n ==>
                    tasks[tid].steps[j] == if j < i then CancelStep(t.steps[j]) else Retire(t.steps[j])
      {
        RejectUnused(tid, i, None);
      }
      RefreshRow(tid);
      assert tasks[tid].steps == CancelTask(t).steps;
    }

    /** `UPDATE p_approvals SET status='rejected' ... WHERE status IN ('pending','approved')`. */
    method RejectUnused(tid: Id, pos: nat, actor: Option<string>)
      requires tid in tasks && pos < |tasks[tid].steps|
      modifies `tasks
      ensures var s := old(tasks[tid]).steps[pos];
              tasks == old(tasks)[tid := old(tasks[tid]).(steps :=
                old(tasks[tid]).steps[pos := s.(approval := RejectApproval(s.approval, actor))])]
    {
      var s := tasks[tid].steps[pos];
      if s.approval.Some? && s.approval.value.status in {Pending, Approved} {
        var a := s.approval.value.(status := Rejected);
        if actor.Some? { a := a.(actor := actor.value); }
        WriteStep(tid, pos, s.(approval := Some(a)));
      } else {
        assert old(tasks[tid]).steps[pos := s] == old(tasks[tid]).steps;
      }
    }

    method Reconcile(env: Env, tid: Id, pos: nat, actor: string, role: string, succeeded: bool, evidence: string)
      returns (r: Result<()>)
      requires Valid()
      modifies `tasks
      ensures Valid()
      ensures var tx := EngineSpec.Reconcile(old(View()), env, tid, pos, actor, role, succeeded, evidence);
              View() == tx.db && r == tx.out
    {
      hide Inv, TasksMove, TasksGood, SameDispatches, TaskOk, WithStep;
      TasksOfView();
      ReconcileKeeps(View(), env, tid, pos, actor, role, succeeded, evidence);
      TasksMoveKeeps(View(), EngineSpec.Reconcile(View(), env, tid, pos, actor, role, succeeded, evidence).db);
      if role !in {"owner", "super-admin"} { return Err(Forbidden); }
      if Blank(evidence) || |evidence| > MAX_EVIDENCE_CHARS { return Err(Invalid); }
      if !env.authority("web", actor, OWNERS) { return Err(Forbidden); }
      if tid !in tasks || pos >= |tasks[tid].steps| || tasks[tid].steps[pos].status != Uncertain {
        return Err(Conflict);
      }
      var s := tasks[tid].steps[pos];
      WriteAndRefresh(tid, pos, s.(status := if succeeded then Succeeded else Failed, error := "operator_reconciled"));
      return Ok(());
    }

    /** `freeze`. Only tasks with a running step are refreshed, which is enough: the
        others' statuses already agree with their steps. */
    method Freeze(env: Env, stopped: bool, actor: string) returns (r: Result<()>)
      requires Valid()
      modifies `tasks, `frozen
      ensures Valid()
      ensures var tx := EngineSpec.Freeze(old(View()), env, stopped, actor);
              View() == tx.db && r == tx.out
    {
      hide Inv, TasksMove, TasksGood, SameDispatches, TaskOk, FreezeTask;
      TasksOfView();
      FreezeKeeps(View(), env, stopped, actor);
      TasksMoveKeeps(View(), EngineSpec.Freeze(View(), env, stopped, actor).db);
      if !env.authority("web", actor, OWNERS) { return Err(Forbidden); }
      frozen := stopped;
      if stopped {
        FreezeRows();
        assert tasks == EngineSpec.Freeze(old(View()), env, stopped, actor).db.tasks;
      }
      return Ok(());
    }

    method FreezeRows()
      requires forall t :: t in tasks ==> TaskOk(tasks[t])
      modifies `tasks
      ensures tasks.Keys == old(tasks).Keys && forall t :: t in tasks ==> tasks[t] == FreezeTask(old(tasks)[t])
    {
      hide TaskOk, FreezeTask, UpdatedRows, WithSteps, Has;
      var active := set t | t in tasks && Has(tasks[t].steps, Running);
      var running := (s: Step) => s.status == Running;
      var doubt := (s: Step) => s.(status := Uncertain, claim := NO_ID, error := "tenant_frozen_during_execution");
      UpdateSteps(running, doubt);
      RefreshEach(active);
      forall t | t in tasks ensures tasks[t] == FreezeTask(old(tasks)[t]) {
        FreezeByRows(old(tasks)[t], running, doubt);
      }
    }

    /** `device`: enrolling or revoking a device withdraws everything bound to it. */
    method EnrollDevice(env: Env, device: string, revoked: bool, actor: string) returns (r: Result<nat>)
      requires Valid()
      modifies `tasks, `devices
      ensures Valid()
      ensures var tx := EngineSpec.EnrollDevice(old(View()), env, device, revoked, actor);
              View() == tx.db && r == tx.out
    {
      hide Inv, TasksMove, TasksGood, SameDispatches, TaskOk, UnbindDevice;
      TasksOfView();
      EnrollDeviceKeeps(View(), env, device, revoked, actor);
      TasksMoveKeeps(View(), EngineSpec.EnrollDevice(View(), env, device, revoked, actor).db);
      if !DeviceName(device) { return Err(Invalid); }
      if !env.authority("web", actor, OWNERS) { return Err(Forbidden); }
      if !revoked && (!env.authority("", "", MEMBERS) || frozen) { return Err(Forbidden); }
      UnbindRows(device, actor);
      assert tasks == EngineSpec.EnrollDevice(old(View()), env, device, revoked, actor).db.tasks;
      var generation := if device in devices then devices[device].generation + 1 else 1;
      devices := devices[device := Device(revoked, generation)];
      return Ok(generation);
    }

    method UnbindRows(device: string, actor: string)
      requires forall t :: t in tasks ==> TaskOk(tasks[t])
      modifies `tasks
      ensures tasks.Keys == old(tasks).Keys
      ensures forall t :: t in tasks ==> tasks[t] == UnbindDevice(old(tasks)[t], device, actor)
    {
      hide TaskOk, UnbindDevice, UpdatedRows, WithSteps;
      var bound := (s: Step) => BoundTo(s, device);
      var reject := (s: Step) => WithdrawApproval(s, actor);
      var retire := (s: Step) => RetireBound(s);
      var affected := set t | t in tasks && exists i :: 0 <= i < |tasks[t].steps| && bound(tasks[t].steps[i]);
      UpdateSteps(bound, reject);
      UpdateSteps(bound, retire);
      RefreshEach(affected);
      forall t | t in tasks ensures tasks[t] == UnbindDevice(old(tasks)[t], device, actor) {
        UnbindByRows(old(tasks)[t], device, actor, bound, reject, retire);
      }
    }

    // ----------------------------------------------------------------- inbound events

    method AcceptEvent(env: Env, channel: string, key: string, p: Payload, overQuota: bool)
      returns (r: Result<bool>)
      requires Valid()
      modifies `events
      ensures Valid()
      ensures var tx := EngineSpec.AcceptEvent(old(View()), env, channel, key, p, overQuota);
              View() == tx.db && r == tx.out
    {
      hide Inv, Identity, Evolves;
      AcceptEventKeeps(View(), env, channel, key, p, overQuota);
      if !Identity(channel) || !Identity(key) { return Err(Invalid); }
      if !env.authority(channel, p.sender, MEMBERS) { return Err(Forbidden); }
      if (channel, key) in events {
        if events[(channel, key)].payload != p { return Err(Conflict); }
        return Ok(false);
      }
      if !env.authority("", "", MEMBERS) || frozen { return Err(Forbidden); }
      var pending := set k | k in events && PendingEvent(events[k]);
      assert pending == PendingEvents(View());
      if |pending| >= MAX_PENDING_EVENTS || overQuota { return Err(RateLimited); }
      events := events[(channel, key) := Event(p, EventPending, NO_ID, 0.0, NoOutcome, "", |events|)];
      return Ok(true);
    }

    /** `claim_event`: the next event due on a wanted channel, the one accepted first. */
    method ClaimEvent(now: Time, channels: Option<set<string>>, skip: set<string>)
      returns (r: Result<Option<Id>>, k: (string, string))
      requires Valid()
      modifies `events, `next
      ensures Valid()
      ensures r.Ok?
      ensures r.value.Some? ==>
                && NextEvent(old(View()), k, now, channels, skip)
                && var tx := EngineSpec.ClaimEvent(old(View()), k, now); View() == tx.db && r == tx.out
      ensures r.value.None? ==>
                && View() == old(View())
                && (frozen || forall e :: Claimable(View(), e, now) ==> !Wanted(e, channels, skip))
    {
      hide Inv, Evolves;
      k := ("", "");
      r := Ok(None);
      if frozen || channels == Some({}) { return; }
      var first := FirstDue(now, channels, skip);
      if first.Some? {
        k := first.value;
        ClaimEventKeeps(View(), k, now);
        var token := next;
        next := next + 1;
        events := events[k := events[k].(status := EventProcessing, claim := token,
                                         lease := now + EVENT_LEASE_SECONDS)];
        r := Ok(Some(token));
      }
    }

    /** The query of `claim_event`. */
    method FirstDue(now: Time, channels: Option<set<string>>, skip: set<string>)
      returns (k: Option<(string, string)>)
      ensures k.Some? ==> NextEvent(View(), k.value, now, channels, skip)
      ensures k.None? ==> forall e :: Claimable(View(), e, now) ==> !Wanted(e, channels, skip)
    {
      var due := set e | e in events && Claimable(View(), e, now) && Wanted(e, channels, skip);
      if due == {} {
        assert forall e :: Claimable(View(), e, now) && Wanted(e, channels, skip) ==> e in due;
        return None;
      }
      FirstArrived(events, due);
      var first :| first in due && forall e :: e in due ==> events[first].arrived <= events[e].arrived;
      return Some(first);
    }

    /** The closing write of `settle_event`. */
    method SettleEvent(k: (string, string), token: Id, outcome: Outcome, failure: Option<string>)
      requires Valid()
      modifies `events
      ensures Valid() && View() == EngineSpec.SettleEvent(old(View()), k, token, outcome, failure)
    {
      hide Inv, Evolves;
      SettleEventKeeps(View(), k, token, outcome, failure);
      if k in events && events[k].claim == token {
        var done := events[k].(claim := NO_ID, lease := 0.0);
        match failure {
          case None => done := done.(status := EventDone, outcome := outcome, error := "");
          case Some(error) => done := done.(status := EventFailed, outcome := NoOutcome, error := error);
        }
        events := events[k := done];
      }
    }

    method RetryEvent(env: Env, k: (string, string), actor: string) returns (r: Result<()>)
      requires Valid()
      modifies `events
      ensures Valid()
      ensures var tx := EngineSpec.RetryEvent(old(View()), env, k, actor); View() == tx.db && r == tx.out
    {
      hide Inv, Evolves;
      RetryEventKeeps(View(), env, k, actor);
      if !env.authority("", "", MEMBERS) || frozen { return Err(Forbidden); }
      if !env.authority("web", actor, MEMBERS) { return Err(Forbidden); }
      if k in events && !env.authority(k.0, events[k].payload.sender, MEMBERS) { return Err(Forbidden); }
      if k !in events || events[k].status != EventFailed { return Err(Conflict); }
      events := events[k := events[k].(status := EventPending, error := "")];
      return Ok(());
    }
  }

  /** ORDER BY created. */
  lemma {:induction false} FirstArrived(events: map<(string, string), Event>, due: set<(string, string)>)
    requires due != {} && due <= events.Keys
    ensures exists k :: k in due && forall e :: e in due ==> events[k].arrived <= events[e].arrived
    decreases |due|
  {
    var k :| k in due;
    if due != {k} {
      FirstArrived(events, due - {k});
      var least :| least in due - {k} && forall e :: e in due - {k} ==> events[least].arrived <= events[e].arrived;
      var first := if events[k].arrived <= events[least].arrived then k else least;
      assert first in due && forall e :: e in due ==> events[first].arrived <= events[e].arrived;
    }
  }

  method OldestFirst(tasks: map<Id, Task>, ids: set<Id>) returns (rows: seq<Id>)
    requires ids <= tasks.Keys
    ensures forall t :: t in ids <==> t in rows
    ensures forall j, k :: 0 <= j < k < |rows| ==> rows[j] != rows[k]
    ensures forall k :: 0 <= k < |rows| ==> rows[k] in ids
    ensures forall j, k :: 0 <= j < k < |rows| ==> tasks[rows[j]].created <= tasks[rows[k]].created
  {
    var todo := ids;
    rows := [];
    while todo != {}
      invariant todo <= ids && forall t :: t in ids <==> t in todo || t in rows
      invariant forall k :: 0 <= k < |rows| ==> rows[k] in ids && rows[k] !in todo
      invariant forall j, k :: 0 <= j < k < |rows| ==> rows[j] != rows[k]
      invariant forall j, k :: 0 <= j < k < |rows| ==> tasks[rows[j]].created <= tasks[rows[k]].created
      invariant forall k, t :: 0 <= k < |rows| && t in todo ==> tasks[rows[k]].created <= tasks[t].created
      decreases |todo|
    {
      OldestExists(tasks, todo);
      var oldest :| oldest in todo && forall t :: t in todo ==> tasks[oldest].created <= tasks[t].created;
      rows := rows + [oldest];
      todo := todo - {oldest};
    }
  }

  /** The rows of a task an UPDATE qualifies, changed. */
  function UpdatedRows(t: Task, qualifies: Step -> bool, change: Step -> Step): Task {
    t.(steps := seq(|t.steps|, i requires 0 <= i < |t.steps| =>
                  if qualifies(t.steps[i]) then change(t.steps[i]) else t.steps[i]))
  }

  lemma LastWriteStands(t: Task, pos: nat, first: Step, second: Step)
    requires pos < |t.steps|
    ensures WithStep(t.(steps := t.steps[pos := first]), pos, second) == WithStep(t, pos, second)
  {
    assert t.steps[pos := first][pos := second] == t.steps[pos := second];
  }

  /** `freeze` refreshes only the tasks it changed, which is enough: the status of any
      other task already agrees with its steps. */
  lemma FreezeByRows(t: Task, running: Step -> bool, doubt: Step -> Step)
    requires TaskOk(t)
    requires forall s :: running(s) == (s.status == Running)
    requires forall s :: doubt(s) == Doubt(s, "tenant_frozen_during_execution")
    ensures var t' := UpdatedRows(t, running, doubt);
            FreezeTask(t) == if Has(t.steps, Running) then WithSteps(t', t'.steps) else t'
  {
    hide Ordered, StepOk;
    assert UpdatedRows(t, running, doubt).steps == FreezeTask(t).steps;
    if !Has(t.steps, Running) {
      assert FreezeTask(t).steps == t.steps;
    }
  }

  predicate BoundTo(s: Step, device: string) {
    s.call.device == device && s.status in {Queued, WaitingApproval, Running}
  }

  function WithdrawApproval(s: Step, actor: string): Step {
    s.(approval := RejectApproval(s.approval, Some(actor)))
  }

  function RetireBound(s: Step): Step {
    s.(status := if s.status == Running then Uncertain else Cancelled, claim := NO_ID, lease := 0.0,
       error := "device_enrollment_changed")
  }

  lemma UnbindByRows(
    t: Task, device: string, actor: string, bound: Step -> bool, reject: Step -> Step, retire: Step -> Step)
    requires TaskOk(t)
    requires forall s :: bound(s) == BoundTo(s, device)
    requires forall s :: reject(s) == WithdrawApproval(s, actor)
    requires forall s :: retire(s) == RetireBound(s)
    ensures var t' := UpdatedRows(UpdatedRows(t, bound, reject), bound, retire);
            UnbindDevice(t, device, actor)
            == if exists i :: 0 <= i < |t.steps| && bound(t.steps[i]) then WithSteps(t', t'.steps) else t'
  {
    hide TaskOk, Refresh, BoundTo, WithdrawApproval, RetireBound, UnbindStep;
    var t' := UpdatedRows(UpdatedRows(t, bound, reject), bound, retire);
    StatusAgrees(t);
    forall i | 0 <= i < |t.steps|
      ensures t'.steps[i] == UnbindStep(t.steps[i], device, actor)
      ensures !bound(t.steps[i]) ==> t'.steps[i] == t.steps[i]
    {
      UnbindOneRow(t.steps[i], device, actor);
    }
    assert t'.steps == UnbindDevice(t, device, actor).steps;
    if !exists i :: 0 <= i < |t.steps| && bound(t.steps[i]) {
      assert t'.steps == t.steps;
    }
  }

  lemma UnbindOneRow(s: Step, device: string, actor: string)
    ensures var mid := if BoundTo(s, device) then WithdrawApproval(s, actor) else s;
            UnbindStep(s, device, actor) == (if BoundTo(mid, device) then RetireBound(mid) else mid)
            && (BoundTo(mid, device) <==> BoundTo(s, device))
  {
  }

  lemma StatusAgrees(t: Task)
    requires TaskOk(t)
    ensures t.status == Refresh(t.steps)
  {
  }

  lemma ExpireKeepsInv(db: Db, now: Time)
    requires Inv(db)
    ensures Inv(Expire(db, now))
  {
    hide Inv, TasksMove, TasksGood, SameDispatches, Expire;
    assert TasksGood(db) by { GoodTasks(db); }
    ExpireKeeps(db, now);
    TasksMoveKeeps(db, Expire(db, now));
  }

  lemma GoodTasks(db: Db)
    requires Inv(db)
    ensures TasksGood(db)
  {
  }

  lemma HeadOfCandidate(db: Db, device: string, rows: seq<Id>)
    requires Candidates(db, device, rows) && rows != []
    ensures rows[0] in db.tasks && Head(db.tasks[rows[0]].steps) < |db.tasks[rows[0]].steps|
  {
  }

  lemma {:induction false} OldestExists(tasks: map<Id, Task>, ids: set<Id>)
    requires ids != {} && forall t :: t in ids ==> t in tasks
    ensures exists t :: t in ids && forall u :: u in ids ==> tasks[t].created <= tasks[u].created
  {
    var t :| t in ids;
    if ids != {t} {
      OldestExists(tasks, ids - {t});
      var o :| o in ids - {t} && forall u :: u in ids - {t} ==> tasks[o].created <= tasks[u].created;
      var first := if tasks[t].created <= tasks[o].created then t else o;
      forall u | u in ids ensures tasks[first].created <= tasks[u].created {
        assert u == t || u in ids - {t};
      }
    }
  }

  /** The task status `_refresh` writes, computed from the list of step states. */
  method StatusOf(steps: seq<Step>) returns (status: Status)
    ensures status == Refresh(steps)
  {
    var states: seq<Status> := [];
    for i := 0 to |steps|
      invariant |states| == i && forall j :: 0 <= j < i ==> states[j] == steps[j].status
    {
      states := states + [steps[i].status];
    }
    assert forall s: Status :: s in states <==> Has(steps, s);
    if Uncertain in states { return Uncertain; }
    if Failed in states { return Failed; }
    if Cancelled in states { return Cancelled; }
    if forall i :: 0 <= i < |states| ==> states[i] == Succeeded { return Succeeded; }
    if Running in states { return Running; }
    if WaitingApproval in states { return WaitingApproval; }
    return Queued;
  }

  lemma TasksAreKeyed(db: Db)
    requires Inv(db)
    ensures forall t, u :: t in db.tasks && u in db.tasks && SameKey(db.tasks[t], db.tasks[u]) ==> t == u
  {
    hide RunsOk, TurnsOk, QueueOk, HistoryOk, HandoffsOk, TaskOk, DestinationBound;
  }
}
