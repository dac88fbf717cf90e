/** What each transaction of the engine does to the store, as a function of the store.
    A transaction that raises leaves the store as it was: `Tx(db, Err(e))`. */
module EngineSpec {
  import opened Basics
  import opened Authorization
  import opened Tasks
  import opened Store

  datatype Tx<T> = Tx(db: Db, out: Result<T>)

  const MAX_PENDING_TASKS := 1000
  const MAX_PENDING_EVENTS := 1000
  const MAX_IDENTITY_CHARS := 256
  const APPROVAL_SECONDS: Time := 86400.0
  const EVENT_LEASE_SECONDS: Time := 120.0
  const MAX_RESULT_CHARS := 100000
  const MAX_ERROR_CHARS := 200
  const MAX_EVIDENCE_CHARS := 500

  predicate Identity(s: string) { 0 < |s| <= MAX_IDENTITY_CHARS }

  /** `not s.strip()`, for the whitespace of ASCII. */
  predicate Blank(s: string) { forall c :: c in s ==> IsSpace(c) }

  function Cut(s: string, max: nat): string { if |s| <= max then s else s[..max] }

  /** `require_active`: the tenant's own authority, and not frozen. */
  predicate Active(db: Db, env: Env) { env.authority("", "", MEMBERS) && !db.frozen }

  // --------------------------------------------------------------------- origins

  function OriginOf(events: map<(string, string), Event>, channel: string, key: Key): Origin {
    if channel in OUTBOUND_CHANNELS && key.External? && (channel, key.text) in events
    then EventOrigin(channel, events[(channel, key.text)].payload.conversation)
    else NoOrigin
  }

  /** The channel a send tool writes to: the tool's name without its `.send` suffix. */
  function ChannelOf(tool: string): (channel: string)
    requires Outbound(tool)
    ensures channel in OUTBOUND_CHANNELS && tool == SendTool(channel)
  {
    assert "telegram.send"[..8] == "telegram" && "instagram.send"[..9] == "instagram"
        && "whatsapp.send"[..8] == "whatsapp";
    tool[..|tool| - 5]
  }

  function OperatorOriginOf(events: map<(string, string), Event>, call: Call): (r: Result<Origin>)
    ensures r.Ok? ==>
              && r.value.OperatorOrigin? && Outbound(call.tool)
              && r.value.replyChannel == ChannelOf(call.tool)
              && Recipient(call) == Some(r.value.target)
              && KnownConversation(events, r.value.replyChannel, r.value.target)
  {
    if !Outbound(call.tool) then Err(Forbidden)
    else
      var target := Recipient(call);
      if target.None? || target.value == "" then Err(Invalid)
      else if !KnownConversation(events, ChannelOf(call.tool), target.value) then Err(NotFound)
      else Ok(OperatorOrigin(ChannelOf(call.tool), target.value))
  }

  /** `_task_origin`: what a claimed step is validated against once more. */
  function TaskOrigin(events: map<(string, string), Event>, t: Task, call: Call): Result<Origin> {
    if t.channel == OPERATOR_CHANNEL then OperatorOriginOf(events, call)
    else Ok(OriginOf(events, t.channel, t.key))
  }

  // ---------------------------------------------------------------------- submit

  /** The engine's own destination rule for one outbound step of a submitted plan. */
  predicate DestinationAllowed(rules: Rules, channel: string, origin: Origin, call: Call) {
    Outbound(call.tool) ==>
      if channel in OUTBOUND_CHANNELS then
        origin.EventOrigin? && call.tool == SendTool(channel) && origin.conversation == Recipient(call)
      else Allowlisted(rules, Recipient(call))
  }

  function FreshStep(fp: Fingerprint, approver: string, now: Time): Step {
    Step(fp.call, fp.approval, fp, Queued, NO_ID, "", 0.0, 0, "{}", "",
         if fp.approval
         then Some(Approval(fp, if approver == "" then Pending else Approved, approver, now + APPROVAL_SECONDS))
         else None)
  }

  function FreshSteps(fps: seq<Fingerprint>, approver: string, now: Time): seq<Step> {
    seq(|fps|, i requires 0 <= i < |fps| => FreshStep(fps[i], approver, now))
  }

  function PendingTasks(db: Db): set<Id> {
    set t | t in db.tasks && Open(db.tasks[t].status)
  }

  predicate KeyTaken(db: Db, channel: string, key: Key) {
    exists t :: t in db.tasks && db.tasks[t].channel == channel && db.tasks[t].key == key
  }

  /** The task holding an idempotency key. Unique under the invariant. */
  ghost function TaskByKey(db: Db, channel: string, key: Key): (t: Id)
    requires KeyTaken(db, channel, key)
    ensures t in db.tasks && db.tasks[t].channel == channel && db.tasks[t].key == key
  {
    var t :| t in db.tasks && db.tasks[t].channel == channel && db.tasks[t].key == key;
    t
  }

  /** `_create_task`: the idempotent half of every submission. */
  ghost function CreateTask(
    db: Db, env: Env, channel: string, key: Key, agent: string, plan: seq<Call>, actor: string,
    fps: seq<Fingerprint>, approver: string, now: Time): Tx<Id>
  {
    if !env.authority(channel, actor, MEMBERS) then Tx(db, Err(Forbidden))
    else if KeyTaken(db, channel, key) then
      var t := TaskByKey(db, channel, key);
      if db.tasks[t].agent == agent && db.tasks[t].plan == plan then Tx(db, Ok(t)) else Tx(db, Err(Conflict))
    else if !Active(db, env) then Tx(db, Err(Forbidden))
    else if |PendingTasks(db)| >= MAX_PENDING_TASKS then Tx(db, Err(RateLimited))
    else
      var steps := FreshSteps(fps, approver, now);
      var t := Task(channel, key, agent, plan, actor, Refresh(steps), now, steps);
      Tx(db.(tasks := db.tasks[db.next := t], next := db.next + 1), Ok(db.next))
  }

  /** `Engine._submit`. */
  ghost function Submit(
    db: Db, env: Env, channel: string, key: Key, agent: string, plan: seq<Call>, actor: string,
    now: Time): Tx<Id>
  {
    if !(Identity(channel) && (key.External? ==> Identity(key.text)) && Identity(agent) && Identity(actor))
    then Tx(db, Err(Invalid))
    else if channel == OPERATOR_CHANNEL then Tx(db, Err(Forbidden))
    else
      var origin := OriginOf(db.events, channel, key);
      match Validate(env, agent, plan, origin)
      case Err(e) => Tx(db, Err(e))
      case Ok(fps) =>
        if exists k :: 0 <= k < |plan|
             && !DestinationAllowed(env.policies[agent].rules, channel, origin, plan[k])
        then Tx(db, Err(Forbidden))
        else CreateTask(db, env, channel, key, agent, plan, actor, fps, "", now)
  }

  const OPERATOR_REPLY_PREFIX := "operator-reply:"

  predicate ReplyKey(key: string) { key != "" && |OPERATOR_REPLY_PREFIX| + |key| <= MAX_IDENTITY_CHARS }

  function ApproverRoles(rules: Rules): set<string> {
    if rules.approverRole == "owner" then OWNERS else MEMBERS
  }

  /** `Engine.operator_reply`: one send a human has already decided. */
  ghost function ReplyAsOperator(
    db: Db, env: Env, channel: string, conversation: string, text: string,
    actor: string, role: string, key: string, agent: string, now: Time): Tx<Id>
  {
    if channel !in OUTBOUND_CHANNELS then Tx(db, Err(Invalid))
    else if role !in MEMBERS then Tx(db, Err(Forbidden))
    else if !(Identity(actor) && Identity(agent) && Identity(conversation)) || !ReplyKey(key) || Blank(text)
         || |text| > 4000
    then Tx(db, Err(Invalid))
    else
      var call := ReplyCall(channel, conversation, text);
      if agent !in env.policies then Tx(db, Err(Forbidden))
      else
        var rules := env.policies[agent].rules;
        if role !in ApproverRoles(rules) || !env.authority("approval", actor, ApproverRoles(rules))
        then Tx(db, Err(Forbidden))
        else
          match OperatorOriginOf(db.events, call)
          case Err(e) => Tx(db, Err(e))
          case Ok(origin) =>
            match Validate(env, agent, [call], origin)
            case Err(e) => Tx(db, Err(e))
            case Ok(fps) =>
              CreateTask(db, env, OPERATOR_CHANNEL, OperatorReply(key), agent, [call], actor, fps,
                         if rules.independentApproval then "" else actor, now)
  }

  /** The one call of a reply: the channel's send tool, addressed to one conversation. */
  function ReplyCall(channel: string, conversation: string, text: string): (c: Call)
    requires channel in OUTBOUND_CHANNELS
    ensures Outbound(c.tool) && c.tool == SendTool(channel) && Recipient(c) == Some(conversation)
    ensures "text" in c.args && c.args["text"] == text && |c.args| == 2 && c.device == ""
  {
    assert SendTool("telegram") == "telegram.send" && SendTool("instagram") == "instagram.send"
        && SendTool("whatsapp") == "whatsapp.send";
    Call(SendTool(channel),
         map["text" := text][DestinationField(SendTool(channel)).value := conversation], "")
  }

  // ------------------------------------------------------- stepwise task changes

  function MapSteps(t: Task, f: Step -> Step): Task {
    WithSteps(t, seq(|t.steps|, i requires 0 <= i < |t.steps| => f(t.steps[i])))
  }

  function RejectApproval(a: Option<Approval>, actor: Option<string>): Option<Approval> {
    if a.Some? && (a.value.status.Pending? || a.value.status.Approved?)
    then Some(a.value.(status := Rejected, actor := if actor.Some? then actor.value else a.value.actor))
    else a
  }

  /** A running step whose worker is no longer trusted to report. */
  function Doubt(s: Step, error: string): Step {
    s.(status := Uncertain, claim := NO_ID, error := error)
  }

  function ExpireStep(s: Step, now: Time): Step {
    if s.status.Running? && s.lease <= now then Doubt(s, "lease_expired") else s
  }

  function FreezeStep(s: Step): Step {
    if s.status.Running? then Doubt(s, "tenant_frozen_during_execution") else s
  }

  /** Stop what is still open: running becomes uncertain, the rest is cancelled. */
  function Retire(s: Step): Step {
    if Open(s.status) then s.(status := if s.status.Running? then Uncertain else Cancelled, claim := NO_ID)
    else s
  }

  function CancelStep(s: Step): Step {
    Retire(s).(approval := RejectApproval(s.approval, None))
  }

  function UnbindStep(s: Step, device: string, actor: string): Step {
    if s.call.device == device && Open(s.status)
    then Retire(s).(lease := 0.0, error := "device_enrollment_changed",
                    approval := RejectApproval(s.approval, Some(actor)))
    else s
  }

  /** `AgentLoop._stop` on one step of the linked task: retire it if the task is active,
      and in any case withdraw an approval that was not used. */
  function StopStep(s: Step, active: bool, reason: string, actor: string): Step {
    (if active && Open(s.status) then Retire(s).(lease := 0.0, error := reason) else s)
      .(approval := RejectApproval(s.approval, Some(actor)))
  }

  function ExpireTask(t: Task, now: Time): Task { MapSteps(t, s => ExpireStep(s, now)) }

  function FreezeTask(t: Task): Task { MapSteps(t, s => FreezeStep(s)) }

  function CancelTask(t: Task): Task { MapSteps(t, s => CancelStep(s)) }

  function UnbindDevice(t: Task, device: string, actor: string): Task {
    MapSteps(t, s => UnbindStep(s, device, actor))
  }

  function StopTask(t: Task, reason: string, actor: string): Task {
    MapSteps(t, s => StopStep(s, Open(t.status), reason, actor))
  }

  // --------------------------------------------------------------------- approve

  /** `require_task_parent`: the run linked to this task, if any, waits for exactly it. */
  predicate ParentAllows(runs: map<Id, Run>, tid: Id, now: Time) {
    forall r :: r in runs && LinksTask(runs[r], tid) ==>
      runs[r].status.WaitingTask? && runs[r].currentTask == tid && runs[r].deadline > now
  }

  function Approve(
    db: Db, env: Env, tid: Id, pos: nat, actor: string, approved: bool, role: string, now: Time): Tx<()>
  {
    if role !in {"owner", "operator", "super-admin"} then Tx(db, Err(Forbidden))
    else if tid !in db.tasks || pos >= |db.tasks[tid].steps| || db.tasks[tid].steps[pos].approval.None?
    then Tx(db, Err(NotFound))
    else
      var t := db.tasks[tid];
      var s := t.steps[pos];
      if !Active(db, env) || !ParentAllows(db.runs, tid, now) || t.agent !in env.policies
      then Tx(db, Err(Forbidden))
      else
        var rules := env.policies[t.agent].rules;
        if !env.authority("approval", actor, ApproverRoles(rules))
           || (approved && rules.independentApproval && actor == t.actor)
           || rules.approverRole !in MEMBERS
           || (rules.approverRole == "owner" && role !in {"owner", "super-admin"})
        then Tx(db, Err(Forbidden))
        else if !s.approval.value.status.Pending? || !Waiting(s.status) || s.approval.value.expires <= now
        then Tx(db, Err(Conflict))
        else
          var s' := s.(status := if approved then Queued else Cancelled,
                       approval := Some(s.approval.value.(
                         status := if approved then Approved else Rejected, actor := actor)));
          Tx(db.(tasks := db.tasks[tid := WithStep(t, pos, s')]), Ok(()))
  }

  // ----------------------------------------------------------------------- claim

  /** The first step that has not succeeded. */
  function Head(steps: seq<Step>): (h: nat)
    ensures h <= |steps|
    ensures forall j :: 0 <= j < h ==> steps[j].status == Succeeded
    ensures h < |steps| ==> steps[h].status != Succeeded
  {
    if steps == [] || steps[0].status != Succeeded then 0 else 1 + Head(steps[1..])
  }

  /** A row of the claim query: the head of an active task, waiting, for this device. */
  predicate Candidate(t: Task, device: string) {
    var h := Head(t.steps);
    Open(t.status) && h < |t.steps| && Waiting(t.steps[h].status) && t.steps[h].call.device == device
  }

  datatype Verdict = Drop | Refuse(error: string) | Wait | Dispatch

  /** The re-authorisation of a candidate, in the order of the source. */
  function Judge(db: Db, env: Env, tid: Id, now: Time): Verdict
    requires tid in db.tasks && Head(db.tasks[tid].steps) < |db.tasks[tid].steps|
  {
    var t := db.tasks[tid];
    var s := t.steps[Head(t.steps)];
    if !ParentAllows(db.runs, tid, now) then Drop
    else if !env.authority(t.channel, t.actor, MEMBERS) then Refuse("authority_revoked")
    else
      match TaskOrigin(db.events, t, s.call)
      case Err(e) => Refuse(if e == NotFound then "conversation_unknown" else "policy_changed")
      case Ok(origin) =>
        match Validate(env, t.agent, [s.call], origin)
        case Err(e) => Refuse(if e == NotFound then "conversation_unknown" else "policy_changed")
        case Ok(fps) =>
          if fps[0] != s.fp then Refuse("policy_changed")
          else if !s.needed then Dispatch
          else if s.approval.None? || s.approval.value.fp != s.fp || s.approval.value.expires <= now
          then Refuse("approval_expired_or_invalid")
          else if !s.approval.value.status.Approved? then Wait
          else if !env.authority("approval", s.approval.value.actor, ApproverRoles(env.policies[t.agent].rules))
          then Refuse("approver_revoked")
          else Dispatch
  }

  function Settle(s: Step, v: Verdict, token: Id, worker: string, lease: Time): Step {
    match v
    case Drop => s.(status := Cancelled, claim := NO_ID, lease := 0.0, error := "agent_run_inactive",
                    approval := RejectApproval(s.approval, Some("agent-loop")))
    case Refuse(error) => s.(status := Failed, error := error)
    case Wait => s.(status := WaitingApproval)
    case Dispatch =>
      s.(status := Running, claim := token, worker := worker, lease := lease, attempts := s.attempts + 1,
         approval := if s.needed && s.approval.Some? then Some(s.approval.value.(status := Consumed))
                     else s.approval)
  }

  /** The verdict on one candidate, written to the store. */
  function Attempt(db: Db, env: Env, tid: Id, worker: string, now: Time, lease: Time): Db
    requires tid in db.tasks && Head(db.tasks[tid].steps) < |db.tasks[tid].steps|
  {
    var t := db.tasks[tid];
    var h := Head(t.steps);
    var v := Judge(db, env, tid, now);
    db.(tasks := db.tasks[tid := WithStep(t, h, Settle(t.steps[h], v, db.next, worker, lease))],
        next := if v.Dispatch? then db.next + 1 else db.next)
  }

  /** What a worker is handed: the step and the token that alone may report on it. */
  datatype Claimed = Claimed(task: Id, pos: nat, token: Id)

  predicate Candidates(db: Db, device: string, order: seq<Id>) {
    && (forall k :: 0 <= k < |order| ==> order[k] in db.tasks && Candidate(db.tasks[order[k]], device))
    && (forall j, k :: 0 <= j < k < |order| ==> order[j] != order[k])
  }

  /** Candidates are tried in order until one is dispatched. */
  function TryInOrder(
    db: Db, env: Env, device: string, worker: string, now: Time, lease: Time, order: seq<Id>)
    : (Db, Option<Claimed>)
    requires Candidates(db, device, order)
    decreases |order|
  {
    if order == [] then (db, None)
    else
      var tid := order[0];
      var db' := Attempt(db, env, tid, worker, now, lease);
      if Judge(db, env, tid, now).Dispatch?
      then (db', Some(Claimed(tid, Head(db.tasks[tid].steps), db.next)))
      else TryInOrder(db', env, device, worker, now, lease, order[1..])
  }

  function Expire(db: Db, now: Time): Db {
    db.(tasks := map t | t in db.tasks :: ExpireTask(db.tasks[t], now))
  }

  /** The query's order: every candidate, oldest task first. */
  predicate ClaimOrder(db: Db, device: string, order: seq<Id>) {
    && Candidates(db, device, order)
    && (forall t :: t in db.tasks && Candidate(db.tasks[t], device) ==> t in order)
    && (forall j, k :: 0 <= j < k < |order| ==> db.tasks[order[j]].created <= db.tasks[order[k]].created)
  }

  /** The gates before the candidate query. None: go on with it. */
  function ClaimGate(db: Db, env: Env, worker: string, device: string, now: Time, leaseSeconds: int)
    : Option<Tx<Option<Claimed>>>
  {
    if worker == "" || !(5 <= leaseSeconds <= 600) then Some(Tx(db, Err(Invalid)))
    else if db.frozen || !env.authority("", "", MEMBERS) then Some(Tx(Expire(db, now), Ok(None)))
    else if device != "" && (device !in db.devices || db.devices[device].revoked)
    then Some(Tx(db, Err(Forbidden)))  // raised inside the transaction: the expiry is rolled back
    else None
  }

  /** `Engine.claim`, for the order the candidate query returned. */
  function Claim(
    db: Db, env: Env, worker: string, device: string, now: Time, leaseSeconds: int, order: seq<Id>)
    : Tx<Option<Claimed>>
    requires ClaimGate(db, env, worker, device, now, leaseSeconds).None? ==>
               ClaimOrder(Expire(db, now), device, order)
  {
    var gate := ClaimGate(db, env, worker, device, now, leaseSeconds);
    if gate.Some? then gate.value
    else
      var (db', claimed) :=
        TryInOrder(Expire(db, now), env, device, worker, now, now + leaseSeconds as real, order);
      Tx(db', Ok(claimed))
  }

  // -------------------------------------------------------- finish and operators

  datatype Report = ReportSucceeded | ReportFailed | ReportUncertain

  function ReportStatus(r: Report): Status {
    match r case ReportSucceeded => Succeeded case ReportFailed => Failed case ReportUncertain => Uncertain
  }

  /** Whether this token holds this step now. */
  predicate Holds(db: Db, tid: Id, pos: nat, token: Id, now: Time) {
    tid in db.tasks && pos < |db.tasks[tid].steps|
    && var s := db.tasks[tid].steps[pos];
       s.claim == token && s.status.Running? && s.lease > now
  }

  function Finish(
    db: Db, tid: Id, pos: nat, token: Id, result: string, report: Report, error: string, now: Time): Tx<()>
  {
    if |result| > MAX_RESULT_CHARS then Tx(db, Err(Invalid))
    else if !Holds(db, tid, pos, token, now) then Tx(db, Err(Conflict))
    else
      var t := db.tasks[tid];
      var s := t.steps[pos].(status := ReportStatus(report), result := result,
                             error := Cut(error, MAX_ERROR_CHARS), claim := NO_ID, lease := 0.0);
      Tx(db.(tasks := db.tasks[tid := WithStep(t, pos, s)]), Ok(()))
  }

  function Cancel(db: Db, env: Env, tid: Id, actor: string): Tx<()> {
    if !env.authority("web", actor, MEMBERS) then Tx(db, Err(Forbidden))
    else if tid !in db.tasks then Tx(db, Err(NotFound))
    else if Final(db.tasks[tid].status) then Tx(db, Err(Conflict))
    else Tx(db.(tasks := db.tasks[tid := CancelTask(db.tasks[tid])]), Ok(()))
  }

  function Reconcile(
    db: Db, env: Env, tid: Id, pos: nat, actor: string, role: string, succeeded: bool, evidence: string)
    : Tx<()>
  {
    if role !in {"owner", "super-admin"} then Tx(db, Err(Forbidden))
    else if Blank(evidence) || |evidence| > MAX_EVIDENCE_CHARS then Tx(db, Err(Invalid))
    else if !env.authority("web", actor, OWNERS) then Tx(db, Err(Forbidden))
    else if tid !in db.tasks || pos >= |db.tasks[tid].steps|
         || !db.tasks[tid].steps[pos].status.Uncertain?
    then Tx(db, Err(Conflict))
    else
      var t := db.tasks[tid];
      var s := t.steps[pos].(status := if succeeded then Succeeded else Failed,
                             error := "operator_reconciled");
      Tx(db.(tasks := db.tasks[tid := WithStep(t, pos, s)]), Ok(()))
  }

  function Freeze(db: Db, env: Env, stopped: bool, actor: string): Tx<()> {
    if !env.authority("web", actor, OWNERS) then Tx(db, Err(Forbidden))
    else
      Tx(db.(frozen := stopped,
             tasks := if stopped then (map t | t in db.tasks :: FreezeTask(db.tasks[t])) else db.tasks),
         Ok(()))
  }

  /** `[A-Za-z0-9_-]{1,128}`. */
  predicate DeviceName(device: string) {
    && 1 <= |device| <= MAX_DEVICE_CHARS
    && forall c :: c in device ==>
         'A' <= c <= 'Z' || 'a' <= c <= 'z' || '0' <= c <= '9' || c == '_' || c == '-'
  }

  function EnrollDevice(db: Db, env: Env, device: string, revoked: bool, actor: string): Tx<nat> {
    if !DeviceName(device) then Tx(db, Err(Invalid))
    else if !env.authority("web", actor, OWNERS) then Tx(db, Err(Forbidden))
    else if !revoked && !Active(db, env) then Tx(db, Err(Forbidden))
    else
      var generation := if device in db.devices then db.devices[device].generation + 1 else 1;
      Tx(db.(tasks := map t | t in db.tasks :: UnbindDevice(db.tasks[t], device, actor),
             devices := db.devices[device := Device(revoked, generation)]),
         Ok(generation))
  }

  // --------------------------------------------------------------- inbound events

  predicate PendingEvent(e: Event) { e.status.EventPending? || e.status.EventProcessing? }

  function PendingEvents(db: Db): set<(string, string)> {
    set k | k in db.events && PendingEvent(db.events[k])
  }

  /** `accept_event`: true for a new event, false for an exact replay. */
  function AcceptEvent(db: Db, env: Env, channel: string, key: string, p: Payload, overQuota: bool): Tx<bool> {
    if !Identity(channel) || !Identity(key) then Tx(db, Err(Invalid))
    else if !env.authority(channel, p.sender, MEMBERS) then Tx(db, Err(Forbidden))
    else if (channel, key) in db.events then
      if db.events[(channel, key)].payload == p then Tx(db, Ok(false)) else Tx(db, Err(Conflict))
    else if !Active(db, env) then Tx(db, Err(Forbidden))
    else if |PendingEvents(db)| >= MAX_PENDING_EVENTS || overQuota then Tx(db, Err(RateLimited))
    else
      var event := Event(p, EventPending, NO_ID, 0.0, NoOutcome, "", |db.events|);
      Tx(db.(events := db.events[(channel, key) := event]), Ok(true))
  }

  /** A row `claim_event` may lease: pending, or processing under a lease that ran out. */
  predicate Claimable(db: Db, k: (string, string), now: Time) {
    k in db.events && (db.events[k].status.EventPending?
                       || (db.events[k].status.EventProcessing? && db.events[k].lease <= now))
  }

  /** The channels a claim is limited to, if any, and the ones it leaves out. */
  predicate Wanted(k: (string, string), channels: Option<set<string>>, skip: set<string>) {
    (channels.Some? ==> k.0 in channels.value) && k.0 !in skip
  }

  /** ... ORDER BY rowid LIMIT 1. */
  predicate NextEvent(db: Db, k: (string, string), now: Time, channels: Option<set<string>>, skip: set<string>) {
    && Claimable(db, k, now) && Wanted(k, channels, skip)
    && forall e :: e in db.events && Claimable(db, e, now) && Wanted(e, channels, skip) ==>
         db.events[k].arrived <= db.events[e].arrived
  }

  function ClaimEvent(db: Db, k: (string, string), now: Time): Tx<Option<Id>> {
    if db.frozen || !Claimable(db, k, now) then Tx(db, Ok(None))
    else Tx(db.(events := db.events[k := db.events[k].(status := EventProcessing, claim := db.next,
                                                      lease := now + EVENT_LEASE_SECONDS)],
                next := db.next + 1), Ok(Some(db.next)))
  }

  /** The last write of `settle_event`: only under the claim that leased the event. */
  function SettleEvent(db: Db, k: (string, string), token: Id, outcome: Outcome, failure: Option<string>): Db {
    if k !in db.events || db.events[k].claim != token then db
    else db.(events := db.events[k := SettledEvent(db.events[k], outcome, failure)])
  }

  /** A settled event: its outcome, or nothing but the reason it failed for. */
  function SettledEvent(e: Event, outcome: Outcome, failure: Option<string>): Event {
    match failure
    case None => e.(status := EventDone, outcome := outcome, error := "", claim := NO_ID, lease := 0.0)
    case Some(error) => e.(status := EventFailed, outcome := NoOutcome, error := error, claim := NO_ID, lease := 0.0)
  }

  function RetryEvent(db: Db, env: Env, k: (string, string), actor: string): Tx<()> {
    if !Active(db, env) || !env.authority("web", actor, MEMBERS)
       || (k in db.events && !env.authority(k.0, db.events[k].payload.sender, MEMBERS))
    then Tx(db, Err(Forbidden))
    else if k !in db.events || !db.events[k].status.EventFailed? then Tx(db, Err(Conflict))
    else Tx(db.(events := db.events[k := db.events[k].(status := EventPending, error := "")]), Ok(()))
  }
}
