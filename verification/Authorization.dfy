/** What an agent may do: policies, tool specifications, the origin a task answers,
    and the validation every plan passes at submission and again at dispatch. */
module Authorization {
  import opened Basics

  type Args = map<string, string>

  datatype Ladder = HumanLed | HumanAssisted | Autonomous | UnknownLadder
  datatype Risk = Read | Write | Destructive | Physical

  /** The part of a policy that authorises. Everything else an agent's policy carries
      (persona, conversation settings) is `descriptive` and never fingerprinted. */
  datatype Rules = Rules(
    ladder: Ladder,
    tools: set<string>,
    approval: set<string>,
    allowedRecipients: set<string>,
    allowedConnections: set<string>,
    approverRole: string,
    independentApproval: bool)

  datatype Policy = Policy(rules: Rules, descriptive: string)

  datatype ToolSpec = ToolSpec(risk: Risk, runner: bool)

  datatype Call = Call(tool: string, args: Args, device: string)

  /** Everything an operation consults that is not a table of the store: the packs, the
      tool registry, the argument schemas, the provider bindings and the directory.
      Every operation receives its own `Env`, so all of it may change between steps. */
  datatype Env = Env(
    policies: map<string, Policy>,
    registry: map<string, ToolSpec>,
    schema: (string, Args) -> bool,
    binding: (string, string, Args) -> Result<Option<string>>,
    authority: (string, string, set<string>) -> bool)

  const MEMBERS: set<string> := {"owner", "operator"}
  const OWNERS: set<string> := {"owner"}
  const OUTBOUND_CHANNELS: set<string> := {"telegram", "instagram", "whatsapp"}
  const OPERATOR_CHANNEL := "operator"
  const CONNECTION_TOOLS: set<string> :=
    {"connectors.read", "database.read", "database.plan_write", "database.write"}
  const MAX_PLAN_STEPS := 20
  const MAX_DEVICE_CHARS := 128

  /** Tools that reach a destination outside the tenant, with the argument naming it. */
  function DestinationField(tool: string): Option<string> {
    if tool == "telegram.send" || tool == "instagram.send" then Some("conversation_id")
    else if tool == "whatsapp.send" then Some("contact")
    else None
  }

  predicate Outbound(tool: string) { DestinationField(tool).Some? }

  /** `args.get(DIRECT_DESTINATION_FIELD[tool])`: None when the argument is absent. */
  function Recipient(call: Call): Option<string>
    requires Outbound(call.tool)
  {
    var field := DestinationField(call.tool).value;
    if field in call.args then Some(call.args[field]) else None
  }

  function SendTool(channel: string): string { channel + ".send" }

  predicate Allowlisted(rules: Rules, recipient: Option<string>) {
    recipient.Some? && recipient.value in rules.allowedRecipients
  }

  /** What a task answers: nothing, one verified inbound event, or a known conversation
      a human is replying to. An event may carry no conversation id. */
  datatype Origin =
    | NoOrigin
    | EventOrigin(channel: string, conversation: Option<string>)
    | OperatorOrigin(replyChannel: string, target: string)

  predicate Preauthorized(rules: Rules, call: Call, origin: Origin) {
    && rules.ladder == Autonomous
    && Outbound(call.tool)
    && (Allowlisted(rules, Recipient(call))
        || (origin.EventOrigin? && call.tool == SendTool(origin.channel)
            && Recipient(call) == origin.conversation))
  }

  predicate Unattendable(risk: Risk) { risk.Destructive? || risk.Physical? }

  predicate NeedsApproval(rules: Rules, call: Call, risk: Risk, origin: Origin) {
    || rules.ladder == HumanLed
    || origin.OperatorOrigin?
    || call.tool in rules.approval
    || Unattendable(risk)
    || (risk != Read && !Preauthorized(rules, call, origin))
  }

  /** The value `digest` hashes for one step. The digest is taken to be injective,
      so a fingerprint is this value itself. */
  datatype Fingerprint = Fingerprint(
    call: Call, risk: Risk, approval: bool, rules: Rules, binding: Option<string>)

  /** The gates of one step, in the order the source applies them. */
  function ValidateCall(env: Env, agent: string, rules: Rules, origin: Origin, call: Call)
    : (r: Result<Fingerprint>)
    ensures r.Ok? ==> r.value.call == call && r.value.rules == rules
    ensures r.Ok? && origin.OperatorOrigin? ==>
              r.value.approval && call.tool == SendTool(origin.replyChannel)
    ensures r.Ok? && Unattendable(r.value.risk) ==> r.value.approval
    ensures r.Ok? && r.value.risk != Read && !r.value.approval ==>
              Outbound(call.tool) && rules.ladder == Autonomous
  {
    if call.tool !in env.registry then Err(Missing)
    else if call.tool !in rules.tools then Err(Forbidden)
    else
      var spec := env.registry[call.tool];
      if origin.OperatorOrigin?
         && (call.tool != SendTool(origin.replyChannel) || Unattendable(spec.risk)) then Err(Forbidden)
      else if !env.schema(call.tool, call.args) then Err(Invalid)
      else if call.tool in CONNECTION_TOOLS && "connection" !in call.args then Err(Missing)
      else if call.tool in CONNECTION_TOOLS && call.args["connection"] !in rules.allowedConnections
      then Err(Forbidden)
      else
        match env.binding(agent, call.tool, call.args)
        case Err(e) => Err(e)
        case Ok(binding) =>
          if |call.device| > MAX_DEVICE_CHARS || (spec.runner && call.device == "")
             || (!spec.runner && call.device != "") then Err(Invalid)
          else Ok(Fingerprint(call, spec.risk, NeedsApproval(rules, call, spec.risk, origin), rules, binding))
  }

  /** All steps of a plan, or the first step's error. */
  function ValidateCalls(env: Env, agent: string, rules: Rules, origin: Origin, plan: seq<Call>)
    : (r: Result<seq<Fingerprint>>)
    ensures r.Ok? ==> |r.value| == |plan|
    ensures r.Ok? ==> forall k :: 0 <= k < |plan| ==>
              ValidateCall(env, agent, rules, origin, plan[k]) == Ok(r.value[k])
  {
    if plan == [] then Ok([])
    else
      var init := ValidateCalls(env, agent, rules, origin, plan[..|plan| - 1]);
      if init.Err? then init
      else
        match ValidateCall(env, agent, rules, origin, plan[|plan| - 1])
        case Err(e) => Err(e)
        case Ok(fp) => Ok(init.value + [fp])
  }

  /** `Engine._validated`. */
  function Validate(env: Env, agent: string, plan: seq<Call>, origin: Origin)
    : (r: Result<seq<Fingerprint>>)
    ensures r.Ok? ==> agent in env.policies && 1 <= |plan| <= MAX_PLAN_STEPS && |r.value| == |plan|
    ensures r.Ok? ==> forall k :: 0 <= k < |plan| ==>
              ValidateCall(env, agent, env.policies[agent].rules, origin, plan[k]) == Ok(r.value[k])
    ensures r.Ok? && origin.OperatorOrigin? ==> |plan| == 1
  {
    if agent !in env.policies then Err(Forbidden)
    else
      var rules := env.policies[agent].rules;
      if rules.ladder == UnknownLadder then Err(Forbidden)
      else if !(1 <= |plan| <= MAX_PLAN_STEPS) then Err(Invalid)
      else if origin.OperatorOrigin? && |plan| != 1 then Err(Invalid)
      else ValidateCalls(env, agent, rules, origin, plan)
  }

  /** The loop of `Engine._validated`, which stops at the first refused step. */
  method ValidatePlan(env: Env, agent: string, plan: seq<Call>, origin: Origin)
    returns (r: Result<seq<Fingerprint>>)
    ensures r == Validate(env, agent, plan, origin)
  {
    if agent !in env.policies { return Err(Forbidden); }
    var rules := env.policies[agent].rules;
    if rules.ladder == UnknownLadder { return Err(Forbidden); }
    if !(1 <= |plan| <= MAX_PLAN_STEPS) { return Err(Invalid); }
    if origin.OperatorOrigin? && |plan| != 1 { return Err(Invalid); }
    var validated := [];
    for k := 0 to |plan|
      invariant ValidateCalls(env, agent, rules, origin, plan[..k]) == Ok(validated)
    {
      assert plan[..k + 1][..k] == plan[..k];
      var one := ValidateCall(env, agent, rules, origin, plan[k]);
      if one.Err? {
        FirstErrorStands(env, agent, rules, origin, plan, k + 1);
        return Err(one.error);
      }
      validated := validated + [one.value];
    }
    assert plan[..|plan|] == plan;
    return Ok(validated);
  }

  /** A refused prefix refuses the plan with the same error. */
  lemma {:induction false} FirstErrorStands(
    env: Env, agent: string, rules: Rules, origin: Origin, plan: seq<Call>, k: nat)
    requires k <= |plan|
    requires ValidateCalls(env, agent, rules, origin, plan[..k]).Err?
    ensures ValidateCalls(env, agent, rules, origin, plan)
         == ValidateCalls(env, agent, rules, origin, plan[..k])
    decreases |plan|
  {
    if k == |plan| {
      assert plan[..k] == plan;
    } else {
      assert plan[..|plan| - 1][..k] == plan[..k];
      FirstErrorStands(env, agent, rules, origin, plan[..|plan| - 1], k);
    }
  }
}
