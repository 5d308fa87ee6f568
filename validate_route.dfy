/** The validation route of the backend (backend/src/routes/validate.js):
    `POST /` checks its body in a fixed order and only then hands the task
    to the validator, whose outcome it passes on or turns into a 500. */
module ValidateRoute {
  import opened Common
  import opened Json
  import opened Coze

  const ContentMissing: string := "缺少必要参数: content"
  const NpcConfigMissing: string := "缺少必要参数: npcConfig"
  const NoTargetId: string := "NPC 配置需要提供 workflowId 或 botId"
  /** The feedback of a 500. */
  const Unavailable: string := "验证服务暂时不可用，请稍后重试"

  datatype ValidateResponse =
    | BadRequest(error: string)                 // 400, with `passed: false`
    | Judged(passed: bool, feedback: Value)     // 200: the validator's own result
    | ServerError(fallback: string)             // 500, with `passed: false`

  /** The guard that rejects the request, if any, in the order the route
      checks them: content, then the NPC configuration, then its ids. */
  function Rejection(npcConfig: Option<Value>, content: Option<Value>): (r: Option<string>)
    ensures r == Some(ContentMissing) <==> !Truthy(content)
    ensures r == Some(NpcConfigMissing) <==> Truthy(content) && !Truthy(npcConfig)
    ensures r == Some(NoTargetId) <==>
      && Truthy(content) && Truthy(npcConfig)
      && !Truthy(Get(npcConfig.value, "workflowId")) && !Truthy(Get(npcConfig.value, "botId"))
    ensures r.Some? ==> r.value in {ContentMissing, NpcConfigMissing, NoTargetId}
  {
    if !Truthy(content) then Some(ContentMissing)
    else if !Truthy(npcConfig) then Some(NpcConfigMissing)
    else if !Truthy(Get(npcConfig.value, "workflowId")) && !Truthy(Get(npcConfig.value, "botId")) then Some(NoTargetId)
    else None
  }

  /** `POST /` with body `{ npcConfig, content }`, where `outcome` is what
      `validateWithCoze` would give for it. A rejected request answers 400;
      otherwise the verdict is answered unchanged, and a thrown validator
      becomes a 500 with the generic feedback. */
  function Respond(npcConfig: Option<Value>, content: Option<Value>, outcome: CozeOutcome): (r: ValidateResponse)
    ensures r.BadRequest? <==> Rejection(npcConfig, content).Some?
    ensures r.BadRequest? ==> r.error == Rejection(npcConfig, content).value
    ensures r.Judged? <==> Rejection(npcConfig, content).None? && outcome.Verdict?
    ensures r.Judged? ==> r.passed == outcome.passed && r.feedback == outcome.feedback
    ensures r.ServerError? <==> Rejection(npcConfig, content).None? && outcome.Threw?
    ensures r.ServerError? ==> r.fallback == Unavailable
  {
    match Rejection(npcConfig, content)
    case Some(error) => BadRequest(error)
    case None =>
      match outcome
      case Verdict(passed, feedback) => Judged(passed, feedback)
      case Threw(_) => ServerError(Unavailable)
  }

  /** A rejected request never reaches the validator: its answer is the
      same whatever the validator would have said. */
  lemma RejectionIgnoresValidator(npcConfig: Option<Value>, content: Option<Value>, o1: CozeOutcome, o2: CozeOutcome)
    requires Respond(npcConfig, content, o1).BadRequest?
    ensures Respond(npcConfig, content, o1) == Respond(npcConfig, content, o2)
  {
  }

  /** Only the validator can make a request pass: every answer that says
      `passed: true` is the validator's verdict. */
  lemma PassOnlyFromValidator(npcConfig: Option<Value>, content: Option<Value>, outcome: CozeOutcome)
    requires Respond(npcConfig, content, outcome).Judged? && Respond(npcConfig, content, outcome).passed
    ensures outcome == Verdict(true, Respond(npcConfig, content, outcome).feedback)
  {
  }

  /** The whole route over the validator of the `Coze` module: the
      validator runs only for a request the guards let through, and its
      result, or its failure, is what the route answers: the workflow's
      verdict as `CallWorkflow` reads it, the bot's verdict, or a 500 when
      the key is missing or the request fails. */
  method Validate(npcConfig: Option<Value>, content: Option<Value>, apiKey: bool,
                  workflowResponse: Option<string>, botMessages: Option<Option<seq<BotMessage>>>, parse: Parser)
    returns (r: ValidateResponse, validatorRan: bool)
    requires StrictJson(parse)
    ensures validatorRan <==> Rejection(npcConfig, content).None?
    ensures !validatorRan ==> r == BadRequest(Rejection(npcConfig, content).value)
    ensures validatorRan && !apiKey ==> r == ServerError(Unavailable)
    ensures validatorRan && apiKey && !Truthy(Get(npcConfig.value, "workflowId")) && botMessages.Some? ==>
      var v := BotVerdict(BotReply(if botMessages.value.Some? then botMessages.value.value else []));
      r == Judged(v.passed, v.feedback)
    ensures validatorRan && apiKey && !Truthy(Get(npcConfig.value, "workflowId")) && botMessages.None? ==>
      r == ServerError(Unavailable)
    ensures validatorRan && apiKey && Truthy(Get(npcConfig.value, "workflowId")) ==>
      (workflowResponse.None? ==> r == ServerError(Unavailable))
      && (workflowResponse.Some? ==> r.Judged? && WorkflowRead(workflowResponse.value, parse, Verdict(r.passed, r.feedback)))
  {
    var rejected := Rejection(npcConfig, content);
    if rejected.Some? {
      return BadRequest(rejected.value), false;
    }
    var outcome := ValidateWithCoze(apiKey, npcConfig.value, workflowResponse, botMessages, parse);
    r, validatorRan := Respond(npcConfig, content, outcome), true;
  }
}
