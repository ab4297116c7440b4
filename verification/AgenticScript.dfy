/** What decides an agentic run (crates/orion-api/src/agentic.rs): its configuration, and the answers of everything
    it waits for. */
module AgenticScript {
  import opened Text
  import opened ToolExtraction
  import opened ToolBlocks
  import opened Policy

  datatype RouterMode = Auto | ThinkHard | ThinkHarder

  datatype Config = Config(
    kickoff: string, systemPrompt: string, maxTurns: nat, autoApprove: bool, mode: RouterMode, useCouncil: bool,
    hash: string -> int, decoders: Decoders, checkQuery: string -> Verdict)

  datatype CouncilOutcome = FewProviders | CouncilError | Plan(text: string)

  datatype MentorOutcome = MentorReply(text: string) | ChannelDropped | CancelledWhileAsked

  /** The answer to a confirmation question; a dropped channel answers nothing. */
  datatype ConfirmOutcome = Answer(approved: Option<bool>) | CancelledWhileConfirming

  datatype SuperegoResult = Allow | Denied | Advisory(code: Option<string>)

  datatype SkillOutput = SkillOutput(success: bool, text: string)

  datatype CallScript = CallScript(
    stored: Result<string, string>, saved: Result<(), string>, skillConfirms: Option<bool>,
    confirm: ConfirmOutcome, outcome: Result<SkillOutput, string>)

  datatype TurnScript = TurnScript(
    refreshedPrompt: string, cancelled: bool, council: CouncilOutcome, reply: Result<Completion, string>,
    mentor: MentorOutcome, registered: Result<string, string>, replies: map<string, string>,
    superego: SuperegoResult, calls: nat -> CallScript)

  /** `turns(t)` answers the turn that brings the counter to `t`; a cancel flag is read before that. */
  datatype Script = Script(egoAvailable: bool, heartbeatError: Option<string>, turns: nat -> TurnScript)

  /** The policy's decision on a request; it does not depend on the message. */
  function GateOf(cfg: Config, r: Request, advisory: Option<string>): GateResult {
    EvaluateToolRequest(cfg.checkQuery, r, EvaluateUserMessageForCapabilities("", advisory))
  }

  function ContextTokenBudget(mode: RouterMode): nat {
    match mode
    case Auto => 16_000
    case ThinkHard => 24_000
    case ThinkHarder => 32_000
  }

  /** The replies of turns 1 to `t`. */
  function RepliesUpTo(script: Script, t: nat): seq<string> {
    if t == 0 then []
    else
      RepliesUpTo(script, t - 1) + (if script.turns(t).reply.Ok? then [script.turns(t).reply.value.content] else [])
  }
}
