/** The calls of a turn (crates/orion-api/src/agentic.rs, from the gate to the result): which ask for a confirmation,
    which get their skill run, what each one leaves in the log, and what it tells the model. */
module AgenticCalls {
  import opened Text
  import opened ToolBlocks
  import opened ContextTrim
  import opened Policy
  import opened AgenticScript
  import opened AgenticTrace

  /** At most `maxLen` characters of a result, and how many there were when some are cut off. */
  function TruncateOutput(s: string, maxLen: nat): (r: string)
    ensures |s| <= maxLen ==> r == s
    ensures |s| > maxLen ==> s[..maxLen] <= r && r != s[..maxLen]
  {
    if |s| <= maxLen then s else s[..maxLen] + ("... [truncated, " + Decimal(|s|) + " total chars]")
  }

  predicate HasTool(requests: seq<Request>, name: string) {
    exists i :: 0 <= i < |requests| && requests[i].name == name
  }

  /** `iter().find(|t| t.name == name)`. */
  function FindTool(requests: seq<Request>, name: string): (r: Request)
    requires HasTool(requests, name)
    ensures r in requests && r.name == name
  {
    if requests[0].name == name then requests[0]
    else
      assert HasTool(requests[1..], name) by {
        var i :| 0 <= i < |requests| && requests[i].name == name;
        assert requests[1..][i - 1].name == name;
      }
      FindTool(requests[1..], name)
  }

  /** It is the first request of that name. */
  lemma {:induction false} FindToolIsFirst(requests: seq<Request>, name: string, i: nat)
    requires i < |requests| && requests[i].name == name && forall j :: 0 <= j < i ==> requests[j].name != name
    ensures HasTool(requests, name) && FindTool(requests, name) == requests[i]
  {
    if i > 0 {
      FindToolIsFirst(requests[1..], name, i - 1);
    }
  }

  function FieldOr(args: Json, name: string, default: string): string {
    match StringField(args, name)
    case Some(v) => v
    case None => default
  }

  const STORE_TOOLS: set<string> := {"store_secret", "store_provider_key", "store_vault_secret"}

  function AdvisoryCode(s: SuperegoResult): Option<string> {
    if s.Advisory? then s.code else None
  }

  /** The call gets as far as asking for a confirmation. */
  predicate Asks(cfg: Config, cs: CallScript, r: Request, advisory: Option<string>) {
    r.name !in STORE_TOOLS && cs.skillConfirms.Some? && !cfg.autoApprove
    && GateOf(cfg, r, advisory).allowed && (cs.skillConfirms.value || GateOf(cfg, r, advisory).requireConfirmation)
  }

  predicate Cancels(cfg: Config, cs: CallScript, r: Request, advisory: Option<string>) {
    Asks(cfg, cs, r, advisory) && cs.confirm.CancelledWhileConfirming?
  }

  /** The call gets its skill run: known, let through by the gate, and approved if it had to ask. */
  predicate Grants(cfg: Config, cs: CallScript, r: Request, advisory: Option<string>) {
    r.name !in STORE_TOOLS && cs.skillConfirms.Some?
    && GateOf(cfg, r, advisory).allowed
    && (Asks(cfg, cs, r, advisory) ==> cs.confirm == Answer(Some(true)))
  }

  /** How a call is answered: the result that is shown, and the entry that is fed back. */
  datatype CallAnswer = CallAnswer(success: bool, output: string, entry: string)

  /** The entry of a result that is fed back as it is shown: the tool, a tag, the output. */
  function Reported(name: string, success: bool, output: string, tag: string): CallAnswer {
    CallAnswer(success, output, "**" + name + "**" + tag + output)
  }

  function StoredAnswer(name: string, stored: Result<string, string>): CallAnswer {
    match stored
    case Ok(provider) => Reported(name, true, "Stored key for provider '" + provider + "'.", " (Success): ")
    case Err(e) => Reported(name, false, "Failed to store provider key: " + e, " (Error): ")
  }

  function VaultAnswer(name: string, key: string, value: string, saved: Result<(), string>): CallAnswer {
    if key == "" || value == "" then
      Reported(name, false, "Failed to store vault secret: key and value are required.", " (Error): ")
    else
      match saved
      case Ok(_) => Reported(name, true, "Stored vault secret '" + key + "'.", " (Success): ")
      case Err(e) => Reported(name, false, "Failed to save skill secret '" + key + "': " + e, " (Error): ")
  }

  function UnknownAnswer(name: string): CallAnswer {
    Reported(name, false, "Unknown tool: " + name + ". Check available tools in your system prompt.", ": Error — ")
  }

  function BlockedAnswer(name: string, gate: GateResult): CallAnswer {
    var code := if gate.reasonCode.Some? then gate.reasonCode.value else "SAFETY_BLOCK";
    var text := if gate.reasonText.Some? then gate.reasonText.value else "Blocked by capability safety policy";
    Reported(name, false, "Blocked by safety policy (" + code + "): " + text, ": Error — ")
  }

  function DeniedAnswer(name: string): CallAnswer {
    CallAnswer(false, "Tool " + name + " was denied by mentor.", "**" + name + "**: Denied by mentor")
  }

  function SkillAnswer(name: string, outcome: Result<SkillOutput, string>): CallAnswer {
    match outcome
    case Ok(o) =>
      Reported(name, o.success, TruncateOutput(o.text, 2000), if o.success then " (Success): " else " (Error): ")
    case Err(e) => Reported(name, false, e, " (Error): ")
  }

  /** The answer of a call that is not cancelled while it waits for a confirmation. */
  function AnswerOf(cfg: Config, cs: CallScript, r: Request, advisory: Option<string>): CallAnswer {
    if r.name == "store_secret" || r.name == "store_provider_key" then StoredAnswer(r.name, cs.stored)
    else if r.name == "store_vault_secret" then
      VaultAnswer(r.name, FieldOr(r.arguments, "key", ""), FieldOr(r.arguments, "value", ""), cs.saved)
    else if cs.skillConfirms.None? then UnknownAnswer(r.name)
    else if !GateOf(cfg, r, advisory).allowed then BlockedAnswer(r.name, GateOf(cfg, r, advisory))
    else if Asks(cfg, cs, r, advisory) && cs.confirm != Answer(Some(true)) then DeniedAnswer(r.name)
    else SkillAnswer(r.name, cs.outcome)
  }

  function Shown(t: nat, name: string, a: CallAnswer): Effect {
    Emit(ToolResult(t, name, a.success, a.output))
  }

  /** What asking for a confirmation leaves in the log, up to the answer or the cancel. */
  function AskEffects(t: nat, r: Request, answer: ConfirmOutcome): Log {
    [Emit(ConfirmationNeeded(t, r)), SetStatus(WaitingForConfirmation)]
    + match answer
      case CancelledWhileConfirming => []
      case Answer(a) => [Answered(a == Some(true)), SetStatus(Running)]
  }

  /** What comes behind the gate and, where one is due, the question. */
  function OutcomeEffects(cfg: Config, cs: CallScript, r: Request, advisory: Option<string>, t: nat): Log {
    var shown := Shown(t, r.name, AnswerOf(cfg, cs, r, advisory));
    if Cancels(cfg, cs, r, advisory) then []
    else if Grants(cfg, cs, r, advisory) then [Emit(ToolCalled(t, r)), RunSkill(t, r), shown]
    else [shown]
  }

  function GatedEffect(cfg: Config, cs: CallScript, r: Request, advisory: Option<string>, t: nat): Effect
    requires cs.skillConfirms.Some?
  {
    Gated(t, r, advisory, GateOf(cfg, r, advisory), cs.skillConfirms.value)
  }

  /** What a call of turn `t` leaves in the log. */
  function CallEffects(cfg: Config, cs: CallScript, r: Request, advisory: Option<string>, t: nat): Log {
    var shown := Shown(t, r.name, AnswerOf(cfg, cs, r, advisory));
    if r.name in STORE_TOOLS then [Emit(ToolCalled(t, r)), shown]
    else if cs.skillConfirms.None? then [shown]
    else
      [GatedEffect(cfg, cs, r, advisory, t)] + (if Asks(cfg, cs, r, advisory) then AskEffects(t, r, cs.confirm) else [])
      + OutcomeEffects(cfg, cs, r, advisory, t)
  }

  // ---- Which skills run ----

  /** A skill runs exactly if it is known and no secret is stored instead, if no advisory forbids it, if its query
      passes the check, and if nobody had to be asked, the run approves by itself, or the answer was a yes. */
  lemma GrantedExactly(cfg: Config, cs: CallScript, r: Request, advisory: Option<string>)
    ensures var query := SearchLikeQuery(r.arguments);
      Grants(cfg, cs, r, advisory) <==>
        r.name !in STORE_TOOLS && cs.skillConfirms.Some?
        && (advisory.Some? ==> r.name !in EXEC_TOOLS && r.name != "file_write")
        && (r.name in WEB_TOOLS && query.Some? ==> cfg.checkQuery(query.value).allowed)
        && (cfg.autoApprove || !(cs.skillConfirms.value || (advisory.Some? && r.name == "send_email"))
            || cs.confirm == Answer(Some(true)))
  {
    hide EvaluateToolRequest, EvaluateUserMessageForCapabilities;
    GateDecision(cfg.checkQuery, r, "", advisory);
  }

  // ---- What the answers say ----

  /** A call's skill is run exactly if the call is granted, and a call that is not cancelled ends in its result. */
  lemma CallEffectsFacts(cfg: Config, cs: CallScript, r: Request, advisory: Option<string>, t: nat)
    ensures var effects := CallEffects(cfg, cs, r, advisory, t);
      (RunSkill(t, r) in effects <==> Grants(cfg, cs, r, advisory))
      && (forall e :: e in effects && e.RunSkill? ==> e == RunSkill(t, r))
      && effects != []
      && (!Cancels(cfg, cs, r, advisory) ==>
            effects[|effects| - 1] == Shown(t, r.name, AnswerOf(cfg, cs, r, advisory)))
  {
    hide GateOf, AnswerOf;
  }

  /** The model reads of every call by name, with the output that was shown, or that it was denied. */
  lemma AnswersTellTheResult(cfg: Config, cs: CallScript, r: Request, advisory: Option<string>)
    ensures var a := AnswerOf(cfg, cs, r, advisory);
      "**" + r.name + "**" <= a.entry && (a == DeniedAnswer(r.name) || EndsWith(a.entry, a.output))
  {
    hide AnswerOf, Reported;
    var a := AnswerOf(cfg, cs, r, advisory);
    if a != DeniedAnswer(r.name) {
      var tag := AnswerIsReported(cfg, cs, r, advisory);
      ReportedTells(r.name, a.success, a.output, tag);
    }
  }

  lemma AnswerIsReported(cfg: Config, cs: CallScript, r: Request, advisory: Option<string>) returns (tag: string)
    requires AnswerOf(cfg, cs, r, advisory) != DeniedAnswer(r.name)
    ensures var a := AnswerOf(cfg, cs, r, advisory); a == Reported(r.name, a.success, a.output, tag)
  {
    hide GateOf, TruncateOutput;
    var a := AnswerOf(cfg, cs, r, advisory);
    tag := if a.success then " (Success): "
           else if r.name in STORE_TOOLS then " (Error): "
           else if cs.skillConfirms.None? || !GateOf(cfg, r, advisory).allowed then ": Error — "
           else " (Error): ";
  }

  lemma ReportedTells(name: string, success: bool, output: string, tag: string)
    ensures var a := Reported(name, success, output, tag);
      a.success == success && a.output == output && "**" + name + "**" <= a.entry && EndsWith(a.entry, output)
  {
  }

  /** A secret is reported as stored exactly if it was. */
  lemma SecretsAreReportedAsStored(cfg: Config, cs: CallScript, r: Request, advisory: Option<string>)
    requires r.name in STORE_TOOLS
    ensures AnswerOf(cfg, cs, r, advisory).success <==>
      if r.name != "store_vault_secret" then cs.stored.Ok?
      else cs.saved.Ok? && FieldOr(r.arguments, "key", "") != "" && FieldOr(r.arguments, "value", "") != ""
  {
    hide FieldOr;
  }

  /** A skill's own success and at most two thousand characters of its own text are passed on; a call that is not
      granted never succeeds. */
  lemma AnswersFollowTheSkill(cfg: Config, cs: CallScript, r: Request, advisory: Option<string>)
    requires r.name !in STORE_TOOLS
    ensures var a := AnswerOf(cfg, cs, r, advisory);
      if !Grants(cfg, cs, r, advisory) then !a.success
      else
        match cs.outcome
        case Ok(o) => a.success == o.success && a.output == TruncateOutput(o.text, 2000)
        case Err(e) => !a.success && a.output == e
  {
    hide TruncateOutput, GateOf;
  }
}
