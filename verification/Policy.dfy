/** The capability gate for tool requests (crates/orion-core/src/policy.rs). */
module Policy {
  import opened Text
  import opened ToolBlocks

  datatype CapabilityEnvelope = CapabilityEnvelope(
    allowWeb: bool, allowToolboxExec: bool, allowFileWrite: bool, requireConfirmation: bool,
    advisoryCode: Option<string>)

  datatype GateResult = GateResult(
    allowed: bool, reasonCode: Option<string>, reasonText: Option<string>, requireConfirmation: bool)

  /** Outcome of the keyword check on a search query, which is a parameter here. */
  datatype Verdict = Verdict(allowed: bool, reasonCode: Option<string>, reasonText: Option<string>)

  const CODE_PII_DOXXING := "PII_DOXXING"
  const WEB_TOOLS := {"web_search", "perplexity_search", "web_browse"}
  const EXEC_TOOLS := {"toolbox_exec", "shell_execute"}

  function Deny(code: string, text: string): GateResult {
    GateResult(false, Some(code), Some(text), false)
  }

  function EvaluateUserMessageForCapabilities(message: string, advisoryCode: Option<string>): CapabilityEnvelope {
    if advisoryCode.Some? then CapabilityEnvelope(true, false, false, true, advisoryCode)
    else CapabilityEnvelope(true, true, true, false, advisoryCode)
  }

  /** `args.get(name).and_then(as_str)`, on an object. */
  function StringField(args: Json, name: string): Option<string> {
    if args.Obj? && name in args.fields && args.fields[name].Str? then Some(args.fields[name].text) else None
  }

  function SearchLikeQuery(args: Json): Option<string> {
    match StringField(args, "query")
    case Some(q) => Some(q)
    case None => StringField(args, "url")
  }

  /** A text field is read exactly as it stands in the object, and a query goes before an address. */
  lemma FieldsAreRead(args: Json, name: string, text: string)
    ensures StringField(args, name) == Some(text)
      <==> args.Obj? && name in args.fields && args.fields[name] == Str(text)
    ensures StringField(args, "query").Some? ==> SearchLikeQuery(args) == StringField(args, "query")
    ensures StringField(args, "query").None? ==> SearchLikeQuery(args) == StringField(args, "url")
  {
  }

  function EvaluateToolRequest(checkQuery: string -> Verdict, r: Request, envelope: CapabilityEnvelope): GateResult {
    if !envelope.allowWeb && r.name in WEB_TOOLS then
      Deny(CODE_PII_DOXXING, "Web capabilities are restricted for this request")
    else if !envelope.allowToolboxExec && r.name in EXEC_TOOLS then
      Deny("CAPABILITY_RESTRICTED", "Execution tools are restricted for this request")
    else if !envelope.allowFileWrite && r.name == "file_write" then
      Deny("CAPABILITY_RESTRICTED", "File write tools are restricted for this request")
    else
      var query := SearchLikeQuery(r.arguments);
      if r.name in WEB_TOOLS && query.Some? && !checkQuery(query.value).allowed then
        var verdict := checkQuery(query.value);
        GateResult(false, verdict.reasonCode, verdict.reasonText, false)
      else
        GateResult(true, None, None,
          envelope.requireConfirmation && (r.name in EXEC_TOOLS || r.name == "file_write" || r.name == "send_email"))
  }

  /** Every denial gives a reason: the restriction the advisory brought, or the verdict on the query. */
  lemma DenialsGiveReasons(checkQuery: string -> Verdict, r: Request, message: string, advisory: Option<string>)
    ensures var gate := EvaluateToolRequest(checkQuery, r, EvaluateUserMessageForCapabilities(message, advisory));
      if gate.allowed then gate.reasonCode == None && gate.reasonText == None
      else if r.name in WEB_TOOLS then
        SearchLikeQuery(r.arguments).Some?
        && var verdict := checkQuery(SearchLikeQuery(r.arguments).value);
           !verdict.allowed && gate.reasonCode == verdict.reasonCode && gate.reasonText == verdict.reasonText
      else gate.reasonCode == Some("CAPABILITY_RESTRICTED") && advisory.Some?
  {
  }

  /** The gate of a whole turn: exactly which requests pass, and exactly which must be confirmed. */
  lemma GateDecision(checkQuery: string -> Verdict, r: Request, message: string, advisory: Option<string>)
    ensures var gate := EvaluateToolRequest(checkQuery, r, EvaluateUserMessageForCapabilities(message, advisory));
      (gate.allowed <==>
        (advisory.Some? ==> r.name !in EXEC_TOOLS && r.name != "file_write") &&
        (r.name in WEB_TOOLS && SearchLikeQuery(r.arguments).Some? ==>
          checkQuery(SearchLikeQuery(r.arguments).value).allowed))
      && (gate.requireConfirmation <==> advisory.Some? && r.name == "send_email")
  {
  }
}
