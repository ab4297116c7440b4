/** What an agentic run lets the outside see, in order, and what a sound run looks like
    (crates/orion-api/src/agentic.rs). */
module AgenticTrace {
  import opened Text
  import opened ToolBlocks
  import opened ContextTrim
  import opened Policy
  import opened AgenticScript

  datatype TaskStatus = Running | WaitingForMentor | WaitingForConfirmation | Completed | Failed | Cancelled

  predicate TerminalStatus(s: TaskStatus) {
    s in {Completed, Failed, Cancelled}
  }

  datatype Event =
    | Thinking(turn: nat, content: string)
    | ToolCalled(turn: nat, request: Request)
    | ToolResult(turn: nat, name: string, success: bool, output: string)
    | MentorNeeded(turn: nat, question: string)
    | ConfirmationNeeded(turn: nat, request: Request)
    | Done(summary: string, status: string, turnsUsed: nat, toolCalls: nat)
    | Warning(turn: nat, message: string)
    | Error(message: string)

  /** The record written to disk when a run ends. */
  datatype RunSummary = RunSummary(summary: string, status: string, turns: nat, toolCalls: nat)

  /** One observable step of a run. */
  datatype Effect =
    | Emit(event: Event)
    | SetStatus(status: TaskStatus)
    | Persist(run: RunSummary)
    | CallLlm(messages: seq<Message>, plan: Option<Message>)
    | Gated(turn: nat, request: Request, advisory: Option<string>, gate: GateResult, skillConfirms: bool)
    | Answered(approved: bool)
    | RunSkill(turn: nat, request: Request)
    | Refresh(prompt: string)
    | Say(message: Message)
    | Feed(entries: seq<string>)

  type Log = seq<Effect>

  /** Tools the loop handles itself; calls to them are not counted. */
  const SYNTHETIC: set<string> :=
    {"task_complete", "ask_mentor", "register_mcp_skill", "register_email_account", "manage_job", "manage_proxy",
      "write_review"}

  // ---- Counting ----

  function ResultWeight(e: Effect): nat {
    if e.Emit? && e.event.ToolResult? && e.event.name !in SYNTHETIC then 1 else 0
  }

  /** Tool results emitted for calls that are not synthetic. */
  function Results(log: Log): nat {
    if log == [] then 0 else Results(log[..|log| - 1]) + ResultWeight(log[|log| - 1])
  }

  function FedWeight(e: Effect): nat {
    if e.Feed? then |e.entries| else 0
  }

  /** Result entries fed back to the model. */
  function Fed(log: Log): nat {
    if log == [] then 0 else Fed(log[..|log| - 1]) + FedWeight(log[|log| - 1])
  }

  /** The skills run, in order. */
  function Runs(log: Log): Log {
    if log == [] then [] else Extended(Runs(log[..|log| - 1]), log[|log| - 1])
  }

  function Extended(ran: Log, e: Effect): Log {
    if e.RunSkill? then ran + [e] else ran
  }

  /** The model's replies that stand in the conversation, in order. */
  function Replies(log: Log): seq<string> {
    if log == [] then [] else Replied(Replies(log[..|log| - 1]), log[|log| - 1])
  }

  function Replied(replies: seq<string>, e: Effect): seq<string> {
    if e.Say? && e.message.role == "assistant" then replies + [e.message.content] else replies
  }

  lemma CountsGrow(log: Log, e: Effect)
    ensures Results(log + [e]) == Results(log) + ResultWeight(e)
    ensures Fed(log + [e]) == Fed(log) + FedWeight(e)
    ensures Runs(log + [e]) == Extended(Runs(log), e)
    ensures Replies(log + [e]) == Replied(Replies(log), e)
  {
    assert (log + [e])[..|log|] == log;
  }

  // ---- The conversation ----

  /** `tool_results.join("\n\n")`. */
  function Join(entries: seq<string>): string {
    if entries == [] then "" else if |entries| == 1 then entries[0] else entries[0] + "\n\n" + Join(entries[1..])
  }

  function ResultsMessage(entries: seq<string>): Message {
    Message("user", "## Tool Results\n\n" + Join(entries))
  }

  function Opening(cfg: Config): seq<Message> {
    [Message("system", cfg.systemPrompt), Message("user", cfg.kickoff)]
  }

  /** What an effect adds to the conversation. */
  function Spoken(e: Effect): seq<Message> {
    match e
    case Say(m) => [m]
    case Feed(entries) => [ResultsMessage(entries)]
    case _ => []
  }

  /** The conversation after an effect: a model call leaves what the trim has kept for it, a refresh replaces the
      system prompt, and everything else adds what it says. */
  function Heard(ms: seq<Message>, e: Effect): seq<Message> {
    match e
    case CallLlm(kept, _) => kept
    case Refresh(prompt) => if ms == [] then ms else ms[0 := Message("system", prompt)]
    case _ => ms + Spoken(e)
  }

  /** The conversation a log amounts to. */
  function Told(log: Log, cfg: Config): seq<Message> {
    if log == [] then Opening(cfg) else Heard(Told(log[..|log| - 1], cfg), log[|log| - 1])
  }

  lemma ToldGrows(log: Log, e: Effect, cfg: Config)
    ensures Told(log + [e], cfg) == Heard(Told(log, cfg), e)
  {
    assert (log + [e])[..|log|] == log;
  }

  /** Everything said in a stretch of a log, in order. */
  function Said(log: Log): seq<Message> {
    if log == [] then [] else Said(log[..|log| - 1]) + Spoken(log[|log| - 1])
  }

  // ---- Ends of runs ----

  predicate TerminalEvent(ev: Event) {
    ev.Done? || ev.Error?
  }

  predicate Final(e: Effect) {
    e.Persist? || (e.Emit? && TerminalEvent(e.event))
  }

  /** No terminal event and no summary yet. */
  ghost predicate Quiet(log: Log) {
    forall i :: 0 <= i < |log| ==> !Final(log[i])
  }

  /** The record that goes with a terminal event. */
  predicate Matches(run: RunSummary, ev: Event, turns: nat, calls: nat) {
    run.turns == turns && run.toolCalls == calls &&
    match ev
    case Done(summary, status, turnsUsed, toolCalls) =>
      summary == run.summary && status == run.status && turnsUsed == turns && toolCalls == calls
    case Error(message) => message == run.summary && run.status == "failed"
    case _ => false
  }

  /** The run ends with one terminal event, one terminal status and one matching record, in that order,
      and had none of them before. */
  ghost predicate Concluded(log: Log, turns: nat, calls: nat) {
    var n := |log| - 3;
    0 <= n && Quiet(log[..n])
    && log[n].Emit? && TerminalEvent(log[n].event)
    && log[n + 1].SetStatus? && TerminalStatus(log[n + 1].status)
    && (log[n].event.Error? ==> log[n + 1].status == Failed)
    && log[n + 2].Persist? && Matches(log[n + 2].run, log[n].event, turns, calls)
  }

  /** The last event and the last status of a concluded log. */
  predicate ClosedBy(log: Log, ev: Event, status: TaskStatus) {
    |log| >= 3 && log[|log| - 3] == Emit(ev) && log[|log| - 2] == SetStatus(status)
  }

  /** The task is waiting for an answer to a confirmation question. */
  predicate Awaiting(log: Log) {
    log != [] && log[|log| - 1] == SetStatus(WaitingForConfirmation)
  }

  /** The model has been called, and its reply is still to come. */
  predicate Calling(log: Log) {
    log != [] && log[|log| - 1].CallLlm?
  }

  /** The run was ended while waiting for a confirmation. */
  predicate CutShort(log: Log) {
    |log| >= 3 && Awaiting(log[..|log| - 3])
  }

  // ---- Prompts and licences ----

  predicate Anchored(ms: seq<Message>, goal: string) {
    |ms| >= 2 && ms[0].role == "system" && ms[1] == Message("user", goal)
  }

  /** A model call starts with a system prompt and the goal, what follows fits the budget but for the summary of a
      trim, and it is what the trim keeps of the conversation so far; a second call in a row sends the same again. A
      council's plan comes on top. */
  ghost predicate PromptSound(log: Log, i: int, cfg: Config) {
    0 <= i < |log| && log[i].CallLlm?
    && var ms := log[i].messages;
    Anchored(ms, cfg.kickoff) && Fitted(ms, ContextTokenBudget(cfg.mode))
    && if i > 0 && log[i - 1].CallLlm? then ms == log[i - 1].messages
       else Trimmed(Told(log[..i], cfg), ContextTokenBudget(cfg.mode), ms)
  }

  ghost predicate PromptsSound(log: Log, cfg: Config) {
    forall i :: 0 <= i < |log| && log[i].CallLlm? ==> PromptSound(log, i, cfg)
  }

  lemma PromptsGrow(log: Log, e: Effect, cfg: Config)
    requires PromptsSound(log, cfg)
    requires e.CallLlm? ==> PromptSound(log + [e], |log|, cfg)
    ensures PromptsSound(log + [e], cfg)
  {
    hide PromptSound;
    var log' := log + [e];
    forall i | 0 <= i < |log'| && log'[i].CallLlm? ensures PromptSound(log', i, cfg) {
      if i < |log| {
        assert log'[i] == log[i];
        PromptStays(log, e, i, cfg);
      }
    }
  }

  lemma PromptStays(log: Log, e: Effect, i: int, cfg: Config)
    requires PromptSound(log, i, cfg)
    ensures PromptSound(log + [e], i, cfg)
  {
    hide Anchored, Fitted, Trimmed, Told;
    assert (log + [e])[..i] == log[..i];
    if i > 0 {
      assert (log + [e])[i - 1] == log[i - 1];
    }
  }

  /** The advisory is the superego's: its code if it has given one, and otherwise none. */
  predicate AdvisedBy(s: SuperegoResult, advisory: Option<string>) {
    match s
    case Advisory(Some(code)) => advisory == Some(code)
    case _ => advisory == None
  }

  /** A gate decision as the policy makes it, under the advisory of the turn. */
  predicate HonestGate(e: Effect, cfg: Config, script: Script) {
    e.Gated? && AdvisedBy(script.turns(e.turn).superego, e.advisory)
    && e.gate == GateOf(cfg, e.request, e.advisory)
  }

  predicate NeedsConfirmation(e: Effect, autoApprove: bool)
    requires e.Gated?
  {
    (e.skillConfirms || e.gate.requireConfirmation) && !autoApprove
  }

  /** A skill run is licensed by the call event right before it and, before that, by an honest gate of the same turn
      that let this very request pass; where a confirmation was due, it was asked for and granted in between. */
  ghost predicate Licensed(log: Log, i: int, cfg: Config, script: Script) {
    2 <= i < |log| && log[i].RunSkill? && log[i - 1] == Emit(ToolCalled(log[i].turn, log[i].request))
    && var g := if log[i - 2].Gated? then i - 2 else i - 6;
    0 <= g && HonestGate(log[g], cfg, script) && log[g].gate.allowed
    && log[g].turn == log[i].turn && log[g].request == log[i].request
    && (NeedsConfirmation(log[g], cfg.autoApprove) ==>
          g == i - 6
          && log[g + 1] == Emit(ConfirmationNeeded(log[i].turn, log[i].request))
          && log[g + 2] == SetStatus(WaitingForConfirmation)
          && log[g + 3] == Answered(true)
          && log[g + 4] == SetStatus(Running))
  }

  ghost predicate SkillsLicensed(log: Log, cfg: Config, script: Script) {
    forall i :: 0 <= i < |log| && log[i].RunSkill? ==> Licensed(log, i, cfg, script)
  }

  lemma LicencesGrow(log: Log, e: Effect, cfg: Config, script: Script)
    requires SkillsLicensed(log, cfg, script)
    requires e.RunSkill? ==> Licensed(log + [e], |log|, cfg, script)
    ensures SkillsLicensed(log + [e], cfg, script)
  {
    hide Licensed;
    var log' := log + [e];
    forall i | 0 <= i < |log'| && log'[i].RunSkill? ensures Licensed(log', i, cfg, script) {
      if i < |log| {
        assert log'[i] == log[i];
        LicenceStays(log, e, i, cfg, script);
      }
    }
  }

  lemma LicenceStays(log: Log, e: Effect, i: int, cfg: Config, script: Script)
    requires Licensed(log, i, cfg, script)
    ensures Licensed(log + [e], i, cfg, script)
  {
    hide HonestGate;
    var log' := log + [e];
    assert log'[i] == log[i] && log'[i - 1] == log[i - 1] && log'[i - 2] == log[i - 2];
    if 6 <= i {
      assert log'[i - 3] == log[i - 3] && log'[i - 4] == log[i - 4];
      assert log'[i - 5] == log[i - 5] && log'[i - 6] == log[i - 6];
    }
  }

  // ---- Loop heads ----

  /** What held when the loop was at its head with `at` effects behind it. */
  datatype Head = Head(at: nat, turn: nat, calls: nat, noToolStreak: nat, seen: nat, messages: seq<Message>)

  /** Then every call was answered and fed back once, the replies of all turns and no other stood in the conversation,
      and they were all different. */
  ghost predicate HeadSound(h: Head, log: Log, cfg: Config, script: Script) {
    h.at <= |log| && Results(log[..h.at]) == h.calls && Fed(log[..h.at]) == h.calls
    && h.seen == h.turn <= cfg.maxTurns && h.noToolStreak < 3
    && h.messages == Told(log[..h.at], cfg) && Anchored(h.messages, cfg.kickoff)
    && Replies(log[..h.at]) == RepliesUpTo(script, h.turn)
  }

  ghost predicate HeadsSound(heads: seq<Head>, log: Log, cfg: Config, script: Script) {
    forall i :: 0 <= i < |heads| ==> HeadSound(heads[i], log, cfg, script)
  }

  lemma HeadsStay(heads: seq<Head>, log: Log, e: Effect, cfg: Config, script: Script)
    requires HeadsSound(heads, log, cfg, script)
    ensures HeadsSound(heads, log + [e], cfg, script)
  {
    hide Results, Fed, Told, Replies, Anchored;
    forall i | 0 <= i < |heads| ensures HeadSound(heads[i], log + [e], cfg, script) {
      assert HeadSound(heads[i], log, cfg, script);
      assert (log + [e])[..heads[i].at] == log[..heads[i].at];
    }
  }

  // ---- What a concluded run amounts to ----

  /** Exactly one terminal event, and it is the last event of all; exactly one record, and it is the last
      effect and agrees with that event. */
  lemma OneTerminalEventAndLast(log: Log, turns: nat, calls: nat) returns (n: nat)
    requires Concluded(log, turns, calls)
    ensures n < |log| && log[n].Emit? && TerminalEvent(log[n].event)
    ensures forall i :: 0 <= i < |log| && log[i].Emit? ==> i <= n && (TerminalEvent(log[i].event) <==> i == n)
    ensures forall i :: 0 <= i < |log| ==> (log[i].Persist? <==> i == |log| - 1)
    ensures Matches(log[|log| - 1].run, log[n].event, turns, calls)
  {
    n := |log| - 3;
    forall i | 0 <= i < n ensures !Final(log[i]) {
      assert log[..n][i] == log[i];
    }
  }

  /** In a turn the superego answered with an advisory, no execution or file-writing skill runs at all, and mail is
      sent only right after a question about this very mail was answered with a yes, or when the run auto-approves. */
  lemma AdvisoryRestrictsSkills(log: Log, i: int, cfg: Config, script: Script)
    requires SkillsLicensed(log, cfg, script) && 0 <= i < |log| && log[i].RunSkill?
    requires script.turns(log[i].turn).superego.Advisory? && script.turns(log[i].turn).superego.code.Some?
    ensures log[i].request.name !in EXEC_TOOLS && log[i].request.name != "file_write"
    ensures log[i].request.name == "send_email" && !cfg.autoApprove ==>
      5 <= i && log[i - 5] == Emit(ConfirmationNeeded(log[i].turn, log[i].request)) && log[i - 3] == Answered(true)
  {
    assert Licensed(log, i, cfg, script);
    var g := if log[i - 2].Gated? then i - 2 else i - 6;
    GateDecision(cfg.checkQuery, log[g].request, "", log[g].advisory);
  }

  /** No model call of a sound log costs more than the budget of the run, or its prefix, and the summary of a trim;
      a council's plan is not counted. */
  lemma CallsWithinBudget(log: Log, i: int, cfg: Config)
    requires PromptsSound(log, cfg) && 0 <= i < |log| && log[i].CallLlm?
    ensures var ms, budget := log[i].messages, ContextTokenBudget(cfg.mode);
      var bound := if budget >= Total(ms[..KEEP_PREFIX]) then budget else Total(ms[..KEEP_PREFIX]);
      Total(ms) <= bound + (if |ms| > KEEP_PREFIX then EstimateTokens(ms[KEEP_PREFIX].content) else 0)
  {
    var ms := log[i].messages;
    assert PromptSound(log, i, cfg);
    if |ms| > KEEP_PREFIX {
      FittedBound(ms, ContextTokenBudget(cfg.mode));
    } else {
      assert ms[..KEEP_PREFIX] == ms;
    }
  }

  /** Between two model calls the conversation only grows: behind the system prompt, what stood at `i` still stands at
      `j`, followed by everything said since. */
  lemma {:induction false} SaidStands(log: Log, i: nat, j: nat, cfg: Config)
    requires i <= j <= |log| && Told(log[..i], cfg) != [] && forall k :: i <= k < j ==> !log[k].CallLlm?
    ensures Told(log[..j], cfg) != [] && Told(log[..j], cfg)[1..] == Told(log[..i], cfg)[1..] + Said(log[i..j])
  {
    hide Told, Said, Heard, Spoken;
    if i == j {
      assert log[i..j] == [];
      SaidNothing();
    } else {
      var e, before := log[j - 1], Told(log[..j - 1], cfg);
      SaidStands(log, i, j - 1, cfg);
      assert log[..j] == log[..j - 1] + [e] && log[i..j] == log[i..j - 1] + [e];
      ToldGrows(log[..j - 1], e, cfg);
      SaidGrows(log[i..j - 1], e);
      HeardTail(before, e);
      Reassociate(Told(log[..i], cfg)[1..], Said(log[i..j - 1]), Spoken(e));
    }
  }

  lemma SaidNothing()
    ensures Said([]) == []
  {
  }

  lemma SaidGrows(log: Log, e: Effect)
    ensures Said(log + [e]) == Said(log) + Spoken(e)
  {
    assert (log + [e])[..|log|] == log;
  }

  lemma HeardTail(ms: seq<Message>, e: Effect)
    requires ms != [] && !e.CallLlm?
    ensures Heard(ms, e) != [] && Heard(ms, e)[1..] == ms[1..] + Spoken(e)
  {
    hide ResultsMessage;
  }

  /** What is fed back, and the model's own reply, reach the model: at the first model call after a stretch that starts
      right behind another one, the trim is handed what that one was sent, under a system prompt, and everything said
      since. */
  lemma ModelIsToldEverything(log: Log, i: nat, j: nat, cfg: Config)
    requires PromptsSound(log, cfg) && i < j < |log| && log[i].CallLlm? && log[j].CallLlm? && i + 1 < j
    requires forall k :: i < k < j ==> !log[k].CallLlm?
    ensures var told := Told(log[..j], cfg);
      told != [] && told[1..] == log[i].messages[1..] + Said(log[i + 1..j])
      && Trimmed(told, ContextTokenBudget(cfg.mode), log[j].messages)
  {
    assert PromptSound(log, i, cfg) && PromptSound(log, j, cfg);
    assert log[..i + 1] == log[..i] + [log[i]];
    ToldGrows(log[..i], log[i], cfg);
    SaidStands(log, i + 1, j, cfg);
  }

  lemma {:induction false} ToldIsAnchored(log: Log, k: nat, cfg: Config)
    requires PromptsSound(log, cfg) && k <= |log|
    ensures Anchored(Told(log[..k], cfg), cfg.kickoff)
  {
    hide PromptSound, ResultsMessage;
    if k > 0 {
      ToldIsAnchored(log, k - 1, cfg);
      assert log[..k] == log[..k - 1] + [log[k - 1]];
      ToldGrows(log[..k - 1], log[k - 1], cfg);
      if log[k - 1].CallLlm? { CallIsAnchored(log, k - 1, cfg); }
    }
  }

  lemma CallIsAnchored(log: Log, i: int, cfg: Config)
    requires PromptSound(log, i, cfg)
    ensures Anchored(log[i].messages, cfg.kickoff)
  {
  }

  /** Whatever is said or fed back, be it the model's own reply, an answer of the mentor or the results of a turn,
      stands in the conversation that is handed to the trim of the next model call, where it was said. */
  lemma SpokenReachesTheModel(log: Log, k: nat, j: nat, cfg: Config)
    requires PromptsSound(log, cfg) && k < j < |log| && (log[k].Say? || log[k].Feed?)
    requires log[j].CallLlm? && forall i :: k < i < j ==> !log[i].CallLlm?
    ensures var before, handed := Told(log[..k], cfg), Told(log[..j], cfg);
      |before| < |handed| && Spoken(log[k]) == [handed[|before|]]
      && Trimmed(handed, ContextTokenBudget(cfg.mode), log[j].messages)
  {
    hide ResultsMessage, Trimmed, PromptSound, Told, Said, Spoken, Heard, Fitted;
    ToldIsAnchored(log, k, cfg);
    assert log[..k + 1] == log[..k] + [log[k]];
    ToldGrows(log[..k], log[k], cfg);
    var before, after := Told(log[..k], cfg), Told(log[..k + 1], cfg);
    SpokenIsHeard(before, log[k]);
    SaidStands(log, k + 1, j, cfg);
    assert Told(log[..j], cfg)[1..][|before| - 1] == after[1..][|before| - 1];
    FirstCallIsTrimmed(log, j, cfg);
  }

  lemma SpokenIsHeard(ms: seq<Message>, e: Effect)
    requires e.Say? || e.Feed?
    ensures |Spoken(e)| == 1 && Heard(ms, e) == ms + [Spoken(e)[0]]
  {
    hide ResultsMessage;
  }

  lemma FirstCallIsTrimmed(log: Log, j: int, cfg: Config)
    requires PromptsSound(log, cfg) && 0 < j < |log| && log[j].CallLlm? && !log[j - 1].CallLlm?
    ensures Trimmed(Told(log[..j], cfg), ContextTokenBudget(cfg.mode), log[j].messages)
  {
    hide Trimmed, Told;
    assert PromptSound(log, j, cfg);
  }

  /** Each entry that is fed back can be read in the message that carries it. */
  lemma {:induction false} JoinHolds(entries: seq<string>, k: nat) returns (at: nat)
    requires k < |entries|
    ensures At(Join(entries), entries[k], at)
  {
    if |entries| == 1 {
      return 0;
    }
    var rest := Join(entries[1..]);
    if k == 0 {
      AtLeft(entries[0], "\n\n" + rest, entries[0], 0);
      assert Join(entries) == entries[0] + ("\n\n" + rest);
      return 0;
    }
    var i := JoinHolds(entries[1..], k - 1);
    AtRight(entries[0] + "\n\n", rest, entries[k], i);
    return |entries[0] + "\n\n"| + i;
  }
}
