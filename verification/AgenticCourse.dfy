/** The course of an agentic run as a function of its script (crates/orion-api/src/agentic.rs): how many turns it
    takes, which calls it counts, every effect it has, and why it ends. The loop in AgenticLoop follows it. */
module AgenticCourse {
  import opened Text
  import opened ToolBlocks
  import opened ToolExtraction
  import opened ContextTrim
  import opened Policy
  import opened AgenticScript
  import opened AgenticTrace
  import opened AgenticCalls

  function DuplicateText(turn: nat): string {
    "Agentic loop aborted: duplicate LLM response detected on turn " + Decimal(turn)
    + " (loop/death-spiral). Id is heartbeat-only — verify Ego is routing correctly."
  }

  function NoToolsText(streak: nat): string {
    "Agentic loop aborted: LLM failed to execute tools for " + Decimal(streak) + " consecutive turns. "
    + "Id is heartbeat-only — configure a cloud Ego provider (OPENAI_API_KEY or equivalent)."
  }

  function CouncilPlanText(plan: string): string {
    "## Council Reasoning (Pro)\n\n"
    + "The following plan was produced by a multi-provider reasoning council. "
    + "Execute it using the available tools. Do not second-guess the plan; "
    + "translate it into concrete tool calls.\n\n---\n\n" + plan
  }

  /** The model calls of a turn: through the council when the run asks for it and there are providers for it. */
  function ModelCalls(cfg: Config, ts: TurnScript, messages: seq<Message>): Log {
    if cfg.useCouncil && cfg.mode == ThinkHarder then
      match ts.council
      case FewProviders => [CallLlm(messages, None)]
      case CouncilError => [CallLlm(messages, None), CallLlm(messages, None)]
      case Plan(text) => [CallLlm(messages, None), CallLlm(messages, Some(Message("user", CouncilPlanText(text))))]
    else [CallLlm(messages, None)]
  }

  function MentorText(response: string): string {
    "## Mentor Response\n\n" + response
  }

  function SyntheticText(name: string, text: string): string {
    "## Tool Result: " + name + "\n\n" + text
  }

  function NudgeText(streak: nat): string {
    "You didn't use any tools (" + Decimal(streak) + "/3 no-tool turns before abort). "
    + "Either use a tool to make progress on the goal, or use `task_complete` if you're done."
  }

  function LimitText(maxTurns: nat): string {
    "Reached maximum turns limit (" + Decimal(maxTurns) + "). Task may be incomplete."
  }

  /** The hashes of the replies of turns 1 to `t` that came back. */
  ghost function HashesUpTo(cfg: Config, script: Script, t: nat): set<int> {
    if t == 0 then {}
    else
      HashesUpTo(cfg, script, t - 1) +
      (if script.turns(t).reply.Ok? then {cfg.hash(script.turns(t).reply.value.content)} else {})
  }

  lemma HashesStep(cfg: Config, script: Script, t: nat)
    requires t > 0
    ensures HashesUpTo(cfg, script, t - 1) <= HashesUpTo(cfg, script, t)
    ensures script.turns(t).reply.Ok? ==>
      HashesUpTo(cfg, script, t) == HashesUpTo(cfg, script, t - 1) + {cfg.hash(script.turns(t).reply.value.content)}
  {
  }

  // ---- Why a run ends ----

  datatype Exit =
    | Rejected | Unhealthy(reason: string) | TurnLimit | CancelledAtHead | ModelFailed(reason: string) | DuplicateReply
    | TaskComplete(summary: string, status: string) | MentorGone | CancelledWhileMentor | NoTools
    | CancelledInConfirmation

  /** How many calls were counted, and everything that was done. */
  datatype Tally = Tally(calls: nat, log: Log)

  const NOTHING: Tally := Tally(0, [])

  function Logged(tally: Tally, effects: Log): Tally {
    Tally(tally.calls, tally.log + effects)
  }

  datatype Ending = Ending(turns: nat, tally: Tally, exit: Exit)

  function ExitStatus(x: Exit): TaskStatus {
    match x
    case Rejected => Failed
    case Unhealthy(_) => Failed
    case TurnLimit => Completed
    case CancelledAtHead => Cancelled
    case ModelFailed(_) => Failed
    case DuplicateReply => Failed
    case TaskComplete(_, _) => Completed
    case MentorGone => Cancelled
    case CancelledWhileMentor => Cancelled
    case NoTools => Failed
    case CancelledInConfirmation => Cancelled
  }

  /** The terminal event of each exit. */
  function ExitEvent(cfg: Config, exit: Exit, turns: nat, calls: nat): Event {
    match exit
    case Rejected => Error(RejectedText())
    case Unhealthy(reason) => Error("LLM health check failed before starting task: " + reason)
    case TurnLimit => Done(LimitText(cfg.maxTurns), "partial", turns, calls)
    case CancelledAtHead => Done("Task cancelled by mentor.", "cancelled", turns, calls)
    case ModelFailed(reason) => Error(ModelFailedText(cfg, reason))
    case DuplicateReply => Done(DuplicateText(turns), "failed", turns, calls)
    case TaskComplete(summary, status) => Done(summary, status, turns, calls)
    case MentorGone => Done("Task cancelled (mentor channel closed).", "cancelled", turns, calls)
    case CancelledWhileMentor => Done("Task cancelled by mentor.", "cancelled", turns, calls)
    case NoTools => Done(NoToolsText(3), "failed", turns, calls)
    case CancelledInConfirmation => Done("Task cancelled by mentor.", "cancelled", turns, calls)
  }

  /** Every exit has a terminal event with the run's counts and a terminal status; errors fail the task. */
  lemma ExitFacts(cfg: Config, exit: Exit, turns: nat, calls: nat)
    ensures var ev := ExitEvent(cfg, exit, turns, calls);
      TerminalEvent(ev) && TerminalStatus(ExitStatus(exit)) && (ev.Error? ==> ExitStatus(exit) == Failed)
      && (ev.Done? ==> ev.turnsUsed == turns && ev.toolCalls == calls)
  {
    hide RejectedText, LimitText, ModelFailedText, DuplicateText, NoToolsText;
  }

  /** Which exits fail, cancel or complete the task, and that event, status and record say the same. Only a completing
      model chooses its own words. */
  lemma ExitsAgree(cfg: Config, exit: Exit, turns: nat, calls: nat)
    ensures var ev, status := ExitEvent(cfg, exit, turns, calls), ExitStatus(exit);
      (status == Cancelled <==>
        exit in {CancelledAtHead, MentorGone, CancelledWhileMentor, CancelledInConfirmation})
      && (status == Completed <==> exit.TurnLimit? || exit.TaskComplete?)
      && (ev.Error? <==> exit.Rejected? || exit.Unhealthy? || exit.ModelFailed?)
      && (exit.TaskComplete? ==> ev == Done(exit.summary, exit.status, turns, calls))
      && (ev.Done? && !exit.TaskComplete? ==>
            ev.status == if status == Cancelled then "cancelled" else if status == Failed then "failed" else "partial")
      && Matches(ExitRecord(ev, turns, calls), ev, turns, calls)
  {
    hide RejectedText, LimitText, ModelFailedText, DuplicateText, NoToolsText;
  }

  /** What is wrapped for the model ends in what was wrapped. */
  lemma TextsCarry(name: string, text: string)
    ensures EndsWith(MentorText(text), text) && EndsWith(SyntheticText(name, text), text)
    ensures EndsWith(CouncilPlanText(text), text)
  {
    hide SyntheticText, MentorText;
    SyntheticCarries(name, text);
  }

  lemma SyntheticCarries(name: string, text: string)
    ensures EndsWith(MentorText(text), text) && EndsWith(SyntheticText(name, text), text)
  {
    hide CouncilPlanText;
  }

  /** The calls of a turn all send the same conversation. There are two exactly if the council is asked and has enough
      providers, and the second carries the plan exactly if the council has made one. */
  lemma ModelCallsFacts(cfg: Config, ts: TurnScript, messages: seq<Message>)
    ensures var calls := ModelCalls(cfg, ts, messages);
      var council := cfg.useCouncil && cfg.mode == ThinkHarder;
      (forall e :: e in calls ==> e.CallLlm? && e.messages == messages)
      && |calls| == (if council && !ts.council.FewProviders? then 2 else 1)
      && calls[0].plan == None
      && calls[|calls| - 1].plan ==
           (if council && ts.council.Plan? then Some(Message("user", CouncilPlanText(ts.council.text))) else None)
  {
    hide CouncilPlanText;
  }

  function RejectedText(): string {
    "Agentic task rejected: Ego/cloud provider required for tool calling. "
    + "Local Id is heartbeat-only. Configure OPENAI_API_KEY (or equivalent) in .env"
  }

  function ModelFailedText(cfg: Config, reason: string): string {
    (if cfg.useCouncil && cfg.mode == ThinkHarder then "Council+execution failed: " else "LLM call failed: ") + reason
  }

  /** The record of each exit: its event's text and status, and the counts. */
  function ExitRecord(ev: Event, turns: nat, calls: nat): RunSummary {
    match ev
    case Done(summary, status, _, _) => RunSummary(summary, status, turns, calls)
    case Error(message) => RunSummary(message, "failed", turns, calls)
    case _ => RunSummary("", "failed", turns, calls)
  }

  /** The tail of every exit: its event, its status, its record. */
  function Closing(cfg: Config, exit: Exit, turns: nat, calls: nat): Log {
    var ev := ExitEvent(cfg, exit, turns, calls);
    [Emit(ev), SetStatus(ExitStatus(exit)), Persist(ExitRecord(ev, turns, calls))]
  }

  // ---- The calls of a turn ----

  datatype CallsRun = CallsRun(tally: Tally, entries: seq<string>, cancelled: bool)

  /** A call is counted, and leaves its effects and, unless it is cancelled, its entry. */
  function AfterCall(cfg: Config, cs: CallScript, r: Request, advisory: Option<string>, t: nat, run: CallsRun): CallsRun
  {
    CallsRun(
      Tally(run.tally.calls + 1, run.tally.log + CallEffects(cfg, cs, r, advisory, t)),
      if Cancels(cfg, cs, r, advisory) then run.entries else run.entries + [AnswerOf(cfg, cs, r, advisory).entry],
      Cancels(cfg, cs, r, advisory))
  }

  /** The calls of turn `t`, one by one, up to and including the first that is cancelled. */
  function RunCalls(cfg: Config, ts: TurnScript, t: nat, requests: seq<Request>, i: nat, run: CallsRun): CallsRun
    requires i <= |requests|
    decreases |requests| - i
  {
    if i == |requests| || run.cancelled then run
    else if requests[i].name in SYNTHETIC then RunCalls(cfg, ts, t, requests, i + 1, run)
    else
      RunCalls(cfg, ts, t, requests, i + 1, AfterCall(cfg, ts.calls(i), requests[i], AdvisoryCode(ts.superego), t, run))
  }

  lemma RunCallsStep(cfg: Config, ts: TurnScript, t: nat, requests: seq<Request>, i: nat, run: CallsRun)
    requires i < |requests| && !run.cancelled
    ensures RunCalls(cfg, ts, t, requests, i, run) ==
      if requests[i].name in SYNTHETIC then RunCalls(cfg, ts, t, requests, i + 1, run)
      else
        var after := AfterCall(cfg, ts.calls(i), requests[i], AdvisoryCode(ts.superego), t, run);
        if after.cancelled then after else RunCalls(cfg, ts, t, requests, i + 1, after)
  {
    hide AfterCall;
  }

  lemma RunCallsDone(cfg: Config, ts: TurnScript, t: nat, requests: seq<Request>, run: CallsRun)
    ensures RunCalls(cfg, ts, t, requests, |requests|, run) == run
  {
  }

  lemma LoggedNothing(tally: Tally)
    ensures Logged(tally, []) == tally
  {
    assert tally.log + [] == tally.log;
  }

  // ---- The synthetic tools that answer at once ----

  /** A synthetic result is shown and said, and counts for nothing. */
  function SyntheticEffects(t: nat, name: string, success: bool, text: string): Log {
    [Emit(ToolResult(t, name, success, text)), Say(Message("user", SyntheticText(name, text)))]
  }

  /** The first registration of a turn, if it names a server and its address. */
  predicate AsksToRegister(requests: seq<Request>) {
    HasTool(requests, "register_mcp_skill")
    && var args := FindTool(requests, "register_mcp_skill").arguments;
    FieldOr(args, "server_id", "") != "" && FieldOr(args, "base_url", "") != ""
  }

  /** The turn changes the tools, and so the next one its system prompt. */
  predicate Registers(ts: TurnScript, requests: seq<Request>) {
    AsksToRegister(requests) && ts.registered.Ok?
  }

  function RegisterText(ts: TurnScript, requests: seq<Request>): string {
    if !AsksToRegister(requests) then "register_mcp_skill failed: server_id and base_url are required."
    else
      match ts.registered
      case Ok(message) => message
      case Err(e) => "register_mcp_skill failed: " + e
  }

  function RegisterEffects(ts: TurnScript, requests: seq<Request>, t: nat): Log {
    if HasTool(requests, "register_mcp_skill")
    then SyntheticEffects(t, "register_mcp_skill", Registers(ts, requests), RegisterText(ts, requests))
    else []
  }

  const ANSWERED_TOOLS: seq<string> := ["register_email_account", "manage_job", "manage_proxy", "write_review"]

  function ReplyOf(ts: TurnScript, name: string): string {
    if name in ts.replies then ts.replies[name] else ""
  }

  predicate Refused(name: string, text: string) {
    StartsWith(text, name + " failed")
    || (name == "register_email_account" && StartsWith(text, "register_email_account arguments invalid"))
  }

  /** The first `n` of the tools that are answered from outside, each for its first request in the reply. */
  function AnsweredEffects(ts: TurnScript, requests: seq<Request>, t: nat, n: nat): Log
    requires n <= |ANSWERED_TOOLS|
  {
    if n == 0 then []
    else
      var name := ANSWERED_TOOLS[n - 1];
      AnsweredEffects(ts, requests, t, n - 1)
      + (if HasTool(requests, name)
         then SyntheticEffects(t, name, !Refused(name, ReplyOf(ts, name)), ReplyOf(ts, name)) else [])
  }

  // ---- The course ----

  /** The loop between two turns: what was done, the streak of turns without tools, whether the tools changed. */
  datatype Loop = Loop(tally: Tally, streak: nat, changed: bool)

  const START: Loop := Loop(NOTHING, 0, false)

  datatype Step = Go(next: Loop) | Stop(ending: Ending)

  function AskEnd(ts: TurnScript, requests: seq<Request>, t: nat, tally: Tally, streak: nat): Step
    requires HasTool(requests, "ask_mentor")
  {
    var question := FieldOr(FindTool(requests, "ask_mentor").arguments, "question", "I need your input.");
    var asked := Logged(tally, [Emit(MentorNeeded(t, question)), SetStatus(WaitingForMentor)]);
    match ts.mentor
    case MentorReply(text) =>
      Go(Loop(Logged(asked, [Say(Message("user", MentorText(text))), SetStatus(Running)]), streak, false))
    case ChannelDropped => Stop(Ending(t, asked, MentorGone))
    case CancelledWhileAsked => Stop(Ending(t, asked, CancelledWhileMentor))
  }

  /** A turn without requests: nudged, or stopped at the third in a row. */
  function IdleEnd(t: nat, tally: Tally, streak: nat): Step {
    if streak >= 2 then Stop(Ending(t, Logged(tally, [Emit(Warning(t, NoToolsText(streak + 1)))]), NoTools))
    else Go(Loop(Logged(tally, [Say(Message("user", NudgeText(streak + 1)))]), streak + 1, false))
  }

  /** A turn with requests: its synthetic tools are answered, its calls made, and their entries fed back together. */
  function CallsEnd(cfg: Config, ts: TurnScript, requests: seq<Request>, t: nat, tally: Tally): Step {
    var answered := Logged(Logged(tally, RegisterEffects(ts, requests, t)),
                           AnsweredEffects(ts, requests, t, |ANSWERED_TOOLS|));
    var run := RunCalls(cfg, ts, t, requests, 0, CallsRun(answered, [], false));
    if run.cancelled then Stop(Ending(t, run.tally, CancelledInConfirmation))
    else
      var fed := if run.entries == [] then run.tally else Logged(run.tally, [Feed(run.entries)]);
      Go(Loop(fed, 0, Registers(ts, requests)))
  }

  /** What a turn makes of the requests of its reply; `t` counts it already. */
  function ActStep(cfg: Config, ts: TurnScript, requests: seq<Request>, t: nat, tally: Tally, streak: nat): Step {
    if HasTool(requests, "task_complete") then
      var args := FindTool(requests, "task_complete").arguments;
      var exit := TaskComplete(FieldOr(args, "summary", "Task completed."), FieldOr(args, "status", "success"));
      Stop(Ending(t, tally, exit))
    else if HasTool(requests, "ask_mentor") then AskEnd(ts, requests, t, tally, streak)
    else if requests == [] then IdleEnd(t, tally, streak)
    else CallsEnd(cfg, ts, requests, t, tally)
  }

  /** What is shown and said of a reply before it is acted on. */
  function HeardReply(cfg: Config, t: nat, reply: Completion): Log {
    var clean := Parsed(reply.content, cfg.decoders.request).0;
    (if Trim(clean) != "" then [Emit(Thinking(t, clean))] else []) + [Say(Message("assistant", reply.content))]
  }

  /** What a turn makes of a reply. */
  function ReplyStep(cfg: Config, script: Script, t: nat, reply: Completion, tally: Tally, streak: nat): Step {
    if Repeats(cfg, script, t) then Stop(Ending(t, Logged(tally, [Emit(Warning(t, DuplicateText(t)))]), DuplicateReply))
    else
      var heard := Logged(tally, HeardReply(cfg, t, reply));
      ActStep(cfg, script.turns(t), MergedRequests(cfg.decoders, reply), t, heard, streak)
  }

  /** A counted turn: the conversation is trimmed to the budget, the model is called, its reply is acted on. */
  function ModelStep(cfg: Config, script: Script, t: nat, tally: Tally, streak: nat): Step {
    var ts := script.turns(t);
    var kept := TrimTo(Told(tally.log, cfg), ContextTokenBudget(cfg.mode));
    var called := Logged(tally, ModelCalls(cfg, ts, kept));
    match ts.reply
    case Err(e) => Stop(Ending(t, called, ModelFailed(e)))
    case Ok(reply) => ReplyStep(cfg, script, t, reply, called, streak)
  }

  /** Changed tools are announced in a new system prompt at the next loop head. */
  function Refreshed(s: Loop, prompt: string): Tally {
    if s.changed then Logged(s.tally, [Refresh(prompt)]) else s.tally
  }

  /** One iteration from a loop head with `t` turns behind it. */
  function TurnStep(cfg: Config, script: Script, t: nat, s: Loop): Step {
    var ts := script.turns(t + 1);
    var tally := Refreshed(s, ts.refreshedPrompt);
    if t >= cfg.maxTurns then Stop(Ending(t, tally, TurnLimit))
    else if ts.cancelled then Stop(Ending(t, tally, CancelledAtHead))
    else ModelStep(cfg, script, t + 1, tally, s.streak)
  }

  /** A reply before turn `t` came back and hashes to `h`. */
  predicate HashedBefore(cfg: Config, script: Script, t: nat, h: int) {
    exists i :: 1 <= i < t && script.turns(i).reply.Ok? && cfg.hash(script.turns(i).reply.value.content) == h
  }

  /** The reply of turn `t` hashes like an earlier one. */
  predicate Repeats(cfg: Config, script: Script, t: nat) {
    script.turns(t).reply.Ok? && HashedBefore(cfg, script, t, cfg.hash(script.turns(t).reply.value.content))
  }

  function CourseFrom(cfg: Config, script: Script, t: nat, s: Loop): Ending
    decreases cfg.maxTurns - t
  {
    match TurnStep(cfg, script, t, s)
    case Stop(e) => e
    case Go(next) => CourseFrom(cfg, script, t + 1, next)
  }

  /** How the run goes, from pre-flight on. */
  function Course(cfg: Config, script: Script): Ending {
    if !script.egoAvailable then Ending(0, NOTHING, Rejected)
    else if script.heartbeatError.Some? then Ending(0, NOTHING, Unhealthy(script.heartbeatError.value))
    else CourseFrom(cfg, script, 0, START)
  }

  lemma {:induction false} RepeatsIsSeen(cfg: Config, script: Script, t: nat, h: int)
    ensures h in HashesUpTo(cfg, script, t) <==> HashedBefore(cfg, script, t + 1, h)
  {
    if t > 0 {
      RepeatsIsSeen(cfg, script, t - 1, h);
    }
  }

  lemma RepeatsIffSeen(cfg: Config, script: Script, t: nat)
    requires t > 0 && script.turns(t).reply.Ok?
    ensures Repeats(cfg, script, t) <==> cfg.hash(script.turns(t).reply.value.content) in HashesUpTo(cfg, script, t - 1)
  {
    RepeatsIsSeen(cfg, script, t - 1, cfg.hash(script.turns(t).reply.value.content));
  }

  // ---- Main results ----

  /** Replies up to turn `t` came back and hash differently. */
  ghost predicate Fresh(cfg: Config, script: Script, t: nat) {
    forall i :: 1 <= i <= t ==> script.turns(i).reply.Ok? && !Repeats(cfg, script, i)
  }

  /** Every turn but the last has a reply that came back and repeats none before it; the run is stopped as a
      duplicate exactly when the last reply repeats an earlier one; and no run goes beyond the limit. */
  lemma {:induction false} CourseFacts(cfg: Config, script: Script, t: nat, s: Loop)
    requires Fresh(cfg, script, t) && t <= cfg.maxTurns && s.streak < 3
    ensures var e := CourseFrom(cfg, script, t, s);
      t <= e.turns <= cfg.maxTurns && s.tally.calls <= e.tally.calls
      && (e.turns > 0 ==> Fresh(cfg, script, e.turns - 1))
      && (e.exit.DuplicateReply? <==> e.turns > 0 && Repeats(cfg, script, e.turns))
      && (e.exit.ModelFailed? <==> e.turns > 0 && script.turns(e.turns).reply.Err?)
      && (e.exit.TurnLimit? ==> e.turns == cfg.maxTurns)
    decreases cfg.maxTurns - t
  {
    hide CourseFrom, TurnStep, Repeats;
    CourseUnfold(cfg, script, t, s);
    StepFacts(cfg, script, t, s);
    match TurnStep(cfg, script, t, s) {
      case Stop(e) =>
      case Go(next) => CourseFacts(cfg, script, t + 1, next);
    }
  }

  lemma CourseUnfold(cfg: Config, script: Script, t: nat, s: Loop)
    ensures CourseFrom(cfg, script, t, s) ==
      match TurnStep(cfg, script, t, s)
      case Stop(e) => e
      case Go(next) => CourseFrom(cfg, script, t + 1, next)
    ensures TurnStep(cfg, script, t, s).Go? ==> t < cfg.maxTurns
  {
    hide ActStep, Repeats;
  }

  /** One turn, as far as its reply and its counters go. */
  lemma StepFacts(cfg: Config, script: Script, t: nat, s: Loop)
    requires t <= cfg.maxTurns && s.streak < 3
    ensures match TurnStep(cfg, script, t, s)
      case Go(next) =>
        t < cfg.maxTurns && s.tally.calls <= next.tally.calls && next.streak < 3
        && script.turns(t + 1).reply.Ok? && !Repeats(cfg, script, t + 1)
      case Stop(e) =>
        t <= e.turns <= t + 1 && e.turns <= cfg.maxTurns && s.tally.calls <= e.tally.calls
        && (e.turns == t <==> e.exit.TurnLimit? || e.exit.CancelledAtHead?)
        && (e.exit.TurnLimit? ==> t == cfg.maxTurns)
        && (e.turns == t + 1 ==>
              (e.exit.ModelFailed? <==> script.turns(t + 1).reply.Err?)
              && (e.exit.DuplicateReply? <==> Repeats(cfg, script, t + 1)))
  {
    hide ActStep, MergedRequests, DuplicateText, TrimTo, Told, ModelCalls, HeardReply, HashedBefore;
    ActFacts(cfg, script, t + 1);
  }

  /** What acting on a reply does to calls and streak, and which exits it has. */
  lemma ActFacts(cfg: Config, script: Script, t: nat)
    ensures forall requests, tally, streak: nat ::
      var ts := script.turns(t);
      var step := ActStep(cfg, ts, requests, t, tally, streak);
      (if step.Go? then
         step.next.tally.calls >= tally.calls
         && step.next.streak == (
              if HasTool(requests, "ask_mentor") then streak else if requests == [] then streak + 1 else 0)
         && (requests == [] ==> streak < 2)
         && (requests == [] || HasTool(requests, "ask_mentor") ==> step.next.tally.calls == tally.calls)
       else
         var e := step.ending;
         e.turns == t && e.tally.calls >= tally.calls && (e.exit.NoTools? <==> requests == [] && streak >= 2)
         && (requests == [] ==> e.tally.calls == tally.calls)
         && !e.exit.TurnLimit? && !e.exit.CancelledAtHead? && !e.exit.ModelFailed? && !e.exit.DuplicateReply?)
      && (step.Go? <==>
            !HasTool(requests, "task_complete")
            && if HasTool(requests, "ask_mentor") then ts.mentor.MentorReply?
               else if requests == [] then streak < 2
               else !CancelsSome(cfg, ts, requests, 0))
  {
    hide CallsEnd, FindTool, FieldOr, NudgeText, NoToolsText, MentorText, CancelsSome;
    CallsEndFacts(cfg, script, t);
  }

  /** Calls are only ever added, and the calls of a turn are cancelled exactly if one of them is. */
  lemma CallsEndFacts(cfg: Config, script: Script, t: nat)
    ensures forall requests, tally :: CallsEnd(cfg, script.turns(t), requests, t, tally).Go? ==>
      var next := CallsEnd(cfg, script.turns(t), requests, t, tally).next;
      next.tally.calls >= tally.calls && next.streak == 0 && !CancelsSome(cfg, script.turns(t), requests, 0)
    ensures forall requests, tally :: CallsEnd(cfg, script.turns(t), requests, t, tally).Stop? ==>
      var e := CallsEnd(cfg, script.turns(t), requests, t, tally).ending;
      e.tally.calls >= tally.calls && e.turns == t && e.exit == CancelledInConfirmation
      && CancelsSome(cfg, script.turns(t), requests, 0)
  {
    hide RunCalls, RegisterEffects, AnsweredEffects, Registers, CancelsSome;
    forall requests, tally
      ensures CallsEnd(cfg, script.turns(t), requests, t, tally).Go? ==>
        var next := CallsEnd(cfg, script.turns(t), requests, t, tally).next;
        next.tally.calls >= tally.calls && next.streak == 0 && !CancelsSome(cfg, script.turns(t), requests, 0)
      ensures CallsEnd(cfg, script.turns(t), requests, t, tally).Stop? ==>
        var e := CallsEnd(cfg, script.turns(t), requests, t, tally).ending;
        e.tally.calls >= tally.calls && e.turns == t && e.exit == CancelledInConfirmation
        && CancelsSome(cfg, script.turns(t), requests, 0)
    {
      var ts := script.turns(t);
      var answered := Logged(Logged(tally, RegisterEffects(ts, requests, t)),
                             AnsweredEffects(ts, requests, t, |ANSWERED_TOOLS|));
      RunCallsFacts(cfg, ts, t, requests, 0, CallsRun(answered, [], false));
    }
  }

  /** Some call of the turn is cancelled while it waits for its confirmation. */
  predicate CancelsSome(cfg: Config, ts: TurnScript, requests: seq<Request>, i: nat) {
    exists j :: i <= j < |requests| && requests[j].name !in SYNTHETIC
      && Cancels(cfg, ts.calls(j), requests[j], AdvisoryCode(ts.superego))
  }

  lemma {:induction false} RunCallsFacts(cfg: Config, ts: TurnScript, t: nat, requests: seq<Request>, i: nat,
                                         run: CallsRun)
    requires i <= |requests|
    ensures RunCalls(cfg, ts, t, requests, i, run).tally.calls >= run.tally.calls
    ensures run.entries <= RunCalls(cfg, ts, t, requests, i, run).entries
    ensures run.tally.log <= RunCalls(cfg, ts, t, requests, i, run).tally.log
    ensures RunCalls(cfg, ts, t, requests, i, run).cancelled <==> run.cancelled || CancelsSome(cfg, ts, requests, i)
    decreases |requests| - i
  {
    hide Cancels, CallEffects, AnswerOf;
    if i < |requests| && !run.cancelled {
      var next := if requests[i].name in SYNTHETIC then run
                  else AfterCall(cfg, ts.calls(i), requests[i], AdvisoryCode(ts.superego), t, run);
      RunCallsFacts(cfg, ts, t, requests, i + 1, next);
    }
  }

  /** The requests of a turn whose skills are run, in order: those granted before the first that is cancelled. */
  function GrantedFrom(cfg: Config, ts: TurnScript, requests: seq<Request>, i: nat): seq<Request>
    requires i <= |requests|
    decreases |requests| - i
  {
    if i == |requests| then []
    else
      var r, advisory := requests[i], AdvisoryCode(ts.superego);
      if r.name in SYNTHETIC then GrantedFrom(cfg, ts, requests, i + 1)
      else if Cancels(cfg, ts.calls(i), r, advisory) then []
      else (if Grants(cfg, ts.calls(i), r, advisory) then [r] else []) + GrantedFrom(cfg, ts, requests, i + 1)
  }

  function RunOf(t: nat, requests: seq<Request>): Log {
    seq(|requests|, i requires 0 <= i < |requests| => RunSkill(t, requests[i]))
  }

  /** The skills run are those of the granted requests, once each and in order, and no other. */
  lemma {:induction false} GrantedAreRun(cfg: Config, ts: TurnScript, t: nat, requests: seq<Request>, i: nat,
                                         run: CallsRun)
    requires i <= |requests| && !run.cancelled
    ensures Runs(RunCalls(cfg, ts, t, requests, i, run).tally.log)
         == Runs(run.tally.log) + RunOf(t, GrantedFrom(cfg, ts, requests, i))
    decreases |requests| - i
  {
    hide Cancels, Grants, CallEffects, AnswerOf, Runs;
    if i == |requests| {
      assert RunOf(t, []) == [];
    } else if requests[i].name in SYNTHETIC {
      GrantedAreRun(cfg, ts, t, requests, i + 1, run);
    } else {
      var cs, r, advisory := ts.calls(i), requests[i], AdvisoryCode(ts.superego);
      var after := AfterCall(cfg, cs, r, advisory, t, run);
      CallRuns(cfg, cs, r, advisory, t, run.tally.log);
      CancelsNotGrants(cfg, cs, r, advisory);
      if !after.cancelled {
        GrantedAreRun(cfg, ts, t, requests, i + 1, after);
        var rest := GrantedFrom(cfg, ts, requests, i + 1);
        assert RunOf(t, [r] + rest) == [RunSkill(t, r)] + RunOf(t, rest);
        Reassociate(Runs(run.tally.log), [RunSkill(t, r)], RunOf(t, rest));
        assert [] + rest == rest;
      } else {
        assert RunOf(t, []) == [];
      }
    }
  }

  lemma CancelsNotGrants(cfg: Config, cs: CallScript, r: Request, advisory: Option<string>)
    ensures !(Cancels(cfg, cs, r, advisory) && Grants(cfg, cs, r, advisory))
  {
  }

  lemma CallRuns(cfg: Config, cs: CallScript, r: Request, advisory: Option<string>, t: nat, log: Log)
    ensures Runs(log + CallEffects(cfg, cs, r, advisory, t))
         == Runs(log) + (if Grants(cfg, cs, r, advisory) then [RunSkill(t, r)] else [])
  {
    hide GateOf, AnswerOf, Runs, Asks, Grants, Cancels;
    var effects := CallEffects(cfg, cs, r, advisory, t);
    GrantsOnlyWhenAnswered(cfg, cs, r, advisory);
    if Grants(cfg, cs, r, advisory) {
      var n := |effects| - 2;
      assert effects == effects[..n] + [RunSkill(t, r)] + effects[n + 1..];
      RunsPastQuiet(log, effects[..n]);
      RunsPastQuiet(log + effects[..n] + [RunSkill(t, r)], effects[n + 1..]);
      CountsGrow(log + effects[..n], RunSkill(t, r));
      assert log + effects == log + effects[..n] + [RunSkill(t, r)] + effects[n + 1..];
    } else {
      RunsPastQuiet(log, effects);
    }
  }

  lemma GrantsOnlyWhenAnswered(cfg: Config, cs: CallScript, r: Request, advisory: Option<string>)
    ensures Grants(cfg, cs, r, advisory) ==>
      r.name !in STORE_TOOLS && cs.skillConfirms.Some? && !Cancels(cfg, cs, r, advisory)
  {
  }

  lemma {:induction false} RunsPastQuiet(log: Log, effects: Log)
    requires forall e :: e in effects ==> !e.RunSkill?
    ensures Runs(log + effects) == Runs(log)
  {
    if effects == [] {
      assert log + effects == log;
    } else {
      var before, last := effects[..|effects| - 1], effects[|effects| - 1];
      RunsPastQuiet(log, before);
      CountsGrow(log + before, last);
      assert log + effects == (log + before) + [last];
    }
  }

  /** A model that can only produce contents from a set of k gets at most k + 1 turns, and never more
      than the limit, whatever the hash. */
  lemma TurnsBoundedByContents(cfg: Config, script: Script, contents: set<string>)
    requires forall t :: script.turns(t).reply.Ok? ==> script.turns(t).reply.value.content in contents
    ensures Course(cfg, script).turns <= cfg.maxTurns
    ensures Course(cfg, script).turns <= |contents| + 1
  {
    if script.egoAvailable && script.heartbeatError.None? {
      CourseFacts(cfg, script, 0, START);
      var n := Course(cfg, script).turns;
      if n > 0 {
        DistinctContents(cfg, script, n - 1, contents);
      }
    }
  }

  lemma {:induction false} DistinctContents(cfg: Config, script: Script, t: nat, contents: set<string>)
    requires Fresh(cfg, script, t)
    requires forall i :: 1 <= i <= t ==> script.turns(i).reply.value.content in contents
    ensures t <= |contents|
  {
    if t > 0 {
      var c := script.turns(t).reply.value.content;
      forall i | 1 <= i <= t - 1 ensures script.turns(i).reply.value.content in contents - {c} {
        assert script.turns(t).reply.Ok? && !Repeats(cfg, script, t);
      }
      DistinctContents(cfg, script, t - 1, contents - {c});
    }
  }

  /** A turn that asks the mentor and gets an answer neither ends nor resets a streak of turns without tools. */
  lemma MentorTurnKeepsStreak(cfg: Config, script: Script, t: nat, s: Loop)
    requires t < cfg.maxTurns && !script.turns(t + 1).cancelled && script.turns(t + 1).reply.Ok?
      && !Repeats(cfg, script, t + 1)
    requires var requests := MergedRequests(cfg.decoders, script.turns(t + 1).reply.value);
      HasTool(requests, "ask_mentor") && !HasTool(requests, "task_complete")
    requires script.turns(t + 1).mentor.MentorReply?
    ensures TurnStep(cfg, script, t, s).Go?
    ensures var next := TurnStep(cfg, script, t, s).next;
      next.streak == s.streak && next.tally.calls == s.tally.calls && s.tally.log <= next.tally.log
  {
    hide MergedRequests, Repeats, HasTool, FindTool, FieldOr, TrimTo, Told, ModelCalls, HeardReply, MentorText;
  }

  /** The turn neither had requests nor asked the mentor. */
  predicate Idle(cfg: Config, script: Script, t: nat) {
    script.turns(t).reply.Ok? && MergedRequests(cfg.decoders, script.turns(t).reply.value) == []
  }

  predicate AskedMentor(cfg: Config, script: Script, t: nat) {
    script.turns(t).reply.Ok? && HasTool(MergedRequests(cfg.decoders, script.turns(t).reply.value), "ask_mentor")
  }

  /** Idle turns since the last turn that used a tool, mentor turns passed over. */
  function IdleStreak(cfg: Config, script: Script, t: nat): nat {
    if t == 0 then 0
    else if Idle(cfg, script, t) then IdleStreak(cfg, script, t - 1) + 1
    else if AskedMentor(cfg, script, t) then IdleStreak(cfg, script, t - 1)
    else 0
  }

  /** The no-tool breaker trips exactly at the third idle turn since a tool was last used, not counting
      mentor turns, unless the turn is a duplicate. */
  lemma {:induction false} NoToolsExactly(cfg: Config, script: Script, t: nat, s: Loop)
    requires Fresh(cfg, script, t) && t <= cfg.maxTurns
    requires s.streak == IdleStreak(cfg, script, t) < 3
    ensures var e := CourseFrom(cfg, script, t, s);
      (e.exit.NoTools? <==> e.turns > t && IdleStreak(cfg, script, e.turns) >= 3 && !Repeats(cfg, script, e.turns))
      && (e.exit.NoTools? ==> Idle(cfg, script, e.turns))
    decreases cfg.maxTurns - t
  {
    hide CourseFrom, TurnStep, Repeats, IdleStreak;
    CourseUnfold(cfg, script, t, s);
    StepFacts(cfg, script, t, s);
    IdleStep(cfg, script, t, s);
    match TurnStep(cfg, script, t, s) {
      case Stop(e) =>
      case Go(next) =>
        NoToolsExactly(cfg, script, t + 1, next);
        CourseFacts(cfg, script, t + 1, next);
    }
  }

  lemma IdleStep(cfg: Config, script: Script, t: nat, s: Loop)
    requires t <= cfg.maxTurns && s.streak == IdleStreak(cfg, script, t) < 3
    ensures match TurnStep(cfg, script, t, s)
      case Go(next) => next.streak == IdleStreak(cfg, script, t + 1)
      case Stop(e) =>
        (e.exit.NoTools? <==> e.turns == t + 1 && IdleStreak(cfg, script, t + 1) >= 3 && !Repeats(cfg, script, t + 1))
        && (e.exit.NoTools? ==> Idle(cfg, script, t + 1))
  {
    hide ActStep, MergedRequests, DuplicateText, Repeats, TrimTo, Told, ModelCalls, HeardReply;
    ActFacts(cfg, script, t + 1);
  }

  lemma {:induction false} IdleStreakBound(cfg: Config, script: Script, t: nat)
    ensures IdleStreak(cfg, script, t) <= t
  {
    if t > 0 {
      IdleStreakBound(cfg, script, t - 1);
    }
  }

  /** "Consecutive turns": when the breaker trips, the last three turns were all idle exactly if neither of the two
      before the last asked the mentor. */
  lemma LastThreeIdleIffNoMentor(cfg: Config, script: Script)
    requires Course(cfg, script).exit.NoTools?
    ensures var n := Course(cfg, script).turns;
      3 <= n && Idle(cfg, script, n)
      && (Idle(cfg, script, n - 1) && Idle(cfg, script, n - 2)
          <==> !AskedMentor(cfg, script, n - 1) && !AskedMentor(cfg, script, n - 2))
  {
    hide MergedRequests, CourseFrom, Repeats, Idle, AskedMentor;
    NoToolsExactly(cfg, script, 0, START);
    var n := Course(cfg, script).turns;
    IdleStreakBound(cfg, script, n);
    StreakStep(cfg, script, n);
    StreakStep(cfg, script, n - 1);
    StreakStep(cfg, script, n - 2);
  }

  lemma StreakStep(cfg: Config, script: Script, t: nat)
    requires t > 0
    ensures Idle(cfg, script, t) ==>
      !AskedMentor(cfg, script, t) && IdleStreak(cfg, script, t) == IdleStreak(cfg, script, t - 1) + 1
    ensures !Idle(cfg, script, t) && !AskedMentor(cfg, script, t) ==> IdleStreak(cfg, script, t) == 0
  {
    hide MergedRequests;
  }

  /** A text of `n` characters without a tool request. */
  function Filler(n: nat): string {
    seq(n, _ => 'a')
  }

  /** A script of idle turns, but for the second, which asks the mentor and gets an answer. */
  function MentorScript(): Script {
    var call := CallScript(Err(""), Err(""), None, Answer(None), Err(""));
    Script(true, None, (t: nat) =>
      TurnScript("", false, FewProviders,
        Ok(Completion(Filler(t), if t == 2 then Some([RawCall("", "ask_mentor", "")]) else None)),
        MentorReply("go on"), Err(""), map[], Allow, _ => call))
  }

  lemma FillerRequests(cfg: Config, t: nat)
    ensures var requests := MergedRequests(cfg.decoders, MentorScript().turns(t).reply.value);
      if t == 2 then |requests| == 1 && requests[0].name == "ask_mentor" else requests == []
  {
    hide Scan;
    var completion := MentorScript().turns(t).reply.value;
    NoBlocks(completion.content, cfg.decoders.request);
    assert FirstOccurrences(Requests(StructuredCalls(cfg.decoders, completion)), []) == [];
  }

  lemma NoBlocks(s: string, decode: Decoder)
    requires Free(s, '`') && Free(s, '<')
    ensures Parsed(s, decode).1 == []
  {
    FreeHasNo(s, CODE_MARKER);
    FreeHasNo(s, XML_OPEN);
  }

  /** It does happen, in every configuration with room for four turns and a hash that tells four texts apart: the
      breaker trips at the fourth turn, although the second one asked the mentor. */
  lemma BreakerPassesOverMentor(cfg: Config)
    requires 4 <= cfg.maxTurns
    requires forall i: nat, j: nat :: i < j <= 4 ==> cfg.hash(Filler(i)) != cfg.hash(Filler(j))
    ensures var e := Course(cfg, MentorScript());
      e.turns == 4 && e.exit == NoTools && e.tally.calls == 0 && AskedMentor(cfg, MentorScript(), 2)
  {
    hide TurnStep, MergedRequests, MentorScript;
    var s1 := FillerStep(cfg, 0, START);
    var s2 := FillerStep(cfg, 1, s1.next);
    var s3 := FillerStep(cfg, 2, s2.next);
    var s4 := FillerStep(cfg, 3, s3.next);
    CourseUnfold(cfg, MentorScript(), 0, START);
    CourseUnfold(cfg, MentorScript(), 1, s1.next);
    CourseUnfold(cfg, MentorScript(), 2, s2.next);
    CourseUnfold(cfg, MentorScript(), 3, s3.next);
  }

  lemma FillerStep(cfg: Config, t: nat, s: Loop) returns (step: Step)
    requires t < 4 <= cfg.maxTurns && s.streak < 3 && s.tally.calls == 0
    requires forall i: nat, j: nat :: i < j <= 4 ==> cfg.hash(Filler(i)) != cfg.hash(Filler(j))
    ensures MentorScript().egoAvailable && MentorScript().heartbeatError.None?
    ensures t == 1 ==> AskedMentor(cfg, MentorScript(), 2)
    ensures step == TurnStep(cfg, MentorScript(), t, s)
    ensures if t != 1 && s.streak == 2
      then step.Stop? && step.ending.turns == t + 1 && step.ending.exit == NoTools && step.ending.tally.calls == 0
      else step.Go? && step.next.tally.calls == 0 && step.next.streak == if t == 1 then s.streak else s.streak + 1
  {
    hide MergedRequests, ActStep, Filler, TrimTo, Told, ModelCalls, HeardReply;
    ActFacts(cfg, MentorScript(), t + 1);
    FillerRequests(cfg, t + 1);
    step := TurnStep(cfg, MentorScript(), t, s);
  }

  /** Turn `t` lets the run go on: not cancelled, with a reply that is new and does not complete the task, and with an
      answer from the mentor if it asks, a streak below three if it is idle, and no cancelled call otherwise. */
  predicate GoesOn(cfg: Config, script: Script, t: nat) {
    var ts := script.turns(t);
    !ts.cancelled && ts.reply.Ok? && !Repeats(cfg, script, t)
    && var requests := MergedRequests(cfg.decoders, ts.reply.value);
    !HasTool(requests, "task_complete")
    && if HasTool(requests, "ask_mentor") then ts.mentor.MentorReply?
       else if requests == [] then IdleStreak(cfg, script, t) < 3
       else !CancelsSome(cfg, ts, requests, 0)
  }

  lemma GoesOnIsGo(cfg: Config, script: Script, t: nat, s: Loop)
    requires t < cfg.maxTurns && s.streak == IdleStreak(cfg, script, t) < 3
    ensures TurnStep(cfg, script, t, s).Go? <==> GoesOn(cfg, script, t + 1)
  {
    hide ActStep, MergedRequests, DuplicateText, Repeats, TrimTo, Told, ModelCalls, HeardReply, CancelsSome;
    ActFacts(cfg, script, t + 1);
  }

  /** A run is stopped by its turn limit exactly when every turn up to the limit lets it go on. */
  lemma {:induction false} LimitExactly(cfg: Config, script: Script, t: nat, s: Loop)
    requires t <= cfg.maxTurns && s.streak == IdleStreak(cfg, script, t) < 3
    ensures CourseFrom(cfg, script, t, s).exit.TurnLimit?
       <==> forall i :: t < i <= cfg.maxTurns ==> GoesOn(cfg, script, i)
    decreases cfg.maxTurns - t
  {
    hide CourseFrom, TurnStep, GoesOn, Repeats, IdleStreak;
    CourseUnfold(cfg, script, t, s);
    StepFacts(cfg, script, t, s);
    IdleStep(cfg, script, t, s);
    if t < cfg.maxTurns {
      GoesOnIsGo(cfg, script, t, s);
    }
    match TurnStep(cfg, script, t, s) {
      case Stop(e) => StopIsNoLimit(cfg, script, t, s);
      case Go(next) => LimitExactly(cfg, script, t + 1, next);
    }
  }

  lemma StopIsNoLimit(cfg: Config, script: Script, t: nat, s: Loop)
    requires t <= cfg.maxTurns && TurnStep(cfg, script, t, s).Stop?
    ensures TurnStep(cfg, script, t, s).ending.exit.TurnLimit? <==> t == cfg.maxTurns
  {
    hide ActStep, HasTool, MergedRequests, DuplicateText, Repeats, TrimTo, Told, ModelCalls, HeardReply;
    ActFacts(cfg, script, t + 1);
  }

  // ---- Launching ----

  const MAX_TURNS: nat := 50

  /** `launch_agentic_task_internal`, up to the configuration of the run: the asked-for turns are clamped. */
  function Launch(cfg: Config, birthComplete: bool, goal: string, asked: nat, active: bool): (r: Result<Config, string>)
    ensures r.Ok? <==> birthComplete && Trim(goal) != "" && !active
    ensures r.Ok? ==> r.value == cfg.(maxTurns := r.value.maxTurns) && 1 <= r.value.maxTurns <= MAX_TURNS
    ensures r.Ok? && 1 <= asked <= MAX_TURNS ==> r.value.maxTurns == asked
    ensures r.Ok? ==> (r.value.maxTurns <= asked || asked == 0) && (asked > MAX_TURNS ==> r.value.maxTurns == MAX_TURNS)
  {
    if !birthComplete then Err("Agent birth must be complete before agentic mode")
    else if Trim(goal) == "" then Err("goal is required")
    else if active then Err("Agent already has a running agentic task")
    else Ok(cfg.(maxTurns := if asked < 1 then 1 else if asked > MAX_TURNS then MAX_TURNS else asked))
  }

  /** No launched run takes more than fifty turns, or more than it was asked to take, if that was at least one. */
  lemma LaunchedRunIsBounded(cfg: Config, birthComplete: bool, goal: string, asked: nat, active: bool, script: Script)
    requires Launch(cfg, birthComplete, goal, asked, active).Ok?
    ensures var e := Course(Launch(cfg, birthComplete, goal, asked, active).value, script);
      e.turns <= MAX_TURNS && (asked >= 1 ==> e.turns <= asked)
  {
    var cfg' := Launch(cfg, birthComplete, goal, asked, active).value;
    if script.egoAvailable && script.heartbeatError.None? {
      CourseFacts(cfg', script, 0, START);
    }
  }
}
