/** The autonomous agentic loop (crates/orion-api/src/agentic.rs, `run_agentic_loop`).

    Every `await` is answered from a script fixed before the run and otherwise arbitrary, so a property of
    all runs is a property of all scripts. */
module AgenticLoop {
  import opened Text
  import opened ToolBlocks
  import opened ToolExtraction
  import opened ContextTrim
  import opened Policy
  import opened AgenticScript
  import opened AgenticTrace
  import opened AgenticCalls
  import opened AgenticCourse

  class AgenticTask {
    var status: TaskStatus
    var turn: nat
    var toolCalls: nat
    var completed: bool

    constructor ()
      ensures status == Running && turn == 0 && toolCalls == 0 && !completed
    {
      status, turn, toolCalls, completed := Running, 0, 0, false;
    }

    predicate IsTerminal()
      reads this
    {
      TerminalStatus(status)
    }

    /** `update_status`: the completion time is set once, at the first terminal status. */
    method UpdateStatus(s: TaskStatus, t: nat)
      modifies this
      ensures status == s && turn == t && toolCalls == old(toolCalls)
      ensures completed == (old(completed) || TerminalStatus(s))
    {
      status := s;
      turn := t;
      if IsTerminal() && !completed {
        completed := true;
      }
    }
  }

  class AgenticRun {
    const cfg: Config
    const script: Script
    const task: AgenticTask
    var messages: seq<Message>
    var turn: nat
    var totalToolCalls: nat
    var noToolStreak: nat
    var seen: set<int>
    var toolsChanged: bool
    var log: Log
    ghost var heads: seq<Head>

    constructor (cfg: Config, script: Script, task: AgenticTask)
      requires task.status == Running && !task.completed
      ensures this.cfg == cfg && this.script == script && this.task == task
      ensures Balanced() && turn == 0 && Now() == START && heads == []
    {
      this.cfg := cfg;
      this.script := script;
      this.task := task;
      messages := [Message("system", cfg.systemPrompt), Message("user", cfg.kickoff)];
      turn, totalToolCalls, noToolStreak, seen, toolsChanged, log, heads := 0, 0, 0, {}, false, [], [];
    }

    /** Nothing final has happened, everything that has was sound, and the conversation is what the log says. */
    ghost predicate Open()
      reads this, task
    {
      Quiet(log) && SkillsLicensed(log, cfg, script) && PromptsSound(log, cfg) && HeadsSound(heads, log, cfg, script)
      && messages == Told(log, cfg) && Anchored(messages, cfg.kickoff) && !task.completed && turn <= cfg.maxTurns
    }

    /** This many of the counted calls have no result yet, and this many have not been fed back. */
    ghost predicate Owes(results: nat, entries: nat)
      reads this, task
    {
      Open() && Results(log) + results == totalToolCalls && Fed(log) + entries == totalToolCalls
      && !Awaiting(log) && !Calling(log)
      && noToolStreak < 3 && |seen| == turn && seen == HashesUpTo(cfg, script, turn)
      && Replies(log) == RepliesUpTo(script, turn)
    }

    /** Between the phases of a turn: every counted call has its result and its feedback. */
    ghost predicate Balanced()
      reads this, task
    {
      Owes(0, 0) && task.status == Running
    }

    /** `n` results of this turn are still to be fed back. */
    ghost predicate Pending(n: nat)
      reads this, task
    {
      Owes(0, n) && task.status == Running
    }

    /** The same, with one more call counted whose result is still due. */
    ghost predicate Counted(n: nat)
      reads this, task
    {
      Owes(1, n + 1) && task.status == Running
    }

    /** A counted turn whose reply has not been taken up yet. */
    ghost predicate Asking()
      reads this, task
    {
      Open() && Results(log) == totalToolCalls && Fed(log) == totalToolCalls && !Awaiting(log)
      && noToolStreak < 3 && task.status == Running && !toolsChanged
      && turn > 0 && |seen| == turn - 1 && seen == HashesUpTo(cfg, script, turn - 1)
      && Replies(log) == RepliesUpTo(script, turn - 1)
    }

    /** How a run may end. */
    ghost predicate Closed()
      reads this, task
    {
      Concluded(log, turn, totalToolCalls)
      && SkillsLicensed(log, cfg, script) && PromptsSound(log, cfg) && HeadsSound(heads, log, cfg, script)
      && task.IsTerminal() && task.completed && task.turn == turn <= cfg.maxTurns
      && Results(log) + (if CutShort(log) then 1 else 0) == totalToolCalls
      && turn <= |seen| + 1 && seen <= HashesUpTo(cfg, script, turn) && Replies(log) == RepliesUpTo(script, |seen|)
    }

    /** The calls counted and everything done so far. */
    ghost function Done(): Tally
      reads this
    {
      Tally(totalToolCalls, log)
    }

    ghost function Now(): Loop
      reads this
    {
      Loop(Done(), noToolStreak, toolsChanged)
    }

    // ---- Recording effects ----

    /** Every effect but the final ones: it is noted, and the conversation hears what it says. */
    method Record(e: Effect)
      requires Open() && !Final(e)
      requires e.CallLlm? ==> PromptSound(log + [e], |log|, cfg)
      requires e.RunSkill? ==> Licensed(log + [e], |log|, cfg, script)
      modifies this`log, this`messages
      ensures Open() && log == old(log) + [e] && messages == Heard(old(messages), e)
      ensures Results(log) == old(Results(log)) + ResultWeight(e)
      ensures Fed(log) == old(Fed(log)) + FedWeight(e)
      ensures Replies(log) == Replied(old(Replies(log)), e)
      ensures (Awaiting(log) <==> e == SetStatus(WaitingForConfirmation)) && (Calling(log) <==> e.CallLlm?)
    {
      hide Licensed, HeadSound, Anchored, Results, Fed, Runs, Replies, Told, Heard, Fitted, Trimmed;
      CountsGrow(log, e);
      ToldGrows(log, e, cfg);
      LicencesGrow(log, e, cfg, script);
      PromptsGrow(log, e, cfg);
      HeadsStay(heads, log, e, cfg, script);
      if e.CallLlm? {
        HeardCall(messages, e);
        assert (log + [e])[|log|] == e;
      } else {
        HeardAnchored(messages, e, cfg.kickoff);
      }
      messages := Heard(messages, e);
      log := log + [e];
    }

    /** Terminal event, terminal status, summary on disk: the tail of every exit. */
    method Conclude(ev: Event, status: TaskStatus, run: RunSummary)
      requires Open() && TerminalEvent(ev) && TerminalStatus(status) && (ev.Error? ==> status == Failed)
      requires Matches(run, ev, turn, totalToolCalls)
      requires Results(log) + (if Awaiting(log) then 1 else 0) == totalToolCalls
      requires turn <= |seen| + 1 && seen <= HashesUpTo(cfg, script, turn)
      requires Replies(log) == RepliesUpTo(script, |seen|)
      modifies this`log, task
      ensures Closed() && log == old(log) + [Emit(ev), SetStatus(status), Persist(run)]
    {
      hide Licensed, HeadSound, Anchored, Results, Fed, Runs, Replies, Told, HashesUpTo, RepliesUpTo, PromptSound;
      ghost var before := log;
      var e0, e1, e2 := Emit(ev), SetStatus(status), Persist(run);
      FinalGrow(e0);
      task.UpdateStatus(status, turn);
      log := log + [e0];
      FinalGrow(e1);
      log := log + [e1];
      FinalGrow(e2);
      log := log + [e2];
      assert log[..|log| - 3] == before;
    }

    /** What a closing effect keeps. */
    lemma FinalGrow(e: Effect)
      requires SkillsLicensed(log, cfg, script) && PromptsSound(log, cfg) && HeadsSound(heads, log, cfg, script)
      requires e.Emit? || e.SetStatus? || e.Persist?
      ensures SkillsLicensed(log + [e], cfg, script) && PromptsSound(log + [e], cfg)
      ensures HeadsSound(heads, log + [e], cfg, script)
      ensures Results(log + [e]) == Results(log) + ResultWeight(e) && Replies(log + [e]) == Replies(log)
    {
      hide Licensed, HeadSound, PromptSound, Results, Replies;
      CountsGrow(log, e);
      LicencesGrow(log, e, cfg, script);
      PromptsGrow(log, e, cfg);
      HeadsStay(heads, log, e, cfg, script);
    }

    /** Every exit of the loop: its event, its status and its record. */
    method End(exit: Exit)
      requires Open() && (Awaiting(log) <==> exit.CancelledInConfirmation?)
      requires Results(log) + (if Awaiting(log) then 1 else 0) == totalToolCalls
      requires turn <= |seen| + 1 && seen <= HashesUpTo(cfg, script, turn)
      requires Replies(log) == RepliesUpTo(script, |seen|)
      modifies this`log, task
      ensures Closed() && EndedAs(Ending(turn, old(Done()), exit))
    {
      hide Open, Closed, ExitEvent, ExitStatus, Results, Replies, HashesUpTo, RepliesUpTo, Told;
      var ev := ExitEvent(cfg, exit, turn, totalToolCalls);
      ExitFacts(cfg, exit, turn, totalToolCalls);
      ghost var before := log;
      Conclude(ev, ExitStatus(exit), ExitRecord(ev, turn, totalToolCalls));
      assert log[..|log| - 3] == before;
    }

    /** The run ended with these turns and calls, and did just this and the closing of this exit; and it was cut short
        of a result exactly if a cancel ended it while a confirmation was pending. */
    ghost predicate EndedAs(e: Ending)
      reads this
    {
      turn == e.turns && totalToolCalls == e.tally.calls
      && log == e.tally.log + Closing(cfg, e.exit, e.turns, e.tally.calls)
      && CutShort(log) == (e.exit == CancelledInConfirmation)
    }

    /** What was done is what the course says: go on with these counters, or end like this. */
    ghost predicate Follows(going: bool, step: Step)
      reads this, task
    {
      match step
      case Go(next) => going && Balanced() && Now() == next
      case Stop(e) => !going && Closed() && EndedAs(e)
    }

    // ---- The loop ----

    /** One run, from pre-flight to its end. */
    method Run()
      requires Balanced() && turn == 0 && Now() == START && heads == []
      modifies this, task
      ensures Closed() && EndedAs(Course(cfg, script))
      ensures turn <= |heads| && forall i :: 0 <= i < |heads| ==> heads[i].turn == i
    {
      hide Balanced, Closed, TurnStep, ExitEvent, Closing;
      if !script.egoAvailable {
        EndEarly(Rejected);
        return;
      }
      if script.heartbeatError.Some? {
        EndEarly(Unhealthy(script.heartbeatError.value));
        return;
      }
      var going := true;
      while going
        invariant going ==> Balanced() && CourseFrom(cfg, script, turn, Now()) == Course(cfg, script)
        invariant !going ==> Closed() && EndedAs(Course(cfg, script)) && turn <= |heads|
        invariant going ==> |heads| == turn
        invariant forall i :: 0 <= i < |heads| ==> heads[i].turn == i
        decreases going, cfg.maxTurns - turn
      {
        CourseUnfold(cfg, script, turn, Now());
        NoteHead();
        going := TakeTurn();
      }
    }

    method EndEarly(exit: Exit)
      requires Balanced() && !exit.CancelledInConfirmation?
      modifies this`log, task
      ensures Closed() && EndedAs(Ending(turn, old(Done()), exit))
    {
      hide Licensed, HeadSound, PromptSound, Told, Results, Fed, Replies, RepliesUpTo, Quiet, Anchored, HashesUpTo,
        Concluded,
        ExitEvent, Closing;
      End(exit);
    }

    ghost method NoteHead()
      requires Balanced()
      modifies this`heads
      ensures Balanced() && |heads| == |old(heads)| + 1 && old(heads) <= heads
      ensures heads[|old(heads)|] == Head(|log|, turn, totalToolCalls, noToolStreak, |seen|, messages)
    {
      hide Licensed, PromptSound, Told, Results, Fed, Replies, RepliesUpTo, HashesUpTo;
      assert log[..|log|] == log;
      heads := heads + [Head(|log|, turn, totalToolCalls, noToolStreak, |seen|, messages)];
    }

    /** A skill registered in the last turn is announced in a new system prompt. */
    method RefreshPrompt(prompt: string)
      requires Balanced()
      modifies this`log, this`messages, this`toolsChanged
      ensures Balanced() && !toolsChanged && Done() == Refreshed(old(Now()), prompt)
    {
      hide Licensed, HeadSound, PromptSound, Told, Results, Fed, Replies, RepliesUpTo, HashesUpTo, Quiet, Anchored,
        Heard;
      if toolsChanged {
        Record(Refresh(prompt));
        toolsChanged := false;
      }
    }

    /** One iteration of the loop; `going` says whether the loop goes on. */
    method TakeTurn() returns (going: bool)
      requires Balanced()
      modifies this, task
      ensures heads == old(heads)
      ensures Follows(going, TurnStep(cfg, script, old(turn), old(Now())))
      ensures if going then turn == old(turn) + 1 else turn <= old(turn) + 1
    {
      hide Licensed, HeadSound, PromptSound, Told, Results, Fed, Replies, RepliesUpTo, Quiet, Anchored, Concluded,
        HashesUpTo, ModelStep, ExitEvent, Closing;
      var ts := script.turns(turn + 1);
      RefreshPrompt(ts.refreshedPrompt);
      if turn >= cfg.maxTurns {
        End(TurnLimit);
        return false;
      }
      if ts.cancelled {
        End(CancelledAtHead);
        return false;
      }
      turn := turn + 1;
      going := AskModel(ts);
    }

    /** The rest of a turn, once it is counted: trim, call, react. */
    method AskModel(ts: TurnScript) returns (going: bool)
      requires Asking() && !Calling(log) && ts == script.turns(turn)
      modifies this, task
      ensures heads == old(heads) && turn == old(turn)
      ensures Follows(going, ModelStep(cfg, script, turn, old(Done()), old(noToolStreak)))
    {
      hide Licensed, HeadSound, PromptSound, Told, Results, Fed, Replies, RepliesUpTo, Quiet, Anchored, Concluded,
        HashesUpTo, ReplyStep, ExitEvent, Closing, TrimTo, ModelCalls;
      var reply := CallModel(ts);
      if reply.Err? {
        HashesStep(cfg, script, turn);
        End(ModelFailed(reply.error));
        return false;
      }
      going := React(ts, reply.value);
    }

    /** Trims the conversation to the budget and calls the model, through the council when the run asks for it. */
    method CallModel(ts: TurnScript) returns (reply: Result<Completion, string>)
      requires Asking() && !Calling(log)
      modifies this`log, this`messages
      ensures Asking() && reply == ts.reply && messages == TrimTo(old(messages), ContextTokenBudget(cfg.mode))
      ensures log == old(log) + ModelCalls(cfg, ts, messages)
    {
      hide Licensed, HeadSound, PromptSound, Told, Results, Fed, Replies, RepliesUpTo, Quiet, HashesUpTo, Anchored,
        CouncilPlanText, TrimTo, Trimmed, Heard;
      var kept := TrimToBudget();
      ghost var before := log;
      FirstPrompt(kept, None);
      var first := CallLlm(kept, None);
      HeardCall(messages, first);
      Record(first);
      if cfg.useCouncil && cfg.mode == ThinkHarder && !ts.council.FewProviders? {
        var plan := if ts.council.Plan? then Some(Message("user", CouncilPlanText(ts.council.text))) else None;
        NextPrompt(before, kept, plan);
        var second := CallLlm(kept, plan);
        HeardCall(messages, second);
        Record(second);
      }
      return ts.reply;
    }

    /** Trimming the context before the call keeps the system prompt and the goal where they are. */
    method TrimToBudget() returns (trimmed: seq<Message>)
      requires Anchored(messages, cfg.kickoff)
      ensures trimmed == TrimTo(messages, ContextTokenBudget(cfg.mode)) && Anchored(trimmed, cfg.kickoff)
      ensures Trimmed(messages, ContextTokenBudget(cfg.mode), trimmed) && Fitted(trimmed, ContextTokenBudget(cfg.mode))
    {
      hide TrimTo, Trimmed;
      trimmed := TrimContext(messages, ContextTokenBudget(cfg.mode));
      ghost var budget := ContextTokenBudget(cfg.mode);
      TrimDeterministic(messages, budget, trimmed, TrimTo(messages, budget));
      TrimmedIsFitted(messages, budget, trimmed);
      TrimmedIsAnchored(messages, budget, trimmed, cfg.kickoff);
    }

    /** The first model call of a turn sends what the trim keeps. */
    lemma FirstPrompt(kept: seq<Message>, plan: Option<Message>)
      requires messages == Told(log, cfg) && Trimmed(messages, ContextTokenBudget(cfg.mode), kept)
      requires Anchored(kept, cfg.kickoff) && Fitted(kept, ContextTokenBudget(cfg.mode))
      requires !Calling(log)
      ensures PromptSound(log + [CallLlm(kept, plan)], |log|, cfg)
    {
      hide Told, Trimmed, Fitted, Anchored;
      assert (log + [CallLlm(kept, plan)])[..|log|] == log;
    }

    /** A second one sends the same again. */
    lemma NextPrompt(before: Log, kept: seq<Message>, plan: Option<Message>)
      requires log == before + [CallLlm(kept, None)]
      requires Anchored(kept, cfg.kickoff) && Fitted(kept, ContextTokenBudget(cfg.mode))
      ensures PromptSound(log + [CallLlm(kept, plan)], |log|, cfg)
    {
      hide Told, Trimmed, Fitted, Anchored;
    }

    /** What a turn does with the model's reply. */
    method React(ts: TurnScript, reply: Completion) returns (going: bool)
      requires Asking() && ts == script.turns(turn) && ts.reply == Ok(reply)
      modifies this, task
      ensures heads == old(heads) && turn == old(turn)
      ensures Follows(going, ReplyStep(cfg, script, turn, reply, old(Done()), old(noToolStreak)))
    {
      hide Licensed, HeadSound, PromptSound, Told, Results, Fed, Replies, Quiet, Anchored, Concluded, DuplicateText,
        HashesUpTo, RepliesUpTo, ActStep, ExitEvent, Closing, MergedRequests, Repeats, StructuredCalls, Parsed,
        NumberedFrom, HeardReply;
      HashesStep(cfg, script, turn);
      var cleanContent, calls := ExtractToolCalls(cfg.decoders, reply);
      var requests := Requests(calls);
      var stateHash := cfg.hash(reply.content);
      RepeatsIffSeen(cfg, script, turn);
      if stateHash in seen {
        Record(Emit(Warning(turn, DuplicateText(turn))));
        End(DuplicateReply);
        return false;
      }
      seen := seen + {stateHash};
      TakeUp(reply, cleanContent);
      going := Act(ts, requests);
    }

    /** Shows what the reply says besides its requests, and lets it join the conversation. */
    method TakeUp(reply: Completion, cleanContent: string)
      requires Open() && Results(log) == totalToolCalls && Fed(log) == totalToolCalls && !Awaiting(log)
      requires turn > 0 && script.turns(turn).reply == Ok(reply) && Replies(log) == RepliesUpTo(script, turn - 1)
      requires cleanContent == Parsed(reply.content, cfg.decoders.request).0
      modifies this`log, this`messages
      ensures Open() && Results(log) == totalToolCalls && Fed(log) == totalToolCalls && !Awaiting(log) && !Calling(log)
      ensures Replies(log) == RepliesUpTo(script, turn) && log == old(log) + HeardReply(cfg, turn, reply)
      ensures messages == old(messages) + [Message("assistant", reply.content)]
    {
      hide Licensed, HeadSound, PromptSound, Told, Results, Fed, Replies, Quiet, Anchored, Text.Trim, Parsed;
      if Text.Trim(cleanContent) != "" {
        Record(Emit(Thinking(turn, cleanContent)));
      }
      Record(Say(Message("assistant", reply.content)));
    }

    /** What a turn does with the requests of the reply. */
    method Act(ts: TurnScript, requests: seq<Request>) returns (going: bool)
      requires Balanced() && !toolsChanged && turn > 0 && ts == script.turns(turn)
      modifies this, task
      ensures heads == old(heads) && turn == old(turn)
      ensures Follows(going, ActStep(cfg, ts, requests, turn, old(Done()), old(noToolStreak)))
    {
      hide Licensed, HeadSound, PromptSound, Told, Results, Fed, Replies, RepliesUpTo, Quiet, Anchored, Concluded,
        HashesUpTo, ExitEvent, Closing, RunCalls, FieldOr, AskEnd, IdleEnd, Registers, RegisterEffects, AnsweredEffects;
      if HasTool(requests, "task_complete") {
        var tc := FindTool(requests, "task_complete").arguments;
        End(TaskComplete(FieldOr(tc, "summary", "Task completed."), FieldOr(tc, "status", "success")));
        return false;
      }
      if HasTool(requests, "ask_mentor") {
        going := AskMentor(ts, requests);
        return;
      }
      AnswerSynthetic(ts, requests);
      if requests == [] {
        NothingToAnswer(ts, turn);
        LoggedNothing(old(Done()));
        going := Nudge();
        return;
      }
      noToolStreak := 0;
      going := ExecuteCalls(ts, requests);
    }

    method AskMentor(ts: TurnScript, requests: seq<Request>) returns (going: bool)
      requires Balanced() && !toolsChanged && HasTool(requests, "ask_mentor")
      modifies this, task
      ensures heads == old(heads) && turn == old(turn)
      ensures Follows(going, AskEnd(ts, requests, turn, old(Done()), old(noToolStreak)))
      ensures going ==> messages == old(messages) + [Message("user", MentorText(ts.mentor.text))]
    {
      hide Licensed, HeadSound, PromptSound, Told, Results, Fed, Replies, RepliesUpTo, Quiet, HashesUpTo, Concluded,
        ExitEvent, ExitStatus, Closing, MentorText, Anchored, FieldOr;
      BeginWait(FieldOr(FindTool(requests, "ask_mentor").arguments, "question", "I need your input."));
      match ts.mentor {
        case MentorReply(text) =>
          TakeReply(text);
          return true;
        case ChannelDropped =>
          End(MentorGone);
        case CancelledWhileAsked =>
          End(CancelledWhileMentor);
      }
      return false;
    }

    method BeginWait(question: string)
      requires Balanced()
      modifies this`log, this`messages, task
      ensures task.status == WaitingForMentor && Owes(0, 0) && messages == old(messages)
      ensures log == old(log) + [Emit(MentorNeeded(turn, question)), SetStatus(WaitingForMentor)]
    {
      hide Licensed, HeadSound, PromptSound, Told, Results, Fed, Replies, RepliesUpTo, Quiet, HashesUpTo, Anchored;
      Record(Emit(MentorNeeded(turn, question)));
      task.status := WaitingForMentor;
      task.turn := turn;
      Record(SetStatus(WaitingForMentor));
    }

    method TakeReply(text: string)
      requires Owes(0, 0)
      modifies this`log, this`messages, task
      ensures Balanced() && log == old(log) + [Say(Message("user", MentorText(text))), SetStatus(Running)]
      ensures messages == old(messages) + [Message("user", MentorText(text))]
    {
      hide Licensed, HeadSound, PromptSound, Told, Results, Fed, Replies, RepliesUpTo, Quiet, HashesUpTo, Anchored,
        MentorText;
      Record(Say(Message("user", MentorText(text))));
      task.status := Running;
      Record(SetStatus(Running));
    }

    /** The five synthetic tools that answer at once, each for its first request in the reply. */
    method AnswerSynthetic(ts: TurnScript, requests: seq<Request>)
      requires Balanced() && !toolsChanged
      modifies this`log, this`messages, this`toolsChanged
      ensures Balanced() && toolsChanged == Registers(ts, requests)
      ensures Done() == Logged(Logged(old(Done()), RegisterEffects(ts, requests, turn)),
                               AnsweredEffects(ts, requests, turn, |ANSWERED_TOOLS|))
    {
      hide Licensed, HeadSound, PromptSound, Told, Results, Fed, Replies, RepliesUpTo, Quiet, HashesUpTo, Anchored,
        SyntheticEffects, Registers, RegisterText, Refused;
      NotRegistering(ts, requests);
      if HasTool(requests, "register_mcp_skill") {
        RegisterMcpSkill(ts, requests);
      }
      ghost var registered := log;
      for i := 0 to |ANSWERED_TOOLS|
        invariant Balanced() && toolsChanged == Registers(ts, requests) && totalToolCalls == old(totalToolCalls)
        invariant log == registered + AnsweredEffects(ts, requests, turn, i)
      {
        var name := ANSWERED_TOOLS[i];
        AnsweredAreSynthetic(i);
        if HasTool(requests, name) {
          var text := ReplyOf(ts, name);
          Reassociate(registered, AnsweredEffects(ts, requests, turn, i),
                      SyntheticEffects(turn, name, !Refused(name, text), text));
          SyntheticResult(name, !Refused(name, text), text);
        }
      }
    }

    method RegisterMcpSkill(ts: TurnScript, requests: seq<Request>)
      requires Balanced() && !toolsChanged && HasTool(requests, "register_mcp_skill")
      modifies this`log, this`messages, this`toolsChanged
      ensures Balanced() && toolsChanged == Registers(ts, requests)
      ensures Done() == Logged(old(Done()), RegisterEffects(ts, requests, turn))
    {
      hide Licensed, HeadSound, PromptSound, Told, Results, Fed, Replies, RepliesUpTo, Quiet, HashesUpTo, Anchored,
        FieldOr, SyntheticEffects;
      var args := FindTool(requests, "register_mcp_skill").arguments;
      var text;
      if FieldOr(args, "server_id", "") == "" || FieldOr(args, "base_url", "") == "" {
        text := "register_mcp_skill failed: server_id and base_url are required.";
      } else {
        match ts.registered {
          case Ok(message) => toolsChanged := true; text := message;
          case Err(e) => text := "register_mcp_skill failed: " + e;
        }
      }
      SyntheticResult("register_mcp_skill", toolsChanged, text);
    }

    /** A synthetic result is shown and fed back, and counts for nothing. */
    method SyntheticResult(name: string, success: bool, text: string)
      requires Balanced() && name in SYNTHETIC
      modifies this`log, this`messages
      ensures Balanced() && log == old(log) + SyntheticEffects(turn, name, success, text)
      ensures messages == old(messages) + [Message("user", SyntheticText(name, text))]
    {
      hide Licensed, HeadSound, PromptSound, Told, Results, Fed, Replies, RepliesUpTo, Quiet, HashesUpTo, Anchored,
        SyntheticText;
      Record(Emit(ToolResult(turn, name, success, text)));
      Record(Say(Message("user", SyntheticText(name, text))));
    }

    /** A turn without any request: three in a row end the run. */
    method Nudge() returns (going: bool)
      requires Balanced() && !toolsChanged
      modifies this, task
      ensures heads == old(heads) && turn == old(turn)
      ensures Follows(going, IdleEnd(turn, old(Done()), old(noToolStreak)))
      ensures going ==> messages == old(messages) + [Message("user", NudgeText(noToolStreak))]
    {
      hide Licensed, HeadSound, PromptSound, Told, Results, Fed, Replies, RepliesUpTo, Quiet, HashesUpTo, Concluded,
        NoToolsText, NudgeText, ExitEvent, Closing, Anchored;
      noToolStreak := noToolStreak + 1;
      if noToolStreak >= 3 {
        Record(Emit(Warning(turn, NoToolsText(noToolStreak))));
        End(NoTools);
        return false;
      }
      Record(Say(Message("user", NudgeText(noToolStreak))));
      return true;
    }

    /** The real calls of a turn, in order; their results are fed back together at the end. */
    method ExecuteCalls(ts: TurnScript, requests: seq<Request>) returns (going: bool)
      requires Balanced() && ts == script.turns(turn)
      modifies this, task
      ensures heads == old(heads) && turn == old(turn)
      ensures var run := RunCalls(cfg, ts, turn, requests, 0, CallsRun(old(Done()), [], false));
        Follows(going,
          if run.cancelled then Stop(Ending(turn, run.tally, CancelledInConfirmation))
          else Go(Loop(if run.entries == [] then run.tally else Logged(run.tally, [Feed(run.entries)]),
                       old(noToolStreak), old(toolsChanged))))
        && (going ==>
              |run.entries| == totalToolCalls - old(totalToolCalls)
              && messages == old(messages) + if run.entries == [] then [] else [ResultsMessage(run.entries)])
      ensures going ==> task.turn == turn && task.toolCalls == totalToolCalls
      ensures !going ==> CutShort(log)
    {
      hide Licensed, HeadSound, PromptSound, Told, Results, Fed, Replies, RepliesUpTo, Quiet, HashesUpTo, Concluded,
        Anchored, ExitEvent, Closing, Cancels, ResultsMessage, CallEffects, AnswerOf, RunCalls;
      var toolResults: seq<string> := [];
      var advisory := AdvisoryCode(ts.superego);
      for i := 0 to |requests|
        invariant Pending(|toolResults|) && turn == old(turn) && noToolStreak == old(noToolStreak)
        invariant heads == old(heads) && toolsChanged == old(toolsChanged) && messages == old(messages)
        invariant |toolResults| == totalToolCalls - old(totalToolCalls)
        invariant RunCalls(cfg, ts, turn, requests, i, CallsRun(Done(), toolResults, false))
               == RunCalls(cfg, ts, turn, requests, 0, CallsRun(old(Done()), [], false))
      {
        RunCallsStep(cfg, ts, turn, requests, i, CallsRun(Done(), toolResults, false));
        if requests[i].name !in SYNTHETIC {
          var entry := ExecuteCall(ts.calls(i), requests[i], advisory, |toolResults|);
          if entry.None? {
            return false;
          }
          toolResults := toolResults + [entry.value];
        }
      }
      RunCallsDone(cfg, ts, turn, requests, CallsRun(Done(), toolResults, false));
      task.turn := turn;
      task.toolCalls := totalToolCalls;
      if toolResults != [] {
        Record(Feed(toolResults));
      }
      return true;
    }

    /** One real call: counted first, then answered by exactly one result, unless the run is cancelled while
        a confirmation is pending. */
    method ExecuteCall(cs: CallScript, r: Request, advisory: Option<string>, ghost n: nat)
      returns (entry: Option<string>)
      requires Pending(n) && r.name !in SYNTHETIC && AdvisedBy(script.turns(turn).superego, advisory)
      modifies this`log, this`messages, this`totalToolCalls, task
      ensures var effects := CallEffects(cfg, cs, r, advisory, turn);
        if Cancels(cfg, cs, r, advisory) then
          entry.None? && Closed() && CutShort(log)
          && EndedAs(Ending(turn, Tally(old(totalToolCalls) + 1, old(log) + effects), CancelledInConfirmation))
        else
          entry == Some(AnswerOf(cfg, cs, r, advisory).entry) && Pending(n + 1)
          && totalToolCalls == old(totalToolCalls) + 1 && log == old(log) + effects && messages == old(messages)
    {
      hide Licensed, HeadSound, PromptSound, Told, Results, Fed, Replies, RepliesUpTo, Quiet, HashesUpTo, Concluded,
        Anchored, ExitEvent, Closing, GateOf, FieldOr,
        StoredAnswer, VaultAnswer, UnknownAnswer, BlockedAnswer, DeniedAnswer, SkillAnswer, AskEffects, AdvisedBy,
        Heard;
      NoMessage(turn, r);
      totalToolCalls := totalToolCalls + 1;
      if r.name == "store_secret" || r.name == "store_provider_key" {
        Record(Emit(ToolCalled(turn, r)));
        entry := CallResult(r, StoredAnswer(r.name, cs.stored), n);
      } else if r.name == "store_vault_secret" {
        Record(Emit(ToolCalled(turn, r)));
        var key, value := FieldOr(r.arguments, "key", ""), FieldOr(r.arguments, "value", "");
        entry := CallResult(r, VaultAnswer(r.name, key, value, cs.saved), n);
      } else if cs.skillConfirms.None? {
        entry := CallResult(r, UnknownAnswer(r.name), n);
      } else {
        entry := GateAndRun(cs, r, advisory, n);
      }
    }

    /** Gate, confirmation and execution of a skill call. */
    method GateAndRun(cs: CallScript, r: Request, advisory: Option<string>, ghost n: nat)
      returns (entry: Option<string>)
      requires Counted(n) && r.name !in SYNTHETIC && AdvisedBy(script.turns(turn).superego, advisory)
      requires r.name !in STORE_TOOLS && cs.skillConfirms.Some?
      modifies this`log, this`messages, task
      ensures var effects := CallEffects(cfg, cs, r, advisory, turn);
        if Cancels(cfg, cs, r, advisory) then
          entry.None? && Closed() && CutShort(log)
          && EndedAs(Ending(turn, Tally(totalToolCalls, old(log) + effects), CancelledInConfirmation))
        else
          entry == Some(AnswerOf(cfg, cs, r, advisory).entry) && Pending(n + 1)
          && log == old(log) + effects && messages == old(messages)
    {
      hide Licensed, HeadSound, PromptSound, Told, Results, Fed, Replies, RepliesUpTo, Quiet, HashesUpTo, Concluded,
        Anchored, GateOf, ExitEvent, Closing, AnswerOf, AskEffects, OutcomeEffects, AdvisedBy;
      var gated := GatedEffect(cfg, cs, r, advisory, turn);
      ghost var before := log;
      Record(gated);
      var asks := (cs.skillConfirms.value || gated.gate.requireConfirmation) && !cfg.autoApprove;
      if gated.gate.allowed && asks {
        var approved := Confirm(r, cs.confirm, n);
        Reassociate(before, [gated], AskEffects(turn, r, cs.confirm));
        NoOutcome(cfg, cs, r, advisory, turn);
        if approved.None? {
          return None;
        }
      }
      ghost var asked := [gated] + (if Asks(cfg, cs, r, advisory) then AskEffects(turn, r, cs.confirm) else []);
      assert log == before + asked;
      entry := Settle(cs, r, advisory, n, before);
      Reassociate(before, asked, OutcomeEffects(cfg, cs, r, advisory, turn));
    }

    /** Behind gate and question: the skill runs if the call is granted, and is answered for otherwise. */
    method Settle(cs: CallScript, r: Request, advisory: Option<string>, ghost n: nat, ghost before: Log)
      returns (entry: Option<string>)
      requires Counted(n) && r.name !in SYNTHETIC && AdvisedBy(script.turns(turn).superego, advisory)
      requires r.name !in STORE_TOOLS && cs.skillConfirms.Some? && !Cancels(cfg, cs, r, advisory)
      requires log == before + ([GatedEffect(cfg, cs, r, advisory, turn)]
                                + (if Asks(cfg, cs, r, advisory) then AskEffects(turn, r, cs.confirm) else []))
      modifies this`log, this`messages
      ensures entry == Some(AnswerOf(cfg, cs, r, advisory).entry) && Pending(n + 1)
      ensures log == old(log) + OutcomeEffects(cfg, cs, r, advisory, turn) && messages == old(messages)
    {
      hide Licensed, HeadSound, PromptSound, Told, Results, Fed, Replies, RepliesUpTo, Quiet, HashesUpTo, Anchored,
        GateOf, StoredAnswer, VaultAnswer, UnknownAnswer, BlockedAnswer, DeniedAnswer, SkillAnswer, AskEffects,
          AdvisedBy;
      if Grants(cfg, cs, r, advisory) {
        LicenceFromLog(before, log, cs, r, advisory, turn, cfg, script);
        entry := RunLicensed(cs, r, n);
      } else if GateOf(cfg, r, advisory).allowed {
        entry := CallResult(r, DeniedAnswer(r.name), n);
      } else {
        entry := CallResult(r, BlockedAnswer(r.name, GateOf(cfg, r, advisory)), n);
      }
    }

    method RunLicensed(cs: CallScript, r: Request, ghost n: nat) returns (entry: Option<string>)
      requires Counted(n) && r.name !in SYNTHETIC
      requires Licensed(log + [Emit(ToolCalled(turn, r))] + [RunSkill(turn, r)], |log| + 1, cfg, script)
      modifies this`log, this`messages
      ensures Pending(n + 1) && entry == Some(SkillAnswer(r.name, cs.outcome).entry) && messages == old(messages)
      ensures log == old(log)
        + [Emit(ToolCalled(turn, r)), RunSkill(turn, r), Shown(turn, r.name, SkillAnswer(r.name, cs.outcome))]
    {
      hide Licensed, HeadSound, PromptSound, Told, Results, Fed, Replies, RepliesUpTo, Quiet, HashesUpTo, Anchored,
        SkillAnswer;
      Record(Emit(ToolCalled(turn, r)));
      Record(RunSkill(turn, r));
      entry := CallResult(r, SkillAnswer(r.name, cs.outcome), n);
    }

    /** Asks for a confirmation and waits: granted, refused (also when the channel is dropped), or the run is
        cancelled meanwhile. */
    method Confirm(r: Request, answer: ConfirmOutcome, ghost n: nat) returns (approved: Option<bool>)
      requires Counted(n)
      modifies this`log, this`messages, task
      ensures approved.None? <==> answer.CancelledWhileConfirming?
      ensures approved == Some(true) <==> answer == Answer(Some(true))
      ensures approved.None? ==>
        Closed() && CutShort(log)
        && EndedAs(Ending(turn, Tally(totalToolCalls, old(log) + AskEffects(turn, r, answer)), CancelledInConfirmation))
      ensures approved.Some? ==>
        Counted(n) && messages == old(messages) && log == old(log) + AskEffects(turn, r, answer)
    {
      hide Licensed, HeadSound, PromptSound, Told, Results, Fed, Replies, RepliesUpTo, Quiet, HashesUpTo, Concluded,
        Anchored, ExitEvent, Closing;
      Record(Emit(ConfirmationNeeded(turn, r)));
      task.status := WaitingForConfirmation;
      Record(SetStatus(WaitingForConfirmation));
      match answer {
        case CancelledWhileConfirming =>
          assert log == old(log) + AskEffects(turn, r, answer);
          End(CancelledInConfirmation);
          return None;
        case Answer(a) =>
          approved := Some(a == Some(true));
          Record(Answered(approved.value));
          task.status := Running;
          Record(SetStatus(Running));
      }
    }

    /** The result event of a call and its entry for the model. */
    method CallResult(r: Request, answer: CallAnswer, ghost n: nat) returns (entry: Option<string>)
      requires Counted(n) && r.name !in SYNTHETIC
      modifies this`log, this`messages
      ensures Pending(n + 1) && entry == Some(answer.entry) && messages == old(messages)
      ensures log == old(log) + [Shown(turn, r.name, answer)]
    {
      hide Licensed, HeadSound, PromptSound, Told, Results, Fed, Replies, RepliesUpTo, Quiet, HashesUpTo, Anchored;
      Record(Shown(turn, r.name, answer));
      return Some(answer.entry);
    }
  }

  /** Showing a call or its result says nothing to the model. */
  lemma NoMessage(t: nat, r: Request)
    ensures forall ms :: Heard(ms, Emit(ToolCalled(t, r))) == ms
    ensures forall ms, name, a :: Heard(ms, Shown(t, name, a)) == ms
  {
    forall ms ensures Heard(ms, Emit(ToolCalled(t, r))) == ms {
      assert ms + [] == ms;
    }
    forall ms, name, a ensures Heard(ms, Shown(t, name, a)) == ms {
      assert ms + [] == ms;
    }
  }

  lemma HeardCall(ms: seq<Message>, e: Effect)
    requires e.CallLlm?
    ensures Heard(ms, e) == e.messages
  {
  }

  lemma TrimmedIsAnchored(ms: seq<Message>, maxTokens: nat, out: seq<Message>, goal: string)
    requires Anchored(ms, goal) && Trimmed(ms, maxTokens, out)
    ensures Anchored(out, goal)
  {
    hide Trimmed;
    if |ms| > KEEP_PREFIX {
      TrimBounds(ms, maxTokens, out);
      assert out[0] == out[..KEEP_PREFIX][0] && out[1] == out[..KEEP_PREFIX][1];
    } else {
      ShortIsKept(ms, maxTokens, out);
    }
  }

  lemma ShortIsKept(ms: seq<Message>, maxTokens: nat, out: seq<Message>)
    requires |ms| <= KEEP_PREFIX && Trimmed(ms, maxTokens, out)
    ensures out == ms
  {
  }

  /** The tools answered from outside are synthetic. */
  lemma AnsweredAreSynthetic(i: nat)
    requires i < |ANSWERED_TOOLS|
    ensures ANSWERED_TOOLS[i] in SYNTHETIC
  {
  }

  lemma NotRegistering(ts: TurnScript, requests: seq<Request>)
    ensures !HasTool(requests, "register_mcp_skill") ==> !Registers(ts, requests)
  {
  }

  /** Without requests there is nothing to answer. */
  lemma NothingToAnswer(ts: TurnScript, t: nat)
    ensures RegisterEffects(ts, [], t) == [] && !Registers(ts, []) && AnsweredEffects(ts, [], t, |ANSWERED_TOOLS|) == []
  {
    assert AnsweredEffects(ts, [], t, 0) == [];
    assert AnsweredEffects(ts, [], t, 1) == [];
    assert AnsweredEffects(ts, [], t, 2) == [];
    assert AnsweredEffects(ts, [], t, 3) == [];
  }

  lemma HeardAnchored(ms: seq<Message>, e: Effect, goal: string)
    requires Anchored(ms, goal) && !e.CallLlm?
    ensures Anchored(Heard(ms, e), goal)
  {
    hide ResultsMessage;
  }

  lemma NoOutcome(cfg: Config, cs: CallScript, r: Request, advisory: Option<string>, t: nat)
    ensures Cancels(cfg, cs, r, advisory) ==> forall log: Log :: log + OutcomeEffects(cfg, cs, r, advisory, t) == log
  {
  }

  /** The effects since the gate spell out the licence for running the skill next. */
  lemma LicenceFromLog(before: Log, log: Log, cs: CallScript, r: Request, advisory: Option<string>, turn: nat,
                       cfg: Config, script: Script)
    requires AdvisedBy(script.turns(turn).superego, advisory) && Grants(cfg, cs, r, advisory)
    requires log == before + ([GatedEffect(cfg, cs, r, advisory, turn)]
                              + (if Asks(cfg, cs, r, advisory) then AskEffects(turn, r, cs.confirm) else []))
    ensures Licensed(log + [Emit(ToolCalled(turn, r))] + [RunSkill(turn, r)], |log| + 1, cfg, script)
  {
    hide GateOf, AdvisedBy;
  }
}
