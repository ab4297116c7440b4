# Orion Dock: a verified model of its cores

Orion Dock is an agent platform: a server that lets a language model work on goals with tools, gives each
agent an identity through a staged "birth", runs scheduled jobs, and keeps provider keys. Most of it is
plumbing around model calls. This project models the parts whose behaviour is intricate enough to be proved
and proves it for every input, every script of outside answers and every history of requests.

- **Key redaction and extraction** (`Redaction`, `KeyExtraction`). The code scans for six prefixes, one pass
  each. The reference definitions work on maximal runs of key characters instead; the loops are proved equal
  to them. Results: no key survives redaction and no later pass brings one back, a key becomes the first prefix of
  the table that it begins with and three stars, redaction is idempotent, rewrites each run on its own and is idle
  exactly when extraction finds nothing; extraction finds exactly the keys that stand in the text, up to the prefix
  order and without duplicates. It is out of range exactly on texts whose last run of
  key characters ends in a prefix that occurs nowhere earlier in that run. It labels some key otherwise than
  `detect_provider_from_key` would exactly on texts with a key for "sk-" that begins with "sk-ant-", has fewer than
  ten characters behind that, and begins no key for "sk-ant-".
- **Tool blocks and tool calls** (`ToolBlocks`, `ToolExtraction`). Parsing a rendered text gives back the
  trimmed text, the fenced requests, then the tagged ones. For every text it is proved exactly when a marker is left
  in what parsing returns: when the pieces a pass keeps put one together. Merging with structured calls loses and
  repeats nothing.
- **The agentic loop** (`AgenticScript`, `AgenticTrace`, `AgenticCalls`, `AgenticCourse`, `AgenticLoop`, `Policy`,
  `ContextTrim`). Every `await` is answered from an arbitrary script. `AgenticCourse` says, as a function of the
  script, how long a run takes, which calls it counts, every effect it has, in order, and why it ends. The loop
  is proved to follow it, to end with exactly one terminal event and one matching record, to keep calls, results and
  feedback in balance at every loop head, to run a skill only under a licence (a gate under the advisory the superego
  gave in that turn and, where due, an approval), and to call the model only with what the trim keeps of everything
  said so far: its own replies, the mentor's answers and the results of every turn, behind system prompt and goal.
- **Birth** (`Keyring`, `Birth`, `BirthServer`). Requests, requests that fail at any file operation, and
  restarts act on an agent's files and on the key in the server's memory; each handler's contract says exactly when
  it succeeds and what it leaves behind. What every history keeps is proved over the list of all states since the
  agent was created: the stage order, the recoverability of the key, that a lost key is lost for good, and the
  finality of a completed birth, whose signatures pass for these three documents only.
- **Scheduler** (`Scheduler`). Over any history of creations, updates, deletions, manual runs and ticks with
  a clock that does not run backwards, a job is charged at most once per slot and never more often than there were
  slots, and not at all while it is switched off.
- **Budgets and selections** (`Attachments`, `Council`, `VaultSplit`).

Taken as parameters, with one law each where one is needed: JSON decoding, the hash of a reply, the search
query check, Ed25519 (`Keyring.Correct`: a signature made with a key verifies under its public key, sections
5.1.6 and 5.1.7 of RFC 8032; and, where it is said what a signature covers, `Keyring.Binding`: it verifies for the
signed message only), and the cron crate (`Scheduler.Lawful`: the next slot is the least one after an instant).
Text is a sequence of ASCII characters, so character and byte positions coincide. A persisted key is a cell
that reads back as written or not at all.

Where the code and its documentation differ, the model follows the code:

- "Content with blocks stripped" (chat.rs:335): an opening marker is left exactly when two kept pieces put one
  together (`ToolBlocks.StrippedIffNotSpliced`, `ToolBlocks.ParsedIsMarkerFreeIff`, and a text of which nothing but a
  marker is left, `ToolBlocks.StrippingCanSpliceMarker`). A block is decoded and also stays in the text exactly when no
  closing marker follows (`ToolBlocks.BodyStaysIffUnclosed`).
- The extractor slices one character past a bare prefix, out of range on every text that ends in one
  (`KeyExtraction.ExtractForPrefix`, `KeyExtraction.BarePrefixIsOutOfRange`), and its labels are not always those of
  `detect_provider_from_key` (`KeyExtraction.MislabelledIffShortKey`, and the text "sk-ant-abcdef",
  `KeyExtraction.ShortAnthropicKeyIsMislabelled`).
- `trim_context` "to stay within a token budget" (agentic.rs:1219): the summary it inserts is not counted. The total
  stays within the budget exactly when prefix, summary and kept suffix fit together
  (`ContextTrim.StaysWithinBudgetIff`), and trimming even raises it exactly when what is cut out costs less than 24
  tokens (`ContextTrim.TotalRaisedIffLittleIsCut`). Both happen at every budget, the loop's 16,000, 24,000 and 32,000
  included (`ContextTrim.TrimCanDropNewestAndRaiseTotal`, `ContextTrim.TrimCanExceedBudget`). A council's plan is not
  counted either.
- The no-tool breaker speaks of "consecutive turns", but mentor turns in between do not reset it: the last three turns
  were all idle exactly if neither of the two before the last asked the mentor
  (`AgenticCourse.LastThreeIdleIffNoMentor`, `AgenticCourse.BreakerPassesOverMentor`).
- "Delete the persisted signing key" after completion (main.rs:2366) is best effort, and a quick start that cannot
  persist its path answers with an error before it gets there, although birth is complete
  (`BirthServer.Server.CompleteEmergence`, `BirthServer.Server.QuickStartGenesis`, `BirthServer.QuickStartInDarkness`).
  One failed write while the identity is generated loses it for good (`BirthServer.IdentityLost`,
  `BirthServer.Server.LostKeyNeverCompletes`).
- A job's `next_run_at` is when it fires only if no slot lies between its reference and its last change
  (`Scheduler.NextRunExactIffNoSlotSkipped`); a job switched on again fires at once if a slot went by
  (`Scheduler.ReenabledDueAtOnceIff`, `Scheduler.ReenabledFiresBeforeNextRun`). A slot is charged again when the jobs
  file could not be saved (`Scheduler.SlotChargedTwiceIffUpdateLost`).
- The total cap on attachment context can be exceeded by up to 223 characters, and is exceeded by that much
  (`Attachments.ContextBounded`, `Attachments.BoundIsReached`, `Attachments.WithinCapIffTextsFit`).
- The vault split depends on the hash map's iteration order exactly when a clash exists
  (`VaultSplit.OrderIrrelevantIffNoClash`, `VaultSplit.ClashLosesEither`).

`dafny verify dfyconfig.toml` checks the whole project.

## Model

| member | source | states |
|---|---|---|
| Redaction.RedactPass | crates/orion-birth/src/chat.rs:303-324 | one left-to-right scan for a prefix equals the run-by-run definition: cut each maximal run of key characters behind the first occurrence of the prefix if ten or more key characters follow |
| Redaction.RedactApiKeys | crates/orion-birth/src/chat.rs:291-327 | the six passes equal the composed run-by-run definition, and afterwards none of the six prefixes is followed by ten key characters anywhere |
| Redaction.PassKeepsClean | crates/orion-birth/src/chat.rs:303-324 | a pass leaves no key of its own prefix and makes no key of any prefix that had none |
| Redaction.RedactionIsClean | crates/orion-birth/src/chat.rs:291-327 | after passes for any list of prefixes made of key characters, no prefix of the list has a key |
| Redaction.RedactionFixpoint | crates/orion-birth/src/chat.rs:291-327 | redaction leaves a text unchanged if and only if no prefix has a key in it |
| Redaction.RedactionIdempotent | crates/orion-birth/src/chat.rs:289-327 | redacting a redacted text changes nothing |
| Redaction.RedactionIsLocal | crates/orion-birth/src/chat.rs:291-327 | each run is rewritten on its own to a beginning of itself that ends in a prefix, followed by stars, or is left whole; what follows the run is redacted independently |
| Redaction.RedactionDistributes | crates/orion-birth/src/chat.rs:291-327 | redaction works independently on both sides of any point where no run of key characters goes across |
| Redaction.KeyIsHidden | crates/orion-birth/src/chat.rs:291-327 | wherever a key stands on its own, redaction leaves the first prefix of the table that it begins with and three stars, whatever stands around it |
| Redaction.AnthropicKeyIsHidden | crates/orion-birth/src/chat.rs:293-302 | a concrete text: an anthropic key keeps "sk-ant-", although it begins with "sk-", too |
| Redaction.SanitizeSnippet | crates/orion-core/src/superego.rs:133-182 | a trace snippet is the redacted text cut at 200 characters, and holds no key even where it was cut |
| KeyExtraction.ExtractForPrefix | crates/orion-birth/src/chat.rs:154-173 | the scan for one prefix is out of range exactly when the text's last key run ends in the prefix and has it nowhere earlier; otherwise it admits the run-by-run keys in order |
| KeyExtraction.ExtractApiKeys | crates/orion-birth/src/chat.rs:143-175 | the whole extraction, out of range exactly when it is for some prefix |
| KeyExtraction.CandidatesAreTheKeys | crates/orion-birth/src/chat.rs:154-173 | what a prefix finds is exactly what stands in the text from its first occurrence in a run of key characters to the end of that run, with ten of them or more behind it |
| KeyExtraction.ExtractionCovers | crates/orion-birth/src/chat.rs:143-175 | every key found is a candidate not comparable with anything found before its prefix's turn, every candidate is comparable with a key found, and no two keys found are comparable in the prefix order |
| KeyExtraction.ExtractionEmptyIffNothingRedacted | crates/orion-birth/src/chat.rs:143-327 | extraction is empty if and only if redaction leaves the text unchanged |
| KeyExtraction.ExtractedKeysAreRedacted | crates/orion-birth/src/chat.rs:143-327 | no extracted key occurs anywhere in the redacted text |
| KeyExtraction.ExtractedProvider | crates/orion-birth/src/chat.rs:119-175 | key by key: the label is the provider detected from the key unless "sk-ant-" is followed by fewer than ten key characters, and in that case it never is; what texts yield such a key is MislabelledIffShortKey |
| KeyExtraction.MislabelledIffShortKey | crates/orion-birth/src/chat.rs:119-175 | some key of a text carries a wrong label if and only if one of the text's runs yields a key for "sk-" that begins with "sk-ant-", is shorter than 17 characters, and is comparable with no key the runs yield for "sk-ant-" |
| KeyExtraction.ShortAnthropicKeyIsMislabelled | crates/orion-birth/src/chat.rs:119-175 | a text on which it happens |
| KeyExtraction.BarePrefixIsOutOfRange | crates/orion-birth/src/chat.rs:171 | the slice is out of range on every text that ends in a prefix of the table with no key character before it |
| ToolBlocks.ExtractBlocks | crates/orion-birth/src/chat.rs:340-356 | one pass over any text returns what the leftmost-marker definition leaves and the blocks that decode, unclosed blocks included |
| ToolBlocks.ParseToolRequests | crates/orion-birth/src/chat.rs:336-379 | the two passes composed: trimmed text, fenced requests, then tagged requests |
| ToolBlocks.ParseOfRender | crates/orion-birth/src/chat.rs:329-379 | round trip: parsing any rendered interleaving of plain texts, fenced and tagged blocks returns the trimmed plain text and the decodable fenced, then tagged, bodies in order |
| ToolBlocks.EncodedRequestsComeBack | crates/orion-birth/src/chat.rs:352-354 | bodies produced by an encoder the decoder inverts all come back, in order |
| ToolBlocks.UnclosedFenceKept | crates/orion-birth/src/chat.rs:346-350 | an unclosed fence is reported as a block and its body also stays in the text |
| ToolBlocks.BodyStaysIffUnclosed | crates/orion-birth/src/chat.rs:343-357 | what follows an opening marker is a block and stays in the text, both as a whole, if and only if no closing marker follows |
| ToolBlocks.StrippedIffNotSpliced | crates/orion-birth/src/chat.rs:335-379 | a pass over any text leaves its opening marker in it if and only if at some junction of the pieces it keeps, one ends in a proper beginning of the marker and what follows begins with the rest of it |
| ToolBlocks.ParsedIsMarkerFreeIff | crates/orion-birth/src/chat.rs:335-379 | the same for the trimmed text both passes return and for both markers; a fence marker the second pass keeps in one piece was spliced by the first |
| ToolBlocks.StrippingCanSpliceMarker | crates/orion-birth/src/chat.rs:335-379 | a concrete text of which parsing leaves an opening marker and nothing else |
| ToolExtraction.ExtractToolCalls | crates/orion-api/src/tool_extraction.rs:40-82 | the provider's calls come first and in order, with their own ids, names and decoded arguments (none where they cannot be decoded); textual ones are those not met before, numbered text-0, text-1, … without gaps; the clean content is the parser's |
| ToolExtraction.MergeIsLossless | crates/orion-api/src/tool_extraction.rs:36-82 | a request is in the merge if and only if it is in the text or one of the provider's raw calls, by name and decoded arguments; the provider's stand first and in order, and no textual one repeats an earlier one |
| ToolExtraction.TextIdsDistinct | crates/orion-api/src/tool_extraction.rs:70-75 | ids of textual calls are pairwise distinct |
| ContextTrim.TrimContext | crates/orion-api/src/agentic.rs:1219-1262 | the result keeps prefix and the longest suffix that fits and puts one summary for what lies between, or is the list itself |
| ContextTrim.FitsExactlyFromCut | crates/orion-api/src/agentic.rs:1232-1246 | the suffixes that fit are exactly those that start at the cut or later |
| ContextTrim.TrimBounds | crates/orion-api/src/agentic.rs:1221-1262 | system prompt and goal stay, the list never grows, and the total is at most max(budget, prefix) plus the summary's own estimate, without it when nothing had to go |
| ContextTrim.TrimTellsWhatIsGone | crates/orion-api/src/agentic.rs:1248-1261 | the message in the place of what was cut names first how many messages are gone from the list, then what they were estimated at |
| ContextTrim.NewestKeptIffItFits | crates/orion-api/src/agentic.rs:1235-1246 | the newest message survives if and only if it fits in what the prefix leaves of the budget |
| ContextTrim.TrimDeterministic | crates/orion-api/src/agentic.rs:1221-1262 | the rule of the longest fitting suffix admits one result only |
| ContextTrim.StaysWithinBudgetIff | crates/orion-api/src/agentic.rs:1219-1262 | the trimmed total is within the budget if and only if nothing had to go or prefix, summary and kept suffix fit together; nothing has to go if and only if the whole fits |
| ContextTrim.TotalRaisedIffLittleIsCut | crates/orion-api/src/agentic.rs:1248-1261 | a cut raises the total if and only if what it removes is estimated at less than 24 tokens |
| ContextTrim.TrimCanDropNewestAndRaiseTotal | crates/orion-api/src/agentic.rs:1221-1262 | at every budget that holds the goal and four tokens more, a conversation whose prefix is inside the budget and whose newest message is dropped, with the total raised |
| ContextTrim.TrimCanExceedBudget | crates/orion-api/src/agentic.rs:1221-1262 | for every prompt and goal well inside the budget, a conversation whose newest message is kept and whose trimmed total is 24 tokens over the budget |
| ContextTrim.RetrimTouchesOnlySummary | crates/orion-api/src/agentic.rs:1221-1262 | trimming again with the same budget keeps the length and changes nothing but the summary slot |
| Policy.GateDecision | crates/orion-core/src/policy.rs:44-114 | which requests pass the gate of a turn and which need a confirmation, both directions |
| Policy.DenialsGiveReasons | crates/orion-core/src/policy.rs:44-114 | what reason every denial gives: the restriction of the advisory, or the verdict on the query |
| AgenticCalls.GrantedExactly | crates/orion-api/src/agentic.rs:1020-1130 | a skill runs exactly if it is known, no advisory forbids it, its query passes, and nobody had to be asked or the answer was a yes |
| AgenticCalls.CallEffectsFacts | crates/orion-api/src/agentic.rs:905-1194 | a call's effects hold its skill run exactly if it is granted, and end in its result unless it is cancelled |
| AgenticCalls.AnswersTellTheResult | crates/orion-api/src/agentic.rs:939-1194 | the entry fed back names the tool and ends in the output that was shown, or says that the call was denied |
| AgenticCalls.AnswersFollowTheSkill | crates/orion-api/src/agentic.rs:1144-1194 | the skill's own success and at most two thousand characters of its own text are passed on; a call that is not granted never succeeds |
| AgenticCalls.SecretsAreReportedAsStored | crates/orion-api/src/agentic.rs:919-1018 | storing a secret is reported as a success exactly if it was stored |
| AgenticTrace.OneTerminalEventAndLast | crates/orion-api/src/agentic.rs:284-327 | in a concluded run exactly one event is Done or Error and it is the last event; exactly one record is persisted, last, and agrees with it |
| AgenticTrace.AdvisoryRestrictsSkills | crates/orion-api/src/agentic.rs:884-1130 | in a turn whose superego check gave an advisory, no execution or file-writing skill runs, and mail is sent only right after its own question was answered with a yes, unless the run auto-approves |
| AgenticTrace.CallsWithinBudget | crates/orion-api/src/agentic.rs:412-466 | no model call of a sound log costs more than max(budget, prefix) and the message in the summary's place, a council's plan not counted |
| AgenticTrace.ModelIsToldEverything | crates/orion-api/src/agentic.rs:412-1211 | between two model calls of different turns, the trim is handed what the first one was sent, under a system prompt, followed by everything said since, in order |
| AgenticTrace.SpokenReachesTheModel | crates/orion-api/src/agentic.rs:529-1211 | a reply, an answer of the mentor or the results of a turn stand where they were said in the list handed to the trim of the next model call |
| AgenticTrace.JoinHolds | crates/orion-api/src/agentic.rs:1206-1211 | every entry that is fed back can be read in the message that carries it |
| AgenticCourse.CourseFacts | crates/orion-api/src/agentic.rs:337-517 | from any reachable loop head: turns stay within the limit, all replies before the last came back and hash differently, the duplicate and failure exits are taken exactly when the last reply repeats or fails, and the limit exit only at the limit |
| AgenticCourse.LimitExactly | crates/orion-api/src/agentic.rs:361-410 | the limit exit is taken if and only if every turn up to the limit lets the run go on: not cancelled, a new reply, no completion, an answer from an asked mentor, a streak below three, no cancelled confirmation |
| AgenticCourse.TurnsBoundedByContents | crates/orion-api/src/agentic.rs:480-517 | a model able to produce only k distinct contents gets at most min(limit, k + 1) turns, whatever the hash |
| AgenticCourse.NoToolsExactly | crates/orion-api/src/agentic.rs:836-881 | the no-tool breaker ends a run exactly at the third idle turn since a tool was last used, mentor turns passed over |
| AgenticCourse.LastThreeIdleIffNoMentor | crates/orion-api/src/agentic.rs:836-881 | when the breaker trips, the last three turns are all idle if and only if neither of the two before the last asked the mentor |
| AgenticCourse.BreakerPassesOverMentor | crates/orion-api/src/agentic.rs:579-881 | a script, for every configuration with room for four turns, on which the breaker trips over a mentor turn |
| AgenticCourse.MentorTurnKeepsStreak | crates/orion-api/src/agentic.rs:579-654 | an answered mentor turn lets the run go on and changes neither calls nor streak |
| AgenticCourse.GrantedAreRun | crates/orion-api/src/agentic.rs:905-1194 | the skills run in a turn are those of the granted requests before the first that is cancelled, once each and in order |
| AgenticCourse.ModelCallsFacts | crates/orion-api/src/agentic.rs:420-466 | one or two model calls a turn, all with the same conversation, the plan in the second exactly if the council made one |
| AgenticCourse.ExitsAgree | crates/orion-api/src/agentic.rs:284-1213 | which exits cancel, fail or complete the task, and that terminal event, status and record agree on it |
| AgenticCourse.Launch | crates/orion-api/src/main.rs:4640-4662 | a launch is accepted exactly for a born agent with a goal and no active run, and changes nothing but the turns, clamped to one to fifty |
| AgenticCourse.LaunchedRunIsBounded | crates/orion-api/src/main.rs:4640-4662 | a launched run takes at most fifty turns, and no more than asked for |
| AgenticLoop.AgenticRun.Run | crates/orion-api/src/agentic.rs:254-1213 | every run follows its course to the end: its turns, its counted calls, all its effects in order, its exit; one terminal event and matching record, a terminal task status, licensed skills, and model calls that send what the trim keeps of everything said; at every loop head calls = results = feedback entries, the replies of all turns and no others in the conversation, streak below three; results fall short of calls, by one, exactly when the course ends in a cancelled confirmation |
| AgenticLoop.AgenticRun.TakeTurn | crates/orion-api/src/agentic.rs:337-1212 | one iteration does what the course says for this turn and restores the balance |
| AgenticLoop.AgenticRun.React | crates/orion-api/src/agentic.rs:468-529 | a repeated reply ends the run; otherwise it joins the conversation and the turn acts on the merged requests |
| AgenticLoop.AgenticRun.TakeUp | crates/orion-api/src/agentic.rs:519-529 | what the reply says besides its requests is shown if it says anything, and the reply itself is appended |
| AgenticLoop.AgenticRun.RefreshPrompt | crates/orion-api/src/agentic.rs:342-359 | a new system prompt exactly if the tools changed in the last turn |
| AgenticLoop.AgenticRun.AnswerSynthetic | crates/orion-api/src/agentic.rs:657-832 | each of the five tools asked for is answered once, shown and appended; the tools change exactly if a registration succeeded |
| AgenticLoop.AgenticRun.CallModel | crates/orion-api/src/agentic.rs:412-466 | the conversation is trimmed to the budget in place, and sent by every model call of the turn, with and without the council |
| AgenticLoop.AgenticRun.AskMentor | crates/orion-api/src/agentic.rs:578-655 | a reply lets the run go on with the reply appended; a dropped channel or a cancel ends it |
| AgenticLoop.AgenticRun.Nudge | crates/orion-api/src/agentic.rs:835-878 | a turn without requests adds one to the streak and appends a nudge, or ends the run at the third |
| AgenticLoop.AgenticRun.ExecuteCalls | crates/orion-api/src/agentic.rs:883-1211 | the calls of a turn are counted and have their effects up to and including the first that is cancelled; otherwise all their entries, one a call, are fed back together and appended to the conversation as one message |
| AgenticLoop.AgenticRun.ExecuteCall | crates/orion-api/src/agentic.rs:905-1194 | a call is counted and has exactly its effects under the turn's advisory; it ends the run exactly if it is cancelled while it asks, and otherwise gives the entry of its answer |
| AgenticLoop.AgenticRun.Confirm | crates/orion-api/src/agentic.rs:1055-1131 | the wait for a confirmation: approved only by an explicit yes, a dropped channel is a no, a cancel ends the run |
| AgenticLoop.AgenticTask.UpdateStatus | crates/orion-api/src/agentic.rs:1612-1619 | status and turn are set, and the completion time at the first terminal status |
| Keyring.Disk.SignConstitutionalDocuments | crates/orion-core/src/keyring.rs:301-325 | succeeds exactly when all three documents are there and every read and write works, and then each signature on disk is over the document on disk; touches nothing but signatures |
| Keyring.SignableIsInjective | crates/orion-core/src/keyring.rs:285-298 | two signed texts are equal only for the same document with the same content |
| Keyring.SignaturesCoverDocuments | crates/orion-core/src/keyring.rs:285-325 | with the same public key and signatures, files verify if and only if they hold the very three documents that were signed |
| Keyring.SignaturesCannotBeExchanged | crates/orion-core/src/keyring.rs:285-325 | the signature of one document never passes for another |
| Birth.BirthOrchestrator.GenerateIdentity | crates/orion-birth/src/stages.rs:286-324 | exactly when it succeeds; an identity that is due is written as soon as the first operation works, and what fails later does not take the public key back |
| Birth.BirthOrchestrator.Advance | crates/orion-birth/src/stages.rs:331-379 | the stage moves by exactly one, only from the expected stage, and only if it is persisted |
| Birth.BirthOrchestrator.Crystallize | crates/orion-birth/src/stages.rs:419-453 | succeeds exactly in Genesis and when every write it takes works, with exactly these files after it; a failure changes documents only |
| Birth.CrystallizedFacts | crates/orion-birth/src/stages.rs:419-453 | the crystallized files have all constitutional documents: the manifest's soul and growth, ethics and instincts as they were or each from its own template; every other document is as it was |
| Birth.BirthOrchestrator.CompleteEmergence | crates/orion-birth/src/stages.rs:453-489 | the birth is recorded exactly with stage, key, documents and every operation in order, and complete exactly if the configuration is saved too; then the documents are signed |
| BirthServer.Server.BirthState | crates/orion-api/src/main.rs:927-1052 | exactly when it succeeds, exactly when it generates an identity, and what is then on disk and in memory: the new key in both, or, after a failed write, the public key alone |
| BirthServer.Server.AdvanceDarkness | crates/orion-api/src/main.rs:1056-1085 | exactly when it succeeds and what it changes |
| BirthServer.Server.IgniteLocal | crates/orion-api/src/main.rs:1087-1126 | exactly when it succeeds and what it changes |
| BirthServer.Server.GenesisStart | crates/orion-api/src/main.rs:1271-1366 | exactly when it succeeds, and that a failure behind the stage or the path takes neither back |
| BirthServer.Server.GenesisStep | crates/orion-api/src/main.rs:1374-1425 | succeeds exactly with a session and either more steps to come or a completing step whose crystallizing works; then the files are the crystallized ones; outside Genesis no step changes a file, although the handler does not check for completion |
| BirthServer.Server.BirthChat | crates/orion-api/src/main.rs:1464-1645 | exactly when it succeeds; a recommendation crystallizes exactly when chat is allowed and every write works, even if the chat file then cannot be written; otherwise no stage moves |
| BirthServer.Server.CompleteEmergence | crates/orion-api/src/main.rs:2312-2372 | succeeds exactly when recordable and saved, which is exactly when birth becomes complete; the key leaves memory in any case past the first checks, and disk exactly if the delete succeeded or none was there |
| BirthServer.Server.QuickStartGenesis | crates/orion-api/src/main.rs:1196-1270 | birth becomes complete exactly with a key, ten document and signing operations and the saved configuration, without a record; the answer is a success exactly if the path is persisted too; the key file is gone exactly if path and delete succeeded or none was there |
| BirthServer.QuickStartInDarkness | crates/orion-api/src/main.rs:1196-1270 | a two-request history that completes birth in Darkness without a record, with an error for an answer and the key left on disk when the path cannot be persisted |
| BirthServer.QuickDocsFacts | crates/orion-api/src/main.rs:1213-1228 | a quick start writes the given soul and each template under its own name, and no other document |
| BirthServer.BirthRunsThrough | crates/orion-api/src/main.rs:927-2372 | without faults, six requests complete a birth, by a genesis step or by chat, recorded and signed, with no key left behind |
| BirthServer.IdentityLost | crates/orion-api/src/main.rs:943-1051 | a one-request history after which there is a public key and no copy of its private key |
| BirthServer.Server.Restart | crates/orion-api/src/main.rs:5500-5518 | memory is rebuilt from the persisted key and keeps the history valid |
| BirthServer.Server.KeyRecoverable | crates/orion-api/src/main.rs:943-1051 | once persisted, the private key of the public key on disk stays on disk through all requests, failures and restarts until birth completes |
| BirthServer.Server.LostKeyNeverCompletes | crates/orion-api/src/main.rs:928-2372 | once a public key is on disk and no private key in memory or on disk, no history completes birth |
| BirthServer.Server.StagesArePrefix | crates/orion-birth/src/stages.rs:252-276 | before completion, the stages of any history, each noted when it is first entered, are a prefix of the five in order |
| BirthServer.Server.EmergenceHasDocuments | crates/orion-birth/src/stages.rs:419-453 | every state at Emergence has all three constitutional documents |
| BirthServer.Server.CompletedIsFinal | crates/orion-api/src/main.rs:928-2372 | after completion, by either way, no request changes any file, the three signatures verify under the public key on disk, and a deleted key never returns |
| BirthServer.Server.CompletedIsSealed | crates/orion-api/src/main.rs:2312-2372 | after completion, files with the same public key and signatures verify if and only if they hold the three documents of the completed birth |
| Scheduler.SlotPassedFires | crates/orion-api/src/orchestration.rs:312-321 | an enabled job with a slot behind its reference and not after the tick fires, charged to the first such slot |
| Scheduler.NextRunPassedIsDue | crates/orion-api/src/orchestration.rs:301-321 | once next_run_at has passed, the job is due |
| Scheduler.NextRunExactIffNoSlotSkipped | crates/orion-api/src/orchestration.rs:301-321 | due and next_run_at agree at all times if and only if no slot lies between reference and last change |
| Scheduler.NextRunExactAfterCreateOrRun | crates/orion-api/src/orchestration.rs:394-509 | they agree after a creation or an execution |
| Scheduler.ReenabledDueAtOnceIff | crates/orion-api/src/orchestration.rs:473-488 | a job switched on again is due at once if and only if a slot went by since its reference, while next_run_at lies in the future; otherwise next_run_at is exact |
| Scheduler.ReenabledFiresBeforeNextRun | crates/orion-api/src/orchestration.rs:473-488 | a job on which it happens |
| Scheduler.SlotChargedTwiceIffUpdateLost | crates/orion-api/src/main.rs:5044-5096 | two ticks in a row charge the same slot if and only if the first one's update was lost |
| Scheduler.CreateJob | crates/orion-api/src/orchestration.rs:393-425 | accepted exactly with name, goal and a valid expression; the job is appended with its times in order |
| Scheduler.UpdateJob | crates/orion-api/src/orchestration.rs:427-471 | accepted exactly for a known job and valid fields; a rejected update may have written fields but never times or history |
| Scheduler.EditedFacts | crates/orion-api/src/orchestration.rs:427-471 | an accepted update sets the given fields, trimmed where they are text, and keeps the others and the job's past |
| Scheduler.ExecutedFacts | crates/orion-api/src/orchestration.rs:498-509 | an execution moves the reference to its end and records its outcome, and leaves what the job is set up to do |
| Scheduler.SetJobEnabled | crates/orion-api/src/orchestration.rs:473-488 | sets the flag of the job with this id as asked, keeps its definition, its past and its reference and recomputes its times; switched off, it fires at no time |
| Scheduler.OffUntilSwitchedOn | crates/orion-api/src/main.rs:5039-5096 | over any history of steps, a job that is switched off gets no charge until a step switches it on |
| Scheduler.JobStore.ApiUpdate | crates/orion-api/src/main.rs:5310-5326 | a rejected or unsaved update leaves the file alone, an accepted one changes that job only |
| Scheduler.JobStore.ApiSetEnabled | crates/orion-api/src/main.rs:5328-5345 | exactly when it succeeds; the saved job has the flag asked for, and switches nothing else on or off |
| Scheduler.JobStore.ApiDelete | crates/orion-api/src/main.rs:5347-5358 | succeeds exactly for a known id and a saved file; cuts out the job with this id and keeps the rest in order |
| Scheduler.JobStore.ApiRunNow | crates/orion-api/src/main.rs:5360-5379 | a manual run moves the reference and charges no slot |
| Scheduler.JobStore.Tick | crates/orion-api/src/main.rs:5039-5096 | every due enabled job whose execution reaches the update is updated and charged once the list is saved, every other job is untouched, and nothing that is off is charged |
| Scheduler.JobStore.ChargesWithinSlots | crates/orion-api/src/main.rs:5014-5096 | over any history, the charges of a job under an expression are for strictly later and later slots and no more than the expression has slots between creation and the last tick |
| Attachments.NormalizedFacts | crates/orion-api/src/chat_attachments.rs:70-83 | the ids are the trimmed non-empty ones, each once |
| Attachments.NormalizedGrows | crates/orion-api/src/chat_attachments.rs:70-83 | ids keep the order of their first occurrence |
| Attachments.LoadAttachmentContext | crates/orion-api/src/chat_attachments.rs:184-242 | succeeds exactly for at most eight known, readable ids, and assembles an entry for each |
| Attachments.EntriesFollowIds | crates/orion-api/src/chat_attachments.rs:207-238 | entries follow the id order, each with what is left of its own text |
| Attachments.EntryIsBeginning | crates/orion-api/src/chat_attachments.rs:412-422 | an entry is its text, the omission note, or a beginning of its text with a marker at the end |
| Attachments.ContextBounded | crates/orion-api/src/chat_attachments.rs:184-242 | at most 48,223 characters: the cap, one marker and four notes |
| Attachments.BoundIsReached | crates/orion-api/src/chat_attachments.rs:184-242 | any eight attachments longer than the per-attachment limit make exactly 48,223 characters |
| Attachments.BoundIsTight | crates/orion-api/src/chat_attachments.rs:184-242 | there are such attachments |
| Attachments.WithinCapIffTextsFit | crates/orion-api/src/chat_attachments.rs:219-226 | the cap is kept if and only if the texts fit in it and the last one starts below it |
| Council.ResolveCouncilProviders | crates/orion-api/src/agentic.rs:1393-1452 | for every listing order: distinct supported names with keys from the keyring, a usable preference first, then the table in order, and exactly min(3, held providers) of them |
| Council.PreferredStandsAt | crates/orion-api/src/agentic.rs:1411-1424 | at which place each name of the preference table stands, with its own key |
| Council.AliasesAreNormalized | crates/orion-core/src/config.rs:644-651 | the three aliases, under any case and white space; aliases do not chain |
| VaultSplit.SplitVault | crates/orion-core/src/vault_migration.rs:53-83 | the loop computes the split of its iteration order |
| VaultSplit.NothingLost | crates/orion-core/src/vault_migration.rs:53-83 | without a clash every legacy value is found under its name in each store it belongs to, and belongs to at least one |
| VaultSplit.OrderIrrelevantIffNoClash | crates/orion-core/src/vault_migration.rs:53-83 | the stores are the same for every iteration order if and only if there is no clash |
| VaultSplit.ClashIsBareAndPrefixed | crates/orion-core/src/vault_migration.rs:54-82 | only a "provider:x" entry and a bare "x" can clash |
| VaultSplit.ClashLosesEither | crates/orion-core/src/vault_migration.rs:53-83 | for every skill key kept under both names with different values, one order keeps the one value and the other order the other |
| VaultSplit.Destinations | crates/orion-core/src/vault_migration.rs:60-81 | keys of known providers go to the keyring only, perplexity to both stores, keys of other providers to the keychain under their bare name, bare entries to the keychain as they are |

## Left out

- LLM routing, council execution, MCP, email, the proxy, HTTP transport, event streams, the web frontend and the toolbox script: input and output around the modelled cores.
- The audit steps of a task (`record_step`), timestamps and log messages: they influence nothing that is modelled.
- Keyword checks of the superego, prompts, tier tables, cron inference and the ethics weights: long case lists or floating point.
- Text outside ASCII: the extractor's one-byte skip is only meaningful there.
- Widths of the turn and call counters: the limit keeps turns at fifty, and calls are as many as the replies ask for.
- Interleaved launches of tasks, and interleaved writes of the jobs file: load, run and save are one step; finer steps lose updates by the design of the code.
- The bypasses skip_to_emergence, skip_to_life_for_mvp, complete_birth and quick-start creation of an agent: they do not share the staged protocol.
- The Hive lineage signature, agent import and configuration fields that the birth protocol does not read.
- The first step of a genesis strategy completing at once: the handler then stores no session and changes no file.
- ToolBlocks.ParseOfRender: plain texts and bodies hold neither a backtick nor "<"; with them in the text a marker may be spliced together.
- Scheduler.JobStore.ChargesWithinSlots: counts the runs whose update reached the jobs file; lost updates are characterised by SlotChargedTwiceIffUpdateLost.
