# Conversations, worktrees and views of the workstation agent, verified

A Dafny project about the part of the agent that talks to a provider on the owner's behalf, and about
what surrounds it. It proves properties of a model of that code over all inputs, all interleavings and
all runs.

`dafny verify dfyconfig.toml` checks everything.

## What is modelled

**Conversations.** A conversation is one record (`Record.dfy`) changed in critical sections under the
queue lock by posts, turns, tickers, provider output, server pushes and stops. Each section is a
function on the record; `Conversation.dfy` is the object that is changed in place, one method per
section, each proved to do what its function says. Three machines run the sections in every order:
`ClaudeTurns` (one process per turn, messages join on stdin), `CodexSupervisor` (one app-server with
start, steer and interrupt) and `AntigravityTurns` (one process per turn, a queue), each with its
invariant. `ClaudeRuns`, `CodexRuns` and `AntigravityRuns` say what every run keeps; `ClaudeStops`,
`CodexStops` and `AntigravityStops` when a stop completes, over fair infinite runs, with the argument of
`Liveness.dfy`. Processes, clocks and replies are steps of the environment; a log records what was
admitted, sent, accepted and answered.
`Approvals.dfy` decides which answers and decisions fit, `TurnInput.dfy` is a turn's stdin, `Waits.dfy`
follows the mark "waiting for you" through all sections, pushes of the server and reconnections.
`ShellContext.dfy` is what commands typed in a conversation add to the next message.

**Streams.** `AgyStream.dfy` assembles the Antigravity frames; `AgyTranscript.dfy` says from the frames
alone what the transcript must hold, and proves it. `Output.dfy` cuts stdout into lines and keeps the
beginning of stderr; `ToolText.dfy` cuts text on a character boundary; `CodexRpc.dfy` pairs calls and
replies.

**Command lines and worktrees.** `CommandLine.dfy` quotes, and reads back with a POSIX tokenizer (Shell
Command Language, sections 2.2.1 and 2.2.2) that refuses anything but literal words. `WorktreeList.dfy`
prints and reads the porcelain list of worktrees, `TaskWorktree.dfy` resolves a task's worktree on a
repository. `Permissions.dfy` keeps an "Always allow" to the conversation and extracts its rules.

**Desktop.** `HandOver.dfy` launches a task's next step and closes its predecessor; `DiffView.dfy` shows
the changes of the selected run and folder.

Go strings are byte strings: one `char` of a string stands for one byte, and spaces are the ASCII ones.

## Where the code does not do what one would expect

Beside each concrete input or run stands a contract that says exactly when the code does.

- The server's cancel of a conversation of which nothing runs sets a flag that no turn is left to act on:
  `exited` stays open until a stop request (`ClaudeStops.CancelWithoutEnd`; `ClaudeStops.StopCompletes`,
  `CodexStops.StopCompletes`).
- An Antigravity turn that cannot start clears `busy` and leaves `next` and `exited` as they are: later
  messages overtake the queue (`AntigravityRuns.LeftoversAreOvertaken`; `StartsInOrder`) and a stop
  under way is lost (`AntigravityStops.StopLost`; `StopCompletes`, `StrandedCloses`).
- An interrupt of an Antigravity turn is forgotten by the turn's opening section if it came before it:
  nothing signals the turn, and its queue goes on (`AntigravityRuns.InterruptLost`;
  `InterruptedExactly`, `DroppedExactly`).
- A wait pushed by the server while an approval is up goes with the approval (`Waits.DeclaredWaitLost`;
  `PushedWaitSurvives`).
- The comment on the hand-over says a move to another task drops it; a move made while the launch is
  still being submitted does not (`HandOver.MovingTooEarly`; `MoveDrops`, `MovingKeepsTheConversation`).
- A worktree whose directory was removed by hand is still listed by git and returned
  (`TaskWorktree.RemovedByHand`; `EnsureTaskWorktree`).
- The changes view may stay marked busy with nothing to load (`DiffView.BusyForNothing`; `BusyExactly`,
  `OnlyPickingNoRunMisleads`).

## Model

| member | source | states |
|---|---|---|
| `ClaudeRuns.OneProcessAtATime` | internal/agent/agent_conversation.go:415-440 | over every interleaving of posts, turns, decisions, stops and pushes, two live Claude processes of one conversation are the same one, and none lives once exited is closed |
| `ClaudeRuns.NothingAfterExit` | internal/agent/agent_conversation.go:821-855 | once exited is closed it stays closed with a terminal status, nothing is admitted and no turn ever starts again |
| `ClaudeRuns.Conservation` | internal/agent/agent_conversation.go:415-440 | at every moment each admitted message is in exactly one of four places: joined to a turn (which `JoinedOnlyWhenWritten` ties to a write to its stdin that worked), in a turn's prompt, in next, or dropped by a stop; as multisets |
| `ClaudeRuns.LanesKeepOrder` | internal/agent/agent_conversation.go:415-440 | messages that wait for a turn of their own keep their order through prompts and next, messages that joined a turn keep theirs, and nothing is dropped unless the conversation was stopped; no order is claimed between the two |
| `ClaudeRuns.NextIsTheFollowingPrompt` | internal/agent/agent_conversation.go:845-855 | what a closing turn leaves in next becomes exactly the prompt of the following turn, unless the conversation was stopped |
| `ClaudeRuns.AnsweredOnceOnAnOpenStdin` | internal/agent/agent_conversation_approvals.go:217-255 | no tool call is answered twice on the wire; an answer takes the first pending call with its id, never answered before, while the turn's stdin is open, and only if the decision is one the owner may make and its answers are those the call asks for |
| `ClaudeRuns.FittingIsAnswered` | internal/agent/agent_conversation_approvals.go:217-255 | and every decision that fits is answered when the write works |
| `ClaudeRuns.PostedWhere` | internal/agent/agent_conversation.go:413-440 | in every run a message posted to a conversation that is not stopped starts a turn when none is in progress, joins the turn when its stdin took it, and goes to the end of next otherwise; a stopped conversation is unchanged |
| `ClaudeRuns.JoinedOnlyWhenWritten` | internal/agent/agent_conversation.go:415-423 | a message is counted as joined if and only if the conversation was available and busy, a stdin was published and the write to it worked |
| `ClaudeRuns.InterruptedExactly` | internal/agent/agent_conversation.go:342-350 | in every run a turn is marked interrupted if and only if an interrupt came while it was there, from its very start |
| `ClaudeStops.StopCompletes` | internal/agent/agent_conversation.go:769-856 | in every fair run of a canceled conversation exited gets closed if and only if a turn was in progress (or it was closed already) or a stop request follows: the flag set by the server's cancel on an idle conversation closes nothing |
| `ClaudeStops.CancelWithoutEnd` | internal/agent/agent_run.go:232-253 | a concrete fair run in which the server cancels an idle conversation and exited is never closed |
| `ClaudeStops.StoppingStep` | internal/agent/agent_conversation.go:787-856 | while a stop is under way no step starts a turn or leads further from the end, and the step waited for leads strictly nearer |
| `ClaudeStops.SomethingServes` | internal/agent/agent_conversation.go:787-812 | a canceled conversation with a turn in progress always has a step that brings its end nearer, whatever Claude answers |
| `ClaudeTurns.PostIsAdmission` | internal/agent/agent_conversation.go:360-440 | the machine's post is the record's admission, and logs whether the message joined, queued or started a turn; when each of these happens is `ClaudeRuns.PostedWhere` |
| `CodexRuns.OneSupervisorAtATime` | internal/agent/agent_codex_conversation.go:183-267 | over every interleaving two live app-servers of one conversation are the same one, the one c.codex names, and none lives once exited is closed |
| `CodexRuns.NothingAfterExit` | internal/agent/agent_codex_conversation.go:476-500 | after exited is closed no supervisor is left or starts, and nothing more is admitted, sent or accepted |
| `CodexRuns.DeliveredInOrder` | internal/agent/agent_codex_conversation.go:293-361 | what the app-server accepted, by steer or by start, is in admission order and at most once; each admitted message is in exactly one place: accepted, on the wire, held, queued or lost |
| `CodexRuns.NoBlindRetry` | internal/agent/agent_codex_conversation.go:334-347 | a message is sent a second time only after a steer of it was refused and put back |
| `CodexRuns.QueuedAreNeverStarted` | internal/agent/agent_codex_conversation.go:293-303 | from the moment a conversation is canceled no attempt carries a message that was queued then, and the app-server never accepts it |
| `CodexRuns.RequeuedOnlyWhenTheTurnEnded` | internal/agent/agent_codex_conversation.go:334-347 | messages go back to the head of the queue only on a refusal that reached the supervisor of a turn that has ended since; never after a timeout, an exit or a failed write |
| `CodexRuns.AnsweredOnceOnAnOpenStdin` | internal/agent/agent_codex_conversation.go:833-903 | no request of the app-server is answered twice; a decision answers the first pending one with its id, while the app-server can read it, and only if the answers fit and the decision was offered |
| `CodexRuns.FittingIsAnswered` | internal/agent/agent_codex_conversation.go:833-886 | and every decision that fits is answered when the write works |
| `CodexRuns.PostedIsQueued` | internal/agent/agent_conversation.go:415-437 | a message posted to a conversation that is not stopped goes to the end of the queue, and a goroutine starts exactly when the conversation was idle |
| `CodexRuns.InterruptGivesUpTheQueue` | internal/agent/agent_conversation.go:342-350 | an interrupt of a busy conversation marks it and gives up the whole queue; any other changes nothing |
| `CodexRuns.NewAttempts` | internal/agent/agent_codex_conversation.go:293-349 | every attempt is either a tick's steer of the whole queue into the turn that runs, while nothing is interrupted or stopped, or the start of a turn with the batch a tick took |
| `CodexRuns.TickTakesTheQueue` | internal/agent/agent_codex_conversation.go:293-349 | a tick that sees a queue, no interrupt and no stop takes all of it, for the turn that runs or for one of its own |
| `CodexRuns.SteerAnswered` | internal/agent/agent_codex_conversation.go:329-347 | a steered batch is taken, or goes back to the head of the queue if and only if it was refused and its turn has ended since, or is given up |
| `CodexRuns.StartAnswered` | internal/agent/agent_codex_conversation.go:349-360 | a start that was refused leaves the conversation idle and the supervisor running; one without an answer makes it give up; what was not taken is lost |
| `CodexRuns.TickStopsOrInterrupts` | internal/agent/agent_codex_conversation.go:293-323 | a tick that sees the stop starts nothing and closes; one that sees an interrupt asks once for the end of the turn and leaves queue and log alone |
| `CodexRuns.AnnouncementCounts` | internal/agent/agent_codex_conversation.go:551-553 | an announced turn becomes the one messages are steered into if and only if the conversation listens |
| `CodexRuns.CompletionCounts` | internal/agent/agent_codex_conversation.go:554-571 | the end of a turn counts if and only if the conversation listens and the turn is the one that runs, or none is known to run; then the calls and the interrupt go, and the conversation stays busy exactly with a queue |
| `CodexRuns.CommandsAreAnsweredAsListed` | internal/agent/agent_codex_conversation.go:833-882 | in every run a pending call is what codexApproval made of its request, and whatever reply fits it says what the decision means: a denied command is never answered accept or acceptForSession, and one that lists its decisions gets a listed word, or the listed cancel |
| `CodexStops.SomethingServes` | internal/agent/agent_codex_conversation.go:236-303 | a canceled conversation with anything running has a step towards its end even if the app-server never answers a call |
| `CodexStops.StopCompletes` | internal/agent/agent_codex_conversation.go:476-500 | in every fair run of a canceled conversation exited gets closed if and only if a supervisor or a starting goroutine was there, or a stop request follows |
| `CodexStops.StoppingStep` | internal/agent/agent_codex_conversation.go:236-303 | while a stop is under way every step leads no further from its end, and the step waited for strictly nearer |
| `AntigravityRuns.OneProcessAtATime` | internal/agent/agent_agy_conversation.go:639-836 | two live Antigravity processes of one conversation are the same one, and none lives once exited is closed |
| `AntigravityRuns.NothingAfterExit` | internal/agent/agent_agy_conversation.go:785-821 | once exited is closed it stays closed with a terminal status and no turn starts |
| `AntigravityRuns.Conservation` | internal/agent/agent_agy_conversation.go:785-821 | at every moment each admitted message is in exactly one place: a turn's prompt, the queue, or dropped |
| `AntigravityRuns.HandsOverInOrder` | internal/agent/agent_agy_conversation.go:797-805 | a turn that closes hands over to the oldest queued message, or drops the queue if it was interrupted or stopped, and only then |
| `AntigravityRuns.PostedWhere` | internal/agent/agent_conversation.go:415-440 | a message posted to a conversation that is not stopped waits at the end of the queue behind a turn in progress, else it is the prompt of a turn of its own |
| `AntigravityRuns.InterruptedExactly` | internal/agent/agent_agy_conversation.go:679 | in every run a turn past its opening section is marked interrupted if and only if an interrupt came after that section: the section forgets an earlier one |
| `AntigravityRuns.DroppedExactly` | internal/agent/agent_agy_conversation.go:797-805 | the end of a turn drops a queue, and otherwise hands over its first message, if and only if the conversation was stopped or an interrupt came after the turn's opening section |
| `AntigravityRuns.InterruptLost` | internal/agent/agent_agy_conversation.go:679 | a concrete run in which an interrupt is accepted before the opening section of the turn, and the queue goes on after it all the same |
| `AntigravityRuns.StartsInOrder` | internal/agent/agent_conversation.go:429-440 | starting a turn from an idle conversation keeps the order of admission if and only if the queue is empty |
| `AntigravityRuns.OthersKeepOrder` | internal/agent/agent_agy_conversation.go:785-821 | every other step keeps the order of admission |
| `AntigravityRuns.TurnsInOrder` | internal/agent/agent_agy_conversation.go:785-821 | in a run whose posted turns all found an empty queue, turns take the messages in admission order |
| `AntigravityRuns.LeftoversAreOvertaken` | internal/agent/agent_agy_conversation.go:717-725 | a concrete run in which a turn whose process did not start leaves its queue behind, and a later message is taken up first |
| `AntigravityStops.StoppingStep` | internal/agent/agent_agy_conversation.go:745-821 | during a stop a step ends the conversation, gives the turn up, or leads no further from the end, nearer if it is the step waited for |
| `AntigravityStops.StrandedCloses` | internal/agent/agent_agy_conversation.go:717-738 | a canceled conversation whose turn gave up closes exited if and only if a stop request follows |
| `AntigravityStops.StopCompletes` | internal/agent/agent_agy_conversation.go:639-821 | a conversation canceled during a turn closes exited, in every fair run, if and only if that turn does not give up (no pipe, no process, prompt not taken) or a stop request follows |
| `AntigravityStops.StopLost` | internal/agent/agent_agy_conversation.go:717-725 | a concrete fair run in which a conversation is canceled in mid-turn, the process does not start, and exited is never closed |
| `Conversation.Conversation.PostApproval` | internal/agent/agent_conversation_approvals.go:217-255 | each verdict exactly: the decision is none the owner may make, no call has the id, or of the first call that has it the turn has ended, the answers or the decision do not fit, the write failed, or it is answered and alone removed; all else stays but the mark |
| `Conversation.Conversation.PostMessage` | internal/agent/agent_conversation.go:360-440 | each admission exactly: unavailable when stopped, started when idle, joined when Claude's published stdin took the message, else queued at the end of next; the wait it answers; and the whole new state |
| `Conversation.Conversation.PostInterrupt` | internal/agent/agent_conversation.go:342-354 | accepted if and only if the conversation is busy; then it is marked interrupted, and Codex's queue is dropped |
| `Conversation.Conversation.DesktopStop` | internal/agent/agent_desktop.go:404-414 | a stop marks the run canceled, and closes it with its status if and only if nothing of it runs |
| `Conversation.Conversation.EnterCodexTurn` | internal/agent/agent_codex_conversation.go:183-200 | a goroutine becomes the supervisor if and only if the run is not canceled and has none; a canceled run without one is closed |
| `Conversation.Conversation.SteerFailed` | internal/agent/agent_codex_conversation.go:334-343 | the batch goes back to the head of the queue if and only if the steer was refused and the turn has ended |
| `Conversation.Conversation.EndCodexConversation` | internal/agent/agent_codex_conversation.go:476-500 | the end of the supervisor that owns the conversation clears turn, calls, interrupt and queue, and confirms a stop; that of any other changes nothing |
| `Conversation.Conversation.BeginAntigravityTurn` | internal/agent/agent_agy_conversation.go:661-681 | a turn begins unless its pipe cannot be made, publishes its stdin if it has one, and forgets an interrupt |
| `Conversation.Conversation.EndClaudeTurn` | internal/agent/agent_conversation.go:821-856 | the closing section clears the turn, confirms a stop, and answers with the prompt of the following turn |
| `Conversation.Conversation.CodexRequestResolved` | internal/agent/agent_codex_conversation.go:601-608 | a resolved request is the first one with that wire id, and it alone goes |
| `Conversation.Conversation.EndAntigravityTurn` | internal/agent/agent_agy_conversation.go:785-816 | the closing section answers with the message that goes on, and keeps the conversation busy exactly then |
| `Waits.OwnedThroughout` | internal/agent/agent_conversation.go:88-95 | at every lock release, server pushes included, a mark the agent owns implies pending calls |
| `Waits.PendingCallsAreMarked` | internal/agent/agent_codex_conversation.go:543-608 | every section that changes the pending calls leaves the run marked if any remain |
| `Waits.DeclaredWaitSurvives` | internal/agent/agent_conversation.go:88-95 | without messages and server pushes a wait the session declared survives any sequence of sections, approvals and turn ends included |
| `Waits.DeclaredWaitLost` | internal/agent/agent.go:842-856 | a concrete sequence in which a wait pushed while an approval is up is lost with that approval |
| `Waits.PushedWaitSurvives` | internal/agent/agent.go:842-856 | a wait the server pushes and nobody answers is up when no call is pending any more if and only if the agent's own mark was not up when it came |
| `Waits.AnsweredStaysAnswered` | internal/agent/agent.go:830-856 | after wait t was answered no sequence of sections and echoes of t brings its mark back or forgets the answer; what mark there is belongs to a pending call |
| `Waits.AnsweredUntilAnotherPush` | internal/agent/agent.go:842-855 | without messages an answered wait stays answered through any sections if and only if no push of none or of another start came |
| `Waits.EveryEchoIsAnsweredAgain` | internal/agent/agent.go:848-853 | whatever came in between but such a push, an echo of the answered wait is answered again and changes nothing |
| `Waits.MessageAnswersDeclared` | internal/agent/agent_conversation.go:400-406 | a message answers exactly the wait the session declared, whatever happened to approvals since, and tells the server of it |
| `Waits.ControlledRun.HandleRunWaiting` | internal/agent/agent.go:830-856 | the same for a run of any kind: a headless run without a conversation never waits |
| `Waits.ControlledRun.AnswerRun` | internal/agent/agent.go:885-899 | Enter answers a terminal's wait, and nothing else does |
| `Waits.ResendAnswers` | internal/agent/agent.go:926-942 | a new connection is sent every answer not confirmed, of each run once, and no other |
| `Approvals.CheckAnswers` | internal/agent/agent_conversation_approvals.go:281-311 | answers pass if and only if their questions are exactly those asked, none is blank and together they weigh no more than the limit; each refusal says which of these failed |
| `Approvals.AcceptedExactly` | internal/agent/agent_conversation_approvals.go:281-311 | the answers that pass, in full: none with another decision; with answer exactly one per question asked, each with something left when trimmed, within 16 KiB together |
| `Approvals.SameKeys` | internal/agent/agent_conversation_approvals.go:301-308 | among answers to questions that were asked, equal numbers mean equal sets |
| `Approvals.OfferCommandChoices` | internal/agent/agent_codex_conversation.go:780-802 | a decision on a command is offered if and only if Codex listed a word for it or nothing at all; allow sends accept, always acceptForSession, and deny decline, or cancel only where decline is not listed |
| `Approvals.CodexApproval` | internal/agent/agent_codex_conversation.go:744-831 | a request becomes a call if and only if it is supported (of questions: some, each with a text no other has under a key); the call is well formed and offers what the request lists |
| `Approvals.SupportedExactly` | internal/agent/agent_codex_conversation.go:810-823 | questions make a call if and only if there are some, each has a text, and of those with one text all but the last come without a key |
| `Approvals.KeyOfTheLast` | internal/agent/agent_codex_conversation.go:813-817 | an answer goes under the key of the last question with its text |
| `Approvals.OpenTo` | internal/agent/agent_codex_conversation.go:842-867 | which decisions each request takes: a question an answer or a skip, a command the decisions that were listed, file changes and permissions all three |
| `Approvals.SentAsMeant` | internal/agent/agent_codex_conversation.go:845-881 | Codex is told what the owner decided: accept only for allow, acceptForSession only for always, decline or cancel only for deny; permissions for the session only for always, and none for deny; no answers to a question that is skipped |
| `Approvals.CommandsGetAListedWord` | internal/agent/agent_codex_conversation.go:857-869 | a command that lists its decisions is answered with one of them |
| `Approvals.CodexReply` | internal/agent/agent_codex_conversation.go:842-881 | a reply leaves if and only if the answers fit and the decision was offered, and it is a word that was offered, the permissions asked for or none, or the answers under their keys |
| `Approvals.FillAnswers` | internal/agent/agent_codex_conversation.go:850-857 | each key gets the answer of one of the questions that carry it, or none when skipped |
| `Approvals.DistinctKeysKeepAnswers` | internal/agent/agent_codex_conversation.go:850-857 | with distinct keys each question's own answer arrives under its key |
| `TurnInput.ConversationInput.SendMessage` | internal/agent/agent_conversation_approvals.go:29-41 | a message is written and reported sent exactly when the input is open |
| `TurnInput.ConversationInput.CloseInput` | internal/agent/agent_conversation_approvals.go:43-53 | closing twice closes the writer once |
| `TurnInput.NothingAfterClose` | internal/agent/agent_conversation_approvals.go:29-53 | for every order of sends and closes, what was written is what was sent before the first close, in order, and the writer is closed at most once |
| `AgyTranscript.StepWords` | internal/agent/agent_agy_conversation.go:274-428 | on every frame sequence the transcript holds of each step at most one thinking and then one assistant event, each the trimmed deltas received until that step's thinking, or its text, was complete |
| `AgyTranscript.StepCards` | internal/agent/agent_agy_conversation.go:348-369 | each step has a call exactly when a tool frame of it came, a result exactly when an ended one did, each once, the result after the call |
| `AgyTranscript.WordsBeforeTheCard` | internal/agent/agent_agy_conversation.go:349-361 | in the finished transcript all the words of every lower step seen before a tool call stand before its card |
| `AgyTranscript.ResultCompletes` | internal/agent/agent_agy_conversation.go:387-391 | after a result frame every step seen is flushed, and no later frame changes its words |
| `AgyTranscript.CompleteWordsStay` | internal/agent/agent_agy_conversation.go:282-302 | once a step's text is complete its words never change |
| `AgyTranscript.StepsInOrder` | internal/agent/agent_agy_conversation.go:274-280 | stepOrder is strictly ascending and lists exactly the steps seen |
| `AgyTranscript.AnswerOfLastResort` | internal/agent/agent_agy_conversation.go:410-421 | the result's response is written as the answer if and only if it answers no command, it succeeded with text, and no step had said anything |
| `AgyTranscript.NotesExactly` | internal/agent/agent_agy_conversation.go:410-424 | on every frame sequence the output of a command is written once, trimmed, from the first result of a command that has any, and each result with denied actions leaves one notice |
| `AgyTranscript.RunSlot` | internal/agent/agent_agy_conversation.go:318-428 | the assembler treats every step as if its frames, and those that complete it, were all there is |
| `AgyStream.AgyStreamState.HandleFrame` | internal/agent/agent_agy_conversation.go:318-428 | one frame changes the assembler as Handle has it, and only a result ends the turn |
| `AgyStream.AgyStreamState.FlushPriorSteps` | internal/agent/agent_agy_conversation.go:304-310 | the loop flushes the lower steps, in ascending order |
| `AgyStream.AgyStreamState.FlushAllSteps` | internal/agent/agent_agy_conversation.go:312-316 | the loop flushes every step, in ascending order |
| `AgyStream.SortIntsSorts` | internal/agent/agent_agy_conversation.go:278 | the numbers are ordered and all kept |
| `Output.ChunksDoNotMatter` | internal/agent/agent_conversation.go:536-552 | any division of a stream into writes leaves the same lines and buffer, those of the stream split on newlines |
| `Output.SplitJoins` | internal/agent/agent_conversation.go:536-552 | the frames and the open rest put together again are the stream, and hold no newline |
| `Output.SplitUnique` | internal/agent/agent_conversation.go:536-552 | and no other frames and rest do |
| `Output.OneLineEach` | internal/agent/agent_conversation.go:536-552 | each frame shows one line in its place: itself, or itself less the one carriage return it ends in, or that it is larger than 2 MiB; an open frame is reported as soon as it is too large and not again |
| `Output.TrimCRTakesOne` | internal/agent/agent_conversation.go:538-541 | one final carriage return is taken from a line, and nothing else |
| `Output.OutputIsBounded` | internal/agent/agent_conversation.go:528-552 | no line and no buffer is larger than 2 MiB, and no line holds a newline |
| `Output.ConversationOutput.Write` | internal/agent/agent_conversation.go:536-552 | after whatever stream, a write of any bytes leaves what the longer stream shows, and reports all of them written |
| `Output.ConversationOutput.ShowRest` | internal/agent/agent_conversation.go:815-817 | the end of a turn shows what was left without a newline, as it is |
| `Output.LimitedBuffer.Write` | internal/agent/agent_conversation.go:860-869 | a write keeps what fits of the first 64 KiB and reports all of it written |
| `Output.DiagnosticsAreTheBeginning` | internal/agent/agent_conversation.go:858-869 | after any writes the copy is exactly the first 64 KiB of the stream |
| `ToolText.CodexToolText` | internal/agent/agent_codex_conversation.go:711-721 | text over the limit becomes its longest prefix within the limit that is valid UTF-8, at most three bytes shorter than the limit when the text is valid; other text is unchanged |
| `ToolText.EncodedIsValid` | internal/agent/agent_codex_conversation.go:717 | what section 3 of RFC 3629 encodes is valid by the syntax of its section 4 |
| `ToolText.ValidIsEncoded` | internal/agent/agent_codex_conversation.go:717 | and what is valid encodes some characters |
| `ToolText.BoundaryNear` | internal/agent/agent_codex_conversation.go:716-719 | valid text has a character boundary at most three bytes before any place |
| `ToolText.ValidPrefixIsWhole` | internal/agent/agent_codex_conversation.go:716-720 | a valid prefix of valid text is its first characters, whole |
| `CommandLine.QuoteRoundTrip` | internal/agent/agent_config.go:491-492 | for every NUL-free text the shell reads the quoted text back as that one word |
| `CommandLine.ScanQuoted` | internal/agent/agent_config.go:491-492 | wherever it stands in a line, a quoted text continues its word by exactly that text |
| `CommandLine.ClaudeLineRoundTrip` | internal/agent/agent_config.go:523-578 | the shell reads Claude's headless line back as exactly the arguments meant, one for the prompt, one per named folder, one for the settings |
| `CommandLine.CodexLineRoundTrip` | internal/agent/agent_config.go:523-578 | and Codex's, which takes folders and no settings |
| `CommandLine.NamedAddsUp` | internal/agent/agent_config.go:554-567 | the folders of a line are those of its parts, in order |
| `CommandLine.NamedOne` | internal/agent/agent_config.go:554-567 | and a folder counts, trimmed, if and only if it is not blank |
| `CommandLine.LauncherRoundTrip` | internal/agent/agent_run.go:167 | a line quoted again for the launcher arrives unchanged as the value of --command |
| `WorktreeList.WorktreeForBranch` | internal/agent/agent_config.go:212-235 | on what git prints for any list of worktrees the answer is the first one whose checked out branch is exactly that one; detached and bare ones never match |
| `WorktreeList.ReadsPrinted` | internal/agent/agent_config.go:217-234 | reading the trimmed porcelain text back gives the records that were printed |
| `WorktreeList.CarryingFirst` | internal/agent/agent_config.go:221-232 | the worktree of a branch is the first listed with it |
| `WorktreeList.TrimCRsTakesAll` | internal/agent/agent_config.go:222 | all the carriage returns a line ends in are taken, and nothing else |
| `TaskWorktree.EnsureTaskWorktree` | internal/agent/agent_config.go:251-322 | the directory returned has the task's branch checked out, it exists unless git listed a worktree whose directory is gone, no branch is in two worktrees, every branch keeps its tip, a new branch starts from origin's, else from the fetched default branch, else from the checkout's commit, a task with a worktree keeps it and nothing changes |
| `TaskWorktree.EnsureAgain` | internal/agent/agent_config.go:283-296 | a second call returns the same directory, up to the name git gives it, and changes nothing: all that two calls do is what the first did, one worktree more or none |
| `TaskWorktree.RemovedByHand` | internal/agent/agent_config.go:283-290 | on a repository that lists a worktree whose directory is gone, that path is returned and nothing is there |
| `TaskWorktree.CheckedOut` | internal/agent/agent_config.go:256-262 | without worktrees the checkout is used if and only if its branch is the assigned one, if any |
| `TaskWorktree.HeadOfFirst` | internal/agent/agent_config.go:256-262 | the branch of a directory is that of the first worktree listed there that has one |
| `TaskWorktree.CreateBranch` | internal/agent/agent_config.go:307-318 | a new branch starts from what origin has of it, else from the fetched default branch, else from the checkout's commit |
| `TaskWorktree.CheckOutBranch` | internal/agent/agent_config.go:305-306 | a branch that exists is checked out as it is |
| `TaskWorktree.Repository.AvailablePath` | internal/agent/worktree_paths.go:133-147 | the path is the first candidate nothing has; there is none if all are taken, or one that cannot be read comes before |
| `TaskWorktree.FetchForBase` | internal/agent/agent_config.go:308-317 | a fetch moves only what is known of origin, and a missing default branch is told |
| `Permissions.SessionPermissions` | internal/agent/agent_conversation_approvals.go:118-149 | the updates keep their number and order, each readable one that named a destination names the session with every other decoded value as it was, the rules are those of the readable allow updates in order, and the unreadable ones are told |
| `Permissions.ReadUpdates` | internal/agent/agent_conversation_approvals.go:124-143 | the loop keeps every update in its place, rewritten or not, and collects rules and unreadable updates in their order |
| `Permissions.PermissionRules` | internal/agent/agent_conversation_approvals.go:154-174 | an update gives a rule for each item, or none when some item names no tool |
| `Permissions.GrantedExactly` | internal/agent/agent_conversation_approvals.go:130-174 | an update grants rules if and only if it adds rules, allows, and lists items that each name a tool: one per item, its tool trimmed and its content as it is |
| `Permissions.UnreadExactly` | internal/agent/agent_conversation_approvals.go:124-143 | an update is told as unread if and only if it is no object, or allows rules of which some item names no tool |
| `Permissions.RuleRoundTrip` | internal/agent/agent_conversation_approvals.go:163-171 | a written rule reads back as its tool and content |
| `Permissions.RenderInjective` | internal/agent/agent_conversation_approvals.go:163-171 | no two rules are written alike |
| `Permissions.RulesReadBack` | internal/agent/agent_conversation_approvals.go:135-141 | every rule handed to the project reads back as the tool and content of its update, in order |
| `CodexRpc.OnlyOwnReply` | internal/agent/agent_codex_conversation.go:147-173 | over every interleaving a call receives only a reply bearing its own id, the first one read since it began |
| `CodexRpc.OneCallEach` | internal/agent/agent_codex_conversation.go:138-144 | a reply goes to one call at most |
| `CodexRpc.OnlyCallsInFlight` | internal/agent/agent_codex_conversation.go:148-154 | the table holds only calls in flight, each under its own id |
| `CodexRpc.ReaderNeverBlocks` | internal/agent/agent_codex_conversation.go:138-144 | whatever the reader has looked up, the channel of that call is empty |
| `CodexRpc.NoReplyLost` | internal/agent/agent_codex_conversation.go:138-162 | a call still waiting when its reply was read has it, or is being handed it |
| `CodexRpc.KeysDiffer` | internal/agent/agent_codex_conversation.go:149-151 | two calls never share an id |
| `CodexRpc.CodexRPC.Register` | internal/agent/agent_codex_conversation.go:148-153 | a call takes the next number and is in the table under its id |
| `CodexRpc.CodexRPC.Take` | internal/agent/agent_codex_conversation.go:138-141 | a reply takes its call out of the table, once |
| `CodexRpc.CodexRPC.Forget` | internal/agent/agent_codex_conversation.go:154 | a call that returns leaves the table |
| `ShellContext.TheOldestGo` | internal/agent/agent_conversation_shell.go:90-106 | what the next message carries is always the end of what the commands since the last message printed, within 32 KiB, and all of it when it fits |
| `ShellContext.TheNewestStays` | internal/agent/agent_conversation_shell.go:90-95 | the command that ended last is carried whole when it fits alone |
| `ShellContext.Conversation.CommandEnded` | internal/agent/agent_conversation_shell.go:90-95 | a command's block is added and the oldest text cut |
| `ShellContext.Conversation.WithShellContext` | internal/agent/agent_conversation_shell.go:100-107 | a message takes the context in front of it, once |
| `HandOver.OneLaunchPerTask` | desktop/src/main.js:4578-4582 | over every interleaving of launches, polls and moves, at most one launch is in flight on a task |
| `HandOver.HandedOverWhenDue` | desktop/src/main.js:4521-4532 | a pass over the launches stops the conversation of one if and only if it was accepted, a successor shows among the runs, and the user is on its task |
| `HandOver.StopsOnlyWhenDue` | desktop/src/main.js:4521-4532 | in every run the page stops a conversation only as a poll ends, for a hand-over due then: the user is on its task and the successor is a run of that task that was not known |
| `HandOver.StopsAreEarned` | desktop/src/main.js:4599-4607 | a conversation is stopped at most once for a launch, which its own offer asked for and the server accepted, and its successor is none of the task's runs read before the launch |
| `HandOver.IdsOfExactly` | desktop/src/main.js:4603 | the runs remembered for a task are all those of it, and no other |
| `HandOver.SuccessorIsFirst` | desktop/src/main.js:4524 | the successor is the first run of the task that is not among them |
| `HandOver.HeldExactly` | desktop/src/main.js:4582-4620 | in every run a task is held as submitting if and only if a launch on it is in flight |
| `HandOver.SubmittedExactly` | desktop/src/main.js:4477-4604 | in every run a task counts as submitted if and only if a launch on it was accepted and its step has not been seen since; until then it is not launched again |
| `HandOver.TaskPage.LaunchAccepted` | desktop/src/main.js:4603-4607 | an accepted launch remembers exactly the ids of the task's runs read before it, and its offer waits for a successor |
| `HandOver.TaskPage.HandOverTask` | desktop/src/main.js:4521-4532 | one hand-over: it goes once a successor shows, and then the conversation is stopped and the successor selected if and only if the user is on the task |
| `HandOver.MovingKeepsTheConversation` | desktop/src/main.js:416-419 | once the user moves to another task while an accepted launch waits, its conversation is never stopped |
| `HandOver.MoveDrops` | desktop/src/main.js:418-419 | a move to another task drops a hand-over if and only if its launch was accepted by then |
| `HandOver.MovingTooEarly` | desktop/src/main.js:4601-4607 | a concrete run in which the user leaves the task while the launch is being submitted, comes back, and the conversation is stopped all the same |
| `HandOver.TaskPage.HandOverConversations` | desktop/src/main.js:4521-4532 | the loop hands over each launch in turn |
| `HandOver.TaskPage.SelectRun` | desktop/src/main.js:407-419 | a selection drops exactly the waiting hand-overs of other tasks |
| `HandOver.TaskPage.SubmitLaunch` | desktop/src/main.js:4578-4582 | a launch is submitted only when its task has none submitting, submitted or offered |
| `HandOver.TaskPage.FinishLaunch` | desktop/src/main.js:4619-4624 | the end of a launch frees its task, and keeps its offer only if accepted |
| `DiffView.OnlyFreshChanges` | desktop/src/gitDiff.js:34-169 | in whatever order the agent answers, the result and the counts shown are those of the selected run and folder, results shown come from ever later requests, a pane is always shown, and an open view is marked busy exactly while its refresh is open |
| `DiffView.AnswerIsShown` | desktop/src/gitDiff.js:112-118 | in every run the answer that the open view waits for is shown with its counts, a failure or another run's changes clear the view, and any other answer leaves what is shown |
| `DiffView.BusyForNothing` | desktop/src/gitDiff.js:162-166 | a concrete run after which a view closed for want of a run stays marked busy with nothing to load |
| `DiffView.BusyExactly` | desktop/src/gitDiff.js:103-169 | in every run the busy mark is right if and only if it was never misled, by picking no run while a refresh is open, or has been repaired since |
| `DiffView.OnlyPickingNoRunMisleads` | desktop/src/gitDiff.js:162-166 | a step makes a right mark wrong if and only if it picks no run while a refresh is open |
| `DiffView.GitDiff.ChooseFolder` | desktop/src/gitDiff.js:123-129 | another folder clears what is shown and asks anew |
| `DiffView.GitDiff.SelectRun` | desktop/src/gitDiff.js:162-167 | another run clears what is shown, asks anew, and without a run shows the console |
| `DiffView.GitDiff.PressChanges` | desktop/src/gitDiff.js:144-148 | the button opens the view and asks anew, or closes it, unless the view is all that is shown |
| `DiffView.GitDiff.FinishRefresh` | desktop/src/gitDiff.js:103-120 | an answer becomes the result, with its counts, exactly while it is the one waited for and of the run asked for; a failure or another run's changes then clear the view |

## Left out

- TurnInput.ConversationInput.SendMessage: a message that cannot be encoded, and a write that fails on an open input, are not modelled.
- HandOver.TaskPage.SelectRun: a hidden project and an open task page, which return early, are inputs of the machine's steps.
- HandOver.TaskPage.SubmitLaunch: the runs that block a launch and the step the page displays are not modelled; a launch may be refused for them, never admitted.
- Permissions.SessionPermissions: a number is the float64 it decodes to, which encoding keeps; the digits of its text may change, as with 12345678901234567890.
- CodexStops.StopCompletes: says when exited closes; that the queued messages are never started is `CodexRuns.QueuedAreNeverStarted`.
- Posts that start no message (a blank one, `/mcp`, a `!` command) and the choice of model, effort and mode that comes with a post.
- The restart guard looks at every run and refuses a second restart; one conversation is modelled.
- The turn id a completion names is compared in the machine (`CodexSupervisor`), outside the section of the record.
- Approvals.CheckAnswers: spaces other than the ASCII ones are not blank here, so an answer of Unicode spaces only counts as an answer.
- CommandLine.ClaudeLineRoundTrip: takes a model that `ValidModel` accepts, which the code checks where a model enters the configuration, and NUL-free texts, which no command line can hold.
- WorktreeList.WorktreeForBranch: takes worktree paths on one line that do not end in a carriage return; the porcelain format without `-z` cannot tell others apart.
- CodexRpc.KeysDiffer: counts calls without the wrap-around of a 64-bit sequence.
- AntigravityRuns.OneProcessAtATime: a turn that goes on with the next message is a new worker of the machine, where the code calls itself.
- ClaudeRuns.AnsweredOnceOnAnOpenStdin: whether a write to an open stdin works is chosen by the environment; what the process makes of it is not modelled.
- CodexRuns.DeliveredInOrder: the app-server takes requests in the order in which its stdin receives them.
- Joining several messages of a batch with blank lines: a batch stays a list of messages.
- The context that shell commands add to a message is modelled by itself, not inside the record.
- The fields of a conversation that only travel: session, model, effort, mode, usage, commands, folders, the draft shown while a reply streams.
- Restored runs, the preparation lock of a restart, and the recovery of orphaned terminal runs.
- The grace period in which a turn's stdin stays open past its result: the machine lets it close at any time.
- The health check of MCP servers, reading commands ahead of a turn, and the Codex start when the view opens beyond its supervisor.
- Building processes, decoding and encoding JSON, HTTP and WebSocket transport: their outcomes are steps or already decoded values.
- Keeping rules and folders in the project's settings after an "Always allow".
- The text of tool cards, notices and diagnostics.
- The Windows branch of the launcher's line, command templates and interactive lines.
- Branch name formats, worktree directory names, the choice of a default branch and `check-ref-format`: their results are inputs. Making the parent directories of a worktree only succeeds or fails.
- The rules by which a next step is offered and a run counts as blocking, and the page that keeps a user on an unsaved edit: their verdicts are inputs.
- Rendering of files and Markdown, the split of the panes, and the texts of the changes view.
