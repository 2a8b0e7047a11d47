# A verified model of Hecate's external-agent sessions

Hecate runs external coding agents: it asks operators for permission, supervises turns and their cancellation, stages
private prompt files, masks their paths, relays terminal output and pins the executables it starts. This project models
the concurrent bookkeeping behind those duties, and the byte-level algorithms that feed it, in Dafny, and proves what
they keep.

Two kinds of model are used side by side. Where threads interleave, a component is a transition system: `Next(s, step)`
is one atomic section of one thread, `Run` is any sequence of them, an invariant is kept by every step, and the main
results hold of every reachable state or of every run. What one lock protects is also modelled as a class whose methods
change its fields in place and are proved against the same functions. Sequential algorithms are loops proved against
recursive specifications, whose properties are separate lemmas.

| file | what it models |
|---|---|
| `approvals_store.dfy` | the in-memory approval store: resolution, grants, retention, startup reconciliation |
| `approvals_protocol.dfy` | one approval: request, operators, timer, store row, waiter and channel race |
| `acp_turns.dfy` | prompts, cancellation, closing and detached controllers of one ACP session |
| `cleanup_owner.dfy` | the process-wide owner of retained stages, turn admission and session shutdown |
| `stage_fence.dfy` | the path fence around stages, under a read-write lock and across renames |
| `stage_cleanup.dfy`, `stage_latch.dfy` | the retried removal of one stage, and its latches over any number of calls |
| `prompt_packing.dfy` | the inline budget and the cheap test of prompt packing |
| `redactor.dfy`, `redactor_json.dfy` | alias masking of text, of fragments and of JSON values |
| `text_windows.dfy`, `utf8.dfy` | the terminal ring, the thought accumulator and text chunks, over UTF-8 (RFC 3629) |
| `terminals.dfy` | terminal admission, settlement, lease and closing |
| `command_catalog.dfy` | publication of the available commands |
| `executable_identity.dfy`, `digits.dfy` | the identity encoding and the measuring limit |
| `executable_trust.dfy` | approvals, revocations and permits under per-adapter locks |
| `mobile_version.dfy`, `byte_order.dfy` | the store version codes, and the order of Semantic Versioning 2.0.0, section 11, words included |
| `wrappers.dfy` | optional and fallible results |

Calls into the runtime, the file system, the store's medium and the client are parameters of the steps: every answer
they could give is considered. Fresh ids are assumed to be new. Time appears only as the freedom of a timer to fire.

## What was found

Facts of the code that shape the results below. Each is a lemma with a concrete run or input; where the code misses a
property, the exact condition under which it has it is a lemma too.

- A grant or mode default that loses its row to an operator still returns its own choice
  (`ApprovalsProtocol.LostDecisionCanDisagree`). Fidelity holds for the prompt path and for decisions that won; it holds
  of all decisions in every interleaving if and only if there is nothing they could select: neither family is offered,
  and automatic mode has no option to fall back on (`ApprovalsProtocol.DecisionsAreFaithfulOnlyWhenMute`).
- A wake can be lost only when the re-check after registering the waiter could not read the row
  (`ApprovalsProtocol.UncheckedWaitCanMissItsWake`); the timer then ends the wait.
- Between leaving the registry and being marked closed, a session may admit a queued prompt that continues an
  unfinished run (`AcpTurns.ClosingWindowAllowsOverlap`); for turns admitted while registered it never happens.
- With aliases free of brackets, redaction is complete if and only if the replacement text holds no alias
  (`Redactor.RedactionIsComplete`). With brackets it is complete if no tail of an alias lines up with the replacement
  and no alias with a tail of it (`Redactor.RedactIsClean`). An alias that breaks only the first half can leak
  (`Redactor.AliasBeforeTheSeamLeaks`), and so can one that breaks only the second
  (`Redactor.AliasAcrossTheSeamLeaks`); still the condition is not necessary (`Redactor.HiddenOverlapDoesNotLeak`).
- Two redacted fragments join without an alias if every alias is one character or at least fifteen long
  (`Redactor.FragmentsJoinClean`); for a single alias, only then (`Redactor.OneAliasJoinsClean`).
- The cheap test of prompt packing changes a prompt if and only if packing reaches a file that is capable of a rich
  block, too large by the cheap test, and whose rich block cannot be encoded
  (`PromptPacking.PromptIgnoresTheCheapTest`, `PromptPacking.UnencodableFileIsStaged`).
- The version codes ignore the prerelease identifier's word, so 1.0.0-alpha.1 and 1.0.0-beta.1 share their codes and
  1.0.0-alpha.2 comes after 1.0.0-beta.1 (`MobileVersion.WordsCanShareACode`, `MobileVersion.WordsCanInvertCodes`).
  Codes keep order and identity if and only if the two versions are not prereleases of one release whose numbers
  contradict the order of their different words (`MobileVersion.AndroidKeepsOrder`, `MobileVersion.AppleKeepsOrder`).

## Model

| member | source | states |
|---|---|---|
| ApprovalsStore.FirstResolutionWins | internal/agentadapters/approvals_memory.go:43-65 | A row leaves pending at most once: the second terminal writer is told so and changes nothing |
| ApprovalsStore.MemoryApprovalStore.CreateApproval | internal/agentadapters/approvals_memory.go:27-41 | In place: the row is filed under its id, with a new id, the current time and pending filled in where the caller gave none; no other row changes |
| ApprovalsStore.MemoryApprovalStore.GetApproval | internal/agentadapters/approvals_memory.go:67-75 | The filed row, or the not-found error |
| ApprovalsStore.MemoryApprovalStore.CreateGrant | internal/agentadapters/approvals_memory.go:96-107 | In place: the grant is filed with id and time filled in where the caller gave none, and is otherwise what was given |
| ApprovalsStore.MemoryApprovalStore.ResolveApproval | internal/agentadapters/approvals_memory.go:43-65 | In place it is the atomic row transition, with not-found and already-resolved errors that change nothing |
| ApprovalsStore.MemoryApprovalStore.FindMatchingGrant | internal/agentadapters/approvals_memory.go:109-166 | The loop finds a live grant exactly when one matches, and no matching grant is more specific or, among equals, newer |
| ApprovalsStore.SortedIsNewestFirst | internal/agentadapters/approvals_memory.go:208-245 | Sorting for retention is a permutation in newest-first order |
| ApprovalsStore.DroppingTheTailSweeps | internal/agentadapters/approvals_memory.go:208-245 | Dropping the tail of the sorted listing keeps pending rows, keeps exactly the count, and counts what it dropped |
| ApprovalsStore.DroppingTheTailKeepsNewest | internal/agentadapters/approvals_memory.go:208-245 | No settled row that stays is older than one that was dropped |
| ApprovalsStore.MemoryApprovalStore.PruneApprovals | internal/agentadapters/approvals_memory.go:208-245 | Age sweep then count sweep: pending rows stay, surviving rows are unchanged, dropped rows are no newer, and the number returned is exact |
| ApprovalsStore.MemoryApprovalStore.ReconcilePending | internal/agentadapters/approvals_memory.go:276-294 | Every pending row becomes timed out by startup, every other row is unchanged, and the count returned is exact |
| ApprovalsProtocol.PickOption | internal/agentadapters/approvals_coordinator.go:408-420 | An option of the family is found exactly when one is offered |
| ApprovalsProtocol.PickOptionPrefersOnce | internal/agentadapters/approvals_coordinator.go:408-420 | It is the first "once" option if there is any, else the first "always" option |
| ApprovalsProtocol.PickOperatorOption | internal/agentadapters/approvals_resolve.go:217-251 | An operator option belongs to the family of the decision; an explicit id is never replaced, an implicit one is unique |
| ApprovalsProtocol.OperatorErrorsAreExact | internal/agentadapters/approvals_resolve.go:217-251 | Each error has its exact cause: unknown id, no or no fitting option, and several options without an id, which are all listed |
| ApprovalsProtocol.StoreSettles | internal/agentadapters/approvals_memory.go:43-65 | Seen from one row, the store step is the abstract settle step of the protocol and touches no other row |
| ApprovalsProtocol.WaiterTable.RegisterWaiter | internal/agentadapters/approvals_coordinator.go:446-455 | A fresh empty channel replaces any earlier waiter of the id |
| ApprovalsProtocol.WaiterTable.UnregisterWaiter | internal/agentadapters/approvals_coordinator.go:457-461 | In place: the waiter of the id is gone and no other |
| ApprovalsProtocol.WaiterTable.WakeWaiter | internal/agentadapters/approvals_coordinator.go:467-481 | A wake fills an empty channel or changes nothing, and says which |
| ApprovalsProtocol.StepKeepsInv | internal/agentadapters/approvals_coordinator.go:130-295 | Every step of requester, operators, timer, retention and startup keeps the protocol invariant |
| ApprovalsProtocol.PromptAnswersAreFaithful | internal/agentadapters/approvals_coordinator.go:221-295 | In every interleaving a Selected answer of the prompt path, or of a decision that won the row, is the option of the terminal approved or denied row; expiry answers Cancelled |
| ApprovalsProtocol.DecisionsKnowWhetherTheyWon | internal/agentadapters/approvals_coordinator.go:181-219 | A decision takes itself for the winner exactly when the row was resolved by it |
| ApprovalsProtocol.NoLostWakeup | internal/agentadapters/approvals_coordinator.go:221-276 | A requester past a successful re-check whose row an operator won has that one answer in its channel as soon as the operator is past its wake |
| ApprovalsProtocol.NothingIsDropped | internal/agentadapters/approvals_coordinator.go:467-481 | In no reachable state has a wake found the one-slot channel full |
| ApprovalsProtocol.OneOutcomeIsAnnounced | internal/agentadapters/approvals_coordinator.go:362-390 | At most one hook fires per row, it is the hook of the resolution that won, and it does fire once the winner is done |
| ApprovalsProtocol.ResolutionsCarryTheirFamily | internal/agentadapters/approvals_coordinator.go:297-332 | Denied rows carry a reject option, approved rows an allow option, except the explicit first-option fallback of automatic mode |
| ApprovalsProtocol.ResolutionIsFinalForever | internal/agentadapters/approvals_memory.go:43-65 | Over any run, a resolution and its winner never change again |
| ApprovalsProtocol.UncheckedWaitCanMissItsWake | internal/agentadapters/approvals_coordinator.go:236-262 | A reachable state in which the wake is lost: only when the re-check could not read the row |
| ApprovalsProtocol.LostDecisionCanDisagree | internal/agentadapters/approvals_coordinator.go:181-219 | A reachable state in which a grant that lost the row to an operator still answers with its own choice |
| ApprovalsProtocol.DecisionsAreFaithfulOnlyWhenMute | internal/agentadapters/approvals_coordinator.go:181-219 | For any mode and options: the answers of decisions match their rows in every interleaving if and only if no decision can select an option |
| AcpTurns.ActiveTurn.Cancel | internal/acpserver/agent.go:864-875 | In place: only the first request counts, and a completed turn stays uncancelled |
| AcpTurns.ActiveTurn.MarkCompleted | internal/acpserver/agent.go:877-881 | In place: the turn is completed and nothing else of it changes |
| AcpTurns.ActiveTurn.CancellationTarget | internal/acpserver/agent.go:883-891 | In place: the controller is claimed exactly when the turn is cancelled, unclaimed and both ids are known |
| AcpTurns.SessionState.Admit | internal/acpserver/agent.go:370-393 | In place: a turn is admitted exactly when the session is open, idle and not owed a retry of another prompt |
| AcpTurns.SessionState.Record | internal/acpserver/agent.go:424-436 | In place: the created task is recorded only by the turn that owns the session, which is told otherwise to stop |
| AcpTurns.SessionState.Finish | internal/acpserver/agent.go:473-481 | In place: task and run are recorded together and the pending prompt is cleared, only by the owner |
| AcpTurns.SessionState.Retire | internal/acpserver/agent.go:801-819 | In place: only the active turn can retire the session, which closes it |
| AcpTurns.StepKeepsInv | internal/acpserver/agent.go:370-597 | Every step of prompt handler, watcher, cancellers, closer and controllers keeps the turn invariant |
| AcpTurns.RunsDoNotOverlap | internal/acpserver/agent.go:370-490 | While a session is registered and open, at most one acknowledged run has not ended, and it is the active turn's |
| AcpTurns.IdleSessionHasFinished | internal/acpserver/agent.go:556-593 | A registered, open session without an active turn has seen the terminal event of every run it ever started |
| AcpTurns.RunsStartFromKnownGround | internal/acpserver/agent.go:405-460 | A turn admitted while registered continues only a run that ended, and a task is started only for the prompt it was created with |
| AcpTurns.NoCancellationIsLost | internal/acpserver/agent.go:694-716 | A cancelled turn with known ids has exactly one controller, or some thread is just about to start it, even if cancel came before the run was known |
| AcpTurns.OnlyCancelledRunsAreStopped | internal/acpserver/agent.go:743-781 | CancelRun is only ever asked for the run of a cancelled turn |
| AcpTurns.CompletionOutrunsCancellation | internal/acpserver/agent.go:864-881 | A turn completed before any cancellation stays uncancelled over any further run, gets no controller and no CancelRun |
| AcpTurns.ClosingReachesTheActiveTurn | internal/acpserver/agent.go:323-368 | A closed session's active turn has been asked to cancel, or a thread is about to ask it |
| AcpTurns.ClosingWindowAllowsOverlap | internal/acpserver/agent.go:323-368 | Between leaving the registry and being marked closed, a reachable state continues from a run that never ended |
| CleanupOwner.StageOwner.Acquire | internal/agentadapters/acp_prompt_cleanup.go:93-105 | In place: a reservation is granted exactly within both limits |
| CleanupOwner.StageOwner.ReleaseReservation | internal/agentadapters/acp_prompt_cleanup.go:140-148 | In place: reservation and session count go down once and the generation moves on |
| CleanupOwner.StageOwner.RetainReservation | internal/agentadapters/acp_prompt_cleanup.go:150-175 | In place: the reservation becomes a stage, the count stays, and the worker is started exactly if none runs |
| CleanupOwner.StageOwner.ForgetCleaned | internal/agentadapters/acp_prompt_cleanup.go:241-252 | In place: a cleaned stage leaves the owner and its count once; an unknown one changes nothing |
| CleanupOwner.StageOwner.RetainedCount | internal/agentadapters/acp_prompt_cleanup.go:322-330 | The loop counts exactly the retained stages of the session |
| CleanupOwner.StepKeepsInv | internal/agentadapters/acp_prompt_cleanup.go:93-275 | Every step of turns, shutdowns and worker keeps the ledger, the worker and the shutdown invariants |
| CleanupOwner.CountsAreConserved | internal/agentadapters/acp_prompt_cleanup.go:93-175 | In every reachable state each count is its reservations plus its stages, within four per session and the process limit |
| CleanupOwner.OneWorker | internal/agentadapters/acp_prompt_cleanup.go:212-264 | A non-empty stage set has exactly one worker; there are never two |
| CleanupOwner.SpentNeverActsAgain | internal/agentadapters/acp_prompt_cleanup.go:107-138 | Over any run, an admission spent by release or retain never acts again, and its stage, once gone, never returns |
| CleanupOwner.AdmissionsEndSpent | internal/agentadapters/acp_prompt_cleanup.go:107-138 | Over any run, a turn that held an admission and is over has spent it: given back or turned into a stage |
| CleanupOwner.OverTurnsOweNothing | internal/agentadapters/acp_prompt_cleanup.go:107-138 | No turn that is over has a reservation outstanding |
| CleanupOwner.NoWakeupIsLost | internal/agentadapters/acp_prompt_cleanup.go:284-304 | A shutdown waiting for a session whose count is zero is always able to go on |
| CleanupOwner.ShutdownDrainsForGood | internal/agentadapters/acp_session_lifecycle.go:1012-1078 | After an error-free shutdown no stage of the session is retained and none ever will be, over any further run with queued turns |
| StageFence.SpellingsAgree | internal/agentadapters/acp_prompt_namespace.go:99-157 | However a workspace file is named, its lexical and canonical spellings are both compared with the fence |
| StageFence.StepKeepsInv | internal/agentadapters/acp_chat_client.go:77-145 | Every step of fallbacks, registrations, renames and removals keeps the fence invariant |
| StageFence.NoFallbackInsideAStage | internal/agentadapters/acp_chat_client.go:138-145 | While a stage is registered no fallback runs on a path inside its current or a former directory |
| StageFence.NewNameIsFencedFirst | internal/agentadapters/acp_prompt_stage_posix.go:385-406 | A registered stage is fenced under its quarantine name before the rename happens |
| StageFence.FenceOutlivesTheStage | internal/agentadapters/acp_prompt_namespace.go:83-92 | Registration happens once and ends only after removal was proved |
| StageFence.FenceHoldsUntilProof | internal/agentadapters/acp_prompt_namespace.go:20-92 | Over any run that does not reach the proof, every directory ever fenced stays fenced |
| StageCleanup.PromptStage.Cleanup | internal/agentadapters/acp_prompt.go:410-503 | The two retry loops do exactly what the specification of one cleanup says, for all answers of the foreign steps |
| StageLatch.CallsAreTraced | internal/agentadapters/acp_prompt.go:410-503 | Over any number of calls the foreign steps follow the removal automaton |
| StageLatch.RemovalLatches | internal/agentadapters/acp_prompt.go:459-491 | After a removal succeeded no quarantine, announcement, preparation or removal is ever issued again |
| StageLatch.IdentityOutlivesUntilProof | internal/agentadapters/acp_prompt.go:443-456 | Identity and fence are dropped only behind a positive removal proof |
| StageCleanup.VerdictIsHonest | internal/agentadapters/acp_prompt.go:410-503 | Success means the stage is finished and proved removed; failure keeps directory, identity, names and fence for a retry; contents are wiped either way |
| StageCleanup.CallIsBounded | internal/agentadapters/acp_prompt.go:459-503 | One call is bounded, and succeeds exactly when one of four attempts and one of four proofs do |
| Redactor.ArrangedIsLongestFirst | internal/agentadapters/acp_prompt_redactor.go:106-116 | Arranged aliases are the given ones, each once, none before a longer one |
| Redactor.MatchIsLongest | internal/agentadapters/acp_prompt_redactor.go:164-175 | With aliases longest first, the alias taken is the longest that begins there |
| Redactor.RedactText | internal/agentadapters/acp_prompt_redactor.go:155-183 | The offset loop computes the redaction specification |
| Redactor.RedactLeftmostLongest | internal/agentadapters/acp_prompt_redactor.go:155-183 | Redaction replaces the leftmost occurrence, the longest there, and continues behind it |
| Redactor.RedactIsClean | internal/agentadapters/acp_prompt_redactor.go:155-183 | No alias is left anywhere in the output, seams included, when aliases do not overlap the replacement text |
| Redactor.RedactKeepsClean | internal/agentadapters/acp_prompt_redactor.go:155-183 | Text without aliases is unchanged |
| Redactor.BracketFreeDoesNotOverlap | internal/agentadapters/acp_prompt_redactor.go:49-128 | Aliases without brackets that do not occur in the replacement meet the non-overlap condition |
| Redactor.RedactionIsComplete | internal/agentadapters/acp_prompt_redactor.go:155-183 | For non-empty aliases without brackets: every text is redacted clean if and only if the replacement is clean |
| Redactor.AliasInsideReplacementLeaks | internal/agentadapters/acp_prompt_redactor.go:155-183 | An alias inside the replacement text always survives redaction of itself |
| Redactor.AliasBeforeTheSeamLeaks | internal/agentadapters/acp_prompt_redactor.go:155-183 | An alias whose tail lines up with the replacement can reappear across the seam before it, with nothing else amiss |
| Redactor.AliasAcrossTheSeamLeaks | internal/agentadapters/acp_prompt_redactor.go:155-183 | An alias that lines up with a tail of the replacement can reappear across the seam after it, with nothing else amiss |
| Redactor.HiddenOverlapDoesNotLeak | internal/agentadapters/acp_prompt_redactor.go:155-183 | Aliases that overlap the replacement and still leak in no text: a shorter alias hides the overlapping one |
| Redactor.RedactFragmentText | internal/agentadapters/acp_prompt_redactor.go:197-233 | The two descending loops find the largest leading and trailing fragments and compute the fragment specification |
| Redactor.RedactFragmentIsTidy | internal/agentadapters/acp_prompt_redactor.go:197-233 | Fragment redaction leaves no alias, no leading alias suffix and no trailing alias prefix of eight or more bytes |
| Redactor.FixedPointsAreTidy | internal/agentadapters/acp_prompt_redactor.go:303-310 | The fixed points of fragment redaction are exactly the tidy texts |
| Redactor.RedactFragmentIsIdempotent | internal/agentadapters/acp_prompt_redactor.go:197-233 | Redacting fragments twice is redacting once |
| Redactor.FragmentsJoinClean | internal/agentadapters/acp_prompt_redactor.go:185-233 | Two redacted fragments join without an alias, when no alias can be split into two parts below the fragment length |
| Redactor.OneAliasJoinsClean | internal/agentadapters/acp_prompt_redactor.go:185-233 | For one alias: all redacted fragments join without it if and only if it cannot be split that way |
| Redactor.ProtocolIdentifiersSafe | internal/agentadapters/acp_prompt_redactor.go:303-310 | Identifiers are accepted exactly when each is a fixed point |
| RedactorJson.MaskedValueIsSafe | internal/agentadapters/acp_prompt_redactor.go:404-441 | Every string and key of a masked value is clean, or tidy for fragments |
| RedactorJson.SafeValueIsFixed | internal/agentadapters/acp_prompt_redactor.go:404-441 | Masking leaves a safe value as it is, so masking is idempotent |
| RedactorJson.MaskingFailsOnCollisionsOnly | internal/agentadapters/acp_prompt_redactor.go:424-437 | Masking fails exactly when two keys of one object become equal |
| RedactorJson.MaskingIsPointwise | internal/agentadapters/acp_prompt_redactor.go:404-441 | Masking keeps the shape of a value and redacts each of its strings in place |
| TextWindows.SuffixWindowIsLongest | internal/agentadapters/acp_terminal.go:764-781 | The window kept is the longest rune-aligned suffix that fits, and well-formed |
| TextWindows.SuffixWindowAppend | internal/agentadapters/acp_terminal.go:764-781 | Trimming the trimmed stream plus a chunk is trimming the whole stream |
| TextWindows.TerminalOutputBuffer.Append | internal/agentadapters/acp_terminal.go:764-781 | In place: after any appends the buffer is the window of everything written, truncated exactly when the whole exceeded the limit |
| TextWindows.TerminalOutputBuffer.Snapshot | internal/agentadapters/acp_terminal.go:783-787 | A snapshot is well-formed, within the limit and the window of the stream |
| TextWindows.PrefixWindowIsLongest | internal/agentadapters/acp_turn.go:497-518 | The accumulated thought text is the longest rune-aligned prefix within 32 KiB |
| TextWindows.ThoughtStream.AppendChunk | internal/agentadapters/acp_turn.go:405-495 | In place: block boundaries, ids and the accumulator follow the block specification for every chunk |
| TextWindows.FallbackRowsAreDistinct | internal/agentadapters/acp_turn.go:444-469 | No two fallback episodes of a turn share a row id |
| TextWindows.ChunksJoinBack | internal/acpserver/agent.go:1129-1147 | Chunks join back to the text and each fits the bound |
| TextWindows.ChunksAreMaximalRunes | internal/acpserver/agent.go:1129-1147 | For well-formed text and a bound of at least four, every chunk is well-formed and as long as it can be |
| TextWindows.SplitText | internal/acpserver/agent.go:1129-1147 | The cutting loop computes the chunk specification |
| TextWindows.TruncateText | internal/acpserver/agent.go:1149-1155 | The head is a prefix within the bound, for well-formed text the longest rune-aligned one |
| PromptPacking.BuildPrompt | internal/agentadapters/acp_prompt.go:117-175 | The packing loop computes the specification, error cases included, and stages exactly the files of the prompt that end up as links |
| PromptPacking.PlaceFile | internal/agentadapters/acp_prompt.go:133-166 | One file is staged exactly when its block is a link, or its link could not be encoded |
| PromptPacking.BlocksFollowFiles | internal/agentadapters/acp_prompt.go:132-167 | Blocks follow the files one for one, in order, and inline only what is capable and encoded |
| PromptPacking.PromptIsBudgetSafe | internal/agentadapters/acp_prompt.go:117-175 | The wire bytes up to and including any inline block never exceed 768 KiB |
| PromptPacking.SaturatedPromptsOnlyLink | internal/agentadapters/acp_prompt.go:159-164 | Once the budget is used up only links follow |
| PromptPacking.CheapTestIsExact | internal/agentadapters/acp_prompt.go:177-191 | For one file the cheap test changes nothing, exactly unless it spares a rich block that cannot be encoded |
| PromptPacking.RulesAgreeExactly | internal/agentadapters/acp_prompt.go:133-147 | For any files and budget used: both rules pack the same blocks, or fail alike, if and only if packing reaches no unencodable file that only the cheap test spares |
| PromptPacking.PromptIgnoresTheCheapTest | internal/agentadapters/acp_prompt.go:117-147 | The same for whole prompts, text included: the cheap test changes nothing, if and only if no such file is reached |
| PromptPacking.EncodableFilesNeverPart | internal/agentadapters/acp_prompt.go:133-147 | When every rich block encodes no such file exists |
| PromptPacking.UnencodableFileIsStaged | internal/agentadapters/acp_prompt.go:137-142 | A file on which the two rules differ |
| Terminals.ActivityRow.Settle | internal/agentadapters/acp_terminal.go:330-404 | In place: the first settlement detaches both callbacks and uses each once, later ones do nothing |
| Terminals.TerminalRegistry.BeginCreate | internal/agentadapters/acp_terminal.go:574-588 | In place: a creation is counted exactly while admission is open |
| Terminals.TerminalRegistry.FinishCreate | internal/agentadapters/acp_terminal.go:590-601 | In place: the last running creation, and only it, ends the round a closer waits for |
| Terminals.TerminalRegistry.Register | internal/agentadapters/acp_terminal.go:603-611 | In place: a terminal is registered exactly while admission is open |
| Terminals.TerminalRegistry.Remove | internal/agentadapters/acp_terminal.go:643-662 | In place: exactly one caller takes a registered terminal out |
| Terminals.TerminalRegistry.Close | internal/agentadapters/acp_terminal.go:668-671 | In place: admission ends, and the closer is told which round to wait for if creations run |
| Terminals.TerminalRegistry.Collect | internal/agentadapters/acp_terminal.go:681-687 | In place: everything registered is handed out and nothing is left |
| Terminals.StepKeepsInv | internal/agentadapters/acp_terminal.go:53-748 | Every step of creations, kills, releases, waits, closers and watchers keeps the terminal invariant |
| Terminals.OneSettlement | internal/agentadapters/acp_terminal.go:330-404 | A terminal shows at most one final row, nothing after it, and its lease is given back once, by its watcher, before done |
| Terminals.SettledStaysSilentForever | internal/agentadapters/acp_terminal.go:377-404 | Over any run a settled terminal shows no further row, so no running row follows a final one |
| Terminals.RegistryStaysEmpty | internal/agentadapters/acp_terminal.go:664-690 | Once collected, the registry stays empty over any run |
| Terminals.CloseLeavesNothingUnsettled | internal/agentadapters/acp_terminal.go:664-711 | When a closer that waited for creations is done, every terminal is settled or in the hands of a release or another closer, and nothing is being created |
| CommandCatalog.SessionCatalog.SetAvailableCommands | internal/agentadapters/acp_session_lifecycle.go:685-708 | In place: the snapshot is replaced under the next revision, and handed out exactly if publication is open |
| CommandCatalog.SessionCatalog.Activate | internal/agentadapters/acp_session_lifecycle.go:714-734 | In place: publication opens and an already known catalog is handed out |
| CommandCatalog.StepKeepsInv | internal/agentadapters/acp_session_lifecycle.go:685-753 | Every step of notifications, activation and gated publications keeps the catalog invariant |
| CommandCatalog.PersistedNeverGoesBack | internal/agentadapters/acp_session_lifecycle.go:740-753 | Persisted revisions never decrease, and each carries its own commands |
| CommandCatalog.DrainedMeansLatest | internal/agentadapters/acp_session_lifecycle.go:714-753 | Once activated and drained, the last persisted catalog is the newest |
| CommandCatalog.UninstalledPersistsNothing | internal/agentadapters/session_manager.go:116-131 | A session that was replaced or closed persists nothing any more |
| ExecutableIdentity.FramesReadBack | internal/agentadapters/executable_identity.go:385-390 | Length-prefixed fields can be read back, whatever bytes they hold |
| ExecutableIdentity.StreamIsInjective | internal/agentadapters/executable_identity.go:364-383 | Two identities with the same pre-hash bytes agree in every field, number and launcher-chain entry |
| ExecutableIdentity.Feed.WriteIdentity | internal/agentadapters/executable_identity.go:364-390 | The sequential writer feeds exactly the specified bytes |
| ExecutableIdentity.HashContents | internal/agentadapters/executable_identity.go:148-178 | A file is hashed whole exactly when it fits the limit and no read fails or is cancelled on the way; at most one byte beyond the limit is read |
| Digits.NumeralInjective | internal/agentadapters/executable_identity.go:372-373 | Different numbers have different octal and decimal numerals |
| ExecutableTrust.LockTable.LockFor | internal/agentadapters/executable_trust.go:81-91 | In place: an adapter always gets the same lock, never another adapter's |
| ExecutableTrust.RWLock.TryReadLock | internal/agentadapters/executable_trust.go:284 | In place: a reader enters exactly while nobody writes; the thread steps use the same functions |
| ExecutableTrust.RWLock.TryWriteLock | internal/agentadapters/executable_trust.go:207 | In place: a writer enters exactly while nobody reads or writes |
| ExecutableTrust.RWLock.WriteUnlock | internal/agentadapters/executable_trust.go:208 | In place: the writer leaves, and the readers stay as they are |
| ExecutableTrust.Permit.Close | internal/agentadapters/executable_trust.go:264-273 | In place: however often a permit is closed, the read lock is given back once |
| ExecutableTrust.CloseIsIdempotent | internal/agentadapters/executable_trust.go:264-273 | Among all threads too, closing a permit again changes nothing |
| ExecutableTrust.StepKeepsInv | internal/agentadapters/executable_trust.go:197-310 | Every step of authorizations, approvals and revocations keeps the lock and permit invariant |
| ExecutableTrust.OpenPermitPinsRecord | internal/agentadapters/executable_trust.go:278-310 | While a permit is open, over any run, the record it matched is unchanged and still matches |
| ExecutableTrust.HeldLockCanBeReleased | internal/agentadapters/executable_trust.go:264-310 | Closing an open permit always finds its read lock held and gives back one |
| ExecutableTrust.RecordsAreReviewed | internal/agentadapters/executable_trust.go:197-237 | A record appears only for the measured identity the operator reviewed |
| MobileVersion.AndroidReadsBack | scripts/mobile-version.ts:41-61 | A code decodes by division to the numbers of its version and lies within Google Play's range |
| MobileVersion.AndroidKeepsOrder | scripts/mobile-version.ts:41-61 | For accepted versions, codes keep order and identity if and only if the two do not clash: prereleases of one release whose numbers contradict the order of their different words |
| MobileVersion.AndroidKeepsOrderOfOneWord | scripts/mobile-version.ts:41-61 | With one word for all prereleases, codes are ordered exactly as versions are, final above all prereleases, and are unique |
| MobileVersion.WordsCanShareACode | scripts/mobile-version.ts:14-61 | 1.0.0-alpha.1 and 1.0.0-beta.1 have the same code and the same build |
| MobileVersion.WordsCanInvertCodes | scripts/mobile-version.ts:14-61 | 1.0.0-alpha.2 precedes 1.0.0-beta.1, but its code and build follow |
| MobileVersion.EveryCodeIsAVersion | scripts/mobile-version.ts:41-61 | Every number in the accepted range is the code of a version |
| MobileVersion.AndroidAccepts | scripts/mobile-version.ts:52-59 | The exact set of accepted versions |
| MobileVersion.AppleReadsBack | scripts/mobile-version.ts:14-39 | A build decodes to the numbers of its version and keeps the 4/2/2-digit limits |
| MobileVersion.AppleKeepsOrder | scripts/mobile-version.ts:14-39 | For accepted versions, builds keep order and identity if and only if the two do not clash |
| MobileVersion.AppleKeepsOrderOfOneWord | scripts/mobile-version.ts:14-39 | With one word for all prereleases, builds are ordered exactly as versions are and are unique |
| MobileVersion.StoresAgree | scripts/mobile-version.ts:14-61 | Every version with an Apple build has an Android code, except 0.0.0 with prerelease 0 |

## Left out

- The SQL approval stores, the HTTP gateway client, process launching, Windows handles and access lists: foreign calls, present only as steps that may succeed or fail.
- JSON and protocol encoding: blocks have arbitrary encoded sizes, with the assumption that a rich block is not shorter than its payload where the cheap test is compared.
- SHA-256, random names and clocks: names and ids are fresh, timestamps are integers, and only the bytes before hashing are modelled.
- How aliases are derived from stage paths: the redactor starts from a list of aliases; ordering and removal of duplicates are modelled.
- Case folding beyond ASCII: folded comparison lowers A to Z and takes both path separators as equal; other letters compare as they are.
- The case-sensitive branch of redaction calls a library replacer that is not part of this model; it is taken to be the loop the folding branch spells out.
- The stage fence on Windows, where path comparison normalises drive and case: paths are component lists and containment is a prefix.
- The path fence's second check against the current turn's own staged files, which only denies more.
- AcpTurns.SessionState.Admit: the lookup of the session before the turn mutex is not a step, because a handler that looked it up earlier may be admitted at any later time; the model allows exactly that.
- AcpTurns.StepKeepsInv: the model lets a watcher outlive its prompt handler, where the code joins it; it admits more runs than the code has.
- StageFence.NewNameIsFencedFirst: a quarantine name is taken to differ from the stage's first name, as its prefix makes it.
- Deadlines, retry intervals and back-off delays: a timer may fire at any moment, so nothing is claimed about when.
- CleanupOwner.NoWakeupIsLost: the worker's wake channel is not modelled, because its timer bounds every sleep; only the changed-generation wait is.
- The redactor set that a client keeps for delayed metadata after a fence is released.
- Grants: only lookup and creation are modelled; listing, deletion and expiry sweeps would add easy members.
- StageCleanup.CallIsBounded: waiting between attempts is not modelled.
- Prompt-command lifecycle recognition, tool-call summaries, activity titles, launch-help parsing, configuration merging and telemetry: string plumbing.
- CommandCatalog.StepKeepsInv: revisions are unbounded numbers, where the code has 64 bits that it never uses up.
- ExecutableTrust.OpenPermitPinsRecord: identities are taken as trimmed already, and changes of the store from outside the process are not modelled, as the locks do not see them either.
- Classification of executables and launcher chains: the chain is a list of arbitrary strings.
- Parsing of version strings by the release pattern, which admits only letters in a prerelease's word (the model admits any word, ordered by its bytes), and the Windows version, which is a plain concatenation.
- Terminal previews and the exit code carried by a settlement: a settlement has a status only.
