# Plexmaton agent: verified model

A Dafny model of the parts of Plexmaton whose correctness is a property of whole runs, with proofs
about every input, every run or every reachable state. `dafny verify dfyconfig.toml` checks it.

## What is modelled

**The conversation journal** (`JournalModel`, `JournalInvariant`, `JournalRules`,
`JournalPreservation`, `JournalHistory`, `JournalPaths`, `JournalRecords`, `JournalRetry`,
`JournalRefusals`, `ConversationJournal`, `JournalProjection`).
An append-only record list is folded into an immutable tree of entries with named heads that move by
compare-and-set. `JournalRules` states validation and reduction as functions; the class `Journal`
holds the program's fields and updates them in place; `JournalInvariant` is what
every reachable journal satisfies. The reducer of `scripts/smoke-delegate.py` is an independent
specification of head mutations, and the two are proved to agree on every accepted sequence. What the
indexes of a journal hold is proved to be what its records say (`JournalRecords`); which record is
refused, and why, is proved against a table of what can stand against it, read off indexes, branch
and records (`JournalRefusals`, over `Refusals`); and a retry is offered exactly under a condition on
the branch and the attempts (`JournalRetry`).

**The live writer** (`LiveRecord`, `LiveEvents`) prepares records from the current journal. The class
keeps its journal live: reachable, with every identity taken from an ordinal. Its own records are
therefore never refused except for what they say, and its events are numbered in one unbroken stream.

**Model-step assembly** (`Positions`, `StepAssembly`, `StepArrivals`, `StepTrace`, `StepClosing`,
`StepOutput`, `StepDurable`, `StepInputs`, `ModelStep`). Text, opaque replay items, tool calls and
provider-run tools arrive by position; events are shown as they arrive; closing commits one ordered
output. The main theorems are that what was shown is what is kept, whether the step closes or is
aborted, and that every block committed and every call handed back is what arrived for it.

**The tool batch** (`ToolBatch`), **the preparation owner** (`Preparation`) and **the command
supervisor** (`CommandExecutor`, `CommandResult`) are state machines over an environment that may
answer anything.

**Bounded data** (`Bytes`, `Utf8`, `JsonText`, `TextReading`, `StreamCapture`, `ModelText`,
`ModelReading`, `CommandAdmission`, `CommandPrefix`, `Budget`): the capture of a pipe, middle
truncation of UTF-8 text (section 3 of RFC 3629), JSON string escaping (section 7 of RFC 8259), the
syntax-tree worklist and the request budget.

Where the program mutates fields or loops, the model does: a class or a loop, proved against a
function on values, and the theorems are about that function. Machine integers are written out where
they matter: checked and saturating 64-bit sums, 16-bit block and step indexes. Text whose length
counts is a sequence of octets; in the step modules a `string` stands for octets, one per element.

## Findings

- A head may be moved while a turn is open on it: the move is accepted and clears the head's open
  turn (`journal/heads.rs:75-85`, `146-154`), unlike creating, forking and abandoning, which are
  refused over a partial turn. The turn then stays started, unfinished and open nowhere, for good.
  "Every unfinished turn is open on exactly one head" therefore holds if and only if no record moved
  a head off its open turn (`DetachedIffMovedOff`, with the run of `MoveCanDetach`). The one caller
  that moves a head, the retry branch, never does so (`RetryNeverDetaches`).
- Closing a step reaches code marked unreachable in exactly three families of accepted inputs
  (`ClosePanicsIff`): a provider-run tool that began, holds a replay and never ended, beside any
  surviving block (`UnfinishedRunPanics`); a tool call with more than 64 KiB of arguments, which the
  step accepts under its aggregate limit and the output's constructor refuses
  (`OversizedCallPanics`); and an answer made of empty deltas, or such reasoning without a replay
  (`EmptyTextPanics`). A caller can check all three before closing. The step itself excludes none:
  the codecs upstream keep the second from arising, and `turn/model_input.rs:39` and `:56` drop the
  deltas that make the third. Aborting drops calls, so only the first and third remain for it
  (`AbortPanicsIff`).
- The model's text tells how a command ended and what its first stream counted, but not always where
  the first stream's text stops: decoding may lengthen it, and it may then carry labels like those of
  the second (`StreamsCanBeConfused`). The streams are told apart exactly when what is shown of the
  first has the same length (`TextTellsApart`).
- An exhausted head revision is never reported: the record sequence ends first
  (`RevisionsNeverExhaust`). The octet limit of a command never refuses what its character limit
  accepts (`CharactersBoundOctets`), and the retained-size checks of an admitted command never refuse
  what the command checks accept (`AdmittedIff`).

## Model

| member | source | states |
|---|---|---|
| ConversationJournal.Journal.Apply | crates/plexmaton-agent/src/journal.rs:260-386 | A record is applied or refused with the verdict of the validation function, which RecordDecided settles; a refusal leaves every field as it was, an acceptance leaves exactly the reduced state, whose indexes IndexesTellRecords settles, and the new state continues the old one |
| JournalRefusals.RecordDecided | crates/plexmaton-agent/src/journal/validation.rs:8-150 | Whatever record is offered, the verdict is that of the first thing the journal retains that stands against it, in a table of obstacles over indexes, branch and records for every kind of record and payload; it is accepted exactly when nothing stands against it |
| JournalRefusals.CheckpointDecided | crates/plexmaton-agent/src/journal/compaction.rs:81-153 | A checkpoint is accepted exactly on the head, revision, boundary and nearest earlier checkpoint it was planned on, for an agent named on the branch, from a complete collected attempt of that compaction, boundary and environment; each refusal is that of the first of ten things that differ |
| JournalRefusals.LinkDecided | crates/plexmaton-agent/src/journal/collaboration.rs:75-114 | A link is refused for a malformed reference, then for one already linked on the branch, then for an agent the branch does not name, and for nothing else |
| JournalRecords.IndexesTellRecords | crates/plexmaton-agent/src/journal.rs:260-386 | In every reachable journal, entries with their sequences, starts, terminal facts, attempts with their order and terminals, collected compactions, steps and labels say exactly what some record said, and every record is still told there |
| ConversationJournal.Journal.Path | crates/plexmaton-agent/src/journal.rs:225-238 | A missing head is refused; otherwise the cursor loop and the final reversal return the one root-to-target chain of stored entries that ends at the head's target |
| ConversationJournal.Journal.ApplyNamedHead | crates/plexmaton-agent/src/journal/heads.rs:134-189 | Each of the six head mutations updates heads, selection and retired names in place to the reduced state, carrying the open turn only on a rename |
| JournalPreservation.ReduceKeepsInv | crates/plexmaton-agent/src/journal.rs:260-386 | Every accepted record keeps the whole invariant: parents precede, entries are partitioned into stable and unstable, a head is open exactly while its target is unstable, no turn is open twice, steps are contiguous, attempts are indexed both ways, records are numbered without gaps |
| JournalPreservation.EmptyKeeps | crates/plexmaton-agent/src/journal.rs:147-180 | A conversation without records satisfies the invariant |
| JournalPreservation.AppendAccepted | crates/plexmaton-agent/src/journal/validation.rs:30-120 | Whatever payload is accepted, the append satisfies the guard the preservation proofs rely on: fresh entry, parent equal to the head's target, a turn started only on a closed head under a new identity, a step numbered next |
| JournalPreservation.HeadMutationAccepted | crates/plexmaton-agent/src/journal/heads.rs:68-132 | An accepted head mutation names heads at their current revision, uses only available names and completed targets, forks or selects away from the selected head only, and never abandons it |
| JournalPreservation.HeadMutationIff | crates/plexmaton-agent/src/journal/heads.rs:68-132 | Under the invariant these conditions are exact: a numbered head mutation is accepted if and only if they hold |
| JournalPreservation.FinishAccepted | crates/plexmaton-agent/src/journal/turns.rs:52-82 | An accepted terminal fact finishes the turn that is open on its head, at that head's target, and no turn that has already finished |
| JournalPreservation.AttemptAccepted | crates/plexmaton-agent/src/journal/attempts.rs:7-92 | An accepted authorization has a new identity and an owner without an unfinished attempt; an accepted terminal is the first one of a known attempt |
| JournalHistory.ReplayHolds | crates/plexmaton-agent/src/journal.rs:260-386 | Replaying any accepted record sequence gives a journal that holds exactly those records and satisfies the invariant |
| JournalHistory.ReplayOfOwnRecords | crates/plexmaton-agent/src/journal.rs:201-203 | Replaying a reachable journal's own records from the empty journal rebuilds an equal journal whose next sequence is its record count plus one |
| JournalHistory.ReachableStep | crates/plexmaton-agent/src/journal.rs:260-386 | An accepted record leads from a reachable journal to a reachable journal |
| JournalHistory.ActiveOwnersAreUnfinished | crates/plexmaton-agent/src/journal.rs:355-380 | The active owners are exactly the owners of unfinished attempts, and no owner has two of them |
| JournalHistory.RecordedStepsAreContiguous | crates/plexmaton-agent/src/journal.rs:292-296 | The recorded steps of a turn are exactly one to its last index, and the only step accepted next is the first missing one |
| JournalHistory.StepContinues | crates/plexmaton-agent/src/journal.rs:260-386 | No accepted record changes an entry, its sequence or a finished turn, forgets a stable entry or a retired name, lowers a revision, or changes a target without raising the revision |
| JournalHistory.RunContinues | crates/plexmaton-agent/src/journal.rs:260-386 | The same over any run: every earlier prefix of a run is continued by the whole run |
| JournalHistory.CompareAndSetSound | crates/plexmaton-agent/src/journal/heads.rs:11-25 | Over any run, a head name and a revision never denote two different targets at two different times |
| JournalHistory.RetiredNamesStayRetired | crates/plexmaton-agent/src/journal/heads.rs:27-32 | A name once renamed away or abandoned is never a head again, for every run |
| JournalHistory.RevisionsNeverExhaust | crates/plexmaton-agent/src/journal/heads.rs:56-66 | In a reachable journal no record is ever refused for an exhausted revision: the sequence space ends first |
| JournalPaths.AncestryIsThePath | crates/plexmaton-agent/src/journal.rs:225-238 | The ancestry of a target is a root-to-target chain of stored entries, and no other sequence of entries is one |
| JournalPaths.PathSequencesRise | crates/plexmaton-agent/src/journal.rs:225-238 | Sequences rise strictly along every path, so following parents terminates |
| JournalPaths.AncestryNeverChanges | crates/plexmaton-agent/src/journal.rs:264-318 | The ancestry of an existing entry is the same in every later journal |
| JournalPaths.RunKeepsAncestry | crates/plexmaton-agent/src/journal.rs:264-318 | The same over whole runs |
| JournalPaths.AppendExtendsPath | crates/plexmaton-agent/src/journal.rs:297-318 | An accepted append extends its own head's path by exactly the appended entry |
| JournalPaths.OtherHeadsKeepPath | crates/plexmaton-agent/src/journal/heads.rs:134-189 | A head the record does not name keeps its existence, its path and its revision |
| JournalPaths.RenameCarriesHead | crates/plexmaton-agent/src/journal/heads.rs:155-166 | A rename moves path, open turn and selection to the new name and retires the old one |
| JournalPaths.TurnsOnPath | crates/plexmaton-agent/src/journal.rs:270-353 | The path to a stable entry holds finished turns only; the path to an unstable one holds the start of its turn, and every other turn on it has finished |
| JournalPaths.BranchPointsAreComplete | crates/plexmaton-agent/src/journal/turns.rs:122-138 | A target accepted for a new or moved head has no unfinished turn anywhere in its ancestry |
| JournalPaths.RefusedBranchPointNamesItsTurn | crates/plexmaton-agent/src/journal/turns.rs:122-138 | A target refused as unstable is refused with the turn that was begun on its own path |
| JournalPaths.OpenExactlyWhileUnstable | crates/plexmaton-agent/src/journal.rs:270-290 | A head has open turn t exactly when its target is unstable under t, and then t is started and unfinished |
| JournalPaths.DetachmentStep | crates/plexmaton-agent/src/journal/heads.rs:146-154 | An unfinished turn becomes open on no head exactly when the record moves its head away while the turn is open |
| JournalPaths.DetachedIffMovedOff | crates/plexmaton-agent/src/journal/heads.rs:75-85 | Over any run, an unfinished turn is open on no head if and only if some record of the run moved its head away while the turn was open |
| JournalPaths.MoveCanDetach | crates/plexmaton-agent/src/journal/heads.rs:146-154 | Such a run exists: a turn started on the first head and a move of that head to the root are both accepted and leave the turn open nowhere |
| JournalPaths.DetachedTurnIsStuck | crates/plexmaton-agent/src/journal/turns.rs:52-146 | A turn open on no head stays so for good: no later record finishes it, starts it again, steers it, activates a skill or changes a status in it, adds an output to it or authorizes a request for one of its steps |
| JournalPaths.RetryNeverDetaches | crates/plexmaton-agent/src/record/retry.rs:5-61 | A move of a head that offers a retry candidate never detaches a turn |
| JournalRetry.RetryOfferedIff | crates/plexmaton-agent/src/journal/retry.rs:51-130 | A retry is offered exactly when the head is closed, the last turn begun on its branch is not a collaboration turn and failed, the last attempt authorized for a step of it ended rate limited, and the last question was met with a reported error and no answer; it then names that turn, the head's revision and the question's parent |
| JournalRetry.RetryAccepted | crates/plexmaton-agent/src/journal/retry.rs:26-49 | A prepared retry is accepted exactly when its source turn is what the selected head offers, was begun by the same agent, and the new turn is unknown |
| JournalRetry.RateLimitedTurnIsRetried | crates/plexmaton-agent/src/journal/retry.rs:26-130 | On any live journal with a closed selected head, asking, a rate-limited request, an error and a failed turn end in an accepted retry, whatever the identities |
| JournalRetry.RetriedRun | crates/plexmaton-agent/src/journal/retry.rs:26-130 | A run of six accepted records whose last is the retry |
| JournalProjection.SimpleStepAgrees | scripts/smoke-delegate.py:693-723 | One step of the independent reducer agrees with the journal's own reduction on heads, selection and nodes, for every accepted record |
| JournalProjection.SimpleFoldAgrees | scripts/smoke-delegate.py:693-723 | For every accepted record sequence the independent fold gives the same heads, selection and nodes as the journal |
| JournalProjection.NodePathIsAncestry | scripts/smoke-delegate.py:725-731 | The nodes met by walking parents and reversing are the nodes of the journal's ancestry, in the same order |
| JournalProjection.ProjectJournal | scripts/smoke-delegate.py:693-735 | The loop over records and the cursor walk return the journal's own selected head and selected ancestry |
| LiveRecord.LiveRunsLeaveNextFree | crates/plexmaton-agent/src/record.rs:157-169 | After every accepted run whose identities were taken from record ordinals the journal is live, and the two identities the next mutation takes are unused |
| LiveRecord.OrdinalIdsKept | crates/plexmaton-agent/src/record.rs:157-194 | An accepted record with identities from its own ordinal leaves every identity in the journal derived from the ordinal of its record |
| LiveRecord.LiveKept | crates/plexmaton-agent/src/record.rs:157-195 | Any accepted record with identities of its own ordinal leaves a live writer's journal reachable and the next two identities unused |
| LiveRecord.PreparedAppendAccepted | crates/plexmaton-agent/src/record.rs:157-195 | A prepared append is accepted exactly when its payload passes and a sequence is left: identities, parent and revision are always right |
| LiveRecord.TurnStartAccepted | crates/plexmaton-agent/src/record.rs:157-195 | A prepared turn start is accepted exactly when the turn is new and the selected head is closed |
| LiveRecord.TurnPayloadAccepted | crates/plexmaton-agent/src/journal/turns.rs:84-120 | A prepared steering or status fact is accepted exactly while that turn is open for its agent on the selected head |
| LiveRecord.OutputAccepted | crates/plexmaton-agent/src/journal/validation.rs:93-112 | A prepared step output, whatever it holds, is accepted exactly when a sequence is left and it is the next step of the turn open for its agent on the selected head |
| LiveRecord.PreparedFinishAccepted | crates/plexmaton-agent/src/record.rs:197-233 | A prepared terminal fact is accepted exactly when its turn is open on the selected head, belongs to the agent, and recovery is claimed exactly for a dead process |
| LiveRecord.LiveAppend | crates/plexmaton-agent/src/record.rs:157-195 | On a live writer's journal no prepared append is refused once its payload passes, and it carries the identities of its ordinal, which is why the writer may treat a refusal as unreachable |
| LiveRecord.LiveFinish | crates/plexmaton-agent/src/record.rs:197-233 | The same for the terminal fact of the turn its selected head is open on |
| LiveRecord.AuthorizationAccepted | crates/plexmaton-agent/src/record.rs:304-341 | A prepared authorization is accepted exactly when the attempt is new, its owner has none unfinished, and a step's attempt is for the next step of the open turn |
| LiveRecord.TerminalAccepted | crates/plexmaton-agent/src/record.rs:343-375 | A prepared terminal is accepted exactly for a known attempt without one, when its own timing is consistent |
| LiveRecord.AttemptEndsOnce | crates/plexmaton-agent/src/journal/attempts.rs:72-92 | An accepted attempt occupies its owner, its terminal frees the owner, and a second terminal is refused as a duplicate |
| LiveRecord.LiveWriter.Commit | crates/plexmaton-agent/src/record.rs:157-195 | One prepared append is applied and handed outward: its entry carries the payload under a new identity and ends the selected head's branch, which is otherwise as it was; the writer stays live |
| LiveRecord.LiveWriter.FinishOpenTurn | crates/plexmaton-agent/src/record.rs:197-249 | The record handed outward is retained and finishes the turn with the given agent, outcome, time and boundary, once; the head is closed with its branch unchanged; usage, if any, is shown before the idle agent, numbered in that order |
| LiveRecord.LiveWriter.AuthorizeRequestAttempt | crates/plexmaton-agent/src/record.rs:304-341 | Accepted, the attempt is retained unfinished, newest in order, at the selected boundary, and owns its request; refused, nothing changes and nothing is handed outward |
| LiveRecord.LiveWriter.FinishRequestAttempt | crates/plexmaton-agent/src/record.rs:343-375 | Usage is formed first; accepted, the attempt has this terminal, its first, its owner is free, and usage is shown after the record; refused, nothing changes |
| LiveRecord.LiveWriter.Emit | crates/plexmaton-agent/src/record.rs:442-452 | An event gets the next number, and an unbroken stream stays unbroken |
| LiveRecord.LiveWriter.BranchBeforeRetry | crates/plexmaton-agent/src/record/retry.rs:5-61 | Exactly when the selected head is where the candidate saw it, tail and target are completed work and the archive's name was never used, both records are applied and handed outward; otherwise nothing is |
| LiveRecord.PreflightMakesBranchAtomic | crates/plexmaton-agent/src/record/retry.rs:29-58 | Once both records pass against the same state, the move is accepted after the archive exactly when a second sequence and record identity remain |
| LiveRecord.BranchContract | crates/plexmaton-agent/src/record/retry.rs:29-58 | On a live writer's journal with two sequences left, a move that passed before the archive is accepted after it, so the second application never fails |
| LiveRecord.BranchKeepsTail | crates/plexmaton-agent/src/record/retry.rs:5-61 | After a retry branch a head named before-edit and the ordinal keeps the whole old path, and the selected head stands before the question one revision later |
| StepAssembly.TakeKeepsStep | crates/plexmaton-agent/src/step.rs:147-403 | Every accepted input keeps the three byte counters equal to the sums over what is retained and within their limits, call identities distinct, one replay realm, every replay at an occupied position, and the last visible position the greatest text position |
| StepAssembly.NewStepKeeps | crates/plexmaton-agent/src/step.rs:110-121 | A new step satisfies the same invariant |
| StepArrivals.ArrivalDecided | crates/plexmaton-agent/src/step.rs:147-365 | Every arrival is answered by the first thing that stands against it, in a table over what is retained and the exact sums of it, and taken exactly when nothing does |
| StepArrivals.TextTakenIff | crates/plexmaton-agent/src/step.rs:147-187 | A delta is taken exactly when it fits the text limit and either extends the text of its role at its position or opens, with room, beyond every text already visible |
| StepTrace.TakeKeepsTrace | crates/plexmaton-agent/src/step.rs:71-187 | After every accepted input, empty deltas included, the events so far tell, item by item, exactly what is retained: one start per text, its text as the concatenation of its deltas, revisions in order, and nothing about any other item |
| StepTrace.EveryRunHolds | crates/plexmaton-agent/src/step.rs:109-403 | Both hold after every sequence of inputs to a new step, declined inputs included |
| StepOutput.AllowedWhole | crates/plexmaton-agent/src/model/context.rs:247-315 | The sequential block checks of an output, run with distinct items and calls inside the aggregate limits, pass exactly when every block is allowed on its own |
| StepOutput.StepBlocksAllowed | crates/plexmaton-agent/src/model/context.rs:247-315 | The blocks of a step pass those checks exactly when no call's arguments exceed what one call may carry and no answer is empty |
| StepOutput.ClosePanicsIff | crates/plexmaton-agent/src/step.rs:421-511 | Closing reaches code the source calls unreachable exactly when some block survives and an unfinished provider-run tool holds a replay, a call's arguments are oversized, or a text is hollow (an empty answer, or empty reasoning without a replay); it commits nothing exactly when no block survives |
| StepDurable.UnfinishedRunPanics | crates/plexmaton-agent/src/step.rs:456-494 | A concrete accepted run (tool begins, its replay arrives, text follows) whose close panics, for every replay that fits |
| StepDurable.OversizedCallPanics | crates/plexmaton-agent/src/step.rs:227-258 | A concrete accepted run (one call with more than 64 KiB of arguments) whose close panics |
| StepDurable.EmptyTextPanics | crates/plexmaton-agent/src/step.rs:147-187 | A concrete accepted run (one empty delta of an answer, at any position) whose close panics |
| StepDurable.CommittedInOrder | crates/plexmaton-agent/src/step.rs:425-483 | A committed output has one block per position that is not an unfinished tool, in ascending order of position, and block indexes fit 16 bits |
| StepDurable.CommittedReplay | crates/plexmaton-agent/src/step.rs:487-497 | Every retained replay is attached to the block made from its own position, in rising block order, and nothing else is attached |
| StepDurable.AbortPanicsIff | crates/plexmaton-agent/src/step.rs:409-419 | Aborting panics exactly when something other than a call or an unfinished tool is retained and an unfinished tool holds a replay or a text is hollow |
| StepDurable.AbortKeepsNoCall | crates/plexmaton-agent/src/step.rs:409-419 | What an aborted step commits asks for no tool |
| StepDurable.LiveIsDurable | crates/plexmaton-agent/src/step.rs:421-511 | The live stream equals the committed output: each text is what was streamed for its item, with revisions in order and one finalization after them; each provider-run call is the one shown; texts first appeared in the order of their blocks |
| StepDurable.RevisionsAreExact | crates/plexmaton-agent/src/step.rs:71-106 | As long as the stream itself can be numbered no revision saturates: the deltas of a shown text are numbered one to n and it is finalized as n plus one |
| StepDurable.UnfinishedIsShownFailed | crates/plexmaton-agent/src/step.rs:457-477 | A tool still running at close is shown as failed once, as revision one, and leaves no block |
| StepDurable.EveryRunIsDurable | crates/plexmaton-agent/src/step.rs:109-511 | Live equals durable for every run of a new step, empty deltas included, that closes with an output |
| StepDurable.AbortedAgrees | crates/plexmaton-agent/src/step.rs:409-411 | Dropping the calls of an interrupted step takes nothing from what was shown: the events still tell exactly what is retained |
| StepDurable.EveryAbortIsDurable | crates/plexmaton-agent/src/step.rs:409-419 | Live equals durable for every run that is aborted with an output: the committed text of an interrupted step is what was streamed, finalized once |
| StepInputs.EveryRunRemembers | crates/plexmaton-agent/src/step.rs:147-365 | After any run a step retains exactly what the inputs it took say: at each position the joined deltas of one role, one call field for field, one provider-run tool or call, or a replay alone; and texts are announced in their item's role |
| StepInputs.TakenIsLogged | crates/plexmaton-agent/src/step.rs:147-365 | An input the step took when it arrived is among the inputs taken |
| StepInputs.EveryRunCommitsWhatCame | crates/plexmaton-agent/src/step.rs:421-500 | For every run that is closed or aborted with an output: one block per position in ascending order, each made of what came there and nothing else, and the replay of every block attached to it in its realm and rising order |
| StepInputs.CallIsCommitted | crates/plexmaton-agent/src/step.rs:451-453 | A call that came for a position is, field for field, the call of the block of that position |
| StepInputs.EveryRunReturnsWhatCame | crates/plexmaton-agent/src/step.rs:456-510 | For every run: the retained calls in order are those that came, each field for field; every tool that began and never ended is shown as failed, in order; the committed texts are finalized in block order |
| ModelStep.ExpectedIsAwaited | crates/plexmaton-agent/src/step.rs:499-506 | A live writer's journal would accept an output of the step, whatever it holds, exactly when its selected head is open on the step's turn and expects its index |
| ModelStep.Step.AppendText | crates/plexmaton-agent/src/step.rs:147-187 | For every delta, the empty one included, the method refuses or takes it exactly as specified; a refusal leaves step, stream and numbering unchanged, an acceptance shows the item first if it is new and then the delta |
| ModelStep.Step.RetainReplay | crates/plexmaton-agent/src/step.rs:189-225 | The method answers as specified, comparing realms with the first replay only, and leaves the step unchanged when it refuses |
| ModelStep.Step.Collect | crates/plexmaton-agent/src/step.rs:227-258 | A repeated identity, an oversized identity, an argument total or an occupied position is refused without a change; otherwise the call is retained and counted |
| ModelStep.Step.NoteServerToolStarted | crates/plexmaton-agent/src/step.rs:263-301 | A provider-run tool opens a row on an empty or replay-only position, and is refused elsewhere without a change |
| ModelStep.Step.NoteServerTool | crates/plexmaton-agent/src/step.rs:307-365 | A finished provider-run call takes a free position at revision zero or finishes its own row at revision one, and is refused elsewhere without a change |
| ModelStep.Step.Close | crates/plexmaton-agent/src/step.rs:405-511 | Closing commits the one specified output to the journal between the failed rows and the finalizations, and returns every retained call in ascending order of position; it is unreachable exactly under the proved condition, and with no block left it asks nothing of the journal |
| ModelStep.Step.Abort | crates/plexmaton-agent/src/step.rs:409-419 | Aborting drops the calls and their replays, then closes and returns no call; it is unreachable exactly under the proved condition, and with no block left it asks nothing of the journal |
| ToolBatch.RunHolds | crates/plexmaton-agent/src/tools.rs:152-425 | Over any operation sequence, slot order, requests and entries never change, a running or waiting call's admitted request is its slot's request, and a finished slot never changes again |
| ToolBatch.NextHolds | crates/plexmaton-agent/src/tools.rs:248-424 | Every operation that changes a slot lowers its rank and raises its revision by one |
| ToolBatch.ChangesAreBounded | crates/plexmaton-agent/src/tools.rs:248-424 | The operations of a run that change the batch are at most the rank it loses |
| ToolBatch.AtMostThreePerCall | crates/plexmaton-agent/src/tools.rs:190-424 | A new batch changes at most three times per call, whatever is attempted and however often |
| ToolBatch.SettledIsRankZero | crates/plexmaton-agent/src/tools.rs:393-397 | A batch is settled exactly when its rank is zero, and exactly when it owes no result |
| ToolBatch.SettleLandsOnItsCall | crates/plexmaton-agent/src/tools.rs:372-390 | With distinct identities an outcome is accepted exactly for a running call and touches that call's slot alone |
| ToolBatch.SettlesCommute | crates/plexmaton-agent/src/tools.rs:185-193 | Two outcomes of different calls give the same batch in either order of arrival |
| ToolBatch.DebtsListUnfinished | crates/plexmaton-agent/src/tools.rs:402-424 | What abandoning returns lists the unfinished slots, each once, in model order, with the attention of a pending approval |
| ToolBatch.DeniedForGood | crates/plexmaton-agent/src/tools.rs:325-363 | A call whose approval is denied is finished as denied, whatever is attempted afterwards |
| ToolBatch.RunsWhenLet | crates/plexmaton-agent/src/tools.rs:248-363 | One operation makes a slot run an admitted call exactly when it starts that call or allows the approval the slot waits on |
| ToolBatch.RunningWasLet | crates/plexmaton-agent/src/tools.rs:248-363 | Over any run, a running slot was started or allowed by some operation of the run, with the call it now runs |
| ToolBatch.OutcomeWasRecorded | crates/plexmaton-agent/src/tools.rs:288-424 | Over any run, the outcome of a finished slot was recorded by an operation that ends that very slot with it |
| ToolBatch.ShownOutcomesDiffer | crates/plexmaton-agent/src/tools/presentation.rs:125-160 | What is shown of an outcome no executor produced tells it from every other such outcome |
| ToolBatch.Batch.Start | crates/plexmaton-agent/src/tools.rs:248-266 | Running is accepted exactly for the first slot of that identity, when it awaits admission and its request is the admitted one |
| ToolBatch.Batch.AwaitApproval | crates/plexmaton-agent/src/tools.rs:268-286 | Parking for approval is accepted under the same condition, and no other slot changes |
| ToolBatch.Batch.FinishBeforeRun | crates/plexmaton-agent/src/tools.rs:288-309 | An outcome before running is accepted exactly for a slot that awaits admission, which ends with that outcome, and no other slot changes |
| ToolBatch.Batch.ResolveApproval | crates/plexmaton-agent/src/tools.rs:325-363 | For the first slot waiting on that approval, Allow leaves it running the admitted call with its invocation shown, Deny leaves it finished as denied with the denial shown; the answer says which, and every other slot is unchanged |
| ToolBatch.Batch.Settle | crates/plexmaton-agent/src/tools.rs:374-390 | An outcome is accepted exactly for a running call, whose slot ends with it, and no other slot changes |
| ToolBatch.Batch.IsSettled | crates/plexmaton-agent/src/tools.rs:393-397 | True exactly when every slot is finished |
| ToolBatch.Batch.Abandon | crates/plexmaton-agent/src/tools.rs:402-424 | Every unfinished slot is cancelled, finished ones are untouched, and exactly the debts are returned |
| Preparation.EveryRunHolds | crates/plexmaton-cli/src/preparation.rs:92-309 | Across every interleaving of submit, wait, cancel and shutdown, and whatever the operating system answers, at most one child exists, and tickets complete in strictly rising order, none twice |
| Preparation.AtMostOneChild | crates/plexmaton-cli/src/preparation.rs:65-90 | Every child alive is the one the owner is answerable for |
| Preparation.CancelledHandsNothingBack | crates/plexmaton-cli/src/preparation.rs:254-309 | A cancelled operation hands back no process unless reaping failed |
| Preparation.OperateOwnsItsChild | crates/plexmaton-cli/src/preparation.rs:254-309 | An operation works with one child only and reaps it before ending without it; a cancelled one never spawns |
| Preparation.NothingStartsAfterTheEnd | crates/plexmaton-cli/src/preparation.rs:112-246 | Once quarantined or stopped, nothing is spawned and nothing completes, however long the owner is driven |
| Preparation.LatestReplaces | crates/plexmaton-cli/src/preparation.rs:158-181 | When a replaced operation ends, the batch started is the latest submitted, and no child is alive as it starts |
| Preparation.ShutdownReturnsWhenDone | crates/plexmaton-cli/src/preparation.rs:216-246 | A shutdown returns exactly when nothing is left to await, and success means no child is left |
| Preparation.ClosedLeavesNoChild | crates/plexmaton-cli/src/preparation.rs:237-245 | A shutdown that ends stopped leaves no child; it quarantines only a child that could not be reaped |
| Preparation.WaitIsSaid | crates/plexmaton-cli/src/preparation.rs:158-206 | A wait reports Ready exactly for an uncancelled batch whose child answered its exchange, a cancelled batch exactly for one cancelled without a child or with its child now reaped, and otherwise the failure each answer stands for; and it leaves the owner accordingly |
| Preparation.SupersededIsNeverReady | crates/plexmaton-cli/src/preparation.rs:112-206 | A batch replaced or cancelled before its reply never completes as ready, however long the owner is driven |
| Preparation.SubmitIsSaid | crates/plexmaton-cli/src/preparation.rs:112-138 | A submission is rejected for the first of four reasons and changes nothing, or gets the next ticket and starts, or cancels active work and waits behind it as the only pending batch |
| Preparation.CloseIsSaid | crates/plexmaton-cli/src/preparation.rs:216-246 | One wait of a shutdown ends stopped without a child, quarantines one that could not be reaped, or goes on |
| Preparation.PreparationOwner.SubmitBatch | crates/plexmaton-cli/src/preparation.rs:112-138 | The checks are made in the source's order; a rejected batch changes nothing, an admitted one cancels active work and becomes the pending batch or starts |
| Preparation.PreparationOwner.Wait | crates/plexmaton-cli/src/preparation.rs:158-206 | One wait advances the retained operation or watches the idle child, and reports exactly the completion the answer stands for, none when nothing ended |
| Preparation.PreparationOwner.CancelWork | crates/plexmaton-cli/src/preparation.rs:208-214 | Active work is cancelled and the pending batch discarded |
| Preparation.PreparationOwner.BeginShutdown | crates/plexmaton-cli/src/preparation.rs:216-235 | The owner is stopped at once, keeping only what it must still await |
| Preparation.PreparationOwner.AwaitShutdown | crates/plexmaton-cli/src/preparation.rs:216-246 | One wait of a shutdown; a child that cannot be reaped is quarantined and reported |
| CommandExecutor.Supervisor.Execute | crates/plexmaton-command/src/executor.rs:41-165 | Success certifies that the root was reaped and the last probe saw no group; once drains exist and supervision succeeded, the result is both captures, each its own stream's, or the failure of the first stream that has one; the first supervision failure is the one reported; a spawned root is always awaited; each drain is joined exactly once on every path |
| CommandExecutor.Supervisor.Supervise | crates/plexmaton-command/src/executor.rs:113-135 | A cause matches what ended the wait and what the first act shows, and comes only with the certificate; killing comes only after the full grace |
| CommandExecutor.Supervisor.TerminateAndReap | crates/plexmaton-command/src/executor.rs:198-233 | Success means reaped and last seen gone, whatever the answers; the group is killed only after its grace |
| CommandExecutor.Supervisor.TerminateGroup | crates/plexmaton-command/src/executor.rs:245-263 | Success means the last probe saw the group gone; it is killed only after its grace |
| CommandExecutor.Supervisor.AwaitGroupDisappearance | crates/plexmaton-command/src/executor.rs:284-298 | Success means exactly that the last probe saw the group gone; survival is reported exactly when the last probe still saw it, and only after the whole settling time; otherwise the last probe could not tell |
| CommandExecutor.Supervisor.Probe | crates/plexmaton-command/src/executor.rs:349-361 | Absent exactly for no such group; a refusal for lack of permission counts as present |
| CommandExecutor.Supervisor.BestEffortCleanup | crates/plexmaton-command/src/executor.rs:300-327 | Whatever fails, the group is killed, then the root killed, then the root awaited, and then the group only probed |
| CommandExecutor.Supervisor.JoinDrains | crates/plexmaton-command/src/executor.rs:363-401 | Each drain is joined exactly once, and the result is the bytes each stream's own join answered, or the failure of the first stream that has one |
| CommandExecutor.Supervisor.WaitForTrigger | crates/plexmaton-command/src/executor.rs:167-190 | Cancellation and the deadline leave the process untouched; a completion carries the status of the one wait |
| StreamCapture.OmissionIsExact | crates/plexmaton-command/src/capture.rs:54-59 | The stream is its head, a middle exactly as long as the omission says, and its tail, below the 64-bit limit |
| StreamCapture.KeptWholeIff | crates/plexmaton-command/src/capture.rs:64-71 | Nothing is omitted exactly when the stream fits both bounds, and exactly then head and tail are the stream |
| StreamCapture.ChunkingDoesNotMatter | crates/plexmaton-command/src/capture.rs:97-121 | Two drains whose chunks join to the same bytes leave the same head, tail, count and omission |
| StreamCapture.Capture.Push | crates/plexmaton-command/src/capture.rs:97-103 | Pushing bytes keeps head, tail and count those of the whole stream so far |
| StreamCapture.Capture.PushTail | crates/plexmaton-command/src/capture.rs:105-121 | The tail stays the last bytes of what follows the head |
| StreamCapture.Drain | crates/plexmaton-command/src/capture.rs:156-180 | A drain ends at the first turn that is no chunk; it fails exactly on a failed read, is complete exactly at end of file, and otherwise keeps the head, tail and count of the joined chunks |
| Utf8.ValidCut | crates/plexmaton-command/src/result.rs:214-220 | A valid text cut at a character boundary is two valid texts |
| Utf8.BoundaryNear | crates/plexmaton-command/src/result.rs:213-220 | From any place in a valid text a boundary is at most three octets away in either direction |
| Utf8.CutHolds | crates/plexmaton-command/src/result.rs:212-224 | The two pieces kept never overlap, are valid, hold at most what may be retained and miss it by at most three octets; the head is half of it and the tail the rest, each within three octets |
| Utf8.ValidIsEncoded | crates/plexmaton-command/src/result.rs:202-224 | Valid text is the encodings of some Unicode scalar values, as many as it counts characters |
| Utf8.EncodedIsValid | crates/plexmaton-command/src/result.rs:202-224 | The encodings of any scalar values are valid text of that many characters |
| Utf8.Cut | crates/plexmaton-command/src/result.rs:213-220 | The two loops find the nearest boundaries inward of the head and outward of the tail |
| ModelText.TruncatedHolds | crates/plexmaton-command/src/result.rs:202-230 | For every limit truncation stays within it and keeps valid UTF-8; it is the identity exactly when the text fits; otherwise one stretch of whole characters is replaced by the marker and counted exactly |
| ModelText.TruncateMiddle | crates/plexmaton-command/src/result.rs:202-230 | The method computes the specified truncation, limits no longer than the marker included |
| ModelText.StreamTextHolds | crates/plexmaton-command/src/result.rs:175-200 | A stream's section is valid UTF-8 and at most its text bound plus 67 octets, for any lossy text |
| ModelText.SectionTells | crates/plexmaton-command/src/result.rs:175-200 | A section is its labels and then the text, whole or with its middle replaced, and the omission adds exactly what that cut out to what the capture left out; nothing is missing of an empty stream |
| ModelText.AppendModelStream | crates/plexmaton-command/src/result.rs:175-200 | The labelled section is appended to what was rendered, and the omission adds capture and formatting |
| ModelText.RenderedFits | crates/plexmaton-command/src/result.rs:74-98 | The rendered result always fits 64 KiB, so the outer truncation is the identity and removes nothing |
| ModelText.ModelTextWithOmissions | crates/plexmaton-command/src/result.rs:74-98 | The model's text is the untruncated rendering within 64 KiB, with exactly the two streams' omissions |
| ModelReading.TextReadsBack | crates/plexmaton-command/src/result.rs:74-98 | The model's text reads back: how the command ended, then each stream's byte count and completeness, standard output first |
| ModelReading.TextTellsApart | crates/plexmaton-command/src/result.rs:74-98 | Two results with the same text ended alike, and the counts and completeness of their first streams agree; the two streams of each are told apart exactly when what is shown of the first has one length in both |
| ModelReading.StreamsCanBeConfused | crates/plexmaton-command/src/result.rs:74-98 | The condition is needed: a first stream whose decoded text is longer than its bytes can carry the second stream's labels |
| ModelText.BoundedToolTextHolds | crates/plexmaton-agent/src/tools/presentation.rs:18-50 | Transcript text stays within 64 KiB and valid with its marker; what is cut out is one stretch, counted exactly and added to earlier omissions |
| ModelText.BoundToolText | crates/plexmaton-agent/src/tools/presentation.rs:18-50 | The method with its two boundary loops computes the specified transcript text for every source and earlier omission |
| ModelText.TranscriptDetailIsModelText | crates/plexmaton-command/src/result.rs:67-72 | A command's transcript detail is its model text unchanged |
| JsonText.EscapeHolds | crates/plexmaton-command/src/admission.rs:403-408 | Escaping keeps text valid, and takes at most six octets per character however wide the character is |
| JsonText.EscapedHasNoControl | crates/plexmaton-command/src/admission.rs:403-408 | What is written has no control character left in it |
| JsonText.ScanEscaped | crates/plexmaton-command/src/admission.rs:357-358 | Any string reads back from its escaped form, whatever follows the closing quotation mark |
| CommandAdmission.CharactersBoundOctets | crates/plexmaton-command/src/admission.rs:393-398 | The octet limit of a command never refuses what its character limit accepts |
| CommandAdmission.CanonicalFits | crates/plexmaton-command/src/admission.rs:283-290 | The canonical arguments of any valid command and root fit the admitted-argument bound, whatever must be escaped |
| CommandAdmission.CanonicalReadsBack | crates/plexmaton-command/src/admission.rs:346-366 | Canonical arguments read back as exactly the command, timeout and root they were made from |
| CommandAdmission.BoundedHeadTailHolds | crates/plexmaton-command/src/admission.rs:429-452 | Head, count and tail are valid UTF-8 within any limit, however small |
| CommandAdmission.BoundHeadTail | crates/plexmaton-command/src/admission.rs:429-452 | The method computes the specified elision |
| CommandAdmission.ApprovalDetailFits | crates/plexmaton-command/src/admission.rs:400-419 | The approval detail of any admissible command is valid UTF-8 of at most 1024 octets |
| CommandAdmission.AdmittedIff | crates/plexmaton-command/src/admission.rs:256-321 | The retained-size checks never refuse what the command checks accept: a request is admitted exactly when uncancelled, known, within the request bound, parsed, valid and within the timeout ceiling |
| CommandAdmission.ApprovalDetailTells | crates/plexmaton-command/src/admission.rs:400-419 | The detail shows the whole quoted command whenever all of it fits 1024 octets, and otherwise its head and tail around the exact count; it always shows the timeout, and the root within its own limit |
| CommandAdmission.AdmissionTells | crates/plexmaton-command/src/admission.rs:256-321 | An admitted request keeps the command, the timeout, two minutes when none is given, and the root it came with, and its canonical arguments and detail show them; a refusal names the first check that failed |
| CommandPrefix.ValidateTree | crates/plexmaton-command/src/prefix.rs:58-114 | The worklist accepts exactly the trees whose every node is allowed within the depth, command and node limits, returns exactly their command nodes by position, refuses only for a reason true of the tree, and never visits more than 2048 nodes |
| CommandPrefix.PushChildren | crates/plexmaton-command/src/prefix.rs:96-110 | The gap checks pass exactly when every structural gap is blank, and then exactly the children are pushed in order one level deeper |
| CommandPrefix.WalkMoves | crates/plexmaton-command/src/prefix.rs:65-111 | One visit keeps the accounting: visited and stacked nodes make up the tree, and what is left decides acceptance |
| CommandPrefix.ByStartHolds | crates/plexmaton-command/src/prefix.rs:112-112 | Sorting by first byte keeps every command and orders them |
| Budget.NewLimitsIff | crates/plexmaton-agent/src/budget.rs:87-97 | The limits asked for can be built exactly when both ceilings leave room for input |
| Budget.FoldedIsTotal | crates/plexmaton-agent/src/budget.rs:169-176 | The checked fold succeeds exactly when both exact sums fit 64 bits, and then equals them |
| Budget.LedgerIff | crates/plexmaton-agent/src/budget.rs:157-207 | A ledger is built exactly when its anchor covers existing atoms and the two exact sums fit; its occupancy and remainder are those sums and it keeps the capacity left over; the decision never overflows, anchored or not, and is made if and only if its condition holds |
| Budget.DecideHolds | crates/plexmaton-agent/src/budget.rs:210-241 | The conditions are exact and exclude each other: an impossible item means occupancy above capacity and names an oversized unanchored environment, or else the first unmeasured atom no request can hold; compaction means every unmeasured atom fits beside the environment |
| Budget.AloneBelowOccupancy | crates/plexmaton-agent/src/budget.rs:183-189 | Environment and any one unmeasured atom never exceed the occupancy, measured prefix included |
| Budget.MoreAtomsNeverFit | crates/plexmaton-agent/src/budget.rs:210-241 | Adding atoms never turns a misfit into a fit, and never changes which item is impossible |

## Left out

- Serialization of records, file append, recovery of torn tails and hashing are library code or I/O.
- Transcript and delegated projections, tree navigation, labels beyond storing them, and rebuilding the projection after a retry branch: derived views that never change the journal.
- Identities are arbitrary strings rather than validated newtypes. Stream and tool item identities are structured values, so two of them are equal exactly when their parts are; the textual formats are not modelled.
- Error values carry less than the program's: which check refuses is modelled, most of its payload is not.
- `JournalModel.Checkpoint.cutResolves` stands for the projection of a branch resolving a planned compaction cut, `Reference.wellFormed` for the collaboration ledger's own check, `Terminal.consistent` for a terminal's timing and usage check, and `Collected.bounded` and `replayMatches` for the collected result's own checks.
- A retry candidate's question text and skill selection; only what decides whether and where to branch is kept.
- Compaction authorization, publication and checkpoints are validated and reduced by the journal, but the live writer's three methods for them are not modelled: they add one more event each.
- The event that sums usage over a turn is a number handed in, with a flag for a total that cannot be formed.
- The normalization of identities after the reducer of `scripts/smoke-delegate.py`: it only renames.
- LiveRecord.LiveWriter.Emit: asks for a number below the 64-bit limit, because the source treats an exhausted event stream as unreachable.
- LiveRecord.LiveWriter.Commit: asks for a payload that passes, because the source treats a refused commit as unreachable; `LiveAppend` shows nothing else can be refused.
- LiveRecord.LiveWriter.BranchBeforeRetry: asks for two free sequences, because the source panics when the second record is refused; `PreflightMakesBranchAtomic` states exactly when that is.
- ModelStep.Step.Close: asks that the journal expects this step's output whenever a block survives, which by `ExpectedIsAwaited` is exactly when a commit is accepted, and that the stream has numbers left for its events; the source treats both failures as unreachable. The same goes for `ModelStep.Step.Abort`.
- ModelStep.Step.RetainReplay: asks for a payload that is not empty, because the program cannot build an empty one (`model/replay.rs:164-178`).
- Output positions are pairs of naturals; the program's 16-bit parts would only bound them.
- Permission offers and the progress of a pending approval, which change no slot's state; batch snapshots.
- Frames on the preparation child's pipes, and dropping a shutdown before it returns; deadlines are answers of the environment.
- CommandExecutor.Supervisor.WaitForRoot: does not model a wait that never returns, because nothing after it could be observed.
- Confinement, environment variables, pipe contents and task scheduling of a command; polling time only moves forward by at least the poll interval.
- Lossy decoding of captured bytes: any valid UTF-8 text may result, so bounds hold for every one.
- CommandPrefix.ValidateTree: takes nested spans from the parser as given, because slicing the source relies on them; the parser, word decoding and the lowering of single commands are not modelled.
- Command permissions, policies and fingerprints, and parsing of the model's raw JSON, whose outcome is a parameter.
- The identities of a budget ledger's environment and estimator, and the accuracy of estimates.
