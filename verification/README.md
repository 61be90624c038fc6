# ai-bobnet: a verified model of its journals and protocols

ai-bobnet runs AI agents off append-only journals. Authority comes from folding an event list,
deciding under a lock, appending one record, and surviving a crash at any point. This project models
the parts where that goes furthest and proves what they keep over every run:

- **The task ledger.** `TaskLedger`, `LedgerReader` (the reader that rebuilds runs and tasks from any
  event list, as a class whose tables it updates), `TaskDecisions` and `TaskCli` (the writer's own,
  separately written rules and the locked step around them), `TaskAuthority` and `TaskReading` (who may
  have what accepted, and what the reader takes, as conditions on requests, entries and tables),
  `LedgerInvariants`, `LedgerAgreement`, `LedgerBudgets`, `CausationHistory`.
- **The framed event stream.** `Checksum` (the reflected CRC of the reader against the plain POSIX
  loop), `EventFrames` (frames, torn tails, recovery), `EventVerdicts` (healthy, degraded, corrupt and torn
  told from the lines), `AttemptsFold` (the two views of one record list), `AttemptsTold` (which record
  each field of an attempt comes from).
- **The supervisor.** `SupervisorState` (handlers and replay of the journal), `SupervisorTurns` (when a turn
  is started, how it is judged, what a control does), `Alarms`, `IntentScan`, `IntentApply` (one attempt's
  intent file over four stores with a crash between any two writes), `IntentNotes` (when its notes of the
  rows are true), `IntentSends` and `IntentPaths` (what is sent when, and where each place leads), and `IntentLedger`,
  `IntentMail` and `IntentRuns` (the same on the task stream and the message journals themselves, with
  everybody else's requests and messages in between).
- **Delivery and memory.** `LineGrammar`, `MessageJournal`, `MessageVerbs`, `MemoryLines`, `Memory`,
  `MemoryVerbs` (what each command does, and what a state says of the commands before it).
- **Admission and login.** `Broker`, `Login`.

`Text` and `Results` hold the shared predicates and wrapper types. Code that changes state step by step is
modelled by classes and loops, each proved equal to a specification function; the lemmas about that
function are the results. `dafny verify dfyconfig.toml` checks everything.

Clocks, random ids, the registry, provider outcomes, worktree checks and exit codes of called commands are
parameters: every theorem holds for all of them.

## Where the code and its promises part

For each of these there is a concrete failing input and an exact condition for all inputs.

- A NUL byte inside a terminated line is dropped before the offset is counted (`lib/attempts_fold.py:62`,
  `lib/aibobnet.sh:2921`), so `truncate_at` falls short of the last record boundary by the number of such
  bytes, and recovery can then drop a committed record. Input: `EventFrames.TruncationCanLoseARecord`;
  condition: `EventFrames.TruncationIsBoundaryIff`, `EventFrames.CommitAddsOneRecordIff`.
- A `reject` request that was itself refused answers its retry with `causation_conflict`, not with the
  first reason. Input: `CausationHistory.RefusedRejectConflicts`; condition:
  `CausationHistory.RetryRepeatsTheAnswer`.
- `restore` never clears `tripped_at` on a successful turn, while the live supervisor does: a brake that a
  successful routine cleared is tripped again after a restart. Input:
  `SupervisorState.ForgivenBrakeTripsAgain`; condition: `SupervisorState.ReplayIsTheLiveState`.
- A row whose report the ledger accepted can be noted as rejected or blocked when a crash, or the loss of the
  command's answer, falls between the acceptance and the note. It happens exactly when the last look at the
  row goes wrong in one of three ways: `validate_result_ref` now refuses the reference; the retried request exits 64 or 76, as it
  does with 64 when the team has lost its one lead, because the scope is tested before the causation is
  looked up (`lib/task_cli.py:435-438`); or the command of a continuation breaks or is killed when its turns
  are used up. Inputs: `IntentNotes.UnstableReferencesMislead`, `IntentNotes.RefusedRetriesMislead`,
  `IntentNotes.BrokenContinuationsMislead`; condition: `IntentNotes.NotesTellTheTruthIff`,
  `IntentNotes.ClosedNotesTellTheTruthIff`.
- A new token is in the store only when the provider's command has returned, and a longest turn leaves at
  most one second for that. With the shipped settings the longest turn is always granted exactly while a
  refresh takes two seconds at most; with a refresh of two minutes turns of up to 782 seconds are, not of
  900. Input: `Login.SlowRefreshRefusesATurn`; condition: `Login.GuaranteeHoldsIff`,
  `Login.LongestTurnIsGrantedIff`.

## Model

| member | source | states |
|---|---|---|
| LedgerReader.Reader.CancelOpenTasks | lib/task_ledger.py:283-293 | Closing a run cancels exactly its unfinished tasks, each stamped with the closing record's number and reason |
| LedgerReader.Reader.ApplyRunEvent | lib/task_ledger.py:261-296 | A run event either moves the tables as the transition rules say or gives the rule it broke and changes nothing |
| LedgerReader.Reader.ApplyCreation | lib/task_ledger.py:297-314 | A creation enters one task with its stamps and wakes a queued run, or gives the first fault and changes nothing |
| LedgerReader.Reader.ApplyTaskEvent | lib/task_ledger.py:315-384 | An event on a task moves it as its life cycle allows, or gives the first fault and changes nothing |
| LedgerReader.Reader.ApplyRejection | lib/task_ledger.py:248-256 | A rejection from root goes on the rejection list, any other on the invalid list |
| LedgerReader.Reader.Read | lib/task_ledger.py:218-386 | Reading one entry in place is the step of the specification: envelope checks in order, then the event |
| LedgerReader.Reader.DeriveRunStates | lib/task_ledger.py:388-401 | The derived run states: closed stays, all active tasks blocked is BLOCKED, any task RUNNING, none QUEUED |
| LedgerReader.FoldStream | lib/task_ledger.py:207-401 | Reading a whole stream in place gives the fold of the specification |
| LedgerInvariants.StepOnTask | lib/task_ledger.py:297-384 | One entry of any kind leaves a task alone or moves it by its own event in an open run; a new task comes only from a creation in an open run |
| LedgerInvariants.StepKeepsSound | lib/task_ledger.py:218-386 | No entry, however malformed, breaks soundness of the tables |
| LedgerInvariants.EveryStreamIsSound | lib/task_ledger.py:207-386 | After any event list: each task's run exists with its team, closed runs have only terminal tasks, attempts equal assignments, turns stay within turns_total |
| LedgerInvariants.OneVerdictPerRecord | lib/task_ledger.py:212-386 | An entry reported invalid or as a rejection changes no run and no task, and is reported once under its own number |
| LedgerInvariants.RestingTasksNeverChange | lib/task_ledger.py:347-371 | DONE and CANCELLED are final; FAILED is left only by a reopening |
| LedgerInvariants.ClosedRunsNeverChange | lib/task_ledger.py:273-325 | Once a run is closed neither it nor any of its tasks changes again, and it gains no task, whatever follows |
| LedgerInvariants.StateSeqGrows | lib/task_ledger.py:326-384 | With increasing numbers, the state stamp of a task rises with every change of state or assignee |
| LedgerInvariants.EqualStateSeqMeansUntouched | lib/task_ledger.py:326-384 | Equal stamps at two moments mean the same state and assignee at both and at every moment between |
| TaskCli.BuildRequest | lib/task_cli.py:212-310 | Every request the command line lets through meets the shape the decision and the reader rely on |
| TaskCli.TaskStream.FindCausation | lib/task_cli.py:358-386 | The scan finds the first record of the causation and answers from it |
| TaskCli.TaskStream.Commit | lib/task_cli.py:331-355 | One record is appended, numbered one above the last, named and correlated as the stream writer composes it |
| TaskCli.TaskStream.Handle | lib/task_cli.py:432-461 | The locked step in place is the step of the specification: scope, replay, decision, one record |
| LedgerAgreement.DerivedRunsDecideAlike | lib/task_ledger.py:388-401 | The derived-state pass never alters a later decision |
| LedgerAgreement.AcceptedDecisionIsTransition | lib/task_ledger.py:573-711 | Whatever the writer's rules accept, the reader's rules carry out on the same tables |
| LedgerAgreement.RefusalIsReadable | lib/task_ledger.py:564-570 | Every refusal is recorded in the form the reader lists as a rejection, with its reason |
| LedgerAgreement.StepOnWellFormed | lib/task_ledger.py:224-259 | A well-formed record is taken exactly on its own project's stream, and is an envelope error elsewhere |
| LedgerAgreement.DecidedRecordIsValid | lib/task_ledger.py:573-711 | The record of a decided request is a valid event if and only if the stream is not another project's; an acceptance performs the decided transition, a refusal leaves runs and tasks alone and adds one rejection with its reason |
| LedgerAgreement.StrayStreamTakesNoRecord | lib/task_ledger.py:230-234 | Behind one record of another project every decided record is an invalid event that changes no run and no task |
| LedgerAgreement.AcceptedEventMovesOneTask | lib/task_ledger.py:328-384 | An accepted event moves its one task one step of the life cycle with the promised counters; no other task and no run changes |
| LedgerAgreement.AcceptedClosingSettlesTasks | lib/task_ledger.py:273-296 | An accepted closing sets the run's outcome, cancels its open tasks, keeps finished ones and all other runs' tasks |
| LedgerAgreement.AcceptedCreationAddsTheTask | lib/task_ledger.py:297-314 | An accepted creation adds exactly that task, assigned, with the payload's fields and fresh counters |
| LedgerAgreement.AcceptedChangeSawTheStamp | lib/task_ledger.py:665-667 | An accepted reassignment, reopening or cancellation with an expected number saw that very stamp |
| LedgerAgreement.AcceptedChangeActsOnWhatWasRead | lib/task_ledger.py:665-667 | Compare-and-set without ABA: a change accepted against a stamp read earlier acts on the state and assignee that were read |
| LedgerBudgets.TaskEventIsWithinLimits | lib/task_ledger.py:681-703 | What the decision has checked when it lets a turn or a new assignment through |
| LedgerBudgets.SubmitKeepsBudgets | lib/task_ledger.py:573-711 | One locked step, accepted, refused or failed, keeps every budget of every task, run and team |
| LedgerBudgets.EveryRunIsWithinBudgets | lib/task_ledger.py:644-703 | Over every stream written through the decision: assignments and turns per task, assignments per run and open tasks per team stay within the limits |
| LedgerBudgets.BudgetsAreConserved | lib/task_ledger.py:644-703 | Hence turns_total of a task is at most max_turns times its assignments, and the turns of a run at most max_turns times max_tasks_per_run |
| CausationHistory.SubmitAddsAtMostOne | lib/task_cli.py:432-448 | A locked step leaves the stream or adds one record, under a causation no record had |
| CausationHistory.OneRecordPerCausation | lib/task_cli.py:432-448 | Over any sequence of requests and retries each causation labels at most one record |
| CausationHistory.DecisionNamesRequest | lib/task_ledger.py:564-604 | A decision records the requested kind or a refusal that names it; a reject request is recorded as asked only past its guards |
| CausationHistory.RetryRepeatsTheAnswer | lib/task_cli.py:358-386 | Retrying a recorded request at any later time appends nothing; it repeats the first answer if and only if it was not a reject request that had itself been refused |
| CausationHistory.RefusedRejectConflicts | lib/task_cli.py:370-384 | A concrete reject request, refused as unauthorized, answers its retry with causation_conflict |
| CausationHistory.KnownCausationIsAnswered | lib/task_cli.py:358-386 | Whatever a request says, a known causation is answered from the first record that carries it: accepted if that is the event asked for about the same task, rejected with its reason if it is a rejection of just this, and a conflict otherwise |
| CausationHistory.OwnStreamHasNoInvalidEvent | lib/task_cli.py:432-448 | A stream that only the command has written, for one project and under any registries, holds no invalid event |
| CausationHistory.OwnStreamIsNumbered | lib/task_cli.py:331-355 | A stream that only the command has written is numbered from one without a gap, each record named by its number |
| TaskAuthority.AcceptedIff | lib/task_ledger.py:573-711 | A request of each kind is accepted if and only if it was relayed the right way and its guards hold: closing, creating, reassigning and reopening by a human or the one lead; starting by the assignee's supervisor; reports by the assignee, or its supervisor with an engine reason; overdue by the lead's supervisor; and the state, duplicate, gate, depth, assignee and limit conditions |
| TaskAuthority.RefusedForTheFirst | lib/task_ledger.py:573-711 | A request that is not accepted is refused with the reason of the first guard of its kind that fails |
| TaskAuthority.DecisionsAreRecorded | lib/task_ledger.py:564-711 | An accepted request is recorded with its own kind and payload, a creation with its deadline and the team's budget; a refused one as a rejection that names its kind and the reason |
| TaskAuthority.RejectionIff | lib/task_ledger.py:592-604 | A rejection asked for is recorded with its own reason if and only if a supervisor of a team member asks it, of a known kind and a well-formed reason |
| TaskAuthority.TallyCountsWaiting | lib/task_ledger.py:644-645 | What is compared with max_open is the number of the team's waiting tasks |
| TaskAuthority.LeadIsTheOne | lib/task_ledger.py:456-463 | The lead a decision goes by is the one agent of the team that is marked as lead |
| TaskAuthority.DefaultLimits | lib/task_ledger.py:415-434 | The seven limits of a team that sets none are 8, 4, 20, 3, 1, 14400 and 8 |
| TaskAuthority.SetLimit | lib/task_ledger.py:425-431 | A limit set to a number is taken if and only if it is at least 1, and for the depth exactly 1; it replaces its default and the others keep theirs |
| TaskAuthority.NewRequestIsAnsweredIff | lib/task_cli.py:432-461 | A new request in the locked step, in scope, is accepted exactly when its guards hold on the folded stream, and otherwise rejected for the first that fails |
| TaskAuthority.ScopeDecidesFirst | lib/task_cli.py:435-438 | A request fails and leaves the stream alone if and only if the registry does not know the project and the team as its own with one lead |
| TaskReading.ReaderTakesIff | lib/task_ledger.py:260-386 | The reader carries an event out if and only if its own conditions on actor, tables and payload hold, and the tables afterwards are those promised |
| TaskReading.EntryIsTakenIff | lib/task_ledger.py:218-386 | An entry of any shape is taken if and only if it is shaped and enveloped and is a rejection from root, listed as it says, or an event relayed the right way that its kind allows; any other is reported under its number with its fault and changes no table |
| TaskReading.RunEventIsCarriedOut | lib/task_ledger.py:261-272 | A run requested is entered as queued with its team and number, a run started is running, and nothing else changes |
| TaskReading.RunsShowTheirTasks | lib/task_ledger.py:388-401 | A run shows its outcome if closed, BLOCKED exactly if some task is unfinished and every unfinished one is blocked, QUEUED exactly if it has no task, and otherwise RUNNING |
| TaskAuthority.RequestCarriesTheArguments | lib/task_cli.py:212-310 | The command line becomes a request exactly when its arguments are well given, and the request carries each of them: assignee, report, result reference, reason, requested kind, owner, title, deadline, gate |
| Checksum.ShiftsMirror | tests/fixtures/projection_bulk_stream.py:24-28 | One bit step of the reflected register is one step of the plain register read backwards |
| Checksum.EntriesMirror | tests/fixtures/projection_bulk_stream.py:22-29 | Each entry of the reflected table is the mirrored entry of the plain table |
| Checksum.FeedsMirror | tests/fixtures/projection_bulk_stream.py:39-40 | Feeding a mirrored byte to the reflected register mirrors feeding the byte to the plain one |
| Checksum.StringsMirror | tests/fixtures/projection_bulk_stream.py:38-46 | The same for whole byte strings, from any register |
| Checksum.MinimalWidthBytes | lib/attempts_fold.py:23-24 | The minimal little-endian length suffix is the byte loop over the length, nothing for zero |
| Checksum.BuildTable | tests/fixtures/projection_bulk_stream.py:22-29 | The nested loops build the table of the specification |
| Checksum.FeedData | tests/fixtures/projection_bulk_stream.py:38-40 | The byte loop feeds the whole string |
| Checksum.FeedLength | tests/fixtures/projection_bulk_stream.py:41-46 | The length loop feeds the length's bytes, lowest first |
| Checksum.ComputeCksum | tests/fixtures/projection_bulk_stream.py:35-48 | The imperative loops compute the POSIX checksum |
| Checksum.FastCksumIsCksum | lib/attempts_fold.py:21-26 | For every byte string, the empty one too, the bit-reversed reflected CRC is the POSIX checksum of the plain loops |
| EventFrames.ScanLines | lib/attempts_fold.py:56-98 | The loop over lines, with its early exits, is the scan of the specification |
| EventFrames.TheToolsAgree | lib/attempts_fold.py:21-26 | The checksum the writer takes and the one the reader takes agree on every body |
| EventFrames.DecimalRoundTrip | tests/fixtures/task_events.py:17-19 | A number printed in a frame reads back |
| EventFrames.FrameRoundTrip | lib/attempts_fold.py:68-71 | A printed frame line parses to the number, checksum, length and body it was printed from, whatever the body holds |
| EventFrames.NextFrameIsAccepted | lib/attempts_fold.py:68-90 | From any scan that is not corrupt, the next numbered frame adds exactly its record |
| EventFrames.CutFrameIsTorn | lib/attempts_fold.py:60-67 | A frame cut at any byte before its end leaves the records alone and marks where the tail starts |
| EventFrames.ScanInTwo | lib/attempts_fold.py:56-90 | Scanning may stop at any record boundary and go on from there |
| EventFrames.TruncationIsBoundaryIff | lib/attempts_fold.py:62-67 | The reported truncation point is short of the last boundary by the dropped NUL bytes, so it is that boundary if and only if there are none |
| EventFrames.HealthyMeansGapless | lib/attempts_fold.py:68-97 | A healthy scan of any bytes holds records 1 to n, one for each terminated line, each with the length, checksum and event id its frame states |
| EventFrames.RecordsAreFrames | lib/attempts_fold.py:68-90 | A scan that is not corrupt, gaps or not, returns one record for each terminated line, and that line is its frame with matching length, checksum and event id |
| EventVerdicts.VerdictIff | lib/attempts_fold.py:56-98 | On any bytes: corrupt if and only if some terminated line is no intact frame or does not rise above the number before it, with the fault that is first in that line; healthy if and only if the lines are intact and count from one, degraded if they are intact and rise with a gap; torn if and only if bytes other than NUL follow the last line |
| EventFrames.EveryPrefixScans | lib/attempts_fold.py:44-98 | Every byte prefix of a well-formed stream scans healthy to exactly its terminated records, is torn if and only if bytes remain, and truncating gives back whole frames |
| EventFrames.NoCommittedRecordIsLost | lib/aibobnet.sh:3260-3328 | Over any run of recovering writes, each cut at any byte, the stream holds exactly the bodies whose frames were completely written, in order |
| EventFrames.CommitAddsOneRecordIff | lib/aibobnet.sh:3260-3328 | On any readable input, recover-then-append keeps all old records and adds the new one if and only if the input is not torn or no terminated line holds a NUL |
| EventFrames.TruncationCanLoseARecord | lib/aibobnet.sh:2921-2979 | A concrete torn stream whose recovery cannot keep its committed record |
| AttemptsFold.AttemptTable.Take | lib/attempts_fold.py:189-242 | One record, taken in place, changes the attempts as the specification says or gives the first fault and changes nothing |
| AttemptsFold.FoldRecords | lib/attempts_fold.py:186-249 | The loop over records computes the fold of the specification and its first fault |
| AttemptsFold.StrictViewIsLegacyViewErased | lib/attempts_fold.py:186-249 | Whenever the legacy fold succeeds the strict fold succeeds, and is the legacy table without the attempts whose decision was unreadable and with unreadable endings undone |
| AttemptsFold.ViewsAgreeOnClosed | lib/attempts_fold.py:186-249 | Same id, decision and pid in both views; closed in the strict view means closed in the legacy view with the same class |
| AttemptsFold.StrictCanSucceedAlone | lib/attempts_fold.py:192-199 | An unreadable decision without an id fails the legacy view only |
| AttemptsFold.LegacySucceedsIffAllPass | lib/attempts_fold.py:186-242 | The legacy fold succeeds if and only if every record passes guards told by the records before it: a decision well formed and the first of its id, an ending well formed, of an allowed id, and its first |
| AttemptsFold.LegacySucceedsTooIff | lib/attempts_fold.py:192-242 | Where the strict fold succeeds the legacy one does too if and only if the unreadable records, and the later ones about the same attempts, pass those guards |
| AttemptsFold.StepKeepsAttempts | lib/attempts_fold.py:202-242 | A record never removes or reorders an attempt, nor touches a closed one |
| AttemptsFold.ClosedAttemptsStayClosed | lib/attempts_fold.py:186-242 | Over every continuation of a record list, a closed attempt keeps its whole entry and an open one its decision |
| AttemptsTold.EveryAttemptIsTold | lib/attempts_fold.py:186-242 | In either view: an identity has an attempt exactly if the view reads a decision of it, the only one, which gives agent, session, time, decision and pid; its one readable end gives state, exit code, stage and time; without one it is open or denied, with no code |
| AttemptsTold.AttemptsFollowDecisions | lib/attempts_fold.py:186-249 | The attempts are listed in the order of the decisions the view reads |
| LineGrammar.SanitizeKeepsPlain | bin/message:179-185 | Sanitizing leaves exactly the texts without separator bytes and line ends unchanged, and does so twice as once |
| LineGrammar.SplitJoin | bin/message:59-63 | Splitting a line joined from fields without the separator byte gives those fields back |
| LineGrammar.TextAfterField | bin/message:78-79 | The free-text tail after its marker is exactly the text printed there |
| LineGrammar.TextAfterPrefix | bin/message:83-84 | The same for a tail that starts inside a field, as a reason does |
| LineGrammar.NoMarker | bin/message:78-84 | A line printed without a tail has no marker in it |
| MessageJournal.ReadJournal | bin/message:58-87 | The line-by-line fold in place computes the inbox of the specification |
| MessageJournal.InboxFile.CountAttempts | bin/wakeup:99-101 | Counting marker lines is the count of the specification |
| MessageJournal.InboxFile.Commit | lib/aibobnet.sh:34-85 | A locked commit appends the decided line or nothing, and reports the decision |
| MessageJournal.PrintedLineIsReadBack | bin/message:58-87 | Every line the commands print, with any body or reason, is parsed back as the intended change of the one message, with the encoded text |
| MessageJournal.CommandEffect | bin/message:199-289 | A locked command changes the fold as its decided action says |
| MessageJournal.OtherIdsAreUntouched | bin/message:199-289 | A command changes the fold at its own id only, and keeps the order of the others |
| MessageJournal.EventsRaiseTheRank | bin/message:220-289 | Every appended event strictly raises PERSISTED, NOTIFIED, SEEN, finished |
| MessageJournal.LinesPerMessage | bin/message:199-289 | Over any run the number of lines of a message is tied to how far it has come |
| MessageJournal.AtMostFourLines | bin/message:199-289 | From an empty journal, over any interleaving: at most one message line and three event lines per id |
| MessageJournal.MarkerInJoin | bin/wakeup:101 | The text search for a marker matches exactly the lines that print it as a whole inner field |
| MessageJournal.FailedPingsAreBounded | bin/wakeup:127-142 | A message gets at most the budgeted number of failed pings, and has failed once the budget is used |
| MessageVerbs.NotifyIff | bin/message:220-234 | A notice changes the journal if and only if the message is PERSISTED, and leads to NOTIFIED; an unknown id is refused |
| MessageVerbs.SeenIff | bin/message:236-255 | seen changes the journal if and only if the message is PERSISTED or NOTIFIED, and leads to SEEN |
| MessageVerbs.DoneIff | bin/message:256-268 | done changes the journal if and only if the message is not PROCESSED or FAILED, and leads to PROCESSED |
| MessageVerbs.FailIff | bin/message:269-286 | fail changes the journal if and only if the message is not PROCESSED or FAILED, and leads to FAILED with the encoded reason |
| MessageVerbs.SendIff | bin/message:199-218 | A send changes the journal if and only if the id has no message yet, and leads to PERSISTED with sender, recipient and encoded text |
| MessageVerbs.WakeupIff | bin/wakeup:103-118 | A wakeup changes the journal if and only if the message is PERSISTED |
| MessageVerbs.AnsweredWakeupNotifies | bin/wakeup:119-125 | An answered ping leads to NOTIFIED and counts no attempt |
| MessageVerbs.FailedWakeupCounts | bin/wakeup:127-142 | A failed ping below the budget counts one attempt and leaves every message as it is |
| MessageVerbs.LastWakeupDeadLetters | bin/wakeup:131-137 | The failed ping that uses the budget up leads to FAILED with the number of attempts as its reason |
| MessageVerbs.SanitizeInTwo | bin/message:179-185 | Free text is encoded letter by letter |
| MessageVerbs.SanitizeOne | bin/message:179-185 | A line break becomes a space, the separator its code, and any other letter stays |
| MemoryLines.ReadJournal | bin/memory:26-64 | The line-by-line fold in place computes the entries of the specification |
| MemoryLines.ProposalIsReadBack | bin/memory:43-62 | A printed proposal reads back with its scope, author, key, time and body, whatever the body holds |
| MemoryLines.EventIsReadBack | bin/memory:43-63 | A printed review or promotion reads back as that event of that id and changes nothing else |
| Memory.JournalFiles.CollisionJournals | bin/memory:254-295 | The collision namespace, in the order it is searched, for each scope |
| Memory.JournalFiles.FindFirst | bin/memory:302-320 | The search stops at the first journal that knows the id |
| Memory.JournalFiles.LocateCollective | bin/memory:222-236 | The counting search finds the one reachable journal that knows the id, and refuses none and several |
| Memory.JournalFiles.Review | bin/memory:341-371 | A review is decided in the order of the source: private ids, unknown and ambiguous ids, a moved journal, the author, earlier reviews |
| Memory.JournalFiles.Promote | bin/memory:372-385 | Only an accepted proposal is promoted, and only once |
| Memory.JournalFiles.Commit | bin/memory:296-385 | A locked command, decided by searching the journals as its verb does, appends its one record to the journal it chose or nothing |
| Memory.JournalFiles.Recall | bin/memory:70-93 | Recall shows exactly the visible entries that pass the filter, both ways |
| Memory.NamespaceCovers | bin/memory:254-295 | Every existing journal that some agent could see together with the target is searched for a collision |
| Memory.CommandKeepsValid | bin/memory:296-385 | A locked command keeps ids unique among journals seen together and every promotion backed by an outside acceptance |
| Memory.EveryRunIsValid | bin/memory:296-385 | The same over every run of propose, review and promote by any agents |
| Memory.RecallIsTrusted | bin/memory:341-385 | Whatever a non-author recalls is collective, promoted, and carries an acceptance signed by an agent other than its author |
| Memory.PromotedIsRecalled | bin/memory:72-82 | Every promoted entry of a visible journal is recalled by everyone who sees it |
| Memory.LookupIsNeverAmbiguous | bin/memory:222-253 | In every run the ambiguity error is unreachable: lookup fails only for an unknown id |
| Memory.StatesMoveForward | bin/memory:351-384 | States only move from proposed to reviewed to promoted, and a command never alters author, scope, key or body |
| MemoryVerbs.ReviewIff | bin/memory:341-371 | A review takes effect if and only if another agent gives it, within reach, of a proposal; the state is then REVIEWED_ACCEPT if it said accept and REVIEWED_REJECT if it said reject |
| MemoryVerbs.PromoteIff | bin/memory:372-385 | A promotion takes effect if and only if the entry is within reach and accepted, and leads to PROMOTED |
| MemoryVerbs.ProposeIff | bin/memory:296-340 | A proposal takes effect if and only if it has a text, its scope is there and no agent who sees the target sees the id; the entry is then the proposer's, with key and text given |
| MemoryVerbs.RepeatedCommandIsTaken | bin/memory:296-385 | A command that changes nothing succeeds exactly where it was carried out before: the proposal still waiting, the same verdict given, the entry promoted |
| MemoryVerbs.EveryStateIsEarned | bin/memory:296-385 | Over every run: an entry was proposed there by its author with its key and text; if accepted or rejected, another agent's review then said so; if promoted, an accepting review by another agent and then a promotion |
| MemoryVerbs.WhatIsRecalledWasAccepted | bin/memory:341-385 | Over every run: what an agent recalls of another's was proposed, then accepted by a review of an agent other than the author, then promoted, in steps of that run |
| MemoryVerbs.RecalledIff | bin/memory:70-85 | Over every run an agent is shown what is promoted and its own pending proposals, narrowed by scope and key, and nothing else |
| Broker.TakenIndices | bin/aib-broker-handler:178-179 | If the first n slots of a role exist there are at least n lease files |
| Broker.SlotsAreMany | bin/aib-broker-handler:173-178 | The n first slots of a role are n different names |
| Broker.Pool.Release | bin/aib-broker-handler:108-112 | A connection that ends only ever gives leases back |
| Broker.Pool.Sweep | bin/aib-broker-handler:124-152 | With leases released between any two probes, the sweep counts exactly the files it leaves, and all of those were held when it began |
| Broker.Pool.Admit | bin/aib-broker-handler:119-182 | An admission takes a new lease and at most the capacity is held; it refuses only a pool that was full; the branch without a free index is unreachable |
| Broker.Pool.Query | bin/aib-broker-handler:138-157 | The counts of a role lie between what it holds at the end and at the start |
| Broker.Pool.Serve | bin/aib-broker-handler:119-182 | Over any sequence of connections and releases the capacity is kept and no connection lacks an index |
| SupervisorState.Supervisor.Restore | lib/aib_supervisor.py:567-660 | The replay loop in place gives the state of the specification, tripped when the count is at the burst, and the one start without an end |
| SupervisorState.Supervisor.Act | lib/aib_supervisor.py:3559-3624 | Every handler, start-up and orphan included, carried out in place is the step that the run results speak of |
| SupervisorState.StepKeepsValid | lib/aib_supervisor.py:3559-3624 | Every handler keeps replayed and live state in agreement |
| SupervisorState.EveryRunIsValid | lib/aib_supervisor.py:3559-3624 | The same over every run of handlers, crashes and restarts |
| SupervisorState.ReplayIsTheLiveState | lib/aib_supervisor.py:567-660 | At every handler boundary the replayed journal agrees with the live session, its directory and newness, its turns, the brake count, the duty, the persistence streak and the consumed controls; a live trip is always restored; a restored trip is live or was forgiven; an untripped brake is below the burst |
| SupervisorState.AnyJournalRestarts | lib/aib_supervisor.py:567-660 | Wherever a crash cut the journal off, inside a handler too, a restart is idle, agrees with its journal, is tripped at the burst, and names an episode exactly while a streak is owed |
| SupervisorState.LossCutInTwo | lib/aib_supervisor.py:3348-3371 | A crash between the two records of a lost session counts the failure, keeps the session bound and the streak as it was |
| SupervisorState.RecoveryCutShort | lib/aib_supervisor.py:3411-3441 | A crash before the record that a session is back clears the brake and leaves the streak owed |
| SupervisorState.StandupMeansOnDuty | lib/aib_supervisor.py:996-1000 | A standup never runs while the agent is off duty, live or on record |
| SupervisorState.ForgivenBrakeTripsAgain | lib/aib_supervisor.py:587-593 | A concrete run after which the live brake is clear and the restored one is tripped |
| SupervisorState.RunningTurnIsFound | lib/aib_supervisor.py:582-660 | In every run the turn in progress is the one start the journal has no end for, so a restart finds it |
| SupervisorTurns.PollStartsIff | lib/aib_supervisor.py:3607-3624 | A poll starts a turn if and only if the agent is on duty, its brake is not tripped, work waits and nothing runs; the turn is for that work, or for a handover exactly when the session has had its turns; otherwise nothing changes |
| SupervisorTurns.ChoiceIsTakenIff | lib/aib_supervisor.py:3613-3618 | A message is chosen exactly by an idle agent on duty whose brake is not tripped |
| SupervisorTurns.TurnStartsIff | lib/aib_supervisor.py:3596-3624 | Of all handlers only such a poll, or an accepted control that orders a routine of an idle agent, starts a turn, and then one |
| SupervisorTurns.NothingStartsAtRest | lib/aib_supervisor.py:3596-3624 | In every run, from an idle agent that is tripped or off duty, no turn is started and the rest is kept, over crashes and restarts, until a control rouses it |
| SupervisorTurns.TurnIsJudged | lib/aib_supervisor.py:3299-3533 | A turn that came back has one class, told from exit code and output, and leaves just what that class leaves of brake, counts, session, duty, work and journal |
| SupervisorTurns.OneClassOnly | lib/aib_supervisor.py:3341-3406 | No turn has two classes |
| SupervisorTurns.EveryTurnHasAClass | lib/aib_supervisor.py:3341-3406 | Every turn that came back has a class |
| SupervisorTurns.RefusedControlIsConsumed | lib/aib_supervisor.py:834-837 | A control that is refused or busy is consumed and changes nothing else |
| SupervisorTurns.AcceptedControlIsCarriedOut | lib/aib_supervisor.py:958-1006 | An accepted control is consumed, a forced one ends the running turn, judged or cut off, and then each does what it is for |
| SupervisorTurns.RestartRestores | lib/aib_supervisor.py:567-660 | After a crash in any run the restart is idle, keeps session, duty, streak, controls and brake count, is tripped exactly if it was or had been forgiven, and binds another session only in a moved workspace |
| SupervisorTurns.OrphanIsEnded | lib/aib_supervisor.py:2833-2865 | A turn that was running at the crash is ended on record, without a trip |
| Alarms.AlarmJournal.CountTheRecent | lib/aib_supervisor.py:788-794 | Counting the recent alarms of a kind |
| Alarms.AlarmJournal.WriteAlarm | lib/aib_supervisor.py:762-827 | The alarm procedure in place is the specification's: known, suppressed, failed or sent |
| Alarms.WindowIsRecent | lib/aib_supervisor.py:788-794 | An alarm written now sees every earlier one of any hour window it falls into |
| Alarms.AtMostTenAnHour | lib/aib_supervisor.py:788-827 | With a clock that never runs back, every hour holds at most ten sent alarms of any kind but task_delivery_failed, and one suppression, over every run |
| Alarms.AlarmIsSentIff | lib/aib_supervisor.py:762-827 | An alarm is sent if and only if its episode was not told, fewer than ten of its kind were sent within 3600 seconds and its line was delivered; put down as suppressed if and only if new, the hour full and no suppression on record within it; as failed if and only if new, the hour not full and not delivered |
| Alarms.EachEpisodeIsToldOnce | lib/aib_supervisor.py:779-786 | At most one sent alarm per kind (task_delivery_failed apart) and episode, and per trip for the brake |
| Alarms.NoAlarmIsLostInSilence | lib/aib_supervisor.py:762-827 | A raised alarm is on record as sent, or failed delivery on record, or ten were sent within the hour with a suppression on record |
| IntentScan.IntentScanner.Scan | lib/aib_supervisor.py:2187-2196 | The rotating window and the cursor it leaves |
| IntentScan.NextWindowFollows | lib/aib_supervisor.py:2188-2194 | The next window starts right after the last one, wrapping round |
| IntentScan.StartsTile | lib/aib_supervisor.py:2188-2194 | From any cursor the windows tile the sorted list circularly |
| IntentScan.EveryNameIsExamined | lib/aib_supervisor.py:2187-2196 | In a fixed directory any number of scans that covers the list examines every name, from any cursor |
| IntentScan.OneScanIsNotEnough | lib/aib_supervisor.py:2188-2194 | Above the limit one scan always leaves a name out |
| IntentApply.OneRecordPerRequest | lib/aib_supervisor.py:2031-2108 | Over every run with crashes anywhere, each row has at most one verdict of the ledger, and so at most one accepted report |
| IntentApply.OneMessagePerId | lib/aib_supervisor.py:2141-2154 | Over every run with crashes and redeliveries each continuation, receipt or report id is in the inbox at most once, given that a send delivers an id once, which is proved of the journals below |
| IntentApply.EveryRunIsQuiet | lib/aib_supervisor.py:1975-1990 | An attempt that is applied or tainted is never being worked on |
| IntentApply.SealedAttemptsAskNothing | lib/aib_supervisor.py:1975-1990 | After an attempt is applied or tainted nothing that happens, a rewritten file and restarts included, makes another ledger request |
| IntentApply.EveryRunKeepsNotes | lib/aib_supervisor.py:2012-2140 | Rows are noted in order, each at most once, and everything before the current row is noted |
| IntentApply.AppliedMeansEachRowNotedOnce | lib/aib_supervisor.py:2012-2158 | An applied attempt has exactly one ledger note for each of its rows |
| IntentNotes.DoneRowsWereAccepted | lib/aib_supervisor.py:2078-2123 | A row noted as reported or continued was accepted by the ledger, in every run |
| IntentNotes.NotesTellTheTruthIff | lib/aib_supervisor.py:2012-2123 | In every run a note says done exactly when the ledger accepted the row, if and only if the last look at the row did not find it accepted and misjudge it |
| IntentNotes.ClosedNotesTellTheTruthIff | lib/aib_supervisor.py:1973-2123 | For attempts closed before they are scanned the misjudgements are exactly three: a refused reference, a retry that exits 64 or 76, a continuation whose command breaks with its turns used up |
| IntentNotes.EveryMisjudgementMisleads | lib/aib_supervisor.py:2065-2108 | Each of those answers, whatever else the world says, leads with one crash to an accepted row noted as rejected or blocked |
| IntentNotes.UnstableReferencesMislead | lib/aib_supervisor.py:2065-2077 | A run of a closed attempt where the reference is refused after a crash, and an accepted report is noted as rejected |
| IntentNotes.RefusedRetriesMislead | lib/aib_supervisor.py:2085-2107 | The same with a good reference and a retry that exits 64 |
| IntentNotes.BrokenContinuationsMislead | lib/aib_supervisor.py:2085-2093 | The same for a continuation whose retried command breaks when its turns are used up |
| IntentSends.DeliveredMeansSent | lib/aib_supervisor.py:1760-1885 | Over every run a report that is delivered on record is in the inbox |
| IntentSends.RedeliveryDelivers | lib/aib_supervisor.py:1887-1916 | A pending report is in the inbox and on record as delivered after a redelivery whose send succeeds |
| IntentSends.AppliedReportsAreOnRecord | lib/aib_supervisor.py:2141-2158 | In every run of attempts closed before they are scanned, an applied attempt with a final report among its noted rows has it pending or delivered on record, unless its text could not be read when it was due |
| IntentSends.AppliedTellsItself | lib/aib_supervisor.py:2146-2158 | In the same runs an applied attempt told itself by the sums of its notes: the receipt if something was handled and something rejected, otherwise the last continuation if there was one, and it is in the inbox if the task was in progress, the text readable and the send landed |
| IntentSends.TellingSendsOne | lib/aib_supervisor.py:2146-2154 | At that point just that one message is added to the inbox, and none otherwise |
| IntentSends.AppliedCountsTheRows | lib/aib_supervisor.py:2155-2158 | In the same runs an applied attempt counts exactly the rows it was closed with |
| IntentSends.NotesFitTheirRows | lib/aib_supervisor.py:2012-2140 | In the same runs a row gets only a note of its own kind |
| IntentSends.RetriesAreBounded | lib/aib_supervisor.py:1564-1576 | Over every run an attempt is retried at most five times, and once more for each interruption |
| IntentSends.NotDoneHasAReason | lib/aib_supervisor.py:2015-2108 | A row is noted as rejected or blocked only for a reason found at the last look at it |
| IntentSends.GateAdmitsIff | lib/aib_supervisor.py:1973-2007 | A file is worked on exactly when nothing was tainted or applied before, it is what was closed, and its task and context are right |
| IntentSends.QuarantineTaints | lib/aib_supervisor.py:1471-1562 | Quarantine takes the file away and leaves its mark; a marked attempt only loses its file |
| IntentPaths.AbsentFileIsClosed | lib/aib_supervisor.py:1952-1963 | Opening closes an attempt once with what is in the file, and ends there if there is none |
| IntentPaths.StartUpCloses | lib/aib_supervisor.py:1627-1631 | Start-up closes an attempt that was left open with what is in the file then |
| IntentPaths.UnreadableIsQuarantined | lib/aib_supervisor.py:1963-1972 | A file that cannot be read is taken away and the attempt marked |
| IntentPaths.UnfitIsQuarantined | lib/aib_supervisor.py:1977-2007 | So is one that is no list of rows, is not what was closed, or is of another context |
| IntentPaths.AppliedFileIsDropped | lib/aib_supervisor.py:1988-1990 | A file that comes back after it was applied is taken away, and that is all |
| IntentPaths.MarkedFileIsDropped | lib/aib_supervisor.py:1977-1979 | A file of a marked attempt is taken away, and noted the first time |
| IntentPaths.RetryKeepsTheFile | lib/aib_supervisor.py:1564-1576 | A retry is noted and keeps the file while there are not five |
| IntentPaths.FifthRetryQuarantines | lib/aib_supervisor.py:1564-1576 | The fifth retry takes the file away and marks the attempt |
| IntentPaths.RowIsAnswered | lib/aib_supervisor.py:2031-2123 | What the exit code of a row's request leaves in the journal: a note of its own kind, a rejection or a retry |
| IntentPaths.NotingCounts | lib/aib_supervisor.py:2109-2140 | What a note adds to the sums: handled unless rejected, final, the continuation to go on from |
| IntentPaths.BlockIsReported | lib/aib_supervisor.py:2085-2108 | A continuation whose turns are used up is reported to the requester once the ledger accepts the block, and then noted as blocked |
| IntentPaths.UnblockedIsNotReported | lib/aib_supervisor.py:2085-2108 | With the block refused it is noted at once; any other answer is a retry; nothing is sent |
| IntentPaths.FinishedFileIsDropped | lib/aib_supervisor.py:2155-2158 | After the last message the attempt is applied with the number of its rows and the file taken away |
| IntentLedger.NamesDiffer | lib/aib_supervisor.py:2031-2082 | No two requests of an attempt share a causation id |
| IntentLedger.KnownAnswer | lib/task_cli.py:364-386 | A request whose causation is on record is answered with the verdict recorded for it |
| IntentLedger.LostScopeIsRefused | lib/task_cli.py:435-438 | Without the team's one lead even a request on record as accepted comes back with exit code 64, and the stream is left alone |
| IntentLedger.AskFollowsSubmit | lib/task_cli.py:432-465 | An attempt's request on the task stream, with its exit codes, a busy lock and a command killed after its commit, keeps stream and request store in step and answers the procedure alike |
| IntentLedger.OthersLeaveTheVerdicts | lib/task_cli.py:432-448 | Requests of others interleaved anywhere leave an attempt's verdicts alone |
| IntentMail.MessageNamesDiffer | lib/aib_supervisor.py:2109-2112 | No two messages of an attempt, report, receipt and continuations, share an id |
| IntentMail.DeliverFollowsSend | bin/message:199-218 | A message of an attempt, sent to the journals under their locks, does to them what delivering does to the inbox |
| IntentMail.OthersLeaveTheMail | bin/message:199-289 | Other senders' messages, and anybody's commands on delivered ones, leave it so |
| IntentRuns.RealRunsAreRuns | lib/aib_supervisor.py:1952-2163 | Every run on the task stream and the message journals, with other people's requests and messages anywhere, is a run of the procedure |
| IntentRuns.OneRecordOnTheStream | lib/task_cli.py:358-386 | Each request of an attempt is on the task stream at most once, whatever crashes and whoever else writes |
| IntentRuns.OneLineInTheInbox | bin/message:199-218 | Each message of an attempt has at most one line in its recipient's journal, whatever crashes and whoever else writes |
| IntentRuns.AppliedRowsAreNotedOnce | lib/aib_supervisor.py:2012-2158 | On the real stores an applied attempt has exactly one ledger note for each of its rows |
| IntentRuns.DoneRowsAreOnTheStream | lib/aib_supervisor.py:2078-2123 | A row noted as reported or continued has an accepted record on the task stream |
| IntentRuns.DeliveredReportsAreInTheInbox | lib/aib_supervisor.py:1760-1885 | On the real stores a report that is delivered on record is in its requester's journal |
| IntentRuns.AppliedTellsTheAgent | lib/aib_supervisor.py:2146-2158 | On the real stores the receipt or continuation of an applied attempt is in the agent's own journal |
| IntentRuns.NotesAgreeWithTheStreamIff | lib/aib_supervisor.py:2012-2123 | A note agrees with the stream's record of the row if and only if the last look at the row was not misled |
| IntentRuns.SealedAttemptsLeaveTheStream | lib/aib_supervisor.py:1975-1990 | Once an attempt is applied or tainted nothing that follows changes what the stream holds of it |
| Login.Store.Refresh | bin/aib-login-refresh:131-180 | A poll keeps a token above the threshold, which covers the floor until the next poll is due, and otherwise replaces it and tests the floor when the new one is in the store |
| Login.HeldSince | bin/aib-login-refresh:131-180 | At every instant the store holds what some poll left, no longer ago than the longest wait for the next token to be in the store |
| Login.PollCoversTheWait | lib/aib_login.py:76-87 | What a poll leaves in the store, fetched or kept, lasts for that wait and a turn that leaves time for it |
| Login.EveryTurnIsGranted | bin/aib-login-token:60-67 | From the end of the first poll on, at every instant, also while a refresh is under way, such a turn is granted a token |
| Login.SlowPollsRefuse | bin/aib-login-token:60-67 | Any other turn is refused on some schedule with that delay, at an instant before the new token is in the store |
| Login.GuaranteeHoldsIff | lib/aib_login.py:76-87 | A turn is granted on every schedule, from every store and at every instant if and only if it leaves time for the polls, a test on the settings and the delay alone |
| Login.OneSecondToSpare | lib/aib_login.py:80-87 | The derived longest turn leaves one second to spare, and none when it had to be raised to a second |
| Login.LongestTurnIsGrantedIff | lib/aib_login.py:80-87 | The longest turn is always granted if and only if refreshes take no longer than the seconds to spare allow |
| Login.FloorIsTheLongestTurn | bin/aib-login-refresh:41-47 | The floor the refresher tests is what a longest turn asks of the store |
| Login.DefaultsAllow | lib/aib_login.py:24-26 | With the shipped settings: the longest turn, 900 seconds, up to a delay of two seconds and no more; at a delay of 120 seconds exactly the turns of up to 782 |
| Login.SlowRefreshRefusesATurn | bin/aib-login-refresh:138-174 | A concrete schedule with a refresh of two minutes on which a longest turn is refused meanwhile |

## Left out

- IntentMail.DeliverFollowsSend: speaks of requesters that are agents; a human requester's report goes to the outbox, where delivery is at least once.
- IntentRuns.RealRunsAreRuns: nobody else uses the causation ids of the attempt or sends under its message ids; the waits between redeliveries of a report and their limit are left open.
- SupervisorState.ReplayIsTheLiveState: claims nothing of the per-message failure and session-loss counts, the infra episode or the exact time of a trip, which live code and replay treat differently.
- Who may order a control, and the audit of its request: whether a control is accepted is an input of its handler.
- SupervisorState.Supervisor.Act: how applied intents turn a turn's exit code to success is an input of the outcome.
- IntentApply models the procedure on values, as a machine of small steps, because the point is what a crash between two writes leaves; the quarantine copies, alarms and attention records beside them are not modelled, nor the adoption of orphaned attempts.
- The supervisor's fields are kept as one state record inside the class; launch, tick, heartbeat and status output are not modelled.
- JSON and UTF-8 decoding, registry typing and schema versions, the record size limit, the high-water anchor and the reference syntax of tickets, contexts and summaries: inputs. A field is a text, a number, absent or something else.
- `occurred_at` times in the ledger and in attempts; they are carried and never decide.
- The event-id accessor of a frame body is an abstract function of the body, and records numbered 0 are excluded by the numbering from 1.
- `os.kill` liveness and the display-only launch binding of attempts.
- The text of alarm details and their hashing; an alarm's episode is an input.
- What a scan then does with each name, beyond applying the intent file.
- Lease files of other shapes, the published live count, and everything after admission in the broker.
- Memory: the registry is fixed during a run, generated ids are parameters, and ordering by time and the list mode of rendering are not modelled.
- Messages: random ids are parameters, and journals written by hand with separators inside ids are not considered.
- The login test settings that replace the derived maximum turn or the threshold; refreshes that fail, find the credential unchanged or give way to a newer login; and a store without a credential.
- Dashboards, HTTP, PTY, sockets, access lists, worktrees and kernel confinement: operating-system plumbing.
