# SlashIt's durable Task lifecycle, in Dafny

SlashIt keeps Tasks, Conversations and its configuration in separate files that
cannot be written together. A save is confirmed, leaves the file untouched, or
replaces it without a confirmation that the replacement reached stable storage.
A process can die between any two steps and power can be lost at any moment. This
project models the code that has to stay right under those conditions and proves
what it keeps.

| Module | What it models |
|---|---|
| `Durability` | one file: what readers see, and every version a power loss may leave |
| `Tasks`, `Columns`, `QueueEntry`, `Boards`, `Lifecycle`, `BoardStores` | the Task record, the board columns, the queue's refusals, and every writer of the board |
| `QueueRequests` | any number of queue requests for one Task, interleaved under its lease |
| `Terminalization`, `Cleanup`, `Uninterrupted`, `Quarantine` | finishing and deleting a Task around the removal of its checkout, whole, interrupted, and asked for again |
| `Conversations`, `Effects`, `Attempts`, `Approvals`, `Replies`, `ApprovalDesks`, `Survival` | the approve, apply, record protocol across two files, what its answers mean, and what a power loss may undo of it |
| `Runs`, `Executions` | from an approval to the one run it admits, and what the Conversation shows of it |
| `Startup` | migration and reconciliation of whatever the last process left |
| `ProjectDeletion` | deleting a Project, its cleanup records and the start that finishes it |
| `PrStatuses`, `PrRequests` | the pull request cache and the requests that fill it |
| `Reads` | the Coordinator's reads and the turn that makes them |
| `ReleaseChannels` | versions and the declarations of their channels |

Code that changes state step by step is a method or a class proved against a
specification function; the properties are proved about that function and about
runs of steps. A protocol that several tasks or processes interleave is a state
machine whose runs are arbitrary sequences of steps.

Seven claims one might expect turn out false of the code. Each has a lemma with the
run or the input that shows it, and the condition under which the claim holds.

* A quarantine need not survive an explicit retry that git refuses:
  `Quarantine.RetryForgets` is the run. `Quarantine.FirstAttemptsAreSafe` shows
  that a run keeps every quarantine while no terminalization is asked for on a
  flagged Task, and `Quarantine.KeptIsSafeIff` that an attempt git refuses keeps it
  exactly when the checkout was whole; `Cleanup.NextIsSafeIff` and
  `Cleanup.RunIsSafeIff` name the one step that forgets.
* A promoted Task that is still bound to its approval is shown as ambiguous until
  its run starts: `Executions.PromotedLooksAmbiguous`, and
  `Executions.AmbiguousOnlyWhenBound` for exactly which Tasks are.
* A record about something else can change what a run is shown as, so that a
  completed run is shown as unconfirmed: `Executions.CompletedIsForgotten`.
  `Executions.RecordKeepsShown` gives exactly when the state or the result changes,
  and `Executions.RecordKeepsEvidence` when a record is lost.
* Two approvals can run under one run number, so that the first is shown with the
  second's run: `Executions.RunNumberIsReused`. `Runs.RunsAreDistinctIff` gives
  exactly which histories keep the numbers distinct, by what each start finds on
  the Task.
* A repeated deletion of a Project this process does not list can delete the board
  of a configured Project: `ProjectDeletion.UntrustedRetryLosesABoard`.
  `ProjectDeletion.LosesIff` and `ProjectDeletion.RunLosesNothingIff` give exactly
  which steps and runs lose a file, `ProjectDeletion.RetriedDeletion` what one retry
  hangs on, and `ProjectDeletion.TrustedRunLosesNothing` what a caller can check.
* A retry of an approved edit need not recognise its own work:
  `Effects.RetriedEditIsRefused`. It does exactly when no two changes disagree about
  a field, as the edits SlashIt proposes never do: `Conversations.AppliedIffConsistent`
  and `Conversations.ProposedEdit`.
* An approval recorded as Applied need not survive a power loss:
  `Survival.AppliedMayNotLast`. What an attempt reports done lasts exactly when the
  effect was not there before it or every version of the file showed it already:
  `Effects.DoneLastsIff`. On a confirmed file it lasts, and so does whatever a run
  records as Applied while no Task save is left in doubt: `Effects.ConfirmedFileLasts`
  and `Survival.AppliedLasts`.

`src-tauri/src/conversation_actions.rs` says at its head that a retried
`CreateTask` can recreate a Task deleted in between; `Approvals` agrees, and its
once-only theorems are about runs in which nothing else touches the target, but for
the power losses of `Survival.MadeAtMostOnce`.

## Model

| member | source | states |
|---|---|---|
| `Durability.SurvivorIsRecent` | src-tauri/src/lifecycle.rs:1806-1834 | whatever a power loss leaves was written no earlier than the last confirmed save |
| `Tasks.RecordedOnce` | crates/slashit-activity/src/lib.rs:401-413 | a once-only milestone recorded again changes nothing, even on a full log |
| `Tasks.RecordMeans` | crates/slashit-activity/src/lib.rs:401-413 | a repeated once-only milestone is not recorded, a run ending once as completed or failed; any other entry goes last, and of two hundred and one the first tool call goes, or the oldest entry when there is none |
| `Tasks.NextRunMeans` | crates/slashit-activity/src/lib.rs:542-560 | the next run is past every run a start, an end, an answer, a failure or a tool call on the log shows, short of the largest number, and its predecessor is on the log unless it is the first |
| `Tasks.RecoveryPendingIff` | src-tauri/src/domain/task.rs:719-739 | a Worker's outcome is still to be looked at exactly until its handoff is resolved and then confirmed, or rejected no earlier than its run was first done, or the Task has left InProgress and AiReview |
| `Tasks.ReadyIff` | src-tauri/src/domain/task.rs:1054-1066 | the executor starts exactly the InProgress, idle Tasks with no cleanup or restack pending whose earlier handoff, if any, was resolved and then confirmed or rejected |
| `Columns.RenumberedColumn` | src-tauri/src/lifecycle.rs:743-767 | the column gets exactly positions 0 to n-1, the Task its clamped place, distinct positions keep their order, and nothing else changes but positions |
| `QueueEntry.EnqueueLandsOnTop` | src-tauri/src/lifecycle.rs:960-1015 | every admitted entry passed every refusal and lands on top of a gapless Queue, other cards keeping their order |
| `QueueEntry.EnqueueWrites` | src-tauri/src/lifecycle.rs:960-1015 | field by field, what an admitted entry leaves: the Task waiting with the traces of its runs cleared, an approval withdrawn, one move on its log and a binding to exactly what was approved for the next run; Queue cards of the Project at most moved; every other card as it was |
| `QueueEntry.FirstRefusalAnswers` | src-tauri/src/lifecycle.rs:851-903 | every entry is answered with the first refusal of the ordered list that stands, each given by what it looks at, and admitted when none does |
| `QueueEntry.StandingSays` | src-tauri/src/lifecycle.rs:1061-1086 | what stands in the way before anyone's run is ended: the review a person is to make, unless they ask themselves, and for a Task not yet queued the refusals every entry meets |
| `Boards.AgreementIffLawful` | src-tauri/src/lifecycle.rs:1782-1834 | memory and the visible files stay equal after a published change exactly when it drops no Task of its Project and claims none of another's |
| `Boards.OtherProjectsUntouched` | src-tauri/src/lifecycle.rs:1782-1788 | a lawful change leaves other Projects alone in memory and in every version of their files |
| `Lifecycle.RecordFirstTwice` | src-tauri/src/lifecycle.rs:1693-1698 | an amendment that is idempotent on the flagged board ends the Task as if it had run once |
| `Lifecycle.RunAgreesIffLawful` | src-tauri/src/lifecycle.rs:433-536 | over any sequence of writers and save outcomes, memory equals the files throughout exactly when each published amendment is lawful |
| `Lifecycle.RecordWrites` | src-tauri/src/lifecycle.rs:433-453 | the board, the file and each version of it after a record: of the Project of the Task named, and nothing for an absent Task |
| `Lifecycle.RevisionWrites` | src-tauri/src/lifecycle.rs:512-536 | the same after a revision, which may also find nothing to change |
| `Lifecycle.CreationWrites` | src-tauri/src/lifecycle.rs:647-684 | the same after a creation: the Task that was built, on a Project that is there |
| `Lifecycle.BatchWrites` | src-tauri/src/lifecycle.rs:695-731 | the same after a batch of arrivals, all of them in one write, where a later arrival of one id wins |
| `Lifecycle.DeletionWrites` | src-tauri/src/lifecycle.rs:1308-1340 | the same after the last write of a delete: the record is on no board and in no file written, and every other Task is as it was |
| `Lifecycle.OwnWritersAreLawful` | src-tauri/src/lifecycle.rs:647-684 | creation, queue entry, stamp, commit and delete are lawful by themselves |
| `Lifecycle.SiblingsKept` | src-tauri/src/lifecycle.rs:743-767 | those writers touch no other Task, except that a queue entry may renumber Queue cards of its Project |
| `Lifecycle.NoTaskIsLost` | src-tauri/src/lifecycle.rs:433-536 | over any run of the nine writers whose published changes are lawful, a Task nobody deletes stays on the board, in its Project and in every version of its file |
| `BoardStores.RenumberColumn` | src-tauri/src/lifecycle.rs:743-767 | the card goes to its clamped place and the loop gives the column the numbers specified |
| `BoardStores.ReviseForQueue` | src-tauri/src/lifecycle.rs:960-1015 | check and change in one write: a refusal leaves the staged board as it was |
| `BoardStores.BoardStore.PublishTyped` | src-tauri/src/lifecycle.rs:1806-1834 | the file first, then memory follows whatever the file holds |
| `BoardStores.BoardStore.RecordTyped` | src-tauri/src/lifecycle.rs:433-453 | the amended Project is published, and a save that published nothing changes nothing |
| `BoardStores.BoardStore.RecordIfChanged` | src-tauri/src/lifecycle.rs:512-536 | absent, unchanged and written are told apart, and only the last changes the store |
| `BoardStores.BoardStore.CreateChecked` | src-tauri/src/lifecycle.rs:647-684 | a Task is reported created exactly when it was built for a present Project and confirmed |
| `BoardStores.BoardStore.CreateBatch` | src-tauri/src/lifecycle.rs:695-731 | all arrivals are published in one write or none is |
| `BoardStores.BoardStore.CommitSelected` | src-tauri/src/lifecycle.rs:1104-1127 | selection, amendment and write see one state of the board |
| `BoardStores.BoardStore.EnqueueLeased` | src-tauri/src/lifecycle.rs:960-1015 | the answer is the verdict, except that an unconfirmed entry is an error, and no other verdict writes |
| `BoardStores.BoardStore.EnqueueCurrentHeld` | src-tauri/src/lifecycle.rs:1061-1086 | a reason already present ends no owner and writes nothing; otherwise the Task is entered from the status seen after its owner ended |
| `BoardStores.BoardStore.StampCleanupInFlight` | src-tauri/src/lifecycle.rs:1641-1679 | the flag and the caller's record are published together, and only a confirmed stamp answers so |
| `BoardStores.BoardStore.Commit` | src-tauri/src/lifecycle.rs:1682-1778 | one write ends the terminalization: `Terminalization.TerminalizeWrites` says what it writes, field by field, in memory and in each version of the file |
| `BoardStores.BoardStore.TerminalizeLeased` | src-tauri/src/lifecycle.rs:1495-1609 | carries out the terminalization that `Terminalization.TerminalizeWrites` describes, and git is asked only after a confirmed stamp |
| `BoardStores.BoardStore.DeleteTask` | src-tauri/src/lifecycle.rs:1245-1340 | cleanup first, then one write without the record |
| `QueueRequests.OneRequestWins` | src-tauri/src/lifecycle.rs:1032-1086 | however requests interleave, one write at most moves the Task, one move is recorded, and every other answer is AlreadyQueued, a failed save or a time-out |
| `QueueRequests.ExactlyOneQueued` | src-tauri/src/lifecycle.rs:851-903 | with confirmed saves, once any request is answered exactly one is answered Queued |
| `QueueRequests.RefusedEndsNoOwner` | src-tauri/src/lifecycle.rs:1061-1086 | while a standing reason refuses the Task, no interleaving ends its owner or writes |
| `QueueRequests.AloneIsQueued` | src-tauri/src/lifecycle.rs:1032-1086 | a request nobody contends with, on a Backlog Task nothing refuses, is answered Queued when its save is confirmed and with the failure otherwise, frees the lease, and leaves the Task queued with nothing of an earlier run when its write was published |
| `QueueRequests.LateIsTold` | src-tauri/src/lifecycle.rs:851-903 | a request that finds the Task queued already is told so, with its title, and changes nothing |
| `Terminalization.TerminalizeWrites` | src-tauri/src/lifecycle.rs:1495-1778 | every terminalization of SlashIt's own, for each answer of git, the executor and both saves: the first refusal that stands, or the Task field by field (a change of column ends the binding, records one move and withdraws an approval taken back to work; a kept checkout is noted with its path, reason and lock), every other Task as it was, the file and each version of it, and the answer |
| `Terminalization.DeleteMeans` | src-tauri/src/lifecycle.rs:1245-1340 | every answer of a delete: refused by a pending integration or restack, refused as its cleanup is, or without the record in memory and in the file once the cleanup succeeded |
| `Uninterrupted.StepsFinish` | src-tauri/src/lifecycle.rs:1495-1609 | the steps that `Cleanup` interleaves and crashes, run without an interruption, leave exactly the board and the file of the whole call, no job, and the checkout gone or as git found it |
| `Terminalization.AmendedFacts` | src-tauri/src/lifecycle.rs:1495-1609 | with amendments that leave checkouts and flags alone, a terminalization that gets past its refusals and its stamp ends the one Task, keeps every sibling's checkout and flag, and answers as its last write does |
| `Terminalization.MergedFinishIsGentle` | src-tauri/src/queue/executor.rs:3571-3590 | the amendments of a merged pull request's finish are of that kind |
| `Terminalization.FinishedHasNoCheckout` | src-tauri/src/lifecycle.rs:1682-1778 | with any such amendments, a finished Task names no checkout and no flag in memory, in the file and in every version a power loss may leave, and git had removed its checkout |
| `Terminalization.RefusalKeepsWork` | src-tauri/src/lifecycle.rs:1495-1609 | with any such amendments, a refusal leaves the checkout path as found, and status and branch unless the amendment sets them; except exactly an unconfirmed finish, of a checkout git removed or of a Task that had none, which leaves the Task finished |
| `Terminalization.DeletedIsGone` | src-tauri/src/lifecycle.rs:1308-1340 | a delete that answers true leaves no record anywhere, and no checkout it named |
| `Terminalization.RefusedDeleteKeepsWork` | src-tauri/src/lifecycle.rs:1245-1340 | whatever refuses a delete, the Task keeps its status and branch, and its path unless git removed that checkout; the record is missing only when the last write is in place but not confirmed |
| `Terminalization.DeleteTouchesNoSibling` | src-tauri/src/lifecycle.rs:1245-1340 | a delete changes no other Task and never answers that a present Task was absent |
| `Cleanup.NextIsSafeIff` | src-tauri/src/lifecycle.rs:1560-1609 | every step of every writer, git, a crash, a power loss or startup keeps "a checkout a removal touched is named only by a flagged Task, in every version", except exactly the commit that forgets a quarantine |
| `Cleanup.OnlyRetriesForget` | src-tauri/src/lifecycle.rs:1539-1556 | only a terminalization asked for on a Task already flagged can be that exception |
| `Cleanup.RunIsSafeIff` | src-tauri/src/lifecycle.rs:1641-1778 | a whole run keeps the invariant throughout exactly when it never forgets a quarantine |
| `Cleanup.NeverHealthy` | src-tauri/src/app_core.rs:486-568 | whatever version the next start loads, a Task naming such a checkout is flagged and not ready to run |
| `Cleanup.NextIsTracked` | src-tauri/src/lifecycle.rs:1495-1609 | every step, a forgotten quarantine included, keeps checkouts named by one Task each, removals named by their Task, and nothing believed gone that is not |
| `Cleanup.NothingStranded` | src-tauri/src/lifecycle.rs:1245-1340 | at every step from such a state, a checkout that is not gone stays named by a record in every version that named it |
| `Cleanup.RunStrandsNothing` | src-tauri/src/lifecycle.rs:1231-1340 | over every run of finishes, deletes, retries of quarantined Tasks, refusals, unconfirmed writes, crashes and starts, a checkout that never goes stays named in every version |
| `Quarantine.FirstAttemptsAreSafe` | src-tauri/src/lifecycle.rs:1539-1609 | while no terminalization is asked for on a Task already flagged, every enabled run keeps the invariant throughout, whatever is saved, refused, cut short or lost |
| `Quarantine.KeptIsSafeIff` | src-tauri/src/lifecycle.rs:1641-1778 | from any safe world, an attempt that git refuses keeps the invariant exactly when the checkout was whole, as it was if the Task was not flagged |
| `Quarantine.RetryForgets` | src-tauri/src/lifecycle.rs:1539-1778 | a first attempt cut short, the start after it and a retry git refuses, none of them refused early and every step enabled, leave the Task unflagged over a checkout of which anything may be left |
| `Quarantine.StartIsMadeOfSteps` | src-tauri/src/app_core.rs:454-696 | checkout by checkout, a start leaves path and flag as they were, takes the clearing step of the run model, or re-points an unflagged Task whose directory is not there; on a board that names torn checkouts only with a flag it clears flagged Tasks only and re-points none |
| `Quarantine.ClearingIsTheStep` | src-tauri/src/app_core.rs:470-653 | where a start forgets a checkout it leaves exactly the Task the clearing step leaves, notes included |
| `Conversations.EditedField` | src-tauri/src/domain/conversation.rs:91-116 | an edit gives each named field the last value asked for and keeps the others |
| `Conversations.OnlyApprovedFields` | src-tauri/src/domain/conversation.rs:109-116 | nothing else about the Task changes |
| `Conversations.ApplyChanges` | src-tauri/src/conversation_actions.rs:690-694 | the loop applies the approved changes in order |
| `Conversations.AppliedIffConsistent` | src-tauri/src/conversation_actions.rs:684-689 | after applying, every change is found in place exactly when no two disagree on a field |
| `Conversations.ProposedEdit` | src-tauri/src/domain/conversation.rs:295-333 | a proposed edit shows the Task's own values, repeats none, names no field twice and yields exactly what was asked |
| `Conversations.SetStatusAt` | src-tauri/src/conversation_actions.rs:375-387 | a status change marks the action it names, keeps an outcome once set, and changes no other action |
| `Effects.CreatedAsApproved` | src-tauri/src/conversation_actions.rs:401-447 | a created Task has exactly what the Human approved and nothing of a run, a checkout or a review |
| `Effects.CreatedComesLast` | src-tauri/src/domain/task.rs:1025-1032 | its position is after every card of the Backlog |
| `Effects.CreatedComesNext` | src-tauri/src/domain/task.rs:1025-1032 | and one past the last of them, or the first in an empty Backlog |
| `Effects.EditIsCompareAndSet` | src-tauri/src/conversation_actions.rs:682-696 | an edit changes the store only while the Task holds every value shown, and then only in the approved fields |
| `Effects.MoveIsCompareAndSet` | src-tauri/src/conversation_actions.rs:533-582 | a move changes the store only from the column shown, under the lease, to the end of the Backlog |
| `Effects.RetryObserves` | src-tauri/src/conversation_actions.rs:401-504 | where the effect of any operation is visible, an attempt changes nothing and reports it done, or fails exactly when the Project is missing or the lease is busy |
| `Effects.EffectBecomesVisible` | src-tauri/src/conversation_actions.rs:401-722 | an attempt at any operation that changes the store found its effect absent and leaves it visible, and "done" is said only of a visible effect |
| `Effects.RetriedEditIsRefused` | src-tauri/src/conversation_actions.rs:684-694 | an edit that asks for two titles is made, and its retry is then refused for good |
| `Effects.DoneLastsIff` | src-tauri/src/conversation_actions.rs:401-722 | what an attempt reports done is in every version of the file exactly when the effect was not there before it, or it was in every version already |
| `Effects.ConfirmedFileLasts` | src-tauri/src/conversation_actions.rs:401-722 | on a file whose one possible version is what memory holds, whatever is reported done is in every version |
| `Effects.EffectTouchesOne` | src-tauri/src/conversation_actions.rs:674-722 | an attempt changes its own target only, except that a queue entry may give other Queue cards of its Project another position |
| `Effects.ApprovedEntryBinds` | src-tauri/src/conversation_actions.rs:615-664 | an approval that queues a Task binds it to exactly the input and request shown, and only if it never ran that approval |
| `Effects.RequestIsCarried` | src-tauri/src/conversation_actions.rs:466-503 | an additional request is reported done only if the Task carries it |
| `Attempts.DeclineMeans` | src-tauri/src/conversation_actions.rs:401-722 | every refusal for good names its cause: what of the operation, the Task, its records or git it rests on |
| `Attempts.DoneNames` | src-tauri/src/conversation_actions.rs:401-722 | whatever is reported done is reported of the Task named, by the title it then has, and only an enqueue answers that a Task was queued already, of one that was |
| `Attempts.MoveWrites` | src-tauri/src/conversation_actions.rs:533-599 | a move that changes the store puts the Task after every card of the Backlog, with the traces of its runs cleared, one move on its log and no binding, and is otherwise as it was |
| `Approvals.EffectOnlyWhenApproved` | src-tauri/src/conversation_actions.rs:285-322 | the Task store changes only when the Conversation file already says Approved |
| `Approvals.DecideIsSound` | src-tauri/src/conversation_actions.rs:285-361 | wherever a call dies and whatever its saves answer, each action keeps at most one decision and one outcome, agreeing with its status |
| `Approvals.DecideStatus` | src-tauri/src/conversation_actions.rs:285-361 | the only status changes are a decision and then one outcome, of the action named |
| `Approvals.RetrySettles` | src-tauri/src/conversation_actions.rs:310-361 | from any crash point, approving again with working stores ends in Applied or Refused |
| `Replies.ReplyMeans` | src-tauri/src/conversation_actions.rs:285-373 | what every reply of every call means for the file, wherever the call dies and whatever its saves answer: success, an unknown action, one not awaiting, one approved already, an unsaved record, or a failed attempt that left the action Approved |
| `Replies.TrueIff` | src-tauri/src/conversation_actions.rs:285-373 | an approval is answered with success exactly when the action was Applied already, or every save it needed was confirmed and the file says Applied or Refused; a rejection exactly when the confirmed file says Rejected |
| `Replies.DecideRecords` | src-tauri/src/conversation_actions.rs:285-361 | what the file gains from a call, line by line, and the status and outcome the action then carries, of exactly what the attempt was answered |
| `Replies.StoreChangesByAttempt` | src-tauri/src/conversation_actions.rs:310-322 | the Task store changes by the one attempt, made exactly when the file says Approved, confirmed if this call wrote it, and by nothing else |
| `Approvals.RunIsSound` | src-tauri/src/conversation_actions.rs:201-373 | decisions, outcomes and statuses agree over every run of calls, proposals, messages, crashes and failed saves |
| `Approvals.TerminalIsFinal` | src-tauri/src/conversation_actions.rs:297-321 | Applied, Rejected and Refused never change again in any run |
| `Approvals.RecordMatchesEffect` | src-tauri/src/conversation_actions.rs:285-373 | for any operation whose target nobody else touches, Refused or Rejected means untouched, Applied means the effect is there, and Approved means one or the other |
| `Approvals.AppliedAtMostOnce` | src-tauri/src/conversation_actions.rs:401-722 | however often any operation is retried, its target ends as it was or as exactly one uninterrupted attempt leaves it |
| `Survival.MadeAtMostOnce` | src-tauri/src/conversation_actions.rs:401-722 | even when a power loss brings back older versions between tries, the target is in memory and in every version of its file as it was, or as exactly one attempt on that leaves it |
| `Survival.AppliedLasts` | src-tauri/src/conversation_actions.rs:310-361 | while no Task save of a run is left in doubt, Applied means that every version of the Task file shows the effect |
| `Survival.AppliedMayNotLast` | src-tauri/src/conversation_actions.rs:310-361 | a Task write in place but not confirmed and then a retry end in Applied, with a version of the Task file possible that lacks the effect |
| `ApprovalDesks.Desk.PersistThenCommit` | src-tauri/src/conversation_actions.rs:365-373 | the caller's copy never advances beyond a confirmed save |
| `ApprovalDesks.Desk.CreateTask` | src-tauri/src/conversation_actions.rs:401-447 | carries out the specified creation, which recognises its reserved id |
| `ApprovalDesks.Desk.EditTask` | src-tauri/src/conversation_actions.rs:674-722 | carries out the specified compare-and-set edit |
| `ApprovalDesks.Desk.MoveTask` | src-tauri/src/conversation_actions.rs:533-599 | carries out the specified compare-and-set move |
| `ApprovalDesks.Desk.EnqueueTask` | src-tauri/src/conversation_actions.rs:615-664 | carries out the specified queue entry under the lease, with the queue's own check and numbering loop |
| `ApprovalDesks.Desk.ExecuteRequest` | src-tauri/src/conversation_actions.rs:466-503 | carries out the specified request, which counts a queued Task as done only if it carries it |
| `ApprovalDesks.Desk.DecideAction` | src-tauri/src/conversation_actions.rs:285-361 | carries out the protocol whose answers `Replies.ReplyMeans` describes, and an `Ok` answer means the caller's copy is the file's |
| `Runs.Launch` | src-tauri/src/queue/executor.rs:4824-4890 | the launch records the run, its approval, checkout and handoff and ends the binding in one write |
| `Runs.Amend` | src-tauri/src/queue/executor.rs:4757-4890 | the start write launches, fails closed or changes nothing, in the code's order of checks |
| `Runs.StartWrites` | src-tauri/src/queue/executor.rs:4757-4890 | for every answer the start write can meet, which launches start a run and what is then on record, which fail the Task closed, for which reason and with what on its log, and which leave it exactly as it was |
| `Runs.PromotionKeepsBinding` | src-tauri/src/queue/manager.rs:141-147 | a promotion takes a queued Task into progress with the traces of its runs cleared and nothing else changed, its binding included |
| `Runs.MovesAreSaid` | src-tauri/src/domain/task.rs:1168-1188 | what any change of column leaves, field by field: the binding ended, one move on the log, an approval withdrawn when work resumes, and after a reset no trace of a run |
| `Runs.AnApprovalRunsOnce` | src-tauri/src/lifecycle.rs:866-898 | over any history of entries, starts, moves and retried approvals, no approval ran twice and no Task is bound to one it ran |
| `Runs.EvidenceOnlyGrows` | src-tauri/src/queue/executor.rs:4858-4866 | no step removes an executed approval |
| `Runs.EvidenceStep` | src-tauri/src/queue/executor.rs:4858-4866 | one write adds at most one executed approval, and only a start adds any |
| `Runs.EvidenceMeansApproved` | src-tauri/src/queue/executor.rs:4773-4866 | a run recorded under an approval is the run it was made for, of exactly the input approved, in the checkout named |
| `Runs.RunsAreDistinctIff` | src-tauri/src/queue/executor.rs:4850-4862 | over a whole history no two executed approvals share a run number exactly when no approved start finds its next number already on an executed approval |
| `Runs.AbreastReusesNone` | crates/slashit-activity/src/lib.rs:542-560 | and none does while the log shows a run as late as every executed approval's, short of the largest number |
| `Runs.StaleApprovalFailsClosed` | src-tauri/src/domain/task.rs:1110-1121 | a binding whose input or run no longer matches starts nothing: the Task fails closed with its work kept |
| `Executions.ShownAt` | src-tauri/src/conversation_executions.rs:153-166 | an action that can start work is shown in its place unless ten later ones exist |
| `Executions.ShownFrom` | src-tauri/src/conversation_executions.rs:153-166 | nothing else is shown, and the order is the actions' own |
| `Executions.RunsOnlyByEvidence` | src-tauri/src/conversation_executions.rs:195-282 | a run is shown only for a record naming both, Running only for the live latest run, and a foreign Task looks missing |
| `Executions.StateMeans` | src-tauri/src/conversation_executions.rs:288-309 | in terms of the log alone: recovery exactly on a recovery record of the run, failed on a failure without one, completed on a completion without either, otherwise running exactly when live and unconfirmed when not |
| `Executions.ViewMeans` | src-tauri/src/conversation_executions.rs:195-282 | what a shown execution says, from the Task's own records: state and run of the one record under the approval, or waiting, failed, ambiguous, pending or without evidence; the first answer on record as its result once it ended; and exactly when it asks for a person |
| `Executions.AttentionMoves` | src-tauri/src/conversation_executions.rs:341-368 | how each further record moves the Task's attention to a run or away from it |
| `Executions.LostWorkerIsShown` | src-tauri/src/app_core.rs:838-962 | a run whose Worker was lost is shown as needing recovery, and asks for a person, once the next start has looked at its Task |
| `Executions.AmbiguousOnlyWhenBound` | src-tauri/src/conversation_executions.rs:222-251 | on a Task the writers can produce, Ambiguous means bound, not run, and neither waiting nor failed; the other two ambiguous cases cannot happen |
| `Executions.PromotedLooksAmbiguous` | src-tauri/src/queue/manager.rs:141-147 | and that case is reached by every promotion of a bound Task |
| `Executions.OtherRunsDoNotCount` | src-tauri/src/conversation_executions.rs:288-334 | histories that agree on a run's own records give it the same state and result |
| `Executions.RecordKeepsEvidence` | crates/slashit-activity/src/lib.rs:401-413 | recording about another run costs a run a record exactly when the entry is no repeated once-only one, the log is full without a tool call and its oldest entry is the run's |
| `Executions.RecordKeepsShown` | src-tauri/src/conversation_executions.rs:288-334 | recording about something else changes a run's shown state, or its result, exactly when it pushes out the oldest entry and the state, or the result, hangs on that entry alone |
| `Executions.CompletedIsForgotten` | crates/slashit-activity/src/lib.rs:401-413 | a completed run followed by a full log of moves is shown as unconfirmed after one more move |
| `Executions.RunNumberIsReused` | crates/slashit-activity/src/lib.rs:542-560 | a queue entry pushes the last record of a finished run off a full log, the next approval runs under the same number, and the finished approval is then shown as running |
| `Executions.StateOnlyRises` | src-tauri/src/conversation_executions.rs:288-309 | while the log only grows, a run's state, which `Executions.StateMeans` gives, only rises |
| `Executions.AttentionMeans` | src-tauri/src/conversation_executions.rs:341-368 | attention belongs to a run exactly when some own milestone has nothing after it that takes it elsewhere |
| `Executions.LatestRunIsMax` | src-tauri/src/conversation_executions.rs:372-379 | no record names a later run, and one names that one |
| `Executions.Bound` | src-tauri/src/conversation_executions.rs:383-390 | shown text is the first thousand characters, marked whole exactly when that is all, with the length recorded or counted up to 32 bits |
| `Startup.StartupIsAFixedPoint` | src-tauri/src/app_core.rs:454-696 | with unchanged disk and git facts a second start, in whatever order it loads the board, changes no Task but for which other Task a message names, and not even that in the same order |
| `Startup.RequeuedOnlyUnstarted` | src-tauri/src/app_core.rs:839-874 | an InProgress Task returns to Queue exactly when it has no handoff, no unfinished run and no coding phase |
| `Startup.StartupLeavesNothingStarted` | src-tauri/src/app_core.rs:817-911 | no Started stage survives, and only a resolved handoff can be ready to run |
| `Startup.StartupRecords` | src-tauri/src/app_core.rs:817-965 | everything a start writes about runs: exactly a Task whose Worker was lost is held for recovery, with one milestone that names its run and the reason; exactly one whose run never began goes back to Queue with one interruption; every other keeps its log and handoff |
| `Startup.ReconcileSays` | src-tauri/src/app_core.rs:454-696 | path, flag and message of every reconciled Task, in terms of what the disk and git say of it |
| `Startup.ClearedIffProvenAbsent` | src-tauri/src/app_core.rs:470-653 | a recorded checkout is forgotten exactly on proven absence with no handoff pending, and a flagged one needs the stronger proof |
| `Startup.RepointedOnlySafely` | src-tauri/src/app_core.rs:609-637 | a Task is pointed elsewhere only when unflagged, its directory is gone, it shares its branch with none, and git vouches for a directory that is there |
| `Startup.FlaggedIsClearedOrHeld` | src-tauri/src/app_core.rs:486-568 | an interrupted cleanup is cleared on proof or stays quarantined, and is not run either way |
| `Startup.Owner` | src-tauri/src/worktree/ownership.rs:214-256 | a Task shares its branch exactly when another recorded Task has the same branch in what may be the same repository |
| `Startup.MigrateRun` | src-tauri/src/app_core.rs:838-897 | the run and stage of an interrupted Worker are settled as `Startup.StartupRecords` says, and a change is reported |
| `Startup.MigrateTask` | src-tauri/src/app_core.rs:817-911 | migration as specified, reported as a change exactly when the Task differs |
| `Startup.LoadBoard` | src-tauri/src/app_core.rs:431-696 | the loops compute the specified board and list for saving exactly the Projects with a Task that was migrated or written again |
| `Startup.RevisitedMeans` | src-tauri/src/app_core.rs:454-696 | which Tasks a start writes again: those of whose checkout it decides something, but for a lock it has already noted |
| `Startup.ChangedIsListed` | src-tauri/src/app_core.rs:454-696 | so every Project with a changed Task is saved again |
| `ProjectDeletion.RunIsSound` | src-tauri/src/commands/project.rs:299-582 | lists, records, stages and doubt stay consistent over every run of deletions, retries, saves, crashes and starts, also where the filesystem can never confirm a write |
| `ProjectDeletion.FilesGoOnlyWhenGone` | src-tauri/src/app_core.rs:301-410 | at every step but a retry's drop of a board, a board or Conversation is deleted only when no configuration the disk may still hold names the Project, so never a live or held-back one's |
| `ProjectDeletion.LosesIff` | src-tauri/src/commands/project.rs:484-553 | a step deletes a file of a Project some version names exactly when it is a retry's drop of a board whose Project the file still names, or, in a process that could not read it in full, some version does |
| `ProjectDeletion.RunLosesNothingIff` | src-tauri/src/commands/project.rs:299-582 | a whole run deletes no such file exactly when it takes no such step |
| `ProjectDeletion.TrustedRunLosesNothing` | src-tauri/src/commands/project.rs:484-553 | and it takes none while every retry is asked in a process that read the configuration in full and does not hold the Project back |
| `ProjectDeletion.TaskRecordGoesLast` | src-tauri/src/commands/project.rs:497-553 | a Task cleanup record goes only when the board is gone or the Project is shown present |
| `ProjectDeletion.TalkRecordGoesLast` | src-tauri/src/commands/project.rs:555-574 | likewise for the Conversation's record |
| `ProjectDeletion.StartFinishes` | src-tauri/src/app_core.rs:301-410 | a trusted start whose unlinks succeed leaves no record, and no file unless the Project is live, when each leftover file is on record |
| `ProjectDeletion.StraightDeletionIsComplete` | src-tauri/src/commands/project.rs:299-582 | a confirmed deletion nothing hinders leaves no file, no record and no configuration entry of the Project in any version, and every other Project as it was |
| `ProjectDeletion.UnsynchronizedDeletionWaits` | src-tauri/src/config/storage.rs:1115-1121 | where the filesystem confirms nothing the same deletion takes the Project off the lists and stops at the barrier, with every file and both records in place |
| `ProjectDeletion.RefusedDeletionUndoes` | src-tauri/src/commands/project.rs:405-470 | a deletion refused before the configuration was written leaves the Project as it was, and its records go as far as they can be cleared, the Task record first |
| `ProjectDeletion.FailedLegsStop` | src-tauri/src/commands/project.rs:484-582 | wherever a deletion fails after the configuration was written it ends there, and what it has not reached stays with the record that speaks for it |
| `ProjectDeletion.RetryRemarks` | src-tauri/src/commands/project.rs:484-553 | a retry puts the Task record back before it deletes the board, clears it afterwards and touches no Conversation |
| `ProjectDeletion.StartFinds` | src-tauri/src/config/storage.rs:1095-1121 | what a start reads, and what it may rely on: a configuration read in full, and where records are pending confirmed |
| `ProjectDeletion.SettlingMeans` | src-tauri/src/app_core.rs:301-410 | what a start does with one record of each kind: nothing for a Project held back or a start not trusted; for a live one it clears the record; for any other it deletes the file of that kind first |
| `ProjectDeletion.RunStaysCovered` | src-tauri/src/commands/project.rs:405-582 | over every run, once a Project's creation is confirmed, each of its files is on record or every version of the configuration names it |
| `ProjectDeletion.InterruptedDeletionFinishes` | src-tauri/src/app_core.rs:301-410 | so wherever a run is cut short, the next trusted start whose unlinks succeed leaves no record of a Project it does not hold back, and no file unless it is live |
| `ProjectDeletion.RetriedDeletion` | src-tauri/src/config/storage.rs:1115-1121 | a retry the barrier lets through deletes the board, and no version names the Project exactly when the file as it stands does not, or, where it could not be read in full, when none did before |
| `ProjectDeletion.UnrecordedIsCertain` | src-tauri/src/commands/project.rs:405-448 | with no Conversation record of the Project, the file as it stands says the same as every version the disk may hold |
| `ProjectDeletion.UntrustedRetryLosesABoard` | src-tauri/src/commands/project.rs:484-553 | a held-back Project, or any configured one in a process that could not read the configuration, loses its board to a retried deletion |
| `ProjectDeletion.SettleRecords` | src-tauri/src/app_core.rs:362-400 | the loop over the records settles each that can be, and deletes no board of a Project that may still exist |
| `PrStatuses.ChecksMean` | src-tauri/src/pr_status.rs:192-221 | which of GitHub's words make an entry passing, failing or running, whatever its type and without one; any other word or type leaves it unreadable |
| `PrStatuses.SummarizeChecks` | src-tauri/src/pr_status.rs:239-275 | what each overall state means in those words: Passing needs every entry to say one that passed, Failing one that failed, Pending the rest running, Unreadable anything else; and which failing names are kept and counted |
| `PrStatuses.NamesInOrder` | src-tauri/src/pr_status.rs:239-275 | failing names are in the order in which a check first fails under them |
| `PrStatuses.WaitEarned` | src-tauri/src/pr_status.rs:444-449 | the wait is min(300·2^(k-1), 3600) seconds for every k, whatever the clamp |
| `PrStatuses.RecordedMeans` | src-tauri/src/pr_status.rs:644-775 | what one answer makes of the cache: nothing of one older than that on record, which its caller is told; otherwise the latest entry, what was read before it kept by a failure, a hold from a rate limit alone, and no other pull request touched |
| `PrStatuses.PollDueMeans` | src-tauri/src/pr_status.rs:569-635 | a hold lasts until its time, and a background poll is due exactly while nobody asks, nothing holds and the latest attempt is 300 seconds old |
| `PrStatuses.CacheOnlyAdvances` | src-tauri/src/pr_status.rs:706-736 | in whatever order answers arrive, attempt times never go back, a good status is never lost and no other pull request changes |
| `PrStatuses.FailuresKeepTheStatus` | src-tauri/src/pr_status.rs:706-736 | failures leave the last good status and its time |
| `PrStatuses.OkIsOnRecord` | src-tauri/src/pr_status.rs:644-659 | a caller is told Ok only of the answer now on record |
| `PrStatuses.RateLimitedWait` | src-tauri/src/pr_status.rs:752-775 | after k rate-limited answers in a row the hold ends that wait after the last, even past the saturating counter |
| `PrStatuses.OtherAnswersEndTheStreak` | src-tauri/src/pr_status.rs:770-773 | any other recorded answer lifts the hold |
| `PrStatuses.ShownIgnoresListing` | src-tauri/src/pr_status.rs:681-687 | the entries shown are the linked ones with an entry, sorted, each once, however they are listed |
| `PrStatuses.StatusOwner.NoteBackoff` | src-tauri/src/pr_status.rs:752-775 | the streak as specified |
| `PrStatuses.StatusOwner.Record` | src-tauri/src/pr_status.rs:706-736 | records unless a newer attempt is on record, and says which |
| `PrStatuses.StatusOwner.Settle` | src-tauri/src/pr_status.rs:644-659 | an answer the cache refused is not handed back |
| `PrStatuses.StatusOwner.RetainBackoff` | src-tauri/src/pr_status.rs:743-748 | linked pull requests keep their hold and the others lose theirs |
| `PrStatuses.StatusOwner.EntriesFor` | src-tauri/src/pr_status.rs:681-687 | the entries shown, in order |
| `PrRequests.OneFetchAtATime` | src-tauri/src/pr_status.rs:538-591 | in every interleaving and whatever the clock does at most one fetch runs, and while it is not set back recorded background polls start 300 seconds apart |
| `PrRequests.HeldIsNeverFetched` | src-tauri/src/pr_status.rs:553-563 | a fetch starts only on a pull request that was free at its last check and that nothing has held since, and so is free now unless the clock was set back |
| `PrRequests.EveryAnswerCounts` | src-tauri/src/pr_status.rs:644-659 | with a clock that only moves on, every answer is recorded and attempt times never decrease |
| `PrRequests.JoinedReturnsAfterRecord` | src-tauri/src/pr_status.rs:544-552 | a joined caller returns exactly when its attempt has settled, retries when it was dropped, and waits only while its owner is at work |
| `PrRequests.RecordedOnlyByRelease` | src-tauri/src/pr_status.rs:482-505 | an attempt counts as settled only by the release of a caller whose answer is on record, or was superseded because the clock was set back |
| `PrRequests.CancelledFreesTheClaim` | src-tauri/src/pr_status.rs:496-505 | cancelling a fetch frees the claim, and a joiner claims a new attempt unless the pull request is held |
| `PrRequests.CallFetches` | src-tauri/src/pr_status.rs:538-591 | a call is refused while held, joins the attempt in flight, or claims a new one and fetches under it |
| `PrRequests.FetchIsAnswered` | src-tauri/src/pr_status.rs:553-567 | a fetch's answer goes on record, its attempt settles, the claim is free, and its caller is told that answer unless a newer one is on record |
| `Reads.ListingDependsOnProject` | src-tauri/src/coordinator_reads.rs:127-131 | the listing depends on this Project's Tasks alone, not on iteration order or other Projects |
| `Reads.ListedInOrder` | src-tauri/src/coordinator_reads.rs:127-131 | listed Tasks are in the order of their positions, and at one position of their ids |
| `Reads.RowSays` | src-tauri/src/coordinator_reads.rs:158-168 | a row is its Task's id, the first two hundred characters of its title, status, priority and category |
| `Reads.PageSays` | src-tauri/src/coordinator_reads.rs:141-180 | a page holds the rows from its offset, ten unless asked for otherwise, at least one and at most twenty, and says how many there are and where the next begins |
| `Reads.EachMatchOnce` | src-tauri/src/coordinator_reads.rs:141-180 | each matching Task has exactly one row |
| `Reads.PagesJoinUp` | src-tauri/src/coordinator_reads.rs:141-180 | following the next offset with any limits terminates and gives every matching row once, in order |
| `Reads.ReadAllPages` | src-tauri/src/coordinator_reads.rs:141-180 | a reader that follows the pages ends with exactly those rows |
| `Reads.UnfilteredIsTheIndex` | src-tauri/src/coordinator_reads.rs:134-139 | with no filter the pages are the Task index |
| `Reads.ReadsDoNotInterfere` | src-tauri/src/coordinator_reads.rs:348-378 | stores that agree on this Project's Tasks answer every read alike |
| `Reads.ForeignLooksMissing` | src-tauri/src/coordinator_reads.rs:75-81 | a Task of another Project answers like one that does not exist, to every read |
| `Reads.TaskSays` | src-tauri/src/coordinator_reads.rs:75-124 | what a read of one Task shows, bounded text marked as cut, and that any id not of the Project is not found |
| `Reads.TimelineSays` | crates/slashit-activity/src/lib.rs:686-711 | the timeline is by time, and at one instant in the order of the log with the creation first |
| `Reads.ActivitySays` | src-tauri/src/coordinator_reads.rs:184-245 | activity is the last milestones, fifteen unless asked for otherwise and at most thirty, with the number of earlier ones |
| `Reads.LinksSay` | src-tauri/src/coordinator_reads.rs:268-322 | a Task's first five pull requests, each with what the cache last read of it and whether the latest attempt failed |
| `Reads.ShowEvents` | src-tauri/src/coordinator_reads.rs:204-228 | the counting loop shows a result's text exactly when fewer than three results follow it |
| `Reads.ResultShownIff` | src-tauri/src/coordinator_reads.rs:204-228 | a result shows its text exactly when fewer than three results come after it |
| `Reads.NewestResultsAreShown` | src-tauri/src/coordinator_reads.rs:200-228 | one read shows the text of the newest three results, or of all of them |
| `Reads.CountTasks` | src-tauri/src/coordinator_reads.rs:324-345 | the counts per status are exact and the total is the Project's Tasks |
| `Reads.ProjectSays` | src-tauri/src/coordinator_reads.rs:324-345 | the overview counts the Project's Tasks, in all and in each status that has any |
| `Reads.Drive` | src-tauri/src/coordinator_reads.rs:388-437 | at most five runs, the first run that asks for no read answers, evidence is the first three results, the remaining budget never goes below zero, and each run gets the previous guard |
| `ReleaseChannels.PrintParses` | src-tauri/src/release_channel.rs:58-83 | every version of 64-bit numbers reads back from its printed form, and no other does |
| `ReleaseChannels.ParsePrints` | src-tauri/src/release_channel.rs:58-77 | every accepted text is exactly how its version prints |
| `ReleaseChannels.ReadLineIff` | src-tauri/src/release_channel.rs:99-121 | a line declares a version and channel exactly when it is the printed version and the channel's name with white space between them and any around them |
| `ReleaseChannels.SignificantSays` | src-tauri/src/release_channel.rs:99-103 | exactly blank lines and lines whose first other character is # are passed over, in order |
| `ReleaseChannels.ParseDeclarations` | src-tauri/src/release_channel.rs:97-125 | accepts exactly the texts whose significant lines each declare a later version, and answers them |
| `ReleaseChannels.ChannelIsTheDeclaredOne` | src-tauri/src/release_channel.rs:128-133 | a version has a channel exactly when a line declares it, and then no other |
| `ReleaseChannels.PrintedReadsBack` | src-tauri/src/release_channel.rs:97-125 | printed, accepted declarations read back as themselves and as nothing else |

## Left out

Stated with less than the code does:

- Cleanup.NextIsSafeIff: takes for granted that a checkout path is named by one Task, that git's refusal leaves the checkout as it was, and that a caller's amendments leave checkout paths and cleanup flags alone; a checkout the user moved or removed outside SlashIt is only in `Startup`, and `Quarantine.StartIsMadeOfSteps` shows that while quarantines are kept a start adopts or clears no other.
- Approvals.AppliedAtMostOnce: is about process crashes; `Survival.MadeAtMostOnce` is about power losses too.
- Approvals.RecordMatchesEffect: leaves out an edit whose changes disagree about a field, for which it is false.
- Terminalization.TerminalizeWrites: is about SlashIt's own finishes, which record nothing of this model beside the end and at most mark the Task complete; `Terminalization.AmendedFacts` is about other amendments that leave checkouts and flags alone and move no Task to another Project.
- ProjectDeletion.RunIsSound: an unlink is durable when it returns, and a cleanup record is durable when its write returns.
- PrRequests.OneFetchAtATime: one background pass runs at a time, as the executor's loop does.
- Reads.TimelineSays: an entry's sequence number is its place in the log.
- ReleaseChannels.ParseDeclarations: a carriage return before a line feed is white space here, which the code drops by trimming.

Not modelled:

- Running git and `gh`, the filesystem, clocks and process groups: their answers are parameters or steps with arbitrary outcomes, within the assumptions above.
- The approved-input digest: any function of the Task and the request; no result needs it to be injective.
- The iteration order of a hash map: a parameter `keys`, and results that do not depend on it are proved for every order.
- JSON, TOML and paths, and the wording of messages: refusals and notes are told apart by what they say, a lock notice by a tag because startup tests for it, and reads take the text of a message as a function of it.
- `updated_at`, report counters and log output.
- Task fields no rule here reads, such as subtasks, complexity and external links; links and creation time reach `Reads` as functions of the Task.
- Overflow of a column position past 31 bits, and of a count of failing checks past 32 bits.
- Import recovery and the inspection of an existing checkout: the set of held-back Projects and the verdict on a checkout are inputs.
- Lengths and trimming of proposed titles, descriptions and requests, which are checked before a proposal exists.
- The user interface, the command line, IPC, the daemon and the executor's loop beyond the write that starts a run.
