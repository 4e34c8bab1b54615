# Verification of the Tidebreak command line's protocols

A Dafny model of the parts of the Tidebreak command line whose correctness spans crashes, retries
and several functions, with proofs of what they promise.

Three are protocols over durable state.

- **The headless folder executor.** It claims parked client tool calls at the server, runs them
  through the host broker, and publishes one result for each. `ExecutorProtocol` states its rules as
  a machine over durable state and proves what every legal history keeps, with a crash between any
  two steps and other executors acting at any time. `FolderExecution` is the executor's own code as a
  class; its `Valid` says that everything it has ever done is such a history. Every await consumes
  one entry of an arbitrary script: what others did meanwhile, how the request was answered, whether
  the process died. `ExecutorExamples` is a run of it.
- **Connected-folder changes.** A change is begun in the product store, carried out by the broker
  under the change's identity, looked up, and finished. `AttachmentStore` and `HostBroker` are the two
  sides as values, `SagaProtocol` is every interleaving of programs that use them, and `FolderSaga` is
  the code of `connect` and `disconnect` over the same kind of script. `BrokerAccess` says what the
  broker gives, to whom, and what it never gives back; `FolderGrants` what the commands' requests do
  to folders and grants, their own and other people's; `FolderOutcomes` what an undisturbed change or
  command ends with. `FolderExamples` runs the code on new profiles.
- **Following a turn.** `EventFollowing` keeps a resume cursor over sockets that drop,
  `TurnGating` (in `TurnGate.dfy`) decides which frames belong to a turn and which one ends it, and
  `EventRendering` prints streamed text that may be restated.

Six are exact algorithms: argument quoting (`ArgumentQuoting`), credential scrubbing
(`MessageScrubbing`), the flags of `browser act` (`ActFlags`), spreadsheet column names
(`ColumnNames`), the budgeted workbook scan (`WorkbookScan`) and the skill catalog (`SkillCatalog`).

Objects whose methods update their fields are classes here, and each such method is proved against a
function of the old state; what the code promises is then proved about those functions, or as an
invariant over runs. The store and the broker are the other end of the folder commands' requests, each
request one transaction, so they are functions from state to state.

## Where the code does less than it says

The model follows the code. These are the places where a stated promise does not hold as stated; each
has an input on which it fails and the exact condition.

- *A change takes effect at the broker at most once.* The broker drops a completed receipt after 2048
  later completions. A run from a new profile lets one pending change alter the attachments twice
  (`OneChangeCanTakeEffectTwice`), and such a run continues every run in which a change waits to attach
  a live folder for the first time (`AForgottenChangeTakesEffectAgain`). A request changes the
  attachments exactly when its receipt is not retained, it is not refused, and the chat does not have
  what it asks for (`ChangesExactlyWhen`); completions under one identity are always more than 2048
  apart (`OneEffectPerChange`).
- *Disconnecting withdraws the approval exactly when the chat's subject is its only holder.* Whether
  it is the only holder is read off a listing; the revocation is another request, and by then the
  subject must also have registered the folder, under its only live registration. The approval goes
  exactly if both hold (`WhatADisconnectReports`). If nobody else acts the two requests meet one
  broker (`FolderCli.Disconnect`), and `DisconnectLeavesTheApproval` is a sole holder's disconnect
  that withdraws nothing.
- *Detaching leaves the approval standing when another conversation still holds it.* A revocation takes
  whatever others have of the folder when it is served. Their grants are among it exactly if they
  arrived after the listing (`WhatADisconnectTakes`), as in `DisconnectTakesALateArrival`. The folders
  of other chats go whenever the approval does; a sibling chat of the same project is one
  (`DisconnectTakesTheSiblingsFolder`).
- *A failed connect says that the approval was withdrawn.* It says so for any answered revocation, also
  one that revoked nothing: if nobody else acts, false exactly when the directory was known before and
  the subject could not have withdrawn it (`FolderCli.Connect`). `ConnectSaysWithdrawn` is such a run,
  in a chat that has as many folders as it may.
- *A failed connect withdraws its own approval.* It revokes without asking who else holds the folder,
  and takes what others have of it exactly if the folder is the subject's to withdraw
  (`WhatAConnectTakes`, `FolderCli.Connect`). `FailedConnectTakesTheFolderNextDoor` is such a run.
- *Every persisted receipt is driven to a terminal result.* Not if the chat was deleted after its call
  got a result elsewhere: no route answers for it any more, and every later sweep keeps the receipt
  (`FolderExecutor.Run`, `AReceiptStaysForGood`). These are exactly the receipts that a sweep leaves
  (`FolderExecutor.Sweep`).
- *Attaching to a turn exits on that turn.* When the replay is capped and the turn's start is not in it,
  the exit is on the attached turn exactly when no end was replayed before (`AttachWithoutItsStart`,
  `AttachCanExitOnTheWrongTurn`).
- *A scan marked truncated left cells unchecked.* A workbook that fills the limit exactly is marked too
  (`TruncationIsExact`, `AFullWorkbookIsMarked`).
- *A sheet reported clean has no bad cell.* Once the budget is spent, sheets are reported clean with no
  cell checked, as in `ACleanReportCanBeWrong`. A clean report is certain exactly for the sheets that
  were examined whole (`CleanMeansClean`).
- *A live frame is applied without moving the resume cursor*, says the documentation of the sequenced
  frame. The reader takes the position of every frame it can read. A stream that may drop anywhere
  still receives each journaled frame exactly once if and only if every live frame is stamped with the
  socket's place in the journal (`ExactlyWhenWellStamped`); a stamp ahead of it loses a frame
  (`AStampAheadLosesAFrame`). The server stamps the position its socket has come to, which is that
  place in every run (`TheServerStampsWell`).
- *A consent line shows the literal action.* The command and its arguments, yes; the directory and the
  staged files are not quoted, and their notes can be read in one way exactly when
  `NotesAreCertainExactlyWhen` says: two staged files never can.

## Model

| member | source | states |
|---|---|---|
| ExecutorProtocol.CallsOnlyGrow | crates/tidebreak-core/src/db/ops/client_execution.rs:194-260 | no step, the executor's or another's, changes the owner or the result of a server row once set |
| ExecutorProtocol.StepKeepsReceipts | crates/tidebreak-cli/src/folder_executor.rs:269-329 | every step keeps each receipt naming its own call and executor, its policy, and a claim behind whatever was dispatched or decided |
| ExecutorProtocol.StepKeepsClaims | crates/tidebreak-cli/src/folder_executor.rs:347-367 | every step keeps a pending call of this executor operable: its receipt holds the server's lease |
| ExecutorProtocol.StepKeepsHostOps | crates/tidebreak-cli/src/folder_executor.rs:269-329 | every step keeps host operations behind the dispatch fence and at most one for a call that is not replayed |
| ExecutorProtocol.StepKeepsAnswers | crates/tidebreak-cli/src/folder_executor.rs:418-458 | every step keeps each broker answer behind a host operation, and each published source behind an import call the broker completed |
| ExecutorProtocol.StepKeepsVerdicts | crates/tidebreak-cli/src/folder_executor.rs:369-415 | every step keeps one saved outcome per call, and sends nothing that was not saved |
| ExecutorProtocol.StepKeepsBacked | crates/tidebreak-cli/src/folder_executor.rs:418-540 | every step keeps a saved completion backed: by an answer of the broker to that call and, for an import, by its document |
| ExecutorProtocol.StepKeepsGone | crates/tidebreak-core/src/db/ops/conversation.rs:1417-1444 | every step keeps deleted only chats whose calls all have their result |
| ExecutorProtocol.HistoryKeepsInv | crates/tidebreak-cli/src/folder_executor.rs:41-74 | the invariant holds after every legal history, crashes and other executors included |
| ExecutorProtocol.AtMostOneHostOperation | crates/tidebreak-cli/src/folder_executor.rs:269-329 | over every history, a folder listing, a listing of the connected folders or a file read reaches the host at most once, an access request and a write-back never, and nothing without this executor's claim |
| ExecutorProtocol.OnlyReadsAreClosedOut | crates/tidebreak-cli/src/folder_executor.rs:269-278 | over every history, the outcome that says a call was interrupted is saved only for a listing or a read |
| ExecutorProtocol.AfterACrash | crates/tidebreak-cli/src/folder_executor.rs:617-629 | over every history, after a crash a dispatched call is run again exactly if it is an import, a write-back or an access request, and closed out as interrupted exactly if it is a listing or a read |
| ExecutorProtocol.ResultsAreSaved | crates/tidebreak-cli/src/folder_executor.rs:385-395 | a step of the executor gives a call its result only by a request under the lease that claim and receipt share, and the result is a saved outcome |
| ExecutorProtocol.SixToolsAreHandled | crates/tidebreak-cli/src/folder_executor.rs:594-610 | the executor answers for exactly six tools |
| ExecutorProtocol.ImportsConverge | crates/tidebreak-cli/src/folder_executor.rs:466-540 | over every history, what was added to the documents is the source of an import call this executor claimed, ran at the host and got completed by the broker; each once, however often imports ran |
| ExecutorProtocol.OnlyTheBrokerCompletes | crates/tidebreak-cli/src/folder_executor.rs:13-22 | over every history, a completion sent for a folder operation is an answer the broker gave for that call, an import is sent completed only with the document of its own chat and address present, and the only completion of any other call is `declined` for an access request |
| ExecutorProtocol.NothingIsStranded | crates/tidebreak-cli/src/folder_executor.rs:43-53 | in every reachable state a pending call owned by this executor has a receipt with exactly the server's claim |
| ExecutorProtocol.SavedOnlyGrows | crates/tidebreak-cli/src/folder_executor.rs:369-377 | what was saved once stays, in order, in the log of every longer history |
| ExecutorProtocol.FirstSavedOutcomeIsFinal | crates/tidebreak-cli/src/folder_executor.rs:369-415 | the first outcome saved for a call is the one every later resolve request carries |
| ExecutorProtocol.OneOutcomePerCall | crates/tidebreak-cli/src/folder_executor.rs:269-278 | all resolve requests ever sent for a call carry one outcome, saved before it was sent |
| FolderExecution.FolderExecutor.ClaimCall | crates/tidebreak-cli/src/folder_executor.rs:280-303 | a granted claim is held under the receipt's lease; if requests are served it is granted, or refused for a row that may not be claimed, or failed for a deleted chat; nothing but that row becomes this executor's |
| FolderExecution.FolderExecutor.Resolve | crates/tidebreak-cli/src/folder_executor.rs:385-395 | sends exactly the saved outcome and touches only its call; an accepted request leaves the call with this result; if the request is served, the call is resolved afterwards or its chat deleted |
| FolderExecution.FolderExecutor.Publish | crates/tidebreak-cli/src/folder_executor.rs:385-415 | sends the saved outcome once, saves nothing, and keeps the receipt of a deleted chat; if requests are served, the call ends settled: it has its result, or is another executor's, and no receipt, or its chat is deleted |
| FolderExecution.FolderExecutor.TerminalizeCall | crates/tidebreak-cli/src/folder_executor.rs:369-377 | saves this outcome and no other, sends nothing before it is saved, and touches only its call; if requests are served, it is saved and sent and the call ends settled |
| FolderExecution.FolderExecutor.RecoverAfterClaimConflict | crates/tidebreak-cli/src/folder_executor.rs:347-367 | touches only its call, whose receipt goes only if the call is resolved or another executor's; if requests are served, a call this executor could not claim ends settled |
| FolderExecution.FolderExecutor.RunCall | crates/tidebreak-cli/src/folder_executor.rs:418-458 | at most one host operation, none for the tools answered locally or a request that does not parse; a folder operation completes only with what the broker answered to that one operation; if requests are served, in a chat that is not deleted, the outcome of a listing or read that parses is that answer, word for word, and every other outcome is the one of its cause |
| FolderExecution.FolderExecutor.Import | crates/tidebreak-cli/src/folder_executor.rs:466-540 | at most one read; completed only with the broker's answer and the source among the documents; the documents gain nothing but that source, and nothing if it was there; if requests are served and the chat is not deleted, a request that parses is read once, and the outcome is the broker's answer if that completes and unavailable if not |
| FolderExecution.FolderExecutor.Execute | crates/tidebreak-cli/src/folder_executor.rs:269-329 | one receipt from wherever it stopped; if requests are served, a canonical call ends settled whatever others do, what is sent for it is what its receipt had saved, or that it was interrupted, or what running it came to: the broker's own answer to a listing, a read or an import; a claim that fails validation keeps claim and receipt |
| FolderExecution.FolderExecutor.Recover | crates/tidebreak-cli/src/folder_executor.rs:222-231 | drives every receipt, and takes up no other call; if requests are served, none is left but those of deleted chats, which are always kept, and every covered call is settled |
| FolderExecution.FolderExecutor.DiscoverCall | crates/tidebreak-cli/src/folder_executor.rs:245-266 | takes up a parked call only if it is uncovered, handled and unclaimed, and otherwise changes nothing |
| FolderExecution.FolderExecutor.Discover | crates/tidebreak-cli/src/folder_executor.rs:234-243 | makes only calls in scope this executor's, of the tools it handles; if requests are served, of the calls present before only those of other executors remain pending in scope |
| FolderExecution.FolderExecutor.Sweep | crates/tidebreak-cli/src/folder_executor.rs:198-218 | from any reachable state with canonical calls, one sweep whose requests are served leaves no receipt but those of deleted chats, and pending, of what was parked when it began, only what others own, whatever others park, claim, resolve and delete meanwhile; under every schedule a receipt of a deleted chat stays, and only calls in scope, of the tools it handles, or with a receipt become this executor's |
| FolderExecution.FolderExecutor.Run | crates/tidebreak-cli/src/folder_executor.rs:184-195 | sweeps that died and were started again keep the invariant, and every receipt of a deleted chat |
| FolderExecution.AllTakenUp | crates/tidebreak-cli/src/folder_executor.rs:234-266 | a pass over the whole listing leaves nothing this executor may take |
| FolderExecution.RecoverNext | crates/tidebreak-cli/src/folder_executor.rs:222-231 | work on one receipt leaves the receipts still to come as they are and the calls already settled settled |
| ExecutorExamples.AReceiptStaysForGood | crates/tidebreak-cli/src/folder_executor.rs:222-231 | a profile and a history after which no number of sweeps, answered at every request, removes a receipt |
| HostBroker.RegisterIsExact | crates/tidebreak-host-broker/src/broker.rs:1262-1355 | a registration adds its receipt, grants for its subject only, and a folder of the subject's own exactly when the directory had none |
| HostBroker.PerformMints | crates/tidebreak-host-broker/src/broker.rs:4347-4434 | an attach or detach ends in the attachment asked for, reports a change exactly when there was one, and touches no other subject's grants |
| HostBroker.ServeKeepsSound | crates/tidebreak-host-broker/src/broker.rs:266-281 | every modelled request, a purge included, keeps identities unique and live and set-aside folders apart |
| HostBroker.ServeKeepsKept | crates/tidebreak-host-broker/src/broker.rs:3918-3967 | every request keeps the droppable receipts equal to those of the last 2048 completions |
| HostBroker.CompletionsAreSpread | crates/tidebreak-host-broker/src/broker.rs:3898-3967 | over any run of requests, an identity completes again only more than 2048 completions later |
| HostBroker.ChangesExactlyWhen | crates/tidebreak-host-broker/src/broker.rs:4077-4134 | a request whose receipt is retained changes nothing; any other changes the attachments exactly when its subject speaks for the chat and it attaches, with consent, a live folder the chat does not have, or detaches one it has |
| HostBroker.RevocationIsExact | crates/tidebreak-host-broker/src/broker.rs:1575-1621 | a revocation removes the folder with its grants, its attachments and what was settled about it, or nothing: it goes exactly if the subject registered it and, while it is in reach, under its only live registration |
| HostBroker.PurgeIsExact | crates/tidebreak-host-broker/src/broker.rs:1648-1746 | purging a chat takes its grants, attachments and settled positions and unregisters exactly the folders it registered and nobody else has; other subjects lose only grants on those |
| HostBroker.NothingWasGranted | crates/tidebreak-cli/src/folder.rs:427-436 | a registration that does not read back as connected granted nothing, but leaves the chat attached at the broker |
| BrokerAccess.AttachesOnlyAsAsked | crates/tidebreak-host-broker/src/broker.rs:4347-4434 | of all requests, only a consented attach of a live folder or a pick of its directory brings a folder into a chat, that folder into that chat, and for a subject that speaks for it |
| BrokerAccess.GrantsOnlyOnesOwn | crates/tidebreak-host-broker/src/broker.rs:4569-4642 | of all requests, only an attach, a registration and a consent dialog mint, for the asking subject, in a chat it speaks for |
| BrokerAccess.AttachGives | crates/tidebreak-host-broker/src/broker.rs:4569-4642 | an attach mints only with consent, for a live folder, of the folder's default access, and nothing the subject already holds |
| BrokerAccess.RegistrationGives | crates/tidebreak-host-broker/src/broker.rs:1290-1343 | so does picking a directory; only a first registration does not look at what is there |
| BrokerAccess.WideningIsExact | crates/tidebreak-host-broker/src/broker.rs:1759-1812 | a consent dialog mints exactly the grant it is about, if it is missing and the chat has the folder |
| BrokerAccess.ArrivalIsExact | crates/tidebreak-host-broker/src/broker.rs:4569-4642 | a new attachment gives the subject the default access exactly if it never had any on the folder, and nothing otherwise; its position is settled from then on |
| BrokerAccess.ANarrowedPositionStaysNarrowed | crates/tidebreak-host-broker/src/broker.rs:282-297 | over every run of requests, a subject whose position on a folder is settled gets nothing more on it, except by a consent dialog about it or after its own chat was deleted |
| BrokerAccess.RevokedGrantIsExact | crates/tidebreak-host-broker/src/broker.rs:4490-4534 | revoking a grant takes that one, if it is the subject's, and never leaves the subject running commands where it may no longer read, if it did not before |
| BrokerAccess.DarkAndBack | crates/tidebreak-host-broker/src/broker.rs:278-281 | a folder out of reach is in no chat, and is back as it was when its directory is |
| BrokerAccess.AReceiptAnswersItsOwn | crates/tidebreak-host-broker/src/broker.rs:4077-4108 | a retained receipt answers exactly the mutation it was kept for, or that attach with consent if it is from before consent was recorded |
| BrokerAccess.OtherReceiptsAnswerTheirOwn | crates/tidebreak-host-broker/src/broker.rs:3969-4058 | a receipt of a registration or a revocation answers exactly that request, and nothing is done again |
| BrokerAccess.LookupAnswersItsOwn | crates/tidebreak-host-broker/src/broker.rs:1517-1573 | a lookup conflicts exactly if the identity names something else or the subject does not speak for the chat, and is unknown exactly if nothing is kept |
| BrokerAccess.AskedAgain | crates/tidebreak-host-broker/src/broker.rs:4077-4134 | a mutation that is asked for a second time changes nothing and is answered as the first time |
| AttachmentStore.BeginKeepsSound | crates/tidebreak-core/src/db/ops/root_attachment/begin.rs:22-200 | beginning keeps one pending change per chat, its revision and its projected row |
| AttachmentStore.BeginsExactlyWhen | crates/tidebreak-core/src/db/ops/root_attachment/begin.rs:22-200 | a change under a new identity begins exactly when the chat exists, waits for no other, is at the revision expected, and the limit of 32 folders and the revision counter leave room for it and for taking it back; otherwise the store stays as it is |
| AttachmentStore.FinishKeepsSound | crates/tidebreak-core/src/db/ops/root_attachment/finish.rs:21-179 | finishing keeps them too, and an ended change is completed exactly when it records the attachment it asked for |
| AttachmentStore.FinishAlwaysLands | crates/tidebreak-core/src/db/ops/root_attachment/finish.rs:58-115 | a pending change can always be finished by its executor: no store error and no wedged chat |
| AttachmentStore.FinishedProjection | crates/tidebreak-core/src/db/ops/root_attachment/finish.rs:117-141 | after finishing, the folder is in the chat exactly as asked for, or as before if the change failed, and no other folder moves |
| AttachmentStore.FailureUndoesTheIntent | crates/tidebreak-core/src/db/ops/root_attachment/finish.rs:117-141 | a change that fails leaves the projection, order included, as if it had never begun |
| AttachmentStore.RemovalIsExact | crates/tidebreak-core/src/db/ops/root_attachment/projection.rs:114-167 | removing a row removes that folder and no other |
| AttachmentStore.BegunOnce | crates/tidebreak-core/src/db/ops/root_attachment/begin.rs:22-200 | an identity that has a change gets that change back exactly for the same request, and begins nothing |
| AttachmentStore.EndedOnce | crates/tidebreak-core/src/db/ops/root_attachment/finish.rs:21-115 | a change that has ended stays as it is, and its executor is told whether it ended with this terminal |
| AttachmentStore.RevisionsCountChanges | crates/tidebreak-core/src/db/ops/root_attachment/projection.rs:114-167 | each transaction moves a chat's revision by one if it changes what the chat has, and not at all otherwise |
| SagaProtocol.StepKeepsInv | crates/tidebreak-cli/src/folder.rs:908-1054 | every step of any program keeps store, broker and the link between them sound |
| SagaProtocol.RunKeepsInv | crates/tidebreak-cli/src/folder.rs:908-914 | so does every run |
| SagaProtocol.InitIsSound | crates/tidebreak-cli/src/folder.rs:908-914 | a profile that has no changes and no receipts yet satisfies the invariant |
| SagaProtocol.CompletedExactlyAsSeen | crates/tidebreak-cli/src/folder.rs:1085-1145 | over every run, an ended change of this executor is completed exactly when its deciding lookup saw the attachment it asked for |
| SagaProtocol.TheFenceHolds | crates/tidebreak-core/src/db/ops/root_attachment/begin.rs:22-200 | over every run, a chat at the revision it had has the folders it had, in order |
| SagaProtocol.OneEffectPerChange | crates/tidebreak-cli/src/folder.rs:1008-1050 | over every run, two completions under one identity are more than 2048 completions apart |
| SagaProtocol.AForgottenChangeTakesEffectAgain | crates/tidebreak-host-broker/src/broker.rs:3898-3967 | every run in which a change waits to attach a live folder for the first time goes on to a run in which it changed the attachments twice while it still waits |
| SagaProtocol.OneChangeCanTakeEffectTwice | crates/tidebreak-host-broker/src/broker.rs:3898-3967 | such a run from a new profile |
| SagaProtocol.RecordsAreNew | crates/tidebreak-host-broker/src/broker.rs:4077-4134 | a request adds at most its own receipt, and a mutation that takes effect leaves one |
| FolderOutcomes.MutationTerminal | crates/tidebreak-cli/src/folder.rs:1090-1145 | a receipt becomes a terminal that reports what was seen and agrees with it, and says changed exactly if a completed receipt does; only an unknown one has none |
| FolderOutcomes.EveryLookupAnswers | crates/tidebreak-cli/src/folder.rs:1056-1083 | the lookup of a change never conflicts, and reports the broker's attachment, a refusal as failed, and the recorded flag |
| FolderOutcomes.CarriedIsLookedUp | crates/tidebreak-cli/src/folder.rs:994-1054 | once the broker has carried out a change, its lookup is known and reports the attachment |
| FolderOutcomes.NewChangeEnds | crates/tidebreak-cli/src/folder.rs:994-1054 | undisturbed, a change that was not carried out before is completed exactly when it detaches, or the folder is live or attached already, and is recorded changed exactly if the attachments are; a detach mints nothing |
| FolderOutcomes.FinishRecordsTheFlag | crates/tidebreak-cli/src/folder.rs:1090-1145 | a finished change records exactly the flag of its completed receipt, and unchanged for a refused one |
| FolderOutcomes.PendingIsUnique | crates/tidebreak-cli/src/folder.rs:1160-1177 | a chat waits for at most one change of this executor |
| FolderSaga.FolderCli.ConvergeBroker | crates/tidebreak-cli/src/folder.rs:994-1054 | a terminal comes from a lookup that saw what it says, also after a dispatch whose answer was lost; undisturbed, it is the one the carried-out change has |
| FolderSaga.FolderCli.FinishIntent | crates/tidebreak-cli/src/folder.rs:965-977 | finishing a converged change lands, whatever others did in between |
| FolderSaga.FolderCli.SettleChange | crates/tidebreak-cli/src/folder.rs:956-991 | success means completed, failure means failed for good; if nobody else acts, success means broker and chat both have what was asked for; undisturbed, store, broker and verdict are exactly those of the carried-out change |
| FolderSaga.FolderCli.DriveChange | crates/tidebreak-cli/src/folder.rs:915-953 | under every schedule, success means that a new change of this executor with this chat, folder and kind was finished after its deciding lookup saw what it asked for, and every request was mild: nothing of another subject or chat came or went; if nobody else acts, success means both sides agree; undisturbed, the verdict is exact: the change may begin at that revision, and then it ends as such a change does |
| FolderSaga.FolderCli.SettlePendingChanges | crates/tidebreak-cli/src/folder.rs:1160-1177 | never adds a pending change; stopping on a failed one strictly reduces them; success leaves none for the chat when at most 256 are pending, and then, undisturbed, both sides are exactly those with the chat's one change settled |
| FolderSaga.FolderCli.SoleGrantHolder | crates/tidebreak-cli/src/folder.rs:786-800 | whether every grant on the folder is the subject's in the broker that served the listing |
| FolderSaga.FolderCli.RevokeOrphanListRoots | crates/tidebreak-cli/src/folder.rs:751-783 | under every schedule, asks to revoke only list-folders grants of the subject from its own listing, and only if that shows no folder of the subject's: on success, all of them; if nobody else acts, exactly those go, and only without a folder |
| FolderSaga.FolderCli.WithdrawWhatIsLeft | crates/tidebreak-cli/src/folder.rs:689-719 | under every schedule, a listing, the revocation exactly if the subject is the sole holder on it, then the clean-up, and a reply that says what these came to; if nobody else acts, what that leaves is exact; so it is if others act only after the listing |
| FolderSaga.FolderCli.Disconnect | crates/tidebreak-cli/src/folder.rs:673-741 | under every schedule, success means that a new change detached the folder, and all requests are mild but for the one revocation after a listing; if nobody else acts, other subjects' grants never change, and on success both sides are detached, other chats keep the folder unless the approval is withdrawn, the approval is reported shared and withdrawn exactly when it is, and list-folders grants remain only with a folder; undisturbed, it succeeds exactly when the pending change settles well and then the folder is live and in the chat, the change may begin and the grants fit a listing |
| FolderSaga.FolderCli.Connect | crates/tidebreak-cli/src/folder.rs:385-477 | under every schedule, success means that a new change attached the folder, that a read-back was served that found it live, in the chat and open to the subject for listing, reading and writing, and all requests are mild but for a last revocation of the folder that could not be attached; if nobody else acts, success means attached on both sides, still within the subject's reach, with nothing taken from others, and after a failed attach "withdrawn" is true, and others lose the folder, exactly when it was new or the subject could withdraw it; undisturbed, the reply is exactly the one computed from the settled state |
| FolderSaga.FolderCli.Run | crates/tidebreak-cli/src/folder.rs:1155-1159 | any commands in a row, each of which may have died anywhere, keep what every run keeps |
| FolderGrants.RegistrationIsExact | crates/tidebreak-host-broker/src/broker.rs:1290-1343 | a directory that is known keeps its registration, one that is not gets one owned by the subject |
| FolderGrants.ReadsBackReached | crates/tidebreak-host-broker/src/broker.rs:3869-3897 | a registration reads back as connected exactly if it is this subject's for this chat and its folder is live, in the chat, and open to the subject for listing, reading and writing |
| FolderGrants.AfterwardsIsExact | crates/tidebreak-cli/src/folder.rs:689-719 | what the last two steps of a disconnect do, if nobody else acts, to the grants and attachments the first ones left: shared exactly if somebody else holds a grant on the folder, withdrawn with everything on it exactly if not and the subject may revoke it, list-folders grants gone exactly if no folder is left, nothing else of the subject's gone |
| FolderGrants.OneGrantGoes | crates/tidebreak-host-broker/src/broker.rs:4497-4530 | revoking a list-folders grant removes that grant and no other |
| FolderGrants.RevocationTakes | crates/tidebreak-host-broker/src/broker.rs:1575-1621 | a revocation takes from others exactly what they have of the folder when it is served, if it is the subject's to withdraw by then |
| FolderGrants.WhatADisconnectTakes | crates/tidebreak-cli/src/folder.rs:689-719 | under every schedule, a disconnect takes nothing of others but by its one revocation, and of their grants only what came after the listing before it |
| FolderGrants.WhatADisconnectReports | crates/tidebreak-cli/src/folder.rs:689-741 | under every schedule, a success reports the approval shared exactly if the listing showed another holder, and otherwise withdrawn exactly if the subject could withdraw the folder when the revocation was served |
| FolderGrants.WhatAConnectTakes | crates/tidebreak-cli/src/folder.rs:439-461 | under every schedule, a connect takes nothing of others but by a last revocation of the folder it could not attach, and then exactly what they have of it if the subject may withdraw it |
| FolderExamples.DisconnectLeavesTheApproval | crates/tidebreak-host-broker/src/broker.rs:1587-1603 | a profile on which the sole holder's disconnect succeeds and leaves folder and grant |
| FolderExamples.ConnectSaysWithdrawn | crates/tidebreak-cli/src/folder.rs:446-470 | a profile on which a failed connect reports the approval withdrawn and the folder stays registered |
| FolderExamples.DisconnectTakesALateArrival | crates/tidebreak-cli/src/folder.rs:339-357 | a run in which the sole holder's disconnect takes the grants another chat got between listing and revocation |
| FolderExamples.DisconnectTakesTheSiblingsFolder | crates/tidebreak-cli/src/folder.rs:319-328 | a run in which a chat's disconnect takes the folder from the other chat of its project |
| FolderExamples.FailedConnectTakesTheFolderNextDoor | crates/tidebreak-cli/src/folder.rs:443-461 | a run in which a failed connect takes folder and grant from another chat |
| FolderExamples.FirstArrivalIsConnected | crates/tidebreak-host-broker/src/broker.rs:1262-1355 | a subject that a known folder reaches for the first time reads back as connected |
| EventFollowing.SkippedFrames.Skip | crates/tidebreak-cli/src/event_stream.rs:31-44 | counts each unreadable frame once and announces the first |
| EventFollowing.NoticesTellTheCount | crates/tidebreak-cli/src/event_stream.rs:31-58 | what is printed tells exactly how many frames were skipped: two streams with the same notices and closing total skipped equally many |
| EventFollowing.Frames.Read | crates/tidebreak-cli/src/event_stream.rs:150-178 | what each kind of frame is read as, and where it leaves the cursor: at its position if it has one past it, as it was after a title, a notice or an unreadable frame; counted exactly when skipped |
| EventFollowing.Frames.Observe | crates/tidebreak-cli/src/event_stream.rs:182-192 | a frame passed on raw moves the cursor as a read one would, and only a numbered frame does |
| EventFollowing.ResumeIsUnique | crates/tidebreak-cli/src/event_stream.rs:373-405 | a cursor names one place in a journal |
| EventFollowing.ReadAdvancesOne | crates/tidebreak-cli/src/event_stream.rs:150-192 | reading the next journaled frame moves the cursor exactly past it |
| EventFollowing.DeliveredOrCounted | crates/tidebreak-cli/src/event_stream.rs:223-256 | every journaled frame is delivered or counted, never both |
| EventFollowing.StepStaysInStep | crates/tidebreak-cli/src/event_stream.rs:354-405 | an arrival keeps the cursor at the socket's place and every frame received once, if a live frame is stamped with that place |
| EventFollowing.FollowsOnceEach | crates/tidebreak-cli/src/event_stream.rs:354-405 | so does any schedule of arrivals and drops with well-stamped live frames |
| EventFollowing.ExactlyWhenWellStamped | crates/tidebreak-server/src/code/types.rs:698-714 | each journaled frame is received exactly once wherever the stream drops if and only if every live frame is stamped with the socket's place |
| EventFollowing.AStampAheadLosesAFrame | crates/tidebreak-cli/src/event_stream.rs:150-178 | a journal and a run in which a live frame stamped ahead makes a journaled one never come |
| EventFollowing.TheServerStampsWell | crates/tidebreak-server-api/src/routes/code/session_events.rs:284-300 | in every run whose live frames carry the position the socket has come to, they are well-stamped, on a socket that has sent nothing yet too |
| EventFollowing.EventStream.Next | crates/tidebreak-cli/src/event_stream.rs:354-371 | one arrival: what is handed on, and what it does to cursor, socket and frames received; a live frame's stamp is taken as the cursor, a title leaves it, a drop resumes from the cursor or falls back to the turn's durable record |
| EventFollowing.EventStream.Reconnect | crates/tidebreak-cli/src/event_stream.rs:373-405 | reopens exactly when one of eight attempts does, at the place the cursor names; otherwise the durable record of an ended turn is handed on, or the stream is lost |
| EventFollowing.EventStream.Follow | crates/tidebreak-cli/src/event_stream.rs:443-484 | over any schedule of drops with well-stamped live frames, what was delivered is exactly the readable frames and failures of the journal so far, once each and in order, and the rest is counted once; it stops only at a drop that no attempt repairs |
| TurnGating.TheBoundTurnIsRunning | crates/tidebreak-cli/src/code.rs:1051-1053 | the turn a running submission says it owns is the one the session is in, and its start was consumed |
| TurnGating.TurnGate.OnRan | crates/tidebreak-cli/src/code.rs:1055-1064 | the gate after the answer that names its turn |
| TurnGating.TurnGate.OnQueued | crates/tidebreak-cli/src/code.rs:1067-1071 | a queued submission starts over unbound |
| TurnGating.TurnGate.OnFrame | crates/tidebreak-cli/src/code.rs:1081-1107 | the gate and the action after a frame |
| TurnGating.Follow | crates/tidebreak-cli/src/code.rs:1211-1256 | the loop stops at the first input on which the gate exits; the code is 0 for a completed turn and 1 for one that failed, was interrupted or was refused |
| TurnGating.SubmitInvariant | crates/tidebreak-cli/src/code.rs:1055-1107 | while a submission runs, the gate owns exactly the current turn, and has consumed its start since it was last rebound |
| TurnGating.SubmitExitsOnItsOwnTurn | crates/tidebreak-cli/src/code.rs:1055-1107 | a submission exits only on the end of the turn it expects |
| TurnGating.OwnedFramesAreShown | crates/tidebreak-cli/src/code.rs:1081-1107 | while a submission owns the current turn, each frame is rendered, and its end exits with its code |
| TurnGating.ShownFramesAreOwned | crates/tidebreak-cli/src/code.rs:1081-1107 | what a submission renders or exits on is of the turn it owns: the frame that starts it or one while it is current |
| TurnGating.ItsOwnTurnIsShown | crates/tidebreak-cli/src/code.rs:1211-1256 | a submission whose turn starts live skips everything before that start and renders everything from it on, wherever the answer falls |
| TurnGating.QueuedStartsOver | crates/tidebreak-cli/src/code.rs:1067-1071 | a queued submission goes on as a new one, so the above holds of its turn |
| TurnGating.QueuedNeverExitsOnTheTurnAhead | crates/tidebreak-cli/src/code.rs:1067-1071 | a queued follow-up exits only on a turn that started live after it was queued |
| TurnGating.AttachInvariant | crates/tidebreak-cli/src/code.rs:1038-1044 | an attached gate keeps its turn, and has seen its start exactly when the stream carried it |
| TurnGating.AttachExitsOnItsTurn | crates/tidebreak-cli/src/code.rs:1038-1107 | attached to a turn whose start was replayed, it exits only on that turn's end |
| TurnGating.AttachedFramesAreShown | crates/tidebreak-cli/src/code.rs:1081-1107 | an attached gate renders each live frame, and each replayed one from its turn's start on |
| TurnGating.AttachWithoutItsStart | crates/tidebreak-cli/src/code.rs:1081-1107 | without the start in the replay, the exit is on the attached turn exactly when no end was replayed before |
| TurnGating.AttachCanExitOnTheWrongTurn | crates/tidebreak-cli/src/code.rs:1081-1107 | a trace on which it exits on the next turn |
| TurnGating.LiveEndsExit | crates/tidebreak-cli/src/code.rs:1081-1107 | an attached gate never runs past an end it sees live |
| TurnGating.AnswerChangesNothing | crates/tidebreak-cli/src/code.rs:1055-1107 | if one turn starts live, the gate with the answer and the one without it stay alike |
| TurnGating.AnswerPositionIsIrrelevant | crates/tidebreak-cli/src/code.rs:1211-1256 | then every frame gets the same action wherever the answer falls |
| TurnGating.WillClaimIsExact | crates/tidebreak-cli/src/code.rs:1073-1079 | announces exactly the frames that make the gate see its start |
| EventRendering.ReconcileIsExact | crates/tidebreak-cli/src/code.rs:1483-1502 | what is printed for a restated text completes the buffer to it exactly when one is a prefix of the other |
| EventRendering.Printer.Reconcile | crates/tidebreak-cli/src/code.rs:1483-1502 | returns what is unprinted and leaves the buffer with what was printed |
| EventRendering.Printer.RenderEvent | crates/tidebreak-cli/src/code.rs:1358-1480 | what each event adds to stdout and the buffer; dangling exactly when stdout does not end its line; a turn's edge or stop, a tool and a remark end a line that was open, and text does not |
| EventRendering.Printer.RenderRun | crates/tidebreak-cli/src/code.rs:1358-1480 | over a run, the text printed is what the events say, and the terminal is left on a fresh line |
| EventRendering.SpokenIsTheBuffer | crates/tidebreak-cli/src/code.rs:1365-1395 | within a message, printed text and buffer agree exactly when no restated tail contradicted the buffer |
| EventRendering.MessageIsPrintedExactly | crates/tidebreak-cli/src/code.rs:1365-1395 | a message has been printed exactly once when it is handled, exactly if no tail contradicted the buffer and the buffer is a prefix of it |
| EventRendering.CutOffLeavesNothing | crates/tidebreak-cli/src/code.rs:1358-1480 | after a turn's edge or stop, a message or a top-level tool, the next message is printed whole, whatever was streamed before |
| EventRendering.StayingWithinAgrees | crates/tidebreak-cli/src/code.rs:1483-1502 | deltas and tails that stay prefixes of the message never contradict each other |
| EventRendering.RunPrintsItsMessages | crates/tidebreak-cli/src/code.rs:1358-1502 | over a run, the assistant text on stdout is the concatenation of the messages |
| ArgumentQuoting.LexArgument | crates/tidebreak-cli/src/code.rs:1809-1820 | one rendered argument reads back as exactly that word, whatever follows it |
| ArgumentQuoting.QuotedExactlyWhenNeeded | crates/tidebreak-cli/src/code.rs:1809-1820 | an argument is shown bare exactly if it is non-empty and made of letters, digits and ten harmless signs, and in single quotes otherwise |
| ArgumentQuoting.CommandLineRoundTrips | crates/tidebreak-cli/src/code.rs:1740-1766 | splitting the command line by the shell's rules gives back the command and its arguments |
| ArgumentQuoting.CommandLineIsInjective | crates/tidebreak-cli/src/code.rs:1740-1766 | no two commands share a line |
| ArgumentQuoting.NotesAreNotArguments | crates/tidebreak-cli/src/code.rs:1740-1766 | read as a shell would, the consent line gives the command and its arguments and then stops at the notes; it is nothing but a command exactly when there are none |
| ArgumentQuoting.ConsentLinesAreInjective | crates/tidebreak-cli/src/code.rs:1740-1766 | two consent lines look the same exactly when they ask for the same command and arguments with the same text of notes |
| ArgumentQuoting.AnotherReading | crates/tidebreak-cli/src/code.rs:1753-1758 | an ambiguous directory or list of staged files has another with the same notes, given here |
| ArgumentQuoting.NotesAreCertainExactlyWhen | crates/tidebreak-cli/src/code.rs:1753-1758 | no other directory and files have the same notes if and only if there are none, or one file without a separator in its name, or a directory that does not read as one with staged files |
| MessageScrubbing.FindUuid | crates/tidebreak-cli/src/browser.rs:474-480 | the leftmost UUID, or none at all |
| MessageScrubbing.ScrubServerMessage | crates/tidebreak-cli/src/browser.rs:465-486 | the loop hides every leftmost UUID, terminates, and replaces a marked message whole |
| MessageScrubbing.KeptUpTo | crates/tidebreak-cli/src/browser.rs:465-486 | text before the first UUID is kept as it is |
| MessageScrubbing.NoUuidIsLeft | crates/tidebreak-cli/src/browser.rs:465-486 | no window of the result is a UUID, also none that a label brought together |
| MessageScrubbing.NoWordAppears | crates/tidebreak-cli/src/browser.rs:465-486 | hiding brings no word about that cannot use the label's characters |
| MessageScrubbing.ScrubbingIsComplete | crates/tidebreak-cli/src/browser.rs:465-486 | the result has no UUID and none of `tbreak_`, `bearer` and `Bearer` |
| MessageScrubbing.UuidIsFiveGroups | crates/tidebreak-cli/src/browser.rs:474-480 | what is hidden is five groups of 8, 4, 4, 4 and 12 hexadecimal digits with hyphens between them |
| MessageScrubbing.ShownAsItIs | crates/tidebreak-cli/src/browser.rs:465-486 | a message with one of the words becomes the label alone, and any other without a UUID stays as it is |
| MessageScrubbing.ScrubbingIsIdempotent | crates/tidebreak-cli/src/browser.rs:465-486 | scrubbing twice is scrubbing once |
| MessageScrubbing.OnlyUuidsAreHidden | crates/tidebreak-cli/src/browser.rs:465-486 | the result differs from the message only where a UUID was, and the hidden ones are the leftmost without overlap |
| ActFlags.ParseBrowserAct | crates/tidebreak-cli/src/browser.rs:1187-1298 | the loop over the arguments computes the parse of what is left from the slots filled, errors included |
| ActFlags.ParseStringFlag | crates/tidebreak-cli/src/browser.rs:1300-1310 | a duplicate is refused before its value is looked at, a missing or flag-like value after |
| ActFlags.RequiredFlagValue | crates/tidebreak-cli/src/browser.rs:1312-1323 | the next word, unless there is none or it starts with two dashes |
| ActFlags.RepeatsAreRefused | crates/tidebreak-cli/src/browser.rs:1300-1333 | a repeated value flag or a second action is refused, whatever follows |
| ActFlags.OrderDoesNotMatter | crates/tidebreak-cli/src/browser.rs:1187-1298 | valid flag groups for different slots parse to the same result or refusal in every order |
| ActFlags.AcceptedExactly | crates/tidebreak-cli/src/browser.rs:1187-1298 | a line is accepted exactly when it is such groups making a complete and well-formed act, and the act is the one they make |
| ActFlags.AWholeLineParses | crates/tidebreak-cli/src/browser.rs:1187-1298 | a line with every flag, word for word, gives the act it spells: the values as they stand, the epoch its digits mean, the action of its word, the background unless it says otherwise; refused exactly if the browser identity or the action's value may not be so |
| ActFlags.TheFirstFaultIsReported | crates/tidebreak-cli/src/browser.rs:1187-1333 | after valid groups, the first word that cannot be taken decides the error: unknown, duplicate, without a value, a second action, or a bad value |
| ActFlags.RefusalsSayWhatIsMissing | crates/tidebreak-cli/src/browser.rs:1253-1297 | a line of valid groups is refused as missing only what it does not have, and otherwise has all it needs |
| ActFlags.EpochReads | crates/tidebreak-cli/src/browser.rs:1200-1216 | the epoch is read as a decimal number of 64 bits, with or without a plus sign |
| ColumnNames.ColumnLetters | scripts/exec-documents/_tidebreak_calc.py:204-210 | the loop computes a name that decodes to the index |
| ColumnNames.ValueIsInjective | scripts/exec-documents/_tidebreak_calc.py:204-210 | two names with one value are the same |
| ColumnNames.NamesAndColumnsCorrespond | scripts/exec-documents/_tidebreak_calc.py:204-210 | a non-empty A-Z string is the name of the column it decodes to, and of no other |
| ColumnNames.NamesAreOrdered | scripts/exec-documents/_tidebreak_calc.py:204-210 | columns are ordered as their names are by length and then alphabet |
| ColumnNames.CellReferenceIsInjective | scripts/exec-documents/_tidebreak_calc.py:213-214 | no two cells share a reference |
| ColumnNames.ReferenceReads | scripts/exec-documents/_tidebreak_calc.py:213-214 | a reference is the name of its column followed by the decimal number of its row, counted from one |
| ColumnNames.DigitsCountByTens | scripts/exec-documents/_tidebreak_calc.py:213-214 | a row number with one more zero is ten times as large |
| WorkbookScan.ScanSheet | scripts/exec-documents/xlsx_recalc.py:57-78 | examines the row-major prefix the budget allows and reports exactly its bad cells |
| WorkbookScan.ReportsAreExact | scripts/exec-documents/xlsx_recalc.py:57-78 | a cell is in a report exactly when it was examined and is a formula showing one of the seven errors, or text that looks like a number; and only once |
| WorkbookScan.ScanWorkbook | scripts/exec-documents/xlsx_recalc.py:101-130 | the cells examined are all there are or 200000, marked truncated exactly when the workbook reaches that; the scan ends early exactly after the first sheet with findings that leaves no budget |
| WorkbookScan.AccountedNext | scripts/exec-documents/xlsx_recalc.py:101-110 | each sheet's reports take their share of one budget |
| WorkbookScan.TruncationIsExact | scripts/exec-documents/xlsx_recalc.py:108-124 | an unmarked run examined every cell; the mark is a false alarm exactly when the workbook fills the limit |
| WorkbookScan.AFullWorkbookIsMarked | scripts/exec-documents/xlsx_recalc.py:108-124 | such a workbook: 500 columns of 400 rows |
| WorkbookScan.CoveredExactlyWhenItFits | scripts/exec-documents/xlsx_recalc.py:101-110 | every cell of every sheet is examined exactly when the workbook fits the limit |
| WorkbookScan.CleanReportIsExact | scripts/exec-documents/xlsx_recalc.py:57-78 | a report is clean exactly when no examined cell is bad |
| WorkbookScan.CleanMeansClean | scripts/exec-documents/xlsx_recalc.py:117-119 | a clean report makes it certain that the sheet has no bad cell exactly when all of it was examined |
| WorkbookScan.ACleanReportCanBeWrong | scripts/exec-documents/xlsx_recalc.py:117-119 | a workbook whose bad second sheet is reported clean |
| SkillCatalog.CatalogLines | crates/tidebreak-code-execution/src/catalog.rs:58-92 | the loop over the plugins collects the catalog's entries in order |
| SkillCatalog.AppearancesAreExact | crates/tidebreak-code-execution/src/catalog.rs:58-92 | with distinct names, a renderable skill appears once per mention by a plugin, and exactly once if there is none |
| SkillCatalog.OnlySkillsAreShown | crates/tidebreak-code-execution/src/catalog.rs:20-34 | nothing appears but the lines of skills that can be shown |
| SkillCatalog.HeadingsIntroduceMembers | crates/tidebreak-code-execution/src/catalog.rs:66-84 | a preamble stands directly before a shown member of its plugin |
| SkillCatalog.BlocksAreComplete | crates/tidebreak-code-execution/src/catalog.rs:66-84 | each member that can be shown is in its plugin's block, which begins with the preamble if that may be shown |
| SkillCatalog.BlocksAppear | crates/tidebreak-code-execution/src/catalog.rs:58-92 | each plugin's block is in the catalog, right after those of the plugins before it |
| SkillCatalog.UnmentionedComeLast | crates/tidebreak-code-execution/src/catalog.rs:58-92 | after the blocks come exactly the skills no plugin mentions, as they are listed |
| SkillCatalog.ALineNamesItsSkill | crates/tidebreak-code-execution/src/catalog.rs:20-34 | a line has the skill's name and description, and marks the user's own |
| SkillCatalog.ASummaryNamesItsPackages | crates/tidebreak-code-execution/src/catalog.rs:36-56 | a summary line adds how to install what the skill depends on |
| SkillCatalog.SummaryExtendsPlain | crates/tidebreak-code-execution/src/catalog.rs:7-56 | the summary catalog has as many lines as the plain one, each going on from its counterpart |

## Left out

- HTTP, WebSocket, TLS and JSON text: frames, rows and requests are decoded values, and whether a frame is readable is a fact about it.
- The broker's authorization, path rules and state file, computer-use grants and their part in the listing limit, a receipt still pending, and the opening of a directory: they do not take part in the properties above.
- How an argument of `disconnect` names a folder, and the broker's habit of hiding folders with equal names: the command gets a root identity.
- Moving a chat between projects, and deleting one from the product store while a folder command runs: a chat and its subject stay.
- ExecutorProtocol.ImportsConverge: others add no documents and remove none, and a deleted chat keeps its own, so the result is about what this executor adds.
- HostBroker: grants and attachments are sets with distinct identities, so the order of the original's vectors is not modelled; no request depends on it.
- FolderSaga.FolderCli.SettlePendingChanges: the listing is any 256 of the pending changes rather than the oldest, because creation times are not modelled.
- FolderSaga.FolderCli.Connect: a crash between registration and the product intent leaves a registration that no code repairs, so nothing is promised for it.
- Orphaned list-folders grants after a failed `connect`: that path runs no clean-up.
- FolderExecution.FolderExecutor.Sweep: calls whose arguments fail validation after the claim keep their receipt, so progress is stated for canonical calls, those parked meanwhile included, and a chat is deleted only once its calls have their results; what happens to the others is stated by `Execute`.
- Several processes under one executor identity: the code relies on there being one.
- Path and argument validation of folder calls, and the size bounds on their results: two booleans of the call and an arbitrary answer.
- Liveness of the turn gate under a reconnect before the submission is answered: the code does not promise it.
- The approval, interrupt and timeout exits of `run_turn`, and its JSON output: they end the loop without consulting the gate.
- The replay limit when following a chat, and what the server reads a durable turn record from: this covers the journal that is sent, and the record is an answer.
- The wording of notices about skipped frames, tools and turns on standard error.
- MessageScrubbing works on characters where the code works on UTF-8 bytes; a window that parses as a UUID is ASCII either way.
- Float formatting, `looks_like_number`, the spreadsheet application and the printing of reports: a cell carries whether it looks like a number.
- The rules for skill names, descriptions and preambles: a skill and a preamble carry whether they may be shown.
- The other browser commands, image fitting, diagnostics, and everything outside the command line: they would add easier members.
