# Proofs about the owner workflow and its supporting tools

This project models the parts of the repository that must not go wrong and proves what they promise.

- **The one-shot owner workflow** (`apps/server/cmd/mcp-workflow`). A process holds a lock, talks to a server
  whose answers can be lost, and may crash between any two statements. It keeps three durable files: create
  intent, revocation journal and completion sentinel. `OwnerWorkflow` is the step system: one step is one read,
  send or durable write, and time, crashes, the owner's own edits and the network act between any two of them.
  `OwnerWorkflowSafety` is its invariant and `OwnerWorkflowTheorems` what follows for every run. `Recovery` and
  `OwnerProcess` are the code in program order (loops, early returns, the deferred cleanup); each of their
  effects is a step, so the theorems hold of them. `OAuthServer` and `ReplayWindow` model the server's own token,
  revocation and idempotency code, so the server's behaviour is not assumed. Two things are assumed: bounds on
  delay (`Clock.Timing.Bounded`), and a fresh key and fresh tokens from the random sources.
- **Checks on the way**: `GuardSteps` and `ToolGuards` (which calls may be sent), `ServerObservers` (the only
  source of server time), `Listings` and `OwnerRuns` (what the final check pins), `Revisions` (the +1 chain),
  `RichText` and `Candidate` (which edits count as translation), `Uuids` (the spelling of identifiers).
- **Supporting tools**: `JsonText`, `JsonScan`, `JsonScanner` (dropping one member of a JSON object in place);
  `PngFilter`, `PngRewrite` (reading and rewriting a PNG); `ProcessOwner`, `Supervisors` (owning and draining
  the processes of a command); `StoreValidation`, `StoreOutput`, `StoreReport` (aggregate document rules, their
  canonical order and what they report); `PdfPaint`, `PdfLaws`, `PdfInterpreter` (the PDF graphics state and the
  lighter font walker); `Rectangles` (rectangle subtraction). `Ordering`, `Sequences`, `Distinctness`, `Bytes`
  and `Options` are shared.

Where the source works step by step, a method or a class repeats its loop and is proved equal to a function, and
the promises are lemmas about that function. Libraries of the source (hashing, compression, HTML and JSON parsing,
Unicode tables, clip geometry) are function-valued parameters with only the law that the proof needs.

## Promises that the code keeps only under a condition

- After an error return, an intent, a journal or a dead grant (revoked or expired) remains, except when there is no
  intent, the grant lives, and the deferred cleanup either cannot read the control root or sends a revocation that takes
  no effect (`WhatLastsAfterAnErrorReturn`, `CleanupLasts`). Both happen (`FailedExistsLosesTheGrant`,
  `LostRevokeLosesTheGrant`). With a sent revocation also counted, only the first is left
  (`ErrorReturnKeepsAuthority`).
- A save and restore block restores the whole PDF state, except a clip that still waits for a path: that variable is
  not saved (`BlockRestoresAll`, `WaitingClipEscapes`).
- A document does not accept itself when a plain text of it holds `<` or `>`; acceptance is transitive but can be
  undone only without them (`AcceptsItself`, `AcceptedIsReversible`; `MarkupIsRefused`, `RemovedMarkupStaysAway`).
- A replay meets the server's 24-hour record only while read latency and delivery delay sum to no more than 12 hours,
  up to two nanoseconds (`LifetimeNeedsBoundedDelay`).
- The PNG rewrite is idempotent exactly while its output is within the input limit (`RewriteIdempotent`,
  `OverlongOutput`).
- The font walker agrees with the full interpreter until text is shown before any font is set; it stops there, while
  the full interpreter goes on (`WalkerAgrees`, `WalkerStopsWithoutFont`).
- Exposed pieces are non-empty exactly when the surface is (`PiecesNonEmpty`).
- The supervisor of a command returns only when nothing that it owned is left, but it is given up, as by an exception
  that nothing catches, exactly when the kernel refuses a signal to the open group or to the child (`Supervise`,
  `RaisedWhenRefused`, `RefusedSignalAbandonsTheGroup`).

`docs/design/mcp-owner-workflow.md:186` says that nothing deletes the sentinel. In local mode
`apps/server/cmd/mcp-workflow/recovery.go:230-232` does. The step system is the production mode, where it is true
(`SentinelIsPermanent`).

## Model

| member | source | states |
|---|---|---|
| ReplayWindow.ReplayDeadline | apps/server/cmd/mcp-workflow/create_intent.go:133-145 | a replay is allowed exactly when the server's date is known, not before the recorded one, and less than 12 hours minus send window and date resolution after it; then it must be sent within the send window |
| ReplayWindow.ReplaySentInTime | apps/server/cmd/mcp-workflow/create_intent.go:14-21 | an allowed replay is sent within 12 hours plus the read latency of the recorded server time |
| ReplayWindow.ReplayInsideLifetime | apps/server/internal/resume/idempotency.go:17-22 | with bounded delays it arrives before the 24-hour record of the first send expires |
| ReplayWindow.LifetimeNeedsBoundedDelay | apps/server/cmd/mcp-workflow/create_intent.go:133-145 | that holds for every replay exactly when latency and delay sum to no more than 12 hours and 2 ns |
| OwnerWorkflowSafety.StepKeepsInv | apps/server/cmd/mcp-workflow/workflow_runner.go:44-253 | every step of the process, the environment, the network and the server keeps the invariant of files, server and process |
| OwnerWorkflowSafety.DeliverKeepsInv | apps/server/internal/resume/idempotency.go:271-286 | however late a stored request is delivered inside its bounds, the server's records keep to one create |
| OwnerWorkflowSafety.PersistIntentKeepsInv | apps/server/cmd/mcp-workflow/create_intent.go:101-112 | an exclusive intent write keeps the invariant whether it reports success, failure, or failure after taking effect |
| OwnerWorkflowSafety.ReplaceJournalKeepsInv | apps/server/cmd/mcp-workflow/recovery.go:183-215 | replacing the journal by the rotated pair keeps a token of the same family on disk |
| OwnerWorkflowSafety.WriteKeepsInv | apps/server/cmd/mcp-workflow/artifacts.go:76-176 | so does every durable write and removal of completion and recovery, with any of the three outcomes |
| OwnerWorkflowSafety.ProbeKeepsInv | apps/server/cmd/mcp-workflow/recovery.go:188-196 | a timely denial of the journaled access token is taken as proof only when the family is revoked |
| OwnerWorkflowSafety.RefreshKeepsInv | apps/server/cmd/mcp-workflow/recovery.go:197-212 | so is a timely refusal of the refresh token; a rotation is not |
| OwnerWorkflowSafety.ReachableInv | apps/server/cmd/mcp-workflow/workflow.go:201-264 | the invariant holds at every state of every run, over all crashes, losses and restarts |
| OwnerWorkflowTheorems.AtMostOneCreate | apps/server/cmd/mcp-workflow/workflow_runner.go:120-253 | over all runs the server accepts at most one create from this control root |
| OwnerWorkflowTheorems.LaterDeliveriesAnswerWithTheFirst | apps/server/cmd/mcp-workflow/workflow_runner.go:208-235 | after an accepted create, every further delivery changes nothing and answers with the same resume |
| OwnerWorkflowTheorems.AuthorityNeverLost | apps/server/cmd/mcp-workflow/workflow_runner.go:507-553 | from a possible create on, intent or journal is on disk until the sentinel is there and the completing grant is dead |
| OwnerWorkflowTheorems.CompletedMeansRevoked | apps/server/cmd/mcp-workflow/recovery.go:217-233 | one run completes; with the sentinel alone on disk, its family is revoked |
| OwnerWorkflowTheorems.SettledMeansRevoked | apps/server/cmd/mcp-workflow/recovery.go:180-215 | wherever the code takes revocation as proved, the journaled family is revoked and did not merely expire |
| OwnerWorkflowTheorems.JournalAlwaysKills | apps/server/cmd/mcp-workflow/recovery.go:118-136 | at every state the journal on disk holds a token that kills the completing family, now and after any server activity, sweeps of the token table included: a swept token's family has expired |
| OwnerWorkflowTheorems.SentinelNeverConflicts | apps/server/cmd/mcp-workflow/recovery.go:138-164 | a sentinel met during completion always matches the journal |
| OwnerWorkflowTheorems.FreshKeyOnlyWhenNothingIsStored | apps/server/cmd/mcp-workflow/workflow.go:217-260 | a key is made only with intent, journal and sentinel absent and nothing under way |
| OwnerWorkflowTheorems.SendsOnlyTheStoredRequest | apps/server/cmd/mcp-workflow/workflow_runner.go:171-235 | everything sent carries the key and payload of the intent on disk |
| OwnerWorkflowTheorems.IntentDropsOnlyWhenSafe | apps/server/cmd/mcp-workflow/workflow_runner.go:183-190 | the intent goes only with a durable sentinel, or after a definite rejection of the first send with nothing accepted or under way |
| OwnerWorkflowTheorems.JournalKeepsItsFamily | apps/server/cmd/mcp-workflow/recovery.go:118-136 | no step replaces a journal by another grant's; it goes only when its family is revoked |
| OwnerWorkflowTheorems.SentinelIsPermanent | apps/server/cmd/mcp-workflow/recovery.go:217-233 | a production sentinel is never changed or removed, and no further key is made |
| OwnerWorkflowTheorems.ErrorReturnKeepsAuthority | apps/server/cmd/mcp-workflow/workflow_runner.go:69-91 | after an error return an intent, a journal, a sent revocation or a dead grant remains exactly when the cleanup could read the root, or an intent is there, or the grant is dead |
| OwnerWorkflowTheorems.WhatLastsAfterAnErrorReturn | apps/server/cmd/mcp-workflow/workflow_runner.go:69-91 | a sent revocation aside: an intent, a journal or a dead grant remains unless there is no intent, the grant lives, and the cleanup could not read the root or its revocation took no effect |
| OwnerWorkflowTheorems.CleanupLasts | apps/server/cmd/mcp-workflow/workflow_runner.go:77-91 | the same before the cleanup, as a condition on what it meets |
| OwnerWorkflowTheorems.LostRevokeLosesTheGrant | apps/server/cmd/mcp-workflow/workflow_runner.go:84-86 | a reachable run whose cleanup revokes without effect leaves a live grant that no file names |
| OwnerWorkflowTheorems.FailedExistsLosesTheGrant | apps/server/cmd/mcp-workflow/workflow_runner.go:77-83 | a reachable run whose cleanup cannot read the root loses its live grant |
| OwnerWorkflowTheorems.CompletionIsReachable | apps/server/cmd/mcp-workflow/workflow_runner.go:507-553 | a run with a crash, a lost answer and a reconciliation reaches completion |
| OwnerWorkflow.CreateAnswers | apps/server/internal/resume/idempotency.go:271-286 | a live record answers for its own request only; otherwise the request is decided afresh, and only an accepted one changes the account |
| OwnerWorkflow.EnvironmentIsFree | apps/server/cmd/mcp-workflow/workflow_runner.go:77-90 | at every state the process may crash, time may pass, the owner may edit and revoke, messages may be lost and dead tokens may be swept, so that the theorems over all runs cover all of this |
| OwnerWorkflow.SdkSessionRefreshes | apps/server/cmd/mcp-workflow/workflow_runner.go:505-553 | with which requests the SDK may refresh, and that only a received rotation changes the pair it holds, never the captured pair or the first date |
| OwnerWorkflow.SuccessorMeans | apps/server/cmd/mcp-workflow/recovery.go:204-210 | a successor journal names the new pair, keeps the refresh cutoff, and cuts the access token off in time |
| OAuthServer.GrantLives | apps/server/internal/oauthsrv/token_endpoint.go:420-440 | an access token is accepted for an hour and a refresh token for thirty days, and neither does the work of the other |
| OAuthServer.RotationLives | apps/server/internal/oauthsrv/token_endpoint.go:450-550 | a rotated pair never outlives its family, and a spent refresh token that is used again revokes the family |
| OAuthServer.SweepMeans | apps/server/sql/queries.sql:1599-1619 | only a token of no further use may be swept, a spent refresh token not before its family's time is over; a swept token is unknown and no other is forgotten |
| Recovery.Runner.ProbeOnce | apps/server/cmd/mcp-workflow/recovery.go:186-196 | the branch taken after a probe follows its status and date against both cutoffs |
| Recovery.Runner.RefreshOnce | apps/server/cmd/mcp-workflow/recovery.go:197-209 | a timely refusal is proof, a timely rotation prepares the successor, anything else stops |
| Recovery.Runner.Replace | apps/server/cmd/mcp-workflow/recovery.go:210-213 | only a reported write of the successor goes on, under the new journal, and only in the first round |
| Recovery.Runner.SettleRevocation | apps/server/cmd/mcp-workflow/recovery.go:180-215 | success means a revoked family; any other end leaves a journal on disk and other files as they were; a first round whose revoke takes effect and whose probe, or probe and refresh, is answered in time always succeeds, and so does a second one after a written rotation |
| Recovery.Runner.FinishRevocation | apps/server/cmd/mcp-workflow/recovery.go:217-229 | finishing leaves the sentinel alone, with the family revoked, whenever its writes succeed; a failure leaves sentinel or journal |
| Recovery.Runner.RecoverRevocationOnly | apps/server/cmd/mcp-workflow/recovery.go:235-257 | recovery from any journal ends with the sentinel alone and a revoked family, or with sentinel or journal kept; it cannot fail when its writes succeed and one of its rounds settles |
| OwnerProcess.CreateFresh | apps/server/cmd/mcp-workflow/workflow_runner.go:120-195 | a fresh create ends bound to one target or in the deferred cleanup, and it is bound exactly when the listing is dated, the intent written and the request sent within a minute, and then its answer names a new resume, or the answer is lost or says nothing and the account listed next holds the baseline and exactly one more; once sent, the intent goes only after a rejection |
| OwnerProcess.Reconcile | apps/server/cmd/mcp-workflow/workflow_runner.go:197-235 | a reconciliation changes no file and ends bound or in the deferred cleanup; it is bound exactly when the new resume is listed, or the stored request is resent inside its window and the answer names a new resume |
| OwnerProcess.SendCreate | apps/server/cmd/mcp-workflow/guard.go:216-249 | only the first send of a fresh intent may end refused or left to reads, and exactly on a rejection, or on a lost or unclear answer |
| OwnerProcess.Complete | apps/server/cmd/mcp-workflow/workflow_runner.go:505-553 | completion ends with the sentinel alone and a revoked family, or at an error return; it is whole whenever its writes succeed and the SDK's next request is denied in time |
| OwnerProcess.RunWorkflow | apps/server/cmd/mcp-workflow/workflow.go:201-264 | every end of the command: completed or recovered means revoked and the sentinel alone, a sentinel stops it, what an error return leaves behind is exactly as above, and never two creates; it says when a recovery and when a new or reconciling run must complete, that a completed run bound its target, and that a connected run that bound nothing went through the cleanup |
| OwnerProcess.SomeRunMustComplete | apps/server/cmd/mcp-workflow/workflow_runner.go:44-117 | the first run of an account with one resume must complete, with the answer to its create as well as without it |
| OwnerProcess.FinishCompletes | apps/server/cmd/mcp-workflow/workflow_runner.go:560-590 | the journal that completion writes carries the cutoffs of its grant: 55 minutes after the latest token answer and 29 days after the first |
| GuardSteps.StepKeepsSound | apps/server/cmd/mcp-workflow/guard.go:73-147 | every guard step keeps bindings final, calls bound and counters capped |
| GuardSteps.AnyInterleavingIsBound | apps/server/cmd/mcp-workflow/guard.go:216-321 | for any interleaving: every mutation sent is the bound create or names the bound target, which is not the source, within the caps of both modes |
| ToolGuards.ToolGuard.SetSource | apps/server/cmd/mcp-workflow/guard.go:77-87 | the first valid source stays the source |
| ToolGuards.ToolGuard.BindIntent | apps/server/cmd/mcp-workflow/guard.go:89-102 | the first intent, for the bound source, stays bound |
| ToolGuards.ToolGuard.BindTarget | apps/server/cmd/mcp-workflow/guard.go:104-112 | the first target other than the source stays bound |
| ToolGuards.ToolGuard.Send | apps/server/cmd/mcp-workflow/guard.go:114-147 | a call is admitted exactly below 96 calls, when it is a read, the bound create, or a write to the target that is not the source |
| ToolGuards.ToolGuard.Create | apps/server/cmd/mcp-workflow/guard.go:216-261 | a create is sent exactly once, in local mode once more when the target is known, and a definitive failure is exactly a closed validation error on the only send of a fresh intent |
| ToolGuards.ToolGuard.UploadPhoto | apps/server/cmd/mcp-workflow/guard.go:263-274 | exactly one upload of 1 to 2,097,152 bytes to the bound target; an invalid argument uses it up |
| ToolGuards.ToolGuard.CropPhoto | apps/server/cmd/mcp-workflow/guard.go:276-288 | exactly one crop of the bound target; an invalid argument uses it up |
| ToolGuards.ToolGuard.StaleCropProbe | apps/server/cmd/mcp-workflow/guard.go:290-311 | one probe, in local mode only |
| Uuids.UuidGroups | apps/server/cmd/mcp-workflow/source.go:85-88 | an identifier is taken exactly when it is five groups of lower-case digits, not all zero, joined by hyphens |
| ServerObservers.AuthenticatedMeans | apps/server/cmd/mcp-workflow/runtime.go:73-110 | after any history, what is kept of an authenticated answer is the number and date of the last one |
| ServerObservers.DeniedMeans | apps/server/cmd/mcp-workflow/runtime.go:73-110 | what is kept of a denial is the number, date and token of the last one |
| ServerObservers.TokensMean | apps/server/cmd/mcp-workflow/runtime.go:104-108 | the token dates kept are those of the first and the last answer, whatever came between |
| ServerObservers.WhatCounts | apps/server/cmd/mcp-workflow/runtime.go:87-110 | an authenticated answer is a dated success of a tool call with a token, a denial its 401, a token answer a dated 200 |
| ServerObservers.ServerObserver.RoundTrip | apps/server/cmd/mcp-workflow/runtime.go:87-110 | in place, one response changes the records as one event of the history does |
| ServerObservers.ServerObserver.AuthenticatedDateSince | apps/server/cmd/mcp-workflow/runtime.go:118-122 | a date exactly when an authenticated answer came since the mark, and then the last one's |
| ServerObservers.ServerObserver.TokenDates | apps/server/cmd/mcp-workflow/runtime.go:124-128 | the first and the last token date, except when the server's clock went back between them |
| ServerObservers.ServerObserver.DeniedSince | apps/server/cmd/mcp-workflow/runtime.go:130-134 | a date exactly when the last denial came since the mark, was dated and denied this token: a later one for another token or without a date hides it |
| ServerObservers.ServerObserver.ReauthorizationRefusedSince | apps/server/cmd/mcp-workflow/runtime.go:136-140 | true exactly when a reauthorization was refused since the mark |
| ServerObservers.ServerObserver.RecordRefusal | apps/server/cmd/mcp-workflow/runtime.go:142-147 | a refused reauthorization is an event of the history like a response |
| Listings.DistinctIds | apps/server/cmd/mcp-workflow/source.go:138-149 | decides that no identifier repeats |
| Listings.SelectEnglishSource | apps/server/cmd/mcp-workflow/source.go:116-136 | finds a source exactly in a small account without repeated identifiers and with one English resume |
| Listings.OneSourceMeans | apps/server/cmd/mcp-workflow/source.go:116-136 | a source account has at most two resumes with different identifiers, one of them in English |
| Listings.SameListing | apps/server/cmd/mcp-workflow/source.go:228-244 | decides that two listings are permutations of one another without repeated identifiers |
| Listings.SubsetIsPermutation | apps/server/cmd/mcp-workflow/source.go:228-244 | membership one way and equal lengths make a permutation |
| Listings.CheckBaseline | apps/server/cmd/mcp-workflow/create_intent.go:68-93 | decides that a stored baseline is small, distinct, bound to the account and holds the source |
| Listings.StoredBaseline | apps/server/cmd/mcp-workflow/create_intent.go:68-93 | a stored baseline is one or two different identifiers, bound in sorted order with their origin |
| Listings.SplitBaseline | apps/server/cmd/mcp-workflow/workflow_runner.go:255-277 | splits a listing into all baseline resumes and at most one new one, or refuses |
| Listings.SplitIsExact | apps/server/cmd/mcp-workflow/workflow_runner.go:255-277 | the length test decides that every stored resume is listed, and then the binding agrees |
| OwnerRuns.OwnerRun.ReconcileTargetWrite | apps/server/cmd/mcp-workflow/workflow_runner.go:431-447 | an unclear write counts only at the next revision, on the exact private Vietnamese target with the payload as its document and the photo and crop meant |
| OwnerRuns.OwnerRun.TargetWrite | apps/server/cmd/mcp-workflow/workflow_runner.go:398-428 | decides a write from its answer and one read, and gives the revision after it: one step further, or the same |
| OwnerRuns.OwnerRun.CopyPhoto | apps/server/cmd/mcp-workflow/workflow_runner.go:353-396 | succeeds exactly when photo and crop are there or get written and read back; the revision moves one per write |
| OwnerRuns.OwnerRun.CheckListing | apps/server/cmd/mcp-workflow/workflow_runner.go:450-481 | decides that the listing is the unchanged baseline plus exactly the private target at this revision |
| OwnerRuns.OwnerRun.VerifyFinal | apps/server/cmd/mcp-workflow/workflow_runner.go:450-502 | succeeds exactly when listing, source, target document, photo and date all agree; then the target read is private, Vietnamese, under the fixed title, holds the payload, and has a photo exactly when the source has one, with its crop |
| OwnerRuns.OwnerRun.CopyAndVerify | apps/server/cmd/mcp-workflow/workflow_runner.go:93-113 | confirms exactly when the copy succeeds and the final check agrees at the revision its writes reached, with the same conclusion about the target |
| OwnerRuns.TargetIsExact | apps/server/cmd/mcp-workflow/source.go:264-272 | a target is taken exactly when it is Vietnamese, under the fixed title, not live, without a slug, and its document without the photo is the payload |
| OwnerRuns.OwnerRun.ConfirmsExactly | apps/server/cmd/mcp-workflow/workflow_runner.go:450-502 | everything the final check demands, spelled out over what was read |
| OwnerRuns.OwnerRun.WriteMeans | apps/server/cmd/mcp-workflow/workflow_runner.go:398-447 | a write is done exactly when its answer shows it at the next revision, or a lost answer or conflict is followed by a read that shows it |
| OwnerRuns.OwnerRun.CopyMeans | apps/server/cmd/mcp-workflow/workflow_runner.go:353-396 | a copy succeeds exactly when the photo is there or gets uploaded and read back, looks like the source, and has or gets its crop |
| OwnerRuns.OthersDecide | apps/server/cmd/mcp-workflow/workflow_runner.go:455-478 | with the right length, comparing the other resumes to the baseline decides the whole account |
| Revisions.ValidMeansCanonical | apps/server/cmd/mcp-workflow/mutation.go:7-15 | the valid revisions are exactly the canonical spellings of 64-bit numbers |
| Revisions.NextIsUnique | apps/server/cmd/mcp-workflow/mutation.go:17-27 | every revision but the last has exactly one next revision |
| Revisions.ReachedNeverRepeats | apps/server/cmd/mcp-workflow/mutation.go:17-27 | a chain of writes counts them, and no revision comes back |
| RichText.CollectDigitRuns | apps/server/cmd/mcp-workflow/candidate.go:377-394 | the loop collects the digit runs |
| RichText.RunsSeparated | apps/server/cmd/mcp-workflow/candidate.go:377-394 | no run crosses a character that is not a digit |
| RichText.RunsOfDigits | apps/server/cmd/mcp-workflow/candidate.go:377-394 | digits alone are one run |
| RichText.SameDigitRuns | apps/server/cmd/mcp-workflow/candidate.go:360-375 | sorted comparison decides equality of the multisets of runs |
| RichText.CollectedRuns | apps/server/cmd/mcp-workflow/candidate.go:309-320 | runs never merge across text nodes, at any depth within the limit |
| RichText.SameForestMeaning | apps/server/cmd/mcp-workflow/candidate.go:322-358 | the recursion accepts exactly equal shapes that it can read to the bottom |
| RichText.SameRichTextMeaning | apps/server/cmd/mcp-workflow/candidate.go:278-294 | accepted exactly when the old text is readable and tags, attributes, structure, blank texts and the runs of all text nodes agree at every depth |
| RichText.ForestKept | apps/server/cmd/mcp-workflow/candidate.go:322-358 | node by node, at most 64 deep: elements keep tag and attributes, texts stay texts and blank or not |
| RichText.OneText | apps/server/cmd/mcp-workflow/candidate.go:278-294 | a text alone may change as long as it stays blank or not and keeps its numbers |
| Candidate.ComparePreserved | apps/server/cmd/mcp-workflow/candidate.go:179-254 | visiting keys in an arbitrary order gives one verdict, that of the relation over all keys |
| Candidate.PreservedMeaning | apps/server/cmd/mcp-workflow/candidate.go:142-270 | accepted exactly when both masked documents are equal, the source is comparable and the candidate's plain texts have no markup |
| Candidate.SectionTypeProtected | apps/server/cmd/mcp-workflow/candidate.go:186-192 | equal masks declare equal section types, so both documents are read by one table |
| Candidate.ValidatePreserved | apps/server/cmd/mcp-workflow/candidate.go:158-168 | accepts exactly decodable documents that the comparison accepts |
| Candidate.AcceptedIsTransitive | apps/server/cmd/mcp-workflow/candidate.go:158-254 | translating an accepted translation again cannot drift from the first source |
| Candidate.AcceptsItself | apps/server/cmd/mcp-workflow/candidate.go:271-276 | a document accepts itself exactly when comparable and without markup in plain text |
| Candidate.AcceptedIsReversible | apps/server/cmd/mcp-workflow/candidate.go:271-276 | an accepted edit can be undone exactly when the source had no such markup |
| Candidate.MarkupIsRefused | apps/server/cmd/mcp-workflow/candidate.go:271-276 | a document that says `1 < 2` in a plain text does not accept itself |
| Candidate.RemovedMarkupStaysAway | apps/server/cmd/mcp-workflow/candidate.go:271-276 | a `<` may be translated away, and the way back is refused |
| Candidate.AcceptedKeepsTopLevel | apps/server/cmd/mcp-workflow/candidate.go:256-270 | everything outside personal details and content is kept to the letter |
| Candidate.EntryTexts | apps/server/cmd/mcp-workflow/candidate.go:145-157 | by section type and field: three fields are plain text, seven are rich text, and every other text is kept to the letter |
| Candidate.SectionTexts | apps/server/cmd/mcp-workflow/candidate.go:256-270 | of the texts of a section itself only the display name may be translated |
| Candidate.DetailTexts | apps/server/cmd/mcp-workflow/candidate.go:256-270 | of the texts of a contact detail only the label may be translated |
| Candidate.PersonalTexts | apps/server/cmd/mcp-workflow/candidate.go:256-270 | of the texts of the personal details themselves only the headline may be translated |
| Candidate.HeadlineMeans | apps/server/cmd/mcp-workflow/candidate.go:272-276 | a plain translation keeps whether there is text and its numbers, and brings no markup in |
| Candidate.AcceptedEntry | apps/server/cmd/mcp-workflow/candidate.go:179-270 | in any accepted documents, every entry field keeps its value or is a text translated as its kind allows |
| Candidate.AcceptedKeepsPersonal | apps/server/cmd/mcp-workflow/candidate.go:256-270 | all other personal details are kept to the letter, however deep |
| Candidate.AcceptedKeepsSection | apps/server/cmd/mcp-workflow/candidate.go:256-270 | so is every other member of a section |
| JsonScan.ValueScanned | apps/server/cmd/dev-seed/seed.go:397-470 | the scanners stop exactly at the end of every value, however deep |
| JsonScan.SlotsScanned | apps/server/cmd/dev-seed/seed.go:303-364 | scanning an object finds exactly its members, in order and in place |
| JsonScan.PhotoDropped | apps/server/cmd/dev-seed/seed.go:265-294 | the output is the input without one contiguous range, again an object, with the old members minus the first photo |
| JsonScan.ObjectValues | apps/server/cmd/dev-seed/seed.go:303-364 | between the key and the end of each slot stand exactly the bytes of that member's value |
| JsonScan.PhotoGoneOnRescan | apps/server/cmd/dev-seed/seed.go:269-364 | scanning the output finds the old members without the first photo, keys and value bytes |
| JsonScan.FailsUnlessObject | apps/server/cmd/dev-seed/seed.go:269-312 | it fails exactly on invalid texts and texts that are not objects |
| JsonText.NumberGrammar | apps/server/cmd/dev-seed/seed.go:409-424 | the number grammar of the model is that of section 6 of RFC 8259, part by part |
| JsonText.Structure | apps/server/cmd/dev-seed/seed.go:397-431 | the structural characters, blanks and words are those of sections 2 and 3 |
| JsonText.Characters | apps/server/cmd/dev-seed/seed.go:378-395 | the characters and escapes of a string are those of section 7 |
| JsonText.ScalarsMean | apps/server/cmd/dev-seed/seed.go:397-431 | the three words, the numbers and the strings are all there is outside containers, and words and numbers are written as they are |
| JsonText.ContainersMean | apps/server/cmd/dev-seed/seed.go:433-470 | what a container may hold: members with a key in an object, values without one in an array, blanks around them and nothing else |
| JsonText.ContainersPrinted | apps/server/cmd/dev-seed/seed.go:433-470 | a container is its bracket, its entries joined by commas and its closing bracket, with every blank in its place |
| JsonText.StringsPrinted | apps/server/cmd/dev-seed/seed.go:378-395 | a string is its characters one after the other between quotes |
| JsonScanner.ScanJsonString | apps/server/cmd/dev-seed/seed.go:378-395 | the loop ends where the string literal does, or fails with it |
| JsonScanner.ScanJsonValue | apps/server/cmd/dev-seed/seed.go:397-424 | the same for any value |
| JsonScanner.ScanJsonContainer | apps/server/cmd/dev-seed/seed.go:434-470 | the same for arrays and objects |
| JsonScanner.ScanObjectEntries | apps/server/cmd/dev-seed/seed.go:303-364 | the loop returns the slots, or fails with them |
| JsonScanner.WithoutPhoto | apps/server/cmd/dev-seed/seed.go:269-294 | the loop cuts the range that the function cuts |
| PngFilter.FirstMinimumIsPaeth | scripts/collect-browser-diagnostics.py:81-84 | the first neighbour at the smallest distance is the predictor of section 6.6 of RFC 2083 |
| PngFilter.UnfilterInverts | scripts/collect-browser-diagnostics.py:70-87 | unfiltering inverts filtering, for every type, previous row and pixel size |
| PngFilter.FilterInverts | scripts/collect-browser-diagnostics.py:70-87 | and filtering inverts unfiltering |
| PngFilter.BytesRestored | scripts/collect-browser-diagnostics.py:70-87 | every byte is restored as section 6 of RFC 2083 says for its filter type |
| PngFilter.NothingAbove | scripts/collect-browser-diagnostics.py:65-74 | above the first row there is nothing to add |
| PngFilter.UnpackAccepts | scripts/collect-browser-diagnostics.py:66-69 | an image is refused exactly for an unknown filter type |
| PngFilter.UnfilterRow | scripts/collect-browser-diagnostics.py:70-87 | the in-place loop undoes the row's filter |
| PngFilter.UnpackInverts | scripts/collect-browser-diagnostics.py:64-90 | every image comes back from every per-row choice of filters |
| PngFilter.UnpackRows | scripts/collect-browser-diagnostics.py:64-90 | the loop over rows decodes the image or refuses an unknown filter |
| PngRewrite.WalkChunks | scripts/collect-browser-diagnostics.py:18-56 | the chunk loop accepts and collects what the walk does |
| PngRewrite.PixelPng | scripts/collect-browser-diagnostics.py:13-95 | the whole method is decode then encode |
| PngRewrite.ChunkSound | scripts/collect-browser-diagnostics.py:22-28 | what is read as a chunk is its length, a name in letters, its data and their checksum |
| PngRewrite.AcceptedFile | scripts/collect-browser-diagnostics.py:13-68 | an accepted file is the signature, one valid header, sound chunks with one unbroken run of image data and otherwise only ancillary ones, an empty end chunk and ignored bytes; its data inflates to exactly its rows |
| PngRewrite.SoundFileIsRewritten | scripts/collect-browser-diagnostics.py:13-95 | and every such file is read, and rewritten exactly when its compressed pixels fit a chunk |
| PngRewrite.OnlyThreeChunks | scripts/collect-browser-diagnostics.py:91-93 | the output is a header, one data and an end chunk, and nothing else |
| PngRewrite.EncoderUndone | scripts/collect-browser-diagnostics.py:13-90 | any encoder's filters and chunking are undone: the image read is its header and rows |
| PngRewrite.RewriteReadsTheSame | scripts/collect-browser-diagnostics.py:13-95 | the output reads as the same header and pixels, exactly when it is short enough to be read |
| PngRewrite.RewriteIdempotent | scripts/collect-browser-diagnostics.py:16-17 | the rewrite is idempotent exactly while its output is within the limit |
| PngRewrite.OverlongOutput | scripts/collect-browser-diagnostics.py:16-17 | with a compressor that pads, a file of one pixel is rewritten to one that cannot be read again |
| ProcessOwner.Closure | scripts/lib/run-owned.py:56-60 | the loop terminates with exactly what parent links reach from the anchors |
| ProcessOwner.Members | scripts/lib/run-owned.py:38-62 | the members are exactly the live identities that are reached |
| ProcessOwner.OwnedMeans | scripts/lib/run-owned.py:38-62 | who is owned: the live processes that parent links reach from a retained identity, the listed leader, or the group while it is held |
| ProcessOwner.ForgottenHasNoInfluence | scripts/lib/run-owned.py:39-42 | an identity that is not listed has no influence, even if its number is reused |
| ProcessOwner.GroupNeverReopens | scripts/lib/run-owned.py:119-133 | over any sequence of observations a closed group stays closed |
| ProcessOwner.SeenMeans | scripts/lib/run-owned.py:119-133 | a table keeps the group open exactly when a process of the group lives and no other process has the leader's number; the leader is remembered from the first table that lists it |
| ProcessOwner.KnownUntilGone | scripts/lib/run-owned.py:119-133 | only a table that shows a known process gone drops it; a failed observation never does |
| ProcessOwner.NothingLeftBehind | scripts/lib/run-owned.py:173-199 | when nothing is left, everything ever known was later seen to be gone |
| Supervisors.Supervisor.Sample | scripts/lib/run-owned.py:119-133 | one sample changes the knowledge as one observation, or not at all; it leaves the group open exactly when a process of the group lives and the leader's number is not reused |
| Supervisors.Supervisor.SignalMembers | scripts/lib/run-owned.py:65-77 | goes through the known identities in order, signalling those that a table taken just before shows alive, up to the first failed table or refused signal |
| Supervisors.MemberSignalsMean | scripts/lib/run-owned.py:65-77 | such a round is whole exactly when nothing cuts it short, and then no live identity is left out |
| Supervisors.Supervisor.Send | scripts/lib/run-owned.py:135-155 | a whole round of signals in place: sample, group, members, child, with the kernel's answers |
| Supervisors.SignalsAllowed | scripts/lib/run-owned.py:135-155 | every single sending, repeated ones too, was made by an encounter that allowed it at that moment: to the group while it was open, to a known member shown alive just before, or to the child |
| Supervisors.ClosedGroupIsLeftAlone | scripts/lib/run-owned.py:142-147 | from the moment it is closed, whatever was sent before and whatever is met, the group is never opened and nothing more is sent to it |
| Supervisors.RoundSendsOnce | scripts/lib/run-owned.py:65-77 | no round sends the same signal twice |
| Supervisors.GroupClosedBy | scripts/lib/run-owned.py:119-147 | an encounter closes the open group exactly when its table shows no live process of it or the leader's number reused, or the kernel says that it is empty |
| Supervisors.RoundDelivers | scripts/lib/run-owned.py:135-155 | a round signals the group that its table leaves open, the child, and every known process that is still alive, as far as the kernel lets it |
| Supervisors.EndingMeans | scripts/lib/run-owned.py:173-198 | after the waiting: the signal that ended it, or a termination, then looks, then kills, each after one more look |
| Supervisors.ExitCodes | scripts/lib/run-owned.py:199-204 | the exit code, case by case |
| Supervisors.CourseIsRun | scripts/lib/run-owned.py:119-155 | signals and causes aside, a supervision is a run of its observations and of the kernel's word on the group, so what holds of all such runs holds of it |
| Supervisors.WaitMeans | scripts/lib/run-owned.py:157-172 | the waiting takes every turn up to the first with a failed sample, a signal, the timeout or the command's end, with that turn's cause |
| Supervisors.Supervisor.Wait | scripts/lib/run-owned.py:157-172 | the waiting loop in place |
| Supervisors.LoopMeans | scripts/lib/run-owned.py:176-198 | the grace and kill loops meet exactly the rounds up to the first moment at which nothing is left |
| Supervisors.Supervisor.Grace | scripts/lib/run-owned.py:176-185 | the grace loop in place |
| Supervisors.Supervisor.Drain | scripts/lib/run-owned.py:189-198 | the kill loop in place |
| Supervisors.DroppedOnlyWhenShownGone | scripts/lib/run-owned.py:119-155 | what was known at some moment and is not at the end was shown gone by a table taken in between |
| Supervisors.ReasonIsTheFirstCause | scripts/lib/run-owned.py:135-152 | the first cause is kept, and without one it is 126 exactly when a sample failed or a round was cut short |
| Supervisors.RaisedWhenRefused | scripts/lib/run-owned.py:142-155 | a supervision is given up exactly when some round met a refusal of its signal to the open group or the child |
| Supervisors.Supervisor.Supervise | scripts/lib/run-owned.py:157-203 | what is met is exactly the rounds that the loops call for; it is given up exactly when some round met such a refusal, and there is an exit code exactly when none did and nothing is left; all that was ever known was then seen to be gone, and the code is that of the first signal, else of the first cause, else the command's own |
| Supervisors.RefusedSignalAbandonsTheGroup | scripts/lib/run-owned.py:142-147 | a refused signal ends the supervision with the group still open |
| StoreValidation.ValidateLayoutSections | packages/schema/validation/store.ts:122-166 | the counting loops give the issues of the layout rule |
| StoreValidation.LayoutExact | packages/schema/validation/store.ts:117-166 | no layout issues exactly when main and sidebar are a permutation of the content keys |
| StoreValidation.FormatOtherPaths | packages/schema/validation/store.ts:177-189 | the loop shows the first three peers and counts the rest |
| StoreValidation.PeersExact | packages/schema/validation/store.ts:177-189 | at most three different peers are named, and shown plus remaining is the true number of peers |
| StoreValidation.FirstPeersShown | packages/schema/validation/store.ts:177-189 | the peers named are the first ones in the order of their paths, in that order |
| StoreValidation.ValidateUniqueness | packages/schema/validation/store.ts:191-223 | the map-building loops give the issues of the identifier rule |
| StoreValidation.NoDuplicatesExact | packages/schema/validation/store.ts:191-223 | no issues exactly when all identifiers differ |
| StoreValidation.EveryIssueIsADuplicate | packages/schema/validation/store.ts:206-220 | every issue is that of a repeated occurrence and names its peers |
| StoreValidation.EveryDuplicateIsReported | packages/schema/validation/store.ts:206-220 | every repeated occurrence has an issue |
| StoreValidation.OneIssuePerDuplicate | packages/schema/validation/store.ts:206-220 | and only one |
| StoreOutput.EntryPathInjective | packages/schema/validation/store.ts:197-203 | different places have different paths |
| StoreOutput.EntryIdsExact | packages/schema/validation/store.ts:191-223 | the identifier rule on whole documents, both ways |
| StoreOutput.DetailIdsExact | packages/schema/validation/store.ts:230-254 | the same for contact details, which have one identifier each |
| StoreOutput.ValidateDocument | packages/schema/validation/store.ts:423-437 | all rules in order, then sorted |
| StoreOutput.IssueOrder | packages/schema/validation/store.ts:406-416 | path, rule and message order issues totally |
| StoreOutput.DuplicatesCanonical | packages/schema/validation/store.ts:205-220 | the identifier rules give one list for any order of the occurrences |
| StoreOutput.ValidateIsCanonical | packages/schema/validation/store.ts:418-437 | documents equal as maps give the same issues in the same order |
| StoreOutput.ValidateSorts | packages/schema/validation/store.ts:423-437 | the output is sorted, and no issue is added or lost |
| StoreReport.ReportMeans | packages/schema/validation/store.ts:423-437 | the report is what the seven rules find, and nothing else |
| StoreReport.LengthsReported | packages/schema/validation/store.ts:43-115 | exactly the rich texts of more than 16384 bytes are reported, each in the one rich field of its section type |
| StoreReport.DatesReported | packages/schema/validation/store.ts:256-325 | exactly the reversed date ranges of sections with dates are reported, a missing month being January |
| StoreReport.LayoutReported | packages/schema/validation/store.ts:122-166 | exactly the keys placed twice, placed without a section, or not placed are reported |
| StoreReport.UrlsReported | packages/schema/validation/store.ts:327-380 | exactly the contact details that must be https URLs and are other texts are reported |
| StoreReport.PhotoReported | packages/schema/validation/store.ts:382-398 | exactly a photo key with two dots in a row is reported |
| StoreReport.EntryIdsFound | packages/schema/validation/store.ts:191-203 | the identifiers compared are those of all entries, each at its place |
| StoreReport.DetailIdsFound | packages/schema/validation/store.ts:230-240 | and of all contact details |
| PdfLaws.BlockRestores | apps/web/e2e/pdf-paint.ts:464-468 | a balanced block leaves state and stack as they were (section 8.4.2 of ISO 32000-1), and the waiting clip to its last clip or path operator |
| PdfLaws.BlockRestoresAll | apps/web/e2e/pdf-paint.ts:463-468 | everything is restored exactly when the block leaves the waiting clip as it was |
| PdfLaws.WaitingClipEscapes | apps/web/e2e/pdf-paint.ts:518-519 | a page that is accepted with a clip waiting across a restore: the next path is clipped, and is not with an empty block instead |
| PdfLaws.StackBelow | apps/web/e2e/pdf-paint.ts:464-468 | inside a block the stack below it is out of reach |
| PdfLaws.MultiplyLaws | apps/web/e2e/pdf-paint.ts:127-134 | composing matrices is associative, with the identity on both sides |
| PdfLaws.MatrixIsProduct | apps/web/e2e/pdf-paint.ts:489-490 | after every accepted prefix, current and saved matrices are the viewport's times the product of the enclosing transforms |
| PdfLaws.PathMeans | apps/web/e2e/pdf-paint.ts:469-479 | a path marks its visible fill and stroke under the clip of that moment and then becomes part of the clip that waited; hairlines and dashes are refused |
| PdfLaws.EntriesMean | apps/web/e2e/pdf-paint.ts:503-517 | a graphics state dictionary is its entries one after another, with full alpha only inside a glyph |
| PdfLaws.FormMeans | apps/web/e2e/pdf-paint.ts:555-565 | a form runs under its own matrix and inside its own bounds |
| PdfLaws.PlaceActs | apps/web/e2e/pdf-paint.ts:655-675 | products of matrices act on points one after the other |
| PdfLaws.LinesAddUp | apps/web/e2e/pdf-paint.ts:593-606 | text starts at the origin of its matrix (section 9.4.2 of ISO 32000-1) |
| PdfLaws.LinesGoOn | apps/web/e2e/pdf-paint.ts:596-606 | moves add up, and the next line lies one leading below |
| PdfLaws.GlyphAdvance | apps/web/e2e/pdf-paint.ts:676-684 | adjustment and glyph advance the text as in section 9.4.4 of ISO 32000-1 for every size, except that a size of zero leaves the position alone |
| PdfLaws.TextMeans | apps/web/e2e/pdf-paint.ts:655-675 | text is inked in its font and color, raised by the rise, and only opaquely |
| PdfLaws.WalkerAgrees | apps/web/e2e/pdf-fonts.ts:101-138 | the walker is in the same fonts and saw the same font at every shown text, until text without a font |
| PdfLaws.WalkerAccepts | apps/web/e2e/pdf-fonts.ts:101-138 | on accepted pages it accepts exactly when every text was shown in a font |
| PdfLaws.WalkerStopsWithoutFont | apps/web/e2e/pdf-fonts.ts:101-138 | a page with a text before any font is accepted by the full interpreter and refused by the walker |
| PdfLaws.GlyphFonts | apps/web/e2e/pdf-fonts.ts:101-138 | the walker's loop |
| PdfInterpreter.StateObject.Apply | apps/web/e2e/pdf-paint.ts:489-517 | an operator on the state, in place, does what the step on values says |
| PdfInterpreter.PositionObject.Show | apps/web/e2e/pdf-paint.ts:676-684 | the text position moves glyph by glyph |
| PdfInterpreter.Interpreter.Push | apps/web/e2e/pdf-paint.ts:464-465 | saving copies every object of the state |
| PdfInterpreter.Interpreter.PopState | apps/web/e2e/pdf-paint.ts:466-468 | restoring brings back exactly the last saved state |
| PdfInterpreter.Interpreter.Visit | apps/web/e2e/pdf-paint.ts:480-686 | every operator on objects refines its step on values, and no saved state is reached |
| PdfInterpreter.Interpreter.Interpret | apps/web/e2e/pdf-paint.ts:440-700 | an operator list is accepted exactly as on values, with the same result |
| Rectangles.PdfExposed | apps/web/e2e/pdf-display.ts:257-275 | the loops give the pieces |
| Rectangles.CutExact | apps/web/e2e/pdf-display.ts:261-272 | one cut keeps exactly the points outside the shape, each once |
| Rectangles.ExposedExact | apps/web/e2e/pdf-display.ts:257-275 | a surface point outside every exclusion is in exactly one piece, any other point in none |
| Rectangles.PiecesDisjoint | apps/web/e2e/pdf-display.ts:257-275 | no two pieces share a point |
| Rectangles.PiecesNonEmpty | apps/web/e2e/pdf-display.ts:271 | every piece is non-empty when the surface is; an empty surface stays as it is |
| Rectangles.StepConservesArea | apps/web/e2e/pdf-display.ts:259-273 | one step takes away exactly the area that the shape covers |

## Left out

- OAuthServer: an account's changed authentication epoch counts as a revocation of its grants.
- Recovery.Runner.FinishRevocation: the removal of the sentinel in local mode.
- OwnerProcess.CreateFresh: checks of the account's shape, of the source and of the candidate are steps that give up.
- OwnerProcess.Reconcile: checks of the source binding and of the listed target are steps that give up.
- Listings.CheckBaseline: the intent's digests, revision, language, title, dates and payload are not part of it.
- PdfInterpreter.Interpreter.Visit: Type 3 glyph programs and image decoding.
- PdfInterpreter.Interpreter.Interpret: the same.
- PdfLaws.GlyphFonts: the extents that the walker collects for each font.
- ToolGuards.ToolGuard.Create: the deadline of a send is checked in the step system, not in the guard.
- Local mode in the step system: its proofs of replay and conflict, and the removal of its sentinel. `ToolGuards` and
  `GuardSteps` cover both modes.
- OwnerWorkflow: candidate and photo contents are not part of the step system; `Candidate` and `OwnerRuns` model their
  checks. A step that finds them wrong is the step that gives up.
- OwnerWorkflow: the refusal of an account that already holds a Vietnamese resume, and the second listing of the fresh
  path; both only stop a run earlier.
- OwnerWorkflow: a clock that drifts during one run, a message delivered twice by the network, and a power loss that
  undoes a synced write.
- Recovery.Runner.Interfere: the environment acts between calls, not inside one; a call and its effect on the server are
  one step.
- OwnerProcess.SdkRevocation: the observer's two facts, a denial with the journaled token and a refused reauthorization,
  are one flag; `ServerObservers` models them apart.
- The lock: one process at a time is built into the step system.
- File modes, ownership and symbolic links, argument parsing, OAuth authorization, browser, TLS and HTTP plumbing,
  evidence files and failure words.
- OwnerRuns.PhotoParity: the pixel comparison is a parameter.
- Listings.AccountBinding: the digest is taken as injective.
- RichText.Library: Unicode tables and the HTML parser are parameters; a blank is assumed not to be a digit.
- JsonScan.Library: the validity test is assumed to accept only JSON and every number; its nesting limit needs nothing
  more. Error texts are not modelled.
- PngRewrite.Library: the checksum is any function, and compression only has the law that room to spare inflates
  compressed bytes to themselves.
- PngRewrite.Take: chunk names are compared as 32-bit words.
- ProcessOwner: parsing of the process table.
- Supervisors: the checks before the launch and their exit codes 125 and 127, and the pauses between samples.
- Supervisors.Supervisor.Supervise: waiting forever is not a result; when the observations given run out, it is
  unfinished.
- StoreValidation.Library: message texts are any rendering of what they say; strings are sequences of Unicode scalars in
  the order of their numbers, while the source sorts by UTF-16 code units, which differs beyond the basic plane.
- StoreOutput: malformed shapes are normalised when a document is built: a null section has no type and no entries, a
  missing identifier is the empty string.
- PdfPaint: Type 3 glyph programs inside shown text, image decoding, ink size and glyph advances, and the fill rule of a
  mark. Operands are decoded before a step; one of a wrong shape is an unsupported operator.
- PdfPaint.Clipped: a clip is the list of paths that cut it; their geometry is a parameter.
- Rectangles: exact reals instead of floating point, and the colour probes that follow.
- SQL fixtures, migrations, operator commands, render budgets, browser journeys and cost scripts, which would add only
  easy members.
