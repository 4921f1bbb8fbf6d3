# Runway, verified

A model in Dafny 4.11 of the parts of Runway that hold its concurrency, reconciliation, protocol and
encoding logic, with proofs of what they keep. `dafny verify dfyconfig.toml` checks everything.

| files | what they model |
|---|---|
| `IdpRegistrations`, `IdpRegistrationProperties`, `IdpRegistrationHistory` | OIDC registrations under overlapping refreshes, discoveries, background retries and prunes. Code between two awaits is one step. |
| `IdpListener` | the connection that listens for configuration changes: reconnecting, late errors, shutdown |
| `UmSync`, `UmSyncProperties` | the sync with user management: the seven batches and the transaction |
| `Utf8`, `ExecutorErrors` | truncating stack traces by bytes without breaking characters (RFC 3629, section 3) |
| `MatchRates`, `IdTypes` | what the executor concludes from match-rate files and rosters |
| `ExecutorSteps`, `Executor`, `ExecutorProperties`, `ExecutorArtifacts`, `ExecutorReports`, `ExecutorScript`, `ExecutorUploads` | the job executor, whatever call raises: its posts, its error, its uploads, its report on unmatched students, and what it has to do, told without its script |
| `RunProtocol`, `RunProtocolProperties`, `RunProtocolHistory` | executors and the app together: overlapping starts, tokens, run status, lost messages and writes |
| `OdsConfigs`, `OdsHistory` | versioned ODS connections under stale reads |
| `Base64`, `TableParams` | table state in URL parameters (RFC 4648, section 4) |
| `PythonUrls`, `JobPayload`, `JobPayloadProperties` | a job from the destination check to what the executor unpacks |
| `Wrappers` | options and results |

Objects that the source updates in place are classes whose methods are proved against functions on
values; the results on runs and interleavings are lemmas about those functions. External calls are
parameters: a discovery's answer, a fetch, an S3 upload, an Earthmover run. In the executor they come
from a `World`, which says of each call whether it goes through, raises, or runs into the alarm, so a
statement for every world is one for every combination of faults.

## Where the code does less than it seems to

For each of these, a lemma gives the exact condition and another one an input or a run for which it
happens.

| what happens | exactly when | for example |
|---|---|---|
| A background retry registers an IdP and the prune of its own refresh unregisters it. | `PruneLeavesFirstSuccesses`, `RetryBeforePruneIsLost` | `RetryCanPrecedePrune` |
| A late error of a replaced listener drops its healthy successor. | `LateErrorDropsListenerIff` | `LateErrorHappens` |
| A pool client stays unreleased after shutdown. | `ClientLeaksIff` | `ClientLeakHappens` |
| A partner that user management dropped but still answers for gets its tenants back. | `SecondSyncIsSilentIff`, `DroppedPartnerComesBack` | `DroppedPartnerHappens` |
| A sync fails as a whole. | `CommitsIff` | `ListedTwiceAborts` |
| The count of unmatched students is not that of the reported ID. | `CountIsOfReportedIdIff` | `CountCanBeOfAnotherId` |
| More students are reported unmatched than remain. | `NoStudentIsLostIff` | `CountCanExceedWhatRemains` |
| studentUniqueId is reported though something replicates it. | `ReportsUniqueIdIff` | `NamelessReplicaHappens` |
| A run ends with an error that is never posted. | `ErrorGoesUnreportedIff` | `FailedSendHappens` |
| A job has two active runs. | `LeavesOneActiveIff`, `OneActiveUnlessStartsOverlap` | `TwoActiveRunsHappen` |
| A run can never end and blocks its job. | `CanEndIff`, `DoomedForGood` | `LostExecutorDooms`, `LostInitDooms`, `LostCompletionDooms` |
| A run is recorded as done and active. | `FinalIsRecorded` | `LostCompletionDooms` |
| An ODS connection is neither active nor retired. | `LiveConnectionsCount`, `LeavesOneBehindIff` | `OverlappingUpdatesLeaveOneBehind` |
| An accepted job is refused by the executor. | `PayloadUnpacks` | `AcceptedJobRefusedHappens` |
| The executor reads another roster than the one that was checked. | `RosterIsTheCheckedOneIff` | `AnotherRosterHappens` |
| The executor downloads another file than the uploaded one. | `DownloadIsUploadIff` | `AnotherDownloadHappens` |
| Column filters are lost. | `FiltersReadBackIff` | `FiltersAreLostHappens` |

## Model

| member | source | states |
|---|---|---|
| `IdpRegistrations.IdentityProviderService.OnApplicationBootstrap` | app/api/src/auth/login/identity-provider.service.ts:74-78 | booting starts the first refresh |
| `IdpRegistrations.IdentityProviderService.OnNotification` | app/api/src/auth/login/identity-provider.service.ts:247-262 | a notification aborts the refresh that is current and starts a new one, which becomes current |
| `IdpRegistrations.IdentityProviderService.SnapshotRead` | app/api/src/auth/login/identity-provider.service.ts:92-125 | a refresh starts one discovery for each row with OIDC config, partners, and a partner claim where there are several |
| `IdpRegistrations.IdentityProviderService.SnapshotFailed` | app/api/src/auth/login/identity-provider.service.ts:255-261 | a refresh whose read fails is over and has changed nothing |
| `IdpRegistrations.IdentityProviderService.ApplyIdpRegistration` | app/api/src/auth/login/identity-provider.service.ts:311-322 | a registration and the Passport strategy under its key are written together |
| `IdpRegistrations.IdentityProviderService.DiscoverySettled` | app/api/src/auth/login/identity-provider.service.ts:267-283 | a first discovery registers its IdP, or leaves a background retry behind, unless its refresh was aborted |
| `IdpRegistrations.IdentityProviderService.RetryWoken` | app/api/src/auth/login/identity-provider.service.ts:290-297 | a retry goes on after its sleep unless aborted |
| `IdpRegistrations.IdentityProviderService.RetrySettled` | app/api/src/auth/login/identity-provider.service.ts:296-309 | a retry registers its IdP, sleeps again, or gives up after ten attempts |
| `IdpRegistrations.IdentityProviderService.FinishRefresh` | app/api/src/auth/login/identity-provider.service.ts:127-138 | an unaborted refresh removes exactly the registrations, and their strategies, that are not among its first successes |
| `IdpRegistrationProperties.AfterKeepsInv` | app/api/src/auth/login/identity-provider.service.ts:92-139 | in every reachable state both tables hold the same IdPs, made from the same eligible rows, and the newest refresh is the only one not aborted |
| `IdpRegistrationProperties.EligibleRowsAreTheRows` | app/api/src/auth/login/identity-provider.service.ts:100-123 | the discoveries started are exactly those of the eligible rows |
| `IdpRegistrationProperties.LoginNeverMeetsAmbiguousPartner` | app/api/src/auth/login/identity-provider.service.ts:382-416 | a key is a Passport strategy exactly when its IdP is registered, with the same client and config, and no login can reach the multi-partner error |
| `IdpRegistrationProperties.EligibleIffLoginIsPossible` | app/api/src/auth/login/identity-provider.service.ts:100-118 | a row is tried exactly when some login with it can be given a partner |
| `IdpRegistrationProperties.OnlyNewestWrites` | app/api/src/auth/login/identity-provider.service.ts:129-138 | in every interleaving, a step that changes a table is one of the newest refresh |
| `IdpRegistrationProperties.OnlyItsDiscoveriesWrite` | app/api/src/auth/login/identity-provider.service.ts:119-138 | what is registered under an id changes only by a discovery of that id that succeeds, or by a prune without such a first discovery |
| `IdpRegistrationProperties.SupersededWindsDown` | app/api/src/auth/login/identity-provider.service.ts:267-309 | an aborted refresh starts no retry, and each of its retries ends at its next step |
| `IdpRegistrationProperties.SupersededRefreshIsInvisible` | app/api/src/auth/login/identity-provider.service.ts:247-309 | taking the steps of a superseded refresh out of any run changes nothing but that refresh |
| `IdpRegistrationHistory.HistoryHolds` | app/api/src/auth/login/identity-provider.service.ts:92-139 | what the history of events tells about the newest refresh: each IdP is in one place, and first successes are registered from the rows read |
| `IdpRegistrationHistory.PruneLeavesFirstSuccesses` | app/api/src/auth/login/identity-provider.service.ts:119-138 | after an unaborted prune the registered IdPs are exactly those whose first discovery succeeded, each with that row and client |
| `IdpRegistrationHistory.RegisteredSincePrune` | app/api/src/auth/login/identity-provider.service.ts:119-138 | from then on they are exactly those and the ones whose background retry has succeeded since the prune, each with the row that refresh read and the client of that discovery or retry |
| `IdpRegistrationHistory.RetryBeforePruneIsLost` | app/api/src/auth/login/identity-provider.service.ts:132-137 | an IdP whose retry succeeds before its refresh prunes is unregistered by that prune and stays so while that refresh is the newest |
| `IdpRegistrationHistory.RetrySucceedsOnce` | app/api/src/auth/login/identity-provider.service.ts:290-303 | a refresh registers an IdP by retry at most once |
| `IdpRegistrationHistory.PhaseOfNewest` | app/api/src/auth/login/identity-provider.service.ts:92-139 | a refresh reads once and is over exactly when it has pruned or failed to read |
| `IdpRegistrationHistory.RetryWaitsIff` | app/api/src/auth/login/identity-provider.service.ts:285-309 | an IdP has a retry waiting exactly when its first discovery has failed, no retry has succeeded and fewer than ten have failed; its number is one more than its failures, and it sleeps unless it has woken since |
| `IdpRegistrationHistory.WaitingRetryCanSucceed` | app/api/src/auth/login/identity-provider.service.ts:285-303 | so an issuer that comes back after at most nine failed retries is registered, with the row that was read |
| `IdpRegistrationHistory.RetryCanPrecedePrune` | app/api/src/auth/login/identity-provider.service.ts:119-138 | a history in which that loss happens |
| `IdpListener.ListenerService.ScheduleListener` | app/api/src/auth/login/identity-provider.service.ts:199-244 | scheduling does nothing while connecting or after shutdown; otherwise it drops the listening client and starts one attempt |
| `IdpListener.ListenerService.Connect` | app/api/src/auth/login/identity-provider.service.ts:213-219 | an attempt whose timer fires after shutdown asks for no client |
| `IdpListener.ListenerService.OnTimer` | app/api/src/auth/login/identity-provider.service.ts:240-241 | the step taken when the timer fires |
| `IdpListener.ListenerService.OnConnected` | app/api/src/auth/login/identity-provider.service.ts:219-225 | a client is adopted, or released at once after shutdown |
| `IdpListener.ListenerService.OnConnectFailed` | app/api/src/auth/login/identity-provider.service.ts:234-238 | a failed connection is tried again in five seconds unless shut down |
| `IdpListener.ListenerService.OnListened` | app/api/src/auth/login/identity-provider.service.ts:226-232 | once LISTEN is answered the client hears errors and no attempt is under way |
| `IdpListener.ListenerService.OnListenFailed` | app/api/src/auth/login/identity-provider.service.ts:234-238 | a failed LISTEN is tried again in five seconds unless shut down |
| `IdpListener.ListenerService.OnClientError` | app/api/src/auth/login/identity-provider.service.ts:228-231 | an error of any client that ever listened schedules a reconnection |
| `IdpListener.ListenerService.OnModuleDestroy` | app/api/src/auth/login/identity-provider.service.ts:80-90 | shutdown sends UNLISTEN to the listening client, if any |
| `IdpListener.ListenerService.OnUnlistenAnswered` | app/api/src/auth/login/identity-provider.service.ts:83-88 | that client is released when UNLISTEN succeeds and kept when it fails |
| `IdpListener.OneAttemptOneClient` | app/api/src/auth/login/identity-provider.service.ts:198-245 | in every run at most one attempt is under way, at most one client is held, and none is released twice |
| `IdpListener.ListeningOrTrying` | app/api/src/auth/login/identity-provider.service.ts:198-245 | between first scheduling and shutdown the service is listening exactly when no attempt is under way |
| `IdpListener.FailuresWait` | app/api/src/auth/login/identity-provider.service.ts:228-238 | the pool is asked for a client only on a scheduling from outside or when a timer fires, and whatever fails sets a timer first |
| `IdpListener.NothingStartsAfterShutdown` | app/api/src/auth/login/identity-provider.service.ts:80-90 | after shutdown no attempt starts and no client is adopted, whatever callbacks still come |
| `IdpListener.ClientLeaksIff` | app/api/src/auth/login/identity-provider.service.ts:80-90 | after shutdown a client stays unreleased exactly when UNLISTEN failed |
| `IdpListener.ClientLeakHappens` | app/api/src/auth/login/identity-provider.service.ts:80-90 | a run in which UNLISTEN fails and the client stays unreleased |
| `IdpListener.LateErrorDropsListenerIff` | app/api/src/auth/login/identity-provider.service.ts:199-209 | an error of any earlier client drops the current listener, up to shutdown |
| `IdpListener.LateErrorHappens` | app/api/src/auth/login/identity-provider.service.ts:228-231 | a run in which an error of a replaced client costs its healthy successor |
| `UmSync.ComputeBatches` | app/api/src/partner-sync/user-management/um-sync.handler.ts:70-154 | the loop over partners and fetched tenants computes the seven batches |
| `UmSync.DiffPartner` | app/api/src/partner-sync/user-management/um-sync.handler.ts:118-154 | the tenants of one partner: created, undeleted, updated and deleted ones; none when the fetch failed |
| `UmSync.Database.UpdateTenant` | app/api/src/partner-sync/user-management/um-sync.handler.ts:199-221 | an update hits exactly one tenant of a managed partner or fails |
| `UmSync.Database.UpdateTenants` | app/api/src/partner-sync/user-management/um-sync.handler.ts:198-221 | a batch of updates is done in order and stops at the first that fails |
| `UmSync.Database.Transact` | app/api/src/partner-sync/user-management/um-sync.handler.ts:156-227 | all batches are applied in the fixed order, or nothing changes |
| `UmSync.Database.Sync` | app/api/src/partner-sync/user-management/um-sync.handler.ts:47-230 | a sync without the partner list, or whose transaction does not commit, leaves the tables as they were |
| `UmSyncProperties.PartnerBatchesIff` | app/api/src/partner-sync/user-management/um-sync.handler.ts:70-93 | which partners are created, deleted and restored, and that nobody else is in a batch |
| `UmSyncProperties.PlanIff` | app/api/src/partner-sync/user-management/um-sync.handler.ts:70-122 | which partners lose their tenants, which get those that user management answers with, and which are left alone |
| `UmSyncProperties.TenantBatchMembers` | app/api/src/partner-sync/user-management/um-sync.handler.ts:95-154 | what each tenant batch contains, told from the state of the partner and what was fetched |
| `UmSyncProperties.WritesTargetManagedRows` | app/api/src/partner-sync/user-management/um-sync.handler.ts:198-221 | every update targets an existing tenant of a managed partner, so none can fail midway |
| `UmSyncProperties.WritesAreOfManaged` | app/api/src/partner-sync/user-management/um-sync.handler.ts:198-221 | whatever the writes, they go through only if each is of an existing tenant of a managed partner |
| `UmSyncProperties.BatchesAreDisjoint` | app/api/src/partner-sync/user-management/um-sync.handler.ts:70-154 | whatever the answers, repeated codes included, no tenant is in two tenant batches and no partner in two partner batches |
| `UmSyncProperties.RowsAreWrittenOnce` | app/api/src/partner-sync/user-management/um-sync.handler.ts:129-153 | with unique codes no tenant row is written by two different updates |
| `UmSyncProperties.WritesCommute` | app/api/src/partner-sync/user-management/um-sync.handler.ts:198-221 | updates of the same rows in any order leave the same tables |
| `UmSyncProperties.CommitsIff` | app/api/src/partner-sync/user-management/um-sync.handler.ts:156-227 | the transaction commits exactly when nothing new is listed twice |
| `UmSyncProperties.ListedTwiceAborts` | app/api/src/partner-sync/user-management/um-sync.handler.ts:70-71 | a new partner listed twice makes the whole sync fail |
| `UmSyncProperties.UniqueAnswersCommit` | app/api/src/partner-sync/user-management/um-sync.handler.ts:156-227 | with unique codes in the answers it always commits |
| `UmSyncProperties.SyncedPartnerAt` | app/api/src/partner-sync/user-management/um-sync.handler.ts:70-86 | what becomes of each partner row |
| `UmSyncProperties.SyncedTenantAt` | app/api/src/partner-sync/user-management/um-sync.handler.ts:95-154 | what becomes of each tenant row |
| `UmSyncProperties.Converges` | app/api/src/partner-sync/user-management/um-sync.handler.ts:56-221 | afterwards a managed partner is live exactly when listed, the live tenants of a fetched partner are those in the answer with equal isGlobal, and a deleted partner has none |
| `UmSyncProperties.LeavesTheRestAlone` | app/api/src/partner-sync/user-management/um-sync.handler.ts:64-122 | without a list of partners nothing changes; whatever the answers and whether or not the transaction commits, unmanaged partners, their tenants, and tenants whose fetch failed are unchanged |
| `UmSyncProperties.SecondSyncIsSilentIff` | app/api/src/partner-sync/user-management/um-sync.handler.ts:70-154 | a second sync on the same answers has seven empty batches, and then changes no row, exactly when user management answers with no tenants for the partners that were just deleted |
| `UmSyncProperties.DroppedPartnerComesBack` | app/api/src/partner-sync/user-management/um-sync.handler.ts:102-107 | otherwise, two syncs later, the deleted partner has live tenants again |
| `UmSyncProperties.DroppedPartnerHappens` | app/api/src/partner-sync/user-management/um-sync.handler.ts:102-107 | a partner for which that happens |
| `Utf8.StepReadsEncodedScalar` | executor/executor/errors.py:17-19 | one step of decoding reads back one encoded scalar, whatever follows |
| `Utf8.EncodedLength` | executor/executor/errors.py:17 | lengths and lead bytes of encoded scalars, as in section 3 of RFC 3629 |
| `Utf8.EmitsWhatIsEncoded` | executor/executor/errors.py:19 | the decoder emits nothing but what its bytes encode |
| `Utf8.SkipsNothingEncoded` | executor/executor/errors.py:19 | what it skips is no encoded scalar, and skipping stops before the first byte that cannot continue one |
| `Utf8.SkipsBeginnings` | executor/executor/errors.py:19 | several bytes skipped at once could have begun a scalar |
| `Utf8.DecodeInvertsEncode` | executor/executor/errors.py:17-19 | decoding inverts encoding on every string of Unicode scalar values |
| `Utf8.LeadingContinuationsAreDropped` | executor/executor/errors.py:19 | bytes cut off from their lead byte decode to nothing |
| `Utf8.TruncateKeepsLongestFittingSuffix` | executor/executor/errors.py:16-19 | what is kept of a stack trace is its longest suffix that fits the byte budget, at most three bytes short of it |
| `Utf8.TruncateIsIdempotent` | executor/executor/errors.py:16-19 | truncating again changes nothing |
| `ExecutorErrors.ExecutorError.ToJson` | executor/executor/errors.py:15-22 | the JSON form has the truncated trace and every other attribute but the code, and the trace is overwritten |
| `ExecutorErrors.ToJsonTwice` | executor/executor/errors.py:15-22 | sending an error twice sends the same payload, within the budget; the trace is whole exactly when it fits |
| `MatchRates.HighestAt` | executor/executor/executor.py:742 | the row that a stable descending sort puts first: the first of the highest rates |
| `MatchRates.GoesOnIff` | executor/executor/executor.py:434-473 | matching goes on exactly when the deciding pass has a row at or above one half or a best row with nothing unmatched, and the unmatched count is then known |
| `MatchRates.SecondPassIff` | executor/executor/executor.py:455-471 | which jobs take a second pass; without one the best row of the first is what is recorded, with one the count is that of the second file |
| `MatchRates.NoStudentIsLostIff` | executor/executor/executor.py:530-601 | after a first pass that met the threshold: the reported count and the best rows of both passes make up at least the input rows, and just those exactly when no row of the second file is better than its first |
| `MatchRates.CountIsOfRowIff` | executor/executor/executor.py:993-1001 | whichever pass decides, the reported count is that of a row of the second file exactly when that row is as good as the first |
| `MatchRates.CountIsOfReportedIdIff` | executor/executor/executor.py:993-1001 | the reported count belongs to the reported ID exactly when its row of the second file is as good as the first; when the second pass decides, exactly when no row is better than the first |
| `MatchRates.CountCanBeOfAnotherId` | executor/executor/executor.py:993-1001 | a second pass that decides and for which it does not |
| `MatchRates.CountCanExceedWhatRemains` | executor/executor/executor.py:546-597 | two passes, of which the first decides, after which three students are reported unmatched though one remains |
| `IdTypes.LastPartAt` | executor/executor/executor.py:653 | where the ID type of a descriptor starts: after its last number sign, or at its start |
| `IdTypes.CountCode` | executor/executor/executor.py:652-662 | what one code of a roster record adds, and which key errors end its record |
| `IdTypes.CountCodes` | executor/executor/executor.py:649-665 | one record: what was counted before a missing key is kept |
| `IdTypes.DropSparseTypes` | executor/executor/executor.py:672-687 | the types that at least half of the records have a value for |
| `IdTypes.UnpackIdTypes` | executor/executor/executor.py:626-710 | the whole of unpack_id_types |
| `IdTypes.BestAt` | executor/executor/executor.py:698 | the type that max() picks: the first of those with the highest ratio |
| `IdTypes.UnpackedIsRight` | executor/executor/executor.py:626-710 | for every roster, malformed records included: no division by zero, success unless a record raises what is not handled, distinct types and proxy are all types mentioned, and the proxy is dense, at or above 0.95 and maximal, and exists whenever some dense type reaches 0.95 |
| `IdTypes.ReportsUniqueIdIff` | executor/executor/executor.py:776-779 | studentUniqueId is reported exactly when it matched and nothing replicates it, or the replica has an empty name or that same name |
| `IdTypes.NamelessReplicaHappens` | executor/executor/executor.py:653 | a roster whose replica has an empty name |
| `Executor.JobExecutor.constructor` | executor/executor/executor.py:39-61 | a fresh executor has taken no step |
| `Executor.JobExecutor.Raise` | executor/executor/executor.py:83-85 | an exception keeps the error its handler records; a failed Earthmover run unflags the match rates |
| `Executor.JobExecutor.Try` | executor/executor/executor.py:237-254 | an external call goes through or raises |
| `Executor.JobExecutor.SetAction` | executor/executor/executor.py:913-929 | beginning an action posts the success of the one before, if any, and its own begin |
| `Executor.JobExecutor.UploadArtifact` | executor/executor/executor.py:880-911 | an uploaded artifact loses its flag; a failed upload raises |
| `Executor.JobExecutor.SetNeedsUpload` | executor/executor/artifacts.py:10-14 | the flag of an artifact |
| `Executor.JobExecutor.UnpackIdTypes` | executor/executor/executor.py:626-710 | its results are kept for the report |
| `Executor.JobExecutor.RecordHighestMatchRate` | executor/executor/executor.py:712-749 | the best row of the file becomes the recorded rate, ID and count |
| `Executor.JobExecutor.EnforceMatchThreshold` | executor/executor/executor.py:751-765 | raises unless the recorded matches suffice |
| `Executor.JobExecutor.RefreshBundleCode` | executor/executor/executor.py:233-254 | its script of steps, up to the first that raises |
| `Executor.JobExecutor.EarthmoverDepsAndSsl` | executor/executor/executor.py:113-116 | likewise, with the local change of the Lightbeam configuration |
| `Executor.JobExecutor.FetchStudentRoster` | executor/executor/executor.py:292-303 | the roster comes from the ODS, from EDU or from S3 |
| `Executor.JobExecutor.GetStudentRoster` | executor/executor/executor.py:288-305 | likewise, with the upload of the roster |
| `Executor.JobExecutor.DownloadInputFiles` | executor/executor/executor.py:376-397 | one download per input file, in order |
| `Executor.JobExecutor.GetInputFiles` | executor/executor/executor.py:372-397 | likewise, with the action it belongs to and the descriptor mapping that follows it |
| `Executor.JobExecutor.CrossYearMatching` | executor/executor/executor.py:530-601 | the second pass: its steps and what it leaves recorded |
| `Executor.JobExecutor.OrchestrateEarthmover` | executor/executor/executor.py:434-473 | both passes: their steps, and that what is recorded at the end is what the match-rate files call for |
| `Executor.JobExecutor.RunLightbeam` | executor/executor/executor.py:786-806 | a send that exits with an error records it and goes on |
| `Executor.JobExecutor.SendToOds` | executor/executor/executor.py:786-821 | sending happens only for jobs with an ODS and raises when everything failed |
| `Executor.JobExecutor.ReportUnmatchedStudents` | executor/executor/executor.py:767-784 | students are reported, and their file flagged and uploaded, exactly when some remain |
| `Executor.JobExecutor.UploadOutputSets` | executor/executor/executor.py:841-871 | one upload per output set, and one notice for each that has files |
| `Executor.JobExecutor.UnpackJob` | executor/executor/executor.py:162-231 | unpacking learns the status URL first and the error URL second |
| `Executor.JobExecutor.UploadRemainingArtifacts` | executor/executor/executor.py:873-878 | shutdown uploads what is still flagged, in order, up to an upload that raises |
| `Executor.JobExecutor.UpdateFailure` | executor/executor/executor.py:937-953 | the failure is posted until answered, three times at most |
| `Executor.JobExecutor.ShutDownAfterFailure` | executor/executor/executor.py:128-150 | failures, error and final failure, as far as their URLs are known |
| `Executor.JobExecutor.ReportSuccess` | executor/executor/executor.py:151-160 | the success of the last action and the final success |
| `Executor.JobExecutor.Execute` | executor/executor/executor.py:87-160 | the whole run has the effect of its script followed by success or shutdown |
| `ExecutorProperties.FirstFault` | executor/executor/executor.py:94-126 | the first step that raises decides where a run stops |
| `ExecutorProperties.ScriptPlan` | executor/executor/executor.py:108-126 | the actions of a run come in one fixed order |
| `ExecutorProperties.SuccessfulTrace` | executor/executor/executor.py:151-160 | without a fault: begin and success of every action in order, then one final success |
| `ExecutorProperties.FailedTrace` | executor/executor/executor.py:128-160 | with a fault at any point after unpacking: matched pairs of the first actions, the open begin, one to three failures of it, one error, one final failure |
| `ExecutorProperties.TraceBeforeUnpacking` | executor/executor/executor.py:128-160 | with an earlier fault: nothing, or failures of the empty action and a final failure, with the error only once its URL is known |
| `ExecutorProperties.FailuresUntilAnswered` | executor/executor/executor.py:937-953 | how many failures are posted |
| `ExecutorProperties.RecordedError` | executor/executor/executor.py:128-137 | whatever raises, an error is recorded, and without that only a failed send leaves one |
| `ExecutorProperties.ErrorGoesUnreportedIff` | executor/executor/executor.py:803-806 | the error that a run ends with is never posted exactly when a step up to the unpacking of the error URL has raised, or nothing has and a send to the ODS has failed |
| `ExecutorProperties.FailedSendHappens` | executor/executor/executor.py:803-806 | a job and a world in which a send fails, the run ends in success and its error is never posted |
| `ExecutorArtifacts.UnmatchedUploadedIff` | executor/executor/artifacts.py:42-48 | at every fault point, shutdown included: when exactly the unmatched-students file is uploaded |
| `ExecutorArtifacts.UnmatchedOnlyAfterMatching` | executor/executor/executor.py:767-784 | it is never uploaded unless every step of matching and sending has gone through and the number of unmatched students is known and not zero |
| `ExecutorArtifacts.SuccessUploadsAll` | executor/executor/artifacts.py:17-54 | a run without a fault uploads every artifact it has exactly once and leaves none flagged |
| `ExecutorArtifacts.NoMatchRatesAfterFailedRun` | executor/executor/executor.py:517-528 | after a failed Earthmover run the match-rates file is never uploaded |
| `ExecutorReports.AppIsToldIff` | executor/executor/executor.py:767-784 | in every run the app is told of unmatched students at most once, exactly when every step of matching and sending has gone through, some remain and the report is taken; it is told their number, the ID that matched best and its type, or for studentUniqueId the dense type that replicates it best; and their file is uploaded only if it is told |
| `ExecutorScript.InScriptIff` | executor/executor/executor.py:94-126 | the steps of a run are exactly those that its job and world call for: which roster, every input file, a second pass, output sets with files |
| `ExecutorScript.ScriptInOrder` | executor/executor/executor.py:94-126 | and they come in one fixed order |
| `ExecutorScript.DownloadsAt` | executor/executor/executor.py:376-397 | input files are downloaded one by one in their order |
| `ExecutorScript.SucceedsIff` | executor/executor/executor.py:94-160 | the final success is posted exactly when every call the job makes goes through, every artifact can be uploaded, the roster unpacks, the matches suffice, and sending does not fail altogether |
| `ExecutorScript.FaultIsWhereItStops` | executor/executor/executor.py:94-128 | otherwise the run stops at the first of these that raises |
| `ExecutorScript.ReportsWhereItStops` | executor/executor/executor.py:128-160 | where it stops decides what it reports: the error of that step, the begin of the actions before it and of no other, and a final failure |
| `ExecutorScript.AllFailedIsReported` | executor/executor/executor.py:815-821 | when everything failed to send, the run fails with that error and uploads no output |
| `ExecutorScript.MissedThresholdIsReported` | executor/executor/executor.py:751-765 | when the matches do not suffice, it fails with that error, and nothing is sent or uploaded |
| `ExecutorUploads.UploadedIff` | executor/executor/artifacts.py:10-54 | for every artifact and wherever the run stops, shutdown included: when exactly it is uploaded |
| `RunProtocol.RunwayApi.AnyActive` | app/api/src/jobs/jobs.service.ts:389-392 | whether a job has a run that is new or running |
| `RunProtocol.RunwayApi.StartJob` | app/api/src/jobs/jobs.service.ts:381-430 | a run is created for a complete job without an active one; a failed launch ends it in error |
| `RunProtocol.RunwayApi.InitRunOnce` | app/api/src/earthbeam/api/auth/earthbeam-api-auth.service.ts:66-90 | only a new run is initialised, and then runs |
| `RunProtocol.RunwayApi.UpdateStatus` | app/api/src/earthbeam/api/earthbeam-api.controller.ts:171-192 | an update is recorded once; a recorded done then completes the run, unless that second write fails |
| `RunProtocol.RunwayApi.Complete` | app/api/src/earthbeam/api/earthbeam-api.service.ts:200-204 | completing a run gives it the final status |
| `RunProtocol.RunwayApi.ReportError` | app/api/src/earthbeam/api/earthbeam-api.controller.ts:194-204 | an error is recorded for its run |
| `RunProtocol.RequestsStayWithinTheirRun` | app/api/src/earthbeam/api/auth/earthbeam-api-auth.guard.ts:26-51 | no request, with any token, changes a run other than its token's, not even by completing it, or anything without a valid token |
| `RunProtocol.TokensAreForTheirRun` | app/api/src/earthbeam/api/auth/earthbeam-api-auth.guard.ts:33-50 | the token an executor is launched with initialises its run and no other, and the one it is answered with is good for that run's posts and no others |
| `RunProtocol.InitAnswersWithAccess` | app/api/src/earthbeam/api/auth/earthbeam-api-auth.service.ts:66-97 | an init that succeeds was made with a valid init token for that run, and is answered with an access token for it |
| `RunProtocol.RefusedIff` | app/api/src/earthbeam/api/earthbeam-api.controller.ts:171-204 | which posts are refused: without a valid access token for the run, without an action, or repeated |
| `RunProtocol.MayStartIff` | app/api/src/jobs/jobs.service.ts:381-392 | a job may be started exactly when it is complete and each of its runs has ended |
| `RunProtocolProperties.StoryEndsDone` | executor/executor/executor.py:152-160 | an executor says it is done once, last, and with success exactly when nothing raised |
| `RunProtocolProperties.AfterKeepsInv` | app/api/src/jobs/jobs.service.ts:381-427 | what holds of runs, executors, updates and completions in every reachable state |
| `RunProtocolProperties.InitialisedOnce` | app/api/src/earthbeam/api/auth/earthbeam-api-auth.service.ts:72-84 | in every interleaving each run is initialised at most once |
| `RunProtocolProperties.OneActiveUnlessStartsOverlap` | app/api/src/jobs/jobs.service.ts:389-400 | a job has two active runs only if two of its starts overlap, both passing the check before either creates its run |
| `RunProtocolProperties.LeavesOneActiveIff` | app/api/src/jobs/jobs.service.ts:389-400 | in every reachable state, creating the runs of the starts that have passed their checks leaves at most one active run exactly when there is at most one such start and none besides an active run |
| `RunProtocolProperties.TwoActiveRunsHappen` | app/api/src/jobs/jobs.service.ts:389-400 | two overlapping starts that leave two active runs |
| `RunProtocolProperties.StatusMoves` | app/api/src/earthbeam/api/earthbeam-api.service.ts:200-204 | a status moves only from new to running or error and from running to success or error |
| `RunProtocolProperties.TerminalIsFinal` | app/api/src/earthbeam/api/earthbeam-api.service.ts:200-204 | a final status stays, whatever happens |
| `RunProtocolProperties.StatusTellsTheStory` | app/api/src/earthbeam/api/earthbeam-api.controller.ts:185-191 | success is shown only for a run in which nothing raised; error only for one in which something did or that could not be started |
| `RunProtocolProperties.FinalIsRecorded` | app/api/src/earthbeam/api/earthbeam-api.controller.ts:176-191 | at most one end of a run is recorded, the one its executor came to; a run is final exactly when it is recorded as done and its completion is neither to come nor lost, and recorded and active exactly when it is |
| `RunProtocolProperties.DoomedForGood` | app/api/src/jobs/jobs.service.ts:389-392 | a run that is not being completed and whose executor is gone, has posted all it has, or has had its init token used up stays active for ever, and no further start of its job passes its check |
| `RunProtocolProperties.CanEndIff` | app/api/src/earthbeam/api/earthbeam-api.controller.ts:176-191 | in every reachable state an active run can still end exactly when it is not in that situation |
| `RunProtocolProperties.LostExecutorDooms` | app/api/src/jobs/jobs.service.ts:402-403 | a run whose executor is lost |
| `RunProtocolProperties.LostInitDooms` | app/api/src/earthbeam/api/auth/earthbeam-api-auth.service.ts:77-80 | a run whose answer to the init request is lost |
| `RunProtocolProperties.LosingCompletionDooms` | app/api/src/earthbeam/api/earthbeam-api.controller.ts:185-191 | whenever the write that completes a recorded run is lost, the run can no longer end |
| `RunProtocolProperties.LostCompletionDooms` | app/api/src/earthbeam/api/earthbeam-api.controller.ts:185-191 | a run for which that happens |
| `RunProtocolHistory.RecordsWhatIsDelivered` | app/api/src/earthbeam/api/earthbeam-api.controller.ts:171-204 | in every interleaving the app has recorded of a run exactly the updates and errors that its executor posted and that arrived, and a launch that failed |
| `RunProtocolHistory.DeliveredInOrder` | executor/executor/executor.py:913-953 | what arrives are some of the executor's posts, in its order and each at most once |
| `RunProtocolHistory.RunsComeFromChecks` | app/api/src/jobs/jobs.service.ts:381-400 | a job gets at most one run for each time it is started when complete, and none otherwise |
| `OdsConfigs.OdsConfigService.CreateOne` | app/api/src/ods-config/ods-config.service.ts:83-128 | creation makes a configuration with its connection, or conflicts exactly when one is in use for the tenant and year |
| `OdsConfigs.OdsConfigService.UpdateRead` | app/api/src/ods-config/ods-config.service.ts:46-59 | the read before an update |
| `OdsConfigs.OdsConfigService.UpdateCommit` | app/api/src/ods-config/ods-config.service.ts:147-179 | its transaction retires the connection that was read and activates a new one |
| `OdsConfigs.OdsConfigService.UpdateConnectionStatus` | app/api/src/ods-config/ods-config.service.ts:188-211 | only the last use of the active connection changes |
| `OdsConfigs.OdsConfigService.RetireOne` | app/api/src/ods-config/ods-config.service.ts:213-221 | a configuration is retired |
| `OdsConfigs.ActiveConnectionIsLive` | app/api/src/ods-config/ods-config.service.ts:46-59 | in every interleaving each active connection exists, is its configuration's own and is not retired, and no tenant has two configurations in use for a year |
| `OdsConfigs.HistoryIsPreserved` | app/api/src/ods-config/ods-config.service.ts:136-141 | owner, host, client id and secret never change, and retirement is for good |
| `OdsConfigs.LiveConnectionsCount` | app/api/src/ods-config/ods-config.service.ts:142-169 | a configuration has one live connection and one more for every update that committed on a stale read |
| `OdsConfigs.OverlappingUpdatesLeaveOneBehind` | app/api/src/ods-config/ods-config.service.ts:142-169 | two overlapping updates that leave a connection behind |
| `OdsHistory.VersionsImplementRecords` | app/api/src/ods-config/ods-config.service.ts:83-221 | after every history, a configuration and its active connection hold what its creation, the updates committed since and the recorded uses say, as if updates changed one record in place |
| `OdsHistory.UpdateTakesEffect` | app/api/src/ods-config/ods-config.service.ts:130-186 | from its commit until the next one for the configuration, the active connection holds the credentials that the update was called with |
| `OdsHistory.FoundIff` | app/api/src/ods-config/ods-config.service.ts:46-59 | findOne finds exactly what has been created and not been retired |
| `OdsHistory.LeavesOneBehindIff` | app/api/src/ods-config/ods-config.service.ts:142-154 | an update leaves a connection behind exactly when another one that had read the same version has committed before it |
| `OdsHistory.ConnectionsAreRetired` | app/api/src/ods-config/ods-config.service.ts:147-154 | a connection is retired when an update that had read it commits, and only then |
| `Base64.AtobInvertsBtoa` | app/common-ui/src/lib/dataTable/index.tsx:65-81 | base64 (RFC 4648, section 4) reads back every sequence of bytes |
| `Base64.BtoaDigits` | app/common-ui/src/lib/dataTable/index.tsx:113-114 | its text has nothing in it that a URL would escape with a percent sign |
| `Base64.AtobIgnoresSpaces` | app/common-ui/src/lib/dataTable/index.tsx:71 | white space anywhere in a base64 text makes no difference |
| `Base64.AtobReadsIff` | app/common-ui/src/lib/dataTable/index.tsx:71 | which texts can be read |
| `Base64.AtobNeedsNoPadding` | app/common-ui/src/lib/dataTable/index.tsx:71 | padding does not have to be there |
| `TableParams.PrefixedNamesDiffer` | app/common-ui/src/lib/dataTable/index.tsx:62-63 | names of different settings or tables never collide |
| `TableParams.ParseInvertsDecimal` | app/common-ui/src/lib/dataTable/index.tsx:29-33 | numbers read back from their figures |
| `TableParams.SearchParams.SetPaginationParams` | app/common-ui/src/lib/dataTable/index.tsx:83-100 | defaults take no parameter |
| `TableParams.SearchParams.SetGlobalFilterParam` | app/common-ui/src/lib/dataTable/index.tsx:101-112 | an empty search takes no parameter |
| `TableParams.SearchParams.SetColumnFilterParam` | app/common-ui/src/lib/dataTable/index.tsx:115-126 | filters are written as base64; beyond Latin-1 the call throws and the parameter is gone |
| `TableParams.SearchParams.SetSortParams` | app/common-ui/src/lib/dataTable/index.tsx:128-143 | the loop writes columns and directions side by side |
| `TableParams.PaginationReadsBack` | app/common-ui/src/lib/dataTable/index.tsx:20-34 | what was written is read back |
| `TableParams.SortReadsBack` | app/common-ui/src/lib/dataTable/index.tsx:35-52 | what was written is read back |
| `TableParams.SortIsReadIff` | app/common-ui/src/lib/dataTable/index.tsx:35-52 | whatever the URL says: a sorting is read exactly where both parameters list as many values, column by column |
| `TableParams.SearchReadsBackIff` | app/common-ui/src/lib/dataTable/index.tsx:53-60 | what was written is read back exactly unless it was the empty string |
| `TableParams.FiltersReadBackIff` | app/common-ui/src/lib/dataTable/index.tsx:65-81 | what was written is read back exactly when there are no filters or their JSON is Latin-1; otherwise none are read |
| `TableParams.FiltersAreLostHappens` | app/common-ui/src/lib/dataTable/index.tsx:115-126 | a filter that is lost |
| `TableParams.NamesAreApart` | app/common-ui/src/lib/dataTable/index.tsx:62-63 | two settings share a parameter exactly when they are of the same kind and table |
| `TableParams.SettingsAreIndependent` | app/common-ui/src/lib/dataTable/index.tsx:83-143 | setters of different kinds or tables commute; one of the same kind and table replaces the one before |
| `TableParams.GettersAreIndependent` | app/common-ui/src/lib/dataTable/index.tsx:20-81 | a setter changes nothing that the getters of other kinds or tables read |
| `PythonUrls.S3KeyReadsBackIff` | executor/executor/executor.py:355-357 | an S3 key is read back from its URL exactly when nothing in it has a meaning in a URL |
| `PythonUrls.FileNameReadsBackIff` | executor/executor/executor.py:378-387 | a file name is its own URL path exactly when the user's part has no question mark, tab, line break, or semicolon after its last slash |
| `JobPayload.CollectParams` | app/api/src/earthbeam/api/earthbeam-api.service.ts:95-108 | the accumulator of parameters |
| `JobPayload.CollectFiles` | app/api/src/earthbeam/api/earthbeam-api.service.ts:116-120 | the accumulator of files |
| `JobPayloadProperties.ParamsArriveAsSubmitted` | app/api/src/jobs/jobs.service.ts:206-298 | for every accepted input, each parameter is sent as submitted, but for API_YEAR and, where the partner has one, DESCRIPTOR_NAMESPACE |
| `JobPayloadProperties.SentParamsAreValid` | app/api/src/jobs/jobs.service.ts:199-246 | what is sent is what the bundle asks for: required parameters are there, values are allowed ones, and nothing is unexpected |
| `JobPayloadProperties.SentFilesAreValid` | app/api/src/jobs/jobs.service.ts:248-269 | likewise for files |
| `JobPayloadProperties.AcceptedIff` | app/api/src/jobs/jobs.service.ts:199-269 | which submissions are accepted |
| `JobPayloadProperties.CreatedAsAccepted` | app/api/src/jobs/jobs.service.ts:271-321 | a job is created for the tenant, year, destination, bundle and files that were accepted |
| `JobPayloadProperties.StoredAsDeclared` | app/api/src/jobs/jobs.service.ts:271-299 | a stored parameter has the name and rules that the bundle gives it |
| `JobPayloadProperties.DestinationIff` | app/api/src/jobs/jobs.service.ts:82-144 | which destinations are accepted, and which ODS is sent to |
| `JobPayloadProperties.BasePathsDiffer` | app/api/src/jobs/jobs.service.ts:301-313 | no two jobs keep their files in the same place |
| `JobPayloadProperties.TemplateListsExpected` | app/models/src/dtos/job-template.dto.ts:43-60 | the template snapshot lists exactly the bundle's parameters |
| `JobPayloadProperties.PayloadUnpacks` | executor/executor/executor.py:162-231 | whatever the app sends has every key that is read; the job is refused exactly for want of INPUT_FILE |
| `JobPayloadProperties.UnpacksIff` | executor/executor/executor.py:162-231 | whatever the payload: which are unpacked, and at which key the others fail |
| `JobPayloadProperties.SettingsAreAsMeant` | app/api/src/earthbeam/api/earthbeam-api.service.ts:139-192 | each value that the executor takes is the one the app means: the URL of its own route, the credentials of the ODS connection, the bundle of the job |
| `JobPayloadProperties.SentOnlyWhereNeeded` | app/api/src/earthbeam/api/earthbeam-api.service.ts:178-192 | ODS credentials are sent only to jobs that send there, and a roster file only where it will be read |
| `JobPayloadProperties.SourceIff` | executor/executor/executor.py:172-196 | the two flags, with their defaults, decide where the roster comes from |
| `JobPayloadProperties.AcceptedJobUnpacks` | app/api/src/jobs/jobs.service.ts:260-269 | an accepted job of a bundle that requires INPUT_FILE is unpacked |
| `JobPayloadProperties.AcceptedJobRefusedHappens` | executor/executor/executor.py:222-231 | an accepted job of another bundle that is refused |
| `JobPayloadProperties.RosterIsTheCheckedOneIff` | app/api/src/jobs/jobs.service.ts:97-144 | the executor's roster source is the one that was checked exactly when the toggle is unchanged and, in S3, the codes have nothing of a URL in them |
| `JobPayloadProperties.AnotherRosterHappens` | executor/executor/executor.py:355-357 | a partner whose roster is looked for elsewhere |
| `JobPayloadProperties.DownloadIsUploadIff` | app/api/src/jobs/jobs.service.ts:301-313 | the executor downloads what was uploaded exactly when the file's name has nothing of a URL in it |
| `JobPayloadProperties.AnotherDownloadHappens` | executor/executor/executor.py:378-387 | a file for which it looks elsewhere |

## Left out

- Executor.JobExecutor.Execute: the alarm fires only at external calls inside the try block, and posts to the status and error URLs do not raise; an alarm in the handlers is not modelled.
- Executor.JobExecutor.Try: an external call is one step; the retries inside `stream_to_file` and the second encoding attempt of `earthmover_run` belong to that step, and the commands themselves are outside.
- Executor.JobExecutor.SendToOds: the contents of Lightbeam's results file are reduced to whether all of them failed.
- Executor.JobExecutor.UploadOutputSets: the files of an output set are uploaded in one step, and the summary counts of `output_sets.py` are not modelled.
- ExecutorErrors.ExecutorError.ToJson: `execute` fills in a missing stack trace before it sends an error, so a trace of None is not modelled.
- IdTypes.UnpackIdTypes: match rates and ratios are exact reals, without the rounding of floating-point numbers; a roster line that is no JSON ends the run like one that is no object.
- MatchRates.NoStudentIsLostIff: that the second pass reads only unmatched rows is taken from the bundle's contract, which is not part of this repository.
- IdpRegistrations.IdentityProviderService.ApplyIdpRegistration: the constructor of the Passport strategy is taken not to throw; if it did, the registration would be written and the strategy not.
- IdpRegistrations.IdentityProviderService.RetryWoken: the length of the back-off, which does not affect what is registered.
- IdpRegistrations.IdentityProviderService.OnNotification: `refreshRegistrations` without a signal, which no code outside tests calls.
- IdpRegistrationProperties.LoginNeverMeetsAmbiguousPartner: of the strategy callback only the choice of partner; how claims become a user, roles and a session is left out.
- IdpListener.ListenerService.OnModuleDestroy: it is called once, as the framework does.
- IdpListener.FailuresWait: the length of the delay before a reconnection.
- UmSync.Database.Sync: one time stamp per sync, and no other writer between the read and the transaction.
- RunProtocol.RunwayApi.StartJob: a launch that throws has launched nothing.
- RunProtocolProperties.InitialisedOnce: a transaction of the database is one step, here and for ODS configurations; isolation levels under which two init requests could both find a run new are not modelled.
- RunProtocol.RunwayApi.UpdateStatus: what `completeRun` does after writing the status (listing output files, notifying) and the summary, unmatched-ids, output-files and roster routes.
- RunProtocolProperties.StatusTellsTheStory: which run an init answer reaches is the framework's routing; a token is its run id and type, and signatures and lifetimes are an expired flag.
- OdsConfigs.OdsConfigService.CreateOne: encryption of the secret, which is kept as it is given.
- OdsConfigs.OdsConfigService.UpdateCommit: calls for a configuration that does not exist, which the read before it rules out.
- TableParams.PaginationReadsBack: page sizes and indexes other than natural numbers.
- TableParams.FiltersReadBackIff: JSON.stringify, JSON.parse and decodeURIComponent are parameters with their round trips as hypotheses.
- PythonUrls.S3KeyReadsBackIff: user names, ports and brackets in a host, which no bucket name has.
- JobPayload.CollectParams: custom descriptor mappings are passed on as they are; bundle caching is left out.
- JobPayloadProperties.DownloadIsUploadIff: encodeURIComponent is a parameter that leaves only unreserved characters; codes are not empty and template keys are names of environment variables, as in the bundles.
- React pages, the query builders of the external API, the streaming of rosters from Snowflake, AWS task launching and the wiring of Nest modules are not modelled: they pass data through or talk to other systems.
