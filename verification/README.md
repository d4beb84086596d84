# Verification of the platform controller

The controller turns Kubernetes declarations (`Organization`, `Image`, `App`, `Runner`, `ClusterAdmin`,
`OverlayPolicy`) into calls of the platform API and of the OpenZiti overlay. Each `Reconcile` is short;
what is hard is every run of them: calls that fail, that take effect and still report an error, status
saves that meet a newer version, a crash between any two calls, and the other workers in between.

The project models the reconcilers as steps over one shared world, one step per external call, and
proves properties of all runs. A run is any list of labels: `Apply` is total, and a label that is not
possible changes nothing. The imperative code of each reconciler is written out as methods of a
`Reconciler` class, which let the rest of the world act before every call and are proved to perform
runs of the machine: `Valid()` says that the state is what the recorded labels lead to, that the worker
never crashes by itself, and which passes it began.

| Files | Subject |
|---|---|
| `Strings`, `Paging`, `Status`, `Runs` | sorted identity lists; token-paged lookups; the Ready condition and which errors are final; counting passes against faults |
| `ClusterAdmin`, `ClusterAdminGuarantees`, `ClusterAdminAnswers`, `ClusterAdminReconciler` | finalizer, grants, recorded identities, revocation; reads may be stale; which answers lead to which end |
| `Provisioning`, `ProvisioningReconcilers` | organizations, images, apps and runners: one machine, four workers, Secrets, hand edits |
| `Words`, `Verdicts` | what a declaration's words ask for, and why a pass ends as it does, codes and words spelled out |
| `Registration` | a record is created at most once |
| `Credentials`, `CredentialGuarantees` | the Secret is the only copy of a service token; claims are about a plan, any set of declarations that keep their key and Secret |
| `Reporting`, `Drift`, `Tenancy`, `Progress` | what a saved status means; what becomes of hand edits; nothing is created outside an organization; bounded faults |
| `Declarations`, `FaultFree`, `Convergence` | order independence: every interleaving ends in the same place and stays there |
| `Overlay`, `OverlayGuarantees`, `OverlayOrigins`, `OverlayCalls`, `OverlayPasses`, `OverlayProgress`, `OverlayReconciler` | the overlay pass: cached name resolution, partial application |

## What the code does not promise

Where the repository's text says more than its code does, the model follows the code, and the exact
condition is proved.

- The comment before `union` says identities are recorded before the grants are reported. They are
  recorded after the grants are *issued*, so a pass that fails midway or whose save conflicts leaves a
  grant unrecorded, and revocation then misses it (`GrantCanOutliveDeclaration`). `RemainingAfterDrop`
  says exactly who keeps the role, and when nobody does; `StableReadyRecordsAll` says when the gap closes.
- "Retried until it lands": a permanent error while revoking counts as finished. `RemainingAfterDrop`
  and `DropOnlyAfterAll` carry the refused identities.
- The README and the comment on `writeServiceToken` give deleting the declaration as the recovery of a
  lost Secret. The platform's record stays registered, so the declaration finds it again and the loss is
  permanent (`ACrashLosesTheCredential`, `RedeclaringDoesNotRecover`, `LostStaysLost`); removing the
  platform's record is what recovers it (`RemovalRecovers`).
- `writeServiceToken` treats an existing Secret as written by an earlier pass. In every run without
  foreign Secrets that branch is never reached (`StoringFindsNoSecret`); with one it loses the minted token
  and still reports Ready (`ForeignSecretDefeatsAgreement`); `RegistrationAgreesIff` has the exact condition.
- "A change made directly against the platform API is corrected on the next pass" holds exactly when only
  compared fields were changed (or a password that is declared, along with one), and the pass gets to
  compare at all: an app whose token Secret is gone, or an image whose credentials Secret is, is not
  corrected (`DriftIsUndoneIff`, with `ALostAppKeepsItsDrift` and `DriftedPermissionsStay` for the two sides).
- A policy with an unknown type ends the pass early: services are recorded, the policies recorded earlier
  stay, and those created by this very pass are not recorded (`SavedIsTheSplit`).

## Model

| member | source | states |
|---|---|---|
| Status.ObjectStatus.SetCondition | internal/controller/status.go:45-70 | the one Ready condition is replaced in place, its transition time kept when the value is, or appended; every other condition stays |
| Status.ObjectStatus.SetReady | internal/controller/status.go:33-35 | true, reason Reconciled |
| Status.ObjectStatus.SetPending | internal/controller/status.go:37-39 | false, reason Pending |
| Status.ObjectStatus.SetFailed | internal/controller/status.go:41-43 | false, with the reason given |
| Status.PutKeepsOthers | internal/controller/status.go:54-69 | one call leaves the conditions of other types in value and order, and one Ready condition |
| Status.TransitionTimeIsHistory | internal/controller/status.go:45-70 | after any history of calls there is one Ready condition, dated from the first call of the longest suffix with its value |
| Status.ReadyConditionIsSound | internal/controller/status.go:33-94 | of type "Ready", true exactly for Reconciled, with the last reason and generation and the last message cut at 32768, never dated in the future under a monotone clock |
| Paging.Listing.FindFirst | internal/controller/runner_controller.go:107-127 | however the list is cut into pages, fails exactly if a page fails before a match, and otherwise finds the first match of the whole list, or nothing exactly if none matches |
| Paging.Listing.FindAll | internal/controller/clusteradmin_controller.go:143-161 | however the list is cut into pages, fails exactly if some page fails, and otherwise returns all matches in list order |
| Strings.BelowIsLexicographic | internal/controller/clusteradmin_controller.go:158 | the order sorted by: a prefix comes first, otherwise the smaller character at the first difference |
| Strings.NormalizeForgets | internal/controller/clusteradmin_controller.go:143-155 | two addresses have the same normal form exactly if they are the same text, but for blanks at the ends and letter case |
| ClusterAdmin.LookupExactly | internal/controller/clusteradmin_controller.go:138-162 | the lookup is sorted and holds each id exactly as often as there are accounts with it whose address is the same text but for letter case and surrounding blanks |
| ClusterAdmin.UnionIsCanonical | internal/controller/clusteradmin_controller.go:166-180 | a union is sorted, free of duplicates, and holds exactly the elements of both lists |
| ClusterAdmin.UnionUnchangedIff | internal/controller/clusteradmin_controller.go:95-98 | on a sorted distinct list a union changes nothing exactly when nothing found is new |
| ClusterAdmin.StepKeepsInv | internal/controller/clusteradmin_controller.go:42-128 | each step of the protocol, the store or the roster keeps versions ordered, the ledger of grants balanced and the worker's copy accurate |
| ClusterAdmin.RunKeepsCanonical | internal/controller/clusteradmin_controller.go:95-99 | every list of identities ever stored is sorted and free of duplicates |
| ClusterAdminGuarantees.GrantAccounting | internal/controller/clusteradmin_controller.go:80-101 | at every step of every run a holder of the role is recorded, or was granted by a pass whose Ready save has not landed |
| ClusterAdminGuarantees.RemainingAfterDrop | internal/controller/clusteradmin_controller.go:107-128 | once the finalizer is dropped the holders left are exactly the unrecorded and the refused but never cleared; nobody is left if and only if all grants were recorded and every refused one had been cleared |
| ClusterAdminGuarantees.RecordIsHistory | internal/controller/clusteradmin_controller.go:93-101 | the recorded identities are the union of the matches of all passes whose Ready save landed; no version ever loses one |
| ClusterAdminGuarantees.RecordDependsOnMatchesOnly | internal/controller/clusteradmin_controller.go:164-180 | two runs that landed the same matches store the same list, whatever the order |
| ClusterAdminGuarantees.FinalizerGuardsEveryGrant | internal/controller/clusteradmin_controller.go:50-62 | while a grant call is pending the stored declaration has the finalizer, nothing was revoked, and the pass read no deletion; a granted declaration stays in the store until a revocation finished |
| ClusterAdminGuarantees.DropOnlyAfterAll | internal/controller/clusteradmin_controller.go:107-127 | a pass about to drop the finalizer has itself had every recorded identity cleared or permanently refused, whatever earlier passes did |
| ClusterAdminGuarantees.StableReadyRecordsAll | internal/controller/clusteradmin_controller.go:64-101 | with roster and address stable, one landed Ready save leaves unrecorded only what was unrecorded before and no longer matches |
| ClusterAdminGuarantees.LandedSaveSchedules | internal/controller/clusteradmin_controller.go:64-101 | a landed save is Ready exactly if the pass has matches; all of them were granted by that very pass and are recorded; it observes the stored generation and asks for the short retry exactly when Pending |
| ClusterAdminGuarantees.RevocationProgress | internal/controller/clusteradmin_controller.go:107-128 | with more finished passes than faults a deleted declaration has lost its finalizer |
| ClusterAdminGuarantees.GrantProgress | internal/controller/clusteradmin_controller.go:42-102 | with more finished passes than faults a matched declaration has landed a Ready save |
| ClusterAdminGuarantees.GrantCanOutliveDeclaration | internal/controller/clusteradmin_controller.go:80-101 | a run in which a declaration is deleted between grant and save, and the grant survives revocation |
| ClusterAdminAnswers.VerdictByItsAnswers | internal/controller/clusteradmin_controller.go:64-101 | over every run a granting pass saves Ready with the resync exactly if its own calls found somebody and granted each one in order; Failed with the resync exactly if its last grant answered InvalidArgument or AlreadyExists; Pending with the short retry exactly if the lookup failed or found nobody, or the grant answered any other code; only Ready changes the record |
| ClusterAdminAnswers.DroppedByItsAnswers | internal/controller/clusteradmin_controller.go:113-127 | over every run a pass about to drop the finalizer had each recorded identity, in order, answered by an accepted clear or by InvalidArgument or AlreadyExists; the latter, unless cleared earlier, and the unrecorded keep the role |
| ClusterAdminAnswers.OtherCodesKeepTheFinalizer | internal/controller/clusteradmin_controller.go:107-127 | a clear that answers any other code, PermissionDenied among them, ends the pass with the short retry, finalizer and record as they were; the two codes go on to the next identity |
| ClusterAdminReconciler.Reconciler.Reconcile | internal/controller/clusteradmin_controller.go:42-102 | the code performs one uncrashed pass of the protocol, and returns what the protocol says |
| ClusterAdminReconciler.Reconciler.Revoke | internal/controller/clusteradmin_controller.go:107-128 | the same for the revoking half; an end without retry or error has dropped the finalizer |
| ClusterAdminReconciler.Reconciler.FindByAddress | internal/controller/clusteradmin_controller.go:138-162 | over any paging of the roster, the sorted ids of all accounts with the address |
| ClusterAdminReconciler.Reconciler.UpdateUser | internal/controller/clusteradmin_controller.go:182-188 | after an accepted call the identity holds the role, or does not; what each error code leads to, granting and revoking |
| ClusterAdminReconciler.Reconciler.Save | internal/controller/clusteradmin_controller.go:190-198 | returns the intended schedule if the status is stored, the short retry if a newer version was there, otherwise the error |
| ClusterAdminReconciler.Union | internal/controller/clusteradmin_controller.go:166-180 | the loops with their seen map compute the canonical union |
| ProvisioningReconcilers.Reconciler.ReconcileOrganization | internal/controller/organization_controller.go:27-81 | the code performs one uncrashed pass of the machine over the declaration, and returns what the machine says; none if it is gone |
| ProvisioningReconcilers.Reconciler.CreateOrganization | internal/controller/organization_controller.go:48-63 | the same from an organization that does not exist on, its name the declared one or else the slug |
| ProvisioningReconcilers.Reconciler.CorrectOrganization | internal/controller/organization_controller.go:64-80 | the same from an organization that exists on; a failed update is never final |
| ProvisioningReconcilers.Reconciler.ReconcileImage | internal/controller/image_controller.go:32-132 | the same for an image |
| ProvisioningReconcilers.Reconciler.CreateImage | internal/controller/image_controller.go:72-96 | the same from an image that does not exist on; the request says in every field what is written |
| ProvisioningReconcilers.Reconciler.CorrectImage | internal/controller/image_controller.go:98-132 | the same from an image that exists on; the request says what is written, a password only if there is one |
| ProvisioningReconcilers.Reconciler.ReconcileApp | internal/controller/app_controller.go:33-139 | the same for an app |
| ProvisioningReconcilers.Reconciler.CheckApp | internal/controller/app_controller.go:68-103 | the same from a registered app on: a missing token ends the pass, drift is corrected to what is written |
| ProvisioningReconcilers.Reconciler.RegisterApp | internal/controller/app_controller.go:105-138 | the same from an app that is not registered on: register as written, store the token, report |
| ProvisioningReconcilers.Reconciler.ReconcileRunner | internal/controller/runner_controller.go:31-103 | the same for a runner |
| ProvisioningReconcilers.Reconciler.ResolveOrganization | internal/controller/organization_ref.go:20-30 | an error if the Organization is not declared or unreadable, else its recorded id, empty for not yet |
| ProvisioningReconcilers.Reconciler.Credentials | internal/controller/image_controller.go:159-172 | no reference, no login; otherwise the Secret's fields, an error if it is missing |
| ProvisioningReconcilers.Reconciler.FindListed | internal/controller/organization_controller.go:85-105 | over any order and paging of the platform's records, the record with the wanted key, or nothing exactly if there is none |
| ProvisioningReconcilers.Reconciler.FindApp | internal/controller/app_controller.go:141-153 | NotFound is no app, any other error is an error; otherwise the record under the key |
| ProvisioningReconcilers.Reconciler.ServiceTokenPresent | internal/controller/servicetoken.go:49-59 | present exactly if the Secret exists and its token is not empty |
| ProvisioningReconcilers.Reconciler.WriteServiceToken | internal/controller/servicetoken.go:24-44 | an existing Secret is left alone and counts as written; otherwise the Secret written holds the token; no other Secret changes |
| ProvisioningReconcilers.Reconciler.Save | internal/controller/image_controller.go:201-209 | returns the intended schedule if the status is stored, the short retry if a newer version was there, otherwise the error |
| Verdicts.EveryRecordHasItsSource | internal/controller/image_controller.go:72-119 | over every run a record that is not as it was at the start was last left by a hand edit; by a create that says in every field what the declaration's words ask for (Internal exactly for "internal" and Public exactly for "" or "public" for an image, the other way about for an app, the type of the type word, the display name or else the slug); or by an update that leaves the compared fields as written, type, repository and permissions as they were, and the password unless one is declared |
| Verdicts.UnknownWordsCallNothing | internal/controller/image_controller.go:38-58 | over every run nothing is looked up, created or updated for a declaration that was being deleted when it was read, or that has a type or visibility word the product does not know |
| Verdicts.VerdictByItsAnswer | internal/controller/app_controller.go:46-138 | over every run what a pass is about to save is accounted for by one answer of it: Failed for an undeclared organization, an unknown word, or a create or update that answers InvalidArgument or AlreadyExists (an organization's update never); CredentialMissing exactly for a token that is gone or could not be stored; Ready for a record found as written, corrected or created with its token stored; Pending for everything else; the schedule, the id and the reference that go with it |
| Verdicts.EveryAnswerCounts | internal/controller/image_controller.go:44-131 | over every run an answer ends the pass so, or was accepted and brings exactly the next call, with its key, login and id |
| Verdicts.EverySecretHasItsSource | internal/controller/app_controller.go:119-124 | over every run a Secret that is not as it was at the start was written by somebody else, or by a worker where there was none, under the declared name, with the token just returned, for an app also the id, and nothing else |
| Registration.CreatedAtMostOnce | internal/controller/runner_controller.go:43-85 | over any run in which that record is not removed by hand, no runner, app, image or organization is created twice, and every one created, the last included, keeps its id and token; shared and foreign Secrets, edited keys, crashes, lost saves and calls that landed with an error are all allowed |
| Registration.RunCreatesOnlyNew | internal/controller/runner_controller.go:105-127 | over any such run a record that was there keeps id and token, and is never created again |
| CredentialGuarantees.SecretsHoldTheirTokens | internal/controller/servicetoken.go:24-44 | the token Secret of a declaration that keeps key and Secret, if it exists and nobody else writes it, holds the token of its one record, and for an app that record's id, whatever other declarations do |
| CredentialGuarantees.ReadyRestsOnTheSecret | internal/controller/runner_controller.go:49-102 | a pass goes on to Ready only from a check or write at which the Secret holds the record's token |
| CredentialGuarantees.ReadySavesAreBacked | internal/controller/app_controller.go:68-138 | a Ready save carries the id and token of the declaration's record and names its Secret |
| CredentialGuarantees.StoringFindsNoSecret | internal/controller/servicetoken.go:36-42 | without foreign Secrets the AlreadyExists branch is never reached |
| CredentialGuarantees.LostStaysLost | internal/controller/runner_controller.go:56-65 | once record without Secret, no run registers again, creates the Secret or saves Ready; redeclaring does not help; supposed only of that declaration and its organization that they keep key and Secret, nobody else writes it, and their records stay |
| CredentialGuarantees.LossIsReported | internal/controller/app_controller.go:75-81 | a pass that reads the absent Secret reports CredentialMissing with an empty reference |
| CredentialGuarantees.ACrashLosesTheCredential | internal/controller/runner_controller.go:73-97 | a run from a clean world, crashed between registration and Secret, that loses the credential |
| CredentialGuarantees.RedeclaringDoesNotRecover | internal/controller/servicetoken.go:21-23 | continued by deleting, declaring again and reconciling, it ends CredentialMissing with no Secret |
| CredentialGuarantees.FailedStoreIsReported | internal/controller/runner_controller.go:87-97 | a whole pass that registers and cannot store the token, whatever the error, ends CredentialMissing with the resync, the id just registered and the reference as it was |
| CredentialGuarantees.RemovalRecovers | internal/controller/runner_controller.go:71-102 | once the platform's record is removed, the next pass registers, stores the new token and is Ready |
| CredentialGuarantees.RegistrationAgreesIff | internal/controller/servicetoken.go:24-44 | a whole pass that registers ends Ready, and its Secret holds the record's token if and only if none was there, or one that fits |
| CredentialGuarantees.ForeignSecretDefeatsAgreement | internal/controller/servicetoken.go:37-41 | a run that ends Ready with a foreign Secret in place of the minted token |
| Reporting.ReadyMeansMatching | internal/controller/image_controller.go:72-131 | when a Ready save lands after a pass without hand edits, the stored declaration's words are known, and its record has the recorded id and says in every compared field what they ask for, found, corrected or created; organization and user name are ones the Organization and the credentials Secret, both present, held during that pass, and the present ones if those held still |
| Reporting.PassIsSourced | internal/controller/image_controller.go:44-68 | the key a pass works on and the login it compares with are the declaration's at some moment of that very pass at which its organization's id was known, or the credentials Secret it names was there |
| Drift.PassCorrects | internal/controller/app_controller.go:68-103 | a whole pass over an existing record gives it the outcome, correction behind the guards, and changes nothing else on the platform |
| Drift.DriftIsUndoneIff | internal/controller/app_controller.go:68-103 | a whole pass leaves exactly the declared record if and only if what it does not compare is as declared, and it gets past its guards or there was nothing to correct |
| Drift.ALostAppKeepsItsDrift | internal/controller/app_controller.go:75-82 | an app without its Secret keeps a name given by hand |
| Drift.DriftedPermissionsStay | internal/controller/app_controller.go:84-89 | permissions changed by hand stay |
| Reporting.LandedSaveSchedules | internal/controller/status.go:23-43 | Ready exactly for Reconciled; Pending asks for the short retry, Ready and CredentialMissing for the resync |
| Reporting.ObservedNeverGoesBack | internal/controller/status.go:45-46 | from step to step the observed generation neither goes back nor passes the generation |
| Tenancy.CreatedInsideAnOrganization | internal/controller/organization_ref.go:12-30 | every image and app ever created is inside an organization that exists, if none is removed by hand |
| Progress.ReadyWithinFaults | internal/controller/organization_controller.go:42-80 | with more finished passes than faults an Organization, or an Image whose organization has its id, has landed a Ready save, whatever else goes on |
| Declarations.TargetIsNext | internal/controller/image_controller.go:72-128 | whatever a pass finds at its key, what it leaves there is that target |
| FaultFree.SoundStays | internal/controller/app_controller.go:33-139 | a step at one declaration that settles its own part disturbs no other worker's place and no other declaration |
| Convergence.StepGoesOn | internal/controller/app_controller.go:33-139 | no step without faults lets a declaration slip back: settled stays settled, on its way stays on its way |
| Convergence.EveryScheduleConverges | internal/controller/organization_ref.go:12-30 | however the workers' calls interleave, a run without faults in which each declaration gets a pass, a dependent one after its organization's, leaves every declaration Ready and matching, a minting one with some token; with distinct Secrets and no foreign one at the start, with the token of its own record |
| Convergence.EveryScheduleAgrees | internal/controller/app_controller.go:46-139 | any two such runs end with the same records: those there at the start keep id and token in both, a home known or occupied then is the same in both, and new records differ at most in the id and token they were given |
| Convergence.TokensAreOwn | internal/controller/servicetoken.go:24-59 | over such runs, from distinct and unspoilt Secrets, a declaration in force has the token of its own record |
| Convergence.EveryTownCanConverge | internal/controller/organization_ref.go:12-30 | such runs exist from every declared world: a pass over each organization, then one over everything |
| Convergence.NothingIsLeftToDo | internal/controller/image_controller.go:98-132 | after such a run whatever follows without faults issues no platform write, touches no Secret and changes no status |
| OverlayGuarantees.NothingIsAltered | internal/controller/overlaypolicy_controller.go:182-213 | over every run existing services and policies are neither altered nor removed |
| OverlayGuarantees.RecordedExists | internal/controller/overlaypolicy_controller.go:49-108 | every recorded service and policy is on the overlay, also after an early return; a service the controller created has the declared attributes, and an intercept exactly if one was declared, with its protocols, addresses and port ranges; a policy it created is Dial for "Dial" and Bind for "Bind", for the declared identities, with each "@name" as the id of that service |
| OverlayGuarantees.ResolverIsDirect | internal/controller/overlaypolicy_controller.go:149-180 | when a policy is about to be created its roles are, one by one, what direct lookups answer; each name was looked up with success at most once in the pass |
| OverlayGuarantees.SavedIsTheSplit | internal/controller/overlaypolicy_controller.go:52-108 | a save carries the exact split of services and policies, Ready if and only if nothing is pending; the first type that is neither "Dial" nor "Bind" ends the pass with the earlier policies in place, and no other does |
| OverlayGuarantees.AppliedPartitions | internal/controller/overlaypolicy_controller.go:188-213 | applied and pending names together are the declared ones |
| OverlayGuarantees.NonePending | internal/controller/overlaypolicy_controller.go:99-104 | nothing is pending exactly when everything was applied, and then in declared order |
| OverlayGuarantees.ObservedNeverGoesBack | internal/controller/overlaypolicy_controller.go:99-130 | the observed generation neither goes back nor passes the generation |
| OverlayOrigins.EverythingHasAnOrigin | internal/controller/overlaypolicy_controller.go:182-213 | over every run whatever is on the overlay was there, was added by somebody else, or was created by the controller under the name and from the text of something declared; no pass works from a declaration that was being deleted when it was read |
| OverlayOrigins.AppliedInOrder | internal/controller/overlaypolicy_controller.go:60-99 | the names recorded are the applied ones, each at the place given by how many before it were applied |
| OverlayCalls.AppliedByItsCalls | internal/controller/overlaypolicy_controller.go:63-104 | over every run, with a reply per call and others adding to the overlay in between: a policy is tried exactly if each of its names was by then looked up with success in this pass, for it or for an earlier policy, and applied exactly if its create was then accepted; a service exactly if its own create was accepted; nothing beyond the policies reached is called for |
| OverlayPasses.CallsRunOut | internal/controller/overlaypolicy_controller.go:63-97 | every answer brings a pass nearer to its save |
| OverlayPasses.AppliedIsAFilter | internal/controller/overlaypolicy_controller.go:63-97 | when calls answer by name, the recorded policies are, in order, those all of whose names resolve and whose own create succeeds; the services to resolve against are those before and those whose create took effect |
| OverlayPasses.PoliciesAreIndependent | internal/controller/overlaypolicy_controller.go:63-97 | adding, failing or removing other policies never changes what becomes of a policy, although they share a cache |
| OverlayPasses.OnePassConverges | internal/controller/overlaypolicy_controller.go:49-108 | from any overlay one pass without faults, its names declared or present, ends Ready with everything there |
| OverlayPasses.RepeatPassIsQuiet | internal/controller/overlaypolicy_controller.go:182-213 | a further pass leaves the overlay as it is, whatever its calls answer |
| OverlayProgress.ReadyWithinFaults | internal/controller/overlaypolicy_controller.go:49-108 | with more finished passes than faults a declaration with valid types and known names has landed a Ready save |
| OverlayReconciler.Reconciler.Reconcile | internal/controller/overlaypolicy_controller.go:36-109 | the code performs one uncrashed pass of the machine, and returns what the machine says |
| OverlayReconciler.Reconciler.EnsureServices | internal/controller/overlaypolicy_controller.go:188-213 | asks for every declared service as declared, intercept included, whatever became of the others, and splits the names into applied and pending |
| OverlayReconciler.ServiceNameResolver.Resolve | internal/controller/overlaypolicy_controller.go:149-180 | the roles it returns are the direct lookups; a failure leaves the policy pending; the cache only grows |
| OverlayReconciler.Reconciler.Finish | internal/controller/overlaypolicy_controller.go:122-130 | returns the intended schedule if the status is stored, the short retry if a newer version was there, otherwise the error |
| OverlayReconciler.PortRanges | internal/controller/overlaypolicy_controller.go:215-221 | a copy, range by range |

## Left out

- Watches, `SetupWithManager`, `enqueueForOrganization` and the informer cache: any declaration may be taken up at any time. ClusterAdmin reads may be stale and never go back; the other machines read the current version, and every status write is checked against it.
- The process itself (`cmd/`), its configuration and the platform clients: no algorithm of this repository. Server behaviour is any acceptance, transient error or refusal, per call.
- Message wording and logging: messages are abstract but for their length. Lengths count characters, not bytes.
- Wall-clock intervals: the two schedules are the symbols `Requeue` and `Done`.
- Address normalization is ASCII lower case and ASCII space; Unicode folding is not part of this model.
- A lookup sees the list as it is at one moment; a list that changes between two of its pages is not modelled.
- Whether a retried Secret creation can answer AlreadyExists for its own earlier attempt: an AlreadyExists answer means the Secret was there before the call.
- Removing finalizers by hand. Writing a token Secret by hand is a label, but not for the Secrets a claim about tokens is made of. Hand edits and removals of platform records are labels; creating one by hand is not. A create in the model succeeds without the platform refusing a duplicate, so that creating at most once is the controller's doing; on a record planted by hand after the lookup it would then overwrite.
- Convergence.EveryScheduleConverges: needs a platform without faults from the start. With a crash between a registration and its Secret the credential is lost for good, so the claim cannot survive faults for apps and runners; for Organizations and Images `Progress.ReadyWithinFaults` covers them.
- Progress.ReadyWithinFaults: says nothing of apps and runners, for the same reason.
- Registration.CreatedAtMostOnce: supposes that the record it is about is not removed by hand; nothing else is supposed of the run.
- CredentialGuarantees.SecretsHoldTheirTokens: for declarations that keep their key and Secret while they are edited or declared again; nobody else writes that Secret (`ForeignSecretDefeatsAgreement` shows the need), and their records are not removed by hand.
- Agreement on image passwords, image type and repository, app permissions, runner labels and capabilities: the code does not correct them; `Drift.DriftIsUndoneIff` says what follows.
- The accounting of grants is per declaration: another ClusterAdmin declaration, or an operator, may grant or clear the same identity.
- The ClusterAdmin and overlay machines keep what a condition says (its reason and generation) and not the list of conditions, whose history is proved in `Status`.
