# Archmorph backend: verified models of its stateful cores

Archmorph turns customer cloud diagrams into Azure architecture packages. This project models, in Dafny, the parts
of its Python backend that are hardest to get right by reading: protocols with shared state, budgets threaded through
recursion, sequential rewriting that must equal a simultaneous one, and reports that must conserve totals. Every file
is one component; `Text.dfy` holds the string operations several of them rely on. `dafny verify dfyconfig.toml`
checks everything.

Code that updates state in place is a class or a method with loops, proved equal to a function of the old state; the
properties are then lemmas about that function, over all inputs or all runs. Steps of the environment (a database, blob
or cache call) end in one of three ways: they complete, they raise before the effect, or they raise after it.

| file | component |
|---|---|
| `Text.dfy` | splitting, joining, substring search, string order |
| `Filtering.dfy` | what a filter loop keeps of a list |
| `MemberNames.dfy` | the archive member-name filter |
| `ArchiveScanner.dfy` | the bounded recursive archive scan |
| `IconCache.dfy` | the generation-stamped icon cache, as a protocol over any number of threads |
| `SvgIds.dfy` | namespacing of SVG ids |
| `BlobReference.dfy` | printing and parsing of private blob references |
| `ExportPersistence.dfy` | persistence of an export with compensation |
| `AuditAlerts.dfy` | brute-force and bulk-export alerts |
| `ExportCapability.dfy` | one-time export capabilities, as a concurrent protocol |
| `UsageQuota.dfy` | monthly quotas with unlocked resets |
| `ReviewGate.dfy` | which reviews approve a breaking API change |
| `SchemaCompatibility.dfy` | breaking-change detection between two OpenAPI snapshots |
| `CostPricing.dfy`, `CostReports.dfy`, `CostBudgets.dfy` | the cost meter: prices, reports, budgets and alerts |
| `DiagramLayout.dfy`, `DiagramEdges.dfy` | the draw.io layout, its graph, and which connection each arrow stands for |
| `VersionDiff.dfy` | version history and version comparison |
| `GuidedAnswers.dfy`, `GuidedTargets.dfy`, `GuidedMeaning.dfy` | the nineteen guided-answer rules, what they do to one mapping in closed form, and what each answer means |

## Where the code does not do what it is meant to

Each of these is proved, with the exact condition under which it happens.

- The member-name filter looks up the first path component before its other tests, so a relative name without any
  component (such as `.`) raises `IndexError`; the normal-form and `../` prefix tests never decide anything
  (`MemberNames.Classification`, `MemberNames.ImpliedTests`).
- A row whose commit went through although row creation raised loses its blob to the compensation, and an upload that
  raised after storing its bytes leaves an orphan that nobody reports (`ExportPersistence.RowsKeepTheirBlobsIff`,
  `ExportPersistence.OrphansAreReportedIff`).
- A verification that peeked before another request consumed the capability can still succeed afterwards; its own
  consume then fails (`ExportCapability.VerifiesAfterConsumeIff`).
- A usage increment is a load and a store, and the reset takes no lock: a reset in between is lost
  (`UsageQuota.LostResetIff`). The month test also misfires when the clock shows an earlier year
  (`UsageQuota.NeedsResetIff`).
- From the 52nd save on every version gets number 51, and a lookup returns the oldest one stored under it
  (`VersionDiff.SavedIsFoundIff`).
- Zones of a diagram overlap when a zone with another one below it has nine services or more
  (`DiagramLayout.ZonesApartIff`).
- Checking each API release only against the one before keeps the clients of a release through all later releases only
  if none of its object definitions lists anything (`SchemaCompatibility.ForeverProtectedIff`); a given chain is safe as
  long as no object definition with contents stops being an object in between (`SchemaCompatibility.ChainProtectedIff`).
- A dangling SVG reference that happens to equal a new id is captured by the renaming, on a page also by an id of the
  other copy (`SvgIds.ResolutionKeptIff`, `SvgIds.PageKeepsIff`).
- Two time windows that share an end count the records of that instant twice (`CostReports.AdjacentWindowsOverlap`).
- The private-endpoint rule runs before the streaming and container rules rename services to names it looks for
  (`GuidedTargets.PrivateLinkMissedIff`).
- A clock that steps back can make the brute-force count too small (`AuditAlerts.CountIsTrueCountIff`), and reviews
  with equal sort keys can make the verdict depend on their order (`ReviewGate.OrderMattersIff`).
- The failed-login query returns one entry for a limit of zero or less (`AuditAlerts.GetFailedLogins`).

## Model

| member | source | states |
|---|---|---|
| Text.ComponentIffSubstring | backend/export_content_scanner.py:87 | a component is between slashes of a path exactly when it occurs, wrapped in slashes, in the wrapped path; this is why the substring test for a parent component is exact |
| MemberNames.Classification | backend/export_content_scanner.py:79-90 | for every name, the exact set accepted, in terms of components, and the exact set on which the check raises `IndexError` |
| MemberNames.ImpliedTests | backend/export_content_scanner.py:86-89 | the `../` prefix test and the normal-form test follow from the other tests |
| MemberNames.NormPathOfPlainName | backend/export_content_scanner.py:89 | the normal form of a relative name without parent components is its kept components, joined |
| MemberNames.DotNameCrashes | backend/export_content_scanner.py:81 | the name `.` reaches the failing lookup |
| MemberNames.SlashesAreAlike | backend/export_content_scanner.py:79-80 | names that differ only in the direction of their slashes get the same verdict |
| MemberNames.SafeIff | backend/export_content_scanner.py:79-90 | the accepted names component by component: relative, no NUL, no component `..`, and a first component that names something and does not end with a colon |
| MemberNames.SafeNameStaysInside | backend/export_content_scanner.py:79-90 | resolving an accepted name never leaves the extraction root, at no prefix of its components, and ends strictly below it |
| ArchiveScanner.ScanArchive | backend/export_content_scanner.py:122-171 | accepts exactly the archives whose unfolded nesting is well nested, locally acceptable, free of duplicate names and fits next to what is already charged (what that asks in sizes: `MemberInPlain`, `AcceptedIsCompact`); on acceptance the budget grew by exactly the members and bytes of the tree, on rejection the error is evidenced by the tree (for the ratio: `BombIff`); member reads stay within both limits on every path; terminates on archives that contain themselves |
| ArchiveScanner.ScanEntry | backend/export_content_scanner.py:145-171 | one member is accepted exactly when it is locally acceptable, which `MemberInPlain` spells out, and the tree below it fits after its own size is charged |
| ArchiveScanner.ScanArchiveMember | backend/export_content_scanner.py:93-119 | a nested archive is decided by the tree below it one level deeper, anything else by its leaf scanner |
| ArchiveScanner.ScanGeneratedExport | backend/export_content_scanner.py:232-257 | accepts exactly the exports meeting the declarative condition (in sizes: `AcceptedExportIsCompact`), never opens more members nor reads more bytes than the limits, names the right error for bytes that are not an archive and evidences every other one by the tree |
| ArchiveScanner.EvidenceRefutes | backend/export_content_scanner.py:122-171 | whatever a rejection names is a violation of the declarative condition |
| ArchiveScanner.EvidenceLifts | backend/export_content_scanner.py:139-171 | a violation found inside a nested archive, against the running budget, is a violation by the whole archive |
| ArchiveScanner.SelfContainingRejected | backend/export_content_scanner.py:122-125 | an archive that lists itself is rejected at every depth limit |
| ArchiveScanner.MemberInPlain | backend/export_content_scanner.py:145-171 | what is asked of one member in names, sizes and bytes: a safe name, no encryption, and of a file at most the allowed size, at most the allowed ratio times what it takes up (one byte at least), and content that is an archive or passes its scanner |
| ArchiveScanner.AcceptableIff | backend/export_content_scanner.py:122-171 | acceptance counted out: no archive anywhere in the tree is too deep, broken or lists a name twice, every member is acceptable, and members and bytes of the whole tree are at most the limits, both included |
| ArchiveScanner.AcceptedIsCompact | backend/export_content_scanner.py:153-155 | over the whole nested tree: no accepted archive holds a file larger than the ratio times what it takes up, and all files together expand to at most the ratio times what they take up together |
| ArchiveScanner.AcceptedExportIsCompact | backend/export_content_scanner.py:232-257 | the same for an accepted export, whatever its format is called |
| ArchiveScanner.BombIff | backend/export_content_scanner.py:153-155 | a rejection for the ratio is evidenced exactly by a file in the tree larger than the ratio times what it takes up |
| ArchiveScanner.LeafInPlain | backend/export_content_scanner.py:93-119 | which scanner decides a member that is no archive, by magic numbers, suffixes and names, and the one case of printer settings that no scanner takes |
| ArchiveScanner.FindIsFirst | backend/export_content_scanner.py:108-114 | the search for the XML declaration finds its first occurrence |
| ArchiveScanner.FormatInPlain | backend/export_content_scanner.py:232-257 | which scanner each format name asks for, and which formats must be archives |
| IconCache.LockedCache.Clear | backend/azure_landing_zone.py:283-288 | the locked section empties the cache and moves to the next generation |
| IconCache.LockedCache.Probe | backend/azure_landing_zone.py:301-305 | the locked probe returns the entry together with the generation it belongs to |
| IconCache.LockedCache.StoreIfCurrent | backend/azure_landing_zone.py:308-311 | the locked store happens exactly when the generation is still the stamped one |
| IconCache.LockedCache.IsCurrent | backend/azure_landing_zone.py:336-342 | the locked re-check before a URI is emitted |
| IconCache.FirstHitPrefix | backend/azure_landing_zone.py:249-261 | reading candidates one at a time finds the first hit of the whole list |
| IconCache.InvPreserved | backend/azure_landing_zone.py:283-349 | every step of every thread keeps the invariant tying entries and lookups in flight to the registry |
| IconCache.QuiescentCacheIsCurrent | backend/azure_landing_zone.py:283-319 | in every interleaving, with no writer between its write and its clear, every cached URI and every lookup with the current generation agrees with the registry |
| IconCache.EmittedUriIsCurrent | backend/azure_landing_zone.py:331-342 | the URI that passes the locked re-check is the registry's value at that moment |
| IconCache.PlaceholderNeedsThreeClears | backend/azure_landing_zone.py:300-319 | giving up after the retries needs three clears during the call, and is the only way to the placeholder for a key with a bundled icon |
| IconCache.StaleBeforeClear | backend/azure_landing_zone.py:283-288 | a run in which a stale URI is emitted between a write and its clear |
| IconCache.AttemptsAreCounted | backend/azure_landing_zone.py:300-349 | in every interleaving attempts stay below three on both levels, and a rendering gives up exactly when one level has used all three |
| IconCache.ThreeClearsExhaust | backend/azure_landing_zone.py:300-319 | three clears are enough: a run with exactly three in which a rendering of a registered icon gives up |
| IconCache.FirstCandidateWins | backend/azure_landing_zone.py:249-261 | the value of a key is that of its first registered candidate, and the bundled icon only when none is registered |
| IconCache.UndisturbedRendering | backend/azure_landing_zone.py:291-349 | from every state a rendering left alone ends: with the cached URI if there is one, else with the value of the key, which it leaves in the cache for this key alone, and as not found only without either |
| SvgIds.NamespaceSvgIds | backend/architecture_package.py:955-966 | the four in-place substitutions per id, longest id first, equal renaming every definition and reference once and at the same time |
| SvgIds.SequentialIsSimultaneousIff | backend/architecture_package.py:960-965 | for any order, one-at-a-time equals at-once on all documents exactly when no id comes after one whose new name it is |
| SvgIds.LongestFirstIsSafe | backend/architecture_package.py:960 | the decreasing-length order is such an order |
| SvgIds.FourPasses | backend/architecture_package.py:962-965 | the first three substitutions rename an id everywhere, the fourth has nothing left to do |
| SvgIds.TokenBecomes | backend/architecture_package.py:955-966 | what becomes of each token: every definition gets the suffix, every reference to a defined id gets it in its own kind, nothing else changes |
| SvgIds.ResolutionKeptIff | backend/architecture_package.py:955-966 | all references keep exactly their targets if and only if no dangling reference equals a new id |
| SvgIds.ReferencesFindTheSameIff | backend/architecture_package.py:955-966 | the same token by token, for url, href and xlink:href references: each finds the definitions it found before if and only if no reference is to an undefined id that is the new name of a defined one |
| SvgIds.CopiesShareNoId | backend/architecture_package.py:64-71 | the primary and the dr copy have no id in common |
| SvgIds.PageKeepsIff | backend/architecture_package.py:64-71 | every reference of the page with both copies finds exactly the positions it found in its own drawing if and only if no dangling reference of either drawing equals a new id of either |
| SvgIds.EmbeddedResolution | backend/architecture_package.py:64-71 | in the page with both copies every reference resolves inside its own copy, to the positions it had before |
| BlobReference.BlobNameInjective | backend/artifact_blob_store.py:51-75 | equal blob names mean equal segments and equal scope hashes |
| BlobReference.BuiltIs | backend/artifact_blob_store.py:45-75 | which segments are built, character by character, and the built URI, blob name and prefix |
| BlobReference.SplitBuiltUri | backend/artifact_blob_store.py:84-93 | what the URL splitter makes of a built URI, for every container name |
| BlobReference.RoundTrip | backend/artifact_blob_store.py:51-114 | parsing a built reference in its own scope gives that reference, or nothing when the container name is unusable |
| BlobReference.AcceptedIsCanonical | backend/artifact_blob_store.py:78-114 | every accepted URI has exactly the seven path components of the caller's scope and of four valid segments, and yields the blob name and prefix the builder gives for these very segments |
| BlobReference.AcceptedIff | backend/artifact_blob_store.py:84-109 | a URI is accepted exactly when its URL is plain, in the container, and its path has the components of some valid segments in the caller's scope |
| BlobReference.AcceptedTextIff | backend/artifact_blob_store.py:78-114 | the accepted URIs as texts: those that, cleaned, are the scheme in any case, the container, one or more slashes and the blob name the builder gives for some segments in the caller's scope, and at most the marks of an empty query and of an empty fragment |
| BlobReference.CleanedIs | backend/artifact_blob_store.py:85 | what the URL splitter cleans away first: leading control characters and blanks, and tabs and line ends anywhere |
| BlobReference.ScopesAreSeparate | backend/artifact_blob_store.py:97-102 | a URI accepted in one scope is accepted in another exactly when both hashes agree |
| ExportPersistence.ArtifactStore.DeleteArtifactBlob | backend/artifact_blob_store.py:178-212 | without an error the blob is gone, and the result tells whether there was one |
| ExportPersistence.ArtifactStore.CreateRow | backend/workspace_store.py:3142-3227 | inserting keeps one row per key and may fail on either side of the commit |
| ExportPersistence.ArtifactStore.Persist | backend/export_artifacts.py:117-236 | the call with all its handlers equals the step function used by the lemmas below, for every failure pattern |
| ExportPersistence.ReferencesAreLawful | backend/artifact_blob_store.py:51-114 | the real builder and parser meet what persistence needs of them |
| ExportPersistence.AlwaysKept | backend/export_artifacts.py:130-218 | whatever fails, keys stay unique and stored bytes match their names |
| ExportPersistence.OnlyGrows | backend/export_artifacts.py:130-218 | whatever fails, earlier rows and all other blobs are untouched, and at most one row with the key of the call is added |
| ExportPersistence.RunsKeepHashes | backend/export_artifacts.py:130-218 | over every sequential run, with failures at any call, keys stay unique and stored bytes match their names |
| ExportPersistence.RowsKeepTheirBlobsIff | backend/export_artifacts.py:186-212 | if every row has its blob before a call, every row has it afterwards if and only if the call does not compensate a committed row |
| ExportPersistence.OrphansAreReportedIff | backend/export_artifacts.py:167-211 | if every orphan is reported before a call, every orphan is reported afterwards if and only if no upload raised after storing, or a row owns the name or a call has reported it before |
| ExportPersistence.RowsKeptIff | backend/export_artifacts.py:130-218 | over every sequential run, whatever else fails and whatever orphans there are, every committed row has its blob at every point if and only if no call compensates a committed row |
| ExportPersistence.OrphansReportedIff | backend/export_artifacts.py:130-218 | over every sequential run, whatever happens to rows, every blob without a row has been reported at every point if and only if no upload left an unnoticed orphan |
| ExportPersistence.RunsStayConsistent | backend/export_artifacts.py:130-218 | over every sequential run that misses both windows, rows and blobs agree, bytes match their names and every orphan was reported |
| ExportPersistence.RetryAdoptsOrphan | backend/export_artifacts.py:167-185 | a failure-free retry adopts any orphan, reported or not, without moving a byte, and spoils nothing else |
| ExportPersistence.RepeatIsIdempotent | backend/export_artifacts.py:139-154 | repeating a successful call changes nothing, and without failures gives the same answer |
| ExportPersistence.CommittedRowLosesBlob | backend/export_artifacts.py:198-212 | a run in which a committed row ends up without its blob |
| ExportPersistence.UploadLeavesSilentOrphan | backend/export_artifacts.py:171-185 | a run in which an orphan is left without a report |
| ExportPersistence.OutcomeIs | backend/export_artifacts.py:117-236 | for every failure pattern, the outcome from raw inputs: what the scanner refuses changes nothing; persisted exactly when the row is known, or the content is placed (small text inline, anything else uploaded) and the row created; pending exactly when a blob this call brought could not be removed; every other failure answered by the first cause |
| ExportPersistence.NewRowIs | backend/export_artifacts.py:153-196 | a row is added exactly when the insert took place, acknowledged or not, with the key of the request, the size, and either the payload or the URI of its blob |
| ExportPersistence.OwnBlobIs | backend/export_artifacts.py:160-212 | a blob that was there stays; a new one holds the payload and is there exactly when it was stored and not removed again |
| ExportPersistence.ExistingIsFirst | backend/export_artifacts.py:137-152 | a known export is answered with the size of its first row |
| AuditAlerts.AuditLogger.TrackFailedLogin | backend/audit_logging.py:408-444 | eviction, append, prune and deletion of one failure as functions of the old table, and one alert with the count, on the bounded deque, exactly when the count reaches the threshold (what the count and the alert mean in the full history: `FailureRaisesIff`) |
| AuditAlerts.CountIsTrueCount | backend/audit_logging.py:413-430 | with a clock that never goes back, the count from the pruned, evicted table is the count in the full history |
| AuditAlerts.AlertsAreTrueAlerts | backend/audit_logging.py:408-444 | the alert deque, shared with the other rules, holds the latest of exactly the alerts that the full history and the other rules call for, in order; which these are is said by `FailureRaisesIff` |
| AuditAlerts.FailureRaisesIff | backend/audit_logging.py:432-444 | with a clock that never goes back, a failure appends exactly one alert, carrying the number of failures of its address inside the window of the full history, if that number reaches the threshold, and nothing otherwise; the deque keeps the latest thousand |
| AuditAlerts.BurstRaises | backend/audit_logging.py:408-444 | of a burst inside one window the failures before the threshold raise nothing, and from the one that reaches it on each raises an alert with its place in the burst, whatever other addresses did and whatever has left the window |
| AuditAlerts.ZeroCountBranch | backend/audit_logging.py:428-430 | the deletion branch is taken only for a window that is not positive |
| AuditAlerts.EvictionBoundsTable | backend/audit_logging.py:414-421 | after an eviction every other address has an attempt no older than the cutoff |
| AuditAlerts.EvictionIs | backend/audit_logging.py:414-421 | a failed login changes the list of another address only if more than ten thousand addresses are kept and its last attempt is older than the cutoff, and then drops it |
| AuditAlerts.CountIsTrueCountIff | backend/audit_logging.py:413-430 | for every history and every clock, with and without evictions, the count is never above the true one, and is the true one exactly when no failure of the address inside the final window was dropped: pruned at a failure of its own address, or evicted at a login that found the table too large and the last failure of the address too old |
| AuditAlerts.ClockStepBackUndercounts | backend/audit_logging.py:425-427 | after any history, a failure is missed whenever the clock jumps past its window and steps back into it |
| AuditAlerts.EvictionUndercounts | backend/audit_logging.py:414-421 | with a full table a login of another address, ahead of the clock, evicts a failure that is then missed |
| AuditAlerts.BulkExportCountIff | backend/audit_logging.py:468-486 | the bounded log gives the true count of exports exactly when none inside the window was pushed out |
| AuditAlerts.CountRecentExports | backend/audit_logging.py:472-485 | the counting loop skips entries without a readable time and counts the rest |
| AuditAlerts.RecentExportsAre | backend/audit_logging.py:472-485 | what is counted: data exports with a readable time after the cutoff |
| AuditAlerts.GetFailedLogins | backend/audit_logging.py:502-517 | the newest matches up to the limit, and one for a limit of zero or less |
| AuditAlerts.MatchesAre | backend/audit_logging.py:502-517 | what matches, newest first: failed authentications, from the given address if there is one |
| ExportCapability.CapabilityStore.Issue | backend/export_capabilities.py:346-406 | a token is handed out exactly when the store call completed |
| ExportCapability.CapabilityStore.VerifyUpToBinding | backend/export_capabilities.py:618-666 | the checks in their order, and which refusals delete the entry |
| ExportCapability.CapabilityStore.Consume | backend/export_capabilities.py:574-589 | a pop that raises is unconfirmed; one that returns the verified record is the only success |
| ExportCapability.CheckPassesIff | backend/export_capabilities.py:618-666 | exactly which stored records pass |
| ExportCapability.RefusalKeepsLiveCapability | backend/export_capabilities.py:623-656 | a refused verification never removes a well-formed, unexpired entry |
| ExportCapability.AtMostOneConsume | backend/export_capabilities.py:574-589 | in every interleaving with failing calls and expiries each capability is consumed at most once, and no more than were issued |
| ExportCapability.NothingSucceedsAfterConsume | backend/export_capabilities.py:574-589 | after a successful consume every later peek is refused and every later consume fails, even by requests that verified before |
| ExportCapability.ReplayMeansGone | backend/export_capabilities.py:586-588 | for a verified capability the record comparison decides nothing beyond presence |
| ExportCapability.FreshCapabilityWorks | backend/export_capabilities.py:592-699 | left alone, an issued capability verifies and is consumed |
| ExportCapability.VerifiesAfterConsumeIff | backend/export_capabilities.py:668-691 | a verification succeeds after a successful consume exactly when it peeked before it, still waits, and its binding matches, field by field as `FinishInPlain` says |
| ExportCapability.VerifiedAfterConsume | backend/export_capabilities.py:668-671 | such a run exists |
| ExportCapability.FinishInPlain | backend/export_capabilities.py:668-691 | the binding check field by field: a bound record wants exactly its five fields, or nothing resolved if all five are empty, and an unbound record wants a public session |
| ExportCapability.ConsumersWereEntitled | backend/export_capabilities.py:574-699 | in every interleaving a consume succeeds only for a request that an earlier step of its own found to have the binding the capability was issued with, or to fall under one of the two cases without a binding |
| ExportCapability.StaleIsBurned | backend/export_capabilities.py:618-656 | which entries a peek deletes: those of another scope, and for their own diagram the expired ones and those whose contract has changed |
| UsageQuota.User.TryConsumeQuota | backend/auth.py:262-277 | one unit is consumed exactly when the old count is below the limit, and the answer shows the new state |
| UsageQuota.User.CheckQuota | backend/auth.py:233-260 | used, limit, remaining and upgrade prompt for each action; unlimited for unknown ones |
| UsageQuota.QuotasAre | backend/auth.py:148-195 | the limit of every action name in every tier, and the one counter it is measured by |
| UsageQuota.User.MaybeResetMonthlyUsage | backend/auth.py:296-308 | all five counters and the date, together or not at all |
| UsageQuota.NeedsResetIff | backend/auth.py:284-294 | the month test means "a later calendar month" exactly outside one clock anomaly |
| UsageQuota.NeverOverLimit | backend/auth.py:262-308 | in every interleaving of lock-holding consumers with field-by-field resets, counters and grants stay within the limit |
| UsageQuota.CountersCountGrants | backend/auth.py:262-308 | counters equal the grants since their reset, at every point, as long as no reset hits a load-store window |
| UsageQuota.LostResetIff | backend/auth.py:272-308 | over every run, counters equal the grants since their reset whenever the lock is free if and only if no reset hits a counter between the load of a count above zero and the store that follows |
| UsageQuota.LostResetRun | backend/auth.py:272-308 | such a run exists |
| UsageQuota.GrantsAreMinOfAttempts | backend/auth.py:262-277 | from zero, n finished attempts of any interleaving grant exactly the smaller of n and the limit |
| UsageQuota.FromAFreshUser | backend/auth.py:262-308 | every run from a fresh user: counters and grants stay within the limit, and without resets the grants are the attempts cut off at the limit |
| ReviewGate.ValidateAttestation | backend/check_openapi_contract.py:341-402 | no fault exactly when the attestation names this change, in this pull request, and has not expired |
| ReviewGate.Judge | backend/check_openapi_contract.py:294-333 | no fault exactly when the review approves this head commit and change |
| ReviewGate.CollectLatest | backend/check_openapi_contract.py:278-291 | the overwriting loop keeps the latest decisive review of each authorized login |
| ReviewGate.ValidateReviews | backend/check_openapi_contract.py:255-338 | approved exactly when some authorized login other than the author has a latest decisive review that passes |
| ReviewGate.LatestIsMaximal | backend/check_openapi_contract.py:289-291 | nobody has a decisive review newer than their latest one |
| ReviewGate.OrderDoesNotMatter | backend/check_openapi_contract.py:278-291 | the verdict is the same for every order of the reviews when sort keys are distinct |
| ReviewGate.OrderMattersIff | backend/check_openapi_contract.py:289-291 | the verdict depends on the order of arrival exactly when some authorized approver has a passing review with a maximal sort key, and every one has a failing review with a maximal key or none at all |
| ReviewGate.OnlyDecisiveReviewsCount | backend/check_openapi_contract.py:280-288 | inserting a non-decisive review, or one by anybody without authority, anywhere changes nothing |
| ReviewGate.NewerReviewRevokes | backend/check_openapi_contract.py:289-300 | a newer review that does not pass, by the only passing approver, revokes the approval |
| ReviewGate.AuthorCannotApprove | backend/check_openapi_contract.py:273-274 | reviews by the author alone never approve |
| ReviewGate.KeyOrder | backend/check_openapi_contract.py:461-467 | the sort keys are totally ordered |
| ReviewGate.ApprovedIff | backend/check_openapi_contract.py:255-338 | the verdict from raw fields: somebody on the list other than the author has the last word, by time stamp and then number, among their approvals, requests for changes and dismissals, the first of equal ones, with an approval of the head commit on a page of the pull request whose body carries, on one line and no other, an attestation of exactly this change |
| ReviewGate.AttestsIff | backend/check_openapi_contract.py:341-402 | the attestation: version 1, this repository and pull request, both hashes of 64 hexadecimal digits, each break named once and no other, an expiry in the future |
| ReviewGate.CarryingLines | backend/check_openapi_contract.py:405-421 | an attestation is read from the one line that begins with its prefix, from behind the prefix on, and not if there are two |
| SchemaCompatibility.DetectBreakingChanges | backend/check_openapi_contract.py:134-189 | reports exactly the breaks there are, and none if and only if the target keeps what clients of the base rely on |
| SchemaCompatibility.CompatibleIff | backend/check_openapi_contract.py:134-189 | nothing breaks exactly when every path stays with every operation of the seven methods and each of its codes that begin with 2, and every component stays with each property and required name of an object |
| SchemaCompatibility.BreaksAre | backend/check_openapi_contract.py:134-189 | exactly when each kind of break is reported, and with which names |
| SchemaCompatibility.ChainIsCompatible | backend/check_openapi_contract.py:134-189 | in a chain of any length of releases that pass the check one by one and whose steps, the last one excepted, keep object definitions with contents, the last release keeps the clients of the first |
| SchemaCompatibility.ChainProtectedIff | backend/check_openapi_contract.py:172-173 | after a chain of any length whose steps, the last one excepted, keep object definitions with contents, every next release that passes its check keeps the clients of the first exactly when no object definition with contents has stopped being an object from the first release to the last |
| SchemaCompatibility.ForeverProtectedIff | backend/check_openapi_contract.py:134-189 | passing the check release by release keeps the clients of a release through every later chain exactly when none of its object definitions lists anything |
| CostPricing.CostIsExact | backend/cost_metering.py:218-223 | rounding the price of a call to eight places, ties to even, gives exactly its price at the listed prices, a whole number of hundred-millionths of a dollar |
| CostPricing.PricesAre | backend/cost_metering.py:41-50 | the price of a call for each listed model, in cents per million tokens, and for an unlisted one |
| CostPricing.TokensAgree | backend/cost_metering.py:277-284 | for metered records total tokens are prompt plus completion tokens, summed over any list |
| CostReports.ForeignRecordInvisible | backend/cost_metering.py:455-465 | a record of another owner or tenant, anywhere in the list, changes nothing a non-admin scope can load |
| CostReports.FilterRecords | backend/cost_metering.py:389-414 | the filter keeps, in order, exactly the selected records the scope can see |
| CostReports.AdjacentWindowsOverlap | backend/cost_metering.py:405-412 | two windows that meet count the records of the shared instant twice, in every column, and miss nothing |
| CostReports.GetOverview | backend/cost_metering.py:467-498 | the accumulator loop computes the sums and the sets of agents and models |
| CostReports.Aggregate | backend/cost_metering.py:528-538 | the shared accumulator loop holds, for every key, the totals of exactly the records with that key, and its keys in the order of first appearance |
| CostReports.SpendReport | backend/cost_metering.py:540-553 | one row per group, sorted by rounded spend, largest first, with equal ones in the order in which their keys first appear |
| CostReports.SpendReportIsUnique | backend/cost_metering.py:540-553 | records have exactly one such report |
| CostReports.TimeSeries | backend/cost_metering.py:555-591 | one row per bucket, in ascending order of the bucket key |
| CostReports.ReportConserves | backend/cost_metering.py:467-498 | every uncut report adds up to the overview: tokens and calls exactly, k rounded spends within (k + 1) / 2 millionths |
| CostReports.LoadedAre | backend/cost_metering.py:455-465 | what a scope loads, in order: everything without one or for an admin, otherwise what the owner recorded in the same tenant |
| CostReports.FilteredAre | backend/cost_metering.py:389-414 | what the filter keeps, in order: the agent and model asked for, from the start of the window to its end, both included |
| CostReports.GroupsAre | backend/cost_metering.py:528-591 | the records of a group, by model, by agent with one common group for records of no agent, and by time bucket |
| CostReports.AgentsAre | backend/cost_metering.py:467-498 | the agents of the overview are those some record names |
| CostReports.SumIsColumnwise | backend/cost_metering.py:467-498 | spend, prompt, completion and total tokens are summed each on its own, and calls are counted |
| CostReports.RoundedToNearest | backend/cost_metering.py:540-553 | amounts are shown to the nearest millionth, and to the even one of two |
| CostBudgets.PeriodSpendIsSelection | backend/cost_metering.py:703-706 | the spend a budget is checked against is what the records selected by the filter for that agent, period and scope add up to |
| CostBudgets.OneAlertBetweenUpdates | backend/cost_metering.py:264-757 | over every run of record, create, update and hydrate operations without an update of a budget, each of its thresholds raises exactly one alert if it fires in the run and none otherwise |
| CostBudgets.ExceededHasAlert | backend/cost_metering.py:264-757 | in such a run since a budget was armed, right after a recorded call, an exceeded budget with a full threshold has an EXCEEDED alert raised in the run |
| CostBudgets.Armed | backend/cost_metering.py:622-654 | an update re-arms its budget, and a new budget is armed |
| CostBudgets.CallMarksIff | backend/cost_metering.py:708-757 | a recorded call marks exactly those thresholds of exactly the budgets of its agent, owner and tenant whose share of the amount has been spent in the current period, the call included; marks stay, and all other budgets are as they were |
| CostBudgets.CallAlertsAre | backend/cost_metering.py:722-757 | every new alert names such a budget, one of its thresholds and the spend that has reached it, and is EXCEEDED from the full amount on, CRITICAL from four fifths on and a WARNING below; only calls raise alerts |
| CostBudgets.CostMeter.CreateBudget | backend/cost_metering.py:622-636 | the whole new meter: a fresh number, an armed budget, everything else as before |
| CostBudgets.CostMeter.UpdateBudget | backend/cost_metering.py:638-654 | the whole new meter: the given fields change, the thresholds of this budget alone are re-armed, alerts and records stay, an unknown budget changes nothing |
| CostBudgets.CostMeter.HydrateBudget | backend/cost_metering.py:848-880 | one row of the budget table replaces or adds a rule and re-arms nothing |
| CostBudgets.CostMeter.Fire | backend/cost_metering.py:722-757 | one threshold: an alert is appended and the threshold marked exactly when it is reached and has not fired |
| CostBudgets.CostMeter.CheckBudgets | backend/cost_metering.py:708-757 | the whole new alert list and marks; every threshold at or below the utilization has fired, no other budget was touched, and every new alert is justified |
| CostBudgets.CostMeter.RecordCall | backend/cost_metering.py:264-301 | the whole new meter after a recorded call: nothing is re-armed, thresholds only fire, budgets of its agent and scope are up to date and every new alert is justified |
| CostBudgets.CostMeter.IsBudgetExceeded | backend/cost_metering.py:777-798 | true exactly when some visible budget of the agent is spent; without a scope all budgets and records are looked at |
| DiagramLayout.GenerateDrawio | backend/diagram_export.py:981-1210 | the generator with its counter, rectangles and name table produces exactly the cells of the document function; what its arrows stand for is said by `DiagramEdges.ArrowsFollowConnections`, its rectangles by `GridInNumbers` |
| DiagramLayout.IdsAreUnique | backend/diagram_export.py:1020-1026 | all cell ids of every diagram are distinct, and are the positions |
| DiagramLayout.ZonesApartIff | backend/diagram_export.py:1053-1063 | zones are pairwise disjoint if and only if every zone with another one below has at most eight services |
| DiagramLayout.ServiceCellsFit | backend/diagram_export.py:1109-1140 | icons and labels of a zone lie inside it and clear of each other, each icon of its own label too, for any number of services |
| DiagramLayout.GridInNumbers | backend/diagram_export.py:1019-1140 | the rectangles of zones, icons and labels in numbers |
| DiagramLayout.CloudContainsAllZones | backend/diagram_export.py:1144-1152 | the cloud boundary contains every zone |
| DiagramLayout.MaximaAttained | backend/diagram_export.py:1148-1149 | and is no larger than some zone and the padding ask for |
| DiagramLayout.DocumentBegins | backend/diagram_export.py:1028-1152 | the first four cells of every document, the boundary reaching exactly 60 beyond the last zone on the right and the last one below |
| DiagramLayout.ZonesContainServices | backend/diagram_export.py:1109-1140 | every icon and label of the document has an emitted zone as parent and lies inside it |
| DiagramLayout.EdgesAreSound | backend/diagram_export.py:1154-1210 | every edge joins two different emitted cells, two labels or two zones (which ones: `DiagramEdges.ArrowsFollowConnections`) |
| DiagramEdges.ArrowsFollowConnections | backend/diagram_export.py:1154-1210 | the arrows of every diagram, after all other cells and in the order of the connections: one for each connection whose two ends mean different labels, from the label of its `from` to the label of its `to`; from each zone to the next if there is none |
| DiagramEdges.EndOf | backend/diagram_export.py:1159-1164 | which label an end means: that of its alias, if it has one that any service bears, and otherwise its own |
| DiagramEdges.NamesMean | backend/diagram_export.py:1141-1142 | a name means the label of the last service of the diagram one of whose names has its key, and nothing if there is none |
| DiagramEdges.LabelsAreEmitted | backend/diagram_export.py:1127-1142 | the label cell of every service, with its number, stands in the document under the cell of its zone |
| VersionDiff.DiffServices | backend/architecture_diff.py:118-152 | the added, removed and changed lists of two service lists, each ascending and complete |
| VersionDiff.DiffIsUnique | backend/architecture_diff.py:118-152 | two versions have exactly one such report |
| VersionDiff.ReplayGivesNew | backend/architecture_diff.py:118-152 | applying the report to the old key-to-target map gives exactly the new one |
| VersionDiff.SwapSwaps | backend/architecture_diff.py:118-152 | swapping the versions swaps the report |
| VersionDiff.DiffCost | backend/architecture_diff.py:182-216 | the per-service list for all keys of both versions in ascending order |
| VersionDiff.CostReportAddsUp | backend/architecture_diff.py:193-216 | it has exactly the services whose costs differ, and its deltas sum to the new total minus the old total |
| VersionDiff.CostReportIsUnique | backend/architecture_diff.py:193-216 | two versions have exactly one cost report |
| VersionDiff.EntryOf | backend/architecture_diff.py:113-124 | the last entry that goes by a name stands for it, the name being the first one given of name, source service, id and printed form |
| VersionDiff.ReportIs | backend/architecture_diff.py:118-152 | the service report from the two lists themselves: added, removed and changed entries by the names they go by, with the targets before and after |
| VersionDiff.CostReportIs | backend/architecture_diff.py:182-216 | the cost report from the two lists themselves: a line exactly for the names whose costs differ, with both costs and their difference |
| VersionDiff.VersionStore.SaveVersion | backend/architecture_diff.py:28-63 | appends under the next number and trims the oldest; other diagrams are untouched |
| VersionDiff.VersionStore.GetVersion | backend/architecture_diff.py:80-87 | the first stored version with the number |
| VersionDiff.HistoryShape | backend/architecture_diff.py:41-56 | after any number of saves: the last fifty in order, and which number each of them got |
| VersionDiff.SavedIsFoundIff | backend/architecture_diff.py:42-56 | looking up the number of the last save finds that save if and only if it is at most the 51st |
| GuidedAnswers.ApplyRules | backend/guided_questions.py:457-476 | the rules rewrite each mapping in place, in order, each seeing what the ones before it left; positions do not move |
| GuidedAnswers.ApplyAnswers | backend/guided_questions.py:424-505 | works on a copy, leaves its input untouched, only extends the warnings, and its high, medium and low counts partition the mappings; which answer counts is said by `GuidedMeaning.GivenAnswersWin`, what it does by `GuidedMeaning.PipelineDoesWhatIsAsked` |
| GuidedAnswers.Summarize | backend/guided_questions.py:484-487 | the counts at and above each bound; a missing confidence counts as zero |
| GuidedAnswers.ConfidenceIsCappedSum | backend/guided_questions.py:565-1219 | the final confidence is the initial one plus all increments that fired, capped once |
| GuidedAnswers.OnlyExtended | backend/guided_questions.py:547-1219 | one reason per increment in order, notes only extended, source service unchanged |
| GuidedAnswers.BookIsPositive | backend/guided_questions.py:565-1219 | for any answers every increment is between two and five points, and only eight of the rules give any |
| GuidedAnswers.AtMostEightReasons | backend/guided_questions.py:457-476 | a mapping gains at most eight reasons |
| GuidedAnswers.RunsJoin | backend/guided_questions.py:457-476 | running one list of rules after another is running the joined list |
| GuidedMeaning.GivenAnswersWin | backend/guided_questions.py:512-519 | for every question the given answer wins over the default, a default stands in for a missing answer, and no other question counts |
| GuidedMeaning.OpenQuestionsDecide | backend/guided_questions.py:424-505 | two calls whose defaults agree on the questions left open give the same mappings, and so the same summary, and the same warnings |
| GuidedMeaning.GivenDevelopmentCounts | backend/guided_questions.py:565-586 | a given development environment adds its reason to every mapping before any other, and its warning, whatever the defaults say |
| GuidedMeaning.RuleDoesWhatIsAsked | backend/guided_questions.py:565-1219 | each of the nineteen rules in terms of the answers given: the new target, the increment with its points and reason, and the note |
| GuidedMeaning.PipelineDoesWhatIsAsked | backend/guided_questions.py:457-476 | the whole pipeline on one mapping in these terms: target, reasons, notes, and confidence from 80 if there was none up to 100 |
| GuidedMeaning.NamesAreAsked | backend/guided_questions.py:457-476 | the target each rule finds is the one the rules before it were asked for, starting from the given one |
| GuidedMeaning.WarningsAreAsked | backend/guided_questions.py:457-476 | the warnings in terms of the answers given, in the order of the rules |
| GuidedMeaning.ReplaceFirst | backend/guided_questions.py:616-634 | the tier renaming replaces the first occurrence and then those behind it |
| GuidedMeaning.AtLeastCounts | backend/guided_questions.py:484-487 | the counts of the summary are numbers of mappings whose confidence is known and reaches the bound |
| GuidedTargets.FinalTarget | backend/guided_questions.py:594-1219 | the target a mapping ends with, in closed form over the answers, its source and the name it came in with |
| GuidedTargets.SomethingFiresIff | backend/guided_questions.py:565-1219 | whether any increment fires, decided by the answers and the name in the tier asked for |
| GuidedTargets.SecondRunAddsReasonsIff | backend/guided_questions.py:457-476 | applied to a mapping it has already refined, the pipeline adds reasons exactly when the answers and the refined name, in the tier asked for, call for one of the eight increments |
| GuidedTargets.DevelopmentAlwaysFires | backend/guided_questions.py:565-586 | for a development environment the pipeline is never idempotent |
| GuidedTargets.OthersKeepTheirName | backend/guided_questions.py:594-1219 | outside the extreme tiers and active-active regions, only Spark, streaming, digital-twin and container sources can change their target, through any rules in any order |
| GuidedTargets.PrivateLinkMissedIff | backend/guided_questions.py:763-1137 | with private endpoints for everything, a mapping ends with a listed target and yet without the private-endpoint increment exactly when its name after the first four rules is not listed and a later streaming or container renaming gives it a listed one |

## Left out

- Database, Blob, Redis, GitHub, OAuth and model calls: they are steps that complete or raise, on maps and lists.
- SHA-256, random tokens, JSON and the leaf scanners for PDF, images and text: parameters; only shape or injectivity is used where needed.
- IEEE floats: confidences are hundredths, money is in hundred-millionths of a dollar or cents, times are integers.
- ArchiveScanner.ScanArchive: bytes read are counted by the size each listing entry declares, because the zip reader itself is not modelled.
- ArchiveScanner.ScanGeneratedExport: trimming and lower-casing of the format name happen before the model.
- MemberNames.SafeNameStaysInside: resolution is modelled without symbolic links.
- IconCache.QuiescentCacheIsCurrent: a registry lookup that raises now and then, and lazy loading without a clear, are not modelled; the registry changes only by writes that are followed by a clear.
- SvgIds.NamespaceSvgIds: works on tokens, so the regular expressions, escaped characters in replacement text, attribute names ending in `-id` and ids containing delimiters are not modelled.
- BlobReference.RoundTrip: the splitter's checks of bracketed hosts and of characters that change under normalisation are one predicate.
- ExportPersistence.RunsStayConsistent: sequential runs only; two concurrent identical uploads can break it, because the cleanup of one can remove a blob the other adopted.
- ExportPersistence.ArtifactStore.Persist: the checks of the caller's identity before the scan are not modelled.
- Off-hours alerts and the other audit queries: each is a single test or the same loop as the modelled query.
- ExportCapability.CapabilityStore.VerifyUpToBinding: the refusal of a mismatched principal at issue, header and query-parameter checks before the peek, the disabled mode and unparsable expiry times are not modelled.
- ReviewGate.ValidateReviews: fetching and paging of reviews, JSON equality between numbers and booleans, and the texts of the reasons are not modelled.
- SchemaCompatibility.DetectBreakingChanges: breaks form a set-like list; their order and wording, which follow the snapshot, are not modelled.
- CostReports.SpendReport: averages, the percentage column and the cut to the first consumers are not modelled.
- CostBudgets.CostMeter.RecordCall: budgets are numbered in the order in which the meter gets them; hydration is a separate event for each row, hydration of alerts, sorting of thresholds, the rounding of the spend shown in an alert, and alerts fired twice by concurrent threads are not modelled.
- DiagramLayout.GenerateDrawio: texts, styles and icons, and the choice of zones from mappings (`_services_for_export_zones`), are not modelled.
- VersionDiff.DiffCost: the totals stored in a snapshot are independent of its services, so only the per-service list is modelled; costs are whole cents.
- Confidence shifts and IaC text in the version comparison: the same keyed loop, and a text diff.
- GuidedAnswers.ApplyAnswers: the IaC parameters, the average confidence, answers that are lists where a text is expected, and lower-casing outside ASCII are not modelled; reasons and warnings are enumerated instead of spelled out.
- `_sanitize_manifest` and `_az_workload_groups`: independent of the modelled state.
