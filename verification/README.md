# Verified model of the knowledge-source pipeline and its neighbours

This project models the state-heavy parts of the platform in Dafny and proves what they keep over all
inputs, all runs and all interleavings. `dafny verify dfyconfig.toml` checks everything.

| file | what it models |
|---|---|
| `SyncProtocol.dfy` | the synchronization of knowledge sources over a database, an object store and per-source locks, as steps that commit one at a time: claim, resolve, publish, promote, fail, crash, prune |
| `SyncOutcomes.dfy`, `JobOutcomes.dfy` | what each step and each job operation leaves behind, field by field |
| `SyncDatabase.dfy` | the same steps as transactions that change rows and objects in place |
| `CutOffPrune.dfy` | the same protocol with prunes that delete objects and end before they delete rows |
| `Publication.dfy` | object keys and the upload of one version's artifacts, which any store operation can cut off |
| `RelativePaths.dfy`, `Formats.dfy`, `Bundles.dfy` | relative paths as text and as parts; JSON, archives and node-link graphs; building and checking an immutable bundle |
| `Hydration.dfy` | download, extraction, the check of a cached directory, and the local cache with its pointer |
| `AcceptanceRules.dfy` | when graphs, bundles, downloads, extractions and cached directories are accepted, condition by condition |
| `EndToEnd.dfy` | the pipeline over all runs, from the bundles that workers build to the files that a serving process gets |
| `Serving.dfy` | the serving registry: refresh, pins, and the cleanup that deletes outside the lock |
| `BreadthFirst.dfy`, `GraphSearch.dfy` | bounded breadth-first path search over a served graph |
| `BackgroundJobs.dfy`, `SyncScheduler.dfy` | the life cycle of job runs; scheduling, claiming and pruning of periodic synchronizations |
| `Approvals.dfy` | the approval event fold, operator clicks, archiving, deletion of tasks and the replay of history |
| `Transcript.dfy`, `SubagentGate.dfy` | batching of the session transcript; the gate that waits for asynchronous subagents |
| `Routing.dfy`, `Evidence.dfy`, `EvidenceJson.dfy` | routing of inbound messages; trimming of evidence to a byte budget; the JSON text whose length counts |
| `Text.dfy`, `Identifiers.dfy`, `Wrappers.dfy` | ASCII string operations; shared identifiers; option and result types |

Most modules have two layers. Functions and state machines on values carry the properties. Classes and
methods carry out the same operations with the loops and field updates of the code, and are proved to
compute those functions.

Bytes, JSON text, archives, compression, globbing and regular expressions are function values with the
laws they need (`Formats.Codec`, `Publication.Naming`, `Routing.Engine`). SHA-256 is a function on bytes.
Where different contents must have different digests, the lemma says so for the contents at hand
(`CollisionFree`, `NoCollision`). No hypothesis asks for an injective digest of fixed length.

## Where the code does less than it seems to

The model follows the code. Each of these points is a proved statement with its exact condition, or with
a concrete run that shows it.

- Two links with the same ends push `find_paths` past its limit. The limit holds for all queries on a
  graph if and only if the graph has no such pair (`GraphSearch.LimitHoldsIffNoParallelLinks`).
- A message that arrives while a forced batch is being reported is marked flushed and never reported. The
  reported index ranges partition the flushed transcript if and only if no forced batch was overtaken and no
  flush was cut off (`Transcript.PartitionIffUndisturbed`); for messages that occur once each, so do the
  reported messages (`Transcript.ReportsIffUndisturbed`). A flush cut off in its await also leaves a batch
  that is reported again (`Transcript.CutOffBatchIsRepeated`).
- A prune deletes the objects of a version before its row, and a failed deletion or a crash leaves a row
  that still counts as succeeded. Returning to its commit then serves a version without its artifacts
  (`CutOffPrune.SkipServesDamagedVersion`). Over all histories the serving pointers can be served at every
  moment if and only if every version that is skipped to still has all of its artifacts at that moment
  (`CutOffPrune.PointersServableIffSkipsMeetWhole`).
- Replaying a task's events takes its approvals out of the archive (`Approvals.ReplayRebuildsLiveState`).
- A task notification registers an owner without marking the session as one that waits. A SendMessage to
  that task then adds a pending id, and a result is accepted while it is pending. This can happen exactly
  if a notification named a task before any subagent started (`SubagentGate.FooledIffNamedBeforeStart`), and a
  single notification is enough (`SubagentGate.OneNotificationFools`).
- The `skipped` write does not look at the status of the run. Terminal statuses are final if and only if no
  skip meets a run that ended otherwise (`BackgroundJobs.TerminalIsFinalIffSkipsMeetLiveRuns`).
- With a retention of zero runs the scheduler forgets that it has queued a source. The interval is kept if
  and only if at least one run per source is kept (`SyncScheduler.PacedIffOneRunKept`). The pruning function
  accepts zero; its one caller, housekeeping, keeps the default of five.
- The count of dropped evidence groups is added after the size check, so a bundle that fitted may no longer
  fit. For the length of the compact JSON text, the result fits if and only if the first samples of the
  groups that have to be kept, with the count of the others, fit after all long excerpts are halved out
  (`Evidence.ResultFitsIff`); without long excerpts the count must find room (`Evidence.FitsIffCountFits`).
  Two groups of the same text, each longer than 58 bytes, overrun a budget that one of them meets
  (`Evidence.CountCanExceedBudget`). Excerpts are halved at least once even when the trimmed bundle already
  fits (`Evidence.ShrinksIffLong`, with such a bundle in `Evidence.FittingExcerptIsHalved`).
- A freshly hydrated directory is accepted by the next cached check if and only if its archive holds no path
  twice with different contents (`Hydration.FreshIsAcceptedIff`). An archive with `a` and `./a` is hydrated anew
  every time (`Hydration.TwoSpellingsAreRefused`); bundles built by the indexer never are
  (`Hydration.SecondHydrationIsHit`).
- The identity of a route leaves out its priority and other fields, so the order of the routes can matter.
  For every message the decision is the same in every order if and only if nothing matches, two identities
  have all their matches at the top priority, or one identity has a single prompt and all its matches beat
  all others (`Routing.OrderDoesNotMatterIff`, with a failing list in
  `Routing.OrderMattersWithoutFixedIdentity`).

## Model

| member | source | states |
|---|---|---|
| SyncProtocol.PointerIsServable | shared/lib/knowledge_source_publication.py:94-204 | in every reachable world the serving pointer is empty or names a succeeded version of its own source whose five artifacts are stored under their own keys with the recorded checksums |
| SyncProtocol.SucceededIsFinal | shared/lib/knowledge_source_indexer.py:279-308 | over all runs the row of a succeeded version never changes again, whatever is retried, failed or skipped, and its id is not reused after pruning |
| SyncProtocol.PruneKeepsRetained | shared/lib/housekeeping.py:307-361 | pruning in any reachable world keeps row and objects of every version that is among the newest, current, pending or running; the objects that go are exactly those recorded by versions that go |
| SyncProtocol.PruneSparesOthers | shared/lib/housekeeping.py:321-336 | no key of a version that stays is among the keys that pruning deletes |
| SyncProtocol.RunKeepsInv | shared/lib/knowledge_source_indexer.py:213-406 | all invariants hold after every run of steps from the empty world |
| SyncProtocol.StepKeepsInv | shared/lib/knowledge_source_indexer.py:213-406 | every possible step keeps identities unique, versions servable, pointers valid, workers on a running version of their own source, and promoted runs over |
| SyncProtocol.FailKeepsInv | shared/lib/knowledge_source_publication.py:147-184 | the failure handler keeps the invariants even when it follows a promotion that was already committed |
| SyncProtocol.StepKeepsOver | shared/lib/knowledge_source_publication.py:112-113 | a run that has ended or whose row is gone never runs again under any step |
| SyncProtocol.ResolveKeepsInv | shared/lib/knowledge_source_indexer.py:268-308 | resolving a commit keeps the invariants whether the version is skipped, retried, new, or the run has disappeared |
| SyncProtocol.FoundIsOnly | shared/lib/models.py:301-307 | with unique identities the lookup by commit and configuration finds the one version that has them |
| SyncProtocol.PublishKeepsInv | shared/lib/knowledge_source_publication.py:59-85 | publishing the next artifact, successfully or not, keeps everything that was stored and verified |
| SyncProtocol.PromoteKeepsInv | shared/lib/knowledge_source_publication.py:109-144 | promotion keeps the invariants, leaves the version servable and moves the pointer of its source to it |
| SyncProtocol.PruneKeepsInv | shared/lib/housekeeping.py:307-361 | pruning never takes the current version, a worker's version, or any object they name |
| SyncOutcomes.NewSuccessEndsRun | shared/lib/knowledge_source_publication.py:109-133 | whatever the step, when it makes a version succeeded it ends the run of that version's worker as succeeded at the same time |
| SyncOutcomes.PromotionOutcome | shared/lib/knowledge_source_publication.py:94-144 | a promotion with matching records makes the version succeeded and current and the run succeeded at that time; any other changes nothing |
| SyncOutcomes.FailureOutcome | shared/lib/knowledge_source_publication.py:147-184 | a failure with matching records and a running run fails both at that time; any other only gives up the lock |
| SyncOutcomes.FailedResolutionOutcome | shared/lib/knowledge_source_indexer.py:380-406 | a resolution that fails ends the running run as failed |
| SyncOutcomes.SkipOutcome | shared/lib/knowledge_source_indexer.py:279-293 | a known successful version is skipped to: the run ends as skipped with it, and the source points at it |
| SyncOutcomes.AttemptOutcome | shared/lib/knowledge_source_indexer.py:295-308 | any other is attempted under the row known for it or a new one, which is running and tied to the run |
| SyncOutcomes.ClaimOutcome | shared/lib/knowledge_source_indexer.py:213-260 | a queued run is claimed; the worker goes on only if type, source, trigger and the enabled source match, and otherwise the run ends as failed |
| SyncOutcomes.PublishOutcome | shared/lib/knowledge_source_publication.py:59-85 | publishing an artifact stores it only where nothing is stored, and the worker goes on exactly if its store operations succeed and what is stored then has the size and digest of the artifact |
| SyncOutcomes.StartOutcome | shared/lib/knowledge_source_indexer.py:213-260 | a direct start adds a running run, which fails at once for a disabled source |
| SyncOutcomes.PruneOutcome | shared/lib/housekeeping.py:307-336 | a version goes exactly if it has enough newer ones of its source, is neither current nor pending nor running, and its artifacts can be deleted |
| SyncDatabase.Database.ResolveCommit | shared/lib/knowledge_source_indexer.py:270-308 | the transaction performs exactly the resolution step; a skip points the source at the existing version, an attempt leaves a running one |
| SyncDatabase.Database.SkipVersion | shared/lib/knowledge_source_indexer.py:279-293 | points the source at the successful version and ends the run as skipped with that version |
| SyncDatabase.Database.BeginAttempt | shared/lib/knowledge_source_indexer.py:295-308 | writes the new or known version as running and ties the run to it |
| SyncDatabase.Database.SelectVersion | shared/lib/knowledge_source_indexer.py:271-278 | scanning rows in any order finds the version that the constraint allows |
| SyncDatabase.Database.LockedRecords | shared/lib/knowledge_source_publication.py:187-204 | reports no problem exactly if source, version and run exist and belong together |
| SyncDatabase.Database.PromoteVersion | shared/lib/knowledge_source_publication.py:94-144 | performs exactly the promotion step with the receipt of the publication; without a problem the source points at the version and the run has succeeded at that time |
| SyncDatabase.Database.RecordPromotion | shared/lib/knowledge_source_publication.py:114-144 | records the receipt, moves the pointer and ends the running run as succeeded in one transaction |
| SyncDatabase.Database.FailVersion | shared/lib/knowledge_source_publication.py:147-184 | performs exactly the failure step and leaves every serving pointer alone; without a problem version and run have failed |
| SyncDatabase.Database.PruneHistory | shared/lib/housekeeping.py:307-361 | the loop over the listed versions performs exactly the pruning step, returns the pruned versions and warns about exactly those it could not prune without a bucket |
| SyncDatabase.PositionCountsNewer | shared/lib/housekeeping.py:309-317 | in the newest-first listing a row's position is the number of newer versions, so the leading rows are the newest |
| Publication.KeysAreDistinct | shared/lib/knowledge_source_publication.py:49-61 | two object keys are equal exactly if version identity and artifact are equal |
| Publication.PublishIsImmutable | shared/lib/knowledge_source_publication.py:57-91 | a publication run, complete or cut off, changes no existing object and adds only its own keys with the local bytes |
| Publication.PublishedMatches | shared/lib/knowledge_source_publication.py:63-83 | after success every key holds an object of the local size and digest |
| Publication.PublishedBytes | shared/lib/knowledge_source_publication.py:57-91 | barring a collision with what was stored before, after success every key holds exactly the local bytes |
| Publication.PublishedUnlessConflict | shared/lib/knowledge_source_publication.py:59-85 | when no store operation fails, a run is published exactly if nothing stored contradicts an artifact in size or digest, and otherwise stops at the first that does |
| Publication.PublishKeepsManifestLast | shared/lib/knowledge_source_publication.py:59-85 | one run keeps it true that a stored manifest has the other four artifacts beside it |
| Publication.ManifestAlwaysLast | shared/lib/knowledge_source_publication.py:23-91 | from an empty store, over any sequence of complete and aborted runs of any versions, a manifest is only there when the other four artifacts are |
| Publication.OtherPrefixUntouched | shared/lib/knowledge_source_publication.py:52-61 | publishing one version neither adds nor removes objects of another |
| Publication.ObjectStore.PublishBundle | shared/lib/knowledge_source_publication.py:57-91 | the upload loop refines the publication function; on success the receipt lists every key and checksum |
| Publication.ObjectStore.PublishArtifact | shared/lib/knowledge_source_publication.py:60-83 | one artifact is found, compared or uploaded, and read back, under any interruption |
| RelativePaths.PartsOfJoin | shared/lib/knowledge_source_graphify.py:394 | joining a proper path to text and splitting it gives the path back |
| RelativePaths.SafeOfJoin | shared/lib/knowledge_source_cache.py:271-277 | a path below a directory is accepted by the path check exactly if no name on it holds a backslash |
| RelativePaths.SafePathIff | shared/lib/knowledge_source_cache.py:271-277 | a text is accepted exactly if it is not empty, has no backslash, is not absolute and no part is two dots; its path has the parts that are neither empty nor one dot |
| RelativePaths.NameOfAppended | shared/lib/knowledge_source_cache.py:98-100 | the name of a key is what follows its last slash, whatever comes before |
| Formats.GraphAcceptedIff | shared/lib/knowledge_source_cache.py:177-196 | the graph checks accept exactly the graphs with unique non-empty ids, acceptable source files and links between known nodes |
| Formats.CheckGraph | shared/lib/knowledge_source_cache.py:177-196 | the node and link loops decide exactly that property and report the kind of the first failure |
| Formats.CollectIds | shared/lib/knowledge_source_cache.py:184-193 | the loop over nodes collects the ids or stops at the first node that is not accepted |
| Formats.CheckLinks | shared/lib/knowledge_source_cache.py:194-196 | the loop over links reports the first link that does not join two known nodes |
| Bundles.BuildSucceedsIff | shared/lib/knowledge_source_graphify.py:182-296 | a build succeeds exactly if the extraction is valid and inside the selection, the digests are well-formed, no selected name holds a backslash and the files fit the archive limit; its self-check fails for no other reason |
| Bundles.VerifyOfBuilt | shared/lib/knowledge_source_graphify.py:307-350 | the verification of a freshly built bundle passes exactly if its archive is admissible under the limit |
| Bundles.BuiltManifest | shared/lib/knowledge_source_graphify.py:243-281 | the written manifest reads back with identity, sizes, digests and counts that describe the written files, and the archive reads back as its members |
| Bundles.MembersAreSelected | shared/lib/knowledge_source_graphify.py:385-401 | a visited file is archived with its content exactly if no part of its path is .git, the include list is empty or one of its globs matches, and no exclude glob does |
| Bundles.AdmissibleIff | shared/lib/knowledge_source_graphify.py:429-452 | archive inspection accepts the selected files exactly if they fit the limit and no name holds a backslash |
| Bundles.NormalizedGraphServes | shared/lib/knowledge_source_graphify.py:299-304 | normalizing a valid extraction gives a graph that passes the serving check against the selected files |
| Bundles.BuiltFacts | shared/lib/knowledge_source_graphify.py:214-296 | what a successful build guarantees about its members, its graph and the names its graph may refer to |
| Bundles.SelectFiles | shared/lib/knowledge_source_graphify.py:390-401 | the selection loop yields the members for the visited files in order: exactly those that the include and exclude globs admit |
| Bundles.NormalizeInPlace | shared/lib/knowledge_source_graphify.py:299-304 | the nodes are replaced in place, each by its normalized form |
| Bundles.InspectArchive | shared/lib/knowledge_source_graphify.py:429-452 | the inspection loop returns total size and count, or refuses exactly the archives with an unsafe or irregular member or too many bytes |
| Hydration.RoundTrip | shared/lib/knowledge_source_cache.py:36-87 | build, publish, promote, hydrate: if build and publication succeed, the version is promoted and the registry names the same source and scope, hydration succeeds from any cache state and leaves exactly the files of the snapshot that the include and exclude globs admit, with their contents, and the normalized graph |
| Hydration.SelectedHoldsScope | shared/lib/knowledge_source_graphify.py:395-400 | the selection holds a path of the snapshot exactly if no part is .git, the includes are empty or one matches, and no exclude matches |
| EndToEnd.CurrentVersionHydrates | shared/lib/knowledge_source_cache.py:36-87 | over all runs of the protocol in which workers publish what they build, the version a source points at comes from a build of its commit and configuration; with the row as read at one moment and the artifacts of any later moment at which the version still exists, hydration with the default limit, a larger one or any that the selection fits succeeds and leaves exactly the files that the include and exclude globs of that build admit, with the contents of its snapshot |
| EndToEnd.RunKeepsProvenance | shared/lib/knowledge_source_indexer.py:268-378 | in every reachable world each succeeded version records the artifacts of a build that are stored under its keys, and each attempt carries a build of its own version |
| AcceptanceRules.GraphIsAcceptedIff | shared/lib/knowledge_source_cache.py:177-196 | a graph is accepted exactly if nodes, links and hyperedges are lists, every node is an object with a text id of its own and an absent, empty or acceptable source file, and every link joins two ids |
| AcceptanceRules.NormalizedIs | shared/lib/knowledge_source_graphify.py:299-304 | a node becomes external exactly if its source file is set and names no archived file, and nothing else of it changes |
| AcceptanceRules.OutputIsValidIff | shared/lib/knowledge_source_graphify.py:129-180 | the extractor's output is valid exactly if the graph reads as an acceptable one and every entry of the index has a safe path and a hash |
| AcceptanceRules.IdentityIff | shared/lib/knowledge_source_cache.py:115-124 | two manifest identities are the same exactly if source, alias, address, commit, includes and excludes are |
| AcceptanceRules.VerifiedIff | shared/lib/knowledge_source_graphify.py:307-350 | a bundle is verified exactly if schema, commit, the four entries with file, size and digest, and the archive with its members, limit and counts are as required |
| AcceptanceRules.FetchedIff | shared/lib/knowledge_source_cache.py:97-104 | an artifact is fetched exactly if its key ends in the artifact's file name and the object under it has the recorded digest |
| AcceptanceRules.AgreesIff | shared/lib/knowledge_source_cache.py:112-135 | a manifest agrees exactly if it states the registered identity and scope at the commit of the version, and file, size and digest of graph and archive |
| AcceptanceRules.ExtractsIff | shared/lib/knowledge_source_cache.py:147-174 | extraction yields the last content of every path, exactly if the limit is positive and kept, the archive is unbroken and holds safe regular files not in each other's way, and the manifest states size and number |
| AcceptanceRules.FreshIff | shared/lib/knowledge_source_cache.py:58-71 | a directory is prepared exactly from three fetched artifacts with an agreeing manifest, an archive that extracts and a graph that serves, and holds just these |
| AcceptanceRules.HoldsArchiveIff | shared/lib/knowledge_source_cache.py:226-249 | extracted files are accepted exactly if they are, path by path and by digest, those of an unbroken archive of safe regular files |
| AcceptanceRules.ReusedIff | shared/lib/knowledge_source_cache.py:204-223 | a cached directory is reused exactly if it is complete, its mark and files have the recorded digests, and manifest, files and graph pass |
| AcceptanceRules.HydratesIff | shared/lib/knowledge_source_cache.py:46-79 | hydration succeeds exactly for the current succeeded version of its source with a bucket, by reuse or by preparing a missing or refused directory anew; a failure changes nothing |
| AcceptanceRules.BuildWrites | shared/lib/knowledge_source_graphify.py:232-281 | a build writes the normalized graph, the archive, the report, the log, and a manifest with exactly the stated identity, tool, counts and entries |
| AcceptanceRules.KeyReadsBack | shared/lib/knowledge_source_publication.py:49-61 | an object key splits into prefix, source, commit, configuration and file name |
| AcceptanceRules.GraphRaisesIff | shared/lib/knowledge_source_cache.py:177-196 | the graph check ends in an exception exactly if lists and nodes are fine and the first bad link has a list or an object for an id |
| AcceptanceRules.ArchiveRaisesIff | shared/lib/knowledge_source_cache.py:147-174 | inspection and extraction end in an exception exactly for a limit that is not positive, or at the end of a broken archive whose members are fine |
| AcceptanceRules.VerifyRaisesIff | shared/lib/knowledge_source_graphify.py:307-350 | verifying a bundle ends in an exception exactly if its manifest is fine and inspecting its archive ends in one |
| AcceptanceRules.ComparingRaisesIff | shared/lib/knowledge_source_cache.py:226-249 | comparing extracted files ends in an exception exactly at a link with a safe path after members that agree, or at the end of a broken archive that agrees |
| AcceptanceRules.CheckRaisesIff | shared/lib/knowledge_source_cache.py:204-223 | the cached check ends in an exception instead of a refusal exactly if all before is fine and comparing files, or the graph check, ends in one |
| AcceptanceRules.FreshRaisesIff | shared/lib/knowledge_source_cache.py:58-71 | preparing a directory ends in an exception exactly if downloads and manifest are fine and extraction, or the graph check, ends in one |
| SyncProtocol.ObjectsStay | shared/lib/housekeeping.py:321-336 | no step deletes an object of a version that stays |
| SyncProtocol.ObjectsNeverChange | shared/lib/knowledge_source_publication.py:57-91 | no step changes an object: it keeps its content or is deleted |
| SyncProtocol.ServableStays | shared/lib/knowledge_source_publication.py:94-144 | a version that can be served and is not pruned keeps its row and can be served after any step |
| CutOffPrune.PointersServableIffSkipsMeetWhole | shared/lib/knowledge_source_indexer.py:279-293 | over all histories in which prunes may end between deleting objects and deleting rows, every serving pointer can be served at every moment exactly if every version that is skipped to has all of its artifacts at that moment |
| CutOffPrune.SkipServesDamagedVersion | shared/lib/housekeeping.py:329-336 | for any two commits: both are synchronized, a prune of the older one is cut off after one object, and returning to its commit leaves a pointer that cannot be served |
| CutOffPrune.HistoryKeepsSound | shared/lib/housekeeping.py:321-336 | in every such history identities, records, pointers and workers stay valid, and an object that is still there is the one that was recorded |
| CutOffPrune.CutOffKeepsPointers | shared/lib/housekeeping.py:317-323 | a prune that is cut off deletes no object of a version that is pointed at |
| CutOffPrune.DamagedSkipBreaksPointer | shared/lib/knowledge_source_indexer.py:279-281 | if all pointers can be served after a skip, the version skipped to had all of its artifacts |
| SyncProtocol.SuccessOrigin | shared/lib/knowledge_source_publication.py:109-144 | only the promotion by its own worker makes a version successful |
| Hydration.PromotedRow | shared/lib/knowledge_source_publication.py:115-126 | promotion leaves a row that records the keys and checksums of the local artifacts, and the pointer on it |
| Hydration.HydrateRestores | shared/lib/knowledge_source_cache.py:36-87 | the same for any later store that still holds the artifacts; other version directories are untouched |
| Hydration.FreshRestores | shared/lib/knowledge_source_cache.py:57-71 | on a promoted bundle within the extraction limit every check of the slow path passes and the directory holds the bundle's files and the selection |
| Hydration.CacheHitAgrees | shared/lib/knowledge_source_cache.py:199-249 | an accepted directory equals what a fresh download and extraction would give: same manifest, graph and archive, same path-to-content map |
| Hydration.FreshIsAcceptedIff | shared/lib/knowledge_source_cache.py:158-172 | the directory that hydration has just written is accepted next time exactly if no path occurs twice in the archive with different contents |
| Hydration.TwoSpellingsAreRefused | shared/lib/knowledge_source_cache.py:226-249 | for an archive that holds one file under two spellings with different digests, the slow path succeeds with the second content and the cached check refuses what it has written |
| Hydration.SecondHydrationIsHit | shared/lib/knowledge_source_cache.py:57-79 | the directory of a promoted bundle is a cache hit |
| Hydration.PointerDownloads | shared/lib/knowledge_source_cache.py:90-104 | in every reachable world the three serving artifacts of the version a source points at download and pass their checksums |
| Hydration.JudgedQuietly | shared/lib/knowledge_source_cache.py:212-223 | checking any cached directory against a promoted bundle never ends in an unexpected exception |
| Hydration.ExtractMeaning | shared/lib/knowledge_source_cache.py:158-174 | a successful extraction holds the last content of every archived path and nothing else, and counts bytes and files correctly |
| Hydration.ExtractVisited | shared/lib/knowledge_source_cache.py:158-172 | extracting the archived files of a snapshot restores them path by path |
| Hydration.AcceptedTree | shared/lib/knowledge_source_cache.py:226-249 | extracted files that pass the archive comparison are the files that extraction writes |
| Hydration.GraphNeverRaises | shared/lib/knowledge_source_cache.py:184-196 | a graph valid against one set of files can at worst be refused against another |
| Hydration.DownloadArtifacts | shared/lib/knowledge_source_cache.py:90-104 | the download loop succeeds exactly if all three artifacts have a usable key and the recorded digest, and returns those objects |
| Hydration.ExtractArchive | shared/lib/knowledge_source_cache.py:138-174 | the loop with its size and file counters computes the extraction, failing at the first bad member |
| Hydration.ValidateExtracted | shared/lib/knowledge_source_cache.py:226-249 | the loop over archive members decides whether the extracted files are accepted, and tells refusals from exceptions |
| Hydration.LocalCache.MatchCached | shared/lib/knowledge_source_cache.py:199-223 | the cached check step by step |
| Hydration.LocalCache.PrepareFresh | shared/lib/knowledge_source_cache.py:58-71 | the slow path step by step |
| Hydration.LocalCache.HydrateVersion | shared/lib/knowledge_source_cache.py:36-87 | hydration in place: a failure leaves the cache as it was, a success moves the pointer and touches no other version |
| Serving.CleanupIsSafe | shared/lib/knowledge_source_serving.py:128-177 | however other threads pin and release during cleanup, every version that an alias serves or that was pinned more often than released has its directory, and is not the next to go |
| Serving.PinsCountHolders | shared/lib/knowledge_source_serving.py:129-146 | in every run the table of pins counts, for each version, the pins that served it minus its releases, and holds no entry for none; so a release always finds its pin |
| Serving.SurvivorsAreNewest | shared/lib/knowledge_source_serving.py:161-177 | who survives without being held has fewer than the kept number of newer ones, and who does not has at least that many as new |
| Serving.SwapServes | shared/lib/knowledge_source_serving.py:104-108 | after a swap an alias serves what this refresh hydrated for it last, an enabled one without that what it served before, and a disabled one nothing |
| Serving.HydrateKeepsDirs | shared/lib/knowledge_source_serving.py:91-100 | hydration leaves the directory of the version with its first time and changes no other |
| Serving.CleanupIsExact | shared/lib/knowledge_source_serving.py:148-177 | at every moment of a cleanup, each source visited so far keeps exactly the first versions of its listing and those captured as active or pinned, the last one as soon as nothing of it is doomed any more |
| Serving.DoomedMembers | shared/lib/knowledge_source_serving.py:170-177 | the retention counter rejects exactly the versions that are neither among the newest nor held |
| Serving.StepKeepsInv | shared/lib/knowledge_source_serving.py:74-177 | refresh, capture, deletion, pin and release keep the captured sets a cover of everything in use |
| Serving.Registry.SwapSnapshots | shared/lib/knowledge_source_serving.py:104-108 | disabled aliases go, hydrated ones are replaced, failed ones keep their old snapshot |
| Serving.Registry.PinSnapshot | shared/lib/knowledge_source_serving.py:129-137 | a pin succeeds exactly for an available alias and an authorized workflow and adds one to the count of the served version and to no other |
| Serving.Registry.ReleasePin | shared/lib/knowledge_source_serving.py:140-146 | a release takes one from the count of its version and from no other, and drops the entry with the last |
| Serving.Registry.CleanupUnpinnedVersions | shared/lib/knowledge_source_serving.py:148-177 | without interference every source directory keeps exactly its survivors |
| Serving.Registry.CleanupSource | shared/lib/knowledge_source_serving.py:170-177 | the retention loop removes exactly the doomed versions of one source |
| Serving.SortNewestFirst | shared/lib/knowledge_source_serving.py:161-169 | lists every directory once, by descending modification time |
| GraphSearch.SearchIsSound | shared/lib/knowledge_source_serving.py:299-318 | every returned path is a simple directed walk between the endpoints within the depth bound, and lengths never decrease |
| GraphSearch.SearchIsComplete | shared/lib/knowledge_source_serving.py:304-318 | a simple path that is missing implies that the limit was reached and that it is at least as long as every returned path |
| GraphSearch.SearchKeepsLinkOrder | shared/lib/knowledge_source_serving.py:304-318 | equally long paths come in the order of the links they take, compared step by step |
| GraphSearch.LimitHoldsIffNoParallelLinks | shared/lib/knowledge_source_serving.py:306-317 | all queries on a graph respect their limit exactly if no two links join the same two distinct nodes |
| GraphSearch.LevelMembers | shared/lib/knowledge_source_serving.py:304-317 | the worklist entries at depth k are exactly the simple walks of k links that avoid the target |
| GraphSearch.LevelHits | shared/lib/knowledge_source_serving.py:312-315 | the paths found from depth k are exactly the simple paths of k+1 links |
| GraphSearch.RenderKeepsIds | shared/lib/knowledge_source_serving.py:379-383 | the path can be read back from the returned node views |
| GraphSearch.RenderedFields | shared/lib/knowledge_source_serving.py:379-383 | a returned node has the fields of the node except the three bulky ones, and its source and commit |
| GraphSearch.BuildAdjacency | shared/lib/knowledge_source_serving.py:300-302 | the adjacency lists hold the targets of every node in link order, repetitions included |
| GraphSearch.ExtendPath | shared/lib/knowledge_source_serving.py:310-317 | the inner loop appends exactly the hits to the results and the open extensions to the queue |
| GraphSearch.Search | shared/lib/knowledge_source_serving.py:287-318 | the worklist terminates on every graph and returns the level-by-level answer cut at the limit, or the error of the first failing argument check |
| BackgroundJobs.Lifecycle | shared/lib/background_jobs.py:23-220 | over all sequences of guarded operations runs only advance, by at most one stage with each operation, so no queued run ends without having run; a finished run never changes, and its duration is not negative |
| BackgroundJobs.ClaimedAtMostOnce | shared/lib/background_jobs.py:49-62 | at most one claim of a run ever succeeds, and none while it is still queued |
| BackgroundJobs.HeartbeatOnlyRunning | shared/lib/background_jobs.py:23-220 | over all sequences of operations a queued run has never beaten, a running one has, and an ended one beat for the last time when it ended, which also fixes its duration |
| BackgroundJobs.TerminalIsFinalIffSkipsMeetLiveRuns | shared/lib/knowledge_source_indexer.py:279-293 | with the unguarded skip write, terminal statuses are final exactly if no skip meets a run that ended otherwise |
| BackgroundJobs.ReconciledRunCanBecomeSkipped | shared/lib/knowledge_source_indexer.py:283 | a run reconciled as failed is overwritten as skipped |
| JobOutcomes.FinishOutcome | shared/lib/background_jobs.py:116-151 | finishing ends exactly a running run, with a terminal status, its end time and its duration |
| JobOutcomes.ClaimOutcome | shared/lib/background_jobs.py:49-62 | a claim starts exactly a queued run, at the time of the claim |
| JobOutcomes.ReconcileOutcome | shared/lib/background_jobs.py:193-220 | reconciliation fails exactly the running runs of the type whose last heartbeat, or without one whose start, lies before the limit |
| BackgroundJobs.JobStore.QueueJob | shared/lib/background_jobs.py:23-46 | adds a queued run under a new id |
| BackgroundJobs.JobStore.StartJob | shared/lib/background_jobs.py:65-92 | adds a running run under a new id |
| BackgroundJobs.JobStore.ClaimJob | shared/lib/background_jobs.py:49-62 | claims exactly the runs that are queued |
| BackgroundJobs.JobStore.HeartbeatJob | shared/lib/background_jobs.py:95-113 | beats exactly for running runs |
| BackgroundJobs.JobStore.FinishJob | shared/lib/background_jobs.py:116-151 | finishes exactly running runs with a terminal status |
| BackgroundJobs.JobStore.ReconcileStale | shared/lib/background_jobs.py:193-220 | the loop fails exactly the running runs without a recent heartbeat and reports them |
| SyncScheduler.ScheduledRunsArePaced | knowledge-indexer/main.py:37-112 | in every run of the system with one scheduler and a non-decreasing clock, two scheduled runs of a source are at least its interval apart if pruning keeps a run, although claims move start times |
| SyncScheduler.PacedIffOneRunKept | shared/lib/housekeeping.py:350-353 | the interval is kept exactly if pruning keeps at least one run per source |
| SyncScheduler.UnpacedRun | shared/lib/housekeeping.py:338-353 | with no run kept, a concrete run queues the same source twice in one instant |
| SyncScheduler.PruneKeepsStarts | shared/lib/housekeeping.py:338-353 | pruning that keeps a run leaves the most recently started one of every source |
| SyncScheduler.FindLastStarted | knowledge-indexer/main.py:64-72 | returns the latest start time of a source's synchronization runs, if there are any |
| SyncScheduler.DueSourceIds | knowledge-indexer/main.py:52-75 | the loop over the sources returns the ids of the due ones, in the order of the sources |
| SyncScheduler.DueMember | knowledge-indexer/main.py:37-75 | an id is listed exactly if it is that of an enabled source whose interval has elapsed since its latest start |
| SyncScheduler.DueExactly | knowledge-indexer/main.py:37-75 | a source is due exactly if it is enabled, has a positive interval, and all its synchronizations started at least that long ago |
| SyncScheduler.QueueAllRows | knowledge-indexer/main.py:101-112 | queueing adds one scheduled run for each listed source, in order, and touches no other row |
| SyncScheduler.PrunedRuns | shared/lib/housekeeping.py:338-353 | pruned are exactly the ended synchronizations of the source that have the kept number of later ones |
| SyncScheduler.DueOnce | knowledge-indexer/main.py:52-75 | no source is listed twice |
| SyncScheduler.QueueDueSources | knowledge-indexer/main.py:101-112 | queues one run per due source and nothing else |
| Approvals.ReachableTables | shared/lib/approvals.py:65-153 | every reachable table has at most one pending approval per task and tool, resolved approvals keep status, reason and resolution time, and only those of deleted or replayed tasks go, whose ids are not used again |
| Approvals.AcceptedClickResolvesItsApproval | gateway/message.py:69-127 | an accepted click resolves exactly the approval that was clicked although the fold looks it up by task and tool; the fold always finds it |
| Approvals.AcceptedIff | gateway/message.py:62-102 | a click is accepted exactly if the decision is approve or reject, the approval and its task are known, the request id is empty or that of this approval as the newest with it, post and channel do not contradict the prompt, and the approval is pending |
| Approvals.JudgedByGuards | gateway/message.py:77-100 | for a known approval, each refusal is given exactly if its guard is the first that fails |
| Approvals.ClickDecides | gateway/message.py:102-127 | an accepted click approves or rejects the approval it names as the click says, with reason and time of the click, and touches no other row |
| Approvals.EventOnOpen | shared/lib/approvals.py:65-153 | what each kind of event makes of the pending approval of its task and tool, field by field |
| Approvals.EventCreates | shared/lib/approvals.py:65-153 | what each kind of event creates when there is none, field by field |
| Approvals.DeleteOutcome | shared/lib/housekeeping.py:158-184 | deletion takes the approvals and events of exactly the named tasks |
| Approvals.OpenIsUnique | shared/lib/approvals.py:22-37 | with one pending approval per task and tool the lookup returns the pending one |
| Approvals.ApplyKeepsWellFormed | shared/lib/approvals.py:65-153 | every event keeps the table well formed and only lets approvals evolve |
| Approvals.LiveView | shared/lib/approvals.py:65-153 | in every reachable world the approvals of a task are the fold of that task's own events, clicks, deliveries, archiving, deletions and orderly replays included |
| Approvals.ReplayRebuildsLiveState | shared/lib/approvals.py:156-191 | replay gives a task whose events were logged in strictly increasing time the approvals of live processing, up to ids, row times and delivery, takes them out of the archive, and leaves other tasks' rows as they were |
| Approvals.ReplayRebuildsTool | shared/lib/approvals.py:156-191 | for one tool of a task the order of its own events is enough, however they are interleaved or tied in time with those of other tools |
| Approvals.LiveToolView | shared/lib/approvals.py:65-153 | in every reachable world the approvals of one tool of a task are the fold of the events that name it |
| Approvals.QueryRestoresToolOrder | shared/lib/approvals.py:169-176 | the ordered event query restores the order of the events of one tool |
| Approvals.OfToolApply | shared/lib/approvals.py:22-37 | an event acts on the approvals of its own tool alone |
| Approvals.QueryRestoresOrder | shared/lib/approvals.py:169-176 | the ordered event query restores the order in which a task's events were logged |
| Approvals.SortedIsUnique | shared/lib/approvals.py:175 | a strictly increasing sequence is the only sorted arrangement of its events |
| Approvals.OtherTasksUntouched | shared/lib/approvals.py:65-153 | an event leaves the approvals of other tasks alone |
| Approvals.ViewApply | shared/lib/approvals.py:65-153 | seen from its own task, an event acts on that task's approvals alone |
| Approvals.ApprovalTable.ApplyEvent | shared/lib/approvals.py:65-153 | the branches for the three event types perform the fold and return the row they touched |
| Approvals.ApprovalTable.CollectEvent | gateway/event_collector.py:139-163 | records the event and applies it in one transaction |
| Approvals.ApprovalTable.ResolveAction | gateway/message.py:51-136 | the guard sequence decides the outcome, as Approvals.AcceptedIff states it; only an accepted click changes anything |
| Approvals.ApprovalTable.Backfill | shared/lib/approvals.py:156-191 | deletes the rows of the tasks, replays the events and counts the applied ones; on a result of the query this is the replay step |
| Transcript.PartitionIffUndisturbed | runtime/session_entrypoint.py:1666-1710 | the index ranges of the reported batches partition the flushed transcript, in order, if and only if every flush was undisturbed |
| Transcript.ReportsIffUndisturbed | runtime/session_entrypoint.py:1666-1710 | for messages that occur once each, the reported messages concatenate to exactly the flushed transcript if and only if every flush was undisturbed |
| Transcript.MessagesContiguous | runtime/session_entrypoint.py:1669-1688 | if distinct messages are reported exactly as far as the transcript is flushed, the batches follow one another without gap or overlap |
| Transcript.PartitionStep | runtime/session_entrypoint.py:1680-1688 | one step keeps the partition exactly if it is undisturbed, and no later step restores it |
| Transcript.BatchesAreStretches | runtime/session_entrypoint.py:1669-1687 | in every run every reported batch is a stretch of the transcript; unforced ones have exactly the configured size and forced ones are smaller |
| Transcript.FlushOutcome | runtime/session_entrypoint.py:1666-1694 | a flush appends exactly what arrived during its completed awaits; unless cut off it leaves less than a batch, and nothing when forced |
| Transcript.ContiguousMessages | runtime/session_entrypoint.py:1669-1678 | contiguous batches concatenate to the flushed part of the transcript |
| Transcript.FinalFlushCoversTranscript | runtime/session_entrypoint.py:2081 | an undisturbed run that ends with a forced flush has reported the whole transcript in order |
| Transcript.OvertakenMessageIsMarkedFlushed | runtime/session_entrypoint.py:1680-1688 | a message that arrives during a forced await is marked flushed without being in any batch |
| Transcript.UnreportedForever | runtime/session_entrypoint.py:1666-1710 | a message marked flushed without being reported is in no later batch either |
| Transcript.CutOffBatchIsRepeated | runtime/session_entrypoint.py:1669-1678 | a flush that is cancelled in its await leaves its batch to be reported once more |
| Transcript.TranscriptWriter.AppendTranscript | runtime/session_entrypoint.py:1705-1710 | appends the messages and flushes full batches, refining the two steps |
| Transcript.TranscriptWriter.Flush | runtime/session_entrypoint.py:1666-1694 | performs one flush under any arrivals and cancellation; the timer runs exactly while something waits |
| Transcript.TranscriptWriter.FlushFull | runtime/session_entrypoint.py:1669-1678 | the loop reports full batches until fewer messages than one batch remain |
| SubagentGate.GatedReturn | runtime/session_entrypoint.py:1899-2033 | a session that started a subagent returns normally only at a result message handled while nothing is pending, with that message's text |
| SubagentGate.PendingIff | runtime/session_entrypoint.py:1893-2031 | while a session runs, exactly those ids are pending that some message started or resumed and no later one released |
| SubagentGate.ReturnsAfterAllReleased | runtime/session_entrypoint.py:1899-2033 | when a session returns at a result, every id started or resumed before was released by a later event |
| SubagentGate.ReturnsIff | runtime/session_entrypoint.py:1857-2033 | after a start a session ends normally exactly at a result for which nothing is still awaited, and raises exactly at the end or an error of the stream |
| SubagentGate.FinalTextIsLastResult | runtime/session_entrypoint.py:1955-1962 | without a start the final text is that of the last result message |
| SubagentGate.StreamEnds | runtime/session_entrypoint.py:1866-1871 | without a start the end of the stream returns the final text, and an error of the stream raises |
| SubagentGate.OwnerStep | runtime/session_entrypoint.py:1484-1494 | the owner of a task is the id that the last naming message gives it |
| SubagentGate.NameIsLastUsed | runtime/session_entrypoint.py:1893-1913 | the tool name kept for an id is that of its last use |
| SubagentGate.PendingUntilReleased | runtime/session_entrypoint.py:1980-2031 | a pending id stays pending until a terminal notification for it, an errored Agent result for it, or a new owner of its task |
| SubagentGate.LeavesOnlyIfReleased | runtime/session_entrypoint.py:1484-1494 | no single message removes a pending id in any other way |
| SubagentGate.FooledIffNamedBeforeStart | runtime/session_entrypoint.py:1998-2005 | before any subagent starts, a result can be accepted while something is pending exactly if a notification has named a task |
| SubagentGate.OneNotificationFools | runtime/session_entrypoint.py:1998-2005 | after a single notification of a task that nobody started, the gate can be passed with something pending |
| SubagentGate.NeverTakenAfterStart | runtime/session_entrypoint.py:1959-1966 | once a subagent was started, no result seen while something is pending is ever taken |
| SubagentGate.ClosesOnlyWhenIdle | runtime/session_entrypoint.py:1764-1768 | the prompt stream is closed exactly at a result message with a text, while nothing is pending and no subagent was started |
| SubagentGate.RunningKnowsStarts | runtime/session_entrypoint.py:1899-1913 | a running session knows whether any subagent was started |
| SubagentGate.NothingPendingWithoutNames | runtime/session_entrypoint.py:1469-1481 | without a start or a naming notification nothing is ever pending |
| SubagentGate.GatedSession.HandleBlocks | runtime/session_entrypoint.py:1893-1913 | the loop over content blocks registers tools, starts and resumptions |
| SubagentGate.GatedSession.SetPendingOwner | runtime/session_entrypoint.py:1484-1494 | the new owner is pending and replaces the previous one |
| SubagentGate.GatedSession.Handle | runtime/session_entrypoint.py:1872-2033 | one message has exactly the effect of the step |
| SubagentGate.GatedSession.RunSession | runtime/session_entrypoint.py:1857-2085 | the message loop ends with the outcome of the session; a denial only stands in for an empty result |
| Routing.DecisionIsWinner | gateway/message_ingress.py:128-153 | for any list, the decision is the first match of its identity that beats the first matches of all other identities, if there is one |
| Routing.MatchesIff | gateway/message_ingress.py:67-142 | a route matches a message exactly if channel, provider, thread, sender trust, mentioned accounts and environments and text are as the route asks, and with the prompt that its rule or first applicable trigger leaves |
| Routing.SameIdentityIff | gateway/message_ingress.py:140 | identities are the same exactly if workflow, rule, match type, pattern and triggers are |
| Routing.CopiesAre | gateway/message_ingress.py:217-249 | the copies are the routes with the lower-cased id of their channel, where there is one and it is another |
| Routing.OrderDoesNotMatter | gateway/message_ingress.py:128-153 | when identities fix routes up to the channel, any reordering or repetition of the routes decides the same identity and prompt |
| Routing.OrderDoesNotMatterIff | gateway/message_ingress.py:128-153 | for any list and message, every order decides the same exactly if nothing matches, two identities have all their matches at the top priority, or one identity has a single prompt and its matches beat all others |
| Routing.EveryOrderDecidesIff | gateway/message_ingress.py:128-153 | every order decides a given identity and prompt exactly if that identity dominates with that prompt |
| Routing.NoOrderDecidesIff | gateway/message_ingress.py:143-153 | no order decides anything exactly if nothing matches or two identities are always tied at the top |
| Routing.UndecidedIffNothingOrTie | gateway/message_ingress.py:143-153 | for any list, nothing is decided exactly if no route matches or the first matches of two identities share the top priority |
| Routing.OrderMattersWithoutFixedIdentity | gateway/message_ingress.py:128-153 | two rules with one identity and different priorities around a third: swapping them changes the decided identity |
| Routing.AliasesKeepIdentities | gateway/message_ingress.py:217-249 | adding channel-id copies keeps it true that identities fix routes up to the channel |
| Routing.AliasesNameChannels | gateway/message_ingress.py:217-249 | for every message, routing over routes and copies decides what the routes alone decide when channel ids are read as the names that resolve to them |
| Routing.IdOnlyMessage | gateway/message_ingress.py:217-249 | a message that carries only a channel id is routed over routes and copies like the same message with its channel named over the routes |
| Routing.OnlyRoutesTie | gateway/message_ingress.py:143-153 | a route never ties with its own copy: an ambiguity is always between two matching routes of different identity that share the top priority, with no matching route above them |
| Routing.IdNeedsCopy | shared/lib/message_ingress.py:129-130 | a message with the id in both channel fields is undecided over the route alone and routed over route and copy |
| Routing.ResolveRouteChannels | gateway/message_ingress.py:217-249 | the loop appends a copy of exactly the routes whose channel resolves to another lower-cased id |
| Routing.MatchRoute | gateway/message_ingress.py:128-153 | the loops return a matching route with the decided identity and prompt, or nothing exactly when nothing is decided |
| Routing.CollectMatches | gateway/message_ingress.py:133-142 | the dictionary holds the first matching route of every identity |
| Evidence.TrimKeepsPrefixes | mcps/evidence.py:83-91 | kept groups are a prefix, kept samples a non-empty prefix of each group's, and the loops end with a bundle that fits or with at most one group of at most one sample |
| Evidence.TrimStopsAtFirstFit | mcps/evidence.py:83-91 | before every trimming step that was taken the bundle did not fit |
| Evidence.TrimFromTheEnd | mcps/evidence.py:83-91 | samples go from the last group on, and groups only when no group has more than one sample |
| Evidence.FittedBundle | mcps/evidence.py:70-109 | the result keeps prefixes, counts the dropped groups, only shortens excerpts, and fits or has no long excerpt left |
| Evidence.ShrinkKeepsExcerpts | mcps/evidence.py:95-107 | shortened excerpts are prefixes of at least half the excerpt limit, and halving ends |
| Evidence.ShrinkFromTheFront | mcps/evidence.py:95-107 | excerpts are halved in the order of groups, samples and fields |
| Evidence.HalvedTextIs | mcps/evidence.py:103-104 | a text over the limit is cut to the first of its halves, quarters and so on that is within it |
| EvidenceJson.SizeIsLength | mcps/evidence.py:66-67 | the size that is budgeted is the length of the compact ASCII JSON text of the bundle |
| Evidence.ShrinksIffLong | mcps/evidence.py:102-107 | excerpts are left alone exactly if none of them is long, whether or not the bundle fits already |
| Evidence.FittingExcerptIsHalved | mcps/evidence.py:102-107 | for every text longer than the excerpt limit, a bundle whose trimmed form fits the budget and leaves changed |
| Evidence.HalvedOutIsShort | mcps/evidence.py:103-104 | halving all long excerpts out cuts each of them down in place, by a rule for the single text that leaves short ones alone |
| Evidence.FitsIffCountFits | mcps/evidence.py:88-93 | without long excerpts, for the JSON length: the result fits exactly if no group has to be dropped and the first samples of all groups fit, or the first samples of the kept groups leave room for the count |
| Evidence.ResultFitsIff | mcps/evidence.py:70-109 | for every bundle and the JSON length: the result fits exactly if the marked input, cut to the first samples of the groups that are kept, with the count of the others and all long excerpts halved out, fits |
| Evidence.TrimmedGroups | mcps/evidence.py:83-91 | trimming keeps all groups if their first samples fit, and otherwise the most groups whose first samples fit, but at least one, cut down to them |
| Evidence.GroupDroppedIff | mcps/evidence.py:88-91 | a group is dropped exactly if there are several and their first samples alone do not fit |
| Evidence.CountAdds | mcps/evidence.py:92-93 | recording a count lengthens the JSON text by 18 and its digits, or by the difference in digits to a count it replaces |
| Evidence.ShrinkFitsIff | mcps/evidence.py:95-107 | halving excerpts ends with a bundle that fits exactly if the bundle with all of them halved out fits |
| Evidence.CountCanExceedBudget | mcps/evidence.py:92-93 | for every text of more than 58 bytes, two groups with it and a budget that one of them meets: the trimmed bundle fits and the result is 19 bytes too long |
| Evidence.EvidenceBundle.Fit | mcps/evidence.py:70-109 | trims in place to the fitted bundle |
| Evidence.EvidenceBundle.DropSamples | mcps/evidence.py:83-86 | the nested loops drop samples from the last group on as long as the bundle is too large |
| Evidence.EvidenceBundle.DropGroups | mcps/evidence.py:88-91 | the loop drops groups from the end and counts them |
| Evidence.EvidenceBundle.HalveExcerpts | mcps/evidence.py:95-107 | the loops halve long excerpts in order until the bundle fits |

## Left out

- Serialization itself: JSON, tar, zstd, UTF-8 and hashing are functions with stated laws. JSON numbers are integers, and booleans are not numbers.
- Regular expressions and globbing are functions of pattern and text.
- Strip and lower-casing cover ASCII only.
- Git and the extractor process: the commit, the snapshot and the extractor's files are inputs of a build.
- The order in which files are archived is the order in which they are listed. The sort by path is not modelled, and no result depends on it.
- Directories of the cache hold regular files only; symbolic links, permissions and file-name limits of the file system are not modelled.
- Publication.PublishedBytes: assumes that no stored object has the size and digest of a local artifact and another content; without that, Publication.PublishedMatches is what holds.
- Hydration.CacheHitAgrees: assumes that the contents involved do not collide under SHA-256.
- Hydration.RoundTrip: assumes the same of the cached directory and the bundle, and of the store and the bundle.
- EndToEnd.CurrentVersionHydrates: likewise, for an unchanged scope and a limit below the default only if the selection fits it; all prunes are complete.
- Evidence.JsonSize: further entries of objects are ASCII text, and entry names need no escapes.
- Hydration replaces a corrupt directory of the same version while readers may hold it, and a crash between removal and replacement leaves the pointer without its directory; Serving.CleanupIsSafe makes no claim about either.
- Serving.CleanupIsSafe: covers one refresh at a time, as the refresh loop runs it.
- Locked reads are taken to see the committed row; that a session keeps rows cached across commits is not modelled.
- Every transaction and every store operation is one atomic step; a complete prune of one source is one step, and CutOffPrune has prunes that end after any of its deletions.
- Knowledge sources are not deleted.
- SyncProtocol.PointerIsServable: is for complete prunes, with CutOffPrune.PointersServableIffSkipsMeetWhole for the others; it speaks of the recorded artifacts of a version; that they form a valid bundle is the subject of EndToEnd.CurrentVersionHydrates.
- The operator's click reads the approval without a row lock; it is one step here.
- The `approval_action` and `approval_wait_resolved` events are not logged in the model, since the fold ignores them.
- Approvals.ReplayRebuildsLiveState: needs strictly increasing event times within a task, because events with equal times are ordered by random ids, and the same at every earlier replay of it; Approvals.ReplayRebuildsTool needs them for the one tool only.
- The workflow of a deleted task stays known, so events that name it could still be applied.
- A later approval request for the same tool and task overwrites the request id of the earlier one; nothing is claimed for whoever waits for the earlier one.
- Failures to deliver an event are swallowed by the reporter, so "reported" means handed to it.
- The batch size of the transcript is positive.
- Prompt reminders, retries of empty subagents, token accounting and telemetry of the session loop.
- Routing.OrderDoesNotMatter: is stated for routes whose identity fixes everything but the channel; Routing.OrderDoesNotMatterIff has no such condition.
- Routing.AliasesNameChannels: is stated for such routes too, and for a directory that resolves a name the same way for every route.
- Routing.IdOnlyMessage: likewise, and for an id that the directory gives to exactly one of the routed channel names.
- Listener life cycle, thread hydration and acknowledgements of the message ingress.
- Redaction of evidence text.
- Symbol and source search, neighbours and excerpts of the serving layer.
- HTTP endpoints, provider clients, container launchers, the task queue, secrets and configuration loading.
