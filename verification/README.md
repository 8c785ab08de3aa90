# Ontrack: Git correlation, branch ordering, indicator types and DSL JSON adapters in Dafny

This project models five pieces of Ontrack, a continuous-delivery monitoring server, and proves
properties of them.

- **The Git service** (`GitServiceImpl`). It correlates builds with a project's Git repository:
  - it chooses a project's Git configuration among the configurators and derives the branch configuration;
  - it schedules indexation and build/tag synchronisation jobs, and launches a sync by hand;
  - it builds change logs between two builds: the sync-error flag, the commit range with its swap-and-retry, and the presented commits;
  - it aggregates the issues those commits mention;
  - it classifies changed files and fills diff links;
  - it imports builds from tags (`buildSync`).
- **The tag-pattern build/commit link** (`TagPatternBuildNameGitCommitLink`). A build's commit is the tag that a pattern derives from the build's name. Its identifier `"tagPattern"` and display name `"Tag pattern"` are the constants `TagPatternLink.Id` and `TagPatternLink.Name`.
- **The "version" branch ordering** (`VersionBranchOrdering`). Branches are ordered by a version read from their name through a regular expression.
- **The indicator type registry** (`IndicatorTypeServiceImpl`). Three fixed indicator types, held by id, can be listed, looked up and filtered.
- **The JSON adapters of the Kotlin DSL** (`adaptProjectId`, `adaptSignature`). They rewrite an object node in place.

Modules, one per file:

- `Wrappers` (`Option`, `Result`)
- `Text`
- `Structure`
- `TagPatternLink`
- `GitConfig`
- `GitJobs`
- `GitChangeLog`
- `GitIssues`
- `GitBuildSync`
- `VersionBranchOrdering`
- `IndicatorTypes`
- `ProjectEntityJson`

The collaborators of the Git service are the fields of `GitConfig.GitContext`, as functions: the configurators, the branch property, the link strategies, the issue service registry and message annotation. Stateful collaborators are classes with recorded state:

- `GitChangeLog.RepositoryClient` counts syncs and records `graph` calls;
- `GitBuildSync.BuildStore` holds a branch's builds by name;
- `GitChangeLog.ChangeLog` holds the commits, loaded later;
- `ProjectEntityJson.ObjectNode` is the node the adapters rewrite.

Regular expressions, versions and tag patterns are abstract operations (`VersionSupport`, `PatternMatching`).

Where the code and the behaviour described for the system differ, the model follows the code:

- `buildSync` reads no tags. The list is an empty stub, so `GitBuildSync.BuildSyncTask` imports nothing. The tag loop is modelled on a tag list given as a parameter (`GitBuildSync.BuildSync`).
- The tag-pattern link is not an indexable link in the code. So a branch linked by tag pattern gets no sync job, and a `buildSync` on it fails before syncing. The code fails with a cast error, which is modelled as `Unexpected`.
- Issues of a change log whose commits mention no issue key are an empty list only when an issue service is configured. Otherwise the call fails with `IssueServiceNotConfigured`.

## Model

| member | source | states |
|---|---|---|
| `GitConfig.FirstConfiguratorWins` | ontrack-extension-git/src/main/java/net/nemerosa/ontrack/extension/git/service/GitServiceImpl.java:610-616 | the project configuration is empty exactly when every configurator gives none; otherwise it is the one given by a configurator all of whose predecessors give none |
| `GitConfig.GetBranchConfiguration` | ontrack-extension-git/src/main/java/net/nemerosa/ontrack/extension/git/service/GitServiceImpl.java:624-660 | empty exactly when the project is not configured; carries the project configuration; without a branch property: branch "master", the tag-name link, no override, interval 0; with one: the property's branch, link, override and interval |
| `GitConfig.GetRequiredProjectConfiguration` | ontrack-extension-git/src/main/java/net/nemerosa/ontrack/extension/git/service/GitServiceImpl.java:197-200 | fails with `ProjectNotConfigured(project id)` exactly when there is no configuration, and gives that configuration otherwise |
| `GitConfig.CommitFromBuildOutcomes` | ontrack-extension-git/src/main/java/net/nemerosa/ontrack/extension/git/service/GitServiceImpl.java:239-243 | an unconfigured branch gives `BranchNotConfigured(branch id)`; a tag-pattern branch gives the tag the pattern derives from the build name, or `BuildTagPattern(pattern, build name)` when there is none |
| `TagPatternLink.Clone` | ontrack-extension-git/src/main/java/net/nemerosa/ontrack/extension/git/support/TagPatternBuildNameGitCommitLink.java:22-25 | cloning the link data is the tag pattern's own cloning under the replacement function |
| `TagPatternLink.GetCommitFromBuild` | ontrack-extension-git/src/main/java/net/nemerosa/ontrack/extension/git/support/TagPatternBuildNameGitCommitLink.java:27-31 | succeeds exactly when the pattern derives a tag name from the build name, with that tag name; otherwise the error carries the pattern and the build name |
| `GitJobs.GetJobs` | ontrack-extension-git/src/main/java/net/nemerosa/ontrack/extension/git/service/GitServiceImpl.java:116-132 | the jobs are the indexation jobs of the configured projects followed by the sync jobs of the branches, both in listing order |
| `GitJobs.IndexationJobs` | ontrack-extension-git/src/main/java/net/nemerosa/ontrack/extension/git/service/GitServiceImpl.java:92-100 | the loop over the projects collects exactly `ProjectJobs` |
| `GitJobs.AddIndexationJob` | ontrack-extension-git/src/main/java/net/nemerosa/ontrack/extension/git/service/GitServiceImpl.java:120-122 | one project's callback extends the jobs of the projects before it to the jobs of one more |
| `GitJobs.AddBranchJobs` | ontrack-extension-git/src/main/java/net/nemerosa/ontrack/extension/git/service/GitServiceImpl.java:103-114 | the loop over a project's branches appends exactly `BranchJobs` of those branches |
| `GitJobs.ProjectJobsMatchConfiguredProjects` | ontrack-extension-git/src/main/java/net/nemerosa/ontrack/extension/git/service/GitServiceImpl.java:92-100 | one indexation job per configured project, in project order, carrying that project's configuration; a project is listed exactly when it is configured |
| `GitJobs.BranchJobsMembership` | ontrack-extension-git/src/main/java/net/nemerosa/ontrack/extension/git/service/GitServiceImpl.java:103-130 | a branch has a sync job with a configuration exactly when it is listed, is not a template definition, is configured with it, and has a positive interval and an indexable link |
| `GitJobs.AllBranchJobsMembership` | ontrack-extension-git/src/main/java/net/nemerosa/ontrack/extension/git/service/GitServiceImpl.java:103-130 | the same over all projects: a sync job exists exactly for such branches of listed projects, and only sync jobs are collected |
| `GitJobs.ScheduledJobs` | ontrack-extension-git/src/main/java/net/nemerosa/ontrack/extension/git/service/GitServiceImpl.java:116-132 | every indexation job carries a listed project's configuration; every sync job is for a non-template branch with its configuration, category "GitBuildTagSync", a positive interval and an indexable link; every such branch has one |
| `GitJobs.LaunchBuildSync` | ontrack-extension-git/src/main/java/net/nemerosa/ontrack/extension/git/service/GitServiceImpl.java:140-153 | nothing is queued and the answer is NOK exactly when the branch is unconfigured or its link is not indexable; otherwise the branch's sync job is queued and the queue's answer returned |
| `GitJobs.LaunchedJobIsScheduledJob` | ontrack-extension-git/src/main/java/net/nemerosa/ontrack/extension/git/service/GitServiceImpl.java:140-153 | a launched job is the job `getJobs` schedules for a listed non-template branch with a positive interval |
| `GitJobs.Category` | ontrack-extension-git/src/main/java/net/nemerosa/ontrack/extension/git/service/GitServiceImpl.java:675-678 | a job's category tells its kind: "GitIndexation" exactly for indexation jobs, "GitBuildTagSync" exactly for sync jobs (also lines 708-711) |
| `GitJobs.Id` | ontrack-extension-git/src/main/java/net/nemerosa/ontrack/extension/git/service/GitServiceImpl.java:680-683 | a sync job is known by its branch's id, an indexation job by its repository's id (lines 713-716) |
| `GitJobs.Description` | ontrack-extension-git/src/main/java/net/nemerosa/ontrack/extension/git/service/GitServiceImpl.java:685-692 | a sync job is described by its project and branch names, an indexation job by its configuration's name (lines 718-724) |
| `GitJobs.Interval` | ontrack-extension-git/src/main/java/net/nemerosa/ontrack/extension/git/service/GitServiceImpl.java:694-697 | a sync job runs at its branch configuration's sync interval, an indexation job at its configuration's indexation interval (lines 731-734) |
| `GitJobs.ScheduledJobDescriptors` | ontrack-extension-git/src/main/java/net/nemerosa/ontrack/extension/git/service/GitServiceImpl.java:116-132 | every configured project's repository has its indexation job, each carrying that configuration's repository id, name and interval; every sync job carries its branch's id, names and the positive interval of the branch's configuration |
| `GitJobs.Index` | ontrack-extension-git/src/main/java/net/nemerosa/ontrack/extension/git/service/GitServiceImpl.java:810-816 | the indexation run syncs the repository's client once and makes no other call; it fails exactly when the sync fails, with the sync's message |
| `GitJobs.RunTask` | ontrack-extension-git/src/main/java/net/nemerosa/ontrack/extension/git/service/GitServiceImpl.java:699-702 | a job's task: an indexation job syncs its repository (lines 736-740); a sync job runs `buildSync` on its branch, failing without syncing on a non-indexable link; neither changes the branch's builds |
| `GitChangeLog.NewChangeLog` | ontrack-extension-git/src/main/java/net/nemerosa/ontrack/extension/git/service/GitServiceImpl.java:157-195 | an unconfigured project fails without syncing; otherwise the repository is synced once; a sync failure sets `syncError` and any other failure propagates; the new change log carries the branch, its project and the two builds, with no commits loaded |
| `GitChangeLog.GetMessageAnnotators` | ontrack-extension-git/src/main/java/net/nemerosa/ontrack/extension/git/service/GitServiceImpl.java:582-603 | at most one annotator; none exactly when the identifier is absent or blank, the service is missing or it has no annotator; otherwise the service's annotator |
| `GitChangeLog.UICommitLink` | ontrack-extension-git/src/main/java/net/nemerosa/ontrack/extension/git/service/GitServiceImpl.java:573-580 | the UI commit keeps the commit; every "{commit}" of a template whose other text has no '{' is replaced by the commit id, for any number of occurrences; a template without '{' is kept |
| `GitChangeLog.ToUICommits` | ontrack-extension-git/src/main/java/net/nemerosa/ontrack/extension/git/service/GitServiceImpl.java:562-571 | one UI commit per commit, same order, each presented with the configuration's template and annotators |
| `GitChangeLog.CommitRangeSymmetric` | ontrack-extension-git/src/main/java/net/nemerosa/ontrack/extension/git/service/GitServiceImpl.java:220-227 | when one reading direction is empty, the range is the other direction's commits whichever boundary comes first |
| `GitChangeLog.ChangeLogCommitsOutcome` | ontrack-extension-git/src/main/java/net/nemerosa/ontrack/extension/git/service/GitServiceImpl.java:209-243 | an unconfigured project or an unresolvable "from" build gives that error; success exactly when the project and both builds resolve, with one presented commit per commit of the range |
| `GitChangeLog.ChangeLogCommitsSwap` | ontrack-extension-git/src/main/java/net/nemerosa/ontrack/extension/git/service/GitServiceImpl.java:220-227 | swapping the two builds gives the same commits when one reading direction is empty |
| `GitChangeLog.GetChangeLogCommits` | ontrack-extension-git/src/main/java/net/nemerosa/ontrack/extension/git/service/GitServiceImpl.java:209-237 | the outcome is `ChangeLogCommits`; no graph call on failure; on success `graph(from, to)` is called, and `graph(to, from)` once more only when the first is empty |
| `GitChangeLog.ToChangeLogFile` | ontrack-extension-git/src/main/java/net/nemerosa/ontrack/extension/git/service/GitServiceImpl.java:545-560 | an addition names the new path; a deletion or a modification the old path; a copy, a rename or another change both paths |
| `GitChangeLog.ChangeTypeRoundTrip` | ontrack-extension-git/src/main/java/net/nemerosa/ontrack/extension/git/service/GitServiceImpl.java:545-560 | the change type is kept: each diff change type maps to its own file change type |
| `GitChangeLog.DiffUrlFillsTemplate` | ontrack-extension-git/src/main/java/net/nemerosa/ontrack/extension/git/service/GitServiceImpl.java:539-543 | a template holding "{commit}" then "{path}" once each is filled with the reference commit and path |
| `GitIssues.GetChangeLogIssues` | ontrack-extension-git/src/main/java/net/nemerosa/ontrack/extension/git/service/GitServiceImpl.java:245-284 | loads the commits first when they are not loaded (a load failure is the outcome); fails with `ProjectNotConfigured` or `IssueServiceNotConfigured`; otherwise lists the issues of the commits, each key's issue fetched exactly once |
| `GitIssues.IndexIssues` | ontrack-extension-git/src/main/java/net/nemerosa/ontrack/extension/git/service/GitServiceImpl.java:261-277 | the aggregation loop yields `IssuesOf` the commits, and the keys fetched are the distinct keys mentioned, each once |
| `GitIssues.AddCommit` | ontrack-extension-git/src/main/java/net/nemerosa/ontrack/extension/git/service/GitServiceImpl.java:264-273 | the inner loop adds the commit to every key it mentions, fetching the issue of the keys not yet indexed and only those |
| `GitIssues.AddKey` | ontrack-extension-git/src/main/java/net/nemerosa/ontrack/extension/git/service/GitServiceImpl.java:266-272 | a known key gets the commit appended to its commits; a new key is fetched once, with the commit alone |
| `GitIssues.IndexedStep` | ontrack-extension-git/src/main/java/net/nemerosa/ontrack/extension/git/service/GitServiceImpl.java:263-274 | adding one commit for all its keys turns the index of some commits into the index of one more |
| `GitIssues.ListByKey` | ontrack-extension-git/src/main/java/net/nemerosa/ontrack/extension/git/service/GitServiceImpl.java:277 | the values of the key-sorted map, in ascending key order |
| `GitIssues.SortedKeysOrdered` | ontrack-extension-git/src/main/java/net/nemerosa/ontrack/extension/git/service/GitServiceImpl.java:261 | the key order of the map lists each key once, strictly ascending |
| `GitIssues.IssuesOfListing` | ontrack-extension-git/src/main/java/net/nemerosa/ontrack/extension/git/service/GitServiceImpl.java:261-277 | one issue per distinct key, keys strictly ascending, each the service's issue for its key with exactly the commits mentioning it (at least one) |
| `GitIssues.GetIssueInfo` | ontrack-extension-git/src/main/java/net/nemerosa/ontrack/extension/git/service/GitServiceImpl.java:322-343 | an unconfigured branch fails with `BranchNotConfigured(branch id)`; a configuration without an issue service fails with `BranchIssueServiceNotConfigured(branch id)`; otherwise the service's representation and its issue for the key, with no commit infos (lines 345-414 always give an empty list) |
| `GitIssues.IssueInfoMatchesChangeLogIssue` | ontrack-extension-git/src/main/java/net/nemerosa/ontrack/extension/git/service/GitServiceImpl.java:322-343 | the issue of a key mentioned in a change log of the branch's project is the issue the change log lists for that key, under the same representation |
| `GitBuildSync.DerivedName` | ontrack-extension-git/src/main/java/net/nemerosa/ontrack/extension/git/service/GitServiceImpl.java:768-771 | a tag gives a build name exactly when the link derives a candidate from the tag name, and the name is that candidate escaped |
| `GitBuildSync.ImportedBuild` | ontrack-extension-git/src/main/java/net/nemerosa/ontrack/extension/git/service/GitServiceImpl.java:793-803 | the imported build is on the branch, has the name, the description "Imported from Git tag " + tag name, and the current user signed at the tag's time |
| `GitBuildSync.SyncTagInStore` | ontrack-extension-git/src/main/java/net/nemerosa/ontrack/extension/git/service/GitServiceImpl.java:768-806 | one tag updates the store to `SyncTag`: skipped, kept, or deleted and recreated, or created |
| `GitBuildSync.BuildSync` | ontrack-extension-git/src/main/java/net/nemerosa/ontrack/extension/git/service/GitServiceImpl.java:745-808 | a non-indexable link fails before syncing; a failed sync fails with the store unchanged; otherwise the store becomes `SyncAll` of the tags |
| `GitBuildSync.BuildSyncTask` | ontrack-extension-git/src/main/java/net/nemerosa/ontrack/extension/git/service/GitServiceImpl.java:759-767 | with the empty tag list the job runs with, a run syncs the repository and leaves the builds unchanged |
| `GitBuildSync.OverrideIsConfigured` | ontrack-extension-git/src/main/java/net/nemerosa/ontrack/extension/git/service/GitServiceImpl.java:756-757 | the override the job reads is the override of the branch configuration |
| `GitBuildSync.SyncTagOtherName` | ontrack-extension-git/src/main/java/net/nemerosa/ontrack/extension/git/service/GitServiceImpl.java:770-806 | a tag leaves alone the build of a name it does not give |
| `GitBuildSync.SyncLeavesOtherBuilds` | ontrack-extension-git/src/main/java/net/nemerosa/ontrack/extension/git/service/GitServiceImpl.java:767-806 | a build whose name no tag gives is kept as it is, and no such build appears |
| `GitBuildSync.SyncCreatesDerivedBuilds` | ontrack-extension-git/src/main/java/net/nemerosa/ontrack/extension/git/service/GitServiceImpl.java:767-806 | every name a tag gives is a build afterwards, and no build disappears |
| `GitBuildSync.SyncKeepsExistingBuilds` | ontrack-extension-git/src/main/java/net/nemerosa/ontrack/extension/git/service/GitServiceImpl.java:782-786 | without override, every existing build is kept unchanged |
| `GitBuildSync.SyncWithoutOverrideOnSyncedBuilds` | ontrack-extension-git/src/main/java/net/nemerosa/ontrack/extension/git/service/GitServiceImpl.java:776-789 | without override, builds that already hold every derived name are left exactly as they are |
| `GitBuildSync.SyncWithoutOverrideIdempotent` | ontrack-extension-git/src/main/java/net/nemerosa/ontrack/extension/git/service/GitServiceImpl.java:767-806 | without override, a second sync with the same tags changes nothing |
| `GitBuildSync.SyncWithOverrideImportsLastTag` | ontrack-extension-git/src/main/java/net/nemerosa/ontrack/extension/git/service/GitServiceImpl.java:776-805 | with override, the build of a derived name is imported from the last tag giving it, whatever existed before |
| `GitBuildSync.SyncWithoutOverrideImportsFirstTag` | ontrack-extension-git/src/main/java/net/nemerosa/ontrack/extension/git/service/GitServiceImpl.java:782-805 | without override, a build absent before is imported from the first tag giving its name |
| `VersionBranchOrdering.GetComparator` | ontrack-service/src/main/java/net/nemerosa/ontrack/service/ordering/VersionBranchOrdering.kt:18-25 | a missing or blank parameter raises `IllegalArgumentException` with its message; an invalid expression fails; otherwise the comparator of that expression |
| `VersionBranchOrdering.GetVersion` | ontrack-service/src/main/java/net/nemerosa/ontrack/service/ordering/VersionBranchOrdering.kt:27-45 | a version exactly when the whole name matches with a first group that parses as a version, and it is that version; otherwise the name |
| `VersionBranchOrdering.CompareToCases` | ontrack-service/src/main/java/net/nemerosa/ontrack/service/ordering/VersionBranchOrdering.kt:55-63 | two versions compare by version; a version against a name gives 1; a name against anything gives -1 |
| `VersionBranchOrdering.CompareOrder` | ontrack-service/src/main/java/net/nemerosa/ontrack/service/ordering/VersionBranchOrdering.kt:21 | descending: a branch with a version comes before one without, and of two versions the higher comes first |
| `VersionBranchOrdering.AsWrittenBreaksComparator` | ontrack-service/src/main/java/net/nemerosa/ontrack/service/ordering/VersionBranchOrdering.kt:55-63 | two branches without a version each compare as smaller than the other and than themselves, so the comparator contract fails |
| `VersionBranchOrdering.IntendedAgreesWithVersions` | ontrack-service/src/main/java/net/nemerosa/ontrack/service/ordering/VersionBranchOrdering.kt:55-63 | the intended comparator agrees with the written one whenever one of the branches has a version |
| `VersionBranchOrdering.IntendedOrdersNamesAlphabetically` | ontrack-service/src/main/java/net/nemerosa/ontrack/service/ordering/VersionBranchOrdering.kt:9-12 | branches without a version are ordered alphabetically by name, equal only on equal names |
| `VersionBranchOrdering.IntendedIsComparator` | ontrack-service/src/main/java/net/nemerosa/ontrack/service/ordering/VersionBranchOrdering.kt:9-25 | the intended comparator is antisymmetric in sign, transitive and consistent on ties whenever the version order is |
| `IndicatorTypes.IdsDistinct` | ontrack-extension-indicators/src/main/java/net/nemerosa/ontrack/extension/indicators/model/IndicatorTypeServiceImpl.kt:14-16 | the three type ids are distinct |
| `IndicatorTypes.RegistryHoldsEachTypeUnderItsId` | ontrack-extension-indicators/src/main/java/net/nemerosa/ontrack/extension/indicators/model/IndicatorTypeServiceImpl.kt:14-50 | the registry's keys are exactly the three ids, and each declared type is held under its own id |
| `IndicatorTypes.AssociateByIdValues` | ontrack-extension-indicators/src/main/java/net/nemerosa/ontrack/extension/indicators/model/IndicatorTypeServiceImpl.kt:50 | `associateBy { it.id }` holds each value under its own id, and only given types |
| `IndicatorTypes.AssociateByIdKeys` | ontrack-extension-indicators/src/main/java/net/nemerosa/ontrack/extension/indicators/model/IndicatorTypeServiceImpl.kt:50 | every given type's id is a key |
| `IndicatorTypes.AssociateDistinct` | ontrack-extension-indicators/src/main/java/net/nemerosa/ontrack/extension/indicators/model/IndicatorTypeServiceImpl.kt:50 | for distinct ids, the keys are exactly the ids and each type is held under its own |
| `IndicatorTypes.AssociateThree` | ontrack-extension-indicators/src/main/java/net/nemerosa/ontrack/extension/indicators/model/IndicatorTypeServiceImpl.kt:19-50 | three types with distinct ids are held under exactly their three ids |
| `IndicatorTypes.Values` | ontrack-extension-indicators/src/main/java/net/nemerosa/ontrack/extension/indicators/model/IndicatorTypeServiceImpl.kt:53 | the listed values are exactly the registry's values |
| `IndicatorTypes.InsertSorted` | ontrack-extension-indicators/src/main/java/net/nemerosa/ontrack/extension/indicators/model/IndicatorTypeServiceImpl.kt:53-58 | a stable insertion keeps the (category name, short name) order |
| `IndicatorTypes.InsertPermutes` | ontrack-extension-indicators/src/main/java/net/nemerosa/ontrack/extension/indicators/model/IndicatorTypeServiceImpl.kt:53-58 | the insertion adds the type and loses nothing |
| `IndicatorTypes.SortTypesSorted` | ontrack-extension-indicators/src/main/java/net/nemerosa/ontrack/extension/indicators/model/IndicatorTypeServiceImpl.kt:53-58 | `sortedWith(compareBy(category name, short name))` sorts |
| `IndicatorTypes.SortTypesPermutes` | ontrack-extension-indicators/src/main/java/net/nemerosa/ontrack/extension/indicators/model/IndicatorTypeServiceImpl.kt:53-58 | the sort is a permutation |
| `IndicatorTypes.FindAll` | ontrack-extension-indicators/src/main/java/net/nemerosa/ontrack/extension/indicators/model/IndicatorTypeServiceImpl.kt:52-59 | sorted by (category name, short name), a permutation of the registry's values, holding exactly them |
| `IndicatorTypes.FindAllListsEachTypeOnce` | ontrack-extension-indicators/src/main/java/net/nemerosa/ontrack/extension/indicators/model/IndicatorTypeServiceImpl.kt:52-59 | three types, each registered type exactly once |
| `IndicatorTypes.FindTypeById` | ontrack-extension-indicators/src/main/java/net/nemerosa/ontrack/extension/indicators/model/IndicatorTypeServiceImpl.kt:61-62 | a type exactly for the three ids, carrying the id asked for and listed by `findAll` |
| `IndicatorTypes.RegisteredTypeIsListed` | ontrack-extension-indicators/src/main/java/net/nemerosa/ontrack/extension/indicators/model/IndicatorTypeServiceImpl.kt:61-62 | an id is registered exactly when it is one of the three, and its type carries it and is listed |
| `IndicatorTypes.GetTypeById` | ontrack-extension-indicators/src/main/java/net/nemerosa/ontrack/extension/indicators/model/IndicatorTypeServiceImpl.kt:64-65 | the type `findTypeById` gives, and `IndicatorTypeNotFound(id)` exactly when it gives none |
| `IndicatorTypes.FindByCategory` | ontrack-extension-indicators/src/main/java/net/nemerosa/ontrack/extension/indicators/model/IndicatorTypeServiceImpl.kt:67-76 | sorted, holding exactly the registered types whose category id is the given one |
| `IndicatorTypes.FilterByCategoryKeeps` | ontrack-extension-indicators/src/main/java/net/nemerosa/ontrack/extension/indicators/model/IndicatorTypeServiceImpl.kt:68-70 | the filter keeps exactly the types of the category, and keeps a sorted list sorted |
| `IndicatorTypes.FilterSortCommute` | ontrack-extension-indicators/src/main/java/net/nemerosa/ontrack/extension/indicators/model/IndicatorTypeServiceImpl.kt:67-76 | filtering then sorting is sorting then filtering |
| `IndicatorTypes.FindByCategoryIsFilteredFindAll` | ontrack-extension-indicators/src/main/java/net/nemerosa/ontrack/extension/indicators/model/IndicatorTypeServiceImpl.kt:67-76 | `findByCategory` is `findAll` filtered by the category's id: same types, same order |
| `ProjectEntityJson.Path` | ontrack-kdsl-model/src/main/kotlin/net/nemerosa/ontrack/kdsl/model/ProjectEntityResource.kt:97-98 | a field is reached exactly when the node is an object holding it, and it is that field's value |
| `ProjectEntityJson.DeepPath` | ontrack-kdsl-model/src/main/kotlin/net/nemerosa/ontrack/kdsl/model/ProjectEntityResource.kt:69 | a one-name path reaches exactly the top-level field of that name |
| `ProjectEntityJson.RemovedAt` | ontrack-kdsl-model/src/main/kotlin/net/nemerosa/ontrack/kdsl/model/ProjectEntityResource.kt:78 | removing a path adds no key and keeps every top-level field other than the path's first name |
| `ProjectEntityJson.RemovedPathIsMissing` | ontrack-kdsl-model/src/main/kotlin/net/nemerosa/ontrack/kdsl/model/ProjectEntityResource.kt:78 | nothing is left at a path once it is removed |
| `ProjectEntityJson.ObjectNode.RemoveDeepPath` | ontrack-kdsl-model/src/main/kotlin/net/nemerosa/ontrack/kdsl/model/ProjectEntityResource.kt:78 | the node's fields become `RemovedAt` the path |
| `ProjectEntityJson.ProjectIdAt` | ontrack-kdsl-model/src/main/kotlin/net/nemerosa/ontrack/kdsl/model/ProjectEntityResource.kt:69-77 | an id exactly when the node at the path is an object whose "id" is an `IntNode`; a 32-bit value, the one held there |
| `ProjectEntityJson.AdaptProjectId` | ontrack-kdsl-model/src/main/kotlin/net/nemerosa/ontrack/kdsl/model/ProjectEntityResource.kt:67-86 | a non-object receiver comes back as it is; no project id raises `NoProjectIdException` with its message and leaves the node unchanged; otherwise the same node, with the path removed and "projectId" set to the id |
| `ProjectEntityJson.ProjectIdAdaptedOnce` | ontrack-kdsl-model/src/main/kotlin/net/nemerosa/ontrack/kdsl/model/ProjectEntityResource.kt:67-86 | for a path not starting at "projectId": after adapting, "projectId" holds the id, the path is gone, a second adaptation finds no id (so raises `NoProjectIdException`), and the other fields are untouched |
| `ProjectEntityJson.AsText` | ontrack-kdsl-model/src/main/kotlin/net/nemerosa/ontrack/kdsl/model/ProjectEntityResource.kt:97-98 | the missing node gives the empty text, and a text node its text |
| `ProjectEntityJson.Creation` | ontrack-kdsl-model/src/main/kotlin/net/nemerosa/ontrack/kdsl/model/ProjectEntityResource.kt:97-102 | "creation" is an object with exactly "time" and "user": the signature's time and its user's name, as texts |
| `ProjectEntityJson.AdaptSignature` | ontrack-kdsl-model/src/main/kotlin/net/nemerosa/ontrack/kdsl/model/ProjectEntityResource.kt:88-108 | the same node is returned; an absent or null "signature" leaves it unchanged; otherwise "signature" is removed and "creation" is set from it |
| `ProjectEntityJson.SignatureAdaptedOnce` | ontrack-kdsl-model/src/main/kotlin/net/nemerosa/ontrack/kdsl/model/ProjectEntityResource.kt:88-108 | adapting is idempotent and leaves no non-null signature; a text time and user name give exactly those texts in "creation" |

## Left out

- Unimplemented parts of the Git service and the cross-branch commit locator are not modelled, because in the code they are placeholders. These are the change-log files, commit scans, the earliest build after a commit, commit lookup, remote branches and commit information. Issue information is modelled (`GitIssues.GetIssueInfo`), with commit infos that the code always leaves empty.
- Logging and job progress messages, transactions, the job queue and scheduler, the random change-log identifier, and the security signature are out. The identifier and the current user become parameters.
- The plot of a Git log is not modelled. Only its commits are.
- The build views of a change log are modelled as the builds themselves.
- Parsing a branch property's link configuration (`toConfiguredBuildGitCommitLink`) is not modelled. The property holds the parsed `CommitLink`.
- The tag-name link `TagBuildNameGitCommitLink` is not part of this model. It is taken to be indexable, as the default link of a branch.
- A sync job's `BranchJob` behaviour (disabling on template branches) is left out, and so is the `isDisabled` flag of an indexation job, which is always false. A job's task is modelled as one run (`GitJobs.RunTask`); the job info listener it posts to is left out.
- Tag listing by the Git client is not modelled. `buildSync` runs with the empty list the code uses (`GitBuildSync.BuildSyncTask`), and the tag loop is modelled on any given list.
- `NameDescription.escapeName`, `MessageAnnotationUtils.annotate`, regular expressions, `toVersion`, `Version.compareTo` and `TagPattern` matching are abstract functions.
- TagPatternLink.Clone: states only that it delegates to the pattern's own cloning, because `TagPattern` is not part of this model and its cloning is abstract.
- The blank test treats only ASCII whitespace as blank. String order is by character code.
- JSON fields are unordered maps. Nested objects are held by value, so aliasing between nodes is not modelled.
- Numbers with a fraction or an exponent are kept as text (`JDecimal`).
- A JSON receiver that is not an `ObjectNode` is represented by `null`.
- `deepPath` and `removeDeepPath` come from the DSL's JSON helpers, which are not part of this model. The path is taken already split into names.
- `getIssueInfo` looks the branch up by id; the model takes the branch itself.
- In `getChangeLogIssues`, the in-place `add` on an existing `GitChangeLogIssue` is modelled as replacing the map entry with the commit appended.

## Findings

| source | as written | input that shows it | evidently intended | confidence | as-written member | corrected member |
|---|---|---|---|---|---|---|
| ontrack-service/src/main/java/net/nemerosa/ontrack/service/ordering/VersionBranchOrdering.kt:55-63 | a key without a version compares as -1 against every key, itself included | two branches whose names give no version, e.g. "feature/a" and "feature/b": each compares as smaller than the other, and each as smaller than itself, which breaks `Comparator` | branches without a version after those with one, ordered alphabetically, as the class documentation says (lines 9-12) | not executed | `VersionBranchOrdering.AsWrittenBreaksComparator` | `VersionBranchOrdering.IntendedIsComparator` |
