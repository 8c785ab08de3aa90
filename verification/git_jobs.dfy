/**
 * The periodic jobs of the Git extension: one repository indexation job per configured project, and
 * one build/tag synchronisation job per configured branch that asks for it, plus the manual launch of
 * a synchronisation.
 */
module GitJobs {
  import opened Wrappers
  import opened Structure
  import opened GitConfig
  import GitChangeLog
  import GitBuildSync

  /** A job descriptor; the task it runs is `BuildSync` or the repository sync. */
  datatype Job =
    | IndexationJob(configuration: GitConfiguration)
    | BuildSyncJob(branch: Branch, branchConfiguration: GitBranchConfiguration)

  /** The identity of a job within its category. */
  datatype JobId = RepositoryId(repository: string) | BranchId(branchId: int)

  datatype Ack = OK | NOK

  /** `getCategory`: one category per kind of job. */
  function Category(job: Job): (r: string)
    ensures r == "GitIndexation" <==> job.IndexationJob?
    ensures r == "GitBuildTagSync" <==> job.BuildSyncJob?
  {
    if job.IndexationJob? then "GitIndexation" else "GitBuildTagSync"
  }

  /** `getId`: an indexation job is known by its repository, a sync job by its branch. */
  function Id(job: Job): (r: JobId)
    ensures r.RepositoryId? <==> job.IndexationJob?
    ensures job.IndexationJob? ==> r.repository == job.configuration.repositoryId
    ensures job.BuildSyncJob? ==> r.branchId == job.branch.id
  {
    match job
    case IndexationJob(c) => RepositoryId(c.repositoryId)
    case BuildSyncJob(b, _) => BranchId(b.id)
  }

  /** `getDescription`: names the configuration, or the project and the branch. */
  function Description(job: Job): (r: string)
    ensures job.IndexationJob? ==> r == "Git indexation for " + job.configuration.name
    ensures job.BuildSyncJob? ==> r == "Git build/tag synchro for branch " + job.branch.project.name + "/" + job.branch.name
  {
    match job
    case IndexationJob(c) => "Git indexation for " + c.name
    case BuildSyncJob(b, _) => "Git build/tag synchro for branch " + b.project.name + "/" + b.name
  }

  /** `getInterval`: the indexation interval of the configuration, or the sync interval of the branch. */
  function Interval(job: Job): (r: int)
    ensures job.IndexationJob? ==> r == job.configuration.indexationInterval
    ensures job.BuildSyncJob? ==> r == job.branchConfiguration.buildTagInterval
  {
    match job
    case IndexationJob(c) => c.indexationInterval
    case BuildSyncJob(_, bc) => bc.buildTagInterval
  }

  /** A branch configuration asks for a build/tag sync job. */
  predicate WantsBuildSync(bc: GitBranchConfiguration) {
    bc.buildTagInterval > 0 && IsIndexable(bc.buildCommitLink)
  }

  // ---------------------------------------------------------------------------------------------
  // What `getJobs` collects, as functions over the project and branch lists.

  /** The indexation jobs, in project order (`forEachConfiguredProject`). */
  function ProjectJobs(ctx: GitContext, projects: seq<Project>): seq<Job>
    decreases |projects|
  {
    if projects == [] then []
    else
      var last := projects[|projects| - 1];
      ProjectJobs(ctx, projects[..|projects| - 1])
        + match GetProjectConfiguration(ctx.configurators, last)
          case Some(c) => [IndexationJob(c)]
          case None => []
  }

  /** The configured projects, in order. */
  function ConfiguredProjects(ctx: GitContext, projects: seq<Project>): seq<Project>
    decreases |projects|
  {
    if projects == [] then []
    else
      var last := projects[|projects| - 1];
      ConfiguredProjects(ctx, projects[..|projects| - 1])
        + if GetProjectConfiguration(ctx.configurators, last).Some? then [last] else []
  }

  /** The sync jobs of the branches of one project. */
  function BranchJobs(ctx: GitContext, branches: seq<Branch>): seq<Job>
    decreases |branches|
  {
    if branches == [] then []
    else
      var last := branches[|branches| - 1];
      BranchJobs(ctx, branches[..|branches| - 1])
        + if last.branchType != TemplateDefinition
             && GetBranchConfiguration(ctx, last).Some?
             && WantsBuildSync(GetBranchConfiguration(ctx, last).value)
          then [BuildSyncJob(last, GetBranchConfiguration(ctx, last).value)]
          else []
  }

  /** The sync jobs of all branches of all projects (`forEachConfiguredBranch`). */
  function AllBranchJobs(ctx: GitContext, projects: seq<Project>, branchesOf: Project -> seq<Branch>): seq<Job>
    decreases |projects|
  {
    if projects == [] then []
    else AllBranchJobs(ctx, projects[..|projects| - 1], branchesOf) + BranchJobs(ctx, branchesOf(projects[|projects| - 1]))
  }

  /**
   * `getJobs`: the indexation jobs first, then the build/tag sync jobs; `branchesOf` stands for
   * `getBranchesForProject`.
   */
  method GetJobs(ctx: GitContext, projects: seq<Project>, branchesOf: Project -> seq<Branch>) returns (jobs: seq<Job>)
    ensures jobs == ProjectJobs(ctx, projects) + AllBranchJobs(ctx, projects, branchesOf)
  {
    jobs := IndexationJobs(ctx, projects);
    ghost var indexation := jobs;
    for i := 0 to |projects|
      invariant jobs == indexation + AllBranchJobs(ctx, projects[..i], branchesOf)
    {
      AllBranchJobsStep(ctx, projects, i, branchesOf);
      jobs := AddBranchJobs(ctx, jobs, branchesOf(projects[i]));
    }
    assert projects[..|projects|] == projects;
  }

  lemma AllBranchJobsStep(ctx: GitContext, projects: seq<Project>, i: nat, branchesOf: Project -> seq<Branch>)
    requires i < |projects|
    ensures AllBranchJobs(ctx, projects[..i + 1], branchesOf)
         == AllBranchJobs(ctx, projects[..i], branchesOf) + BranchJobs(ctx, branchesOf(projects[i]))
  {
    assert projects[..i + 1][..i] == projects[..i];
  }

  /** `forEachConfiguredProject` collecting the indexation jobs. */
  method IndexationJobs(ctx: GitContext, projects: seq<Project>) returns (jobs: seq<Job>)
    ensures jobs == ProjectJobs(ctx, projects)
  {
    jobs := [];
    for i := 0 to |projects|
      invariant jobs == ProjectJobs(ctx, projects[..i])
    {
      jobs := AddIndexationJob(ctx, jobs, projects[..i], projects[i]);
      assert projects[..i + 1] == projects[..i] + [projects[i]];
    }
    assert projects[..|projects|] == projects;
  }

  /** The callback of `getJobs` run for one project. */
  method AddIndexationJob(ctx: GitContext, jobs: seq<Job>, ghost done: seq<Project>, project: Project) returns (jobs': seq<Job>)
    requires jobs == ProjectJobs(ctx, done)
    ensures jobs' == ProjectJobs(ctx, done + [project])
  {
    assert (done + [project])[..|done|] == done;
    var configuration := GetProjectConfiguration(ctx.configurators, project);
    if configuration.Some? {
      jobs' := jobs + [IndexationJob(configuration.value)];
    } else {
      jobs' := jobs;
    }
  }

  /** The callback of `getJobs` run over the branches of one project. */
  method AddBranchJobs(ctx: GitContext, jobs: seq<Job>, branches: seq<Branch>) returns (jobs': seq<Job>)
    ensures jobs' == jobs + BranchJobs(ctx, branches)
  {
    jobs' := jobs;
    for j := 0 to |branches|
      invariant jobs' == jobs + BranchJobs(ctx, branches[..j])
    {
      assert branches[..j + 1][..j] == branches[..j];
      var branch := branches[j];
      if branch.branchType != TemplateDefinition {
        var bc := GetBranchConfiguration(ctx, branch);
        if bc.Some? && bc.value.buildTagInterval > 0 && IsIndexable(bc.value.buildCommitLink) {
          jobs' := jobs' + [BuildSyncJob(branch, bc.value)];
        }
      }
    }
    assert branches[..|branches|] == branches;
  }

  // ---------------------------------------------------------------------------------------------
  // Properties of the collected jobs.

  /** One indexation job per configured project, in project order, carrying its configuration. */
  lemma {:induction false} ProjectJobsMatchConfiguredProjects(ctx: GitContext, projects: seq<Project>)
    ensures |ProjectJobs(ctx, projects)| == |ConfiguredProjects(ctx, projects)|
    ensures forall k :: 0 <= k < |ProjectJobs(ctx, projects)| ==>
      var p := ConfiguredProjects(ctx, projects)[k];
      GetProjectConfiguration(ctx.configurators, p).Some?
      && ProjectJobs(ctx, projects)[k] == IndexationJob(GetProjectConfiguration(ctx.configurators, p).value)
    ensures forall p :: p in ConfiguredProjects(ctx, projects) <==>
      p in projects && GetProjectConfiguration(ctx.configurators, p).Some?
    ensures forall j :: j in ProjectJobs(ctx, projects) ==> j.IndexationJob?
    decreases |projects|
  {
    if projects != [] {
      var init := projects[..|projects| - 1];
      ProjectJobsMatchConfiguredProjects(ctx, init);
      assert projects == init + [projects[|projects| - 1]];
    }
  }

  /**
   * A branch has a sync job exactly when it belongs to a listed project, is not a template
   * definition, is configured, and its configuration has a positive interval and an indexable link.
   */
  lemma {:induction false} BranchJobsMembership(ctx: GitContext, branches: seq<Branch>, b: Branch, bc: GitBranchConfiguration)
    ensures BuildSyncJob(b, bc) in BranchJobs(ctx, branches) <==>
      b in branches && b.branchType != TemplateDefinition
      && GetBranchConfiguration(ctx, b) == Some(bc) && WantsBuildSync(bc)
    ensures forall j :: j in BranchJobs(ctx, branches) ==> j.BuildSyncJob?
    decreases |branches|
  {
    if branches != [] {
      var init := branches[..|branches| - 1];
      BranchJobsMembership(ctx, init, b, bc);
      assert branches == init + [branches[|branches| - 1]];
    }
  }

  lemma {:induction false} AllBranchJobsMembership(
    ctx: GitContext, projects: seq<Project>, branchesOf: Project -> seq<Branch>, b: Branch, bc: GitBranchConfiguration)
    ensures BuildSyncJob(b, bc) in AllBranchJobs(ctx, projects, branchesOf) <==>
      (exists p :: p in projects && b in branchesOf(p))
      && b.branchType != TemplateDefinition
      && GetBranchConfiguration(ctx, b) == Some(bc) && WantsBuildSync(bc)
    ensures forall j :: j in AllBranchJobs(ctx, projects, branchesOf) ==> j.BuildSyncJob?
    decreases |projects|
  {
    if projects != [] {
      var init := projects[..|projects| - 1];
      var last := projects[|projects| - 1];
      AllBranchJobsMembership(ctx, init, branchesOf, b, bc);
      BranchJobsMembership(ctx, branchesOf(last), b, bc);
      assert projects == init + [last];
      forall j | j in AllBranchJobs(ctx, projects, branchesOf) ensures j.BuildSyncJob? {
        if j in BranchJobs(ctx, branchesOf(last)) {
          BranchJobsMembership(ctx, branchesOf(last), b, bc);
        }
      }
    }
  }

  /**
   * The jobs `GetJobs` returns: every indexation job carries the configuration of a listed project;
   * every sync job belongs to a non-template-definition branch with a positive interval and an
   * indexable link, runs in the branch's category with the branch's interval, and conversely every
   * such branch has one.
   */
  lemma ScheduledJobs(ctx: GitContext, projects: seq<Project>, branchesOf: Project -> seq<Branch>, jobs: seq<Job>)
    requires jobs == ProjectJobs(ctx, projects) + AllBranchJobs(ctx, projects, branchesOf)
    ensures forall j :: j in jobs && j.IndexationJob? ==>
      exists p :: p in projects && GetProjectConfiguration(ctx.configurators, p) == Some(j.configuration)
    ensures forall j :: j in jobs && j.BuildSyncJob? ==>
      j.branch.branchType != TemplateDefinition
      && GetBranchConfiguration(ctx, j.branch) == Some(j.branchConfiguration)
      && Category(j) == "GitBuildTagSync" && Interval(j) > 0 && IsIndexable(j.branchConfiguration.buildCommitLink)
    ensures forall p, b ::
      (p in projects && b in branchesOf(p) && b.branchType != TemplateDefinition
       && GetBranchConfiguration(ctx, b).Some? && WantsBuildSync(GetBranchConfiguration(ctx, b).value)) ==>
      BuildSyncJob(b, GetBranchConfiguration(ctx, b).value) in jobs
  {
    ProjectJobsMatchConfiguredProjects(ctx, projects);
    AllBranchJobsMembership(ctx, projects, branchesOf, Branch(0, "", Project(0, ""), Classic),
      GitBranchConfiguration(GitConfiguration("", "", "", None, 0), "", TagNameLink, false, 0));
    forall j | j in jobs && j.IndexationJob?
      ensures exists p :: p in projects && GetProjectConfiguration(ctx.configurators, p) == Some(j.configuration)
    {
      assert j !in AllBranchJobs(ctx, projects, branchesOf);
      var k :| 0 <= k < |ProjectJobs(ctx, projects)| && ProjectJobs(ctx, projects)[k] == j;
      var p := ConfiguredProjects(ctx, projects)[k];
      assert p in ConfiguredProjects(ctx, projects);
    }
    forall j | j in jobs && j.BuildSyncJob?
      ensures j.branch.branchType != TemplateDefinition
      ensures GetBranchConfiguration(ctx, j.branch) == Some(j.branchConfiguration)
      ensures WantsBuildSync(j.branchConfiguration)
    {
      assert j !in ProjectJobs(ctx, projects);
      AllBranchJobsMembership(ctx, projects, branchesOf, j.branch, j.branchConfiguration);
    }
    forall p, b | p in projects && b in branchesOf(p) && b.branchType != TemplateDefinition
      && GetBranchConfiguration(ctx, b).Some? && WantsBuildSync(GetBranchConfiguration(ctx, b).value)
      ensures BuildSyncJob(b, GetBranchConfiguration(ctx, b).value) in jobs
    {
      AllBranchJobsMembership(ctx, projects, branchesOf, b, GetBranchConfiguration(ctx, b).value);
    }
  }

  // ---------------------------------------------------------------------------------------------
  // Manual launch of a build/tag sync.

  /** The acknowledgement of `launchBuildSync` and the jobs it queued (`jobQueueService.queue`). */
  datatype Launch = Launch(ack: Ack, queued: seq<Job>)

  /**
   * `launchBuildSync`: queues the branch's sync job when the branch is configured with an indexable
   * link (whatever its interval), and otherwise answers NOK and queues nothing.
   */
  function LaunchBuildSync(ctx: GitContext, branch: Branch, queue: Job -> Ack): (r: Launch)
    ensures r.queued == [] <==>
      GetBranchConfiguration(ctx, branch).None? || !IsIndexable(GetBranchConfiguration(ctx, branch).value.buildCommitLink)
    ensures r.queued == [] ==> r.ack == NOK
    ensures r.queued != [] ==>
      r.queued == [BuildSyncJob(branch, GetBranchConfiguration(ctx, branch).value)] && r.ack == queue(r.queued[0])
  {
    var bc := GetBranchConfiguration(ctx, branch);
    if bc.Some? && IsIndexable(bc.value.buildCommitLink) then
      var job := BuildSyncJob(branch, bc.value);
      Launch(queue(job), [job])
    else
      Launch(NOK, [])
  }

  /**
   * A manual launch queues the very job that `getJobs` schedules for that branch, whenever the branch
   * is listed, is not a template definition and has a positive interval.
   */
  lemma LaunchedJobIsScheduledJob(ctx: GitContext, projects: seq<Project>, branchesOf: Project -> seq<Branch>,
                                  p: Project, branch: Branch, queue: Job -> Ack)
    requires p in projects && branch in branchesOf(p) && branch.branchType != TemplateDefinition
    requires LaunchBuildSync(ctx, branch, queue).queued != []
    requires GetBranchConfiguration(ctx, branch).value.buildTagInterval > 0
    ensures LaunchBuildSync(ctx, branch, queue).queued[0] in ProjectJobs(ctx, projects) + AllBranchJobs(ctx, projects, branchesOf)
  {
    AllBranchJobsMembership(ctx, projects, branchesOf, branch, GetBranchConfiguration(ctx, branch).value);
  }

  /** The job indexes the configured repository of the project: its id, description and interval. */
  predicate IndexesRepositoryOf(ctx: GitContext, j: Job, p: Project) {
    && GetProjectConfiguration(ctx.configurators, p).Some?
    && var c := GetProjectConfiguration(ctx.configurators, p).value;
    && Id(j) == RepositoryId(c.repositoryId)
    && Description(j) == "Git indexation for " + c.name
    && Interval(j) == c.indexationInterval
  }

  /**
   * What the jobs `GetJobs` lists carry: every configured project's repository has its indexation job,
   * known by the repository id, described by the configuration's name and run at its indexation
   * interval; every sync job is known by its branch's id, described by the project and branch names and
   * run at the positive sync interval of the branch's configuration.
   */
  lemma ScheduledJobDescriptors(ctx: GitContext, projects: seq<Project>, branchesOf: Project -> seq<Branch>,
                                jobs: seq<Job>)
    requires jobs == ProjectJobs(ctx, projects) + AllBranchJobs(ctx, projects, branchesOf)
    ensures forall p :: p in projects && GetProjectConfiguration(ctx.configurators, p).Some? ==>
      IndexationJob(GetProjectConfiguration(ctx.configurators, p).value) in jobs
    ensures forall j :: j in jobs && j.IndexationJob? ==>
      exists p :: p in projects && IndexesRepositoryOf(ctx, j, p)
    ensures forall j :: j in jobs && j.BuildSyncJob? ==>
      && Id(j) == BranchId(j.branch.id)
      && Description(j) == "Git build/tag synchro for branch " + j.branch.project.name + "/" + j.branch.name
      && GetBranchConfiguration(ctx, j.branch).Some?
      && Interval(j) == GetBranchConfiguration(ctx, j.branch).value.buildTagInterval
      && Interval(j) > 0
  {
    ScheduledJobs(ctx, projects, branchesOf, jobs);
    ProjectJobsMatchConfiguredProjects(ctx, projects);
    forall p | p in projects && GetProjectConfiguration(ctx.configurators, p).Some?
      ensures IndexationJob(GetProjectConfiguration(ctx.configurators, p).value) in jobs
    {
      var configured := ConfiguredProjects(ctx, projects);
      assert p in configured;
      var k :| 0 <= k < |configured| && configured[k] == p;
      assert ProjectJobs(ctx, projects)[k] == IndexationJob(GetProjectConfiguration(ctx.configurators, p).value);
    }
    forall j | j in jobs && j.IndexationJob?
      ensures exists p :: p in projects && IndexesRepositoryOf(ctx, j, p)
    {
      var p :| p in projects && GetProjectConfiguration(ctx.configurators, p) == Some(j.configuration);
      assert IndexesRepositoryOf(ctx, j, p);
    }
  }

  // ---------------------------------------------------------------------------------------------
  // The tasks the jobs run.

  /**
   * `index`: the indexation of a repository is a sync of its client, `client` standing for the client of
   * the configuration's repository; a failed sync fails the run.
   */
  method Index(client: GitChangeLog.RepositoryClient) returns (r: Result<(), GitError>)
    modifies client
    ensures client.syncs == old(client.syncs) + 1 && client.graphCalls == old(client.graphCalls)
    ensures r.Ok? <==> client.syncOutcome.Synced?
    ensures r.Err? ==> r.error == Unexpected(client.syncOutcome.message)
  {
    var outcome := client.Sync();
    if !outcome.Synced? {
      return Err(Unexpected(outcome.message));
    }
    r := Ok(());
  }

  /**
   * `createTask` run once: an indexation job syncs its repository; a sync job runs `buildSync` on its
   * branch (which needs an indexable link), leaving the branch's builds as they are since no tag is
   * read. `client` is the repository's client and `store` the branch's builds.
   */
  method RunTask(ctx: GitContext, job: Job, client: GitChangeLog.RepositoryClient, store: GitBuildSync.BuildStore,
                 escape: string -> string, user: string)
    returns (r: Result<(), GitError>)
    modifies client, store
    ensures job.IndexationJob? || IsIndexable(job.branchConfiguration.buildCommitLink) ==>
      client.syncs == old(client.syncs) + 1
    ensures job.BuildSyncJob? && !IsIndexable(job.branchConfiguration.buildCommitLink) ==>
      client.syncs == old(client.syncs) && r.Err?
    ensures r.Ok? <==>
      client.syncOutcome.Synced? && (job.BuildSyncJob? ==> IsIndexable(job.branchConfiguration.buildCommitLink))
    ensures store.builds == old(store.builds) && client.graphCalls == old(client.graphCalls)
  {
    match job
    case IndexationJob(_) =>
      r := Index(client);
    case BuildSyncJob(branch, bc) =>
      r := GitBuildSync.BuildSyncTask(ctx, branch, bc, client, store, escape, user);
  }
}
