/**
 * Configuration of the Git extension: the project configuration chosen among the configurators, the
 * branch configuration layered on it, and the build -> commit resolution through the branch's link.
 * The collaborators that the service calls and whose code is not part of this model are gathered in
 * `GitContext` as functions.
 */
module GitConfig {
  import opened Wrappers
  import opened Structure
  import TagPatternLink

  /** `GitConfiguration`: one repository as resolved for a project. */
  datatype GitConfiguration = GitConfiguration(
    name: string,
    repositoryId: string,
    commitLink: string,
    issueServiceConfigurationIdentifier: Option<string>,
    indexationInterval: int)

  /** The build/commit link strategies, with their parsed parameters. */
  datatype CommitLink =
    | TagNameLink                                    // TagBuildNameGitCommitLink.DEFAULT: the tag is the build name
    | PatternLink(data: TagPatternLink.TagPattern)  // TagPatternBuildNameGitCommitLink
    | CustomLink(id: string, indexable: bool, parameters: string)

  /** Whether the strategy is an `IndexableBuildGitCommitLink` (can derive build names from tags). */
  predicate IsIndexable(link: CommitLink) {
    match link
    case TagNameLink => true
    case PatternLink(_) => false
    case CustomLink(_, indexable, _) => indexable
  }

  /** `GitBranchConfigurationProperty`: the branch's own stored settings. */
  datatype BranchProperty = BranchProperty(
    branch: string, buildCommitLink: CommitLink, override: bool, buildTagInterval: int)

  /** `GitBranchConfiguration`: the effective configuration of a branch. */
  datatype GitBranchConfiguration = GitBranchConfiguration(
    configuration: GitConfiguration,
    branch: string,
    buildCommitLink: CommitLink,
    override: bool,
    buildTagInterval: int)

  datatype MessageAnnotator = MessageAnnotator(name: string)

  datatype Issue = Issue(key: string, summary: string)

  /** `ConfiguredIssueService`: an issue tracker bound to a configuration identifier. */
  datatype IssueService = IssueService(
    representation: string,
    extractIssueKeys: string -> set<string>,
    getIssue: string -> Issue,
    messageAnnotator: Option<MessageAnnotator>)

  /** Behaviour of the link strategies other than the tag pattern one. */
  datatype LinkStrategies = LinkStrategies(
    matching: TagPatternLink.PatternMatching,
    commitFromBuild: (CommitLink, Build) -> Result<string, GitError>,
    buildNameFromTagName: (CommitLink, string) -> Option<string>)

  /** The collaborators of the service. */
  datatype GitContext = GitContext(
    configurators: seq<Project -> Option<GitConfiguration>>,   // gitConfigurators, in order
    branchProperty: Branch -> Option<BranchProperty>,          // propertyService.getProperty(branch, ...)
    links: LinkStrategies,
    issueServices: Option<string> -> Option<IssueService>,     // issueServiceRegistry.getConfiguredIssueService
    annotate: (string, seq<MessageAnnotator>) -> string)       // MessageAnnotationUtils.annotate

  datatype GitError =
    | ProjectNotConfigured(projectId: int)      // GitProjectNotConfiguredException
    | BranchNotConfigured(branchId: int)        // GitBranchNotConfiguredException
    | BranchIssueServiceNotConfigured(branchId: int)  // GitBranchIssueServiceNotConfiguredException
    | BuildTagPattern(pattern: string, buildName: string)  // BuildTagPatternExcepton
    | LinkFailure(message: string)              // raised by another link strategy
    | IssueServiceNotConfigured                 // IssueServiceNotConfiguredException
    | Unexpected(message: string)               // any other exception, propagated

  /**
   * `getProjectConfiguration`: the configuration given by the first configurator that gives one,
   * and none when no configurator does.
   */
  function GetProjectConfiguration(configurators: seq<Project -> Option<GitConfiguration>>, project: Project)
    : Option<GitConfiguration>
  {
    if configurators == [] then None
    else if configurators[0](project).Some? then configurators[0](project)
    else GetProjectConfiguration(configurators[1..], project)
  }

  /** The configuration found is the one of the first configurator that gives one. */
  lemma {:induction false} FirstConfiguratorWins(configurators: seq<Project -> Option<GitConfiguration>>, project: Project)
    ensures var r := GetProjectConfiguration(configurators, project);
      && (r.None? <==> forall i :: 0 <= i < |configurators| ==> configurators[i](project).None?)
      && (r.Some? ==> exists i :: 0 <= i < |configurators| && configurators[i](project) == r
                                && forall j :: 0 <= j < i ==> configurators[j](project).None?)
    decreases |configurators|
  {
    if configurators != [] && configurators[0](project).None? {
      FirstConfiguratorWins(configurators[1..], project);
      assert forall i :: 1 <= i < |configurators| ==> configurators[i] == configurators[1..][i - 1];
      var r := GetProjectConfiguration(configurators, project);
      if r.Some? {
        var k :| 0 <= k < |configurators[1..]| && configurators[1..][k](project) == r
                 && forall j :: 0 <= j < k ==> configurators[1..][j](project).None?;
        assert configurators[k + 1](project) == r;
        assert forall j :: 0 <= j < k + 1 ==> configurators[j](project).None? by {
          forall j | 0 <= j < k + 1 ensures configurators[j](project).None? {
            if j > 0 {
              assert configurators[j] == configurators[1..][j - 1];
            }
          }
        }
      }
    }
  }

  /**
   * `getBranchConfiguration`: none when the project is not configured; otherwise the project's
   * configuration with the branch's own property, or the defaults "master", the tag-name link,
   * no override and a zero sync interval when the branch has no property.
   */
  function GetBranchConfiguration(ctx: GitContext, branch: Branch): (r: Option<GitBranchConfiguration>)
    ensures r.None? <==> GetProjectConfiguration(ctx.configurators, branch.project).None?
    ensures r.Some? ==> Some(r.value.configuration) == GetProjectConfiguration(ctx.configurators, branch.project)
    ensures r.Some? && ctx.branchProperty(branch).None? ==>
      r.value.branch == "master" && r.value.buildCommitLink == TagNameLink
      && !r.value.override && r.value.buildTagInterval == 0
    ensures r.Some? && ctx.branchProperty(branch).Some? ==>
      var p := ctx.branchProperty(branch).value;
      r.value.branch == p.branch && r.value.buildCommitLink == p.buildCommitLink
      && r.value.override == p.override && r.value.buildTagInterval == p.buildTagInterval
  {
    match GetProjectConfiguration(ctx.configurators, branch.project)
    case None => None
    case Some(configuration) =>
      match ctx.branchProperty(branch)
      case Some(p) => Some(GitBranchConfiguration(configuration, p.branch, p.buildCommitLink, p.override, p.buildTagInterval))
      case None => Some(GitBranchConfiguration(configuration, "master", TagNameLink, false, 0))
  }

  /** `getRequiredProjectConfiguration`: absence becomes `GitProjectNotConfiguredException`. */
  function GetRequiredProjectConfiguration(ctx: GitContext, project: Project): (r: Result<GitConfiguration, GitError>)
    ensures r.Err? <==> GetProjectConfiguration(ctx.configurators, project).None?
    ensures r.Ok? ==> GetProjectConfiguration(ctx.configurators, project) == Some(r.value)
    ensures r.Err? ==> r.error == ProjectNotConfigured(project.id)
  {
    match GetProjectConfiguration(ctx.configurators, project)
    case Some(c) => Ok(c)
    case None => Err(ProjectNotConfigured(project.id))
  }

  /** The commit of a build under a configured link. */
  function LinkCommitFromBuild(links: LinkStrategies, link: CommitLink, build: Build): Result<string, GitError> {
    match link
    case PatternLink(data) =>
      (match TagPatternLink.GetCommitFromBuild(links.matching, build, data)
       case Ok(commit) => Ok(commit)
       case Err(e) => Err(BuildTagPattern(e.pattern, e.buildName)))
    case _ => links.commitFromBuild(link, build)
  }

  /** `getCommitFromBuild`: the branch must be configured, then its link resolves the build. */
  function GetCommitFromBuild(ctx: GitContext, build: Build): Result<string, GitError> {
    match GetBranchConfiguration(ctx, build.branch)
    case None => Err(BranchNotConfigured(build.branch.id))
    case Some(bc) => LinkCommitFromBuild(ctx.links, bc.buildCommitLink, build)
  }

  /**
   * Build resolution fails in two distinguishable ways: an unconfigured branch gives
   * `BranchNotConfigured`, and a tag-pattern branch whose pattern does not fit the build's name gives
   * `BuildTagPattern` with that pattern and name; otherwise the pattern's tag name is the commit.
   */
  lemma CommitFromBuildOutcomes(ctx: GitContext, build: Build)
    ensures GetProjectConfiguration(ctx.configurators, build.branch.project).None? ==>
      GetCommitFromBuild(ctx, build) == Err(BranchNotConfigured(build.branch.id))
    ensures GetProjectConfiguration(ctx.configurators, build.branch.project).Some?
            && ctx.branchProperty(build.branch).Some?
            && ctx.branchProperty(build.branch).value.buildCommitLink.PatternLink? ==>
      var data := ctx.branchProperty(build.branch).value.buildCommitLink.data;
      match ctx.links.matching.tagNameFromBuildName(data, build.name)
      case Some(tag) => GetCommitFromBuild(ctx, build) == Ok(tag)
      case None => GetCommitFromBuild(ctx, build) == Err(BuildTagPattern(data.pattern, build.name))
  {
  }
}
