/**
 * The Git change log between two builds: its creation (with the repository sync before it), the
 * commits between the two builds' commits, their presentation (annotated messages and commit links),
 * and the presentation of changed files.
 */
module GitChangeLog {
  import opened Wrappers
  import opened Structure
  import opened Text
  import opened GitConfig

  /** `GitCommit`: a commit as read from the repository. */
  datatype GitCommit = GitCommit(id: string, shortMessage: string, fullMessage: string, author: Signature)

  /** `GitUICommit`: a commit with its annotated messages and its link. */
  datatype UICommit = UICommit(commit: GitCommit, annotatedMessage: string, fullAnnotatedMessage: string, link: string)

  /** How a repository sync ends: normally, with a `GitRepositorySyncException`, or with any other exception. */
  datatype SyncOutcome = Synced | SyncFailure(message: string) | OtherFailure(message: string)

  /**
   * `GitRepositoryClient`: the client of one repository. Its history between two commits and the outcome
   * of a sync are fixed; the calls made on it are recorded.
   */
  class RepositoryClient {
    const history: (string, string) -> seq<GitCommit>
    const syncOutcome: SyncOutcome
    var syncs: nat
    var graphCalls: seq<(string, string)>

    constructor(history: (string, string) -> seq<GitCommit>, syncOutcome: SyncOutcome)
      ensures this.history == history && this.syncOutcome == syncOutcome
      ensures syncs == 0 && graphCalls == []
    {
      this.history := history;
      this.syncOutcome := syncOutcome;
      syncs := 0;
      graphCalls := [];
    }

    /** `sync`: fetches the remote repository. */
    method Sync() returns (outcome: SyncOutcome)
      modifies this
      ensures outcome == syncOutcome
      ensures syncs == old(syncs) + 1 && graphCalls == old(graphCalls)
    {
      outcome := syncOutcome;
      syncs := syncs + 1;
    }

    /** `graph`: the commits between two commits. */
    method Graph(from: string, to: string) returns (log: seq<GitCommit>)
      modifies this
      ensures log == history(from, to)
      ensures graphCalls == old(graphCalls) + [(from, to)] && syncs == old(syncs)
    {
      log := history(from, to);
      graphCalls := graphCalls + [(from, to)];
    }
  }

  /** `GitChangeLog`: the change log between two builds of a branch, whose commits are loaded later. */
  class ChangeLog {
    const uuid: string
    const project: Project
    const branch: Branch
    const from: Build
    const to: Build
    const syncError: bool
    var commits: Option<seq<UICommit>>

    constructor(uuid: string, project: Project, branch: Branch, from: Build, to: Build, syncError: bool)
      ensures this.uuid == uuid && this.project == project && this.branch == branch
      ensures this.from == from && this.to == to && this.syncError == syncError
      ensures commits == None
    {
      this.uuid := uuid;
      this.project := project;
      this.branch := branch;
      this.from := from;
      this.to := to;
      this.syncError := syncError;
      commits := None;
    }

    /** `withCommits`. */
    method WithCommits(loaded: seq<UICommit>)
      modifies this
      ensures commits == Some(loaded)
    {
      commits := Some(loaded);
    }
  }

  /**
   * `changeLog`: the project of the branch must be configured; its repository is then synced, a sync
   * failure being recorded in the change log and any other failure propagated. `uuid` stands for the
   * random identifier, and the two builds for the build views of the request.
   */
  method NewChangeLog(ctx: GitContext, uuid: string, branch: Branch, from: Build, to: Build, client: RepositoryClient)
    returns (r: Result<ChangeLog, GitError>)
    modifies client
    ensures GetProjectConfiguration(ctx.configurators, branch.project).None? ==>
      r == Err(ProjectNotConfigured(branch.project.id)) && client.syncs == old(client.syncs)
    ensures GetProjectConfiguration(ctx.configurators, branch.project).Some? ==>
      client.syncs == old(client.syncs) + 1
    ensures GetProjectConfiguration(ctx.configurators, branch.project).Some? && client.syncOutcome.OtherFailure? ==>
      r == Err(Unexpected(client.syncOutcome.message))
    ensures r.Ok? <==>
      GetProjectConfiguration(ctx.configurators, branch.project).Some? && !client.syncOutcome.OtherFailure?
    ensures r.Ok? ==>
      fresh(r.value) && r.value.uuid == uuid && r.value.project == branch.project && r.value.branch == branch
      && r.value.from == from && r.value.to == to && r.value.commits == None
      && (r.value.syncError <==> client.syncOutcome.SyncFailure?)
    ensures client.graphCalls == old(client.graphCalls)
  {
    var configuration := GetRequiredProjectConfiguration(ctx, branch.project);
    if configuration.Err? {
      return Err(configuration.error);
    }
    var outcome := client.Sync();
    var syncError;
    match outcome {
      case Synced =>
        syncError := false;
      case SyncFailure(_) =>
        syncError := true;
      case OtherFailure(message) =>
        return Err(Unexpected(message));
    }
    var changeLog := new ChangeLog(uuid, branch.project, branch, from, to, syncError);
    r := Ok(changeLog);
  }

  // ---------------------------------------------------------------------------------------------
  // Presentation of commits.

  /**
   * `getMessageAnnotators`: the annotator of the configured issue service, when the configuration names
   * an issue service (a non-blank identifier), that service exists and it has an annotator; none otherwise.
   */
  function GetMessageAnnotators(ctx: GitContext, configuration: GitConfiguration): (r: seq<MessageAnnotator>)
    ensures |r| <= 1
    ensures r == [] <==>
      var id := configuration.issueServiceConfigurationIdentifier;
      id.None? || IsBlank(id.value) || ctx.issueServices(id).None? || ctx.issueServices(id).value.messageAnnotator.None?
    ensures r != [] ==>
      r == [ctx.issueServices(configuration.issueServiceConfigurationIdentifier).value.messageAnnotator.value]
  {
    var id := configuration.issueServiceConfigurationIdentifier;
    if id.Some? && !IsBlank(id.value) then
      match ctx.issueServices(id)
      case Some(service) =>
        (match service.messageAnnotator
         case Some(annotator) => [annotator]
         case None => [])
      case None => []
    else []
  }

  /**
   * `toUICommit`: both messages annotated by the annotators, and the link template with every
   * "{commit}" replaced by the commit's id.
   */
  function ToUICommit(commitLink: string, annotators: seq<MessageAnnotator>,
                      annotate: (string, seq<MessageAnnotator>) -> string, commit: GitCommit): UICommit
  {
    UICommit(commit, annotate(commit.shortMessage, annotators), annotate(commit.fullMessage, annotators),
             Replace(commitLink, CommitPlaceholder, commit.id))
  }

  /** The placeholder of commit link templates. */
  const CommitPlaceholder: string := "{commit}"

  /**
   * The commit of a UI commit is the commit itself and its link is the template filled with the commit's
   * id: a template holding "{commit}" once (and no other '{') gives the text around it with the id in
   * between; more generally every "{commit}" of a template whose other text holds no '{' is replaced by
   * the id; and a template without '{' is the link of every commit.
   */
  lemma UICommitLink(commitLink: string, annotators: seq<MessageAnnotator>,
                     annotate: (string, seq<MessageAnnotator>) -> string, commit: GitCommit,
                     before: string, after: string, parts: seq<string>)
    ensures ToUICommit(commitLink, annotators, annotate, commit).commit == commit
    ensures commitLink == Join(parts, CommitPlaceholder) && (forall i :: 0 <= i < |parts| ==> '{' !in parts[i]) ==>
      ToUICommit(commitLink, annotators, annotate, commit).link == Join(parts, commit.id)
    ensures commitLink == before + CommitPlaceholder + after && '{' !in before && '{' !in after ==>
      ToUICommit(commitLink, annotators, annotate, commit).link == before + commit.id + after
    ensures '{' !in commitLink ==> ToUICommit(commitLink, annotators, annotate, commit).link == commitLink
  {
    if commitLink == before + CommitPlaceholder + after && '{' !in before && '{' !in after {
      FillTemplate(before, CommitPlaceholder, after, commit.id);
    }
    if commitLink == Join(parts, CommitPlaceholder) && (forall i :: 0 <= i < |parts| ==> '{' !in parts[i]) {
      FillEveryPlaceholder(parts, CommitPlaceholder, commit.id);
    }
    if '{' !in commitLink {
      NoOccurrenceWithoutFirstChar(commitLink, CommitPlaceholder);
      ReplaceWithoutOccurrence(commitLink, CommitPlaceholder, commit.id);
    }
  }

  /**
   * `toUICommits`: one UI commit per commit, in the same order, all presented with the configuration's
   * link template and message annotators.
   */
  function ToUICommits(ctx: GitContext, configuration: GitConfiguration, commits: seq<GitCommit>): (r: seq<UICommit>)
    ensures |r| == |commits|
    ensures forall i :: 0 <= i < |r| ==> r[i].commit == commits[i]
    ensures forall i :: 0 <= i < |r| ==>
      r[i] == ToUICommit(configuration.commitLink, GetMessageAnnotators(ctx, configuration), ctx.annotate, commits[i])
  {
    var annotators := GetMessageAnnotators(ctx, configuration);
    seq(|commits|, i requires 0 <= i < |commits| => ToUICommit(configuration.commitLink, annotators, ctx.annotate, commits[i]))
  }

  // ---------------------------------------------------------------------------------------------
  // Commits of a change log.

  /** The commits between two commits, read the other way round when the first reading is empty. */
  function CommitRange(history: (string, string) -> seq<GitCommit>, from: string, to: string): seq<GitCommit> {
    if history(from, to) == [] then history(to, from) else history(from, to)
  }

  /** The commits between two commits do not depend on their order when one direction has none. */
  lemma CommitRangeSymmetric(history: (string, string) -> seq<GitCommit>, from: string, to: string)
    requires history(from, to) == [] || history(to, from) == []
    ensures CommitRange(history, from, to) == CommitRange(history, to, from)
    ensures CommitRange(history, from, to) == history(from, to) + history(to, from)
  {
  }

  /**
   * What `getChangeLogCommits` computes: the project must be configured, then the commit of the "from"
   * build and then the commit of the "to" build must be resolved; the commits between them are presented.
   */
  function ChangeLogCommits(ctx: GitContext, project: Project, from: Build, to: Build,
                            history: (string, string) -> seq<GitCommit>): Result<seq<UICommit>, GitError>
  {
    match GetRequiredProjectConfiguration(ctx, project)
    case Err(e) => Err(e)
    case Ok(configuration) =>
      match GetCommitFromBuild(ctx, from)
      case Err(e) => Err(e)
      case Ok(commitFrom) =>
        match GetCommitFromBuild(ctx, to)
        case Err(e) => Err(e)
        case Ok(commitTo) => Ok(ToUICommits(ctx, configuration, CommitRange(history, commitFrom, commitTo)))
  }

  /**
   * The outcome of a change log's commits: the first failing step gives the error, and on success the
   * commits are those between the two builds' commits, in repository order, one presented commit each.
   */
  lemma ChangeLogCommitsOutcome(ctx: GitContext, project: Project, from: Build, to: Build,
                                history: (string, string) -> seq<GitCommit>)
    ensures GetProjectConfiguration(ctx.configurators, project).None? ==>
      ChangeLogCommits(ctx, project, from, to, history) == Err(ProjectNotConfigured(project.id))
    ensures GetProjectConfiguration(ctx.configurators, project).Some? && GetCommitFromBuild(ctx, from).Err? ==>
      ChangeLogCommits(ctx, project, from, to, history) == Err(GetCommitFromBuild(ctx, from).error)
    ensures ChangeLogCommits(ctx, project, from, to, history).Ok? <==>
      GetProjectConfiguration(ctx.configurators, project).Some?
      && GetCommitFromBuild(ctx, from).Ok? && GetCommitFromBuild(ctx, to).Ok?
    ensures ChangeLogCommits(ctx, project, from, to, history).Ok? ==>
      var commits := CommitRange(history, GetCommitFromBuild(ctx, from).value, GetCommitFromBuild(ctx, to).value);
      var r := ChangeLogCommits(ctx, project, from, to, history).value;
      |r| == |commits| && forall i :: 0 <= i < |r| ==> r[i].commit == commits[i]
  {
  }

  /**
   * Swapping the two builds of a change log gives the same commits, as long as one reading direction
   * of the repository is empty.
   */
  lemma ChangeLogCommitsSwap(ctx: GitContext, project: Project, from: Build, to: Build,
                             history: (string, string) -> seq<GitCommit>)
    requires GetCommitFromBuild(ctx, from).Ok? && GetCommitFromBuild(ctx, to).Ok?
    requires var f := GetCommitFromBuild(ctx, from).value; var t := GetCommitFromBuild(ctx, to).value;
             history(f, t) == [] || history(t, f) == []
    ensures ChangeLogCommits(ctx, project, from, to, history) == ChangeLogCommits(ctx, project, to, from, history)
  {
    CommitRangeSymmetric(history, GetCommitFromBuild(ctx, from).value, GetCommitFromBuild(ctx, to).value);
  }

  /**
   * `getChangeLogCommits`: reads the commits between the builds' commits and, when there are none,
   * reads them a second time with the boundaries swapped.
   */
  method GetChangeLogCommits(ctx: GitContext, changeLog: ChangeLog, client: RepositoryClient)
    returns (r: Result<seq<UICommit>, GitError>)
    modifies client
    ensures r == ChangeLogCommits(ctx, changeLog.project, changeLog.from, changeLog.to, client.history)
    ensures client.syncs == old(client.syncs)
    ensures r.Err? ==> client.graphCalls == old(client.graphCalls)
    ensures r.Ok? ==>
      var f := GetCommitFromBuild(ctx, changeLog.from).value;
      var t := GetCommitFromBuild(ctx, changeLog.to).value;
      client.graphCalls == old(client.graphCalls) + [(f, t)] + (if client.history(f, t) == [] then [(t, f)] else [])
  {
    var configuration := GetRequiredProjectConfiguration(ctx, changeLog.project);
    if configuration.Err? {
      return Err(configuration.error);
    }
    var commitFrom := GetCommitFromBuild(ctx, changeLog.from);
    if commitFrom.Err? {
      return Err(commitFrom.error);
    }
    var commitTo := GetCommitFromBuild(ctx, changeLog.to);
    if commitTo.Err? {
      return Err(commitTo.error);
    }
    var f, t := commitFrom.value, commitTo.value;
    var log := client.Graph(f, t);
    if log == [] {
      f, t := t, f;
      log := client.Graph(f, t);
    }
    r := Ok(ToUICommits(ctx, configuration.value, log));
  }

  // ---------------------------------------------------------------------------------------------
  // Changed files.

  /** The change types of a Git diff entry (`DiffEntry.ChangeType`), with room for any other value. */
  datatype DiffChangeType = Add | Copy | Delete | Modify | Rename | OtherChange

  /** The change types of an SCM change log file. */
  datatype FileChangeType = Added | Copied | Deleted | Modified | Renamed | Undefined

  datatype DiffEntry = DiffEntry(changeType: DiffChangeType, oldPath: string, newPath: string)

  /** `GitChangeLogFile`: a change type and the paths it concerns. */
  datatype ChangeLogFile = ChangeLogFile(changeType: FileChangeType, paths: seq<string>)

  /**
   * `toChangeLogFile`: an addition names the new path, a deletion or a modification the old path, and
   * a copy, a rename or any other change both paths.
   */
  function ToChangeLogFile(entry: DiffEntry): (r: ChangeLogFile)
    ensures r.changeType == Added ==> r.paths == [entry.newPath]
    ensures r.changeType in {Deleted, Modified} ==> r.paths == [entry.oldPath]
    ensures r.changeType in {Copied, Renamed, Undefined} ==> r.paths == [entry.oldPath, entry.newPath]
  {
    match entry.changeType
    case Add => ChangeLogFile(Added, [entry.newPath])
    case Copy => ChangeLogFile(Copied, [entry.oldPath, entry.newPath])
    case Delete => ChangeLogFile(Deleted, [entry.oldPath])
    case Modify => ChangeLogFile(Modified, [entry.oldPath])
    case Rename => ChangeLogFile(Renamed, [entry.oldPath, entry.newPath])
    case OtherChange => ChangeLogFile(Undefined, [entry.oldPath, entry.newPath])
  }

  /** The diff change type an SCM change type stands for. */
  function DiffChangeTypeOf(t: FileChangeType): DiffChangeType {
    match t
    case Added => Add
    case Copied => Copy
    case Deleted => Delete
    case Modified => Modify
    case Renamed => Rename
    case Undefined => OtherChange
  }

  /** The change type of a diff entry is kept: distinct change types give distinct file change types. */
  lemma ChangeTypeRoundTrip(entry: DiffEntry)
    ensures DiffChangeTypeOf(ToChangeLogFile(entry).changeType) == entry.changeType
  {
  }

  /**
   * `getDiffUrl`: the file-change link template with every "{commit}" replaced by the entry's reference
   * commit, and then every "{path}" by its reference path.
   */
  function DiffUrl(fileChangeLinkFormat: string, referenceId: string, referencePath: string): string {
    Replace(Replace(fileChangeLinkFormat, CommitPlaceholder, referenceId), PathPlaceholder, referencePath)
  }

  const PathPlaceholder: string := "{path}"

  /** "{commit}" occurs nowhere in a text whose only '{' starts a "{path}". */
  lemma NoCommitPlaceholderAroundPath(b: string, c: string)
    requires '{' !in b && '{' !in c
    ensures !Occurs(b + PathPlaceholder + c, CommitPlaceholder)
  {
    var t := b + PathPlaceholder + c;
    var s := CommitPlaceholder;
    forall i ensures !OccursAt(t, s, i) {
      if 0 <= i && i + |s| <= |t| {
        assert t[i..i + |s|][0] == t[i] && t[i..i + |s|][1] == t[i + 1];
        if i < |b| {
          assert t[i] == b[i];
        } else if i == |b| {
          assert t[i + 1] == PathPlaceholder[1];
        } else if i < |b| + |PathPlaceholder| {
          assert t[i] == PathPlaceholder[i - |b|];
        } else {
          assert t[i] == c[i - |b| - |PathPlaceholder|];
        }
      }
    }
  }

  /**
   * A file-change template holding "{commit}" and then "{path}", once each and with no other '{', is
   * filled with the reference commit and path when the reference commit holds no '{'.
   */
  lemma DiffUrlFillsTemplate(a: string, b: string, c: string, referenceId: string, referencePath: string)
    requires '{' !in a && '{' !in b && '{' !in c && '{' !in referenceId
    ensures DiffUrl(a + CommitPlaceholder + b + PathPlaceholder + c, referenceId, referencePath)
         == a + referenceId + b + referencePath + c
  {
    var rest := b + PathPlaceholder + c;
    var template := a + CommitPlaceholder + rest;
    var filled := a + referenceId + rest;
    assert Replace(template, CommitPlaceholder, referenceId) == filled by {
      ReplaceFirstPlaceholder(a, CommitPlaceholder, rest, referenceId);
      NoCommitPlaceholderAroundPath(b, c);
      ReplaceWithoutOccurrence(rest, CommitPlaceholder, referenceId);
    }
    assert Replace(filled, PathPlaceholder, referencePath) == a + referenceId + b + referencePath + c by {
      assert filled == (a + referenceId + b) + PathPlaceholder + c;
      FillTemplate(a + referenceId + b, PathPlaceholder, c, referencePath);
    }
    assert a + CommitPlaceholder + b + PathPlaceholder + c == template;
  }
}
