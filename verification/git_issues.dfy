/**
 * The issues of a Git change log: the issue keys mentioned in the messages of its commits, each issue
 * fetched once from the project's issue service and listed once, in ascending key order, with the
 * commits that mention it.
 */
module GitIssues {
  import opened Wrappers
  import opened Text
  import opened Structure
  import opened GitConfig
  import opened GitChangeLog

  /** `GitChangeLogIssue`: an issue and the commits of the change log that mention it. */
  datatype ChangeLogIssue = ChangeLogIssue(issue: Issue, commits: seq<UICommit>)

  /** `GitChangeLogIssues`: the issue service's representation and the issues. */
  datatype ChangeLogIssues = ChangeLogIssues(representation: string, issues: seq<ChangeLogIssue>)

  /** The issue keys of one commit, as the issue service extracts them from its full message. */
  function CommitKeys(extract: string -> set<string>, commit: UICommit): set<string> {
    extract(commit.commit.fullMessage)
  }

  /** All issue keys mentioned by the commits. */
  function IssueKeys(extract: string -> set<string>, commits: seq<UICommit>): set<string>
    decreases |commits|
  {
    if commits == [] then {}
    else IssueKeys(extract, commits[..|commits| - 1]) + CommitKeys(extract, commits[|commits| - 1])
  }

  /** The commits that mention a key, in change log order. */
  function CommitsFor(extract: string -> set<string>, key: string, commits: seq<UICommit>): seq<UICommit>
    decreases |commits|
  {
    if commits == [] then []
    else
      var last := commits[|commits| - 1];
      CommitsFor(extract, key, commits[..|commits| - 1]) + if key in CommitKeys(extract, last) then [last] else []
  }

  // ---------------------------------------------------------------------------------------------
  // The key order of a `TreeMap<String, _>`.

  /** `m` is the least element of `s` for the string order. */
  predicate IsLeast(m: string, s: set<string>) {
    m in s && forall k :: k in s && k != m ==> StrLt(m, k)
  }

  lemma {:induction false} LeastExists(s: set<string>)
    requires s != {}
    ensures exists m :: IsLeast(m, s)
    decreases |s|
  {
    var x :| x in s;
    var rest := s - {x};
    if rest != {} {
      LeastExists(rest);
      var m :| IsLeast(m, rest);
      StrLtTotal(x, m);
      if StrLt(x, m) {
        forall k | k in s && k != x ensures StrLt(x, k) {
          if k != m {
            StrLtTransitive(x, m, k);
          }
        }
        assert IsLeast(x, s);
      } else {
        assert IsLeast(m, s);
      }
    } else {
      assert s == {x};
      assert IsLeast(x, s);
    }
  }

  lemma LeastUnique(m1: string, m2: string, s: set<string>)
    requires IsLeast(m1, s) && IsLeast(m2, s)
    ensures m1 == m2
  {
    if m1 != m2 {
      StrLtAsymmetric(m1, m2);
    }
  }

  /** The keys of a set in ascending order. */
  ghost function SortedKeys(s: set<string>): (r: seq<string>)
    ensures s != {} ==> |r| > 0 && IsLeast(r[0], s)
    ensures s == {} ==> r == []
    decreases |s|
  {
    if s == {} then []
    else
      LeastExists(s);
      var m :| IsLeast(m, s);
      [m] + SortedKeys(s - {m})
  }

  /** The keys in ascending order are the keys of the set, each once, strictly ascending. */
  lemma {:induction false} SortedKeysOrdered(s: set<string>)
    ensures |SortedKeys(s)| == |s|
    ensures forall k :: k in SortedKeys(s) <==> k in s
    ensures forall i, j :: 0 <= i < j < |SortedKeys(s)| ==> StrLt(SortedKeys(s)[i], SortedKeys(s)[j])
    decreases |s|
  {
    if s != {} {
      var r := SortedKeys(s);
      var m := r[0];
      SortedKeysUnfold(s, m);
      SortedKeysOrdered(s - {m});
      forall i, j | 0 <= i < j < |r| ensures StrLt(r[i], r[j]) {
        if i == 0 {
          assert r[j] in s - {m};
        } else {
          assert r[i] == r[1..][i - 1] && r[j] == r[1..][j - 1];
        }
      }
    }
  }

  lemma SortedKeysUnfold(s: set<string>, m: string)
    requires IsLeast(m, s)
    ensures SortedKeys(s) == [m] + SortedKeys(s - {m})
  {
    LeastExists(s);
    var r := SortedKeys(s);
    LeastUnique(r[0], m, s);
  }

  // ---------------------------------------------------------------------------------------------
  // The issues of a change log.

  /** The issues of the commits: one per key, in ascending key order, with the commits mentioning it. */
  ghost function IssuesOf(service: IssueService, commits: seq<UICommit>): seq<ChangeLogIssue> {
    var keys := SortedKeys(IssueKeys(service.extractIssueKeys, commits));
    seq(|keys|, j requires 0 <= j < |keys| =>
      ChangeLogIssue(service.getIssue(keys[j]), CommitsFor(service.extractIssueKeys, keys[j], commits)))
  }

  /** The issue service of a project's configuration, if both exist. */
  function IssueServiceOf(ctx: GitContext, project: Project): Option<IssueService> {
    match GetProjectConfiguration(ctx.configurators, project)
    case None => None
    case Some(configuration) => ctx.issueServices(configuration.issueServiceConfigurationIdentifier)
  }

  /**
   * What `getChangeLogIssues` computes once the commits are loaded: the project must be configured and
   * have an issue service, and then the issues of the commits are listed.
   */
  ghost function IssuesOutcome(ctx: GitContext, project: Project, commits: seq<UICommit>): Result<ChangeLogIssues, GitError> {
    match GetRequiredProjectConfiguration(ctx, project)
    case Err(e) => Err(e)
    case Ok(configuration) =>
      match ctx.issueServices(configuration.issueServiceConfigurationIdentifier)
      case None => Err(IssueServiceNotConfigured)
      case Some(service) => Ok(ChangeLogIssues(service.representation, IssuesOf(service, commits)))
  }

  lemma {:induction false} CommitsForMembership(extract: string -> set<string>, key: string, commits: seq<UICommit>)
    ensures forall c :: c in CommitsFor(extract, key, commits) <==> c in commits && key in CommitKeys(extract, c)
    ensures CommitsFor(extract, key, commits) == [] <==> key !in IssueKeys(extract, commits)
    decreases |commits|
  {
    if commits != [] {
      var init := commits[..|commits| - 1];
      CommitsForMembership(extract, key, init);
      assert commits == init + [commits[|commits| - 1]];
    }
  }

  /**
   * The issues of a change log: one per mentioned key, keys strictly ascending, each issue being the one
   * the service gives for its key and carrying exactly the commits that mention that key, at least one.
   */
  lemma IssuesOfListing(service: IssueService, commits: seq<UICommit>)
    ensures var keys := SortedKeys(IssueKeys(service.extractIssueKeys, commits));
      |IssuesOf(service, commits)| == |IssueKeys(service.extractIssueKeys, commits)| == |keys|
      && (forall k :: k in keys <==> k in IssueKeys(service.extractIssueKeys, commits))
      && (forall i, j :: 0 <= i < j < |keys| ==> StrLt(keys[i], keys[j]))
      && forall j :: 0 <= j < |keys| ==>
           IssuesOf(service, commits)[j].issue == service.getIssue(keys[j])
           && IssuesOf(service, commits)[j].commits != []
           && forall c :: c in IssuesOf(service, commits)[j].commits <==>
                c in commits && keys[j] in CommitKeys(service.extractIssueKeys, c)
  {
    var keys := SortedKeys(IssueKeys(service.extractIssueKeys, commits));
    SortedKeysOrdered(IssueKeys(service.extractIssueKeys, commits));
    forall j | 0 <= j < |keys|
      ensures IssuesOf(service, commits)[j].commits != []
      ensures forall c :: c in IssuesOf(service, commits)[j].commits <==>
                c in commits && keys[j] in CommitKeys(service.extractIssueKeys, c)
    {
      CommitsForMembership(service.extractIssueKeys, keys[j], commits);
    }
  }

  // ---------------------------------------------------------------------------------------------
  // The aggregation itself.

  /** The index after some commits: each key seen so far maps to its issue and the commits mentioning it. */
  ghost predicate Indexed(service: IssueService, index: map<string, ChangeLogIssue>, commits: seq<UICommit>) {
    index.Keys == IssueKeys(service.extractIssueKeys, commits)
    && forall k :: k in index ==>
         index[k] == ChangeLogIssue(service.getIssue(k), CommitsFor(service.extractIssueKeys, k, commits))
  }

  /** No key is fetched twice. */
  predicate Distinct(keys: seq<string>) {
    forall i, j :: 0 <= i < j < |keys| ==> keys[i] != keys[j]
  }

  /** Each of the keys was fetched exactly once, and nothing else was. */
  ghost predicate FetchedOnce(fetched: seq<string>, keys: set<string>) {
    Distinct(fetched) && forall k :: k in fetched <==> k in keys
  }

  /** Fetching a key not yet fetched keeps each key fetched once. */
  lemma FetchNew(fetched: seq<string>, keys: set<string>, key: string)
    requires FetchedOnce(fetched, keys) && key !in keys
    ensures FetchedOnce(fetched + [key], keys + {key})
  {
  }

  /**
   * The aggregation loop of `getChangeLogIssues`: each key of each commit either adds the commit to its
   * issue, or fetches the issue, the first time the key is seen. `fetched` records the keys fetched.
   */
  method IndexIssues(service: IssueService, commits: seq<UICommit>)
    returns (issues: seq<ChangeLogIssue>, ghost fetched: seq<string>)
    ensures issues == IssuesOf(service, commits)
    ensures Distinct(fetched)
    ensures forall k :: k in fetched <==> k in IssueKeys(service.extractIssueKeys, commits)
  {
    var index: map<string, ChangeLogIssue> := map[];
    fetched := [];
    for i := 0 to |commits|
      invariant Indexed(service, index, commits[..i])
      invariant FetchedOnce(fetched, index.Keys)
    {
      assert commits[..i + 1] == commits[..i] + [commits[i]];
      IndexedStep(service, index, commits[..i], commits[i]);
      index, fetched := AddCommit(service, index, commits[i], fetched);
    }
    assert commits[..|commits|] == commits;
    issues := ListByKey(index);
  }

  /** The issue of a key once a commit mentioning it is added. */
  ghost function Bumped(service: IssueService, index: map<string, ChangeLogIssue>, commit: UICommit, key: string)
    : ChangeLogIssue
  {
    if key in index then ChangeLogIssue(index[key].issue, index[key].commits + [commit])
    else ChangeLogIssue(service.getIssue(key), [commit])
  }

  /** The index once a commit is added for the keys `added`. */
  ghost function WithCommit(service: IssueService, index: map<string, ChangeLogIssue>, commit: UICommit,
                            added: set<string>): map<string, ChangeLogIssue>
  {
    map k | k in index.Keys + added :: if k in added then Bumped(service, index, commit, k) else index[k]
  }

  lemma WithCommitStep(service: IssueService, index: map<string, ChangeLogIssue>, commit: UICommit,
                       added: set<string>, key: string)
    requires key !in added
    ensures var before := WithCommit(service, index, commit, added);
      before[key := Bumped(service, before, commit, key)] == WithCommit(service, index, commit, added + {key})
  {
  }

  /** Adding a commit for all of its keys extends an index of some commits to the index of one more. */
  lemma IndexedStep(service: IssueService, index: map<string, ChangeLogIssue>, done: seq<UICommit>, commit: UICommit)
    requires Indexed(service, index, done)
    ensures Indexed(service, WithCommit(service, index, commit, CommitKeys(service.extractIssueKeys, commit)),
                    done + [commit])
  {
    var extract := service.extractIssueKeys;
    assert (done + [commit])[..|done|] == done;
    forall k | k in CommitKeys(extract, commit) && k !in index {
      CommitsForMembership(extract, k, done);
    }
  }

  /**
   * The keys of one commit, added to the index (the inner loop of `getChangeLogIssues`), fetching the
   * issue of each key not yet in the index.
   */
  method AddCommit(service: IssueService, index: map<string, ChangeLogIssue>, commit: UICommit,
                   ghost fetched: seq<string>)
    returns (index': map<string, ChangeLogIssue>, ghost fetched': seq<string>)
    requires FetchedOnce(fetched, index.Keys)
    ensures index' == WithCommit(service, index, commit, CommitKeys(service.extractIssueKeys, commit))
    ensures FetchedOnce(fetched', index'.Keys)
  {
    var keys := service.extractIssueKeys(commit.commit.fullMessage);
    var remaining := keys;
    index', fetched' := index, fetched;
    while remaining != {}
      invariant remaining <= keys
      invariant index' == WithCommit(service, index, commit, keys - remaining)
      invariant FetchedOnce(fetched', index'.Keys)
      decreases remaining
    {
      var key :| key in remaining;
      WithCommitStep(service, index, commit, keys - remaining, key);
      index', fetched' := AddKey(service, index', commit, key, fetched');
      assert keys - (remaining - {key}) == (keys - remaining) + {key};
      remaining := remaining - {key};
    }
  }

  /**
   * One key of a commit: a key already in the index gets the commit appended to its commits; a new key
   * gets its issue fetched, with the commit alone.
   */
  method AddKey(service: IssueService, index: map<string, ChangeLogIssue>, commit: UICommit, key: string,
                ghost fetched: seq<string>)
    returns (index': map<string, ChangeLogIssue>, ghost fetched': seq<string>)
    requires FetchedOnce(fetched, index.Keys)
    ensures index' == index[key := Bumped(service, index, commit, key)]
    ensures FetchedOnce(fetched', index'.Keys)
  {
    if key in index {
      index' := index[key := ChangeLogIssue(index[key].issue, index[key].commits + [commit])];
      fetched' := fetched;
    } else {
      var issue := service.getIssue(key);
      FetchNew(fetched, index.Keys, key);
      fetched' := fetched + [key];
      index' := index[key := ChangeLogIssue(issue, [commit])];
    }
  }

  /** The values of the index in ascending key order (`new ArrayList<>(issues.values())`). */
  method ListByKey(index: map<string, ChangeLogIssue>) returns (issues: seq<ChangeLogIssue>)
    ensures var keys := SortedKeys(index.Keys);
      |issues| == |keys| && forall j :: 0 <= j < |keys| ==> keys[j] in index && issues[j] == index[keys[j]]
  {
    issues := [];
    var remaining := index.Keys;
    ghost var listed: seq<string> := [];
    while remaining != {}
      invariant remaining <= index.Keys
      invariant listed + SortedKeys(remaining) == SortedKeys(index.Keys)
      invariant |issues| == |listed|
      invariant forall j :: 0 <= j < |listed| ==> listed[j] in index && issues[j] == index[listed[j]]
      decreases |remaining|
    {
      LeastExists(remaining);
      var key :| IsLeast(key, remaining);
      SortedKeysUnfold(remaining, key);
      assert (listed + [key]) + SortedKeys(remaining - {key}) == listed + SortedKeys(remaining);
      issues := issues + [index[key]];
      listed := listed + [key];
      remaining := remaining - {key};
    }
    assert SortedKeys(remaining) == [];
    assert listed == SortedKeys(index.Keys);
  }

  /**
   * `getChangeLogIssues`: loads the commits of the change log first when they are not loaded (a failure
   * to load them is the outcome), then lists the issues of the commits through the project's issue
   * service, each issue fetched once (`fetched` records the fetches).
   */
  method GetChangeLogIssues(ctx: GitContext, changeLog: ChangeLog, client: RepositoryClient)
    returns (r: Result<ChangeLogIssues, GitError>, ghost fetched: seq<string>)
    modifies changeLog, client
    ensures old(changeLog.commits).Some? ==>
      changeLog.commits == old(changeLog.commits) && client.graphCalls == old(client.graphCalls)
    ensures old(changeLog.commits).None? ==>
      var loaded := ChangeLogCommits(ctx, changeLog.project, changeLog.from, changeLog.to, client.history);
      if loaded.Err? then r == Err(loaded.error) && changeLog.commits == None
      else changeLog.commits == Some(loaded.value)
    ensures changeLog.commits.Some? ==> r == IssuesOutcome(ctx, changeLog.project, changeLog.commits.value)
    ensures r.Ok? ==>
      changeLog.commits.Some? && IssueServiceOf(ctx, changeLog.project).Some?
      && Distinct(fetched)
      && forall k :: k in fetched <==>
           k in IssueKeys(IssueServiceOf(ctx, changeLog.project).value.extractIssueKeys, changeLog.commits.value)
  {
    fetched := [];
    if changeLog.commits.None? {
      var loaded := GetChangeLogCommits(ctx, changeLog, client);
      if loaded.Err? {
        return Err(loaded.error), [];
      }
      changeLog.WithCommits(loaded.value);
    }
    var configuration := GetRequiredProjectConfiguration(ctx, changeLog.project);
    if configuration.Err? {
      return Err(configuration.error), [];
    }
    var service := ctx.issueServices(configuration.value.issueServiceConfigurationIdentifier);
    if service.None? {
      return Err(IssueServiceNotConfigured), [];
    }
    var issues;
    issues, fetched := IndexIssues(service.value, changeLog.commits.value);
    r := Ok(ChangeLogIssues(service.value.representation, issues));
  }

  // ---------------------------------------------------------------------------------------------
  // One issue across the branches.

  /** `OntrackGitIssueCommitBranchInfo` reduced to its branch, with the commit it was found in. */
  datatype IssueCommitInfo = IssueCommitInfo(commit: UICommit, branches: seq<Branch>)

  /** `OntrackGitIssueInfo`: the issue service's representation, the issue and its commits per branch. */
  datatype IssueInfo = IssueInfo(representation: string, issue: Issue, commitInfos: seq<IssueCommitInfo>)

  /**
   * `getIssueInfo`: the branch must be configured and its configuration must name an issue service; the
   * issue is then fetched from that service. The commit infos are empty: `collectIssueCommitInfos` scans
   * nothing and always gives an empty list.
   */
  function GetIssueInfo(ctx: GitContext, branch: Branch, key: string): (r: Result<IssueInfo, GitError>)
    ensures GetBranchConfiguration(ctx, branch).None? ==> r == Err(BranchNotConfigured(branch.id))
    ensures GetBranchConfiguration(ctx, branch).Some? && IssueServiceOf(ctx, branch.project).None? ==>
      r == Err(BranchIssueServiceNotConfigured(branch.id))
    ensures r.Ok? <==> GetBranchConfiguration(ctx, branch).Some? && IssueServiceOf(ctx, branch.project).Some?
    ensures r.Ok? ==>
      var service := IssueServiceOf(ctx, branch.project).value;
      r.value == IssueInfo(service.representation, service.getIssue(key), [])
  {
    match GetBranchConfiguration(ctx, branch)
    case None => Err(BranchNotConfigured(branch.id))
    case Some(branchConfiguration) =>
      match ctx.issueServices(branchConfiguration.configuration.issueServiceConfigurationIdentifier)
      case None => Err(BranchIssueServiceNotConfigured(branch.id))
      case Some(service) => Ok(IssueInfo(service.representation, service.getIssue(key), []))
  }

  /**
   * The issue of a key mentioned in a change log of the branch's project is the issue that the change
   * log lists for that key, with the same representation.
   */
  lemma IssueInfoMatchesChangeLogIssue(ctx: GitContext, branch: Branch, key: string, commits: seq<UICommit>)
    requires GetIssueInfo(ctx, branch, key).Ok?
    requires key in IssueKeys(IssueServiceOf(ctx, branch.project).value.extractIssueKeys, commits)
    ensures IssuesOutcome(ctx, branch.project, commits).Ok?
    ensures IssuesOutcome(ctx, branch.project, commits).value.representation
         == GetIssueInfo(ctx, branch, key).value.representation
    ensures exists i ::
      && 0 <= i < |IssuesOutcome(ctx, branch.project, commits).value.issues|
      && IssuesOutcome(ctx, branch.project, commits).value.issues[i].issue == GetIssueInfo(ctx, branch, key).value.issue
  {
    var service := IssueServiceOf(ctx, branch.project).value;
    var keys := SortedKeys(IssueKeys(service.extractIssueKeys, commits));
    IssuesOfListing(service, commits);
    var i :| 0 <= i < |keys| && keys[i] == key;
    assert IssuesOutcome(ctx, branch.project, commits).value.issues[i].issue == service.getIssue(key);
  }
}
