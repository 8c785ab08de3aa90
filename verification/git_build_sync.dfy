/**
 * The build/tag synchronisation of a branch: after a repository sync, each tag from which the branch's
 * (indexable) commit link derives a build name gives a build of that name, unless the build exists and
 * the branch does not ask to override existing builds.
 */
module GitBuildSync {
  import opened Wrappers
  import opened Structure
  import opened GitConfig
  import opened GitChangeLog

  /** `GitTag`: a tag name and the time of its commit. */
  datatype Tag = Tag(name: string, time: int)

  /** The build store of a branch (`StructureService` restricted to one branch's builds), by build name. */
  class BuildStore {
    var builds: map<string, Build>

    constructor(builds: map<string, Build>)
      ensures this.builds == builds
    {
      this.builds := builds;
    }

    /** `findBuildByName`. */
    method FindBuildByName(name: string) returns (r: Option<Build>)
      ensures r.Some? <==> name in builds
      ensures r.Some? ==> r.value == builds[name]
    {
      r := if name in builds then Some(builds[name]) else None;
    }

    /** `deleteBuild`. */
    method DeleteBuild(name: string)
      requires name in builds
      modifies this
      ensures builds == old(builds) - {name}
    {
      builds := builds - {name};
    }

    /** `newBuild`: build names are unique in a branch. */
    method NewBuild(build: Build)
      requires build.name !in builds
      modifies this
      ensures builds == old(builds)[build.name := build]
    {
      builds := builds[build.name := build];
    }
  }

  /**
   * What a synchronisation works with: the branch, its commit link and the link's derivation of a build
   * name from a tag name, `NameDescription.escapeName`, the user of the current signature and whether
   * existing builds are overridden.
   */
  datatype SyncSettings = SyncSettings(
    branch: Branch,
    link: CommitLink,
    buildNameFromTagName: (CommitLink, string) -> Option<string>,
    escape: string -> string,
    user: string,
    override: bool)

  /** The name of the build a tag gives, if any. */
  function DerivedName(settings: SyncSettings, tag: Tag): (r: Option<string>)
    ensures r.Some? <==> settings.buildNameFromTagName(settings.link, tag.name).Some?
    ensures r.Some? ==> r.value == settings.escape(settings.buildNameFromTagName(settings.link, tag.name).value)
  {
    match settings.buildNameFromTagName(settings.link, tag.name)
    case None => None
    case Some(candidate) => Some(settings.escape(candidate))
  }

  const ImportedFrom: string := "Imported from Git tag "

  /** The build imported from a tag: described by the tag's name and signed at the tag's time. */
  function ImportedBuild(settings: SyncSettings, name: string, tag: Tag): (b: Build)
    ensures b.branch == settings.branch && b.name == name
    ensures b.description == ImportedFrom + tag.name
    ensures b.signature == Signature(settings.user, tag.time)
  {
    Build(settings.branch, name, ImportedFrom + tag.name, Signature(settings.user, tag.time))
  }

  /** The builds after one tag: skipped, kept, or (re)created. */
  function SyncTag(settings: SyncSettings, builds: map<string, Build>, tag: Tag): map<string, Build> {
    match DerivedName(settings, tag)
    case None => builds
    case Some(name) =>
      if name in builds && !settings.override then builds
      else builds[name := ImportedBuild(settings, name, tag)]
  }

  /** The builds after the tags, in order. */
  function SyncAll(settings: SyncSettings, builds: map<string, Build>, tags: seq<Tag>): map<string, Build>
    decreases |tags|
  {
    if tags == [] then builds
    else SyncTag(settings, SyncAll(settings, builds, tags[..|tags| - 1]), tags[|tags| - 1])
  }

  /** Some tag gives the name. */
  predicate Derived(settings: SyncSettings, tags: seq<Tag>, name: string) {
    exists i :: 0 <= i < |tags| && DerivedName(settings, tags[i]) == Some(name)
  }

  // ---------------------------------------------------------------------------------------------
  // Properties of a synchronisation.

  /** A build whose name no tag gives is left as it is, and no such build appears. */
  lemma {:induction false} SyncLeavesOtherBuilds(settings: SyncSettings, builds: map<string, Build>, tags: seq<Tag>, name: string)
    requires !Derived(settings, tags, name)
    ensures name in SyncAll(settings, builds, tags) <==> name in builds
    ensures name in builds ==> SyncAll(settings, builds, tags)[name] == builds[name]
    decreases |tags|
  {
    if tags != [] {
      var init := tags[..|tags| - 1];
      assert !Derived(settings, init, name) by {
        forall i | 0 <= i < |init| ensures DerivedName(settings, init[i]) != Some(name) {
          assert init[i] == tags[i];
        }
      }
      SyncLeavesOtherBuilds(settings, builds, init, name);
      assert DerivedName(settings, tags[|tags| - 1]) != Some(name);
    }
  }

  /** Every name a tag gives is the name of a build afterwards, and the existing builds remain. */
  lemma {:induction false} SyncCreatesDerivedBuilds(settings: SyncSettings, builds: map<string, Build>, tags: seq<Tag>)
    ensures forall name :: Derived(settings, tags, name) ==> name in SyncAll(settings, builds, tags)
    ensures builds.Keys <= SyncAll(settings, builds, tags).Keys
    decreases |tags|
  {
    if tags != [] {
      var init := tags[..|tags| - 1];
      var last := tags[|tags| - 1];
      SyncCreatesDerivedBuilds(settings, builds, init);
      forall name | Derived(settings, tags, name) ensures name in SyncAll(settings, builds, tags) {
        var i :| 0 <= i < |tags| && DerivedName(settings, tags[i]) == Some(name);
        if i < |tags| - 1 {
          assert init[i] == tags[i];
          assert Derived(settings, init, name);
        }
      }
    }
  }

  /** Without override, the existing builds are kept as they are. */
  lemma {:induction false} SyncKeepsExistingBuilds(settings: SyncSettings, builds: map<string, Build>, tags: seq<Tag>)
    requires !settings.override
    ensures forall name :: name in builds ==>
      name in SyncAll(settings, builds, tags) && SyncAll(settings, builds, tags)[name] == builds[name]
    decreases |tags|
  {
    if tags != [] {
      SyncKeepsExistingBuilds(settings, builds, tags[..|tags| - 1]);
    }
  }

  /** Without override, builds that already hold every name the tags give are left unchanged. */
  lemma {:induction false} SyncWithoutOverrideOnSyncedBuilds(settings: SyncSettings, builds: map<string, Build>, tags: seq<Tag>)
    requires !settings.override
    requires forall name :: Derived(settings, tags, name) ==> name in builds
    ensures SyncAll(settings, builds, tags) == builds
    decreases |tags|
  {
    if tags != [] {
      var init := tags[..|tags| - 1];
      forall name | Derived(settings, init, name) ensures name in builds {
        var i :| 0 <= i < |init| && DerivedName(settings, init[i]) == Some(name);
        assert tags[i] == init[i];
        assert Derived(settings, tags, name);
      }
      SyncWithoutOverrideOnSyncedBuilds(settings, builds, init);
      var last := tags[|tags| - 1];
      if DerivedName(settings, last).Some? {
        assert Derived(settings, tags, DerivedName(settings, last).value);
      }
    }
  }

  /** Without override, synchronising twice with the same tags is synchronising once. */
  lemma SyncWithoutOverrideIdempotent(settings: SyncSettings, builds: map<string, Build>, tags: seq<Tag>)
    requires !settings.override
    ensures SyncAll(settings, SyncAll(settings, builds, tags), tags) == SyncAll(settings, builds, tags)
  {
    SyncCreatesDerivedBuilds(settings, builds, tags);
    SyncWithoutOverrideOnSyncedBuilds(settings, SyncAll(settings, builds, tags), tags);
  }

  /** `tags[i]` gives the name, and no later tag does. */
  ghost predicate LastGiving(settings: SyncSettings, tags: seq<Tag>, name: string, i: int) {
    0 <= i < |tags| && DerivedName(settings, tags[i]) == Some(name)
    && forall j :: i < j < |tags| ==> DerivedName(settings, tags[j]) != Some(name)
  }

  /** `tags[i]` gives the name, and no earlier tag does. */
  ghost predicate FirstGiving(settings: SyncSettings, tags: seq<Tag>, name: string, i: int) {
    0 <= i < |tags| && DerivedName(settings, tags[i]) == Some(name)
    && forall j :: 0 <= j < i ==> DerivedName(settings, tags[j]) != Some(name)
  }

  /** A name the last tag does not give is given by the tags before it. */
  lemma DerivedBeforeLast(settings: SyncSettings, tags: seq<Tag>, name: string)
    requires tags != [] && Derived(settings, tags, name) && DerivedName(settings, tags[|tags| - 1]) != Some(name)
    ensures Derived(settings, tags[..|tags| - 1], name)
  {
    var k :| 0 <= k < |tags| && DerivedName(settings, tags[k]) == Some(name);
    assert tags[..|tags| - 1][k] == tags[k];
  }

  lemma LastGivingExtends(settings: SyncSettings, tags: seq<Tag>, name: string, i: int)
    requires tags != [] && LastGiving(settings, tags[..|tags| - 1], name, i)
    requires DerivedName(settings, tags[|tags| - 1]) != Some(name)
    ensures LastGiving(settings, tags, name, i)
  {
    var init := tags[..|tags| - 1];
    assert tags[i] == init[i];
    forall j | i < j < |tags| ensures DerivedName(settings, tags[j]) != Some(name) {
      if j < |tags| - 1 {
        assert tags[j] == init[j];
      }
    }
  }

  lemma FirstGivingExtends(settings: SyncSettings, tags: seq<Tag>, name: string, i: int)
    requires tags != [] && FirstGiving(settings, tags[..|tags| - 1], name, i)
    ensures FirstGiving(settings, tags, name, i)
  {
    var init := tags[..|tags| - 1];
    assert tags[i] == init[i];
    forall j | 0 <= j < i ensures DerivedName(settings, tags[j]) != Some(name) {
      assert tags[j] == init[j];
    }
  }

  /**
   * With override, the build of a name some tag gives is imported from the last tag giving that name,
   * whatever builds existed before.
   */
  lemma {:induction false} SyncWithOverrideImportsLastTag(settings: SyncSettings, builds: map<string, Build>, tags: seq<Tag>, name: string)
    requires settings.override && Derived(settings, tags, name)
    ensures exists i ::
      LastGiving(settings, tags, name, i)
      && name in SyncAll(settings, builds, tags)
      && SyncAll(settings, builds, tags)[name] == ImportedBuild(settings, name, tags[i])
    decreases |tags|
  {
    var init := tags[..|tags| - 1];
    var last := tags[|tags| - 1];
    var before := SyncAll(settings, builds, init);
    assert SyncAll(settings, builds, tags) == SyncTag(settings, before, last);
    if DerivedName(settings, last) == Some(name) {
      assert LastGiving(settings, tags, name, |tags| - 1);
    } else {
      DerivedBeforeLast(settings, tags, name);
      SyncWithOverrideImportsLastTag(settings, builds, init, name);
      var i :| LastGiving(settings, init, name, i) && name in before && before[name] == ImportedBuild(settings, name, init[i]);
      LastGivingExtends(settings, tags, name, i);
      SyncTagOtherName(settings, before, last, name);
      assert tags[i] == init[i];
    }
  }

  /** A tag that does not give a name leaves the build of that name alone. */
  lemma SyncTagOtherName(settings: SyncSettings, builds: map<string, Build>, tag: Tag, name: string)
    requires DerivedName(settings, tag) != Some(name)
    ensures name in SyncTag(settings, builds, tag) <==> name in builds
    ensures name in builds ==> SyncTag(settings, builds, tag)[name] == builds[name]
  {
  }

  /**
   * Without override, a build absent before is imported from the first tag giving its name.
   */
  lemma {:induction false} SyncWithoutOverrideImportsFirstTag(settings: SyncSettings, builds: map<string, Build>, tags: seq<Tag>, name: string)
    requires !settings.override && name !in builds && Derived(settings, tags, name)
    ensures exists i ::
      FirstGiving(settings, tags, name, i)
      && name in SyncAll(settings, builds, tags)
      && SyncAll(settings, builds, tags)[name] == ImportedBuild(settings, name, tags[i])
    decreases |tags|
  {
    var init := tags[..|tags| - 1];
    var last := tags[|tags| - 1];
    var before := SyncAll(settings, builds, init);
    assert SyncAll(settings, builds, tags) == SyncTag(settings, before, last);
    if Derived(settings, init, name) {
      SyncWithoutOverrideImportsFirstTag(settings, builds, init, name);
      var i :| FirstGiving(settings, init, name, i) && name in before && before[name] == ImportedBuild(settings, name, init[i]);
      FirstGivingExtends(settings, tags, name, i);
      assert tags[i] == init[i];
      assert SyncTag(settings, before, last)[name] == before[name];
    } else {
      SyncLeavesOtherBuilds(settings, builds, init, name);
      assert FirstGiving(settings, tags, name, |tags| - 1) by {
        forall j | 0 <= j < |tags| - 1 ensures DerivedName(settings, tags[j]) != Some(name) {
          assert tags[j] == init[j];
        }
      }
    }
  }

  // ---------------------------------------------------------------------------------------------
  // The synchronisation job.

  /** Whether existing builds are overridden: the branch's property asks for it. */
  function Override(ctx: GitContext, branch: Branch): bool {
    ctx.branchProperty(branch).Some? && ctx.branchProperty(branch).value.override
  }

  /** The override read by the job is the override of the branch's configuration. */
  lemma OverrideIsConfigured(ctx: GitContext, branch: Branch)
    requires GetBranchConfiguration(ctx, branch).Some?
    ensures Override(ctx, branch) == GetBranchConfiguration(ctx, branch).value.override
  {
  }

  function SettingsFor(ctx: GitContext, branch: Branch, branchConfiguration: GitBranchConfiguration,
                       escape: string -> string, user: string): SyncSettings {
    SyncSettings(branch, branchConfiguration.buildCommitLink, ctx.links.buildNameFromTagName, escape, user,
                 Override(ctx, branch))
  }

  /**
   * `buildSync`: the branch's link must be indexable; the repository is synced (a failure stops the job)
   * and then the tags are applied to the branch's builds in order. `tags` stands for the repository's tags,
   * `user` for the current signature's user and `escape` for `NameDescription.escapeName`.
   */
  method BuildSync(ctx: GitContext, branch: Branch, branchConfiguration: GitBranchConfiguration,
                   client: RepositoryClient, store: BuildStore, tags: seq<Tag>,
                   escape: string -> string, user: string)
    returns (r: Result<(), GitError>)
    modifies client, store
    ensures !IsIndexable(branchConfiguration.buildCommitLink) ==>
      r.Err? && store.builds == old(store.builds) && client.syncs == old(client.syncs)
    ensures IsIndexable(branchConfiguration.buildCommitLink) ==> client.syncs == old(client.syncs) + 1
    ensures IsIndexable(branchConfiguration.buildCommitLink) && !client.syncOutcome.Synced? ==>
      r == Err(Unexpected(client.syncOutcome.message)) && store.builds == old(store.builds)
    ensures r.Ok? <==> IsIndexable(branchConfiguration.buildCommitLink) && client.syncOutcome.Synced?
    ensures r.Ok? ==> store.builds == SyncAll(SettingsFor(ctx, branch, branchConfiguration, escape, user), old(store.builds), tags)
    ensures client.graphCalls == old(client.graphCalls)
  {
    if !IsIndexable(branchConfiguration.buildCommitLink) {
      return Err(Unexpected("ClassCastException"));
    }
    var settings := SettingsFor(ctx, branch, branchConfiguration, escape, user);
    var outcome := client.Sync();
    if !outcome.Synced? {
      return Err(Unexpected(outcome.message));
    }
    for i := 0 to |tags|
      invariant store.builds == SyncAll(settings, old(store.builds), tags[..i])
      invariant client.syncs == old(client.syncs) + 1 && client.graphCalls == old(client.graphCalls)
    {
      assert tags[..i + 1][..i] == tags[..i];
      SyncTagInStore(settings, store, tags[i]);
    }
    assert tags[..|tags|] == tags;
    r := Ok(());
  }

  /**
   * What the sync job runs, as the service defines it: the repository's tags are not read and the list of
   * tags is empty, so that a run syncs the repository and leaves the branch's builds as they are.
   */
  method BuildSyncTask(ctx: GitContext, branch: Branch, branchConfiguration: GitBranchConfiguration,
                       client: RepositoryClient, store: BuildStore, escape: string -> string, user: string)
    returns (r: Result<(), GitError>)
    modifies client, store
    ensures r.Ok? <==> IsIndexable(branchConfiguration.buildCommitLink) && client.syncOutcome.Synced?
    ensures IsIndexable(branchConfiguration.buildCommitLink) ==> client.syncs == old(client.syncs) + 1
    ensures !IsIndexable(branchConfiguration.buildCommitLink) ==> client.syncs == old(client.syncs)
    ensures store.builds == old(store.builds) && client.graphCalls == old(client.graphCalls)
  {
    r := BuildSync(ctx, branch, branchConfiguration, client, store, [], escape, user);
  }

  /** The body of the tag loop of `buildSync`. */
  method SyncTagInStore(settings: SyncSettings, store: BuildStore, tag: Tag)
    modifies store
    ensures store.builds == SyncTag(settings, old(store.builds), tag)
  {
    var candidate := settings.buildNameFromTagName(settings.link, tag.name);
    if candidate.Some? {
      var name := settings.escape(candidate.value);
      var existing := store.FindBuildByName(name);
      var createBuild;
      if existing.Some? {
        if settings.override {
          store.DeleteBuild(name);
          createBuild := true;
        } else {
          createBuild := false;
        }
      } else {
        createBuild := true;
      }
      if createBuild {
        store.NewBuild(ImportedBuild(settings, name, tag));
        assert store.builds == old(store.builds)[name := ImportedBuild(settings, name, tag)];
      }
    }
  }
}
