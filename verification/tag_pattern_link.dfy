/**
 * The "tag pattern" build/commit link: a build is linked to the Git tag that a pattern derives from
 * the build's name. The pattern type itself (`TagPattern`) is not part of this model: its matching and
 * its cloning are the abstract operations of `PatternMatching`.
 */
module TagPatternLink {
  import opened Wrappers
  import opened Structure

  /** Stable identifier of the strategy, persisted in branch configurations. */
  const Id: string := "tagPattern"

  /** Display name of the strategy. */
  const Name: string := "Tag pattern"

  /** The parsed parameter of the strategy: the tag pattern as configured. */
  datatype TagPattern = TagPattern(pattern: string)

  /**
   * The operations of `TagPattern` that the strategy delegates to: the partial mapping of a build
   * name to a tag name, and cloning under a text replacement (used for templated branches).
   */
  datatype PatternMatching = PatternMatching(
    tagNameFromBuildName: (TagPattern, string) -> Option<string>,
    clone: (TagPattern, string -> string) -> TagPattern)

  /** `BuildTagPatternExcepton`: the build name does not fit the pattern. */
  datatype BuildTagPatternException = BuildTagPatternException(pattern: string, buildName: string)

  /** `clone`: the strategy delegates to the pattern's own cloning under the replacement. */
  function Clone(matching: PatternMatching, data: TagPattern, replacement: string -> string): (r: TagPattern)
    ensures r == matching.clone(data, replacement)
  {
    matching.clone(data, replacement)
  }

  /**
   * The commit (tag name) of a build: the tag name the pattern derives from the build's name, and a
   * distinct error carrying the pattern and the build name when the pattern yields none.
   */
  function GetCommitFromBuild(matching: PatternMatching, build: Build, data: TagPattern)
    : (r: Result<string, BuildTagPatternException>)
    ensures r.Ok? <==> matching.tagNameFromBuildName(data, build.name).Some?
    ensures r.Ok? ==> matching.tagNameFromBuildName(data, build.name) == Some(r.value)
    ensures r.Err? ==> r.error == BuildTagPatternException(data.pattern, build.name)
  {
    match matching.tagNameFromBuildName(data, build.name)
    case Some(tagName) => Ok(tagName)
    case None => Err(BuildTagPatternException(data.pattern, build.name))
  }
}
