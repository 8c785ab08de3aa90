/**
 * The "version" branch ordering: a branch's key is the version read from its name through a regular
 * expression (the first group of a match of the whole name), or the name itself when there is none; the
 * branches are sorted by descending key. Versions, regular expressions and the parsing of a version are
 * abstract here (`VersionSupport`).
 */
module VersionBranchOrdering {
  import opened Wrappers
  import opened Text
  import opened Structure

  /** Identifier of the ordering. */
  const Id: string := "version"

  /** The abstract operations on regular expressions and versions. */
  datatype VersionSupport<!V> = VersionSupport(
    isValidRegex: string -> bool,                        // `toRegex` succeeds
    matchEntire: (string, string) -> Option<seq<string>>, // the group values of a match of the whole text
    toVersion: string -> Option<V>,
    compare: (V, V) -> int)                              // `Version.compareTo`

  /** `VersionOrString`: the sort key of a branch. */
  datatype VersionOrString<V> = OfVersion(version: V) | OfName(name: string)

  /** The comparator made for a regular expression. */
  datatype VersionComparator = VersionComparator(regex: string)

  datatype OrderingError =
    | IllegalArgument(message: string)   // IllegalArgumentException
    | InvalidRegex(pattern: string)      // PatternSyntaxException raised by `toRegex`

  const ParamRequired: string := "`param` argument for the version branch ordering is required."

  /**
   * `getComparator`: the parameter is required and must not be blank; it is then compiled as a regular
   * expression.
   */
  function GetComparator<V>(support: VersionSupport<V>, param: Option<string>): (r: Result<VersionComparator, OrderingError>)
    ensures param.None? || IsBlank(param.value) ==> r == Err(IllegalArgument(ParamRequired))
    ensures param.Some? && !IsBlank(param.value) && !support.isValidRegex(param.value) ==>
      r == Err(InvalidRegex(param.value))
    ensures r.Ok? <==> param.Some? && !IsBlank(param.value) && support.isValidRegex(param.value)
    ensures r.Ok? ==> r.value.regex == param.value
  {
    if param.Some? && !IsBlank(param.value) then
      if support.isValidRegex(param.value) then Ok(VersionComparator(param.value))
      else Err(InvalidRegex(param.value))
    else Err(IllegalArgument(ParamRequired))
  }

  /**
   * `getVersion`: the version parsed from the first group of a match of the whole name, when the name
   * matches with at least one group and that group is a version; the name otherwise.
   */
  function GetVersion<V>(support: VersionSupport<V>, regex: string, name: string): (r: VersionOrString<V>)
    ensures r.OfVersion? <==>
      var m := support.matchEntire(regex, name);
      m.Some? && |m.value| >= 2 && support.toVersion(m.value[1]).Some?
    ensures r.OfVersion? ==> Some(r.version) == support.toVersion(support.matchEntire(regex, name).value[1])
    ensures r.OfName? ==> r.name == name
  {
    var m := support.matchEntire(regex, name);
    if m.Some? && |m.value| >= 2 && support.toVersion(m.value[1]).Some? then
      OfVersion(support.toVersion(m.value[1]).value)
    else OfName(name)
  }

  /** `VersionOrString.compareTo`, as written. */
  function CompareTo<V>(compare: (V, V) -> int, a: VersionOrString<V>, b: VersionOrString<V>): int {
    if a.OfVersion? && b.OfVersion? then compare(a.version, b.version)
    else if a.OfVersion? then 1
    else -1
  }

  /**
   * Keys compare by version when both have one; a key with a version is greater than a key without;
   * and a key without a version is smaller than any key, itself included.
   */
  lemma CompareToCases<V>(compare: (V, V) -> int, a: VersionOrString<V>, b: VersionOrString<V>)
    ensures a.OfVersion? && b.OfVersion? ==> CompareTo(compare, a, b) == compare(a.version, b.version)
    ensures a.OfVersion? && b.OfName? ==> CompareTo(compare, a, b) == 1
    ensures a.OfName? ==> CompareTo(compare, a, b) == -1
  {
  }

  /** The comparator of `compareByDescending { it.getVersion(regex) }`: the keys compared the other way round. */
  function Compare<V>(support: VersionSupport<V>, c: VersionComparator, b1: Branch, b2: Branch): int {
    CompareTo(support.compare, GetVersion(support, c.regex, b2.name), GetVersion(support, c.regex, b1.name))
  }

  /** The sign of a comparison. */
  function Sign(x: int): (r: int)
    ensures r == -1 || r == 0 || r == 1
    ensures (r < 0 <==> x < 0) && (r > 0 <==> x > 0)
  {
    if x < 0 then -1 else if x > 0 then 1 else 0
  }

  /** The contract of `java.util.Comparator`: a total preorder, with consistent signs. */
  ghost predicate IsComparator<T(!new)>(cmp: (T, T) -> int) {
    (forall x, y :: Sign(cmp(x, y)) == -Sign(cmp(y, x)))
    && (forall x, y, z :: cmp(x, y) > 0 && cmp(y, z) > 0 ==> cmp(x, z) > 0)
    && (forall x, y, z :: cmp(x, y) == 0 ==> Sign(cmp(x, z)) == Sign(cmp(y, z)))
  }

  /**
   * The order of the comparator as written: a branch with a version comes before a branch without one,
   * and of two branches with versions the higher version comes first.
   */
  lemma CompareOrder<V>(support: VersionSupport<V>, c: VersionComparator, b1: Branch, b2: Branch)
    ensures GetVersion(support, c.regex, b1.name).OfVersion? && GetVersion(support, c.regex, b2.name).OfName? ==>
      Compare(support, c, b1, b2) < 0 && Compare(support, c, b2, b1) > 0
    ensures GetVersion(support, c.regex, b1.name).OfVersion? && GetVersion(support, c.regex, b2.name).OfVersion? ==>
      Compare(support, c, b1, b2) == support.compare(GetVersion(support, c.regex, b2.name).version,
                                                     GetVersion(support, c.regex, b1.name).version)
  {
  }

  /**
   * As written, two branches without a version each compare as smaller than the other, and a branch
   * without a version as smaller than itself: the comparator breaks the `Comparator` contract as soon as
   * one branch name gives no version.
   */
  lemma AsWrittenBreaksComparator<V>(support: VersionSupport<V>, c: VersionComparator, b1: Branch, b2: Branch)
    requires GetVersion(support, c.regex, b1.name).OfName? && GetVersion(support, c.regex, b2.name).OfName?
    ensures Compare(support, c, b1, b2) == -1 && Compare(support, c, b2, b1) == -1
    ensures Compare(support, c, b1, b1) == -1
    ensures !IsComparator((x: Branch, y: Branch) => Compare(support, c, x, y))
  {
    var cmp := (x: Branch, y: Branch) => Compare(support, c, x, y);
    assert Sign(cmp(b1, b1)) != -Sign(cmp(b1, b1));
  }

  /**
   * The intended comparator: branches with a version first, by descending version, then the branches
   * without one in alphabetical order.
   */
  function CompareIntended<V>(support: VersionSupport<V>, c: VersionComparator, b1: Branch, b2: Branch): int {
    var k1 := GetVersion(support, c.regex, b1.name);
    var k2 := GetVersion(support, c.regex, b2.name);
    if k1.OfName? && k2.OfName? then StrCompare(b1.name, b2.name)
    else CompareTo(support.compare, k2, k1)
  }

  /** The intended comparator agrees with the one written everywhere but on two branches without a version. */
  lemma IntendedAgreesWithVersions<V>(support: VersionSupport<V>, c: VersionComparator, b1: Branch, b2: Branch)
    requires GetVersion(support, c.regex, b1.name).OfVersion? || GetVersion(support, c.regex, b2.name).OfVersion?
    ensures CompareIntended(support, c, b1, b2) == Compare(support, c, b1, b2)
  {
  }

  /** Without versions, the intended comparator is the alphabetical order of the names. */
  lemma IntendedOrdersNamesAlphabetically<V>(support: VersionSupport<V>, c: VersionComparator, b1: Branch, b2: Branch)
    requires GetVersion(support, c.regex, b1.name).OfName? && GetVersion(support, c.regex, b2.name).OfName?
    ensures CompareIntended(support, c, b1, b2) < 0 <==> StrLt(b1.name, b2.name)
    ensures CompareIntended(support, c, b1, b2) == 0 <==> b1.name == b2.name
  {
  }

  /** The intended comparator keeps the `Comparator` contract whenever versions compare by one. */
  lemma IntendedIsComparator<V(!new)>(support: VersionSupport<V>, c: VersionComparator)
    requires IsComparator(support.compare)
    ensures IsComparator((x: Branch, y: Branch) => CompareIntended(support, c, x, y))
  {
    var cmp := (x: Branch, y: Branch) => CompareIntended(support, c, x, y);
    forall x: Branch, y: Branch ensures Sign(cmp(x, y)) == -Sign(cmp(y, x)) {
      IntendedAntisymmetric(support, c, x, y);
    }
    forall x: Branch, y: Branch, z: Branch | cmp(x, y) > 0 && cmp(y, z) > 0 ensures cmp(x, z) > 0 {
      IntendedTransitive(support, c, x, y, z);
    }
    forall x: Branch, y: Branch, z: Branch | cmp(x, y) == 0 ensures Sign(cmp(x, z)) == Sign(cmp(y, z)) {
      IntendedEqualConsistent(support, c, x, y, z);
    }
  }

  lemma IntendedAntisymmetric<V(!new)>(support: VersionSupport<V>, c: VersionComparator, x: Branch, y: Branch)
    requires IsComparator(support.compare)
    ensures Sign(CompareIntended(support, c, x, y)) == -Sign(CompareIntended(support, c, y, x))
  {
    var kx := GetVersion(support, c.regex, x.name);
    var ky := GetVersion(support, c.regex, y.name);
    if kx.OfName? && ky.OfName? {
      if StrLt(x.name, y.name) {
        StrLtAsymmetric(x.name, y.name);
      }
    }
  }

  lemma IntendedTransitive<V(!new)>(support: VersionSupport<V>, c: VersionComparator, x: Branch, y: Branch, z: Branch)
    requires IsComparator(support.compare)
    requires CompareIntended(support, c, x, y) > 0 && CompareIntended(support, c, y, z) > 0
    ensures CompareIntended(support, c, x, z) > 0
  {
    var kx := GetVersion(support, c.regex, x.name);
    var ky := GetVersion(support, c.regex, y.name);
    var kz := GetVersion(support, c.regex, z.name);
    if kx.OfName? && ky.OfName? && kz.OfName? {
      StrLtTransitive(z.name, y.name, x.name);
    } else if kx.OfVersion? && ky.OfVersion? && kz.OfVersion? {
      assert support.compare(ky.version, kx.version) > 0 && support.compare(kz.version, ky.version) > 0;
      assert support.compare(kz.version, kx.version) > 0;
    }
  }

  lemma IntendedEqualConsistent<V(!new)>(support: VersionSupport<V>, c: VersionComparator, x: Branch, y: Branch, z: Branch)
    requires IsComparator(support.compare)
    requires CompareIntended(support, c, x, y) == 0
    ensures Sign(CompareIntended(support, c, x, z)) == Sign(CompareIntended(support, c, y, z))
  {
    var kx := GetVersion(support, c.regex, x.name);
    var ky := GetVersion(support, c.regex, y.name);
    var kz := GetVersion(support, c.regex, z.name);
    if kx.OfVersion? && ky.OfVersion? && kz.OfVersion? {
      assert support.compare(ky.version, kx.version) == 0;
      assert Sign(support.compare(kx.version, ky.version)) == 0;
      assert Sign(support.compare(kz.version, kx.version)) == -Sign(support.compare(kx.version, kz.version));
      assert Sign(support.compare(kz.version, ky.version)) == -Sign(support.compare(ky.version, kz.version));
    }
  }
}
