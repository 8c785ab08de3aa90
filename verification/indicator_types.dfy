/**
 * The registry of indicator types: three fixed types held by id, listed sorted by category name and
 * then short name, looked up by id and filtered by category.
 */
module IndicatorTypes {
  import opened Wrappers
  import opened Text

  const SpringBoot: string := "36083450-cacb-4e30-bbed-fd6682f336fd"
  const Java11Zulu: string := "7291c0ba-a038-4ca4-907e-364b57cba8bd"
  const DockerName: string := "91f0ac82-0442-4ae0-9995-ed2e8fc9e6f9"

  datatype IndicatorCategory = IndicatorCategory(id: string, name: string)

  /**
   * `IndicatorType`, with its boolean value configuration reduced to its `required` flag (all three types
   * use the boolean value type and no value computer).
   */
  datatype IndicatorType = IndicatorType(
    id: string,
    category: IndicatorCategory,
    shortName: string,
    longName: string,
    link: Option<string>,
    required: bool)

  /** `IndicatorTypeNotFoundException`. */
  datatype IndicatorTypeNotFound = IndicatorTypeNotFound(typeId: string)

  const SpringBootShortName: string := "Java stack"
  const SpringBootLongName: string := "SHOULD Use Java & spring boot stack"
  const SpringBootLink: string := "https://start.spring.io"
  const Java11ZuluShortName: string := "Java 11 Zulu"
  const Java11ZuluLongName: string := "MUST Use zulu JDK 11 LTS for JVM services"
  const DockerNameShortName: string := "Docker name"
  const DockerNameLongName: string := "MUST follow Docker artifact naming conventions"

  /** The registered types, in declaration order; the two categories are those of the category service. */
  function TypeList(services: IndicatorCategory, delivery: IndicatorCategory): seq<IndicatorType> {
    [ IndicatorType(SpringBoot, services, SpringBootShortName, SpringBootLongName, Some(SpringBootLink), false),
      IndicatorType(Java11Zulu, services, Java11ZuluShortName, Java11ZuluLongName, None, true),
      IndicatorType(DockerName, delivery, DockerNameShortName, DockerNameLongName, None, true) ]
  }

  /** `associateBy { it.id }`: each type under its id, a later type replacing an earlier one with the same id. */
  function AssociateById(types: seq<IndicatorType>): map<string, IndicatorType>
    decreases |types|
  {
    if types == [] then map[]
    else
      var last := types[|types| - 1];
      AssociateById(types[..|types| - 1])[last.id := last]
  }

  /** Each type is held under its own id, and only the given types are held. */
  lemma {:induction false} AssociateByIdValues(types: seq<IndicatorType>)
    ensures forall id :: id in AssociateById(types) ==>
      AssociateById(types)[id].id == id && AssociateById(types)[id] in types
    decreases |types|
  {
    if types != [] {
      var init, last := types[..|types| - 1], types[|types| - 1];
      AssociateByIdValues(init);
      assert types == init + [last];
    }
  }

  /** Every type's id is a key. */
  lemma {:induction false} AssociateByIdKeys(types: seq<IndicatorType>)
    ensures forall t :: t in types ==> t.id in AssociateById(types)
    decreases |types|
  {
    if types != [] {
      var init, last := types[..|types| - 1], types[|types| - 1];
      AssociateByIdKeys(init);
      assert types == init + [last];
    }
  }

  /** The `types` registry. */
  function Types(services: IndicatorCategory, delivery: IndicatorCategory): map<string, IndicatorType> {
    AssociateById(TypeList(services, delivery))
  }

  lemma IdsDistinct()
    ensures SpringBoot != Java11Zulu && SpringBoot != DockerName && Java11Zulu != DockerName
  {
    assert SpringBoot[0] == '3' && Java11Zulu[0] == '7' && DockerName[0] == '9';
  }

  lemma RegistryHoldsEachTypeUnderItsId(services: IndicatorCategory, delivery: IndicatorCategory)
    ensures SpringBoot != Java11Zulu && SpringBoot != DockerName && Java11Zulu != DockerName
    ensures Types(services, delivery).Keys == {SpringBoot, Java11Zulu, DockerName}
    ensures forall i :: 0 <= i < |TypeList(services, delivery)| ==>
      var t := TypeList(services, delivery)[i];
      t.id in Types(services, delivery) && Types(services, delivery)[t.id] == t
  {
    IdsDistinct();
    var list := TypeList(services, delivery);
    assert list[0].id == SpringBoot && list[1].id == Java11Zulu && list[2].id == DockerName;
    AssociateThree(list);
  }

  /** Three types with distinct ids are held under exactly their three ids. */
  lemma AssociateThree(list: seq<IndicatorType>)
    requires |list| == 3 && list[0].id != list[1].id && list[0].id != list[2].id && list[1].id != list[2].id
    ensures AssociateById(list).Keys == {list[0].id, list[1].id, list[2].id}
    ensures forall i :: 0 <= i < |list| ==> AssociateById(list)[list[i].id] == list[i]
  {
    var one, two := list[..1], list[..2];
    assert one[..0] == [] && two[..1] == one && list[..2] == two;
    assert AssociateById(one) == map[list[0].id := list[0]];
    assert AssociateById(two) == map[list[0].id := list[0], list[1].id := list[1]];
    assert AssociateById(list) == map[list[0].id := list[0], list[1].id := list[1], list[2].id := list[2]];
  }

  /** Types with distinct ids are each held under their own id, and only their ids are keys. */
  lemma AssociateDistinct(list: seq<IndicatorType>)
    requires forall i, j :: 0 <= i < j < |list| ==> list[i].id != list[j].id
    ensures forall id :: id in AssociateById(list) <==> exists i :: 0 <= i < |list| && list[i].id == id
    ensures forall i :: 0 <= i < |list| ==> AssociateById(list)[list[i].id] == list[i]
  {
    AssociateByIdKeys(list);
    AssociateByIdValues(list);
    var m := AssociateById(list);
    forall i | 0 <= i < |list| ensures m[list[i].id] == list[i] {
      assert list[i] in list;
      var k :| 0 <= k < |list| && list[k] == m[list[i].id];
      assert list[k].id == list[i].id;
    }
    forall id | id in m ensures exists i :: 0 <= i < |list| && list[i].id == id {
      assert m[id] in list;
    }
  }

  // ---------------------------------------------------------------------------------------------
  // Sorting by (category name, short name): `sortedWith(compareBy({ it.category.name }, { it.shortName }))`.

  /** `a` sorts strictly before `b`. */
  predicate KeyLt(a: IndicatorType, b: IndicatorType) {
    StrLt(a.category.name, b.category.name)
    || (a.category.name == b.category.name && StrLt(a.shortName, b.shortName))
  }

  lemma KeyLtTransitive(a: IndicatorType, b: IndicatorType, c: IndicatorType)
    requires KeyLt(a, b) && KeyLt(b, c)
    ensures KeyLt(a, c)
  {
    if StrLt(a.category.name, b.category.name) && StrLt(b.category.name, c.category.name) {
      StrLtTransitive(a.category.name, b.category.name, c.category.name);
    } else if a.category.name == b.category.name && b.category.name == c.category.name {
      StrLtTransitive(a.shortName, b.shortName, c.shortName);
    }
  }

  lemma KeyLtIrreflexive(a: IndicatorType)
    ensures !KeyLt(a, a)
  {
    StrLtIrreflexive(a.category.name);
    StrLtIrreflexive(a.shortName);
  }

  /** What sorts strictly before `x`, itself strictly before `a`, sorts strictly before `a`. */
  lemma BelowBelow(y: IndicatorType, x: IndicatorType, a: IndicatorType)
    requires KeyLt(x, a) && !KeyLt(y, a)
    ensures !KeyLt(y, x)
  {
    if KeyLt(y, x) {
      KeyLtTransitive(y, x, a);
    }
  }

  /** What sorts strictly before `a` sorts strictly before whatever does not sort before `a`. */
  lemma BelowNotBelow(x: IndicatorType, a: IndicatorType, y: IndicatorType)
    requires KeyLt(x, a) && !KeyLt(y, a)
    ensures KeyLt(x, y)
  {
    StrLtTotal(a.category.name, y.category.name);
    StrLtTotal(a.shortName, y.shortName);
    if StrLt(x.category.name, a.category.name) && StrLt(a.category.name, y.category.name) {
      StrLtTransitive(x.category.name, a.category.name, y.category.name);
    } else if x.category.name == a.category.name && StrLt(a.category.name, y.category.name) {
    } else if StrLt(a.shortName, y.shortName) && x.category.name == a.category.name {
      StrLtTransitive(x.shortName, a.shortName, y.shortName);
    }
  }

  /** No type is followed by one that sorts strictly before it. */
  predicate Sorted(s: seq<IndicatorType>) {
    forall i, j :: 0 <= i < j < |s| ==> !KeyLt(s[j], s[i])
  }

  /** Inserts `x` after the types that do not sort after it (a stable insertion). */
  function Insert(x: IndicatorType, s: seq<IndicatorType>): seq<IndicatorType>
    decreases |s|
  {
    if s == [] then [x]
    else if KeyLt(x, s[0]) then [x] + s
    else [s[0]] + Insert(x, s[1..])
  }

  /** The insertion adds `x` and loses nothing. */
  lemma {:induction false} InsertPermutes(x: IndicatorType, s: seq<IndicatorType>)
    ensures multiset(Insert(x, s)) == multiset(s) + multiset{x}
    decreases |s|
  {
    if s != [] && !KeyLt(x, s[0]) {
      InsertPermutes(x, s[1..]);
      assert s == [s[0]] + s[1..];
    }
  }

  /** The insertion holds `x` and the types it inserts into, and nothing else. */
  lemma {:induction false} InsertMembers(x: IndicatorType, s: seq<IndicatorType>)
    ensures forall y :: y in Insert(x, s) <==> y == x || y in s
    decreases |s|
  {
    if s != [] && !KeyLt(x, s[0]) {
      InsertMembers(x, s[1..]);
      assert s == [s[0]] + s[1..];
    }
  }

  /** A sorted sequence stays sorted behind a type that nothing in it sorts before. */
  lemma SortedCons(h: IndicatorType, rest: seq<IndicatorType>)
    requires Sorted(rest) && forall k :: 0 <= k < |rest| ==> !KeyLt(rest[k], h)
    ensures Sorted([h] + rest)
  {
    var s := [h] + rest;
    forall i, j | 0 <= i < j < |s| ensures !KeyLt(s[j], s[i]) {
      assert s[j] == rest[j - 1];
      if i > 0 {
        assert s[i] == rest[i - 1];
      }
    }
  }

  /** Inserting into a sorted sequence keeps it sorted. */
  lemma {:induction false} InsertSorted(x: IndicatorType, s: seq<IndicatorType>)
    requires Sorted(s)
    ensures Sorted(Insert(x, s))
    decreases |s|
  {
    if s == [] {
    } else if KeyLt(x, s[0]) {
      forall j | 0 <= j < |s| ensures !KeyLt(s[j], x) {
        KeyLtIrreflexive(s[0]);
        BelowBelow(s[j], x, s[0]);
      }
      SortedCons(x, s);
    } else {
      var tail := s[1..];
      var rest := Insert(x, tail);
      assert Sorted(rest) by {
        assert Sorted(tail);
        InsertSorted(x, tail);
      }
      forall k | 0 <= k < |rest| ensures !KeyLt(rest[k], s[0]) {
        InsertMembers(x, tail);
        assert rest[k] in rest;
        if rest[k] != x {
          var m :| 0 <= m < |tail| && tail[m] == rest[k];
          assert s[m + 1] == rest[k];
        }
      }
      SortedCons(s[0], rest);
    }
  }

  /** The types in (category name, short name) order, equal keys keeping their order. */
  function SortTypes(s: seq<IndicatorType>): seq<IndicatorType>
    decreases |s|
  {
    if s == [] then []
    else Insert(s[|s| - 1], SortTypes(s[..|s| - 1]))
  }

  /** Sorting sorts. */
  lemma {:induction false} SortTypesSorted(s: seq<IndicatorType>)
    ensures Sorted(SortTypes(s))
    decreases |s|
  {
    if s != [] {
      SortTypesSorted(s[..|s| - 1]);
      InsertSorted(s[|s| - 1], SortTypes(s[..|s| - 1]));
    }
  }

  /** Sorting permutes. */
  lemma {:induction false} SortTypesPermutes(s: seq<IndicatorType>)
    ensures multiset(SortTypes(s)) == multiset(s)
    decreases |s|
  {
    if s != [] {
      var init, last := s[..|s| - 1], s[|s| - 1];
      assert multiset(SortTypes(s)) == multiset(SortTypes(init)) + multiset{last} by {
        assert SortTypes(s) == Insert(last, SortTypes(init));
        InsertPermutes(last, SortTypes(init));
      }
      assert multiset(SortTypes(init)) == multiset(init) by {
        SortTypesPermutes(init);
      }
      assert multiset(s) == multiset(init) + multiset{last} by {
        assert s == init + [last];
      }
    }
  }

  /** The types of a category, in the given order. */
  function FilterByCategory(s: seq<IndicatorType>, categoryId: string): seq<IndicatorType>
    decreases |s|
  {
    if s == [] then []
    else (if s[0].category.id == categoryId then [s[0]] else []) + FilterByCategory(s[1..], categoryId)
  }

  /** The filter keeps exactly the types of the category, and keeps a sorted sequence sorted. */
  lemma {:induction false} FilterByCategoryKeeps(s: seq<IndicatorType>, categoryId: string)
    ensures forall t :: t in FilterByCategory(s, categoryId) <==> t in s && t.category.id == categoryId
    ensures Sorted(s) ==> Sorted(FilterByCategory(s, categoryId))
    decreases |s|
  {
    if s != [] {
      FilterByCategoryKeeps(s[1..], categoryId);
      var tail := FilterByCategory(s[1..], categoryId);
      if Sorted(s) {
        assert forall t :: t in tail ==> !KeyLt(t, s[0]);
      }
    }
  }

  /** Filtering commutes with a stable insertion. */
  lemma {:induction false} FilterInsert(x: IndicatorType, s: seq<IndicatorType>, categoryId: string)
    requires Sorted(s)
    ensures FilterByCategory(Insert(x, s), categoryId)
         == if x.category.id == categoryId then Insert(x, FilterByCategory(s, categoryId)) else FilterByCategory(s, categoryId)
    decreases |s|
  {
    FilterByCategoryKeeps(s, categoryId);
    if s == [] {
      assert Insert(x, s) == [x];
    } else if KeyLt(x, s[0]) {
      FilterInsertBefore(x, s, categoryId);
    } else {
      FilterInsert(x, s[1..], categoryId);
      FilterInsertAfter(x, s, categoryId);
    }
  }

  lemma FilterInsertBefore(x: IndicatorType, s: seq<IndicatorType>, categoryId: string)
    requires Sorted(s) && s != [] && KeyLt(x, s[0])
    requires forall t :: t in FilterByCategory(s, categoryId) ==> t in s
    ensures FilterByCategory(Insert(x, s), categoryId)
         == if x.category.id == categoryId then Insert(x, FilterByCategory(s, categoryId)) else FilterByCategory(s, categoryId)
  {
    var f := FilterByCategory(s, categoryId);
    assert Insert(x, s) == [x] + s;
    assert ([x] + s)[1..] == s;
    if x.category.id == categoryId && f != [] {
      assert f[0] in s;
      var k :| 0 <= k < |s| && s[k] == f[0];
      if k > 0 {
        assert !KeyLt(s[k], s[0]);
      } else {
        KeyLtIrreflexive(s[0]);
      }
      BelowNotBelow(x, s[0], f[0]);
      assert Insert(x, f) == [x] + f;
    }
  }

  lemma FilterInsertAfter(x: IndicatorType, s: seq<IndicatorType>, categoryId: string)
    requires s != [] && !KeyLt(x, s[0])
    requires FilterByCategory(Insert(x, s[1..]), categoryId)
         == if x.category.id == categoryId then Insert(x, FilterByCategory(s[1..], categoryId)) else FilterByCategory(s[1..], categoryId)
    ensures FilterByCategory(Insert(x, s), categoryId)
         == if x.category.id == categoryId then Insert(x, FilterByCategory(s, categoryId)) else FilterByCategory(s, categoryId)
  {
    var rest := Insert(x, s[1..]);
    var f1 := FilterByCategory(s[1..], categoryId);
    var head := if s[0].category.id == categoryId then [s[0]] else [];
    InsertAfterHead(x, s);
    FilterCons(s[0], rest, categoryId);
    FilterCons(s[0], s[1..], categoryId);
    assert [s[0]] + s[1..] == s;
    assert FilterByCategory(Insert(x, s), categoryId) == head + FilterByCategory(rest, categoryId);
    assert FilterByCategory(s, categoryId) == head + f1;
    if x.category.id == categoryId {
      if s[0].category.id == categoryId {
        InsertAfterHead(x, [s[0]] + f1);
        assert ([s[0]] + f1)[1..] == f1;
      } else {
        assert head + f1 == f1;
        assert head + Insert(x, f1) == Insert(x, f1);
      }
    }
  }

  lemma InsertAfterHead(x: IndicatorType, s: seq<IndicatorType>)
    requires s != [] && !KeyLt(x, s[0])
    ensures Insert(x, s) == [s[0]] + Insert(x, s[1..])
  {
  }

  lemma FilterCons(y: IndicatorType, s: seq<IndicatorType>, categoryId: string)
    ensures FilterByCategory([y] + s, categoryId)
         == (if y.category.id == categoryId then [y] else []) + FilterByCategory(s, categoryId)
  {
    assert ([y] + s)[0] == y && ([y] + s)[1..] == s;
  }

  /** Sorting then filtering is filtering then sorting. */
  lemma {:induction false} FilterSortCommute(s: seq<IndicatorType>, categoryId: string)
    ensures FilterByCategory(SortTypes(s), categoryId) == SortTypes(FilterByCategory(s, categoryId))
    decreases |s|
  {
    if s != [] {
      var init := s[..|s| - 1];
      var last := s[|s| - 1];
      FilterSortCommute(init, categoryId);
      SortTypesSorted(init);
      FilterInsert(last, SortTypes(init), categoryId);
      FilterSnoc(init, last, categoryId);
      assert s == init + [last];
      var f := FilterByCategory(init, categoryId);
      if last.category.id == categoryId {
        assert (f + [last])[..|f + [last]| - 1] == f;
        assert SortTypes(f + [last]) == Insert(last, SortTypes(f));
      } else {
        assert f + [] == f;
      }
    }
  }

  lemma {:induction false} FilterSnoc(s: seq<IndicatorType>, x: IndicatorType, categoryId: string)
    ensures FilterByCategory(s + [x], categoryId)
         == FilterByCategory(s, categoryId) + if x.category.id == categoryId then [x] else []
    decreases |s|
  {
    if s == [] {
      assert [] + [x] == [x];
    } else {
      FilterSnoc(s[1..], x, categoryId);
      assert (s + [x])[1..] == s[1..] + [x];
    }
  }

  // ---------------------------------------------------------------------------------------------
  // The service.

  /** `types.values`: the registered types in registration order. */
  function Values(services: IndicatorCategory, delivery: IndicatorCategory): (r: seq<IndicatorType>)
    ensures forall t :: t in r <==> t in Types(services, delivery).Values
  {
    var list := TypeList(services, delivery);
    AssociateByIdValues(list);
    RegistryHoldsEachTypeUnderItsId(services, delivery);
    assert forall t :: t in Types(services, delivery).Values ==> t in list;
    assert forall i :: 0 <= i < |list| ==> list[i] in Types(services, delivery).Values;
    list
  }

  /** `findAll`: every registered type once, sorted by (category name, short name). */
  function FindAll(services: IndicatorCategory, delivery: IndicatorCategory): (r: seq<IndicatorType>)
    ensures Sorted(r)
    ensures multiset(r) == multiset(Values(services, delivery))
    ensures forall t :: t in r <==> t in Types(services, delivery).Values
  {
    var values := Values(services, delivery);
    SortTypesSorted(values);
    SortTypesPermutes(values);
    var r := SortTypes(values);
    assert forall t :: t in r <==> t in multiset(values);
    r
  }

  /** Each registered type appears exactly once in `findAll`. */
  lemma FindAllListsEachTypeOnce(services: IndicatorCategory, delivery: IndicatorCategory)
    ensures |FindAll(services, delivery)| == 3
    ensures forall t :: t in Types(services, delivery).Values ==> multiset(FindAll(services, delivery))[t] == 1
  {
    var list := TypeList(services, delivery);
    RegistryHoldsEachTypeUnderItsId(services, delivery);
    assert list[0].id == SpringBoot && list[1].id == Java11Zulu && list[2].id == DockerName;
    assert forall t :: t in Types(services, delivery).Values ==> t in list;
    PermutationOfDistinct(list, FindAll(services, delivery));
  }

  /** A permutation of three distinct types has each of them once. */
  lemma PermutationOfDistinct(list: seq<IndicatorType>, r: seq<IndicatorType>)
    requires |list| == 3 && list[0] != list[1] && list[0] != list[2] && list[1] != list[2]
    requires multiset(r) == multiset(list)
    ensures |r| == 3
    ensures forall t :: t in list ==> multiset(r)[t] == 1
  {
    assert |multiset(r)| == |multiset(list)|;
    assert list == [list[0]] + [list[1]] + [list[2]];
    assert multiset(list) == multiset{list[0], list[1], list[2]};
  }

  /** `findTypeById`: the type registered under the id, if any. */
  function FindTypeById(services: IndicatorCategory, delivery: IndicatorCategory, typeId: string): (r: Option<IndicatorType>)
    ensures r.Some? <==> typeId in {SpringBoot, Java11Zulu, DockerName}
    ensures r.Some? ==> r.value.id == typeId && r.value in FindAll(services, delivery)
  {
    var types := Types(services, delivery);
    RegisteredTypeIsListed(services, delivery, typeId);
    if typeId in types then Some(types[typeId]) else None
  }

  /** A type registered under an id is listed by `findAll` and carries that id. */
  lemma RegisteredTypeIsListed(services: IndicatorCategory, delivery: IndicatorCategory, typeId: string)
    ensures typeId in Types(services, delivery) <==> typeId in {SpringBoot, Java11Zulu, DockerName}
    ensures typeId in Types(services, delivery) ==>
      Types(services, delivery)[typeId].id == typeId && Types(services, delivery)[typeId] in FindAll(services, delivery)
  {
    var types := Types(services, delivery);
    RegistryHoldsEachTypeUnderItsId(services, delivery);
    AssociateByIdValues(TypeList(services, delivery));
    if typeId in types {
      assert types[typeId] in types.Values;
    }
  }

  /** `getTypeById`: the type of `findTypeById`, and `IndicatorTypeNotFoundException` when there is none. */
  function GetTypeById(services: IndicatorCategory, delivery: IndicatorCategory, typeId: string)
    : (r: Result<IndicatorType, IndicatorTypeNotFound>)
    ensures r.Ok? <==> FindTypeById(services, delivery, typeId).Some?
    ensures r.Ok? ==> FindTypeById(services, delivery, typeId) == Some(r.value)
    ensures r.Err? ==> r.error == IndicatorTypeNotFound(typeId)
  {
    match FindTypeById(services, delivery, typeId)
    case Some(t) => Ok(t)
    case None => Err(IndicatorTypeNotFound(typeId))
  }

  /** `findByCategory`: the registered types of the category, sorted as in `findAll`. */
  function FindByCategory(services: IndicatorCategory, delivery: IndicatorCategory, category: IndicatorCategory)
    : (r: seq<IndicatorType>)
    ensures Sorted(r)
    ensures forall t :: t in r <==> t in Types(services, delivery).Values && t.category.id == category.id
  {
    var values := Values(services, delivery);
    var f := FilterByCategory(values, category.id);
    FilterByCategoryKeeps(values, category.id);
    SortTypesSorted(f);
    SortTypesPermutes(f);
    var r := SortTypes(f);
    assert forall t :: t in r <==> t in multiset(f);
    r
  }

  /** `findByCategory` is `findAll` restricted to the category, in the same order. */
  lemma FindByCategoryIsFilteredFindAll(services: IndicatorCategory, delivery: IndicatorCategory, category: IndicatorCategory)
    ensures FindByCategory(services, delivery, category) == FilterByCategory(FindAll(services, delivery), category.id)
  {
    FilterSortCommute(Values(services, delivery), category.id);
  }
}
