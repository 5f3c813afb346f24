/** `CoverageFilterProviderImpl`: the dotCover module filters and attribute
    filters handed to the coverage tool, built from the runner's filter
    parameters (converted by an external converter), with the defaults the
    provider adds around them. */
module CoverageFilters {
  import opened Common

  datatype FilterType = Include | Exclude

  /** Kotlin's `CoverageFilter` data class (`type` is renamed `filterType`). */
  datatype CoverageFilter = CoverageFilter(
    filterType: FilterType,
    defaultMask: string,
    moduleMask: string,
    classMask: string,
    functionMask: string)

  /** `CoverageFilter.Any`, the mask that matches everything. */
  const Any: string := "*"

  /** The module mask of the filter form older configurations used for
      "everything". */
  const OutdatedAnyMask: string := "*.*"

  const DefaultIncludeFilters: seq<CoverageFilter> :=
    [CoverageFilter(Include, Any, Any, Any, Any)]

  const DefaultExcludeFilters: seq<CoverageFilter> := [
    CoverageFilter(Exclude, Any, "TeamCity.VSTest.TestAdapter", Any, Any),
    CoverageFilter(Exclude, Any, "TeamCity.MSBuild.Logger", Any, Any),
    CoverageFilter(Exclude, Any, Any, "AutoGeneratedProgram", Any)]

  const DefaultExcludeAttributeFilters: seq<CoverageFilter> :=
    [CoverageFilter(Exclude, Any, Any, "System.Diagnostics.CodeAnalysis.ExcludeFromCodeCoverageAttribute", Any)]

  // ---------------------------------------------------------------------
  // Masks and the two per-filter conversions

  /** `getMask`: `Any` stands for "use the default". */
  function GetMask(mask: string, defaultMask: string): (r: string)
    ensures mask == Any ==> r == defaultMask
    ensures mask != Any ==> r == mask
  {
    if Any == mask then defaultMask else mask
  }

  /** The resolved mask is `Any` exactly when both the mask and its default
      are. */
  lemma GetMaskIsAny(mask: string, defaultMask: string)
    ensures GetMask(mask, defaultMask) == Any <==> mask == Any && defaultMask == Any
  {
  }

  /** `toModuleFilter`: the default mask is folded into the module mask. */
  function ToModuleFilter(f: CoverageFilter): (r: CoverageFilter)
    ensures r.filterType == f.filterType
    ensures r.defaultMask == Any
    ensures r.moduleMask == GetMask(f.moduleMask, f.defaultMask)
    ensures r.classMask == f.classMask && r.functionMask == f.functionMask
  {
    CoverageFilter(f.filterType, Any, GetMask(f.moduleMask, f.defaultMask), f.classMask, f.functionMask)
  }

  /** `toAttributeFilter`: only the type and the class mask (with the
      default folded in) survive. */
  function ToAttributeFilter(f: CoverageFilter): (r: CoverageFilter)
    ensures r.filterType == f.filterType
    ensures r.defaultMask == Any && r.moduleMask == Any && r.functionMask == Any
    ensures r.classMask == GetMask(f.classMask, f.defaultMask)
  {
    CoverageFilter(f.filterType, Any, Any, GetMask(f.classMask, f.defaultMask), Any)
  }

  // ---------------------------------------------------------------------
  // The extra "everything" filter next to an outdated one

  /** The filter `(type, Any, "*.*", Any, Any)` looked for. */
  function Outdated(t: FilterType): CoverageFilter {
    CoverageFilter(t, Any, OutdatedAnyMask, Any, Any)
  }

  /** The all-`Any` filter inserted before it. */
  function Additional(t: FilterType): CoverageFilter {
    CoverageFilter(t, Any, Any, Any, Any)
  }

  /** The list without its element at `i`. */
  function RemoveAt<T>(s: seq<T>, i: int): seq<T>
    requires 0 <= i < |s|
  {
    s[..i] + s[i + 1..]
  }

  /** If the outdated filter of type `t` occurs, the all-`Any` filter of
      type `t` sits immediately before its first occurrence. */
  predicate AdditionalBeforeOutdated(s: seq<CoverageFilter>, t: FilterType) {
    Outdated(t) in s ==>
      0 < IndexOf(s, Outdated(t)) && s[IndexOf(s, Outdated(t)) - 1] == Additional(t)
  }

  /** `addAdditionalAnyFilterWhenHasOutdatedAnyFilter`: Java's
      `add(index, element)` at the first outdated filter of type `t`. */
  function AddAdditional(filters: seq<CoverageFilter>, t: FilterType): (r: seq<CoverageFilter>)
    ensures Outdated(t) !in filters ==> r == filters
    ensures Outdated(t) in filters ==> |r| == |filters| + 1
    ensures forall x :: x in r <==> x in filters || (x == Additional(t) && Outdated(t) in filters)
    ensures AdditionalBeforeOutdated(r, t)
    ensures Outdated(t) in filters ==> RemoveAt(r, IndexOf(r, Outdated(t)) - 1) == filters
  {
    var i := IndexOf(filters, Outdated(t));
    if i >= 0 then
      var r := filters[..i] + [Additional(t)] + filters[i..];
      InsertedBefore(filters, i, t);
      r
    else
      filters
  }

  lemma InsertedBefore(filters: seq<CoverageFilter>, i: int, t: FilterType)
    requires 0 <= i < |filters| && filters[i] == Outdated(t) && Outdated(t) !in filters[..i]
    ensures var r := filters[..i] + [Additional(t)] + filters[i..];
      IndexOf(r, Outdated(t)) == i + 1 && r[i] == Additional(t)
      && RemoveAt(r, i) == filters
      && forall x :: x in r <==> x in filters || x == Additional(t)
  {
    var r := filters[..i] + [Additional(t)] + filters[i..];
    assert r[..i + 1] == filters[..i] + [Additional(t)];
    IndexOfUnique(r, Outdated(t), i + 1);
    assert r[..i] == filters[..i] && r[i + 1..] == filters[i..];
    assert filters == filters[..i] + filters[i..];
  }

  /** Inserting `a` anywhere but at `i`, the first occurrence of `x`, keeps
      the element just before that occurrence. */
  lemma InsertKeepsPredecessor<T>(s: seq<T>, j: int, a: T, x: T, i: int)
    requires 0 <= j <= |s| && x != a
    requires 0 < i < |s| && s[i] == x && x !in s[..i] && i != j
    ensures var r := s[..j] + [a] + s[j..];
      0 < IndexOf(r, x) && r[IndexOf(r, x) - 1] == s[i - 1]
  {
    if i < j {
      InsertAfter(s, j, a, x, i);
    } else {
      ShiftedIndex(s, j, a, x, i);
    }
  }

  lemma InsertAfter<T>(s: seq<T>, j: int, a: T, x: T, i: int)
    requires 0 < i < j <= |s| && s[i] == x && x !in s[..i]
    ensures var r := s[..j] + [a] + s[j..];
      0 < IndexOf(r, x) && r[IndexOf(r, x) - 1] == s[i - 1]
  {
    var r := s[..j] + [a] + s[j..];
    InsertKeepsPrefix(s, j, a, i);
    assert r[i - 1] == s[i - 1] && r[i] == s[i];
    IndexOfUnique(r, x, i);
  }

  /** Inserting at `j` leaves the first `i <= j` elements in place. */
  lemma InsertKeepsPrefix<T>(s: seq<T>, j: int, a: T, i: int)
    requires 0 <= i <= j <= |s|
    ensures (s[..j] + [a] + s[j..])[..i] == s[..i]
  {
    var r := s[..j] + [a] + s[j..];
    assert forall k :: 0 <= k < i ==> r[k] == s[k];
  }

  lemma ShiftedIndex<T>(s: seq<T>, j: int, a: T, x: T, i: int)
    requires 0 <= j < i < |s| && s[i] == x && x !in s[..i] && x != a
    ensures var r := s[..j] + [a] + s[j..];
      0 < IndexOf(r, x) && r[IndexOf(r, x) - 1] == s[i - 1]
  {
    var r := s[..j] + [a] + s[j..];
    ShiftedPrefix(s, j, a, x, i);
    IndexOfUnique(r, x, i + 1);
  }

  lemma ShiftedPrefix<T>(s: seq<T>, j: int, a: T, x: T, i: int)
    requires 0 <= j < i < |s| && s[i] == x && x !in s[..i] && x != a
    ensures var r := s[..j] + [a] + s[j..];
      r[i + 1] == x && x !in r[..i + 1] && r[i] == s[i - 1]
  {
    var r := s[..j] + [a] + s[j..];
    assert r[..i + 1] == s[..j] + [a] + s[j..i];
    assert s[..i] == s[..j] + s[j..i];
  }

  /** Inserting for one type leaves the arrangement for the other type as
      it was. */
  lemma AddAdditionalKeepsOther(s: seq<CoverageFilter>, t: FilterType, u: FilterType)
    requires t != u && AdditionalBeforeOutdated(s, t)
    ensures AdditionalBeforeOutdated(AddAdditional(s, u), t)
  {
    var j := IndexOf(s, Outdated(u));
    if j >= 0 && Outdated(t) in s {
      assert AddAdditional(s, u) == s[..j] + [Additional(u)] + s[j..];
      assert s[j] == Outdated(u) && s[IndexOf(s, Outdated(t))] == Outdated(t);
      InsertKeepsPredecessor(s, j, Additional(u), Outdated(t), IndexOf(s, Outdated(t)));
    }
  }

  /** Appending filters that are not outdated ones keeps the arrangement. */
  lemma AppendKeepsArrangement(s: seq<CoverageFilter>, u: seq<CoverageFilter>, t: FilterType)
    requires AdditionalBeforeOutdated(s, t) && Outdated(t) !in u
    ensures AdditionalBeforeOutdated(s + u, t)
  {
    if Outdated(t) in s {
      IndexOfAppend(s, u, Outdated(t));
    }
  }

  // ---------------------------------------------------------------------
  // `filters`

  /** The converted filters of the parameter, in module form; none when the
      parameter is absent. */
  function Converted(parameter: Option<string>, convert: string -> seq<CoverageFilter>): (r: seq<CoverageFilter>)
    ensures parameter.None? ==> r == []
    ensures parameter.Some? ==> |r| == |convert(parameter.value)|
    ensures parameter.Some? ==>
      forall k :: 0 <= k < |r| ==> r[k] == ToModuleFilter(convert(parameter.value)[k])
  {
    match parameter
    case None => []
    case Some(value) =>
      var fs := convert(value);
      seq(|fs|, k requires 0 <= k < |fs| => ToModuleFilter(fs[k]))
  }

  /** The list before the outdated-filter fix-up: the converted filters, or
      the single include-everything filter when there are none. */
  function Initial(parameter: Option<string>, convert: string -> seq<CoverageFilter>): seq<CoverageFilter> {
    var converted := Converted(parameter, convert);
    if |converted| == 0 then DefaultIncludeFilters + converted else converted
  }

  /** The whole `filters` list. */
  function FiltersOf(parameter: Option<string>, convert: string -> seq<CoverageFilter>): seq<CoverageFilter> {
    AddAdditional(AddAdditional(Initial(parameter, convert), Include), Exclude) + DefaultExcludeFilters
  }

  /** `filters`: the getter fills a fresh list in place. */
  method Filters(parameter: Option<string>, convert: string -> seq<CoverageFilter>)
    returns (r: seq<CoverageFilter>)
    ensures r == FiltersOf(parameter, convert)
  {
    var filters: seq<CoverageFilter> := [];
    if parameter.Some? {
      var fs := convert(parameter.value);
      var mapped := seq(|fs|, k requires 0 <= k < |fs| => ToModuleFilter(fs[k]));
      for i := 0 to |mapped|
        invariant filters == mapped[..i]
      {
        filters := filters + [mapped[i]];
      }
      assert mapped[..|mapped|] == mapped;
    }
    if |filters| == 0 {
      filters := DefaultIncludeFilters + filters;
    }
    filters := AddAdditional(filters, Include);
    filters := AddAdditional(filters, Exclude);
    filters := filters + DefaultExcludeFilters;
    r := filters;
  }

  /** The last three filters are always the default excludes. */
  lemma FiltersEndWithDefaultExcludes(parameter: Option<string>, convert: string -> seq<CoverageFilter>)
    ensures var r := FiltersOf(parameter, convert);
      |r| >= 4 && r[|r| - 3..] == DefaultExcludeFilters
  {
    var r := FiltersOf(parameter, convert);
    var s := AddAdditional(AddAdditional(Initial(parameter, convert), Include), Exclude);
    assert |s| >= 1;
    assert r[|r| - 3..] == r[|s|..];
  }

  /** Without converted filters the list is the include-everything filter
      followed by the default excludes. */
  lemma FiltersWithoutConverted(parameter: Option<string>, convert: string -> seq<CoverageFilter>)
    requires Converted(parameter, convert) == []
    ensures FiltersOf(parameter, convert) == DefaultIncludeFilters + DefaultExcludeFilters
  {
    assert Initial(parameter, convert) == DefaultIncludeFilters;
    assert Outdated(Include) !in DefaultIncludeFilters;
    assert Outdated(Exclude) !in DefaultIncludeFilters;
  }

  /** Without outdated filters nothing is inserted. */
  lemma FiltersWithoutOutdated(parameter: Option<string>, convert: string -> seq<CoverageFilter>)
    requires Outdated(Include) !in Initial(parameter, convert)
    requires Outdated(Exclude) !in Initial(parameter, convert)
    ensures FiltersOf(parameter, convert) == Initial(parameter, convert) + DefaultExcludeFilters
  {
  }

  /** For each type, an all-`Any` filter stands immediately before the first
      outdated filter of that type. */
  lemma FiltersArrangeOutdated(parameter: Option<string>, convert: string -> seq<CoverageFilter>, t: FilterType)
    ensures AdditionalBeforeOutdated(FiltersOf(parameter, convert), t)
  {
    var s1 := AddAdditional(Initial(parameter, convert), Include);
    var s2 := AddAdditional(s1, Exclude);
    if t == Include {
      AddAdditionalKeepsOther(s1, Include, Exclude);
    }
    assert Outdated(t) !in DefaultExcludeFilters;
    AppendKeepsArrangement(s2, DefaultExcludeFilters, t);
  }

  /** The length of `filters`: the converted filters (at least one), one per
      type that has an outdated filter, and the three default excludes. */
  lemma FiltersLength(parameter: Option<string>, convert: string -> seq<CoverageFilter>)
    ensures var n := |Converted(parameter, convert)|;
      var initial := Initial(parameter, convert);
      |FiltersOf(parameter, convert)|
        == (if n == 0 then 1 else n)
        + (if Outdated(Include) in initial then 1 else 0)
        + (if Outdated(Exclude) in initial then 1 else 0)
        + 3
  {
    var initial := Initial(parameter, convert);
    var s1 := AddAdditional(initial, Include);
    assert Outdated(Exclude) in s1 <==> Outdated(Exclude) in initial;
  }

  // ---------------------------------------------------------------------
  // `attributeFilters`

  /** The attribute filters kept from the parameter: exclusions that name a
      class. */
  predicate KeepsAttribute(f: CoverageFilter) {
    f.filterType == Exclude && Any != f.classMask
  }

  /** A converted filter that `attributeFilters` keeps: an exclusion whose
      class mask, resolved against its default, is not `Any`. */
  predicate IsAttributeExclusion(f: CoverageFilter) {
    f.filterType == Exclude && GetMask(f.classMask, f.defaultMask) != Any
  }

  /** The converted filters in attribute form, in order. */
  function AttributeForms(fs: seq<CoverageFilter>): (r: seq<CoverageFilter>)
    ensures |r| == |fs|
    ensures forall k :: 0 <= k < |fs| ==> r[k] == ToAttributeFilter(fs[k])
  {
    seq(|fs|, k requires 0 <= k < |fs| => ToAttributeFilter(fs[k]))
  }

  /** `attributeFilters`. */
  function AttributeFilters(parameter: Option<string>, convert: string -> seq<CoverageFilter>): (r: seq<CoverageFilter>)
    ensures |r| >= 1 && r[|r| - 1] == DefaultExcludeAttributeFilters[0]
    ensures forall k :: 0 <= k < |r| - 1 ==> r[k].filterType == Exclude && r[k].classMask != Any
    ensures parameter.None? ==> r == DefaultExcludeAttributeFilters
  {
    var converted := match parameter
      case None => []
      case Some(value) => AttributeForms(convert(value));
    var kept := Filter(converted, KeepsAttribute);
    assert forall k :: 0 <= k < |kept| ==> kept[k] in kept;
    kept + DefaultExcludeAttributeFilters
  }

  /** The kept filters are the attribute forms of the converted filters
      that `IsAttributeExclusion` picks, in the order of the positions it
      picks them at (all of them, each once, increasing), then the default
      attribute filter. */
  lemma AttributeFiltersInOrder(value: string, convert: string -> seq<CoverageFilter>)
    ensures var fs := convert(value);
      var r := AttributeFilters(Some(value), convert);
      var at := PositionsFrom(fs, IsAttributeExclusion, 0);
      |r| == |at| + 1 && forall k :: 0 <= k < |at| ==> r[k] == ToAttributeFilter(fs[at[k]])
  {
    var fs := convert(value);
    var converted := AttributeForms(fs);
    assert converted[0..] == converted;
    FilterAtPositions(converted, KeepsAttribute, 0);
    PositionsAgree(converted, KeepsAttribute, fs, IsAttributeExclusion, 0);
  }

  /** A converted exclusion whose resolved class mask is not `Any` is
      kept. */
  lemma AttributeFilterKept(value: string, convert: string -> seq<CoverageFilter>, f: CoverageFilter)
    requires f in convert(value)
    requires f.filterType == Exclude && GetMask(f.classMask, f.defaultMask) != Any
    ensures ToAttributeFilter(f) in AttributeFilters(Some(value), convert)
  {
    var fs := convert(value);
    var converted := seq(|fs|, k requires 0 <= k < |fs| => ToAttributeFilter(fs[k]));
    var k :| 0 <= k < |fs| && fs[k] == f;
    assert converted[k] == ToAttributeFilter(f);
  }
}
