/**
 * `BasicAgreementResult`: the part of an inter-annotator agreement result that is kept per
 * chunk of documents and folded together with `merge`. A result records its type and
 * feature, the raters (`casGroupIds`), one agreement value per merged chunk, the
 * categories seen (a Java `LinkedHashSet`: insertion order, no duplicates), per-rater item
 * and non-null counts and all-null flags, and five set counters that a unitizing result
 * marks as not applicable with -1.
 *
 * The agreement values are opaque (`A`): merging only concatenates them. Categories are
 * compared with `==` (Java `equals`). Java `int` and `long` arithmetic wraps around.
 */
module BasicAgreement {
  import opened Wrappers
  import opened JavaInt
  import opened Sequences

  /** Which of the compatibility checks of `merge` failed (each throws `IllegalArgumentException`). */
  datatype MergeError = TypeMismatch | FeatureMismatch | ExcludeIncompleteMismatch | CasGroupIdsMismatch

  /** The size of a Java collection. */
  type Size = x: int | 0 <= x < 0x8000_0000

  /**
   * What `BasicAgreementResult` reads from a full agreement result (`FullAgreementResult_ImplBase`).
   * The per-rater getters of the full result are given as functions.
   */
  datatype FullAgreementResult<A, C> = FullAgreementResult(
    resultType: string,
    feature: string,
    casGroupIds: seq<string>,
    agreement: A,
    categories: seq<C>,
    empty: bool,
    itemCount: string -> Int64,
    nonNullCount: string -> Int64,
    allNull: string -> bool)

  /** The set statistics of a coding result (`FullCodingAgreementResult`): three list sizes and two counts. */
  datatype CodingSets = CodingSets(
    incompleteSetsByLabel: Size,
    incompleteSetsByPosition: Size,
    pluralitySets: Size,
    relevantSetCount: Int32,
    completeSetCount: Int32)

  // ---------------------------------------------------------------------------------
  // What a merge computes, on values
  // ---------------------------------------------------------------------------------

  /** `addAll(items)` on a `LinkedHashSet` holding `present`: each new item is appended once. */
  function OrderedUnion<C(==)>(present: seq<C>, items: seq<C>): (r: seq<C>)
    ensures |present| <= |r| <= |present| + |items|
    decreases |items|
  {
    if items == [] then present
    else
      var u := OrderedUnion(present, items[..|items| - 1]);
      var x := items[|items| - 1];
      if x in u then u else u + [x]
  }

  /** The insertion-ordered union keeps the old elements in their old order, at the front. */
  lemma {:induction false} OrderedUnionPrefix<C>(present: seq<C>, items: seq<C>)
    ensures var r := OrderedUnion(present, items); |present| <= |r| && r[..|present|] == present
    decreases |items|
  {
    if items != [] {
      OrderedUnionPrefix(present, items[..|items| - 1]);
    }
  }

  /** An element is in the union exactly when it was present or is one of the items. */
  lemma {:induction false} OrderedUnionElements<C>(present: seq<C>, items: seq<C>)
    ensures forall x :: x in OrderedUnion(present, items) <==> x in present || x in items
    decreases |items|
  {
    if items != [] {
      var init := items[..|items| - 1];
      OrderedUnionElements(present, init);
      assert items == init + [items[|items| - 1]];
    }
  }

  /** Adding to a set never duplicates an element. */
  lemma {:induction false} OrderedUnionNoDuplicates<C>(present: seq<C>, items: seq<C>)
    requires NoDuplicates(present)
    ensures NoDuplicates(OrderedUnion(present, items))
    decreases |items|
  {
    if items != [] {
      OrderedUnionNoDuplicates(present, items[..|items| - 1]);
    }
  }

  /** The appended elements come from `items`, in the order in which `items` lists them. */
  lemma {:induction false} OrderedUnionAppendsInOrder<C>(present: seq<C>, items: seq<C>)
    ensures |present| <= |OrderedUnion(present, items)|
    ensures IsSubsequence(OrderedUnion(present, items)[|present|..], items)
    decreases |items|
  {
    OrderedUnionPrefix(present, items);
    var r := OrderedUnion(present, items);
    if items == [] {
      assert r[|present|..] == [];
    } else {
      var init := items[..|items| - 1];
      var u := OrderedUnion(present, init);
      var x := items[|items| - 1];
      OrderedUnionAppendsInOrder(present, init);
      if x in u {
        assert r == u;
        SubsequenceOfPrefix(u[|present|..], init, x);
      } else {
        assert r == u + [x];
        var added := r[|present|..];
        assert added == u[|present|..] + [x];
        assert added[..|added| - 1] == u[|present|..];
      }
    }
  }

  /** A subsequence of all but the last element is a subsequence of the whole. */
  lemma SubsequenceOfPrefix<C>(s: seq<C>, init: seq<C>, x: C)
    requires IsSubsequence(s, init)
    ensures IsSubsequence(s, init + [x])
  {
    assert (init + [x])[..|init|] == init;
  }

  /** Merging in two steps is merging once with both item lists. */
  lemma {:induction false} OrderedUnionConcat<C>(present: seq<C>, b: seq<C>, c: seq<C>)
    ensures OrderedUnion(OrderedUnion(present, b), c) == OrderedUnion(present, b + c)
    decreases |c|
  {
    if c == [] {
      assert b + c == b;
    } else {
      var init := c[..|c| - 1];
      OrderedUnionConcat(present, b, init);
      assert (b + c)[..|b + c| - 1] == b + init;
      assert (b + c)[|b + c| - 1] == c[|c| - 1];
    }
  }

  /** Adding items that are all present already changes nothing (so merging a result's categories into themselves). */
  lemma {:induction false} OrderedUnionOfPresent<C>(present: seq<C>, items: seq<C>)
    requires forall x :: x in items ==> x in present
    ensures OrderedUnion(present, items) == present
    decreases |items|
  {
    if items != [] {
      var init := items[..|items| - 1];
      assert forall x :: x in init ==> x in items;
      OrderedUnionOfPresent(present, init);
    }
  }

  /** `map.merge(key, value, f)` for every entry of `n`, applied to `m`. */
  function MergeMaps<V>(m: map<string, V>, n: map<string, V>, f: (V, V) -> V): (r: map<string, V>)
    ensures r.Keys == m.Keys + n.Keys
  {
    map k | k in m.Keys + n.Keys :: MergedValue(m, n, f, k)
  }

  /** The value `map.merge` leaves under `k`: combined when both maps have `k`, otherwise the one there is. */
  function MergedValue<V>(m: map<string, V>, n: map<string, V>, f: (V, V) -> V, k: string): V
    requires k in m || k in n
  {
    if k in m && k in n then f(m[k], n[k]) else if k in n then n[k] else m[k]
  }

  function Or(a: bool, b: bool): bool { a || b }

  /** `map.getOrDefault(key, default)`. */
  function GetOrDefault<V>(m: map<string, V>, key: string, default: V): V
  {
    if key in m then m[key] else default
  }

  /** After merging two count maps, every rater's count is the sum, an absent rater counting 0. */
  lemma MergedCountIsSum(m: map<string, Int64>, n: map<string, Int64>, rater: string)
    ensures GetOrDefault(MergeMaps(m, n, AddLong), rater, 0)
      == AddLong(GetOrDefault(m, rater, 0), GetOrDefault(n, rater, 0))
  {
  }

  /**
   * After merging all-null flags: OR where both have the rater, the other's flag where only it
   * has one, the receiver's where only it has one, and the default `true` where neither has.
   */
  lemma MergedAllNull(m: map<string, bool>, n: map<string, bool>, rater: string)
    ensures var r := MergeMaps(m, n, Or);
      && (rater in m && rater in n ==> r[rater] == (m[rater] || n[rater]))
      && (rater !in m && rater in n ==> r[rater] == n[rater])
      && (rater in m && rater !in n ==> r[rater] == m[rater])
      && (rater !in m && rater !in n ==> GetOrDefault(r, rater, true))
  {
  }

  /** One of the five set counters after a merge: added only when neither side is "not applicable". */
  function MergeCounter(mine: Int32, theirs: Int32): Int32
  {
    if mine >= 0 && theirs >= 0 then AddInt(mine, theirs) else mine
  }

  /** The counter value after merging a sequence of results one after the other. */
  function MergeCounters(mine: Int32, theirs: seq<Int32>): Int32
    decreases |theirs|
  {
    if theirs == [] then mine else MergeCounters(MergeCounter(mine, theirs[0]), theirs[1..])
  }

  /** A "not applicable" counter (negative, as a unitizing result's -1) survives any number of merges. */
  lemma {:induction false} NotApplicableSurvives(mine: Int32, theirs: seq<Int32>)
    requires mine < 0
    ensures MergeCounters(mine, theirs) == mine
    decreases |theirs|
  {
    if theirs != [] {
      NotApplicableSurvives(MergeCounter(mine, theirs[0]), theirs[1..]);
    }
  }

  /** Non-negative counters that stay within `int` range add up over a sequence of merges. */
  lemma {:induction false} ApplicableCountersAdd(mine: Int32, theirs: seq<Int32>)
    requires mine >= 0 && forall i :: 0 <= i < |theirs| ==> theirs[i] >= 0
    requires mine + Sum(theirs) < 0x8000_0000
    ensures MergeCounters(mine, theirs) == mine + Sum(theirs)
    decreases |theirs|
  {
    if theirs != [] {
      SumNonNegative(theirs[1..]);
      ApplicableCountersAdd(MergeCounter(mine, theirs[0]), theirs[1..]);
    }
  }

  function Sum(xs: seq<int>): int
    decreases |xs|
  {
    if xs == [] then 0 else xs[0] + Sum(xs[1..])
  }

  lemma {:induction false} SumNonNegative(xs: seq<int>)
    requires forall i :: 0 <= i < |xs| ==> xs[i] >= 0
    ensures Sum(xs) >= 0
    decreases |xs|
  {
    if xs != [] {
      SumNonNegative(xs[1..]);
    }
  }

  /** The part of a result that `merge` changes, as a value. */
  datatype Tally<A, C> = Tally(
    agreements: seq<A>,
    categories: seq<C>,
    itemCounts: map<string, Int64>,
    nonNullContentCounts: map<string, Int64>,
    allNull: map<string, bool>,
    empty: bool,
    incompleteSetsByPosition: Int32,
    incompleteSetsByLabel: Int32,
    pluralitySets: Int32,
    relevantSetCount: Int32,
    completeSetCount: Int32)

  /** What `merge` makes of the receiver's tally `mine` and the other result's tally `theirs`. */
  function MergeTally<A, C(==)>(mine: Tally<A, C>, theirs: Tally<A, C>): Tally<A, C>
  {
    Tally(
      mine.agreements + theirs.agreements,
      OrderedUnion(mine.categories, theirs.categories),
      MergeMaps(mine.itemCounts, theirs.itemCounts, AddLong),
      MergeMaps(mine.nonNullContentCounts, theirs.nonNullContentCounts, AddLong),
      MergeMaps(mine.allNull, theirs.allNull, Or),
      mine.empty || theirs.empty,
      MergeCounter(mine.incompleteSetsByPosition, theirs.incompleteSetsByPosition),
      MergeCounter(mine.incompleteSetsByLabel, theirs.incompleteSetsByLabel),
      MergeCounter(mine.pluralitySets, theirs.pluralitySets),
      MergeCounter(mine.relevantSetCount, theirs.relevantSetCount),
      MergeCounter(mine.completeSetCount, theirs.completeSetCount))
  }

  // ---------------------------------------------------------------------------------
  // The loops of the constructor and of merge
  // ---------------------------------------------------------------------------------

  /** `categories.addAll(items)` / `items.forEach(categories::add)` on a `LinkedHashSet`. */
  method AddAll<C(==)>(present: seq<C>, items: seq<C>) returns (r: seq<C>)
    ensures r == OrderedUnion(present, items)
  {
    r := present;
    for i := 0 to |items|
      invariant r == OrderedUnion(present, items[..i])
    {
      assert items[..i + 1][..i] == items[..i];
      if items[i] !in r {
        r := r + [items[i]];
      }
    }
    assert items[..|items|] == items;
  }

  /** Merging one more entry of `n` is one `map.merge` call on the partial result. */
  lemma MergeMapsStep<V>(m: map<string, V>, done: map<string, V>, k: string, v: V, f: (V, V) -> V)
    requires k !in done
    ensures var r := MergeMaps(m, done, f);
      MergeMaps(m, done[k := v], f) == r[k := if k in r then f(r[k], v) else v]
  {
    var r := MergeMaps(m, done, f);
    assert k in r <==> k in m;
    assert k in m ==> r[k] == m[k];
  }

  /** `for (var e : n.entrySet()) m.merge(e.getKey(), e.getValue(), f)`. */
  method MergeAll<V>(m: map<string, V>, n: map<string, V>, f: (V, V) -> V) returns (r: map<string, V>)
    ensures r == MergeMaps(m, n, f)
  {
    r := m;
    var remaining := n.Keys;
    while remaining != {}
      invariant remaining <= n.Keys
      invariant r == MergeMaps(m, n - remaining, f)
      decreases |remaining|
    {
      var k :| k in remaining;
      assert n - (remaining - {k}) == (n - remaining)[k := n[k]];
      MergeMapsStep(m, n - remaining, k, n[k], f);
      r := r[k := if k in r then f(r[k], n[k]) else n[k]];
      remaining := remaining - {k};
    }
    assert n - remaining == n;
  }

  /**
   * Read through `getOrDefault`, the per-rater tables give the full result's values for its
   * raters, and 0, 0 and `true` for anyone else.
   */
  ghost predicate TablesFrom<A, C>(full: FullAgreementResult<A, C>, itemCounts: map<string, Int64>,
                                   nonNullCounts: map<string, Int64>, allNull: map<string, bool>)
  {
    && (forall id :: id in full.casGroupIds ==>
          && GetOrDefault(itemCounts, id, 0) == full.itemCount(id)
          && GetOrDefault(nonNullCounts, id, 0) == full.nonNullCount(id)
          && GetOrDefault(allNull, id, true) == full.allNull(id))
    && (forall rater :: rater !in full.casGroupIds ==>
          && GetOrDefault(itemCounts, rater, 0) == 0 && GetOrDefault(nonNullCounts, rater, 0) == 0
          && GetOrDefault(allNull, rater, true))
  }

  /** The per-rater tables that the constructor fills for every rater of the full result. */
  method RaterTables<A, C>(full: FullAgreementResult<A, C>)
    returns (itemCounts: map<string, Int64>, nonNullCounts: map<string, Int64>, allNull: map<string, bool>)
    ensures itemCounts.Keys == nonNullCounts.Keys == allNull.Keys == set id | id in full.casGroupIds
    ensures forall id :: id in full.casGroupIds ==>
      itemCounts[id] == full.itemCount(id) && nonNullCounts[id] == full.nonNullCount(id)
      && allNull[id] == full.allNull(id)
    ensures TablesFrom(full, itemCounts, nonNullCounts, allNull)
  {
    itemCounts, nonNullCounts, allNull := map[], map[], map[];
    for i := 0 to |full.casGroupIds|
      invariant itemCounts.Keys == nonNullCounts.Keys == allNull.Keys == set id | id in full.casGroupIds[..i]
      invariant forall id :: id in itemCounts ==>
        itemCounts[id] == full.itemCount(id) && nonNullCounts[id] == full.nonNullCount(id)
        && allNull[id] == full.allNull(id)
    {
      var id := full.casGroupIds[i];
      assert full.casGroupIds[..i + 1] == full.casGroupIds[..i] + [id];
      itemCounts := itemCounts[id := full.itemCount(id)];
      nonNullCounts := nonNullCounts[id := full.nonNullCount(id)];
      allNull := allNull[id := full.allNull(id)];
    }
    assert full.casGroupIds[..|full.casGroupIds|] == full.casGroupIds;
  }

  // ---------------------------------------------------------------------------------
  // The result object
  // ---------------------------------------------------------------------------------

  class BasicAgreementResult<A, C(==)> {
    const resultType: string
    const feature: string
    const excludeIncomplete: bool
    const casGroupIds: seq<string>

    var agreements: seq<A>
    var categories: seq<C>
    var itemCounts: map<string, Int64>
    var nonNullContentCounts: map<string, Int64>
    var allNull: map<string, bool>

    var empty: bool

    var incompleteSetsByPosition: Int32
    var incompleteSetsByLabel: Int32
    var pluralitySets: Int32
    var relevantSetCount: Int32
    var completeSetCount: Int32

    /** `categories` is a set. */
    ghost predicate Valid()
      reads this
    {
      NoDuplicates(categories)
    }

    /** The mergeable fields of this result. */
    function CurrentTally(): Tally<A, C>
      reads this
    {
      Tally(agreements, categories, itemCounts, nonNullContentCounts, allNull, empty,
            incompleteSetsByPosition, incompleteSetsByLabel, pluralitySets, relevantSetCount, completeSetCount)
    }

    /**
     * The fields that the private constructor sets from the full result. `excludeIncomplete`
     * is assigned from its own getter while still unset, so it is always `false`.
     */
    ghost predicate InitialisedFrom(full: FullAgreementResult<A, C>)
      reads this
    {
      && resultType == full.resultType
      && feature == full.feature
      && !excludeIncomplete
      && casGroupIds == full.casGroupIds
      && agreements == [full.agreement]
      && categories == OrderedUnion([], full.categories)
      && empty == full.empty
      && TablesFrom(full, itemCounts, nonNullContentCounts, allNull)
    }

    /**
     * A newly constructed result answers the getters with the full result's values for its
     * raters, and with 0, 0 and `true` for anyone else.
     */
    lemma InitialGetters(full: FullAgreementResult<A, C>, rater: string)
      requires InitialisedFrom(full)
      ensures rater in full.casGroupIds ==>
        && GetItemCount(rater) == full.itemCount(rater)
        && GetNonNullCount(rater) == full.nonNullCount(rater)
        && IsAllNull(rater) == full.allNull(rater)
      ensures rater !in full.casGroupIds ==>
        GetItemCount(rater) == 0 && GetNonNullCount(rater) == 0 && IsAllNull(rater)
    {
    }

    /** `new BasicAgreementResult(FullCodingAgreementResult)`: the set counters come from the coding result. */
    constructor Coding(full: FullAgreementResult<A, C>, sets: CodingSets)
      ensures Valid() && InitialisedFrom(full)
      ensures incompleteSetsByLabel == sets.incompleteSetsByLabel
      ensures incompleteSetsByPosition == sets.incompleteSetsByPosition
      ensures pluralitySets == sets.pluralitySets
      ensures relevantSetCount == sets.relevantSetCount
      ensures completeSetCount == sets.completeSetCount
    {
      var cats := AddAll([], full.categories);
      OrderedUnionNoDuplicates([], full.categories);
      var items, nonNull, nulls := RaterTables(full);
      resultType := full.resultType;
      feature := full.feature;
      excludeIncomplete := false;
      casGroupIds := full.casGroupIds;
      agreements := [full.agreement];
      categories := cats;
      empty := full.empty;
      itemCounts, nonNullContentCounts, allNull := items, nonNull, nulls;
      incompleteSetsByLabel := sets.incompleteSetsByLabel;
      incompleteSetsByPosition := sets.incompleteSetsByPosition;
      pluralitySets := sets.pluralitySets;
      relevantSetCount := sets.relevantSetCount;
      completeSetCount := sets.completeSetCount;
    }

    /** `new BasicAgreementResult(FullUnitizingAgreementResult)`: all five set counters are -1. */
    constructor Unitizing(full: FullAgreementResult<A, C>)
      ensures Valid() && InitialisedFrom(full)
      ensures incompleteSetsByLabel == -1 && incompleteSetsByPosition == -1 && pluralitySets == -1
      ensures relevantSetCount == -1 && completeSetCount == -1
    {
      var cats := AddAll([], full.categories);
      OrderedUnionNoDuplicates([], full.categories);
      var items, nonNull, nulls := RaterTables(full);
      resultType := full.resultType;
      feature := full.feature;
      excludeIncomplete := false;
      casGroupIds := full.casGroupIds;
      agreements := [full.agreement];
      categories := cats;
      empty := full.empty;
      itemCounts, nonNullContentCounts, allNull := items, nonNull, nulls;
      incompleteSetsByLabel := -1;
      incompleteSetsByPosition := -1;
      relevantSetCount := -1;
      completeSetCount := -1;
      pluralitySets := -1;
    }

    function GetItemCount(rater: string): Int64
      reads this
    {
      GetOrDefault(itemCounts, rater, 0)
    }

    function GetNonNullCount(rater: string): Int64
      reads this
    {
      GetOrDefault(nonNullContentCounts, rater, 0)
    }

    function IsAllNull(rater: string): bool
      reads this
    {
      GetOrDefault(allNull, rater, true)
    }

    function GetCategoryCount(): nat
      reads this
    {
      |categories|
    }

    /** The first compatibility check of `merge` that `other` fails, in the order the source makes them. */
    function MergeCheck(other: BasicAgreementResult<A, C>): (r: Outcome<MergeError>)
      ensures r.Pass? <==> (resultType == other.resultType && feature == other.feature
                            && excludeIncomplete == other.excludeIncomplete && casGroupIds == other.casGroupIds)
    {
      if resultType != other.resultType then Fail(TypeMismatch)
      else if feature != other.feature then Fail(FeatureMismatch)
      else if excludeIncomplete != other.excludeIncomplete then Fail(ExcludeIncompleteMismatch)
      else if casGroupIds != other.casGroupIds then Fail(CasGroupIdsMismatch)
      else Pass
    }

    /**
     * `merge(other)`: after the four checks, which all come before any change, append the other
     * result's agreements, add its categories, sum its counts, OR its all-null flags, OR its
     * `empty` flag and add its set counters where both are applicable. The other result's
     * state is read as it was on entry, so merging a result into itself doubles it.
     */
    method Merge(other: BasicAgreementResult<A, C>) returns (outcome: Outcome<MergeError>)
      requires Valid() && other.Valid()
      modifies this
      ensures Valid()
      ensures outcome == MergeCheck(other)
      ensures outcome.Fail? ==> unchanged(this)
      ensures outcome.Pass? ==> CurrentTally() == MergeTally(old(CurrentTally()), old(other.CurrentTally()))
    {
      outcome := MergeCheck(other);
      if outcome.Fail? {
        return;
      }
      // Everything read from `other` is read before this result changes.
      Absorb(other.CurrentTally());
    }

    /** The updates of `merge` once the checks have passed, given what the other result holds. */
    method Absorb(theirs: Tally<A, C>)
      requires Valid()
      modifies this
      ensures Valid()
      ensures CurrentTally() == MergeTally(old(CurrentTally()), theirs)
    {
      var newCategories := AddAll(categories, theirs.categories);
      OrderedUnionNoDuplicates(categories, theirs.categories);
      var newItems := MergeAll(itemCounts, theirs.itemCounts, AddLong);
      var newNonNull := MergeAll(nonNullContentCounts, theirs.nonNullContentCounts, AddLong);
      var newNulls := MergeAll(allNull, theirs.allNull, Or);
      // Each `if (mine >= 0 && theirs >= 0) mine += theirs` of the five set counters.
      var merged := Tally(
        agreements + theirs.agreements, newCategories, newItems, newNonNull, newNulls, empty || theirs.empty,
        MergeCounter(incompleteSetsByPosition, theirs.incompleteSetsByPosition),
        MergeCounter(incompleteSetsByLabel, theirs.incompleteSetsByLabel),
        MergeCounter(pluralitySets, theirs.pluralitySets),
        MergeCounter(relevantSetCount, theirs.relevantSetCount),
        MergeCounter(completeSetCount, theirs.completeSetCount));
      SetTally(merged);
    }

    /** Stores a tally in the mergeable fields. */
    method SetTally(t: Tally<A, C>)
      modifies this
      ensures CurrentTally() == t
    {
      agreements := t.agreements;
      categories := t.categories;
      itemCounts := t.itemCounts;
      nonNullContentCounts := t.nonNullContentCounts;
      allNull := t.allNull;
      empty := t.empty;
      incompleteSetsByPosition := t.incompleteSetsByPosition;
      incompleteSetsByLabel := t.incompleteSetsByLabel;
      pluralitySets := t.pluralitySets;
      relevantSetCount := t.relevantSetCount;
      completeSetCount := t.completeSetCount;
    }
  }
}
