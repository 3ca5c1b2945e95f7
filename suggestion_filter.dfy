/**
 * What the suggestion filters of the active-learning service compute, stated on values:
 * duplicate removal within a group, hiding by the learning history, and the search for a
 * visible suggestion that matches a record.
 */
module SuggestionFilter {
  import opened Wrappers
  import opened Sequences
  import opened RecommendationModel

  // ---------------------------------------------------------------------------------
  // Duplicate removal
  // ---------------------------------------------------------------------------------

  /**
   * `item` duplicates the kept suggestion `existing`: same recommender, `existing`'s label
   * equals `item`'s label (asked of `existing`), same document.
   */
  predicate IsDuplicateOf(existing: SpanSuggestion, item: SpanSuggestion)
  {
    existing.recommenderName == item.recommenderName
    && existing.LabelEquals(item.suggestedLabel)
    && existing.documentName == item.documentName
  }

  /** `isAlreadyInCleanList`: some suggestion of `clean` is one that `item` duplicates. */
  function IsAlreadyInCleanList(clean: seq<SpanSuggestion>, item: SpanSuggestion): (r: bool)
    ensures r <==> exists i :: 0 <= i < |clean| && IsDuplicateOf(clean[i], item)
    decreases |clean|
  {
    if clean == [] then false
    else if IsDuplicateOf(clean[0], item) then true
    else
      var rest := IsAlreadyInCleanList(clean[1..], item);
      assert forall i :: 1 <= i < |clean| ==> clean[i] == clean[1..][i - 1];
      rest
  }

  /** What `removeDuplicateRecommendations` returns: each item is added unless a kept one duplicates it. */
  function Deduplicated(group: seq<SpanSuggestion>): (r: seq<SpanSuggestion>)
    ensures |r| <= |group|
    ensures group != [] ==> r != [] && r[0] == group[0]
    decreases |group|
  {
    if group == [] then []
    else
      var clean := Deduplicated(group[..|group| - 1]);
      var item := group[|group| - 1];
      if IsAlreadyInCleanList(clean, item) then clean else clean + [item]
  }

  /** No kept suggestion duplicates an earlier kept one. */
  predicate DuplicateFree(s: seq<SpanSuggestion>)
  {
    forall i, j :: 0 <= i < j < |s| ==> !IsDuplicateOf(s[i], s[j])
  }

  /** The result lists some of the group's suggestions, in the group's order. */
  lemma {:induction false} DeduplicatedIsSubsequence(group: seq<SpanSuggestion>)
    ensures IsSubsequence(Deduplicated(group), group)
    decreases |group|
  {
    if group != [] {
      var init := group[..|group| - 1];
      var clean := Deduplicated(init);
      DeduplicatedIsSubsequence(init);
      if !IsAlreadyInCleanList(clean, group[|group| - 1]) {
        var r := clean + [group[|group| - 1]];
        assert r[..|r| - 1] == clean;
      } else if clean != [] {
        assert IsSubsequence(clean, init);
      }
    }
  }

  /** No suggestion of the result duplicates an earlier one. */
  lemma {:induction false} DeduplicatedIsDuplicateFree(group: seq<SpanSuggestion>)
    ensures DuplicateFree(Deduplicated(group))
    decreases |group|
  {
    if group != [] {
      DeduplicatedIsDuplicateFree(group[..|group| - 1]);
    }
  }

  /** Every suggestion of the group is kept, or a kept suggestion is one it duplicates. */
  lemma {:induction false} DeduplicatedCovers(group: seq<SpanSuggestion>)
    ensures forall k :: 0 <= k < |group| ==>
      group[k] in Deduplicated(group) || IsAlreadyInCleanList(Deduplicated(group), group[k])
    decreases |group|
  {
    if group != [] {
      var init := group[..|group| - 1];
      DeduplicatedCovers(init);
      var clean := Deduplicated(init);
      forall k | 0 <= k < |group|
        ensures group[k] in Deduplicated(group) || IsAlreadyInCleanList(Deduplicated(group), group[k])
      {
        if k < |init| {
          assert group[k] == init[k];
          if group[k] !in clean {
            var i :| 0 <= i < |clean| && IsDuplicateOf(clean[i], group[k]);
            assert Deduplicated(group)[i] == clean[i];
          }
        }
      }
    }
  }

  /** The result for a prefix of the group is a prefix of the result for the group: later items never remove kept ones. */
  lemma {:induction false} DeduplicatedPrefix(group: seq<SpanSuggestion>, k: nat)
    requires k <= |group|
    ensures Deduplicated(group[..k]) <= Deduplicated(group)
    decreases |group|
  {
    if k < |group| {
      var init := group[..|group| - 1];
      DeduplicatedPrefix(init, k);
      assert init[..k] == group[..k];
    } else {
      assert group[..k] == group;
    }
  }

  /**
   * Which duplicate survives: the item at position `k` is kept, right after what the earlier
   * items left, exactly when no suggestion kept from the earlier items duplicates it; otherwise
   * the earlier items' result does not grow. So a dropped item is covered by an EARLIER kept one.
   */
  lemma DeduplicatedKeepsFirst(group: seq<SpanSuggestion>, k: nat)
    requires k < |group|
    ensures var before := Deduplicated(group[..k]);
      && (!IsAlreadyInCleanList(before, group[k]) ==> before + [group[k]] <= Deduplicated(group))
      && (IsAlreadyInCleanList(before, group[k]) ==> Deduplicated(group[..k + 1]) == before)
    ensures group[k] !in Deduplicated(group) ==> IsAlreadyInCleanList(Deduplicated(group[..k]), group[k])
  {
    var before := Deduplicated(group[..k]);
    var upTo := group[..k + 1];
    assert upTo[..|upTo| - 1] == group[..k] && upTo[|upTo| - 1] == group[k];
    assert Deduplicated(upTo) == if IsAlreadyInCleanList(before, group[k]) then before else before + [group[k]];
    DeduplicatedPrefix(group, k + 1);
    if !IsAlreadyInCleanList(before, group[k]) {
      assert Deduplicated(group)[|before|] == group[k];
    }
  }

  /** A list without duplicates is left as it is. */
  lemma {:induction false} DuplicateFreeUnchanged(s: seq<SpanSuggestion>)
    requires DuplicateFree(s)
    ensures Deduplicated(s) == s
    decreases |s|
  {
    if s != [] {
      var init := s[..|s| - 1];
      assert DuplicateFree(init);
      DuplicateFreeUnchanged(init);
      assert s == init + [s[|s| - 1]];
    }
  }

  /** Removing duplicates twice removes nothing more. */
  lemma DeduplicatedIdempotent(group: seq<SpanSuggestion>)
    ensures Deduplicated(Deduplicated(group)) == Deduplicated(group)
  {
    DeduplicatedIsDuplicateFree(group);
    DuplicateFreeUnchanged(Deduplicated(group));
  }

  /** The suggestion objects held by a list of groups. */
  ghost function Members(groups: seq<SuggestionGroup>): set<SpanSuggestion>
  {
    set s | s in Flatten(groups)
  }

  lemma MemberAt(groups: seq<SuggestionGroup>, i: int, j: int)
    requires 0 <= i < |groups| && 0 <= j < |groups[i]|
    ensures groups[i][j] in Members(groups)
  {
    FlattenMembers(groups);
  }

  /** Every group of a list, de-duplicated (the `map` step of `generateNextSuggestion`). */
  function DeduplicatedGroups(groups: seq<SuggestionGroup>): (r: seq<SuggestionGroup>)
    ensures |r| == |groups|
    ensures forall i :: 0 <= i < |groups| ==> r[i] == Deduplicated(groups[i])
  {
    seq(|groups|, i requires 0 <= i < |groups| => Deduplicated(groups[i]))
  }

  /** The de-duplicated groups hold no suggestion that the original groups did not. */
  lemma DeduplicatedGroupsMember(groups: seq<SuggestionGroup>, s: SpanSuggestion)
    requires s in Flatten(DeduplicatedGroups(groups))
    ensures s in Flatten(groups)
  {
    var r := DeduplicatedGroups(groups);
    FlattenMembers(r);
    assert exists i :: 0 <= i < |r| && s in r[i];
    var i :| 0 <= i < |r| && s in r[i];
    DeduplicatedIsSubsequence(groups[i]);
    SubsequenceElements(r[i], groups[i]);
    FlattenMembers(groups);
  }

  // ---------------------------------------------------------------------------------
  // Hiding by the learning history
  // ---------------------------------------------------------------------------------

  /**
   * The filter of `hideRejectedOrSkippedAnnotations`: same document name, same offsets,
   * and the suggestion's label equals the record's annotation. Neither the feature nor the
   * record's action is compared.
   */
  predicate RecordMatches(r: LearningRecord, s: SpanSuggestion)
  {
    r.sourceDocument.name == s.documentName
    && r.offsetBegin == s.begin
    && r.offsetEnd == s.end
    && s.LabelEquals(r.annotation)
  }

  /**
   * The reason a visible suggestion is left with after `hideSuggestion` has been called with
   * the action of every matching record in turn: the action of the last matching record.
   */
  function HidingReason(records: seq<LearningRecord>, s: SpanSuggestion): (reason: Option<LearningRecordType>)
    ensures reason.None? <==> forall i :: 0 <= i < |records| ==> !RecordMatches(records[i], s)
    ensures reason.Some? ==>
              exists i :: && 0 <= i < |records| && RecordMatches(records[i], s)
                          && records[i].userAction == reason.value
                          && forall j :: i < j < |records| ==> !RecordMatches(records[j], s)
    decreases |records|
  {
    if records == [] then None
    else
      var last := records[|records| - 1];
      if RecordMatches(last, s) then Some(last.userAction)
      else
        var earlier := HidingReason(records[..|records| - 1], s);
        assert forall i :: 0 <= i < |records| - 1 ==> records[i] == records[..|records| - 1][i];
        earlier
  }

  /** The hiding state after hiding by `records`: a hidden suggestion is skipped, a visible one is hidden if a record matches. */
  function AfterHiding(records: seq<LearningRecord>, s: SpanSuggestion, before: HidingState): HidingState
  {
    if !before.visible then before
    else match HidingReason(records, s)
      case None => before
      case Some(action) => HidingState(false, Some(action))
  }

  /**
   * Hiding never shows a suggestion, and hides a visible one exactly when some record
   * matches it; a hidden suggestion keeps its state.
   */
  lemma AfterHidingSpec(records: seq<LearningRecord>, s: SpanSuggestion, before: HidingState)
    ensures var after := AfterHiding(records, s, before);
      && (after.visible <==> before.visible && forall i :: 0 <= i < |records| ==> !RecordMatches(records[i], s))
      && (!before.visible ==> after == before)
      && (before.visible && !after.visible ==>
            exists i :: && 0 <= i < |records| && RecordMatches(records[i], s)
                        && after.reasonForHiding == Some(records[i].userAction))
  {
  }

  /** Hiding again with the same records changes nothing. */
  lemma AfterHidingIdempotent(records: seq<LearningRecord>, s: SpanSuggestion, before: HidingState)
    ensures AfterHiding(records, s, AfterHiding(records, s, before)) == AfterHiding(records, s, before)
  {
  }

  /** A suggestion hidden by some records stays hidden, with the same reason, whatever records come later. */
  lemma HiddenStaysHidden(records: seq<LearningRecord>, later: seq<LearningRecord>, s: SpanSuggestion, before: HidingState)
    requires !AfterHiding(records, s, before).visible
    ensures AfterHiding(later, s, AfterHiding(records, s, before)) == AfterHiding(records, s, before)
  {
  }

  /** The hiding state of every suggestion of a group, in order. */
  function GroupStates(group: SuggestionGroup): (r: seq<HidingState>)
    reads set s | s in group
    ensures |r| == |group| && forall j :: 0 <= j < |group| ==> r[j] == group[j].State()
    decreases |group|
  {
    if group == [] then []
    else
      var rest := GroupStates(group[1..]);
      assert forall j :: 1 <= j < |group| ==> group[j] == group[1..][j - 1];
      [group[0].State()] + rest
  }

  /** The hiding state of every suggestion of every group: what a strategy sees of the groups. */
  function StatesOf(groups: seq<SuggestionGroup>): (r: seq<seq<HidingState>>)
    reads set i, s | 0 <= i < |groups| && s in groups[i] :: s
    ensures |r| == |groups|
    ensures forall i :: 0 <= i < |groups| ==>
      |r[i]| == |groups[i]| && forall j :: 0 <= j < |groups[i]| ==> r[i][j] == groups[i][j].State()
    decreases |groups|
  {
    if groups == [] then []
    else
      var rest := StatesOf(groups[1..]);
      assert forall i :: 1 <= i < |groups| ==> groups[i] == groups[1..][i - 1];
      [GroupStates(groups[0])] + rest
  }

  // ---------------------------------------------------------------------------------
  // Visibility of a record's suggestion
  // ---------------------------------------------------------------------------------

  /** The test of `isSuggestionVisible`: same document, feature, label, begin and end. */
  predicate MatchesRecord(s: SpanSuggestion, record: LearningRecord)
  {
    s.documentName == record.sourceDocument.name
    && s.feature == record.annotationFeature.name
    && s.LabelEquals(record.annotation)
    && s.begin == record.offsetBegin
    && s.end == record.offsetEnd
  }

  /** Some suggestion of the group is visible and matches the record (`anyMatch`). */
  function GroupHasVisibleMatch(group: SuggestionGroup, record: LearningRecord): (r: bool)
    reads set s | s in group
    ensures r <==> exists j :: 0 <= j < |group| && MatchesRecord(group[j], record) && group[j].visible
    decreases |group|
  {
    if group == [] then false
    else if MatchesRecord(group[0], record) && group[0].visible then true
    else
      var rest := GroupHasVisibleMatch(group[1..], record);
      assert forall j :: 1 <= j < |group| ==> group[j] == group[1..][j - 1];
      rest
  }

  /** Some group has a visible matching suggestion (the loop with early return). */
  function AnyGroupHasVisibleMatch(groups: seq<SuggestionGroup>, record: LearningRecord): (r: bool)
    reads set i, s | 0 <= i < |groups| && s in groups[i] :: s
    ensures r <==> exists i, j :: && 0 <= i < |groups| && 0 <= j < |groups[i]|
                                  && MatchesRecord(groups[i][j], record) && groups[i][j].visible
    decreases |groups|
  {
    if groups == [] then false
    else if GroupHasVisibleMatch(groups[0], record) then true
    else
      var rest := AnyGroupHasVisibleMatch(groups[1..], record);
      assert forall i :: 1 <= i < |groups| ==> groups[i] == groups[1..][i - 1];
      rest
  }
}
