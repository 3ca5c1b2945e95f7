# Active learning, agreement merging and tag colours: a Dafny model

This project models three pieces of the INCEpTION / WebAnno annotation platform and proves
properties of them.

- **The active-learning service** (`ActiveLearningServiceImpl`). It takes the span suggestions of a
  user's prediction batch and filters them:
  - It removes duplicates inside each suggestion group (same recommender, same document, equal label).
  - It hides suggestions that the data owner's learning history already decided on.
  - It hands the groups to an active-learning strategy.
  - It also records a user's decision on a suggestion (accept, correct, reject, skip) with the
    collaborating services, and keeps the per-user session state and its key.
- **`BasicAgreementResult`**. This is the per-chunk summary of an inter-annotator agreement result. `merge` folds
  one summary into another:
  - the agreement values are concatenated;
  - categories are united in insertion order;
  - per-rater counts are summed and all-null flags are ORed;
  - five set counters are added, unless one side marks them "not applicable" with -1.
- **`TagColor`**. It holds two fixed colour palettes, a similarity test on RGB colours, and random
  pastel colours mixed with a seed colour. It also has a bounded search for a pastel colour unlike those
  already taken, and the `#RRGGBB` encoding.

Files:

- `wrappers.dfy`: `Option`, `Result`, and `Outcome` (pass, or fail with an error).
- `java_int.dfy`: Java `int` and `long` wrap-around.
- `sequences.dfy`: subsequences and flattening of lists of lists.
- `tag_color.dfy`: module `TagColor`.
- `basic_agreement_result.dfy`: module `BasicAgreement`.
- `recommendation_model.dfy`: the records, layers, features and documents as values. Span suggestions
  are heap objects whose hiding state changes.
- `suggestion_filter.dfy`: what de-duplication, hiding and the visibility query compute, as functions,
  with their lemmas.
- `active_learning.dfy`: the service class, the session state class and the session key.

Modelling choices:

- **Collaborators.** The service class holds constant lookup functions for what it reads from its
  collaborators: predictions, preferences, learning records, layers, features, feature supports and
  documents. It has a ghost log `calls` of what it asks them to do: read or write the CAS, accept or
  correct a suggestion, log a learning record, publish an event.
- **Errors.** An exception that the service's own code raises becomes a `Fail` outcome: an unknown
  layer, a missing feature support, or a missing prediction batch (a `NullPointerException` in the
  source).
- **Suggestion objects.** Span suggestions are objects. The de-duplicated groups share suggestion
  objects with the session's list, so hiding one is seen through both.
- **`labelEquals`.** Its definition is outside this model. Each suggestion carries an arbitrary rule
  for it. The calls keep the source's direction: the kept item is asked about the new label.
- **The random generator.** `java.util.Random` is a supplied stream of draws in [0, 256).
- **`excludeIncomplete`.** The private constructor of `BasicAgreementResult` assigns `excludeIncomplete`
  from its own getter while the field is still unset. The model keeps this as written, so every
  constructed result has `excludeIncomplete == false`.

## Model

Paths are relative to the repository root.

| member | source | states |
|---|---|---|
| ActiveLearning.RemoveDuplicateRecommendations | inception/inception-active-learning/src/main/java/de/tudarmstadt/ukp/inception/active/learning/ActiveLearningServiceImpl.java:303-315 | the loop that adds each item not already covered by the clean list returns exactly `Deduplicated(group)` |
| ActiveLearning.RemoveDuplicatesFromGroups | inception/inception-active-learning/src/main/java/de/tudarmstadt/ukp/inception/active/learning/ActiveLearningServiceImpl.java:181-183 | mapping `removeDuplicateRecommendations` over the groups gives every group de-duplicated, in order |
| SuggestionFilter.IsAlreadyInCleanList | inception/inception-active-learning/src/main/java/de/tudarmstadt/ukp/inception/active/learning/ActiveLearningServiceImpl.java:317-333 | true iff some kept suggestion has the item's recommender and document and `labelEquals` the item's label |
| RecommendationModel.SpanSuggestion.LabelEquals | inception/inception-active-learning/src/main/java/de/tudarmstadt/ukp/inception/active/learning/ActiveLearningServiceImpl.java:326 | `labelEquals` asked of this suggestion about a label; its rule is a per-suggestion parameter, as its definition is outside this model |
| SuggestionFilter.Deduplicated | inception/inception-active-learning/src/main/java/de/tudarmstadt/ukp/inception/active/learning/ActiveLearningServiceImpl.java:303-315 | what `removeDuplicateRecommendations` returns for a group: never longer than the group, and the group's first suggestion is always kept first; its other properties are the lemmas below |
| SuggestionFilter.DeduplicatedIsSubsequence | inception/inception-active-learning/src/main/java/de/tudarmstadt/ukp/inception/active/learning/ActiveLearningServiceImpl.java:306-312 | the de-duplicated group is an order-preserving subsequence of the group |
| SuggestionFilter.DeduplicatedIsDuplicateFree | inception/inception-active-learning/src/main/java/de/tudarmstadt/ukp/inception/active/learning/ActiveLearningServiceImpl.java:308-312 | no kept suggestion duplicates an earlier kept one |
| SuggestionFilter.DeduplicatedCovers | inception/inception-active-learning/src/main/java/de/tudarmstadt/ukp/inception/active/learning/ActiveLearningServiceImpl.java:308-312 | every suggestion of the group is kept, or some kept suggestion is one it duplicates; `DeduplicatedKeepsFirst` says that this kept suggestion comes from the earlier items |
| SuggestionFilter.DeduplicatedPrefix | inception/inception-active-learning/src/main/java/de/tudarmstadt/ukp/inception/active/learning/ActiveLearningServiceImpl.java:306-312 | the result for the first k items is a prefix of the result for the whole group: a later item never removes or reorders a kept one |
| SuggestionFilter.DeduplicatedKeepsFirst | inception/inception-active-learning/src/main/java/de/tudarmstadt/ukp/inception/active/learning/ActiveLearningServiceImpl.java:306-312 | the item at position k is appended right after what the earlier items left iff no suggestion kept from the earlier items duplicates it; otherwise the earlier result does not grow; so a dropped item is duplicated by an earlier kept one, and of duplicates the first is kept |
| SuggestionFilter.DuplicateFreeUnchanged | inception/inception-active-learning/src/main/java/de/tudarmstadt/ukp/inception/active/learning/ActiveLearningServiceImpl.java:303-315 | a group without duplicates comes back unchanged |
| SuggestionFilter.DeduplicatedIdempotent | inception/inception-active-learning/src/main/java/de/tudarmstadt/ukp/inception/active/learning/ActiveLearningServiceImpl.java:303-315 | removing duplicates twice gives the same group as once |
| SuggestionFilter.DeduplicatedGroups | inception/inception-active-learning/src/main/java/de/tudarmstadt/ukp/inception/active/learning/ActiveLearningServiceImpl.java:181-183 | one de-duplicated group per group, at the same position |
| SuggestionFilter.DeduplicatedGroupsMember | inception/inception-active-learning/src/main/java/de/tudarmstadt/ukp/inception/active/learning/ActiveLearningServiceImpl.java:181-183 | the de-duplicated groups hold no suggestion object that the original groups do not |
| SuggestionFilter.HidingReason | inception/inception-active-learning/src/main/java/de/tudarmstadt/ukp/inception/active/learning/ActiveLearningServiceImpl.java:159-164 | no reason iff no record matches on document, begin, end and label; otherwise the action of the last matching record |
| SuggestionFilter.AfterHiding | inception/inception-active-learning/src/main/java/de/tudarmstadt/ukp/inception/active/learning/ActiveLearningServiceImpl.java:155-164 | the hiding state one suggestion ends in after the loop over the records; what it promises is `AfterHidingSpec` |
| SuggestionFilter.AfterHidingSpec | inception/inception-active-learning/src/main/java/de/tudarmstadt/ukp/inception/active/learning/ActiveLearningServiceImpl.java:155-164 | hiding never shows a suggestion; a visible one ends hidden iff some record matches, with a matching record's action as the reason; a hidden one is left as it is |
| SuggestionFilter.AfterHidingIdempotent | inception/inception-active-learning/src/main/java/de/tudarmstadt/ukp/inception/active/learning/ActiveLearningServiceImpl.java:142-167 | hiding again with the same records changes nothing |
| SuggestionFilter.HiddenStaysHidden | inception/inception-active-learning/src/main/java/de/tudarmstadt/ukp/inception/active/learning/ActiveLearningServiceImpl.java:155-157 | a hidden suggestion keeps its state and reason whatever records come later |
| ActiveLearning.HideByRecords | inception/inception-active-learning/src/main/java/de/tudarmstadt/ukp/inception/active/learning/ActiveLearningServiceImpl.java:155-164 | the inner loop body leaves the suggestion in the state `AfterHiding` gives for the records |
| ActiveLearning.ActiveLearningService.HideRejectedOrSkippedAnnotations | inception/inception-active-learning/src/main/java/de/tudarmstadt/ukp/inception/active/learning/ActiveLearningServiceImpl.java:142-167 | every suggestion of every group ends in the state `AfterHiding` gives for the data owner's records on the layer, whatever `filterSkippedRecommendation` is, even when an object occurs twice |
| RecommendationModel.SpanSuggestion.HideSuggestion | inception/inception-active-learning/src/main/java/de/tudarmstadt/ukp/inception/active/learning/ActiveLearningServiceImpl.java:164 | the suggestion is hidden, with the given action as its reason |
| SuggestionFilter.GroupHasVisibleMatch | inception/inception-active-learning/src/main/java/de/tudarmstadt/ukp/inception/active/learning/ActiveLearningServiceImpl.java:122-128 | true iff some suggestion of the group is visible and matches the record on document, feature, label, begin and end |
| SuggestionFilter.AnyGroupHasVisibleMatch | inception/inception-active-learning/src/main/java/de/tudarmstadt/ukp/inception/active/learning/ActiveLearningServiceImpl.java:121-132 | true iff some group has such a suggestion |
| ActiveLearning.ActiveLearningService.IsSuggestionVisible | inception/inception-active-learning/src/main/java/de/tudarmstadt/ukp/inception/active/learning/ActiveLearningServiceImpl.java:117-133 | true iff some suggestion of the record owner's batch for the record's layer is visible and matches the record |
| ActiveLearning.ActiveLearningService.GetSuggestions | inception/inception-active-learning/src/main/java/de/tudarmstadt/ukp/inception/active/learning/ActiveLearningServiceImpl.java:100-114 | the groups of every document of the user's batch for the layer, document by document, or none without a batch; what it promises is `GetSuggestionsSpec` |
| ActiveLearning.ActiveLearningService.GetSuggestionsSpec | inception/inception-active-learning/src/main/java/de/tudarmstadt/ukp/inception/active/learning/ActiveLearningServiceImpl.java:100-114 | no batch gives no groups; otherwise a group is returned iff some document of the batch holds it, and as many groups as the documents hold together |
| SuggestionFilter.StatesOf | inception/inception-active-learning/src/main/java/de/tudarmstadt/ukp/inception/active/learning/ActiveLearningServiceImpl.java:196 | the hiding state of each suggestion at the same position: what the strategy sees of the groups |
| ActiveLearning.ActiveLearningService.GenerateNextSuggestion | inception/inception-active-learning/src/main/java/de/tudarmstadt/ukp/inception/active/learning/ActiveLearningServiceImpl.java:170-197 | the session is unchanged; a suggestion that survives de-duplication ends as hiding by the owner's history leaves it, any other keeps its state; the result is the strategy's answer for the owner's preferences, the de-duplicated groups and their states after hiding |
| ActiveLearning.ActiveLearningService.WriteLearningRecordInDatabaseAndEventLog | inception/inception-active-learning/src/main/java/de/tudarmstadt/ukp/inception/active/learning/ActiveLearningServiceImpl.java:199-227 | no batch fails before anything is logged; otherwise the calls made are exactly `DecisionCalls` |
| ActiveLearning.ActiveLearningService.UncorrectedDecisionCalls | inception/inception-active-learning/src/main/java/de/tudarmstadt/ukp/inception/active/learning/ActiveLearningServiceImpl.java:211-226 | a decision other than a correction logs one record with that action in the sidebar, then publishes one event with the same action and suggestion |
| ActiveLearning.ActiveLearningService.CorrectedDecisionCalls | inception/inception-active-learning/src/main/java/de/tudarmstadt/ukp/inception/active/learning/ActiveLearningServiceImpl.java:215-220 | a correction logs CORRECTED, then REJECTED for the same suggestion, then publishes one CORRECTED event |
| ActiveLearning.ActiveLearningService.RejectSpanSuggestion | inception/inception-active-learning/src/main/java/de/tudarmstadt/ukp/inception/active/learning/ActiveLearningServiceImpl.java:287-292 | with a batch, exactly the two calls of a REJECTED decision for the suggestion's feature on the layer; without one, a failure and no calls |
| ActiveLearning.ActiveLearningService.SkipSpanSuggestion | inception/inception-active-learning/src/main/java/de/tudarmstadt/ukp/inception/active/learning/ActiveLearningServiceImpl.java:296-301 | the same for SKIPPED |
| ActiveLearning.ActiveLearningService.AcceptSpanSuggestion | inception/inception-active-learning/src/main/java/de/tudarmstadt/ukp/inception/active/learning/ActiveLearningServiceImpl.java:231-283 | an unknown layer fails with no call; a missing feature support fails after the CAS read only; a missing batch fails after the CAS read, the accept (label equal) or correct request carrying a new copy with the chosen label, and the CAS write; otherwise: read, accept (label equal) or correct, write once, publish one event carrying the action and a new copy that differs only in its label |
| RecommendationModel.SpanSuggestion.WithLabel | inception/inception-active-learning/src/main/java/de/tudarmstadt/ukp/inception/active/learning/ActiveLearningServiceImpl.java:255 | a new suggestion equal to this one except for the label, which is the given one |
| ActiveLearning.ActiveLearningService.constructor | inception/inception-active-learning/src/main/java/de/tudarmstadt/ukp/inception/active/learning/ActiveLearningServiceImpl.java:83-97 | the service starts with no calls made and the given collaborators |
| ActiveLearning.ActiveLearningUserState.constructor | inception/inception-active-learning/src/main/java/de/tudarmstadt/ukp/inception/active/learning/ActiveLearningServiceImpl.java:340-348 | a new session is inactive, assumes recommenders exist, and has no layer, strategy, suggestions, delta or context |
| ActiveLearning.ActiveLearningUserState.GetSuggestion | inception/inception-active-learning/src/main/java/de/tudarmstadt/ukp/inception/active/learning/ActiveLearningServiceImpl.java:370-374 | empty iff no delta is set, else the delta's first suggestion |
| ActiveLearning.ActiveLearningUserState.SetCurrentDifference | inception/inception-active-learning/src/main/java/de/tudarmstadt/ukp/inception/active/learning/ActiveLearningServiceImpl.java:381-384 | stores the delta or clears it for an empty optional, after which `GetSuggestion` follows; no other field changes |
| ActiveLearning.ActiveLearningUserState.SetSessionActive | inception/inception-active-learning/src/main/java/de/tudarmstadt/ukp/inception/active/learning/ActiveLearningServiceImpl.java:355-358 | sets that field only |
| ActiveLearning.ActiveLearningUserState.SetDoExistRecommenders | inception/inception-active-learning/src/main/java/de/tudarmstadt/ukp/inception/active/learning/ActiveLearningServiceImpl.java:365-368 | sets that field only |
| ActiveLearning.ActiveLearningUserState.SetLayer | inception/inception-active-learning/src/main/java/de/tudarmstadt/ukp/inception/active/learning/ActiveLearningServiceImpl.java:391-394 | sets that field only |
| ActiveLearning.ActiveLearningUserState.SetStrategy | inception/inception-active-learning/src/main/java/de/tudarmstadt/ukp/inception/active/learning/ActiveLearningServiceImpl.java:401-404 | sets that field only |
| ActiveLearning.ActiveLearningUserState.SetSuggestions | inception/inception-active-learning/src/main/java/de/tudarmstadt/ukp/inception/active/learning/ActiveLearningServiceImpl.java:406-409 | sets that field only |
| ActiveLearning.ActiveLearningUserState.SetLeftContext | inception/inception-active-learning/src/main/java/de/tudarmstadt/ukp/inception/active/learning/ActiveLearningServiceImpl.java:421-424 | sets that field only |
| ActiveLearning.ActiveLearningUserState.SetRightContext | inception/inception-active-learning/src/main/java/de/tudarmstadt/ukp/inception/active/learning/ActiveLearningServiceImpl.java:431-434 | sets that field only |
| ActiveLearning.Equals | inception/inception-active-learning/src/main/java/de/tudarmstadt/ukp/inception/active/learning/ActiveLearningServiceImpl.java:451-466 | true iff the argument is a key with the same user name and project id |
| ActiveLearning.EqualsSymmetric | inception/inception-active-learning/src/main/java/de/tudarmstadt/ukp/inception/active/learning/ActiveLearningServiceImpl.java:451-466 | `equals` is symmetric |
| ActiveLearning.HashCode | inception/inception-active-learning/src/main/java/de/tudarmstadt/ukp/inception/active/learning/ActiveLearningServiceImpl.java:469-474 | 31 times the user name's hash plus the project id's hash, with `int` wrap-around |
| ActiveLearning.StringHashCode | inception/inception-active-learning/src/main/java/de/tudarmstadt/ukp/inception/active/learning/ActiveLearningServiceImpl.java:471 | `String.hashCode` step by step: each character adds to 31 times the hash so far, with `int` wrap-around; `StringHashCodeIsPolynomial` gives its closed form |
| ActiveLearning.LongHashCode | inception/inception-active-learning/src/main/java/de/tudarmstadt/ukp/inception/active/learning/ActiveLearningServiceImpl.java:472 | `(int) (id ^ (id >>> 32))` on the unsigned bits of the `long`; `SmallProjectIdHash` gives its value for small ids |
| ActiveLearning.EqualKeysHaveEqualHashCodes | inception/inception-active-learning/src/main/java/de/tudarmstadt/ukp/inception/active/learning/ActiveLearningServiceImpl.java:450-474 | equal keys have equal hash codes |
| ActiveLearning.StringHashCodeIsPolynomial | inception/inception-active-learning/src/main/java/de/tudarmstadt/ukp/inception/active/learning/ActiveLearningServiceImpl.java:471 | the `int` step-by-step hash of the user name equals the whole polynomial s[0]*31^(n-1) + ... + s[n-1] cut to an `int` |
| ActiveLearning.HashPolynomialAppend | inception/inception-active-learning/src/main/java/de/tudarmstadt/ukp/inception/active/learning/ActiveLearningServiceImpl.java:471 | appending a character multiplies the polynomial by 31 and adds the character |
| ActiveLearning.SmallProjectIdHash | inception/inception-active-learning/src/main/java/de/tudarmstadt/ukp/inception/active/learning/ActiveLearningServiceImpl.java:472 | `(int) (id ^ (id >>> 32))` is the id itself for ids in 0 .. 2^31-1 |
| BasicAgreement.BasicAgreementResult.MergeCheck | inception/inception-agreement/src/main/java/de/tudarmstadt/ukp/clarin/webanno/agreement/BasicAgreementResult.java:57-76 | passes iff type, feature, `excludeIncomplete` and rater ids are all equal; otherwise it names the first check that fails |
| BasicAgreement.BasicAgreementResult.Merge | inception/inception-agreement/src/main/java/de/tudarmstadt/ukp/clarin/webanno/agreement/BasicAgreementResult.java:55-111 | a rejected merge leaves the result unchanged; an accepted one leaves `MergeTally` of both results as they were on entry, and categories stay free of duplicates |
| BasicAgreement.BasicAgreementResult.Absorb | inception/inception-agreement/src/main/java/de/tudarmstadt/ukp/clarin/webanno/agreement/BasicAgreementResult.java:78-110 | the updates after the checks give exactly `MergeTally` of the old state and the other's |
| BasicAgreement.BasicAgreementResult.SetTally | inception/inception-agreement/src/main/java/de/tudarmstadt/ukp/clarin/webanno/agreement/BasicAgreementResult.java:78-110 | the mergeable fields hold the given tally afterwards |
| BasicAgreement.AddAll | inception/inception-agreement/src/main/java/de/tudarmstadt/ukp/clarin/webanno/agreement/BasicAgreementResult.java:79 | adding items one by one to the insertion-ordered set gives `OrderedUnion` |
| BasicAgreement.OrderedUnion | inception/inception-agreement/src/main/java/de/tudarmstadt/ukp/clarin/webanno/agreement/BasicAgreementResult.java:79 | `categories.addAll` on an insertion-ordered set: at least the old categories and at most one more per item; its properties are the lemmas below |
| BasicAgreement.OrderedUnionPrefix | inception/inception-agreement/src/main/java/de/tudarmstadt/ukp/clarin/webanno/agreement/BasicAgreementResult.java:79 | the old categories stay in front, in their order |
| BasicAgreement.OrderedUnionElements | inception/inception-agreement/src/main/java/de/tudarmstadt/ukp/clarin/webanno/agreement/BasicAgreementResult.java:79 | a category is in the union iff it is in either side |
| BasicAgreement.OrderedUnionNoDuplicates | inception/inception-agreement/src/main/java/de/tudarmstadt/ukp/clarin/webanno/agreement/BasicAgreementResult.java:42 | the union of a duplicate-free list stays duplicate-free |
| BasicAgreement.OrderedUnionAppendsInOrder | inception/inception-agreement/src/main/java/de/tudarmstadt/ukp/clarin/webanno/agreement/BasicAgreementResult.java:79 | the appended categories are a subsequence of the other result's, in its order |
| BasicAgreement.OrderedUnionOfPresent | inception/inception-agreement/src/main/java/de/tudarmstadt/ukp/clarin/webanno/agreement/BasicAgreementResult.java:79 | adding only categories already present changes nothing (merging a result into itself keeps its categories) |
| BasicAgreement.OrderedUnionConcat | inception/inception-agreement/src/main/java/de/tudarmstadt/ukp/clarin/webanno/agreement/BasicAgreementResult.java:79 | adding two lists one after the other equals adding their concatenation |
| BasicAgreement.MergeAll | inception/inception-agreement/src/main/java/de/tudarmstadt/ukp/clarin/webanno/agreement/BasicAgreementResult.java:80-88 | the `map.merge` loop over the other map's entries gives `MergeMaps` |
| BasicAgreement.MergeMaps | inception/inception-agreement/src/main/java/de/tudarmstadt/ukp/clarin/webanno/agreement/BasicAgreementResult.java:80-88 | the map after `map.merge` of every entry of the other map: its keys are exactly the keys of either map |
| BasicAgreement.MergeTally | inception/inception-agreement/src/main/java/de/tudarmstadt/ukp/clarin/webanno/agreement/BasicAgreementResult.java:78-110 | what `merge` makes of both results' mergeable fields: agreements concatenated, categories united, counts summed, flags ORed, counters merged; its properties are the lemmas below |
| BasicAgreement.MergeMapsStep | inception/inception-agreement/src/main/java/de/tudarmstadt/ukp/clarin/webanno/agreement/BasicAgreementResult.java:81 | one `map.merge` call combines with an existing value or inserts the new one |
| BasicAgreement.MergedCountIsSum | inception/inception-agreement/src/main/java/de/tudarmstadt/ukp/clarin/webanno/agreement/BasicAgreementResult.java:80-85 | after merging, a rater's count read with default 0 is the `long` sum of both sides read with default 0 |
| BasicAgreement.MergedAllNull | inception/inception-agreement/src/main/java/de/tudarmstadt/ukp/clarin/webanno/agreement/BasicAgreementResult.java:86-88 | all-null flags are ORed where both have the rater, copied where one has it, and read as `true` where neither has |
| BasicAgreement.NotApplicableSurvives | inception/inception-agreement/src/main/java/de/tudarmstadt/ukp/clarin/webanno/agreement/BasicAgreementResult.java:92-110 | a negative counter (a unitizing result's -1) survives any number of merges |
| BasicAgreement.ApplicableCountersAdd | inception/inception-agreement/src/main/java/de/tudarmstadt/ukp/clarin/webanno/agreement/BasicAgreementResult.java:92-110 | non-negative counters that stay within `int` range add up over any number of merges |
| BasicAgreement.RaterTables | inception/inception-agreement/src/main/java/de/tudarmstadt/ukp/clarin/webanno/agreement/BasicAgreementResult.java:159-163 | the three tables have exactly the raters as keys, with the full result's values |
| BasicAgreement.BasicAgreementResult.Coding | inception/inception-agreement/src/main/java/de/tudarmstadt/ukp/clarin/webanno/agreement/BasicAgreementResult.java:138-164 | fields initialised from the full result (`excludeIncomplete` false) and the five counters from the coding sets |
| BasicAgreement.BasicAgreementResult.Unitizing | inception/inception-agreement/src/main/java/de/tudarmstadt/ukp/clarin/webanno/agreement/BasicAgreementResult.java:127-136 | fields initialised from the full result, and all five counters -1 |
| BasicAgreement.BasicAgreementResult.GetItemCount | inception/inception-agreement/src/main/java/de/tudarmstadt/ukp/clarin/webanno/agreement/BasicAgreementResult.java:196-199 | a rater's item count, 0 for a rater not in the table; `InitialGetters` and `MergedCountIsSum` state its values |
| BasicAgreement.BasicAgreementResult.GetCategoryCount | inception/inception-agreement/src/main/java/de/tudarmstadt/ukp/clarin/webanno/agreement/BasicAgreementResult.java:201-204 | the number of distinct categories |
| BasicAgreement.BasicAgreementResult.GetNonNullCount | inception/inception-agreement/src/main/java/de/tudarmstadt/ukp/clarin/webanno/agreement/BasicAgreementResult.java:206-209 | a rater's count of non-null items, 0 for a rater not in the table |
| BasicAgreement.BasicAgreementResult.IsAllNull | inception/inception-agreement/src/main/java/de/tudarmstadt/ukp/clarin/webanno/agreement/BasicAgreementResult.java:211-214 | a rater's all-null flag, `true` for a rater not in the table |
| BasicAgreement.BasicAgreementResult.InitialGetters | inception/inception-agreement/src/main/java/de/tudarmstadt/ukp/clarin/webanno/agreement/BasicAgreementResult.java:196-214 | a new result's getters give the full result's values for its raters and 0, 0, `true` for anyone else |
| TagColor.TooSimilar | webanno.brat/src/main/java/de/tudarmstadt/ukp/clarin/webanno/brat/display/model/TagColor.java:38-49 | the squared distance of the two colours is below 768; its properties are the lemmas below |
| TagColor.TooSimilarSymmetric | webanno.brat/src/main/java/de/tudarmstadt/ukp/clarin/webanno/brat/display/model/TagColor.java:38-49 | `tooSimilar` is symmetric |
| TagColor.TooSimilarReflexive | webanno.brat/src/main/java/de/tudarmstadt/ukp/clarin/webanno/brat/display/model/TagColor.java:38-49 | every colour is too similar to itself |
| TagColor.TooSimilarComponentsClose | webanno.brat/src/main/java/de/tudarmstadt/ukp/clarin/webanno/brat/display/model/TagColor.java:40-43 | too similar colours differ by at most 27 in each component |
| TagColor.CloseComponentsTooSimilar | webanno.brat/src/main/java/de/tudarmstadt/ukp/clarin/webanno/brat/display/model/TagColor.java:40-43 | colours within 15 in each component are too similar |
| TagColor.GeneratePastelColor | webanno.brat/src/main/java/de/tudarmstadt/ukp/clarin/webanno/brat/display/model/TagColor.java:76-91 | without a mix colour the three draws; with one, each component is the rounded-down midpoint of draw and mix |
| TagColor.CandidateIsPastel | webanno.brat/src/main/java/de/tudarmstadt/ukp/clarin/webanno/brat/display/model/TagColor.java:53-59 | every candidate mixed with white has all components in 127..255 |
| TagColor.ChosenCandidate | webanno.brat/src/main/java/de/tudarmstadt/ukp/clarin/webanno/brat/display/model/TagColor.java:56-73 | the chosen index lies within the 1000 candidates |
| TagColor.ChosenCandidateIsFirstAcceptable | webanno.brat/src/main/java/de/tudarmstadt/ukp/clarin/webanno/brat/display/model/TagColor.java:56-73 | every earlier candidate is too similar to a taken colour, and the chosen one is not, or is the 1000th |
| TagColor.NothingTakenFirstCandidate | webanno.brat/src/main/java/de/tudarmstadt/ukp/clarin/webanno/brat/display/model/TagColor.java:61-68 | with nothing taken the first candidate is returned |
| TagColor.GenerateDifferingPastelColor | webanno.brat/src/main/java/de/tudarmstadt/ukp/clarin/webanno/brat/display/model/TagColor.java:51-74 | the loop returns the candidate `ChosenCandidate` picks |
| TagColor.RGBAsUnsigned | webanno.brat/src/main/java/de/tudarmstadt/ukp/clarin/webanno/brat/display/model/TagColor.java:98 | `getRGB` of an opaque colour, read unsigned, is 0xFF000000 plus the three component bytes |
| TagColor.HexStringOfRGB | webanno.brat/src/main/java/de/tudarmstadt/ukp/clarin/webanno/brat/display/model/TagColor.java:98 | `Integer.toHexString(getRGB())` is "ff" followed by two lower-case digits per component |
| TagColor.EncodeRGB | webanno.brat/src/main/java/de/tudarmstadt/ukp/clarin/webanno/brat/display/model/TagColor.java:93-99 | fails iff the colour is null; otherwise "#" and two upper-case digits each for red, green and blue |
| TagColor.EncodeRGBRoundTrip | webanno.brat/src/main/java/de/tudarmstadt/ukp/clarin/webanno/brat/display/model/TagColor.java:93-99 | the encoded string reads back as the same colour |
| TagColor.PalettePastelWellFormed | webanno.brat/src/main/java/de/tudarmstadt/ukp/clarin/webanno/brat/display/model/TagColor.java:32-33 | twelve entries, each "#" and six lower-case hex digits |
| TagColor.PaletteNormalWellFormed | webanno.brat/src/main/java/de/tudarmstadt/ukp/clarin/webanno/brat/display/model/TagColor.java:35-36 | twelve entries, each "#" and six lower-case hex digits |
| TagColor.LowerHexColorParses | webanno.brat/src/main/java/de/tudarmstadt/ukp/clarin/webanno/brat/display/model/TagColor.java:32-36 | every string of that form reads back as a colour |

## Left out

- `BasicAgreementResult.of`: a type dispatch on the runtime class of its argument. The two constructors it calls are modelled.
- `BasicAgreementResult.getAgreement`: a floating-point average with a NaN default. The trivial getters of type, feature and counters are plain field reads.
- `hasSkippedSuggestions`: a delegation to the learning-history service.
- `java.util.Random` seeded with 0: its generator is replaced by a supplied stream of draws.
- `synchronized`, `Serializable`, and the timing and logging in `generateNextSuggestion`: none of them changes a result.
- Spring `@Transactional` rollback is not modelled. The log `calls` records the requests the service makes, not the effects that are committed. So when `acceptSpanSuggestion` fails for a missing batch, the CAS write and the accept or correct request are in the log, although the transaction would roll back.
- ActiveLearning.ActiveLearningService.AcceptSpanSuggestion: the learning records that the recommendation service writes inside `acceptSuggestion`/`correctSuggestion` are not visible in this code and are not logged. So are the `IOException`/`AnnotationException` of CAS I/O and the casts of the adapter and of the unwrapped label.
- ActiveLearning.ActiveLearningService.GenerateNextSuggestion: requires the session's layer, strategy and suggestions to be set; the source would throw `NullPointerException` otherwise.
- ActiveLearning.ActiveLearningService.GenerateNextSuggestion: the strategy is a function of the preferences, the groups and their hiding states. A strategy that changes the suggestion objects is not modelled.
- ActiveLearning.ActiveLearningService.IsSuggestionVisible: `userService.get` is taken to resolve the record's user name to that user.
- ActiveLearning.ActiveLearningService.GetSuggestions: the batch's map of documents is taken in the order in which it lists its values.
- The link between `logRecord` and a later `listRecords` is inside the learning-history service. The model reads records through a fixed lookup function.
- ActiveLearning.StringHashCode: Java hashes UTF-16 code units. The model hashes the user name's characters, so names with characters outside the Basic Multilingual Plane hash differently. `ActiveLearning.HashCode` and `ActiveLearning.StringHashCodeIsPolynomial` inherit this gap.
- ActiveLearning.Equals: the user name is never null in the model. A key built with a null user name equals itself through the `this == o` shortcut, while the field comparison and `hashCode` would throw `NullPointerException`. For a non-null user name the shortcut gives the same answer as the field comparison, so it is not modelled separately.
- ActiveLearning.HashCode: a null user name, for which `hashCode` throws `NullPointerException`, is not modelled.
- TagColor.EncodeRGB: colours are opaque (alpha 255). For a Java colour with alpha below 0x10, `Integer.toHexString(getRGB())` has fewer than eight digits, and `substring(2)` gives fewer than six digits or throws `StringIndexOutOfBoundsException`. Translucent colours are not modelled.
- RecommendationModel.SpanSuggestion.HideSuggestion: the body of `hideSuggestion` is outside this model. It is taken to hide the suggestion with the given action as the reason, for every action.
- TagColor.EncodeRGB: `toUpperCase` is modelled for the ASCII letters only, which are the only letters a hexadecimal string contains.
