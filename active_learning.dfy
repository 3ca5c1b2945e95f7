/**
 * The active-learning service: the suggestions of a prediction batch, their filtering
 * (duplicate removal, then hiding by the learning history), the hand-over to a strategy,
 * the recording of a user's decision, and the per-user session state with its key.
 *
 * The collaborators (recommendation, learning-record, document and schema services, the
 * feature-support registry and the event publisher) appear as constant lookup functions
 * for what the service reads from them, and as a ghost log `calls` for what it asks them
 * to do, in order.
 */
module ActiveLearning {
  import opened Wrappers
  import opened JavaInt
  import opened Sequences
  import opened RecommendationModel
  import opened SuggestionFilter

  /** The exceptions the service's own code raises. */
  datatype ServiceError =
    | NoSuchLayer(layerId: int)  // IllegalArgumentException "No such layer"
    | NoFeatureSupport           // NoSuchElementException from `findExtension(feature).orElseThrow()`
    | NoPredictions              // NullPointerException: the user has no prediction batch

  /** What the feature support of a feature does here: turn the editor's value into a label. */
  datatype FeatureSupport = FeatureSupport(unwrapFeatureValue: (AnnotationFeature, string) -> string)

  /** `ActiveLearningRecommendationEvent`. */
  datatype RecommendationEvent = RecommendationEvent(
    document: SourceDocument,
    suggestion: SpanSuggestion,
    dataOwner: string,
    layer: AnnotationLayer,
    feature: string,
    action: LearningRecordType,
    alternatives: seq<SpanSuggestion>)

  /** A request the service makes of a collaborator. */
  datatype Call =
    | ReadAnnotationCas(document: SourceDocument, user: string)
    | WriteAnnotationCas(document: SourceDocument, user: string)
    | AcceptSuggestion(document: SourceDocument, user: string, feature: AnnotationFeature, suggestion: SpanSuggestion)
    | CorrectSuggestion(document: SourceDocument, user: string, feature: AnnotationFeature,
                        original: SpanSuggestion, corrected: SpanSuggestion)
    | LogRecord(document: SourceDocument, user: string, suggestion: SpanSuggestion, feature: AnnotationFeature,
                action: LearningRecordType, location: LearningRecordChangeLocation)
    | PublishEvent(event: RecommendationEvent)
  {
    /** Whether this request accepts or corrects a suggestion. */
    predicate IsDecision()
    {
      AcceptSuggestion? || CorrectSuggestion?
    }

    /** The suggestion with the chosen label that an accept or correct request carries. */
    function Copy(): SpanSuggestion
      requires IsDecision()
    {
      if AcceptSuggestion? then suggestion else corrected
    }
  }

  /**
   * A strategy picks the next suggestion from the filtered groups. Besides the groups it is
   * given their hiding states (`StatesOf`), which is what it can read of the suggestion objects.
   */
  datatype ActiveLearningStrategy = ActiveLearningStrategy(
    generateNextSuggestion: (Preferences, seq<SuggestionGroup>, seq<seq<HidingState>>) -> Option<Delta>)

  // ---------------------------------------------------------------------------------
  // Filtering
  // ---------------------------------------------------------------------------------

  /** `removeDuplicateRecommendations`: a new group, built by adding each item that no kept item duplicates. */
  method RemoveDuplicateRecommendations(group: SuggestionGroup) returns (clean: SuggestionGroup)
    ensures clean == Deduplicated(group)
  {
    clean := [];
    for i := 0 to |group|
      invariant clean == Deduplicated(group[..i])
    {
      assert group[..i + 1][..i] == group[..i];
      if !IsAlreadyInCleanList(clean, group[i]) {
        clean := clean + [group[i]];
      }
    }
    assert group[..|group|] == group;
  }

  /** The `map(removeDuplicateRecommendations)` step of `generateNextSuggestion`: every group de-duplicated. */
  method RemoveDuplicatesFromGroups(groups: seq<SuggestionGroup>) returns (deduplicated: seq<SuggestionGroup>)
    ensures deduplicated == DeduplicatedGroups(groups)
  {
    deduplicated := [];
    for i := 0 to |groups|
      invariant |deduplicated| == i
      invariant forall k :: 0 <= k < i ==> deduplicated[k] == Deduplicated(groups[k])
    {
      var clean := RemoveDuplicateRecommendations(groups[i]);
      deduplicated := deduplicated + [clean];
    }
  }

  /**
   * The body of the inner loop of `hideRejectedOrSkippedAnnotations`: a hidden suggestion is
   * skipped; a visible one is hidden with the action of every matching record in turn.
   */
  method HideByRecords(records: seq<LearningRecord>, suggestion: SpanSuggestion)
    modifies suggestion
    ensures suggestion.State() == AfterHiding(records, suggestion, old(suggestion.State()))
  {
    if !suggestion.visible {
      return;
    }
    for k := 0 to |records|
      invariant suggestion.State() == AfterHiding(records[..k], suggestion, old(suggestion.State()))
    {
      assert records[..k + 1][..k] == records[..k];
      if RecordMatches(records[k], suggestion) {
        suggestion.HideSuggestion(records[k].userAction);
      }
    }
    assert records[..|records|] == records;
  }

  // ---------------------------------------------------------------------------------
  // The service
  // ---------------------------------------------------------------------------------

  class ActiveLearningService {
    /** `recommendationService.getPredictions(user, project)`; `None` is a null batch. */
    const predictionsOf: (string, int) -> Option<Predictions>
    /** `recommendationService.getPreferences(user, project)`. */
    const preferencesOf: (string, int) -> Preferences
    /** `learningHistoryService.listRecords(user, layer)`. */
    const listRecords: (string, AnnotationLayer) -> seq<LearningRecord>
    /** `schemaService.getLayer(project, layerId)`. */
    const layerOf: (int, int) -> Option<AnnotationLayer>
    /** `schemaService.getFeature(name, layer)`. */
    const featureOf: (string, AnnotationLayer) -> AnnotationFeature
    /** `featureSupportRegistry.findExtension(feature)`. */
    const featureSupportOf: AnnotationFeature -> Option<FeatureSupport>
    /** `documentService.getSourceDocument(project, name)`. */
    const sourceDocumentOf: (int, string) -> SourceDocument

    /** The requests made of the collaborators so far. */
    ghost var calls: seq<Call>

    constructor (predictionsOf: (string, int) -> Option<Predictions>, preferencesOf: (string, int) -> Preferences,
                 listRecords: (string, AnnotationLayer) -> seq<LearningRecord>, layerOf: (int, int) -> Option<AnnotationLayer>,
                 featureOf: (string, AnnotationLayer) -> AnnotationFeature,
                 featureSupportOf: AnnotationFeature -> Option<FeatureSupport>,
                 sourceDocumentOf: (int, string) -> SourceDocument)
      ensures calls == []
      ensures forall u, p :: this.predictionsOf(u, p) == predictionsOf(u, p) && this.preferencesOf(u, p) == preferencesOf(u, p)
      ensures forall u, l :: this.listRecords(u, l) == listRecords(u, l) && this.featureOf(u, l) == featureOf(u, l)
      ensures forall p, i :: this.layerOf(p, i) == layerOf(p, i)
      ensures forall f :: this.featureSupportOf(f) == featureSupportOf(f)
      ensures forall p, n :: this.sourceDocumentOf(p, n) == sourceDocumentOf(p, n)
    {
      this.predictionsOf := predictionsOf;
      this.preferencesOf := preferencesOf;
      this.listRecords := listRecords;
      this.layerOf := layerOf;
      this.featureOf := featureOf;
      this.featureSupportOf := featureSupportOf;
      this.sourceDocumentOf := sourceDocumentOf;
      calls := [];
    }

    /** `getSuggestions(user, layer)`: every document's groups of the user's batch, one after the other. */
    function GetSuggestions(user: string, layer: AnnotationLayer): seq<SuggestionGroup>
    {
      match predictionsOf(user, layer.project)
      case None => []
      case Some(predictions) => Flatten(DocumentGroups(predictions.forWholeProject(layer)))
    }

    /**
     * Without a batch there are no suggestions; otherwise a group is returned exactly when
     * some document holds it, and as many groups as the documents hold together.
     */
    lemma GetSuggestionsSpec(user: string, layer: AnnotationLayer)
      ensures predictionsOf(user, layer.project).None? ==> GetSuggestions(user, layer) == []
      ensures predictionsOf(user, layer.project).Some? ==>
        var docs := predictionsOf(user, layer.project).value.forWholeProject(layer);
        && (forall g :: g in GetSuggestions(user, layer) <==> exists d :: d in docs && g in d.groups)
        && |GetSuggestions(user, layer)| == TotalLength(DocumentGroups(docs))
    {
      if predictionsOf(user, layer.project).Some? {
        var docs := predictionsOf(user, layer.project).value.forWholeProject(layer);
        FlattenMembers(DocumentGroups(docs));
        FlattenLength(DocumentGroups(docs));
      }
    }

    /** `isSuggestionVisible(record)`: some suggestion of the record owner's batch is visible and matches the record. */
    function IsSuggestionVisible(record: LearningRecord): (r: bool)
      reads Members(GetSuggestions(record.user, record.layer))
      ensures var groups := GetSuggestions(record.user, record.layer);
        r <==> exists i, j :: && 0 <= i < |groups| && 0 <= j < |groups[i]|
                              && MatchesRecord(groups[i][j], record) && groups[i][j].visible
    {
      var groups := GetSuggestions(record.user, record.layer);
      assert (set i, s | 0 <= i < |groups| && s in groups[i] :: s) <= Members(groups) by {
        FlattenMembers(groups);
      }
      AnyGroupHasVisibleMatch(groups, record)
    }

    /**
     * `hideRejectedOrSkippedAnnotations`: every suggestion of the groups ends as hiding by
     * the data owner's records leaves it. `filterSkippedRecommendation` is not used.
     */
    method HideRejectedOrSkippedAnnotations(dataOwner: string, layer: AnnotationLayer,
                                            filterSkippedRecommendation: bool, groups: seq<SuggestionGroup>)
      modifies Members(groups)
      ensures forall i, j :: 0 <= i < |groups| && 0 <= j < |groups[i]| ==>
        groups[i][j].State() == AfterHiding(listRecords(dataOwner, layer), groups[i][j], old(groups[i][j].State()))
    {
      var records := listRecords(dataOwner, layer);
      ghost var done: set<SpanSuggestion> := {};
      for i := 0 to |groups|
        invariant forall i', j' :: 0 <= i' < i && 0 <= j' < |groups[i']| ==> groups[i'][j'] in done
        invariant forall i', j' :: 0 <= i' < |groups| && 0 <= j' < |groups[i']| ==>
          groups[i'][j'].State() == if groups[i'][j'] in done then AfterHiding(records, groups[i'][j'], old(groups[i'][j'].State()))
                                    else old(groups[i'][j'].State())
      {
        for j := 0 to |groups[i]|
          invariant forall i', j' :: 0 <= i' < i && 0 <= j' < |groups[i']| ==> groups[i'][j'] in done
          invariant forall j' :: 0 <= j' < j ==> groups[i][j'] in done
          invariant forall i', j' :: 0 <= i' < |groups| && 0 <= j' < |groups[i']| ==>
            groups[i'][j'].State() == if groups[i'][j'] in done then AfterHiding(records, groups[i'][j'], old(groups[i'][j'].State()))
                                      else old(groups[i'][j'].State())
        {
          var suggestion := groups[i][j];
          MemberAt(groups, i, j);
          AfterHidingIdempotent(records, suggestion, old(suggestion.State()));
          HideByRecords(records, suggestion);
          done := done + {suggestion};
        }
      }
    }

    /**
     * `generateNextSuggestion`: de-duplicates each group of the session's suggestions, hides
     * by the data owner's history, and asks the session's strategy. The session's own list
     * is not replaced; only the hiding state of the suggestions that survive de-duplication
     * changes.
     */
    method GenerateNextSuggestion(dataOwner: string, state: ActiveLearningUserState) returns (next: Option<Delta>)
      requires state.layer.Some? && state.strategy.Some? && state.suggestions.Some?
      modifies Members(state.suggestions.value)
      ensures unchanged(state)
      ensures var groups := DeduplicatedGroups(state.suggestions.value);
        next == state.strategy.value.generateNextSuggestion(
          preferencesOf(dataOwner, state.layer.value.project), groups, StatesOf(groups))
      ensures var groups := state.suggestions.value;
        forall i, j :: 0 <= i < |groups| && 0 <= j < |groups[i]| ==>
          groups[i][j].State() == if groups[i][j] in Members(DeduplicatedGroups(groups))
                                  then AfterHiding(listRecords(dataOwner, state.layer.value), groups[i][j], old(groups[i][j].State()))
                                  else old(groups[i][j].State())
    {
      var suggestionGroups := state.suggestions.value;
      var deduplicated := RemoveDuplicatesFromGroups(suggestionGroups);
      forall s | s in Members(deduplicated)
        ensures s in Members(suggestionGroups)
      {
        DeduplicatedGroupsMember(suggestionGroups, s);
      }

      HideRejectedOrSkippedAnnotations(dataOwner, state.layer.value, true, deduplicated);
      forall i, j | 0 <= i < |suggestionGroups| && 0 <= j < |suggestionGroups[i]| &&
                    suggestionGroups[i][j] in Members(deduplicated)
        ensures suggestionGroups[i][j].State() ==
                AfterHiding(listRecords(dataOwner, state.layer.value), suggestionGroups[i][j], old(suggestionGroups[i][j].State()))
      {
        var s := suggestionGroups[i][j];
        FlattenMembers(deduplicated);
        var i' :| 0 <= i' < |deduplicated| && s in deduplicated[i'];
        var j' :| 0 <= j' < |deduplicated[i']| && deduplicated[i'][j'] == s;
      }

      var preferences := preferencesOf(dataOwner, state.layer.value.project);
      next := state.strategy.value.generateNextSuggestion(preferences, deduplicated, StatesOf(deduplicated));
    }

    /**
     * `writeLearningRecordInDatabaseAndEventLog`: logs the action, and for a correction also
     * a rejection, then publishes one event with the suggestions at the same position. A
     * missing batch fails before anything is logged.
     */
    method WriteLearningRecordInDatabaseAndEventLog(dataOwner: string, feature: AnnotationFeature,
                                                    suggestion: SpanSuggestion, action: LearningRecordType)
      returns (outcome: Outcome<ServiceError>)
      modifies this
      ensures predictionsOf(dataOwner, feature.Project()).None? ==>
        outcome == Fail(NoPredictions) && calls == old(calls)
      ensures predictionsOf(dataOwner, feature.Project()).Some? ==>
        outcome == Pass
        && calls == old(calls) + DecisionCalls(dataOwner, feature, suggestion, action,
                                               predictionsOf(dataOwner, feature.Project()).value)
    {
      var document := sourceDocumentOf(feature.Project(), suggestion.documentName);
      var predictions := predictionsOf(dataOwner, feature.Project());
      if predictions.None? {
        return Fail(NoPredictions);
      }
      var alternatives := predictions.value.byTokenAndFeature(
        suggestion.documentName, feature.layer, suggestion.begin, suggestion.end, suggestion.feature);

      calls := calls + [LogRecord(document, dataOwner, suggestion, feature, action, AlSidebar)];
      if action == Corrected {
        calls := calls + [LogRecord(document, dataOwner, suggestion, feature, Rejected, AlSidebar)];
      }
      calls := calls + [PublishEvent(RecommendationEvent(
        document, suggestion, dataOwner, feature.layer, suggestion.feature, action, alternatives))];
      return Pass;
    }

    /** The log records and the event of a decision taken in the sidebar. */
    function DecisionCalls(dataOwner: string, feature: AnnotationFeature, suggestion: SpanSuggestion,
                           action: LearningRecordType, predictions: Predictions): seq<Call>
    {
      var document := sourceDocumentOf(feature.Project(), suggestion.documentName);
      var alternatives := predictions.byTokenAndFeature(
        suggestion.documentName, feature.layer, suggestion.begin, suggestion.end, suggestion.feature);
      [LogRecord(document, dataOwner, suggestion, feature, action, AlSidebar)]
      + (if action == Corrected then [LogRecord(document, dataOwner, suggestion, feature, Rejected, AlSidebar)] else [])
      + [PublishEvent(RecommendationEvent(document, suggestion, dataOwner, feature.layer, suggestion.feature,
                                          action, alternatives))]
    }

    /**
     * A decision other than a correction logs exactly one record, with that action, in the
     * sidebar, and then publishes exactly one event with the same action.
     */
    lemma UncorrectedDecisionCalls(dataOwner: string, feature: AnnotationFeature, suggestion: SpanSuggestion,
                                   action: LearningRecordType, predictions: Predictions)
      requires action != Corrected
      ensures var c := DecisionCalls(dataOwner, feature, suggestion, action, predictions);
        && |c| == 2
        && c[0].LogRecord? && c[0].action == action && c[0].location == AlSidebar && c[0].suggestion == suggestion
        && c[1].PublishEvent? && c[1].event.action == action && c[1].event.suggestion == suggestion
    {
    }

    /** A correction logs the correction and then a rejection of the suggested label before its event. */
    lemma CorrectedDecisionCalls(dataOwner: string, feature: AnnotationFeature, suggestion: SpanSuggestion,
                                 predictions: Predictions)
      ensures var c := DecisionCalls(dataOwner, feature, suggestion, Corrected, predictions);
        && |c| == 3
        && c[0].LogRecord? && c[0].action == Corrected
        && c[1].LogRecord? && c[1].action == Rejected && c[1].suggestion == suggestion
        && c[2].PublishEvent? && c[2].event.action == Corrected
    {
    }

    /** `rejectSpanSuggestion`: one REJECTED record in the sidebar, then one event. */
    method RejectSpanSuggestion(dataOwner: string, layer: AnnotationLayer, suggestion: SpanSuggestion)
      returns (outcome: Outcome<ServiceError>)
      modifies this
      ensures var feature := featureOf(suggestion.feature, layer);
        && (predictionsOf(dataOwner, feature.Project()).None? ==> outcome == Fail(NoPredictions) && calls == old(calls))
        && (predictionsOf(dataOwner, feature.Project()).Some? ==>
              outcome == Pass
              && calls == old(calls) + DecisionCalls(dataOwner, feature, suggestion, Rejected,
                                                     predictionsOf(dataOwner, feature.Project()).value))
    {
      var feature := featureOf(suggestion.feature, layer);
      outcome := WriteLearningRecordInDatabaseAndEventLog(dataOwner, feature, suggestion, Rejected);
    }

    /** `skipSpanSuggestion`: one SKIPPED record in the sidebar, then one event. */
    method SkipSpanSuggestion(dataOwner: string, layer: AnnotationLayer, suggestion: SpanSuggestion)
      returns (outcome: Outcome<ServiceError>)
      modifies this
      ensures var feature := featureOf(suggestion.feature, layer);
        && (predictionsOf(dataOwner, feature.Project()).None? ==> outcome == Fail(NoPredictions) && calls == old(calls))
        && (predictionsOf(dataOwner, feature.Project()).Some? ==>
              outcome == Pass
              && calls == old(calls) + DecisionCalls(dataOwner, feature, suggestion, Skipped,
                                                     predictionsOf(dataOwner, feature.Project()).value))
    {
      var feature := featureOf(suggestion.feature, layer);
      outcome := WriteLearningRecordInDatabaseAndEventLog(dataOwner, feature, suggestion, Skipped);
    }

    /**
     * The first requests of an accepted or corrected suggestion, once the layer and the feature
     * support exist: read the CAS, accept or correct (by whether the suggestion's label equals
     * the chosen one), and write the CAS. `copy` is the suggestion with the chosen label.
     */
    ghost predicate DecisionRequests(c: seq<Call>, document: SourceDocument, dataOwner: string,
                                     suggestion: SpanSuggestion, value: string, copy: SpanSuggestion)
      requires layerOf(document.project, suggestion.layerId).Some?
    {
      var feature := featureOf(suggestion.feature, layerOf(document.project, suggestion.layerId).value);
      if featureSupportOf(feature).None? then false
      else
      var chosenLabel := featureSupportOf(feature).value.unwrapFeatureValue(feature, value);
      && copy.suggestedLabel == chosenLabel && SameButLabel(copy, suggestion)
      && c == [ ReadAnnotationCas(document, dataOwner),
                if suggestion.LabelEquals(chosenLabel) then AcceptSuggestion(document, dataOwner, feature, copy)
                else CorrectSuggestion(document, dataOwner, feature, suggestion, copy),
                WriteAnnotationCas(document, dataOwner) ]
    }

    /**
     * All requests of an accepted or corrected suggestion, when the layer, the feature support
     * and the batch all exist: those of `DecisionRequests`, then one event carrying the action
     * and `copy`.
     */
    ghost predicate AcceptCalls(c: seq<Call>, document: SourceDocument, dataOwner: string,
                                suggestion: SpanSuggestion, value: string, copy: SpanSuggestion)
      requires layerOf(document.project, suggestion.layerId).Some?
    {
      var feature := featureOf(suggestion.feature, layerOf(document.project, suggestion.layerId).value);
      if featureSupportOf(feature).None? || predictionsOf(dataOwner, feature.Project()).None? then false
      else
      var chosenLabel := featureSupportOf(feature).value.unwrapFeatureValue(feature, value);
      var action := if suggestion.LabelEquals(chosenLabel) then Accepted else Corrected;
      && |c| == 4 && DecisionRequests(c[..3], document, dataOwner, suggestion, value, copy)
      && c[3] == PublishEvent(RecommendationEvent(
                  sourceDocumentOf(feature.Project(), suggestion.documentName), copy, dataOwner, feature.layer,
                  suggestion.feature, action,
                  predictionsOf(dataOwner, feature.Project()).value.byTokenAndFeature(
                    suggestion.documentName, feature.layer, suggestion.begin, suggestion.end, suggestion.feature)))
    }

    /**
     * `acceptSpanSuggestion`: an unknown layer fails before the CAS is read; a missing
     * feature support fails after the read; a missing batch fails after the CAS is written.
     * Otherwise the requests are those of `AcceptCalls`, with a new copy of the suggestion.
     */
    method AcceptSpanSuggestion(document: SourceDocument, dataOwner: string, suggestion: SpanSuggestion, value: string)
      returns (outcome: Outcome<ServiceError>)
      modifies this
      ensures layerOf(document.project, suggestion.layerId).None? ==>
        outcome == Fail(NoSuchLayer(suggestion.layerId)) && calls == old(calls)
      ensures layerOf(document.project, suggestion.layerId).Some? ==>
        var feature := featureOf(suggestion.feature, layerOf(document.project, suggestion.layerId).value);
        && (featureSupportOf(feature).None? ==>
              outcome == Fail(NoFeatureSupport) && calls == old(calls) + [ReadAnnotationCas(document, dataOwner)])
        && (featureSupportOf(feature).Some? && predictionsOf(dataOwner, feature.Project()).None? ==>
              && outcome == Fail(NoPredictions) && |calls| == |old(calls)| + 3
              && calls[..|old(calls)|] == old(calls)
              && calls[|old(calls)| + 1].IsDecision() && fresh(calls[|old(calls)| + 1].Copy())
              && DecisionRequests(calls[|old(calls)|..], document, dataOwner, suggestion, value,
                                  calls[|old(calls)| + 1].Copy()))
        && (featureSupportOf(feature).Some? && predictionsOf(dataOwner, feature.Project()).Some? ==>
              && outcome == Pass && |calls| == |old(calls)| + 4
              && calls[..|old(calls)|] == old(calls)
              && calls[|calls| - 1].PublishEvent? && fresh(calls[|calls| - 1].event.suggestion)
              && AcceptCalls(calls[|old(calls)|..], document, dataOwner, suggestion, value,
                             calls[|calls| - 1].event.suggestion))
    {
      var layer := layerOf(document.project, suggestion.layerId);
      if layer.None? {
        return Fail(NoSuchLayer(suggestion.layerId));
      }
      var feature := featureOf(suggestion.feature, layer.value);

      calls := calls + [ReadAnnotationCas(document, dataOwner)];
      var sourceDocument := sourceDocumentOf(feature.Project(), suggestion.documentName);

      var featureSupport := featureSupportOf(feature);
      if featureSupport.None? {
        return Fail(NoFeatureSupport);
      }
      var chosenLabel := featureSupport.value.unwrapFeatureValue(feature, value);

      var copy := suggestion.WithLabel(chosenLabel);

      var action := if suggestion.LabelEquals(chosenLabel) then Accepted else Corrected;
      ghost var decision;
      if action == Corrected {
        decision := CorrectSuggestion(document, dataOwner, feature, suggestion, copy);
      } else {
        decision := AcceptSuggestion(document, dataOwner, feature, copy);
      }
      calls := calls + [decision];

      calls := calls + [WriteAnnotationCas(document, dataOwner)];

      assert calls[|old(calls)|..] == [ReadAnnotationCas(document, dataOwner), decision,
                                       WriteAnnotationCas(document, dataOwner)];
      var predictions := predictionsOf(dataOwner, feature.Project());
      if predictions.None? {
        return Fail(NoPredictions);
      }
      var alternatives := predictions.value.byTokenAndFeature(
        copy.documentName, feature.layer, copy.begin, copy.end, copy.feature);
      calls := calls + [PublishEvent(RecommendationEvent(
        sourceDocument, copy, dataOwner, feature.layer, copy.feature, action, alternatives))];
      assert calls[|old(calls)|..] == [ReadAnnotationCas(document, dataOwner), decision,
                                       WriteAnnotationCas(document, dataOwner), calls[|calls| - 1]];
      return Pass;
    }
  }

  /** The groups of each document, in the batch's order of documents. */
  function DocumentGroups(docs: seq<DocumentGroup>): (r: seq<seq<SuggestionGroup>>)
    ensures |r| == |docs| && forall i :: 0 <= i < |docs| ==> r[i] == docs[i].groups
  {
    seq(|docs|, i requires 0 <= i < |docs| => docs[i].groups)
  }

  // ---------------------------------------------------------------------------------
  // Session state
  // ---------------------------------------------------------------------------------

  /** `ActiveLearningUserState`: the per-user session. Fields the source leaves null are `None`. */
  class ActiveLearningUserState {
    var sessionActive: bool
    var doExistRecommenders: bool
    var layer: Option<AnnotationLayer>
    var strategy: Option<ActiveLearningStrategy>
    var suggestions: Option<seq<SuggestionGroup>>
    var currentDifference: Option<Delta>
    var leftContext: Option<string>
    var rightContext: Option<string>

    /** A new session is inactive and assumes that recommenders exist. */
    constructor ()
      ensures !sessionActive && doExistRecommenders
      ensures layer == None && strategy == None && suggestions == None
      ensures currentDifference == None && leftContext == None && rightContext == None
    {
      sessionActive := false;
      doExistRecommenders := true;
      layer := None;
      strategy := None;
      suggestions := None;
      currentDifference := None;
      leftContext := None;
      rightContext := None;
    }

    /** `getSuggestion()`: empty when no delta is set, else the delta's first suggestion. */
    function GetSuggestion(): (r: Option<SpanSuggestion>)
      reads this
      ensures r.None? <==> currentDifference.None?
      ensures r.Some? ==> r.value == currentDifference.value.first
    {
      match currentDifference
      case None => None
      case Some(delta) => Some(delta.first)
    }

    /** `setCurrentDifference(d)`: stores the delta, or clears it for an empty optional. */
    method SetCurrentDifference(d: Option<Delta>)
      modifies this
      ensures currentDifference == d && GetSuggestion() == (if d.Some? then Some(d.value.first) else None)
      ensures sessionActive == old(sessionActive) && doExistRecommenders == old(doExistRecommenders)
      ensures layer == old(layer) && strategy == old(strategy) && suggestions == old(suggestions)
      ensures leftContext == old(leftContext) && rightContext == old(rightContext)
    {
      currentDifference := d;
    }

    method SetSessionActive(active: bool)
      modifies this
      ensures sessionActive == active
      ensures doExistRecommenders == old(doExistRecommenders) && currentDifference == old(currentDifference)
      ensures layer == old(layer) && strategy == old(strategy) && suggestions == old(suggestions)
      ensures leftContext == old(leftContext) && rightContext == old(rightContext)
    {
      sessionActive := active;
    }

    method SetDoExistRecommenders(exist: bool)
      modifies this
      ensures doExistRecommenders == exist
      ensures sessionActive == old(sessionActive) && currentDifference == old(currentDifference)
      ensures layer == old(layer) && strategy == old(strategy) && suggestions == old(suggestions)
      ensures leftContext == old(leftContext) && rightContext == old(rightContext)
    {
      doExistRecommenders := exist;
    }

    method SetLayer(selectedLayer: Option<AnnotationLayer>)
      modifies this
      ensures layer == selectedLayer
      ensures sessionActive == old(sessionActive) && doExistRecommenders == old(doExistRecommenders)
      ensures strategy == old(strategy) && suggestions == old(suggestions) && currentDifference == old(currentDifference)
      ensures leftContext == old(leftContext) && rightContext == old(rightContext)
    {
      layer := selectedLayer;
    }

    method SetStrategy(selectedStrategy: Option<ActiveLearningStrategy>)
      modifies this
      ensures strategy == selectedStrategy
      ensures sessionActive == old(sessionActive) && doExistRecommenders == old(doExistRecommenders)
      ensures layer == old(layer) && suggestions == old(suggestions) && currentDifference == old(currentDifference)
      ensures leftContext == old(leftContext) && rightContext == old(rightContext)
    {
      strategy := selectedStrategy;
    }

    method SetSuggestions(groups: Option<seq<SuggestionGroup>>)
      modifies this
      ensures suggestions == groups
      ensures sessionActive == old(sessionActive) && doExistRecommenders == old(doExistRecommenders)
      ensures layer == old(layer) && strategy == old(strategy) && currentDifference == old(currentDifference)
      ensures leftContext == old(leftContext) && rightContext == old(rightContext)
    {
      suggestions := groups;
    }

    method SetLeftContext(context: Option<string>)
      modifies this
      ensures leftContext == context
      ensures sessionActive == old(sessionActive) && doExistRecommenders == old(doExistRecommenders)
      ensures layer == old(layer) && strategy == old(strategy) && suggestions == old(suggestions)
      ensures currentDifference == old(currentDifference) && rightContext == old(rightContext)
    {
      leftContext := context;
    }

    method SetRightContext(context: Option<string>)
      modifies this
      ensures rightContext == context
      ensures sessionActive == old(sessionActive) && doExistRecommenders == old(doExistRecommenders)
      ensures layer == old(layer) && strategy == old(strategy) && suggestions == old(suggestions)
      ensures currentDifference == old(currentDifference) && leftContext == old(leftContext)
    {
      rightContext := context;
    }
  }

  // ---------------------------------------------------------------------------------
  // Session key
  // ---------------------------------------------------------------------------------

  /** `ActiveLearningUserStateKey`. */
  datatype ActiveLearningUserStateKey = ActiveLearningUserStateKey(userName: string, projectId: Int64)

  /** The argument of `equals`: null, another key, or an object of some other class. */
  datatype JavaObject = Null | Key(key: ActiveLearningUserStateKey) | OtherObject

  /** `equals(o)`: a key of the same class with the same project id and user name. */
  function Equals(k: ActiveLearningUserStateKey, o: JavaObject): (r: bool)
    ensures r <==> o.Key? && o.key.userName == k.userName && o.key.projectId == k.projectId
  {
    match o
    case Null => false
    case OtherObject => false
    case Key(that) =>
      if k.projectId != that.projectId then false
      else k.userName == that.userName
  }

  /** Java's `String.hashCode`: `h = 31 * h + c` over the characters, in `int` arithmetic. */
  function StringHashCode(s: string): Int32
    decreases |s|
  {
    if s == [] then 0 else WrapInt(31 * StringHashCode(s[..|s| - 1]) + s[|s| - 1] as int)
  }

  /** `(int) (p ^ (p >>> 32))`: the long XOR its own unsigned shift by 32, cut down to an `int`. */
  function LongHashCode(p: Int64): Int32
  {
    var bits := if p < 0 then p + TWO_64 else p;
    WrapInt(Xor(bits, bits / TWO_32))
  }

  /** Bitwise exclusive or of two non-negative numbers, bit by bit from the lowest. */
  function Xor(a: nat, b: nat): nat
    decreases a + b
  {
    if a == 0 && b == 0 then 0
    else (if a % 2 == b % 2 then 0 else 1) + 2 * Xor(a / 2, b / 2)
  }

  lemma {:induction false} XorZero(a: nat)
    ensures Xor(a, 0) == a
    decreases a
  {
    if a != 0 {
      XorZero(a / 2);
    }
  }

  /** `hashCode()`. */
  function HashCode(k: ActiveLearningUserStateKey): Int32
  {
    WrapInt(31 * StringHashCode(k.userName) + LongHashCode(k.projectId))
  }

  /** Equal keys have equal hash codes. */
  lemma EqualKeysHaveEqualHashCodes(k: ActiveLearningUserStateKey, other: ActiveLearningUserStateKey)
    requires Equals(k, Key(other))
    ensures HashCode(k) == HashCode(other)
  {
  }

  /** `equals` is symmetric. */
  lemma EqualsSymmetric(k: ActiveLearningUserStateKey, other: ActiveLearningUserStateKey)
    ensures Equals(k, Key(other)) == Equals(other, Key(k))
  {
  }

  /** A project id that fits an `int` without its sign bit hashes to itself. */
  lemma SmallProjectIdHash(p: Int64)
    requires 0 <= p < 0x8000_0000
    ensures LongHashCode(p) == p
  {
    XorZero(p);
  }

  /** The documented value of `String.hashCode`: s[0]*31^(n-1) + ... + s[n-1], reduced to an `int`. */
  function HashPolynomial(s: string): int
    decreases |s|
  {
    if s == [] then 0 else s[0] as int * Pow31(|s| - 1) + HashPolynomial(s[1..])
  }

  function Pow31(n: nat): nat
  {
    if n == 0 then 1 else 31 * Pow31(n - 1)
  }

  /** Adding a character multiplies the polynomial so far by 31 and adds the character. */
  lemma {:induction false} HashPolynomialAppend(s: string, c: char)
    ensures HashPolynomial(s + [c]) == 31 * HashPolynomial(s) + c as int
    decreases |s|
  {
    if s == [] {
      assert [c][1..] == [];
    } else {
      assert (s + [c])[1..] == s[1..] + [c];
      HashPolynomialAppend(s[1..], c);
      assert Pow31(|s|) == 31 * Pow31(|s| - 1);
    }
  }

  /** Wrapping after every step gives the `int` of the whole polynomial. */
  lemma {:induction false} StringHashCodeIsPolynomial(s: string)
    ensures StringHashCode(s) == WrapInt(HashPolynomial(s))
    decreases |s|
  {
    if s != [] {
      var init, c := s[..|s| - 1], s[|s| - 1];
      StringHashCodeIsPolynomial(init);
      assert s == init + [c];
      HashPolynomialAppend(init, c);
      HornerStepCongruent(StringHashCode(init), HashPolynomial(init), c as int);
    }
  }

  /** One step of `h = 31 * h + c` keeps two values that agree modulo 2^32 in agreement. */
  lemma HornerStepCongruent(h: int, p: int, c: int)
    requires WrapInt(p) == h
    ensures WrapInt(31 * h + c) == WrapInt(31 * p + c)
  {
    var q := (h - p) / TWO_32;
    assert h - p == TWO_32 * q;
    assert (31 * h + c) - (31 * p + c) == TWO_32 * (31 * q);
    WrapIntCongruent(31 * h + c, 31 * p + c);
  }
}
