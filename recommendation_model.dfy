/**
 * The recommendation types that the active-learning service works on: learning records,
 * layers, features and documents as values, and span suggestions as heap objects. A
 * suggestion is an object because the same instance sits in the session's suggestion list
 * and in the de-duplicated groups built from it, so hiding it is seen through both.
 */
module RecommendationModel {
  import opened Wrappers

  /** What the user did with a suggestion. */
  datatype LearningRecordType = Accepted | Rejected | Corrected | Skipped

  /** Where the decision was taken. */
  datatype LearningRecordChangeLocation = AlSidebar | MainEditor

  /** An annotation layer: its id and the id of its project. */
  datatype AnnotationLayer = AnnotationLayer(id: int, project: int)

  /** A feature of a layer; its project is its layer's project. */
  datatype AnnotationFeature = AnnotationFeature(name: string, layer: AnnotationLayer)
  {
    function Project(): int { layer.project }
  }

  datatype SourceDocument = SourceDocument(project: int, name: string)

  /** A user's recorded decision on a suggestion. */
  datatype LearningRecord = LearningRecord(
    user: string,
    sourceDocument: SourceDocument,
    layer: AnnotationLayer,
    annotationFeature: AnnotationFeature,
    annotation: string,
    offsetBegin: int,
    offsetEnd: int,
    userAction: LearningRecordType,
    changeLocation: LearningRecordChangeLocation)

  /** Whether a suggestion is shown, and the decision that hid it if it is not. */
  datatype HidingState = HidingState(visible: bool, reasonForHiding: Option<LearningRecordType>)

  /**
   * A suggested label for the span `[begin, end)` of a document. Only the hiding state
   * changes. `labelEquals` is not part of this model: `labelRule(suggestedLabel, other)` stands for
   * it, with nothing assumed about it (not even reflexivity).
   */
  class SpanSuggestion {
    const recommenderName: string
    const documentName: string
    const layerId: int
    const feature: string
    const suggestedLabel: string
    const begin: int
    const end: int
    const labelRule: (string, string) -> bool

    var visible: bool
    var reasonForHiding: Option<LearningRecordType>

    /** A new suggestion is visible. */
    constructor (recommenderName: string, documentName: string, layerId: int, feature: string,
                 suggestedLabel: string, begin: int, end: int, labelRule: (string, string) -> bool)
      ensures this.recommenderName == recommenderName && this.documentName == documentName
      ensures this.layerId == layerId && this.feature == feature && this.suggestedLabel == suggestedLabel
      ensures this.begin == begin && this.end == end
      ensures forall x, y :: this.labelRule(x, y) == labelRule(x, y)
      ensures visible && reasonForHiding == None
    {
      this.recommenderName := recommenderName;
      this.documentName := documentName;
      this.layerId := layerId;
      this.feature := feature;
      this.suggestedLabel := suggestedLabel;
      this.begin := begin;
      this.end := end;
      this.labelRule := labelRule;
      visible := true;
      reasonForHiding := None;
    }

    /** `labelEquals(other)`: this suggestion's label against `other`, in that order. */
    predicate LabelEquals(other: string)
    {
      labelRule(suggestedLabel, other)
    }

    function State(): HidingState
      reads this
    {
      HidingState(visible, reasonForHiding)
    }

    /** `hideSuggestion(action)`: hidden, with `action` as the reason. */
    method HideSuggestion(action: LearningRecordType)
      modifies this
      ensures State() == HidingState(false, Some(action))
    {
      visible := false;
      reasonForHiding := Some(action);
    }

    /** `toBuilder().withLabel(newLabel).build()`: a new suggestion equal to this one but for its label. */
    method WithLabel(newLabel: string) returns (copy: SpanSuggestion)
      ensures fresh(copy) && copy.suggestedLabel == newLabel && SameButLabel(copy, this)
      ensures copy.State() == State()
    {
      copy := new SpanSuggestion(recommenderName, documentName, layerId, feature, newLabel, begin, end, labelRule);
      copy.visible, copy.reasonForHiding := visible, reasonForHiding;
    }
  }

  /** Two suggestions agree on everything that does not change, except perhaps the label. */
  ghost predicate SameButLabel(a: SpanSuggestion, b: SpanSuggestion)
  {
    && a.recommenderName == b.recommenderName && a.documentName == b.documentName
    && a.layerId == b.layerId && a.feature == b.feature
    && a.begin == b.begin && a.end == b.end
    && (forall x, y :: a.labelRule(x, y) == b.labelRule(x, y))
  }

  /** The suggestions a recommender made for one position, in the recommender's order. */
  type SuggestionGroup = seq<SpanSuggestion>

  /** The suggestion groups of one document. */
  datatype DocumentGroup = DocumentGroup(documentName: string, groups: seq<SuggestionGroup>)

  /**
   * A batch of predictions for a user and project: the span suggestions of a layer per
   * document (in the order in which the batch's map lists its documents), and the
   * suggestions at one position of a document for a layer and feature.
   */
  datatype Predictions = Predictions(
    forWholeProject: AnnotationLayer -> seq<DocumentGroup>,
    byTokenAndFeature: (string, AnnotationLayer, int, int, string) -> seq<SpanSuggestion>)

  /** The recommender settings handed to a strategy. */
  datatype Preferences = Preferences(settings: map<string, string>)

  /** The suggestion to present, and optionally an alternative for the same position. */
  datatype Delta = Delta(first: SpanSuggestion, second: Option<SpanSuggestion>)
}
