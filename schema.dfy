/** The record threaded through every workflow node (orchestration/schema.py). */
module Schema {
  import opened Results

  /** One news article as the HTTP API returns it: field name to text. */
  type RawArticle = map<string, string>

  /** The workflow state. The first fourteen fields are the schema's, in its
      order. A node returns a dictionary, not a state: `narration` and
      `trendingTopics` hold the two keys that nodes write beside the schema's
      (None when the dictionary has no such key). The schema itself declares
      `narrator`, which no node writes. */
  datatype WorkflowState = WorkflowState(
    topic: string,
    rawArticles: seq<RawArticle>,
    consolidatedNews: string,
    script: string,
    narrator: string,
    imagePrompts: seq<string>,
    audioPath: string,
    imagePaths: seq<string>,
    videoPath: string,
    uploadStatus: map<string, string>,
    statusMessage: string,
    isPaused: bool,
    pauseReason: string,
    error: string,
    hasError: bool,
    narration: Option<string>,
    trendingTopics: Option<seq<string>>)

  const ReadyToStart := "Ready to start"

  /** `WorkflowState()`: every field at its declared default. */
  function Default(): (s: WorkflowState)
    ensures Consistent(s) && Validated(s)
  {
    WorkflowState("", [], "", "", "", [], "", [], "", map[], ReadyToStart, false, "", "", false, None, None)
  }

  /** `WorkflowState(topic=topic)`, as the driver builds the first state:
      the topic with every other field at its default, so neither paused
      nor failed. */
  function Initial(topic: string): (s: WorkflowState)
    ensures s.topic == topic && Consistent(s) && Validated(s)
    ensures !s.isPaused && !s.hasError && s.statusMessage == ReadyToStart
  {
    Default().(topic := topic)
  }

  /** Building a `WorkflowState` from a node's dictionary keeps the schema's
      keys and drops the others (the model's default `extra = "ignore"`). */
  function Validate(d: WorkflowState): (s: WorkflowState)
    ensures Validated(s)
    ensures s.(narration := d.narration, trendingTopics := d.trendingTopics) == d
  {
    d.(narration := None, trendingTopics := None)
  }

  /** A value of the schema type itself: no key outside the schema. */
  predicate Validated(s: WorkflowState) {
    s.narration.None? && s.trendingTopics.None?
  }

  /** The two pairings of fields the design intends: an error flag with its
      message, and a pause flag with its reason. */
  predicate Consistent(s: WorkflowState) {
    (s.hasError <==> s.error != "") && (s.isPaused <==> s.pauseReason != "")
  }

  /** What no node does: change `is_paused` or `pause_reason`, or clear
      `has_error`. */
  predicate KeepsFlags(s: WorkflowState, r: WorkflowState) {
    r.isPaused == s.isPaused && r.pauseReason == s.pauseReason && (s.hasError ==> r.hasError)
  }

  /** The error branch every stage shares: `error`, `has_error` and
      `status_message` are set on a copy of the input; nothing else changes. */
  function RecordError(s: WorkflowState, error: string, status: string): (r: WorkflowState)
    requires error != ""
    ensures r.hasError && r.error == error && r.statusMessage == status
    ensures Consistent(s) ==> Consistent(r)
    ensures r.(error := s.error, hasError := s.hasError, statusMessage := s.statusMessage) == s
  {
    s.(error := error, hasError := true, statusMessage := status)
  }

  /** The schema's defaults: empty text, empty lists and map, "Ready to
      start", and both flags false. */
  lemma DefaultFields()
    ensures var d := Default();
      && d.topic == "" && d.consolidatedNews == "" && d.script == "" && d.narrator == ""
      && d.audioPath == "" && d.videoPath == "" && d.pauseReason == "" && d.error == ""
      && d.rawArticles == [] && d.imagePrompts == [] && d.imagePaths == [] && d.uploadStatus == map[]
      && d.statusMessage == "Ready to start" && !d.isPaused && !d.hasError
  {
  }
}
