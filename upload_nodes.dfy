/** The upload stage (orchestration/nodes/upload_nodes.py). Deleting the
    files after a successful upload is recorded as a request, not
    performed. */
module UploadNodes {
  import opened Results
  import opened Text
  import opened Schema

  const SummaryLength := 500
  const DescriptionHead := "Auto-generated news video about "
  const DescriptionTail := "...\n\nThis video was automatically generated."

  /** The files `cleanup_files` is asked to delete. */
  datatype Cleanup = Cleanup(audioPath: string, imagePaths: seq<string>, videoPath: string)

  /** The node's returned state, and the cleanup it ran, if any. */
  datatype UploadOutcome = UploadOutcome(state: WorkflowState, cleanup: Option<Cleanup>)

  /** `f"News Update: {state.topic}"` */
  function UploadTitle(topic: string): string {
    "News Update: " + topic
  }

  /** The description: fixed text around the topic and at most the first
      500 characters of the news. */
  function UploadDescription(topic: string, news: string): (d: string)
    ensures exists summary :: (
      && |summary| <= SummaryLength && StartsWith(news, summary)
      && (|news| <= SummaryLength ==> summary == news)
      && (|news| > SummaryLength ==> |summary| == SummaryLength)
      && d == DescriptionHead + topic + ".\n\nSummary:\n" + summary + DescriptionTail)
  {
    var summary := Take(news, SummaryLength);
    DescriptionHead + topic + ".\n\nSummary:\n" + summary + DescriptionTail
  }

  /** `upload_video(state)`; `upload` is the uploader called on the video
      path, the title and the description. */
  function UploadVideo(s: WorkflowState, upload: (string, string, string) -> Result<map<string, string>>): (r: UploadOutcome)
    ensures KeepsFlags(s, r.state)
  {
    match upload(s.videoPath, UploadTitle(s.topic), DescriptionOf(s))
    case Err(e) =>
      UploadOutcome(RecordError(Validate(s), "Failed to upload video: " + e, "Error uploading video"), None)
    case Ok(status) =>
      if "error" in status then
        UploadOutcome(Validate(s).(uploadStatus := status, statusMessage := "Video upload failed: " + status["error"]), None)
      else if "video_url" in status then
        UploadOutcome(Validate(s).(uploadStatus := status, statusMessage := "Video uploaded successfully: " + status["video_url"]),
                      Some(Cleanup(s.audioPath, s.imagePaths, s.videoPath)))
      else
        // `upload_status['video_url']` raises KeyError, whose text is the quoted key
        UploadOutcome(RecordError(Validate(s), "Failed to upload video: 'video_url'", "Error uploading video"), None)
  }

  /** The description handed to the uploader for a state. */
  function DescriptionOf(s: WorkflowState): string {
    UploadDescription(s.topic, s.consolidatedNews)
  }

  /** An "error" entry: the result is stored, the status reports the failure,
      `has_error` is not set and nothing is cleaned up. Nothing else changes. */
  lemma UploadReportsFailure(s: WorkflowState, upload: (string, string, string) -> Result<map<string, string>>)
    requires upload(s.videoPath, UploadTitle(s.topic), DescriptionOf(s)).Ok?
    requires "error" in upload(s.videoPath, UploadTitle(s.topic), DescriptionOf(s)).value
    ensures var status := upload(s.videoPath, UploadTitle(s.topic), DescriptionOf(s)).value;
      var r := UploadVideo(s, upload);
      && r.state.uploadStatus == status
      && r.state.statusMessage == "Video upload failed: " + status["error"]
      && r.state.hasError == s.hasError && r.state.error == s.error
      && r.cleanup.None?
      && r.state.(uploadStatus := s.uploadStatus, statusMessage := s.statusMessage) == Validate(s)
  {
  }

  /** A "video_url" entry without "error": the result is stored, the status
      gives the URL, and the audio, image and video files are cleaned up.
      Nothing else changes. */
  lemma UploadSucceeds(s: WorkflowState, upload: (string, string, string) -> Result<map<string, string>>)
    requires upload(s.videoPath, UploadTitle(s.topic), DescriptionOf(s)).Ok?
    requires "error" !in upload(s.videoPath, UploadTitle(s.topic), DescriptionOf(s)).value
    requires "video_url" in upload(s.videoPath, UploadTitle(s.topic), DescriptionOf(s)).value
    ensures var status := upload(s.videoPath, UploadTitle(s.topic), DescriptionOf(s)).value;
      var r := UploadVideo(s, upload);
      && r.state.uploadStatus == status
      && r.state.statusMessage == "Video uploaded successfully: " + status["video_url"]
      && r.cleanup == Some(Cleanup(s.audioPath, s.imagePaths, s.videoPath))
      && r.state.(uploadStatus := s.uploadStatus, statusMessage := s.statusMessage) == Validate(s)
  {
  }

  /** A raising uploader: the error is recorded and nothing is cleaned up. */
  lemma UploadRaises(s: WorkflowState, upload: (string, string, string) -> Result<map<string, string>>)
    requires upload(s.videoPath, UploadTitle(s.topic), DescriptionOf(s)).Err?
    ensures var r := UploadVideo(s, upload);
      && r.state == RecordError(Validate(s), "Failed to upload video: " + upload(s.videoPath, UploadTitle(s.topic), DescriptionOf(s)).msg, "Error uploading video")
      && r.cleanup.None?
  {
  }

  /** A status with neither "error" nor "video_url" makes the key lookup raise;
      the KeyError's text is the quoted key, and nothing is cleaned up. */
  lemma UploadMissingUrl(s: WorkflowState, upload: (string, string, string) -> Result<map<string, string>>)
    requires upload(s.videoPath, UploadTitle(s.topic), DescriptionOf(s)).Ok?
    requires "error" !in upload(s.videoPath, UploadTitle(s.topic), DescriptionOf(s)).value
    requires "video_url" !in upload(s.videoPath, UploadTitle(s.topic), DescriptionOf(s)).value
    ensures var r := UploadVideo(s, upload);
      && r.state == RecordError(Validate(s), "Failed to upload video: 'video_url'", "Error uploading video")
      && r.cleanup.None?
  {
  }

  /** Files are cleaned up exactly when the uploader returned a "video_url"
      and no "error". */
  lemma UploadCleansUpIffUploaded(s: WorkflowState, upload: (string, string, string) -> Result<map<string, string>>)
    ensures var res := upload(s.videoPath, UploadTitle(s.topic), DescriptionOf(s));
      UploadVideo(s, upload).cleanup.Some? <==> res.Ok? && "error" !in res.value && "video_url" in res.value
  {
  }
}
