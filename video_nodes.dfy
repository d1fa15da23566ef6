/** The video stage and its review gate (orchestration/nodes/video_nodes.py). */
module VideoNodes {
  import opened Results
  import opened Schema

  const VideoAssembled := "Video assembled successfully"
  const VideoReview := "review_video"
  const VideoNotice := "Paused for video review. Click Continue when ready."

  /** `assemble_video(state)`; `createVideo` is the editor's `create_video`
      on the audio path and the image paths. */
  function AssembleVideo(s: WorkflowState, createVideo: (string, seq<string>) -> Result<string>): (r: WorkflowState)
    ensures KeepsFlags(s, r)
    ensures createVideo(s.audioPath, s.imagePaths).Ok? ==>
      && r.videoPath == createVideo(s.audioPath, s.imagePaths).value
      && r.statusMessage == VideoAssembled
      && r.(videoPath := s.videoPath, statusMessage := s.statusMessage) == Validate(s)
    ensures createVideo(s.audioPath, s.imagePaths).Err? ==>
      && r.error == "Failed to assemble video: " + createVideo(s.audioPath, s.imagePaths).msg
      && r.hasError
      && r.statusMessage == "Error assembling video"
      && r.(error := s.error, hasError := s.hasError, statusMessage := s.statusMessage) == Validate(s)
  {
    match createVideo(s.audioPath, s.imagePaths)
    case Ok(path) => Validate(s).(videoPath := path, statusMessage := VideoAssembled)
    case Err(e) => RecordError(Validate(s), "Failed to assemble video: " + e, "Error assembling video")
  }

  /** `check_pause_video(state)` */
  function CheckPauseVideo(s: WorkflowState): (r: WorkflowState)
    ensures KeepsFlags(s, r)
    ensures r.(statusMessage := s.statusMessage) == Validate(s)
    ensures s.isPaused && s.pauseReason == VideoReview ==> r.statusMessage == VideoNotice
    ensures !(s.isPaused && s.pauseReason == VideoReview) ==> r == Validate(s)
  {
    var d := Validate(s);
    if s.isPaused && s.pauseReason == VideoReview then d.(statusMessage := VideoNotice) else d
  }

  lemma CheckPauseVideoIdempotent(s: WorkflowState)
    ensures CheckPauseVideo(CheckPauseVideo(s)) == CheckPauseVideo(s)
  {
  }
}
