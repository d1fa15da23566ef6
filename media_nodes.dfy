/** The audio and image stages and the media review gate
    (orchestration/nodes/media_nodes.py). */
module MediaNodes {
  import opened Results
  import opened Schema

  const AudioGenerated := "Audio generated successfully"
  const ImagesGenerated := "Images generated successfully"
  const MediaReview := "review_media"
  const MediaNotice := "Paused for media review. Click Continue when ready."
  /** `str(e)` of the AttributeError raised by reading `state.narration`
      from a value of the schema type, which has no such field. */
  const MissingNarration := "'WorkflowState' object has no attribute 'narration'"

  /** `generate_audio(state)`: it reads `state.narration`, then calls the
      synthesiser on it. */
  function GenerateAudio(s: WorkflowState, synthesize: string -> Result<string>): (r: WorkflowState)
    ensures KeepsFlags(s, r)
    ensures s.narration.Some? && synthesize(s.narration.value).Ok? ==>
      && r.audioPath == synthesize(s.narration.value).value
      && r.statusMessage == AudioGenerated
      && r.(audioPath := s.audioPath, statusMessage := s.statusMessage) == Validate(s)
    ensures s.narration.None? ==> r.error == "Failed to generate audio: " + MissingNarration
    ensures s.narration.Some? && synthesize(s.narration.value).Err? ==>
      r.error == "Failed to generate audio: " + synthesize(s.narration.value).msg
    ensures (s.narration.None? || synthesize(s.narration.value).Err?) ==>
      && r.hasError
      && r.statusMessage == "Error generating audio"
      && r.(error := s.error, hasError := s.hasError, statusMessage := s.statusMessage) == Validate(s)
  {
    match s.narration
    case None => RecordError(Validate(s), "Failed to generate audio: " + MissingNarration, "Error generating audio")
    case Some(narration) =>
      match synthesize(narration)
      case Ok(path) => Validate(s).(audioPath := path, statusMessage := AudioGenerated)
      case Err(e) => RecordError(Validate(s), "Failed to generate audio: " + e, "Error generating audio")
  }

  /** On a value of the schema type the audio stage always fails, whatever
      the synthesiser would do, and the audio path stays as it was. */
  lemma GenerateAudioOnSchemaState(s: WorkflowState, synthesize: string -> Result<string>)
    requires Validated(s)
    ensures GenerateAudio(s, synthesize).hasError
    ensures GenerateAudio(s, synthesize).error == "Failed to generate audio: " + MissingNarration
    ensures GenerateAudio(s, synthesize).audioPath == s.audioPath
  {
  }

  /** `generate_images(state)`; `generateImages` is the image service on the
      state's prompts. */
  function GenerateImages(s: WorkflowState, generateImages: seq<string> -> Result<seq<string>>): (r: WorkflowState)
    ensures KeepsFlags(s, r)
    ensures generateImages(s.imagePrompts).Ok? ==>
      && r.imagePaths == generateImages(s.imagePrompts).value
      && r.statusMessage == ImagesGenerated
      && r.(imagePaths := s.imagePaths, statusMessage := s.statusMessage) == Validate(s)
    ensures generateImages(s.imagePrompts).Err? ==>
      && r.error == "Failed to generate images: " + generateImages(s.imagePrompts).msg
      && r.hasError
      && r.statusMessage == "Error generating images"
      && r.(error := s.error, hasError := s.hasError, statusMessage := s.statusMessage) == Validate(s)
  {
    match generateImages(s.imagePrompts)
    case Ok(paths) => Validate(s).(imagePaths := paths, statusMessage := ImagesGenerated)
    case Err(e) => RecordError(Validate(s), "Failed to generate images: " + e, "Error generating images")
  }

  /** `check_pause_media(state)` */
  function CheckPauseMedia(s: WorkflowState): (r: WorkflowState)
    ensures KeepsFlags(s, r)
    ensures r.(statusMessage := s.statusMessage) == Validate(s)
    ensures s.isPaused && s.pauseReason == MediaReview ==> r.statusMessage == MediaNotice
    ensures !(s.isPaused && s.pauseReason == MediaReview) ==> r == Validate(s)
  {
    var d := Validate(s);
    if s.isPaused && s.pauseReason == MediaReview then d.(statusMessage := MediaNotice) else d
  }

  lemma CheckPauseMediaIdempotent(s: WorkflowState)
    ensures CheckPauseMedia(CheckPauseMedia(s)) == CheckPauseMedia(s)
  {
  }
}
