/** The Streamlit driver's control logic (app.py): choosing the topic,
    consuming the workflow's stream until the first enabled review
    checkpoint, the Continue action and the choice of final result. The
    stream is the runner of the workflow graph; the name of each step's
    node is taken as given. */
module App {
  import opened Results
  import opened Schema
  import W = Workflow
  import NewsNodes
  import ScriptNodes
  import MediaNodes
  import VideoNodes
  import TrendsService
  import opened StreamlitHelpers

  /** The number of steps the stream allows: the library's default
      recursion limit. */
  const RecursionLimit := 25

  /** The four checkbox values and the typed topic of the input form. */
  datatype Form = Form(typed: string, reviewNews: bool, reviewScript: bool, reviewMedia: bool, reviewVideo: bool)

  /** `if not topic and selected_topic: topic = selected_topic`: the typed
      topic wins; an empty one falls back to the selected trending topic. */
  function ChooseTopic(typed: string, selected: string): (topic: string)
    ensures typed != "" ==> topic == typed
    ensures typed == "" ==> topic == selected
    ensures topic == "" <==> typed == "" && selected == ""
  {
    if typed == "" && selected != "" then selected else typed
  }

  /** `pause_checkpoints`: each review reason to its checkbox. */
  function CheckpointMap(f: Form): (m: map<string, bool>)
    ensures m.Keys == {NewsNodes.NewsReview, ScriptNodes.ScriptReview, MediaNodes.MediaReview, VideoNodes.VideoReview}
    ensures Enabled(m, NewsNodes.NewsReview) == f.reviewNews
    ensures Enabled(m, ScriptNodes.ScriptReview) == f.reviewScript
    ensures Enabled(m, MediaNodes.MediaReview) == f.reviewMedia
    ensures Enabled(m, VideoNodes.VideoReview) == f.reviewVideo
  {
    map[NewsNodes.NewsReview := f.reviewNews, ScriptNodes.ScriptReview := f.reviewScript,
        MediaNodes.MediaReview := f.reviewMedia, VideoNodes.VideoReview := f.reviewVideo]
  }

  /** `pause_checkpoints.get(reason, False)` */
  predicate Enabled(checkpoints: map<string, bool>, reason: string) {
    reason in checkpoints && checkpoints[reason]
  }

  /** The four-way test of the stream loop: the pause reason to record
      after a step of the named node, if the driver stops there. */
  function StopReason(node: string, checkpoints: map<string, bool>): Option<string> {
    if node == "check_pause_news" && Enabled(checkpoints, NewsNodes.NewsReview) then Some(NewsNodes.NewsReview)
    else if node == "check_pause_script" && Enabled(checkpoints, ScriptNodes.ScriptReview) then Some(ScriptNodes.ScriptReview)
    else if node == "check_pause_media" && Enabled(checkpoints, MediaNodes.MediaReview) then Some(MediaNodes.MediaReview)
    else if node == "check_pause_video" && Enabled(checkpoints, VideoNodes.VideoReview) then Some(VideoNodes.VideoReview)
    else None
  }

  /** The pause reason each gate node waits for. */
  function GateReason(n: W.Node): (r: Option<string>)
    ensures r.Some? <==> W.IsGate(n)
  {
    match n
    case CheckNews => Some(NewsNodes.NewsReview)
    case CheckScript => Some(ScriptNodes.ScriptReview)
    case CheckMedia => Some(MediaNodes.MediaReview)
    case CheckVideo => Some(VideoNodes.VideoReview)
    case _ => None
  }

  /** The driver stops only after a gate, exactly when that gate's reason
      is enabled, and records the reason that gate waits for. */
  lemma StopReasonAtNode(n: W.Node, checkpoints: map<string, bool>)
    ensures StopReason(W.Name(n), checkpoints) ==
      if W.IsGate(n) && Enabled(checkpoints, GateReason(n).value) then GateReason(n) else None
  {
  }

  /** The index of the first step after which the driver stops, or the
      number of steps when it stops nowhere. */
  function FirstStop(steps: seq<W.Step>, checkpoints: map<string, bool>): (k: nat)
    ensures k <= |steps|
    ensures k < |steps| ==> StopReason(W.Name(steps[k].node), checkpoints).Some?
    ensures forall i :: 0 <= i < k ==> StopReason(W.Name(steps[i].node), checkpoints).None?
    decreases |steps|
  {
    if steps == [] then 0
    else if StopReason(W.Name(steps[0].node), checkpoints).Some? then 0
    else 1 + FirstStop(steps[1..], checkpoints)
  }

  /** The `for step_output in workflow.stream(...)` loop: every consumed
      step becomes the session's workflow state and counts once; consuming
      ends after the first step with an enabled checkpoint, which pauses
      the session with that checkpoint's reason. */
  method ConsumeStream(session: Session, steps: seq<W.Step>, checkpoints: map<string, bool>)
    returns (stepCount: nat, stopped: bool)
    modifies session`workflowState, session`isPaused, session`pauseReason
    ensures var k := FirstStop(steps, checkpoints);
      && (stopped <==> k < |steps|)
      && stepCount == (if stopped then k + 1 else |steps|)
      && session.workflowState == (if stepCount == 0 then old(session.workflowState) else Some(steps[stepCount - 1].state))
      && (stopped ==> session.isPaused && session.pauseReason == StopReason(W.Name(steps[k].node), checkpoints).value)
      && (!stopped ==> session.isPaused == old(session.isPaused) && session.pauseReason == old(session.pauseReason))
  {
    stepCount := 0;
    stopped := false;
    var i := 0;
    while i < |steps|
      invariant 0 <= i <= |steps| && stepCount == i && !stopped
      invariant i <= FirstStop(steps, checkpoints)
      invariant session.workflowState == (if i == 0 then old(session.workflowState) else Some(steps[i - 1].state))
      invariant session.isPaused == old(session.isPaused) && session.pauseReason == old(session.pauseReason)
    {
      var step := steps[i];
      session.workflowState := Some(step.state);
      stepCount := stepCount + 1;
      var reason := StopReason(W.Name(step.node), checkpoints);
      if reason.Some? {
        session.isPaused := true;
        session.pauseReason := reason.value;
        stopped := true;
        break;
      }
      i := i + 1;
    }
  }

  /** The stream of the workflow started on a topic. */
  function Stream(nodes: (W.Node, WorkflowState) -> WorkflowState, topic: string): (seq<W.Step>, bool) {
    W.Run(nodes, W.Entry, Initial(topic), RecursionLimit)
  }

  /** The form's submit handler. An empty topic is refused and nothing
      changes. Otherwise the session is marked running, the workflow is
      streamed from `WorkflowState(topic=topic)` and consumed; `is_running`
      goes back to false only when the stream raises, which is when the
      step limit ends it before it completes and before the driver stops. */
  method Submit(session: Session, form: Form, selected: string, nodes: (W.Node, WorkflowState) -> WorkflowState)
    returns (topicMissing: bool, stepCount: nat)
    modifies session`workflowState, session`isPaused, session`pauseReason, session`isRunning
    ensures topicMissing <==> ChooseTopic(form.typed, selected) == ""
    ensures topicMissing ==> stepCount == 0 && unchanged(session)
    ensures !topicMissing ==>
      var run := Stream(nodes, ChooseTopic(form.typed, selected));
      var k := FirstStop(run.0, CheckpointMap(form));
      && stepCount == (if k < |run.0| then k + 1 else |run.0|)
      && session.workflowState == (if stepCount == 0 then old(session.workflowState) else Some(run.0[stepCount - 1].state))
      && (k < |run.0| ==> session.isPaused && session.pauseReason == StopReason(W.Name(run.0[k].node), CheckpointMap(form)).value)
      && (k == |run.0| ==> session.isPaused == old(session.isPaused) && session.pauseReason == old(session.pauseReason))
      && session.isRunning == (k < |run.0| || run.1)
  {
    var topic := ChooseTopic(form.typed, selected);
    if topic == "" {
      return true, 0;
    }
    topicMissing := false;
    var checkpoints := CheckpointMap(form);
    session.isRunning := true;
    var run := Stream(nodes, topic);
    ghost var k := FirstStop(run.0, checkpoints);
    var stopped;
    stepCount, stopped := ConsumeStream(session, run.0, checkpoints);
    assert stopped <==> k < |run.0|;
    if !stopped && !run.1 {
      session.isRunning := false;
    }
    assert session.isRunning == (k < |run.0| || run.1);
  }

  /** "Continue Processing", shown only for a paused session holding a
      state: it clears the pause and marks the session running, and runs
      no workflow step; the workflow state stays as it was. */
  method Continue(session: Session)
    requires session.workflowState.Some? && session.isPaused
    modifies session`isPaused, session`pauseReason, session`isRunning
    ensures !session.isPaused && session.pauseReason == "" && session.isRunning
  {
    session.isPaused := false;
    session.pauseReason := "";
    var initialState := Validate(session.workflowState.value);
    session.isRunning := true;
  }

  /** What the "Final Results" section shows. */
  datatype Final = Uploaded(url: string) | Generated(videoPath: string) | NoVideo

  /** The section appears only for a held state when the session is
      neither running nor paused; an upload URL is preferred over the
      local video. */
  function FinalResult(state: Option<WorkflowState>, isRunning: bool, isPaused: bool): (r: Option<Final>)
    ensures r.Some? <==> state.Some? && !isRunning && !isPaused
    ensures r.Some? ==> (r.value.Uploaded? <==> "video_url" in state.value.uploadStatus)
    ensures r.Some? && r.value.Uploaded? ==> r.value.url == state.value.uploadStatus["video_url"]
    ensures r.Some? && r.value.Generated? ==> r.value.videoPath == state.value.videoPath != ""
    ensures r.Some? && r.value.NoVideo? ==> state.value.videoPath == ""
  {
    if state.None? || isRunning || isPaused then None
    else if state.value.uploadStatus != map[] && "video_url" in state.value.uploadStatus then
      Some(Uploaded(state.value.uploadStatus["video_url"]))
    else if state.value.videoPath != "" then Some(Generated(state.value.videoPath))
    else Some(NoVideo)
  }

  /** Trending topics are fetched once per session: only while the session
      holds none. */
  method LoadTrendingTopics(session: Session, scrape: TrendsService.Scrape)
    modifies session`trendingTopics
    ensures old(session.trendingTopics) != [] ==> session.trendingTopics == old(session.trendingTopics)
    ensures old(session.trendingTopics) == [] ==> session.trendingTopics == TrendsService.ReturnedTopics(scrape)
  {
    if |session.trendingTopics| == 0 {
      var scraper := new TrendsService.TrendsScraper();
      var topics := scraper.GetTrendingTopics(scrape);
      session.trendingTopics := topics;
    }
  }

  /** Where the first enabled checkpoint sits in the production order. */
  function FirstEnabledGate(f: Form): nat {
    if f.reviewNews then 2
    else if f.reviewScript then 4
    else if f.reviewMedia then 7
    else if f.reviewVideo then 9
    else 12
  }

  /** The k-th step of a run is at the k-th node it visits. */
  lemma {:induction false} StepNodesAt(steps: seq<W.Step>)
    ensures forall i :: 0 <= i < |steps| ==> W.StepNodes(steps)[i] == steps[i].node
    decreases |steps|
  {
    if steps != [] {
      StepNodesAt(steps[1..]);
    }
  }

  /** Along the production order, the driver stops first at the first
      enabled checkpoint's gate. */
  lemma StopsInOrder(f: Form, i: nat)
    requires i < |W.Order|
    ensures StopReason(W.Name(W.Order[i]), CheckpointMap(f)).Some? ==> FirstEnabledGate(f) <= i
    ensures i == FirstEnabledGate(f) ==> StopReason(W.Name(W.Order[i]), CheckpointMap(f)).Some?
  {
    StopReasonAtNode(W.Order[i], CheckpointMap(f));
  }

  /** A stream that visits the production order stops right after the gate
      of the first enabled checkpoint, with that gate's reason; with no
      checkpoint enabled it is consumed whole. */
  lemma StopAlongOrder(steps: seq<W.Step>, f: Form)
    requires W.StepNodes(steps) == W.Order
    ensures var k := FirstStop(steps, CheckpointMap(f));
      && k == FirstEnabledGate(f)
      && (k < |steps| ==>
            && steps[k].node == W.Order[k] && W.IsGate(steps[k].node)
            && StopReason(W.Name(steps[k].node), CheckpointMap(f)) == GateReason(steps[k].node))
  {
    var cp := CheckpointMap(f);
    var k := FirstStop(steps, cp);
    StopIndexAlongOrder(steps, f);
    StepNodesAt(steps);
    if k < |steps| {
      StopReasonAtNode(steps[k].node, cp);
    }
  }

  /** The first stop along the production order is at the first enabled gate. */
  lemma StopIndexAlongOrder(steps: seq<W.Step>, f: Form)
    requires W.StepNodes(steps) == W.Order
    ensures FirstStop(steps, CheckpointMap(f)) == FirstEnabledGate(f)
  {
    StepNodesAt(steps);
    var k := FirstStop(steps, CheckpointMap(f));
    var g := FirstEnabledGate(f);
    if k < g {
      StopsInOrder(f, k);
    }
    if g < k {
      StopsInOrder(f, g);
    }
  }

  /** With the graph's nodes, a submitted topic streams all twelve nodes in
      order, and the driver stops right after the gate of the first enabled
      checkpoint, whatever errors the stages recorded. */
  lemma DriverStopsAtFirstEnabledGate(env: W.Collaborators, topic: string, f: Form)
    ensures var run := Stream(W.Nodes(env), topic);
      var k := FirstStop(run.0, CheckpointMap(f));
      && |run.0| == |W.Order| && k == FirstEnabledGate(f)
      && (k < |run.0| ==>
            && run.0[k].node == W.Order[k] && W.IsGate(run.0[k].node)
            && StopReason(W.Name(run.0[k].node), CheckpointMap(f)) == GateReason(run.0[k].node))
  {
    W.UnpausedRunFromEntry(env, Initial(topic), RecursionLimit);
    StopAlongOrder(Stream(W.Nodes(env), topic).0, f);
  }

  /** With the graph's nodes the stream never raises before the driver
      stops or the run completes, so a submitted run leaves `is_running`
      true and the final results stay hidden until something else clears
      it. */
  lemma SubmittedRunStaysRunning(env: W.Collaborators, topic: string, f: Form)
    ensures var run := Stream(W.Nodes(env), topic);
      FirstStop(run.0, CheckpointMap(f)) < |run.0| || run.1
  {
    W.UnpausedRunFromEntry(env, Initial(topic), RecursionLimit);
  }
}
