/** The stage/gate graph (orchestration/workflow.py): twelve nodes, seven
    fixed edges, four gates that stay put while the state is paused, and a
    runner that threads the state through the nodes the way the compiled
    graph streams them. */
module Workflow {
  import opened Results
  import opened Schema
  import TrendsService
  import NewsService
  import ScriptService
  import ImageService
  import TrendNodes
  import NewsNodes
  import ScriptNodes
  import MediaNodes
  import VideoNodes
  import UploadNodes

  datatype Node =
    | FetchTrending | FetchNews | CheckNews | GenerateScript | CheckScript | GenerateAudio
    | GenerateImages | CheckMedia | AssembleVideo | CheckVideo | UploadVideo | Finish

  /** The name each node is registered under. */
  function Name(n: Node): string {
    match n
    case FetchTrending => "fetch_trending_topics"
    case FetchNews => "fetch_and_consolidate_news"
    case CheckNews => "check_pause_news"
    case GenerateScript => "generate_script_and_prompts"
    case CheckScript => "check_pause_script"
    case GenerateAudio => "generate_audio"
    case GenerateImages => "generate_images"
    case CheckMedia => "check_pause_media"
    case AssembleVideo => "assemble_video"
    case CheckVideo => "check_pause_video"
    case UploadVideo => "upload_video"
    case Finish => "finish_workflow"
  }

  const Entry := FetchTrending

  /** The production order of the nodes. */
  const Order := [FetchTrending, FetchNews, CheckNews, GenerateScript, CheckScript, GenerateAudio,
                  GenerateImages, CheckMedia, AssembleVideo, CheckVideo, UploadVideo, Finish]

  predicate IsGate(n: Node) {
    n == CheckNews || n == CheckScript || n == CheckMedia || n == CheckVideo
  }

  /** The position of a node in the production order. */
  function Rank(n: Node): (k: nat)
    ensures k < |Order| && Order[k] == n
  {
    match n
    case FetchTrending => 0
    case FetchNews => 1
    case CheckNews => 2
    case GenerateScript => 3
    case CheckScript => 4
    case GenerateAudio => 5
    case GenerateImages => 6
    case CheckMedia => 7
    case AssembleVideo => 8
    case CheckVideo => 9
    case UploadVideo => 10
    case Finish => 11
  }

  /** Every node appears once in the order, under a name of its own. */
  lemma OrderIsComplete()
    ensures |Order| == 12 && Order[0] == Entry && Order[11] == Finish
    ensures forall i, j :: 0 <= i < j < |Order| ==> Order[i] != Order[j] && Name(Order[i]) != Name(Order[j])
    ensures forall n: Node :: n in Order
  {
    forall n: Node ensures n in Order {
      assert Order[Rank(n)] == n;
    }
  }

  /** The edge table: the successor of `n`, given the state `n` returned;
      None after the terminal node. A gate's routing reads `is_paused` only. */
  function Next(n: Node, s: WorkflowState): Option<Node> {
    match n
    case FetchTrending => Some(FetchNews)
    case FetchNews => Some(CheckNews)
    case CheckNews => if s.isPaused then Some(CheckNews) else Some(GenerateScript)
    case GenerateScript => Some(CheckScript)
    case CheckScript => if s.isPaused then Some(CheckScript) else Some(GenerateAudio)
    case GenerateAudio => Some(GenerateImages)
    case GenerateImages => Some(CheckMedia)
    case CheckMedia => if s.isPaused then Some(CheckMedia) else Some(AssembleVideo)
    case AssembleVideo => Some(CheckVideo)
    case CheckVideo => if s.isPaused then Some(CheckVideo) else Some(UploadVideo)
    case UploadVideo => Some(Finish)
    case Finish => None
  }

  /** The node after `n` in the production order. */
  function Successor(n: Node): (m: Node)
    requires n != Finish
    ensures Rank(m) == Rank(n) + 1 && m == Order[Rank(n) + 1]
  {
    match n
    case FetchTrending => FetchNews
    case FetchNews => CheckNews
    case CheckNews => GenerateScript
    case GenerateScript => CheckScript
    case CheckScript => GenerateAudio
    case GenerateAudio => GenerateImages
    case GenerateImages => CheckMedia
    case CheckMedia => AssembleVideo
    case AssembleVideo => CheckVideo
    case CheckVideo => UploadVideo
    case UploadVideo => Finish
  }

  /** The production order from `n` to the terminal node. */
  function OrderFrom(n: Node): (r: seq<Node>)
    ensures r != [] && r[0] == n
    decreases |Order| - Rank(n)
  {
    if n == Finish then [Finish] else [n] + OrderFrom(Successor(n))
  }

  lemma OrderFromEntry()
    ensures OrderFrom(Entry) == Order
  {
  }

  /** Each non-gate node but the last has the next node in the order as its
      only successor; a gate stays on itself while paused and otherwise
      moves on to the next node; no edge leaves the terminal node. */
  lemma EdgesFollowOrder(n: Node, s: WorkflowState)
    ensures n != Finish && !IsGate(n) ==> Next(n, s) == Some(Successor(n))
    ensures IsGate(n) && s.isPaused ==> Next(n, s) == Some(n)
    ensures IsGate(n) && !s.isPaused ==> Next(n, s) == Some(Successor(n))
    ensures n == Finish <==> Next(n, s).None?
  {
  }

  /** The only cycles are the gates' self-loops: every other edge goes one
      step forward in the order. */
  lemma OnlySelfLoops(n: Node, s: WorkflowState)
    requires Next(n, s).Some?
    ensures var m := Next(n, s).value;
      (m == n && IsGate(n) && s.isPaused) || Rank(m) == Rank(n) + 1
  {
  }

  /** Routing depends on nothing but `is_paused`: an errored state takes the
      same edges as a clean one. */
  lemma RoutingReadsOnlyPause(n: Node, s: WorkflowState, t: WorkflowState)
    requires s.isPaused == t.isPaused
    ensures Next(n, s) == Next(n, t)
  {
  }

  /** The `finish_workflow` lambda. */
  function FinishWorkflow(s: WorkflowState): (r: WorkflowState)
    ensures r.statusMessage == "Workflow completed"
    ensures r.(statusMessage := s.statusMessage) == Validate(s)
    ensures KeepsFlags(s, r)
  {
    Validate(s).(statusMessage := "Workflow completed")
  }

  /** What each stage calls: the two scrapes of the trend stage, the news
      service, the script service (as the tuple the node unpacks), the
      speech synthesiser, the image service, the video editor and the
      uploader. */
  datatype Collaborators = Collaborators(
    firstScrape: TrendsService.Scrape,
    secondScrape: TrendsService.Scrape,
    getNews: string -> Result<string>,
    generate: string -> ScriptNodes.GeneratorReturn,
    synthesize: string -> Result<string>,
    generateImages: seq<string> -> Result<seq<string>>,
    createVideo: (string, seq<string>) -> Result<string>,
    upload: (string, string, string) -> Result<map<string, string>>)

  /** The collaborators the repository wires in: the news, script and image
      services of this model over the news API, the summariser, the
      language model and the image downloads. The news and image services
      catch their own failures, so those stages see a call that returns. */
  function Services(
    firstScrape: TrendsService.Scrape, secondScrape: TrendsService.Scrape,
    search: string -> NewsService.ApiReply, summarize: string -> Result<string>,
    complete: string -> Result<string>, synthesize: string -> Result<string>,
    fetchImage: string -> ImageService.Attempt, createVideo: (string, seq<string>) -> Result<string>,
    upload: (string, string, string) -> Result<map<string, string>>): Collaborators
  {
    Collaborators(
      firstScrape, secondScrape,
      t => Ok(NewsService.NewsForTopic(t, search, summarize)),
      c => ScriptNodes.FromGenerator(ScriptService.GenerateScript(complete(c))),
      synthesize,
      ps => Ok(ImageService.ImageList(ps, fetchImage)),
      createVideo, upload)
  }

  /** The script collaborator returns more than two values. */
  ghost predicate ReturnsMoreThanTwo(env: Collaborators) {
    forall c :: env.generate(c).rest != []
  }

  /** With the repository's services the news call never raises, the image
      call returns one path per prompt, and the script call returns five
      values. */
  lemma ServicesShape(
    firstScrape: TrendsService.Scrape, secondScrape: TrendsService.Scrape,
    search: string -> NewsService.ApiReply, summarize: string -> Result<string>,
    complete: string -> Result<string>, synthesize: string -> Result<string>,
    fetchImage: string -> ImageService.Attempt, createVideo: (string, seq<string>) -> Result<string>,
    upload: (string, string, string) -> Result<map<string, string>>)
    ensures var env := Services(firstScrape, secondScrape, search, summarize, complete, synthesize, fetchImage, createVideo, upload);
      && (forall t :: env.getNews(t) == Ok(NewsService.NewsForTopic(t, search, summarize)))
      && (forall ps :: env.generateImages(ps).Ok? && |env.generateImages(ps).value| == |ps|)
      && ReturnsMoreThanTwo(env)
  {
    var env := Services(firstScrape, secondScrape, search, summarize, complete, synthesize, fetchImage, createVideo, upload);
    forall c ensures env.generate(c).rest != [] {
      assert env.generate(c) == ScriptNodes.FromGenerator(ScriptService.GenerateScript(complete(c)));
    }
  }

  /** One node on one state. */
  function Apply(env: Collaborators, n: Node, s: WorkflowState): WorkflowState {
    match n
    case FetchTrending => TrendNodes.FetchTrendingTopics(s, env.firstScrape, env.secondScrape)
    case FetchNews => NewsNodes.FetchAndConsolidateNews(s, env.getNews)
    case CheckNews => NewsNodes.CheckPauseNews(s)
    case GenerateScript => ScriptNodes.GenerateScriptAndPrompts(s, env.generate)
    case CheckScript => ScriptNodes.CheckPauseScript(s)
    case GenerateAudio => MediaNodes.GenerateAudio(s, env.synthesize)
    case GenerateImages => MediaNodes.GenerateImages(s, env.generateImages)
    case CheckMedia => MediaNodes.CheckPauseMedia(s)
    case AssembleVideo => VideoNodes.AssembleVideo(s, env.createVideo)
    case CheckVideo => VideoNodes.CheckPauseVideo(s)
    case UploadVideo => UploadNodes.UploadVideo(s, env.upload).state
    case Finish => FinishWorkflow(s)
  }

  /** The node table of the graph, as the runner calls it. */
  function Nodes(env: Collaborators): (Node, WorkflowState) -> WorkflowState {
    (n, s) => Apply(env, n, s)
  }

  /** No node changes `is_paused` or `pause_reason`. */
  ghost predicate KeepsPause(nodes: (Node, WorkflowState) -> WorkflowState) {
    forall n, s :: nodes(n, s).isPaused == s.isPaused && nodes(n, s).pauseReason == s.pauseReason
  }

  /** No node clears `has_error`, and the script stage always sets it. */
  ghost predicate ScriptStageErrs(nodes: (Node, WorkflowState) -> WorkflowState) {
    && (forall n: Node, s: WorkflowState :: s.hasError ==> nodes(n, s).hasError)
    && (forall s :: nodes(GenerateScript, s).hasError)
  }

  /** No node changes `is_paused` or `pause_reason`, or clears `has_error`. */
  lemma NodeKeepsFlags(env: Collaborators, n: Node, s: WorkflowState)
    ensures KeepsFlags(s, Apply(env, n, s))
  {
  }

  /** The graph's nodes keep the pause fields. */
  lemma GraphKeepsPause(env: Collaborators)
    ensures KeepsPause(Nodes(env))
  {
    forall n, s ensures Nodes(env)(n, s).isPaused == s.isPaused && Nodes(env)(n, s).pauseReason == s.pauseReason {
      NodeKeepsFlags(env, n, s);
    }
  }

  /** In the graph an error, once recorded, stays, and the script stage
      always records one. */
  lemma GraphScriptStageErrs(env: Collaborators)
    requires ReturnsMoreThanTwo(env)
    ensures ScriptStageErrs(Nodes(env))
  {
    forall n: Node, s: WorkflowState | s.hasError ensures Nodes(env)(n, s).hasError {
      NodeKeepsFlags(env, n, s);
    }
    forall s ensures Nodes(env)(GenerateScript, s).hasError {
      ScriptStageFails(env, s);
    }
  }

  /** A news call that never raises makes the news stage succeed. */
  lemma NewsStageSucceeds(env: Collaborators, s: WorkflowState)
    requires env.getNews(s.topic).Ok?
    ensures var r := Apply(env, FetchNews, s);
      && r.consolidatedNews == env.getNews(s.topic).value
      && r.statusMessage == NewsNodes.NewsFetched
      && r.hasError == s.hasError && r.error == s.error
  {
  }

  /** A script call with more than two values makes the script stage fail. */
  lemma ScriptStageFails(env: Collaborators, s: WorkflowState)
    requires ReturnsMoreThanTwo(env)
    ensures Apply(env, GenerateScript, s).hasError
    ensures Apply(env, GenerateScript, s).error == "Failed to generate script: " + ScriptNodes.UnpackError
  {
    assert env.generate(s.consolidatedNews).rest != [];
  }

  /** One streamed step: the node that ran and the state it returned. */
  datatype Step = Step(node: Node, state: WorkflowState)

  /** The stream from node `n` on state `s` through the node table `nodes`.
      Between nodes only the schema's fields survive. `fuel` is the number
      of steps the library allows; a run that needs more ends with
      `completed` false, the library's recursion error. */
  function Run(nodes: (Node, WorkflowState) -> WorkflowState, n: Node, s: WorkflowState, fuel: nat): (r: (seq<Step>, bool))
    ensures |r.0| <= fuel
    ensures r.0 != [] ==> r.0[0] == Step(n, nodes(n, s))
    decreases fuel
  {
    if fuel == 0 then ([], false)
    else
      var out := nodes(n, s);
      match Next(n, out)
      case None => ([Step(n, out)], true)
      case Some(m) =>
        var rest := Run(nodes, m, Validate(out), fuel - 1);
        ([Step(n, out)] + rest.0, rest.1)
  }

  /** The nodes a stream visits, in order. */
  function StepNodes(steps: seq<Step>): (r: seq<Node>)
    ensures |r| == |steps|
  {
    if steps == [] then [] else [steps[0].node] + StepNodes(steps[1..])
  }

  lemma StepNodesCons(st: Step, rest: seq<Step>)
    ensures StepNodes([st] + rest) == [st.node] + StepNodes(rest)
  {
    assert ([st] + rest)[1..] == rest;
  }

  /** One step of the run, when the node has a successor. */
  lemma RunStep(nodes: (Node, WorkflowState) -> WorkflowState, n: Node, m: Node, s: WorkflowState, fuel: nat)
    requires fuel > 0 && Next(n, nodes(n, s)) == Some(m)
    ensures var rest := Run(nodes, m, Validate(nodes(n, s)), fuel - 1);
      Run(nodes, n, s, fuel) == ([Step(n, nodes(n, s))] + rest.0, rest.1)
  {
  }

  /** On an unpaused state every node but the last moves on to the next. */
  lemma UnpausedNext(n: Node, s: WorkflowState)
    requires !s.isPaused
    ensures Next(n, s) == if n == Finish then None else Some(Successor(n))
  {
  }

  /** An unpaused run from any node completes. */
  lemma {:induction false} UnpausedRunCompletes(nodes: (Node, WorkflowState) -> WorkflowState, n: Node, s: WorkflowState, fuel: nat)
    requires KeepsPause(nodes)
    requires !s.isPaused && fuel >= |Order| - Rank(n)
    ensures Run(nodes, n, s, fuel).1
    decreases |Order| - Rank(n)
  {
    var out := nodes(n, s);
    assert !out.isPaused;
    UnpausedNext(n, out);
    if n != Finish {
      RunStep(nodes, n, Successor(n), s, fuel);
      UnpausedRunCompletes(nodes, Successor(n), Validate(out), fuel - 1);
    }
  }

  /** An unpaused run from any node goes through the rest of the order,
      each node once. */
  lemma {:induction false} UnpausedRunFollowsOrder(nodes: (Node, WorkflowState) -> WorkflowState, n: Node, s: WorkflowState, fuel: nat)
    requires KeepsPause(nodes)
    requires !s.isPaused && fuel >= |Order| - Rank(n)
    ensures StepNodes(Run(nodes, n, s, fuel).0) == OrderFrom(n)
    decreases |Order| - Rank(n)
  {
    var out := nodes(n, s);
    assert !out.isPaused;
    UnpausedNext(n, out);
    if n != Finish {
      RunStepNodes(nodes, n, s, fuel);
      UnpausedRunFollowsOrder(nodes, Successor(n), Validate(out), fuel - 1);
    } else {
      RunAtFinish(nodes, s, fuel);
    }
  }

  /** The nodes of a run that moves on from `n` to its successor. */
  lemma RunStepNodes(nodes: (Node, WorkflowState) -> WorkflowState, n: Node, s: WorkflowState, fuel: nat)
    requires fuel > 0 && n != Finish && Next(n, nodes(n, s)) == Some(Successor(n))
    ensures StepNodes(Run(nodes, n, s, fuel).0)
      == [n] + StepNodes(Run(nodes, Successor(n), Validate(nodes(n, s)), fuel - 1).0)
  {
    RunStep(nodes, n, Successor(n), s, fuel);
    StepNodesCons(Step(n, nodes(n, s)), Run(nodes, Successor(n), Validate(nodes(n, s)), fuel - 1).0);
  }

  /** The terminal node is the run's last step. */
  lemma RunAtFinish(nodes: (Node, WorkflowState) -> WorkflowState, s: WorkflowState, fuel: nat)
    requires fuel > 0
    ensures StepNodes(Run(nodes, Finish, s, fuel).0) == [Finish]
  {
    assert Run(nodes, Finish, s, fuel).0 == [Step(Finish, nodes(Finish, s))];
  }

  /** The run the driver starts, from the entry on an unpaused state, with
      the graph's nodes: it visits the twelve nodes in order, each once, and
      completes. */
  lemma UnpausedRunFromEntry(env: Collaborators, s: WorkflowState, fuel: nat)
    requires !s.isPaused && fuel >= 12
    ensures Run(Nodes(env), Entry, s, fuel).1
    ensures StepNodes(Run(Nodes(env), Entry, s, fuel).0) == Order
  {
    GraphKeepsPause(env);
    UnpausedRunCompletes(Nodes(env), Entry, s, fuel);
    UnpausedRunFollowsOrder(Nodes(env), Entry, s, fuel);
    OrderFromEntry();
  }

  /** On a paused state a gate repeats until the step limit is reached. */
  lemma {:induction false} PausedGateSpins(nodes: (Node, WorkflowState) -> WorkflowState, g: Node, s: WorkflowState, fuel: nat)
    requires KeepsPause(nodes)
    requires IsGate(g) && s.isPaused
    ensures var r := Run(nodes, g, s, fuel);
      !r.1 && |r.0| == fuel && forall i :: 0 <= i < |r.0| ==> r.0[i].node == g
    decreases fuel
  {
    if fuel > 0 {
      assert Next(g, nodes(g, s)) == Some(g);
      RunStep(nodes, g, g, s, fuel);
      PausedGateSpins(nodes, g, Validate(nodes(g, s)), fuel - 1);
    }
  }

  /** A run started on a paused state never completes: it reaches the news
      gate and stays there. */
  lemma PausedRunSpins(nodes: (Node, WorkflowState) -> WorkflowState, s: WorkflowState, fuel: nat)
    requires KeepsPause(nodes)
    requires s.isPaused
    ensures !Run(nodes, Entry, s, fuel).1
  {
    if fuel >= 2 {
      RunStep(nodes, FetchTrending, FetchNews, s, fuel);
      var s1 := Validate(nodes(FetchTrending, s));
      RunStep(nodes, FetchNews, CheckNews, s1, fuel - 1);
      var s2 := Validate(nodes(FetchNews, s1));
      PausedGateSpins(nodes, CheckNews, s2, fuel - 2);
    }
  }

  /** The same for the graph's nodes. */
  lemma PausedRunNeverCompletes(env: Collaborators, s: WorkflowState, fuel: nat)
    requires s.isPaused
    ensures !Run(Nodes(env), Entry, s, fuel).1
  {
    GraphKeepsPause(env);
    PausedRunSpins(Nodes(env), s, fuel);
  }

  /** In an unpaused run, every step from the script stage on carries
      `has_error`. */
  lemma {:induction false} ErrorFromScriptStageOn(nodes: (Node, WorkflowState) -> WorkflowState, n: Node, s: WorkflowState, fuel: nat)
    requires KeepsPause(nodes) && ScriptStageErrs(nodes)
    requires !s.isPaused && fuel >= |Order| - Rank(n)
    requires Rank(n) > 3 ==> s.hasError
    ensures var r := Run(nodes, n, s, fuel);
      forall i :: 0 <= i < |r.0| && Rank(n) + i >= 3 ==> r.0[i].state.hasError
    decreases |Order| - Rank(n)
  {
    var out := nodes(n, s);
    assert !out.isPaused;
    UnpausedNext(n, out);
    if n != Finish {
      RunStep(nodes, n, Successor(n), s, fuel);
      ErrorFromScriptStageOn(nodes, Successor(n), Validate(out), fuel - 1);
    }
  }

  /** With a script call of more than two values, as the repository's is,
      the state the terminal node returns in an unpaused run from the entry
      carries an error: the script stage always fails and no later node
      clears the flag. */
  lemma UnpausedRunEndsInError(env: Collaborators, s: WorkflowState, fuel: nat)
    requires ReturnsMoreThanTwo(env)
    requires !s.isPaused && fuel >= 12
    ensures |Run(Nodes(env), Entry, s, fuel).0| == 12
    ensures Run(Nodes(env), Entry, s, fuel).0[11].state.hasError
  {
    GraphKeepsPause(env);
    GraphScriptStageErrs(env);
    UnpausedRunFromEntry(env, s, fuel);
    ErrorFromScriptStageOn(Nodes(env), Entry, s, fuel);
  }
}
