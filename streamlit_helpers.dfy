/** The session bookkeeping and review helpers of the Streamlit driver
    (utils/streamlit_helpers.py). Widgets are inputs: a button press is the
    index of the pressed button, a text box is the text it holds. */
module StreamlitHelpers {
  import opened Results
  import opened Text
  import opened Schema

  /** The session keys this core reads and writes. */
  datatype Key = WorkflowStateKey | IsRunningKey | IsPausedKey | PauseReasonKey | TrendingTopicsKey | SelectedTopicKey

  /** The key as spelled in the session. */
  function KeyName(k: Key): string {
    match k
    case WorkflowStateKey => "workflow_state"
    case IsRunningKey => "is_running"
    case IsPausedKey => "is_paused"
    case PauseReasonKey => "pause_reason"
    case TrendingTopicsKey => "trending_topics"
    case SelectedTopicKey => "selected_trending_topic"
  }

  /** The six keys `initialize_session_state` provides. */
  const SessionKeys: set<Key> :=
    {WorkflowStateKey, IsRunningKey, IsPausedKey, PauseReasonKey, TrendingTopicsKey, SelectedTopicKey}

  /** At most this many trending topics get a button, in this many columns. */
  const MaxShown := 10
  const Columns := 5

  /** One trending-topic button as laid out: its caption, widget key, column,
      and whether it is drawn as the primary (selected) button. */
  datatype Button = Button(caption: string, key: string, column: nat, primary: bool)

  /** The widget key `f"trend_{i}"`. */
  function TrendKey(i: nat): string {
    "trend_" + NatToString(i)
  }

  /** The session value of `selected_trending_topic` while button `i` is
      drawn: the topic of a button pressed before it, else what the session
      held on entry. */
  function SelectionAt(before: Option<string>, topics: seq<string>, pressed: Option<nat>, i: nat): Option<string> {
    if pressed.Some? && pressed.value < i && pressed.value < |topics| then Some(topics[pressed.value]) else before
  }

  /** The button for topic i, given the selection before the list was drawn. */
  function TopicButton(before: Option<string>, topics: seq<string>, pressed: Option<nat>, i: nat): Button
    requires i < |topics|
  {
    Button(topics[i], TrendKey(i), i % Columns, SelectionAt(before, topics, pressed, i) == Some(topics[i]))
  }

  /** `st.session_state`, as far as the driver uses it. A field's value
      means something only once its key is in `present`. */
  class Session {
    var present: set<Key>
    var workflowState: Option<WorkflowState>
    var isRunning: bool
    var isPaused: bool
    var pauseReason: string
    var trendingTopics: seq<string>
    var selectedTrendingTopic: string

    /** A new browser session holds no key. */
    constructor ()
      ensures present == {}
    {
      present := {};
    }

    /** Every key of `initialize_session_state` has been set. */
    predicate Initialized()
      reads this
    {
      SessionKeys <= present
    }

    /** `st.session_state.get('selected_trending_topic')` */
    function Selection(): Option<string>
      reads this
    {
      if SelectedTopicKey in present then Some(selectedTrendingTopic) else None
    }

    /** `initialize_session_state()`: a default for each absent key; a key
        already present keeps its value, so a second call changes nothing. */
    method InitializeSessionState()
      modifies this
      ensures Initialized() && present == old(present) + SessionKeys
      ensures workflowState == if WorkflowStateKey in old(present) then old(workflowState) else None
      ensures isRunning == if IsRunningKey in old(present) then old(isRunning) else false
      ensures isPaused == if IsPausedKey in old(present) then old(isPaused) else false
      ensures pauseReason == if PauseReasonKey in old(present) then old(pauseReason) else ""
      ensures trendingTopics == if TrendingTopicsKey in old(present) then old(trendingTopics) else []
      ensures selectedTrendingTopic == if SelectedTopicKey in old(present) then old(selectedTrendingTopic) else ""
      ensures old(Initialized()) ==> present == old(present)
    {
      workflowState, isRunning, isPaused, pauseReason, trendingTopics, selectedTrendingTopic, present :=
        if WorkflowStateKey in present then workflowState else None,
        if IsRunningKey in present then isRunning else false,
        if IsPausedKey in present then isPaused else false,
        if PauseReasonKey in present then pauseReason else "",
        if TrendingTopicsKey in present then trendingTopics else [],
        if SelectedTopicKey in present then selectedTrendingTopic else "",
        present + SessionKeys;
      if SessionKeys <= old(present) {
        assert present == old(present);
      }
    }

    /** `display_trending_topics(topics)`, with `pressed` the button the
        user pressed in this run, if any. An empty list shows nothing and
        returns "" whatever the session holds. Otherwise the first ten topics
        get a button each, topic i in column i mod 5, drawn as primary when
        it is the session's selection at that moment; a pressed topic
        becomes the selection; the session's selection is returned. */
    method DisplayTrendingTopics(topics: seq<string>, pressed: Option<nat>) returns (selected: string, buttons: seq<Button>)
      modifies this`present, this`selectedTrendingTopic
      ensures topics == [] ==> selected == "" && buttons == []
      ensures |buttons| == if |topics| <= MaxShown then |topics| else MaxShown
      ensures forall i :: 0 <= i < |buttons| ==>
        && buttons[i].caption == topics[i] && buttons[i].key == TrendKey(i) && buttons[i].column == i % Columns
        && buttons[i].primary == (SelectionAt(old(Selection()), topics, pressed, i) == Some(topics[i]))
      ensures present == if pressed.Some? && pressed.value < |buttons| then old(present) + {SelectedTopicKey} else old(present)
      ensures selectedTrendingTopic == if pressed.Some? && pressed.value < |buttons| then topics[pressed.value] else old(selectedTrendingTopic)
      ensures topics != [] ==> selected == Selection().GetOr("")
    {
      if topics == [] {
        return "", [];
      }
      ghost var before, present0, selected0 := Selection(), present, selectedTrendingTopic;
      var shown := if |topics| <= MaxShown then topics else topics[..MaxShown];
      buttons := [];
      var i := 0;
      while i < |shown|
        invariant 0 <= i <= |shown| && |buttons| == i
        invariant forall j :: 0 <= j < i ==> buttons[j] == TopicButton(before, topics, pressed, j)
        invariant present == if pressed.Some? && pressed.value < i then present0 + {SelectedTopicKey} else present0
        invariant selectedTrendingTopic == if pressed.Some? && pressed.value < i then topics[pressed.value] else selected0
      {
        assert Selection() == SelectionAt(before, topics, pressed, i);
        buttons := buttons + [Button(shown[i], TrendKey(i), i % Columns, Selection() == Some(shown[i]))];
        if pressed == Some(i) {
          selectedTrendingTopic := shown[i];
          present := present + {SelectedTopicKey};
        }
        i := i + 1;
      }
      selected := Selection().GetOr("");
    }

    /** `display_news_review(news)` with `edited` the text of the edit box:
        the state's news is replaced only when the edit differs. */
    method ReviewNews(news: string, edited: string)
      requires workflowState.Some?
      modifies this`workflowState
      ensures edited != news ==> workflowState == Some(old(workflowState).value.(consolidatedNews := edited))
      ensures edited == news ==> workflowState == old(workflowState)
    {
      if edited != news {
        workflowState := Some(workflowState.value.(consolidatedNews := edited));
      }
    }

    /** `display_script_review(script, imagePrompts)` with `editedScript` the
        script box and `entry(label, prompt)` the text of the box labelled
        `label` that starts out holding `prompt`: the script and the prompt
        list are each replaced only when their edit differs. */
    method ReviewScript(script: string, imagePrompts: seq<string>, editedScript: string, entry: (string, string) -> string)
      returns (editedPrompts: seq<string>)
      requires workflowState.Some?
      modifies this`workflowState
      ensures |editedPrompts| == |imagePrompts|
      ensures forall i :: 0 <= i < |imagePrompts| ==> editedPrompts[i] == entry(PromptLabel(i), imagePrompts[i])
      ensures var w := old(workflowState).value;
        var w1 := if editedScript != script then w.(script := editedScript) else w;
        workflowState == Some(if editedPrompts != imagePrompts then w1.(imagePrompts := editedPrompts) else w1)
    {
      if editedScript != script {
        workflowState := Some(workflowState.value.(script := editedScript));
      }
      editedPrompts := EditPrompts(imagePrompts, entry);
      if editedPrompts != imagePrompts {
        workflowState := Some(workflowState.value.(imagePrompts := editedPrompts));
      }
    }
  }

  /** The label `f"Image {i+1}"`. */
  function PromptLabel(i: nat): string {
    "Image " + NatToString(i + 1)
  }

  /** The loop collecting one text box per prompt, in order. */
  method EditPrompts(imagePrompts: seq<string>, entry: (string, string) -> string) returns (edited: seq<string>)
    ensures |edited| == |imagePrompts|
    ensures forall i :: 0 <= i < |imagePrompts| ==> edited[i] == entry(PromptLabel(i), imagePrompts[i])
  {
    edited := [];
    var i := 0;
    while i < |imagePrompts|
      invariant 0 <= i <= |imagePrompts| && |edited| == i
      invariant forall j :: 0 <= j < i ==> edited[j] == entry(PromptLabel(j), imagePrompts[j])
    {
      edited := edited + [entry(PromptLabel(i), imagePrompts[i])];
      i := i + 1;
    }
  }

  /** Untouched prompt boxes give back the prompt list itself, so the
      script review then writes no prompts. */
  lemma UntouchedPromptsUnchanged(imagePrompts: seq<string>, edited: seq<string>, entry: (string, string) -> string)
    requires |edited| == |imagePrompts|
    requires forall i :: 0 <= i < |imagePrompts| ==> edited[i] == entry(PromptLabel(i), imagePrompts[i])
    requires forall i :: 0 <= i < |imagePrompts| ==> entry(PromptLabel(i), imagePrompts[i]) == imagePrompts[i]
    ensures edited == imagePrompts
  {
  }

  /** The configuration `validate_api_keys` reads; None for a setting found
      neither in the secrets nor in the environment. */
  datatype Settings = Settings(
    eventRegistryApiKey: Option<string>,
    groqApiKey: Option<string>,
    serviceAccountPath: Option<string>,
    clientSecretsPath: Option<string>)

  /** The settings `validate_api_keys` checks, in the order it checks them. */
  datatype Requirement = EventRegistryApiKey | GroqApiKey | ServiceAccountPath | ClientSecretsPath

  /** The name reported for a requirement. */
  function RequirementName(r: Requirement): string {
    match r
    case EventRegistryApiKey => "EVENT_REGISTRY_API_KEY"
    case GroqApiKey => "GROQ_API_KEY"
    case ServiceAccountPath => "GOOGLE_CLOUD_SERVICE_ACCOUNT_PATH"
    case ClientSecretsPath => "YOUTUBE_CLIENT_SECRETS_PATH"
  }

  /** Where a requirement comes in the checking order. */
  function Position(r: Requirement): nat {
    match r
    case EventRegistryApiKey => 0
    case GroqApiKey => 1
    case ServiceAccountPath => 2
    case ClientSecretsPath => 3
  }

  /** Distinct requirements are reported under distinct names. */
  lemma RequirementNamesDistinct(r: Requirement, q: Requirement)
    requires r != q
    ensures RequirementName(r) != RequirementName(q)
  {
    assert |RequirementName(r)| != |RequirementName(q)|;
  }

  /** `not value`: unset or empty. */
  predicate Unset(v: Option<string>) {
    v.None? || v.value == ""
  }

  /** `not path or not os.path.exists(path)` */
  predicate PathMissing(v: Option<string>, pathExists: string -> bool) {
    Unset(v) || !pathExists(v.value)
  }

  /** Whether a requirement is to be reported; the YouTube secrets count
      only when upload is enabled. */
  predicate Missing(r: Requirement, settings: Settings, pathExists: string -> bool, uploadEnabled: bool) {
    match r
    case EventRegistryApiKey => Unset(settings.eventRegistryApiKey)
    case GroqApiKey => Unset(settings.groqApiKey)
    case ServiceAccountPath => PathMissing(settings.serviceAccountPath, pathExists)
    case ClientSecretsPath => uploadEnabled && PathMissing(settings.clientSecretsPath, pathExists)
  }

  /** `validate_api_keys()`: `pathExists` is `os.path.exists`, `uploadEnabled`
      the session's `enable_youtube_upload` (False when absent). A
      requirement is reported exactly when its setting is missing, each at
      most once, in the fixed checking order. */
  method ValidateApiKeys(settings: Settings, pathExists: string -> bool, uploadEnabled: bool) returns (missing: seq<Requirement>)
    ensures forall r :: r in missing <==> Missing(r, settings, pathExists, uploadEnabled)
    ensures forall i, j :: 0 <= i < j < |missing| ==> Position(missing[i]) < Position(missing[j])
    ensures !uploadEnabled ==> ClientSecretsPath !in missing
  {
    missing := [];
    if Unset(settings.eventRegistryApiKey) {
      missing := missing + [EventRegistryApiKey];
    }
    if Unset(settings.groqApiKey) {
      missing := missing + [GroqApiKey];
    }
    if PathMissing(settings.serviceAccountPath, pathExists) {
      missing := missing + [ServiceAccountPath];
    }
    if uploadEnabled {
      if PathMissing(settings.clientSecretsPath, pathExists) {
        missing := missing + [ClientSecretsPath];
      }
    }
  }
}
