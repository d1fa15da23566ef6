# youtube-automation: the stage/gate workflow and its parsers, in Dafny

This project models the control core of an automated news-video pipeline.
A LangGraph graph of twelve nodes threads one `WorkflowState` record through
the production stages. The stages are trending topic, news, script, audio,
images, video and upload, and four review gates sit between them. A gate
loops on itself while the state is paused. A Streamlit driver streams the
graph and stops after the first gate whose review checkbox is ticked. A
"Continue" button clears the pause. The stages call services for trends,
news, script text and images, and the text-processing parts of those
services are modelled too. The largest of them is the fallback parser that
turns the language model's reply into script, prompts, emotion, title and
description.

Modules, one per source file:

- `Results`: `Option` and `Result`.
- `Text`: the Python `str` operations the code relies on, with Python's semantics.
- `Schema`: `orchestration/schema.py`.
- `Workflow`: `orchestration/workflow.py`.
- `TrendNodes`, `NewsNodes`, `ScriptNodes`, `MediaNodes`, `VideoNodes`, `UploadNodes`: `orchestration/nodes/*.py`.
- `App`: the control logic of `app.py`.
- `StreamlitHelpers`: `utils/streamlit_helpers.py`.
- `ScriptService`, `TrendsService`, `NewsService`, `ImageService`: the files under `services/`.

Each collaborator is an input to the model. This covers the language model,
the news API, the browser scrape, the speech synthesiser, the video editor,
the uploader, `os.path.exists`, the image HTTP request and the Streamlit
widgets. A call that may raise is a `Result`, and the exception's text is
the `Err` message.

The model keeps these behaviours of the code exactly as written:

- The script node unpacks two values from the script service, which returns
  five. With the repository's service the unpack always raises, so the script
  stage always records an error (`Workflow.ScriptStageFails`,
  `ScriptNodes.GenerateWithScriptServiceFails`). Every later state of an
  unpaused run therefore carries `has_error` (`Workflow.UnpausedRunEndsInError`).
- Nodes return dictionaries that hold keys beside the schema's: `narration` and
  `trending_topics`. Between nodes the graph rebuilds a `WorkflowState`, which
  drops them (`Schema.Validate`). So `generate_audio` reads a `narration` that a
  schema state does not have, and always fails (`MediaNodes.GenerateAudioOnSchemaState`).
  The schema declares `narrator`, which no node writes.
- Routing reads `is_paused` only, never `has_error`, and no node sets
  `is_paused`. Only the driver pauses the session, and it does so after a
  step, not inside the graph.
- `is_running` is reset only when the stream raises (`App.SubmittedRunStaysRunning`).

Where the code's own comments and help texts promise more than its
statements do, the model follows the statements:

- The gates' routes are commented "Loop back to self until unpaused"
  (`orchestration/workflow.py:50`, `:63`, `:77`, `:90`). The checkboxes'
  help texts say "Pause after fetching news to review content" and the like
  (`app.py:85-93`). But no node sets `is_paused`, so within a run every gate
  routes on (`Workflow.UnpausedRunFollowsOrder`). What stops the run is the
  driver, which stops consuming the stream after the gate whose checkbox is
  ticked (`App.DriverStopsAtFirstEnabledGate`).
- The Continue handler is commented "Continue the workflow" (`app.py:203`).
  It clears the pause, builds a state it never uses, marks the session
  running and reruns the page (`app.py:200-207`). It does not restart the
  stream, so no stage after the gate is reached from the driver (`App.Continue`).

## Model

| member | source | states |
|---|---|---|
| Schema.Default | orchestration/schema.py:5-32 | A fresh state has consistent error and pause flags (`has_error` iff `error` is non-empty, `is_paused` iff `pause_reason` is non-empty) and no extra keys |
| Schema.DefaultFields | orchestration/schema.py:8-31 | The defaults: every text field "", the three lists empty, `upload_status` empty, status "Ready to start", both flags false |
| Schema.Initial | app.py:118 | `WorkflowState(topic=topic)` holds the topic and is neither paused nor failed, with status "Ready to start" |
| Schema.Validate | orchestration/schema.py:5-32 | Rebuilding the record from a node's dictionary keeps every schema field and drops the non-schema keys |
| Schema.RecordError | orchestration/nodes/news_nodes.py:26-32 | The shared error branch sets `error`, `has_error` and the status, keeps the flags consistent, and changes nothing else |
| Workflow.Rank | orchestration/workflow.py:14-37 | Each node has a position in the production order |
| Workflow.OrderIsComplete | orchestration/workflow.py:14-37 | Twelve nodes with distinct registered names, entry first, `finish_workflow` last, every node in the order |
| Workflow.Successor | orchestration/workflow.py:42-96 | The next production node is the one after it in the order |
| Workflow.OrderFromEntry | orchestration/workflow.py:99 | The order read from the entry node is the whole production order |
| Workflow.EdgesFollowOrder | orchestration/workflow.py:42-96 | Every non-gate node except the terminal one has its fixed successor. A paused gate loops on itself, and an unpaused gate goes to the next stage. No edge leaves `finish_workflow` |
| Workflow.OnlySelfLoops | orchestration/workflow.py:42-99 | Every edge is a paused gate's self-loop or one step forward, so these are the only cycles |
| Workflow.RoutingReadsOnlyPause | orchestration/workflow.py:46-93 | Two states with the same `is_paused` take the same edge, whatever their `has_error` |
| Workflow.FinishWorkflow | orchestration/workflow.py:37 | The terminal lambda changes only `status_message`, to "Workflow completed" |
| Workflow.ServicesShape | orchestration/workflow.py:14-37 | With the repository's services, the news call never raises, the image call returns one path per prompt, and the script call returns more than two values |
| Workflow.NodeKeepsFlags | orchestration/workflow.py:14-37 | No node changes `is_paused` or `pause_reason`, or clears `has_error` |
| Workflow.GraphKeepsPause | orchestration/workflow.py:14-37 | The node table as a whole keeps the pause fields |
| Workflow.GraphScriptStageErrs | orchestration/nodes/script_nodes.py:18 | In the graph a recorded error stays, and the script stage always records one |
| Workflow.NewsStageSucceeds | orchestration/nodes/news_nodes.py:13-24 | A news call that returns sets the news and the success status and leaves the error fields alone |
| Workflow.ScriptStageFails | orchestration/nodes/script_nodes.py:18 | A generator returning more than two values makes the script stage fail with the unpacking error |
| Workflow.Run | orchestration/workflow.py:14-99 | The stream is bounded by the step limit, and its first step is the starting node applied to the state |
| Workflow.StepNodes | orchestration/workflow.py:14-99 | One visited node per streamed step |
| Workflow.RunStep | orchestration/workflow.py:42-96 | A step with a successor is followed by the stream from that successor on the rebuilt state |
| Workflow.RunStepNodes | orchestration/workflow.py:42-96 | A step forward prefixes its node to the nodes visited after it |
| Workflow.RunAtFinish | orchestration/workflow.py:37 | The terminal node is the last step of a stream |
| Workflow.UnpausedNext | orchestration/workflow.py:42-96 | On an unpaused state every node except the terminal one moves to its successor |
| Workflow.UnpausedRunCompletes | orchestration/workflow.py:14-99 | From any node, an unpaused run under nodes that keep the pause reaches the terminal node within the step limit |
| Workflow.UnpausedRunFollowsOrder | orchestration/workflow.py:14-99 | Such a run visits exactly the production order from its start node |
| Workflow.UnpausedRunFromEntry | orchestration/workflow.py:14-99 | From the entry, with the graph's nodes, an unpaused run visits all twelve nodes once each, in order, and completes |
| Workflow.PausedGateSpins | orchestration/workflow.py:46-93 | A paused gate repeats itself until the step limit and never completes |
| Workflow.PausedRunSpins | orchestration/workflow.py:42-53 | A run started paused never completes: it reaches the news gate and stays there |
| Workflow.PausedRunNeverCompletes | orchestration/workflow.py:14-99 | With the graph's nodes, a paused run from the entry never completes |
| Workflow.ErrorFromScriptStageOn | orchestration/workflow.py:14-99 | In an unpaused run, every step from the script stage on carries `has_error` |
| Workflow.UnpausedRunEndsInError | orchestration/nodes/script_nodes.py:18 | With the repository's script service, the state returned by the terminal node carries an error |
| TrendNodes.FetchTrendingTopics | orchestration/nodes/trend_nodes.py:7-30 | A blank topic becomes the best trending topic and the status names it. Any other topic is kept and the status says so. Both add `trending_topics`, keep the flags and change nothing else |
| TrendNodes.FetchTrendingTopicsNode | orchestration/nodes/trend_nodes.py:7-30 | The node driving a scraper object returns the state of that function |
| TrendNodes.AutoTopicWellFormed | orchestration/nodes/trend_nodes.py:15-23 | An automatically chosen topic is "" or a trimmed, non-empty, filtered trending topic |
| TrendNodes.AutoTopicIgnoresSave | services/trends_scraper.py:121-134 | Whether the scrape could be saved to the file does not change the chosen topic |
| TrendNodes.CheckPauseScript | orchestration/nodes/trend_nodes.py:32-42 | The duplicate gate is the same function as the script stage's gate |
| NewsNodes.FetchAndConsolidateNews | orchestration/nodes/news_nodes.py:8-32 | On success it sets the news and the success status, keeps any earlier error and changes nothing else. On failure it records the prefixed error, sets `has_error` and the error status, and keeps the news |
| NewsNodes.CheckPauseNews | orchestration/nodes/news_nodes.py:34-44 | The notice is written exactly when the state is paused for news review. Otherwise the state is unchanged, and the pause fields never change |
| NewsNodes.CheckPauseNewsIdempotent | orchestration/nodes/news_nodes.py:34-44 | Applying the gate twice equals applying it once |
| ScriptNodes.FromGenerator | services/script_generator.py:247 | The node receives the script and prompts first, then the three other values |
| ScriptNodes.NarrationPiece | orchestration/nodes/script_nodes.py:28-31 | A narrator line gives the text after `Narrator: "` up to the last quote, or the whole rest when no quote follows |
| ScriptNodes.NarrationTextIsJoin | orchestration/nodes/script_nodes.py:25-33 | The accumulated text is the pieces joined by spaces with one trailing space, or "" when there is no narrator line |
| ScriptNodes.NarrationWithoutNarrator | orchestration/nodes/script_nodes.py:25-33 | A script with no line starting with `Narrator: "` has an empty narration |
| ScriptNodes.ExtractNarration | orchestration/nodes/script_nodes.py:25-33 | The loop computes the narration: the stripped text of the narrator pieces |
| ScriptNodes.GenerateScriptAndPrompts | orchestration/nodes/script_nodes.py:8-50 | A two-value result sets script, prompts, narration and the success status. A longer result records the unpacking error and leaves script and prompts alone. The flags are kept and nothing else changes |
| ScriptNodes.GenerateWithScriptServiceFails | orchestration/nodes/script_nodes.py:18 | With the five-value script service the stage always fails, and script, prompts and narration stay as they were |
| ScriptNodes.CheckPauseScript | orchestration/nodes/script_nodes.py:60-70 | The notice is written exactly when the state is paused for script review. The pause fields never change |
| ScriptNodes.CheckPauseScriptIdempotent | orchestration/nodes/script_nodes.py:60-70 | Applying the gate twice equals applying it once |
| MediaNodes.GenerateAudio | orchestration/nodes/media_nodes.py:10-34 | With a narration and a returning synthesiser it sets the audio path and the success status and nothing else. A missing narration or a raising synthesiser records the error and keeps the audio path |
| MediaNodes.GenerateAudioOnSchemaState | orchestration/nodes/media_nodes.py:20 | On a schema-typed state the audio stage always fails with the missing-attribute error and keeps the audio path |
| MediaNodes.GenerateImages | orchestration/nodes/media_nodes.py:36-60 | On success, `image_paths` becomes the collaborator's list with the success status. On failure the error status is recorded and the paths are kept |
| MediaNodes.CheckPauseMedia | orchestration/nodes/media_nodes.py:62-72 | The notice is written exactly when the state is paused for media review. The pause fields never change |
| MediaNodes.CheckPauseMediaIdempotent | orchestration/nodes/media_nodes.py:62-72 | Applying the gate twice equals applying it once |
| VideoNodes.AssembleVideo | orchestration/nodes/video_nodes.py:8-32 | Success changes only `video_path` and the status. Failure records the prefixed error and keeps `video_path` |
| VideoNodes.CheckPauseVideo | orchestration/nodes/video_nodes.py:34-44 | The notice is written exactly when the state is paused for video review. The pause fields never change |
| VideoNodes.CheckPauseVideoIdempotent | orchestration/nodes/video_nodes.py:34-44 | Applying the gate twice equals applying it once |
| UploadNodes.UploadDescription | orchestration/nodes/upload_nodes.py:20-24 | The description is fixed text around the topic and a prefix of the news: exactly the first 500 characters when the news is longer, all of it otherwise |
| UploadNodes.UploadVideo | orchestration/nodes/upload_nodes.py:9-48 | The upload stage keeps the pause fields and never clears `has_error` |
| UploadNodes.UploadReportsFailure | orchestration/nodes/upload_nodes.py:30-33 | A result with "error" is stored as returned, and the status reports the failure. `has_error` is not set and there is no cleanup |
| UploadNodes.UploadSucceeds | orchestration/nodes/upload_nodes.py:30-38 | A result with "video_url" and no "error" is stored, the status gives the URL, and the audio, image and video paths are cleaned up |
| UploadNodes.UploadRaises | orchestration/nodes/upload_nodes.py:42-48 | A raising uploader records the prefixed error with the error status, and there is no cleanup |
| UploadNodes.UploadMissingUrl | orchestration/nodes/upload_nodes.py:35-48 | A status with neither "error" nor "video_url" makes the lookup raise a KeyError, recorded as "Failed to upload video: 'video_url'" with the error status, and there is no cleanup |
| UploadNodes.UploadCleansUpIffUploaded | orchestration/nodes/upload_nodes.py:32-38 | Cleanup runs exactly when the uploader returned a "video_url" and no "error" |
| App.ChooseTopic | app.py:77-78 | A typed topic wins, and an empty one falls back to the selected trending topic. The result is empty only when both are |
| App.CheckpointMap | app.py:107-112 | The four review reasons map to the four checkbox values |
| App.GateReason | app.py:146-164 | Exactly the four gates have a pause reason |
| App.StopReasonAtNode | app.py:146-164 | The driver stops only after a gate whose reason is enabled, and records that gate's reason |
| App.FirstStop | app.py:130-164 | The index of the first step with an enabled checkpoint: no earlier step has one |
| App.ConsumeStream | app.py:130-164 | Every consumed step becomes the session's state and counts once. Consuming ends after the first enabled checkpoint, which sets `is_paused` and its reason, and otherwise the pause fields are kept |
| App.Submit | app.py:101-172 | An empty topic is refused and the session is unchanged. Otherwise the stream from the initial state is consumed, and `is_running` is false afterwards only when the stream raised |
| App.Continue | app.py:199-207 | Continue clears the pause, marks the session running and runs no workflow step |
| App.FinalResult | app.py:210-218 | Results show only for a held state that is neither running nor paused. An upload URL is preferred over the local video |
| App.LoadTrendingTopics | app.py:51-61 | Trending topics are fetched only while the session holds none |
| App.StepNodesAt | app.py:130-164 | The k-th streamed step is at the k-th visited node |
| App.StopsInOrder | app.py:146-164 | Along the production order, no enabled checkpoint comes before the first enabled gate, and the driver stops there |
| App.StopAlongOrder | app.py:130-164 | A stream visiting the production order stops right after the first enabled checkpoint's gate, with its reason. With none enabled it is consumed whole |
| App.DriverStopsAtFirstEnabledGate | app.py:101-164 | With the graph's nodes, a submitted topic streams all twelve nodes in order, and the driver stops at the first enabled gate whatever errors the stages recorded |
| App.SubmittedRunStaysRunning | app.py:170-172 | With the graph's nodes the stream never raises before it stops or completes, so `is_running` stays true |
| StreamlitHelpers.Session.InitializeSessionState | utils/streamlit_helpers.py:6-24 | Each of the six keys gets its default only when absent, and present keys keep their values. A second call changes nothing |
| StreamlitHelpers.Session.DisplayTrendingTopics | utils/streamlit_helpers.py:50-84 | An empty list gives "" and no button. Otherwise at most the first ten topics each get a button in column i mod 5, primary when selected. A pressed topic becomes the selection, and the session's selection is returned |
| StreamlitHelpers.Session.ReviewNews | utils/streamlit_helpers.py:86-99 | The news is overwritten only when the edit differs |
| StreamlitHelpers.Session.ReviewScript | utils/streamlit_helpers.py:101-125 | The script is overwritten only when its edit differs. The prompts are replaced by the edited list, of the same length and order, only when it differs |
| StreamlitHelpers.EditPrompts | utils/streamlit_helpers.py:117-120 | One edit box per prompt, in order, each labelled "Image i+1" |
| StreamlitHelpers.UntouchedPromptsUnchanged | utils/streamlit_helpers.py:117-124 | Untouched boxes give the prompt list back, so no prompts are written |
| StreamlitHelpers.RequirementNamesDistinct | utils/streamlit_helpers.py:26-48 | The four reported names are distinct |
| StreamlitHelpers.Session.constructor | utils/streamlit_helpers.py:6-24 | A new session holds no key |
| StreamlitHelpers.ValidateApiKeys | utils/streamlit_helpers.py:26-48 | A requirement is reported exactly when it is unset or empty, or, for a path, does not exist. Each is reported at most once, in the fixed order, and the YouTube secrets only when upload is enabled |
| ScriptService.BetweenShape | services/script_generator.py:107 | The marked text starts what follows the first start marker, holds neither marker, and runs up to the next start or end marker or to the end of the text |
| ScriptService.FirstTone | services/script_generator.py:111-119 | A tone found in a line is one of the seven listed |
| ScriptService.LastTone | services/script_generator.py:110-119 | The fallback emotion is "neutral" or one of the seven tones |
| ScriptService.EmotionCases | services/script_generator.py:101-119 | With both markers the emotion is the stripped, lowercased marked text. Otherwise it is "neutral" or a listed tone |
| ScriptService.LegacyPrompts | services/script_generator.py:140-149 | Older-format prompts are all non-empty |
| ScriptService.FixedLines | services/script_generator.py:190-210 | One standardised line per script line, each fixed on its own |
| ScriptService.FixLineCases | services/script_generator.py:193-210 | Headers, direction notes and blank lines are kept verbatim. Any other line is kept or becomes one quoted narrator line |
| ScriptService.StandardizedKeepsFormatted | services/script_generator.py:179-185 | A script already holding a line with `Narrator:` and a quote is not standardised |
| ScriptService.BasicExtractionFails | services/script_generator.py:214-223 | The numbered-line fallback raises exactly when some line is numbered without ". " |
| ScriptService.GenerateScript | services/script_generator.py:249-251 | A failed model call gives the fixed error tuple, and a reply gives its parse |
| ScriptService.ParsedFields | services/script_generator.py:151-177 | Unless the parse raises, emotion, title and description are their own parses, and the marked title and description are the stripped marked text. A raising parse gives the error tuple |
| ScriptService.ParsedEmotion | services/script_generator.py:101-119 | Without emotion markers the returned emotion is "neutral" or a tone, also on the error path |
| ScriptService.ParsedScriptFromMarkers | services/script_generator.py:121-123 | With both script markers, a narrator-formatted section and prompts found, the script is the stripped marked text |
| ScriptService.ParsedPromptsFromMarkers | services/script_generator.py:131-134 | With both prompt markers and a script, the prompts are the non-blank marked lines, trimmed, in order |
| ScriptService.ParsedRaisesOnBadNumbering | services/script_generator.py:214-251 | When a fallback is needed and a line is numbered without ". ", the result is the error tuple |
| ScriptService.ParsedOnePointFive | services/script_generator.py:217-223 | The reply "1.5" gives the error tuple |
| ScriptService.ScanTonePrefixes | services/script_generator.py:111-119 | The prefix loop on one line finds the value after the first prefix that is one of the tones; a prefix whose value is not a tone does not stop it |
| ScriptService.ScanEmotion | services/script_generator.py:110-119 | The emotion loop, whose `break` leaves only the prefix loop, picks the last line that yields a tone |
| ScriptService.ScanLabelPrefixes | services/script_generator.py:157-163 | The prefix loop on one line finds the trimmed, unquoted text after the first prefix the line holds |
| ScriptService.ScanLabel | services/script_generator.py:156-177 | The title and description loops pick the last line holding any prefix |
| ScriptService.CollectLegacyPrompts | services/script_generator.py:140-149 | The older-format loop computes the numbered-prefix-free, non-empty prompts |
| ScriptService.FindNarratorFormat | services/script_generator.py:179-185 | The check is true exactly when some line holds `Narrator:` and a quote |
| ScriptService.FixOneLine | services/script_generator.py:193-210 | The loop body fixes one line as specified |
| ScriptService.FixScriptLines | services/script_generator.py:190-210 | The standardising loop fixes every line in order |
| ScriptService.ExtractBasic | services/script_generator.py:214-226 | The extraction loop appends the numbered lines' texts to the prompts and keeps the other lines, or raises |
| ScriptService.BasicExtractionStep | services/script_generator.py:217-223 | One more line extends the extraction by that line's case |
| ScriptService.NoneWhenPrefixFails | services/script_generator.py:214-226 | Once a prefix of the lines raises, the whole extraction raises |
| ScriptService.ParseEmotion | services/script_generator.py:105-119 | The emotion as the code computes it |
| ScriptService.ParsePrompts | services/script_generator.py:131-149 | The prompts, marked or older format |
| ScriptService.ParseLabeled | services/script_generator.py:151-177 | The title or the description, marked or by prefix |
| ScriptService.StandardizeScript | services/script_generator.py:179-212 | The narrator standardisation runs only when no line is already in narrator format |
| ScriptService.ParseResponse | services/script_generator.py:99-251 | The whole parse with its fallbacks in order, and the error tuple when the extraction raises |
| TrendsService.FilterTopics | services/trends_scraper.py:161-169 | The filter keeps only topics, in order, each taken from the input, and never more topics than lines |
| TrendsService.ProcessTrendingContent | services/trends_scraper.py:141-171 | The comprehension and the filter loop compute the processed topics |
| TrendsService.FilterLoop | services/trends_scraper.py:161-169 | The appending loop computes the filter |
| TrendsService.FilterTopicsStep | services/trends_scraper.py:161-169 | One more topic is appended exactly when it passes the filter |
| TrendsService.ProcessedTopicsWellFormed | services/trends_scraper.py:153-169 | Blank content gives []. Every topic is trimmed and non-empty, is not a "Google Trends" header, holds no ':' and is not all digits |
| TrendsService.ProcessedTopicsInOrder | services/trends_scraper.py:156-169 | There are at most as many topics as lines, and they keep the lines' order |
| TrendsService.FilterIsSubsequence | services/trends_scraper.py:161-169 | The filtered topics are a subsequence of the input |
| TrendsService.BestTopic | services/trends_scraper.py:173-191 | Topics already held are kept and not refreshed. An empty store is refreshed by one scrape. The result is the first held topic, or "" |
| TrendsService.TrendsScraper.constructor | services/trends_scraper.py:13-22 | A new scraper holds no topics |
| TrendsService.TrendsScraper.GetTrendingTopics | services/trends_scraper.py:39-139 | It never raises and returns [] on any failure. The held topics are replaced once the clipboard was read |
| TrendsService.TrendsScraper.GetBestTrendingTopic | services/trends_scraper.py:173-191 | It scrapes only when no topics are held, then returns the first held topic, or "" |
| NewsService.FetchNews | services/news_scraper.py:17-65 | The loop computes the articles fetched |
| NewsService.WithBodyFrom | services/news_scraper.py:50-58 | The kept articles are no more than the results, each from a result with a body, and none are kept exactly when no result has one |
| NewsService.FetchedArticlesBounds | services/news_scraper.py:45-65 | At most five articles, each with a non-empty body and taken from the first five results. None exactly when none of those has a body |
| NewsService.BuildArticlesText | services/news_scraper.py:74-76 | The loop accumulates one numbered entry per article |
| NewsService.ArticlesTextPrefix | services/news_scraper.py:74-76 | The text for the first k articles, then entry k+1 numbered from 1, starts the whole text |
| NewsService.Consolidated | services/news_scraper.py:67-108 | No articles gives the no-news text, a failed summary the error text, and otherwise the summary |
| NewsService.NewsForTopicCases | services/news_scraper.py:110-123 | The not-found message comes back exactly when the search gave no usable article. Otherwise the result is the summary, or the consolidation error text |
| ImageService.SafePrompt | services/image_generator.py:19 | Every character that is not an ASCII letter, digit or whitespace becomes '_', and nothing else changes |
| ImageService.SanitizeIsReplace | services/image_generator.py:21 | The sanitising definition agrees with `.replace(' ', '_')` |
| ImageService.SanitizeChars | services/image_generator.py:19-21 | The result is the trimmed first 50 substituted characters, with spaces turned into '_' and letters lowered |
| ImageService.SanitizeShape | services/image_generator.py:16-21 | At most 50 characters, no space, no upper-case letter: only letters, digits, '_' and non-space whitespace |
| ImageService.SanitizeTrimmed | services/image_generator.py:21 | The result neither starts nor ends with whitespace |
| ImageService.PathsFrom | services/image_generator.py:34-71 | One path per prompt |
| ImageService.PathsFromAt | services/image_generator.py:34-71 | Path k comes from prompt k at position first+k |
| ImageService.ImageListAt | services/image_generator.py:36-71 | Exactly one path per prompt, in order: path i is prompt i's own outcome |
| ImageService.GenerateImages | services/image_generator.py:23-73 | The loop computes one path per prompt, in order |
| ImageService.DownloadImage | services/image_generator.py:38-71 | One iteration records the file after a 200 response that was written, and the placeholder otherwise |
| ImageService.ImagePathCases | services/image_generator.py:39-71 | Path i is the placeholder or prompt i's file at seed 42+i, and the placeholder when the request raised |
| ImageService.NatToStringInjective | services/image_generator.py:42 | Distinct seeds print differently |
| ImageService.OutputPathSeed | services/image_generator.py:42-43 | An output path determines its seed |
| ImageService.OutputPathsDistinct | services/image_generator.py:39-43 | Two prompt positions never share an output file, even for the same prompt |
| Text.StripEach | services/trends_scraper.py:156 | The trimmed form of every line, in order |
| Text.NonBlankStrippedOrder | services/trends_scraper.py:156 | The non-blank trimmed lines (also at services/script_generator.py:134) are a subsequence of the trimmed lines |

## Left out

- The LangGraph compile and stream internals. The graph is its edge table, and the stream is `Workflow.Run`. Between nodes the recorded state is rebuilt from the node's dictionary.
- The `__metadata__` lookup on each stream item (app.py:144). The model takes each step's node name as given. The library's stream carries no such entry, so as written the lookup would give "" and the driver would never stop.
- Workflow.Run: the step limit (the library's recursion limit of 25) is fuel. Running out of it ends the stream without completing, which stands for the error the library raises.
- App.Submit: the progress bar, the status messages, the `st.rerun` after a pause and the error message are rendering (app.py:120-123, 136-141, 166-171).
- App.Continue: the `st.rerun` is rendering. The state it builds from the session's state is never used, in the code as in the model (app.py:204).
- The review screens chosen at app.py:183-196, `display_media_review`, `display_video_review` and the sidebar configuration: rendering of files and widgets.
- The missing-keys messages of `validate_api_keys`. StreamlitHelpers.ValidateApiKeys returns the requirements, as a datatype whose names are `RequirementName`.
- StreamlitHelpers.Missing: secrets and environment lookups are given as settings, with None for an absent value. `os.path.exists` is a parameter.
- StreamlitHelpers.Session: the session is modelled by a field per key and a set of present keys. The keys are a datatype, because no other key is read by this core.
- The logger calls throughout, including the `test_narration` accumulation of services/script_generator.py:228-240, whose result is only logged.
- The Groq prompt texts and the request parameters (services/script_generator.py:16-94, services/news_scraper.py:79-101). The reply text, or the exception instead of it, is an input.
- NewsService.Consolidated: the summariser is called on the articles' text rather than on the full prompt around it, since the prompt's wording is left out.
- The date range computed from the clock, and the search parameters (services/news_scraper.py:22-44). The search is given as its reply.
- The Selenium session, the clipboard, the sleeps and the file write (services/trends_scraper.py:24-128). Each scrape is given as its outcome, and whether the save succeeded is one of them.
- The image request and the file write are one outcome per URL. The one-second sleep is not modelled.
- `cleanup_files` (orchestration/nodes/upload_nodes.py:50-77): the deletion is recorded as a request and not performed.
- The speech synthesiser, the video editor and the uploader internals (services/tts_service.py, services/video_editor.py, services/youtube_uploader.py): they are results given as inputs.
- config.py, except the two paths the image service uses (IMAGES_DIR and the default PLACEHOLDER_IMAGE_PATH).
- assets/audioTrim.py, services/trend_scraper_test.py and utils/logger.py: file and browser scripts outside the core.
- Text.Lower and Text.IsDigits: `lower` and `isdigit` are modelled for ASCII only. Non-ASCII letters are not lowered and non-ASCII digits do not count as digits.
- Text.IsSpace: the whitespace of `str.isspace` and `\s` is a fixed list of code points, not a Unicode database lookup.
- UploadNodes.UploadVideo: its own contract states only the flags. The branch results are stated by the five lemmas beside it: the reported failure, the success, the raising uploader, the KeyError of a status without "video_url", and the cleanup.
- UploadNodes.UploadReportsFailure: the uploader's status is a `map<string, string>`. Its non-string values, such as `"success": True` (`services/youtube_uploader.py:105`), are not represented, so "stored as returned" holds for the string entries only.
