/** The trending-topic stage (orchestration/nodes/trend_nodes.py). The file
    also defines a script review gate, identical to the script stage's one;
    the graph registers the latter. */
module TrendNodes {
  import opened Results
  import opened Text
  import opened Schema
  import opened TrendsService
  import ScriptNodes

  const AutoSelected := "Automatically selected trending topic: "
  const UserSelected := "Continuing with user-selected topic: "

  /** `fetch_trending_topics(state)` with a fresh scraper. A blank topic is
      replaced by the best trending topic (one scrape, `first`), and the
      topics are then fetched again (`second`); otherwise the topics are
      fetched once (`first`). */
  function FetchTrendingTopics(s: WorkflowState, first: Scrape, second: Scrape): (r: WorkflowState)
    ensures KeepsFlags(s, r)
    ensures Strip(s.topic) == "" ==>
      && r.topic == (if first.Copied? && ProcessedTopics(first.content) != [] then ProcessedTopics(first.content)[0] else "")
      && r.trendingTopics == Some(ReturnedTopics(second))
      && r.statusMessage == AutoSelected + r.topic
      && r.(topic := s.topic, trendingTopics := None, statusMessage := s.statusMessage) == Validate(s)
    ensures Strip(s.topic) != "" ==>
      && r.topic == s.topic
      && r.trendingTopics == Some(ReturnedTopics(first))
      && r.statusMessage == UserSelected + s.topic
      && r.(trendingTopics := None, statusMessage := s.statusMessage) == Validate(s)
  {
    if Strip(s.topic) == "" then
      var best := BestTopic([], first).0;
      Validate(s).(topic := best, trendingTopics := Some(ReturnedTopics(second)), statusMessage := AutoSelected + best)
    else
      Validate(s).(trendingTopics := Some(ReturnedTopics(first)), statusMessage := UserSelected + s.topic)
  }

  /** The node body, driving a `TrendsScraper` object. */
  method FetchTrendingTopicsNode(s: WorkflowState, first: Scrape, second: Scrape) returns (r: WorkflowState)
    ensures r == FetchTrendingTopics(s, first, second)
  {
    var scraper := new TrendsScraper();
    if Strip(s.topic) == "" {
      var best := scraper.GetBestTrendingTopic(first);
      var topics := scraper.GetTrendingTopics(second);
      r := Validate(s).(topic := best, trendingTopics := Some(topics), statusMessage := AutoSelected + best);
    } else {
      var topics := scraper.GetTrendingTopics(first);
      r := Validate(s).(trendingTopics := Some(topics), statusMessage := UserSelected + s.topic);
    }
  }

  /** A topic chosen automatically is "" (no topics were read) or a
      well-formed trending topic: trimmed, non-empty, no header, no ':' and
      not a rank. */
  lemma AutoTopicWellFormed(s: WorkflowState, first: Scrape, second: Scrape)
    requires Strip(s.topic) == ""
    ensures var t := FetchTrendingTopics(s, first, second).topic;
      t == "" || (t != [] && !IsSpace(t[0]) && !IsSpace(t[|t| - 1]) && IsTopic(t))
  {
    var t := FetchTrendingTopics(s, first, second).topic;
    AutoTopic(s, first, second);
    ChosenTopicWellFormed(t, first);
    assert t == "" || (t != [] && !IsSpace(t[0]) && !IsSpace(t[|t| - 1]) && IsTopic(t));
  }

  /** The topic the automatic branch picks from the first scrape. */
  lemma ChosenTopicWellFormed(t: string, first: Scrape)
    requires t == if first.Copied? && ProcessedTopics(first.content) != [] then ProcessedTopics(first.content)[0] else ""
    ensures t == "" || (t != [] && !IsSpace(t[0]) && !IsSpace(t[|t| - 1]) && IsTopic(t))
  {
    if first.Copied? && ProcessedTopics(first.content) != [] {
      ProcessedTopicsWellFormed(first.content);
    }
  }

  lemma AutoTopic(s: WorkflowState, first: Scrape, second: Scrape)
    requires Strip(s.topic) == ""
    ensures FetchTrendingTopics(s, first, second).topic
         == if first.Copied? && ProcessedTopics(first.content) != [] then ProcessedTopics(first.content)[0] else ""
  {
  }

  /** Whether the first scrape could be saved to the file does not change
      the chosen topic: the scraper keeps what it read either way. */
  lemma AutoTopicIgnoresSave(s: WorkflowState, content: string, saved: bool, second: Scrape)
    requires Strip(s.topic) == ""
    ensures FetchTrendingTopics(s, Copied(content, saved), second).topic
         == FetchTrendingTopics(s, Copied(content, !saved), second).topic
  {
  }

  /** `check_pause_script` as this file defines it: the same function as the
      script stage's gate. */
  function CheckPauseScript(s: WorkflowState): (r: WorkflowState)
    ensures r == ScriptNodes.CheckPauseScript(s)
  {
    var d := Validate(s);
    if s.isPaused && s.pauseReason == ScriptNodes.ScriptReview then d.(statusMessage := ScriptNodes.ScriptNotice) else d
  }
}
