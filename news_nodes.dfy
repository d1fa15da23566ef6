/** The news stage and its review gate (orchestration/nodes/news_nodes.py). */
module NewsNodes {
  import opened Results
  import opened Schema

  const NewsFetched := "News fetched and consolidated successfully"
  const NewsReview := "review_news"
  const NewsNotice := "Paused for news review. Click Continue when ready."

  /** `fetch_and_consolidate_news(state)`; `getNews` is the news service's
      `get_news_for_topic`, with the exception it may raise. */
  function FetchAndConsolidateNews(s: WorkflowState, getNews: string -> Result<string>): (r: WorkflowState)
    ensures KeepsFlags(s, r)
    ensures getNews(s.topic).Ok? ==>
      && r.consolidatedNews == getNews(s.topic).value
      && r.statusMessage == NewsFetched
      && r.(consolidatedNews := s.consolidatedNews, statusMessage := s.statusMessage) == Validate(s)
    ensures getNews(s.topic).Err? ==>
      && r.error == "Failed to fetch news: " + getNews(s.topic).msg
      && r.hasError
      && r.statusMessage == "Error fetching news"
      && r.(error := s.error, hasError := s.hasError, statusMessage := s.statusMessage) == Validate(s)
  {
    match getNews(s.topic)
    case Ok(news) => Validate(s).(consolidatedNews := news, statusMessage := NewsFetched)
    case Err(e) => RecordError(Validate(s), "Failed to fetch news: " + e, "Error fetching news")
  }

  /** `check_pause_news(state)`: the notice is written exactly when the state
      is paused for news review; nothing else ever changes. */
  function CheckPauseNews(s: WorkflowState): (r: WorkflowState)
    ensures KeepsFlags(s, r)
    ensures r.(statusMessage := s.statusMessage) == Validate(s)
    ensures s.isPaused && s.pauseReason == NewsReview ==> r.statusMessage == NewsNotice
    ensures !(s.isPaused && s.pauseReason == NewsReview) ==> r == Validate(s)
  {
    var d := Validate(s);
    if s.isPaused && s.pauseReason == NewsReview then d.(statusMessage := NewsNotice) else d
  }

  lemma CheckPauseNewsIdempotent(s: WorkflowState)
    ensures CheckPauseNews(CheckPauseNews(s)) == CheckPauseNews(s)
  {
  }
}
