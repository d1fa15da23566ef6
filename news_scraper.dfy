/** The news source (services/news_scraper.py): the article search and the
    summarising call are collaborators, given as their outcomes. */
module NewsService {
  import opened Results
  import opened Text
  import opened Schema

  /** The four fields `fetch_news` keeps of each article. */
  datatype Article = Article(title: string, date: string, url: string, body: string)

  /** The article search's reply: the `articles.results` list, a body without
      that list, or a request that raised (HTTP error, bad JSON, network). */
  datatype ApiReply = Found(results: seq<RawArticle>) | NoResults | RequestFailed

  const MaxArticles := 5
  const NoArticlesToConsolidate := "No recent news available on this topic."
  const ConsolidationFailed := "Error consolidating news articles."

  /** `article.get(key, "")` */
  function Field(a: RawArticle, key: string): string {
    if key in a then a[key] else ""
  }

  /** `"body" in article and article["body"]` */
  predicate HasBody(a: RawArticle) {
    "body" in a && a["body"] != ""
  }

  function ToArticle(a: RawArticle): Article {
    Article(Field(a, "title"), Field(a, "date"), Field(a, "url"), Field(a, "body"))
  }

  /** The results with a non-empty body, converted, in their order. */
  function WithBody(results: seq<RawArticle>): seq<Article>
    decreases |results|
  {
    if results == [] then []
    else
      var init := WithBody(results[..|results| - 1]);
      var a := results[|results| - 1];
      if HasBody(a) then init + [ToArticle(a)] else init
  }

  /** `fetch_news(topic)` given the search's reply: never raises. */
  function FetchedArticles(reply: ApiReply): seq<Article> {
    match reply
    case Found(results) => WithBody(Take(results, MaxArticles))
    case NoResults => []
    case RequestFailed => []
  }

  /** The loop of `fetch_news` over `results[:5]`. */
  method FetchNews(reply: ApiReply) returns (articles: seq<Article>)
    ensures articles == FetchedArticles(reply)
  {
    if !reply.Found? {
      return [];
    }
    var top := Take(reply.results, MaxArticles);
    articles := [];
    var i := 0;
    while i < |top|
      invariant 0 <= i <= |top|
      invariant articles == WithBody(top[..i])
    {
      assert top[..i + 1][..i] == top[..i];
      var article := top[i];
      if "body" in article && article["body"] != "" {
        articles := articles + [Article(Field(article, "title"), Field(article, "date"),
                                        Field(article, "url"), Field(article, "body"))];
      }
      i := i + 1;
    }
    assert top[..i] == top;
  }

  lemma {:induction false} WithBodyFrom(results: seq<RawArticle>)
    ensures |WithBody(results)| <= |results|
    ensures forall k :: 0 <= k < |WithBody(results)| ==>
      exists j :: 0 <= j < |results| && HasBody(results[j]) && WithBody(results)[k] == ToArticle(results[j])
    ensures (forall j :: 0 <= j < |results| ==> !HasBody(results[j])) <==> WithBody(results) == []
    decreases |results|
  {
    if results != [] {
      var init := results[..|results| - 1];
      WithBodyFrom(init);
      var r := WithBody(results);
      forall k | 0 <= k < |r|
        ensures exists j :: 0 <= j < |results| && HasBody(results[j]) && r[k] == ToArticle(results[j])
      {
        if k < |WithBody(init)| {
          var j :| 0 <= j < |init| && HasBody(init[j]) && WithBody(init)[k] == ToArticle(init[j]);
          assert results[j] == init[j];
        } else {
          assert r[k] == ToArticle(results[|results| - 1]);
        }
      }
      if forall j :: 0 <= j < |results| ==> !HasBody(results[j]) {
        assert forall j :: 0 <= j < |init| ==> !HasBody(init[j]) by {
          forall j | 0 <= j < |init| ensures !HasBody(init[j]) { assert init[j] == results[j]; }
        }
      }
      if r == [] {
        forall j | 0 <= j < |results| ensures !HasBody(results[j]) {
          if j < |init| { assert init[j] == results[j]; }
        }
      }
    }
  }

  /** At most five articles come back, each with a non-empty body, each
      taken from one of the first five results; none come back exactly when
      none of the first five results has a body. */
  lemma FetchedArticlesBounds(reply: ApiReply)
    ensures |FetchedArticles(reply)| <= MaxArticles
    ensures forall k :: 0 <= k < |FetchedArticles(reply)| ==> FetchedArticles(reply)[k].body != ""
    ensures reply.Found? ==> forall k :: 0 <= k < |FetchedArticles(reply)| ==>
      exists j :: 0 <= j < |reply.results| && j < MaxArticles && FetchedArticles(reply)[k] == ToArticle(reply.results[j])
    ensures reply.Found? ==>
      (FetchedArticles(reply) == [] <==> forall j :: 0 <= j < |reply.results| && j < MaxArticles ==> !HasBody(reply.results[j]))
  {
    if reply.Found? {
      var top := Take(reply.results, MaxArticles);
      WithBodyFrom(top);
      var r := FetchedArticles(reply);
      forall k | 0 <= k < |r|
        ensures r[k].body != ""
        ensures exists j :: 0 <= j < |reply.results| && j < MaxArticles && r[k] == ToArticle(reply.results[j])
      {
        var j :| 0 <= j < |top| && HasBody(top[j]) && r[k] == ToArticle(top[j]);
        assert top[j] == reply.results[j];
      }
      assert forall j :: 0 <= j < |reply.results| && j < MaxArticles ==> top[j] == reply.results[j];
    }
  }

  /** `f"Article {i} - {title} ({date}):\n{body}\n\n"` */
  function ArticleEntry(i: nat, a: Article): string {
    "Article " + NatToString(i) + " - " + a.title + " (" + a.date + "):\n" + a.body + "\n\n"
  }

  /** The accumulated `articles_text`, numbering the articles from 1. */
  function ArticlesText(articles: seq<Article>): string
    decreases |articles|
  {
    if articles == [] then ""
    else ArticlesText(articles[..|articles| - 1]) + ArticleEntry(|articles|, articles[|articles| - 1])
  }

  /** The `enumerate(articles, 1)` loop of `consolidate_news`. */
  method BuildArticlesText(articles: seq<Article>) returns (text: string)
    ensures text == ArticlesText(articles)
  {
    text := "";
    var i := 0;
    while i < |articles|
      invariant 0 <= i <= |articles|
      invariant text == ArticlesText(articles[..i])
    {
      assert articles[..i + 1][..i] == articles[..i];
      var entry := "Article " + NatToString(i + 1) + " - " + articles[i].title + " ("
                   + articles[i].date + "):\n" + articles[i].body + "\n\n";
      assert entry == ArticleEntry(i + 1, articles[i]);
      text := text + entry;
      i := i + 1;
    }
    assert articles[..i] == articles;
  }

  /** The text for the first k articles is a prefix of the text for all of
      them, and the k-th entry follows it. */
  lemma {:induction false} ArticlesTextPrefix(articles: seq<Article>, k: nat)
    requires k < |articles|
    ensures StartsWith(ArticlesText(articles), ArticlesText(articles[..k]) + ArticleEntry(k + 1, articles[k]))
    decreases |articles|
  {
    var n := |articles| - 1;
    var init := articles[..n];
    var whole := ArticlesText(articles);
    assert whole == ArticlesText(init) + ArticleEntry(n + 1, articles[n]);
    if k == n {
      assert init == articles[..k];
      assert whole[..|whole|] == whole;
    } else {
      ArticlesTextPrefix(init, k);
      assert init[..k] == articles[..k];
      assert init[k] == articles[k];
      StartsWithExtend(ArticlesText(init), ArticlesText(articles[..k]) + ArticleEntry(k + 1, articles[k]), ArticleEntry(n + 1, articles[n]));
    }
  }

  /** `consolidate_news(articles)`; `summarize` answers the prompt built
      around the articles' text. */
  function Consolidated(articles: seq<Article>, summarize: string -> Result<string>): (r: string)
    ensures articles == [] ==> r == NoArticlesToConsolidate
    ensures articles != [] && summarize(ArticlesText(articles)).Err? ==> r == ConsolidationFailed
    ensures articles != [] && summarize(ArticlesText(articles)).Ok? ==> r == summarize(ArticlesText(articles)).value
  {
    if articles == [] then NoArticlesToConsolidate
    else match summarize(ArticlesText(articles))
      case Ok(summary) => summary
      case Err(_) => ConsolidationFailed
  }

  /** `f"No recent news found for '{topic}'."` */
  function NotFoundMessage(topic: string): string {
    "No recent news found for '" + topic + "'."
  }

  /** `get_news_for_topic(topic)`: never raises. */
  function NewsForTopic(topic: string, search: string -> ApiReply, summarize: string -> Result<string>): string {
    var articles := FetchedArticles(search(topic));
    if articles == [] then NotFoundMessage(topic) else Consolidated(articles, summarize)
  }

  /** The not-found message comes back exactly when the search gave no usable
      article (whatever the summariser does), and the no-articles text of
      `consolidate_news` is then not used; otherwise the summary, or the
      consolidation error text when the summariser raised. */
  lemma NewsForTopicCases(topic: string, search: string -> ApiReply, summarize: string -> Result<string>)
    ensures var arts := FetchedArticles(search(topic));
      && (arts == [] ==> NewsForTopic(topic, search, summarize) == NotFoundMessage(topic))
      && (arts != [] && summarize(ArticlesText(arts)).Err? ==> NewsForTopic(topic, search, summarize) == ConsolidationFailed)
      && (arts != [] && summarize(ArticlesText(arts)).Ok? ==>
            NewsForTopic(topic, search, summarize) == summarize(ArticlesText(arts)).value)
    ensures !search(topic).Found? ==> NewsForTopic(topic, search, summarize) == NotFoundMessage(topic)
  {
  }
}
