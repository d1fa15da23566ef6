/** The trending-topics source (services/trends_scraper.py). The browser
    session that copies the Google Trends export to the clipboard is not
    modelled: each scrape is given as its outcome. */
module TrendsService {
  import opened Text

  /** The outcome of one browser scrape: the clipboard text, and whether
      writing it to trending_topics.txt succeeded; or a failure anywhere
      before the clipboard was read. */
  datatype Scrape = Copied(content: string, saved: bool) | ScrapeFailed

  /** A line that survives the filter: not a header, no ':' and not a rank. */
  predicate IsTopic(t: string) {
    !StartsWith(t, "Google Trends") && !Contains(t, ":") && !IsDigits(t)
  }

  /** The filtering loop of `_process_trending_content`, as a specification. */
  function FilterTopics(ts: seq<string>): (r: seq<string>)
    ensures |r| <= |ts|
    ensures forall k :: 0 <= k < |r| ==> IsTopic(r[k])
    ensures forall k :: 0 <= k < |r| ==> exists j :: 0 <= j < |ts| && r[k] == ts[j]
    decreases |ts|
  {
    if ts == [] then []
    else
      var init := FilterTopics(ts[..|ts| - 1]);
      if IsTopic(ts[|ts| - 1]) then init + [ts[|ts| - 1]] else init
  }

  /** `_process_trending_content(content)` */
  function ProcessedTopics(content: string): seq<string> {
    if Strip(content) == "" then []
    else FilterTopics(NonBlankStripped(Split(content, "\n")))
  }

  /** `_process_trending_content`: the comprehension, then the filter loop. */
  method ProcessTrendingContent(content: string) returns (filtered: seq<string>)
    ensures filtered == ProcessedTopics(content)
  {
    if Strip(content) == "" {
      return [];
    }
    var topics := NonBlankStripped(Split(content, "\n"));
    filtered := FilterLoop(topics);
  }

  /** The appending loop that skips headers, lines with ':' and ranks. */
  method FilterLoop(topics: seq<string>) returns (filtered: seq<string>)
    ensures filtered == FilterTopics(topics)
  {
    filtered := [];
    var i := 0;
    while i < |topics|
      invariant 0 <= i <= |topics|
      invariant filtered == FilterTopics(topics[..i])
    {
      FilterTopicsStep(topics, i);
      var topic := topics[i];
      if StartsWith(topic, "Google Trends") || Contains(topic, ":") {
        i := i + 1;
        continue;
      }
      if IsDigits(topic) {
        i := i + 1;
        continue;
      }
      filtered := filtered + [topic];
      i := i + 1;
    }
    assert topics[..i] == topics;
  }

  lemma FilterTopicsStep(ts: seq<string>, i: nat)
    requires i < |ts|
    ensures FilterTopics(ts[..i + 1]) == if IsTopic(ts[i]) then FilterTopics(ts[..i]) + [ts[i]] else FilterTopics(ts[..i])
  {
    assert ts[..i + 1][..i] == ts[..i];
  }

  /** Empty or blank clipboard text gives no topics; every topic returned is
      trimmed and non-empty, not a "Google Trends" header, has no ':' and is
      not all digits. */
  lemma ProcessedTopicsWellFormed(content: string)
    ensures Strip(content) == "" ==> ProcessedTopics(content) == []
    ensures var r := ProcessedTopics(content);
      forall k :: 0 <= k < |r| ==>
        && r[k] != [] && !IsSpace(r[k][0]) && !IsSpace(r[k][|r[k]| - 1])
        && !StartsWith(r[k], "Google Trends") && !Contains(r[k], ":") && !IsDigits(r[k])
  {
    var r := ProcessedTopics(content);
    if Strip(content) != "" {
      var lines := NonBlankStripped(Split(content, "\n"));
      forall k | 0 <= k < |r|
        ensures r[k] != [] && !IsSpace(r[k][0]) && !IsSpace(r[k][|r[k]| - 1])
      {
        var j :| 0 <= j < |lines| && r[k] == lines[j];
      }
    }
  }

  /** There are at most as many topics as lines, and they keep the lines'
      order. */
  lemma ProcessedTopicsInOrder(content: string)
    ensures |ProcessedTopics(content)| <= |Split(content, "\n")|
    ensures IsSubsequence(ProcessedTopics(content), NonBlankStripped(Split(content, "\n")))
  {
    if Strip(content) != "" {
      FilterIsSubsequence(NonBlankStripped(Split(content, "\n")));
    } else {
      EmptyIsSubsequence(NonBlankStripped(Split(content, "\n")));
    }
  }

  lemma {:induction false} EmptyIsSubsequence(ts: seq<string>)
    ensures IsSubsequence([], ts)
    decreases |ts|
  {
    if ts != [] {
      EmptyIsSubsequence(ts[..|ts| - 1]);
    }
  }

  lemma {:induction false} FilterIsSubsequence(ts: seq<string>)
    ensures IsSubsequence(FilterTopics(ts), ts)
    decreases |ts|
  {
    if ts != [] {
      var init := ts[..|ts| - 1];
      FilterIsSubsequence(init);
      var r := FilterTopics(ts);
      if IsTopic(ts[|ts| - 1]) {
        assert r[..|r| - 1] == FilterTopics(init);
      }
    }
  }

  /** What `get_trending_topics()` returns for a scrape: the processed topics
      when the clipboard was read and saved, and [] on any failure. */
  function ReturnedTopics(scrape: Scrape): seq<string> {
    if scrape.Copied? && scrape.saved then ProcessedTopics(scrape.content) else []
  }

  /** What `self.trending_topics` holds after `get_trending_topics()`: it is
      replaced once the clipboard was read, even if saving it then failed. */
  function StoredTopics(stored: seq<string>, scrape: Scrape): seq<string> {
    if scrape.Copied? then ProcessedTopics(scrape.content) else stored
  }

  /** `get_best_trending_topic()` on a scraper holding `stored`: the topic it
      returns and the list it holds afterwards. */
  function BestTopic(stored: seq<string>, scrape: Scrape): (r: (string, seq<string>))
    ensures stored != [] ==> r == (stored[0], stored)
    ensures stored == [] ==> r.1 == StoredTopics([], scrape)
    ensures r.0 == if r.1 != [] then r.1[0] else ""
  {
    var topics := if stored == [] then StoredTopics(stored, scrape) else stored;
    (if topics != [] then topics[0] else "", topics)
  }

  class TrendsScraper {
    var trendingTopics: seq<string>

    constructor ()
      ensures trendingTopics == []
    {
      trendingTopics := [];
    }

    /** `get_trending_topics()`: never raises; [] on any failure. */
    method GetTrendingTopics(scrape: Scrape) returns (topics: seq<string>)
      modifies this
      ensures topics == ReturnedTopics(scrape)
      ensures trendingTopics == StoredTopics(old(trendingTopics), scrape)
      ensures scrape.ScrapeFailed? ==> topics == [] && trendingTopics == old(trendingTopics)
    {
      match scrape
      case ScrapeFailed =>
        return [];
      case Copied(content, saved) =>
        trendingTopics := ProcessTrendingContent(content);
        if !saved {
          return [];
        }
        return trendingTopics;
    }

    /** `get_best_trending_topic()`: scrapes only when no topics are held,
        then returns the first held topic, or "". */
    method GetBestTrendingTopic(scrape: Scrape) returns (best: string)
      modifies this
      ensures old(trendingTopics) != [] ==> trendingTopics == old(trendingTopics)
      ensures old(trendingTopics) == [] ==> trendingTopics == StoredTopics([], scrape)
      ensures best == if trendingTopics != [] then trendingTopics[0] else ""
      ensures (best, trendingTopics) == BestTopic(old(trendingTopics), scrape)
    {
      if trendingTopics == [] {
        var _ := GetTrendingTopics(scrape);
      }
      if trendingTopics != [] {
        best := trendingTopics[0];
      } else {
        best := "";
      }
    }
  }
}
