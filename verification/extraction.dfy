/**
 * `extract_tweet_from_article`: turning one rendered article into a tweet
 * record. Every element lookup the browser performs is an optional input of
 * the article; the rules applied to the looked-up text are modelled exactly.
 */
module Extraction {
  import opened Optional
  import opened Text

  /** What the browser exposes of one rendered `<article>`. */
  datatype Article = Article(
    text: Option<string>,       // article.text; None when reading it raises
    tweetText: Option<string>,  // text of the tweetText element; None when the lookup fails
    author: Option<string>,     // text of the first span under div[dir=auto]; None when the lookup fails
    datetime: Option<string>,   // datetime attribute of the <time> element; None when either is missing
    metrics: seq<string>)       // texts of the like/retweet/reply elements, in document order
                                // (a failed lookup is the empty list; an unreadable text reads as "")

  /** The dictionary that extraction returns. */
  datatype Tweet = Tweet(
    username: string,
    timestamp: Option<string>,
    content: string,
    likes: nat,
    retweets: nat,
    replies: nat,
    hashtags: seq<string>,
    mentions: seq<string>)

  /** `_num`: the number a metric element's text stands for, 0 unless the
      stripped text is a non-empty run of digits. */
  function ParseCount(t: string): (n: nat)
    ensures n > 0 ==> Strip(t) != [] && AllDigits(Strip(t))
  {
    var u := Strip(t);
    if u != [] && AllDigits(u) then DecimalValue(u) else 0
  }

  /** A number printed in decimal, with any whitespace around it, parses back. */
  lemma ParseCountOfDecimal(p: string, n: nat, q: string)
    requires AllSpace(p) && AllSpace(q)
    ensures ParseCount(p + Decimal(n) + q) == n
  {
    var d := Decimal(n);
    StripPadded(p, d, q);
    DecimalRoundTrip(n);
  }

  /** Text holding any character that is neither a digit nor whitespace
      (a thousands separator, a decimal point, a "K" suffix) counts as 0. */
  lemma NonNumericCountsZero(t: string, k: nat)
    requires k < |t| && !IsSpace(t[k]) && !IsDigit(t[k])
    ensures ParseCount(t) == 0
  {
    NonSpaceKept(t, k);
  }

  lemma AbbreviatedCountsZero()
    ensures ParseCount("1,234") == 0 && ParseCount("1.2K") == 0
  {
    NonNumericCountsZero("1,234", 1);
    NonNumericCountsZero("1.2K", 1);
  }

  /** The count at position `k` of the metric elements, 0 when the page shows
      fewer than `k + 1` of them. */
  function Metric(metrics: seq<string>, k: nat): (n: nat)
    ensures k >= |metrics| ==> n == 0
    ensures k < |metrics| ==> n == ParseCount(metrics[k])
  {
    if k < |metrics| then ParseCount(metrics[k]) else 0
  }

  /** A regex match of `m\w+` can start at `i`: the marker followed by a word character. */
  predicate MatchAt(m: char, s: string, i: nat) {
    i + 1 < |s| && s[i] == m && IsWordChar(s[i + 1])
  }

  /** The end of the longest run of word characters starting at `i`. */
  function RunEnd(s: string, i: nat): (j: nat)
    requires i <= |s|
    ensures i <= j <= |s|
    ensures forall k :: i <= k < j ==> IsWordChar(s[k])
    ensures j == |s| || !IsWordChar(s[j])
    decreases |s| - i
  {
    if i < |s| && IsWordChar(s[i]) then RunEnd(s, i + 1) else i
  }

  /** Position of one match: `s[start..end]`. */
  datatype Span = Span(start: nat, end: nat)

  /** The spans `re.finditer(m + r"\w+", s[i:])` visits: scanning left to right,
      a match takes the longest word run after the marker and the scan resumes
      after it; elsewhere the scan moves on by one character. */
  function MatchesFrom(m: char, s: string, i: nat): (r: seq<Span>)
    requires i <= |s|
    ensures forall k :: 0 <= k < |r| ==>
      i <= r[k].start && MatchAt(m, s, r[k].start) && r[k].end == RunEnd(s, r[k].start + 1)
    ensures forall k :: 0 <= k < |r| - 1 ==> r[k].end <= r[k + 1].start
    decreases |s| - i
  {
    if i == |s| then []
    else if MatchAt(m, s, i) then [Span(i, RunEnd(s, i + 1))] + MatchesFrom(m, s, RunEnd(s, i + 1))
    else MatchesFrom(m, s, i + 1)
  }

  /** Some span of `spans` starts at `p`. */
  predicate StartsAt(spans: seq<Span>, p: nat) {
    exists k :: 0 <= k < |spans| && spans[k].start == p
  }

  /** When the marker is not itself a word character, the scan misses no
      match: its spans start exactly at the positions where the marker is
      followed by a word character. */
  lemma MatchesComplete(m: char, s: string, i: nat, p: nat)
    requires !IsWordChar(m)
    requires i <= p < |s|
    ensures MatchAt(m, s, p) <==> StartsAt(MatchesFrom(m, s, i), p)
  {
    var r := MatchesFrom(m, s, i);
    if StartsAt(r, p) {
      var k :| 0 <= k < |r| && r[k].start == p;
    }
    if MatchAt(m, s, p) {
      MatchFound(m, s, i, p);
    }
  }

  lemma {:induction false} MatchFound(m: char, s: string, i: nat, p: nat)
    requires !IsWordChar(m)
    requires i <= p < |s| && MatchAt(m, s, p)
    ensures StartsAt(MatchesFrom(m, s, i), p)
    decreases |s| - i
  {
    var r := MatchesFrom(m, s, i);
    if MatchAt(m, s, i) {
      var e := RunEnd(s, i + 1);
      var rest := MatchesFrom(m, s, e);
      assert r == [Span(i, e)] + rest;
      if p == i {
        assert r[0].start == p;
      } else {
        assert p >= e;
        MatchFound(m, s, e, p);
        var k :| 0 <= k < |rest| && rest[k].start == p;
        assert r[k + 1] == rest[k];
      }
    } else {
      assert p != i;
      MatchFound(m, s, i + 1, p);
    }
  }

  /** `re.findall(m + r"\w+", s)`: the matched texts, left to right. Each is
      the marker followed by one or more word characters, sits in `s` at its
      span, and cannot be extended to the right. */
  function FindTokens(m: char, s: string): (r: seq<string>)
    ensures |r| == |MatchesFrom(m, s, 0)|
    ensures forall k :: 0 <= k < |r| ==>
      var sp := MatchesFrom(m, s, 0)[k];
      sp.start < sp.end <= |s| && r[k] == s[sp.start..sp.end] &&
      (sp.end == |s| || !IsWordChar(s[sp.end]))
    ensures forall k :: 0 <= k < |r| ==> |r[k]| >= 2 && r[k][0] == m
    ensures forall k, j :: 0 <= k < |r| && 1 <= j < |r[k]| ==> IsWordChar(r[k][j])
  {
    var spans := MatchesFrom(m, s, 0);
    seq(|spans|, k requires 0 <= k < |spans| => s[spans[k].start..spans[k].end])
  }

  /** `extract_tweet_from_article`. */
  function Extract(a: Article): (r: Option<Tweet>)
    ensures r.None? <==> a.tweetText.None? && a.text.None?
    ensures r.Some? && a.tweetText.Some? ==> r.value.content == a.tweetText.value
    ensures r.Some? && a.tweetText.None? ==> r.value.content == a.text.value
    ensures r.Some? ==> r.value.username == (if a.author.Some? then a.author.value else "")
    ensures r.Some? ==> r.value.timestamp == a.datetime
    ensures r.Some? ==>
      r.value.likes == Metric(a.metrics, 0) &&
      r.value.retweets == Metric(a.metrics, 1) &&
      r.value.replies == Metric(a.metrics, 2)
    ensures r.Some? ==>
      r.value.hashtags == FindTokens('#', r.value.content) &&
      r.value.mentions == FindTokens('@', r.value.content)
  {
    var content :=
      match a.tweetText
      case Some(t) => Some(t)
      case None => a.text;  // the fallback read; if it raises, extraction returns None
    match content
    case None => None
    case Some(c) =>
      Some(Tweet(
        username := match a.author case Some(u) => u case None => "",
        timestamp := a.datetime,
        content := c,
        likes := Metric(a.metrics, 0),
        retweets := Metric(a.metrics, 1),
        replies := Metric(a.metrics, 2),
        hashtags := FindTokens('#', c),
        mentions := FindTokens('@', c)))
  }
}
