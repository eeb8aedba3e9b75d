/**
 * `scroll_and_collect`: the per-hashtag collection pass. The browser is an
 * oracle: round `i` of the pass sees `observe(i)`, either an error page or
 * the list of rendered articles. Scroll-strategy calls are recorded as
 * indices into the four-element strategy list, in call order.
 *
 * The first half is a specification on values (one function per piece of
 * the loop); the class `TopicPass` at the end runs the loops imperatively
 * and is proved to compute exactly what the specification says.
 */
module Collection {
  import opened Optional
  import opened Text
  import opened Extraction

  /** SCROLL_RETRY_LIMIT: empty rounds tolerated before the pass winds down. */
  const ScrollRetryLimit: nat := 6
  /** Error pages tolerated; the next one aborts the pass (`retry_page_error > 3`). */
  const ErrorPageLimit: nat := 3
  /** Characters of an article's text kept as its de-duplication signature. */
  const SignatureLength: nat := 160
  /** Length of SCROLL_STRATEGIES: 0 small_increment_scroll, 1 scroll_into_last_article,
      2 page_down_scroll, 3 js_scroll_bottom. */
  const StrategyCount: nat := 4

  /** What one round of the loop observes: Twitter's error page, the rendered
      articles, or a driver call outside every `try` that raises
      (`driver.page_source`, `driver.refresh()` after an error page, or
      `driver.find_elements`). A failing refresh is observed as a `Crash` of
      the next round, which reads the page before anything else. */
  datatype Round = ErrorPage | Crash | Articles(articles: seq<Article>)

  /** Why the pass ended. */
  datatype Stop =
    | QuotaReached     // len(tweets_data) >= max_tweets
    | SearchFailed     // search_hashtag raised
    | PersistentError  // a fourth error page
    | MinReached       // out of scroll retries with at least min_tweets
    | GaveUp           // out of scroll retries below min_tweets, after the final sweep
    | Crashed          // a driver call raised; the exception leaves scroll_and_collect

  /** The loop's variables: tweets_data, seen, retry_page_error, scroll_retries,
      and the scroll calls made so far. `sigs` lists the signature each record
      was admitted under, in order; the source keeps only their set. */
  datatype PassState = PassState(
    tweets: seq<Tweet>,
    seen: set<string>,
    sigs: seq<string>,
    retryPageError: nat,
    scrollRetries: nat,
    strategyLog: seq<nat>)

  datatype Scanned = Scanned(st: PassState, newFound: bool)
  datatype Next = Continue(st: PassState) | Done(st: PassState, reason: Stop)
  datatype Outcome = Outcome(st: PassState, reason: Stop, rounds: nat)

  function Initial(): PassState {
    PassState([], {}, [], 0, 0, [])
  }

  /** `(art.text or "")[:160]`. */
  function Signature(text: string): (sig: string)
    ensures sig <= text
    ensures |sig| == if |text| < SignatureLength then |text| else SignatureLength
  {
    if |text| <= SignatureLength then text else text[..SignatureLength]
  }

  /** What the pass keeps true of its records: one distinct, non-empty
      signature per record, `seen` is exactly the set of those signatures
      (so it has as many elements as there are records), no record has blank
      content, and every scroll call names one of the four strategies. */
  ghost predicate Wf(st: PassState) {
    && |st.sigs| == |st.tweets|
    && |st.seen| == |st.sigs|
    && (forall x :: x in st.seen <==> x in st.sigs)
    && (forall j, k :: 0 <= j < k < |st.sigs| ==> st.sigs[j] != st.sigs[k])
    && (forall k :: 0 <= k < |st.sigs| ==> st.sigs[k] != [] && |st.sigs[k]| <= SignatureLength)
    && (forall k :: 0 <= k < |st.tweets| ==> !IsBlank(st.tweets[k].content))
    && (forall k :: 0 <= k < |st.strategyLog| ==> st.strategyLog[k] < StrategyCount)
  }

  /** The counters are below their ceilings, so the loop may run another round. */
  predicate Live(st: PassState) {
    st.retryPageError <= ErrorPageLimit && st.scrollRetries <= ScrollRetryLimit
  }

  /** The last `scrollRetries` scroll calls are strategies 1, 2, 3, 0, ... in
      turn: each empty round calls strategy `scroll_retries % 4`. */
  predicate Rotating(st: PassState) {
    var base := |st.strategyLog| - st.scrollRetries;
    base >= 0 &&
    forall k :: base <= k < |st.strategyLog| ==> st.strategyLog[k] == (k - base + 1) % StrategyCount
  }

  /** The article is admitted: its text is readable, its signature is
      non-empty and unseen, and extraction gives non-blank content. */
  predicate Accepts(st: PassState, a: Article) {
    && a.text.Some?
    && Signature(a.text.value) != []
    && Signature(a.text.value) !in st.seen
    && Extract(a).Some?
    && !IsBlank(Extract(a).value.content)
  }

  /** Admission put without the extractor: the article text is readable and
      non-empty, its signature is unseen, and the tweet text (or, without
      one, the article text) has a non-whitespace character. */
  lemma AcceptsExactly(st: PassState, a: Article)
    ensures Accepts(st, a) <==>
      && a.text.Some? && a.text.value != []
      && Signature(a.text.value) !in st.seen
      && !AllSpace(if a.tweetText.Some? then a.tweetText.value else a.text.value)
  {
    if a.text.Some? {
      assert Signature(a.text.value) != [] <==> a.text.value != [];
    }
  }

  /** The body of the inner `for` loop for one article: an admitted article
      appends its record and adds its signature to `seen`; any other article
      (unreadable, empty, already seen, or with blank content) changes
      nothing, so its signature stays unseen and a later round looks at it
      again. */
  function ScanArticle(st: PassState, a: Article): (r: PassState)
    ensures Accepts(st, a) ==>
      r.tweets == st.tweets + [Extract(a).value] &&
      r.seen == st.seen + {Signature(a.text.value)} &&
      r.sigs == st.sigs + [Signature(a.text.value)]
    ensures !Accepts(st, a) ==> r == st
    ensures r.retryPageError == st.retryPageError && r.scrollRetries == st.scrollRetries
    ensures r.strategyLog == st.strategyLog
  {
    if Accepts(st, a) then
      var sig := Signature(a.text.value);
      st.(tweets := st.tweets + [Extract(a).value], seen := st.seen + {sig}, sigs := st.sigs + [sig])
    else
      st
  }

  /** Admitting an article keeps the records well formed: its signature is
      new, non-empty and short, and its content is not blank. */
  lemma ScanArticleKeepsWf(st: PassState, a: Article)
    requires Wf(st)
    ensures Wf(ScanArticle(st, a))
  {
    if Accepts(st, a) {
      AdmitKeepsWf(st, Extract(a).value, Signature(a.text.value));
    }
  }

  lemma AdmitKeepsWf(st: PassState, t: Tweet, sig: string)
    requires Wf(st)
    requires sig != [] && |sig| <= SignatureLength && sig !in st.seen && !IsBlank(t.content)
    ensures Wf(st.(tweets := st.tweets + [t], seen := st.seen + {sig}, sigs := st.sigs + [sig]))
  {
    var r := st.(tweets := st.tweets + [t], seen := st.seen + {sig}, sigs := st.sigs + [sig]);
    assert sig !in st.sigs;
    assert |r.seen| == |st.seen| + 1;
    assert forall x :: x in r.seen <==> x in r.sigs by {
      forall x ensures x in r.seen <==> x in r.sigs {
        assert x in r.sigs <==> x in st.sigs || x == sig;
      }
    }
    forall j, k | 0 <= j < k < |r.sigs| ensures r.sigs[j] != r.sigs[k] {
      if k == |st.sigs| {
        assert r.sigs[j] == st.sigs[j] && st.sigs[j] in st.seen;
      } else {
        assert r.sigs[j] == st.sigs[j] && r.sigs[k] == st.sigs[k];
      }
    }
    forall k | 0 <= k < |r.sigs| ensures r.sigs[k] != [] && |r.sigs[k]| <= SignatureLength {
      if k < |st.sigs| {
        assert r.sigs[k] == st.sigs[k];
      }
    }
    forall k | 0 <= k < |r.tweets| ensures !IsBlank(r.tweets[k].content) {
      if k < |st.tweets| {
        assert r.tweets[k] == st.tweets[k];
      }
    }
  }

  /** The inner `for` loop over one round's articles, in page order. It stops
      right after the record that reaches the quota; `newFound` says whether
      anything was appended. Records are only ever appended, `seen` only
      grows, and from below the quota the round never goes past it. */
  function ScanRound(st: PassState, arts: seq<Article>, maxTweets: int): (r: Scanned)
    ensures st.tweets <= r.st.tweets && st.sigs <= r.st.sigs && st.seen <= r.st.seen
    ensures r.newFound <==> |r.st.tweets| > |st.tweets|
    ensures !r.newFound ==> r.st == st
    ensures |st.tweets| < maxTweets ==> |r.st.tweets| <= maxTweets
    ensures r.st.retryPageError == st.retryPageError && r.st.scrollRetries == st.scrollRetries
    ensures r.st.strategyLog == st.strategyLog
    decreases |arts|
  {
    if arts == [] then Scanned(st, false)
    else
      var st1 := ScanArticle(st, arts[0]);
      var found := |st1.tweets| > |st.tweets|;
      if found && |st1.tweets| >= maxTweets then Scanned(st1, true)
      else
        var rest := ScanRound(st1, arts[1..], maxTweets);
        Scanned(rest.st, found || rest.newFound)
  }

  /** A round keeps the records well formed. */
  lemma {:induction false} ScanRoundKeepsWf(st: PassState, arts: seq<Article>, maxTweets: int)
    requires Wf(st)
    ensures Wf(ScanRound(st, arts, maxTweets).st)
    decreases |arts|
  {
    if arts != [] {
      var st1 := ScanArticle(st, arts[0]);
      assert Wf(st1) by { ScanArticleKeepsWf(st, arts[0]); }
      var r := ScanRound(st, arts, maxTweets);
      if |st1.tweets| > |st.tweets| && |st1.tweets| >= maxTweets {
        assert r.st == st1;
      } else {
        var rest := ScanRound(st1, arts[1..], maxTweets);
        assert Wf(rest.st) by { ScanRoundKeepsWf(st1, arts[1..], maxTweets); }
        assert r.st == rest.st;
      }
    }
  }

  /** Once the quota is reached within `arts`, the articles after them are
      never looked at. */
  lemma {:induction false} QuotaEndsRound(st: PassState, arts: seq<Article>, more: seq<Article>, maxTweets: int)
    requires |st.tweets| < maxTweets
    requires |ScanRound(st, arts, maxTweets).st.tweets| >= maxTweets
    ensures ScanRound(st, arts + more, maxTweets) == ScanRound(st, arts, maxTweets)
    decreases |arts|
  {
    assert arts != [];
    var all := arts + more;
    assert all[0] == arts[0];
    assert all[1..] == arts[1..] + more;
    var st1 := ScanArticle(st, arts[0]);
    if !(|st1.tweets| > |st.tweets| && |st1.tweets| >= maxTweets) {
      assert |st1.tweets| < maxTweets;
      QuotaEndsRound(st1, arts[1..], more, maxTweets);
      var rest := ScanRound(st1, arts[1..], maxTweets);
      assert ScanRound(st, arts, maxTweets) == Scanned(rest.st, |st1.tweets| > |st.tweets| || rest.newFound);
      assert ScanRound(st, all, maxTweets) == Scanned(rest.st, |st1.tweets| > |st.tweets| || rest.newFound);
    }
  }

  /** A round in which no article is admitted changes nothing and finds nothing. */
  lemma {:induction false} NothingAdmitted(st: PassState, arts: seq<Article>, maxTweets: int)
    requires forall k :: 0 <= k < |arts| ==> !Accepts(st, arts[k])
    ensures ScanRound(st, arts, maxTweets) == Scanned(st, false)
    decreases |arts|
  {
    if arts != [] {
      assert !Accepts(st, arts[0]);
      assert forall k :: 0 <= k < |arts[1..]| ==> arts[1..][k] == arts[k + 1];
      NothingAdmitted(st, arts[1..], maxTweets);
    }
  }

  /** The four strategies called in list order by the final retry sequence. */
  function FinalSweep(): (s: seq<nat>)
    ensures |s| == StrategyCount && forall k :: 0 <= k < |s| ==> s[k] == k
  {
    [0, 1, 2, 3]
  }

  /** One iteration of the `while` loop, entered with fewer than `maxTweets`
      records: an error page raises `retryPageError` and touches nothing
      else, ending the pass at the fourth; otherwise the round's articles are
      scanned, and a round that appends resets `scrollRetries` while an empty
      one raises it and calls strategy `scrollRetries % 4`, or winds the pass
      down once the counter passes the limit. */
  function Step(st: PassState, round: Round, maxTweets: int, minTweets: int): (n: Next)
    requires Live(st) && |st.tweets| < maxTweets
    ensures st.tweets <= n.st.tweets && st.sigs <= n.st.sigs && st.seen <= n.st.seen
    ensures st.strategyLog <= n.st.strategyLog
    ensures |n.st.tweets| <= maxTweets
    ensures (n.Done? && n.reason == QuotaReached) <==> |n.st.tweets| >= maxTweets
    ensures n.Done? ==> n.reason != SearchFailed
    ensures round.Crash? <==> n.Done? && n.reason == Crashed
    ensures round.Crash? ==> n.st == st
    ensures round.ErrorPage? ==>
      n.st == st.(retryPageError := st.retryPageError + 1) &&
      (n.Done? <==> n.st.retryPageError > ErrorPageLimit) &&
      (n.Done? ==> n.reason == PersistentError)
    ensures round.Articles? ==> n.st.retryPageError == st.retryPageError && !(n.Done? && n.reason == PersistentError)
    ensures round.Articles? && |n.st.tweets| > |st.tweets| ==> n.st.strategyLog == st.strategyLog
    ensures round.Articles? && |n.st.tweets| > |st.tweets| && n.Continue? ==> n.st.scrollRetries == 0
    ensures round.Articles? && |n.st.tweets| == |st.tweets| ==>
      n.st.tweets == st.tweets && n.st.sigs == st.sigs && n.st.seen == st.seen &&
      n.st.scrollRetries == st.scrollRetries + 1
    ensures round.Articles? && |n.st.tweets| == |st.tweets| && n.Continue? ==>
      n.st.strategyLog == st.strategyLog + [n.st.scrollRetries % StrategyCount]
    ensures n.Done? && n.reason in {MinReached, GaveUp} ==>
      round.Articles? && n.st.tweets == st.tweets && n.st.scrollRetries == ScrollRetryLimit + 1 &&
      st.scrollRetries == ScrollRetryLimit
    ensures n.Done? && n.reason == MinReached ==> |n.st.tweets| >= minTweets && n.st.strategyLog == st.strategyLog
    ensures n.Done? && n.reason == GaveUp ==>
      |n.st.tweets| < minTweets && n.st.strategyLog == st.strategyLog + FinalSweep()
    ensures n.Continue? ==> Live(n.st)
    ensures n.Continue? ==>
      || n.st.retryPageError == st.retryPageError + 1
      || (n.st.retryPageError == st.retryPageError && |n.st.tweets| > |st.tweets|)
      || (n.st.retryPageError == st.retryPageError && |n.st.tweets| == |st.tweets| &&
          n.st.scrollRetries == st.scrollRetries + 1)
  {
    match round
    case Crash => Done(st, Crashed)
    case ErrorPage =>
      var st1 := st.(retryPageError := st.retryPageError + 1);
      if st1.retryPageError > ErrorPageLimit then Done(st1, PersistentError) else Continue(st1)
    case Articles(arts) =>
      var sc := ScanRound(st, arts, maxTweets);
      if |sc.st.tweets| >= maxTweets then Done(sc.st, QuotaReached)
      else if sc.newFound then Continue(sc.st.(scrollRetries := 0))
      else
        var retries := sc.st.scrollRetries + 1;
        if retries > ScrollRetryLimit then
          if |sc.st.tweets| >= minTweets then Done(sc.st.(scrollRetries := retries), MinReached)
          else Done(sc.st.(scrollRetries := retries, strategyLog := sc.st.strategyLog + FinalSweep()), GaveUp)
        else
          Continue(sc.st.(scrollRetries := retries, strategyLog := sc.st.strategyLog + [retries % StrategyCount]))
  }

  /** One round keeps the records well formed, and every scroll call it
      makes names one of the four strategies. */
  lemma StepKeepsWf(st: PassState, round: Round, maxTweets: int, minTweets: int)
    requires Live(st) && |st.tweets| < maxTweets && Wf(st)
    ensures Wf(Step(st, round, maxTweets, minTweets).st)
  {
    if round.Articles? {
      ScanRoundKeepsWf(st, round.articles, maxTweets);
      var sc := ScanRound(st, round.articles, maxTweets);
      var n := Step(st, round, maxTweets, minTweets);
      assert n.st.tweets == sc.st.tweets && n.st.sigs == sc.st.sigs && n.st.seen == sc.st.seen;
      assert forall k :: 0 <= k < |st.strategyLog| ==> n.st.strategyLog[k] == st.strategyLog[k];
    }
  }

  /** The `while` loop from state `st` at round `i` until it stops. */
  function RunFrom(st: PassState, observe: nat -> Round, i: nat, maxTweets: int, minTweets: int): (o: Outcome)
    requires Live(st)
    decreases ErrorPageLimit - st.retryPageError, maxTweets - |st.tweets|, ScrollRetryLimit - st.scrollRetries
  {
    if |st.tweets| >= maxTweets then Outcome(st, QuotaReached, i)
    else
      match Step(st, observe(i), maxTweets, minTweets)
      case Done(st1, reason) => Outcome(st1, reason, i + 1)
      case Continue(st1) => RunFrom(st1, observe, i + 1, maxTweets, minTweets)
  }

  /** `scroll_and_collect` as a whole: a failed search returns no records
      and observes no round. */
  function Pass(searchOk: bool, observe: nat -> Round, maxTweets: int, minTweets: int): (o: Outcome)
    ensures !searchOk ==> o.reason == SearchFailed && o.st.tweets == [] && o.rounds == 0
  {
    if !searchOk then Outcome(Initial(), SearchFailed, 0)
    else RunFrom(Initial(), observe, 0, maxTweets, minTweets)
  }

  /** How many of rounds `i` .. `j - 1` showed an error page. */
  function ErrorRounds(observe: nat -> Round, i: nat, j: nat): nat
    decreases j - i
  {
    if i >= j then 0 else (if observe(i).ErrorPage? then 1 else 0) + ErrorRounds(observe, i + 1, j)
  }

  /** Rounds left to the pass from `st`: each round spends at least one. */
  function Budget(st: PassState, maxTweets: int): int {
    (ErrorPageLimit + 1 - st.retryPageError)
    + (ScrollRetryLimit + 1) * (maxTweets - |st.tweets|)
    + (ScrollRetryLimit + 1 - st.scrollRetries)
  }

  /** Strategies called by the empty rounds 1 .. SCROLL_RETRY_LIMIT since the
      last round that added a record: `scroll_retries % 4` for each value the counter takes. */
  function RetryCalls(): (s: seq<nat>)
    ensures |s| == ScrollRetryLimit && forall k :: 0 <= k < |s| ==> s[k] == (k + 1) % StrategyCount
  {
    [1, 2, 3, 0, 1, 2]
  }

  /** The loop keeps its records well formed; records, signatures, `seen`
      and the scroll log only grow. */
  lemma {:induction false} RunKeepsWf(st: PassState, observe: nat -> Round, i: nat, maxTweets: int, minTweets: int)
    requires Live(st) && Wf(st)
    ensures var o := RunFrom(st, observe, i, maxTweets, minTweets);
      Wf(o.st) && st.tweets <= o.st.tweets && st.sigs <= o.st.sigs && st.seen <= o.st.seen &&
      st.strategyLog <= o.st.strategyLog
    decreases ErrorPageLimit - st.retryPageError, maxTweets - |st.tweets|, ScrollRetryLimit - st.scrollRetries
  {
    if |st.tweets| < maxTweets {
      StepKeepsWf(st, observe(i), maxTweets, minTweets);
      match Step(st, observe(i), maxTweets, minTweets)
      case Done(_, _) =>
      case Continue(st1) =>
        RunKeepsWf(st1, observe, i + 1, maxTweets, minTweets);
    }
  }

  /** The loop never goes past the quota, and it reports the quota as its
      reason for stopping exactly when the records reach it. */
  lemma {:induction false} RunQuota(st: PassState, observe: nat -> Round, i: nat, maxTweets: int, minTweets: int)
    requires Live(st)
    ensures var o := RunFrom(st, observe, i, maxTweets, minTweets);
      (|o.st.tweets| <= maxTweets || o.st.tweets == st.tweets) &&
      (o.reason == QuotaReached <==> |o.st.tweets| >= maxTweets) &&
      o.reason != SearchFailed
    decreases ErrorPageLimit - st.retryPageError, maxTweets - |st.tweets|, ScrollRetryLimit - st.scrollRetries
  {
    if |st.tweets| < maxTweets {
      match Step(st, observe(i), maxTweets, minTweets)
      case Done(_, _) =>
      case Continue(st1) =>
        RunQuota(st1, observe, i + 1, maxTweets, minTweets);
    }
  }

  /** `retryPageError` counts every error page the loop saw, consecutive or
      not, and the pass aborts on an error page exactly when that count
      passes the ceiling. */
  lemma {:induction false} RunErrorPages(st: PassState, observe: nat -> Round, i: nat, maxTweets: int, minTweets: int)
    requires Live(st)
    ensures var o := RunFrom(st, observe, i, maxTweets, minTweets);
      i <= o.rounds &&
      o.st.retryPageError == st.retryPageError + ErrorRounds(observe, i, o.rounds) &&
      o.st.retryPageError <= ErrorPageLimit + 1 &&
      (o.reason == PersistentError <==> o.st.retryPageError > ErrorPageLimit)
    decreases ErrorPageLimit - st.retryPageError, maxTweets - |st.tweets|, ScrollRetryLimit - st.scrollRetries
  {
    if |st.tweets| < maxTweets {
      assert ErrorRounds(observe, i + 1, i + 1) == 0;
      match Step(st, observe(i), maxTweets, minTweets)
      case Done(_, _) =>
      case Continue(st1) =>
        RunErrorPages(st1, observe, i + 1, maxTweets, minTweets);
    }
  }

  /** The loop ends: every round it runs uses up part of a finite budget
      (error pages, records still wanted, empty rounds still allowed). */
  lemma {:induction false} RunBounded(st: PassState, observe: nat -> Round, i: nat, maxTweets: int, minTweets: int)
    requires Live(st) && |st.tweets| <= maxTweets
    ensures RunFrom(st, observe, i, maxTweets, minTweets).rounds <= i + Budget(st, maxTweets)
    decreases ErrorPageLimit - st.retryPageError, maxTweets - |st.tweets|, ScrollRetryLimit - st.scrollRetries
  {
    if |st.tweets| < maxTweets {
      match Step(st, observe(i), maxTweets, minTweets)
      case Done(_, _) =>
      case Continue(st1) =>
        RunBounded(st1, observe, i + 1, maxTweets, minTweets);
    }
  }

  /** A continuing round keeps the rotation of scroll strategies. */
  lemma StepKeepsRotating(st: PassState, round: Round, maxTweets: int, minTweets: int)
    requires Live(st) && |st.tweets| < maxTweets && Rotating(st)
    ensures Step(st, round, maxTweets, minTweets).Continue? ==> Rotating(Step(st, round, maxTweets, minTweets).st)
  {
    var n := Step(st, round, maxTweets, minTweets);
    if n.Continue? && round.Articles? && |n.st.tweets| == |st.tweets| {
      var base := |st.strategyLog| - st.scrollRetries;
      assert n.st.strategyLog == st.strategyLog + [n.st.scrollRetries % StrategyCount];
      forall k | base <= k < |n.st.strategyLog|
        ensures n.st.strategyLog[k] == (k - base + 1) % StrategyCount
      {
        if k < |st.strategyLog| {
          assert n.st.strategyLog[k] == st.strategyLog[k];
        }
      }
    }
  }

  /** The state a pass ends in when it stops on empty rounds: at the seventh
      empty round since the last round that added a record (error pages in
      between neither count nor reset the counter), after calling the
      strategies 1, 2, 3, 0, 1, 2 in turn; at least `minTweets` records, or
      else fewer and a final sweep 0, 1, 2, 3. */
  predicate WoundDown(st: PassState, reason: Stop, minTweets: int) {
    var log := st.strategyLog;
    && (reason == MinReached ==>
         |st.tweets| >= minTweets && st.scrollRetries == ScrollRetryLimit + 1 &&
         |log| >= ScrollRetryLimit && log[|log| - ScrollRetryLimit..] == RetryCalls())
    && (reason == GaveUp ==>
         |st.tweets| < minTweets && st.scrollRetries == ScrollRetryLimit + 1 &&
         |log| >= ScrollRetryLimit + StrategyCount &&
         log[|log| - ScrollRetryLimit - StrategyCount..] == RetryCalls() + FinalSweep())
  }

  /** A round that winds the pass down does so after the rotation. */
  lemma StepWindDown(st: PassState, round: Round, maxTweets: int, minTweets: int)
    requires Live(st) && |st.tweets| < maxTweets && Rotating(st)
    ensures var n := Step(st, round, maxTweets, minTweets);
      n.Done? ==> WoundDown(n.st, n.reason, minTweets)
  {
    var n := Step(st, round, maxTweets, minTweets);
    if n.Done? && n.reason in {MinReached, GaveUp} {
      var log := st.strategyLog;
      var base := |log| - ScrollRetryLimit;
      assert st.scrollRetries == ScrollRetryLimit;
      assert log[base..] == RetryCalls();
      if n.reason == GaveUp {
        assert n.st.strategyLog == log + FinalSweep();
        assert n.st.strategyLog[base..] == log[base..] + FinalSweep();
      }
    }
  }

  /** Before winding down on empty rounds the pass has called the strategies
      1, 2, 3, 0, 1, 2 in turn; below the minimum it then sweeps 0, 1, 2, 3. */
  lemma {:induction false} RunWindDown(st: PassState, observe: nat -> Round, i: nat, maxTweets: int, minTweets: int)
    requires Live(st) && Rotating(st)
    ensures var o := RunFrom(st, observe, i, maxTweets, minTweets);
      WoundDown(o.st, o.reason, minTweets)
    decreases ErrorPageLimit - st.retryPageError, maxTweets - |st.tweets|, ScrollRetryLimit - st.scrollRetries
  {
    if |st.tweets| < maxTweets {
      StepWindDown(st, observe(i), maxTweets, minTweets);
      match Step(st, observe(i), maxTweets, minTweets)
      case Done(_, _) =>
      case Continue(st1) =>
        StepKeepsRotating(st, observe(i), maxTweets, minTweets);
        RunWindDown(st1, observe, i + 1, maxTweets, minTweets);
    }
  }

  /** Quota: a pass holds at most `maxTweets` records (none when the quota is
      not positive), and stops for the quota exactly when it reached it. */
  lemma PassQuota(searchOk: bool, observe: nat -> Round, maxTweets: int, minTweets: int)
    ensures var o := Pass(searchOk, observe, maxTweets, minTweets);
      |o.st.tweets| <= (if maxTweets > 0 then maxTweets else 0) &&
      (o.reason == QuotaReached <==> searchOk && |o.st.tweets| >= maxTweets) &&
      (o.reason == SearchFailed <==> !searchOk)
  {
    if searchOk {
      RunQuota(Initial(), observe, 0, maxTweets, minTweets);
    }
  }

  /** Uniqueness: the records of a pass have pairwise distinct, non-empty
      signatures of at most 160 characters, `seen` holds exactly those
      signatures and as many of them as there are records, and no record
      has blank content. */
  lemma PassUnique(searchOk: bool, observe: nat -> Round, maxTweets: int, minTweets: int)
    ensures var o := Pass(searchOk, observe, maxTweets, minTweets);
      Wf(o.st) && |o.st.seen| == |o.st.tweets| &&
      (forall j, k :: 0 <= j < k < |o.st.sigs| ==> o.st.sigs[j] != o.st.sigs[k]) &&
      (forall k :: 0 <= k < |o.st.tweets| ==> !IsBlank(o.st.tweets[k].content))
  {
    if searchOk {
      RunKeepsWf(Initial(), observe, 0, maxTweets, minTweets);
    }
  }

  /** Error pages: the final `retryPageError` is the number of error pages
      among all rounds of the pass (it is never reset), at most four, and
      the pass ended on a persistent error exactly when it is four. */
  lemma PassErrorPages(searchOk: bool, observe: nat -> Round, maxTweets: int, minTweets: int)
    ensures var o := Pass(searchOk, observe, maxTweets, minTweets);
      o.st.retryPageError == ErrorRounds(observe, 0, o.rounds) &&
      o.st.retryPageError <= ErrorPageLimit + 1 &&
      (o.reason == PersistentError <==> o.st.retryPageError == ErrorPageLimit + 1)
  {
    if searchOk {
      RunErrorPages(Initial(), observe, 0, maxTweets, minTweets);
    }
  }

  /** Termination: whatever the browser shows, a pass runs at most
      7 * maxTweets + 11 rounds. */
  lemma PassTerminates(searchOk: bool, observe: nat -> Round, maxTweets: int, minTweets: int)
    ensures Pass(searchOk, observe, maxTweets, minTweets).rounds <=
      if maxTweets > 0 then (ScrollRetryLimit + 1) * maxTweets + ErrorPageLimit + ScrollRetryLimit + 2 else 0
  {
    if searchOk && maxTweets > 0 {
      RunBounded(Initial(), observe, 0, maxTweets, minTweets);
    }
  }

  /** Winding down: the pass stops on empty rounds only at the seventh empty
      round since the last round that added a record, successfully if it
      holds at least `minTweets` records, and otherwise after calling every
      strategy once more in list order. */
  lemma PassWindDown(searchOk: bool, observe: nat -> Round, maxTweets: int, minTweets: int)
    ensures var o := Pass(searchOk, observe, maxTweets, minTweets);
      WoundDown(o.st, o.reason, minTweets)
  {
    if searchOk {
      RunWindDown(Initial(), observe, 0, maxTweets, minTweets);
    }
  }

  /** How many of rounds `i` .. `j - 1` were a failing driver call. */
  function CrashRounds(observe: nat -> Round, i: nat, j: nat): nat
    decreases j - i
  {
    if i >= j then 0 else (if observe(i).Crash? then 1 else 0) + CrashRounds(observe, i + 1, j)
  }

  /** A failing driver call ends the loop, and only that does: the loop
      stops on `Crashed` exactly when it observed a `Crash`, and it never
      observes more than one. */
  lemma {:induction false} RunCrash(st: PassState, observe: nat -> Round, i: nat, maxTweets: int, minTweets: int)
    requires Live(st)
    ensures var o := RunFrom(st, observe, i, maxTweets, minTweets);
      i <= o.rounds &&
      CrashRounds(observe, i, o.rounds) == (if o.reason == Crashed then 1 else 0)
    decreases ErrorPageLimit - st.retryPageError, maxTweets - |st.tweets|, ScrollRetryLimit - st.scrollRetries
  {
    if |st.tweets| < maxTweets {
      assert CrashRounds(observe, i + 1, i + 1) == 0;
      match Step(st, observe(i), maxTweets, minTweets)
      case Done(_, _) =>
      case Continue(st1) =>
        RunCrash(st1, observe, i + 1, maxTweets, minTweets);
    }
  }

  /** Browser failures: a pass stops on `Crashed` exactly when one of its
      rounds was a failing driver call, and it observes at most one; the
      exception then leaves `scroll_and_collect`, so the records collected
      so far never reach the caller. */
  lemma PassCrash(searchOk: bool, observe: nat -> Round, maxTweets: int, minTweets: int)
    ensures var o := Pass(searchOk, observe, maxTweets, minTweets);
      CrashRounds(observe, 0, o.rounds) == (if o.reason == Crashed then 1 else 0)
  {
    if searchOk {
      RunCrash(Initial(), observe, 0, maxTweets, minTweets);
    }
  }

  /** The local state of one `scroll_and_collect` call, updated in place by
      its loops. `sigs` is ghost: the source keeps only the set `seen`. */
  class TopicPass {
    var tweets: seq<Tweet>
    var seen: set<string>
    ghost var sigs: seq<string>
    var retryPageError: nat
    var scrollRetries: nat
    var strategyLog: seq<nat>

    ghost function State(): PassState
      reads this
    {
      PassState(tweets, seen, sigs, retryPageError, scrollRetries, strategyLog)
    }

    /** `tweets_data = []`, `seen = set()`, the counters at 0. */
    constructor ()
      ensures State() == Initial()
    {
      tweets, seen, sigs := [], {}, [];
      retryPageError, scrollRetries := 0, 0;
      strategyLog := [];
    }

    /** The body of the inner `for` loop for one article: `added` says
        whether its record was appended. */
    method AdmitArticle(art: Article) returns (added: bool)
      modifies this
      ensures State() == ScanArticle(old(State()), art)
      ensures added <==> |tweets| > |old(tweets)|
    {
      added := false;
      if art.text.Some? {
        var sig := Signature(art.text.value);
        if sig != [] && sig !in seen {
          var extracted := Extract(art);
          if extracted.Some? && !IsBlank(extracted.value.content) {
            seen := seen + {sig};
            sigs := sigs + [sig];
            tweets := tweets + [extracted.value];
            added := true;
          }
        }
      }
    }

    /** The inner `for art in articles` loop of one round. */
    method ScanArticles(articles: seq<Article>, maxTweets: int) returns (newFound: bool)
      modifies this
      ensures State() == ScanRound(old(State()), articles, maxTweets).st
      ensures newFound == ScanRound(old(State()), articles, maxTweets).newFound
    {
      newFound := false;
      var j := 0;
      while j < |articles|
        invariant 0 <= j <= |articles|
        invariant var r := ScanRound(State(), articles[j..], maxTweets);
          Scanned(r.st, r.newFound || newFound) == ScanRound(old(State()), articles, maxTweets)
        decreases |articles| - j
      {
        var added := AdmitArticle(articles[j]);
        if added {
          newFound := true;
          if |tweets| >= maxTweets {
            break;
          }
        }
        assert articles[j..][1..] == articles[j + 1..];
        j := j + 1;
      }
    }

    /** One iteration of the `while` loop of `scroll_and_collect` on the
        round it observes: `stop` is set where the source breaks out. */
    method PlayRound(round: Round, maxTweets: int, minTweets: int) returns (stop: bool, reason: Stop)
      requires Live(State()) && |tweets| < maxTweets
      modifies this
      ensures Step(old(State()), round, maxTweets, minTweets) ==
        if stop then Done(State(), reason) else Continue(State())
    {
      ghost var before := State();
      stop, reason := false, QuotaReached;
      if round.Crash? {
        stop, reason := true, Crashed;
        return;
      }
      if round.ErrorPage? {
        retryPageError := retryPageError + 1;
        if retryPageError > ErrorPageLimit {
          stop, reason := true, PersistentError;
        }
        return;
      }
      var newFound := ScanArticles(round.articles, maxTweets);
      assert !newFound ==> State() == before;
      if |tweets| >= maxTweets {
        stop := true;
        return;
      }
      if !newFound {
        scrollRetries := scrollRetries + 1;
        if scrollRetries > ScrollRetryLimit {
          if |tweets| >= minTweets {
            reason := MinReached;
          } else {
            for k := 0 to StrategyCount
              invariant State() == before.(scrollRetries := ScrollRetryLimit + 1,
                                           strategyLog := before.strategyLog + FinalSweep()[..k])
            {
              strategyLog := strategyLog + [k];
            }
            assert FinalSweep()[..StrategyCount] == FinalSweep();
            reason := GaveUp;
          }
          stop := true;
          return;
        }
        strategyLog := strategyLog + [scrollRetries % StrategyCount];
      } else {
        scrollRetries := 0;
      }
    }

    /** The body of `scroll_and_collect` after the search: the `while` loop,
        with round `i` observing `observe(i)`. Returns the records and the
        reason the pass stopped. */
    method Collect(searchOk: bool, observe: nat -> Round, maxTweets: int, minTweets: int)
      returns (result: seq<Tweet>, reason: Stop)
      requires State() == Initial()
      modifies this
      ensures State() == Pass(searchOk, observe, maxTweets, minTweets).st
      ensures reason == Pass(searchOk, observe, maxTweets, minTweets).reason
      ensures result == tweets
    {
      if !searchOk {
        return tweets, SearchFailed;
      }
      ghost var target := RunFrom(Initial(), observe, 0, maxTweets, minTweets);
      var i: nat := 0;
      reason := QuotaReached;
      while |tweets| < maxTweets
        invariant Live(State())
        invariant RunFrom(State(), observe, i, maxTweets, minTweets) == target
        invariant reason == QuotaReached
        decreases ErrorPageLimit - retryPageError, maxTweets - |tweets|, ScrollRetryLimit - scrollRetries
      {
        var stop, why := PlayRound(observe(i), maxTweets, minTweets);
        i := i + 1;
        if stop {
          assert target == Outcome(State(), why, i);
          reason := why;
          break;
        }
      }
      result := tweets;
    }
  }

  /** `scroll_and_collect(driver, hashtag, max_tweets, min_tweets)`: the
      records of one pass, never more than the quota; None when a driver
      call raised and the exception left the function. */
  method ScrollAndCollect(searchOk: bool, observe: nat -> Round, maxTweets: int, minTweets: int)
    returns (result: Option<seq<Tweet>>)
    ensures result.None? <==> Pass(searchOk, observe, maxTweets, minTweets).reason == Crashed
    ensures result.Some? ==> result.value == Pass(searchOk, observe, maxTweets, minTweets).st.tweets
    ensures result.Some? ==> |result.value| <= if maxTweets > 0 then maxTweets else 0
  {
    var pass := new TopicPass();
    var tweets, reason := pass.Collect(searchOk, observe, maxTweets, minTweets);
    PassQuota(searchOk, observe, maxTweets, minTweets);
    if reason == Crashed {
      return None;
    }
    return Some(tweets);
  }
}
