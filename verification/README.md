# Twitter hashtag collector: a Dafny model of its collection core

The collector logs into Twitter with exported cookies, searches each hashtag
and scrolls the results page, turning every rendered `<article>` into a tweet
record until a per-hashtag quota is met or the page stops yielding new tweets.
This project models the three pieces of `twitter_data_collection.py` that
decide what ends up in the data set:

- `scroll_and_collect` (collection.dfy). The per-hashtag loop. It watches for
  Twitter's error page, reads the rendered articles, drops duplicates by a
  160-character signature and stops at the quota. It also rotates through the
  four scroll strategies on article rounds that bring nothing new. It winds
  down on the seventh empty round since the last round that added a record;
  error pages in between neither count nor reset that counter, and they do
  not rotate the strategies. Below the minimum quota it first makes one final
  sweep of all strategies. The browser is a parameter: round `i` of
  the pass sees `observe(i)`. That is an error page, a list of articles, or a
  crash: `driver.page_source`, `driver.refresh()` and `driver.find_elements`
  are called outside any `try`, so when one raises, the exception leaves
  `scroll_and_collect` and the records collected so far are lost. Every lemma
  holds for every such function, so for every possible browser behaviour. The
  loop is written twice:
  - as functions on values (`ScanArticle`, `ScanRound`, `Step`, `RunFrom`,
    `Pass`), which the lemmas are about;
  - as the class `TopicPass`, whose fields are the loop's local variables and
    whose methods run the `for` and `while` loops in place. Each method is
    proved to produce exactly the state the functions describe.
- `extract_tweet_from_article` (extraction.dfy). The browser reads of an
  article become the fields of `Article` (None where a lookup fails), and the
  rules applied to the text they return are modelled exactly:
  - content falls back from the tweet-text element to the article text;
  - a missing author becomes the empty name;
  - `_num` parses the like, retweet and reply counts;
  - the `#\w+` and `@\w+` scans collect hashtags and mentions.
- `normalize_cookie_for_selenium` (cookies.dfy). It resolves the key aliases
  that different cookie exporters use and rejects a cookie without a name or
  value. It fills in the default domain and path, turns `secure`/`httpOnly`
  into booleans, parses `expiry` and copies `sameSite`.

Two behaviours of the code worth knowing, both modelled as written:

- `retry_page_error` is never reset, so the pass aborts at the fourth error
  page it sees, whether or not the error pages come one after another
  (`Collection.PassErrorPages`).
- `_num` removes commas only after `isdigit()` has already rejected any text
  containing one, so "1,234" and "1.2K" count as 0
  (`Extraction.AbbreviatedCountsZero`).

## Model

| member | source | states |
|---|---|---|
| Collection.ScrollAndCollect | twitter_data_collection.py:361-433 | no result exactly when the pass crashed (the exception leaves the function); otherwise the records of the specified pass, never more than `max_tweets` (none when it is not positive) |
| Collection.TopicPass.constructor | twitter_data_collection.py:362-372 | empty record list, empty `seen`, both counters 0, no scroll calls |
| Collection.TopicPass.Collect | twitter_data_collection.py:366-430 | the loop leaves exactly the state and stop reason of `Pass`; a failed search returns no records |
| Collection.TopicPass.PlayRound | twitter_data_collection.py:374-430 | one loop iteration in place, with the same new state and the same break decision as `Step` |
| Collection.TopicPass.ScanArticles | twitter_data_collection.py:385-401 | the inner `for` loop in place, with the same records, `seen` and `new_found` as `ScanRound` |
| Collection.TopicPass.AdmitArticle | twitter_data_collection.py:388-397 | the loop body for one article in place, with the same new state as `ScanArticle`; it reports whether a record was appended |
| Collection.Signature | twitter_data_collection.py:389 | the signature is a prefix of the article text of length min(len, 160) |
| Collection.AcceptsExactly | twitter_data_collection.py:389-394 | an article is admitted iff its text is readable and non-empty, its signature is unseen, and the tweet text (or the article text without one) has a non-whitespace character |
| Collection.ScanArticle | twitter_data_collection.py:388-401 | an admitted article appends its record and adds its signature; any other article changes nothing, counters and strategy calls included |
| Collection.ScanArticleKeepsWf | twitter_data_collection.py:388-397 | one article keeps the signatures distinct, non-empty, at most 160 long and equal to `seen`, and the contents non-blank |
| Collection.AdmitKeepsWf | twitter_data_collection.py:390-397 | appending a record whose signature is new, non-empty and short, with non-blank content, keeps those facts |
| Collection.ScanRoundKeepsWf | twitter_data_collection.py:385-401 | the same for a whole round of articles |
| Collection.ScanRound | twitter_data_collection.py:385-401 | records only grow; `new_found` holds iff something was appended; a round with nothing new changes nothing; from below the quota the round never passes it |
| Collection.QuotaEndsRound | twitter_data_collection.py:398-399 | once the quota is reached, the remaining articles of the round are never looked at |
| Collection.NothingAdmitted | twitter_data_collection.py:390-394 | a round with no admissible article leaves the state unchanged and reports nothing new |
| Collection.FinalSweep | twitter_data_collection.py:415-420 | the final retry sequence calls each of the four strategies once, in list order |
| Collection.StepKeepsWf | twitter_data_collection.py:374-430 | the same for one iteration of the `while` loop |
| Collection.Step | twitter_data_collection.py:374-430 | a crash ends the pass and changes nothing; error page: count it, abort past 3, touch nothing else; otherwise stop at the quota; or reset the retry counter after a productive round; or raise it and call strategy `scroll_retries % 4`; or wind down past 6 (min reached, or final sweep) |
| Collection.RetryCalls | twitter_data_collection.py:422 | the strategies called by the first six empty rounds since the last productive round are 1, 2, 3, 0, 1, 2 |
| Collection.RunKeepsWf | twitter_data_collection.py:373-430 | the loop keeps signatures distinct, non-empty and at most 160 long, keeps `seen` equal to them, keeps content non-blank; the records only grow |
| Collection.RunQuota | twitter_data_collection.py:373-404 | the loop never passes the quota, and it stops for the quota exactly when it reached it |
| Collection.RunErrorPages | twitter_data_collection.py:375-383 | the error counter equals the number of error pages seen; it ends at most at 4, and the loop aborts exactly when it passes 3 |
| Collection.RunBounded | twitter_data_collection.py:373-430 | the loop runs at most a budget of rounds fixed by the counters and the records still wanted |
| Collection.StepKeepsRotating | twitter_data_collection.py:406-427 | after a run of empty rounds, the strategies were called in the order 1, 2, 3, 0, ... |
| Collection.StepWindDown | twitter_data_collection.py:406-421 | a round that winds down does so with the counter at 7, after the rotation, with or without the final sweep depending on the minimum |
| Collection.RunWindDown | twitter_data_collection.py:406-421 | the same as StepWindDown, for every continuation of the loop |
| Collection.Pass | twitter_data_collection.py:361-372 | a failed search returns no records, observes no round and reports the failed search |
| Collection.RunCrash | twitter_data_collection.py:373-385 | from any state, the loop stops on a crash exactly when it observes one, and it observes at most one |
| Collection.PassCrash | twitter_data_collection.py:373-385 | the same for a whole pass: it ends crashed iff one of the rounds it observed was a crash, and it observes at most one |
| Collection.PassQuota | twitter_data_collection.py:366-404 | a pass holds at most `max_tweets` records; it reports the quota iff the search succeeded and the quota was met; it reports a failed search iff the search failed |
| Collection.PassUnique | twitter_data_collection.py:387-397 | the records of a pass have pairwise distinct signatures; `seen` has exactly one entry per record; no content is blank |
| Collection.PassErrorPages | twitter_data_collection.py:364-379 | the final error counter is the total number of error pages in the pass (never reset), at most 4; the pass aborted iff it is 4 |
| Collection.PassTerminates | twitter_data_collection.py:373-430 | whatever the browser shows, a pass lasts at most 7 * max_tweets + 11 rounds |
| Collection.PassWindDown | twitter_data_collection.py:406-421 | a pass ends on empty rounds only at the seventh empty round since the last productive one (error pages in between are not counted), after strategies 1,2,3,0,1,2: with at least `min_tweets` records, or else with fewer and a final sweep 0,1,2,3 |
| Extraction.Extract | twitter_data_collection.py:306-358 | content is the tweet text, else the article text (no record when neither can be read); author or ""; timestamp; counts at positions 0, 1, 2; hashtags and mentions found in the content |
| Extraction.ParseCount | twitter_data_collection.py:332-337 | a non-zero count comes only from a stripped, non-empty run of digits |
| Extraction.ParseCountOfDecimal | twitter_data_collection.py:334-335 | a decimal numeral with any surrounding whitespace parses to its value |
| Extraction.NonNumericCountsZero | twitter_data_collection.py:335 | text with any character that is neither a digit nor whitespace counts as 0 |
| Extraction.AbbreviatedCountsZero | twitter_data_collection.py:335 | "1,234" and "1.2K" count as 0 (the comma removal never applies) |
| Extraction.Metric | twitter_data_collection.py:338-340 | the count at position k, or 0 when fewer than k+1 metric elements exist |
| Extraction.RunEnd | twitter_data_collection.py:344-345 | the end of the longest run of `\w` characters from a position |
| Extraction.MatchesFrom | twitter_data_collection.py:344-345 | every match found starts with the marker followed by a word character, ends where the word run ends, and matches do not overlap |
| Extraction.MatchesComplete | twitter_data_collection.py:344-345 | the scan misses no match: a match starts at p iff the marker at p is followed by a word character |
| Extraction.FindTokens | twitter_data_collection.py:344-345 | each token is the marker plus one or more word characters, taken from the content at its match position, and cannot be extended to the right |
| Text.Strip | twitter_data_collection.py:334 | the result is a slice of the text with only whitespace before and after it; it is empty iff the text is all whitespace, and otherwise starts and ends with a non-space |
| Text.StripPadded | twitter_data_collection.py:334 | stripping whitespace padding gives back the padded text |
| Text.NonSpaceKept | twitter_data_collection.py:334 | a non-whitespace character survives stripping |
| Text.DecimalValue | twitter_data_collection.py:335 | `int` of a digit string is 0 iff every digit is '0' |
| Text.Decimal | twitter_data_collection.py:335 | the decimal numeral is non-empty, all digits, with no leading zero |
| Text.DecimalRoundTrip | twitter_data_collection.py:335 | `int` of a numeral gives back its number |
| Cookies.Or | twitter_data_collection.py:68-69 | Python `or`: the first operand if truthy, else the second |
| Cookies.OrOf | twitter_data_collection.py:68-91 | the value under the first alias key holding a truthy value, else the last alias's value; truthy iff some alias is |
| Cookies.ParseExpiry | twitter_data_collection.py:91-101 | a non-empty digit string is read as a non-negative integer (0 iff all its digits are '0'); anything else goes through `int(float(...))` |
| Cookies.ExpiryRoundTrip | twitter_data_collection.py:95-96 | the decimal numeral of a timestamp is read back as that timestamp |
| Cookies.AsDict | twitter_data_collection.py:66-106 | the cookie as a dictionary: name, value, domain and path always present; secure, httpOnly, expiry and sameSite present exactly when set |
| Cookies.Assemble | twitter_data_collection.py:70-106 | rejects exactly when no name is truthy or the value is None; gives the domain and path defaults, secure/httpOnly as booleans when not None, expiry when truthy and parseable, sameSite when truthy |
| Cookies.NormalizeCookie | twitter_data_collection.py:61-106 | rejects exactly when no name is truthy, or `value` is falsy and `Value` is None; name, domain and path are truthy; a digit-string expiry is kept as its integer |
| Cookies.NormalizeIdempotent | twitter_data_collection.py:61-106 | a normalised cookie normalises to itself, given a truthy value, a non-zero expiry, and that `int(float(e))` gives back the expiry `e` it produced (no condition when there is no expiry) |
| Cookies.EmptyValueRejected | twitter_data_collection.py:69-71 | the cookie {"name": "sid", "value": ""} is rejected |
| Cookies.NormalizeCookieIntended | twitter_data_collection.py:69-71 | rejects for the value only when both `value` and `Value` are None; an empty or zero value is kept |
| Cookies.EmptyValueKept | twitter_data_collection.py:69-106 | the intended version turns {"name": "sid", "value": ""} into name sid, empty value, domain .twitter.com, path / |

## Left out

- The Selenium driver. Searching is a boolean parameter. The page-source test for "Something went wrong" / "Try reloading" is the `ErrorPage` round. `find_elements` is the article list of a round. A `page_source`, `refresh()` or `find_elements` call that raises is the `Crash` round; a failing `refresh()` after an error page is seen as a crash of the next round.
- Sleeps, random pauses and logging are left out. They do not affect which records are collected.
- The scroll strategies' effect on the page is left out. Only the order of strategy calls is recorded. Their exceptions are swallowed by the source, so a call always counts.
- `Collection.ScanArticle`: a read of `art.text` that raises is the article text None, and such an article is skipped, as the `continue` at twitter_data_collection.py:401 does. The model reads `art.text` once, while the code reads it at twitter_data_collection.py:389 for the signature and again at twitter_data_collection.py:313 in the content fallback. The model assumes the two reads agree, so a stale element whose second read raises is skipped by the source but admitted by the model.
- `Extraction.Extract`: a lookup inside the extractor that raises is a failed lookup (None, or "" for a metric text), as its nested handlers make it. The outer `except Exception: return None` is reached only when the fallback read of `article.text` raises.
- Python's Unicode `str.isdigit`, `str.isspace`, `str.strip` and `\w` are approximated by their ASCII sets. Non-ASCII digits, spaces and letters are not modelled.
- The defaults `MAX_TWEETS_PER_HASHTAG` and `MIN_TWEETS_PER_HASHTAG` are parameters.
- Cookies: a field value is a string, integer, boolean or None. Floats, lists and nested objects are not modelled.
- Cookies: `int(float(expiry))` is the parameter `viaFloat`, which returns None where the conversion raises. Float parsing and rounding are not modelled.
- Cookies.NormalizeIdempotent: an integer expiry too large for a float to hold exactly (above 2**53) is changed by `int(float(...))`, so normalising such a cookie twice is not idempotent in the code; the lemma assumes the conversion gives the expiry back.
- Cookies: the insertion order of the result dictionary is not modelled.
- `Collection.ScrollAndCollect`: after a crash it returns no result; what `collect_all_hashtags` then does (log the exception and move on to the next hashtag, dropping that hashtag's records) is outside this model.
- Cookie file loading, `collect_all_hashtags`, the hashtag list, the parquet data file (read at start-up and rewritten after each hashtag) and the later cleaning and analysis are not part of this model.
- `Collection.TopicPass.Collect`: the list identity of `tweets_data` (aliasing) is not modelled; the records are a sequence value.

## Findings

| source | as written | input that shows it | evidently intended | confidence | as-written member | corrected member |
|---|---|---|---|---|---|---|
| twitter_data_collection.py:69-71 | `c["value"] = cookie.get("value") or cookie.get("Value")`, then reject if it `is None`: a falsy value (empty string, 0) falls through to the usually absent `Value`, so the cookie is dropped | {"name": "sid", "value": ""} | reject only a missing value (the `is None` test); keep an empty cookie value as it is | not executed | Cookies.EmptyValueRejected | Cookies.EmptyValueKept |
