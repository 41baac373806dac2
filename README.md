# Jist updater: the update-checking sweep

This project models the decision core of the Jist updater service: the
function `updateArticles` in `main.py`. One run fetches every stored
article from the article database. It skips articles by the time since
their last check, re-parses the rest through the HTML parser, and compares
the new content hash with the stored one. An unchanged article is written
back with its stored summaries and hash. A changed article is summarized
anew and written back with the new summary in all three summary fields and
the new hash. The status code of every database PUT is counted, in one
dictionary for unchanged articles and one for changed articles.

The HTTP services are not called; their answers are inputs.

- The status of the initial `GET /articles` is a parameter of the run.
- Each fetched article comes as an `Item`, paired with its `Replies`:
  - the UTC clock reading taken in that iteration;
  - the parser's reply (status, text and hash);
  - the summarizer's reply (status and summary);
  - the status of the PUT.
- The run returns the outgoing requests in order (`ParseCall`,
  `SummarizeCall`, `PutCall` with the article id and the JSON payload) and
  the two counters as `map<int, nat>`.

Modules:

- `TimeWindow` (timewindow.dfy): a normalised `timedelta` (`days` may be
  negative, `0 <= seconds < 86400`), normalisation from whole seconds with
  floor division, and the skip test.
- `Counters` (counters.dfy): the status-code dictionaries, the
  increment-or-start-at-1 update, their tally over a sequence of codes and
  the sum of their entries.
- `Updater` (updater.dfy): the article record, the replies, the
  per-article decision `Decide`, the requests `CallsOf`, the functional
  step `Step` and sweep `Sweep`, and the imperative method
  `UpdateArticles`. That method has the loop of the source, with its early
  `return` and its `continue`s, and is proved equal to `Run`.
- `SweepProperties` (properties.dfy): the reference list of writes
  `Writes`, and the lemmas that tie the sweep's PUT requests and counters
  to it.

The skip test is modelled as written: `(seconds < 600 and days == 0) or
days > 0`. The comment above it speaks of 15 minutes, but the code uses
600 seconds, which is 10 minutes; the model follows the code. As written,
the test also skips every article last checked a day ago or more, so such
an article is not refreshed in any run while its last check is a day old
or more (`StaleArticlesUntouched`, which speaks of one run). A
last-modified time in the future gives negative `days` and is refreshed
(`FutureArticlesRefreshed`).

Every upstream reply is judged by an exact comparison with 200: any other
status, including another 2xx code such as 201 or 204, counts as a
failure and the article is dropped (or, for the article fetch, the run
ends). The model uses the same test, `status != StatusOk`. The status of
a PUT is never judged: whatever it is, it is counted.

## Model

| member | source | states |
|---|---|---|
| `TimeWindow.Normalise` | main.py:46-48 | the elapsed time as a normalised timedelta stands for exactly the given number of seconds, and its day count is negative exactly when the time is negative |
| `TimeWindow.NormaliseTotal` | main.py:48 | the normal form is unique: normalising the seconds of any normalised value gives that value back |
| `TimeWindow.SkipWindow` | main.py:50-52 | an article is skipped exactly when its whole elapsed seconds T satisfy 0 <= T < 600 or T >= 86400 |
| `TimeWindow.StaleArticlesSkipped` | main.py:51-52 | an elapsed time of one day or more is always skipped |
| `TimeWindow.FutureArticlesRefreshed` | main.py:51-52 | a negative elapsed time (last-modified in the future) is never skipped |
| `Counters.Increment` | main.py:90-93 | a counted code's entry goes up by one, a missing key starts at 1, the key set gains only that code, and every other entry is unchanged |
| `Counters.TallyCount` | main.py:90-93 | after counting a sequence of codes, each entry equals the number of occurrences of its code, and a missing key means zero occurrences |
| `Counters.TallyKeys` | main.py:90-93 | the keys present are exactly the codes observed, and no entry is zero |
| `Counters.IncrementTotal` | main.py:90-93 | every increment raises the sum of all entries by exactly one |
| `Counters.TallyTotal` | main.py:90-93 | the entries of the counters sum to the number of codes counted |
| `Updater.Decide` | main.py:44-126 | per article: skipped exactly when the skip test holds; dropped after the parse exactly when the parser's status is not 200; dropped after summarizing exactly when the hashes differ and the summarizer's status is not 200; a write carries the article's id and the PUT's status, and is a changed write exactly when the new hash differs from the stored one; an unchanged write carries the stored payload, a changed one the new summary three times with the new hash |
| `Updater.StepSkipped` | main.py:50-52 | a skipped article adds no request and changes neither counter |
| `Updater.StepParseFailed` | main.py:54-64 | when the parser does not answer 200, the parse request for the article's domain, URL and AMP URL is the only request, and neither counter changes |
| `Updater.StepUnchanged` | main.py:69-93 | when the hashes are equal, the parse request is followed by one PUT under the article's id with its stored `summary_s`, `summary_m`, `summary_l` and `article_hash`, and only the unchanged counter is incremented, at the PUT's status |
| `Updater.StepSummarizeFailed` | main.py:96-100 | when the hashes differ and the summarizer does not answer 200, the parse and summarize requests are issued with no PUT, and neither counter changes |
| `Updater.StepChanged` | main.py:96-126 | when the hashes differ and the summarizer answers 200, the summarizer gets the new text and the PUT under the article's id carries the new summary in all three fields with the new hash; only the changed counter is incremented, at the PUT's status |
| `Updater.UpdateArticles` | main.py:30-126 | if the article fetch does not answer 200 the run returns with no request and both counters empty; otherwise the requests and counters are those of the sweep over the articles in list order |
| `SweepProperties.Writes` | main.py:44-126 | a sweep has no more writes than it has articles |
| `SweepProperties.WritesOrigin` | main.py:44-126 | every write of a sweep is the outcome of processing one of the articles in the list |
| `SweepProperties.ArticlePuts` | main.py:70-112 | processing one article issues exactly one PUT when it ends in a write and none otherwise |
| `SweepProperties.SweepPuts` | main.py:44-112 | the PUT requests among a run's requests are exactly the writes of the articles that reach one, in article order |
| `SweepProperties.SweepCounters` | main.py:41-126 | the two counters are the tallies of the PUT status codes of the unchanged writes and of the changed writes |
| `SweepProperties.CountersExact` | main.py:90-93 | each counter entry equals the number of writes of its kind whose PUT answered with that code |
| `SweepProperties.CountersTotal` | main.py:123-126 | the unchanged counter sums to the number of hash-equal writes, the changed counter to the number of hash-different writes, and the two sums together equal the number of PUTs of the run |
| `SweepProperties.SweepCallsAppend` | main.py:44 | the requests of a sweep over two lists are the first list's requests followed by the second's: articles are handled one after another, in order |
| `SweepProperties.UnwrittenArticleUncounted` | main.py:62-64 | an article that ends without a write (skip, failed parse, failed summary) leaves both counters as if it were absent, and the requests of the later articles follow its own unchanged |
| `SweepProperties.SkippedArticleInvisible` | main.py:51-52 | a run with a skipped article is identical to the run without it |
| `SweepProperties.StaleArticlesUntouched` | main.py:44-52 | a run over articles all last checked a day ago or more issues no request and counts nothing |

## Left out

- The Flask route `serviceReady` and its background `Thread` (main.py:18-28): running the sweep concurrently and the 202/500 replies belong to the web framework.
- The HTTP calls themselves (main.py:34, 61, 79, 97, 112): replies are inputs. The initial `GET /articles` is always issued and is not part of the returned requests. The parse request's URL and the PUT's `id` query parameter appear only as the request's fields.
- `strptime` and `utcnow()` (main.py:10, 46-47): the last-modified time and the clock come in as whole seconds. Microseconds of the clock are dropped, because only `.days` and `.seconds` are read and flooring the clock gives the same two values.
- Errors that the source does not handle: a timestamp in the wrong format, a reply body that is not JSON or lacks a key, and a connection error. Each of these raises and ends the run.
- The colored console log and the per-status log messages (main.py:36, 63, 82-88, 115-121, 128-129): output only.
- The wall-clock timing with `time.time()` (main.py:31, 131-133) and `app.run` (main.py:135-136): floating point, the clock and process startup.
