/**
 * The update-checking sweep of the Jist updater service: one pass over all
 * stored articles that re-parses each eligible article, compares its
 * content hash with the stored one and writes either the old summaries or
 * a fresh summary back to the article database.
 *
 * The HTTP services are not called: their replies are inputs. The article
 * database's GET status is a parameter of the run, and each article comes
 * paired with what the outside world answers while it is processed (the
 * clock reading, the parser's reply, the summarizer's reply and the status
 * of the database PUT). The run produces the outgoing requests in order and
 * the two status-code counters.
 */
module Updater {
  import opened TimeWindow
  import opened Counters

  const StatusOk: int := 200

  /** An article record as the article database returns it. */
  datatype Article = Article(
    id: int,
    domain: string,
    articleUrl: string,
    ampUrl: string,
    lastModified: int,  // the parsed `last_modified` timestamp, in whole seconds (UTC)
    articleHash: string,
    summaryS: string,
    summaryM: string,
    summaryL: string)

  /** An HTTP reply: a status code and the decoded JSON body, read only on 200. */
  datatype Reply<T> = Reply(status: int, body: T)

  /** The HTML parser's answer body: the extracted text and its hash. */
  datatype Parsed = Parsed(text: string, hash: string)

  /** What the outside world answers while one article is processed. */
  datatype Replies = Replies(
    now: int,  // the UTC clock, in whole seconds
    parse: Reply<Parsed>,
    summarize: Reply<string>,
    putStatus: int)

  /** One element of the fetched article list together with its replies. */
  datatype Item = Item(article: Article, replies: Replies)

  /** The JSON body of a parse request. */
  datatype ParseRequest = ParseRequest(domain: string, articleUrl: string, ampUrl: string)

  /** The JSON body of a database update. */
  datatype Payload = Payload(summaryS: string, summaryM: string, summaryL: string, articleHash: string)

  /** An outgoing request after the initial article fetch. */
  datatype Call =
    | ParseCall(request: ParseRequest)
    | SummarizeCall(text: string)
    | PutCall(id: int, payload: Payload)

  /** A database update that was issued: whether the content changed, and its status code. */
  datatype Write = Write(id: int, payload: Payload, changed: bool, status: int)

  /** How the processing of one article ends. */
  datatype Outcome = Skipped | ParseFailed | SummarizeFailed | Written(write: Write)

  function ElapsedOf(it: Item): Elapsed
  {
    Normalise(it.replies.now - it.article.lastModified)
  }

  function RequestOf(a: Article): ParseRequest
  {
    ParseRequest(a.domain, a.articleUrl, a.ampUrl)
  }

  /** The update for an unchanged article: everything it already stores. */
  function StoredPayload(a: Article): Payload
  {
    Payload(a.summaryS, a.summaryM, a.summaryL, a.articleHash)
  }

  /** The update for a changed article: the one new summary in all three slots. */
  function FreshPayload(summary: string, hash: string): Payload
  {
    Payload(summary, summary, summary, hash)
  }

  /** The decision the sweep takes for one article. */
  function Decide(it: Item): (o: Outcome)
    ensures o.Skipped? <==> Skip(ElapsedOf(it))
    ensures o.ParseFailed? <==> !Skip(ElapsedOf(it)) && it.replies.parse.status != StatusOk
    ensures o.SummarizeFailed? <==>
      && !Skip(ElapsedOf(it))
      && it.replies.parse.status == StatusOk
      && it.replies.parse.body.hash != it.article.articleHash
      && it.replies.summarize.status != StatusOk
    ensures o.Written? ==>
      && o.write.id == it.article.id
      && o.write.status == it.replies.putStatus
      && (o.write.changed <==> it.replies.parse.body.hash != it.article.articleHash)
    ensures o.Written? && !o.write.changed ==> o.write.payload == StoredPayload(it.article)
    ensures o.Written? && o.write.changed ==>
      o.write.payload == FreshPayload(it.replies.summarize.body, it.replies.parse.body.hash)
  {
    var a, r := it.article, it.replies;
    if Skip(ElapsedOf(it)) then Skipped
    else if r.parse.status != StatusOk then ParseFailed
    else if r.parse.body.hash == a.articleHash then
      Written(Write(a.id, StoredPayload(a), false, r.putStatus))
    else if r.summarize.status != StatusOk then SummarizeFailed
    else
      Written(Write(a.id, FreshPayload(r.summarize.body, r.parse.body.hash), true, r.putStatus))
  }

  /** The requests issued while one article is processed, in order. */
  function CallsOf(it: Item): seq<Call>
  {
    var parse := [ParseCall(RequestOf(it.article))];
    var summarize := [SummarizeCall(it.replies.parse.body.text)];
    match Decide(it)
    case Skipped => []
    case ParseFailed => parse
    case SummarizeFailed => parse + summarize
    case Written(w) => parse + (if w.changed then summarize else []) + [PutOf(w)]
  }

  function PutOf(w: Write): Call
  {
    PutCall(w.id, w.payload)
  }

  /** The observable state of a run: the requests so far and the two status-code counters. */
  datatype RunResult = RunResult(calls: seq<Call>, unchangedCount: map<int, nat>, changedCount: map<int, nat>)

  const Start: RunResult := RunResult([], map[], map[])

  /** A counter after one article's outcome: only a write of its own kind is counted. */
  function Counted(m: map<int, nat>, o: Outcome, changed: bool): map<int, nat>
  {
    if o.Written? && o.write.changed == changed then Increment(m, o.write.status) else m
  }

  /** One iteration of the sweep. */
  function Step(acc: RunResult, it: Item): RunResult
  {
    var o := Decide(it);
    RunResult(acc.calls + CallsOf(it), Counted(acc.unchangedCount, o, false), Counted(acc.changedCount, o, true))
  }

  /** The sweep over `items`, article after article, from the empty state. */
  function Sweep(items: seq<Item>): RunResult
  {
    if items == [] then Start else Step(Sweep(items[..|items| - 1]), items[|items| - 1])
  }

  /** What a run does, given the status of the initial article fetch. */
  function Run(getStatus: int, items: seq<Item>): RunResult
  {
    if getStatus != StatusOk then Start else Sweep(items)
  }

  lemma SweepPrefix(items: seq<Item>, i: int)
    requires 0 <= i < |items|
    ensures Sweep(items[..i + 1]) == Step(Sweep(items[..i]), items[i])
  {
    assert items[..i + 1][..i] == items[..i];
  }

  /** A skipped article causes no request and leaves both counters alone. */
  lemma StepSkipped(acc: RunResult, it: Item)
    requires Skip(ElapsedOf(it))
    ensures Step(acc, it) == acc
  {
    assert acc.calls + [] == acc.calls;
  }

  /** A failed parse leaves only the parse request behind: no summary, no write, no count. */
  lemma StepParseFailed(acc: RunResult, it: Item)
    requires !Skip(ElapsedOf(it)) && it.replies.parse.status != StatusOk
    ensures Step(acc, it) ==
      RunResult(acc.calls + [ParseCall(RequestOf(it.article))], acc.unchangedCount, acc.changedCount)
  {
  }

  /**
   * An unchanged article is written back with everything it stores, under
   * its id, and the PUT's status is counted among the unchanged ones.
   */
  lemma StepUnchanged(acc: RunResult, it: Item)
    requires !Skip(ElapsedOf(it)) && it.replies.parse.status == StatusOk
    requires it.replies.parse.body.hash == it.article.articleHash
    ensures Step(acc, it) ==
      RunResult(
        acc.calls + [ParseCall(RequestOf(it.article)), PutCall(it.article.id, StoredPayload(it.article))],
        Increment(acc.unchangedCount, it.replies.putStatus),
        acc.changedCount)
  {
  }

  /** A changed article whose summary cannot be had is not written and not counted. */
  lemma StepSummarizeFailed(acc: RunResult, it: Item)
    requires !Skip(ElapsedOf(it)) && it.replies.parse.status == StatusOk
    requires it.replies.parse.body.hash != it.article.articleHash
    requires it.replies.summarize.status != StatusOk
    ensures Step(acc, it) ==
      RunResult(
        acc.calls + [ParseCall(RequestOf(it.article)), SummarizeCall(it.replies.parse.body.text)],
        acc.unchangedCount, acc.changedCount)
  {
  }

  /**
   * A changed article is summarized from its new text and written back
   * with the new summary in all three slots and the new hash, and the PUT's
   * status is counted among the changed ones.
   */
  lemma StepChanged(acc: RunResult, it: Item)
    requires !Skip(ElapsedOf(it)) && it.replies.parse.status == StatusOk
    requires it.replies.parse.body.hash != it.article.articleHash
    requires it.replies.summarize.status == StatusOk
    ensures Step(acc, it) ==
      RunResult(
        acc.calls + [
          ParseCall(RequestOf(it.article)),
          SummarizeCall(it.replies.parse.body.text),
          PutCall(it.article.id, FreshPayload(it.replies.summarize.body, it.replies.parse.body.hash))],
        acc.unchangedCount,
        Increment(acc.changedCount, it.replies.putStatus))
  {
  }

  /**
   * The sweep. `getStatus` is the status of the article fetch and `items`
   * the fetched list, each article paired with the replies it receives.
   * Returns the requests issued in order and the counters of PUT status
   * codes for unchanged and for changed articles.
   */
  method UpdateArticles(getStatus: int, items: seq<Item>)
    returns (calls: seq<Call>, unchangedCount: map<int, nat>, changedCount: map<int, nat>)
    ensures getStatus != StatusOk ==> calls == [] && unchangedCount == map[] && changedCount == map[]
    ensures RunResult(calls, unchangedCount, changedCount) == Run(getStatus, items)
  {
    calls, unchangedCount, changedCount := [], map[], map[];
    if getStatus != StatusOk {
      return;
    }
    for i := 0 to |items|
      invariant RunResult(calls, unchangedCount, changedCount) == Sweep(items[..i])
    {
      SweepPrefix(items, i);
      ghost var acc := RunResult(calls, unchangedCount, changedCount);
      var article, replies := items[i].article, items[i].replies;
      var elapsed := Normalise(replies.now - article.lastModified);
      if Skip(elapsed) {
        StepSkipped(acc, items[i]);
        continue;
      }
      var request := ParseRequest(article.domain, article.articleUrl, article.ampUrl);
      calls := calls + [ParseCall(request)];
      if replies.parse.status != StatusOk {
        StepParseFailed(acc, items[i]);
        continue;
      }
      var newText, newHash := replies.parse.body.text, replies.parse.body.hash;
      if newHash == article.articleHash {
        var data := Payload(article.summaryS, article.summaryM, article.summaryL, article.articleHash);
        calls := calls + [PutCall(article.id, data)];
        unchangedCount := Increment(unchangedCount, replies.putStatus);
        StepUnchanged(acc, items[i]);
      } else {
        calls := calls + [SummarizeCall(newText)];
        if replies.summarize.status != StatusOk {
          StepSummarizeFailed(acc, items[i]);
          continue;
        }
        var summary := replies.summarize.body;
        var data := Payload(summary, summary, summary, newHash);
        calls := calls + [PutCall(article.id, data)];
        changedCount := Increment(changedCount, replies.putStatus);
        StepChanged(acc, items[i]);
      }
    }
    assert items[..|items|] == items;
  }
}
