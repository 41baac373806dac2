/**
 * Whole-run properties of the update sweep: which articles issue database
 * writes, in which order, and how the two status-code counters relate to
 * those writes. `Writes` is an independent reference definition (the
 * articles whose processing ends in a PUT, in list order); the lemmas tie
 * the sweep's requests and counters to it.
 */
module SweepProperties {
  import opened TimeWindow
  import opened Counters
  import opened Updater

  /** The database updates a sweep over `items` issues, in article order. */
  function Writes(items: seq<Item>): (ws: seq<Write>)
    ensures |ws| <= |items|
  {
    if items == [] then []
    else
      var last := Decide(items[|items| - 1]);
      Writes(items[..|items| - 1]) + (if last.Written? then [last.write] else [])
  }

  /** Every write of a sweep is the outcome of processing one of its articles. */
  lemma {:induction false} WritesOrigin(items: seq<Item>, w: Write)
    requires w in Writes(items)
    ensures exists i :: 0 <= i < |items| && Decide(items[i]) == Written(w)
  {
    var init := items[..|items| - 1];
    if w in Writes(init) {
      WritesOrigin(init, w);
      var i :| 0 <= i < |init| && Decide(init[i]) == Written(w);
      assert init[i] == items[i];
    } else {
      assert Decide(items[|items| - 1]) == Written(w);
    }
  }

  /** The status codes of the writes of one kind (changed or unchanged), in order. */
  function Statuses(ws: seq<Write>, changed: bool): seq<int>
  {
    if ws == [] then []
    else
      var w := ws[|ws| - 1];
      Statuses(ws[..|ws| - 1], changed) + (if w.changed == changed then [w.status] else [])
  }

  /** The PUT requests that a sequence of writes stands for. */
  function PutsOf(ws: seq<Write>): (ps: seq<Call>)
    ensures |ps| == |ws|
  {
    if ws == [] then [] else PutsOf(ws[..|ws| - 1]) + [PutOf(ws[|ws| - 1])]
  }

  /** The database updates among a sequence of requests, in order. */
  function Puts(cs: seq<Call>): seq<Call>
  {
    if cs == [] then []
    else Puts(cs[..|cs| - 1]) + (if cs[|cs| - 1].PutCall? then [cs[|cs| - 1]] else [])
  }

  lemma {:induction false} PutsAppend(xs: seq<Call>, ys: seq<Call>)
    ensures Puts(xs + ys) == Puts(xs) + Puts(ys)
    decreases |ys|
  {
    if ys == [] {
      assert xs + ys == xs;
    } else {
      var init, last := ys[..|ys| - 1], ys[|ys| - 1];
      assert xs + ys == (xs + init) + [last];
      assert (xs + ys)[..|xs + ys| - 1] == xs + init;
      PutsAppend(xs, init);
    }
  }

  /** Each article issues at most one PUT: exactly one when its processing ends in a write. */
  lemma ArticlePuts(it: Item)
    ensures Puts(CallsOf(it)) == if Decide(it).Written? then [PutOf(Decide(it).write)] else []
  {
    var parse := [ParseCall(RequestOf(it.article))];
    var summarize := [SummarizeCall(it.replies.parse.body.text)];
    assert Puts(parse) == [] by { assert parse[..0] == []; }
    assert Puts(summarize) == [] by { assert summarize[..0] == []; }
    match Decide(it)
    case Skipped =>
    case ParseFailed =>
    case SummarizeFailed =>
      PutsAppend(parse, summarize);
    case Written(w) =>
      var mid := if w.changed then summarize else [];
      PutsAppend(parse, mid);
      PutsAppend(parse + mid, [PutOf(w)]);
      assert Puts([PutOf(w)]) == [PutOf(w)] by { assert [PutOf(w)][..0] == []; }
  }

  /** The PUTs among a run's requests are exactly the writes, in article order. */
  lemma {:induction false} SweepPuts(items: seq<Item>)
    ensures Puts(Sweep(items).calls) == PutsOf(Writes(items))
  {
    if items != [] {
      var init, last := items[..|items| - 1], items[|items| - 1];
      SweepPuts(init);
      PutsAppend(Sweep(init).calls, CallsOf(last));
      ArticlePuts(last);
      var ws := Writes(init);
      if Decide(last).Written? {
        var ws' := ws + [Decide(last).write];
        assert ws'[..|ws|] == ws;
      } else {
        assert ws + [] == ws;
      }
    }
  }

  lemma StatusesSnoc(ws: seq<Write>, w: Write, changed: bool)
    ensures Statuses(ws + [w], changed) ==
      Statuses(ws, changed) + (if w.changed == changed then [w.status] else [])
  {
    assert (ws + [w])[..|ws|] == ws;
  }

  /** The counters of a run are the tallies of the status codes of its writes of each kind. */
  lemma {:induction false} SweepCounters(items: seq<Item>)
    ensures Sweep(items).unchangedCount == Tally(Statuses(Writes(items), false))
    ensures Sweep(items).changedCount == Tally(Statuses(Writes(items), true))
  {
    if items != [] {
      var init, last := items[..|items| - 1], items[|items| - 1];
      SweepCounters(init);
      var ws, o := Writes(init), Decide(last);
      if o.Written? {
        StatusesSnoc(ws, o.write, false);
        StatusesSnoc(ws, o.write, true);
        var c := o.write.changed;
        TallySnoc(Statuses(ws, c), o.write.status);
        assert Statuses(ws, !c) + [] == Statuses(ws, !c);
      } else {
        assert ws + [] == ws;
      }
    }
  }

  /** Every counter entry holds the number of writes of its kind that answered with that code. */
  lemma CountersExact(items: seq<Item>, code: int)
    ensures Count(Sweep(items).unchangedCount, code) == multiset(Statuses(Writes(items), false))[code]
    ensures Count(Sweep(items).changedCount, code) == multiset(Statuses(Writes(items), true))[code]
  {
    SweepCounters(items);
    TallyCount(Statuses(Writes(items), false), code);
    TallyCount(Statuses(Writes(items), true), code);
  }

  /** Every write is of exactly one kind. */
  lemma {:induction false} StatusesSplit(ws: seq<Write>)
    ensures |Statuses(ws, false)| + |Statuses(ws, true)| == |ws|
  {
    if ws != [] {
      StatusesSplit(ws[..|ws| - 1]);
    }
  }

  /**
   * The unchanged counter sums to the number of unchanged writes, the
   * changed counter to the number of changed writes, and together they
   * count every PUT of the run.
   */
  lemma CountersTotal(items: seq<Item>)
    ensures Total(Sweep(items).unchangedCount) == |Statuses(Writes(items), false)|
    ensures Total(Sweep(items).changedCount) == |Statuses(Writes(items), true)|
    ensures Total(Sweep(items).unchangedCount) + Total(Sweep(items).changedCount) == |Puts(Sweep(items).calls)|
  {
    SweepCounters(items);
    TallyTotal(Statuses(Writes(items), false));
    TallyTotal(Statuses(Writes(items), true));
    StatusesSplit(Writes(items));
    SweepPuts(items);
  }

  /** The requests of a sweep over two lists are those of the first followed by those of the second. */
  lemma {:induction false} SweepCallsAppend(xs: seq<Item>, ys: seq<Item>)
    ensures Sweep(xs + ys).calls == Sweep(xs).calls + Sweep(ys).calls
    decreases |ys|
  {
    if ys == [] {
      assert xs + ys == xs;
    } else {
      var init, last := ys[..|ys| - 1], ys[|ys| - 1];
      assert (xs + ys)[..|xs + ys| - 1] == xs + init;
      SweepCallsAppend(xs, init);
    }
  }

  lemma {:induction false} WritesAppend(xs: seq<Item>, ys: seq<Item>)
    ensures Writes(xs + ys) == Writes(xs) + Writes(ys)
    decreases |ys|
  {
    if ys == [] {
      assert xs + ys == xs;
    } else {
      var init, last := ys[..|ys| - 1], ys[|ys| - 1];
      assert (xs + ys)[..|xs + ys| - 1] == xs + init;
      WritesAppend(xs, init);
    }
  }

  lemma SweepSingle(it: Item)
    ensures Sweep([it]).calls == CallsOf(it)
    ensures Writes([it]) == if Decide(it).Written? then [Decide(it).write] else []
  {
    assert [it][..0] == [];
  }

  /**
   * An article whose processing ends without a write (a skip, a failed parse
   * or a failed summary) leaves the counters exactly as if it were absent,
   * and the sweep goes on with the next article as if nothing had happened:
   * the requests around it are those of the runs before and after it.
   */
  lemma UnwrittenArticleUncounted(pre: seq<Item>, it: Item, post: seq<Item>)
    requires !Decide(it).Written?
    ensures Sweep(pre + [it] + post).calls == Sweep(pre).calls + CallsOf(it) + Sweep(post).calls
    ensures Sweep(pre + [it] + post).unchangedCount == Sweep(pre + post).unchangedCount
    ensures Sweep(pre + [it] + post).changedCount == Sweep(pre + post).changedCount
  {
    SweepCallsAppend(pre + [it], post);
    SweepCallsAppend(pre, [it]);
    SweepSingle(it);
    WritesAppend(pre + [it], post);
    WritesAppend(pre, [it]);
    WritesAppend(pre, post);
    assert Writes(pre) + [] == Writes(pre);
    SweepCounters(pre + [it] + post);
    SweepCounters(pre + post);
  }

  /** A skipped article is invisible: the run is the run without it. */
  lemma SkippedArticleInvisible(pre: seq<Item>, it: Item, post: seq<Item>)
    requires Skip(ElapsedOf(it))
    ensures Sweep(pre + [it] + post) == Sweep(pre + post)
  {
    UnwrittenArticleUncounted(pre, it, post);
    SweepCallsAppend(pre, post);
    assert Sweep(pre).calls + [] == Sweep(pre).calls;
  }

  /**
   * Articles last checked a day ago or more are never refreshed: a whole
   * run over such articles issues no request and counts nothing.
   */
  lemma {:induction false} StaleArticlesUntouched(items: seq<Item>)
    requires forall j :: 0 <= j < |items| ==> items[j].replies.now - items[j].article.lastModified >= SecondsPerDay
    ensures Sweep(items) == Start
  {
    if items != [] {
      var init, last := items[..|items| - 1], items[|items| - 1];
      StaleArticlesUntouched(init);
      StaleArticlesSkipped(last.replies.now - last.article.lastModified);
      StepSkipped(Start, last);
    }
  }
}
