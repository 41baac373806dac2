/**
 * The per-run status-code counters of the update worker: dictionaries from
 * an HTTP status code to the number of database writes that answered with it.
 */
module Counters {

  /** How often `code` has been counted; a missing key means zero. */
  function Count(m: map<int, nat>, code: int): nat
  {
    if code in m then m[code] else 0
  }

  /**
   * One observed status code: the entry is incremented, or created with
   * value 1 when the key is missing (the `try: += 1 / except: = 1` idiom).
   */
  function Increment(m: map<int, nat>, code: int): (r: map<int, nat>)
    ensures r.Keys == m.Keys + {code}
    ensures r[code] == Count(m, code) + 1
    ensures code !in m ==> r[code] == 1
    ensures forall k :: k in m && k != code ==> r[k] == m[k]
  {
    if code in m then m[code := m[code] + 1] else m[code := 1]
  }

  /** The counters after observing `codes` in order, starting from an empty dictionary. */
  function Tally(codes: seq<int>): map<int, nat>
  {
    if codes == [] then map[] else Increment(Tally(codes[..|codes| - 1]), codes[|codes| - 1])
  }

  lemma TallySnoc(codes: seq<int>, code: int)
    ensures Tally(codes + [code]) == Increment(Tally(codes), code)
  {
    assert (codes + [code])[..|codes|] == codes;
  }

  /** Every counter holds exactly the number of times its code was observed. */
  lemma {:induction false} TallyCount(codes: seq<int>, code: int)
    ensures Count(Tally(codes), code) == multiset(codes)[code]
  {
    if codes != [] {
      var init, last := codes[..|codes| - 1], codes[|codes| - 1];
      assert codes == init + [last];
      TallyCount(init, code);
    }
  }

  /** The keys present are exactly the codes observed, and none holds zero. */
  lemma {:induction false} TallyKeys(codes: seq<int>)
    ensures Tally(codes).Keys == set c | c in codes
    ensures forall k :: k in Tally(codes) ==> Tally(codes)[k] >= 1
  {
    if codes != [] {
      var init := codes[..|codes| - 1];
      assert codes == init + [codes[|codes| - 1]];
      TallyKeys(init);
    }
  }

  /** The sum of all counters. */
  ghost function Total(m: map<int, nat>): nat
    decreases |m|
  {
    if |m| == 0 then 0 else var k := AnyKey(m); m[k] + Total(m - {k})
  }

  ghost function AnyKey(m: map<int, nat>): (k: int)
    requires |m| > 0
    ensures k in m
  {
    HasKey(m);
    var k :| k in m; k
  }

  lemma HasKey(m: map<int, nat>)
    requires |m| > 0
    ensures exists k :: k in m
  {
    if forall k :: k !in m {
      assert false;
    }
  }

  lemma RemoveSize(m: map<int, nat>, k: int)
    requires k in m
    ensures |m - {k}| == |m| - 1
  {
    assert (m - {k}).Keys == m.Keys - {k};
  }

  /** The sum may be taken by removing any one key first. */
  lemma {:induction false} TotalWithout(m: map<int, nat>, k: int)
    requires k in m
    ensures Total(m) == m[k] + Total(m - {k})
    decreases |m|
  {
    var j := AnyKey(m);
    assert Total(m) == m[j] + Total(m - {j});
    if j != k {
      RemoveSize(m, j);
      RemoveSize(m, k);
      TotalWithout(m - {j}, k);
      TotalWithout(m - {k}, j);
      assert m - {j} - {k} == m - {k} - {j};
    }
  }

  /** Each increment adds exactly one to the sum. */
  lemma IncrementTotal(m: map<int, nat>, code: int)
    ensures Total(Increment(m, code)) == Total(m) + 1
  {
    var r := Increment(m, code);
    TotalWithout(r, code);
    if code in m {
      TotalWithout(m, code);
      assert r - {code} == m - {code};
    } else {
      assert r - {code} == m;
    }
  }

  /** The counters sum to the number of observations. */
  lemma {:induction false} TallyTotal(codes: seq<int>)
    ensures Total(Tally(codes)) == |codes|
  {
    if codes != [] {
      var init := codes[..|codes| - 1];
      TallyTotal(init);
      IncrementTotal(Tally(init), codes[|codes| - 1]);
    }
  }
}
