/**
 * String-keyed counters: the Python dictionaries `get_stats` fills. A Python dictionary keeps
 * its keys in insertion order, so a dictionary is a sequence of entries; `Get` is
 * `d.get(k, default)` and `Put` is `d[k] = v`, which overwrites an existing key in place and
 * appends a new one. The dashboard reads the same sequence back (`Record<string, number>`),
 * which keeps Python's order for keys that are not array indices.
 */
module Dicts {
  import opened Seqs

  datatype Entry = Entry(key: string, count: int)

  type Dict = seq<Entry>

  /** The keys in iteration order (`Object.entries`, `dict.keys()`). */
  function Keys(d: Dict): (ks: seq<string>)
    ensures |ks| == |d|
    ensures forall i :: 0 <= i < |d| ==> ks[i] == d[i].key
  {
    seq(|d|, i requires 0 <= i < |d| => d[i].key)
  }

  lemma {:induction false} KeysTail(d: Dict)
    requires d != []
    ensures Keys(d) == [d[0].key] + Keys(d[1..])
  {
  }

  /** `d.get(k, default)`: the count stored under `k`, or `default` when `k` is absent. */
  function Get(d: Dict, k: string, default: int): int
  {
    if d == [] then default
    else if d[0].key == k then d[0].count
    else Get(d[1..], k, default)
  }

  /** An absent key reads as the default; a present key reads as the count of its entry. */
  lemma {:induction false} GetSpec(d: Dict, k: string, default: int)
    ensures k !in Keys(d) ==> Get(d, k, default) == default
    ensures k in Keys(d) ==> Get(d, k, default) == d[IndexOf(Keys(d), k)].count
  {
    if d != [] {
      KeysTail(d);
      if d[0].key != k {
        GetSpec(d[1..], k, default);
      }
    }
  }

  /** `d[k] = v`. */
  function Put(d: Dict, k: string, v: int): Dict
  {
    if d == [] then [Entry(k, v)]
    else if d[0].key == k then [Entry(k, v)] + d[1..]
    else [d[0]] + Put(d[1..], k, v)
  }

  /** After `d[k] = v`, reading `k` gives `v` and reading any other key gives what it gave before. */
  lemma {:induction false} GetPut(d: Dict, k: string, v: int, k': string, default: int)
    ensures Get(Put(d, k, v), k', default) == if k' == k then v else Get(d, k', default)
  {
    if d != [] && d[0].key != k {
      GetPut(d[1..], k, v, k', default);
    }
  }

  /** `d[k] = v` keeps the key order and appends `k` only when it is new. */
  lemma {:induction false} KeysPut(d: Dict, k: string, v: int)
    ensures Keys(Put(d, k, v)) == if k in Keys(d) then Keys(d) else Keys(d) + [k]
  {
    if d != [] {
      KeysTail(d);
      KeysTail(Put(d, k, v));
      if d[0].key != k {
        KeysPut(d[1..], k, v);
      }
    }
  }

  /** The sum of all counts. */
  function Sum(d: Dict): int
  {
    if d == [] then 0 else d[0].count + Sum(d[1..])
  }

  /** Overwriting the count of `k` changes the sum by the difference. */
  lemma {:induction false} SumPut(d: Dict, k: string, v: int)
    ensures Sum(Put(d, k, v)) == Sum(d) - Get(d, k, 0) + v
  {
    if d != [] && d[0].key != k {
      SumPut(d[1..], k, v);
    }
  }

  predicate AllPositive(d: Dict) {
    forall i :: 0 <= i < |d| ==> d[i].count >= 1
  }

  lemma {:induction false} PutPositive(d: Dict, k: string, v: int)
    requires AllPositive(d) && v >= 1
    ensures AllPositive(Put(d, k, v))
  {
    if d != [] && d[0].key != k {
      PutPositive(d[1..], k, v);
    }
  }

  /** Adds one to the count of `k`: `d[k] = d.get(k, 0) + 1`. */
  function Increment(d: Dict, k: string): Dict
  {
    Put(d, k, Get(d, k, 0) + 1)
  }

  /** An increment adds one to the incremented key's count and leaves the others alone. */
  lemma {:induction false} GetIncrement(d: Dict, k: string, k': string)
    ensures Get(Increment(d, k), k', 0) == Get(d, k', 0) + (if k' == k then 1 else 0)
  {
    GetPut(d, k, Get(d, k, 0) + 1, k', 0);
  }

  lemma {:induction false} IncrementKeys(t: Dict, x: string, p: seq<string>)
    requires Keys(t) == Distinct(p)
    ensures Keys(Increment(t, x)) == Distinct(p + [x])
  {
    var v := Get(t, x, 0) + 1;
    assert Increment(t, x) == Put(t, x, v);
    KeysPut(t, x, v);
    DistinctSnoc(p, x);
    if x in Keys(t) {
      assert Keys(Put(t, x, v)) == Distinct(p);
    } else {
      assert Keys(Put(t, x, v)) == Distinct(p) + [x];
    }
  }

  lemma {:induction false} IncrementPositive(t: Dict, x: string)
    requires AllPositive(t)
    ensures AllPositive(Increment(t, x))
  {
    GetSpec(t, x, 0);
    if x in Keys(t) {
      var i := IndexOf(Keys(t), x);
      assert t[i].count >= 1;
    }
    PutPositive(t, x, Get(t, x, 0) + 1);
  }

  lemma {:induction false} IncrementSum(t: Dict, x: string)
    ensures Sum(Increment(t, x)) == Sum(t) + 1
  {
    SumPut(t, x, Get(t, x, 0) + 1);
  }

  /** The counter a loop of `Increment`s builds from `s`, one value at a time. */
  function Tally(s: seq<string>): Dict
  {
    if s == [] then [] else Increment(Tally(s[..|s| - 1]), s[|s| - 1])
  }

  /**
   * The keys of the tally are the distinct values of `s` in first-occurrence order, every
   * count is at least one and the counts add up to the number of values.
   */
  lemma {:induction false} TallyShape(s: seq<string>)
    ensures Keys(Tally(s)) == Distinct(s)
    ensures AllPositive(Tally(s))
    ensures Sum(Tally(s)) == |s|
  {
    if s != [] {
      var p := s[..|s| - 1];
      var x := s[|s| - 1];
      assert p + [x] == s;
      TallyShape(p);
      IncrementKeys(Tally(p), x, p);
      IncrementPositive(Tally(p), x);
      IncrementSum(Tally(p), x);
    }
  }

  /** Tallying one more value is one more increment. */
  lemma TallySnoc(s: seq<string>, x: string)
    ensures Tally(s + [x]) == Increment(Tally(s), x)
  {
    assert (s + [x])[..|s + [x]| - 1] == s;
  }

  /** The count `Tally` keeps for a value is the number of times it occurs. */
  lemma {:induction false} TallyCount(s: seq<string>, k: string)
    ensures Get(Tally(s), k, 0) == multiset(s)[k]
  {
    if s != [] {
      var p := s[..|s| - 1];
      var x := s[|s| - 1];
      assert Tally(s) == Increment(Tally(p), x);
      GetIncrement(Tally(p), x, k);
      TallyCount(p, k);
      assert s == p + [x];
      assert multiset(s) == multiset(p) + multiset{x};
    }
  }

  /** `TallyCount` for every key at once. */
  lemma TallyCounts(s: seq<string>)
    ensures forall k :: Get(Tally(s), k, 0) == multiset(s)[k]
  {
    forall k ensures Get(Tally(s), k, 0) == multiset(s)[k] {
      TallyCount(s, k);
    }
  }
}
