/**
 * A Python dict with string keys, kept as its items in insertion order:
 * assigning to an existing key keeps its position, a new key goes to the end.
 */
module Dicts {

  type Dict<V> = seq<(string, V)>

  function Keys<V>(d: Dict<V>): (ks: seq<string>)
    ensures |ks| == |d|
    ensures forall k :: 0 <= k < |d| ==> ks[k] == d[k].0
  {
    seq(|d|, k requires 0 <= k < |d| => d[k].0)
  }

  lemma KeysCons<V>(d: Dict<V>)
    requires |d| > 0
    ensures Keys(d) == [d[0].0] + Keys(d[1..])
  {
    var a, b := Keys(d), [d[0].0] + Keys(d[1..]);
    forall i | 0 <= i < |d| ensures a[i] == b[i] {
      if i > 0 { assert d[1..][i - 1] == d[i]; }
    }
  }

  predicate Distinct(xs: seq<string>) {
    forall i, j :: 0 <= i < j < |xs| ==> xs[i] != xs[j]
  }

  /** Position of the first occurrence of `x` in `xs`, or `|xs|` when there is none. */
  function FirstIndex(xs: seq<string>, x: string): (i: nat)
    ensures i <= |xs| && x !in xs[..i]
    ensures i < |xs| <==> x in xs
    ensures i < |xs| ==> xs[i] == x
    decreases |xs|
  {
    if |xs| == 0 then 0
    else if xs[0] == x then 0
    else
      var j := 1 + FirstIndex(xs[1..], x);
      assert xs[..j] == [xs[0]] + xs[1..][..j - 1];
      j
  }

  /** The distinct elements of `xs` in order of first appearance. */
  function Dedupe(xs: seq<string>): seq<string>
    decreases |xs|
  {
    if |xs| == 0 then []
    else
      var pre, x := xs[..|xs| - 1], xs[|xs| - 1];
      if x in pre then Dedupe(pre) else Dedupe(pre) + [x]
  }

  lemma {:induction false} FirstIndexPrefix(pre: seq<string>, a: string, x: string)
    requires x in pre
    ensures FirstIndex(pre + [a], x) == FirstIndex(pre, x)
    decreases |pre|
  {
    if pre[0] != x {
      assert (pre + [a])[1..] == pre[1..] + [a];
      FirstIndexPrefix(pre[1..], a, x);
    }
  }

  /** `Dedupe` keeps one copy of every element, without repetition. */
  lemma {:induction false} DedupeMembers(xs: seq<string>)
    ensures Distinct(Dedupe(xs))
    ensures forall x :: x in Dedupe(xs) <==> x in xs
    decreases |xs|
  {
    if |xs| > 0 {
      var pre := xs[..|xs| - 1];
      assert xs == pre + [xs[|xs| - 1]];
      DedupeMembers(pre);
    }
  }

  /**
   * `Dedupe` keeps one copy of every element and nothing else, without
   * repetition, in order of first appearance.
   */
  lemma {:induction false} DedupeSpec(xs: seq<string>)
    ensures Distinct(Dedupe(xs))
    ensures forall x :: x in Dedupe(xs) <==> x in xs
    ensures forall i, j :: 0 <= i < j < |Dedupe(xs)| ==>
      FirstIndex(xs, Dedupe(xs)[i]) < FirstIndex(xs, Dedupe(xs)[j])
    decreases |xs|
  {
    if |xs| > 0 {
      var pre, a := xs[..|xs| - 1], xs[|xs| - 1];
      assert xs == pre + [a];
      DedupeSpec(pre);
      var d0 := Dedupe(pre);
      var d := Dedupe(xs);
      forall i | 0 <= i < |d0| ensures d[i] == d0[i] && FirstIndex(xs, d[i]) == FirstIndex(pre, d0[i]) < |pre| {
        FirstIndexPrefix(pre, a, d0[i]);
      }
      if a !in pre {
        assert FirstIndex(xs, a) == |pre|;
        assert d[|d0|] == a;
      }
    }
  }

  /** `d[k] = v`. */
  function Put<V>(d: Dict<V>, k: string, v: V): Dict<V>
    decreases |d|
  {
    if |d| == 0 then [(k, v)]
    else if d[0].0 == k then [(k, v)] + d[1..]
    else [d[0]] + Put(d[1..], k, v)
  }

  /** `d.get(k, default)`. */
  function Get<V>(d: Dict<V>, k: string, default: V): V
    decreases |d|
  {
    if |d| == 0 then default
    else if d[0].0 == k then d[0].1
    else Get(d[1..], k, default)
  }

  /** Assignment keeps the key order, or appends a new key at the end. */
  lemma {:induction false} PutKeys<V>(d: Dict<V>, k: string, v: V)
    ensures k in Keys(d) ==> Keys(Put(d, k, v)) == Keys(d)
    ensures k !in Keys(d) ==> Keys(Put(d, k, v)) == Keys(d) + [k]
    decreases |d|
  {
    if |d| > 0 {
      KeysCons(d);
      var p := Put(d, k, v);
      KeysCons(p);
      if d[0].0 != k {
        PutKeys(d[1..], k, v);
        assert p[1..] == Put(d[1..], k, v);
      } else {
        assert p[1..] == d[1..];
      }
    }
  }

  /** Assignment keeps the length for a present key and adds the pair at the end for a new one. */
  lemma {:induction false} PutLength<V>(d: Dict<V>, k: string, v: V)
    ensures k in Keys(d) ==> |Put(d, k, v)| == |d|
    ensures k !in Keys(d) ==> |Put(d, k, v)| == |d| + 1 && Put(d, k, v)[|d|] == (k, v)
    decreases |d|
  {
    if |d| > 0 && d[0].0 != k {
      PutLength(d[1..], k, v);
    }
  }

  /** In a dict without repeated keys, assignment changes the value of that key and of no other. */
  lemma {:induction false} PutValues<V>(d: Dict<V>, k: string, v: V)
    requires Distinct(Keys(d))
    ensures |Put(d, k, v)| >= |d|
    ensures forall i :: 0 <= i < |d| ==> Put(d, k, v)[i].1 == (if d[i].0 == k then v else d[i].1)
    ensures k !in Keys(d) ==> |Put(d, k, v)| == |d| + 1 && Put(d, k, v)[|d|] == (k, v)
    decreases |d|
  {
    PutLength(d, k, v);
    if |d| > 0 {
      if d[0].0 == k {
        PutValuesHit(d, k, v);
      } else {
        DistinctTail(Keys(d));
        PutValues(d[1..], k, v);
        PutValuesMiss(d, k, v);
      }
    }
  }

  lemma PutValuesHit<V>(d: Dict<V>, k: string, v: V)
    requires Distinct(Keys(d)) && |d| > 0 && d[0].0 == k
    ensures forall i :: 0 <= i < |d| ==> Put(d, k, v)[i].1 == (if d[i].0 == k then v else d[i].1)
  {
    var ks := Keys(d);
    forall i | 1 <= i < |d| ensures d[i].0 != k {
      assert ks[0] != ks[i];
    }
  }

  lemma PutValuesMiss<V>(d: Dict<V>, k: string, v: V)
    requires |d| > 0 && d[0].0 != k
    requires |Put(d[1..], k, v)| >= |d| - 1
    requires forall i :: 0 <= i < |d| - 1 ==> Put(d[1..], k, v)[i].1 == (if d[1..][i].0 == k then v else d[1..][i].1)
    ensures forall i :: 0 <= i < |d| ==> Put(d, k, v)[i].1 == (if d[i].0 == k then v else d[i].1)
  {
    var p := Put(d[1..], k, v);
    assert Put(d, k, v) == [d[0]] + p;
    forall i | 1 <= i < |d| ensures Put(d, k, v)[i].1 == (if d[i].0 == k then v else d[i].1) {
      assert Put(d, k, v)[i] == p[i - 1] && d[i] == d[1..][i - 1];
    }
  }

  lemma DistinctTail(xs: seq<string>)
    requires |xs| > 0 && Distinct(xs)
    ensures Distinct(xs[1..])
  {
    var t := xs[1..];
    forall i, j | 0 <= i < j < |t| ensures t[i] != t[j] {
      assert t[i] == xs[i + 1] && t[j] == xs[j + 1];
    }
  }

  /** Lookup finds the value stored under the key, or the default when the key is absent. */
  lemma {:induction false} GetValue<V>(d: Dict<V>, k: string, default: V)
    ensures k !in Keys(d) ==> Get(d, k, default) == default
    ensures k in Keys(d) ==> Get(d, k, default) == d[FirstIndex(Keys(d), k)].1
    decreases |d|
  {
    if |d| > 0 {
      KeysCons(d);
      if d[0].0 != k {
        GetValue(d[1..], k, default);
        if k in Keys(d) {
          assert k in Keys(d[1..]);
          assert FirstIndex(Keys(d), k) == 1 + FirstIndex(Keys(d[1..]), k);
        }
      }
    }
  }

  /** With distinct keys, looking up the key of any entry finds that entry's value. */
  lemma GetAt<V>(d: Dict<V>, i: nat, default: V)
    requires Distinct(Keys(d)) && i < |d|
    ensures Get(d, d[i].0, default) == d[i].1
  {
    var ks := Keys(d);
    assert ks[i] == d[i].0;
    GetValue(d, ks[i], default);
    var j := FirstIndex(ks, ks[i]);
    assert j == i;
  }

  lemma KeysPrefix<V>(d: Dict<V>, n: nat)
    requires n < |d|
    ensures Keys(d) == Keys(d[..n]) + [d[n].0] + Keys(d[n + 1..])
  {
    var a, b := Keys(d), Keys(d[..n]) + [d[n].0] + Keys(d[n + 1..]);
    forall i | 0 <= i < |d| ensures a[i] == b[i] {
      if i < n { assert d[..n][i] == d[i]; }
      else if i > n { assert d[n + 1..][i - n - 1] == d[i]; }
    }
  }

  /** A dict built by assigning the pairs in order, as a dict comprehension does. */
  function FromPairs<V>(pairs: seq<(string, V)>): Dict<V>
    decreases |pairs|
  {
    if |pairs| == 0 then []
    else Put(FromPairs(pairs[..|pairs| - 1]), pairs[|pairs| - 1].0, pairs[|pairs| - 1].1)
  }

  /** The keys of a dict built from pairs are the distinct keys of the pairs, first appearance first. */
  lemma {:induction false} FromPairsKeys<V>(pairs: seq<(string, V)>)
    ensures Keys(FromPairs(pairs)) == Dedupe(Keys(pairs))
    decreases |pairs|
  {
    if |pairs| > 0 {
      var pre := pairs[..|pairs| - 1];
      var last := pairs[|pairs| - 1];
      FromPairsKeys(pre);
      PutKeys(FromPairs(pre), last.0, last.1);
      DedupeSpec(Keys(pre));
      KeysPrefix(pairs, |pairs| - 1);
      assert Keys(pairs) == Keys(pre) + [last.0];
    }
  }
}
