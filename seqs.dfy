/** Sequence helpers shared by the models: flattening and element-wise mapping. */
module Seqs {

  /** The sequences of `ss` one after another (`strings.extend` over a loop). */
  function Concat<T>(ss: seq<seq<T>>): (r: seq<T>)
    ensures ss == [] ==> r == []
  {
    if ss == [] then [] else ss[0] + Concat(ss[1..])
  }

  /** Every element of the flattening comes from one of the parts. */
  lemma {:induction false} InConcat<T>(ss: seq<seq<T>>, x: T)
    requires x in Concat(ss)
    ensures exists i :: 0 <= i < |ss| && x in ss[i]
  {
    if x !in ss[0] {
      InConcat(ss[1..], x);
      var i :| 0 <= i < |ss[1..]| && x in ss[1..][i];
      assert x in ss[i + 1];
    }
  }

  /** Every element of a part is in the flattening. */
  lemma {:induction false} ConcatHas<T>(ss: seq<seq<T>>, i: nat, x: T)
    requires i < |ss| && x in ss[i]
    ensures x in Concat(ss)
  {
    if i > 0 {
      ConcatHas(ss[1..], i - 1, x);
    }
  }

  /** Flattening commutes with mapping each part element-wise. */
  lemma {:induction false} ConcatMap<T, U>(ss: seq<seq<T>>, f: T -> U)
    ensures Map(Concat(ss), f) == Concat(seq(|ss|, i requires 0 <= i < |ss| => Map(ss[i], f)))
  {
    if ss != [] {
      ConcatMap(ss[1..], f);
      MapAppend(ss[0], Concat(ss[1..]), f);
      assert seq(|ss|, i requires 0 <= i < |ss| => Map(ss[i], f))[1..] ==
             seq(|ss[1..]|, i requires 0 <= i < |ss[1..]| => Map(ss[1..][i], f));
    }
  }

  function Map<T, U>(xs: seq<T>, f: T -> U): (r: seq<U>)
    ensures |r| == |xs| && forall i :: 0 <= i < |xs| ==> r[i] == f(xs[i])
  {
    seq(|xs|, i requires 0 <= i < |xs| => f(xs[i]))
  }

  lemma MapAppend<T, U>(a: seq<T>, b: seq<T>, f: T -> U)
    ensures Map(a + b, f) == Map(a, f) + Map(b, f)
  {
  }

  /** `k` copies of `x`: the calls a polling loop makes when it asks `k` times. */
  function Repeat<T>(x: T, k: nat): (r: seq<T>)
    ensures |r| == k && forall i :: 0 <= i < k ==> r[i] == x
  {
    if k == 0 then [] else Repeat(x, k - 1) + [x]
  }

  /** Concatenation is associative. */
  lemma AppendAssoc<T>(a: seq<T>, b: seq<T>, c: seq<T>)
    ensures (a + b) + c == a + (b + c)
  {
  }

  /** A non-empty sequence is its front followed by its last element. */
  lemma FrontLast<T>(s: seq<T>)
    requires s != []
    ensures s == s[..|s| - 1] + [s[|s| - 1]]
  {
  }
}
