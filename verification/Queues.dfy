/** Sequences as queues: taking out one item, and what a part of the items looks like on its own. */
module Queues {
  import opened Wire

  function Remove<T>(q: seq<T>, k: nat): seq<T>
    requires k < |q|
  {
    q[..k] + q[k + 1..]
  }

  /** No earlier item of the queue travels between the same two ends. */
  predicate First<T, K(==)>(q: seq<T>, k: nat, ends: T -> K)
    requires k < |q|
  {
    forall j :: 0 <= j < k ==> ends(q[j]) != ends(q[k])
  }

  /** Memory copies: memcpy, strncpy and the kernel's own. */
  method CopyInto<T>(dst: array<T>, src: seq<T>)
    requires |src| <= dst.Length
    modifies dst
    ensures dst[..] == src + old(dst[..])[|src|..]
  {
    var i := 0;
    while i < |src|
      invariant 0 <= i <= |src|
      invariant forall k :: 0 <= k < i ==> dst[k] == src[k]
      invariant forall k :: i <= k < dst.Length ==> dst[k] == old(dst[k])
    {
      dst[i] := src[i];
      i := i + 1;
    }
  }

  lemma CountOne<T>(q: seq<T>, i: nat)
    requires i < |q|
    ensures multiset(q)[q[i]] >= 1
  {
  }

  lemma CountTwo<T>(q: seq<T>, i: nat, j: nat)
    requires i < j < |q| && q[i] == q[j]
    ensures multiset(q)[q[i]] >= 2
  {
    assert q == q[..j] + q[j..];
    CountOne(q[..j], i);
    CountOne(q[j..], 0);
  }

  function One<R>(o: Option<R>): seq<R> {
    if o.Some? then [o.value] else []
  }

  /** What `f` sees of each item it sees anything of, in order. */
  function Pick<T, R>(q: seq<T>, f: T -> Option<R>): seq<R> {
    if q == [] then [] else One(f(q[0])) + Pick(q[1..], f)
  }

  lemma PickCons<T, R>(x: T, q: seq<T>, f: T -> Option<R>)
    ensures Pick([x] + q, f) == One(f(x)) + Pick(q, f)
  {
  }

  lemma {:induction false} PickConcat<T, R>(q: seq<T>, q': seq<T>, f: T -> Option<R>)
    ensures Pick(q + q', f) == Pick(q, f) + Pick(q', f)
  {
    if q == [] {
      assert q + q' == q';
    } else {
      var w := q[1..];
      assert q + q' == [q[0]] + (w + q');
      PickCons(q[0], w + q', f);
      PickConcat(w, q', f);
    }
  }

  lemma PickAppend<T, R>(q: seq<T>, x: T, f: T -> Option<R>)
    ensures Pick(q + [x], f) == if f(x).Some? then Pick(q, f) + [f(x).value] else Pick(q, f)
  {
    PickConcat(q, [x], f);
    assert [x] == [x] + [];
    PickCons(x, [], f);
    assert Pick([x], f) == One(f(x));
  }

  lemma PickMore<T, R>(q: seq<T>, x: T, f: T -> Option<R>)
    ensures Pick(q + [x], f) == Pick(q, f) + One(f(x))
  {
    PickAppend(q, x, f);
    if f(x).None? {
      assert Pick(q, f) + [] == Pick(q, f);
    }
  }

  lemma PickOne<T, R>(x: Option<T>, f: T -> Option<R>)
    ensures Pick(One(x), f) == if x.Some? then One(f(x.value)) else []
  {
    if x.Some? {
      PickCons(x.value, [], f);
      assert [x.value] + [] == [x.value];
    }
  }

  lemma PickMiddle<T, R>(q: seq<T>, x: T, q': seq<T>, f: T -> Option<R>)
    ensures Pick(q + ([x] + q'), f) == Pick(q, f) + One(f(x)) + Pick(q', f)
  {
    PickConcat(q, [x] + q', f);
    PickCons(x, q', f);
  }

  /** A queue around its k-th item. */
  lemma PickAround<T, R>(q: seq<T>, k: nat, f: T -> Option<R>)
    requires k < |q|
    ensures Pick(q, f) == Pick(q[..k], f) + One(f(q[k])) + Pick(q[k + 1..], f)
    ensures Pick(Remove(q, k), f) == Pick(q[..k], f) + Pick(q[k + 1..], f)
  {
    var front, x, back := q[..k], q[k], q[k + 1..];
    Around(q, k);
    PickMiddle(front, x, back, f);
    PickConcat(front, back, f);
  }

  lemma Around<T>(q: seq<T>, k: nat)
    requires k < |q|
    ensures q == q[..k] + ([q[k]] + q[k + 1..])
  {
  }

  lemma PickRemoveOther<T, R>(q: seq<T>, k: nat, f: T -> Option<R>)
    requires k < |q| && f(q[k]) == None
    ensures Pick(Remove(q, k), f) == Pick(q, f)
  {
    PickAround(q, k, f);
  }

  lemma {:induction false} PickNone<T, R>(q: seq<T>, f: T -> Option<R>)
    requires forall i :: 0 <= i < |q| ==> f(q[i]) == None
    ensures Pick(q, f) == []
  {
    if q != [] {
      PickNone(q[1..], f);
    }
  }

  /** The first item that `f` sees. */
  lemma PickFirst<T, R>(q: seq<T>, k: nat, f: T -> Option<R>)
    requires k < |q| && f(q[k]).Some? && forall i :: 0 <= i < k ==> f(q[i]) == None
    ensures Pick(q, f) == [f(q[k]).value] + Pick(Remove(q, k), f)
  {
    PickNone(q[..k], f);
    PickAround(q, k, f);
  }

  /** Where an item lands that `f` sees. */
  lemma PickAt<T, R>(q: seq<T>, j: nat, f: T -> Option<R>)
    requires j < |q| && f(q[j]).Some?
    ensures |Pick(q[..j], f)| < |Pick(q, f)| && Pick(q, f)[|Pick(q[..j], f)|] == f(q[j]).value
  {
    PickAround(q, j, f);
  }

  /** Items keep their order. */
  lemma PickOrder<T, R>(q: seq<T>, i: nat, j: nat, f: T -> Option<R>) returns (a: nat, b: nat)
    requires i < j < |q| && f(q[i]).Some? && f(q[j]).Some?
    ensures a < b < |Pick(q, f)| && Pick(q, f)[a] == f(q[i]).value && Pick(q, f)[b] == f(q[j]).value
  {
    a, b := |Pick(q[..i], f)|, |Pick(q[..j], f)|;
    PickAt(q, i, f);
    PickAt(q, j, f);
    PickAt(q[..j], i, f);
    assert q[..j][..i] == q[..i];
  }

  lemma {:induction false} PickFrom<T, R>(q: seq<T>, f: T -> Option<R>, r: R) returns (i: nat)
    requires r in Pick(q, f)
    ensures i < |q| && f(q[i]) == Some(r)
  {
    if f(q[0]) == Some(r) {
      i := 0;
    } else {
      i := PickFrom(q[1..], f, r);
      i := i + 1;
    }
  }

  lemma {:induction false} PickSame<T, R>(q: seq<T>, f: T -> Option<R>, g: T -> Option<R>)
    requires forall x :: x in q ==> f(x) == g(x)
    ensures Pick(q, f) == Pick(q, g)
  {
    if q != [] {
      PickSame(q[1..], f, g);
    }
  }

  /** A pick of a pick. */
  lemma {:induction false} PickPick<T, U, R>(q: seq<T>, f: T -> Option<U>, g: U -> Option<R>, h: T -> Option<R>)
    requires forall x :: x in q ==> h(x) == if f(x).Some? then g(f(x).value) else None
    ensures Pick(Pick(q, f), g) == Pick(q, h)
  {
    if q != [] {
      PickPick(q[1..], f, g, h);
      if f(q[0]).Some? {
        PickCons(f(q[0]).value, Pick(q[1..], f), g);
      } else {
        assert Pick(q, f) == Pick(q[1..], f);
      }
    }
  }

  /** Two picks come from two places. */
  lemma {:induction false} PickTwo<T, R>(q: seq<T>, f: T -> Option<R>)
    requires |Pick(q, f)| >= 2
    ensures exists i, j :: 0 <= i < j < |q| && f(q[i]).Some? && f(q[j]).Some?
  {
    if f(q[0]).Some? {
      var r := Pick(q[1..], f)[0];
      var j := PickFrom(q[1..], f, r);
      assert f(q[0]).Some? && f(q[j + 1]).Some?;
    } else {
      PickTwo(q[1..], f);
      var i, j :| 0 <= i < j < |q[1..]| && f(q[1..][i]).Some? && f(q[1..][j]).Some?;
      assert f(q[i + 1]).Some? && f(q[j + 1]).Some?;
    }
  }

  // ---- subsequences ----

  /** `xs` is `ys` with some items left out. */
  ghost predicate Subsequence<T(!new)>(xs: seq<T>, ys: seq<T>)
    decreases |ys|
  {
    xs == [] ||
    (ys != [] &&
     (Subsequence(xs, ys[..|ys| - 1]) ||
      (xs[|xs| - 1] == ys[|ys| - 1] && Subsequence(xs[..|xs| - 1], ys[..|ys| - 1]))))
  }

  lemma SubsequenceAppend<T(!new)>(xs: seq<T>, ys: seq<T>, y: T)
    requires Subsequence(xs, ys)
    ensures Subsequence(xs, ys + [y]) && Subsequence(xs + [y], ys + [y])
  {
  }

  lemma {:induction false} SubsequenceWithout<T(!new)>(xs: seq<T>, x: T, xs': seq<T>, ys: seq<T>)
    requires Subsequence(xs + [x] + xs', ys)
    ensures Subsequence(xs + xs', ys)
    decreases |ys|
  {
    var w := xs + [x] + xs';
    var init := ys[..|ys| - 1];
    if Subsequence(w, init) {
      SubsequenceWithout(xs, x, xs', init);
    } else if xs' == [] {
      assert w[..|w| - 1] == xs && xs + xs' == xs;
    } else {
      var tail := xs'[..|xs'| - 1];
      assert w[..|w| - 1] == xs + [x] + tail;
      SubsequenceWithout(xs, x, tail, init);
      assert (xs + xs')[..|xs + xs'| - 1] == xs + tail;
      assert (xs + xs')[|xs + xs'| - 1] == w[|w| - 1];
    }
  }

  lemma {:induction false} SubsequencePrefix<T(!new)>(xs: seq<T>, more: seq<T>, ys: seq<T>)
    requires Subsequence(xs + more, ys)
    ensures Subsequence(xs, ys)
    decreases |more|
  {
    if more == [] {
      assert xs + more == xs;
    } else {
      var init, x := more[..|more| - 1], more[|more| - 1];
      assert xs + more == (xs + init) + [x] + [];
      SubsequenceWithout(xs + init, x, [], ys);
      assert xs + init + [] == xs + init;
      SubsequencePrefix(xs, init, ys);
    }
  }

  lemma {:induction false} SubsequenceExtend<T(!new)>(xs: seq<T>, ys: seq<T>, more: seq<T>)
    requires Subsequence(xs, ys)
    ensures Subsequence(xs, ys + more)
    decreases |more|
  {
    if more == [] {
      assert ys + more == ys;
    } else {
      var init := more[..|more| - 1];
      SubsequenceExtend(xs, ys, init);
      SubsequenceAppend(xs, ys + init, more[|more| - 1]);
      assert ys + init + [more[|more| - 1]] == ys + more;
    }
  }

  lemma {:induction false} SubsequenceSuffix<T(!new)>(xs: seq<T>, more: seq<T>, ys: seq<T>)
    requires Subsequence(xs + more, ys)
    ensures Subsequence(more, ys)
    decreases |xs|
  {
    if xs == [] {
      assert xs + more == more;
    } else {
      assert xs + more == [] + [xs[0]] + (xs[1..] + more);
      SubsequenceWithout([], xs[0], xs[1..] + more, ys);
      assert [] + (xs[1..] + more) == xs[1..] + more;
      SubsequenceSuffix(xs[1..], more, ys);
    }
  }

  lemma SubsequenceMore<R(!new)>(us: seq<R>, vs: seq<R>, x: Option<R>)
    requires Subsequence(us, vs)
    ensures Subsequence(us, vs + One(x)) && Subsequence(us + One(x), vs + One(x))
  {
    if x.Some? {
      SubsequenceAppend(us, vs, x.value);
    } else {
      assert us + [] == us && vs + [] == vs;
    }
  }

  lemma {:induction false} SubsequencePick<T(!new), R(!new)>(xs: seq<T>, ys: seq<T>, f: T -> Option<R>)
    requires Subsequence(xs, ys)
    ensures Subsequence(Pick(xs, f), Pick(ys, f))
    decreases |ys|
  {
    if xs != [] {
      var init, y := ys[..|ys| - 1], ys[|ys| - 1];
      assert ys == init + [y];
      PickMore(init, y, f);
      if Subsequence(xs, init) {
        SubsequencePick(xs, init, f);
        SubsequenceMore(Pick(xs, f), Pick(init, f), f(y));
      } else {
        var front := xs[..|xs| - 1];
        assert xs == front + [y];
        PickMore(front, y, f);
        SubsequencePick(front, init, f);
        SubsequenceMore(Pick(front, f), Pick(init, f), f(y));
      }
    }
  }

  lemma PrefixPick<T, R>(xs: seq<T>, ys: seq<T>, f: T -> Option<R>)
    requires xs <= ys
    ensures Pick(xs, f) <= Pick(ys, f)
  {
    assert ys == xs + ys[|xs|..];
    PickConcat(xs, ys[|xs|..], f);
  }
}
