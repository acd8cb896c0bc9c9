/** Filtering, and one sequence being another with elements left out. */
module Sequences {
  /** The elements of `s` that satisfy `p`, in order. */
  function Filter<T>(s: seq<T>, p: T -> bool): (r: seq<T>)
    ensures forall x :: x in r ==> x in s && p(x)
    ensures forall x :: x in s && p(x) ==> x in r
  {
    if s == [] then [] else (if p(s[0]) then [s[0]] else []) + Filter(s[1..], p)
  }

  function RemoveAt<T>(s: seq<T>, k: nat): seq<T>
    requires k < |s|
  {
    s[..k] + s[k + 1..]
  }

  lemma Assoc<T>(a: seq<T>, b: seq<T>, c: seq<T>)
    ensures a + b + c == a + (b + c)
  {
  }

  /** `f` maps the positions of `a` into `b`, upwards and onto equal elements. */
  ghost predicate Embeds<T>(f: seq<nat>, a: seq<T>, b: seq<T>) {
    && |f| == |a|
    && (forall i, j :: 0 <= i < j < |f| ==> f[i] < f[j])
    && (forall i :: 0 <= i < |f| ==> f[i] < |b| && a[i] == b[f[i]])
  }

  /** `a` is `b` with some elements left out. */
  ghost predicate Subsequence<T>(a: seq<T>, b: seq<T>) {
    exists f :: Embeds(f, a, b)
  }

  lemma SubsequenceSelf<T>(a: seq<T>)
    ensures Subsequence(a, a)
  {
    assert Embeds(seq(|a|, i => i), a, a);
  }

  lemma SubsequenceTransitive<T>(a: seq<T>, b: seq<T>, c: seq<T>)
    requires Subsequence(a, b) && Subsequence(b, c)
    ensures Subsequence(a, c)
  {
    var f :| Embeds(f, a, b);
    var g :| Embeds(g, b, c);
    assert Embeds(seq(|a|, i requires 0 <= i < |a| => g[f[i]]), a, c);
  }

  lemma SubsequenceConcat<T>(a: seq<T>, b: seq<T>, c: seq<T>, d: seq<T>)
    requires Subsequence(a, b) && Subsequence(c, d)
    ensures Subsequence(a + c, b + d)
  {
    var f :| Embeds(f, a, b);
    var g :| Embeds(g, c, d);
    assert Embeds(f + seq(|g|, i requires 0 <= i < |g| => g[i] + |b|), a + c, b + d);
  }

  lemma SubsequenceEmpty<T>(b: seq<T>)
    ensures Subsequence([], b)
  {
    assert Embeds([], [], b);
  }

  lemma RemoveAtSubsequence<T>(s: seq<T>, k: nat)
    requires k < |s|
    ensures Subsequence(RemoveAt(s, k), s)
  {
    assert Embeds(seq(|s| - 1, i => if i < k then i else i + 1), RemoveAt(s, k), s);
  }

  lemma {:induction false} FilterSubsequence<T>(s: seq<T>, p: T -> bool)
    ensures Subsequence(Filter(s, p), s)
  {
    if s == [] {
      SubsequenceSelf(s);
    } else {
      FilterSubsequence(s[1..], p);
      var head := if p(s[0]) then [s[0]] else [];
      if p(s[0]) {
        SubsequenceSelf(head);
      } else {
        SubsequenceEmpty([s[0]]);
      }
      assert s == [s[0]] + s[1..];
      SubsequenceConcat(head, [s[0]], Filter(s[1..], p), s[1..]);
    }
  }

  lemma {:induction false} FilterAppend<T>(a: seq<T>, b: seq<T>, p: T -> bool)
    ensures Filter(a + b, p) == Filter(a, p) + Filter(b, p)
  {
    if a == [] {
      assert a + b == b;
    } else {
      assert (a + b)[0] == a[0] && (a + b)[1..] == a[1..] + b;
      FilterAppend(a[1..], b, p);
    }
  }

  lemma FilterOne<T>(x: T, p: T -> bool)
    ensures Filter([x], p) == if p(x) then [x] else []
  {
    assert [x][1..] == [];
  }

  lemma FilterSnoc<T>(s: seq<T>, n: nat, p: T -> bool)
    requires n < |s|
    ensures Filter(s[..n + 1], p) == Filter(s[..n], p) + if p(s[n]) then [s[n]] else []
  {
    assert s[..n + 1] == s[..n] + [s[n]];
    FilterAppend(s[..n], [s[n]], p);
    assert Filter([s[n]], p) == if p(s[n]) then [s[n]] else [];
  }

  lemma {:induction false} FilterAll<T>(s: seq<T>, p: T -> bool)
    requires forall x :: x in s ==> p(x)
    ensures Filter(s, p) == s
  {
    if s != [] {
      FilterAll(s[1..], p);
    }
  }

  lemma {:induction false} FilterNone<T>(s: seq<T>, p: T -> bool)
    requires forall x :: x in s ==> !p(x)
    ensures Filter(s, p) == []
  {
    if s != [] {
      FilterNone(s[1..], p);
    }
  }

  /** The elements of `s` that fail `p`, in order. */
  function Reject<T>(s: seq<T>, p: T -> bool): (r: seq<T>) {
    Filter(s, x => !p(x))
  }

  lemma RejectSubsequence<T>(s: seq<T>, p: T -> bool)
    ensures Subsequence(Reject(s, p), s)
  {
    FilterSubsequence(s, x => !p(x));
  }

  lemma RejectNone<T>(s: seq<T>, p: T -> bool)
    requires forall x :: x in s ==> !p(x)
    ensures Reject(s, p) == s
  {
    FilterAll(s, x => !p(x));
  }

  /** An erase-while-iterating loop has passed `n` elements of `s`: the ones
      satisfying `p` are in `dropped`, and `kept[..i]` are the others. */
  ghost predicate Erasing<T>(s: seq<T>, p: T -> bool, n: nat, kept: seq<T>, i: nat, dropped: seq<T>) {
    && n <= |s|
    && kept == Reject(s[..n], p) + s[n..]
    && i == |Reject(s[..n], p)|
    && dropped == Filter(s[..n], p)
  }

  lemma EraseStep<T>(s: seq<T>, p: T -> bool, n: nat, kept: seq<T>, i: nat, dropped: seq<T>)
    requires Erasing(s, p, n, kept, i, dropped) && i < |kept|
    ensures n < |s| && kept[i] == s[n]
    ensures p(kept[i]) ==> Erasing(s, p, n + 1, RemoveAt(kept, i), i, dropped + [kept[i]])
    ensures !p(kept[i]) ==> Erasing(s, p, n + 1, kept, i + 1, dropped)
  {
    FilterSnoc(s, n, p);
    FilterSnoc(s, n, x => !p(x));
    EraseShift(Reject(s[..n], p), s, n);
  }

  lemma EraseShift<T>(done: seq<T>, s: seq<T>, n: nat)
    requires n <= |s|
    ensures var kept := done + s[n..];
            |done| < |kept| ==>
              && n < |s| && kept[|done|] == s[n]
              && RemoveAt(kept, |done|) == done + s[n + 1..]
              && kept == (done + [s[n]]) + s[n + 1..]
  {
  }

  lemma EraseDone<T>(s: seq<T>, p: T -> bool, n: nat, kept: seq<T>, i: nat, dropped: seq<T>)
    requires Erasing(s, p, n, kept, i, dropped) && i == |kept|
    ensures kept == Reject(s, p) && dropped == Filter(s, p)
  {
    assert s[..n] == s;
  }

  function Iterate<T(!new)>(f: T -> T, x: T, n: nat): T
    decreases n
  {
    if n == 0 then x else Iterate(f, f(x), n - 1)
  }

  lemma {:induction false} IterateAdd<T(!new)>(f: T -> T, x: T, a: nat, b: nat)
    ensures Iterate(f, x, a + b) == Iterate(f, Iterate(f, x, a), b)
    decreases a
  {
    if a > 0 {
      IterateAdd(f, f(x), a - 1, b);
    }
  }

  lemma {:induction false} IterateKeeps<T(!new)>(p: T -> bool, f: T -> T, x: T, n: nat)
    requires p(x) && forall y :: p(y) ==> p(f(y))
    ensures p(Iterate(f, x, n))
    decreases n
  {
    if n > 0 {
      IterateKeeps(p, f, f(x), n - 1);
    }
  }
}
