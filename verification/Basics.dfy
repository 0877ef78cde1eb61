/** Small shared vocabulary. */
module Basics {

  datatype Option<+T> = None | Some(value: T)

  /** What an action makes of an event. */
  datatype ActionResult = Pass | Discard | Collapse | Hold

  type StreamName = string

  /** The offset of one stream of a file. */
  datatype KV = KV(stream: StreamName, offset: int)

  lemma Assoc<T>(a: seq<T>, b: seq<T>, c: seq<T>)
    ensures a + b + c == a + (b + c)
  {
  }

  /** The sequence is strictly increasing. */
  ghost predicate Increasing(f: seq<nat>) {
    forall i, j :: 0 <= i < j < |f| ==> f[i] < f[j]
  }

  /** A number above all others goes at the end. */
  lemma AppendKeepsIncreasing(a: seq<nat>, x: nat)
    requires Increasing(a)
    requires forall n :: n in a ==> n < x
    ensures Increasing(a + [x])
  {
    var f := a + [x];
    forall i, j | 0 <= i < j < |f|
      ensures f[i] < f[j]
    {
      assert f[i] == a[i] && a[i] in a;
    }
  }

  /** Dropping one element keeps a sequence strictly increasing, and drops nothing else. */
  lemma RemoveKeepsIncreasing(a: seq<nat>, x: nat, b: seq<nat>)
    requires Increasing(a + [x] + b)
    ensures Increasing(a + b)
    ensures x !in a + b
    ensures forall n: nat :: n in a + [x] + b <==> n == x || n in a + b
  {
    var f, g := a + [x] + b, a + b;
    assert forall i | 0 <= i < |a| :: f[i] == g[i];
    assert forall i | |a| <= i < |g| :: f[i + 1] == g[i];
    assert f[|a|] == x;
    forall i, j | 0 <= i < j < |g|
      ensures g[i] < g[j]
    {
      var i', j' := if i < |a| then i else i + 1, if j < |a| then j else j + 1;
      assert f[i'] < f[j'];
    }
    forall n: nat | n in f
      ensures n == x || n in g
    {
      var i :| 0 <= i < |f| && f[i] == n;
      if i < |a| {
        assert g[i] == n;
      } else if i > |a| {
        assert g[i - 1] == n;
      }
    }
    forall n: nat | n in g
      ensures n in f
    {
      var i :| 0 <= i < |g| && g[i] == n;
      assert f[if i < |a| then i else i + 1] == n;
    }
    assert forall i | 0 <= i < |g| :: g[i] != x by {
      forall i | 0 <= i < |g|
        ensures g[i] != x
      {
        if i < |a| {
          assert f[i] < f[|a|];
        } else {
          assert f[|a|] < f[i + 1];
        }
      }
    }
  }

  /** The total weight of a sequence. */
  function Sum<T>(s: seq<T>, f: T -> nat): nat {
    if s == [] then 0 else Sum(s[..|s| - 1], f) + f(s[|s| - 1])
  }

  lemma SumSnoc<T>(s: seq<T>, x: T, f: T -> nat)
    ensures Sum(s + [x], f) == Sum(s, f) + f(x)
  {
    assert (s + [x])[..|s|] == s;
  }

  lemma {:induction false} SumConcat<T>(a: seq<T>, b: seq<T>, f: T -> nat)
    ensures Sum(a + b, f) == Sum(a, f) + Sum(b, f)
    decreases |b|
  {
    if b == [] {
      assert a + b == a;
    } else {
      var l := |b| - 1;
      SumConcat(a, b[..l], f);
      assert a + b == (a + b[..l]) + [b[l]];
      SumSnoc(a + b[..l], b[l], f);
    }
  }

  lemma SumMiddle<T>(a: seq<T>, x: T, b: seq<T>, f: T -> nat)
    ensures Sum(a + [x] + b, f) == Sum(a, f) + f(x) + Sum(b, f)
  {
    SumConcat(a + [x], b, f);
    SumSnoc(a, x, f);
  }

  /** Replacing one element changes the weight by that element. */
  lemma SumUpdate<T>(s: seq<T>, i: nat, x: T, f: T -> nat)
    requires i < |s|
    ensures Sum(s[i := x], f) + f(s[i]) == Sum(s, f) + f(x)
  {
    var a, b := s[..i], s[i + 1..];
    assert s == a + [s[i]] + b;
    assert s[i := x] == a + [x] + b;
    SumMiddle(a, s[i], b, f);
    SumMiddle(a, x, b, f);
  }

  lemma SumRemove<T>(s: seq<T>, i: nat, f: T -> nat)
    requires i < |s|
    ensures Sum(s, f) == Sum(s[..i] + s[i + 1..], f) + f(s[i])
  {
    var a, b := s[..i], s[i + 1..];
    assert s == a + [s[i]] + b;
    SumMiddle(a, s[i], b, f);
    SumConcat(a, b, f);
  }

  lemma SumHead<T>(s: seq<T>, f: T -> nat)
    requires s != []
    ensures Sum(s, f) == f(s[0]) + Sum(s[1..], f)
  {
    SumRemove(s, 0, f);
    assert s[..0] + s[1..] == s[1..];
  }

  /** A positive weight comes from some element. */
  lemma {:induction false} SumWitness<T>(s: seq<T>, f: T -> nat) returns (i: nat)
    requires Sum(s, f) > 0
    ensures i < |s| && f(s[i]) > 0
  {
    var l := |s| - 1;
    if f(s[l]) > 0 {
      i := l;
    } else {
      i := SumWitness(s[..l], f);
    }
  }

  /** One element weighs at most as much as all of them. */
  lemma SumAtLeast<T>(s: seq<T>, i: nat, f: T -> nat)
    requires i < |s|
    ensures Sum(s, f) >= f(s[i])
  {
    SumRemove(s, i, f);
  }

  /** With weights of at most one, a total below the length leaves an element of weight zero. */
  lemma {:induction false} Pigeonhole<T>(s: seq<T>, f: T -> nat) returns (i: nat)
    requires Sum(s, f) < |s|
    requires forall x :: x in s ==> f(x) <= 1
    ensures i < |s| && f(s[i]) == 0
  {
    var l := |s| - 1;
    if f(s[l]) == 0 {
      i := l;
    } else {
      i := Pigeonhole(s[..l], f);
    }
  }

  /** Weights of at most one cannot exceed the length. */
  lemma {:induction false} SumBound<T>(s: seq<T>, f: T -> nat)
    requires forall x :: x in s ==> f(x) <= 1
    ensures Sum(s, f) <= |s|
  {
    if s != [] {
      SumBound(s[..|s| - 1], f);
    }
  }

  /** No weight at all. */
  lemma {:induction false} SumZero<T>(s: seq<T>, f: T -> nat)
    requires forall x :: x in s ==> f(x) == 0
    ensures Sum(s, f) == 0
  {
    if s != [] {
      SumZero(s[..|s| - 1], f);
    }
  }

  ghost predicate NoRepeats<T>(s: seq<T>) {
    forall i, j :: 0 <= i < j < |s| ==> s[i] != s[j]
  }

  lemma {:induction false} SumSame<T>(s: seq<T>, f: T -> nat, g: T -> nat)
    requires forall x :: x in s ==> f(x) == g(x)
    ensures Sum(s, f) == Sum(s, g)
  {
    if s != [] {
      SumSame(s[..|s| - 1], f, g);
    }
  }

  /** Weights that differ for one element only. */
  lemma SumChange<T>(s: seq<T>, f: T -> nat, g: T -> nat, x: T)
    requires NoRepeats(s) && x in s
    requires forall y :: y in s && y != x ==> f(y) == g(y)
    ensures Sum(s, g) + f(x) == Sum(s, f) + g(x)
  {
    var i :| 0 <= i < |s| && s[i] == x;
    var a, b := s[..i], s[i + 1..];
    assert s == a + [x] + b;
    SumMiddle(a, x, b, f);
    SumMiddle(a, x, b, g);
    SumSame(a, f, g);
    SumSame(b, f, g);
  }

  /** The elements of a finite set in some order. */
  lemma {:induction false} Enumerate<T>(s: set<T>) returns (r: seq<T>)
    ensures NoRepeats(r) && forall x :: x in r <==> x in s
  {
    if s == {} {
      r := [];
    } else {
      var x :| x in s;
      var rest := Enumerate(s - {x});
      r := rest + [x];
    }
  }
}
