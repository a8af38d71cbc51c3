/** rand.Shuffle: a Fisher-Yates shuffle driven by arbitrary draws. */
module Shuffling {

  /** The draw for position i is some number from 0 to i. */
  function Draw(draws: seq<nat>, i: nat): (j: nat)
    ensures j <= i
  {
    (if i < |draws| then draws[i] else 0) % (i + 1)
  }

  function Swapped<T>(s: seq<T>, i: nat, j: nat): (r: seq<T>)
    requires i < |s| && j < |s|
    ensures |r| == |s|
  {
    s[i := s[j]][j := s[i]]
  }

  function ShuffledFrom<T>(s: seq<T>, n: nat, draws: seq<nat>): (r: seq<T>)
    requires n < |s|
    ensures |r| == |s|
    decreases n
  {
    if n == 0 then s else ShuffledFrom(Swapped(s, n, Draw(draws, n)), n - 1, draws)
  }

  function Shuffled<T>(s: seq<T>, draws: seq<nat>): (r: seq<T>)
    ensures |r| == |s|
  {
    if s == [] then s else ShuffledFrom(s, |s| - 1, draws)
  }

  lemma {:induction false} ShuffledFromIsPermutation<T>(s: seq<T>, n: nat, draws: seq<nat>)
    requires n < |s|
    ensures multiset(ShuffledFrom(s, n, draws)) == multiset(s)
    decreases n
  {
    if n > 0 {
      ShuffledFromIsPermutation(Swapped(s, n, Draw(draws, n)), n - 1, draws);
    }
  }

  lemma ShuffledIsPermutation<T>(s: seq<T>, draws: seq<nat>)
    ensures multiset(Shuffled(s, draws)) == multiset(s)
  {
    if s != [] { ShuffledFromIsPermutation(s, |s| - 1, draws); }
  }

  /** Conversely every permutation comes from some draws: for all draws means for all orders. */
  lemma EveryPermutationIsDrawn<T>(s: seq<T>, t: seq<T>)
    requires multiset(s) == multiset(t)
    ensures exists draws :: Shuffled(s, draws) == t
  {
    if s == [] {
      assert |multiset(t)| == |t|;
      assert Shuffled(s, []) == t;
    } else {
      assert |multiset(s)| == |s| && |multiset(t)| == |t|;
      assert s[..|s|] == s && t[..|s|] == t;
      var draws := DrawsFor(s, t, |s| - 1);
      assert Shuffled(s, draws) == t;
    }
  }

  lemma SwapLeavesRest<T>(s: seq<T>, n: nat, j: nat)
    requires j <= n < |s|
    ensures Swapped(s, n, j)[n..] == [s[j]] + s[n + 1..]
  {
  }

  lemma SwapInLast<T>(s: seq<T>, t: seq<T>, n: nat, j: nat)
    requires j <= n < |s| == |t| && s[j] == t[n]
    requires multiset(s[..n + 1]) == multiset(t[..n + 1]) && s[n + 1..] == t[n + 1..]
    ensures multiset(Swapped(s, n, j)[..n]) == multiset(t[..n]) && Swapped(s, n, j)[n..] == t[n..]
  {
    var r := Swapped(s, n, j);
    SwapKeepsPrefix(s, n, j);
    assert r[..n + 1] == r[..n] + [t[n]] && t[..n + 1] == t[..n] + [t[n]];
    CancelLast(r[..n], t[..n], t[n]);
    SwapLeavesRest(s, n, j);
    assert t[n..] == [t[n]] + t[n + 1..];
  }

  lemma CancelLast<T>(a: seq<T>, b: seq<T>, x: T)
    requires multiset(a + [x]) == multiset(b + [x])
    ensures multiset(a) == multiset(b)
  {
    assert multiset(a) == multiset(a + [x]) - multiset{x};
    assert multiset(b) == multiset(b + [x]) - multiset{x};
  }

  lemma SwapKeepsPrefix<T>(s: seq<T>, n: nat, j: nat)
    requires j <= n < |s|
    ensures multiset(Swapped(s, n, j)[..n + 1]) == multiset(s[..n + 1])
  {
    assert Swapped(s, n, j)[..n + 1] == Swapped(s[..n + 1], n, j);
  }

  lemma {:induction false} DrawsFor<T>(s: seq<T>, t: seq<T>, n: nat) returns (draws: seq<nat>)
    requires n < |s| == |t|
    requires multiset(s[..n + 1]) == multiset(t[..n + 1]) && s[n + 1..] == t[n + 1..]
    ensures |draws| == n + 1
    ensures ShuffledFrom(s, n, draws) == t
    decreases n
  {
    if n == 0 {
      OneElement(s[..1], t[..1]);
      assert s == s[..1] + s[1..] == t[..1] + t[1..] == t;
      draws := [0];
    } else {
      var j := PositionIn(s[..n + 1], t[..n + 1]);
      SwapInLast(s, t, n, j);
      var rest := DrawsFor(Swapped(s, n, j), t, n - 1);
      draws := rest + [j];
      DrawInRange(draws, n);
      LaterDrawsDoNotMatter(Swapped(s, n, j), n - 1, rest, draws);
    }
  }

  lemma OneElement<T>(s: seq<T>, t: seq<T>)
    requires |s| == |t| == 1 && multiset(s) == multiset(t)
    ensures s == t
  {
    assert s[0] in multiset(t);
  }

  lemma PositionIn<T>(s: seq<T>, t: seq<T>) returns (j: nat)
    requires |t| > 0 && multiset(s) == multiset(t)
    ensures j < |s| && s[j] == t[|t| - 1]
  {
    assert t[|t| - 1] in multiset(s);
    j :| j < |s| && s[j] == t[|t| - 1];
  }

  lemma DrawInRange(draws: seq<nat>, i: nat)
    requires i < |draws| && draws[i] <= i
    ensures Draw(draws, i) == draws[i]
  {
  }

  lemma {:induction false} LaterDrawsDoNotMatter<T>(s: seq<T>, n: nat, a: seq<nat>, b: seq<nat>)
    requires n < |s| && n < |a| && n < |b| && forall i :: 0 <= i <= n ==> a[i] == b[i]
    ensures ShuffledFrom(s, n, a) == ShuffledFrom(s, n, b)
    decreases n
  {
    if n > 0 { LaterDrawsDoNotMatter(Swapped(s, n, Draw(a, n)), n - 1, a, b); }
  }

  method Shuffle<T>(a: array<T>, draws: seq<nat>)
    modifies a
    ensures a[..] == Shuffled(old(a[..]), draws)
  {
    var i := a.Length - 1;
    while i > 0
      invariant -1 <= i < a.Length
      invariant a.Length == 0 ==> a[..] == []
      invariant a.Length > 0 ==> i >= 0 && Shuffled(old(a[..]), draws) == ShuffledFrom(a[..], i, draws)
    {
      var j := Draw(draws, i);
      ghost var before := a[..];
      a[i], a[j] := a[j], a[i];
      assert a[..] == Swapped(before, i, j);
      i := i - 1;
    }
  }
}
