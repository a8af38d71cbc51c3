/** Ranking: three criteria folded into one number, a stable sort, and SQL's RANK (api/internal/rank/rank.go). */
module Rank {
  import opened Common

  const SCORE_UNIT := 100_000_000
  const CORRECT_UNIT := 1_000_000
  const MAX_TOTAL_MS := CORRECT_UNIT - 1
  /** Integers up to here are exact in a float64. */
  const FLOAT_EXACT := 0x20_0000_0000_0000

  datatype Standing = Standing(player: PlayerId, score: int, correct: int, totalMs: int) {
    function Key(): int {
      score * SCORE_UNIT + correct * CORRECT_UNIT + (MAX_TOTAL_MS - Min(Max(totalMs, 0), MAX_TOTAL_MS))
    }

    /** The three criteria of the documentation, in their order of importance. */
    predicate Better(other: Standing) {
      || score > other.score
      || (score == other.score && correct > other.correct)
      || (score == other.score && correct == other.correct && totalMs < other.totalMs)
    }

    predicate Ties(other: Standing) {
      score == other.score && correct == other.correct && totalMs == other.totalMs
    }

    /** What a session of at most fifteen questions can reach, see module Bounds. */
    predicate Bounded() {
      0 <= score <= 15 * 1250 && 0 <= correct <= 15 && 0 <= totalMs <= 15 * 31250
    }
  }

  // ---------------------------------------------------------------- specification of the order

  /** Moves x left past every strictly smaller key. */
  function InsertStable(sorted: seq<Standing>, x: Standing): (r: seq<Standing>)
    ensures |r| == |sorted| + 1
  {
    if sorted == [] || sorted[|sorted| - 1].Key() >= x.Key() then sorted + [x]
    else InsertStable(sorted[..|sorted| - 1], x) + [sorted[|sorted| - 1]]
  }

  function Sorted(s: seq<Standing>): (r: seq<Standing>)
    ensures |r| == |s|
  {
    if s == [] then [] else InsertStable(Sorted(s[..|s| - 1]), s[|s| - 1])
  }

  function Ids(s: seq<Standing>): (r: seq<PlayerId>)
    ensures |r| == |s|
    ensures forall i :: 0 <= i < |s| ==> r[i] == s[i].player
  {
    seq(|s|, i requires 0 <= i < |s| => s[i].player)
  }

  /** The ids of the sorted standings. */
  function Order(s: seq<Standing>): seq<PlayerId> {
    Ids(Sorted(s))
  }

  // ---------------------------------------------------------------- the sort is a stable sort

  ghost predicate NonIncreasing(s: seq<Standing>) {
    forall i, j :: 0 <= i < j < |s| ==> s[i].Key() >= s[j].Key()
  }

  function WithKey(s: seq<Standing>, key: int): seq<Standing> {
    if s == [] then []
    else WithKey(s[..|s| - 1], key) + if s[|s| - 1].Key() == key then [s[|s| - 1]] else []
  }

  /** How many standings are ahead of a key. */
  function Above(s: seq<Standing>, key: int): nat {
    if s == [] then 0
    else Above(s[..|s| - 1], key) + if s[|s| - 1].Key() > key then 1 else 0
  }

  lemma Append(s: seq<Standing>, x: Standing, key: int)
    ensures WithKey(s + [x], key) == WithKey(s, key) + if x.Key() == key then [x] else []
    ensures Above(s + [x], key) == Above(s, key) + if x.Key() > key then 1 else 0
  {
    assert (s + [x])[..|s|] == s;
  }

  lemma {:induction false} InsertKeepsAll(sorted: seq<Standing>, x: Standing)
    ensures multiset(InsertStable(sorted, x)) == multiset(sorted) + multiset{x}
  {
    if sorted != [] && sorted[|sorted| - 1].Key() < x.Key() {
      InsertKeepsAll(sorted[..|sorted| - 1], x);
      assert sorted == sorted[..|sorted| - 1] + [sorted[|sorted| - 1]];
    }
  }

  lemma {:induction false} InsertCounts(sorted: seq<Standing>, x: Standing, key: int)
    ensures WithKey(InsertStable(sorted, x), key) == WithKey(sorted, key) + if x.Key() == key then [x] else []
    ensures Above(InsertStable(sorted, x), key) == Above(sorted, key) + if x.Key() > key then 1 else 0
  {
    if sorted != [] && sorted[|sorted| - 1].Key() < x.Key() {
      var init, last := sorted[..|sorted| - 1], sorted[|sorted| - 1];
      InsertCounts(init, x, key);
      Append(InsertStable(init, x), last, key);
      if x.Key() == key {
        assert WithKey(init, key) + [x] + [] == WithKey(init, key) + [] + [x];
      } else if last.Key() == key {
        assert WithKey(init, key) + [] + [last] == WithKey(init, key) + [last] + [];
      }
    } else {
      Append(sorted, x, key);
    }
  }

  lemma {:induction false} InsertSorts(sorted: seq<Standing>, x: Standing)
    requires NonIncreasing(sorted)
    ensures NonIncreasing(InsertStable(sorted, x))
    ensures forall y :: y in InsertStable(sorted, x) <==> y in sorted || y == x
  {
    if sorted != [] && sorted[|sorted| - 1].Key() < x.Key() {
      var init, last := sorted[..|sorted| - 1], sorted[|sorted| - 1];
      var r := InsertStable(init, x);
      InsertSorts(init, x);
      assert forall y :: y in sorted <==> y in init || y == last;
      forall i | 0 <= i < |r|
        ensures r[i].Key() >= last.Key()
      {
        assert r[i] in r;
      }
    }
  }

  /** Order sorts by key, loses and invents nobody, and keeps the input order inside every tie. */
  lemma {:induction false} SortedIsStableSort(s: seq<Standing>, key: int)
    ensures NonIncreasing(Sorted(s))
    ensures multiset(Sorted(s)) == multiset(s)
    ensures WithKey(Sorted(s), key) == WithKey(s, key)
    ensures Above(Sorted(s), key) == Above(s, key)
  {
    if s != [] {
      var init, x := s[..|s| - 1], s[|s| - 1];
      assert s == init + [x];
      SortedIsStableSort(init, key);
      InsertSorts(Sorted(init), x);
      InsertKeepsAll(Sorted(init), x);
      InsertCounts(Sorted(init), x, key);
      Append(init, x, key);
    }
  }

  /** Nothing else is a stable sort: these properties determine the order. */
  lemma {:induction false} StableSortIsUnique(a: seq<Standing>, b: seq<Standing>)
    requires NonIncreasing(a) && NonIncreasing(b)
    requires forall key :: WithKey(a, key) == WithKey(b, key)
    ensures a == b
  {
    if a == [] || b == [] {
      ghost var key := if a != [] then a[|a| - 1].Key() else if b != [] then b[|b| - 1].Key() else 0;
      assert WithKey(a, key) == WithKey(b, key);
    } else {
      var x, y := a[|a| - 1], b[|b| - 1];
      LastIsLast(a, b);
      LastIsLast(b, a);
      assert WithKey(a, x.Key()) == WithKey(b, x.Key());
      assert WithKey(a, x.Key())[|WithKey(a, x.Key())| - 1] == x;
      assert x == y;
      assert a == a[..|a| - 1] + [x] && b == b[..|b| - 1] + [x];
      forall key: int {:trigger WithKey(a[..|a| - 1], key)}
        ensures WithKey(a[..|a| - 1], key) == WithKey(b[..|b| - 1], key)
      {
        assert WithKey(a, key) == WithKey(b, key);
        SameGroupsWithoutLast(a[..|a| - 1], b[..|b| - 1], x, key);
      }
      StableSortIsUnique(a[..|a| - 1], b[..|b| - 1]);
    }
  }

  lemma SameGroupsWithoutLast(a: seq<Standing>, b: seq<Standing>, x: Standing, key: int)
    requires WithKey(a + [x], key) == WithKey(b + [x], key)
    ensures WithKey(a, key) == WithKey(b, key)
  {
    var u, v := WithKey(a, key), WithKey(b, key);
    Append(a, x, key);
    Append(b, x, key);
    if x.Key() == key {
      assert u + [x] == v + [x] && |u| == |v|;
      assert u == (u + [x])[..|u|] == (v + [x])[..|v|] == v;
    } else {
      assert u == u + [] == v + [] == v;
    }
  }

  /** The smallest key of a sorted list occurs in every list with the same groups. */
  lemma LastIsLast(a: seq<Standing>, b: seq<Standing>)
    requires a != [] && b != [] && NonIncreasing(a) && NonIncreasing(b)
    requires forall key :: WithKey(a, key) == WithKey(b, key)
    ensures a[|a| - 1].Key() >= b[|b| - 1].Key()
  {
    var x := a[|a| - 1];
    assert WithKey(a, x.Key()) == WithKey(b, x.Key()) != [];
    WithKeyMembers(b, x.Key());
  }

  lemma {:induction false} WithKeyMembers(s: seq<Standing>, key: int)
    ensures WithKey(s, key) != [] ==> exists i :: 0 <= i < |s| && s[i].Key() == key
  {
    if s != [] {
      WithKeyMembers(s[..|s| - 1], key);
      if WithKey(s, key) != [] {
        if s[|s| - 1].Key() == key { assert s[|s| - 1].Key() == key; }
        else {
          var i :| 0 <= i < |s| - 1 && s[..|s| - 1][i].Key() == key;
          assert s[i].Key() == key;
        }
      }
    }
  }

  // ---------------------------------------------------------------- keys mean the three criteria

  /** On bounded standings the folded number is exact in a float64 and compares like the three criteria. */
  lemma KeyFoldsTheCriteria(a: Standing, b: Standing)
    requires a.Bounded() && b.Bounded()
    ensures 0 <= a.score * SCORE_UNIT + a.correct * CORRECT_UNIT <= a.Key() < FLOAT_EXACT
    ensures a.Key() > b.Key() <==> a.Better(b)
    ensures a.Key() == b.Key() <==> a.Ties(b)
  {
  }

  /** SQL's RANK() OVER (ORDER BY score DESC, correct DESC, total_ms ASC). */
  function SqlRank(s: seq<Standing>, x: Standing): nat {
    1 + BetterCount(s, x)
  }

  function BetterCount(s: seq<Standing>, x: Standing): nat {
    if s == [] then 0
    else BetterCount(s[..|s| - 1], x) + if s[|s| - 1].Better(x) then 1 else 0
  }

  lemma {:induction false} BetterCountIsAbove(s: seq<Standing>, x: Standing)
    requires x.Bounded() && forall y :: y in s ==> y.Bounded()
    ensures BetterCount(s, x) == Above(s, x.Key())
  {
    if s != [] {
      BetterCountIsAbove(s[..|s| - 1], x);
      KeyFoldsTheCriteria(s[|s| - 1], x);
    }
  }

  lemma {:induction false} AboveAtMost(s: seq<Standing>, key: int)
    ensures Above(s, key) <= |s|
  {
    if s != [] { AboveAtMost(s[..|s| - 1], key); }
  }

  /** In a sorted list those with a larger key come first, and nobody else is among them. */
  lemma {:induction false} AboveIsAPrefix(s: seq<Standing>, key: int, i: nat)
    requires NonIncreasing(s) && i < |s|
    ensures i < Above(s, key) <==> s[i].Key() > key
  {
    var init, last := s[..|s| - 1], s[|s| - 1];
    AboveAtMost(init, key);
    if init != [] {
      AboveIsAPrefix(init, key, if i < |init| then i else |init| - 1);
      AboveIsAPrefix(init, key, |init| - 1);
    }
  }

  /** The rank SQL assigns splits the order: exactly the better ones stand before that position. */
  lemma SqlRankSplitsTheOrder(s: seq<Standing>, i: nat, j: nat)
    requires i < |s| && j < |s| && forall y :: y in s ==> y.Bounded()
    ensures i < SqlRank(s, Sorted(s)[j]) - 1 <==> Sorted(s)[i].Better(Sorted(s)[j])
  {
    var t := Sorted(s);
    var key := t[j].Key();
    SortedIsStableSort(s, key);
    SortedMembers(s);
    assert t[i] in t && t[j] in t;
    KeyFoldsTheCriteria(t[i], t[j]);
    AboveIsAPrefix(t, key, i);
    BetterCountIsAbove(s, t[j]);
  }

  /** So the position Order gives the first of each tied group is the rank of the whole group. */
  lemma FirstOfTieHasSqlRank(s: seq<Standing>, i: nat)
    requires i < |s| && forall y :: y in s ==> y.Bounded()
    requires i == 0 || !Sorted(s)[i - 1].Ties(Sorted(s)[i])
    ensures SqlRank(s, Sorted(s)[i]) == i + 1
  {
    hide Sorted, BetterCount, Standing.Better;
    BetterThanItself(Sorted(s)[i]);
    SqlRankSplitsTheOrder(s, i, i);
    if i > 0 {
      SqlRankSplitsTheOrder(s, i - 1, i);
      SortedByCriteria(s, i - 1, i);
    }
  }

  lemma BetterThanItself(x: Standing)
    ensures !x.Better(x)
  {
  }

  /** Whoever comes earlier has the larger score, or else more correct answers, or else less time, or ties in all. */
  lemma SortedByCriteria(s: seq<Standing>, i: nat, j: nat)
    requires i < j < |s| && forall y :: y in s ==> y.Bounded()
    ensures Sorted(s)[i].Better(Sorted(s)[j]) || Sorted(s)[i].Ties(Sorted(s)[j])
  {
    var t := Sorted(s);
    SortedIsStableSort(s, 0);
    SortedMembers(s);
    assert t[i] in t && t[j] in t;
    KeyFoldsTheCriteria(t[i], t[j]);
    KeyFoldsTheCriteria(t[j], t[i]);
  }

  // ---------------------------------------------------------------- ties keep their places

  /** Where in its group the i-th standing is. */
  lemma {:induction false} PlaceInGroup(s: seq<Standing>, i: nat)
    requires i < |s|
    ensures var key := s[i].Key();
      |WithKey(s[..i], key)| < |WithKey(s, key)| && WithKey(s, key)[|WithKey(s[..i], key)|] == s[i]
  {
    var init := s[..|s| - 1];
    if i < |init| {
      assert init[..i] == s[..i];
      PlaceInGroup(init, i);
    }
  }

  /** Which standing is k-th in its group. */
  lemma {:induction false} MemberOfGroup(s: seq<Standing>, key: int, k: nat) returns (i: nat)
    requires k < |WithKey(s, key)|
    ensures i < |s| && s[i] == WithKey(s, key)[k] && |WithKey(s[..i], key)| == k
  {
    var init := s[..|s| - 1];
    if k < |WithKey(init, key)| {
      i := MemberOfGroup(init, key, k);
      assert init[..i] == s[..i];
    } else {
      i := |s| - 1;
    }
  }

  lemma {:induction false} GroupsGrow(s: seq<Standing>, key: int, i: nat, j: nat)
    requires i <= j <= |s|
    ensures |WithKey(s[..i], key)| <= |WithKey(s[..j], key)|
    decreases j
  {
    if i < j {
      assert s[..j][..j - 1] == s[..j - 1];
      GroupsGrow(s, key, i, j - 1);
    }
  }

  lemma GroupsGrowPast(s: seq<Standing>, i: nat, j: nat)
    requires i < j <= |s|
    ensures |WithKey(s[..i], s[i].Key())| < |WithKey(s[..j], s[i].Key())|
  {
    assert s[..i + 1][..i] == s[..i];
    GroupsGrow(s, s[i].Key(), i + 1, j);
  }

  /** Standings with equal keys come in the order of the input. */
  lemma TiesKeepTheirOrder(s: seq<Standing>, i: nat, j: nat) returns (a: nat, b: nat)
    requires i < j < |s| && Sorted(s)[i].Key() == Sorted(s)[j].Key()
    ensures a < b < |s| && s[a] == Sorted(s)[i] && s[b] == Sorted(s)[j]
  {
    var t := Sorted(s);
    var key := t[i].Key();
    SortedIsStableSort(s, key);
    PlaceInGroup(t, i);
    PlaceInGroup(t, j);
    GroupsGrowPast(t, i, j);
    a := MemberOfGroup(s, key, |WithKey(t[..i], key)|);
    b := MemberOfGroup(s, key, |WithKey(t[..j], key)|);
    if b <= a { GroupsGrow(s, key, b, a); }
  }

  lemma SortedMembers(s: seq<Standing>)
    ensures forall x :: x in Sorted(s) <==> x in s
  {
    SortedIsStableSort(s, 0);
    forall x ensures x in Sorted(s) <==> x in s {
      assert x in multiset(Sorted(s)) <==> x in multiset(s);
    }
  }

  // ---------------------------------------------------------------- the in-place sort

  /** One round of the insertion sort: swaps element i left past every smaller key. */
  method MoveLeft(a: array<Standing>, i: nat)
    requires i < a.Length
    modifies a
    ensures a[..i + 1] == InsertStable(old(a[..i]), old(a[i]))
    ensures a[i + 1..] == old(a[i + 1..])
  {
    ghost var before, x := a[..i], a[i];
    var j := i;
    while j > 0 && a[j].Key() > a[j - 1].Key()
      invariant 0 <= j <= i && a[j] == x
      invariant a[..j] == before[..j]
      invariant InsertStable(before, x) == InsertStable(before[..j], x) + a[j + 1..i + 1]
      invariant a[i + 1..] == old(a[i + 1..])
    {
      ghost var right := a[j + 1..i + 1];
      assert before[..j][..j - 1] == before[..j - 1];
      a[j], a[j - 1] := a[j - 1], a[j];
      j := j - 1;
      assert a[j + 1..i + 1] == [before[j]] + right;
    }
    assert j > 0 ==> before[..j][j - 1] == a[j - 1];
    assert a[..i + 1] == before[..j] + [x] + a[j + 1..i + 1];
  }

  /** sort.SliceStable on a short slice: an insertion sort. */
  method SortInPlace(a: array<Standing>)
    modifies a
    ensures a[..] == Sorted(old(a[..]))
  {
    ghost var was := a[..];
    for i := 0 to a.Length
      invariant a[..i] == Sorted(was[..i])
      invariant a[i..] == was[i..]
    {
      assert a[i] == a[i..][0] && a[i + 1..] == a[i..][1..];
      assert was[..i + 1][..i] == was[..i];
      MoveLeft(a, i);
    }
    assert a[..] == a[..a.Length] && was == was[..a.Length];
  }

  method OrderStandings(standings: seq<Standing>) returns (ids: seq<PlayerId>)
    ensures ids == Order(standings)
  {
    var sorted := new Standing[|standings|](i requires 0 <= i < |standings| => standings[i]);
    assert sorted[..] == standings;
    SortInPlace(sorted);
    ids := [];
    for i := 0 to sorted.Length
      invariant ids == Ids(sorted[..])[..i]
    {
      ids := ids + [sorted[i].player];
    }
  }
}
