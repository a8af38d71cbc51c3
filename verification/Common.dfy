/** Vocabulary shared by every module: optional values, identifiers and time. */
module Common {
  datatype Option<+T> = None | Some(value: T)

  /** A UUID as a 128-bit number: the order of the lower-case texts is the order of the numbers. */
  type PlayerId = nat
  type QuestionId = string
  type OptionId = string
  type SinkId = nat

  // Instants and durations are whole nanoseconds.
  const NS_PER_MS: nat := 1_000_000
  const NS_PER_SECOND: nat := 1_000_000_000

  /** A session lasts at most this long. */
  const MAX_ROOM_DURATION: nat := 12 * 60 * NS_PER_SECOND

  /** A room holds at most this many players. */
  const MAX_PLAYERS := 15

  predicate TimeIsUp(startedAt: nat, now: nat) {
    now - startedAt >= MAX_ROOM_DURATION
  }

  /** time.Duration.Milliseconds: division that truncates toward zero. */
  function Milliseconds(d: int): int {
    if d >= 0 then d / NS_PER_MS else -((-d) / NS_PER_MS)
  }

  function Min(a: int, b: int): int {
    if a < b then a else b
  }

  function Max(a: int, b: int): int {
    if a > b then a else b
  }

  ghost predicate Distinct<T>(s: seq<T>) {
    forall i, j :: 0 <= i < j < |s| ==> s[i] != s[j]
  }

  function Members<T>(s: seq<T>): set<T> {
    set x | x in s
  }

  /** The sequence without the first occurrence. */
  function Without<T(==)>(s: seq<T>, x: T): (r: seq<T>)
    ensures forall y :: y in r ==> y in s
    ensures forall y :: y in s && y != x ==> y in r
    ensures Distinct(s) ==> Distinct(r) && x !in r
  {
    if s == [] then []
    else if s[0] == x then s[1..]
    else
      assert Distinct(s) ==> Distinct(s[1..]) && s[0] !in s[1..];
      [s[0]] + Without(s[1..], x)
  }

  lemma MembersOfLonger<T>(s: seq<T>, last: T)
    ensures Members(s + [last]) == Members(s) + {last}
  {
  }

  /** A repetition-free sequence has as many elements as its set of elements. */
  lemma {:induction false} DistinctSize<T>(s: seq<T>)
    requires Distinct(s)
    ensures |Members(s)| == |s|
  {
    if s == [] {
      assert Members(s) == {};
    } else {
      var init, last := s[..|s| - 1], s[|s| - 1];
      DistinctSize(init);
      assert s == init + [last];
      assert last !in init;
      MembersOfLonger(init, last);
    }
  }

  lemma SubsetOfSameSize<T>(a: set<T>, b: set<T>)
    requires a <= b && |a| == |b|
    ensures a == b
  {
    assert |b - a| == |b| - |a|;
  }

  lemma {:induction false} AtMostOnce<T>(s: seq<T>, x: T)
    requires Distinct(s)
    ensures multiset(s)[x] <= 1
  {
    if s != [] {
      AtMostOnce(s[..|s| - 1], x);
      assert s == s[..|s| - 1] + [s[|s| - 1]];
    }
  }
}
