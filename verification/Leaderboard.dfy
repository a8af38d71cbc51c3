/** The Redis sorted set of one room: a key per member, read back best first (api/internal/leaderboard/redis.go). */
module Leaderboard {
  import opened Common
  import opened Rank

  type Entries = map<PlayerId, int>

  /** ZADD: later standings of the same player overwrite earlier ones. */
  function Added(entries: Entries, standings: seq<Standing>): Entries {
    if standings == [] then entries
    else
      var last := standings[|standings| - 1];
      Added(entries, standings[..|standings| - 1])[last.player := last.Key()]
  }

  /** ZRANGE ... REV: larger keys first, equal keys by member in reverse lexical order. */
  predicate Ahead(entries: Entries, a: PlayerId, b: PlayerId)
    requires a in entries && b in entries
  {
    entries[a] > entries[b] || (entries[a] == entries[b] && a > b)
  }

  ghost predicate IsTop(entries: Entries, x: PlayerId) {
    x in entries && forall y :: y in entries && y != x ==> Ahead(entries, x, y)
  }

  lemma {:induction false} SomeoneIsTop(entries: Entries)
    requires entries != map[]
    ensures exists x :: IsTop(entries, x)
    decreases |entries|
  {
    var z :| z in entries;
    var rest := entries - {z};
    if rest == map[] {
      assert forall y :: y in entries && y != z ==> y in rest;
      assert IsTop(entries, z);
    } else {
      SomeoneIsTop(rest);
      var x :| IsTop(rest, x);
      if Ahead(entries, z, x) {
        assert IsTop(entries, z) by {
          forall y | y in entries && y != z ensures Ahead(entries, z, y) { assert y in rest; }
        }
      } else {
        assert IsTop(entries, x) by {
          forall y | y in entries && y != x ensures Ahead(entries, x, y) { if y != z { assert y in rest; } }
        }
      }
    }
  }

  ghost function Top(entries: Entries): (x: PlayerId)
    requires entries != map[]
    ensures IsTop(entries, x)
  {
    SomeoneIsTop(entries);
    var x :| IsTop(entries, x);
    x
  }

  ghost function Ranked(entries: Entries): (r: seq<PlayerId>)
    ensures |r| == |entries|
    decreases |entries|
  {
    if entries == map[] then [] else [Top(entries)] + Ranked(entries - {Top(entries)})
  }

  /** s lists members of the sorted set, each ahead of all that follow. */
  ghost predicate InOrder(entries: Entries, s: seq<PlayerId>) {
    && (forall i :: 0 <= i < |s| ==> s[i] in entries)
    && (forall i, j :: 0 <= i < j < |s| ==> Ahead(entries, s[i], s[j]))
  }

  lemma {:induction false} RankedMembers(entries: Entries)
    ensures forall x :: x in Ranked(entries) <==> x in entries
    decreases |entries|
  {
    if entries != map[] { RankedMembers(entries - {Top(entries)}); }
  }

  lemma {:induction false} RankedInOrder(entries: Entries)
    ensures InOrder(entries, Ranked(entries))
    decreases |entries|
  {
    if entries != map[] {
      var x := Top(entries);
      var rest := entries - {x};
      RankedInOrder(rest);
      InOrderCons(entries, x, Ranked(rest));
    }
  }

  lemma InOrderCons(entries: Entries, x: PlayerId, s: seq<PlayerId>)
    requires IsTop(entries, x) && InOrder(entries - {x}, s)
    ensures InOrder(entries, [x] + s)
  {
    assert forall i :: 0 <= i < |s| ==> s[i] in entries - {x} && s[i] != x;
    forall i, j | 0 <= i < j < |[x] + s| ensures Ahead(entries, ([x] + s)[i], ([x] + s)[j]) {
      assert ([x] + s)[j] == s[j - 1];
      if i > 0 { assert Ahead(entries - {x}, s[i - 1], s[j - 1]); }
    }
  }

  /** Reading the set back lists every member once, larger keys first. */
  lemma RankedListsEntries(entries: Entries)
    ensures forall x :: x in Ranked(entries) <==> x in entries
    ensures Distinct(Ranked(entries)) && InOrder(entries, Ranked(entries))
  {
    RankedMembers(entries);
    RankedInOrder(entries);
  }

  ghost predicate Mentions(standings: seq<Standing>, p: PlayerId) {
    exists i :: 0 <= i < |standings| && standings[i].player == p
  }

  lemma MentionsLast(standings: seq<Standing>, p: PlayerId)
    requires standings != []
    ensures Mentions(standings, p) <==>
      Mentions(standings[..|standings| - 1], p) || standings[|standings| - 1].player == p
  {
    if Mentions(standings, p) && standings[|standings| - 1].player != p {
      var i :| 0 <= i < |standings| && standings[i].player == p;
      assert standings[..|standings| - 1][i].player == p;
    }
  }

  lemma {:induction false} AddedKeys(entries: Entries, standings: seq<Standing>, p: PlayerId)
    ensures p in Added(entries, standings) <==> p in entries || Mentions(standings, p)
    ensures p in entries && !Mentions(standings, p) ==> Added(entries, standings)[p] == entries[p]
  {
    if standings != [] {
      AddedKeys(entries, standings[..|standings| - 1], p);
      MentionsLast(standings, p);
    }
  }

  lemma {:induction false} AddedValue(entries: Entries, standings: seq<Standing>, i: nat)
    requires i < |standings| && forall j, k :: 0 <= j < k < |standings| ==> standings[j].player != standings[k].player
    ensures standings[i].player in Added(entries, standings)
    ensures Added(entries, standings)[standings[i].player] == standings[i].Key()
  {
    if i < |standings| - 1 { AddedValue(entries, standings[..|standings| - 1], i); }
  }
}
