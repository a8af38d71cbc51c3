/** What a room talks to: the store, the leaderboard in Redis, and the connections. */
module Services {
  import opened Common
  import opened Rank
  import opened Database
  import opened RoomSpec

  /**
   * The tables of one room (api/internal/store). A statement that fails leaves the transaction to be rolled back;
   * fault says what happens to the call as a whole.
   */
  class Store {
    var status: Status
    var startedAt: nat
    var rows: map<PlayerId, Row>
    var answers: map<PlayerId, map<QuestionId, Answer>>
    var joined: seq<PlayerId>

    constructor ()
      ensures View() == Tables(Lobby, 0, map[], map[], [])
    {
      status, startedAt, rows, answers, joined := Lobby, 0, map[], map[], [];
    }

    ghost function View(): Tables
      reads this
    {
      Tables(status, startedAt, rows, answers, joined)
    }

    /** INSERT ... ON CONFLICT DO NOTHING: how many rows were inserted, or none for a violated constraint. */
    method InsertAnswer(player: PlayerId, question: QuestionId, a: Answer) returns (inserted: Option<nat>)
      modifies this`answers
      ensures inserted.None? <==>
        player !in rows || player !in old(answers) || (question !in old(answers)[player] && a.points < 0)
      ensures inserted == Some(0) ==> question in old(answers)[player]
      ensures inserted.Some? && inserted != Some(0) ==> question !in old(answers)[player] && inserted == Some(1)
      ensures inserted == Some(1) ==> answers == old(answers)[player := old(answers)[player][question := a]]
      ensures inserted != Some(1) ==> answers == old(answers)
    {
      if player !in rows || player !in answers { return None; }
      if question in answers[player] { return Some(0); }
      if a.points < 0 { return None; }
      answers := answers[player := answers[player][question := a]];
      return Some(1);
    }

    /** UPDATE: finished_at is set once. False for a violated constraint. */
    method UpdatePlayerProgress(r: Result, wall: nat) returns (ok: bool)
      modifies this`rows
      ensures r.player in old(rows) ==>
        var row := ProgressRow(r, old(rows)[r.player], wall);
        && (ok <==> row.totalMs >= 0 && 0 <= row.index <= 15 && row.streak >= 0)
        && rows == if ok then old(rows)[r.player := row] else old(rows)
      ensures r.player !in old(rows) ==> ok && rows == old(rows)
    {
      ok := true;
      if r.player in rows {
        var finishedAt := rows[r.player].finishedAt;
        if r.finished && finishedAt.None? { finishedAt := Some(wall); }
        var row := Row(ToInt32(r.score), ToInt16(r.correct), ToInt32(r.totalMs), ToInt16(r.index), ToInt16(r.streak),
                       finishedAt);
        if row.totalMs < 0 || row.index < 0 || row.index > 15 || row.streak < 0 { return false; }
        rows := rows[r.player := row];
      }
    }

    /** Both statements or none. */
    method SaveResult(r: Result, fault: Fault, wall: nat) returns (error: SaveError)
      requires Consistent(View())
      modifies this
      ensures (View(), error) == Database.SaveResult(old(View()), r, fault, wall)
    {
      if fault.Refused? { return OtherError; }
      var before := answers;
      var inserted := InsertAnswer(r.player, r.question, r.answer.(points := ToInt16(r.answer.points)));
      if inserted.None? { return OtherError; }
      if inserted == Some(0) { return DuplicateAnswer; }
      var updated := UpdatePlayerProgress(r, wall);
      if !updated {
        answers := before;
        return OtherError;
      }
      error := if fault.AckLost? then OtherError else Saved;
    }

    method DeletePlayer(p: PlayerId, fault: Fault) returns (ok: bool)
      modifies this
      ensures (View(), ok) == Database.DeletePlayer(old(View()), p, fault)
    {
      if fault.Refused? { return false; }
      rows, answers := rows - {p}, answers - {p};
      joined := RemoveId(joined, p);
      ok := fault.Works?;
    }

    method InsertPlayer(p: PlayerId, place: nat)
      modifies this
      ensures View() == Database.InsertPlayer(old(View()), p, place)
    {
      var k := Min(place, |joined|);
      rows, answers, joined := rows[p := NEW_ROW], answers[p := map[]], joined[..k] + [p] + joined[k..];
    }

    method MarkRoomStarted(fault: Fault, wall: nat) returns (started: bool, failed: bool)
      modifies this
      ensures (View(), started, failed) == Database.MarkRoomStarted(old(View()), fault, wall)
    {
      if fault.Refused? { return false, true; }
      failed := fault.AckLost?;
      started := status.Lobby? && !failed;
      if status.Lobby? { status, startedAt := Running, wall; }
    }

    method MarkRoomEnded(fault: Fault)
      modifies this
      ensures View() == Database.MarkRoomEnded(old(View()), fault)
    {
      if !fault.Refused? { status := Ended; }
    }
  }

  /** The list without the first occurrence, closing the gap. */
  method RemoveId(ids: seq<PlayerId>, id: PlayerId) returns (r: seq<PlayerId>)
    ensures r == Without(ids, id)
  {
    for i := 0 to |ids|
      invariant forall j :: 0 <= j < i ==> ids[j] != id
    {
      if ids[i] == id {
        WithoutAt(ids, i, id);
        return ids[..i] + ids[i + 1..];
      }
    }
    WithoutAbsent(ids, id);
    return ids;
  }

  lemma {:induction false} WithoutAt(ids: seq<PlayerId>, i: nat, id: PlayerId)
    requires i < |ids| && ids[i] == id && forall j :: 0 <= j < i ==> ids[j] != id
    ensures Without(ids, id) == ids[..i] + ids[i + 1..]
  {
    if i > 0 {
      WithoutAt(ids[1..], i - 1, id);
      assert ids[1..][..i - 1] == ids[1..i] && ids[1..][i..] == ids[i + 1..];
      assert ids[..i] == [ids[0]] + ids[1..i];
    }
  }

  lemma {:induction false} WithoutAbsent(ids: seq<PlayerId>, id: PlayerId)
    requires id !in ids
    ensures Without(ids, id) == ids
  {
    if ids != [] {
      WithoutAbsent(ids[1..], id);
    }
  }

  /** The sorted set of one room (api/internal/leaderboard/redis.go). */
  class Board {
    var entries: Leaderboard.Entries

    constructor ()
      ensures entries == map[]
    {
      entries := map[];
    }

    /** ZADD of all standings, or a failure that leaves the set as it was. */
    method Save(standings: seq<Standing>, applied: bool)
      modifies this
      ensures entries == if applied then Leaderboard.Added(old(entries), standings) else old(entries)
    {
      if |standings| == 0 || !applied { return; }
      for i := 0 to |standings|
        invariant entries == Leaderboard.Added(old(entries), standings[..i])
      {
        entries := entries[standings[i].player := standings[i].Key()];
        assert standings[..i + 1][..i] == standings[..i];
      }
      assert standings[..|standings|] == standings;
    }

    /** ZRANGE ... REV after Redis has dropped some entries. */
    method Order(evicted: set<PlayerId>, reads_: bool) returns (ids: Option<seq<PlayerId>>)
      modifies this
      ensures entries == old(entries) - evicted
      ensures ids == if reads_ then Some(Leaderboard.Ranked(entries)) else None
    {
      entries := entries - evicted;
      if !reads_ { return None; }
      var all := ReverseRange(entries);
      return Some(all);
    }

    method Forget(p: PlayerId, applied: bool)
      modifies this
      ensures entries == if applied then old(entries) - {p} else old(entries)
    {
      if applied { entries := entries - {p}; }
    }
  }

  method ReverseRange(entries: Leaderboard.Entries) returns (ids: seq<PlayerId>)
    ensures ids == Leaderboard.Ranked(entries)
  {
    hide Leaderboard.Ranked;
    ids := [];
    var rest := entries;
    while rest != map[]
      invariant Leaderboard.Ranked(entries) == ids + Leaderboard.Ranked(rest)
      decreases |rest|
    {
      var best := Best(rest);
      RankedUnfolds(rest);
      assert ids + Leaderboard.Ranked(rest) == ids + [best] + Leaderboard.Ranked(rest - {best});
      ids, rest := ids + [best], rest - {best};
    }
    RankedUnfolds(rest);
  }

  lemma RankedUnfolds(entries: Leaderboard.Entries)
    ensures Leaderboard.Ranked(entries)
         == if entries == map[] then []
            else [Leaderboard.Top(entries)] + Leaderboard.Ranked(entries - {Leaderboard.Top(entries)})
  {
  }

  /** The first entry of the reversed range. */
  method Best(entries: Leaderboard.Entries) returns (best: PlayerId)
    requires entries != map[]
    ensures best in entries && best == Leaderboard.Top(entries)
  {
    var keys := entries.Keys;
    best :| best in keys;
    keys := keys - {best};
    while keys != {}
      invariant best in entries && keys <= entries.Keys && best !in keys
      invariant forall y :: y in entries && y !in keys && y != best ==> Leaderboard.Ahead(entries, best, y)
    {
      var k :| k in keys;
      keys := keys - {k};
      if entries[k] > entries[best] || (entries[k] == entries[best] && k > best) { best := k; }
    }
    assert Leaderboard.IsTop(entries, best);
    Leaderboard.SomeoneIsTop(entries);
    assert Leaderboard.IsTop(entries, Leaderboard.Top(entries));
  }

  /** Everything sent to the connections and closed so far. */
  class Network {
    var wire: Wire

    constructor ()
      ensures wire == map[]
    {
      wire := map[];
    }

    method Open(s: SinkId)
      requires s !in wire
      modifies this
      ensures wire == old(wire)[s := []]
    {
      wire := wire[s := []];
    }

    method Send(s: SinkId, m: Packet)
      requires s in wire
      modifies this
      ensures wire == Tell(old(wire), {s}, m)
    {
      wire := wire[s := wire[s] + [m]];
    }

    method Close(s: SinkId)
      requires s in wire
      modifies this
      ensures wire == Tell(old(wire), {s}, Closed)
    {
      wire := wire[s := wire[s] + [Closed]];
    }
  }
}
