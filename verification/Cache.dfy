/** The Redis leaderboard is a cache that may lose anything, and every ranking sent to clients is still right. */
module Cache {
  import opened Common
  import opened Questions
  import opened Scoring
  import opened Rank
  import opened Database
  import opened RoomSpec
  import opened World
  import Messages

  function KeyOf(id: PlayerId, p: Player): int {
    StandingOf(id, p.progress).Key()
  }

  /** What Redis holds about current players is up to date. */
  ghost predicate Cached(c: Config, r: Room) {
    c.hasBoard ==> forall p :: p in r.board && p in r.players ==> r.board[p] == KeyOf(p, r.players[p])
  }

  /** The current players, each exactly once, better ones first. */
  ghost predicate Ranks(players: map<PlayerId, Player>, ids: seq<PlayerId>) {
    && Distinct(ids) && (forall p :: p in ids <==> p in players)
    && (forall i, j :: 0 <= i < j < |ids| ==> KeyOf(ids[i], players[ids[i]]) >= KeyOf(ids[j], players[ids[j]]))
  }

  // ---------------------------------------------------------------- one ranking

  /** A repetition-free list of players as long as the set of players names them all. */
  lemma CoveringListsAll(players: map<PlayerId, Player>, ids: seq<PlayerId>)
    requires Distinct(ids) && CoversAllPlayers(players, ids)
    ensures forall p :: p in ids <==> p in players
  {
    DistinctSize(ids);
    SubsetOfSameSize(Members(ids), players.Keys);
    assert forall p :: p in Members(ids) <==> p in ids;
  }

  lemma SortedHasTheirKeys(r: Room, k: nat)
    requires WellFormed(r) && k < |r.order|
    ensures var x := Sorted(Standings(r.players, r.order))[k];
      x.player in r.players && x.Key() == KeyOf(x.player, r.players[x.player])
  {
    var s := Standings(r.players, r.order);
    SortedMembers(s);
    assert Sorted(s)[k] in s;
    hide Sorted;
    var i :| 0 <= i < |s| && s[i] == Sorted(s)[k];
    assert r.order[i] in r.players;
  }

  lemma SortedKeysFall(s: seq<Standing>, i: nat, j: nat)
    requires i < j < |s|
    ensures Sorted(s)[i].Key() >= Sorted(s)[j].Key()
  {
    SortedIsStableSort(s, 0);
  }

  lemma OrderListsEachOnce(r: Room)
    requires WellFormed(r)
    ensures var ids := Order(Standings(r.players, r.order));
      |ids| == |r.order| && Distinct(ids) && forall p :: p in ids <==> p in r.players
  {
    hide Order;
    OrderedIdsArePlayers(r.players, r.order);
    SameMembersSameDistinctness(r.order, Order(Standings(r.players, r.order)));
  }

  lemma MemoryRanks(r: Room)
    requires WellFormed(r)
    ensures Ranks(r.players, Order(Standings(r.players, r.order)))
  {
    OrderListsEachOnce(r);
    var s := Standings(r.players, r.order);
    var ids := Order(s);
    hide Sorted, KeyOf, WellFormed;
    forall i, j | 0 <= i < j < |ids|
      ensures KeyOf(ids[i], r.players[ids[i]]) >= KeyOf(ids[j], r.players[ids[j]])
    {
      SortedHasTheirKeys(r, i);
      SortedHasTheirKeys(r, j);
      SortedKeysFall(s, i, j);
    }
  }

  /** A sequence with as many different elements as positions repeats nothing. */
  lemma {:induction false} FullSizeIsDistinct(s: seq<PlayerId>)
    requires |Members(s)| == |s|
    ensures Distinct(s)
  {
    if s != [] {
      var init, last := s[..|s| - 1], s[|s| - 1];
      assert s == init + [last];
      MembersOfLonger(init, last);
      MembersAreNoMore(init);
      assert last !in Members(init);
      FullSizeIsDistinct(init);
      assert last !in init;
    }
  }

  lemma {:induction false} MembersAreNoMore(s: seq<PlayerId>)
    ensures |Members(s)| <= |s|
  {
    if s == [] {
      assert Members(s) == {};
    } else {
      var init, last := s[..|s| - 1], s[|s| - 1];
      assert s == init + [last];
      MembersOfLonger(init, last);
      MembersAreNoMore(init);
    }
  }

  lemma SameMembersSameDistinctness(a: seq<PlayerId>, b: seq<PlayerId>)
    requires Distinct(a) && |a| == |b| && forall x :: x in a <==> x in b
    ensures Distinct(b)
  {
    DistinctSize(a);
    assert Members(a) == Members(b);
    FullSizeIsDistinct(b);
  }

  lemma RedisRanks(c: Config, r: Room, entries: Leaderboard.Entries)
    requires c.hasBoard && Cached(c, r) && CoversAllPlayers(r.players, Leaderboard.Ranked(entries))
    requires forall p :: p in entries ==> p in r.board && entries[p] == r.board[p]
    ensures Ranks(r.players, Leaderboard.Ranked(entries))
  {
    var ids := Leaderboard.Ranked(entries);
    Leaderboard.RankedListsEntries(entries);
    CoveringListsAll(r.players, ids);
    forall i, j | 0 <= i < j < |ids|
      ensures KeyOf(ids[i], r.players[ids[i]]) >= KeyOf(ids[j], r.players[ids[j]])
    {
      assert Leaderboard.Ahead(entries, ids[i], ids[j]);
      assert ids[i] in r.players && ids[j] in r.players;
    }
  }

  /** Whatever Redis lost or answers, a ranking lists each current player exactly once in the order of the keys. */
  lemma RankingIsRight(c: Config, r: Room, env: Env)
    requires WellFormed(r) && Cached(c, r)
    ensures Ranks(r.players, RankedIds(c, r, env).1)
  {
    hide Ranks, CoversAllPlayers, Order, Standings;
    MemoryRanks(r);
    var entries := r.board - env.evicted;
    if c.hasBoard && CoversAllPlayers(r.players, Leaderboard.Ranked(entries)) { RedisRanks(c, r, entries); }
  }

  /** No player has overtaken another since the entries were written. */
  ghost predicate NotOvertaken(players: map<PlayerId, Player>, entries: Leaderboard.Entries)
    requires players.Keys <= entries.Keys
  {
    forall p, q :: p in players && q in players && KeyOf(p, players[p]) > KeyOf(q, players[q]) ==>
      Leaderboard.Ahead(entries, p, q)
  }

  /** Entries for exactly the players cover them, and nothing else does. */
  lemma CoveringEntries(players: map<PlayerId, Player>, entries: Leaderboard.Entries)
    ensures CoversAllPlayers(players, Leaderboard.Ranked(entries)) <==> entries.Keys == players.Keys
  {
    var ids := Leaderboard.Ranked(entries);
    Leaderboard.RankedListsEntries(entries);
    if CoversAllPlayers(players, ids) { CoveringListsAll(players, ids); }
    assert |players| == |players.Keys| && |entries| == |entries.Keys|;
  }

  lemma RankedIsNotOvertaken(players: map<PlayerId, Player>, entries: Leaderboard.Entries, ids: seq<PlayerId>,
                             p: PlayerId, q: PlayerId)
    requires entries.Keys == players.Keys && Leaderboard.InOrder(entries, ids) && Ranks(players, ids)
    requires p in players && q in players && KeyOf(p, players[p]) > KeyOf(q, players[q])
    ensures Leaderboard.Ahead(entries, p, q)
  {
    assert p in ids && q in ids;
    var i, j :| 0 <= i < |ids| && 0 <= j < |ids| && ids[i] == p && ids[j] == q;
    assert i < j;
  }

  lemma NotOvertakenIsRanked(players: map<PlayerId, Player>, entries: Leaderboard.Entries, ids: seq<PlayerId>, i: nat,
                             j: nat)
    requires entries.Keys == players.Keys && Leaderboard.InOrder(entries, ids) && NotOvertaken(players, entries)
    requires i < j < |ids|
    ensures ids[i] in players && ids[j] in players && KeyOf(ids[i], players[ids[i]]) >= KeyOf(ids[j], players[ids[j]])
  {
    assert ids[i] in entries && ids[j] in entries && Leaderboard.Ahead(entries, ids[i], ids[j]);
  }

  lemma RedisRanksExactly(players: map<PlayerId, Player>, entries: Leaderboard.Entries)
    requires entries.Keys == players.Keys
    ensures Ranks(players, Leaderboard.Ranked(entries)) <==> NotOvertaken(players, entries)
  {
    var ids := Leaderboard.Ranked(entries);
    Leaderboard.RankedListsEntries(entries);
    hide Leaderboard.Ranked, Leaderboard.InOrder, Leaderboard.Ahead, KeyOf;
    if Ranks(players, ids) {
      forall p, q | p in players && q in players && KeyOf(p, players[p]) > KeyOf(q, players[q])
        ensures Leaderboard.Ahead(entries, p, q)
      {
        RankedIsNotOvertaken(players, entries, ids, p, q);
      }
    }
    if NotOvertaken(players, entries) {
      forall i, j | 0 <= i < j < |ids| ensures KeyOf(ids[i], players[ids[i]]) >= KeyOf(ids[j], players[ids[j]]) {
        NotOvertakenIsRanked(players, entries, ids, i, j);
      }
    }
  }

  /**
   * Whether Saves failed or not: a ranking is right exactly if Redis cannot be read, or lacks or adds somebody, or
   * puts nobody ahead of a player with a larger key.
   */
  lemma RankingIsRightExactly(c: Config, r: Room, env: Env)
    requires WellFormed(r)
    ensures var entries := r.board - env.evicted;
      Ranks(r.players, RankedIds(c, r, env).1) <==>
        (c.hasBoard && env.boardReads && entries.Keys == r.players.Keys ==> NotOvertaken(r.players, entries))
  {
    hide Ranks, CoversAllPlayers, Order, Standings, NotOvertaken, WellFormed;
    var entries := r.board - env.evicted;
    MemoryRanks(r);
    CoveringEntries(r.players, entries);
    if entries.Keys == r.players.Keys { RedisRanksExactly(r.players, entries); }
  }

  // ---------------------------------------------------------------- keeping the cache up to date

  /** Every entry is an old one or an up-to-date one of a current player. */
  ghost predicate EntriesFrom(r: Room, s: Room) {
    forall p :: p in s.board ==>
      (p in r.board && s.board[p] == r.board[p]) || (p in s.players && s.board[p] == KeyOf(p, s.players[p]))
  }

  lemma AddedStandings(entries: Leaderboard.Entries, players: map<PlayerId, Player>, order: seq<PlayerId>, p: PlayerId)
    requires Distinct(order) && forall x :: x in order ==> x in players
    ensures var added := Leaderboard.Added(entries, Standings(players, order));
      && (p in order ==> p in added && added[p] == KeyOf(p, players[p]))
      && (p !in order ==> (p in added <==> p in entries) && (p in added ==> added[p] == entries[p]))
  {
    var s := Standings(players, order);
    Leaderboard.AddedKeys(entries, s, p);
    if p in order {
      var i :| 0 <= i < |order| && order[i] == p;
      Leaderboard.AddedValue(entries, s, i);
    }
  }

  lemma RebuildIsCached(c: Config, r: Room, entries: Leaderboard.Entries)
    requires WellFormed(r) && c.hasBoard
    ensures var s := SaveStandings(c, r.(board := entries), Standings(r.players, r.order), true);
      Cached(c, s) && EntriesFrom(r.(board := entries), s)
  {
    hide Standings, Leaderboard.Added;
    var added := Leaderboard.Added(entries, Standings(r.players, r.order));
    forall p ensures
      && (p in r.order ==> p in added && added[p] == KeyOf(p, r.players[p]))
      && (p !in r.order && p in added ==> p in entries && added[p] == entries[p])
    {
      AddedStandings(entries, r.players, r.order, p);
    }
  }

  lemma RankingKeepsCache(c: Config, r: Room, env: Env)
    requires WellFormed(r) && Cached(c, r) && env.boardRebuilds
    ensures var s := RankedIds(c, r, env).0; Cached(c, s) && EntriesFrom(r, s)
  {
    hide Standings, SaveStandings, CoversAllPlayers, Order;
    if c.hasBoard { RebuildIsCached(c, r, r.board - env.evicted); }
  }

  // ---------------------------------------------------------------- what clients are told

  function RowIds(rows: seq<RankRow>): (ids: seq<PlayerId>)
    ensures |ids| == |rows| && forall i :: 0 <= i < |rows| ==> ids[i] == rows[i].player
  {
    seq(|rows|, i requires 0 <= i < |rows| => rows[i].player)
  }

  /** The rows of an lb.update: the current players with their current scores, best first. */
  ghost predicate Lists(players: map<PlayerId, Player>, rows: seq<RankRow>) {
    && Ranks(players, RowIds(rows))
    && forall i :: 0 <= i < |rows| ==>
         rows[i].player in players && rows[i].score == players[rows[i].player].progress.score
         && rows[i].correct == players[rows[i].player].progress.correct
  }

  lemma RankedRowsAreListed(players: map<PlayerId, Player>, ids: seq<PlayerId>)
    requires Ranks(players, ids)
    ensures Lists(players, RankRows(players, ids))
  {
    assert RowIds(RankRows(players, ids)) == ids;
  }

  /** Every lb.update sent between two moments lists the players as they are at the second. */
  ghost predicate News(players: map<PlayerId, Player>, old_: Wire, new_: Wire) {
    forall k, i :: k in new_ && (if k in old_ then |old_[k]| else 0) <= i < |new_[k]| && new_[k][i].Rankings? ==>
      Lists(players, new_[k][i].rows)
  }

  /** Logs only grow. */
  ghost predicate Extends(old_: Wire, new_: Wire) {
    forall k :: k in old_ ==> k in new_ && old_[k] <= new_[k]
  }

  lemma NewsAddsUp(players: map<PlayerId, Player>, a: Wire, b: Wire, d: Wire)
    requires Extends(a, b) && Extends(b, d) && News(players, a, b) && News(players, b, d)
    ensures Extends(a, d) && News(players, a, d)
  {
    hide Lists;
    forall k, i | k in d && (if k in a then |a[k]| else 0) <= i < |d[k]| && d[k][i].Rankings?
      ensures Lists(players, d[k][i].rows)
    {
      if k in b && i < |b[k]| { assert b[k][i] == d[k][i]; }
    }
  }

  lemma TellingIsNews(players: map<PlayerId, Player>, wire: Wire, receivers: set<SinkId>, m: Packet)
    requires receivers <= wire.Keys && (m.Rankings? ==> Lists(players, m.rows))
    ensures Extends(wire, Tell(wire, receivers, m)) && News(players, wire, Tell(wire, receivers, m))
  {
    hide Lists;
  }

  // ---------------------------------------------------------------- one event

  ghost predicate BoardWorks(env: Env) {
    env.boardSaves && env.boardRebuilds
  }

  /** The cache is still right, and whatever was announced in between is right too. */
  ghost predicate KeepsCache(c: Config, r: Room, s: Room) {
    && Cached(c, s) && EntriesFrom(r, s)
    && Extends(r.wire, s.wire) && News(s.players, r.wire, s.wire)
  }

  predicate SameProgress(a: map<PlayerId, Player>, b: map<PlayerId, Player>) {
    a.Keys == b.Keys && forall p :: p in a ==> a[p].progress == b[p].progress
  }

  lemma SameProgressSameLists(a: map<PlayerId, Player>, b: map<PlayerId, Player>, rows: seq<RankRow>)
    requires SameProgress(a, b) && Lists(a, rows)
    ensures Lists(b, rows)
  {
    assert forall i :: 0 <= i < |rows| ==> RowIds(rows)[i] in a;
  }

  lemma SameProgressSameNews(a: map<PlayerId, Player>, b: map<PlayerId, Player>, old_: Wire, new_: Wire)
    requires SameProgress(a, b) && News(a, old_, new_)
    ensures News(b, old_, new_)
  {
    hide Lists;
    forall k, i | k in new_ && (if k in old_ then |old_[k]| else 0) <= i < |new_[k]| && new_[k][i].Rankings?
      ensures Lists(b, new_[k][i].rows)
    {
      SameProgressSameLists(a, b, new_[k][i].rows);
    }
  }

  lemma StepsAddUp(c: Config, r: Room, s: Room, t: Room)
    requires KeepsCache(c, r, s) && KeepsCache(c, s, t) && SameProgress(s.players, t.players)
    ensures KeepsCache(c, r, t)
  {
    hide News, Extends, Cached;
    SameProgressSameNews(s.players, t.players, r.wire, s.wire);
    NewsAddsUp(t.players, r.wire, s.wire, t.wire);
  }

  lemma NothingNew(c: Config, r: Room, s: Room)
    requires Cached(c, r) && s.wire == r.wire && s.board == r.board && SameProgress(r.players, s.players)
    ensures KeepsCache(c, r, s)
  {
    hide Lists;
  }

  lemma SendingKeepsCache(c: Config, r: Room, p: PlayerId, m: Packet)
    requires WellFormed(r) && Cached(c, r) && (m.Rankings? ==> Lists(r.players, m.rows))
    ensures KeepsCache(c, r, SendTo(r, p, m)) && KeepsCache(c, r, Broadcast(r, m))
  {
    hide News, Extends, Tell, Lists;
    TellingIsNews(r.players, r.wire, Held(r), m);
    if p in r.sinks { TellingIsNews(r.players, r.wire, {r.sinks[p]}, m); }
    TellingIsNews(r.players, r.wire, {}, RoomStarted);
    TellingNobody(r.wire, RoomStarted);
  }

  lemma LeaderboardKeepsCache(c: Config, r: Room, env: Env)
    requires WellFormed(r) && Cached(c, r) && BoardWorks(env)
    ensures KeepsCache(c, r, SendLeaderboard(c, r, env))
  {
    hide RankedIds, Broadcast, RankRows, KeepsCache, Lists, Ranks;
    var (r1, ids) := RankedIds(c, r, env);
    assert WellFormed(r1);
    hide WellFormed;
    RankingIsRight(c, r, env);
    RankingKeepsCache(c, r, env);
    RankedRowsAreListed(r.players, ids);
    var m := Rankings(RankRows(r.players, ids));
    SendingKeepsCache(c, r1, 0, m);
    SameButForBoard(c, r, r1, Broadcast(r1, m), SendLeaderboard(c, r, env));
  }

  /** Combines a change of the board alone with one of the wire alone. */
  lemma SameButForBoard(c: Config, r: Room, r1: Room, r2: Room, s: Room)
    requires r1 == r.(board := r1.board) && EntriesFrom(r, r1) && KeepsCache(c, r1, r2)
    requires r2.board == r1.board && s == r2.(lb := s.lb, history := s.history) && r2.players == r.players
    ensures KeepsCache(c, r, s)
  {
    hide News, Extends, Lists;
  }

  lemma MarkingKeepsCache(c: Config, r: Room, env: Env)
    requires WellFormed(r) && Cached(c, r) && BoardWorks(env)
    ensures KeepsCache(c, r, MarkLeaderboardDirty(c, r, env)) && KeepsCache(c, r, BoardTimer(c, r, env))
  {
    hide SendLeaderboard, KeepsCache, WellFormed;
    forall lb ensures KeepsCache(c, r, r.(lb := lb)) { NothingNew(c, r, r.(lb := lb)); }
    var r1, r2 := r.(lb := r.lb.(dirty := true)), r.(lb := r.lb.(waiting := false));
    assert WellFormed(r1) && WellFormed(r2) by { OtherFieldsDoNotMatter(r, r1); OtherFieldsDoNotMatter(r, r2); }
    LeaderboardKeepsCache(c, r1, env);
    LeaderboardKeepsCache(c, r2, env);
    SameCacheHistory(c, r, r1, SendLeaderboard(c, r1, env));
    SameCacheHistory(c, r, r2, SendLeaderboard(c, r2, env));
  }

  lemma EndingKeepsCache(c: Config, r: Room, env: Env)
    requires WellFormed(r) && Cached(c, r)
    ensures KeepsCache(c, r, EndSession(r, env)) && KeepsCache(c, r, EndIfAllFinished(c, r, env))
  {
    hide Podium, Broadcast, CloseAll, AllFinished, KeepsCache, WellFormed;
    NothingNew(c, r, r);
    if !r.status.Ended? {
      var r1 := r.(tables := MarkRoomEnded(r.tables, env.mark), endMarks := r.endMarks + 1, status := Ended);
      OtherFieldsDoNotMatter(r, r1);
      var r2 := Broadcast(r1, RoomEnded(Podium(r1)));
      SendingKeepsCache(c, r1, 0, RoomEnded(Podium(r1)));
      ClosingKeepsCache(c, r2);
      StepsAddUp(c, r1, r2, CloseAll(r2));
      SameCacheHistory(c, r, r1, CloseAll(r2));
    }
  }

  lemma SameCacheHistory(c: Config, r: Room, r1: Room, s: Room)
    requires KeepsCache(c, r1, s) && r1.wire == r.wire && r1.board == r.board
    ensures KeepsCache(c, r, s)
  {
    hide News, Extends, Cached;
  }

  lemma ClosingKeepsCache(c: Config, r: Room)
    requires WellFormed(r) && Cached(c, r)
    ensures KeepsCache(c, r, CloseAll(r))
  {
    hide News, Extends, Tell;
    TellingIsNews(r.players, r.wire, Held(r), Closed);
  }

  lemma AdvancedKeepsCache(c: Config, r: Room, id: PlayerId, next: Progress, message: Option<Packet>, env: Env)
    requires WellFormed(r) && id in r.players && Cached(c, r) && BoardWorks(env)
    requires message.Some? ==> !message.value.Rankings?
    ensures KeepsCache(c, r, Advanced(c, r, id, next, message, env))
  {
    hide MarkLeaderboardDirty, EndIfAllFinished, SendTo, Standings, AllFinished, WellFormed;
    OnePlayerReplaced(r, id, Player(next, None));
    var r1 := r.(players := r.players[id := Player(next, None)]);
    var r2 := SaveStandings(c, r1, [StandingOf(id, next)], env.boardSaves);
    SavedStandingIsCached(c, r, id, next);
    OtherFieldsDoNotMatter(r1, r2);
    hide KeepsCache, SaveStandings;
    var r3 := if message.Some? then SendTo(r2, id, message.value) else r2;
    if message.Some? { CachedAfter(c, r, r2); SendingKeepsCache(c, r2, id, message.value); StepsAddUp(c, r, r2, r3); }
    CachedAfter(c, r, r3);
    AnnouncingKeepsCache(c, r3, env);
    var r4 := MarkLeaderboardDirty(c, r3, env);
    StepsAddUp(c, r, r3, r4);
    StepsAddUp(c, r, r3, EndIfAllFinished(c, r4, env));
  }

  /** Marking the leaderboard, then ending if everybody is finished. */
  lemma AnnouncingKeepsCache(c: Config, r: Room, env: Env)
    requires WellFormed(r) && Cached(c, r) && BoardWorks(env)
    ensures var s := MarkLeaderboardDirty(c, r, env);
      KeepsCache(c, r, s) && KeepsCache(c, r, EndIfAllFinished(c, s, env))
  {
    hide MarkLeaderboardDirty, EndIfAllFinished, AllFinished, KeepsCache, WellFormed, Cached;
    var s := MarkLeaderboardDirty(c, r, env);
    MarkingKeepsCache(c, r, env);
    CachedAfter(c, r, s);
    EndingKeepsCache(c, s, env);
    StepsAddUp(c, r, s, EndIfAllFinished(c, s, env));
  }

  lemma CachedAfter(c: Config, r: Room, s: Room)
    requires KeepsCache(c, r, s)
    ensures Cached(c, s)
  {
  }

  lemma SavedStandingIsCached(c: Config, r: Room, id: PlayerId, next: Progress)
    requires WellFormed(r) && id in r.players && Cached(c, r)
    ensures var r1 := r.(players := r.players[id := Player(next, None)]);
      var s := SaveStandings(c, r1, [StandingOf(id, next)], true);
      KeepsCache(c, r, s)
  {
    hide Lists;
    var standings := [StandingOf(id, next)];
    assert standings[..0] == [];
    assert Leaderboard.Added(r.board, standings) == r.board[id := standings[0].Key()];
  }

  lemma ResolveKeepsCache(c: Config, r: Room, id: PlayerId, out: Outcome, announce: bool, env: Env)
    requires WellFormed(r) && id in r.players && r.players[id].active.Some? && Cached(c, r) && BoardWorks(env)
    ensures KeepsCache(c, r, Resolve(c, r, id, out, announce, env).0)
  {
    hide Advanced, Persist, SendTo, Advance, CorrectOptionId, ResultOf, AccountOf, SameForOthers, AllFinished,
         WellFormed, KeepsCache;
    var next := Advance(r.players[id].progress, out);
    var result := ResultOf(id, r.players[id].active.value, out, next, next.resolved >= |c.questions|);
    var (r0, error) := Persist(r, result, env);
    var message := Graded(Right(out), CorrectOptionId(r.players[id].active.value.question.options), out.points,
                          next.score,
                          next.streak, next.resolved >= |c.questions|);
    var m := Error(if error.DuplicateAnswer? then AlreadyAnswered else Internal, QAnswer);
    AdvancedKeepsCache(c, r0, id, next, if announce then Some(message) else None, env);
    SendingKeepsCache(c, r0, id, m);
    SameCacheHistory(c, r, r0, Resolve(c, r, id, out, announce, env).0);
  }

  lemma SettleKeepsCache(c: Config, r: Room, id: PlayerId, env: Env)
    requires WellFormed(r) && id in r.players && Cached(c, r) && BoardWorks(env)
    ensures KeepsCache(c, r, SettleExpired(c, r, id, env).0)
  {
    hide Resolve, KeepsCache, WellFormed, AllFinished, Cached;
    NothingNew(c, r, r);
    if r.players[id].active.Some? {
      ResolveKeepsCache(c, r, id, TimeoutOutcome(r.players[id].active.value), false, env);
    }
  }

  lemma ShowingKeepsCache(c: Config, r: Room, id: PlayerId, now: nat)
    requires WellFormed(r) && id in r.players && r.players[id].active.Some? && Cached(c, r)
    ensures KeepsCache(c, r, ShowActive(c, r, id, now))
  {
    hide SendTo, KeepsCache, WellFormed, Labels;
    SendingKeepsCache(c, r, id, ShowMessage(c, r.players[id], now));
  }

  lemma ServingKeepsCache(c: Config, r: Room, id: PlayerId, env: Env)
    requires WellFormed(r) && id in r.players && r.players[id].progress.resolved < |c.questions| && Cached(c, r)
    ensures KeepsCache(c, r, Serve(c, r, id, env)) && SameProgress(r.players, Serve(c, r, id, env).players)
  {
    hide ShowActive, AllFinished, KeepsCache;
    var q := c.questions[r.players[id].progress.resolved];
    var a := Active(q, ShuffledOptions(q, env.draws), env.now, QuestionLimit(q.level, c.jenjang));
    var r1 := r.(players := r.players[id := r.players[id].(active := Some(a))]);
    NothingNew(c, r, r1);
    CachedAfter(c, r, r1);
    ShowingKeepsCache(c, r1, id, env.now);
    StepsAddUp(c, r, r1, ShowActive(c, r1, id, env.now));
  }

  lemma ProceedKeepsCache(c: Config, r: Room, id: PlayerId, env: Env)
    requires WellFormed(r) && id in r.players && Cached(c, r)
    ensures KeepsCache(c, r, Proceed(c, r, id, env)) && SameProgress(r.players, Proceed(c, r, id, env).players)
  {
    hide Serve, SendTo, KeepsCache, WellFormed;
    NothingNew(c, r, r);
    SendingKeepsCache(c, r, id, Error(Finished, QNext));
    if r.players[id].progress.resolved < |c.questions| { ServingKeepsCache(c, r, id, env); }
  }

  lemma NextKeepsCache(c: Config, r: Room, id: PlayerId, env: Env)
    requires WellFormed(r) && Cached(c, r) && BoardWorks(env)
    ensures KeepsCache(c, r, NextQuestion(c, r, id, env))
  {
    hide SettleExpired, Proceed, SendTo, SettleSeat, ServeSeat, AllFinished, AccountOf, SameForOthers, WellFormed,
         KeepsCache, Cached;
    NothingNew(c, r, r);
    SendingKeepsCache(c, r, id, Error(NotStarted, QNext));
    if id in r.players && r.status.Running? {
      var (r1, free) := SettleExpired(c, r, id, env);
      SettleKeepsCache(c, r, id, env);
      CachedAfter(c, r, r1);
      var m := Error(InProgress, QNext);
      SendingKeepsCache(c, r1, id, m);
      StepsAddUp(c, r, r1, SendTo(r1, id, m));
      ProceedKeepsCache(c, r1, id, env);
      StepsAddUp(c, r, r1, Proceed(c, r1, id, env));
    }
  }

  lemma SubmitKeepsCache(c: Config, r: Room, id: PlayerId, question: QuestionId, option: Option<OptionId>, env: Env)
    requires WellFormed(r) && Cached(c, r) && BoardWorks(env)
    ensures KeepsCache(c, r, SubmitAnswer(c, r, id, question, option, env))
  {
    hide Resolve, SendTo, OutcomeOf, ResolveSeat, AllFinished, AccountOf, SameForOthers, WellFormed, KeepsCache, Cached;
    NothingNew(c, r, r);
    forall code ensures KeepsCache(c, r, SendTo(r, id, Error(code, QAnswer))) {
      SendingKeepsCache(c, r, id, Error(code, QAnswer));
    }
    if id in r.players && r.players[id].active.Some? {
      var p := r.players[id];
      ResolveKeepsCache(c, r, id, OutcomeOf(c, p.progress, p.active.value, option, env.now), true, env);
    }
  }

  /** A new connection's log is no news about the leaderboard. */
  lemma ConnectingIsNoNews(c: Config, r: Room, s: Room, k: SinkId)
    requires Cached(c, r) && s.board == r.board && s.players == r.players
    requires k !in r.wire && k in s.wire && s.wire - {k} == r.wire
    requires forall m :: m in s.wire[k] ==> !m.Rankings?
    ensures KeepsCache(c, r, s)
  {
    hide Lists;
    assert forall x :: x in r.wire ==> x in s.wire - {k} && s.wire[x] == (s.wire - {k})[x];
  }

  lemma WelcomeKeepsCache(c: Config, r: Room, id: PlayerId, s: SinkId, now: nat)
    requires WellFormed(r) && id in r.players && id !in r.sinks && s !in r.wire && Cached(c, r)
    ensures KeepsCache(c, r, Welcome(c, r, id, s, now))
  {
    hide ShowActive, Podium, KeepsCache;
    if r.status.Ended? {
      assert Welcome(c, r, id, s, now).wire - {s} == r.wire;
      ConnectingIsNoNews(c, r, Welcome(c, r, id, s, now), s);
    } else {
      var r1 := TakeSink(r, id, s, StateMessage(r, r.players[id].progress));
      assert r1.wire - {s} == r.wire;
      ConnectingIsNoNews(c, r, r1, s);
      CachedAfter(c, r, r1);
      if r1.players[id].active.Some? {
        ShowingKeepsCache(c, r1, id, now);
        StepsAddUp(c, r, r1, ShowActive(c, r1, id, now));
      }
    }
  }

  lemma ReleasingIsNoNews(r: Room, id: PlayerId, players: map<PlayerId, Player>)
    requires WellFormed(r)
    ensures Extends(r.wire, Released(r, id).wire) && News(players, r.wire, Released(r, id).wire)
  {
    hide News, Extends, Tell;
    TellingIsNews(players, r.wire, {}, Closed);
    TellingNobody(r.wire, Closed);
    if id in r.sinks { TellingIsNews(players, r.wire, {r.sinks[id]}, Closed); }
  }

  lemma AttachKeepsCache(c: Config, r: Room, id: PlayerId, s: SinkId, env: Env)
    requires WellFormed(r) && s !in r.wire && Cached(c, r) && BoardWorks(env)
    ensures KeepsCache(c, r, AttachPlayer(c, r, id, s, env))
  {
    hide Welcome, SettleExpired, Released, SettleSeat, AllFinished, AccountOf, SameForOthers, WellFormed, KeepsCache,
         Cached;
    NothingNew(c, r, r);
    if id in r.players {
      var r1 := Released(r, id);
      assert Cached(c, r1) by { SameBoardAndPlayers(c, r, r1); }
      var r2 := SettleUnattached(c, r, id, env);
      assert r2 == SettleExpired(c, r1, id, env).0;
      SettleKeepsCache(c, r1, id, env);
      CachedAfter(c, r1, r2);
      WelcomeKeepsCache(c, r2, id, s, env.now);
      StepsAddUp(c, r1, r2, Welcome(c, r2, id, s, env.now));
      ReleasingIsNoNews(r, id, Welcome(c, r2, id, s, env.now).players);
      AfterReleasing(c, r, r1, Welcome(c, r2, id, s, env.now));
    }
  }

  lemma SameBoardAndPlayers(c: Config, r: Room, s: Room)
    requires Cached(c, r) && s.board == r.board && s.players == r.players
    ensures Cached(c, s)
  {
  }

  /** Closing a connection first is no news either. */
  lemma AfterReleasing(c: Config, r: Room, r1: Room, s: Room)
    requires Extends(r.wire, r1.wire) && News(s.players, r.wire, r1.wire) && r1.board == r.board && KeepsCache(c, r1, s)
    ensures KeepsCache(c, r, s)
  {
    hide News, Extends, Cached;
    NewsAddsUp(s.players, r.wire, r1.wire, s.wire);
  }

  lemma KickKeepsCache(c: Config, r: Room, id: PlayerId, env: Env)
    requires WellFormed(r) && Cached(c, r) && BoardWorks(env)
    ensures KeepsCache(c, r, Kick(c, r, id, env))
  {
    hide Farewell, MarkLeaderboardDirty, EndIfAllFinished, AllFinished, DeletePlayer, KeepsCache;
    NothingNew(c, r, r);
    if id in r.players {
      var (r0, deleted) := Deleted(r, id, env);
      NothingNew(c, r, r0);
      var r1 := Removed(c, r0, id, env);
      RemovingKeepsCache(c, r, r1, id);
      hide Removed;
      SinksAreOpen(r);
      var r2 := if id in r.sinks then Farewell(r1, r.sinks[id]) else r1;
      FarewellKeepsCache(c, r1, id, if id in r.sinks then Some(r.sinks[id]) else None);
      hide WellFormed, Cached;
      GoodbyeKeepsCache(c, r, r1, r2, env);
    }
  }

  lemma GoodbyeKeepsCache(c: Config, r: Room, r1: Room, r2: Room, env: Env)
    requires WellFormed(r2) && BoardWorks(env) && KeepsCache(c, r, r1) && KeepsCache(c, r1, r2)
    requires r2.players == r1.players
    ensures KeepsCache(c, r, EndIfAllFinished(c, MarkLeaderboardDirty(c, r2, env), env))
  {
    hide MarkLeaderboardDirty, EndIfAllFinished, AllFinished, KeepsCache, WellFormed;
    var t := EndIfAllFinished(c, MarkLeaderboardDirty(c, r2, env), env);
    CachedAfter(c, r1, r2);
    AnnouncingKeepsCache(c, r2, env);
    StepsAddUp(c, r1, r2, t);
    StepsAddUp(c, r, r1, t);
  }

  lemma RemovingKeepsCache(c: Config, r: Room, s: Room, id: PlayerId)
    requires Cached(c, r) && s.players == r.players - {id} && s.wire == r.wire
    requires s.board == r.board || s.board == r.board - {id}
    ensures KeepsCache(c, r, s)
  {
    hide Lists;
  }

  lemma FarewellKeepsCache(c: Config, r: Room, id: PlayerId, sink: Option<SinkId>)
    requires WellFormed(r) && Cached(c, r) && (sink.Some? ==> sink.value in r.wire)
    ensures KeepsCache(c, r, if sink.Some? then Farewell(r, sink.value) else r)
  {
    hide News, Extends, Tell;
    NothingNew(c, r, r);
    if sink.Some? {
      var told := Tell(r.wire, {sink.value}, Kicked);
      TellingIsNews(r.players, r.wire, {sink.value}, Kicked);
      assert told.Keys == r.wire.Keys by { TellingKeepsAll(r.wire, {sink.value}, Kicked); }
      TellingIsNews(r.players, told, {sink.value}, Closed);
      NewsAddsUp(r.players, r.wire, told, Tell(told, {sink.value}, Closed));
    }
  }

  /** The host's other events and the host's connection. */
  lemma HostKeepsCache(c: Config, r: Room, s: SinkId, isHost: bool)
    requires WellFormed(r) && s !in r.wire && Cached(c, r)
    ensures KeepsCache(c, r, AttachHost(r, s, isHost))
  {
    hide KeepsCache, News, Extends, Tell, Cached;
    NothingNew(c, r, r);
    if isHost {
      var receivers := if r.host.Some? then {r.host.value} else {};
      var told := Tell(r.wire, receivers, Closed);
      TellingIsNews(r.players, r.wire, receivers, Closed);
      TellingKeepsAll(r.wire, receivers, Closed);
      TellingNobody(r.wire, Closed);
      var r1 := r.(wire := told);
      var t := AttachHost(r, s, isHost);
      SameBoardAndPlayers(c, r, r1);
      assert t.wire - {s} == told;
      ConnectingIsNoNews(c, r1, t, s);
      AfterReleasing(c, r, r1, t);
    }
  }

  lemma StartKeepsCache(c: Config, r: Room, env: Env)
    requires WellFormed(r) && Cached(c, r)
    ensures KeepsCache(c, r, StartSession(r, env))
  {
    hide Broadcast, KeepsCache;
    var (tables, started, failed) := MarkRoomStarted(r.tables, env.mark, env.wall);
    var r1 := r.(tables := tables, status := Running, deadline := Some(env.wall + MAX_ROOM_DURATION));
    NothingNew(c, r, r);
    NothingNew(c, r, r.(tables := tables));
    SendingKeepsCache(c, r1, 0, RoomStarted);
    SameCacheHistory(c, r, r1, Broadcast(r1, RoomStarted));
  }

  /** A player who joins late may have an entry only if it says: no progress. */
  const ZERO_KEY := StandingOf(0, NO_PROGRESS).Key()

  lemma NewcomerKeepsCache(c: Config, r: Room, id: PlayerId)
    requires WellFormed(r) && Cached(c, r) && (id in r.board ==> r.board[id] == ZERO_KEY)
    ensures KeepsCache(c, r, AddPlayerAndNotify(r, id))
  {
    hide News, Extends, Tell;
    var s := AddPlayerAndNotify(r, id);
    TellingIsNews(s.players, r.wire, {}, Closed);
    TellingNobody(r.wire, Closed);
    if r.host.Some? { TellingIsNews(s.players, r.wire, {r.host.value}, Joined(id)); }
  }

  lemma EventsKeepCache(c: Config, w: World, i: Input)
    requires Sound(w) && IsRoomEvent(i.event) && Enabled(w, i) && Cached(c, w.room) && BoardWorks(i.env)
    requires i.event.AddJoined? && i.event.player in w.room.board ==> w.room.board[i.event.player] == ZERO_KEY
    ensures KeepsCache(c, w.room, RoomAfter(c, w, i))
  {
    hide AddPlayerAndNotify, Detach, StartSession, EndSession, AttachHost, NextQuestion, SubmitAnswer, AttachPlayer,
         Kick, BoardTimer,
         KeepsCache, WellFormed, AllFinished, NextSeat, SubmitSeat, SettleSeat, Cached;
    match i.event
    case Next(p) => NextKeepsCache(c, w.room, p, i.env);
    case Submit(p, question, option) => SubmitKeepsCache(c, w.room, p, question, option, i.env);
    case AttachPlayerEvent(p, s) => AttachKeepsCache(c, w.room, p, s, i.env);
    case AttachHostEvent(s, hostId) => HostKeepsCache(c, w.room, s, hostId == c.hostId);
    case KickEvent(p) => KickKeepsCache(c, w.room, p, i.env);
    case BoardTimerFires => MarkingKeepsCache(c, w.room, i.env);
    case EndByHost => EndingKeepsCache(c, w.room, i.env);
    case DeadlineFires => EndingKeepsCache(c, w.room, i.env);
    case Start => StartKeepsCache(c, w.room, i.env);
    case AddJoined(p) => NewcomerKeepsCache(c, w.room, p);
    case DetachEvent(s) => NothingNew(c, w.room, Detach(w.room, s));
  }

  // ---------------------------------------------------------------- every run

  /** A join the live room has not learnt about: whatever is known of that player says: no progress. */
  ghost predicate Dormant(w: World, p: PlayerId) {
    && (p in w.room.board ==> w.room.board[p] == ZERO_KEY)
    && (p in w.room.tables.rows ==> w.room.tables.rows[p] == NEW_ROW)
    && (w.live && p in w.room.players ==> w.room.players[p].progress == NO_PROGRESS)
  }

  ghost predicate CacheSound(c: Config, w: World) {
    && (w.live ==> Cached(c, w.room))
    && w.room.board.Keys <= w.issued
    && forall p :: p in w.pending ==> Dormant(w, p)
  }

  lemma EventsKeepDormant(c: Config, w: World, i: Input, p: PlayerId)
    requires Sound(w) && IsRoomEvent(i.event) && Enabled(w, i) && BoardWorks(i.env)
    requires w.live && Cached(c, w.room) && p in w.pending && Dormant(w, p) && i.event != AddJoined(p)
    requires KeepsCache(c, w.room, RoomAfter(c, w, i))
    ensures Dormant(Step(c, w, i), p)
  {
    hide RoomAfter, News, Extends, Cached, WellFormed, SettleSeat, NextSeat, SubmitSeat, Step;
    RoomStep(c, w, i);
    SeatsActSeparately(c, w, i, p);
    var s := RoomAfter(c, w, i);
    assert p in s.players ==> s.players[p].progress == NO_PROGRESS;
    if p in s.tables.rows {
      var account := AccountOf(w.room.tables, p);
      assert account.Some? ==> AccountOf(s.tables, p).None? || AccountOf(s.tables, p) == account;
      RowsAreAccounts(w.room, s, p);
    }
  }

  lemma RowsAreAccounts(r: Room, s: Room, p: PlayerId)
    requires WellFormed(r) && WellFormed(s) && p in s.tables.rows && s.tables.rows.Keys <= r.tables.rows.Keys
    ensures AccountOf(r.tables, p).Some? && AccountOf(s.tables, p).Some?
    ensures AccountOf(r.tables, p).value.row == r.tables.rows[p] && AccountOf(s.tables, p).value.row == s.tables.rows[p]
  {
  }

  lemma RoomEventKeepsCacheSound(c: Config, w: World, i: Input)
    requires Sound(w) && IsRoomEvent(i.event) && Enabled(w, i) && BoardWorks(i.env) && CacheSound(c, w)
    ensures CacheSound(c, Step(c, w, i)) && News(Step(c, w, i).room.players, w.room.wire, Step(c, w, i).room.wire)
  {
    hide RoomAfter, News, Extends, Cached, WellFormed, Dormant, Step, EventEnabled;
    if i.event.AddJoined? {
      PendingIsAdded(w, i);
      DormantEntry(w, i.event.player);
    }
    EventsKeepCache(c, w, i);
    RoomStep(c, w, i);
    var v := Step(c, w, i);
    forall p | p in v.pending ensures Dormant(v, p) {
      EventsKeepDormant(c, w, i, p);
    }
  }

  lemma DormantEntry(w: World, p: PlayerId)
    requires Dormant(w, p)
    ensures p in w.room.board ==> w.room.board[p] == ZERO_KEY
  {
  }

  /** What a load does to the cache: rebuilt from the stored players, or left alone without a board. */
  lemma LoadedIsCached(c: Config, r: Room, env: Env)
    requires WellFormed(r) && BoardWorks(env)
    ensures var (s, live) := Loaded(c, r, env);
      && (live ==> Cached(c, s) && EntriesFrom(r.(players := s.players), s))
      && (live ==> s.players == NewRoom(r, env.wall).players)
      && (!live ==> s.board == r.board && s.players == r.players)
  {
    assert Consistent(r.tables);
    hide Standings, SaveStandings, NewRoom, WellFormed;
    var loaded := NewRoom(r, env.wall);
    NewRoomBoard(r, env.wall);
    if c.hasBoard {
      RebuildIsCached(c, loaded, r.board);
    } else {
      NoBoardNoSave(c, loaded, Standings(loaded.players, loaded.order));
    }
  }

  lemma NewRoomBoard(r: Room, wall: nat)
    requires Consistent(r.tables)
    ensures NewRoom(r, wall).board == r.board
  {
    hide WellFormed;
  }

  lemma LoadKeepsDormant(c: Config, w: World, v: World, env: Env, p: PlayerId)
    requires WellFormed(w.room) && BoardWorks(env) && Dormant(w, p) && !w.live
    requires v.live == Loaded(c, w.room, env).1 && v.room == Loaded(c, w.room, env).0
    ensures Dormant(v, p)
  {
    hide Standings, SaveStandings, WellFormed, NewRoom, Loaded, EntriesFrom;
    LoadedIsCached(c, w.room, env);
    LoadReloads(c, w.room, env, p);
    LoadedEntry(c, w.room, env, p);
    LoadedRow(c, w.room, env, p);
  }

  lemma LoadedEntry(c: Config, r: Room, env: Env, p: PlayerId)
    requires WellFormed(r) && BoardWorks(env)
    ensures var s := Loaded(c, r, env).0;
      p in s.board ==>
        || (p in r.board && s.board[p] == r.board[p])
        || (Loaded(c, r, env).1 && p in s.players && s.board[p] == KeyOf(p, s.players[p]))
  {
    hide Loaded, WellFormed, NewRoom;
    LoadedIsCached(c, r, env);
  }

  lemma NewRoomRow(r: Room, wall: nat, p: PlayerId)
    requires Consistent(r.tables)
    ensures var s := NewRoom(r, wall);
      && s.tables == r.tables
      && (p in s.players ==> p in r.tables.rows && s.players[p].progress == ProgressOf(r.tables.rows[p]))
  {
    hide WellFormed;
  }

  lemma LoadedRows(c: Config, r: Room, env: Env)
    requires WellFormed(r)
    ensures Loaded(c, r, env).0.tables.rows == r.tables.rows
  {
    hide Standings, SaveStandings, WellFormed, NewRoom;
  }

  lemma LoadedRow(c: Config, r: Room, env: Env, p: PlayerId)
    requires WellFormed(r) && BoardWorks(env)
    ensures var s := Loaded(c, r, env).0;
      && s.tables.rows == r.tables.rows
      && (Loaded(c, r, env).1 && p in s.players ==> p in r.tables.rows && r.tables.rows[p].index >= 0)
      && (Loaded(c, r, env).1 && p in s.players ==> s.players[p].progress == ProgressOf(r.tables.rows[p]))
  {
    TablesAreConsistent(r);
    NewRoomRow(r, env.wall, p);
    LoadedRows(c, r, env);
    LoadedIsCached(c, r, env);
    hide Loaded, WellFormed, NewRoom, ProgressOf;
  }

  lemma LoadKeepsCache(c: Config, w: World, i: Input)
    requires Sound(w) && i.event.Load? && Enabled(w, i) && BoardWorks(i.env) && CacheSound(c, w)
    ensures CacheSound(c, Step(c, w, i)) && News(Step(c, w, i).room.players, w.room.wire, Step(c, w, i).room.wire)
  {
    hide Loaded, WellFormed, Step, Cached, Dormant, News, NewRoom, EntriesFrom;
    LoadStep(c, w, i);
    LoadedIsCached(c, w.room, i.env);
    LoadIsNoNews(c, w.room, i.env);
    var v := Step(c, w, i);
    forall p | p in w.pending ensures Dormant(v, p) { LoadKeepsDormant(c, w, v, i.env, p); }
    forall p | p in v.room.board ensures p in w.issued {
      LoadedEntry(c, w.room, i.env, p);
    }
  }

  lemma NoBoardNoSave(c: Config, r: Room, standings: seq<Standing>)
    ensures !c.hasBoard ==> SaveStandings(c, r, standings, true) == r
  {
  }

  lemma JoinKeepsBoard(c: Config, w: World, i: Input)
    requires Sound(w) && i.event.Join? && Enabled(w, i)
    ensures OutsideKept(w, Step(c, w, i))
  {
    hide WellFormed, CloseAll;
  }

  lemma StopKeepsBoard(c: Config, w: World, i: Input)
    requires Sound(w) && (i.event.LoseJoined? || i.event.Crash? || i.event.Shutdown?) && Enabled(w, i)
    ensures OutsideKept(w, Step(c, w, i))
  {
    HeldAreOpen(w.room);
    hide WellFormed, Tell, Held, Step, OutsideKept;
    if i.event.LoseJoined? { LoseStep(c, w, i); } else { StopStep(c, w, i); }
    SameBooksKept(w, Step(c, w, i));
  }

  lemma SameBooksKept(w: World, v: World)
    requires v.issued == w.issued && v.pending <= w.pending && (v.live ==> w.live)
    requires v.room.board == w.room.board && v.room.players == w.room.players && v.room.tables == w.room.tables
    requires v.room.wire == w.room.wire || v.room.wire == CloseAllWire(w.room)
    ensures OutsideKept(w, v)
  {
  }

  lemma LoseStep(c: Config, w: World, i: Input)
    requires Sound(w) && i.event.LoseJoined? && Enabled(w, i)
    ensures Step(c, w, i) == w.(pending := w.pending - {i.event.player}, clock := i.env.now, wall := i.env.wall)
  {
    hide WellFormed;
  }

  lemma StopStep(c: Config, w: World, i: Input)
    requires Sound(w) && (i.event.Crash? || i.event.Shutdown?) && Enabled(w, i)
    ensures var r := if i.event.Crash? then Disconnected(w.room) else CloseAll(w.room);
      Step(c, w, i) == w.(live := false, room := r, clock := i.env.now, wall := i.env.wall)
  {
    hide WellFormed, CloseAll, Disconnected;
  }

  lemma OutsideKeepsBoard(c: Config, w: World, i: Input)
    requires Sound(w) && !IsRoomEvent(i.event) && !i.event.Load? && Enabled(w, i)
    ensures OutsideKept(w, Step(c, w, i))
  {
    hide OutsideKept, Step;
    if i.event.Join? { JoinKeepsBoard(c, w, i); } else { StopKeepsBoard(c, w, i); }
  }

  lemma HeldAreOpen(r: Room)
    requires WellFormed(r)
    ensures Held(r) <= r.wire.Keys
  {
  }

  /** What joins and the end of a process leave of the world: the board, memory, and the rows of pending players. */
  ghost predicate OutsideKept(w: World, v: World) {
    && v.room.board == w.room.board && v.room.players == w.room.players && (v.live ==> w.live)
    && w.issued <= v.issued && v.pending <= w.pending + (v.issued - w.issued)
    && (forall p :: p in w.issued ==> (p in v.room.tables.rows <==> p in w.room.tables.rows))
    && (forall p :: p in w.issued && p in w.room.tables.rows ==> v.room.tables.rows[p] == w.room.tables.rows[p])
    && (forall p :: p in v.issued - w.issued ==> p in v.room.tables.rows && v.room.tables.rows[p] == NEW_ROW)
    && (v.room.wire == w.room.wire || v.room.wire == CloseAllWire(w.room))
  }

  function CloseAllWire(r: Room): Wire {
    if Held(r) <= r.wire.Keys then Tell(r.wire, Held(r), Closed) else r.wire
  }

  lemma OutsideKeepsDormant(w: World, v: World, p: PlayerId)
    requires Sound(w) && w.room.board.Keys <= w.issued && v.room.board == w.room.board
    requires v.room.players == w.room.players
    requires v.live ==> w.live
    requires p in w.pending ==> Dormant(w, p) && (p in v.room.tables.rows <==> p in w.room.tables.rows)
    requires p in w.pending && p in w.room.tables.rows ==> v.room.tables.rows[p] == w.room.tables.rows[p]
    requires p !in w.pending ==> p !in w.issued && p in v.room.tables.rows && v.room.tables.rows[p] == NEW_ROW
    ensures Dormant(v, p)
  {
    hide WellFormed;
  }

  lemma OutsideKeepsCache(c: Config, w: World, i: Input)
    requires Sound(w) && !IsRoomEvent(i.event) && !i.event.Load? && Enabled(w, i) && CacheSound(c, w)
    ensures CacheSound(c, Step(c, w, i)) && News(Step(c, w, i).room.players, w.room.wire, Step(c, w, i).room.wire)
  {
    hide Step, News, Dormant, WellFormed, CloseAllWire, Enabled, Cached;
    var v := Step(c, w, i);
    OutsideKeepsBoard(c, w, i);
    forall p | p in v.pending ensures Dormant(v, p) { OutsideKeepsDormant(w, v, p); }
    SameBoardAndPlayersCached(c, w.room, v.room);
    ClosingIsNoNews(w.room);
    NoNewsIsGood(w.room.players, w.room.wire);
  }

  lemma SameBoardAndPlayersCached(c: Config, r: Room, s: Room)
    requires s.board == r.board && s.players == r.players
    ensures Cached(c, r) ==> Cached(c, s)
  {
  }

  lemma NoNewsIsGood(players: map<PlayerId, Player>, wire: Wire)
    ensures News(players, wire, wire)
  {
  }

  lemma ClosingIsNoNews(r: Room)
    ensures News(r.players, r.wire, CloseAllWire(r))
  {
    hide News, Extends, Tell;
    if Held(r) <= r.wire.Keys {
      TellingIsNews(r.players, r.wire, Held(r), Closed);
    } else {
      NoNewsIsGood(r.players, r.wire);
    }
  }

  lemma LoadIsNoNews(c: Config, r: Room, env: Env)
    requires WellFormed(r)
    ensures News(Loaded(c, r, env).0.players, r.wire, Loaded(c, r, env).0.wire)
  {
    hide Lists, WellFormed, Standings, SaveStandings;
  }

  lemma StepKeepsCache(c: Config, w: World, i: Input)
    requires Sound(w) && CacheSound(c, w) && BoardWorks(i.env)
    ensures var v := Step(c, w, i); CacheSound(c, v) && News(v.room.players, w.room.wire, v.room.wire)
  {
    hide Step, News, Enabled, CacheSound;
    if !Enabled(w, i) {
      NothingHappens(c, w, i);
      NoNewsIsGood(w.room.players, w.room.wire);
    } else if IsRoomEvent(i.event) {
      RoomEventKeepsCacheSound(c, w, i);
    } else if i.event.Load? {
      LoadKeepsCache(c, w, i);
    } else {
      OutsideKeepsCache(c, w, i);
    }
  }

  ghost predicate BoardsWork(inputs: seq<Input>) {
    forall i :: 0 <= i < |inputs| ==> BoardWorks(inputs[i].env)
  }

  lemma {:induction false} RunsKeepCache(c: Config, inputs: seq<Input>)
    requires BoardsWork(inputs)
    ensures CacheSound(c, Run(c, CREATED, inputs))
  {
    hide Step;
    if inputs != [] {
      var init, last := inputs[..|inputs| - 1], inputs[|inputs| - 1];
      assert forall i :: 0 <= i < |init| ==> init[i] == inputs[i];
      RunsKeepCache(c, init);
      StepKeepsCache(c, Run(c, CREATED, init), last);
    }
  }

  /**
   * While no Save fails, in every run and whatever Redis loses or refuses to read or forget: every lb.update
   * sent in any step lists each player in the room exactly once, with the current score, best first.
   */
  lemma EveryRankingIsRight(c: Config, inputs: seq<Input>, last: Input)
    requires BoardsWork(inputs) && BoardWorks(last.env)
    ensures var w := Run(c, CREATED, inputs);
      var v := Step(c, w, last);
      News(v.room.players, w.room.wire, v.room.wire)
  {
    hide Step, News, CacheSound;
    RunsKeepCache(c, inputs);
    StepKeepsCache(c, Run(c, CREATED, inputs), last);
  }

  // ---------------------------------------------------------------- filling and emptying the cache

  /** Redis holds the current key of every player. */
  ghost predicate Complete(r: Room) {
    forall p :: p in r.players ==> p in r.board && r.board[p] == KeyOf(p, r.players[p])
  }

  lemma RebuiltIsComplete(c: Config, r: Room, env: Env)
    requires WellFormed(r) && c.hasBoard && env.boardRebuilds
    ensures Complete(SaveStandings(c, r, Standings(r.players, r.order), env.boardRebuilds))
  {
    hide Standings, Leaderboard.Added;
    forall p | p in r.players
      ensures var added := Leaderboard.Added(r.board, Standings(r.players, r.order));
        p in added && added[p] == KeyOf(p, r.players[p])
    {
      AddedStandings(r.board, r.players, r.order, p);
    }
  }

  /** A ranking that Redis could not give is followed by a complete cache, if that save works. */
  lemma FallbackRebuilds(c: Config, r: Room, env: Env)
    requires WellFormed(r) && c.hasBoard && env.boardRebuilds
    requires !env.boardReads || !CoversAllPlayers(r.players, Leaderboard.Ranked(r.board - env.evicted))
    ensures Complete(RankedIds(c, r, env).0)
  {
    var r1 := r.(board := r.board - env.evicted);
    OtherFieldsDoNotMatter(r, r1);
    hide WellFormed, CoversAllPlayers, Leaderboard.Ranked, SaveStandings, Standings, Complete, Order;
    RebuiltIsComplete(c, r1, env);
  }

  /** A new room object fills the cache from its rows, if that save works. */
  lemma LoadFillsCache(c: Config, w: World, i: Input)
    requires Sound(w) && Enabled(w, i) && i.event.Load? && Step(c, w, i).live && c.hasBoard && i.env.boardRebuilds
    ensures Complete(Step(c, w, i).room)
  {
    hide WellFormed, NewRoom, Step, SaveStandings, Standings, Complete;
    LoadStep(c, w, i);
    TablesAreConsistent(w.room);
    RebuiltIsComplete(c, NewRoom(w.room, i.env.wall), i.env);
    SavingKeepsThePlayers(c, NewRoom(w.room, i.env.wall), i.env);
  }

  lemma SavingKeepsThePlayers(c: Config, r: Room, env: Env)
    requires WellFormed(r)
    ensures SaveStandings(c, r, Standings(r.players, r.order), env.boardRebuilds).players == r.players
  {
  }

  /** Nobody gets an entry but the players. */
  lemma OnlyPlayersGetEntries(c: Config, r: Room, env: Env, p: PlayerId)
    requires WellFormed(r) && p !in r.players && p !in r.board
    ensures p !in RankedIds(c, r, env).0.board
  {
    var r1 := r.(board := r.board - env.evicted);
    assert forall x :: x in r.order ==> x in r.players;
    assert p !in r.order && Distinct(r.order);
    hide WellFormed, Leaderboard.Ranked, Standings, Leaderboard.Added, CoversAllPlayers, Order;
    AddedStandings(r1.board, r.players, r.order, p);
  }

  lemma MarkingAddsNobody(c: Config, r: Room, env: Env, p: PlayerId)
    requires WellFormed(r) && p !in r.players && p !in r.board
    ensures p !in MarkLeaderboardDirty(c, r, env).board
  {
    var r1 := r.(lb := r.lb.(dirty := true));
    OtherFieldsDoNotMatter(r, r1);
    hide WellFormed, RankedIds, Broadcast, RankRows;
    OnlyPlayersGetEntries(c, r1, env, p);
  }

  /** A removed player is gone from the cache as well, if Redis answers. */
  lemma KickForgets(c: Config, w: World, i: Input)
    requires Sound(w) && Enabled(w, i) && i.event.KickEvent? && i.event.player in w.room.players
    requires c.hasBoard && i.env.boardForgets && i.event.player !in Step(c, w, i).room.players
    ensures i.event.player !in Step(c, w, i).room.board
  {
    hide WellFormed, RoomAfter, Step, Kick;
    RoomStep(c, w, i);
    Messages.KickStep(c, w, i);
    KickEmptiesEntry(c, w.room, i.event.player, i.env);
  }

  lemma KickEmptiesEntry(c: Config, r: Room, id: PlayerId, env: Env)
    requires WellFormed(r) && id in r.players && c.hasBoard && env.boardForgets && id !in Kick(c, r, id, env).players
    ensures id !in Kick(c, r, id, env).board
  {
    hide WellFormed, Farewell, MarkLeaderboardDirty, EndIfAllFinished, AllFinished, DeletePlayer;
    var r0 := Deleted(r, id, env).0;
    var r1 := Removed(c, r0, id, env);
    SinksAreOpen(r0);
    MarkingAddsNobody(c, if id in r.sinks then Farewell(r1, r.sinks[id]) else r1, env, id);
  }
}
