/** What each event of a live room adds to the log of each connection, message by message. */
module Messages {
  import opened Common
  import opened Questions
  import opened Scoring
  import opened Database
  import opened RoomSpec
  import opened World

  /** The log of k, if there is one, goes on by exactly these messages. */
  ghost predicate Hears(r: Room, s: Room, k: SinkId, more: seq<Packet>) {
    k in r.wire ==> k in s.wire && s.wire[k] == r.wire[k] + more
  }

  predicate Over(r: Room, s: Room) {
    s.status.Ended? && !r.status.Ended?
  }

  /** What everybody hears when the session starts, a ranking is sent, the session ends. */
  function Public(r: Room, s: Room, rows: seq<RankRow>, podium: seq<RankRow>): seq<Packet> {
    (if r.status.Lobby? && s.status.Running? then [RoomStarted] else [])
    + (if |s.history| > |r.history| then [Rankings(rows)] else [])
    + (if Over(r, s) then [RoomEnded(podium), Closed] else [])
  }

  function If(heard: bool, messages: seq<Packet>): seq<Packet> {
    if heard then messages else []
  }

  function Said(message: Option<Packet>): seq<Packet> {
    if message.Some? then [message.value] else []
  }

  predicate At(r: Room, p: PlayerId, k: SinkId) {
    p in r.sinks && r.sinks[p] == k
  }

  ghost predicate Connected(r: Room, k: SinkId) {
    r.host == Some(k) || exists p :: At(r, p, k)
  }

  lemma ConnectedIsHeld(r: Room, k: SinkId)
    ensures Connected(r, k) <==> k in Held(r)
  {
    if k in r.sinks.Values {
      var p :| p in r.sinks && r.sinks[p] == k;
      assert At(r, p, k);
    }
  }

  lemma HearsAddsUp(r: Room, s: Room, t: Room, k: SinkId, a: seq<Packet>, b: seq<Packet>)
    requires Hears(r, s, k, a) && Hears(s, t, k, b)
    ensures Hears(r, t, k, a + b)
  {
    assert k in r.wire ==> r.wire[k] + a + b == r.wire[k] + (a + b);
  }

  lemma HearsNothing(r: Room, s: Room, k: SinkId)
    requires s.wire == r.wire
    ensures Hears(r, s, k, [])
  {
    assert k in r.wire ==> r.wire[k] + [] == r.wire[k];
  }

  /** A ranking first, then perhaps the end. */
  lemma PublicAddsUp(r: Room, m: Room, s: Room, rows: seq<RankRow>, podium: seq<RankRow>)
    requires m.status == r.status && s.history == m.history && |m.history| >= |r.history|
    requires s.status == m.status || s.status.Ended?
    ensures Public(r, s, rows, podium) == Public(r, m, rows, podium) + Public(m, s, rows, podium)
  {
  }

  lemma NothingPublic(r: Room, s: Room, rows: seq<RankRow>, podium: seq<RankRow>)
    requires s.status == r.status && s.history == r.history
    ensures Public(r, s, rows, podium) == []
  {
  }

  // ---------------------------------------------------------------- sending

  lemma SendHeard(r: Room, p: PlayerId, m: Packet, k: SinkId)
    requires WellFormed(r)
    ensures Hears(r, SendTo(r, p, m), k, If(At(r, p, k), [m])) && Held(SendTo(r, p, m)) == Held(r)
  {
    assert k in r.wire ==> r.wire[k] + [] == r.wire[k];
  }

  lemma BroadcastHeard(r: Room, m: Packet, k: SinkId)
    requires WellFormed(r)
    ensures Hears(r, Broadcast(r, m), k, If(k in Held(r), [m])) && Held(Broadcast(r, m)) == Held(r)
  {
    assert k in r.wire ==> r.wire[k] + [] == r.wire[k];
  }

  lemma CloseAllHeard(r: Room, k: SinkId)
    requires WellFormed(r)
    ensures Hears(r, CloseAll(r), k, If(k in Held(r), [Closed])) && Held(CloseAll(r)) == {}
  {
    assert k in r.wire ==> r.wire[k] + [] == r.wire[k];
  }

  lemma BoardHeard(c: Config, r: Room, env: Env, k: SinkId) returns (rows: seq<RankRow>)
    requires WellFormed(r)
    ensures var s := SendLeaderboard(c, r, env);
      && Hears(r, s, k, If(k in Held(r), [Rankings(rows)])) && Held(s) == Held(r)
      && |s.history| == |r.history| + 1
  {
    hide WellFormed, RankedIds, Broadcast, RankRows;
    var (r1, ids) := RankedIds(c, r, env);
    rows := RankRows(r.players, ids);
    OtherFieldsDoNotMatter(r, r1);
    BroadcastHeard(r1, Rankings(rows), k);
  }

  lemma MarkHeard(c: Config, r: Room, env: Env, k: SinkId, podium: seq<RankRow>) returns (rows: seq<RankRow>)
    requires WellFormed(r)
    ensures var s := MarkLeaderboardDirty(c, r, env);
      Hears(r, s, k, If(k in Held(r), Public(r, s, rows, podium))) && Held(s) == Held(r) && |s.history| >= |r.history|
  {
    hide WellFormed, SendLeaderboard;
    var r1 := r.(lb := r.lb.(dirty := true));
    OtherFieldsDoNotMatter(r, r1);
    rows := BoardHeard(c, r1, env, k);
    HearsNothing(r, r1, k);
    assert k in r.wire ==> r.wire[k] + [] == r.wire[k];
  }

  lemma TimerHeard(c: Config, r: Room, env: Env, k: SinkId, podium: seq<RankRow>) returns (rows: seq<RankRow>)
    requires WellFormed(r)
    ensures var s := BoardTimer(c, r, env);
      Hears(r, s, k, If(k in Held(r), Public(r, s, rows, podium))) && Held(s) == Held(r)
  {
    hide WellFormed, SendLeaderboard;
    var r1 := r.(lb := r.lb.(waiting := false));
    OtherFieldsDoNotMatter(r, r1);
    rows := BoardHeard(c, r1, env, k);
    assert k in r.wire ==> r.wire[k] + [] == r.wire[k];
  }

  /** The end is told to everybody connected, and then everybody is closed. */
  lemma EndHeard(r: Room, env: Env, k: SinkId, rows: seq<RankRow>) returns (podium: seq<RankRow>)
    requires WellFormed(r) && !r.status.Ended?
    ensures var s := EndSession(r, env);
      Hears(r, s, k, If(k in Held(r), Public(r, s, rows, podium))) && Held(s) == {}
  {
    hide WellFormed, Podium, Broadcast, CloseAll;
    var r1 := r.(tables := MarkRoomEnded(r.tables, env.mark), endMarks := r.endMarks + 1, status := Ended);
    OtherFieldsDoNotMatter(r, r1);
    podium := Podium(r1);
    var r2 := Broadcast(r1, RoomEnded(podium));
    BroadcastHeard(r1, RoomEnded(podium), k);
    CloseAllHeard(r2, k);
    HearsAddsUp(r1, r2, CloseAll(r2), k, If(k in Held(r1), [RoomEnded(podium)]), If(k in Held(r2), [Closed]));
    assert [RoomEnded(podium)] + [Closed] == [RoomEnded(podium), Closed];
  }

  lemma EndIfHeard(c: Config, r: Room, env: Env, k: SinkId, rows: seq<RankRow>) returns (podium: seq<RankRow>)
    requires WellFormed(r)
    ensures var s := EndIfAllFinished(c, r, env);
      && Hears(r, s, k, If(k in Held(r), Public(r, s, rows, podium)))
      && Held(s) == if Over(r, s) then {} else Held(r)
  {
    hide WellFormed, EndSession, AllFinished;
    podium := [];
    if EndIfAllFinished(c, r, env).status != r.status { podium := EndHeard(r, env, k, rows); }
    else { HearsNothing(r, r, k); }
  }

  // ---------------------------------------------------------------- resolving a question

  lemma AdvancedHeard(c: Config, r: Room, id: PlayerId, next: Progress, message: Option<Packet>, env: Env, k: SinkId)
    returns (rows: seq<RankRow>, podium: seq<RankRow>)
    requires WellFormed(r) && id in r.players
    ensures var s := Advanced(c, r, id, next, message, env);
      && Hears(r, s, k, If(At(r, id, k), Said(message)) + If(k in Held(r), Public(r, s, rows, podium)))
      && Held(s) == if Over(r, s) then {} else Held(r)
  {
    hide MarkLeaderboardDirty, EndIfAllFinished, SendTo, SaveStandings, AllFinished, WellFormed, Public;
    OnePlayerReplaced(r, id, Player(next, None));
    var r0 := r.(players := r.players[id := Player(next, None)]);
    var r1 := SaveStandings(c, r0, [StandingOf(id, next)], env.boardSaves);
    OtherFieldsDoNotMatter(r0, r1);
    var r2 := if message.Some? then SendTo(r1, id, message.value) else r1;
    var said := If(At(r, id, k), Said(message));
    if message.Some? { SendHeard(r1, id, message.value, k); } else { HearsNothing(r1, r1, k); }
    podium := [];
    rows := MarkHeard(c, r2, env, k, podium);
    var r3 := MarkLeaderboardDirty(c, r2, env);
    if next.resolved >= |c.questions| { podium := EndIfHeard(c, r3, env, k, rows); } else { HearsNothing(r3, r3, k); }
    PublicHeard(r2, r3, Advanced(c, r, id, next, message, env), k, rows, podium);
    HearsAddsUp(r1, r2, Advanced(c, r, id, next, message, env), k, said,
                If(k in Held(r), Public(r2, Advanced(c, r, id, next, message, env), rows, podium)));
    SamePublic(r, r2, Advanced(c, r, id, next, message, env), rows, podium);
  }

  /** Marking the leaderboard and ending, put together. */
  lemma PublicHeard(r: Room, m: Room, s: Room, k: SinkId, rows: seq<RankRow>, podium: seq<RankRow>)
    requires m.status == r.status && s.history == m.history && |m.history| >= |r.history| && Held(m) == Held(r)
    requires s.status == m.status || s.status.Ended?
    requires Hears(r, m, k, If(k in Held(r), Public(r, m, rows, [])))
    requires Hears(m, s, k, If(k in Held(m), Public(m, s, rows, podium))) || (s == m && Hears(m, s, k, []))
    ensures Hears(r, s, k, If(k in Held(r), Public(r, s, rows, podium)))
  {
    hide Held;
    assert Public(r, m, rows, []) == Public(r, m, rows, podium);
    PublicAddsUp(r, m, s, rows, podium);
    if s == m { NothingPublic(m, s, rows, podium); }
    HearsAddsUp(r, m, s, k, If(k in Held(r), Public(r, m, rows, podium)), If(k in Held(m), Public(m, s, rows, podium)));
  }

  lemma SamePublic(r: Room, r2: Room, s: Room, rows: seq<RankRow>, podium: seq<RankRow>)
    requires r2.status == r.status && r2.history == r.history
    ensures Public(r2, s, rows, podium) == Public(r, s, rows, podium)
  {
  }

  /** q.result, or the error of a save that did not succeed. */
  function Verdict(c: Config, r: Room, id: PlayerId, out: Outcome, announce: bool, env: Env): Option<Packet>
    requires id in r.players && r.players[id].active.Some?
  {
    var p := r.players[id];
    var next := Advance(p.progress, out);
    var error := SaveOutcome(c, SeatOf(r, id), id, out, env).1;
    if error.DuplicateAnswer? then Some(Error(AlreadyAnswered, QAnswer))
    else if error.OtherError? then Some(Error(Internal, QAnswer))
    else if announce then
      Some(Graded(Right(out), CorrectOptionId(p.active.value.question.options), out.points, next.score, next.streak,
                  next.resolved >= |c.questions|))
    else None
  }

  lemma ResolveHeard(c: Config, r: Room, id: PlayerId, out: Outcome, announce: bool, env: Env, k: SinkId)
    returns (rows: seq<RankRow>, podium: seq<RankRow>)
    requires WellFormed(r) && id in r.players && r.players[id].active.Some?
    ensures var s := Resolve(c, r, id, out, announce, env).0;
      && Hears(r, s, k, If(At(r, id, k), Said(Verdict(c, r, id, out, announce, env)))
                        + If(k in Held(r), Public(r, s, rows, podium)))
      && Held(s) == if Over(r, s) then {} else Held(r)
  {
    hide Advanced, Persist, SendTo, SaveToAccount, Advance, CorrectOptionId, ResultOf, AccountOf, SameForOthers,
         AllFinished, WellFormed, Hears, OnlyPlayer, Public, Held, Over;
    var p := r.players[id];
    var a := p.active.value;
    var next := Advance(p.progress, out);
    var finished := next.resolved >= |c.questions|;
    var (r0, error) := Persist(r, ResultOf(id, a, out, next, finished), env);
    ResultNames(id, a, out, next, finished);
    assert error == SaveOutcome(c, SeatOf(r, id), id, out, env).1;
    var verdict := Verdict(c, r, id, out, announce, env);
    var s := Resolve(c, r, id, out, announce, env).0;
    if error != Saved {
      rows, podium := [], [];
      UnsavedHeard(r0, id, verdict.value, k);
    } else {
      rows, podium := AdvancedHeard(c, r0, id, next, verdict, env, k);
    }
    OverOtherTables(r, r0, s, k, If(At(r, id, k), Said(verdict)), rows, podium);
  }

  lemma UnsavedHeard(r: Room, id: PlayerId, m: Packet, k: SinkId)
    requires WellFormed(r)
    ensures var s := SendTo(r, id, m);
      && Hears(r, s, k, If(At(r, id, k), Said(Some(m))) + If(k in Held(r), Public(r, s, [], [])))
      && Held(s) == if Over(r, s) then {} else Held(r)
  {
    hide SendTo, Hears, Held;
    SendHeard(r, id, m, k);
    NothingAdded(If(At(r, id, k), [m]), If(k in Held(r), []));
  }

  /** What is heard does not depend on the tables. */
  lemma OverOtherTables(r: Room, r0: Room, s: Room, k: SinkId, words: seq<Packet>, rows: seq<RankRow>,
                        podium: seq<RankRow>)
    requires r0 == r.(tables := r0.tables)
    requires Hears(r0, s, k, words + If(k in Held(r0), Public(r0, s, rows, podium)))
    ensures Hears(r, s, k, words + If(k in Held(r), Public(r, s, rows, podium)))
    ensures Held(r0) == Held(r) && (Over(r0, s) <==> Over(r, s))
  {
    SamePublic(r, r0, s, rows, podium);
    hide Public;
  }

  lemma NothingAdded(a: seq<Packet>, b: seq<Packet>)
    requires b == []
    ensures a + b == a
  {
  }

  lemma SameLogs(r: Room, r0: Room, s: Room, k: SinkId, more: seq<Packet>)
    requires r0.wire == r.wire && Hears(r0, s, k, more)
    ensures Hears(r, s, k, more)
  {
  }

  lemma SettleHeard(c: Config, r: Room, id: PlayerId, env: Env, k: SinkId)
    returns (rows: seq<RankRow>, podium: seq<RankRow>)
    requires WellFormed(r) && id in r.players
    ensures var s := SettleExpired(c, r, id, env).0;
      var active := r.players[id].active;
      var due := active.Some? && r.status.Running? && env.now >= Deadline(active.value);
      && (due ==> Hears(r, s, k, If(At(r, id, k), Said(Verdict(c, r, id, TimeoutOutcome(active.value), false, env)))
                                 + If(k in Held(r), Public(r, s, rows, podium))))
      && (!due ==> s == r)
      && Held(s) == if Over(r, s) then {} else Held(r)
  {
    hide Resolve, WellFormed, AllFinished, Verdict, Hears, Held, Public;
    rows, podium := [], [];
    var active := r.players[id].active;
    if active.Some? && r.status.Running? && env.now >= Deadline(active.value) {
      rows, podium := ResolveHeard(c, r, id, TimeoutOutcome(active.value), false, env, k);
    }
  }

  // ---------------------------------------------------------------- q.next and q.answer

  predicate Due(r: Room, id: PlayerId, env: Env)
    requires id in r.players
  {
    r.status.Running? && r.players[id].active.Some? && env.now >= Deadline(r.players[id].active.value)
  }

  /** What settling says to the player: nothing, unless the save did not succeed. */
  function SettleWords(c: Config, r: Room, id: PlayerId, env: Env): seq<Packet>
    requires id in r.players
  {
    if Due(r, id, env) then Said(Verdict(c, r, id, TimeoutOutcome(r.players[id].active.value), false, env)) else []
  }

  lemma SettleSpoken(c: Config, r: Room, id: PlayerId, env: Env, k: SinkId)
    returns (rows: seq<RankRow>, podium: seq<RankRow>)
    requires WellFormed(r) && id in r.players
    ensures var s := SettleExpired(c, r, id, env).0;
      && Hears(r, s, k, If(At(r, id, k), SettleWords(c, r, id, env)) + If(k in Held(r), Public(r, s, rows, podium)))
      && Held(s) == (if Over(r, s) then {} else Held(r))
      && (!Over(r, s) ==> s.sinks == r.sinks)
  {
    hide SettleExpired, WellFormed, AllFinished, Verdict, Held, TimeoutOutcome, SettleSeat, AccountOf, SameForOthers;
    rows, podium := SettleHeard(c, r, id, env, k);
    SettlingKeepsSinks(c, r, id, env);
    if !Due(r, id, env) {
      HearsNothing(r, r, k);
      NothingPublic(r, r, rows, podium);
      NothingAdded([], If(k in Held(r), Public(r, r, rows, podium)));
    }
  }

  lemma SettlingKeepsSinks(c: Config, r: Room, id: PlayerId, env: Env)
    requires WellFormed(r) && id in r.players
    ensures var s := SettleExpired(c, r, id, env).0; Over(r, s) || s.sinks == r.sinks
  {
    hide WellFormed, Advanced, Persist, AllFinished, AccountOf, SameForOthers, Advance, OnlyPlayer;
    if Due(r, id, env) { ResolvingKeepsSinks(c, r, id, TimeoutOutcome(r.players[id].active.value), false, env); }
  }

  lemma ResolvingKeepsSinks(c: Config, r: Room, id: PlayerId, out: Outcome, announce: bool, env: Env)
    requires WellFormed(r) && id in r.players && r.players[id].active.Some?
    ensures var s := Resolve(c, r, id, out, announce, env).0; Over(r, s) || s.sinks == r.sinks
  {
    hide WellFormed, Advanced, Persist, AllFinished, AccountOf, SameForOthers, Advance, OnlyPlayer, Reject, ResultOf;
    var p := r.players[id];
    var next := Advance(p.progress, out);
    var finished := next.resolved >= |c.questions|;
    var r0 := Persist(r, ResultOf(id, p.active.value, out, next, finished), env).0;
    var message := Graded(Right(out), CorrectOptionId(p.active.value.question.options), out.points, next.score,
                          next.streak, finished);
    AdvancingKeepsSinks(c, r0, id, next, if announce then Some(message) else None, env);
  }

  lemma AdvancingKeepsSinks(c: Config, r: Room, id: PlayerId, next: Progress, message: Option<Packet>, env: Env)
    requires WellFormed(r) && id in r.players
    ensures var s := Advanced(c, r, id, next, message, env); Over(r, s) || s.sinks == r.sinks
  {
    hide MarkLeaderboardDirty, EndIfAllFinished, SendTo, SaveStandings, AllFinished, WellFormed;
  }

  lemma ProceedHeard(c: Config, r: Room, id: PlayerId, env: Env, k: SinkId)
    requires WellFormed(r) && id in r.players
    ensures var s := Proceed(c, r, id, env);
      && Hears(r, s, k, If(r.status.Running? && At(r, id, k), [ProceedWord(c, r, s, id, env)]))
      && Held(s) == Held(r) && s.history == r.history
  {
    hide SendTo, WellFormed, Labels, ShuffledOptions, Hears, OnlyPlayer;
    var s := Proceed(c, r, id, env);
    if !r.status.Running? {
      HearsNothing(r, r, k);
    } else if r.players[id].progress.resolved >= |c.questions| {
      SendHeard(r, id, Error(Finished, QNext), k);
    } else {
      var q := c.questions[r.players[id].progress.resolved];
      var a := Active(q, ShuffledOptions(q, env.draws), env.now, QuestionLimit(q.level, c.jenjang));
      var p := r.players[id].(active := Some(a));
      OnePlayerReplaced(r, id, p);
      var r1 := r.(players := r.players[id := p]);
      SendHeard(r1, id, ShowMessage(c, p, env.now), k);
      SameLogs(r, r1, s, k, If(At(r, id, k), [ShowMessage(c, p, env.now)]));
    }
  }

  /** The question just served, or that there is none left. */
  function ProceedWord(c: Config, r: Room, s: Room, id: PlayerId, env: Env): Packet
    requires id in r.players && id in s.players
  {
    if r.players[id].progress.resolved < |c.questions| && s.players[id].active.Some?
    then ShowMessage(c, s.players[id], env.now)
    else Error(Finished, QNext)
  }

  /** Settling leaves the player with an open one. */
  predicate Blocked(c: Config, r: Room, id: PlayerId, env: Env)
    requires id in r.players
  {
    SettleSeat(c, r.status.Running?, SeatOf(r, id), id, env).player.active.Some?
  }

  function NextFirst(c: Config, r: Room, id: PlayerId, env: Env): seq<Packet>
    requires id in r.players
  {
    if !r.status.Running? then [Error(NotStarted, QNext)]
    else SettleWords(c, r, id, env) + If(Blocked(c, r, id, env), [Error(InProgress, QNext)])
  }

  function NextLast(c: Config, r: Room, s: Room, id: PlayerId, env: Env): seq<Packet>
    requires id in r.players && id in s.players
  {
    if !r.status.Running? || Blocked(c, r, id, env) || Over(r, s) then []
    else [if s.players[id].active.Some? then ShowMessage(c, s.players[id], env.now) else Error(Finished, QNext)]
  }

  /** A save that did not succeed changes neither the session nor the leaderboard. */
  lemma BlockedIsQuiet(c: Config, r: Room, id: PlayerId, env: Env)
    requires WellFormed(r) && id in r.players && Blocked(c, r, id, env)
    ensures var (s, free) := SettleExpired(c, r, id, env);
      && !free && s.status == r.status && s.history == r.history && s.sinks == r.sinks && s.host == r.host
  {
    hide WellFormed, Advanced, Persist, AllFinished, AccountOf, SameForOthers, Advance, OnlyPlayer, SaveToAccount,
         ResultOf;
  }

  lemma BlockedHeard(c: Config, r: Room, r1: Room, s: Room, id: PlayerId, env: Env, k: SinkId, rows: seq<RankRow>,
                     podium: seq<RankRow>)
    requires WellFormed(r) && id in r.players && r.status.Running? && Blocked(c, r, id, env)
    requires r1 == SettleExpired(c, r, id, env).0 && s == NextQuestion(c, r, id, env)
    requires Hears(r, r1, k, If(At(r, id, k), SettleWords(c, r, id, env))
                             + If(k in Held(r), Public(r, r1, rows, podium)))
    ensures Hears(r, s, k, If(At(r, id, k), NextFirst(c, r, id, env)) + If(k in Held(r), Public(r, s, rows, podium))
                           + If(At(r, id, k), NextLast(c, r, s, id, env)))
    ensures Held(s) == Held(r) && s.status == r.status
  {
    hide SettleExpired, Proceed, SendTo, SettleWords, AccountOf, SameForOthers, AllFinished, WellFormed, Blocked, Hears,
         OnlyPlayer, SettleSeat;
    BlockedIsQuiet(c, r, id, env);
    SendHeard(r1, id, Error(InProgress, QNext), k);
    NothingPublic(r, r1, rows, podium);
    NothingPublic(r, s, rows, podium);
    var words, error := If(At(r, id, k), SettleWords(c, r, id, env)), If(At(r, id, k), [Error(InProgress, QNext)]);
    HearsAddsUp(r, r1, s, k, words + If(k in Held(r), []), error);
    assert words + If(k in Held(r), []) + error
        == If(At(r, id, k), NextFirst(c, r, id, env)) + If(k in Held(r), []) + If(At(r, id, k), []);
  }

  lemma FreeHeard(c: Config, r: Room, r1: Room, s: Room, id: PlayerId, env: Env, k: SinkId, rows: seq<RankRow>,
                  podium: seq<RankRow>)
    requires WellFormed(r) && id in r.players && r.status.Running? && !Blocked(c, r, id, env)
    requires r1 == SettleExpired(c, r, id, env).0 && s == NextQuestion(c, r, id, env)
    requires Hears(r, r1, k, If(At(r, id, k), SettleWords(c, r, id, env))
                             + If(k in Held(r), Public(r, r1, rows, podium)))
    requires Held(r1) == (if Over(r, r1) then {} else Held(r)) && (!Over(r, r1) ==> r1.sinks == r.sinks)
    ensures Hears(r, s, k, If(At(r, id, k), NextFirst(c, r, id, env)) + If(k in Held(r), Public(r, s, rows, podium))
                           + If(At(r, id, k), NextLast(c, r, s, id, env)))
    ensures Held(s) == if Over(r, s) then {} else Held(r)
  {
    hide SettleExpired, Proceed, SendTo, SettleWords, AccountOf, SameForOthers, AllFinished, WellFormed, Hears,
         OnlyPlayer, SettleSeat, ShowMessage, Held, ServeSeat;
    FreeSteps(c, r, id, env);
    ProceedHeard(c, r1, id, env, k);
    SamePublicLater(r, r1, s, rows, podium);
    var words, public := If(At(r, id, k), SettleWords(c, r, id, env)), If(k in Held(r), Public(r, r1, rows, podium));
    HearsAddsUp(r, r1, s, k, words + public, If(r1.status.Running? && At(r1, id, k), [ProceedWord(c, r1, s, id, env)]));
    assert NextFirst(c, r, id, env) == SettleWords(c, r, id, env);
    assert If(r1.status.Running? && At(r1, id, k), [ProceedWord(c, r1, s, id, env)])
        == If(At(r, id, k), NextLast(c, r, s, id, env));
  }

  lemma SamePublicLater(r: Room, m: Room, s: Room, rows: seq<RankRow>, podium: seq<RankRow>)
    requires s.status == m.status && s.history == m.history
    ensures Public(r, s, rows, podium) == Public(r, m, rows, podium)
  {
  }

  /** After settling the player is free, and what follows is Proceed. */
  lemma FreeSteps(c: Config, r: Room, id: PlayerId, env: Env)
    requires WellFormed(r) && id in r.players && r.status.Running? && !Blocked(c, r, id, env)
    ensures var (r1, free) := SettleExpired(c, r, id, env);
      var s := NextQuestion(c, r, id, env);
      && WellFormed(r1) && id in r1.players && id in s.players && (r1.status.Running? || r1.status.Ended?)
      && s == Proceed(c, r1, id, env) && s.status == r1.status
      && (s.players[id].active.Some? ==> r1.players[id].progress.resolved < |c.questions|)
      && (r1.status.Running? && r1.players[id].progress.resolved < |c.questions| ==> s.players[id].active.Some?)
  {
    hide SettleExpired, Proceed, SettleSeat, AccountOf, SameForOthers, AllFinished, WellFormed, OnlyPlayer,
         ShuffledOptions, QuestionLimit;
    var (r1, free) := SettleExpired(c, r, id, env);
    OnlyPlayerKeeps(r, r1, id);
    OnlyPlayerKeeps(r, NextQuestion(c, r, id, env), id);
  }

  lemma NextHeard(c: Config, r: Room, id: PlayerId, env: Env, k: SinkId)
    returns (rows: seq<RankRow>, podium: seq<RankRow>)
    requires WellFormed(r) && id in r.players
    ensures var s := NextQuestion(c, r, id, env);
      && id in s.players
      && Hears(r, s, k, If(At(r, id, k), NextFirst(c, r, id, env)) + If(k in Held(r), Public(r, s, rows, podium))
                        + If(At(r, id, k), NextLast(c, r, s, id, env)))
      && Held(s) == if Over(r, s) then {} else Held(r)
  {
    hide SettleExpired, Proceed, SendTo, SettleSeat, ServeSeat, AccountOf, SameForOthers, AllFinished, WellFormed,
         ShowMessage, Verdict, Held, Public, Hears, SettleWords;
    rows, podium := [], [];
    var s := NextQuestion(c, r, id, env);
    if !r.status.Running? {
      SendHeard(r, id, Error(NotStarted, QNext), k);
      NothingPublic(r, s, rows, podium);
      PersonalOnly(If(At(r, id, k), [Error(NotStarted, QNext)]), k in Held(r), At(r, id, k));
    } else {
      rows, podium := SettleSpoken(c, r, id, env, k);
      var r1 := SettleExpired(c, r, id, env).0;
      var heard := If(At(r, id, k), SettleWords(c, r, id, env)) + If(k in Held(r), Public(r, r1, rows, podium));
      if Blocked(c, r, id, env) {
        BlockedHeard(c, r, r1, s, id, env, k, rows, podium);
      } else {
        FreeHeard(c, r, r1, s, id, env, k, rows, podium);
      }
    }
  }

  lemma PersonalOnly(a: seq<Packet>, held: bool, at: bool)
    ensures a + If(held, []) + If(at, []) == a
  {
  }

  function SubmitWords(c: Config, r: Room, id: PlayerId, question: QuestionId, option: Option<OptionId>,
                       env: Env): seq<Packet>
    requires id in r.players
  {
    var p := r.players[id];
    if !r.status.Running? then [Error(NotStarted, QAnswer)]
    else if p.active.None? || p.active.value.question.id != question then
      [Error(if WasResolved(c, p.progress, question) then AlreadyAnswered else NotServed, QAnswer)]
    else if option.Some? && !HasOption(p.active.value.options, option.value) then [Error(BadOption, QAnswer)]
    else Said(Verdict(c, r, id, OutcomeOf(c, p.progress, p.active.value, option, env.now), true, env))
  }

  lemma SubmitHeard(c: Config, r: Room, id: PlayerId, question: QuestionId, option: Option<OptionId>, env: Env,
                    k: SinkId)
    returns (rows: seq<RankRow>, podium: seq<RankRow>)
    requires WellFormed(r) && id in r.players
    ensures var s := SubmitAnswer(c, r, id, question, option, env);
      && Hears(r, s, k, If(At(r, id, k), SubmitWords(c, r, id, question, option, env))
                        + If(k in Held(r), Public(r, s, rows, podium)))
      && Held(s) == if Over(r, s) then {} else Held(r)
  {
    hide Resolve, SendTo, OutcomeOf, ResolveSeat, AllFinished, AccountOf, SameForOthers, WellFormed, Verdict, Hears,
         OnlyPlayer, Held, Public, WasResolved, HasOption;
    rows, podium := [], [];
    var p := r.players[id];
    var s := SubmitAnswer(c, r, id, question, option, env);
    var words := SubmitWords(c, r, id, question, option, env);
    if r.status.Running? && p.active.Some? && p.active.value.question.id == question
       && (option.Some? ==> HasOption(p.active.value.options, option.value))
    {
      rows, podium := ResolveHeard(c, r, id, OutcomeOf(c, p.progress, p.active.value, option, env.now), true, env, k);
    } else {
      SendHeard(r, id, words[0], k);
      NothingPublic(r, s, rows, podium);
      NothingAdded(If(At(r, id, k), words), If(k in Held(r), []));
    }
  }

  // ---------------------------------------------------------------- connecting, leaving, being removed

  /** The replaced connection is closed; nobody else hears of it. */
  lemma ReleaseHeard(r: Room, id: PlayerId, k: SinkId)
    requires WellFormed(r)
    ensures var s := Released(r, id);
      && Hears(r, s, k, If(At(r, id, k), [Closed]))
      && Held(s) == (if id in r.sinks then Held(r) - {r.sinks[id]} else Held(r))
  {
    assert k in r.wire ==> r.wire[k] + [] == r.wire[k];
    if id in r.sinks { ReleasedHolds(r, id); }
  }

  lemma ReleasedHolds(r: Room, id: PlayerId)
    requires WellFormed(r) && id in r.sinks
    ensures (r.sinks - {id}).Values == r.sinks.Values - {r.sinks[id]}
    ensures r.host.Some? ==> r.host.value != r.sinks[id]
  {
    forall k ensures k in (r.sinks - {id}).Values <==> k in r.sinks.Values - {r.sinks[id]} {
      if k in r.sinks.Values && k != r.sinks[id] {
        var p :| p in r.sinks && r.sinks[p] == k;
        assert p in r.sinks - {id} && (r.sinks - {id})[p] == k;
      }
    }
  }

  /** What a connection hears first: the state of the room and the open question, or that the room is over. */
  function Greeting(c: Config, s: Room, id: PlayerId, now: nat, podium: seq<RankRow>): seq<Packet>
    requires id in s.players
  {
    var p := s.players[id];
    if s.status.Ended? then [RoomEnded(podium), Closed]
    else [RoomState(s.status, p.progress.resolved, p.progress.score, p.progress.streak, s.order)]
         + If(s.status.Running? && p.active.Some?, if p.active.Some? then [ShowMessage(c, p, now)] else [])
  }

  lemma TakingHolds(r: Room, id: PlayerId, sink: SinkId)
    requires id !in r.sinks
    ensures r.sinks[id := sink].Values == r.sinks.Values + {sink}
  {
    forall k | k in r.sinks.Values ensures k in r.sinks[id := sink].Values {
      var p :| p in r.sinks && r.sinks[p] == k;
      assert r.sinks[id := sink][p] == k;
    }
    assert r.sinks[id := sink][id] == sink;
  }

  lemma WelcomeHeard(c: Config, r: Room, id: PlayerId, sink: SinkId, now: nat, k: SinkId)
    returns (podium: seq<RankRow>)
    requires WellFormed(r) && id in r.players && id !in r.sinks && sink !in r.wire
    ensures var s := Welcome(c, r, id, sink, now);
      && Hears(r, s, k, []) && sink in s.wire && s.wire[sink] == Greeting(c, s, id, now, podium)
      && Held(s) == if r.status.Ended? then Held(r) else Held(r) + {sink}
  {
    hide ShowMessage, Podium, WellFormed;
    podium := Podium(r);
    assert k in r.wire ==> r.wire[k] + [] == r.wire[k];
    TakingHolds(r, id, sink);
  }

  lemma AttachHeard(c: Config, r: Room, id: PlayerId, sink: SinkId, env: Env, k: SinkId)
    returns (rows: seq<RankRow>, podium: seq<RankRow>, last: seq<RankRow>)
    requires WellFormed(r) && id in r.players && sink !in r.wire && !r.status.Ended?
    ensures var s := AttachPlayer(c, r, id, sink, env);
      && id in s.players && sink in s.wire && s.wire[sink] == Greeting(c, s, id, env.now, last)
      && Hears(r, s, k, if At(r, id, k) then [Closed] else If(k in Held(r), Public(r, s, rows, podium)))
      && Held(s) == if Over(r, s) then {} else Held(r) - (if id in r.sinks then {r.sinks[id]} else {}) + {sink}
  {
    hide Welcome, SettleExpired, Released, SettleSeat, AllFinished, AccountOf, SameForOthers, WellFormed, Hears, Held,
         Public, OnlyPlayer, Greeting, SettleWords;
    var r1 := Released(r, id);
    ReleaseHeard(r, id, k);
    rows, podium := SettleSpoken(c, r1, id, env, k);
    var r2 := SettleUnattached(c, r, id, env);
    AttachedStatus(c, r, id, env);
    last := WelcomeHeard(c, r2, id, sink, env.now, k);
    var s := AttachPlayer(c, r, id, sink, env);
    ReplacedIsHeld(r, id, k);
    SamePublicLater(r1, r2, s, rows, podium);
    SamePublic(r, r1, s, rows, podium);
    var released, public := If(At(r, id, k), [Closed]), If(k in Held(r1), Public(r, s, rows, podium));
    HearsAddsUp(r, r1, r2, k, released, [] + public);
    HearsAddsUp(r, r2, s, k, released + ([] + public), []);
    assert released + ([] + public) + []
        == if At(r, id, k) then [Closed] else If(k in Held(r), Public(r, s, rows, podium));
  }

  lemma ReplacedIsHeld(r: Room, id: PlayerId, k: SinkId)
    ensures At(r, id, k) ==> k in Held(r)
  {
  }

  lemma AttachedStatus(c: Config, r: Room, id: PlayerId, env: Env)
    requires WellFormed(r) && id in r.players && !r.status.Ended?
    ensures var (r1, r2) := (Released(r, id), SettleUnattached(c, r, id, env));
      && r2 == SettleExpired(c, r1, id, env).0 && id in r2.players && r2.wire.Keys == r.wire.Keys
      && (r2.status == r.status || (r.status.Running? && r2.status.Ended?))
  {
    hide SettleExpired, SettleSeat, AllFinished, AccountOf, SameForOthers, WellFormed, OnlyPlayer;
    OnlyPlayerKeeps(r, SettleUnattached(c, r, id, env), id);
    OnlyPlayerSinks(r, SettleUnattached(c, r, id, env), id);
  }

  /** A kicked player hears of it and is closed; everybody else hears what is public. */
  lemma KickHeard(c: Config, r: Room, id: PlayerId, env: Env, k: SinkId)
    returns (rows: seq<RankRow>, podium: seq<RankRow>)
    requires WellFormed(r) && id in r.players
    ensures var s := Kick(c, r, id, env);
      var gone := DeletePlayer(r.tables, id, env.delete).1;
      && (!gone ==> s.wire == r.wire && Held(s) == Held(r) && s.history == r.history && s.status == r.status)
      && (gone ==>
            && Hears(r, s, k, if At(r, id, k) then [Kicked, Closed] else If(k in Held(r), Public(r, s, rows, podium)))
            && Held(s) == if Over(r, s) then {} else Held(r) - if id in r.sinks then {r.sinks[id]} else {})
  {
    hide Removed, Farewell, MarkLeaderboardDirty, EndIfAllFinished, AllFinished, WellFormed, DeletePlayer, Hears,
         Public;
    rows, podium := [], [];
    var (r0, gone) := Deleted(r, id, env);
    if gone {
      SinksAreOpen(r0);
      var r1 := Removed(c, r0, id, env);
      var r2 := if id in r0.sinks then Farewell(r1, r0.sinks[id]) else r1;
      FarewellHeard(r0, r1, r2, id, k);
      rows := MarkHeard(c, r2, env, k, podium);
      var r3 := MarkLeaderboardDirty(c, r2, env);
      podium := EndIfHeard(c, r3, env, k, rows);
      var s := EndIfAllFinished(c, r3, env);
      PublicHeard(r2, r3, s, k, rows, podium);
      AfterFarewell(r, r0, r2, s, id, k, rows, podium);
    }
  }

  lemma FarewellHeard(r: Room, r1: Room, r2: Room, id: PlayerId, k: SinkId)
    requires WellFormed(r) && r1.wire == r.wire && r1.host == r.host && r1.sinks == r.sinks - {id}
    requires WellFormed(r1) && (id in r.sinks ==> r.sinks[id] in r.wire)
    requires r2 == if id in r.sinks then Farewell(r1, r.sinks[id]) else r1
    ensures Hears(r, r2, k, If(At(r, id, k), [Kicked, Closed]))
    ensures Held(r2) == if id in r.sinks then Held(r) - {r.sinks[id]} else Held(r)
  {
    if id in r.sinks { ReleasedHolds(r, id); } else { assert r.sinks - {id} == r.sinks; }
    hide WellFormed, Held;
    assert k in r.wire ==> r.wire[k] + [] == r.wire[k];
    FarewellHolds(r, r1, r2, id);
  }

  lemma FarewellHolds(r: Room, r1: Room, r2: Room, id: PlayerId)
    requires r1.host == r.host && r1.sinks == r.sinks - {id} && r2 == r1.(wire := r2.wire)
    requires id in r.sinks ==> r1.sinks.Values == r.sinks.Values - {r.sinks[id]}
    requires id in r.sinks && r.host.Some? ==> r.host.value != r.sinks[id]
    requires id !in r.sinks ==> r1.sinks == r.sinks
    ensures Held(r2) == if id in r.sinks then Held(r) - {r.sinks[id]} else Held(r)
  {
  }

  lemma AfterFarewell(r: Room, r0: Room, r2: Room, s: Room, id: PlayerId, k: SinkId, rows: seq<RankRow>,
                      podium: seq<RankRow>)
    requires r0.wire == r.wire && r0.host == r.host && r0.sinks == r.sinks
    requires r2.status == r.status && r2.history == r.history
    requires Hears(r0, r2, k, If(At(r0, id, k), [Kicked, Closed]))
    requires Hears(r2, s, k, If(k in Held(r2), Public(r2, s, rows, podium)))
    requires Held(r2) == if id in r0.sinks then Held(r0) - {r0.sinks[id]} else Held(r0)
    ensures Hears(r, s, k, if At(r, id, k) then [Kicked, Closed] else If(k in Held(r), Public(r, s, rows, podium)))
  {
    hide Public;
    SamePublic(r, r2, s, rows, podium);
    HearsAddsUp(r0, r2, s, k, If(At(r0, id, k), [Kicked, Closed]), If(k in Held(r2), Public(r2, s, rows, podium)));
    ReplacedIsHeld(r, id, k);
  }

  lemma NewcomerHeard(r: Room, id: PlayerId, k: SinkId)
    requires WellFormed(r)
    ensures var s := AddPlayerAndNotify(r, id);
      Hears(r, s, k, If(r.host == Some(k), [Joined(id)])) && Held(s) == Held(r)
      && s.order == r.order + if id in r.players then [] else [id]
  {
    assert k in r.wire ==> r.wire[k] + [] == r.wire[k];
    assert r.order + [] == r.order;
    hide WellFormed;
  }

  lemma StartHeard(r: Room, env: Env, k: SinkId, rows: seq<RankRow>, podium: seq<RankRow>)
    requires WellFormed(r)
    ensures var s := StartSession(r, env);
      Hears(r, s, k, If(k in Held(r), Public(r, s, rows, podium))) && Held(s) == Held(r)
  {
    hide WellFormed, Broadcast;
    var (tables, started, failed) := MarkRoomStarted(r.tables, env.mark, env.wall);
    var r1 := r.(tables := tables, status := Running, deadline := Some(env.wall + MAX_ROOM_DURATION));
    OtherFieldsDoNotMatter(r, r1);
    BroadcastHeard(r1, RoomStarted, k);
    assert k in r.wire ==> r.wire[k] + [] == r.wire[k];
  }

  /** A new host connection gets the state of the room without anybody's progress and closes the one before. */
  lemma HostHeard(r: Room, sink: SinkId, isHost: bool, k: SinkId)
    requires WellFormed(r) && sink !in r.wire
    ensures var s := AttachHost(r, sink, isHost);
      && (!isHost ==> s == r)
      && (isHost ==>
            && sink in s.wire && s.wire[sink] == [RoomState(r.status, 0, 0, 0, r.order)]
            && Hears(r, s, k, If(r.host == Some(k), [Closed]))
            && Held(s) == Held(r) - (if r.host.Some? then {r.host.value} else {}) + {sink})
  {
    assert k in r.wire ==> r.wire[k] + [] == r.wire[k];
  }

  lemma DetachHeard(r: Room, sink: SinkId)
    requires WellFormed(r)
    ensures var s := Detach(r, sink); s.wire == r.wire && Held(s) == Held(r) - {sink}
  {
    var s := Detach(r, sink);
    forall k | k in Held(r) && k != sink ensures k in Held(s) {
      if r.host != Some(k) {
        var p :| p in r.sinks && r.sinks[p] == k;
        assert s.sinks[p] == k;
      }
    }
    hide WellFormed;
  }

  // ---------------------------------------------------------------- the events

  /** The handler behind each event. */
  lemma NextStep(c: Config, w: World, i: Input)
    requires Sound(w) && Enabled(w, i) && i.event.Next?
    ensures RoomAfter(c, w, i) == NextQuestion(c, w.room, i.event.player, i.env)
  {
    hide WellFormed, NextQuestion;
  }

  lemma SubmitStep(c: Config, w: World, i: Input)
    requires Sound(w) && Enabled(w, i) && i.event.Submit?
    ensures RoomAfter(c, w, i)
         == SubmitAnswer(c, w.room, i.event.player, i.event.question, i.event.option, i.env)
  {
    hide WellFormed, SubmitAnswer;
  }

  lemma AttachStep(c: Config, w: World, i: Input)
    requires Sound(w) && Enabled(w, i) && i.event.AttachPlayerEvent?
    ensures RoomAfter(c, w, i) == AttachPlayer(c, w.room, i.event.player, i.event.sink, i.env)
  {
    hide WellFormed, AttachPlayer;
  }

  lemma KickStep(c: Config, w: World, i: Input)
    requires Sound(w) && Enabled(w, i) && i.event.KickEvent?
    ensures RoomAfter(c, w, i) == Kick(c, w.room, i.event.player, i.env)
  {
    hide WellFormed, Kick;
  }

  lemma OtherStep(c: Config, w: World, i: Input)
    requires Sound(w) && Enabled(w, i) && IsRoomEvent(i.event)
    ensures match i.event
      case AddJoined(p) => RoomAfter(c, w, i) == AddPlayerAndNotify(w.room, p)
      case AttachHostEvent(s, hostId) => RoomAfter(c, w, i) == AttachHost(w.room, s, hostId == c.hostId)
      case DetachEvent(s) => RoomAfter(c, w, i) == Detach(w.room, s)
      case Start => RoomAfter(c, w, i) == StartSession(w.room, i.env)
      case EndByHost => RoomAfter(c, w, i) == EndSession(w.room, i.env)
      case DeadlineFires => RoomAfter(c, w, i) == EndSession(w.room, i.env)
      case BoardTimerFires => RoomAfter(c, w, i) == BoardTimer(c, w.room, i.env)
      case _ => true
  {
    hide WellFormed, AddPlayerAndNotify, AttachHost, Detach, StartSession, EndSession, BoardTimer, NextQuestion,
         SubmitAnswer, AttachPlayer, Kick, NextSeat, SubmitSeat, SettleSeat;
  }

  /** Whose own connection the event is about. */
  predicate Subject(r: Room, e: Event, k: SinkId) {
    match e
    case Next(p) => At(r, p, k)
    case Submit(p, _, _) => At(r, p, k)
    case AttachPlayerEvent(p, _) => At(r, p, k)
    case KickEvent(p) => At(r, p, k)
    case AddJoined(_) => r.host == Some(k)
    case AttachHostEvent(_, _) => r.host == Some(k)
    case _ => false
  }

  /** A connection hears what is public, one that is gone hears nothing. */
  ghost predicate Overhears(r: Room, s: Room, k: SinkId) {
    exists rows, podium :: Hears(r, s, k, If(Connected(r, k), Public(r, s, rows, podium)))
  }

  lemma PlayIsOverheard(c: Config, w: World, i: Input, k: SinkId)
    requires Sound(w) && Enabled(w, i) && (i.event.Next? || i.event.Submit?) && !Subject(w.room, i.event, k)
    requires i.event.player in w.room.players
    ensures Overhears(w.room, RoomAfter(c, w, i), k)
  {
    hide WellFormed, RoomAfter, NextFirst, NextLast, SubmitWords, Hears, Public, Held, Connected;
    ConnectedIsHeld(w.room, k);
    var r := w.room;
    match i.event
    case Next(p) =>
      var rows, podium := NextHeard(c, r, p, i.env, k);
      NextStep(c, w, i);
      var heard := If(k in Held(r), Public(r, RoomAfter(c, w, i), rows, podium));
      assert [] + heard + [] == heard;
    case Submit(p, question, option) =>
      var rows, podium := SubmitHeard(c, r, p, question, option, i.env, k);
      SubmitStep(c, w, i);
      var heard := If(k in Held(r), Public(r, RoomAfter(c, w, i), rows, podium));
      assert [] + heard == heard;
  }

  lemma StrangersDoNothing(c: Config, w: World, i: Input, k: SinkId)
    requires Sound(w) && Enabled(w, i)
    requires i.event.Next? || i.event.Submit? || i.event.AttachPlayerEvent? || i.event.KickEvent?
    requires i.event.player !in w.room.players
    ensures RoomAfter(c, w, i) == w.room && Overhears(w.room, w.room, k)
  {
    hide WellFormed, RoomAfter, NextQuestion, SubmitAnswer, AttachPlayer, Kick;
    match i.event {
      case Next(_) => NextStep(c, w, i);
      case Submit(_, _, _) => SubmitStep(c, w, i);
      case AttachPlayerEvent(_, _) => AttachStep(c, w, i);
      case KickEvent(_) => KickStep(c, w, i);
    }
    QuietIsOverheard(w.room, w.room, k);
  }

  lemma QuietIsOverheard(r: Room, s: Room, k: SinkId)
    requires s.wire == r.wire && s.status == r.status && s.history == r.history
    ensures Overhears(r, s, k)
  {
    HearsNothing(r, s, k);
    NothingPublic(r, s, [], []);
    assert Hears(r, s, k, If(Connected(r, k), Public(r, s, [], [])));
  }

  lemma AttachIsOverheard(c: Config, w: World, i: Input, k: SinkId)
    requires Sound(w) && Enabled(w, i) && i.event.AttachPlayerEvent? && !Subject(w.room, i.event, k)
    requires i.event.player in w.room.players && !w.room.status.Ended?
    ensures Overhears(w.room, RoomAfter(c, w, i), k)
  {
    hide WellFormed, RoomAfter, Hears, Public, Held, Connected, Greeting, AttachPlayer;
    ConnectedIsHeld(w.room, k);
    AttachStep(c, w, i);
    var rows, podium, last := AttachHeard(c, w.room, i.event.player, i.event.sink, i.env, k);
    assert Hears(w.room, RoomAfter(c, w, i), k,
                 If(Connected(w.room, k), Public(w.room, RoomAfter(c, w, i), rows, podium)));
  }

  lemma KickIsOverheard(c: Config, w: World, i: Input, k: SinkId)
    requires Sound(w) && Enabled(w, i) && i.event.KickEvent? && !Subject(w.room, i.event, k)
    requires i.event.player in w.room.players
    ensures Overhears(w.room, RoomAfter(c, w, i), k)
  {
    hide WellFormed, RoomAfter, Hears, Public, Held, Connected, DeletePlayer, Kick, Overhears;
    ConnectedIsHeld(w.room, k);
    KickStep(c, w, i);
    var r, s := w.room, RoomAfter(c, w, i);
    var rows, podium := KickHeard(c, r, i.event.player, i.env, k);
    if DeletePlayer(r.tables, i.event.player, i.env.delete).1 { Overheard(r, s, k, rows, podium); }
    else { QuietIsOverheard(r, s, k); }
  }

  lemma Overheard(r: Room, s: Room, k: SinkId, rows: seq<RankRow>, podium: seq<RankRow>)
    requires Hears(r, s, k, If(Connected(r, k), Public(r, s, rows, podium)))
    ensures Overhears(r, s, k)
  {
  }

  lemma RestIsOverheard(c: Config, w: World, i: Input, k: SinkId)
    requires Sound(w) && IsRoomEvent(i.event) && Enabled(w, i) && !Subject(w.room, i.event, k)
    requires !i.event.Next? && !i.event.Submit? && !i.event.AttachPlayerEvent? && !i.event.KickEvent?
    requires !w.room.status.Ended?
    ensures Overhears(w.room, RoomAfter(c, w, i), k)
  {
    hide WellFormed, RoomAfter, Hears, Public, Held, Connected, AddPlayerAndNotify, AttachHost, Detach, StartSession,
         EndSession, BoardTimer;
    ConnectedIsHeld(w.room, k);
    OtherStep(c, w, i);
    var r, s := w.room, RoomAfter(c, w, i);
    match i.event
    case AddJoined(p) =>
      NewcomerHeard(r, p, k);
      QuietHearers(r, s, k);
    case AttachHostEvent(sink, hostId) =>
      HostHeard(r, sink, hostId == c.hostId, k);
      HearsNothing(r, r, k);
      QuietHearers(r, s, k);
    case DetachEvent(sink) =>
      DetachHeard(r, sink);
      QuietIsOverheard(r, s, k);
    case Start =>
      StartHeard(r, i.env, k, [], []);
      assert Hears(r, s, k, If(Connected(r, k), Public(r, s, [], [])));
    case EndByHost =>
      var podium := EndHeard(r, i.env, k, []);
      assert Hears(r, s, k, If(Connected(r, k), Public(r, s, [], podium)));
    case DeadlineFires =>
      var podium := EndHeard(r, i.env, k, []);
      assert Hears(r, s, k, If(Connected(r, k), Public(r, s, [], podium)));
    case BoardTimerFires =>
      var rows := TimerHeard(c, r, i.env, k, []);
      assert Hears(r, s, k, If(Connected(r, k), Public(r, s, rows, [])));
  }

  lemma QuietHearers(r: Room, s: Room, k: SinkId)
    requires Hears(r, s, k, []) && s.status == r.status && s.history == r.history
    ensures Overhears(r, s, k)
  {
    NothingPublic(r, s, [], []);
    assert Hears(r, s, k, If(Connected(r, k), Public(r, s, [], [])));
  }

  /**
   * In a live room, whatever happens: a connection that the event is not about hears exactly what is public, that is
   * the start, a ranking, the end and its closing; a connection no longer held hears nothing.
   */
  lemma EverybodyHears(c: Config, w: World, i: Input, k: SinkId)
    requires Sound(w) && IsRoomEvent(i.event) && Enabled(w, i) && !Subject(w.room, i.event, k)
    requires !w.room.status.Ended?
    ensures Overhears(w.room, Step(c, w, i).room, k)
  {
    hide Step, WellFormed, RoomAfter, Overhears, EventEnabled, Subject;
    RoomStep(c, w, i);
    if i.event.Next? || i.event.Submit? || i.event.AttachPlayerEvent? || i.event.KickEvent? {
      if i.event.player !in w.room.players { StrangersDoNothing(c, w, i, k); }
      else if i.event.Next? || i.event.Submit? { PlayIsOverheard(c, w, i, k); }
      else if i.event.KickEvent? { KickIsOverheard(c, w, i, k); }
      else { AttachIsOverheard(c, w, i, k); }
    } else {
      RestIsOverheard(c, w, i, k);
    }
  }
}
