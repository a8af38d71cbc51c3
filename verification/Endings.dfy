/** room.ended is told only in the one step that ends the room object, with the right podium. */
module Endings {
  import opened Common
  import opened Questions
  import opened Scoring
  import opened Database
  import opened RoomSpec
  import opened Rank
  import opened World
  import opened Persistence
  import opened Bounds
  import Extremes
  import opened Cache
  import opened Lifecycle

  /** A room.ended message: where it stands in which log, and the podium it names. */
  datatype Telling = Telling(sink: SinkId, position: nat, podium: seq<RankRow>)

  ghost function Told(wire: Wire): iset<Telling> {
    iset t: Telling |
      t.sink in wire && t.position < |wire[t.sink]| && wire[t.sink][t.position] == RoomEnded(t.podium)
  }

  /** The first three of the players, by their keys. */
  ghost predicate Crowned(players: map<PlayerId, Player>, podium: seq<RankRow>) {
    exists ids :: Ranks(players, ids) && podium == RankRows(players, ids[..Min(PODIUM_SIZE, |ids|)])
  }

  ghost function Crownings(players: map<PlayerId, Player>): iset<Telling> {
    iset t: Telling | Crowned(players, t.podium)
  }

  /** Nobody is told of an end unless the room is over, and then the podium is right. */
  ghost predicate Silent(r: Room, s: Room) {
    && (r.status.Ended? ==> s.status.Ended?)
    && Told(s.wire) <= Told(r.wire) + if s.status.Ended? then Crownings(s.players) else iset{}
  }

  lemma TellingOthers(wire: Wire, receivers: set<SinkId>, m: Packet)
    requires receivers <= wire.Keys && !m.RoomEnded?
    ensures Told(Tell(wire, receivers, m)) <= Told(wire)
  {
  }

  lemma ConnectingIsSilent(wire: Wire, k: SinkId, m: Packet)
    requires !m.RoomEnded?
    ensures Told(wire[k := [m]]) <= Told(wire)
  {
  }

  lemma PodiumIsCrowned(r: Room)
    requires WellFormed(r)
    ensures Crowned(r.players, Podium(r))
  {
    hide Ranks, RankRows, Order, Standings;
    MemoryRanks(r);
    OrderedIdsArePlayers(r.players, r.order);
  }

  /** Telling the podium of an ended room. */
  lemma CrowningIsSilent(r: Room, receivers: set<SinkId>)
    requires WellFormed(r) && receivers <= r.wire.Keys
    ensures Told(Tell(r.wire, receivers, RoomEnded(Podium(r)))) <= Told(r.wire) + Crownings(r.players)
  {
    hide Podium, Crowned, WellFormed;
    PodiumIsCrowned(r);
  }

  lemma SendingIsSilent(r: Room, p: PlayerId, m: Packet)
    requires WellFormed(r) && !m.RoomEnded?
    ensures Silent(r, SendTo(r, p, m)) && Silent(r, Broadcast(r, m))
  {
    hide Told, Crownings, Tell;
    TellingOthers(r.wire, Held(r), m);
    if p in r.sinks { TellingOthers(r.wire, {r.sinks[p]}, m); }
  }

  lemma LeaderboardIsSilent(c: Config, r: Room, env: Env)
    requires WellFormed(r)
    ensures Silent(r, SendLeaderboard(c, r, env))
  {
    hide RankedIds, Broadcast, RankRows, Told, Crownings;
    var (r1, ids) := RankedIds(c, r, env);
    SendingIsSilent(r1, 0, Rankings(RankRows(r.players, ids)));
  }

  lemma MarkingIsSilent(c: Config, r: Room, env: Env)
    requires WellFormed(r)
    ensures Silent(r, MarkLeaderboardDirty(c, r, env)) && Silent(r, BoardTimer(c, r, env))
  {
    hide SendLeaderboard, Told, Crownings;
    LeaderboardIsSilent(c, r.(lb := r.lb.(dirty := true)), env);
    LeaderboardIsSilent(c, r.(lb := r.lb.(waiting := false)), env);
  }

  lemma EndedIsSilent(r: Room, env: Env)
    requires WellFormed(r)
    ensures Silent(r, EndSession(r, env))
  {
    hide Podium, Told, Crownings, WellFormed, Tell;
    if !r.status.Ended? {
      var r1 := r.(tables := MarkRoomEnded(r.tables, env.mark), endMarks := r.endMarks + 1, status := Ended);
      OtherFieldsDoNotMatter(r, r1);
      HeldAreOpen(r1);
      CrowningIsSilent(r1, Held(r1));
      var r2 := Broadcast(r1, RoomEnded(Podium(r1)));
      HeldAreOpen(r2);
      TellingOthers(r2.wire, Held(r2), Closed);
    }
  }

  lemma EndIfAllIsSilent(c: Config, r: Room, env: Env)
    requires WellFormed(r)
    ensures Silent(r, EndIfAllFinished(c, r, env))
  {
    hide EndSession, AllFinished, Told, Crownings, WellFormed;
    EndedIsSilent(r, env);
  }

  lemma AdvancedIsSilent(c: Config, r: Room, id: PlayerId, next: Progress, message: Option<Packet>, env: Env)
    requires WellFormed(r) && id in r.players && (message.Some? ==> !message.value.RoomEnded?)
    ensures Silent(r, Advanced(c, r, id, next, message, env))
  {
    hide MarkLeaderboardDirty, EndIfAllFinished, SendTo, SaveStandings, AllFinished, WellFormed, Told, Crownings;
    OnePlayerReplaced(r, id, Player(next, None));
    var r1 := SaveStandings(c, r.(players := r.players[id := Player(next, None)]), [StandingOf(id, next)],
                            env.boardSaves);
    OtherFieldsDoNotMatter(r.(players := r.players[id := Player(next, None)]), r1);
    if message.Some? { SendingIsSilent(r1, id, message.value); }
    var r2 := if message.Some? then SendTo(r1, id, message.value) else r1;
    MarkingIsSilent(c, r2, env);
    EndIfAllIsSilent(c, MarkLeaderboardDirty(c, r2, env), env);
  }

  lemma ResolveIsSilent(c: Config, r: Room, id: PlayerId, out: Outcome, announce: bool, env: Env)
    requires WellFormed(r) && id in r.players && r.players[id].active.Some?
    ensures Silent(r, Resolve(c, r, id, out, announce, env).0)
  {
    hide Advanced, Persist, SendTo, Advance, CorrectOptionId, ResultOf, AccountOf, SameForOthers, AllFinished,
         WellFormed, Told, Crownings;
    var next := Advance(r.players[id].progress, out);
    var result := ResultOf(id, r.players[id].active.value, out, next, next.resolved >= |c.questions|);
    var (r0, error) := Persist(r, result, env);
    var message := Graded(Right(out), CorrectOptionId(r.players[id].active.value.question.options), out.points,
                          next.score,
                          next.streak, next.resolved >= |c.questions|);
    AdvancedIsSilent(c, r0, id, next, if announce then Some(message) else None, env);
    SendingIsSilent(r0, id, Error(if error.DuplicateAnswer? then AlreadyAnswered else Internal, QAnswer));
  }

  lemma SettleIsSilent(c: Config, r: Room, id: PlayerId, env: Env)
    requires WellFormed(r) && id in r.players
    ensures Silent(r, SettleExpired(c, r, id, env).0)
  {
    hide Resolve, Told, Crownings, WellFormed, AllFinished;
    if r.players[id].active.Some? { ResolveIsSilent(c, r, id, TimeoutOutcome(r.players[id].active.value), false, env); }
  }

  lemma ShowingIsSilent(c: Config, r: Room, id: PlayerId, now: nat)
    requires WellFormed(r) && id in r.players && r.players[id].active.Some?
    ensures Silent(r, ShowActive(c, r, id, now))
  {
    hide SendTo, Told, Crownings, WellFormed, Labels;
    SendingIsSilent(r, id, ShowMessage(c, r.players[id], now));
  }

  lemma ProceedIsSilent(c: Config, r: Room, id: PlayerId, env: Env)
    requires WellFormed(r) && id in r.players
    ensures Silent(r, Proceed(c, r, id, env))
  {
    hide ShowActive, SendTo, AllFinished, Told, Crownings, WellFormed;
    SendingIsSilent(r, id, Error(Finished, QNext));
    if r.players[id].progress.resolved < |c.questions| {
      var q := c.questions[r.players[id].progress.resolved];
      var a := Active(q, ShuffledOptions(q, env.draws), env.now, QuestionLimit(q.level, c.jenjang));
      var p := r.players[id].(active := Some(a));
      OnePlayerReplaced(r, id, p);
      ShowingIsSilent(c, r.(players := r.players[id := p]), id, env.now);
    }
  }

  lemma NextIsSilent(c: Config, r: Room, id: PlayerId, env: Env)
    requires WellFormed(r)
    ensures Silent(r, NextQuestion(c, r, id, env))
  {
    hide SettleExpired, Proceed, SendTo, SettleSeat, ServeSeat, AllFinished, AccountOf, SameForOthers, WellFormed, Told,
         Crownings;
    SendingIsSilent(r, id, Error(NotStarted, QNext));
    if id in r.players && r.status.Running? {
      var r1 := SettleExpired(c, r, id, env).0;
      SettleIsSilent(c, r, id, env);
      SendingIsSilent(r1, id, Error(InProgress, QNext));
      ProceedIsSilent(c, r1, id, env);
    }
  }

  lemma SubmitIsSilent(c: Config, r: Room, id: PlayerId, question: QuestionId, option: Option<OptionId>, env: Env)
    requires WellFormed(r)
    ensures Silent(r, SubmitAnswer(c, r, id, question, option, env))
  {
    hide Resolve, SendTo, OutcomeOf, ResolveSeat, AllFinished, AccountOf, SameForOthers, WellFormed, Silent;
    forall code ensures Silent(r, SendTo(r, id, Error(code, QAnswer))) {
      SendingIsSilent(r, id, Error(code, QAnswer));
    }
    SilentToItself(r);
    if id in r.players && r.players[id].active.Some? {
      var p := r.players[id];
      ResolveIsSilent(c, r, id, OutcomeOf(c, p.progress, p.active.value, option, env.now), true, env);
    }
  }

  lemma SilentToItself(r: Room)
    ensures Silent(r, r)
  {
  }

  lemma AttachIsSilent(c: Config, r: Room, id: PlayerId, s: SinkId, env: Env)
    requires WellFormed(r) && s !in r.wire
    ensures Silent(r, AttachPlayer(c, r, id, s, env))
  {
    hide Welcome, SettleExpired, Released, SettleSeat, AllFinished, AccountOf, SameForOthers, WellFormed, Told,
         Crownings;
    if id in r.players {
      ReleasingIsSilent(r, id);
      SettleIsSilent(c, Released(r, id), id, env);
      WelcomeIsSilent(c, SettleUnattached(c, r, id, env), id, s, env.now);
    }
  }

  lemma ReleasingIsSilent(r: Room, id: PlayerId)
    requires WellFormed(r)
    ensures Silent(r, Released(r, id)) && Told(Released(r, id).wire) <= Told(r.wire)
  {
    hide Told, Crownings, Tell;
    if id in r.sinks { TellingOthers(r.wire, {r.sinks[id]}, Closed); }
  }

  lemma WelcomeIsSilent(c: Config, r: Room, id: PlayerId, s: SinkId, now: nat)
    requires WellFormed(r) && id in r.players && id !in r.sinks && s !in r.wire
    ensures Silent(r, Welcome(c, r, id, s, now))
  {
    hide ShowActive, Podium, Told, Crownings;
    if r.status.Ended? {
      FinalGreetingIsSilent(r, s);
    } else {
      var m := StateMessage(r, r.players[id].progress);
      ConnectingIsSilent(r.wire, s, m);
      var r1 := TakeSink(r, id, s, m);
      if r1.players[id].active.Some? { ShowingIsSilent(c, r1, id, now); }
    }
  }

  lemma FinalGreetingIsSilent(r: Room, s: SinkId)
    requires WellFormed(r) && s !in r.wire
    ensures Told(r.wire[s := [RoomEnded(Podium(r)), Closed]]) <= Told(r.wire) + Crownings(r.players)
  {
    hide Podium, Crowned, WellFormed;
    PodiumIsCrowned(r);
  }

  lemma HostIsSilent(r: Room, s: SinkId, isHost: bool)
    requires WellFormed(r) && s !in r.wire
    ensures Silent(r, AttachHost(r, s, isHost))
  {
    hide Told, Crownings, Tell;
    var told := if r.host.Some? then Tell(r.wire, {r.host.value}, Closed) else r.wire;
    if r.host.Some? { TellingOthers(r.wire, {r.host.value}, Closed); }
    ConnectingIsSilent(told, s, StateMessage(r, NO_PROGRESS));
  }

  lemma NewcomerIsSilent(r: Room, id: PlayerId)
    requires WellFormed(r)
    ensures Silent(r, AddPlayerAndNotify(r, id))
  {
    hide Told, Crownings, Tell;
    if r.host.Some? { TellingOthers(r.wire, {r.host.value}, Joined(id)); }
  }

  lemma StartIsSilent(r: Room, env: Env)
    requires WellFormed(r)
    ensures Silent(r, StartSession(r, env))
  {
    hide Broadcast, Told, Crownings;
    var (tables, started, failed) := MarkRoomStarted(r.tables, env.mark, env.wall);
    SendingIsSilent(r.(tables := tables, status := Running, deadline := Some(env.wall + MAX_ROOM_DURATION)), 0,
                    RoomStarted);
  }

  lemma KickIsSilent(c: Config, r: Room, id: PlayerId, env: Env)
    requires WellFormed(r)
    ensures Silent(r, Kick(c, r, id, env))
  {
    hide Removed, Farewell, MarkLeaderboardDirty, EndIfAllFinished, AllFinished, WellFormed, DeletePlayer, Told,
         Crownings;
    if id in r.players {
      var r0 := Deleted(r, id, env).0;
      var r1 := Removed(c, r0, id, env);
      SinksAreOpen(r0);
      if id in r.sinks { FarewellIsSilent(r1, r.sinks[id]); }
      var r2 := if id in r.sinks then Farewell(r1, r.sinks[id]) else r1;
      MarkingIsSilent(c, r2, env);
      EndIfAllIsSilent(c, MarkLeaderboardDirty(c, r2, env), env);
    }
  }

  lemma FarewellIsSilent(r: Room, s: SinkId)
    requires WellFormed(r) && s in r.wire
    ensures Silent(r, Farewell(r, s))
  {
    hide Told, Crownings;
    TellingOthers(r.wire, {s}, Kicked);
    TellingOthers(Tell(r.wire, {s}, Kicked), {s}, Closed);
  }

  lemma EventsAreSilent(c: Config, w: World, i: Input)
    requires Sound(w) && IsRoomEvent(i.event) && Enabled(w, i)
    ensures Silent(w.room, RoomAfter(c, w, i))
  {
    hide AddPlayerAndNotify, AttachPlayer, AttachHost, StartSession, EndSession, BoardTimer, NextQuestion,
         SubmitAnswer, Kick,
         WellFormed, Silent, NextSeat, SubmitSeat, SettleSeat, AllFinished;
    match i.event
    case Next(p) => NextIsSilent(c, w.room, p, i.env);
    case Submit(p, question, option) => SubmitIsSilent(c, w.room, p, question, option, i.env);
    case AttachPlayerEvent(p, s) => AttachIsSilent(c, w.room, p, s, i.env);
    case AttachHostEvent(s, hostId) => HostIsSilent(w.room, s, hostId == c.hostId);
    case KickEvent(p) => KickIsSilent(c, w.room, p, i.env);
    case BoardTimerFires => MarkingIsSilent(c, w.room, i.env);
    case Start => StartIsSilent(w.room, i.env);
    case AddJoined(p) => NewcomerIsSilent(w.room, p);
    case DetachEvent(s) => DetachIsSilent(w.room, s);
    case EndByHost => EndedIsSilent(w.room, i.env);
    case DeadlineFires => EndedIsSilent(w.room, i.env);
  }

  lemma DetachIsSilent(r: Room, s: SinkId)
    requires WellFormed(r)
    ensures Silent(r, Detach(r, s))
  {
  }

  // ---------------------------------------------------------------- over runs

  lemma OtherStepsAreSilent(c: Config, w: World, i: Input)
    requires Sound(w) && Enabled(w, i) && !IsRoomEvent(i.event) && !i.event.Load?
    ensures Told(Step(c, w, i).room.wire) <= Told(w.room.wire)
  {
    hide WellFormed, Told, Crownings;
    if i.event.Shutdown? { ClosingIsSilent(w.room); }
  }

  lemma ClosingIsSilent(r: Room)
    requires WellFormed(r)
    ensures Told(CloseAll(r).wire) <= Told(r.wire)
  {
    hide Told, Crownings;
    TellingOthers(r.wire, Held(r), Closed);
  }

  lemma LoadIsSilent(c: Config, w: World, i: Input)
    requires Sound(w) && Enabled(w, i) && i.event.Load?
    ensures Step(c, w, i).room.wire == w.room.wire
  {
    hide WellFormed, Standings, SaveStandings, Step;
    LoadStep(c, w, i);
  }

  /**
   * In every run, a step in which room.ended is sent is the step that ends the room object: before it the object was
   * alive and had not called MarkRoomEnded; after it it has, and processes nothing more.
   */
  lemma EndIsToldOnce(c: Config, inputs: seq<Input>, last: Input)
    ensures var w := Run(c, CREATED, inputs);
      var v := Step(c, w, last);
      Told(v.room.wire) <= Told(w.room.wire) ||
        (w.live && w.room.endMarks == 0 && v.room.status.Ended? && v.room.endMarks == 1 && !v.live)
  {
    hide Step, Run, Told, EndedOnce, LobbyIsFresh, Crownings;
    var w := Run(c, CREATED, inputs);
    RunsEndOnce(c, inputs);
    StepEndsOnce(c, w, last);
    RunsKeepLobbyFresh(c, inputs);
    StepTells(c, w, last);
  }

  lemma StepTells(c: Config, w: World, i: Input)
    requires Sound(w) && EndedOnce(w.room) && LobbyIsFresh(w) && EndedOnce(Step(c, w, i).room)
    ensures var v := Step(c, w, i);
      && Told(v.room.wire) <= Told(w.room.wire) + Crownings(v.room.players)
      && (Told(v.room.wire) <= Told(w.room.wire) ||
            (w.live && w.room.endMarks == 0 && v.room.status.Ended? && v.room.endMarks == 1 && !v.live))
  {
    hide Step, Told, Crownings, WellFormed, RoomAfter, EventEnabled;
    if !Enabled(w, i) {
      NothingHappens(c, w, i);
    } else if IsRoomEvent(i.event) {
      RoomStep(c, w, i);
      EventsAreSilent(c, w, i);
      LiveIsOpen(w);
    } else if i.event.Load? {
      LoadIsSilent(c, w, i);
    } else {
      OtherStepsAreSilent(c, w, i);
    }
  }

  // ---------------------------------------------------------------- the podium

  /** The best min(3, n) of n players with what they have, nobody listed or left out being better than one before. */
  ghost predicate BestThree(players: map<PlayerId, Player>, podium: seq<RankRow>) {
    && |podium| == Min(PODIUM_SIZE, |players|)
    && (forall i, j :: 0 <= i < j < |podium| ==> podium[i].player != podium[j].player)
    && (forall i :: 0 <= i < |podium| ==>
          && podium[i].player in players
          && podium[i].score == players[podium[i].player].progress.score
          && podium[i].correct == players[podium[i].player].progress.correct)
    && (forall i, p :: 0 <= i < |podium| && p in players && (forall j :: 0 <= j < i ==> podium[j].player != p) ==>
          !StandingOf(p, players[p].progress).Better(StandingOf(podium[i].player,
                                                                players[podium[i].player].progress)))
  }

  /** Whoever the list has not named before a position is not better than whoever stands there. */
  lemma LaterIsNotBetter(players: map<PlayerId, Player>, ids: seq<PlayerId>, i: nat, p: PlayerId)
    requires Ranks(players, ids) && i < |ids| && p in players && forall j :: 0 <= j < i ==> ids[j] != p
    requires StandingOf(p, players[p].progress).Bounded()
    requires ids[i] in players && StandingOf(ids[i], players[ids[i]].progress).Bounded()
    ensures !StandingOf(p, players[p].progress).Better(StandingOf(ids[i], players[ids[i]].progress))
  {
    var k :| 0 <= k < |ids| && ids[k] == p;
    KeyFoldsTheCriteria(StandingOf(p, players[p].progress), StandingOf(ids[i], players[ids[i]].progress));
  }

  lemma RankedAreAll(players: map<PlayerId, Player>, ids: seq<PlayerId>)
    requires Ranks(players, ids)
    ensures |ids| == |players| && Distinct(ids) && forall p :: p in ids ==> p in players
  {
    DistinctSize(ids);
    assert Members(ids) == players.Keys;
  }

  lemma FirstAreBest(players: map<PlayerId, Player>, ids: seq<PlayerId>)
    requires Ranks(players, ids) && forall p :: p in players ==> StandingOf(p, players[p].progress).Bounded()
    ensures BestThree(players, RankRows(players, ids[..Min(PODIUM_SIZE, |ids|)]))
  {
    hide Standing.Better, Standing.Bounded, Ranks;
    RankedAreAll(players, ids);
    var n := Min(PODIUM_SIZE, |ids|);
    var podium := RankRows(players, ids[..n]);
    forall i, j | 0 <= i < j < n ensures podium[i].player != podium[j].player { assert ids[i] != ids[j]; }
    forall i, p | 0 <= i < n && p in players && (forall j :: 0 <= j < i ==> podium[j].player != p)
      ensures !StandingOf(p, players[p].progress).Better(StandingOf(podium[i].player,
                                                                    players[podium[i].player].progress))
    {
      forall j | 0 <= j < i ensures ids[j] != p { assert podium[j].player == ids[j]; }
      LaterIsNotBetter(players, ids, i, p);
    }
  }

  lemma CrownedAreBest(players: map<PlayerId, Player>, podium: seq<RankRow>)
    requires Crowned(players, podium)
    requires forall p :: p in players ==> StandingOf(p, players[p].progress).Bounded()
    ensures BestThree(players, podium)
  {
    hide Standing.Bounded, BestThree;
    var ids :| Ranks(players, ids) && podium == RankRows(players, ids[..Min(PODIUM_SIZE, |ids|)]);
    FirstAreBest(players, ids);
  }

  /**
   * In every run, every room.ended that any step sends names the best min(3, n) of the n players then in the room by
   * the three criteria, with their final scores and numbers of right answers.
   */
  lemma PodiumIsRight(c: Config, inputs: seq<Input>, last: Input, sink: SinkId, position: nat, podium: seq<RankRow>)
    requires Playable(c)
    requires Telling(sink, position, podium) in Told(Step(c, Run(c, CREATED, inputs), last).room.wire)
    requires Telling(sink, position, podium) !in Told(Run(c, CREATED, inputs).room.wire)
    ensures var v := Step(c, Run(c, CREATED, inputs), last);
      !v.live && v.room.status.Ended? && BestThree(v.room.players, podium)
  {
    hide Step, Run, Told, EndedOnce, LobbyIsFresh, Playable, BestThree, Crowned, Standing.Bounded;
    var w := Run(c, CREATED, inputs);
    var v := Step(c, w, last);
    RunsEndOnce(c, inputs);
    StepEndsOnce(c, w, last);
    RunsKeepLobbyFresh(c, inputs);
    StepTells(c, w, last);
    assert Crowned(v.room.players, podium);
    FinalStandingsAreBounded(c, inputs, last);
    CrownedAreBest(v.room.players, podium);
  }

  lemma FinalStandingsAreBounded(c: Config, inputs: seq<Input>, last: Input)
    requires Playable(c)
    ensures var players := Step(c, Run(c, CREATED, inputs), last).room.players;
      forall p :: p in players ==> StandingOf(p, players[p].progress).Bounded()
  {
    hide Step, Run, Playable, Standing.Bounded, Capped;
    Extremes.RunStep(c, CREATED, inputs, last);
    var players := Step(c, Run(c, CREATED, inputs), last).room.players;
    forall p | p in players ensures StandingOf(p, players[p].progress).Bounded() {
      RunsStayCapped(c, inputs + [last], p);
      CappedIsBounded(c, p, players[p].progress);
    }
  }
}
