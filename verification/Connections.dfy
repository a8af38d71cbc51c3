/** What one connection gets to see, from the first message to Close. */
module Connections {
  import opened Common
  import opened Questions
  import opened Scoring
  import opened Database
  import opened RoomSpec
  import opened World

  predicate Ordinary(m: Packet) {
    !m.RoomEnded? && !m.Closed?
  }

  /** A connection still in use: room.state first, then anything but an ending. */
  ghost predicate Open(log: seq<Packet>) {
    log != [] && log[0].RoomState? && forall i :: 0 <= i < |log| ==> Ordinary(log[i])
  }

  /** A closed connection: closed last, at most announcing the end of the room just before. */
  ghost predicate Shut(log: seq<Packet>) {
    && log != [] && log[|log| - 1].Closed?
    && (Open(log[..|log| - 1]) ||
        (|log| >= 2 && log[|log| - 2].RoomEnded? && (|log| == 2 || Open(log[..|log| - 2]))))
  }

  /** Every connection the room holds is open; the others are open (it went away by itself) or shut. */
  ghost predicate Traced(r: Room) {
    forall k :: k in r.wire ==> Open(r.wire[k]) || (k !in Held(r) && Shut(r.wire[k]))
  }

  /** What the log of a connection, held by the room or not, must look like. */
  ghost predicate Promised(log: seq<Packet>, held: bool) {
    && log != [] && (log[0].RoomState? || (|log| == 2 && log[0].RoomEnded? && log[1].Closed?))
    && (forall i :: 0 <= i < |log| && log[i].Closed? ==> i == |log| - 1 && !held)
    && (forall i :: 0 <= i < |log| && log[i].RoomEnded? ==> i == |log| - 2 && log[i + 1].Closed?)
  }

  lemma TracePromise(log: seq<Packet>, held: bool)
    requires Open(log) || (!held && Shut(log))
    ensures Promised(log, held)
  {
    if Shut(log) {
      forall i | 0 <= i < |log| - 2
        ensures Ordinary(log[i])
      {
        if Open(log[..|log| - 1]) {
          assert Ordinary(log[..|log| - 1][i]);
        } else {
          assert Ordinary(log[..|log| - 2][i]);
        }
      }
      if Open(log[..|log| - 1]) && |log| >= 2 { assert Ordinary(log[..|log| - 1][|log| - 2]); }
    }
  }

  // ---------------------------------------------------------------- messages

  lemma StaysOpen(log: seq<Packet>, m: Packet)
    requires Open(log) && Ordinary(m)
    ensures Open(log + [m])
  {
  }

  lemma Closes(log: seq<Packet>)
    requires Open(log)
    ensures Shut(log + [Closed])
  {
    assert (log + [Closed])[..|log|] == log;
  }

  lemma EndsAndCloses(log: seq<Packet>, podium: seq<RankRow>)
    requires Open(log)
    ensures Shut(log + [RoomEnded(podium)] + [Closed])
  {
    assert (log + [RoomEnded(podium)] + [Closed])[..|log|] == log;
  }

  lemma SendingIsTraced(r: Room, p: PlayerId, m: Packet)
    requires WellFormed(r) && Traced(r) && Ordinary(m)
    ensures Traced(SendTo(r, p, m)) && Traced(Broadcast(r, m))
  {
    forall k | k in r.wire
      ensures Open(r.wire[k]) ==> Open(r.wire[k] + [m])
    {
      if Open(r.wire[k]) { StaysOpen(r.wire[k], m); }
    }
    assert forall k :: k in Held(r) ==> Open(r.wire[k]);
    hide Open, Shut;
  }

  lemma ReleasingIsTraced(r: Room, id: PlayerId)
    requires WellFormed(r) && Traced(r)
    ensures Traced(Released(r, id))
  {
    if id in r.sinks {
      assert r.sinks[id] in Held(r);
      Closes(r.wire[r.sinks[id]]);
    }
    hide Open, Shut;
  }

  lemma ClosingIsTraced(r: Room)
    requires WellFormed(r) && Traced(r)
    ensures Traced(CloseAll(r))
  {
    forall k | k in Held(r)
      ensures Shut(r.wire[k] + [Closed])
    {
      Closes(r.wire[k]);
    }
    hide Open, Shut;
  }

  /** After the goodbye nobody is held; whoever was has two messages more. */
  lemma GoodbyeWire(r: Room, m: Packet)
    requires WellFormed(r)
    ensures var s := CloseAll(Broadcast(r, m));
      && Held(s) == {} && s.wire.Keys == r.wire.Keys && Held(r) <= r.wire.Keys
      && (forall k :: k in Held(r) ==> s.wire[k] == r.wire[k] + [m] + [Closed])
      && (forall k :: k in r.wire && k !in Held(r) ==> s.wire[k] == r.wire[k])
  {
    assert Held(Broadcast(r, m)) == Held(r) <= r.wire.Keys;
    hide WellFormed;
  }

  lemma GoodbyeIsTraced(r: Room, podium: seq<RankRow>)
    requires WellFormed(r) && Traced(r)
    ensures Traced(CloseAll(Broadcast(r, RoomEnded(podium))))
  {
    hide WellFormed, CloseAll, Broadcast, Held, Open, Shut;
    GoodbyeWire(r, RoomEnded(podium));
    forall k | k in Held(r)
      ensures Shut(r.wire[k] + [RoomEnded(podium)] + [Closed])
    {
      EndsAndCloses(r.wire[k], podium);
    }
  }

  lemma SameConnections(r: Room, s: Room)
    requires Traced(r) && s.wire == r.wire && s.host == r.host && s.sinks == r.sinks
    ensures Traced(s)
  {
    hide Open, Shut;
  }

  lemma EndingIsTraced(c: Config, r: Room, env: Env)
    requires WellFormed(r) && Traced(r)
    ensures Traced(EndSession(r, env)) && Traced(EndIfAllFinished(c, r, env))
  {
    hide Podium, Broadcast, CloseAll, Open, Shut, AllFinished;
    if !r.status.Ended? {
      var r1 := r.(tables := MarkRoomEnded(r.tables, env.mark), endMarks := r.endMarks + 1, status := Ended);
      OtherFieldsDoNotMatter(r, r1);
      SameConnections(r, r1);
      hide WellFormed, Traced;
      GoodbyeIsTraced(r1, Podium(r1));
    }
  }

  // ---------------------------------------------------------------- handlers

  lemma LeaderboardIsTraced(c: Config, r: Room, env: Env)
    requires WellFormed(r) && Traced(r)
    ensures Traced(SendLeaderboard(c, r, env))
  {
    hide RankedIds, Broadcast, RankRows, Open, Shut;
    var (r1, ids) := RankedIds(c, r, env);
    SendingIsTraced(r1, 0, Rankings(RankRows(r.players, ids)));
  }

  lemma MarkingIsTraced(c: Config, r: Room, env: Env)
    requires WellFormed(r) && Traced(r)
    ensures Traced(MarkLeaderboardDirty(c, r, env)) && Traced(BoardTimer(c, r, env))
  {
    hide SendLeaderboard, Open, Shut;
    LeaderboardIsTraced(c, r.(lb := r.lb.(dirty := true)), env);
    LeaderboardIsTraced(c, r.(lb := r.lb.(waiting := false)), env);
  }

  lemma AdvancedIsTraced(c: Config, r: Room, id: PlayerId, next: Progress, message: Option<Packet>, env: Env)
    requires WellFormed(r) && id in r.players && Traced(r) && (message.Some? ==> Ordinary(message.value))
    ensures Traced(Advanced(c, r, id, next, message, env))
  {
    hide MarkLeaderboardDirty, EndIfAllFinished, SendTo, SaveStandings, AllFinished, Traced, WellFormed;
    OnePlayerReplaced(r, id, Player(next, None));
    var r1 := SaveStandings(c, r.(players := r.players[id := Player(next, None)]), [StandingOf(id, next)],
                            env.boardSaves);
    SameConnections(r, r1);
    OtherFieldsDoNotMatter(r.(players := r.players[id := Player(next, None)]), r1);
    if message.Some? { SendingIsTraced(r1, id, message.value); }
    var r2 := if message.Some? then SendTo(r1, id, message.value) else r1;
    MarkingIsTraced(c, r2, env);
    EndingIsTraced(c, MarkLeaderboardDirty(c, r2, env), env);
  }

  lemma ResolveIsTraced(c: Config, r: Room, id: PlayerId, out: Outcome, announce: bool, env: Env)
    requires WellFormed(r) && id in r.players && r.players[id].active.Some? && Traced(r)
    ensures Traced(Resolve(c, r, id, out, announce, env).0)
  {
    hide Advanced, Persist, SendTo, Advance, CorrectOptionId, ResultOf, AccountOf, SameForOthers, AllFinished,
         WellFormed, Open, Shut;
    var next := Advance(r.players[id].progress, out);
    var result := ResultOf(id, r.players[id].active.value, out, next, next.resolved >= |c.questions|);
    var (r0, error) := Persist(r, result, env);
    var message := Graded(Right(out), CorrectOptionId(r.players[id].active.value.question.options), out.points,
                          next.score,
                          next.streak, next.resolved >= |c.questions|);
    AdvancedIsTraced(c, r0, id, next, if announce then Some(message) else None, env);
    SendingIsTraced(r0, id, Error(if error.DuplicateAnswer? then AlreadyAnswered else Internal, QAnswer));
  }

  lemma SettleIsTraced(c: Config, r: Room, id: PlayerId, env: Env)
    requires WellFormed(r) && id in r.players && Traced(r)
    ensures Traced(SettleExpired(c, r, id, env).0)
  {
    hide Resolve, Traced, WellFormed, AllFinished;
    if r.players[id].active.Some? { ResolveIsTraced(c, r, id, TimeoutOutcome(r.players[id].active.value), false, env); }
  }

  lemma ShowingIsTraced(c: Config, r: Room, id: PlayerId, now: nat)
    requires WellFormed(r) && id in r.players && r.players[id].active.Some? && Traced(r)
    ensures Traced(ShowActive(c, r, id, now))
  {
    hide SendTo, Traced, WellFormed, Labels;
    SendingIsTraced(r, id, ShowMessage(c, r.players[id], now));
  }

  lemma ProceedIsTraced(c: Config, r: Room, id: PlayerId, env: Env)
    requires WellFormed(r) && id in r.players && Traced(r)
    ensures Traced(Proceed(c, r, id, env))
  {
    hide ShowActive, SendTo, AllFinished, Open, Shut;
    SendingIsTraced(r, id, Error(Finished, QNext));
    if r.players[id].progress.resolved < |c.questions| {
      var q := c.questions[r.players[id].progress.resolved];
      var a := Active(q, ShuffledOptions(q, env.draws), env.now, QuestionLimit(q.level, c.jenjang));
      ShowingIsTraced(c, r.(players := r.players[id := r.players[id].(active := Some(a))]), id, env.now);
    }
  }

  lemma NextIsTraced(c: Config, r: Room, id: PlayerId, env: Env)
    requires WellFormed(r) && Traced(r)
    ensures Traced(NextQuestion(c, r, id, env))
  {
    hide SettleExpired, Proceed, SendTo, SettleSeat, ServeSeat, AllFinished, AccountOf, SameForOthers, WellFormed,
         Traced;
    SendingIsTraced(r, id, Error(NotStarted, QNext));
    if id in r.players && r.status.Running? {
      var r1 := SettleExpired(c, r, id, env).0;
      SettleIsTraced(c, r, id, env);
      SendingIsTraced(r1, id, Error(InProgress, QNext));
      ProceedIsTraced(c, r1, id, env);
    }
  }

  lemma SubmitIsTraced(c: Config, r: Room, id: PlayerId, question: QuestionId, option: Option<OptionId>, env: Env)
    requires WellFormed(r) && Traced(r)
    ensures Traced(SubmitAnswer(c, r, id, question, option, env))
  {
    hide Resolve, SendTo, OutcomeOf, ResolveSeat, AllFinished, AccountOf, SameForOthers, WellFormed, Traced;
    forall code ensures Traced(SendTo(r, id, Error(code, QAnswer))) {
      SendingIsTraced(r, id, Error(code, QAnswer));
    }
    if id in r.players && r.players[id].active.Some? {
      var p := r.players[id];
      ResolveIsTraced(c, r, id, OutcomeOf(c, p.progress, p.active.value, option, env.now), true, env);
    }
  }

  /** A connection that has just been attached. */
  lemma WelcomeIsTraced(c: Config, r: Room, id: PlayerId, s: SinkId, now: nat)
    requires WellFormed(r) && id in r.players && id !in r.sinks && s !in r.wire && Traced(r)
    ensures Traced(Welcome(c, r, id, s, now))
  {
    hide ShowActive, Podium;
    if !r.status.Ended? {
      var m := StateMessage(r, r.players[id].progress);
      var r1 := TakeSink(r, id, s, m);
      assert Open([m]);
      assert Traced(r1) by { hide Open, Shut; }
      if r1.players[id].active.Some? { ShowingIsTraced(c, r1, id, now); }
    }
  }

  lemma AttachIsTraced(c: Config, r: Room, id: PlayerId, s: SinkId, env: Env)
    requires WellFormed(r) && s !in r.wire && Traced(r)
    ensures Traced(AttachPlayer(c, r, id, s, env))
  {
    hide Welcome, SettleExpired, Released, SettleSeat, AllFinished, AccountOf, SameForOthers, WellFormed, Traced;
    if id in r.players {
      ReleasingIsTraced(r, id);
      SettleIsTraced(c, Released(r, id), id, env);
      WelcomeIsTraced(c, SettleUnattached(c, r, id, env), id, s, env.now);
    }
  }

  lemma HostIsTraced(r: Room, s: SinkId, isHost: bool)
    requires WellFormed(r) && s !in r.wire && Traced(r)
    ensures Traced(AttachHost(r, s, isHost))
  {
    if r.host.Some? { Closes(r.wire[r.host.value]); }
    assert Open([StateMessage(r, NO_PROGRESS)]);
    hide Open, Shut;
  }

  lemma FarewellIsTraced(r: Room, s: SinkId)
    requires WellFormed(r) && s in r.wire && s !in Held(r) && Traced(r) && Open(r.wire[s])
    ensures Traced(Farewell(r, s))
  {
    StaysOpen(r.wire[s], Kicked);
    Closes(r.wire[s] + [Kicked]);
    hide Open, Shut;
  }

  lemma KickIsTraced(c: Config, r: Room, id: PlayerId, env: Env)
    requires WellFormed(r) && Traced(r)
    ensures Traced(Kick(c, r, id, env))
  {
    hide Removed, Farewell, MarkLeaderboardDirty, EndIfAllFinished, AllFinished, DeletePlayer, Open, Shut;
    if id in r.players {
      var r0 := Deleted(r, id, env).0;
      var r1 := Removed(c, r0, id, env);
      if id in r.sinks { FarewellIsTraced(r1, r.sinks[id]); }
      var r2 := if id in r.sinks then Farewell(r1, r.sinks[id]) else r1;
      MarkingIsTraced(c, r2, env);
      EndingIsTraced(c, MarkLeaderboardDirty(c, r2, env), env);
    }
  }

  lemma StartIsTraced(r: Room, env: Env)
    requires WellFormed(r) && Traced(r)
    ensures Traced(StartSession(r, env))
  {
    hide Broadcast, Open, Shut;
    var (tables, started, failed) := MarkRoomStarted(r.tables, env.mark, env.wall);
    SendingIsTraced(r.(tables := tables, status := Running, deadline := Some(env.wall + MAX_ROOM_DURATION)), 0,
                    RoomStarted);
  }

  lemma NewcomerIsTraced(r: Room, id: PlayerId)
    requires WellFormed(r) && Traced(r)
    ensures Traced(AddPlayerAndNotify(r, id))
  {
    if r.host.Some? { StaysOpen(r.wire[r.host.value], Joined(id)); }
    hide WellFormed, Open, Shut;
  }

  lemma DetachIsTraced(r: Room, s: SinkId)
    requires WellFormed(r) && Traced(r)
    ensures Traced(Detach(r, s))
  {
    hide Open, Shut;
    assert Held(Detach(r, s)) <= Held(r);
  }

  lemma EventsAreTraced(c: Config, w: World, i: Input)
    requires Sound(w) && IsRoomEvent(i.event) && Enabled(w, i) && Traced(w.room)
    ensures Traced(RoomAfter(c, w, i))
  {
    hide AddPlayerAndNotify, Detach, StartSession, EndSession, AttachHost, NextQuestion, SubmitAnswer, AttachPlayer,
         Kick, BoardTimer,
         Traced, WellFormed, AllFinished, NextSeat, SubmitSeat, SettleSeat;
    match i.event
    case Next(p) => NextIsTraced(c, w.room, p, i.env);
    case Submit(p, question, option) => SubmitIsTraced(c, w.room, p, question, option, i.env);
    case AttachPlayerEvent(p, s) => AttachIsTraced(c, w.room, p, s, i.env);
    case AttachHostEvent(s, hostId) => HostIsTraced(w.room, s, hostId == c.hostId);
    case KickEvent(p) => KickIsTraced(c, w.room, p, i.env);
    case BoardTimerFires => MarkingIsTraced(c, w.room, i.env);
    case EndByHost => EndingIsTraced(c, w.room, i.env);
    case DeadlineFires => EndingIsTraced(c, w.room, i.env);
    case Start => StartIsTraced(w.room, i.env);
    case AddJoined(p) => NewcomerIsTraced(w.room, p);
    case DetachEvent(s) => DetachIsTraced(w.room, s);
  }

  /** A new room object holds no connection, and a refused load leaves the old ones alone. */
  lemma LoadedIsTraced(c: Config, r: Room, env: Env)
    requires WellFormed(r) && Traced(r)
    ensures Traced(Loaded(c, r, env).0)
  {
    hide WellFormed, Standings, SaveStandings, Open, Shut;
  }

  lemma StepIsTraced(c: Config, w: World, i: Input)
    requires Sound(w) && Traced(w.room)
    ensures Traced(Step(c, w, i).room)
  {
    hide RoomAfter, WellFormed, CloseAll, Loaded, EventEnabled, Open, Shut;
    if Enabled(w, i) {
      if i.event.Load? { LoadedIsTraced(c, w.room, i.env); }
      if IsRoomEvent(i.event) { EventsAreTraced(c, w, i); }
      if i.event.Shutdown? { ClosingIsTraced(w.room); }
    }
  }

  /**
   * Over every run, what a connection sees starts with room.state or is exactly a room.ended; room.ended
   * comes at most once, last; nothing follows Close; and a connection still held saw neither.
   */
  lemma RunsKeepTheTracePromise(c: Config, inputs: seq<Input>, k: SinkId)
    requires k in Run(c, CREATED, inputs).room.wire
    ensures var r := Run(c, CREATED, inputs).room; Promised(r.wire[k], k in Held(r))
  {
    hide Step, Open, Shut, Promised;
    AllRunsAreTraced(c, inputs);
    var r := Run(c, CREATED, inputs).room;
    TracePromise(r.wire[k], k in Held(r));
  }

  lemma {:induction false} AllRunsAreTraced(c: Config, inputs: seq<Input>)
    ensures Traced(Run(c, CREATED, inputs).room)
  {
    hide Step;
    if inputs != [] {
      hide Traced;
      AllRunsAreTraced(c, inputs[..|inputs| - 1]);
      StepIsTraced(c, Run(c, CREATED, inputs[..|inputs| - 1]), inputs[|inputs| - 1]);
    }
  }
}
