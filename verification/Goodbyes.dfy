/** Nobody is dropped in silence: how connections end, and what they hear when the session does. */
module Goodbyes {
  import opened Common
  import opened Database
  import opened RoomSpec
  import opened World
  import opened Persistence
  import opened Messages
  import Endings
  import Lifecycle

  /** The last thing on the log is Close. */
  predicate Closes(log: seq<Packet>) {
    log != [] && log[|log| - 1].Closed?
  }

  /** The last things on the log are room.ended with this podium, and Close. */
  predicate EndsWith(log: seq<Packet>, podium: seq<RankRow>) {
    |log| >= 2 && log[|log| - 2] == RoomEnded(podium) && log[|log| - 1].Closed?
  }

  lemma PublicEnd(r: Room, s: Room, k: SinkId, before: seq<Packet>, rows: seq<RankRow>, podium: seq<RankRow>)
    requires Over(r, s) && k in r.wire && Hears(r, s, k, before + Public(r, s, rows, podium))
    ensures k in s.wire && EndsWith(s.wire[k], podium) && |s.wire[k]| >= |r.wire[k]| + 2
  {
    var more := before + Public(r, s, rows, podium);
    assert |more| >= 2 && more[|more| - 2] == RoomEnded(podium) && more[|more| - 1] == Closed;
  }

  // ---------------------------------------------------------------- one event

  /** Who goes, goes with a Close; in a session that is over, with room.ended first unless it had to go before. */
  ghost predicate GoesRightly(r: Room, s: Room, e: Event, k: SinkId) {
    Connected(r, k) && e != DetachEvent(k) && !Connected(s, k) ==>
      && k in r.wire && k in s.wire && Closes(s.wire[k])
      && (Over(r, s) && !((e.AttachPlayerEvent? || e.KickEvent?) && At(r, e.player, k)) ==>
            exists podium :: EndsWith(s.wire[k], podium) && |s.wire[k]| >= |r.wire[k]| + 2)
  }

  /** The event leaves every connection in place, unless the session is over by it. */
  lemma StayingIsRight(r: Room, s: Room, e: Event, k: SinkId)
    requires Held(s) == Held(r)
    ensures GoesRightly(r, s, e, k)
  {
    hide Held, Over, At;
    ConnectedIsHeld(r, k);
    ConnectedIsHeld(s, k);
  }

  lemma EndingIsRight(r: Room, s: Room, e: Event, k: SinkId, before: seq<Packet>, rows: seq<RankRow>,
                      podium: seq<RankRow>)
    requires WellFormed(r) && Held(s) == if Over(r, s) then {} else Held(r)
    requires Hears(r, s, k, before + If(k in Held(r), Public(r, s, rows, podium)))
    ensures GoesRightly(r, s, e, k)
  {
    hide Hears, Public, At;
    if !Over(r, s) {
      StayingIsRight(r, s, e, k);
    } else if k in Held(r) {
      PublicEnd(r, s, k, before, rows, podium);
    } else {
      ConnectedIsHeld(r, k);
    }
  }

  lemma AskersGoRightly(c: Config, w: World, i: Input, k: SinkId)
    requires Sound(w) && Enabled(w, i) && i.event.Next? && i.event.player in w.room.players
    ensures GoesRightly(w.room, RoomAfter(c, w, i), i.event, k)
    ensures Over(w.room, RoomAfter(c, w, i)) ==> Held(RoomAfter(c, w, i)) == {}
  {
    hide WellFormed, RoomAfter, NextFirst, Hears, Public, Held, Connected, GoesRightly, At, NextQuestion;
    var r, p, s := w.room, i.event.player, RoomAfter(c, w, i);
    NextStep(c, w, i);
    var rows, podium := NextHeard(c, r, p, i.env, k);
    if Over(r, s) {
      var before, public := If(At(r, p, k), NextFirst(c, r, p, i.env)), If(k in Held(r), Public(r, s, rows, podium));
      assert before + public + [] == before + public;
      EndingIsRight(r, s, i.event, k, before, rows, podium);
    } else {
      StayingIsRight(r, s, i.event, k);
    }
  }

  lemma AnswerersGoRightly(c: Config, w: World, i: Input, k: SinkId)
    requires Sound(w) && Enabled(w, i) && i.event.Submit? && i.event.player in w.room.players
    ensures GoesRightly(w.room, RoomAfter(c, w, i), i.event, k)
    ensures Over(w.room, RoomAfter(c, w, i)) ==> Held(RoomAfter(c, w, i)) == {}
  {
    hide WellFormed, RoomAfter, SubmitWords, Hears, Public, Held, Connected, GoesRightly, At, SubmitAnswer, Over;
    var r, e := w.room, i.event;
    SubmitStep(c, w, i);
    var rows, podium := SubmitHeard(c, r, e.player, e.question, e.option, i.env, k);
    EndingIsRight(r, RoomAfter(c, w, i), e, k,
                  If(At(r, e.player, k), SubmitWords(c, r, e.player, e.question, e.option, i.env)), rows, podium);
  }

  lemma AttachedGoRightly(c: Config, w: World, i: Input, k: SinkId)
    requires Sound(w) && Enabled(w, i) && i.event.AttachPlayerEvent? && i.event.player in w.room.players
    requires !w.room.status.Ended?
    ensures GoesRightly(w.room, RoomAfter(c, w, i), i.event, k)
    ensures Over(w.room, RoomAfter(c, w, i)) ==> Held(RoomAfter(c, w, i)) == {}
  {
    hide WellFormed, RoomAfter, Public, Held, Connected, Greeting;
    var r, p := w.room, i.event.player;
    AttachStep(c, w, i);
    var rows, podium, last := AttachHeard(c, r, p, i.event.sink, i.env, k);
    GoneRightly(r, RoomAfter(c, w, i), i.event, k, [Closed], rows, podium);
  }

  /** A connection that the event closes, or that goes with the others. */
  lemma GoneRightly(r: Room, s: Room, e: Event, k: SinkId, words: seq<Packet>, rows: seq<RankRow>,
                    podium: seq<RankRow>)
    requires WellFormed(r) && (e.AttachPlayerEvent? || e.KickEvent?) && Closes(words)
    requires Hears(r, s, k, if At(r, e.player, k) then words else If(k in Held(r), Public(r, s, rows, podium)))
    requires !Over(r, s) ==>
      Held(r) - (if e.player in r.sinks then {r.sinks[e.player]} else {}) <= Held(s)
    ensures GoesRightly(r, s, e, k)
  {
    hide Public;
    ConnectedIsHeld(r, k);
    ConnectedIsHeld(s, k);
    HeldHaveLogs(r, k);
    if k in Held(r) && Over(r, s) && !At(r, e.player, k) {
      assert [] + Public(r, s, rows, podium) == Public(r, s, rows, podium);
      PublicEnd(r, s, k, [], rows, podium);
    }
  }

  lemma HeldHaveLogs(r: Room, k: SinkId)
    requires WellFormed(r)
    ensures k in Held(r) ==> k in r.wire
  {
  }

  lemma KickedGoRightly(c: Config, w: World, i: Input, k: SinkId)
    requires Sound(w) && Enabled(w, i) && i.event.KickEvent? && i.event.player in w.room.players
    ensures GoesRightly(w.room, RoomAfter(c, w, i), i.event, k)
    ensures Over(w.room, RoomAfter(c, w, i)) ==> Held(RoomAfter(c, w, i)) == {}
  {
    hide WellFormed, RoomAfter, Public, Held, Connected, DeletePlayer;
    var r, p := w.room, i.event.player;
    KickStep(c, w, i);
    var rows, podium := KickHeard(c, r, p, i.env, k);
    if DeletePlayer(r.tables, p, i.env.delete).1 {
      GoneRightly(r, RoomAfter(c, w, i), i.event, k, [Kicked, Closed], rows, podium);
    } else {
      StayingIsRight(r, RoomAfter(c, w, i), i.event, k);
    }
  }

  lemma OthersGoRightly(c: Config, w: World, i: Input, k: SinkId)
    requires Sound(w) && IsRoomEvent(i.event) && Enabled(w, i) && !w.room.status.Ended?
    requires !i.event.Next? && !i.event.Submit? && !i.event.AttachPlayerEvent? && !i.event.KickEvent?
    ensures GoesRightly(w.room, RoomAfter(c, w, i), i.event, k)
    ensures Over(w.room, RoomAfter(c, w, i)) ==> Held(RoomAfter(c, w, i)) == {}
  {
    hide WellFormed, RoomAfter, Hears, Public, Held, Connected, AddPlayerAndNotify, AttachHost, Detach, StartSession,
         EndSession, BoardTimer, GoesRightly;
    OtherStep(c, w, i);
    var r, s := w.room, RoomAfter(c, w, i);
    match i.event
    case AddJoined(p) =>
      NewcomerHeard(r, p, k);
      StayingIsRight(r, s, i.event, k);
    case AttachHostEvent(sink, hostId) =>
      HostHeard(r, sink, hostId == c.hostId, k);
      ReplacedHostGoesRightly(r, s, i.event, sink, hostId == c.hostId, k);
    case DetachEvent(sink) =>
      DetachHeard(r, sink);
      DetachedGoRightly(r, s, sink, k);
    case Start =>
      StartHeard(r, i.env, k, [], []);
      StayingIsRight(r, s, i.event, k);
    case BoardTimerFires =>
      var rows := TimerHeard(c, r, i.env, k, []);
      StayingIsRight(r, s, i.event, k);
    case EndByHost => SessionGoesRightly(r, i.env, i.event, k);
    case DeadlineFires => SessionGoesRightly(r, i.env, i.event, k);
  }

  lemma SessionGoesRightly(r: Room, env: Env, e: Event, k: SinkId)
    requires WellFormed(r) && !r.status.Ended?
    ensures GoesRightly(r, EndSession(r, env), e, k) && Held(EndSession(r, env)) == {}
  {
    hide WellFormed, Hears, Public, Held, Connected, EndSession, GoesRightly;
    var podium := EndHeard(r, env, k, []);
    var public := If(k in Held(r), Public(r, EndSession(r, env), [], podium));
    assert [] + public == public;
    EndingIsRight(r, EndSession(r, env), e, k, [], [], podium);
  }

  lemma ReplacedHostGoesRightly(r: Room, s: Room, e: Event, sink: SinkId, isHost: bool, k: SinkId)
    requires WellFormed(r) && !r.status.Ended? && s == r.(host := s.host, wire := s.wire) && e.AttachHostEvent?
    requires !isHost ==> s == r
    requires isHost ==> Hears(r, s, k, If(r.host == Some(k), [Closed]))
    requires isHost ==> Held(s) == Held(r) - (if r.host.Some? then {r.host.value} else {}) + {sink}
    ensures GoesRightly(r, s, e, k)
  {
    ConnectedIsHeld(r, k);
    ConnectedIsHeld(s, k);
    HeldHaveLogs(r, k);
    hide WellFormed, Connected, Held;
  }

  lemma DetachedGoRightly(r: Room, s: Room, sink: SinkId, k: SinkId)
    requires Held(s) == Held(r) - {sink}
    ensures GoesRightly(r, s, DetachEvent(sink), k)
  {
    hide Held;
    ConnectedIsHeld(r, k);
    ConnectedIsHeld(s, k);
  }

  lemma EventsGoRightly(c: Config, w: World, i: Input, k: SinkId)
    requires Sound(w) && IsRoomEvent(i.event) && Enabled(w, i) && !w.room.status.Ended?
    ensures GoesRightly(w.room, RoomAfter(c, w, i), i.event, k)
    ensures Over(w.room, RoomAfter(c, w, i)) ==> Held(RoomAfter(c, w, i)) == {}
  {
    hide WellFormed, RoomAfter, GoesRightly, Held, EventEnabled;
    if i.event.Next? || i.event.Submit? || i.event.AttachPlayerEvent? || i.event.KickEvent? {
      if i.event.player !in w.room.players {
        StrangersDoNothing(c, w, i, k);
        StayingIsRight(w.room, w.room, i.event, k);
      }
      else if i.event.AttachPlayerEvent? { AttachedGoRightly(c, w, i, k); }
      else if i.event.KickEvent? { KickedGoRightly(c, w, i, k); }
      else if i.event.Next? { AskersGoRightly(c, w, i, k); }
      else { AnswerersGoRightly(c, w, i, k); }
    } else {
      OthersGoRightly(c, w, i, k);
    }
  }

  // ---------------------------------------------------------------- over runs

  /** A room object that is gone holds nobody. */
  ghost predicate HoldsIfLive(w: World) {
    !w.live ==> Held(w.room) == {}
  }

  lemma OutsideHolds(c: Config, w: World, i: Input, k: SinkId)
    requires Sound(w) && Enabled(w, i) && !IsRoomEvent(i.event) && !i.event.Load? && HoldsIfLive(w)
    ensures HoldsIfLive(Step(c, w, i)) && (i.event.Crash? || GoesRightly(w.room, Step(c, w, i).room, i.event, k))
  {
    hide WellFormed, CloseAll, Hears, Connected;
    ConnectedIsHeld(w.room, k);
    ConnectedIsHeld(Step(c, w, i).room, k);
    HeldHaveLogs(w.room, k);
    if i.event.Shutdown? { ShutdownCloses(w.room, k); }
  }

  lemma ShutdownCloses(r: Room, k: SinkId)
    requires WellFormed(r)
    ensures Held(CloseAll(r)) == {}
    ensures k in Held(r) ==> k in r.wire && k in CloseAll(r).wire && Closes(CloseAll(r).wire[k])
  {
    HeldHaveLogs(r, k);
    CloseAllHeard(r, k);
  }

  lemma LoadHolds(c: Config, w: World, i: Input, k: SinkId)
    requires Sound(w) && Enabled(w, i) && i.event.Load? && HoldsIfLive(w)
    ensures HoldsIfLive(Step(c, w, i)) && GoesRightly(w.room, Step(c, w, i).room, i.event, k)
  {
    hide WellFormed, Loaded, Step, Connected;
    ConnectedIsHeld(w.room, k);
    LoadStep(c, w, i);
    LoadReloads(c, w.room, i.env, 0);
  }

  lemma EventHolds(c: Config, w: World, i: Input, k: SinkId)
    requires Sound(w) && Enabled(w, i) && IsRoomEvent(i.event) && !w.room.status.Ended?
    ensures HoldsIfLive(Step(c, w, i)) && GoesRightly(w.room, Step(c, w, i).room, i.event, k)
  {
    hide WellFormed, RoomAfter, Step, GoesRightly, Held, EventEnabled;
    RoomStep(c, w, i);
    EventsGoRightly(c, w, i, k);
  }

  lemma StepHolds(c: Config, w: World, i: Input, k: SinkId)
    requires Sound(w) && HoldsIfLive(w) && (w.live ==> !w.room.status.Ended?)
    ensures var v := Step(c, w, i);
      && HoldsIfLive(v)
      && (i.event.Crash? || GoesRightly(w.room, v.room, i.event, k))
  {
    hide Step, EventEnabled, GoesRightly, HoldsIfLive, WellFormed;
    if !Enabled(w, i) {
      NothingHappens(c, w, i);
      StayingIsRight(w.room, w.room, i.event, k);
    }
    else if IsRoomEvent(i.event) { EventHolds(c, w, i, k); }
    else if i.event.Load? { LoadHolds(c, w, i, k); }
    else { OutsideHolds(c, w, i, k); }
  }

  lemma {:induction false} RunsHoldIfLive(c: Config, inputs: seq<Input>)
    ensures HoldsIfLive(Run(c, CREATED, inputs))
  {
    hide Step, HoldsIfLive, Lifecycle.LobbyIsFresh;
    if inputs == [] {
      NobodyHeldAtFirst();
    } else {
      var init := inputs[..|inputs| - 1];
      RunsHoldIfLive(c, init);
      Lifecycle.RunsKeepLobbyFresh(c, init);
      Lifecycle.LiveIsOpen(Run(c, CREATED, init));
      StepHolds(c, Run(c, CREATED, init), inputs[|inputs| - 1], 0);
    }
  }

  lemma NobodyHeldAtFirst()
    ensures HoldsIfLive(CREATED)
  {
  }

  /**
   * In every run a connection that the room lets go of, other than by its own leaving or a crash, hears Close last; and
   * if the session is over by that step, room.ended just before, unless a kick or a newer connection had it closed.
   */
  lemma NobodyGoesInSilence(c: Config, inputs: seq<Input>, last: Input, k: SinkId)
    requires !last.event.Crash?
    ensures GoesRightly(Run(c, CREATED, inputs).room, Step(c, Run(c, CREATED, inputs), last).room, last.event, k)
  {
    hide Step, Run, HoldsIfLive, GoesRightly, Lifecycle.LobbyIsFresh;
    RunsHoldIfLive(c, inputs);
    Lifecycle.RunsKeepLobbyFresh(c, inputs);
    Lifecycle.LiveIsOpen(Run(c, CREATED, inputs));
    StepHolds(c, Run(c, CREATED, inputs), last, k);
  }

  // ---------------------------------------------------------------- the end, a kick, a newer connection

  /** Neither kicked nor replaced in this very step. */
  predicate Spared(r: Room, e: Event, k: SinkId) {
    !((e.AttachPlayerEvent? || e.KickEvent?) && At(r, e.player, k))
  }

  /** Only events of the room end it, and no connection leaves by that event itself. */
  lemma EndingEvent(c: Config, w: World, i: Input, k: SinkId)
    requires Sound(w) && w.live && !w.room.status.Ended? && Step(c, w, i).room.status.Ended? && HoldsIfLive(w)
    ensures Enabled(w, i) && IsRoomEvent(i.event) && !i.event.Crash? && i.event != DetachEvent(k)
    ensures !Connected(Step(c, w, i).room, k)
  {
    hide Step, EventEnabled, HoldsIfLive, WellFormed, RoomAfter;
    if !Enabled(w, i) {
      NothingHappens(c, w, i);
    } else if IsRoomEvent(i.event) {
      RoomStep(c, w, i);
      EventsGoRightly(c, w, i, k);
      ConnectedIsHeld(Step(c, w, i).room, k);
      if i.event == DetachEvent(k) { OtherStep(c, w, i); }
    } else if i.event.Load? {
      LiveIsNotLoaded(w, i);
    } else {
      OutsideStep(c, w, i);
    }
  }

  lemma LiveIsNotLoaded(w: World, i: Input)
    requires Enabled(w, i) && i.event.Load?
    ensures !w.live
  {
  }

  lemma NewEndIsTold(v: Wire, w: Wire, k: SinkId, podium: seq<RankRow>)
    requires k in v && EndsWith(v[k], podium) && (k in w ==> |v[k]| >= |w[k]| + 2)
    ensures Endings.Telling(k, |v[k]| - 2, podium) in Endings.Told(v)
    ensures Endings.Telling(k, |v[k]| - 2, podium) !in Endings.Told(w)
  {
  }

  /**
   * In every run, in the step that ends a session every connection held until then hears room.ended, with the best
   * three of the players, and then Close, as the last things, and is let go.
   */
  lemma EndIsHeard(c: Config, inputs: seq<Input>, last: Input, k: SinkId) returns (podium: seq<RankRow>)
    requires Playable(c)
    requires Run(c, CREATED, inputs).live && Step(c, Run(c, CREATED, inputs), last).room.status.Ended?
    requires Connected(Run(c, CREATED, inputs).room, k) && Spared(Run(c, CREATED, inputs).room, last.event, k)
    ensures var v := Step(c, Run(c, CREATED, inputs), last).room;
      && k in v.wire && EndsWith(v.wire[k], podium) && !Connected(v, k)
      && Endings.BestThree(v.players, podium)
  {
    hide Step, Run, HoldsIfLive, Lifecycle.LobbyIsFresh, Playable, EventEnabled, Connected, Endings.BestThree,
         EndsWith, At;
    var w := Run(c, CREATED, inputs);
    var v := Step(c, w, last);
    RunsHoldIfLive(c, inputs);
    Lifecycle.RunsKeepLobbyFresh(c, inputs);
    Lifecycle.LiveIsOpen(w);
    EndingEvent(c, w, last, k);
    StepHolds(c, w, last, k);
    podium :| EndsWith(v.room.wire[k], podium) && |v.room.wire[k]| >= |w.room.wire[k]| + 2;
    NewEndIsTold(v.room.wire, w.room.wire, k, podium);
    LongEnough(v.room.wire[k], podium);
    Endings.PodiumIsRight(c, inputs, last, k, |v.room.wire[k]| - 2, podium);
  }

  lemma LongEnough(log: seq<Packet>, podium: seq<RankRow>)
    requires EndsWith(log, podium)
    ensures |log| >= 2
  {
  }

  /** The host or the deadline ends the session, and nothing else is said. */
  lemma SessionEndIsHeard(c: Config, w: World, i: Input, k: SinkId) returns (podium: seq<RankRow>)
    requires Sound(w) && Enabled(w, i) && (i.event.EndByHost? || i.event.DeadlineFires?) && !w.room.status.Ended?
    requires Connected(w.room, k)
    ensures var v := Step(c, w, i).room;
      && v.status.Ended? && k in w.room.wire && k in v.wire
      && v.wire[k] == w.room.wire[k] + [RoomEnded(podium), Closed]
  {
    hide Step, WellFormed, RoomAfter, EndSession, Held, Connected;
    RoomStep(c, w, i);
    OtherStep(c, w, i);
    ConnectedIsHeld(w.room, k);
    HeldHaveLogs(w.room, k);
    podium := EndHeard(w.room, i.env, k, []);
  }

  /** A kick that works is told to the kicked player, whose connection is closed and let go. */
  lemma KickIsTold(c: Config, w: World, i: Input, k: SinkId)
    requires Sound(w) && Enabled(w, i) && i.event.KickEvent? && i.env.delete.Works?
    requires i.event.player in w.room.players && At(w.room, i.event.player, k)
    ensures var v := Step(c, w, i).room;
      && k in w.room.wire && k in v.wire && v.wire[k] == w.room.wire[k] + [Kicked, Closed] && !Connected(v, k)
  {
    hide Step, WellFormed, RoomAfter, Kick, Held, Connected;
    RoomStep(c, w, i);
    KickStep(c, w, i);
    ReplacedIsHeld(w.room, i.event.player, k);
    HeldHaveLogs(w.room, k);
    var rows, podium := KickHeard(c, w.room, i.event.player, i.env, k);
    ConnectedIsHeld(Step(c, w, i).room, k);
  }

  /** A newer connection of the same player, or of the host, closes the one before without a word. */
  lemma NewerConnectionCloses(c: Config, w: World, i: Input, k: SinkId)
    requires Sound(w) && Enabled(w, i) && !w.room.status.Ended?
    requires (i.event.AttachPlayerEvent? && i.event.player in w.room.players && At(w.room, i.event.player, k))
          || (i.event.AttachHostEvent? && i.event.hostId == c.hostId && w.room.host == Some(k))
    ensures var v := Step(c, w, i).room;
      && k in w.room.wire && k in v.wire && v.wire[k] == w.room.wire[k] + [Closed] && !Connected(v, k)
  {
    hide Step, WellFormed, RoomAfter, AttachPlayer, AttachHost, Held, Connected, Greeting, Public;
    RoomStep(c, w, i);
    HeldHaveLogs(w.room, k);
    HostIsHeld(w.room, k);
    ConnectedIsHeld(Step(c, w, i).room, k);
    if i.event.AttachPlayerEvent? {
      AttachStep(c, w, i);
      ReplacedIsHeld(w.room, i.event.player, k);
      var rows, podium, last := AttachHeard(c, w.room, i.event.player, i.event.sink, i.env, k);
    } else {
      OtherStep(c, w, i);
      HostHeard(w.room, i.event.sink, true, k);
    }
  }

  lemma HostIsHeld(r: Room, k: SinkId)
    ensures r.host == Some(k) ==> k in Held(r)
  {
  }
}
