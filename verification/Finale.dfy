/** Exactly when a running session is over. */
module Finale {
  import opened Common
  import opened Database
  import opened RoomSpec
  import opened World
  import opened Messages
  import Deliveries
  import Lifecycle

  /** The player got past a question. */
  predicate Moves(r: Room, s: Room, p: PlayerId) {
    p in r.players && p in s.players && s.players[p].progress.resolved > r.players[p].progress.resolved
  }

  lemma ResolvingMoves(c: Config, r: Room, id: PlayerId, out: Outcome, announce: bool, env: Env)
    requires WellFormed(r) && id in r.players && r.players[id].active.Some?
    ensures var s := Resolve(c, r, id, out, announce, env).0; Over(r, s) ==> Moves(r, s, id)
  {
    hide Resolve, WellFormed, AllFinished, AccountOf, SameForOthers, SaveOutcome;
    if !SaveOutcome(c, SeatOf(r, id), id, out, env).1.Saved? {
      Deliveries.UnsavedIsQuiet(c, r, id, out, announce, env);
    }
  }

  lemma SettlingMoves(c: Config, r: Room, id: PlayerId, env: Env)
    requires WellFormed(r) && id in r.players
    ensures var s := SettleExpired(c, r, id, env).0; Over(r, s) ==> Moves(r, s, id)
  {
    hide Resolve, WellFormed, AllFinished, AccountOf, SameForOthers;
    if r.players[id].active.Some? { ResolvingMoves(c, r, id, TimeoutOutcome(r.players[id].active.value), false, env); }
  }

  lemma AskingMoves(c: Config, r: Room, id: PlayerId, env: Env)
    requires WellFormed(r) && id in r.players
    ensures var s := NextQuestion(c, r, id, env); Over(r, s) ==> Moves(r, s, id)
  {
    hide SettleExpired, Proceed, Reject, SettleSeat, ServeSeat, AllFinished, AccountOf, SameForOthers, WellFormed;
    if r.status.Running? { SettlingMoves(c, r, id, env); }
  }

  lemma AnsweringMoves(c: Config, r: Room, id: PlayerId, question: QuestionId, option: Option<OptionId>, env: Env)
    requires WellFormed(r) && id in r.players
    ensures var s := SubmitAnswer(c, r, id, question, option, env); Over(r, s) ==> Moves(r, s, id)
  {
    hide Resolve, Reject, OutcomeOf, ResolveSeat, AllFinished, AccountOf, SameForOthers, WellFormed;
    if r.players[id].active.Some? {
      var p := r.players[id];
      ResolvingMoves(c, r, id, OutcomeOf(c, p.progress, p.active.value, option, env.now), true, env);
    }
  }

  lemma AttachingMoves(c: Config, r: Room, id: PlayerId, sink: SinkId, env: Env)
    requires WellFormed(r) && id in r.players && sink !in r.wire
    ensures var s := AttachPlayer(c, r, id, sink, env); Over(r, s) ==> Moves(r, s, id)
  {
    hide Welcome, SettleExpired, Released, SettleSeat, AllFinished, AccountOf, SameForOthers, WellFormed;
    SettlingMoves(c, Released(r, id), id, env);
  }

  /** The last kick of an empty room does not end it. */
  lemma KickingLeavesSomebody(c: Config, r: Room, id: PlayerId, env: Env)
    requires WellFormed(r) && id in r.players
    ensures var s := Kick(c, r, id, env); Over(r, s) ==> s.players != map[] && id !in s.players
  {
    hide Removed, Farewell, MarkLeaderboardDirty, EndSession, AllFinished, WellFormed, DeletePlayer;
  }

  ghost predicate SomebodyMoves(r: Room, s: Room) {
    exists p :: p in r.players && (p !in s.players || Moves(r, s, p))
  }

  /** Over, that is: somebody moved, somebody is left, and nobody left has a question to answer. */
  ghost predicate OverRightly(c: Config, r: Room, s: Room) {
    Over(r, s) <==>
      SomebodyMoves(r, s) && s.players != map[]
      && forall p :: p in s.players ==> s.players[p].progress.resolved >= |c.questions|
  }

  lemma PlayerEndsRightly(c: Config, r: Room, s: Room, id: PlayerId)
    requires r.status.Running? && id in r.players && OnlyPlayer(r, s.(wire := r.wire, sinks := map[]), id)
    requires Over(r, s) ==> Moves(r, s, id) && AllFinished(c, s.players)
    requires Lifecycle.Waits(c, r, s)
    ensures OverRightly(c, r, s)
  {
    hide SameForOthers;
    assert id in s.players;
    if SomebodyMoves(r, s) { assert s.players != r.players; }
  }

  lemma ConnectionsAside(r: Room, s: Room, id: PlayerId)
    requires OnlyPlayer(r, s, id)
    ensures OnlyPlayer(r, s.(wire := r.wire, sinks := map[]), id)
  {
    hide SameForOthers;
  }

  lemma PlayEndsRightly(c: Config, w: World, i: Input)
    requires Sound(w) && Enabled(w, i) && w.room.status.Running?
    requires i.event.Next? || i.event.Submit? || i.event.AttachPlayerEvent?
    requires i.event.player in w.room.players
    ensures OverRightly(c, w.room, RoomAfter(c, w, i))
  {
    hide WellFormed, RoomAfter, OnlyPlayer, AllFinished, NextSeat, SubmitSeat, SettleSeat, AccountOf, Lifecycle.Waits,
         Over, OverRightly, NextQuestion, SubmitAnswer, AttachPlayer;
    var r, s, env, id := w.room, RoomAfter(c, w, i), i.env, i.event.player;
    SessionAndWire(c, w, i);
    match i.event {
      case Next(_) =>
        NextStep(c, w, i);
        AskingMoves(c, r, id, env);
        Lifecycle.NextWaits(c, r, id, env);
        ConnectionsAside(r, s, id);
      case Submit(_, question, option) =>
        SubmitStep(c, w, i);
        AnsweringMoves(c, r, id, question, option, env);
        Lifecycle.SubmitWaits(c, r, id, question, option, env);
        ConnectionsAside(r, s, id);
      case AttachPlayerEvent(_, sink) =>
        AttachStep(c, w, i);
        AttachingMoves(c, r, id, sink, env);
        Lifecycle.AttachWaits(c, r, id, sink, env);
    }
    OverIsFinished(c, r, s);
    PlayerEndsRightly(c, r, s, id);
  }

  lemma OverIsFinished(c: Config, r: Room, s: Room)
    requires KeepsSession(c, r, s)
    ensures Over(r, s) ==> AllFinished(c, s.players)
  {
    hide AllFinished;
  }

  lemma KickEndsRightly(c: Config, w: World, i: Input)
    requires Sound(w) && Enabled(w, i) && w.room.status.Running? && i.event.KickEvent?
    requires i.event.player in w.room.players
    ensures OverRightly(c, w.room, RoomAfter(c, w, i))
  {
    hide WellFormed, RoomAfter, Kick, DeletePlayer;
    var r, s, p := w.room, RoomAfter(c, w, i), i.event.player;
    KickStep(c, w, i);
    SessionAndWire(c, w, i);
    KickingLeavesSomebody(c, r, p, i.env);
    Lifecycle.KickWaits(c, r, p, i.env);
    if SomebodyMoves(r, s) { assert s.players != r.players; }
  }

  lemma OthersEndNothing(c: Config, w: World, i: Input)
    requires Sound(w) && IsRoomEvent(i.event) && Enabled(w, i) && w.room.status.Running? && !SessionEvent(i.event)
    requires !i.event.Next? && !i.event.Submit? && !i.event.AttachPlayerEvent? && !i.event.KickEvent?
    ensures !Over(w.room, RoomAfter(c, w, i)) && !SomebodyMoves(w.room, RoomAfter(c, w, i))
  {
    hide WellFormed, RoomAfter, AddPlayerAndNotify, AttachHost, Detach, BoardTimer;
    OtherStep(c, w, i);
  }

  /**
   * A running session is over by an event exactly if the host or the deadline ends it, or if by that event somebody got
   * past a question or was removed, players are left, and all of them are through.
   */
  lemma EndsExactly(c: Config, w: World, i: Input)
    requires Sound(w) && IsRoomEvent(i.event) && Enabled(w, i) && w.room.status.Running?
    ensures SessionEvent(i.event) ==> (Over(w.room, Step(c, w, i).room) <==> !i.event.Start?)
    ensures !SessionEvent(i.event) ==> OverRightly(c, w.room, Step(c, w, i).room)
  {
    hide WellFormed, RoomAfter, Step, OverRightly, EventEnabled, StartSession, EndSession;
    RoomStep(c, w, i);
    if SessionEvent(i.event) {
      OtherStep(c, w, i);
    } else if i.event.Next? || i.event.Submit? || i.event.AttachPlayerEvent? || i.event.KickEvent? {
      if i.event.player !in w.room.players {
        StrangersDoNothing(c, w, i, 0);
        NothingEndsNothing(c, w.room);
      }
      else if i.event.KickEvent? { KickEndsRightly(c, w, i); }
      else { PlayEndsRightly(c, w, i); }
    } else {
      OthersEndNothing(c, w, i);
      StillRight(c, w.room, RoomAfter(c, w, i));
    }
  }

  lemma NothingEndsNothing(c: Config, r: Room)
    ensures OverRightly(c, r, r)
  {
  }

  lemma StillRight(c: Config, r: Room, s: Room)
    requires !Over(r, s) && !SomebodyMoves(r, s)
    ensures OverRightly(c, r, s)
  {
  }
}
