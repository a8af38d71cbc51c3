/** The pace of lb.update: broadcasts keep their distance, and no change of a standing stays unannounced. */
module Throttling {
  import opened Common
  import opened Questions
  import opened Database
  import opened RoomSpec
  import opened World
  import opened Lifecycle

  /** Consecutive broadcasts are at least one interval apart. */
  ghost predicate Spaced(c: Config, history: seq<nat>) {
    forall i :: 0 < i < |history| ==> history[i] - history[i - 1] >= c.lbInterval
  }

  /** The throttle remembers the last broadcast, and waits exactly while a change is unannounced. */
  ghost predicate Timed(c: Config, r: Room, wall: nat) {
    && Spaced(c, r.history)
    && r.lb.last == (if r.history == [] then None else Some(r.history[|r.history| - 1]))
    && (r.lb.last.Some? ==> r.lb.last.value <= wall)
    && (r.lb.dirty <==> r.lb.waiting)
    && (r.lb.waiting ==> r.lb.last.Some? && r.lb.due == r.lb.last.value + c.lbInterval)
  }

  /** No standing changed, nobody left, nothing was broadcast. */
  ghost predicate Quiet(r: Room, s: Room) {
    && s.lb == r.lb && s.history == r.history
    && forall p :: p in r.players ==> p in s.players && s.players[p].progress == r.players[p].progress
  }

  /** A broadcast was made now if the pace allows it, and otherwise a timer runs towards it. */
  ghost predicate Announces(c: Config, r: Room, s: Room, wall: nat) {
    if !r.lb.waiting && (r.lb.last.None? || wall - r.lb.last.value >= c.lbInterval)
    then s.history == r.history + [wall] && !s.lb.dirty && !s.lb.waiting
    else s.history == r.history && s.lb.dirty && s.lb.waiting
  }

  ghost predicate Paced(c: Config, r: Room, s: Room, wall: nat) {
    Timed(c, r, wall) ==> Timed(c, s, wall) && (Quiet(r, s) || Announces(c, r, s, wall))
  }

  /** The timer makes the broadcast that was due. */
  ghost predicate Fires(c: Config, r: Room, s: Room, wall: nat) {
    Timed(c, r, wall) ==>
      Timed(c, s, wall) && s.history == r.history + [wall] && !s.lb.dirty && !s.lb.waiting
  }

  lemma MarkingAnnounces(c: Config, r: Room, env: Env)
    requires WellFormed(r) && Timed(c, r, env.wall)
    ensures var s := MarkLeaderboardDirty(c, r, env); Timed(c, s, env.wall) && Announces(c, r, s, env.wall)
  {
    hide WellFormed, RankedIds, Broadcast, RankRows;
  }

  lemma TimerAnnounces(c: Config, r: Room, env: Env)
    requires WellFormed(r) && !r.status.Ended? && r.lb.waiting && env.wall >= r.lb.due
    ensures Fires(c, r, BoardTimer(c, r, env), env.wall)
  {
    hide WellFormed, RankedIds, Broadcast, RankRows;
  }

  lemma AdvancedIsPaced(c: Config, r: Room, id: PlayerId, next: Progress, message: Option<Packet>, env: Env)
    requires WellFormed(r) && id in r.players
    ensures Paced(c, r, Advanced(c, r, id, next, message, env), env.wall)
  {
    hide MarkLeaderboardDirty, EndIfAllFinished, SendTo, SaveStandings, AllFinished, WellFormed, Timed;
    OnePlayerReplaced(r, id, Player(next, None));
    var r0 := r.(players := r.players[id := Player(next, None)]);
    var r1 := SaveStandings(c, r0, [StandingOf(id, next)], env.boardSaves);
    OtherFieldsDoNotMatter(r0, r1);
    var r2 := if message.Some? then SendTo(r1, id, message.value) else r1;
    TimedDependsOnThrottle(c, r, r2, env.wall);
    if Timed(c, r, env.wall) {
      MarkingAnnounces(c, r2, env);
      TimedDependsOnThrottle(c, MarkLeaderboardDirty(c, r2, env), Advanced(c, r, id, next, message, env), env.wall);
    }
  }

  lemma ResolveIsPaced(c: Config, r: Room, id: PlayerId, out: Outcome, announce: bool, env: Env)
    requires WellFormed(r) && id in r.players && r.players[id].active.Some?
    ensures Paced(c, r, Resolve(c, r, id, out, announce, env).0, env.wall)
  {
    hide Advanced, Persist, Reject, Advance, CorrectOptionId, ResultOf, AccountOf, SameForOthers, AllFinished,
         WellFormed, Timed;
    var next := Advance(r.players[id].progress, out);
    var result := ResultOf(id, r.players[id].active.value, out, next, next.resolved >= |c.questions|);
    var r0 := Persist(r, result, env).0;
    var message := Graded(Right(out), CorrectOptionId(r.players[id].active.value.question.options), out.points,
                          next.score,
                          next.streak, next.resolved >= |c.questions|);
    AdvancedIsPaced(c, r0, id, next, if announce then Some(message) else None, env);
    TimedDependsOnThrottle(c, r, r0, env.wall);
    var s := Resolve(c, r, id, out, announce, env).0;
    if s.lb == r.lb && s.history == r.history { TimedDependsOnThrottle(c, r, s, env.wall); }
  }

  lemma SettleIsPaced(c: Config, r: Room, id: PlayerId, env: Env)
    requires WellFormed(r) && id in r.players
    ensures Paced(c, r, SettleExpired(c, r, id, env).0, env.wall)
  {
    hide Resolve, Spaced, WellFormed, AllFinished;
    if r.players[id].active.Some? { ResolveIsPaced(c, r, id, TimeoutOutcome(r.players[id].active.value), false, env); }
  }

  lemma ProceedIsQuiet(c: Config, r: Room, id: PlayerId, env: Env)
    requires WellFormed(r) && id in r.players
    ensures Quiet(r, Proceed(c, r, id, env))
  {
    hide WellFormed, ShowActive, Reject, AllFinished;
  }

  lemma NextIsPaced(c: Config, r: Room, id: PlayerId, env: Env)
    requires WellFormed(r)
    ensures Paced(c, r, NextQuestion(c, r, id, env), env.wall)
  {
    hide SettleExpired, Proceed, Reject, SettleSeat, ServeSeat, AllFinished, AccountOf, SameForOthers, WellFormed,
         Spaced;
    if id in r.players && r.status.Running? {
      SettleIsPaced(c, r, id, env);
      ProceedIsQuiet(c, SettleExpired(c, r, id, env).0, id, env);
    }
  }

  lemma SubmitIsPaced(c: Config, r: Room, id: PlayerId, question: QuestionId, option: Option<OptionId>, env: Env)
    requires WellFormed(r)
    ensures Paced(c, r, SubmitAnswer(c, r, id, question, option, env), env.wall)
  {
    hide Resolve, Reject, OutcomeOf, ResolveSeat, AllFinished, AccountOf, SameForOthers, WellFormed, Timed, OnlyPlayer;
    var s := SubmitAnswer(c, r, id, question, option, env);
    if s.lb == r.lb && s.history == r.history { TimedDependsOnThrottle(c, r, s, env.wall); }
    if id in r.players && r.players[id].active.Some? {
      var p := r.players[id];
      ResolveIsPaced(c, r, id, OutcomeOf(c, p.progress, p.active.value, option, env.now), true, env);
    }
  }

  lemma AttachIsPaced(c: Config, r: Room, id: PlayerId, s: SinkId, env: Env)
    requires WellFormed(r) && s !in r.wire
    ensures Paced(c, r, AttachPlayer(c, r, id, s, env), env.wall)
  {
    hide Welcome, SettleExpired, Released, SettleSeat, AllFinished, AccountOf, SameForOthers, WellFormed, Spaced;
    if id in r.players { SettleIsPaced(c, Released(r, id), id, env); }
  }

  lemma KickIsPaced(c: Config, r: Room, id: PlayerId, env: Env)
    requires WellFormed(r)
    ensures Paced(c, r, Kick(c, r, id, env), env.wall)
  {
    hide Removed, Farewell, MarkLeaderboardDirty, EndIfAllFinished, AllFinished, WellFormed, Spaced, DeletePlayer;
    if id in r.players && Timed(c, r, env.wall) {
      var r0 := Deleted(r, id, env).0;
      var r1 := Removed(c, r0, id, env);
      SinksAreOpen(r0);
      MarkingAnnounces(c, if id in r.sinks then Farewell(r1, r.sinks[id]) else r1, env);
    }
  }

  /** Every event of a live room keeps the throttle, and announces whatever standings it changes. */
  lemma EventsArePaced(c: Config, w: World, i: Input)
    requires Sound(w) && IsRoomEvent(i.event) && Enabled(w, i) && !w.room.status.Ended?
    ensures !i.event.BoardTimerFires? ==> Paced(c, w.room, RoomAfter(c, w, i), i.env.wall)
    ensures i.event.BoardTimerFires? ==> Fires(c, w.room, RoomAfter(c, w, i), i.env.wall)
  {
    hide NextQuestion, SubmitAnswer, AttachPlayer, Kick, BoardTimer, AddPlayerAndNotify, AttachHost, Detach,
         StartSession, EndSession,
         Paced, Fires, WellFormed, AllFinished, NextSeat, SubmitSeat, SettleSeat;
    match i.event
    case Next(p) => NextIsPaced(c, w.room, p, i.env);
    case Submit(p, question, option) => SubmitIsPaced(c, w.room, p, question, option, i.env);
    case AttachPlayerEvent(p, s) => AttachIsPaced(c, w.room, p, s, i.env);
    case KickEvent(p) => KickIsPaced(c, w.room, p, i.env);
    case BoardTimerFires => TimerAnnounces(c, w.room, i.env);
    case AddJoined(p) => QuietIsPaced(c, w.room, AddPlayerAndNotify(w.room, p), i.env.wall);
    case AttachHostEvent(s, hostId) => QuietIsPaced(c, w.room, AttachHost(w.room, s, hostId == c.hostId), i.env.wall);
    case DetachEvent(s) => QuietIsPaced(c, w.room, Detach(w.room, s), i.env.wall);
    case Start => QuietIsPaced(c, w.room, StartSession(w.room, i.env), i.env.wall);
    case EndByHost => QuietIsPaced(c, w.room, EndSession(w.room, i.env), i.env.wall);
    case DeadlineFires => QuietIsPaced(c, w.room, EndSession(w.room, i.env), i.env.wall);
  }

  /** Events that change no standing leave the throttle alone. */
  lemma QuietIsPaced(c: Config, r: Room, s: Room, wall: nat)
    requires s.lb == r.lb && s.history == r.history
    requires forall p :: p in r.players ==> p in s.players && s.players[p].progress == r.players[p].progress
    ensures Paced(c, r, s, wall)
  {
  }

  lemma StepKeepsTime(c: Config, w: World, i: Input)
    requires Sound(w) && Timed(c, w.room, w.wall) && (w.live ==> !w.room.status.Ended?)
    ensures Timed(c, Step(c, w, i).room, Step(c, w, i).wall)
  {
    hide RoomAfter, WellFormed, EventEnabled, Step, Spaced;
    if !Enabled(w, i) {
      NothingHappens(c, w, i);
    } else if IsRoomEvent(i.event) {
      RoomStep(c, w, i);
      EventsArePaced(c, w, i);
      TimePassesQuietly(c, w.room, w.wall, i.env.wall);
    } else if i.event.Load? {
      LoadStep(c, w, i);
      TimePassesQuietly(c, w.room, w.wall, i.env.wall);
      LoadedIsTimed(c, w.room, i.env);
    } else {
      OutsideStep(c, w, i);
      TimePassesQuietly(c, w.room, w.wall, i.env.wall);
      TimedDependsOnThrottle(c, w.room, Step(c, w, i).room, i.env.wall);
    }
  }

  lemma TimePassesQuietly(c: Config, r: Room, wall: nat, later: nat)
    requires wall <= later
    ensures Timed(c, r, wall) ==> Timed(c, r, later)
  {
  }

  lemma TimedDependsOnThrottle(c: Config, r: Room, s: Room, wall: nat)
    requires s.lb == r.lb && s.history == r.history
    ensures Timed(c, r, wall) <==> Timed(c, s, wall)
  {
  }

  /** A new room object has broadcast nothing; without one the throttle stays as it was. */
  lemma LoadedIsTimed(c: Config, r: Room, env: Env)
    requires WellFormed(r) && Timed(c, r, env.wall)
    ensures Timed(c, Loaded(c, r, env).0, env.wall)
  {
    hide WellFormed, Standings, SaveStandings;
  }

  lemma CreatedIsTimed(c: Config)
    ensures Timed(c, CREATED.room, CREATED.wall)
  {
  }

  /**
   * At every moment of every run, also in the step that ends the session: broadcasts of a room object are spaced, and a
   * pending change has a pending timer.
   */
  lemma {:induction false} RunsAreThrottled(c: Config, inputs: seq<Input>)
    ensures var w := Run(c, CREATED, inputs); Timed(c, w.room, w.wall)
  {
    hide Step, Timed, LobbyIsFresh;
    if inputs == [] {
      CreatedIsTimed(c);
    } else {
      var init, last := inputs[..|inputs| - 1], inputs[|inputs| - 1];
      RunsAreThrottled(c, init);
      RunsKeepLobbyFresh(c, init);
      LiveIsOpen(Run(c, CREATED, init));
      StepKeepsTime(c, Run(c, CREATED, init), last);
    }
  }
}
