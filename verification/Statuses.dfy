/**
 * The status of a session in memory and in its row. They differ in two ways: a start or an end that the database
 * applied differently from what the room object learnt.
 */
module Statuses {
  import opened Common
  import opened Questions
  import opened Database
  import opened RoomSpec
  import opened World
  import opened Lifecycle

  // ---------------------------------------------------------------- what ending leaves in the row

  /** A handler that ends the session leaves what MarkRoomEnded makes of the row's status. */
  ghost predicate Marks(r: Room, s: Room, env: Env) {
    !r.status.Ended? && s.status.Ended? ==>
      s.tables.status == if env.mark.Refused? then r.tables.status else Ended
  }

  lemma EndingMarks(c: Config, r: Room, env: Env)
    requires WellFormed(r)
    ensures Marks(r, EndSession(r, env), env) && Marks(r, EndIfAllFinished(c, r, env), env)
  {
    hide EndSession, AllFinished, WellFormed;
  }

  lemma AdvancedMarks(c: Config, r: Room, id: PlayerId, next: Progress, message: Option<Packet>, env: Env)
    requires WellFormed(r) && id in r.players
    ensures Marks(r, Advanced(c, r, id, next, message, env), env)
  {
    hide MarkLeaderboardDirty, EndIfAllFinished, SendTo, SaveStandings, AllFinished, WellFormed;
    OnePlayerReplaced(r, id, Player(next, None));
    var r0 := r.(players := r.players[id := Player(next, None)]);
    var r1 := SaveStandings(c, r0, [StandingOf(id, next)], env.boardSaves);
    OtherFieldsDoNotMatter(r0, r1);
    EndingMarks(c, MarkLeaderboardDirty(c, if message.Some? then SendTo(r1, id, message.value) else r1, env), env);
  }

  lemma ResolveMarks(c: Config, r: Room, id: PlayerId, out: Outcome, announce: bool, env: Env)
    requires WellFormed(r) && id in r.players && r.players[id].active.Some?
    ensures Marks(r, Resolve(c, r, id, out, announce, env).0, env)
  {
    hide Advanced, Persist, Reject, Advance, CorrectOptionId, ResultOf, AccountOf, SameForOthers, AllFinished,
         WellFormed;
    var next := Advance(r.players[id].progress, out);
    var result := ResultOf(id, r.players[id].active.value, out, next, next.resolved >= |c.questions|);
    var r0 := Persist(r, result, env).0;
    var message := Graded(Right(out), CorrectOptionId(r.players[id].active.value.question.options), out.points,
                          next.score, next.streak, next.resolved >= |c.questions|);
    AdvancedMarks(c, r0, id, next, if announce then Some(message) else None, env);
  }

  lemma SettleMarks(c: Config, r: Room, id: PlayerId, env: Env)
    requires WellFormed(r) && id in r.players
    ensures Marks(r, SettleExpired(c, r, id, env).0, env)
  {
    hide Resolve, AllFinished, WellFormed;
    if r.players[id].active.Some? { ResolveMarks(c, r, id, TimeoutOutcome(r.players[id].active.value), false, env); }
  }

  lemma NextMarks(c: Config, r: Room, id: PlayerId, env: Env)
    requires WellFormed(r)
    ensures Marks(r, NextQuestion(c, r, id, env), env)
  {
    hide SettleExpired, Proceed, Reject, SettleSeat, ServeSeat, AllFinished, AccountOf, SameForOthers, WellFormed;
    if id in r.players && r.status.Running? { SettleMarks(c, r, id, env); }
  }

  lemma SubmitMarks(c: Config, r: Room, id: PlayerId, question: QuestionId, option: Option<OptionId>, env: Env)
    requires WellFormed(r)
    ensures Marks(r, SubmitAnswer(c, r, id, question, option, env), env)
  {
    hide Resolve, Reject, OutcomeOf, ResolveSeat, AllFinished, AccountOf, SameForOthers, WellFormed;
    if id in r.players && r.players[id].active.Some? {
      var p := r.players[id];
      ResolveMarks(c, r, id, OutcomeOf(c, p.progress, p.active.value, option, env.now), true, env);
    }
  }

  lemma AttachMarks(c: Config, r: Room, id: PlayerId, s: SinkId, env: Env)
    requires WellFormed(r) && s !in r.wire
    ensures Marks(r, AttachPlayer(c, r, id, s, env), env)
  {
    hide Welcome, SettleExpired, Released, SettleSeat, AllFinished, AccountOf, SameForOthers, WellFormed;
    if id in r.players { SettleMarks(c, Released(r, id), id, env); }
  }

  lemma KickMarks(c: Config, r: Room, id: PlayerId, env: Env)
    requires WellFormed(r)
    ensures Marks(r, Kick(c, r, id, env), env)
  {
    hide Removed, Farewell, MarkLeaderboardDirty, EndIfAllFinished, AllFinished, WellFormed;
    if id in r.players {
      DeletingLeavesStatus(r.tables, id, env.delete);
      var r0 := Deleted(r, id, env).0;
      var r1 := Removed(c, r0, id, env);
      SinksAreOpen(r0);
      EndingMarks(c, MarkLeaderboardDirty(c, if id in r.sinks then Farewell(r1, r.sinks[id]) else r1, env), env);
    }
  }

  lemma DeletingLeavesStatus(t: Tables, id: PlayerId, fault: Fault)
    ensures DeletePlayer(t, id, fault).0.status == t.status
  {
  }

  lemma EventsMark(c: Config, w: World, i: Input)
    requires Sound(w) && IsRoomEvent(i.event) && Enabled(w, i)
    ensures Marks(w.room, RoomAfter(c, w, i), i.env)
  {
    hide AddPlayerAndNotify, AttachPlayer, AttachHost, Detach, StartSession, EndSession, BoardTimer, NextQuestion,
         SubmitAnswer, Kick,
         WellFormed, NextSeat, SubmitSeat, SettleSeat, AllFinished;
    match i.event
    case Next(p) => NextMarks(c, w.room, p, i.env);
    case Submit(p, question, option) => SubmitMarks(c, w.room, p, question, option, i.env);
    case AttachPlayerEvent(p, s) => AttachMarks(c, w.room, p, s, i.env);
    case KickEvent(p) => KickMarks(c, w.room, p, i.env);
    case EndByHost => EndingMarks(c, w.room, i.env);
    case DeadlineFires => EndingMarks(c, w.room, i.env);
    case _ =>
  }

  // ---------------------------------------------------------------- while the room object lives

  /** A lobby whose row says that the session runs. */
  ghost predicate Lagging(w: World) {
    w.live && w.room.status.Lobby? && w.room.tables.status.Running?
  }

  /** The status of a live room is that of its row, or it lags behind; no clock runs out on a lobby. */
  ghost predicate StatusesFit(w: World) {
    w.live ==>
      && (w.room.status == w.room.tables.status || Lagging(w))
      && !w.room.status.Ended?
      && (w.room.status.Lobby? ==> w.room.deadline.None?)
  }

  /** Since the last load, the acknowledgement of a Start in the lobby was lost. */
  ghost predicate LostStart(c: Config, inputs: seq<Input>) {
    if inputs == [] then false
    else
      var init, last := inputs[..|inputs| - 1], inputs[|inputs| - 1];
      var w := Run(c, CREATED, init);
      if !Enabled(w, last) then LostStart(c, init)
      else if last.event.Load? then false
      else LostStart(c, init) || (last.event.Start? && w.room.status.Lobby? && last.env.mark.AckLost?)
  }

  /** What one step makes of the two statuses of a live room. */
  ghost predicate MovesOn(w: World, v: World, i: Input) {
    && (i.event.Load? && v.live ==> v.room.status == v.room.tables.status)
    && (!i.event.Load? && v.live ==> w.live)
    && (i.event.Start? && w.room.status.Lobby? ==>
          v.room.tables.status == (if i.env.mark.Refused? then w.room.tables.status else Running)
          && v.room.status == (if w.room.tables.status.Lobby? && i.env.mark.Works? then Running else Lobby))
    && (!i.event.Load? && !(i.event.Start? && w.room.status.Lobby?) && v.live ==>
          v.room.status == w.room.status && v.room.tables.status == w.room.tables.status)
  }

  lemma LoadMovesOn(c: Config, w: World, i: Input)
    requires Sound(w) && Enabled(w, i) && i.event.Load?
    ensures MovesOn(w, Step(c, w, i), i) && StatusesFit(Step(c, w, i))
  {
    hide Loaded, WellFormed, Step;
    LoadStep(c, w, i);
    LoadReloads(c, w.room, i.env, 0);
  }

  /** Of the room events only Start in the lobby and the end move a status. */
  lemma RoomEventMovesOn(c: Config, w: World, i: Input)
    requires Sound(w) && IsRoomEvent(i.event) && Enabled(w, i) && StatusesFit(w)
    ensures MovesOn(w, Step(c, w, i), i) && StatusesFit(Step(c, w, i))
    ensures w.room.status.Lobby? ==> (Step(c, w, i).live <==> !i.event.EndByHost?)
  {
    hide RoomAfter, WellFormed, Step, AllFinished;
    RoomStep(c, w, i);
    SessionAndWire(c, w, i);
    if SessionEvent(i.event) { SessionEventMovesOn(c, w, i); }
  }

  lemma SessionEventMovesOn(c: Config, w: World, i: Input)
    requires Sound(w) && SessionEvent(i.event) && Enabled(w, i) && !w.room.status.Ended?
    ensures var s := RoomAfter(c, w, i);
      && (!i.event.Start? ==> s.status.Ended?)
      && (i.event.Start? && !w.room.status.Lobby? ==> s == w.room)
      && (i.event.Start? && w.room.status.Lobby? ==>
            s.tables.status == (if i.env.mark.Refused? then w.room.tables.status
                                else if w.room.tables.status.Lobby? then Running else w.room.tables.status)
            && s.status == (if w.room.tables.status.Lobby? && i.env.mark.Works? then Running else Lobby)
            && (s.status.Lobby? ==> s.deadline == w.room.deadline))
  {
    hide StartSession, EndSession, WellFormed;
  }

  lemma StepKeepsStatusesFit(c: Config, w: World, i: Input)
    requires Sound(w) && StatusesFit(w)
    ensures StatusesFit(Step(c, w, i)) && (Enabled(w, i) ==> MovesOn(w, Step(c, w, i), i))
  {
    hide Step, Enabled, MovesOn, StatusesFit;
    if !Enabled(w, i) { NothingHappens(c, w, i); }
    else if IsRoomEvent(i.event) { RoomEventMovesOn(c, w, i); }
    else if i.event.Load? { LoadMovesOn(c, w, i); }
    else { OutsideMovesOn(c, w, i); }
  }

  lemma OutsideMovesOn(c: Config, w: World, i: Input)
    requires Sound(w) && StatusesFit(w) && Enabled(w, i) && !IsRoomEvent(i.event) && !i.event.Load?
    ensures StatusesFit(Step(c, w, i)) && MovesOn(w, Step(c, w, i), i)
  {
    hide Step, Enabled;
    OutsideStep(c, w, i);
  }

  /**
   * In every run the status of a live room equals that of its row, unless a Start since the last load lost its
   * acknowledgement; then, and only then, a lobby lies over a running row.
   */
  lemma {:induction false} StatusesDifferExactly(c: Config, inputs: seq<Input>)
    ensures var w := Run(c, CREATED, inputs);
      && StatusesFit(w)
      && (w.live ==> (w.room.status != w.room.tables.status <==> LostStart(c, inputs)))
  {
    hide Step, Enabled;
    if inputs != [] {
      var init, last := inputs[..|inputs| - 1], inputs[|inputs| - 1];
      var w := Run(c, CREATED, init);
      hide Sound;
      StatusesDifferExactly(c, init);
      StepKeepsStatusesFit(c, w, last);
      if !Enabled(w, last) { NothingHappens(c, w, last); }
    }
  }

  // ---------------------------------------------------------------- a lost start

  /** What ends a room object that waits in its lobby. */
  predicate Stops(e: Event) {
    e.Crash? || e.Shutdown? || e.EndByHost?
  }

  lemma LaggingLasts(c: Config, w: World, i: Input)
    requires Sound(w) && StatusesFit(w) && Lagging(w) && Enabled(w, i)
    ensures Lagging(Step(c, w, i)) <==> !Stops(i.event)
  {
    hide Step, Enabled;
    if IsRoomEvent(i.event) { RoomEventMovesOn(c, w, i); }
    else if i.event.Load? { LiveRoomsAreNotLoaded(w, i); }
    else { OutsideStep(c, w, i); }
  }

  lemma LiveRoomsAreNotLoaded(w: World, i: Input)
    requires Enabled(w, i) && i.event.Load?
    ensures !w.live
  {
  }

  lemma LaggingStep(c: Config, w: World, i: Input)
    requires Sound(w) && StatusesFit(w) && LobbyIsFresh(w) && Lagging(w) && !Stops(i.event)
    ensures StatusesFit(Step(c, w, i)) && LobbyIsFresh(Step(c, w, i)) && Lagging(Step(c, w, i))
  {
    hide Step, Enabled, StatusesFit, LobbyIsFresh;
    StepKeepsStatusesFit(c, w, i);
    StepKeepsLobbyFresh(c, w, i);
    if Enabled(w, i) { LaggingLasts(c, w, i); } else { NothingHappens(c, w, i); }
  }

  lemma {:induction false} LaggingRun(c: Config, w: World, more: seq<Input>)
    requires Sound(w) && StatusesFit(w) && LobbyIsFresh(w) && Lagging(w)
    requires forall k :: 0 <= k < |more| ==> !Stops(more[k].event)
    ensures var v := Run(c, w, more); StatusesFit(v) && LobbyIsFresh(v) && Lagging(v)
  {
    hide Step, StatusesFit, LobbyIsFresh, Lagging, Sound;
    if more != [] {
      var init, last := more[..|more| - 1], more[|more| - 1];
      assert forall k :: 0 <= k < |init| ==> init[k] == more[k];
      LaggingRun(c, w, init);
      LaggingStep(c, Run(c, w, init), last);
    }
  }

  /**
   * After a lost Start the room object refuses every further one, whatever the database answers, and nobody resolves a
   * question, until the object is gone: by a crash, a shutdown or the host's end.
   */
  lemma LostStartLasts(c: Config, inputs: seq<Input>, more: seq<Input>, id: PlayerId)
    requires Run(c, CREATED, inputs).live && LostStart(c, inputs)
    requires forall k :: 0 <= k < |more| ==> !Stops(more[k].event)
    ensures var v := Run(c, Run(c, CREATED, inputs), more);
      Lagging(v) && (id in v.room.players ==> v.room.players[id].progress.resolved == 0)
  {
    hide Run, LostStart, LobbyIsFresh;
    StatusesDifferExactly(c, inputs);
    RunsKeepLobbyFresh(c, inputs);
    LaggingRun(c, Run(c, CREATED, inputs), more);
    LobbyPlayersAreFresh(Run(c, Run(c, CREATED, inputs), more), id);
  }

  lemma LobbyPlayersAreFresh(w: World, id: PlayerId)
    requires LobbyIsFresh(w) && Lagging(w)
    ensures id in w.room.players ==> w.room.players[id].progress.resolved == 0
  {
    assert FreshFor(w, id);
  }

  // ---------------------------------------------------------------- an end that is not marked

  /** Nothing but joins. */
  ghost predicate OnlyJoins(inputs: seq<Input>) {
    forall k :: 0 <= k < |inputs| ==> inputs[k].event.Join? || inputs[k].event.LoseJoined?
  }

  lemma {:induction false} JoinsLeaveStatus(c: Config, w: World, between: seq<Input>)
    requires Sound(w) && OnlyJoins(between)
    ensures var v := Run(c, w, between);
      v.live == w.live && v.room.tables.status == w.room.tables.status
      && v.room.tables.startedAt == w.room.tables.startedAt
  {
    hide Step, Enabled;
    if between != [] {
      var init, last := between[..|between| - 1], between[|between| - 1];
      assert forall k :: 0 <= k < |init| ==> init[k] == between[k];
      JoinsLeaveStatus(c, w, init);
      if Enabled(Run(c, w, init), last) { OutsideStep(c, Run(c, w, init), last); }
      else { NothingHappens(c, Run(c, w, init), last); }
    }
  }

  /** The step that ends a live room object leaves the row's status alone or makes it Ended. */
  lemma EndingStep(c: Config, w: World, i: Input)
    requires Sound(w) && w.live && !w.room.status.Ended? && Step(c, w, i).room.status.Ended?
    ensures var v := Step(c, w, i);
      && !v.live && v.room.tables.startedAt == w.room.tables.startedAt
      && v.room.tables.status == if i.env.mark.Refused? then w.room.tables.status else Ended
  {
    hide Step, Enabled, RoomAfter, WellFormed;
    if !Enabled(w, i) { NothingHappens(c, w, i); }
    else if IsRoomEvent(i.event) {
      RoomStep(c, w, i);
      EventsMark(c, w, i);
      SessionAndWire(c, w, i);
      if SessionEvent(i.event) { SessionEventKeepsStart(c, w, i); }
    } else if i.event.Load? { LiveRoomsAreNotLoaded(w, i); }
    else { OutsideStep(c, w, i); }
  }

  lemma SessionEventKeepsStart(c: Config, w: World, i: Input)
    requires Sound(w) && SessionEvent(i.event) && Enabled(w, i) && RoomAfter(c, w, i).status.Ended?
    ensures RoomAfter(c, w, i).tables.startedAt == w.room.tables.startedAt
  {
    hide StartSession, EndSession, WellFormed;
  }

  lemma EndedReturns(c: Config, w: World, last: Input, between: seq<Input>, load: Input)
    requires Sound(w) && w.live && !w.room.status.Ended? && !w.room.tables.status.Ended?
    requires Step(c, w, last).room.status.Ended? && OnlyJoins(between)
    requires load.event.Load? && Enabled(Run(c, Step(c, w, last), between), load)
    ensures Step(c, Run(c, Step(c, w, last), between), load).live
        <==> last.env.mark.Refused? && !Expired(w.room.tables, load.env.wall)
  {
    hide Step, Enabled, Run, Sound, OnlyJoins;
    EndingStep(c, w, last);
    JoinsLeaveStatus(c, Step(c, w, last), between);
    LoadIsLive(c, Run(c, Step(c, w, last), between), load);
  }

  /**
   * A session that ended for everybody comes back with the next load exactly if MarkRoomEnded was refused and, should
   * its row say that it runs, its time is not up.
   */
  lemma UnmarkedEndReturns(c: Config, inputs: seq<Input>, last: Input, between: seq<Input>, load: Input)
    requires Run(c, CREATED, inputs).live && Step(c, Run(c, CREATED, inputs), last).room.status.Ended?
    requires OnlyJoins(between) && load.event.Load?
    requires Enabled(Run(c, Step(c, Run(c, CREATED, inputs), last), between), load)
    ensures Step(c, Run(c, Step(c, Run(c, CREATED, inputs), last), between), load).live
        <==> last.env.mark.Refused? && !Expired(Run(c, CREATED, inputs).room.tables, load.env.wall)
  {
    hide Step, Enabled, Expired, OnlyJoins, LostStart, Run;
    StatusesDifferExactly(c, inputs);
    EndedReturns(c, Run(c, CREATED, inputs), last, between, load);
  }
}
