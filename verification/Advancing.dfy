/** Progress without gaps: whoever keeps asking for the next question gets through the session. */
module Advancing {
  import opened Common
  import opened Scoring
  import opened Database
  import opened RoomSpec
  import opened World
  import opened Persistence
  import opened Bounds
  import opened Isolation

  /** At every instant an open question can be graded or settled; at the deadline itself, both. */
  lemma NoGapAtTheDeadline(c: Config, seat: Seat, id: PlayerId, option: OptionId, env: Env, clock: nat)
    requires Playable(c) && SeatAgrees(c, seat, clock) && seat.player.active.Some? && clock <= env.now
    requires seat.account.Some? && InStep(seat.player, seat.account.value) && env.save.Works?
    ensures var a := seat.player.active.value;
      && (OutcomeOf(c, seat.player.progress, a, Some(option), env.now).correct.Some? <==> env.now <= Deadline(a))
      && (SettleSeat(c, true, seat, id, env).player.active.None? <==> env.now >= Deadline(a))
  {
    hide Replayed, Playable, SaveOutcome, Score;
    OutcomesAreHonest(c, seat.player, None, clock, env.now);
    SaveExtendsReplay(c, seat, id, TimeoutOutcome(seat.player.active.value), env, clock);
  }

  /** One patient q.next: an open question costs its whole limit and no points, then the next one is served. */
  lemma PatientStep(c: Config, seat: Seat, id: PlayerId, env: Env, clock: nat)
    requires Playable(c) && SeatAgrees(c, seat, clock) && clock <= env.now && env.save.Works?
    requires seat.account.Some? && InStep(seat.player, seat.account.value)
    requires seat.player.active.Some? ==> env.now >= Deadline(seat.player.active.value)
    ensures var s := NextSeat(c, true, seat, id, env);
      var p, q := seat.player.progress, s.player.progress;
      && s.account.Some? && s.account.value.row.index >= 0 && InStep(s.player, s.account.value)
      && q.resolved == (if seat.player.active.Some? then p.resolved + 1 else p.resolved) <= |c.questions|
      && q.score == p.score && q.correct == p.correct
      && q.totalMs == p.totalMs + TimeCap(c, q.resolved) - TimeCap(c, p.resolved)
      && (s.player.active.Some? <==> q.resolved < |c.questions|)
  {
    hide Replayed, Playable, SaveOutcome;
    if seat.player.active.Some? {
      var out := TimeoutOutcome(seat.player.active.value);
      OutcomesAreHonest(c, seat.player, None, clock, env.now);
      SaveExtendsReplay(c, seat, id, out, env, clock);
      var settled := ResolveSeat(c, seat, id, out, env);
      assert settled.player == Player(Advance(seat.player.progress, out), None);
    }
  }

  /** A q.next at or after the deadline of the question then open, if any, over a store that works. */
  ghost predicate PatientCall(v: World, id: PlayerId, i: Input) {
    && i.event == Next(id) && i.env.save.Works?
    && (id in v.room.players && v.room.players[id].active.Some? ==>
          i.env.now >= Deadline(v.room.players[id].active.value))
  }

  /** Only patient calls. */
  ghost predicate Patient(c: Config, w: World, id: PlayerId, inputs: seq<Input>)
    requires Sound(w)
  {
    if inputs == [] then true
    else
      var init, last := inputs[..|inputs| - 1], inputs[|inputs| - 1];
      var v := Run(c, w, init);
      && Patient(c, w, id, init)
      && PatientCall(v, id, last) && Enabled(v, last)
  }

  /** A player whose memory equals the stored row, in a room that runs until the player is through. */
  ghost predicate Ready(c: Config, w: World, id: PlayerId) {
    && Sound(w) && AgreesFor(c, w, id) && id in w.room.players && id !in w.pending
    && AccountOf(w.room.tables, id).Some? && AccountOf(w.room.tables, id).value.row.index >= 0
    && InStep(w.room.players[id], AccountOf(w.room.tables, id).value)
    && (w.room.players[id].progress.resolved < |c.questions| ==> w.live && w.room.status.Running?)
  }

  /** How many calls the player needs: one per open or unserved question, and one to begin. */
  function CallsLeft(c: Config, p: Player): int {
    if p.progress.resolved >= |c.questions| then 0
    else |c.questions| - p.progress.resolved + if p.active.Some? then 0 else 1
  }

  lemma PatientRoomStep(c: Config, w: World, id: PlayerId, i: Input)
    requires Playable(c) && Ready(c, w, id) && w.room.players[id].progress.resolved < |c.questions|
    requires i.event == Next(id) && i.env.save.Works? && Enabled(w, i)
    requires w.room.players[id].active.Some? ==> i.env.now >= Deadline(w.room.players[id].active.value)
    ensures var v := Step(c, w, i);
      && Ready(c, v, id)
      && var p, q := w.room.players[id].progress, v.room.players[id].progress;
      && q.resolved <= |c.questions| && q.score == p.score && q.correct == p.correct
      && q.totalMs == p.totalMs + TimeCap(c, q.resolved) - TimeCap(c, p.resolved)
      && CallsLeft(c, v.room.players[id]) == CallsLeft(c, w.room.players[id]) - 1
  {
    hide Playable, WellFormed, Replayed, NextSeat, Step, Sound;
    PatientStep(c, SeatOf(w.room, id), id, i.env, w.clock);
    RunningRoomStep(c, w, id, i);
  }

  /**
   * From any state where memory equals the row, exactly the calls still needed, each made at or after the
   * deadline then current, finish the player: no points, and the sum of the remaining limits in total_ms.
   */
  lemma {:induction false} PatientCallsFinish(c: Config, w: World, id: PlayerId, inputs: seq<Input>)
    requires Playable(c) && Ready(c, w, id) && w.room.players[id].progress.resolved <= |c.questions|
    requires Patient(c, w, id, inputs) && |inputs| <= CallsLeft(c, w.room.players[id])
    ensures var v := Run(c, w, inputs);
      && Ready(c, v, id)
      && var p, q := w.room.players[id].progress, v.room.players[id].progress;
      && q.resolved <= |c.questions| && q.score == p.score && q.correct == p.correct
      && q.totalMs == p.totalMs + TimeCap(c, q.resolved) - TimeCap(c, p.resolved)
      && CallsLeft(c, v.room.players[id]) == CallsLeft(c, w.room.players[id]) - |inputs|
      && (|inputs| == CallsLeft(c, w.room.players[id]) ==> q.resolved == |c.questions|)
  {
    hide Playable, AgreesFor, Step, InStep, AccountOf;
    if inputs != [] {
      var init := inputs[..|inputs| - 1];
      PatientCallsFinish(c, w, id, init);
      PatientRoomStep(c, Run(c, w, init), id, inputs[|inputs| - 1]);
    }
  }

  // ---------------------------------------------------------------- among other players

  /** Whatever else happens, the player makes only patient q.next calls, over a store that works for them. */
  ghost predicate PatientAmid(c: Config, w: World, id: PlayerId, inputs: seq<Input>)
    requires Sound(w)
  {
    if inputs == [] then true
    else
      var init, last := inputs[..|inputs| - 1], inputs[|inputs| - 1];
      var v := Run(c, w, init);
      && PatientAmid(c, w, id, init)
      && (Concerns(id, last.event) ==> PatientCall(v, id, last))
  }

  /** In memory and in the tables. */
  ghost predicate Here(w: World, id: PlayerId) {
    id in w.room.players && AccountOf(w.room.tables, id).Some?
  }

  lemma PlayingKeepsAccount(c: Config, running: bool, seat: Seat, id: PlayerId, i: Input)
    requires i.event != KickEvent(id) && seat.account.Some?
    ensures PlaySeat(c, running, seat, id, i).account.Some?
  {
    hide Advance, OutcomeOf, ResultOf;
  }

  /** What others do, and the player's own patient calls, remove nobody. */
  lemma StaysHere(c: Config, w: World, id: PlayerId, i: Input)
    requires Sound(w) && Enabled(w, i) && id !in w.pending && Here(w, id)
    requires Concerns(id, i.event) ==> i.event.Next?
    ensures Here(Step(c, w, i), id)
  {
    hide RoomAfter, WellFormed, AccountOf, EventEnabled, PlaySeat, Step;
    if IsRoomEvent(i.event) {
      RoomStep(c, w, i);
      SeatsActSeparately(c, w, i, id);
      PlayingKeepsAccount(c, w.room.status.Running?, SeatOf(w.room, id), id, i);
    } else {
      OutsideStep(c, w, i);
      OutsideAccounts(c, w, i, id);
    }
  }

  /** The open question, and so its deadline, is the same in the mirror; and the mirror can be asked as well. */
  lemma MirroredCall(c: Config, v: World, u: World, id: PlayerId, i: Input, j: Input)
    requires Mirrors(c, v, u, id) && Present(v, id) && SameButDraws(i, j) && Enabled(v, i) && i.event == Next(id)
    requires Ready(c, u, id) && CallsLeft(c, u.room.players[id]) > 0
    ensures Enabled(u, j)
    ensures v.room.players[id].active.Some? <==> u.room.players[id].active.Some?
    ensures v.room.players[id].active.Some? ==>
      Deadline(v.room.players[id].active.value) == Deadline(u.room.players[id].active.value)
  {
    hide AgreesFor, WellFormed, AccountOf;
  }

  lemma AmidUnfolds(c: Config, w: World, id: PlayerId, init: seq<Input>, last: Input, own: seq<Input>)
    requires Sound(w) && AllHappen(c, w, init + [last]) && Projection(id, init + [last], own)
    requires PatientAmid(c, w, id, init + [last])
    ensures AllHappen(c, w, init) && PatientAmid(c, w, id, init) && Enabled(Run(c, w, init), last)
    ensures Run(c, w, init + [last]) == Step(c, Run(c, w, init), last)
    ensures Concerns(id, last.event) ==>
      && PatientCall(Run(c, w, init), id, last) && own != [] && SameButDraws(last, own[|own| - 1])
      && Projection(id, init, own[..|own| - 1])
    ensures !Concerns(id, last.event) ==> Projection(id, init, own)
  {
    hide Step, Concerns, Enabled, Deadline;
    assert (init + [last])[..|init|] == init;
  }

  lemma PatientGrows(c: Config, w: World, id: PlayerId, before: seq<Input>, j: Input)
    requires Sound(w) && Patient(c, w, id, before) && Enabled(Run(c, w, before), j)
    requires PatientCall(Run(c, w, before), id, j)
    ensures Patient(c, w, id, before + [j])
  {
    hide Step, Enabled, Deadline;
    assert (before + [j])[..|before|] == before;
  }

  /** In the mirror the call is patient as well. */
  lemma MirroredCallIsPatient(c: Config, v: World, u: World, id: PlayerId, i: Input, j: Input)
    requires Mirrors(c, v, u, id) && Present(v, id) && SameButDraws(i, j) && Enabled(v, i) && PatientCall(v, id, i)
    requires Ready(c, u, id) && CallsLeft(c, u.room.players[id]) > 0
    ensures Enabled(u, j) && PatientCall(u, id, j)
  {
    hide Enabled, Deadline, AgreesFor, WellFormed, AccountOf, SameGame, InStep;
    MirroredCall(c, v, u, id, i, j);
  }

  lemma OneMoreOnItsOwn(c: Config, w: World, v: World, id: PlayerId, i: Input, before: seq<Input>, j: Input)
    requires Playable(c) && Ready(c, w, id) && w.room.players[id].progress.resolved <= |c.questions|
    requires Patient(c, w, id, before) && |before| < CallsLeft(c, w.room.players[id])
    requires Mirrors(c, v, Run(c, w, before), id) && Present(v, id)
    requires Enabled(v, i) && SameButDraws(i, j) && PatientCall(v, id, i)
    ensures Patient(c, w, id, before + [j])
  {
    hide Playable, Mirrors, Enabled, Present, Patient, Run, CallsLeft, PatientCall, AgreesFor, AccountOf, InStep;
    PatientCallsFinish(c, w, id, before);
    MirroredCallIsPatient(c, v, Run(c, w, before), id, i, j);
    PatientGrows(c, w, id, before, j);
  }

  lemma NoCallIsPatient(c: Config, w: World, id: PlayerId, own: seq<Input>)
    requires Sound(w) && Projection(id, [], own)
    ensures Patient(c, w, id, own)
  {
  }

  lemma HereIsPresent(w: World, id: PlayerId)
    requires Here(w, id)
    ensures Present(w, id)
  {
  }

  lemma StillHere(c: Config, v: World, u: World, id: PlayerId, i: Input)
    requires Mirrors(c, v, u, id) && Enabled(v, i) && Here(v, id)
    requires Concerns(id, i.event) ==> PatientCall(v, id, i)
    ensures Here(Step(c, v, i), id)
  {
    hide Here, Present, Step, Concerns, SameGame, AgreesFor, Enabled;
    StaysHere(c, v, id, i);
  }

  /** So the player stays in the room, and the player's own calls are patient on their own. */
  lemma {:induction false} PatientOnTheirOwn(c: Config, w: World, id: PlayerId, inputs: seq<Input>, own: seq<Input>)
    requires Playable(c) && Sound(w) && Ready(c, w, id) && Mirrors(c, w, w, id) && AllHappen(c, w, inputs)
    requires Projection(id, inputs, own) && PatientAmid(c, w, id, inputs)
    requires w.room.players[id].progress.resolved <= |c.questions| && |own| <= CallsLeft(c, w.room.players[id])
    ensures Patient(c, w, id, own) && Here(Run(c, w, inputs), id)
  {
    hide Playable, Mirrors, Ready, Concerns, Enabled, Here, Present, PatientAmid, Patient, AllHappen, Projection, Run,
         Step, CallsLeft, PatientCall, Sound;
    if inputs == [] {
      NoCallIsPatient(c, w, id, own);
      ReadyIsHere(c, w, id);
    } else {
      var init, last := inputs[..|inputs| - 1], inputs[|inputs| - 1];
      assert inputs == init + [last];
      AmidUnfolds(c, w, id, init, last, own);
      var before := if Concerns(id, last.event) then own[..|own| - 1] else own;
      PatientOnTheirOwn(c, w, id, init, before);
      ProjectionsMirror(c, w, id, init, before);
      StillHere(c, Run(c, w, init), Run(c, w, before), id, last);
      if Concerns(id, last.event) {
        HereIsPresent(Run(c, w, init), id);
        OneMoreOnItsOwn(c, w, Run(c, w, init), id, last, before, own[|own| - 1]);
        assert own == before + [own[|own| - 1]];
      }
    }
  }

  lemma ReadyIsHere(c: Config, w: World, id: PlayerId)
    requires Ready(c, w, id)
    ensures Here(Run(c, w, []), id)
  {
    hide AccountOf;
  }

  /**
   * The same among any other events that happen: once the player has made the calls still needed, the player is still
   * in the room and all questions are resolved, without a point more, and with the remaining limits added to the time.
   */
  lemma PatientAmongOthers(c: Config, w: World, id: PlayerId, inputs: seq<Input>, own: seq<Input>)
    requires Playable(c) && Ready(c, w, id) && w.live && !w.room.status.Ended?
    requires w.room.players[id].progress.resolved <= |c.questions|
    requires AllHappen(c, w, inputs) && Projection(id, inputs, own) && PatientAmid(c, w, id, inputs)
    requires |own| == CallsLeft(c, w.room.players[id])
    ensures id in Run(c, w, inputs).room.players
    ensures var p, q := w.room.players[id].progress, Run(c, w, inputs).room.players[id].progress;
      && q.resolved == |c.questions| && q.score == p.score && q.correct == p.correct
      && q.totalMs == p.totalMs + TimeCap(c, |c.questions|) - TimeCap(c, p.resolved)
  {
    hide Playable, AgreesFor, Step, InStep, AccountOf, Mirrors, Run, Patient, PatientAmid, AllHappen, Projection;
    MirrorsItself(c, w, id);
    PatientOnTheirOwn(c, w, id, inputs, own);
    HereIsPresent(Run(c, w, inputs), id);
    PatientCallsFinish(c, w, id, own);
    OthersNeverReachAPlayer(c, w, id, inputs, own);
  }
}
