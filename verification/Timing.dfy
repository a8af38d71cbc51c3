/** The times that the tables keep, and what depends on them: how long a session runs, and when a player was through. */
module Timing {
  import opened Common
  import opened Questions
  import opened Database
  import opened RoomSpec
  import opened World
  import opened Persistence
  import opened Statuses
  import Messages
  import Lifecycle

  const TWELVE_MINUTES: nat := 12 * 60 * 1_000_000_000

  // ---------------------------------------------------------------- the start

  /** When the last step that moved the row from lobby to running was made. */
  ghost function StartTime(c: Config, inputs: seq<Input>): Option<nat> {
    if inputs == [] then None
    else
      var init, last := inputs[..|inputs| - 1], inputs[|inputs| - 1];
      if Run(c, CREATED, init).room.tables.status.Lobby? && Run(c, CREATED, inputs).room.tables.status.Running?
      then Some(last.env.wall) else StartTime(c, init)
  }

  /** What a step may do to the status and the start of a row. */
  ghost predicate RowMoves(t: Tables, u: Tables, wall: nat) {
    && (u.status.Lobby? ==> t.status.Lobby?)
    && (u.status.Running? ==>
          if t.status.Lobby? then u.startedAt == wall else t.status.Running? && u.startedAt == t.startedAt)
  }

  lemma StartMoves(r: Room, env: Env)
    requires WellFormed(r)
    ensures RowMoves(r.tables, StartSession(r, env).tables, env.wall)
    ensures RowMoves(r.tables, EndSession(r, env).tables, env.wall)
  {
    hide WellFormed, StartSession, EndSession;
  }

  lemma RoomEventMovesRow(c: Config, w: World, i: Input)
    requires Sound(w) && IsRoomEvent(i.event) && Enabled(w, i)
    ensures RowMoves(w.room.tables, RoomAfter(c, w, i).tables, i.env.wall)
  {
    hide WellFormed, RoomAfter, AllFinished, StartSession, EndSession, EventEnabled, RowMoves;
    SessionAndWire(c, w, i);
    StartMoves(w.room, i.env);
    Messages.OtherStep(c, w, i);
    if !SessionEvent(i.event) { KeepingMovesRow(c, w.room, RoomAfter(c, w, i), i.env.wall); }
  }

  lemma KeepingMovesRow(c: Config, r: Room, s: Room, wall: nat)
    requires KeepsSession(c, r, s)
    ensures RowMoves(r.tables, s.tables, wall)
  {
    hide AllFinished;
  }

  lemma StepMovesRow(c: Config, w: World, i: Input)
    requires Sound(w)
    ensures RowMoves(w.room.tables, Step(c, w, i).room.tables, i.env.wall)
  {
    hide WellFormed, RoomAfter, Step, EventEnabled, Loaded;
    if !Enabled(w, i) { NothingHappens(c, w, i); }
    else if IsRoomEvent(i.event) { RoomStep(c, w, i); RoomEventMovesRow(c, w, i); }
    else if i.event.Load? { LoadStep(c, w, i); LoadReloads(c, w.room, i.env, 0); }
    else { OutsideStep(c, w, i); }
  }

  /** In every run a row that says running was started when its start says. */
  lemma {:induction false} StartIsDated(c: Config, inputs: seq<Input>)
    ensures var w := Run(c, CREATED, inputs);
      w.room.tables.status.Running? ==>
        StartTime(c, inputs) == Some(w.room.tables.startedAt) && w.room.tables.startedAt <= w.wall
  {
    hide Step;
    if inputs != [] {
      var init, last := inputs[..|inputs| - 1], inputs[|inputs| - 1];
      var w := Run(c, CREATED, init);
      StartIsDated(c, init);
      StepMovesRow(c, w, last);
      WallGoesOn(c, w, last);
    }
  }

  lemma WallGoesOn(c: Config, w: World, i: Input)
    requires Sound(w)
    ensures w.wall <= Step(c, w, i).wall
    ensures Step(c, w, i) == w || Step(c, w, i).wall == i.env.wall
  {
    hide Apply, EventEnabled, WellFormed;
  }

  /**
   * So a load of a session that runs gives a live room exactly during the twelve minutes after the step that started
   * it.
   */
  lemma LoadsForTwelveMinutes(c: Config, inputs: seq<Input>, load: Input)
    requires load.event.Load? && Enabled(Run(c, CREATED, inputs), load)
    requires Run(c, CREATED, inputs).room.tables.status.Running?
    ensures StartTime(c, inputs).Some?
    ensures Step(c, Run(c, CREATED, inputs), load).live
        <==> load.env.wall < StartTime(c, inputs).value + TWELVE_MINUTES
  {
    hide Step, Run, StartTime, Enabled;
    StartIsDated(c, inputs);
    Lifecycle.LoadIsLive(c, Run(c, CREATED, inputs), load);
  }

  // ---------------------------------------------------------------- the deadline

  /** When the last load was made. */
  ghost function LoadTime(c: Config, inputs: seq<Input>): Option<nat> {
    if inputs == [] then None
    else
      var init, last := inputs[..|inputs| - 1], inputs[|inputs| - 1];
      if last.event.Load? && Enabled(Run(c, CREATED, init), last) then Some(last.env.wall) else LoadTime(c, init)
  }

  /** Of a running room: twelve minutes after the start, or a millisecond after a load later than that. */
  ghost predicate DeadlineFits(w: World, loaded: Option<nat>) {
    w.live ==>
      && loaded.Some? && loaded.value <= w.wall
      && (w.room.status.Running? ==>
            w.room.deadline == Some(Max(w.room.tables.startedAt + TWELVE_MINUTES, loaded.value + NS_PER_MS)))
  }

  lemma LoadSetsDeadline(c: Config, w: World, i: Input)
    requires Sound(w) && Enabled(w, i) && i.event.Load?
    ensures DeadlineFits(Step(c, w, i), Some(i.env.wall))
  {
    hide WellFormed, Step, Loaded, EventEnabled;
    LoadStep(c, w, i);
    LoadReloads(c, w.room, i.env, 0);
  }

  lemma EventKeepsDeadline(c: Config, w: World, i: Input, loaded: Option<nat>)
    requires Sound(w) && IsRoomEvent(i.event) && Enabled(w, i) && StatusesFit(w) && DeadlineFits(w, loaded)
    ensures DeadlineFits(Step(c, w, i), loaded)
  {
    hide WellFormed, RoomAfter, Step, EventEnabled, AllFinished;
    RoomStep(c, w, i);
    SessionAndWire(c, w, i);
    if SessionEvent(i.event) { SessionEventKeepsDeadline(c, w, i, loaded); }
  }

  lemma SessionEventKeepsDeadline(c: Config, w: World, i: Input, loaded: Option<nat>)
    requires Sound(w) && SessionEvent(i.event) && Enabled(w, i) && StatusesFit(w) && DeadlineFits(w, loaded)
    ensures var s := RoomAfter(c, w, i);
      s.status.Running? ==>
        s.deadline == Some(Max(s.tables.startedAt + TWELVE_MINUTES, loaded.value + NS_PER_MS))
  {
    hide WellFormed, RoomAfter, StartSession, EndSession;
    Messages.OtherStep(c, w, i);
    SessionEventMovesOn(c, w, i);
  }

  lemma StepKeepsDeadline(c: Config, w: World, i: Input, loaded: Option<nat>)
    requires Sound(w) && StatusesFit(w) && DeadlineFits(w, loaded)
    ensures DeadlineFits(Step(c, w, i), if i.event.Load? && Enabled(w, i) then Some(i.env.wall) else loaded)
  {
    hide Step, StatusesFit, DeadlineFits, EventEnabled, WellFormed;
    if !Enabled(w, i) { NothingHappens(c, w, i); }
    else if IsRoomEvent(i.event) { EventKeepsDeadline(c, w, i, loaded); }
    else if i.event.Load? { LoadSetsDeadline(c, w, i); }
    else { OutsideKeepsDeadline(c, w, i, loaded); }
  }

  lemma OutsideKeepsDeadline(c: Config, w: World, i: Input, loaded: Option<nat>)
    requires Sound(w) && Enabled(w, i) && !IsRoomEvent(i.event) && !i.event.Load? && DeadlineFits(w, loaded)
    ensures DeadlineFits(Step(c, w, i), loaded)
  {
    hide Step, EventEnabled, WellFormed;
    OutsideStep(c, w, i);
  }

  lemma {:induction false} RunsKeepDeadline(c: Config, inputs: seq<Input>)
    ensures DeadlineFits(Run(c, CREATED, inputs), LoadTime(c, inputs))
  {
    hide Step, StatusesFit, DeadlineFits, Enabled;
    if inputs == [] {
      NoDeadlineAtFirst(c);
    } else {
      var init, last := inputs[..|inputs| - 1], inputs[|inputs| - 1];
      RunsKeepDeadline(c, init);
      StatusesDifferExactly(c, init);
      StepKeepsDeadline(c, Run(c, CREATED, init), last, LoadTime(c, init));
    }
  }

  lemma NoDeadlineAtFirst(c: Config)
    ensures DeadlineFits(CREATED, None)
  {
  }

  /** In every run the deadline of a running room is twelve minutes after its start, or a millisecond after its load. */
  lemma DeadlineIsDated(c: Config, inputs: seq<Input>)
    requires Run(c, CREATED, inputs).live && Run(c, CREATED, inputs).room.status.Running?
    ensures StartTime(c, inputs).Some? && LoadTime(c, inputs).Some?
    ensures Run(c, CREATED, inputs).room.deadline
         == Some(Max(StartTime(c, inputs).value + TWELVE_MINUTES, LoadTime(c, inputs).value + NS_PER_MS))
  {
    hide Run, StartTime, LoadTime;
    StartIsDated(c, inputs);
    RunsKeepDeadline(c, inputs);
    StatusesDifferExactly(c, inputs);
  }

  // ---------------------------------------------------------------- when a player was through

  predicate Through(c: Config, account: Option<Account>) {
    account.Some? && 0 < account.value.row.index == |c.questions|
  }

  /** When the last step was made by which the player's row became that of a finished player. */
  ghost function FinishTime(c: Config, inputs: seq<Input>, id: PlayerId): Option<nat> {
    if inputs == [] then None
    else
      var init, last := inputs[..|inputs| - 1], inputs[|inputs| - 1];
      if !Through(c, AccountOf(Run(c, CREATED, init).room.tables, id))
         && Through(c, AccountOf(Run(c, CREATED, inputs).room.tables, id))
      then Some(last.env.wall) else FinishTime(c, init, id)
  }

  /** finished_at is set once, by the step that stores it. */
  ghost predicate Finishes(now: Option<Account>, next: Option<Account>, wall: nat) {
    next.Some? ==>
      || next == Some(NEW_ACCOUNT)
      || (now.Some?
          && (next.value.row.finishedAt == now.value.row.finishedAt
              || (now.value.row.finishedAt.None? && next.value.row.finishedAt == Some(wall))))
  }

  lemma ResolvingFinishes(c: Config, seat: Seat, id: PlayerId, out: Outcome, env: Env)
    requires seat.player.active.Some?
    ensures Finishes(seat.account, ResolveSeat(c, seat, id, out, env).account, env.wall)
  {
    hide Advance, ToInt16, ToInt32, Allowed;
  }

  lemma PlayingFinishes(c: Config, running: bool, seat: Seat, id: PlayerId, i: Input)
    ensures Finishes(seat.account, PlaySeat(c, running, seat, id, i).account, i.env.wall)
  {
    hide ResolveSeat, HasOption, OutcomeOf, TimeoutOutcome;
    if seat.player.active.Some? {
      ResolvingFinishes(c, seat, id, TimeoutOutcome(seat.player.active.value), i.env);
      if i.event.Submit? {
        var out := OutcomeOf(c, seat.player.progress, seat.player.active.value, i.event.option, i.env.now);
        ResolvingFinishes(c, seat, id, out, i.env);
      }
    }
  }

  lemma StepFinishes(c: Config, w: World, i: Input, id: PlayerId)
    requires Sound(w)
    ensures Finishes(AccountOf(w.room.tables, id), AccountOf(Step(c, w, i).room.tables, id), i.env.wall)
  {
    hide WellFormed, Step, RoomAfter, PlaySeat, AccountOf, EventEnabled, Loaded;
    if !Enabled(w, i) {
      NothingHappens(c, w, i);
    } else if IsRoomEvent(i.event) {
      RoomStep(c, w, i);
      SeatsActSeparately(c, w, i, id);
      if id in w.room.players { PlayingFinishes(c, w.room.status.Running?, SeatOf(w.room, id), id, i); }
    } else if i.event.Load? {
      LoadStep(c, w, i);
      LoadReloads(c, w.room, i.env, id);
    } else {
      OutsideAccounts(c, w, i, id);
    }
  }

  /** In every run the row of a finished player says when the step was made that stored the last answer. */
  lemma {:induction false} FinishIsDated(c: Config, inputs: seq<Input>, id: PlayerId)
    requires Playable(c)
    ensures var account := AccountOf(Run(c, CREATED, inputs).room.tables, id);
      && (account.Some? ==> (account.value.row.finishedAt.Some? <==> Through(c, account)))
      && (Through(c, account) ==> account.value.row.finishedAt == FinishTime(c, inputs, id))
  {
    hide Step, Playable, AccountOf, AgreesFor;
    RunsKeepAgreement(c, inputs, id);
    FinishedIsThrough(c, Run(c, CREATED, inputs), id);
    if inputs == [] {
      NobodyIsThrough(c, id);
    } else {
      var init, last := inputs[..|inputs| - 1], inputs[|inputs| - 1];
      FinishIsDated(c, init, id);
      StepFinishes(c, Run(c, CREATED, init), last, id);
    }
  }

  lemma FinishedIsThrough(c: Config, w: World, id: PlayerId)
    requires AgreesFor(c, w, id)
    ensures var account := AccountOf(w.room.tables, id);
      account.Some? ==> (account.value.row.finishedAt.Some? <==> Through(c, account))
  {
    hide SeatAgrees, AllHonest, Replay;
  }

  lemma NobodyIsThrough(c: Config, id: PlayerId)
    ensures !Through(c, AccountOf(CREATED.room.tables, id))
  {
  }
}
