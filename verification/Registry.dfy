/**
 * The registry of live rooms (api/internal/game/registry.go) under any interleaving of callers, room
 * goroutines, joins and stops. One action is one step between two points where something else may happen.
 */
module Registry {
  import opened Common

  type RoomId = nat
  type Caller = nat
  /** Identity of one *Room object: the position at which it was created. */
  type Ref = nat

  /** The status columns of a room row. */
  datatype RowStatus = Lobby | Running(startedAt: nat) | Ended

  /** Who wrote rows of a room: one of its objects, a join transaction, or a caller that found it expired. */
  datatype Writer = ByRoom(room: Ref) | ByJoin(player: PlayerId) | ByExpiry
  datatype Write = Write(id: RoomId, writer: Writer)

  /** What Get read: as of how many writes, with which status, and how many objects existed when its lookup missed. */
  datatype Snapshot = Snapshot(version: nat, status: RowStatus, objectsBefore: Ref)

  /** Processing events; out of its loop but not yet forgotten; or done, its done channel closed. */
  datatype Phase = Processing | Stopping | Gone

  datatype Object = Object(id: RoomId, phase: Phase, from: Snapshot)

  datatype Progress =
    | Missed(id: RoomId, objectsBefore: Ref)   // lookup found nothing
    | Read(id: RoomId, data: Snapshot)         // the rows are read, spawn is next
    | Created(id: RoomId, room: Ref)           // inside spawn, newRoom returned, the lock is held
    | Returned(id: RoomId, room: Ref)
    | NotFound(id: RoomId)

  /**
   * rooms: the map. holder: who is inside spawn. objects: every *Room made since the process started.
   * status and log: the room rows and every write to a room's rows since then, in order.
   */
  datatype State = State(rooms: map<RoomId, Ref>, holder: Option<Caller>, objects: seq<Object>,
                         callers: map<Caller, Progress>, status: map<RoomId, RowStatus>, log: seq<Write>, clock: nat)

  /** A process that has just started, over whatever rows the database holds. */
  function Start(status: map<RoomId, RowStatus>, clock: nat): State {
    State(map[], None, [], map[], status, [], clock)
  }

  datatype Action =
    | Lookup(caller: Caller, id: RoomId)
    | Load(caller: Caller, readable: bool)
    | EnterSpawn(caller: Caller)
    | LeaveSpawn(caller: Caller)
    | Process(room: Ref, status: RowStatus)  // an event that writes the rows, leaving the status as given
    | Stop(room: Ref)                        // the session ended or the process shuts down: the loop returns
    | Forget(room: Ref)                      // onStop, then close(done)
    | JoinCommits(id: RoomId, player: PlayerId)
    | Tick(time: nat)

  function StatusOf(s: State, id: RoomId): RowStatus {
    if id in s.status then s.status[id] else Lobby
  }

  /** MarkRoomStarted and MarkRoomEnded guard the status; other writes leave it alone. */
  predicate StatusMoves(a: RowStatus, b: RowStatus, clock: nat) {
    b == a || (a.Lobby? && b == Running(clock)) || b.Ended?
  }

  predicate Enabled(s: State, a: Action) {
    match a
    case Lookup(t, _) => t !in s.callers && s.holder.None?
    case Load(t, _) => t in s.callers && s.callers[t].Missed?
    case EnterSpawn(t) => t in s.callers && s.callers[t].Read? && s.holder.None?
    case LeaveSpawn(t) => t in s.callers && s.callers[t].Created? && s.holder == Some(t)
    case Process(r, status) =>
      r < |s.objects| && s.objects[r].phase.Processing? && StatusMoves(StatusOf(s, s.objects[r].id), status, s.clock)
    case Stop(r) => r < |s.objects| && s.objects[r].phase.Processing?
    case Forget(r) => r < |s.objects| && s.objects[r].phase.Stopping? && s.holder.None?
    case JoinCommits(id, _) => !StatusOf(s, id).Ended?
    case Tick(_) => true
  }

  function Found(rooms: map<RoomId, Ref>, id: RoomId): Option<Ref> {
    if id in rooms then Some(rooms[id]) else None
  }

  /** forget: the entry goes only if it is this very room. */
  function Forgotten(rooms: map<RoomId, Ref>, id: RoomId, room: Ref): map<RoomId, Ref> {
    if Found(rooms, id) == Some(room) then rooms - {id} else rooms
  }

  function SetPhase(s: State, r: Ref, p: Phase): State
    requires r < |s.objects|
  {
    s.(objects := s.objects[r := s.objects[r].(phase := p)])
  }

  function Wrote(s: State, id: RoomId, writer: Writer, status: RowStatus): State {
    s.(log := s.log + [Write(id, writer)], status := s.status[id := status])
  }

  /** The rows as read; an ended room is not found, an expired one is marked ended first. */
  function Loaded(s: State, t: Caller): State
    requires t in s.callers && s.callers[t].Missed?
  {
    var id := s.callers[t].id;
    var status := StatusOf(s, id);
    if status.Ended? then s.(callers := s.callers[t := NotFound(id)])
    else if status.Running? && TimeIsUp(status.startedAt, s.clock) then
      Wrote(s, id, ByExpiry, Ended).(callers := s.callers[t := NotFound(id)])
    else s.(callers := s.callers[t := Read(id, Snapshot(|s.log|, status, s.callers[t].objectsBefore))])
  }

  /** spawn up to the point where newRoom returns: an existing room wins. */
  function Spawned(s: State, t: Caller): State
    requires t in s.callers && s.callers[t].Read?
  {
    var id := s.callers[t].id;
    if id in s.rooms then s.(callers := s.callers[t := Returned(id, s.rooms[id])])
    else s.(objects := s.objects + [Object(id, Processing, s.callers[t].data)],
            callers := s.callers[t := Created(id, |s.objects|)], holder := Some(t))
  }

  function Step(s: State, a: Action): State {
    if !Enabled(s, a) then s
    else match a
      case Lookup(t, id) =>
        s.(callers := s.callers[t := if id in s.rooms then Returned(id, s.rooms[id]) else Missed(id, |s.objects|)])
      case Load(t, readable) =>
        if readable then Loaded(s, t) else s.(callers := s.callers[t := NotFound(s.callers[t].id)])
      case EnterSpawn(t) => Spawned(s, t)
      case LeaveSpawn(t) =>
        var p := s.callers[t];
        s.(rooms := s.rooms[p.id := p.room], callers := s.callers[t := Returned(p.id, p.room)], holder := None)
      case Process(r, status) => Wrote(s, s.objects[r].id, ByRoom(r), status)
      case Stop(r) => SetPhase(s, r, Stopping)
      case Forget(r) => SetPhase(s.(rooms := Forgotten(s.rooms, s.objects[r].id, r)), r, Gone)
      case JoinCommits(id, p) => Wrote(s, id, ByJoin(p), StatusOf(s, id))
      case Tick(d) => s.(clock := s.clock + d)
  }

  /** Get reads a room that has not ended and is not past its twelve minutes; one past them it marks ended. */
  lemma LoadFindsExactly(s: State, t: Caller)
    requires t in s.callers && s.callers[t].Missed?
    ensures var (id, v) := (s.callers[t].id, Step(s, Load(t, true)));
      var status := StatusOf(s, id);
      var late := status.Running? && s.clock >= status.startedAt + 720_000_000_000;
      && (v.callers[t] == NotFound(id) <==> status.Ended? || late)
      && (v.callers[t].Read? <==> !status.Ended? && !late)
      && StatusOf(v, id) == if late then Ended else status
  {
  }

  /** All states a process can get into: any interleaving, from any rows. */
  function Run(start: State, actions: seq<Action>): State {
    if actions == [] then start else Step(Run(start, actions[..|actions| - 1]), actions[|actions| - 1])
  }

  predicate IsStart(s: State) {
    s == Start(s.status, s.clock)
  }

  // ---------------------------------------------------------------- what every run keeps

  predicate Alive(s: State, r: Ref) {
    r < |s.objects| && !s.objects[r].phase.Gone?
  }

  /** Registered, or on the way in spawn, whose caller holds the lock. */
  predicate Reachable(s: State, r: Ref)
    requires r < |s.objects|
  {
    || Found(s.rooms, s.objects[r].id) == Some(r)
    || (s.holder.Some? && s.holder.value in s.callers && s.callers[s.holder.value] == Created(s.objects[r].id, r))
  }

  ghost predicate RegisteredRight(s: State) {
    && (forall id :: id in s.rooms ==> Alive(s, s.rooms[id]) && s.objects[s.rooms[id]].id == id)
    && (forall r: Ref :: Alive(s, r) ==> Reachable(s, r))
  }

  /** The one inside spawn has made an object that is not registered yet. */
  ghost predicate HolderRight(s: State) {
    && (s.holder.Some? ==>
          var t := s.holder.value;
          t in s.callers && s.callers[t].Created? && s.callers[t].id !in s.rooms
          && Alive(s, s.callers[t].room) && s.objects[s.callers[t].room].id == s.callers[t].id)
    && (forall t :: t in s.callers && s.callers[t].Created? ==> s.holder == Some(t))
    && (forall t :: t in s.callers && s.callers[t].Returned? ==>
          s.callers[t].room < |s.objects| && s.objects[s.callers[t].room].id == s.callers[t].id)
  }

  ghost predicate Valid(s: State) {
    RegisteredRight(s) && HolderRight(s)
  }

  /** Actions that make, register and forget nothing. */
  predicate LeavesRooms(a: Action) {
    a.Lookup? || a.Load? || a.JoinCommits? || a.Tick? || a.Process?
  }

  lemma QuietActions(s: State, a: Action)
    requires Enabled(s, a) && LeavesRooms(a)
    ensures var v := Step(s, a);
      && v.rooms == s.rooms && v.objects == s.objects && v.holder == s.holder
      && (forall t :: t in s.callers && !s.callers[t].Missed? ==> t in v.callers && v.callers[t] == s.callers[t])
      && (forall t :: t in v.callers && (v.callers[t].Created? || v.callers[t].Returned?) ==>
            || (t in s.callers && v.callers[t] == s.callers[t])
            || (v.callers[t].Returned? && Found(s.rooms, v.callers[t].id) == Some(v.callers[t].room)))
  {
  }

  lemma QuietKeepsValid(s: State, a: Action)
    requires Valid(s) && Enabled(s, a) && LeavesRooms(a)
    ensures Valid(Step(s, a))
  {
    QuietActions(s, a);
    hide Step, Enabled;
    var v := Step(s, a);
    assert RegisteredRight(v) by {
      forall r: Ref | Alive(v, r) ensures Reachable(v, r) { assert Alive(s, r) && Reachable(s, r); }
    }
  }

  lemma SpawningKeepsValid(s: State, a: Action)
    requires Valid(s) && Enabled(s, a) && a.EnterSpawn?
    ensures Valid(Step(s, a))
  {
    var v := Step(s, a);
    assert RegisteredRight(v) by {
      forall r: Ref | Alive(v, r) ensures Reachable(v, r) {
        if r < |s.objects| { assert Alive(s, r) && Reachable(s, r); }
      }
    }
  }

  lemma RegisteringKeepsValid(s: State, a: Action)
    requires Valid(s) && Enabled(s, a) && a.LeaveSpawn?
    ensures Valid(Step(s, a))
  {
    var v := Step(s, a);
    forall r | Alive(v, r) ensures Reachable(v, r) {
      assert Alive(s, r) && Reachable(s, r);
    }
  }

  lemma PhasesKeepValid(s: State, a: Action)
    requires Valid(s) && Enabled(s, a) && (a.Stop? || a.Forget?)
    ensures Valid(Step(s, a))
  {
    var v := Step(s, a);
    forall id | id in v.rooms ensures Alive(v, v.rooms[id]) && v.objects[v.rooms[id]].id == id {
      assert Alive(s, s.rooms[id]) && s.objects[s.rooms[id]].id == id;
    }
    forall r | Alive(v, r) ensures Reachable(v, r) {
      assert Alive(s, r) && Reachable(s, r);
    }
  }

  lemma StepKeepsValid(s: State, a: Action)
    requires Valid(s)
    ensures Valid(Step(s, a))
  {
    if Enabled(s, a) {
      hide RegisteredRight, HolderRight, Step, Enabled;
      if a.LeaveSpawn? { RegisteringKeepsValid(s, a); }
      else if a.Stop? || a.Forget? { PhasesKeepValid(s, a); }
      else if a.EnterSpawn? { SpawningKeepsValid(s, a); }
      else { QuietKeepsValid(s, a); }
    }
  }

  lemma {:induction false} RunsAreValid(start: State, actions: seq<Action>)
    requires IsStart(start)
    ensures Valid(Run(start, actions))
  {
    hide Step;
    if actions != [] {
      hide Valid;
      RunsAreValid(start, actions[..|actions| - 1]);
      StepKeepsValid(Run(start, actions[..|actions| - 1]), actions[|actions| - 1]);
    }
  }

  /** At most one room per id is alive, so at most one processes events. */
  lemma AtMostOneRoomPerId(start: State, actions: seq<Action>, a: Ref, b: Ref)
    requires IsStart(start)
    requires var s := Run(start, actions); Alive(s, a) && Alive(s, b) && s.objects[a].id == s.objects[b].id
    ensures a == b
  {
    hide Run;
    RunsAreValid(start, actions);
    var s := Run(start, actions);
    assert Reachable(s, a) && Reachable(s, b);
  }

  /** Once done is closed, a room is out of the registry for good. */
  lemma DoneRoomsAreNotRegistered(start: State, actions: seq<Action>, r: Ref)
    requires IsStart(start)
    requires var s := Run(start, actions); r < |s.objects| && s.objects[r].phase.Gone?
    ensures forall id :: Found(Run(start, actions).rooms, id) != Some(r)
  {
    hide Run;
    RunsAreValid(start, actions);
  }

  /** A stopped room leaves the registry as soon as nobody is inside spawn, and whoever is there can leave. */
  lemma StoppedRoomsCanLeave(start: State, actions: seq<Action>, r: Ref)
    requires IsStart(start)
    requires var s := Run(start, actions); r < |s.objects| && s.objects[r].phase.Stopping?
    ensures var s := Run(start, actions);
      var s1 := if s.holder.Some? then Step(s, LeaveSpawn(s.holder.value)) else s;
      && Enabled(s1, Forget(r)) && s1.objects == s.objects
      && (forall id :: Found(Step(s1, Forget(r)).rooms, id) != Some(r))
  {
    hide Run;
    RunsAreValid(start, actions);
    var s := Run(start, actions);
    assert Alive(s, r);
    if s.holder.Some? { StepKeepsValid(s, LeaveSpawn(s.holder.value)); }
  }

  /** Only a room's own forget takes it out of the registry; no other entry is touched. */
  lemma ForgetEvictsOnlyItself(start: State, actions: seq<Action>, a: Action, id: RoomId)
    requires IsStart(start)
    requires var s := Run(start, actions); id in s.rooms && Found(Step(s, a).rooms, id) != Some(s.rooms[id])
    ensures var s := Run(start, actions); a == Forget(s.rooms[id]) && s.objects[s.rooms[id]].phase.Stopping?
  {
    hide Run;
    RunsAreValid(start, actions);
  }

  /** Callers get the same room, unless the room one of them got is done. */
  lemma ConcurrentLoadersShareTheRoom(start: State, actions: seq<Action>, t: Caller, u: Caller)
    requires IsStart(start)
    requires var s := Run(start, actions);
      && t in s.callers && u in s.callers && s.callers[t].Returned? && s.callers[u].Returned?
      && s.callers[t].id == s.callers[u].id
      && Alive(s, s.callers[t].room) && Alive(s, s.callers[u].room)
    ensures Run(start, actions).callers[t].room == Run(start, actions).callers[u].room
  {
    hide Run;
    RunsAreValid(start, actions);
    var s := Run(start, actions);
    AtMostOneRoomPerId(start, actions, s.callers[t].room, s.callers[u].room);
  }

  // ---------------------------------------------------------------- are the rows still as they were read?

  /** No row of the room was written since the given moment. */
  ghost predicate Unchanged(s: State, id: RoomId, version: nat) {
    forall k :: version <= k < |s.log| ==> s.log[k].id != id
  }

  ghost predicate JoinedSince(s: State, id: RoomId, version: nat) {
    exists k :: version <= k < |s.log| && s.log[k].id == id && s.log[k].writer.ByJoin?
  }

  ghost predicate MarkedSince(s: State, id: RoomId, version: nat) {
    exists k :: version <= k < |s.log| && s.log[k].id == id && s.log[k].writer.ByExpiry?
  }

  /** A room object that did not exist yet when the lookup missed has written rows since they were read. */
  ghost predicate OvertakenSince(s: State, id: RoomId, data: Snapshot) {
    exists k :: data.version <= k < |s.log| && s.log[k].id == id &&
      s.log[k].writer.ByRoom? && s.log[k].writer.room >= data.objectsBefore
  }

  function Before(p: Progress): Ref
    requires p.Missed? || p.Read?
  {
    if p.Missed? then p.objectsBefore else p.data.objectsBefore
  }

  /** After a lookup that missed, only newer objects of the room are alive. */
  ghost predicate OnlyNewerAlive(s: State, t: Caller)
    requires t in s.callers && (s.callers[t].Missed? || s.callers[t].Read?)
  {
    && Before(s.callers[t]) <= |s.objects|
    && forall r: Ref :: Alive(s, r) && s.objects[r].id == s.callers[t].id ==> r >= Before(s.callers[t])
  }

  /** So since the rows were read only newer objects wrote; and unwritten rows have the status that was read. */
  ghost predicate ReadRight(s: State, t: Caller)
    requires t in s.callers && s.callers[t].Read?
  {
    var id, data := s.callers[t].id, s.callers[t].data;
    && data.version <= |s.log|
    && (forall k :: data.version <= k < |s.log| && s.log[k].id == id && s.log[k].writer.ByRoom? ==>
          s.log[k].writer.room >= data.objectsBefore)
    && (Unchanged(s, id, data.version) ==> data.status == StatusOf(s, id))
  }

  ghost predicate ReadsRight(s: State) {
    && (forall t :: t in s.callers && (s.callers[t].Missed? || s.callers[t].Read?) ==> OnlyNewerAlive(s, t))
    && (forall t :: t in s.callers && s.callers[t].Read? ==> ReadRight(s, t))
  }

  /** Objects are only added, keep their id, and never come back to life. */
  lemma ObjectsOnlyGrow(s: State, a: Action)
    ensures var v := Step(s, a);
      && |s.objects| <= |v.objects|
      && forall r: Ref :: r < |s.objects| ==> v.objects[r].id == s.objects[r].id && (Alive(v, r) ==> Alive(s, r))
  {
  }

  lemma WaitingAliveNewer(s: State, a: Action, t: Caller)
    requires t in s.callers && (s.callers[t].Missed? || s.callers[t].Read?) && OnlyNewerAlive(s, t)
    requires t in Step(s, a).callers
    requires var p := Step(s, a).callers[t];
      (p.Missed? || p.Read?) && p.id == s.callers[t].id && Before(p) == Before(s.callers[t])
    ensures OnlyNewerAlive(Step(s, a), t)
  {
    ObjectsOnlyGrow(s, a);
    hide Step, Alive;
  }

  lemma LookupAliveNewer(s: State, a: Action, t: Caller)
    requires Valid(s) && t !in s.callers && t in Step(s, a).callers
    requires var p := Step(s, a).callers[t]; p.Missed? || p.Read?
    ensures OnlyNewerAlive(Step(s, a), t)
  {
    assert a == Lookup(t, a.id) && Enabled(s, a) && a.id !in s.rooms;
    forall r: Ref | Alive(s, r) ensures s.objects[r].id != a.id {
      assert Reachable(s, r);
    }
  }

  lemma AliveStaysNewer(s: State, a: Action, t: Caller)
    requires Valid(s) && ReadsRight(s) && t in Step(s, a).callers
    requires var p := Step(s, a).callers[t]; p.Missed? || p.Read?
    ensures OnlyNewerAlive(Step(s, a), t)
  {
    hide OnlyNewerAlive, ReadRight, RegisteredRight, HolderRight, Reachable;
    if t in s.callers { WaitingAliveNewer(s, a, t); } else { LookupAliveNewer(s, a, t); }
  }

  lemma WritingKeepsRead(s: State, v: State, t: Caller, id: RoomId, writer: Writer, status: RowStatus)
    requires t in s.callers && s.callers[t].Read? && ReadRight(s, t)
    requires v.log == s.log + [Write(id, writer)] && v.status == s.status[id := status]
    requires t in v.callers && v.callers[t] == s.callers[t]
    requires writer.ByRoom? && id == s.callers[t].id ==> writer.room >= s.callers[t].data.objectsBefore
    ensures ReadRight(v, t)
  {
    var data := s.callers[t].data;
    assert v.log[|s.log|] == Write(id, writer);
    if Unchanged(v, s.callers[t].id, data.version) {
      assert forall k :: data.version <= k < |s.log| ==> s.log[k] == v.log[k];
      assert Unchanged(s, s.callers[t].id, data.version);
    }
  }

  lemma UnwrittenKeepsRead(s: State, v: State, t: Caller)
    requires t in s.callers && s.callers[t].Read? && ReadRight(s, t)
    requires v.log == s.log && v.status == s.status && t in v.callers && v.callers[t] == s.callers[t]
    ensures ReadRight(v, t)
  {
  }

  /** A caller that has read already. */
  lemma OldReadStaysRight(s: State, a: Action, t: Caller)
    requires Enabled(s, a) && t in s.callers && s.callers[t].Read? && ReadRight(s, t) && OnlyNewerAlive(s, t)
    requires t in Step(s, a).callers && Step(s, a).callers[t].Read?
    ensures ReadRight(Step(s, a), t)
  {
    var v := Step(s, a);
    assert v.callers[t] == s.callers[t];
    assert a.Process? ==> Alive(s, a.room);
    hide ReadRight;
    if a.Process? {
      WritingKeepsRead(s, v, t, s.objects[a.room].id, ByRoom(a.room), a.status);
    } else if a.JoinCommits? {
      WritingKeepsRead(s, v, t, a.id, ByJoin(a.player), StatusOf(s, a.id));
    } else if v.log != s.log {
      WritingKeepsRead(s, v, t, s.callers[a.caller].id, ByExpiry, Ended);
    } else {
      UnwrittenKeepsRead(s, v, t);
    }
  }

  /** A caller that has just read. */
  lemma NewReadIsRight(s: State, a: Action, t: Caller)
    requires Enabled(s, a) && (t in s.callers ==> !s.callers[t].Read?)
    requires t in Step(s, a).callers && Step(s, a).callers[t].Read?
    ensures ReadRight(Step(s, a), t)
  {
  }

  lemma ReadStaysRight(s: State, a: Action, t: Caller)
    requires ReadsRight(s) && Enabled(s, a) && t in Step(s, a).callers && Step(s, a).callers[t].Read?
    ensures ReadRight(Step(s, a), t)
  {
    hide ReadRight, OnlyNewerAlive, Step, Enabled;
    if t in s.callers && s.callers[t].Read? { OldReadStaysRight(s, a, t); } else { NewReadIsRight(s, a, t); }
  }

  lemma {:induction false} RunsReadRight(start: State, actions: seq<Action>)
    requires IsStart(start)
    ensures ReadsRight(Run(start, actions))
  {
    if actions != [] {
      hide Step, Valid, OnlyNewerAlive, ReadRight, Enabled;
      var init, a := actions[..|actions| - 1], actions[|actions| - 1];
      var s := Run(start, init);
      var v := Run(start, actions);
      RunsReadRight(start, init);
      RunsAreValid(start, init);
      forall t | t in v.callers && (v.callers[t].Missed? || v.callers[t].Read?) ensures OnlyNewerAlive(v, t) {
        AliveStaysNewer(s, a, t);
      }
      forall t | t in v.callers && v.callers[t].Read? ensures ReadRight(v, t) {
        DisabledDoesNothing(s, a);
        if Enabled(s, a) { ReadStaysRight(s, a, t); }
      }
    }
  }

  lemma DisabledDoesNothing(s: State, a: Action)
    ensures !Enabled(s, a) ==> Step(s, a) == s
  {
  }

  /**
   * spawn makes a room from rows that are still as they were read exactly if since then no join has committed,
   * no other caller has marked the room expired, and no object made after the lookup has written.
   */
  lemma SpawnIsCurrentExactly(start: State, actions: seq<Action>, t: Caller)
    requires IsStart(start)
    requires var s := Run(start, actions); Enabled(s, EnterSpawn(t)) && s.callers[t].id !in s.rooms
    ensures var s := Run(start, actions);
      var id, data := s.callers[t].id, s.callers[t].data;
      var made := Step(s, EnterSpawn(t)).objects[|s.objects|];
      && made == Object(id, Processing, data)
      && (Unchanged(s, id, data.version) <==>
            !JoinedSince(s, id, data.version) && !MarkedSince(s, id, data.version) && !OvertakenSince(s, id, data))
      && (Unchanged(s, id, data.version) ==> made.from.status == StatusOf(s, id))
  {
    hide Run;
    RunsReadRight(start, actions);
    var s := Run(start, actions);
    var id, data := s.callers[t].id, s.callers[t].data;
    assert ReadRight(s, t);
    if !Unchanged(s, id, data.version) {
      var k :| data.version <= k < |s.log| && s.log[k].id == id;
      assert s.log[k].writer.ByJoin? || s.log[k].writer.ByExpiry? || s.log[k].writer.room >= data.objectsBefore;
    }
  }

  // ---------------------------------------------------------------- each way it fails

  lemma RunOn(start: State, a: seq<Action>, i: nat, s: State, v: State)
    requires i < |a| && Run(start, a[..i]) == s && Step(s, a[i]) == v
    ensures Run(start, a[..i + 1]) == v
  {
    assert a[..i + 1][..i] == a[..i];
  }

  /** A join commits between reading and spawn: the new room has not heard of the player. */
  lemma JoinAfterReading(start: State)
    requires start == Start(map[], 0)
    ensures var s := Run(start, [Lookup(0, 7), Load(0, true), JoinCommits(7, 3)]);
      && Enabled(s, EnterSpawn(0)) && 7 !in s.rooms && s.callers[0] == Read(7, Snapshot(0, Lobby, 0))
      && JoinedSince(s, 7, 0) && !MarkedSince(s, 7, 0) && !OvertakenSince(s, 7, Snapshot(0, Lobby, 0))
  {
    var a := [Lookup(0, 7), Load(0, true), JoinCommits(7, 3)];
    assert a[..0] == [];
    var s1 := start.(callers := map[0 := Missed(7, 0)]);
    RunOn(start, a, 0, start, s1);
    var s2 := start.(callers := map[0 := Read(7, Snapshot(0, Lobby, 0))]);
    RunOn(start, a, 1, s1, s2);
    var s3 := s2.(log := [Write(7, ByJoin(3))], status := map[7 := Lobby]);
    RunOn(start, a, 2, s2, s3);
    assert a[..3] == a;
    assert s3.log[0] == Write(7, ByJoin(3));
  }

  const LATE := [Lookup(0, 7), Load(0, true), Tick(1), Lookup(1, 7), Load(1, true)]
  const ALMOST_OVER := Start(map[7 := Running(0)], MAX_ROOM_DURATION - 1)
  const JUST_READ := Snapshot(0, Running(0), 0)

  lemma ReadJustInTime()
    ensures Run(ALMOST_OVER, LATE[..3]) == ALMOST_OVER.(callers := map[0 := Read(7, JUST_READ)],
                                                      clock := MAX_ROOM_DURATION)
  {
    var a := LATE;
    assert a[..0] == [] && a[0] == Lookup(0, 7) && a[1] == Load(0, true) && a[2] == Tick(1);
    var s1 := ALMOST_OVER.(callers := map[0 := Missed(7, 0)]);
    RunOn(ALMOST_OVER, a, 0, ALMOST_OVER, s1);
    var s2 := ALMOST_OVER.(callers := map[0 := Read(7, JUST_READ)]);
    RunOn(ALMOST_OVER, a, 1, s1, s2);
    RunOn(ALMOST_OVER, a, 2, s2, s2.(clock := MAX_ROOM_DURATION));
  }

  /** Read just before the twelve minutes, marked ended by another caller: a running room on an ended row. */
  lemma ExpiryAfterReading()
    ensures var s := Run(ALMOST_OVER, LATE);
      && Enabled(s, EnterSpawn(0)) && 7 !in s.rooms && s.callers[0] == Read(7, JUST_READ)
      && MarkedSince(s, 7, 0) && !JoinedSince(s, 7, 0) && !OvertakenSince(s, 7, JUST_READ)
      && StatusOf(s, 7) == Ended
  {
    ReadJustInTime();
    hide Run;
    var a := LATE;
    assert a[3] == Lookup(1, 7) && a[4] == Load(1, true) && a[..5] == a;
    var s3 := ALMOST_OVER.(callers := map[0 := Read(7, JUST_READ)], clock := MAX_ROOM_DURATION);
    var s4 := s3.(callers := map[0 := Read(7, JUST_READ), 1 := Missed(7, 0)]);
    RunOn(ALMOST_OVER, a, 3, s3, s4);
    var s5 := s4.(callers := map[0 := Read(7, JUST_READ), 1 := NotFound(7)],
                  status := map[7 := Ended], log := [Write(7, ByExpiry)]);
    RunOn(ALMOST_OVER, a, 4, s4, s5);
    assert s5.log[0] == Write(7, ByExpiry);
  }

  /** Caller 0 reads the rows, then caller 1's room ends its session and is forgotten before caller 0 spawns. */
  const OVERTAKING := [Lookup(0, 7), Load(0, true), Lookup(1, 7), Load(1, true), EnterSpawn(1), LeaveSpawn(1),
                       Process(0, Ended), Stop(0), Forget(0)]

  const UNREAD := Snapshot(0, Lobby, 0)
  const BOTH_READ := Start(map[], 0).(callers := map[0 := Read(7, UNREAD), 1 := Read(7, UNREAD)])
  const ONE_LIVES := BOTH_READ.(rooms := map[7 := 0], objects := [Object(7, Processing, UNREAD)],
                              callers := map[0 := Read(7, UNREAD), 1 := Returned(7, 0)])
  const ONE_STOPPED := ONE_LIVES.(objects := [Object(7, Stopping, UNREAD)],
                                status := map[7 := Ended], log := [Write(7, ByRoom(0))])
  const ONE_GONE := ONE_STOPPED.(rooms := map[], objects := [Object(7, Gone, UNREAD)])

  lemma BothCallersRead()
    ensures Run(Start(map[], 0), OVERTAKING[..4]) == BOTH_READ
  {
    var start, a := Start(map[], 0), OVERTAKING;
    assert a[0] == Lookup(0, 7) && a[1] == Load(0, true);
    assert a[..0] == [] && Run(start, a[..0]) == start;
    hide Run;
    var s1 := start.(callers := map[0 := Missed(7, 0)]);
    RunOn(start, a, 0, start, s1);
    var s2 := start.(callers := map[0 := Read(7, UNREAD)]);
    RunOn(start, a, 1, s1, s2);
    SecondReads(s2);
  }

  lemma SecondReads(s2: State)
    requires s2 == Start(map[], 0).(callers := map[0 := Read(7, UNREAD)])
    requires Run(Start(map[], 0), OVERTAKING[..2]) == s2
    ensures Run(Start(map[], 0), OVERTAKING[..4]) == BOTH_READ
  {
    hide Run;
    var start, a := Start(map[], 0), OVERTAKING;
    assert a[2] == Lookup(1, 7) && a[3] == Load(1, true);
    var s3 := start.(callers := map[0 := Read(7, UNREAD), 1 := Missed(7, 0)]);
    RunOn(start, a, 2, s2, s3);
    RunOn(start, a, 3, s3, BOTH_READ);
  }

  lemma OneCallerSpawns()
    ensures Run(Start(map[], 0), OVERTAKING[..6]) == ONE_LIVES
  {
    BothCallersRead();
    hide Run;
    var start, a := Start(map[], 0), OVERTAKING;
    assert a[4] == EnterSpawn(1) && a[5] == LeaveSpawn(1);
    var s5 := ONE_LIVES.(rooms := map[], callers := BOTH_READ.callers[1 := Created(7, 0)], holder := Some(1));
    RunOn(start, a, 4, BOTH_READ, s5);
    RunOn(start, a, 5, s5, ONE_LIVES);
  }

  lemma OneRoomStops()
    ensures Run(Start(map[], 0), OVERTAKING[..8]) == ONE_STOPPED
  {
    OneCallerSpawns();
    hide Run;
    var start, a := Start(map[], 0), OVERTAKING;
    assert a[6] == Process(0, Ended) && a[7] == Stop(0);
    var s7 := ONE_LIVES.(status := map[7 := Ended], log := [Write(7, ByRoom(0))]);
    RunOn(start, a, 6, ONE_LIVES, s7);
    RunOn(start, a, 7, s7, ONE_STOPPED);
  }

  /** Overtaken by a whole life of the room: a lobby is made although the session has ended. */
  lemma OvertakenSpawnIsStale()
    ensures var s := Run(Start(map[], 0), OVERTAKING);
      && Enabled(s, EnterSpawn(0)) && 7 !in s.rooms && s.callers[0] == Read(7, UNREAD)
      && OvertakenSince(s, 7, UNREAD) && !JoinedSince(s, 7, 0) && !MarkedSince(s, 7, 0)
      && StatusOf(s, 7) == Ended
  {
    OneRoomStops();
    hide Run;
    var start, a := Start(map[], 0), OVERTAKING;
    assert a[8] == Forget(0) && map[7 := 0] - {7} == map[];
    RunOn(start, a, 8, ONE_STOPPED, ONE_GONE);
    assert a[..9] == a;
    assert ONE_GONE.log[0] == Write(7, ByRoom(0));
  }

  // ---------------------------------------------------------------- the map itself

  /** The methods that run while the mutex is held, each the action it stands for. */
  class Rooms {
    var rooms: map<RoomId, Ref>
    var made: nat
    ghost var state: State

    constructor (ghost start: State)
      requires IsStart(start)
      ensures Right() && state == start
    {
      rooms, made := map[], 0;
      state := start;
    }

    ghost predicate Right()
      reads this
    {
      Valid(state) && rooms == state.rooms && made == |state.objects|
    }

    /** Finds the one room of the id that is alive, or there is none. */
    method Lookup(t: Caller, id: RoomId) returns (room: Option<Ref>)
      requires Right() && Enabled(state, Action.Lookup(t, id))
      modifies this`state
      ensures Right() && state == Step(old(state), Action.Lookup(t, id))
      ensures room.Some? ==> Alive(state, room.value) && state.objects[room.value].id == id
      ensures room.None? ==> forall r: Ref :: Alive(state, r) ==> state.objects[r].id != id
    {
      room := if id in rooms then Some(rooms[id]) else None;
      assert forall r: Ref :: Alive(state, r) ==> Reachable(state, r);
      StepKeepsValid(state, Action.Lookup(t, id));
      state := Step(state, Action.Lookup(t, id));
    }

    /** The existing room, or a new object for LeaveSpawn to register. */
    method EnterSpawn(t: Caller, id: RoomId) returns (room: Ref, existing: bool)
      requires Right() && Enabled(state, Action.EnterSpawn(t)) && state.callers[t].id == id
      modifies this`state, this`made
      ensures Right() && state == Step(old(state), Action.EnterSpawn(t))
      ensures state.callers[t] == if existing then Returned(id, room) else Created(id, room)
      ensures Alive(state, room) && state.objects[room].id == id
    {
      existing := id in rooms;
      if existing {
        room := rooms[id];
      } else {
        room, made := made, made + 1;
      }
      StepKeepsValid(state, Action.EnterSpawn(t));
      state := Step(state, Action.EnterSpawn(t));
    }

    method LeaveSpawn(t: Caller, id: RoomId, room: Ref)
      requires Right() && Enabled(state, Action.LeaveSpawn(t)) && state.callers[t] == Created(id, room)
      modifies this`state, this`rooms
      ensures Right() && state == Step(old(state), Action.LeaveSpawn(t)) && state.callers[t] == Returned(id, room)
    {
      rooms := rooms[id := room];
      StepKeepsValid(state, Action.LeaveSpawn(t));
      state := Step(state, Action.LeaveSpawn(t));
    }

    /** Afterwards no entry names the room, and nobody of that id is alive. */
    method Forget(id: RoomId, room: Ref)
      requires Right() && Enabled(state, Action.Forget(room)) && state.objects[room].id == id
      modifies this`state, this`rooms
      ensures Right() && state == Step(old(state), Action.Forget(room))
      ensures forall x :: Found(rooms, x) != Some(room)
    {
      if id in rooms && rooms[id] == room {
        rooms := rooms - {id};
      }
      StepKeepsValid(state, Action.Forget(room));
      state := Step(state, Action.Forget(room));
    }
  }
}
