/**
 * The event queue of a room goroutine and Room.call (api/internal/game/room.go) under any interleaving: a caller
 * sends a function, the loop runs the functions one by one, and done is closed when the loop is over.
 */
module Mailbox {
  import opened Common

  const EVENT_BUFFER := 64

  type Caller = nat
  type Value = int

  datatype Loop = Idle | Running(caller: Caller) | Leaving | Done

  /** Sent: in the queue or taken from it, waiting. Draining: has seen done closed, looks once more for a reply. */
  datatype Stage = Sent | Draining | Returned(reply: Option<Value>)

  /**
   * queue: buffered functions, then the senders blocked on the full buffer, first come first served. ran: the
   * functions that ran, in order. replies: the one-place reply channels; a reply stays until it is received.
   * A missing value in Returned is ErrRoomClosed.
   */
  datatype State = State(loop: Loop, queue: seq<Caller>, callers: map<Caller, Stage>, ran: seq<Caller>,
                         replies: map<Caller, Value>)

  const FRESH := State(Idle, [], map[], [], map[])

  datatype Action =
    | Send(caller: Caller)           // the function enters the buffer, or its sender blocks
    | RefusedAtOnce(caller: Caller)  // done is closed already
    | GiveUp(caller: Caller)         // done closes while the sender is blocked
    | Take                           // the loop receives the next function
    | Finish(value: Value, ends: bool)  // the function ran and replied; the session may be over by it
    | Cancelled                      // the process shuts down
    | CloseDone
    | Receive(caller: Caller)
    | SeeDone(caller: Caller)
    | Drain(caller: Caller)

  predicate Blocked(s: State, c: Caller) {
    exists i :: EVENT_BUFFER <= i < |s.queue| && s.queue[i] == c
  }

  predicate Enabled(s: State, a: Action) {
    match a
    case Send(c) => c !in s.callers && (s.loop.Done? ==> |s.queue| < EVENT_BUFFER)
    case RefusedAtOnce(c) => c !in s.callers && s.loop.Done?
    case GiveUp(c) => c in s.callers && s.callers[c].Sent? && Blocked(s, c) && s.loop.Done?
    case Take => s.loop.Idle? && s.queue != []
    case Finish(_, _) => s.loop.Running?
    case Cancelled => s.loop.Idle?
    case CloseDone => s.loop.Leaving?
    case Receive(c) => c in s.callers && s.callers[c].Sent? && !Blocked(s, c) && c in s.replies
    case SeeDone(c) => c in s.callers && s.callers[c].Sent? && !Blocked(s, c) && s.loop.Done?
    case Drain(c) => c in s.callers && s.callers[c].Draining?
  }

  function Reply(s: State, c: Caller): Option<Value> {
    if c in s.replies then Some(s.replies[c]) else None
  }

  function Step(s: State, a: Action): State {
    if !Enabled(s, a) then s
    else match a
      case Send(c) => s.(queue := s.queue + [c], callers := s.callers[c := Sent])
      case RefusedAtOnce(c) => s.(callers := s.callers[c := Returned(None)])
      case GiveUp(c) => s.(queue := Without(s.queue, c), callers := s.callers[c := Returned(None)])
      case Take => s.(loop := Running(s.queue[0]), queue := s.queue[1..])
      case Finish(v, ends) =>
        var c := s.loop.caller;
        s.(loop := if ends then Leaving else Idle, ran := s.ran + [c], replies := s.replies[c := v])
      case Cancelled => s.(loop := Leaving)
      case CloseDone => s.(loop := Done)
      case Receive(c) => s.(callers := s.callers[c := Returned(Reply(s, c))])
      case SeeDone(c) => s.(callers := s.callers[c := Draining])
      case Drain(c) => s.(callers := s.callers[c := Returned(Reply(s, c))])
  }

  function Run(actions: seq<Action>): State {
    if actions == [] then FRESH else Step(Run(actions[..|actions| - 1]), actions[|actions| - 1])
  }

  // ---------------------------------------------------------------- truthfulness

  /** A function is queued, running, or has run, never two of these and never twice. */
  ghost predicate RunsOnce(s: State) {
    && Distinct(s.queue) && Distinct(s.ran)
    && (forall c :: c in s.queue ==> c !in s.ran && c in s.callers && s.loop != Running(c))
    && (s.loop.Running? ==> s.loop.caller !in s.ran && s.loop.caller in s.callers)
    && (forall c :: c in s.ran ==> c in s.callers)
  }

  /** Whoever is told ErrRoomClosed is told so after the loop is over, and neither ran nor will. */
  ghost predicate Truthful(s: State) {
    && (forall c :: c in s.replies <==> c in s.ran)
    && (forall c :: c in s.callers && (s.callers[c].Draining? || s.callers[c] == Returned(None)) ==> s.loop.Done?)
    && (forall c :: c in s.callers && s.callers[c].Returned? ==> s.callers[c].reply == Reply(s, c))
    && (forall c :: c in s.callers && s.callers[c].Sent? ==>
          c in s.queue || s.loop == Running(c) || c in s.ran || s.loop.Leaving? || s.loop.Done?)
  }

  lemma StepKeepsRunsOnce(s: State, a: Action)
    requires RunsOnce(s)
    ensures RunsOnce(Step(s, a))
  {
    if a.Take? && Enabled(s, a) {
      assert forall c :: c in s.queue[1..] ==> c in s.queue && c != s.queue[0];
    }
  }

  lemma StepKeepsTruth(s: State, a: Action)
    requires RunsOnce(s) && Truthful(s)
    ensures Truthful(Step(s, a))
  {
    if a.Take? && Enabled(s, a) { assert s.queue == [s.queue[0]] + s.queue[1..]; }
  }

  lemma {:induction false} RunsAreTruthful(actions: seq<Action>)
    ensures RunsOnce(Run(actions)) && Truthful(Run(actions))
  {
    hide Step, Truthful, RunsOnce;
    if actions != [] {
      var init, a := actions[..|actions| - 1], actions[|actions| - 1];
      RunsAreTruthful(init);
      StepKeepsRunsOnce(Run(init), a);
      StepKeepsTruth(Run(init), a);
    } else {
      FreshIsTruthful();
    }
  }

  lemma FreshIsTruthful()
    ensures RunsOnce(FRESH) && Truthful(FRESH)
  {
  }

  /**
   * call says ErrRoomClosed exactly if its function did not run and never will; otherwise it gives the function's own
   * result.
   */
  lemma CallTellsTheTruth(actions: seq<Action>, later: seq<Action>, c: Caller)
    requires c in Run(actions).callers && Run(actions).callers[c].Returned?
    ensures var s := Run(actions);
      var t := Run(actions + later);
      && (s.callers[c].reply.None? <==> c !in t.ran)
      && (s.callers[c].reply.Some? ==> c in t.replies && s.callers[c].reply.value == t.replies[c])
  {
    RunsAreTruthful(actions);
    ReturnedIsFinal(actions, later, c);
    RunsAreTruthful(actions + later);
  }

  lemma {:induction false} ReturnedIsFinal(actions: seq<Action>, later: seq<Action>, c: Caller)
    requires c in Run(actions).callers && Run(actions).callers[c].Returned?
    ensures c in Run(actions + later).callers && Run(actions + later).callers[c] == Run(actions).callers[c]
  {
    hide Step;
    if later == [] {
      assert actions + later == actions;
    } else {
      var all, init := actions + later, later[..|later| - 1];
      assert all[..|all| - 1] == actions + init;
      ReturnedIsFinal(actions, init, c);
      RunsAreTruthful(actions + init);
      ReturnedStays(Run(actions + init), later[|later| - 1], c);
    }
  }

  lemma ReturnedStays(s: State, a: Action, c: Caller)
    requires Truthful(s) && RunsOnce(s) && c in s.callers && s.callers[c].Returned?
    ensures c in Step(s, a).callers && Step(s, a).callers[c] == s.callers[c]
  {
  }

  // ---------------------------------------------------------------- nobody waits forever

  function Position(queue: seq<Caller>, c: Caller): (i: nat)
    ensures i <= |queue| && (c in queue ==> i < |queue| && queue[i] == c)
  {
    if queue == [] || queue[0] == c then 0 else 1 + Position(queue[1..], c)
  }

  /** How many steps of the loop and of the caller itself are at most left before the call returns. */
  function Rank(s: State, c: Caller): nat
    requires c in s.callers
  {
    match s.callers[c]
    case Returned(_) => 0
    case Draining => 1
    case Sent =>
      if c in s.replies || s.loop.Done? then 2
      else if s.loop.Leaving? then 3
      else if s.loop == Running(c) then 4
      else 5 + 2 * Position(s.queue, c) + if s.loop.Running? then 1 else 0
  }

  predicate OwnAction(a: Action, c: Caller) {
    (a.GiveUp? || a.Receive? || a.SeeDone? || a.Drain?) && a.caller == c
  }

  predicate LoopAction(a: Action) {
    a.Take? || a.Finish? || a.Cancelled? || a.CloseDone?
  }

  /** A step of the caller, or one of the loop while the caller depends on it. */
  predicate Helps(s: State, a: Action, c: Caller)
    requires c in s.callers
  {
    Enabled(s, a) && (OwnAction(a, c) || (LoopAction(a) && s.callers[c].Sent? && c !in s.replies && !s.loop.Done?))
  }

  /** Something can always be done for a caller that waits. */
  lemma SomethingHelps(s: State, c: Caller) returns (a: Action)
    requires RunsOnce(s) && Truthful(s) && c in s.callers && !s.callers[c].Returned?
    ensures Helps(s, a, c)
  {
    if s.callers[c].Draining? { a := Drain(c); }
    else if c in s.replies { a := Receive(c); }
    else if s.loop.Done? { a := if Blocked(s, c) then GiveUp(c) else SeeDone(c); }
    else if s.loop.Leaving? { a := CloseDone; }
    else if s.loop.Running? { a := Finish(0, false); }
    else { a := Take; }
  }

  lemma {:induction false} PositionAfterOthers(queue: seq<Caller>, c: Caller, other: Caller)
    requires c in queue
    ensures Position(queue + [other], c) == Position(queue, c)
    ensures queue[0] != c ==> Position(queue[1..], c) + 1 == Position(queue, c)
  {
    if queue[0] != c {
      assert (queue + [other])[1..] == queue[1..] + [other];
      PositionAfterOthers(queue[1..], c, other);
    }
  }

  lemma {:induction false} PositionWithout(queue: seq<Caller>, c: Caller, other: Caller)
    requires c in queue && c != other
    ensures c in Without(queue, other) && Position(Without(queue, other), c) <= Position(queue, c)
  {
    if queue[0] != c && queue[0] != other {
      PositionWithout(queue[1..], c, other);
    }
  }

  /** Nothing anybody does sets a caller back, and what helps brings it forward. */
  lemma NothingSetsBack(s: State, a: Action, c: Caller)
    requires RunsOnce(s) && Truthful(s) && c in s.callers
    ensures c in Step(s, a).callers
    ensures Rank(Step(s, a), c) + (if Helps(s, a, c) then 1 else 0) <= Rank(s, c)
  {
    if a.Send? && c in s.queue { PositionAfterOthers(s.queue, c, a.caller); }
    if a.Take? && c in s.queue { PositionAfterOthers(s.queue, c, 0); }
    if a.GiveUp? && c in s.queue && a.caller != c { PositionWithout(s.queue, c, a.caller); }
  }

  function RunFrom(s: State, actions: seq<Action>): State
    decreases |actions|
  {
    if actions == [] then s else RunFrom(Step(s, actions[0]), actions[1..])
  }

  /** How many of the actions help the caller. */
  function Help(s: State, actions: seq<Action>, c: Caller): nat
    requires c in s.callers
    decreases |actions|
  {
    if actions == [] then 0
    else (if Helps(s, actions[0], c) then 1 else 0) +
         (if c in Step(s, actions[0]).callers then Help(Step(s, actions[0]), actions[1..], c) else 0)
  }

  /**
   * A call returns once it was helped as often as its rank says: six times plus twice per function queued before is
   * enough.
   */
  lemma {:induction false} EnoughHelpReturns(s: State, actions: seq<Action>, c: Caller)
    requires RunsOnce(s) && Truthful(s) && c in s.callers && Help(s, actions, c) >= Rank(s, c)
    ensures c in RunFrom(s, actions).callers && RunFrom(s, actions).callers[c].Returned?
    decreases |actions|
  {
    hide Step, Truthful, RunsOnce, Helps;
    if actions != [] {
      StepKeepsRunsOnce(s, actions[0]);
      StepKeepsTruth(s, actions[0]);
      NothingSetsBack(s, actions[0], c);
      EnoughHelpReturns(Step(s, actions[0]), actions[1..], c);
    }
  }
}
