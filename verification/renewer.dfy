/** The background renewer, as a state machine over every interleaving of `Start`, `Stop` and its loop.

    `once` decides who owns closing `done`: a first `Start` hands it to the loop, a first `Stop` closes it itself. The
    body of a `once` ends before any other caller of the same `once` goes on, so it is one step here. */
module Renewer {
  import opened Store

  type Tid = nat

  datatype Loop = NotStarted | Selecting | Ticked | Renewing | Renewed(result: Result) | Notifying | Closing | Exited

  /** A call of `Stop`: after cancelling, after the `once`, after `done` was seen closed. */
  datatype Stopper = Cancelled | Waiting | Returned

  datatype State = State(cancelled: bool, claimed: bool, closes: nat, loop: Loop, notified: nat,
                         stops: map<Tid, Stopper>)

  datatype LoopStep = SeeDone | Tick | TestTick | RenewReturns(result: Result) | TestRenewed | NotifyReturns | Close

  datatype Event = Start | CancelBy(t: Tid) | OnceBy(t: Tid) | ReturnTo(t: Tid) | LoopDoes(step: LoopStep)

  predicate CanLoop(s: State, a: LoopStep) {
    match a
    case SeeDone => s.loop.Selecting? && s.cancelled
    case Tick => s.loop.Selecting?
    case TestTick => s.loop.Ticked?
    case RenewReturns(_) => s.loop.Renewing?
    case TestRenewed => s.loop.Renewed?
    case NotifyReturns => s.loop.Notifying?
    case Close => s.loop.Closing?
  }

  function LoopNext(s: State, a: LoopStep): State
    requires CanLoop(s, a)
  {
    match a
    case SeeDone => s.(loop := Closing)
    case Tick => s.(loop := Ticked)
    case TestTick => s.(loop := if s.cancelled then Closing else Renewing)
    case RenewReturns(r) => s.(loop := Renewed(r))
    case TestRenewed =>
      if s.cancelled then s.(loop := Closing)
      else if s.loop.result.Lost? then s.(loop := Notifying, notified := s.notified + 1)
      else s.(loop := Selecting)
    case NotifyReturns => s.(loop := Closing)
    case Close => s.(loop := Exited, closes := s.closes + 1)
  }

  predicate Enabled(s: State, e: Event) {
    match e
    case Start => true
    case CancelBy(t) => t !in s.stops
    case OnceBy(t) => t in s.stops && s.stops[t].Cancelled?
    case ReturnTo(t) => t in s.stops && s.stops[t].Waiting? && s.closes > 0
    case LoopDoes(a) => CanLoop(s, a)
  }

  function Next(s: State, e: Event): State
    requires Enabled(s, e)
  {
    match e
    case Start => if s.claimed then s else s.(claimed := true, loop := Selecting)
    case CancelBy(t) => s.(cancelled := true, stops := s.stops[t := Cancelled])
    case OnceBy(t) =>
      s.(claimed := true, closes := if s.claimed then s.closes else s.closes + 1, stops := s.stops[t := Waiting])
    case ReturnTo(t) => s.(stops := s.stops[t := Returned])
    case LoopDoes(a) => LoopNext(s, a)
  }

  const NEW := State(false, false, 0, NotStarted, 0, map[])

  ghost predicate IsRun(states: seq<State>, events: seq<Event>) {
    && |states| == |events| + 1
    && states[0] == NEW
    && forall i {:trigger events[i]} :: 0 <= i < |events| ==>
         Enabled(states[i], events[i]) && states[i + 1] == Next(states[i], events[i])
  }

  // ---------------------------------------------------------------- the invariant

  predicate HasReturned(s: State, t: Tid) { t in s.stops && s.stops[t].Returned? }

  predicate Still(s: State) { s.loop.NotStarted? || s.loop.Exited? }

  ghost predicate Inv(s: State) {
    && (!s.claimed ==> s.closes == 0 && s.loop.NotStarted?)
    && (s.claimed && Still(s) ==> s.closes == 1)
    && (!Still(s) ==> s.closes == 0)
    && (s.loop.Notifying? ==> s.notified == 1)
    && (s.notified > 0 ==> s.notified == 1 && (s.loop.Notifying? || s.loop.Closing? || s.loop.Exited?))
    && (forall t :: t in s.stops ==> s.cancelled && (s.stops[t].Waiting? ==> s.claimed))
    && (forall t :: HasReturned(s, t) ==> s.closes == 1)
  }

  lemma StepKeepsInv(s: State, e: Event)
    requires Inv(s) && Enabled(s, e)
    ensures Inv(Next(s, e))
  {
    var s' := Next(s, e);
    forall t | HasReturned(s', t) ensures s'.closes == 1 {
      assert e != ReturnTo(t) ==> HasReturned(s, t);
    }
  }

  lemma {:induction false} RunKeepsInv(states: seq<State>, events: seq<Event>, i: nat)
    requires IsRun(states, events) && i < |states|
    ensures Inv(states[i])
  {
    if i > 0 {
      RunKeepsInv(states, events, i - 1);
      assert Enabled(states[i - 1], events[i - 1]);
      StepKeepsInv(states[i - 1], events[i - 1]);
    }
  }

  /** `done` is closed at most once (a second close would panic), and exactly once when the loop has exited or a `Stop`
      claimed it; the loss callback fires at most once. */
  lemma ClosedOnce(states: seq<State>, events: seq<Event>, i: nat)
    requires IsRun(states, events) && i < |states|
    ensures states[i].closes <= 1 && states[i].notified <= 1
    ensures states[i].closes == 1 <==> states[i].claimed && Still(states[i])
  {
    RunKeepsInv(states, events, i);
  }

  /** Nothing moves once a `Stop` has returned: the loop is not running and never starts, so no renewal is running or
      can begin, and the loss callback is not running and never fires again. */
  lemma {:induction false} SilentAfterStop(states: seq<State>, events: seq<Event>, i: nat, j: nat, t: Tid)
    requires IsRun(states, events) && i <= j < |states| && HasReturned(states[i], t)
    ensures HasReturned(states[j], t) && Still(states[j])
    ensures states[j].loop == states[i].loop && states[j].notified == states[i].notified && states[j].closes == 1
  {
    RunKeepsInv(states, events, i);
    if i < j {
      SilentAfterStop(states, events, i, j - 1, t);
      RunKeepsInv(states, events, j - 1);
      assert Enabled(states[j - 1], events[j - 1]);
    }
  }

  // ---------------------------------------------------------------- Start and Stop

  /** The first `Start` launches the loop, unless a `Stop` came before it; every other one changes nothing. */
  lemma StartDecides(s: State)
    ensures !s.claimed ==> Next(s, Start) == s.(claimed := true, loop := Selecting)
    ensures s.claimed ==> Next(s, Start) == s
  {
  }

  /** A `Stop` before any `Start` closes `done` itself and returns, and no later `Start` launches anything. */
  lemma StopBeforeStart(t: Tid)
    ensures Enabled(NEW, CancelBy(t)) && Enabled(Next(NEW, CancelBy(t)), OnceBy(t))
    ensures var s := Next(Next(NEW, CancelBy(t)), OnceBy(t));
            && s.closes == 1 && Enabled(s, ReturnTo(t)) && Next(s, Start) == s
            && HasReturned(Next(s, ReturnTo(t)), t) && Next(s, ReturnTo(t)).loop.NotStarted?
  {
  }

  // ---------------------------------------------------------------- one heartbeat

  /** A tick, the renewal it begins, and what the loop makes of its result. */
  function Beat(s: State, result: Result): State
    requires s.loop.Selecting? && !s.cancelled
  {
    var s1 := LoopNext(LoopNext(s, Tick), TestTick);
    LoopNext(LoopNext(s1, RenewReturns(result)), TestRenewed)
  }

  /** Undisturbed, a heartbeat notifies the holder if and only if the lease is gone, and then ends the loop; whatever
      else the renewal returned, the loop goes on as before. */
  lemma BeatDecides(s: State, result: Result)
    requires s.loop.Selecting? && !s.cancelled
    ensures Beat(s, result) == if result.Lost? then s.(loop := Notifying, notified := s.notified + 1) else s
    ensures result.Lost? ==>
              LoopNext(LoopNext(Beat(s, result), NotifyReturns), Close) ==
              s.(loop := Exited, notified := s.notified + 1, closes := s.closes + 1)
  {
  }

  /** Cancelled at any point, the loop neither begins a renewal nor notifies any more. */
  lemma CancelledBeat(s: State, a: LoopStep)
    requires s.cancelled && CanLoop(s, a)
    ensures LoopNext(s, a).notified == s.notified && !LoopNext(s, a).loop.Renewing?
    ensures s.loop.Ticked? || s.loop.Renewed? ==> LoopNext(s, a).loop == Closing
  {
  }

  // ---------------------------------------------------------------- Stop returns

  /** How many more steps a cancelled loop can take. */
  function Rank(l: Loop): nat {
    match l
    case NotStarted => 0
    case Exited => 0
    case Closing => 1
    case Ticked => 2
    case Renewed(_) => 2
    case Notifying => 2
    case Selecting => 3
    case Renewing => 3
  }

  /** After a cancel every step of the loop brings its end nearer, and until then it always has one. */
  lemma CancelledLoopEnds(s: State, a: LoopStep)
    requires Inv(s) && s.cancelled
    ensures CanLoop(s, a) ==> Rank(LoopNext(s, a).loop) < Rank(s.loop)
    ensures Rank(s.loop) > 0 ==> exists b :: CanLoop(s, b)
  {
    if Rank(s.loop) > 0 {
      var b := match s.loop
        case NotStarted => SeeDone
        case Exited => SeeDone
        case Closing => Close
        case Ticked => TestTick
        case Renewed(_) => TestRenewed
        case Notifying => NotifyReturns
        case Selecting => SeeDone
        case Renewing => RenewReturns(Ok);
      assert CanLoop(s, b);
    }
  }

  /** So a waiting `Stop` never hangs: when the loop has no step left, it can return. */
  lemma StopReturns(states: seq<State>, events: seq<Event>, i: nat, t: Tid)
    requires IsRun(states, events) && i < |states|
    requires t in states[i].stops && states[i].stops[t].Waiting?
    ensures Enabled(states[i], ReturnTo(t)) || exists a :: CanLoop(states[i], a)
  {
    RunKeepsInv(states, events, i);
    CancelledLoopEnds(states[i], SeeDone);
  }
}
