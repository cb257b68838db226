/** The handle together with its renewer: heartbeats are renewals of the handle begun by the loop, and a release joins
    the loop before it goes to the server. */
module Lifecycle {
  import opened Store
  import H = Handle
  import R = Renewer

  /** `beat` is the goroutine of the handle in which the heartbeat now runs. */
  datatype State = State(handle: H.State, renewer: R.State, beat: Option<H.Tid>)

  datatype Event =
    | HandleDoes(step: H.Event)
    | RenewerDoes(act: R.Event)
    | BeatBegins(t: H.Tid)
    | BeatEnds

  ghost predicate Stopped(r: R.State) { exists u :: R.HasReturned(r, u) }

  /** A release goes on once a `Stop` has returned; `Stop` is called by a release that waits for it. The loop begins and
      ends a renewal only together with the handle. */
  ghost predicate Enabled(s: State, e: Event) {
    match e
    case HandleDoes(h) => H.Enabled(s.handle, h) && (h.Releases? && h.release.Joined? ==> Stopped(s.renewer))
    case RenewerDoes(r) =>
      && R.Enabled(s.renewer, r)
      && (r.CancelBy? ==> H.At(s.handle, r.t, H.Joining))
      && (r.LoopDoes? ==> !r.step.RenewReturns? && (r.step.TestTick? ==> s.renewer.cancelled))
    case BeatBegins(t) => s.renewer.loop.Ticked? && !s.renewer.cancelled && s.beat.None? && t !in s.handle.threads
    case BeatEnds =>
      && s.beat.Some? && s.renewer.loop.Renewing?
      && s.beat.value in s.handle.threads && s.handle.threads[s.beat.value].Done?
  }

  function Next(span: int, s: State, e: Event): State
    requires Enabled(s, e)
  {
    match e
    case HandleDoes(h) => s.(handle := H.Next(span, s.handle, h))
    case RenewerDoes(r) => s.(renewer := R.Next(s.renewer, r))
    case BeatBegins(t) =>
      State(H.Next(span, s.handle, H.Renews(t, H.Renew)), R.LoopNext(s.renewer, R.TestTick), Some(t))
    case BeatEnds =>
      var result := s.handle.threads[s.beat.value].result;
      State(s.handle, R.LoopNext(s.renewer, R.RenewReturns(result)), None)
  }

  ghost predicate Initial(s: State) { H.Initial(s.handle) && s.renewer == R.NEW && s.beat.None? }

  ghost predicate IsRun(span: int, states: seq<State>, events: seq<Event>) {
    && |states| == |events| + 1
    && Initial(states[0])
    && forall i {:trigger events[i]} :: 0 <= i < |events| ==>
         Enabled(states[i], events[i]) && states[i + 1] == Next(span, states[i], events[i])
  }

  /** A release is at the server. */
  predicate Sends(h: H.State, t: H.Tid) { H.At(h, t, H.Sending) }

  ghost predicate Inv(s: State) {
    && H.Inv(s.handle) && R.Inv(s.renewer)
    && (s.beat.Some? <==> s.renewer.loop.Renewing?)
    && (forall t :: Sends(s.handle, t) ==> Stopped(s.renewer))
  }

  lemma RenewNeverSends(span: int, h: H.State, t: H.Tid, r: H.RenewStep, u: H.Tid)
    requires H.CanRenew(h, t, r)
    ensures Sends(H.RenewNext(span, h, t, r), u) <==> Sends(h, u)
  {
  }

  lemma MarkNeverSends(h: H.State, t: H.Tid, m: H.MarkStep, u: H.Tid)
    requires H.CanMark(h, t, m)
    ensures Sends(H.MarkNext(h, t, m), u) <==> Sends(h, u)
  {
  }

  lemma ReleaseSends(h: H.State, t: H.Tid, x: H.ReleaseStep, u: H.Tid)
    requires H.CanRelease(h, t, x) && Sends(H.ReleaseNext(h, t, x), u)
    ensures Sends(h, u) || (u == t && x.Joined?)
  {
  }

  lemma OnlyJoinedSends(span: int, h: H.State, e: H.Event, u: H.Tid)
    requires H.Enabled(h, e) && Sends(H.Next(span, h, e), u)
    ensures Sends(h, u) || e == H.Releases(u, H.Joined)
  {
    match e
    case Tick(_) =>
    case Checks(_) =>
    case Renews(t, r) => RenewNeverSends(span, h, t, r, u);
    case Marks(t, m) => MarkNeverSends(h, t, m, u);
    case Releases(t, x) => ReleaseSends(h, t, x, u);
  }

  lemma StaysStopped(r: R.State, e: R.Event)
    requires R.Enabled(r, e) && Stopped(r)
    ensures Stopped(R.Next(r, e))
  {
    var u :| R.HasReturned(r, u);
    assert R.HasReturned(R.Next(r, e), u);
  }

  lemma HandleStepKeeps(span: int, s: State, h: H.Event)
    requires Inv(s) && Enabled(s, HandleDoes(h))
    ensures Inv(s.(handle := H.Next(span, s.handle, h)))
  {
    H.StepKeepsInv(span, s.handle, h);
    forall t | Sends(H.Next(span, s.handle, h), t) ensures Stopped(s.renewer) {
      OnlyJoinedSends(span, s.handle, h, t);
    }
  }

  lemma RenewerStepKeeps(s: State, r: R.Event)
    requires Inv(s) && Enabled(s, RenewerDoes(r))
    ensures Inv(s.(renewer := R.Next(s.renewer, r)))
  {
    R.StepKeepsInv(s.renewer, r);
    if Stopped(s.renewer) { StaysStopped(s.renewer, r); }
  }

  lemma BeatStepKeeps(span: int, s: State, e: Event)
    requires Inv(s) && Enabled(s, e) && (e.BeatBegins? || e.BeatEnds?)
    ensures Inv(Next(span, s, e))
  {
    var a := if e.BeatBegins? then R.TestTick else R.RenewReturns(s.handle.threads[s.beat.value].result);
    R.StepKeepsInv(s.renewer, R.LoopDoes(a));
    if Stopped(s.renewer) { StaysStopped(s.renewer, R.LoopDoes(a)); }
    if e.BeatBegins? {
      H.StepKeepsInv(span, s.handle, H.Renews(e.t, H.Renew));
      forall u: H.Tid { RenewNeverSends(span, s.handle, e.t, H.Renew, u); }
    }
  }

  lemma StepKeepsInv(span: int, s: State, e: Event)
    requires Inv(s) && Enabled(s, e)
    ensures Inv(Next(span, s, e))
  {
    match e
    case HandleDoes(h) => HandleStepKeeps(span, s, h);
    case RenewerDoes(r) => RenewerStepKeeps(s, r);
    case _ => BeatStepKeeps(span, s, e);
  }

  lemma {:induction false} RunKeepsInv(span: int, states: seq<State>, events: seq<Event>, i: nat)
    requires IsRun(span, states, events) && i < |states|
    ensures Inv(states[i])
  {
    if i == 0 {
      H.InitialInv(states[0].handle);
    } else {
      RunKeepsInv(span, states, events, i - 1);
      assert Enabled(states[i - 1], events[i - 1]);
      StepKeepsInv(span, states[i - 1], events[i - 1]);
    }
  }

  lemma StepStaysStopped(span: int, s: State, e: Event)
    requires Inv(s) && Enabled(s, e) && Stopped(s.renewer)
    ensures Stopped(Next(span, s, e).renewer)
  {
    match e
    case HandleDoes(_) =>
    case RenewerDoes(r) => StaysStopped(s.renewer, r);
    case BeatBegins(_) => StaysStopped(s.renewer, R.LoopDoes(R.TestTick));
    case BeatEnds =>
      StaysStopped(s.renewer, R.LoopDoes(R.RenewReturns(s.handle.threads[s.beat.value].result)));
  }

  lemma {:induction false} RunStaysStopped(span: int, states: seq<State>, events: seq<Event>, i: nat, j: nat)
    requires IsRun(span, states, events) && i <= j < |states| && Stopped(states[i].renewer)
    ensures Stopped(states[j].renewer)
  {
    if i < j {
      RunStaysStopped(span, states, events, i, j - 1);
      RunKeepsInv(span, states, events, j - 1);
      assert Enabled(states[j - 1], events[j - 1]);
      StepStaysStopped(span, states[j - 1], events[j - 1]);
    }
  }

  /** From the moment a release goes to the server, and ever after, no heartbeat is in flight and none can begin. */
  lemma NoHeartbeatAfterRelease(span: int, states: seq<State>, events: seq<Event>, i: nat, j: nat, t: H.Tid, u: H.Tid)
    requires IsRun(span, states, events) && i <= j < |states| && Sends(states[i].handle, t)
    ensures states[j].beat.None? && R.Still(states[j].renewer) && !Enabled(states[j], BeatBegins(u))
  {
    RunKeepsInv(span, states, events, i);
    assert Sends(states[i].handle, t);
    RunStaysStopped(span, states, events, i, j);
    RunKeepsInv(span, states, events, j);
    var v :| R.HasReturned(states[j].renewer, v);
  }
}
