/** The handle of an acquired lease, as a state machine over every interleaving of its deadline checks, its renewals,
    its loss notifications and its releases.

    `span` is how far ahead of its start the local deadline of a request lies.

    Each step is one access to what the goroutines share: the loss flag, the released flag, the expiry of the lease,
    the clock, the timer under its mutex, or one round trip to the server. */
module Handle {
  import opened Store

  type Tid = nat

  /** What a goroutine does after `markLost` returned. */
  datatype Then = Finish(result: Result) | Join

  datatype Thread =
    | Entered                                            // renew: before the test of the flags
    | Tested                                             // before the test of the deadline
    | Bounded                                            // about to send
    | Calling(deadline: int)                             // the renewal is in flight
    | Replied(result: Result, deadline: int)             // before the final test
    | Cancel(next: Then) | Await(next: Then) | Hold(next: Then) // markLost: before cancel, before lock, inside
    | Joining | Sending                                  // release: waiting for the renewer, in flight
    | Done(result: Result)

  /** The deadline check: it starts when its timer fires and holds the mutex from `Locked` to `Measured`. */
  datatype Check = Idle | Fired | Locked | Passed | Read(expiry: Option<int>) | Measured(remaining: int, at: int)

  /** A pending timer, and how long after measuring the remaining time it was armed. */
  datatype Timer = Off | Armed(at: int, slack: nat)

  datatype Lock = Open | ByCheck | ByThread(t: Tid)

  datatype State = State(now: int, expiresAt: Option<int>, lost: bool, released: bool, timer: Timer, check: Check,
                         lock: Lock, threads: map<Tid, Thread>, releasing: Option<Tid>, releaseDone: bool,
                         marked: bool) // some markLost has returned

  /** What a round trip brings. A watchdog asks whether the lease is still there, and extends nothing. */
  datatype Outcome = Granted | Present | Refused | Failed

  /** The steps of the deadline check. */
  datatype CheckStep = Fire | LockCheck | TestLost | ReadExpiry | Measure | Conclude

  datatype RenewStep = Renew | TestFlags | TestDeadline | Send | Receive(outcome: Outcome) | Settle

  datatype MarkStep = Notify | CancelLost | LockMark | StopTimer

  datatype ReleaseStep = Release | Joined | Released(outcome: Outcome, forget: bool)

  datatype Event =
    | Tick(ms: nat)
    | Checks(check: CheckStep)
    | Renews(t: Tid, renew: RenewStep)
    | Marks(t: Tid, mark: MarkStep)
    | Releases(t: Tid, release: ReleaseStep)

  predicate Alive(s: State) { s.expiresAt.Some? && s.expiresAt.value > s.now }

  predicate At(s: State, t: Tid, p: Thread) { t in s.threads && s.threads[t] == p }

  predicate CanCheck(s: State, c: CheckStep) {
    match c
    case Fire => s.timer.Armed? && s.timer.at <= s.now
    case LockCheck => s.check.Fired? && s.lock.Open?
    case TestLost => s.check.Locked?
    case ReadExpiry => s.check.Passed?
    case Measure => s.check.Read?
    case Conclude => s.check.Measured?
  }

  /** No time left: lost. Otherwise arm the timer; either way the mutex is free again. */
  function Concluded(s: State): State
    requires s.check.Measured?
  {
    if s.check.remaining <= 0
    then s.(lost := true, timer := Off, check := Idle, lock := Open)
    else s.(timer := Armed(s.now + s.check.remaining, if s.now >= s.check.at then s.now - s.check.at else 0),
            check := Idle, lock := Open)
  }

  function CheckNext(s: State, c: CheckStep): State
    requires CanCheck(s, c)
  {
    match c
    case Fire => s.(timer := Off, check := Fired)
    case LockCheck => s.(lock := ByCheck, check := Locked)
    case TestLost => if s.lost then s.(check := Idle, lock := Open) else s.(check := Passed)
    case ReadExpiry => s.(check := Read(s.expiresAt))
    case Measure => s.(check := Measured(if s.check.expiry.Some? then s.check.expiry.value - s.now else 0, s.now))
    case Conclude => Concluded(s)
  }

  function AfterMark(n: Then): Thread { if n.Finish? then Done(n.result) else Joining }

  function Goto(s: State, t: Tid, p: Thread): State { s.(threads := s.threads[t := p]) }

  /** A reply settles the release, whatever it says; only a failed round trip leaves it to be repeated. */
  function ReleaseReply(s: State, t: Tid, outcome: Outcome, forget: bool): State {
    if outcome.Failed? then Goto(s, t, Done(Transient)).(releasing := None)
    else
      Goto(s, t, Done(if outcome.Granted? then Ok else Lost))
        .(releasing := None, releaseDone := true, expiresAt := if outcome.Granted? || forget then None else s.expiresAt)
  }

  predicate CanRenew(s: State, t: Tid, r: RenewStep) {
    if r.Renew? then t !in s.threads
    else
      t in s.threads &&
      match r
      case Renew => false
      case TestFlags => s.threads[t].Entered?
      case TestDeadline => s.threads[t].Tested?
      case Send => s.threads[t].Bounded?
      case Receive(_) => s.threads[t].Calling?
      case Settle => s.threads[t].Replied?
  }

  /** The lease takes a confirmed renewal only while the old and the new deadline are both ahead. */
  predicate Takes(s: State, deadline: int, outcome: Outcome) { outcome.Granted? && Alive(s) && deadline > s.now }

  function RenewPlace(span: int, s: State, t: Tid, r: RenewStep): Thread
    requires CanRenew(s, t, r)
  {
    match r
    case Renew => Entered
    case TestFlags => if s.released || s.lost then Done(Lost) else Tested
    case TestDeadline => if Alive(s) then Bounded else Cancel(Finish(Lost))
    case Send => Calling(s.now + span)
    case Receive(outcome) =>
      var d := s.threads[t].deadline;
      if outcome.Present? then Replied(Ok, if s.expiresAt.Some? then s.expiresAt.value else d)
      else Replied(if outcome.Failed? then Transient else if Takes(s, d, outcome) then Ok else Lost, d)
    case Settle =>
      var result := s.threads[t].result;
      if s.lost || result.Lost? || !Alive(s) then Cancel(Finish(Lost)) else Done(result)
  }

  function RenewExpiry(s: State, t: Tid, r: RenewStep): Option<int>
    requires CanRenew(s, t, r)
  {
    if r.Receive? && Takes(s, s.threads[t].deadline, r.outcome) && s.threads[t].deadline > s.expiresAt.value
    then Some(s.threads[t].deadline) else s.expiresAt
  }

  function RenewNext(span: int, s: State, t: Tid, r: RenewStep): State
    requires CanRenew(s, t, r)
  {
    Goto(s.(expiresAt := RenewExpiry(s, t, r)), t, RenewPlace(span, s, t, r))
  }

  /** `markLost` may be called anew by an alarm at the deadline, or after an operation that found the lease gone. */
  predicate CanMark(s: State, t: Tid, m: MarkStep) {
    match m
    case Notify => t !in s.threads && (s.lost || s.released || !Alive(s))
    case CancelLost => t in s.threads && s.threads[t].Cancel?
    case LockMark => t in s.threads && s.threads[t].Await? && s.lock.Open?
    case StopTimer => t in s.threads && s.threads[t].Hold?
  }

  function MarkNext(s: State, t: Tid, m: MarkStep): State
    requires CanMark(s, t, m)
  {
    match m
    case Notify => Goto(s, t, Cancel(Finish(Lost)))
    case CancelLost => Goto(s, t, Await(s.threads[t].next)).(lost := true)
    case LockMark => Goto(s, t, Hold(s.threads[t].next)).(lock := ByThread(t))
    case StopTimer => Goto(s, t, AfterMark(s.threads[t].next)).(timer := Off, lock := Open, marked := true)
  }

  predicate CanRelease(s: State, t: Tid, x: ReleaseStep) {
    match x
    case Release => t !in s.threads && s.releasing.None?
    case Joined => t in s.threads && s.threads[t].Joining?
    case Released(outcome, _) => t in s.threads && s.threads[t].Sending? && !outcome.Present?
  }

  function ReleaseNext(s: State, t: Tid, x: ReleaseStep): State
    requires CanRelease(s, t, x)
  {
    match x
    case Release =>
      if s.releaseDone then Goto(s, t, Done(Ok)) else Goto(s, t, Cancel(Join)).(released := true, releasing := Some(t))
    case Joined => Goto(s, t, Sending)
    case Released(outcome, forget) => ReleaseReply(s, t, outcome, forget)
  }

  predicate Enabled(s: State, e: Event) {
    match e
    case Tick(_) => true
    case Checks(c) => CanCheck(s, c)
    case Renews(t, r) => CanRenew(s, t, r)
    case Marks(t, m) => CanMark(s, t, m)
    case Releases(t, x) => CanRelease(s, t, x)
  }

  function Next(span: int, s: State, e: Event): State
    requires Enabled(s, e)
  {
    match e
    case Tick(ms) => s.(now := s.now + ms)
    case Checks(c) => CheckNext(s, c)
    case Renews(t, r) => RenewNext(span, s, t, r)
    case Marks(t, m) => MarkNext(s, t, m)
    case Releases(t, x) => ReleaseNext(s, t, x)
  }

  /** A handle just started: the first deadline check is about to run. */
  ghost predicate Initial(s: State) {
    && !s.lost && !s.released && s.timer.Off? && s.check.Fired? && s.lock.Open? && s.threads == map[]
    && s.releasing.None? && !s.releaseDone && !s.marked && s.expiresAt.Some?
  }

  ghost predicate IsRun(span: int, states: seq<State>, events: seq<Event>) {
    && |states| == |events| + 1
    && Initial(states[0])
    && forall i {:trigger events[i]} :: 0 <= i < |events| ==>
         Enabled(states[i], events[i]) && states[i + 1] == Next(span, states[i], events[i])
  }

  // ---------------------------------------------------------------- the invariant

  predicate Locking(c: Check) { c.Locked? || c.Passed? || c.Read? || c.Measured? }

  predicate ReleasePhase(p: Thread) {
    p.Joining? || p.Sending? || ((p.Cancel? || p.Await? || p.Hold?) && p.next.Join?)
  }

  ghost predicate ThreadOk(s: State, t: Tid) {
    t in s.threads ==>
      var p := s.threads[t];
      && (p.Await? || p.Hold? ==> s.lost)
      && ((p.Cancel? || p.Await? || p.Hold?) && p.next.Finish? ==> p.next.result.Lost?)
      && (p.Replied? && p.result.Ok? && !s.lost ==> s.expiresAt.Some? && p.deadline <= s.expiresAt.value)
      && (p.Hold? <==> s.lock == ByThread(t))
      && (p.Joining? || p.Sending? ==> s.marked)
      && (ReleasePhase(p) <==> s.releasing == Some(t))
  }

  /** A handle that is not lost is being checked, or will be no later than its expiry (and the time it took to arm). */
  ghost predicate Watched(s: State) {
    !s.lost ==>
      && s.expiresAt.Some?
      && (s.check.Idle? ==> s.timer.Armed? && s.timer.at - s.timer.slack <= s.expiresAt.value)
      && (s.check.Read? ==> s.check.expiry.Some? && s.check.expiry.value <= s.expiresAt.value)
      && (s.check.Measured? ==> s.check.at + s.check.remaining <= s.expiresAt.value)
  }

  ghost predicate Core(s: State) {
    && Watched(s)
    && (s.lock.ByCheck? <==> Locking(s.check))
    && (!s.check.Idle? ==> s.timer.Off?)
    && (s.check.Measured? ==> s.check.at <= s.now)
    && (s.marked ==> s.lost && s.timer.Off? && (s.check.Idle? || s.check.Fired? || s.check.Locked?))
    && (s.lock.ByThread? ==> s.lock.t in s.threads)
    && (s.releasing.Some? ==> s.releasing.value in s.threads && !s.releaseDone)
  }

  ghost predicate Inv(s: State) {
    Core(s) && forall t {:trigger ThreadOk(s, t)} :: ThreadOk(s, t)
  }

  lemma InitialInv(s: State)
    requires Initial(s)
    ensures Inv(s)
  {
  }

  lemma CheckKeepsCore(s: State, c: CheckStep)
    requires Core(s) && CanCheck(s, c)
    ensures Core(CheckNext(s, c))
  {
  }

  lemma CheckKeepsThread(s: State, c: CheckStep, t: Tid)
    requires Core(s) && ThreadOk(s, t) && CanCheck(s, c)
    ensures ThreadOk(CheckNext(s, c), t)
  {
  }

  /** A place in a renewal, or before the cancel step of `markLost`: it holds nothing and has promised nothing. */
  predicate Plain(p: Thread) {
    p.Entered? || p.Tested? || p.Bounded? || p.Calling? || p.Replied? || p.Done? || p == Cancel(Finish(Lost))
  }

  lemma GotoPlain(s: State, t: Tid, p: Thread, u: Tid)
    requires Core(s) && ThreadOk(s, t) && ThreadOk(s, u)
    requires t in s.threads ==> Plain(s.threads[t])
    requires Plain(p)
    requires p.Replied? && p.result.Ok? && !s.lost ==> s.expiresAt.Some? && p.deadline <= s.expiresAt.value
    ensures ThreadOk(Goto(s, t, p), u)
  {
  }

  lemma GotoKeepsCore(s: State, t: Tid, p: Thread)
    requires Core(s)
    ensures Core(Goto(s, t, p))
  {
  }

  /** Only a later expiry, or none at all. */
  predicate Raises(e: Option<int>, e': Option<int>) {
    e == e' || (e.Some? && e'.Some? && e.value <= e'.value)
  }

  lemma RaiseKeepsCore(s: State, e: Option<int>)
    requires Core(s) && Raises(s.expiresAt, e)
    ensures Core(s.(expiresAt := e))
  {
  }

  lemma RaiseKeepsThread(s: State, e: Option<int>, u: Tid)
    requires ThreadOk(s, u) && Raises(s.expiresAt, e)
    ensures ThreadOk(s.(expiresAt := e), u)
  {
  }

  lemma RenewPlaceIsPlain(span: int, s: State, t: Tid, r: RenewStep)
    requires Core(s) && CanRenew(s, t, r)
    ensures var p, e := RenewPlace(span, s, t, r), RenewExpiry(s, t, r);
            && Plain(p) && (t in s.threads ==> Plain(s.threads[t])) && Raises(s.expiresAt, e)
            && (p.Replied? && p.result.Ok? && !s.lost ==> e.Some? && p.deadline <= e.value)
  {
  }

  lemma RenewKeepsCore(span: int, s: State, t: Tid, r: RenewStep)
    requires Core(s) && CanRenew(s, t, r)
    ensures Core(RenewNext(span, s, t, r))
  {
    var e := RenewExpiry(s, t, r);
    RenewPlaceIsPlain(span, s, t, r);
    RaiseKeepsCore(s, e);
    GotoKeepsCore(s.(expiresAt := e), t, RenewPlace(span, s, t, r));
  }

  lemma RenewKeepsThread(span: int, s: State, t: Tid, r: RenewStep, u: Tid)
    requires Core(s) && ThreadOk(s, t) && ThreadOk(s, u) && CanRenew(s, t, r)
    ensures ThreadOk(RenewNext(span, s, t, r), u)
  {
    var e := RenewExpiry(s, t, r);
    RenewPlaceIsPlain(span, s, t, r);
    RaiseKeepsCore(s, e);
    RaiseKeepsThread(s, e, t);
    RaiseKeepsThread(s, e, u);
    GotoPlain(s.(expiresAt := e), t, RenewPlace(span, s, t, r), u);
  }

  lemma MarkKeepsCore(s: State, t: Tid, m: MarkStep)
    requires Core(s) && ThreadOk(s, t) && CanMark(s, t, m)
    ensures Core(MarkNext(s, t, m))
  {
  }

  lemma CancelKeepsThread(s: State, t: Tid, u: Tid)
    requires ThreadOk(s, t) && ThreadOk(s, u) && CanMark(s, t, CancelLost)
    ensures ThreadOk(MarkNext(s, t, CancelLost), u)
  {
  }

  lemma LockKeepsThread(s: State, t: Tid, u: Tid)
    requires ThreadOk(s, t) && ThreadOk(s, u) && CanMark(s, t, LockMark)
    ensures ThreadOk(MarkNext(s, t, LockMark), u)
  {
  }

  lemma StopKeepsThread(s: State, t: Tid, u: Tid)
    requires ThreadOk(s, t) && ThreadOk(s, u) && CanMark(s, t, StopTimer)
    ensures ThreadOk(MarkNext(s, t, StopTimer), u)
  {
  }

  lemma MarkKeepsThread(s: State, t: Tid, m: MarkStep, u: Tid)
    requires Core(s) && ThreadOk(s, t) && ThreadOk(s, u) && CanMark(s, t, m)
    ensures ThreadOk(MarkNext(s, t, m), u)
  {
    match m
    case Notify => GotoPlain(s, t, Cancel(Finish(Lost)), u);
    case CancelLost => CancelKeepsThread(s, t, u);
    case LockMark => LockKeepsThread(s, t, u);
    case StopTimer => StopKeepsThread(s, t, u);
  }

  lemma ReleaseKeepsCore(s: State, t: Tid, x: ReleaseStep)
    requires Core(s) && ThreadOk(s, t) && CanRelease(s, t, x)
    ensures Core(ReleaseNext(s, t, x))
  {
  }

  lemma ReleaseKeepsThread(s: State, t: Tid, x: ReleaseStep, u: Tid)
    requires Core(s) && ThreadOk(s, t) && ThreadOk(s, u) && CanRelease(s, t, x)
    ensures ThreadOk(ReleaseNext(s, t, x), u)
  {
  }

  lemma StepKeepsCore(span: int, s: State, e: Event)
    requires Inv(s) && Enabled(s, e)
    ensures Core(Next(span, s, e))
  {
    match e
    case Tick(_) =>
    case Checks(c) => CheckKeepsCore(s, c);
    case Renews(t, r) => assert ThreadOk(s, t); RenewKeepsCore(span, s, t, r);
    case Marks(t, m) => assert ThreadOk(s, t); MarkKeepsCore(s, t, m);
    case Releases(t, x) => assert ThreadOk(s, t); ReleaseKeepsCore(s, t, x);
  }

  lemma StepKeepsThread(span: int, s: State, e: Event, u: Tid)
    requires Inv(s) && Enabled(s, e)
    ensures ThreadOk(Next(span, s, e), u)
  {
    assert ThreadOk(s, u);
    match e
    case Tick(_) =>
    case Checks(c) => CheckKeepsThread(s, c, u);
    case Renews(t, r) => assert ThreadOk(s, t); RenewKeepsThread(span, s, t, r, u);
    case Marks(t, m) => assert ThreadOk(s, t); MarkKeepsThread(s, t, m, u);
    case Releases(t, x) => assert ThreadOk(s, t); ReleaseKeepsThread(s, t, x, u);
  }

  lemma StepKeepsInv(span: int, s: State, e: Event)
    requires Inv(s) && Enabled(s, e)
    ensures Inv(Next(span, s, e))
  {
    StepKeepsCore(span, s, e);
    forall u ensures ThreadOk(Next(span, s, e), u) { StepKeepsThread(span, s, e, u); }
  }

  lemma {:induction false} RunKeepsInv(span: int, states: seq<State>, events: seq<Event>, i: nat)
    requires IsRun(span, states, events) && i < |states|
    ensures Inv(states[i])
  {
    if i == 0 {
      InitialInv(states[0]);
    } else {
      RunKeepsInv(span, states, events, i - 1);
      assert Enabled(states[i - 1], events[i - 1]);
      StepKeepsInv(span, states[i - 1], events[i - 1]);
    }
  }

  // ---------------------------------------------------------------- what every run keeps

  /** The order of two states of a run: nothing lost comes back. */
  ghost predicate Later(s: State, s': State) {
    && s.now <= s'.now
    && (s.lost ==> s'.lost) && (s.released ==> s'.released) && (s.marked ==> s'.marked)
    && (s.releaseDone ==> s'.releaseDone)
    && (s'.expiresAt.Some? ==> s.expiresAt.Some? && s.expiresAt.value <= s'.expiresAt.value)
    && (!Alive(s) ==> !Alive(s'))
  }

  lemma CheckIsLater(s: State, c: CheckStep)
    requires CanCheck(s, c)
    ensures Later(s, CheckNext(s, c))
  {
  }

  lemma RenewIsLater(span: int, s: State, t: Tid, r: RenewStep)
    requires CanRenew(s, t, r)
    ensures Later(s, RenewNext(span, s, t, r))
  {
  }

  lemma MarkIsLater(s: State, t: Tid, m: MarkStep)
    requires CanMark(s, t, m)
    ensures Later(s, MarkNext(s, t, m))
  {
  }

  lemma ReleaseIsLater(s: State, t: Tid, x: ReleaseStep)
    requires CanRelease(s, t, x)
    ensures Later(s, ReleaseNext(s, t, x))
  {
  }

  lemma StepIsLater(span: int, s: State, e: Event)
    requires Enabled(s, e)
    ensures Later(s, Next(span, s, e))
  {
    match e
    case Tick(_) =>
    case Checks(c) => CheckIsLater(s, c);
    case Renews(t, r) => RenewIsLater(span, s, t, r);
    case Marks(t, m) => MarkIsLater(s, t, m);
    case Releases(t, x) => ReleaseIsLater(s, t, x);
  }

  lemma {:induction false} RunIsLater(span: int, states: seq<State>, events: seq<Event>, i: nat, j: nat)
    requires IsRun(span, states, events) && i <= j < |states|
    ensures Later(states[i], states[j])
  {
    if i < j {
      RunIsLater(span, states, events, i, j - 1);
      assert Enabled(states[j - 1], events[j - 1]);
      StepIsLater(span, states[j - 1], events[j - 1]);
    }
  }

  /** Loss is terminal, the local expiry never moves back while the handle is held, and no expired lease revives. */
  lemma LossIsTerminal(span: int, states: seq<State>, events: seq<Event>, i: nat, j: nat)
    requires IsRun(span, states, events) && i <= j < |states|
    ensures states[i].lost ==> states[j].lost
    ensures !Alive(states[i]) ==> !Alive(states[j])
    ensures !states[j].lost ==> states[i].expiresAt.Some? && states[j].expiresAt.Some?
                                && states[i].expiresAt.value <= states[j].expiresAt.value
  {
    RunIsLater(span, states, events, i, j);
    RunKeepsInv(span, states, events, j);
  }

  /** In every reachable state a handle that is not lost has a deadline check running, or a timer armed for no later
      than its current expiry and the moment that passed between measuring and arming. */
  lemma AlwaysWatched(span: int, states: seq<State>, events: seq<Event>, i: nat)
    requires IsRun(span, states, events) && i < |states| && !states[i].lost
    ensures var s := states[i];
            && s.expiresAt.Some?
            && (s.check.Idle? ==> s.timer.Armed? && s.timer.at <= s.expiresAt.value + s.timer.slack)
            && (s.check.Idle? && s.now >= s.expiresAt.value + s.timer.slack ==> Enabled(s, Checks(Fire)))
  {
    RunKeepsInv(span, states, events, i);
  }

  /** A check that runs undisturbed revokes the handle exactly when its lease has expired, and otherwise rearms the
      timer for the current expiry. */
  lemma CheckDecides(s: State)
    requires s.check.Fired? && s.lock.Open? && s.timer.Off?
    ensures var s1 := CheckNext(s, LockCheck);
            var s2 := CheckNext(s1, TestLost);
            if s.lost then s2 == s.(check := Idle)
            else
              var s3 := CheckNext(CheckNext(s2, ReadExpiry), Measure);
              CheckNext(s3, Conclude) ==
              if Alive(s) then s.(check := Idle, timer := Armed(s.expiresAt.value, 0))
              else s.(check := Idle, lost := true)
  {
  }

  // ---------------------------------------------------------------- when timers are armed on time

  /** The timer of a handle that is not lost, if no check runs, fires by the current expiry. */
  ghost predicate OnTime(s: State) {
    !s.lost && s.check.Idle? ==> s.timer.Armed? && s.expiresAt.Some? && s.timer.at <= s.expiresAt.value
  }

  /** The time since the check measured what remains is made up for by what the expiry gained since it was read. */
  predicate MadeUp(s: State)
    requires s.check.Measured?
  {
    s.expiresAt.Some? && s.now - s.check.at <= s.expiresAt.value - (s.check.at + s.check.remaining)
  }

  lemma ArmsOnTimeExactlyWhen(s: State)
    requires Core(s) && s.check.Measured? && !s.lost && s.check.remaining > 0
    ensures OnTime(CheckNext(s, Conclude)) <==> MadeUp(s)
  {
  }

  ghost predicate Punctual(states: seq<State>, events: seq<Event>)
    requires |events| <= |states|
  {
    forall i {:trigger events[i]} :: 0 <= i < |events| ==> PunctualStep(states[i], events[i])
  }

  /** Every check that arms a timer is made up for. */
  ghost predicate PunctualStep(s: State, e: Event) {
    e == Checks(Conclude) && s.check.Measured? && s.check.remaining > 0 && !s.lost ==> MadeUp(s)
  }

  lemma StepOnTime(span: int, s: State, e: Event)
    requires Inv(s) && Enabled(s, e) && OnTime(s) && PunctualStep(s, e)
    ensures OnTime(Next(span, s, e))
  {
    match e
    case Tick(_) =>
    case Checks(c) => if c.Conclude? && !s.lost && s.check.remaining > 0 { ArmsOnTimeExactlyWhen(s); }
    case Renews(t, r) => RenewPlaceIsPlain(span, s, t, r);
    case Marks(t, _) => assert ThreadOk(s, t);
    case Releases(t, _) => assert ThreadOk(s, t);
  }

  lemma {:induction false} RunOnTime(span: int, states: seq<State>, events: seq<Event>, i: nat)
    requires IsRun(span, states, events) && i < |states| && Punctual(states, events)
    ensures OnTime(states[i])
  {
    if i > 0 {
      RunOnTime(span, states, events, i - 1);
      RunKeepsInv(span, states, events, i - 1);
      assert Enabled(states[i - 1], events[i - 1]) && PunctualStep(states[i - 1], events[i - 1]);
      StepOnTime(span, states[i - 1], events[i - 1]);
    }
  }

  /** Over every run: timers are on time in every state if and only if each check that arms one is made up for. */
  lemma OnTimeExactlyWhenPunctual(span: int, states: seq<State>, events: seq<Event>)
    requires IsRun(span, states, events)
    ensures (forall i :: 0 <= i < |states| ==> OnTime(states[i])) <==> Punctual(states, events)
  {
    if Punctual(states, events) {
      forall i | 0 <= i < |states| ensures OnTime(states[i]) { RunOnTime(span, states, events, i); }
    } else {
      var i :| 0 <= i < |events| && !PunctualStep(states[i], events[i]);
      RunKeepsInv(span, states, events, i);
      assert Enabled(states[i], events[i]);
      ArmsOnTimeExactlyWhen(states[i]);
      assert !OnTime(states[i + 1]);
    }
  }

  /** No time passes between measuring and arming. */
  ghost predicate Swift(states: seq<State>, events: seq<Event>)
    requires |events| <= |states|
  {
    forall i {:trigger events[i]} :: 0 <= i < |events| && events[i].Tick? && events[i].ms > 0 ==>
      !states[i].check.Measured?
  }

  lemma {:induction false} SwiftMeasuresNow(span: int, states: seq<State>, events: seq<Event>, i: nat)
    requires IsRun(span, states, events) && i < |states| && Swift(states, events)
    ensures states[i].check.Measured? ==> states[i].check.at == states[i].now
  {
    if i > 0 {
      SwiftMeasuresNow(span, states, events, i - 1);
      assert Enabled(states[i - 1], events[i - 1]);
    }
  }

  /** So with no time between measuring and arming, timers are always on time. */
  lemma SwiftIsOnTime(span: int, states: seq<State>, events: seq<Event>, i: nat)
    requires IsRun(span, states, events) && i < |states| && Swift(states, events)
    ensures OnTime(states[i])
  {
    forall k | 0 <= k < |events| ensures PunctualStep(states[k], events[k]) {
      SwiftMeasuresNow(span, states, events, k);
      RunKeepsInv(span, states, events, k);
    }
    RunOnTime(span, states, events, i);
  }

  /** The first check of a handle, delayed by a tick before it arms its timer. */
  const DELAYED := [Checks(LockCheck), Checks(TestLost), Checks(ReadExpiry), Checks(Measure), Tick(1), Checks(Conclude)]

  /** And with one tick in between they are not: the handle is not lost, and its timer fires after its expiry. */
  lemma DelayedArmIsLate(span: int, s: State) returns (states: seq<State>)
    requires Initial(s) && Alive(s)
    ensures IsRun(span, states, DELAYED) && states[0] == s
    ensures !states[6].lost && states[6].timer.Armed? && states[6].expiresAt.Some?
    ensures states[6].timer.at == states[6].expiresAt.value + 1
    ensures !OnTime(states[6])
  {
    var s1 := CheckNext(s, LockCheck);
    var s2 := CheckNext(s1, TestLost);
    var s3 := CheckNext(s2, ReadExpiry);
    var s4 := CheckNext(s3, Measure);
    var s5 := s4.(now := s4.now + 1);
    var s6 := CheckNext(s5, Conclude);
    states := [s, s1, s2, s3, s4, s5, s6];
  }

  // ---------------------------------------------------------------- the end of a handle

  /** Once any `markLost` has returned, no timer is pending then or at any later time, so no further check starts. */
  lemma QuietAfterLoss(span: int, states: seq<State>, events: seq<Event>, i: nat, j: nat)
    requires IsRun(span, states, events) && i <= j < |states| && states[i].marked
    ensures states[j].timer.Off? && !Enabled(states[j], Checks(Fire))
  {
    RunIsLater(span, states, events, i, j);
    RunKeepsInv(span, states, events, j);
  }

  /** Releases reach the server one at a time, only after local use ended, and never after one was confirmed. */
  lemma ReleaseIsOrderly(span: int, states: seq<State>, events: seq<Event>, i: nat, j: nat, t: Tid, u: Tid)
    requires IsRun(span, states, events) && i <= j < |states|
    requires At(states[j], t, Sending)
    ensures states[j].lost && states[j].timer.Off? && !states[i].releaseDone
    ensures At(states[j], u, Sending) ==> u == t
  {
    RunIsLater(span, states, events, i, j);
    RunKeepsInv(span, states, events, j);
    assert ThreadOk(states[j], t) && ThreadOk(states[j], u);
  }

  // ---------------------------------------------------------------- calls that nobody disturbs

  /** A renewal that is sent at once and answered `ms` later, up to its final test. */
  function RenewCall(span: int, s: State, t: Tid, ms: nat, o: Outcome): State
    requires t !in s.threads && !s.lost && !s.released && Alive(s)
  {
    var s1 := RenewNext(span, s, t, Renew);
    var s2 := RenewNext(span, s1, t, TestFlags);
    var s3 := RenewNext(span, s2, t, TestDeadline);
    var s4 := RenewNext(span, s3, t, Send);
    var s5 := s4.(now := s4.now + ms);
    var s6 := RenewNext(span, s5, t, Receive(o));
    RenewNext(span, s6, t, Settle)
  }

  /** A renewal succeeds if and only if its reply comes while the old deadline is ahead and says that the lease is
      there, or was renewed with the new deadline ahead too. A renewal then moves the expiry to the later deadline;
      finding the lease there does not move it. A round trip that fails in time changes nothing; all else ends in
      `markLost`. */
  lemma RenewDecides(span: int, s: State, t: Tid, ms: nat, o: Outcome)
    requires t !in s.threads && !s.lost && !s.released && Alive(s)
    ensures var s' := RenewCall(span, s, t, ms, o);
            var before, deadline, later := s.expiresAt.value, s.now + span, s.now + ms;
            && (before > later && (o.Present? || (o.Granted? && deadline > later)) ==>
                  && s'.threads[t] == Done(Ok)
                  && s'.expiresAt == Some(if o.Granted? && deadline > before then deadline else before))
            && (before > later && o.Failed? ==> s'.threads[t] == Done(Transient) && s'.expiresAt == s.expiresAt)
            && (before <= later || o.Refused? || (o.Granted? && deadline <= later) ==>
                  s'.threads[t] == Cancel(Finish(Lost)) && s'.expiresAt == s.expiresAt)
            && s' == s.(now := later, expiresAt := s'.expiresAt, threads := s.threads[t := s'.threads[t]])
  {
  }

  /** A renewal of a handle that is lost or released ends at once, and one of an expired lease in `markLost`. */
  lemma RenewRefused(span: int, s: State, t: Tid)
    requires t !in s.threads
    ensures var s2 := RenewNext(span, RenewNext(span, s, t, Renew), t, TestFlags);
            && (s.lost || s.released ==> s2.threads[t] == Done(Lost))
            && (!s.lost && !s.released ==>
                  && s2.threads[t] == Tested
                  && (!Alive(s) ==> RenewNext(span, s2, t, TestDeadline).threads[t] == Cancel(Finish(Lost))))
  {
  }

  /** `markLost` from its cancel to its return. */
  function MarkCall(s: State, t: Tid): State
    requires t in s.threads && s.threads[t].Cancel? && s.lock.Open?
  {
    MarkNext(MarkNext(MarkNext(s, t, CancelLost), t, LockMark), t, StopTimer)
  }

  /** `markLost` revokes the handle, stops its timer and returns to its caller. */
  lemma MarkDecides(s: State, t: Tid)
    requires t in s.threads && s.threads[t].Cancel? && s.lock.Open?
    ensures var s' := MarkCall(s, t);
            && s'.lost && s'.marked && s'.timer.Off? && s'.lock.Open?
            && s'.threads[t] == (if s.threads[t].next.Finish? then Done(s.threads[t].next.result) else Joining)
            && s' == s.(lost := true, marked := true, timer := Off, threads := s.threads[t := s'.threads[t]])
  {
  }

  /** A release from its beginning to its reply. */
  function ReleaseCall(s: State, t: Tid, o: Outcome, forget: bool): State
    requires t !in s.threads && s.releasing.None? && !s.releaseDone && s.lock.Open? && !o.Present?
  {
    var s1 := ReleaseNext(s, t, Release);
    var s2 := MarkCall(s1, t);
    var s3 := ReleaseNext(s2, t, Joined);
    ReleaseNext(s3, t, Released(o, forget))
  }

  /** A release ends local use whatever comes of it. It reports success if and only if the server released the lease,
      loss if it was gone, and is over in both cases; after a failed round trip it may be repeated. A further release of
      a handle that is done with succeeds at once and changes nothing. */
  lemma ReleaseDecides(s: State, t: Tid, o: Outcome, forget: bool, u: Tid)
    requires t !in s.threads && s.releasing.None? && !s.releaseDone && s.lock.Open? && !o.Present?
    requires u !in s.threads && u != t
    ensures var s' := ReleaseCall(s, t, o, forget);
            && s'.lost && s'.released && s'.timer.Off? && s'.releasing.None?
            && (o.Granted? ==> s'.threads[t] == Done(Ok) && s'.expiresAt.None?)
            && (o.Refused? ==> s'.threads[t] == Done(Lost))
            && (o.Failed? ==> s'.threads[t] == Done(Transient) && s'.expiresAt == s.expiresAt)
            && (s'.releaseDone <==> !o.Failed?)
            && CanRelease(s', u, Release)
            && (if o.Failed? then ReleaseNext(s', u, Release).threads[u] == Cancel(Join)
                else ReleaseNext(s', u, Release) == Goto(s', u, Done(Ok)))
  {
    MarkDecides(ReleaseNext(s, t, Release), t);
  }

  lemma RenewSucceeds(span: int, s: State, t: Tid, r: RenewStep, u: Tid)
    requires CanRenew(s, t, r) && ThreadOk(s, u) && At(RenewNext(span, s, t, r), u, Done(Ok))
    ensures At(s, u, Done(Ok)) ||
            (u == t && !s.lost && Alive(s) && s.threads[t].Replied? && s.threads[t].deadline <= s.expiresAt.value)
  {
  }

  lemma MarkNeverSucceeds(s: State, t: Tid, m: MarkStep, u: Tid)
    requires CanMark(s, t, m) && ThreadOk(s, u) && At(MarkNext(s, t, m), u, Done(Ok))
    ensures At(s, u, Done(Ok))
  {
  }

  /** A renewal reports success only for a handle that is neither lost nor expired, and whose expiry reaches at least
      as far as the deadline of the confirmed request. */
  lemma RenewalSpeaksTrue(span: int, states: seq<State>, events: seq<Event>, i: nat, t: Tid)
    requires IsRun(span, states, events) && i < |events| && !events[i].Releases?
    requires !At(states[i], t, Done(Ok)) && At(states[i + 1], t, Done(Ok))
    ensures !states[i].lost && Alive(states[i])
    ensures t in states[i].threads && states[i].threads[t].Replied?
    ensures states[i].threads[t].deadline <= states[i].expiresAt.value
  {
    var s, e := states[i], events[i];
    assert Enabled(s, e);
    RunKeepsInv(span, states, events, i);
    assert ThreadOk(s, t);
    if e.Renews? { RenewSucceeds(span, s, e.t, e.renew, t); }
    if e.Marks? { MarkNeverSucceeds(s, e.t, e.mark, t); }
  }
}
