/** What every step of the protocol keeps, for any number of threads and any schedule. */
module Invariants {
  import opened Basics
  import opened Protocol

  /** The state lock is held by exactly the thread whose phase says so. */
  ghost predicate LockInv<S, R>(w: World<S, R>) {
    && (w.owner.Some? ==> w.owner.value < |w.threads|)
    && forall t :: 0 <= t < |w.threads| ==> LockOk(w, t)
  }

  predicate LockOk<S, R>(w: World<S, R>, t: nat)
    requires t < |w.threads|
  {
    HoldsLock(w.threads[t].phase) <==> w.owner == Some(t)
  }

  predicate Ordered(queue: seq<nat>, next: nat) {
    && (forall i, j :: 0 <= i < j < |queue| ==> queue[i] < queue[j])
    && (forall x :: x in queue ==> x < next)
  }

  /** Identifiers are allocated once: everything in the system is older than `next`, and owners differ. */
  ghost predicate IdInv<S, R>(w: World<S, R>) {
    && Ordered(w.queue, w.next)
    && (forall x :: x in w.awake || x in w.waking ==> x < w.next)
    && (forall t :: 0 <= t < |w.threads| ==> IdOk(w, t))
    && (forall t, u :: 0 <= t < |w.threads| && 0 <= u < |w.threads| && t != u ==> Apart(w, t, u))
  }

  predicate IdOk<S, R>(w: World<S, R>, t: nat)
    requires t < |w.threads|
  {
    var th := w.threads[t];
    && (Entry(th.phase).Some? ==> Entry(th.phase).value < w.next)
    && (th.phase.Relocking? || th.phase.FinalPoll? ==> th.phase.id < w.next && th.phase.id !in w.queue)
    && (th.timer.Timer? && th.timer.waker.Some? ==> th.timer.waker.value < w.next)
  }

  predicate Apart<S, R>(w: World<S, R>, t: nat, u: nat)
    requires t < |w.threads| && u < |w.threads|
  {
    Entry(w.threads[t].phase).Some? ==> Entry(w.threads[t].phase) != Entry(w.threads[u].phase)
  }

  /** Every registry entry belongs to a thread that still holds its RAII registration. */
  ghost predicate OwnedInv<S, R>(w: World<S, R>) {
    forall x :: x in w.queue ==> HasOwner(w, x)
  }

  ghost predicate HasOwner<S, R>(w: World<S, R>, x: nat) {
    exists t :: 0 <= t < |w.threads| && Owns(w, t, x)
  }

  predicate Owns<S, R>(w: World<S, R>, t: nat, x: nat)
    requires t < |w.threads|
  {
    Entry(w.threads[t].phase) == Some(x)
  }

  /** A selection is made once: taken waiters are out of the registry, unsignalled, and in one list only. */
  ghost predicate SelectedInv<S, R>(w: World<S, R>) {
    && SignalledOut(w)
    && (forall t :: 0 <= t < |w.threads| ==> PoppedOk(w, t))
    && (forall t, u :: 0 <= t < |w.threads| && 0 <= u < |w.threads| && t != u ==> ListsApart(w, t, u))
  }

  ghost predicate SignalledOut<S, R>(w: World<S, R>) {
    forall x :: x in w.signalled ==> x !in w.queue && x < w.next
  }

  ghost predicate PoppedOk<S, R>(w: World<S, R>, t: nat)
    requires t < |w.threads|
  {
    && Ordered(Popped(w.threads[t].phase), w.next)
    && forall x :: Carries(w, t, x) ==> x !in w.queue && x !in w.signalled
  }

  ghost predicate ListsApart<S, R>(w: World<S, R>, t: nat, u: nat)
    requires t < |w.threads| && u < |w.threads|
  {
    forall x :: Carries(w, t, x) ==> !Carries(w, u, x)
  }

  /** No registration is forgotten: it is active, or taken by a notifier, or signalled. */
  ghost predicate AccountedInv<S, R>(w: World<S, R>) {
    forall t :: 0 <= t < |w.threads| && Entry(w.threads[t].phase).Some?
      ==> Accounted(w, Entry(w.threads[t].phase).value)
  }

  ghost predicate Accounted<S, R>(w: World<S, R>, x: nat) {
    x in w.queue || x in w.signalled || InFlight(w, x)
  }

  ghost predicate InFlight<S, R>(w: World<S, R>, x: nat) {
    exists t :: 0 <= t < |w.threads| && Carries(w, t, x)
  }

  predicate Carries<S, R>(w: World<S, R>, t: nat, x: nat)
    requires t < |w.threads|
  {
    x in Popped(w.threads[t].phase)
  }

  /** Between its blocking check and the release of the lock a thread's predicate still blocks. */
  predicate AboutToPark(p: Phase) {
    p.Arming? || p.PrePoll? || p.LoopPoll? || p.Registering? || p.WaiterPoll? || p.Releasing?
  }

  ghost predicate ThreadInv<S, R>(w: World<S, R>) {
    && (forall t :: 0 <= t < |w.threads| ==> ShapeOk(w.threads[t]))
    && (forall t :: 0 <= t < |w.threads| ==> TimerOk(w, w.threads[t]))
    && (forall t :: 0 <= t < |w.threads| ==> CheckOk(w, t))
    && !w.misused
  }

  predicate CheckOk<S, R>(w: World<S, R>, t: nat)
    requires t < |w.threads|
  {
    AboutToPark(w.threads[t].phase) && w.threads[t].calls != [] ==> w.threads[t].calls[0].waiting(w.data)
  }

  /** Which phases a call of each kind and timing can be in. */
  predicate ShapeOk<S, R>(th: Thread<S, R>) {
    var p := th.phase;
    !p.Idle? ==>
      && th.calls != []
      && !th.calls[0].timing.Total?
      && (p.Sampling? ==> th.calls[0].timing.Relative?)
      && (p.Checking? && p.first ==> !p.expired)
      && (p.Checking? && p.expired ==> Timed(th.calls[0]))
      && (p.Arming? || p.FinalPoll? ==> Timed(th.calls[0]))
      && (p.PrePoll? ==> th.calls[0].timing.Absolute?)
      && (p.LoopPoll? || p.WaiterPoll? || p.Abandoning? ==> Timed(th.calls[0]) && th.calls[0].kind.Blocking?)
      && (p.Polling? ==> th.calls[0].kind.Tokio?)
      && (EndStatus(p) != Signal ==> Timed(th.calls[0]) && th.calls[0].kind.Tokio?)
      && (p.Taking? ==> !p.note.Silent?)
      && (p.Signalling? ==> p.popped != [])
  }

  function EndStatus(p: Phase): Status {
    if p.Dropping? || p.Relocking? || p.FinalPoll? then p.status else Signal
  }

  /** The deadline a timed call is bound to. */
  predicate DeadlineOk<S, R>(th: Thread<S, R>, horizon: nat)
    requires th.calls != []
  {
    th.timer.Timer? &&
    match th.calls[0].timing
    case Relative(timeout) => timeout > 0 && th.timer.deadline == th.started + timeout <= horizon
    case Absolute(deadline) => th.timer.deadline == deadline
    case _ => false
  }

  /** Phases in which the call has no TimerFuture, whatever its timing. */
  predicate Timerless(p: Phase) {
    p.Idle? || p.Sampling? || p.Arming? || p.Leaving? || p.Taking? || p.Signalling? || (p.Checking? && p.first)
  }

  /** In which phases the TimerFuture exists, may be polled, or has completed; and whom it will wake. */
  predicate TimerOk<S, R>(w: World<S, R>, th: Thread<S, R>) {
    && th.started <= w.clock
    && if Timerless(th.phase) || th.calls == [] || !Timed(th.calls[0]) then th.timer == NoTimer
       else DeadlineOk(th, w.horizon) && ProgressOk(w, th.timer, th.phase, th.calls[0].kind)
  }

  predicate ProgressOk<S, R>(w: World<S, R>, timer: Timer, p: Phase, kind: Kind)
    requires timer.Timer?
  {
    && (timer.status == Fired(true) || timer.status == Spent(true) ==> w.clock >= timer.deadline)
    && (if p.Abandoning? then timer.status == Spent(p.ok)
        else if p.Checking? && p.expired then timer.status == Spent(true)
        else StatusOk(timer, EndStatus(p)))
    && (p.Parked? || (p.Releasing? && kind.Blocking?) ==> WillWake(w, timer, p.id))
  }

  predicate StatusOk(timer: Timer, status: Status)
    requires timer.Timer?
  {
    match status
    case Signal => !timer.status.Spent?
    case Expired => timer.status == Spent(true)
    case Broken => timer.status == Spent(false)
  }

  /** The Timer is going to wake, or has woken, exactly the waiter `id`. */
  predicate WillWake<S, R>(w: World<S, R>, timer: Timer, id: nat)
    requires timer.Timer?
  {
    (timer.status.Armed? && timer.waker == Some(id)) || (timer.status.Fired? && (id in w.waking || id in w.awake))
  }

  ghost predicate Inv<S, R>(w: World<S, R>) {
    LockInv(w) && IdInv(w) && OwnedInv(w) && SelectedInv(w) && AccountedInv(w) && ThreadInv(w)
  }

  // ---- The effect of one step on what threads share ----------------------------------------------------

  /** One thread moves; lock, registry and latches change only in the ways its change of phase allows. */
  ghost predicate Moved<S, R>(w: World<S, R>, v: World<S, R>, t: nat) {
    && t < |w.threads| == |v.threads|
    && (forall u :: 0 <= u < |w.threads| && u != t ==> v.threads[u] == w.threads[u])
    && LockMove(w, v, t)
    && QueueMove(w, v, t)
    && SignalMove(w, v, t)
    && TimeMove(w, v, t)
  }

  ghost predicate LockMove<S, R>(w: World<S, R>, v: World<S, R>, t: nat)
    requires t < |w.threads| == |v.threads|
  {
    var p, q := w.threads[t].phase, v.threads[t].phase;
    && v.owner == (if HoldsLock(q) then Some(t) else if HoldsLock(p) then None else w.owner)
    && (HoldsLock(q) && !HoldsLock(p) ==> w.owner == None)
    && (!HoldsLock(p) ==> v.data == w.data)
  }

  ghost predicate Enrols(p: Phase, q: Phase) {
    p.Registering? && Entry(q).Some?
  }

  ghost predicate QueueMove<S, R>(w: World<S, R>, v: World<S, R>, t: nat)
    requires t < |w.threads| == |v.threads|
  {
    var p, q := w.threads[t].phase, v.threads[t].phase;
    if Enrols(p, q) then
      Entry(q) == Some(w.next) && v.next == w.next + 1 && v.queue == w.queue + [w.next]
    else
      && v.next == w.next
      && (Entry(q).Some? ==> Entry(q) == Entry(p))
      && (q.Relocking? || q.FinalPoll? ==>
            Entry(p) == Some(q.id) || (p.Relocking? && p.id == q.id))
      && v.queue ==
         if Entry(p).Some? && Entry(q).None? then Without(w.queue, Entry(p).value)
         else if p.Taking? then w.queue[|Chosen(w.queue, p.note)|..]
         else w.queue
  }

  ghost predicate SignalMove<S, R>(w: World<S, R>, v: World<S, R>, t: nat)
    requires t < |w.threads| == |v.threads|
  {
    var p, q := w.threads[t].phase, v.threads[t].phase;
    && Popped(q) == (if p.Taking? then Chosen(w.queue, p.note)
                     else if Popped(p) == [] then [] else Popped(p)[1..])
    && v.signalled == w.signalled + if Popped(p) == [] then {} else {Popped(p)[0]}
  }

  /** The program points at which a thread polls its TimerFuture. */
  predicate Polls<S, R>(th: Thread<S, R>) {
    var p := th.phase;
    && th.calls != [] && Timed(th.calls[0])
    && (p.PrePoll? || p.LoopPoll? || p.WaiterPoll? || p.Polling? || (p.FinalPoll? && p.status.Signal?))
  }

  ghost predicate TimeMove<S, R>(w: World<S, R>, v: World<S, R>, t: nat)
    requires t < |w.threads| == |v.threads|
  {
    var before, after := w.threads[t].timer, v.threads[t].timer;
    && v.clock == w.clock && v.horizon == w.horizon && v.awake == w.awake
    && v.waking == w.waking
    && (before.Timer? && after.Timer? ==> after.deadline == before.deadline)
    && v.threads[t].started == (if w.threads[t].phase.Sampling? then w.clock else w.threads[t].started)
    && (|| after == before || after == NoTimer || (after.status.Armed? && (before.Timer? ==> before.status.Armed?))
        || (before.Timer? && before.status.Fired? && Polls(w.threads[t])
            && after == before.(status := Spent(before.status.ok))))
    && (after.Timer? && after.waker.Some? ==>
          (before.Timer? && after.waker == before.waker)
          || after.waker == Entry(w.threads[t].phase)
          || (w.threads[t].phase.FinalPoll? && after.waker == Some(w.threads[t].phase.id)))
  }

  ghost predicate SameCode<S, R>(a: Call<S, R>, b: Call<S, R>) {
    a == b.(timing := a.timing)
  }

  /** The call `b` after a step is the call `a` before it, whose total budget may have become a deadline. */
  ghost predicate Continues<S, R>(b: Call<S, R>, a: Call<S, R>, clock: nat, horizon: nat) {
    || b == a
    || (a.timing.Total? && clock + a.timing.budget <= horizon
        && b == a.(timing := Absolute(clock + a.timing.budget)))
  }

  /**
    A step returns from at most the first call, and never changes what a call does. A total budget becomes a deadline
    at the instant of the step, before the lock is taken; a relative one starts only after it.
   */
  ghost predicate CallsMove<S, R>(a: Thread<S, R>, b: Thread<S, R>, clock: nat, horizon: nat) {
    || (b.calls == a.calls && !b.phase.Idle?
        && (a.phase.Idle? && a.calls != [] && a.calls[0].timing.Relative? ==> b.phase.Sampling?))
    || (a.calls != [] && b.calls == a.calls[1..] && b.phase.Idle?)
    || (a.calls != [] && a.phase.Idle? && b.phase.Idle? && a.calls[0].timing.Total?
        && clock + a.calls[0].timing.budget <= horizon
        && b.calls == [a.calls[0].(timing := Absolute(clock + a.calls[0].timing.budget))] + a.calls[1..])
  }

  predicate Acts<S, R>(w: World<S, R>, t: nat)
    requires t < |w.threads|
  {
    w.threads[t].phase.Checking? && w.threads[t].calls != [] && !w.threads[t].calls[0].waiting(w.data)
  }

  /** The protected data changes by running the action of a call whose predicate does not block, and only so. */
  ghost predicate DataMove<S, R>(w: World<S, R>, v: World<S, R>, t: nat)
    requires t < |w.threads| == |v.threads|
  {
    if Acts(w, t) then
      var (after, result) := w.threads[t].calls[0].action(w.data);
      v.data == after && v.log == w.log + [result] && v.threads[t].phase == Leaving(w.threads[t].calls[0].note(result))
    else v.data == w.data && v.log == w.log
  }

  /** The control flow of a call: which program point may follow which. */
  predicate Follows(p: Phase, q: Phase) {
    match p
    case Idle => q.Idle? || q.Sampling? || q == Checking(true, false)
    case Sampling => q == Checking(true, false)
    case Checking(first, _) => q.Leaving? || q.Registering? || (q.Arming? && first) || q.LoopPoll?
    case Arming => q == Leaving(Silent) || q.PrePoll? || q.LoopPoll? || q.Registering?
    case PrePoll => q == Leaving(Silent) || q.LoopPoll? || q.Registering?
    case LoopPoll => q == Leaving(Silent) || q == Checking(false, true) || q.Registering?
    case Registering => q == Leaving(Silent) || q.WaiterPoll? || q.Releasing?
    case WaiterPoll(id) => q.Abandoning? || q == Releasing(id)
    case Abandoning(_, ok) => q == if ok then Checking(false, true) else Leaving(Silent)
    case Releasing(id) => q == Parked(id) || q == Polling(id)
    case Polling(id) => q == Parked(id) || (q.Dropping? && q.id == id)
    case Parked(id) => q == Polling(id) || q == Dropping(id, Signal) || q.Idle?
    case Dropping(id, status) => q == Relocking(id, status)
    case Relocking(id, status) => q == FinalPoll(id, status) || q == Checking(false, false) || q.Idle?
    case FinalPoll(_, _) => q == Leaving(Silent) || (q.Checking? && !q.first)
    case Leaving(note) => q == if note.Silent? then Idle else Taking(note)
    case Taking(_) => q.Idle? || q.Signalling?
    case Signalling(_) => q.Idle? || q.Signalling?
  }

  /** What a step of thread `t` must establish. */
  ghost predicate Good<S, R>(w: World<S, R>, v: World<S, R>, t: nat) {
    && Moved(w, v, t) && Follows(w.threads[t].phase, v.threads[t].phase)
    && DataMove(w, v, t) && CallsMove(w.threads[t], v.threads[t], w.clock, w.horizon)
    && ShapeOk(v.threads[t]) && TimerOk(v, v.threads[t]) && CheckOk(v, t) && !v.misused
  }

  /** What the invariant says about thread `t` before its step. */
  ghost predicate Prepared<S, R>(w: World<S, R>, t: nat) {
    && t < |w.threads| && !w.misused
    && ShapeOk(w.threads[t]) && TimerOk(w, w.threads[t]) && CheckOk(w, t) && LockOk(w, t)
  }

  lemma GoodIdle<S, R>(w: World<S, R>, t: nat)
    requires Prepared(w, t) && w.threads[t].phase.Idle? && RunIdle(w, t).Some?
    ensures Good(w, RunIdle(w, t).value, t)
  {
  }

  lemma GoodSampling<S, R>(w: World<S, R>, t: nat, accepted: bool)
    requires Prepared(w, t) && w.threads[t].phase.Sampling? && RunStep(w, t, accepted).Some?
    ensures Good(w, RunStep(w, t, accepted).value, t)
  {
  }

  lemma CheckingMoves<S, R>(w: World<S, R>, t: nat)
    requires Prepared(w, t) && w.threads[t].phase.Checking?
    ensures Moved(w, RunChecking(w, t), t)
  {
  }

  lemma GoodChecking<S, R>(w: World<S, R>, t: nat)
    requires Prepared(w, t) && w.threads[t].phase.Checking?
    ensures Good(w, RunChecking(w, t), t)
  {
    CheckingMoves(w, t);
  }

  lemma ArmingMoves<S, R>(w: World<S, R>, t: nat, accepted: bool)
    requires Prepared(w, t) && w.threads[t].phase.Arming?
    ensures Moved(w, RunArming(w, t, accepted), t)
  {
  }

  lemma GoodArming<S, R>(w: World<S, R>, t: nat, accepted: bool)
    requires Prepared(w, t) && w.threads[t].phase.Arming?
    ensures Good(w, RunArming(w, t, accepted), t)
  {
    ArmingMoves(w, t, accepted);
  }

  lemma PrePollMoves<S, R>(w: World<S, R>, t: nat)
    requires Prepared(w, t) && w.threads[t].phase.PrePoll?
    ensures Moved(w, RunPrePoll(w, t), t)
  {
  }

  lemma GoodPrePoll<S, R>(w: World<S, R>, t: nat)
    requires Prepared(w, t) && w.threads[t].phase.PrePoll?
    ensures Good(w, RunPrePoll(w, t), t)
  {
    PrePollMoves(w, t);
  }

  lemma LoopPollMoves<S, R>(w: World<S, R>, t: nat)
    requires Prepared(w, t) && w.threads[t].phase.LoopPoll?
    ensures Moved(w, PollInLoop(w, t, None, Registering), t)
  {
  }

  lemma GoodLoopPoll<S, R>(w: World<S, R>, t: nat)
    requires Prepared(w, t) && w.threads[t].phase.LoopPoll?
    ensures Good(w, PollInLoop(w, t, None, Registering), t)
  {
    LoopPollMoves(w, t);
  }

  lemma GoodRegistering<S, R>(w: World<S, R>, t: nat)
    requires Prepared(w, t) && w.threads[t].phase.Registering?
    ensures Good(w, RunRegistering(w, t), t)
  {
  }

  lemma WaiterPollMoves<S, R>(w: World<S, R>, t: nat)
    requires Prepared(w, t) && w.threads[t].phase.WaiterPoll?
    ensures Moved(w, RunWaiterPoll(w, t, w.threads[t].phase.id), t)
  {
  }

  lemma GoodWaiterPoll<S, R>(w: World<S, R>, t: nat)
    requires Prepared(w, t) && w.threads[t].phase.WaiterPoll?
    ensures Good(w, RunWaiterPoll(w, t, w.threads[t].phase.id), t)
  {
    WaiterPollMoves(w, t);
  }

  lemma GoodAbandoning<S, R>(w: World<S, R>, t: nat)
    requires Prepared(w, t) && w.threads[t].phase.Abandoning?
    ensures Good(w, RunAbandoning(w, t, w.threads[t].phase.id, w.threads[t].phase.ok), t)
  {
  }

  lemma GoodReleasing<S, R>(w: World<S, R>, t: nat)
    requires Prepared(w, t) && w.threads[t].phase.Releasing?
    ensures Good(w, RunReleasing(w, t, w.threads[t].phase.id), t)
  {
  }

  lemma PollingMoves<S, R>(w: World<S, R>, t: nat)
    requires Prepared(w, t) && w.threads[t].phase.Polling?
    ensures Moved(w, RunPolling(w, t, w.threads[t].phase.id), t)
  {
  }

  lemma GoodPolling<S, R>(w: World<S, R>, t: nat)
    requires Prepared(w, t) && w.threads[t].phase.Polling?
    ensures Good(w, RunPolling(w, t, w.threads[t].phase.id), t)
  {
    PollingMoves(w, t);
  }

  lemma GoodParked<S, R>(w: World<S, R>, t: nat)
    requires Prepared(w, t) && w.threads[t].phase.Parked? && RunParked(w, t, w.threads[t].phase.id).Some?
    ensures Good(w, RunParked(w, t, w.threads[t].phase.id).value, t)
  {
  }

  lemma GoodDropping<S, R>(w: World<S, R>, t: nat, accepted: bool)
    requires Prepared(w, t) && w.threads[t].phase.Dropping? && RunStep(w, t, accepted).Some?
    ensures Good(w, RunStep(w, t, accepted).value, t)
  {
  }

  lemma GoodRelocking<S, R>(w: World<S, R>, t: nat)
    requires Prepared(w, t) && w.threads[t].phase.Relocking?
    requires RunRelocking(w, t, w.threads[t].phase.id, w.threads[t].phase.status).Some?
    ensures Good(w, RunRelocking(w, t, w.threads[t].phase.id, w.threads[t].phase.status).value, t)
  {
  }

  lemma SignalledPollMoves<S, R>(w: World<S, R>, t: nat)
    requires Prepared(w, t) && w.threads[t].phase.FinalPoll? && w.threads[t].phase.status.Signal?
    ensures Moved(w, PollInLoop(w, t, Some(w.threads[t].phase.id), Checking(false, false)), t)
  {
  }

  lemma GoodSignalledPoll<S, R>(w: World<S, R>, t: nat)
    requires Prepared(w, t) && w.threads[t].phase.FinalPoll? && w.threads[t].phase.status.Signal?
    ensures Good(w, PollInLoop(w, t, Some(w.threads[t].phase.id), Checking(false, false)), t)
  {
    SignalledPollMoves(w, t);
  }

  lemma GoodFinalPoll<S, R>(w: World<S, R>, t: nat)
    requires Prepared(w, t) && w.threads[t].phase.FinalPoll?
    ensures Good(w, RunFinalPoll(w, t, w.threads[t].phase.id, w.threads[t].phase.status), t)
  {
    if w.threads[t].phase.status.Signal? {
      GoodSignalledPoll(w, t);
    }
  }

  lemma GoodLeaving<S, R>(w: World<S, R>, t: nat)
    requires Prepared(w, t) && w.threads[t].phase.Leaving?
    ensures Good(w, RunLeaving(w, t, w.threads[t].phase.note), t)
  {
  }

  lemma GoodTaking<S, R>(w: World<S, R>, t: nat)
    requires Prepared(w, t) && w.threads[t].phase.Taking?
    ensures Good(w, RunTaking(w, t, w.threads[t].phase.note), t)
  {
  }

  lemma GoodSignalling<S, R>(w: World<S, R>, t: nat)
    requires Prepared(w, t) && w.threads[t].phase.Signalling?
    ensures Good(w, RunSignalling(w, t, w.threads[t].phase.popped), t)
  {
  }

  lemma RunIsGood<S, R>(w: World<S, R>, t: nat, accepted: bool)
    requires Prepared(w, t) && RunStep(w, t, accepted).Some?
    ensures Good(w, RunStep(w, t, accepted).value, t)
  {
    match w.threads[t].phase
    case Idle => GoodIdle(w, t);
    case Sampling => GoodSampling(w, t, accepted);
    case Checking(_, _) => GoodChecking(w, t);
    case Arming => GoodArming(w, t, accepted);
    case PrePoll => GoodPrePoll(w, t);
    case LoopPoll => GoodLoopPoll(w, t);
    case Registering => GoodRegistering(w, t);
    case WaiterPoll(_) => GoodWaiterPoll(w, t);
    case Abandoning(_, _) => GoodAbandoning(w, t);
    case Releasing(_) => GoodReleasing(w, t);
    case Polling(_) => GoodPolling(w, t);
    case Parked(_) => GoodParked(w, t);
    case Dropping(_, _) => GoodDropping(w, t, accepted);
    case Relocking(_, _) => GoodRelocking(w, t);
    case FinalPoll(_, _) => GoodFinalPoll(w, t);
    case Leaving(_) => GoodLeaving(w, t);
    case Taking(_) => GoodTaking(w, t);
    case Signalling(_) => GoodSignalling(w, t);
  }

  lemma RepollIsGood<S, R>(w: World<S, R>, t: nat)
    requires Prepared(w, t) && RepollStep(w, t).Some?
    ensures Good(w, RepollStep(w, t).value, t)
  {
  }

  lemma CancelIsGood<S, R>(w: World<S, R>, t: nat)
    requires Prepared(w, t) && CancelStep(w, t).Some?
    ensures Good(w, CancelStep(w, t).value, t)
  {
  }

  // ---- A good step keeps every part of the invariant --------------------------------------------------

  lemma {:induction false} WithoutOrdered(queue: seq<nat>, id: nat, next: nat)
    requires Ordered(queue, next)
    ensures Ordered(Without(queue, id), next)
  {
    if queue != [] {
      var rest := queue[1..];
      assert forall x :: x in rest ==> x in queue;
      WithoutOrdered(rest, id, next);
      var tail := Without(rest, id);
      forall j | 0 <= j < |tail|
        ensures queue[0] < tail[j]
      {
        assert tail[j] in rest;
      }
    }
  }

  /** Cutting an ordered queue gives two ordered, disjoint ones. */
  lemma CutOrdered(queue: seq<nat>, k: nat, next: nat)
    requires Ordered(queue, next) && k <= |queue|
    ensures forall x :: x in queue <==> x in queue[..k] || x in queue[k..]
    ensures Ordered(queue[..k], next) && Ordered(queue[k..], next)
    ensures forall x :: x in queue[..k] ==> x !in queue[k..]
  {
    assert queue == queue[..k] + queue[k..];
    assert forall x :: x in queue <==> x in queue[..k] || x in queue[k..];
  }

  lemma ChosenIsPrefix(queue: seq<nat>, note: Note)
    ensures |Chosen(queue, note)| <= |queue| && Chosen(queue, note) == queue[..|Chosen(queue, note)|]
  {
  }

  /** The registry after a step holds nothing new but a fresh registration. */
  lemma QueueAfter<S, R>(w: World<S, R>, v: World<S, R>, t: nat)
    requires IdInv(w) && Moved(w, v, t)
    ensures Ordered(v.queue, v.next) && w.next <= v.next
    ensures forall x :: x in v.queue ==> x in w.queue || (x == w.next && Owns(v, t, x))
    ensures forall x :: x in w.queue && x !in v.queue ==>
      (Owns(w, t, x) && !Owns(v, t, x)) || Carries(v, t, x)
    ensures Entry(w.threads[t].phase).Some? && Entry(v.threads[t].phase).None?
      ==> Entry(w.threads[t].phase).value !in v.queue
  {
    var p, q := w.threads[t].phase, v.threads[t].phase;
    if Enrols(p, q) {
      assert forall i :: 0 <= i < |w.queue| ==> w.queue[i] in w.queue;
    } else if Entry(p).Some? && Entry(q).None? {
      WithoutOrdered(w.queue, Entry(p).value, w.next);
    } else if p.Taking? {
      ChosenIsPrefix(w.queue, p.note);
      CutOrdered(w.queue, |Chosen(w.queue, p.note)|, w.next);
    }
  }

  /** What a notifier holds comes out of the registry in order and leaves by being signalled. */
  lemma PoppedAfter<S, R>(w: World<S, R>, v: World<S, R>, t: nat)
    requires IdInv(w) && SelectedInv(w) && Moved(w, v, t)
    ensures SignalledOut(v) && PoppedOk(v, t)
    ensures forall x :: x in v.signalled ==> x in w.signalled || Carries(w, t, x)
    ensures forall x :: Carries(v, t, x) ==> x in w.queue || Carries(w, t, x)
    ensures forall x :: Carries(w, t, x) ==> x in v.signalled || Carries(v, t, x)
  {
    QueueAfter(w, v, t);
    assert PoppedOk(w, t);
    var p := w.threads[t].phase;
    if p.Taking? {
      ChosenIsPrefix(w.queue, p.note);
      CutOrdered(w.queue, |Chosen(w.queue, p.note)|, w.next);
    } else if Popped(p) != [] {
      CutOrdered(p.popped, 1, w.next);
      assert p.popped[..1] == [p.popped[0]];
      assert Carries(w, t, p.popped[0]);
    }
  }

  lemma GoodKeepsLock<S, R>(w: World<S, R>, v: World<S, R>, t: nat)
    requires LockInv(w) && Moved(w, v, t)
    ensures LockInv(v)
  {
    forall u | 0 <= u < |v.threads|
      ensures LockOk(v, u)
    {
      assert LockOk(w, u) && LockOk(w, t);
    }
  }

  lemma GoodKeepsIds<S, R>(w: World<S, R>, v: World<S, R>, t: nat)
    requires IdInv(w) && SelectedInv(w) && Moved(w, v, t)
    ensures IdInv(v)
  {
    QueueAfter(w, v, t);
    forall u | 0 <= u < |v.threads|
      ensures IdOk(v, u)
    {
      assert IdOk(w, u) && IdOk(w, t);
    }
    forall u, k | 0 <= u < |v.threads| && 0 <= k < |v.threads| && u != k
      ensures Apart(v, u, k)
    {
      assert Apart(w, u, k) && IdOk(w, u) && IdOk(w, k);
    }
  }

  lemma GoodKeepsOwned<S, R>(w: World<S, R>, v: World<S, R>, t: nat)
    requires IdInv(w) && OwnedInv(w) && SelectedInv(w) && Moved(w, v, t)
    ensures OwnedInv(v)
  {
    QueueAfter(w, v, t);
    forall x | x in v.queue
      ensures HasOwner(v, x)
    {
      if x in w.queue {
        assert HasOwner(w, x);
        var u :| 0 <= u < |w.threads| && Owns(w, u, x);
        assert Owns(v, u, x);
      }
    }
  }

  lemma GoodKeepsSelected<S, R>(w: World<S, R>, v: World<S, R>, t: nat)
    requires IdInv(w) && SelectedInv(w) && Moved(w, v, t)
    ensures SelectedInv(v)
  {
    QueueAfter(w, v, t);
    PoppedAfter(w, v, t);
    forall u | 0 <= u < |v.threads|
      ensures PoppedOk(v, u)
    {
      assert PoppedOk(w, u) && (u != t ==> ListsApart(w, u, t));
    }
    forall u, k | 0 <= u < |v.threads| && 0 <= k < |v.threads| && u != k
      ensures ListsApart(v, u, k)
    {
      assert ListsApart(w, u, k) && PoppedOk(w, u) && PoppedOk(w, k);
      forall x | Carries(v, u, x)
        ensures !Carries(v, k, x)
      {
        assert u != t ==> Carries(w, u, x);
      }
    }
  }

  lemma GoodKeepsAccounted<S, R>(w: World<S, R>, v: World<S, R>, t: nat)
    requires IdInv(w) && AccountedInv(w) && SelectedInv(w) && Moved(w, v, t)
    ensures AccountedInv(v)
  {
    QueueAfter(w, v, t);
    PoppedAfter(w, v, t);
    forall u | 0 <= u < |v.threads| && Entry(v.threads[u].phase).Some?
      ensures Accounted(v, Entry(v.threads[u].phase).value)
    {
      var x := Entry(v.threads[u].phase).value;
      if !Enrols(w.threads[t].phase, v.threads[t].phase) || u != t {
        assert Owns(w, u, x) && Accounted(w, x);
        if u != t { assert Apart(w, u, t); }
        if InFlight(w, x) {
          var k :| 0 <= k < |w.threads| && Carries(w, k, x);
          assert k != t ==> Carries(v, k, x);
        }
      }
    }
  }

  lemma GoodKeepsThreads<S, R>(w: World<S, R>, v: World<S, R>, t: nat)
    requires LockInv(w) && ThreadInv(w) && Good(w, v, t)
    ensures ThreadInv(v)
  {
    forall u | 0 <= u < |v.threads| && u != t
      ensures ShapeOk(v.threads[u]) && TimerOk(v, v.threads[u]) && CheckOk(v, u)
    {
      assert ShapeOk(w.threads[u]) && TimerOk(w, w.threads[u]) && CheckOk(w, u);
      assert LockOk(w, u) && LockOk(w, t);
    }
  }

  lemma GoodKeepsInv<S, R>(w: World<S, R>, v: World<S, R>, t: nat)
    requires Inv(w) && Good(w, v, t)
    ensures Inv(v)
  {
    GoodKeepsLock(w, v, t);
    GoodKeepsIds(w, v, t);
    GoodKeepsOwned(w, v, t);
    GoodKeepsSelected(w, v, t);
    GoodKeepsAccounted(w, v, t);
    GoodKeepsThreads(w, v, t);
  }

  // ---- Timer and clock --------------------------------------------------------------------------------

  /** The Timer touches TimerFutures, wakes and the clock; phases, lock, registry and data stay. */
  ghost predicate Ambient<S, R>(w: World<S, R>, v: World<S, R>) {
    && |v.threads| == |w.threads|
    && v.owner == w.owner && v.data == w.data && v.next == w.next && v.queue == w.queue
    && v.signalled == w.signalled && v.misused == w.misused && v.clock >= w.clock
    && v.horizon == w.horizon && v.log == w.log
    && (forall t :: 0 <= t < |w.threads| ==> AmbientThread(w, v, t))
    && (forall x :: x in w.waking || x in w.awake ==> x in v.waking || x in v.awake)
    && (forall x :: x in w.awake ==> x in v.awake)
    && (forall x :: x in v.waking || x in v.awake ==> x < w.next)
  }

  ghost predicate AmbientThread<S, R>(w: World<S, R>, v: World<S, R>, t: nat)
    requires t < |w.threads| == |v.threads|
  {
    var a, b := w.threads[t], v.threads[t];
    && b == a.(timer := b.timer)
    && (b.timer == a.timer
        || (a.timer.Timer? && a.timer.status.Armed? && b.timer.Timer? && b.timer.status.Fired?
            && b.timer == a.timer.(status := b.timer.status, waker := None)
            && (b.timer.status.ok ==> v.clock >= a.timer.deadline)
            && (a.timer.waker.Some? ==> a.timer.waker.value in v.waking)))
  }

  lemma TimerIsAmbient<S, R>(w: World<S, R>, e: Event)
    requires Inv(w) && (e.Fire? || e.Wake? || e.Tick?) && Step(w, e).Some?
    ensures Ambient(w, Step(w, e).value)
  {
    var v := Step(w, e).value;
    if e.Fire? { assert IdOk(w, e.timer); }
    forall t | 0 <= t < |w.threads|
      ensures AmbientThread(w, v, t)
    {
    }
  }

  lemma AmbientKeepsInv<S, R>(w: World<S, R>, v: World<S, R>)
    requires Inv(w) && Ambient(w, v)
    ensures Inv(v)
  {
    AmbientKeepsThreads(w, v);
    assert forall t :: 0 <= t < |w.threads| ==> AmbientThread(w, v, t);
    forall t | 0 <= t < |v.threads|
      ensures LockOk(v, t) && IdOk(v, t) && PoppedOk(v, t)
    {
      assert AmbientThread(w, v, t) && LockOk(w, t) && IdOk(w, t) && PoppedOk(w, t);
    }
    forall t, u | 0 <= t < |v.threads| && 0 <= u < |v.threads| && t != u
      ensures Apart(v, t, u) && ListsApart(v, t, u)
    {
      assert AmbientThread(w, v, t) && AmbientThread(w, v, u);
      assert Apart(w, t, u) && ListsApart(w, t, u);
      assert forall x :: Carries(v, t, x) == Carries(w, t, x) && Carries(v, u, x) == Carries(w, u, x);
    }
    forall x | x in v.queue
      ensures HasOwner(v, x)
    {
      assert HasOwner(w, x);
      var t :| 0 <= t < |w.threads| && Owns(w, t, x);
      assert AmbientThread(w, v, t) && Owns(v, t, x);
    }
    forall t | 0 <= t < |v.threads| && Entry(v.threads[t].phase).Some?
      ensures Accounted(v, Entry(v.threads[t].phase).value)
    {
      var x := Entry(v.threads[t].phase).value;
      assert AmbientThread(w, v, t) && Accounted(w, x);
      if InFlight(w, x) {
        var u :| 0 <= u < |w.threads| && Carries(w, u, x);
        assert AmbientThread(w, v, u) && Carries(v, u, x);
      }
    }
  }

  lemma AmbientKeepsThreads<S, R>(w: World<S, R>, v: World<S, R>)
    requires Inv(w) && Ambient(w, v)
    ensures ThreadInv(v)
  {
    forall t | 0 <= t < |v.threads|
      ensures ShapeOk(v.threads[t]) && TimerOk(v, v.threads[t]) && CheckOk(v, t)
    {
      assert AmbientThread(w, v, t) && ShapeOk(w.threads[t]) && TimerOk(w, w.threads[t]) && CheckOk(w, t);
    }
  }

  // ---- Every reachable state --------------------------------------------------------------------------

  lemma PreparedThread<S, R>(w: World<S, R>, t: nat)
    requires Inv(w) && t < |w.threads|
    ensures Prepared(w, t)
  {
  }

  /** Every step is a good step of one thread, or leaves every thread where it is. */
  lemma StepIsGood<S, R>(w: World<S, R>, e: Event)
    requires Inv(w) && Step(w, e).Some?
    ensures Mover(e).Some? ==> Good(w, Step(w, e).value, Mover(e).value)
    ensures Mover(e).None? ==> Ambient(w, Step(w, e).value)
  {
    match e
    case Run(t, accepted) => PreparedThread(w, t); RunIsGood(w, t, accepted);
    case Cancel(t) => PreparedThread(w, t); CancelIsGood(w, t);
    case Repoll(t) => PreparedThread(w, t); RepollIsGood(w, t);
    case _ => TimerIsAmbient(w, e);
  }

  lemma StepKeepsInv<S, R>(w: World<S, R>, e: Event)
    requires Inv(w) && Step(w, e).Some?
    ensures Inv(Step(w, e).value)
  {
    var v := Step(w, e).value;
    StepIsGood(w, e);
    if Mover(e).Some? { GoodKeepsInv(w, v, Mover(e).value); } else { AmbientKeepsInv(w, v); }
  }

  lemma InitialInv<S, R>(w: World<S, R>)
    requires Initial(w)
    ensures Inv(w)
  {
    forall t | 0 <= t < |w.threads|
      ensures ShapeOk(w.threads[t]) && TimerOk(w, w.threads[t]) && CheckOk(w, t)
      ensures LockOk(w, t) && IdOk(w, t) && PoppedOk(w, t) && Entry(w.threads[t].phase) == None
    {
      assert Fresh(w.threads[t]);
    }
    forall t, u | 0 <= t < |w.threads| && 0 <= u < |w.threads| && t != u
      ensures Apart(w, t, u) && ListsApart(w, t, u)
    {
      assert Fresh(w.threads[t]);
    }
  }

  /** The invariant holds after every schedule, for any threads, calls, predicates and actions. */
  lemma {:induction false} ReachableInv<S, R>(w: World<S, R>, schedule: seq<Event>)
    requires Initial(w) && Exec(w, schedule).Some?
    ensures Inv(Exec(w, schedule).value)
    decreases |schedule|
  {
    if schedule == [] {
      InitialInv(w);
    } else {
      var k := |schedule| - 1;
      ReachableInv(w, schedule[..k]);
      StepKeepsInv(Exec(w, schedule[..k]).value, schedule[k]);
    }
  }
}
