/** The debounce worker of kube_watch_service.go as a transition system: one worker
    goroutine, a channel `pending` of capacity one, and any number of triggers.  Every
    channel or context operation of the source is one atomic event, and time passes only in
    `Tick` events, so a run is an arbitrary interleaving. */
module Debounce {

  /** Where the worker is.  Its local deadline lives in `Sleeping`. */
  datatype Pc =
    | Waiting                // at the select between ctx.Done and pending
    | Sleeping(wake: real)   // took a token, inside sleep
    | Woken                  // sleep returned, about to test ctx.Err
    | Draining               // ctx.Err was nil, about to drain pending
    | Calling                // drained, about to call fn
    | InCallback             // fn is running
    | Returned

  datatype State = State(pending: bool, pc: Pc, cancelled: bool, now: real)

  datatype Event =
    | Trigger
    | Cancel
    | Tick(elapsed: real)
    | Take          // the select received from pending
    | Quit          // the select received from ctx.Done
    | Wake          // sleep ended
    | SeeCancelled  // ctx.Err was not nil
    | SeeLive       // ctx.Err was nil
    | Drain
    | Start         // fn is called
    | Finish        // fn returned

  const INIT := State(false, Waiting, false, 0.0)

  ghost predicate Enabled(s: State, e: Event) {
    match e
    case Trigger => true
    case Cancel => true
    case Tick(d) => d > 0.0
    case Take => s.pc.Waiting? && s.pending
    case Quit => s.pc.Waiting? && s.cancelled
    case Wake => s.pc.Sleeping? && (s.cancelled || s.now >= s.pc.wake)
    case SeeCancelled => s.pc.Woken? && s.cancelled
    case SeeLive => s.pc.Woken? && !s.cancelled
    case Drain => s.pc.Draining?
    case Start => s.pc.Calling?
    case Finish => s.pc.InCallback?
  }

  ghost function Apply(delay: real, s: State, e: Event): State {
    match e
    case Trigger => s.(pending := true)  // a full channel drops the token
    case Cancel => s.(cancelled := true)
    case Tick(d) => s.(now := s.now + d)
    case Take => s.(pending := false, pc := Sleeping(s.now + delay))
    case Quit => s.(pc := Returned)
    case Wake => s.(pc := Woken)
    case SeeCancelled => s.(pc := Returned)
    case SeeLive => s.(pc := Draining)
    case Drain => s.(pending := false, pc := Calling)
    case Start => s.(pc := InCallback)
    case Finish => s.(pc := Waiting)
  }

  /** `states` are the states visited by performing `events` from the start of the worker. */
  ghost predicate Run(delay: real, states: seq<State>, events: seq<Event>) {
    && |states| == |events| + 1
    && states[0] == INIT
    && forall i :: 0 <= i < |events| ==>
        Enabled(states[i], events[i]) && states[i + 1] == Apply(delay, states[i], events[i])
  }

  /** A call of fn is still to come in this state, unless the worker stops first. */
  ghost predicate Covered(s: State) {
    s.pc.Sleeping? || s.pc.Woken? || s.pc.Draining? || s.pc.Calling? || (s.pending && !s.pc.Returned?)
  }

  ghost function Count(events: seq<Event>, e: Event): nat {
    if events == [] then 0 else Count(events[..|events| - 1], e) + (if events[|events| - 1] == e then 1 else 0)
  }

  lemma CountOfMore(events: seq<Event>, i: nat, j: nat, e: Event)
    requires i < j <= |events|
    ensures Count(events[i..j], e) == Count(events[i..j - 1], e) + (if events[j - 1] == e then 1 else 0)
  {
    assert events[i..j][..j - 1 - i] == events[i..j - 1];
  }

  // Lost triggers

  /** The worker only ever returns after the context was cancelled. */
  lemma {:induction false} ReturnedMeansCancelled(delay: real, states: seq<State>, events: seq<Event>, j: nat)
    requires Run(delay, states, events) && j <= |events|
    ensures states[j].pc.Returned? ==> states[j].cancelled
  {
    if j > 0 {
      ReturnedMeansCancelled(delay, states, events, j - 1);
      assert states[j] == Apply(delay, states[j - 1], events[j - 1]);
    }
  }

  /** No trigger is lost: until fn starts again (or the context is cancelled) the channel
      holds a token, or the worker is between taking a token and starting fn.  This covers
      triggers dropped on a full channel and tokens swallowed by the drain. */
  lemma {:induction false} NoTriggerIsLost(delay: real, states: seq<State>, events: seq<Event>, i: nat, j: nat)
    requires Run(delay, states, events) && i < j <= |events|
    requires events[i] == Trigger
    requires forall k :: i < k < j ==> events[k] != Start
    ensures Covered(states[j]) || (states[j].pc.Returned? && states[j].cancelled)
    decreases j
  {
    assert states[j] == Apply(delay, states[j - 1], events[j - 1]);
    ReturnedMeansCancelled(delay, states, events, j);
    if j > i + 1 {
      NoTriggerIsLost(delay, states, events, i, j - 1);
    }
  }

  /** How many worker moves can still precede the covering call of fn. */
  ghost function Distance(pc: Pc): nat {
    match pc
    case InCallback => 5
    case Waiting => 4
    case Sleeping(_) => 3
    case Woken => 2
    case Draining => 1
    case Calling => 0
    case Returned => 0
  }

  ghost predicate WorkerMove(e: Event) {
    !e.Trigger? && !e.Cancel? && !e.Tick?
  }

  ghost function WorkerMoves(events: seq<Event>): nat {
    if events == [] then 0
    else WorkerMoves(events[..|events| - 1]) + (if WorkerMove(events[|events| - 1]) then 1 else 0)
  }

  /** A trigger is served promptly: while the context stays live, the worker makes at most five
      moves after a trigger before it starts fn. */
  lemma {:induction false} TriggerIsServedWithinFiveMoves(
    delay: real, states: seq<State>, events: seq<Event>, i: nat, j: nat)
    requires Run(delay, states, events) && i < j <= |events|
    requires events[i] == Trigger && !states[j].cancelled
    requires forall k :: i < k < j ==> events[k] != Start
    ensures Covered(states[j])
    ensures WorkerMoves(events[i + 1..j]) + Distance(states[j].pc) <= 5
    decreases j
  {
    assert states[j] == Apply(delay, states[j - 1], events[j - 1]);
    NoTriggerIsLost(delay, states, events, i, j);
    if j > i + 1 {
      TriggerIsServedWithinFiveMoves(delay, states, events, i, j - 1);
      assert events[i + 1..j][..j - 1 - (i + 1)] == events[i + 1..j - 1];
    } else {
      ReturnedMeansCancelled(delay, states, events, i);
    }
  }

  /** ... and a covered worker is never stuck: it can move now, or once its timer expires. */
  lemma CoveredWorkerCanMove(s: State)
    requires Covered(s) && !s.cancelled
    ensures (exists e :: WorkerMove(e) && Enabled(s, e)) || (s.pc.Sleeping? && s.now < s.pc.wake)
  {
    match s.pc {
      case Waiting => assert Enabled(s, Take);
      case Sleeping(_) => assert s.now < s.pc.wake || Enabled(s, Wake);
      case Woken => assert Enabled(s, SeeLive);
      case Draining => assert Enabled(s, Drain);
      case Calling => assert Enabled(s, Start);
      case InCallback => assert Enabled(s, Finish);
    }
  }

  // Rate

  /** A token is held by the channel or by the worker on its way to fn. */
  ghost function Tokens(s: State): nat {
    (if s.pending then 1 else 0) + (if s.pc.Sleeping? || s.pc.Woken? || s.pc.Draining? || s.pc.Calling? then 1 else 0)
  }

  /** fn never starts more often than it was triggered. */
  lemma {:induction false} StartsNeverOutnumberTriggers(delay: real, states: seq<State>, events: seq<Event>, j: nat)
    requires Run(delay, states, events) && j <= |events|
    ensures Count(events[..j], Start) + Tokens(states[j]) <= Count(events[..j], Trigger)
  {
    if j > 0 {
      StartsNeverOutnumberTriggers(delay, states, events, j - 1);
      assert events[..j][..j - 1] == events[..j - 1];
      assert states[j] == Apply(delay, states[j - 1], events[j - 1]);
    }
  }

  lemma TokensStep(delay: real, s: State, e: Event)
    requires Enabled(s, e)
    ensures (if e == Start then 1 else 0) + Tokens(Apply(delay, s, e)) <= Tokens(s) + (if e == Trigger then 1 else 0)
    ensures e == Drain ==> Tokens(Apply(delay, s, e)) == 1
  {
  }

  /** A burst is served by one call: after a drain, every start but the one on its way needs a trigger of
      its own, whatever was triggered before. */
  lemma {:induction false} BurstIsServedOnce(delay: real, states: seq<State>, events: seq<Event>, d: nat, j: nat)
    requires Run(delay, states, events) && d < j <= |events|
    requires events[d] == Drain
    ensures Count(events[d + 1..j], Start) + Tokens(states[j]) <= 1 + Count(events[d + 1..j], Trigger)
    decreases j
  {
    hide Enabled, Apply, Tokens;
    TokensStep(delay, states[j - 1], events[j - 1]);
    if j > d + 1 {
      BurstIsServedOnce(delay, states, events, d, j - 1);
      CountOfMore(events, d + 1, j, Start);
      CountOfMore(events, d + 1, j, Trigger);
      hide Count;
    }
  }

  /** After a start or a token taken at i, any later start is still `delay` away until the worker's own
      timer, set then or later, has run out. */
  lemma {:induction false} TimerRunsAfter(delay: real, states: seq<State>, events: seq<Event>, i: nat, j: nat)
    requires Run(delay, states, events) && i < j <= |events|
    requires events[i] == Start || events[i] == Take
    ensures states[i].now <= states[j].now
    ensures states[j].pc.Sleeping? ==> states[i].now + delay <= states[j].pc.wake
    ensures states[j].pc.Draining? || states[j].pc.Calling? || (states[j].pc.Woken? && !states[j].cancelled)
            ==> states[i].now + delay <= states[j].now
    decreases j
  {
    assert states[j] == Apply(delay, states[j - 1], events[j - 1]);
    if j > i + 1 {
      TimerRunsAfter(delay, states, events, i, j - 1);
    }
  }

  /** Two starts of fn are at least `delay` apart. */
  lemma StartsAreDelayApart(delay: real, states: seq<State>, events: seq<Event>, i: nat, j: nat)
    requires Run(delay, states, events) && i < j < |events|
    requires events[i] == Start && events[j] == Start
    ensures states[j].now - states[i].now >= delay
  {
    assert Enabled(states[j], events[j]);
    TimerRunsAfter(delay, states, events, i, j);
  }

  /** fn starts at least `delay` after the worker took the token. */
  lemma StartWaitsForDelay(delay: real, states: seq<State>, events: seq<Event>, i: nat, j: nat)
    requires Run(delay, states, events) && i < j < |events|
    requires events[i] == Take && events[j] == Start
    ensures states[j].now - states[i].now >= delay
  {
    assert Enabled(states[j], events[j]);
    TimerRunsAfter(delay, states, events, i, j);
  }

  /** The sleep is no longer than `delay`, either: a worker whose context is live can go on that long after
      it took the token. */
  lemma SleepEnds(delay: real, states: seq<State>, events: seq<Event>, i: nat, j: nat)
    requires Run(delay, states, events) && i < j <= |events|
    requires events[i] == Take && forall k :: i < k < j ==> !WorkerMove(events[k])
    ensures states[j].pc.Sleeping?
    ensures states[j].now >= states[i].now + delay ==> Enabled(states[j], Wake)
  {
    TakenAt(delay, states, events, i, j);
  }

  lemma {:induction false} TakenAt(delay: real, states: seq<State>, events: seq<Event>, i: nat, j: nat)
    requires Run(delay, states, events) && i < j <= |events|
    requires events[i] == Take && forall k :: i < k < j ==> !WorkerMove(events[k])
    ensures states[j].pc == Sleeping(states[i].now + delay)
    decreases j
  {
    assert states[j] == Apply(delay, states[j - 1], events[j - 1]);
    if j > i + 1 {
      TakenAt(delay, states, events, i, j - 1);
    }
  }

  // Shutdown

  /** At most one start of fn follows a cancellation, and only when the cancellation found the
      worker already past its last look at the context. */
  lemma {:induction false} AtMostOneStartAfterCancel(
    delay: real, states: seq<State>, events: seq<Event>, c: nat, j: nat)
    requires Run(delay, states, events) && c < j <= |events|
    requires events[c] == Cancel
    ensures states[j].cancelled
    ensures Count(events[c + 1..j], Start) + (if states[j].pc.Draining? || states[j].pc.Calling? then 1 else 0)
         <= (if states[c].pc.Draining? || states[c].pc.Calling? then 1 else 0)
    decreases j
  {
    assert states[j] == Apply(delay, states[j - 1], events[j - 1]);
    if j > c + 1 {
      hide Count;
      AtMostOneStartAfterCancel(delay, states, events, c, j - 1);
      CountOfMore(events, c + 1, j, Start);
    }
  }

  /** How many moves a worker whose context is cancelled can still make. */
  ghost function MovesLeft(pc: Pc): nat {
    match pc
    case Draining => 6
    case Calling => 5
    case InCallback => 4
    case Waiting => 3
    case Sleeping(_) => 2
    case Woken => 1
    case Returned => 0
  }

  lemma CancelledStep(delay: real, s: State, e: Event)
    requires Enabled(s, e)
    ensures s.cancelled || e == Cancel ==> Apply(delay, s, e).cancelled
    ensures s.cancelled ==> (if WorkerMove(e) then 1 else 0) + MovesLeft(Apply(delay, s, e).pc) <= MovesLeft(s.pc)
    ensures e == Cancel ==> Apply(delay, s, e).pc == s.pc
  {
  }

  /** A cancelled worker stops: it makes at most six more moves ... */
  lemma {:induction false} CancelledWorkerStops(
    delay: real, states: seq<State>, events: seq<Event>, c: nat, j: nat)
    requires Run(delay, states, events) && c < j <= |events|
    requires events[c] == Cancel
    ensures states[j].cancelled
    ensures WorkerMoves(events[c + 1..j]) + MovesLeft(states[j].pc) <= MovesLeft(states[c].pc) <= 6
    decreases j
  {
    CancelledStep(delay, states[j - 1], events[j - 1]);
    assert states[j] == Apply(delay, states[j - 1], events[j - 1]);
    hide Enabled, Apply, MovesLeft, WorkerMove;
    AtMostSixMoves(states[c].pc);
    if j > c + 1 {
      CancelledWorkerStops(delay, states, events, c, j - 1);
      assert events[c + 1..j][..j - 1 - (c + 1)] == events[c + 1..j - 1];
    }
  }

  lemma AtMostSixMoves(pc: Pc)
    ensures MovesLeft(pc) <= 6
  {
  }

  /** ... and is not stuck before it has returned. */
  lemma CancelledWorkerCanMove(s: State)
    requires s.cancelled && !s.pc.Returned?
    ensures exists e :: WorkerMove(e) && Enabled(s, e)
  {
    match s.pc {
      case Waiting => assert Enabled(s, Quit);
      case Sleeping(_) => assert Enabled(s, Wake);
      case Woken => assert Enabled(s, SeeCancelled);
      case Draining => assert Enabled(s, Drain);
      case Calling => assert Enabled(s, Start);
      case InCallback => assert Enabled(s, Finish);
    }
  }

  /** The bound is reached: a cancellation between the context test and the call does not stop it. */
  lemma OneStartCanFollowCancel(delay: real)
    ensures exists states, events ::
              && Run(delay, states, events) && |events| == 8 && events[5] == Cancel && events[7] == Start
  {
    var events := [Trigger, Take, Tick(if delay > 0.0 then delay else 1.0), Wake, SeeLive, Cancel, Drain, Start];
    var s1 := Apply(delay, INIT, events[0]);
    var s2 := Apply(delay, s1, events[1]);
    var s3 := Apply(delay, s2, events[2]);
    var s4 := Apply(delay, s3, events[3]);
    var s5 := Apply(delay, s4, events[4]);
    var s6 := Apply(delay, s5, events[5]);
    var s7 := Apply(delay, s6, events[6]);
    var s8 := Apply(delay, s7, events[7]);
    var states := [INIT, s1, s2, s3, s4, s5, s6, s7, s8];
    assert Run(delay, states, events);
  }
}
