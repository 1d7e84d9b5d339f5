/** terminalSizeQueue of kube_hub.go: a channel of capacity one that is meant to keep only the
    latest terminal size.  The single pusher (the websocket read loop) and the single consumer
    (the exec stream calling Next) interleave freely; every channel operation is one event.
    `pushed` and `received` record the completed sends and receives. */
module SizeQueue {
  import opened Seqs

  datatype Size = Size(width: nat, height: nat)

  datatype Slot = Empty | Full(size: Size)

  /** The pusher: between pushes, before the draining select, or before the blocking send. */
  datatype Pusher = Idle | Draining(size: Size) | Sending(size: Size)

  datatype State = State(
    slot: Slot, pusher: Pusher, done: bool, consuming: bool, pushed: seq<Size>, received: seq<Size>)

  datatype Event =
    | Push(size: Size)  // push is entered
    | Drain             // its select receives, or takes the default branch
    | Send              // its send completes
    | Receive           // Next returns a size
    | Close             // the context is cancelled
    | Stop              // Next returns nil

  const INIT := State(Empty, Idle, false, true, [], [])

  ghost predicate Enabled(s: State, e: Event) {
    match e
    case Push(_) => s.pusher.Idle?
    case Drain => s.pusher.Draining?
    case Send => s.pusher.Sending? && s.slot.Empty?
    case Receive => s.consuming && s.slot.Full?
    case Close => true
    case Stop => s.consuming && s.done
  }

  ghost function Apply(s: State, e: Event): State
    requires Enabled(s, e)
  {
    match e
    case Push(size) => s.(pusher := Draining(size))
    case Drain => s.(pusher := Sending(s.pusher.size), slot := Empty)
    case Send => s.(pusher := Idle, slot := Full(s.pusher.size), pushed := s.pushed + [s.pusher.size])
    case Receive => s.(slot := Empty, received := s.received + [s.slot.size])
    case Close => s.(done := true)
    case Stop => s.(consuming := false)
  }

  ghost predicate Run(states: seq<State>, events: seq<Event>) {
    && |states| == |events| + 1
    && states[0] == INIT
    && forall i :: 0 <= i < |events| ==> Enabled(states[i], events[i]) && states[i + 1] == Apply(states[i], events[i])
  }

  /** xs can be obtained from ys by leaving elements out. */
  ghost predicate Subsequence<T>(xs: seq<T>, ys: seq<T>) {
    if xs == [] then true
    else if ys == [] then false
    else if xs[|xs| - 1] == ys[|ys| - 1] && Subsequence(xs[..|xs| - 1], ys[..|ys| - 1]) then true
    else Subsequence(xs, ys[..|ys| - 1])
  }

  ghost function InSlot(slot: Slot): seq<Size> {
    if slot.Full? then [slot.size] else []
  }

  lemma {:induction false} SubsequenceDropLast<T>(xs: seq<T>, x: T, ys: seq<T>)
    requires Subsequence(xs + [x], ys)
    ensures Subsequence(xs, ys)
    decreases |ys|
  {
    assert (xs + [x])[..|xs|] == xs;
    if xs == [] {
    } else if ys[|ys| - 1] == x && Subsequence(xs, ys[..|ys| - 1]) {
    } else {
      SubsequenceDropLast(xs, x, ys[..|ys| - 1]);
    }
  }

  /** The received sizes followed by the waiting one are a subsequence of the pushed ones; a
      blocking send finds the slot empty; and between pushes the newest size is the last of these. */
  ghost predicate Good(s: State) {
    && Subsequence(s.received + InSlot(s.slot), s.pushed)
    && (s.pusher.Sending? ==> s.slot.Empty?)
    && (s.pusher.Idle? && s.pushed != [] ==>
          var held := s.received + InSlot(s.slot);
          held != [] && held[|held| - 1] == s.pushed[|s.pushed| - 1])
  }

  lemma SubsequenceOfMore<T>(xs: seq<T>, ys: seq<T>, x: T)
    requires Subsequence(xs, ys)
    ensures Subsequence(xs + [x], ys + [x])
  {
    TakeDrop(xs, [x]);
    TakeDrop(ys, [x]);
  }

  lemma StepKeepsGood(s: State, e: Event)
    requires Good(s) && Enabled(s, e)
    ensures Good(Apply(s, e))
  {
    hide Subsequence;
    match e {
      case Drain =>
        if s.slot.Full? {
          SubsequenceDropLast(s.received, s.slot.size, s.pushed);
        }
        EmptyRight(s.received);
      case Send =>
        EmptyRight(s.received);
        SubsequenceOfMore(s.received, s.pushed, s.pusher.size);
      case Receive =>
        EmptyRight(s.received + [s.slot.size]);
      case _ =>
    }
  }

  lemma {:induction false} EveryStateIsGood(states: seq<State>, events: seq<Event>, j: nat)
    requires Run(states, events) && j <= |events|
    ensures Good(states[j])
  {
    if j > 0 {
      EveryStateIsGood(states, events, j - 1);
      StepKeepsGood(states[j - 1], events[j - 1]);
    }
  }

  /** The send in push never blocks, whatever the consumer does. */
  lemma PushNeverBlocks(states: seq<State>, events: seq<Event>, j: nat)
    requires Run(states, events) && j <= |events|
    ensures states[j].pusher.Sending? ==> Enabled(states[j], Send)
  {
    EveryStateIsGood(states, events, j);
  }

  /** What the exec stream receives is, in order, a part of what the browser pushed. */
  lemma ReceivedInOrder(states: seq<State>, events: seq<Event>, j: nat)
    requires Run(states, events) && j <= |events|
    ensures Subsequence(states[j].received, states[j].pushed)
  {
    EveryStateIsGood(states, events, j);
    var s := states[j];
    if s.slot.Full? {
      SubsequenceDropLast(s.received, s.slot.size, s.pushed);
    } else {
      EmptyRight(s.received);
    }
  }

  /** Between pushes the newest size is waiting in the channel or was the last one received. */
  lemma NewestSizeIsNotLost(states: seq<State>, events: seq<Event>, j: nat)
    requires Run(states, events) && j <= |events|
    requires states[j].pusher.Idle? && states[j].pushed != []
    ensures var newest := states[j].pushed[|states[j].pushed| - 1];
            if states[j].slot.Full? then states[j].slot.size == newest
            else states[j].received != [] && states[j].received[|states[j].received| - 1] == newest
  {
    EveryStateIsGood(states, events, j);
    if !states[j].slot.Full? {
      EmptyRight(states[j].received);
    }
  }

  /** The exec stream is told to stop only once the context was cancelled. */
  lemma {:induction false} StopMeansClosed(states: seq<State>, events: seq<Event>, j: nat)
    requires Run(states, events) && j <= |events|
    ensures !states[j].consuming ==> states[j].done
  {
    if j > 0 {
      StopMeansClosed(states, events, j - 1);
      assert states[j] == Apply(states[j - 1], events[j - 1]);
    }
  }
}
