/** The queue between the daemon that sends keys and the mapper that receives them. */
module Channel {
  import opened Options
  import opened Profiles

  /** What the two ends share, with the history of what went in and came out. */
  datatype Shared = Shared(queue: seq<InputEvent>, closed: bool, sent: seq<InputEvent>, received: seq<InputEvent>)

  /** One locked region: a send, the end of a wait, or a close. */
  datatype Action = Send(event: InputEvent) | EndWait(timed: bool) | Close

  const OPENED := Shared([], false, [], [])

  /** A wait with no timeout only ends once there is a key or the channel is closed. */
  predicate Enabled(s: Shared, a: Action) {
    a.EndWait? ==> a.timed || s.closed || s.queue != []
  }

  function SendTo(s: Shared, event: InputEvent): Shared {
    s.(queue := s.queue + [event], sent := s.sent + [event])
  }

  function Received(s: Shared): Option<InputEvent> {
    if s.closed || s.queue == [] then None else Some(s.queue[0])
  }

  function ReceiveFrom(s: Shared): Shared {
    match Received(s)
    case None => s
    case Some(event) => s.(queue := s.queue[1..], received := s.received + [event])
  }

  function Act(s: Shared, a: Action): Shared {
    if !Enabled(s, a) then s
    else
      match a
      case Send(event) => SendTo(s, event)
      case EndWait(_) => ReceiveFrom(s)
      case Close => s.(closed := true)
  }

  function ActAll(s: Shared, actions: seq<Action>): Shared {
    if actions == [] then s else Act(ActAll(s, actions[..|actions| - 1]), actions[|actions| - 1])
  }

  /** First in, first out, nothing lost and nothing twice. */
  predicate Fifo(s: Shared) {
    s.sent == s.received + s.queue
  }

  lemma ActFifo(s: Shared, a: Action)
    requires Fifo(s)
    ensures Fifo(Act(s, a)) && s.received <= Act(s, a).received && s.sent <= Act(s, a).sent
  {
  }

  /** However senders, receivers and a close interleave, what was sent is what was received followed by what is queued. */
  lemma {:induction false} AlwaysFifo(s: Shared, actions: seq<Action>)
    requires Fifo(s)
    ensures Fifo(ActAll(s, actions)) && s.received <= ActAll(s, actions).received && s.sent <= ActAll(s, actions).sent
  {
    if actions != [] {
      AlwaysFifo(s, actions[..|actions| - 1]);
      ActFifo(ActAll(s, actions[..|actions| - 1]), actions[|actions| - 1]);
    }
  }

  /** Once closed, nothing more is received, though senders may still add to the queue. */
  lemma {:induction false} NothingAfterClose(s: Shared, actions: seq<Action>)
    requires s.closed
    ensures ActAll(s, actions).closed && ActAll(s, actions).received == s.received && s.queue <= ActAll(s, actions).queue
  {
    if actions != [] {
      NothingAfterClose(s, actions[..|actions| - 1]);
    }
  }

  // ---------- what each region does ----------

  /** A send puts the key behind those queued, closed or not. */
  lemma SendQueues(s: Shared, event: InputEvent)
    ensures Act(s, Send(event)) == s.(queue := s.queue + [event], sent := s.sent + [event])
  {
  }

  /** Once a key is queued on an open channel, the end of a wait takes the oldest, timed or not. */
  lemma WaitTakesOldest(s: Shared, timed: bool)
    requires !s.closed && s.queue != []
    ensures Enabled(s, EndWait(timed)) && Received(s) == Some(s.queue[0])
    ensures Act(s, EndWait(timed)) == s.(queue := s.queue[1..], received := s.received + [s.queue[0]])
  {
  }

  /** Otherwise it takes nothing. */
  lemma WaitTakesNothing(s: Shared, timed: bool)
    requires s.closed || s.queue == []
    ensures Act(s, EndWait(timed)) == s && Received(s).None?
  {
  }

  lemma CloseCloses(s: Shared)
    ensures Act(s, Close) == s.(closed := true)
  {
  }

  // ---------- closing ----------

  /** From the first close on nothing is received, whatever else happens. */
  lemma {:induction false} NothingReceivedAfter(s: Shared, actions: seq<Action>, i: nat)
    requires i < |actions| && actions[i].Close?
    ensures ActAll(s, actions).closed && ActAll(s, actions).received == ActAll(s, actions[..i]).received
    decreases |actions|
  {
    var last := |actions| - 1;
    if i < last {
      assert actions[..last][..i] == actions[..i];
      NothingReceivedAfter(s, actions[..last], i);
      NothingAfterClose(ActAll(s, actions[..last]), [actions[last]]);
      assert [actions[last]][..0] == [];
    } else {
      CloseCloses(ActAll(s, actions[..last]));
    }
  }

  // ---------- nothing is kept back ----------

  predicate NoClose(actions: seq<Action>) {
    forall i :: 0 <= i < |actions| ==> !actions[i].Close?
  }

  /** How many waits end. */
  function WaitsEnded(actions: seq<Action>): nat {
    if actions == [] then 0 else WaitsEnded(actions[..|actions| - 1]) + if actions[|actions| - 1].EndWait? then 1 else 0
  }

  /** A wait that ends takes a key, unless all that were queued at the start have been taken. */
  lemma {:induction false} TakesEnough(s: Shared, actions: seq<Action>)
    requires Fifo(s) && !s.closed && NoClose(actions)
    ensures var r := ActAll(s, actions);
      !r.closed && (|r.received| >= |s.received| + WaitsEnded(actions) || |r.received| >= |s.sent|)
    decreases |actions|
  {
    if actions != [] {
      var before, last := actions[..|actions| - 1], actions[|actions| - 1];
      TakesEnough(s, before);
      AlwaysFifo(s, before);
      var r := ActAll(s, before);
      assert !last.Close?;
      if last.EndWait? && r.queue != [] {
        WaitTakesOldest(r, last.timed);
      }
    }
  }

  /** However senders and receivers interleave, unless the channel is closed: as many ended waits as there are keys in the
      queue receive all of them, in order; and if nothing was sent in between, the queue is empty. */
  lemma QueueDrains(s: Shared, actions: seq<Action>)
    requires Fifo(s) && !s.closed && NoClose(actions) && WaitsEnded(actions) >= |s.queue|
    ensures var r := ActAll(s, actions);
      && s.received + s.queue <= r.received
      && (r.sent == s.sent ==> r.queue == [])
  {
    TakesEnough(s, actions);
    AlwaysFifo(s, actions);
    var r := ActAll(s, actions);
    assert s.sent <= r.sent && r.sent == r.received + r.queue;
    assert s.sent == r.received[..|s.sent|];
  }

  /** The n-th key received is the n-th key sent. */
  lemma ReceivesInOrder(s: Shared, actions: seq<Action>, n: nat)
    requires Fifo(s) && n < |ActAll(s, actions).received|
    ensures n < |ActAll(s, actions).sent| && ActAll(s, actions).received[n] == ActAll(s, actions).sent[n]
  {
    AlwaysFifo(s, actions);
  }

  class KeyQueueState {
    var queue: seq<InputEvent>
    var closed: bool
    ghost var sent: seq<InputEvent>
    ghost var received: seq<InputEvent>

    constructor ()
      ensures Value() == OPENED
    {
      queue, closed, sent, received := [], false, [], [];
    }

    ghost function Value(): Shared
      reads this
    {
      Shared(queue, closed, sent, received)
    }
  }

  class KeySender {
    const state: KeyQueueState

    constructor (state: KeyQueueState)
      ensures this.state == state
    {
      this.state := state;
    }

    method SendKey(event: InputEvent) returns (used: bool)
      modifies state
      ensures used && state.Value() == Act(old(state.Value()), Send(event))
      ensures state.queue == old(state.queue) + [event] && state.closed == old(state.closed)
    {
      state.queue := state.queue + [event];
      state.sent := state.sent + [event];
      used := true;
    }
  }

  class KeyReceiver {
    const state: KeyQueueState

    constructor (state: KeyQueueState)
      ensures this.state == state
    {
      this.state := state;
    }

    /** The state is the one in which the wait ends; without a timeout it ends only when there is a reason to. */
    method WaitKey(timeout: Option<nat>) returns (key: Option<InputEvent>)
      requires Enabled(state.Value(), EndWait(timeout.Some?))
      modifies state
      ensures key == Received(old(state.Value()))
      ensures state.Value() == Act(old(state.Value()), EndWait(timeout.Some?))
      ensures if old(state.closed) || old(state.queue) == [] then key.None? && state.queue == old(state.queue)
              else key == Some(old(state.queue)[0]) && state.queue == old(state.queue)[1..]
      ensures state.closed == old(state.closed)
    {
      var ready := state.closed || state.queue != [];
      if state.closed {
        return None;
      }
      if !ready || state.queue == [] {
        return None;
      }
      key := Some(state.queue[0]);
      state.received := state.received + [state.queue[0]];
      state.queue := state.queue[1..];
    }

    method CloseChannel()
      modifies state
      ensures state.Value() == Act(old(state.Value()), Close)
      ensures state.closed && state.queue == old(state.queue)
    {
      state.closed := true;
    }
  }

  method CreateChannel() returns (sender: KeySender, receiver: KeyReceiver)
    ensures sender.state == receiver.state && fresh(sender.state) && sender.state.Value() == OPENED
    ensures sender.state.queue == [] && !sender.state.closed
  {
    var state := new KeyQueueState();
    sender := new KeySender(state);
    receiver := new KeyReceiver(state);
  }
}
