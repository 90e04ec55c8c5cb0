/** The event pump of driver/events.go: an unbounded queue drained by one goroutine that is woken through a one-slot
    channel. Producers append under the lock and signal after releasing it, so every interleaving of appending,
    signalling, swapping, sending and parking is a sequence of the steps below. */
module EventPump {
  import opened Sequences

  /** Where the draining goroutine is. Parked covers everything from the swap that found nothing to the wake-up. */
  datatype Control<E> = Swapping | Sending(rest: seq<E>) | Parked | Closed

  datatype Step<E> =
    | Push(ev: E) // push, up to its unlock
    | End         // end, up to its unlock
    | Signal      // one signal that is due
    | Stop        // the rest of stopNow
    | Swap        // run takes the queue
    | Send        // run hands one event to the consumer
    | Wake        // run receives from the wake channel
    | SeeStop     // run finds the stop channel closed

  /** due counts producers between their unlock and their signal; accepted and delivered are observations. */
  datatype State<E> = State(
    queue: seq<E>, ended: bool, wake: bool, stopped: bool,
    control: Control<E>, due: nat, accepted: seq<E>, delivered: seq<E>)

  function Init<E>(): State<E> {
    State([], false, false, false, Swapping, 0, [], [])
  }

  predicate Enabled<E>(s: State<E>, step: Step<E>) {
    match step
    case Push(_) => true
    case End => true
    case Signal => s.due > 0
    case Stop => s.ended
    case Swap => s.control.Swapping?
    case Send => s.control.Sending? && s.control.rest != []
    case Wake => s.control.Parked? && s.wake
    case SeeStop => s.stopped && (s.control.Parked? || s.control.Sending?)
  }

  function Next<E>(s: State<E>, step: Step<E>): State<E>
    requires Enabled(s, step)
  {
    match step
    case Push(ev) => if s.ended then s else s.(queue := s.queue + [ev], accepted := s.accepted + [ev], due := s.due + 1)
    case End => s.(ended := true, due := s.due + 1)
    case Signal => s.(wake := true, due := s.due - 1)
    case Stop => s.(stopped := true)
    case Swap =>
      s.(queue := [],
         control := if s.queue != [] then Sending(s.queue) else if s.ended then Closed else Parked)
    case Send =>
      s.(delivered := s.delivered + s.control.rest[..1],
         control := if |s.control.rest| == 1 then Swapping else Sending(s.control.rest[1..]))
    case Wake => s.(wake := false, control := Swapping)
    case SeeStop => s.(control := Closed)
  }

  /** The events run has taken and not yet sent. */
  function Batch<E>(s: State<E>): seq<E> {
    if s.control.Sending? then s.control.rest else []
  }

  ghost predicate Inv<E>(s: State<E>) {
    && (s.control.Sending? ==> s.control.rest != [])
       // until a stop abandons a batch nothing is lost, repeated or reordered
    && ((s.control.Closed? && s.stopped) || s.delivered + Batch(s) + s.queue == s.accepted)
    && s.delivered <= s.accepted
       // the channel closes by itself only once the stream has ended and everything has gone out
    && (s.control.Closed? && !s.stopped ==> s.ended && s.delivered == s.accepted)
       // no lost wakeup
    && (s.control.Parked? && (s.queue != [] || s.ended) ==> s.wake || s.due > 0)
  }

  lemma NextKeepsInv<E>(s: State<E>, step: Step<E>)
    requires Inv(s) && Enabled(s, step)
    ensures Inv(Next(s, step))
  {
    if step.Push? {
      Assoc(s.delivered + Batch(s), s.queue, [step.ev]);
    } else if step.Send? {
      SendKeepsInv(s);
    } else if step.Swap? {
      SwapKeepsInv(s);
    }
  }

  lemma SendKeepsInv<E>(s: State<E>)
    requires Inv(s) && Enabled(s, Send)
    ensures Inv(Next(s, Send))
  {
    var first, rest := s.control.rest[..1], s.control.rest[1..];
    assert s.control.rest == first + rest;
    Assoc(s.delivered, first, rest);
    Assoc(s.delivered + first, rest, s.queue);
  }

  lemma SwapKeepsInv<E>(s: State<E>)
    requires Inv(s) && Enabled(s, Swap)
    ensures Inv(Next(s, Swap))
  {
    NoMore(s.delivered);
    NoMore(s.delivered + s.queue);
  }

  /** s' is reached from s by exactly these steps, each one enabled when taken. */
  ghost predicate Reaches<E>(s: State<E>, steps: seq<Step<E>>, s': State<E>)
    decreases |steps|
  {
    if steps == [] then s == s'
    else Enabled(s, steps[0]) && Reaches(Next(s, steps[0]), steps[1..], s')
  }

  /** What the producers asked for before the first end, read off the schedule alone. */
  function PushedBeforeEnd<E>(steps: seq<Step<E>>): seq<E> {
    if steps == [] || steps[0].End? then []
    else (if steps[0].Push? then [steps[0].ev] else []) + PushedBeforeEnd(steps[1..])
  }

  lemma {:induction false} RunKeepsInv<E>(s: State<E>, steps: seq<Step<E>>, s': State<E>)
    requires Inv(s) && Reaches(s, steps, s')
    ensures Inv(s')
    decreases |steps|
  {
    if steps != [] {
      NextKeepsInv(s, steps[0]);
      RunKeepsInv(Next(s, steps[0]), steps[1..], s');
    }
  }

  lemma {:induction false} RunAccepts<E>(s: State<E>, steps: seq<Step<E>>, s': State<E>)
    requires Reaches(s, steps, s')
    ensures s'.accepted == s.accepted + if s.ended then [] else PushedBeforeEnd(steps)
    decreases |steps|
  {
    if steps != [] {
      var step := steps[0];
      var first := if step.Push? then [step.ev] else [];
      RunAccepts(Next(s, step), steps[1..], s');
      if !s.ended && !step.End? {
        assert s.accepted + first + PushedBeforeEnd(steps[1..]) == s.accepted + (first + PushedBeforeEnd(steps[1..]));
      }
    }
  }

  /** Every schedule: what the consumer got, then what run holds, then the queue is what was pushed before the first
      end, in order; a channel closed without a stop delivered all of it; a parked run with work has a wake-up coming. */
  lemma LosslessInOrder<E>(steps: seq<Step<E>>, s: State<E>)
    requires Reaches(Init(), steps, s)
    ensures s.delivered <= PushedBeforeEnd(steps)
    ensures !(s.control.Closed? && s.stopped) ==> s.delivered + Batch(s) + s.queue == PushedBeforeEnd(steps)
    ensures s.control.Closed? && !s.stopped ==> s.ended && s.delivered == PushedBeforeEnd(steps)
    ensures s.control.Parked? && (s.queue != [] || s.ended) ==> s.wake || s.due > 0
  {
    RunKeepsInv(Init(), steps, s);
    RunAccepts(Init(), steps, s);
  }

  predicate Quiet<E>(step: Step<E>) {
    step.Signal? || step.Swap? || step.Send? || step.Wake?
  }

  /** What is left to do before the pump is at rest. */
  function Work<E>(s: State<E>): nat {
    3 * s.due + (if s.wake then 2 else 0) + 2 * (|s.queue| + |Batch(s)|) + if s.control.Swapping? then 1 else 0
  }

  /** Each due signal and each of run's own steps leaves less of it, and touches nothing a producer did. */
  lemma QuietStepsShrink<E>(s: State<E>, step: Step<E>)
    requires Inv(s) && Enabled(s, step) && Quiet(step)
    ensures var t := Next(s, step);
            Work(t) < Work(s) && t.accepted == s.accepted && t.ended == s.ended && t.stopped == s.stopped
  {
  }

  /** None of the quiet steps can be taken. */
  predicate AtRest<E>(s: State<E>) {
    !Enabled(s, Signal) && !Enabled(s, Swap) && !Enabled(s, Send) && !Enabled(s, Wake)
  }

  /** Where none is left everything accepted is delivered, and the channel closed if the stream has ended. */
  lemma RestIsDrained<E>(s: State<E>)
    requires Inv(s) && !s.stopped && AtRest(s)
    ensures s.delivered == s.accepted
    ensures if s.ended then s.control.Closed? else s.control.Parked?
  {
    if s.control.Parked? {
      assert s.delivered + Batch(s) + s.queue == s.delivered;
    }
  }

  /** Liveness: once producers fall silent, whatever order the due signals and run's steps come in, there are at most
      Work(s) of them, and when none can be taken any more everything accepted before has been delivered. */
  lemma {:induction false} EveryQuietRunDrains<E>(s: State<E>, steps: seq<Step<E>>, t: State<E>)
    requires Inv(s) && !s.stopped && Reaches(s, steps, t)
    requires forall i :: 0 <= i < |steps| ==> Quiet(steps[i])
    ensures |steps| + Work(t) <= Work(s)
    ensures AtRest(t) ==>
              t.delivered == s.accepted && if s.ended then t.control.Closed? else t.control.Parked?
    decreases |steps|
  {
    if steps == [] {
      if AtRest(s) {
        RestIsDrained(s);
      }
    } else {
      QuietStepsShrink(s, steps[0]);
      NextKeepsInv(s, steps[0]);
      EveryQuietRunDrains(Next(s, steps[0]), steps[1..], t);
    }
  }

  /** There is such a schedule from every state. */
  lemma {:induction false} Drains<E>(s: State<E>) returns (steps: seq<Step<E>>, s': State<E>)
    requires Inv(s) && !s.stopped
    ensures forall i :: 0 <= i < |steps| ==> Quiet(steps[i])
    ensures Reaches(s, steps, s') && Inv(s')
    ensures s'.delivered == s.accepted == s'.accepted
    ensures if s.ended then s'.control.Closed? else s'.control.Parked?
    decreases |s.queue| + |Batch(s)|, s.due, s.wake, if s.control.Swapping? then 1 else 0, |s.queue|
  {
    var step: Step<E>;
    if s.due > 0 {
      step := Signal;
    } else if s.control.Sending? {
      step := Send;
    } else if s.control.Swapping? {
      step := Swap;
    } else if s.control.Parked? && s.wake {
      step := Wake;
    } else {
      assert Reaches(s, [], s);
      assert s.delivered + Batch(s) + s.queue == s.delivered;
      return [], s;
    }
    NextKeepsInv(s, step);
    var rest;
    rest, s' := Drains(Next(s, step));
    steps := [step] + rest;
    assert steps[1..] == rest;
  }

  /** eventPump. The draining goroutine's own progress is in control, so that its critical sections and channel
      operations can be interleaved with the producers'. */
  class Pump<E> {
    var queue: seq<E>
    var ended: bool
    var wake: bool // the one slot of the wake channel
    var stopped: bool // the stop channel is closed
    var control: Control<E>
    ghost var due: nat
    ghost var accepted: seq<E>
    ghost var delivered: seq<E>

    ghost function View(): State<E>
      reads this
    {
      State(queue, ended, wake, stopped, control, due, accepted, delivered)
    }

    constructor ()
      ensures View() == Init() && Inv(View())
    {
      queue, ended, wake, stopped, control := [], false, false, false, Swapping;
      due, accepted, delivered := 0, [], [];
    }

    method Push(ev: E)
      requires Inv(View())
      modifies this
      ensures View() == Next(old(View()), Step.Push(ev)) && Inv(View())
    {
      NextKeepsInv(View(), Step.Push(ev));
      if ended {
        return;
      }
      queue := queue + [ev];
      accepted, due := accepted + [ev], due + 1;
    }

    method End()
      requires Inv(View())
      modifies this
      ensures View() == Next(old(View()), Step.End) && Inv(View())
    {
      ended := true;
      due := due + 1;
    }

    method Signal()
      requires Inv(View()) && Enabled(View(), Step.Signal)
      modifies this
      ensures View() == Next(old(View()), Step.Signal) && Inv(View())
    {
      if !wake { // a full slot takes no second token
        wake := true;
      }
      due := due - 1;
    }

    method Stop()
      requires Inv(View()) && Enabled(View(), Step.Stop)
      modifies this
      ensures View() == Next(old(View()), Step.Stop) && Inv(View())
    {
      NextKeepsInv(View(), Step.Stop);
      if !stopped { // stopOnce
        stopped := true;
      }
    }

    /** The critical section at the top of run's loop, and the choice it makes from what it read there. */
    method RunSwap()
      requires Inv(View()) && Enabled(View(), Step.Swap)
      modifies this
      ensures View() == Next(old(View()), Step.Swap) && Inv(View())
    {
      NextKeepsInv(View(), Step.Swap);
      var batch := queue;
      queue := [];
      if |batch| > 0 {
        control := Sending(batch);
      } else if ended {
        control := Closed;
      } else {
        control := Parked;
      }
    }

    method RunSend() returns (ev: E)
      requires Inv(View()) && Enabled(View(), Step.Send)
      modifies this
      ensures View() == Next(old(View()), Step.Send) && Inv(View())
      ensures delivered == old(delivered) + [ev]
    {
      NextKeepsInv(View(), Step.Send);
      ev := control.rest[0];
      delivered := delivered + [ev];
      control := if |control.rest| > 1 then Sending(control.rest[1..]) else Swapping;
    }

    method RunWake()
      requires Inv(View()) && Enabled(View(), Step.Wake)
      modifies this
      ensures View() == Next(old(View()), Step.Wake) && Inv(View())
    {
      wake := false;
      control := Swapping;
    }

    method RunSeeStop()
      requires Inv(View()) && Enabled(View(), Step.SeeStop)
      modifies this
      ensures View() == Next(old(View()), Step.SeeStop) && Inv(View())
    {
      control := Closed;
    }
  }
}
