/**
 * Properties of the driver over whole runs: any interleaving of caller calls
 * and loop passes, as DriverModel.Run plays it.
 */
module DriverProperties {
  import opened Wrappers
  import opened CanFrames
  import opened DriverModel

  /** The outcome of calling send() once per frame, in order, with nothing interleaved. */
  datatype Submission = Submission(final: DriverState, results: seq<bool>)

  function SendAll(s: DriverState, frames: seq<CanFrame>): (r: Submission)
    ensures |r.results| == |frames|
    decreases |frames|
  {
    if frames == [] then
      Submission(s, [])
    else
      var first := Send(s, frames[0]);
      var rest := SendAll(first.next, frames[1..]);
      Submission(rest.final, [first.ok] + rest.results)
  }

  /** The frames of receive passes in which poll() reported readable and read() returned a whole frame. */
  function FramesRead(events: seq<Event>): seq<CanFrame>
  {
    if events == [] then []
    else
      var e := events[0];
      (if e.RecvLoopPass? && PollReady(e.poll) && CompleteRead(e.read) then [e.read.frame] else []) +
      FramesRead(events[1..])
  }

  /** Every reachable state keeps the invariant, in particular the queue never exceeds MAX_QUEUE_SIZE. */
  lemma {:induction false} RunPreservesValid(hasCallback: bool, s: DriverState, events: seq<Event>)
    requires Valid(s)
    ensures Valid(Run(hasCallback, s, events).final)
    ensures |Run(hasCallback, s, events).final.queue| <= MAX_QUEUE_SIZE
    decreases |events|
  {
    if events != [] {
      RunPreservesValid(hasCallback, Step(hasCallback, s, events[0]).next, events[1..]);
    }
  }

  /**
   * FIFO conservation: what was queued, followed by what send() accepted, is
   * exactly what the transmit loop took, followed by what is still queued.
   * Nothing is lost from the queue, duplicated, reordered or requeued.
   */
  lemma {:induction false} RunIsFifo(hasCallback: bool, s: DriverState, events: seq<Event>)
    ensures s.queue + AcceptedFrames(Run(hasCallback, s, events).outs)
         == TakenFrames(Run(hasCallback, s, events).outs) + Run(hasCallback, s, events).final.queue
    decreases |events|
  {
    if events != [] {
      var first := Step(hasCallback, s, events[0]);
      var rest := Run(hasCallback, first.next, events[1..]);
      RunIsFifo(hasCallback, first.next, events[1..]);
      FramesOfCons(first.out, rest.outs);
      var a, t := AcceptedBy(first.out), TakenByOutput(first.out);
      assert s.queue + a == t + first.next.queue;
      assert first.next.queue + AcceptedFrames(rest.outs) == TakenFrames(rest.outs) + rest.final.queue;
      SpliceQueues(s.queue, a, t, first.next.queue, AcceptedFrames(rest.outs), TakenFrames(rest.outs), rest.final.queue);
    }
  }

  /** Chaining two conservation equations end to end. */
  lemma SpliceQueues<T>(q0: seq<T>, a1: seq<T>, t1: seq<T>, q1: seq<T>, a2: seq<T>, t2: seq<T>, q2: seq<T>)
    requires q0 + a1 == t1 + q1
    requires q1 + a2 == t2 + q2
    ensures q0 + (a1 + a2) == (t1 + t2) + q2
  {
    calc {
      q0 + (a1 + a2);
      (q0 + a1) + a2;
      (t1 + q1) + a2;
      t1 + (q1 + a2);
      t1 + (t2 + q2);
    }
  }

  /** The frame collectors distribute over a leading output. */
  lemma FramesOfCons(out: Output, outs: seq<Output>)
    ensures AcceptedFrames([out] + outs) == AcceptedBy(out) + AcceptedFrames(outs)
    ensures TakenFrames([out] + outs) == TakenByOutput(out) + TakenFrames(outs)
    ensures DeliveredFrames([out] + outs) == DeliveredBy(out) + DeliveredFrames(outs)
  {
    assert ([out] + outs)[1..] == outs;
  }

  /**
   * The transmit loop takes frames in submission order: starting from an empty
   * queue, the frames taken are a prefix of the frames accepted.
   */
  lemma TakenInSubmissionOrder(hasCallback: bool, s: DriverState, events: seq<Event>)
    requires s.queue == []
    ensures TakenFrames(Run(hasCallback, s, events).outs) <= AcceptedFrames(Run(hasCallback, s, events).outs)
  {
    var r := Run(hasCallback, s, events);
    RunIsFifo(hasCallback, s, events);
    assert s.queue + AcceptedFrames(r.outs) == AcceptedFrames(r.outs);
  }

  /**
   * Once stopped, and until start() is called again: every send() is
   * rejected, the transmit loop takes nothing, the callback is never invoked,
   * and the state stays exactly as stop() left it.
   */
  lemma {:induction false} StoppedRunIsQuiet(hasCallback: bool, s: DriverState, events: seq<Event>)
    requires !s.running
    requires forall i | 0 <= i < |events| :: !events[i].StartCall?
    ensures Run(hasCallback, s, events).final == s
    ensures AcceptedFrames(Run(hasCallback, s, events).outs) == []
    ensures TakenFrames(Run(hasCallback, s, events).outs) == []
    ensures DeliveredFrames(Run(hasCallback, s, events).outs) == []
    decreases |events|
  {
    if events != [] {
      var first := Step(hasCallback, s, events[0]);
      StoppedRunIsQuiet(hasCallback, first.next, events[1..]);
      assert Run(hasCallback, s, events).outs[1..] == Run(hasCallback, first.next, events[1..]).outs;
    }
  }

  /** While room remains, every send() on a running driver is accepted and appended in order. */
  lemma {:induction false} SendsWithinCapacityAreAccepted(s: DriverState, frames: seq<CanFrame>)
    requires s.running
    requires |s.queue| + |frames| <= MAX_QUEUE_SIZE
    ensures SendAll(s, frames).final == s.(queue := s.queue + frames)
    ensures forall i | 0 <= i < |frames| :: SendAll(s, frames).results[i]
    decreases |frames|
  {
    if frames != [] {
      var s1 := Send(s, frames[0]).next;
      SendsWithinCapacityAreAccepted(s1, frames[1..]);
      assert s1.queue + frames[1..] == s.queue + frames by {
        assert [frames[0]] + frames[1..] == frames;
      }
      forall i | 0 <= i < |frames|
        ensures SendAll(s, frames).results[i]
      {
        if i > 0 {
          assert SendAll(s, frames).results[i] == SendAll(s1, frames[1..]).results[i - 1];
        }
      }
    }
  }

  /**
   * Back-pressure by rejection: a running driver with an empty queue accepts
   * MAX_QUEUE_SIZE frames and rejects the next one, leaving the state as it was.
   */
  lemma CapacityIsEnforced(s: DriverState, frames: seq<CanFrame>, extra: CanFrame)
    requires s.running && s.queue == []
    requires |frames| == MAX_QUEUE_SIZE
    ensures forall i | 0 <= i < |frames| :: SendAll(s, frames).results[i]
    ensures var full := SendAll(s, frames).final;
            full.queue == frames && Send(full, extra) == SendResult(full, false)
  {
    SendsWithinCapacityAreAccepted(s, frames);
  }

  /**
   * Receive passes leave the state alone, and while running with a callback
   * set the callback receives exactly the frames read whole, in the order
   * read; without a callback, or once stopped, it receives nothing.
   */
  lemma {:induction false} ReceivedFramesAreDelivered(hasCallback: bool, s: DriverState, events: seq<Event>)
    requires forall i | 0 <= i < |events| :: events[i].RecvLoopPass?
    ensures Run(hasCallback, s, events).final == s
    ensures DeliveredFrames(Run(hasCallback, s, events).outs)
         == if s.running && hasCallback then FramesRead(events) else []
    decreases |events|
  {
    if events != [] {
      var first := Step(hasCallback, s, events[0]);
      assert first.next == s;
      var rest := Run(hasCallback, s, events[1..]);
      ReceivedFramesAreDelivered(hasCallback, s, events[1..]);
      assert Run(hasCallback, s, events) == RunResult(rest.final, [first.out] + rest.outs);
      FramesOfCons(first.out, rest.outs);
    }
  }

  /** stop() twice has the effect of stop() once. */
  lemma StopIsIdempotent(s: DriverState)
    ensures Stop(Stop(s)) == Stop(s)
  {
  }

  /** After a successful start(), a second start() succeeds without touching anything. */
  lemma StartIsIdempotent(s: DriverState, first: Acquisition, second: Acquisition)
    requires Start(s, first).ok
    ensures Start(Start(s, first).next, second) == StartResult(Start(s, first).next, true, None)
  {
  }

  /**
   * A failed start() leaves nothing behind that blocks a later attempt: the
   * next start() with working calls succeeds and keeps the queued frames.
   */
  lemma RetryAfterFailedStart(s: DriverState, bad: Acquisition, good: Acquisition)
    requires !s.running && !Acquires(bad) && Acquires(good)
    ensures !Start(s, bad).ok && Start(s, bad).next.socketFd == NO_SOCKET
    ensures var retry := Start(Start(s, bad).next, good);
            retry.ok && retry.next == DriverState(true, good.socketRet, s.queue)
  {
  }

  /**
   * stop() followed by a successful start() replaces the descriptor without
   * closing the old one, and the frames queued before stop() are still there.
   */
  lemma RestartKeepsQueueAndDropsOldDescriptor(s: DriverState, acq: Acquisition)
    requires s.running && Acquires(acq)
    ensures var restart := Start(Stop(s), acq);
            restart.ok && restart.released == None &&
            restart.next.socketFd == acq.socketRet && restart.next.queue == s.queue
  {
  }
}
