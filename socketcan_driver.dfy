/**
 * The driver object. Its three mutable fields are updated in place by the
 * public calls and by single passes of the two loops; each method is proved
 * to move the object exactly as the reference semantics in DriverModel says.
 * Threads, locking and the system calls themselves are not modelled: a
 * call's result arrives as a parameter.
 */
module SocketCan {
  import opened Wrappers
  import opened CanFrames
  import DriverModel

  class SocketCanDriver {
    /** Name of the CAN interface, handed to the SIOCGIFINDEX lookup. */
    const interfaceName: string
    /** Whether the receive callback is set (an empty std::function is not called). */
    const hasCallback: bool

    var socketFd: int
    var running: bool
    /** Frames awaiting transmission, front first. */
    var sendQueue: seq<CanFrame>

    /** The abstract state of this driver. */
    function State(): DriverModel.DriverState
      reads this
    {
      DriverModel.DriverState(running, socketFd, sendQueue)
    }

    ghost predicate Valid()
      reads this
    {
      DriverModel.Valid(State())
    }

    /** A new driver: stopped, no descriptor, nothing queued. */
    constructor (interfaceName: string, hasCallback: bool)
      ensures Valid()
      ensures State() == DriverModel.INITIAL
      ensures this.interfaceName == interfaceName && this.hasCallback == hasCallback
    {
      this.interfaceName := interfaceName;
      this.hasCallback := hasCallback;
      socketFd := DriverModel.NO_SOCKET;
      running := false;
      sendQueue := [];
    }

    /**
     * Open the socket, resolve the interface, bind and switch to non-blocking
     * mode, stopping at the first failing step; `released` is the descriptor
     * passed to close() while rolling back.
     */
    method Start(acq: DriverModel.Acquisition) returns (ok: bool, released: Option<int>)
      requires Valid()
      modifies this
      ensures Valid()
      ensures DriverModel.Start(old(State()), acq) == DriverModel.StartResult(State(), ok, released)
    {
      released := None;
      if running {
        return true, None;
      }

      socketFd := acq.socketRet;
      if socketFd < 0 {
        return false, None;
      }

      if acq.ioctlRet < 0 {
        released := Some(socketFd);
        socketFd := DriverModel.NO_SOCKET;
        return false, released;
      }

      if acq.bindRet < 0 {
        released := Some(socketFd);
        socketFd := DriverModel.NO_SOCKET;
        return false, released;
      }

      var flags := acq.getFlagsRet;
      if flags == -1 || acq.setFlagsRet == -1 {
        released := Some(socketFd);
        socketFd := DriverModel.NO_SOCKET;
        return false, released;
      }

      running := true;
      ok := true;
    }

    /** Clear the running flag; the descriptor and the queue are left as they are. */
    method Stop()
      requires Valid()
      modifies this
      ensures Valid()
      ensures State() == DriverModel.Stop(old(State()))
    {
      running := false;
    }

    /** Enqueue a frame unless stopped or full; never blocks for room. */
    method Send(frame: CanFrame) returns (ok: bool)
      requires Valid()
      modifies this
      ensures Valid()
      ensures DriverModel.Send(old(State()), frame) == DriverModel.SendResult(State(), ok)
    {
      if !running || |sendQueue| >= DriverModel.MAX_QUEUE_SIZE {
        return false;
      }
      sendQueue := sendQueue + [frame];
      ok := true;
    }

    /**
     * One pass of sendThread's drain loop: pop the front frame, then write it;
     * a short or failed write drops the frame. `sent` is None when the loop
     * does not run (queue empty or driver stopped).
     */
    method SendStep(writeRet: DriverModel.SysRet) returns (sent: Option<DriverModel.Transmission>)
      requires Valid()
      modifies this
      ensures Valid()
      ensures DriverModel.SendStep(old(State()), writeRet) == DriverModel.SendStepResult(State(), sent)
    {
      if sendQueue == [] || !running {
        return None;
      }
      var frame := sendQueue[0];
      sendQueue := sendQueue[1..];
      var nbytes := writeRet;
      sent := Some(DriverModel.Transmission(frame, nbytes == CAN_FRAME_SIZE));
    }

    /**
     * The inner drain loop of sendThread run until it stops, with no send()
     * or stop() interleaved: `writeRets[k]` is what write() returns for the
     * k-th frame popped. A running driver empties its queue, front first,
     * each frame marked written only if write() moved all of its bytes; a
     * stopped one takes nothing.
     */
    method Drain(writeRets: seq<DriverModel.SysRet>) returns (sent: seq<DriverModel.Transmission>)
      requires Valid()
      requires |writeRets| >= |sendQueue|
      modifies this
      ensures Valid()
      ensures running == old(running) && socketFd == old(socketFd)
      ensures old(running) ==> sendQueue == [] && |sent| == |old(sendQueue)|
      ensures old(running) ==> forall k | 0 <= k < |sent| ::
                sent[k] == DriverModel.Transmission(old(sendQueue)[k], writeRets[k] == CAN_FRAME_SIZE)
      ensures !old(running) ==> sendQueue == old(sendQueue) && sent == []
    {
      sent := [];
      var i := 0;
      while sendQueue != [] && running
        invariant Valid()
        invariant running == old(running) && socketFd == old(socketFd)
        invariant 0 <= i <= |old(sendQueue)|
        invariant sendQueue == old(sendQueue)[i..]
        invariant |sent| == i
        invariant forall k | 0 <= k < i ::
                    sent[k] == DriverModel.Transmission(old(sendQueue)[k], writeRets[k] == CAN_FRAME_SIZE)
        invariant !running ==> i == 0
        decreases |sendQueue|
      {
        var t := SendStep(writeRets[i]);
        sent := sent + [t.value];
        i := i + 1;
      }
    }

    /**
     * One iteration of recvThread, given poll()'s and read()'s results; None
     * when the loop does not iterate because the driver is stopped. The
     * driver's state is not changed.
     */
    method RecvStep(poll: DriverModel.PollResult, read: DriverModel.ReadResult)
      returns (outcome: Option<DriverModel.RecvOutcome>)
      ensures outcome.None? <==> !running
      ensures outcome.Some? ==> outcome.value == DriverModel.RecvDecision(poll, read, hasCallback)
      ensures outcome.Some? && outcome.value.Delivered? ==>
                hasCallback && outcome.value.frame == read.frame && DriverModel.CompleteRead(read)
    {
      if !running {
        return None;
      }
      var o := DriverModel.Quiet;
      if poll.ret > 0 && poll.readable {
        var nbytes := read.nbytes;
        if nbytes == CAN_FRAME_SIZE {
          if hasCallback {
            o := DriverModel.Delivered(read.frame);
          }
        } else if nbytes < 0 && read.errno != DriverModel.EAGAIN && read.errno != DriverModel.EWOULDBLOCK {
          o := DriverModel.ReadErrorLogged(read.errno);
        }
      } else if poll.ret < 0 {
        o := DriverModel.PollErrorLogged;
      }
      outcome := Some(o);
    }

    /** The destructor: stop(), then close the descriptor if it is not -1. */
    method Destroy() returns (released: Option<int>)
      requires Valid()
      modifies this
      ensures DriverModel.Destroy(old(State())) == DriverModel.DestroyResult(State(), released)
    {
      Stop();
      released := None;
      if socketFd != DriverModel.NO_SOCKET {
        released := Some(socketFd);
      }
    }
  }
}
