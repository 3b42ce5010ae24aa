/**
 * Reference semantics of the SocketCAN driver with its threads, mutex and
 * condition variable stripped away: a record of the three pieces of state
 * (`running_`, `socket_fd_`, `send_queue_`) and one function per thing that
 * can happen to it. Every system call is replaced by the value it returned,
 * which the caller supplies.
 */
module DriverModel {
  import opened Wrappers
  import opened CanFrames

  /** Capacity of the transmit queue. */
  const MAX_QUEUE_SIZE: nat := 10000

  /** The value `socket_fd_` holds when the driver owns no descriptor. */
  const NO_SOCKET: int := -1

  /** errno values the receive loop treats as "no data yet" (equal on Linux). */
  const EAGAIN: int := 11
  const EWOULDBLOCK: int := 11

  /** What a POSIX call returns: -1 on failure, otherwise a descriptor, a count or flags. */
  type SysRet = x: int | x >= -1

  /** The driver's mutable state: `running_`, `socket_fd_` and `send_queue_` (front first). */
  datatype DriverState = DriverState(running: bool, socketFd: int, queue: seq<CanFrame>)

  /** A freshly constructed driver. */
  const INITIAL := DriverState(false, NO_SOCKET, [])

  /**
   * The invariant every reachable state keeps: the queue is within capacity,
   * and a running driver holds a descriptor that socket() handed out.
   */
  predicate Valid(s: DriverState)
  {
    |s.queue| <= MAX_QUEUE_SIZE && (s.running ==> s.socketFd >= 0)
  }

  // ---------------------------------------------------------------- start

  /** Results of the acquisition calls made by start(), in the order it makes them. */
  datatype Acquisition = Acquisition(
    socketRet: SysRet,    // socket(PF_CAN, SOCK_RAW, CAN_RAW)
    ioctlRet: SysRet,     // ioctl(fd, SIOCGIFINDEX, ...)
    bindRet: SysRet,      // bind(fd, ...)
    getFlagsRet: SysRet,  // fcntl(fd, F_GETFL, 0)
    setFlagsRet: SysRet)  // fcntl(fd, F_SETFL, flags | O_NONBLOCK), made only if F_GETFL succeeded

  /** Every acquisition step succeeded. */
  predicate Acquires(acq: Acquisition)
  {
    acq.socketRet >= 0 && acq.ioctlRet >= 0 && acq.bindRet >= 0 &&
    acq.getFlagsRet != -1 && acq.setFlagsRet != -1
  }

  /** The new state, start()'s return value, and the descriptor it passed to close(), if any. */
  datatype StartResult = StartResult(next: DriverState, ok: bool, released: Option<int>)

  function Start(s: DriverState, acq: Acquisition): (r: StartResult)
    // already running: success, and nothing changes
    ensures s.running ==> r == StartResult(s, true, None)
    // from stopped: success exactly when every acquisition step succeeds
    ensures !s.running ==> (r.ok <==> Acquires(acq))
    ensures r.next.running <==> r.ok
    ensures r.next.queue == s.queue
    ensures !s.running && r.ok ==> r.next.socketFd == acq.socketRet >= 0 && r.released == None
    // on failure the descriptor is rolled back and whatever socket() opened is closed
    ensures !r.ok ==> r.next.socketFd == NO_SOCKET
    ensures !r.ok ==> r.released == (if acq.socketRet >= 0 then Some(acq.socketRet) else None)
    ensures Valid(s) ==> Valid(r.next)
  {
    if s.running then
      StartResult(s, true, None)
    else if acq.socketRet < 0 then
      // socket_fd_ is assigned socket()'s result (-1) and left there
      StartResult(s.(socketFd := acq.socketRet), false, None)
    else if acq.ioctlRet < 0 || acq.bindRet < 0 || acq.getFlagsRet == -1 || acq.setFlagsRet == -1 then
      StartResult(s.(socketFd := NO_SOCKET), false, Some(acq.socketRet))
    else
      StartResult(s.(running := true, socketFd := acq.socketRet), true, None)
  }

  // ---------------------------------------------------------------- stop

  /** stop(): clears the flag; the descriptor and the queued frames stay as they were. */
  function Stop(s: DriverState): (r: DriverState)
    ensures !r.running
    ensures r.socketFd == s.socketFd && r.queue == s.queue
    ensures Valid(s) ==> Valid(r)
  {
    s.(running := false)
  }

  // ---------------------------------------------------------------- destructor

  /** The final state and the descriptor passed to close(), if any. */
  datatype DestroyResult = DestroyResult(next: DriverState, released: Option<int>)

  /** The destructor: stop(), then close the descriptor unless it is -1. */
  function Destroy(s: DriverState): (r: DestroyResult)
    ensures !r.next.running
    ensures r.released.Some? <==> s.socketFd != NO_SOCKET
    ensures r.released.Some? ==> r.released.value == s.socketFd
  {
    var stopped := Stop(s);
    DestroyResult(stopped, if stopped.socketFd != NO_SOCKET then Some(stopped.socketFd) else None)
  }

  // ---------------------------------------------------------------- send

  /** The new state and send()'s return value. */
  datatype SendResult = SendResult(next: DriverState, ok: bool)

  function Send(s: DriverState, frame: CanFrame): (r: SendResult)
    // rejected exactly when stopped or full
    ensures r.ok <==> s.running && |s.queue| < MAX_QUEUE_SIZE
    // an accepted frame goes to the tail; a rejected call changes nothing
    ensures r.ok ==> r.next.queue == s.queue + [frame] && |r.next.queue| == |s.queue| + 1
    ensures !r.ok ==> r.next == s
    ensures r.next.running == s.running && r.next.socketFd == s.socketFd
    ensures Valid(s) ==> Valid(r.next)
  {
    if !s.running || |s.queue| >= MAX_QUEUE_SIZE then
      SendResult(s, false)
    else
      SendResult(s.(queue := s.queue + [frame]), true)
  }

  // ---------------------------------------------------------------- transmit loop

  /** A frame the transmit loop popped, and whether write() moved all of its bytes. */
  datatype Transmission = Transmission(frame: CanFrame, written: bool)

  /** The new state and the frame taken by this pass, if the loop made one. */
  datatype SendStepResult = SendStepResult(next: DriverState, sent: Option<Transmission>)

  /** The frames a pass took off the queue: none or one. */
  function TakenBy(sent: Option<Transmission>): seq<CanFrame>
  {
    if sent.Some? then [sent.value.frame] else []
  }

  /**
   * One pass of the inner drain loop of sendThread, given write()'s return
   * value. The loop runs only while the queue is non-empty and the driver is
   * running; otherwise the thread waits or exits and nothing changes.
   */
  function SendStep(s: DriverState, writeRet: SysRet): (r: SendStepResult)
    ensures r.sent.Some? <==> s.running && s.queue != []
    // the front frame is taken; it is counted written only if write() moved a whole frame
    ensures r.sent.Some? ==> r.sent.value.frame == s.queue[0] &&
                             (r.sent.value.written <==> writeRet == CAN_FRAME_SIZE)
    // the frame leaves the queue whether or not the write succeeded: never requeued
    ensures s.queue == TakenBy(r.sent) + r.next.queue
    ensures r.next.running == s.running && r.next.socketFd == s.socketFd
    ensures Valid(s) ==> Valid(r.next)
  {
    if !s.running || s.queue == [] then
      SendStepResult(s, None)
    else
      var frame := s.queue[0];
      SendStepResult(s.(queue := s.queue[1..]), Some(Transmission(frame, writeRet == CAN_FRAME_SIZE)))
  }

  // ---------------------------------------------------------------- receive loop

  /** poll()'s return value and whether `revents` has POLLIN set. */
  datatype PollResult = PollResult(ret: SysRet, readable: bool)

  /** read()'s return value, errno after it, and the bytes it filled in. */
  datatype ReadResult = ReadResult(nbytes: SysRet, errno: int, frame: CanFrame)

  /** What one iteration of recvThread does. */
  datatype RecvOutcome =
    | Delivered(frame: CanFrame)   // the callback is invoked once with this frame
    | ReadErrorLogged(errno: int)  // a failed read other than "would block" is logged
    | PollErrorLogged              // a failed poll is logged
    | Quiet                        // nothing observable happens

  /** poll() reported the socket readable, so the iteration reads. */
  predicate PollReady(poll: PollResult)
  {
    poll.ret > 0 && poll.readable
  }

  /** The read moved exactly one whole frame. */
  predicate CompleteRead(read: ReadResult)
  {
    read.nbytes == CAN_FRAME_SIZE
  }

  /**
   * The decision one iteration of recvThread makes from poll()'s and read()'s
   * results; `read` matters only when poll() reported the socket readable.
   */
  function RecvDecision(poll: PollResult, read: ReadResult, hasCallback: bool): (o: RecvOutcome)
    // the callback fires exactly for a readable socket, a whole frame and a set callback
    ensures o.Delivered? <==> PollReady(poll) && CompleteRead(read) && hasCallback
    ensures o.Delivered? ==> o.frame == read.frame
    // a read error is logged only if poll said readable and errno is not "would block"
    ensures o.ReadErrorLogged? <==>
              PollReady(poll) && read.nbytes < 0 && read.errno != EAGAIN && read.errno != EWOULDBLOCK
    ensures o.ReadErrorLogged? ==> o.errno == read.errno
    ensures o.PollErrorLogged? <==> poll.ret < 0
    // in particular a short read (0 <= n < 16) is silent
    ensures PollReady(poll) && 0 <= read.nbytes < CAN_FRAME_SIZE ==> o == Quiet
  {
    if PollReady(poll) then
      if CompleteRead(read) then
        if hasCallback then Delivered(read.frame) else Quiet
      else if read.nbytes < 0 && read.errno != EAGAIN && read.errno != EWOULDBLOCK then
        ReadErrorLogged(read.errno)
      else
        Quiet
    else if poll.ret < 0 then
      PollErrorLogged
    else
      Quiet
  }

  // ---------------------------------------------------------------- interleavings

  /** Anything that can happen next: a caller's call, or one pass of either loop. */
  datatype Event =
    | StartCall(acq: Acquisition)
    | StopCall
    | SendCall(frame: CanFrame)
    | SendLoopPass(writeRet: SysRet)
    | RecvLoopPass(poll: PollResult, read: ReadResult)

  /** What an event produced. `Received(None)` means the receive loop is not iterating. */
  datatype Output =
    | Started(ok: bool, released: Option<int>)
    | Stopped
    | Submitted(frame: CanFrame, accepted: bool)
    | Drained(sent: Option<Transmission>)
    | Received(outcome: Option<RecvOutcome>)

  datatype StepResult = StepResult(next: DriverState, out: Output)

  /** The frames an output added to the queue. */
  function AcceptedBy(out: Output): seq<CanFrame>
  {
    if out.Submitted? && out.accepted then [out.frame] else []
  }

  /** The frames an output took off the queue. */
  function TakenByOutput(out: Output): seq<CanFrame>
  {
    if out.Drained? then TakenBy(out.sent) else []
  }

  /** The frames an output handed to the receive callback. */
  function DeliveredBy(out: Output): seq<CanFrame>
  {
    if out.Received? && out.outcome.Some? && out.outcome.value.Delivered? then [out.outcome.value.frame] else []
  }

  /** The receive loop iterates only while the driver is running. */
  function RecvPass(s: DriverState, poll: PollResult, read: ReadResult, hasCallback: bool): (o: Option<RecvOutcome>)
    ensures o.None? <==> !s.running
    // while running, the iteration makes exactly RecvDecision's choice
    ensures o.Some? ==> o.value == RecvDecision(poll, read, hasCallback)
    // so a whole frame read on a readable socket with a callback set is delivered
    ensures s.running && PollReady(poll) && CompleteRead(read) && hasCallback ==> o == Some(Delivered(read.frame))
    ensures o.Some? && o.value.Delivered? ==> o.value.frame == read.frame && CompleteRead(read)
  {
    if s.running then Some(RecvDecision(poll, read, hasCallback)) else None
  }

  /** One event applied to a state; `hasCallback` says whether the receive callback is set. */
  function Step(hasCallback: bool, s: DriverState, e: Event): (r: StepResult)
    // frames leave the queue in the order they entered it
    ensures s.queue + AcceptedBy(r.out) == TakenByOutput(r.out) + r.next.queue
    ensures Valid(s) ==> Valid(r.next)
    // a stopped driver that is not restarted moves no frame and invokes no callback
    ensures !s.running && !e.StartCall? ==>
              r.next == s.(running := false) && TakenByOutput(r.out) == [] &&
              AcceptedBy(r.out) == [] && DeliveredBy(r.out) == []
  {
    match e
    case StartCall(acq) =>
      var st := Start(s, acq);
      StepResult(st.next, Started(st.ok, st.released))
    case StopCall =>
      StepResult(Stop(s), Stopped)
    case SendCall(frame) =>
      var sr := Send(s, frame);
      StepResult(sr.next, Submitted(frame, sr.ok))
    case SendLoopPass(writeRet) =>
      var ss := SendStep(s, writeRet);
      StepResult(ss.next, Drained(ss.sent))
    case RecvLoopPass(poll, read) =>
      StepResult(s, Received(RecvPass(s, poll, read, hasCallback)))
  }

  /** The final state and the outputs of a sequence of events, in order. */
  datatype RunResult = RunResult(final: DriverState, outs: seq<Output>)

  function Run(hasCallback: bool, s: DriverState, events: seq<Event>): (r: RunResult)
    ensures |r.outs| == |events|
    decreases |events|
  {
    if events == [] then
      RunResult(s, [])
    else
      var first := Step(hasCallback, s, events[0]);
      var rest := Run(hasCallback, first.next, events[1..]);
      RunResult(rest.final, [first.out] + rest.outs)
  }

  /** All frames accepted by send() over a run, in order. */
  function AcceptedFrames(outs: seq<Output>): seq<CanFrame>
  {
    if outs == [] then [] else AcceptedBy(outs[0]) + AcceptedFrames(outs[1..])
  }

  /** All frames the transmit loop took off the queue over a run, in order. */
  function TakenFrames(outs: seq<Output>): seq<CanFrame>
  {
    if outs == [] then [] else TakenByOutput(outs[0]) + TakenFrames(outs[1..])
  }

  /** All frames handed to the receive callback over a run, in order. */
  function DeliveredFrames(outs: seq<Output>): seq<CanFrame>
  {
    if outs == [] then [] else DeliveredBy(outs[0]) + DeliveredFrames(outs[1..])
  }
}
