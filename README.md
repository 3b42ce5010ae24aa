# SocketCAN driver model

A Dafny model of `SocketCanDriver`, a small C++ driver that connects a
process to one Linux SocketCAN interface. The driver opens a raw CAN socket,
runs a receive thread and a transmit thread, and buffers outgoing frames in
a bounded FIFO queue. When the queue is full it rejects new frames instead
of blocking (back-pressure by rejection).

With threads, locking and system calls removed, the driver is a small state
machine over three fields:

- `running_`, modelled as `running`;
- `socket_fd_`, modelled as `socketFd`;
- `send_queue_`, modelled as `sendQueue` / `queue`.

Files:

- `can_frame.dfy` (module `CanFrames`): `struct can_frame` as an opaque value.
  It holds a 32-bit identifier, an 8-bit length code and 8 data bytes.
  `CAN_FRAME_SIZE` is 16, the size of the struct on Linux. The driver never
  checks the length code, so the model does not either.
- `driver_model.dfy` (module `DriverModel`): the reference semantics.
  - `DriverState` holds the three fields, and `INITIAL` is a new driver's state.
  - There is one function per operation: `Start`, `Stop`, `Send`, `Destroy`,
    `SendStep` (one pass of the transmit drain loop) and `RecvDecision` (one
    iteration of the receive loop).
  - `Step` and `Run` replay any interleaving of caller calls and whole loop
    passes, each pass taken as one indivisible step. Races inside a pass,
    such as a lost wakeup, are not captured (see "Left out").
- `driver_properties.dfy` (module `DriverProperties`): lemmas over whole runs.
  They cover FIFO conservation, the queue bound, quiescence after `stop`, the
  capacity scenario, receive delivery, idempotence and rollback.
- `socketcan_driver.dfy` (module `SocketCan`): the class `SocketCanDriver`.
  Its methods update the fields in place and are proved to match
  `DriverModel` exactly. `Drain` runs the inner drain loop with a `while`
  loop and its invariants.

Each system call becomes the value it returned, passed in as a parameter:

- `socket`, `ioctl(SIOCGIFINDEX)`, `bind` and both `fcntl` calls, as an `Acquisition`;
- `poll` and `read`, as a `PollResult` and a `ReadResult`;
- `write`, as an integer.

These values have type `SysRet`: -1 or a non-negative number, as POSIX
specifies. The descriptor that a call hands to `close()` is reported as
`released`.

The model follows the code as written; in particular:

- `stop` neither closes the socket nor clears the queue. Only the
  destructor closes the socket (`socketcan_driver.cpp:69-78`, `12-17`).
- A later `start` overwrites `socket_fd_` without closing the old
  descriptor (`socketcan_driver.cpp:25`).
- A short read of 0 to 15 bytes is silently ignored, not reported
  (`socketcan_driver.cpp:100-106`).
- The data length code is never checked against 8.

## Model

| member | source | states |
|---|---|---|
| DriverModel.Start | socketcan_driver.cpp:19-67 | When running, returns true and nothing changes. When stopped, it succeeds exactly when every acquisition step succeeds, and then running is set and the new descriptor kept. Any failure leaves running false and the descriptor at -1, and closes whatever socket() opened. The queue is untouched, and the invariant is kept. |
| DriverModel.Stop | socketcan_driver.cpp:69-78 | Running becomes false. The descriptor and the queued frames stay the same. |
| DriverModel.Destroy | socketcan_driver.hpp:32-35 | The driver ends up stopped. The descriptor is closed exactly when it is not -1, and the value closed is that descriptor. |
| DriverModel.Send | socketcan_driver.hpp:48-53 | Returns true exactly when running with fewer than MAX_QUEUE_SIZE frames queued. An accepted frame is appended at the tail, so the length grows by one. A rejected call changes nothing. The queue bound is kept. |
| DriverModel.SendStep | socketcan_driver.cpp:118-130 | A pass happens exactly when running with a non-empty queue. It takes the front frame and marks it written only if write() returned 16. The frame leaves the queue either way and is never requeued. |
| DriverModel.RecvDecision | socketcan_driver.cpp:96-109 | The callback fires exactly when poll reported POLLIN, read returned 16 bytes and a callback is set, and then it gets the frame read. A read error is logged exactly for a negative read whose errno is not EAGAIN/EWOULDBLOCK. A poll error is logged exactly when poll returned -1. A short read is silent. |
| DriverModel.RecvPass | socketcan_driver.cpp:95-110 | The receive loop iterates exactly while running. A running iteration makes exactly RecvDecision's choice: delivery, read-error logging, poll-error logging or nothing. In particular, a whole frame read from a readable socket while a callback is set is delivered, and only whole frames are ever delivered. |
| DriverModel.Step | socketcan_driver.cpp:80-132 | For every event, the old queue plus what was accepted equals what was taken plus the new queue. Validity is kept. A stopped driver that is not restarted accepts, takes and delivers nothing. |
| DriverProperties.RunPreservesValid | socketcan_driver.cpp:25-85 | Over any interleaving, the queue never exceeds MAX_QUEUE_SIZE (10000); the bound comes from the size check in send (lines 82-85). A running driver always holds a non-negative descriptor; this comes from start, which sets running only after socket() returned a non-negative value (lines 25-26 and 62). |
| DriverProperties.RunIsFifo | socketcan_driver.cpp:80-130 | Over any interleaving, the initial queue followed by the accepted frames equals the taken frames followed by the final queue. No frame is lost, duplicated, reordered or requeued. |
| DriverProperties.TakenInSubmissionOrder | socketcan_driver.cpp:118-128 | Starting from an empty queue, the frames the transmit loop takes are a prefix of the frames send() accepted. |
| DriverProperties.StoppedRunIsQuiet | socketcan_driver.cpp:69-132 | After stop and until the next start, every send is rejected. The transmit loop takes nothing, the callback is never invoked, and the state is unchanged. |
| DriverProperties.SendsWithinCapacityAreAccepted | socketcan_driver.cpp:80-88 | While there is room, every send on a running driver is accepted, and the frames are appended in order. |
| DriverProperties.CapacityIsEnforced | socketcan_driver.cpp:82-84 | From an empty running queue, MAX_QUEUE_SIZE sends are all accepted. The next send is rejected and the state is left unchanged. |
| DriverProperties.ReceivedFramesAreDelivered | socketcan_driver.cpp:95-110 | Receive passes never change the state. While running with a callback set, the callback gets exactly the whole frames read, in read order. Otherwise it gets nothing. |
| DriverProperties.StopIsIdempotent | socketcan_driver.cpp:69-78 | Calling stop twice has the same effect as calling it once. |
| DriverProperties.StartIsIdempotent | socketcan_driver.cpp:19-22 | After a successful start, a second start returns true and changes nothing. |
| DriverProperties.RetryAfterFailedStart | socketcan_driver.cpp:35-60 | A failed start leaves the descriptor at -1. A later start with working calls succeeds and keeps the queued frames. |
| DriverProperties.RestartKeepsQueueAndDropsOldDescriptor | socketcan_driver.cpp:25-66 | Stop followed by start replaces the descriptor without closing the old one. Frames queued before stop are still queued. |
| SocketCan.SocketCanDriver.constructor | socketcan_driver.hpp:63-67 | A new driver is not running, has descriptor -1 and has an empty queue. |
| SocketCan.SocketCanDriver.Start | socketcan_driver.cpp:19-67 | The step-by-step acquisition with its early returns leaves exactly the state, result and closed descriptor that DriverModel.Start gives. |
| SocketCan.SocketCanDriver.Stop | socketcan_driver.cpp:69-78 | The new state is DriverModel.Stop of the old one. |
| SocketCan.SocketCanDriver.Send | socketcan_driver.cpp:80-88 | The new queue and the result are those of DriverModel.Send. |
| SocketCan.SocketCanDriver.SendStep | socketcan_driver.cpp:118-129 | Pops the front and writes it, matching DriverModel.SendStep. |
| SocketCan.SocketCanDriver.Drain | socketcan_driver.cpp:118-130 | Run to completion, a running driver empties its queue. The k-th frame taken is the k-th frame queued, marked written only if the k-th write returned 16. A stopped driver takes nothing. |
| SocketCan.SocketCanDriver.RecvStep | socketcan_driver.cpp:95-109 | Returns no outcome exactly when stopped. Otherwise it returns DriverModel.RecvDecision's outcome, and a delivery carries the frame read. |
| SocketCan.SocketCanDriver.Destroy | socketcan_driver.cpp:12-17 | Stops the driver, then closes the descriptor exactly when it is not -1, as DriverModel.Destroy says. |

## Left out

- Threads and synchronisation (`std::thread`, the mutex, the condition variable, `std::atomic`, join and notify). The two loops appear as single passes (`SendStep`, `RecvStep`), and concurrency as arbitrary interleavings of events in `DriverModel.Run`. A pass is atomic in the model. In the code, `running_` can change between the drain loop's guard and its write.
- DriverModel.Stop and SocketCan.SocketCanDriver.Stop always complete in the model, but the code can hang. `stop()` clears `running_` and calls `notify_all()` without holding `send_mutex_` (socketcan_driver.cpp:70-71). If that happens after `sendThread` has checked its wait predicate under the lock (queue empty, still running; lines 115-116) but before it blocks, the notification is lost. `sendThread` then never wakes, and `stop()` (and so the destructor) waits forever in `join()` (lines 75-76, 13). The interleaving model treats each loop pass and each call as indivisible, so it cannot express this. `DriverProperties.StoppedRunIsQuiet` describes the state after `stop()` has returned.
- The condition-variable wait in `sendThread` and the outer `while (running_)` loop. A pass whose guard is false is modelled as "no pass".
- Starting the threads is represented only by `running` becoming true. The `std::thread` handles and their joinability are not state in the model.
- The system calls themselves, and poll's 10 ms timeout. Their results are parameters. `pollfd.fd` is captured once when the receive thread starts; this is not modelled, and the poll result is given directly.
- Log output (`std::cerr`, `strerror`). Only the fact that an error is logged is recorded, as `ReadErrorLogged` or `PollErrorLogged`. A failed or short write is reported as `written == false`.
- The callback's body. Only whether it is invoked, and with which frame, is modelled.
- The bit layout of `can_frame`, `sockaddr_can` and `ifreq`, and the truncation of the interface name to IFNAMSIZ. The interface name is kept but not interpreted, and the SIOCGIFINDEX lookup is only its return value.
- `test_socketcan.cpp`, a demonstration program with signal handling, printing and sleeps.
- SocketCan.SocketCanDriver.Drain: it requires one write result per queued frame and assumes no `send` or `stop` runs concurrently. Interleaved behaviour is covered by `DriverModel.Run` instead.
