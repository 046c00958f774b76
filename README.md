# Heartbeat and reconnect loop of the daisy_cv link client

This project models the connection thread of the daisy_cv Android vision
client. The thread keeps the link to the robot controller alive. Each
iteration of its `while (client.isEnabled())` loop does three things in order:

1. It calls `tryConnecting` when no live socket is installed and the client
   is not marked connected.
2. It offers a heartbeat to the bounded outbound queue when more than 100 ms
   have passed since the last send. It then moves the send time to "now",
   whatever the offer returned.
3. It compares `|lastReceived - lastSent|` with 800 ms. Above 800 it notifies
   "disconnected" if the client is connected. Below 800 it notifies
   "connected" if the client is not connected.

The receiver pathway overwrites the receive time through
`updateLastReceivedHeartbeatTime`.

Files:
- `client.dfy` (module `ClientModel`) holds the parts of the Client that the
  loop touches: the `enabled` flag, the `connected` verdict, a `socketUp` flag
  standing for "socket present and connected", and the bounded queue. The
  queue is a `seq` with a capacity, and `Offer` appends only when there is room.
- `connection.dfy` (module `Connection`) holds the pure specification and the
  class. `Step` is one iteration over a value `Link`. `Apply` and `Replay`
  run a history of events: iterations, received heartbeats, producer offers,
  the transmit pathway taking a message, the socket dropping, and the client
  being disabled. The class
  `ConnectionThread` is the imperative loop. Its `Tick` and `Run` methods are
  proved equal to `Step` and `Replay`.
- `connection_properties.dfy` (module `ConnectionProperties`) holds the
  lemmas: the rules of one iteration, and properties of whole histories
  proved by induction.

The clock reading and the outcome of a connect attempt are parameters of each
iteration (`Moment(now, connectSucceeds)`). Time is unbounded `int`.

Two consequences of the code as written:
- The code notifies "connected" only on a gap strictly below 800
  (`ConnectionThread.java:51`), although the intended rule reads as
  "gap at most 800". A gap of exactly 800 changes nothing.
- A silent peer is guaranteed to be judged disconnected once the clock is
  more than 900 ms past its last heartbeat (`SilentPeerIsDisconnected`); 850 ms is not always enough (`SilenceOf850IsNotEnough`).
  Depending on when the last heartbeat was sent, this can happen as early as
  801 ms. The send time can lag the clock by up to 100 ms, because a
  heartbeat is sent only when more than 100 ms have passed.

## Model

| member | source | states |
|---|---|---|
| `Connection.ConnectionThread.constructor` | app/src/main/java/com/team341/daisycv/communication/client/ConnectionThread.java:14-19 | The send time starts at the clock reading at construction; the receive time starts at 0. |
| `Connection.ConnectionThread.UpdateLastReceivedHeartbeatTime` | app/src/main/java/com/team341/daisycv/communication/client/ConnectionThread.java:64-66 | Sets the receive time to the argument exactly, with no monotonicity check, and changes nothing else. |
| `Connection.ConnectionThread.Tick` | app/src/main/java/com/team341/daisycv/communication/client/ConnectionThread.java:24-56 | One loop body: the new client and thread state and the report equal the specification `Step`; the queue stays within capacity. |
| `Connection.ConnectionThread.Run` | app/src/main/java/com/team341/daisycv/communication/client/ConnectionThread.java:22-61 | The loop iterates while the client is enabled; its final state and per-iteration reports equal `Replay` of the clock readings. |
| `Connection.Gap` | app/src/main/java/com/team341/daisycv/communication/client/ConnectionThread.java:46 | The gap is the absolute difference of the receive and send times: at least each signed difference and equal to one of them. |
| `Connection.Step` | app/src/main/java/com/team341/daisycv/communication/client/ConnectionThread.java:25-54 | One iteration never writes the enabled flag, the capacity or the receive time, and keeps the queue within capacity; its branches are stated by the `Step*` lemmas below. |
| `Connection.Apply` | app/src/main/java/com/team341/daisycv/communication/client/ConnectionThread.java:22-66 | One event never changes the capacity; exactly a tick of an enabled client runs an iteration and reports once; no other event changes the connected verdict; only a tick moves the send time. |
| `Connection.Replay` | app/src/main/java/com/team341/daisycv/communication/client/ConnectionThread.java:22-66 | A history reports at most once per event and never changes the queue capacity. |
| `Connection.DisabledTicksAreIdle` | app/src/main/java/com/team341/daisycv/communication/client/ConnectionThread.java:23 | A disabled client's loop makes no connect attempt, no offer and no notification, and changes no state. |
| `ClientModel.Client.TryConnecting` | app/src/main/java/com/team341/daisycv/communication/client/ConnectionThread.java:27 | A connect attempt installs a live socket or leaves none; it never changes the connected verdict. |
| `ClientModel.Client.Offer` | app/src/main/java/com/team341/daisycv/communication/client/ConnectionThread.java:36-37 | The offer succeeds exactly when the queue is below capacity, and then appends the message at the tail. |
| `ClientModel.Client.NotifyDisconnected` | app/src/main/java/com/team341/daisycv/communication/client/ConnectionThread.java:48 | Clears the connected verdict and nothing else. |
| `ClientModel.Client.NotifyConnected` | app/src/main/java/com/team341/daisycv/communication/client/ConnectionThread.java:53 | Sets the connected verdict and nothing else. |
| `ConnectionProperties.StepReconnect` | app/src/main/java/com/team341/daisycv/communication/client/ConnectionThread.java:25-28 | A connect attempt happens exactly when the socket is not live and the client is not connected; a connected client is never reconnected, even with no socket. |
| `ConnectionProperties.StepHeartbeat` | app/src/main/java/com/team341/daisycv/communication/client/ConnectionThread.java:31-39 | A heartbeat is offered exactly when now - lastSent > 100; the send time then becomes now whether or not the queue took it; otherwise the send time and queue are unchanged. |
| `ConnectionProperties.StepLiveness` | app/src/main/java/com/team341/daisycv/communication/client/ConnectionThread.java:46-54 | Disconnect is notified exactly when the gap is above 800 and the client was connected; connect exactly when the gap is below 800 and it was not; never both. |
| `ConnectionProperties.StepExactThresholdKeepsVerdict` | app/src/main/java/com/team341/daisycv/communication/client/ConnectionThread.java:46-54 | A gap of exactly 800 triggers neither notification and leaves the verdict as it was. |
| `ConnectionProperties.StepVerdictFollowsGap` | app/src/main/java/com/team341/daisycv/communication/client/ConnectionThread.java:46-54 | When the gap is not 800, the verdict after an iteration is "gap below 800". |
| `ConnectionProperties.StepSendTimeIsRecent` | app/src/main/java/com/team341/daisycv/communication/client/ConnectionThread.java:31-39 | After an iteration the send time is at most 100 ms behind the clock, and not ahead of it if it was not before. |
| `ConnectionProperties.SilentPeerIsDisconnected` | app/src/main/java/com/team341/daisycv/communication/client/ConnectionThread.java:31-54 | If the last received heartbeat is more than 900 ms old, the iteration leaves the client disconnected. |
| `ConnectionProperties.ChattyPeerStaysConnected` | app/src/main/java/com/team341/daisycv/communication/client/ConnectionThread.java:31-54 | If the last received heartbeat is within 700 ms of the clock and the clock has not gone back, the iteration leaves the client connected and never notifies disconnection. |
| `ConnectionProperties.DisabledStaysIdle` | app/src/main/java/com/team341/daisycv/communication/client/ConnectionThread.java:23 | Once disabled, the client stays disabled whatever else happens, and its loop runs no further iteration. |
| `ConnectionProperties.NoIterationAfterDisable` | app/src/main/java/com/team341/daisycv/communication/client/ConnectionThread.java:23 | In any history, nothing after a Disable event produces an iteration: the reports are those of the history before it. |
| `ConnectionProperties.TicksKeepReceiveTime` | app/src/main/java/com/team341/daisycv/communication/client/ConnectionThread.java:22-61 | The loop never writes the receive time, and an enabled loop makes one iteration per clock reading. |
| `ConnectionProperties.ReplayQueueBounded` | app/src/main/java/com/team341/daisycv/communication/client/ConnectionThread.java:36-37 | Whatever producers, the transmit pathway and the loop do, the queue never exceeds its capacity. |
| `ConnectionProperties.TicksQueue` | app/src/main/java/com/team341/daisycv/communication/client/ConnectionThread.java:33-39 | The loop alone keeps the messages already queued in order and adds heartbeats at the tail, one per accepted offer. |
| `ConnectionProperties.ReplayNotifiesAtMostOnce` | app/src/main/java/com/team341/daisycv/communication/client/ConnectionThread.java:46-54 | No iteration of any history notifies both connected and disconnected (iterations are atomic; see Left out). |
| `ConnectionProperties.HeartbeatCadence` | app/src/main/java/com/team341/daisycv/communication/client/ConnectionThread.java:31-39 | Consecutive heartbeat offers are more than 100 ms apart, the first more than 100 ms after the initial send time, and the final send time is the last offer's time. |
| `ConnectionProperties.VerdictStandsWithoutIteration` | app/src/main/java/com/team341/daisycv/communication/client/ConnectionThread.java:46-54 | A stretch of any history in which no iteration runs leaves the connected verdict as it was: only the notify calls inside an iteration change it. |
| `ConnectionProperties.ConnectedReflectsLastEvaluation` | app/src/main/java/com/team341/daisycv/communication/client/ConnectionThread.java:46-54 | In any history, after the most recent iteration of a still enabled client and whatever non-iteration events follow, the client is connected if that evaluation's gap was below 800 and disconnected if above; a gap of exactly 800 keeps the earlier verdict. |
| `ConnectionProperties.SilenceOf850IsNotEnough` | app/src/main/java/com/team341/daisycv/communication/client/ConnectionThread.java:31-54 | A peer silent for 850 ms can still be judged connected (last send at 750, no heartbeat due, gap 750), so 800 ms of silence does not guarantee disconnection. |

## Left out

- Sleeps (`Thread.sleep(250)` after a reconnect attempt and `Thread.sleep(100)` per iteration) are dropped. The clock is a parameter of each iteration, so real-time cadence and shutdown latency are not modelled.
- The swallowed `InterruptedException` is not modelled. Catching it lets the loop go on to the next iteration, and the model has no interruption.
- `synchronized` access and the threads themselves are not modelled. A history interleaves whole iterations with the other threads' events; no event lands inside an iteration.
- ConnectionProperties.ReplayNotifiesAtMostOnce and ConnectionProperties.StepLiveness assume the receive time does not change during an iteration. The code reads it twice without synchronisation (lines 46 and 51), so a heartbeat recorded between the two reads could fire both notifications in one iteration; the model does not capture that interleaving.
- Connection.ConnectionThread.Run runs the loop with no other thread active, so its `enabled` guard can only stop it before the first iteration. Histories where the client is disabled, heartbeats arrive, producers offer, the transmit pathway takes a message or the socket drops between iterations are covered by `Replay` and the lemmas about it, not by `Run`.
- A producer's `Enqueue` event and the transmit pathway's `Take` event stand for the Client's queue operations, whose source is not part of this model; `Take` removes the oldest message.
- Java `long` overflow in the subtraction and in `Math.abs` is not modelled: timestamps are unbounded integers.
- Logging calls are left out.
- ClientModel.Client.Offer: the 100 ms timed wait for space is not modelled. The offer succeeds exactly when the queue is below capacity at the call, because no consumer drains the queue during the wait in this model.
- The Client's own source (the socket connect, the listener fan-out in the notify methods, the queue's consumer) is not part of this model. These operations are state updates only; the outcome of a connect attempt is a parameter.
- The heartbeat singleton and message serialisation are not part of this model; a heartbeat is an opaque queue element.
- CameraView.java and CameraActivity.java (camera, GL, native image processing, Android lifecycle and UI) are outside the connection loop and are not modelled.
