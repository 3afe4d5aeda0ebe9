# AI Fleet monitoring: frame pipeline and mode switching

A Dafny model of the decision logic in `ai_fleet.py` of AI-Fleet-Monitoring. This
is the part of the program that runs on a vehicle, takes frames from three
cameras, republishes them to a dashboard and raises alerts. The model covers:

- **FrameLink** (`frame_link.dfy`): the `Queue(1)` links between threads. Every
  writer puts with "if full, drop the waiting frame, then put". `Link` is the
  queue as a class. `Apply`/`Run` give the meaning of a sequence of puts and
  gets.
- **Camera** (`camera.dfy`): the camera thread `Cam`, with the fields `cap` and
  `running`, `init`, `stop`, one pass of the `run` loop (`Step`) and the loop
  itself (`Run`). `Tick` and `Trace` give the meaning of passes and stops
  interleaved.
- **Stages** (`stages.dfy`): `second_loop`, with the drowsiness debounce in
  driver mode and the intrusion alert in cargo mode, and `road_loop`.
  `DriverStep`, `SecondaryStep` and `SecondaryTrace` give the meaning of one
  frame and of a run of frames.
- **ModeControl** (`mode_control.dfy`): the global `MODE` and `secondary_thread`,
  `switch_secondary_camera` and the `/set/<mode>` handler `set_mode`.
  Every source appends to a shared ghost log of claims on the secondary slot:
  a bind when it is created and an unbind when it is stopped. The log shows
  that a new secondary source is created only after the old one was stopped.
- **Events** (`events.dfy`) and **Fleet** (`fleet.dfy`): what `send_alert` and
  `log_event` hand to their transports (an ordered list of events), the camera
  indices, the modes and their names.

Inputs of the model:

- Hardware answers: whether a device opens, and what a read returns. These are
  parameters: `Probe`, and `opens`.
- Vision results: a function from a frame to an `Observation`. An observation
  holds the eye-aspect ratio averaged over both eyes, if a face is found, and
  whether a hand is found.
- A get on an empty link is where the program waits. In the model it returns
  `None` and changes nothing.

Where the code and the design intent differ, the model follows the code:

- A camera that fails to open sends `<name> CAMERA FAIL` on every failed
  attempt, retries included. Repeats are not suppressed
  (`Camera.EveryFailedOpenAlerts`).
- In driver mode a frame without a face leaves the drowsiness counter as it was.
  It does not reset it (`Stages.NoFaceHoldsCounter`).
- Starting a thread twice is an error in the program, not a no-op.
  `Cam.Start` therefore requires that the thread has not been started.
- `set_mode` writes `MODE` before it swaps the camera.
- `stop()` releases the
  handle but leaves it in `cap`. The model keeps it there as a released
  `Capture`.

## Model

| member | source | states |
|---|---|---|
| `Events.Outbox.SendAlert` | ai_fleet.py:73-76 | an alert appends the notification and its ALERT/SYSTEM log row to the events, and nothing else |
| `Events.Outbox.LogEvent` | ai_fleet.py:30-37 | a log call appends exactly one row with its category, sub-category and text |
| `Events.AlertsFor` | ai_fleet.py:73-76 | sending n alerts produces 2n events (one notification and one log row each) |
| `Events.NoticesOfAlerts` | ai_fleet.py:73-76 | the operator is notified of exactly the alerts sent, in order |
| `Events.NoticesAppend` | ai_fleet.py:73-76 | the notifications of two event runs in a row are those of the first followed by those of the second |
| `Fleet.ParseMode` | ai_fleet.py:275 | a requested mode is accepted if and only if it is "driver" or "cargo", and the accepted mode is the one named |
| `Fleet.ModeName` | ai_fleet.py:26 | the stored name of every mode is accepted back as that same mode |
| `Fleet.CameraIndex` | ai_fleet.py:13-15 | driver mode binds camera 0 and cargo mode camera 2 (each if and only if), never the road camera 1 |
| `FrameLink.AfterPut` | ai_fleet.py:143-145 | a newest-wins put on a link holding at most one frame leaves exactly the new frame |
| `FrameLink.Apply` | ai_fleet.py:157-161 | a put leaves only the new frame and delivers nothing; a get delivers the waiting frame, if any, and what it delivers plus what stays is what was waiting; the link never holds more than one frame |
| `FrameLink.Run` | ai_fleet.py:157-161 | along any sequence of puts and gets the link never holds more than one frame, and at most one frame is delivered per operation |
| `FrameLink.NewestWins` | ai_fleet.py:143-145 | after a burst of puts with no get between them, the link holds only the last frame put |
| `FrameLink.GetAfterPutsReturnsNewest` | ai_fleet.py:143-145 | the get after such a burst returns exactly the last frame and leaves the link empty; older unread frames are lost |
| `FrameLink.DeliveredInOrder` | ai_fleet.py:157-161 | frames reach the reader in the order they were put, some dropped and none invented |
| `FrameLink.SubsequenceOfLonger` | ai_fleet.py:157-161 | frames put before the ones a reader received do not disturb the order of those it received |
| `FrameLink.Link.constructor` | ai_fleet.py:157-161 | a new link is empty |
| `FrameLink.Link.Put` | ai_fleet.py:143-145 | a put with no get in the middle of it leaves exactly the new frame and returns the frame it dropped unread, if any |
| `FrameLink.PutAsWritten` | ai_fleet.py:143-145 | the three-call put completes, leaving only the new frame, unless the link was full and the reader's get ran between `full()` and the drop; then `get_nowait()` raises and `get()` waits forever |
| `FrameLink.PutAsWrittenAlone` | ai_fleet.py:143-145 | with no get in between, the three-call put is the newest-wins put |
| `FrameLink.ReaderBetweenCheckAndDrop` | ai_fleet.py:143-145 | on a full link, a get between the check and the drop makes `get_nowait()` raise and `get()` block, where a get followed by a whole put leaves the new frame waiting |
| `FrameLink.PutTolerant` | ai_fleet.py:143-145 | a put whose drop tolerates an empty link always leaves the link as the newest-wins put does |
| `FrameLink.PutTolerantIsAtomic` | ai_fleet.py:143-145 | that put, with a get in the middle, is the get followed by a whole put; without one it is the whole put |
| `FrameLink.Link.Get` | ai_fleet.py:193 | a get takes the waiting frame and empties the link; on an empty link it takes nothing |
| `Camera.Acquire` | ai_fleet.py:119-123 | init holds an open handle on the camera's own index if and only if the device opens; otherwise the handle is None and exactly one "<name> CAMERA FAIL" alert is sent |
| `Camera.Halt` | ai_fleet.py:125-128 | stop clears running and releases the handle, if there is one |
| `Camera.Tick` | ai_fleet.py:130-147 | one whole pass, with no stop landing inside it: a stopped source does nothing. Without a handle, a pass retries init, which alerts on failure and puts no frame. A failed read drops the handle and sends no alert. A successful read on an open handle puts exactly the frame read, sends nothing and keeps the state, and no other pass puts a frame |
| `Camera.Trace` | ai_fleet.py:130-147 | a run of passes puts at most one frame per pass |
| `Camera.TraceAppend` | ai_fleet.py:130-147 | running the loop in two pieces gives the same state, events and frames as running it in one |
| `Camera.StoppedStaysSilent` | ai_fleet.py:131 | once running is false, no later pass or stop puts a frame or sends an event, and running stays false |
| `Camera.IdleWhenStopped` | ai_fleet.py:131 | a stopped source that keeps being scheduled does not change at all |
| `Camera.NothingAfterStop` | ai_fleet.py:125-131 | when stops land between whole passes, everything a source ever puts or sends, it puts or sends before its stop() |
| `Camera.ReadsDeliverEveryFrame` | ai_fleet.py:137-145 | a running source with an open handle puts every frame it reads, in order, sends nothing and keeps its handle, so the link ends holding the last frame read |
| `Camera.TickInterrupted` | ai_fleet.py:130-147 | a pass into which a stop lands ends stopped. Without a handle it still runs init, which holds an open handle if and only if the device opens and alerts otherwise. After a successful read it still puts the frame |
| `Camera.StopInsidePass` | ai_fleet.py:125-147 | a stop during the retry sleep leaves a stopped source holding an open handle that later passes never release, or sends a CAMERA FAIL alert; a stop between read and put is followed by that put; a stop before the same pass does none of these |
| `Camera.TickRechecked` | ai_fleet.py:130-147 | a pass that reads running again after its sleep and after its read, when a stop lands inside it, puts nothing, sends nothing and leaves no open handle |
| `Camera.RecheckedIsStopFirst` | ai_fleet.py:125-147 | that pass is the stop followed by the pass, as `Trace` orders them |
| `Camera.Claims.constructor` | ai_fleet.py:163 | before any secondary source exists, nothing has claimed the slot |
| `Camera.EveryFailedOpenAlerts` | ai_fleet.py:132-135 | n failed attempts to open the device send n CAMERA FAIL alerts, put no frame and leave the source without a handle and running |
| `Camera.Cam.constructor` | ai_fleet.py:110-117 | a new source is running, not yet started, bound to its index, link and name, has appended a bind of its index to the claims log, and has already tried init once |
| `Camera.Cam.Init` | ai_fleet.py:119-123 | the handle and the events afterwards are those of `Acquire` |
| `Camera.Cam.Start` | ai_fleet.py:249 | the thread is started, once |
| `Camera.Cam.Stop` | ai_fleet.py:125-128 | the source's state afterwards is `Halt` of its state before, and an unbind of its index is appended to the claims log |
| `Camera.Cam.Step` | ai_fleet.py:131-147 | one pass changes the handle, the events and the link exactly as `Tick` says, and the link still holds at most one frame |
| `Camera.Cam.Run` | ai_fleet.py:130-147 | the loop over a run of hardware answers ends in the state, events and link contents of `Trace`, whether or not the source was stopped |
| `Stages.DriverStep` | ai_fleet.py:195-204 | a counter below 12 stays below 12. No face: counter and alerts unchanged. An alert is raised if and only if a low reading brings the run to 12, and the counter is then 0. Otherwise a face resets the counter on an open-eyed reading and adds one on a low one |
| `Stages.SecondaryStep` | ai_fleet.py:192-214 | driver mode follows `DriverStep`; cargo mode leaves the counter untouched and alerts UNAUTHORIZED CARGO ACCESS if and only if a hand is seen |
| `Stages.SecondaryTrace` | ai_fleet.py:188-217 | over any run of frames in any mix of modes the counter stays within 0..11, and each frame raises at most one alert |
| `Stages.SecondaryTraceAppend` | ai_fleet.py:192 | processing frames in two runs gives the counter and alerts of processing them in one |
| `Stages.SustainedClosure` | ai_fleet.py:201-204 | n consecutive low readings from a reset counter raise exactly n div 12 DRIVER DROWSY alerts and leave the counter at n mod 12 |
| `Stages.TwelveLowReadingsAlertOnce` | ai_fleet.py:201-204 | 12 consecutive low readings raise exactly one alert and reset the counter |
| `Stages.ElevenLowThenOpenNoAlert` | ai_fleet.py:190-204 | 11 low readings followed by an open-eyed one raise no alert and leave the counter at 0 |
| `Stages.NoFaceHoldsCounter` | ai_fleet.py:197 | in driver mode, frames without a face keep the counter and raise no alert |
| `Stages.HandFrames` | ai_fleet.py:213 | the number of frames with a hand is at most the number of frames |
| `Stages.CargoAlertsEveryHandFrame` | ai_fleet.py:206-214 | in cargo mode every frame with a hand raises one alert, with no debounce across frames, and the counter is untouched |
| `Stages.DriverThenCargo` | ai_fleet.py:188-217 | 12 low readings in driver mode, then a cargo frame with a hand, raise exactly one DRIVER DROWSY alert followed by one cargo alert |
| `Stages.SecondaryStage.constructor` | ai_fleet.py:190 | the stage starts with the counter at 0 |
| `Stages.SecondaryStage.Step` | ai_fleet.py:192-217 | a consumed frame is always published to the display link whatever the mode; the counter and alerts follow `SecondaryStep` under the mode read for that frame; the counter stays below 12; with no frame waiting nothing changes |
| `Stages.RoadStage.Step` | ai_fleet.py:175-184 | a consumed road frame is published to the road display link newest-wins |
| `ModeControl.AtMostOneLiveSource` | ai_fleet.py:240-249 | when each new source is bound only after the previous one is unbound, at most one secondary source is live at any point, and exactly one after a bind |
| `ModeControl.ReleaseKeepsExclusive` | ai_fleet.py:240-241 | stopping the live source keeps the binding history exclusive |
| `ModeControl.BindKeepsExclusive` | ai_fleet.py:244-247 | binding a source while none is live keeps the binding history exclusive |
| `ModeControl.SwitchWholeKeepsSingle` | ai_fleet.py:237-249 | a switch with no other request in between leaves exactly one running source, the new one, held by the slot |
| `ModeControl.StopHalf` | ai_fleet.py:240-242 | the first half of a switch stops the source the request read and leaves every other source and the slot as they were |
| `ModeControl.CreateHalf` | ai_fleet.py:244-249 | the second half stores the new source in the slot and starts it, leaving every other source as it was |
| `ModeControl.RacedSwitchesLeaveTwoSources` | ai_fleet.py:237-249 | two switches that both read the slot before either replaces its source leave two sources running, one no longer held; the same two one after the other leave one |
| `ModeControl.Controller.constructor` | ai_fleet.py:298 | at start-up the mode is driver, one running source is bound to camera 0 on second_q, and the claims log holds that single bind |
| `ModeControl.Controller.SwitchSecondaryCamera` | ai_fleet.py:237-250 | the old source, if any, is stopped (not running, handle released) and retired. The claims log grows by the old source's unbind followed by the new source's bind, in that order, and the claims stay exclusive. The new, fresh source is on camera 0 for driver or 2 for cargo, named after the mode, wired to second_q, running and started. The init outcome is followed by one MODE_CHANGE log row |
| `ModeControl.Controller.SetMode` | ai_fleet.py:272-278 | a name other than "driver" or "cargo" changes nothing, neither the mode, the source nor the events. An accepted name becomes the mode, and the camera is swapped to it: the claims log grows by the old unbind and then the new bind. The reply names the mode in force |

## Findings

| source | as written | input that shows it | evidently intended | confidence | as-written member | corrected member |
|---|---|---|---|---|---|---|
| ai_fleet.py:143-145, 183, 216 | the newest-wins put is three separately locked calls: `full()`, then `get_nowait()` or `get()`, then `put()` | a full link, and the reader's get running between `full()` and the drop: the camera thread's `get_nowait()` raises `queue.Empty` and the thread ends without an alert; a stage's `get()` waits forever | the drop takes a waiting frame only if one is still there, so the put always leaves the new frame | not executed | `FrameLink.PutAsWritten`, `FrameLink.ReaderBetweenCheckAndDrop` | `FrameLink.PutTolerant`, `FrameLink.PutTolerantIsAtomic` |
| ai_fleet.py:125-147 | `run()` reads `running` once per pass, and `stop()` can land anywhere inside the pass | a stop during the one-second retry sleep: `init()` then opens the device of a stopped source, whose handle is never released, or sends CAMERA FAIL after the stop; a stop between read and put: one more frame is put | a stop inside a pass takes effect before the pass does anything more | not executed | `Camera.TickInterrupted`, `Camera.StopInsidePass` | `Camera.TickRechecked`, `Camera.RecheckedIsStopFirst` |
| ai_fleet.py:237-250, 272-277, 305 | `switch_secondary_camera` reads and replaces `secondary_thread` with no lock, and the server runs requests on separate threads | two `/set` requests that both read the old source before either stores its new one: both stop the old source, both create one, and the first new source keeps running on second_q, no longer held | switches run one at a time, so exactly one secondary source runs | not executed | `ModeControl.RacedSwitches`, `ModeControl.RacedSwitchesLeaveTwoSources` | `ModeControl.SwitchWhole`, `ModeControl.SwitchWholeKeepsSingle` |

## Left out

- Threads, `time.sleep` back-off and timing (ai_fleet.py:109-111, 133, 147, 242, 300-303). Each loop is modelled one pass at a time, and concurrent interleavings are sequences of single steps.
- `FrameLink.Link.Get`: a get on an empty link returns `None` instead of blocking, because the model has no threads to wait for.
- OpenCV capture and drawing, YOLO and MediaPipe inference (ai_fleet.py:120, 137, 151-153, 178-181, 196, 207-212). These are foreign libraries. The hardware answers and vision results are inputs, and the boxes drawn on frames are not modelled, so a frame is published as it was consumed.
- The eye-aspect-ratio geometry `ear` (ai_fleet.py:167-171). It is floating-point `np.linalg.norm`, and the averaged ratio is an input. Its guard returns 0 for an eye of zero width. That 0 is averaged with the other eye's ratio, so such a frame is a low reading only when the other eye's ratio is below 0.36.
- Telegram HTTP, the SIM7600 modem (serial, SMS, GPS) and CSV file writes (ai_fleet.py:41-89). These are I/O whose failures are swallowed. `send_alert` and `log_event` are appends to an event list.
- JPEG encoding, the Flask page and streaming routes (ai_fleet.py:93-105, 254-270, 280-288). These are library wrappers and UI. Only the validation and reply of `set_mode` are kept.
- `env_loop` and `gps_loop` (ai_fleet.py:221-233). They are driven by random numbers and the modem, not by the pipeline's state.
- The start-up wiring in the main block (ai_fleet.py:292-305). The road camera is a `Cam` on index 1 like any other, and the secondary start-up is `Controller.constructor`.
- `Stages.DriverStep`: compares the averaged ratio with the exact real 0.18. The program compares doubles, and the double nearest 0.18 lies just below it, so a ratio from that double up to 0.18 is low in the model but not in the program.
- `FrameLink.Link.Put`: models the put as one atomic step. The three calls as written can be split by the reader's get; `FrameLink.PutAsWritten` and the first row under Findings cover that case.
- `Camera.NothingAfterStop`: holds only for stops that land between whole passes of `run()`. A stop inside a pass is covered by `Camera.TickInterrupted` and the second row under Findings.
- `ModeControl.Controller.SetMode`: models one request at a time. Concurrent `/set` requests are covered on values by `ModeControl.RacedSwitches` and the third row under Findings.
- `Stages.SecondaryStage.Step`: reads the mode once per frame. The program reads `MODE` at ai_fleet.py:195 and again at 206, so a switch from cargo to driver between the two reads processes that frame under neither branch: it is published, but no counter update and no alert happen for it.
