# Remote-100: the CAR-100 protocol engine and its control screen

Remote-100 is an Android app that drives the CAR-100 toy car over a Bluetooth
serial link. This project models two parts of it in Dafny.

- **The protocol engine `Car100`.** It holds one connection and the car's
  last known status. It also remembers the gear, acceleration and direction
  it last asked for. It frames every command as CRLF, payload, CRLF and sends
  a bare CRLF as a keep-alive after ten idle seconds. It reads the car's
  output, classifies it by the tokens `Speed=2`, `Charging` and `Ready`, and
  answers every chunk with `OK`. When the status changes it resets the
  intent to gear 2, stop and straight. Any I/O error breaks the link for good
  (status NO_LINK).
- **The screen's decision logic.** The joystick maps to a direction and an
  acceleration, with a dead zone of ±5. The gear bar keeps or rolls back a
  user's change depending on whether the engine accepted it. The status label
  is refreshed only when the status changes. The gear bar reset goes back to
  gear 2.

## Modules

- `Base`: Java's `byte` and the `(byte)` cast, and `Option`.
- `Protocol`: the constants and literals, the key lookups of the three
  setters, and a model of which steering keys the car holds down. It also
  defines Java's `indexOf` and the status classification.
- `Transport`: the stream. The output side is a log with one entry per
  `write` call. The input side is a queue of chunks: data, end of stream or a
  fault. A budget decides which writes fail, so a broken link can appear at
  any point. `Socket` is the class the engine writes to.
- `Car100Model`: each engine operation as a step function on the value
  `Conn` (the engine's fields plus the stream). The lemmas state what the
  protocol promises of these functions.
- `Car100`: `Engine` holds the fields of one instance and changes them in
  place. `Api` is the class's static side: the nullable `instance` and the
  wrappers. Every method's postcondition says its effect is exactly the
  matching step function (for `Connect`, see "Left out").
- `Remote100`: the listeners and status handling of the main screen, as the
  class `Activity`, which calls `Api`.

An unknown direction passed to `mSetDir` is handled as the code handles it.
If it differs from the current direction, the release of the held key is
sent first and only then is the exception raised. The recorded direction
stays the old one (Car100Model.DirUnknown).

The clock is a parameter `now`, read once per engine call. The car's
behaviour (what it sends, when the link breaks, whether `close` and
`connect` succeed) is fixed in the `Socket` before the call.

## Model

| member | source | states |
|---|---|---|
| Base.ToByte | src/nu/firetech/android/remote100/Remote100Activity.java:329 | the `(byte)` cast: equal to its argument modulo 256, and the identity on values that fit in a byte |
| Protocol.Code | src/nu/firetech/android/remote100/backend/Car100.java:75-79 | each status has one of the codes 0..4 |
| Protocol.StatusOf | src/nu/firetech/android/remote100/backend/Car100.java:75-79 | a byte names a status iff it is 0..4, and it names the status with that code |
| Protocol.CodeRoundTrip | src/nu/firetech/android/remote100/backend/Car100.java:75-79 | decoding a status's code gives the status back |
| Protocol.GearKey | src/nu/firetech/android/remote100/backend/Car100.java:317-331 | a command exists exactly for gears 1, 2 and 3 |
| Protocol.AccKey | src/nu/firetech/android/remote100/backend/Car100.java:337-351 | a command exists exactly for reverse, stop and forward |
| Protocol.KeysAreDistinct | src/nu/firetech/android/remote100/backend/Car100.java:53-58 | different gears (and different accelerations) are sent as different commands |
| Protocol.ReleaseKey | src/nu/firetech/android/remote100/backend/Car100.java:359-367 | a release is sent exactly when the old direction is left or right |
| Protocol.PressKey | src/nu/firetech/android/remote100/backend/Car100.java:368-377 | a press is sent exactly when the new direction is left or right |
| Protocol.DirPayloads | src/nu/firetech/android/remote100/backend/Car100.java:359-377 | a direction change sends the old key's release if there is one, then the new key's press if there is one, and nothing else |
| Protocol.DirectionKeysFollow | src/nu/firetech/android/remote100/backend/Car100.java:357-383 | after any change between valid directions the car holds exactly the key of the new one, and never two keys at any point |
| Protocol.DirectionExamples | src/nu/firetech/android/remote100/backend/Car100.java:357-383 | straight to left presses left; left to right releases left, then presses right; right to straight releases right |
| Protocol.IndexOfSpec | src/nu/firetech/android/remote100/backend/Car100.java:290-296 | `indexOf` returns the first position where the token occurs, and -1 iff it occurs nowhere |
| Protocol.Token | src/nu/firetech/android/remote100/backend/Car100.java:290-296 | a chunk can only announce READY, CHARGING or CHARGE_FULL |
| Protocol.TokenPriority | src/nu/firetech/android/remote100/backend/Car100.java:290-296 | a chunk announces a status iff it holds one of the three tokens; Speed=2 wins over Charging, which wins over Ready |
| Protocol.Classify | src/nu/firetech/android/remote100/backend/Car100.java:289-296 | one chunk either keeps the status or changes it to READY, CHARGING or CHARGE_FULL |
| Protocol.ClassifyAll | src/nu/firetech/android/remote100/backend/Car100.java:280-303 | a series of chunks either keeps the status or ends at READY, CHARGING or CHARGE_FULL |
| Protocol.ClassifyAllSilent | src/nu/firetech/android/remote100/backend/Car100.java:289-296 | chunks that carry no token leave the status as it was |
| Protocol.ClassifyAllLastWins | src/nu/firetech/android/remote100/backend/Car100.java:280-303 | over several chunks, the last one that carries a token decides the status |
| Protocol.ClassifyExamples | src/nu/firetech/android/remote100/backend/Car100.java:289-296 | Speed=2 gives READY, Charging gives CHARGING, Ready gives CHARGE_FULL, other text changes nothing |
| Transport.FrameBytes | src/nu/firetech/android/remote100/backend/Car100.java:394-402 | a command goes out as CRLF + payload + CRLF; the keep-alive as CRLF alone |
| Transport.OutgoingAppend | src/nu/firetech/android/remote100/backend/Car100.java:394-402 | the writes of consecutive sends are the writes of each send, concatenated |
| Transport.PutAll | src/nu/firetech/android/remote100/backend/Car100.java:394-400 | a series of writes changes only the write log and the budget |
| Transport.PutAllTruncates | src/nu/firetech/android/remote100/backend/Car100.java:394-400 | a series of writes that stops at the first failure writes exactly the longest prefix that succeeds, and reports success iff that prefix is everything |
| Transport.PutAllAppend | src/nu/firetech/android/remote100/backend/Car100.java:394-400 | writing two lists is writing the first, then the second only if the first got through |
| Transport.SendUnfolded | src/nu/firetech/android/remote100/backend/Car100.java:394-400 | a send is the write of CRLF, then the payload and CRLF only if each earlier write succeeded |
| Transport.SendHealthy | src/nu/firetech/android/remote100/backend/Car100.java:394-402 | on a link that does not fail, a send appends exactly its frame and succeeds |
| Transport.SendBroken | src/nu/firetech/android/remote100/backend/Car100.java:394-402 | on a broken link a send writes nothing and fails |
| Transport.ProbeOf | src/nu/firetech/android/remote100/backend/Car100.java:275 | `available()` reports nothing to read only when no input is queued, and an error exactly when a fault is next |
| Transport.Socket.constructor | src/nu/firetech/android/remote100/backend/Car100.java:238-239 | a socket with a given input queue, failure budget and close outcome, and nothing written |
| Transport.Socket.Connect | src/nu/firetech/android/remote100/backend/Car100.java:250 | `connect()` succeeds exactly when the car is reachable |
| Transport.Socket.Write | src/nu/firetech/android/remote100/backend/Car100.java:396-399 | one `write`: appended to the log, or an I/O error that changes nothing |
| Transport.Socket.Available | src/nu/firetech/android/remote100/backend/Car100.java:275 | `available()`, as described by ProbeOf |
| Transport.Socket.Read | src/nu/firetech/android/remote100/backend/Car100.java:282 | `read` returns the next queued chunk and removes it |
| Transport.Socket.Close | src/nu/firetech/android/remote100/backend/Car100.java:390 | `close()` succeeds or fails as configured and marks the socket closed on success |
| Car100Model.ResetIntent | src/nu/firetech/android/remote100/backend/Car100.java:259-263 | a reset gives gear 2, stop, straight, and leaves status and activity time alone |
| Car100Model.SendStep | src/nu/firetech/android/remote100/backend/Car100.java:394-402 | `mSend` changes only the activity time, set to now exactly when the send succeeds, and of the stream only its write log and budget |
| Car100Model.SendStepHealthy | src/nu/firetech/android/remote100/backend/Car100.java:394-402 | on a healthy link a send appends its frame and sets the activity time to now |
| Car100Model.Drain | src/nu/firetech/android/remote100/backend/Car100.java:280-303 | the read loop ends normally only once nothing is left to read; a status it reaches other than the start and NO_LINK is READY, CHARGING or CHARGE_FULL; it never closes the socket |
| Car100Model.Exchange | src/nu/firetech/android/remote100/backend/Car100.java:275-303 | the keep-alive test and the read loop: a normal end leaves nothing unread, a new status other than NO_LINK comes from a token, the socket is not closed |
| Car100Model.PollStep | src/nu/firetech/android/remote100/backend/Car100.java:266-314 | `mGetStatus` returns the engine's new status; a normal live poll leaves nothing unread; a changed status other than NO_LINK comes from a token; the socket is not closed |
| Car100Model.DeadEngineInert | src/nu/firetech/android/remote100/backend/Car100.java:266-269 | at NO_LINK a poll returns NO_LINK and touches nothing, not even the stream |
| Car100Model.QuietPollWritesNothing | src/nu/firetech/android/remote100/backend/Car100.java:275-279 | with no input and at most ten seconds idle, a poll writes nothing and returns the status unchanged |
| Car100Model.IdlePollSendsKeepAlive | src/nu/firetech/android/remote100/backend/Car100.java:275-279 | with no input and more than ten seconds idle, a poll writes exactly one CRLF and sets the activity time |
| Car100Model.DrainHealthy | src/nu/firetech/android/remote100/backend/Car100.java:280-303 | on a healthy link with only data queued, the loop reads every chunk, answers each with exactly one OK, and ends at the classification of all chunks |
| Car100Model.DrainFailureIsNoLink | src/nu/firetech/android/remote100/backend/Car100.java:304-306 | whenever the read loop fails, the status is NO_LINK |
| Car100Model.PollErrorForcesNoLink | src/nu/firetech/android/remote100/backend/Car100.java:304-307 | a poll that raises an IOException leaves the engine at NO_LINK |
| Car100Model.PollResetsOnChange | src/nu/firetech/android/remote100/backend/Car100.java:309-313 | after a successful poll the intent was reset iff the status changed, and the returned status is the new one |
| Car100Model.PollHealthy | src/nu/firetech/android/remote100/backend/Car100.java:266-314 | a poll of healthy data returns the classification of all chunks, writes one OK per chunk and resets if the status changed |
| Car100Model.PollEofBreaksLink | src/nu/firetech/android/remote100/backend/Car100.java:282-286 | end of stream is an I/O error: the chunks before it are acknowledged and the link ends at NO_LINK |
| Car100Model.DrainUntilEof | src/nu/firetech/android/remote100/backend/Car100.java:280-306 | the read loop answers every chunk before an end of stream and then stops with NO_LINK |
| Car100Model.PollKeepsIntentValid | src/nu/firetech/android/remote100/backend/Car100.java:266-314 | a poll keeps gear, acceleration and direction within their valid values |
| Car100Model.GearStep | src/nu/firetech/android/remote100/backend/Car100.java:317-334 | `mSetGear` records the gear when it returns normally, changes no other field than the gear and the activity time, and reads nothing |
| Car100Model.AccStep | src/nu/firetech/android/remote100/backend/Car100.java:337-354 | `mSetAcc` records the acceleration when it returns normally, changes no other field than it and the activity time, and reads nothing |
| Car100Model.DirStep | src/nu/firetech/android/remote100/backend/Car100.java:357-383 | `mSetDir` records the direction when it returns normally, changes no other field than it and the activity time, and reads nothing |
| Car100Model.GearHealthy | src/nu/firetech/android/remote100/backend/Car100.java:317-334 | a new valid gear sends its one command and then records the gear |
| Car100Model.AccHealthy | src/nu/firetech/android/remote100/backend/Car100.java:337-354 | a new valid acceleration sends its one command and then records it |
| Car100Model.SettersSuppress | src/nu/firetech/android/remote100/backend/Car100.java:317-383 | setting the current value sends nothing; an unknown gear or acceleration sends nothing and is rejected |
| Car100Model.GearIdempotent | src/nu/firetech/android/remote100/backend/Car100.java:317-334 | setting the same gear twice sends its command once |
| Car100Model.AccIdempotent | src/nu/firetech/android/remote100/backend/Car100.java:337-354 | setting the same acceleration twice sends its command once |
| Car100Model.DirIdempotent | src/nu/firetech/android/remote100/backend/Car100.java:357-383 | setting the same direction twice sends its keys once |
| Car100Model.SettersUpdateOnlyOnSuccess | src/nu/firetech/android/remote100/backend/Car100.java:317-383 | a setter that fails or rejects leaves its field unchanged |
| Car100Model.DirHealthy | src/nu/firetech/android/remote100/backend/Car100.java:357-383 | a change of direction sends the release of the old key, then the press of the new one, then records the direction |
| Car100Model.DirUnknown | src/nu/firetech/android/remote100/backend/Car100.java:357-380 | an unknown direction still releases the old key, then is rejected with the old direction kept |
| Car100Model.DirWritesPrefix | src/nu/firetech/android/remote100/backend/Car100.java:357-383 | on any link, a direction change writes a prefix of its release-then-press lines and succeeds iff it wrote them all |
| Car100Model.CloseStep | src/nu/firetech/android/remote100/backend/Car100.java:386-391 | `mClose` ends at NO_LINK with the socket closed when it returns normally, keeps the intent, and reads nothing |
| Car100Model.CloseHealthy | src/nu/firetech/android/remote100/backend/Car100.java:386-391 | closing sends NO pressed, then NO released, sets NO_LINK and closes the socket |
| Car100Model.Guard | src/nu/firetech/android/remote100/backend/Car100.java:148-161 | the wrappers return true on success, false with NO_LINK forced on an IOException, and let an IllegalArgumentException through |
| Car100Model.StepsKeepIntentValid | src/nu/firetech/android/remote100/backend/Car100.java:317-391 | every setter and close keeps the intent valid |
| Car100Model.GearResetByStatusChange | src/nu/firetech/android/remote100/backend/Car100.java:309-311 | select gear 3, then the car reports Speed=2: the status is READY and the gear is back at 2 |
| Car100.Engine.constructor | src/nu/firetech/android/remote100/backend/Car100.java:238-242 | a new engine is CONNECTED, active now, at gear 2, stop and straight |
| Car100.Engine.Reset | src/nu/firetech/android/remote100/backend/Car100.java:259-263 | `mReset`, exactly as ResetIntent |
| Car100.Engine.Send | src/nu/firetech/android/remote100/backend/Car100.java:394-402 | `mSend`: the three writes, and the activity time set only when all succeed |
| Car100.Engine.GetStatus | src/nu/firetech/android/remote100/backend/Car100.java:266-314 | `mGetStatus`: the dead check, the keep-alive, the read-classify-acknowledge loop, and the reset, exactly as PollStep |
| Car100.Engine.SetGear | src/nu/firetech/android/remote100/backend/Car100.java:317-334 | `mSetGear`, exactly as GearStep |
| Car100.Engine.SetAcc | src/nu/firetech/android/remote100/backend/Car100.java:337-354 | `mSetAcc`, exactly as AccStep |
| Car100.Engine.SetDir | src/nu/firetech/android/remote100/backend/Car100.java:357-383 | `mSetDir`, exactly as DirStep |
| Car100.Engine.Close | src/nu/firetech/android/remote100/backend/Car100.java:386-391 | `mClose`, exactly as CloseStep |
| Car100.Api.constructor | src/nu/firetech/android/remote100/backend/Car100.java:97 | there is no instance at first |
| Car100.Api.GetStatus | src/nu/firetech/android/remote100/backend/Car100.java:136-138 | NO_LINK without an instance; otherwise the instance's poll |
| Car100.Api.SetGear | src/nu/firetech/android/remote100/backend/Car100.java:148-161 | false without an instance; otherwise `mSetGear` behind the wrapper convention |
| Car100.Api.SetAcc | src/nu/firetech/android/remote100/backend/Car100.java:171-184 | false without an instance; otherwise `mSetAcc` behind the wrapper convention |
| Car100.Api.SetDir | src/nu/firetech/android/remote100/backend/Car100.java:194-207 | false without an instance; otherwise `mSetDir` behind the wrapper convention |
| Car100.Api.Settle | src/nu/firetech/android/remote100/backend/Car100.java:155-160 | the catch block: an IOException forces NO_LINK and returns false |
| Car100.Api.Close | src/nu/firetech/android/remote100/backend/Car100.java:217-232 | false without an instance; on success the instance is dropped; an IOException keeps it at NO_LINK |
| Car100.Api.Connect | src/nu/firetech/android/remote100/backend/Car100.java:247-256 | the previous instance is closed as `close` does; an unreachable car or a failing first poll leaves no instance; otherwise the new engine is the instance, in the state after its first poll |
| Remote100.JoystickDir | src/nu/firetech/android/remote100/Remote100Activity.java:347-353 | left exactly below -5, right exactly above 5, straight in between |
| Remote100.JoystickAcc | src/nu/firetech/android/remote100/Remote100Activity.java:355-361 | forward exactly above 5, reverse exactly below -5, stop in between |
| Remote100.JoystickMonotone | src/nu/firetech/android/remote100/Remote100Activity.java:346-362 | moving the stick further one way never asks for the opposite direction or acceleration |
| Remote100.MoveStep | src/nu/firetech/android/remote100/Remote100Activity.java:346-362 | one joystick event never changes the gear or reads car output, and leaves the status as it was or at NO_LINK |
| Remote100.JoystickNeverRejected | src/nu/firetech/android/remote100/Remote100Activity.java:346-362 | the joystick only asks for values the engine accepts, so no IllegalArgumentException is raised |
| Remote100.JoystickDrivesCar | src/nu/firetech/android/remote100/Remote100Activity.java:346-362 | on a healthy link one event leaves the engine at the stick's direction and acceleration, gear and status unchanged, after sending the direction keys and then the acceleration key, each only if it changed |
| Remote100.SteerHealthy | src/nu/firetech/android/remote100/backend/Car100.java:194-207 | on a healthy link `setDir` with a valid direction returns true, sets the direction, and writes its keys only if the direction changed |
| Remote100.AccelerateHealthy | src/nu/firetech/android/remote100/backend/Car100.java:171-184 | on a healthy link `setAcc` with a valid acceleration returns true, sets it, and writes its key only if it changed |
| Remote100.Activity.constructor | src/nu/firetech/android/remote100/Remote100Activity.java:55-56 | the bar starts at 1, shown as gear 2, and no status has been seen (-1) |
| Remote100.Activity.SetStatus | src/nu/firetech/android/remote100/Remote100Activity.java:255-313 | the screen is refreshed iff the status differs from the last one; controls are visible iff READY, the icon iff not READY; READY posts a reset; an unknown new status is rejected before anything changes; afterwards the last status is the one given |
| Remote100.Activity.ResetUI | src/nu/firetech/android/remote100/Remote100Activity.java:315-319 | the bar goes to 1, shown as gear 2, the engine's reset gear |
| Remote100.Activity.RunQueuedReset | src/nu/firetech/android/remote100/Remote100Activity.java:299-304 | a posted reset runs `resetUI` |
| Remote100.Activity.OnProgressChanged | src/nu/firetech/android/remote100/Remote100Activity.java:327-335 | a move the program made is taken as is; a user's move asks for gear p+1 and is kept iff the engine accepts it; when the wrapper returns false the bar goes back to the kept position; when it raises an IllegalArgumentException the bar stays at p and the kept gear and label are unchanged; otherwise the label shows the kept position + 1 |
| Remote100.Activity.OnMoved | src/nu/firetech/android/remote100/Remote100Activity.java:346-362 | `setDir` for x, then `setAcc` for y, each behind its wrapper |

## Left out

- `CarServer` (the polling thread, its sleeps and its Bluetooth lookup) and `SettingsActivity` are not part of this model. Everything else on the screen is left out too: dialogs, menus, view lookups and the Bluetooth adapter.
- A real socket and streams. Only the effect of each `write`, `available`, `read`, `connect` and `close` on the state the engine can observe is modelled. Byte counts and the decoding of bytes to a string are left out: a chunk is already text.
- Transport.Budget: a failed write is permanent. Once one `write` fails, every later `write` on that socket fails too, while a real socket might accept a later write. No operation is affected, since each stops at its first failed write and the wrappers then force NO_LINK.
- `synchronized` on `mSend`, and concurrency in general. Every call runs alone.
- The wall clock: `System.currentTimeMillis()` is a parameter `now`, read once per engine call, where the source reads it again at each send and read.
- Car100.Engine.constructor: it does not make the constructor's final `mGetStatus`, because a Dafny constructor cannot fail. `Api.Connect` makes that call right after allocation, as `new Car100(socket)` does inside `connect`.
- Car100.Api.Connect: its postconditions on the closed previous instance and on the new engine are stated only when the previous instance does not own the same socket object. When the socket of a failed connect is left open, this is not modelled as a leak.
- Remote100.Activity.RunQueuedReset: the 100 ms delay and the message queue are left out. A posted reset is a counter that runs whenever the caller chooses.
- Remote100.Activity.ResetUI: Android calls `onProgressChanged` again, with `fromUser` false, when `setProgress` moves the bar. That nested call is left out; it would set the same gear and label.
- Remote100.Activity.constructor: the initial bar position and label come from the layout file, which is not part of this model. They are taken to show `currGear`.
- Remote100.Activity.SetStatus: the label text and icon resources are reduced to the status shown and to whether the icon is visible.
