# EZFeeder schedule, storage and feeding model

A Dafny model of the control logic of EZFeeder, an ESP32 sketch that runs an automatic pet feeder.
The model covers four parts:

- **Config sync.** Four typed reads from the remote database each may overwrite one field of the
  schedule in RAM. A remote amount becomes a portion count by C++ integer division by 50.
- **Config persistence.** The flash file `/config.txt` is removed and then rewritten. When it is
  loaded, each missing field is replaced by its own default.
- **Feed controller.** One feeding enables the motor driver and runs 4 moves per portion
  (-3200, +600, -3200, +600 steps), each waited out to the end. It then disables the driver and
  pushes one timestamp to the feeding log.
- **Main loop tick.** Each tick reloads the schedule from flash. It feeds once when the clock matches
  a slot, and once more when the button is pressed.

Library calls are inputs or recorded events:
- A remote read is a `Fetch` value: it failed, or it carries a type tag and a value.
- The flash file is `Option<Record>`. `None` means the file is missing, empty or unparseable. A
  `Record` holds each JSON key if it is present with the right type.
- How a save went is a `WriteOutcome`.
- The clock readings and the button level are parameters of a tick.
- Motor-enable, motor-disable, relative moves and log pushes are `Event`s appended to a trace.
- The stepper is a class with a position and a target. Its `Run` takes one step toward the target.

Files:
- `wrappers.dfy`: `Option`.
- `config_store.dfy`: the schedule, the file record, loading and saving.
- `config_sync.dfy`: the remote reads and the sync.
- `feed_controller.dfy`: the trace of one feeding and its totals.
- `sketch.dfy`: the sketch's global state as the classes `Stepper` and `Feeder`, with the imperative
  `saveConfiguration`, `loadConfiguration`, `feed` and `loop`.

Points where the code's behaviour is easy to misread:
- `feed` loops over the signed `config.qtdPorcPadrao`, so a count of 0 or less runs the loop zero
  times (`Iterations`).
- Save removes the old file before opening the new one (src/main.cpp:117-120). A failed open or an
  empty write therefore leaves no record, and the next load gives the defaults (`SaveThenLoad`).
- The schedule test reads the clock afresh for each comparison, and the `||` short-circuits
  (src/main.cpp:296): a tick takes up to three readings. `ClockReads` supplies one per comparison,
  and the ones the short-circuit skips are never used. `ScheduleHitSameTime` covers the case where
  the readings agree.

## Model

| member | source | states |
|---|---|---|
| ConfigStore.LoadNothing | src/main.cpp:146-163 | a missing or unreadable file, or one with none of the keys, loads as exactly (2, "08:00:00", "14:00:00", "20:00:00") |
| ConfigStore.LoadEncode | src/main.cpp:131-163 | loading the record that save writes gives back the same schedule in all four fields |
| ConfigStore.LoadFieldwise | src/main.cpp:160-163 | each loaded field depends only on its own key in the file |
| ConfigStore.LoadSubstitutesDefault | src/main.cpp:160-163 | a missing key is replaced by that field's own default; a present key is copied unchanged |
| ConfigStore.SaveThenLoad | src/main.cpp:116-163 | after a save, a load returns the saved schedule if the file was written, and the defaults if opening or writing failed, because the old file was already removed |
| ConfigSync.TruncDiv | src/main.cpp:72 | C++ division by a positive divisor: the quotient is truncated toward zero and lies between 0 and the dividend |
| ConfigSync.PortionConversion | src/main.cpp:68-73 | a remote amount of 150 gives 3 portions, 40 gives 0, -40 gives 0 and -149 gives -2 |
| ConfigSync.SyncOverwritesOnlyAccepted | src/main.cpp:68-114 | a field is overwritten only when its own read succeeds with tag "int" or "string"; it then gets the read value (the amount divided by 50); otherwise it keeps its value in RAM |
| ConfigSync.SyncFieldsIndependent | src/main.cpp:68-114 | each synced field depends only on its own read and its own previous value |
| ConfigSync.SyncPartialFailure | src/main.cpp:92-102 | a failed `horario2` read with the other three succeeding updates every field but `hrPorc2` |
| ConfigSync.SyncIdempotent | src/main.cpp:68-114 | applying the same remote answers twice gives the same schedule as applying them once |
| FeedController.Moves | src/main.cpp:197-229 | k portions issue exactly 4k moves |
| FeedController.FeedTrace | src/main.cpp:196-232 | a feeding issues 4 moves per loop iteration plus three more commands; it starts with enable and ends with disable and then a log push |
| FeedController.MovesAt | src/main.cpp:205-228 | the i-th move of k portions is by the (i mod 4)-th step count of -3200, +600, -3200, +600 |
| FeedController.FeedTraceAt | src/main.cpp:196-232 | a feeding is: enable, then 4 moves per portion in the fixed cycle, then disable, then one log push; a count of 0 or less gives enable, disable and log push only |
| FeedController.MovesTotals | src/main.cpp:205-228 | k portions move the motor by -5200·k steps and push nothing to the log |
| FeedController.FeedTraceTotals | src/main.cpp:196-232 | one feeding moves the motor by -5200 steps per portion and pushes exactly one log entry |
| FeedController.RepeatTotals | src/main.cpp:296-308 | k feedings in a row push exactly k log entries and move the motor k times as far as one feeding |
| Sketch.FeedCalls | src/main.cpp:296-308 | a tick feeds at most twice; twice exactly when the schedule hits and the button is pressed; never exactly when neither holds |
| Sketch.ScheduleHitSameTime | src/main.cpp:296 | with one clock reading, the schedule hits exactly when the time equals one of the three slots |
| Sketch.TriggeredFeeds | src/main.cpp:296-308 | the two independent triggers of a tick add one feeding trace and one feeding's displacement for each trigger that fired |
| Sketch.Stepper.constructor | src/main.cpp:43 | the stepper starts at position 0 with target 0 |
| Sketch.Stepper.Move | src/main.cpp:205 | a relative move sets the target to the current position plus the step count and does not move the motor |
| Sketch.Stepper.Run | src/main.cpp:206-209 | one run takes at most one step, toward the target, and keeps the target |
| Sketch.Feeder.constructor | src/main.cpp:57-60 | at power-on the schedule is zeroed, the button state is low, no command has been issued and the motor is at 0 |
| Sketch.Feeder.SaveConfiguration | src/main.cpp:63-144 | the schedule becomes the synced schedule and the file becomes that schedule's record if it was written, and nothing otherwise |
| Sketch.Feeder.LoadConfiguration | src/main.cpp:146-167 | the schedule becomes the file's content with each missing field defaulted |
| Sketch.Feeder.MoveAndWait | src/main.cpp:205-210 | a move phase records its move and returns only once the motor has reached the new target, its old position plus the step count |
| Sketch.Feeder.Feed | src/main.cpp:190-241 | the trace grows by exactly one feeding trace for the configured count, and the motor moves by -5200 steps per portion; after at least one portion the motor is at rest at its target, and with none the target is unchanged |
| Sketch.Feeder.Tick | src/main.cpp:287-310 | the schedule is reloaded from flash, which is unchanged. Feed runs once per trigger (schedule hit, pressed button), which shows as that many log pushes and that many feeding displacements; a motor at rest before the tick is at rest after it |

## Left out

- `setup()` (src/main.cpp:243-285) is not modelled as an operation. It starts the serial port, configures the motor and its pins, waits for WiFi without limit, starts NTP and the database client, mounts the file system, and then runs load, save and printFile in that order. Load and save are modelled as methods on their own.
- WiFi, NTP and the database wire protocol are library code. The time is an input string, and each remote read is an input `Fetch`.
- `printFile`, all `Serial` output and the printed `errorReason` are diagnostics only.
- `delay(200)` is timing only.
- Pin-level I/O becomes the `Enable`/`Disable` events and a boolean button level.
- Sketch.Feeder.Feed: the `LogPush` event records that the timestamp push was attempted. Whether the database accepted it is not modelled, because the source only prints the result.
- Sketch.Stepper.Run: the speed and acceleration profile of the stepper library and the timing of its steps are not modelled. A run call always takes its step at once, so the busy-wait loops terminate after exactly as many calls as there are steps.
- Sketch.Stepper.Move: positions and targets are unbounded integers. The library keeps them in a 32-bit `long`, which would wrap after about 413,000 portions without a reset.
- ConfigStore.Encode: the JSON text, the 128- and 256-byte document buffers and SPIFFS are not modelled. A record always holds all four fields, so schedule strings too long for the buffer are not covered. A failed `SPIFFS.remove` and a partial write are not modelled either.
- The first clock reading of a tick (src/main.cpp:289) is only printed and is not modelled.
