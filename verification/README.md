# SmartBox firmware and its operations: a verification model

A SmartBox is a battery-powered box with a motor-driven lid. Its firmware runs an
eleven-state lid controller over three relays, guards the battery with a policy of
dwell timers on a wrapping millisecond counter, and updates itself over the air. On the
storage server an observer reads its telemetry and tells the owner, and a few operator
scripts change the update server's guards. This project models that core and proves what
it keeps over all runs, restarts and failures.

`dafny verify dfyconfig.toml` checks everything.

## How it is built

Each stateful part exists twice: as a class whose methods follow the source step by step,
and as functions on values. Every method is proved equal to its function, and the public methods of the controller and
the update manager also keep `Valid()`, which contains the safety invariant; everything else
is proved about the functions, for all inputs, states and runs.

| files | what they hold |
|---|---|
| `Numeric` | the 32-bit counter, floating-point values with NaN and infinities over exact reals |
| `BatteryPolicy`, `Battery` | the battery policy as a value and as the firmware's object |
| `BatteryHistory`, `BatteryDwell`, `BatteryLatch`, `BatteryDisplay`, `BatterySnapshot` | what its timers, its latch, its displayed state and its answers mean in real time |
| `Gpio` | the log of everything driven, in real time, and what makes a log safe |
| `Lid`, `LidController` | the lid controller as functions and as the firmware's object |
| `LidWiring`, `LidInvariant`, `LidLog`, `LidRecord` | what every step keeps; the battery's history as a function of the log |
| `LidAdmission`, `LidProtection`, `LidCharging`, `LidEnds` | when orders are obeyed, the protective stroke is made, a charging close starts and ends, and a stroke ends |
| `LidLifecycles`, `LidReactions`, `LidDirections`, `LidTheorems` | charging close, updates, strokes, runs and restarts |
| `ZeroTimer`, `LidSense`, `LidWatch`, `LidSight` | what the lid has seen over a run, and when it opens by itself |
| `LidTimes`, `LidStroke` | how long rests and strokes last in real time |
| `LidFlags`, `LidRestart` | the flags the lid carries between states, and what a restart finds on record |
| `LidSteps`, `LidZero`, `LidDeadlock`, `LidJoined` | concrete runs in which the code does what one might not expect |
| `DistanceFilter` | the median filter |
| `OtaQueue`, `OtaProcess`, `AutoOta`, `OtaSafety`, `OtaTheorems`, `OtaZero` | update requests, the update process among other tasks, the scheduler |
| `OtaEvidence`, `OtaCourse`, `OtaSteps`, `OtaRuns` | what the battery must show for an update, when the updater is called, and runs that reach it |
| `OwnerGate` | owner requests and their durable watermark |
| `PowerMonitor`, `Notifications`, `Telemetry` | the observer, what it tells, and its agreement with the firmware |
| `Activation`, `ActivationTheorems`, `SingleShot`, `LanRepair` | operator protocols |

Time is unbounded and real; the firmware sees it modulo 2^32. What a call reads from
outside (power readings, raw distances, how much longer than asked a contact delay
lasts, network results, what other tasks do in between) is a parameter, so a theorem over
all parameters is a theorem over all environments. A power loss is a cut of the log after
any event; the next boot starts from the flags stored up to there. The log also holds the
power readings, so that what the battery has shown is a function of it.

## What the code does otherwise than one might think

- After an emergency stop, recovery and reset clear the isolation flag without driving the
  direction pins again (src/SmartBoxController.cpp:279, 348). A close ordered before the
  next tick then energises main with both directions undriven. "Main on means one direction
  driven" is therefore false of ordinary closing strokes; `LidDirections.StartDrivesExactly`
  gives the exact condition, which can be read before the tick, and
  `LidDirections.ClosingAgainIsUndriven` the run. Every protective, charging and opening
  stroke does drive its direction (`LidTheorems.AnyMoment`), and the interlock always holds.
- A cutoff is taken up to 25 V, but above 15.3 V its recovery voltage lies above the 16 V a
  usable reading may show: protection, once entered, does not end (`BatteryLatch.HighLimitsHold`).
- Releasing the latch keeps the low timer (src/BatteryPolicy.cpp:38-48), so the next low
  sample may latch at once. `BatteryLatch.EntryExact` is the exact rule, and
  `BatteryLatch.PlainEntry` says that this happens only right after a release.
- The lid's start times use counter value zero for "not running". A wait that begins at that
  very value begins again with the next look (`LidZero.ZeroDelaysOpening`), and a close that
  ends there has no blind time (`LidZero.ZeroHasNoBlindTime`).
- The path must be clear for 10 s to end a sensor deadlock, "continuously" by a comment
  (src/SmartBoxController.cpp:110). Only idle looks are asked: what the sensor sees between two
  idle periods does not count. `LidSight.DeadlockDropsExactly` says what ends the wait
  otherwise, and `LidDeadlock.DeadlockEndsUnclear` is a run with someone in the path.
- A close records the lid as closed when it begins (src/main.cpp:103-104). A power loss halfway,
  or an emergency stop and then a power loss, restarts idle with the lid half open
  (`LidRestart.RestartsExactly`).
- Main is not opened when a new stroke goes the way of the one under way. Orders to open and
  close again between two ticks start the stroke's time over, as often as they are given
  (`LidJoined.OrdersHoldMotor`), and protection gives an opening it takes over a stroke of its
  own (`LidJoined.ProtectionTakesOver`). `LidStroke.JoinsExactly` says exactly when this
  happens; without it `LidStroke.StrokesAreBounded` is the bound.
- The scheduler uses the same sentinel: an automatic run at counter value zero leaves no mark,
  and the same day may see another (`OtaZero.ZeroRunRepeats`).
- The owner warning compares counter values, so after 2^32 ms of unbroken low voltage it
  goes off for five minutes (`BatteryDwell.WarningLapsesAfterOneTurn`).
- Admission of an owner command looks at the clock twice (src/MqttManager.cpp:182-186). If
  the clock steps back in between, more than two minutes may be granted; the controller and
  the request queue refuse such a value. `OwnerGate.GrantedTime` is the exact condition.
- Activation forgets a guard file whose replacement reports a failure after taking effect
  (ops/install_authenticated_ota.py:99): the file is not yet listed as changed, so it is not
  undone. For the binding file the same case is handled. `ActivationTheorems.AllOrNothingExactly`
  shows that this is the only way to end half-way when the undoing can write.

## Model
| member | source | states |
|---|---|---|
| `Numeric.SinceIsElapsed` | src/BatteryPolicy.cpp:10 | `uint32_t(now - at)` is the real time between two moments modulo 2^32, whatever number of wraps lies between, and the real time itself below 2^32 ms |
| `BatteryPolicy.StepsKeepWellFormed` | src/BatteryPolicy.cpp:5-66 | no sample and no restore breaks the ties between fields the rest relies on: a recovery timer runs only under a latch, a valid policy holds a finite voltage in (0, 16] and no fault state, a warning timer runs only on a valid voltage at or below 11.0 V |
| `BatteryHistory.StandingTimers` | src/BatteryPolicy.cpp:10-36 | after any history, with restores mixed in, the two readiness timers run exactly while there is an unbroken run of samples inside their band, and started at the first sample of the longest one |
| `BatteryHistory.RestoreNeverDisturbsWarning` | src/BatteryPolicy.cpp:5-8 | any number of `restoreProtection` calls anywhere leaves the owner warning, its elapsed time and its validity as if they had not been made |
| `BatteryDwell.DwellExact` | src/BatteryPolicy.cpp:67-84 | a dwell flag is shown if and only if the latest sample is at most 2 s old and the longest run, its length counted modulo 2^32, has reached the dwell |
| `BatteryDwell.OtaReadyMeaning` | src/BatteryPolicy.cpp:34-36 | `otaReady` is never shown without 30 s of real time at or above the recovery voltage with the latch free, and always with it for runs shorter than 2^32 ms |
| `BatteryDwell.ForceOtaReadyMeaning` | src/BatteryPolicy.cpp:31-32 | the same for `forceOtaReady` and the force floor, whatever the latch does |
| `BatteryDwell.LowWarningMeaning` | src/BatteryPolicy.cpp:26-30 | with restores mixed in, `lowWarning` is shown if and only if the run of samples at or below 11.0 V, counted modulo 2^32, has reached 300 s; so never without 300 s of real time, and always with them for runs shorter than 2^32 ms |
| `BatteryDwell.WarningLapsesAfterOneTurn` | src/BatteryPolicy.cpp:76-78 | a concrete family of histories: after 49.7 days of unbroken low voltage the counter has come round and the warning is off although the voltage never rose; the bound above is needed |
| `BatteryLatch.ReleaseExact` | src/BatteryPolicy.cpp:44-51 | a held latch is released by exactly the samples that complete 300 s of real time of unbroken valid samples, each at or above its own recovery voltage, at most 2 s apart, with no restore between; across any number of counter wraps |
| `BatteryLatch.RecoveriesAreCounted` | src/BatteryPolicy.cpp:48 | the recovery counter is the number of such releases modulo 2^32 |
| `BatteryLatch.EntryExact` | src/BatteryPolicy.cpp:38-43 | a sample that finds the latch free sets it if and only if it is low and its low stretch, told from the history alone and counted modulo 2^32, has lasted 3 s; the stretch passes over samples taken under an earlier held latch |
| `BatteryLatch.PlainEntry` | src/BatteryPolicy.cpp:38-48 | the stretch is just the latest run of low samples, so that exactly 3 s of real time in it latch, unless that run follows a release without a gap; only then is less enough |
| `BatteryLatch.LowSinceIsEarliest` | src/BatteryPolicy.cpp:38-43 | the stretch reaches back to the first sample from which nothing stopped it |
| `BatteryLatch.LowRunLatches` | src/BatteryPolicy.cpp:38-43 | 3 s of low samples always end with the latch held |
| `BatteryLatch.OneSampleRelatches` | src/BatteryPolicy.cpp:38-48 | a concrete history: right after a release one low sample latches again, because the release does not clear the low timer |
| `BatteryLatch.HighLimitsHold` | src/BatteryPolicy.cpp:13-50 | with a cutoff configured above 15.3 V no usable reading reaches the recovery voltage: whatever the readings, a latch that is held stays held as long as such limits stand |
| `Battery.Monitor.constructor` | src/BatteryPolicy.h:40-53 | the initial fields |
| `Battery.Monitor.RestoreProtection` | src/BatteryPolicy.cpp:5-8 | sets the latch and the protected state, stops every timer but the warning's, keeps all else; the object stays the replay of its history |
| `Battery.Monitor.TakeSample` | src/BatteryPolicy.cpp:9-66 | the new fields of one sample, and the object stays the replay of its history, so every theorem about histories holds of it |
| `Battery.Monitor.CheckGap` | src/BatteryPolicy.cpp:10-11 | a gap of more than 2 s stops all six timers, and nothing else does |
| `Battery.Monitor.Receive` | src/BatteryPolicy.cpp:12-18 | thresholds from the configured limit or its default, admission evidence kept from the last good voltage, validity |
| `Battery.Monitor.Accept` | src/BatteryPolicy.cpp:25-66 | how a usable sample drives each timer, the minimum, the latch and the displayed state |
| `Battery.Monitor.UpdateLatch` | src/BatteryPolicy.cpp:38-51 | entry and release of the latch in one sample |
| `Battery.Monitor.Classify` | src/BatteryPolicy.cpp:52-66 | one sample's part of the display; what it means is `BatteryDisplay.DisplayChangesExactly` (hysteresis and the 15 s dwell, as an equivalence over any history), `BatteryDisplay.DisplayDwell` and `BatteryDisplay.DisplayOtherwise` |
| `BatteryDisplay.DisplayChangesExactly` | src/BatteryPolicy.cpp:52-66 | over any timed history, with the latch free a settled display changes if and only if every sample for 15 s, counted modulo 2^32, has asked for the same other state, where a voltage leaves its band only by 0.1 V; and then to that state |
| `BatteryDisplay.DisplayDwell` | src/BatteryPolicy.cpp:60-66 | in real time: never without 15 s of samples at most 2 s apart that all ask for it, always with them within one turn of the counter |
| `BatteryDisplay.AskedSinceMeans` | src/BatteryPolicy.cpp:52-66 | from the sample the 15 s are counted from, every sample asked for that state, of the same display, at most 2 s after the one before |
| `BatteryDisplay.DisplayOtherwise` | src/BatteryPolicy.cpp:52-66 | in every other case the display follows at once: a fault, the latch (recovering at or above its recovery voltage), or after a fault the state of the voltage itself |
| `Battery.Monitor.Snapshot` | src/BatteryPolicy.cpp:67-84 | what the object answers: the flags are the dwell rules over its own history, it is valid exactly on a usable sample at most 2 s old, and it allows actuation exactly when its history admits the motor |
| `BatterySnapshot.AdmissionExactly` | src/BatteryPolicy.cpp:73 | over any history actuation is allowed if and only if the latch is free and the last voltage that was read as valid, finite and above zero, if there was one, lies above the cutoff of the latest sample and at most at 16 V |
| `BatterySnapshot.ReadingExactly` | src/BatteryPolicy.cpp:67-72 | a snapshot is valid if and only if the latest sample is usable and at most 2 s old in real time; it shows that sample's voltage and age, and a fault if it is not valid |
| `BatterySnapshot.RemainingExactly` | src/BatteryPolicy.cpp:74-75 | under the latch the remaining recovery time is what the present run at or above the recovery voltage lacks of 300 s |
| `BatterySnapshot.LeastMeans` | src/BatteryPolicy.cpp:33 | the minimum shown is at most every usable voltage there ever was, and one of them (`BatterySnapshot.LeastIsVoltage`, `BatterySnapshot.LeastIsShown`) |
| `LidController.Controller.ForceAllRelaysOff` | src/SmartBoxController.cpp:590-599 | all three pins to INPUT, main first, and the isolation flag set |
| `LidWiring.ForceOffWired` | src/SmartBoxController.cpp:590-599 | whatever the pins were, afterwards they are isolated, the log stays safe, and neither stored flags nor stroke counts change |
| `LidController.Controller.SwitchRelays` | src/SmartBoxController.cpp:541-570 | the exact event sequence of a direction change with its two contact delays |
| `LidWiring.SwitchWired` | src/SmartBoxController.cpp:541-570 | a direction change keeps break-before-make at every event and never drives both directions |
| `LidController.Controller.SetRelayStates` | src/SmartBoxController.cpp:526-588 | the interlock, the direction change only when needed, the re-read of a charging close, and the main relay |
| `LidController.Controller.RecheckCharge` | src/SmartBoxController.cpp:574-579 | the re-read after both contact delays and its three reasons to stop |
| `LidInvariant.RecheckKeeps` | src/SmartBoxController.cpp:574-579 | a close stopped by the re-read is isolated with the latch held; one that survives it has a safe reading taken at this very moment, and its latch is held too |
| `LidController.Controller.Transition` | src/SmartBoxController.cpp:353-376 | the state, its timers and counters, and what the callback writes to the store |
| `LidWiring.TransitionWired` | src/main.cpp:92-106 | what each state records: the hold flag follows the latch, the lid flag follows the state, and an OTA entry records nothing |
| `LidController.Controller.ReadAllSensors` | src/SmartBoxController.cpp:406-428 | one power reading: evidence, the last verified voltage, and one sample of the battery policy; when it is taken is `LidRecord.ReadingsOnTime` |
| `LidRecord.LogTellsBattery` | src/SmartBoxController.cpp:406-428 | in any run the policy is the replay of the power readings and held latches in the log, and the current and the last verified voltage are those of the log; so every theorem about histories holds of the controller |
| `LidRecord.ReadingsOnTime` | src/SmartBoxController.cpp:429-436 | a tick takes a reading first if and only if the last one is 200 ms old, or 1 s with the latch held and no stroke under way |
| `Gpio.SafeMoments` | src/SmartBoxController.cpp:526-599 | in a log all of whose events are safe, at every moment the two direction latches are not both LOW, there is at most one protective stroke since the last release and at most one closing stroke, a stroke is on record, and while main is on one direction is chosen, an opening one really driven |
| `LidController.Controller.ServicePowerPolicy` | src/SmartBoxController.cpp:429-479 | the new state and whether the tick ends here, for every state and reading; what it keeps is `LidInvariant.ServicePowerKeeps` |
| `LidInvariant.ServicePowerKeeps` | src/SmartBoxController.cpp:429-479 | it keeps the invariant; where it lets the state machine run on, the latch is free and no charging close is active |
| `LidController.Controller.SuperviseChargingClose` | src/SmartBoxController.cpp:437-450 | the order in which a running charging close is stopped and why; when it goes on and ends, told from the readings, is `LidCharging.ChargingEndsExactly` |
| `LidCharging.ChargingEndsExactly` | src/SmartBoxController.cpp:437-450 | in any run a look at a running charging close ends it, and for its reason, exactly as the readings say: no usable reading within 2 s, an unsafe voltage, the time to live over, the stroke time of at most 3.8 s over, or overcurrent: this look and the two before it, all later than 500 ms, each with a current above the limit in magnitude, 3000 mA if the limit is not finite and positive; otherwise it goes on |
| `LidInvariant.SuperviseKeeps` | src/SmartBoxController.cpp:437-450 | a charging close that goes on keeps the latch and the protection state, and one that ends is isolated |
| `LidInvariant.ChargeSample` | src/BatteryPolicy.cpp:44-51 | a sample inside the time to live of a charging close cannot complete the 300 s recovery |
| `LidController.Controller.StopChargingClose` | src/SmartBoxController.cpp:671-675 | isolation, the reason, and protection restored |
| `LidController.Controller.BeginProtection` | src/SmartBoxController.cpp:453-459 | entry into protection with or without the stroke; when it is entered and the stroke made is `LidProtection.ProtectionOpensExactly` |
| `LidProtection.ProtectionOpensExactly` | src/SmartBoxController.cpp:451-464 | from any state outside protection and updates a tick enters protection if and only if its reading leaves the latch held; that reading is then of this moment, usable and at or below the cutoff, and main is on with exactly the opening direction driven, unless the contact delays use up the actuator time: then every pin is in INPUT |
| `LidProtection.LowBatteryOpens` | src/SmartBoxController.cpp:451-459 | in any run 3 s of readings at or below the cutoff end with the lid being opened, from whatever state, as long as the actuator time outlasts the contact delays |
| `LidInvariant.EnterProtectionKeeps` | src/SmartBoxController.cpp:453-459 | the hold is stored before the main relay is energised, and the stroke is the first since the latch was released |
| `LidController.Controller.KeepProtection` | src/SmartBoxController.cpp:460-464 | one tick of the protective stroke; when it goes on is `LidStroke.ProtectionGoesOn`, how long main stays on in real time `LidStroke.StrokesAreBounded` |
| `LidStroke.ProtectionGoesOn` | src/SmartBoxController.cpp:460-464 | under protection without a charging close, main stays on if and only if it was on, the latch is held, the reading is valid and the actuator time since entry is not over; once it goes off every pin is in INPUT |
| `LidStroke.StrokesAreBounded` | src/SmartBoxController.cpp:70-314 | in any run from boot whose ticks are at most T apart while main is on, whose actuator times are at most A, and in which no starting tick finds main still on from a stroke in its own direction: main is never on without a break for longer than A + T of real time, or twice that for a protective stroke that took over an opening; for every stroke, with A + T below one turn of the counter |
| `LidStroke.JoinsExactly` | src/SmartBoxController.cpp:316-340 | when a new stroke begins with main staying on: exactly when a starting tick finds main on from a stroke in its own direction, which can be read before the tick, or when protection takes over an opening; every other new stroke breaks first |
| `LidJoined.OrdersHoldMotor` | src/SmartBoxController.cpp:316-340 | a concrete run for every n: orders to open and close between ticks 3 s apart, with an actuator time of 3.8 s, keep main on without a break for 3 n seconds |
| `LidJoined.ProtectionTakesOver` | src/SmartBoxController.cpp:453-459 | a concrete run: the battery falls below its cutoff during an opening, protection takes it over, and main is on without a break from 200 to 6400 ms after boot |
| `LidController.Controller.EndProtection` | src/SmartBoxController.cpp:466-476 | what leaving protection resets |
| `LidController.Controller.Tick` | src/SmartBoxController.cpp:70-314 | the whole new state of the controller, its log included, as a function of its old state and what it reads; what ticks keep and lead to is `LidInvariant.UpdateKeeps` and `LidLifecycles.TickFollowsTable` |
| `LidInvariant.UpdateKeeps` | src/SmartBoxController.cpp:70-314 | a tick keeps the invariant; under a charging close or an update it is the power service alone |
| `LidController.Controller.Observe` | src/SmartBoxController.cpp:75-87 | one look of the sensor and the end of the cooldown; what they achieve over any run is `LidSight.LooksExactly` (which readings decide) and `LidSight.NoEarlyReopening` (the cooldown in real time) |
| `LidController.Controller.Look` | src/SmartBoxController.cpp:378-383 | one raw reading goes into the ring and the distance becomes the median of the last five |
| `LidSight.LooksExactly` | src/SmartBoxController.cpp:75-133 | in any run an idle look counts as an approach if and only if three of the last five raw readings taken since boot or protection, one each 50 or 100 ms, are below the threshold, fewer than three at or below 2 cm, the cooldown since the last stroke and the blind time are over, and no deadlock is left; it finds the path clear if and only if fewer than three are within the threshold |
| `LidSight.NoEarlyReopening` | src/SmartBoxController.cpp:84-131 | in any run the idle lid does not open by itself within c of real time since its last close or emergency stop, where c is the least cooldown configured along the run, unless an order or the end of protection came between; nor within 3 s of a close unless that ended at counter value zero |
| `LidSight.RunIsSeen` | src/SmartBoxController.cpp:75-87 | over any run the sensor's fields stand for the readings taken and for the real times of the last reading, the last stroke and the last blinding |
| `LidController.Controller.RunStartup` | src/SmartBoxController.cpp:90-100 | the whole new state of a startup tick; with `LidReactions.RestingGoesOn`: motor off, left for calibration only |
| `LidController.Controller.RunIdle` | src/SmartBoxController.cpp:102-152 | the whole new state of an idle tick; when it opens is `LidWatch.IdleOpensExactly`, with `LidSight.LooksExactly` for what counts as an approach |
| `LidWatch.IdleOpensExactly` | src/SmartBoxController.cpp:126-150 | in any run an idle tick opens the lid if and only if this look and all back to a mark found an approach and the time from the mark, counted modulo 2^32, is the debounce time; so never without that much real time. The mark is the first such look since the lid became idle that the counter does not show as zero |
| `LidWatch.IdleOpensSurely` | src/SmartBoxController.cpp:126-150 | in any run it opens if all looks over the debounce time found an approach, the first of them not at counter value zero, within one turn of the counter |
| `LidZero.ZeroDelaysOpening` | src/SmartBoxController.cpp:136-138 | a concrete run for every boot time: a visitor seen from 300 ms on opens the lid 1000 ms later, the debounce time, if and only if the counter was not zero at the first look; at zero the wait begins again |
| `LidZero.ZeroHasNoBlindTime` | src/SmartBoxController.cpp:127-131 | a concrete run for every boot time: a visitor right after a close opens the lid 1300 ms after it, inside the blind time of 3 s, if and only if the close ended at counter value zero |
| `LidController.Controller.Heal` | src/SmartBoxController.cpp:110-124 | one idle look's part of the self-healing; what it means over any run is `LidWatch.DeadlockEndsExactly` |
| `LidWatch.DeadlockEndsExactly` | src/SmartBoxController.cpp:110-124 | in any run an idle tick ends a sensor deadlock if and only if this look and all back to a mark found the path clear for 10 s counted modulo 2^32; so never without 10 s of real time between the first and the last of these idle looks |
| `LidSight.DeadlockDropsExactly` | src/SmartBoxController.cpp:316-340 | every operation but an idle look either keeps a deadlock with its timer, or drops both, and it drops them if and only if it is an obeyed order to open or close or the end of protection |
| `LidSight.ClearTimerOutlivesIdle` | src/SmartBoxController.cpp:110-124 | so a tick left to the state machine outside idle keeps the deadlock and its timer, whatever the sensor sees |
| `LidDeadlock.DeadlockEndsUnclear` | src/SmartBoxController.cpp:110-124 | a concrete run: one clear idle look, a maintenance in which three of the last five readings show someone in the path, and the next idle look, 5.5 s after that, ends the deadlock |
| `ZeroTimer.LastedSurely` | src/SmartBoxController.cpp:113-138 | such a timer with zero for `not running` always fires on good looks from a first one at another counter value, within one turn |
| `LidController.Controller.RunStart` | src/SmartBoxController.cpp:155-162 | the whole new state of the tick that starts a stroke; with `LidDirections.StartDrivesExactly`: main on, and when a direction is driven |
| `LidController.Controller.RunOpening` | src/SmartBoxController.cpp:164-199 | the whole new state of an opening tick; its outcome, told from the readings over a run, is `LidEnds.StrokeEndsExactly` |
| `LidFlags.DeadlockBeginsExactly` | src/SmartBoxController.cpp:201-209 | in any run, whatever the operation, a sensor deadlock begins if and only if a tick finds the lid held open for the longest hold, counted modulo 2^32 from when it came to be held |
| `LidController.Controller.RunHold` | src/SmartBoxController.cpp:201-221 | the whole new state of a tick with the lid held open; when it closes is `LidTimes.HoldEndsExactly` |
| `LidTimes.HoldEndsExactly` | src/SmartBoxController.cpp:201-221 | in any run a tick of the held lid closes it if and only if it has been open for the longest hold, or for the hold time since it was last found occupied by three of five readings (never while it only opened to calibrate), counted modulo 2^32, and so exactly in real time within one turn |
| `LidTimes.RunIsTimely` | src/SmartBoxController.cpp:353-376 | over any run the state timer stands for the real time of entering the state, or of the last sight of someone at the open lid |
| `LidController.Controller.RunClosing` | src/SmartBoxController.cpp:229-271 | the whole new state of a closing tick; its outcome, told from the readings over a run, is `LidEnds.StrokeEndsExactly` |
| `LidController.Controller.RunEmergency` | src/SmartBoxController.cpp:273-290 | the whole new state of an emergency tick; when it is left, and where to, is `LidTimes.PauseEndsExactly` |
| `LidController.Controller.RunMaintenance` | src/SmartBoxController.cpp:292-299 | the whole new state of a maintenance tick; when it closes is `LidTimes.PauseEndsExactly` |
| `LidTimes.PauseEndsExactly` | src/SmartBoxController.cpp:273-299 | in any run a maintenance is closed exactly 300 s after it began, and an emergency stop is left exactly the recovery time after it began, for another opening if three of the last five readings show someone and no deadlock denies it, else for idle; counted modulo 2^32 |
| `LidLifecycles.TickFollowsTable` | src/SmartBoxController.cpp:89-314 | from each of the eleven states a tick leads only along the table of successors, into protection, or from protection to idle; without a charging close it leaves the one-shot close and the OTA reservation alone |
| `LidReactions.ClosingGoesOn` | src/SmartBoxController.cpp:229-271 | one closing tick: protection, three counted stalls, a person in the way, or the actuator time; the pins of each outcome |
| `LidReactions.OpeningGoesOn` | src/SmartBoxController.cpp:164-199 | one opening tick: protection, three counted stalls, or the actuator time; the pins of each outcome |
| `LidEnds.StrokeEndsExactly` | src/SmartBoxController.cpp:164-271 | in any run a tick of an opening or closing stroke leads exactly where the readings say: into protection if they leave the latch held; to a stop with every pin in INPUT if this and the two looks before it, all later than 500 ms, had a current above the limit in magnitude; from a close to another opening if three of five distances show someone and nothing speaks against it; to its end once the actuator time since its start, counted modulo 2^32, is over; otherwise it goes on with main as it was |
| `LidReactions.ChargingGoesOn` | src/SmartBoxController.cpp:437-450 | a charging close that outlives a tick is inside its stroke time (at most 3.8 s) and its time to live, on a valid safe voltage; otherwise every pin is in INPUT and the latch still held; the readings that decide are in `LidCharging.ChargingEndsExactly` |
| `LidReactions.RestingGoesOn` | src/SmartBoxController.cpp:90-299 | in the five resting states a tick keeps main off and leads only to the states that follow in the table; when it leads there is `LidWatch.IdleOpensExactly`, `LidTimes.HoldEndsExactly` and `LidTimes.PauseEndsExactly` |
| `LidDirections.StartDrivesExactly` | src/SmartBoxController.cpp:155-162 | a starting tick either starts its stroke with main on, and then drives the wanted direction if and only if a test made before the tick (a close, last stroke also a close, not isolated, direction pins in INPUT) does not hold; or it enters protection and then, if main is on, drives exactly the opening direction |
| `LidDirections.EntryDrives` | src/SmartBoxController.cpp:453-459 | whenever an entry into protection energises main, exactly the opening direction is driven, whatever the state before |
| `LidDirections.ClosingAgainIsUndriven` | src/SmartBoxController.cpp:342-351 | a concrete run in which an emergency stop is reset and the lid closed again before the next tick: main is energised with both direction relays undriven |
| `LidController.Controller.CommandOpen` | src/SmartBoxController.cpp:316-326 | the whole new state; the object starts opening exactly from a state that takes orders and with a history that admits the motor, and clears deadlock and cooldown then |
| `LidController.Controller.CommandClose` | src/SmartBoxController.cpp:328-340 | the same for closing, which also drops a maintenance request |
| `LidController.Controller.CommandReset` | src/SmartBoxController.cpp:342-351 | only an emergency stop with an admitted battery is reset; the isolation flag is cleared with the pins left as they are (see `LidDirections.ClosingAgainIsUndriven`) |
| `LidController.Controller.CommandMaintenance` | src/SmartBoxController.cpp:630-641 | starting maintenance opens the lid or stays where it is open, exactly when the battery's history admits the motor and the state takes orders |
| `LidController.Controller.CommandEndMaintenance` | src/SmartBoxController.cpp:643-650 | dropped outside an update; a lid in maintenance starts to close |
| `LidAdmission.CommandsObeyed` | src/SmartBoxController.cpp:316-351 | open, close, reset and the start of maintenance are obeyed, each from its states to its state, if and only if the battery's history admits the motor; otherwise they change nothing at all; the end of maintenance is always obeyed |
| `LidFlags.WishIsHeeded` | src/SmartBoxController.cpp:627-650 | in any run maintenance is wanted if and only if it was asked for, the battery and the state admitting it, and since then neither called off, nor timed out, nor ended by an obeyed order to close, the end of protection or the start of a charging close; and no opening is there to calibrate |
| `LidAdmission.TicksAdmitted` | src/SmartBoxController.cpp:477-478 | a tick in a resting state reaches the state machine if and only if the battery's history, with this tick's reading, admits the motor, in a motion state if and only if it leaves the latch free |
| `LidInvariant.StartMaintenanceKeeps` | src/SmartBoxController.cpp:630-641 | starting maintenance keeps the invariant in every state |
| `LidInvariant.CommandsKeep` | src/SmartBoxController.cpp:316-351 | open, close and reset keep the invariant in every state |
| `LidController.Controller.CommandChargingClose` | src/SmartBoxController.cpp:676-690 | a charging close is accepted only if none was used, and then it is active |
| `LidCharging.ChargingStartsExactly` | src/SmartBoxController.cpp:676-690 | a charging close starts if and only if none was used in this boot, the time to live is at most 120 s, the lid is in protection with the motor still and an actuator time set, the two readings before and after the contact delays are both safe for closing, the first with at most 50 mA and the latch still held, and the delays leave some of the time to live |
| `LidInvariant.RequestKeeps` | src/SmartBoxController.cpp:676-690 | a request, whether refused, stopped by its re-read or started, keeps the invariant |
| `LidLifecycles.ChargeLifecycle` | src/SmartBoxController.cpp:666-690 | over every operation: a running charging close sits in protection under a held latch; when it ends every relay pin is in INPUT; nothing but a first admitted request starts one; a used one stays used |
| `LidController.Controller.BeginUpdate` | src/SmartBoxController.cpp:480-500 | the reservation is granted exactly when the admission test passes; what that test asks of the battery's history is `OtaEvidence.StartsExactly` |
| `OtaEvidence.StartsExactly` | src/SmartBoxController.cpp:480-493 | a plain update is admitted if and only if the lid is idle, the latch free and the samples at or above the recovery voltage for 30 s up to now; a forced one on the force floor for 30 s and at most 50 mA either way; a recovery one on a sample at most 2 s old that is not usable and no verified voltage outside (cutoff, 16]; the special ones once a boot, from two minutes on, with the motor still; run lengths count modulo 2^32 |
| `OtaEvidence.ContinuesExactly` | src/SmartBoxController.cpp:501-511 | a reserved update may go on if and only if, for a plain one, the latch is free with those 30 s, for a forced one the force floor and the current hold, for a recovery one the latest sample is at most 2 s old and no verified voltage speaks against it, and for both of these the reservation is at most 120 s old |
| `OtaEvidence.ReadyMeans` | src/BatteryPolicy.cpp:79-82 | the 30 s in real time: never without them, always with them for runs within one turn of the counter |
| `LidInvariant.TryBeginKeeps` | src/SmartBoxController.cpp:494-500 | granted or not, it keeps the invariant |
| `LidController.Controller.EndUpdate` | src/SmartBoxController.cpp:516-524 | the end of an update without a reboot |
| `LidInvariant.FinishKeeps` | src/SmartBoxController.cpp:516-524 | it isolates the relays and leads to protection if the latch is held and to idle otherwise |
| `LidLifecycles.OtaIsolation` | src/SmartBoxController.cpp:494-524 | over every operation: an update state is entered only by an admitted reservation, keeps all three pins in INPUT, is left only by finishing, and then for protection exactly when the latch is held |
| `LidLifecycles.ForeignKeepsReservation` | src/SmartBoxController.cpp:512-515 | ticks, commands, reconfigurations and the power service during an update neither change the reservation nor enter or leave the update state |
| `LidLifecycles.ForeignRun` | src/SmartBoxController.cpp:451-452 | any run of such operations keeps the invariant and the reservation, and during an update every relay pin in INPUT |
| `LidLifecycles.AtMostOneSpecialGrant` | src/SmartBoxController.cpp:480-500 | over any run at most one recovery or forced reservation is granted per boot |
| `LidController.Controller.constructor` | src/main.cpp:78-83 | the state a boot starts in, chosen by the stored flags, after its first reading |
| `LidInvariant.BootKeeps` | src/SmartBoxController.cpp:24-67 | a boot from any stored flags establishes the invariant, into protection with the latch held if either flag is set |
| `LidInvariant.PerformKeeps` | src/SmartBoxController.cpp:70-351 | every operation, in every state and for all its inputs, keeps the invariant |
| `LidController.Controller.Do` | src/SmartBoxController.cpp:70-351 | the object performs any operation as the function of it does, from a valid state to a valid one; it adds to the log and never turns time back |
| `LidController.Controller.ValidMeans` | src/SmartBoxController.cpp:70-599 | what a valid object promises of the board: a safe log, never both directions LOW, one stroke of each kind, main on only in a motion state or for a stroke of protection, three pins in INPUT when isolated or updating, a held latch only in protection or an update |
| `LidLog.PerformExtends` | src/SmartBoxController.cpp:70-351 | no operation rewrites what was driven before or turns time back |
| `LidTheorems.AnyRun` | src/SmartBoxController.cpp:70-351 | between operations of any run: a held latch means protection or an update; main energised means a motion state or one of protection's two strokes, and one direction LOW; it is really driven under protection and in every opening; the isolation flag and the update state mean three pins in INPUT; a charging close is never cancelled |
| `LidTheorems.AnyMoment` | src/SmartBoxController.cpp:526-599 | at every event since boot, inside operations too: break-before-make with 100 ms on both sides, never both directions LOW, at most one protective stroke since the last release and only with the hold stored, at most one closing stroke and only on a safe reading taken at that moment; every protective, charging and opening stroke drives exactly one direction as main makes |
| `LidRestart.RestartsExactly` | src/main.cpp:79-106 | after any run and a power loss, whenever the next boot comes, it starts in protection with the latch held and main off if and only if the lid was last opening, held open, in maintenance or under protection, states it just passes through not counted; otherwise, also from a close or an emergency stop cut short, it starts idle with the latch free |
| `LidTheorems.OneStrokePerLatch` | src/main.cpp:79-106 | over any number of boots, each cut off at any event, one latch gets at most one protective stroke, and once it has had it the next boot is in protection with the latch held and main off |
| `LidTheorems.RestoredBootIsStill` | src/SmartBoxController.cpp:451-459 | a boot into protection makes no protective stroke before the latch has been released |
| `DistanceFilter.Filter.UpdateBuffer` | src/SmartBoxController.cpp:378-383 | the ring holds the last five readings |
| `DistanceFilter.Filter.Reset` | src/SmartBoxController.cpp:470-472 | after a reset it holds five far readings |
| `DistanceFilter.Filter.GetFilteredDistance` | src/SmartBoxController.cpp:385-404 | the exchange sort on a copy returns the median of the last five readings |
| `DistanceFilter.MedianIsUnique` | src/SmartBoxController.cpp:385-404 | five readings have one median only, so the contract of the filter fixes its result |
| `DistanceFilter.SeenByMajority` | src/SmartBoxController.cpp:385-404 | the filtered distance is within d if and only if three of the last five readings are; two wrong ones change nothing |
| `DistanceFilter.NearByMajority` | src/SmartBoxController.cpp:385-404 | the same for a distance below d |
| `DistanceFilter.LastFive` | src/SmartBoxController.cpp:378-383 | after any readings the ring holds the last five of them |
| `AutoOta.AutoOtaManager.constructor` | src/AutoOtaManager.cpp:56-72 | the manager at start |
| `AutoOta.AutoOtaManager.StartOtaUpdate` | src/AutoOtaManager.cpp:156-166 | which requests are queued, replace a queued one, or are refused |
| `AutoOta.AutoOtaManager.Enter` | src/AutoOtaManager.cpp:160-165 | the part under the mutex, with the controller's answer possibly out of date |
| `OtaQueue.AcceptedExactly` | src/AutoOtaManager.cpp:156-166 | a request is accepted if and only if it may be made, the controller was ready, no process runs, and the slot is free, or it is special and the one in the slot is plain or late; what the slot then holds |
| `AutoOta.AutoOtaManager.TakeManualRequest` | src/AutoOtaManager.cpp:147-151 | taking a request empties the slot and sets the in-progress flag, keeping its time stamp |
| `AutoOta.AutoOtaManager.ClaimAutomaticRequest` | src/AutoOtaManager.cpp:152-155 | an automatic run is claimed only with no run in progress and no request queued |
| `OtaQueue.OneProcess` | src/AutoOtaManager.cpp:147-155 | however many tasks run the scheduler in whatever order, two are never inside an update process at once |
| `OtaQueue.FreshSpecialStays` | src/AutoOtaManager.cpp:160-165 | a fresh recovery or forced request keeps its place, kind and deadline until a runner takes it |
| `OtaQueue.FreshMeansInTime` | src/AutoOtaManager.cpp:32 | a process that finds its special request fresh is inside the accepted time to live of at most 120 s, counted modulo 2^32 |
| `AutoOta.AutoOtaManager.RunOtaProcess` | src/AutoOtaManager.cpp:168-328 | the process as a function of the manager, the controller, the network results and everything other tasks do at each point between its steps |
| `AutoOta.AutoOtaManager.FetchManifest` | src/AutoOtaManager.cpp:175-228 | the version step and its outcomes |
| `AutoOta.AutoOtaManager.Judge` | src/AutoOtaManager.cpp:199-227 | an update is needed for another version, or for the same one under a forced request |
| `AutoOta.AutoOtaManager.PrepareUpdate` | src/AutoOtaManager.cpp:230-244 | the second admission test and the reservation of a plain update; whether the process gets past it is `OtaCourse.ProcessCallsExactly` |
| `AutoOta.AutoOtaManager.WaitForMotor` | src/AutoOtaManager.cpp:248-252 | the wait of at most a second for the motor current to fall, and its termination |
| `AutoOta.AutoOtaManager.CheckAgain` | src/AutoOtaManager.cpp:254 | the repeated test of power and, for special requests, of the time to live; what the power test asks of the battery's history is `OtaEvidence.ContinuesExactly` |
| `AutoOta.AutoOtaManager.FlashIsolated` | src/AutoOtaManager.cpp:248-266 | the first repeated test and the watchdog being left |
| `AutoOta.AutoOtaManager.ConnectAndFlash` | src/AutoOtaManager.cpp:268-286 | the second repeated test, right before the flash call |
| `AutoOta.AutoOtaManager.Conclude` | src/AutoOtaManager.cpp:288-327 | the three results of the flash call |
| `AutoOta.AutoOtaManager.Leave` | src/AutoOtaManager.cpp:325-326 | the common end of the process |
| `OtaSafety.ForeignIsQuiet` | src/SmartBoxController.cpp:451-452 | while an update holds the controller no operation of another task gets a relay pin driven, not even in its middle |
| `OtaSafety.ProcessEnds` | src/AutoOtaManager.cpp:168-328 | whatever the manifest, the power and the other tasks do: every exit that is not a reboot leaves the in-progress flag clear, the controller out of the update state and the watchdog subscribed; the updater is called at most once, only for a manifest that asks for it, only safely, and for a special request only if none was granted before |
| `OtaCourse.ProcessCallsExactly` | src/AutoOtaManager.cpp:168-328 | a process calls the updater if and only if the manifest asks for it and at every cut (start, manifest, second test, after the wait for the motor and the contacts, before the call) the battery's history shows what that kind of update needs and a special request is inside its time to live; the call is made there and then; the device reboots on a flash, and the final state and the controller follow from what the updater returned; an admitted process counts as one attempt; without a call nothing is flashed and the state is failed, or up to date for the version that runs already |
| `OtaRuns.ScheduledUpdateFlashes` | src/AutoOtaManager.cpp:168-328 | a concrete run from boot: a minute of a good battery, another version in the manifest, and the scheduled round flashes it |
| `OtaRuns.ForcedUpdateFlashes` | src/AutoOtaManager.cpp:86-328 | a concrete run from boot in which the owner forces the version that runs already |
| `OtaRuns.RecoveryFlashes` | src/AutoOtaManager.cpp:86-328 | a concrete run from boot in which the sensor fails and the owner's recovery is flashed |
| `AutoOta.AutoOtaManager.Update` | src/AutoOtaManager.cpp:86-110 | the order of requests before the schedule; from a valid object to a valid one, and unless it reboots no process is left in progress, the controller is out of the update state and the task watched |
| `AutoOta.AutoOtaManager.RunRequest` | src/AutoOtaManager.cpp:96-101 | an expired special request is refused after it was taken; when a request is taken and run is `OtaZero.RequestRunsExactly` |
| `OtaZero.RequestRunsExactly` | src/AutoOtaManager.cpp:86-101 | a queued request is taken by a connected round if and only if it is special or the battery's history lets a plain update start; a special one that is late by then is refused, any other has its process |
| `AutoOta.AutoOtaManager.RunSchedule` | src/AutoOtaManager.cpp:104-145 | the first run of a boot and the daily run |
| `OtaTheorems.AnyService` | src/AutoOtaManager.cpp:86-328 | over a whole boot from any stored flags, with any requests, ticks, commands, manifests and results: at the last check before every flash call the battery had shown, for a plain update, a free latch and 30 s at or above the recovery voltage up to 2 s ago, for a forced one 30 s at the force floor and at most 50 mA, for a recovery a sample at most 2 s old and no verified voltage that speaks against it, the special ones reserved at most 120 s before; at most one call serves a recovery or forced request, and between rounds nothing is left behind |
| `OtaTheorems.FlashIsIsolated` | src/AutoOtaManager.cpp:254-286 | from the last power check to the return of the flash call no moment sees a relay pin out of INPUT, and a special call starts inside the accepted time to live |
| `OtaTheorems.OneRunADay` | src/AutoOtaManager.cpp:122-144 | once an automatic run has left its mark, a counter value other than zero, and noted its day, that day sees no second one |
| `OtaZero.DueRunsExactly` | src/AutoOtaManager.cpp:104-145 | a round in which the power allows an update, nothing is asked for and the last check is 30 s old starts an automatic run if and only if no run has left a mark, or the hour has come on a day other than the noted one; the run's mark is the counter value |
| `OtaZero.ZeroRunRepeats` | src/AutoOtaManager.cpp:113-138 | a concrete run for every boot time: rounds at noon of one day and twice at noon of the next make two automatic runs, and a third one on the second day if and only if the counter showed zero at the second |
| `OwnerGate.ValidateRequest` | src/RecoveryOtaRequest.cpp:3-7 | a request passes if and only if its id is 32 lower-case hex digits and it expires within 120 s of a plausible clock; the time to live is what is left, in milliseconds, in (0, 120000] |
| `OwnerGate.OwnerRequestGate.constructor` | src/OwnerRequestGate.h:10-13 | an empty gate |
| `OwnerGate.OwnerRequestGate.RestoreWatermark` | src/OwnerRequestGate.h:7 | the watermark only rises |
| `OwnerGate.OwnerRequestGate.AcceptRequest` | src/OwnerRequestGate.cpp:4-9 | exactly which requests the gate accepts, and its new watermark and ids |
| `OwnerGate.OwnerRequestGate.AcceptStoredRequest` | src/OwnerRequestGate.cpp:11-17 | load, raise, accept, save: what is left in memory and in the store for every failure |
| `OwnerGate.CommandDesk.AdmitOwnerCommand` | src/MqttManager.cpp:175-187 | admission of a command with its second look at the clock |
| `OwnerGate.AtMostOnce` | src/OwnerRequestGate.cpp:4-17 | over any deliveries, failed or half-failed writes and restarts: granted expiries rise strictly, the stored watermark never falls, a boot grants at most eight requests and no id twice |
| `OwnerGate.AnyDeliveries` | src/OwnerRequestGate.cpp:11-17 | the same from a first boot on: no two grants share an expiry, each is at or below what the store holds, at most eight in this boot |
| `OwnerGate.GrantsAreShort` | src/MqttManager.cpp:182-186 | over any run whose clock does not step back between the two looks, every grant is for more than zero and at most 120000 ms |
| `OwnerGate.NeverAgain` | src/OwnerRequestGate.cpp:4-17 | a message granted once is never granted again, whatever happens in between |
| `OwnerGate.NewRequestGranted` | src/OwnerRequestGate.cpp:4-17 | a request later than all before, with an id of its own, is granted if and only if it is well formed, in time, first-hand, the store works and fewer than eight were accepted since the restart |
| `OwnerGate.GrantedTime` | src/MqttManager.cpp:185-186 | the granted time is what is really left, within two minutes, if and only if the second look is at most two minutes before the expiry; so always if the clock did not step back |
| `OwnerGate.ClockSetBack` | src/MqttManager.cpp:182-186 | a concrete delivery: a clock set back by one second between the two looks grants 121 s |
| `Telemetry.Agreement` | src/MqttManager.cpp:435-474 | for every history of the battery policy and every counter value, the published frame judged in time is never rejected, never without a warning policy, and reads low battery if and only if the firmware's warning is set; otherwise its state and voltage are the snapshot's; judged later than twice its interval and 30 s it reads offline, from more than 5 s in the future invalid |
| `Telemetry.OwnerWarningMeaning` | ops/power_monitor.py:33-74 | from battery to owner: low battery is told only after 300 s of real time at or below 11.0 V, and always then for runs shorter than 2^32 ms |
| `Telemetry.LowBatteryNeedsProof` | ops/power_monitor.py:54-66 | whoever wrote the sample, low battery is said only of a complete, fresh, consistent warning at a voltage of at most 11.0 V |
| `PowerMonitor.Observer.constructor` | ops/power_monitor.py:173 | the observer with no stored state |
| `PowerMonitor.Observer.Filter` | ops/power_monitor.py:180-182 | the loop drops events of the superseded policy and a low battery that is over, keeping order |
| `PowerMonitor.Observer.Cycle` | ops/power_monitor.py:171-193 | one cycle: the new state, event file, offer and delivery; the event file is the last fifty events |
| `Notifications.EventsAreChanges` | ops/power_monitor.py:70-85 | from an empty state the emitted statuses are exactly the changes of the mapped observations starting from normal, each event with the time, severity and voltage of the observation it tells of |
| `Notifications.ChangesAlternate` | ops/power_monitor.py:80-83 | such a stream never repeats itself and ends where the observations end |
| `Notifications.OwnerIsToldInOrder` | ops/power_monitor.py:171-193 | delivered and then pending events are an ordered part of the emitted ones, at most sixteen pending; every event has a message; low battery is offered only in a cycle that sees the warning itself |
| `Notifications.NothingIsLost` | ops/power_monitor.py:180-192 | while the queue has room, every event but a low battery that is over is delivered or pending, once and in order |
| `Notifications.EmittedIsQueued` | ops/power_monitor.py:184-193 | an event a cycle emits is told in that very cycle or is the last one in the queue after it, however full the queue was |
| `Notifications.OwnerIsTold` | ops/power_monitor.py:180-192 | in any run an event in the queue is told by the time the notifier has accepted once for it and once for each event before it, while the queue has room; for a low battery as long as the warning is seen |
| `Notifications.StateRecalls` | ops/power_monitor.py:70-85 | in any run the stored state holds the last observation, its time and what is to be told of it, and the moment since when that has been the same without the clock going back |
| `Activation.Host.Replace` | ops/update_ota_origin_guard.py:52-61 | a replacement is one step: done, not done, or done with a failure reported |
| `Activation.Host.ReplaceGuards` | ops/install_authenticated_ota.py:97-99 | the forward loop and the point where it stops |
| `Activation.Host.Run` | ops/install_authenticated_ota.py:90-121 | the whole activation, disk, proxy and every moment between, for every schedule of failures |
| `Activation.Host.TakeBack` | ops/install_authenticated_ota.py:108-110 | the undoing loop in reverse order |
| `Activation.Host.TakeBackBinding` | ops/install_authenticated_ota.py:111-119 | the undoing of the binding and the reload |
| `ActivationTheorems.EveryMomentOnStairs` | ops/install_authenticated_ota.py:97-110 | at every moment the new files are the first ones of the order, unless a guard file whose forerunners all went well is replaced with a failure reported after it took effect |
| `ActivationTheorems.SlipsExactly` | ops/install_authenticated_ota.py:97-99 | there is such a file, told from the failures alone, if and only if the forward loop stops at it with its replacement in effect |
| `ActivationTheorems.StairsRise` | ops/install_authenticated_ota.py:108 | so the path guard is never new while the variables it refers to are old |
| `ActivationTheorems.AllOrNothing` | ops/install_authenticated_ota.py:90-121 | installed means all new on disk and in the proxy; otherwise, if the undoing can write, all is as before, but for the one file whose replacement failed after taking effect, the first not to be done |
| `ActivationTheorems.InstallsExactly` | ops/install_authenticated_ota.py:90-105 | activation is installed if and only if every step of it works: each guard file readable, unchanged and replaced, the proxy tested and loaded, both checks answered, the gateway file readable, unchanged and replaced |
| `ActivationTheorems.AllOrNothingExactly` | ops/install_authenticated_ota.py:97-110 | with files that really change and an undoing that can write, activation is all or nothing if and only if no guard replacement fails after taking effect |
| `ActivationTheorems.BindingComesLast` | ops/install_authenticated_ota.py:100-105 | the gateway is bound to the new files only when all are in place, loaded, and answering |
| `SingleShot.AdmittedEvidence` | ops/first_battery_transition.py:19-41 | admitted rows are one unbroken, recent stretch of one boot: uptime never falls, none is older than 113 s, any two voltages are within 0.05 V |
| `SingleShot.SteadyIsAdmitted` | ops/first_battery_transition.py:19-41 | evidence that ends in four rows half a minute apart, of one boot and with one voltage in range, is admitted, whatever came before |
| `SingleShot.Operator.TriggerOnce` | ops/first_battery_transition.py:52-64 | one caller, stopped anywhere: which of reservation, syncs and publication happened |
| `SingleShot.PublishedAtMostOnce` | ops/first_battery_transition.py:52-64 | any number of interleaved callers, crashes at any step and power losses that may take an unsynced entry: at most one publication, and only under a reservation no power loss can take away |
| `SingleShot.ReservationIsForever` | ops/first_battery_transition.py:56-57 | once the reservation is durable and its holder is done, nothing is ever published again |
| `LanRepair.RepairCandidate` | ops/observe_ota_origin.py:71-94 | the loop finds nothing, the one eligible network, or more than one |
| `LanRepair.OrderAndRepetition` | ops/observe_ota_origin.py:71-94 | records in another order or repeated give the same judgement |
| `LanRepair.VotesExactly` | ops/observe_ota_origin.py:75-91 | a record speaks for a network if and only if it is a refused firmware request of a private device no range allows, and that network is the only local one, private and small, that holds it |
| `LanRepair.CandidateIsAddable` | ops/update_ota_origin_guard.py:30-39 | a candidate is a small private local network holding a refused device no range allows, and it can be added if and only if fewer than eight ranges are in use |
| `LanRepair.AdditionIsNarrow` | ops/update_ota_origin_guard.py:30-39 | an addition opens exactly the new network: at most 256 addresses, all private |
| `LanRepair.RepairIsFixpoint` | ops/observe_ota_origin.py:71-94 | with the candidate added the same records ask for nothing more, and every peer that spoke for it is allowed |

## Left out
- Float32 rounding: thresholds are exact decimals and measurements exact reals, with NaN and infinities kept; distances and their thresholds are finite; the observer's rounded display values (`round`) are not modelled, they decide nothing.
- Time inside an operation: it stands still except in the two contact delays, which last at least as long as asked.
- Locks: each operation under the controller's mutex, and each section under the request mutex, is one step; the long update process is cut at every call it makes, and other tasks act in the cuts. In `AutoOta` the end of an update and the clearing of the in-progress flag are one step.
- `STATE_STARTUP_OPEN` is modelled, but only an outside `transitionTo` enters it, so no run here reaches it.
- Store writes of the lid and hold flags succeed; a store that loses them is not modelled. A latch first acquired during an update is not stored before the next recorded state, as in the code.
- The owner's stored watermark either loads as it was stored or reports a failure.
- Power fault diagnostics, logs, MQTT events, cycle statistics and Home Assistant discovery: they steer nothing.
- External calls of `transitionTo`, repeated `init`, and callers without a controller.
- Wi-Fi, TLS, HTTP and updater internals: their results are inputs (manifest failed, unreadable, same or other version; flash failed, no update, done).
- The queue wait and the time between power samples are below 2^32 ms where a statement says so (`InStep` for the latter); beyond, times count modulo 2^32.
- `parse_flux` and the query: the observer's model starts from the parsed sample or from what the query failed with. File writes of the observer succeed, and an event carries no random id.
- `validate_candidate`: regular expressions over the artifact's identity; its result is an input of `SingleShot.Operator.TriggerOnce`.
- Other writers of the guard files during an activation; rendering, permission checks, hashing and processes of the operator scripts.
- Text forms of addresses and networks: `LanRepair` starts from parsed ones, compared as networks.
- The fields of the classes are grouped into records where the source has single fields; each method still updates them in the source's order.
