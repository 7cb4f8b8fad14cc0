# asus-fan: the fan-control state machine

This project models the fan control of the ASUS fan driver (`asus_fan.c`).
The driver lets one or two laptop fans be pinned at a manual speed or handed
back to the firmware's automatic control. It also sets a maximum-speed
ceiling and reads the tachometer. All of this goes through ACPI procedures:
`RFAN` (read speed), `SFNV` (write speed; index 0 means "all fans
automatic"), `TACH` (tachometer), `QMOD` (quiet mode; 2 restores 0xFF) and
`ST98` (set ceiling).

The driver's process-wide variables are `fan_states`, `fan_manual_mode`,
`has_gfx_fan` and `max_fan_speed_setting`. They are the fields of the class
`AsusFan.FanController`. The two per-fan arrays stay `array`s. Each C function
is a method of that class. A ghost field `trace` records every ACPI
evaluation issued, with the status it returned. Firmware answers come from a
`Reply(status, value)` parameter, one per evaluation the operation may issue.
Every method states its effect directly. It is also tied to a function of
module `FanModel`, which computes the same step on a value (`FanState`).
The lemmas of module `FanProperties` are stated about those functions.

Files:

- `firmware.dfy`: the ACPI calls, replies and trace events.
- `platform.dfy`: the DMI vendor and product lists.
- `fan_model.dfy`: the state as a value, one function per operation,
  `Step`/`Run` over any sequence of requests, and what a call history says
  the firmware was last told.
- `fan_properties.dfy`: the lemmas.
- `asus_fan.dfy`: the class.

The class invariant `Valid()` holds three things:

- every fan is manual exactly when a non-negative speed is cached for it;
- the recorded ceiling is the last ceiling the firmware acknowledged;
- fan 0's cached mode is what the last write addressed to it commanded.

Fan 1 keeps the last property too, but only on a graphics platform and only
after a load that reaches the global automatic call
(`FanProperties.InitAlignsSecondFan`, `FanProperties.RunKeepsCacheMirror`).
On a single-fan platform fan 1 is still accepted, and its cache can go stale
(`FanProperties.SecondFanCacheGoesStaleWithoutGfx`).

Where the design description and the code differ, the model follows the code:

- no operation rejects fan 1 on a single-fan platform;
- there is no range check on speeds;
- `fan_set_auto` clears fan 1 only when `has_gfx_fan` is set;
- the local state changes even when the firmware call fails;
- `fan_init` sets the ceiling with `ST98(255)`, not with a QMOD reset;
- `fan_exit` does not reset the ceiling.

## Model

| member | source | states |
|---|---|---|
| `Platform.HasGfxFan` | asus_fan.c:599-620 | listed single-fan products give false, listed graphics products give true, any other name gives None, each as an if-and-only-if against the two name sets |
| `Platform.ProductLists` | asus_fan.c:599-609 | the two product lists are disjoint and hold 10 and 4 names |
| `FanModel.Rescale` | asus_fan.c:182-188 | the reported value is a multiple of four whose quarter is the raw reading plus one |
| `FanProperties.ManualReadIsCached` | asus_fan.c:172-176 | a manual fan reports its cached speed with status 0 and no RFAN call |
| `FanProperties.AutomaticReadQueriesFirmware` | asus_fan.c:178-189 | an automatic fan issues exactly RFAN(fan); success reports (r+1)*4 with status 0, failure returns the status and leaves `*state` as it was |
| `FanProperties.ReadReportsMode` | asus_fan.c:172-176 | for a consistent manual fan the reported state is the non-negative speed of its mode |
| `FanProperties.ManualSetPinsFan` | asus_fan.c:193-232 | a value other than 256 pins the fan at it, whatever the firmware answers, changes nothing else, issues exactly SFNV(fan+1, value) and returns that call's status |
| `FanProperties.ManualSetThenRead` | asus_fan.c:156-207 | after a manual set, a read returns the value set with status 0 and no firmware call |
| `FanProperties.AutomaticSetReleasesFan` | asus_fan.c:196-202 | 256 releases the addressed fan and fan 0, releases fan 1 when it is addressed or on a graphics platform, issues exactly SFNV(0,0) and returns its status |
| `FanProperties.SetAutoReleasesFans` | asus_fan.c:379-413 | the global automatic call releases fan 0 always and fan 1 only with a graphics fan, whatever the firmware answers, leaves fan 1 alone otherwise, and issues exactly SFNV(0,0) |
| `FanProperties.SetAutoIdempotent` | asus_fan.c:384-390 | calling the global automatic call twice leaves the same variables as calling it once |
| `FanProperties.ResetRestoresCeiling` | asus_fan.c:326-349 | a reset ignores its argument, issues QMOD(2), records 255 on success and leaves the ceiling unchanged on failure |
| `FanProperties.SetRecordsCeiling` | asus_fan.c:351-376 | without reset, ST98(state) is issued, `state` is recorded on success and the ceiling is unchanged on failure |
| `FanProperties.RpmIsBestEffort` | asus_fan.c:235-255 | the tachometer issues TACH(fan) and reports its value, or 0 when it fails |
| `FanProperties.InitRefusesUnknownPlatform` | asus_fan.c:594-623 | a vendor other than ASUSTeK or an unlisted product gives -ENODEV, no call and no change |
| `FanProperties.InitSequence` | asus_fan.c:595-652 | on a listed product the graphics flag follows the lists; registration, ST98(255) and SFNV(0,0) follow in order, each only after the previous one succeeded, and the first failing status is returned |
| `FanProperties.InitLeavesFansAutomatic` | asus_fan.c:633-649 | once the ceiling call succeeds, fan 0 (and fan 1 on a graphics platform) is automatic and the ceiling is 255; starting from the initial variables, every fan is automatic |
| `FanProperties.ExitReleasesFans` | asus_fan.c:662-668 | unloading issues SFNV(0,0) and releases fan 0 (and fan 1 on a graphics platform) even if that call fails; it leaves the ceiling unchanged |
| `FanProperties.LastCommandAppend` | asus_fan.c:220-222 | one more event updates the last command to a fan only if the event is an SFNV addressing that fan (index fan+1) or all fans (index 0) |
| `FanProperties.LastCeilingAppend` | asus_fan.c:373-374 | one more event updates the last acknowledged ceiling only if it is a successful ST98 or QMOD(2) |
| `FanProperties.StepShape` | asus_fan.c:156-413 | no request changes the graphics flag, and each request issues at most one firmware call |
| `FanProperties.StepKeepsConsistent` | asus_fan.c:193-207 | each request keeps every fan's mode and cached speed in agreement |
| `FanProperties.StepKeepsCeilingMirror` | asus_fan.c:316-377 | each request keeps the recorded ceiling equal to the last acknowledged one |
| `FanProperties.StepKeepsCacheMirror` | asus_fan.c:193-232 | each request keeps a fan's cached mode equal to what the last write addressed to it commanded (fan 1 only with a graphics fan) |
| `FanProperties.StepKeepsInvariant` | asus_fan.c:156-413 | each request preserves the driver invariant |
| `FanProperties.StepIssuesPermittedCalls` | asus_fan.c:156-413 | each request issues only calls of the permitted shapes |
| `FanProperties.RunKeepsConsistent` | asus_fan.c:69-72 | after any sequence of requests every fan is manual exactly when a non-negative speed is cached, and the graphics flag is unchanged |
| `FanProperties.RunKeepsCeilingMirror` | asus_fan.c:307-377 | after any sequence of requests the recorded ceiling is the last one the firmware acknowledged, or 255 if none |
| `FanProperties.RunKeepsCacheMirror` | asus_fan.c:193-413 | after any sequence of requests, fan 0's cached mode (and fan 1's with a graphics fan) is manual at v exactly when the last write concerning it was SFNV(fan+1, v), whether or not the firmware accepted it |
| `FanProperties.RunIssuesPermittedCalls` | asus_fan.c:156-413 | every call issued has a permitted shape: SFNV index 0 only as SFNV(0,0), indices 1 and 2 otherwise, the sentinel 256 never written, QMOD only with 2 |
| `FanProperties.RunFromInitial` | asus_fan.c:69-83 | from the initial variables the driver invariant holds after any sequence of requests |
| `FanProperties.InitKeepsInvariant` | asus_fan.c:591-653 | loading preserves the driver invariant whatever the platform and the firmware answers |
| `FanProperties.InitAlignsSecondFan` | asus_fan.c:643-649 | on a graphics platform, a load past the ceiling call leaves fan 1's cache in step with the firmware |
| `FanProperties.SecondFanCacheGoesStaleWithoutGfx` | asus_fan.c:384-390 | on a single-fan platform, pinning fan 1 and then releasing fan 0 leaves fan 1 cached as manual at 100, although its last write was the global SFNV(0,0) |
| `AsusFan.FanController.constructor` | asus_fan.c:69-83 | static initial values: no fan manual, cached speeds -1, no graphics fan, ceiling 255, empty trace |
| `AsusFan.FanController.GetCurState` | asus_fan.c:156-190 | a manual fan reports its cached speed with no call; otherwise exactly RFAN(fan); success reports (r+1)*4, failure returns the status and leaves the prior value; nothing but the trace changes |
| `AsusFan.FanController.SetCurState` | asus_fan.c:193-207 | 256 releases the fan as the global automatic call does and returns its status; any other value pins the fan at it, leaves the other fan alone and issues SFNV(fan+1, value); the invariant is kept |
| `AsusFan.FanController.SetSpeed` | asus_fan.c:209-232 | exactly one SFNV(fan+1, speed) is issued and its status returned |
| `AsusFan.FanController.SetAuto` | asus_fan.c:379-413 | fan 0 is released always and fan 1 only with a graphics fan, whatever the firmware answers; exactly SFNV(0,0) is issued and its status returned |
| `AsusFan.FanController.GetMaxSpeed` | asus_fan.c:307-314 | returns the recorded ceiling with status 0 and changes nothing, the trace included |
| `AsusFan.FanController.SetMaxSpeed` | asus_fan.c:316-377 | reset issues QMOD(2) and records 255 on success; without reset ST98(state) is issued and `state` recorded on success; failure keeps the ceiling and returns the status |
| `AsusFan.FanController.FanRpm` | asus_fan.c:234-255 | issues TACH(fan) whatever the mode and returns its value, or 0 on failure; the variables do not change |
| `AsusFan.FanController.Init` | asus_fan.c:591-653 | unknown vendor or product gives -ENODEV with nothing changed; success means the graphics flag follows the lists, fans are automatic, the ceiling is 255 and the trace got ST98(255) then SFNV(0,0) |
| `AsusFan.FanController.Exit` | asus_fan.c:662-668 | the global automatic call with its status ignored; fan 0 (and fan 1 on a graphics platform) is released and the ceiling is not reset |

## Left out

- The ACPI evaluation itself (`acpi_evaluate_integer` and the shared `params` list): it is foreign firmware. Each evaluation is a `Reply` parameter, and the model records which procedure was called with which arguments.
- Registration and teardown glue: the platform driver, the sysfs groups, the hwmon attribute tables, and probe/remove with `kzalloc`/`kfree` (asus_fan.c:94-105, 445-589, 655-660). This is kernel plumbing. `fan_init` sees only the status of registration (parameter `registered`), and `fan_exit` only its `fan_set_auto` call.
- The sysfs callbacks (asus_fan.c:256-305, 416-442): they parse text with `kstrtouint` and ignore its errors, and they print with `sprintf`. This is text I/O. The model keeps one effect of them: the read callbacks preload `*state` with 0, so a failed read prints 0. The `prior` argument of `GetCurState` and the `Read` request model this preload. The fan labels ("CPU Fan", "GFX Fan") and the reported minimum of 10 are constant outputs of these callbacks.
- `printk` logging, because it is diagnostics only.
- Concurrency: the driver takes no lock, and the global `params` is shared between calls. Every operation is modelled as sequential.
- `AsusFan.FanController.SetCurState`: it takes only values from 0 to 2^31-1 (`CValue`). The driver stores the `unsigned long` argument into an `int` and does not check its range, so larger values are truncated. That truncation is not modelled.
- `AsusFan.FanController.SetMaxSpeed`: it takes only values from 0 to 2^31-1, for the same `int` truncation of `max_fan_speed_setting`. Its only caller, `fan_init`, passes 255.
- `AsusFan.FanController.GetCurState`: the rescaled reading (r+1)*4 is an unbounded integer. The 64-bit wrap-around of `unsigned long long` is not modelled.
- The `UnsupportedFan` rejection and the 0..255 range check that the design describes are absent, because the code has neither. A fan index is 0 or 1 (`FanIndex`), which are the only values the driver's callers pass.
