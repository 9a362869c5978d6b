# blockly-vehicle, modelled in Dafny

blockly-vehicle lets a browser drive a small mecanum-wheeled car with
Blockly blocks. The browser turns the blocks into Python. A cloud gateway
relays the script to the car. On the car, a restricted sandbox runs the
script against a hardware binding layer: motors, servos, a camera gimbal,
line and sonar sensors.

This project models the parts of that system that hold state or make
decisions, and proves properties about them:

- **Script sandbox** (`vehicle/executor/sandbox.py`).
  - `sandbox_namespace.dfy`: the namespace a script sees.
  - `sandbox_engine.dfy`: the execution engine `CodeSandbox` and the
    single-flight supervisor `ProcessManager`.
- **Hardware binding layer, on its mock paths.**
  - `motion.dfy`: wheels and servos.
  - `gimbal.dfy`: the camera gimbal.
  - `sensor.dfy`: the sensor predicates.
- **Go gateway.**
  - `pool.dfy`: the connection pool and its heartbeat sweep.
  - `message_types.dfy`: the connection-type enum and the message envelope.
- **Python gateway** (`gateway.dfy`): the vehicle connection pool and the
  Socket.IO handlers that change it.
- **Vehicle's cloud connection** (`connection_manager.dfy`): reconnect
  back-off, the running flag, handler dispatch, and send gating and
  stamping.
- **Front end** (`pinyin.dfy`): the Chinese/pinyin language switch.

Shared pieces:

- `wrappers.dfy`: `Option`, `Result`, and a small model of Python
  exceptions.
- `text.dfy`: Python's `str(int)`, `split` and `join`.
- `vehicle_naming.dfy`: the `小车<n>` display name.

How the model is built:

- **State that the source updates in place is a Dafny class.** Python
  dicts become a `map` plus an `order` sequence, so that iteration order
  (and the list order it produces) is modelled. Go maps become `map`s.
- **Side effects the model cannot perform are logged.** The log lists what
  was asked for: socket frames, Socket.IO emits, servo commands, sleeps,
  callback invocations.
- **Clocks are integer parameters.** `time.time()`, `time.Now()` and
  `int(time.time())` are passed in.
- **The sandbox's compiler is an oracle.** RestrictedPython's
  `compile_restricted` becomes a predicate `compiles: string -> bool`.
- **The worker thread is split around the join.** What the join finds is
  an input: `Finished`, `Faulted(message)` or `StillRunning`.
  `CodeSandbox.execute` becomes `BeginExecute` (the busy gate, compiling,
  resetting the flags and the collector) and `FinishExecute` (reporting
  after the join). `Emit` is a print into the shared collector by any
  worker. Other calls can interleave between the two phases: a stop, an
  interrupt, a second `execute`, late prints from an abandoned worker.
  `Execute` and `StartAndRun` join the phases with nothing in between.

Behaviour of the code a reader may not expect (the model follows the code):

- **The sleep shim** (`vehicle/executor/sandbox.py:103-105`) cannot be
  called. The lambda is stored as an attribute of the class `Time`.
  Reading `time.sleep` through the instance therefore gives a bound method,
  and every call passes the instance as an extra argument and raises
  TypeError (`SandboxNamespace.ShimSleepAsWritten`). The lambda's body, run
  on one number, ignores any request above 5 s. It does not clamp the
  request to 5 s (`SandboxNamespace.ShimSleep`).
- **`start_execution` reads `current_process_id` only after `execute`
  returns** (`vehicle/executor/sandbox.py:378-380`). A run that was stopped
  while in progress therefore reports `process_id` None. See
  `SandboxEngine.StopScenario`.
- **The HAL functions never consult `_interrupted`.** Setting the flag only
  stops the wheels, once.
- **`emergency_stop` calls `tingzhi` with no guard around it**
  (`vehicle/executor/sandbox.py:398-405`).
- **`yidong_xy` clamps each axis to ±100, not to `max_speed`**, so a wheel
  speed can reach ±200. See `Motion.YidongXyExamples`.
- **The sensor module defines `xunxian` twice at module level**
  (`vehicle/hal/sensor_controller.py:200` and `:205`). The second
  definition, `xunxian(channel)`, is the one that remains bound; it is
  modelled as `Sensor.Xunxian`.
- **`CodeSandbox.reset` clears `_print_output`, not the collector `txt` the
  runs read.** See `SandboxEngine.CodeSandbox.Reset`.
- **A worker abandoned by a timeout keeps printing into the shared
  collector.** Its late lines appear in the next run's output. See
  `SandboxEngine.LateOutputScenario`.
- **The Go pool names a vehicle by its id; the Python gateway uses `小车`
  and the second `-` piece.** The Python version raises `IndexError` for an
  id without `-`. That error is modelled, and raised after the pool's dicts
  have already been written.

## Model

| member | source | states |
|---|---|---|
| SandboxNamespace.AllowedBuiltins | vehicle/executor/sandbox.py:36-70 | print, range and len are offered. open, eval, exec, compile, `__import__`, getattr, globals and input are not. |
| SandboxNamespace.ShimSleep | vehicle/executor/sandbox.py:104 | The lambda's body on one number, the shim's evident intent. A negative request raises ValueError. A request of at most 5 s sleeps exactly that long. A request above 5 s does nothing. Every accepted sleep lasts between 0 and 5 s. |
| SandboxNamespace.ShimLambda | vehicle/executor/sandbox.py:103-105 | The one-parameter lambda on positional arguments. Any count other than one raises TypeError with Python's arity message, and so does the `Time` instance as `x`. One number runs the body, ShimSleep. |
| SandboxNamespace.ShimSleepAsWritten | vehicle/executor/sandbox.py:103-105 | `time.sleep(...)` in a script, with any arguments, raises TypeError. |
| SandboxNamespace.ShimNeverSleeps | vehicle/executor/sandbox.py:103-105 | For every x, `time.sleep(x)` raises "takes 1 positional argument but 2 were given", while the lambda body on x gives ShimSleep(x). The two never agree. |
| SandboxNamespace.CopyAttrsSpec | vehicle/executor/sandbox.py:138-140 | After the whitelist loop, a key is bound iff it was bound before, or it is whitelisted and the HAL module has it. Copied names are bound to the module's attribute; every other key keeps its old binding. |
| SandboxNamespace.BaseKeysAreOther | vehicle/executor/sandbox.py:83-91 | Every key of the base namespace is one of the keys bound outside the whitelist. |
| SandboxNamespace.WhitelistIsOther | vehicle/executor/sandbox.py:110-135 | No whitelisted HAL name is one of the keys bound outside the whitelist: a base key, an alias, a standard module, `time`, `print` or `_print_`. |
| SandboxNamespace.WhitelistIsDisjoint | vehicle/executor/sandbox.py:83-135 | No whitelisted name collides with a base key or with any other key the namespace builder binds. |
| SandboxNamespace.CopiedBase | vehicle/executor/sandbox.py:83-140 | The whitelist loop run on the base namespace adds exactly the names the module has, and leaves every base binding as it was. |
| SandboxNamespace.ExposedHalFunctions | vehicle/executor/sandbox.py:94-140 | A whitelisted name is in the namespace iff a HAL module is given and has that attribute. When it is, the name is bound to that attribute. |
| SandboxNamespace.AliasBindings | vehicle/executor/sandbox.py:143-145 | With a HAL module, 停止, 前进 and 后退 are bound to the same value as tingzhi, qianjin and houtui. That value is None when the module lacks the canonical function. |
| SandboxNamespace.WithHalKeepsBase | vehicle/executor/sandbox.py:107-155 | `_import_hal_functions` never overwrites a base key. |
| SandboxNamespace.FixedBindings | vehicle/executor/sandbox.py:83-105 | Every namespace holds the builtin table of AllowedBuiltins, `__name__` as `__main__`, the `safer_getattr` guard and the restricted `time` object. |
| SandboxNamespace.PrintBindings | vehicle/executor/sandbox.py:98-100 | print and `_print_` are bound, both to the hook, iff a print hook is given. |
| SandboxNamespace.StdModules | vehicle/executor/sandbox.py:147-155 | random, math and threading are bound iff a HAL module is given, each to its module. |
| SandboxNamespace.NamespaceIsScoped | vehicle/executor/sandbox.py:76-155 | Every key of a namespace is a permitted key. A key bound to a HAL function implies that a HAL module was given. |
| SandboxNamespace.SandboxGlobals.ImportHalFunctions | vehicle/executor/sandbox.py:107-155 | The loop over the four whitelists, then the aliases, then the modules, yields the namespace `WithHal` describes. |
| SandboxNamespace.SandboxGlobals.GetGlobals | vehicle/executor/sandbox.py:157-159 | Returns a copy equal to the current namespace. |
| SandboxNamespace.SandboxGlobals.constructor | vehicle/executor/sandbox.py:76-105 | The namespace is the base table, then the HAL names when a module is given, then the print hook when one is given. |
| SandboxEngine.Report | vehicle/executor/sandbox.py:298-317 | success holds iff the worker finished. error is None iff the worker finished. output is exactly the collected lines. |
| SandboxEngine.ReportDistinguishesOutcomes | vehicle/executor/sandbox.py:300-311 | A timeout and a fault never produce the same report. A timeout's error names the effective timeout; a fault's error carries the exception message. |
| SandboxEngine.EngineNamespace | vehicle/executor/sandbox.py:165-213 | The engine's namespace binds print and `_print_` to the collector, binds HAL names exactly as the module provides them, and holds only permitted keys. |
| SandboxEngine.CodeSandbox.BeginExecute | vehicle/executor/sandbox.py:240-295 | A run starts iff the engine is idle and the code compiles. If busy: the busy error with empty output, and nothing changes. If compilation fails: the compile error, and the flags, the collector and print_output are kept. At start: executing is set, the interrupted flag is cleared, the collector is emptied, and the effective timeout is recorded. |
| SandboxEngine.CodeSandbox.Emit | vehicle/executor/sandbox.py:184-213 | A print appends its entries to the shared collector. |
| SandboxEngine.CodeSandbox.FinishExecute | vehicle/executor/sandbox.py:298-321 | The result is the report of the outcome over the collector as the join found it. executing is cleared. interrupted is set on a timeout. A timed-out worker is counted as abandoned. |
| SandboxEngine.CodeSandbox.Execute | vehicle/executor/sandbox.py:240-321 | The busy and compile refusals. Otherwise, the report over exactly the lines this run printed. |
| SandboxEngine.CodeSandbox.IsExecuting | vehicle/executor/sandbox.py:323-325 | Answers the executing flag. |
| SandboxEngine.CodeSandbox.Interrupt | vehicle/executor/sandbox.py:327-334 | Only while executing: sets interrupted and stops all four wheels of the HAL's motion controller. When idle, nothing changes. |
| SandboxEngine.CodeSandbox.Reset | vehicle/executor/sandbox.py:336-340 | Both flags and print_output are cleared; the collector is not. |
| SandboxEngine.ProcessIdFor | vehicle/executor/sandbox.py:375-376 | A given non-empty id is kept. Otherwise an `exec_<seconds>` id is generated. The result is never empty. |
| SandboxEngine.GeneratedIdsDiffer | vehicle/executor/sandbox.py:376 | Two generated ids are equal only when generated in the same second. |
| SandboxEngine.ProcessManager.StartExecution | vehicle/executor/sandbox.py:357-380 | The busy gate answers with the busy error and the current id, and changes nothing: the id, the stop request, both sandbox flags, the collector and print_output are kept. A compile failure answers with the compile error and the new id, then clears the id; the interrupted flag, the collector and print_output are kept. A started run records its id, clears the stop request, and waits with the given timeout, or with the sandbox default when it is None. |
| SandboxEngine.ProcessManager.FinishExecution | vehicle/executor/sandbox.py:378-386 | The result carries the id as it stands after the join. The id is cleared unless a stop was requested. The engine is idle, interrupted is set on a timeout, and the collector and print_output are unchanged. |
| SandboxEngine.ProcessManager.StartAndRun | vehicle/executor/sandbox.py:357-386 | start_execution with nothing interleaved. Busy: the busy answer, with the id, the stop request, the flags and the collector kept. Compile failure: the compile answer, with the flags and the collector kept. Otherwise the report over exactly this run's lines. Afterwards, unless busy, the id is None, no stop is pending and the engine is idle. |
| SandboxEngine.ProcessManager.StopExecution | vehicle/executor/sandbox.py:388-396 | Answers true iff the engine was executing. If so: the stop is requested, the engine is interrupted, the wheels are stopped and the id is cleared. Otherwise nothing changes: id, stop request, flags and wheels are kept. The collector and print_output are never touched. |
| SandboxEngine.ProcessManager.EmergencyStop | vehicle/executor/sandbox.py:398-405 | The wheels always stop. While a run is executing, the run is also stopped as by stop_execution. When idle, the id, the stop request and the interrupted flag are kept. The busy flag, the collector and print_output are never touched. |
| SandboxEngine.ProcessManager.GetStatus | vehicle/executor/sandbox.py:409-416 | Reports executing, the current id, interrupted and the stop request. |
| SandboxEngine.CodeSandbox.ExecTimeout | vehicle/executor/sandbox.py:278 | The given timeout, or the sandbox's default when none is given. |
| SandboxEngine.TimeoutMessage | vehicle/executor/sandbox.py:303-305 | The timeout error: the fixed opening and closing text around the number of seconds. |
| SandboxEngine.TimeoutMessageNamesTimeout | vehicle/executor/sandbox.py:303-305 | Equal timeout messages come from equal timeouts, so the message names the timeout the join waited for. |
| SandboxEngine.FaultMessage | vehicle/executor/sandbox.py:307-310 | The fault error: a fixed prefix, then exactly the exception's text. |
| SandboxEngine.CodeSandbox.constructor | vehicle/executor/sandbox.py:165-182 | Idle, not interrupted, empty print_output and collector, and the namespace of the builder with print and `_print_` bound to the collector. |
| SandboxEngine.ProcessManager.constructor | vehicle/executor/sandbox.py:346-355 | A fresh idle sandbox over the same HAL module with the default timeout, no current id and no stop request. |
| SandboxEngine.OneSecondTimeoutMessage | vehicle/executor/sandbox.py:302-305 | The timeout message for a one-second limit. |
| SandboxEngine.EmptyScript | vehicle/executor/sandbox.py:263-321 | An empty script succeeds with no error and no output. |
| SandboxEngine.TimeoutScenario | vehicle/executor/sandbox.py:298-321 | A worker still alive after a one-second join: failure with the one-second message and the lines printed so far; interrupted; not busy. |
| SandboxEngine.BusyScenario | vehicle/executor/sandbox.py:255-321 | A second `execute` during a run is refused with the busy error, and the first run's result is unaffected. |
| SandboxEngine.StopScenario | vehicle/executor/sandbox.py:378-396 | A stop during a run: stop answers true, the run still reports success, and its process_id is None. |
| SandboxEngine.LateOutputScenario | vehicle/executor/sandbox.py:184-213 | After a timeout, a line the abandoned worker prints later shows up in the next run's output, ahead of that run's own lines. (Also lines 272-317 of the same file.) |
| Motion.ClampAxis | vehicle/hal/motion_controller.py:159-160 | The axis clamp of yidong_xy: within [-100, 100], the identity inside, and the nearer bound outside. |
| Motion.TruncToInt | vehicle/hal/motion_controller.py:159-160 | Python's int() on a float: the whole number nearest zero, never more than one unit from the input and on the same side of zero. |
| Motion.TruncWhole | vehicle/hal/motion_controller.py:159-160 | A whole number passes through int() unchanged. |
| Motion.MotionController.constructor | vehicle/hal/motion_controller.py:42-52 | Mock mode: the four wheels stopped, no servo command, and the configured speed and angle limits. |
| Motion.ResetCommands | vehicle/hal/motion_controller.py:184-190 | Six commands, servo i+1 to 90 degrees. |
| Motion.MotionController.ClampSpeed | vehicle/hal/motion_controller.py:54-56 | Within [-max_speed, max_speed], the identity inside, and the nearer bound outside. |
| Motion.MotionController.ClampAngle | vehicle/hal/motion_controller.py:58-60 | Within [0, servo_max_angle], the identity inside, and the nearer bound outside. |
| Motion.MotionController.Qianjin | vehicle/hal/motion_controller.py:64-74 | All four wheels run at the clamped speed, so every wheel is within max_speed. |
| Motion.MotionController.Houtui | vehicle/hal/motion_controller.py:76-85 | All four wheels run at the negated clamped speed, within max_speed. |
| Motion.MotionController.Zuopingyi | vehicle/hal/motion_controller.py:87-96 | Wheels [-s, s, s, -s], within max_speed. |
| Motion.MotionController.Youpingyi | vehicle/hal/motion_controller.py:98-107 | Wheels [s, -s, -s, s], within max_speed. |
| Motion.MotionController.Xuanzhuan | vehicle/hal/motion_controller.py:109-118 | Wheels [s, -s, s, -s], within max_speed. |
| Motion.MotionController.Fxuanzhuan | vehicle/hal/motion_controller.py:120-129 | Wheels [-s, s, -s, s], within max_speed. |
| Motion.MotionController.Tingzhi | vehicle/hal/motion_controller.py:131-139 | All four wheels at 0, whatever the state before, so a repeated call changes nothing. |
| Motion.MotionController.YidongXy | vehicle/hal/motion_controller.py:157-166 | Each input is truncated toward zero, as int() does, then clamped to [-100, 100]. The wheels are [y+x, y-x, y-x, y+x], each within ±200. |
| Motion.MotionController.SetServo | vehicle/hal/motion_controller.py:171-182 | Raises ValueError iff the id is outside 1..6, and then issues no command. Otherwise a single command with the clamped angle. |
| Motion.MotionController.ResetServos | vehicle/hal/motion_controller.py:184-190 | Appends the six reset commands, in order. |
| Motion.YidongXyExamples | vehicle/hal/motion_controller.py:157-166 | (50, 30) gives [80, -20, -20, 80]. (100, 100) gives a wheel speed of 200, above the default max_speed. (2.7, -0.5) moves as (2, 0). |
| Gimbal.ClampAngle | vehicle/hal/gimbal_controller.py:60-62 | Within [0, 180], the identity inside, and the nearer bound outside. |
| Gimbal.StepsCancel | vehicle/hal/gimbal_controller.py:64-102 | Away from the limits, a step and the opposite step cancel. |
| Gimbal.StepSaturates | vehicle/hal/gimbal_controller.py:64-102 | At a limit, a further step in that direction changes nothing. |
| Gimbal.ClampOffset | vehicle/hal/gimbal_controller.py:199-232 | The offset of the yuntai_* commands, within [0, 90]. |
| Gimbal.TargetsMirror | vehicle/hal/gimbal_controller.py:197-239 | 90+offset lies in [90, 180] and 90-offset in [0, 90]. The two mirror each other about 90, and both pass the servo clamp unchanged. |
| Gimbal.GimbalController.constructor | vehicle/hal/gimbal_controller.py:51-58 | Both axes start at 90 and are commanded there. |
| Gimbal.GimbalController.MoveHorizontal | vehicle/hal/gimbal_controller.py:64-73 | The horizontal angle becomes the clamped sum, and the vertical angle is unchanged. One command goes to servo 2 with the new angle. |
| Gimbal.GimbalController.MoveVertical | vehicle/hal/gimbal_controller.py:75-84 | The vertical angle becomes the clamped sum, and the horizontal angle is unchanged. One command goes to servo 1 with the new angle. |
| Gimbal.GimbalController.Shang | vehicle/hal/gimbal_controller.py:88-90 | Vertical +10, clamped; horizontal unchanged. |
| Gimbal.GimbalController.Xia | vehicle/hal/gimbal_controller.py:92-94 | Vertical -10, clamped; horizontal unchanged. |
| Gimbal.GimbalController.Zuo | vehicle/hal/gimbal_controller.py:96-98 | Horizontal -10, clamped; vertical unchanged. |
| Gimbal.GimbalController.You | vehicle/hal/gimbal_controller.py:100-102 | Horizontal +10, clamped; vertical unchanged. |
| Gimbal.GimbalController.Fuwei | vehicle/hal/gimbal_controller.py:104-110 | Both axes at 90, so a repeated call leaves the same angles. Two commands are issued, horizontal first. |
| Gimbal.GimbalController.SetHorizontal | vehicle/hal/gimbal_controller.py:114-123 | Only the horizontal angle changes, to the clamped argument. |
| Gimbal.GimbalController.SetVertical | vehicle/hal/gimbal_controller.py:125-134 | Only the vertical angle changes, to the clamped argument. |
| Gimbal.GimbalController.GetPosition | vehicle/hal/gimbal_controller.py:136-145 | Returns exactly the two current angles, each within [0, 180]. |
| Gimbal.YuntaiShang | vehicle/hal/gimbal_controller.py:197-206 | Vertical becomes 90+offset; horizontal unchanged. |
| Gimbal.YuntaiXia | vehicle/hal/gimbal_controller.py:208-217 | Vertical becomes 90-offset; horizontal unchanged. |
| Gimbal.YuntaiZuo | vehicle/hal/gimbal_controller.py:219-228 | Horizontal becomes 90-offset; vertical unchanged. |
| Gimbal.YuntaiYou | vehicle/hal/gimbal_controller.py:230-239 | Horizontal becomes 90+offset; vertical unchanged. |
| Gimbal.YuntaiFuwei | vehicle/hal/gimbal_controller.py:241-244 | Both axes at 90, with the two servo commands of fuwei, horizontal first. |
| Gimbal.RepeatedCommands | vehicle/hal/gimbal_controller.py:197-206 | Repeating an absolute command leaves its target (120). Repeating a relative command accumulates (110 in that case). (Also lines 88-90 of the same file.) |
| Sensor.XunxianKuaixian | vehicle/hal/sensor_controller.py:116-123 | True iff all four sensors see the line. |
| Sensor.XunxianDuqu | vehicle/hal/sensor_controller.py:125-132 | True iff no sensor sees the line. |
| Sensor.XunxianZhong | vehicle/hal/sensor_controller.py:88-96 | True iff channels 1 and 2 both read true; then the car is never reported off the line. |
| Sensor.XunxianZuo | vehicle/hal/sensor_controller.py:98-105 | The reading of channel 0. |
| Sensor.XunxianYou | vehicle/hal/sensor_controller.py:107-114 | The reading of channel 3. |
| Sensor.HeshengboFuzhi | vehicle/hal/sensor_controller.py:61-73 | True iff the reading is strictly below the threshold, in millimetres and equally in the centimetres heshengbo_juli would report. |
| Sensor.Dianchi | vehicle/hal/sensor_controller.py:136-147 | The voltage, from which the millivolt reading is recovered exactly. |
| Sensor.LinePredicatesAgree | vehicle/hal/sensor_controller.py:88-132 | A crossing and a lost line exclude each other. A crossing implies the middle and both sides; a lost line implies none of them. |
| Sensor.Xunxian | vehicle/hal/sensor_controller.py:205-218 | ValueError, with the message naming the channel, iff the channel is outside 0..3. Otherwise the channel's reading. |
| Sensor.ChannelsMatchSides | vehicle/hal/sensor_controller.py:88-114 | Channels 0 and 3 agree with xunxian_zuo and xunxian_you. xunxian_zhong holds iff channels 1 and 2 both read true. (Also lines 205-218 of the same file.) |
| Sensor.HeshengboFuzhiMonotone | vehicle/hal/sensor_controller.py:61-73 | The check is strict (a reading equal to the threshold is false) and monotone in the threshold. |
| Sensor.DianchiDian | vehicle/hal/sensor_controller.py:136-155 | True iff the ADC reading is below 3500 mV, that is, below 3.5 V. |
| ConnectionPool.Connection.Send | cloud/gateway-go/internal/pool/connection.go:27-36 | On a closed connection: the "连接已关闭" error, and nothing written. Otherwise the socket write's own outcome is returned. A successful write records the frame once; a failed one records nothing. |
| ConnectionPool.Connection.Close | cloud/gateway-go/internal/pool/connection.go:39-49 | Afterwards the connection is closed; only the first call closes the socket. |
| ConnectionPool.Connection.IsClosed | cloud/gateway-go/internal/pool/connection.go:52-56 | True iff the connection has been closed. |
| ConnectionPool.Connection.constructor | cloud/gateway-go/internal/pool/connection.go:15-24 | A new connection: open, nothing sent, the socket not yet closed, and the heartbeat at now. |
| ConnectionPool.ExpiryIsStrict | cloud/gateway-go/internal/pool/heartbeat.go:39 | A heartbeat exactly `timeout` old is kept; one unit older expires. |
| ConnectionPool.ConnIdsAdd | cloud/gateway-go/internal/pool/heartbeat.go:38-46 | The ids of a vehicle set grow by one connection id per added vehicle. |
| ConnectionPool.Pool.constructor | cloud/gateway-go/internal/pool/connection.go:82-94 | Three empty maps and the two durations. |
| ConnectionPool.Pool.AddConnection | cloud/gateway-go/internal/pool/connection.go:103-123 | A duplicate id gives an error and changes no map. Otherwise connections gains the entry, and so does vehicles (for a vehicle with an id) or clients (otherwise). |
| ConnectionPool.Pool.RemoveConnection | cloud/gateway-go/internal/pool/connection.go:126-150 | An unknown id changes nothing. A known id is deleted from connections, and also from vehicles (a vehicle with an id, which notifies listeners) or else from clients. |
| ConnectionPool.Pool.RemoveConnectionCorrected | cloud/gateway-go/internal/pool/connection.go:126-150 | As intended: like RemoveConnection, but the vehicle entry goes only while it still holds this connection; every vehicle held by another connection keeps its entry. |
| ConnectionPool.Pool.RegisterVehicle | cloud/gateway-go/internal/pool/connection.go:154-171 | No change if the vehicle id is taken. Otherwise the client entry is dropped and the vehicle entry set; connections is never touched. |
| ConnectionPool.Pool.UpdateHeartbeat | cloud/gateway-go/internal/pool/connection.go:190-197 | An existing vehicle's heartbeat becomes now. An unknown id changes nothing. |
| ConnectionPool.Pool.GetVehicleList | cloud/gateway-go/internal/pool/connection.go:200-216 | Exactly one entry per vehicle, with no duplicates. Each entry is named by its id and online. |
| ConnectionPool.Pool.RouteToVehicle | cloud/gateway-go/internal/pool/connection.go:219-230 | An absent vehicle gives "车辆未连接: <id>". A closed connection gives the route's own "车辆连接已关闭: <id>" error, with nothing written. Otherwise the vehicle's connection sends the frame, and the socket write's error, or nil, is returned. |
| ConnectionPool.Pool.GetStats | cloud/gateway-go/internal/pool/connection.go:289-309 | The counts are the sizes of the three maps, plus the two durations. |
| ConnectionPool.Pool.CollectExpired | cloud/gateway-go/internal/pool/heartbeat.go:35-48 | Exactly the expired vehicles are removed from vehicles, and their ids from connections. Every expired vehicle's connection is collected, and every collected connection belongs to an expired vehicle. |
| ConnectionPool.Pool.ExpiredConnection | cloud/gateway-go/internal/pool/heartbeat.go:38-46 | A vehicle connection is selected by the sweep iff its own heartbeat has expired. |
| ConnectionPool.Pool.CheckTimeouts | cloud/gateway-go/internal/pool/heartbeat.go:32-65 | Removes exactly the expired vehicles from vehicles and connections. clients is untouched. A vehicle connection ends closed iff it was closed or expired; only an expired open one has its socket closed, once; nothing is sent and no heartbeat changes. The notification fires iff something was removed. |
| ConnectionPool.Pool.CloseAll | cloud/gateway-go/internal/pool/heartbeat.go:53-58 | Every collected connection ends closed, its socket closed once if it was open; nothing is sent and no heartbeat changes. |
| ConnectionPool.SweepScenario | cloud/gateway-go/internal/pool/heartbeat.go:32-65 | A vehicle exactly at the timeout survives a sweep. One second later it is removed and closed; the client is kept. |
| ConnectionPool.StaleOwnerAsWritten | cloud/gateway-go/internal/pool/connection.go:103-150 | A vehicle reconnects on c2 before c1 is removed. Removing c1 deletes the vehicle entry while c2 is still pooled. |
| ConnectionPool.StaleOwnerCorrected | cloud/gateway-go/internal/pool/connection.go:103-150 | The same sequence with the corrected removal leaves the vehicle routed to c2. |
| MessageTypes.ConnTypeString | cloud/gateway-go/internal/message/types.go:16-24 | "vehicle" iff Vehicle, "client" iff Client, "unknown" for every other value, 0 included. |
| MessageTypes.ConnTypeStringInjectiveOnKnown | cloud/gateway-go/internal/message/types.go:7-24 | Equal names other than "unknown" come from equal kinds. |
| MessageTypes.NewMessage | cloud/gateway-go/internal/message/types.go:36-42 | The given type, an empty vehicle id, an empty non-nil data map and the current time. |
| Text.NatToDecimal | vehicle/hal/sensor_controller.py:213-214 | Python's str(n): at least one character, all digits, no leading zero. |
| Text.IntToDecimal | vehicle/hal/sensor_controller.py:213-214 | Starts with '-' iff the number is negative. |
| Text.DecimalRoundTrip | vehicle/hal/sensor_controller.py:213-214 | Reading back a rendered number gives the number. |
| Text.NatToDecimalInjective | vehicle/hal/sensor_controller.py:213-214 | Distinct numbers render differently. |
| Text.IntToDecimalInjective | vehicle/executor/sandbox.py:305 | Distinct integers, negative ones included, render differently. |
| Text.JoinSplit | cloud/gateway/main.py:97 | Joining the pieces of a split restores the string. |
| Text.SplitPiecesHaveNoSeparator | cloud/gateway/main.py:97 | No piece contains the separator. |
| Text.SplitHasSecondPiece | cloud/gateway/main.py:97 | Index 1 exists iff the string contains the separator. |
| Text.SplitWithoutSeparator | cloud/gateway/main.py:97 | A string without the separator splits into itself. |
| Text.SplitAtFirstSeparator | cloud/gateway/main.py:97 | The first piece is the text before the first separator. |
| VehicleNaming.DisplayNameOf | cloud/gateway/main.py:97 | For an id p-q where p has no '-', the name is 小车 followed by the text after the first '-'. |
| VehicleNaming.DisplayNameDropsLaterPieces | cloud/gateway/main.py:97 | For p-q-rest, only q is kept. |
| Gateway.Assigned | cloud/gateway/main.py:55-57 | A dict assignment adds the key at the end if it is new, and keeps the order if the key exists. |
| Gateway.Deleted | cloud/gateway/main.py:68-69 | A dict deletion removes only that key and keeps the others in order. |
| Gateway.DistinctLength | cloud/gateway/main.py:92-101 | A duplicate-free order has as many entries as distinct keys. |
| Gateway.VehicleList | cloud/gateway/main.py:92-101 | Ok iff every id contains '-'; otherwise the error is IndexError. When Ok, entry i names id i of the order with its display name, online. |
| Gateway.Stale | cloud/gateway/main.py:111-114 | Exactly the ids in order whose heartbeat is more than 60 s old. |
| Gateway.SweepRequests | cloud/gateway/main.py:117-121 | Every request is a disconnect addressed to the non-empty session of one of the ids. Every id with a non-empty session gets its request. There are at most as many requests as ids. |
| Gateway.SweepRequestsOne | cloud/gateway/main.py:117-121 | One id gives exactly one request, to its session, if it has a non-empty one; otherwise none. |
| Gateway.SweepRequestsCons | cloud/gateway/main.py:117-121 | The first id's requests come before those of the remaining ids. |
| Gateway.SweepRequestsAppend | cloud/gateway/main.py:117-121 | The requests for `a + b` are those for `a` followed by those for `b`. With SweepRequestsOne, this gives exactly one request per id with a session, in the order of the ids. |
| Gateway.Owned | cloud/gateway/main.py:64-70 | At most one vehicle: the one the session names, if its entry still points back to this session. |
| Gateway.VehicleConnectionPool.constructor | cloud/gateway/main.py:39-46 | Three empty dicts. |
| Gateway.VehicleConnectionPool.GetVehicleList | cloud/gateway/main.py:92-101 | Ok iff every connected id has a '-'; otherwise IndexError. Entry i is the i-th id in dict order, online, named 小车 plus its second piece. |
| Gateway.VehicleListOfKeys | cloud/gateway/main.py:92-101 | Over a duplicate-free key order: the list exists iff every key contains '-'. It then has one online entry per key, with that key as its `vehicle_id`. |
| Gateway.VehicleConnectionPool.VehicleListCoversPool | cloud/gateway/main.py:92-101 | The list exists iff every connected id contains '-'. It then has one online entry per connected vehicle and nothing else. |
| Gateway.VehicleConnectionPool.BroadcastVehicleList | cloud/gateway/main.py:126-129 | Emits the list to every client, or raises the IndexError with nothing emitted. |
| Gateway.VehicleConnectionPool.AddConnection | cloud/gateway/main.py:53-62 | All three dicts are written (vehicle to sid, sid to vehicle, heartbeat to now), and then the broadcast runs, which may raise. |
| Gateway.VehicleConnectionPool.DropVehicle | cloud/gateway/main.py:68-69 | Deletes a vehicle's session and heartbeat entries; the sid map is unchanged. (Also lines 177-178 of the same file.) |
| Gateway.VehicleConnectionPool.RemoveConnection | cloud/gateway/main.py:64-75 | As written. An unknown sid changes nothing. Otherwise the vehicle the sid names is deleted, whoever owns it now; if it is already gone, KeyError with nothing changed. (Also lines 155-159 of the same file.) |
| Gateway.VehicleConnectionPool.RemoveConnectionCorrected | cloud/gateway/main.py:64-75 | Never raises KeyError. It forgets the session and drops only the entry this session still owns; every other vehicle keeps its entry. |
| Gateway.VehicleConnectionPool.UpdateHeartbeat | cloud/gateway/main.py:77-80 | Only an existing heartbeat is refreshed; the keys never change. |
| Gateway.VehicleConnectionPool.RouteToVehicle | cloud/gateway/main.py:82-90 | False iff the vehicle is not connected. Otherwise one message to its session. |
| Gateway.VehicleConnectionPool.TimedOutVehicles | cloud/gateway/main.py:109-114 | The loop selects exactly the vehicles whose heartbeat is more than 60 s old, in dict order. |
| Gateway.VehicleConnectionPool.HeartbeatSweep | cloud/gateway/main.py:103-124 | Appends SweepRequests of the stale ids, in dict order. Every vehicle whose heartbeat is over 60 s old and that has a non-empty session gets a disconnect request to that session. |
| Gateway.VehicleConnectionPool.HandleConnect | cloud/gateway/main.py:138-152 | A session with a vehicle header is added exactly as by add_connection: the three dicts, the key order and the broadcast (or its IndexError). Any other session changes no dict and just receives the list. |
| Gateway.VehicleConnectionPool.HandleVehicleRegister | cloud/gateway/main.py:169-183 | Without a vehicle id, nothing happens. Re-registering a session first deletes its old vehicle's entries (KeyError if they are already gone), then adds the new one and answers `registered`. The key order is the old order minus the dropped id, with the new id assigned. |
| Gateway.VehicleConnectionPool.HandleHeartbeat | cloud/gateway/main.py:186-192 | With a vehicle id: refreshes its heartbeat if it is known, leaves the dict alone if not, and answers pong to the session. Without one, nothing happens. |
| Gateway.StaleSessionAsWritten | cloud/gateway/main.py:53-75 | A vehicle reconnects under a new sid before the old sid disconnects. The old disconnect drops the live entry, and the new disconnect raises KeyError. |
| Gateway.StaleSessionCorrected | cloud/gateway/main.py:53-75 | The same sequence with the corrected removal keeps the live entry, and the final disconnect empties the pool without an error. |
| Gateway.SweepScenario | cloud/gateway/main.py:103-124 | A heartbeat exactly 60 s old is kept. One second later a disconnect is requested for its session. |
| ConnectionManager.Pow2 | vehicle/connection/manager.py:97-99 | 2^n is at least 1. |
| ConnectionManager.DelayAfterClosedForm | vehicle/connection/manager.py:34-99 | After n failures the delay is min(2^n, 60), always within [1, 60]. |
| ConnectionManager.BackoffPrefix | vehicle/connection/manager.py:97-99 | The first waits are 1, 2, 4, 8, 16, 32, 60. |
| ConnectionManager.Outgoing | vehicle/connection/manager.py:185-237 | Every send_* message has exactly the keys type and data. |
| ConnectionManager.Stamp | vehicle/connection/manager.py:177-179 | Adds or overwrites vehicle_id and timestamp, and keeps every other key. |
| ConnectionManager.RegisterData | vehicle/connection/manager.py:148-161 | The register data: the id, the same 小车 display name the gateway derives, and the capabilities motion, sensors and vision. |
| ConnectionManager.VehicleConnectionManager.constructor | vehicle/connection/manager.py:29-46 | No socket, not running, delay 1, no handlers and no callbacks. |
| ConnectionManager.VehicleConnectionManager.RegisterHandler | vehicle/connection/manager.py:48-50 | The type maps to the new handler, replacing any earlier one. |
| ConnectionManager.VehicleConnectionManager.SetCallbacks | vehicle/connection/manager.py:52-59 | Stores the three callbacks. |
| ConnectionManager.VehicleConnectionManager.IsConnected | vehicle/connection/manager.py:239-241 | True iff the running flag is set. |
| ConnectionManager.VehicleConnectionManager.Send | vehicle/connection/manager.py:173-183 | Nothing leaves unless a socket exists and the manager is running. Then the stamped message is sent, once. |
| ConnectionManager.VehicleConnectionManager.SendHeartbeat | vehicle/connection/manager.py:185-190 | Sends a stamped heartbeat with empty data, under the same gate. |
| ConnectionManager.VehicleConnectionManager.SendExecutionStarted | vehicle/connection/manager.py:192-199 | Sends the execution_started message with the id, under the gate. |
| ConnectionManager.VehicleConnectionManager.SendExecutionFinished | vehicle/connection/manager.py:201-209 | Sends execution_finished with the id and the success flag, under the gate. |
| ConnectionManager.VehicleConnectionManager.SendExecutionError | vehicle/connection/manager.py:211-219 | Sends execution_error with the id and the error, under the gate. |
| ConnectionManager.VehicleConnectionManager.SendSensorUpdate | vehicle/connection/manager.py:221-228 | Sends sensor_update carrying the readings, under the gate. |
| ConnectionManager.VehicleConnectionManager.SendStatusUpdate | vehicle/connection/manager.py:230-237 | Sends status_update with the busy flag, under the gate. |
| ConnectionManager.VehicleConnectionManager.CreateSocket | vehicle/connection/manager.py:74-81 | A socket exists from the first attempt on. |
| ConnectionManager.VehicleConnectionManager.OnOpen | vehicle/connection/manager.py:101-161 | Running, and the delay is reset to 1. The register message is sent. The connect callback runs. An id without '-' raises IndexError before anything is sent. |
| ConnectionManager.VehicleConnectionManager.OnMessage | vehicle/connection/manager.py:117-133 | Exactly the handler registered for the message's type is invoked, with the message's data. An unparsable frame, a missing type or an unregistered type invokes none. |
| ConnectionManager.VehicleConnectionManager.OnError | vehicle/connection/manager.py:135-141 | The error callback runs with the error, if one is set. |
| ConnectionManager.VehicleConnectionManager.OnClose | vehicle/connection/manager.py:143-146 | Not running. |
| ConnectionManager.VehicleConnectionManager.AfterDisconnect | vehicle/connection/manager.py:89-99 | Not running. The disconnect callback runs. The loop waits the current delay, and the delay doubles up to 60. |
| ConnectionManager.VehicleConnectionManager.HeartbeatTick | vehicle/connection/manager.py:163-171 | While running, one heartbeat, and the loop continues; otherwise the loop ends and nothing is sent. |
| ConnectionManager.FailedAttempts | vehicle/connection/manager.py:67-99 | After n failed attempts: the waits were min(2^i, 60) for i < n, the delay is min(2^n, 60), nothing was sent, and the manager is not running. |
| ConnectionManager.DispatchScenario | vehicle/connection/manager.py:48-50 | A re-registered type reaches its newest handler; an unknown type reaches none. (Also lines 117-133 of the same file.) |
| ConnectionManager.SessionScenario | vehicle/connection/manager.py:101-115 | While open: connected, with the register and heartbeat frames sent. After a close: not connected, sends are dropped, and the next wait is 1. (Also lines 143-146, 173-183, 239-241 of the same file.) |
| Pinyin.LocalStorage.GetItem | cloud/frontend/js/pinyin.js:273 | null iff the key is missing, otherwise the stored value. |
| Pinyin.LocalStorage.SetItem | cloud/frontend/js/pinyin.js:278 | Stores the value under the key. |
| Pinyin.StoredMode | cloud/frontend/js/pinyin.js:272-275 | Pinyin iff the stored value is exactly "pinyin". Any other value, or none at all, means Chinese. |
| Pinyin.ModeValue | cloud/frontend/js/pinyin.js:277-279 | "pinyin" for pinyin mode and "chinese" otherwise. |
| Pinyin.ModeRoundTrip | cloud/frontend/js/pinyin.js:272-279 | Loading the value a save stores gives back the mode. |
| Pinyin.TranslateAsWritten | cloud/frontend/js/pinyin.js:292-295 | As written. Chinese mode returns the text. In pinyin mode, an inherited Object.prototype member is returned iff the text is such a name and not a table key. |
| Pinyin.Translate | cloud/frontend/js/pinyin.js:292-295 | As intended. Chinese mode returns the text. Pinyin mode returns the non-empty table entry, or else the text. |
| Pinyin.TranslateAgrees | cloud/frontend/js/pinyin.js:292-295 | The written lookup equals the intended one iff the text is not an inherited name missing from the table. |
| Pinyin.InheritedNameLeaks | cloud/frontend/js/pinyin.js:294 | "toString" in pinyin mode yields the inherited member under the written lookup, and "toString" under the intended one. |
| Pinyin.LanguageManager.constructor | cloud/frontend/js/pinyin.js:268-270 | Construction loads the stored mode. |
| Pinyin.LanguageManager.LoadPreference | cloud/frontend/js/pinyin.js:272-275 | The mode is the stored mode. |
| Pinyin.LanguageManager.SavePreference | cloud/frontend/js/pinyin.js:277-279 | Stores the mode's value under the mode key; nothing else changes. |
| Pinyin.LanguageManager.SetPinyinMode | cloud/frontend/js/pinyin.js:281-284 | The mode becomes the argument and is stored. |
| Pinyin.LanguageManager.Toggle | cloud/frontend/js/pinyin.js:286-290 | The mode flips, is stored, and the new value is returned. |
| Pinyin.LanguageManager.TranslateText | cloud/frontend/js/pinyin.js:292-295 | As intended: the text in Chinese mode and for a text not in the table; otherwise what the written lookup renders. |
| Pinyin.T | cloud/frontend/js/pinyin.js:330-332 | The shared manager's translation, as intended: it renders what the written lookup renders on every text except an inherited name missing from the table. |
| Pinyin.SaveThenLoad | cloud/frontend/js/pinyin.js:268-279 | A new manager over the saved storage has the same mode. |
| Pinyin.ToggleTwice | cloud/frontend/js/pinyin.js:286-290 | Two toggles return the flipped mode and then the original. The mode is restored and stored. |
| Pinyin.SetPinyinModeTwice | cloud/frontend/js/pinyin.js:281-284 | Setting a mode twice leaves the same state as setting it once. |
| Pinyin.LoadOther | cloud/frontend/js/pinyin.js:274 | A stored value other than "pinyin" loads as Chinese mode. |

## Left out

- **RestrictedPython.** `compile_restricted`, the guard functions' behaviour
  and the semantics of `exec` are out of scope. Compilation is a predicate
  parameter, and the guards are opaque bindings.
- **Thread timing.** The worker outcome and the lines it prints are inputs.
  `thread.join` and real time are not modelled.
  SandboxEngine.CodeSandbox.BeginExecute treats the busy check and the
  setting of `_executing` as one step. In the source, `compile_code` runs
  between them (`vehicle/executor/sandbox.py:255-272`).
  SandboxEngine.ProcessManager.StartExecution likewise joins its busy check
  and `execute`'s gate (`vehicle/executor/sandbox.py:368-378`). Under the
  single eventlet worker the service runs with
  (`vehicle/config/gunicorn.conf.py:11`), nothing yields in between. Two
  requests interleaving in those windows under preemptive threads are not
  modelled.
- **The random, math and threading modules.** They are modelled only as
  opaque bindings in the namespace.
- **`CodeSandbox.compile_code`** (`vehicle/executor/sandbox.py:215-238`) is
  the same oracle as the compile step of `execute`.
- **Floating-point operations.** `yidong_angle` and `heshengbo_juli` are
  left out. `dianchi` and the `int()` in `yidong_xy` are modelled on exact
  reals, so float rounding is not modelled. DianchiDian works on the
  integer ADC reading. ShimSleep works on reals but does not model the time
  slept.
- **The hardware path of every HAL call.** The HiwonderSDK `Board`,
  `mecanum`, `Sonar` and `FourInfrared` calls are left out. Motor commands
  are the mock `_motor_speeds`, servo commands are a log, and sensor
  readings are inputs.
- **`vehicle/hal/vision_controller.py`** is not part of this model (camera
  I/O, OpenCV, float moments, a reader thread).
- **The module-level HAL wrappers.** `shang()` … `get_position()` in the
  gimbal module and the module-level sensor wrappers only delegate to the
  shared instance. The `yuntai_*` functions are modelled over an explicit
  controller.
- **`SensorController.get_all_sensors`** is left out. It only aggregates
  readings, one of them a float.
- **Go pool queries and transport.** GetConnection, GetVehicle,
  BroadcastToClients, BroadcastToAll, SetVehicleListCallback,
  StartHeartbeatMonitor, the ticker loop `heartbeatMonitor`, Stop and the
  mutexes are left out. They are lookup, transport or concurrency plumbing.
  The `go notifyVehicleListChanged()` goroutine is a counter of
  notifications.
- **Python gateway transport.** Socket.IO emits and `sio.disconnect` are
  recorded as events. Whether a server-side disconnect re-enters
  `handle_disconnect` is not modelled. The `while True` / `sleep(30)` loop
  of `_heartbeat_monitor` is one sweep per call, and its
  `except Exception` guard is not modelled.
- **Python gateway message relay.** `handle_client_register`,
  `handle_message`, the `handle_execution_*`, `handle_sensor_update`,
  `handle_status_update` and the HTTP routes are left out. They only
  relay messages.
- **Connection manager glue.** The `connect()` thread, the `while True`
  connect loop as a loop, `ws.run_forever`, JSON parsing and logging are
  left out. A frame that fails to parse is an absent value. An exception
  from `ws.send` is not modelled.
- **`get_connection_manager` and `init_connection_manager`** are left out:
  they are global-instance glue.
- **Front-end page code.** `translatePage`, `refreshTranslations` and the
  DOM are left out. The translation table's contents are a parameter.
- **Clocks.** Clock readings are integer parameters. `time.time()` is a
  float in the source, and the Python gateway's `now - last > 60`
  comparison is modelled on whole seconds.
- Gateway.VehicleConnectionPool.HeartbeatSweep: records the disconnect
  requests and does not run the disconnect handler, because that depends
  on the Socket.IO server.
- SandboxEngine.ProcessManager.StartExecution: the timeout is a whole number of seconds or None. A float timeout from the request body, and the message it gives ("执行超时（10.5秒）"), are not modelled.
- SandboxEngine.ProcessManager.StartAndRun: the same whole-second timeout.
- Motion.MotionController.YidongXy: the inputs are exact reals. Float rounding, NaN and infinities are not modelled.
- Pinyin.T: built on the intended own-key lookup. The written `t` can return an inherited Object.prototype member, as Pinyin.TranslateAsWritten and the Findings table show.
- Pinyin.LanguageManager.TranslateText: the same intended lookup as Pinyin.T.
- ConnectionPool.Connection.Send: the socket write's outcome is a parameter. A failed write records no frame, so a partial write is not modelled.
- ConnectionPool.Pool.RouteToVehicle: passes on the same write outcome; it does not model what the socket does.
- ConnectionPool.Pool.AddConnection, ConnectionPool.Pool.RemoveConnection,
  ConnectionPool.Pool.RegisterVehicle: the vehicle-list notification is a
  counter, because the goroutine and the callback it runs are left out.

## Findings

| source | as written | input that shows it | evidently intended | confidence | as-written member | corrected member |
|---|---|---|---|---|---|---|
| cloud/gateway/main.py:64-70 | `remove_connection(sid)` deletes whatever vehicle `sid_to_vehicle[sid]` names, without checking that this vehicle's entry still belongs to `sid` | `add_connection(v, s1)`, `add_connection(v, s2)`, `remove_connection(s1)` drops the live session s2's entry; a later `remove_connection(s2)` raises KeyError(v) | drop the vehicle's entries only when they still point at the disconnecting session; otherwise just forget the session | not executed | Gateway.StaleSessionAsWritten | Gateway.StaleSessionCorrected |
| cloud/gateway-go/internal/pool/connection.go:126-139 | `RemoveConnection` deletes `vehicles[conn.VehicleID]` without checking that the entry still holds this connection | `AddConnection(c1)` and `AddConnection(c2)` for the same vehicle id, then `RemoveConnection(c1)`: the vehicle entry is gone while c2 is still in `connections`, so routing to the vehicle fails | delete the vehicle entry only while it still holds the connection being removed | not executed | ConnectionPool.StaleOwnerAsWritten | ConnectionPool.Pool.RemoveConnectionCorrected |
| vehicle/executor/sandbox.py:103-105 | `sleep` is a plain lambda stored as a class attribute of `Time`, so `time.sleep(n)` through the instance is a bound-method call that passes the instance as well | `time.sleep(1)` in a script raises TypeError "<lambda>() takes 1 positional argument but 2 were given" instead of sleeping 1 s | `time.sleep(x)` runs the lambda's body on x: skip above 5 s, otherwise sleep x seconds | not executed | SandboxNamespace.ShimNeverSleeps | SandboxNamespace.ShimSleep |
| cloud/frontend/js/pinyin.js:292-295 | `PINYIN_TRANSLATIONS[text] \|\| text` on a plain object also finds names inherited from Object.prototype | in pinyin mode, `translate("toString")` returns the inherited `toString` function instead of the text "toString" | look up only the table's own keys and fall back to the text | not executed | Pinyin.InheritedNameLeaks | Pinyin.TranslateAgrees |
