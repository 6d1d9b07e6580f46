# arm-control in Dafny

A model of the three pieces of sequential logic in the arm-control servo
repository, with proofs of what they do:

- **The single-axis tool** (`user/sweep.c`, module `Sweep` in `sweep.dfy`).
  - A table of six axes, each with duty bounds and a linear calibration
    `duty = angle * a + b`.
  - `setDuty`, `getDuty` and `servoSync`, which talk to the servo device
    through ioctl.
  - `sweep`, which walks one axis to a target duty in equal integer steps
    and stops at the first failure.
  - The tool's `main`: an index check, a read of the axis, an optional
    sweep, and a display of the duty as an angle.
  - The device and `nanosleep` form an environment (`Env`). It logs every
    call and answers the n-th call from an arbitrary reply script. A reply
    is success or a refusal with a positive errno, so every result holds for
    every device whose ioctl returns 0, or -1 with errno set.
- **The kernel driver's slot table and ioctl dispatch** (`kernel/servo.c`,
  module `KernelServo` in `kernel_servo.dfy`).
  - A `Driver` with six slots, one per joint name. Each slot holds a PWM
    device and a copy of its PWM state.
  - `store_servo_info`, `servo_set_duty_ns`, `servo_get_duty_ns`,
    `servo_sync` and `servo_ioctl`.
  - `servo_ioctl` is proved against the pure function `IoctlSpec`, and the
    dispatch's properties are lemmas about that function.
  - Calls into the PWM framework go into a log. What they, `copy_from_user`
    and `copy_to_user` return are parameters.
  - A read outside the arrays or through a NULL slot is undefined behaviour
    in C. The model ends there with the outcome `Fault`.
- **The keyboard controller** (`input.c`, module `KeyControl` in
  `key_control.dfy`).
  - `enable`, `disable` and `disableAll` on an array of `{angle, enabled}`
    records that may be NULL.
  - The loop that turns the bytes of one terminal read into angle changes of
    the base servo and a stop request.

`cint.dfy` (module `CInt`) gives C's truncating integer division.
`wrappers.dfy` gives `Option`.

## Model

| member | source | states |
|---|---|---|
| CInt.Div | user/sweep.c:109 | C's `/`: the remainder is smaller than the divisor in magnitude and is zero or has the dividend's sign. The quotient is no larger than the dividend in magnitude. |
| CInt.DivUnique | user/sweep.c:195 | Only one quotient has those two properties, so `Div` is C's division and no other. |
| Sweep.Axis.Clamp | user/sweep.c:47-48 | The duty sent lies within `[minDuty, maxDuty]` when the bounds are non-empty. A duty already inside is kept; one below becomes `minDuty`; one above becomes `maxDuty`. With empty bounds the result is `minDuty`, because the raise to the minimum comes last. |
| Sweep.AxisTableWellFormed | user/sweep.c:38-43 | The six rows sit at their own index, have a non-zero `a`, and have bounds that contain the default duty 900000. |
| Sweep.NewNodeTable | user/sweep.c:38-43 | Six distinct axis records, in table order, each at the default duty. |
| Sweep.SetDuty | user/sweep.c:45-62 | Exactly one set request is sent, carrying the clamped duty. If the device accepts it, the node holds that duty and the result is 0. If the device refuses with errno `e`, the result is `-e` and the node keeps its duty. |
| Sweep.GetDuty | user/sweep.c:64-76 | Exactly one get request is sent. On success the node takes the device's value unclamped and the result is 0. On failure the result is `-errno` and the node keeps its duty. |
| Sweep.ServoSync | user/sweep.c:78-90 | Exactly one sync request is sent. The result is 0, or `-errno` on refusal. The node is not touched. |
| Sweep.Nanosleep | user/sweep.c:142 | One sleep. A failure returns -1, not an errno. |
| Sweep.SmallMoveHasNoSteps | user/sweep.c:107 | As written, every move shorter than 4000 gets `num_steps == 0`. Line 109 then divides by zero (see Findings). |
| Sweep.NumSteps | user/sweep.c:107 | The corrected step count is at least 1 for every move. It equals the source's `abs(delta / 4000)` for every move of 4000 or more. |
| Sweep.StepPlan | user/sweep.c:106-109 | `num_steps * duty_step` covers the move up to a remainder smaller than `num_steps`, without overshooting. The step points toward the target and is never 0. For moves of 4000 or more it lies in `[4000, 8000)`. |
| Sweep.RunStepsRequests | user/sweep.c:128-136 | Iteration `j` sends the clamp of `start + (j+1) * duty_step`, then a sync, then a sleep, and no more than `num_steps` iterations run. |
| Sweep.RunStepsSucceeds | user/sweep.c:128-148 | A run returns 0 exactly when every call of every iteration succeeds. Then all `3 * num_steps` calls were made and the node holds the clamp of the last running duty. |
| Sweep.RunStepsFails | user/sweep.c:136-147 | A run that returns non-zero ends at its first refused call, which is its last call. Its result is that call's `-errno`, or -1 for a sleep, and is negative. |
| Sweep.RunStepsFailedDuty | user/sweep.c:136-147 | After a failure the node holds the clamp of the running duty of the last accepted set, or its starting duty if no set was accepted. |
| Sweep.RunStepsInBounds | user/sweep.c:45-48 | Every duty a sweep sends lies within the axis' bounds. |
| Sweep.SweepSucceeded | user/sweep.c:106-148 | A sweep that returns 0 made all `num_steps` rounds. The node ends at the clamp of `start + num_steps * duty_step`, which misses the target by less than `num_steps`, and no duty sent left the bounds. |
| Sweep.Sweep | user/sweep.c:92-152 | The return code, the node's final duty and the calls made are those of `SweepSpec` for the device's replies. A node already at the target returns 0 and makes no call. |
| Sweep.SweepStep | user/sweep.c:128-147 | One loop iteration: add the step, set, then sync only if the set succeeded, then sleep only if the sync succeeded. Of the iterations left it makes exactly the first one's calls. A failure ends the run with its code; success leaves the rest to run. |
| Sweep.AngleRoundTrip | user/sweep.c:193-195 | For `a != 0`, converting an angle to a duty (`angle * a + b`) and back (`(duty - b) / a`) gives the angle again. |
| Sweep.DutyRoundTrip | user/sweep.c:193-195 | Converting a duty to an angle and back loses less than `|a|`, always toward `b`. |
| Sweep.RunCommand | user/sweep.c:154-200 | An index outside 0..5 or an unopened device makes no call and changes nothing. Otherwise the axis is read. If the read fails nothing is shown. If it succeeds, the axis is swept to the target angle's duty (when a target is given) and the final duty is shown as an angle. No other axis changes. |
| KernelServo.FindJoint | kernel/servo.c:85-86 | The slot found is the first at or after `from` that has the joint's name. No slot is found exactly when no later slot has it. |
| KernelServo.JointIndex | kernel/servo.c:35-42 | A name has a slot exactly when it is one of the six joint names, and that slot carries the name. |
| KernelServo.JointsDistinct | kernel/servo.c:35-43 | There are six joint names and they are distinct. |
| KernelServo.Driver.StoreServoInfo | kernel/servo.c:79-98 | Returns the first slot whose joint name matches and stores there the device and a copy of its state, touching no other slot. A failed allocation returns -ENOMEM and leaves that slot's state NULL. An unknown name returns -ENOENT and changes nothing. |
| KernelServo.Driver.SetDuty | kernel/servo.c:174-180 | Stores the duty unclamped into one slot's state and returns 0. Faults on an index outside the table or an empty slot. |
| KernelServo.Driver.GetDuty | kernel/servo.c:181-188 | Returns 0 and the slot's stored duty. Faults exactly when the slot (an `unsigned char`) is outside the table or empty. |
| KernelServo.Driver.ServoSync | kernel/servo.c:190-197 | Configures the slot's device with its stored duty and the period 20000000 ns, and returns the PWM framework's result. |
| KernelServo.Driver.EnableSlot | kernel/servo.c:237-241 | Enables the slot's device and returns the PWM framework's result. Faults outside the table. |
| KernelServo.Driver.Ioctl | kernel/servo.c:200-257 | The new slot table, the outcome and the packet written back are those of `IoctlSpec`, with GET falling through into ENABLE. |
| KernelServo.CopyInFailureRunsNothing | kernel/servo.c:208-213 | If the copy from user space fails, no command runs and the copy's non-zero result is returned. |
| KernelServo.ResetAndUnknownChangeNothing | kernel/servo.c:217-253 | RESET and unrecognised commands change nothing and return 0. |
| KernelServo.GetFallsThroughToEnable | kernel/servo.c:227-241 | GET copies the slot's duty back, and the caller receives it only if that copy succeeds. GET then has exactly ENABLE's effect and result for the same index. A failed copy back is not reported: the outcome and the new state are the same whatever the copy returned. |
| KernelServo.FaultExactly | kernel/servo.c:200-257 | No index is checked. A command ends in undefined behaviour exactly when the index it uses is outside the arrays, or names an empty slot for a command that reads a state. For GET, that is either the `unsigned char` index or the original one. |
| KernelServo.SetDutyTouchesOneSlot | kernel/servo.c:220-226 | A SET on a ready slot returns 0, changes only that slot's duty, and makes no PWM call. |
| KernelServo.SetThenGetAndSync | kernel/servo.c:174-197 | After a SET, a GET on the same slot whose copy back succeeds hands back the same duty, and a SYNC configures the device with it and the fixed period. |
| KeyControl.SetEnabled | input.c:47-64 | Only record `i`'s flag changes; its angle and every other record are kept. |
| KeyControl.DisableFirstEffect | input.c:72-75 | Disabling the first `n` records clears exactly their flags, keeps their angles, and leaves the later records as they were. |
| KeyControl.DisableAllSparesClaw | input.c:72 | On the six records, `disableAll` clears records 0-4 only. The claw (record 5) keeps its flag, and every angle is kept. |
| KeyControl.Enable | input.c:47-55 | Sets record `index`'s flag and nothing else. A NULL array is left alone. |
| KeyControl.Disable | input.c:57-64 | Clears record `index`'s flag and nothing else. A NULL array is left alone. |
| KeyControl.DisableAll | input.c:66-77 | A NULL array gives -EINVAL. Otherwise it is `disable` applied to records 0-4 in turn, and the result is what sending the records returns. |
| KeyControl.ApplyKeysEffect | input.c:134-152 | A buffer moves the base by +1 per `q` and -1 per `a`, whatever the order and wherever a stop byte falls. The program keeps running exactly when it was running and the buffer has no byte 3 or 27. |
| KeyControl.StopStillProcessesRest | input.c:137-144 | A stop byte does not end the buffer: the bytes after it still move the base, and running becomes false. |
| KeyControl.HandleInput | input.c:134-155 | For one read, the base's angle and the running flag become those of `ApplyKeys` over the bytes read (none if `read` returned 0 or less). Its enabled flag and every other record are unchanged. |

## Left out

- The float timing of `sweep` (user/sweep.c:110-125) is not modelled. That is the duration, the per-step delay and its own division by `num_steps`. A sleep is a call that succeeds or fails.
- Diagnostics are left out: `printf`, `fprintf`, `prerr` and `pr_dbg`. So is the `fprintf` at user/sweep.c:102-103, whose `%f` has no argument. The `DEBUG_PRINT` block (user/sweep.c:130-135) is compiled out and left out too.
- Sweep.RunCommand: the index and the target arrive already parsed. `strtoul` on the command line is not modelled, and neither is opening the device, which becomes the `deviceOpen` flag.
- Sweep.Sweep: uses the corrected step count `NumSteps` (see Findings). For a move shorter than 4000 it makes one set/sync/sleep round straight to the target, where user/sweep.c:109 divides by zero. For every other move it is the source's count.
- Sweep.RunCommand: inherits that difference from `Sweep.Sweep` when the target's duty is less than 4000 from the axis' current duty.
- Sweep.RunCommand: requires `a != 0` for the six axes, which the table guarantees. The C code would divide by zero otherwise.
- Integers are unbounded. 32-bit overflow of `duty_end * a + b`, of `duty += duty_step` and of `angle += 1` is not modelled.
- Sweep.ReplyAt: the device's replies are a finite script, and calls past its end succeed with a duty of 0. Every finite conversation with the device is some script.
- The two sides are modelled separately. The tool's device replies are not tied to the kernel driver's state.
- Sweep.SetDuty, Sweep.GetDuty and Sweep.ServoSync: an ioctl that returns a positive value is not modelled. The driver does this when `copy_from_user` comes up short (kernel/servo.c:208, 256), and Linux then leaves errno as it was. The C code then returns `-errno`, which may be 0, so a refused set would look like success without storing the duty. `sweep` would then go on to the next step.
- KernelServo.Driver.Ioctl: ioctls are modelled one at a time, each as an atomic step. `servo_ioctl` is registered as `unlocked_ioctl` (kernel/servo.c:259-261) and takes no lock, so concurrent ioctls are not modelled. Nor is `store_servo_info` running during an ioctl: in between, a slot's state can be the zeroed allocation before its `memcpy`, or NULL on the ENOMEM path.
- Kernel module lifecycle is not part of this model: `servo_init`, `servo_exit`, device registration, and `servo_probe`/`servo_remove` (kernel/servo.c:101-170, 263-362). `KernelServo.Driver.constructor` gives the zeroed slot tables the driver starts with.
- The PWM framework, `copy_from_user` and `copy_to_user` are not modelled. The driver's calls into the framework are logged, and their results are parameters. `toUser` is the packet the caller receives in full, which happens only when `copy_to_user` copies every byte. A failed copy gives `None`; the bytes a partial copy does write are not modelled.
- KernelServo.IoctlSpec: undefined behaviour (an out-of-range index, a NULL slot) is the outcome `Fault`, after which nothing more is modelled.
- The ioctl numbers' encoding (kernel/servo.h:9-15) is not modelled. Commands are a datatype.
- The PWM state's `duty_cycle` is an unsigned field in the kernel. The model keeps the `int` the ioctl passes; the conversion there and back gives the same value.
- The memory leak noted at kernel/servo.c:87 is not modelled.
- input.c's `getState` and `setState` ioctl wrappers are not modelled. `setState` has no `return` after its NULL check (input.c:40-45), so `disableAll`'s result when the array is not NULL is the parameter `sendResult`.
- input.c's terminal raw mode, `poll`, `usleep`, the outer `while (running)` loop and `printState` are not modelled, nor is the setup and shutdown in `main` (input.c:96-133, 156-170). `HandleInput` is the body for one read.
- KeyControl.Enable: requires an index inside the array when it is not NULL. The C code writes `state[index]` unchecked, which is undefined behaviour outside the array; the model does not cover that case.
- KeyControl.Disable: requires an index inside the array when it is not NULL, for the same reason as `Enable`.
- KeyControl.DisableAll: requires a non-NULL array to hold at least five records. The C code writes records 0-4 unchecked, which is undefined behaviour for a shorter array; the model does not cover that case.
- KeyControl.Enable and KeyControl.Disable return nothing. The C functions are `void` yet write `return -EINVAL`, so the value is lost.
- user/run.c, user/test.c and test.c are not part of this model.

## Findings

| source | as written | input that shows it | evidently intended | confidence | as-written member | corrected member |
|---|---|---|---|---|---|---|
| user/sweep.c:107-109 | `num_steps = abs(duty_delta / 4000)` is 0 for any move shorter than 4000, and `duty_delta / num_steps` then divides by zero | a node at duty 900000 swept to 901000 (`duty_delta` 1000) | at least one step, so a short move is made in one step | high; not executed | Sweep.SmallMoveHasNoSteps | Sweep.NumSteps |
