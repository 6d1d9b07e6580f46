/**
 * The user-space single-axis tool (user/sweep.c): a table of six axes, each
 * with duty bounds and a linear angle calibration; `SetDuty`, `GetDuty` and
 * `ServoSync`, which talk to the servo device through ioctl; `Sweep`, which
 * walks one axis to a target duty in equal integer steps; and `RunCommand`,
 * the tool's main flow.
 *
 * The device (the /dev/robot descriptor) and `nanosleep` are an `Env`: it
 * records every call in order and answers the n-th call with
 * `ReplyAt(script, n)`. A reply is success or a refusal with a positive
 * errno. The script is arbitrary, so every property below holds for every
 * device whose ioctl returns 0, or -1 with errno set.
 */
module Sweep {
  import opened CInt
  import opened Wrappers

  /** The duty every axis starts with before the device is read. */
  const DefDuty := 900000

  /** `Sweep` moves in steps of about this many nanoseconds of duty. */
  const StepNs := 4000

  type Errno = e: int | e > 0 witness 1

  /**
   * The fixed part of one axis: its index, its duty bounds, and the
   * calibration `a`, `b` with `duty = angle * a + b`.
   */
  datatype Axis = Axis(index: int, minDuty: int, maxDuty: int, a: int, b: int) {

    /**
     * The duty `SetDuty` sends for a requested `d`: first capped at
     * `maxDuty`, then raised to `minDuty`. For non-empty bounds that is the
     * point of the bounds nearest to `d`; for empty ones it is `minDuty`.
     */
    function Clamp(d: int): (r: int)
      ensures minDuty <= maxDuty ==> minDuty <= r <= maxDuty
      ensures minDuty <= d <= maxDuty ==> r == d
      ensures minDuty <= maxDuty && d < minDuty ==> r == minDuty
      ensures minDuty <= maxDuty && d > maxDuty ==> r == maxDuty
      ensures minDuty > maxDuty ==> r == minDuty
    {
      var capped := if d > maxDuty then maxDuty else d;
      if capped < minDuty then minDuty else capped
    }
  }

  /** The static table; every axis starts at `DefDuty`. */
  const AxisTable: seq<Axis> := [
    Axis(0, 600000, 2400000, 10000, 0),
    Axis(1, 600000, 2600000, 10000, 0),
    Axis(2, 200000, 2400000, 10000, 0),
    Axis(3, 200000, 2400000, 10000, 0),
    Axis(4, 200000, 2400000, 10000, 0),
    Axis(5, 200000, 2400000, 10000, 0)
  ]

  /**
   * Every row sits at its own index, has non-empty bounds that contain the
   * default duty, and a calibration that can be inverted.
   */
  lemma AxisTableWellFormed()
    ensures |AxisTable| == 6
    ensures forall i :: 0 <= i < |AxisTable| ==>
      AxisTable[i].index == i && AxisTable[i].a != 0 &&
      AxisTable[i].minDuty <= DefDuty <= AxisTable[i].maxDuty
  {
  }

  /** One axis of the running tool. Only `duty` ever changes. */
  class Node {
    const axis: Axis
    var duty: int

    constructor (axis: Axis, duty: int)
      ensures this.axis == axis && this.duty == duty
    {
      this.axis, this.duty := axis, duty;
    }
  }

  /** The six axes of the table, freshly allocated at the default duty. */
  method NewNodeTable() returns (nodes: array<Node>)
    ensures fresh(nodes) && nodes.Length == |AxisTable|
    ensures forall i :: 0 <= i < nodes.Length ==>
      fresh(nodes[i]) && nodes[i].axis == AxisTable[i] && nodes[i].duty == DefDuty
  {
    var n0 := new Node(AxisTable[0], DefDuty);
    var n1 := new Node(AxisTable[1], DefDuty);
    var n2 := new Node(AxisTable[2], DefDuty);
    var n3 := new Node(AxisTable[3], DefDuty);
    var n4 := new Node(AxisTable[4], DefDuty);
    var n5 := new Node(AxisTable[5], DefDuty);
    nodes := new Node[] [n0, n1, n2, n3, n4, n5];
  }

  /** A call the tool makes on the device, or a `nanosleep`. */
  datatype Call = SetDutyReq(idx: int, dutyNs: int) | GetDutyReq(idx: int) | SyncReq(idx: int) | Sleep

  /** The device's reply: success (with the duty, for a get) or an errno. */
  datatype Reply = Ack(dutyNs: int) | Fail(errno: Errno)

  /**
   * The device's replies to the calls in the order they are made. A call
   * past the end of the script succeeds with a duty of 0; every finite
   * conversation is some script.
   */
  function ReplyAt(script: seq<Reply>, n: nat): Reply {
    if n < |script| then script[n] else Ack(0)
  }

  class Env {
    const script: seq<Reply>
    var calls: seq<Call>

    constructor (script: seq<Reply>)
      ensures this.script == script && calls == []
    {
      this.script := script;
      calls := [];
    }

    /** Issues one call; the reply is the script's reply for its position. */
    method Perform(c: Call) returns (r: Reply)
      modifies this
      ensures calls == old(calls) + [c]
      ensures r == ReplyAt(script, |old(calls)|)
    {
      r := ReplyAt(script, |calls|);
      calls := calls + [c];
    }
  }

  /**
   * Sends the clamped duty; only when the device accepts it does the node
   * record it. A refusal returns minus the errno and leaves the node alone.
   */
  method SetDuty(node: Node, env: Env, duty: int) returns (ret: int)
    modifies node, env
    ensures env.calls == old(env.calls) + [SetDutyReq(node.axis.index, node.axis.Clamp(duty))]
    ensures match ReplyAt(env.script, |old(env.calls)|)
      case Ack(_) => ret == 0 && node.duty == node.axis.Clamp(duty)
      case Fail(e) => ret == -(e as int) && node.duty == old(node.duty)
  {
    var d := duty;
    if d > node.axis.maxDuty { d := node.axis.maxDuty; }
    if d < node.axis.minDuty { d := node.axis.minDuty; }
    var r := env.Perform(SetDutyReq(node.axis.index, d));
    if r.Fail? {
      return -(r.errno as int);
    }
    node.duty := d;
    ret := 0;
  }

  /**
   * Reads the axis' duty from the device. On success the node takes the
   * device's value as it is, without clamping it; on failure it is unchanged.
   */
  method GetDuty(node: Node, env: Env) returns (ret: int)
    modifies node, env
    ensures env.calls == old(env.calls) + [GetDutyReq(node.axis.index)]
    ensures match ReplyAt(env.script, |old(env.calls)|)
      case Ack(v) => ret == 0 && node.duty == v
      case Fail(e) => ret == -(e as int) && node.duty == old(node.duty)
  {
    var r := env.Perform(GetDutyReq(node.axis.index));
    if r.Fail? {
      return -(r.errno as int);
    }
    node.duty := r.dutyNs;
    ret := 0;
  }

  /** Asks the device to apply the axis' last duty; the node is not touched. */
  method ServoSync(node: Node, env: Env) returns (ret: int)
    modifies env
    ensures env.calls == old(env.calls) + [SyncReq(node.axis.index)]
    ensures match ReplyAt(env.script, |old(env.calls)|)
      case Ack(_) => ret == 0
      case Fail(e) => ret == -(e as int)
  {
    var r := env.Perform(SyncReq(node.axis.index));
    ret := if r.Fail? then -(r.errno as int) else 0;
  }

  /** `nanosleep`, which reports a failure as -1. */
  method Nanosleep(env: Env) returns (ret: int)
    modifies env
    ensures env.calls == old(env.calls) + [Sleep]
    ensures ret == if ReplyAt(env.script, |old(env.calls)|).Ack? then 0 else -1
  {
    var r := env.Perform(Sleep);
    ret := if r.Ack? then 0 else -1;
  }

  // ---------------------------------------------------------------------
  // The step plan of a sweep.

  /**
   * `num_steps` as user/sweep.c computes it: the C quotient of the delta by
   * 4000, made non-negative. It is zero for every move shorter than 4000.
   */
  function NumStepsAsWritten(delta: int): nat {
    Abs(Div(delta, StepNs))
  }

  /** A move shorter than one step gets no steps, and `delta / num_steps` divides by zero. */
  lemma SmallMoveHasNoSteps(delta: int)
    requires 0 < Abs(delta) < StepNs
    ensures NumStepsAsWritten(delta) == 0
  {
  }

  /**
   * `num_steps` corrected: at least one step for any move, and the source's
   * value for every move of 4000 or more.
   */
  function NumSteps(delta: int): (n: nat)
    ensures delta != 0 ==> n >= 1
    ensures Abs(delta) >= StepNs ==> n == NumStepsAsWritten(delta)
  {
    var n := NumStepsAsWritten(delta);
    if n == 0 then 1 else n
  }

  /** `duty_step`: the C quotient of the delta by the number of steps. */
  function DutyStep(delta: int): int
    requires delta != 0
  {
    Div(delta, NumSteps(delta))
  }

  /**
   * The plan covers the move up to a remainder smaller than the number of
   * steps, never overshoots, moves in the direction of the target, and
   * moves at least 4000 and less than 8000 per step once the move is 4000
   * or longer.
   */
  lemma {:induction false} StepPlan(delta: int)
    requires delta != 0
    ensures var n, s := NumSteps(delta), DutyStep(delta);
      Abs(delta - n * s) < n &&
      (delta - n * s == 0 || (delta - n * s > 0) == (delta > 0)) &&
      (s > 0) == (delta > 0) && s != 0 &&
      (Abs(delta) >= StepNs ==> StepNs <= Abs(s) < 2 * StepNs)
  {
    var n, s := NumSteps(delta), DutyStep(delta);
    var d := Abs(delta);
    // In magnitudes: n * |s| <= d < n * |s| + n.
    MulAbs(n, s);
    assert Abs(n * s) == n * Abs(s);
    assert n * Abs(s) <= d < n * Abs(s) + n;
    if d >= StepNs {
      assert n == d / StepNs;
      assert StepNs * n <= d < StepNs * n + StepNs;
      if Abs(s) < StepNs {
        MulLe(n, Abs(s), StepNs - 1);
      }
      if Abs(s) >= 2 * StepNs {
        MulLe(n, 2 * StepNs, Abs(s));
      }
    }
  }

  lemma MulSucc(n: int, x: int)
    ensures (n + 1) * x == n * x + x
  {
  }

  lemma MulLe(n: nat, x: int, y: int)
    requires x <= y
    ensures n * x <= n * y
  {
    assert n * y - n * x == n * (y - x);
  }

  // ---------------------------------------------------------------------
  // What a sweep does, as a function of the device's answers.

  /** The result of a sweep: its return code, the node's duty, and the calls made. */
  datatype SweepRun = SweepRun(ret: int, duty: int, calls: seq<Call>)

  function After(prefix: seq<Call>, run: SweepRun): SweepRun {
    run.(calls := prefix + run.calls)
  }

  /**
   * The last `k` iterations of the sweep loop, with the node at duty
   * `last`, the running (unclamped) duty at `duty`, and the next call at
   * position `pos`. Each iteration adds `step` to the running duty.
   */
  function RunSteps(axis: Axis, script: seq<Reply>, pos: nat, last: int, duty: int, step: int, k: nat): SweepRun
    decreases k, 1
  {
    if k == 0 then SweepRun(0, last, []) else Iteration(axis, script, pos, last, duty + step, step, k)
  }

  /**
   * The first of `k` iterations, for the running duty `d`: set its clamp,
   * then sync, then sleep; the first refusal ends the run with its code
   * (minus the errno, or -1 for the sleep), and success leaves the other
   * `k - 1` to run.
   */
  function Iteration(axis: Axis, script: seq<Reply>, pos: nat, last: int, d: int, step: int, k: nat): SweepRun
    requires k > 0
    decreases k, 0
  {
    var req := SetDutyReq(axis.index, axis.Clamp(d));
    var setReply, syncReply, sleepReply := ReplyAt(script, pos), ReplyAt(script, pos + 1), ReplyAt(script, pos + 2);
    if setReply.Fail? then SweepRun(-(setReply.errno as int), last, [req])
    else if syncReply.Fail? then SweepRun(-(syncReply.errno as int), axis.Clamp(d), [req, SyncReq(axis.index)])
    else if sleepReply.Fail? then SweepRun(-1, axis.Clamp(d), [req, SyncReq(axis.index), Sleep])
    else After([req, SyncReq(axis.index), Sleep], RunSteps(axis, script, pos + 3, axis.Clamp(d), d, step, k - 1))
  }

  /** A whole sweep of `node` from duty `start` to `dutyEnd`. */
  function SweepSpec(axis: Axis, script: seq<Reply>, pos: nat, start: int, dutyEnd: int): SweepRun {
    if start == dutyEnd then SweepRun(0, start, [])
    else
      var delta := dutyEnd - start;
      RunSteps(axis, script, pos, start, start, DutyStep(delta), NumSteps(delta))
  }

  /**
   * Iteration `j` (counting from 0) asks for the clamp of
   * `duty + (j + 1) * step`, then syncs, then sleeps; no more than `k`
   * iterations run.
   */
  lemma {:induction false} RunStepsRequests(axis: Axis, script: seq<Reply>, pos: nat, last: int, duty: int, step: int, k: nat, j: nat)
    requires 3 * j < |RunSteps(axis, script, pos, last, duty, step, k).calls|
    ensures |RunSteps(axis, script, pos, last, duty, step, k).calls| <= 3 * k
    ensures var calls := RunSteps(axis, script, pos, last, duty, step, k).calls;
      calls[3 * j] == SetDutyReq(axis.index, axis.Clamp(duty + (j + 1) * step)) &&
      (3 * j + 1 < |calls| ==> calls[3 * j + 1] == SyncReq(axis.index)) &&
      (3 * j + 2 < |calls| ==> calls[3 * j + 2] == Sleep)
    decreases k
  {
    var d := duty + step;
    if ReplyAt(script, pos).Ack? && ReplyAt(script, pos + 1).Ack? && ReplyAt(script, pos + 2).Ack? {
      var rest := RunSteps(axis, script, pos + 3, axis.Clamp(d), d, step, k - 1);
      if j > 0 {
        RunStepsRequests(axis, script, pos + 3, axis.Clamp(d), d, step, k - 1, j - 1);
        assert d + ((j - 1) + 1) * step == duty + (j + 1) * step;
      } else if |rest.calls| > 0 {
        RunStepsRequests(axis, script, pos + 3, axis.Clamp(d), d, step, k - 1, 0);
      }
    }
  }

  /**
   * A run returns 0 exactly when the device acknowledges all `3 * k` calls;
   * then all of them were made and the node holds the clamp of the last
   * running duty, `duty + k * step`.
   */
  lemma {:induction false} RunStepsSucceeds(axis: Axis, script: seq<Reply>, pos: nat, last: int, duty: int, step: int, k: nat)
    ensures var r := RunSteps(axis, script, pos, last, duty, step, k);
      (r.ret == 0 <==> forall m :: pos <= m < pos + 3 * k ==> ReplyAt(script, m).Ack?) &&
      (r.ret == 0 ==> |r.calls| == 3 * k && r.duty == if k == 0 then last else axis.Clamp(duty + k * step))
    decreases k
  {
    if k > 0 {
      var d := duty + step;
      RunStepsSucceeds(axis, script, pos + 3, axis.Clamp(d), d, step, k - 1);
      assert d + (k - 1) * step == duty + k * step;
      if ReplyAt(script, pos).Fail? {
        assert !(forall m :: pos <= m < pos + 3 * k ==> ReplyAt(script, m).Ack?);
      } else if ReplyAt(script, pos + 1).Fail? {
        assert !(forall m :: pos <= m < pos + 3 * k ==> ReplyAt(script, m).Ack?);
      } else if ReplyAt(script, pos + 2).Fail? {
        assert !(forall m :: pos <= m < pos + 3 * k ==> ReplyAt(script, m).Ack?);
      }
    }
  }

  /**
   * A run that returns non-zero stopped at its first refused call, which is
   * its last call: the code is that call's -errno, or -1 for a failed
   * sleep.
   */
  lemma {:induction false} RunStepsFails(axis: Axis, script: seq<Reply>, pos: nat, last: int, duty: int, step: int, k: nat)
    ensures var r := RunSteps(axis, script, pos, last, duty, step, k);
      r.ret != 0 ==>
        1 <= |r.calls| <= 3 * k &&
        var f := |r.calls| - 1;
        ReplyAt(script, pos + f).Fail? &&
        (forall m :: pos <= m < pos + f ==> ReplyAt(script, m).Ack?) &&
        r.ret == (if r.calls[f] == Sleep then -1 else -(ReplyAt(script, pos + f).errno as int)) &&
        r.ret < 0
    decreases k
  {
    if k > 0 {
      var d := duty + step;
      var r := RunSteps(axis, script, pos, last, duty, step, k);
      assert r == Iteration(axis, script, pos, last, d, step, k);
      if ReplyAt(script, pos).Ack? && ReplyAt(script, pos + 1).Ack? && ReplyAt(script, pos + 2).Ack? && r.ret != 0 {
        var rest := RunSteps(axis, script, pos + 3, axis.Clamp(d), d, step, k - 1);
        assert r == After([SetDutyReq(axis.index, axis.Clamp(d)), SyncReq(axis.index), Sleep], rest);
        RunStepsFails(axis, script, pos + 3, axis.Clamp(d), d, step, k - 1);
        assert r.calls[|r.calls| - 1] == rest.calls[|rest.calls| - 1];
      }
    }
  }

  /**
   * After a failed run the node holds the clamp of the running duty of the
   * last iteration whose set was accepted, or `last` if no set was.
   */
  lemma {:induction false} RunStepsFailedDuty(axis: Axis, script: seq<Reply>, pos: nat, last: int, duty: int, step: int, k: nat)
    ensures var r := RunSteps(axis, script, pos, last, duty, step, k);
      var accepted := (|r.calls| + 1) / 3;
      r.ret != 0 ==> r.duty == if accepted == 0 then last else axis.Clamp(duty + accepted * step)
    decreases k
  {
    if k > 0 {
      var d := duty + step;
      var r := RunSteps(axis, script, pos, last, duty, step, k);
      assert r == Iteration(axis, script, pos, last, d, step, k);
      if ReplyAt(script, pos).Ack? && ReplyAt(script, pos + 1).Ack? && ReplyAt(script, pos + 2).Ack? && r.ret != 0 {
        var rest := RunSteps(axis, script, pos + 3, axis.Clamp(d), d, step, k - 1);
        assert r == After([SetDutyReq(axis.index, axis.Clamp(d)), SyncReq(axis.index), Sleep], rest);
        RunStepsFails(axis, script, pos + 3, axis.Clamp(d), d, step, k - 1);
        RunStepsFailedDuty(axis, script, pos + 3, axis.Clamp(d), d, step, k - 1);
        var accepted' := (|rest.calls| + 1) / 3;
        assert (|r.calls| + 1) / 3 == accepted' + 1;
        MulSucc(accepted', step);
      }
    }
  }

  /** Every duty a run sends lies within the axis' bounds. */
  lemma {:induction false} RunStepsInBounds(axis: Axis, script: seq<Reply>, pos: nat, last: int, duty: int, step: int, k: nat)
    requires axis.minDuty <= axis.maxDuty
    ensures forall c :: c in RunSteps(axis, script, pos, last, duty, step, k).calls && c.SetDutyReq? ==>
      axis.minDuty <= c.dutyNs <= axis.maxDuty
    decreases k
  {
    if k > 0 {
      var d := duty + step;
      RunStepsInBounds(axis, script, pos + 3, axis.Clamp(d), d, step, k - 1);
    }
  }

  /**
   * A sweep that returns 0 made all `num_steps` set/sync/sleep rounds; the
   * node holds the clamp of `start + num_steps * duty_step`, which falls
   * short of the target by less than `num_steps`; nothing it sent left the
   * bounds.
   */
  lemma SweepSucceeded(axis: Axis, script: seq<Reply>, pos: nat, start: int, dutyEnd: int)
    requires start != dutyEnd
    requires SweepSpec(axis, script, pos, start, dutyEnd).ret == 0
    ensures var r := SweepSpec(axis, script, pos, start, dutyEnd);
      var n, s := NumSteps(dutyEnd - start), DutyStep(dutyEnd - start);
      |r.calls| == 3 * n &&
      r.duty == axis.Clamp(start + n * s) &&
      Abs(dutyEnd - (start + n * s)) < n &&
      (axis.minDuty <= axis.maxDuty ==>
         forall c :: c in r.calls && c.SetDutyReq? ==> axis.minDuty <= c.dutyNs <= axis.maxDuty)
  {
    var delta := dutyEnd - start;
    var n, s := NumSteps(delta), DutyStep(delta);
    RunStepsSucceeds(axis, script, pos, start, start, s, n);
    StepPlan(delta);
    if axis.minDuty <= axis.maxDuty {
      RunStepsInBounds(axis, script, pos, start, start, s, n);
    }
  }

  /**
   * Moves `node` from its duty to `dutyEnd` in `NumSteps` equal steps of
   * `DutyStep`, each one set, synced and slept; stops at the first failure
   * and returns its code. A node already at the target makes no call.
   * The step count is the corrected `NumSteps`: a move shorter than 4000 is
   * made in one round, where the C code divides by zero.
   */
  method Sweep(node: Node, env: Env, dutyEnd: int) returns (ret: int)
    modifies node, env
    ensures SweepRun(ret, node.duty, env.calls) ==
      After(old(env.calls), SweepSpec(node.axis, env.script, |old(env.calls)|, old(node.duty), dutyEnd))
    ensures old(node.duty) == dutyEnd ==> ret == 0 && node.duty == dutyEnd && env.calls == old(env.calls)
  {
    ret := 0;
    var dutyStart := node.duty;
    if dutyStart == dutyEnd {
      return 0;
    }
    var dutyDelta := dutyEnd - dutyStart;
    var numSteps := NumSteps(dutyDelta);
    var dutyStep := Div(dutyDelta, numSteps);
    ghost var goal := After(env.calls, RunSteps(node.axis, env.script, |env.calls|, node.duty, dutyStart, dutyStep, numSteps));
    ghost var left := numSteps;
    var duty := dutyStart;
    var step := 0;
    while step < numSteps
      invariant 0 <= step <= numSteps && left == numSteps - step
      invariant ret == 0
      invariant goal == After(env.calls, RunSteps(node.axis, env.script, |env.calls|, node.duty, duty, dutyStep, left))
    {
      duty, ret := SweepStep(node, env, duty, dutyStep, left);
      left := left - 1;
      if ret != 0 {
        break;
      }
      step := step + 1;
    }
  }

  /**
   * One iteration of the sweep loop: add `dutyStep` to the running duty,
   * set it (clamped), and only if that succeeds sync, and only if that
   * succeeds sleep. Of the `k` iterations left, it makes exactly the calls
   * of the first; a failure ends the run with its code, and a success
   * leaves the other `k - 1` to come.
   */
  method SweepStep(node: Node, env: Env, prev: int, dutyStep: int, ghost k: nat) returns (duty: int, ret: int)
    requires k > 0
    modifies node, env
    ensures duty == prev + dutyStep
    ensures var run := After(old(env.calls), RunSteps(node.axis, env.script, |old(env.calls)|, old(node.duty), prev, dutyStep, k));
      if ret != 0 then run == SweepRun(ret, node.duty, env.calls)
      else run == After(env.calls, RunSteps(node.axis, env.script, |env.calls|, node.duty, duty, dutyStep, k - 1))
  {
    ghost var calls, script := env.calls, env.script;
    duty := prev + dutyStep;
    ret := SetDuty(node, env, duty);
    if ret == 0 {
      ret := ServoSync(node, env);
      if ret == 0 {
        ret := Nanosleep(env);
        if ret == 0 {
          ghost var added := [SetDutyReq(node.axis.index, node.axis.Clamp(duty)), SyncReq(node.axis.index), Sleep];
          ghost var rest := RunSteps(node.axis, script, |calls| + 3, node.duty, duty, dutyStep, k - 1);
          assert calls + (added + rest.calls) == (calls + added) + rest.calls;
        }
      }
    }
  }

  // ---------------------------------------------------------------------
  // Angle <-> duty at the command line.

  /** An angle to a duty: `angle * a + b`. */
  function AngleToDuty(a: int, b: int, angle: int): int {
    angle * a + b
  }

  /** A duty to an angle: `(duty - b) / a`, with C's truncating division. */
  function DutyToAngle(a: int, b: int, duty: int): int
    requires a != 0
  {
    Div(duty - b, a)
  }

  /** Converting an angle to a duty and back gives the angle again. */
  lemma AngleRoundTrip(a: int, b: int, angle: int)
    requires a != 0
    ensures DutyToAngle(a, b, AngleToDuty(a, b, angle)) == angle
  {
    assert AngleToDuty(a, b, angle) - b == angle * a;
    DivUnique(angle * a, a, angle);
  }

  /**
   * Converting a duty to an angle and back loses less than one unit of
   * calibration, always toward `b`.
   */
  lemma DutyRoundTrip(a: int, b: int, duty: int)
    requires a != 0
    ensures var back := AngleToDuty(a, b, DutyToAngle(a, b, duty));
      Abs(duty - back) < Abs(a) && (duty == back || (duty > back) == (duty > b))
  {
  }

  /**
   * The tool's main flow for an already-parsed command line: `index` the
   * axis, `target` the optional angle, `deviceOpen` whether /dev/robot opened.
   * An index outside 0..5 or a failed open does nothing. Otherwise the axis
   * is read from the device; if that succeeds it is swept to the target's
   * duty (when there is a target, ignoring the sweep's result) and its duty
   * is shown as an angle.
   */
  method RunCommand(nodes: array<Node>, env: Env, deviceOpen: bool, index: int, target: Option<int>) returns (shown: Option<int>)
    requires nodes.Length == 6
    requires forall i :: 0 <= i < 6 ==> nodes[i].axis.index == i && nodes[i].axis.a != 0
    modifies set i | 0 <= i < 6 :: nodes[i]
    modifies env
    ensures forall i :: 0 <= i < 6 && i != index ==> nodes[i].duty == old(nodes[i].duty)
    ensures !(0 <= index <= 5 && deviceOpen) ==>
      shown == None && env.calls == old(env.calls) && forall i :: 0 <= i < 6 ==> nodes[i].duty == old(nodes[i].duty)
    ensures 0 <= index <= 5 && deviceOpen ==>
      var node, pos := nodes[index], |old(env.calls)|;
      match ReplyAt(env.script, pos)
      case Fail(_) =>
        shown == None && node.duty == old(node.duty) && env.calls == old(env.calls) + [GetDutyReq(index)]
      case Ack(v) =>
        var run := if target.Some? then SweepSpec(node.axis, env.script, pos + 1, v, AngleToDuty(node.axis.a, node.axis.b, target.value))
                   else SweepRun(0, v, []);
        node.duty == run.duty && env.calls == old(env.calls) + [GetDutyReq(index)] + run.calls &&
        shown == Some(DutyToAngle(node.axis.a, node.axis.b, run.duty))
  {
    shown := None;
    if index > 5 || index < 0 {
      return;
    }
    if !deviceOpen {
      return;
    }
    var node := nodes[index];
    var ret := GetDuty(node, env);
    if ret != 0 {
      return;
    }
    if target.Some? {
      var _ := Sweep(node, env, AngleToDuty(node.axis.a, node.axis.b, target.value));
    }
    shown := Some(DutyToAngle(node.axis.a, node.axis.b, node.duty));
  }
}
