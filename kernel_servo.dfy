/**
 * The kernel driver's slot table and ioctl dispatch (kernel/servo.c): six
 * slots, one per joint name, each holding the PWM device registered for
 * that joint and a private copy of its PWM state whose duty cycle the ioctls
 * set, read and push to the device.
 *
 * The PWM framework and the user-copy routines are not part of this model:
 * every call into the PWM framework is appended to a log, and the values
 * those calls and the user copies return are parameters of the operation
 * (any value is allowed). A read or write the C code makes outside its
 * arrays or through a NULL slot is undefined behaviour; the model stops
 * there with the outcome `Fault` and changes nothing more.
 */
module KernelServo {
  import opened Wrappers

  /** The period every sync configures, in nanoseconds. */
  const PwmPeriodNs := 20000000

  /** The number of slots. */
  const TotalNodes := 6

  /** The joint name each slot belongs to. */
  const Joints: seq<string> := ["base", "shoulder", "elbow", "wrist1", "wrist2", "claw"]

  /** Linux errno values. */
  const ENOENT := 2
  const ENOMEM := 12

  /** The value of a C `unsigned char`. */
  type UChar = x: int | 0 <= x < 256

  /** The ioctl argument: a slot index and a duty in nanoseconds. */
  datatype Packet = Packet(idx: int, dutyNs: int)

  /** The fields of a PWM state the driver uses. */
  datatype PwmState = PwmState(period: int, dutyCycle: int, enabled: bool)

  /** A PWM device as the PWM framework hands it over: its name and its current state. */
  datatype PwmDevice = PwmDevice(name: string, state: PwmState)

  /** A call into the PWM framework, with the device pointer it is given (`None` for NULL). */
  datatype PwmCall =
    | PwmEnable(dev: Option<PwmDevice>)
    | PwmDisable(dev: Option<PwmDevice>)
    | PwmConfig(dev: Option<PwmDevice>, dutyNs: int, periodNs: int)

  /** The ioctl commands; any other number is `Unrecognised`. */
  datatype Command = Reset | SetDutyNs | GetDutyNs | Enable | Disable | Sync | Unrecognised(num: nat)

  /** How an operation ends: with a return value, or in undefined behaviour. */
  datatype Outcome = Returned(code: int) | Fault

  // ---------------------------------------------------------------------
  // The joint table.

  /** The first slot at or after `from` whose joint is `name`. */
  function FindJoint(name: string, from: nat): (r: Option<nat>)
    requires from <= |Joints|
    ensures r.Some? ==> from <= r.value < |Joints| && Joints[r.value] == name
    ensures r.Some? ==> forall j :: from <= j < r.value ==> Joints[j] != name
    ensures r.None? ==> forall j :: from <= j < |Joints| ==> Joints[j] != name
    decreases |Joints| - from
  {
    if from == |Joints| then None
    else if Joints[from] == name then Some(from)
    else FindJoint(name, from + 1)
  }

  /** The slot of the joint named `name`, if it is one of the six. */
  function JointIndex(name: string): (r: Option<nat>)
    ensures r.Some? <==> name in Joints
    ensures r.Some? ==> r.value < TotalNodes && Joints[r.value] == name
  {
    FindJoint(name, 0)
  }

  /** The six joint names are distinct, so a name belongs to at most one slot. */
  lemma JointsDistinct()
    ensures |Joints| == TotalNodes
    ensures forall i, j :: 0 <= i < j < |Joints| ==> Joints[i] != Joints[j]
  {
  }

  // ---------------------------------------------------------------------
  // The slot table as a value, and what each operation does to it.

  /** The driver's state: the two slot arrays and the PWM calls made so far. */
  datatype Slots = Slots(servos: seq<Option<PwmDevice>>, states: seq<Option<PwmState>>, pwmCalls: seq<PwmCall>)

  /**
   * The result of an operation: the new state, its outcome, and the packet
   * the caller receives back in full, if any.
   */
  datatype Effect = Effect(slots: Slots, outcome: Outcome, toUser: Option<Packet>)

  /** One slot per joint in both arrays. */
  predicate WellFormed(m: Slots) {
    |m.servos| == TotalNodes && |m.states| == TotalNodes
  }

  /** `servos[i]` can be read. */
  predicate InRange(m: Slots, i: int) {
    0 <= i < |m.servos| && 0 <= i < |m.states|
  }

  /** `states[i]` can be read and points to a state. */
  predicate Ready(m: Slots, i: int) {
    0 <= i < |m.states| && m.states[i].Some?
  }

  /** `servo_set_duty_ns`: stores `duty` as slot `i`'s duty cycle, as it is. */
  function SetDutySpec(m: Slots, i: int, duty: int): Effect {
    if Ready(m, i) then
      Effect(m.(states := m.states[i := Some(m.states[i].value.(dutyCycle := duty))]), Returned(0), None)
    else Effect(m, Fault, None)
  }

  /** The ENABLE branch: enables slot `i`'s device and returns what the PWM framework returns. */
  function EnableSpec(m: Slots, i: int, pwmRet: int): Effect {
    if InRange(m, i) then Effect(m.(pwmCalls := m.pwmCalls + [PwmEnable(m.servos[i])]), Returned(pwmRet), None)
    else Effect(m, Fault, None)
  }

  /** The DISABLE branch: disables slot `i`'s device; the result stays 0. */
  function DisableSpec(m: Slots, i: int): Effect {
    if InRange(m, i) then Effect(m.(pwmCalls := m.pwmCalls + [PwmDisable(m.servos[i])]), Returned(0), None)
    else Effect(m, Fault, None)
  }

  /** `servo_sync`: configures slot `i`'s device with its stored duty and the fixed period. */
  function SyncSpec(m: Slots, i: int, pwmRet: int): Effect {
    if InRange(m, i) && Ready(m, i) then
      Effect(m.(pwmCalls := m.pwmCalls + [PwmConfig(m.servos[i], m.states[i].value.dutyCycle, PwmPeriodNs)]), Returned(pwmRet), None)
    else Effect(m, Fault, None)
  }

  /**
   * `servo_ioctl` for the command `cmd` and the caller's packet `user`.
   * `copyIn` is what `copy_from_user` returns (the bytes it could not copy),
   * `copyOut` the same for `copy_to_user`, `pwmRet` what the PWM framework
   * returns. GET reads the slot `idx` taken as an `unsigned char`, copies
   * the packet back (the caller receives it only if that copy succeeds), and
   * then runs the ENABLE branch for `idx`, whose result replaces the copy's.
   */
  function IoctlSpec(m: Slots, cmd: Command, user: Packet, copyIn: nat, copyOut: nat, pwmRet: int): Effect {
    if copyIn != 0 then Effect(m, Returned(copyIn), None)
    else
      match cmd
      case Reset => Effect(m, Returned(0), None)
      case SetDutyNs => SetDutySpec(m, user.idx, user.dutyNs)
      case GetDutyNs =>
        var slot := user.idx % 256;
        if Ready(m, slot) then
          var back := if copyOut == 0 then Some(user.(dutyNs := m.states[slot].value.dutyCycle)) else None;
          EnableSpec(m, user.idx, pwmRet).(toUser := back)
        else Effect(m, Fault, None)
      case Enable => EnableSpec(m, user.idx, pwmRet)
      case Disable => DisableSpec(m, user.idx)
      case Sync => SyncSpec(m, user.idx, pwmRet)
      case Unrecognised(_) => Effect(m, Returned(0), None)
  }

  // ---------------------------------------------------------------------
  // Properties of the dispatch.

  /** A failed copy from user space runs no command and returns the copy's result. */
  lemma CopyInFailureRunsNothing(m: Slots, cmd: Command, user: Packet, copyIn: nat, copyOut: nat, pwmRet: int)
    requires copyIn != 0
    ensures IoctlSpec(m, cmd, user, copyIn, copyOut, pwmRet) == Effect(m, Returned(copyIn), None)
  {
  }

  /** RESET and unrecognised commands change nothing and return 0. */
  lemma ResetAndUnknownChangeNothing(m: Slots, cmd: Command, user: Packet, copyOut: nat, pwmRet: int)
    requires cmd.Reset? || cmd.Unrecognised?
    ensures IoctlSpec(m, cmd, user, 0, copyOut, pwmRet) == Effect(m, Returned(0), None)
  {
  }

  /**
   * GET falls through into ENABLE: it has the state change and the outcome
   * of ENABLE for the same packet. The caller receives the slot's duty only
   * when the copy back succeeds, but a failed copy is not reported: the
   * outcome and the new state are the same whatever the copy returned.
   */
  lemma GetFallsThroughToEnable(m: Slots, user: Packet, copyOut: nat, copyOut': nat, pwmRet: int)
    requires Ready(m, user.idx % 256)
    ensures var get, enable := IoctlSpec(m, GetDutyNs, user, 0, copyOut, pwmRet), IoctlSpec(m, Enable, user, 0, copyOut, pwmRet);
      get.slots == enable.slots && get.outcome == enable.outcome &&
      get.toUser == if copyOut == 0 then Some(Packet(user.idx, m.states[user.idx % 256].value.dutyCycle)) else None
    ensures var get, get' := IoctlSpec(m, GetDutyNs, user, 0, copyOut, pwmRet), IoctlSpec(m, GetDutyNs, user, 0, copyOut', pwmRet);
      get.slots == get'.slots && get.outcome == get'.outcome
  {
  }

  /**
   * No index is checked: a command on a slot index ends in undefined
   * behaviour exactly when the index it uses is outside the arrays or, for
   * the commands that read a state, names an empty slot.
   */
  lemma FaultExactly(m: Slots, cmd: Command, user: Packet, copyOut: nat, pwmRet: int)
    ensures IoctlSpec(m, cmd, user, 0, copyOut, pwmRet).outcome == Fault <==>
      match cmd
      case SetDutyNs => !Ready(m, user.idx)
      case GetDutyNs => !Ready(m, user.idx % 256) || !InRange(m, user.idx)
      case Enable => !InRange(m, user.idx)
      case Disable => !InRange(m, user.idx)
      case Sync => !(InRange(m, user.idx) && Ready(m, user.idx))
      case _ => false
  {
  }

  /** The only effect of a command that returns is on the slot it names. */
  lemma SetDutyTouchesOneSlot(m: Slots, user: Packet, copyOut: nat, pwmRet: int)
    requires Ready(m, user.idx)
    ensures var e := IoctlSpec(m, SetDutyNs, user, 0, copyOut, pwmRet);
      e.outcome == Returned(0) && e.toUser == None &&
      e.slots.servos == m.servos && e.slots.pwmCalls == m.pwmCalls &&
      |e.slots.states| == |m.states| &&
      (forall j :: 0 <= j < |m.states| && j != user.idx ==> e.slots.states[j] == m.states[j]) &&
      e.slots.states[user.idx] == Some(m.states[user.idx].value.(dutyCycle := user.dutyNs))
  {
  }

  /**
   * A duty set through SET comes back, unclamped, from a GET on the same
   * slot whose copy back succeeds, and a SYNC then configures the device
   * with it and the fixed period.
   */
  lemma SetThenGetAndSync(m: Slots, i: int, duty: int, any: int, copyOut: nat, pwmRet: int)
    requires WellFormed(m) && Ready(m, i)
    ensures var afterSet := IoctlSpec(m, SetDutyNs, Packet(i, duty), 0, copyOut, pwmRet).slots;
      IoctlSpec(afterSet, GetDutyNs, Packet(i, any), 0, 0, pwmRet).toUser == Some(Packet(i, duty)) &&
      IoctlSpec(afterSet, Sync, Packet(i, any), 0, copyOut, pwmRet) ==
        Effect(afterSet.(pwmCalls := m.pwmCalls + [PwmConfig(m.servos[i], duty, PwmPeriodNs)]), Returned(pwmRet), None)
  {
  }

  // ---------------------------------------------------------------------
  // The driver.

  class Driver {
    const servos: array<Option<PwmDevice>>
    const states: array<Option<PwmState>>
    var pwmCalls: seq<PwmCall>

    /** Both arrays have one entry per joint. */
    predicate Valid()
      reads this
    {
      servos.Length == TotalNodes && states.Length == TotalNodes
    }

    /** The driver's state as a value. */
    function Model(): Slots
      reads this, servos, states
    {
      Slots(servos[..], states[..], pwmCalls)
    }

    /** The driver data starts zeroed: every slot empty, no PWM call made. */
    constructor ()
      ensures Valid() && fresh(servos) && fresh(states)
      ensures Model() == Slots(seq(TotalNodes, _ => None), seq(TotalNodes, _ => None), [])
    {
      servos := new Option<PwmDevice>[TotalNodes](_ => None);
      states := new Option<PwmState>[TotalNodes](_ => None);
      pwmCalls := [];
    }

    /**
     * `store_servo_info`: finds the slot of the joint `name` (the label of `pwm`); there it
     * stores a fresh copy of `pwm`'s state and `pwm` itself and returns the
     * slot. `allocOk` says whether the allocation of the copy succeeds; if
     * not, the slot's state becomes NULL and the result is -ENOMEM. An
     * unknown name returns -ENOENT and changes nothing.
     */
    method StoreServoInfo(name: string, pwm: PwmDevice, allocOk: bool) returns (ret: int)
      requires Valid()
      modifies servos, states
      ensures Valid() && pwmCalls == old(pwmCalls)
      ensures match JointIndex(name)
        case None => ret == -ENOENT && Model() == old(Model())
        case Some(i) =>
          if allocOk then
            ret == i && servos[..] == old(servos[..])[i := Some(pwm)] && states[..] == old(states[..])[i := Some(pwm.state)]
          else
            ret == -ENOMEM && servos[..] == old(servos[..]) && states[..] == old(states[..])[i := None]
    {
      var idx := 0;
      while idx < TotalNodes
        invariant 0 <= idx <= TotalNodes
        invariant FindJoint(name, 0) == FindJoint(name, idx)
        invariant servos[..] == old(servos[..]) && states[..] == old(states[..])
      {
        if Joints[idx] == name {
          if !allocOk {
            states[idx] := None;
            return -ENOMEM;
          }
          states[idx] := Some(pwm.state);
          servos[idx] := Some(pwm);
          return idx;
        }
        idx := idx + 1;
      }
      return -ENOENT;
    }

    /** `servo_set_duty_ns`. */
    method SetDuty(index: int, duty: int) returns (o: Outcome)
      requires Valid()
      modifies states
      ensures var e := SetDutySpec(old(Model()), index, duty); Model() == e.slots && o == e.outcome
    {
      if !(0 <= index < TotalNodes) || states[index].None? {
        return Fault;
      }
      states[index] := Some(states[index].value.(dutyCycle := duty));
      o := Returned(0);
    }

    /** `servo_get_duty_ns`: reads slot `index`'s stored duty and returns 0. */
    method GetDuty(index: UChar) returns (o: Outcome, duty: int)
      requires Valid()
      ensures Ready(Model(), index) ==> o == Returned(0) && duty == states[index].value.dutyCycle
      ensures !Ready(Model(), index) <==> o == Fault
    {
      if index >= TotalNodes || states[index].None? {
        return Fault, 0;
      }
      duty := states[index].value.dutyCycle;
      o := Returned(0);
    }

    /** `servo_sync`. */
    method ServoSync(index: int, pwmRet: int) returns (o: Outcome)
      requires Valid()
      modifies this
      ensures var e := SyncSpec(old(Model()), index, pwmRet); Model() == e.slots && o == e.outcome
    {
      if !(0 <= index < TotalNodes) || states[index].None? {
        return Fault;
      }
      pwmCalls := pwmCalls + [PwmConfig(servos[index], states[index].value.dutyCycle, PwmPeriodNs)];
      o := Returned(pwmRet);
    }

    /** The ENABLE branch of the dispatch. */
    method EnableSlot(index: int, pwmRet: int) returns (o: Outcome)
      requires Valid()
      modifies this
      ensures var e := EnableSpec(old(Model()), index, pwmRet); Model() == e.slots && o == e.outcome
    {
      if !(0 <= index < TotalNodes) {
        return Fault;
      }
      pwmCalls := pwmCalls + [PwmEnable(servos[index])];
      o := Returned(pwmRet);
    }

    /** `servo_ioctl`, with the switch's fall-through from GET into ENABLE. */
    method Ioctl(cmd: Command, user: Packet, copyIn: nat, copyOut: nat, pwmRet: int) returns (o: Outcome, toUser: Option<Packet>)
      requires Valid()
      modifies this, states
      ensures var e := IoctlSpec(old(Model()), cmd, user, copyIn, copyOut, pwmRet);
        Model() == e.slots && o == e.outcome && toUser == e.toUser
    {
      toUser := None;
      if copyIn != 0 {
        return Returned(copyIn), None;
      }
      var pkt := user;
      match cmd {
        case Reset =>
          o := Returned(0);
        case SetDutyNs =>
          o := SetDuty(pkt.idx, pkt.dutyNs);
        case GetDutyNs =>
          var got, duty := GetDuty(pkt.idx % 256);
          if got.Fault? {
            return Fault, None;
          }
          pkt := pkt.(dutyNs := duty);
          // The result of the copy back is overwritten by the ENABLE branch below.
          if copyOut == 0 {
            toUser := Some(pkt);
          }
          o := EnableSlot(pkt.idx, pwmRet);
        case Enable =>
          o := EnableSlot(pkt.idx, pwmRet);
        case Disable =>
          if !(0 <= pkt.idx < TotalNodes) {
            return Fault, None;
          }
          pwmCalls := pwmCalls + [PwmDisable(servos[pkt.idx])];
          o := Returned(0);
        case Sync =>
          o := ServoSync(pkt.idx, pwmRet);
        case Unrecognised(_) =>
          o := Returned(0);
      }
    }
  }
}
