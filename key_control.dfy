/**
 * The keyboard controller (input.c): an array of servo records, helpers that
 * switch a record's enable flag, and the loop that turns the bytes of one
 * read from the terminal into angle changes of the base servo and a stop
 * request.
 *
 * The C helpers take a pointer that may be NULL; it is an `array?` here.
 * They check the pointer but not the index, so a caller must pass an index
 * inside the array it points to.
 */
module KeyControl {

  /** Linux errno value. */
  const EINVAL := 22

  /** The keys the loop reacts to: Ctrl-C and Escape stop, `q` and `a` move the base. */
  const KeyInterrupt := 3
  const KeyEscape := 27
  const KeyUp := 'q' as int
  const KeyDown := 'a' as int

  /** How many records `disableAll` clears. */
  const DisabledByAll := 5

  /** A byte read from the terminal. */
  type Byte = x: int | 0 <= x < 256

  /** One servo's record: its angle and whether it is enabled. */
  datatype ServoState = ServoState(angle: int, enabled: bool)

  // ---------------------------------------------------------------------
  // The enable flags.

  /** The records `s` with record `i`'s flag set to `on`. */
  function SetEnabled(s: seq<ServoState>, i: int, on: bool): (r: seq<ServoState>)
    requires 0 <= i < |s|
    ensures |r| == |s| && r[i].enabled == on && r[i].angle == s[i].angle
    ensures forall j :: 0 <= j < |s| && j != i ==> r[j] == s[j]
  {
    s[i := s[i].(enabled := on)]
  }

  /** `disable` applied to each of the first `n` records, in order. */
  function DisableFirst(s: seq<ServoState>, n: nat): (r: seq<ServoState>)
    requires n <= |s|
    ensures |r| == |s|
  {
    if n == 0 then s else SetEnabled(DisableFirst(s, n - 1), n - 1, false)
  }

  /** Disabling the first `n` records clears their flags and changes nothing else. */
  lemma {:induction false} DisableFirstEffect(s: seq<ServoState>, n: nat)
    requires n <= |s|
    ensures forall i :: 0 <= i < n ==> DisableFirst(s, n)[i] == ServoState(s[i].angle, false)
    ensures forall i :: n <= i < |s| ==> DisableFirst(s, n)[i] == s[i]
  {
    if n > 0 {
      DisableFirstEffect(s, n - 1);
    }
  }

  /**
   * On the six records of the controller, `disableAll` leaves the claw (the
   * sixth record) enabled if it was, and keeps every angle.
   */
  lemma DisableAllSparesClaw(s: seq<ServoState>)
    requires |s| == 6
    ensures DisableFirst(s, DisabledByAll)[5] == s[5]
    ensures forall i :: 0 <= i < 5 ==> !DisableFirst(s, DisabledByAll)[i].enabled
    ensures forall i :: 0 <= i < 6 ==> DisableFirst(s, DisabledByAll)[i].angle == s[i].angle
  {
    DisableFirstEffect(s, DisabledByAll);
  }

  /** `enable`: sets record `index`'s flag; a NULL array is left alone. */
  method Enable(state: array?<ServoState>, index: int)
    requires state != null ==> 0 <= index < state.Length
    modifies state
    ensures state != null ==> state[..] == SetEnabled(old(state[..]), index, true)
  {
    if state == null {
      return;
    }
    state[index] := state[index].(enabled := true);
  }

  /** `disable`: clears record `index`'s flag; a NULL array is left alone. */
  method Disable(state: array?<ServoState>, index: int)
    requires state != null ==> 0 <= index < state.Length
    modifies state
    ensures state != null ==> state[..] == SetEnabled(old(state[..]), index, false)
  {
    if state == null {
      return;
    }
    state[index] := state[index].(enabled := false);
  }

  /**
   * `disableAll`: a NULL array gives -EINVAL; otherwise the first five flags
   * are cleared and the result is what sending the records to the driver
   * returns, `sendResult`.
   */
  method DisableAll(state: array?<ServoState>, sendResult: int) returns (ret: int)
    requires state != null ==> state.Length >= DisabledByAll
    modifies state
    ensures state == null ==> ret == -EINVAL
    ensures state != null ==> ret == sendResult && state[..] == DisableFirst(old(state[..]), DisabledByAll)
  {
    if state == null {
      return -EINVAL;
    }
    var i := 0;
    while i < DisabledByAll
      invariant 0 <= i <= DisabledByAll
      invariant state[..] == DisableFirst(old(state[..]), i)
    {
      state[i] := state[i].(enabled := false);
      i := i + 1;
    }
    ret := sendResult;
  }

  // ---------------------------------------------------------------------
  // The key loop.

  /** What the key loop tracks: the base servo's angle and whether the program keeps running. */
  datatype Control = Control(angle: int, running: bool)

  /** The effect of one byte. */
  function ApplyKey(c: Control, b: Byte): Control {
    if b == KeyInterrupt || b == KeyEscape then c.(running := false)
    else if b == KeyUp then c.(angle := c.angle + 1)
    else if b == KeyDown then c.(angle := c.angle - 1)
    else c
  }

  /** The effect of the bytes `keys`, first to last. */
  function ApplyKeys(c: Control, keys: seq<Byte>): Control {
    if keys == [] then c else ApplyKey(ApplyKeys(c, keys[..|keys| - 1]), keys[|keys| - 1])
  }

  /** Whether `keys` holds a stop byte. */
  predicate HasStop(keys: seq<Byte>) {
    KeyInterrupt in keys || KeyEscape in keys
  }

  /**
   * The bytes of a buffer move the base by one degree up per `q` and one
   * down per `a`, whatever their order and wherever a stop byte falls; the
   * program keeps running exactly when it was and no stop byte came.
   */
  lemma {:induction false} ApplyKeysEffect(c: Control, keys: seq<Byte>)
    ensures ApplyKeys(c, keys).angle == c.angle + multiset(keys)[KeyUp] - multiset(keys)[KeyDown]
    ensures ApplyKeys(c, keys).running <==> c.running && !HasStop(keys)
  {
    if keys != [] {
      var init, last := keys[..|keys| - 1], keys[|keys| - 1];
      assert keys == init + [last];
      ApplyKeysEffect(c, init);
    }
  }

  /**
   * A stop byte does not end the buffer: the bytes after it still move the
   * base exactly as they would without it.
   */
  lemma StopStillProcessesRest(c: Control, before: seq<Byte>, stop: Byte, after: seq<Byte>)
    requires stop == KeyInterrupt || stop == KeyEscape
    ensures ApplyKeys(c, before + [stop] + after) == Control(ApplyKeys(c, before + after).angle, false)
  {
    var keys := before + [stop] + after;
    assert multiset(keys) == multiset(before + after) + multiset{stop};
    assert stop in keys;
    ApplyKeysEffect(c, keys);
    ApplyKeysEffect(c, before + after);
  }

  /**
   * The body of the key loop for one read: `nread` is what `read` returned
   * (negative on error) and `inbuf` the buffer it filled. Only the base
   * servo's angle changes.
   */
  method HandleInput(state: array<ServoState>, inbuf: array<Byte>, nread: int, running: bool) returns (stillRunning: bool)
    requires state.Length == 6 && nread <= inbuf.Length
    modifies state
    ensures var c := ApplyKeys(Control(old(state[0].angle), running), if nread > 0 then inbuf[..nread] else []);
      state[0] == old(state[0]).(angle := c.angle) && stillRunning == c.running
    ensures forall j :: 1 <= j < state.Length ==> state[j] == old(state[j])
  {
    stillRunning := running;
    if nread > 0 {
      var i := 0;
      while i < nread
        invariant 0 <= i <= nread
        invariant Control(state[0].angle, stillRunning) == ApplyKeys(Control(old(state[0].angle), running), inbuf[..i])
        invariant state[0].enabled == old(state[0].enabled)
        invariant forall j :: 1 <= j < state.Length ==> state[j] == old(state[j])
      {
        assert inbuf[..i + 1][..i] == inbuf[..i];
        var b := inbuf[i];
        if b == KeyInterrupt || b == KeyEscape {
          stillRunning := false;
        } else if b == KeyUp {
          state[0] := state[0].(angle := state[0].angle + 1);
        } else if b == KeyDown {
          state[0] := state[0].(angle := state[0].angle - 1);
        }
        i := i + 1;
      }
      assert inbuf[..nread] == inbuf[..i];
    }
  }
}
