/**
 * The Kitronik buggy driver, seen from the controller: a trace of the calls made to it, oldest
 * first, with the time.sleep pauses between them.  What a motor or an LED is doing at any moment
 * is what the last call addressed to it said.
 */
module Buggy {
  import opened Wrappers

  /** The two drive motors; the driver names them "l" and "r". */
  datatype Side = Left | Right

  /** The LED colours the controller sends. */
  datatype Colour = Red | Yellow | Green | Blue | Purple

  /** One driver call (or a pause taken with time.sleep). */
  datatype Event =
    | MotorOn(side: Side, dir: char, power: int)
    | MotorOff(side: Side)
    | SetLed(index: int, colour: Colour)
    | ClearLed(index: int)
    | Show
    | SetBrightness(level: int)
    | Silence
    | BeepHorn
    | SetUnits(units: string)
    | GetDistance(sensor: char, reading: int)
    | Sleep(seconds: real)

  /** The pieces of hardware whose state a call changes. */
  datatype Device = Motor(side: Side) | Led(index: int)

  /** The device an event is addressed to, if any. */
  function Target(e: Event): Option<Device> {
    match e
    case MotorOn(side, _, _) => Some(Motor(side))
    case MotorOff(side) => Some(Motor(side))
    case SetLed(index, _) => Some(Led(index))
    case ClearLed(index) => Some(Led(index))
    case _ => None
  }

  /** The last call in the trace addressed to the device: what that device was last told to do. */
  function LastFor(trace: seq<Event>, device: Device): (last: Option<Event>)
    ensures last.Some? ==> Target(last.value) == Some(device) && last.value in trace
    decreases |trace|
  {
    if trace == [] then None
    else if Target(trace[|trace| - 1]) == Some(device) then Some(trace[|trace| - 1])
    else
      var earlier := LastFor(trace[..|trace| - 1], device);
      assert earlier.Some? ==> earlier.value in trace by {
        if earlier.Some? {
          assert earlier.value in trace[..|trace| - 1];
        }
      }
      earlier
  }

  /** No event of b is addressed to the device. */
  predicate Untouched(b: seq<Event>, device: Device) {
    forall k :: 0 <= k < |b| ==> Target(b[k]) != Some(device)
  }

  /** Only motor calls and pauses: the shape of every motion primitive. */
  predicate MotionOnly(b: seq<Event>) {
    forall k :: 0 <= k < |b| ==> b[k].MotorOn? || b[k].MotorOff? || b[k].Sleep?
  }

  lemma MotionLeavesLeds(b: seq<Event>, index: int)
    requires MotionOnly(b)
    ensures Untouched(b, Led(index))
  {
  }

  lemma {:induction false} LastForPush(a: seq<Event>, e: Event, device: Device)
    ensures LastFor(a + [e], device) == if Target(e) == Some(device) then Some(e) else LastFor(a, device)
  {
    assert (a + [e])[..|a|] == a;
  }

  /** Regrouping calls made one after another. */
  lemma Regroup(a: seq<Event>, b: seq<Event>, c: seq<Event>)
    ensures a + (b + c) == (a + b) + c
  {
  }

  /** A later call to a device overrides every earlier one. */
  lemma {:induction false} LastForAppend(a: seq<Event>, b: seq<Event>, device: Device)
    ensures LastFor(a + b, device) == if LastFor(b, device).Some? then LastFor(b, device) else LastFor(a, device)
    decreases |b|
  {
    if b == [] {
      assert a + b == a;
    } else {
      var front, e := b[..|b| - 1], b[|b| - 1];
      assert b == front + [e];
      assert a + b == (a + front) + [e];
      LastForPush(a + front, e, device);
      LastForPush(front, e, device);
      LastForAppend(a, front, device);
    }
  }

  /** A device that nothing in the trace addressed has no last call, and conversely. */
  lemma {:induction false} UntouchedHasNoLast(b: seq<Event>, device: Device)
    ensures Untouched(b, device) <==> LastFor(b, device) == None
    decreases |b|
  {
    if b != [] {
      var front, e := b[..|b| - 1], b[|b| - 1];
      UntouchedHasNoLast(front, device);
      if Untouched(b, device) {
        assert Untouched(front, device) by {
          forall k | 0 <= k < |front| ensures Target(front[k]) != Some(device) {
            assert front[k] == b[k];
          }
        }
      }
      if LastFor(b, device) == None {
        forall k | 0 <= k < |b| ensures Target(b[k]) != Some(device) {
          if k < |front| { assert b[k] == front[k]; }
        }
      }
    }
  }

  /** Calls that do not address a device leave what it was last told unchanged. */
  lemma UntouchedKeeps(a: seq<Event>, b: seq<Event>, device: Device)
    requires Untouched(b, device)
    ensures LastFor(a + b, device) == LastFor(a, device)
  {
    UntouchedHasNoLast(b, device);
    LastForAppend(a, b, device);
  }
}
