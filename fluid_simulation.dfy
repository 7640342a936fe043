/** The pointer-input component: once a frame it turns the mouse-button
    events into the two "pressed" flags the solver's sources read, and
    records where the pointer is. */
module PointerInput {
  import opened Kernels

  /** What happened to one mouse button during a frame: whether it went down
      and whether it came up (both can happen in the same frame). */
  datatype ButtonEvents = ButtonEvents(down: bool, up: bool)

  /** The flag values the component ever writes. */
  predicate Binary(flag: real)
  {
    flag == 0.0 || flag == 1.0
  }

  /** The flag after one frame, written as a decision on the events: a release
      decides, otherwise a press decides, otherwise the old value stays. */
  function NextFlag(flag: real, e: ButtonEvents): (r: real)
    ensures r == flag || Binary(r)
  {
    if e.up then 0.0 else if e.down then 1.0 else flag
  }

  /** The flag after a run of frames, oldest frame first. */
  function FlagAfter(flag: real, frames: seq<ButtonEvents>): (r: real)
    decreases |frames|
  {
    if |frames| == 0 then flag else FlagAfter(NextFlag(flag, frames[0]), frames[1..])
  }

  /** A press ends the frame with the flag set unless the button was also
      released; a release always ends it cleared; without events the flag
      keeps its value. */
  lemma NextFlagCases(flag: real, e: ButtonEvents)
    ensures NextFlag(flag, e) == 1.0 <==> (e.down && !e.up) || (!e.down && !e.up && flag == 1.0)
    ensures NextFlag(flag, e) == 0.0 <==> e.up || (!e.down && flag == 0.0)
    ensures !e.down && !e.up ==> NextFlag(flag, e) == flag
  {
  }

  /** Down and up in the same frame: the release is checked second, so it wins. */
  lemma ReleaseWinsInOneFrame(flag: real)
    ensures NextFlag(flag, ButtonEvents(true, true)) == 0.0
  {
  }

  /** Running frames one after another composes. */
  lemma {:induction false} FlagAfterAppend(flag: real, a: seq<ButtonEvents>, b: seq<ButtonEvents>)
    ensures FlagAfter(flag, a + b) == FlagAfter(FlagAfter(flag, a), b)
    decreases |a|
  {
    if |a| == 0 {
      assert a + b == b;
    } else {
      assert (a + b)[0] == a[0] && (a + b)[1..] == a[1..] + b;
      FlagAfterAppend(NextFlag(flag, a[0]), a[1..], b);
    }
  }

  /** Frames without any event for the button leave its flag as it was. */
  lemma {:induction false} QuietFramesKeepFlag(flag: real, frames: seq<ButtonEvents>)
    requires forall i :: 0 <= i < |frames| ==> !frames[i].down && !frames[i].up
    ensures FlagAfter(flag, frames) == flag
    decreases |frames|
  {
    if |frames| > 0 {
      QuietFramesKeepFlag(NextFlag(flag, frames[0]), frames[1..]);
    }
  }

  /** After any frames, the flag is decided by the last frame that had an
      event: 0 if that frame released the button, 1 if it only pressed it. */
  lemma LastEventDecides(flag: real, frames: seq<ButtonEvents>, e: ButtonEvents, quiet: seq<ButtonEvents>)
    requires e.down || e.up
    requires forall i :: 0 <= i < |quiet| ==> !quiet[i].down && !quiet[i].up
    ensures FlagAfter(flag, frames + [e] + quiet) == (if e.up then 0.0 else 1.0)
  {
    FlagAfterAppend(flag, frames + [e], quiet);
    FlagAfterAppend(flag, frames, [e]);
    assert [e][1..] == [];
    QuietFramesKeepFlag(FlagAfter(flag, frames + [e]), quiet);
  }

  /** Starting from a written value (the default 0 among them), the flag only
      ever holds 0 or 1. */
  lemma {:induction false} FlagStaysBinary(flag: real, frames: seq<ButtonEvents>)
    requires Binary(flag)
    ensures Binary(FlagAfter(flag, frames))
    decreases |frames|
  {
    if |frames| > 0 {
      FlagStaysBinary(NextFlag(flag, frames[0]), frames[1..]);
    }
  }

  /** The component's persistent state. */
  class FluidSimulation {
    var velocityPressed: real
    var densityPressed: real
    var currentMousePosition: Vec2

    predicate Valid()
      reads this
    {
      Binary(velocityPressed) && Binary(densityPressed)
    }

    /** The fields start at their defaults: both flags 0, the origin. */
    constructor ()
      ensures velocityPressed == 0.0 && densityPressed == 0.0
      ensures currentMousePosition == Vec2(0.0, 0.0)
      ensures Valid()
    {
      velocityPressed := 0.0;
      densityPressed := 0.0;
      currentMousePosition := Vec2(0.0, 0.0);
    }

    /** One frame: the left button drives the velocity flag and the right
        button the density flag, each by a press check followed by a release
        check; then the pointer position is taken unconditionally. */
    method Update(left: ButtonEvents, right: ButtonEvents, mousePosition: Vec2)
      modifies this
      ensures velocityPressed == NextFlag(old(velocityPressed), left)
      ensures densityPressed == NextFlag(old(densityPressed), right)
      ensures currentMousePosition == mousePosition
      ensures old(Valid()) ==> Valid()
    {
      if left.down {
        velocityPressed := 1.0;
      }
      if left.up {
        velocityPressed := 0.0;
      }

      if right.down {
        densityPressed := 1.0;
      }
      if right.up {
        densityPressed := 0.0;
      }

      currentMousePosition := mousePosition;
    }
  }
}
