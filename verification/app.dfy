/**
 * The per-frame logic of app.py's Application: how a tracked Leap Motion
 * hand is mapped onto one of the two scene hands, how its finger tips are
 * mapped into scene coordinates for a head- or desk-mounted tracker, and in
 * which order positions are written and callbacks run in one frame.
 *
 * Devices are replaced by their readings: the tracker frame is a value, the
 * head tracker is a flag saying whether it can deliver a frame. Writes and
 * callback runs are recorded as a trace of events.
 */
module App {
  import opened Utils

  /** `LEAP_MULTIPLIER`. */
  const LeapMultiplier: real := 0.1

  /** The two scene hands, `hands.left` and `hands.right`. */
  datatype Side = LeftHand | RightHand

  /** Where the tracker is mounted. */
  datatype Mounting = OnHead | OnDesk

  /** The five Leap finger types. */
  datatype FingerType = Thumb | Index | Middle | Ring | Pinky

  /** What the tracker reports. */
  datatype LeapFinger = LeapFinger(kind: FingerType, tip: Vec3)
  datatype LeapHand = LeapHand(id: nat, isRight: bool, fingers: seq<LeapFinger>)
  datatype LeapFrame = LeapFrame(valid: bool, hands: seq<LeapHand>)

  /** `_positioner_on_head`: the tracker looks forward from the head. */
  function PositionerOnHead(p: Vec3): Vec3 {
    Vec3(p.x * -LeapMultiplier, p.y * LeapMultiplier - 10.0, p.z * -LeapMultiplier + 10.0)
  }

  /** `_positioner_on_desk`: the tracker looks up from the desk. */
  function PositionerOnDesk(p: Vec3): Vec3 {
    Vec3(p.x * LeapMultiplier, p.z * -LeapMultiplier, p.y * LeapMultiplier - 10.0)
  }

  /** The tracker position a head-mounted scene position came from. */
  function HeadSource(q: Vec3): Vec3 {
    Vec3(q.x / -LeapMultiplier, (q.y + 10.0) / LeapMultiplier, (q.z - 10.0) / -LeapMultiplier)
  }

  /** The tracker position a desk-mounted scene position came from. */
  function DeskSource(q: Vec3): Vec3 {
    Vec3(q.x / LeapMultiplier, (q.z + 10.0) / LeapMultiplier, q.y / -LeapMultiplier)
  }

  /** Both positioners are one-to-one and onto: each has an inverse on both sides. */
  lemma PositionersInvertible(p: Vec3, q: Vec3)
    ensures HeadSource(PositionerOnHead(p)) == p && PositionerOnHead(HeadSource(q)) == q
    ensures DeskSource(PositionerOnDesk(p)) == p && PositionerOnDesk(DeskSource(q)) == q
  {
  }

  /** Both positioners shrink every distance by the multiplier (a scaled rigid motion). */
  lemma PositionersScaleDistances(a: Vec3, b: Vec3)
    ensures SquaredLength(FromLine(PositionerOnHead(a).x, PositionerOnHead(a).y, PositionerOnHead(a).z,
                                   PositionerOnHead(b).x, PositionerOnHead(b).y, PositionerOnHead(b).z))
            == Sq(LeapMultiplier) * SquaredLength(FromLine(a.x, a.y, a.z, b.x, b.y, b.z))
    ensures SquaredLength(FromLine(PositionerOnDesk(a).x, PositionerOnDesk(a).y, PositionerOnDesk(a).z,
                                   PositionerOnDesk(b).x, PositionerOnDesk(b).y, PositionerOnDesk(b).z))
            == Sq(LeapMultiplier) * SquaredLength(FromLine(a.x, a.y, a.z, b.x, b.y, b.z))
  {
    ScaledDifference(a.x, b.x, -LeapMultiplier, 0.0);
    ScaledDifference(a.y, b.y, LeapMultiplier, -10.0);
    ScaledDifference(a.z, b.z, -LeapMultiplier, 10.0);
    ScaledDifference(a.x, b.x, LeapMultiplier, 0.0);
    ScaledDifference(a.z, b.z, -LeapMultiplier, 0.0);
    ScaledDifference(a.y, b.y, LeapMultiplier, -10.0);
  }

  lemma ScaledDifference(u: real, v: real, c: real, shift: real)
    ensures Sq((v * c + shift) - (u * c + shift)) == Sq(c) * Sq(v - u)
  {
    assert (v * c + shift) - (u * c + shift) == c * (v - u);
    assert (c * (v - u)) * (c * (v - u)) == (c * c) * ((v - u) * (v - u));
  }

  /** `_select_right_hand_on_head(is_left)`: true selects the left hand. */
  function SelectOnHead(isLeft: bool): Side {
    if isLeft then LeftHand else RightHand
  }

  /** `_select_right_hand_on_desk(is_right)`: true selects the right hand. */
  function SelectOnDesk(isRight: bool): Side {
    if isRight then RightHand else LeftHand
  }

  /**
   * Both selectors are called with the tracked hand's `is_right`: on the
   * desk a right hand drives the right scene hand, on the head it drives the
   * left one, and the two mountings never pick the same scene hand.
   */
  lemma SelectorsMirror(isRight: bool)
    ensures SelectOnDesk(isRight) == RightHand <==> isRight
    ensures SelectOnHead(isRight) == LeftHand <==> isRight
    ensures SelectOnHead(isRight) != SelectOnDesk(isRight)
  {
  }

  /** The positioner and the selector chosen in `__init__`. */
  datatype Mode = Mode(positioner: Mounting, selector: Mounting)

  /** `__init__`: a truthy `mounted_on_desk` chooses both desk functions, otherwise both head ones. */
  function ChooseMode(mountedOnDesk: bool): (m: Mode)
    ensures m.positioner == m.selector
    ensures m.positioner == OnDesk <==> mountedOnDesk
  {
    if mountedOnDesk then Mode(OnDesk, OnDesk) else Mode(OnHead, OnHead)
  }

  function Position(mounting: Mounting, p: Vec3): Vec3 {
    match mounting
    case OnHead => PositionerOnHead(p)
    case OnDesk => PositionerOnDesk(p)
  }

  function Select(mounting: Mounting, isRight: bool): Side {
    match mounting
    case OnHead => SelectOnHead(isRight)
    case OnDesk => SelectOnDesk(isRight)
  }

  /** What one frame does, in order. */
  datatype Event =
    | StatesSet(side: Side, hand: nat)                          // hand.set_states(hand=..., leap_hand=...)
    | FingerPlaced(side: Side, kind: FingerType, position: Vec3) // finger.position = positioner(tip)
    | HandCallbacksRun(side: Side)                               // hand.execute_all_callbacks()
    | HandsCallbacksRun                                          // self._hands.execute_all_callbacks()

  /** How `__call__` ended. */
  datatype FrameOutcome = TrackingError | InvalidFrame | Completed

  /** The finger writes for the first fingers of a hand. */
  function FingerEvents(mode: Mode, side: Side, fingers: seq<LeapFinger>): (r: seq<Event>)
    ensures |r| == |fingers|
    ensures forall k :: 0 <= k < |fingers| ==>
              r[k] == FingerPlaced(side, fingers[k].kind, Position(mode.positioner, fingers[k].tip))
  {
    seq(|fingers|, k requires 0 <= k < |fingers| =>
      FingerPlaced(side, fingers[k].kind, Position(mode.positioner, fingers[k].tip)))
  }

  /** One tracked hand: select, set states, place every finger, run the hand's callbacks. */
  function HandEvents(mode: Mode, h: LeapHand): seq<Event> {
    var side := Select(mode.selector, h.isRight);
    [StatesSet(side, h.id)] + FingerEvents(mode, side, h.fingers) + [HandCallbacksRun(side)]
  }

  /** The tracked hands one after the other. */
  function HandsEvents(mode: Mode, hands: seq<LeapHand>): seq<Event> {
    if hands == [] then [] else HandsEvents(mode, hands[..|hands| - 1]) + HandEvents(mode, hands[|hands| - 1])
  }

  /** The events of a valid frame. */
  function FrameEvents(mode: Mode, hands: seq<LeapHand>): seq<Event> {
    HandsEvents(mode, hands) + [HandsCallbacksRun]
  }

  /**
   * Within one hand the states are set first, then every finger is placed in
   * the tracker's order, and the hand's callbacks run last, on the hand the
   * selector chose.
   */
  lemma HandEventsOrder(mode: Mode, h: LeapHand)
    ensures var ev := HandEvents(mode, h);
            var side := Select(mode.selector, h.isRight);
            |ev| == |h.fingers| + 2 &&
            ev[0] == StatesSet(side, h.id) &&
            (forall k :: 0 <= k < |h.fingers| ==>
               ev[k + 1] == FingerPlaced(side, h.fingers[k].kind, Position(mode.positioner, h.fingers[k].tip))) &&
            ev[|ev| - 1] == HandCallbacksRun(side)
  {
    var side := Select(mode.selector, h.isRight);
    var fe := FingerEvents(mode, side, h.fingers);
    var ev := HandEvents(mode, h);
    assert ev == [StatesSet(side, h.id)] + fe + [HandCallbacksRun(side)];
    forall k | 0 <= k < |h.fingers|
      ensures ev[k + 1] == fe[k]
    {
    }
  }

  /** The hands' events are the blocks of the single hands, in the tracker's order. */
  lemma {:induction false} HandsEventsSplit(mode: Mode, hands: seq<LeapHand>, i: nat)
    requires i < |hands|
    ensures HandsEvents(mode, hands) ==
            HandsEvents(mode, hands[..i]) + HandEvents(mode, hands[i]) + HandsEvents(mode, hands[i + 1..])
    decreases |hands|
  {
    if i == |hands| - 1 {
      assert hands[i + 1..] == [];
    } else {
      var init := hands[..|hands| - 1];
      HandsEventsSplit(mode, init, i);
      assert init[..i] == hands[..i];
      assert init[i] == hands[i];
      var tail := hands[i + 1..];
      assert tail[..|tail| - 1] == init[i + 1..];
      assert tail[|tail| - 1] == hands[|hands| - 1];
    }
  }

  /** No hand block contains the final `Hands` callback run. */
  lemma {:induction false} NoHandsRunBeforeEnd(mode: Mode, hands: seq<LeapHand>)
    ensures HandsCallbacksRun !in HandsEvents(mode, hands)
    decreases |hands|
  {
    if hands != [] {
      NoHandsRunBeforeEnd(mode, hands[..|hands| - 1]);
      var h := hands[|hands| - 1];
      var side := Select(mode.selector, h.isRight);
      assert HandsCallbacksRun !in FingerEvents(mode, side, h.fingers);
    }
  }

  /** In a valid frame the `Hands` callbacks run exactly once, after everything else. */
  lemma HandsCallbacksRunLast(mode: Mode, hands: seq<LeapHand>)
    ensures var ev := FrameEvents(mode, hands);
            ev[|ev| - 1] == HandsCallbacksRun &&
            forall k :: 0 <= k < |ev| - 1 ==> ev[k] != HandsCallbacksRun
  {
    NoHandsRunBeforeEnd(mode, hands);
    var ev := FrameEvents(mode, hands);
    forall k | 0 <= k < |ev| - 1
      ensures ev[k] != HandsCallbacksRun
    {
      assert ev[k] == HandsEvents(mode, hands)[k];
    }
  }

  class Application {
    const mode: Mode

    /** `Application(mounted_on_desk)`: only the mode choice is modelled. */
    constructor (mountedOnDesk: bool)
      ensures mode == ChooseMode(mountedOnDesk)
    {
      mode := ChooseMode(mountedOnDesk);
    }

    /**
     * `__call__`: the head tracker's frame is fetched first (a missing
     * device raises TrackingError), then an invalid tracker frame ends the
     * call before anything is written; otherwise every hand and finger is
     * processed and the `Hands` callbacks run at the end.
     */
    method Call(riftTracking: bool, frame: LeapFrame) returns (outcome: FrameOutcome, events: seq<Event>)
      ensures !riftTracking ==> outcome == TrackingError && events == []
      ensures riftTracking && !frame.valid ==> outcome == InvalidFrame && events == []
      ensures riftTracking && frame.valid ==> outcome == Completed && events == FrameEvents(mode, frame.hands)
    {
      if !riftTracking {
        return TrackingError, [];
      }
      if !frame.valid {
        return InvalidFrame, [];
      }
      events := [];
      var i := 0;
      while i < |frame.hands|
        invariant 0 <= i <= |frame.hands|
        invariant events == HandsEvents(mode, frame.hands[..i])
      {
        var h := frame.hands[i];
        var side := Select(mode.selector, h.isRight);
        events := events + [StatesSet(side, h.id)];
        var j := 0;
        while j < |h.fingers|
          invariant 0 <= j <= |h.fingers|
          invariant events == HandsEvents(mode, frame.hands[..i]) + [StatesSet(side, h.id)]
                              + FingerEvents(mode, side, h.fingers[..j])
        {
          var f := h.fingers[j];
          events := events + [FingerPlaced(side, f.kind, Position(mode.positioner, f.tip))];
          j := j + 1;
        }
        events := events + [HandCallbacksRun(side)];
        assert h.fingers[..j] == h.fingers;
        assert frame.hands[..i + 1][..i] == frame.hands[..i];
        i := i + 1;
      }
      assert frame.hands[..i] == frame.hands;
      events := events + [HandsCallbacksRun];
      outcome := Completed;
    }
  }
}
