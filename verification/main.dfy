/**
 * The Sculptomat game loop of main.py: the distance helper, the mapping of
 * tracked hands onto the two scene hands, the finger-position setters and
 * the camera placement from the head tracker.
 *
 * A scene hand is the map from finger type to the finger object's local
 * position. The head tracker's reading is an Option: None stands for the
 * TrackingError its `frame()` raises without a device.
 */
module Main {
  import opened Wrappers
  import opened Utils
  import opened App

  /** `MINIFIER`. */
  const Minifier: real := 0.1

  /** The camera scale factor (`XXX`). */
  const CameraScale: real := 50.0

  /** The square of `distance(position1, position2)`; `sqrt` is not modelled. */
  function SquaredDistance(p1: Vec3, p2: Vec3): real {
    Sq(p2.x - p1.x) + Sq(p2.y - p1.y) + Sq(p2.z - p1.z)
  }

  /** The squared distance is the squared length of the vector from one point to the other. */
  lemma DistanceIsLengthOfLine(p: Vec3, q: Vec3)
    ensures SquaredDistance(p, q) == SquaredLength(FromLine(p.x, p.y, p.z, q.x, q.y, q.z))
  {
  }

  /** The distance is symmetric. */
  lemma DistanceSymmetric(p: Vec3, q: Vec3)
    ensures SquaredDistance(p, q) == SquaredDistance(q, p)
  {
    SquareOfNegation(q.x - p.x);
    SquareOfNegation(q.y - p.y);
    SquareOfNegation(q.z - p.z);
  }

  /** The distance is zero exactly between equal points. */
  lemma DistanceZeroIffEqual(p: Vec3, q: Vec3)
    ensures SquaredDistance(p, q) == 0.0 <==> p == q
  {
    var v := FromLine(p.x, p.y, p.z, q.x, q.y, q.z);
    DistanceIsLengthOfLine(p, q);
    SquaredLengthZero(v);
    assert v == Zero <==> p == q;
  }

  lemma SquareOfNegation(u: real)
    ensures Sq(-u) == Sq(u)
  {
    assert (-u) * (-u) == u * u;
  }

  /** `_set_position_on_head`: the value written to `hand[type]`. */
  function SetOnHead(p: Vec3): Vec3 {
    Vec3(p.x * -Minifier, p.y * Minifier - 10.0, p.z * -Minifier + 10.0)
  }

  /** `_set_position_on_desk`: the value written to `hand[type]`. */
  function SetOnDesk(p: Vec3): Vec3 {
    Vec3(p.x * Minifier, p.z * -Minifier, p.y * Minifier - 10.0)
  }

  /** The setters place fingers exactly where Application's positioners do. */
  lemma SettersAgreeWithPositioners(p: Vec3)
    ensures SetOnHead(p) == PositionerOnHead(p)
    ensures SetOnDesk(p) == PositionerOnDesk(p)
  {
  }

  /** The setter chosen in `__init__`. */
  function SetPosition(mountedOnDesk: bool, p: Vec3): Vec3 {
    if mountedOnDesk then SetOnDesk(p) else SetOnHead(p)
  }

  /**
   * `self._hands[is_right]`: on the desk the tracker's left hand drives the
   * right scene hand and the other way round; on the head each drives its
   * own side.
   */
  function HandFor(mountedOnDesk: bool, isRight: bool): Side {
    if mountedOnDesk then (if isRight then LeftHand else RightHand)
    else (if isRight then RightHand else LeftHand)
  }

  /** The two mountings route every tracked hand to opposite scene hands; each routing is one-to-one. */
  lemma HandRoutingSwaps(isRight: bool)
    ensures HandFor(true, isRight) != HandFor(false, isRight)
    ensures HandFor(false, isRight) == RightHand <==> isRight
    ensures HandFor(true, isRight) == LeftHand <==> isRight
    ensures HandFor(true, isRight) != HandFor(true, !isRight)
    ensures HandFor(false, isRight) != HandFor(false, !isRight)
  {
  }

  /** The camera's local position for a head-tracker position. */
  function CameraPosition(rift: Vec3): Vec3 {
    Vec3(0.0 + rift.x * CameraScale, -25.0 - rift.z * CameraScale, 15.0 + rift.y * CameraScale)
  }

  /** The head-tracker position a camera position came from. */
  function CameraSource(c: Vec3): Vec3 {
    Vec3(c.x / CameraScale, (c.z - 15.0) / CameraScale, (-25.0 - c.y) / CameraScale)
  }

  /** The camera placement is one-to-one and onto. */
  lemma CameraInvertible(rift: Vec3, c: Vec3)
    ensures CameraSource(CameraPosition(rift)) == rift
    ensures CameraPosition(CameraSource(c)) == c
  {
  }

  /** One finger write of a frame: which scene hand, which finger, which value. */
  datatype Placement = Placement(side: Side, kind: FingerType, position: Vec3)

  function FingerPlacements(mountedOnDesk: bool, h: LeapHand): (r: seq<Placement>)
    ensures |r| == |h.fingers|
    ensures forall k :: 0 <= k < |r| ==>
      r[k] == Placement(HandFor(mountedOnDesk, h.isRight), h.fingers[k].kind,
                        SetPosition(mountedOnDesk, h.fingers[k].tip))
  {
    seq(|h.fingers|, k requires 0 <= k < |h.fingers| =>
      Placement(HandFor(mountedOnDesk, h.isRight), h.fingers[k].kind, SetPosition(mountedOnDesk, h.fingers[k].tip)))
  }

  /** The finger writes of a frame, hand by hand, finger by finger. */
  function Placements(mountedOnDesk: bool, hands: seq<LeapHand>): seq<Placement> {
    if hands == [] then []
    else Placements(mountedOnDesk, hands[..|hands| - 1]) + FingerPlacements(mountedOnDesk, hands[|hands| - 1])
  }

  /** Total number of tracked fingers. */
  function FingerCount(hands: seq<LeapHand>): nat {
    if hands == [] then 0 else FingerCount(hands[..|hands| - 1]) + |hands[|hands| - 1].fingers|
  }

  /** Each tracked finger gets exactly one write per frame. */
  lemma {:induction false} OneWritePerFinger(mountedOnDesk: bool, hands: seq<LeapHand>)
    ensures |Placements(mountedOnDesk, hands)| == FingerCount(hands)
    decreases |hands|
  {
    if hands != [] {
      OneWritePerFinger(mountedOnDesk, hands[..|hands| - 1]);
    }
  }

  /** A scene hand's finger positions after the writes for it, in order. */
  function Apply(tips: map<FingerType, Vec3>, ps: seq<Placement>, side: Side): map<FingerType, Vec3> {
    if ps == [] then tips
    else
      var before := Apply(tips, ps[..|ps| - 1], side);
      var p := ps[|ps| - 1];
      if p.side == side then before[p.kind := p.position] else before
  }

  /** One more write changes only its own hand, at its own finger. */
  lemma ApplyStep(tips: map<FingerType, Vec3>, ps: seq<Placement>, p: Placement, side: Side)
    ensures Apply(tips, ps + [p], side) ==
            if p.side == side then Apply(tips, ps, side)[p.kind := p.position] else Apply(tips, ps, side)
  {
    assert (ps + [p])[..|ps + [p]| - 1] == ps;
  }

  /** A finger no write is for keeps its position (or stays absent). */
  lemma {:induction false} ApplyUntouched(tips: map<FingerType, Vec3>, ps: seq<Placement>, side: Side, kind: FingerType)
    requires forall i :: 0 <= i < |ps| ==> ps[i].side != side || ps[i].kind != kind
    ensures kind in Apply(tips, ps, side) <==> kind in tips
    ensures kind in tips ==> Apply(tips, ps, side)[kind] == tips[kind]
    decreases |ps|
  {
    if ps != [] {
      var init := ps[..|ps| - 1];
      ApplyUntouched(tips, init, side, kind);
    }
  }

  /** A finger ends at the value of the last write for it. */
  lemma {:induction false} ApplyLastWrite(tips: map<FingerType, Vec3>, ps: seq<Placement>, side: Side, i: nat)
    requires i < |ps| && ps[i].side == side
    requires forall j :: i < j < |ps| ==> ps[j].side != side || ps[j].kind != ps[i].kind
    ensures ps[i].kind in Apply(tips, ps, side) && Apply(tips, ps, side)[ps[i].kind] == ps[i].position
    decreases |ps|
  {
    if i < |ps| - 1 {
      var init := ps[..|ps| - 1];
      assert init[i] == ps[i];
      ApplyLastWrite(tips, init, side, i);
    }
  }

  /**
   * A frame with one tracked hand whose fingers have distinct types sets
   * every one of those fingers on the scene hand it is routed to.
   */
  lemma OneHandFrameSetsFingers(mountedOnDesk: bool, h: LeapHand, tips: map<FingerType, Vec3>, k: nat)
    requires k < |h.fingers|
    requires forall i, j :: 0 <= i < j < |h.fingers| ==> h.fingers[i].kind != h.fingers[j].kind
    ensures var after := Apply(tips, Placements(mountedOnDesk, [h]), HandFor(mountedOnDesk, h.isRight));
            h.fingers[k].kind in after && after[h.fingers[k].kind] == SetPosition(mountedOnDesk, h.fingers[k].tip)
  {
    var ps := FingerPlacements(mountedOnDesk, h);
    PlacementsOfOneHand(mountedOnDesk, h);
    var side := HandFor(mountedOnDesk, h.isRight);
    forall j | k < j < |ps|
      ensures ps[j].side != side || ps[j].kind != ps[k].kind
    {
      assert ps[j].kind == h.fingers[j].kind;
    }
    ApplyLastWrite(tips, ps, side, k);
  }

  /** The same frame leaves the other scene hand's fingers where they were. */
  lemma OneHandFrameSparesOtherHand(mountedOnDesk: bool, h: LeapHand, tips: map<FingerType, Vec3>, kind: FingerType)
    ensures var after := Apply(tips, Placements(mountedOnDesk, [h]), HandFor(mountedOnDesk, !h.isRight));
            (kind in after <==> kind in tips) && (kind in tips ==> after[kind] == tips[kind])
  {
    var ps := Placements(mountedOnDesk, [h]);
    PlacementsOfOneHand(mountedOnDesk, h);
    ApplyUntouched(tips, ps, HandFor(mountedOnDesk, !h.isRight), kind);
  }

  lemma PlacementsOfOneHand(mountedOnDesk: bool, h: LeapHand)
    ensures Placements(mountedOnDesk, [h]) == FingerPlacements(mountedOnDesk, h)
  {
    assert [h][..|[h]| - 1] == [];
    assert [] + FingerPlacements(mountedOnDesk, h) == FingerPlacements(mountedOnDesk, h);
  }

  /** A scene hand object: `hand[type] = position` sets a finger's local position. */
  class SceneHand {
    var tips: map<FingerType, Vec3>

    constructor (tips: map<FingerType, Vec3>)
      ensures this.tips == tips
    {
      this.tips := tips;
    }

    /** `__setitem__`. */
    method Set(kind: FingerType, position: Vec3)
      modifies this
      ensures tips == old(tips)[kind := position]
    {
      tips := tips[kind := position];
    }
  }

  class Sculptomat {
    const mountedOnDesk: bool
    const left: SceneHand
    const right: SceneHand
    var camera: Vec3

    ghost predicate Valid()
      reads this
    {
      left != right
    }

    /** The scene hand `self._hands[is_right]`. */
    function HandObject(isRight: bool): SceneHand
      reads this
    {
      if HandFor(mountedOnDesk, isRight) == LeftHand then left else right
    }

    /** `Sculptomat(mounted_on)` with the two scene hands and the camera's starting position. */
    constructor (mountedOnDesk: bool, leftTips: map<FingerType, Vec3>, rightTips: map<FingerType, Vec3>, camera: Vec3)
      ensures Valid() && this.mountedOnDesk == mountedOnDesk && this.camera == camera
      ensures left.tips == leftTips && right.tips == rightTips && fresh(left) && fresh(right)
    {
      this.mountedOnDesk := mountedOnDesk;
      this.left := new SceneHand(leftTips);
      this.right := new SceneHand(rightTips);
      this.camera := camera;
    }

    /** `set_position(hand, type, position)`: the setter chosen in `__init__`. */
    method SetPositionOf(hand: SceneHand, kind: FingerType, position: Vec3)
      modifies hand
      ensures hand.tips == old(hand.tips)[kind := SetPosition(mountedOnDesk, position)]
    {
      if mountedOnDesk {
        hand.Set(kind, SetOnDesk(position));
      } else {
        hand.Set(kind, SetOnHead(position));
      }
    }

    /** The inner loop of `__call__`: write the fingers of one hand, in order. */
    method PlaceHand(h: LeapHand, ghost leftTips: map<FingerType, Vec3>, ghost rightTips: map<FingerType, Vec3>,
                     ghost done: seq<Placement>)
      requires Valid()
      requires left.tips == Apply(leftTips, done, LeftHand) && right.tips == Apply(rightTips, done, RightHand)
      modifies left, right
      ensures left.tips == Apply(leftTips, done + FingerPlacements(mountedOnDesk, h), LeftHand)
      ensures right.tips == Apply(rightTips, done + FingerPlacements(mountedOnDesk, h), RightHand)
    {
      var target := HandObject(h.isRight);
      var j := 0;
      assert done + FingerPlacements(mountedOnDesk, h)[..0] == done;
      while j < |h.fingers|
        invariant 0 <= j <= |h.fingers|
        invariant left.tips == Apply(leftTips, done + FingerPlacements(mountedOnDesk, h)[..j], LeftHand)
        invariant right.tips == Apply(rightTips, done + FingerPlacements(mountedOnDesk, h)[..j], RightHand)
      {
        ghost var before := done + FingerPlacements(mountedOnDesk, h)[..j];
        ghost var p := FingerPlacements(mountedOnDesk, h)[j];
        assert done + FingerPlacements(mountedOnDesk, h)[..j + 1] == before + [p];
        ApplyStep(leftTips, before, p, LeftHand);
        ApplyStep(rightTips, before, p, RightHand);
        SetPositionOf(target, h.fingers[j].kind, h.fingers[j].tip);
        j := j + 1;
      }
      assert FingerPlacements(mountedOnDesk, h)[..j] == FingerPlacements(mountedOnDesk, h);
    }

    /**
     * `__call__`: read the head tracker (None raises TrackingError before
     * anything is written), place the camera, then write every finger of
     * every tracked hand into the scene hand it is routed to.
     */
    method Call(rift: Option<Vec3>, hands: seq<LeapHand>) returns (trackingError: bool)
      requires Valid()
      modifies this, left, right
      ensures trackingError <==> rift.None?
      ensures rift.None? ==> camera == old(camera) && left.tips == old(left.tips) && right.tips == old(right.tips)
      ensures rift.Some? ==>
        camera == CameraPosition(rift.value) &&
        left.tips == Apply(old(left.tips), Placements(mountedOnDesk, hands), LeftHand) &&
        right.tips == Apply(old(right.tips), Placements(mountedOnDesk, hands), RightHand)
    {
      if rift.None? {
        return true;
      }
      camera := CameraPosition(rift.value);
      var i := 0;
      while i < |hands|
        invariant 0 <= i <= |hands|
        invariant camera == CameraPosition(rift.value)
        invariant left.tips == Apply(old(left.tips), Placements(mountedOnDesk, hands[..i]), LeftHand)
        invariant right.tips == Apply(old(right.tips), Placements(mountedOnDesk, hands[..i]), RightHand)
      {
        PlaceHand(hands[i], old(left.tips), old(right.tips), Placements(mountedOnDesk, hands[..i]));
        assert hands[..i + 1][..i] == hands[..i];
        i := i + 1;
      }
      assert hands[..i] == hands;
      trackingError := false;
    }
  }
}
