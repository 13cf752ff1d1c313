/**
 * The camera's accumulated pitch (xRotation) and yaw offset (yRotation): each look
 * delta is added and the result clamped to the configured bounds
 * (WheelChair_Test.HandleCameraLook).
 */
module CameraLook {

  /** minVertical and maxVertical bound the pitch; the yaw offset stays within maxHorizontal either way. */
  datatype LookBounds = LookBounds(minVertical: real, maxVertical: real, maxHorizontal: real)

  /** The values the component ships with. */
  const DefaultBounds := LookBounds(-30.0, 30.0, 60.0)

  /** Pitch and yaw offset of the camera, in degrees. */
  datatype Rotation = Rotation(x: real, y: real)

  predicate Ordered(b: LookBounds)
  {
    b.minVertical <= b.maxVertical && 0.0 <= b.maxHorizontal
  }

  predicate InBounds(b: LookBounds, r: Rotation)
  {
    b.minVertical <= r.x <= b.maxVertical && -b.maxHorizontal <= r.y <= b.maxHorizontal
  }

  function Min(a: real, b: real): real { if a <= b then a else b }

  function Max(a: real, b: real): real { if a <= b then b else a }

  /**
   * Mathf.Clamp: the lower bound is tested first, so with bounds given in the wrong
   * order a value below `lo` becomes `lo`, one above `hi` becomes `hi`.
   */
  function Clamp(v: real, lo: real, hi: real): (r: real)
    ensures r == v || r == lo || r == hi
    ensures lo <= hi ==> lo <= r <= hi
    ensures lo <= v <= hi ==> r == v
    ensures lo <= hi ==> r == Max(lo, Min(v, hi))
  {
    if v < lo then lo else if v > hi then hi else v
  }

  /**
   * One look update: the vertical delta lowers the pitch, the horizontal delta
   * raises the yaw offset, and each is clamped to its bounds.
   */
  function Look(b: LookBounds, rot: Rotation, dx: real, dy: real): (r: Rotation)
    ensures Ordered(b) ==> InBounds(b, r)
    ensures b.minVertical <= rot.x - dy <= b.maxVertical ==> r.x == rot.x - dy
    ensures -b.maxHorizontal <= rot.y + dx <= b.maxHorizontal ==> r.y == rot.y + dx
  {
    Rotation(Clamp(rot.x - dy, b.minVertical, b.maxVertical), Clamp(rot.y + dx, -b.maxHorizontal, b.maxHorizontal))
  }

  /**
   * Clamping never reverses a movement: from inside the bounds, a non-negative
   * vertical delta never raises the pitch, a non-negative horizontal delta never
   * lowers the yaw offset, and each moves by no more than its delta.
   */
  lemma LookFollowsDelta(b: LookBounds, rot: Rotation, dx: real, dy: real)
    requires InBounds(b, rot)
    ensures var r := Look(b, rot, dx, dy);
            (dy >= 0.0 ==> rot.x - dy <= r.x <= rot.x) && (dy <= 0.0 ==> rot.x <= r.x <= rot.x - dy)
    ensures var r := Look(b, rot, dx, dy);
            (dx >= 0.0 ==> rot.y <= r.y <= rot.y + dx) && (dx <= 0.0 ==> rot.y + dx <= r.y <= rot.y)
  {
  }

  /** Applying a series of look deltas from inside ordered bounds. */
  function LookRun(b: LookBounds, rot: Rotation, deltas: seq<(real, real)>): (r: Rotation)
    ensures Ordered(b) && InBounds(b, rot) ==> InBounds(b, r)
    decreases |deltas|
  {
    if deltas == [] then rot else LookRun(b, Look(b, rot, deltas[0].0, deltas[0].1), deltas[1..])
  }

  /**
   * A series of deltas that never pushes past a bound accumulates exactly: the
   * pitch ends lowered by the sum of the vertical deltas and the yaw offset
   * raised by the sum of the horizontal ones.
   */
  lemma {:induction false} UnclampedRunAccumulates(b: LookBounds, rot: Rotation, deltas: seq<(real, real)>)
    requires forall k :: 0 <= k <= |deltas| ==> InBounds(b, Rotation(rot.x - SumY(deltas[..k]), rot.y + SumX(deltas[..k])))
    ensures LookRun(b, rot, deltas) == Rotation(rot.x - SumY(deltas), rot.y + SumX(deltas))
    decreases |deltas|
  {
    if deltas != [] {
      var d := deltas[0];
      var next := Rotation(rot.x - d.1, rot.y + d.0);
      assert deltas[..1] == [d];
      assert SumY([d]) == d.1 && SumX([d]) == d.0;
      assert InBounds(b, Rotation(rot.x - SumY(deltas[..1]), rot.y + SumX(deltas[..1])));
      assert Look(b, rot, d.0, d.1) == next;
      forall k | 0 <= k <= |deltas[1..]|
        ensures InBounds(b, Rotation(next.x - SumY(deltas[1..][..k]), next.y + SumX(deltas[1..][..k])))
      {
        assert deltas[..k + 1] == [d] + deltas[1..][..k];
        assert deltas[1..][..k] == deltas[..k + 1][1..];
      }
      UnclampedRunAccumulates(b, next, deltas[1..]);
      assert deltas[..|deltas|] == deltas;
    }
  }

  function SumX(deltas: seq<(real, real)>): real
  {
    if deltas == [] then 0.0 else deltas[0].0 + SumX(deltas[1..])
  }

  function SumY(deltas: seq<(real, real)>): real
  {
    if deltas == [] then 0.0 else deltas[0].1 + SumY(deltas[1..])
  }
}
