/**
 * Classification of what the camera's ray hits, and the rules the scan applies to
 * it: the interaction prompt, the fire-once gaze tracker and the pickup gate
 * (WheelChair_Test.CameraDetection).
 */
module Interaction {
  import opened Basics
  import opened Physics

  /** Identity of a scene object (a GameObject). */
  type ObjId = int

  /** A scene object carries exactly one tag; only two of them matter here. */
  datatype Tag = LookAtTag | PickUpTag | OtherTag

  /**
   * What the ray cast reports about the object it hit: its identity, whether it
   * has an Interactable and a LookAT component, its tag, and its Rigidbody (null
   * when it has none).
   */
  datatype Hit = Hit(obj: ObjId, interactable: bool, lookAt: bool, tag: Tag, body: Body?)

  const InteractPrompt := "Interact\n   (E)"

  /** The prompt shown after a scan: the interaction prompt on an interactable hit, empty otherwise (a miss too). */
  function PromptFor(hit: Option<Hit>): (text: string)
    ensures text != "" <==> hit.Some? && hit.value.interactable
    ensures text != "" ==> text == InteractPrompt
  {
    if hit.Some? && hit.value.interactable then InteractPrompt else ""
  }

  predicate IsGazeTarget(h: Hit)
  {
    h.lookAt && h.tag == LookAtTag
  }

  /**
   * The object the gaze tracker holds after a scan: the hit object when it is a
   * gaze target, nothing after any other hit or a miss.
   */
  function GazeTarget(hit: Option<Hit>): (t: Option<ObjId>)
    ensures t.Some? <==> hit.Some? && IsGazeTarget(hit.value)
    ensures t.Some? ==> t.value == hit.value.obj
  {
    if hit.Some? && IsGazeTarget(hit.value) then Some(hit.value.obj) else None
  }

  /** Whether a scan notifies its hit object that it was looked at, given the remembered object. */
  function GazeFires(last: Option<ObjId>, hit: Option<Hit>): (fires: bool)
    ensures fires <==> hit.Some? && IsGazeTarget(hit.value) && last != Some(hit.value.obj)
  {
    GazeTarget(hit).Some? && GazeTarget(hit) != last
  }

  /** The notifications of a series of consecutive scans, one flag per scan. */
  function GazeRun(last: Option<ObjId>, hits: seq<Option<Hit>>): (fired: seq<bool>)
    ensures |fired| == |hits|
    decreases |hits|
  {
    if hits == [] then [] else [GazeFires(last, hits[0])] + GazeRun(GazeTarget(hits[0]), hits[1..])
  }

  /**
   * Scan i starts a gaze streak: it hits a gaze target that the previous scan
   * (or, for the first, the remembered object) did not.
   */
  predicate StreakStart(last: Option<ObjId>, hits: seq<Option<Hit>>, i: int)
    requires 0 <= i < |hits|
  {
    GazeTarget(hits[i]).Some? && GazeTarget(hits[i]) != (if i == 0 then last else GazeTarget(hits[i - 1]))
  }

  /** The tracker notifies exactly at the scans that start a gaze streak. */
  lemma {:induction false} GazeFiresAtStreakStarts(last: Option<ObjId>, hits: seq<Option<Hit>>)
    ensures forall i :: 0 <= i < |hits| ==> GazeRun(last, hits)[i] == StreakStart(last, hits, i)
    decreases |hits|
  {
    if hits != [] {
      var rest := hits[1..];
      GazeFiresAtStreakStarts(GazeTarget(hits[0]), rest);
      forall i | 0 <= i < |hits|
        ensures GazeRun(last, hits)[i] == StreakStart(last, hits, i)
      {
        if i > 0 {
          assert GazeRun(last, hits)[i] == GazeRun(GazeTarget(hits[0]), rest)[i - 1];
          assert StreakStart(GazeTarget(hits[0]), rest, i - 1) == StreakStart(last, hits, i);
        }
      }
    }
  }

  /** Looking steadily at one gaze target notifies it once, on the first scan only. */
  lemma SteadyGazeFiresOnce(last: Option<ObjId>, h: Hit, n: nat)
    requires IsGazeTarget(h) && last != Some(h.obj)
    ensures var fired := GazeRun(last, seq(n, _ => Some(h)));
            forall i :: 0 <= i < n ==> (fired[i] <==> i == 0)
  {
    var hits := seq(n, _ => Some(h));
    GazeFiresAtStreakStarts(last, hits);
    forall i | 0 <= i < n
      ensures StreakStart(last, hits, i) <==> i == 0
    {
      assert hits[i] == Some(h);
      if i > 0 { assert hits[i - 1] == Some(h); }
    }
  }

  /** Looking away (a miss, or any hit that is not the same gaze target) and back notifies again. */
  lemma GazeRefiresAfterLookingAway(last: Option<ObjId>, h: Hit, away: Option<Hit>)
    requires IsGazeTarget(h) && last != Some(h.obj)
    requires GazeTarget(away) != Some(h.obj)
    ensures var fired := GazeRun(last, [Some(h), away, Some(h)]);
            fired[0] && fired[2]
  {
    var hits := [Some(h), away, Some(h)];
    GazeFiresAtStreakStarts(last, hits);
    assert StreakStart(last, hits, 0) && StreakStart(last, hits, 2);
  }

  /** The pickup gate: pickup pressed, nothing held, a Pick-Up tagged hit that has a rigid body. */
  predicate PickupAllowed(pickupPressed: bool, isHolding: bool, h: Hit)
  {
    pickupPressed && !isHolding && h.tag == PickUpTag && h.body != null
  }

  /** Whether a scan calls Interact() on its hit object. */
  predicate Interacts(interactPressed: bool, h: Hit)
  {
    h.interactable && interactPressed
  }
}
