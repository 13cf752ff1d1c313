/**
 * Scroll pushes on the wheels: which force or torque a push requests from the
 * chair's rigid body, and the push counter that paces the movement event
 * (WheelChair_Test.OnScroll, ApplyWheelPush and TryInvokeMoveEvent).
 */
module Locomotion {
  import opened Basics

  /** The drive's tunables: wheelForce, turnForce, maxSpeed, maxTurnSpeed and numberoftimesToInvoke. */
  datatype Drive = Drive(wheelForce: real, turnForce: real, maxSpeed: real, maxTurnSpeed: real, threshold: int)

  /** The values the component ships with. */
  const DefaultDrive := Drive(200.0, 5.0, 5.0, 2.0, 6)

  /** Scroll values whose magnitude is below this are ignored. */
  const ScrollDeadZone: real := 0.01

  /** A request made to the chair's rigid body. */
  datatype Request =
    | Force(amount: real)   // AddForce(forward * amount): along the body's forward axis
    | Torque(amount: real)  // AddTorque(up * amount): about the vertical axis

  /**
   * One push as the controller sees it: the wheel flags at that moment, the body's
   * speed (magnitude of the linear velocity), its yaw rate (y of the angular
   * velocity) and the scroll value.
   */
  datatype PushInput = PushInput(left: bool, right: bool, speed: real, turnRate: real, scroll: real)

  /** What one push does: the request issued (if any), whether the movement event fired, the new counter. */
  datatype PushStep = PushStep(request: Option<Request>, fired: bool, counter: int)

  predicate Accepted(scroll: real)
  {
    Abs(scroll) >= ScrollDeadZone
  }

  /** Both wheels held while the chair is already faster than maxSpeed. */
  predicate SpeedCapped(d: Drive, p: PushInput)
  {
    p.speed > d.maxSpeed && p.left && p.right
  }

  /** The pushes after which the movement event is checked: some wheel held and not speed-capped. */
  predicate ChecksEvent(d: Drive, p: PushInput)
  {
    (p.left || p.right) && !SpeedCapped(d, p)
  }

  /**
   * The force or torque one push requests. Both wheels drive forward, one wheel
   * turns the chair (left positive, right negative), and turning is suppressed
   * while the yaw rate has reached maxTurnSpeed.
   */
  function WheelRequest(d: Drive, p: PushInput): (r: Option<Request>)
    ensures r.Some? ==> ChecksEvent(d, p)
    ensures (r.Some? && r.value.Force?) <==> (p.left && p.right && p.speed <= d.maxSpeed)
    ensures (r.Some? && r.value.Torque?) <==> (p.left != p.right && Abs(p.turnRate) < d.maxTurnSpeed)
    ensures r.Some? && r.value.Force? ==> r.value.amount == p.scroll * d.wheelForce
    ensures r.Some? && r.value.Torque? ==>
              r.value.amount == (if p.left then p.scroll else -p.scroll) * d.turnForce
  {
    if SpeedCapped(d, p) then None
    else if p.left && p.right then Some(Force(p.scroll * d.wheelForce))
    else if p.left then (if Abs(p.turnRate) < d.maxTurnSpeed then Some(Torque(p.scroll * d.turnForce)) else None)
    else if p.right then (if Abs(p.turnRate) < d.maxTurnSpeed then Some(Torque(-p.scroll * d.turnForce)) else None)
    else None
  }

  function Negated(r: Option<Request>): Option<Request>
  {
    match r
    case None => None
    case Some(Force(a)) => Some(Force(-a))
    case Some(Torque(a)) => Some(Torque(-a))
  }

  /** Rolling the wheels backwards requests exactly the opposite force or torque. */
  lemma ReversedScroll(d: Drive, p: PushInput)
    ensures WheelRequest(d, p.(scroll := -p.scroll)) == Negated(WheelRequest(d, p))
  {
    var r, q := WheelRequest(d, p), WheelRequest(d, p.(scroll := -p.scroll));
    if r.Some? {
      assert q.Some? && q.value.Force? == r.value.Force?;
      var k := if r.value.Force? then d.wheelForce else d.turnForce;
      var s := if r.value.Force? || p.left then p.scroll else -p.scroll;
      assert r.value.amount == s * k && q.value.amount == -s * k;
      assert q.value.amount == -r.value.amount;
    }
  }

  /** Pushing only the right wheel turns the chair exactly opposite to pushing only the left one. */
  lemma MirroredTurn(d: Drive, p: PushInput)
    requires p.left && !p.right
    ensures WheelRequest(d, p.(left := false, right := true)) == Negated(WheelRequest(d, p))
  {
    var r, q := WheelRequest(d, p), WheelRequest(d, p.(left := false, right := true));
    if r.Some? {
      assert q.Some? && q.value.Torque? && r.value.Torque?;
      assert q.value.amount == -p.scroll * d.turnForce == -r.value.amount;
    }
  }

  /**
   * The movement-event check: it fires exactly when the counter has reached the
   * threshold, and then restarts the counter from zero.
   */
  function MoveEventCheck(counter: int, threshold: int): (r: (bool, int))
    ensures r.0 <==> counter >= threshold
    ensures r.0 ==> r.1 == 0
    ensures !r.0 ==> r.1 == counter
    ensures threshold > 0 ==> r.1 < threshold
  {
    if counter >= threshold then (true, 0) else (false, counter)
  }

  /**
   * One accepted push: the counter goes up first, whatever follows; a capped push
   * or a push with no wheel held stops there, any other push requests its force
   * or torque and then runs the movement-event check.
   */
  function Push(d: Drive, p: PushInput, counter: int): (s: PushStep)
    ensures s.request == WheelRequest(d, p)
    ensures s.fired <==> ChecksEvent(d, p) && counter + 1 >= d.threshold
    ensures s.fired ==> s.counter == 0
    ensures !s.fired ==> s.counter == counter + 1
  {
    var c := counter + 1;
    if SpeedCapped(d, p) then PushStep(None, false, c)
    else if p.left || p.right then
      var check := MoveEventCheck(c, d.threshold);
      PushStep(WheelRequest(d, p), check.0, check.1)
    else PushStep(None, false, c)
  }

  /** A scroll event: ignored entirely inside the dead zone, otherwise one push. */
  function Scroll(d: Drive, p: PushInput, counter: int): (s: PushStep)
    ensures !Accepted(p.scroll) ==> s == PushStep(None, false, counter)
    ensures Accepted(p.scroll) ==> s.request == WheelRequest(d, p)
    ensures s.fired <==> Accepted(p.scroll) && ChecksEvent(d, p) && counter + 1 >= d.threshold
    ensures Accepted(p.scroll) && !s.fired ==> s.counter == counter + 1
    ensures Accepted(p.scroll) ==> s == Push(d, p, counter)
    ensures s.fired ==> s.counter == 0
  {
    if !Accepted(p.scroll) then PushStep(None, false, counter) else Push(d, p, counter)
  }

  function Issued(r: Option<Request>): seq<Request>
  {
    if r.Some? then [r.value] else []
  }

  /** The requests issued, the events fired and the final counter after a series of scroll events. */
  datatype RunOutcome = RunOutcome(requests: seq<Request>, fires: nat, counter: int)

  function Run(d: Drive, counter: int, ps: seq<PushInput>): (o: RunOutcome)
    ensures |o.requests| <= |ps| && o.fires <= |ps|
    decreases |ps|
  {
    if ps == [] then RunOutcome([], 0, counter)
    else
      var s := Scroll(d, ps[0], counter);
      var rest := Run(d, s.counter, ps[1..]);
      RunOutcome(Issued(s.request) + rest.requests, (if s.fired then 1 else 0) + rest.fires, rest.counter)
  }

  /** Scroll values inside the dead zone leave everything as it was. */
  lemma {:induction false} IgnoredScrolls(d: Drive, counter: int, ps: seq<PushInput>)
    requires forall i :: 0 <= i < |ps| ==> !Accepted(ps[i].scroll)
    ensures Run(d, counter, ps) == RunOutcome([], 0, counter)
    decreases |ps|
  {
    if ps != [] {
      IgnoredScrolls(d, counter, ps[1..]);
    }
  }

  /**
   * Pushes that are speed-capped, or made with no wheel held, request nothing and
   * never fire the event, yet each one still counts: the counter grows past the
   * threshold along such a series.
   */
  lemma {:induction false} UncheckedPushesOnlyCount(d: Drive, counter: int, ps: seq<PushInput>)
    requires forall i :: 0 <= i < |ps| ==> Accepted(ps[i].scroll) && !ChecksEvent(d, ps[i])
    ensures Run(d, counter, ps) == RunOutcome([], 0, counter + |ps|)
    decreases |ps|
  {
    if ps != [] {
      UncheckedPushesOnlyCount(d, counter + 1, ps[1..]);
    }
  }

  /**
   * With a positive threshold and a counter below it, a series of pushes that all
   * reach the event check fires the movement event once every threshold pushes:
   * counter + pushes == fires * threshold + final counter, with the final counter
   * below the threshold.
   */
  lemma {:induction false} PulseCycle(d: Drive, counter: int, ps: seq<PushInput>)
    requires 0 < d.threshold && 0 <= counter < d.threshold
    requires forall i :: 0 <= i < |ps| ==> Accepted(ps[i].scroll) && ChecksEvent(d, ps[i])
    ensures var o := Run(d, counter, ps);
            counter + |ps| == o.fires * d.threshold + o.counter && 0 <= o.counter < d.threshold
    decreases |ps|
  {
    if ps != [] {
      var s := Scroll(d, ps[0], counter);
      PulseCycle(d, s.counter, ps[1..]);
      var rest := Run(d, s.counter, ps[1..]);
      var f := if s.fired then 1 else 0;
      assert counter + 1 == f * d.threshold + s.counter;
      assert (f + rest.fires) * d.threshold == f * d.threshold + rest.fires * d.threshold;
    }
  }

  /**
   * With the shipped threshold of six, seven capped pushes from a fresh counter
   * leave it at seven, above the threshold: the counter is not kept below it.
   */
  lemma CappedPushesPassThreshold(p: PushInput)
    requires p.left && p.right && p.speed > DefaultDrive.maxSpeed && Accepted(p.scroll)
    ensures Run(DefaultDrive, 0, [p, p, p, p, p, p, p]).counter == 7 > DefaultDrive.threshold
  {
    var ps := [p, p, p, p, p, p, p];
    UncheckedPushesOnlyCount(DefaultDrive, 0, ps);
  }
}
