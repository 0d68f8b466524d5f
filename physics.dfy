/**
 * The decision logic of the physics bridge (ModulePhysics.cpp): what each body
 * factory records, how a chain is unpacked, how flipper and spring joints are
 * configured, and which listener is told about which contact.
 *
 * Box2D itself is not modelled. A body the bridge creates is recorded as the
 * definition handed to Box2D (`SimBody`); a joint is recorded as its joint
 * definition. The identity Box2D gives a new body is the parameter `key`.
 */
module Physics {
  import opened Wrappers
  import opened Units

  /** Identity of a b2Body in the world. */
  type BodyKey = nat
  /** Identity of a Module that listens for collisions. */
  type ListenerId = nat

  datatype BodyType = StaticBody | KinematicBody | DynamicBody

  /** Shapes in metres. A `Loop` is a b2ChainShape made with CreateLoop. */
  datatype Shape =
    | Circle(radius: real)
    | Box(halfWidth: real, halfHeight: real)
    | Loop(vertices: seq<Vec2>)

  datatype Fixture = Fixture(shape: Shape, density: real, restitution: real, isSensor: bool)

  /** The body definition and single fixture that a factory hands to the world. */
  datatype SimBody = SimBody(key: BodyKey, bodyType: BodyType, position: Vec2, fixture: Fixture)

  /**
   * PhysBody. `id` is None while it has never been assigned: the C++ field is
   * left uninitialised by the constructor and by CreateCircle.
   */
  datatype PhysBody = PhysBody(
    width: int, height: int,
    body: Option<SimBody>,
    listener: Option<ListenerId>,
    id: Option<int>)

  /** The value the dispatcher reads from an `id` that was never assigned. */
  const UnsetId: int := 0

  /** Tags at or above this value are gameplay-significant (`physA->id >= 2`). */
  const SignificantTag: int := 2

  /** The tag the dispatcher reads from a body. */
  function TagOf(pb: PhysBody): int {
    pb.id.GetOr(UnsetId)
  }

  /** The PhysBody default constructor: no listener and no body yet. */
  function NewPhysBody(): (pb: PhysBody)
    ensures pb.listener == None && pb.body == None && pb.id == None
  {
    PhysBody(0, 0, None, None, None)
  }

  /** What PhysicEntity's constructor does to the body it wraps. */
  function WithListener(pb: PhysBody, listener: ListenerId): (r: PhysBody)
    ensures r.listener == Some(listener)
    ensures r.(listener := pb.listener) == pb
  {
    pb.(listener := Some(listener))
  }

  /** A b2FixtureDef with Box2D's defaults: no density, no restitution, not a sensor. */
  function DefaultFixture(shape: Shape): Fixture {
    Fixture(shape, 0.0, 0.0, false)
  }

  /** A C++ float-to-int cast: truncation toward zero. */
  function TruncToInt(x: real): (n: int)
    ensures 0.0 <= x ==> n as real <= x < n as real + 1.0
    ensures x < 0.0 ==> n as real - 1.0 < x <= n as real
  {
    if x >= 0.0 then Floor(x) else -Floor(-x)
  }

  /** `(int)(w * 0.5f)`: half of `w`, truncated toward zero. */
  function HalfPixels(w: int): (h: int)
    ensures 0 <= w ==> h == w / 2
    ensures w < 0 ==> h == -((-w) / 2)
  {
    var h := TruncToInt(w as real * 0.5);
    if w >= 0 then
      assert 2 * h <= w < 2 * h + 2;
      h
    else
      assert 2 * h - 2 < w <= 2 * h;
      h
  }

  /** The box fixture both rectangle factories build: `SetAsBox` takes half extents. */
  function BoxShape(width: int, height: int): (s: Shape)
    ensures s.Box?
    ensures 2.0 * s.halfWidth * PixelsPerMeter == width as real
    ensures 2.0 * s.halfHeight * PixelsPerMeter == height as real
  {
    Box(PixelToMeters(width as real) * 0.5, PixelToMeters(height as real) * 0.5)
  }

  /** CreateCircle: a density 1 circle; width and height hold the radius; no tag. */
  function CreateCircle(key: BodyKey, x: int, y: int, radius: int, bType: BodyType): (pb: PhysBody)
    ensures pb.id == None && pb.listener == None
    ensures pb.width == radius && pb.height == radius
    ensures pb.body.Some? && pb.body.value.key == key && pb.body.value.bodyType == bType
    ensures pb.body.value.position == PixelPoint(x, y)
    ensures pb.body.value.fixture.shape == Circle(PixelToMeters(radius as real))
    ensures MetersToPixels(pb.body.value.fixture.shape.radius) == radius
    ensures pb.body.value.fixture.density == 1.0 && pb.body.value.fixture.restitution == 0.0
    ensures !pb.body.value.fixture.isSensor
  {
    PixelRoundTrip(radius);
    var fixture := DefaultFixture(Circle(PixelToMeters(radius as real))).(density := 1.0);
    NewPhysBody().(body := Some(SimBody(key, bType, PixelPoint(x, y), fixture)),
                   width := radius, height := radius)
  }

  /** CreateRectangle: a density 1 box; width and height hold the truncated half extents. */
  function CreateRectangle(key: BodyKey, x: int, y: int, width: int, height: int,
                           bType: BodyType, inf: int): (pb: PhysBody)
    ensures pb.id == Some(inf) && pb.listener == None
    ensures pb.width == HalfPixels(width) && pb.height == HalfPixels(height)
    ensures pb.body.Some? && pb.body.value.key == key && pb.body.value.bodyType == bType
    ensures pb.body.value.position == PixelPoint(x, y)
    ensures pb.body.value.fixture == Fixture(BoxShape(width, height), 1.0, 0.0, false)
  {
    var fixture := DefaultFixture(BoxShape(width, height)).(density := 1.0);
    NewPhysBody().(id := Some(inf), body := Some(SimBody(key, bType, PixelPoint(x, y), fixture)),
                   width := HalfPixels(width), height := HalfPixels(height))
  }

  /** CreateRectangleSensor: the same box marked as a sensor; full width and height are kept. */
  function CreateRectangleSensor(key: BodyKey, x: int, y: int, width: int, height: int,
                                 bType: BodyType, inf: int): (pb: PhysBody)
    ensures pb.id == Some(inf) && pb.listener == None
    ensures pb.width == width && pb.height == height
    ensures pb.body.Some? && pb.body.value.fixture.isSensor
  {
    var fixture := Fixture(BoxShape(width, height), 1.0, 0.0, true);
    NewPhysBody().(id := Some(inf), body := Some(SimBody(key, bType, PixelPoint(x, y), fixture)),
                   width := width, height := height)
  }

  /** CreateBumper: a density 1 circle with restitution 1.5, carrying a tag. */
  function CreateBumper(key: BodyKey, x: int, y: int, radius: int, bType: BodyType, inf: int): (pb: PhysBody)
    ensures pb.id == Some(inf) && pb.listener == None
    ensures pb.width == radius && pb.height == radius
    ensures pb.body.Some? && pb.body.value.fixture.restitution == 1.5
    ensures pb.body.value.fixture.restitution > 1.0
    ensures pb.body.value.fixture.density == 1.0
  {
    var fixture := Fixture(Circle(PixelToMeters(radius as real)), 1.0, 1.5, false);
    NewPhysBody().(id := Some(inf), body := Some(SimBody(key, bType, PixelPoint(x, y), fixture)),
                   width := radius, height := radius)
  }

  /** A sensor rectangle is the plain rectangle with the sensor flag set and full extents recorded. */
  lemma SensorIsMarkedRectangle(key: BodyKey, x: int, y: int, w: int, h: int, bType: BodyType, inf: int)
    ensures var r := CreateRectangle(key, x, y, w, h, bType, inf);
            var s := CreateRectangleSensor(key, x, y, w, h, bType, inf);
            s == r.(width := w, height := h,
                    body := Some(r.body.value.(fixture := r.body.value.fixture.(isSensor := true))))
  {
  }

  /** A bumper is the plain circle with restitution 1.5 and a tag. */
  lemma BumperIsTaggedBouncyCircle(key: BodyKey, x: int, y: int, radius: int, bType: BodyType, inf: int)
    ensures var c := CreateCircle(key, x, y, radius, bType);
            var b := CreateBumper(key, x, y, radius, bType, inf);
            b == c.(id := Some(inf),
                    body := Some(c.body.value.(fixture := c.body.value.fixture.(restitution := 1.5))))
  {
  }

  // ---------------------------------------------------------------- chains

  /** The vertices of a flat x, y, x, y, ... list; a trailing odd coordinate is dropped. */
  function Pairs(pts: seq<int>): (vs: seq<Vec2>)
    ensures |vs| == |pts| / 2
  {
    if |pts| < 2 then [] else [PixelPoint(pts[0], pts[1])] + Pairs(pts[2..])
  }

  lemma {:induction false} PairsAt(pts: seq<int>, i: int)
    requires 0 <= i < |pts| / 2
    ensures Pairs(pts)[i] == PixelPoint(pts[2 * i], pts[2 * i + 1])
  {
    if i > 0 {
      PairsAt(pts[2..], i - 1);
    }
  }

  /** An odd coordinate at the end never becomes part of a vertex. */
  lemma {:induction false} PairsIgnoresOddTail(pts: seq<int>)
    requires |pts| % 2 == 1
    ensures Pairs(pts) == Pairs(pts[..|pts| - 1])
  {
    if |pts| >= 2 {
      assert pts[..|pts| - 1][2..] == pts[2..][..|pts[2..]| - 1];
      PairsIgnoresOddTail(pts[2..]);
    }
  }

  /**
   * The edges of a closed loop: vertex i joins vertex i + 1, and the last
   * vertex joins the first (what b2ChainShape::CreateLoop builds).
   */
  function LoopEdges(vs: seq<Vec2>): (es: seq<(Vec2, Vec2)>)
    ensures |es| == |vs|
  {
    seq(|vs|, i requires 0 <= i < |vs| => (vs[i], vs[(i + 1) % |vs|]))
  }

  /** Every vertex starts one edge and ends another; the last edge closes the loop. */
  lemma LoopIsClosed(vs: seq<Vec2>)
    requires |vs| > 0
    ensures LoopEdges(vs)[|vs| - 1] == (vs[|vs| - 1], vs[0])
    ensures forall i :: 0 <= i < |vs| - 1 ==> LoopEdges(vs)[i].1 == LoopEdges(vs)[i + 1].0
  {
    var n := |vs|;
    assert (n - 1 + 1) % n == 0;
    forall i | 0 <= i < n - 1
      ensures LoopEdges(vs)[i].1 == LoopEdges(vs)[i + 1].0
    {
      assert (i + 1) % n == i + 1;
    }
  }

  /**
   * CreateChain: unpacks `size` coordinates into `size / 2` vertices with a
   * loop into an array, then builds a closed loop for a tagged static or
   * dynamic body whose width and height are zero.
   */
  method CreateChain(key: BodyKey, x: int, y: int, points: seq<int>, size: int,
                     bType: BodyType, inf: int) returns (pb: PhysBody)
    requires 0 <= size <= |points|
    ensures pb.id == Some(inf) && pb.listener == None
    ensures pb.width == 0 && pb.height == 0
    ensures pb.body.Some? && pb.body.value.key == key && pb.body.value.bodyType == bType
    ensures pb.body.value.position == PixelPoint(x, y)
    ensures pb.body.value.fixture == DefaultFixture(Loop(Pairs(points[..size])))
    ensures |pb.body.value.fixture.shape.vertices| == size / 2
    ensures forall i :: 0 <= i < size / 2 ==>
      pb.body.value.fixture.shape.vertices[i] == PixelPoint(points[2 * i], points[2 * i + 1])
  {
    var n := size / 2;
    var p := new Vec2[n];
    for i := 0 to n
      invariant forall j :: 0 <= j < i ==> p[j] == PixelPoint(points[2 * j], points[2 * j + 1])
    {
      p[i] := PixelPoint(points[2 * i], points[2 * i + 1]);
    }
    ghost var pts := points[..size];
    forall j | 0 <= j < n
      ensures p[j] == Pairs(pts)[j]
    {
      PairsAt(pts, j);
    }
    var vertices := p[..];
    assert vertices == Pairs(pts);
    var body := SimBody(key, bType, PixelPoint(x, y), DefaultFixture(Loop(vertices)));
    pb := NewPhysBody().(body := Some(body), width := 0, height := 0, id := Some(inf));
  }

  /** The four-corner chain closes into four edges, the last one back to the origin. */
  lemma SquareChainHasFourEdges()
    ensures var vs := Pairs([0, 0, 10, 0, 10, 10, 0, 10]);
            |LoopEdges(vs)| == 4 && LoopEdges(vs)[3] == (Vec2(0.0, 0.2), Vec2(0.0, 0.0))
  {
    var pts := [0, 0, 10, 0, 10, 10, 0, 10];
    PairsAt(pts, 0);
    PairsAt(pts, 3);
  }

  // ---------------------------------------------------------------- joints

  /** Box2D's b2_pi. */
  const Pi: real := 3.14159265359

  datatype Side = LeftSide | RightSide

  /**
   * A flipper whose anchor lies right of the screen's middle is a right
   * flipper. `PIXEL_TO_METERS(SCREEN_WIDTH/2)` does not parenthesise its
   * argument, so it expands to `0.02f * SCREEN_WIDTH / 2`: the metres are
   * halved, there is no integer division of the width.
   */
  function FlipperSide(anchor: Vec2, screenWidth: nat): Side {
    if anchor.x > PixelToMeters(screenWidth as real) / 2.0 then RightSide else LeftSide
  }

  /** For an anchor on a whole pixel, the side is decided in pixels: right exactly when 2x > width. */
  lemma FlipperSideAtPixel(x: int, y: int, screenWidth: nat)
    ensures FlipperSide(PixelPoint(x, y), screenWidth) == RightSide <==> 2 * x > screenWidth
  {
    var ax := PixelPoint(x, y).x;
    var t := PixelToMeters(screenWidth as real) / 2.0;
    assert ax * PixelsPerMeter == x as real;
    assert t * PixelsPerMeter * 2.0 == screenWidth as real;
    assert ax > t <==> ax * PixelsPerMeter > t * PixelsPerMeter;
  }

  /** The motor speed a new flipper joint is given: it holds the paddle at rest. */
  function FlipperMotorSpeed(side: Side): real {
    if side == RightSide then 10.0 else -10.0
  }

  datatype RevoluteJointDef = RevoluteJointDef(
    bodyA: BodyKey, bodyB: BodyKey, anchor: Vec2,
    collideConnected: bool, enableLimit: bool, enableMotor: bool,
    maxMotorTorque: real, lowerAngle: real, upperAngle: real, motorSpeed: real)

  /**
   * CreateFlipper: a revolute joint about the centre of `bodyB` (whose
   * shape is centred on its position). `anchor` only decides the side.
   */
  function CreateFlipper(bodyA: PhysBody, bodyB: PhysBody, anchor: Vec2, screenWidth: nat): (j: RevoluteJointDef)
    requires bodyA.body.Some? && bodyB.body.Some?
    ensures j.bodyA == bodyA.body.value.key && j.bodyB == bodyB.body.value.key
    ensures j.anchor == bodyB.body.value.position
    ensures j.enableLimit && j.enableMotor && !j.collideConnected && j.maxMotorTorque == 150.0
    ensures j.lowerAngle < 0.0 < j.upperAngle
    ensures j.motorSpeed > 0.0 <==> FlipperSide(anchor, screenWidth) == RightSide
  {
    var right := FlipperSide(anchor, screenWidth) == RightSide;
    RevoluteJointDef(
      bodyA.body.value.key, bodyB.body.value.key, bodyB.body.value.position,
      false, true, true, 150.0,
      if right then -0.25 * Pi else -0.15 * Pi,
      if right then 0.15 * Pi else 0.25 * Pi,
      FlipperMotorSpeed(FlipperSide(anchor, screenWidth)))
  }

  /** A right and a left flipper swing through mirror-image arcs with opposite motors. */
  lemma FlippersMirror(a: PhysBody, b: PhysBody, left: Vec2, right: Vec2, screenWidth: nat)
    requires a.body.Some? && b.body.Some?
    requires FlipperSide(left, screenWidth) == LeftSide && FlipperSide(right, screenWidth) == RightSide
    ensures var l := CreateFlipper(a, b, left, screenWidth);
            var r := CreateFlipper(a, b, right, screenWidth);
            r.lowerAngle == -l.upperAngle && r.upperAngle == -l.lowerAngle &&
            r.motorSpeed == -l.motorSpeed &&
            r.lowerAngle == -0.25 * Pi && r.upperAngle == 0.15 * Pi && r.motorSpeed == 10.0
  {
  }

  datatype PrismaticJointDef = PrismaticJointDef(
    bodyA: BodyKey, bodyB: BodyKey, localAnchorA: Vec2, localAnchorB: Vec2,
    lowerTranslation: real, upperTranslation: real, enableLimit: bool,
    localAxisA: Vec2, enableMotor: bool, maxMotorForce: real, motorSpeed: real)

  const SpringTravel: real := 1.5

  /**
   * CreateSpring: a prismatic joint whose first body is the anchor (the
   * SECOND parameter) and whose second body is the plunger.
   */
  function CreateSpring(bodyA: PhysBody, bodyB: PhysBody, axis: Vec2): (j: PrismaticJointDef)
    requires bodyA.body.Some? && bodyB.body.Some?
    ensures j.bodyA == bodyB.body.value.key && j.bodyB == bodyA.body.value.key
    ensures j.lowerTranslation == -j.upperTranslation && j.upperTranslation == SpringTravel
    ensures j.localAxisA == axis && j.localAnchorA == Vec2(0.0, 0.0) && j.localAnchorB == Vec2(0.0, 0.0)
    ensures j.enableLimit && j.enableMotor && j.maxMotorForce == 200.0 && j.motorSpeed == 0.0
  {
    PrismaticJointDef(
      bodyB.body.value.key, bodyA.body.value.key, Vec2(0.0, 0.0), Vec2(0.0, 0.0),
      -1.5, 1.5, true, Vec2(axis.x, axis.y), true, 200.0, 0.0)
  }

  // ---------------------------------------------------------------- dispatch

  /**
   * One entry of the world's contact list: the user data of the bodies of
   * fixtures A and B (None for a null pointer), whether fixture A is a
   * sensor, and whether the fixtures touch.
   */
  datatype Contact = Contact(a: Option<PhysBody>, b: Option<PhysBody>, sensorA: bool, touching: bool)

  /** A call `receiver->OnCollision(first, second, tag)`. */
  datatype Notification = Notification(receiver: ListenerId, first: Option<PhysBody>,
                                       second: Option<PhysBody>, tag: int)

  datatype DispatchError = NullUserDataA

  /**
   * BeginContact. A's tag alone decides; then A's listener hears (A, B, tag A)
   * and, if B has user data and a listener, B's hears (B, A, tag A). A null
   * user data on side A is dereferenced before any check: a crash.
   */
  function BeginContact(c: Contact): (r: Result<seq<Notification>, DispatchError>)
    ensures r.Err? <==> c.a.None?
    ensures r.Ok? ==> forall n :: n in r.value ==> n.tag == TagOf(c.a.value)
    ensures r.Ok? ==> |r.value| <= 2
    ensures r.Ok? && TagOf(c.a.value) < SignificantTag ==> r.value == []
  {
    match c.a
    case None => Err(NullUserDataA)
    case Some(a) =>
      if TagOf(a) >= SignificantTag then
        var toA := if a.listener.Some? then [Notification(a.listener.value, c.a, c.b, TagOf(a))] else [];
        var toB := if c.b.Some? && c.b.value.listener.Some?
                   then [Notification(c.b.value.listener.value, c.b, c.a, TagOf(a))] else [];
        Ok(toA + toB)
      else
        Ok([])
  }

  /** Who receives what from BeginContact, with both sides counted exactly. */
  lemma BeginContactReceivers(c: Contact)
    requires c.a.Some?
    ensures var a := c.a.value;
            var notes := BeginContact(c).value;
            var hearA := TagOf(a) >= SignificantTag && a.listener.Some?;
            var hearB := TagOf(a) >= SignificantTag && c.b.Some? && c.b.value.listener.Some?;
            |notes| == (if hearA then 1 else 0) + (if hearB then 1 else 0) &&
            (hearA ==> notes[0] == Notification(a.listener.value, c.a, c.b, TagOf(a))) &&
            (hearB ==> notes[|notes| - 1] == Notification(c.b.value.listener.value, c.b, c.a, TagOf(a)))
  {
  }

  /** B's own tag never changes who is notified or with which tag. */
  lemma BeginContactIgnoresTagB(c: Contact, t: Option<int>)
    requires c.a.Some? && c.b.Some?
    ensures var c' := c.(b := Some(c.b.value.(id := t)));
            var ns := BeginContact(c).value;
            var ns' := BeginContact(c').value;
            |ns| == |ns'| &&
            forall i :: 0 <= i < |ns| ==> ns[i].receiver == ns'[i].receiver && ns[i].tag == ns'[i].tag
  {
  }

  /** Two scenery bodies tagged NoInteraction produce nothing. */
  lemma SceneryContactIsSilent(a: PhysBody, b: PhysBody, sensorA: bool, touching: bool)
    requires a.id == Some(1) && b.id == Some(1)
    ensures BeginContact(Contact(Some(a), Some(b), sensorA, touching)) == Ok([])
  {
  }

  /** A drain zone as A (no listener) and a listening ball as B: one notification, tag 9. */
  lemma DrainContactNotifiesBall(zone: PhysBody, ball: PhysBody, listener: ListenerId, touching: bool)
    requires zone.id == Some(9) && zone.listener == None && ball.listener == Some(listener)
    ensures BeginContact(Contact(Some(zone), Some(ball), true, touching))
            == Ok([Notification(listener, Some(ball), Some(zone), 9)])
  {
    var note := Notification(listener, Some(ball), Some(zone), 9);
    assert TagOf(zone) == 9;
    assert [] + [note] == [note];
  }

  /** The sensor sweep's filter: a touching contact whose fixture A is a listening sensor. */
  predicate SensorReports(c: Contact) {
    c.sensorA && c.touching && c.a.Some? && c.a.value.listener.Some?
  }

  /** The notification the sweep sends for a reported contact: fixture A's body twice. */
  function SensorNote(c: Contact): (n: Notification)
    requires SensorReports(c)
    ensures n.receiver == c.a.value.listener.value && n.tag == TagOf(c.a.value)
    ensures n.first == c.a && n.second == c.a
  {
    Notification(c.a.value.listener.value, c.a, c.a, TagOf(c.a.value))
  }

  /** The notifications of one sweep over a contact list, in list order. */
  function SensorNotes(cs: seq<Contact>): (ns: seq<Notification>)
    ensures |ns| <= |cs|
  {
    if cs == [] then []
    else (if SensorReports(cs[0]) then [SensorNote(cs[0])] else []) + SensorNotes(cs[1..])
  }

  lemma {:induction false} SensorNotesAppend(xs: seq<Contact>, ys: seq<Contact>)
    ensures SensorNotes(xs + ys) == SensorNotes(xs) + SensorNotes(ys)
  {
    if xs == [] {
      assert xs + ys == ys;
    } else {
      assert (xs + ys)[0] == xs[0];
      assert (xs + ys)[1..] == xs[1..] + ys;
      SensorNotesAppend(xs[1..], ys);
    }
  }

  /** Every notification of a sweep comes from a reported contact and carries A twice. */
  lemma {:induction false} SensorNotesSound(cs: seq<Contact>, n: Notification)
    requires n in SensorNotes(cs)
    ensures exists i :: 0 <= i < |cs| && SensorReports(cs[i]) && n == SensorNote(cs[i])
  {
    if SensorReports(cs[0]) && n == SensorNote(cs[0]) {
      assert SensorReports(cs[0]) && n == SensorNote(cs[0]);
    } else {
      SensorNotesSound(cs[1..], n);
      var i :| 0 <= i < |cs[1..]| && SensorReports(cs[1..][i]) && n == SensorNote(cs[1..][i]);
      assert cs[i + 1] == cs[1..][i];
    }
  }

  /** Every reported contact is heard. */
  lemma {:induction false} SensorNotesComplete(cs: seq<Contact>, i: int)
    requires 0 <= i < |cs| && SensorReports(cs[i])
    ensures SensorNote(cs[i]) in SensorNotes(cs)
  {
    if i > 0 {
      SensorNotesComplete(cs[1..], i - 1);
    }
  }

  /** A sensor on side B is never reported, whatever it touches. */
  lemma {:induction false} SensorOnSideBIsSilent(cs: seq<Contact>)
    requires forall i :: 0 <= i < |cs| ==> !cs[i].sensorA
    ensures SensorNotes(cs) == []
  {
    if cs != [] {
      SensorOnSideBIsSilent(cs[1..]);
    }
  }

  /** PreUpdate's loop over the contact list, after the world has stepped. */
  method SensorSweep(contacts: seq<Contact>) returns (notes: seq<Notification>)
    ensures notes == SensorNotes(contacts)
  {
    notes := [];
    var i := 0;
    while i < |contacts|
      invariant 0 <= i <= |contacts|
      invariant SensorNotes(contacts) == notes + SensorNotes(contacts[i..])
    {
      var c := contacts[i];
      assert contacts[i..] == [c] + contacts[i + 1..];
      if c.sensorA && c.touching {
        var pb1 := c.a;
        var pb2 := c.a;
        if pb1.Some? && pb2.Some? && pb1.value.listener.Some? {
          notes := notes + [Notification(pb1.value.listener.value, pb1, pb2, TagOf(pb1.value))];
        }
      }
      i := i + 1;
    }
  }

  /** The notifications of consecutive sweeps, one contact list per world step. */
  function Sweeps(steps: seq<seq<Contact>>): seq<Notification> {
    if steps == [] then [] else SensorNotes(steps[0]) + Sweeps(steps[1..])
  }

  /** A sensor overlap that lasts k steps is reported k times, once per step. */
  lemma {:induction false} SteadyOverlapRepeats(c: Contact, k: nat)
    requires SensorReports(c)
    ensures Sweeps(seq(k, _ => [c])) == seq(k, _ => SensorNote(c))
  {
    if k > 0 {
      var steps := seq(k, _ => [c]);
      assert steps[1..] == seq(k - 1, _ => [c]);
      SteadyOverlapRepeats(c, k - 1);
      assert SensorNotes([c]) == [SensorNote(c)];
    }
  }
}
