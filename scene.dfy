/** The bodies of the solar system and the object that holds them together
    with the camera and mouse state, and the builder of the fixed scene. */
module Scene {
  import opened Kinematics

  /** An RGB colour, each channel in [0, 1]. */
  datatype Color = Color(r: real, g: real, b: real)

  /** The static description a body is built from: radius, distance from its
      parent, rotation speed, revolution speed, colour and whether it has rings. */
  datatype BodySpec = BodySpec(radius: real, distance: real, rotationSpeed: real,
                               revolutionSpeed: real, color: Color, hasRings: bool)

  const SunSpec: BodySpec := BodySpec(2.0, 0.0, 0.5, 0.0, Color(1.0, 0.8, 0.0), false)
  const MercurySpec: BodySpec := BodySpec(0.2, 3.0, 2.0, 1.5, Color(0.7, 0.7, 0.7), false)
  const VenusSpec: BodySpec := BodySpec(0.4, 4.5, 1.5, 1.2, Color(0.9, 0.7, 0.3), false)
  const EarthSpec: BodySpec := BodySpec(0.5, 6.0, 1.0, 1.0, Color(0.2, 0.4, 0.9), false)
  const MarsSpec: BodySpec := BodySpec(0.3, 7.5, 1.2, 0.8, Color(0.8, 0.3, 0.2), false)
  const JupiterSpec: BodySpec := BodySpec(1.2, 10.0, 0.8, 0.5, Color(0.8, 0.6, 0.4), false)
  const SaturnSpec: BodySpec := BodySpec(1.0, 13.0, 0.7, 0.4, Color(0.9, 0.8, 0.5), true)
  const MoonSpec: BodySpec := BodySpec(0.1, 1.0, 3.0, 2.0, Color(0.8, 0.8, 0.8), false)

  /** The top-level bodies in insertion (and drawing) order. */
  const Catalogue: seq<BodySpec> :=
    [SunSpec, MercurySpec, VenusSpec, EarthSpec, MarsSpec, JupiterSpec, SaturnSpec]

  /** Position of the earth, the one body with a moon, in the catalogue. */
  const EarthIndex: nat := 3
  /** Position of saturn, the one body with rings, in the catalogue. */
  const SaturnIndex: nat := 6

  /** The light position before the scene is built, and after. */
  const DefaultLight: seq<real> := [5.0, 5.0, 5.0, 1.0]
  const SunLight: seq<real> := [0.0, 0.0, 0.0, 1.0]

  /** The catalogue holds seven bodies; exactly saturn has rings, the sun is
      at the centre and does not revolve, and every body is a real sphere. */
  lemma CatalogueShape()
    ensures |Catalogue| == 7
    ensures forall i :: 0 <= i < |Catalogue| ==> (Catalogue[i].hasRings <==> i == SaturnIndex)
    ensures forall i :: 0 <= i < |Catalogue| ==> Catalogue[i].radius > 0.0 && Catalogue[i].distance >= 0.0
    ensures forall i :: 0 <= i < |Catalogue| ==> (Catalogue[i].revolutionSpeed == 0.0 <==> i == 0)
    ensures Catalogue[0].distance == 0.0
  {
    forall i | 0 <= i < |Catalogue|
      ensures Catalogue[i].hasRings <==> i == SaturnIndex
      ensures Catalogue[i].radius > 0.0 && Catalogue[i].distance >= 0.0
      ensures Catalogue[i].revolutionSpeed == 0.0 <==> i == 0
    {
      if i == 0 {} else if i == 1 {} else if i == 2 {} else if i == 3 {}
      else if i == 4 {} else if i == 5 {} else {}
    }
  }

  /** One body: static description in constant fields, the two angles the
      frame loop advances, and the list of its moons. */
  class Planet {
    const radius: real
    const distance: real
    const rotationSpeed: real
    const revolutionSpeed: real
    const color: Color
    const hasRings: bool
    var rotationAngle: real
    var revolutionAngle: real
    var moons: seq<Planet>

    /** A new body at rest with no moons. */
    constructor (radius: real, distance: real, rotationSpeed: real, revolutionSpeed: real,
                 color: Color, hasRings: bool := false)
      ensures Spec() == BodySpec(radius, distance, rotationSpeed, revolutionSpeed, color, hasRings)
      ensures CurrentAngles() == AtRest
      ensures moons == []
    {
      this.radius := radius;
      this.distance := distance;
      this.rotationAngle := 0.0;
      this.revolutionAngle := 0.0;
      this.rotationSpeed := rotationSpeed;
      this.revolutionSpeed := revolutionSpeed;
      this.color := color;
      this.hasRings := hasRings;
      this.moons := [];
    }

    /** The static description of this body. */
    function Spec(): BodySpec
    {
      BodySpec(radius, distance, rotationSpeed, revolutionSpeed, color, hasRings)
    }

    function Speeds(): Speeds
    {
      Kinematics.Speeds(revolutionSpeed, rotationSpeed)
    }

    function CurrentAngles(): Angles
      reads this
    {
      Angles(revolutionAngle, rotationAngle)
    }

    /** One frame of this body's motion at the given time speed: the
        revolution angle grows by speed x 0.1 x time speed, the rotation angle
        by speed x 0.5 x time speed. */
    method Advance(timeSpeed: real)
      modifies this`revolutionAngle, this`rotationAngle
      ensures CurrentAngles() == Tick(old(CurrentAngles()), Speeds(), timeSpeed)
    {
      revolutionAngle := revolutionAngle + revolutionSpeed * RevolutionFactor * timeSpeed;
      rotationAngle := rotationAngle + rotationSpeed * RotationFactor * timeSpeed;
    }

    /** One frame of this body and then of each of its moons, in list order:
        every one of them advances exactly once. */
    method AdvanceWithMoons(timeSpeed: real)
      requires this !in moons
      requires forall a, b :: 0 <= a < b < |moons| ==> moons[a] != moons[b]
      modifies this`revolutionAngle, this`rotationAngle
      modifies (set m | m in moons)`revolutionAngle, (set m | m in moons)`rotationAngle
      ensures CurrentAngles() == Tick(old(CurrentAngles()), Speeds(), timeSpeed)
      ensures forall m :: m in moons ==> m.CurrentAngles() == Tick(old(m.CurrentAngles()), m.Speeds(), timeSpeed)
    {
      Advance(timeSpeed);
      for j := 0 to |moons|
        invariant CurrentAngles() == Tick(old(CurrentAngles()), Speeds(), timeSpeed)
        invariant forall a :: 0 <= a < j ==> moons[a].CurrentAngles() == Tick(old(moons[a].CurrentAngles()), moons[a].Speeds(), timeSpeed)
        invariant forall a :: j <= a < |moons| ==> moons[a].CurrentAngles() == old(moons[a].CurrentAngles())
      {
        assert moons[j] in moons;
        moons[j].Advance(timeSpeed);
      }
    }
  }

  /** The scene and the camera/mouse state the input handlers change. */
  class SolarSystem {
    var planets: seq<Planet>
    var lightPosition: seq<real>
    var cameraDistance: real
    var cameraAngleX: real
    var cameraAngleY: real
    var mouseDragging: bool
    var lastMouseX: int
    var lastMouseY: int

    /** The top-level bodies, as a set. */
    ghost function Members(): set<Planet>
      reads this`planets
    {
      set p | p in planets
    }

    /** Every moon of every top-level body. */
    ghost function Moons(): set<Planet>
      reads this`planets, Members()`moons
    {
      set p, m | p in planets && m in p.moons :: m
    }

    /** Every body the frame loop visits. */
    ghost function Bodies(): set<Planet>
      reads this`planets, Members()`moons
    {
      Members() + Moons()
    }

    /** No body is visited twice by the frame loop: the top-level bodies are
        distinct, no moon is a top-level body, no two bodies share a moon and
        no body lists a moon twice. */
    ghost predicate Valid()
      reads this`planets, Members()`moons
    {
      && (forall i, j :: 0 <= i < j < |planets| ==> planets[i] != planets[j])
      && (forall p, m :: p in planets && m in p.moons ==> m !in planets)
      && (forall i, j, m :: 0 <= i < j < |planets| && m in planets[i].moons ==> m !in planets[j].moons)
      && (forall p, a, b :: p in planets && 0 <= a < b < |p.moons| ==> p.moons[a] != p.moons[b])
    }

    /** The scene as the builder leaves it: the catalogue's bodies at rest, in
        order, the earth with exactly one moon (at rest, moonless) and every
        other body without moons. */
    ghost predicate HoldsCatalogue()
      reads this`planets, planets, if |planets| == |Catalogue| then planets[EarthIndex].moons else []
    {
      && |planets| == |Catalogue|
      && (forall i :: 0 <= i < |planets| ==> planets[i].Spec() == Catalogue[i])
      && (forall i :: 0 <= i < |planets| ==> planets[i].CurrentAngles() == AtRest)
      && (forall i :: 0 <= i < |planets| && i != EarthIndex ==> planets[i].moons == [])
      && |planets[EarthIndex].moons| == 1
      && planets[EarthIndex].moons[0].Spec() == MoonSpec
      && planets[EarthIndex].moons[0].CurrentAngles() == AtRest
      && planets[EarthIndex].moons[0].moons == []
    }

    /** The builder's scene, bodies named: eight distinct bodies at rest with
        the catalogue's descriptions, only the earth with a moon, form a valid
        scene holding the catalogue. */
    static lemma BuiltScene(s: SolarSystem, sun: Planet, mercury: Planet, venus: Planet, earth: Planet,
                            mars: Planet, jupiter: Planet, saturn: Planet, moon: Planet)
      requires s.planets == [sun, mercury, venus, earth, mars, jupiter, saturn]
      requires sun.Spec() == SunSpec && mercury.Spec() == MercurySpec && venus.Spec() == VenusSpec
      requires earth.Spec() == EarthSpec && mars.Spec() == MarsSpec && jupiter.Spec() == JupiterSpec
      requires saturn.Spec() == SaturnSpec && moon.Spec() == MoonSpec
      requires sun.CurrentAngles() == mercury.CurrentAngles() == venus.CurrentAngles() == AtRest
      requires earth.CurrentAngles() == mars.CurrentAngles() == jupiter.CurrentAngles() == AtRest
      requires saturn.CurrentAngles() == moon.CurrentAngles() == AtRest
      requires sun.moons == mercury.moons == venus.moons == mars.moons == jupiter.moons == []
      requires saturn.moons == moon.moons == [] && earth.moons == [moon]
      requires sun != mercury && sun != venus && sun != earth && sun != mars
      requires sun != jupiter && sun != saturn && sun != moon
      requires mercury != venus && mercury != earth && mercury != mars
      requires mercury != jupiter && mercury != saturn && mercury != moon
      requires venus != earth && venus != mars && venus != jupiter && venus != saturn && venus != moon
      requires earth != mars && earth != jupiter && earth != saturn && earth != moon
      requires mars != jupiter && mars != saturn && mars != moon
      requires jupiter != saturn && jupiter != moon && saturn != moon
      ensures s.Valid() && s.HoldsCatalogue()
      ensures s.Bodies() == {sun, mercury, venus, earth, mars, jupiter, saturn, moon}
    {
      var ps := s.planets;
      forall i | 0 <= i < |ps|
        ensures ps[i].Spec() == Catalogue[i] && ps[i].CurrentAngles() == AtRest
        ensures ps[i].moons == if i == EarthIndex then [moon] else []
        ensures ps[i] != moon
        ensures forall j :: i < j < |ps| ==> ps[i] != ps[j]
      {
        if i == 0 {} else if i == 1 {} else if i == 2 {} else if i == 3 {}
        else if i == 4 {} else if i == 5 {} else {}
      }
      forall m | m in s.Moons() ensures m == moon {
        var p :| p in ps && m in p.moons;
      }
      assert earth in ps && moon in earth.moons;
      assert s.Moons() == {moon};
    }

    /** Bodies allocated since the previous state, once they are all the
        bodies of the scene, make the whole scene newly allocated. */
    static twostate lemma FreshScene(s: SolarSystem, new sun: Planet, new mercury: Planet, new venus: Planet,
                                     new earth: Planet, new mars: Planet, new jupiter: Planet,
                                     new saturn: Planet, new moon: Planet)
      requires fresh(sun) && fresh(mercury) && fresh(venus) && fresh(earth)
      requires fresh(mars) && fresh(jupiter) && fresh(saturn) && fresh(moon)
      requires s.Bodies() == {sun, mercury, venus, earth, mars, jupiter, saturn, moon}
      ensures forall b :: b in s.Bodies() ==> fresh(b)
    {
    }

    /** Empty scene, camera 15 units away looking straight ahead, not dragging. */
    constructor ()
      ensures planets == [] && lightPosition == DefaultLight
      ensures cameraDistance == 15.0 && cameraAngleX == 0.0 && cameraAngleY == 0.0
      ensures !mouseDragging && lastMouseX == 0 && lastMouseY == 0
      ensures Valid()
    {
      planets := [];
      lightPosition := DefaultLight;
      cameraDistance := 15.0;
      cameraAngleX := 0.0;
      cameraAngleY := 0.0;
      mouseDragging := false;
      lastMouseX := 0;
      lastMouseY := 0;
    }

    /** Replaces the scene by the fixed catalogue of fresh bodies and moves
        the light to the sun; the camera and mouse state are untouched. */
    method CreateSolarSystem()
      modifies this`planets, this`lightPosition
      ensures Valid() && HoldsCatalogue()
      ensures forall b :: b in Bodies() ==> fresh(b)
      ensures lightPosition == SunLight
    {
      var sun := new Planet(2.0, 0.0, 0.5, 0.0, Color(1.0, 0.8, 0.0));

      var mercury := new Planet(0.2, 3.0, 2.0, 1.5, Color(0.7, 0.7, 0.7));
      var venus := new Planet(0.4, 4.5, 1.5, 1.2, Color(0.9, 0.7, 0.3));
      var earth := new Planet(0.5, 6.0, 1.0, 1.0, Color(0.2, 0.4, 0.9));
      var mars := new Planet(0.3, 7.5, 1.2, 0.8, Color(0.8, 0.3, 0.2));
      var jupiter := new Planet(1.2, 10.0, 0.8, 0.5, Color(0.8, 0.6, 0.4));
      var saturn := new Planet(1.0, 13.0, 0.7, 0.4, Color(0.9, 0.8, 0.5), hasRings := true);

      var moon := new Planet(0.1, 1.0, 3.0, 2.0, Color(0.8, 0.8, 0.8));
      earth.moons := earth.moons + [moon];

      planets := [sun, mercury, venus, earth, mars, jupiter, saturn];
      lightPosition := SunLight;

      BuiltScene(this, sun, mercury, venus, earth, mars, jupiter, saturn, moon);
      FreshScene(this, sun, mercury, venus, earth, mars, jupiter, saturn, moon);
    }
  }
}
