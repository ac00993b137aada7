/** The running simulation: the solar system, the time-speed multiplier,
    the per-frame angle update of the display callback and the mouse,
    motion and keyboard callbacks. */
module Universe {
  import opened Kinematics
  import opened Scene
  import Controls

  class Simulation {
    const solarSystem: SolarSystem
    var timeSpeed: real

    /** The camera, mouse and clock state as one value. */
    function ControlState(): Controls.ControlState
      reads this, solarSystem
    {
      Controls.ControlState(solarSystem.cameraDistance, solarSystem.cameraAngleX, solarSystem.cameraAngleY,
                            solarSystem.mouseDragging, solarSystem.lastMouseX, solarSystem.lastMouseY,
                            timeSpeed)
    }

    /** The scene visits no body twice and the controls keep their clamping
        invariants. */
    ghost predicate Valid()
      reads this, solarSystem, solarSystem.Members()`moons
    {
      solarSystem.Valid() && Controls.InRange(ControlState())
    }

    /** A new simulation: the fixed scene built, the camera at its start-up
        position and time running at speed 1.0. */
    constructor ()
      ensures Valid()
      ensures solarSystem.HoldsCatalogue() && solarSystem.lightPosition == SunLight
      ensures ControlState() == Controls.Initial
      ensures fresh(solarSystem) && forall b :: b in solarSystem.Bodies() ==> fresh(b)
    {
      var system := new SolarSystem();
      system.CreateSolarSystem();
      solarSystem := system;
      timeSpeed := 1.0;
    }

    /** The state the display callback changes: every top-level body, and
        then each of its moons in list order, advances its revolution angle
        by speed x 0.1 x time speed and its rotation angle by speed x 0.5 x
        time speed. Nothing else changes: the frame only names the two angle
        fields of the scene's bodies. */
    method Display()
      requires Valid()
      modifies solarSystem.Bodies()`revolutionAngle, solarSystem.Bodies()`rotationAngle
      ensures Valid()
      ensures forall b :: b in solarSystem.Bodies() ==>
                b.CurrentAngles() == Tick(old(b.CurrentAngles()), b.Speeds(), timeSpeed)
    {
      var planets := solarSystem.planets;
      ghost var moonLists := MoonLists(planets);
      ValidIsDisjoint(solarSystem);
      assert Family(planets, moonLists) == solarSystem.Bodies() by {
        FamilyIsBodies(solarSystem, moonLists);
      }
      AdvanceFamilies(planets, moonLists, timeSpeed);
    }

    /** The mouse-button callback follows `Controls.Mouse`; the scene and the
        time speed are untouched. */
    method Mouse(button: int, state: int, x: int, y: int)
      requires Valid()
      modifies solarSystem`mouseDragging, solarSystem`lastMouseX, solarSystem`lastMouseY,
               solarSystem`cameraDistance
      ensures Valid()
      ensures ControlState() == Controls.Mouse(old(ControlState()), button, state, x, y)
    {
      if button == Controls.LeftButton {
        if state == Controls.ButtonDown {
          solarSystem.mouseDragging := true;
          solarSystem.lastMouseX := x;
          solarSystem.lastMouseY := y;
        } else {
          solarSystem.mouseDragging := false;
        }
      } else if button == Controls.WheelIn {
        solarSystem.cameraDistance := Controls.Max(Controls.MinDistance, solarSystem.cameraDistance - Controls.ZoomStep);
      } else if button == Controls.WheelOut {
        solarSystem.cameraDistance := Controls.Min(Controls.MaxDistance, solarSystem.cameraDistance + Controls.ZoomStep);
      }
    }

    /** The mouse-motion callback follows `Controls.Motion`. */
    method Motion(x: int, y: int)
      requires Valid()
      modifies solarSystem`cameraAngleX, solarSystem`cameraAngleY, solarSystem`lastMouseX, solarSystem`lastMouseY
      ensures Valid()
      ensures ControlState() == Controls.Motion(old(ControlState()), x, y)
    {
      if solarSystem.mouseDragging {
        var dx := x - solarSystem.lastMouseX;
        var dy := y - solarSystem.lastMouseY;

        solarSystem.cameraAngleX := solarSystem.cameraAngleX + dx as real * Controls.DragScale;
        solarSystem.cameraAngleY := solarSystem.cameraAngleY + dy as real * Controls.DragScale;
        solarSystem.cameraAngleY := Controls.Max(-Controls.PitchLimit, Controls.Min(Controls.PitchLimit, solarSystem.cameraAngleY));

        solarSystem.lastMouseX := x;
        solarSystem.lastMouseY := y;
      }
    }

    /** The keyboard callback follows `Controls.Keyboard`: it reports a quit
        key instead of ending the process, and changes nothing then. */
    method Keyboard(key: char) returns (quit: bool)
      requires Valid()
      modifies this`timeSpeed, solarSystem`cameraDistance, solarSystem`cameraAngleX, solarSystem`cameraAngleY
      ensures Valid()
      ensures quit <==> Controls.Keyboard(old(ControlState()), key).Quit?
      ensures quit ==> ControlState() == old(ControlState())
      ensures !quit ==> ControlState() == Controls.Keyboard(old(ControlState()), key).next
    {
      var k := Controls.Lower(key);
      quit := false;
      if k == 'q' || k == Controls.Escape {
        quit := true;
      } else if k == '+' {
        timeSpeed := timeSpeed * Controls.SpeedFactor;
      } else if k == '-' {
        timeSpeed := timeSpeed / Controls.SpeedFactor;
      } else if k == 'r' {
        timeSpeed := 1.0;
        solarSystem.cameraDistance := Controls.HomeDistance;
        solarSystem.cameraAngleX := 0.0;
        solarSystem.cameraAngleY := 0.0;
      }
    }
  }

  /** Start-up as the entry point does it, then one `+` key press and one
      frame: time runs at 1.5, so mercury (revolution speed 1.5) has moved
      1.5 x 0.1 x 1.5 degrees along its orbit and the sun not at all. */
  method SpeedUpThenFrame() returns (mercuryRevolution: real, sunRevolution: real)
    ensures mercuryRevolution == 0.225
    ensures sunRevolution == 0.0
  {
    var simulation := new Simulation();
    var quit := simulation.Keyboard('+');
    assert simulation.timeSpeed == 1.5;
    assert simulation.solarSystem.HoldsCatalogue();
    ghost var mercury, sun := simulation.solarSystem.planets[1], simulation.solarSystem.planets[0];
    assert mercury.Spec() == MercurySpec && sun.Spec() == SunSpec;
    assert mercury.CurrentAngles() == AtRest && sun.CurrentAngles() == AtRest;
    assert mercury in simulation.solarSystem.Members() && sun in simulation.solarSystem.Members();
    simulation.Display();
    mercuryRevolution := simulation.solarSystem.planets[1].revolutionAngle;
    sunRevolution := simulation.solarSystem.planets[0].revolutionAngle;
  }

  /** The moon list of each body, as one value. */
  ghost function MoonLists(planets: seq<Planet>): (lists: seq<seq<Planet>>)
    reads (set p | p in planets)`moons
    ensures |lists| == |planets|
    ensures forall k :: 0 <= k < |planets| ==> lists[k] == planets[k].moons
  {
    if planets == [] then [] else [planets[0].moons] + MoonLists(planets[1..])
  }

  /** No body appears twice among the top-level bodies and their moon
      lists. */
  ghost predicate Disjoint(planets: seq<Planet>, moonLists: seq<seq<Planet>>)
    requires |planets| == |moonLists|
  {
    && (forall i, j :: 0 <= i < j < |planets| ==> planets[i] != planets[j])
    && (forall i, j :: 0 <= i < |planets| && 0 <= j < |planets| ==> planets[i] !in moonLists[j])
    && (forall i, j, m :: 0 <= i < j < |planets| && m in moonLists[i] ==> m !in moonLists[j])
    && (forall i, a, b :: 0 <= i < |planets| && 0 <= a < b < |moonLists[i]| ==> moonLists[i][a] != moonLists[i][b])
  }

  /** A valid scene's bodies and moon lists are disjoint. */
  lemma ValidIsDisjoint(s: SolarSystem)
    requires s.Valid()
    ensures Disjoint(s.planets, MoonLists(s.planets))
  {
    var ps, ms := s.planets, MoonLists(s.planets);
    forall i, j | 0 <= i < |ps| && 0 <= j < |ps| ensures ps[i] !in ms[j] {
      assert ps[j] in ps;
    }
    forall i, a, b | 0 <= i < |ps| && 0 <= a < b < |ms[i]| ensures ms[i][a] != ms[i][b] {
      assert ps[i] in ps;
    }
  }

  /** The bodies listed and all their moons. */
  ghost function Family(planets: seq<Planet>, moonLists: seq<seq<Planet>>): set<Planet>
  {
    (set p | p in planets) + (set ms, m | ms in moonLists && m in ms :: m)
  }

  /** A scene's bodies are its top-level bodies and their moon lists. */
  lemma FamilyIsBodies(s: SolarSystem, moonLists: seq<seq<Planet>>)
    requires |s.planets| == |moonLists|
    requires forall k :: 0 <= k < |s.planets| ==> moonLists[k] == s.planets[k].moons
    ensures Family(s.planets, moonLists) == s.Bodies()
  {
    forall b | b in s.Bodies() ensures b in Family(s.planets, moonLists) {
      if b !in s.planets {
        var p :| p in s.planets && b in p.moons;
        var k :| 0 <= k < |s.planets| && s.planets[k] == p;
        assert moonLists[k] in moonLists;
      }
    }
    forall b | b in Family(s.planets, moonLists) ensures b in s.Bodies() {
      if b !in s.planets {
        var ms :| ms in moonLists && b in ms;
        var k :| 0 <= k < |moonLists| && moonLists[k] == ms;
        assert s.planets[k] in s.planets;
      }
    }
  }

  /** The frame loop: each listed body and then its moons advance one frame,
      so every body of the families advances exactly once. */
  method AdvanceFamilies(planets: seq<Planet>, ghost moonLists: seq<seq<Planet>>, timeSpeed: real)
    requires |planets| == |moonLists| && Disjoint(planets, moonLists)
    requires forall k :: 0 <= k < |planets| ==> planets[k].moons == moonLists[k]
    modifies Family(planets, moonLists)`revolutionAngle, Family(planets, moonLists)`rotationAngle
    ensures forall b :: b in Family(planets, moonLists) ==>
              b.CurrentAngles() == Tick(old(b.CurrentAngles()), b.Speeds(), timeSpeed)
  {
    for i := 0 to |planets|
      invariant forall k :: 0 <= k < |planets| ==>
                  planets[k].CurrentAngles() == if k < i then Tick(old(planets[k].CurrentAngles()), planets[k].Speeds(), timeSpeed)
                                                else old(planets[k].CurrentAngles())
      invariant forall k, m: Planet :: 0 <= k < |planets| && m in moonLists[k] ==>
                  m.CurrentAngles() == if k < i then Tick(old(m.CurrentAngles()), m.Speeds(), timeSpeed)
                                       else old(m.CurrentAngles())
    {
      var planet := planets[i];
      assert planet in planets && moonLists[i] in moonLists;
      planet.AdvanceWithMoons(timeSpeed);
    }
    forall b | b in Family(planets, moonLists)
      ensures b.CurrentAngles() == Tick(old(b.CurrentAngles()), b.Speeds(), timeSpeed)
    {
      if b !in planets {
        var ms :| ms in moonLists && b in ms;
        var k :| 0 <= k < |moonLists| && moonLists[k] == ms;
      }
    }
  }
}
