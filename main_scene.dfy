/**
 * The control state of gwo_viz's main scene: the run parameters typed into
 * the control panel, the index of the iteration on display, the target
 * marker and its two-colour flashing. Each widget of the panel is one
 * transition method; the widgets themselves are not modelled. The source's
 * scene derives from the corex scene; here it owns one.
 */
module MainScene {
  import opened CorexMath
  import opened CoreScene

  /** `ent_bestSol`, which starts as `entt::null`. */
  datatype EntityHandle = NullEntity | Handle(id: Entity)

  /** The one distinction `handleWindowEvents` makes. */
  datatype WindowEventKind = WindowClose | OtherWindowEvent

  const PrimaryColour: Colour := Colour(12, 104, 47, 255)
  const SecondaryColour: Colour := Colour(19, 148, 68, 255)
  const AxesColour: Colour := Colour(64, 64, 64, 255)

  /** The marker switches colour once more than half a second has accumulated. */
  const FlashPeriod: real := 0.5

  class MainScene {
    const regionWidth: real := 750.0
    const regionHeight: real := 550.0
    const coordOrigin: Point := Point(15.0, 15.0)
    const scene: Scene

    var entBestSol: EntityHandle
    var numIterations: int
    var numWolves: int
    var currIterDisplayed: int

    // The function-static state of `flashBestSolPosition`, kept per scene.
    var accumTime: real
    var isInPrimaryColour: bool

    /** Once there is at least one iteration, the displayed index lies in [0, numIterations). */
    ghost predicate DisplayIndexInRange()
      reads this
    {
      numIterations >= 1 ==> 0 <= currIterDisplayed < numIterations
    }

    ghost predicate Valid()
      reads this, scene
    {
      scene.Valid() &&
      (entBestSol.Handle? ==> entBestSol.id in scene.circles && entBestSol.id in scene.positions) &&
      DisplayIndexInRange()
    }

    constructor (initialStatus: SceneStatus)
      ensures Valid() && fresh(scene)
      ensures entBestSol == NullEntity
      ensures numIterations == 0 && numWolves == 0 && currIterDisplayed == 0
      ensures accumTime == 0.0 && !isInPrimaryColour
      ensures scene.entities == [] && scene.status == initialStatus
      ensures scene.properties == map[] && scene.positions == map[] && scene.renderables == map[]
      ensures scene.circles == map[] && scene.lineSegments == map[]
      ensures forall i :: 0 <= i < NumLayers ==> scene.layerAvailabilityStatuses[i]
      ensures forall i :: 0 <= i < NumSortingLayers ==> scene.sortingLayerAvailabilityStatuses[i]
    {
      entBestSol := NullEntity;
      numIterations := 0;
      numWolves := 0;
      currIterDisplayed := 0;
      accumTime := 0.0;
      isInPrimaryColour := false;
      scene := new Scene(initialStatus);
    }

    /** `init`: the two axes as line segments, and the target marker as a filled circle at the origin. */
    method Init()
      requires Valid()
      modifies this`entBestSol, scene`entities, scene`properties, scene`nextEntity,
               scene`positions, scene`renderables, scene`lineSegments, scene`circles
      ensures Valid()
      ensures |scene.entities| == |old(scene.entities)| + 2
      ensures entBestSol.Handle? && entBestSol.id == scene.entities[|scene.entities| - 1]
      ensures scene.circles[entBestSol.id] == RenderCircle(5.0, PrimaryColour, true)
      ensures scene.positions[entBestSol.id] == Position(coordOrigin.x, coordOrigin.y, 0.0, 1)
      ensures var axes, m := scene.entities[|scene.entities| - 2], entBestSol.id;
        axes !in old(scene.properties) && m !in old(scene.properties) && axes != m &&
        scene.entities == old(scene.entities) + [axes, m] &&
        scene.properties == old(scene.properties)[axes := EntitySceneProperty(1, 1)][m := EntitySceneProperty(1, 1)] &&
        scene.positions == old(scene.positions)[axes := Position(0.0, 0.0, 0.0, 1)][m := Position(coordOrigin.x, coordOrigin.y, 0.0, 1)] &&
        scene.renderables == old(scene.renderables)[axes := LineSegments][m := PrimitiveCircle] &&
        scene.lineSegments == old(scene.lineSegments)[axes := RenderLineSegments(AxesPoints(), AxesColour)] &&
        scene.circles == old(scene.circles)[m := RenderCircle(5.0, PrimaryColour, true)]
    {
      var axes := scene.CreateLineSegmentsEntity(0.0, AxesPoints(), AxesColour, 1);
      ghost var mid := scene.properties;
      var e := scene.CreateCircleEntity(coordOrigin.x, coordOrigin.y, 0.0, 5.0, true, PrimaryColour, 1);
      assert axes in mid && e !in mid;
      entBestSol := Handle(e);
    }

    /** The axes polyline: the top of the y axis, the origin, the end of the x axis. */
    function AxesPoints(): (pts: seq<Point>)
      ensures |pts| == 3 && pts[1] == coordOrigin
      ensures pts[0] == Point(coordOrigin.x, coordOrigin.y + regionHeight)
      ensures pts[2] == Point(coordOrigin.x + regionWidth, coordOrigin.y)
    {
      [Point(coordOrigin.x, coordOrigin.y + regionHeight), coordOrigin, Point(coordOrigin.x + regionWidth, coordOrigin.y)]
    }

    /**
     * `flashBestSolPosition`: time accumulates; once past half a second the
     * marker takes the other colour (primary first, as the flag starts false)
     * and the accumulator restarts from 0.
     */
    method FlashBestSolPosition(timeDelta: real)
      requires Valid() && entBestSol.Handle?
      modifies this`accumTime, this`isInPrimaryColour, scene`circles
      ensures Valid()
      ensures var e, acc := entBestSol.id, old(accumTime) + timeDelta;
        if acc > FlashPeriod then
          accumTime == 0.0 && isInPrimaryColour == !old(isInPrimaryColour) &&
          scene.circles == old(scene.circles)[e := old(scene.circles)[e].(colour :=
            if old(isInPrimaryColour) then SecondaryColour else PrimaryColour)] &&
          scene.circles[e].colour == (if isInPrimaryColour then PrimaryColour else SecondaryColour)
        else
          accumTime == acc && isInPrimaryColour == old(isInPrimaryColour) && scene.circles == old(scene.circles)
    {
      accumTime := accumTime + timeDelta;
      if accumTime > FlashPeriod {
        var e := entBestSol.id;
        var circle := scene.circles[e];
        if isInPrimaryColour {
          scene.circles := scene.circles[e := circle.(colour := SecondaryColour)];
          isInPrimaryColour := false;
        } else {
          scene.circles := scene.circles[e := circle.(colour := PrimaryColour)];
          isInPrimaryColour := true;
        }
        accumTime := 0.0;
      }
    }

    /**
     * "Generate Best Position": the marker moves to a point drawn with x in
     * [coordOrigin.x, regionWidth] and y in [coordOrigin.y, regionHeight];
     * `u` and `v` are the two draws of the random source.
     */
    method GenerateBestPosition(u: real, v: real)
      requires Valid() && entBestSol.Handle?
      modifies scene`positions
      ensures Valid()
      ensures var e := entBestSol.id;
        scene.positions == old(scene.positions)[e := old(scene.positions)[e].(
          x := Uniform(coordOrigin.x, regionWidth, u), y := Uniform(coordOrigin.y, regionHeight, v))]
      ensures IsUnitDraw(u) && IsUnitDraw(v) ==>
        var p := scene.positions[entBestSol.id];
        coordOrigin.x <= p.x <= regionWidth && coordOrigin.y <= p.y <= regionHeight
    {
      var e := entBestSol.id;
      var newX := Uniform(coordOrigin.x, regionWidth, u);
      var newY := Uniform(coordOrigin.y, regionHeight, v);
      scene.positions := scene.positions[e := scene.positions[e].(x := newX, y := newY)];
      if IsUnitDraw(u) && IsUnitDraw(v) {
        UniformInRange(coordOrigin.x, regionWidth, u);
        UniformInRange(coordOrigin.y, regionHeight, v);
      }
    }

    /** "No. of Iterations" edited: the displayed index is clamped into [0, value - 1]. */
    method EditNumIterations(value: int)
      requires Valid()
      modifies this`numIterations, this`currIterDisplayed
      ensures Valid()
      ensures numIterations == value
      ensures currIterDisplayed == Clamp(old(currIterDisplayed), 0, value - 1)
      ensures value >= 1 ==> 0 <= currIterDisplayed <= value - 1 &&
                             (0 <= old(currIterDisplayed) < value <==> currIterDisplayed == old(currIterDisplayed))
    {
      numIterations := value;
      currIterDisplayed := Clamp(currIterDisplayed, 0, numIterations - 1);
      if value >= 1 {
        ClampRange(old(currIterDisplayed), 0, value - 1);
      }
    }

    /** "No. of Wolves" edited: the value is stored as typed. */
    method EditNumWolves(value: int)
      modifies this`numWolves
      ensures numWolves == value
    {
      numWolves := value;
    }

    /** The displayed index typed in: it is clamped into [0, numIterations - 1]. */
    method EditIterDisplayed(value: int)
      requires Valid()
      modifies this`currIterDisplayed
      ensures Valid()
      ensures currIterDisplayed == Clamp(value, 0, numIterations - 1)
      ensures numIterations >= 1 ==> (0 <= value < numIterations <==> currIterDisplayed == value)
    {
      currIterDisplayed := Clamp(value, 0, numIterations - 1);
      if numIterations >= 1 {
        ClampRange(value, 0, numIterations - 1);
      }
    }

    /** The "<" button: one iteration back, wrapping from 0 to the last; nothing happens without iterations. */
    method StepBackward()
      requires Valid()
      modifies this`currIterDisplayed
      ensures Valid()
      ensures numIterations > 0 ==> currIterDisplayed == Mod(old(currIterDisplayed) - 1, numIterations)
      ensures numIterations <= 0 ==> currIterDisplayed == old(currIterDisplayed)
    {
      if numIterations > 0 {
        currIterDisplayed := Mod(currIterDisplayed - 1, numIterations);
      }
    }

    /** The ">" button: one iteration forward, wrapping from the last to 0; nothing happens without iterations. */
    method StepForward()
      requires Valid()
      modifies this`currIterDisplayed
      ensures Valid()
      ensures numIterations > 0 ==> currIterDisplayed == Mod(old(currIterDisplayed) + 1, numIterations)
      ensures numIterations <= 0 ==> currIterDisplayed == old(currIterDisplayed)
    {
      if numIterations > 0 {
        currIterDisplayed := Mod(currIterDisplayed + 1, numIterations);
      }
    }

    /** `handleWindowEvents`: a close event marks the scene done; nothing else changes. */
    method HandleWindowEvents(kind: WindowEventKind)
      requires Valid()
      modifies scene`status
      ensures Valid()
      ensures scene.status == if kind == WindowClose then Done else old(scene.status)
    {
      if kind == WindowClose {
        scene.SetSceneStatus(Done);
      }
    }
  }

  /** Pressing "<" and then ">" shows the same iteration again. */
  method BackThenForwardRestoresIndex(numIterations: int, index: int) returns (shown: int)
    requires 0 <= index < numIterations
    ensures shown == index
  {
    var s := new MainScene(Running);
    s.EditNumIterations(numIterations);
    s.EditIterDisplayed(index);
    s.StepBackward();
    s.StepForward();
    BackThenForward(index, numIterations);
    shown := s.currIterDisplayed;
  }
}
