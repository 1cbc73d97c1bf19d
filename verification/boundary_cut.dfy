/** The boundary-cut tool: cuts a model along a border made of curves and
    plane boundaries, keeps the regions that contain the seed points, and
    colours each kept region with the number of the seed that selected it. */
module BoundaryCut {
  import opened Wrappers
  import opened Geometry
  import opened Shapes
  import opened Scene
  import opened ModelerTool

  const InputBorderRole := "BoundaryCut.InputBorder"
  const InputModelRole := "BoundaryCut.InputModel"
  const InputSeedRole := "BoundaryCut.InputSeed"
  const OutputModelRole := "BoundaryCut.OutputModel"

  /** The tool as its constructor builds it. */
  function Prototype(): (t: Tool)
    ensures t.kind == BoundaryCutKind && ReportsOwnClass(t)
    ensures |t.info.inputs| == 3 && t.info.inputs[0].required && t.info.inputs[1].required
    ensures t.info.inputs[1].repeatable && !t.info.inputs[2].required && !t.info.inputs[2].repeatable
    ensures |t.info.outputs| == 1 && !t.info.outputs[0].required
    ensures t.info.outputs[0].referenceRole == OutputModelRole
    ensures t.info.parameters == []
  {
    var modelClass := ["vtkDMMLModelNode"];
    var markupEvents := [ModifiedEvent, PointModifiedEvent, TransformModifiedEvent];
    Tool(BoundaryCutKind, KindClassName(BoundaryCutKind), "Boundary cut", Descriptor(
      [ NodeInfo("Model node", modelClass, InputModelRole, true, false,
                 [ModifiedEvent, MeshModifiedEvent, TransformModifiedEvent]),
        NodeInfo("Border node", ["vtkDMMLMarkupsCurveNode", "vtkDMMLMarkupsPlaneNode"], InputBorderRole, true, true, markupEvents),
        NodeInfo("Seed point node", ["vtkDMMLMarkupsFiducialNode"], InputSeedRole, false, false, markupEvents) ],
      [ NodeInfo("Model node", modelClass, OutputModelRole, false, false, []) ],
      []))
  }


  /** The geometric queries the tool delegates to VTK: the number of points on
      the boundary strips of the part of a mesh beyond a plane, the closest
      point of a mesh to a position, the cell region ids a region colouring
      produces (absent when it produces none), and the closest cell. */
  datatype Locators = Locators(
    planeBorderPointCount: (Shape, Plane) -> nat,
    closestPointId: (Shape, Vec3) -> int,
    regionIds: Shape -> Option<seq<int>>,
    closestCellId: (Shape, Vec3) -> int)

  // ---------------------------------------------------------------------
  // Border

  /** The line a border reference contributes, or `None` when it is skipped:
      an invalid plane, or a curve without curve points. A reference that is
      neither a plane nor a curve (an unresolved one included) contributes an
      empty line. */
  function BorderLineOf(scene: Scene, world: Shape, id: NodeId): Option<BorderLine> {
    if id !in scene then Some(NoLine)
    else
      match scene[id].kind
      case MarkupsPlane(plane, valid) => if valid then Some(PlaneBoundary(world, plane)) else None
      case MarkupsCurve(_, curvePoints) => if curvePoints.None? then None else Some(Polyline(curvePoints.value))
      case _ => Some(NoLine)
  }

  /** The lines of all border references, in reference order, skipped ones left out. */
  function BorderLines(scene: Scene, world: Shape, ids: seq<NodeId>): (lines: seq<BorderLine>)
    ensures |lines| <= |ids|
    ensures forall l :: l in lines <==> exists i :: 0 <= i < |ids| && BorderLineOf(scene, world, ids[i]) == Some(l)
  {
    if |ids| == 0 then []
    else
      var rest := BorderLines(scene, world, ids[1..]);
      assert forall i :: 1 <= i < |ids| ==> ids[i] == ids[1..][i - 1];
      assert forall l :: (exists i :: 0 <= i < |ids[1..]| && BorderLineOf(scene, world, ids[1..][i]) == Some(l))
                     ==> (exists i :: 0 <= i < |ids| && BorderLineOf(scene, world, ids[i]) == Some(l)) by {
        forall l | exists i :: 0 <= i < |ids[1..]| && BorderLineOf(scene, world, ids[1..][i]) == Some(l)
          ensures exists i :: 0 <= i < |ids| && BorderLineOf(scene, world, ids[i]) == Some(l)
        {
          var i :| 0 <= i < |ids[1..]| && BorderLineOf(scene, world, ids[1..][i]) == Some(l);
          assert BorderLineOf(scene, world, ids[i + 1]) == Some(l);
        }
      }
      match BorderLineOf(scene, world, ids[0])
      case None => rest
      case Some(l) => [l] + rest
  }

  function LinePointCount(line: BorderLine, loc: Locators): nat {
    match line
    case PlaneBoundary(mesh, plane) => loc.planeBorderPointCount(mesh, plane)
    case Polyline(points) => |points|
    case NoLine => 0
  }

  /** The number of border points. Cleaning merges coincident points, which
      never empties a non-empty point set, so the count is zero exactly when
      the cleaned border is empty. */
  function BorderPointCount(lines: seq<BorderLine>, loc: Locators): (n: nat)
    ensures n == 0 <==> forall i :: 0 <= i < |lines| ==> LinePointCount(lines[i], loc) == 0
  {
    if |lines| == 0 then 0
    else
      var rest := BorderPointCount(lines[1..], loc);
      assert forall i :: 1 <= i < |lines| ==> lines[i] == lines[1..][i - 1];
      LinePointCount(lines[0], loc) + rest
  }

  // ---------------------------------------------------------------------
  // Seeds

  function Sum(ps: seq<Vec3>): Vec3 {
    if |ps| == 0 then Zero else Add(ps[0], Sum(ps[1..]))
  }

  /** The sum of every point scaled by k, accumulated one point at a time as
      the source does. */
  function SumScaled(ps: seq<Vec3>, k: real): Vec3 {
    if |ps| == 0 then Zero else Add(Scale(ps[0], k), SumScaled(ps[1..], k))
  }

  lemma {:induction false} SumScaledIsScaledSum(ps: seq<Vec3>, k: real)
    ensures SumScaled(ps, k) == Scale(Sum(ps), k)
    decreases |ps|
  {
    if |ps| > 0 {
      SumScaledIsScaledSum(ps[1..], k);
      var a := ps[0];
      var b := Sum(ps[1..]);
      assert (a.x + b.x) * k == a.x * k + b.x * k;
      assert (a.y + b.y) * k == a.y * k + b.y * k;
      assert (a.z + b.z) * k == a.z * k + b.z * k;
    }
  }

  /** The centre of a border node: a plane's origin (valid or not), the mean
      of a curve's control points, and the zero vector for anything else. */
  function Centre(scene: Scene, id: NodeId): Vec3 {
    if id !in scene then Zero
    else
      match scene[id].kind
      case MarkupsPlane(plane, _) => plane.origin
      case MarkupsCurve(controlPoints, _) =>
        if |controlPoints| == 0 then Zero else SumScaled(controlPoints, 1.0 / (|controlPoints| as real))
      case _ => Zero
  }

  function Centres(scene: Scene, ids: seq<NodeId>): (cs: seq<Vec3>)
    ensures |cs| == |ids| && forall i :: 0 <= i < |ids| ==> cs[i] == Centre(scene, ids[i])
  {
    seq(|ids|, i requires 0 <= i < |ids| => Centre(scene, ids[i]))
  }

  /** `GetDefaultSeedPoint`: each border's centre divided by the number of
      border references, summed. */
  function DefaultSeedPoint(node: ParameterNode, scene: Scene): Vec3 {
    var ids := ReferenceIds(node, InputBorderRole);
    if |ids| == 0 then Zero else SumScaled(Centres(scene, ids), 1.0 / (|ids| as real))
  }

  /** Scaling by the count undoes the division: k * (x / k) == x. */
  lemma ScaleBack(v: Vec3, n: real)
    requires n > 0.0
    ensures Scale(Scale(v, 1.0 / n), n) == v
  {
    assert v.x * (1.0 / n) * n == v.x;
    assert v.y * (1.0 / n) * n == v.y;
    assert v.z * (1.0 / n) * n == v.z;
  }

  /** A curve's centre is the mean of its control points. */
  lemma CurveCentreIsMean(points: seq<Vec3>)
    requires |points| > 0
    ensures var c := SumScaled(points, 1.0 / (|points| as real));
      Scale(c, |points| as real) == Sum(points)
  {
    SumScaledIsScaledSum(points, 1.0 / (|points| as real));
    ScaleBack(Sum(points), |points| as real);
  }

  /** The default seed is the mean of the border centres. */
  lemma DefaultSeedIsMeanOfCentres(node: ParameterNode, scene: Scene)
    requires NumberOfReferences(node, InputBorderRole) > 0
    ensures var ids := ReferenceIds(node, InputBorderRole);
      Scale(DefaultSeedPoint(node, scene), |ids| as real) == Sum(Centres(scene, ids))
  {
    var ids := ReferenceIds(node, InputBorderRole);
    SumScaledIsScaledSum(Centres(scene, ids), 1.0 / (|ids| as real));
    ScaleBack(Sum(Centres(scene, ids)), |ids| as real);
  }

  /** `GetSeedPoints`: the control points of the first seed reference when it
      is a point list with at least one point, else the single default seed. */
  function SeedPoints(node: ParameterNode, scene: Scene): (seeds: seq<Vec3>)
    ensures |seeds| >= 1
    ensures match FirstReference(scene, node, InputSeedRole)
      case Some(id) =>
        (scene[id].kind.MarkupsFiducial? && |scene[id].kind.controlPoints| > 0 ==> seeds == scene[id].kind.controlPoints)
        && (!scene[id].kind.MarkupsFiducial? || |scene[id].kind.controlPoints| == 0 ==> seeds == [DefaultSeedPoint(node, scene)])
      case None => seeds == [DefaultSeedPoint(node, scene)]
  {
    var seed := FirstReference(scene, node, InputSeedRole);
    if seed.Some? && scene[seed.value].kind.MarkupsFiducial? && |scene[seed.value].kind.controlPoints| > 0 then
      scene[seed.value].kind.controlPoints
    else [DefaultSeedPoint(node, scene)]
  }

  // ---------------------------------------------------------------------
  // Region recolouring

  /** Seed i claims region id `oldId`: its closest cell is a valid cell other
      than cell 0, and that cell's region id is `oldId`. A cell id past the end
      of the region array claims nothing. */
  predicate ClaimsId(regions: seq<int>, cellIds: seq<int>, i: nat, oldId: int) {
    i < |cellIds| && 0 < cellIds[i] < |regions| && regions[cellIds[i]] == oldId
  }

  /** The last of the first n seeds that claims `oldId`. */
  function LastClaimant(regions: seq<int>, cellIds: seq<int>, oldId: int, n: nat): (r: Option<nat>)
    requires n <= |cellIds|
    ensures r.Some? ==> r.value < n && ClaimsId(regions, cellIds, r.value, oldId)
    ensures r.Some? ==> forall j :: r.value < j < n ==> !ClaimsId(regions, cellIds, j, oldId)
    ensures r.None? ==> forall j :: 0 <= j < n ==> !ClaimsId(regions, cellIds, j, oldId)
  {
    if n == 0 then None
    else if ClaimsId(regions, cellIds, n - 1, oldId) then Some(n - 1)
    else LastClaimant(regions, cellIds, oldId, n - 1)
  }

  /** The new id of region `oldId`: the number (index + 1) of the last seed
      claiming it, or 0 when no seed does. */
  function RecolouredId(regions: seq<int>, cellIds: seq<int>, oldId: int): int {
    match LastClaimant(regions, cellIds, oldId, |cellIds|)
    case None => 0
    case Some(i) => i + 1
  }

  function Recolour(regions: seq<int>, cellIds: seq<int>): (r: seq<int>)
    ensures |r| == |regions|
  {
    seq(|regions|, k requires 0 <= k < |regions| => RecolouredId(regions, cellIds, regions[k]))
  }

  /** `ColorOutputRegions` over the cell region array and the closest cell of
      each seed: a map from oldId to new region id is filled seed by seed, later
      seeds overwriting earlier ones, then every cell's id is replaced by its
      mapped id, or 0 when unmapped. */
  method ColorOutputRegions(regions: seq<int>, cellIds: seq<int>) returns (recoloured: seq<int>)
    ensures recoloured == Recolour(regions, cellIds)
  {
    var regionMap: map<int, int> := map[];
    var i := 0;
    while i < |cellIds|
      invariant 0 <= i <= |cellIds|
      invariant forall oldId :: oldId in regionMap <==> LastClaimant(regions, cellIds, oldId, i).Some?
      invariant forall oldId :: oldId in regionMap ==> regionMap[oldId] == LastClaimant(regions, cellIds, oldId, i).value + 1
    {
      var cellId := cellIds[i];
      if 0 < cellId < |regions| {
        regionMap := regionMap[regions[cellId] := i + 1];
      }
      i := i + 1;
    }
    recoloured := [];
    var k := 0;
    while k < |regions|
      invariant 0 <= k <= |regions| && |recoloured| == k
      invariant forall j :: 0 <= j < k ==> recoloured[j] == RecolouredId(regions, cellIds, regions[j])
    {
      var oldId := regions[k];
      if oldId in regionMap {
        recoloured := recoloured + [regionMap[oldId]];
      } else {
        recoloured := recoloured + [0];
      }
      k := k + 1;
    }
  }

  /** Every new id is 0 or a seed number 1..|seeds|. */
  lemma RecolouredRange(regions: seq<int>, cellIds: seq<int>)
    ensures forall k :: 0 <= k < |regions| ==> 0 <= Recolour(regions, cellIds)[k] <= |cellIds|
  {
  }

  /** The new id depends only on the oldId id. */
  lemma SameOldSameNew(regions: seq<int>, cellIds: seq<int>, a: nat, b: nat)
    requires a < |regions| && b < |regions| && regions[a] == regions[b]
    ensures Recolour(regions, cellIds)[a] == Recolour(regions, cellIds)[b]
  {
  }

  /** A cell gets seed number i + 1 exactly when seed i claims its region and
      no later seed does; it gets 0 exactly when no seed claims its region. */
  lemma LastSeedWins(regions: seq<int>, cellIds: seq<int>, k: nat, i: nat)
    requires k < |regions|
    ensures Recolour(regions, cellIds)[k] == i + 1 <==>
      ClaimsId(regions, cellIds, i, regions[k]) &&
      forall j :: i < j < |cellIds| ==> !ClaimsId(regions, cellIds, j, regions[k])
    ensures Recolour(regions, cellIds)[k] == 0 <==>
      forall j :: 0 <= j < |cellIds| ==> !ClaimsId(regions, cellIds, j, regions[k])
  {
    var r := LastClaimant(regions, cellIds, regions[k], |cellIds|);
  }

  /** A seed whose closest cell id is not positive claims nothing: no cell
      gets its number. */
  lemma NonPositiveCellIgnored(regions: seq<int>, cellIds: seq<int>, i: nat)
    requires i < |cellIds| && cellIds[i] <= 0
    ensures forall k :: 0 <= k < |regions| ==> Recolour(regions, cellIds)[k] != i + 1
  {
    forall k | 0 <= k < |regions| ensures Recolour(regions, cellIds)[k] != i + 1 {
      LastSeedWins(regions, cellIds, k, i);
    }
  }

  // ---------------------------------------------------------------------
  // Run

  function OutputModel(node: ParameterNode, scene: Scene): Option<ModelView> {
    AsModel(scene, FirstReference(scene, node, OutputModelRole))
  }

  function InputModel(node: ParameterNode, scene: Scene): Option<ModelView> {
    AsModel(scene, FirstReference(scene, node, InputModelRole))
  }

  /** The world-frame input mesh of a run that got past the early exits. */
  function WorldMesh(model: ModelView): Shape
    requires model.mesh.Some?
  {
    Framed(Cleaned(model.mesh.value.shape), ToWorld(model.parent))
  }

  function Lines(node: ParameterNode, scene: Scene, world: Shape): seq<BorderLine> {
    BorderLines(scene, world, ReferenceIds(node, InputBorderRole))
  }

  /** The regions of the cut mesh seeded from the seed points and coloured;
      the cell region ids renumbered by seed when the colouring yields them. */
  function SeededOutput(world: Shape, lines: seq<BorderLine>, seeds: seq<Vec3>, loc: Locators): Shape {
    var distance := BorderDistance(lines);
    var located := Clip(world, distance, Kept);
    var pointIds := seq(|seeds|, i requires 0 <= i < |seeds| => loc.closestPointId(located, seeds[i]));
    var coloured := ColouredRegions(SeededRegions(Clip(world, distance, ClippedAway), pointIds));
    match loc.regionIds(coloured)
    case None => coloured
    case Some(regions) =>
      var cellIds := seq(|seeds|, i requires 0 <= i < |seeds| => loc.closestCellId(coloured, seeds[i]));
      RegionIdsSet(coloured, Recolour(regions, cellIds))
  }

  /** `RunInternal`. It fails when a required input is missing or the border
      has no point; it succeeds without writing when there is no output model,
      no input model, or an input mesh without points; otherwise it writes the
      output model once. */
  function RunInternal(node: ParameterNode, scene: Scene, loc: Locators): (r: RunResult)
    ensures !HasRequiredInputs(Prototype(), node, scene) ==> r == RunResult(false, [])
    ensures HasRequiredInputs(Prototype(), node, scene)
            && (OutputModel(node, scene).None? || InputModel(node, scene).None? || NoPoints(InputModel(node, scene).value.mesh))
            ==> r == RunResult(true, [])
    ensures HasRequiredInputs(Prototype(), node, scene) && OutputModel(node, scene).Some?
            && InputModel(node, scene).Some? && !NoPoints(InputModel(node, scene).value.mesh) ==>
      var world := WorldMesh(InputModel(node, scene).value);
      && (r.success <==> BorderPointCount(Lines(node, scene, world), loc) > 0)
      && (r.success ==> |r.writes| == 1 && r.writes[0].SetMesh? && r.writes[0].target == OutputModel(node, scene).value.id)
    ensures !r.success ==> r.writes == []
  {
    if !HasRequiredInputs(Prototype(), node, scene) then RunResult(false, [])
    else
      var output := OutputModel(node, scene);
      if output.None? then RunResult(true, [])
      else
        var model := InputModel(node, scene);
        if model.None? then RunResult(true, [])
        else if NoPoints(model.value.mesh) then RunResult(true, [])
        else
          var world := WorldMesh(model.value);
          var lines := Lines(node, scene, world);
          if BorderPointCount(lines, loc) == 0 then RunResult(false, [])
          else
            var seeded := SeededOutput(world, lines, SeedPoints(node, scene), loc);
            RunResult(true, [SetMesh(output.value.id, Framed(Cleaned(seeded), FromWorld(output.value.parent)))])
  }

  /** In a written output whose colouring yields region ids, every cell's id
      is 0 or the number of a seed point, and the array keeps its length. */
  lemma OutputRegionIdsAreSeedNumbers(node: ParameterNode, scene: Scene, loc: Locators)
    requires RunInternal(node, scene, loc).writes != []
    ensures var s := RunInternal(node, scene, loc).writes[0].shape;
      s.Framed? && s.source.Cleaned? &&
      (s.source.source.RegionIdsSet? ==>
        var ids := s.source.source.regionIds;
        && loc.regionIds(s.source.source.source).Some?
        && |ids| == |loc.regionIds(s.source.source.source).value|
        && forall k :: 0 <= k < |ids| ==> 0 <= ids[k] <= |SeedPoints(node, scene)|)
  {
    var model := InputModel(node, scene).value;
    var world := WorldMesh(model);
    var lines := Lines(node, scene, world);
    var seeds := SeedPoints(node, scene);
    var s := SeededOutput(world, lines, seeds, loc);
    if s.RegionIdsSet? {
      var regions := loc.regionIds(s.source).value;
      var cellIds := seq(|seeds|, i requires 0 <= i < |seeds| => loc.closestCellId(s.source, seeds[i]));
      RecolouredRange(regions, cellIds);
    }
  }
}
