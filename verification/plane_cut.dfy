/** The plane-cut tool: clips a model with one or more planes combined by a
    boolean operation, writes the part on the positive side of the combined
    function and/or the part on the negative side, and optionally closes each
    part with an end cap built from the planes' cross-sections. */
module PlaneCut {
  import opened Wrappers
  import opened Geometry
  import opened Variants
  import opened Shapes
  import opened Scene
  import opened ModelerTool

  const InputModelRole := "PlaneCut.InputModel"
  const InputPlaneRole := "PlaneCut.InputPlane"
  const OutputPositiveModelRole := "PlaneCut.OutputPositiveModel"
  const OutputNegativeModelRole := "PlaneCut.OutputNegativeModel"

  /** The tool as its constructor builds it. */
  function Prototype(): (t: Tool)
    ensures t.kind == PlaneCutKind && ReportsOwnClass(t)
    ensures |t.info.inputs| == 2 && t.info.inputs[0].required && t.info.inputs[1].required
    ensures !t.info.inputs[0].repeatable && t.info.inputs[1].repeatable
    ensures |t.info.outputs| == 2 && !t.info.outputs[0].required && !t.info.outputs[1].required
    ensures t.info.outputs[0].referenceRole == OutputPositiveModelRole
    ensures t.info.outputs[1].referenceRole == OutputNegativeModelRole
    ensures |t.info.parameters| == 2
  {
    var modelClass := ["vtkDMMLModelNode"];
    Tool(PlaneCutKind, KindClassName(PlaneCutKind), "Plane cut", Descriptor(
      [ NodeInfo("Model node", modelClass, InputModelRole, true, false,
                 [ModifiedEvent, MeshModifiedEvent, TransformModifiedEvent]),
        NodeInfo("Plane node", ["vtkDMMLMarkupsPlaneNode", "vtkDMMLSliceNode"], InputPlaneRole, true, true,
                 [ModifiedEvent, PointModifiedEvent, TransformModifiedEvent]) ],
      [ NodeInfo("Clipped output model (positive side)", modelClass, OutputPositiveModelRole, false, false, []),
        NodeInfo("Clipped output model (negative side)", modelClass, OutputNegativeModelRole, false, false, []) ],
      [ ParameterInfo("Cap surface", "CapSurface", ParameterBool, Bool(true), None),
        ParameterInfo("Operation type", "OperationType", ParameterStringEnum, Str("Union"),
                      Some(OperationNames)) ]))
  }

  // ---------------------------------------------------------------------
  // Parameters

  /** The enumeration's possible values, in the order the tool lists them. */
  const OperationNames: seq<string> := ["Union", "Intersection", "Difference"]

  function OperationName(op: Operation): string {
    match op
    case Union => "Union"
    case Intersection => "Intersection"
    case Difference => "Difference"
  }

  /** Text other than "Intersection" or "Difference" selects a union. */
  function ParseOperation(text: string): (op: Operation)
    ensures op == Intersection <==> text == "Intersection"
    ensures op == Difference <==> text == "Difference"
  {
    if text == "Intersection" then Intersection
    else if text == "Difference" then Difference
    else Union
  }

  /** Every possible value names a distinct operation and reads back as it;
      the listed values are exactly the operations' names. */
  lemma OperationRoundTrip(op: Operation)
    ensures ParseOperation(OperationName(op)) == op
    ensures OperationName(op) in OperationNames
    ensures forall i :: 0 <= i < |OperationNames| ==> OperationName(ParseOperation(OperationNames[i])) == OperationNames[i]
  {
  }

  /** The operation the node selects: its "OperationType" attribute, or the
      default "Union". */
  function OperationOf(node: ParameterNode): (op: Operation)
    ensures "OperationType" !in node.attrs ==> op == Union
    ensures "OperationType" in node.attrs ==> op == ParseOperation(node.attrs["OperationType"])
  {
    var v := NthInputParameterValue(Prototype(), 1, node);
    assert v.Str?;
    ParseOperation(v.s)
  }

  /** Whether end caps are built: the "CapSurface" parameter converted to a
      non-zero integer (the default is on). */
  function CapSurfaceOn(node: ParameterNode): (on: bool)
    ensures "CapSurface" !in node.attrs ==> on
    ensures "CapSurface" in node.attrs ==> (on <==> ToInt(Str(node.attrs["CapSurface"])) != 0)
  {
    IsOn(NthInputParameterValue(Prototype(), 0, node))
  }

  /** Writing an operation's name selects that operation; writing the check
      box's "1"/"0" turns the cap on/off. */
  lemma ParametersReadBack(node: ParameterNode, op: Operation, checked: bool)
    ensures OperationOf(node.(attrs := node.attrs["OperationType" := OperationName(op)])) == op
    ensures CapSurfaceOn(node.(attrs := node.attrs["CapSurface" := IntToString(if checked then 1 else 0)])) == checked
  {
    CheckBoxRoundTrip(checked);
  }

  // ---------------------------------------------------------------------
  // Planes

  /** The world planes of every plane reference, in reference order; null as
      soon as one reference is not a markups plane or slice (an unresolved
      reference included). */
  function PlanesOf(scene: Scene, ids: seq<NodeId>): (r: Option<seq<Plane>>)
    ensures r.Some? <==> forall i :: 0 <= i < |ids| ==> AsPlane(scene, Some(ids[i])).Some?
    ensures r.Some? ==> |r.value| == |ids|
    ensures r.Some? ==> forall i :: 0 <= i < |ids| ==> AsPlane(scene, Some(ids[i])) == Some(r.value[i])
  {
    if |ids| == 0 then Some([])
    else
      var rest := PlanesOf(scene, ids[1..]);
      assert forall i :: 1 <= i < |ids| ==> ids[i] == ids[1..][i - 1];
      match AsPlane(scene, Some(ids[0]))
      case None => None
      case Some(p) =>
        if rest.None? then None else Some([p] + rest.value)
  }

  // ---------------------------------------------------------------------
  // End cap

  /** The direction cap patch i faces: against the plane's normal, except for
      the subtracted planes (all but the first) of a difference. */
  function CapNormal(op: Operation, i: nat, normal: Vec3): (n: Vec3)
    ensures n == Neg(normal) || n == normal
    ensures n == normal <==> (op == Difference && i > 0) || normal == Zero
  {
    if op != Difference || i == 0 then Neg(normal) else normal
  }

  /** `CreateEndCap`: one patch per plane, in plane order, each wound to face
      its cap normal and carrying it as every point's normal. */
  function EndCap(planes: seq<Plane>, world: Shape, cut: Implicit): (cap: Shape)
    requires cut.Combined?
    ensures cap.Append? && |cap.parts| == |planes|
    ensures forall i :: 0 <= i < |planes| ==>
      var n := CapNormal(cut.op, i, planes[i].normal);
      cap.parts[i] == WithPointNormals(CapPatch(world, planes, i, cut, n), n)
  {
    Append(seq(|planes|, i requires 0 <= i < |planes| =>
      var n := CapNormal(cut.op, i, planes[i].normal);
      WithPointNormals(CapPatch(world, planes, i, cut, n), n)))
  }

  // ---------------------------------------------------------------------
  // Run

  /** One side of the cut, closed by the cap when there is one. */
  function Side(clipped: Shape, cap: Option<Shape>): Shape {
    if cap.None? then clipped else Append([clipped, cap.value])
  }

  function PositiveWrite(out: Option<ModelView>, world: Shape, cut: Implicit, cap: Option<Shape>): seq<MeshWrite> {
    if out.None? then []
    else [SetMesh(out.value.id, Framed(Side(Clip(world, cut, Kept), cap), FromWorld(out.value.parent)))]
  }

  function NegativeWrite(out: Option<ModelView>, world: Shape, cut: Implicit, cap: Option<Shape>): seq<MeshWrite> {
    if out.None? then []
    else
      var reversed := if cap.None? then None else Some(Reverse(cap.value, CellsAndNormals));
      [SetMesh(out.value.id, Framed(Side(Clip(world, cut, ClippedAway), reversed), FromWorld(out.value.parent)))]
  }

  function PositiveOutput(node: ParameterNode, scene: Scene): Option<ModelView> {
    AsModel(scene, FirstReference(scene, node, OutputPositiveModelRole))
  }

  function NegativeOutput(node: ParameterNode, scene: Scene): Option<ModelView> {
    AsModel(scene, FirstReference(scene, node, OutputNegativeModelRole))
  }

  function InputModel(node: ParameterNode, scene: Scene): Option<ModelView> {
    AsModel(scene, FirstReference(scene, node, InputModelRole))
  }

  /** The present output models, positive first. */
  function OutputIds(node: ParameterNode, scene: Scene): seq<NodeId> {
    (if PositiveOutput(node, scene).Some? then [PositiveOutput(node, scene).value.id] else [])
    + (if NegativeOutput(node, scene).Some? then [NegativeOutput(node, scene).value.id] else [])
  }

  /** Every exit check passes and the input mesh has points. */
  predicate Proceeds(node: ParameterNode, scene: Scene) {
    && HasRequiredInputs(Prototype(), node, scene)
    && OutputIds(node, scene) != []
    && PlanesOf(scene, ReferenceIds(node, InputPlaneRole)).Some?
    && InputModel(node, scene).Some?
    && !NoPoints(InputModel(node, scene).value.mesh)
  }

  /** `RunInternal`. Failing exits: a required input missing, a plane
      reference that is not a plane or slice, an input that is not a model.
      Succeeding without writing: no output model, or an input mesh without
      points. Otherwise every output model present is written. */
  function RunInternal(node: ParameterNode, scene: Scene): (r: RunResult)
    ensures !HasRequiredInputs(Prototype(), node, scene) ==> r == RunResult(false, [])
    ensures HasRequiredInputs(Prototype(), node, scene) && OutputIds(node, scene) == [] ==> r == RunResult(true, [])
    ensures HasRequiredInputs(Prototype(), node, scene) && OutputIds(node, scene) != [] ==>
      (r.success <==> PlanesOf(scene, ReferenceIds(node, InputPlaneRole)).Some? && InputModel(node, scene).Some?)
    ensures Proceeds(node, scene) ==> r.success && Targets(r.writes) == OutputIds(node, scene)
    ensures !Proceeds(node, scene) ==> r.writes == []
  {
    if !HasRequiredInputs(Prototype(), node, scene) then RunResult(false, [])
    else
      var positive := PositiveOutput(node, scene);
      var negative := NegativeOutput(node, scene);
      if positive.None? && negative.None? then RunResult(true, [])
      else
        match PlanesOf(scene, ReferenceIds(node, InputPlaneRole))
        case None => RunResult(false, [])
        case Some(planes) =>
          var model := InputModel(node, scene);
          if model.None? then RunResult(false, [])
          else if NoPoints(model.value.mesh) then RunResult(true, [])
          else RunResult(true, CutWrites(positive, negative, planes, model.value, OperationOf(node), CapSurfaceOn(node)))
  }

  /** The writes of a run that gets past every exit: the input mesh taken to
      world coordinates, cut by the planes combined with the operation, each
      present output receiving its side, capped or not. */
  function CutWrites(positive: Option<ModelView>, negative: Option<ModelView>, planes: seq<Plane>,
                     model: ModelView, op: Operation, capped: bool): (w: seq<MeshWrite>)
    requires model.mesh.Some?
    ensures Targets(w) == (if positive.Some? then [positive.value.id] else [])
                          + (if negative.Some? then [negative.value.id] else [])
  {
    var world := Framed(model.mesh.value.shape, ToWorld(model.parent));
    var cut := Combined(op, planes);
    var cap := if capped then Some(EndCap(planes, world, cut)) else None;
    PositiveWrite(positive, world, cut, cap) + NegativeWrite(negative, world, cut, cap)
  }

  // ---------------------------------------------------------------------
  // Properties of a run

  function OtherPart(p: ClipPart): ClipPart {
    match p
    case Kept => ClippedAway
    case ClippedAway => Kept
  }

  /** The other side of a cut side: the other clip output of the same clip,
      closed (when the side is closed) by the same cap reversed in cells and
      normals. */
  function Opposite(side: Shape): Shape {
    match side
    case Clip(world, cut, part) => Clip(world, cut, OtherPart(part))
    case Append(parts) =>
      if |parts| == 2 && parts[0].Clip? then
        Append([Clip(parts[0].source, parts[0].cutBy, OtherPart(parts[0].part)), Reverse(parts[1], CellsAndNormals)])
      else side
    case _ => side
  }

  /** A run that gets past every exit writes the cut of the input model. */
  lemma RunWritesCut(node: ParameterNode, scene: Scene)
    requires Proceeds(node, scene)
    ensures RunInternal(node, scene) == RunResult(true, CutWrites(
      PositiveOutput(node, scene), NegativeOutput(node, scene),
      PlanesOf(scene, ReferenceIds(node, InputPlaneRole)).value, InputModel(node, scene).value,
      OperationOf(node), CapSurfaceOn(node)))
  {
  }

  /** With both outputs present, the negative side is exactly the opposite of
      the positive side, each taken into its own output's frame. */
  lemma SidesAreOpposite(node: ParameterNode, scene: Scene)
    requires Proceeds(node, scene)
    requires PositiveOutput(node, scene).Some? && NegativeOutput(node, scene).Some?
    ensures var w := RunInternal(node, scene).writes;
      && |w| == 2 && w[0].SetMesh? && w[1].SetMesh?
      && w[0].shape.Framed? && w[1].shape.Framed?
      && w[0].shape.change == FromWorld(PositiveOutput(node, scene).value.parent)
      && w[1].shape.change == FromWorld(NegativeOutput(node, scene).value.parent)
      && w[1].shape.source == Opposite(w[0].shape.source)
  {
    RunWritesCut(node, scene);
    CutSidesOpposite(PositiveOutput(node, scene).value, NegativeOutput(node, scene).value,
                     PlanesOf(scene, ReferenceIds(node, InputPlaneRole)).value, InputModel(node, scene).value,
                     OperationOf(node), CapSurfaceOn(node));
  }

  /** The two sides of one cut are opposite, each in its output's frame. */
  lemma CutSidesOpposite(positive: ModelView, negative: ModelView, planes: seq<Plane>,
                         model: ModelView, op: Operation, capped: bool)
    requires model.mesh.Some?
    ensures var w := CutWrites(Some(positive), Some(negative), planes, model, op, capped);
      && |w| == 2 && w[0].SetMesh? && w[1].SetMesh?
      && w[0].shape.Framed? && w[1].shape.Framed?
      && w[0].shape.change == FromWorld(positive.parent)
      && w[1].shape.change == FromWorld(negative.parent)
      && w[1].shape.source == Opposite(w[0].shape.source)
  {
  }

  /** A cap patch list, with the reversal of the negative side undone. */
  function Unreversed(s: Shape): Shape {
    if s.Reverse? then s.source else s
  }

  /** `w` writes a clip of `world` by `cut`, closed, exactly when `capped`, by
      a cap of `patches` patches. */
  predicate ClipsWith(w: MeshWrite, world: Shape, cut: Implicit, capped: bool, patches: nat) {
    && w.SetMesh? && w.shape.Framed?
    && var side := w.shape.source;
    if capped then
      && side.Append? && |side.parts| == 2
      && side.parts[0].Clip? && side.parts[0].source == world && side.parts[0].cutBy == cut
      && Unreversed(side.parts[1]).Append? && |Unreversed(side.parts[1]).parts| == patches
    else
      side.Clip? && side.source == world && side.cutBy == cut
  }

  /** Every side written by a cut clips the world mesh with the combined
      planes, closed exactly when capping, by one patch per plane. */
  lemma CutSidesClip(positive: Option<ModelView>, negative: Option<ModelView>, planes: seq<Plane>,
                     model: ModelView, op: Operation, capped: bool)
    requires model.mesh.Some?
    ensures var w := CutWrites(positive, negative, planes, model, op, capped);
      forall k :: 0 <= k < |w| ==>
        ClipsWith(w[k], Framed(model.mesh.value.shape, ToWorld(model.parent)), Combined(op, planes), capped, |planes|)
  {
  }

  /** Each written side clips the input mesh taken to world coordinates with
      the planes combined by the node's operation; it is closed exactly when
      the cap parameter is on, by one patch per plane. */
  lemma SideFollowsParameters(node: ParameterNode, scene: Scene, k: nat)
    requires Proceeds(node, scene)
    requires k < |OutputIds(node, scene)|
    ensures var model := InputModel(node, scene).value;
      var planes := PlanesOf(scene, ReferenceIds(node, InputPlaneRole)).value;
      var w := RunInternal(node, scene).writes;
      && k < |w|
      && ClipsWith(w[k], Framed(model.mesh.value.shape, ToWorld(model.parent)),
                   Combined(OperationOf(node), planes), CapSurfaceOn(node),
                   NumberOfReferences(node, InputPlaneRole))
  {
    RunWritesCut(node, scene);
    CutSidesClip(PositiveOutput(node, scene), NegativeOutput(node, scene),
                 PlanesOf(scene, ReferenceIds(node, InputPlaneRole)).value, InputModel(node, scene).value,
                 OperationOf(node), CapSurfaceOn(node));
  }
}
