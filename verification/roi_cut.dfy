/** The ROI-cut tool: clips a model with the faces of a markups ROI, keeping
    the part inside the ROI and/or the part outside it, optionally capped
    where the ROI is a box. */
module ROICut {
  import opened Wrappers
  import opened Geometry
  import opened Variants
  import opened Shapes
  import opened Scene
  import opened ModelerTool
  import PlaneCut

  const InputModelRole := "ROICut.InputModel"
  const InputROIRole := "ROICut.InputROI"
  const OutputInsideModelRole := "ROICut.OutputPositiveModel"
  const OutputOutsideModelRole := "ROICut.OutputNegativeModel"
  const CapSurfaceAttribute := "ROICut.CapSurface"

  /** The tool as its constructor builds it. */
  function Prototype(): (t: Tool)
    ensures t.kind == ROICutKind && ReportsOwnClass(t)
    ensures |t.info.inputs| == 2 && t.info.inputs[0].required && t.info.inputs[1].required
    ensures !t.info.inputs[1].repeatable
    ensures |t.info.outputs| == 2 && !t.info.outputs[0].required && !t.info.outputs[1].required
    ensures t.info.outputs[0].referenceRole == OutputInsideModelRole
    ensures t.info.outputs[1].referenceRole == OutputOutsideModelRole
    ensures |t.info.parameters| == 1 && t.info.parameters[0].attributeName == CapSurfaceAttribute
  {
    var modelClass := ["vtkDMMLModelNode"];
    Tool(ROICutKind, KindClassName(ROICutKind), "ROI cut", Descriptor(
      [ NodeInfo("Model node", modelClass, InputModelRole, true, false,
                 [ModifiedEvent, MeshModifiedEvent, TransformModifiedEvent]),
        NodeInfo("ROI node", ["vtkDMMLMarkupsROINode"], InputROIRole, true, false,
                 [ModifiedEvent, PointModifiedEvent, TransformModifiedEvent]) ],
      [ NodeInfo("Clipped output model (inside)", modelClass, OutputInsideModelRole, false, false, []),
        NodeInfo("Clipped output model (outside)", modelClass, OutputOutsideModelRole, false, false, []) ],
      [ ParameterInfo("Cap surface", CapSurfaceAttribute, ParameterBool, Bool(true), None) ]))
  }

  // ---------------------------------------------------------------------
  // Clip function and cap

  /** Each ROI face with its normal turned inwards and its origin kept: the
      clip keeps the positive side, which is then the inside of the ROI. */
  function InvertedPlanes(planes: seq<Plane>): (r: seq<Plane>)
    ensures |r| == |planes|
    ensures forall i :: 0 <= i < |planes| ==>
      r[i].origin == planes[i].origin && r[i].normal == Neg(planes[i].normal)
  {
    seq(|planes|, i requires 0 <= i < |planes| => Plane(planes[i].origin, Neg(planes[i].normal)))
  }

  /** Inverting twice gives the ROI's own faces back. */
  lemma InvertedPlanesInvolution(planes: seq<Plane>)
    ensures InvertedPlanes(InvertedPlanes(planes)) == planes
  {
    var twice := InvertedPlanes(InvertedPlanes(planes));
    forall i | 0 <= i < |planes| ensures twice[i] == planes[i] {
      assert Neg(Neg(planes[i].normal)) == planes[i].normal;
    }
  }

  /** The union of the inverted faces. */
  function CutFunction(planes: seq<Plane>): Implicit {
    Combined(Union, InvertedPlanes(planes))
  }

  /** The cap flag: the raw attribute converted to an integer, non-zero
      meaning on; a missing attribute is an invalid variant and reads as off,
      whatever the parameter's declared default. Only box-shaped ROIs are
      capped. */
  function CapOn(node: ParameterNode, roiType: ROIType): (on: bool)
    ensures on ==> CapSurfaceAttribute in node.attrs
    ensures on ==> roiType == Box || roiType == BoundingBox
    ensures (roiType == Box || roiType == BoundingBox) && CapSurfaceAttribute in node.attrs ==>
      (on <==> ToInt(Str(node.attrs[CapSurfaceAttribute])) != 0)
  {
    var raw := match Attribute(node, CapSurfaceAttribute)
               case None => Invalid
               case Some(text) => Str(text);
    var requested := ToInt(raw) != 0;
    if roiType != Box && roiType != BoundingBox then false else requested
  }

  /** Every patch of an ROI cap faces along the ROI face's own normal. */
  lemma CapFacesAlongROINormal(planes: seq<Plane>, world: Shape, i: nat)
    requires i < |planes|
    ensures var cap := PlaneCut.EndCap(InvertedPlanes(planes), world, CutFunction(planes));
      cap.parts[i].WithPointNormals? && cap.parts[i].normal == planes[i].normal
  {
    assert Neg(Neg(planes[i].normal)) == planes[i].normal;
  }

  // ---------------------------------------------------------------------
  // Run

  /** A markups ROI seen through `SafeDownCast`. */
  datatype ROIView = ROIView(roiType: ROIType, planes: seq<Plane>)

  function AsROI(scene: Scene, r: Option<NodeId>): (v: Option<ROIView>)
    ensures v.Some? <==> r.Some? && r.value in scene && scene[r.value].kind.MarkupsROI?
    ensures v.Some? ==> scene[r.value].kind == MarkupsROI(v.value.roiType, v.value.planes)
  {
    if r.Some? && r.value in scene && scene[r.value].kind.MarkupsROI? then
      Some(ROIView(scene[r.value].kind.roiType, scene[r.value].kind.planes))
    else None
  }

  function InsideOutput(node: ParameterNode, scene: Scene): Option<ModelView> {
    AsModel(scene, FirstReference(scene, node, OutputInsideModelRole))
  }

  function OutsideOutput(node: ParameterNode, scene: Scene): Option<ModelView> {
    AsModel(scene, FirstReference(scene, node, OutputOutsideModelRole))
  }

  function InputModel(node: ParameterNode, scene: Scene): Option<ModelView> {
    AsModel(scene, FirstReference(scene, node, InputModelRole))
  }

  function InputROI(node: ParameterNode, scene: Scene): Option<ROIView> {
    AsROI(scene, FirstReference(scene, node, InputROIRole))
  }

  /** The present outputs, inside first. */
  function Outputs(node: ParameterNode, scene: Scene): seq<ModelView> {
    (if InsideOutput(node, scene).Some? then [InsideOutput(node, scene).value] else [])
    + (if OutsideOutput(node, scene).Some? then [OutsideOutput(node, scene).value] else [])
  }

  function Ids(outputs: seq<ModelView>): seq<NodeId> {
    seq(|outputs|, i requires 0 <= i < |outputs| => outputs[i].id)
  }

  /** Empty input: every present output that holds a mesh is emptied in place. */
  function ResetWrites(outputs: seq<ModelView>): (w: seq<MeshWrite>)
    ensures forall k :: 0 <= k < |outputs| && outputs[k].mesh.Some? ==> ResetMesh(outputs[k].id) in w
    ensures forall x :: x in w ==> exists k :: 0 <= k < |outputs| && outputs[k].mesh.Some? && x == ResetMesh(outputs[k].id)
  {
    if |outputs| == 0 then []
    else
      var rest := ResetWrites(outputs[1..]);
      assert forall k :: 1 <= k < |outputs| ==> outputs[k] == outputs[1..][k - 1];
      var head := if outputs[0].mesh.Some? then [ResetMesh(outputs[0].id)] else [];
      forall x | x in rest
        ensures exists k :: 0 <= k < |outputs| && outputs[k].mesh.Some? && x == ResetMesh(outputs[k].id)
      {
        var j :| 0 <= j < |outputs[1..]| && outputs[1..][j].mesh.Some? && x == ResetMesh(outputs[1..][j].id);
        assert outputs[j + 1] == outputs[1..][j];
      }
      head + rest
  }

  /** No ROI: every present output gets a fresh empty mesh. */
  function EmptyWrites(outputs: seq<ModelView>): (w: seq<MeshWrite>)
    ensures |w| == |outputs|
    ensures forall k :: 0 <= k < |w| ==> w[k] == SetMesh(outputs[k].id, EmptyPolyData)
  {
    seq(|outputs|, k requires 0 <= k < |outputs| => SetMesh(outputs[k].id, EmptyPolyData))
  }

  /** The exits taken before any clipping, or `None` when the cut proceeds. */
  function EarlyExit(node: ParameterNode, scene: Scene): (e: Option<RunResult>)
    ensures !HasRequiredInputs(Prototype(), node, scene) ==> e == Some(RunResult(false, []))
    ensures HasRequiredInputs(Prototype(), node, scene) && Outputs(node, scene) == [] ==> e == Some(RunResult(true, []))
    ensures e.Some? && !e.value.success ==> e.value.writes == []
    ensures e.None? <==>
      && HasRequiredInputs(Prototype(), node, scene) && Outputs(node, scene) != []
      && InputModel(node, scene).Some? && !NoPoints(InputModel(node, scene).value.mesh)
      && InputROI(node, scene).Some?
  {
    if !HasRequiredInputs(Prototype(), node, scene) then Some(RunResult(false, []))
    else
      var outputs := Outputs(node, scene);
      if outputs == [] then Some(RunResult(true, []))
      else
        var model := InputModel(node, scene);
        if model.None? then Some(RunResult(false, []))
        else if NoPoints(model.value.mesh) then Some(RunResult(true, ResetWrites(outputs)))
        else if InputROI(node, scene).None? then Some(RunResult(true, EmptyWrites(outputs)))
        else None
  }

  /** The world-frame mesh, the cut function and the cap of a proceeding run. */
  datatype Cut = Cut(world: Shape, cutBy: Implicit, cap: Option<Shape>)

  function Prepare(node: ParameterNode, scene: Scene): Cut
    requires EarlyExit(node, scene).None?
  {
    var model := InputModel(node, scene).value;
    var roi := InputROI(node, scene).value;
    var world := Framed(model.mesh.value.shape, ToWorld(model.parent));
    var cut := CutFunction(roi.planes);
    var cap := if CapOn(node, roi.roiType)
               then Some(PlaneCut.EndCap(InvertedPlanes(roi.planes), world, cut)) else None;
    Cut(world, cut, cap)
  }

  /** The inside output as written: the clipped mesh is taken to the output
      frame first, and the world-frame cap is appended after that. */
  function InsideWriteAsWritten(out: Option<ModelView>, c: Cut): seq<MeshWrite> {
    if out.None? then []
    else [SetMesh(out.value.id, PlaneCut.Side(Framed(Clip(c.world, c.cutBy, Kept), FromWorld(out.value.parent)), c.cap))]
  }

  function OutsideWriteAsWritten(out: Option<ModelView>, c: Cut): seq<MeshWrite> {
    if out.None? then []
    else
      var reversed := if c.cap.None? then None else Some(Reverse(c.cap.value, CellsAndNormals));
      [SetMesh(out.value.id, PlaneCut.Side(Framed(Clip(c.world, c.cutBy, ClippedAway), FromWorld(out.value.parent)), reversed))]
  }

  /** `RunInternal` as the source writes it. */
  function RunInternalAsWritten(node: ParameterNode, scene: Scene): (r: RunResult)
    ensures !HasRequiredInputs(Prototype(), node, scene) ==> r == RunResult(false, [])
    ensures HasRequiredInputs(Prototype(), node, scene) && Outputs(node, scene) != [] ==>
      (r.success <==> InputModel(node, scene).Some?)
    ensures !r.success ==> r.writes == []
    ensures EarlyExit(node, scene).None? ==> r.success && Targets(r.writes) == Ids(Outputs(node, scene))
  {
    match EarlyExit(node, scene)
    case Some(exit) => exit
    case None =>
      var c := Prepare(node, scene);
      RunResult(true, InsideWriteAsWritten(InsideOutput(node, scene), c)
                      + OutsideWriteAsWritten(OutsideOutput(node, scene), c))
  }

  /** `RunInternal` with the cap appended before the change to the output
      frame, as plane cut does: the exits are the same, and each output is
      the corresponding plane-cut side. */
  function RunInternal(node: ParameterNode, scene: Scene): (r: RunResult)
    ensures !HasRequiredInputs(Prototype(), node, scene) ==> r == RunResult(false, [])
    ensures HasRequiredInputs(Prototype(), node, scene) && Outputs(node, scene) != [] ==>
      (r.success <==> InputModel(node, scene).Some?)
    ensures !r.success ==> r.writes == []
    ensures EarlyExit(node, scene).None? ==> r.success && Targets(r.writes) == Ids(Outputs(node, scene))
  {
    match EarlyExit(node, scene)
    case Some(exit) => exit
    case None =>
      var c := Prepare(node, scene);
      RunResult(true, PlaneCut.PositiveWrite(InsideOutput(node, scene), c.world, c.cutBy, c.cap)
                      + PlaneCut.NegativeWrite(OutsideOutput(node, scene), c.world, c.cutBy, c.cap))
  }

  /** The corrected run differs from the run as written only in the frame of
      the cap: the two always agree on success and on which outputs are
      written, and when no cap is appended (every early exit, and every run
      with capping off) they are the same run. */
  lemma CapOrderOnlyDifference(node: ParameterNode, scene: Scene)
    ensures RunInternalAsWritten(node, scene).success == RunInternal(node, scene).success
    ensures Targets(RunInternalAsWritten(node, scene).writes) == Targets(RunInternal(node, scene).writes)
    ensures EarlyExit(node, scene).Some? || Prepare(node, scene).cap.None? ==>
      RunInternalAsWritten(node, scene) == RunInternal(node, scene)
  {
    if EarlyExit(node, scene).None? {
      var c := Prepare(node, scene);
      if c.cap.None? {
        assert InsideWriteAsWritten(InsideOutput(node, scene), c)
            == PlaneCut.PositiveWrite(InsideOutput(node, scene), c.world, c.cutBy, c.cap);
        assert OutsideWriteAsWritten(OutsideOutput(node, scene), c)
            == PlaneCut.NegativeWrite(OutsideOutput(node, scene), c.world, c.cutBy, c.cap);
      }
    }
  }

  // ---------------------------------------------------------------------
  // Frames

  /** Every part of a mesh is expressed in the frame of the given parent
      transform (world coordinates when there is none). Terms not wrapped in a
      change of frame are in world coordinates. */
  predicate InFrame(s: Shape, parent: Option<NodeId>) {
    match s
    case Framed(_, change) => change == FromWorld(parent) || (change.ToWorld? && parent.None?)
    case Append(parts) => forall i :: 0 <= i < |parts| ==> InFrame(parts[i], parent)
    case Reverse(source, _) => InFrame(source, parent)
    case _ => parent.None?
  }

  /** With the cap appended before the change of frame, every output mesh is
      wholly in its own node's frame. */
  lemma OutputsInOwnFrame(node: ParameterNode, scene: Scene, k: nat)
    requires EarlyExit(node, scene).None?
    requires k < |RunInternal(node, scene).writes|
    ensures var w := RunInternal(node, scene).writes[k];
      w.SetMesh? && InFrame(w.shape, Outputs(node, scene)[k].parent)
  {
  }

  /** As written, an output is wholly in its own frame exactly when no cap is
      appended, the cap is empty (an ROI without faces), or the output has no
      parent transform. */
  lemma AsWrittenFrameMix(node: ParameterNode, scene: Scene, k: nat)
    requires EarlyExit(node, scene).None?
    requires k < |RunInternalAsWritten(node, scene).writes|
    ensures var w := RunInternalAsWritten(node, scene).writes[k];
      var parent := Outputs(node, scene)[k].parent;
      w.SetMesh? && (InFrame(w.shape, parent) <==>
        Prepare(node, scene).cap.None? || |InputROI(node, scene).value.planes| == 0 || parent.None?)
  {
    var roi := InputROI(node, scene).value;
    AsWrittenWritesFrame(InsideOutput(node, scene), OutsideOutput(node, scene), Prepare(node, scene), roi.planes, k);
  }

  /** The frame mix of the as-written writes for any outputs and cut whose
      cap, when present, is built from the ROI's inverted faces. */
  lemma AsWrittenWritesFrame(inside: Option<ModelView>, outside: Option<ModelView>, c: Cut, planes: seq<Plane>, k: nat)
    requires c.cutBy == CutFunction(planes)
    requires c.cap.Some? ==> c.cap.value == PlaneCut.EndCap(InvertedPlanes(planes), c.world, c.cutBy)
    requires k < |InsideWriteAsWritten(inside, c) + OutsideWriteAsWritten(outside, c)|
    ensures var w := (InsideWriteAsWritten(inside, c) + OutsideWriteAsWritten(outside, c))[k];
      var outs := (if inside.Some? then [inside.value] else []) + (if outside.Some? then [outside.value] else []);
      && k < |outs| && w.SetMesh?
      && (InFrame(w.shape, outs[k].parent) <==> c.cap.None? || |planes| == 0 || outs[k].parent.None?)
  {
    var w := (InsideWriteAsWritten(inside, c) + OutsideWriteAsWritten(outside, c))[k];
    var outs := (if inside.Some? then [inside.value] else []) + (if outside.Some? then [outside.value] else []);
    var parent := outs[k].parent;
    if c.cap.Some? {
      CapFrame(InvertedPlanes(planes), c.world, c.cutBy, parent);
      AppendedFrame(w.shape, c.cap.value, parent);
    }
  }

  /** An end cap is in a frame with a parent transform only when it has no
      patch: its patches are built in world coordinates. */
  lemma CapFrame(planes: seq<Plane>, world: Shape, cut: Implicit, parent: Option<NodeId>)
    requires cut.Combined?
    ensures InFrame(PlaneCut.EndCap(planes, world, cut), parent) <==> |planes| == 0 || parent.None?
  {
    var cap := PlaneCut.EndCap(planes, world, cut);
    if |planes| > 0 {
      assert cap.parts[0].WithPointNormals?;
    }
  }

  /** A side as written: the framed clipped part, then the cap or its reverse. */
  lemma AppendedFrame(side: Shape, cap: Shape, parent: Option<NodeId>)
    requires side.Append? && |side.parts| == 2 && InFrame(side.parts[0], parent)
    requires side.parts[1] == cap || side.parts[1] == Reverse(cap, CellsAndNormals)
    ensures InFrame(side, parent) <==> InFrame(cap, parent)
  {
    assert InFrame(side, parent) <==> InFrame(side.parts[0], parent) && InFrame(side.parts[1], parent);
  }

  /** A concrete run that shows it: a box ROI with a face, the cap switched
      on, and an inside output under a parent transform. The output's cap is
      left in world coordinates while its clipped part is in the output's
      frame; the corrected run keeps both in the output's frame. */
  lemma AsWrittenCapLeftInWorldFrame()
    ensures var scene := ExampleScene();
      var node := ExampleNode();
      var w := RunInternalAsWritten(node, scene).writes;
      var v := RunInternal(node, scene).writes;
      && |w| == 1 && w[0].SetMesh? && !InFrame(w[0].shape, Some("T"))
      && |v| == 1 && v[0].SetMesh? && InFrame(v[0].shape, Some("T"))
  {
    var scene := ExampleScene();
    var node := ExampleNode();
    ExampleOutputs();
    ExampleProceeds();
    ExampleCapped();
    AsWrittenFrameMix(node, scene, 0);
    OutputsInOwnFrame(node, scene, 0);
  }

  /** The example's one output is "out", under transform "T". */
  lemma ExampleOutputs()
    ensures Outputs(ExampleNode(), ExampleScene()) == [ModelView("out", None, Some("T"))]
  {
    assert InsideOutput(ExampleNode(), ExampleScene()) == Some(ModelView("out", None, Some("T")));
    assert OutsideOutput(ExampleNode(), ExampleScene()).None?;
  }

  /** The example passes every exit check. */
  lemma ExampleProceeds()
    ensures EarlyExit(ExampleNode(), ExampleScene()).None?
  {
    var scene := ExampleScene();
    var node := ExampleNode();
    assert HasRequiredInputs(Prototype(), node, scene) by {
      assert FirstReference(scene, node, InputModelRole) == Some("model");
      assert FirstReference(scene, node, InputROIRole) == Some("roi");
    }
    ExampleOutputs();
  }

  /** The example's box has one face and its cap is on. */
  lemma ExampleCapped()
    ensures EarlyExit(ExampleNode(), ExampleScene()).None?
    ensures Prepare(ExampleNode(), ExampleScene()).cap.Some?
    ensures |InputROI(ExampleNode(), ExampleScene()).value.planes| == 1
  {
    ExampleProceeds();
    assert CapOn(ExampleNode(), Box) by {
      IntRoundTrip(1);
      assert IntToString(1) == "1";
    }
  }

  function ExampleScene(): Scene {
    map[
      "model" := SceneNode(Model(Some(Mesh(8, Stored(0))), None), None),
      "roi" := SceneNode(MarkupsROI(Box, [Plane(Zero, Vec3(1.0, 0.0, 0.0))]), None),
      "out" := SceneNode(Model(None, Some("T")), None)]
  }

  function ExampleNode(): ParameterNode {
    ParameterNode("modeler", Some("ROI cut"), false,
      map[InputModelRole := [NodeReference("model", None)],
          InputROIRole := [NodeReference("roi", None)],
          OutputInsideModelRole := [NodeReference("out", None)]],
      map[CapSurfaceAttribute := "1"])
  }
}
