/** The mirror tool: reflects a model across a plane. The mesh is taken to
    world coordinates, moved by translate-reflect-translate about the plane,
    passed through a reverse-sense stage (a reflection turns the surface
    inside out) and taken to the output's frame. */
module Mirror {
  import opened Wrappers
  import opened Geometry
  import opened Shapes
  import opened Scene
  import opened ModelerTool

  const InputModelRole := "Mirror.InputModel"
  const InputPlaneRole := "Mirror.InputPlane"
  const OutputModelRole := "Mirror.OutputModel"

  /** The tool as its constructor builds it. */
  function Prototype(): (t: Tool)
    ensures t.kind == MirrorKind && ReportsOwnClass(t)
    ensures |t.info.inputs| == 2 && t.info.inputs[0].required && t.info.inputs[1].required
    ensures !t.info.inputs[1].repeatable
    ensures |t.info.outputs| == 1 && !t.info.outputs[0].required
    ensures t.info.outputs[0].referenceRole == OutputModelRole
    ensures t.info.parameters == []
  {
    var modelClass := ["vtkDMMLModelNode"];
    Tool(MirrorKind, KindClassName(MirrorKind), "Mirror", Descriptor(
      [ NodeInfo("Model", modelClass, InputModelRole, true, false,
                 [ModifiedEvent, MeshModifiedEvent, TransformModifiedEvent]),
        NodeInfo("Mirror plane", ["vtkDMMLMarkupsPlaneNode", "vtkDMMLSliceNode"], InputPlaneRole, true, false,
                 [ModifiedEvent, PointModifiedEvent, TransformModifiedEvent]) ],
      [ NodeInfo("Mirrored model", modelClass, OutputModelRole, false, false, []) ],
      []))
  }

  function OutputModel(node: ParameterNode, scene: Scene): Option<ModelView> {
    AsModel(scene, FirstReference(scene, node, OutputModelRole))
  }

  function InputModel(node: ParameterNode, scene: Scene): Option<ModelView> {
    AsModel(scene, FirstReference(scene, node, InputModelRole))
  }

  function MirrorPlane(node: ParameterNode, scene: Scene): Option<Plane> {
    AsPlane(scene, FirstReference(scene, node, InputPlaneRole))
  }

  /** The mirrored mesh in the output's frame. */
  function MirroredMesh(mesh: Shape, inputParent: Option<NodeId>, plane: Plane, outputParent: Option<NodeId>): Shape {
    Framed(Reverse(Transformed(Framed(mesh, ToWorld(inputParent)), MirrorSteps(plane)), FilterDefaults),
           FromWorld(outputParent))
  }

  /** `RunInternal`. Failing exits: a required input missing, an input that is
      not a model, a plane reference that is neither a markups plane nor a
      slice. No output: success without writing. An input mesh without points
      gives the output a fresh empty mesh. */
  function RunInternal(node: ParameterNode, scene: Scene): (r: RunResult)
    ensures !HasRequiredInputs(Prototype(), node, scene) ==> r == RunResult(false, [])
    ensures HasRequiredInputs(Prototype(), node, scene) && OutputModel(node, scene).None? ==> r == RunResult(true, [])
    ensures HasRequiredInputs(Prototype(), node, scene) && OutputModel(node, scene).Some? ==>
      (r.success <==> InputModel(node, scene).Some? && MirrorPlane(node, scene).Some?)
    ensures !r.success ==> r.writes == []
    ensures r.success && r.writes != [] ==>
      |r.writes| == 1 && r.writes[0].SetMesh? && r.writes[0].target == OutputModel(node, scene).value.id
    ensures r.success && OutputModel(node, scene).Some? && NoPoints(InputModel(node, scene).value.mesh) ==>
      r.writes == [SetMesh(OutputModel(node, scene).value.id, EmptyPolyData)]
  {
    if !HasRequiredInputs(Prototype(), node, scene) then RunResult(false, [])
    else
      var output := OutputModel(node, scene);
      if output.None? then RunResult(true, [])
      else
        var model := InputModel(node, scene);
        if model.None? then RunResult(false, [])
        else
          var plane := MirrorPlane(node, scene);
          if plane.None? then RunResult(false, [])
          else if NoPoints(model.value.mesh) then RunResult(true, [SetMesh(output.value.id, EmptyPolyData)])
          else
            RunResult(true, [SetMesh(output.value.id,
              MirroredMesh(model.value.mesh.value.shape, model.value.parent, plane.value, output.value.parent))])
  }

  /** A non-empty run writes the input mesh, in world coordinates, moved by
      steps that reflect every point across the plane, undo themselves when
      applied twice to a unit normal, and fix every point of the plane; the
      result goes through the reverse-sense stage before the output frame. */
  lemma OutputIsReflection(node: ParameterNode, scene: Scene)
    requires RunInternal(node, scene).success
    requires OutputModel(node, scene).Some? && !NoPoints(InputModel(node, scene).value.mesh)
    ensures var w := RunInternal(node, scene).writes;
      var plane := MirrorPlane(node, scene).value;
      && |w| == 1 && w[0].shape.Framed? && w[0].shape.change == FromWorld(OutputModel(node, scene).value.parent)
      && w[0].shape.source.Reverse? && w[0].shape.source.source.Transformed?
      && var steps := w[0].shape.source.source.steps;
         && (forall p :: ApplySteps(steps, p) == Reflect(plane, p))
         && (forall p :: Dot(Sub(p, plane.origin), plane.normal) == 0.0 ==> ApplySteps(steps, p) == p)
         && (Dot(plane.normal, plane.normal) == 1.0 ==> forall p :: ApplySteps(steps, ApplySteps(steps, p)) == p)
  {
    var plane := MirrorPlane(node, scene).value;
    var steps := MirrorSteps(plane);
    forall p ensures ApplySteps(steps, p) == Reflect(plane, p) {
      MirrorStepsReflect(plane, p);
    }
    forall p | Dot(Sub(p, plane.origin), plane.normal) == 0.0 ensures ApplySteps(steps, p) == p {
      MirrorFixesPlane(plane, p);
    }
    if Dot(plane.normal, plane.normal) == 1.0 {
      forall p ensures ApplySteps(steps, ApplySteps(steps, p)) == p {
        MirrorInvolution(plane, p);
      }
    }
  }
}
