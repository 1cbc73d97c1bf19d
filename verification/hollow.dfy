/** The hollow tool: turns a model's surface into a shell by extruding it
    along its normals by the shell thickness, triangulating, and recomputing
    consistently oriented normals. */
module Hollow {
  import opened Wrappers
  import opened Variants
  import opened Shapes
  import opened Scene
  import opened ModelerTool

  const InputModelRole := "Hollow.InputModel"
  const OutputModelRole := "Hollow.OutputModel"
  const ShellThicknessAttribute := "ShellThickness"

  /** The tool as its constructor builds it. */
  function Prototype(): (t: Tool)
    ensures t.kind == HollowKind && ReportsOwnClass(t)
    ensures |t.info.inputs| == 1 && t.info.inputs[0].required
    ensures |t.info.outputs| == 1 && !t.info.outputs[0].required
    ensures t.info.outputs[0].referenceRole == OutputModelRole
    ensures |t.info.parameters| == 1 && t.info.parameters[0].paramType == ParameterDouble
    ensures t.info.parameters[0].defaultValue == Double(1.0)
  {
    var modelClass := ["vtkDMMLModelNode"];
    Tool(HollowKind, KindClassName(HollowKind), "Hollow", Descriptor(
      [ NodeInfo("Model", modelClass, InputModelRole, true, false,
                 [ModifiedEvent, MeshModifiedEvent, TransformModifiedEvent]) ],
      [ NodeInfo("Hollowed model", modelClass, OutputModelRole, false, false, []) ],
      [ ParameterInfo("Shell thickness", ShellThicknessAttribute, ParameterDouble, Double(1.0), None) ]))
  }

  function OutputModel(node: ParameterNode, scene: Scene): Option<ModelView> {
    AsModel(scene, FirstReference(scene, node, OutputModelRole))
  }

  function InputModel(node: ParameterNode, scene: Scene): Option<ModelView> {
    AsModel(scene, FirstReference(scene, node, InputModelRole))
  }

  /** The shell in the output's frame. */
  function Shell(mesh: Shape, inputParent: Option<NodeId>, thickness: Variant, outputParent: Option<NodeId>): Shape {
    Framed(AutoOrientedNormals(Triangulated(Extruded(Framed(mesh, ToWorld(inputParent)), thickness))),
           FromWorld(outputParent))
  }

  /** `RunInternal`. Failing exits: a required input missing, an input that is
      not a model. No output: success without writing. An input mesh without
      points gives the output a fresh empty mesh. */
  function RunInternal(node: ParameterNode, scene: Scene): (r: RunResult)
    ensures !HasRequiredInputs(Prototype(), node, scene) ==> r == RunResult(false, [])
    ensures HasRequiredInputs(Prototype(), node, scene) && OutputModel(node, scene).None? ==> r == RunResult(true, [])
    ensures HasRequiredInputs(Prototype(), node, scene) && OutputModel(node, scene).Some? ==>
      (r.success <==> InputModel(node, scene).Some?)
    ensures !r.success ==> r.writes == []
    ensures r.success && r.writes != [] ==>
      |r.writes| == 1 && r.writes[0].SetMesh? && r.writes[0].target == OutputModel(node, scene).value.id
    ensures r.success && OutputModel(node, scene).Some? && NoPoints(InputModel(node, scene).value.mesh) ==>
      r.writes == [SetMesh(OutputModel(node, scene).value.id, EmptyPolyData)]
  {
    if !HasRequiredInputs(Prototype(), node, scene) then RunResult(false, [])
    else
      var output := OutputModel(node, scene);
      if output.None? then RunResult(true, [])
      else
        var model := InputModel(node, scene);
        if model.None? then RunResult(false, [])
        else if NoPoints(model.value.mesh) then RunResult(true, [SetMesh(output.value.id, EmptyPolyData)])
        else
          var thickness := NthInputParameterValue(Prototype(), 0, node);
          RunResult(true, [SetMesh(output.value.id,
            Shell(model.value.mesh.value.shape, model.value.parent, thickness, output.value.parent))])
  }

  /** The extrusion scale is the "ShellThickness" attribute's text when the
      node has one, and 1.0 otherwise. */
  lemma ThicknessFollowsParameter(node: ParameterNode, scene: Scene)
    requires RunInternal(node, scene).success
    requires OutputModel(node, scene).Some? && !NoPoints(InputModel(node, scene).value.mesh)
    ensures var w := RunInternal(node, scene).writes;
      var model := InputModel(node, scene).value;
      && |w| == 1 && w[0].shape.Framed?
      && w[0].shape.change == FromWorld(OutputModel(node, scene).value.parent)
      && w[0].shape.source == AutoOrientedNormals(Triangulated(Extruded(
           Framed(model.mesh.value.shape, ToWorld(model.parent)),
           if ShellThicknessAttribute in node.attrs then Str(node.attrs[ShellThicknessAttribute]) else Double(1.0))))
  {
  }
}
