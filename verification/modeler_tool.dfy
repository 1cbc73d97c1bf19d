/** The base dynamic-modeler tool: the descriptor of its input, output and
    parameter slots, the range-checked accessors over it, the predicates that
    gate a run, the listing of referenced nodes, the creation of output display
    nodes, and `Run`, which checks the gate and then hands over to the tool's
    own `RunInternal`. */
module ModelerTool {
  import opened Wrappers
  import opened Variants
  import opened Shapes
  import opened Scene

  /** An input or output slot. Outputs are not observed and carry no events. */
  datatype NodeInfo = NodeInfo(
    name: string,
    classNames: seq<string>,
    referenceRole: string,
    required: bool,
    repeatable: bool,
    events: seq<EventKind>)

  /** A parameter slot. Only enumerated parameters list their possible values. */
  datatype ParameterInfo = ParameterInfo(
    name: string,
    attributeName: string,
    paramType: ParameterType,
    defaultValue: Variant,
    possibleValues: Option<seq<string>>)

  datatype Descriptor = Descriptor(
    inputs: seq<NodeInfo>,
    outputs: seq<NodeInfo>,
    parameters: seq<ParameterInfo>)

  /** The nine built-in tool classes. */
  datatype ToolKind =
    | PlaneCutKind | HollowKind | MarginKind | MirrorKind | CurveCutKind
    | BoundaryCutKind | AppendKind | ROICutKind | SelectByPointsKind

  function KindClassName(k: ToolKind): string {
    match k
    case PlaneCutKind => "vtkCjyxDynamicModelerPlaneCutTool"
    case HollowKind => "vtkCjyxDynamicModelerHollowTool"
    case MarginKind => "vtkCjyxDynamicModelerMarginTool"
    case MirrorKind => "vtkCjyxDynamicModelerMirrorTool"
    case CurveCutKind => "vtkCjyxDynamicModelerCurveCutTool"
    case BoundaryCutKind => "vtkCjyxDynamicModelerBoundaryCutTool"
    case AppendKind => "vtkCjyxDynamicModelerAppendTool"
    case ROICutKind => "vtkCjyxDynamicModelerROICutTool"
    case SelectByPointsKind => "vtkCjyxDynamicModelerSelectByPointsTool"
  }

  /** A tool: its class, the class name it reports (`GetClassName`), its
      human-readable name and the descriptor its constructor builds. Every
      instance of a class is built the same way, so a clone
      (`CreateToolInstance`) is equal to its prototype. */
  datatype Tool = Tool(kind: ToolKind, className: string, name: string, info: Descriptor)

  /** The tool reports the class name of its own class. */
  predicate ReportsOwnClass(t: Tool) {
    t.className == KindClassName(t.kind)
  }

  // ---------------------------------------------------------------------
  // Descriptor accessors

  function NumberOfInputNodes(t: Tool): nat { |t.info.inputs| }
  function NumberOfOutputNodes(t: Tool): nat { |t.info.outputs| }
  function NumberOfInputParameters(t: Tool): nat { |t.info.parameters| }

  function NthInputNodeName(t: Tool, n: nat): string {
    if n >= NumberOfInputNodes(t) then "" else t.info.inputs[n].name
  }

  function NthInputNodeClassNames(t: Tool, n: nat): Option<seq<string>> {
    if n >= NumberOfInputNodes(t) then None else Some(t.info.inputs[n].classNames)
  }

  function NthInputNodeReferenceRole(t: Tool, n: nat): string {
    if n >= NumberOfInputNodes(t) then "" else t.info.inputs[n].referenceRole
  }

  function NthInputNodeRequired(t: Tool, n: nat): bool {
    if n >= NumberOfInputNodes(t) then false else t.info.inputs[n].required
  }

  function NthInputNodeRepeatable(t: Tool, n: nat): bool {
    if n >= NumberOfInputNodes(t) then false else t.info.inputs[n].repeatable
  }

  function NthInputNodeEvents(t: Tool, n: nat): Option<seq<EventKind>> {
    if n >= NumberOfInputNodes(t) then None else Some(t.info.inputs[n].events)
  }

  function NthOutputNodeName(t: Tool, n: nat): string {
    if n >= NumberOfOutputNodes(t) then "" else t.info.outputs[n].name
  }

  function NthOutputNodeClassNames(t: Tool, n: nat): Option<seq<string>> {
    if n >= NumberOfOutputNodes(t) then None else Some(t.info.outputs[n].classNames)
  }

  function NthOutputNodeReferenceRole(t: Tool, n: nat): string {
    if n >= NumberOfOutputNodes(t) then "" else t.info.outputs[n].referenceRole
  }

  function NthOutputNodeRequired(t: Tool, n: nat): bool {
    if n >= NumberOfOutputNodes(t) then false else t.info.outputs[n].required
  }

  function NthInputParameterName(t: Tool, n: nat): string {
    if n >= NumberOfInputParameters(t) then "" else t.info.parameters[n].name
  }

  function NthInputParameterAttributeName(t: Tool, n: nat): string {
    if n >= NumberOfInputParameters(t) then "" else t.info.parameters[n].attributeName
  }

  function NthInputParameterType(t: Tool, n: nat): ParameterType {
    if n >= NumberOfInputParameters(t) then ParameterString else t.info.parameters[n].paramType
  }

  function NthInputParameterPossibleValues(t: Tool, n: nat): Option<seq<string>> {
    if n >= NumberOfInputParameters(t) then None else t.info.parameters[n].possibleValues
  }

  /** Past the end of its list, every accessor returns its safe default
      ("" / false / null / the string type) instead of reading the list. */
  lemma AccessorsOutOfRange(t: Tool, n: nat)
    ensures n >= NumberOfInputNodes(t) ==>
      && NthInputNodeName(t, n) == ""
      && NthInputNodeClassNames(t, n).None? && NthInputNodeReferenceRole(t, n) == ""
      && !NthInputNodeRequired(t, n) && !NthInputNodeRepeatable(t, n)
      && NthInputNodeEvents(t, n).None?
    ensures n >= NumberOfOutputNodes(t) ==>
      && NthOutputNodeName(t, n) == ""
      && NthOutputNodeClassNames(t, n).None? && NthOutputNodeReferenceRole(t, n) == ""
      && !NthOutputNodeRequired(t, n)
    ensures n >= NumberOfInputParameters(t) ==>
      && NthInputParameterName(t, n) == ""
      && NthInputParameterAttributeName(t, n) == "" && NthInputParameterType(t, n) == ParameterString
      && NthInputParameterPossibleValues(t, n).None?
  {
  }

  /** Within range, every accessor reads the slot's own field, so together
      the accessors of a slot give back the whole slot. Negative indices are
      not checked by the source: n is a `nat`. */
  lemma AccessorsInRange(t: Tool, n: nat)
    ensures n < NumberOfInputNodes(t) ==>
      && NthInputNodeName(t, n) == t.info.inputs[n].name
      && NthInputNodeClassNames(t, n) == Some(t.info.inputs[n].classNames)
      && NthInputNodeReferenceRole(t, n) == t.info.inputs[n].referenceRole
      && NthInputNodeRequired(t, n) == t.info.inputs[n].required
      && NthInputNodeRepeatable(t, n) == t.info.inputs[n].repeatable
      && NthInputNodeEvents(t, n) == Some(t.info.inputs[n].events)
    ensures n < NumberOfInputNodes(t) ==>
      NodeInfo(NthInputNodeName(t, n), NthInputNodeClassNames(t, n).value,
               NthInputNodeReferenceRole(t, n), NthInputNodeRequired(t, n),
               NthInputNodeRepeatable(t, n), NthInputNodeEvents(t, n).value)
        == t.info.inputs[n]
    ensures n < NumberOfOutputNodes(t) ==>
      && NthOutputNodeName(t, n) == t.info.outputs[n].name
      && NthOutputNodeClassNames(t, n) == Some(t.info.outputs[n].classNames)
      && NthOutputNodeReferenceRole(t, n) == t.info.outputs[n].referenceRole
      && NthOutputNodeRequired(t, n) == t.info.outputs[n].required
    ensures n < NumberOfInputParameters(t) ==>
      && NthInputParameterName(t, n) == t.info.parameters[n].name
      && NthInputParameterAttributeName(t, n) == t.info.parameters[n].attributeName
      && NthInputParameterType(t, n) == t.info.parameters[n].paramType
      && NthInputParameterPossibleValues(t, n) == t.info.parameters[n].possibleValues
  {
  }

  /** `GetNthInputNode` / `GetNthOutputNode`: the first reference of the
      slot's role, or null past the end. */
  function NthInputNode(t: Tool, n: nat, node: ParameterNode, scene: Scene): (r: Option<NodeId>)
    ensures n >= NumberOfInputNodes(t) ==> r.None?
    ensures n < NumberOfInputNodes(t) ==> r == FirstReference(scene, node, t.info.inputs[n].referenceRole)
  {
    if n >= NumberOfInputNodes(t) then None
    else FirstReference(scene, node, NthInputNodeReferenceRole(t, n))
  }

  function NthOutputNode(t: Tool, n: nat, node: ParameterNode, scene: Scene): (r: Option<NodeId>)
    ensures n >= NumberOfOutputNodes(t) ==> r.None?
    ensures n < NumberOfOutputNodes(t) ==> r == FirstReference(scene, node, t.info.outputs[n].referenceRole)
  {
    if n >= NumberOfOutputNodes(t) then None
    else FirstReference(scene, node, NthOutputNodeReferenceRole(t, n))
  }

  // ---------------------------------------------------------------------
  // Parameter values

  /** `GetNthInputParameterValue`: the raw attribute string when the node has
      the parameter's attribute, not converted to the declared type; otherwise
      the descriptor default. Past the end it is the string-type enumerator. */
  function NthInputParameterValue(t: Tool, n: nat, node: ParameterNode): (v: Variant)
    ensures n >= NumberOfInputParameters(t) ==> v == TypeCode(ParameterString)
    ensures n < NumberOfInputParameters(t) ==>
      var key := t.info.parameters[n].attributeName;
      && (key !in node.attrs ==> v == t.info.parameters[n].defaultValue)
      && (key in node.attrs ==> v == Str(node.attrs[key]))
  {
    if n >= NumberOfInputParameters(t) then TypeCode(ParameterString)
    else
      match Attribute(node, NthInputParameterAttributeName(t, n))
      case None => t.info.parameters[n].defaultValue
      case Some(value) => Str(value)
  }

  /** Writing a parameter's attribute and reading the parameter back gives
      the written text; removing the attribute gives the default back. */
  lemma ParameterWriteRead(t: Tool, n: nat, node: ParameterNode, text: string)
    requires n < NumberOfInputParameters(t)
    ensures var key := t.info.parameters[n].attributeName;
      NthInputParameterValue(t, n, node.(attrs := node.attrs[key := text])) == Str(text)
    ensures var key := t.info.parameters[n].attributeName;
      NthInputParameterValue(t, n, node.(attrs := node.attrs - {key}))
        == t.info.parameters[n].defaultValue
  {
  }

  // ---------------------------------------------------------------------
  // Run gate

  /** The slots i..end that are required all have a non-null first reference. */
  function RequiredBoundFrom(inputs: seq<NodeInfo>, i: nat, node: ParameterNode, scene: Scene): (r: bool)
    requires i <= |inputs|
    ensures r <==> forall j :: i <= j < |inputs| && inputs[j].required ==>
                     FirstReference(scene, node, inputs[j].referenceRole).Some?
    decreases |inputs| - i
  {
    if i == |inputs| then true
    else if !inputs[i].required then RequiredBoundFrom(inputs, i + 1, node, scene)
    else if FirstReference(scene, node, inputs[i].referenceRole).None? then false
    else RequiredBoundFrom(inputs, i + 1, node, scene)
  }

  /** `HasRequiredInputs`: every required input has a non-null first
      reference under its role; optional inputs never matter. */
  function HasRequiredInputs(t: Tool, node: ParameterNode, scene: Scene): (r: bool)
    ensures r <==> forall j :: 0 <= j < |t.info.inputs| && t.info.inputs[j].required ==>
                     FirstReference(scene, node, t.info.inputs[j].referenceRole).Some?
  {
    RequiredBoundFrom(t.info.inputs, 0, node, scene)
  }

  /** Some output slot among i..end has a non-null first reference. */
  function OutputBoundFrom(outputs: seq<NodeInfo>, i: nat, node: ParameterNode, scene: Scene): (r: bool)
    requires i <= |outputs|
    ensures r <==> exists j :: i <= j < |outputs| &&
                     FirstReference(scene, node, outputs[j].referenceRole).Some?
    decreases |outputs| - i
  {
    if i == |outputs| then false
    else if FirstReference(scene, node, outputs[i].referenceRole).Some? then true
    else OutputBoundFrom(outputs, i + 1, node, scene)
  }

  /** `HasOutput`: at least one output role has a non-null first reference. */
  function HasOutput(t: Tool, node: ParameterNode, scene: Scene): (r: bool)
    ensures r <==> exists j :: 0 <= j < |t.info.outputs| &&
                     FirstReference(scene, node, t.info.outputs[j].referenceRole).Some?
  {
    OutputBoundFrom(t.info.outputs, 0, node, scene)
  }

  /** An optional input never changes the gate: dropping all references of an
      optional slot's role, when no required slot shares it, keeps the answer. */
  lemma OptionalInputsIgnored(t: Tool, node: ParameterNode, scene: Scene, k: nat)
    requires k < |t.info.inputs| && !t.info.inputs[k].required
    requires forall j :: 0 <= j < |t.info.inputs| && t.info.inputs[j].required ==>
               t.info.inputs[j].referenceRole != t.info.inputs[k].referenceRole
    ensures HasRequiredInputs(t, node.(refs := node.refs - {t.info.inputs[k].referenceRole}), scene)
         == HasRequiredInputs(t, node, scene)
  {
    var role := t.info.inputs[k].referenceRole;
    var node' := node.(refs := node.refs - {role});
    forall j | 0 <= j < |t.info.inputs| && t.info.inputs[j].required
      ensures FirstReference(scene, node', t.info.inputs[j].referenceRole)
           == FirstReference(scene, node, t.info.inputs[j].referenceRole)
    {
      assert References(node', t.info.inputs[j].referenceRole)
          == References(node, t.info.inputs[j].referenceRole);
    }
  }

  // ---------------------------------------------------------------------
  // Referenced nodes

  /** `id` is among the IDs referenced under `role`. */
  predicate RefersTo(node: ParameterNode, role: string, id: NodeId) {
    id in ReferenceIds(node, role)
  }

  /** The referenced nodes that resolve in the scene, in reference order. */
  function Resolved(scene: Scene, ids: seq<NodeId>): (r: seq<NodeId>)
    ensures forall x :: x in r <==> x in ids && x in scene
    ensures |r| <= |ids|
  {
    if |ids| == 0 then []
    else (if ids[0] in scene then [ids[0]] else []) + Resolved(scene, ids[1..])
  }

  lemma {:induction false} ResolvedAppend(scene: Scene, a: seq<NodeId>, b: seq<NodeId>)
    ensures Resolved(scene, a + b) == Resolved(scene, a) + Resolved(scene, b)
    decreases |a|
  {
    if |a| > 0 {
      assert (a + b)[1..] == a[1..] + b;
      ResolvedAppend(scene, a[1..], b);
    } else {
      assert a + b == b;
    }
  }

  /** Some slot's role refers to `x`. */
  predicate ReferencedBySlot(infos: seq<NodeInfo>, node: ParameterNode, x: NodeId) {
    exists i :: 0 <= i < |infos| && RefersTo(node, infos[i].referenceRole, x)
  }

  /** A slot list refers to `x` iff its first slot or one of the rest does. */
  lemma ReferencedBySlotCons(infos: seq<NodeInfo>, node: ParameterNode, x: NodeId)
    requires |infos| > 0
    ensures ReferencedBySlot(infos, node, x) <==>
      RefersTo(node, infos[0].referenceRole, x) || ReferencedBySlot(infos[1..], node, x)
  {
    if ReferencedBySlot(infos, node, x) && !RefersTo(node, infos[0].referenceRole, x) {
      var i :| 0 <= i < |infos| && RefersTo(node, infos[i].referenceRole, x);
      assert infos[1..][i - 1] == infos[i];
    }
    if ReferencedBySlot(infos[1..], node, x) {
      var i :| 0 <= i < |infos[1..]| && RefersTo(node, infos[1..][i].referenceRole, x);
      assert infos[1..][i] == infos[i + 1];
    }
  }

  /** Every non-null reference of every slot, first by slot then by
      reference index (`GetInputNodes` / `GetOutputNodes`). */
  function ReferencedNodes(infos: seq<NodeInfo>, node: ParameterNode, scene: Scene): (r: seq<NodeId>)
    ensures forall x :: x in r <==> x in scene && ReferencedBySlot(infos, node, x)
  {
    if |infos| == 0 then []
    else
      var head := Resolved(scene, ReferenceIds(node, infos[0].referenceRole));
      var rest := ReferencedNodes(infos[1..], node, scene);
      assert forall x :: x in head + rest <==> x in scene && ReferencedBySlot(infos, node, x) by {
        forall x ensures x in head + rest <==> x in scene && ReferencedBySlot(infos, node, x) {
          ReferencedBySlotCons(infos, node, x);
        }
      }
      head + rest
  }

  /** The listing keeps slot order: the nodes of earlier slots come first. */
  lemma {:induction false} ReferencedNodesInSlotOrder(a: seq<NodeInfo>, b: seq<NodeInfo>, node: ParameterNode, scene: Scene)
    ensures ReferencedNodes(a + b, node, scene) == ReferencedNodes(a, node, scene) + ReferencedNodes(b, node, scene)
    decreases |a|
  {
    if |a| == 0 {
      assert a + b == b;
    } else {
      assert (a + b)[0] == a[0];
      assert (a + b)[1..] == a[1..] + b;
      ReferencedNodesInSlotOrder(a[1..], b, node, scene);
    }
  }

  function InputNodes(t: Tool, node: ParameterNode, scene: Scene): seq<NodeId> {
    ReferencedNodes(t.info.inputs, node, scene)
  }

  function OutputNodes(t: Tool, node: ParameterNode, scene: Scene): seq<NodeId> {
    ReferencedNodes(t.info.outputs, node, scene)
  }

  // ---------------------------------------------------------------------
  // Output display nodes

  /** `id` is a displayable node of the given class that has a display node. */
  predicate SuppliesDisplay(scene: Scene, id: NodeId, className: string) {
    && id in scene
    && Displayable(scene[id].kind)
    && ClassName(scene[id].kind) == className
    && scene[id].display.Some?
  }

  /** The display of the first input of the class that has one. */
  function FirstDisplaySource(scene: Scene, inputs: seq<NodeId>, className: string): (r: Option<DisplayStyle>)
    ensures r.None? <==> forall i :: 0 <= i < |inputs| ==> !SuppliesDisplay(scene, inputs[i], className)
    ensures r.Some? ==> exists i :: (
      && 0 <= i < |inputs| && SuppliesDisplay(scene, inputs[i], className)
      && r.value == scene[inputs[i]].display.value
      && forall j :: 0 <= j < i ==> !SuppliesDisplay(scene, inputs[j], className))
  {
    if |inputs| == 0 then None
    else if SuppliesDisplay(scene, inputs[0], className) then scene[inputs[0]].display
    else
      var r := FirstDisplaySource(scene, inputs[1..], className);
      assert forall i :: 1 <= i < |inputs| ==> inputs[i] == inputs[1..][i - 1];
      r
  }

  /** A displayable output without a display node gets one when its default
      display creation makes one; it is then copied from the first input of
      its class that has one, or left as the host default. */
  predicate NeedsDisplay(scene: Scene, id: NodeId) {
    id in scene && CreatesDefaultDisplay(scene[id].kind) && scene[id].display.None?
  }

  /** Gives one output a display node when it needs one. */
  function AddDisplay(scene: Scene, o: NodeId, inputs: seq<NodeId>): Scene {
    if NeedsDisplay(scene, o) then
      var style := FirstDisplaySource(scene, inputs, ClassName(scene[o].kind)).GetOr(HostDefault);
      scene[o := scene[o].(display := Some(style))]
    else scene
  }

  function CreateDisplays(scene: Scene, outputs: seq<NodeId>, inputs: seq<NodeId>): (s: Scene)
    ensures s.Keys == scene.Keys
    ensures forall id :: id in scene ==> s[id].kind == scene[id].kind
    ensures forall id :: id in scene && (id !in outputs || scene[id].display.Some?) ==> s[id] == scene[id]
    ensures forall id :: id in outputs && id in scene && CreatesDefaultDisplay(scene[id].kind) ==> s[id].display.Some?
    ensures forall id :: id in scene && !CreatesDefaultDisplay(scene[id].kind) ==> s[id] == scene[id]
    decreases |outputs|
  {
    if |outputs| == 0 then scene
    else
      var s := CreateDisplays(AddDisplay(scene, outputs[0], inputs), outputs[1..], inputs);
      assert forall id :: id in outputs[1..] ==> id in outputs;
      s
  }

  /** When no input is also an output, every new display copies the first
      same-class input's display, or the host default when none has one. */
  lemma {:induction false} CreateDisplaysCopiesInputStyle(scene: Scene, outputs: seq<NodeId>, inputs: seq<NodeId>)
    requires forall x :: x in inputs ==> x !in outputs
    ensures forall id :: id in outputs && NeedsDisplay(scene, id) ==>
      CreateDisplays(scene, outputs, inputs)[id].display
        == Some(FirstDisplaySource(scene, inputs, ClassName(scene[id].kind)).GetOr(HostDefault))
    decreases |outputs|
  {
    if |outputs| > 0 {
      var o := outputs[0];
      var next := AddDisplay(scene, o, inputs);
      assert o !in inputs;
      forall c ensures FirstDisplaySource(next, inputs, c) == FirstDisplaySource(scene, inputs, c) {
        InputDisplaysUnchanged(next, scene, inputs, c);
      }
      assert forall x :: x in outputs[1..] ==> x in outputs;
      CreateDisplaysCopiesInputStyle(next, outputs[1..], inputs);
    }
  }

  lemma {:induction false} InputDisplaysUnchanged(a: Scene, b: Scene, inputs: seq<NodeId>, className: string)
    requires forall i :: 0 <= i < |inputs| ==>
      && (inputs[i] in a <==> inputs[i] in b)
      && (inputs[i] in a ==> a[inputs[i]] == b[inputs[i]])
    ensures FirstDisplaySource(a, inputs, className) == FirstDisplaySource(b, inputs, className)
    decreases |inputs|
  {
    if |inputs| > 0 {
      InputDisplaysUnchanged(a, b, inputs[1..], className);
    }
  }

  /** `CreateOutputDisplayNodes`. */
  function CreateOutputDisplayNodes(t: Tool, node: ParameterNode, scene: Scene): Scene {
    CreateDisplays(scene, OutputNodes(t, node, scene), InputNodes(t, node, scene))
  }

  // ---------------------------------------------------------------------
  // Run

  /** What a tool writes to an output model: a new mesh, or (ROI cut on an
      empty input) the output's existing mesh re-initialised to empty. */
  datatype MeshWrite = SetMesh(target: NodeId, shape: Shape) | ResetMesh(target: NodeId)

  function Targets(writes: seq<MeshWrite>): seq<NodeId> {
    seq(|writes|, i requires 0 <= i < |writes| => writes[i].target)
  }

  /** The result of `RunInternal`: its return value and the outputs it wrote. */
  datatype RunResult = RunResult(success: bool, writes: seq<MeshWrite>)

  /** A tool's `RunInternal`, dispatched on the tool's class. */
  type Executor = (Tool, ParameterNode, Scene) -> RunResult

  /** The result of `Run`: its return value, the scene after output display
      nodes were created, and the outputs written. */
  datatype RunReport = RunReport(success: bool, scene: Scene, writes: seq<MeshWrite>)

  /** `Run`: fails without running when a required input or every output is
      missing; otherwise creates the output display nodes and returns exactly
      what `RunInternal` returns. */
  function Run(t: Tool, node: ParameterNode, scene: Scene, runInternal: Executor): (r: RunReport)
    ensures !HasRequiredInputs(t, node, scene) ==> r == RunReport(false, scene, [])
    ensures !HasOutput(t, node, scene) ==> r == RunReport(false, scene, [])
    ensures HasRequiredInputs(t, node, scene) && HasOutput(t, node, scene) ==>
      && r.scene == CreateOutputDisplayNodes(t, node, scene)
      && RunResult(r.success, r.writes) == runInternal(t, node, r.scene)
  {
    if !HasRequiredInputs(t, node, scene) then RunReport(false, scene, [])
    else if !HasOutput(t, node, scene) then RunReport(false, scene, [])
    else
      var prepared := CreateOutputDisplayNodes(t, node, scene);
      var result := runInternal(t, node, prepared);
      RunReport(result.success, prepared, result.writes)
  }

  /** When the gate fails, `RunInternal` is not invoked: the result is the
      same whatever it would have done. */
  lemma RunGateSkipsRunInternal(t: Tool, node: ParameterNode, scene: Scene, f: Executor, g: Executor)
    requires !HasRequiredInputs(t, node, scene) || !HasOutput(t, node, scene)
    ensures Run(t, node, scene, f) == Run(t, node, scene, g)
    ensures !Run(t, node, scene, f).success
  {
  }
}
