/** The module logic: the table binding each dynamic-modeler parameter node
    to a tool instance, kept in step with the node's tool name, and the scene
    and node events that bind, observe and run the tools. */
module ModelerLogic {
  import opened Wrappers
  import opened Scene
  import opened ModelerTool
  import opened ToolFactory
  import opened ToolDispatch

  /** A tool instance owned by the logic. Instances are values, so the
      instance number stands for the object's identity: a new instance gets a
      number no other instance has. */
  datatype Binding = Binding(tool: Tool, instance: nat)

  /** The logic's state: the factory's registry, the parameter-node-ID to
      tool table (an entry may hold null), and the next unused instance number. */
  datatype Logic = Logic(registry: Registry, tools: map<NodeId, Option<Binding>>, nextInstance: nat)

  /** Every bound instance comes from the registry, has a number already
      handed out, and no two parameter nodes share an instance. */
  predicate Valid(logic: Logic) {
    && (forall id :: id in logic.tools && logic.tools[id].Some? ==>
          logic.tools[id].value.instance < logic.nextInstance && logic.tools[id].value.tool in logic.registry)
    && (forall a, b :: (a in logic.tools && b in logic.tools && a != b
          && logic.tools[a].Some? && logic.tools[b].Some?) ==>
          logic.tools[a].value.instance != logic.tools[b].value.instance)
  }

  function Init(registry: Registry): (logic: Logic)
    ensures Valid(logic) && logic.tools == map[]
  {
    Logic(registry, map[], 0)
  }

  /** `GetDynamicModelerTool`: the node's entry, or null when it has none. */
  function GetDynamicModelerTool(logic: Logic, node: ParameterNode): (b: Option<Binding>)
    ensures b.Some? <==> node.id in logic.tools && logic.tools[node.id].Some?
    ensures b.Some? ==> b == logic.tools[node.id]
  {
    if node.id in logic.tools then logic.tools[node.id] else None
  }

  // ---------------------------------------------------------------------
  // Observation of input references

  /** Every reference of a role set to the given observation; the referenced
      IDs stay as they are. */
  function SetObservation(node: ParameterNode, role: string, obs: Option<seq<EventKind>>): (r: ParameterNode)
    ensures r.id == node.id && r.toolName == node.toolName
    ensures r.continuousUpdate == node.continuousUpdate && r.attrs == node.attrs
    ensures forall q :: ReferenceIds(r, q) == ReferenceIds(node, q)
    ensures forall q :: q != role ==> References(r, q) == References(node, q)
    ensures forall k :: 0 <= k < |References(r, role)| ==> References(r, role)[k].observed == obs
  {
    if role !in node.refs then node
    else
      var refs := node.refs[role];
      var updated := seq(|refs|, k requires 0 <= k < |refs| => NodeReference(refs[k].id, obs));
      var r := node.(refs := node.refs[role := updated]);
      assert ReferenceIds(r, role) == ReferenceIds(node, role);
      r
  }

  /** The observation an input slot asks for: its events, or none. */
  function Observation(info: NodeInfo, observe: bool): Option<seq<EventKind>> {
    if observe then Some(info.events) else None
  }

  /** No later slot shares slot k's role. */
  predicate LastWithRole(infos: seq<NodeInfo>, k: nat)
    requires k < |infos|
  {
    forall m :: k < m < |infos| ==> infos[m].referenceRole != infos[k].referenceRole
  }

  /** The references of every slot's role set, slot by slot, to the slot's
      observation (`SetNthNodeReferenceID` or `SetAndObserveNthNodeReferenceID`
      on each reference). */
  function ObserveSlots(node: ParameterNode, infos: seq<NodeInfo>, observe: bool): (r: ParameterNode)
    ensures r.id == node.id && r.toolName == node.toolName
    ensures r.continuousUpdate == node.continuousUpdate && r.attrs == node.attrs
    ensures forall q :: ReferenceIds(r, q) == ReferenceIds(node, q)
    ensures forall q :: (forall k :: 0 <= k < |infos| ==> infos[k].referenceRole != q) ==>
      References(r, q) == References(node, q)
    ensures forall k, j :: 0 <= k < |infos| && LastWithRole(infos, k) && 0 <= j < |References(r, infos[k].referenceRole)| ==>
      References(r, infos[k].referenceRole)[j].observed == Observation(infos[k], observe)
    decreases |infos|
  {
    if |infos| == 0 then node
    else
      var first := SetObservation(node, infos[0].referenceRole, Observation(infos[0], observe));
      var r := ObserveSlots(first, infos[1..], observe);
      assert forall k :: 1 <= k < |infos| ==> infos[1..][k - 1] == infos[k];
      assert forall k :: 1 <= k < |infos| && LastWithRole(infos, k) ==> LastWithRole(infos[1..], k - 1);
      r
  }

  // ---------------------------------------------------------------------
  // Binding a tool

  /** The entry a node gets when its tool is (re)created: a fresh instance of
      the registry's first tool with the node's tool name, or null. */
  function Created(logic: Logic, node: ParameterNode): (b: Option<Binding>)
    ensures b.Some? <==> node.toolName.Some? && node.toolName.value in Names(logic.registry)
    ensures b.Some? ==> b.value.tool.name == node.toolName.value && b.value.tool in logic.registry
    ensures b.Some? ==> b.value.instance == logic.nextInstance
  {
    if node.toolName.None? then None
    else
      match CreateToolByName(logic.registry, node.toolName.value)
      case None => None
      case Some(t) => Some(Binding(t, logic.nextInstance))
  }

  /** The node keeps its bound instance: one is bound and its name is the
      node's tool name. */
  predicate KeepsTool(logic: Logic, node: ParameterNode)
    requires GetDynamicModelerTool(logic, node).Some? ==> node.toolName.Some?
  {
    var bound := GetDynamicModelerTool(logic, node);
    bound.Some? && bound.value.tool.name == node.toolName.value
  }

  /** `UpdateDynamicModelerTool`. When no tool is bound or the bound tool's
      name differs from the node's tool name, the old tool's input references
      are put back unobserved and a new instance is created by name (null when
      the node has no tool name or no tool has that name). The bound tool's
      input references are then observed for the events of their slot. The
      node's bound tool must have a name to compare with: comparing a tool's
      name with a null tool name is undefined in the source. */
  function UpdateDynamicModelerTool(logic: Logic, node: ParameterNode): (u: (Logic, ParameterNode))
    requires GetDynamicModelerTool(logic, node).Some? ==> node.toolName.Some?
    ensures u.0.registry == logic.registry
    ensures u.0.tools.Keys == logic.tools.Keys + {node.id}
    ensures forall id :: id in logic.tools && id != node.id ==> u.0.tools[id] == logic.tools[id]
    ensures KeepsTool(logic, node) ==> u.0 == logic
    ensures !KeepsTool(logic, node) ==> u.0.tools[node.id] == Created(logic, node)
    ensures u.0.nextInstance == logic.nextInstance + (if u.0.tools[node.id].Some? && !KeepsTool(logic, node) then 1 else 0)
    ensures u.1.id == node.id && u.1.toolName == node.toolName
    ensures u.1.continuousUpdate == node.continuousUpdate && u.1.attrs == node.attrs
    ensures forall q :: ReferenceIds(u.1, q) == ReferenceIds(node, q)
  {
    var bound := GetDynamicModelerTool(logic, node);
    if KeepsTool(logic, node) then
      (logic, ObserveSlots(node, bound.value.tool.info.inputs, true))
    else
      var unobserved := if bound.Some? then ObserveSlots(node, bound.value.tool.info.inputs, false) else node;
      var created := Created(logic, node);
      var logic' := logic.(tools := logic.tools[node.id := created],
                           nextInstance := logic.nextInstance + (if created.Some? then 1 else 0));
      if created.Some? then (logic', ObserveSlots(unobserved, created.value.tool.info.inputs, true))
      else (logic', unobserved)
  }

  /** After an update, every reference of each input slot of the bound tool is
      observed for that slot's events (the last slot wins when two share a
      role). */
  lemma UpdateObservesInputs(logic: Logic, node: ParameterNode)
    requires GetDynamicModelerTool(logic, node).Some? ==> node.toolName.Some?
    requires UpdateDynamicModelerTool(logic, node).0.tools[node.id].Some?
    ensures var u := UpdateDynamicModelerTool(logic, node);
      var infos := u.0.tools[node.id].value.tool.info.inputs;
      forall k, j :: 0 <= k < |infos| && LastWithRole(infos, k) && 0 <= j < |References(u.1, infos[k].referenceRole)| ==>
        References(u.1, infos[k].referenceRole)[j].observed == Some(infos[k].events)
  {
  }

  /** After an update the node's entry is a tool named by the node's tool
      name, or null exactly when the node has no tool name or the registry has
      no tool of that name. */
  lemma UpdateBindsByName(logic: Logic, node: ParameterNode)
    requires Valid(logic)
    requires GetDynamicModelerTool(logic, node).Some? ==> node.toolName.Some?
    ensures var entry := UpdateDynamicModelerTool(logic, node).0.tools[node.id];
      && (entry.Some? ==> entry.value.tool.name == node.toolName.value)
      && (entry.None? <==> node.toolName.None? || node.toolName.value !in Names(logic.registry))
  {
    var bound := GetDynamicModelerTool(logic, node);
    if KeepsTool(logic, node) {
      var i :| 0 <= i < |logic.registry| && logic.registry[i] == bound.value.tool;
      assert Names(logic.registry)[i] == node.toolName.value;
    }
  }

  /** Changing tools drops the observers of the old tool's input references
      whose role the new tool does not use. */
  lemma UpdateUnobservesOldInputs(logic: Logic, node: ParameterNode)
    requires GetDynamicModelerTool(logic, node).Some? && node.toolName.Some?
    requires !KeepsTool(logic, node)
    ensures var u := UpdateDynamicModelerTool(logic, node);
      var before := GetDynamicModelerTool(logic, node).value.tool.info.inputs;
      var now := if u.0.tools[node.id].Some? then u.0.tools[node.id].value.tool.info.inputs else [];
      forall k, j :: (0 <= k < |before| && LastWithRole(before, k)
        && (forall m :: 0 <= m < |now| ==> now[m].referenceRole != before[k].referenceRole)
        && 0 <= j < |References(u.1, before[k].referenceRole)|) ==>
        References(u.1, before[k].referenceRole)[j].observed.None?
  {
  }

  /** An update keeps the table valid: a new instance gets the next number. */
  lemma UpdateKeepsValid(logic: Logic, node: ParameterNode)
    requires Valid(logic)
    requires GetDynamicModelerTool(logic, node).Some? ==> node.toolName.Some?
    ensures Valid(UpdateDynamicModelerTool(logic, node).0)
  {
  }

  /** Updating twice changes nothing more: the second update keeps the tool
      the first one bound. */
  lemma UpdateIdempotent(logic: Logic, node: ParameterNode)
    requires GetDynamicModelerTool(logic, node).Some? ==> node.toolName.Some?
    ensures var u := UpdateDynamicModelerTool(logic, node);
      && (GetDynamicModelerTool(u.0, u.1).Some? ==> u.1.toolName.Some?)
      && UpdateDynamicModelerTool(u.0, u.1).0 == u.0
  {
  }

  // ---------------------------------------------------------------------
  // Circular references

  /** Some filled input slot's first reference is also an output slot's
      first reference. */
  predicate Circular(t: Tool, node: ParameterNode, scene: Scene) {
    exists i: nat, j: nat :: i < |t.info.inputs| && j < |t.info.outputs|
      && NthInputNode(t, i, node, scene).Some?
      && NthInputNode(t, i, node, scene) == NthOutputNode(t, j, node, scene)
  }

  /** `HasCircularReference`: false when no tool is bound; otherwise whether an
      output node is among the input nodes, collected first, then searched
      output by output. */
  method HasCircularReference(logic: Logic, node: ParameterNode, scene: Scene) returns (r: bool)
    ensures r <==> GetDynamicModelerTool(logic, node).Some?
                   && Circular(GetDynamicModelerTool(logic, node).value.tool, node, scene)
  {
    var bound := GetDynamicModelerTool(logic, node);
    if bound.None? {
      return false;
    }
    var t := bound.value.tool;
    var inputs: seq<NodeId> := [];
    var i := 0;
    while i < NumberOfInputNodes(t)
      invariant 0 <= i <= NumberOfInputNodes(t)
      invariant forall x :: x in inputs <==> exists k: nat :: k < i && NthInputNode(t, k, node, scene) == Some(x)
    {
      var input := NthInputNode(t, i, node, scene);
      if input.Some? {
        inputs := inputs + [input.value];
      }
      i := i + 1;
    }
    var j := 0;
    while j < NumberOfOutputNodes(t)
      invariant 0 <= j <= NumberOfOutputNodes(t)
      invariant forall m: nat :: m < j && NthOutputNode(t, m, node, scene).Some? ==>
        NthOutputNode(t, m, node, scene).value !in inputs
    {
      var output := NthOutputNode(t, j, node, scene);
      if output.Some? && output.value in inputs {
        var k: nat :| k < |t.info.inputs| && NthInputNode(t, k, node, scene) == Some(output.value);
        assert NthInputNode(t, k, node, scene) == NthOutputNode(t, j, node, scene);
        return true;
      }
      j := j + 1;
    }
    return false;
  }

  /** The node's bound tool has a circular reference. */
  predicate CircularReference(logic: Logic, node: ParameterNode, scene: Scene) {
    var bound := GetDynamicModelerTool(logic, node);
    bound.Some? && Circular(bound.value.tool, node, scene)
  }

  // ---------------------------------------------------------------------
  // Running

  /** `RunDynamicModelerTool`: nothing happens (`None`) when the node has no
      tool name, no tool is bound, or a required input is missing; otherwise
      the bound tool runs. */
  function RunDynamicModelerTool(logic: Logic, node: ParameterNode, scene: Scene, kernel: Kernel): (r: Option<RunReport>)
    ensures r.Some? <==>
      && node.toolName.Some? && GetDynamicModelerTool(logic, node).Some?
      && HasRequiredInputs(GetDynamicModelerTool(logic, node).value.tool, node, scene)
    ensures r.Some? ==> r.value == Run(GetDynamicModelerTool(logic, node).value.tool, node, scene, Execute(kernel))
  {
    if node.toolName.None? then None
    else
      var bound := GetDynamicModelerTool(logic, node);
      if bound.None? then None
      else if !HasRequiredInputs(bound.value.tool, node, scene) then None
      else Some(Run(bound.value.tool, node, scene, Execute(kernel)))
  }

  /** A run of a bound built-in tool writes only the models its parameter
      node references as outputs. */
  lemma RunWritesOnlyOutputs(logic: Logic, node: ParameterNode, scene: Scene, kernel: Kernel)
    requires RunDynamicModelerTool(logic, node, scene, kernel).Some?
    requires ModelledPrototype(GetDynamicModelerTool(logic, node).value.tool)
    ensures WritesOnly(RunDynamicModelerTool(logic, node, scene, kernel).value.writes,
                       OutputNodes(GetDynamicModelerTool(logic, node).value.tool, node, scene))
  {
    var t := GetDynamicModelerTool(logic, node).value.tool;
    if HasOutput(t, node, scene) {
      var prepared := CreateOutputDisplayNodes(t, node, scene);
      WritesOnlyOutputs(kernel, t, node, prepared);
      OutputNodesFollowKeys(t, node, prepared, scene);
    }
  }

  /** Which nodes are listed depends only on which IDs the scene holds. */
  lemma OutputNodesFollowKeys(t: Tool, node: ParameterNode, a: Scene, b: Scene)
    requires a.Keys == b.Keys
    ensures forall x :: x in OutputNodes(t, node, a) <==> x in OutputNodes(t, node, b)
  {
  }

  // ---------------------------------------------------------------------
  // Events

  /** The logic and parameter node after an event, and the run it caused. */
  datatype Handled = Handled(logic: Logic, node: ParameterNode, run: Option<RunReport>)

  /** `OnDMMLSceneNodeAdded`: ignored while the scene imports; otherwise the
      node's entry is reset, its tool bound by name and run. */
  function OnNodeAdded(logic: Logic, node: ParameterNode, importing: bool, scene: Scene, kernel: Kernel): (h: Handled)
    ensures importing ==> h == Handled(logic, node, None)
    ensures !importing ==>
      && h.logic.tools.Keys == logic.tools.Keys + {node.id}
      && h.logic.tools[node.id] == Created(logic, node)
      && h.run == RunDynamicModelerTool(h.logic, h.node, scene, kernel)
  {
    if importing then Handled(logic, node, None)
    else
      var reset := logic.(tools := logic.tools[node.id := None]);
      var u := UpdateDynamicModelerTool(reset, node);
      Handled(u.0, u.1, RunDynamicModelerTool(u.0, u.1, scene, kernel))
  }

  /** `OnDMMLSceneNodeRemoved`: the node's entry is dropped, if it has one. */
  function OnNodeRemoved(logic: Logic, id: NodeId): (r: Logic)
    ensures r.tools.Keys == logic.tools.Keys - {id}
    ensures forall x :: x in r.tools ==> r.tools[x] == logic.tools[x]
    ensures r.registry == logic.registry && r.nextInstance == logic.nextInstance
  {
    if id in logic.tools then logic.(tools := map x | x in logic.tools && x != id :: logic.tools[x]) else logic
  }

  function IdsOf(nodes: seq<ParameterNode>): set<NodeId> {
    set k | 0 <= k < |nodes| :: nodes[k].id
  }

  lemma IdsOfCons(nodes: seq<ParameterNode>)
    requires |nodes| > 0
    ensures IdsOf(nodes) == {nodes[0].id} + IdsOf(nodes[1..])
  {
    forall x | x in IdsOf(nodes) ensures x in {nodes[0].id} + IdsOf(nodes[1..]) {
      var k :| 0 <= k < |nodes| && nodes[k].id == x;
      if k > 0 {
        assert nodes[1..][k - 1].id == x;
      }
    }
  }

  /** One node of an import: its entry reset, then its tool bound by name. */
  function ImportNode(logic: Logic, node: ParameterNode): (u: (Logic, ParameterNode))
    ensures u.0.registry == logic.registry
    ensures u.0.tools.Keys == logic.tools.Keys + {node.id}
    ensures forall id :: id in logic.tools && id != node.id ==> u.0.tools[id] == logic.tools[id]
    ensures u.1.id == node.id && u.1.toolName == node.toolName
  {
    UpdateDynamicModelerTool(logic.(tools := logic.tools[node.id := None]), node)
  }

  /** `OnDMMLSceneEndImport`: every parameter node of the scene gets its entry
      reset and its tool bound by name, in scene order; nothing runs. */
  function OnEndImport(logic: Logic, nodes: seq<ParameterNode>): (r: (Logic, seq<ParameterNode>))
    ensures |r.1| == |nodes|
    ensures r.0.registry == logic.registry
    ensures r.0.tools.Keys == logic.tools.Keys + IdsOf(nodes)
    ensures forall k :: 0 <= k < |nodes| ==> r.1[k].id == nodes[k].id && r.1[k].toolName == nodes[k].toolName
    decreases |nodes|
  {
    if |nodes| == 0 then (logic, [])
    else
      var u := ImportNode(logic, nodes[0]);
      var rest := OnEndImport(u.0, nodes[1..]);
      IdsOfCons(nodes);
      (rest.0, [u.1] + rest.1)
  }

  /** An import binds each node whose ID is not repeated later to a tool
      with its tool name, when the registry has one. */
  lemma {:induction false} EndImportBindsByName(logic: Logic, nodes: seq<ParameterNode>, k: nat)
    requires k < |nodes|
    requires forall m :: k < m < |nodes| ==> nodes[m].id != nodes[k].id
    ensures var r := OnEndImport(logic, nodes).0;
      && (r.tools[nodes[k].id].Some? <==>
           nodes[k].toolName.Some? && nodes[k].toolName.value in Names(logic.registry))
      && (r.tools[nodes[k].id].Some? ==> r.tools[nodes[k].id].value.tool.name == nodes[k].toolName.value)
    decreases |nodes|
  {
    var reset := logic.(tools := logic.tools[nodes[0].id := None]);
    var u := UpdateDynamicModelerTool(reset, nodes[0]);
    if k > 0 {
      forall m | k - 1 < m < |nodes[1..]| ensures nodes[1..][m].id != nodes[1..][k - 1].id {
        assert nodes[1..][m] == nodes[m + 1];
      }
      EndImportBindsByName(u.0, nodes[1..], k - 1);
    } else {
      EndImportKeeps(u.0, nodes[1..], nodes[0].id);
    }
  }

  /** An import leaves the entries of IDs it does not list as they were. */
  lemma {:induction false} EndImportKeeps(logic: Logic, nodes: seq<ParameterNode>, id: NodeId)
    requires id in logic.tools
    requires forall m :: 0 <= m < |nodes| ==> nodes[m].id != id
    ensures OnEndImport(logic, nodes).0.tools[id] == logic.tools[id]
    decreases |nodes|
  {
    if |nodes| > 0 {
      EndImportKeeps(ImportNode(logic, nodes[0]).0, nodes[1..], id);
    }
  }

  /** An import keeps the table valid. */
  lemma {:induction false} EndImportKeepsValid(logic: Logic, nodes: seq<ParameterNode>)
    requires Valid(logic)
    ensures Valid(OnEndImport(logic, nodes).0)
    decreases |nodes|
  {
    if |nodes| > 0 {
      var reset := logic.(tools := logic.tools[nodes[0].id := None]);
      UpdateKeepsValid(reset, nodes[0]);
      EndImportKeepsValid(UpdateDynamicModelerTool(reset, nodes[0]).0, nodes[1..]);
    }
  }

  /** Adding a node keeps the table valid. */
  lemma OnNodeAddedKeepsValid(logic: Logic, node: ParameterNode, importing: bool, scene: Scene, kernel: Kernel)
    requires Valid(logic)
    ensures Valid(OnNodeAdded(logic, node, importing, scene, kernel).logic)
  {
    if !importing {
      UpdateKeepsValid(logic.(tools := logic.tools[node.id := None]), node);
    }
  }

  /** `ProcessDMMLNodesEvents` for a parameter node. Ignored while the scene
      imports. A modified event re-binds the tool; if continuous update is on
      and the bound tool has a circular reference, continuous update is
      switched off and nothing runs. Otherwise the tool runs when continuous
      update is on and a tool is bound. */
  function ProcessNodeEvent(logic: Logic, node: ParameterNode, event: EventKind, importing: bool,
                            scene: Scene, kernel: Kernel): (h: Handled)
    requires event == ModifiedEvent && GetDynamicModelerTool(logic, node).Some? ==> node.toolName.Some?
    ensures importing ==> h == Handled(logic, node, None)
    ensures !importing && event != ModifiedEvent ==> h.logic == logic && h.node == node
    ensures !importing && event == ModifiedEvent ==> h.logic == UpdateDynamicModelerTool(logic, node).0
    ensures h.node.id == node.id && h.node.toolName == node.toolName
    ensures !importing && event == ModifiedEvent && node.continuousUpdate
            && CircularReference(h.logic, UpdateDynamicModelerTool(logic, node).1, scene) ==>
      !h.node.continuousUpdate && h.run.None?
    ensures !importing && h.node.continuousUpdate && GetDynamicModelerTool(h.logic, h.node).Some? ==>
      h.run == RunDynamicModelerTool(h.logic, h.node, scene, kernel)
    ensures !h.node.continuousUpdate || GetDynamicModelerTool(h.logic, h.node).None? ==> h.run.None?
  {
    if importing then Handled(logic, node, None)
    else
      var (logic', node') :=
        if event == ModifiedEvent then UpdateDynamicModelerTool(logic, node) else (logic, node);
      if event == ModifiedEvent && node'.continuousUpdate && CircularReference(logic', node', scene) then
        Handled(logic', node'.(continuousUpdate := false), None)
      else if node'.continuousUpdate && GetDynamicModelerTool(logic', node').Some? then
        Handled(logic', node', RunDynamicModelerTool(logic', node', scene, kernel))
      else Handled(logic', node', None)
  }

  /** The interlock: whatever the event, a run caused by it happens only with
      continuous update on, and a modified event never runs a tool that would
      overwrite one of its own inputs. */
  lemma ContinuousUpdateGatesRuns(logic: Logic, node: ParameterNode, event: EventKind, importing: bool,
                                  scene: Scene, kernel: Kernel)
    requires event == ModifiedEvent && GetDynamicModelerTool(logic, node).Some? ==> node.toolName.Some?
    ensures var h := ProcessNodeEvent(logic, node, event, importing, scene, kernel);
      && (h.run.Some? ==> node.continuousUpdate && h.node.continuousUpdate)
      && (h.run.Some? && event == ModifiedEvent ==> !CircularReference(h.logic, h.node, scene))
  {
  }

  /** Handling a node event keeps the table valid. */
  lemma ProcessNodeEventKeepsValid(logic: Logic, node: ParameterNode, event: EventKind, importing: bool,
                                   scene: Scene, kernel: Kernel)
    requires Valid(logic)
    requires event == ModifiedEvent && GetDynamicModelerTool(logic, node).Some? ==> node.toolName.Some?
    ensures Valid(ProcessNodeEvent(logic, node, event, importing, scene, kernel).logic)
  {
    if !importing && event == ModifiedEvent {
      UpdateKeepsValid(logic, node);
    }
  }
}
