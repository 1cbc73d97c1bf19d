/** `RunInternal` dispatched on the tool's class, and what a run of a
    modelled tool may write: only the model nodes its output slots refer to,
    and nothing at all when it fails. */
module ToolDispatch {
  import opened Wrappers
  import opened Scene
  import opened ModelerTool
  import PlaneCut
  import ROICut
  import Mirror
  import Hollow
  import BoundaryCut

  /** What a run needs from outside the model: the geometric queries the
      boundary cut makes, and the `RunInternal` of the tools whose
      implementation is not part of this model. */
  datatype Kernel = Kernel(locators: BoundaryCut.Locators, unmodelled: Executor)

  /** The tools whose `RunInternal` this model defines. */
  predicate Modelled(k: ToolKind) {
    k.PlaneCutKind? || k.ROICutKind? || k.MirrorKind? || k.HollowKind? || k.BoundaryCutKind?
  }

  /** A built-in prototype (or a clone of one) of a modelled tool. */
  predicate ModelledPrototype(t: Tool) {
    || t == PlaneCut.Prototype() || t == ROICut.Prototype() || t == Mirror.Prototype()
    || t == Hollow.Prototype() || t == BoundaryCut.Prototype()
  }

  /** The virtual `RunInternal`: the class's own implementation. ROI cut runs
      in its corrected form, with its end cap taken into the output frame
      together with the clipped mesh; `ROICut.CapOrderOnlyDifference` bounds
      how far that is from the source's order. */
  function RunInternal(k: Kernel, t: Tool, node: ParameterNode, scene: Scene): RunResult {
    match t.kind
    case PlaneCutKind => PlaneCut.RunInternal(node, scene)
    case ROICutKind => ROICut.RunInternal(node, scene)
    case MirrorKind => Mirror.RunInternal(node, scene)
    case HollowKind => Hollow.RunInternal(node, scene)
    case BoundaryCutKind => BoundaryCut.RunInternal(node, scene, k.locators)
    case _ => k.unmodelled(t, node, scene)
  }

  function Execute(k: Kernel): Executor {
    (t: Tool, node: ParameterNode, scene: Scene) => RunInternal(k, t, node, scene)
  }

  /** A modelled tool does not consult the oracle for unmodelled tools, and
      only the boundary cut consults the locators. */
  lemma ModelledIgnoresOracle(k1: Kernel, k2: Kernel, t: Tool, node: ParameterNode, scene: Scene)
    requires Modelled(t.kind)
    requires t.kind.BoundaryCutKind? ==> k1.locators == k2.locators
    ensures RunInternal(k1, t, node, scene) == RunInternal(k2, t, node, scene)
  {
  }

  // ---------------------------------------------------------------------
  // Where a run writes

  /** The node a filled output slot refers to first is one of the tool's
      output nodes. */
  lemma FirstOutputReferenceListed(t: Tool, n: nat, node: ParameterNode, scene: Scene)
    requires n < |t.info.outputs|
    requires FirstReference(scene, node, t.info.outputs[n].referenceRole).Some?
    ensures FirstReference(scene, node, t.info.outputs[n].referenceRole).value in OutputNodes(t, node, scene)
  {
    var role := t.info.outputs[n].referenceRole;
    var id := FirstReference(scene, node, role).value;
    assert ReferenceIds(node, role)[0] == id;
    assert RefersTo(node, role, id);
  }

  /** An output model view looked up through slot `n` names an output node. */
  lemma OutputViewListed(t: Tool, n: nat, node: ParameterNode, scene: Scene, view: Option<ModelView>)
    requires n < |t.info.outputs|
    requires view == AsModel(scene, FirstReference(scene, node, t.info.outputs[n].referenceRole))
    requires view.Some?
    ensures view.value.id in OutputNodes(t, node, scene)
  {
    FirstOutputReferenceListed(t, n, node, scene);
  }

  predicate WritesOnly(writes: seq<MeshWrite>, ids: seq<NodeId>) {
    forall i :: 0 <= i < |writes| ==> writes[i].target in ids
  }

  lemma PlaneCutWritesOnlyOutputs(node: ParameterNode, scene: Scene)
    ensures WritesOnly(PlaneCut.RunInternal(node, scene).writes, OutputNodes(PlaneCut.Prototype(), node, scene))
  {
    var w := PlaneCut.RunInternal(node, scene).writes;
    if PlaneCut.Proceeds(node, scene) {
      var ids := PlaneCut.OutputIds(node, scene);
      PlaneCutOutputsListed(node, scene);
      forall i | 0 <= i < |w| ensures w[i].target in OutputNodes(PlaneCut.Prototype(), node, scene) {
        assert w[i].target == Targets(w)[i];
        assert Targets(w)[i] in ids;
      }
    }
  }

  /** The present plane-cut outputs are output nodes of the tool. */
  lemma PlaneCutOutputsListed(node: ParameterNode, scene: Scene)
    ensures forall x :: x in PlaneCut.OutputIds(node, scene) ==> x in OutputNodes(PlaneCut.Prototype(), node, scene)
  {
    var t := PlaneCut.Prototype();
    var positive := PlaneCut.PositiveOutput(node, scene);
    var negative := PlaneCut.NegativeOutput(node, scene);
    if positive.Some? {
      OutputViewListed(t, 0, node, scene, positive);
    }
    if negative.Some? {
      OutputViewListed(t, 1, node, scene, negative);
    }
  }

  lemma ROICutWritesOnlyOutputs(node: ParameterNode, scene: Scene)
    ensures WritesOnly(ROICut.RunInternal(node, scene).writes, OutputNodes(ROICut.Prototype(), node, scene))
  {
    var t := ROICut.Prototype();
    var w := ROICut.RunInternal(node, scene).writes;
    var ids := ROICut.Ids(ROICut.Outputs(node, scene));
    ROIOutputsListed(t, node, scene);
    if ROICut.EarlyExit(node, scene).None? {
      forall i | 0 <= i < |w| ensures w[i].target in ids {
        assert w[i].target == Targets(w)[i];
      }
    } else {
      ROIEarlyExitWritesOutputs(node, scene);
    }
    WritesOnlyWider(w, ids, OutputNodes(t, node, scene));
  }

  /** The ROI cut as the source writes it, with its cap appended after the
      change of frame, writes only its output nodes too. */
  lemma ROICutAsWrittenWritesOnlyOutputs(node: ParameterNode, scene: Scene)
    ensures WritesOnly(ROICut.RunInternalAsWritten(node, scene).writes, OutputNodes(ROICut.Prototype(), node, scene))
  {
    var t := ROICut.Prototype();
    var w := ROICut.RunInternalAsWritten(node, scene).writes;
    var ids := ROICut.Ids(ROICut.Outputs(node, scene));
    ROIOutputsListed(t, node, scene);
    if ROICut.EarlyExit(node, scene).None? {
      forall i | 0 <= i < |w| ensures w[i].target in ids {
        assert w[i].target == Targets(w)[i];
      }
    } else {
      ROIEarlyExitWritesOutputs(node, scene);
    }
    WritesOnlyWider(w, ids, OutputNodes(t, node, scene));
  }

  lemma WritesOnlyWider(w: seq<MeshWrite>, a: seq<NodeId>, b: seq<NodeId>)
    requires WritesOnly(w, a)
    requires forall x :: x in a ==> x in b
    ensures WritesOnly(w, b)
  {
  }

  /** The ROI cut's present outputs are output nodes of a tool with its
      output slots. */
  lemma ROIOutputsListed(t: Tool, node: ParameterNode, scene: Scene)
    requires |t.info.outputs| == 2
    requires t.info.outputs[0].referenceRole == ROICut.OutputInsideModelRole
    requires t.info.outputs[1].referenceRole == ROICut.OutputOutsideModelRole
    ensures forall x :: x in ROICut.Ids(ROICut.Outputs(node, scene)) ==> x in OutputNodes(t, node, scene)
  {
    var outputs := ROICut.Outputs(node, scene);
    var ids := ROICut.Ids(outputs);
    forall x | x in ids ensures x in OutputNodes(t, node, scene) {
      var i :| 0 <= i < |ids| && ids[i] == x;
      ROIOutputListed(t, node, scene, outputs[i]);
    }
  }

  lemma ROIOutputListed(t: Tool, node: ParameterNode, scene: Scene, v: ModelView)
    requires |t.info.outputs| == 2
    requires t.info.outputs[0].referenceRole == ROICut.OutputInsideModelRole
    requires t.info.outputs[1].referenceRole == ROICut.OutputOutsideModelRole
    requires v in ROICut.Outputs(node, scene)
    ensures v.id in OutputNodes(t, node, scene)
  {
    var inside := ROICut.InsideOutput(node, scene);
    var outside := ROICut.OutsideOutput(node, scene);
    if inside.Some? && v == inside.value {
      OutputViewListed(t, 0, node, scene, inside);
    } else {
      OutputViewListed(t, 1, node, scene, outside);
    }
  }

  /** The early exits of ROI cut write only its present outputs. */
  lemma ROIEarlyExitWritesOutputs(node: ParameterNode, scene: Scene)
    requires ROICut.EarlyExit(node, scene).Some?
    ensures WritesOnly(ROICut.EarlyExit(node, scene).value.writes, ROICut.Ids(ROICut.Outputs(node, scene)))
  {
    var t := ROICut.Prototype();
    var outputs := ROICut.Outputs(node, scene);
    var w := ROICut.EarlyExit(node, scene).value.writes;
    if HasRequiredInputs(t, node, scene) && outputs != [] && ROICut.InputModel(node, scene).Some? {
      forall i | 0 <= i < |w| ensures w[i].target in ROICut.Ids(outputs) {
        if NoPoints(ROICut.InputModel(node, scene).value.mesh) {
          assert w[i] in w;
          var k :| 0 <= k < |outputs| && outputs[k].mesh.Some? && w[i] == ResetMesh(outputs[k].id);
          assert ROICut.Ids(outputs)[k] == outputs[k].id;
        } else {
          assert ROICut.Ids(outputs)[i] == outputs[i].id;
        }
      }
    }
  }

  lemma SingleOutputToolWritesOnlyOutput(t: Tool, node: ParameterNode, scene: Scene, role: string, w: seq<MeshWrite>)
    requires |t.info.outputs| > 0 && t.info.outputs[0].referenceRole == role
    requires w != [] ==> (|w| == 1 && AsModel(scene, FirstReference(scene, node, role)).Some?
      && w[0].target == AsModel(scene, FirstReference(scene, node, role)).value.id)
    ensures WritesOnly(w, OutputNodes(t, node, scene))
  {
    if w != [] {
      var view := AsModel(scene, FirstReference(scene, node, role));
      OutputViewListed(t, 0, node, scene, view);
      var ids := OutputNodes(t, node, scene);
      assert w[0].target in ids;
      forall i | 0 <= i < |w| ensures w[i].target in ids {
        assert i == 0;
      }
    }
  }

  /** Dispatch reaches each modelled tool's own `RunInternal`. */
  lemma PlaneCutDispatch(k: Kernel, t: Tool, node: ParameterNode, scene: Scene)
    requires t.kind.PlaneCutKind?
    ensures RunInternal(k, t, node, scene) == PlaneCut.RunInternal(node, scene)
  {
  }

  lemma ROICutDispatch(k: Kernel, t: Tool, node: ParameterNode, scene: Scene)
    requires t.kind.ROICutKind?
    ensures RunInternal(k, t, node, scene) == ROICut.RunInternal(node, scene)
  {
  }

  lemma MirrorDispatch(k: Kernel, t: Tool, node: ParameterNode, scene: Scene)
    requires t.kind.MirrorKind?
    ensures RunInternal(k, t, node, scene) == Mirror.RunInternal(node, scene)
  {
  }

  lemma HollowDispatch(k: Kernel, t: Tool, node: ParameterNode, scene: Scene)
    requires t.kind.HollowKind?
    ensures RunInternal(k, t, node, scene) == Hollow.RunInternal(node, scene)
  {
  }

  lemma BoundaryCutDispatch(k: Kernel, t: Tool, node: ParameterNode, scene: Scene)
    requires t.kind.BoundaryCutKind?
    ensures RunInternal(k, t, node, scene) == BoundaryCut.RunInternal(node, scene, k.locators)
  {
  }

  lemma MirrorWritesOnlyOutput(node: ParameterNode, scene: Scene)
    ensures WritesOnly(Mirror.RunInternal(node, scene).writes, OutputNodes(Mirror.Prototype(), node, scene))
  {
    SingleOutputToolWritesOnlyOutput(Mirror.Prototype(), node, scene, Mirror.OutputModelRole, Mirror.RunInternal(node, scene).writes);
  }

  lemma HollowWritesOnlyOutput(node: ParameterNode, scene: Scene)
    ensures WritesOnly(Hollow.RunInternal(node, scene).writes, OutputNodes(Hollow.Prototype(), node, scene))
  {
    SingleOutputToolWritesOnlyOutput(Hollow.Prototype(), node, scene, Hollow.OutputModelRole, Hollow.RunInternal(node, scene).writes);
  }

  lemma BoundaryCutWritesOnlyOutput(loc: BoundaryCut.Locators, node: ParameterNode, scene: Scene)
    ensures WritesOnly(BoundaryCut.RunInternal(node, scene, loc).writes, OutputNodes(BoundaryCut.Prototype(), node, scene))
  {
    SingleOutputToolWritesOnlyOutput(BoundaryCut.Prototype(), node, scene, BoundaryCut.OutputModelRole,
                                     BoundaryCut.RunInternal(node, scene, loc).writes);
  }

  /** Every write of a modelled built-in tool targets one of the nodes the
      parameter node references as an output: inputs are never overwritten
      unless they are referenced as outputs too. */
  lemma WritesOnlyOutputs(k: Kernel, t: Tool, node: ParameterNode, scene: Scene)
    requires ModelledPrototype(t)
    ensures WritesOnly(RunInternal(k, t, node, scene).writes, OutputNodes(t, node, scene))
  {
    if t == PlaneCut.Prototype() {
      PlaneCutDispatch(k, t, node, scene);
      PlaneCutWritesOnlyOutputs(node, scene);
    } else if t == ROICut.Prototype() {
      ROICutDispatch(k, t, node, scene);
      ROICutWritesOnlyOutputs(node, scene);
    } else if t == Mirror.Prototype() {
      MirrorDispatch(k, t, node, scene);
      MirrorWritesOnlyOutput(node, scene);
    } else if t == Hollow.Prototype() {
      HollowDispatch(k, t, node, scene);
      HollowWritesOnlyOutput(node, scene);
    } else {
      BoundaryCutDispatch(k, t, node, scene);
      BoundaryCutWritesOnlyOutput(k.locators, node, scene);
    }
  }

  /** A failing run of a modelled tool writes nothing. */
  lemma FailureWritesNothing(k: Kernel, t: Tool, node: ParameterNode, scene: Scene)
    requires Modelled(t.kind)
    requires !RunInternal(k, t, node, scene).success
    ensures RunInternal(k, t, node, scene).writes == []
  {
    if t.kind.PlaneCutKind? {
      PlaneCutDispatch(k, t, node, scene);
    } else if t.kind.ROICutKind? {
      ROICutDispatch(k, t, node, scene);
    } else if t.kind.MirrorKind? {
      MirrorDispatch(k, t, node, scene);
    } else if t.kind.HollowKind? {
      HollowDispatch(k, t, node, scene);
    } else {
      BoundaryCutDispatch(k, t, node, scene);
    }
  }
}
