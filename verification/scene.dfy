/** The host scene as the modeler sees it: the nodes a parameter node refers
    to (models, markups, slices), and the dynamic-modeler parameter node itself
    with its tool name, continuous-update flag, role-keyed node references and
    string attributes. */
module Scene {
  import opened Wrappers
  import opened Geometry
  import opened Shapes

  type NodeId = string

  /** Events a reference may be observed for. */
  datatype EventKind =
    | ModifiedEvent
    | MeshModifiedEvent
    | TransformModifiedEvent
    | PointModifiedEvent
    | InputNodeModifiedEvent

  datatype ROIType = Box | BoundingBox | OtherROIType(code: int)

  /** The content of a display node; copying one display node into another
      copies its style. */
  datatype DisplayStyle = HostDefault | Style(tag: nat)

  /** The node classes the tools distinguish. Positions and planes are in world
      coordinates: a slice node carries the plane its slice-to-RAS matrix maps
      the slice's origin and z axis to. */
  datatype NodeKind =
    | Model(mesh: Option<Mesh>, parent: Option<NodeId>)
    | MarkupsPlane(plane: Plane, valid: bool)
    | Slice(plane: Plane)
    | MarkupsCurve(controlPoints: seq<Vec3>, curvePoints: Option<seq<Vec3>>)
    | MarkupsFiducial(controlPoints: seq<Vec3>)
    | MarkupsROI(roiType: ROIType, planes: seq<Plane>)
    | OtherNode(className: string, displayable: bool, createsDisplay: bool)

  datatype SceneNode = SceneNode(kind: NodeKind, display: Option<DisplayStyle>)

  type Scene = map<NodeId, SceneNode>

  function ClassName(k: NodeKind): string {
    match k
    case Model(_, _) => "vtkDMMLModelNode"
    case MarkupsPlane(_, _) => "vtkDMMLMarkupsPlaneNode"
    case Slice(_) => "vtkDMMLSliceNode"
    case MarkupsCurve(_, _) => "vtkDMMLMarkupsCurveNode"
    case MarkupsFiducial(_) => "vtkDMMLMarkupsFiducialNode"
    case MarkupsROI(_, _) => "vtkDMMLMarkupsROINode"
    case OtherNode(c, _, _) => c
  }

  /** Whether the node is a `vtkDMMLDisplayableNode` (slice nodes are not). */
  predicate Displayable(k: NodeKind) {
    match k
    case Slice(_) => false
    case OtherNode(_, d, _) => d
    case _ => true
  }

  /** Whether `CreateDefaultDisplayNodes` gives the node a display node. The
      models and markups do; the base displayable class creates none, so
      another displayable node does only when its class says so. */
  predicate CreatesDefaultDisplay(k: NodeKind) {
    match k
    case Slice(_) => false
    case OtherNode(_, d, c) => d && c
    case _ => true
  }

  /** One reference of a role: the referenced node's ID and, when the
      reference is observed, the events it is observed for. */
  datatype NodeReference = NodeReference(id: NodeId, observed: Option<seq<EventKind>>)

  /** The dynamic-modeler parameter node. The tool name is null by default and
      continuous update is off by default. */
  datatype ParameterNode = ParameterNode(
    id: NodeId,
    toolName: Option<string>,
    continuousUpdate: bool,
    refs: map<string, seq<NodeReference>>,
    attrs: map<string, string>)

  function References(node: ParameterNode, role: string): seq<NodeReference> {
    if role in node.refs then node.refs[role] else []
  }

  /** `GetNodeReferenceIDs`: the IDs of a role's references, in order. */
  function ReferenceIds(node: ParameterNode, role: string): (ids: seq<NodeId>)
    ensures |ids| == |References(node, role)|
    ensures forall i :: 0 <= i < |ids| ==> ids[i] == References(node, role)[i].id
  {
    seq(|References(node, role)|, i requires 0 <= i < |References(node, role)| => References(node, role)[i].id)
  }

  function NumberOfReferences(node: ParameterNode, role: string): nat {
    |References(node, role)|
  }

  /** `GetNthNodeReference`: the n-th referenced node, or null when there is no
      n-th reference or its node is not in the scene. */
  function NthReference(scene: Scene, node: ParameterNode, role: string, n: nat): (r: Option<NodeId>)
    ensures r.Some? <==> n < NumberOfReferences(node, role) && ReferenceIds(node, role)[n] in scene
    ensures r.Some? ==> r.value == ReferenceIds(node, role)[n] && r.value in scene
  {
    var ids := ReferenceIds(node, role);
    if n < |ids| && ids[n] in scene then Some(ids[n]) else None
  }

  /** `GetNodeReference`: the first reference of a role. */
  function FirstReference(scene: Scene, node: ParameterNode, role: string): Option<NodeId> {
    NthReference(scene, node, role, 0)
  }

  /** `GetAttribute`: null when the node has no attribute of that name. */
  function Attribute(node: ParameterNode, key: string): Option<string> {
    if key in node.attrs then Some(node.attrs[key]) else None
  }

  /** A model node seen through `vtkDMMLModelNode::SafeDownCast`. */
  datatype ModelView = ModelView(id: NodeId, mesh: Option<Mesh>, parent: Option<NodeId>)

  function AsModel(scene: Scene, r: Option<NodeId>): (m: Option<ModelView>)
    ensures m.Some? <==> r.Some? && r.value in scene && scene[r.value].kind.Model?
    ensures m.Some? ==> m.value.id == r.value
    ensures m.Some? ==> scene[m.value.id].kind == Model(m.value.mesh, m.value.parent)
  {
    if r.Some? && r.value in scene && scene[r.value].kind.Model? then
      Some(ModelView(r.value, scene[r.value].kind.mesh, scene[r.value].kind.parent))
    else None
  }

  /** The world plane of a markups plane or slice node; null for any other node.
      A markups plane is read whether or not it is valid. */
  function AsPlane(scene: Scene, r: Option<NodeId>): (p: Option<Plane>)
    ensures p.Some? <==> r.Some? && r.value in scene
                         && (scene[r.value].kind.MarkupsPlane? || scene[r.value].kind.Slice?)
    ensures p.Some? ==> p.value == scene[r.value].kind.plane
  {
    if r.Some? && r.value in scene then
      match scene[r.value].kind
      case MarkupsPlane(plane, _) => Some(plane)
      case Slice(plane) => Some(plane)
      case _ => None
    else None
  }

  /** A mesh the tools treat as empty: missing, or without points. */
  predicate NoPoints(mesh: Option<Mesh>) {
    mesh.None? || mesh.value.numberOfPoints == 0
  }
}
