/** Meshes as symbolic pipeline terms. The VTK filters the tools drive
    (clip, cutter, contour triangulation, append, reverse-sense, extrusion,
    connectivity, clean, transform) are not reimplemented: a mesh is the term
    that records which filters produced it from which inputs, so the tools'
    control flow and the wiring of their pipelines can be stated exactly while
    the geometry stays opaque. */
module Shapes {
  import opened Wrappers
  import opened Geometry
  import opened Variants

  /** How `vtkImplicitBoolean` combines its functions. */
  datatype Operation = Union | Intersection | Difference

  /** Which side of an implicit function a clip keeps: the regular output, or
      the clipped-away output that `GenerateClippedOutput` adds. */
  datatype ClipPart = Kept | ClippedAway

  /** A change of frame: into world coordinates from the frame of a parent
      transform node, or from world coordinates into it. `None` is the
      identity (a node without a parent transform). */
  datatype FrameChange = ToWorld(parent: Option<string>) | FromWorld(parent: Option<string>)

  /** What a `vtkReverseSense` stage is set to flip: its own defaults, or
      cells and normals both. */
  datatype Reversal = FilterDefaults | CellsAndNormals

  /** An implicit function used to clip. */
  datatype Implicit =
    | Combined(op: Operation, planes: seq<Plane>)   // vtkImplicitBoolean over planes
    | BorderDistance(lines: seq<BorderLine>)         // distance to the border polylines

  /** One polyline contributed to the boundary-cut border. */
  datatype BorderLine =
    | PlaneBoundary(mesh: Shape, plane: Plane)  // boundary edges of the mesh part beyond a plane
    | Polyline(points: seq<Vec3>)               // a curve's points joined in order
    | NoLine                                    // an empty polydata

  datatype Shape =
    | EmptyPolyData                                     // a freshly constructed mesh
    | Stored(handle: nat)                               // geometry supplied by the host scene
    | Framed(source: Shape, change: FrameChange)
    | Clip(source: Shape, cutBy: Implicit, part: ClipPart)
    | Append(parts: seq<Shape>)
    | Reverse(source: Shape, reversal: Reversal)
    /** the end-cap patch for plane `index`: contour of the uncut mesh with that
        plane, triangulated, split along the other planes, kept only near the
        combined cut surface, and wound to face `facing` */
    | CapPatch(source: Shape, planes: seq<Plane>, index: nat, cut: Implicit, facing: Vec3)
    | WithPointNormals(source: Shape, normal: Vec3)     // every point gets this normal
    | Transformed(source: Shape, steps: seq<AffineStep>)
    | Extruded(source: Shape, scale: Variant)          // normal extrusion, scale factor as read
    | Triangulated(source: Shape)
    | AutoOrientedNormals(source: Shape)
    | SeededRegions(source: Shape, seedPointIds: seq<int>)
    | ColouredRegions(source: Shape)                   // every connected region coloured
    | RegionIdsSet(source: Shape, regionIds: seq<int>) // cell region ids overwritten
    | Cleaned(source: Shape)

  /** A mesh held by a model node: its point count and its geometry. */
  datatype Mesh = Mesh(numberOfPoints: nat, shape: Shape)
}
