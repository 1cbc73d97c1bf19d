# Dynamic modeler tool engine in Dafny

This project models the tool engine of the Dynamic Modeler module and proves
properties of the model. The engine is the control logic that binds a
dynamic-modeler parameter node to a surface-editing tool, decides when the
tool runs, and decides which output models a run writes.

The model covers:

- **The tool base** (`ModelerTool`). This is the descriptor of input, output
  and parameter slots, with range-checked accessors and the parameter-value
  rule. It also holds the run gate (`HasRequiredInputs`, `HasOutput`, `Run`),
  the listing of referenced input and output nodes, and the creation of output
  display nodes.
- **The tool factory** (`ToolFactory`). This is an ordered registry of
  prototype tools keyed by class name: register, unregister, create by class
  name or display name, list the names, and register the nine built-in tools.
- **The module logic** (`ModelerLogic`). This is the table from parameter
  node ID to bound tool instance, how it is rebound when the tool name
  changes, reference observation, the circular-reference check, and the scene
  and node event handlers. The handlers cover the import rules and the
  continuous-update interlock.
- **The control skeletons of five tools**, with the mesh geometry kept
  symbolic: plane cut (`PlaneCut`), ROI cut (`ROICut`), mirror (`Mirror`),
  hollow (`Hollow`) and boundary cut (`BoundaryCut`).
- **Dispatch** (`ToolDispatch`). This is `RunInternal` chosen by tool class.
  It also states what a run may write: only the models referenced as
  outputs, and nothing when the run fails.

Meshes are `Shape` terms: recipes that name the filter pipeline a tool builds
(clip, append, reverse, change of frame, extrusion and so on). The filters
themselves are not interpreted.

The boundary cut's geometric queries are fields of a `Locators` value:

- the point count of a plane's border line;
- the closest point id and the closest cell id;
- the region ids the connectivity filter yields.

The tools whose implementation is not part of this model run through the
`unmodelled` executor of a `ToolDispatch.Kernel`.

The mirror tool's reflection matrix and its translate–reflect–translate
composition are computed over exact reals.

The parameter node is a record with these fields:

- a tool name that may be null;
- the continuous-update flag;
- role-keyed reference lists, where each reference is an ID with an optional
  set of observed events;
- string attributes.

A reference whose ID is not in the scene resolves to null.

The ROI cut's cap order is the one deliberate departure from the code, a
defect recorded under Findings: the engine runs the corrected ROI cut, and the
code as written is modelled beside it. Three behaviours of the code worth
noting:

- **Plane cut, plane references.** A plane reference that is neither a
  markups plane nor a slice makes the run fail. It is not skipped. The
  validity flag of a markups plane is not consulted at all.
- **Plane cut, empty input.** An input mesh without points succeeds without
  writing any output. It does not write an empty output mesh.
- **ROI cut, capping.** The cap flag is read from the raw `ROICut.CapSurface`
  attribute. A missing attribute therefore means no cap, although the
  descriptor's default is "on".

## Model

| member | source | states |
|---|---|---|
| ModelerTool.AccessorsOutOfRange | DynamicModeler/Logic/vtkCjyxDynamicModelerTool.cxx:68-282 | every Nth accessor past its count returns "", false, null or the string type, without reading the list |
| ModelerTool.AccessorsInRange | DynamicModeler/Logic/vtkCjyxDynamicModelerTool.cxx:50-282 | within range, every accessor (name, class names, role, required, repeatable and events of an input; name, class names, role and required of an output; name, attribute name, type and possible values of a parameter) returns that slot's field, so an input slot is recovered whole from its accessors |
| ModelerTool.NthInputNode | DynamicModeler/Logic/vtkCjyxDynamicModelerTool.cxx:207-222 | the n-th input node is null past the last slot; otherwise it is the first reference of the slot's role |
| ModelerTool.NthOutputNode | DynamicModeler/Logic/vtkCjyxDynamicModelerTool.cxx:225-238 | the n-th output node is null past the last slot; otherwise it is the first reference of the slot's role |
| ModelerTool.NthInputParameterValue | DynamicModeler/Logic/vtkCjyxDynamicModelerTool.cxx:285-299 | past the last slot the value is the string-type code; with no attribute it is the descriptor default; otherwise it is the raw attribute text, not converted to the declared type |
| ModelerTool.ParameterWriteRead | DynamicModeler/Logic/vtkCjyxDynamicModelerTool.cxx:285-299 | writing text under a parameter's attribute name and reading the parameter back gives that text; removing the attribute reads back the descriptor default |
| ModelerTool.RequiredBoundFrom | DynamicModeler/Logic/vtkCjyxDynamicModelerTool.cxx:313-329 | the scan from slot i succeeds iff every required slot from i on has a non-null first reference |
| ModelerTool.HasRequiredInputs | DynamicModeler/Logic/vtkCjyxDynamicModelerTool.cxx:313-329 | true iff every required input slot has a non-null first reference |
| ModelerTool.OutputBoundFrom | DynamicModeler/Logic/vtkCjyxDynamicModelerTool.cxx:332-343 | the scan from slot i succeeds iff some output slot from i on has a non-null first reference |
| ModelerTool.HasOutput | DynamicModeler/Logic/vtkCjyxDynamicModelerTool.cxx:332-343 | true iff at least one output slot has a non-null first reference |
| ModelerTool.OptionalInputsIgnored | DynamicModeler/Logic/vtkCjyxDynamicModelerTool.cxx:313-329 | dropping every reference of an optional input, whose role no required slot shares, never changes the result |
| ModelerTool.Resolved | DynamicModeler/Logic/vtkCjyxDynamicModelerTool.cxx:346-361 | a node is listed iff it is referenced and present in the scene |
| ModelerTool.ResolvedAppend | DynamicModeler/Logic/vtkCjyxDynamicModelerTool.cxx:346-361 | resolving two reference lists one after the other gives the concatenation, so reference order is kept |
| ModelerTool.ReferencedNodes | DynamicModeler/Logic/vtkCjyxDynamicModelerTool.cxx:346-379 | a node is listed iff it is in the scene and some slot's role refers to it |
| ModelerTool.ReferencedNodesInSlotOrder | DynamicModeler/Logic/vtkCjyxDynamicModelerTool.cxx:346-379 | the listing over slots a then b is a's listing followed by b's, so it is ordered by slot and then by reference |
| ModelerTool.FirstDisplaySource | DynamicModeler/Logic/vtkCjyxDynamicModelerTool.cxx:396-414 | the display copied is that of the first input of the same class that has one, and it is null when no input has one |
| ModelerTool.CreateDisplays | DynamicModeler/Logic/vtkCjyxDynamicModelerTool.cxx:382-428 | no node is added or changes kind; non-outputs, outputs that already have a display, and nodes whose default display creation makes none are untouched; every output whose default display creation makes one ends with a display |
| ModelerTool.CreateDisplaysCopiesInputStyle | DynamicModeler/Logic/vtkCjyxDynamicModelerTool.cxx:395-425 | when no input is also an output, a new display copies the display of the first input of the output's class that has one, or the host default when none has |
| ModelerTool.InputDisplaysUnchanged | DynamicModeler/Logic/vtkCjyxDynamicModelerTool.cxx:396-414 | scenes that agree on the inputs pick the same display source |
| ModelerTool.Run | DynamicModeler/Logic/vtkCjyxDynamicModelerTool.cxx:431-446 | fails with the scene untouched when a required input or every output is missing; otherwise creates the output displays and returns exactly what RunInternal returns |
| ModelerTool.RunGateSkipsRunInternal | DynamicModeler/Logic/vtkCjyxDynamicModelerTool.cxx:433-442 | when the gate fails, the result is the same whatever RunInternal would do, and it is a failure |
| Scene.ReferenceIds | DynamicModeler/Logic/vtkCjyxDynamicModelerLogic.cxx:244 | a role's reference IDs are those of its references, in order |
| Scene.NthReference | DynamicModeler/Logic/vtkCjyxDynamicModelerTool.cxx:207-222 | the n-th reference is non-null iff it exists and its node is in the scene, and then it is that node |
| Scene.AsModel | DynamicModeler/Logic/vtkCjyxDynamicModelerPlaneCutTool.cxx:347-352 | a reference is seen as a model iff it resolves to a model node, and the view carries that node's ID, mesh and parent transform |
| Scene.AsPlane | DynamicModeler/Logic/vtkCjyxDynamicModelerPlaneCutTool.cxx:312-320 | a reference gives a plane iff it resolves to a markups plane or a slice node, and the plane is that node's world plane |
| Variants.DigitChar | DynamicModeler/Logic/vtkCjyxDynamicModelerROICutTool.cxx:277 | the digit written for d reads back as d |
| Variants.Decimal | DynamicModeler/Logic/vtkCjyxDynamicModelerROICutTool.cxx:277 | a number's decimal text is a non-empty string of digits |
| Variants.DecimalRoundTrip | DynamicModeler/Logic/vtkCjyxDynamicModelerROICutTool.cxx:277 | reading a number's decimal text gives the number back |
| Variants.ExtractInt | DynamicModeler/Logic/vtkCjyxDynamicModelerROICutTool.cxx:277 | a string's conversion, when it reads a number, is a 32-bit value |
| Variants.ToInt | DynamicModeler/Logic/vtkCjyxDynamicModelerROICutTool.cxx:277 | a string converts to a 32-bit value, a boolean to non-zero iff it is true, and an invalid variant to 0 |
| Variants.LeadingIntegerRead | DynamicModeler/Logic/vtkCjyxDynamicModelerROICutTool.cxx:277 | for any leading white space, any 32-bit integer and any following text that does not start with a digit, the text converts to that integer: the trailing text is ignored |
| Variants.OutOfRangeSaturates | DynamicModeler/Logic/vtkCjyxDynamicModelerROICutTool.cxx:277 | a decimal number too large for 32 bits converts to the largest 32-bit value |
| Variants.FractionDropped | DynamicModeler/Logic/vtkCjyxDynamicModelerPlaneCutTool.cxx:384 | digits followed by a fraction convert to the digits' value, so a flag written as "1.0" is on and one written as "0.5" is off |
| Variants.IntRoundTrip | DynamicModeler/Logic/vtkCjyxDynamicModelerROICutTool.cxx:277 | for every 32-bit integer, its decimal text parses back to that integer, so an integer written as a parameter attribute reads back unchanged |
| Variants.CheckBoxRoundTrip | DynamicModeler/Logic/vtkCjyxDynamicModelerPlaneCutTool.cxx:384 | a check box stored as "1" or "0" reads back as on or off |
| ToolFactory.ClassNames | DynamicModeler/Logic/vtkCjyxDynamicModelerToolFactory.cxx:206-216 | the class-name list has the registry's length and follows registration order |
| ToolFactory.Names | DynamicModeler/Logic/vtkCjyxDynamicModelerToolFactory.cxx:219-229 | the name list has the registry's length and follows registration order |
| ToolFactory.FindClassName | DynamicModeler/Logic/vtkCjyxDynamicModelerToolFactory.cxx:176-188 | finds nothing iff the class is not registered; otherwise finds the first prototype of that class |
| ToolFactory.FindName | DynamicModeler/Logic/vtkCjyxDynamicModelerToolFactory.cxx:191-203 | finds nothing iff the name is not registered; otherwise finds the first prototype with that name |
| ToolFactory.Register | DynamicModeler/Logic/vtkCjyxDynamicModelerToolFactory.cxx:144-156 | a registered class is refused with the registry unchanged; otherwise the tool is appended and the call succeeds |
| ToolFactory.RegisterKeepsUnique | DynamicModeler/Logic/vtkCjyxDynamicModelerToolFactory.cxx:144-156 | registration keeps class names pairwise distinct |
| ToolFactory.UnregisterByClassName | DynamicModeler/Logic/vtkCjyxDynamicModelerToolFactory.cxx:159-173 | an unknown class gives false with the registry unchanged; a known one gives true and removes exactly the first entry of that class, keeping the others in order |
| ToolFactory.UnregisterKeepsUnique | DynamicModeler/Logic/vtkCjyxDynamicModelerToolFactory.cxx:159-173 | unregistering keeps class names pairwise distinct |
| ToolFactory.UnregisterRemovesExactly | DynamicModeler/Logic/vtkCjyxDynamicModelerToolFactory.cxx:159-173 | with distinct class names, the class names after unregistering are the old ones minus that class, in order, and the class is then unknown |
| ToolFactory.UnregisterCons | DynamicModeler/Logic/vtkCjyxDynamicModelerToolFactory.cxx:162-170 | entries before the match are kept in front of the remainder |
| ToolFactory.WithoutRemoves | DynamicModeler/Logic/vtkCjyxDynamicModelerToolFactory.cxx:159-173 | dropping a class name keeps exactly the other names |
| ToolFactory.CreateToolByClassName | DynamicModeler/Logic/vtkCjyxDynamicModelerToolFactory.cxx:176-188 | null iff the class is not registered; otherwise the first registered prototype of that class |
| ToolFactory.CreateToolByName | DynamicModeler/Logic/vtkCjyxDynamicModelerToolFactory.cxx:191-203 | null iff the name is not registered; otherwise the first prototype with that name in registration order |
| ToolFactory.RegisterThenCreate | DynamicModeler/Logic/vtkCjyxDynamicModelerToolFactory.cxx:144-188 | a tool just registered is what its class name creates |
| ToolFactory.RegisterAllDistinct | DynamicModeler/Logic/vtkCjyxDynamicModelerToolFactory.cxx:144-156 | tools whose class names are distinct and new are all registered, in order, and every call succeeds |
| ToolFactory.ClassInitializeRegistersAll | DynamicModeler/Logic/vtkCjyxDynamicModelerToolFactory.cxx:120-134 | the nine built-in tools are registered in the fixed order, all nine calls succeed, and their class names are distinct, given that the four unmodelled tools each report their own class name |
| ToolFactory.BuiltInClassesRegister | DynamicModeler/Logic/vtkCjyxDynamicModelerToolFactory.cxx:120-134 | any nine tools of the built-in classes, in registration order, each reporting its class's name, all register into an empty factory, in order, with distinct class names |
| ToolFactory.KindClassNamesDistinct | DynamicModeler/Logic/vtkCjyxDynamicModelerToolFactory.cxx:125-133 | distinct tool classes have distinct class names |
| PlaneCut.Prototype | DynamicModeler/Logic/vtkCjyxDynamicModelerPlaneCutTool.cxx:67-150 | the descriptor has a required non-repeatable model input, a required repeatable plane input, two optional outputs for the positive and negative roles, and two parameters |
| PlaneCut.ParseOperation | DynamicModeler/Logic/vtkCjyxDynamicModelerPlaneCutTool.cxx:293-306 | "Intersection" and "Difference" select their operations, and any other text selects union |
| PlaneCut.OperationRoundTrip | DynamicModeler/Logic/vtkCjyxDynamicModelerPlaneCutTool.cxx:130-150 | each operation's enumerated name parses back to it, and each enumerated name survives a parse |
| PlaneCut.OperationOf | DynamicModeler/Logic/vtkCjyxDynamicModelerPlaneCutTool.cxx:293-306 | with no OperationType attribute the operation is the default, union; otherwise it is the parsed attribute |
| PlaneCut.CapSurfaceOn | DynamicModeler/Logic/vtkCjyxDynamicModelerPlaneCutTool.cxx:384-388 | with no CapSurface attribute the cap is on, the default; otherwise it is on iff the integer the text starts with, as `ToInt` reads it, is non-zero |
| PlaneCut.ParametersReadBack | DynamicModeler/Logic/vtkCjyxDynamicModelerPlaneCutTool.cxx:130-150 | an operation or check-box state written the way the widget writes it reads back unchanged |
| PlaneCut.PlanesOf | DynamicModeler/Logic/vtkCjyxDynamicModelerPlaneCutTool.cxx:308-345 | the planes are collected iff every reference is a markups plane or slice, and then there is one plane per reference, in order |
| PlaneCut.CapNormal | DynamicModeler/Logic/vtkCjyxDynamicModelerPlaneCutTool.cxx:233-238 | the cap normal is the plane normal, negated unless the operation is Difference and the plane is not the first |
| PlaneCut.EndCap | DynamicModeler/Logic/vtkCjyxDynamicModelerPlaneCutTool.cxx:180-274 | the cap has one patch per plane, and every point of patch i carries that plane's cap normal |
| PlaneCut.RunInternal | DynamicModeler/Logic/vtkCjyxDynamicModelerPlaneCutTool.cxx:277-441 | fails with no writes when a required input is missing, a plane reference is not a plane or slice, or the input is not a model; with no output it succeeds writing nothing, and an empty input writes nothing; otherwise exactly the referenced outputs are written |
| PlaneCut.CutWrites | DynamicModeler/Logic/vtkCjyxDynamicModelerPlaneCutTool.cxx:378-438 | the cut writes the positive output, then the negative one, each only when present |
| PlaneCut.CutSidesOpposite | DynamicModeler/Logic/vtkCjyxDynamicModelerPlaneCutTool.cxx:406-438 | for any outputs, planes and settings, the negative side is the opposite of the positive one, each in its own output's frame |
| PlaneCut.SidesAreOpposite | DynamicModeler/Logic/vtkCjyxDynamicModelerPlaneCutTool.cxx:378-438 | the negative output is the other clip part of the same cut, with the cap reversed in cells and normals |
| PlaneCut.CutSidesClip | DynamicModeler/Logic/vtkCjyxDynamicModelerPlaneCutTool.cxx:384-438 | for any outputs, planes and settings, every written side clips the world mesh with the combined planes and is capped, with one patch per plane, exactly when capping |
| PlaneCut.SideFollowsParameters | DynamicModeler/Logic/vtkCjyxDynamicModelerPlaneCutTool.cxx:384-438 | each written side is clipped by the parsed operation over the referenced planes, and is capped iff CapSurface is on |
| ROICut.Prototype | DynamicModeler/Logic/vtkCjyxDynamicModelerROICutTool.cxx:61-148 | the descriptor has a required model input, a required non-repeatable ROI input, two optional outputs for the inside and outside roles, and the CapSurface parameter |
| ROICut.InvertedPlanesInvolution | DynamicModeler/Logic/vtkCjyxDynamicModelerROICutTool.cxx:243-267 | inverting the planes twice gives them back |
| ROICut.CapOn | DynamicModeler/Logic/vtkCjyxDynamicModelerROICutTool.cxx:277-282 | the cap is on iff the raw attribute is present and reads as a non-zero integer and the ROI is a box or bounding box |
| ROICut.CapFacesAlongROINormal | DynamicModeler/Logic/vtkCjyxDynamicModelerROICutTool.cxx:243-282 | under the union of inverted planes, each cap patch carries the ROI face's own normal |
| ROICut.AsROI | DynamicModeler/Logic/vtkCjyxDynamicModelerROICutTool.cxx:226-238 | a reference is seen as an ROI iff it resolves to a markups ROI node, and the view carries that node's ROI type and face planes |
| ROICut.ResetWrites | DynamicModeler/Logic/vtkCjyxDynamicModelerROICutTool.cxx:213-224 | on an empty input, exactly the present outputs that hold a mesh have it emptied in place |
| ROICut.EarlyExit | DynamicModeler/Logic/vtkCjyxDynamicModelerROICutTool.cxx:191-238 | the run stops before clipping iff an input is missing, there is no output, the input is not a model, the input is empty, or there is no ROI; failing exits write nothing |
| ROICut.RunInternalAsWritten | DynamicModeler/Logic/vtkCjyxDynamicModelerROICutTool.cxx:191-344 | the run as written fails with no writes on a missing required input, and, once an output is present, iff the input is not a model; past the early exits it succeeds and writes exactly the present outputs, in slot order |
| ROICut.RunInternal | DynamicModeler/Logic/vtkCjyxDynamicModelerROICutTool.cxx:191-344 | the corrected run keeps the same outcomes: no writes on failure, failure iff an input is missing or (with an output present) the input is not a model, and past the early exits exactly the present outputs are written, in slot order |
| ROICut.CapOrderOnlyDifference | DynamicModeler/Logic/vtkCjyxDynamicModelerROICutTool.cxx:277-341 | for every node and scene, the run as written and the corrected run agree on success and on the written targets, and are equal whenever no cap is appended (every early exit, and capping off) |
| ROICut.OutputsInOwnFrame | DynamicModeler/Logic/vtkCjyxDynamicModelerROICutTool.cxx:284-341 | in the corrected run every written output, cap included, is in its own node's frame |
| ROICut.AsWrittenFrameMix | DynamicModeler/Logic/vtkCjyxDynamicModelerROICutTool.cxx:284-341 | as written, an output is wholly in its own frame iff there is no cap, the ROI has no face, or the output has no parent transform |
| ROICut.CapFrame | DynamicModeler/Logic/vtkCjyxDynamicModelerROICutTool.cxx:277-282 | an end cap built in world coordinates lies in an output's frame iff it has no patch or the output has no parent transform |
| ROICut.AsWrittenWritesFrame | DynamicModeler/Logic/vtkCjyxDynamicModelerROICutTool.cxx:284-341 | for any outputs and a cap built from the ROI's inverted faces, an as-written output is wholly in its frame iff there is no cap, the ROI has no face, or the output has no parent transform |
| ROICut.AsWrittenCapLeftInWorldFrame | DynamicModeler/Logic/vtkCjyxDynamicModelerROICutTool.cxx:290-312 | with a box ROI, the cap on and a parented inside output, the as-written output mixes frames and the corrected one does not |
| Mirror.Prototype | DynamicModeler/Logic/vtkCjyxDynamicModelerMirrorTool.cxx:49-118 | the descriptor has required model and plane inputs, one optional output, and no parameters |
| Mirror.RunInternal | DynamicModeler/Logic/vtkCjyxDynamicModelerMirrorTool.cxx:131-238 | fails with no writes on a missing input, a non-model input or a non-plane reference; with no output it succeeds writing nothing; an empty input gives a fresh empty output; otherwise only the output is written |
| Mirror.OutputIsReflection | DynamicModeler/Logic/vtkCjyxDynamicModelerMirrorTool.cxx:169-237 | the written mesh is the world-frame input moved by steps that reflect every point across the plane and fix the plane's points, passed through the reverse-sense stage and then into the output frame |
| Geometry.ReflectionIsHouseholder | DynamicModeler/Logic/vtkCjyxDynamicModelerMirrorTool.cxx:211-222 | the matrix entries are δij − 2·ni·nj, and the matrix is symmetric |
| Geometry.ReflectionApplied | DynamicModeler/Logic/vtkCjyxDynamicModelerMirrorTool.cxx:211-222 | the matrix maps v to v − 2(n·v)n |
| Geometry.MirrorStepsReflect | DynamicModeler/Logic/vtkCjyxDynamicModelerMirrorTool.cxx:105 | the post-multiplied translate, reflect, translate steps map x to M(x − o) + o |
| Geometry.MirrorFixesPlane | DynamicModeler/Logic/vtkCjyxDynamicModelerMirrorTool.cxx:224-227 | every point on the plane is fixed by the mirror |
| Geometry.MirrorInvolution | DynamicModeler/Logic/vtkCjyxDynamicModelerMirrorTool.cxx:211-227 | with a unit normal, mirroring twice gives every point back |
| Geometry.MirrorFlipsNormalSide | DynamicModeler/Logic/vtkCjyxDynamicModelerMirrorTool.cxx:211-227 | with a unit normal, the point one normal in front of the plane goes to the point one normal behind it |
| Hollow.Prototype | DynamicModeler/Logic/vtkCjyxDynamicModelerHollowTool.cxx:50-113 | the descriptor has one required model input, one optional output, and a double ShellThickness parameter with default 1.0 |
| Hollow.RunInternal | DynamicModeler/Logic/vtkCjyxDynamicModelerHollowTool.cxx:126-186 | fails with no writes on a missing or non-model input; with no output it succeeds writing nothing; an empty input gives a fresh empty output; otherwise only the output is written |
| Hollow.ThicknessFollowsParameter | DynamicModeler/Logic/vtkCjyxDynamicModelerHollowTool.cxx:172-173 | the extrusion scale is the ShellThickness attribute's text when present, and 1.0 otherwise |
| BoundaryCut.Prototype | DynamicModeler/Logic/vtkCjyxDynamicModelerBoundaryCutTool.cxx:66-163 | the descriptor has required model and repeatable border inputs, an optional non-repeatable seed input, one optional output, and no parameters |
| BoundaryCut.BorderLines | DynamicModeler/Logic/vtkCjyxDynamicModelerBoundaryCutTool.cxx:216-282 | a line is collected iff some border reference yields it, so invalid planes and curves without curve points are skipped |
| BoundaryCut.BorderPointCount | DynamicModeler/Logic/vtkCjyxDynamicModelerBoundaryCutTool.cxx:284-291 | the border has no point iff every collected line has none |
| BoundaryCut.CurveCentreIsMean | DynamicModeler/Logic/vtkCjyxDynamicModelerBoundaryCutTool.cxx:440-456 | a curve's centre times its point count is the sum of its control points |
| BoundaryCut.DefaultSeedIsMeanOfCentres | DynamicModeler/Logic/vtkCjyxDynamicModelerBoundaryCutTool.cxx:422-462 | the default seed times the border count is the sum of the border centres |
| BoundaryCut.SeedPoints | DynamicModeler/Logic/vtkCjyxDynamicModelerBoundaryCutTool.cxx:388-419 | one default seed when the seed node is absent, not a point list, or has no control point; otherwise one seed per control point, in order |
| BoundaryCut.LastClaimant | DynamicModeler/Logic/vtkCjyxDynamicModelerBoundaryCutTool.cxx:353-367 | finds the last seed before n that claims the old id, or reports that none does |
| BoundaryCut.ColorOutputRegions | DynamicModeler/Logic/vtkCjyxDynamicModelerBoundaryCutTool.cxx:334-385 | the claim-then-remap loops compute exactly the reference recolouring |
| BoundaryCut.RecolouredRange | DynamicModeler/Logic/vtkCjyxDynamicModelerBoundaryCutTool.cxx:364-382 | every new region id lies between 0 and the number of seeds |
| BoundaryCut.SameOldSameNew | DynamicModeler/Logic/vtkCjyxDynamicModelerBoundaryCutTool.cxx:373-380 | cells that shared an old id share the new id |
| BoundaryCut.LastSeedWins | DynamicModeler/Logic/vtkCjyxDynamicModelerBoundaryCutTool.cxx:353-380 | a cell gets id i + 1 iff seed i is the last to claim its old id, and 0 iff no seed claims it |
| BoundaryCut.NonPositiveCellIgnored | DynamicModeler/Logic/vtkCjyxDynamicModelerBoundaryCutTool.cxx:357-360 | a seed whose closest cell id is 0 or less claims nothing |
| BoundaryCut.RunInternal | DynamicModeler/Logic/vtkCjyxDynamicModelerBoundaryCutTool.cxx:176-331 | fails on a missing required input; succeeds writing nothing with no output, no input model or an empty input; otherwise succeeds iff the border has a point, and then writes only the output |
| BoundaryCut.OutputRegionIdsAreSeedNumbers | DynamicModeler/Logic/vtkCjyxDynamicModelerBoundaryCutTool.cxx:312-330 | in a written output with region ids, the array keeps its length and every id is 0 or a seed number |
| ToolDispatch.ModelledIgnoresOracle | DynamicModeler/Logic/vtkCjyxDynamicModelerTool.cxx:431-446 | a modelled tool's run does not depend on the executor for unmodelled tools, and only the boundary cut uses the locators |
| ToolDispatch.FirstOutputReferenceListed | DynamicModeler/Logic/vtkCjyxDynamicModelerTool.cxx:364-379 | the node a filled output slot refers to first is listed among the output nodes |
| ToolDispatch.PlaneCutWritesOnlyOutputs | DynamicModeler/Logic/vtkCjyxDynamicModelerPlaneCutTool.cxx:391-438 | plane cut writes only nodes listed as its output nodes |
| ToolDispatch.ROICutAsWrittenWritesOnlyOutputs | DynamicModeler/Logic/vtkCjyxDynamicModelerROICutTool.cxx:213-341 | ROI cut as the source writes it also writes only nodes listed as its output nodes |
| ToolDispatch.ROICutWritesOnlyOutputs | DynamicModeler/Logic/vtkCjyxDynamicModelerROICutTool.cxx:213-341 | ROI cut writes only nodes listed as its output nodes, on the early exits too |
| ToolDispatch.ROIEarlyExitWritesOutputs | DynamicModeler/Logic/vtkCjyxDynamicModelerROICutTool.cxx:213-238 | the empty-input and no-ROI exits write only the present outputs |
| ToolDispatch.WritesOnlyOutputs | DynamicModeler/Logic/vtkCjyxDynamicModelerTool.cxx:364-379 | every write of a modelled built-in tool targets one of the nodes its parameter node references as an output |
| ToolDispatch.FailureWritesNothing | DynamicModeler/Logic/vtkCjyxDynamicModelerTool.cxx:431-446 | a failing run of a modelled tool writes nothing |
| ModelerLogic.Init | DynamicModeler/Logic/vtkCjyxDynamicModelerLogic.h:82-83 | the empty table satisfies the table invariant |
| ModelerLogic.GetDynamicModelerTool | DynamicModeler/Logic/vtkCjyxDynamicModelerLogic.cxx:287-301 | the bound tool is non-null iff the table has a non-null entry for the node, and then it is that entry |
| ModelerLogic.SetObservation | DynamicModeler/Logic/vtkCjyxDynamicModelerLogic.cxx:243-253 | re-setting a role's references keeps every reference ID and every other role, and gives each reference the new observation |
| ModelerLogic.ObserveSlots | DynamicModeler/Logic/vtkCjyxDynamicModelerLogic.cxx:265-283 | observing slot by slot keeps every ID and untouched roles; each reference of a slot's role gets that slot's observation, with the last slot winning on a shared role |
| ModelerLogic.Created | DynamicModeler/Logic/vtkCjyxDynamicModelerLogic.cxx:256-262 | a tool is created iff the node has a tool name the registry knows; it has that name, comes from the registry, and has the next instance number |
| ModelerLogic.UpdateDynamicModelerTool | DynamicModeler/Logic/vtkCjyxDynamicModelerLogic.cxx:224-284 | only the node's entry changes; a tool whose name matches is kept as the same instance; otherwise a fresh instance is created by name, or null; the node's reference IDs and fields are unchanged |
| ModelerLogic.UpdateObservesInputs | DynamicModeler/Logic/vtkCjyxDynamicModelerLogic.cxx:265-283 | after an update, every reference of each input slot of the bound tool is observed for that slot's events |
| ModelerLogic.UpdateBindsByName | DynamicModeler/Logic/vtkCjyxDynamicModelerLogic.cxx:235-262 | after an update the entry is a tool named by the node's tool name; it is null iff the name is null or unknown to the registry |
| ModelerLogic.UpdateUnobservesOldInputs | DynamicModeler/Logic/vtkCjyxDynamicModelerLogic.cxx:238-254 | changing tools leaves the old tool's input references unobserved unless the new tool observes their role |
| ModelerLogic.UpdateKeepsValid | DynamicModeler/Logic/vtkCjyxDynamicModelerLogic.cxx:224-284 | an update keeps the table invariant: bound tools come from the registry and no two nodes share an instance |
| ModelerLogic.UpdateIdempotent | DynamicModeler/Logic/vtkCjyxDynamicModelerLogic.cxx:235 | a second update keeps the table as the first left it |
| ModelerLogic.HasCircularReference | DynamicModeler/Logic/vtkCjyxDynamicModelerLogic.cxx:183-221 | false when no tool is bound; otherwise true iff some output slot's first reference is the non-null first reference of some input slot |
| ModelerLogic.RunDynamicModelerTool | DynamicModeler/Logic/vtkCjyxDynamicModelerLogic.cxx:304-328 | nothing runs when the node has no tool name, no tool is bound or a required input is missing; otherwise the bound tool's Run is the result |
| ModelerLogic.RunWritesOnlyOutputs | DynamicModeler/Logic/vtkCjyxDynamicModelerLogic.cxx:304-328 | a run of a bound built-in tool writes only models the node references as outputs |
| ModelerLogic.OutputNodesFollowKeys | DynamicModeler/Logic/vtkCjyxDynamicModelerTool.cxx:364-379 | scenes holding the same IDs list the same output nodes |
| ModelerLogic.OnNodeAdded | DynamicModeler/Logic/vtkCjyxDynamicModelerLogic.cxx:80-99 | ignored while importing; otherwise the node gets a freshly created entry and the tool is run |
| ModelerLogic.OnNodeRemoved | DynamicModeler/Logic/vtkCjyxDynamicModelerLogic.cxx:102-116 | only the node's entry is erased, and nothing changes when it has none |
| ModelerLogic.OnEndImport | DynamicModeler/Logic/vtkCjyxDynamicModelerLogic.cxx:119-144 | every listed node gets an entry, no other entry is added, and the nodes keep their IDs and tool names |
| ModelerLogic.ImportNode | DynamicModeler/Logic/vtkCjyxDynamicModelerLogic.cxx:131-143 | importing one node adds its entry and leaves every other entry as it was |
| ModelerLogic.EndImportBindsByName | DynamicModeler/Logic/vtkCjyxDynamicModelerLogic.cxx:131-143 | after an import each node is bound to a tool of its tool name, or null iff the registry has none |
| ModelerLogic.EndImportKeeps | DynamicModeler/Logic/vtkCjyxDynamicModelerLogic.cxx:119-144 | an import leaves the entries of unlisted nodes as they were |
| ModelerLogic.OnNodeAddedKeepsValid | DynamicModeler/Logic/vtkCjyxDynamicModelerLogic.cxx:80-99 | adding a node keeps the table invariant |
| ModelerLogic.ProcessNodeEventKeepsValid | DynamicModeler/Logic/vtkCjyxDynamicModelerLogic.cxx:147-180 | handling a node event keeps the table invariant |
| ModelerLogic.EndImportKeepsValid | DynamicModeler/Logic/vtkCjyxDynamicModelerLogic.cxx:119-144 | an import keeps the table invariant |
| ModelerLogic.ProcessNodeEvent | DynamicModeler/Logic/vtkCjyxDynamicModelerLogic.cxx:147-180 | ignored while importing; only a modified event rebinds; with continuous update on and a cycle, the flag is switched off and nothing runs; otherwise, with continuous update on and a tool bound, the result is that tool's run, and with continuous update off or no tool bound nothing runs |
| ModelerLogic.ContinuousUpdateGatesRuns | DynamicModeler/Logic/vtkCjyxDynamicModelerLogic.cxx:161-179 | an event runs a tool only with continuous update on, and a modified event never runs a tool with a circular reference |

## Left out

- Floating point. Positions, normals and matrices are exact reals. The epsilon clip bands, the cap-orientation test and slice-to-RAS conversion are folded into the plane a slice node carries.
- VTK filters and locators. Clip, cutter, contour triangulation, connectivity, extrusion, clean and append are uninterpreted `Shape` constructors. The boundary cut's point count, closest point, closest cell and region-id queries are `Locators` oracles.
- Tools without an implementation in this model. Curve cut, margin, append and select-by-points enter the registry as given prototypes, and their `RunInternal` is the kernel's `unmodelled` executor.
- Observer and event delivery. Only whether a reference is observed, and for which events, is recorded. The logic's own observation of the parameter node and the modify blocker are not modelled.
- Null parameter nodes and null scenes. Every handler receives a node, and the scene guard is folded into the `importing` flag.
- `vtkDMMLDynamicModelerNode.cxx`. XML persistence, Copy and event forwarding are not part of this model.
- The factory singleton and its object-factory override. The registry is an explicit value.
- Tool instance identity. Instances are values equal to their prototype (`Clone` / `CreateToolInstance`); identity is the logic's instance number.
- `vtkVariant` string conversion. `vtkVariant` is not part of this model; its string-to-integer conversion is modelled as extraction from a string stream: leading white space skipped, an optional sign and the longest run of digits read, the rest ignored, no digit giving 0, and a value out of the 32-bit range stored as the nearest bound. VTK releases that convert without a stream may treat leading white space, a "+" sign or an out-of-range value differently; the leading-prefix reading of "1.0" as 1 is common to both.
- `IsA` class tests. Node class checks use exact class names.
- Descriptor help text. The human-readable descriptions of node and parameter slots are user-interface text that no engine decision reads; slot names, roles, classes, events and defaults are kept.
- ModelerLogic.UpdateDynamicModelerTool: requires a tool name whenever a tool is bound. Comparing a bound tool's name with a null tool name is undefined in the source.
- PlaneCut.RunInternal: an output without a parent transform is taken as identity. The source leaves the transform filter of the previous run in place in that case.
- PlaneCut.RunInternal: the clipped-away part is generated on demand. The source's generate-clipped-output flag stays on once set.
- ToolDispatch.RunInternal: ROI cut runs the corrected cap order (`ROICut.RunInternal`), not the source's (`ROICut.RunInternalAsWritten`), so `ModelerTool.Run`, `ModelerLogic.RunDynamicModelerTool`, `OnNodeAdded` and `ProcessNodeEvent` run the corrected ROI cut. `ROICut.CapOrderOnlyDifference` proves the two agree on success and on which outputs are written, and are the same run whenever no cap is appended; they differ only in the frame of a cap appended to an output under a parent transform (see Findings).
- ROICut.RunInternal: writes a new mesh to the output node. The source reuses the output's existing mesh object.
- BoundaryCut.RunInternal: the point count after cleaning is taken to be zero iff the raw border count is zero.
- BoundaryCut.ColorOutputRegions: a closest cell id at or past the end of the region array claims nothing. Reading past the array is undefined in the source, and the locator never returns such an id.
- Hollow.ThicknessFollowsParameter: the thickness is the parameter's variant value. Its conversion to a double is not modelled.
- ModelerLogic.HasCircularReference: compares only the first reference of each role, as the source does. A cycle through a later reference of a repeatable input is not detected.

## Findings

| source | as written | input that shows it | evidently intended | confidence | as-written member | corrected member |
|---|---|---|---|---|---|---|
| DynamicModeler/Logic/vtkCjyxDynamicModelerROICutTool.cxx:290-341 | The clipped mesh is moved into the output node's frame first. The end cap, built in world coordinates, is appended after that, so a capped output under a parent transform mixes two frames. | A box ROI with one face, `ROICut.CapSurface` = "1", and an inside output model under parent transform "T" | Append the cap before moving into the output frame, as plane cut does at lines 391-438 | not executed | ROICut.RunInternalAsWritten (counterexample ROICut.AsWrittenCapLeftInWorldFrame, characterised by ROICut.AsWrittenFrameMix) | ROICut.RunInternal (property ROICut.OutputsInOwnFrame) |
