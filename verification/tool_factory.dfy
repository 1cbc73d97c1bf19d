/** The tool factory: an ordered registry of prototype tools, keyed by class
    name, from which fresh tool instances are created by class name or by
    display name. */
module ToolFactory {
  import opened Wrappers
  import opened ModelerTool
  import PlaneCut
  import Hollow
  import Mirror
  import BoundaryCut
  import ROICut

  /** The registered prototypes, in registration order. */
  type Registry = seq<Tool>

  predicate UniqueClassNames(r: Registry) {
    forall i, j :: 0 <= i < j < |r| ==> r[i].className != r[j].className
  }

  /** `GetDynamicModelerToolClassNames`. */
  function ClassNames(r: Registry): (names: seq<string>)
    ensures |names| == |r| && forall i :: 0 <= i < |r| ==> names[i] == r[i].className
  {
    seq(|r|, i requires 0 <= i < |r| => r[i].className)
  }

  /** `GetDynamicModelerToolNames`. */
  function Names(r: Registry): (names: seq<string>)
    ensures |names| == |r| && forall i :: 0 <= i < |r| ==> names[i] == r[i].name
  {
    seq(|r|, i requires 0 <= i < |r| => r[i].name)
  }

  /** The position of the first prototype with the class name. */
  function FindClassName(r: Registry, className: string): (i: Option<nat>)
    ensures i.None? <==> className !in ClassNames(r)
    ensures i.Some? ==> i.value < |r| && r[i.value].className == className
    ensures i.Some? ==> forall j :: 0 <= j < i.value ==> r[j].className != className
  {
    if |r| == 0 then None
    else if r[0].className == className then Some(0)
    else
      var rest := FindClassName(r[1..], className);
      assert ClassNames(r) == [r[0].className] + ClassNames(r[1..]);
      if rest.None? then None else Some(rest.value + 1)
  }

  /** The position of the first prototype with the display name. */
  function FindName(r: Registry, name: string): (i: Option<nat>)
    ensures i.None? <==> name !in Names(r)
    ensures i.Some? ==> i.value < |r| && r[i.value].name == name
    ensures i.Some? ==> forall j :: 0 <= j < i.value ==> r[j].name != name
  {
    if |r| == 0 then None
    else if r[0].name == name then Some(0)
    else
      var rest := FindName(r[1..], name);
      assert Names(r) == [r[0].name] + Names(r[1..]);
      if rest.None? then None else Some(rest.value + 1)
  }

  /** A registry after a registering or unregistering call, and the call's result. */
  datatype Update = Update(registry: Registry, ok: bool)

  /** `RegisterDynamicModelerTool`: refused, leaving the registry as it was,
      when a tool of the same class is registered; appended otherwise. */
  function Register(r: Registry, t: Tool): (u: Update)
    ensures t.className in ClassNames(r) ==> u == Update(r, false)
    ensures t.className !in ClassNames(r) ==> u == Update(r + [t], true)
  {
    if FindClassName(r, t.className).Some? then Update(r, false) else Update(r + [t], true)
  }

  /** Registration keeps class names pairwise distinct. */
  lemma RegisterKeepsUnique(r: Registry, t: Tool)
    requires UniqueClassNames(r)
    ensures UniqueClassNames(Register(r, t).registry)
  {
    if t.className !in ClassNames(r) {
      var r' := r + [t];
      forall i, j | 0 <= i < j < |r'| ensures r'[i].className != r'[j].className {
        if j == |r| {
          assert ClassNames(r)[i] == r[i].className;
        }
      }
    }
  }

  /** `UnregisterDynamicModelerToolByClassName`: removes the first prototype
      of the class and reports true, or reports false when there is none. */
  function UnregisterByClassName(r: Registry, className: string): (u: Update)
    ensures className !in ClassNames(r) ==> u == Update(r, false)
    ensures className in ClassNames(r) ==> u.ok && |u.registry| == |r| - 1
    ensures className in ClassNames(r) ==>
      exists i :: 0 <= i < |r| && r[i].className == className
        && (forall j :: 0 <= j < i ==> r[j].className != className)
        && u.registry == r[..i] + r[i + 1..]
  {
    match FindClassName(r, className)
    case None => Update(r, false)
    case Some(i) => Update(r[..i] + r[i + 1..], true)
  }

  /** Unregistering keeps class names pairwise distinct. */
  lemma UnregisterKeepsUnique(r: Registry, className: string)
    requires UniqueClassNames(r)
    ensures UniqueClassNames(UnregisterByClassName(r, className).registry)
  {
    var found := FindClassName(r, className);
    if found.Some? {
      var i := found.value;
      assert UnregisterByClassName(r, className).registry == r[..i] + r[i + 1..];
      RemoveKeepsUnique(r, i);
    }
  }

  lemma RemoveKeepsUnique(r: Registry, i: nat)
    requires i < |r| && UniqueClassNames(r)
    ensures UniqueClassNames(r[..i] + r[i + 1..])
  {
    var r' := r[..i] + r[i + 1..];
    forall a, b | 0 <= a < b < |r'| ensures r'[a].className != r'[b].className {
      var a' := if a < i then a else a + 1;
      var b' := if b < i then b else b + 1;
      assert r'[a] == r[a'] && r'[b] == r[b'];
    }
  }

  /** The names in order with every occurrence of `c` dropped. */
  function Without(names: seq<string>, c: string): seq<string> {
    if |names| == 0 then []
    else (if names[0] == c then [] else [names[0]]) + Without(names[1..], c)
  }

  /** In a registry with distinct class names, unregistering removes exactly
      the class and keeps the others in order; the class is then unknown. */
  lemma {:induction false} UnregisterRemovesExactly(r: Registry, className: string)
    requires UniqueClassNames(r)
    ensures ClassNames(UnregisterByClassName(r, className).registry) == Without(ClassNames(r), className)
    ensures className !in ClassNames(UnregisterByClassName(r, className).registry)
    decreases |r|
  {
    if |r| > 0 {
      UniqueTail(r);
      ClassNamesCons(r[0], r[1..]);
      assert [r[0]] + r[1..] == r;
      UnregisterRemovesExactly(r[1..], className);
      if r[0].className == className {
        NoneWithout(ClassNames(r[1..]), className);
        assert FindClassName(r, className) == Some(0);
        assert UnregisterByClassName(r, className).registry == r[1..];
      } else {
        UnregisterCons(r, className);
        ClassNamesCons(r[0], UnregisterByClassName(r[1..], className).registry);
      }
    }
    WithoutRemoves(ClassNames(r), className);
  }

  lemma ClassNamesCons(t: Tool, rest: Registry)
    ensures ClassNames([t] + rest) == [t.className] + ClassNames(rest)
  {
  }

  lemma UniqueTail(r: Registry)
    requires |r| > 0 && UniqueClassNames(r)
    ensures UniqueClassNames(r[1..])
    ensures r[0].className !in ClassNames(r[1..])
  {
    forall i, j | 0 <= i < j < |r[1..]| ensures r[1..][i].className != r[1..][j].className {
      assert r[1..][i] == r[i + 1] && r[1..][j] == r[j + 1];
    }
    forall j | 0 <= j < |r[1..]| ensures ClassNames(r[1..])[j] != r[0].className {
      assert r[1..][j] == r[j + 1];
    }
  }

  lemma UnregisterCons(r: Registry, className: string)
    requires |r| > 0 && r[0].className != className
    ensures UnregisterByClassName(r, className).registry == [r[0]] + UnregisterByClassName(r[1..], className).registry
  {
    match FindClassName(r[1..], className)
    case None =>
      assert FindClassName(r, className).None?;
    case Some(i) =>
      assert FindClassName(r, className) == Some(i + 1);
      RemoveAfterHead(r, i);
  }

  /** Removing entry i + 1 keeps the head in front of the tail with entry i removed. */
  lemma RemoveAfterHead<T>(s: seq<T>, i: nat)
    requires i + 1 < |s|
    ensures s[..i + 1] + s[i + 2..] == [s[0]] + (s[1..][..i] + s[1..][i + 1..])
  {
    assert s[..i + 1] == [s[0]] + s[1..][..i];
    assert s[i + 2..] == s[1..][i + 1..];
  }

  lemma {:induction false} NoneWithout(names: seq<string>, c: string)
    requires c !in names
    ensures Without(names, c) == names
    decreases |names|
  {
    if |names| > 0 {
      NoneWithout(names[1..], c);
    }
  }

  lemma {:induction false} WithoutRemoves(names: seq<string>, c: string)
    ensures c !in Without(names, c)
    ensures forall x :: x in Without(names, c) <==> x in names && x != c
    decreases |names|
  {
    if |names| > 0 {
      WithoutRemoves(names[1..], c);
      assert forall x :: x in names <==> x == names[0] || x in names[1..];
    }
  }

  /** `CreateToolByClassName`: a fresh instance of the first prototype of the
      class (instances are values: a fresh one equals its prototype), or null. */
  function CreateToolByClassName(r: Registry, className: string): (t: Option<Tool>)
    ensures t.None? <==> className !in ClassNames(r)
    ensures t.Some? ==> t.value in r && t.value.className == className
    ensures t.Some? ==>
      exists i :: 0 <= i < |r| && t.value == r[i] && forall j :: 0 <= j < i ==> r[j].className != className
  {
    match FindClassName(r, className)
    case None => None
    case Some(i) => Some(r[i])
  }

  /** `CreateToolByName`: the first prototype with the display name, or null. */
  function CreateToolByName(r: Registry, name: string): (t: Option<Tool>)
    ensures t.None? <==> name !in Names(r)
    ensures t.Some? ==> t.value.name == name
    ensures t.Some? ==> exists i :: 0 <= i < |r| && t.value == r[i] && forall j :: 0 <= j < i ==> r[j].name != name
  {
    match FindName(r, name)
    case None => None
    case Some(i) => Some(r[i])
  }

  /** A tool just registered is what its class name creates. */
  lemma RegisterThenCreate(r: Registry, t: Tool)
    requires t.className !in ClassNames(r)
    ensures CreateToolByClassName(Register(r, t).registry, t.className) == Some(t)
  {
    var r' := r + [t];
    assert ClassNames(r')[|r|] == t.className;
  }

  // ---------------------------------------------------------------------
  // Initialisation

  /** Registers the tools one after another, collecting each call's result. */
  function RegisterAll(r: Registry, tools: seq<Tool>): (result: (Registry, seq<bool>))
    ensures |result.1| == |tools|
    decreases |tools|
  {
    if |tools| == 0 then (r, [])
    else
      var u := Register(r, tools[0]);
      var rest := RegisterAll(u.registry, tools[1..]);
      (rest.0, [u.ok] + rest.1)
  }

  /** Tools whose class names differ from each other and from the registry's
      are all registered, in order. */
  lemma {:induction false} RegisterAllDistinct(r: Registry, tools: seq<Tool>)
    requires UniqueClassNames(r)
    requires UniqueClassNames(tools)
    requires forall i :: 0 <= i < |tools| ==> tools[i].className !in ClassNames(r)
    ensures RegisterAll(r, tools).0 == r + tools
    ensures forall i :: 0 <= i < |tools| ==> RegisterAll(r, tools).1[i]
    decreases |tools|
  {
    if |tools| > 0 {
      var r' := r + [tools[0]];
      assert Register(r, tools[0]) == Update(r', true);
      RegisterKeepsUnique(r, tools[0]);
      UniqueTail(tools);
      FreshAfterRegister(r, tools);
      RegisterAllDistinct(r', tools[1..]);
      assert r' + tools[1..] == r + tools;
    }
  }

  lemma FreshAfterRegister(r: Registry, tools: seq<Tool>)
    requires |tools| > 0 && UniqueClassNames(tools)
    requires forall i :: 0 <= i < |tools| ==> tools[i].className !in ClassNames(r)
    ensures forall i :: 0 <= i < |tools[1..]| ==> tools[1..][i].className !in ClassNames(r + [tools[0]])
  {
    forall i | 0 <= i < |tools[1..]| ensures tools[1..][i].className !in ClassNames(r + [tools[0]]) {
      assert tools[1..][i] == tools[i + 1];
      assert ClassNames(r + [tools[0]]) == ClassNames(r) + [tools[0].className];
    }
  }

  /** The classes of the built-in tools, in registration order. */
  function BuiltInKinds(): seq<ToolKind> {
    [PlaneCutKind, HollowKind, MarginKind, MirrorKind, CurveCutKind,
     BoundaryCutKind, AppendKind, ROICutKind, SelectByPointsKind]
  }

  /** A tool of class `k` that reports that class's name. */
  predicate IsOfClass(t: Tool, k: ToolKind) {
    t.kind == k && ReportsOwnClass(t)
  }

  /** Nine tools of the built-in classes, in registration order. */
  predicate OfBuiltInClasses(tools: seq<Tool>) {
    |tools| == 9 && forall i :: 0 <= i < 9 ==> IsOfClass(tools[i], BuiltInKinds()[i])
  }

  /** One tool of each built-in class, in registration order. */
  function InRegistrationOrder(planeCut: Tool, hollow: Tool, margin: Tool, mirror: Tool, curveCut: Tool,
                               boundaryCut: Tool, append: Tool, roiCut: Tool, selectByPoints: Tool): (tools: seq<Tool>)
    requires IsOfClass(planeCut, PlaneCutKind) && IsOfClass(hollow, HollowKind) && IsOfClass(margin, MarginKind)
    requires IsOfClass(mirror, MirrorKind) && IsOfClass(curveCut, CurveCutKind) && IsOfClass(boundaryCut, BoundaryCutKind)
    requires IsOfClass(append, AppendKind) && IsOfClass(roiCut, ROICutKind) && IsOfClass(selectByPoints, SelectByPointsKind)
    ensures OfBuiltInClasses(tools)
  {
    [planeCut, hollow, margin, mirror, curveCut, boundaryCut, append, roiCut, selectByPoints]
  }

  /** The nine built-in tools in registration order. The tools whose
      implementation is not part of this model are given as prototypes. */
  function BuiltIns(margin: Tool, curveCut: Tool, append: Tool, selectByPoints: Tool): (tools: seq<Tool>)
    requires IsOfClass(margin, MarginKind) && IsOfClass(curveCut, CurveCutKind)
    requires IsOfClass(append, AppendKind) && IsOfClass(selectByPoints, SelectByPointsKind)
    ensures OfBuiltInClasses(tools)
  {
    InRegistrationOrder(PlaneCut.Prototype(), Hollow.Prototype(), margin, Mirror.Prototype(), curveCut,
                        BoundaryCut.Prototype(), append, ROICut.Prototype(), selectByPoints)
  }

  /** `classInitialize`: every built-in tool registered into an empty factory. */
  function ClassInitialize(margin: Tool, curveCut: Tool, append: Tool, selectByPoints: Tool): Registry
    requires IsOfClass(margin, MarginKind) && IsOfClass(curveCut, CurveCutKind)
    requires IsOfClass(append, AppendKind) && IsOfClass(selectByPoints, SelectByPointsKind)
  {
    RegisterAll([], BuiltIns(margin, curveCut, append, selectByPoints)).0
  }

  /** All nine registrations succeed: the registry holds the nine tools in
      order, with distinct class names. */
  lemma ClassInitializeRegistersAll(margin: Tool, curveCut: Tool, append: Tool, selectByPoints: Tool)
    requires IsOfClass(margin, MarginKind) && IsOfClass(curveCut, CurveCutKind)
    requires IsOfClass(append, AppendKind) && IsOfClass(selectByPoints, SelectByPointsKind)
    ensures var tools := BuiltIns(margin, curveCut, append, selectByPoints);
      && ClassInitialize(margin, curveCut, append, selectByPoints) == tools
      && (forall i :: 0 <= i < 9 ==> RegisterAll([], tools).1[i])
      && UniqueClassNames(ClassInitialize(margin, curveCut, append, selectByPoints))
  {
    BuiltInClassesRegister(BuiltIns(margin, curveCut, append, selectByPoints));
  }

  /** Nine tools of the built-in classes all register, in order, with
      distinct class names. */
  lemma BuiltInClassesRegister(tools: seq<Tool>)
    requires OfBuiltInClasses(tools)
    ensures RegisterAll([], tools).0 == tools
    ensures forall i :: 0 <= i < 9 ==> RegisterAll([], tools).1[i]
    ensures UniqueClassNames(tools)
  {
    BuiltInKindsDistinct();
    assert UniqueClassNames(tools) by {
      forall i, j | 0 <= i < j < |tools| ensures tools[i].className != tools[j].className {
        assert IsOfClass(tools[i], BuiltInKinds()[i]) && IsOfClass(tools[j], BuiltInKinds()[j]);
        KindClassNamesDistinct(tools[i].kind, tools[j].kind);
      }
    }
    RegisterAllDistinct([], tools);
    assert [] + tools == tools;
  }

  /** The nine built-in classes are pairwise different. */
  lemma BuiltInKindsDistinct()
    ensures forall i, j :: 0 <= i < j < 9 ==> BuiltInKinds()[i] != BuiltInKinds()[j]
  {
  }

  /** Distinct classes have distinct class names. */
  lemma KindClassNamesDistinct(a: ToolKind, b: ToolKind)
    requires a != b
    ensures KindClassName(a) != KindClassName(b)
  {
  }
}
