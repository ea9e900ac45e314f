/** Material normalisation of loaded models, shared by
    `frontend/components/ModelViewer3DWithTooltips.tsx` (FBX with tooltips) and
    `frontend/components/ModelViewer.tsx` (`FBXModel` and `GLTFModel`).

    A loaded model is a scene graph; `traverse` visits it in pre-order and the
    callback patches every mesh: shadow flags, Phong materials replaced by
    standard ones, standard materials tuned, missing textures replaced by a
    flat grey.  Materials are values here; three.js's `needsUpdate = true`
    (which bumps a version counter) is the flag `flagged`. */
module Materials {
  import opened Wrappers

  /** A packed 0xRRGGBB colour. */
  type Color = int

  const FallbackColor: Color := 0xcccccc
  const TooltipRoughness: real := 0.5
  const TooltipMetalness: real := 0.0

  datatype Image = Image(width: int)
  datatype Texture = Texture(image: Option<Image>)

  datatype Material =
    | Phong(color: Color, colorMap: Option<Texture>, normalMap: Option<Texture>, flagged: bool)
    | Standard(color: Color, colorMap: Option<Texture>, normalMap: Option<Texture>,
               roughness: real, metalness: real, flagged: bool)
    | OtherMaterial(flagged: bool)

  /** `!map.image || map.image.width === 0` */
  predicate Unusable(t: Texture) { t.image.None? || t.image.value.width == 0 }

  /** The FBX rule for one material: Phong becomes a new standard material
      with the colour, map and normal map copied; a standard material gets
      the roughness and metalness, and a map without a usable image is
      dropped for the flat grey fallback colour; a usable map keeps its
      colour.  No normal map is ever touched. */
  function Upgrade(m: Material, roughness: real, metalness: real): (r: Material)
    ensures Normalized(r, roughness, metalness)
    ensures r.OtherMaterial? <==> m.OtherMaterial?
    ensures m.Standard? && m.colorMap.Some? && Unusable(m.colorMap.value) ==>
      r.colorMap == None && r.color == FallbackColor
    ensures m.Standard? && !(m.colorMap.Some? && Unusable(m.colorMap.value)) ==>
      r.color == m.color && r.colorMap == m.colorMap
    ensures !m.OtherMaterial? ==> r.normalMap == m.normalMap
  {
    match m
    case Phong(c, colorMap, normalMap, _) =>
      // `needsUpdate` is set on the discarded Phong object, not on the new one
      Standard(c, colorMap, normalMap, roughness, metalness, false)
    case Standard(c, colorMap, normalMap, _, _, _) =>
      if colorMap.Some? && Unusable(colorMap.value) then Standard(FallbackColor, None, normalMap, roughness, metalness, true)
      else Standard(c, colorMap, normalMap, roughness, metalness, true)
    case OtherMaterial(_) => OtherMaterial(true)
  }

  /** The GLTF rule: only standard materials are tuned; nothing is replaced,
      no colour or map changes, and every material is flagged. */
  function GltfUpdate(m: Material, roughness: real, metalness: real): (r: Material)
    ensures r.flagged
    ensures r.Standard? <==> m.Standard?
    ensures r.Standard? ==> r.roughness == roughness && r.metalness == metalness
    ensures !m.OtherMaterial? ==> !r.OtherMaterial? && r.color == m.color && r.colorMap == m.colorMap && r.normalMap == m.normalMap
    ensures r.Phong? <==> m.Phong?
  {
    match m
    case Standard(c, colorMap, normalMap, _, _, _) => Standard(c, colorMap, normalMap, roughness, metalness, true)
    case Phong(c, colorMap, normalMap, _) => Phong(c, colorMap, normalMap, true)
    case OtherMaterial(_) => OtherMaterial(true)
  }

  function UpgradeAll(ms: seq<Material>, roughness: real, metalness: real): (rs: seq<Material>)
    ensures |rs| == |ms|
    ensures forall i :: 0 <= i < |ms| ==> rs[i] == Upgrade(ms[i], roughness, metalness)
  {
    seq(|ms|, i requires 0 <= i < |ms| => Upgrade(ms[i], roughness, metalness))
  }

  /** What the FBX rule guarantees of every material it returns. */
  predicate Normalized(m: Material, roughness: real, metalness: real) {
    !m.Phong? && (m.Standard? ==> m.roughness == roughness && m.metalness == metalness)
  }

  /** After the FBX rule no Phong material is left, every standard material
      carries the requested roughness and metalness, nothing changes kind
      except Phong, and a map that came from a standard material is usable:
      a broken one was replaced by the grey fallback, a working one kept
      with its colour.  Normal maps always survive. */
  lemma UpgradeNormalizes(m: Material, roughness: real, metalness: real)
    ensures var r := Upgrade(m, roughness, metalness);
      && Normalized(r, roughness, metalness)
      && (r.Standard? <==> !m.OtherMaterial?)
      && (m.Standard? && r.colorMap.Some? ==> !Unusable(r.colorMap.value))
      && (m.Phong? ==> r.color == m.color && r.colorMap == m.colorMap && r.normalMap == m.normalMap)
      && (m.Standard? ==> r.normalMap == m.normalMap)
      && (m.Standard? && m.colorMap.Some? && Unusable(m.colorMap.value) ==>
            r.colorMap == None && r.color == FallbackColor)
      && (m.Standard? && !(m.colorMap.Some? && Unusable(m.colorMap.value)) ==>
            r.colorMap == m.colorMap && r.color == m.color)
  {
  }

  /** A converted Phong material keeps its map even when the map is unusable:
      the grey fallback only applies to materials that were already standard.
      A second pass would clear it. */
  lemma PhongKeepsUnusableMap(c: Color, t: Texture, n: Option<Texture>, f: bool, roughness: real, metalness: real)
    requires Unusable(t)
    ensures Upgrade(Phong(c, Some(t), n, f), roughness, metalness).colorMap == Some(t)
    ensures Upgrade(Upgrade(Phong(c, Some(t), n, f), roughness, metalness), roughness, metalness).colorMap == None
  {
  }

  /** Applying the FBX rule to its own output changes nothing but the update
      flag, except for that converted Phong case. */
  lemma UpgradeStable(m: Material, roughness: real, metalness: real)
    requires !(m.Phong? && m.colorMap.Some? && Unusable(m.colorMap.value))
    ensures var r := Upgrade(m, roughness, metalness);
      Upgrade(r, roughness, metalness) == r.(flagged := true)
  {
  }

  /** JavaScript's `indexOf`: the first position holding `m`, or -1. */
  function IndexOf(a: seq<Material>, m: Material): (r: int)
    ensures -1 <= r < |a|
    ensures r == -1 <==> m !in a
    ensures 0 <= r ==> a[r] == m && m !in a[..r]
  {
    if a == [] then -1
    else if a[0] == m then 0
    else
      var k := IndexOf(a[1..], m);
      assert a[1..][..if k < 0 then 0 else k] == a[1..1 + (if k < 0 then 0 else k)];
      if k < 0 then -1 else k + 1
  }

  /** The `materials.forEach` over a mesh's material array: each Phong entry
      is located with `indexOf` and its slot overwritten with the new standard
      material, every other entry is updated where it stands.  `indexOf`
      always finds the slot being visited, because no Phong material is left
      before it. */
  method UpgradeSlots(mats: array<Material>, roughness: real, metalness: real)
    modifies mats
    ensures mats[..] == UpgradeAll(old(mats[..]), roughness, metalness)
  {
    var i := 0;
    while i < mats.Length
      invariant 0 <= i <= mats.Length
      invariant forall k :: 0 <= k < i ==> mats[k] == Upgrade(old(mats[k]), roughness, metalness)
      invariant forall k :: i <= k < mats.Length ==> mats[k] == old(mats[k])
    {
      var mat := mats[i];
      match mat {
        case Phong(c, colorMap, normalMap, _) =>
          var standardMat := Standard(c, colorMap, normalMap, roughness, metalness, false);
          var index := IndexOf(mats[..], mat);
          assert mats[..][i] == mat;
          assert index == i;
          mats[index] := standardMat;
        case Standard(c, colorMap, normalMap, _, _, _) =>
          if colorMap.Some? && Unusable(colorMap.value) {
            mats[i] := Standard(FallbackColor, None, normalMap, roughness, metalness, true);
          } else {
            mats[i] := Standard(c, colorMap, normalMap, roughness, metalness, true);
          }
        case OtherMaterial(_) =>
          mats[i] := OtherMaterial(true);
      }
      i := i + 1;
    }
  }

  /** `mesh.material`: absent, one material, or an array of them. */
  datatype MaterialSlot = NoMaterial | Single(material: Material) | Multi(materials: seq<Material>)

  datatype Node = Node(isMesh: bool, castShadow: bool, receiveShadow: bool, material: MaterialSlot)

  /** A scene-graph object and its children. */
  datatype Object3D = Object3D(node: Node, children: seq<Object3D>)

  /** Which of the three traversal callbacks runs. */
  datatype Rule = TooltipRule | FbxRule(roughness: real, metalness: real) | GltfRule(roughness: real, metalness: real)

  function UpgradeSlot(s: MaterialSlot, roughness: real, metalness: real): MaterialSlot {
    match s
    case NoMaterial => NoMaterial
    case Single(m) => Single(Upgrade(m, roughness, metalness))
    case Multi(ms) => Multi(UpgradeAll(ms, roughness, metalness))
  }

  function GltfSlot(s: MaterialSlot, roughness: real, metalness: real): MaterialSlot {
    match s
    case NoMaterial => NoMaterial
    case Single(m) => Single(GltfUpdate(m, roughness, metalness))
    case Multi(ms) => Multi(seq(|ms|, i requires 0 <= i < |ms| => GltfUpdate(ms[i], roughness, metalness)))
  }

  /** The traversal callback applied to one object.  (For the tooltip rule a
      mesh without a material throws; `TraverseTooltip` models that.) */
  function NormalizeNode(rule: Rule, n: Node): Node {
    if !n.isMesh then n
    else match rule
      case TooltipRule =>
        n.(castShadow := true, receiveShadow := true,
           material := UpgradeSlot(n.material, TooltipRoughness, TooltipMetalness))
      case FbxRule(r, m) =>
        if n.material.NoMaterial? then n
        else n.(castShadow := true, receiveShadow := true, material := UpgradeSlot(n.material, r, m))
      case GltfRule(r, m) =>
        n.(castShadow := true, receiveShadow := true, material := GltfSlot(n.material, r, m))
  }

  /** `object.traverse(callback)` as a value transform: the tree keeps its
      shape, and an object that is not a mesh is left as it was. */
  function Traverse(rule: Rule, o: Object3D): (r: Object3D)
    decreases o, 1
    ensures |r.children| == |o.children| && r.node.isMesh == o.node.isMesh
    ensures !o.node.isMesh ==> r.node == o.node
  {
    Object3D(NormalizeNode(rule, o.node), TraverseAll(rule, o.children))
  }

  function TraverseAll(rule: Rule, cs: seq<Object3D>): (rs: seq<Object3D>)
    decreases cs, 0
    ensures |rs| == |cs|
  {
    if cs == [] then [] else [Traverse(rule, cs[0])] + TraverseAll(rule, cs[1..])
  }

  /** The objects in `traverse` order (pre-order). */
  function Nodes(o: Object3D): seq<Node>
    decreases o, 1
  {
    [o.node] + NodesAll(o.children)
  }

  function NodesAll(cs: seq<Object3D>): seq<Node>
    decreases cs, 0
  {
    if cs == [] then [] else Nodes(cs[0]) + NodesAll(cs[1..])
  }

  function MapNodes(rule: Rule, ns: seq<Node>): (rs: seq<Node>)
    ensures |rs| == |ns|
    ensures forall i :: 0 <= i < |ns| ==> rs[i] == NormalizeNode(rule, ns[i])
  {
    seq(|ns|, i requires 0 <= i < |ns| => NormalizeNode(rule, ns[i]))
  }

  lemma MapNodesAppend(rule: Rule, a: seq<Node>, b: seq<Node>)
    ensures MapNodes(rule, a + b) == MapNodes(rule, a) + MapNodes(rule, b)
  {
  }

  /** The traversal visits every object once, in pre-order, and changes each
      one exactly as the callback says: the output's objects, in traversal
      order, are the callback applied to the input's. */
  lemma {:induction false} TraverseNodes(rule: Rule, o: Object3D)
    ensures Nodes(Traverse(rule, o)) == MapNodes(rule, Nodes(o))
    decreases o, 1
  {
    TraverseAllNodes(rule, o.children);
    MapNodesAppend(rule, [o.node], NodesAll(o.children));
  }

  lemma {:induction false} TraverseAllNodes(rule: Rule, cs: seq<Object3D>)
    ensures NodesAll(TraverseAll(rule, cs)) == MapNodes(rule, NodesAll(cs))
    decreases cs, 0
  {
    if cs != [] {
      TraverseNodes(rule, cs[0]);
      TraverseAllNodes(rule, cs[1..]);
      assert TraverseAll(rule, cs)[1..] == TraverseAll(rule, cs[1..]);
      MapNodesAppend(rule, Nodes(cs[0]), NodesAll(cs[1..]));
    }
  }

  predicate SlotNormalized(s: MaterialSlot, roughness: real, metalness: real) {
    match s
    case NoMaterial => true
    case Single(m) => Normalized(m, roughness, metalness)
    case Multi(ms) => forall i :: 0 <= i < |ms| ==> Normalized(ms[i], roughness, metalness)
  }

  lemma UpgradeSlotNormalized(s: MaterialSlot, roughness: real, metalness: real)
    ensures SlotNormalized(UpgradeSlot(s, roughness, metalness), roughness, metalness)
  {
    match s
    case NoMaterial =>
    case Single(m) => UpgradeNormalizes(m, roughness, metalness);
    case Multi(ms) =>
      forall i | 0 <= i < |ms| ensures Normalized(UpgradeAll(ms, roughness, metalness)[i], roughness, metalness) {
        UpgradeNormalizes(ms[i], roughness, metalness);
      }
  }

  /** The tooltip viewer's traversal: every mesh casts and receives shadows
      and every material is standard-or-other with roughness 0.5 and
      metalness 0, each upgraded by `Upgrade` (so a broken map gives way to
      the grey fallback); objects that are not meshes are untouched. */
  lemma TooltipTraversalSpec(o: Object3D)
    ensures var before, after := Nodes(o), Nodes(Traverse(TooltipRule, o));
      && |after| == |before|
      && forall i :: 0 <= i < |before| ==>
           if before[i].isMesh then
             after[i].castShadow && after[i].receiveShadow
             && SlotNormalized(after[i].material, TooltipRoughness, TooltipMetalness)
             && after[i].material == UpgradeSlot(before[i].material, TooltipRoughness, TooltipMetalness)
           else after[i] == before[i]
  {
    TraverseNodes(TooltipRule, o);
    var before := Nodes(o);
    forall i | 0 <= i < |before| && before[i].isMesh
      ensures SlotNormalized(NormalizeNode(TooltipRule, before[i]).material, TooltipRoughness, TooltipMetalness)
    {
      UpgradeSlotNormalized(before[i].material, TooltipRoughness, TooltipMetalness);
    }
  }

  /** `FBXModel`'s traversal: only meshes that have a material get shadows
      and normalised materials, with the caller's roughness and metalness;
      a mesh without a material is left as it was. */
  lemma FbxTraversalSpec(o: Object3D, roughness: real, metalness: real)
    ensures var before, after := Nodes(o), Nodes(Traverse(FbxRule(roughness, metalness), o));
      && |after| == |before|
      && forall i :: 0 <= i < |before| ==>
           if before[i].isMesh && !before[i].material.NoMaterial? then
             after[i].castShadow && after[i].receiveShadow
             && SlotNormalized(after[i].material, roughness, metalness)
             && after[i].material == UpgradeSlot(before[i].material, roughness, metalness)
           else after[i] == before[i]
  {
    TraverseNodes(FbxRule(roughness, metalness), o);
    var before := Nodes(o);
    forall i | 0 <= i < |before| && before[i].isMesh
      ensures SlotNormalized(UpgradeSlot(before[i].material, roughness, metalness), roughness, metalness)
    {
      UpgradeSlotNormalized(before[i].material, roughness, metalness);
    }
  }

  /** `GLTFModel`'s traversal: every mesh gets shadows whether or not it has
      a material, standard materials get the roughness and metalness, and no
      material changes kind. */
  lemma GltfTraversalSpec(o: Object3D, roughness: real, metalness: real)
    ensures var before, after := Nodes(o), Nodes(Traverse(GltfRule(roughness, metalness), o));
      && |after| == |before|
      && forall i :: 0 <= i < |before| ==>
           if before[i].isMesh then
             && after[i].castShadow && after[i].receiveShadow
             && (before[i].material.NoMaterial? <==> after[i].material.NoMaterial?)
             && (before[i].material.Single? ==>
                   after[i].material.Single?
                   && after[i].material.material.Standard? == before[i].material.material.Standard?
                   && after[i].material.material.Phong? == before[i].material.material.Phong?
                   && (after[i].material.material.Standard? ==>
                         after[i].material.material.roughness == roughness
                         && after[i].material.material.metalness == metalness))
           else after[i] == before[i]
  {
    TraverseNodes(GltfRule(roughness, metalness), o);
  }

  /** Every mesh has a material (the tooltip traversal's precondition for not throwing). */
  predicate MeshesHaveMaterial(ns: seq<Node>) {
    forall i :: 0 <= i < |ns| ==> ns[i].isMesh ==> !ns[i].material.NoMaterial?
  }

  /** The tooltip viewer's traversal as written: a mesh without a material
      gets its shadow flags and then throws (`needsUpdate` on `undefined`),
      which abandons the rest of the traversal.  Returns the tree as left
      and whether the traversal completed. */
  function TraverseTooltip(o: Object3D): (r: (Object3D, bool))
    decreases o, 1
    ensures |r.0.children| == |o.children| && r.0.node.isMesh == o.node.isMesh
    ensures r.0.node.isMesh ==> r.0.node.castShadow && r.0.node.receiveShadow
    ensures o.node.isMesh && o.node.material.NoMaterial? ==> !r.1
  {
    if o.node.isMesh && o.node.material.NoMaterial? then
      (Object3D(o.node.(castShadow := true, receiveShadow := true), o.children), false)
    else
      var (cs, ok) := TraverseTooltipAll(o.children);
      (Object3D(NormalizeNode(TooltipRule, o.node), cs), ok)
  }

  function TraverseTooltipAll(cs: seq<Object3D>): (r: (seq<Object3D>, bool))
    decreases cs, 0
    ensures |r.0| == |cs|
  {
    if cs == [] then ([], true)
    else
      var (c0, ok) := TraverseTooltip(cs[0]);
      if !ok then ([c0] + cs[1..], false)
      else
        var (rest, ok2) := TraverseTooltipAll(cs[1..]);
        ([c0] + rest, ok2)
  }

  /** The traversal completes exactly when every mesh has a material, and
      then it is the plain tooltip traversal. */
  lemma {:induction false} TraverseTooltipCompletes(o: Object3D)
    ensures TraverseTooltip(o).1 <==> MeshesHaveMaterial(Nodes(o))
    ensures TraverseTooltip(o).1 ==> TraverseTooltip(o).0 == Traverse(TooltipRule, o)
    decreases o, 1
  {
    TraverseTooltipAllCompletes(o.children);
    assert Nodes(o)[0] == o.node;
    assert Nodes(o)[1..] == NodesAll(o.children);
  }

  lemma {:induction false} TraverseTooltipAllCompletes(cs: seq<Object3D>)
    ensures TraverseTooltipAll(cs).1 <==> MeshesHaveMaterial(NodesAll(cs))
    ensures TraverseTooltipAll(cs).1 ==> TraverseTooltipAll(cs).0 == TraverseAll(TooltipRule, cs)
    decreases cs, 0
  {
    if cs != [] {
      TraverseTooltipCompletes(cs[0]);
      TraverseTooltipAllCompletes(cs[1..]);
      assert NodesAll(cs) == Nodes(cs[0]) + NodesAll(cs[1..]);
      if TraverseTooltip(cs[0]).1 && !TraverseTooltipAll(cs[1..]).1 {
        var ns := NodesAll(cs[1..]);
        var i :| 0 <= i < |ns| && ns[i].isMesh && ns[i].material.NoMaterial?;
        assert NodesAll(cs)[|Nodes(cs[0])| + i] == ns[i];
      }
      if !TraverseTooltip(cs[0]).1 {
        var ns := Nodes(cs[0]);
        var i :| 0 <= i < |ns| && ns[i].isMesh && ns[i].material.NoMaterial?;
        assert NodesAll(cs)[i] == ns[i];
      }
    }
  }
}
