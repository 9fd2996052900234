/** The loaded carpet object as the sequence of nodes `traverse` visits, the
    materials on its meshes, and the traversal callbacks of main.js. */
module Materials {
  import opened Maybe
  import opened Palette

  /** A colour as the 24-bit RGB value `Color.set` stores. */
  type Color = c: int | 0 <= c < 0x1000000

  const WHITE: Color := 0xffffff

  /** A mesh material: its texture `map`, its `color` and the `needsUpdate` flag. */
  datatype Material = Material(textureMap: Option<Texture>, color: Color, needsUpdate: bool)

  /** A node of the object tree: whether it is a mesh, and its material, if any. */
  datatype Node = Node(isMesh: bool, material: Option<Material>)

  /** A user's material selection: a 1-based palette index or a flat colour. */
  datatype Selection = TextureChoice(index: int) | FlatColor(color: Color)

  /** The two traversal callbacks: creating a fresh default material on every
      mesh when an object loads, and rewriting an existing mesh material. */
  datatype Visitor = AttachDefault(texture: Texture) | Apply(selection: Selection)

  /** A material that has a texture map has colour white: a texture and a
      colour override are never shown at once. */
  predicate WhiteWhenTextured(m: Material)
  {
    m.textureMap.Some? ==> m.color == WHITE
  }

  /** `new MeshStandardMaterial({map: texture, color: 0xffffff})`: the map is
      the given texture, and the new material is white and not yet dirty. */
  function FreshMaterial(t: Texture): (m: Material)
    ensures m.textureMap == Some(t) && WhiteWhenTextured(m) && !m.needsUpdate
  {
    Material(Some(t), WHITE, false)
  }

  /** The in-place rewrite of one material by a selection: a texture choice
      shows the palette entry (none out of range) untinted, a flat colour
      drops the map; either way the material is dirty and textured-means-white
      holds, whatever the material was before. */
  function Repaint(m: Material, sel: Selection): (r: Material)
    ensures r.needsUpdate && WhiteWhenTextured(r)
    ensures sel.TextureChoice? ==> r.textureMap == PaletteEntry(sel.index) && r.color == WHITE
    ensures sel.FlatColor? ==> r.textureMap.None? && r.color == sel.color
  {
    match sel
    case TextureChoice(index) => m.(textureMap := PaletteEntry(index), color := WHITE, needsUpdate := true)
    case FlatColor(c) => m.(textureMap := None, color := c, needsUpdate := true)
  }

  /** The nodes a selection rewrites: `child.isMesh && child.material`. */
  predicate Paintable(n: Node)
  {
    n.isMesh && n.material.Some?
  }

  /** One callback applied to one visited node. Only a mesh's material can
      change: an object load gives every mesh a fresh material, a selection
      rewrites only a mesh that already has one. */
  function Visit(n: Node, v: Visitor): (r: Node)
    ensures r.isMesh == n.isMesh
    ensures !n.isMesh ==> r == n
    ensures v.Apply? && n.material.None? ==> r == n
    ensures v.AttachDefault? && n.isMesh ==> r.material == Some(FreshMaterial(v.texture))
    ensures v.Apply? && Paintable(n) ==> r.material == Some(Repaint(n.material.value, v.selection))
  {
    match v
    case AttachDefault(t) => if n.isMesh then n.(material := Some(FreshMaterial(t))) else n
    case Apply(sel) => if Paintable(n) then n.(material := Some(Repaint(n.material.value, sel))) else n
  }

  /** A selection rewrites a node exactly when it is paintable: any other
      node comes back unchanged, and a paintable one comes back with a dirty
      material. */
  lemma SelectionRewritesOnlyPaintable(n: Node, sel: Selection)
    ensures !Paintable(n) ==> Visit(n, Apply(sel)) == n
    ensures Paintable(n) ==> Visit(n, Apply(sel)).material.Some? && Visit(n, Apply(sel)).material.value.needsUpdate
  {
  }

  /** `traverse(callback)`: the callback applied to every node in visit order. */
  function TraverseAll(s: seq<Node>, v: Visitor): (r: seq<Node>)
    ensures |r| == |s|
    ensures forall k :: 0 <= k < |s| ==> r[k] == Visit(s[k], v)
  {
    if s == [] then [] else [Visit(s[0], v)] + TraverseAll(s[1..], v)
  }

  /** The traversal loop, rewriting the nodes in place. */
  method Traverse(nodes: array<Node>, v: Visitor)
    modifies nodes
    ensures nodes[..] == TraverseAll(old(nodes[..]), v)
  {
    var i := 0;
    while i < nodes.Length
      invariant 0 <= i <= nodes.Length
      invariant forall k :: 0 <= k < i ==> nodes[k] == Visit(old(nodes[k]), v)
      invariant forall k :: i <= k < nodes.Length ==> nodes[k] == old(nodes[k])
    {
      nodes[i] := Visit(nodes[i], v);
      i := i + 1;
    }
  }

  /** After `changeTexture(index)`: every mesh with a material has the palette
      entry (or none, out of range), colour white and is dirty; every other node
      is as it was. */
  lemma TextureApplied(s: seq<Node>, index: int)
    ensures var r := TraverseAll(s, Apply(TextureChoice(index)));
      |r| == |s| &&
      forall k :: 0 <= k < |s| ==>
        r[k] == if Paintable(s[k]) then s[k].(material := Some(Material(PaletteEntry(index), WHITE, true))) else s[k]
  {
  }

  /** After `changeColor(c)`: every mesh with a material has no map, colour `c`
      and is dirty; every other node is as it was. */
  lemma ColorApplied(s: seq<Node>, c: Color)
    ensures var r := TraverseAll(s, Apply(FlatColor(c)));
      |r| == |s| &&
      forall k :: 0 <= k < |s| ==>
        r[k] == if Paintable(s[k]) then s[k].(material := Some(Material(None, c, true))) else s[k]
  {
  }

  /** After loading: every mesh carries a fresh material with the given map and
      colour white, and so becomes paintable; other nodes are untouched. */
  lemma AttachApplied(s: seq<Node>, t: Texture)
    ensures var r := TraverseAll(s, AttachDefault(t));
      |r| == |s| &&
      forall k :: 0 <= k < |s| ==>
        r[k] == if s[k].isMesh then s[k].(material := Some(FreshMaterial(t))) else s[k]
    ensures forall k :: 0 <= k < |s| && s[k].isMesh ==> Paintable(TraverseAll(s, AttachDefault(t))[k])
  {
  }

  /** A selection overwrites the whole material state left by an earlier one:
      only the last selection is observable. */
  lemma LastSelectionWins(s: seq<Node>, first: Selection, second: Selection)
    ensures TraverseAll(TraverseAll(s, Apply(first)), Apply(second)) == TraverseAll(s, Apply(second))
  {
  }

  /** Applying the same selection twice gives the state of applying it once. */
  lemma SelectionIdempotent(s: seq<Node>, sel: Selection)
    ensures TraverseAll(TraverseAll(s, Apply(sel)), Apply(sel)) == TraverseAll(s, Apply(sel))
  {
    LastSelectionWins(s, sel, sel);
  }

  /** Every mesh material of the object is WhiteWhenTextured. */
  predicate MapImpliesWhite(s: seq<Node>)
  {
    forall k :: 0 <= k < |s| && s[k].isMesh && s[k].material.Some? ==> WhiteWhenTextured(s[k].material.value)
  }

  /** Loading establishes MapImpliesWhite, whatever the materials were before. */
  lemma AttachEstablishesMapImpliesWhite(s: seq<Node>, t: Texture)
    ensures MapImpliesWhite(TraverseAll(s, AttachDefault(t)))
  {
  }

  /** Every selection preserves MapImpliesWhite. */
  lemma SelectionPreservesMapImpliesWhite(s: seq<Node>, sel: Selection)
    requires MapImpliesWhite(s)
    ensures MapImpliesWhite(TraverseAll(s, Apply(sel)))
  {
  }

  /** Every mesh of a loaded product model shows the viewer's own texture. */
  predicate Dressed(s: seq<Node>, t: Texture)
  {
    forall k :: 0 <= k < |s| && s[k].isMesh ==> s[k].material == Some(FreshMaterial(t))
  }

  lemma AttachDresses(s: seq<Node>, t: Texture)
    ensures Dressed(TraverseAll(s, AttachDefault(t)), t)
  {
  }
}
