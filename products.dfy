/** The products page: `multiViewers`, four optional viewer slots, filled by
    `initProductsScene`/`createCarpetViewer` and walked by the render and
    resize passes. */
module ProductsView {
  import opened Maybe
  import opened Palette
  import opened Materials

  /** The number of product canvases `initProductsScene` asks for. */
  const VIEWER_COUNT := 4

  /** A product viewer: its number i (1-based), the texture its load callback
      will attach, and its model, null until that callback has run. */
  datatype Viewer = Viewer(number: int, texture: Texture, model: Option<seq<Node>>)

  /** The viewer `createCarpetViewer(i)` stores: numbered i, carrying the
      product texture of line 173 (always a palette texture, entry i - 1 for
      i in 1..4) and no model yet. */
  function NewViewer(i: int): (w: Viewer)
    ensures w.number == i && w.texture == ProductTexture(i) && w.model.None?
    ensures w.texture in TEXTURES
    ensures 1 <= i <= |TEXTURES| ==> w.texture == TEXTURES[i - 1]
  {
    Viewer(i, ProductTexture(i), None)
  }

  class Gallery {
    /** `multiViewers`: slot i - 1 for viewer i; None where no viewer was created. */
    var slots: array<Option<Viewer>>

    /** Slot k holds viewer k + 1 with that viewer's product texture, and a
        loaded model shows that texture on every mesh. */
    ghost predicate Valid()
      reads this, slots
    {
      slots.Length == VIEWER_COUNT &&
      forall k :: 0 <= k < slots.Length && slots[k].Some? ==>
        slots[k].value.number == k + 1 &&
        slots[k].value.texture == ProductTexture(k + 1) &&
        (slots[k].value.model.Some? ==> Dressed(slots[k].value.model.value, slots[k].value.texture))
    }

    /** `const multiViewers = []`. */
    constructor ()
      ensures Valid() && fresh(slots)
      ensures forall k :: 0 <= k < slots.Length ==> slots[k] == None
    {
      slots := new Option<Viewer>[VIEWER_COUNT](_ => None);
    }

    /** `createCarpetViewer(i)`: without canvas `carpetCanvas<i>` nothing
        happens; otherwise slot i - 1 gets a fresh viewer with no model. */
    method CreateViewer(i: int, canvasPresent: bool)
      requires Valid() && 1 <= i <= VIEWER_COUNT
      modifies slots
      ensures Valid()
      ensures slots[i - 1] == if canvasPresent then Some(NewViewer(i)) else old(slots[i - 1])
      ensures forall k :: 0 <= k < slots.Length && k != i - 1 ==> slots[k] == old(slots[k])
    {
      if !canvasPresent {
        return;
      }
      slots[i - 1] := Some(NewViewer(i));
    }

    /** `initProductsScene()`: viewers 1..4 in order; `canvases[i - 1]` says
        whether `carpetCanvas<i>` exists. */
    method InitProductsScene(canvases: seq<bool>)
      requires Valid() && |canvases| == VIEWER_COUNT
      modifies slots
      ensures Valid()
      ensures forall k :: 0 <= k < slots.Length ==>
        slots[k] == if canvases[k] then Some(NewViewer(k + 1)) else old(slots[k])
    {
      var i := 1;
      while i <= VIEWER_COUNT
        invariant 1 <= i <= VIEWER_COUNT + 1
        invariant Valid()
        invariant forall k :: 0 <= k < i - 1 ==>
          slots[k] == if canvases[k] then Some(NewViewer(k + 1)) else old(slots[k])
        invariant forall k :: i - 1 <= k < slots.Length ==> slots[k] == old(slots[k])
      {
        CreateViewer(i, canvases[i - 1]);
        i := i + 1;
      }
    }

    /** The product loader's success callback for viewer i: every mesh of the
        object gets a fresh material with the viewer's texture, and the object
        becomes that viewer's model; no other slot changes. */
    method OnModelLoaded(i: int, obj: array<Node>)
      requires Valid() && 1 <= i <= VIEWER_COUNT && slots[i - 1].Some?
      modifies slots, obj
      ensures Valid()
      ensures obj[..] == TraverseAll(old(obj[..]), AttachDefault(old(slots[i - 1].value.texture)))
      ensures slots[i - 1] == Some(old(slots[i - 1].value).(model := Some(obj[..])))
      ensures forall k :: 0 <= k < slots.Length && k != i - 1 ==> slots[k] == old(slots[k])
    {
      var viewer := slots[i - 1].value;
      Traverse(obj, AttachDefault(viewer.texture));
      AttachDresses(old(obj[..]), viewer.texture);
      slots[i - 1] := Some(viewer.(model := Some(obj[..])));
    }

    /** One frame of `animate()`: the slots whose controls are updated and
        rendered, in slot order; empty slots are skipped. */
    method RenderOrder() returns (order: seq<int>)
      ensures forall k :: k in order <==> 0 <= k < slots.Length && slots[k].Some?
      ensures forall a, b :: 0 <= a < b < |order| ==> order[a] < order[b]
    {
      order := [];
      var i := 0;
      while i < slots.Length
        invariant 0 <= i <= slots.Length
        invariant forall k :: k in order <==> 0 <= k < i && slots[k].Some?
        invariant forall a, b :: 0 <= a < b < |order| ==> order[a] < order[b]
        invariant forall a :: 0 <= a < |order| ==> order[a] < i
      {
        if slots[i].Some? {
          order := order + [i];
        }
        i := i + 1;
      }
    }

    /** The resize pass: the slots whose camera aspect and renderer size are
        recomputed, in slot order: those holding a viewer whose canvas
        `carpetCanvas<k + 1>` exists now (`canvases[k]`). */
    method ResizeOrder(canvases: seq<bool>) returns (order: seq<int>)
      requires |canvases| == slots.Length
      ensures forall k :: k in order <==> 0 <= k < slots.Length && slots[k].Some? && canvases[k]
      ensures forall a, b :: 0 <= a < b < |order| ==> order[a] < order[b]
    {
      order := [];
      var i := 0;
      while i < slots.Length
        invariant 0 <= i <= slots.Length
        invariant forall k :: k in order <==> 0 <= k < i && slots[k].Some? && canvases[k]
        invariant forall a, b :: 0 <= a < b < |order| ==> order[a] < order[b]
        invariant forall a :: 0 <= a < |order| ==> order[a] < i
      {
        if slots[i].Some? && canvases[i] {
          order := order + [i];
        }
        i := i + 1;
      }
    }
  }
}
