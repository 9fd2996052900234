/** The home page's single carpet: the module-level `singleCarpet` and the
    `texture-details` element, with `changeTexture` and `changeColor`. */
module HomeView {
  import opened Maybe
  import opened Palette
  import opened Labels
  import opened Materials

  class HomePage {
    /** `singleCarpet`: null until the home OBJ has loaded. */
    var singleCarpet: array?<Node>
    /** The `texture-details` element: None when the page has none, else its text. */
    var details: Option<string>

    /** Once loaded, a textured mesh material is always white. */
    ghost predicate Valid()
      reads this, singleCarpet
    {
      singleCarpet != null ==> MapImpliesWhite(singleCarpet[..])
    }

    /** The state before the OBJ loader has answered. */
    constructor (details: Option<string>)
      ensures Valid()
      ensures singleCarpet == null && this.details == details
    {
      singleCarpet := null;
      this.details := details;
    }

    /** The home loader's success callback: the object becomes `singleCarpet`
        and every mesh gets a fresh material with carpet 1's texture. */
    method OnCarpetLoaded(obj: array<Node>)
      modifies this, obj
      ensures Valid()
      ensures singleCarpet == obj && details == old(details)
      ensures obj[..] == TraverseAll(old(obj[..]), AttachDefault(TEXTURES[0]))
    {
      singleCarpet := obj;
      Traverse(obj, AttachDefault(TEXTURES[0]));
      AttachEstablishesMapImpliesWhite(old(obj[..]), TEXTURES[0]);
    }

    /** `window.changeTexture(index)`: a no-op before load; otherwise every
        material is rewritten, and the label is written if the element exists. */
    method ChangeTexture(index: int)
      requires Valid()
      modifies this, singleCarpet
      ensures Valid()
      ensures singleCarpet == old(singleCarpet)
      ensures singleCarpet == null ==> details == old(details)
      ensures singleCarpet != null ==>
        singleCarpet[..] == TraverseAll(old(singleCarpet[..]), Apply(TextureChoice(index))) &&
        details == (if old(details).Some? then Some(TextureLabel(index)) else None)
    {
      if singleCarpet == null {
        return;
      }
      ghost var before := singleCarpet[..];
      Traverse(singleCarpet, Apply(TextureChoice(index)));
      SelectionPreservesMapImpliesWhite(before, TextureChoice(index));
      if details.None? {
        return;
      }
      details := Some(TextureLabel(index));
    }

    /** `window.changeColor(c)`: a no-op before load; otherwise every material
        is rewritten to the flat colour, and the fixed red-carpet label is
        written if the element exists. */
    method ChangeColor(c: Color)
      requires Valid()
      modifies this, singleCarpet
      ensures Valid()
      ensures singleCarpet == old(singleCarpet)
      ensures singleCarpet == null ==> details == old(details)
      ensures singleCarpet != null ==>
        singleCarpet[..] == TraverseAll(old(singleCarpet[..]), Apply(FlatColor(c))) &&
        details == (if old(details).Some? then Some(RED_CARPET_LABEL) else None)
    {
      if singleCarpet == null {
        return;
      }
      ghost var before := singleCarpet[..];
      Traverse(singleCarpet, Apply(FlatColor(c)));
      SelectionPreservesMapImpliesWhite(before, FlatColor(c));
      if details.Some? {
        details := Some(RED_CARPET_LABEL);
      }
    }
  }
}
