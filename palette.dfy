/** The fixed texture palette `TEXTURES` and the two ways main.js indexes it. */
module Palette {
  import opened Maybe

  /** A loaded texture, identified by the asset it was loaded from. */
  datatype Texture = Texture(path: string)

  /** The palette, in order: carpet 1 .. carpet 4. */
  const TEXTURES: seq<Texture> := [
    Texture("./assets/Doormate_metallicRoughness.png"),
    Texture("./assets/Doormate_baseColor.png"),
    Texture("./assets/Doormate_normal.png"),
    Texture("./assets/Carpet4.png")
  ]

  /** `TEXTURES[index - 1]` with a 1-based index: an index outside the palette
      reads JavaScript `undefined`, modelled as `None`. Nothing is rejected. */
  function PaletteEntry(index: int): (r: Option<Texture>)
    ensures r.Some? <==> 1 <= index <= |TEXTURES|
    ensures r.Some? ==> r.value in TEXTURES && TEXTURES[index - 1] == r.value
  {
    if 1 <= index <= |TEXTURES| then Some(TEXTURES[index - 1]) else None
  }

  /** Distinct palette positions hold distinct textures, so a looked-up
      texture determines the index that selected it. */
  lemma PaletteEntryInjective(i: int, j: int)
    requires PaletteEntry(i).Some? && PaletteEntry(i) == PaletteEntry(j)
    ensures i == j
  {
  }

  /** The texture a product viewer is created with: `TEXTURES[i - 1] || TEXTURES[0]`.
      A texture object is always truthy, so the fallback is taken exactly when
      the entry is missing. */
  function ProductTexture(i: int): (t: Texture)
    ensures t in TEXTURES
    ensures 1 <= i <= |TEXTURES| ==> t == TEXTURES[i - 1]
    ensures !(1 <= i <= |TEXTURES|) ==> t == TEXTURES[0]
  {
    match PaletteEntry(i)
    case Some(entry) => entry
    case None => TEXTURES[0]
  }
}
