/** The descriptions written into the `texture-details` element. */
module Labels {
  const CARPET_1_LABEL := "Carpet 1: Dimensions: 1.50 x 2.20 m, Material: Polyester"
  const CARPET_2_LABEL := "Carpet 2: Dimensions: 2.00 x 3.00 m, Material: Cotton"
  const CARPET_3_LABEL := "Carpet 3: Dimensions: 1.75 x 2.50 m, Material: Wool"
  const UNKNOWN_CARPET := "Unknown Carpet"

  /** The one label a flat colour selection writes, whatever the colour. */
  const RED_CARPET_LABEL := "Red Carpet: Dimensions: 1.60 x 2.30 m, Material: Polyester (Red Finish)"

  /** The label for a texture index: a fixed table for carpets 1-3 and
      "Unknown Carpet" for every other index, palette entry or not. */
  function TextureLabel(index: int): (text: string)
    ensures index == 1 ==> text == "Carpet 1: Dimensions: 1.50 x 2.20 m, Material: Polyester"
    ensures index == 2 ==> text == "Carpet 2: Dimensions: 2.00 x 3.00 m, Material: Cotton"
    ensures index == 3 ==> text == "Carpet 3: Dimensions: 1.75 x 2.50 m, Material: Wool"
    ensures text == UNKNOWN_CARPET <==> !(1 <= index <= 3)
  {
    if index == 1 then CARPET_1_LABEL
    else if index == 2 then CARPET_2_LABEL
    else if index == 3 then CARPET_3_LABEL
    else UNKNOWN_CARPET
  }

  /** Different carpets get different labels. */
  lemma TextureLabelInjective(i: int, j: int)
    requires 1 <= i <= 3 && 1 <= j <= 3 && i != j
    ensures TextureLabel(i) != TextureLabel(j)
  {
  }
}
