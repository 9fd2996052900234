# CGdekor carpet viewer: material selection and viewer slots

This project models the state logic of the carpet shop's `main.js`: the home
page's single carpet with its texture and colour selection, and the products
page's four viewer slots.

- **Palette** (`palette.dfy`): the fixed palette `TEXTURES` of four textures,
  the unchecked 1-based lookup `TEXTURES[index - 1]` (`None` where JavaScript
  reads `undefined`), and the product viewers' fallback
  `TEXTURES[i - 1] || TEXTURES[0]`.
- **Labels** (`labels.dfy`): the text written into the `texture-details`
  element. Carpets 1-3 have fixed labels. Every other index gets
  "Unknown Carpet", index 4 included, even though it has a texture. A colour
  selection always writes the same red-carpet label.
- **Materials** (`materials.dfy`): a loaded object is the sequence of nodes
  `traverse` visits. Each node has an `isMesh` flag and an optional material
  (`map`, `color`, `needsUpdate`). There are two traversal callbacks. The
  load callback gives every mesh a fresh white material with a map. A
  selection rewrites the existing material of every mesh that has one.
  `TraverseAll` is the specification and `Traverse` the in-place loop. The
  lemmas state what each selection leaves behind and that a selection leaves
  every other node alone. They also state that the last selection wins, so
  each one is idempotent. Finally, they show the invariant that a mesh
  material with a map is white: loading establishes it and every selection
  keeps it.
- **Home view** (`home.dfy`): class `HomePage` holds `singleCarpet` (null
  until the OBJ loads) and the optional details element. `ChangeTexture` and
  `ChangeColor` change nothing before load. After load they rewrite the
  materials even when the details element is missing; only the label write
  is skipped then.
- **Products view** (`products.dfy`): class `Gallery` holds `multiViewers` as
  an array of four optional slots. `InitProductsScene` creates viewers 1..4
  in order, and a missing canvas leaves its slot empty. A new viewer has no
  model. Only that viewer's own load callback sets its model, and the model
  then shows the viewer's texture on every mesh. The render and resize passes
  visit the filled slots in slot order.

`main.js` validates nothing:
- an out-of-range texture index is not rejected: the map becomes undefined
  (`None`) and the colour white;
- the colour value is not checked;
- the label table has no entry for carpet 4;
- the resize pass adds no zero-size skip (the model computes no aspect
  ratio, only which slots the pass visits).

The home carpet and the four product viewers are separate state in
`main.js`, and the model keeps them apart: `HomePage` for the one, `Gallery`
for the others.

## Model

| member | source | states |
|---|---|---|
| Palette.PaletteEntry | main.js:89 | the lookup gives a texture exactly for indices 1..4, namely palette entry index - 1; any other index gives None (undefined), with no rejection |
| Palette.PaletteEntryInjective | main.js:9-14 | the four palette entries are distinct, so a found texture determines its index |
| Palette.ProductTexture | main.js:172-173 | viewer i gets palette entry i - 1 when it exists and entry 0 otherwise; the result is always a palette texture |
| Labels.TextureLabel | main.js:96-108 | indices 1, 2 and 3 give exactly the three carpet texts (dimensions and material); the label is "Unknown Carpet" if and only if the index is not 1, 2 or 3 |
| Labels.TextureLabelInjective | main.js:97-105 | carpets 1, 2 and 3 have pairwise different labels |
| Materials.FreshMaterial | main.js:68-71 | a new material has the given map, colour white and is not dirty (also main.js:192-195) |
| Materials.Repaint | main.js:89-91 | a texture choice sets the map to the palette lookup and the colour to white, for every index, and a flat colour clears the map and sets the colour; either way the material is dirty and a map comes with white (the colour rewrite is main.js:115-117) |
| Materials.SelectionRewritesOnlyPaintable | main.js:88-92 | a selection leaves every node that is not a mesh with a material unchanged, and leaves every such mesh with a dirty material (the same guard is main.js:114) |
| Materials.Visit | main.js:67-72 | a callback keeps the mesh flag, never touches a non-mesh, gives a mesh a fresh material on load, and rewrites only a mesh that has a material on a selection (the other callback bodies are main.js:88-92, 114-118 and 191-196) |
| Materials.TraverseAll | main.js:66-73 | traversal keeps the node count and applies the callback to every node at its own position (it stands equally for the traversals at main.js:87-93, 113-119 and 190-197) |
| Materials.Traverse | main.js:87-93 | the in-place loop leaves the node array equal to TraverseAll of its old contents |
| Materials.TextureApplied | main.js:87-93 | after a texture selection every mesh with a material has map = lookup(index), colour white and needsUpdate; every other node is unchanged |
| Materials.ColorApplied | main.js:113-119 | after a colour selection every mesh with a material has no map, colour c and needsUpdate; every other node is unchanged |
| Materials.AttachApplied | main.js:190-197 | the load callback gives every mesh a fresh material (map t, white, not dirty), leaves other nodes alone, and every mesh then has a material |
| Materials.LastSelectionWins | main.js:87-119 | a selection applied after another gives the same nodes as the second alone |
| Materials.SelectionIdempotent | main.js:87-119 | applying the same texture or colour selection twice equals applying it once |
| Materials.AttachEstablishesMapImpliesWhite | main.js:66-73 | after load every mesh material that has a map is white |
| Materials.SelectionPreservesMapImpliesWhite | main.js:87-119 | neither selection produces a map together with a non-white colour |
| Materials.AttachDresses | main.js:190-197 | after a product load every mesh carries the viewer's texture on a fresh white material |
| HomeView.HomePage.constructor | main.js:20 | the carpet starts as null and the details element is as given |
| HomeView.HomePage.OnCarpetLoaded | main.js:53-73 | the loaded object becomes singleCarpet, every mesh gets carpet 1's texture on a white material, and the invariant holds |
| HomeView.HomePage.ChangeTexture | main.js:85-109 | before load nothing changes; after load the materials become TraverseAll with the texture selection and the label is written only if the element exists |
| HomeView.HomePage.ChangeColor | main.js:111-124 | before load nothing changes; after load the materials become TraverseAll with the colour and the red-carpet label is written only if the element exists |
| ProductsView.NewViewer | main.js:208-214 | a new viewer carries its number, the product texture of main.js:173 (palette entry i - 1 for i in 1..4) and no model |
| ProductsView.Gallery.constructor | main.js:129 | all four slots start empty |
| ProductsView.Gallery.CreateViewer | main.js:138-214 | with no canvas nothing changes; otherwise slot i - 1 holds viewer i with its product texture and no model; other slots are untouched |
| ProductsView.Gallery.InitProductsScene | main.js:131-136 | after i = 1..4 each slot holds a new viewer exactly where its canvas exists and is otherwise unchanged |
| ProductsView.Gallery.OnModelLoaded | main.js:178-200 | viewer i's object gets its texture on every mesh and becomes its model; no other slot changes |
| ProductsView.Gallery.RenderOrder | main.js:253-257 | a frame visits exactly the filled slots, each once, in increasing slot order |
| ProductsView.Gallery.ResizeOrder | main.js:274-281 | resizing visits exactly the filled slots whose canvas exists, in increasing slot order (showProducts at main.js:230-237 walks the same slots) |

## Left out

- Rendering, scenes, lights, cameras, orbit controls and the red test cube
  are three.js internals. The model does not include them.
- OBJ parsing and texture fetching are asynchronous foreign loaders. Only
  their success callbacks are modelled, as `OnCarpetLoaded` and
  `OnModelLoaded`. A failed load only logs, so `singleCarpet` or the slot's
  model stays null.
- Bounding-box centring and scaling use floating-point vector arithmetic and
  are not modelled.
- Aspect-ratio and renderer-size updates are float division of DOM sizes.
  Only which slots the resize passes visit is modelled.
- `requestAnimationFrame` scheduling and the home view's render step are
  host plumbing. For the products page, only the rule that empty slots are
  skipped is kept.
- `showHome`/`showProducts` display toggling, the add-to-cart alert and
  console logging are UI glue.
- `needsUpdate` is modelled as a boolean flag. The three.js setter turns it
  into a version bump, which two equal selections would advance twice.
- `index` is modelled as an integer. JavaScript coercion of a non-number
  argument is not modelled. Such an argument could find a palette entry
  while the strict `switch` still says "Unknown Carpet".
- `Color` is the parsed 24-bit value. Parsing CSS colour strings in
  `Color.set` is not modelled.
- OnModelLoaded: the slot stores a value copy of the loaded object, not a
  reference. Nothing mutates a product object after its load callback, so
  no behaviour is lost. Sharing between material objects of different
  meshes is not modelled either: each mesh gets its own fresh material at
  load.
