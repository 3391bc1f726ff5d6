# Spot overlay scene and page logic, modelled in Dafny

This project models two parts of a browser application that shows measurement
spots over an image.

**The 2D overlay scene** (`js/Scene2D.js`) keeps:
- a spot store (position, radius, name and optional intensity per spot);
- a base image URL with its width and height;
- the display parameters: spot border, font size, font colour and colour map;
- the views bound to it.

Each view lends the scene a content element. The scene builds four layers into that element, in order:
- the image;
- the definitions (one radial gradient per spot);
- the spots group (one ellipse per spot);
- the labels group (one text per spot).

After that, every change to the scene is fanned out to every bound view, in one of two ways:
- a structural rebuild of the three spot layers, when a new spot set is assigned;
- an in-place edit of one layer: the image, the gradient colours, or the label style.

**The page logic** (`js/main.js`) covers:
- which loader a dropped or chosen file goes to;
- the drag-and-drop counter that shows the drop indicator;
- the keyboard shortcut gate and shortcut table.

## Modules

- `Options` (`options.dfy`): the `Option` datatype.
- `Decimal` (`decimal.dfy`): `Number#toString` for the spot indices and key codes used here (integers below 10^21, printed without exponent). Its parse round trip gives injectivity, used for gradient ids and key-code strings.
- `Overlay` (`overlay.dfy`): the value-level specification of rendering.
  - Spots, gradients, ellipses, labels and layers.
  - `querySelector` as `Find`, the first child of a kind.
  - The recolour pass, and the edits each setter applies to one layer.
  - The scene state, and the predicate `Shows(children, state)`: a view displays exactly what a fresh build from that state would.
- `Scene` (`scene.dfy`): the imperative model.
  - `Scene2D` is a class with the source's fields. Its methods update those fields and the children of each view's `ContentElement` in place.
  - `View` counts its `adjustOffset()` calls.
  - `SpotRecord` is a caller-owned mutable spot object.
  - Every setter's contract states its new scene state, the new children of every view, and that `Shows` is preserved.
- `MainPage` (`main.dfy`):
  - the suffix dispatch of `findFileHandlers`;
  - the `DragAndDrop` counter, as a step function plus a class;
  - the `onKeyPress` modifier gate;
  - the `KEYBOARD_SHORTCUTS` table and its initialisation.

Four behaviours of the code the model keeps:
- **Temporary export URL.** The overlay export releases its temporary URL with a direct `URL.revokeObjectURL` call; it does not go through `setImage`. `ExportSpots` logs that URL in `revoked`.
- **Only one view.** The view setter replaces the view list with a one-element list, so a scene never has two views at once. The model keeps a list of views, with distinct content elements, as the methods' loops do. `Overlay.ShowingViewsAgree` states what two views showing the same state have in common.
- **Size without an image.** `setImage` stores the width and height whatever the URL. After `setImage(null, 5, 5)` or `setImage('', 5, 5)` the scene has no image (`hasImage` is false) but a 5 × 5 size, and the overlay export passes its size gate. The rule "the size is 0 × 0 when there is no image" is established by the constructor and by `resetImage`. Every other operation keeps it, except `setImage` with a falsy URL and a non-zero size. `Scene.SizeWithoutImage` shows the exception.
- **Re-binding appends.** The view setter appends four fresh layers. It never clears what the element already held. A view whose element already held scene layers therefore keeps answering lookups with its old layers, because `querySelector` finds the first match. So "every view shows the state" (`Scene2D.Synced`) is an invariant only from a bare element onward. `SetView` establishes it under `Bare`; every other operation preserves it.

## Model

| member | source | states |
|---|---|---|
| `Overlay.Find` | js/Scene2D.js:132-134 | a lookup returns the position of a child of the requested kind, or fails |
| `Overlay.FindFirst` | js/Scene2D.js:132-134 | the lookup's answer is the first child of its kind, and it fails only when no child has that kind |
| `Overlay.FindIs` | js/Scene2D.js:132-134 | the first child of a kind is exactly what the lookup answers |
| `Overlay.FindAppendFound` | js/Scene2D.js:14-17 | appending layers never changes a lookup that already succeeded (the re-bind quirk) |
| `Overlay.FindAppendNew` | js/Scene2D.js:68-86 | on an element holding no layer of a kind, the lookup after the build finds the appended one |
| `Overlay.Clamp` | js/Scene2D.js:102-103 | the clamped border lies in [0, 1]; it is 0 below the range, 1 above it, and the value itself inside |
| `Overlay.RecolorKeepsStructure` | js/Scene2D.js:266-293 | recolouring keeps the number of gradients, their ids, geometry and stop offsets; only stop colours and opacities change |
| `Overlay.RecolorWithData` | js/Scene2D.js:277-282 | a spot with an intensity colours both stops with the mapped colour; the inner stop is opaque and the outer one has the border's opacity |
| `Overlay.NoDataIsTransparent` | js/Scene2D.js:283-286 | a missing spot or a NaN intensity clears both stops to no colour and opacity 0, whatever the colour map and border |
| `Overlay.RecolorOverwrites` | js/Scene2D.js:271-287 | a recolour overwrites everything an earlier recolour wrote: the result depends only on the latest spots, map and border |
| `Overlay.RecolorIdempotent` | js/Scene2D.js:271-287 | recolouring twice with unchanged inputs equals recolouring once |
| `Overlay.BorderMonotone` | js/Scene2D.js:281-282 | a larger border never lowers the outer stop's opacity, which stays within [0, 1]; the inner stop stays opaque |
| `Overlay.GradientIdInjective` | js/Scene2D.js:311 | the ids "spot" + i are pairwise different |
| `Overlay.FillNamesOwnGradient` | js/Scene2D.js:322 | ellipse i's fill names gradient i and no other gradient of the same build; the three layers have one entry per spot |
| `Overlay.SpotDrawnAtItsPlace` | js/Scene2D.js:317-329 | ellipse i is centred on spot i with both radii equal to its radius; label i carries its name at (x + 5, y) |
| `Overlay.ApplyEdit` | js/Scene2D.js:60-66 | an edit of a layer never changes the layer's kind |
| `Overlay.EditLayers` | js/Scene2D.js:336-342 | an edit through a view's element keeps the number of children |
| `Overlay.EditKeepsKinds` | js/Scene2D.js:336-342 | an edit keeps the kind of every child, position by position |
| `Overlay.LayerAfterEdit` | js/Scene2D.js:175-179 | after an edit every lookup finds the same position; the first layer of the edit's kind is edited and every other layer is unchanged |
| `Overlay.EditKeepsBuilt` | js/Scene2D.js:336-342 | after any edit, all four scene layers can still be found |
| `Overlay.RebuildKeepsBuilt` | js/Scene2D.js:130-142 | after a structural rebuild, all four scene layers can still be found |
| `Overlay.ContentLayerOrder` | js/Scene2D.js:68-93 | the build appends exactly image, definitions, spots and labels, in that order; labels are visible exactly when the font size is not 0; without spots, the definitions and spots layers are empty |
| `Overlay.AppendKeepsBuilt` | js/Scene2D.js:68-86 | after a build into any element, all four layers can be found |
| `Overlay.BareBuildFinds` | js/Scene2D.js:68-86 | after a build into an element holding none of the scene's layers, each kind's lookup finds the layer just appended for it |
| `Overlay.BuildShows` | js/Scene2D.js:13-18 | binding a view whose element holds none of the scene's layers leaves it showing the current state |
| `Overlay.ShowsAfterImage` | js/Scene2D.js:38-51 | the image update keeps a view showing the state with the new URL (or '') and size |
| `Overlay.ShowsAfterRecolor` | js/Scene2D.js:258-264 | when only intensities, map or border changed, recolouring the existing definitions leaves the view exactly as a structural rebuild would |
| `Overlay.GeometryFixesShapes` | js/Scene2D.js:316-328 | two spot sets with the same positions, radii and names give the same ellipses and the same labels, whatever their intensities |
| `Overlay.ShowsAfterRebuild` | js/Scene2D.js:130-142 | emptying and refilling the three spot layers leaves the view showing the new spot set |
| `Overlay.ShowsAfterFontSize` | js/Scene2D.js:173-180 | restyling the labels keeps the view showing the state with the new font size and visibility |
| `Overlay.ShowsAfterFontColor` | js/Scene2D.js:188-194 | refilling the labels' colour keeps the view showing the state with the new font colour |
| `Overlay.ShowingViewsAgree` | js/Scene2D.js:68-93 | two views showing the same state with spots hold identical image, definitions, spots and labels layers, equal to a fresh build's |
| `Overlay.OverlayMatchesViews` | js/Scene2D.js:229-232 | the overlay export holds no image layer, and its definitions, spots and labels equal those of every view showing the state |
| `Overlay.ReintensifiedKeepsGeometry` | js/Scene2D.js:148-152 | updating intensities keeps the store's length and every position, radius and name; intensity i comes from value i, undefined past the end |
| `Decimal.ParseNatToString` | js/Scene2D.js:311 | the decimal text of a number parses back to that number |
| `Decimal.NatToStringInjective` | js/Scene2D.js:322 | two numbers have the same decimal text only when they are equal |
| `Scene.Scene2D.constructor` | js/Scene2D.js:1-10 | a new scene has no view, no image, no spots, size 0 × 0, font size 0, colour #000000 and border 0.05 |
| `Scene.Scene2D.SetView` | js/Scene2D.js:13-18 | the view list becomes exactly [v]; v's element gets the four layers from the current state appended; the state is unchanged; a bare element ends up showing the state |
| `Scene.Scene2D.SetImage` | js/Scene2D.js:38-52 | a truthy previous URL is revoked; URL and size are stored; every view's image layer is updated and its offset adjusted once; views that showed the state still do |
| `Scene.Scene2D.RefitViews` | js/Scene2D.js:47-50 | every bound view has its image layer edited and exactly one offset adjustment |
| `Scene.Scene2D.ResetImage` | js/Scene2D.js:54-58 | afterwards there is no image and the size is 0 × 0, with the same revocation as setImage; the view list is kept and every view's image layer becomes ('', 0, 0) with one offset adjustment |
| `Scene.Scene2D.BuildContent` | js/Scene2D.js:68-93 | the element's children become its old children followed by the four layers of the current state |
| `Scene.Scene2D.CreateSpots` | js/Scene2D.js:295-334 | gradient, ellipse and label i are appended for every spot i in order; then the whole definitions layer is recoloured |
| `Scene.Scene2D.UpdateSpotsGradients` | js/Scene2D.js:266-293 | gradient i of the layer is recoloured from spot i (cleared past the end of the store) |
| `Scene.Scene2D.UpdateSpots` | js/Scene2D.js:258-264 | every view's definitions layer is recoloured from the current spots |
| `Scene.Scene2D.ForContentElements` | js/Scene2D.js:336-342 | every bound view's element receives the edit, and nothing else changes |
| `Scene.Scene2D.SetSpotBorder` | js/Scene2D.js:100-106 | the same value changes nothing; any other value is clamped and stored, and with spots every view is recoloured; showing views keep showing |
| `Scene.Scene2D.SetSpots` | js/Scene2D.js:114-144 | null empties the store and touches no view; a list is stored as a field-by-field copy and every view's spot layers are rebuilt from it |
| `Scene.Scene2D.RebuildViews` | js/Scene2D.js:130-142 | every bound view's three spot layers are rebuilt from the stored spots |
| `Scene.Scene2D.RebuildElement` | js/Scene2D.js:131-141 | one element's spots, labels and definitions are emptied and refilled by a structural build |
| `Scene.Scene2D.UpdateIntensities` | js/Scene2D.js:146-155 | without spots nothing changes; otherwise intensity i is replaced by that of value i (undefined past its end) and every view is recoloured; showing views keep showing |
| `Scene.Scene2D.SetColorMap` | js/Scene2D.js:162-165 | the map is stored; with spots every view is recoloured with it; showing views keep showing |
| `Scene.Scene2D.SetFontSize` | js/Scene2D.js:173-180 | the size is stored and every view's labels take it, visible exactly when it is not 0 |
| `Scene.Scene2D.SetFontColor` | js/Scene2D.js:188-194 | the colour is stored and every view's labels are filled with it |
| `Scene.Scene2D.ExportImage` | js/Scene2D.js:197-219 | rejected without a truthy image URL or when the decode fails; otherwise the image is drawn at the scene's size |
| `Scene.Scene2D.ExportSpots` | js/Scene2D.js:221-256 | rejected at once, with nothing revoked, when width or height is 0; otherwise the current layers without the image are drawn on a successful decode, and the temporary URL is revoked on both outcomes |
| `Scene.SizeWithoutImage` | js/Scene2D.js:38-45 | after setImage with no URL and size 5 × 5 the scene has no image but that size, and the overlay export draws instead of rejecting |
| `Scene.CallerEditsDoNotReachStore` | js/Scene2D.js:116-124 | the store holds copies: changing a spot object after handing it over does not change the stored spot |
| `MainPage.LowerAscii` | js/main.js:238 | case-insensitive matching folds only A..Z onto a..z, and never yields an upper-case letter |
| `MainPage.Lower` | js/main.js:238 | case folding keeps a name's length |
| `MainPage.FindFileHandlers` | js/main.js:233-247 | the loop returns exactly the handlers of the file list, one per recognised file in input order |
| `MainPage.LastCharOfSuffix` | js/main.js:238-243 | a name ending in a suffix ends in the suffix's last letter, ignoring case |
| `MainPage.SuffixesExclusive` | js/main.js:238-244 | no name ends in two of .png, .stl and .csv, so a file yields at most one handler |
| `MainPage.LoaderForSuffix` | js/main.js:238-244 | .png selects loadImage, .stl loadMesh and .csv loadIntensities, each exactly by its own suffix; a name with none of them selects nothing |
| `MainPage.SuffixTestIgnoresCase` | js/main.js:238-242 | a suffix test gives the same answer on a name and on its lower-case form |
| `MainPage.LoaderIgnoresCase` | js/main.js:238-244 | a name and its lower-case form select the same loader |
| `MainPage.HandlersForAppend` | js/main.js:235-245 | the handlers of two lists joined are the first list's handlers followed by the second's (input order) |
| `MainPage.HandlersBound` | js/main.js:233-247 | there are never more handlers than files, and exactly as many when every file is recognised |
| `MainPage.HandlersSound` | js/main.js:235-245 | every handler binds to a file of the input the loader its suffix selects |
| `MainPage.HandlersComplete` | js/main.js:235-245 | every recognised file gets its handler |
| `MainPage.Step` | js/main.js:196-224 | every drag event keeps the drop-target attribute present exactly while the counter is at least 1 |
| `MainPage.RunAppend` | js/main.js:196-224 | processing two event sequences in turn equals processing them joined |
| `MainPage.RunKeepsConsistent` | js/main.js:196-224 | from the initial state, every event sequence keeps the attribute in step with the counter |
| `MainPage.RunCounts` | js/main.js:199-209 | without a drop, the counter moves by the number of enters minus the number of leaves |
| `MainPage.DropResets` | js/main.js:215-217 | a drop resets the counter and the attribute unconditionally, forgetting every earlier event |
| `MainPage.IndicatorShowsPendingDrag` | js/main.js:199-209 | from the initial state and without a drop, the indicator shows exactly while enters outnumber leaves |
| `MainPage.StrayLeaveHidesNextEnter` | js/main.js:199-209 | from any counter at or below -1 an enter leaves the attribute as it was; from the initial state a leave with no enter before it drives the counter to -1, so the next enter brings it to 0 and shows nothing |
| `MainPage.DragAndDrop.constructor` | js/main.js:196-197 | the counter starts at 0, with no attribute and nothing opened |
| `MainPage.DragAndDrop.OnDragEnter` | js/main.js:199-203 | the counter goes up by 1; the attribute is set when it becomes exactly 1 |
| `MainPage.DragAndDrop.OnDragLeave` | js/main.js:205-209 | the counter goes down by 1; the attribute is removed when it becomes exactly 0 |
| `MainPage.DragAndDrop.OnDrop` | js/main.js:215-231 | counter and attribute are reset, then the handlers of the dropped files run in order |
| `MainPage.GateDependsOnPlatform` | js/main.js:83-88 | a press is considered on a Mac only with Command held and neither Control nor Alt, elsewhere only with Control held and neither Alt nor Meta; no press passes both gates |
| `MainPage.ShortcutFor` | js/main.js:64-67 | after initialisation an action is bound to exactly one key code: 38 and 40 for the arrows, and 79/70/83 on WebKit or 111/102/115 otherwise for open, map selector and snapshot |
| `MainPage.KeyNames` | js/main.js:90 | the decimal text of the seven table codes is the table's keys |
| `MainPage.KeyboardShortcuts.constructor` | js/main.js:53-62 | the table starts with the two arrow keys and no listener |
| `MainPage.KeyboardShortcuts.Init` | js/main.js:64-70 | the three letter shortcuts are added under the platform's codes, giving the initialised table, and the listener is added for keydown on WebKit and keypress otherwise |
| `MainPage.KeyboardShortcuts.OnKeyPress` | js/main.js:83-97 | a press is handled exactly when it passes the platform's modifier gate and the decimal text of its which (or keyCode when which is 0) is in the table; it then runs that key's action |

## Left out

- DOM and SVG APIs are replaced by values: element creation, `querySelector`, `textContent`, `innerHTML`, attributes and `baseVal`. An element is a list of layers, and a lookup finds the first layer of a kind. Elements a view itself adds are kept as opaque `OtherElement` layers.
- The colour map's internals (`THREE.Color`, `getStyle()`) are not modelled: a colour map is a function from intensity to a colour string.
- Floating point is not modelled. Intensities, positions and sizes are `real`, and NaN or undefined is `None`. An intensity of `null` (for which `isNaN(null)` is false, so it is coloured as 0) is not distinguished from a number.
- `Scene.Scene2D.UpdateIntensities`: the argument's entries are spot objects. A `null` or `undefined` entry inside the list is not modelled; an index past the list's end is.
- `Scene.Scene2D.constructor`: it takes the initial colour map as a parameter. The source leaves `_colorMap` undefined until the setter runs, so a recolour before that throws a `TypeError` as soon as some spot has data (the colour map is only reached for such a spot); that error path is not modelled.
- `Scene.Scene2D.SetFontSize`: `Number(value)` conversion and the difference between the stored number and the raw attribute value are not modelled. The size is a number, and the labels are visible exactly when it is not 0.
- `Overlay.LabelOf`: `spot.x + 5` is numeric addition. String coordinates, which would concatenate, are not modelled.
- The spots getter returns the internal spot objects, so a caller can change the store through them; this aliasing is not modelled (the store is a value).
- Exports are not modelled beyond their gating, their drawing and their URL revocation.
  - Promises, `Image` decoding, `Blob` and SVG serialisation are replaced by a `decodes` parameter and an `ExportResult`.
  - The temporary URL `URL.createObjectURL` returns is a parameter.
  - Logging and the recolour timing are left out.
  - The log of a failed decode is left out.
- `View.adjustOffset` is counted, not modelled: the view's own geometry is not part of this model.
- `js/main.js` application shell: not part of this model.
  - `init`, `initGUI`, the status and error dialogs, `chooseFilesToOpen`, `takeSnapshot`, and the workspace loaders themselves are left out. Actions and loaders are names.
  - Listener registration for the drag events is left out, along with `preventDefault` and `stopPropagation`. `dragover` only prevents the default, and appears as the no-op event `DragOver`.
  - The browser detection `g_isWebkit` and the platform string are parameters.
