# PyColorPicker, colour sampling and palette model

PyColorPicker is a small desktop tool. You load an image, arm a pipette, and move the pointer over the picture. A small indicator dot and a magnifier with a crosshair follow the pointer. A click copies the pixel's colour as `#rrggbb` to a label, a swatch and the clipboard. A panel of palette buttons, computed from the file, lets you copy one of its colours the same way.

This project models the logic that sits under that interface:

- `HexColor` models the colour text `'#%02x%02x%02x' % rgb`. It also gives the inverse reading of such a string and proves that the two form a bijection.
- `Raster` models the displayed image as a grid of RGB triples, and the pixel lookup. As in Pillow, the lookup reads a negative coordinate from the far edge and fails for any point it cannot place inside the grid.
- `Magnifier` models the geometry of `get_zoomed_image`: the crop box, the output size and the two crosshair lines.
- `PipetteSpec` models the state of `ColorPickerApp` as a value, with one function per event handler. Widgets are reduced to values: an overlay is present or absent with its coordinates, the clipboard is a string, and the palette panel is a list of colour strings. It also proves the state invariant over any sequence of events, plus each handler's guard, effects and frame. Besides the window's own events, it has one event, `ClipboardOverwritten`, for another program replacing the clipboard's content.
- `ColorPicker` defines the class `ColorPickerApp`. It holds the same fields as the application, and each handler is a method that changes them step by step. Each method's postcondition equates the new state with the `PipetteSpec` function applied to the old state.

A handler that raises an exception is modelled by a `Fault` in its result. The cases are a file that does not decode, a quantizer that fails, and a pixel lookup outside the image. The toolkit reports the exception and keeps running, so the state is whatever the handler had changed before it raised. The click handler checks no bounds before its pixel lookup, while the motion handler does. An armed click at a point the lookup cannot read therefore yields `OutOfBounds` and leaves the state unchanged. An armed click just left of or above the image reads a pixel from the opposite edge instead. Such coordinates reach the canvas while a mouse button pressed on it is held and the pointer has left it. `ClickLacksBoundsCheck` contrasts both outcomes with the motion handler, which silently ignores every position outside the image.

## Model

| member | source | states |
|---|---|---|
| `HexColor.Hex2` | py_color_picker.py:76 | `%02x` of a channel is exactly two lower-case hex digits whose value is the channel |
| `HexColor.ToHex` | py_color_picker.py:76 | the text is `#` followed by six lower-case hex digits, whose pairs denote red, green and blue in that order |
| `HexColor.ParseToHex` | py_color_picker.py:121 | reading a colour's text back gives the same triple |
| `HexColor.ToHexOfParse` | py_color_picker.py:141 | a string that reads as a colour is exactly that colour's text, so every well-formed string is produced and has no second spelling |
| `HexColor.ToHexInjective` | py_color_picker.py:76 | different triples never share a text |
| `Raster.GetPixel` | py_color_picker.py:120 | the lookup succeeds exactly inside `-width <= x < width`, `-height <= y < height`; inside the grid it yields the pixel in column x of row y, and a negative coordinate is read one width or height further on, which lands inside the grid |
| `Raster.GetPixelWraps` | py_color_picker.py:120 | a lookup at a negative coordinate reads the same pixel as the lookup at that coordinate plus the width (or height) |
| `Magnifier.ZoomedImage` | py_color_picker.py:97-112 | the crop square has side 20 and is centred on the pointer; the output is `50*zoom_factor` square; the vertical and horizontal lines pass through its exact centre and span it |
| `Magnifier.DefaultZoomedImage` | py_color_picker.py:97-112 | with zoom factor 3 the crop is (x-10, y-10, x+10, y+10), the output is 150x150 and both lines lie at 75 and span 0..150 |
| `PipetteSpec.Initial` | py_color_picker.py:14-55 | the start state is unarmed, with no path, no image, no overlay, an empty label, no swatch colour and no palette buttons; it keeps the prior clipboard and satisfies the session invariant |
| `PipetteSpec.IndicatorAt` | py_color_picker.py:79-84 | the indicator is a 30x30 box to the right of the pointer, vertically centred on it, and filled with the given colour |
| `PipetteSpec.ZoomOverlayAt` | py_color_picker.py:87-95 | the magnifier sits below and to the right of the pointer and shows the zoomed view around it |
| `PipetteSpec.Publish` | py_color_picker.py:122-125 | label, swatch and clipboard all become the colour and every other field is kept; label and swatch then agree; the pipette invariant is kept, and so is the hex-only invariant when the colour is `#rrggbb` text |
| `PipetteSpec.ActivatePipette` | py_color_picker.py:67-69 | arming keeps the invariant |
| `PipetteSpec.ActivatePipetteSpec` | py_color_picker.py:67-69 | the flag is set exactly when an image is loaded; nothing else changes; with no image the state is unchanged; arming twice equals arming once |
| `PipetteSpec.UpdateColorPreview` | py_color_picker.py:71-95 | pointer motion keeps the invariant |
| `PipetteSpec.MotionIgnored` | py_color_picker.py:72-74 | motion while unarmed, without an image, or outside the image leaves the whole state unchanged |
| `PipetteSpec.MotionPreview` | py_color_picker.py:74-91 | armed in-bounds motion puts the indicator at (x+15, y-15, x+45, y+15) filled with the pixel's hex and the magnifier at (x+20, y+20); everything else, including selection and clipboard, is unchanged |
| `PipetteSpec.GetColorFromImage` | py_color_picker.py:116-132 | a click keeps the invariant |
| `PipetteSpec.ClickWhileIdle` | py_color_picker.py:117 | a click while unarmed changes nothing and raises nothing |
| `PipetteSpec.ClickPicks` | py_color_picker.py:119-132 | an armed in-bounds click sets label, swatch and clipboard to the pixel's hex, disarms, and removes both overlays; image, path and palette are kept; the clipboard text reads back as the pixel |
| `PipetteSpec.ClickOutOfBounds` | py_color_picker.py:120 | an armed click at a point the lookup cannot read (outside `-width <= x < width`, `-height <= y < height`) raises `OutOfBounds` and leaves the state unchanged, so the pipette stays armed |
| `PipetteSpec.ClickWrapsAround` | py_color_picker.py:119-125 | an armed click left of or above the image, within one width or height, raises nothing and publishes the pixel at the opposite edge, exactly as a click on that pixel would |
| `PipetteSpec.ClickLacksBoundsCheck` | py_color_picker.py:72-120 | at every position outside the image, while armed, motion is silently ignored, but a click raises exactly where the lookup cannot read the point and otherwise picks a colour and disarms |
| `PipetteSpec.PickMatchesPreview` | py_color_picker.py:74-125 | after motion to (x, y), a click at (x, y) copies exactly the indicator's fill |
| `PipetteSpec.PaletteSwatches` | py_color_picker.py:140-143 | there is one swatch per palette colour, in palette order, each carrying that colour's hex |
| `PipetteSpec.ShowPalette` | py_color_picker.py:134-143 | showing the palette keeps the invariant |
| `PipetteSpec.ShowPaletteReplaces` | py_color_picker.py:138-143 | once a file was chosen, every old swatch is replaced by one per palette colour whose text reads back as that colour; nothing else changes |
| `PipetteSpec.LoadImage` | py_color_picker.py:57-65 | loading keeps the invariant |
| `PipetteSpec.LoadImageSpec` | py_color_picker.py:59-65 | a successful load sets path, image and palette and raises nothing; every other field (pipette flag, overlays, label, swatch, clipboard) is unchanged |
| `PipetteSpec.LoadImageFaults` | py_color_picker.py:58-61 | a cancelled dialog changes nothing; a decode failure changes only the path; a palette failure keeps the old swatches beside the new image |
| `PipetteSpec.SelectPaletteColor` | py_color_picker.py:145-149 | choosing a palette colour keeps the structural invariant, and keeps the session invariant when the text is `#rrggbb` |
| `PipetteSpec.PressPaletteButton` | py_color_picker.py:142 | a press on a button of the current panel sets label, swatch and clipboard to that button's text; the panel itself is unchanged; it keeps both invariants |
| `PipetteSpec.MissingPaletteButton` | py_color_picker.py:138-142 | a press at an index the panel does not hold changes nothing, since only the current panel's buttons exist |
| `PipetteSpec.SelectPaletteColorSpec` | py_color_picker.py:145-149 | label, swatch and clipboard become exactly the given text; every other field (pipette flag, overlays, path, image, palette) is unchanged |
| `PipetteSpec.PaletteButtonPublishesColor` | py_color_picker.py:140-142 | after the palette is shown, pressing the i-th button sets label and clipboard to the hex of the i-th palette colour, which reads back as that colour |
| `PipetteSpec.Apply` | py_color_picker.py:23-47 | dispatching any event keeps both the structural and the session invariant; the events are the load and pick buttons, canvas motion and click, the palette buttons bound at line 142, and an outside clipboard write |
| `PipetteSpec.RunPreservesInv` | py_color_picker.py:14-16 | every sequence of events keeps the session invariant: armed implies an image, the two overlays are present together, either overlay implies armed, label and swatch agree once set, and every palette button and every selected colour is `#rrggbb` text |
| `PipetteSpec.ReachableInv` | py_color_picker.py:14-16 | every state reachable from start-up satisfies the session invariant, so label and swatch only ever show `#rrggbb` text |
| `ColorPicker.ColorPickerApp.constructor` | py_color_picker.py:14-16 | the fields start in the initial state |
| `ColorPicker.ColorPickerApp.LoadImage` | py_color_picker.py:57-65 | the new fields and the fault are those of `PipetteSpec.LoadImage` on the old fields |
| `ColorPicker.ColorPickerApp.ActivatePipette` | py_color_picker.py:67-69 | the new fields are `PipetteSpec.ActivatePipette` of the old |
| `ColorPicker.ColorPickerApp.UpdateColorPreview` | py_color_picker.py:71-95 | creating or moving the overlays step by step gives `PipetteSpec.UpdateColorPreview` of the old fields |
| `ColorPicker.ColorPickerApp.GetColorFromImage` | py_color_picker.py:116-132 | the new fields and the fault are those of `PipetteSpec.GetColorFromImage`, including clipboard clear then append |
| `ColorPicker.ColorPickerApp.ShowPalette` | py_color_picker.py:134-143 | the loop that destroys every old swatch, then the loop that appends one swatch per colour, give `PipetteSpec.ShowPalette` of the old fields |
| `ColorPicker.ColorPickerApp.DestroySwatches` | py_color_picker.py:138-139 | after destroying the buttons one by one, the panel is empty and no other field has changed |
| `ColorPicker.ColorPickerApp.AddSwatches` | py_color_picker.py:140-143 | appending one button per colour gives exactly one swatch per colour in order, each that colour's hex; no other field changes |
| `ColorPicker.ColorPickerApp.SelectPaletteColor` | py_color_picker.py:145-149 | the new fields are `PipetteSpec.SelectPaletteColor` of the old |
| `ColorPicker.ColorPickerApp.PressPaletteButton` | py_color_picker.py:142 | the new fields are `PipetteSpec.PressPaletteButton` of the old: the i-th button selects the colour text it was built with |

## Left out

- Window, frame, button and canvas construction, the appearance settings and the main loop (py_color_picker.py:7-52, 151-154). These are interface plumbing; only the event bindings appear, as `PipetteSpec.Event`.
- The file dialog (py_color_picker.py:58) is I/O. `LoadImage` receives the chosen path, with "" standing for a cancelled dialog.
- Image decoding, `convert("RGB")` and `thumbnail((400, 400))` (py_color_picker.py:61-62) are library calls. `LoadImage` receives their result as an already decoded grid, or None when decoding raised. The 400-pixel bound and the thumbnail's rounding are not modelled.
- Displaying the image and the magnifier's picture (`PhotoImage`, `create_image`, py_color_picker.py:63-64, 94-95) is not modelled.
- Pillow's `crop`, its nearest-neighbour `resize` and the crosshair drawing (py_color_picker.py:100-112) are not modelled. Only the box, the size and the line coordinates the code computes are kept.
- Colour quantization (`ColorThief.get_palette`, py_color_picker.py:136-137) is a library algorithm. Its answer is an input: a list of triples, or None when it raised. The model places no condition on the list's length.
- The OS clipboard is one string field. `clipboard_clear` followed by `clipboard_append` overwrites it. Another program may overwrite it at any time; this is the event `ClipboardOverwritten`. For that reason the invariant does not claim that the clipboard matches the label. The clipboard's content is stated per publish, in `ClickPicks` and `SelectPaletteColorSpec`.
- Rendering details: the indicator's black outline and width, the swatch's `"  "` text, and the button sizes and padding.
- The pixel format is fixed at 8-bit RGB triples, which is what `convert("RGB")` produces. `rgb_color[:3]` is therefore the whole pixel.
