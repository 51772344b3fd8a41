/**
 * `ColorPickerApp` with its widgets reduced to the fields its handlers change. Every
 * handler updates the fields step by step in the order the application does, and states
 * its effect as the corresponding function of `PipetteSpec` applied to the state before
 * the call; the properties of the handlers are proved about those functions.
 */
module ColorPicker {
  import opened Optional
  import opened HexColor
  import opened Raster
  import opened Magnifier
  import opened PipetteSpec

  class ColorPickerApp {
    var imagePath: string
    var image: Option<Grid>
    var pipetteActive: bool
    var colorPreview: Option<Indicator>
    var zoomPreview: Option<ZoomOverlay>
    var selectedLabel: string
    var selectedSwatch: Option<string>
    var clipboard: string
    var paletteSwatches: seq<string>

    /** The fields as one value. */
    function State(): AppState
      reads this
    {
      AppState(imagePath, image, pipetteActive, colorPreview, zoomPreview,
               selectedLabel, selectedSwatch, clipboard, paletteSwatches)
    }

    ghost predicate Valid()
      reads this
    {
      Inv(State())
    }

    /** Builds the window: unarmed, no overlay, no image; the clipboard is left as it is. */
    constructor (clipboardAtStart: string)
      ensures Valid()
      ensures State() == Initial(clipboardAtStart)
    {
      pipetteActive := false;
      colorPreview := None;
      zoomPreview := None;
      selectedLabel := "";
      selectedSwatch := None;
      clipboard := clipboardAtStart;
      paletteSwatches := [];
      imagePath := "";
      image := None;
    }

    /**
     * Loads the file at `path` ("" when the dialog was cancelled). `decoded` is the
     * decoded and thumbnailed image, None when decoding raised; `palette` is the
     * quantizer's answer for the file, None when it raised.
     */
    method LoadImage(path: string, decoded: Option<Grid>, palette: Option<seq<Rgb>>)
      returns (fault: Option<Fault>)
      requires Valid()
      modifies this
      ensures Valid()
      ensures Step(State(), fault) == PipetteSpec.LoadImage(old(State()), path, decoded, palette)
    {
      fault := None;
      if path != "" {
        imagePath := path;
        if decoded.None? {
          fault := Some(DecodeFailed);
          return;
        }
        image := decoded;
        fault := ShowPalette(palette);
      }
    }

    /** Arms the pipette, provided an image is loaded. */
    method ActivatePipette()
      requires Valid()
      modifies this
      ensures Valid()
      ensures State() == PipetteSpec.ActivatePipette(old(State()))
    {
      if image.Some? {
        pipetteActive := true;
      }
    }

    /** Handles pointer motion to (x, y) over the image canvas. */
    method UpdateColorPreview(x: int, y: int)
      requires Valid()
      modifies this
      ensures Valid()
      ensures State() == PipetteSpec.UpdateColorPreview(old(State()), x, y)
    {
      if pipetteActive && image.Some? {
        var img := image.value;
        if 0 <= x < img.width && 0 <= y < img.height {
          var hex := ToHex(img.rows[y][x]);

          if colorPreview.None? {
            colorPreview := Some(Indicator(x + 15, y - 15, x + 45, y + 15, hex));
          } else {
            colorPreview := Some(colorPreview.value.(x0 := x + 15, y0 := y - 15, x1 := x + 45, y1 := y + 15));
            colorPreview := Some(colorPreview.value.(fill := hex));
          }

          var view := ZoomedImage(x, y, ZoomFactor);
          if zoomPreview.None? {
            zoomPreview := Some(ZoomOverlay(x + 20, y + 20, view));
          } else {
            zoomPreview := Some(zoomPreview.value.(left := x + 20, top := y + 20));
          }
          zoomPreview := Some(zoomPreview.value.(view := view));
        }
      }
    }

    /** Handles a click at (x, y) on the image canvas; an out-of-range pixel lookup raises. */
    method GetColorFromImage(x: int, y: int) returns (fault: Option<Fault>)
      requires Valid()
      modifies this
      ensures Valid()
      ensures Step(State(), fault) == PipetteSpec.GetColorFromImage(old(State()), x, y)
    {
      fault := None;
      if pipetteActive {
        if image.Some? {
          var pixel := GetPixel(image.value, x, y);
          if pixel.None? {
            fault := Some(OutOfBounds);
            return;
          }
          var hex := ToHex(pixel.value);
          selectedLabel := hex;
          selectedSwatch := Some(hex);
          clipboard := "";
          clipboard := clipboard + hex;
          assert clipboard == hex;
          pipetteActive := false;
          if colorPreview.Some? {
            colorPreview := None;
          }
          if zoomPreview.Some? {
            zoomPreview := None;
          }
          assert State() == Publish(old(State()), hex).(pipetteActive := false, colorPreview := None, zoomPreview := None);
        }
      }
    }

    /**
     * Rebuilds the palette panel from the quantizer's answer (None when it raised):
     * destroys every existing swatch, then adds one per colour, in order.
     */
    method ShowPalette(palette: Option<seq<Rgb>>) returns (fault: Option<Fault>)
      requires Valid()
      modifies this
      ensures Valid()
      ensures Step(State(), fault) == PipetteSpec.ShowPalette(old(State()), palette)
    {
      fault := None;
      if imagePath != "" {
        if palette.None? {
          fault := Some(PaletteFailed);
          return;
        }
        DestroySwatches();
        AddSwatches(palette.value);
      }
    }

    /** Destroys the palette buttons one by one. */
    method DestroySwatches()
      modifies this
      ensures State() == old(State()).(paletteSwatches := [])
    {
      while paletteSwatches != []
        invariant State() == old(State()).(paletteSwatches := paletteSwatches)
        decreases |paletteSwatches|
      {
        paletteSwatches := paletteSwatches[1..];
      }
    }

    /** Adds one palette button per colour, in order, to an empty panel. */
    method AddSwatches(colors: seq<Rgb>)
      requires paletteSwatches == []
      modifies this
      ensures State() == old(State()).(paletteSwatches := PaletteSwatches(colors))
    {
      var i := 0;
      while i < |colors|
        invariant 0 <= i <= |colors|
        invariant |paletteSwatches| == i
        invariant forall k :: 0 <= k < i ==> paletteSwatches[k] == ToHex(colors[k])
        invariant State() == old(State()).(paletteSwatches := paletteSwatches)
      {
        paletteSwatches := paletteSwatches + [ToHex(colors[i])];
        i := i + 1;
      }
    }

    /** Publishes a palette colour's text to label, swatch and clipboard. */
    method SelectPaletteColor(color: string)
      requires Valid()
      modifies this
      ensures Valid()
      ensures State() == PipetteSpec.SelectPaletteColor(old(State()), color)
    {
      selectedLabel := color;
      selectedSwatch := Some(color);
      clipboard := "";
      clipboard := clipboard + color;
    }

    /** A press on the i-th palette button: it selects the colour it was built with. */
    method PressPaletteButton(i: nat)
      requires Valid()
      modifies this
      ensures Valid()
      ensures State() == PipetteSpec.PressPaletteButton(old(State()), i)
    {
      if i < |paletteSwatches| {
        SelectPaletteColor(paletteSwatches[i]);
      }
    }
  }
}
