/**
 * The displayed image as the picker sees it: a width x height grid of RGB triples, row by
 * row, and the pixel lookup `image.getpixel((x, y))` with x the column and y the row.
 */
module Raster {
  import opened Optional
  import opened HexColor

  datatype Image = Image(width: nat, height: nat, rows: seq<seq<Rgb>>)

  /** There are `height` rows and each of them holds `width` pixels. */
  predicate WellFormed(img: Image) {
    |img.rows| == img.height && forall j :: 0 <= j < |img.rows| ==> |img.rows[j]| == img.width
  }

  /** A decoded image: always a full grid. */
  type Grid = img: Image | WellFormed(img) witness Image(0, 0, [])

  /** The test of `update_color_preview`: `0 <= x < width and 0 <= y < height`. */
  predicate InBounds(img: Image, x: int, y: int) {
    0 <= x < img.width && 0 <= y < img.height
  }

  /**
   * The index `getpixel` actually reads for a coordinate `i` on an axis of length `n`:
   * a negative coordinate counts back from the far edge, as in a Python sequence.
   */
  function WrapIndex(i: int, n: nat): int {
    if i < 0 then i + n else i
  }

  /** The coordinates `getpixel` accepts: `-width <= x < width`, `-height <= y < height`. */
  predicate InPixelRange(img: Image, x: int, y: int) {
    0 - img.width <= x < img.width && 0 - img.height <= y < img.height
  }

  /**
   * `getpixel((x, y))`: a negative coordinate is first moved to the far edge by adding
   * the width (or height); the point that results must lie inside the grid, otherwise the
   * lookup raises (None here). Inside the grid it is the pixel in column x of row y.
   */
  function GetPixel(img: Grid, x: int, y: int): (p: Option<Rgb>)
    ensures p.Some? <==> InPixelRange(img, x, y)
    ensures InBounds(img, x, y) ==> p == Some(img.rows[y][x])
    ensures p.Some? ==> InBounds(img, WrapIndex(x, img.width), WrapIndex(y, img.height))
  {
    var col := WrapIndex(x, img.width);
    var row := WrapIndex(y, img.height);
    if InBounds(img, col, row) then Some(img.rows[row][col]) else None
  }

  /**
   * A negative coordinate reads the same pixel as the coordinate one width (or height)
   * further on: a lookup just left of or above the grid reads from its far edge.
   */
  lemma GetPixelWraps(img: Grid, x: int, y: int)
    requires InPixelRange(img, x, y)
    ensures GetPixel(img, x, y) == GetPixel(img, WrapIndex(x, img.width), WrapIndex(y, img.height))
    ensures GetPixel(img, x, y) == Some(img.rows[WrapIndex(y, img.height)][WrapIndex(x, img.width)])
  {
  }
}
