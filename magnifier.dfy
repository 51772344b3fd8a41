/**
 * The geometry of `get_zoomed_image`: the square cut out around the pointer, the size the
 * cut-out is resized to, and the two crosshair lines drawn over the result. The pixels
 * themselves (crop, nearest-neighbour resize, drawing) are not modelled.
 */
module Magnifier {
  /** Half the side of the crop square (`box_size`). */
  const BoxSize := 10
  /** The side of the magnified view before the zoom factor is applied. */
  const BaseSize := 50
  /** The default `zoom_factor`, the only one the application uses. */
  const ZoomFactor := 3

  /** A rectangle given as (left, top, right, bottom), as Pillow's `crop` takes it. */
  datatype Box = Box(left: int, top: int, right: int, bottom: int)

  /** A line from (x0, y0) to (x1, y1), as `ImageDraw.line` takes it. */
  datatype Segment = Segment(x0: int, y0: int, x1: int, y1: int)

  /** What `get_zoomed_image` computes: the crop box, the output size and the crosshair. */
  datatype ZoomView = ZoomView(crop: Box, width: int, height: int, vertical: Segment, horizontal: Segment)

  /**
   * The magnified view around (x, y): a crop square of side 2 * BoxSize centred on the
   * pointer, an output square of side BaseSize * zoomFactor, and a vertical and a
   * horizontal line through the exact centre of the output, each spanning it fully.
   */
  function ZoomedImage(x: int, y: int, zoomFactor: int): (v: ZoomView)
    ensures v.crop.right - v.crop.left == 2 * BoxSize && v.crop.bottom - v.crop.top == 2 * BoxSize
    ensures v.crop.left + v.crop.right == 2 * x && v.crop.top + v.crop.bottom == 2 * y
    ensures v.width == v.height == BaseSize * zoomFactor
    ensures v.vertical.x0 == v.vertical.x1 && 2 * v.vertical.x0 == v.width
    ensures v.vertical.y0 == 0 && v.vertical.y1 == v.height
    ensures v.horizontal.y0 == v.horizontal.y1 && 2 * v.horizontal.y0 == v.height
    ensures v.horizontal.x0 == 0 && v.horizontal.x1 == v.width
  {
    var box := Box(x - BoxSize, y - BoxSize, x + BoxSize, y + BoxSize);
    var size := BaseSize * zoomFactor;
    var center := (BaseSize / 2 * zoomFactor, BaseSize / 2 * zoomFactor);
    ZoomView(box, size, size,
             Segment(center.0, 0, center.0, size),
             Segment(0, center.1, size, center.1))
  }

  /**
   * With the default zoom factor the pointer's crop is (x-10, y-10, x+10, y+10), the
   * output is 150 x 150 and both crosshair lines lie at 75, spanning 0..150.
   */
  lemma DefaultZoomedImage(x: int, y: int)
    ensures ZoomedImage(x, y, ZoomFactor).crop == Box(x - 10, y - 10, x + 10, y + 10)
    ensures ZoomedImage(x, y, ZoomFactor).width == 150 && ZoomedImage(x, y, ZoomFactor).height == 150
    ensures ZoomedImage(x, y, ZoomFactor).vertical == Segment(75, 0, 75, 150)
    ensures ZoomedImage(x, y, ZoomFactor).horizontal == Segment(0, 75, 150, 75)
  {
  }
}
