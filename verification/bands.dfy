/**
 * Reading an RGB image out of a multi-band land-use raster: the first three
 * bands are red, green and blue, each band's nodata value is replaced by
 * 0, and the pixels are visited in row-major order.
 */
module Bands {
  import opened Wrappers
  import opened Grids

  /** One pixel's colour. */
  datatype Rgb = Rgb(r: int, g: int, b: int)

  /** One band as GDAL hands it over: its values and its nodata marker, if any. */
  datatype RasterBand = RasterBand(data: Grid<int>, nodata: Option<int>)

  /** The `ValueError` for a file with fewer than three bands. */
  datatype BandError = TooFewBands

  /** `band_data[band_data == nodata] = 0` at one cell. */
  function ZeroNoData(v: int, nodata: Option<int>): (r: int)
    ensures nodata.Some? && v == nodata.value ==> r == 0
    ensures nodata.None? || v != nodata.value ==> r == v
  {
    if nodata.Some? && v == nodata.value then 0 else v
  }

  /** All bands of one raster share one shape. */
  predicate Aligned(bands: seq<RasterBand>)
  {
    forall k :: 0 <= k < |bands| ==> bands[k].data.Valid() && SameShape(bands[k].data, bands[0].data)
  }

  /** Red, green and blue of each cell of the first three bands, nodata replaced by 0. */
  function Stack(red: RasterBand, green: RasterBand, blue: RasterBand): (img: Grid<Rgb>)
    requires red.data.Valid() && green.data.Valid() && blue.data.Valid()
    requires SameShape(red.data, green.data) && SameShape(red.data, blue.data)
    ensures img.Valid() && SameShape(img, red.data)
    ensures forall i, j :: 0 <= i < img.height && 0 <= j < img.width ==>
      img.At(i, j) == Rgb(ZeroNoData(red.data.At(i, j), red.nodata),
                          ZeroNoData(green.data.At(i, j), green.nodata),
                          ZeroNoData(blue.data.At(i, j), blue.nodata))
  {
    var h, w := red.data.height, red.data.width;
    Grid(h, w, seq(h, i requires 0 <= i < h => seq(w, j requires 0 <= j < w =>
      Rgb(ZeroNoData(red.data.rows[i][j], red.nodata),
          ZeroNoData(green.data.rows[i][j], green.nodata),
          ZeroNoData(blue.data.rows[i][j], blue.nodata)))))
  }

  /**
   * The band loop shared by the colour scripts: fewer than three bands
   * raise before anything is read; otherwise bands 1 to 3 are stacked and
   * any further band is ignored.
   */
  function ReadRgb(bands: seq<RasterBand>): (r: Result<Grid<Rgb>, BandError>)
    requires Aligned(bands)
    ensures r.Failure? <==> |bands| < 3
    ensures r.Success? ==> r.value == Stack(bands[0], bands[1], bands[2])
    ensures r.Success? ==> r.value.Valid() && SameShape(r.value, bands[0].data)
  {
    if |bands| < 3 then Failure(TooFewBands) else Success(Stack(bands[0], bands[1], bands[2]))
  }

  /** `rgb_image.reshape(-1, 3)`: the pixels in row-major order. */
  function Pixels(img: Grid<Rgb>): (p: seq<Rgb>)
  {
    Flatten(img.rows)
  }

  /** There are `rows * cols` pixels, and pixel `i * cols + j` is cell `(i, j)`. */
  lemma {:induction false} PixelsRowMajor(img: Grid<Rgb>, i: nat, j: nat)
    requires img.Valid() && i < img.height && j < img.width
    ensures |Pixels(img)| == img.height * img.width
    ensures i * img.width + j < |Pixels(img)| && Pixels(img)[i * img.width + j] == img.At(i, j)
  {
    FlattenIndex(img, i, j);
  }

  /** `np.clip(v, 0, 255)`: the value forced into the byte range. */
  function ClipByte(v: int): (r: int)
    ensures 0 <= r <= 255
    ensures 0 <= v <= 255 ==> r == v
    ensures v < 0 ==> r == 0
    ensures v > 255 ==> r == 255
  {
    if v < 0 then 0 else if v > 255 then 255 else v
  }

  /** The clip applied to each channel. */
  function ClipRgb(c: Rgb): (r: Rgb)
    ensures IsByteColour(r)
    ensures IsByteColour(c) ==> r == c
  {
    Rgb(ClipByte(c.r), ClipByte(c.g), ClipByte(c.b))
  }

  predicate IsByteColour(c: Rgb)
  {
    0 <= c.r <= 255 && 0 <= c.g <= 255 && 0 <= c.b <= 255
  }
}
