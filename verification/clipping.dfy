/**
 * Clipping a rainfall raster to the valid region of a DEM, and the map
 * extent computed from a GDAL geotransform.  Geo-referencing is carried
 * through untouched; only its six numbers matter for the extent.
 */
module Clipping {
  import opened Wrappers
  import opened Cells
  import opened Grids
  import Elevation

  /** GDAL's six-number geotransform: origin, pixel size and rotation terms. */
  datatype GeoTransform = GeoTransform(
    originX: real, pixelWidth: real, rowRotation: real,
    originY: real, columnRotation: real, pixelHeight: real)

  /** A raster band read into memory with its geo-referencing. */
  datatype Raster = Raster(data: Grid<Cell>, geo: GeoTransform, projection: string)

  /** The `ValueError` raised when the two rasters differ in shape. */
  datatype ClipError = ShapeMismatch

  /**
   * One output cell: the DEM cell is first masked (negatives become NaN),
   * then NaN in the masked DEM selects NaN, and anything else keeps the
   * rainfall value.
   */
  function ClipCell(dem: Cell, rain: Cell): (r: Cell)
    ensures dem.NaN? || Lt(dem, 0.0) ==> r.NaN?
    ensures Ge(dem, 0.0) ==> r == rain
  {
    if IsNaN(Elevation.MaskNegative(dem)) then NaN else rain
  }

  /**
   * `clip_rainfall_to_dem`: the shape check comes before any clipping; on
   * success the result has the DEM's shape, geotransform and projection.
   */
  function ClipRainfallToDem(dem: Raster, rain: Grid<Cell>): (r: Result<Raster, ClipError>)
    requires dem.data.Valid() && rain.Valid()
    ensures r.Failure? <==> !SameShape(dem.data, rain)
    ensures r.Success? ==> r.value.data.Valid() && SameShape(r.value.data, dem.data)
    ensures r.Success? ==> r.value.geo == dem.geo && r.value.projection == dem.projection
    ensures r.Success? ==> forall i, j :: 0 <= i < rain.height && 0 <= j < rain.width ==>
      (r.value.data.At(i, j).NaN? <==> dem.data.At(i, j).NaN? || Lt(dem.data.At(i, j), 0.0) || rain.At(i, j).NaN?)
    ensures r.Success? ==> forall i, j :: 0 <= i < rain.height && 0 <= j < rain.width && Ge(dem.data.At(i, j), 0.0) ==>
      r.value.data.At(i, j) == rain.At(i, j)
  {
    if !SameShape(dem.data, rain) then Failure(ShapeMismatch)
    else Success(Raster(Zip(dem.data, rain, ClipCell), dem.geo, dem.projection))
  }

  /** Clipping again with the same DEM changes nothing. */
  lemma {:induction false} ClipIdempotent(dem: Raster, rain: Grid<Cell>)
    requires dem.data.Valid() && rain.Valid() && SameShape(dem.data, rain)
    ensures ClipRainfallToDem(dem, ClipRainfallToDem(dem, rain).value.data) == ClipRainfallToDem(dem, rain)
  {
    var once := ClipRainfallToDem(dem, rain).value.data;
    var twice := ClipRainfallToDem(dem, once).value.data;
    forall i | 0 <= i < rain.height
      ensures twice.rows[i] == once.rows[i]
    {
      forall j | 0 <= j < rain.width
        ensures twice.rows[i][j] == once.rows[i][j]
      {
        assert twice.At(i, j) == ClipCell(dem.data.At(i, j), once.At(i, j));
      }
    }
    assert twice.rows == once.rows;
  }

  /** The plotting extent `[xmin, xmax, ymin, ymax]`. */
  datatype Extent = Extent(xmin: real, xmax: real, ymin: real, ymax: real)

  /** `display_grayscale_map`'s extent: the origin plus the shape times the pixel size. */
  function ExtentOf(height: nat, width: nat, geo: GeoTransform): (e: Extent)
    ensures e.xmin == geo.originX && e.ymax == geo.originY
    ensures e.xmax - e.xmin == width as real * geo.pixelWidth
    ensures e.ymin - e.ymax == height as real * geo.pixelHeight
  {
    Extent(geo.originX, geo.originX + width as real * geo.pixelWidth,
           geo.originY + height as real * geo.pixelHeight, geo.originY)
  }

  /** For a north-up raster (positive width, negative height) the extent is a proper box. */
  lemma {:induction false} NorthUpExtentOrdered(height: nat, width: nat, geo: GeoTransform)
    requires geo.pixelWidth > 0.0 && geo.pixelHeight < 0.0
    ensures ExtentOf(height, width, geo).xmin <= ExtentOf(height, width, geo).xmax
    ensures ExtentOf(height, width, geo).ymin <= ExtentOf(height, width, geo).ymax
  {
    assert width as real * geo.pixelWidth >= 0.0;
    assert height as real * (-geo.pixelHeight) >= 0.0;
  }

  /** The clipped raster is drawn over exactly the DEM's extent. */
  lemma {:induction false} ClippedExtentIsDemExtent(dem: Raster, rain: Grid<Cell>)
    requires dem.data.Valid() && rain.Valid() && SameShape(dem.data, rain)
    ensures var c := ClipRainfallToDem(dem, rain).value;
      ExtentOf(c.data.height, c.data.width, c.geo) == ExtentOf(dem.data.height, dem.data.width, dem.geo)
  {
  }
}
