/**
 * Primitive values shared by the grid, operator, catalog and coverage models:
 * time in integer milliseconds, spatial references, raster pixel types and
 * raster result descriptors.
 */
module Primitives {
  import opened Wrappers

  /** A half-open time interval `[start, end)` in milliseconds since the epoch. */
  datatype TimeInterval = TimeInterval(start: int, end: int)

  /** The time errors of the data types: an inverted interval, or an instant with no calendar date-time. */
  datatype TimeError =
    | TimeIntervalStartAfterEnd(start: int, end: int)
    | NoDateTimeValid(timeInstance: int)

  /** `TimeInterval::new`: the only failure is a start after the end. */
  function NewTimeInterval(start: int, end: int): (r: Result<TimeInterval, TimeError>)
    ensures r.Ok? <==> start <= end
    ensures r.Ok? ==> r.value.start == start && r.value.end == end
    ensures r.Err? ==> r.error == TimeIntervalStartAfterEnd(start, end)
  {
    if start <= end then Ok(TimeInterval(start, end)) else Err(TimeIntervalStartAfterEnd(start, end))
  }

  datatype SpatialReferenceAuthority = Epsg | SrOrg | Iau2000 | Esri

  datatype SpatialReference = SpatialReference(authority: SpatialReferenceAuthority, code: nat)

  const EPSG_4326: SpatialReference := SpatialReference(Epsg, 4326)

  /** The pixel types a raster may have. */
  datatype RasterDataType = U8 | U16 | U32 | U64 | I8 | I16 | I32 | I64 | F32 | F64

  datatype Measurement = Unitless | Continuous(measurement: string, unit: Option<string>)

  /** What a raster operator promises to yield; `None` spatial reference is "unreferenced". */
  datatype RasterResultDescriptor = RasterResultDescriptor(
    dataType: RasterDataType,
    spatialReference: Option<SpatialReference>,
    measurement: Measurement,
    noDataValue: Option<real>)

  datatype Coordinate2D = Coordinate2D(x: real, y: real)
}
