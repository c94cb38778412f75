/**
 * The decisions of the WCS 1.1 handler: the ordered checks of GetCoverage,
 * whether a reprojection is put in front of the workflow, the query time,
 * the pixel types that can be written as GeoTIFF, the axis order of the
 * DescribeCoverage bounding box, and the rewrite of the query string.
 *
 * What the handler obtains from elsewhere (the parsed partition, the grid
 * origin's coordinate, the workflow registry, operator initialization, the
 * query processor, the clock) is given as a context value.
 */
module Wcs {
  import opened Wrappers
  import opened Primitives

  datatype WcsError =
    | WcsVersionNotSupported
    | WcsGridOriginMustEqualBoundingboxUpperLeft
    | WcsBoundingboxCrsMustEqualGridBaseCrs
    | InvalidSpatialReference
    | MissingSpatialReference
    | RasterDataTypeNotSupportByGdal
      /** an error passed through from a collaborator (parsing, registry, operators, configuration) */
    | Upstream(reason: string)

  /** An axis-aligned rectangle given by its lower-left and upper-right corners. */
  datatype Rectangle = Rectangle(lowerLeft: Coordinate2D, upperRight: Coordinate2D)

  function UpperLeft(r: Rectangle): (c: Coordinate2D)
    ensures c.x == r.lowerLeft.x && c.y == r.upperRight.y
  {
    Coordinate2D(r.lowerLeft.x, r.upperRight.y)
  }

  /** The grid origin as sent, before it is read in the grid base CRS. */
  datatype GridOrigin = GridOrigin(first: real, second: real)

  datatype SpatialResolution = SpatialResolution(x: real, y: real)

  /** A raster operator graph: a registered workflow, possibly wrapped in a reprojection. */
  datatype RasterOperator =
    | WorkflowOperator(workflowId: string)
    | Reprojection(targetSpatialReference: SpatialReference, source: RasterOperator)

  /** The fields of a GetCoverage request that the handler decides on. */
  datatype GetCoverageRequest = GetCoverageRequest(
    version: string,
    identifier: string,
    boundingboxCrs: Option<SpatialReference>,
    gridbasecrs: SpatialReference,
    gridorigin: Option<GridOrigin>,
    time: Option<TimeInterval>,
    resolution: Option<Result<SpatialResolution, WcsError>>)

  datatype CoverageContext = CoverageContext(
    /** `request.spatial_partition()` */
    spatialPartition: Result<Rectangle, WcsError>,
    /** `GridOrigin::coordinate` for a CRS */
    gridOriginCoordinate: (GridOrigin, SpatialReference) -> Coordinate2D,
    /** the registered workflow's raster operator, or why it could not be loaded */
    workflow: Result<RasterOperator, WcsError>,
    /** operator initialization, yielding the result descriptor */
    initialize: RasterOperator -> Result<RasterResultDescriptor, WcsError>,
    /** the pixel type of the initialized operator's query processor */
    queryProcessor: RasterOperator -> Result<RasterDataType, WcsError>,
    /** `Utc::now()` in milliseconds */
    now: int)

  datatype RasterQueryRectangle = RasterQueryRectangle(
    spatialBounds: Rectangle,
    timeInterval: TimeInterval,
    spatialResolution: SpatialResolution)

  /** Everything GetCoverage has decided before it looks at the pixel type. */
  datatype PreparedCoverage = PreparedCoverage(
    operator: RasterOperator,
    pixelType: RasterDataType,
    query: RasterQueryRectangle,
    noDataValue: Option<real>,
    spatialReference: SpatialReference)

  /** The arguments of the GeoTIFF encoding call. */
  datatype GeoTiffRequest = GeoTiffRequest(
    operator: RasterOperator,
    pixelType: RasterDataType,
    query: RasterQueryRectangle,
    noDataValue: Option<real>,
    spatialReference: SpatialReference)

  const DEFAULT_RESOLUTION_DIVISOR: real := 256.0

  predicate VersionSupported(version: string)
  {
    version == "1.1.1" || version == "1.1.0"
  }

  /** The reprojection is inserted exactly when the request CRS differs from the workflow CRS. */
  function WithReprojection(operator: RasterOperator, workflowCrs: SpatialReference, requestCrs: SpatialReference): (r: RasterOperator)
    ensures r == operator <==> workflowCrs == requestCrs
    ensures workflowCrs != requestCrs ==> r.Reprojection? && r.targetSpatialReference == requestCrs && r.source == operator
  {
    if requestCrs == workflowCrs then operator
    else
      ReprojectionIsNotItsSource(requestCrs, operator);
      Reprojection(requestCrs, operator)
  }

  lemma {:induction false} ReprojectionIsNotItsSource(target: SpatialReference, operator: RasterOperator)
    ensures Reprojection(target, operator) != operator
    decreases operator
  {
    if operator.Reprojection? {
      ReprojectionIsNotItsSource(target, operator.source);
    }
  }

  /** The query time: the requested interval, or the instant `[now, now]`. */
  function QueryTime(time: Option<TimeInterval>, now: int): (t: TimeInterval)
    ensures time.Some? ==> t == time.value
    ensures time.None? ==> t.start == t.end == now
  {
    match time
    case Some(t) => t
    case None => TimeInterval(now, now)
  }

  /** The fallback resolution: the partition's extent in 256 steps per axis. */
  function DefaultResolution(partition: Rectangle): (r: SpatialResolution)
    ensures r.x * DEFAULT_RESOLUTION_DIVISOR == partition.upperRight.x - partition.lowerLeft.x
    ensures r.y * DEFAULT_RESOLUTION_DIVISOR == partition.upperRight.y - partition.lowerLeft.y
  {
    SpatialResolution(
      (partition.upperRight.x - partition.lowerLeft.x) / DEFAULT_RESOLUTION_DIVISOR,
      (partition.upperRight.y - partition.lowerLeft.y) / DEFAULT_RESOLUTION_DIVISOR)
  }

  /** The requested resolution, its parse error, or the fallback. */
  function ResolutionFor(requested: Option<Result<SpatialResolution, WcsError>>, partition: Rectangle): (r: Result<SpatialResolution, WcsError>)
    ensures requested.Some? ==> r == requested.value
    ensures requested.None? ==> r == Ok(DefaultResolution(partition))
  {
    match requested
    case Some(parsed) => parsed
    case None => Ok(DefaultResolution(partition))
  }

  /**
   * The initialized operator to query: the workflow itself when the CRSs
   * agree (its descriptor reused), otherwise the reprojection, initialized anew.
   */
  function InitializeForRequestCrs(
    ctx: CoverageContext, operator: RasterOperator, descriptor: RasterResultDescriptor,
    workflowCrs: SpatialReference, requestCrs: SpatialReference): (r: Result<(RasterOperator, RasterResultDescriptor), WcsError>)
    ensures r.Ok? ==> r.value.0 == WithReprojection(operator, workflowCrs, requestCrs)
    ensures workflowCrs == requestCrs ==> r == Ok((operator, descriptor))
    ensures workflowCrs != requestCrs ==> (r.Ok? <==> ctx.initialize(Reprojection(requestCrs, operator)).Ok?)
    ensures workflowCrs != requestCrs && r.Ok? ==> r.value.1 == ctx.initialize(Reprojection(requestCrs, operator)).value
    ensures workflowCrs != requestCrs && r.Err? ==> r.error == ctx.initialize(Reprojection(requestCrs, operator)).error
  {
    var chosen := WithReprojection(operator, workflowCrs, requestCrs);
    if chosen == operator then Ok((operator, descriptor))
    else
      match ctx.initialize(chosen)
      case Err(e) => Err(e)
      case Ok(d) => Ok((chosen, d))
  }

  /** `get_coverage` up to the processor dispatch, in the handler's order of checks. */
  function PrepareCoverage(req: GetCoverageRequest, ctx: CoverageContext): (r: Result<PreparedCoverage, WcsError>)
    ensures !VersionSupported(req.version) ==> r == Err(WcsVersionNotSupported)
    ensures r.Ok? ==>
      && VersionSupported(req.version)
      && ctx.spatialPartition.Ok?
      && (req.gridorigin.Some? ==> ctx.gridOriginCoordinate(req.gridorigin.value, req.gridbasecrs) == UpperLeft(ctx.spatialPartition.value))
      && (req.boundingboxCrs.Some? ==> req.boundingboxCrs.value == req.gridbasecrs)
      && r.value.spatialReference == req.gridbasecrs
      && r.value.query.spatialBounds == ctx.spatialPartition.value
      && r.value.query.timeInterval == QueryTime(req.time, ctx.now)
    ensures r.Ok? ==>
      && ctx.workflow.Ok? && ctx.initialize(ctx.workflow.value).Ok?
      && ctx.initialize(ctx.workflow.value).value.spatialReference.Some?
      && var chosen := InitializeForRequestCrs(
           ctx, ctx.workflow.value, ctx.initialize(ctx.workflow.value).value,
           ctx.initialize(ctx.workflow.value).value.spatialReference.value, req.gridbasecrs);
         && chosen.Ok?
         && r.value.operator == chosen.value.0
         && r.value.noDataValue == chosen.value.1.noDataValue
         && ctx.queryProcessor(chosen.value.0) == Ok(r.value.pixelType)
         && ResolutionFor(req.resolution, ctx.spatialPartition.value) == Ok(r.value.query.spatialResolution)
    // once every earlier step has succeeded, the processor's and then the resolution's error is returned
    ensures
      && VersionSupported(req.version)
      && ctx.spatialPartition.Ok?
      && (req.gridorigin.Some? ==> ctx.gridOriginCoordinate(req.gridorigin.value, req.gridbasecrs) == UpperLeft(ctx.spatialPartition.value))
      && (req.boundingboxCrs.Some? ==> req.boundingboxCrs.value == req.gridbasecrs)
      && ctx.workflow.Ok? && ctx.initialize(ctx.workflow.value).Ok?
      && ctx.initialize(ctx.workflow.value).value.spatialReference.Some?
      ==>
      var chosen := InitializeForRequestCrs(
        ctx, ctx.workflow.value, ctx.initialize(ctx.workflow.value).value,
        ctx.initialize(ctx.workflow.value).value.spatialReference.value, req.gridbasecrs);
      && (chosen.Err? ==> r == Err(chosen.error))
      && (chosen.Ok? && ctx.queryProcessor(chosen.value.0).Err? ==> r == Err(ctx.queryProcessor(chosen.value.0).error))
      && (chosen.Ok? && ctx.queryProcessor(chosen.value.0).Ok? && ResolutionFor(req.resolution, ctx.spatialPartition.value).Err? ==>
            r == Err(ResolutionFor(req.resolution, ctx.spatialPartition.value).error))
      && (chosen.Ok? && ctx.queryProcessor(chosen.value.0).Ok? && ResolutionFor(req.resolution, ctx.spatialPartition.value).Ok? ==> r.Ok?)
  {
    if !VersionSupported(req.version) then Err(WcsVersionNotSupported)
    else
      match ctx.spatialPartition
      case Err(e) => Err(e)
      case Ok(partition) =>
        if req.gridorigin.Some? && ctx.gridOriginCoordinate(req.gridorigin.value, req.gridbasecrs) != UpperLeft(partition) then
          Err(WcsGridOriginMustEqualBoundingboxUpperLeft)
        else if req.boundingboxCrs.Some? && req.gridbasecrs != req.boundingboxCrs.value then
          Err(WcsBoundingboxCrsMustEqualGridBaseCrs)
        else
          match ctx.workflow
          case Err(e) => Err(e)
          case Ok(operator) =>
            match ctx.initialize(operator)
            case Err(e) => Err(e)
            case Ok(descriptor) =>
              match descriptor.spatialReference
              case None => Err(InvalidSpatialReference)
              case Some(workflowCrs) =>
                match InitializeForRequestCrs(ctx, operator, descriptor, workflowCrs, req.gridbasecrs)
                case Err(e) => Err(e)
                case Ok((chosen, chosenDescriptor)) =>
                  match ctx.queryProcessor(chosen)
                  case Err(e) => Err(e)
                  case Ok(pixelType) =>
                    match ResolutionFor(req.resolution, partition)
                    case Err(e) => Err(e)
                    case Ok(resolution) =>
                      Ok(PreparedCoverage(
                        chosen, pixelType,
                        RasterQueryRectangle(partition, QueryTime(req.time, ctx.now), resolution),
                        chosenDescriptor.noDataValue, req.gridbasecrs))
  }

  /** The pixel types the GeoTIFF writer accepts. */
  predicate GdalSupported(t: RasterDataType)
  {
    t in {U8, U16, U32, I16, I32, F32, F64}
  }

  /** The `match processor`: seven typed arms, every other variant rejected. */
  function Dispatch(t: RasterDataType): (r: Result<RasterDataType, WcsError>)
    ensures r.Ok? <==> GdalSupported(t)
    ensures r.Ok? ==> r.value == t
    ensures r.Err? ==> r.error == RasterDataTypeNotSupportByGdal
  {
    match t
    case U8 => Ok(U8)
    case U16 => Ok(U16)
    case U32 => Ok(U32)
    case I16 => Ok(I16)
    case I32 => Ok(I32)
    case F32 => Ok(F32)
    case F64 => Ok(F64)
    case _ => Err(RasterDataTypeNotSupportByGdal)
  }

  /** `get_coverage`: the arguments it hands to the GeoTIFF encoder, or its error. */
  function GetCoverage(req: GetCoverageRequest, ctx: CoverageContext): (r: Result<GeoTiffRequest, WcsError>)
    ensures PrepareCoverage(req, ctx).Err? ==> r == Err(PrepareCoverage(req, ctx).error)
    ensures PrepareCoverage(req, ctx).Ok? ==> (r.Ok? <==> GdalSupported(PrepareCoverage(req, ctx).value.pixelType))
    ensures r.Err? && PrepareCoverage(req, ctx).Ok? ==> r.error == RasterDataTypeNotSupportByGdal
    ensures r.Ok? ==>
      var p := PrepareCoverage(req, ctx).value;
      r.value == GeoTiffRequest(p.operator, p.pixelType, p.query, p.noDataValue, p.spatialReference)
  {
    match PrepareCoverage(req, ctx)
    case Err(e) => Err(e)
    case Ok(p) =>
      match Dispatch(p.pixelType)
      case Err(e) => Err(e)
      case Ok(t) => Ok(GeoTiffRequest(p.operator, t, p.query, p.noDataValue, p.spatialReference))
  }

  // ----- properties of GetCoverage -----

  /** The version is checked before anything else: no collaborator is consulted for an unsupported version. */
  lemma VersionCheckedFirst(req: GetCoverageRequest, ctx1: CoverageContext, ctx2: CoverageContext)
    requires !VersionSupported(req.version)
    ensures GetCoverage(req, ctx1) == GetCoverage(req, ctx2) == Err(WcsVersionNotSupported)
  {
  }

  /**
   * With a supported version and a parsed partition, a grid origin other
   * than the partition's upper-left corner is rejected, and only then a
   * bounding-box CRS other than the grid base CRS, whatever the workflow.
   */
  lemma PreChecksInOrder(req: GetCoverageRequest, ctx: CoverageContext)
    requires VersionSupported(req.version) && ctx.spatialPartition.Ok?
    ensures req.gridorigin.Some? && ctx.gridOriginCoordinate(req.gridorigin.value, req.gridbasecrs) != UpperLeft(ctx.spatialPartition.value)
      ==> GetCoverage(req, ctx) == Err(WcsGridOriginMustEqualBoundingboxUpperLeft)
    ensures (req.gridorigin.None? || ctx.gridOriginCoordinate(req.gridorigin.value, req.gridbasecrs) == UpperLeft(ctx.spatialPartition.value))
      && req.boundingboxCrs.Some? && req.boundingboxCrs.value != req.gridbasecrs
      ==> GetCoverage(req, ctx) == Err(WcsBoundingboxCrsMustEqualGridBaseCrs)
  {
  }

  /** A workflow whose descriptor has no spatial reference is rejected once the pre-checks pass. */
  lemma WorkflowWithoutCrsRejected(req: GetCoverageRequest, ctx: CoverageContext)
    requires VersionSupported(req.version) && ctx.spatialPartition.Ok?
    requires req.gridorigin.None? || ctx.gridOriginCoordinate(req.gridorigin.value, req.gridbasecrs) == UpperLeft(ctx.spatialPartition.value)
    requires req.boundingboxCrs.None? || req.boundingboxCrs.value == req.gridbasecrs
    requires ctx.workflow.Ok? && ctx.initialize(ctx.workflow.value).Ok?
    requires ctx.initialize(ctx.workflow.value).value.spatialReference.None?
    ensures GetCoverage(req, ctx) == Err(InvalidSpatialReference)
  {
  }

  /**
   * A successful GetCoverage queries the workflow itself exactly when the
   * request CRS is the workflow CRS, and otherwise a reprojection of the
   * workflow to the request CRS; the output is georeferenced in the request CRS.
   */
  lemma {:induction false} ReprojectionIffCrsDiffers(req: GetCoverageRequest, ctx: CoverageContext)
    requires GetCoverage(req, ctx).Ok?
    ensures ctx.workflow.Ok? && ctx.initialize(ctx.workflow.value).Ok?
    ensures ctx.initialize(ctx.workflow.value).value.spatialReference.Some?
    ensures
      var operator := ctx.workflow.value;
      var workflowCrs := ctx.initialize(operator).value.spatialReference.value;
      && (GetCoverage(req, ctx).value.operator == operator <==> workflowCrs == req.gridbasecrs)
      && (workflowCrs != req.gridbasecrs ==> GetCoverage(req, ctx).value.operator == Reprojection(req.gridbasecrs, operator))
      && GetCoverage(req, ctx).value.spatialReference == req.gridbasecrs
  {
    var operator := ctx.workflow.value;
    var descriptor := ctx.initialize(operator).value;
    var workflowCrs := descriptor.spatialReference.value;
    var chosen := InitializeForRequestCrs(ctx, operator, descriptor, workflowCrs, req.gridbasecrs);
    assert chosen.Ok?;
    assert PrepareCoverage(req, ctx).value.operator == chosen.value.0;
  }

  /** Without a requested time the coverage is queried at the instant `[now, now]`. */
  lemma DefaultTimeIsNow(req: GetCoverageRequest, ctx: CoverageContext)
    requires GetCoverage(req, ctx).Ok? && req.time.None?
    ensures GetCoverage(req, ctx).value.query.timeInterval == TimeInterval(ctx.now, ctx.now)
  {
  }

  /** A successful GetCoverage always writes one of the seven GeoTIFF pixel types. */
  lemma CoveragePixelTypeSupported(req: GetCoverageRequest, ctx: CoverageContext)
    requires GetCoverage(req, ctx).Ok?
    ensures GdalSupported(GetCoverage(req, ctx).value.pixelType)
    ensures GetCoverage(req, ctx).value.pixelType !in {U64, I8, I64}
  {
  }

  /**
   * The encoder's pixel type is the type of the query processor of the
   * operator that is queried: a processor of a type the GeoTIFF writer does
   * not take (`U64`, `I8`, `I64`) makes the request fail.
   */
  lemma ProcessorTypeDecidesEncoding(req: GetCoverageRequest, ctx: CoverageContext)
    requires PrepareCoverage(req, ctx).Ok?
    ensures ctx.queryProcessor(PrepareCoverage(req, ctx).value.operator).Ok?
    ensures var t := ctx.queryProcessor(PrepareCoverage(req, ctx).value.operator).value;
      && (GetCoverage(req, ctx).Ok? <==> GdalSupported(t))
      && (GetCoverage(req, ctx).Ok? ==> GetCoverage(req, ctx).value.pixelType == t)
      && (t in {U64, I8, I64} ==> GetCoverage(req, ctx) == Err(RasterDataTypeNotSupportByGdal))
  {
  }

  // ----- DescribeCoverage -----

  datatype DescribeContext = DescribeContext(
    /** the service URL from the configuration */
    wcsUrl: Result<string, WcsError>,
    /** the initialized workflow's result descriptor */
    descriptor: Result<RasterResultDescriptor, WcsError>,
    /** `SpatialReference::area_of_use_projected` */
    areaOfUse: SpatialReference -> Result<Rectangle, WcsError>)

  /** The values DescribeCoverage fills into its XML template. */
  datatype CoverageDescription = CoverageDescription(
    spatialReference: SpatialReference,
    lowerCorner: (real, real),
    upperCorner: (real, real),
    gridOrigin: (real, real))

  /** A corner in the axis order of the CRS: (y, x) for EPSG:4326, (x, y) otherwise. */
  function AxisOrdered(srs: SpatialReference, c: Coordinate2D): (p: (real, real))
    ensures srs == EPSG_4326 ==> p == (c.y, c.x)
    ensures srs != EPSG_4326 ==> p == (c.x, c.y)
  {
    if srs == EPSG_4326 then (c.y, c.x) else (c.x, c.y)
  }

  /** Reading a corner back from the CRS's axis order. */
  function FromAxisOrder(srs: SpatialReference, p: (real, real)): (c: Coordinate2D)
    ensures AxisOrdered(srs, c) == p
  {
    if srs == EPSG_4326 then Coordinate2D(p.1, p.0) else Coordinate2D(p.0, p.1)
  }

  /** `describe_coverage` */
  function DescribeCoverage(ctx: DescribeContext): (r: Result<CoverageDescription, WcsError>)
    ensures ctx.wcsUrl.Err? ==> r == Err(ctx.wcsUrl.error)
    ensures ctx.wcsUrl.Ok? && ctx.descriptor.Ok? && ctx.descriptor.value.spatialReference.None? ==> r == Err(MissingSpatialReference)
    ensures r.Ok? ==>
      && ctx.descriptor.Ok? && ctx.descriptor.value.spatialReference == Some(r.value.spatialReference)
      && ctx.areaOfUse(r.value.spatialReference).Ok?
      && var area := ctx.areaOfUse(r.value.spatialReference).value;
      && FromAxisOrder(r.value.spatialReference, r.value.lowerCorner) == area.lowerLeft
      && FromAxisOrder(r.value.spatialReference, r.value.upperCorner) == area.upperRight
      && r.value.gridOrigin == (UpperLeft(area).x, UpperLeft(area).y)
  {
    match ctx.wcsUrl
    case Err(e) => Err(e)
    case Ok(_) =>
      match ctx.descriptor
      case Err(e) => Err(e)
      case Ok(descriptor) =>
        match descriptor.spatialReference
        case None => Err(MissingSpatialReference)
        case Some(srs) =>
          match ctx.areaOfUse(srs)
          case Err(e) => Err(e)
          case Ok(area) =>
            Ok(CoverageDescription(
              srs, AxisOrdered(srs, area.lowerLeft), AxisOrdered(srs, area.upperRight),
              (UpperLeft(area).x, UpperLeft(area).y)))
  }

  /**
   * The WGS 84 description of the unit test: the bounding box is written
   * latitude first, `-90 -180` to `90 180`, while the grid origin stays
   * `-180 90`.
   */
  lemma DescribeWgs84Scenario(ctx: DescribeContext)
    requires ctx.wcsUrl.Ok?
    requires ctx.descriptor.Ok? && ctx.descriptor.value.spatialReference == Some(EPSG_4326)
    requires ctx.areaOfUse(EPSG_4326) == Ok(Rectangle(Coordinate2D(-180.0, -90.0), Coordinate2D(180.0, 90.0)))
    ensures DescribeCoverage(ctx) == Ok(CoverageDescription(EPSG_4326, (-90.0, -180.0), (90.0, 180.0), (-180.0, 90.0)))
  {
  }

  // ----- query-string rewrite -----

  /** `str::replace`: every non-overlapping occurrence of `pat`, left to right, becomes `rep`. */
  function ReplaceAll(s: string, pat: string, rep: string): (r: string)
    requires |pat| > 0
    ensures |rep| == |pat| ==> |r| == |s|
    ensures |s| < |pat| ==> r == s
    decreases |s|
  {
    if |s| < |pat| then s
    else if s[..|pat|] == pat then rep + ReplaceAll(s[|pat|..], pat, rep)
    else [s[0]] + ReplaceAll(s[1..], pat, rep)
  }

  predicate OccursAt(s: string, pat: string, i: int)
  {
    0 <= i && i + |pat| <= |s| && s[i..i + |pat|] == pat
  }

  function LowerAscii(c: char): char
  {
    if 'A' <= c <= 'Z' then (c as int + 32) as char else c
  }

  lemma {:induction false} ReplaceAllWithoutOccurrence(s: string, pat: string, rep: string)
    requires |pat| > 0
    ensures (forall i :: !OccursAt(s, pat, i)) ==> ReplaceAll(s, pat, rep) == s
    decreases |s|
  {
    if |s| >= |pat| && forall i :: !OccursAt(s, pat, i) {
      assert !OccursAt(s, pat, 0);
      forall i ensures !OccursAt(s[1..], pat, i) {
        if OccursAt(s[1..], pat, i) {
          assert s[1..][i..i + |pat|] == s[i + 1..i + 1 + |pat|];
          assert OccursAt(s, pat, i + 1);
        }
      }
      ReplaceAllWithoutOccurrence(s[1..], pat, rep);
      assert [s[0]] + s[1..] == s;
    }
  }

  /** A replacement that lower-cases the pattern changes nothing but the case of characters, in place. */
  lemma {:induction false} ReplaceAllLowersInPlace(s: string, pat: string, rep: string)
    requires |pat| > 0 && |rep| == |pat|
    requires forall i :: 0 <= i < |pat| ==> rep[i] == LowerAscii(pat[i])
    ensures |ReplaceAll(s, pat, rep)| == |s|
    ensures forall i :: 0 <= i < |s| ==> ReplaceAll(s, pat, rep)[i] == s[i] || ReplaceAll(s, pat, rep)[i] == LowerAscii(s[i])
    decreases |s|
  {
    if |s| >= |pat| {
      var r := ReplaceAll(s, pat, rep);
      if s[..|pat|] == pat {
        var rest := s[|pat|..];
        ReplaceAllLowersInPlace(rest, pat, rep);
        forall i | 0 <= i < |s| ensures r[i] == s[i] || r[i] == LowerAscii(s[i]) {
          if i < |pat| {
            assert r[i] == rep[i] && s[i] == pat[i];
          } else {
            assert r[i] == ReplaceAll(rest, pat, rep)[i - |pat|] && s[i] == rest[i - |pat|];
          }
        }
      } else {
        ReplaceAllLowersInPlace(s[1..], pat, rep);
      }
    }
  }

  /**
   * A prefix of the output made only of characters of the pattern was
   * copied unchanged, when the replacement shares no character with the pattern.
   */
  lemma {:induction false} PatternCharsWereCopied(s: string, pat: string, rep: string, n: nat)
    requires |pat| > 0 && |rep| > 0
    requires forall c :: c in rep ==> c !in pat
    requires n <= |ReplaceAll(s, pat, rep)|
    requires forall k :: 0 <= k < n ==> ReplaceAll(s, pat, rep)[k] in pat
    ensures n <= |s| && ReplaceAll(s, pat, rep)[..n] == s[..n]
    decreases |s|
  {
    var r := ReplaceAll(s, pat, rep);
    if n > 0 && |s| >= |pat| {
      // r[0] is a character of the pattern, so r does not start with rep: s does not start with pat
      assert r[0] in pat;
      assert rep[0] !in pat by { assert rep[0] in rep; }
      var rest := ReplaceAll(s[1..], pat, rep);
      assert r == [s[0]] + rest;
      forall k | 0 <= k < n - 1 ensures rest[k] in pat {
        assert rest[k] == r[k + 1];
      }
      PatternCharsWereCopied(s[1..], pat, rep, n - 1);
      assert r[..n] == [s[0]] + rest[..n - 1];
      assert s[..n] == [s[0]] + s[1..][..n - 1];
    }
  }

  /** No occurrence starts in a prefix free of `pat`'s first character, or after it. */
  lemma {:induction false} NoOccurrenceAfterPrefix(head: string, rest: string, pat: string)
    requires |pat| > 0 && pat[0] !in head
    requires forall i :: !OccursAt(rest, pat, i)
    ensures forall i :: !OccursAt(head + rest, pat, i)
  {
    var r := head + rest;
    forall i ensures !OccursAt(r, pat, i) {
      if 0 <= i < |head| && i + |pat| <= |r| {
        assert r[i..i + |pat|][0] == head[i];
      } else if |head| <= i && i + |pat| <= |r| {
        assert r[i..i + |pat|] == rest[i - |head|..i - |head| + |pat|];
        assert !OccursAt(rest, pat, i - |head|);
      }
    }
  }

  /** No occurrence starts at a copied first character, or after it. */
  lemma {:induction false} NoOccurrenceAfterCopy(c: char, rest: string, pat: string)
    requires |pat| > 0 && !OccursAt([c] + rest, pat, 0)
    requires forall i :: !OccursAt(rest, pat, i)
    ensures forall i :: !OccursAt([c] + rest, pat, i)
  {
    var r := [c] + rest;
    forall i ensures !OccursAt(r, pat, i) {
      if 0 < i && i + |pat| <= |r| {
        assert r[i..i + |pat|] == rest[i - 1..i - 1 + |pat|];
        assert !OccursAt(rest, pat, i - 1);
      }
    }
  }

  /** When the replacement shares no character with the pattern, no occurrence is left. */
  lemma {:induction false} ReplaceAllLeavesNoOccurrence(s: string, pat: string, rep: string)
    requires |pat| > 0 && |rep| > 0
    requires forall c :: c in rep ==> c !in pat
    ensures forall i :: !OccursAt(ReplaceAll(s, pat, rep), pat, i)
    decreases |s|
  {
    if |s| >= |pat| {
      var r := ReplaceAll(s, pat, rep);
      if s[..|pat|] == pat {
        var rest := ReplaceAll(s[|pat|..], pat, rep);
        ReplaceAllLeavesNoOccurrence(s[|pat|..], pat, rep);
        assert r == rep + rest;
        assert pat[0] !in rep by { assert pat[0] in pat; }
        NoOccurrenceAfterPrefix(rep, rest, pat);
      } else {
        var rest := ReplaceAll(s[1..], pat, rep);
        ReplaceAllLeavesNoOccurrence(s[1..], pat, rep);
        assert r == [s[0]] + rest;
        if OccursAt(r, pat, 0) {
          // the output's first |pat| characters all belong to pat, so they were copied from s
          forall k | 0 <= k < |pat| - 1 ensures rest[k] in pat {
            assert rest[k] == r[k + 1] == pat[k + 1];
          }
          PatternCharsWereCopied(s[1..], pat, rep, |pat| - 1);
        }
        NoOccurrenceAfterCopy(s[0], rest, pat);
      }
    }
  }

  /**
   * When `pat`'s first character does not recur in it, an occurrence at the
   * start leaves no room for another one before `|pat|`.
   */
  lemma NoOverlapAtStart(s: string, pat: string)
    requires 0 < |pat| <= |s|
    requires forall k :: 0 < k < |pat| ==> pat[k] != pat[0]
    ensures s[..|pat|] == pat ==> forall j :: 0 < j < |pat| ==> !OccursAt(s, pat, j)
    ensures s[..|pat|] != pat ==> !OccursAt(s, pat, 0)
  {
    if s[..|pat|] == pat {
      forall j | 0 < j < |pat| ensures !OccursAt(s, pat, j) {
        assert s[j] == pat[j];
        if j + |pat| <= |s| {
          assert s[j..j + |pat|][0] == s[j];
        }
      }
    } else {
      assert s[0..|pat|] == s[..|pat|];
    }
  }

  /**
   * With a replacement as long as the pattern, and a pattern whose first
   * character does not recur in it (so occurrences cannot overlap), every
   * occurrence of the pattern in the input is replaced in place.
   */
  lemma {:induction false} ReplaceAllRewritesOccurrences(s: string, pat: string, rep: string)
    requires |pat| > 0 && |rep| == |pat|
    requires forall k :: 0 < k < |pat| ==> pat[k] != pat[0]
    ensures forall j :: OccursAt(s, pat, j) ==> ReplaceAll(s, pat, rep)[j..j + |pat|] == rep
    decreases |s|
  {
    if |s| >= |pat| {
      var r := ReplaceAll(s, pat, rep);
      var matched := s[..|pat|] == pat;
      var n := if matched then |pat| else 1;
      var rest := s[n..];
      ReplaceAllRewritesOccurrences(rest, pat, rep);
      var head := if matched then rep else [s[0]];
      assert r == head + ReplaceAll(rest, pat, rep) && |head| == n;
      NoOverlapAtStart(s, pat);
      forall j | OccursAt(s, pat, j) ensures r[j..j + |pat|] == rep {
        // below `n` only an occurrence at 0 after a match is possible
        if j >= n {
          OccursInSuffix(s, pat, n, j - n);
          SliceAfterPrefix(head, ReplaceAll(rest, pat, rep), j, |pat|);
        } else if j == 0 && matched {
          assert r[..|pat|] == head;
        }
      }
    }
  }

  /** A slice that lies after a prefix is a slice of what follows it. */
  lemma SliceAfterPrefix(head: string, tail: string, j: int, m: nat)
    requires |head| <= j && j + m <= |head| + |tail|
    ensures (head + tail)[j..j + m] == tail[j - |head|..j - |head| + m]
  {
    var whole := (head + tail)[j..j + m];
    var part := tail[j - |head|..j - |head| + m];
    assert |whole| == |part|;
    forall k | 0 <= k < m ensures whole[k] == part[k] {
      assert whole[k] == (head + tail)[j + k];
    }
  }

  /** The pattern and replacement of the query-string rewrite. */
  lemma RequestRewriteFacts()
    ensures |"REQUEST"| == |"request"| == 7
    ensures forall k :: 0 < k < |"REQUEST"| ==> "REQUEST"[k] != "REQUEST"[0]
    ensures forall i :: 0 <= i < |"REQUEST"| ==> "request"[i] == LowerAscii("REQUEST"[i])
    ensures forall c :: c in "request" ==> c !in "REQUEST"
  {
  }

  /** An occurrence in a suffix is an occurrence in the whole string, shifted. */
  lemma OccursInSuffix(s: string, pat: string, n: nat, j: int)
    requires n <= |s|
    ensures OccursAt(s[n..], pat, j) ==> OccursAt(s, pat, j + n)
    ensures 0 <= j && OccursAt(s, pat, j + n) ==> OccursAt(s[n..], pat, j)
  {
    if 0 <= j && j + |pat| <= |s| - n {
      assert s[n..][j..j + |pat|] == s[j + n..j + n + |pat|];
    }
  }

  /** With a replacement as long as the pattern, a character no occurrence covers is copied unchanged. */
  lemma {:induction false} ReplaceAllKeepsUncovered(s: string, pat: string, rep: string)
    requires |pat| > 0 && |rep| == |pat|
    ensures forall i :: 0 <= i < |s| && (forall j :: j <= i < j + |pat| ==> !OccursAt(s, pat, j)) ==>
      ReplaceAll(s, pat, rep)[i] == s[i]
    decreases |s|
  {
    if |s| >= |pat| {
      var r := ReplaceAll(s, pat, rep);
      var matched := s[..|pat|] == pat;
      var n := if matched then |pat| else 1;
      var rest := s[n..];
      ReplaceAllKeepsUncovered(rest, pat, rep);
      var head := if matched then rep else [s[0]];
      assert r == head + ReplaceAll(rest, pat, rep) && |head| == n;
      assert matched ==> OccursAt(s, pat, 0);
      forall i | 0 <= i < |s| && (forall j :: j <= i < j + |pat| ==> !OccursAt(s, pat, j))
        ensures r[i] == s[i]
      {
        // below `n` only position 0 of an unmatched start is uncovered, and it is copied
        if i >= n {
          forall j | j <= i - n < j + |pat| ensures !OccursAt(rest, pat, j) {
            OccursInSuffix(s, pat, n, j);
            assert !OccursAt(s, pat, j + n);
          }
          assert r[i] == ReplaceAll(rest, pat, rep)[i - n] && s[i] == rest[i - n];
        }
      }
    }
  }

  /**
   * The handler's rewrite of the raw query string: every `REQUEST` becomes
   * `request` and every other character is kept, so no `REQUEST` remains.
   */
  function NormalizeQueryString(query: string): (r: string)
    ensures |r| == |query|
    ensures forall j :: OccursAt(query, "REQUEST", j) ==> r[j..j + 7] == "request"
    ensures forall i :: 0 <= i < |query| && (forall j :: j <= i < j + 7 ==> !OccursAt(query, "REQUEST", j)) ==> r[i] == query[i]
    ensures forall i :: !OccursAt(r, "REQUEST", i)
    ensures forall i :: 0 <= i < |query| ==> r[i] == query[i] || r[i] == LowerAscii(query[i])
    ensures (forall i :: !OccursAt(query, "REQUEST", i)) ==> r == query
  {
    var r := ReplaceAll(query, "REQUEST", "request");
    RequestRewriteFacts();
    ReplaceAllRewritesOccurrences(query, "REQUEST", "request");
    ReplaceAllKeepsUncovered(query, "REQUEST", "request");
    ReplaceAllLowersInPlace(query, "REQUEST", "request");
    ReplaceAllLeavesNoOccurrence(query, "REQUEST", "request");
    ReplaceAllWithoutOccurrence(query, "REQUEST", "request");
    r
  }
}
