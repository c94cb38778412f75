/**
 * Initialization of the raster-vector join operator: a fixed chain of
 * validation checks, then initialization of the vector source and of every
 * raster source.  Sources are abstract: `initVector` and `initRaster` stand
 * for their own (possibly failing) `initialize`.
 */
module RasterVectorJoin {
  import opened Wrappers
  import opened Primitives

  const MAX_NUMBER_OF_RASTER_INPUTS: nat := 8

  datatype VectorDataType = Data | MultiPoint | MultiLineString | MultiPolygon

  datatype FeatureDataType = Categorical | Decimal | Number | Text

  datatype VectorResultDescriptor = VectorResultDescriptor(
    dataType: VectorDataType,
    spatialReference: Option<SpatialReference>,
    columns: map<string, FeatureDataType>)

  /** A half-open range `start..end`, as the errors report expected counts. */
  datatype Range = Range(start: nat, end: nat)

  datatype OperatorError =
    | InvalidNumberOfVectorInputs(expected: Range, found: nat)
    | InvalidNumberOfRasterInputs(expected: Range, found: nat)
    | InvalidOperatorSpec(reason: string)
    | InvalidType(expectedType: string, foundType: string)
      /** any error raised by a source operator's own initialization */
    | SourceError(code: nat)

  /** `RasterVectorJoinParams`: one output column name per raster source. */
  datatype RasterVectorJoinParams = RasterVectorJoinParams(names: seq<string>)

  /** The operator before initialization, owning its sources. */
  datatype RasterVectorJoin<R, V> = RasterVectorJoin(
    params: RasterVectorJoinParams,
    rasterSources: seq<R>,
    vectorSources: seq<V>)

  /** An initialized vector source with the descriptor it reports. */
  datatype InitializedVectorSource<IV> = InitializedVectorSource(source: IV, resultDescriptor: VectorResultDescriptor)

  datatype InitializedRasterVectorJoin<IR, IV> = InitializedRasterVectorJoin(
    params: RasterVectorJoinParams,
    rasterSources: seq<IR>,
    vectorSources: seq<InitializedVectorSource<IV>>,
    resultDescriptor: VectorResultDescriptor)

  const SPEC_REASON: string := "`raster_sources` must be of equal length as `names`"
  const GEOMETRY_TYPES: string := "MultiPoint, MultiLineString or MultiPolygon"

  /**
   * `map(initialize).collect::<Result<Vec<_>>>()`: initializes the sources in
   * order and stops at the first error, which it returns unchanged.
   */
  function InitializeAll<R, IR>(sources: seq<R>, initRaster: R -> Result<IR, OperatorError>): (r: Result<seq<IR>, OperatorError>)
    ensures r.Ok? <==> forall i :: 0 <= i < |sources| ==> initRaster(sources[i]).Ok?
    ensures r.Ok? ==>
      && |r.value| == |sources|
      && forall i :: 0 <= i < |sources| ==> r.value[i] == initRaster(sources[i]).value
    ensures r.Err? ==>
      exists i :: && 0 <= i < |sources|
                  && initRaster(sources[i]) == Err(r.error)
                  && forall j :: 0 <= j < i ==> initRaster(sources[j]).Ok?
    decreases |sources|
  {
    if |sources| == 0 then Ok([])
    else
      match initRaster(sources[0])
      case Err(e) => Err(e)
      case Ok(first) =>
        match InitializeAll(sources[1..], initRaster)
        case Err(e) => Err(e)
        case Ok(rest) => Ok([first] + rest)
  }

  /** The raster-count guard as written: `!is_empty() || len > MAX` rejects only zero sources. */
  predicate RasterCountAccepted(n: nat)
  {
    !(n == 0) || n > MAX_NUMBER_OF_RASTER_INPUTS
  }

  /** The raster-count guard its error message describes: 1 to 8 sources. */
  predicate RasterCountAcceptedIntended(n: nat)
  {
    1 <= n <= MAX_NUMBER_OF_RASTER_INPUTS
  }

  /** The initialization chain, with the raster-count guard as a parameter. */
  function InitializeWithGuard<R, V, IR, IV>(
    accepted: nat -> bool,
    op: RasterVectorJoin<R, V>,
    initVector: V -> Result<InitializedVectorSource<IV>, OperatorError>,
    initRaster: R -> Result<IR, OperatorError>): (r: Result<InitializedRasterVectorJoin<IR, IV>, OperatorError>)
    ensures |op.vectorSources| != 1 ==> r == Err(InvalidNumberOfVectorInputs(Range(1, 2), |op.vectorSources|))
    ensures |op.vectorSources| == 1 && !accepted(|op.rasterSources|) ==>
      r == Err(InvalidNumberOfRasterInputs(Range(1, MAX_NUMBER_OF_RASTER_INPUTS), |op.rasterSources|))
    ensures |op.vectorSources| == 1 && accepted(|op.rasterSources|) && |op.rasterSources| != |op.params.names| ==>
      r == Err(InvalidOperatorSpec(SPEC_REASON))
    ensures |op.vectorSources| == 1 && accepted(|op.rasterSources|) && |op.rasterSources| == |op.params.names| ==>
      (initVector(op.vectorSources[0]).Err? ==> r == Err(initVector(op.vectorSources[0]).error))
    ensures |op.vectorSources| == 1 && accepted(|op.rasterSources|) && |op.rasterSources| == |op.params.names| ==>
      (initVector(op.vectorSources[0]).Ok? && initVector(op.vectorSources[0]).value.resultDescriptor.dataType == Data ==>
        r == Err(InvalidType(GEOMETRY_TYPES, "Data")))
    ensures r.Ok? ==>
      && r.value.params == op.params
      && r.value.vectorSources == [initVector(op.vectorSources[0]).value]
      && r.value.resultDescriptor == initVector(op.vectorSources[0]).value.resultDescriptor
      && r.value.resultDescriptor.dataType != Data
      && |r.value.rasterSources| == |op.rasterSources|
      && forall i :: 0 <= i < |op.rasterSources| ==>
           initRaster(op.rasterSources[i]).Ok? && r.value.rasterSources[i] == initRaster(op.rasterSources[i]).value
  {
    if |op.vectorSources| != 1 then
      Err(InvalidNumberOfVectorInputs(Range(1, 2), |op.vectorSources|))
    else if !accepted(|op.rasterSources|) then
      Err(InvalidNumberOfRasterInputs(Range(1, MAX_NUMBER_OF_RASTER_INPUTS), |op.rasterSources|))
    else if |op.rasterSources| != |op.params.names| then
      Err(InvalidOperatorSpec(SPEC_REASON))
    else
      match initVector(op.vectorSources[0])
      case Err(e) => Err(e)
      case Ok(vectorSource) =>
        if vectorSource.resultDescriptor.dataType == Data then
          Err(InvalidType(GEOMETRY_TYPES, "Data"))
        else
          match InitializeAll(op.rasterSources, initRaster)
          case Err(e) => Err(e)
          case Ok(rasterSources) =>
            Ok(InitializedRasterVectorJoin(op.params, rasterSources, [vectorSource], vectorSource.resultDescriptor))
  }

  /** `RasterVectorJoin::initialize`, with the raster-count guard as written. */
  function Initialize<R, V, IR, IV>(
    op: RasterVectorJoin<R, V>,
    initVector: V -> Result<InitializedVectorSource<IV>, OperatorError>,
    initRaster: R -> Result<IR, OperatorError>): (r: Result<InitializedRasterVectorJoin<IR, IV>, OperatorError>)
    ensures |op.vectorSources| == 1 && |op.rasterSources| == 0 ==>
      r == Err(InvalidNumberOfRasterInputs(Range(1, MAX_NUMBER_OF_RASTER_INPUTS), 0))
    ensures r.Ok? ==> |op.vectorSources| == 1 && 1 <= |op.rasterSources| == |op.params.names|
  {
    InitializeWithGuard(RasterCountAccepted, op, initVector, initRaster)
  }

  /** Initialization with the raster-count guard corrected to 1..=8. */
  function InitializeIntended<R, V, IR, IV>(
    op: RasterVectorJoin<R, V>,
    initVector: V -> Result<InitializedVectorSource<IV>, OperatorError>,
    initRaster: R -> Result<IR, OperatorError>): Result<InitializedRasterVectorJoin<IR, IV>, OperatorError>
  {
    InitializeWithGuard(RasterCountAcceptedIntended, op, initVector, initRaster)
  }

  // ----- properties -----

  /**
   * Initialization succeeds exactly when: one vector source, a non-empty list
   * of raster sources (of any length), one name per raster source, the vector
   * source initializes to a geometry type, and every raster source initializes.
   */
  lemma InitializeSucceedsIff<R, V, IR, IV>(
    op: RasterVectorJoin<R, V>,
    initVector: V -> Result<InitializedVectorSource<IV>, OperatorError>,
    initRaster: R -> Result<IR, OperatorError>)
    ensures Initialize(op, initVector, initRaster).Ok? <==>
      && |op.vectorSources| == 1
      && |op.rasterSources| > 0
      && |op.params.names| == |op.rasterSources|
      && initVector(op.vectorSources[0]).Ok?
      && initVector(op.vectorSources[0]).value.resultDescriptor.dataType != Data
      && forall i :: 0 <= i < |op.rasterSources| ==> initRaster(op.rasterSources[i]).Ok?
  {
  }

  /**
   * The vector source is initialized first: if it fails, or reports `Data`,
   * the outcome does not depend on the raster sources at all (they are never
   * initialized), and a vector error comes back unchanged.
   */
  lemma VectorSourceDecidesFirst<R, V, IR, IV>(
    op: RasterVectorJoin<R, V>,
    initVector: V -> Result<InitializedVectorSource<IV>, OperatorError>,
    initRaster1: R -> Result<IR, OperatorError>,
    initRaster2: R -> Result<IR, OperatorError>)
    requires |op.vectorSources| == 1
    requires initVector(op.vectorSources[0]).Err? ||
             initVector(op.vectorSources[0]).value.resultDescriptor.dataType == Data
    ensures Initialize(op, initVector, initRaster1) == Initialize(op, initVector, initRaster2)
    ensures Initialize(op, initVector, initRaster1).Err?
    ensures (&& RasterCountAccepted(|op.rasterSources|)
             && |op.rasterSources| == |op.params.names|
             && initVector(op.vectorSources[0]).Err?) ==>
      Initialize(op, initVector, initRaster1) == Err(initVector(op.vectorSources[0]).error)
  {
  }

  /** Any raster source's error aborts the whole initialization with the first such error. */
  lemma RasterErrorAborts<R, V, IR, IV>(
    op: RasterVectorJoin<R, V>,
    initVector: V -> Result<InitializedVectorSource<IV>, OperatorError>,
    initRaster: R -> Result<IR, OperatorError>,
    k: nat)
    requires |op.vectorSources| == 1 && 0 < |op.rasterSources| == |op.params.names|
    requires initVector(op.vectorSources[0]).Ok? && initVector(op.vectorSources[0]).value.resultDescriptor.dataType != Data
    requires k < |op.rasterSources| && initRaster(op.rasterSources[k]).Err?
    requires forall j :: 0 <= j < k ==> initRaster(op.rasterSources[j]).Ok?
    ensures Initialize(op, initVector, initRaster) == Err(initRaster(op.rasterSources[k]).error)
  {
    var r := InitializeAll(op.rasterSources, initRaster);
    assert r.Err?;
    var i :| 0 <= i < |op.rasterSources| && initRaster(op.rasterSources[i]) == Err(r.error) &&
      forall j :: 0 <= j < i ==> initRaster(op.rasterSources[j]).Ok?;
    assert i == k;
  }

  /** As written, nine raster sources pass the count guard (and initialize when all else is fine). */
  lemma NineRasterSourcesAccepted<R, V, IR, IV>(
    op: RasterVectorJoin<R, V>,
    initVector: V -> Result<InitializedVectorSource<IV>, OperatorError>,
    initRaster: R -> Result<IR, OperatorError>)
    requires |op.vectorSources| == 1 && |op.rasterSources| == 9 && |op.params.names| == 9
    requires initVector(op.vectorSources[0]).Ok? && initVector(op.vectorSources[0]).value.resultDescriptor.dataType != Data
    requires forall i :: 0 <= i < 9 ==> initRaster(op.rasterSources[i]).Ok?
    ensures RasterCountAccepted(9)
    ensures Initialize(op, initVector, initRaster).Ok?
    ensures |Initialize(op, initVector, initRaster).value.rasterSources| == 9
  {
  }

  /** With the intended guard, a count outside 1..=8 is rejected with `InvalidNumberOfRasterInputs`. */
  lemma IntendedGuardRejectsOutOfRange<R, V, IR, IV>(
    op: RasterVectorJoin<R, V>,
    initVector: V -> Result<InitializedVectorSource<IV>, OperatorError>,
    initRaster: R -> Result<IR, OperatorError>)
    requires |op.vectorSources| == 1
    ensures InitializeIntended(op, initVector, initRaster).Ok? ==> 1 <= |op.rasterSources| <= MAX_NUMBER_OF_RASTER_INPUTS
    ensures (|op.rasterSources| == 0 || |op.rasterSources| > MAX_NUMBER_OF_RASTER_INPUTS) ==>
      InitializeIntended(op, initVector, initRaster) ==
        Err(InvalidNumberOfRasterInputs(Range(1, MAX_NUMBER_OF_RASTER_INPUTS), |op.rasterSources|))
  {
  }
}
