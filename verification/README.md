# Geo Engine core, modelled in Dafny

This project models four pieces of the Geo Engine geodata processing
backend, written in Rust, and proves properties of them:

- **The no-data grid** (`RasterGrids`, `no_data_grid.dfy`). A raster grid
  has no storage: it is an extent (a zero-based shape or a signed bounding
  box) plus one sentinel value. Every in-bounds index reads the sentinel. An
  out-of-bounds index gives a structured `GridIndexOutOfBounds` error.
  Converting it into a dense, row-major grid yields a grid that answers
  every checked read the same way.
- **Raster-vector join initialization** (`RasterVectorJoin`,
  `raster_vector_join.dfy`). These are the ordered validation guards of
  `RasterVectorJoin::initialize`, then the initialization of the vector
  source and the raster sources.
- **The Sentinel-2 L2A COG provider** (`SentinelS2L2aCogs`,
  `sentinel_s2_l2a_cogs.dfy`, with `Sorting` in `sorting.dfy`). It covers:
  - the dataset table, one entry per (zone, band);
  - the listing sorted by name;
  - metadata lookup;
  - the catalog request window and the catalog paging;
  - resolving catalog features into GDAL loading parts. Features are
    filtered to the zone and sorted in place by time. Each feature is valid
    from its own time until the next feature's time; the last one is valid
    for one second. A part is emitted for each validity interval that meets
    the query.
- **WCS handler decisions** (`Wcs`, `wcs.dfy`). These are:
  - the ordered GetCoverage checks;
  - putting a `Reprojection` in front exactly when the request CRS differs
    from the workflow CRS;
  - the default query time;
  - the GeoTIFF pixel-type dispatch;
  - the DescribeCoverage axis order;
  - the `REQUEST` → `request` query-string rewrite.

Shared values are in `primitives.dfy`: time intervals in integer
milliseconds, spatial references, pixel types and result descriptors.
`Option` and `Result` are in `wrappers.dfy`.

Several inputs come from outside the modelled code, so the model takes them
as parameters:
- the catalog HTTP endpoint (`fetch`, `catalog`);
- the clock (`now`);
- `chrono`'s range of representable instants (`representable`);
- `TimeInterval::intersects` (`intersects`);
- operator initialization, the workflow registry and the query processor
  (the WCS context values);
- `GridOrigin::coordinate`, `spatial_partition` and `area_of_use_projected`.

The provider's `list` and `create_loading_info` are modelled as imperative
methods. Each sorts an `array` in place (`Sorting.SortInPlace`, an insertion
sort proved equal to the functional `Sorting.SortBy`). The walk over the
sorted features and the page loop are loops with invariants. The page loop,
the feature walk and `create_loading_info` are proved equal to
specification functions, and the properties are proved about those
functions. `list` and the collection of its listings state their result
directly: sorted by name, one listing per dataset, and each dataset's
listing present.

`set_grid_bounds` always returns `Ok` (`no_data_grid.rs:163-165`), whatever
the bounds.

## Model

| member | source | states |
|---|---|---|
| RasterGrids.New | datatypes/src/raster/no_data_grid.rs:34-40 | the grid has the given extent and reports the given sentinel as its no-data value |
| RasterGrids.ConvertDtype | datatypes/src/raster/no_data_grid.rs:42-48 | the converted grid keeps the extent and reports the cast sentinel as its no-data value |
| RasterGrids.GridAxisSize | datatypes/src/raster/no_data_grid.rs:59-61 | one size per axis, each the number of indices from the minimum to the maximum index, inclusive |
| RasterGrids.GridNumberOfElements | datatypes/src/raster/no_data_grid.rs:63-65 | the element count is the product of the axis sizes |
| RasterGrids.GetAtGridIndexUnchecked | datatypes/src/raster/no_data_grid.rs:88-90 | any index, even out of bounds, reads the no-data value |
| RasterGrids.GetAtGridIndex | datatypes/src/raster/no_data_grid.rs:75-86 | the read succeeds iff every coordinate lies between min and max index; the value is the sentinel, the same as the unchecked read; the error carries the index and both bounds |
| RasterGrids.GridMinIndex | datatypes/src/raster/no_data_grid.rs:99-101 | one index per axis: all zero for a shape, the box's minimum for a bounding box |
| RasterGrids.GridMaxIndex | datatypes/src/raster/no_data_grid.rs:103-105 | one index per axis: the axis size minus one for a shape, the box's maximum for a bounding box |
| RasterGrids.NoDataValue | datatypes/src/raster/no_data_grid.rs:141-143 | the no-data value is always present and is the sentinel |
| RasterGrids.ConvertDtypeCommutesWithReads | datatypes/src/raster/no_data_grid.rs:42-48 | converting the pixel type keeps the extent, casts the sentinel, and commutes with every checked read |
| RasterGrids.ShiftByOffset | datatypes/src/raster/no_data_grid.rs:156-161 | the shifted grid has a well-formed bounding box with the same number of axes, its min and max index are the old ones plus the offset, and the sentinel is kept |
| RasterGrids.ShiftTranslatesReads | datatypes/src/raster/no_data_grid.rs:156-161 | shifting keeps axis sizes and sentinel; `idx + offset` is in bounds after the shift iff `idx` was before |
| RasterGrids.SetGridBounds | datatypes/src/raster/no_data_grid.rs:163-165 | re-basing never fails |
| RasterGrids.SetGridBoundsAdoptsBounds | datatypes/src/raster/no_data_grid.rs:163-165 | the result has exactly the given min and max index and the old sentinel; reads are in bounds iff within the new bounds |
| RasterGrids.ToGrid | datatypes/src/raster/no_data_grid.rs:121-133 | the dense grid keeps the extent, has the sentinel as its no-data value, and has one cell per element, each holding the sentinel |
| RasterGrids.DenseGridIndistinguishable | datatypes/src/raster/no_data_grid.rs:121-133 | the dense grid's checked read equals the no-data grid's for every index |
| RasterGrids.TwoByTwoExample | datatypes/src/raster/no_data_grid.rs:172-223 | the unit tests: 2×2 grid with 42; axis sizes `[2, 2]`; 4 elements; `[0,0]` reads 42 and `[100,100]` fails; unchecked `[100,100]` reads 42; conversion gives 42.0 |
| RasterVectorJoin.InitializeAll | operators/src/processing/raster_vector_join/mod.rs:74-78 | collecting the raster initializations succeeds iff every source succeeds; values in source order; otherwise the first failing source's error |
| RasterVectorJoin.InitializeWithGuard | operators/src/processing/raster_vector_join/mod.rs:27-84 | the checks in order: one vector source, the raster-count guard, one name per raster, the vector source, its type not `Data` (else `InvalidType` naming the geometry types), then all rasters; on success the vector source's descriptor is the result descriptor |
| RasterVectorJoin.Initialize | operators/src/processing/raster_vector_join/mod.rs:27-84 | as written: one vector source and no raster source gives `InvalidNumberOfRasterInputs(1..8, 0)` (the half-open range of the source); success needs one vector source and at least one raster source, as many as names |
| RasterVectorJoin.InitializeSucceedsIff | operators/src/processing/raster_vector_join/mod.rs:27-84 | as written, initialization succeeds iff: exactly one vector source; at least one raster source, of any number; as many names as rasters; the vector source initializes to a non-`Data` type; and every raster initializes |
| RasterVectorJoin.VectorSourceDecidesFirst | operators/src/processing/raster_vector_join/mod.rs:53-67 | a failing or `Data` vector source decides the outcome independently of the raster sources, and its error is returned unchanged |
| RasterVectorJoin.RasterErrorAborts | operators/src/processing/raster_vector_join/mod.rs:72-84 | the first failing raster source's error is the result |
| RasterVectorJoin.NineRasterSourcesAccepted | operators/src/processing/raster_vector_join/mod.rs:39-45 | as written, nine raster sources pass the count guard and initialize |
| RasterVectorJoin.IntendedGuardRejectsOutOfRange | operators/src/processing/raster_vector_join/mod.rs:39-45 | with the corrected guard, success implies 1 ≤ rasters ≤ 8, and 0 or more than 8 rasters give `InvalidNumberOfRasterInputs(1..8, n)` |
| Sorting.SortInPlace | services/src/pro/datasets/external/sentinel_s2_l2a_cogs.rs:259 | sorting the array in place leaves exactly `SortBy` of its old contents |
| Sorting.SortByPermutes | services/src/pro/datasets/external/sentinel_s2_l2a_cogs.rs:259 | the sorted sequence is a permutation of the input |
| Sorting.SortBySorted | services/src/pro/datasets/external/sentinel_s2_l2a_cogs.rs:259 | under a total preorder the result is sorted by the key order |
| SentinelS2L2aCogs.LoadMetadata | services/src/pro/datasets/external/sentinel_s2_l2a_cogs.rs:127-143 | six bands and two zones; band names distinct, zone names and EPSG codes distinct; every band has no-data value 0 |
| SentinelS2L2aCogs.DatasetEntries | services/src/pro/datasets/external/sentinel_s2_l2a_cogs.rs:150-202 | the `flat_map` yields the entry of every (zone, band) pair and nothing else |
| SentinelS2L2aCogs.CollectMap | services/src/pro/datasets/external/sentinel_s2_l2a_cogs.rs:203 | collecting into a map keeps every key and maps each key only to a value it was paired with |
| SentinelS2L2aCogs.CreateDatasets | services/src/pro/datasets/external/sentinel_s2_l2a_cogs.rs:145-204 | every zone and band has the dataset `"zone:band"`; every dataset is the entry of some zone and band of the metadata |
| SentinelS2L2aCogs.NewProvider | services/src/pro/datasets/external/sentinel_s2_l2a_cogs.rs:119-125 | the provider keeps the API URL; it has a dataset `"zone:band"` for every fixed zone and band; every dataset's id is the name of its own zone and band, both from the fixed metadata |
| SentinelS2L2aCogs.MetaData | services/src/pro/datasets/external/sentinel_s2_l2a_cogs.rs:484-502 | the lookup fails with `UnknownDatasetId` iff the id is unknown, and otherwise returns that dataset's zone and band and the provider's API URL |
| SentinelS2L2aCogs.ResultDescriptor | services/src/pro/datasets/external/sentinel_s2_l2a_cogs.rs:460-471 | the descriptor has the band's data type and no-data value, the zone's EPSG code as spatial reference, and a unitless measurement |
| SentinelS2L2aCogs.MetaDataMatchesListing | services/src/pro/datasets/external/sentinel_s2_l2a_cogs.rs:460-471 | for every dataset of a new provider: the lookup succeeds; the id is `"zone:band"` of the zone and band it resolves to; the result descriptor equals the one in the listing, referenced to the zone's EPSG code |
| SentinelS2L2aCogs.NameLeTotalPreorder | services/src/pro/datasets/external/sentinel_s2_l2a_cogs.rs:213 | ordering listings by name is total and transitive |
| SentinelS2L2aCogs.CollectListings | services/src/pro/datasets/external/sentinel_s2_l2a_cogs.rs:211-212 | one listing per dataset, every dataset's listing present and nothing else |
| SentinelS2L2aCogs.List | services/src/pro/datasets/external/sentinel_s2_l2a_cogs.rs:209-215 | the listings are sorted by name; there is one per dataset; every dataset's listing is present and nothing else |
| SentinelS2L2aCogs.TimeRangeRequest | services/src/pro/datasets/external/sentinel_s2_l2a_cogs.rs:417-440 | the window is `[start − 1 min, end]`; it fails with `DataType(NoDateTimeValid)` of the start if the start is unrepresentable, else of the end if the end is |
| SentinelS2L2aCogs.NumPages | services/src/pro/datasets/external/sentinel_s2_l2a_cogs.rs:382-383 | the page count is the ceiling of matched/limit, saturated at `u32::MAX`; limit 0 gives 0 (NaN) or `u32::MAX` (infinity) |
| SentinelS2L2aCogs.PagesFrom | services/src/pro/datasets/external/sentinel_s2_l2a_cogs.rs:385-388 | an empty page range gives no features; fetching a page range succeeds iff every page in it succeeds; a failure is the first failing page's error |
| SentinelS2L2aCogs.PagesFromOnePage | services/src/pro/datasets/external/sentinel_s2_l2a_cogs.rs:385-388 | one page yields exactly that page's features, or its error |
| SentinelS2L2aCogs.PagesFromSplits | services/src/pro/datasets/external/sentinel_s2_l2a_cogs.rs:385-388 | the features of pages `a..=c` are those of `a..=b` followed by those of `b+1..=c`, and an error in the first part wins |
| SentinelS2L2aCogs.AllFeatures | services/src/pro/datasets/external/sentinel_s2_l2a_cogs.rs:373-391 | an error on page 1 is returned; otherwise the result is the features of pages `1..=max(1, n)` in order, with `n` computed from page 1 |
| SentinelS2L2aCogs.LoadAllFeatures | services/src/pro/datasets/external/sentinel_s2_l2a_cogs.rs:373-391 | the loop returns `AllFeatures`: page 1, then pages 2..=n in order, stopping at the first error |
| SentinelS2L2aCogs.AllFeaturesRequestsPagesOneToN | services/src/pro/datasets/external/sentinel_s2_l2a_cogs.rs:379-388 | only pages 1..=n are read: catalogs agreeing on them give the same result |
| SentinelS2L2aCogs.FilterZone | services/src/pro/datasets/external/sentinel_s2_l2a_cogs.rs:250-257 | each feature of the zone is kept as many times as it occurs, and no other feature is kept |
| SentinelS2L2aCogs.ZoneFeaturesByTime | services/src/pro/datasets/external/sentinel_s2_l2a_cogs.rs:250-259 | the zone's features, as a permutation, in ascending datetime order |
| SentinelS2L2aCogs.Validity | services/src/pro/datasets/external/sentinel_s2_l2a_cogs.rs:265-275 | for time-sorted features the interval starts at the feature's time, ends at the next feature's time (the last one lasts one second), and `TimeInterval::new` accepts it |
| SentinelS2L2aCogs.CreateLoadingInfoPart | services/src/pro/datasets/external/sentinel_s2_l2a_cogs.rs:307-332 | a missing shape gives `StacInvalidBbox`, then a missing geo-transform gives `StacInvalidGeoTransform`; otherwise the part has the given time, path `/vsicurl/` + href, channel 1, width x and height y of the shape, NoData handling and the band's no-data value |
| SentinelS2L2aCogs.ResolveSorted | services/src/pro/datasets/external/sentinel_s2_l2a_cogs.rs:261-297 | the feature loop with early error returns equals the resolution `Resolve` |
| SentinelS2L2aCogs.CreateLoadingInfo | services/src/pro/datasets/external/sentinel_s2_l2a_cogs.rs:250-303 | filtering, the in-place sort and the loop together equal `Resolve` of the zone's features sorted by time |
| SentinelS2L2aCogs.LoadingInfoOf | services/src/pro/datasets/external/sentinel_s2_l2a_cogs.rs:243-250 | an error of the request window comes first, then a catalog error; a success needs both instants representable, a successful search of `[start − 1 min, end]`, and all pages loaded |
| SentinelS2L2aCogs.LoadingInfo | services/src/pro/datasets/external/sentinel_s2_l2a_cogs.rs:243-250 | request window, then all pages, then resolution, each error passed through in that order |
| SentinelS2L2aCogs.ResolveSucceedsIff | services/src/pro/datasets/external/sentinel_s2_l2a_cogs.rs:261-297 | for sorted features, resolution succeeds iff every feature whose interval meets the query yields a part; features outside the query never cause errors |
| SentinelS2L2aCogs.Intersecting | services/src/pro/datasets/external/sentinel_s2_l2a_cogs.rs:261-276 | the indices of exactly the features whose validity meets the query, strictly ascending |
| SentinelS2L2aCogs.ResolvedPartsAreSound | services/src/pro/datasets/external/sentinel_s2_l2a_cogs.rs:277-296 | the parts are, one for one and in order, the parts of the intersecting features, each timed by that feature's validity |
| SentinelS2L2aCogs.ResolvedPartsAreComplete | services/src/pro/datasets/external/sentinel_s2_l2a_cogs.rs:277-296 | every feature whose validity meets the query contributes its part |
| SentinelS2L2aCogs.ResolvedPartsAscending | services/src/pro/datasets/external/sentinel_s2_l2a_cogs.rs:261-297 | the parts' intervals are well-formed, ascending and do not overlap |
| SentinelS2L2aCogs.ResolveFailsAtFirstBadFeature | services/src/pro/datasets/external/sentinel_s2_l2a_cogs.rs:283-296 | a failure is the error of the first intersecting feature without a part; it is `StacNoSuchBand` when the band asset is missing |
| SentinelS2L2aCogs.ResolvedPartsMeetQuery | services/src/pro/datasets/external/sentinel_s2_l2a_cogs.rs:277-296 | every part's interval meets the query, carries the band's no-data value, and the parts ascend |
| SentinelS2L2aCogs.LoadingInfoPartsMeetQuery | services/src/pro/datasets/external/sentinel_s2_l2a_cogs.rs:243-304 | for any catalog, a successful `loading_info` gives ascending, non-overlapping parts that meet the query and carry the band's no-data value |
| SentinelS2L2aCogs.SingleFeatureResolves | services/src/pro/datasets/external/sentinel_s2_l2a_cogs.rs:261-297 | one feature whose one-second validity meets the query resolves to exactly its part |
| SentinelS2L2aCogs.OtherZoneDropped | services/src/pro/datasets/external/sentinel_s2_l2a_cogs.rs:250-259 | a feature of another zone is dropped |
| SentinelS2L2aCogs.LoadingInfoScenario | services/src/pro/datasets/external/sentinel_s2_l2a_cogs.rs:555-623 | the unit test: the UTM32N B01 feature at 1609581746000 gives the single part `[t, t+1 s)`, with the `/vsicurl/` path, 1830×1830, its geo-transform and no-data 0 |
| Wcs.WithReprojection | services/src/handlers/wcs.rs:299-315 | the operator is unchanged iff the CRSs agree, otherwise it is a `Reprojection` to the request CRS over it |
| Wcs.InitializeForRequestCrs | services/src/handlers/wcs.rs:299-315 | same CRS: the initialized workflow and its descriptor are reused; otherwise the reprojection to the request CRS is initialized, and its descriptor or its error is the result |
| Wcs.QueryTime | services/src/handlers/wcs.rs:332-337 | the requested time, or the instant `[now, now]` |
| Wcs.DefaultResolution | services/src/handlers/wcs.rs:321-330 | the fallback resolution is the partition's extent divided by 256 per axis |
| Wcs.ResolutionFor | services/src/handlers/wcs.rs:321-330 | a requested resolution or its parse error is used; otherwise the fallback |
| Wcs.PrepareCoverage | services/src/handlers/wcs.rs:254-341 | an unsupported version fails first with `WcsVersionNotSupported`; on success: the version is supported; a given grid origin equals the partition's upper-left; a given bbox CRS equals the grid base CRS; the result is in the request CRS and its query uses the partition and `QueryTime`; the operator and the no-data value are those of the (possibly reprojected) initialized operator, the pixel type is its query processor's, and the resolution is `ResolutionFor` the request; once the earlier steps succeed, a reprojection error, then a processor error, then a resolution error is returned, and otherwise the result is `Ok` |
| Wcs.Dispatch | services/src/handlers/wcs.rs:343-421 | U8, U16, U32, I16, I32, F32 and F64 pass through unchanged; every other type gives `RasterDataTypeNotSupportByGdal` |
| Wcs.GetCoverage | services/src/handlers/wcs.rs:249-431 | errors before the dispatch pass through; after it, success iff the pixel type is GDAL-supported, else `RasterDataTypeNotSupportByGdal`; on success the encoder gets exactly the prepared operator, pixel type, query, no-data value and spatial reference |
| Wcs.ProcessorTypeDecidesEncoding | services/src/handlers/wcs.rs:319-421 | the encoded pixel type is the query processor's type; the request succeeds iff that type is GDAL-supported, and a `U64`, `I8` or `I64` processor gives `RasterDataTypeNotSupportByGdal` |
| Wcs.VersionCheckedFirst | services/src/handlers/wcs.rs:254-257 | an unsupported version is rejected whatever the collaborators would do |
| Wcs.PreChecksInOrder | services/src/handlers/wcs.rs:259-273 | a grid origin other than the upper-left is rejected; only after it passes, a bbox CRS other than the grid base CRS is rejected |
| Wcs.WorkflowWithoutCrsRejected | services/src/handlers/wcs.rs:292-295 | after the pre-checks, a workflow without a spatial reference gives `InvalidSpatialReference` |
| Wcs.ReprojectionIffCrsDiffers | services/src/handlers/wcs.rs:292-315 | on success the queried operator is the workflow iff its CRS is the request CRS, else its reprojection to the request CRS; the output CRS is the request CRS |
| Wcs.DefaultTimeIsNow | services/src/handlers/wcs.rs:332-339 | without a time the query interval is `[now, now]` |
| Wcs.CoveragePixelTypeSupported | services/src/handlers/wcs.rs:343-421 | a successful coverage never has pixel type U64, I8 or I64 |
| Wcs.AxisOrdered | services/src/handlers/wcs.rs:180-196 | corners are written (y, x) for EPSG:4326 and (x, y) otherwise |
| Wcs.FromAxisOrder | services/src/handlers/wcs.rs:180-196 | reading a written corner back and writing it again is the identity |
| Wcs.DescribeCoverage | services/src/handlers/wcs.rs:148-238 | a missing service URL fails first, then a missing SRS with `MissingSpatialReference`; on success the written corners read back to the area of use, and the grid origin is its upper-left (x, y) |
| Wcs.DescribeWgs84Scenario | services/src/handlers/wcs.rs:524-585 | the unit test: EPSG:4326 gives the box `-90 -180` to `90 180` and the grid origin `-180 90` |
| Wcs.ReplaceAll | services/src/handlers/wcs.rs:36 | a replacement as long as the pattern keeps the length; a string shorter than the pattern is unchanged |
| Wcs.ReplaceAllWithoutOccurrence | services/src/handlers/wcs.rs:36 | a string without the pattern is unchanged |
| Wcs.ReplaceAllLowersInPlace | services/src/handlers/wcs.rs:36 | replacing a pattern by its lower-case form keeps the length, and changes characters only to their lower case |
| Wcs.ReplaceAllLeavesNoOccurrence | services/src/handlers/wcs.rs:36 | when the replacement shares no character with the pattern, the result contains no occurrence |
| Wcs.ReplaceAllRewritesOccurrences | services/src/handlers/wcs.rs:36 | with a replacement as long as a pattern that cannot overlap itself, every occurrence of the pattern is replaced in place |
| Wcs.ReplaceAllKeepsUncovered | services/src/handlers/wcs.rs:36 | with a replacement as long as the pattern, every character that no occurrence covers is kept |
| Wcs.NormalizeQueryString | services/src/handlers/wcs.rs:34-36 | every `REQUEST` becomes `request` in place and every character outside an occurrence is kept; so the length is the same, no `REQUEST` remains, and a query without `REQUEST` is unchanged |

## Left out

- Floating point: pixel sizes, resolutions and coordinates are exact reals. Rounding of `f64` is not modelled, including in the page count (`NumPages` is exact below 2^53).
- Network and serialisation: `load_collection` (HTTP and JSON), the request parameters' bounding-box projection to WGS 84 (`request_params`, `sentinel_s2_l2a_cogs.rs:334-371`, given as the `catalog` argument), warp routing, response building, configuration lookups, the workflow registry, `raster_stream_to_geotiff_bytes`, the tile limit and `query_context`. These are parameters of the model or left out.
- The XML templates of GetCapabilities and DescribeCoverage; only the values filled into DescribeCoverage are modelled.
- `LoadingInfo`: the wrapping of provider errors into the operator error `LoadingInfo { source }` (`sentinel_s2_l2a_cogs.rs:453-457`) is not modelled; errors are returned as the provider's.
- `Sorting.SortBy`: sortedness and permutation are proved; stability of `sort_by_key` is not.
- `SentinelS2L2aCogs.List`: the listing multiset is stated through count and two-way membership, not as a multiset equality.
- `SentinelS2L2aCogs.CreateLoadingInfo`: feature datetimes are integer milliseconds. The one-second and one-minute offsets of `chrono` are additions on them. Overflow of `chrono` arithmetic is not modelled.
- `grid_shape_array` (`no_data_grid.rs:116-118`) returns the axis sizes, as `RasterGrids.GridAxisSize` does.
- The dense `Grid` is modelled only as far as `From<NoDataGrid>` needs it. It is assumed row-major, and `Grid` itself is not part of this model.
- The symbology colorizer of the listings, `provenance`, `load`, the vector and mock `MetaDataProvider` stubs (`sentinel_s2_l2a_cogs.rs:504-539`), and the `todo!()` query processor of the raster-vector join (`mod.rs:93-95`).
- `datatypes/src/operations/image/to_png.rs` and `datatypes/src/plots/area_line_plot.rs` are not part of this model. They are float scaling and a foreign image encoder.

## Findings

| source | as written | input that shows it | evidently intended | confidence | as-written member | corrected member |
|---|---|---|---|---|---|---|
| operators/src/processing/raster_vector_join/mod.rs:39-45 | `!raster_sources.is_empty() \|\| len > MAX_NUMBER_OF_RASTER_INPUTS` accepts every non-empty count | 9 raster sources with 9 names pass the guard and initialize | reject 0 and more than 8 sources with `InvalidNumberOfRasterInputs`; the bound 8 comes from the guard's `len > MAX_NUMBER_OF_RASTER_INPUTS` and the constant's name. The error's `expected: 1..MAX_NUMBER_OF_RASTER_INPUTS` is a half-open range (1 to 7, as `1..2` means exactly one vector source), so it is one short of that bound, and the model keeps it as written | not executed; high, from the `\|\|` whose first disjunct already holds for every non-empty count, and from the bound in the guard and the constant's name | RasterVectorJoin.NineRasterSourcesAccepted | RasterVectorJoin.IntendedGuardRejectsOutOfRange |
