/**
 * The Sentinel-2 L2A COG dataset provider: its table of (zone, band)
 * datasets, the catalog paging, the request time window, and the resolution
 * of catalog features into per-interval GDAL loading parts.
 *
 * Times are integer milliseconds.  The catalog's pages are given by a
 * `fetch` function from page number to response; the time instants that
 * `chrono` can represent by `representable`; the interval intersection test
 * (defined with `TimeInterval`, outside this model) by `intersects`.
 */
module SentinelS2L2aCogs {
  import opened Wrappers
  import opened Primitives
  import Sorting

  // ----- data model -----

  datatype Band = Band(name: string, noDataValue: Option<real>, dataType: RasterDataType)

  /** A UTM zone and the EPSG code of its projection. */
  datatype Zone = Zone(name: string, epsg: nat)

  datatype SentinelMetaData = SentinelMetaData(bands: seq<Band>, zones: seq<Zone>)

  /** `DatasetId`: internal datasets by id, external ones by provider and provider-local name. */
  datatype DatasetId = InternalDatasetId(id: nat) | ExternalDatasetId(providerId: nat, datasetId: string)

  datatype DatasetListing = DatasetListing(
    id: DatasetId,
    name: string,
    description: string,
    tags: seq<string>,
    sourceOperator: string,
    resultDescriptor: RasterResultDescriptor)

  datatype SentinelDataset = SentinelDataset(band: Band, zone: Zone, listing: DatasetListing)

  /** `SentinelS2L2aCogsDataProvider` */
  datatype Provider = Provider(apiUrl: string, datasets: map<DatasetId, SentinelDataset>)

  /** `SentinelS2L2aCogsMetaData`: what one dataset needs to resolve queries. */
  datatype SentinelS2L2aCogsMetaData = SentinelS2L2aCogsMetaData(apiUrl: string, zone: Zone, band: Band)

  datatype GeoTransform = GeoTransform(originX: real, originY: real, xPixelSize: real, yPixelSize: real)

  /**
   * A catalog asset: its URL, its projected shape as (rows, columns), and the
   * GDAL geo-transform the catalog's projection metadata yields, if any.
   */
  datatype StacAsset = StacAsset(href: string, projShape: Option<(nat, nat)>, gdalGeoTransform: Option<GeoTransform>)

  datatype StacFeature = StacFeature(datetime: int, projEpsg: Option<nat>, assets: map<string, StacAsset>)

  datatype StacContext = StacContext(matched: nat, limit: nat)

  datatype StacCollection = StacCollection(features: seq<StacFeature>, context: StacContext)

  datatype FileNotFoundHandling = NoData | Error

  datatype GdalDatasetParameters = GdalDatasetParameters(
    filePath: string,
    rasterbandChannel: nat,
    geoTransform: GeoTransform,
    width: nat,
    height: nat,
    fileNotFoundHandling: FileNotFoundHandling,
    noDataValue: Option<real>)

  datatype GdalLoadingInfoPart = GdalLoadingInfoPart(time: TimeInterval, params: GdalDatasetParameters)

  datatype ProviderError =
    | StacNoSuchBand(bandName: string)
    | StacInvalidBbox
    | StacInvalidGeoTransform
    | DataType(source: TimeError)
    | UnknownDatasetId
      /** a failed catalog request or an unparsable catalog response */
    | CatalogError(url: string, response: string)

  const ONE_MINUTE_MS: int := 60_000
  const LAST_FEATURE_VALIDITY_MS: int := 1_000
  const VSICURL_PREFIX: string := "/vsicurl/"
  const LISTING_NAME_PREFIX: string := "Sentinel S2 L2A COGS "
  const U32_MAX: nat := 0xFFFF_FFFF

  // ----- dataset table -----

  /**
   * `load_metadata`: the fixed bands and zones.  Band names and zone names
   * are distinct, so the `"zone:band"` dataset names do not collide within
   * a zone or a band; every band has no-data value 0.
   */
  function LoadMetadata(): (m: SentinelMetaData)
    ensures |m.bands| == 6 && |m.zones| == 2
    ensures forall i, j :: 0 <= i < j < |m.bands| ==> m.bands[i].name != m.bands[j].name
    ensures forall i, j :: 0 <= i < j < |m.zones| ==> m.zones[i].name != m.zones[j].name && m.zones[i].epsg != m.zones[j].epsg
    ensures forall b :: b in m.bands ==> b.noDataValue == Some(0.0)
  {
    SentinelMetaData(
      [ Band("B01", Some(0.0), U16), Band("B02", Some(0.0), U16), Band("B03", Some(0.0), U16),
        Band("B04", Some(0.0), U16), Band("B08", Some(0.0), U16), Band("SCL", Some(0.0), U8) ],
      [ Zone("UTM32N", 32632), Zone("UTM36S", 32736) ])
  }

  function DatasetName(zone: Zone, band: Band): string
  {
    zone.name + ":" + band.name
  }

  /** The descriptor every dataset of a zone and band has. */
  function BandDescriptor(zone: Zone, band: Band): RasterResultDescriptor
  {
    RasterResultDescriptor(band.dataType, Some(SpatialReference(Epsg, zone.epsg)), Unitless, band.noDataValue)
  }

  /** One entry of the dataset table. */
  function CreateDataset(providerId: nat, zone: Zone, band: Band): (DatasetId, SentinelDataset)
  {
    var id := ExternalDatasetId(providerId, DatasetName(zone, band));
    (id, SentinelDataset(band, zone,
      DatasetListing(id, LISTING_NAME_PREFIX + DatasetName(zone, band), "", [], "GdalSource", BandDescriptor(zone, band))))
  }

  /** The `flat_map`: zones outermost, bands innermost. */
  function DatasetEntries(providerId: nat, zones: seq<Zone>, bands: seq<Band>): (r: seq<(DatasetId, SentinelDataset)>)
    ensures forall z, b :: z in zones && b in bands ==> CreateDataset(providerId, z, b) in r
    ensures forall e :: e in r ==> exists z, b :: z in zones && b in bands && e == CreateDataset(providerId, z, b)
    decreases |zones|
  {
    if |zones| == 0 then []
    else
      var row := seq(|bands|, i requires 0 <= i < |bands| => CreateDataset(providerId, zones[0], bands[i]));
      assert forall b :: b in bands ==> CreateDataset(providerId, zones[0], b) in row by {
        forall b | b in bands ensures CreateDataset(providerId, zones[0], b) in row {
          var i :| 0 <= i < |bands| && bands[i] == b;
          assert row[i] == CreateDataset(providerId, zones[0], b);
        }
      }
      row + DatasetEntries(providerId, zones[1..], bands)
  }

  /** `collect` into a map: every key is kept, and a later entry with the same key wins. */
  function CollectMap<K, V>(entries: seq<(K, V)>): (m: map<K, V>)
    ensures forall e :: e in entries ==> e.0 in m
    ensures forall k :: k in m ==> (k, m[k]) in entries
    decreases |entries|
  {
    if |entries| == 0 then map[]
    else
      var last := entries[|entries| - 1];
      var m := CollectMap(entries[..|entries| - 1]);
      assert forall e :: e in entries ==> e in entries[..|entries| - 1] || e == last;
      m[last.0 := last.1]
  }

  /** `create_datasets`: one dataset per (zone, band), keyed `"zone:band"`. */
  function CreateDatasets(providerId: nat, meta: SentinelMetaData): (r: map<DatasetId, SentinelDataset>)
    ensures forall z, b :: z in meta.zones && b in meta.bands ==> ExternalDatasetId(providerId, DatasetName(z, b)) in r
    ensures forall id :: id in r ==>
      exists z, b :: z in meta.zones && b in meta.bands && (id, r[id]) == CreateDataset(providerId, z, b)
  {
    var entries := DatasetEntries(providerId, meta.zones, meta.bands);
    var m := CollectMap(entries);
    forall z, b | z in meta.zones && b in meta.bands
      ensures ExternalDatasetId(providerId, DatasetName(z, b)) in m
    {
      assert CreateDataset(providerId, z, b) in entries;
    }
    forall id | id in m
      ensures exists z, b :: z in meta.zones && b in meta.bands && (id, m[id]) == CreateDataset(providerId, z, b)
    {
      assert (id, m[id]) in entries;
    }
    m
  }

  /** `SentinelS2L2aCogsDataProvider::new` */
  function NewProvider(providerId: nat, apiUrl: string): (p: Provider)
    ensures p.apiUrl == apiUrl
    ensures forall z, b :: z in LoadMetadata().zones && b in LoadMetadata().bands ==>
      ExternalDatasetId(providerId, DatasetName(z, b)) in p.datasets
    ensures forall id :: id in p.datasets ==>
      && id == ExternalDatasetId(providerId, DatasetName(p.datasets[id].zone, p.datasets[id].band))
      && p.datasets[id].zone in LoadMetadata().zones && p.datasets[id].band in LoadMetadata().bands
  {
    Provider(apiUrl, CreateDatasets(providerId, LoadMetadata()))
  }

  /** `meta_data`: the zone and band of a known dataset, `UnknownDatasetId` otherwise. */
  function MetaData(p: Provider, id: DatasetId): (r: Result<SentinelS2L2aCogsMetaData, ProviderError>)
    ensures r.Err? <==> id !in p.datasets
    ensures r.Err? ==> r.error == UnknownDatasetId
    ensures r.Ok? ==> r.value.zone == p.datasets[id].zone && r.value.band == p.datasets[id].band
    ensures r.Ok? ==> r.value.apiUrl == p.apiUrl
  {
    if id in p.datasets then Ok(SentinelS2L2aCogsMetaData(p.apiUrl, p.datasets[id].zone, p.datasets[id].band))
    else Err(UnknownDatasetId)
  }

  /** `result_descriptor` of a dataset's metadata. */
  function ResultDescriptor(m: SentinelS2L2aCogsMetaData): (r: RasterResultDescriptor)
    ensures r.dataType == m.band.dataType && r.noDataValue == m.band.noDataValue
    ensures r.spatialReference == Some(SpatialReference(Epsg, m.zone.epsg))
    ensures r.measurement == Unitless
  {
    BandDescriptor(m.zone, m.band)
  }

  /**
   * For every dataset of a provider, the metadata lookup succeeds, its id is
   * `"zone:band"` of the zone and band it resolves to, and the descriptor it
   * reports is the one the listing advertises.
   */
  lemma MetaDataMatchesListing(providerId: nat, apiUrl: string, id: DatasetId)
    ensures id in NewProvider(providerId, apiUrl).datasets ==>
      var p := NewProvider(providerId, apiUrl);
      && MetaData(p, id).Ok?
      && id == ExternalDatasetId(providerId, DatasetName(MetaData(p, id).value.zone, MetaData(p, id).value.band))
      && ResultDescriptor(MetaData(p, id).value) == p.datasets[id].listing.resultDescriptor
      && ResultDescriptor(MetaData(p, id).value).spatialReference == Some(SpatialReference(Epsg, MetaData(p, id).value.zone.epsg))
    ensures id !in NewProvider(providerId, apiUrl).datasets ==>
      MetaData(NewProvider(providerId, apiUrl), id) == Err(UnknownDatasetId)
  {
    var p := NewProvider(providerId, apiUrl);
    if id in p.datasets {
      var meta := LoadMetadata();
      var z, b :| z in meta.zones && b in meta.bands && (id, p.datasets[id]) == CreateDataset(providerId, z, b);
    }
  }

  // ----- listing -----

  /** Byte-wise (here: character-wise) lexicographic order of Rust strings. */
  predicate LexLe(a: string, b: string)
    decreases |a|
  {
    |a| == 0 || (|b| > 0 && (a[0] < b[0] || (a[0] == b[0] && LexLe(a[1..], b[1..]))))
  }

  lemma {:induction false} LexLeTotal(a: string, b: string)
    ensures LexLe(a, b) || LexLe(b, a)
    decreases |a|
  {
    if |a| > 0 && |b| > 0 && a[0] == b[0] {
      LexLeTotal(a[1..], b[1..]);
    }
  }

  lemma {:induction false} LexLeTransitive(a: string, b: string, c: string)
    requires LexLe(a, b) && LexLe(b, c)
    ensures LexLe(a, c)
    decreases |a|
  {
    if |a| > 0 && a[0] == b[0] && b[0] == c[0] {
      LexLeTransitive(a[1..], b[1..], c[1..]);
    }
  }

  function NameLe(a: DatasetListing, b: DatasetListing): bool
  {
    LexLe(a.name, b.name)
  }

  lemma NameLeTotalPreorder()
    ensures Sorting.TotalPreorder(NameLe)
  {
    forall a: DatasetListing, b: DatasetListing ensures NameLe(a, b) || NameLe(b, a) {
      LexLeTotal(a.name, b.name);
    }
    forall a: DatasetListing, b: DatasetListing, c: DatasetListing | NameLe(a, b) && NameLe(b, c)
      ensures NameLe(a, c)
    {
      LexLeTransitive(a.name, b.name, c.name);
    }
  }

  /** The first half of `list`: every dataset's listing, in the map's (arbitrary) iteration order. */
  method CollectListings(datasets: map<DatasetId, SentinelDataset>) returns (collected: seq<DatasetListing>)
    ensures |collected| == |datasets|
    ensures forall id :: id in datasets ==> datasets[id].listing in collected
    ensures forall l :: l in collected ==> exists id :: id in datasets && datasets[id].listing == l
  {
    var remaining := datasets.Keys;
    collected := [];
    ghost var seen: set<DatasetId> := {};
    while remaining != {}
      invariant remaining !! seen && remaining + seen == datasets.Keys
      invariant |collected| == |seen|
      invariant forall id :: id in seen ==> datasets[id].listing in collected
      invariant forall l :: l in collected ==> exists id :: id in seen && datasets[id].listing == l
      decreases |remaining|
    {
      var id :| id in remaining;
      collected := collected + [datasets[id].listing];
      remaining := remaining - {id};
      seen := seen + {id};
    }
    assert seen == datasets.Keys;
  }

  /** `list`: the listings of all datasets, sorted in place by name. */
  method List(p: Provider) returns (listings: seq<DatasetListing>)
    ensures Sorting.SortedBy(listings, NameLe)
    ensures |listings| == |p.datasets|
    ensures forall id :: id in p.datasets ==> p.datasets[id].listing in listings
    ensures forall l :: l in listings ==> exists id :: id in p.datasets && p.datasets[id].listing == l
  {
    var collected := CollectListings(p.datasets);
    var a := new DatasetListing[|collected|](i requires 0 <= i < |collected| => collected[i]);
    assert a[..] == collected;
    Sorting.SortInPlace(a, NameLe);
    listings := a[..];
    NameLeTotalPreorder();
    Sorting.SortBySorted(collected, NameLe);
    Sorting.SortByPermutes(collected, NameLe);
    assert multiset(listings) == multiset(collected);
    assert |listings| == |collected| by {
      assert |multiset(listings)| == |multiset(collected)|;
    }
    assert forall l :: l in listings <==> l in collected by {
      forall l ensures l in listings <==> l in collected {
        assert l in listings <==> l in multiset(listings);
        assert l in collected <==> l in multiset(collected);
      }
    }
  }

  // ----- catalog request window and paging -----

  /**
   * `time_range_request`: the catalog is asked for `[start - 1 minute, end]`.
   * Either end fails with `DataType { NoDateTimeValid }` when it is not a
   * representable date-time, the start first.
   */
  function TimeRangeRequest(time: TimeInterval, representable: int -> bool): (r: Result<(int, int), ProviderError>)
    ensures r.Ok? <==> representable(time.start) && representable(time.end)
    ensures !representable(time.start) ==> r == Err(DataType(NoDateTimeValid(time.start)))
    ensures representable(time.start) && !representable(time.end) ==> r == Err(DataType(NoDateTimeValid(time.end)))
    ensures r.Ok? ==> r.value.0 + ONE_MINUTE_MS == time.start && r.value.1 == time.end
  {
    if !representable(time.start) then Err(DataType(NoDateTimeValid(time.start)))
    else if !representable(time.end) then Err(DataType(NoDateTimeValid(time.end)))
    else Ok((time.start - ONE_MINUTE_MS, time.end))
  }

  /** Integer ceiling of `m / l`. */
  function CeilDiv(m: nat, l: nat): (q: nat)
    requires l > 0
    ensures l * q >= m
    ensures q == 0 || l * (q - 1) < m
  {
    var q := (m + l - 1) / l;
    assert l * q + (m + l - 1) % l == m + l - 1;
    q
  }

  /**
   * `(matched as f64 / limit as f64).ceil() as u32`: the ceiling of the
   * quotient, saturated at `u32::MAX`; with a zero limit the float quotient
   * is NaN (no matches, cast to 0) or infinite (cast to `u32::MAX`).
   */
  function NumPages(matched: nat, limit: nat): (n: nat)
    ensures n <= U32_MAX
    ensures limit == 0 ==> n == (if matched == 0 then 0 else U32_MAX)
    ensures limit > 0 && n < U32_MAX ==> limit * n >= matched && (n == 0 || limit * (n - 1) < matched)
    ensures limit > 0 && n == U32_MAX ==> limit * (U32_MAX - 1) < matched
  {
    if limit == 0 then (if matched == 0 then 0 else U32_MAX)
    else
      var q := CeilDiv(matched, limit);
      if q > U32_MAX then
        assert limit * (U32_MAX - 1) <= limit * (q - 1);
        U32_MAX
      else q
  }

  /** `acc` in front of a successful result; errors pass through. */
  function Prepend(acc: seq<StacFeature>, r: Result<seq<StacFeature>, ProviderError>): Result<seq<StacFeature>, ProviderError>
  {
    match r
    case Err(e) => Err(e)
    case Ok(rest) => Ok(acc + rest)
  }

  lemma PrependAssociates(a: seq<StacFeature>, b: seq<StacFeature>, r: Result<seq<StacFeature>, ProviderError>)
    ensures Prepend(a, Prepend(b, r)) == Prepend(a + b, r)
  {
    if r.Ok? {
      assert a + (b + r.value) == (a + b) + r.value;
    }
  }

  /** The features of pages `page..=last`, in page order, stopping at the first failing page. */
  function PagesFrom(fetch: nat -> Result<StacCollection, ProviderError>, page: nat, last: nat): (r: Result<seq<StacFeature>, ProviderError>)
    ensures page > last ==> r == Ok([])
    ensures r.Ok? <==> forall q :: page <= q <= last ==> fetch(q).Ok?
    ensures r.Err? ==>
      exists q :: && page <= q <= last
                  && fetch(q) == Err(r.error)
                  && forall q' :: page <= q' < q ==> fetch(q').Ok?
    decreases if page <= last then last - page + 1 else 0
  {
    if page > last then Ok([])
    else
      match fetch(page)
      case Err(e) => Err(e)
      case Ok(c) => Prepend(c.features, PagesFrom(fetch, page + 1, last))
  }

  /** Two results in sequence: the first error, or the features of both. */
  function Then(first: Result<seq<StacFeature>, ProviderError>, second: Result<seq<StacFeature>, ProviderError>): Result<seq<StacFeature>, ProviderError>
  {
    match first
    case Err(e) => Err(e)
    case Ok(features) => Prepend(features, second)
  }

  /** One page yields exactly that page's features. */
  lemma PagesFromOnePage(fetch: nat -> Result<StacCollection, ProviderError>, page: nat)
    ensures PagesFrom(fetch, page, page) ==
      match fetch(page)
      case Err(e) => Err(e)
      case Ok(c) => Ok(c.features)
  {
    if fetch(page).Ok? {
      assert fetch(page).value.features + [] == fetch(page).value.features;
    }
  }

  /**
   * A range of pages is its first part followed by the rest: the features of
   * `a..=c` are those of `a..=b` then those of `b+1..=c`, and an error in the
   * first part wins.
   */
  lemma {:induction false} PagesFromSplits(fetch: nat -> Result<StacCollection, ProviderError>, a: nat, b: nat, c: nat)
    requires a <= b + 1 && b <= c
    ensures PagesFrom(fetch, a, c) == Then(PagesFrom(fetch, a, b), PagesFrom(fetch, b + 1, c))
    decreases b + 1 - a
  {
    if a > b {
      var rest := PagesFrom(fetch, b + 1, c);
      if rest.Ok? {
        assert [] + rest.value == rest.value;
      }
    } else if fetch(a).Ok? {
      PagesFromSplits(fetch, a + 1, b, c);
      var head := fetch(a).value.features;
      var mid := PagesFrom(fetch, a + 1, b);
      if mid.Ok? {
        PrependAssociates(head, mid.value, PagesFrom(fetch, b + 1, c));
      }
    }
  }

  /** What `load_all_features` returns: page 1, then pages `2..=num_pages` as page 1 reports them. */
  function AllFeatures(fetch: nat -> Result<StacCollection, ProviderError>): (r: Result<seq<StacFeature>, ProviderError>)
    ensures fetch(1).Err? ==> r == Err(fetch(1).error)
    ensures fetch(1).Ok? ==>
      var n := NumPages(fetch(1).value.context.matched, fetch(1).value.context.limit);
      r == PagesFrom(fetch, 1, if n < 1 then 1 else n)
  {
    match fetch(1)
    case Err(e) => Err(e)
    case Ok(first) => Prepend(first.features, PagesFrom(fetch, 2, NumPages(first.context.matched, first.context.limit)))
  }

  /** `load_all_features`: requests page 1, computes the page count from it, appends the other pages in order. */
  method LoadAllFeatures(fetch: nat -> Result<StacCollection, ProviderError>) returns (r: Result<seq<StacFeature>, ProviderError>)
    ensures r == AllFeatures(fetch)
  {
    var first := fetch(1);
    if first.Err? {
      return Err(first.error);
    }
    var features := first.value.features;
    var numPages := NumPages(first.value.context.matched, first.value.context.limit);
    var page: nat := 2;
    while page <= numPages
      invariant Prepend(features, PagesFrom(fetch, page, numPages)) == AllFeatures(fetch)
      decreases numPages - page
    {
      var collection := fetch(page);
      if collection.Err? {
        return Err(collection.error);
      }
      PrependAssociates(features, collection.value.features, PagesFrom(fetch, page + 1, numPages));
      features := features + collection.value.features;
      page := page + 1;
    }
    assert features + [] == features;
    return Ok(features);
  }

  lemma {:induction false} PagesFromReadsOnlyItsRange(
    fetch1: nat -> Result<StacCollection, ProviderError>,
    fetch2: nat -> Result<StacCollection, ProviderError>,
    page: nat, last: nat)
    requires forall q :: page <= q <= last ==> fetch1(q) == fetch2(q)
    ensures PagesFrom(fetch1, page, last) == PagesFrom(fetch2, page, last)
    decreases if page <= last then last - page + 1 else 0
  {
    if page <= last {
      PagesFromReadsOnlyItsRange(fetch1, fetch2, page + 1, last);
    }
  }

  /**
   * Only pages `1..=max(1, num_pages)` are requested: two catalogs that agree
   * on those pages (the count taken from page 1) give the same features.
   */
  lemma AllFeaturesRequestsPagesOneToN(
    fetch1: nat -> Result<StacCollection, ProviderError>,
    fetch2: nat -> Result<StacCollection, ProviderError>)
    requires fetch1(1) == fetch2(1)
    requires fetch1(1).Ok? ==>
      forall q :: 2 <= q <= NumPages(fetch1(1).value.context.matched, fetch1(1).value.context.limit) ==> fetch1(q) == fetch2(q)
    ensures AllFeatures(fetch1) == AllFeatures(fetch2)
  {
    if fetch1(1).Ok? {
      var c := fetch1(1).value;
      PagesFromReadsOnlyItsRange(fetch1, fetch2, 2, NumPages(c.context.matched, c.context.limit));
    }
  }

  // ----- resolution of features into loading parts -----

  /** `proj_epsg == Some(zone.epsg)`: features of other zones, or with no EPSG code, are dropped. */
  function FilterZone(features: seq<StacFeature>, epsg: nat): (r: seq<StacFeature>)
    ensures forall f :: f in r <==> f in features && f.projEpsg == Some(epsg)
    ensures forall f :: multiset(r)[f] == if f.projEpsg == Some(epsg) then multiset(features)[f] else 0
    ensures |r| <= |features|
    decreases |features|
  {
    if |features| == 0 then []
    else
      var rest := FilterZone(features[1..], epsg);
      assert features == [features[0]] + features[1..];
      assert forall f :: f in features <==> f == features[0] || f in features[1..];
      if features[0].projEpsg == Some(epsg) then [features[0]] + rest else rest
  }

  function DatetimeLe(a: StacFeature, b: StacFeature): bool
  {
    a.datetime <= b.datetime
  }

  lemma DatetimeLeTotalPreorder()
    ensures Sorting.TotalPreorder(DatetimeLe)
  {
  }

  /** Features in ascending acquisition time. */
  predicate Chronological(s: seq<StacFeature>)
  {
    forall i, j :: 0 <= i < j < |s| ==> s[i].datetime <= s[j].datetime
  }

  /** The features of the zone, sorted stably by datetime (`filter`, then `sort_by_key`). */
  function ZoneFeaturesByTime(features: seq<StacFeature>, epsg: nat): (s: seq<StacFeature>)
    ensures Chronological(s)
    ensures multiset(s) == multiset(FilterZone(features, epsg))
    ensures forall f :: f in s <==> f in features && f.projEpsg == Some(epsg)
  {
    var kept := FilterZone(features, epsg);
    var s := Sorting.SortBy(kept, DatetimeLe);
    DatetimeLeTotalPreorder();
    Sorting.SortBySorted(kept, DatetimeLe);
    Sorting.SortByPermutes(kept, DatetimeLe);
    assert forall i, j :: 0 <= i < j < |s| ==> DatetimeLe(s[i], s[j]);
    assert forall f :: f in s <==> f in multiset(kept);
    s
  }

  /** The end of feature `i`'s validity: the next feature's start, or one second after its own start. */
  function ValidityEnd(s: seq<StacFeature>, i: nat): int
    requires i < |s|
  {
    if i < |s| - 1 then s[i + 1].datetime else s[i].datetime + LAST_FEATURE_VALIDITY_MS
  }

  /**
   * Feature `i` is valid over `[t_i, t_(i+1))`, the last one over
   * `[t_n, t_n + 1 s)`; for chronological features these intervals are
   * well-formed and follow one another without gap or overlap.
   */
  function Validity(s: seq<StacFeature>, i: nat): (t: TimeInterval)
    requires i < |s| && Chronological(s)
    ensures t.start == s[i].datetime <= t.end
    ensures i + 1 < |s| ==> t.end == s[i + 1].datetime
    ensures i + 1 == |s| ==> t.end == t.start + LAST_FEATURE_VALIDITY_MS
    ensures NewTimeInterval(s[i].datetime, ValidityEnd(s, i)) == Ok(t)
  {
    TimeInterval(s[i].datetime, ValidityEnd(s, i))
  }

  /** `create_loading_info_part` */
  function CreateLoadingInfoPart(band: Band, time: TimeInterval, asset: StacAsset): (r: Result<GdalLoadingInfoPart, ProviderError>)
    ensures asset.projShape.None? ==> r == Err(StacInvalidBbox)
    ensures asset.projShape.Some? && asset.gdalGeoTransform.None? ==> r == Err(StacInvalidGeoTransform)
    ensures r.Ok? <==> asset.projShape.Some? && asset.gdalGeoTransform.Some?
    ensures r.Ok? ==>
      && r.value.time == time
      && r.value.params.filePath == VSICURL_PREFIX + asset.href
      && r.value.params.rasterbandChannel == 1
      && r.value.params.geoTransform == asset.gdalGeoTransform.value
      && r.value.params.width == asset.projShape.value.1
      && r.value.params.height == asset.projShape.value.0
      && r.value.params.fileNotFoundHandling == NoData
      && r.value.params.noDataValue == band.noDataValue
  {
    match asset.projShape
    case None => Err(StacInvalidBbox)
    case Some((shapeY, shapeX)) =>
      match asset.gdalGeoTransform
      case None => Err(StacInvalidGeoTransform)
      case Some(geoTransform) =>
        Ok(GdalLoadingInfoPart(time,
          GdalDatasetParameters(VSICURL_PREFIX + asset.href, 1, geoTransform, shapeX, shapeY, NoData, band.noDataValue)))
  }

  /** The part of one intersecting feature: `StacNoSuchBand` when it has no asset for the band. */
  function PartOf(band: Band, f: StacFeature, time: TimeInterval): Result<GdalLoadingInfoPart, ProviderError>
  {
    if band.name in f.assets then CreateLoadingInfoPart(band, time, f.assets[band.name])
    else Err(StacNoSuchBand(band.name))
  }

  /** The loop of `create_loading_info` over the first `k` features. */
  function ResolvePrefix(
    s: seq<StacFeature>, k: nat, query: TimeInterval, band: Band,
    intersects: (TimeInterval, TimeInterval) -> bool): Result<seq<GdalLoadingInfoPart>, ProviderError>
    requires k <= |s|
    decreases k
  {
    if k == 0 then Ok([])
    else
      match ResolvePrefix(s, k - 1, query, band, intersects)
      case Err(e) => Err(e)
      case Ok(parts) =>
        match NewTimeInterval(s[k - 1].datetime, ValidityEnd(s, k - 1))
        case Err(te) => Err(DataType(te))
        case Ok(t) =>
          if !intersects(t, query) then Ok(parts)
          else
            match PartOf(band, s[k - 1], t)
            case Err(e) => Err(e)
            case Ok(part) => Ok(parts + [part])
  }

  function Resolve(
    s: seq<StacFeature>, query: TimeInterval, band: Band,
    intersects: (TimeInterval, TimeInterval) -> bool): Result<seq<GdalLoadingInfoPart>, ProviderError>
  {
    ResolvePrefix(s, |s|, query, band, intersects)
  }

  lemma {:induction false} ErrorPersists(
    s: seq<StacFeature>, k: nat, m: nat, query: TimeInterval, band: Band,
    intersects: (TimeInterval, TimeInterval) -> bool)
    requires k <= m <= |s|
    requires ResolvePrefix(s, k, query, band, intersects).Err?
    ensures ResolvePrefix(s, m, query, band, intersects) == ResolvePrefix(s, k, query, band, intersects)
    decreases m
  {
    if m > k {
      ErrorPersists(s, k, m - 1, query, band, intersects);
    }
  }

  /** The loop of `create_loading_info` over the sorted features. */
  method ResolveSorted(
    s: seq<StacFeature>, query: TimeInterval, band: Band,
    intersects: (TimeInterval, TimeInterval) -> bool)
    returns (r: Result<seq<GdalLoadingInfoPart>, ProviderError>)
    ensures r == Resolve(s, query, band, intersects)
  {
    var n := |s|;
    var parts: seq<GdalLoadingInfoPart> := [];
    for i := 0 to n
      invariant ResolvePrefix(s, i, query, band, intersects) == Ok(parts)
    {
      var start := s[i].datetime;
      var end := if i < n - 1 then s[i + 1].datetime else start + LAST_FEATURE_VALIDITY_MS;
      var t := NewTimeInterval(start, end);
      if t.Err? {
        ErrorPersists(s, i + 1, n, query, band, intersects);
        return Err(DataType(t.error));
      }
      if intersects(t.value, query) {
        if band.name !in s[i].assets {
          ErrorPersists(s, i + 1, n, query, band, intersects);
          return Err(StacNoSuchBand(band.name));
        }
        var part := CreateLoadingInfoPart(band, t.value, s[i].assets[band.name]);
        if part.Err? {
          ErrorPersists(s, i + 1, n, query, band, intersects);
          return Err(part.error);
        }
        parts := parts + [part.value];
      }
    }
    return Ok(parts);
  }

  /**
   * `create_loading_info` over already fetched catalog features: keep the
   * zone's features, sort them in place by time, and emit one part per
   * validity interval that intersects the query.
   */
  method CreateLoadingInfo(
    meta: SentinelS2L2aCogsMetaData, features: seq<StacFeature>, query: TimeInterval,
    intersects: (TimeInterval, TimeInterval) -> bool)
    returns (r: Result<seq<GdalLoadingInfoPart>, ProviderError>)
    ensures r == Resolve(ZoneFeaturesByTime(features, meta.zone.epsg), query, meta.band, intersects)
  {
    var kept := FilterZone(features, meta.zone.epsg);
    var a := new StacFeature[|kept|](i requires 0 <= i < |kept| => kept[i]);
    assert a[..] == kept;
    Sorting.SortInPlace(a, DatetimeLe);
    r := ResolveSorted(a[..], query, meta.band, intersects);
  }

  /**
   * `loading_info` of a dataset: the request window, then every catalog
   * page, then the resolution.  `catalog` is the search for a window, or the
   * error of building its parameters (the query box projected to WGS 84).
   */
  function LoadingInfoOf(
    meta: SentinelS2L2aCogsMetaData, query: TimeInterval, representable: int -> bool,
    catalog: ((int, int)) -> Result<nat -> Result<StacCollection, ProviderError>, ProviderError>,
    intersects: (TimeInterval, TimeInterval) -> bool): (r: Result<seq<GdalLoadingInfoPart>, ProviderError>)
    ensures TimeRangeRequest(query, representable).Err? ==> r == Err(TimeRangeRequest(query, representable).error)
    ensures TimeRangeRequest(query, representable).Ok? && catalog(TimeRangeRequest(query, representable).value).Err? ==>
      r == Err(catalog(TimeRangeRequest(query, representable).value).error)
    ensures r.Ok? ==>
      && representable(query.start) && representable(query.end)
      && catalog((query.start - ONE_MINUTE_MS, query.end)).Ok?
      && AllFeatures(catalog((query.start - ONE_MINUTE_MS, query.end)).value).Ok?
  {
    match TimeRangeRequest(query, representable)
    case Err(e) => Err(e)
    case Ok(window) =>
      match catalog(window)
      case Err(e) => Err(e)
      case Ok(fetch) =>
        match AllFeatures(fetch)
        case Err(e) => Err(e)
        case Ok(features) => Resolve(ZoneFeaturesByTime(features, meta.zone.epsg), query, meta.band, intersects)
  }

  method LoadingInfo(
    meta: SentinelS2L2aCogsMetaData, query: TimeInterval, representable: int -> bool,
    catalog: ((int, int)) -> Result<nat -> Result<StacCollection, ProviderError>, ProviderError>,
    intersects: (TimeInterval, TimeInterval) -> bool)
    returns (r: Result<seq<GdalLoadingInfoPart>, ProviderError>)
    ensures r == LoadingInfoOf(meta, query, representable, catalog, intersects)
  {
    var window := TimeRangeRequest(query, representable);
    if window.Err? {
      return Err(window.error);
    }
    var search := catalog(window.value);
    if search.Err? {
      return Err(search.error);
    }
    var features := LoadAllFeatures(search.value);
    if features.Err? {
      return Err(features.error);
    }
    r := CreateLoadingInfo(meta, features.value, query, intersects);
  }

  // ----- properties of the resolution -----

  /**
   * Over chronological features the resolution succeeds exactly when every
   * feature whose validity intersects the query yields a part: interval
   * construction never fails, and a feature outside the query never causes
   * an error.
   */
  lemma {:induction false} ResolveSucceedsIff(
    s: seq<StacFeature>, k: nat, query: TimeInterval, band: Band,
    intersects: (TimeInterval, TimeInterval) -> bool)
    requires Chronological(s) && k <= |s|
    ensures ResolvePrefix(s, k, query, band, intersects).Ok? <==>
      forall i :: 0 <= i < k && intersects(Validity(s, i), query) ==> PartOf(band, s[i], Validity(s, i)).Ok?
    decreases k
  {
    if k > 0 {
      ResolveSucceedsIff(s, k - 1, query, band, intersects);
      var _ := Validity(s, k - 1);
    }
  }

  /**
   * The indices, among the first `k` features, of those whose validity meets
   * the query, in ascending order: the features the loop emits a part for.
   */
  function Intersecting(
    s: seq<StacFeature>, k: nat, query: TimeInterval,
    intersects: (TimeInterval, TimeInterval) -> bool): (idx: seq<nat>)
    requires Chronological(s) && k <= |s|
    ensures forall j :: 0 <= j < |idx| ==> idx[j] < k && intersects(Validity(s, idx[j]), query)
    ensures forall j, j' :: 0 <= j < j' < |idx| ==> idx[j] < idx[j']
    ensures forall i :: 0 <= i < k && intersects(Validity(s, i), query) ==> i in idx
    decreases k
  {
    if k == 0 then []
    else
      var prev := Intersecting(s, k - 1, query, intersects);
      if intersects(Validity(s, k - 1), query) then prev + [k - 1] else prev
  }

  /**
   * The emitted parts are, in order, the parts of the intersecting features,
   * each timed by that feature's validity.
   */
  lemma {:induction false} ResolvedPartsAreSound(
    s: seq<StacFeature>, k: nat, query: TimeInterval, band: Band,
    intersects: (TimeInterval, TimeInterval) -> bool)
    requires Chronological(s) && k <= |s|
    ensures ResolvePrefix(s, k, query, band, intersects).Ok? ==>
      var parts := ResolvePrefix(s, k, query, band, intersects).value;
      var idx := Intersecting(s, k, query, intersects);
      && |parts| == |idx|
      && forall j :: 0 <= j < |parts| ==>
           && parts[j].time == Validity(s, idx[j])
           && PartOf(band, s[idx[j]], Validity(s, idx[j])) == Ok(parts[j])
    decreases k
  {
    if k > 0 && ResolvePrefix(s, k, query, band, intersects).Ok? {
      ResolvedPartsAreSound(s, k - 1, query, band, intersects);
      var t := Validity(s, k - 1);
      assert ResolvePrefix(s, k - 1, query, band, intersects).Ok?;
      var prev := ResolvePrefix(s, k - 1, query, band, intersects).value;
      var parts := ResolvePrefix(s, k, query, band, intersects).value;
      var pidx := Intersecting(s, k - 1, query, intersects);
      var idx := Intersecting(s, k, query, intersects);
      if intersects(t, query) {
        var part := PartOf(band, s[k - 1], t).value;
        assert parts == prev + [part] && part.time == t;
        assert idx == pidx + [k - 1];
        forall j | 0 <= j < |parts|
          ensures && parts[j].time == Validity(s, idx[j])
                  && PartOf(band, s[idx[j]], Validity(s, idx[j])) == Ok(parts[j])
        {
          if j < |prev| {
            assert parts[j] == prev[j] && idx[j] == pidx[j];
          } else {
            assert parts[j] == part && idx[j] == k - 1;
          }
        }
      } else {
        assert parts == prev && idx == pidx;
      }
    }
  }

  /** Every intersecting feature's part is emitted. */
  lemma {:induction false} ResolvedPartsAreComplete(
    s: seq<StacFeature>, k: nat, query: TimeInterval, band: Band,
    intersects: (TimeInterval, TimeInterval) -> bool)
    requires Chronological(s) && k <= |s|
    ensures ResolvePrefix(s, k, query, band, intersects).Ok? ==>
      forall i :: 0 <= i < k && intersects(Validity(s, i), query) ==>
        PartOf(band, s[i], Validity(s, i)).Ok? &&
        PartOf(band, s[i], Validity(s, i)).value in ResolvePrefix(s, k, query, band, intersects).value
    decreases k
  {
    if k > 0 {
      ResolvedPartsAreComplete(s, k - 1, query, band, intersects);
      var _ := Validity(s, k - 1);
    }
  }

  /** Parts whose intervals are well-formed, in ascending order and pairwise non-overlapping. */
  predicate PartsAscending(parts: seq<GdalLoadingInfoPart>)
  {
    forall j, j' :: 0 <= j < j' < |parts| ==> parts[j].time.start <= parts[j].time.end <= parts[j'].time.start
  }

  /** The emitted parts are in ascending time order and do not overlap. */
  lemma ResolvedPartsAscending(
    s: seq<StacFeature>, k: nat, query: TimeInterval, band: Band,
    intersects: (TimeInterval, TimeInterval) -> bool)
    requires Chronological(s) && k <= |s|
    ensures ResolvePrefix(s, k, query, band, intersects).Ok? ==>
      PartsAscending(ResolvePrefix(s, k, query, band, intersects).value)
  {
    if ResolvePrefix(s, k, query, band, intersects).Ok? {
      ResolvedPartsAreSound(s, k, query, band, intersects);
      var parts := ResolvePrefix(s, k, query, band, intersects).value;
      var idx := Intersecting(s, k, query, intersects);
      forall j, j' | 0 <= j < j' < |parts|
        ensures parts[j].time.start <= parts[j].time.end <= parts[j'].time.start
      {
        assert idx[j] < idx[j'] < |s|;
        assert s[idx[j] + 1].datetime <= s[idx[j']].datetime;
      }
    }
  }

  /**
   * A failure is the failure of the first intersecting feature that yields
   * no part: `StacNoSuchBand` when it lacks the band, or the error of its
   * part construction.
   */
  lemma {:induction false} ResolveFailsAtFirstBadFeature(
    s: seq<StacFeature>, k: nat, query: TimeInterval, band: Band,
    intersects: (TimeInterval, TimeInterval) -> bool)
    requires Chronological(s) && k <= |s|
    ensures ResolvePrefix(s, k, query, band, intersects).Err? ==>
      exists i :: && 0 <= i < k
                  && intersects(Validity(s, i), query)
                  && PartOf(band, s[i], Validity(s, i)) == Err(ResolvePrefix(s, k, query, band, intersects).error)
                  && (band.name !in s[i].assets ==> ResolvePrefix(s, k, query, band, intersects).error == StacNoSuchBand(band.name))
                  && forall i' :: 0 <= i' < i && intersects(Validity(s, i'), query) ==> PartOf(band, s[i'], Validity(s, i')).Ok?
    decreases k
  {
    if k > 0 {
      ResolveFailsAtFirstBadFeature(s, k - 1, query, band, intersects);
      ResolveSucceedsIff(s, k - 1, query, band, intersects);
      var _ := Validity(s, k - 1);
    }
  }

  /** Resolved parts meet the query and carry the band's no-data value. */
  lemma ResolvedPartsMeetQuery(
    s: seq<StacFeature>, query: TimeInterval, band: Band,
    intersects: (TimeInterval, TimeInterval) -> bool)
    requires Chronological(s) && Resolve(s, query, band, intersects).Ok?
    ensures
      var parts := Resolve(s, query, band, intersects).value;
      && PartsAscending(parts)
      && (forall j :: 0 <= j < |parts| ==> intersects(parts[j].time, query))
      && (forall j :: 0 <= j < |parts| ==> parts[j].params.noDataValue == band.noDataValue)
  {
    assert Resolve(s, query, band, intersects) == ResolvePrefix(s, |s|, query, band, intersects);
    var parts := Resolve(s, query, band, intersects).value;
    ResolvedPartsAscending(s, |s|, query, band, intersects);
    ResolvedPartsAreSound(s, |s|, query, band, intersects);
    var idx := Intersecting(s, |s|, query, intersects);
    forall j | 0 <= j < |parts|
      ensures intersects(parts[j].time, query) && parts[j].params.noDataValue == band.noDataValue
    {
      assert PartOf(band, s[idx[j]], Validity(s, idx[j])) == Ok(parts[j]);
    }
  }

  /**
   * Whatever the catalog returns, a successful `loading_info` yields parts
   * whose intervals all meet the query, in ascending order without overlap,
   * each for the dataset's band.
   */
  lemma LoadingInfoPartsMeetQuery(
    meta: SentinelS2L2aCogsMetaData, query: TimeInterval, representable: int -> bool,
    catalog: ((int, int)) -> Result<nat -> Result<StacCollection, ProviderError>, ProviderError>,
    intersects: (TimeInterval, TimeInterval) -> bool)
    requires LoadingInfoOf(meta, query, representable, catalog, intersects).Ok?
    ensures
      var parts := LoadingInfoOf(meta, query, representable, catalog, intersects).value;
      && PartsAscending(parts)
      && (forall j :: 0 <= j < |parts| ==> intersects(parts[j].time, query))
      && (forall j :: 0 <= j < |parts| ==> parts[j].params.noDataValue == meta.band.noDataValue)
  {
    var window := TimeRangeRequest(query, representable).value;
    var fetch := catalog(window).value;
    var features := AllFeatures(fetch).value;
    var s := ZoneFeaturesByTime(features, meta.zone.epsg);
    assert LoadingInfoOf(meta, query, representable, catalog, intersects) == Resolve(s, query, meta.band, intersects);
    ResolvedPartsMeetQuery(s, query, meta.band, intersects);
  }

  /** A single feature valid over an interval that meets the query resolves to its one part. */
  lemma SingleFeatureResolves(
    f: StacFeature, query: TimeInterval, band: Band,
    intersects: (TimeInterval, TimeInterval) -> bool)
    requires intersects(TimeInterval(f.datetime, f.datetime + LAST_FEATURE_VALIDITY_MS), query)
    requires band.name in f.assets
    ensures Resolve([f], query, band, intersects)
         == AsSingleton(CreateLoadingInfoPart(band, TimeInterval(f.datetime, f.datetime + LAST_FEATURE_VALIDITY_MS), f.assets[band.name]))
  {
    var t := TimeInterval(f.datetime, f.datetime + LAST_FEATURE_VALIDITY_MS);
    assert NewTimeInterval(f.datetime, ValidityEnd([f], 0)) == Ok(t);
    assert ResolvePrefix([f], 0, query, band, intersects) == Ok([]);
    var r := CreateLoadingInfoPart(band, t, f.assets[band.name]);
    if r.Ok? {
      assert [] + [r.value] == [r.value];
    }
  }

  /** A feature of another zone is dropped, and a single feature is already in order. */
  lemma OtherZoneDropped(other: StacFeature, f: StacFeature, epsg: nat)
    requires other.projEpsg != Some(epsg) && f.projEpsg == Some(epsg)
    ensures ZoneFeaturesByTime([other, f], epsg) == [f]
  {
    assert [other, f][1..] == [f];
    assert FilterZone([f], epsg) == [f] by {
      assert [f][1..] == [];
    }
    assert Sorting.SortBy([f], DatetimeLe) == [f];
  }

  /** A one-part result, or the error. */
  function AsSingleton(r: Result<GdalLoadingInfoPart, ProviderError>): Result<seq<GdalLoadingInfoPart>, ProviderError>
  {
    match r
    case Err(e) => Err(e)
    case Ok(part) => Ok([part])
  }

  /**
   * The catalog scenario of the unit test: one UTM32N feature at
   * 2021-01-02T10:02:26Z (next to one of another zone) and an instant query
   * at that time resolve to exactly one part valid for one second, with the
   * asset's path, size and geo-transform, provided that the instant
   * intersects that second.
   */
  lemma LoadingInfoScenario(intersects: (TimeInterval, TimeInterval) -> bool)
    requires intersects(TimeInterval(1_609_581_746_000, 1_609_581_747_000), TimeInterval(1_609_581_746_000, 1_609_581_746_000))
    ensures
      var href := "https://sentinel-cogs.s3.us-west-2.amazonaws.com/sentinel-s2-l2a-cogs/32/R/PU/2021/1/S2B_32RPU_20210102_0_L2A/B01.tif";
      var gt := GeoTransform(600_000.0, 3_400_020.0, 60.0, -60.0);
      var f := StacFeature(1_609_581_746_000, Some(32632), map["B01" := StacAsset(href, Some((1830, 1830)), Some(gt))]);
      var other := StacFeature(1_609_581_700_000, Some(32736), map[]);
      var band := Band("B01", Some(0.0), U16);
      Resolve(ZoneFeaturesByTime([other, f], 32632), TimeInterval(1_609_581_746_000, 1_609_581_746_000), band, intersects)
      == Ok([GdalLoadingInfoPart(
               TimeInterval(1_609_581_746_000, 1_609_581_747_000),
               GdalDatasetParameters(VSICURL_PREFIX + href, 1, gt, 1830, 1830, NoData, Some(0.0)))])
  {
    var href := "https://sentinel-cogs.s3.us-west-2.amazonaws.com/sentinel-s2-l2a-cogs/32/R/PU/2021/1/S2B_32RPU_20210102_0_L2A/B01.tif";
    var gt := GeoTransform(600_000.0, 3_400_020.0, 60.0, -60.0);
    var f := StacFeature(1_609_581_746_000, Some(32632), map["B01" := StacAsset(href, Some((1830, 1830)), Some(gt))]);
    var other := StacFeature(1_609_581_700_000, Some(32736), map[]);
    var band := Band("B01", Some(0.0), U16);
    OtherZoneDropped(other, f, 32632);
    SingleFeatureResolves(f, TimeInterval(1_609_581_746_000, 1_609_581_746_000), band, intersects);
  }
}
