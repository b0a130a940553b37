/**
 * A virtual imagery catalog entry: one remote raster image resolved into the
 * metadata a tile renderer needs (bounds, resolution, zoom window, per-band
 * statistics) and the recipe that tells the renderer how to paint it.
 *
 * The two external reads of construction are inputs here: `store` stands for
 * the object store holding the parsed side-car statistics documents, and
 * `raster` for what the raster library reports about the image (`None` when
 * opening or reprojecting it raises).
 */
module Catalogs {
  import opened Wrappers
  import opened PyText

  // ---------------------------------------------------------------------
  // Inputs

  /** A rendering argument as the caller passes it: a boolean, a number or a text. */
  datatype Arg = Flag(flag: bool) | Num(num: real) | Str(str: string)

  /** Python truthiness of an optional argument: `None`, `False`, `0` and `""` are false. */
  predicate Truthy(a: Option<Arg>)
    ensures Truthy(a) <==> a !in {None, Some(Flag(false)), Some(Num(0.0)), Some(Str(""))}
  {
    match a
    case None => false
    case Some(Flag(b)) => b
    case Some(Num(x)) => x != 0.0
    case Some(Str(s)) => s != ""
  }

  /** Python truthiness of an optional text. */
  predicate TruthyText(s: Option<string>)
    ensures TruthyText(s) <==> s !in {None, Some("")}
  {
    s.Some? && s.value != ""
  }

  /** The member names of the raster library's resampling enumeration. */
  const ResamplingMembers: set<string> :=
    {"nearest", "bilinear", "cubic", "cubic_spline", "lanczos", "average", "mode",
     "gauss", "max", "min", "med", "q1", "q3", "sum", "rms"}

  /** The two parts of the parsed resource locator that construction reads. */
  datatype ParsedUri = ParsedUri(netloc: string, path: string)

  /** The address of an object in the object store. */
  datatype ObjectId = ObjectId(bucket: string, key: string)

  /** A statistics series of the side-car document; JSON `null` entries are `None`. */
  type Series = seq<Option<real>>

  /** One algorithm's block of the side-car document; a missing key is `None`. */
  datatype AlgorithmStats = AlgorithmStats(
    per98: Option<Series>,       // "PER98": per-band maxima
    per02: Option<Series>,       // "PER02": per-band minima
    mean: Option<Series>,        // "MEAN": per-band means
    renderOrder: Option<string>, // "RENDER_ORDER"
    algorithm: Option<string>)   // "ALGORITHM"

  /** The side-car document, keyed by algorithm name. */
  type Document = map<string, AlgorithmStats>

  /** The object store: the parsed document at each address that can be fetched. */
  type ObjectStore = map<ObjectId, Document>

  /** West, south, east, north in the global geographic reference system. */
  datatype Bounds = Bounds(west: real, south: real, east: real, north: real)

  /** Ground resolution in meters per axis. */
  datatype Resolution = Resolution(x: real, y: real)

  /** What the raster library reports: reprojected bounds, resolution, zoom and the two sample-value tags. */
  datatype RasterHeader = RasterHeader(
    bounds: Bounds,
    resolution: Resolution,
    approximateZoom: int,
    globalMin: Option<real>,  // TIFFTAG_MINSAMPLEVALUE
    globalMax: Option<real>)  // TIFFTAG_MAXSAMPLEVALUE

  // ---------------------------------------------------------------------
  // Outputs

  /** One band's statistics; an absent key of the band's `{min, max, mean}` dictionary is `None`. */
  datatype BandStats = BandStats(min: Option<real>, max: Option<real>, mean: Option<real>)

  /** The suggested initial view: the middle of the bounds and a zoom. */
  datatype Center = Center(longitude: real, latitude: real, zoom: int)

  /** A value of the rendering recipe. */
  datatype RecipeValue =
    | BoolValue(b: bool)
    | IntList(items: seq<Option<int>>)  // entries int() rejects are None
    | ArgValue(arg: Arg)
    | StrValue(s: string)

  /** The source descriptor handed to the renderer. */
  datatype Source = Source(
    url: string,
    resolution: Resolution,
    bandInfo: map<string, string>,
    meta: map<string, map<int, BandStats>>,
    recipes: map<string, RecipeValue>)

  /** The keys a recipe may hold. */
  const RecipeKeys: set<string> :=
    {"imagery", "rgb_bands", "nodata", "linear_stretch", "resample", "algorithm"}

  // ---------------------------------------------------------------------
  // Errors

  datatype SeriesName = Per98 | Per02 | Mean

  /** What construction raises. */
  datatype CatalogError =
    | MetadataFetchError(id: ObjectId)               // the object store has no such object
    | RasterAccessError                              // the raster cannot be opened or reprojected
    | MissingAlgorithmName                           // the algorithm name attribute was never set
    | UnknownAlgorithm(name: string)                 // the document has no block for the algorithm
    | MissingSeries(series: SeriesName)              // the block lacks a series
    | SeriesIndexError(series: SeriesName, band: nat) // a series is too short for a band

  // ---------------------------------------------------------------------
  // Side-car document address

  /** The bucket: the host text before its first dot. */
  function SideCarBucket(netloc: string): (bucket: string)
    ensures '.' !in bucket
    ensures |bucket| <= |netloc| && bucket == netloc[..|bucket|]
    ensures |bucket| == |netloc| || netloc[|bucket|] == '.'
  {
    SplitFirst(netloc, '.');
    Split(netloc, '.')[0]
  }

  /**
   * The key: the path without leading slashes, its extension replaced by
   * `.json`. What precedes `.json` is a prefix of the stripped path, and what
   * it leaves out is either nothing or exactly one extension.
   */
  function SideCarKey(path: string): (key: string)
    ensures |key| >= 5 && key[|key| - 5..] == ".json"
    ensures var stripped, stem := LStrip(path, '/'), key[..|key| - 5];
            && |stem| <= |stripped| && stripped[..|stem|] == stem
            && var ext := stripped[|stem|..];
               ext == [] || (ext[0] == '.' && '.' !in ext[1..] && '/' !in ext)
  {
    var stripped := LStrip(path, '/');
    var parts := SplitExt(stripped);
    var key := parts.0 + ".json";
    assert key[..|key| - 5] == parts.0 && stripped[|parts.0|..] == parts.1;
    key
  }

  /** The address of the side-car statistics document of a resource. */
  function SideCarObject(parsed: ParsedUri): (id: ObjectId)
    ensures '.' !in id.bucket && |id.bucket| <= |parsed.netloc|
    ensures |id.key| >= 5 && id.key[|id.key| - 5..] == ".json" && id.key[0] != '/'
  {
    var key := SideCarKey(parsed.path);
    assert key[0] != '/' by {
      var stripped, stem := LStrip(parsed.path, '/'), key[..|key| - 5];
      if |stem| > 0 { assert key[0] == stem[0] == stripped[0]; }
    }
    ObjectId(SideCarBucket(parsed.netloc), SideCarKey(parsed.path))
  }

  /**
   * A path whose last component has no dot, or only leading dots (a dot-file),
   * gets `.json` appended, whatever dots its directories hold.
   */
  lemma SideCarKeyAppends(path: string)
    requires UndottedLast(LStrip(path, '/'))
    ensures SideCarKey(path) == LStrip(path, '/') + ".json"
  {
    NoExtension(LStrip(path, '/'));
  }

  /** A path `stem.ext` gets `stem.json`. */
  lemma SideCarKeyReplaces(path: string, stem: string, ext: string)
    requires LStrip(path, '/') == stem + "." + ext
    requires '.' !in ext && '/' !in ext
    requires exists i :: RFind(stem, '/') < i < |stem| && stem[i] != '.'
    ensures SideCarKey(path) == stem + ".json"
  {
    SplitExtAt(stem, ext);
  }

  /** A host without a dot is its own bucket. */
  lemma SideCarBucketWhole(netloc: string)
    requires '.' !in netloc
    ensures SideCarBucket(netloc) == netloc
  {
    SplitWithout(netloc, '.');
  }

  /** One leading slash before a text that does not start with one is all `lstrip` drops. */
  lemma LStripRooted(tail: string)
    requires |tail| > 0 && tail[0] != '/'
    ensures LStrip("/" + tail, '/') == tail
  {
    assert ("/" + tail)[1..] == tail;
  }

  /** The path `/dir/name.ext` has its statistics at `dir/name.json`. */
  lemma SideCarKeyNested(path: string, dir: string, name: string, ext: string)
    requires path == "/" + (dir + "/" + name + "." + ext)
    requires |dir| > 0 && dir[0] != '/'
    requires |name| > 0 && name[0] != '.' && '/' !in name
    requires '.' !in ext && '/' !in ext
    ensures SideCarKey(path) == dir + "/" + name + ".json"
  {
    var stem := dir + "/" + name;
    var tail := stem + "." + ext;
    assert tail[0] == dir[0];
    LStripRooted(tail);
    RFindAppend(dir + "/", name, '/');
    RFindAt(dir + "/", '/', |dir|);
    assert stem[|dir| + 1] == name[0];
    SideCarKeyReplaces(path, stem, ext);
  }

  /**
   * The path `/img/scene.tif`, given in its pieces `img`, `scene` and `tif`,
   * has its statistics at `img/scene.json`.
   */
  lemma SideCarKeyExample(path: string, dir: string, name: string, ext: string)
    requires dir == "img" && name == "scene" && ext == "tif"
    requires path == "/" + (dir + "/" + name + "." + ext)
    ensures SideCarKey(path) == "img/scene.json"
  {
    assert '/' !in name && '.' !in ext && '/' !in ext;
    SideCarKeyNested(path, dir, name, ext);
    ExampleKeyText(dir, name);
  }

  lemma ExampleKeyText(dir: string, name: string)
    requires dir == "img" && name == "scene"
    ensures dir + "/" + name + ".json" == "img/scene.json"
  {
  }

  /** `s3://bucket/img/scene.tif` has its statistics at `img/scene.json` in `bucket`. */
  lemma SideCarExample(parsed: ParsedUri, dir: string, name: string, ext: string)
    requires dir == "img" && name == "scene" && ext == "tif"
    requires parsed.netloc == "bucket" && parsed.path == "/" + (dir + "/" + name + "." + ext)
    ensures SideCarObject(parsed) == ObjectId("bucket", "img/scene.json")
  {
    var netloc := parsed.netloc;
    assert forall i :: 0 <= i < |netloc| ==> netloc[i] != '.';
    SideCarBucketWhole(netloc);
    SideCarKeyExample(parsed.path, dir, name, ext);
  }

  // ---------------------------------------------------------------------
  // Statistics series

  /** A series of one value stands for all three bands; any other series is kept as it is. */
  function Broadcast(s: Series): (r: Series)
    ensures |s| == 1 ==> |r| == 3 && forall b :: 0 <= b < 3 ==> r[b] == s[0]
    ensures |s| != 1 ==> r == s
  {
    if |s| == 1 then s + s + s else s
  }

  /**
   * The error the band loop raises from `band` on, reading for each band the
   * minimum, the maximum and the mean, in that order; `None` if every read is
   * in range.
   */
  function BandIndexError(mins: Series, maxes: Series, means: Series, band: nat): (e: Option<CatalogError>)
    requires band <= 3
    ensures e.None? <==> band == 3 || (|mins| >= 3 && |maxes| >= 3 && |means| >= 3)
    ensures e.Some? ==>
      && e.value.SeriesIndexError?
      && var b := e.value.band;
         && band <= b < 3
         && (b == band || (|mins| >= b && |maxes| >= b && |means| >= b))
         && (e.value.series == Per02 <==> |mins| <= b)
         && (e.value.series == Per98 <==> |mins| > b && |maxes| <= b)
         && (e.value.series == Mean <==> |mins| > b && |maxes| > b && |means| <= b)
    decreases 3 - band
  {
    if band == 3 then None
    else if band >= |mins| then Some(SeriesIndexError(Per02, band))
    else if band >= |maxes| then Some(SeriesIndexError(Per98, band))
    else if band >= |means| then Some(SeriesIndexError(Mean, band))
    else BandIndexError(mins, maxes, means, band + 1)
  }

  /** The error reading an algorithm's statistics raises, in the order the block is read. */
  function StatisticsError(block: AlgorithmStats): (e: Option<CatalogError>)
    ensures e.Some? ==> e.value.MissingSeries? || e.value.SeriesIndexError?
    ensures (e.Some? && e.value.MissingSeries?) <==> block.per98.None? || block.per02.None? || block.mean.None?
  {
    if block.per98.None? then Some(MissingSeries(Per98))
    else if block.per02.None? then Some(MissingSeries(Per02))
    else if block.mean.None? then Some(MissingSeries(Mean))
    else BandIndexError(Broadcast(block.per02.value), Broadcast(block.per98.value), Broadcast(block.mean.value), 0)
  }

  /** The error reading the algorithm's block of a fetched document raises; `None` if there is none. */
  function DocumentError(doc: Document, algName: Option<string>): (e: Option<CatalogError>)
    ensures e == Some(MissingAlgorithmName) <==> !TruthyText(algName)
    ensures (e.Some? && e.value.UnknownAlgorithm?) <==> TruthyText(algName) && algName.value !in doc
    ensures e.Some? && e.value.UnknownAlgorithm? ==> e.value.name == algName.value
    ensures e.Some? ==> !e.value.MetadataFetchError? && !e.value.RasterAccessError?
  {
    if !TruthyText(algName) then Some(MissingAlgorithmName)
    else if algName.value !in doc then Some(UnknownAlgorithm(algName.value))
    else StatisticsError(doc[algName.value])
  }

  /**
   * The error construction raises, in the order construction meets them:
   * fetching the side-car document, opening the raster, then reading the
   * document; `None` if construction succeeds.
   */
  function ConstructionError(parsed: ParsedUri, algName: Option<string>, store: ObjectStore,
                             raster: Option<RasterHeader>): (e: Option<CatalogError>)
    ensures e == Some(MetadataFetchError(SideCarObject(parsed))) <==> SideCarObject(parsed) !in store
    ensures (e.Some? && e.value.MetadataFetchError?) ==> e.value.id == SideCarObject(parsed)
    ensures e == Some(RasterAccessError) <==> SideCarObject(parsed) in store && raster.None?
    ensures e.None? ==> SideCarObject(parsed) in store && raster.Some?
    ensures SideCarObject(parsed) in store && raster.Some? ==>
      e == DocumentError(store[SideCarObject(parsed)], algName)
  {
    var id := SideCarObject(parsed);
    if id !in store then Some(MetadataFetchError(id))
    else if raster.None? then Some(RasterAccessError)
    else DocumentError(store[id], algName)
  }

  /** What a document that raises nothing offers: the block, its three series, each readable for three bands. */
  lemma DocumentReadable(doc: Document, algName: Option<string>)
    requires DocumentError(doc, algName) == None
    ensures TruthyText(algName) && algName.value in doc
    ensures var block := doc[algName.value];
      && block.per98.Some? && block.per02.Some? && block.mean.Some?
      && |Broadcast(block.per02.value)| >= 3
      && |Broadcast(block.per98.value)| >= 3
      && |Broadcast(block.mean.value)| >= 3
  {
    var block := doc[algName.value];
    assert BandIndexError(Broadcast(block.per02.value), Broadcast(block.per98.value),
                          Broadcast(block.mean.value), 0) == None;
  }

  /** A series length the band loop can read after broadcasting. */
  predicate ReadableLength(n: nat)
  {
    n == 1 || n >= 3
  }

  /** Series of one entry or of at least three can be read; a series of any other length fails. */
  lemma StatisticsReadable(block: AlgorithmStats)
    requires block.per98.Some? && block.per02.Some? && block.mean.Some?
    ensures StatisticsError(block) == None <==>
      && ReadableLength(|block.per98.value|)
      && ReadableLength(|block.per02.value|)
      && ReadableLength(|block.mean.value|)
  {
  }

  /** A series of length two is not padded: reading its third band fails. */
  lemma LengthTwoSeriesFails(block: AlgorithmStats)
    requires block.per98.Some? && block.per02.Some? && block.mean.Some?
    requires |block.per98.value| == 2 || |block.per02.value| == 2 || |block.mean.value| == 2
    ensures StatisticsError(block).Some?
    ensures StatisticsError(block).value.SeriesIndexError?
    ensures StatisticsError(block).value.band <= 2
  {
  }

  /**
   * `values` holds exactly the bands 0, 1 and 2, each with the series minimum
   * or else the global minimum, the series maximum or else the global maximum,
   * and the series mean with no fallback.
   */
  ghost predicate ReconciledBands(values: map<int, BandStats>, mins: Series, maxes: Series, means: Series,
                                  globalMin: Option<real>, globalMax: Option<real>)
  {
    && values.Keys == {0, 1, 2}
    && |mins| >= 3 && |maxes| >= 3 && |means| >= 3
    && forall b :: 0 <= b < 3 ==>
         && b in values
         && values[b].min == OrElse(mins[b], globalMin)
         && values[b].max == OrElse(maxes[b], globalMax)
         && values[b].mean == means[b]
  }

  /** A map whose keys are exactly 0, 1 and 2. */
  lemma KeysOfThreeBands(bands: map<int, BandStats>)
    requires forall b :: b in bands <==> 0 <= b < 3
    ensures bands.Keys == {0, 1, 2}
  {
    assert 0 in bands && 1 in bands && 2 in bands;
    forall b | b in bands.Keys ensures b in {0, 1, 2} {
      assert 0 <= b < 3;
    }
  }

  /**
   * One band's statistics: each key is set only when its series value, or for
   * the minimum and maximum the global tag, is present.
   */
  method ReconcileBand(min: Option<real>, max: Option<real>, mean: Option<real>,
                       globalMin: Option<real>, globalMax: Option<real>)
    returns (stats: BandStats)
    ensures stats.min == OrElse(min, globalMin)
    ensures stats.max == OrElse(max, globalMax)
    ensures stats.mean == mean
  {
    stats := BandStats(None, None, None);
    if min.Some? {
      stats := stats.(min := min);
    } else if globalMin.Some? {
      stats := stats.(min := globalMin);
    }
    if max.Some? {
      stats := stats.(max := max);
    } else if globalMax.Some? {
      stats := stats.(max := globalMax);
    }
    if mean.Some? {
      stats := stats.(mean := mean);
    }
  }

  /**
   * The band loop: for each of the bands 0, 1 and 2, the minimum, maximum and
   * mean are read from the series and reconciled with the global tags. A read
   * past the end of a series raises, as `BandIndexError` says.
   */
  method ReconcileBands(mins: Series, maxes: Series, means: Series,
                        globalMin: Option<real>, globalMax: Option<real>)
    returns (r: Result<map<int, BandStats>, CatalogError>)
    ensures r.Failure? <==> BandIndexError(mins, maxes, means, 0).Some?
    ensures r.Failure? ==> BandIndexError(mins, maxes, means, 0) == Some(r.error)
    ensures r.Success? ==> ReconciledBands(r.value, mins, maxes, means, globalMin, globalMax)
  {
    var bands: map<int, BandStats> := map[];
    for band := 0 to 3
      invariant forall b :: b in bands <==> 0 <= b < band
      invariant band > 0 ==> |mins| >= band && |maxes| >= band && |means| >= band
      invariant forall b :: 0 <= b < band ==>
                  && b < |mins| && b < |maxes| && b < |means|
                  && bands[b].min == OrElse(mins[b], globalMin)
                  && bands[b].max == OrElse(maxes[b], globalMax)
                  && bands[b].mean == means[b]
      invariant BandIndexError(mins, maxes, means, 0) == BandIndexError(mins, maxes, means, band)
    {
      if band >= |mins| {
        return Failure(SeriesIndexError(Per02, band));
      }
      if band >= |maxes| {
        return Failure(SeriesIndexError(Per98, band));
      }
      if band >= |means| {
        return Failure(SeriesIndexError(Mean, band));
      }
      var stats := ReconcileBand(mins[band], maxes[band], means[band], globalMin, globalMax);
      bands := bands[band := stats];
    }
    KeysOfThreeBands(bands);
    return Success(bands);
  }

  // ---------------------------------------------------------------------
  // Recipe band list

  /** `map(int, parts)`: each piece as `int()` reads it. */
  function ParseAll(parts: seq<string>): (r: seq<Option<int>>)
    ensures |r| == |parts|
    ensures forall i :: 0 <= i < |parts| ==> r[i] == ParseInt(parts[i])
  {
    if |parts| == 0 then [] else [ParseInt(parts[0])] + ParseAll(parts[1..])
  }

  /** The band list of a comma-separated band order. */
  function BandList(rgb: string): (r: seq<Option<int>>)
    ensures |r| >= 1
    ensures ',' !in rgb ==> r == [ParseInt(rgb)]
    ensures rgb == "" ==> r == [None]
  {
    assert ',' !in rgb ==> Split(rgb, ',') == [rgb] by {
      if ',' !in rgb { SplitWithout(rgb, ','); }
    }
    ParseAll(Split(rgb, ','))
  }

  /** The decimal spellings of a list of band numbers, as a list of texts. */
  function Decimals(ns: seq<nat>): (r: seq<string>)
    ensures |r| == |ns|
    ensures forall i :: 0 <= i < |r| ==> r[i] == Decimal(ns[i])
  {
    if |ns| == 0 then [] else [Decimal(ns[0])] + Decimals(ns[1..])
  }

  /** A band order written as comma-separated decimals reads back as exactly those integers. */
  lemma BandListRoundTrip(ns: seq<nat>)
    requires |ns| >= 1
    ensures var r := BandList(Join(Decimals(ns), ','));
            |r| == |ns| && forall i :: 0 <= i < |ns| ==> r[i] == Some(ns[i] as int)
  {
    var ds := Decimals(ns);
    forall i | 0 <= i < |ds| ensures ',' !in ds[i] {
      assert forall j :: 0 <= j < |ds[i]| ==> IsDigit(ds[i][j]);
    }
    SplitJoin(ds, ',');
    forall i | 0 <= i < |ns| ensures ParseInt(ds[i]) == Some(ns[i] as int) {
      ParseDecimal(ns[i]);
    }
  }

  /** `"3,2,1"` gives the bands 3, 2 and 1. */
  lemma BandListExample()
    ensures BandList("3,2,1") == [Some(3), Some(2), Some(1)]
  {
    assert Join(Decimals([3, 2, 1]), ',') == "3,2,1";
    BandListRoundTrip([3, 2, 1]);
  }

  // ---------------------------------------------------------------------
  // The catalog entry

  class VirtualCatalog {
    var uri: string
    var algName: string
    var rgb: Option<string>
    var nodata: Option<Arg>
    var linearStretch: Option<Arg>
    var resample: Option<string>
    var algorithm: Option<string>
    var bounds: Bounds
    var resolution: Resolution
    /** The per-band statistics (the `values` entry of the entry's metadata). */
    var values: map<int, BandStats>
    var center: Center
    var minzoom: int
    var maxzoom: int
    /** The zoom the raster library derived; construction keeps only values computed from it. */
    ghost var approximateZoom: int

    /** What holds of every constructed entry. */
    ghost predicate Valid()
      reads this
    {
      && values.Keys == {0, 1, 2}
      && minzoom == approximateZoom - 10
      && maxzoom == approximateZoom + 3
      && center.zoom == approximateZoom - 3
      && (resample.Some? ==> resample.value in ResamplingMembers)
      && (nodata.Some? ==> Truthy(nodata))
      && (linearStretch.Some? ==> Truthy(linearStretch))
    }

    /** The state construction produces from its arguments, the fetched document and the raster header. */
    ghost predicate ConstructedFrom(uri: string, algName: Option<string>, rgb: Option<string>,
                                    nodata: Option<Arg>, linearStretch: Option<Arg>, resample: Option<string>,
                                    doc: Document, header: RasterHeader)
      reads this
    {
      && DocumentError(doc, algName) == None
      && (DocumentReadable(doc, algName);
         var block := doc[algName.value];
         var mins, maxes, means := Broadcast(block.per02.value), Broadcast(block.per98.value), Broadcast(block.mean.value);
         && Valid()
         && this.uri == uri && this.algName == algName.value
         && this.nodata == (if Truthy(nodata) then nodata else None)
         && this.linearStretch == (if Truthy(linearStretch) then linearStretch else None)
         && (this.resample.Some? <==> resample.Some? && resample.value in ResamplingMembers)
         && (this.resample.Some? ==> this.resample == resample)
         && this.rgb == block.renderOrder
         && this.algorithm == block.algorithm
         && this.bounds == header.bounds
         && this.resolution == header.resolution
         && ReconciledBands(values, mins, maxes, means, header.globalMin, header.globalMax)
         && approximateZoom == header.approximateZoom
         && center == Center((header.bounds.west + header.bounds.east) / 2.0,
                             (header.bounds.south + header.bounds.north) / 2.0,
                             header.approximateZoom - 3))
    }

    /**
     * Resolves an entry from its arguments, the fetched side-car document and
     * the raster header, when reading the document raises nothing (see `Open`
     * for construction with its errors).
     */
    constructor (uri: string, algName: Option<string>, rgb: Option<string>,
                 nodata: Option<Arg>, linearStretch: Option<Arg>, resample: Option<string>,
                 doc: Document, header: RasterHeader)
      requires DocumentError(doc, algName) == None
      ensures ConstructedFrom(uri, algName, rgb, nodata, linearStretch, resample, doc, header)
    {
      this.uri := uri;
      if TruthyText(algName) {
        this.algName := algName.value;
      }
      this.rgb := None;
      if TruthyText(rgb) {
        this.rgb := rgb;
      }
      this.nodata := None;
      if Truthy(nodata) {
        this.nodata := nodata;
      }
      this.linearStretch := None;
      if Truthy(linearStretch) {
        this.linearStretch := linearStretch;
      }
      if resample.Some? && resample.value in ResamplingMembers {
        this.resample := resample;
      } else {
        this.resample := None;
      }

      DocumentReadable(doc, algName);
      var block := doc[algName.value];
      this.bounds := header.bounds;
      this.resolution := header.resolution;

      var maxes := Broadcast(block.per98.value);
      var mins := Broadcast(block.per02.value);
      var means := Broadcast(block.mean.value);
      this.rgb := block.renderOrder;
      this.algorithm := block.algorithm;

      var bands := ReconcileBands(mins, maxes, means, header.globalMin, header.globalMax);
      this.values := bands.value;

      this.approximateZoom := header.approximateZoom;
      this.center := Center((header.bounds.west + header.bounds.east) / 2.0,
                            (header.bounds.south + header.bounds.north) / 2.0,
                            header.approximateZoom - 3);
      this.maxzoom := header.approximateZoom + 3;
      this.minzoom := header.approximateZoom - 10;
    }

    /** Construction as the caller sees it: the entry, or the error construction raises. */
    static method Open(uri: string, parsed: ParsedUri, algName: Option<string>, rgb: Option<string>,
                       nodata: Option<Arg>, linearStretch: Option<Arg>, resample: Option<string>,
                       store: ObjectStore, raster: Option<RasterHeader>)
      returns (r: Result<VirtualCatalog, CatalogError>)
      ensures r.Failure? <==> ConstructionError(parsed, algName, store, raster).Some?
      ensures r.Failure? ==> ConstructionError(parsed, algName, store, raster) == Some(r.error)
      ensures r.Success? ==> fresh(r.value)
      ensures r.Success? ==>
                && SideCarObject(parsed) in store && raster.Some?
                && r.value.ConstructedFrom(uri, algName, rgb, nodata, linearStretch, resample,
                                           store[SideCarObject(parsed)], raster.value)
    {
      var id := SideCarObject(parsed);
      if id !in store {
        return Failure(MetadataFetchError(id));
      }
      if raster.None? {
        return Failure(RasterAccessError);
      }
      var e := DocumentError(store[id], algName);
      if e.Some? {
        return Failure(e.value);
      }
      var c := new VirtualCatalog(uri, algName, rgb, nodata, linearStretch, resample, store[id], raster.value);
      return Success(c);
    }

    /**
     * The one source descriptor of the entry. The requested bounds and
     * resolution are accepted and not used.
     */
    method GetSources(tileBounds: Bounds, tileResolution: Resolution) returns (source: Source)
      ensures source.url == uri && source.resolution == resolution && source.bandInfo == map[]
      ensures source.meta == map["values" := values]
      ensures source.recipes.Keys <= RecipeKeys
      ensures "imagery" in source.recipes && source.recipes["imagery"] == BoolValue(true)
      ensures ("rgb_bands" in source.recipes) <==> rgb.Some?
      ensures rgb.Some? ==> source.recipes["rgb_bands"] == IntList(BandList(rgb.value))
      ensures ("nodata" in source.recipes) <==> nodata.Some?
      ensures nodata.Some? ==> source.recipes["nodata"] == ArgValue(nodata.value)
      ensures ("linear_stretch" in source.recipes) <==> linearStretch.Some?
      ensures linearStretch.Some? ==> source.recipes["linear_stretch"] == StrValue("per_band")
      ensures ("resample" in source.recipes) <==> resample.Some?
      ensures resample.Some? ==> source.recipes["resample"] == StrValue(resample.value)
      ensures ("algorithm" in source.recipes) <==> algorithm.Some?
      ensures algorithm.Some? ==> source.recipes["algorithm"] == StrValue(algorithm.value)
    {
      var recipes := map["imagery" := BoolValue(true)];
      if rgb.Some? {
        recipes := recipes["rgb_bands" := IntList(BandList(rgb.value))];
      }
      if nodata.Some? {
        recipes := recipes["nodata" := ArgValue(nodata.value)];
      }
      if linearStretch.Some? {
        recipes := recipes["linear_stretch" := StrValue("per_band")];
      }
      if resample.Some? {
        recipes := recipes["resample" := StrValue(resample.value)];
      }
      if algorithm.Some? {
        recipes := recipes["algorithm" := StrValue(algorithm.value)];
      }
      source := Source(uri, resolution, map[], map["values" := values], recipes);
    }
  }

  /** Every constructed entry's zoom window brackets its native zoom. */
  lemma ZoomWindowOrdered(c: VirtualCatalog)
    requires c.Valid()
    ensures c.minzoom < c.center.zoom < c.approximateZoom < c.maxzoom
  {
  }

  /** The explicit band order argument never survives construction. */
  lemma RgbArgumentOverwritten(c1: VirtualCatalog, c2: VirtualCatalog, uri: string, algName: Option<string>,
                               rgb1: Option<string>, rgb2: Option<string>, nodata: Option<Arg>,
                               linearStretch: Option<Arg>, resample: Option<string>,
                               doc: Document, header: RasterHeader)
    requires c1.ConstructedFrom(uri, algName, rgb1, nodata, linearStretch, resample, doc, header)
    requires c2.ConstructedFrom(uri, algName, rgb2, nodata, linearStretch, resample, doc, header)
    ensures c1.rgb == c2.rgb
  {
  }

  /** The worked example's side-car document names a readable algorithm. */
  lemma ExampleDocumentReadable(block: AlgorithmStats, doc: Document)
    requires block == AlgorithmStats(Some([Some(200.0)]), Some([Some(10.0)]), Some([Some(100.0)]),
                                     Some("3,2,1"), Some("histogram"))
    requires doc == map["alg1" := block]
    ensures DocumentError(doc, Some("alg1")) == None
  {
    StatisticsReadable(block);
    assert "alg1" in doc && doc["alg1"] == block;
  }

  /** Nothing in the worked example makes construction fail. */
  lemma ExampleConstructs(parsed: ParsedUri, block: AlgorithmStats, doc: Document, store: ObjectStore,
                          header: RasterHeader)
    requires block == AlgorithmStats(Some([Some(200.0)]), Some([Some(10.0)]), Some([Some(100.0)]),
                                     Some("3,2,1"), Some("histogram"))
    requires doc == map["alg1" := block]
    requires store == map[SideCarObject(parsed) := doc]
    ensures ConstructionError(parsed, Some("alg1"), store, Some(header)) == None
  {
    ExampleDocumentReadable(block, doc);
    assert SideCarObject(parsed) in store && store[SideCarObject(parsed)] == doc;
  }

  /**
   * The worked example: an image (`s3://bucket/img/scene.tif`, whose side-car
   * address `SideCarExample` gives) whose side-car document gives one value
   * per series, a band order and an algorithm. The entry does not depend on
   * where the document is stored, so the locator is left open.
   */
  method OpenExample(parsed: ParsedUri, header: RasterHeader) returns (c: VirtualCatalog)
    ensures c.rgb == Some("3,2,1") && c.algorithm == Some("histogram")
    ensures c.nodata.None? && c.linearStretch.None? && c.resample.None?
    ensures forall b :: 0 <= b < 3 ==> b in c.values && c.values[b] == BandStats(Some(10.0), Some(200.0), Some(100.0))
  {
    var block := AlgorithmStats(Some([Some(200.0)]), Some([Some(10.0)]), Some([Some(100.0)]),
                                Some("3,2,1"), Some("histogram"));
    var doc := map["alg1" := block];
    var store := map[SideCarObject(parsed) := doc];
    ExampleConstructs(parsed, block, doc, store, header);
    var r := VirtualCatalog.Open("s3://bucket/img/scene.tif", parsed, Some("alg1"), None, None, None, None,
                                 store, Some(header));
    c := r.value;
  }

  /** The recipes the worked example hands to the tiler. */
  method ExampleSources(parsed: ParsedUri, header: RasterHeader) returns (source: Source)
    ensures "rgb_bands" in source.recipes && source.recipes["rgb_bands"] == IntList([Some(3), Some(2), Some(1)])
    ensures "algorithm" in source.recipes && source.recipes["algorithm"] == StrValue("histogram")
    ensures "nodata" !in source.recipes && "linear_stretch" !in source.recipes && "resample" !in source.recipes
  {
    var c := OpenExample(parsed, header);
    source := c.GetSources(header.bounds, header.resolution);
    BandListExample();
  }
}
