# Virtual catalog entry

A model of the virtual imagery catalog entry in `virtual/catalogs.py`. Each entry stands for one remote raster
image. Construction does the following:

- finds the image's side-car statistics document: same bucket, same key with its extension replaced by `.json`;
- reads one algorithm's block of that document;
- reconciles the per-band minimum, maximum and mean with the raster's own sample-value tags;
- derives the zoom window and the initial view from the raster's native zoom.

`get_sources` then gives the renderer one source descriptor and the rendering recipe.

The files:

- `wrappers.dfy`: `Option`, `Result` and `OrElse`, which picks the first present value.
- `pytext.dfy`: the Python text operations the entry relies on, with their laws. These are `str.lstrip`,
  `str.split` / `str.join`, POSIX `os.path.splitext` and base-10 `int()` with the white space it skips.
- `catalogs.dfy`: the entry itself.
  - The error construction raises, as a function of its inputs (`ConstructionError`).
  - The band loop, as a method proved against `ReconciledBands` (`ReconcileBands`).
  - The class `VirtualCatalog`: a constructor, `Open` (construction with its errors) and `GetSources`.
  - The worked example: `s3://bucket/img/scene.tif`, with one value per series.

Construction reads two things from outside. Both are inputs here:

- The object store: a map from addresses to the parsed side-car documents. A missing address is the failed fetch.
- The raster header: reprojected bounds, resolution in meters, native zoom and the two sample-value tags. `None`
  means opening or reprojecting the raster raised.

Three behaviours of the code are worth stating outright:

- A statistics series is readable when it has one value, which is broadcast to the three bands, or three
  or more values, of which the first three are read. A series of 0 or 2 values raises an index error at the
  first band it lacks, unless another series fails first. See `StatisticsReadable` and `LengthTwoSeriesFails`.
- `rgb_bands` splits the band order at commas and converts each piece lazily. Nothing checks the number of
  pieces, and a piece `int()` rejects only raises when the list is consumed. The model keeps one
  `Option<int>` per piece.
- The document's `RENDER_ORDER` always replaces the `rgb` argument, even when the document has none: the
  argument never reaches the recipe. See `RgbArgumentOverwritten`.

## Model

| member | source | states |
|---|---|---|
| Catalogs.SideCarBucket | virtual/catalogs.py:50 | the bucket is the host text up to its first dot: a prefix of the host with no dot, followed by the end of the host or a dot |
| Catalogs.SideCarKey | virtual/catalogs.py:51-52 | the key ends in `.json`; what precedes it is a prefix of the path with its leading slashes stripped, and what it drops of that path is nothing or exactly one extension (a dot followed by neither dot nor slash) |
| Catalogs.Truthy | virtual/catalogs.py:34-38 | an argument passes the `if x:` test exactly when it is not one of Python's falsy values `None`, `False`, `0` and `""` |
| Catalogs.TruthyText | virtual/catalogs.py:28-32 | a text argument passes the `if x:` test exactly when it is neither `None` nor `""` |
| Catalogs.SideCarObject | virtual/catalogs.py:49-53 | the address fetched: a bucket with no dot, no longer than the host, and a key that ends in `.json` and does not start with a slash |
| Catalogs.SideCarKeyAppends | virtual/catalogs.py:51-52 | a stripped path whose last component has no dot, or only leading dots (a dot-file), gets `.json` appended, whatever dots its directories hold |
| Catalogs.SideCarKeyReplaces | virtual/catalogs.py:51-52 | a stripped path `stem.ext` whose last component does not start with the dot gets `stem.json` |
| Catalogs.SideCarBucketWhole | virtual/catalogs.py:50 | a host without a dot is itself the bucket |
| Catalogs.SideCarKeyNested | virtual/catalogs.py:51-52 | a path `/dir/name.ext`, with one leading slash, a name that does not start with a dot and a dot- and slash-free extension, gets the key `dir/name.json` |
| Catalogs.SideCarKeyExample | virtual/catalogs.py:51-52 | `/img/scene.tif` (given as its pieces `img`, `scene`, `tif`) gives the key `img/scene.json` |
| Catalogs.SideCarExample | virtual/catalogs.py:49-53 | host `bucket` and path `/img/scene.tif` address `img/scene.json` in `bucket` |
| Catalogs.Broadcast | virtual/catalogs.py:66-76 | a one-value series becomes three copies of that value; any other series is unchanged |
| Catalogs.StatisticsError | virtual/catalogs.py:66-87 | reading an algorithm's block raises only a missing-series or an index error, and raises a missing-series error exactly when one of the three series is absent |
| Catalogs.DocumentError | virtual/catalogs.py:28-66 | a falsy algorithm name raises the missing-name error, and only then; a name the document lacks raises the unknown-algorithm error for that name, and only then; reading the document never raises a fetch or raster error |
| Catalogs.ConstructionError | virtual/catalogs.py:49-87 | construction raises the fetch error for the side-car address exactly when the store lacks it, the raster error exactly when the document is there and the raster is not, and raises nothing only when both are there; when both are there it raises exactly what reading the fetched document raises |
| Catalogs.BandIndexError | virtual/catalogs.py:82-87 | the band loop raises exactly when some series has fewer than three entries; the error names the first band that cannot be read and the first series read at that band that is too short (minima, then maxima, then means) |
| Catalogs.DocumentReadable | virtual/catalogs.py:28-76 | a document that raises nothing has a non-empty algorithm name, a block for it and three series each readable for three bands after broadcasting |
| Catalogs.StatisticsReadable | virtual/catalogs.py:66-87 | with all three series present, reading the statistics raises nothing if and only if each series has one value or at least three |
| Catalogs.LengthTwoSeriesFails | virtual/catalogs.py:67-87 | a series of two values is not broadcast, and reading then fails with an index error at band 0, 1 or 2 |
| Catalogs.ReconcileBand | virtual/catalogs.py:89-100 | one band gets the series minimum or else the global minimum, the series maximum or else the global maximum, and the series mean with no fallback |
| Catalogs.ReconcileBands | virtual/catalogs.py:82-100 | the loop fails exactly when `BandIndexError` predicts, with that error; otherwise bands 0, 1 and 2 each get the series minimum or else the global minimum, the series maximum or else the global maximum, and the series mean with no fallback |
| Catalogs.ParseAll | virtual/catalogs.py:118 | one entry per piece, each the piece as `int()` reads it |
| Catalogs.BandList | virtual/catalogs.py:117-118 | at least one entry; a band order without a comma is one entry, `int()` of the whole text; an empty band order gives one entry `int()` rejects |
| Catalogs.BandListRoundTrip | virtual/catalogs.py:117-118 | a band order written as comma-separated decimals reads back as exactly those integers, one per piece |
| Catalogs.BandListExample | virtual/catalogs.py:117-118 | `"3,2,1"` gives the bands 3, 2 and 1 |
| Catalogs.VirtualCatalog.constructor | virtual/catalogs.py:25-108 | from a readable document and a raster header: the name, nodata and stretch arguments are kept only when truthy; resampling is kept only when it names a member of the resampling enumeration; band order and algorithm come from the document; bounds and resolution come from the header; the bands are reconciled; the center is the middle of the bounds at zoom-3; the zoom window is zoom-10 to zoom+3 |
| Catalogs.VirtualCatalog.Open | virtual/catalogs.py:25-108 | construction fails exactly when `ConstructionError` says, with that error (fetch, then raster, then the document's name, key and series, then the band loop); otherwise it gives a fresh entry built from the fetched document and the header |
| Catalogs.VirtualCatalog.GetSources | virtual/catalogs.py:114-139 | the descriptor carries the entry's locator, resolution, empty band info and band statistics; the recipe always holds `imagery: true`; each optional key is present exactly when the entry has that setting, with the parsed band list, the nodata value, `per_band`, the resampling name or the algorithm |
| Catalogs.ZoomWindowOrdered | virtual/catalogs.py:102-108 | every entry has minimum zoom < initial zoom < native zoom < maximum zoom |
| Catalogs.RgbArgumentOverwritten | virtual/catalogs.py:31-78 | two entries built from the same inputs apart from the band-order argument have the same band order |
| Catalogs.ExampleDocumentReadable | virtual/catalogs.py:66-100 | the example document's block for `alg1` reads without error |
| Catalogs.ExampleConstructs | virtual/catalogs.py:49-100 | constructing the example entry, with the example document stored at the locator's side-car address, raises nothing |
| Catalogs.OpenExample | virtual/catalogs.py:25-108 | for any locator whose side-car address holds the example document, the entry has band order `3,2,1`, algorithm `histogram`, no nodata, stretch or resampling, and min 10, max 200, mean 100 for each of bands 0, 1 and 2 |
| Catalogs.ExampleSources | virtual/catalogs.py:114-139 | the example recipe has `rgb_bands` [3, 2, 1] and `algorithm` `histogram`, and no nodata, stretch or resampling key |
| Wrappers.OrElse | virtual/catalogs.py:89-97 | the first value when present, else the fallback; present exactly when one of them is |
| PyText.LStrip | virtual/catalogs.py:51 | the result is a suffix of the text; everything dropped is the stripped character; the result does not start with it |
| PyText.Split | virtual/catalogs.py:118 | at least one piece, and no piece contains the separator |
| PyText.JoinSplit | virtual/catalogs.py:118 | joining the pieces of a split with the separator gives back the text |
| PyText.SplitJoin | virtual/catalogs.py:118 | splitting a join of separator-free pieces gives back the pieces |
| PyText.SplitFirst | virtual/catalogs.py:50 | the first piece is the text before the first separator |
| PyText.SplitWithout | virtual/catalogs.py:50 | a text without the separator splits into itself alone |
| PyText.RFind | virtual/catalogs.py:52 | the index of the last occurrence, with none after it, or -1 exactly when there is none |
| PyText.SplitExt | virtual/catalogs.py:52 | root and extension concatenate to the path; the extension is empty or a dot followed by neither dot nor slash |
| PyText.NoExtension | virtual/catalogs.py:52 | a path whose last component has no dot, or only leading dots, has no extension |
| PyText.SplitExtAt | virtual/catalogs.py:52 | `stem.ext` with a dot- and slash-free extension, where the last component of `stem` has a character that is not a dot, splits into `stem` and `.ext` |
| PyText.Strip | virtual/catalogs.py:118 | the trimming `int()` does: the result is a contiguous part of the text with only white space cut off either end; it neither starts nor ends with white space; a text that does neither is kept as it is. White space is what `int()` skips: ASCII tab, line feed, vertical tab, form feed, carriage return and space, and the non-ASCII Unicode white space, but not U+001C..U+001F |
| PyText.ParseInt | virtual/catalogs.py:118 | a text `int()` accepts is, once stripped, digits and underscores with one optional leading sign, ending in a digit; a negative result comes from a leading `-` |
| PyText.ParseDecimal | virtual/catalogs.py:118 | `int()` reads the decimal spelling of n as n, and that spelling with a leading `-` as -n |
| PyText.SeparatorRejected | virtual/catalogs.py:118 | `int()` rejects a digit string with one of U+001C..U+001F before or after it: these are not skipped as white space |
| PyText.NoDigitRejected | virtual/catalogs.py:118 | `int()` rejects a text with no digit |

## Left out

- The object store and JSON decoding are inputs: the store maps each fetchable address to its parsed document. The model has no undecodable document, and no JSON value of an unexpected type (a series that is not a list, a band order that is not a text).
- The raster library is an input too: opening the raster, reprojecting its bounds, the resolution in meters and the native zoom (`get_zoom`). All of its failures are one `RasterAccessError`.
- `urlparse` is not modelled; construction takes the parsed host and path.
- Floating-point numbers are modelled as reals, with no rounding. The midpoint of the bounds and `float()` of a statistic are exact. The sample-value tags are taken as numbers: a tag `float()` rejects is not modelled.
- `int()` accepts only ASCII digits here; Python also accepts other Unicode decimal digits. `int()` here also reads texts of any length, while CPython since 3.11 rejects texts of more than 4300 digits by default.
- The resampling enumeration is a fixed set of member names, those of the raster library's `Resampling`.
- The descriptor's `name` field is not modelled: `_name` is not set by this class.
- The metadata dictionary is modelled as its one `values` entry, and the band loop builds a map that construction then stores. The model does not update `self._meta` in place.
- `get_sources` is a generator that yields one descriptor, and `map(int, …)` is a one-shot iterator. The model returns the descriptor and the list; laziness and exhaustion are not modelled.
- Logging and the `uri` property are not modelled.
