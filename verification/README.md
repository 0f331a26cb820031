# Chart RPC handler of the app-center ratings service, in Dafny

This project models the `GetChart` RPC of the ratings service (`src/grpc/charts.rs`).
The RPC takes a timeframe ordinal and an optional category ordinal and returns a ranked
chart of snaps for that window. Each entry carries its raw score, its vote aggregate
(snap id, vote count, ratings band) and the snap's display name.

The handler's decision logic is modelled as pure functions:

- `Charts.DecodeRequest` validates the request. The category is decoded strictly: an unknown
  ordinal is `InvalidArgument`. The timeframe is decoded leniently: an unknown ordinal
  becomes `Unspecified`.
- `Charts.GetChart` takes the request, the outcome of the chart lookup and one name-lookup
  outcome per chart entry. It returns the response or one of three statuses: InvalidArgument,
  NotFound for an empty chart, or Unknown "Internal server error" for any store or name failure.
- `Charts.Serve` is the same handler with the data store and the name lookup passed in as
  functions. This lets the model state that the store is asked for the decoded key, and not
  asked at all for an unknown category.
- `Join.CollectAll` is `try_join_all`, taken as a sequential all-or-nothing collect that keeps positions.
- `Conversions` holds the record conversions between the domain and the wire records:
  a chart entry and a rating go out with a name attached, a wire rating comes back, and a
  band maps to the wire band of the same name.

Modules: `Results` (Option, Result), `Ints` (i32, u64), `Ratings` (domain enums and
records), `Proto` (wire records and statuses), `Conversions`, `Join`, `Charts`.

The enum definitions and their `from_repr` are defined outside src/grpc/charts.rs and are not
modelled from code: `Category` and `Timeframe` live in `crate::db`, `RatingsBand` in
`crate::ratings`, and the wire `RatingsBand` in the generated `crate::proto::common`. Their
ordinals are assumed. The model gives each enum its variants in declaration order, with
ordinals counted from 0:

- Timeframe: Unspecified = 0, Week = 1, Month = 2.
- RatingsBand: VeryGood = 0 through InsufficientVotes = 5.
- Category: the twenty snap categories, ArtAndDesign = 0 through Utilities = 19.

The properties below assume this shape: each enum's ordinals run without gaps from 0, and
`Unspecified` is 0. Every contract that states an ordinal range or a fallback to 0 depends on
it, for example the in-range conditions of `Ratings.Category.FromRepr`,
`Ratings.Timeframe.FromRepr` and `Ratings.RatingsBand.FromRepr`, `Charts.UnknownCategory`,
`Charts.DecodeTimeframe`, the timeframe clause of `Charts.GetChart`,
`Conversions.ValidPbRatingIffBandOrdinal`, `Ratings.Timeframe.ToRepr` and
`Charts.UnknownTimeframeIsUnspecified`. The worked example `Charts.TwoEntryWeeklyChart` also
uses the exact values above.

Store and lookup failures map to the status code `Unknown` with the message
"Internal server error", which is what the handler's `Status::unknown` produces. They do not map
to `INTERNAL`, although the message suggests that code.

## Model

| member | source | states |
|---|---|---|
| Ratings.Category.FromRepr | src/grpc/charts.rs:42-47 | a category ordinal decodes exactly when it is in range, and it decodes to the category with that ordinal |
| Ratings.Timeframe.FromRepr | src/grpc/charts.rs:49 | a timeframe ordinal decodes exactly when it is in range, and it decodes to the timeframe with that ordinal |
| Ratings.RatingsBand.FromRepr | src/grpc/charts.rs:136 | a band ordinal decodes exactly when it is one of the six, and it decodes to the band with that ordinal |
| Ratings.Category.ToRepr | src/grpc/charts.rs:77 | a category's ordinal (`c as i32`) is one of the twenty in range. The inverse is `Ratings.CategoryReprRoundTrip` |
| Ratings.RatingsBand.ToRepr | src/grpc/charts.rs:125 | a band's ordinal (`ratings_band as i32`) is one of the six in range. The inverse is `Ratings.BandReprRoundTrip` |
| Ratings.Timeframe.ToRepr | src/grpc/charts.rs:76 | a timeframe's ordinal is in range, and it is 0 exactly for `Unspecified` |
| Ratings.CategoryReprRoundTrip | src/grpc/charts.rs:44 | decoding a category's ordinal gives that category back |
| Ratings.TimeframeReprRoundTrip | src/grpc/charts.rs:49 | decoding a timeframe's ordinal gives that timeframe back |
| Ratings.BandReprRoundTrip | src/grpc/charts.rs:125-136 | decoding a band's ordinal gives that band back |
| Ratings.BandReprInjective | src/grpc/charts.rs:125 | distinct bands have distinct ordinals |
| Ratings.CategoryReprInjective | src/grpc/charts.rs:77 | distinct categories have distinct ordinals |
| Conversions.RatingFromPb | src/grpc/charts.rs:131-139 | reading a wire rating keeps its snap id and vote count, and the band read has the wire ordinal. It requires a valid band ordinal, because the source unwraps the decoded band |
| Conversions.FromRatingAndSnapName | src/grpc/charts.rs:120-129 | the wire rating carries the given name and a valid band ordinal, and reading it back gives the original rating |
| Conversions.FromChartDataAndSnapName | src/grpc/charts.rs:108-118 | the wire entry keeps the raw score and always has a rating. That rating carries the name, and reading it back gives the entry's rating |
| Conversions.BandToPb | src/grpc/charts.rs:141-152 | each band maps to the wire band with the same ordinal |
| Conversions.RatingRoundTrip | src/grpc/charts.rs:120-139 | a rating sent out under any name and read back is unchanged |
| Conversions.PbRatingRoundTrip | src/grpc/charts.rs:120-139 | a valid wire rating read in and sent out again under its own name is unchanged |
| Conversions.ValidPbRatingIffBandOrdinal | src/grpc/charts.rs:136 | a wire rating can be read exactly when its band ordinal is one of the six |
| Conversions.BandToPbInjective | src/grpc/charts.rs:141-152 | distinct bands map to distinct wire bands |
| Conversions.BandToPbSurjective | src/grpc/charts.rs:141-152 | every wire band is the image of some band, so the mapping is a bijection |
| Join.CollectAll | src/grpc/charts.rs:59-73 | the collect succeeds exactly when every outcome succeeded. The values then sit at the positions of their outcomes. A failure carries the error of the first failed outcome |
| Charts.DecodeTimeframe | src/grpc/charts.rs:49 | a known ordinal decodes to the timeframe with that ordinal, and an unknown one to `Unspecified` |
| Charts.DecodeCategory | src/grpc/charts.rs:42-47 | the decode fails, with the "invalid category value" InvalidArgument status, exactly when the category is present and unknown. Otherwise re-encoding gives the raw value back |
| Charts.EncodeCategory | src/grpc/charts.rs:77 | an absent category encodes to None. A present one encodes to an in-range ordinal that decodes back to that category |
| Charts.Enrich | src/grpc/charts.rs:59-71 | one wire entry per chart entry, in order. Entry i keeps entry i's raw score and carries the i-th name, and its rating reads back to entry i's rating |
| Charts.DecodeRequest | src/grpc/charts.rs:37-49 | only an unknown category makes validation fail. A decoded key re-encodes to the request's category and holds the leniently decoded timeframe |
| Charts.Respond | src/grpc/charts.rs:51-88 | a store error gives Unknown "Internal server error", and an empty chart gives NotFound. Otherwise the call succeeds exactly when every name resolved, and any failure is the internal error. On success, entry i is chart entry i with the i-th name, and the response holds the key's ordinals |
| Charts.GetChart | src/grpc/charts.rs:33-89 | only the three statuses are produced, and InvalidArgument comes exactly for an unknown category. On success the category ordinal is echoed, the timeframe ordinal is echoed or 0 when unknown, and the entries are the chart's entries in order with the names attached |
| Charts.Serve | src/grpc/charts.rs:42-73 | with collaborators as functions, only the three statuses are produced, and InvalidArgument comes exactly for an unknown category |
| Charts.InvalidCategoryIgnoresCollaborators | src/grpc/charts.rs:42-51 | for an unknown category, the answer is InvalidArgument whatever the chart and name outcomes |
| Charts.InvalidCategoryNeverConsultsStore | src/grpc/charts.rs:42-51 | for an unknown category, any two stores and name lookups give the same rejection, so neither is consulted |
| Charts.ServeConsultsDecodedKey | src/grpc/charts.rs:42-73 | for a known category, the store is asked for the decoded key, and each name is looked up by its entry's snap id, in order |
| Charts.UnknownTimeframeIsUnspecified | src/grpc/charts.rs:49 | an unknown timeframe ordinal is answered exactly as ordinal 0 (`Unspecified`) is, and never by itself causes InvalidArgument |
| Charts.StoreErrorIsInternal | src/grpc/charts.rs:84-87 | a store error gives the Unknown "Internal server error" status |
| Charts.EmptyChartIsNotFound | src/grpc/charts.rs:53-56 | an empty chart gives NotFound, whatever the name lookup would answer |
| Charts.ServeResolvesEveryEntry | src/grpc/charts.rs:58-73 | for a known category and a non-empty chart, the request succeeds exactly when the lookup of every entry's snap id succeeds. Entry i then keeps chart entry i's raw score and carries the name resolved for entry i's snap id |
| Charts.EnrichmentFailureIsInternal | src/grpc/charts.rs:59-73 | one failed name lookup anywhere fails the whole request with the internal error, with no partial response |
| Charts.AllNamesResolvedSucceeds | src/grpc/charts.rs:58-81 | for a known category and a non-empty chart, the request succeeds when every name resolves |
| Charts.ResponseRatingsRoundTrip | src/grpc/charts.rs:59-71 | reading the enriched entries back with `From<PbRating>` gives the chart's ratings in order |
| Charts.GetChartRatingsRoundTrip | src/grpc/charts.rs:59-79 | the ratings a client reads from a successful response are the chart's ratings, in the chart's order |
| Charts.TwoEntryWeeklyChart | src/grpc/charts.rs:58-81 | a two-entry weekly chart without a category, with both names resolved, comes back in order with the names attached |

## Left out

- The `#[cached]` memoization of `get_chart_cached` (src/grpc/charts.rs:92-98) is not modelled. This covers its 24-hour time-to-live, single-flight writes, and caching of successful results only (`result = true`), so a store error is not remembered. It lives in an external library and depends on the clock and on concurrency. The model takes the lookup's outcome as an input.
- `VoteSummary::get_for_timeframe`, `conn!()` and `Chart::new` (src/grpc/charts.rs:99-106) are not modelled. They are database I/O and a constructor defined in `crate::ratings`, outside src/grpc/charts.rs. The store is an input: a `Result<Chart, StoreError>` in `GetChart`, or a function of the key in `Serve`.
- `get_snap_name` is an HTTP call. It becomes per-entry `Result<string, LookupError>` outcomes, or a total function from snap id to outcome in `Serve`. That function form assumes two lookups of the same snap id answer alike.
- Join.CollectAll: the concurrency of `try_join_all` is not modelled, because the collect is sequential. Under concurrency, the error returned is whichever failure completes first, not necessarily the first by position. The handler discards the error either way.
- The tonic `Request`/`Response`/`Status` wrappers, `ChartService::new_server` and the `tracing::error!` log line are not modelled. They are transport, wiring and logging.
- `raw_rating` is a float in the source. The model carries it as an opaque `real` that is only copied, so float semantics (NaN, rounding) are not modelled.
- The enum definitions and `from_repr` are defined outside src/grpc/charts.rs (in `crate::db`, `crate::ratings` and the generated proto code) and are not modelled from code. The ordinals are assumed to be the variants' declaration order from 0.
- Conversions.RatingFromPb: an invalid band ordinal makes the source panic at `unwrap`. The model states this as a precondition and does not model the panic.
