/**
 * The decision logic of the chart RPC handler (`ChartService::get_chart`).
 *
 * The request's category ordinal is decoded strictly and its timeframe
 * ordinal leniently; the chart looked up for the decoded key is then turned
 * into a response or an error status. A store failure, or a failure to
 * resolve the name of any one entry, collapses into one opaque internal
 * error; an empty chart is "not found"; otherwise every entry goes out, in
 * the chart's order, with its resolved name attached.
 *
 * The data store and the name lookup are collaborators this model cannot
 * see. `GetChart` takes their outcomes as values: the lookup's result, and
 * one name outcome per chart entry, aligned with the chart's entries.
 * `Serve` takes them as functions instead, so that it can say which key the
 * store is asked for, and that it is not asked at all for a bad category.
 */
module Charts {
  import opened Results
  import opened Ints
  import opened Ratings
  import Proto
  import Conversions
  import Join

  /** A failure of the vote-summary store. */
  datatype StoreError = StoreError(message: string)

  /** A failure of the snap-name lookup. */
  datatype LookupError = LookupError(message: string)

  /** The key a chart is computed under: an optional category and a timeframe. */
  datatype ChartKey = ChartKey(category: Option<Category>, timeframe: Timeframe)

  /** True when `raw` is the ordinal of no category. */
  predicate UnknownCategory(raw: Option<i32>) {
    raw.Some? && !(0 <= raw.value < CategoryCount)
  }

  /** The wire form of an optional category: `category.map(|c| c as i32)`. */
  function EncodeCategory(c: Option<Category>): (r: Option<i32>)
    ensures r.None? <==> c.None?
    ensures r.Some? ==> 0 <= r.value < CategoryCount && Category.FromRepr(r.value) == Some(c.value)
  {
    match c
    case None => None
    case Some(c) => Some(c.ToRepr())
  }

  /** The lenient timeframe decoding: an unknown ordinal falls back to `Unspecified`. */
  function DecodeTimeframe(raw: i32): (t: Timeframe)
    ensures 0 <= raw < TimeframeCount ==> t.ToRepr() == raw
    ensures !(0 <= raw < TimeframeCount) ==> t == Unspecified
  {
    match Timeframe.FromRepr(raw)
    case Some(t) => t
    case None => Unspecified
  }

  /** The strict category decoding: an unknown ordinal is an invalid argument. */
  function DecodeCategory(raw: Option<i32>): (r: Result<Option<Category>, Proto.Status>)
    ensures r.Failure? <==> UnknownCategory(raw)
    ensures r.Failure? ==> r.error == Proto.InvalidCategory
    ensures r.Success? ==> EncodeCategory(r.value) == raw
  {
    match raw
    case None => Success(None)
    case Some(c) =>
      match Category.FromRepr(c)
      case None => Failure(Proto.InvalidCategory)
      case Some(cat) => Success(Some(cat))
  }

  /** The validation step of the handler: only the category can make it fail. */
  function DecodeRequest(req: Proto.GetChartRequest): (r: Result<ChartKey, Proto.Status>)
    ensures r.Failure? <==> UnknownCategory(req.category)
    ensures r.Failure? ==> r.error == Proto.InvalidCategory
    ensures r.Success? ==> EncodeCategory(r.value.category) == req.category
    ensures r.Success? ==> r.value.timeframe == DecodeTimeframe(req.timeframe)
  {
    match DecodeCategory(req.category)
    case Failure(s) => Failure(s)
    case Success(category) => Success(ChartKey(category, DecodeTimeframe(req.timeframe)))
  }

  /** One name outcome per chart entry, whenever the chart lookup succeeded. */
  predicate Aligned(chart: Result<Chart, StoreError>, names: seq<Result<string, LookupError>>) {
    chart.Success? ==> |names| == |chart.value.data|
  }

  /**
   * `out` is `data` enriched in place: entry i keeps entry i's score, snap id,
   * vote count and band ordinal, and carries the i-th resolved name.
   */
  predicate EnrichedInOrder(data: seq<ChartData>, names: seq<Result<string, LookupError>>,
                            out: seq<Proto.PbChartData>)
  {
    && |out| == |data| == |names|
    && forall i :: 0 <= i < |out| ==>
         && names[i].Success?
         && out[i].rawRating == data[i].rawRating
         && out[i].rating == Some(Proto.PbRating(data[i].rating.snapId, data[i].rating.totalVotes,
                                                 data[i].rating.ratingsBand.ToRepr(), names[i].value))
  }

  /** Every entry paired with its resolved name, in the chart's order. */
  function Enrich(data: seq<ChartData>, names: seq<string>): (out: seq<Proto.PbChartData>)
    requires |names| == |data|
    ensures |out| == |data|
    ensures forall i :: 0 <= i < |out| ==>
      && out[i].rawRating == data[i].rawRating
      && out[i].rating.Some?
      && out[i].rating.value.snapName == names[i]
      && Conversions.ValidPbRating(out[i].rating.value)
      && Conversions.RatingFromPb(out[i].rating.value) == data[i].rating
  {
    seq(|data|, i requires 0 <= i < |data| => Conversions.FromChartDataAndSnapName(data[i], names[i]))
  }

  /** The handler's answer for a decoded key, once the collaborators have answered. */
  function Respond(key: ChartKey, chart: Result<Chart, StoreError>,
                   names: seq<Result<string, LookupError>>): (r: Result<Proto.GetChartResponse, Proto.Status>)
    requires Aligned(chart, names)
    ensures chart.Failure? ==> r == Failure(Proto.InternalError)
    ensures chart.Success? && |chart.value.data| == 0 ==> r == Failure(Proto.NoChartData)
    ensures chart.Success? && |chart.value.data| > 0 ==>
      (r.Success? <==> forall i :: 0 <= i < |names| ==> names[i].Success?)
    ensures chart.Success? && |chart.value.data| > 0 && r.Failure? ==> r.error == Proto.InternalError
    ensures r.Success? ==> chart.Success? && EnrichedInOrder(chart.value.data, names, r.value.orderedChartData)
    ensures r.Success? ==> r.value.timeframe == key.timeframe.ToRepr()
    ensures r.Success? ==> r.value.category == EncodeCategory(key.category)
  {
    match chart
    case Failure(_) => Failure(Proto.InternalError)
    case Success(c) =>
      if |c.data| == 0 then Failure(Proto.NoChartData)
      else
        match Join.CollectAll(names)
        case Failure(_) => Failure(Proto.InternalError)
        case Success(resolved) =>
          Success(Proto.GetChartResponse(key.timeframe.ToRepr(), EncodeCategory(key.category),
                                         Enrich(c.data, resolved)))
  }

  /**
   * `get_chart`: decode the request, then answer from the chart lookup's
   * outcome and the name outcomes of its entries.
   */
  function GetChart(req: Proto.GetChartRequest, chart: Result<Chart, StoreError>,
                    names: seq<Result<string, LookupError>>): (r: Result<Proto.GetChartResponse, Proto.Status>)
    requires Aligned(chart, names)
    ensures r.Failure? ==>
      r.error == Proto.InvalidCategory || r.error == Proto.NoChartData || r.error == Proto.InternalError
    ensures r == Failure(Proto.InvalidCategory) <==> UnknownCategory(req.category)
    ensures r.Success? ==> r.value.category == req.category
    ensures r.Success? ==>
      r.value.timeframe == if 0 <= req.timeframe < TimeframeCount then req.timeframe else Unspecified.ToRepr()
    ensures r.Success? ==>
      && chart.Success?
      && |chart.value.data| > 0
      && EnrichedInOrder(chart.value.data, names, r.value.orderedChartData)
  {
    match DecodeRequest(req)
    case Failure(s) => Failure(s)
    case Success(key) => Respond(key, chart, names)
  }

  /** The name outcomes of a chart's entries, one lookup per entry, in order. */
  function ResolveAll(chart: Result<Chart, StoreError>,
                      resolve: string -> Result<string, LookupError>): (names: seq<Result<string, LookupError>>)
    ensures Aligned(chart, names)
  {
    match chart
    case Failure(_) => []
    case Success(c) => seq(|c.data|, i requires 0 <= i < |c.data| => resolve(c.data[i].rating.snapId))
  }

  /**
   * `get_chart` with its collaborators as functions: the store is asked for
   * the decoded key, and the name lookup for each entry's snap id.
   */
  function Serve(req: Proto.GetChartRequest, lookup: ChartKey -> Result<Chart, StoreError>,
                 resolve: string -> Result<string, LookupError>): (r: Result<Proto.GetChartResponse, Proto.Status>)
    ensures r.Failure? ==>
      r.error == Proto.InvalidCategory || r.error == Proto.NoChartData || r.error == Proto.InternalError
    ensures r == Failure(Proto.InvalidCategory) <==> UnknownCategory(req.category)
  {
    match DecodeRequest(req)
    case Failure(s) => Failure(s)
    case Success(key) =>
      var chart := lookup(key);
      Respond(key, chart, ResolveAll(chart, resolve))
  }

  /** Every entry carries a rating whose band ordinal can be read back. */
  predicate Readable(entries: seq<Proto.PbChartData>) {
    forall i :: 0 <= i < |entries| ==>
      entries[i].rating.Some? && Conversions.ValidPbRating(entries[i].rating.value)
  }

  /** A client-side reading of response entries back into domain ratings, with `From<PbRating>`. */
  function ReadRatings(entries: seq<Proto.PbChartData>): (rs: seq<Rating>)
    requires Readable(entries)
    ensures |rs| == |entries|
  {
    if |entries| == 0 then []
    else [Conversions.RatingFromPb(entries[0].rating.value)] + ReadRatings(entries[1..])
  }

  /** The ratings of a chart's entries, in order. */
  function RatingsOf(data: seq<ChartData>): seq<Rating> {
    seq(|data|, i requires 0 <= i < |data| => data[i].rating)
  }

  // ---------------------------------------------------------------------------
  // Properties of the handler
  // ---------------------------------------------------------------------------

  /** An unknown category is rejected whatever the store and the name lookup would have said. */
  lemma InvalidCategoryIgnoresCollaborators(req: Proto.GetChartRequest,
                                            chart1: Result<Chart, StoreError>, names1: seq<Result<string, LookupError>>,
                                            chart2: Result<Chart, StoreError>, names2: seq<Result<string, LookupError>>)
    requires UnknownCategory(req.category)
    requires Aligned(chart1, names1) && Aligned(chart2, names2)
    ensures GetChart(req, chart1, names1) == GetChart(req, chart2, names2) == Failure(Proto.InvalidCategory)
  {
  }

  /** For an unknown category the store is never asked: any two stores give the same rejection. */
  lemma InvalidCategoryNeverConsultsStore(req: Proto.GetChartRequest,
                                          lookup1: ChartKey -> Result<Chart, StoreError>,
                                          resolve1: string -> Result<string, LookupError>,
                                          lookup2: ChartKey -> Result<Chart, StoreError>,
                                          resolve2: string -> Result<string, LookupError>)
    requires UnknownCategory(req.category)
    ensures Serve(req, lookup1, resolve1) == Serve(req, lookup2, resolve2) == Failure(Proto.InvalidCategory)
  {
  }

  /**
   * For a known category, `Serve` is `GetChart` with the store asked exactly
   * for the decoded (category, timeframe) key and the names of that chart's
   * entries looked up in order.
   */
  lemma ServeConsultsDecodedKey(req: Proto.GetChartRequest,
                                lookup: ChartKey -> Result<Chart, StoreError>,
                                resolve: string -> Result<string, LookupError>)
    requires !UnknownCategory(req.category)
    ensures DecodeRequest(req).Success?
    ensures var key := ChartKey(DecodeRequest(req).value.category, DecodeTimeframe(req.timeframe));
            var chart := lookup(key);
            Serve(req, lookup, resolve) == GetChart(req, chart, ResolveAll(chart, resolve))
  {
  }

  /** An unknown timeframe ordinal is never an error: it is answered exactly as `Unspecified` is. */
  lemma UnknownTimeframeIsUnspecified(req: Proto.GetChartRequest, chart: Result<Chart, StoreError>,
                                      names: seq<Result<string, LookupError>>)
    requires !(0 <= req.timeframe < TimeframeCount)
    requires Aligned(chart, names)
    ensures DecodeTimeframe(req.timeframe) == Unspecified
    ensures GetChart(req, chart, names) ==
            GetChart(Proto.GetChartRequest(Unspecified.ToRepr(), req.category), chart, names)
    ensures GetChart(req, chart, names) != Failure(Proto.InvalidCategory) || UnknownCategory(req.category)
  {
  }

  /** A store failure becomes the opaque internal error. */
  lemma StoreErrorIsInternal(req: Proto.GetChartRequest, e: StoreError, names: seq<Result<string, LookupError>>)
    requires !UnknownCategory(req.category)
    ensures GetChart(req, Failure(e), names) == Failure(Proto.InternalError)
  {
  }

  /** An empty chart is "not found", whatever the name lookup would have said. */
  lemma EmptyChartIsNotFound(req: Proto.GetChartRequest, lookup: ChartKey -> Result<Chart, StoreError>,
                             resolve: string -> Result<string, LookupError>)
    requires DecodeRequest(req).Success?
    requires lookup(DecodeRequest(req).value).Success?
    requires |lookup(DecodeRequest(req).value).value.data| == 0
    ensures Serve(req, lookup, resolve) == Failure(Proto.NoChartData)
  {
  }

  /**
   * End to end, for a known category and a non-empty chart: the request
   * succeeds exactly when the name of every entry's snap id resolves, and
   * then entry i carries the name resolved for chart entry i.
   */
  lemma ServeResolvesEveryEntry(req: Proto.GetChartRequest, lookup: ChartKey -> Result<Chart, StoreError>,
                                resolve: string -> Result<string, LookupError>)
    requires DecodeRequest(req).Success?
    requires lookup(DecodeRequest(req).value).Success?
    requires |lookup(DecodeRequest(req).value).value.data| > 0
    ensures var c := lookup(DecodeRequest(req).value).value;
            Serve(req, lookup, resolve).Success? <==>
              forall i :: 0 <= i < |c.data| ==> resolve(c.data[i].rating.snapId).Success?
    ensures var c := lookup(DecodeRequest(req).value).value;
            var r := Serve(req, lookup, resolve);
            r.Success? ==>
              && |r.value.orderedChartData| == |c.data|
              && forall i :: 0 <= i < |c.data| ==>
                   && r.value.orderedChartData[i].rawRating == c.data[i].rawRating
                   && r.value.orderedChartData[i].rating.Some?
                   && r.value.orderedChartData[i].rating.value.snapName == resolve(c.data[i].rating.snapId).value
  {
  }

  /** One failed name lookup, anywhere in the chart, fails the whole request: no partial response. */
  lemma EnrichmentFailureIsInternal(req: Proto.GetChartRequest, chart: Chart,
                                    names: seq<Result<string, LookupError>>, k: nat)
    requires !UnknownCategory(req.category)
    requires |names| == |chart.data|
    requires k < |names| && names[k].Failure?
    ensures GetChart(req, Success(chart), names) == Failure(Proto.InternalError)
  {
  }

  /** When every entry's name resolves, the request succeeds. */
  lemma AllNamesResolvedSucceeds(req: Proto.GetChartRequest, chart: Chart,
                                 names: seq<Result<string, LookupError>>)
    requires !UnknownCategory(req.category)
    requires |names| == |chart.data| > 0
    requires forall i :: 0 <= i < |names| ==> names[i].Success?
    ensures GetChart(req, Success(chart), names).Success?
  {
  }

  /**
   * Reading a successful response's entries back with `From<PbRating>` gives
   * the chart's ratings, in the chart's order.
   */
  lemma {:induction false} ResponseRatingsRoundTrip(data: seq<ChartData>, names: seq<Result<string, LookupError>>,
                                                    out: seq<Proto.PbChartData>)
    requires EnrichedInOrder(data, names, out)
    ensures Readable(out)
    ensures ReadRatings(out) == RatingsOf(data)
  {
    if |out| > 0 {
      assert EnrichedInOrder(data[1..], names[1..], out[1..]) by {
        forall i | 0 <= i < |out[1..]|
          ensures names[1..][i].Success?
          ensures out[1..][i].rawRating == data[1..][i].rawRating
        {
          assert names[1..][i] == names[i + 1];
        }
      }
      ResponseRatingsRoundTrip(data[1..], names[1..], out[1..]);
      assert RatingsOf(data) == [data[0].rating] + RatingsOf(data[1..]);
    }
  }

  /** The ratings a client reads from a successful response are the chart's ratings, in order. */
  lemma GetChartRatingsRoundTrip(req: Proto.GetChartRequest, chart: Result<Chart, StoreError>,
                                 names: seq<Result<string, LookupError>>)
    requires Aligned(chart, names)
    requires GetChart(req, chart, names).Success?
    ensures Readable(GetChart(req, chart, names).value.orderedChartData)
    ensures ReadRatings(GetChart(req, chart, names).value.orderedChartData) == RatingsOf(chart.value.data)
  {
    ResponseRatingsRoundTrip(chart.value.data, names, GetChart(req, chart, names).value.orderedChartData);
  }

  /**
   * A worked case: a two-entry weekly chart with no category, both names
   * resolved, comes back in the store's order with the names attached.
   */
  lemma TwoEntryWeeklyChart()
    ensures
      var a := ChartData(9.1, Rating("a", 500, VeryGood));
      var b := ChartData(7.0, Rating("b", 10, Neutral));
      var req := Proto.GetChartRequest(Week.ToRepr(), None);
      GetChart(req, Success(Chart(Week, [a, b])), [Success("Alpha"), Success("Beta")]) ==
        Success(Proto.GetChartResponse(1, None, [
          Proto.PbChartData(9.1, Some(Proto.PbRating("a", 500, 0, "Alpha"))),
          Proto.PbChartData(7.0, Some(Proto.PbRating("b", 10, 2, "Beta")))]))
  {
    var a := ChartData(9.1, Rating("a", 500, VeryGood));
    var b := ChartData(7.0, Rating("b", 10, Neutral));
    var names: seq<Result<string, LookupError>> := [Success("Alpha"), Success("Beta")];
    var resolved := Join.CollectAll(names);
    assert resolved.value == ["Alpha", "Beta"];
    var out := Enrich([a, b], ["Alpha", "Beta"]);
    assert out == [out[0], out[1]];
  }
}
