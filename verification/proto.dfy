/**
 * The wire records of the chart RPC: what a client sends and receives.
 * Enums travel as `i32` ordinals; a rating on the wire carries the snap's
 * display name next to its vote aggregate.
 */
module Proto {
  import opened Results
  import opened Ints
  import Ratings

  /** The wire enum of ratings bands: the same six values, by the same names. */
  datatype PbRatingsBand = VeryGood | Good | Neutral | Poor | VeryPoor | InsufficientVotes
  {
    function ToRepr(): (n: i32)
      ensures 0 <= n < Ratings.BandCount
    {
      match this
      case VeryGood => 0
      case Good => 1
      case Neutral => 2
      case Poor => 3
      case VeryPoor => 4
      case InsufficientVotes => 5
    }
  }

  /** A rating as sent to clients: the band is an ordinal, and the name is attached. */
  datatype PbRating = PbRating(snapId: string, totalVotes: u64, ratingsBand: i32, snapName: string)

  /** A chart entry as sent to clients; the rating is an optional message field. */
  datatype PbChartData = PbChartData(rawRating: real, rating: Option<PbRating>)

  /** The request: a timeframe ordinal and an optional category ordinal. */
  datatype GetChartRequest = GetChartRequest(timeframe: i32, category: Option<i32>)

  /** The response: the ordinals used and the enriched entries in rank order. */
  datatype GetChartResponse =
    GetChartResponse(timeframe: i32, category: Option<i32>, orderedChartData: seq<PbChartData>)

  /** The status codes the chart handler can produce. */
  datatype Code = InvalidArgument | NotFound | Unknown

  /** An RPC error status: a code and the message shown to the caller. */
  datatype Status = Status(code: Code, message: string)

  /** The rejection of a category ordinal that names no category. */
  const InvalidCategory: Status := Status(InvalidArgument, "invalid category value")

  /** The answer for a chart with no entries. */
  const NoChartData: Status := Status(NotFound, "Cannot find data for given timeframe.")

  /** The one opaque status for every store or name-lookup failure. */
  const InternalError: Status := Status(Unknown, "Internal server error")
}
