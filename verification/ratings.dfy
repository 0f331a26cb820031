/**
 * The rating domain model: the category, timeframe and ratings-band enums
 * with their integer representations, and the immutable records a chart is
 * made of. Each enum has a total `ToRepr` (Rust's `as i32`) and a partial
 * `FromRepr` (strum's `from_repr`), which returns `None` for an ordinal
 * that names no variant.
 */
module Ratings {
  import opened Results
  import opened Ints

  /** Number of snap categories; their ordinals are 0 .. CategoryCount - 1. */
  const CategoryCount: i32 := 20

  /** Number of timeframes; their ordinals are 0 .. TimeframeCount - 1. */
  const TimeframeCount: i32 := 3

  /** Number of ratings bands; their ordinals are 0 .. BandCount - 1. */
  const BandCount: i32 := 6

  /** The classification a chart may be filtered by. */
  datatype Category =
    | ArtAndDesign | BookAndReference | Development | DevicesAndIot
    | Education | Entertainment | Featured | Finance | Games
    | HealthAndFitness | MusicAndAudio | NewsAndWeather | Personalisation
    | PhotoAndVideo | Productivity | Science | Security | ServerAndCloud
    | Social | Utilities
  {
    function ToRepr(): (n: i32)
      ensures 0 <= n < CategoryCount
    {
      match this
      case ArtAndDesign => 0
      case BookAndReference => 1
      case Development => 2
      case DevicesAndIot => 3
      case Education => 4
      case Entertainment => 5
      case Featured => 6
      case Finance => 7
      case Games => 8
      case HealthAndFitness => 9
      case MusicAndAudio => 10
      case NewsAndWeather => 11
      case Personalisation => 12
      case PhotoAndVideo => 13
      case Productivity => 14
      case Science => 15
      case Security => 16
      case ServerAndCloud => 17
      case Social => 18
      case Utilities => 19
    }

    /** The variant whose ordinal is `n`, if there is one. */
    static function FromRepr(n: i32): (r: Option<Category>)
      ensures r.Some? <==> 0 <= n < CategoryCount
      ensures r.Some? ==> r.value.ToRepr() == n
    {
      match n
      case 0 => Some(ArtAndDesign)
      case 1 => Some(BookAndReference)
      case 2 => Some(Development)
      case 3 => Some(DevicesAndIot)
      case 4 => Some(Education)
      case 5 => Some(Entertainment)
      case 6 => Some(Featured)
      case 7 => Some(Finance)
      case 8 => Some(Games)
      case 9 => Some(HealthAndFitness)
      case 10 => Some(MusicAndAudio)
      case 11 => Some(NewsAndWeather)
      case 12 => Some(Personalisation)
      case 13 => Some(PhotoAndVideo)
      case 14 => Some(Productivity)
      case 15 => Some(Science)
      case 16 => Some(Security)
      case 17 => Some(ServerAndCloud)
      case 18 => Some(Social)
      case 19 => Some(Utilities)
      case _ => None
    }
  }

  /** The reporting window of a chart; `Unspecified` is the fallback. */
  datatype Timeframe = Unspecified | Week | Month
  {
    function ToRepr(): (n: i32)
      ensures 0 <= n < TimeframeCount
      ensures n == 0 <==> this == Unspecified
    {
      match this
      case Unspecified => 0
      case Week => 1
      case Month => 2
    }

    /** The variant whose ordinal is `n`, if there is one. */
    static function FromRepr(n: i32): (r: Option<Timeframe>)
      ensures r.Some? <==> 0 <= n < TimeframeCount
      ensures r.Some? ==> r.value.ToRepr() == n
    {
      match n
      case 0 => Some(Unspecified)
      case 1 => Some(Week)
      case 2 => Some(Month)
      case _ => None
    }
  }

  /** The qualitative bucket of a vote aggregate: exactly six values. */
  datatype RatingsBand = VeryGood | Good | Neutral | Poor | VeryPoor | InsufficientVotes
  {
    function ToRepr(): (n: i32)
      ensures 0 <= n < BandCount
    {
      match this
      case VeryGood => 0
      case Good => 1
      case Neutral => 2
      case Poor => 3
      case VeryPoor => 4
      case InsufficientVotes => 5
    }

    /** The variant whose ordinal is `n`, if there is one. */
    static function FromRepr(n: i32): (r: Option<RatingsBand>)
      ensures r.Some? <==> 0 <= n < BandCount
      ensures r.Some? ==> r.value.ToRepr() == n
    {
      match n
      case 0 => Some(VeryGood)
      case 1 => Some(Good)
      case 2 => Some(Neutral)
      case 3 => Some(Poor)
      case 4 => Some(VeryPoor)
      case 5 => Some(InsufficientVotes)
      case _ => None
    }
  }

  /** The vote aggregate of one snap. */
  datatype Rating = Rating(snapId: string, totalVotes: u64, ratingsBand: RatingsBand)

  /**
   * One ranked chart entry. The raw score is a float in the system; here it is
   * an opaque value that is copied and compared, never computed with.
   */
  datatype ChartData = ChartData(rawRating: real, rating: Rating)

  /** A chart: its entries in rank order, as the data store returned them. */
  datatype Chart = Chart(timeframe: Timeframe, data: seq<ChartData>)

  /** Decoding the ordinal of a category gives back that category. */
  lemma CategoryReprRoundTrip(c: Category)
    ensures Category.FromRepr(c.ToRepr()) == Some(c)
  {
  }

  /** Decoding the ordinal of a timeframe gives back that timeframe. */
  lemma TimeframeReprRoundTrip(t: Timeframe)
    ensures Timeframe.FromRepr(t.ToRepr()) == Some(t)
  {
  }

  /** Decoding the ordinal of a ratings band gives back that band. */
  lemma BandReprRoundTrip(b: RatingsBand)
    ensures RatingsBand.FromRepr(b.ToRepr()) == Some(b)
  {
  }

  /** Distinct ratings bands have distinct ordinals. */
  lemma BandReprInjective(a: RatingsBand, b: RatingsBand)
    ensures a.ToRepr() == b.ToRepr() ==> a == b
  {
    BandReprRoundTrip(a);
    BandReprRoundTrip(b);
  }

  /** Distinct categories have distinct ordinals. */
  lemma CategoryReprInjective(a: Category, b: Category)
    ensures a.ToRepr() == b.ToRepr() ==> a == b
  {
    CategoryReprRoundTrip(a);
    CategoryReprRoundTrip(b);
  }
}
