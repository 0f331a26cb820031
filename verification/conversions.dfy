/**
 * Conversions between the domain records and the wire records: a chart
 * entry and a rating go out with a snap name attached, a wire rating comes
 * back as a domain rating, and a ratings band maps to the wire band of the
 * same name.
 */
module Conversions {
  import opened Results
  import opened Ratings
  import Proto

  /** A wire rating whose band ordinal names one of the six bands. */
  predicate ValidPbRating(p: Proto.PbRating) {
    RatingsBand.FromRepr(p.ratingsBand).Some?
  }

  /**
   * `From<PbRating> for Rating`. The source unwraps the decoded band, so a
   * wire rating with an unknown band ordinal is outside its domain.
   */
  function RatingFromPb(p: Proto.PbRating): (r: Rating)
    requires ValidPbRating(p)
    ensures r.snapId == p.snapId
    ensures r.totalVotes == p.totalVotes
    ensures r.ratingsBand.ToRepr() == p.ratingsBand
  {
    Rating(p.snapId, p.totalVotes, RatingsBand.FromRepr(p.ratingsBand).value)
  }

  /**
   * `PbRating::from_rating_and_snap_name`: the rating goes out with the given
   * name, and nothing of the rating is lost on the way.
   */
  function FromRatingAndSnapName(rating: Rating, snapName: string): (p: Proto.PbRating)
    ensures p.snapName == snapName
    ensures ValidPbRating(p)
    ensures RatingFromPb(p) == rating
  {
    Proto.PbRating(rating.snapId, rating.totalVotes, rating.ratingsBand.ToRepr(), snapName)
  }

  /**
   * `PbChartData::from_chart_data_and_snap_name`: the raw score is carried
   * over and the rating is always present, with the name attached.
   */
  function FromChartDataAndSnapName(chartData: ChartData, snapName: string): (p: Proto.PbChartData)
    ensures p.rawRating == chartData.rawRating
    ensures p.rating.Some?
    ensures p.rating.value.snapName == snapName
    ensures ValidPbRating(p.rating.value)
    ensures RatingFromPb(p.rating.value) == chartData.rating
  {
    Proto.PbChartData(chartData.rawRating, Some(FromRatingAndSnapName(chartData.rating, snapName)))
  }

  /** `From<RatingsBand> for PbRatingsBand`: each band maps to the wire band of the same name. */
  function BandToPb(b: RatingsBand): (pb: Proto.PbRatingsBand)
    ensures pb.ToRepr() == b.ToRepr()
  {
    match b
    case VeryGood => Proto.VeryGood
    case Good => Proto.Good
    case Neutral => Proto.Neutral
    case Poor => Proto.Poor
    case VeryPoor => Proto.VeryPoor
    case InsufficientVotes => Proto.InsufficientVotes
  }

  /** A rating sent out under any name and read back is the rating that was sent. */
  lemma RatingRoundTrip(rating: Rating, snapName: string)
    ensures RatingFromPb(FromRatingAndSnapName(rating, snapName)) == rating
  {
  }

  /** A valid wire rating read in and sent out again under its own name is unchanged. */
  lemma PbRatingRoundTrip(p: Proto.PbRating)
    requires ValidPbRating(p)
    ensures FromRatingAndSnapName(RatingFromPb(p), p.snapName) == p
  {
  }

  /** A wire rating is readable exactly when its band ordinal is one of the six. */
  lemma ValidPbRatingIffBandOrdinal(p: Proto.PbRating)
    ensures ValidPbRating(p) <==> 0 <= p.ratingsBand < BandCount
  {
  }

  /** Distinct bands map to distinct wire bands. */
  lemma BandToPbInjective(a: RatingsBand, b: RatingsBand)
    ensures BandToPb(a) == BandToPb(b) ==> a == b
  {
    BandReprInjective(a, b);
  }

  /** Every wire band is the image of some band, so the mapping is a bijection. */
  lemma BandToPbSurjective(pb: Proto.PbRatingsBand)
    ensures exists b :: BandToPb(b) == pb
  {
    match pb
    case VeryGood => assert BandToPb(VeryGood) == pb;
    case Good => assert BandToPb(Good) == pb;
    case Neutral => assert BandToPb(Neutral) == pb;
    case Poor => assert BandToPb(Poor) == pb;
    case VeryPoor => assert BandToPb(VeryPoor) == pb;
    case InsufficientVotes => assert BandToPb(InsufficientVotes) == pb;
  }
}
