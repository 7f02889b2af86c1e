/** The GPS accuracy badge of src/components/map/GPSAccuracyIndicator.tsx: an
    accuracy radius in metres is rated Excellent, Good or Poor, and coloured to match. */
module GpsAccuracy {

  /** The three ratings, best first. */
  datatype Rating = Excellent | Good | Poor

  /** 0 for the best rating, 2 for the worst. */
  function Rank(r: Rating): nat
  {
    match r
    case Excellent => 0
    case Good => 1
    case Poor => 2
  }

  /** The rating the two thresholds of the badge define. */
  function RatingOf(acc: real): (r: Rating)
    ensures r == Excellent <==> acc <= 5.0
    ensures r == Good <==> 5.0 < acc <= 10.0
    ensures r == Poor <==> acc > 10.0
  {
    if acc <= 5.0 then Excellent else if acc <= 10.0 then Good else Poor
  }

  function RatingName(r: Rating): string
  {
    match r
    case Excellent => "Excellent"
    case Good => "Good"
    case Poor => "Poor"
  }

  /** getAccuracyColor of the badge. */
  function AccuracyColor(acc: real): string
  {
    if acc <= 5.0 then "text-green-600 bg-green-50 border-green-200"
    else if acc <= 10.0 then "text-yellow-600 bg-yellow-50 border-yellow-200"
    else "text-red-600 bg-red-50 border-red-200"
  }

  /** getAccuracyText of the badge. */
  function AccuracyText(acc: real): string
  {
    if acc <= 5.0 then "Excellent" else if acc <= 10.0 then "Good" else "Poor"
  }

  /** The classes the badge uses for each rating. */
  function RatingClasses(r: Rating): string
  {
    match r
    case Excellent => "text-green-600 bg-green-50 border-green-200"
    case Good => "text-yellow-600 bg-yellow-50 border-yellow-200"
    case Poor => "text-red-600 bg-red-50 border-red-200"
  }

  /** The colour and the text always name the same rating. */
  lemma ColorAndTextAgree(acc: real)
    ensures AccuracyText(acc) == RatingName(RatingOf(acc))
    ensures AccuracyColor(acc) == RatingClasses(RatingOf(acc))
  {
  }

  /** A larger accuracy radius never rates better. */
  lemma RatingMonotone(a: real, b: real)
    requires a <= b
    ensures Rank(RatingOf(a)) <= Rank(RatingOf(b))
  {
  }
}
