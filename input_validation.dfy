/** The badge of src/components/analysis/InputValidation.tsx: the status
    `getValidationStatus` derives from the analysing flag and the length of
    the idea typed so far. */
module InputValidation {

  /** The five statuses, in the order of the if-chain. */
  datatype Status = Analyzing | TooShort | AddMoreDetails | GoodLength | Detailed

  datatype Icon = Clock | AlertCircle | CheckCircle

  const ShortLength: nat := 20
  const DetailLength: nat := 50
  const LongLength: nat := 100

  /** `getValidationStatus`: while analysing, the analysing status whatever
      the length; otherwise the band of the length among [0, 20), [20, 50),
      [50, 100) and [100, ...). */
  function ValidationStatus(input: string, isAnalyzing: bool): (s: Status)
    ensures s == Analyzing <==> isAnalyzing
    ensures s == TooShort <==> !isAnalyzing && |input| < ShortLength
    ensures s == AddMoreDetails <==> !isAnalyzing && ShortLength <= |input| < DetailLength
    ensures s == GoodLength <==> !isAnalyzing && DetailLength <= |input| < LongLength
    ensures s == Detailed <==> !isAnalyzing && |input| >= LongLength
  {
    if isAnalyzing then Analyzing
    else if |input| < ShortLength then TooShort
    else if |input| < DetailLength then AddMoreDetails
    else if |input| < LongLength then GoodLength
    else Detailed
  }

  /** The badge text. */
  function Label(s: Status): string {
    match s
    case Analyzing => "Analyzing..."
    case TooShort => "Too Short"
    case AddMoreDetails => "Add More Details"
    case GoodLength => "Good Length"
    case Detailed => "Detailed Description"
  }

  /** The badge colour classes. */
  function Color(s: Status): string {
    match s
    case Analyzing => "bg-blue-100 text-blue-800"
    case TooShort => "bg-red-100 text-red-800"
    case AddMoreDetails => "bg-yellow-100 text-yellow-800"
    case GoodLength => "bg-green-100 text-green-800"
    case Detailed => "bg-green-100 text-green-800"
  }

  function IconOf(s: Status): Icon {
    match s
    case Analyzing => Clock
    case TooShort => AlertCircle
    case AddMoreDetails => AlertCircle
    case GoodLength => CheckCircle
    case Detailed => CheckCircle
  }

  /** How far along the length bands a status is. */
  function Rank(s: Status): nat {
    match s
    case Analyzing => 0
    case TooShort => 0
    case AddMoreDetails => 1
    case GoodLength => 2
    case Detailed => 3
  }

  /** Outside analysis, a longer input never gets a lower band. */
  lemma StatusMonotone(a: string, b: string)
    requires |a| <= |b|
    ensures Rank(ValidationStatus(a, false)) <= Rank(ValidationStatus(b, false))
  {
  }

  /** Every status has its own text, so the badge always names exactly one
      status. */
  lemma LabelsDistinct(s: Status, t: Status)
    requires s != t
    ensures Label(s) != Label(t)
  {
    assert |Label(Analyzing)| == 12 && |Label(TooShort)| == 9 && |Label(AddMoreDetails)| == 16;
    assert |Label(GoodLength)| == 11 && |Label(Detailed)| == 20;
  }

  /** The check icon goes with the two bands from 50 characters on, the
      alert icon with the two below. */
  lemma IconBands(input: string)
    ensures IconOf(ValidationStatus(input, false)) == CheckCircle <==> |input| >= DetailLength
    ensures IconOf(ValidationStatus(input, false)) == AlertCircle <==> |input| < DetailLength
  {
  }
}
