/** The persistence helpers of src/lib/storage.ts: saving keeps the first 50
    results, and loading seeds an empty store with two sample records. The
    browser store is one slot holding the list as `JSON.parse` would return
    it. */
module Storage {
  import opened Wrappers
  import opened Bounds
  import opened Locale
  import opened UxAnalyzer

  const StorageKey: string := "ux-analyzer-results"
  const MaxResults: nat := 50

  /** `results.slice(0, MAX_RESULTS)`. */
  function Cap<T>(results: seq<T>): (r: seq<T>)
    ensures |r| == Min(MaxResults, |results|)
  {
    results[..Min(MaxResults, |results|)]
  }

  /** The capped list is a prefix of the list, at most 50 long. */
  lemma CapIsPrefix<T>(results: seq<T>)
    ensures Cap(results) <= results
    ensures |Cap(results)| <= MaxResults
    ensures forall i :: 0 <= i < |Cap(results)| ==> Cap(results)[i] == results[i]
  {
  }

  /** A list of at most 50 results is stored as it is. */
  lemma CapKeepsShort<T>(results: seq<T>)
    requires |results| <= MaxResults
    ensures Cap(results) == results
  {
  }

  /** Capping twice is capping once. */
  lemma CapIdempotent<T>(results: seq<T>)
    ensures Cap(Cap(results)) == Cap(results)
  {
  }

  /** Prepending to a capped list and capping again loses nothing that
      capping the whole list would keep. */
  lemma CapPrepend<T>(x: T, results: seq<T>)
    ensures Cap([x] + Cap(results)) == Cap([x] + results)
  {
    assert ([x] + Cap(results))[..Min(MaxResults, |results| + 1)] == ([x] + results)[..Min(MaxResults, |results| + 1)];
  }

  // ---------------------------------------------------------- sample data

  function SampleId(k: nat): string {
    if k == 0 then "sample_1" else "sample_2"
  }

  /** The description each sample record analyses, written in pieces. */
  function SampleInput(k: nat): string {
    match k
    case 0 => ("My e-commerce checkout process has " + "multiple steps. Users need to create an " + "account, verify email, fill shipping " + "details, and payment info. Many users " + "abandon during account creation.")
    case _ => ("عملية التسجيل في تطبيقي معقدة ومتعددة " + "الخطوات. المستخدمون يحتاجون لملء معلومات " + "شخصية كثيرة والتحقق من الهاتف قبل الوصول " + "للتطبيق.")
  }

  /** The three issues of each sample record. */
  function SampleIssue(k: nat, j: nat): string {
    match k
    case 0 => (
      match j
      case 0 => "Too many required form fields could cause abandonment"
      case 1 => "Complex multi-step process may frustrate users"
      case _ => "Email verification step creates friction in checkout flow")
    case _ => (
      match j
      case 0 => "كثرة الحقول المطلوبة في النموذج قد تسبب الهجر"
      case 1 => "عملية التحقق من الهاتف قد تخلق حاجز دخول"
      case _ => "هيكل التنقل المعقد قد يربك المستخدمين")
  }

  /** The three recommendations of each sample record. */
  function SampleRecommendation(k: nat, j: nat): string {
    match k
    case 0 => (
      match j
      case 0 => "Allow guest checkout without account creation"
      case 1 => "Reduce checkout steps to 2-3 maximum"
      case _ => "Make email verification optional or post-purchase")
    case _ => (
      match j
      case 0 => "تقليل حقول النموذج للمعلومات الأساسية فقط"
      case 1 => "جعل التحقق من الهاتف اختياري في البداية"
      case _ => "تبسيط عملية التسجيل لخطوة واحدة أو خطوتين")
  }

  /** Sample record `k`: the first in English and scored 68, the second in
      Arabic and scored 72, each with three issues and three
      recommendations. */
  function SampleRecord(k: nat, timestamp: string): AnalysisResult {
    AnalysisResult(SampleId(k), SampleInput(k), if k == 0 then 68 else 72,
      seq(3, j requires 0 <= j < 3 => SampleIssue(k, j)),
      seq(3, j requires 0 <= j < 3 => SampleRecommendation(k, j)),
      timestamp, if k == 0 then En else Ar)
  }

  /** `generateSampleData`. The timestamps, two hours and one day before
      now, come from the clock. */
  function SampleData(twoHoursAgo: string, oneDayAgo: string): (r: seq<AnalysisResult>)
    ensures |r| == 2
  {
    seq(2, k requires 0 <= k < 2 => SampleRecord(k, if k == 0 then twoHoursAgo else oneDayAgo))
  }

  /** The shape of the sample data. */
  lemma SampleDataShape(twoHoursAgo: string, oneDayAgo: string)
    ensures var d := SampleData(twoHoursAgo, oneDayAgo);
            d[0].id == "sample_1" && d[1].id == "sample_2"
            && d[0].language == En && d[1].language == Ar
            && d[0].score == 68 && d[1].score == 72
            && (forall i :: 0 <= i < 2 ==> |d[i].issues| == 3 && |d[i].recommendations| == 3)
            && d[0].id != d[1].id
  {
    var d := SampleData(twoHoursAgo, oneDayAgo);
    assert d[0] == SampleRecord(0, twoHoursAgo);
    assert d[1] == SampleRecord(1, oneDayAgo);
    assert d[0].id[7] != d[1].id[7];
  }

  // ------------------------------------------------------------ the store

  /** The slot after saving `results`: the capped list, or the old slot
      when the browser refuses the write (the error is logged and
      swallowed). */
  function AfterSave(slot: Slot<seq<AnalysisResult>>, results: seq<AnalysisResult>, writeFails: bool): Slot<seq<AnalysisResult>> {
    if writeFails then slot else Stored(Cap(results))
  }

  /** What loading returns: the stored list, the sample data when nothing is
      stored, and the empty list when the stored text does not parse. */
  function Loaded(slot: Slot<seq<AnalysisResult>>, sample: seq<AnalysisResult>): seq<AnalysisResult> {
    match slot
    case Missing => sample
    case Stored(results) => results
    case Corrupt => []
  }

  /** A successful save is read back as the capped list. */
  lemma LoadAfterSave(slot: Slot<seq<AnalysisResult>>, results: seq<AnalysisResult>, sample: seq<AnalysisResult>)
    ensures Loaded(AfterSave(slot, results, false), sample) == Cap(results)
    ensures |Loaded(AfterSave(slot, results, false), sample)| <= MaxResults
  {
  }

  /** The slot under `StorageKey`. */
  class ResultStore {
    var slot: Slot<seq<AnalysisResult>>

    constructor (slot: Slot<seq<AnalysisResult>>)
      ensures this.slot == slot
    {
      this.slot := slot;
    }

    /** `saveToLocalStorage`: it never throws. */
    method Save(results: seq<AnalysisResult>, writeFails: bool)
      modifies this
      ensures slot == AfterSave(old(slot), results, writeFails)
    {
      if !writeFails {
        slot := Stored(Cap(results));
      }
    }

    /** `loadFromLocalStorage`: an empty store is seeded with the sample
        data, which is also returned; a failed parse returns []. */
    method Load(twoHoursAgo: string, oneDayAgo: string, writeFails: bool) returns (r: seq<AnalysisResult>)
      modifies this
      ensures r == Loaded(old(slot), SampleData(twoHoursAgo, oneDayAgo))
      ensures old(slot).Missing? ==> slot == AfterSave(old(slot), r, writeFails)
      ensures !old(slot).Missing? ==> slot == old(slot)
    {
      match slot
      case Missing =>
        var sampleData := SampleData(twoHoursAgo, oneDayAgo);
        Save(sampleData, writeFails);
        r := sampleData;
      case Stored(results) =>
        r := results;
      case Corrupt =>
        r := [];
    }
  }

  /** Seeding stores the sample data whole: it is shorter than the cap. */
  lemma SeedStoresSample(twoHoursAgo: string, oneDayAgo: string)
    ensures AfterSave(Missing, SampleData(twoHoursAgo, oneDayAgo), false) == Stored(SampleData(twoHoursAgo, oneDayAgo))
  {
    var d := SampleData(twoHoursAgo, oneDayAgo);
    assert Cap(d) == d;
  }
}
