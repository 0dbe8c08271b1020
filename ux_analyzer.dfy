/** The keyword-driven scoring and the random pick of issues and
    recommendations in src/lib/uxAnalyzer.ts: the local analysis that stands in
    for a remote model. */
module UxAnalyzer {
  import opened Text
  import opened Bounds
  import opened Locale

  /** One stored analysis. The score is always a whole number in [35, 95]. */
  datatype AnalysisResult = AnalysisResult(
    id: string,
    input: string,
    score: int,
    issues: seq<string>,
    recommendations: seq<string>,
    timestamp: string,
    language: Language)

  const BaseScore: int := 85
  const ProblemPenalty: int := 5
  const PositiveBonus: int := 3
  const MinScore: int := 35
  const MaxScore: int := 95
  const IdPrefix: string := "analysis_"

  function ProblemKeywords(l: Language): seq<string> {
    match l
    case En => ["problem", "issue", "difficult", "confusing", "abandon", "error", "slow", "broken"]
    case Ar => ["مشكلة", "صعوبة", "مربك", "هجر", "خطأ", "بطيء", "معطل"]
  }

  function PositiveKeywords(l: Language): seq<string> {
    match l
    case En => ["good", "easy", "clear", "simple", "fast", "intuitive", "user-friendly"]
    case Ar => ["جيد", "سهل", "واضح", "بسيط", "سريع", "بديهي", "سهل الاستخدام"]
  }

  /** The pool for a language, entry by entry. */
  function IssuePool(l: Language): (pool: seq<string>)
    ensures |pool| == 10
  {
    seq(10, k requires 0 <= k < 10 => IssueText(l, k))
  }

  function IssueText(l: Language, k: int): string
    requires 0 <= k < 10
  {
    match l
    case En => (
      match k
      case 0 => "Complex navigation structure may confuse users"
      case 1 => "Too many required form fields could cause abandonment"
      case 2 => "Lack of clear call-to-action buttons"
      case 3 => "Insufficient visual hierarchy in content layout"
      case 4 => "Missing feedback for user actions"
      case 5 => "Poor mobile responsiveness detected"
      case 6 => "Long loading times may impact user experience"
      case 7 => "Unclear error messages and validation"
      case 8 => "Inconsistent design patterns across pages"
      case _ => "Accessibility concerns for screen readers")
    case Ar => (
      match k
      case 0 => "هيكل التنقل المعقد قد يربك المستخدمين"
      case 1 => "كثرة الحقول المطلوبة في النموذج قد تسبب الهجر"
      case 2 => "نقص في أزرار الدعوة للعمل الواضحة"
      case 3 => "عدم كفاية التسلسل الهرمي المرئي في تخطيط المحتوى"
      case 4 => "نقص في التغذية الراجعة لأعمال المستخدم"
      case 5 => "ضعف في الاستجابة للأجهزة المحمولة"
      case 6 => "أوقات التحميل الطويلة قد تؤثر على تجربة المستخدم"
      case 7 => "رسائل خطأ غير واضحة والتحقق من الصحة"
      case 8 => "أنماط تصميم غير متسقة عبر الصفحات"
      case _ => "مخاوف إمكانية الوصول لقارئات الشاشة")
  }

  /** The pool for a language, entry by entry. */
  function RecommendationPool(l: Language): (pool: seq<string>)
    ensures |pool| == 10
  {
    seq(10, k requires 0 <= k < 10 => RecommendationText(l, k))
  }

  function RecommendationText(l: Language, k: int): string
    requires 0 <= k < 10
  {
    match l
    case En => (
      match k
      case 0 => "Simplify navigation with clear menu categories"
      case 1 => "Reduce form fields to essential information only"
      case 2 => "Add prominent, contrasting call-to-action buttons"
      case 3 => "Implement clear visual hierarchy with proper spacing"
      case 4 => "Provide immediate feedback for all user interactions"
      case 5 => "Optimize layout for mobile-first design approach"
      case 6 => "Implement progressive loading and performance optimization"
      case 7 => "Write clear, actionable error messages"
      case 8 => "Establish consistent design system and style guide"
      case _ => "Add ARIA labels and improve semantic HTML structure")
    case Ar => (
      match k
      case 0 => "تبسيط التنقل بفئات قائمة واضحة"
      case 1 => "تقليل حقول النموذج للمعلومات الأساسية فقط"
      case 2 => "إضافة أزرار دعوة للعمل بارزة ومتباينة"
      case 3 => "تنفيذ التسلسل الهرمي المرئي الواضح مع التباعد المناسب"
      case 4 => "توفير تغذية راجعة فورية لجميع تفاعلات المستخدم"
      case 5 => "تحسين التخطيط لنهج التصميم المحمول أولاً"
      case 6 => "تنفيذ التحميل التدريجي وتحسين الأداء"
      case 7 => "كتابة رسائل خطأ واضحة وقابلة للتنفيذ"
      case 8 => "إنشاء نظام تصميم متسق ودليل أسلوب"
      case _ => "إضافة تسميات ARIA وتحسين هيكل HTML الدلالي")
  }

  /** Pairwise distinct entries. */
  predicate Distinct<T(==)>(s: seq<T>) {
    forall i, j :: 0 <= i < j < |s| ==> s[i] != s[j]
  }

  function Flag(b: bool): nat {
    if b then 1 else 0
  }

  /** How many of the first `n` keywords occur somewhere in `text`; each
      keyword counts once, however often it occurs. */
  function HitsIn(keywords: seq<string>, text: string, n: nat): (hits: nat)
    requires n <= |keywords|
    ensures hits <= n
  {
    if n == 0 then 0
    else HitsIn(keywords, text, n - 1) + Flag(Includes(text, keywords[n - 1]))
  }

  function Hits(keywords: seq<string>, text: string): nat {
    HitsIn(keywords, text, |keywords|)
  }

  /** The score before clamping: 85, minus 5 per problem keyword found in the
      lower-cased input, plus 3 per positive keyword found. */
  function RawScore(input: string, l: Language): (r: int)
    ensures BaseScore - ProblemPenalty * |ProblemKeywords(l)| <= r
    ensures r <= BaseScore + PositiveBonus * |PositiveKeywords(l)|
  {
    var lower := ToLower(input);
    BaseScore - ProblemPenalty * Hits(ProblemKeywords(l), lower)
    + PositiveBonus * Hits(PositiveKeywords(l), lower)
  }

  /** The score stored in the result. */
  function FinalScore(input: string, l: Language): (r: int)
    ensures MinScore <= r <= MaxScore
  {
    Clamp(MinScore, MaxScore, RawScore(input, l))
  }

  /** The two keyword passes, one running total updated keyword by keyword,
      then the clamp to [35, 95]. */
  method KeywordScore(input: string, language: Language) returns (finalScore: int)
    ensures finalScore == FinalScore(input, language)
  {
    var baseScore := BaseScore;
    var problemKeywords := ProblemKeywords(language);
    var positiveKeywords := PositiveKeywords(language);
    var lowerInput := ToLower(input);
    var i := 0;
    while i < |problemKeywords|
      invariant 0 <= i <= |problemKeywords|
      invariant baseScore == BaseScore - ProblemPenalty * HitsIn(problemKeywords, lowerInput, i)
    {
      if Includes(lowerInput, problemKeywords[i]) {
        baseScore := baseScore - ProblemPenalty;
      }
      i := i + 1;
    }
    var penalty := baseScore;
    i := 0;
    while i < |positiveKeywords|
      invariant 0 <= i <= |positiveKeywords|
      invariant baseScore == penalty + PositiveBonus * HitsIn(positiveKeywords, lowerInput, i)
    {
      if Includes(lowerInput, positiveKeywords[i]) {
        baseScore := baseScore + PositiveBonus;
      }
      i := i + 1;
    }
    finalScore := Clamp(MinScore, MaxScore, baseScore);
  }

  /** Number of issues (and of recommendations) shown for a final score:
      a fifteenth of the distance to 100, kept within [2, 5]. */
  function IssueCount(score: int): (n: int)
    ensures 2 <= n <= 5
  {
    Max(2, Min(5, (100 - score) / 15))
  }

  /** `order` lists each index below `n` exactly once: the outcome of
      sorting a pool of `n` entries with a random comparator. */
  predicate IsPermutation(order: seq<nat>, n: nat) {
    && |order| == n
    && (forall i :: 0 <= i < n ==> order[i] < n)
    && (forall i, j :: 0 <= i < j < n ==> order[i] != order[j])
  }

  /** The pool rearranged by `order`. */
  function Shuffle(pool: seq<string>, order: seq<nat>): (r: seq<string>)
    requires IsPermutation(order, |pool|)
    ensures |r| == |pool|
    ensures forall i :: 0 <= i < |r| ==> r[i] in pool
    ensures Distinct(pool) ==> Distinct(r)
  {
    seq(|order|, i requires 0 <= i < |order| => pool[order[i]])
  }

  /** The first `n` entries of the shuffled pool. */
  function Pick(pool: seq<string>, order: seq<nat>, n: nat): (r: seq<string>)
    requires IsPermutation(order, |pool|) && n <= |pool|
    ensures |r| == n
    ensures forall i :: 0 <= i < n ==> r[i] in pool
    ensures Distinct(pool) ==> Distinct(r)
  {
    Shuffle(pool, order)[..n]
  }

  /** The identifier: the prefix, the clock reading, an underscore and a
      random suffix. */
  function AnalysisId(clock: string, nonce: string): (id: string)
    ensures IdPrefix <= id
    ensures id[|IdPrefix|..] == clock + "_" + nonce
  {
    IdPrefix + clock + "_" + nonce
  }

  /** The analysis. The clock, the random suffix and the two shuffles are
      the caller's; everything else follows from the input and the language. */
  method AnalyzeUX(input: string, language: Language,
                   issueOrder: seq<nat>, recommendationOrder: seq<nat>,
                   clock: string, nonce: string, timestamp: string)
    returns (result: AnalysisResult)
    requires IsPermutation(issueOrder, |IssuePool(language)|)
    requires IsPermutation(recommendationOrder, |RecommendationPool(language)|)
    ensures result.input == input && result.language == language
    ensures result.timestamp == timestamp
    ensures result.id == AnalysisId(clock, nonce)
    ensures result.score == FinalScore(input, language)
    ensures |result.issues| == |result.recommendations| == IssueCount(result.score)
    ensures result.issues == Pick(IssuePool(language), issueOrder, |result.issues|)
    ensures result.recommendations
            == Pick(RecommendationPool(language), recommendationOrder, |result.recommendations|)
    ensures forall i :: 0 <= i < |result.issues| ==> result.issues[i] in IssuePool(language)
    ensures forall i :: 0 <= i < |result.recommendations| ==>
              result.recommendations[i] in RecommendationPool(language)
    ensures Distinct(result.issues) && Distinct(result.recommendations)
  {
    var finalScore := KeywordScore(input, language);
    var issues, recommendations := PickFindings(language, finalScore, issueOrder, recommendationOrder);
    result := AnalysisResult(AnalysisId(clock, nonce), input, finalScore,
                             issues, recommendations, timestamp, language);
  }

  /** The shuffled pools cut to the number of entries the score calls for;
      recommendations are as many as issues. */
  method PickFindings(language: Language, finalScore: int,
                      issueOrder: seq<nat>, recommendationOrder: seq<nat>)
    returns (issues: seq<string>, recommendations: seq<string>)
    requires IsPermutation(issueOrder, |IssuePool(language)|)
    requires IsPermutation(recommendationOrder, |RecommendationPool(language)|)
    ensures |issues| == |recommendations| == IssueCount(finalScore)
    ensures issues == Pick(IssuePool(language), issueOrder, |issues|)
    ensures recommendations == Pick(RecommendationPool(language), recommendationOrder, |recommendations|)
    ensures forall i :: 0 <= i < |issues| ==> issues[i] in IssuePool(language)
    ensures forall i :: 0 <= i < |recommendations| ==> recommendations[i] in RecommendationPool(language)
    ensures Distinct(issues) && Distinct(recommendations)
  {
    var issuePool := IssuePool(language);
    var recommendationPool := RecommendationPool(language);
    PoolsDistinct(language);
    var numIssues := IssueCount(finalScore);
    var numRecommendations := numIssues;
    issues := Pick(issuePool, issueOrder, numIssues);
    recommendations := Pick(recommendationPool, recommendationOrder, numRecommendations);
  }

  /** Each keyword counts once: the count is the number of keyword positions
      whose keyword occurs in the text. */
  lemma {:induction false} HitsInMatches(keywords: seq<string>, text: string, n: nat)
    requires n <= |keywords|
    ensures HitsIn(keywords, text, n) == |set i | 0 <= i < n && Includes(text, keywords[i])|
  {
    if n > 0 {
      HitsInMatches(keywords, text, n - 1);
      var before := set i | 0 <= i < n - 1 && Includes(text, keywords[i]);
      var now := set i | 0 <= i < n && Includes(text, keywords[i]);
      if Includes(text, keywords[n - 1]) {
        assert now == before + {n - 1};
      } else {
        assert now == before;
      }
    }
  }

  /** A text in which no keyword occurs scores no hit. */
  lemma {:induction false} HitsInNone(keywords: seq<string>, text: string, n: nat)
    requires n <= |keywords|
    requires forall i :: 0 <= i < n ==> !Includes(text, keywords[i])
    ensures HitsIn(keywords, text, n) == 0
  {
    if n > 0 {
      HitsInNone(keywords, text, n - 1);
    }
  }

  /** The lowest raw score is 45 in English and 50 in Arabic, so the lower
      clamp at 35 never changes a score; only the upper one can. */
  lemma LowerClampNeverBinds(input: string, l: Language)
    ensures RawScore(input, l) >= (if l == En then 45 else 50)
    ensures FinalScore(input, l) == Min(MaxScore, RawScore(input, l))
  {
    assert |ProblemKeywords(l)| == (if l == En then 8 else 7);
  }

  /** The upper clamp changes the score exactly when the positive bonus
      outweighs the problem penalty by 10 or more. */
  lemma UpperClampBinds(input: string, l: Language)
    ensures var lower := ToLower(input);
            FinalScore(input, l) == MaxScore
            <==> PositiveBonus * Hits(PositiveKeywords(l), lower)
                 - ProblemPenalty * Hits(ProblemKeywords(l), lower) >= 10
  {
    LowerClampNeverBinds(input, l);
  }

  /** Reachable scores lie in [45, 95], so an analysis lists three issues
      when the score is at most 55 and two otherwise; four and five never
      occur. */
  lemma IssueCountReachable(input: string, l: Language)
    ensures var score := FinalScore(input, l);
            IssueCount(score) == (if score <= 55 then 3 else 2)
  {
    LowerClampNeverBinds(input, l);
  }

  /** Input without any keyword keeps the base score of 85 and gets two
      issues. */
  lemma NoKeywordScore(input: string, l: Language)
    requires forall i :: 0 <= i < |ProblemKeywords(l)| ==> !Includes(ToLower(input), ProblemKeywords(l)[i])
    requires forall i :: 0 <= i < |PositiveKeywords(l)| ==> !Includes(ToLower(input), PositiveKeywords(l)[i])
    ensures FinalScore(input, l) == BaseScore
    ensures IssueCount(FinalScore(input, l)) == 2
  {
    HitsInNone(ProblemKeywords(l), ToLower(input), |ProblemKeywords(l)|);
    HitsInNone(PositiveKeywords(l), ToLower(input), |PositiveKeywords(l)|);
  }

  /** Empty input scores 85 in either language. */
  lemma EmptyInputScore(l: Language)
    ensures FinalScore("", l) == BaseScore
  {
    forall k: string ensures !Includes("", k) || k == [] {
    }
    NoKeywordScore("", l);
  }

  /** The length and the last two characters: enough to tell the entries of
      each pool apart. */
  function Signature(s: string): (int, char, char)
    requires |s| >= 2
  {
    (|s|, s[|s| - 1], s[|s| - 2])
  }

  lemma EnglishIssuesDistinct()
    ensures forall i, j :: 0 <= i < j < 10 ==> IssueText(En, i) != IssueText(En, j)
  {
    assert Signature(IssueText(En, 0)) == (46, 's', 'r');
    assert Signature(IssueText(En, 1)) == (53, 't', 'n');
    assert Signature(IssueText(En, 2)) == (36, 's', 'n');
    assert Signature(IssueText(En, 3)) == (47, 't', 'u');
    assert Signature(IssueText(En, 4)) == (33, 's', 'n');
    assert Signature(IssueText(En, 5)) == (35, 'd', 'e');
    assert Signature(IssueText(En, 6)) == (45, 'e', 'c');
    assert Signature(IssueText(En, 7)) == (37, 'n', 'o');
    assert Signature(IssueText(En, 8)) == (41, 's', 'e');
    assert Signature(IssueText(En, 9)) == (41, 's', 'r');
  }

  lemma ArabicIssuesDistinct()
    ensures forall i, j :: 0 <= i < j < 10 ==> IssueText(Ar, i) != IssueText(Ar, j)
  {
    assert Signature(IssueText(Ar, 0)) == (37, 'ن', 'ي');
    assert Signature(IssueText(Ar, 1)) == (45, 'ر', 'ج');
    assert Signature(IssueText(Ar, 2)) == (33, 'ة', 'ح');
    assert Signature(IssueText(Ar, 3)) == (48, 'ى', 'و');
    assert Signature(IssueText(Ar, 4)) == (38, 'م', 'د');
    assert Signature(IssueText(Ar, 5)) == (33, 'ة', 'ل');
    assert Signature(IssueText(Ar, 6)) == (48, 'م', 'د');
    assert Signature(IssueText(Ar, 7)) == (36, 'ة', 'ح');
    assert Signature(IssueText(Ar, 8)) == (33, 'ت', 'ا');
    assert Signature(IssueText(Ar, 9)) == (35, 'ة', 'ش');
  }

  lemma EnglishRecommendationsDistinct()
    ensures forall i, j :: 0 <= i < j < 10 ==> RecommendationText(En, i) != RecommendationText(En, j)
  {
    assert Signature(RecommendationText(En, 0)) == (46, 's', 'e');
    assert Signature(RecommendationText(En, 1)) == (48, 'y', 'l');
    assert Signature(RecommendationText(En, 2)) == (49, 's', 'n');
    assert Signature(RecommendationText(En, 3)) == (52, 'g', 'n');
    assert Signature(RecommendationText(En, 4)) == (52, 's', 'n');
    assert Signature(RecommendationText(En, 5)) == (48, 'h', 'c');
    assert Signature(RecommendationText(En, 6)) == (58, 'n', 'o');
    assert Signature(RecommendationText(En, 7)) == (38, 's', 'e');
    assert Signature(RecommendationText(En, 8)) == (50, 'e', 'd');
    assert Signature(RecommendationText(En, 9)) == (51, 'e', 'r');
  }

  lemma ArabicRecommendationsDistinct()
    ensures forall i, j :: 0 <= i < j < 10 ==> RecommendationText(Ar, i) != RecommendationText(Ar, j)
  {
    assert Signature(RecommendationText(Ar, 0)) == (30, 'ة', 'ح');
    assert Signature(RecommendationText(Ar, 1)) == (41, 'ط', 'ق');
    assert Signature(RecommendationText(Ar, 2)) == (37, 'ة', 'ن');
    assert Signature(RecommendationText(Ar, 3)) == (53, 'ب', 'س');
    assert Signature(RecommendationText(Ar, 4)) == (46, 'م', 'د');
    assert Signature(RecommendationText(Ar, 5)) == (40, 'ً', 'ا');
    assert Signature(RecommendationText(Ar, 6)) == (36, 'ء', 'ا');
    assert Signature(RecommendationText(Ar, 7)) == (36, 'ذ', 'ي');
    assert Signature(RecommendationText(Ar, 8)) == (33, 'ب', 'و');
    assert Signature(RecommendationText(Ar, 9)) == (42, 'ي', 'ل');
  }

  /** No pool repeats an entry, so the picks never repeat either. */
  lemma PoolsDistinct(l: Language)
    ensures Distinct(IssuePool(l)) && Distinct(RecommendationPool(l))
  {
    EnglishIssuesDistinct();
    ArabicIssuesDistinct();
    EnglishRecommendationsDistinct();
    ArabicRecommendationsDistinct();
  }
}
