/** Worked examples of the keyword scoring in src/lib/uxAnalyzer.ts. Every
    keyword lacks a space, so a keyword occurs in a sentence exactly when it
    occurs in one of its words; the word-level facts are small enough to be
    evaluated outright. */
module UxAnalyzerExamples {
  import opened Text
  import opened Locale
  import opened UxAnalyzer

  /** A keyword longer than a word does not occur in it. */
  lemma ShortWord(w: string, k: string)
    requires |w| < |k|
    ensures !Includes(w, k)
  {
  }

  /** The words after the first of "My app has a confusing and slow
      checkout", already in lower case. */
  function CheckoutRest(): string {
    "app" + " " + ("has" + " " + ("a" + " " + ("confusing" + " " + ("and" + " " + ("slow" + " " + "checkout")))))
  }

  /** The example input, "My app has a confusing and slow checkout". */
  function CheckoutInput(): string {
    "My" + " " + CheckoutRest()
  }

  /** The example input once lower-cased. */
  function CheckoutSentence(): string {
    "my" + " " + CheckoutRest()
  }

  /** Only the three words of four letters or more can hold a keyword. */
  lemma CheckoutWords(k: string)
    requires ' ' !in k && |k| >= 4
    ensures Includes(CheckoutSentence(), k)
            <==> Includes("confusing", k) || Includes("slow", k) || Includes("checkout", k)
  {
    var tail := "slow" + " " + "checkout";
    IncludesAroundSpace("slow", "checkout", k);
    IncludesAroundSpace("and", tail, k);
    IncludesAroundSpace("confusing", "and" + " " + tail, k);
    IncludesAroundSpace("a", "confusing" + " " + ("and" + " " + tail), k);
    IncludesAroundSpace("has", "a" + " " + ("confusing" + " " + ("and" + " " + tail)), k);
    IncludesAroundSpace("app", "has" + " " + ("a" + " " + ("confusing" + " " + ("and" + " " + tail))), k);
    IncludesAroundSpace("my", "app" + " " + ("has" + " " + ("a" + " " + ("confusing" + " " + ("and" + " " + tail)))), k);
    ShortWord("my", k);
    ShortWord("app", k);
    ShortWord("has", k);
    ShortWord("a", k);
    ShortWord("and", k);
  }

  lemma CheckoutProblem()
    ensures !Includes(CheckoutSentence(), "problem")
  {
    CheckoutWords("problem");
  }

  lemma CheckoutIssue()
    ensures !Includes(CheckoutSentence(), "issue")
  {
    CheckoutWords("issue");
  }

  lemma CheckoutDifficult()
    ensures !Includes(CheckoutSentence(), "difficult")
  {
    CheckoutWords("difficult");
  }

  lemma CheckoutConfusing()
    ensures Includes(CheckoutSentence(), "confusing")
  {
    CheckoutWords("confusing");
  }

  lemma CheckoutAbandon()
    ensures !Includes(CheckoutSentence(), "abandon")
  {
    CheckoutWords("abandon");
  }

  lemma CheckoutError()
    ensures !Includes(CheckoutSentence(), "error")
  {
    CheckoutWords("error");
  }

  lemma CheckoutSlow()
    ensures Includes(CheckoutSentence(), "slow")
  {
    CheckoutWords("slow");
  }

  lemma CheckoutBroken()
    ensures !Includes(CheckoutSentence(), "broken")
  {
    CheckoutWords("broken");
  }

  lemma CheckoutGood()
    ensures !Includes(CheckoutSentence(), "good")
  {
    CheckoutWords("good");
  }

  lemma CheckoutEasy()
    ensures !Includes(CheckoutSentence(), "easy")
  {
    CheckoutWords("easy");
  }

  lemma CheckoutClear()
    ensures !Includes(CheckoutSentence(), "clear")
  {
    CheckoutWords("clear");
  }

  lemma CheckoutSimple()
    ensures !Includes(CheckoutSentence(), "simple")
  {
    CheckoutWords("simple");
  }

  lemma CheckoutFast()
    ensures !Includes(CheckoutSentence(), "fast")
  {
    CheckoutWords("fast");
  }

  lemma CheckoutIntuitive()
    ensures !Includes(CheckoutSentence(), "intuitive")
  {
    CheckoutWords("intuitive");
  }

  lemma CheckoutUserFriendly()
    ensures !Includes(CheckoutSentence(), "user-friendly")
  {
    CheckoutWords("user-friendly");
  }

  /** A text holding "confusing" and "slow" and no other English problem keyword has two hits. */
  lemma ProblemHits(text: string)
    requires !Includes(text, "problem")
    requires !Includes(text, "issue")
    requires !Includes(text, "difficult")
    requires Includes(text, "confusing")
    requires !Includes(text, "abandon")
    requires !Includes(text, "error")
    requires Includes(text, "slow")
    requires !Includes(text, "broken")
    ensures Hits(ProblemKeywords(En), text) == 2
  {
    var keywords := ProblemKeywords(En);
    assert HitsIn(keywords, text, 1) == 0;
    assert HitsIn(keywords, text, 2) == 0;
    assert HitsIn(keywords, text, 3) == 0;
    assert HitsIn(keywords, text, 4) == 1;
    assert HitsIn(keywords, text, 5) == 1;
    assert HitsIn(keywords, text, 6) == 1;
    assert HitsIn(keywords, text, 7) == 2;
    assert HitsIn(keywords, text, 8) == 2;
  }

  /** A text holding no English positive keyword has no hit. */
  lemma NoPositiveHits(text: string)
    requires !Includes(text, "good")
    requires !Includes(text, "easy")
    requires !Includes(text, "clear")
    requires !Includes(text, "simple")
    requires !Includes(text, "fast")
    requires !Includes(text, "intuitive")
    requires !Includes(text, "user-friendly")
    ensures Hits(PositiveKeywords(En), text) == 0
  {
    var keywords := PositiveKeywords(En);
    assert HitsIn(keywords, text, 1) == 0;
    assert HitsIn(keywords, text, 2) == 0;
    assert HitsIn(keywords, text, 3) == 0;
    assert HitsIn(keywords, text, 4) == 0;
    assert HitsIn(keywords, text, 5) == 0;
    assert HitsIn(keywords, text, 6) == 0;
    assert HitsIn(keywords, text, 7) == 0;
  }

  /** Lower-casing keeps two lower-case words and the space between them. */
  lemma LowerKept(a: string, b: string)
    requires ToLower(a) == a && ToLower(b) == b
    ensures ToLower(a + " " + b) == a + " " + b
  {
    ToLowerAppend(a + " ", b);
    ToLowerAppend(a, " ");
  }

  lemma CheckoutLower()
    ensures ToLower(CheckoutInput()) == CheckoutSentence()
  {
    var t1 := "slow" + " " + "checkout";
    var t2 := "and" + " " + t1;
    var t3 := "confusing" + " " + t2;
    var t4 := "a" + " " + t3;
    var t5 := "has" + " " + t4;
    LowerKept("slow", "checkout");
    LowerKept("and", t1);
    LowerKept("confusing", t2);
    LowerKept("a", t3);
    LowerKept("has", t4);
    LowerKept("app", t5);
    ToLowerAppend("My" + " ", CheckoutRest());
    ToLowerAppend("My", " ");
  }

  /** Two problem keywords and no positive one: 85 - 2 * 5 = 75, which
      asks for two issues. */
  lemma CheckoutExample()
    ensures FinalScore(CheckoutInput(), En) == 75
    ensures IssueCount(FinalScore(CheckoutInput(), En)) == 2
  {
    CheckoutLower();
    CheckoutProblem();
    CheckoutIssue();
    CheckoutDifficult();
    CheckoutConfusing();
    CheckoutAbandon();
    CheckoutError();
    CheckoutSlow();
    CheckoutBroken();
    CheckoutGood();
    CheckoutEasy();
    CheckoutClear();
    CheckoutSimple();
    CheckoutFast();
    CheckoutIntuitive();
    CheckoutUserFriendly();
    ProblemHits(CheckoutSentence());
    NoPositiveHits(CheckoutSentence());
  }

  /** A text that holds `a + b` holds `a`. */
  lemma IncludesPrefix(text: string, a: string, b: string)
    requires Includes(text, a + b)
    ensures Includes(text, a)
  {
    IncludesOccurs(text, a + b);
    IncludesOccurs(text, a);
    var k :| OccursAt(text, a + b, k);
    assert text[k..k + |a|] == (a + b)[..|a|];
    assert OccursAt(text, a, k);
  }

  /** The Arabic positive list holds both "سهل" (easy) and "سهل الاستخدام"
      (easy to use), and the second begins with the first: an input that
      says "easy to use" earns the positive bonus twice. */
  lemma ArabicEasyToUseCountsTwice(text: string)
    requires Includes(text, "سهل الاستخدام")
    ensures Hits(PositiveKeywords(Ar), text) >= 2
  {
    var keywords := PositiveKeywords(Ar);
    assert keywords[6] == "سهل" + " الاستخدام";
    IncludesPrefix(text, "سهل", " الاستخدام");
    HitsInMatches(keywords, text, |keywords|);
    var found := set i | 0 <= i < |keywords| && Includes(text, keywords[i]);
    assert 1 in found && 6 in found;
    assert {1, 6} <= found;
    assert |{1, 6}| == 2;
    SubsetCard({1, 6}, found);
  }

  lemma SubsetCard(a: set<int>, b: set<int>)
    requires a <= b
    ensures |a| <= |b|
  {
    assert b == a + (b - a);
  }
}
