/** The offline paths of src/lib/aiEnhancer.ts: the template enhancement used
    when the remote model fails, the fixed list of ideas to draw from when
    idea generation fails, and the shape of the failure results. The
    templates and ideas are written in pieces. */
module AiEnhancer {
  import opened Wrappers
  import opened Text

  /** `enhanceSaasIdea`'s result. */
  datatype EnhancementResult = EnhancementResult(enhanced: string, success: bool, error: Option<string>)

  /** `generateRandomSaasIdea`'s result. */
  datatype IdeaGenerationResult = IdeaGenerationResult(idea: string, success: bool, error: Option<string>)

  const UnknownError: string := "Unknown error occurred"

  /** The paragraphs added to an input of fewer than ten words: market, features, business model. */
  function ShortParagraph(k: nat): string {
    match k
    case 0 => (
      "This SaaS solution addresses a specific " + "market need by providing a comprehensive "
      + "platform that streamlines operations and " + "improves efficiency for businesses. The "
      + "target market includes small to " + "medium-sized enterprises looking to "
      + "optimize their workflows and reduce " + "operational costs.")
    case 1 => (
      "Key features would include user-friendly " + "interface, real-time analytics, "
      + "integration capabilities with existing " + "tools, and scalable architecture to grow "
      + "with the business. The solution offers " + "significant value proposition through "
      + "cost reduction, time savings, and " + "improved productivity metrics.")
    case _ => (
      "The business model would focus on " + "subscription-based pricing with tiered "
      + "plans to accommodate different business " + "sizes and needs, ensuring sustainable "
      + "revenue growth and customer retention.")
  }

  /** The paragraphs added to an input of ten words or more: verticals, go-to-market. */
  function LongParagraph(k: nat): string {
    match k
    case 0 => (
      "Building on this concept, the solution " + "would target specific industry verticals "
      + "where this problem is most acute, " + "offering specialized features and "
      + "integrations that address unique " + "workflow requirements. The platform "
      + "would differentiate itself through " + "superior user experience, advanced "
      + "automation capabilities, and " + "comprehensive analytics that provide "
      + "actionable insights.")
    case _ => (
      "The go-to-market strategy would focus on " + "demonstrating clear ROI through pilot "
      + "programs and case studies, establishing " + "partnerships with industry leaders, and "
      + "building a strong customer success " + "program to ensure high retention rates "
      + "and organic growth through referrals.")
  }

  function ShortTemplate(): (ps: seq<string>)
    ensures |ps| == 3
  {
    seq(3, k requires 0 <= k < 3 => ShortParagraph(k))
  }

  function LongTemplate(): (ps: seq<string>)
    ensures |ps| == 2
  {
    seq(2, k requires 0 <= k < 2 => LongParagraph(k))
  }

  /** The paragraphs of a template, each after a blank line. */
  function Paragraphs(ps: seq<string>): (t: string)
    ensures ps != [] ==> |t| >= 2 && t[..2] == "\n\n"
  {
    if ps == [] then "" else "\n\n" + ps[0] + Paragraphs(ps[1..])
  }

  /** The template the trimmed input's word count selects. */
  function TemplateFor(input: string): (ps: seq<string>)
    ensures |ps| >= 2
    ensures WordCount(input) < 10 <==> ps == ShortTemplate()
    ensures WordCount(input) >= 10 <==> ps == LongTemplate()
  {
    if WordCount(input) < 10 then ShortTemplate() else LongTemplate()
  }

  /** `generateFallbackEnhancement`: the input verbatim, then the selected
      template. */
  function FallbackEnhancement(input: string): string {
    input + Paragraphs(TemplateFor(input))
  }

  /** Whatever paragraphs follow it, the input is kept verbatim and followed
      by a blank line. */
  lemma InputThenBlankLine(input: string, ps: seq<string>)
    requires ps != []
    ensures var r := input + Paragraphs(ps);
            input <= r && |r| >= |input| + 2 && r[|input|..|input| + 2] == "\n\n"
  {
    var rest := Paragraphs(ps);
    var r := input + rest;
    assert r[|input|..] == rest;
    assert r[|input|..|input| + 2] == rest[..2];
  }

  /** The output starts with the untrimmed input and a blank line, is longer
      than the input, and carries the three-paragraph template exactly when
      the trimmed input has fewer than ten words, the two-paragraph one
      otherwise. */
  lemma FallbackEnhancementShape(input: string)
    ensures var r := FallbackEnhancement(input);
            input <= r && |r| >= |input| + 2 && r[|input|..|input| + 2] == "\n\n"
            && (WordCount(input) < 10 ==> r == input + Paragraphs(ShortTemplate()))
            && (WordCount(input) >= 10 ==> r == input + Paragraphs(LongTemplate()))
  {
    InputThenBlankLine(input, TemplateFor(input));
  }

  /** A blank input counts as one word and gets the three-paragraph
      template. */
  lemma BlankInputShortTemplate(input: string)
    requires IsBlank(input)
    ensures FallbackEnhancement(input) == input + Paragraphs(ShortTemplate())
  {
  }

  /** The result `enhanceSaasIdea` returns when the remote call fails: the
      template enhancement, `success` false, and the error's message, or a
      fixed text for something that is not an `Error`. */
  function EnhancementFailure(input: string, errorMessage: Option<string>): (r: EnhancementResult)
    ensures !r.success && r.enhanced == FallbackEnhancement(input)
    ensures r.error == Some(errorMessage.GetOr(UnknownError))
  {
    EnhancementResult(FallbackEnhancement(input), false, Some(errorMessage.GetOr(UnknownError)))
  }

  // ------------------------------------------------------ offline ideas

  const IdeaCount: nat := 8

  /** `FALLBACK_SAAS_IDEAS`, entry by entry. */
  function FallbackIdea(k: nat): string {
    match k
    case 0 => (
      "A project management platform " + "specifically designed for remote "
      + "creative teams, featuring real-time " + "collaboration tools, automated workflow "
      + "tracking, and integrated client feedback " + "systems to streamline the creative "
      + "process from concept to delivery.")
    case 1 => (
      "An AI-powered customer support " + "automation tool that learns from "
      + "existing support tickets to provide " + "instant, personalized responses while "
      + "seamlessly escalating complex issues to " + "human agents, reducing response times by "
      + "80%.")
    case 2 => (
      "A comprehensive employee wellness " + "platform that combines mental health "
      + "resources, fitness tracking, and " + "productivity analytics to help companies "
      + "improve employee satisfaction and reduce " + "burnout in hybrid work environments.")
    case 3 => (
      "A smart inventory management system for " + "small e-commerce businesses that uses "
      + "predictive analytics to optimize stock " + "levels, automate reordering, and prevent "
      + "stockouts while minimizing carrying " + "costs.")
    case 4 => (
      "A social media content planning and " + "automation platform that uses AI to "
      + "generate engaging posts, optimal posting " + "schedules, and performance insights "
      + "tailored to each brand's unique voice " + "and audience.")
    case 5 => (
      "A financial planning SaaS for " + "freelancers and gig workers that tracks "
      + "irregular income, automates tax savings, " + "provides cash flow forecasting, and "
      + "offers personalized budgeting " + "recommendations.")
    case 6 => (
      "An all-in-one event management platform " + "that handles registration, ticketing, "
      + "networking facilitation, and post-event " + "analytics, specifically designed for "
      + "professional conferences and corporate " + "events.")
    case _ => (
      "A code review and collaboration tool " + "that uses machine learning to identify "
      + "potential bugs, security " + "vulnerabilities, and performance issues "
      + "while facilitating seamless team code " + "reviews and knowledge sharing.")
  }

  function FallbackIdeas(): (ideas: seq<string>)
    ensures |ideas| == IdeaCount
  {
    seq(IdeaCount, k requires 0 <= k < IdeaCount => FallbackIdea(k))
  }

  /** `Math.floor(Math.random() * FALLBACK_SAAS_IDEAS.length)` for a draw `r`
      in [0, 1). */
  function IdeaIndex(r: real): (i: nat)
    requires 0.0 <= r < 1.0
    ensures i < IdeaCount
  {
    (r * IdeaCount as real).Floor
  }

  /** Every idea is drawn for the draws in [i/8, (i+1)/8). */
  lemma IdeaIndexExact(r: real, i: nat)
    requires i < IdeaCount
    requires i as real / IdeaCount as real <= r < (i + 1) as real / IdeaCount as real
    ensures IdeaIndex(r) == i
  {
  }

  /** The result `generateRandomSaasIdea` returns when the remote call
      fails: one of the eight fixed ideas. */
  function IdeaFailure(r: real, errorMessage: Option<string>): (res: IdeaGenerationResult)
    requires 0.0 <= r < 1.0
    ensures !res.success && res.idea in FallbackIdeas()
    ensures res.idea == FallbackIdeas()[IdeaIndex(r)]
    ensures res.error == Some(errorMessage.GetOr(UnknownError))
  {
    IdeaGenerationResult(FallbackIdeas()[IdeaIndex(r)], false, Some(errorMessage.GetOr(UnknownError)))
  }
}
