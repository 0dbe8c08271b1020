/** The saved-analysis card of src/components/history/HistoryCard.tsx: the
    previews of the idea and of the audience, the Arabic score band, and the
    colours of the score and of the innovation level. */
module HistoryCard {
  import opened Text
  import opened Tiers

  const IdeaPreviewLength: nat := 120
  const AudiencePreviewLength: nat := 80

  /** The innovation levels the analysis reports, in Arabic. */
  const HighLevel: string := "عالي"
  const MediumLevel: string := "متوسط"
  const LowLevel: string := "منخفض"

  /** The idea paragraph: in full when expanded, cut at 120 otherwise. */
  function IdeaShown(idea: string, isExpanded: bool): (r: string)
    ensures isExpanded || |idea| <= IdeaPreviewLength ==> r == idea
    ensures !isExpanded && |idea| > IdeaPreviewLength ==>
              r == idea[..IdeaPreviewLength] + "..." && |r| == IdeaPreviewLength + 3
  {
    if isExpanded then idea else Truncate(idea, IdeaPreviewLength)
  }

  /** The expand button appears only for an idea longer than 120. */
  predicate ShowsToggle(idea: string) {
    |idea| > IdeaPreviewLength
  }

  /** The button is there exactly when the collapsed idea is cut. */
  lemma ToggleIffCut(idea: string)
    ensures ShowsToggle(idea) <==> |IdeaShown(idea, false)| > IdeaPreviewLength
  {
  }

  /** The audience line, always cut at 80. */
  function AudienceShown(audience: string): (r: string)
    ensures |r| <= AudiencePreviewLength + 3
    ensures |audience| <= AudiencePreviewLength ==> r == audience
    ensures |audience| > AudiencePreviewLength ==> r == audience[..AudiencePreviewLength] + "..."
  {
    Truncate(audience, AudiencePreviewLength)
  }

  /** Without the button the toggle changes nothing on screen. */
  lemma ToggleHiddenIsHarmless(idea: string, isExpanded: bool)
    requires !ShowsToggle(idea)
    ensures IdeaShown(idea, isExpanded) == IdeaShown(idea, !isExpanded)
  {
  }

  /** The Arabic band under the card. */
  function TierLabel(score: int): (name: string)
    ensures name == "ممتاز" <==> score >= 80
    ensures name == "جيد" <==> 60 <= score < 80
    ensures name == "يحتاج تحسين" <==> score < 60
  {
    if score >= 80 then "ممتاز"
    else if score >= 60 then "جيد"
    else "يحتاج تحسين"
  }

  /** The band name and the badge colour move together. */
  lemma TierLabelMatchesColor(a: int, b: int)
    ensures TierLabel(a) == TierLabel(b) <==> ScoreColor(a) == ScoreColor(b)
  {
    ScoreColorBands(a, b);
  }

  /** `getInnovationColor`: the three levels take the score bands' colours,
      anything else the neutral one. */
  function InnovationColor(level: string): (color: string)
    ensures level == HighLevel ==> color == BadgeColor(High)
    ensures level == MediumLevel ==> color == BadgeColor(Medium)
    ensures level == LowLevel ==> color == BadgeColor(Low)
    ensures level !in {HighLevel, MediumLevel, LowLevel} ==> color == NeutralBadge
  {
    if level == HighLevel then BadgeColor(High)
    else if level == MediumLevel then BadgeColor(Medium)
    else if level == LowLevel then BadgeColor(Low)
    else NeutralBadge
  }

  /** Only the three known levels are coloured: the colour is neutral
      exactly for any other text. */
  lemma InnovationColorNeutral(level: string)
    ensures InnovationColor(level) == NeutralBadge <==> level !in {HighLevel, MediumLevel, LowLevel}
  {
    BadgeColorsDistinct(High, High);
    BadgeColorsDistinct(Medium, Medium);
    BadgeColorsDistinct(Low, Low);
  }

  /** The card's one piece of state. */
  class Card {
    var isExpanded: bool
    const idea: string

    constructor (idea: string)
      ensures !isExpanded && this.idea == idea
    {
      isExpanded := false;
      this.idea := idea;
    }

    method ToggleExpanded()
      modifies this
      ensures isExpanded == !old(isExpanded)
      ensures isExpanded ==> IdeaShown(idea, isExpanded) == idea
    {
      isExpanded := !isExpanded;
    }
  }
}
