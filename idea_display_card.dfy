/** The original-idea card of src/components/analysis/IdeaDisplayCard.tsx: the
    score badge, and the 180-character preview with its read-more toggle. */
module IdeaDisplayCard {
  import opened Text
  import opened Tiers

  const PreviewLength: nat := 180

  /** `getScoreLabel`. */
  function ScoreLabel(score: int): (name: string)
    ensures name == "Excellent" <==> score >= 80
    ensures name == "Good" <==> 60 <= score < 80
    ensures name == "Needs Improvement" <==> score < 60
  {
    match TierOf(score)
    case High => "Excellent"
    case Medium => "Good"
    case Low => "Needs Improvement"
  }

  /** The label and the colour of the badge follow the same bands: two
      scores share a label exactly when they share a colour. */
  lemma LabelMatchesColor(a: int, b: int)
    ensures ScoreLabel(a) == ScoreLabel(b) <==> ScoreColor(a) == ScoreColor(b)
  {
    ScoreColorBands(a, b);
  }

  /** `truncateText`: at most 180 characters are kept, followed by "..." when
      something was cut. */
  function Preview(text: string): (r: string)
    ensures |text| <= PreviewLength ==> r == text
    ensures |text| > PreviewLength ==> r == text[..PreviewLength] + "..." && |r| == PreviewLength + 3
  {
    Truncate(text, PreviewLength)
  }

  /** The read-more button is rendered only for an idea longer than 180
      characters. */
  predicate ShowsToggle(text: string) {
    |text| > PreviewLength
  }

  /** The button is there exactly when the preview is cut. */
  lemma ToggleIffCut(text: string)
    ensures ShowsToggle(text) <==> |Preview(text)| > PreviewLength
  {
  }

  /** What the paragraph shows: the whole idea when expanded, the preview
      otherwise. */
  function Shown(text: string, isExpanded: bool): (r: string)
    ensures isExpanded ==> r == text
    ensures text[..if |text| < PreviewLength then |text| else PreviewLength] <= r
  {
    if isExpanded then text else Preview(text)
  }

  /** An idea without the button is always shown in full, whatever the
      toggle holds; a longer one is shown in full when expanded and as its
      first 180 characters and "..." when collapsed. */
  lemma ToggleMattersOnlyWhenShown(text: string, isExpanded: bool)
    ensures !ShowsToggle(text) ==> Shown(text, isExpanded) == text
    ensures ShowsToggle(text) ==> Shown(text, true) == text
    ensures ShowsToggle(text) ==> Shown(text, false) == text[..PreviewLength] + "..."
                                  && |Shown(text, false)| == PreviewLength + 3
  {
  }

  /** The card's one piece of state. */
  class IdeaCard {
    var isExpanded: bool
    const originalIdea: string

    constructor (originalIdea: string)
      ensures !isExpanded && this.originalIdea == originalIdea
      ensures Displayed() == Preview(originalIdea)
    {
      isExpanded := false;
      this.originalIdea := originalIdea;
    }

    function Displayed(): string
      reads this
    {
      Shown(originalIdea, isExpanded)
    }

    /** "Read more" / "Read less". */
    method ToggleExpanded()
      modifies this
      ensures isExpanded == !old(isExpanded)
      ensures isExpanded ==> Displayed() == originalIdea
      ensures !isExpanded ==> Displayed() == Preview(originalIdea)
    {
      isExpanded := !isExpanded;
    }
  }
}
