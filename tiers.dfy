/** The three score bands that every card and table of the interface uses
    to pick a label and a colour: 80 and above, 60 to 79, below 60. */
module Tiers {

  datatype Tier = High | Medium | Low

  function TierOf(score: int): (t: Tier)
    ensures t == High <==> score >= 80
    ensures t == Medium <==> 60 <= score < 80
    ensures t == Low <==> score < 60
  {
    if score >= 80 then High
    else if score >= 60 then Medium
    else Low
  }

  function Rank(t: Tier): nat {
    match t
    case Low => 0
    case Medium => 1
    case High => 2
  }

  /** A higher score never lands in a lower band. */
  lemma TierMonotone(a: int, b: int)
    requires a <= b
    ensures Rank(TierOf(a)) <= Rank(TierOf(b))
  {
  }

  /** The badge classes of a band, shared by the idea card and the history
      card. */
  function BadgeColor(t: Tier): string {
    match t
    case High => "bg-green-100 text-green-800 border-green-200"
    case Medium => "bg-yellow-100 text-yellow-800 border-yellow-200"
    case Low => "bg-red-100 text-red-800 border-red-200"
  }

  /** The badge classes of anything outside the three bands. */
  const NeutralBadge: string := "bg-gray-100 text-gray-800 border-gray-200"

  /** `getScoreColor`: the badge classes of a score's band. */
  function ScoreColor(score: int): string {
    BadgeColor(TierOf(score))
  }

  /** The badge classes tell the bands apart, and none of them is the
      neutral one. */
  lemma BadgeColorsDistinct(t: Tier, u: Tier)
    ensures BadgeColor(t) == BadgeColor(u) <==> t == u
    ensures BadgeColor(t) != NeutralBadge
  {
    assert |BadgeColor(High)| == 44 && |BadgeColor(Medium)| == 47 && |BadgeColor(Low)| == 38;
    assert |NeutralBadge| == 41;
  }

  /** Two scores get the same badge exactly when they fall in the same band:
      green from 80, yellow from 60, red below. */
  lemma ScoreColorBands(a: int, b: int)
    ensures ScoreColor(a) == ScoreColor(b) <==> TierOf(a) == TierOf(b)
    ensures ScoreColor(a) == BadgeColor(High) <==> a >= 80
    ensures ScoreColor(a) == BadgeColor(Low) <==> a < 60
  {
    BadgeColorsDistinct(TierOf(a), TierOf(b));
    BadgeColorsDistinct(TierOf(a), High);
    BadgeColorsDistinct(TierOf(a), Low);
  }
}
