/**
 * The label badge of app/components/ScoreBadge.tsx: three tiers with their own thresholds,
 * which are not those of the category badges in app/components/Details.tsx.
 */
module ScoreBadge {
  import Details

  /** The object `getBadge` returns: the colour classes and the label. */
  datatype Badge = Badge(color: string, text: string)

  const Strong := Badge("bg-badge-green text-green-600", "Strong")
  const GoodStart := Badge("bg-badge-yellow text-yellow-600", "Good Start")
  const NeedsWork := Badge("bg-badge-red text-red-600", "Needs Work")

  /** `getBadge`: above 70 strong, above 49 a good start, otherwise needs work. */
  function GetBadge(score: int): (b: Badge)
    ensures b == Strong <==> score >= 71
    ensures b == GoodStart <==> 50 <= score <= 70
    ensures b == NeedsWork <==> score <= 49
  {
    if score > 70 then Strong
    else if score > 49 then GoodStart
    else NeedsWork
  }

  /** The labels ranked from "Needs Work" (0) to "Strong" (2). */
  function BadgeRank(b: Badge): nat {
    if b == Strong then 2 else if b == GoodStart then 1 else 0
  }

  /** A higher score never gets a lower label. */
  lemma GetBadgeMonotone(a: int, b: int)
    requires a <= b
    ensures BadgeRank(GetBadge(a)) <= BadgeRank(GetBadge(b))
  {
  }

  /** The comparison is strict: 70 is a good start, 71 is strong. */
  lemma SeventyIsGoodStart()
    ensures GetBadge(70) == GoodStart && GetBadge(71) == Strong
  {
  }

  /** `aria-label`: "Score: " and the label. */
  function AriaLabel(score: int): (aria: string)
    ensures |aria| > 7 && aria[..7] == "Score: " && aria[7..] == GetBadge(score).text
  {
    "Score: " + GetBadge(score).text
  }

  /**
   * The two components rank a score differently exactly at 70 and from 40 to 49: there the
   * category badge of the results page is one tier above this label.
   */
  lemma TiersDisagree(score: int)
    ensures BadgeRank(GetBadge(score)) != Details.StyleRank(Details.ScoreStyles(score))
      <==> score == 70 || 40 <= score <= 49
    ensures BadgeRank(GetBadge(score)) <= Details.StyleRank(Details.ScoreStyles(score))
      <= BadgeRank(GetBadge(score)) + 1
  {
  }
}
