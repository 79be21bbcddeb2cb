/** The four-tier score badge of app/components/ScoreBadge.tsx (`getBadgeInfo`
    and the badge it renders). */
module ScoreBadge {

  datatype BadgeInfo = BadgeInfo(text: string, bgColor: string, textColor: string, borderColor: string, icon: string)

  /** The four tiers, from best to worst. */
  datatype Tier = Strong | Good | NeedsWork | Start

  /** Position of a tier from the bottom: Start is 0, Strong is 3. */
  function Rank(t: Tier): nat {
    match t
    case Start => 0
    case NeedsWork => 1
    case Good => 2
    case Strong => 3
  }

  /** The classification every score falls into: at least 80, 60 to 79,
      40 to 59, below 40. */
  function TierOf(score: int): (t: Tier)
    ensures t == Strong <==> score >= 80
    ensures t == Good <==> 60 <= score < 80
    ensures t == NeedsWork <==> 40 <= score < 60
    ensures t == Start <==> score < 40
  {
    if score >= 80 then Strong
    else if score >= 60 then Good
    else if score >= 40 then NeedsWork
    else Start
  }

  /** The Tailwind colour family a tier is drawn in. */
  function Family(t: Tier): string {
    match t
    case Strong => "green"
    case Good => "blue"
    case NeedsWork => "yellow"
    case Start => "red"
  }

  /** `getBadgeInfo(score)`: the if/else chain returning one record per tier. */
  function GetBadgeInfo(score: int): (r: BadgeInfo)
    ensures r.text == "Strong" <==> score >= 80
    ensures r.text == "Good" <==> 60 <= score < 80
    ensures r.text == "Needs Work" <==> 40 <= score < 60
    ensures r.text == "Start" <==> score < 40
  {
    if score >= 80 then
      BadgeInfo("Strong", "bg-green-100", "text-green-800", "border-green-200", "✓")
    else if score >= 60 then
      BadgeInfo("Good", "bg-blue-100", "text-blue-800", "border-blue-200", "👍")
    else if score >= 40 then
      BadgeInfo("Needs Work", "bg-yellow-100", "text-yellow-800", "border-yellow-200", "⚠")
    else
      BadgeInfo("Start", "bg-red-100", "text-red-800", "border-red-200", "🚀")
  }

  /** The three colour classes of a badge are always drawn from its tier's
      family: shade 100 for the background, 800 for text, 200 for the border. */
  lemma BadgeColoursShareTier(score: int)
    ensures GetBadgeInfo(score).bgColor == "bg-" + Family(TierOf(score)) + "-100"
    ensures GetBadgeInfo(score).textColor == "text-" + Family(TierOf(score)) + "-800"
    ensures GetBadgeInfo(score).borderColor == "border-" + Family(TierOf(score)) + "-200"
  {
  }

  /** Raising a score never moves it to a lower tier. */
  lemma TierMonotone(a: int, b: int)
    requires a <= b
    ensures Rank(TierOf(a)) <= Rank(TierOf(b))
  {
  }

  /** The badge depends on the score only through its tier, and different
      tiers get different badges. */
  lemma BadgeDeterminedByTier(a: int, b: int)
    ensures GetBadgeInfo(a) == GetBadgeInfo(b) <==> TierOf(a) == TierOf(b)
  {
  }

  /** The rendered badge: one class list, then an icon span and a text span. */
  datatype BadgeView = BadgeView(className: string, iconText: string, labelText: string)

  const BadgeBaseClass := "inline-flex items-center gap-1.5 px-3 py-1.5 rounded-full text-sm font-medium border"

  /** `<ScoreBadge score={score} />`. */
  function Render(score: int): (v: BadgeView)
  {
    var info := GetBadgeInfo(score);
    BadgeView(BadgeBaseClass + " " + info.bgColor + " " + info.textColor + " " + info.borderColor, info.icon, info.text)
  }

  /** The rendered badge shows exactly its tier's icon and word. */
  lemma RenderShowsTier(score: int)
    ensures Render(score).labelText == ["Strong", "Good", "Needs Work", "Start"][3 - Rank(TierOf(score))]
    ensures Render(score).iconText == ["✓", "👍", "⚠", "🚀"][3 - Rank(TierOf(score))]
  {
  }
}
