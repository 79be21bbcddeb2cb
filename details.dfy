/** The detailed feedback panel of app/components/Details.tsx: its own score
    badge, the tips of each category (a summary grid and a list of cards), and
    how clicks and the per-category selection sets reach those cards. */
module Details {
  import opened Wrappers
  import opened FeedbackTypes
  import opened Strings

  const CheckIcon := "/icons/check.svg"
  const WarningIcon := "/icons/warning.svg"

  // ---------------------------------------------------------------------------
  // The score badge next to each category title
  // ---------------------------------------------------------------------------

  /** Background class: green from 80, blue from 60, yellow from 40, red below. */
  function BadgeBackground(score: int): (r: string)
    ensures r == "bg-badge-green" <==> score >= 80
    ensures r == "bg-blue-100" <==> 60 <= score < 80
    ensures r == "bg-badge-yellow" <==> 40 <= score < 60
    ensures r == "bg-badge-red" <==> score < 40
  {
    if score >= 80 then "bg-badge-green"
    else if score >= 60 then "bg-blue-100"
    else if score >= 40 then "bg-badge-yellow"
    else "bg-badge-red"
  }

  /** Icon: the four-way chain collapses to check from 60 up, warning below. */
  function BadgeIcon(score: int): (r: string)
    ensures r == CheckIcon <==> score >= 60
    ensures r == WarningIcon <==> score < 60
  {
    if score >= 80 then CheckIcon
    else if score >= 60 then CheckIcon
    else if score >= 40 then WarningIcon
    else WarningIcon
  }

  /** Text colour: green from 60 up, yellow from 40, red below. */
  function BadgeTextColor(score: int): (r: string)
    ensures r == "text-badge-green-text" <==> score >= 60
    ensures r == "text-badge-yellow-text" <==> 40 <= score < 60
    ensures r == "text-badge-red-text" <==> score < 40
  {
    if score >= 80 then "text-badge-green-text"
    else if score >= 60 then "text-badge-green-text"
    else if score >= 40 then "text-badge-yellow-text"
    else "text-badge-red-text"
  }

  /** The badge text `{score}/100`: the score's decimal text, then "/100". */
  function BadgeLabel(score: int): (r: string)
    ensures |r| >= 5 && r[|r| - 4..] == "/100"
    ensures ParseInt(r[..|r| - 4]) == Some(score)
  {
    IntToStringRoundTrip(score);
    var digits := IntToString(score);
    assert (digits + "/100")[..|digits|] == digits;
    digits + "/100"
  }

  datatype Badge = Badge(background: string, icon: string, textColor: string, caption: string)

  function ScoreBadge(score: int): Badge {
    Badge(BadgeBackground(score), BadgeIcon(score), BadgeTextColor(score), BadgeLabel(score))
  }

  /** The badge's parts agree: the check icon goes with the green text and
      with a green or blue background; a yellow background with yellow text;
      a red background with red text. */
  lemma BadgePartsAgree(score: int)
    ensures var b := ScoreBadge(score);
      && (b.icon == CheckIcon <==> b.textColor == "text-badge-green-text")
      && (b.icon == CheckIcon <==> b.background in {"bg-badge-green", "bg-blue-100"})
      && (b.background == "bg-badge-yellow" <==> b.textColor == "text-badge-yellow-text")
      && (b.background == "bg-badge-red" <==> b.textColor == "text-badge-red-text")
  {
  }

  // ---------------------------------------------------------------------------
  // CategoryContent: the tips of one category
  // ---------------------------------------------------------------------------

  function TipIcon(kind: TipType): (r: string)
    ensures r == CheckIcon <==> kind == Good
    ensures r == WarningIcon <==> kind == Improve
  {
    match kind
    case Good => CheckIcon
    case Improve => WarningIcon
  }

  const GoodCard := "bg-green-50 border border-green-200 text-green-700"
  const ImproveCard := "bg-yellow-50 border border-yellow-200 text-yellow-700"

  function TipCardStyle(kind: TipType): (r: string)
    ensures r == GoodCard <==> kind == Good
    ensures r == ImproveCard <==> kind == Improve
  {
    assert |GoodCard| != |ImproveCard|;
    match kind
    case Good => GoodCard
    case Improve => ImproveCard
  }

  /** One entry of the two-column summary grid. */
  datatype GridItem = GridItem(icon: string, text: string)

  /** The call a click produces: `onTipClick(category, index)`. */
  datatype TipClick = TipClick(category: string, index: int)

  /** One tip card. `clickable` stands for the cursor/hover classes, `ring`
      for the selection ring, `pin` for the pin icon; `onClick` is the call a
      click on the card makes, if any. */
  datatype TipCard = TipCard(
    style: string, icon: string, title: string, explanation: string,
    clickable: bool, ring: bool, pin: bool, onClick: Option<TipClick>)

  datatype CategoryView = CategoryView(grid: seq<GridItem>, cards: seq<TipCard>)

  /** `selectedTips?.has(index)`: false when there is no set. */
  predicate IsSelected(selected: Option<set<int>>, index: int) {
    selected.Some? && index in selected.value
  }

  /** The card for the tip at `index`. `handlerKey` is the category key bound
      into the category's click handler, present only when `Details` was given
      `onTipClick`. */
  function Card(t: Tip, index: int, handlerKey: Option<string>, selected: Option<set<int>>): TipCard {
    TipCard(
      TipCardStyle(t.kind), TipIcon(t.kind), t.tip, t.explanation,
      handlerKey.Some?,
      IsSelected(selected, index),
      handlerKey.Some? && IsSelected(selected, index),
      if handlerKey.Some? then Some(TipClick(handlerKey.value, index)) else None)
  }

  /** The summary grid: `tips.map(...)`, one icon and title per tip, in order. */
  function GridItems(tips: seq<Tip>): (r: seq<GridItem>)
    ensures |r| == |tips|
    ensures forall i :: 0 <= i < |tips| ==> r[i] == GridItem(TipIcon(tips[i].kind), tips[i].tip)
  {
    if tips == [] then []
    else
      var n := |tips| - 1;
      GridItems(tips[..n]) + [GridItem(TipIcon(tips[n].kind), tips[n].tip)]
  }

  /** The card list: `tips.map((tip, index) => ...)`, the card at position i
      built from the tip at position i and the index i itself. */
  function TipCards(tips: seq<Tip>, handlerKey: Option<string>, selected: Option<set<int>>): (r: seq<TipCard>)
    ensures |r| == |tips|
    ensures forall i :: 0 <= i < |tips| ==> r[i] == Card(tips[i], i, handlerKey, selected)
  {
    if tips == [] then []
    else
      var n := |tips| - 1;
      TipCards(tips[..n], handlerKey, selected) + [Card(tips[n], n, handlerKey, selected)]
  }

  function CategoryContent(tips: seq<Tip>, handlerKey: Option<string>, selected: Option<set<int>>): CategoryView {
    CategoryView(GridItems(tips), TipCards(tips, handlerKey, selected))
  }

  /** Every tip is rendered twice, in the grid and as a card, both times in
      tips order; its icon and card colour depend on its type alone; a card
      carries the ring iff its index is in the set, and the pin iff, in
      addition, there is a click handler; a click on card i reports index i. */
  lemma CategoryContentRendersTips(tips: seq<Tip>, handlerKey: Option<string>, selected: Option<set<int>>, i: int)
    requires 0 <= i < |tips|
    ensures var v := CategoryContent(tips, handlerKey, selected);
      && |v.grid| == |tips| && |v.cards| == |tips|
      && v.grid[i].text == tips[i].tip && v.cards[i].title == tips[i].tip
      && v.cards[i].explanation == tips[i].explanation
      && v.grid[i].icon == v.cards[i].icon
      && (v.cards[i].icon == CheckIcon <==> tips[i].kind == Good)
      && (v.cards[i].style == GoodCard <==> tips[i].kind == Good)
      && (v.cards[i].style == ImproveCard <==> tips[i].kind == Improve)
      && (v.cards[i].ring <==> selected.Some? && i in selected.value)
      && (v.cards[i].pin <==> handlerKey.Some? && selected.Some? && i in selected.value)
      && (v.cards[i].onClick.Some? <==> handlerKey.Some?)
      && (v.cards[i].onClick.Some? ==> v.cards[i].onClick.value == TipClick(handlerKey.value, i))
  {
  }

  // ---------------------------------------------------------------------------
  // Details: the four categories in a fixed order
  // ---------------------------------------------------------------------------

  /** The key each category is clicked and looked up under, in render order. */
  const CategoryKeys: seq<string> := ["toneAndStyle", "content", "structure", "skills"]
  const CategoryTitles: seq<string> := ["Tone & Style", "Content", "Structure", "Skills"]

  /** The category rendered at position `j` (0 to 3); ATS is not among them. */
  function CategoryAt(f: Feedback, j: nat): Category
    requires j < 4
  {
    [f.toneAndStyle, f.content, f.structure, f.skills][j]
  }

  datatype Section = Section(itemId: string, title: string, badge: Badge, content: CategoryView)

  /** `selectedTips?.get(key)` */
  function Lookup(selectedTips: Option<map<string, set<int>>>, key: string): Option<set<int>> {
    if selectedTips.Some? && key in selectedTips.value then Some(selectedTips.value[key]) else None
  }

  /** `onTipClick ? (index) => onTipClick(key, index) : undefined` */
  function BindKey(hasOnTipClick: bool, key: string): Option<string> {
    if hasOnTipClick then Some(key) else None
  }

  const ItemIds: seq<string> := ["tone-style", "content", "structure", "skills"]

  /** One accordion item: the four in the source differ only in their item
      id, title, category and key. */
  function SectionFor(f: Feedback, hasOnTipClick: bool, selectedTips: Option<map<string, set<int>>>, j: nat): Section
    requires j < 4
  {
    var cat := CategoryAt(f, j);
    Section(ItemIds[j], CategoryTitles[j], ScoreBadge(cat.score),
      CategoryContent(cat.tips, BindKey(hasOnTipClick, CategoryKeys[j]), Lookup(selectedTips, CategoryKeys[j])))
  }

  function Details(f: Feedback, hasOnTipClick: bool, selectedTips: Option<map<string, set<int>>>): seq<Section> {
    seq(4, j requires 0 <= j < 4 => SectionFor(f, hasOnTipClick, selectedTips, j))
  }

  /** Routing: the section at position j shows category j under its title and
      with its score's badge; a click on its tip i calls
      `onTipClick(key_j, i)`, and the same key_j selects the set that decides
      that card's ring and pin. */
  lemma DetailsRouting(f: Feedback, hasOnTipClick: bool, selectedTips: Option<map<string, set<int>>>, j: nat, i: int)
    requires j < 4 && 0 <= i < |CategoryAt(f, j).tips|
    ensures |Details(f, hasOnTipClick, selectedTips)| == 4
    ensures var sec := Details(f, hasOnTipClick, selectedTips)[j];
      var key := CategoryKeys[j];
      && sec.title == CategoryTitles[j]
      && sec.badge == ScoreBadge(CategoryAt(f, j).score)
      && |sec.content.cards| == |CategoryAt(f, j).tips|
      && sec.content.cards[i].title == CategoryAt(f, j).tips[i].tip
      && sec.content.cards[i].onClick == (if hasOnTipClick then Some(TipClick(key, i)) else None)
      && (sec.content.cards[i].ring <==>
            selectedTips.Some? && key in selectedTips.value && i in selectedTips.value[key])
      && (sec.content.cards[i].pin <==> hasOnTipClick && sec.content.cards[i].ring)
  {
    var cat := CategoryAt(f, j);
    var key := CategoryKeys[j];
    var handlerKey, selected := BindKey(hasOnTipClick, key), Lookup(selectedTips, key);
    var sec := Details(f, hasOnTipClick, selectedTips)[j];
    assert sec == SectionFor(f, hasOnTipClick, selectedTips, j);
    assert sec.content.cards == TipCards(cat.tips, handlerKey, selected);
    assert sec.content.cards[i] == Card(cat.tips[i], i, handlerKey, selected);
  }
}
