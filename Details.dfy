/**
 * The feedback breakdown of app/components/Details.tsx: the three score tiers of
 * `getScoreStyles`, the badge built from them, the tip items, and the fixed order of the four
 * categories. A view is modelled as the values it shows and the classes that select its look;
 * the fixed layout classes and the accordion are not modelled.
 */
module Details {
  import opened Remote
  import opened Resume
  import opened Text

  datatype Icon = CircleCheck | TriangleAlert

  /** The object `getScoreStyles` returns: two badge classes in one string, the icon colour, the icon. */
  datatype ScoreStyle = ScoreStyle(badge: string, color: string, icon: Icon)

  // each badge string is a background class and a text class, joined by one space
  const GreenBackground := "bg-badge-green"
  const GreenText := "text-badge-green-text"
  const YellowBackground := "bg-badge-yellow"
  const YellowText := "text-badge-yellow-text"
  const RedBackground := "bg-badge-red"
  const RedText := "text-badge-red-text"

  const GreenStyle := ScoreStyle(GreenBackground + " " + GreenText, "text-green-700", CircleCheck)
  const YellowStyle := ScoreStyle(YellowBackground + " " + YellowText, "text-yellow-700", TriangleAlert)
  const RedStyle := ScoreStyle(RedBackground + " " + RedText, "text-red-700", TriangleAlert)

  /** `getScoreStyles`: above 69 green, above 39 yellow, otherwise red. */
  function ScoreStyles(score: int): (style: ScoreStyle)
    ensures style == GreenStyle <==> score >= 70
    ensures style == YellowStyle <==> 40 <= score <= 69
    ensures style == RedStyle <==> score <= 39
    // only the top tier gets the check mark
    ensures style.icon == CircleCheck <==> score >= 70
  {
    if score > 69 then GreenStyle
    else if score > 39 then YellowStyle
    else RedStyle
  }

  /** The tiers ranked from red (0) to green (2). */
  function StyleRank(style: ScoreStyle): nat {
    if style == GreenStyle then 2 else if style == YellowStyle then 1 else 0
  }

  /** A higher score never gets a lower tier. */
  lemma ScoreStylesMonotone(a: int, b: int)
    requires a <= b
    ensures StyleRank(ScoreStyles(a)) <= StyleRank(ScoreStyles(b))
  {
  }

  /** The two classes of a tier's badge string: the words around its one space. */
  function BadgeClasses(style: ScoreStyle): (classes: seq<string>)
    requires style == GreenStyle || style == YellowStyle || style == RedStyle
    ensures |classes| == 2 && classes[0] + " " + classes[1] == style.badge
    ensures ' ' !in classes[0] && ' ' !in classes[1]
    // the background class goes first, the text colour class second
    ensures |classes[0]| > 3 && classes[0][..3] == "bg-" && |classes[1]| > 5 && classes[1][..5] == "text-"
  {
    if style == GreenStyle then
      assert ' ' !in GreenBackground && ' ' !in GreenText;
      [GreenBackground, GreenText]
    else if style == YellowStyle then
      assert ' ' !in YellowBackground && ' ' !in YellowText;
      [YellowBackground, YellowText]
    else
      assert ' ' !in RedBackground && ' ' !in RedText;
      [RedBackground, RedText]
  }

  /** What the category badge shows. */
  datatype BadgeView = BadgeView(containerClass: string, icon: Icon, iconColor: string, textClass: string, text: string)

  /** The `ScoreBadge` of this file: first class on the container, second on the text, `score/100`. */
  function ScoreBadgeView(score: int): (v: BadgeView)
    ensures var style := ScoreStyles(score);
      && v.containerClass + " " + v.textClass == style.badge
      && ' ' !in v.containerClass && ' ' !in v.textClass
      && v.icon == style.icon && v.iconColor == style.color
    ensures v.text == Decimal(score) + "/100"
  {
    var style := ScoreStyles(score);
    var classes := BadgeClasses(style);
    BadgeView(classes[0], style.icon, style.color, classes[1], Decimal(score) + "/100")
  }

  /** The two classes are exactly what `badge.split(" ")` yields, in that order. */
  lemma BadgeViewSplitsBadge(score: int)
    ensures var v := ScoreBadgeView(score);
      Split(ScoreStyles(score).badge, ' ') == [v.containerClass, v.textClass]
  {
    var v := ScoreBadgeView(score);
    SplitTwoWords(v.containerClass, v.textClass, ' ');
  }

  /** The badge text reads back as the score it shows. */
  lemma {:induction false} BadgeTextShowsScore(score: nat)
    ensures var text := ScoreBadgeView(score).text;
      |text| > 4 && text[|text| - 4..] == "/100" && ValueOf(text[..|text| - 4]) == score
  {
    var text := ScoreBadgeView(score).text;
    assert text[..|text| - 4] == Digits(score);
    DigitsRoundTrip(score);
  }

  /** What one `TipItem` shows. `boxClass` is the tinted frame of the detailed form. */
  datatype TipView = TipView(
    icon: Icon,
    iconColor: string,
    tip: string,
    bold: bool,
    boxClass: Option<string>,
    explanation: Option<string>)

  /** `TipItem`: the icon and colour follow the kind; the explanation needs `detailed` and a non-empty text. */
  function TipItem(kind: TipKind, tip: string, explanation: Option<string>, detailed: bool): (v: TipView)
    ensures v.icon == CircleCheck <==> kind == Good
    ensures v.iconColor == if kind == Good then "text-green-600" else "text-amber-600"
    ensures v.tip == tip && v.bold == detailed && v.boxClass.Some? == detailed
    ensures v.explanation.Some? <==> detailed && explanation.Some? && explanation.value != ""
    ensures v.explanation.Some? ==> v.explanation == explanation
  {
    var good := kind == Good;
    TipView(
      if good then CircleCheck else TriangleAlert,
      if good then "text-green-600" else "text-amber-600",
      tip,
      detailed,
      if !detailed then None
      else if good then Some("bg-green-50 border border-green-200 text-green-700")
      else Some("bg-yellow-50 border border-yellow-200 text-yellow-700"),
      if detailed && explanation.Some? && explanation.value != "" then explanation else None)
  }

  /** The summary grid and the detailed list of one category. */
  datatype CategoryView = CategoryView(summary: seq<TipView>, detailed: seq<TipView>)

  /**
   * How one tip appears in the two lists: same text, icon and colour, chosen by the tip's kind;
   * the explanation, the tip's own, only in the detailed form, which alone is bold and boxed.
   */
  predicate ShowsTip(t: Tip, summary: TipView, detailed: TipView) {
    && summary.tip == t.tip && detailed.tip == t.tip
    && summary.icon == detailed.icon && (summary.icon == CircleCheck <==> t.kind == Good)
    && summary.iconColor == detailed.iconColor
    && summary.iconColor == (if t.kind == Good then "text-green-600" else "text-amber-600")
    && summary.explanation.None? && !summary.bold && summary.boxClass.None?
    && (detailed.explanation.Some? <==> t.explanation != "") && detailed.bold && detailed.boxClass.Some?
    && (detailed.explanation.Some? ==> detailed.explanation.value == t.explanation)
  }

  /** `CategoryContent`: every tip once in the grid, without its explanation, and once in the list. */
  function CategoryContent(tips: seq<Tip>): (v: CategoryView)
    ensures |v.summary| == |tips| && |v.detailed| == |tips|
    // both lists follow the order of `tips`
    ensures forall i :: 0 <= i < |tips| ==> ShowsTip(tips[i], v.summary[i], v.detailed[i])
  {
    CategoryView(
      seq(|tips|, i requires 0 <= i < |tips| => TipItem(tips[i].kind, tips[i].tip, None, false)),
      seq(|tips|, i requires 0 <= i < |tips| => TipItem(tips[i].kind, tips[i].tip, Some(tips[i].explanation), true)))
  }

  /** One accordion item: a title, its badge and its tips. */
  datatype Section = Section(title: string, badge: BadgeView, content: CategoryView)

  function CategorySection(title: string, category: Category): Section {
    Section(title, ScoreBadgeView(category.score), CategoryContent(category.tips))
  }

  /** `Details`: four categories, always in the same order; the ATS category and the overall score are not shown. */
  function DetailsView(feedback: Feedback): (sections: seq<Section>)
    ensures |sections| == 4
    ensures sections[0].title == "Tone & Style" && sections[1].title == "Content"
    ensures sections[2].title == "Structure" && sections[3].title == "Skills"
    ensures sections[0] == CategorySection("Tone & Style", feedback.toneAndStyle)
    ensures sections[1] == CategorySection("Content", feedback.content)
    ensures sections[2] == CategorySection("Structure", feedback.structure)
    ensures sections[3] == CategorySection("Skills", feedback.skills)
  {
    [ CategorySection("Tone & Style", feedback.toneAndStyle),
      CategorySection("Content", feedback.content),
      CategorySection("Structure", feedback.structure),
      CategorySection("Skills", feedback.skills) ]
  }
}
