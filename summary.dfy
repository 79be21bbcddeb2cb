/** The score summary card of app/components/Summary.tsx: the overall gauge
    and one row per category, each with a coloured score and a tier badge. */
module Summary {
  import opened Wrappers
  import opened FeedbackTypes
  import opened Strings
  import ScoreBadge

  /** Colour of a row's score: green from 80, blue from 60, yellow from 40, red below. */
  function ScoreTextColor(score: int): (r: string)
    ensures r == "text-green-600" <==> score >= 80
    ensures r == "text-blue-600" <==> 60 <= score < 80
    ensures r == "text-yellow-600" <==> 40 <= score < 60
    ensures r == "text-red-600" <==> score < 40
  {
    if score >= 80 then "text-green-600"
    else if score >= 60 then "text-blue-600"
    else if score >= 40 then "text-yellow-600"
    else "text-red-600"
  }

  /** One `Category` row: title and badge, then the score in its colour
      followed by the plain text "/100". */
  datatype Row = Row(title: string, badge: ScoreBadge.BadgeView, scoreText: string, scoreColor: string, suffix: string)

  function CategoryRow(title: string, score: int): Row {
    Row(title, ScoreBadge.Render(score), IntToString(score), ScoreTextColor(score), "/100")
  }

  datatype SummaryView = SummaryView(gaugeScore: int, heading: string, rows: seq<Row>)

  function Summary(f: Feedback): SummaryView {
    SummaryView(f.overallScore, "Your Resume score",
      [ CategoryRow("Tone and Style", f.toneAndStyle.score),
        CategoryRow("Skills", f.skills.score),
        CategoryRow("Structure", f.structure.score),
        CategoryRow("Content", f.content.score) ])
  }

  /** The gauge gets the overall score; the rows come in the fixed order Tone
      and Style, Skills, Structure, Content (no ATS row); each shows its
      category's score (its text reads back as that score) out of 100, in
      the colour of its tier, and its badge is the badge of that same score. */
  lemma SummaryLayout(f: Feedback, j: nat)
    requires j < 4
    ensures var v := Summary(f);
      var score := [f.toneAndStyle.score, f.skills.score, f.structure.score, f.content.score][j];
      && v.gaugeScore == f.overallScore
      && |v.rows| == 4
      && v.rows[j].title == ["Tone and Style", "Skills", "Structure", "Content"][j]
      && ParseInt(v.rows[j].scoreText) == Some(score)
      && v.rows[j].suffix == "/100"
      && v.rows[j].badge == ScoreBadge.Render(score)
      && v.rows[j].badge.labelText == ScoreBadge.GetBadgeInfo(score).text
      && v.rows[j].scoreColor == ScoreTextColor(score)
      && (v.rows[j].scoreColor == "text-green-600" <==> score >= 80)
      && (v.rows[j].scoreColor == "text-red-600" <==> score < 40)
  {
    var score := [f.toneAndStyle.score, f.skills.score, f.structure.score, f.content.score][j];
    IntToStringRoundTrip(score);
  }

  /** The row colour and the badge word never disagree: both follow the same
      80/60/40 thresholds. */
  lemma RowColourMatchesBadge(score: int)
    ensures var r := CategoryRow("", score);
      && (r.scoreColor == "text-green-600" <==> r.badge.labelText == "Strong")
      && (r.scoreColor == "text-blue-600" <==> r.badge.labelText == "Good")
      && (r.scoreColor == "text-yellow-600" <==> r.badge.labelText == "Needs Work")
      && (r.scoreColor == "text-red-600" <==> r.badge.labelText == "Start")
  {
  }
}
