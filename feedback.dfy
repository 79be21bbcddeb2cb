/** The feedback document the AI returns and the pages display: an overall
    score, an ATS section and four scored categories of tips (the shape is the
    one the prompt asks for in app/constants/index.ts). */
module FeedbackTypes {

  /** A tip's `type`: 'good' or 'improve'. */
  datatype TipType = Good | Improve

  /** A tip of one of the four detailed categories. */
  datatype Tip = Tip(kind: TipType, tip: string, explanation: string)

  /** ATS tips carry no explanation. */
  datatype AtsTip = AtsTip(kind: TipType, tip: string)

  datatype AtsSection = AtsSection(score: int, tips: seq<AtsTip>)

  datatype Category = Category(score: int, tips: seq<Tip>)

  datatype Feedback = Feedback(
    overallScore: int,
    ats: AtsSection,
    toneAndStyle: Category,
    content: Category,
    structure: Category,
    skills: Category)
}
