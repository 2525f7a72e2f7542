/**
 * How the trace dialog (src/components/TraceModal.tsx) classifies a
 * credibility report: a badge variant by level and a ring colour by score.
 */
module TraceModal {
  import opened Wrappers
  import Trace

  datatype Variant = Success | Warning | Error
  datatype RingColor = Green | Yellow | Red   // #22c55e | #eab308 | #ef4444

  /** `getCredibilityVariant`. */
  function CredibilityVariant(level: string): (v: Variant)
    ensures v == Success <==> level in {"高", "High"}
    ensures v == Warning <==> level in {"中", "Medium"}
  {
    if level in {"高", "High"} then Success
    else if level in {"中", "Medium"} then Warning
    else Error
  }

  /** `ScoreRing`'s colour. */
  function ScoreColor(score: real): (c: RingColor)
    ensures c == Green <==> score >= 7.0
    ensures c == Yellow <==> 4.0 <= score < 7.0
    ensures c == Red <==> score < 4.0
  {
    if score >= 7.0 then Green else if score >= 4.0 then Yellow else Red
  }

  /** `ScoreRing`'s percentage. */
  function Percentage(score: real): (p: real)
    ensures 0.0 <= score <= 10.0 ==> 0.0 <= p <= 100.0
  {
    score * 10.0
  }

  /** A higher score never gets a worse colour. */
  lemma ScoreColorMonotone(a: real, b: real)
    requires a <= b
    ensures ScoreColor(a) == Green ==> ScoreColor(b) == Green
    ensures ScoreColor(b) == Red ==> ScoreColor(a) == Red
  {
  }

  /** The route's default report shows half a ring in yellow, with the error badge. */
  lemma DefaultReportRendering(source: Option<string>, message: Option<string>)
    ensures var d := Trace.DefaultResponse(source, message);
      && ScoreColor(d.credibility.score) == Yellow
      && Percentage(d.credibility.score) == 50.0
      && CredibilityVariant(d.credibility.level) == Error
  {
  }
}
