/** Risk classification of the default probability (dashboard.py: the fixed
    threshold, `compute_color` and the decision message). */
module Risk {
  import opened Wrappers

  /** Decision threshold, in percent. */
  const Threshold: real := 44.5262

  datatype Color = Green | Red

  const LowRisk: string := "Risque faible"
  const PotentialRisk: string := "Risque potentiel"

  /** Green below the threshold, red from the threshold up to 100, and no
      colour at all outside [0, 100] (the function falls off its end). */
  function ComputeColor(p: real): (c: Option<Color>)
    ensures c == Some(Green) <==> 0.0 <= p < Threshold
    ensures c == Some(Red) <==> Threshold <= p <= 100.0
    ensures c == None <==> p < 0.0 || 100.0 < p
  {
    if 0.0 <= p < Threshold then Some(Green)
    else if Threshold <= p <= 100.0 then Some(Red)
    else None
  }

  /** The message shown under the gauge. It splits at the same threshold but
      has no range check. */
  function DecisionMessage(p: real): (m: string)
    ensures m == LowRisk <==> p < Threshold
    ensures m == PotentialRisk <==> Threshold <= p
  {
    if p < Threshold then LowRisk else PotentialRisk
  }

  /** On [0, 100] the message and the colour always agree. */
  lemma MessageAgreesWithColor(p: real)
    requires 0.0 <= p <= 100.0
    ensures DecisionMessage(p) == LowRisk <==> ComputeColor(p) == Some(Green)
    ensures DecisionMessage(p) == PotentialRisk <==> ComputeColor(p) == Some(Red)
  {
  }

  /** The bands are monotone: once red, every larger probability up to 100 is red. */
  lemma ColorMonotone(p: real, q: real)
    requires 0.0 <= p <= q <= 100.0
    ensures ComputeColor(p) == Some(Red) ==> ComputeColor(q) == Some(Red)
    ensures ComputeColor(q) == Some(Green) ==> ComputeColor(p) == Some(Green)
  {
  }

  /** The threshold itself is red; the value just below it is green; 30 is
      green and 70 is red. */
  lemma ColorExamples()
    ensures ComputeColor(Threshold) == Some(Red)
    ensures ComputeColor(44.5261) == Some(Green)
    ensures ComputeColor(30.0) == Some(Green)
    ensures ComputeColor(70.0) == Some(Red)
    ensures DecisionMessage(Threshold) == PotentialRisk
  {
  }
}
