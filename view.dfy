/** What the dashboard computes from one reply of the scoring API before it
    draws anything (dashboard.py, lines 79-119). */
module View {
  import opened Wrappers
  import opened Formatting
  import opened Risk
  import opened Attribution

  /** The JSON body of a successful reply of `POST /predict`. */
  datatype Payload = Payload(
    probability: real,
    shapValues: seq<ShapEntry>,
    featureNames: seq<string>,
    featureValues: seq<FeatureValue>)

  /** Everything the page shows for one client: the colour of the decision box,
      the decision message, the attribution table and its two top-10 panels. */
  datatype Display = Display(
    color: Option<Color>,
    message: string,
    rows: seq<Row>,
    decrease: seq<Row>,
    increase: seq<Row>)

  /** `None` when flattening the SHAP values raises (an empty list among them). */
  function Render(p: Payload): (d: Option<Display>)
    ensures d.Some? <==> forall i :: 0 <= i < |p.shapValues| ==> Usable(p.shapValues[i])
    ensures d.Some? ==>
              |d.value.rows| == Min(|p.featureNames|, Min(|p.shapValues|, |p.featureValues|))
    ensures d.Some? ==> forall i :: 0 <= i < |d.value.rows| ==>
              d.value.rows[i] == Row(p.featureNames[i], Leading(p.shapValues[i]), FormatValue(p.featureValues[i]))
    ensures d.Some? ==> IsTop(Decrease, d.value.rows, d.value.decrease, PanelSize)
    ensures d.Some? ==> IsTop(Increase, d.value.rows, d.value.increase, PanelSize)
    ensures d.Some? ==> d.value.color == ComputeColor(p.probability)
    ensures d.Some? ==> d.value.message == DecisionMessage(p.probability)
    ensures d.Some? && 0.0 <= p.probability <= 100.0 ==>
              (d.value.message == LowRisk <==> d.value.color == Some(Green)) &&
              (d.value.message == PotentialRisk <==> d.value.color == Some(Red))
  {
    match Flatten(p.shapValues)
    case None => None
    case Some(shaps) =>
      var rows := AssembleRows(p.featureNames, shaps, p.featureValues);
      Some(Display(
        ComputeColor(p.probability),
        DecisionMessage(p.probability),
        rows,
        Top(Decrease, rows, PanelSize),
        Top(Increase, rows, PanelSize)))
  }
}
