/**
 * The groundwater map: the side panel that a click on a state opens and the
 * close button shuts, with a status badge coloured per state (the map's shapes
 * themselves are all drawn white).
 */
module MapView {
  import opened Wrappers

  /** The figures the panel lists for a state with data. */
  datatype Metrics = Metrics(
    waterLevel: string, recharge: string, extraction: string, rainfall: string,
    trend: string, quality: string, salinity: string)

  datatype StateData = StateData(status: string, metrics: Metrics)

  /** `groundwaterData`: the states the map has figures for. */
  const GroundwaterData: map<string, StateData> := map[
    "Maharashtra" := StateData("Critical",
      Metrics("12.5m", "60mm", "120%", "900mm", "declining", "poor", "1500 mg/L")),
    "Gujarat" := StateData("Safe",
      Metrics("20m", "80mm", "60%", "1100mm", "stable", "good", "900 mg/L")),
    "Rajasthan" := StateData("Over-exploited",
      Metrics("15.2m", "50mm", "140%", "400mm", "rapid decline", "poor", "1800 mg/L")),
    "Karnataka" := StateData("Semi-critical",
      Metrics("18.3m", "75mm", "90%", "950mm", "slightly declining", "moderate", "1200 mg/L"))
  ]

  const Gray: string := "#95a5a6"

  /** The four statuses the legend knows, spelt exactly so. */
  predicate Recognised(status: string) {
    status == "Over-exploited" || status == "Critical" || status == "Semi-critical" || status == "Safe"
  }

  /** `getColor`: the panel badge's colour per recognised status, gray for anything else. */
  function GetColor(status: string): (r: string)
    ensures r == Gray <==> !Recognised(status)
  {
    if status == "Over-exploited" then "#8e44ad"
    else if status == "Critical" then "#e74c3c"
    else if status == "Semi-critical" then "#f39c12"
    else if status == "Safe" then "#27ae60"
    else Gray
  }

  /** Different recognised statuses get different colours. */
  lemma ColorsDistinct(a: string, b: string)
    requires Recognised(a) && Recognised(b) && a != b
    ensures GetColor(a) != GetColor(b)
  {
  }

  /** Matching is case-sensitive: a differently cased status is not recognised. */
  lemma ColorCaseSensitive()
    ensures GetColor("critical") == Gray && GetColor("Semi-Critical") == Gray
  {
  }

  /** Every state with data has a recognised status, so none of them gets the gray badge. */
  lemma DataStatusesRecognised()
    ensures forall name :: name in GroundwaterData ==> Recognised(GroundwaterData[name].status)
  {
  }

  /** What the side panel shows: the state's name, a status, and figures when there are any. */
  datatype Selection = Selection(name: string, status: string, metrics: Option<Metrics>)

  /** The click handler's choice: the state's data when there is any, else status "Unknown". */
  function Clicked(name: string): (r: Selection)
    ensures r.name == name
    ensures name in GroundwaterData ==>
      r.status == GroundwaterData[name].status && r.metrics == Some(GroundwaterData[name].metrics)
    ensures name !in GroundwaterData ==> r.status == "Unknown" && r.metrics == None
  {
    if name in GroundwaterData then
      Selection(name, GroundwaterData[name].status, Some(GroundwaterData[name].metrics))
    else Selection(name, "Unknown", None)
  }

  /** The metric grid appears when the selection has a (non-empty) water level. */
  predicate ShowsMetrics(s: Selection) {
    s.metrics.Some? && s.metrics.value.waterLevel != ""
  }

  /** A state with data shows its colour and its figures; any other shows gray and no figures. */
  lemma ClickedDisplay(name: string)
    ensures name in GroundwaterData ==> GetColor(Clicked(name).status) != Gray && ShowsMetrics(Clicked(name))
    ensures name !in GroundwaterData ==> GetColor(Clicked(name).status) == Gray && !ShowsMetrics(Clicked(name))
  {
    DataStatusesRecognised();
  }

  /** The map's panel state. */
  class MapPanel {
    var selected: Option<Selection>

    constructor()
      ensures selected == None
    {
      selected := None;
    }

    /** A click on a state's shape. */
    method ClickState(name: string)
      modifies this
      ensures selected == Some(Clicked(name))
    {
      selected := Some(Clicked(name));
    }

    /** The close button. */
    method Close()
      modifies this
      ensures selected == None
    {
      selected := None;
    }
  }
}
