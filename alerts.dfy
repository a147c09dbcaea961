/**
 * The alerts feed: each alert's status picks a badge colour, an icon and a
 * border colour, alerts slide in one after another, and an empty feed says so.
 */
module Alerts {
  import opened Text

  datatype AlertItem = AlertItem(id: int, region: string, status: string, kind: string, time: string)

  /** The alerts the feed loads. */
  const SampleAlerts: seq<AlertItem> := [
    AlertItem(1, "Pune", "Safe", "Normal", "2 mins ago"),
    AlertItem(2, "Nagpur", "Semi-Critical", "Warning", "15 mins ago"),
    AlertItem(3, "Aurangabad", "Critical", "Alert", "30 mins ago"),
    AlertItem(4, "Nashik", "Safe", "Normal", "45 mins ago"),
    AlertItem(5, "Mumbai", "Critical", "Alert", "1 hour ago")
  ]

  /** The three statuses the feed distinguishes. */
  predicate Known(status: string) {
    status == "Safe" || status == "Semi-Critical" || status == "Critical"
  }

  /** `getStatusColor`: the badge classes. */
  function StatusColor(status: string): (r: string)
    ensures r == "bg-gray-100 text-gray-800" <==> !Known(status)
  {
    if status == "Safe" then "bg-green-100 text-green-800"
    else if status == "Semi-Critical" then "bg-yellow-100 text-yellow-800"
    else if status == "Critical" then "bg-red-100 text-red-800"
    else "bg-gray-100 text-gray-800"
  }

  /** `getStatusIcon`: a mark per known status, a bell for anything else. */
  function StatusIcon(status: string): (r: string)
    ensures r == "🔔" <==> !Known(status)
  {
    if status == "Safe" then "✅"
    else if status == "Semi-Critical" then "⚠️"
    else if status == "Critical" then "🚨"
    else "🔔"
  }

  /** The left border: red for critical, amber for semi-critical, green otherwise. */
  function BorderColor(status: string): (r: string)
    ensures r == "#f87171" <==> status == "Critical"
    ensures r == "#fbbf24" <==> status == "Semi-Critical"
  {
    if status == "Critical" then "#f87171"
    else if status == "Semi-Critical" then "#fbbf24"
    else "#34d399"
  }

  /** The three known statuses get three different badges, icons and borders. */
  lemma KnownStatusesDistinct(a: string, b: string)
    requires Known(a) && Known(b) && a != b
    ensures StatusColor(a) != StatusColor(b)
    ensures StatusIcon(a) != StatusIcon(b)
    ensures BorderColor(a) != BorderColor(b)
  {
  }

  /** An unknown status gets the gray badge and the bell, but the same green border as "Safe". */
  lemma UnknownStatusLooksSafeAtTheBorder(status: string)
    requires !Known(status)
    ensures StatusColor(status) == "bg-gray-100 text-gray-800" && StatusIcon(status) == "🔔"
    ensures BorderColor(status) == BorderColor("Safe")
  {
  }

  /** The transition delay of the alert at `index`, in milliseconds. */
  function Delay(index: nat): nat {
    index * 100
  }

  /** Alerts appear in list order, a tenth of a second apart. */
  lemma DelaysStaggered(i: nat, j: nat)
    requires i < j
    ensures Delay(j) - Delay(i) == 100 * (j - i)
    ensures Delay(i) < Delay(j)
  {
  }

  /** The sentence under an alert. */
  function BodyText(a: AlertItem): string {
    "Groundwater level is " + Lower(a.status) + ". " + a.kind + " notification issued."
  }

  /** The sentence names the status in lower case, so differently cased statuses read the same. */
  lemma BodyTextNamesStatus(a: AlertItem)
    ensures Contains(BodyText(a), Lower(a.status))
    ensures BodyText(a) == BodyText(a.(status := Lower(a.status)))
  {
    OccursInConcat("Groundwater level is ", Lower(a.status), ". " + a.kind + " notification issued.");
    assert BodyText(a) == "Groundwater level is " + Lower(a.status) + (". " + a.kind + " notification issued.");
    LowerIdempotent(a.status);
  }

  /** "No alerts at this time" shows exactly on an empty feed. */
  predicate ShowsEmptyState(alerts: seq<AlertItem>) {
    |alerts| == 0
  }

  /** Every loaded alert has a known status. */
  lemma SampleStatusesKnown()
    ensures |SampleAlerts| == 5
    ensures forall i :: 0 <= i < |SampleAlerts| ==> Known(SampleAlerts[i].status)
    ensures !ShowsEmptyState(SampleAlerts)
  {
  }

  /** The feed's state. */
  class Feed {
    var alerts: seq<AlertItem>
    var animate: bool

    /** Before the load timer fires: empty, so the empty-state message shows. */
    constructor()
      ensures alerts == [] && !animate && ShowsEmptyState(alerts)
    {
      alerts := [];
      animate := false;
    }

    /** The load timer: the sample alerts, animated in. */
    method Load()
      modifies this
      ensures alerts == SampleAlerts && animate
      ensures !ShowsEmptyState(alerts)
    {
      alerts := SampleAlerts;
      animate := true;
    }
  }
}
