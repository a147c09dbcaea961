/**
 * The knowledge and action panel: three status buttons, and for the chosen
 * status a description, an icon, a colour and a numbered list of actions.
 */
module KnowledgeAction {
  import Alerts

  datatype Suggestion = Suggestion(description: string, icon: string, color: string, actions: seq<string>)

  /** The statuses in the order their buttons are drawn. */
  const StatusKeys: seq<string> := ["Safe", "Semi-Critical", "Critical"]

  /** `suggestions`: what the panel says about each status. */
  const Suggestions: map<string, Suggestion> := map[
    "Safe" := Suggestion(
      "Groundwater levels are within sustainable limits", "✅", "green",
      ["Maintain current water usage patterns",
       "Continue rainwater harvesting practices",
       "Monitor water quality regularly",
       "Promote water conservation awareness in community"]),
    "Semi-Critical" := Suggestion(
      "Groundwater extraction is nearing recharge capacity", "⚠️", "yellow",
      ["Adopt rainwater harvesting systems",
       "Reduce groundwater extraction by 20%",
       "Implement drip irrigation in agriculture",
       "Promote water-efficient appliances"]),
    "Critical" := Suggestion(
      "Groundwater extraction exceeds recharge significantly", "🚨", "red",
      ["Implement strict regulations on groundwater extraction",
       "Emergency water conservation measures needed",
       "Explore alternative water sources",
       "Community water auditing and management planning"])
  ]

  const Initial: string := "Semi-Critical"

  /** The buttons offer exactly the table's statuses, each once. */
  lemma KeysAreTheTable()
    ensures forall s :: s in StatusKeys <==> s in Suggestions
    ensures forall i, j :: 0 <= i < j < |StatusKeys| ==> StatusKeys[i] != StatusKeys[j]
    ensures Initial in Suggestions
  {
  }

  /** Every status has four actions, and its own colour. */
  lemma TableShape()
    ensures forall s :: s in Suggestions ==> |Suggestions[s].actions| == 4
    ensures Suggestions["Safe"].color == "green"
    ensures Suggestions["Semi-Critical"].color == "yellow"
    ensures Suggestions["Critical"].color == "red"
  {
  }

  /** The pale classes of a colour: light background, dark text. */
  function PaleClass(c: string): string {
    "bg-" + c + "-100 text-" + c + "-800"
  }

  /** A status button's classes: solid when it is the selected one, pale otherwise. */
  function ButtonClass(status: string, selected: string): (r: string)
    requires status in Suggestions
    ensures selected != status ==> PaleClass(Suggestions[status].color) <= r
  {
    var c := Suggestions[status].color;
    if selected == status then "bg-" + c + "-500 text-white shadow-md"
    else PaleClass(c) + " hover:bg-" + c + "-200"
  }

  lemma PaleGreen()
    ensures PaleClass("green") == "bg-green-100 text-green-800"
  {
  }

  lemma PaleYellow()
    ensures PaleClass("yellow") == "bg-yellow-100 text-yellow-800"
  {
  }

  lemma PaleRed()
    ensures PaleClass("red") == "bg-red-100 text-red-800"
  {
  }

  /** The pale classes of a status's colour are the classes the alerts feed gives its badge. */
  lemma PaleMatchesAlertBadge(status: string)
    requires status in Suggestions
    ensures Alerts.StatusColor(status) == PaleClass(Suggestions[status].color)
  {
    TableShape();
    PaleGreen();
    PaleYellow();
    PaleRed();
  }

  /** So a pale button starts with the same classes as that status's alert badge. */
  lemma PaleButtonMatchesAlertBadge(status: string, selected: string)
    requires status in Suggestions && selected != status
    ensures Alerts.StatusColor(status) <= ButtonClass(status, selected)
  {
    PaleMatchesAlertBadge(status);
  }

  /** An action card: its 1-based number and its text. */
  datatype Card = Card(number: int, action: string)

  /** The action cards, in list order, numbered from one. */
  function Cards(actions: seq<string>): (r: seq<Card>)
    ensures |r| == |actions|
    ensures forall i :: 0 <= i < |r| ==> r[i] == Card(i + 1, actions[i])
  {
    seq(|actions|, i requires 0 <= i < |actions| => Card(i + 1, actions[i]))
  }

  /** The numbers run 1, 2, ... without gaps, and the texts are the actions unchanged. */
  lemma CardsNumbered(actions: seq<string>)
    ensures forall i :: 0 < i < |Cards(actions)| ==> Cards(actions)[i].number == Cards(actions)[i - 1].number + 1
    ensures |actions| > 0 ==> Cards(actions)[0].number == 1
    ensures forall i :: 0 <= i < |actions| ==> Cards(actions)[i].action == actions[i]
  {
  }

  /** The panel's state. */
  class Panel {
    var selected: string

    /** `statusData` is defined exactly when the selection is a key of the table. */
    predicate Valid()
      reads this
    {
      selected in Suggestions
    }

    constructor()
      ensures Valid() && selected == Initial
    {
      selected := Initial;
    }

    /** `statusData`: the chosen status's entry. */
    function StatusData(): (r: Suggestion)
      reads this
      requires Valid()
      ensures r == Suggestions[selected] && |r.actions| == 4
    {
      TableShape();
      Suggestions[selected]
    }

    /** A click on a status button; the buttons offer only the table's statuses. */
    method Select(status: string)
      requires Valid() && status in StatusKeys
      modifies this
      ensures Valid() && selected == status
    {
      selected := status;
    }
  }
}
