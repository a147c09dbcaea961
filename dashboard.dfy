/**
 * The policy dashboard: the state-wise criticality table with its search box,
 * sortable columns, colour-coded bars, trend icons, the two KPI figures, the
 * CSV export and the row selection that opens the detailed view.
 */
module Dashboard {
  import opened Wrappers
  import opened Text
  import opened Numeric
  import opened CsvExport

  /** One row of the table: percentages of safe, semi-critical and critical areas. */
  datatype StateRow = StateRow(state: string, safe: int, semiCritical: int, critical: int, trend: string)

  /** The rows the dashboard starts with (and keeps: nothing replaces them). */
  const InitialData: seq<StateRow> := [
    StateRow("Maharashtra", 50, 30, 20, "improving"),
    StateRow("Karnataka", 40, 40, 20, "stable"),
    StateRow("Tamil Nadu", 60, 25, 15, "improving"),
    StateRow("Uttar Pradesh", 35, 35, 30, "worsening"),
    StateRow("Gujarat", 55, 30, 15, "stable"),
    StateRow("West Bengal", 45, 30, 25, "stable")
  ]

  /** In every initial row the three categories cover the whole state. */
  lemma InitialRowsSumToHundred()
    ensures forall i :: 0 <= i < |InitialData| ==>
      InitialData[i].safe + InitialData[i].semiCritical + InitialData[i].critical == 100
  {
  }

  // ---------------------------------------------------------------------------
  // trend icons and bar colours
  // ---------------------------------------------------------------------------

  /** The three icons of the trend column. */
  datatype TrendIcon = Rising | Falling | Sideways

  /** `getTrendIcon`: "improving" rises, "worsening" falls, anything else is sideways. */
  function TrendIconOf(trend: string): (r: TrendIcon)
    ensures r == Rising <==> trend == "improving"
    ensures r == Falling <==> trend == "worsening"
    ensures r == Sideways <==> trend != "improving" && trend != "worsening"
  {
    if trend == "improving" then Rising
    else if trend == "worsening" then Falling
    else Sideways
  }

  /** `getStatusColor`: a Tailwind background class chosen by thresholds per column. */
  function StatusColor(value: int, kind: string): (r: string)
    ensures r == "bg-gray-300" <==> kind != "safe" && kind != "semiCritical" && kind != "critical"
  {
    if kind == "safe" then
      (if value >= 50 then "bg-green-500" else if value >= 40 then "bg-green-400" else "bg-green-300")
    else if kind == "semiCritical" then
      (if value >= 40 then "bg-yellow-500" else if value >= 30 then "bg-yellow-400" else "bg-yellow-300")
    else if kind == "critical" then
      (if value >= 30 then "bg-red-500" else if value >= 20 then "bg-red-400" else "bg-red-300")
    else "bg-gray-300"
  }

  /** The class prefix naming a column's colour family. */
  function ClassPrefix(kind: string): string {
    if kind == "safe" then "bg-green-"
    else if kind == "semiCritical" then "bg-yellow-"
    else if kind == "critical" then "bg-red-"
    else "bg-gray-"
  }

  /** The shade number a class name ends with: 500, 400, or 300 for anything else. */
  function Shade(colour: string): int {
    if |colour| >= 3 && colour[|colour| - 3..] == "500" then 500
    else if |colour| >= 3 && colour[|colour| - 3..] == "400" then 400
    else 300
  }

  function ShadeText(n: int): string {
    if n == 500 then "500" else if n == 400 then "400" else "300"
  }

  /** Every class is the column's family prefix followed by its shade; unknown columns are grey. */
  lemma StatusColorFamily(value: int, kind: string)
    ensures StatusColor(value, kind) == ClassPrefix(kind) + ShadeText(Shade(StatusColor(value, kind)))
    ensures kind != "safe" && kind != "semiCritical" && kind != "critical" ==>
      StatusColor(value, kind) == "bg-gray-300"
  {
    ShadeOfClass(ClassPrefix(kind), StatusColor(value, kind));
  }

  /** A class made of a prefix and one of the three shade numbers. */
  lemma ShadeOfClass(prefix: string, c: string)
    requires c == prefix + "500" || c == prefix + "400" || c == prefix + "300"
    ensures c == prefix + ShadeText(Shade(c))
  {
    assert c[|c| - 3..] == c[|prefix|..];
  }

  /**
   * The shade is 500 exactly from the column's upper threshold (50, 40, 30)
   * on, and at least 400 exactly from its lower one (40, 30, 20) on.
   */
  lemma StatusColorThresholds(value: int, kind: string)
    ensures kind == "safe" ==>
      (Shade(StatusColor(value, kind)) == 500 <==> value >= 50) &&
      (Shade(StatusColor(value, kind)) >= 400 <==> value >= 40)
    ensures kind == "semiCritical" ==>
      (Shade(StatusColor(value, kind)) == 500 <==> value >= 40) &&
      (Shade(StatusColor(value, kind)) >= 400 <==> value >= 30)
    ensures kind == "critical" ==>
      (Shade(StatusColor(value, kind)) == 500 <==> value >= 30) &&
      (Shade(StatusColor(value, kind)) >= 400 <==> value >= 20)
  {
    var c := StatusColor(value, kind);
    assert c[|c| - 3..] == "500" || c[|c| - 3..] == "400" || c[|c| - 3..] == "300";
  }

  /** A larger value never gets a lighter shade in the same column. */
  lemma StatusColorMonotonic(v: int, w: int, kind: string)
    requires v <= w
    ensures Shade(StatusColor(v, kind)) <= Shade(StatusColor(w, kind))
  {
    StatusColorThresholds(v, kind);
    StatusColorThresholds(w, kind);
  }

  // ---------------------------------------------------------------------------
  // KPI figures
  // ---------------------------------------------------------------------------

  /** The rows that raise the critical alert: critical share of at least 25 %. */
  predicate Alarming(r: StateRow) {
    r.critical >= 25
  }

  /** The "Critical Alert" figure: how many rows are alarming. */
  function CriticalCount(rows: seq<StateRow>): (r: nat)
    ensures r <= |rows|
    ensures r == 0 <==> forall i :: 0 <= i < |rows| ==> !Alarming(rows[i])
    ensures r == |rows| <==> forall i :: 0 <= i < |rows| ==> Alarming(rows[i])
  {
    if rows == [] then 0
    else
      var rest := CriticalCount(rows[1..]);
      assert forall i :: 1 <= i < |rows| ==> rows[i] == rows[1..][i - 1];
      (if Alarming(rows[0]) then 1 else 0) + rest
  }

  /** Sum of the safe percentages. */
  function SumSafe(rows: seq<StateRow>): int {
    if rows == [] then 0 else rows[0].safe + SumSafe(rows[1..])
  }

  /** The "Average Safe Areas" figure: the rounded mean of the safe column. */
  function AverageSafe(rows: seq<StateRow>): int
    requires |rows| > 0
  {
    Round(SumSafe(rows) as real / |rows| as real)
  }

  /** Bounds on every safe value bound the sum. */
  lemma {:induction false} SumSafeBounds(rows: seq<StateRow>, lo: int, hi: int)
    requires forall i :: 0 <= i < |rows| ==> lo <= rows[i].safe <= hi
    ensures lo * |rows| <= SumSafe(rows) <= hi * |rows|
  {
    if rows != [] {
      SumSafeBounds(rows[1..], lo, hi);
    }
  }

  /** The average lies between the smallest and the largest safe value. */
  lemma AverageSafeWithin(rows: seq<StateRow>, lo: int, hi: int)
    requires |rows| > 0
    requires forall i :: 0 <= i < |rows| ==> lo <= rows[i].safe <= hi
    ensures lo <= AverageSafe(rows) <= hi
  {
    SumSafeBounds(rows, lo, hi);
    CastMul(lo, |rows|);
    CastMul(hi, |rows|);
    RoundedMeanWithin(SumSafe(rows) as real, |rows| as real, lo, hi);
  }

  /** The figures shown for the initial rows: 6 states, 2 alerts, 48 % safe on average. */
  lemma InitialFigures()
    ensures |InitialData| == 6
    ensures CriticalCount(InitialData) == 2
    ensures AverageSafe(InitialData) == 48
  {
    assert SumSafe(InitialData[5..]) == 45;
    assert SumSafe(InitialData[4..]) == 100;
    assert SumSafe(InitialData[3..]) == 135;
    assert SumSafe(InitialData[2..]) == 195;
    assert SumSafe(InitialData[1..]) == 235;
    assert SumSafe(InitialData) == 285;
    RoundUnique(285.0 / 6.0, 48);
  }

  // ---------------------------------------------------------------------------
  // CSV export
  // ---------------------------------------------------------------------------

  /** The header cells of the export. */
  const Header: seq<string> := ["State", "Safe (%)", "Semi-Critical (%)", "Critical (%)", "Trend"]

  /** The five cells of a row, numbers in decimal. */
  function Cells(r: StateRow): seq<string> {
    [r.state, IntToString(r.safe), IntToString(r.semiCritical), IntToString(r.critical), r.trend]
  }

  /** `downloadCSV`'s content: nothing for no rows, else the header and one line per row. */
  function Csv(rows: seq<StateRow>): (r: Option<string>)
    ensures r.None? <==> rows == []
  {
    Document(Header, seq(|rows|, i requires 0 <= i < |rows| => Cells(rows[i])))
  }

  /** A CSV line read back: five cells, the middle three as integers. */
  function ParseLine(line: string): (r: Option<StateRow>)
    ensures r.Some? <==> |Split(line, ',')| == 5
  {
    var f := Split(line, ',');
    if |f| != 5 then None
    else Some(StateRow(f[0], ParseInt(f[1]), ParseInt(f[2]), ParseInt(f[3]), f[4]))
  }

  lemma HeaderPlain()
    ensures forall j :: 0 <= j < |Header| ==> Plain(Header[j])
  {
  }

  /** The cells of a row are plain when its two text cells are. */
  lemma CellsPlain(r: StateRow)
    requires Plain(r.state) && Plain(r.trend)
    ensures forall j :: 0 <= j < |Cells(r)| ==> Plain(Cells(r)[j])
  {
    IntToStringPlain(r.safe);
    IntToStringPlain(r.semiCritical);
    IntToStringPlain(r.critical);
  }

  /** The cells of a row read back as the row. */
  lemma ParseCells(r: StateRow, line: string)
    requires Split(line, ',') == Cells(r)
    ensures ParseLine(line) == Some(r)
  {
    ParseIntToString(r.safe);
    ParseIntToString(r.semiCritical);
    ParseIntToString(r.critical);
  }

  /**
   * The export splits into exactly one header line and one line per row, and
   * line k + 1 reads back as row k.
   */
  lemma CsvRoundTrip(rows: seq<StateRow>)
    requires rows != []
    requires forall i :: 0 <= i < |rows| ==> Plain(rows[i].state) && Plain(rows[i].trend)
    ensures var lines := Split(Csv(rows).value, '\n');
      && |lines| == |rows| + 1
      && Split(lines[0], ',') == Header
      && forall k :: 0 <= k < |rows| ==> ParseLine(lines[k + 1]) == Some(rows[k])
  {
    var cells := seq(|rows|, i requires 0 <= i < |rows| => Cells(rows[i]));
    forall i | 0 <= i < |rows| ensures forall j :: 0 <= j < |cells[i]| ==> Plain(cells[i][j]) {
      CellsPlain(rows[i]);
    }
    HeaderPlain();
    DocumentRoundTrip(Header, cells);
    assert Csv(rows) == Document(Header, cells);
    var lines := Split(Csv(rows).value, '\n');
    forall k | 0 <= k < |rows| ensures ParseLine(lines[k + 1]) == Some(rows[k]) {
      assert Split(lines[k + 1], ',') == cells[k] == Cells(rows[k]);
      ParseCells(rows[k], lines[k + 1]);
    }
  }

  // ---------------------------------------------------------------------------
  // search
  // ---------------------------------------------------------------------------

  /** A row is shown when its lower-cased state contains the trimmed, lower-cased search. */
  predicate MatchesSearch(r: StateRow, search: string) {
    Contains(Lower(r.state), Lower(Trim(search)))
  }

  /** `data.filter(...)`: the rows that match the search, in their order. */
  function FilterRows(rows: seq<StateRow>, search: string): (r: seq<StateRow>)
    ensures |r| <= |rows|
    ensures forall x :: x in r <==> x in rows && MatchesSearch(x, search)
  {
    if rows == [] then []
    else
      var rest := FilterRows(rows[1..], search);
      assert forall x :: x in rows <==> x == rows[0] || x in rows[1..];
      if MatchesSearch(rows[0], search) then [rows[0]] + rest else rest
  }

  /** Filtering keeps the order: it distributes over concatenation. */
  lemma {:induction false} FilterAppend(a: seq<StateRow>, b: seq<StateRow>, search: string)
    ensures FilterRows(a + b, search) == FilterRows(a, search) + FilterRows(b, search)
  {
    if a != [] {
      assert (a + b)[1..] == a[1..] + b;
      FilterAppend(a[1..], b, search);
    } else {
      assert a + b == b;
    }
  }

  /** A blank search shows every row, in order. */
  lemma {:induction false} BlankSearchKeepsAll(rows: seq<StateRow>, search: string)
    requires IsBlank(search)
    ensures FilterRows(rows, search) == rows
  {
    if rows != [] {
      ContainsEmpty(Lower(rows[0].state));
      assert Lower(Trim(search)) == "";
      BlankSearchKeepsAll(rows[1..], search);
      assert [rows[0]] + rows[1..] == rows;
    }
  }

  // ---------------------------------------------------------------------------
  // sorting
  // ---------------------------------------------------------------------------

  /** The sortable columns. */
  datatype SortKey = StateName | Safe | SemiCritical | Critical
  datatype Direction = Asc | Desc
  /** The `sortBy` state. */
  datatype SortBy = SortBy(key: SortKey, dir: Direction)

  /** `toggleSort`: the same column flips direction, a new column starts ascending. */
  function SortToggled(s: SortBy, key: SortKey): (r: SortBy)
    ensures r.key == key
    ensures r.dir == Desc <==> s.key == key && s.dir == Asc
  {
    if s.key == key then SortBy(key, if s.dir == Asc then Desc else Asc) else SortBy(key, Asc)
  }

  /** Clicking a column twice: back to where it was, or descending for a new column. */
  lemma SortToggledTwice(s: SortBy, key: SortKey)
    ensures s.key == key ==> SortToggled(SortToggled(s, key), key) == s
    ensures s.key != key ==> SortToggled(SortToggled(s, key), key) == SortBy(key, Desc)
  {
  }

  function DirSign(d: Direction): int {
    if d == Asc then 1 else -1
  }

  /** The numeric column a key names. */
  function Figure(r: StateRow, key: SortKey): int
    requires key != StateName
  {
    match key
    case Safe => r.safe
    case SemiCritical => r.semiCritical
    case Critical => r.critical
  }

  /** The comparator: string comparison for the state column, the difference otherwise, times the direction. */
  function Compare(a: StateRow, b: StateRow, order: SortBy): int {
    if order.key == StateName then CompareStrings(a.state, b.state) * DirSign(order.dir)
    else (Figure(a, order.key) - Figure(b, order.key)) * DirSign(order.dir)
  }

  /** `a` may stand before `b`. */
  predicate Precedes(a: StateRow, b: StateRow, order: SortBy) {
    Compare(a, b, order) <= 0
  }

  /** The comparator is antisymmetric, so any two rows are ordered one way or the other. */
  lemma CompareFlip(a: StateRow, b: StateRow, order: SortBy)
    ensures Compare(a, b, order) == -Compare(b, a, order)
    ensures Precedes(a, b, order) || Precedes(b, a, order)
  {
    CompareAntisymmetric(a.state, b.state);
  }

  lemma PrecedesTransitive(a: StateRow, b: StateRow, c: StateRow, order: SortBy)
    requires Precedes(a, b, order) && Precedes(b, c, order)
    ensures Precedes(a, c, order)
  {
    if order.key == StateName {
      if order.dir == Asc {
        CompareTransitive(a.state, b.state, c.state);
      } else {
        CompareAntisymmetric(a.state, b.state);
        CompareAntisymmetric(b.state, c.state);
        CompareAntisymmetric(a.state, c.state);
        CompareTransitive(c.state, b.state, a.state);
      }
    }
  }

  /** Every row may stand before every later one. */
  predicate Sorted(s: seq<StateRow>, order: SortBy) {
    forall i, j :: 0 <= i < j < |s| ==> Precedes(s[i], s[j], order)
  }

  /** Each row may stand before the next. */
  predicate AdjacentSorted(s: seq<StateRow>, order: SortBy) {
    forall i :: 0 < i < |s| ==> Precedes(s[i - 1], s[i], order)
  }

  /** Neighbour order gives the whole order, because the comparator is transitive. */
  lemma {:induction false} AdjacentSortedIsSorted(s: seq<StateRow>, order: SortBy)
    requires AdjacentSorted(s, order)
    ensures Sorted(s, order)
  {
    forall i, j | 0 <= i < j < |s| ensures Precedes(s[i], s[j], order) {
      PrecedesUpTo(s, order, i, j);
    }
  }

  lemma {:induction false} PrecedesUpTo(s: seq<StateRow>, order: SortBy, i: int, j: int)
    requires AdjacentSorted(s, order)
    requires 0 <= i < j < |s|
    ensures Precedes(s[i], s[j], order)
    decreases j - i
  {
    if i + 1 < j {
      PrecedesUpTo(s, order, i, j - 1);
      PrecedesTransitive(s[i], s[j - 1], s[j], order);
    }
  }

  /** What a sorted table means for each column and direction. */
  lemma SortedMeaning(s: seq<StateRow>, order: SortBy, i: int, j: int)
    requires Sorted(s, order) && 0 <= i < j < |s|
    ensures order == SortBy(StateName, Asc) ==> CompareStrings(s[i].state, s[j].state) <= 0
    ensures order == SortBy(StateName, Desc) ==> CompareStrings(s[j].state, s[i].state) <= 0
    ensures order == SortBy(Safe, Asc) ==> s[i].safe <= s[j].safe
    ensures order == SortBy(Safe, Desc) ==> s[i].safe >= s[j].safe
    ensures order == SortBy(SemiCritical, Asc) ==> s[i].semiCritical <= s[j].semiCritical
    ensures order == SortBy(SemiCritical, Desc) ==> s[i].semiCritical >= s[j].semiCritical
    ensures order == SortBy(Critical, Asc) ==> s[i].critical <= s[j].critical
    ensures order == SortBy(Critical, Desc) ==> s[i].critical >= s[j].critical
  {
    assert Precedes(s[i], s[j], order);
    CompareAntisymmetric(s[i].state, s[j].state);
  }

  /** Sorts a fresh array holding `s`, leaving `s` itself as it is. */
  method SortedCopy(s: seq<StateRow>, order: SortBy) returns (r: seq<StateRow>)
    ensures multiset(r) == multiset(s)
    ensures Sorted(r, order)
  {
    var a := new StateRow[|s|](i requires 0 <= i < |s| => s[i]);
    assert a[..] == s;
    SortRows(a, order);
    r := a[..];
  }

  /** `filtered.sort(...)`: insertion sort in place by the comparator. */
  method SortRows(a: array<StateRow>, order: SortBy)
    modifies a
    ensures Sorted(a[..], order)
    ensures multiset(a[..]) == multiset(old(a[..]))
  {
    if a.Length > 0 {
      var i := 1;
      while i < a.Length
        invariant 1 <= i <= a.Length
        invariant AdjacentSorted(a[..i], order)
        invariant multiset(a[..]) == multiset(old(a[..]))
      {
        InsertLast(a, i, order);
        i := i + 1;
      }
      assert a[..i] == a[..];
    }
    AdjacentSortedIsSorted(a[..], order);
  }

  /** Moves `a[i]` down into the sorted prefix `a[..i]`. */
  method InsertLast(a: array<StateRow>, i: int, order: SortBy)
    requires 0 < i < a.Length
    requires AdjacentSorted(a[..i], order)
    modifies a
    ensures AdjacentSorted(a[..i + 1], order)
    ensures multiset(a[..]) == multiset(old(a[..]))
  {
    var j := i;
    while j > 0 && Compare(a[j - 1], a[j], order) > 0
      invariant 0 <= j <= i
      invariant forall k :: 0 < k <= i && k != j ==> Precedes(a[k - 1], a[k], order)
      invariant 0 < j < i ==> Precedes(a[j - 1], a[j + 1], order)
      invariant multiset(a[..]) == multiset(old(a[..]))
    {
      Swap(a, j - 1, j);
      CompareFlip(a[j], a[j - 1], order);
      j := j - 1;
    }
  }

  /** Exchanges two neighbours and nothing else. */
  method Swap(a: array<StateRow>, k: int, l: int)
    requires 0 <= k < l < a.Length
    modifies a
    ensures a[k] == old(a[l]) && a[l] == old(a[k])
    ensures forall m :: 0 <= m < a.Length && m != k && m != l ==> a[m] == old(a[m])
    ensures multiset(a[..]) == multiset(old(a[..]))
  {
    a[k], a[l] := a[l], a[k];
  }

  // ---------------------------------------------------------------------------
  // the view
  // ---------------------------------------------------------------------------

  /** The row click: the clicked state is selected, or cleared when it already was. */
  function Clicked(selected: Option<string>, state: string): (r: Option<string>)
    ensures r == None <==> selected == Some(state)
    ensures selected != Some(state) ==> r == Some(state)
  {
    if selected == Some(state) then None else Some(state)
  }

  /** Two clicks on one row: a selected row ends selected again, any other start ends with no selection. */
  lemma ClickedTwice(selected: Option<string>, state: string)
    ensures selected == Some(state) ==> Clicked(Clicked(selected, state), state) == selected
    ensures selected != Some(state) ==> Clicked(Clicked(selected, state), state) == None
  {
  }

  /** The dashboard component's state. */
  class DashboardView {
    const data: seq<StateRow>
    var selectedState: Option<string>
    var search: string
    var sortBy: SortBy

    constructor()
      ensures data == InitialData
      ensures selectedState == None && search == "" && sortBy == SortBy(StateName, Asc)
    {
      data := InitialData;
      selectedState := None;
      search := "";
      sortBy := SortBy(StateName, Asc);
    }

    /** A click on a column header. */
    method ToggleSort(key: SortKey)
      modifies this
      ensures sortBy == SortToggled(old(sortBy), key)
      ensures selectedState == old(selectedState) && search == old(search)
    {
      sortBy := SortToggled(sortBy, key);
    }

    /** Typing in the search box. */
    method SetSearch(text: string)
      modifies this
      ensures search == text
      ensures selectedState == old(selectedState) && sortBy == old(sortBy)
    {
      search := text;
    }

    /** The Clear button. */
    method ClearSearch()
      modifies this
      ensures search == ""
      ensures selectedState == old(selectedState) && sortBy == old(sortBy)
    {
      search := "";
    }

    /** A click on the row of `state`. */
    method ClickRow(state: string)
      modifies this
      ensures selectedState == Clicked(old(selectedState), state)
      ensures search == old(search) && sortBy == old(sortBy)
    {
      selectedState := Clicked(selectedState, state);
    }

    /** `visibleData`: the matching rows, copied and sorted; `data` stays as it is. */
    method VisibleData() returns (rows: seq<StateRow>)
      ensures multiset(rows) == multiset(FilterRows(data, search))
      ensures Sorted(rows, sortBy)
    {
      rows := SortedCopy(FilterRows(data, search), sortBy);
    }

    /** The rows of the detailed view: those of the selected state, none without one. */
    function DetailRows(): (r: seq<StateRow>)
      reads this
      ensures selectedState == None ==> r == []
      ensures selectedState.Some? ==> r == SelectState(data, selectedState.value)
      ensures forall x :: x in r <==> selectedState == Some(x.state) && x in data
    {
      if selectedState == None then [] else SelectState(data, selectedState.value)
    }
  }

  /** `data.filter(d => d.state === selectedState)`. */
  function SelectState(rows: seq<StateRow>, state: string): (r: seq<StateRow>)
    ensures forall x :: x in r <==> x.state == state && x in rows
  {
    if rows == [] then []
    else
      var rest := SelectState(rows[1..], state);
      assert forall x :: x in rows <==> x == rows[0] || x in rows[1..];
      if rows[0].state == state then [rows[0]] + rest else rest
  }

  /** Selecting keeps the order and the repeats: it distributes over concatenation. */
  lemma {:induction false} SelectStateAppend(a: seq<StateRow>, b: seq<StateRow>, state: string)
    ensures SelectState(a + b, state) == SelectState(a, state) + SelectState(b, state)
  {
    if a != [] {
      assert (a + b)[1..] == a[1..] + b;
      SelectStateAppend(a[1..], b, state);
    } else {
      assert a + b == b;
    }
  }
}
