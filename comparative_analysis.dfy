/**
 * The comparative analysis page: a multi-select of regions, the comparison
 * rows derived from the selection, the "more than four" warning, the risk
 * label of each row and the CSV export.
 */
module ComparativeAnalysis {
  import opened Wrappers
  import opened Text
  import opened CsvExport

  /** One region: recharge and extraction percentages and its assessment stage. */
  datatype RegionRow = RegionRow(region: string, recharge: int, extraction: int, stage: string)

  /** The full dataset the page compares. */
  const FullData: seq<RegionRow> := [
    RegionRow("Pune", 80, 60, "Safe"),
    RegionRow("Nagpur", 50, 70, "Semi-Critical"),
    RegionRow("Mumbai", 40, 85, "Critical"),
    RegionRow("Nashik", 70, 55, "Safe"),
    RegionRow("Aurangabad", 45, 75, "Critical"),
    RegionRow("Solapur", 35, 80, "Critical"),
    RegionRow("Amravati", 60, 58, "Safe")
  ]

  /** `fullData.slice(0, 5)`. */
  function FirstFive(full: seq<RegionRow>): (r: seq<RegionRow>)
    ensures |r| <= 5 && r <= full
    ensures |full| >= 5 ==> |r| == 5
    ensures |full| < 5 ==> r == full
  {
    full[..if |full| < 5 then |full| else 5]
  }

  /** `rows.map(d => d.region)`. */
  function Regions(rows: seq<RegionRow>): (r: seq<string>)
    ensures |r| == |rows| && forall i :: 0 <= i < |rows| ==> r[i] == rows[i].region
  {
    seq(|rows|, i requires 0 <= i < |rows| => rows[i].region)
  }

  // ---------------------------------------------------------------------------
  // toggling a region
  // ---------------------------------------------------------------------------

  /** `prev.filter(r => r !== region)`. */
  function Without(prev: seq<string>, region: string): (r: seq<string>)
    ensures |r| <= |prev|
    ensures forall x :: x in r <==> x in prev && x != region
  {
    if prev == [] then []
    else
      var rest := Without(prev[1..], region);
      assert forall x :: x in prev <==> x == prev[0] || x in prev[1..];
      if prev[0] != region then [prev[0]] + rest else rest
  }

  /** Removing keeps the order of what stays: it distributes over concatenation. */
  lemma {:induction false} WithoutAppend(a: seq<string>, b: seq<string>, region: string)
    ensures Without(a + b, region) == Without(a, region) + Without(b, region)
  {
    if a != [] {
      assert (a + b)[1..] == a[1..] + b;
      WithoutAppend(a[1..], b, region);
    } else {
      assert a + b == b;
    }
  }

  /** Removing an absent region changes nothing. */
  lemma {:induction false} WithoutAbsent(prev: seq<string>, region: string)
    requires region !in prev
    ensures Without(prev, region) == prev
  {
    if prev != [] {
      WithoutAbsent(prev[1..], region);
      assert [prev[0]] + prev[1..] == prev;
    }
  }

  /**
   * `toggleRegion`: a selected region is removed (every occurrence of it), an
   * unselected one is appended at the end; no other region changes.
   */
  function Toggled(prev: seq<string>, region: string): (r: seq<string>)
    ensures region in r <==> region !in prev
    ensures forall x :: x != region ==> (x in r <==> x in prev)
    ensures region !in prev ==> r == prev + [region]
    ensures region in prev ==> r == Without(prev, region) && |r| < |prev|
  {
    if region in prev then
      var r := Without(prev, region);
      assert |r| < |prev| by {
        var k :| 0 <= k < |prev| && prev[k] == region;
        assert prev == prev[..k] + [region] + prev[k + 1..];
        WithoutAppend(prev[..k] + [region], prev[k + 1..], region);
        WithoutAppend(prev[..k], [region], region);
      }
      r
    else prev + [region]
  }

  /** Toggling an unselected region twice restores the selection exactly. */
  lemma ToggledTwiceRestores(prev: seq<string>, region: string)
    requires region !in prev
    ensures Toggled(Toggled(prev, region), region) == prev
  {
    WithoutAppend(prev, [region], region);
    WithoutAbsent(prev, region);
    assert Without([region], region) == [];
  }

  /** No region is selected twice. */
  predicate Distinct(s: seq<string>) {
    forall i, j :: 0 <= i < j < |s| ==> s[i] != s[j]
  }

  lemma {:induction false} WithoutDistinct(prev: seq<string>, region: string)
    requires Distinct(prev)
    ensures Distinct(Without(prev, region))
  {
    if prev != [] {
      assert Distinct(prev[1..]) by {
        forall i, j | 0 <= i < j < |prev[1..]| ensures prev[1..][i] != prev[1..][j] {
          assert prev[1..][i] == prev[i + 1] && prev[1..][j] == prev[j + 1];
        }
      }
      WithoutDistinct(prev[1..], region);
      var rest := Without(prev[1..], region);
      assert prev[0] !in prev[1..] by {
        forall j | 0 <= j < |prev[1..]| ensures prev[1..][j] != prev[0] {
          assert prev[1..][j] == prev[j + 1];
        }
      }
      if prev[0] != region {
        forall i, j | 0 <= i < j < |[prev[0]] + rest| ensures ([prev[0]] + rest)[i] != ([prev[0]] + rest)[j] {
          if i == 0 {
            assert ([prev[0]] + rest)[j] == rest[j - 1] && rest[j - 1] in rest;
          } else {
            assert ([prev[0]] + rest)[i] == rest[i - 1] && ([prev[0]] + rest)[j] == rest[j - 1];
          }
        }
      }
    }
  }

  /** Toggling keeps a selection free of repeats. */
  lemma ToggledDistinct(prev: seq<string>, region: string)
    requires Distinct(prev)
    ensures Distinct(Toggled(prev, region))
  {
    if region in prev {
      WithoutDistinct(prev, region);
    }
  }

  // ---------------------------------------------------------------------------
  // the comparison derived from the selection
  // ---------------------------------------------------------------------------

  /** `fullData.filter(d => selectedRegions.includes(d.region))`. */
  function Picked(full: seq<RegionRow>, selected: seq<string>): (r: seq<RegionRow>)
    ensures |r| <= |full|
    ensures forall x :: x in r <==> x in full && x.region in selected
  {
    if full == [] then []
    else
      var rest := Picked(full[1..], selected);
      assert forall x :: x in full <==> x == full[0] || x in full[1..];
      if full[0].region in selected then [full[0]] + rest else rest
  }

  /** The picked rows come in dataset order: picking distributes over concatenation. */
  lemma {:induction false} PickedAppend(a: seq<RegionRow>, b: seq<RegionRow>, selected: seq<string>)
    ensures Picked(a + b, selected) == Picked(a, selected) + Picked(b, selected)
  {
    if a != [] {
      assert (a + b)[1..] == a[1..] + b;
      PickedAppend(a[1..], b, selected);
    } else {
      assert a + b == b;
    }
  }

  /** What the selection effect writes: the comparison rows and the warning flag. */
  datatype Derived = Derived(comparison: seq<RegionRow>, warning: bool)

  /**
   * The selection effect: no selection shows the first five rows; otherwise
   * the selected rows in dataset order, or the first five when none matches.
   * The warning is on exactly when more than four regions are selected.
   */
  function Derive(full: seq<RegionRow>, selected: seq<string>): (r: Derived)
    ensures r.warning <==> |selected| > 4
    ensures selected == [] ==> r.comparison == FirstFive(full)
    ensures (forall x :: x in full ==> x.region !in selected) ==> r.comparison == FirstFive(full)
    ensures (exists x :: x in full && x.region in selected) ==>
      forall x :: x in r.comparison <==> x in full && x.region in selected
    ensures (exists x :: x in full && x.region in selected) ==> r.comparison == Picked(full, selected)
  {
    if selected == [] then Derived(FirstFive(full), false)
    else
      var picked := Picked(full, selected);
      assert picked != [] ==> picked[0] in picked;
      Derived(if picked != [] then picked else FirstFive(full), |selected| > 4)
  }

  /** With a non-empty dataset the comparison is never empty. */
  lemma DeriveNonEmpty(full: seq<RegionRow>, selected: seq<string>)
    requires full != []
    ensures Derive(full, selected).comparison != []
  {
  }

  /** The regions the load timer selects. */
  lemma InitialRegions()
    ensures Regions(FirstFive(FullData)) == ["Pune", "Nagpur", "Mumbai", "Nashik", "Aurangabad"]
    ensures FullData[5].region == "Solapur" && FullData[6].region == "Amravati"
  {
  }

  /**
   * Selecting the regions of the first five rows gives back those rows, with
   * the warning on, when no later row shares a region with them.
   */
  lemma DeriveFirstFive(full: seq<RegionRow>)
    requires |full| >= 5
    requires forall i :: 5 <= i < |full| ==> full[i].region !in Regions(FirstFive(full))
    ensures Derive(full, Regions(FirstFive(full))) == Derived(FirstFive(full), true)
  {
    var sel := Regions(FirstFive(full));
    assert full == FirstFive(full) + full[5..];
    PickedAppend(FirstFive(full), full[5..], sel);
    PickedOwnRegions(FirstFive(full), sel);
    PickedNone(full[5..], sel);
  }

  /** The initial load selects five distinct regions and shows their five rows, with the warning on. */
  lemma InitialSelection()
    ensures Distinct(Regions(FirstFive(FullData)))
    ensures Derive(FullData, Regions(FirstFive(FullData))) == Derived(FirstFive(FullData), true)
  {
    InitialDistinct();
    InitialLaterRows();
    DeriveFirstFive(FullData);
  }

  lemma InitialDistinct()
    ensures Distinct(Regions(FirstFive(FullData)))
  {
    InitialRegions();
  }

  lemma InitialLaterRows()
    ensures forall i :: 5 <= i < |FullData| ==> FullData[i].region !in Regions(FirstFive(FullData))
  {
    InitialRegions();
    var sel := Regions(FirstFive(FullData));
    assert "Solapur" !in sel && "Amravati" !in sel;
    assert |FullData| == 7;
  }

  /** Picking the regions of the rows themselves keeps every row. */
  lemma {:induction false} PickedOwnRegions(rows: seq<RegionRow>, selected: seq<string>)
    requires forall i :: 0 <= i < |rows| ==> rows[i].region in selected
    ensures Picked(rows, selected) == rows
  {
    if rows != [] {
      PickedOwnRegions(rows[1..], selected);
      assert [rows[0]] + rows[1..] == rows;
    }
  }

  /** Picking regions no row has picks nothing. */
  lemma {:induction false} PickedNone(rows: seq<RegionRow>, selected: seq<string>)
    requires forall i :: 0 <= i < |rows| ==> rows[i].region !in selected
    ensures Picked(rows, selected) == []
  {
    if rows != [] {
      PickedNone(rows[1..], selected);
    }
  }

  // ---------------------------------------------------------------------------
  // risk label
  // ---------------------------------------------------------------------------

  datatype Risk = AtRisk | Stable

  /** "At Risk" exactly when extraction exceeds recharge; equality is stable. */
  function RiskOf(row: RegionRow): (r: Risk)
    ensures r == AtRisk <==> row.extraction > row.recharge
  {
    if row.extraction > row.recharge then AtRisk else Stable
  }

  /** In the dataset the stable regions are exactly the ones staged "Safe". */
  lemma RiskMatchesStage()
    ensures forall i :: 0 <= i < |FullData| ==> (RiskOf(FullData[i]) == Stable <==> FullData[i].stage == "Safe")
  {
  }

  // ---------------------------------------------------------------------------
  // CSV export
  // ---------------------------------------------------------------------------

  const Header: seq<string> := ["Region", "Recharge (%)", "Extraction (%)", "Stage"]

  /** The four cells of a row, numbers in decimal. */
  function Cells(row: RegionRow): seq<string> {
    [row.region, IntToString(row.recharge), IntToString(row.extraction), row.stage]
  }

  /** `downloadCSV`'s content: nothing for no rows, else the header and one line per row. */
  function Csv(rows: seq<RegionRow>): (r: Option<string>)
    ensures r.None? <==> rows == []
  {
    Document(Header, seq(|rows|, i requires 0 <= i < |rows| => Cells(rows[i])))
  }

  /** A CSV line read back: four cells, the middle two as integers. */
  function ParseLine(line: string): (r: Option<RegionRow>)
    ensures r.Some? <==> |Split(line, ',')| == 4
  {
    var f := Split(line, ',');
    if |f| != 4 then None else Some(RegionRow(f[0], ParseInt(f[1]), ParseInt(f[2]), f[3]))
  }

  lemma HeaderPlain()
    ensures forall j :: 0 <= j < |Header| ==> Plain(Header[j])
  {
  }

  /** The cells of a row read back as the row. */
  lemma ParseCells(row: RegionRow, line: string)
    requires Split(line, ',') == Cells(row)
    ensures ParseLine(line) == Some(row)
  {
    ParseIntToString(row.recharge);
    ParseIntToString(row.extraction);
  }

  /**
   * The export has one line more than there are rows: the header, then line
   * k + 1 reading back as row k.
   */
  lemma CsvRoundTrip(rows: seq<RegionRow>)
    requires rows != []
    requires forall i :: 0 <= i < |rows| ==> Plain(rows[i].region) && Plain(rows[i].stage)
    ensures var lines := Split(Csv(rows).value, '\n');
      && |lines| == |rows| + 1
      && Split(lines[0], ',') == Header
      && forall k :: 0 <= k < |rows| ==> ParseLine(lines[k + 1]) == Some(rows[k])
  {
    var cells := seq(|rows|, i requires 0 <= i < |rows| => Cells(rows[i]));
    forall i | 0 <= i < |rows| ensures forall j :: 0 <= j < |cells[i]| ==> Plain(cells[i][j]) {
      IntToStringPlain(rows[i].recharge);
      IntToStringPlain(rows[i].extraction);
    }
    HeaderPlain();
    DocumentRoundTrip(Header, cells);
    assert Csv(rows) == Document(Header, cells);
    var lines := Split(Csv(rows).value, '\n');
    forall k | 0 <= k < |rows| ensures ParseLine(lines[k + 1]) == Some(rows[k]) {
      assert Split(lines[k + 1], ',') == cells[k] == Cells(rows[k]);
      ParseCells(rows[k], lines[k + 1]);
    }
  }

  // ---------------------------------------------------------------------------
  // the page
  // ---------------------------------------------------------------------------

  /** The page's state. */
  class ComparisonView {
    const fullData: seq<RegionRow>
    var comparison: seq<RegionRow>
    var selectedRegions: seq<string>
    var maxSelectWarning: bool

    /** The selection never names a region twice. */
    predicate Valid()
      reads this
    {
      Distinct(selectedRegions)
    }

    /**
     * Mounting: the initial state values, then the selection effect's first run
     * on the empty selection, which shows the first five rows. The load timer
     * fires later, as `LoadInitial`.
     */
    constructor()
      ensures fullData == FullData && Valid()
      ensures selectedRegions == [] && comparison == FirstFive(FullData) && !maxSelectWarning
      ensures Derive(fullData, selectedRegions) == Derived(comparison, maxSelectWarning)
    {
      fullData := FullData;
      comparison := [];
      selectedRegions := [];
      maxSelectWarning := false;
      new;
      Refresh();
    }

    /** The selection effect, run whenever the selection changes. */
    method Refresh()
      modifies this
      ensures selectedRegions == old(selectedRegions)
      ensures comparison == Derive(fullData, selectedRegions).comparison
      ensures maxSelectWarning == Derive(fullData, selectedRegions).warning
    {
      var d := Derive(fullData, selectedRegions);
      comparison := d.comparison;
      maxSelectWarning := d.warning;
    }

    /** The load timer: the first five rows, all of them selected, then the selection effect. */
    method LoadInitial()
      requires fullData == FullData
      modifies this
      ensures Valid()
      ensures comparison == FirstFive(fullData)
      ensures selectedRegions == Regions(FirstFive(fullData))
      ensures maxSelectWarning
    {
      comparison := FirstFive(fullData);
      selectedRegions := Regions(comparison);
      InitialSelection();
      Refresh();
    }

    /** A click on a region's button, followed by the selection effect. */
    method ToggleRegion(region: string)
      requires Valid()
      modifies this
      ensures Valid()
      ensures selectedRegions == Toggled(old(selectedRegions), region)
      ensures Derive(fullData, selectedRegions) == Derived(comparison, maxSelectWarning)
    {
      ToggledDistinct(selectedRegions, region);
      selectedRegions := Toggled(selectedRegions, region);
      Refresh();
    }
  }
}
