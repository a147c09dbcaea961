/**
 * The CSV text both export buttons build: a header line and one line per
 * record, cells joined with "," and lines with "\n"; no rows, no file.
 */
module CsvExport {
  import opened Wrappers
  import opened Text

  /** A cell that holds neither separator, so it survives a round trip. */
  predicate Plain(s: string) {
    ',' !in s && '\n' !in s
  }

  /** All cells of all records are plain. */
  predicate AllPlain(rows: seq<seq<string>>) {
    forall i, j :: 0 <= i < |rows| && 0 <= j < |rows[i]| ==> Plain(rows[i][j])
  }

  /** One record as a line: `cells.join(",")`. */
  function Line(cells: seq<string>): string {
    Join(cells, ',')
  }

  /** The lines of the records, in order. */
  function Lines(rows: seq<seq<string>>): (r: seq<string>)
    ensures |r| == |rows|
    ensures forall i :: 0 <= i < |rows| ==> r[i] == Line(rows[i])
  {
    seq(|rows|, i requires 0 <= i < |rows| => Line(rows[i]))
  }

  /** `[header.join(","), ...lines].join("\n")`, or nothing at all for no records. */
  function Document(header: seq<string>, rows: seq<seq<string>>): (r: Option<string>)
    ensures r.None? <==> rows == []
  {
    if rows == [] then None else Some(Join([Line(header)] + Lines(rows), '\n'))
  }

  /** A rendered integer is a plain cell. */
  lemma IntToStringPlain(i: int)
    ensures Plain(IntToString(i))
  {
    IntToStringChars(i);
  }

  /** A line of plain cells holds no newline. */
  lemma {:induction false} LineHasNoNewline(cells: seq<string>)
    requires forall j :: 0 <= j < |cells| ==> Plain(cells[j])
    ensures '\n' !in Line(cells)
  {
    if |cells| > 1 {
      LineHasNoNewline(cells[1..]);
    }
  }

  /** A line of plain cells splits back into its cells. */
  lemma LineRoundTrip(cells: seq<string>)
    requires |cells| >= 1
    requires forall j :: 0 <= j < |cells| ==> Plain(cells[j])
    ensures Split(Line(cells), ',') == cells
  {
    SplitJoin(cells, ',');
  }

  /**
   * A document of plain cells splits into the header line and one line per
   * record, and each line splits back into its record's cells.
   */
  lemma DocumentRoundTrip(header: seq<string>, rows: seq<seq<string>>)
    requires rows != [] && |header| >= 1
    requires forall j :: 0 <= j < |header| ==> Plain(header[j])
    requires forall i :: 0 <= i < |rows| ==> |rows[i]| >= 1
    requires AllPlain(rows)
    ensures var lines := Split(Document(header, rows).value, '\n');
      && |lines| == |rows| + 1
      && Split(lines[0], ',') == header
      && forall k :: 0 <= k < |rows| ==> Split(lines[k + 1], ',') == rows[k]
  {
    var all := [Line(header)] + Lines(rows);
    LineHasNoNewline(header);
    LineRoundTrip(header);
    forall i | 0 <= i < |all| ensures '\n' !in all[i] {
      if i > 0 {
        LineHasNoNewline(rows[i - 1]);
      }
    }
    forall k | 0 <= k < |rows| ensures Split(all[k + 1], ',') == rows[k] {
      LineRoundTrip(rows[k]);
    }
    SplitJoin(all, '\n');
  }
}
