/**
 * The text formatters shared by the commands (`formatters` in the source) and the
 * two-column `TableBuilder`.
 */
module Formatters {
  import opened Wrappers
  import opened Strings
  import opened Seqs
  import opened Styling

  // ---------------------------------------------------------------------------
  // Durations

  /** A duration split into whole hours, minutes and seconds. */
  datatype Elapsed = Elapsed(hours: nat, minutes: nat, seconds: nat)

  /** The clock reading of `ms` milliseconds, with the remaining milliseconds dropped. */
  function Breakdown(ms: nat): (e: Elapsed)
    ensures e.minutes < 60 && e.seconds < 60
    ensures e.hours * 3600 + e.minutes * 60 + e.seconds == ms / 1000
  {
    var s := ms / 1000;
    Elapsed(s / 60 / 60, s / 60 % 60, s % 60)
  }

  /** Only one clock reading fits a number of whole seconds. */
  lemma BreakdownUnique(ms: nat, e: Elapsed)
    requires e.minutes < 60 && e.seconds < 60
    requires e.hours * 3600 + e.minutes * 60 + e.seconds == ms / 1000
    ensures e == Breakdown(ms)
  {
    var s := ms / 1000;
    assert s == (e.hours * 60 + e.minutes) * 60 + e.seconds;
    assert s / 60 == e.hours * 60 + e.minutes;
    assert s / 60 / 60 == e.hours;
  }

  /** A reading shown with its leading zero fields left out. */
  function Render(e: Elapsed): string {
    if e.hours > 0 then
      NatToString(e.hours) + "h " + NatToString(e.minutes) + "m " + NatToString(e.seconds) + "s"
    else if e.minutes > 0 then
      NatToString(e.minutes) + "m " + NatToString(e.seconds) + "s"
    else
      NatToString(e.seconds) + "s"
  }

  /**
   * `duration(ms)` for a whole, non-negative number of milliseconds: the clock reading,
   * minute and second fields below 60, hours unbounded.
   */
  function Duration(ms: nat): (r: string)
    ensures r == Render(Breakdown(ms))
  {
    var seconds := ms / 1000;
    var minutes := seconds / 60;
    var hours := minutes / 60;
    if hours > 0 then
      NatToString(hours) + "h " + NatToString(minutes % 60) + "m " + NatToString(seconds % 60) + "s"
    else if minutes > 0 then
      NatToString(minutes) + "m " + NatToString(seconds % 60) + "s"
    else
      NatToString(seconds) + "s"
  }

  lemma DurationUnderASecond()
    ensures Duration(0) == "0s"
    ensures Duration(1500) == "1s"
  {
    assert NatToString(0) == "0" && NatToString(1) == "1";
  }

  lemma DurationMinutes()
    ensures Duration(65000) == "1m 5s"
  {
    assert NatToString(1) == "1" && NatToString(5) == "5";
  }

  lemma DurationHours()
    ensures Duration(3665000) == "1h 1m 5s"
  {
    assert NatToString(1) == "1" && NatToString(5) == "5";
    assert 3665000 / 1000 == 3665 && 3665 / 60 == 61 && 61 / 60 == 1;
  }

  // ---------------------------------------------------------------------------
  // Single values

  /** `buildStatus`: an icon for the four known results, `? <status>` for anything else. */
  function BuildStatus(status: string): (r: Segment)
    ensures Contains(r.text, status)
    ensures r.style == Green <==> status == "SUCCESS"
    ensures r.style == Red <==> status == "FAILURE"
    ensures r.style == Yellow <==> status == "UNSTABLE"
    ensures r.style == Gray <==> status != "SUCCESS" && status != "FAILURE" && status != "UNSTABLE"
    ensures status == "SUCCESS" ==> r == Segment(Green, "✓ " + status)
    ensures status == "FAILURE" ==> r == Segment(Red, "✗ " + status)
    ensures status == "UNSTABLE" ==> r == Segment(Yellow, "⚠ " + status)
    ensures status == "ABORTED" ==> r == Segment(Gray, "⊗ " + status)
  {
    match status
    case "SUCCESS" => ContainsSuffix("✓ ", status); Segment(Green, "✓ " + status)
    case "FAILURE" => ContainsSuffix("✗ ", status); Segment(Red, "✗ " + status)
    case "UNSTABLE" => ContainsSuffix("⚠ ", status); Segment(Yellow, "⚠ " + status)
    case "ABORTED" => ContainsSuffix("⊗ ", status); Segment(Gray, "⊗ " + status)
    case _ => ContainsSuffix("? ", status); Segment(Gray, "? " + status)
  }

  /** An unknown status is shown after a question mark. */
  lemma BuildStatusUnknown(status: string)
    requires status !in ["SUCCESS", "FAILURE", "UNSTABLE", "ABORTED"]
    ensures BuildStatus(status) == Segment(Gray, "? " + status)
  {
  }

  const DefaultSeparatorChar: string := "━"
  const DefaultSeparatorLength: nat := 80

  /** `separator(char, length)`: `char` repeated `length` times, in blue. */
  function Separator(c: string, length: nat): (r: Segment)
    ensures r.style == Blue
    ensures |r.text| == |c| * length
    ensures |c| == 1 ==> forall k :: 0 <= k < |r.text| ==> r.text[k] == c[0]
  {
    Segment(Blue, Repeat(c, length))
  }

  /** With no arguments the separator is eighty heavy horizontal bars. */
  lemma DefaultSeparator()
    ensures |Separator(DefaultSeparatorChar, DefaultSeparatorLength).text| == 80
    ensures forall k :: 0 <= k < 80 ==> Separator(DefaultSeparatorChar, DefaultSeparatorLength).text[k] == '━'
  {
  }

  const DefaultEmptyText: string := "-"

  /** `value || chalk.gray(emptyText)`: the value itself, or the placeholder in gray. */
  function ValueOrEmpty(value: Option<string>, emptyText: string): (r: Segment)
    ensures Truthy(value) ==> r == Segment(Plain, value.value)
    ensures !Truthy(value) ==> r == Segment(Gray, emptyText)
  {
    if Truthy(value) then Segment(Plain, value.value) else Segment(Gray, emptyText)
  }

  /** `field(caption, value, emptyText)`: the bold caption, a space, and the value or placeholder. */
  function Field(caption: string, value: Option<string>, emptyText: string): (r: Line)
    ensures |r| == 3 && r[0] == Segment(Bold, caption)
    ensures Text(r) == caption + " " + (if Truthy(value) then value.value else emptyText)
  {
    TextOfThree(Segment(Bold, caption), Segment(Plain, " "), ValueOrEmpty(value, emptyText));
    [Segment(Bold, caption), Segment(Plain, " "), ValueOrEmpty(value, emptyText)]
  }

  /** `boolean(value, yesText, noText)`. */
  function Boolean(value: bool, yesText: string, noText: string): (r: Segment)
    ensures r.text == (if value then yesText else noText)
    ensures r.style == (if value then Green else Red)
  {
    if value then Segment(Green, yesText) else Segment(Red, noText)
  }

  const DefaultYesText: string := "Sí"
  const DefaultNoText: string := "No"

  /** A parameter default as Jenkins reports it. */
  datatype Scalar = SBool(b: bool) | SStr(s: string) | SInt(i: int) | SNull | SUndefined

  /** `String(value)`. */
  function ScalarString(v: Scalar): string {
    match v
    case SBool(b) => if b then "true" else "false"
    case SStr(s) => s
    case SInt(i) => IntToString(i)
    case SNull => "null"
    case SUndefined => "undefined"
  }

  /** `defaultValue`: booleans in green or red, everything else in yellow; always `String(value)`. */
  function DefaultValue(value: Scalar): (r: Segment)
    ensures r.text == ScalarString(value)
    ensures value.SBool? ==> r.style == (if value.b then Green else Red)
    ensures !value.SBool? ==> r.style == Yellow
  {
    match value
    case SBool(b) => if b then Segment(Green, "true") else Segment(Red, "false")
    case _ => Segment(Yellow, ScalarString(value))
  }

  // ---------------------------------------------------------------------------
  // Tables

  /** One `[caption, value]` row; the value may be the gray placeholder. */
  datatype Row = Row(caption: string, value: Segment)

  /** `${chalk.bold(caption)} ${value}`. */
  function RowLine(row: Row): Line {
    [Segment(Bold, row.caption), Segment(Plain, " "), row.value]
  }

  function RowText(row: Row): string {
    row.caption + " " + row.value.text
  }

  /** `rows.map(...).join('\n')`. */
  function RenderRows(rows: seq<Row>): (r: Line)
    ensures Text(r) == Join(Map(rows, RowText), '\n')
    decreases |rows|
  {
    if rows == [] then []
    else if |rows| == 1 then
      TextOfThree(Segment(Bold, rows[0].caption), Segment(Plain, " "), rows[0].value);
      RowLine(rows[0])
    else
      var rest := RenderRows(rows[1..]);
      TextConcat(RowLine(rows[0]) + [Segment(Plain, "\n")], rest);
      TextConcat(RowLine(rows[0]), [Segment(Plain, "\n")]);
      TextOfThree(Segment(Bold, rows[0].caption), Segment(Plain, " "), rows[0].value);
      assert Text([Segment(Plain, "\n")]) == "\n" by { assert [Segment(Plain, "\n")][..0] == []; }
      assert Map(rows, RowText)[1..] == Map(rows[1..], RowText);
      RowLine(rows[0]) + [Segment(Plain, "\n")] + rest
  }

  /** Rows without line breaks come out one per line, in insertion order. */
  lemma OneLinePerRow(rows: seq<Row>)
    requires |rows| >= 1
    requires forall i :: 0 <= i < |rows| ==> '\n' !in RowText(rows[i])
    ensures Split(Text(RenderRows(rows)), '\n') == Map(rows, RowText)
  {
    JoinSplit(Map(rows, RowText), '\n');
  }

  /** Appending a row appends its line, after a line break when there were rows already. */
  lemma {:induction false} RenderAppend(rows: seq<Row>, row: Row)
    ensures Text(RenderRows(rows + [row]))
         == if rows == [] then RowText(row) else Text(RenderRows(rows)) + "\n" + RowText(row)
    decreases |rows|
  {
    var all := rows + [row];
    if rows == [] {
      assert all == [row];
    } else {
      var names := Map(rows, RowText);
      assert Map(all, RowText) == names + [RowText(row)];
      JoinAppend(names, RowText(row), '\n');
    }
  }

  /** `TableBuilder`: a growing list of rows. */
  class TableBuilder {
    var rows: seq<Row>

    constructor ()
      ensures rows == []
    {
      rows := [];
    }

    /** `add`: appends exactly one row and returns the same builder. */
    method Add(caption: string, value: Option<string>, emptyText: string) returns (self: TableBuilder)
      modifies this
      ensures self == this
      ensures rows == old(rows) + [Row(caption, ValueOrEmpty(value, emptyText))]
      ensures Text(Build()) == if old(rows) == [] then RowText(Row(caption, ValueOrEmpty(value, emptyText)))
                               else old(Text(Build())) + "\n" + RowText(Row(caption, ValueOrEmpty(value, emptyText)))
    {
      var row := Row(caption, ValueOrEmpty(value, emptyText));
      RenderAppend(rows, row);
      rows := rows + [row];
      return this;
    }

    /** `build`: the rows' lines joined by line breaks. */
    function Build(): (r: Line)
      reads this
      ensures Text(r) == Join(Map(rows, RowText), '\n')
    {
      RenderRows(rows)
    }
  }
}
