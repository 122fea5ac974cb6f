/** The raw-load stage: column labels are normalised, the free-text columns
    are filled and turned into text, the date columns are parsed and two
    durations derived, and the four note columns are joined into one
    unified text column. The frame is a class whose columns the stage
    rewrites in place. */
module RawLoad {
  import opened Fields
  import opened Text

  /** One cell of the frame: missing (NaN, None, NaT), text, a number, or a
      timestamp in nanoseconds. */
  datatype Cell = Na | Str(s: string) | Number(x: real) | Time(ns: int)

  /** The frame's labels and columns, as values. */
  datatype Table = Table(names: seq<string>, cols: seq<seq<Cell>>)

  predicate WellFormed(t: Table, rows: nat) {
    |t.names| == |t.cols| && forall i :: 0 <= i < |t.cols| ==> |t.cols[i]| == rows
  }

  /** Position of the first column carrying `name`; `|names|` when none does. */
  function Find(names: seq<string>, name: string): (i: nat)
    ensures i <= |names|
    ensures i < |names| ==> names[i] == name
    ensures forall k :: 0 <= k < i ==> names[k] != name
    ensures i == |names| <==> name !in names
    decreases |names|
  {
    if names == [] then 0
    else if names[0] == name then 0
    else 1 + Find(names[1..], name)
  }

  /** Assigning a column by label: every column already carrying the label
      is overwritten, otherwise the column is appended at the end. */
  function SetColumn(t: Table, name: string, col: seq<Cell>): (r: Table)
    requires |t.names| == |t.cols|
    ensures |r.names| == |r.cols|
    ensures name in r.names
    ensures name in t.names ==> r.names == t.names
    ensures name !in t.names ==> r.names == t.names + [name] && r.cols == t.cols + [col]
    ensures forall i :: 0 <= i < |t.cols| ==> r.cols[i] == (if t.names[i] == name then col else t.cols[i])
  {
    if name in t.names then
      Table(t.names, seq(|t.cols|, i requires 0 <= i < |t.cols| => if t.names[i] == name then col else t.cols[i]))
    else
      Table(t.names + [name], t.cols + [col])
  }

  lemma SetColumnWellFormed(t: Table, rows: nat, name: string, col: seq<Cell>)
    requires WellFormed(t, rows) && |col| == rows
    ensures WellFormed(SetColumn(t, name, col), rows)
    ensures Find(SetColumn(t, name, col).names, name) < |SetColumn(t, name, col).cols|
    ensures SetColumn(t, name, col).cols[Find(SetColumn(t, name, col).names, name)] == col
  {
    var r := SetColumn(t, name, col);
    var i := Find(r.names, name);
    if i < |t.cols| {
      assert t.names[i] == name;
    }
  }

  /** Assigning one label leaves every other label's first column where it
      was, with the same contents. */
  lemma SetColumnElsewhere(t: Table, name: string, col: seq<Cell>, other: string)
    requires |t.names| == |t.cols| && other != name
    ensures (other in SetColumn(t, name, col).names) == (other in t.names)
    ensures other in t.names ==> Find(SetColumn(t, name, col).names, other) == Find(t.names, other)
    ensures other in t.names ==> SetColumn(t, name, col).cols[Find(t.names, other)] == t.cols[Find(t.names, other)]
  {
    var r := SetColumn(t, name, col);
    var f := Find(t.names, other);
    if f < |t.names| {
      assert r.names[f] == t.names[f];
      assert forall k :: 0 <= k < f ==> r.names[k] == t.names[k];
      FindUnique(r.names, other, f);
    }
  }

  lemma FindUnique(names: seq<string>, name: string, i: nat)
    requires i < |names| && names[i] == name
    requires forall k :: 0 <= k < i ==> names[k] != name
    ensures Find(names, name) == i
  {
  }

  /** `df[c] = f(df[c])` for one label: every column carrying it is
      rewritten by `f`. */
  function ApplyTo(t: Table, c: string, f: seq<Cell> -> seq<Cell>): Table
    requires |t.names| == |t.cols|
  {
    Table(t.names, seq(|t.cols|, i requires 0 <= i < |t.cols| => if t.names[i] == c then f(t.cols[i]) else t.cols[i]))
  }

  /** The state after the loop has handled the first `n` labels of `labels`. */
  function ApplyUpTo(t: Table, labels: seq<string>, n: nat, f: seq<Cell> -> seq<Cell>): Table
    requires |t.names| == |t.cols| && n <= |labels|
  {
    Table(t.names, seq(|t.cols|, i requires 0 <= i < |t.cols| => if t.names[i] in labels[..n] then f(t.cols[i]) else t.cols[i]))
  }

  /** One turn of such a loop: when `f` settles after one application, the
      next label extends the handled prefix by one. */
  lemma ApplyStep(t: Table, labels: seq<string>, n: nat, f: seq<Cell> -> seq<Cell>)
    requires |t.names| == |t.cols| && n < |labels|
    requires forall i :: 0 <= i < |t.cols| ==> f(f(t.cols[i])) == f(t.cols[i])
    ensures ApplyTo(ApplyUpTo(t, labels, n, f), labels[n], f) == ApplyUpTo(t, labels, n + 1, f)
  {
    assert labels[..n + 1] == labels[..n] + [labels[n]];
  }

  // ---------------------------------------------------------------------
  // Column labels
  // ---------------------------------------------------------------------

  function ReplaceChar(s: string, a: char, b: char): string {
    seq(|s|, i requires 0 <= i < |s| => if s[i] == a then b else s[i])
  }

  /** A label after `strip`, `lower` and the replacement of space, slash and
      hyphen by underscore. */
  function NormalizeName(s: string): (n: string)
    ensures |n| == |Strip(s)|
    ensures IsLowerCase(n)
    ensures ' ' !in n && '/' !in n && '-' !in n
    ensures n != "" ==> !IsSpace(n[0]) && !IsSpace(n[|n| - 1])
    ensures forall k :: 0 <= k < |n| ==>
      n[k] == (if Strip(s)[k] in {' ', '/', '-'} then '_' else LowerChar(Strip(s)[k]))
  {
    StripEnds(s);
    ReplaceChar(ReplaceChar(ReplaceChar(Lower(Strip(s)), ' ', '_'), '/', '_'), '-', '_')
  }

  lemma StripEnds(s: string)
    ensures Strip(s) != "" ==> !IsSpace(Strip(s)[0]) && !IsSpace(Strip(s)[|Strip(s)| - 1])
  {
    var i, j := StripShape(s);
  }

  lemma StripTrimmed(s: string)
    requires s != "" ==> !IsSpace(s[0]) && !IsSpace(s[|s| - 1])
    ensures Strip(s) == s
  {
    var i, j := StripShape(s);
  }

  /** Normalising a normalised label changes nothing. */
  lemma NormalizeIdempotent(s: string)
    ensures NormalizeName(NormalizeName(s)) == NormalizeName(s)
  {
    var n := NormalizeName(s);
    StripTrimmed(n);
    LowerOfLowerCase(n);
  }

  /** Examples of the export's labels: spaces and slashes become
      underscores and letters are lowered. */
  lemma NormalizeWorkNotes()
    ensures NormalizeName("Work Notes") == "work_notes"
  {
    StripTrimmed("Work Notes");
  }

  lemma NormalizeOpenedAt()
    ensures NormalizeName(" Opened/At ") == "opened_at"
  {
    StripTrimmed("Opened/At");
    assert Strip(" Opened/At ") == "Opened/At";
  }

  function NormalizeAll(names: seq<string>): (r: seq<string>)
    ensures |r| == |names|
    ensures forall i :: 0 <= i < |names| ==> r[i] == NormalizeName(names[i])
  {
    seq(|names|, i requires 0 <= i < |names| => NormalizeName(names[i]))
  }

  // ---------------------------------------------------------------------
  // Text columns
  // ---------------------------------------------------------------------

  const TEXT_COLS: seq<string> := ["short_description", "work_notes", "comments", "comments_and_work_notes", "resolution_notes", "timeline"]

  /** `fillna("")` then `astype(str)`: missing becomes the empty text, text
      stays, and any other value becomes its rendering by `show`. */
  function CleanCell(c: Cell, show: Cell -> string): (r: Cell)
    ensures r.Str?
    ensures c.Str? ==> r == c
    ensures c.Na? ==> r == Str("")
  {
    match c
    case Na => Str("")
    case Str(s) => c
    case _ => Str(show(c))
  }

  function CleanColumn(col: seq<Cell>, show: Cell -> string): (r: seq<Cell>)
    ensures |r| == |col|
    ensures forall k :: 0 <= k < |col| ==> r[k] == CleanCell(col[k], show)
  {
    seq(|col|, k requires 0 <= k < |col| => CleanCell(col[k], show))
  }

  predicate AllText(col: seq<Cell>) {
    forall k :: 0 <= k < |col| ==> col[k].Str?
  }

  /** A cleaned column holds only text, and cleaning it again changes
      nothing. */
  lemma CleanColumnSettles(col: seq<Cell>, show: Cell -> string)
    ensures AllText(CleanColumn(col, show))
    ensures CleanColumn(CleanColumn(col, show), show) == CleanColumn(col, show)
  {
  }

  /** Every column whose label is a text column is cleaned; the others are
      kept. */
  function Cleaned(t: Table, show: Cell -> string): (r: Table)
    requires |t.names| == |t.cols|
    ensures r.names == t.names && |r.cols| == |t.cols|
  {
    Table(t.names, seq(|t.cols|, i requires 0 <= i < |t.cols| =>
      if t.names[i] in TEXT_COLS then CleanColumn(t.cols[i], show) else t.cols[i]))
  }

  /** After cleaning, every text column present holds only text, and the
      other columns are untouched. */
  lemma CleanedColumns(t: Table, rows: nat, show: Cell -> string)
    requires WellFormed(t, rows)
    ensures WellFormed(Cleaned(t, show), rows)
    ensures forall i :: 0 <= i < |t.cols| && t.names[i] in TEXT_COLS ==> AllText(Cleaned(t, show).cols[i])
    ensures forall i :: 0 <= i < |t.cols| && t.names[i] !in TEXT_COLS ==> Cleaned(t, show).cols[i] == t.cols[i]
  {
    forall i | 0 <= i < |t.cols| && t.names[i] in TEXT_COLS
      ensures AllText(Cleaned(t, show).cols[i])
    {
      CleanColumnSettles(t.cols[i], show);
    }
  }

  // ---------------------------------------------------------------------
  // Dates and durations
  // ---------------------------------------------------------------------

  const DATE_COLS: seq<string> := ["opened", "updated", "resolved_at", "closed_at"]

  const NS_PER_HOUR: real := 3_600_000_000_000.0

  /** `total_seconds() / 3600` of a duration held in nanoseconds. */
  function NsToHours(ns: int): real {
    ns as real / NS_PER_HOUR
  }

  /** `to_dt`: a timestamp stays, a missing value stays missing, anything
      else goes to the date parser, and a value it rejects becomes NaT. */
  function ToDt(c: Cell, parse: Cell -> Option<int>): (r: Cell)
    ensures r.Na? || r.Time?
    ensures c.Time? ==> r == c
    ensures c.Na? ==> r.Na?
    ensures !c.Time? && parse(c).None? ==> r.Na?
    ensures r.Time? && !c.Time? ==> !c.Na? && parse(c) == Some(r.ns)
  {
    match c
    case Time(_) => c
    case Na => Na
    case _ => if parse(c).Some? then Time(parse(c).value) else Na
  }

  function ToDtColumn(col: seq<Cell>, parse: Cell -> Option<int>): (r: seq<Cell>)
    ensures |r| == |col|
    ensures forall k :: 0 <= k < |col| ==> r[k] == ToDt(col[k], parse)
  {
    seq(|col|, k requires 0 <= k < |col| => ToDt(col[k], parse))
  }

  lemma ToDtSettles(col: seq<Cell>, parse: Cell -> Option<int>)
    ensures ToDtColumn(ToDtColumn(col, parse), parse) == ToDtColumn(col, parse)
  {
  }

  /** `(end - start).dt.total_seconds() / 3600`: hours between two
      timestamps, NaN when either is missing. A negative duration is kept. */
  function Hours(end: Cell, start: Cell): (r: Cell)
    ensures r.Na? <==> !(end.Time? && start.Time?)
  {
    if end.Time? && start.Time? then Number(NsToHours(end.ns - start.ns)) else Na
  }

  /** The duration column from `startName` to `endName`, or NaN throughout
      when either column is absent. */
  function HoursColumn(t: Table, rows: nat, endName: string, startName: string): (r: seq<Cell>)
    requires WellFormed(t, rows)
    ensures |r| == rows
    ensures endName !in t.names || startName !in t.names ==> forall k :: 0 <= k < rows ==> r[k].Na?
    ensures endName in t.names && startName in t.names ==> forall k :: 0 <= k < rows ==>
              r[k] == Hours(t.cols[Find(t.names, endName)][k], t.cols[Find(t.names, startName)][k])
  {
    if endName in t.names && startName in t.names then
      var e := t.cols[Find(t.names, endName)];
      var s := t.cols[Find(t.names, startName)];
      seq(rows, k requires 0 <= k < rows => Hours(e[k], s[k]))
    else
      seq(rows, k => Na)
  }

  function Converted(t: Table, parse: Cell -> Option<int>): (r: Table)
    requires |t.names| == |t.cols|
    ensures r.names == t.names && |r.cols| == |t.cols|
  {
    Table(t.names, seq(|t.cols|, i requires 0 <= i < |t.cols| =>
      if t.names[i] in DATE_COLS then ToDtColumn(t.cols[i], parse) else t.cols[i]))
  }

  /** The whole date step: conversion, then the MTTR column, then the
      response-time column, both computed from the converted columns. */
  function WithDurations(t: Table, rows: nat, parse: Cell -> Option<int>): Table
    requires WellFormed(t, rows)
  {
    ConvertedWellFormed(t, rows, parse);
    AddDurations(Converted(t, parse), rows)
  }

  /** The two duration columns, both computed from the converted frame. */
  function AddDurations(c: Table, rows: nat): Table
    requires WellFormed(c, rows)
  {
    var m := SetColumn(c, "mttr_hours", HoursColumn(c, rows, "resolved_at", "opened"));
    SetColumn(m, "response_time_hours", HoursColumn(c, rows, "updated", "opened"))
  }

  lemma ConvertedWellFormed(t: Table, rows: nat, parse: Cell -> Option<int>)
    requires WellFormed(t, rows)
    ensures WellFormed(Converted(t, parse), rows)
    ensures forall i :: 0 <= i < |t.cols| && t.names[i] !in DATE_COLS ==> Converted(t, parse).cols[i] == t.cols[i]
  {
  }

  lemma WithDurationsWellFormed(t: Table, rows: nat, parse: Cell -> Option<int>)
    requires WellFormed(t, rows)
    ensures WellFormed(WithDurations(t, rows, parse), rows)
  {
    var c := Converted(t, parse);
    ConvertedWellFormed(t, rows, parse);
    var h := HoursColumn(c, rows, "resolved_at", "opened");
    SetColumnWellFormed(c, rows, "mttr_hours", h);
    SetColumnWellFormed(SetColumn(c, "mttr_hours", h), rows, "response_time_hours", HoursColumn(c, rows, "updated", "opened"));
  }

  lemma TextColsAreNotDates(name: string)
    requires name in TEXT_COLS
    ensures name !in DATE_COLS && name != "mttr_hours" && name != "response_time_hours"
  {
  }

  /** The date step leaves every text column as it found it. */
  lemma DurationsKeepText(t: Table, rows: nat, parse: Cell -> Option<int>, i: nat)
    requires WellFormed(t, rows) && i < |t.cols| && t.names[i] in TEXT_COLS
    ensures i < |WithDurations(t, rows, parse).cols|
    ensures WithDurations(t, rows, parse).names[i] == t.names[i]
    ensures WithDurations(t, rows, parse).cols[i] == t.cols[i]
  {
    TextColsAreNotDates(t.names[i]);
    var c := Converted(t, parse);
    ConvertedWellFormed(t, rows, parse);
    assert c.cols[i] == t.cols[i];
    var m := SetColumn(c, "mttr_hours", HoursColumn(c, rows, "resolved_at", "opened"));
    assert m.names[i] == t.names[i] && m.cols[i] == t.cols[i];
  }

  lemma ConvertedKeepsTime(t: Table, rows: nat, parse: Cell -> Option<int>, name: string, k: nat, v: int)
    requires WellFormed(t, rows) && k < rows && name in DATE_COLS && name in t.names
    requires t.cols[Find(t.names, name)][k] == Time(v)
    ensures Converted(t, parse).cols[Find(t.names, name)][k] == Time(v)
  {
  }

  lemma HoursAt(c: Table, rows: nat, endName: string, startName: string, k: nat, e: int, s: int)
    requires WellFormed(c, rows) && k < rows && endName in c.names && startName in c.names
    requires c.cols[Find(c.names, endName)][k] == Time(e)
    requires c.cols[Find(c.names, startName)][k] == Time(s)
    ensures HoursColumn(c, rows, endName, startName)[k] == Number(NsToHours(e - s))
  {
  }

  /** The MTTR column of the date step is the duration column computed
      from the converted frame. */
  lemma MttrColumn(t: Table, rows: nat, parse: Cell -> Option<int>)
    requires WellFormed(t, rows)
    ensures var r := WithDurations(t, rows, parse);
            var m := Find(r.names, "mttr_hours");
            m < |r.cols| && r.cols[m] == HoursColumn(Converted(t, parse), rows, "resolved_at", "opened")
  {
    var c := Converted(t, parse);
    ConvertedWellFormed(t, rows, parse);
    var h := HoursColumn(c, rows, "resolved_at", "opened");
    var m := SetColumn(c, "mttr_hours", h);
    SetColumnWellFormed(c, rows, "mttr_hours", h);
    SetColumnElsewhere(m, "response_time_hours", HoursColumn(c, rows, "updated", "opened"), "mttr_hours");
  }

  /** The MTTR of a row with both timestamps is the difference in hours,
      even when the ticket was resolved before it was opened. */
  lemma MttrOfRow(t: Table, rows: nat, parse: Cell -> Option<int>, k: nat, openedAt: int, resolvedAt: int)
    requires WellFormed(t, rows) && k < rows
    requires "opened" in t.names && "resolved_at" in t.names
    requires t.cols[Find(t.names, "opened")][k] == Time(openedAt)
    requires t.cols[Find(t.names, "resolved_at")][k] == Time(resolvedAt)
    ensures var r := WithDurations(t, rows, parse);
            var m := Find(r.names, "mttr_hours");
            m < |r.cols| && k < |r.cols[m]| && r.cols[m][k] == Number(NsToHours(resolvedAt - openedAt))
  {
    ConvertedWellFormed(t, rows, parse);
    ConvertedKeepsTime(t, rows, parse, "opened", k, openedAt);
    ConvertedKeepsTime(t, rows, parse, "resolved_at", k, resolvedAt);
    HoursAt(Converted(t, parse), rows, "resolved_at", "opened", k, resolvedAt, openedAt);
    MttrColumn(t, rows, parse);
  }

  /** Assigning a column keeps every label in place and can only add that
      label at the end. */
  lemma SetColumnLayout(t: Table, name: string, col: seq<Cell>)
    requires |t.names| == |t.cols|
    ensures var r := SetColumn(t, name, col);
            |t.names| <= |r.names| &&
            (forall i :: 0 <= i < |t.names| ==> r.names[i] == t.names[i]) &&
            forall i :: |t.names| <= i < |r.names| ==> r.names[i] == name
  {
  }

  /** The date step keeps every label in place and can only add the two
      duration labels at the end. */
  lemma DurationNames(t: Table, rows: nat, parse: Cell -> Option<int>)
    requires WellFormed(t, rows)
    ensures var r := WithDurations(t, rows, parse);
            |t.names| <= |r.names| &&
            (forall i :: 0 <= i < |t.names| ==> r.names[i] == t.names[i]) &&
            forall i :: |t.names| <= i < |r.names| ==> r.names[i] == "mttr_hours" || r.names[i] == "response_time_hours"
  {
    var c := Converted(t, parse);
    ConvertedWellFormed(t, rows, parse);
    var m := SetColumn(c, "mttr_hours", HoursColumn(c, rows, "resolved_at", "opened"));
    SetColumnLayout(c, "mttr_hours", HoursColumn(c, rows, "resolved_at", "opened"));
    SetColumnLayout(m, "response_time_hours", HoursColumn(c, rows, "updated", "opened"));
  }

  /** Assigning a non-text label keeps every all-text text column. */
  lemma SetColumnKeepsText(t: Table, name: string, col: seq<Cell>)
    requires |t.names| == |t.cols| && name !in TEXT_COLS
    requires forall i :: 0 <= i < |t.cols| && t.names[i] in TEXT_COLS ==> AllText(t.cols[i])
    ensures var r := SetColumn(t, name, col);
            forall i :: 0 <= i < |r.cols| && r.names[i] in TEXT_COLS ==> AllText(r.cols[i])
  {
    SetColumnLayout(t, name, col);
  }

  /** The date conversion leaves the text columns alone. */
  lemma ConvertedKeepsText(t: Table, rows: nat, parse: Cell -> Option<int>)
    requires WellFormed(t, rows)
    requires forall i :: 0 <= i < |t.cols| && t.names[i] in TEXT_COLS ==> AllText(t.cols[i])
    ensures forall i :: 0 <= i < |t.cols| && t.names[i] in TEXT_COLS ==> AllText(Converted(t, parse).cols[i])
  {
    forall i | 0 <= i < |t.cols| && t.names[i] in TEXT_COLS
      ensures Converted(t, parse).cols[i] == t.cols[i]
    {
      TextColsAreNotDates(t.names[i]);
    }
  }

  /** Text columns that hold only text still do after the date step. */
  lemma DurationsKeepAllText(t: Table, rows: nat, parse: Cell -> Option<int>)
    requires WellFormed(t, rows)
    requires forall i :: 0 <= i < |t.cols| && t.names[i] in TEXT_COLS ==> AllText(t.cols[i])
    ensures var r := WithDurations(t, rows, parse);
            forall i :: 0 <= i < |r.cols| && i < |r.names| && r.names[i] in TEXT_COLS ==> AllText(r.cols[i])
  {
    ConvertedWellFormed(t, rows, parse);
    ConvertedKeepsText(t, rows, parse);
    AddDurationsKeepText(Converted(t, parse), rows);
  }

  lemma AddDurationsKeepText(c: Table, rows: nat)
    requires WellFormed(c, rows)
    requires forall i :: 0 <= i < |c.cols| && c.names[i] in TEXT_COLS ==> AllText(c.cols[i])
    ensures var r := AddDurations(c, rows);
            forall i :: 0 <= i < |r.cols| && r.names[i] in TEXT_COLS ==> AllText(r.cols[i])
  {
    TwoColumnsKeepText(c, HoursColumn(c, rows, "resolved_at", "opened"), HoursColumn(c, rows, "updated", "opened"));
  }

  lemma TwoColumnsKeepText(c: Table, h1: seq<Cell>, h2: seq<Cell>)
    requires |c.names| == |c.cols|
    requires forall i :: 0 <= i < |c.cols| && c.names[i] in TEXT_COLS ==> AllText(c.cols[i])
    ensures var r := SetColumn(SetColumn(c, "mttr_hours", h1), "response_time_hours", h2);
            forall i :: 0 <= i < |r.cols| && r.names[i] in TEXT_COLS ==> AllText(r.cols[i])
  {
    SetColumnKeepsText(c, "mttr_hours", h1);
    SetColumnKeepsText(SetColumn(c, "mttr_hours", h1), "response_time_hours", h2);
  }


  // ---------------------------------------------------------------------
  // Unified notes
  // ---------------------------------------------------------------------

  /** The order in which the raw-load stage joins the notes. */
  const UNIFIED_PARTS: seq<string> := ["work_notes", "resolution_notes", "comments_and_work_notes", "comments"]

  /** `df.get(name, "")` at one row: the first column with that label, or
      the empty text when there is none. */
  function Part(t: Table, rows: nat, name: string, k: nat): Cell
    requires WellFormed(t, rows) && k < rows
  {
    if name in t.names then t.cols[Find(t.names, name)][k] else Str("")
  }

  /** Element-wise `+` of two text cells; a missing operand gives a missing
      result. */
  function Cat(a: Cell, b: Cell): (r: Cell)
    ensures r.Str? <==> a.Str? && b.Str?
    ensures r.Str? ==> r.s == a.s + b.s
  {
    if a.Str? && b.Str? then Str(a.s + b.s) else Na
  }

  function TextOf(c: Cell): string {
    if c.Str? then c.s else ""
  }

  function UnifiedCell(t: Table, rows: nat, k: nat): Cell
    requires WellFormed(t, rows) && k < rows
  {
    var nl := Str("\n");
    Cat(Cat(Cat(Cat(Cat(Cat(Part(t, rows, "work_notes", k), nl), Part(t, rows, "resolution_notes", k)), nl),
      Part(t, rows, "comments_and_work_notes", k)), nl), Part(t, rows, "comments", k))
  }

  function UnifiedColumn(t: Table, rows: nat): (r: seq<Cell>)
    requires WellFormed(t, rows)
    ensures |r| == rows
  {
    seq(rows, k requires 0 <= k < rows => UnifiedCell(t, rows, k))
  }

  /** When the four note columns hold only text, each unified cell is the
      four notes joined by newlines, an absent column counting as "". */
  lemma UnifiedIsJoin(t: Table, rows: nat, k: nat)
    requires WellFormed(t, rows) && k < rows
    requires forall i :: 0 <= i < |t.cols| && t.names[i] in TEXT_COLS ==> AllText(t.cols[i])
    ensures UnifiedCell(t, rows, k) ==
      Str(TextOf(Part(t, rows, "work_notes", k)) + "\n" + TextOf(Part(t, rows, "resolution_notes", k)) + "\n" +
          TextOf(Part(t, rows, "comments_and_work_notes", k)) + "\n" + TextOf(Part(t, rows, "comments", k)))
  {
    forall name | name in UNIFIED_PARTS
      ensures Part(t, rows, name, k).Str?
    {
      if name in t.names {
        var i := Find(t.names, name);
        assert t.names[i] in TEXT_COLS;
      }
    }
    assert UNIFIED_PARTS[1] == "resolution_notes" && UNIFIED_PARTS[2] == "comments_and_work_notes";
    assert UNIFIED_PARTS[0] == "work_notes" && UNIFIED_PARTS[3] == "comments";
  }

  /** When every text column holds only text, so does the unified column. */
  lemma UnifiedAllText(t: Table, rows: nat)
    requires WellFormed(t, rows)
    requires forall i :: 0 <= i < |t.cols| && t.names[i] in TEXT_COLS ==> AllText(t.cols[i])
    ensures AllText(UnifiedColumn(t, rows))
  {
    forall k | 0 <= k < rows
      ensures UnifiedColumn(t, rows)[k].Str?
    {
      UnifiedIsJoin(t, rows, k);
    }
  }

  // ---------------------------------------------------------------------
  // The stage end to end
  // ---------------------------------------------------------------------

  /** The first three steps on a value: labels normalised, text columns
      cleaned, dates converted and the two durations assigned. */
  function CleanedAndDated(t: Table, rows: nat, show: Cell -> string, parse: Cell -> Option<int>): (w: Table)
    requires WellFormed(t, rows)
    ensures WellFormed(w, rows)
    ensures forall i :: 0 <= i < |w.cols| && w.names[i] in TEXT_COLS ==> AllText(w.cols[i])
  {
    var n := Table(NormalizeAll(t.names), t.cols);
    CleanedColumns(n, rows, show);
    WithDurationsWellFormed(Cleaned(n, show), rows, parse);
    DurationsKeepAllText(Cleaned(n, show), rows, parse);
    WithDurations(Cleaned(n, show), rows, parse)
  }

  /** The four steps on a value: the unified text is built from the cleaned
      and dated frame. */
  function Prepared(t: Table, rows: nat, show: Cell -> string, parse: Cell -> Option<int>): (r: Table)
    requires WellFormed(t, rows)
    ensures WellFormed(r, rows)
    ensures "unified_text" in r.names && AllText(r.cols[Find(r.names, "unified_text")])
  {
    var w := CleanedAndDated(t, rows, show, parse);
    UnifiedAllText(w, rows);
    SetColumnWellFormed(w, rows, "unified_text", UnifiedColumn(w, rows));
    SetColumn(w, "unified_text", UnifiedColumn(w, rows))
  }

  /** Cleaning turns a text column's cell into its cleaned text, and an
      absent text column still reads as "". */
  lemma PartAfterCleaning(t: Table, rows: nat, show: Cell -> string, name: string, k: nat)
    requires WellFormed(t, rows) && k < rows && name in TEXT_COLS
    ensures WellFormed(Cleaned(t, show), rows)
    ensures Part(Cleaned(t, show), rows, name, k) == CleanCell(Part(t, rows, name, k), show)
  {
    CleanedColumns(t, rows, show);
  }

  /** The date step leaves what a text label reads as unchanged. */
  lemma PartAfterDates(c: Table, rows: nat, parse: Cell -> Option<int>, name: string, k: nat)
    requires WellFormed(c, rows) && k < rows && name in TEXT_COLS
    ensures WellFormed(WithDurations(c, rows, parse), rows)
    ensures Part(WithDurations(c, rows, parse), rows, name, k) == Part(c, rows, name, k)
  {
    var r := WithDurations(c, rows, parse);
    WithDurationsWellFormed(c, rows, parse);
    DurationNames(c, rows, parse);
    TextColsAreNotDates(name);
    if name in c.names {
      var i := Find(c.names, name);
      DurationsKeepText(c, rows, parse, i);
      FindUnique(r.names, name, i);
    }
  }

  /** After the first three steps a note label reads as the cleaned note of
      the input. */
  lemma DatedPart(t: Table, rows: nat, show: Cell -> string, parse: Cell -> Option<int>, name: string, k: nat)
    requires WellFormed(t, rows) && k < rows && name in TEXT_COLS
    ensures Part(CleanedAndDated(t, rows, show, parse), rows, name, k) ==
            CleanCell(Part(Table(NormalizeAll(t.names), t.cols), rows, name, k), show)
  {
    var n := Table(NormalizeAll(t.names), t.cols);
    PartAfterCleaning(n, rows, show, name, k);
    PartAfterDates(Cleaned(n, show), rows, parse, name, k);
  }

  lemma PreparedCell(t: Table, rows: nat, show: Cell -> string, parse: Cell -> Option<int>, k: nat)
    requires WellFormed(t, rows) && k < rows
    ensures var r := Prepared(t, rows, show, parse);
            r.cols[Find(r.names, "unified_text")][k] == UnifiedCell(CleanedAndDated(t, rows, show, parse), rows, k)
  {
    var w := CleanedAndDated(t, rows, show, parse);
    SetColumnWellFormed(w, rows, "unified_text", UnifiedColumn(w, rows));
  }

  /** Each row's unified text is its four notes, as cleaned, joined by
      newlines in the order work notes, resolution notes, comments and work
      notes, comments; a note column the input lacks counts as "". */
  lemma PreparedUnifiedIsJoin(t: Table, rows: nat, show: Cell -> string, parse: Cell -> Option<int>, k: nat)
    requires WellFormed(t, rows) && k < rows
    ensures var r := Prepared(t, rows, show, parse);
            var n := Table(NormalizeAll(t.names), t.cols);
            r.cols[Find(r.names, "unified_text")][k] ==
              Str(TextOf(CleanCell(Part(n, rows, "work_notes", k), show)) + "\n" +
                  TextOf(CleanCell(Part(n, rows, "resolution_notes", k), show)) + "\n" +
                  TextOf(CleanCell(Part(n, rows, "comments_and_work_notes", k), show)) + "\n" +
                  TextOf(CleanCell(Part(n, rows, "comments", k), show)))
  {
    var w := CleanedAndDated(t, rows, show, parse);
    PreparedCell(t, rows, show, parse, k);
    UnifiedIsJoin(w, rows, k);
    DatedPart(t, rows, show, parse, "work_notes", k);
    DatedPart(t, rows, show, parse, "resolution_notes", k);
    DatedPart(t, rows, show, parse, "comments_and_work_notes", k);
    DatedPart(t, rows, show, parse, "comments", k);
  }

  // ---------------------------------------------------------------------
  // The frame
  // ---------------------------------------------------------------------

  class Frame {
    var names: seq<string>
    var cols: seq<seq<Cell>>
    var rows: nat

    ghost predicate Valid()
      reads this
    {
      WellFormed(Table(names, cols), rows)
    }

    function Snapshot(): Table
      reads this
    {
      Table(names, cols)
    }

    constructor (names0: seq<string>, cols0: seq<seq<Cell>>, rows0: nat)
      requires WellFormed(Table(names0, cols0), rows0)
      ensures Valid() && names == names0 && cols == cols0 && rows == rows0
    {
      names := names0;
      cols := cols0;
      rows := rows0;
    }

    /** `normalize_columns`: every label normalised, the data untouched. */
    method NormalizeColumns()
      requires Valid()
      modifies this
      ensures Valid()
      ensures names == NormalizeAll(old(names)) && cols == old(cols) && rows == old(rows)
    {
      names := NormalizeAll(names);
    }

    /** `clean_text`: the text columns present, one label at a time. */
    method CleanText(show: Cell -> string)
      requires Valid()
      modifies this
      ensures Valid() && rows == old(rows)
      ensures Snapshot() == Cleaned(old(Snapshot()), show)
    {
      ghost var t0 := Snapshot();
      var f := col => CleanColumn(col, show);
      forall i | 0 <= i < |t0.cols| {
        CleanColumnSettles(t0.cols[i], show);
      }
      var k := 0;
      while k < |TEXT_COLS|
        invariant 0 <= k <= |TEXT_COLS| && rows == old(rows)
        invariant Snapshot() == ApplyUpTo(t0, TEXT_COLS, k, f)
      {
        if TEXT_COLS[k] in names {
          var t := ApplyTo(Snapshot(), TEXT_COLS[k], f);
          cols := t.cols;
        }
        ApplyStep(t0, TEXT_COLS, k, f);
        k := k + 1;
      }
      assert TEXT_COLS[..k] == TEXT_COLS;
    }

    /** `process_datetime`: the date columns present are converted one label
      at a time, then the two duration columns are assigned. */
    method ProcessDatetime(parse: Cell -> Option<int>)
      requires Valid()
      modifies this
      ensures Valid() && rows == old(rows)
      ensures Snapshot() == WithDurations(old(Snapshot()), old(rows), parse)
    {
      ghost var t0 := Snapshot();
      var f := col => ToDtColumn(col, parse);
      forall i | 0 <= i < |t0.cols| {
        ToDtSettles(t0.cols[i], parse);
      }
      var k := 0;
      while k < |DATE_COLS|
        invariant 0 <= k <= |DATE_COLS| && rows == old(rows)
        invariant Snapshot() == ApplyUpTo(t0, DATE_COLS, k, f)
      {
        if DATE_COLS[k] in names {
          var t := ApplyTo(Snapshot(), DATE_COLS[k], f);
          cols := t.cols;
        }
        ApplyStep(t0, DATE_COLS, k, f);
        k := k + 1;
      }
      assert DATE_COLS[..k] == DATE_COLS;
      assert Snapshot() == Converted(t0, parse);
      ConvertedWellFormed(t0, rows, parse);
      WithDurationsWellFormed(t0, rows, parse);
      var mttr := HoursColumn(Snapshot(), rows, "resolved_at", "opened");
      var response := HoursColumn(Snapshot(), rows, "updated", "opened");
      var t1 := SetColumn(Snapshot(), "mttr_hours", mttr);
      var t2 := SetColumn(t1, "response_time_hours", response);
      names, cols := t2.names, t2.cols;
    }

    /** `build_unified_notes`: the unified text column is assigned. */
    method BuildUnifiedNotes()
      requires Valid()
      modifies this
      ensures Valid() && rows == old(rows)
      ensures Snapshot() == SetColumn(old(Snapshot()), "unified_text", UnifiedColumn(old(Snapshot()), old(rows)))
    {
      var u := UnifiedColumn(Snapshot(), rows);
      SetColumnWellFormed(Snapshot(), rows, "unified_text", u);
      var t := SetColumn(Snapshot(), "unified_text", u);
      names, cols := t.names, t.cols;
    }

    /** The stage end to end. Afterwards every row carries a unified text,
        the four notes (as cleaned) joined by newlines (`Prepared` and
        `PreparedUnifiedIsJoin`). */
    method Prepare(show: Cell -> string, parse: Cell -> Option<int>)
      requires Valid()
      modifies this
      ensures Valid() && rows == old(rows)
      ensures Snapshot() == Prepared(old(Snapshot()), old(rows), show, parse)
      ensures "unified_text" in names
      ensures AllText(cols[Find(names, "unified_text")])
    {
      NormalizeColumns();
      ghost var t0 := Snapshot();
      CleanText(show);
      CleanedColumns(t0, rows, show);
      ghost var t1 := Snapshot();
      ProcessDatetime(parse);
      DurationsKeepAllText(t1, rows, parse);
      ghost var t2 := Snapshot();
      UnifiedAllText(t2, rows);
      BuildUnifiedNotes();
      SetColumnWellFormed(t2, rows, "unified_text", UnifiedColumn(t2, rows));
    }
  }
}
