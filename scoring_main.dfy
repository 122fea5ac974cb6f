/** The scoring pipeline of the canonical rubric: build the unified note
    text, score the thirteen checkpoints of every ticket, and add
    `qc_total_65`, the sum of every column whose name starts with "qc_". */
module ScoringMain {
  import opened Fields
  import opened Text
  import opened Scoring

  /** One row of the cleaned intermediate table. Text that is absent or NaN
      is the empty string. `numericColumns` are the other numeric columns
      the row already carries, by name. A file written by an earlier run
      also carries the thirteen checkpoint columns, and `qc_total_65` and
      `qc_percent` besides; the latter is a float and cannot be held here. */
  datatype Ticket = Ticket(
    category: string,
    subcategory: string,
    priority: string,
    resolutionNotes: string,
    workNotes: string,
    commentsAndWorkNotes: string,
    comments: string,
    timeline: string,
    mttrHours: Num,
    responseTimeHours: Option<real>,
    numericColumns: seq<(string, int)>)

  /** The unified text: resolution notes, work notes, combined comments and
      comments, joined by newlines. */
  function Unified(t: Ticket): string {
    t.resolutionNotes + "\n" + t.workNotes + "\n" + t.commentsAndWorkNotes + "\n" + t.comments
  }

  /** The unified text starts with the resolution notes, and a keyword found
      in any of the four note fields is found in the unified text. */
  lemma UnifiedKeepsKeywords(t: Ticket, kws: seq<string>)
    ensures Unified(t)[..|t.resolutionNotes|] == t.resolutionNotes
    ensures |Unified(t)| == |t.resolutionNotes| + |t.workNotes| + |t.commentsAndWorkNotes| + |t.comments| + 3
    ensures Contains(t.resolutionNotes, kws) || Contains(t.workNotes, kws) ||
            Contains(t.commentsAndWorkNotes, kws) || Contains(t.comments, kws)
            ==> Contains(Unified(t), kws)
  {
    var r, w, cw, c := t.resolutionNotes, t.workNotes, t.commentsAndWorkNotes, t.comments;
    var p1 := r + "\n";
    var p2 := p1 + w;
    var p3 := p2 + "\n";
    var p4 := p3 + cw;
    var p5 := p4 + "\n";
    assert Unified(t) == p5 + c;
    if Contains(r, kws) {
      ContainsAppend(r, "\n", kws);
      ContainsAppend(p1, w, kws);
    } else if Contains(w, kws) {
      ContainsPrepend(p1, w, kws);
    }
    if Contains(p2, kws) {
      ContainsAppend(p2, "\n", kws);
      ContainsAppend(p3, cw, kws);
    } else if Contains(cw, kws) {
      ContainsPrepend(p3, cw, kws);
    }
    if Contains(p4, kws) {
      ContainsAppend(p4, "\n", kws);
      ContainsAppend(p5, c, kws);
    } else if Contains(c, kws) {
      ContainsPrepend(p5, c, kws);
    }
  }

  lemma ContainsAppend(a: string, b: string, kws: seq<string>)
    requires Contains(a, kws)
    ensures Contains(a + b, kws)
  {
    var i :| 0 <= i < |kws| && Substring(Lower(kws[i]), Lower(a));
    SubstringOfLeft(Lower(kws[i]), Lower(a), Lower(b));
    LowerConcat(a, b);
  }

  lemma ContainsPrepend(a: string, b: string, kws: seq<string>)
    requires Contains(b, kws)
    ensures Contains(a + b, kws)
  {
    var i :| 0 <= i < |kws| && Substring(Lower(kws[i]), Lower(b));
    SubstringOfRight(Lower(kws[i]), Lower(a), Lower(b));
    LowerConcat(a, b);
  }

  /** The thirteen checkpoint columns of one ticket. */
  datatype QcRow = QcRow(
    category: int,
    subCat: int,
    readPrev: int,
    routing: int,
    ownership: int,
    timely: int,
    priority: int,
    emailFormat: int,
    teams: int,
    screenshot: int,
    docShare: int,
    compliance: int,
    clientNotes: int)

  /** Column names, in the order the pipeline adds them. */
  const QC_NAMES: seq<string> := [
    "qc_category", "qc_sub_cat", "qc_read_prev", "qc_routing", "qc_ownership",
    "qc_timely", "qc_priority", "qc_email_format", "qc_teams", "qc_screenshot",
    "qc_doc_share", "qc_compliance", "qc_client_notes"]

  function Values(q: QcRow): seq<int> {
    [q.category, q.subCat, q.readPrev, q.routing, q.ownership, q.timely, q.priority,
     q.emailFormat, q.teams, q.screenshot, q.docShare, q.compliance, q.clientNotes]
  }

  function QcColumns(q: QcRow): seq<(string, int)> {
    seq(13, i requires 0 <= i < 13 => (QC_NAMES[i], Values(q)[i]))
  }

  predicate AllPoints(q: QcRow) {
    forall i :: 0 <= i < 13 ==> IsPoints(Values(q)[i])
  }

  /** Every checkpoint of the row is one of 0, 2, 3, 5, field by field. */
  predicate PointFields(q: QcRow) {
    && IsPoints(q.category) && IsPoints(q.subCat) && IsPoints(q.readPrev) && IsPoints(q.routing)
    && IsPoints(q.ownership) && IsPoints(q.timely) && IsPoints(q.priority) && IsPoints(q.emailFormat)
    && IsPoints(q.teams) && IsPoints(q.screenshot) && IsPoints(q.docShare) && IsPoints(q.compliance)
    && IsPoints(q.clientNotes)
  }

  lemma PointFieldsAll(q: QcRow)
    requires PointFields(q)
    ensures AllPoints(q)
  {
    var v := Values(q);
    assert v[0] == q.category && v[1] == q.subCat && v[2] == q.readPrev && v[3] == q.routing;
    assert v[4] == q.ownership && v[5] == q.timely && v[6] == q.priority && v[7] == q.emailFormat;
    assert v[8] == q.teams && v[9] == q.screenshot && v[10] == q.docShare && v[11] == q.compliance;
    assert v[12] == q.clientNotes;
  }

  /** Scores one ticket: the category and subcategory checkpoints read the
      resolution notes, the timely checkpoint the response time, all others
      the unified text (with the MTTR, priority and timeline where needed).
      Every checkpoint is one of 0, 2, 3, 5. */
  function ScoreTicket(t: Ticket): (q: QcRow)
    ensures PointFields(q)
  {
    var u := Unified(t);
    QcRow(
      ScoreLabel(t.category, t.resolutionNotes),
      ScoreLabel(t.subcategory, t.resolutionNotes),
      ScoreReadPrev(u),
      ScoreRouting(u),
      ScoreOwnership(u),
      ScoreTimely(t.responseTimeHours),
      ScorePriority(t.priority, t.mttrHours),
      ScoreEmailFormat(u, t.resolutionNotes),
      DetectTeamsConfirmation(u),
      ScoreScreenshot(u),
      ScoreDocShare(u),
      ScoreCompliance(u, t.mttrHours, t.timeline),
      ScoreClientNotes(u))
  }

  // ---------------------------------------------------------------------
  // qc_total_65
  // ---------------------------------------------------------------------

  /** `c.startswith("qc_")`. */
  predicate IsQcName(name: string) {
    IsPrefix("qc_", name)
  }

  /** Sum over the columns whose name starts with "qc_". */
  function SumQc(cols: seq<(string, int)>): int
    decreases |cols|
  {
    if cols == [] then 0
    else SumQc(cols[..|cols| - 1]) + (if IsQcName(cols[|cols| - 1].0) then cols[|cols| - 1].1 else 0)
  }

  function Sum(xs: seq<int>): int
    decreases |xs|
  {
    if xs == [] then 0 else Sum(xs[..|xs| - 1]) + xs[|xs| - 1]
  }

  lemma {:induction false} SumQcAppend(a: seq<(string, int)>, b: seq<(string, int)>)
    ensures SumQc(a + b) == SumQc(a) + SumQc(b)
    decreases |b|
  {
    if b != [] {
      assert (a + b)[..|a + b| - 1] == a + b[..|b| - 1];
      SumQcAppend(a, b[..|b| - 1]);
    } else {
      assert a + b == a;
    }
  }

  /** Columns none of whose names starts with "qc_" add nothing. */
  lemma {:induction false} SumQcOther(cols: seq<(string, int)>)
    requires forall i :: 0 <= i < |cols| ==> !IsQcName(cols[i].0)
    ensures SumQc(cols) == 0
    decreases |cols|
  {
    if cols != [] {
      SumQcOther(cols[..|cols| - 1]);
    }
  }

  /** When every column is a "qc_" column the filtered sum is the plain sum. */
  lemma {:induction false} SumQcAll(cols: seq<(string, int)>)
    requires forall i :: 0 <= i < |cols| ==> IsQcName(cols[i].0)
    ensures SumQc(cols) == Sum(seq(|cols|, i requires 0 <= i < |cols| => cols[i].1))
    decreases |cols|
  {
    if cols != [] {
      var xs := seq(|cols|, i requires 0 <= i < |cols| => cols[i].1);
      var init := cols[..|cols| - 1];
      SumQcAll(init);
      assert seq(|init|, i requires 0 <= i < |init| => init[i].1) == xs[..|xs| - 1];
    }
  }

  lemma {:induction false} SumBounds(xs: seq<int>)
    requires forall i :: 0 <= i < |xs| ==> 0 <= xs[i] <= 5
    ensures 0 <= Sum(xs) <= 5 * |xs|
    decreases |xs|
  {
    if xs != [] {
      SumBounds(xs[..|xs| - 1]);
    }
  }

  lemma SumStep(xs: seq<int>, k: nat)
    requires 0 < k <= |xs|
    ensures Sum(xs[..k]) == Sum(xs[..k - 1]) + xs[k - 1]
  {
    assert xs[..k][..k - 1] == xs[..k - 1];
  }

  function FieldSum(q: QcRow): int {
    q.category + q.subCat + q.readPrev + q.routing + q.ownership + q.timely + q.priority +
    q.emailFormat + q.teams + q.screenshot + q.docShare + q.compliance + q.clientNotes
  }

  lemma SumValues(q: QcRow)
    ensures Sum(Values(q)) == FieldSum(q)
  {
    var a := [q.category, q.subCat, q.readPrev, q.routing];
    var b := [q.ownership, q.timely, q.priority, q.emailFormat];
    var c := [q.teams, q.screenshot, q.docShare, q.compliance, q.clientNotes];
    assert Values(q) == a + b + c;
    SumConcat(a + b, c);
    SumConcat(a, b);
    SumFour(a);
    SumFour(b);
    SumFour(c[..4]);
    assert c == c[..4] + [c[4]];
    SumConcat(c[..4], [c[4]]);
  }

  lemma SumFour(xs: seq<int>)
    requires |xs| == 4
    ensures Sum(xs) == xs[0] + xs[1] + xs[2] + xs[3]
  {
    SumStep(xs, 1); SumStep(xs, 2); SumStep(xs, 3); SumStep(xs, 4);
    assert xs[..4] == xs;
  }

  lemma {:induction false} SumConcat(a: seq<int>, b: seq<int>)
    ensures Sum(a + b) == Sum(a) + Sum(b)
    decreases |b|
  {
    if b == [] {
      assert a + b == a;
    } else {
      assert (a + b)[..|a + b| - 1] == a + b[..|b| - 1];
      SumConcat(a, b[..|b| - 1]);
    }
  }

  lemma QcNamesArePrefixed()
    ensures forall i :: 0 <= i < 13 ==> IsQcName(QC_NAMES[i])
  {
  }

  /** The thirteen checkpoint columns sum to the plain sum of the scores. */
  lemma QcColumnsSum(q: QcRow)
    ensures SumQc(QcColumns(q)) == Sum(Values(q))
  {
    QcNamesArePrefixed();
    var cols := QcColumns(q);
    SumQcAll(cols);
    assert seq(|cols|, i requires 0 <= i < |cols| => cols[i].1) == Values(q);
  }

  /** A ticket's output: unified text, checkpoint columns and total. */
  datatype Scored = Scored(unified: string, qc: QcRow, total: int)

  /** The input columns that survive the thirteen assignments: a column
      whose label is a checkpoint label is overwritten by the new score. */
  function Unscored(cols: seq<(string, int)>): (r: seq<(string, int)>)
    ensures |r| <= |cols|
    ensures forall i :: 0 <= i < |r| ==> r[i] in cols && r[i].0 !in QC_NAMES
    ensures forall c :: c in cols && c.0 !in QC_NAMES ==> c in r
    decreases |cols|
  {
    if cols == [] then []
    else
      var init := Unscored(cols[..|cols| - 1]);
      var last := cols[|cols| - 1];
      assert forall c :: c in cols ==> c in cols[..|cols| - 1] || c == last;
      if last.0 in QC_NAMES then init else init + [last]
  }

  /** The scored row: the thirteen checkpoint columns replace any input
      columns of the same labels, and `qc_total_65` sums every "qc_"
      column of the result. */
  function ScoreRow(t: Ticket): Scored {
    var q := ScoreTicket(t);
    Scored(Unified(t), q, SumQc(Unscored(t.numericColumns) + QcColumns(q)))
  }

  /** The only "qc_" columns the input may carry are the checkpoint columns
      themselves. */
  predicate NoForeignQc(t: Ticket) {
    forall i :: 0 <= i < |t.numericColumns| && IsQcName(t.numericColumns[i].0) ==>
      t.numericColumns[i].0 in QC_NAMES
  }

  /** With no "qc_" input column other than the checkpoint columns (which are
      overwritten), the total is exactly the sum of the thirteen checkpoints
      and lies in 0..65. */
  lemma TotalIsCheckpointSum(t: Ticket)
    requires NoForeignQc(t)
    ensures ScoreRow(t).total == FieldSum(ScoreTicket(t))
    ensures 0 <= ScoreRow(t).total <= 65
  {
    var kept := Unscored(t.numericColumns);
    forall i | 0 <= i < |kept|
      ensures !IsQcName(kept[i].0)
    {
      var j :| 0 <= j < |t.numericColumns| && t.numericColumns[j] == kept[i];
    }
    RowTotal(kept, ScoreTicket(t));
    FieldSumBounds(ScoreTicket(t));
  }

  /** A row carrying the thirteen checkpoint columns and no other "qc_"
      column gets the same total as without them: the old checkpoint
      columns are overwritten. A previously written output also carries
      `qc_total_65` and `qc_percent`, which would be summed again. */
  lemma RescoringIgnoresOldScores(t: Ticket, prev: QcRow)
    requires forall i :: 0 <= i < |t.numericColumns| ==> !IsQcName(t.numericColumns[i].0)
    ensures ScoreRow(t.(numericColumns := t.numericColumns + QcColumns(prev))).total == ScoreRow(t).total
  {
    var t2 := t.(numericColumns := t.numericColumns + QcColumns(prev));
    assert ScoreTicket(t2) == ScoreTicket(t);
    assert NoForeignQc(t2) by {
      forall i | 0 <= i < |t2.numericColumns| && IsQcName(t2.numericColumns[i].0)
        ensures t2.numericColumns[i].0 in QC_NAMES
      {
        assert i >= |t.numericColumns|;
      }
    }
    assert NoForeignQc(t);
    TotalIsCheckpointSum(t2);
    TotalIsCheckpointSum(t);
  }

  /** A previously written output also carries `qc_total_65`: its label
      starts with "qc_" and is no checkpoint label, so the old total is
      added into the new one. */
  lemma RescoringAddsOldTotal(t: Ticket, prev: QcRow, v: int)
    requires forall i :: 0 <= i < |t.numericColumns| ==> !IsQcName(t.numericColumns[i].0)
    ensures ScoreRow(t.(numericColumns := t.numericColumns + QcColumns(prev) + [("qc_total_65", v)])).total
            == ScoreRow(t).total + v
  {
    var c1 := t.numericColumns + QcColumns(prev);
    var x := ("qc_total_65", v);
    var c2 := c1 + [x];
    assert c2[..|c2| - 1] == c1;
    assert x.0 !in QC_NAMES;
    assert Unscored(c2) == Unscored(c1) + [x];
    assert IsQcName(x.0);
    RescoringIgnoresOldScores(t, prev);
    var q := ScoreTicket(t);
    assert ScoreTicket(t.(numericColumns := c2)) == q;
    assert ScoreTicket(t.(numericColumns := c1)) == q;
    SumQcAppend(Unscored(c1) + [x], QcColumns(q));
    SumQcAppend(Unscored(c1), QcColumns(q));
    assert SumQc(Unscored(c1) + [x]) == SumQc(Unscored(c1)) + v;
  }

  /** The total over columns without a "qc_" label followed by the thirteen
      checkpoint columns is the sum of the checkpoints. */
  lemma RowTotal(cols: seq<(string, int)>, q: QcRow)
    requires forall i :: 0 <= i < |cols| ==> !IsQcName(cols[i].0)
    ensures SumQc(cols + QcColumns(q)) == FieldSum(q)
  {
    SumValues(q);
    SumQcAppend(cols, QcColumns(q));
    SumQcOther(cols);
    QcColumnsSum(q);
  }

  /** Thirteen checkpoints of at most 5 points each sum to at most 65. */
  lemma FieldSumBounds(q: QcRow)
    requires PointFields(q)
    ensures 0 <= FieldSum(q) <= 65
  {
    PointFieldsAll(q);
    SumValues(q);
    SumBounds(Values(q));
  }

  /** `df[qc_cols].sum(axis=1)` for one row. */
  method QcTotal(cols: seq<(string, int)>) returns (total: int)
    ensures total == SumQc(cols)
  {
    total := 0;
    var i := 0;
    while i < |cols|
      invariant 0 <= i <= |cols|
      invariant total == SumQc(cols[..i])
    {
      assert cols[..i + 1][..i] == cols[..i];
      if IsQcName(cols[i].0) {
        total := total + cols[i].1;
      }
      i := i + 1;
    }
    assert cols[..|cols|] == cols;
  }

  /** One row of `main`: the unified text, the thirteen checkpoint columns
      and their total. */
  method ScoreOne(t: Ticket) returns (row: Scored)
    ensures row == ScoreRow(t)
  {
    var q := ScoreTicket(t);
    var total := QcTotal(Unscored(t.numericColumns) + QcColumns(q));
    row := Scored(Unified(t), q, total);
  }

  /** `main` without its file I/O: every ticket is scored independently and
      the output rows keep the input order. */
  method ScoreFrame(tickets: seq<Ticket>) returns (rows: seq<Scored>)
    ensures |rows| == |tickets|
    ensures forall i :: 0 <= i < |tickets| ==> rows[i] == ScoreRow(tickets[i])
    ensures forall i :: 0 <= i < |tickets| && NoForeignQc(tickets[i]) ==> 0 <= rows[i].total <= 65
  {
    rows := [];
    var i := 0;
    while i < |tickets|
      invariant 0 <= i <= |tickets|
      invariant rows == MapSeq(ScoreRow, tickets[..i])
    {
      var row := ScoreOne(tickets[i]);
      MapSeqSnoc(ScoreRow, tickets[..i + 1]);
      assert tickets[..i + 1][..i] == tickets[..i];
      rows := rows + [row];
      i := i + 1;
    }
    assert tickets[..i] == tickets;
    FrameTotals(tickets, rows);
  }

  /** `f` applied to every element, in order. */
  function MapSeq<T, U>(f: T -> U, xs: seq<T>): (ys: seq<U>)
    ensures |ys| == |xs|
    ensures forall i :: 0 <= i < |xs| ==> ys[i] == f(xs[i])
  {
    seq(|xs|, i requires 0 <= i < |xs| => f(xs[i]))
  }

  lemma MapSeqSnoc<T, U>(f: T -> U, xs: seq<T>)
    requires xs != []
    ensures MapSeq(f, xs) == MapSeq(f, xs[..|xs| - 1]) + [f(xs[|xs| - 1])]
  {
  }

  /** Every row scored from a ticket without foreign "qc_" columns has a
      total in 0..65. */
  lemma FrameTotals(tickets: seq<Ticket>, rows: seq<Scored>)
    requires |rows| == |tickets|
    requires forall i :: 0 <= i < |tickets| ==> rows[i] == ScoreRow(tickets[i])
    ensures forall i :: 0 <= i < |tickets| && NoForeignQc(tickets[i]) ==> 0 <= rows[i].total <= 65
  {
    forall k | 0 <= k < |tickets| && NoForeignQc(tickets[k])
      ensures 0 <= rows[k].total <= 65
    {
      TotalIsCheckpointSum(tickets[k]);
    }
  }

  // ---------------------------------------------------------------------
  // A ticket with no evidence at all
  // ---------------------------------------------------------------------

  /** No keyword whose first character is not a newline occurs in a text
      made of newlines only. */
  lemma NothingInNewlines(text: string, kws: seq<string>)
    requires forall k :: 0 <= k < |text| ==> text[k] == '\n'
    requires forall i :: 0 <= i < |kws| ==> |kws[i]| > 0 && kws[i][0] != '\n'
    ensures !Contains(text, kws)
  {
    if Contains(text, kws) {
      var i :| 0 <= i < |kws| && Substring(Lower(kws[i]), Lower(text));
      SubstringChars(Lower(kws[i]), Lower(text), 0);
      assert false;
    }
  }

  const EMPTY_TICKET: Ticket := Ticket("", "", "", "", "", "", "", "", Missing, None, [])

  /** A ticket with every field empty and no timings still gets a full row:
      the neutral defaults of routing (5), ownership (3), timeliness (3),
      screenshot (3) and compliance (5), the slow-branch 2 for priority, and
      0 everywhere else, 21 in total. */
  lemma EmptyTicketScores()
    ensures ScoreTicket(EMPTY_TICKET) == QcRow(0, 0, 0, 5, 3, 3, 2, 0, 0, 3, 0, 5, 0)
  {
    var u := Unified(EMPTY_TICKET);
    assert u == "\n\n\n";
    NothingInNewlines(u, PHR_READ_PREV);
    NothingInNewlines(u, PHR_ROUTING);
    CountHitsPositive(u, PHR_ROUTING);
    NothingInNewlines(u, PHR_HANDOVER);
    NothingInNewlines(u, PHR_ENGAGED);
    NothingInNewlines(u, PHR_CONTACT);
    NothingInNewlines(u, PHR_TEAMS);
    NothingInNewlines(u, PHR_SCREENSHOT);
    NothingInNewlines(u, PHR_HOLD);
    NothingInNewlines(u, DOC_LOCATIONS);
    NothingInNewlines(u, BAD_LANGUAGE);
    NothingInNewlines(u, PHR_CLIENT_CONFIRMED);
    assert !DetectResolutionFormat("") by {
      assert !Substring(RESOLUTION_HEADERS[0], Lower(""));
    }
    assert !DetectThreeStrikeFlow(u) by {
      StrikeFlowSteps(u);
    }
    var q := ScoreTicket(EMPTY_TICKET);
    assert q.category == 0;
    assert q.subCat == 0;
    assert q.readPrev == 0;
    assert q.routing == 5;
    assert q.ownership == 3;
    assert q.timely == 3;
    assert q.priority == 2;
    assert q.emailFormat == 0;
    assert q.teams == 0;
    assert q.screenshot == 3;
    assert q.docShare == 0;
    assert q.compliance == 5;
    assert q.clientNotes == 0;
  }

  lemma EmptyTicketTotal()
    ensures ScoreRow(EMPTY_TICKET).total == 21
  {
    EmptyTicketScores();
    TotalIsCheckpointSum(EMPTY_TICKET);
  }
}
