/** The older variant rule set: text statistics, keyword flags, the thirteen
    automatic QC columns with their own cut points (some reading structured
    fields instead of text, some returning 4), the final clip of every
    "qc_" column to 0..5, and the automatic ticket quality index. This rule
    set is independent of the canonical one and is kept apart from it. */
module Preprocess {
  import opened Fields
  import opened Text

  // ---------------------------------------------------------------------
  // Keyword tables
  // ---------------------------------------------------------------------

  const KEYWORD_STEPS: seq<string> := ["step", "steps", "restart", "restarted", "reboot", "reinstalled", "applied", "rollback"]
  const KEYWORD_CONFIRMED: seq<string> := ["confirm", "confirmed", "user confirmed", "validated", "verified by user", "user confirmed"]
  const ATTACHMENT_WORDS: seq<string> := ["attachment:", "attached:", "attachment", "file:", "screenshot"]
  const EMAIL_WORDS: seq<string> := ["dear ", "regards", "please refer", "please find", "kind regards"]
  /** Document locations; `\share\` and `\\` are literal backslash paths. */
  const DOC_LOCATIONS: seq<string> := ["sharepoint", "confluence", "drive.google", "s3.", "\\share\\", "\\\\"]
  const PROFANITY: seq<string> := ["idiot", "stupid", "fuck", "shit", "bastard"]
  const CLIENT_WORDS: seq<string> := ["user confirmed", "confirmed by", "user said", "client confirmed", "client said"]

  /** The three regular-expression searches, kept uninterpreted: the
      timestamp and knowledge-base patterns (searched ignoring case) and the
      image-extension pattern. */
  datatype Patterns = Patterns(timestamp: string -> bool, kb: string -> bool, imageExt: string -> bool)

  // ---------------------------------------------------------------------
  // Helpers
  // ---------------------------------------------------------------------

  datatype Stats = Stats(chars: nat, words: nat, sentences: nat)

  function Max(a: int, b: int): int {
    if a < b then b else a
  }

  /** `text_stats`: characters, whitespace-separated words, and sentence
      marks counted as at least one sentence. */
  function TextStats(text: string): (st: Stats)
    ensures st.chars == |text|
    ensures st.words <= st.chars
    ensures st.words == 0 <==> AllSpace(text)
    ensures 1 <= st.sentences <= Max(1, st.chars)
    ensures st.words == |Split(text)|
    ensures st.sentences == Max(1, Occurrences(text, '.') + Occurrences(text, '!') + Occurrences(text, '?'))
  {
    SplitBound(text);
    OccurrencesBound(text, '.', '!', '?');
    Stats(|text|, |Split(text)|,
      Max(1, Occurrences(text, '.') + Occurrences(text, '!') + Occurrences(text, '?')))
  }

  /** `contains_any`: only the text is lower-cased, keywords are used as
      written. */
  predicate ContainsAny(text: string, kws: seq<string>) {
    AnyIn(kws, Lower(text))
  }

  /** A keyword holding an upper-case letter can never match, since only the
      text is lower-cased. */
  lemma UpperKeywordNeverMatches(text: string, kw: string, j: nat)
    requires j < |kw| && 'A' <= kw[j] <= 'Z'
    ensures !ContainsAny(text, [kw])
  {
    if Substring(kw, Lower(text)) {
      SubstringChars(kw, Lower(text), j);
      LowerIsLowerCase(text);
    }
  }

  /** `find_image_attachment`: an attachment word in the lowered text, else
      the image-extension search on the lowered text. */
  predicate FindImageAttachment(text: string, rx: Patterns) {
    var t := Lower(text);
    AnyIn(ATTACHMENT_WORDS, t) || rx.imageExt(t)
  }

  /** "attachment:" contains "attachment", so the first word never decides
      anything the third would not. */
  lemma AttachmentWordsReduce(t: string)
    ensures AnyIn(ATTACHMENT_WORDS, t) <==> AnyIn(ATTACHMENT_WORDS[1..], t)
  {
    if Substring(ATTACHMENT_WORDS[0], t) {
      assert ATTACHMENT_WORDS[0][..10] == ATTACHMENT_WORDS[2];
      SubstringAt(ATTACHMENT_WORDS[2], ATTACHMENT_WORDS[0], 0);
      SubstringTransitive(ATTACHMENT_WORDS[2], ATTACHMENT_WORDS[0], t);
      assert ATTACHMENT_WORDS[1..][1] == ATTACHMENT_WORDS[2];
    }
    if AnyIn(ATTACHMENT_WORDS[1..], t) {
      var i :| 0 <= i < |ATTACHMENT_WORDS[1..]| && Substring(ATTACHMENT_WORDS[1..][i], t);
      assert ATTACHMENT_WORDS[i + 1] == ATTACHMENT_WORDS[1..][i];
    }
  }

  // ---------------------------------------------------------------------
  // Scoring helpers
  // ---------------------------------------------------------------------

  /** `score_presence_flag`: 5 for a set flag, else 0. */
  function ScorePresenceFlag(flag: bool): (r: int)
    ensures r == 0 || r == 5
    ensures r == 5 <==> flag
  {
    if flag then 5 else 0
  }

  /** `score_yes_maybe`: strong evidence wins whatever the weak flag says. */
  function ScoreYesMaybe(strong: bool, weak: bool): (r: int)
    ensures r == 0 || r == 3 || r == 5
    ensures r == 5 <==> strong
    ensures r == 3 <==> !strong && weak
  {
    if strong then 5
    else if weak then 3
    else 0
  }

  /** `score_reassignment`: a count `int()` rejects (NaN, text) is neutral
      (3); otherwise the count truncated toward zero gives 5 for 0, 3 for
      anything up to 2 (negative counts included) and 0 above. */
  function ScoreReassignment(count: Num): (r: int)
    ensures r == 0 || r == 3 || r == 5
    ensures !count.Value? ==> r == 3
    ensures count.Value? ==> (r == 5 <==> Trunc(count.r) == 0) && (r == 0 <==> Trunc(count.r) > 2)
  {
    match count
    case Value(x) =>
      var n := Trunc(x);
      if n == 0 then 5
      else if n <= 2 then 3
      else 0
    case _ => 3
  }

  /** A fractional count below one truncates to zero and earns full marks. */
  lemma ReassignmentTruncates()
    ensures ScoreReassignment(Value(0.5)) == 5
    ensures ScoreReassignment(Value(-0.5)) == 5
    ensures ScoreReassignment(Value(-7.0)) == 3
  {
  }

  predicate Blank(s: Option<string>) {
    s.None? || Strip(s.value) == ""
  }

  lemma BlankIsAllSpace(s: Option<string>)
    ensures Blank(s) <==> s.None? || AllSpace(s.value)
  {
    if s.Some? {
      StripEmpty(s.value);
    }
  }

  /** `score_ownership`: a missing or whitespace-only assignee scores 0
      before the count is read; then 5 for no reassignment, 3 for up to two,
      2 beyond. */
  function ScoreOwnership(assignee: Option<string>, reassignmentCount: int): (r: int)
    ensures r == 0 || r == 2 || r == 3 || r == 5
    ensures r == 0 <==> assignee.None? || AllSpace(assignee.value)
    ensures r == 5 <==> !(assignee.None? || AllSpace(assignee.value)) && reassignmentCount == 0
    ensures r == 2 <==> !(assignee.None? || AllSpace(assignee.value)) && reassignmentCount > 2
  {
    BlankIsAllSpace(assignee);
    if Blank(assignee) then 0
    else if reassignmentCount == 0 then 5
    else if reassignmentCount <= 2 then 3
    else 2
  }

  /** The resolution time an urgent priority allows: critical or p1 within 4
      hours, high or p2 within 8; `None` for every other priority. */
  function UrgentLimit(p: string): Option<real> {
    var q := Lower(p);
    if Substring("critical", q) || Substring("p1", q) then Some(4.0)
    else if Substring("high", q) || Substring("p2", q) then Some(8.0)
    else None
  }

  /** `score_priority_consistency`: a blank priority scores 0. An urgent
      ticket scores 5 when its MTTR is known and within the limit, else 3.
      Any other ticket scores 5 unless its MTTR is known and under 4 hours,
      which scores 4. NaN and unparseable MTTRs both count as unknown. */
  function ScorePriorityConsistency(priority: Option<string>, mttr: Num): (r: int)
    ensures r == 0 || r == 3 || r == 4 || r == 5
    ensures r == 0 <==> priority.None? || AllSpace(priority.value)
    ensures r == 4 <==> !(priority.None? || AllSpace(priority.value)) &&
                        UrgentLimit(priority.value).None? && mttr.Value? && mttr.r < 4.0
    ensures r == 3 <==> !(priority.None? || AllSpace(priority.value)) &&
                        UrgentLimit(priority.value).Some? && !AtMost(mttr, UrgentLimit(priority.value).value)
  {
    BlankIsAllSpace(priority);
    if Blank(priority) then 0
    else
      var m: Option<real> := if mttr.Value? then Some(mttr.r) else None;
      var p := Lower(priority.value);
      LowerIdempotent(priority.value);
      if Substring("critical", p) || Substring("p1", Lower(p)) then
        (if m.Some? && m.value <= 4.0 then 5 else 3)
      else if Substring("high", p) || Substring("p2", Lower(p)) then
        (if m.Some? && m.value <= 8.0 then 5 else 3)
      else if m.None? || m.value >= 4.0 then 5
      else 4
  }

  /** `score_email_format`: a template phrase or a knowledge-base reference
      scores 5; otherwise more than 100 characters earn 3. */
  function ScoreEmailFormat(text: string, rx: Patterns): (r: int)
    ensures r == 0 || r == 3 || r == 5
    ensures r == 5 <==> ContainsAny(text, EMAIL_WORDS) || rx.kb(text)
    ensures r == 3 <==> !ContainsAny(text, EMAIL_WORDS) && !rx.kb(text) && |text| > 100
  {
    var t := Lower(text);
    if AnyIn(EMAIL_WORDS, t) then 5
    else if rx.kb(text) then 5
    else if |t| > 100 then 3
    else 0
  }

  /** The longer phrases of the Teams test contain the shorter ones. */
  lemma TeamsAliases(t: string)
    ensures Substring("teams chat", t) ==> Substring("teams", t)
    ensures Substring("microsoft teams", t) ==> Substring("teams", t)
    ensures Substring("user confirmed", t) ==> Substring("confirmed", t)
  {
    if Substring("teams chat", t) {
      assert "teams chat"[..5] == "teams";
      SubstringAt("teams", "teams chat", 0);
      SubstringTransitive("teams", "teams chat", t);
    }
    if Substring("microsoft teams", t) {
      assert "microsoft teams"[10..15] == "teams";
      SubstringAt("teams", "microsoft teams", 10);
      SubstringTransitive("teams", "microsoft teams", t);
    }
    if Substring("user confirmed", t) {
      assert "user confirmed"[5..14] == "confirmed";
      SubstringAt("confirmed", "user confirmed", 5);
      SubstringTransitive("confirmed", "user confirmed", t);
    }
  }

  /** `score_teams_transcription`: a Teams mention scores 5 ("teams chat"
      and "microsoft teams" add nothing, they contain "teams"); so does a
      timestamp together with "confirmed". Otherwise 0. */
  function ScoreTeamsTranscription(text: string, rx: Patterns): (r: int)
    ensures r == 0 || r == 5
    ensures r == 5 <==> Substring("teams", Lower(text)) || (rx.timestamp(text) && Substring("confirmed", Lower(text)))
  {
    var t := Lower(text);
    TeamsAliases(t);
    if Substring("teams", t) || Substring("teams chat", t) || Substring("microsoft teams", t) then 5
    else if rx.timestamp(text) && (Substring("confirmed", t) || Substring("user confirmed", t)) then 5
    else 0
  }

  /** `score_attachment_presence`: image evidence in the work notes, or a
      non-blank attachments field, scores 5; otherwise 0. */
  function ScoreAttachmentPresence(workNotes: string, attachments: Option<string>, rx: Patterns): (r: int)
    ensures r == 0 || r == 5
    ensures r == 5 <==> FindImageAttachment(workNotes, rx) || (attachments.Some? && !AllSpace(attachments.value))
  {
    BlankIsAllSpace(attachments);
    if FindImageAttachment(workNotes, rx) then 5
    else if attachments.Some? && Strip(attachments.value) != "" then 5
    else 0
  }

  /** `score_document_sharing`: a known document location scores 5; so does
      a link together with "kb" (the link-plus-"confluence" case is already
      covered by the location list). Otherwise 0. */
  function ScoreDocumentSharing(text: string): (r: int)
    ensures r == 0 || r == 5
    ensures r == 5 <==> ContainsAny(text, DOC_LOCATIONS) ||
                        (Substring("http", Lower(text)) && Substring("kb", Lower(text)))
  {
    var t := Lower(text);
    assert DOC_LOCATIONS[1] == "confluence";
    if AnyIn(DOC_LOCATIONS, t) then 5
    else if Substring("http", t) && (Substring("confluence", t) || Substring("kb", t)) then 5
    else 0
  }

  /** `score_compliance`: profanity scores 0, then a mention of any
      unsupported application (lower-cased) scores 0; otherwise an MTTR
      above 72 hours scores 2 and anything else 5. A NaN or zero MTTR skips
      the SLA test. */
  function ScoreCompliance(text: string, mttrHours: Option<real>, unsupportedApps: seq<string>): (r: int)
    ensures r == 0 || r == 2 || r == 5
    ensures r == 0 <==> ContainsAny(text, PROFANITY) ||
                        exists i :: 0 <= i < |unsupportedApps| && Substring(Lower(unsupportedApps[i]), Lower(text))
    ensures r == 2 <==> !ContainsAny(text, PROFANITY) &&
                        (forall i :: 0 <= i < |unsupportedApps| ==> !Substring(Lower(unsupportedApps[i]), Lower(text))) &&
                        mttrHours.Some? && mttrHours.value > 72.0
  {
    var t := Lower(text);
    if AnyIn(PROFANITY, t) then 0
    else if exists i :: 0 <= i < |unsupportedApps| && Substring(Lower(unsupportedApps[i]), t) then 0
    else if mttrHours.Some? && mttrHours.value != 0.0 && mttrHours.value > 72.0 then 2
    else 5
  }

  /** `score_client_notes`: a client statement scores 5, thanks alone 4,
      nothing 0. */
  function ScoreClientNotes(text: string): (r: int)
    ensures r == 0 || r == 4 || r == 5
    ensures r == 5 <==> ContainsAny(text, CLIENT_WORDS)
    ensures r == 4 <==> !ContainsAny(text, CLIENT_WORDS) &&
                        (Substring("thanks", Lower(text)) || Substring("thank you", Lower(text)))
  {
    var t := Lower(text);
    if AnyIn(CLIENT_WORDS, t) then 5
    else if Substring("thanks", t) || Substring("thank you", t) then 4
    else 0
  }

  /** The category and subcategory columns: a present label found in the
      notes (ignoring case) scores 5, a present label not found 3, a missing
      one 0. */
  function ScoreLabel(cat: Option<string>, notes: string): (r: int)
    ensures r == 0 || r == 3 || r == 5
    ensures r == 0 <==> cat.None?
    ensures r == 5 <==> cat.Some? && Substring(Lower(cat.value), Lower(notes))
  {
    if cat.Some? && Substring(Lower(cat.value), Lower(notes)) then 5
    else if cat.Some? then 3
    else 0
  }

  /** A present but empty label always counts as found. */
  lemma EmptyLabelFound(notes: string)
    ensures ScoreLabel(Some(""), notes) == 5
  {
    assert IsPrefix("", Lower(notes));
  }

  /** `.clip(0, 5)` on one value. */
  function Clip(x: int): (r: int)
    ensures 0 <= r <= 5
    ensures 0 <= x <= 5 ==> r == x
    ensures x < 0 ==> r == 0
    ensures x > 5 ==> r == 5
  {
    if x < 0 then 0 else if x > 5 then 5 else x
  }

  function ClipAll(xs: seq<int>): (ys: seq<int>)
    ensures |ys| == |xs|
    ensures forall i :: 0 <= i < |xs| ==> ys[i] == Clip(xs[i])
  {
    seq(|xs|, i requires 0 <= i < |xs| => Clip(xs[i]))
  }

  /** The loop over the "qc_" columns: every column, held as its values over
      the rows, is replaced in place by its clipped copy. */
  method ClipQcColumns(cols: array<seq<int>>)
    modifies cols
    ensures forall j :: 0 <= j < cols.Length ==> cols[j] == ClipAll(old(cols[j]))
    ensures forall j, i :: 0 <= j < cols.Length && 0 <= i < |cols[j]| ==> 0 <= cols[j][i] <= 5
  {
    var j := 0;
    while j < cols.Length
      invariant 0 <= j <= cols.Length
      invariant forall k :: 0 <= k < j ==> cols[k] == ClipAll(old(cols[k]))
      invariant forall k :: j <= k < cols.Length ==> cols[k] == old(cols[k])
    {
      cols[j] := ClipAll(cols[j]);
      j := j + 1;
    }
  }

  // ---------------------------------------------------------------------
  // Per-ticket preprocessing
  // ---------------------------------------------------------------------

  /** The fields one exported ticket row supplies to the variant rule set.
      `reassignmentCount` is the numeric coercion of the column (`None`
      for a missing or non-numeric value); `mttrHours` is the result of the
      MTTR computation (`None` for NaN). */
  datatype RawTicket = RawTicket(
    category: Option<string>,
    subcategory: Option<string>,
    priority: Option<string>,
    assignedTo: Option<string>,
    resolutionNotes: Option<string>,
    workNotes: Option<string>,
    attachments: Option<string>,
    reassignmentCount: Option<int>,
    mttrHours: Option<real>)

  datatype Flags = Flags(steps: bool, confirm: bool, kb: bool, timestamp: bool, attachment: bool)

  function DeriveFlags(res: string, work: string, attachments: string, rx: Patterns): Flags {
    Flags(
      ContainsAny(res, KEYWORD_STEPS),
      ContainsAny(res, KEYWORD_CONFIRMED),
      rx.kb(res),
      rx.timestamp(res) || rx.timestamp(work),
      FindImageAttachment(work, rx) || Strip(attachments) != "")
  }

  /** Every value lies in the 0..5 point scale. */
  predicate InScale(xs: seq<int>) {
    forall j :: 0 <= j < |xs| ==> 0 <= xs[j] <= 5
  }

  /** Checkpoints 1-5 of the variant rule set: category, subcategory,
      reading of previous notes, routing and ownership. */
  function AuditQc(t: RawTicket, rx: Patterns): (qc: seq<int>)
    ensures |qc| == 5 && InScale(qc)
  {
    var res := t.resolutionNotes.GetOr("");
    var work := t.workNotes.GetOr("");
    var count := t.reassignmentCount.GetOr(0);
    var labels := [ScoreLabel(t.category, res), ScoreLabel(t.subcategory, res)];
    var handling := [ScoreYesMaybe(rx.timestamp(work) || Substring("deployment", Lower(work)), TextStats(work).chars > 0),
                     ScoreReassignment(Value(count as real)), ScoreOwnership(t.assignedTo, count)];
    assert InScale(labels) && InScale(handling);
    labels + handling
  }

  /** Checkpoints 7-9: priority consistency, e-mail format and Teams
      transcription. */
  function HandlingQc(t: RawTicket, rx: Patterns): (qc: seq<int>)
    ensures |qc| == 3 && InScale(qc)
  {
    var res := t.resolutionNotes.GetOr("");
    var work := t.workNotes.GetOr("");
    var mttr := if t.mttrHours.Some? then Value(t.mttrHours.value) else Missing;
    [ScorePriorityConsistency(t.priority, mttr), ScoreEmailFormat(res + " " + work, rx),
     ScoreTeamsTranscription(work + " " + res, rx)]
  }

  /** Checkpoints 10-13: attachment, document sharing, compliance and client
      notes. */
  function EvidenceQc(t: RawTicket, rx: Patterns): (qc: seq<int>)
    ensures |qc| == 4 && InScale(qc)
  {
    var res := t.resolutionNotes.GetOr("");
    var work := t.workNotes.GetOr("");
    [ScoreAttachmentPresence(work, Some(t.attachments.GetOr("")), rx),
     ScoreDocumentSharing(res + " " + work), ScoreCompliance(res + " " + work, t.mttrHours, []),
     ScoreClientNotes(work + " " + res)]
  }

  /** The values the variant timeliness scorer returns. */
  predicate TimelyScore(x: int) {
    x == 0 || x == 3 || x == 5
  }

  /** The thirteen automatic QC values of one ticket before the clip, in
      column order. `timely` is the result of the timeliness scorer, which
      parses timestamps and is not part of this model; it is one of the 0, 3
      or 5 that scorer returns. */
  function RawQc(t: RawTicket, timely: int, rx: Patterns): (qc: seq<int>)
    requires TimelyScore(timely)
    ensures |qc| == 13 && InScale(qc)
    ensures qc[5] == timely
  {
    AuditQc(t, rx) + [timely] + HandlingQc(t, rx) + EvidenceQc(t, rx)
  }

  /** Every checkpoint already lies in 0..5, so the clip of the QC columns
      changes nothing. */
  lemma ClipKeepsRawQc(t: RawTicket, timely: int, rx: Patterns)
    requires TimelyScore(timely)
    ensures ClipAll(RawQc(t, timely, rx)) == RawQc(t, timely, rx)
  {
    ClipInScale(RawQc(t, timely, rx));
  }

  lemma ClipInScale(xs: seq<int>)
    requires InScale(xs)
    ensures ClipAll(xs) == xs
  {
  }

  /** Column `j` of a frame held as rows. */
  function Column(rs: seq<seq<int>>, j: nat): (col: seq<int>)
    requires forall i :: 0 <= i < |rs| ==> j < |rs[i]|
    ensures |col| == |rs| && forall i :: 0 <= i < |rs| ==> col[i] == rs[i][j]
  {
    seq(|rs|, i requires 0 <= i < |rs| => rs[i][j])
  }

  /** Clipping each row (as `ProcessRow` does) and clipping each column (as
      `ClipQcColumns` does) give the same frame. */
  lemma ClipRowsIsClipColumns(rs: seq<seq<int>>, j: nat)
    requires forall i :: 0 <= i < |rs| ==> j < |rs[i]|
    ensures Column(seq(|rs|, i requires 0 <= i < |rs| => ClipAll(rs[i])), j) == ClipAll(Column(rs, j))
  {
  }

  // ---------------------------------------------------------------------
  // Automatic ticket quality index
  // ---------------------------------------------------------------------

  function ClarityFromChars(n: nat): (r: int)
    ensures r == 1 || r == 3 || r == 5
    ensures r == 5 <==> n >= 200
    ensures r == 1 <==> n < 100
  {
    if n >= 200 then 5 else if n >= 100 then 3 else 1
  }

  function Completeness(steps: bool, confirm: bool): (r: int)
    ensures r == 1 || r == 3 || r == 5
    ensures r == 5 <==> steps && confirm
    ensures r == 1 <==> !steps
  {
    if steps && confirm then 5 else if steps then 3 else 1
  }

  function Accuracy(category: Option<string>, notes: string): (r: int)
    ensures r == 2 || r == 4
    ensures r == 4 <==> category.Some? && Substring(Lower(category.value), Lower(notes))
  {
    if category.Some? && Substring(Lower(category.value), Lower(notes)) then 4 else 2
  }

  function Actionability(steps: bool): (r: int)
    ensures r == 2 || r == 4
    ensures r == 4 <==> steps
  {
    if steps then 4 else 2
  }

  /** The first character of the stripped notes is the first non-space
      character of the notes. */
  lemma StrippedStartsUpper(notes: string)
    ensures (Strip(notes) != "" && IsUpper(Strip(notes)[0])) <==>
            exists i :: 0 <= i < |notes| && IsUpper(notes[i]) && AllSpace(notes[..i])
  {
    var s := Strip(notes);
    var i, j := StripShape(notes);
    if s != "" && IsUpper(s[0]) {
      assert s[0] == notes[i];
    } else {
      forall k | 0 <= k < |notes| && IsUpper(notes[k]) && AllSpace(notes[..k])
        ensures false
      {
      }
    }
  }

  /** 5 when the stripped notes start with an upper-case letter, else 3. */
  function Professionalism(notes: string): (r: int)
    ensures r == 3 || r == 5
    ensures r == 5 <==> exists i :: 0 <= i < |notes| && IsUpper(notes[i]) && AllSpace(notes[..i])
  {
    StrippedStartsUpper(notes);
    var s := Strip(notes);
    if s != "" && IsUpper(s[0]) then 5 else 3
  }

  /** The index with its integer weights: 20 times the weighted mean. */
  function Tqi(clarity: int, completeness: int, professionalism: int, accuracy: int, actionability: int): int {
    4 * clarity + 6 * completeness + 2 * professionalism + 4 * accuracy + 4 * actionability
  }

  /** The fractional weights 0.2, 0.3, 0.1, 0.2, 0.2 scaled by 20 are exactly
      the integer weights, so rounding the product changes nothing. */
  lemma TqiWeights(c: int, m: int, p: int, a: int, t: int)
    ensures (c as real * 0.2 + m as real * 0.3 + p as real * 0.1 + a as real * 0.2 + t as real * 0.2) * 20.0
            == Tqi(c, m, p, a, t) as real
  {
  }

  /** The five component columns and the index of one processed ticket. */
  datatype Quality = Quality(clarity: int, completeness: int, professionalism: int, accuracy: int, actionability: int, index: int)

  function QualityOf(t: RawTicket, rx: Patterns): (q: Quality)
    ensures 32 <= q.index <= 92
  {
    var res := t.resolutionNotes.GetOr("");
    var fl := DeriveFlags(res, t.workNotes.GetOr(""), t.attachments.GetOr(""), rx);
    var c := ClarityFromChars(TextStats(res).chars);
    var m := Completeness(fl.steps, fl.confirm);
    var p := Professionalism(res);
    var a := Accuracy(t.category, res);
    var n := Actionability(fl.steps);
    Quality(c, m, p, a, n, Tqi(c, m, p, a, n))
  }

  /** Completeness and actionability both hinge on the step keywords: notes
      without one cap the index at 60, and full marks (92) need steps,
      a confirmation, notes of at least 200 characters opening with a
      capital letter, and the category named in them. */
  lemma QualityNeedsSteps(t: RawTicket, rx: Patterns)
    ensures !ContainsAny(t.resolutionNotes.GetOr(""), KEYWORD_STEPS) ==> QualityOf(t, rx).index <= 60
    ensures QualityOf(t, rx).index == 92 <==>
              var res := t.resolutionNotes.GetOr("");
              ContainsAny(res, KEYWORD_STEPS) && ContainsAny(res, KEYWORD_CONFIRMED) &&
              |res| >= 200 && Professionalism(res) == 5 && Accuracy(t.category, res) == 4
  {
  }

  /** The processed row: statistics, flags, clipped QC columns and the
      quality index. */
  datatype Processed = Processed(res: Stats, work: Stats, flags: Flags, qc: seq<int>, quality: Quality)

  function ProcessRow(t: RawTicket, timely: int, rx: Patterns): (p: Processed)
    requires TimelyScore(timely)
    ensures |p.qc| == 13 && forall j :: 0 <= j < 13 ==> 0 <= p.qc[j] <= 5
    ensures p.qc == RawQc(t, timely, rx) && p.qc[5] == timely
    ensures 32 <= p.quality.index <= 92
  {
    ClipKeepsRawQc(t, timely, rx);
    var res := t.resolutionNotes.GetOr("");
    var work := t.workNotes.GetOr("");
    Processed(TextStats(res), TextStats(work),
      DeriveFlags(res, work, t.attachments.GetOr(""), rx),
      ClipAll(RawQc(t, timely, rx)),
      QualityOf(t, rx))
  }
}
