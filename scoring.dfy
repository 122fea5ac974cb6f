/** The canonical thirteen-checkpoint QC rubric: keyword detectors and the
    thirteen scorers, each a pure function of one ticket's fields and of the
    unified note text. Every scorer returns a value in {0, 2, 3, 5}. */
module Scoring {
  import opened Fields
  import opened Text

  // ---------------------------------------------------------------------
  // Keyword tables
  // ---------------------------------------------------------------------

  const PHR_HOLD: seq<string> := ["placed the ticket on hold", "on hold awaiting your response"]
  const PHR_STRIKE1: seq<string> := ["strike 1", "first reminder", "this is a reminder"]
  const PHR_STRIKE2: seq<string> := ["strike 2", "second reminder"]
  const PHR_STRIKE3: seq<string> := ["strike 3", "final reminder", "final notice"]
  const PHR_CLOSURE: seq<string> := ["closure email", "closing the ticket", "soft closing", "resolve/close the ticket"]
  /** Contact block required in the mail templates: chat link or a phone number. */
  const PHR_CONTACT: seq<string> := ["connect chat", "+1 713 430 1333", "+44 1224 85 1333", "+61 8 6314 2333"]
  const RESOLUTION_HEADERS: seq<string> := ["issue reported:", "probable cause:", "resolution provided:"]
  const PHR_TEAMS: seq<string> := ["teams", "ms teams", "microsoft teams"]
  const PHR_CONFIRM: seq<string> := ["user confirmed", "client confirmed", "thank you", "thanks"]
  const PHR_SCREENSHOT: seq<string> := ["attachment", "screenshot", ".png", ".jpg", ".jpeg"]
  const BAD_LANGUAGE: seq<string> := ["idiot", "nonsense", "stupid", "shit", "fuck"]

  // Lists written inline in the individual scorers.
  const PHR_READ_PREV: seq<string> := ["as per previous", "see previous", "deployment notes"]
  const PHR_ROUTING: seq<string> := ["wrong queue", "misrouted", "incorrect routing", "reassign"]
  const PHR_HANDOVER: seq<string> := ["handed over to", "transferred to"]
  const PHR_ENGAGED: seq<string> := ["working with user", "followed up", "i contacted"]
  /** Document locations; the third entry is the two characters `\\` of a UNC path. */
  const DOC_LOCATIONS: seq<string> := ["sharepoint", "confluence", "\\\\", "/sites/"]
  const PHR_CLIENT_CONFIRMED: seq<string> := ["user confirmed", "client confirmed", "issue resolved"]

  /** The closed set of values a checkpoint can take. */
  predicate IsPoints(x: int) {
    x == 0 || x == 2 || x == 3 || x == 5
  }

  // ---------------------------------------------------------------------
  // Utility detectors
  // ---------------------------------------------------------------------

  /** `contains(text, kws)`: some keyword, lower-cased, occurs in the
      lower-cased text. */
  predicate Contains(text: string, kws: seq<string>) {
    exists i :: 0 <= i < |kws| && Substring(Lower(kws[i]), Lower(text))
  }

  function Hit(text: string, kw: string): nat {
    if Substring(Lower(kw), Lower(text)) then 1 else 0
  }

  /** `count_hits(text, kws)`: how many entries of the list occur in the text
      (each entry counts once, however often it occurs). */
  function CountHits(text: string, kws: seq<string>): (n: nat)
    ensures n <= |kws|
  {
    if kws == [] then 0 else Hit(text, kws[0]) + CountHits(text, kws[1..])
  }

  /** Some entry is counted exactly when `contains` holds for the same list. */
  lemma {:induction false} CountHitsPositive(text: string, kws: seq<string>)
    ensures CountHits(text, kws) > 0 <==> Contains(text, kws)
    decreases |kws|
  {
    if kws != [] {
      CountHitsPositive(text, kws[1..]);
      if Contains(text, kws[1..]) {
        var i :| 0 <= i < |kws[1..]| && Substring(Lower(kws[1..][i]), Lower(text));
        assert kws[i + 1] == kws[1..][i];
      }
      if Contains(text, kws) && Hit(text, kws[0]) == 0 {
        var i :| 0 <= i < |kws| && Substring(Lower(kws[i]), Lower(text));
        assert i > 0 && kws[1..][i - 1] == kws[i];
      }
    }
  }

  /** The count is the full list length exactly when every entry occurs. */
  lemma {:induction false} CountHitsAll(text: string, kws: seq<string>)
    ensures CountHits(text, kws) == |kws| <==> forall i :: 0 <= i < |kws| ==> Hit(text, kws[i]) == 1
    decreases |kws|
  {
    if kws != [] {
      CountHitsAll(text, kws[1..]);
      assert forall i :: 1 <= i < |kws| ==> kws[i] == kws[1..][i - 1];
    }
  }

  /** Lower-casing the text first changes nothing: `contains` lowers it anyway. */
  lemma ContainsLowered(text: string, kws: seq<string>)
    ensures Contains(Lower(text), kws) <==> Contains(text, kws)
  {
    LowerIdempotent(text);
  }

  /** Text added around a text never removes a keyword occurrence. */
  lemma ContainsWithin(a: string, b: string, c: string, kws: seq<string>)
    requires Contains(b, kws)
    ensures Contains(a + b + c, kws)
  {
    var i :| 0 <= i < |kws| && Substring(Lower(kws[i]), Lower(b));
    SubstringOfRight(Lower(kws[i]), Lower(a), Lower(b));
    SubstringOfLeft(Lower(kws[i]), Lower(a) + Lower(b), Lower(c));
    LowerConcat(a, b);
    LowerConcat(a + b, c);
  }

  /** For a list of lower-case keywords, `contains` and a plain
      `any(k in text.lower() ...)` agree. */
  lemma LowerCaseKeywords(text: string, kws: seq<string>)
    requires forall i :: 0 <= i < |kws| ==> IsLowerCase(kws[i])
    ensures AnyIn(kws, Lower(text)) <==> Contains(text, kws)
  {
    forall i | 0 <= i < |kws| ensures Lower(kws[i]) == kws[i] {
      LowerOfLowerCase(kws[i]);
    }
  }

  // ---------------------------------------------------------------------
  // Detectors shared by several checkpoints
  // ---------------------------------------------------------------------

  /** `detect_resolution_format`: all three section headers occur. */
  predicate DetectResolutionFormat(text: string) {
    var t := Lower(text);
    forall i :: 0 <= i < |RESOLUTION_HEADERS| ==> Substring(RESOLUTION_HEADERS[i], t)
  }

  lemma ResolutionFormatHeaders(text: string)
    ensures DetectResolutionFormat(text) <==>
      && Substring("issue reported:", Lower(text))
      && Substring("probable cause:", Lower(text))
      && Substring("resolution provided:", Lower(text))
  {
    var t := Lower(text);
    assert RESOLUTION_HEADERS[0] == "issue reported:";
    assert RESOLUTION_HEADERS[1] == "probable cause:";
    assert RESOLUTION_HEADERS[2] == "resolution provided:";
    if DetectResolutionFormat(text) {
      assert Substring(RESOLUTION_HEADERS[0], t);
      assert Substring(RESOLUTION_HEADERS[1], t);
      assert Substring(RESOLUTION_HEADERS[2], t);
    }
  }

  /** `detect_three_strike_flow`: the hold, strike, closure and contact
      steps are all mentioned; their order in the text is not examined. */
  predicate DetectThreeStrikeFlow(fullText: string) {
    var t := Lower(fullText);
    && Contains(t, PHR_HOLD)
    && (Contains(t, PHR_STRIKE1) || Contains(t, PHR_STRIKE2) || Contains(t, PHR_STRIKE3))
    && Contains(t, PHR_CLOSURE)
    && Contains(t, PHR_CONTACT)
  }

  /** The strike flow is a conjunction of four independent keyword tests on
      the text itself; in particular it always includes the contact test. */
  lemma StrikeFlowSteps(fullText: string)
    ensures DetectThreeStrikeFlow(fullText) <==>
      && Contains(fullText, PHR_HOLD)
      && (Contains(fullText, PHR_STRIKE1) || Contains(fullText, PHR_STRIKE2) || Contains(fullText, PHR_STRIKE3))
      && Contains(fullText, PHR_CLOSURE)
      && Contains(fullText, PHR_CONTACT)
    ensures DetectThreeStrikeFlow(fullText) ==> Contains(fullText, PHR_CONTACT)
  {
    ContainsLowered(fullText, PHR_HOLD);
    ContainsLowered(fullText, PHR_STRIKE1);
    ContainsLowered(fullText, PHR_STRIKE2);
    ContainsLowered(fullText, PHR_STRIKE3);
    ContainsLowered(fullText, PHR_CLOSURE);
    ContainsLowered(fullText, PHR_CONTACT);
  }

  /** Lower-casing before the strike-flow test changes nothing. */
  lemma StrikeFlowLowered(fullText: string)
    ensures DetectThreeStrikeFlow(Lower(fullText)) <==> DetectThreeStrikeFlow(fullText)
  {
    LowerIdempotent(fullText);
  }

  /** `detect_screenshot`. */
  predicate DetectScreenshot(fullText: string) {
    Contains(fullText, PHR_SCREENSHOT)
  }

  /** `detect_teams_confirmation`: 5 for a Teams mention with a confirmation,
      3 for a Teams mention alone, 0 without a Teams mention. */
  function DetectTeamsConfirmation(fullText: string): (r: int)
    ensures r == 5 <==> Contains(fullText, PHR_TEAMS) && Contains(fullText, PHR_CONFIRM)
    ensures r == 3 <==> Contains(fullText, PHR_TEAMS) && !Contains(fullText, PHR_CONFIRM)
    ensures r == 0 <==> !Contains(fullText, PHR_TEAMS)
  {
    if Contains(fullText, PHR_TEAMS) && Contains(fullText, PHR_CONFIRM) then 5
    else if Contains(fullText, PHR_TEAMS) then 3
    else 0
  }

  /** "ms teams" and "microsoft teams" both contain "teams", so the Teams
      test is decided by its first entry alone. */
  lemma TeamsFirstEntryDecides(fullText: string)
    ensures Contains(fullText, PHR_TEAMS) <==> Substring("teams", Lower(fullText))
  {
    if Contains(fullText, PHR_TEAMS) {
      var i :| 0 <= i < |PHR_TEAMS| && Substring(Lower(PHR_TEAMS[i]), Lower(fullText));
      assert Lower(PHR_TEAMS[i]) == PHR_TEAMS[i];
      if i == 1 {
        assert PHR_TEAMS[1][3..8] == "teams";
        SubstringAt("teams", PHR_TEAMS[1], 3);
        SubstringTransitive("teams", PHR_TEAMS[1], Lower(fullText));
      } else if i == 2 {
        assert PHR_TEAMS[2][10..15] == "teams";
        SubstringAt("teams", PHR_TEAMS[2], 10);
        SubstringTransitive("teams", PHR_TEAMS[2], Lower(fullText));
      }
    } else {
      assert Lower(PHR_TEAMS[0]) == "teams";
    }
  }

  // ---------------------------------------------------------------------
  // Checkpoints 1 and 2: category and subcategory understanding
  // ---------------------------------------------------------------------

  /** `score_category` / `score_subcategory` (identical rules): an empty
      label scores 0; a label found in the resolution notes scores 5;
      otherwise notes longer than 80 characters earn 3. */
  function ScoreLabel(cat: string, notes: string): (r: int)
    ensures r in {0, 3, 5}
    ensures r == 5 <==> cat != "" && Substring(Lower(cat), Lower(notes))
    ensures r == 3 <==> cat != "" && !Substring(Lower(cat), Lower(notes)) && |notes| > 80
  {
    if cat == "" then 0
    else
      var c := Lower(cat);
      var txt := Lower(notes);
      if Substring(c, txt) then 5
      else if |txt| > 80 then 3
      else 0
  }

  /** Writing more notes never lowers the category score. */
  lemma ScoreLabelGrowing(cat: string, notes: string, more: string)
    ensures ScoreLabel(cat, notes + more) >= ScoreLabel(cat, notes)
  {
    if cat != "" && Substring(Lower(cat), Lower(notes)) {
      LowerConcat(notes, more);
      SubstringOfLeft(Lower(cat), Lower(notes), Lower(more));
    }
  }

  // ---------------------------------------------------------------------
  // Checkpoint 3: read previous comments
  // ---------------------------------------------------------------------

  /** `score_read_prev`: a reference to previous notes scores 5; otherwise
      a unified text longer than 150 characters earns 3. */
  function ScoreReadPrev(fullText: string): (r: int)
    ensures r in {0, 3, 5}
    ensures r == 5 <==> Contains(fullText, PHR_READ_PREV)
    ensures r == 3 <==> !Contains(fullText, PHR_READ_PREV) && |fullText| > 150
  {
    if Contains(fullText, PHR_READ_PREV) then 5
    else if |fullText| > 150 then 3
    else 0
  }

  // ---------------------------------------------------------------------
  // Checkpoint 4: routing
  // ---------------------------------------------------------------------

  /** `score_routing`: routing complaints lower the score, 5 for none,
      3 for one distinct complaint phrase, 0 for two or more. */
  function ScoreRouting(fullText: string): (r: int)
    ensures r in {0, 3, 5}
    ensures r == 5 <==> CountHits(fullText, PHR_ROUTING) == 0
    ensures r == 3 <==> CountHits(fullText, PHR_ROUTING) == 1
    ensures r == 0 <==> CountHits(fullText, PHR_ROUTING) >= 2
  {
    var hits := CountHits(fullText, PHR_ROUTING);
    if hits == 0 then 5
    else if hits <= 1 then 3
    else 0
  }

  /** Full marks for routing exactly when no complaint phrase occurs. */
  lemma RoutingCleanIff(fullText: string)
    ensures ScoreRouting(fullText) == 5 <==> !Contains(fullText, PHR_ROUTING)
  {
    CountHitsPositive(fullText, PHR_ROUTING);
  }

  // ---------------------------------------------------------------------
  // Checkpoint 5: ownership
  // ---------------------------------------------------------------------

  /** `score_ownership`: a hand-over is penalised (2) even when engagement
      is also mentioned; engagement alone scores 5; neither is neutral (3). */
  function ScoreOwnership(fullText: string): (r: int)
    ensures r in {2, 3, 5}
    ensures r == 2 <==> Contains(fullText, PHR_HANDOVER)
    ensures r == 5 <==> !Contains(fullText, PHR_HANDOVER) && Contains(fullText, PHR_ENGAGED)
  {
    if Contains(fullText, PHR_HANDOVER) then 2
    else if Contains(fullText, PHR_ENGAGED) then 5
    else 3
  }

  // ---------------------------------------------------------------------
  // Checkpoint 6: timely communication
  // ---------------------------------------------------------------------

  /** `score_timely`: an unknown response time is neutral (3); within 4 hours
      scores 5, within 24 hours 3, later 0. */
  function ScoreTimely(hours: Option<real>): (r: int)
    ensures r in {0, 3, 5}
    ensures hours.None? ==> r == 3
    ensures r == 5 <==> hours.Some? && hours.value <= 4.0
    ensures r == 0 <==> hours.Some? && hours.value > 24.0
  {
    match hours
    case None => 3
    case Some(h) => if h <= 4.0 then 5 else if h <= 24.0 then 3 else 0
  }

  /** A faster answer never scores lower. */
  lemma TimelyMonotone(a: real, b: real)
    requires a <= b
    ensures ScoreTimely(Some(a)) >= ScoreTimely(Some(b))
  {
  }

  // ---------------------------------------------------------------------
  // Checkpoint 7: priority validation
  // ---------------------------------------------------------------------

  /** The resolution time each priority class allows: "p1" is looked for before
      "p2", anything else is treated as p3 or lower. */
  function PriorityLimit(priority: string): real {
    var p := Lower(priority);
    if Substring("p1", p) then 4.0
    else if Substring("p2", p) then 8.0
    else 72.0
  }

  /** `score_priority`: an MTTR that `float()` rejects is neutral (3).
      Otherwise 5 exactly when the MTTR is a number within the priority's
      limit; a slow (or NaN) p2 ticket keeps 3, any other slow one gets 2. */
  function ScorePriority(priority: string, mttr: Num): (r: int)
    ensures r in {2, 3, 5}
    ensures mttr.Unparseable? ==> r == 3
    ensures r == 5 <==> mttr.Value? && mttr.r <= PriorityLimit(priority)
    ensures !mttr.Unparseable? && r != 5 ==> r == (if PriorityLimit(priority) == 8.0 then 3 else 2)
  {
    var p := Lower(priority);
    if mttr.Unparseable? then 3
    else if Substring("p1", p) then (if AtMost(mttr, 4.0) then 5 else 2)
    else if Substring("p2", p) then (if AtMost(mttr, 8.0) then 5 else 3)
    else if AtMost(mttr, 72.0) then 5 else 2
  }

  /** The boundary is inclusive: a "P1 - Critical" ticket resolved in exactly
      4 hours scores 5, one resolved in 4.01 hours scores 2. */
  lemma PriorityBoundaryP1()
    ensures ScorePriority("P1 - Critical", Value(4.0)) == 5
    ensures ScorePriority("P1 - Critical", Value(4.01)) == 2
  {
    assert Lower("P1 - Critical")[0..2] == "p1";
    SubstringAt("p1", Lower("P1 - Critical"), 0);
  }

  // ---------------------------------------------------------------------
  // Checkpoint 8: e-mail / KBA format
  // ---------------------------------------------------------------------

  /** `score_email_format`: 5 when the resolution notes carry all three
      headers and the unified text shows the whole strike flow (its contact
      test is then already satisfied); 0 when neither the headers nor a
      contact block are present; 3 in every other case. */
  function ScoreEmailFormat(fullText: string, resolutionNotes: string): (r: int)
    ensures r in {0, 3, 5}
    ensures r == 5 <==> DetectResolutionFormat(resolutionNotes) && DetectThreeStrikeFlow(fullText)
    ensures r == 0 <==> !DetectResolutionFormat(resolutionNotes) && !Contains(fullText, PHR_CONTACT)
  {
    StrikeFlowLowered(fullText);
    StrikeFlowSteps(fullText);
    ContainsLowered(fullText, PHR_CONTACT);
    var t := Lower(fullText);
    var resolutionOk := DetectResolutionFormat(resolutionNotes);
    var strikeOk := DetectThreeStrikeFlow(t);
    var contactOk := Contains(t, PHR_CONTACT);
    if resolutionOk && strikeOk && contactOk then 5
    else if resolutionOk || strikeOk || contactOk then 3
    else 0
  }

  /** A hold, a strike and a closure without a contact block do not make a
      strike flow; unless the resolution headers are present the checkpoint
      then scores 0, not the partial 3. */
  lemma EmailFormatNeedsContact(fullText: string, resolutionNotes: string)
    requires !Contains(fullText, PHR_CONTACT)
    ensures !DetectThreeStrikeFlow(fullText)
    ensures ScoreEmailFormat(fullText, resolutionNotes) == (if DetectResolutionFormat(resolutionNotes) then 3 else 0)
  {
    StrikeFlowSteps(fullText);
  }

  // ---------------------------------------------------------------------
  // Checkpoints 9 and 10: Teams transcript, screenshot
  // ---------------------------------------------------------------------

  /** `score_screenshot_field`: screenshot evidence scores 5; without it a
      detected strike flow makes the missing screenshot a failure (0);
      otherwise a screenshot was not required (3). */
  function ScoreScreenshot(fullText: string): (r: int)
    ensures r in {0, 3, 5}
    ensures r == 5 <==> DetectScreenshot(fullText)
    ensures r == 0 <==> !DetectScreenshot(fullText) && DetectThreeStrikeFlow(fullText)
  {
    if DetectScreenshot(fullText) then 5
    else if DetectThreeStrikeFlow(fullText) then 0
    else 3
  }

  // ---------------------------------------------------------------------
  // Checkpoint 11: document sharing
  // ---------------------------------------------------------------------

  /** `score_doc_share`: 5 for a known document location, else 0. */
  function ScoreDocShare(fullText: string): (r: int)
    ensures r in {0, 5}
    ensures r == 5 <==> Contains(fullText, DOC_LOCATIONS)
  {
    if Contains(fullText, DOC_LOCATIONS) then 5 else 0
  }

  // ---------------------------------------------------------------------
  // Checkpoint 12: compliance / SLA
  // ---------------------------------------------------------------------

  lemma BadLanguageIsLowerCase()
    ensures forall i :: 0 <= i < |BAD_LANGUAGE| ==> IsLowerCase(BAD_LANGUAGE[i])
  {
  }

  /** `score_compliance`: blacklisted language scores 0 before anything else
      is read. Then the timeline decides: "met" anywhere in it (so also
      "not met") scores 5, checked before "breach", which scores 2. Without
      either, a numeric MTTR above 72 hours scores 2, anything else
      (including NaN or a non-number) 5. */
  function ScoreCompliance(fullText: string, mttr: Num, timeline: string): (r: int)
    ensures r in {0, 2, 5}
    ensures r == 0 <==> Contains(fullText, BAD_LANGUAGE)
    ensures r == 5 <==>
      (!Contains(fullText, BAD_LANGUAGE) &&
       (Substring("met", Lower(timeline)) ||
        (!Substring("breach", Lower(timeline)) && !(mttr.Value? && mttr.r > 72.0))))
  {
    BadLanguageIsLowerCase();
    LowerCaseKeywords(fullText, BAD_LANGUAGE);
    var t := Lower(fullText);
    if AnyIn(BAD_LANGUAGE, t) then 0
    else if Substring("met", Lower(timeline)) then 5
    else if Substring("breach", Lower(timeline)) then 2
    else if mttr.Value? && mttr.r > 72.0 then 2
    else 5
  }

  // ---------------------------------------------------------------------
  // Checkpoint 13: client notes
  // ---------------------------------------------------------------------

  /** `score_client_notes`: 5 for a client confirmation, else 0. */
  function ScoreClientNotes(fullText: string): (r: int)
    ensures r in {0, 5}
    ensures r == 5 <==> Contains(fullText, PHR_CLIENT_CONFIRMED)
  {
    if Contains(fullText, PHR_CLIENT_CONFIRMED) then 5 else 0
  }
}
