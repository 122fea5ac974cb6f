/** The coaching message shown for one processed ticket: a ticket whose
    automatic quality index reaches 70 is accepted outright; otherwise one
    piece of advice per weak component (clarity, completeness,
    professionalism, missing attachment), joined after a warning sign. */
module Recommend {
  import opened Fields
  import opened Text
  import Preprocess

  /** A value looked up in the row: the key is absent (the default
      applies), the value is NaN, or it is a number. */
  datatype Entry = Absent | NaN | Number(x: real)

  datatype Row = Row(
    tqi: Entry,
    clarity: Entry,
    completeness: Entry,
    professionalism: Entry,
    hasAttachment: Option<bool>)

  const OK_MSG: string := "\U{2705} Ticket meets quality standards."
  const WARN_PREFIX: string := "\U{26A0}\U{FE0F} "
  const FALLBACK_MSG: string := "Needs improvement."
  const CLARITY_MSG: string := "Improve closure note clarity."
  const COMPLETENESS_MSG: string := "Add detailed steps & resolution."
  const PROFESSIONALISM_MSG: string := "Use professional tone & formatting."
  const ATTACHMENT_MSG: string := "Attach screenshots or evidence."

  /** `(row.get(key) or 0) >= 70`: an absent key and 0 fall back to 0, and
      NaN (truthy) fails the comparison. */
  predicate MeetsStandard(tqi: Entry) {
    tqi.Number? && tqi.x >= 70.0
  }

  /** `row.get(key, 0) < 3`: absent counts as 0, NaN fails the comparison. */
  predicate Below3(e: Entry) {
    match e
    case Absent => true
    case NaN => false
    case Number(x) => x < 3.0
  }

  /** `not row.get('has_attachment', False)`. */
  predicate LacksAttachment(a: Option<bool>) {
    a != Some(true)
  }

  /** `[m]` when the check fires, nothing otherwise. */
  function Opt(fires: bool, m: string): seq<string> {
    if fires then [m] else []
  }

  /** The advice in the order it is written: clarity, completeness,
      professionalism, attachment. */
  function Advice(row: Row): (ms: seq<string>)
    ensures |ms| <= 4
  {
    Opt(Below3(row.clarity), CLARITY_MSG) + Opt(Below3(row.completeness), COMPLETENESS_MSG) +
    Opt(Below3(row.professionalism), PROFESSIONALISM_MSG) + Opt(LacksAttachment(row.hasAttachment), ATTACHMENT_MSG)
  }

  /** Each piece of advice appears exactly when its check fires. */
  lemma AdviceIff(row: Row)
    ensures CLARITY_MSG in Advice(row) <==> Below3(row.clarity)
    ensures COMPLETENESS_MSG in Advice(row) <==> Below3(row.completeness)
    ensures PROFESSIONALISM_MSG in Advice(row) <==> Below3(row.professionalism)
    ensures ATTACHMENT_MSG in Advice(row) <==> LacksAttachment(row.hasAttachment)
    ensures Advice(row) == [] <==>
              !Below3(row.clarity) && !Below3(row.completeness) &&
              !Below3(row.professionalism) && !LacksAttachment(row.hasAttachment)
  {
    assert CLARITY_MSG[0] == 'I' && COMPLETENESS_MSG[0] == 'A' && PROFESSIONALISM_MSG[0] == 'U';
    assert ATTACHMENT_MSG[0] == 'A' && COMPLETENESS_MSG[1] == 'd' && ATTACHMENT_MSG[1] == 't';
  }

  /** `" ".join(ms)`. */
  function Join(ms: seq<string>, sep: string): string {
    if ms == [] then ""
    else if |ms| == 1 then ms[0]
    else ms[0] + sep + Join(ms[1..], sep)
  }

  /** Every joined message can be found in the joined text. */
  lemma {:induction false} JoinContains(ms: seq<string>, sep: string, i: nat)
    requires i < |ms|
    ensures Substring(ms[i], Join(ms, sep))
    decreases |ms|
  {
    if |ms| == 1 {
      SubstringAt(ms[0], ms[0], 0);
    } else if i == 0 {
      SubstringAt(ms[0], ms[0], 0);
      SubstringOfLeft(ms[0], ms[0], sep + Join(ms[1..], sep));
      assert ms[0] + sep + Join(ms[1..], sep) == ms[0] + (sep + Join(ms[1..], sep));
    } else {
      JoinContains(ms[1..], sep, i - 1);
      SubstringOfRight(ms[i], ms[0] + sep, Join(ms[1..], sep));
    }
  }

  /** The warning text holds every piece of advice it was built from. */
  lemma WarningContainsAll(ms: seq<string>)
    ensures forall m :: m in ms ==> Substring(m, WARN_PREFIX + Join(ms, " "))
  {
    forall m | m in ms
      ensures Substring(m, WARN_PREFIX + Join(ms, " "))
    {
      var i :| 0 <= i < |ms| && ms[i] == m;
      JoinContains(ms, " ", i);
      SubstringOfRight(m, WARN_PREFIX, Join(ms, " "));
    }
  }

  /** `generate_recommendation` as a value. */
  function Recommendation(row: Row): string {
    if MeetsStandard(row.tqi) then OK_MSG
    else if Advice(row) != [] then WARN_PREFIX + Join(Advice(row), " ")
    else FALLBACK_MSG
  }

  /** `generate_recommendation`: the advice list is built by appending. */
  method GenerateRecommendation(row: Row) returns (r: string)
    ensures r == Recommendation(row)
    ensures MeetsStandard(row.tqi) ==> r == OK_MSG
    ensures !MeetsStandard(row.tqi) && Advice(row) == [] ==> r == FALLBACK_MSG
    ensures !MeetsStandard(row.tqi) ==> forall m :: m in Advice(row) ==> Substring(m, r)
  {
    if MeetsStandard(row.tqi) {
      return OK_MSG;
    }
    var msgs: seq<string> := [];
    if Below3(row.clarity) {
      msgs := msgs + [CLARITY_MSG];
    }
    assert msgs == Opt(Below3(row.clarity), CLARITY_MSG);
    if Below3(row.completeness) {
      msgs := msgs + [COMPLETENESS_MSG];
    }
    assert msgs == Opt(Below3(row.clarity), CLARITY_MSG) + Opt(Below3(row.completeness), COMPLETENESS_MSG);
    if Below3(row.professionalism) {
      msgs := msgs + [PROFESSIONALISM_MSG];
    }
    if LacksAttachment(row.hasAttachment) {
      msgs := msgs + [ATTACHMENT_MSG];
    }
    assert msgs == Advice(row);
    if msgs != [] {
      r := WARN_PREFIX + Join(msgs, " ");
      WarningContainsAll(msgs);
    } else {
      r := FALLBACK_MSG;
    }
  }

  /** The three outcomes are told apart by their first character, so the
      acceptance message appears exactly for a quality index of 70 or
      more. */
  lemma AcceptedIff(row: Row)
    ensures Recommendation(row) == OK_MSG <==> MeetsStandard(row.tqi)
    ensures Recommendation(row) == FALLBACK_MSG <==> !MeetsStandard(row.tqi) && Advice(row) == []
  {
    if !MeetsStandard(row.tqi) && Advice(row) != [] {
      assert Recommendation(row)[0] == WARN_PREFIX[0];
      assert OK_MSG[0] != WARN_PREFIX[0] && FALLBACK_MSG[0] != WARN_PREFIX[0];
    }
    assert OK_MSG[0] != FALLBACK_MSG[0];
  }

  // ---------------------------------------------------------------------
  // Recommendations for rows of the variant rule set
  // ---------------------------------------------------------------------

  /** The row `generate_recommendation` receives for a ticket processed by
      the variant rule set. */
  function RowOf(q: Preprocess.Quality, hasAttachment: bool): Row {
    Row(Number(q.index as real), Number(q.clarity as real), Number(q.completeness as real),
        Number(q.professionalism as real), Some(hasAttachment))
  }

  /** A ticket whose resolution notes hold no step keyword is never
      accepted and is always told to add steps; the professionalism advice
      never fires for such rows, since that component is at least 3. */
  lemma NoStepsAdvice(t: Preprocess.RawTicket, rx: Preprocess.Patterns, hasAttachment: bool)
    requires !Preprocess.ContainsAny(t.resolutionNotes.GetOr(""), Preprocess.KEYWORD_STEPS)
    ensures var r := Recommendation(RowOf(Preprocess.QualityOf(t, rx), hasAttachment));
            r != OK_MSG && Substring(COMPLETENESS_MSG, r)
    ensures PROFESSIONALISM_MSG !in Advice(RowOf(Preprocess.QualityOf(t, rx), hasAttachment))
  {
    var q := Preprocess.QualityOf(t, rx);
    var row := RowOf(q, hasAttachment);
    Preprocess.QualityNeedsSteps(t, rx);
    AdviceIff(row);
    AcceptedIff(row);
    WarningContainsAll(Advice(row));
  }
}
