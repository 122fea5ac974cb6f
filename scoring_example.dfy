/** A worked ticket for the canonical rubric: a network ticket whose
    resolution notes follow the three-header format, name the category and
    record the user's confirmation, but carry no strike flow and no contact
    block. It scores 5 for category, priority and client notes and the
    partial 3 for the e-mail format checkpoint. */
module ScoringExample {
  import opened Fields
  import opened Text
  import opened Scoring
  import opened ScoringMain

  /** The resolution notes, phrase by phrase. */
  const PHRASES: seq<string> := [
    "Issue Reported:", " VPN down. ", "Probable Cause:", " driver. ", "Resolution Provided:",
    " reinstalled driver. ", "Network", " fixed, ", "user confirmed", " working fine."]

  /** The phrases written one after the other. */
  function Concat(ps: seq<string>): string
    decreases |ps|
  {
    if ps == [] then "" else Concat(ps[..|ps| - 1]) + ps[|ps| - 1]
  }

  const NOTES: string := Concat(PHRASES)

  /** Category "Network", priority "P3", an MTTR of 10 hours, the notes
      above and nothing else. */
  const VPN_TICKET: Ticket := Ticket("Network", "", "P3", NOTES, "", "", "", "", Value(10.0), None, [])

  /** Each phrase occurs in the concatenation. */
  lemma {:induction false} PhraseIn(ps: seq<string>, i: nat)
    requires i < |ps|
    ensures Substring(ps[i], Concat(ps))
    decreases |ps|
  {
    var n := |ps| - 1;
    var init := ps[..n];
    if i == n {
      SubstringAt(ps[n], ps[n], 0);
      SubstringOfRight(ps[n], Concat(init), ps[n]);
    } else {
      PhraseIn(init, i);
      SubstringOfLeft(ps[i], Concat(init), ps[n]);
    }
  }

  /** A character no phrase holds is not in the concatenation. */
  lemma {:induction false} CharAbsent(ps: seq<string>, c: char)
    requires forall i :: 0 <= i < |ps| ==> c !in ps[i]
    ensures c !in Concat(ps)
    decreases |ps|
  {
    if ps != [] {
      CharAbsent(ps[..|ps| - 1], c);
    }
  }

  /** A character that only `c` and `u` lower to stays out of the lowered
      text when both are absent. */
  lemma LowerAvoids(s: string, c: char, u: char)
    requires c !in s && u !in s
    requires forall x: char :: LowerChar(x) == c ==> x == c || x == u
    ensures c !in Lower(s)
  {
  }

  lemma CategoryFound()
    ensures Substring(Lower("Network"), Lower(NOTES))
  {
    PhraseIn(PHRASES, 6);
    SubstringLower(PHRASES[6], NOTES);
  }

  lemma HeaderFound(i: nat, header: string)
    requires i < |PHRASES| && Lower(PHRASES[i]) == header
    ensures Substring(header, Lower(NOTES))
  {
    PhraseIn(PHRASES, i);
    SubstringLower(PHRASES[i], NOTES);
  }

  lemma HeadersFound()
    ensures DetectResolutionFormat(NOTES)
  {
    assert Lower(PHRASES[0]) == "issue reported:";
    HeaderFound(0, "issue reported:");
    assert Lower(PHRASES[2]) == "probable cause:";
    HeaderFound(2, "probable cause:");
    assert Lower(PHRASES[4]) == "resolution provided:";
    HeaderFound(4, "resolution provided:");
    ResolutionFormatHeaders(NOTES);
  }

  lemma ConfirmationFound()
    ensures Contains(NOTES, PHR_CLIENT_CONFIRMED)
  {
    PhraseIn(PHRASES, 8);
    SubstringLower(PHRASES[8], NOTES);
    assert Lower(PHR_CLIENT_CONFIRMED[0]) == Lower(PHRASES[8]);
  }

  /** None of the phrases holds an 'h', an 'H' or a '+'. */
  lemma AbsentFromNotes(c: char)
    requires c == 'h' || c == 'H' || c == '+'
    ensures c !in NOTES
  {
    if c == 'h' {
      CharAbsent(PHRASES, 'h');
    } else if c == 'H' {
      CharAbsent(PHRASES, 'H');
    } else {
      CharAbsent(PHRASES, '+');
    }
  }

  /** "P3" names neither of the short-limit priorities. */
  lemma P3Limit()
    ensures PriorityLimit("P3") == 72.0
  {
    assert Lower("P3") == "p3";
    assert "p3"[..2][1] != "p1"[1] && "p3"[..2][1] != "p2"[1];
    assert "p3"[1..] == "3" && "3"[1..] == "";
    assert !Substring("p1", "") && !Substring("p2", "");
    assert !Substring("p1", "3") && !Substring("p2", "3");
  }

  /** Every contact entry holds an 'h' ("connect chat") or a '+' (the phone
      numbers), so a text without either has no contact block. */
  lemma NoContactWithout(text: string)
    requires 'h' !in Lower(text) && '+' !in Lower(text)
    ensures !Contains(text, PHR_CONTACT)
  {
    if Contains(text, PHR_CONTACT) {
      var i :| 0 <= i < |PHR_CONTACT| && Substring(Lower(PHR_CONTACT[i]), Lower(text));
      if i == 0 {
        assert Lower(PHR_CONTACT[0])[9] == 'h';
        SubstringChars(Lower(PHR_CONTACT[0]), Lower(text), 9);
      } else {
        assert Lower(PHR_CONTACT[i])[0] == '+';
        SubstringChars(Lower(PHR_CONTACT[i]), Lower(text), 0);
      }
    }
  }

  lemma NoContact()
    ensures !Contains(Unified(VPN_TICKET), PHR_CONTACT)
  {
    var u := Unified(VPN_TICKET);
    AbsentFromNotes('h');
    AbsentFromNotes('H');
    AbsentFromNotes('+');
    assert u == NOTES + "\n" + "" + "\n" + "" + "\n" + "";
    LowerAvoids(u, 'h', 'H');
    LowerAvoids(u, '+', '+');
    NoContactWithout(u);
  }

  /** The four checkpoints the example is about: category found (5), a P3
      ticket resolved within 72 hours (5), the headers without a strike flow
      or contact block (3), the user's confirmation (5). */
  lemma ExampleTicketScores()
    ensures ScoreTicket(VPN_TICKET).category == 5
    ensures ScoreTicket(VPN_TICKET).priority == 5
    ensures ScoreTicket(VPN_TICKET).emailFormat == 3
    ensures ScoreTicket(VPN_TICKET).clientNotes == 5
  {
    CategoryFound();
    P3Limit();
    HeadersFound();
    NoContact();
    EmailFormatNeedsContact(Unified(VPN_TICKET), NOTES);
    ConfirmationFound();
    UnifiedKeepsKeywords(VPN_TICKET, PHR_CLIENT_CONFIRMED);
  }
}
