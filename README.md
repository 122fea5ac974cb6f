# Helpdesk ticket quality scoring, modelled in Dafny

This project models a rule-based quality-control (QC) scorer for helpdesk
tickets exported from a service desk. The model covers four parts of the system.

- **Raw load** (`raw_load.dfy`, module `RawLoad`) prepares the frame. It
  normalises the column labels, turns missing text cells into empty strings,
  converts the four date columns, and derives `mttr_hours` and
  `response_time_hours`. It then joins the four note columns into
  `unified_text`. The frame is a `class Frame` whose methods rewrite its
  label list and column list in place. Each method is proved against a
  function on a value `Table`.
- **Canonical scorer** (`scoring.dfy`, `scoring_main.dfy`, `scoring_example.dfy`)
  gives each ticket 13 QC checkpoints, each worth 0 to 5 points. The scorer
  uses case-insensitive keyword detectors (hold / three-strike / closure /
  contact e-mail flow, the three resolution-note headers, Teams
  confirmation, screenshots). It joins the notes into one "unified" text and
  builds a `qc_total_65` that sums every column whose label starts with
  `qc_`. The per-column sum and the per-frame scoring are loops, modelled as
  methods.
- **Variant scorer** (`preprocess.dfy`, module `Preprocess`) is the
  alternative rule set. It covers text statistics, keyword flags, the
  variant checkpoint lambdas, the in-place clip of every `qc_` column to 0..5
  (a method over an array of columns), and the automatic ticket quality
  index (TQI) built from five component scores.
- **Recommendation** (`recommend.dfy`, module `Recommend`) is `utils.generate_recommendation`,
  which maps a processed row to a coaching message. It is built by
  appending advice in a method.

Shared helpers:

- `text.dfy` holds Python's string semantics as used here: `str.lower`
  (ASCII), `in` on strings, `str.strip` and `str.split()` with Python's
  whitespace set, and `str.count`.
- `fields.dfy` holds optional values, values that `float()` may reject, and
  `int()` truncation toward zero.

## Model

| member | source | states |
|---|---|---|
| Fields.Trunc | eda_preprocess.py:71 | `int()` of a float truncates toward zero: the result lies within one of `x`, on the side of zero |
| Text.LowerIsLowerCase | 2scoring_logic.py:30 | lower-casing yields a lower-case string of the same length |
| Text.LowerIdempotent | 2scoring_logic.py:79 | lower-casing twice equals lower-casing once, so detectors that lower an already lowered text see the same text |
| Text.LowerConcat | 2scoring_logic.py:261-266 | lower-casing distributes over concatenation |
| Text.SubstringIndex | 2scoring_logic.py:31 | whenever `needle in hay` holds, some window of `hay` equals `needle` |
| Text.SubstringLower | 2scoring_logic.py:31 | a substring stays a substring after both sides are lower-cased |
| Text.StripShape | 1raw_load.py:38 | `strip()` removes exactly a leading and a trailing all-whitespace run, and the result neither starts nor ends with whitespace |
| Text.StripEmpty | eda_preprocess.py:81 | `s.strip() == ""` holds exactly when `s` is all whitespace |
| Text.SplitJoin | eda_preprocess.py:23 | the tokens of `split()` hold exactly the non-whitespace characters of the text, in order |
| Text.SplitTokens | eda_preprocess.py:23 | every token of `split()` is non-empty and free of whitespace |
| Text.SplitGaps | eda_preprocess.py:23 | the text is the tokens of `split()` separated by whitespace gaps, with a non-empty gap between every two tokens, so the tokens are the maximal non-whitespace runs |
| Text.SplitBound | eda_preprocess.py:23 | the word count is at most the character count, and is zero exactly for all-whitespace text |
| Text.OccurrencesBound | eda_preprocess.py:23 | the counts of '.', '!' and '?' add up to at most the length of the text |
| Scoring.Contains | 2scoring_logic.py:28-31 | some keyword, lower-cased, occurs in the lower-cased text; `CountHitsPositive` ties it to `count_hits` and `ContainsLowered` shows lower-casing the text first changes nothing |
| Scoring.CountHits | 2scoring_logic.py:33-36 | `count_hits` is at most the number of keywords |
| Scoring.CountHitsPositive | 2scoring_logic.py:28-36 | `count_hits` is positive exactly when `contains` holds |
| Scoring.CountHitsAll | 2scoring_logic.py:33-36 | `count_hits` equals the number of keywords exactly when every keyword is found |
| Scoring.ContainsLowered | 2scoring_logic.py:28-31 | `contains` gives the same answer on a text and on its lower-cased copy |
| Scoring.ContainsWithin | 2scoring_logic.py:28-31 | a keyword found in a text is still found in any text that embeds it |
| Scoring.LowerCaseKeywords | 2scoring_logic.py:229 | for lower-case keyword lists, the plain `any(bad in t ...)` test agrees with `contains` |
| Scoring.DetectResolutionFormat | 2scoring_logic.py:77-80 | every one of the three section headers occurs in the lower-cased text; `ResolutionFormatHeaders` names the three headers |
| Scoring.ResolutionFormatHeaders | 2scoring_logic.py:77-80 | the resolution format holds exactly when "issue reported:", "probable cause:" and "resolution provided:" all occur, ignoring case |
| Scoring.DetectThreeStrikeFlow | 2scoring_logic.py:82-89 | a hold, a strike, a closure and a contact phrase all occur in the lower-cased text; `StrikeFlowSteps` and `StrikeFlowLowered` characterise it |
| Scoring.StrikeFlowSteps | 2scoring_logic.py:82-89 | the three-strike flow holds exactly when a hold phrase, some strike phrase, a closure phrase and a contact line are all present; in particular it implies the contact line |
| Scoring.StrikeFlowLowered | 2scoring_logic.py:84 | the flow detector gives the same answer on a lower-cased text |
| Scoring.DetectScreenshot | 2scoring_logic.py:91-93 | some screenshot phrase occurs, ignoring case; `ScoreScreenshot` states the checkpoint built on it |
| Scoring.DetectTeamsConfirmation | 2scoring_logic.py:95-101 | 5 exactly with a Teams mention and a confirmation, 3 exactly with a Teams mention and no confirmation, 0 exactly without a Teams mention |
| Scoring.TeamsFirstEntryDecides | 2scoring_logic.py:62 | a Teams mention is found exactly when "teams" occurs, since the other two entries contain it |
| Scoring.ScoreLabel | 2scoring_logic.py:106-123 | checkpoints 1 and 2: 5 exactly when the label is non-empty and occurs in the notes; 3 exactly when it does not occur but the notes exceed 80 characters; otherwise 0 |
| Scoring.ScoreLabelGrowing | 2scoring_logic.py:106-112 | appending text to the notes never lowers the label score |
| Scoring.ScoreReadPrev | 2scoring_logic.py:128-133 | checkpoint 3: 5 exactly when a previous-notes phrase occurs; 3 exactly when none occurs and the text exceeds 150 characters |
| Scoring.ScoreRouting | 2scoring_logic.py:138-142 | checkpoint 4: 5, 3 or 0 for zero, one, or two or more routing-problem phrases |
| Scoring.RoutingCleanIff | 2scoring_logic.py:138-142 | full routing marks exactly when no routing-problem phrase occurs |
| Scoring.ScoreOwnership | 2scoring_logic.py:147-153 | checkpoint 5: 2 exactly on a hand-over phrase; 5 exactly on an engagement phrase without a hand-over; 3 otherwise |
| Scoring.ScoreTimely | 2scoring_logic.py:158-162 | checkpoint 6: a missing response time gives 3; 5 exactly for at most 4 hours; 0 exactly beyond 24 hours |
| Scoring.TimelyMonotone | 2scoring_logic.py:158-162 | a slower response never scores more |
| Scoring.ScorePriority | 2scoring_logic.py:167-176 | checkpoint 7: an MTTR that `float()` rejects gives 3; 5 exactly when the MTTR is within 4 h (p1), 8 h (p2) or 72 h (otherwise); a slow p2 ticket gets 3 and any other slow ticket 2 |
| Scoring.PriorityBoundaryP1 | 2scoring_logic.py:172-173 | a P1 ticket resolved in exactly 4 hours gets 5, and one resolved in 4.01 hours gets 2 |
| Scoring.ScoreEmailFormat | 2scoring_logic.py:181-196 | checkpoint 8: 5 exactly with the resolution headers and the three-strike flow; 0 exactly with neither the headers nor a contact line |
| Scoring.EmailFormatNeedsContact | 2scoring_logic.py:181-196 | without a contact line there is no three-strike flow, and checkpoint 8 is 3 with the headers and 0 without them |
| Scoring.ScoreScreenshot | 2scoring_logic.py:207-213 | checkpoint 10: 5 exactly when a screenshot phrase occurs; 0 exactly when none occurs inside a three-strike flow; 3 otherwise |
| Scoring.ScoreDocShare | 2scoring_logic.py:218-221 | checkpoint 11: 5 exactly when a document location occurs, else 0 |
| Scoring.BadLanguageIsLowerCase | 2scoring_logic.py:71 | every blacklisted word is lower-case, so the plain membership test in checkpoint 12 is case-insensitive |
| Scoring.ScoreCompliance | 2scoring_logic.py:226-245 | checkpoint 12: 0 exactly on blacklisted language; 5 exactly without it when the timeline says "met", or says no "breach" and the MTTR is not a number above 72 |
| Scoring.ScoreClientNotes | 2scoring_logic.py:250-253 | checkpoint 13: 5 exactly when a client-confirmation phrase occurs, else 0 |
| ScoringMain.Unified | 2scoring_logic.py:261-266 | resolution notes, work notes, combined notes and comments joined by newlines; `UnifiedKeepsKeywords` and `NothingInNewlines` characterise it |
| ScoringMain.UnifiedKeepsKeywords | 2scoring_logic.py:261-266 | the unified text starts with the resolution notes, has the combined length plus three newlines, and keeps every keyword found in any of the four note fields |
| ScoringMain.PointFieldsAll | 2scoring_logic.py:268-280 | a row whose 13 fields are each 0, 2, 3 or 5 has all its values on that scale |
| ScoringMain.ScoreTicket | 2scoring_logic.py:268-280 | each of the 13 checkpoint scores of a ticket is 0, 2, 3 or 5 |
| ScoringMain.SumQc | 2scoring_logic.py:282-283 | the sum of the values of the columns whose labels start with `qc_`; `SumQcAppend`, `SumQcOther`, `SumQcAll` characterise it and `QcTotal` computes it |
| ScoringMain.SumQcAppend | 2scoring_logic.py:282-283 | the `qc_` sum of two column lists joined is the sum of their `qc_` sums |
| ScoringMain.SumQcOther | 2scoring_logic.py:282 | columns whose labels lack the `qc_` prefix contribute nothing |
| ScoringMain.SumQcAll | 2scoring_logic.py:282-283 | over `qc_` columns only, the `qc_` sum is the plain sum of their values |
| ScoringMain.SumBounds | 2scoring_logic.py:283 | values between 0 and 5 sum to between 0 and 5 per value |
| ScoringMain.SumValues | 2scoring_logic.py:283 | the sum of the 13 values of a row is the sum of its 13 named checkpoints |
| ScoringMain.QcNamesArePrefixed | 2scoring_logic.py:268-280 | all 13 checkpoint labels start with `qc_` |
| ScoringMain.QcColumnsSum | 2scoring_logic.py:282-283 | the `qc_` sum of the 13 checkpoint columns is the sum of their values |
| ScoringMain.ScoreRow | 2scoring_logic.py:261-283 | the unified text, the 13 checkpoints, and the `qc_` total over the surviving input columns and the checkpoint columns; `TotalIsCheckpointSum` and `RescoringIgnoresOldScores` state the total |
| ScoringMain.Unscored | 2scoring_logic.py:268-280 | the input columns left after the 13 assignments: every input column whose label is not a checkpoint label, and no column with a checkpoint label |
| ScoringMain.TotalIsCheckpointSum | 2scoring_logic.py:268-283 | for a ticket whose only `qc_` input columns are checkpoint columns (which the assignments overwrite), `qc_total_65` is the sum of its 13 checkpoints and lies between 0 and 65 |
| ScoringMain.RescoringIgnoresOldScores | 2scoring_logic.py:268-283 | scoring a row that already carries 13 checkpoint columns gives the same total as scoring it without them |
| ScoringMain.RescoringAddsOldTotal | 2scoring_logic.py:282-283 | a row that also carries an earlier `qc_total_65` gets that old total added into the new one, since the label starts with `qc_` |
| ScoringMain.RowTotal | 2scoring_logic.py:282-283 | non-`qc_` input columns followed by the checkpoint columns sum to the checkpoint sum |
| ScoringMain.FieldSumBounds | 2scoring_logic.py:283 | 13 checkpoints on the 0/2/3/5 scale total between 0 and 65 |
| ScoringMain.QcTotal | 2scoring_logic.py:282-283 | the loop over the columns adds up exactly the values of the `qc_` columns |
| ScoringMain.ScoreOne | 2scoring_logic.py:268-283 | scoring one ticket produces its 13 checkpoints and the `qc_` total over the surviving input columns and the new checkpoints |
| ScoringMain.ScoreFrame | 2scoring_logic.py:258-283 | the loop over the frame scores every ticket in order, and every total of a ticket without `qc_` columns other than the checkpoint columns lies in 0..65 |
| ScoringMain.MapSeq | 2scoring_logic.py:270 | applying a scorer column-wise gives one result per row, each the scorer applied to that row |
| ScoringMain.FrameTotals | 2scoring_logic.py:283 | every total of a fully scored frame lies in 0..65 when the ticket has no `qc_` columns other than the checkpoint columns |
| ScoringMain.NothingInNewlines | 2scoring_logic.py:261-266 | the separator newlines alone never match a keyword that does not start with a newline |
| ScoringMain.EmptyTicketScores | 2scoring_logic.py:268-280 | a ticket with every field empty scores 0,0,0,5,3,3,2,0,0,3,0,5,0 |
| ScoringMain.EmptyTicketTotal | 2scoring_logic.py:283 | an empty ticket totals 21 |
| ScoringExample.HeadersFound | 2scoring_logic.py:77-80 | notes opening with "Issue Reported:", "Probable Cause:" and "Resolution Provided:" pass the resolution-format check |
| ScoringExample.P3Limit | 2scoring_logic.py:172-176 | a "P3" priority takes the 72-hour limit |
| ScoringExample.NoContactWithout | 2scoring_logic.py:51-56 | a text without 'h' and '+' (after lower-casing) holds no contact line |
| ScoringExample.NoContact | 2scoring_logic.py:186 | the example ticket's unified text holds no contact line |
| ScoringExample.ExampleTicketScores | 2scoring_logic.py:268-280 | the example network ticket scores 5 for category, 5 for priority, 3 for e-mail format and 5 for client notes |
| Preprocess.TextStats | eda_preprocess.py:21-24 | characters are the length; words are the number of `split()` tokens, at most characters and zero exactly for all-whitespace text; sentences are the count of '.', '!' and '?' raised to at least 1, and at most max(1, characters) |
| Preprocess.ContainsAny | eda_preprocess.py:26-28 | some keyword, as written, occurs in the lower-cased text; `UpperKeywordNeverMatches` shows upper-case keywords never match |
| Preprocess.UpperKeywordNeverMatches | eda_preprocess.py:26-28 | a keyword holding an upper-case letter never matches, because only the text is lower-cased |
| Preprocess.FindImageAttachment | eda_preprocess.py:36-42 | an attachment word or an image extension occurs in the lower-cased text; `AttachmentWordsReduce` and `ScoreAttachmentPresence` state what it decides |
| Preprocess.AttachmentWordsReduce | eda_preprocess.py:18 | "attachment:" is redundant in the attachment word list, since "attachment" subsumes it |
| Preprocess.ScorePresenceFlag | eda_preprocess.py:57-59 | 5 exactly when the flag holds, else 0 |
| Preprocess.ScoreYesMaybe | eda_preprocess.py:61-67 | 5 exactly on strong evidence; 3 exactly on weak evidence only; else 0 |
| Preprocess.ScoreReassignment | eda_preprocess.py:69-78 | a count `int()` rejects gives 3; otherwise 5 exactly when the truncated count is 0, and 0 exactly when it exceeds 2 |
| Preprocess.ReassignmentTruncates | eda_preprocess.py:71 | counts 0.5 and -0.5 truncate to 0 and score 5; -7 scores 3 |
| Preprocess.BlankIsAllSpace | eda_preprocess.py:81 | an assignee is blank exactly when it is absent or all whitespace |
| Preprocess.ScoreOwnership | eda_preprocess.py:80-87 | 0 exactly for a blank assignee; 5 exactly for an assignee and no reassignment; 2 exactly for an assignee and more than two reassignments |
| Preprocess.ScorePriorityConsistency | eda_preprocess.py:111-126 | 0 exactly for a blank priority; 4 for a non-urgent priority resolved in under 4 hours; 3 for an urgent priority whose MTTR is not within its limit |
| Preprocess.ScoreEmailFormat | eda_preprocess.py:128-134 | 5 exactly on an e-mail phrase or a KB reference; 3 exactly without either in a text over 100 characters |
| Preprocess.TeamsAliases | eda_preprocess.py:136-140 | the longer Teams and confirmation keywords are subsumed by "teams" and "confirmed" |
| Preprocess.ScoreTeamsTranscription | eda_preprocess.py:136-140 | 5 exactly when "teams" occurs, or when a timestamp and "confirmed" both occur |
| Preprocess.ScoreAttachmentPresence | eda_preprocess.py:142-146 | 5 exactly when the work notes mention an attachment or image, or the attachment field is not blank |
| Preprocess.ScoreDocumentSharing | eda_preprocess.py:148-152 | 5 exactly on a document location, or when both "http" and "kb" occur |
| Preprocess.ScoreCompliance | eda_preprocess.py:154-164 | 0 exactly on profanity or an unsupported application; 2 exactly without those when the MTTR exceeds 72 hours |
| Preprocess.ScoreClientNotes | eda_preprocess.py:166-170 | 5 exactly on a client-confirmation phrase; 4 exactly without one when a thanks phrase occurs |
| Preprocess.ScoreLabel | eda_preprocess.py:222-223 | 0 exactly for a missing label; 5 exactly when the label occurs in the resolution notes; otherwise 3 |
| Preprocess.EmptyLabelFound | eda_preprocess.py:222 | an empty but present label always counts as found |
| Preprocess.Clip | eda_preprocess.py:238 | clipping keeps values in 0..5 unchanged and sends lower values to 0 and higher ones to 5 |
| Preprocess.ClipAll | eda_preprocess.py:238 | clipping a column clips each value and keeps the order |
| Preprocess.ClipQcColumns | eda_preprocess.py:237-238 | every `qc_` column is replaced by its clipped copy, leaving all values in 0..5 |
| Preprocess.AuditQc | eda_preprocess.py:222-226 | the category, subcategory, read-previous, routing and ownership checkpoints are five values in 0..5 |
| Preprocess.HandlingQc | eda_preprocess.py:228-230 | the priority, e-mail and Teams checkpoints are three values in 0..5 |
| Preprocess.EvidenceQc | eda_preprocess.py:231-234 | the screenshot, document, compliance and client-notes checkpoints are four values in 0..5 |
| Preprocess.RawQc | eda_preprocess.py:222-234 | the 13 variant checkpoints, each in 0..5, with the timeliness score (0, 3 or 5) in the sixth place |
| Preprocess.ClipKeepsRawQc | eda_preprocess.py:237-238 | the clip leaves the 13 checkpoints of a ticket unchanged |
| Preprocess.ClipRowsIsClipColumns | eda_preprocess.py:237-238 | clipping every row gives the same columns as clipping every column |
| Preprocess.ClarityFromChars | eda_preprocess.py:241-246 | clarity is 5 exactly from 200 characters and 1 exactly below 100 |
| Preprocess.Completeness | eda_preprocess.py:247 | 5 exactly with steps and a confirmation; 1 exactly without steps |
| Preprocess.Accuracy | eda_preprocess.py:248 | 4 exactly when a category is present and occurs in the notes, else 2 |
| Preprocess.Actionability | eda_preprocess.py:249 | 4 exactly with a step keyword, else 2 |
| Preprocess.StrippedStartsUpper | eda_preprocess.py:250 | the stripped notes start with a capital letter exactly when the first non-whitespace character is one |
| Preprocess.Professionalism | eda_preprocess.py:250 | 5 exactly when the first non-whitespace character is a capital letter, else 3 |
| Preprocess.DeriveFlags | eda_preprocess.py:213-218 | the step and confirmation keywords and a KB reference in the resolution notes, a timestamp in either note, and an attachment in the work notes or a non-blank attachment field; `QualityOf` and `QualityNeedsSteps` state what the index makes of them |
| Preprocess.Tqi | eda_preprocess.py:251 | the integer-weighted sum 4, 6, 2, 4, 4 of the five components; `TqiWeights` shows it equals the source's weighted sum times 20, and `QualityOf` bounds it |
| Preprocess.TqiWeights | eda_preprocess.py:251 | the weights 0.2, 0.3, 0.1, 0.2, 0.2 times 20 equal integer weights 4, 6, 2, 4, 4 exactly, so rounding is the identity |
| Preprocess.QualityOf | eda_preprocess.py:241-251 | the quality index lies between 32 and 92 |
| Preprocess.QualityNeedsSteps | eda_preprocess.py:247-251 | notes without a step keyword cap the index at 60; 92 needs steps, a confirmation, at least 200 characters, a capital first letter and the category |
| Preprocess.ProcessRow | eda_preprocess.py:209-251 | a processed row has 13 checkpoints in 0..5, equal to the raw ones, with the given timeliness score, and an index in 32..92 |
| RawLoad.Find | 1raw_load.py:76 | the first position of a label, or the length when it is absent |
| RawLoad.SetColumn | 1raw_load.py:77 | assigning a column replaces every column with that label, or appends a new labelled column |
| RawLoad.SetColumnWellFormed | 1raw_load.py:77 | assignment keeps every column at the frame's row count, and the label then reads back the new column |
| RawLoad.SetColumnElsewhere | 1raw_load.py:83 | assigning one label leaves every other label and its column unchanged |
| RawLoad.SetColumnLayout | 1raw_load.py:77 | assignment keeps every label in place and can only append that label |
| RawLoad.FindUnique | 1raw_load.py:76 | the first position holding a label is what `Find` returns |
| RawLoad.ApplyStep | 1raw_load.py:71-73 | for an idempotent cell transform, processing one more listed label extends the loop by one step |
| RawLoad.NormalizeName | 1raw_load.py:35-44 | a normalised label has the stripped length, is lower-case, holds no space, '/' or '-', and has no surrounding whitespace; each character is '_' where the stripped label has a space, '/' or '-', and that character lowered otherwise |
| RawLoad.StripEnds | 1raw_load.py:38 | a stripped string neither starts nor ends with whitespace |
| RawLoad.StripTrimmed | 1raw_load.py:38 | stripping a string without surrounding whitespace changes nothing |
| RawLoad.NormalizeIdempotent | 1raw_load.py:35-44 | normalising a label twice equals normalising it once |
| RawLoad.NormalizeWorkNotes | 1raw_load.py:35-44 | "Work Notes" becomes "work_notes" |
| RawLoad.NormalizeOpenedAt | 1raw_load.py:35-44 | " Opened/At " becomes "opened_at" |
| RawLoad.NormalizeAll | 1raw_load.py:36-43 | every label is normalised and keeps its position |
| RawLoad.CleanCell | 1raw_load.py:57 | a cleaned cell is text, a missing cell becomes "", and text is kept |
| RawLoad.CleanColumn | 1raw_load.py:57 | a cleaned column cleans each cell |
| RawLoad.CleanColumnSettles | 1raw_load.py:57 | a cleaned column holds only text, and cleaning it again changes nothing |
| RawLoad.Cleaned | 1raw_load.py:54-58 | cleaning keeps the labels and the number of columns |
| RawLoad.CleanedColumns | 1raw_load.py:54-58 | after cleaning, every listed text column holds only text and every other column is unchanged |
| RawLoad.ToDt | 1raw_load.py:65-67 | a converted cell is a timestamp or missing; a timestamp is kept, a missing cell stays missing, an unparseable cell becomes missing, and a new timestamp is the parsed value |
| RawLoad.ToDtColumn | 1raw_load.py:73 | a converted column converts each cell |
| RawLoad.ToDtSettles | 1raw_load.py:73 | converting a converted column again changes nothing |
| RawLoad.Hours | 1raw_load.py:77 | a duration is missing exactly when either end is not a timestamp |
| RawLoad.HoursColumn | 1raw_load.py:76-85 | every duration is missing when a column is absent, and is otherwise the row's end minus start |
| RawLoad.Converted | 1raw_load.py:69-73 | date conversion keeps the labels and the number of columns |
| RawLoad.ConvertedWellFormed | 1raw_load.py:69-73 | date conversion keeps the row count and leaves non-date columns unchanged |
| RawLoad.WithDurations | 1raw_load.py:63-87 | the converted frame with the two duration columns assigned; `WithDurationsWellFormed`, `DurationNames`, `DurationsKeepText` and `MttrOfRow` characterise it |
| RawLoad.AddDurations | 1raw_load.py:75-85 | `mttr_hours` then `response_time_hours`, both computed from the converted frame; `MttrColumn` and `AddDurationsKeepText` state what it keeps and sets |
| RawLoad.WithDurationsWellFormed | 1raw_load.py:63-87 | the date step keeps every column at the row count |
| RawLoad.TextColsAreNotDates | 1raw_load.py:49-52 | no text column is a date column or a duration column |
| RawLoad.DurationsKeepText | 1raw_load.py:63-87 | the date step leaves every text column and its label unchanged |
| RawLoad.ConvertedKeepsTime | 1raw_load.py:71-73 | a date cell that is already a timestamp survives conversion |
| RawLoad.HoursAt | 1raw_load.py:77 | with both timestamps present, the duration is their difference in hours |
| RawLoad.MttrColumn | 1raw_load.py:76-79 | `mttr_hours` holds resolved-minus-opened durations of the converted frame |
| RawLoad.MttrOfRow | 1raw_load.py:75-79 | a row with both timestamps gets MTTR = (resolved - opened) in hours, negative when resolution precedes opening |
| RawLoad.DurationNames | 1raw_load.py:63-87 | the date step keeps every label in place and only appends `mttr_hours` / `response_time_hours` |
| RawLoad.SetColumnKeepsText | 1raw_load.py:77 | assigning a non-text label keeps every text column all text |
| RawLoad.ConvertedKeepsText | 1raw_load.py:69-73 | date conversion keeps every text column all text |
| RawLoad.DurationsKeepAllText | 1raw_load.py:63-87 | text columns that hold only text still do after the date step |
| RawLoad.AddDurationsKeepText | 1raw_load.py:75-85 | adding the two duration columns keeps every text column all text |
| RawLoad.TwoColumnsKeepText | 1raw_load.py:77-83 | assigning the two duration labels keeps every text column all text |
| RawLoad.Cat | 1raw_load.py:93-98 | joining two cells gives text exactly when both are text, and then their concatenation |
| RawLoad.UnifiedCell | 1raw_load.py:93-98 | the row's four note cells joined element-wise with newlines, missing if any is missing; `UnifiedIsJoin` gives the joined text on a cleaned frame |
| RawLoad.UnifiedColumn | 1raw_load.py:92-99 | the unified column has one cell per row |
| RawLoad.UnifiedIsJoin | 1raw_load.py:92-99 | on a cleaned frame, a unified cell is work notes, resolution notes, combined notes and comments joined by newlines |
| RawLoad.UnifiedAllText | 1raw_load.py:92-99 | on a cleaned frame, the unified column holds only text |
| RawLoad.CleanedAndDated | 1raw_load.py:106-108 | after normalising, cleaning and the date step the frame keeps its row count and every text column holds only text |
| RawLoad.Prepared | 1raw_load.py:106-109 | after the four steps the frame keeps its row count and has an all-text `unified_text` column |
| RawLoad.PartAfterCleaning | 1raw_load.py:54-58 | after cleaning, a note label reads as the cleaned cell of the input, and an absent one as "" |
| RawLoad.PartAfterDates | 1raw_load.py:63-87 | the date step does not change what a note label reads as |
| RawLoad.DatedPart | 1raw_load.py:106-108 | after the first three steps a note label reads as the cleaned note of the input |
| RawLoad.PreparedCell | 1raw_load.py:92-99 | after the four steps the `unified_text` cell of a row is the join computed on the cleaned and dated frame |
| RawLoad.PreparedUnifiedIsJoin | 1raw_load.py:92-109 | after the four steps each row's unified text is its cleaned work notes, resolution notes, combined notes and comments joined by newlines, an absent note column counting as "" |
| RawLoad.Frame.constructor | 1raw_load.py:105 | the frame holds the loaded labels and columns |
| RawLoad.Frame.NormalizeColumns | 1raw_load.py:35-44 | the labels are replaced by their normalised forms and the data is unchanged |
| RawLoad.Frame.CleanText | 1raw_load.py:54-58 | the frame becomes the cleaned frame, column by column |
| RawLoad.Frame.ProcessDatetime | 1raw_load.py:63-87 | the frame becomes the converted frame with the two duration columns set |
| RawLoad.Frame.BuildUnifiedNotes | 1raw_load.py:92-99 | the frame gains (or replaces) `unified_text` computed from its note columns |
| RawLoad.Frame.Prepare | 1raw_load.py:106-109 | the frame becomes `Prepared` of the loaded frame: normalised, cleaned, dated, with an all-text `unified_text` column |
| Recommend.Advice | utils.py:18-26 | at most four pieces of advice |
| Recommend.AdviceIff | utils.py:19-26 | each piece of advice appears exactly when its check fires, and none appears exactly when no check fires |
| Recommend.JoinContains | utils.py:27 | every joined message occurs in the joined text |
| Recommend.WarningContainsAll | utils.py:27 | the warning text holds every piece of advice |
| Recommend.Recommendation | utils.py:14-27 | the acceptance message at a TQI of at least 70, else the warning with the advice joined by spaces, else the fallback; `AdviceIff`, `AcceptedIff` and `NoStepsAdvice` characterise it |
| Recommend.GenerateRecommendation | utils.py:14-27 | the acceptance message at a TQI of at least 70; otherwise every piece of advice appears in the warning, or the fallback message when there is none |
| Recommend.AcceptedIff | utils.py:15-17 | the acceptance message appears exactly at a TQI of at least 70, and the fallback exactly when it is below 70 and no check fires |
| Recommend.NoStepsAdvice | utils.py:14-27 | a ticket without step keywords is never accepted, is always told to add steps, and is never told to improve its tone |

## Left out

- `str.lower` and `str.isupper` cover ASCII letters only. Other alphabets are outside the model.
- The regular expressions are not modelled. The timestamp, KB and image-extension patterns are uninterpreted predicates in `Preprocess.Patterns`.
- `pd.to_datetime` is not modelled. Date parsing is a parameter of `RawLoad.Frame.ProcessDatetime`, and timestamps are integer nanoseconds.
- The variant `score_timely` (eda_preprocess.py:89-109) parses dates and timestamps inside notes. It is taken as an input value `timely`, restricted to the 0, 3 or 5 it can return.
- `compute_mttr` (eda_preprocess.py:44-54) is not modelled either. The variant's MTTR is an optional number.
- `qc_percent` (2scoring_logic.py:284) rounds a float and is not modelled.
- ScoringMain.Ticket: `numericColumns` holds integers, so a previously written output's `qc_percent` (a float) cannot be an input column. Such a file also carries `qc_total_65` and `qc_percent`, whose `qc_` labels make the source add them into the new total again (`RescoringAddsOldTotal` states this for `qc_total_65`); `RescoringIgnoresOldScores` covers a row carrying only the 13 checkpoint columns.
- Scoring.ScoreTimely: a response time that is neither missing nor a number makes `hours <= 4` raise in the source (2scoring_logic.py:158-162), which aborts the run; the model's `Option<real>` cannot hold such a value.
- Preprocess.ScoreCompliance: a non-numeric MTTR makes `float(mttr_hours)` raise in the source (eda_preprocess.py:162); the model's `Option<real>` cannot hold such a value.
- `compute_kpis` (utils.py:4-12) is not modelled.
- Pandas' NaN handling is simplified. In the canonical scorer an absent text is "" (so `str(NaN)` becoming "nan" is not modelled). In the variant an absent value is `None`.
- File and spreadsheet I/O, `print`, argument parsing and the variant's alternative column labels (`getcol`) are not modelled.
- A frame with duplicate labels is modelled by rewriting every column that has the label and reading the first.
- Text joined with a cell that is neither text nor missing raises an error in pandas. The model gives a missing cell instead (`RawLoad.Cat`). A missing operand gives a missing result in both.
- `Preprocess.TqiWeights` is proved over exact reals. Floating-point rounding of the TQI product is not modelled.
- The clip's `fillna(0).astype(int)` (eda_preprocess.py:238) is omitted, because every modelled checkpoint is already an integer.
- The variant's `.astype('Int64')` (eda_preprocess.py:205-206) raises on a fractional reopen or reassignment count. The model's `Option<int>` counts cannot hold such a value.
- ScoringMain.ScoreRow appends the 13 new checkpoint columns after the surviving input columns, where pandas overwrites an existing column in its place. The total does not depend on the column order. Duplicate input labels are not modelled.
- `PHR_OOO_5D`, `PHR_HOLIDAY` and the `regex` helper (2scoring_logic.py:38-39, 66-68) are unused by the scorers and are not modelled.
- ScoringMain.ScoreTicket: its own contract states only the checkpoint scale. What each checkpoint is follows from the per-checkpoint scorers it calls.

## Notes

- A hold, strike and closure sequence without a contact line scores 3 on the e-mail format checkpoint only when the resolution headers are present, and 0 otherwise, because the flow requires the contact line (2scoring_logic.py:88). `Scoring.EmailFormatNeedsContact` states this.
- The raw-load stage joins work notes first (1raw_load.py:93-98). The canonical scorer joins resolution notes first (2scoring_logic.py:261-266). Both orders are modelled as written.
- A ticket resolved before it was opened keeps a negative MTTR in the raw-load stage (`RawLoad.MttrOfRow`).
