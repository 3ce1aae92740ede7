# ATS resume checker — scoring core in Dafny

This project models the scoring core of the ATS resume checker (`analysis.py`, `tips.py` and the twelve
analyzers under `analyzers/`). It proves properties of that model. `analyze_resume` runs twelve checks on
the text extracted from a resume; each check returns a score, a maximum and a list of typed findings. It
estimates how much the document looks like a resume at all, dampens the percentages by that estimate,
picks a verdict, generates prioritised tips and counts the findings by type.

## How the model is built

- **Scores in tenths.** Every checker score is a multiple of 0.1 point in the source (`score += 1.5`,
  `0.3`, ...), so scores and maxima are integers counting tenths: contact 120, sections 150, experience 120,
  education 100, formatting 130, compatibility 80, action verbs 100, measurable results 100, hard skills 120,
  readability 80, consistency 70, keywords 100 (127 points in all). `round(score, 1)` is then the identity.
- **Confidence in half-signals.** `_resume_confidence` adds signals in steps of 0.5 out of 10; the model
  counts half-signals (at most 20) and defines the confidence as their number over 20, a real.
- **Rounding.** Python's `round` is half-to-even on exact rationals (`Scoring.RoundHalfEven`), characterised
  by its two defining inequalities and proved unique.
- **Threshold chains.** Every `if n >= a: ... elif n >= b: ...` ladder is a table of `Step(atLeast, Grade(points, kind))`
  rows read by one function, `Scoring.Tier`, with generic bound and monotonicity lemmas.
- **Findings.** A finding keeps its type (`pass`, `warning`, `fail`, `info`), a short fixed tag naming
  which message it is, and the numbers and strings the message would show; the message text is not kept.
- **Text.** String handling that is plain logic is modelled concretely in module `Text`: `strip`, `rstrip`,
  `split`, `split()`, ASCII `lower()`, `in`, a word-start match, sentence splitting at `[.!?]+`, slicing.
- **Regular expressions.** Searches whose results only feed counts or flags (email, phone, profile URLs,
  date ranges, job titles, companies, degrees, metrics, ...) are inputs of the model, grouped per analyzer in
  a `...Signals` datatype. Four-digit years (`\b(19|20)\d{2}\b`) and `\w+` runs are modelled concretely
  (modules `Years` and `Consistency`), as is every substring and word-start keyword search.
- **Catalogue.** `Catalog` holds the constant tables: section headings, action verbs by category, weak verbs,
  hard and soft skills by category, unprofessional email words and ATS-unfriendly characters.
- **Loops.** Source loops are methods with loop invariants, each proved equal to a recursive specification
  function about which the lemmas are stated (`Sections.FindSectionHeading`, `Confidence.CountHeadingLines`,
  `Matching.MatchGroups`, `Analysis.Tally`, ...).

Modules follow the source: one per analyzer, plus `Tips`, `Confidence` (the resume-likeness estimate) and
`Analysis` (`analyze_resume`). There are also shared modules: `Scoring` (findings, grades, rounding),
`Text`, `Catalog`, `Matching` (per-category keyword matching shared by the skill and verb checks),
`Ordering` (Python string order and `sorted`) and `Years`.

## Model

| member | source | states |
|---|---|---|
| Text.Strip | analyzers/sections.py:8 | `str.strip()`: the result is no longer than the input, starts and ends with a non-whitespace character, and is empty exactly when the input is all whitespace |
| Text.TrimStart | analyzers/sections.py:8 | the leading whitespace run removed: the result is a suffix of the input that does not start with whitespace, and everything cut off is whitespace |
| Text.TrimEnd | analyzers/sections.py:8 | the trailing whitespace run removed: the result is a prefix of the input that does not end with whitespace, and everything cut off is whitespace |
| Text.RStripChar | analyzers/sections.py:8 | `rstrip(":")`: a prefix of the input that does not end with the character, and every removed character is that character |
| Text.SplitChar | analyzers/sections.py:6 | `str.split("\n")`: at least one piece, no piece contains the separator, a single piece equal to the input exactly when the separator is absent |
| Text.SplitJoinChar | analyzers/sections.py:6 | joining the pieces of a split with the separator gives back the input |
| Text.ContainsAt | analyzers/sections.py:16 | Python's `sub in s` holds exactly when the substring occurs at some index |
| Text.ContainsPrefixOf | analyzers/sections.py:14-16 | a text containing a word contains every prefix of that word |
| Text.Found | analyzers/compatibility.py:29 | the list comprehension `[kw for kw in kws if kw in s]`: no longer than the keyword list, and every listed keyword is in the list and occurs in the text |
| Text.ContainsAnyFound | analysis.py:39-42 | `any(kw in s ...)` holds exactly when the filtered list of present keywords is non-empty, and exactly when some keyword of the list occurs |
| Text.OccursAtWordStartFromAt | analyzers/consistency.py:9-10 | a match of a word anchored by `\b` on its left holds exactly when the word occurs at an index preceded by a non-word character or the start |
| Text.OccursAtWordStartContains | analyzers/consistency.py:9-10 | a word-anchored match is also a plain substring match |
| Text.WordLength | analyzers/readability.py:16 | the length of the leading non-whitespace run: all of it is non-whitespace and the next character is whitespace |
| Text.Words | analyzers/readability.py:16 | `str.split()`: every piece is a non-empty run of non-whitespace characters; `Text.WordsOfWord`, `Text.WordsSplit` and `Text.WordsEmpty` pin the pieces down as exactly the maximal runs, in order |
| Text.TrimStartAfterSpace | analyzers/readability.py:16 | whitespace in front of a text is all that `lstrip` removes |
| Text.WordsAfterSpace | analyzers/readability.py:16 | leading whitespace does not change the words |
| Text.WordsOfWord | analyzers/readability.py:16 | a single run of non-whitespace characters splits into exactly itself |
| Text.WordsSplit | analyzers/readability.py:16 | a whitespace character splits the words in two: the words of `a + [c] + b` are those of `a` followed by those of `b`; with `Text.WordsOfWord` and `Text.WordsEmpty` this fixes `split()` as the maximal runs, in order |
| Text.WordsCons | analyzers/readability.py:16 | a word followed by nothing or by whitespace is the first word of the text |
| Text.WordsSplitAt | analyzers/readability.py:16 | the same split, by induction over the text before the space |
| Text.WordsEmpty | analyzers/readability.py:10-12 | `s.split()` is empty exactly when `s` is all whitespace |
| Text.SplitOn | analyzers/readability.py:53 | `str.split(sep)` gives at least one piece; `Text.SplitJoinOn` (joining gives the text back) and `Text.SplitOnStep` (each cut is at the leftmost occurrence) pin the pieces down |
| Text.FirstIndex | analyzers/readability.py:53 | the first index where the separator occurs: it occurs there and nowhere before |
| Text.SplitJoinOn | analyzers/readability.py:53 | joining the pieces with the separator gives back the text |
| Text.SplitOnStep | analyzers/readability.py:53 | the first piece ends at the leftmost occurrence of the separator: splitting `p + sep + t`, where `sep` occurs nowhere before position `len(p)`, gives `p` followed by the pieces of `t` |
| Text.SeparatorRun | analyzers/readability.py:9 | the leading run of `.`, `!`, `?` consumed by one match of `[.!?]+` |
| Text.FirstSentenceEnd | analyzers/readability.py:9 | the index of the first `.`, `!` or `?` (or the length): nothing before it ends a sentence |
| Text.SplitSentences | analyzers/readability.py:9 | `re.split(r'[.!?]+', text)`: at least one piece, and no piece contains a sentence-ending character; `Text.SplitSentencesNone` and `Text.SplitSentencesStep` pin the pieces down as what lies between maximal runs of `.`, `!` and `?` |
| Text.FirstSentenceEndAppend | analyzers/readability.py:9 | the first `.`, `!` or `?` of `p + x` is the first of `x` when `p` has none |
| Text.SeparatorRunAppend | analyzers/readability.py:9 | `[.!?]+` consumes a run of separators up to the first other character |
| Text.SplitSentencesNone | analyzers/readability.py:9 | a text without separators is one piece, itself |
| Text.SplitSentencesStep | analyzers/readability.py:9 | a maximal run of separators after a separator-free piece `p` ends it: `p + run + t` splits into `p` followed by the pieces of `t`; with `Text.SplitSentencesNone` this fixes the split |
| Text.Lower | analysis.py:70 | `str.lower()` on ASCII letters: same length, character by character lower-cased |
| Text.LowerAppend | analysis.py:70 | lower-casing commutes with concatenation |
| Text.LowerIdempotent | analysis.py:70 | lower-casing twice is lower-casing once, so analyzers that lower-case `text_lower` again see the same text |
| Text.RemoveSpaces | analyzers/contact.py:11 | `re.sub(r"\s+", "", s)`: no longer than the input and free of whitespace; `Text.RemoveSpacesAppend` and `Text.RemoveSpacesChar` show it keeps every other character, in order |
| Text.RemoveSpacesNoSpace | analyzers/contact.py:11 | removing whitespace from a text without whitespace changes nothing |
| Text.RemoveSpacesAppend | analyzers/contact.py:11 | removing whitespace commutes with concatenation |
| Text.RemoveSpacesChar | analyzers/contact.py:11 | one character goes exactly when it is whitespace; with `Text.RemoveSpacesAppend` this fixes the result |
| Text.RemoveSpacesLength | analyzers/contact.py:11 | the result is shorter than the input by exactly its number of whitespace characters |
| Text.Slice | analyzers/education.py:72 | Python slicing `s[a:b]` with indices past the end clamped to the length |
| Text.Prefix | analyzers/keywords.py:44-46 | `s[:n]`: the first `min(n, len(s))` elements |
| Text.Suffix | analyzers/education.py:74 | `s[-n:]` for positive `n`: the last `min(n, len(s))` elements |
| Text.IndexOf | analyzers/sections.py:6 | the first index of a character present in the text |
| Text.Count | analyzers/readability.py:29 | `sum(1 for x in s if p(x))`: at most the length |
| Text.Filter | analyzers/verbs.py:39 | a list filter: its length is the count, every kept element is in the input and satisfies the predicate, and every satisfying element is kept |
| Text.Dedup | analyzers/keywords.py:16-17 | `set(...)` taken in first-occurrence order: no duplicates, and the same elements as the input |
| Catalog.Flatten | analyzers/keywords.py:10-14 | every member of every group is in the flattened list |
| Compatibility.PresentChars | analyzers/compatibility.py:17 | `[c for c in ATS_UNFRIENDLY_CHARS if c in text]`: a character is listed exactly when it is in the table and in the text |
| Compatibility.PresentCharsNotOccurrences | analyzers/compatibility.py:17 | the list depends on presence only, not on how many times a character occurs |
| Compatibility.PresentCharsDistinct | analyzers/compatibility.py:17 | a table without repeats lists each present character once |
| Compatibility.UnfriendlyCharsDistinct | analyzers/compatibility.py:17 | over the 15-character table the list has no repeats and at most 15 entries |
| Compatibility.FileGrade | analyzers/compatibility.py:10-15 | only `pdf` and `docx` earn a finding, worth 2 points, a pass; every other extension earns no finding and no points |
| Compatibility.CharGradeAntitone | analyzers/compatibility.py:18-25 | more distinct problem characters never earn more points |
| Compatibility.CharGradeClean | analyzers/compatibility.py:18-20 | the special-character finding is a pass exactly when no character of the text is in the table |
| Compatibility.CompatibilityPointsBounds | analyzers/compatibility.py:10-51 | the score lies between 0.5 and 8 points, and is 8 exactly for a pdf/docx file with no problem characters, no header/footer words, at most 5 table indicators and no image references |
| Compatibility.CheckFileType | analyzers/compatibility.py:10-15 | the points of the file grade, and one pass finding for pdf/docx, none otherwise |
| Compatibility.CheckSpecialChars | analyzers/compatibility.py:18-25 | the points and finding kind of the three-tier special-character grade (none / at most 3 / more) |
| Compatibility.CheckHeaderFooter | analyzers/compatibility.py:30-35 | 1.5 points and a pass when no header/footer word is found, 0.5 and a warning otherwise |
| Compatibility.CheckTables | analyzers/compatibility.py:38-42 | a warning and no points for more than 5 table indicators, 1.5 points and a pass otherwise |
| Compatibility.CheckImages | analyzers/compatibility.py:45-49 | a warning and no points when an image reference exists, 1 point and a pass otherwise |
| Compatibility.ScoreCompatibility | analyzers/compatibility.py:5-51 | maximum 8, the score is the sum of the five grades, within bounds, and the findings come in source order with the kinds of their grades |
| Compatibility.CheckAtsCompatibility | analyzers/compatibility.py:5-51 | the check on a text and extension: the score of the present special characters, of the header/footer words found in the lower-cased text and of the table and image indicator counts; maximum 8 |
| Confidence.Confidence | analysis.py:66 | `min(signals / 10, 1.0)`: a value in [0, 1], equal to halves/20 when there are at most 20 half-signals |
| Confidence.HeadingLines | analysis.py:36-42 | the number of lines counted as headings is at most the number of lines |
| Confidence.SignalHalvesBounds | analysis.py:21-66 | the signal total lies between 0 and 10, so the `min(..., 1.0)` never bites |
| Confidence.ConfidenceThresholds | analysis.py:108-113 | the comparisons `confidence < 0.3 / 0.5 / 0.7` are `signals < 3 / 5 / 7` |
| Confidence.SignalHalvesMonotone | analysis.py:21-66 | more evidence (email, phone, headings, date ranges, bullet lines) never lowers the confidence |
| Confidence.LineHasHeading | analysis.py:39-42 | the inner loop with `break` finds a heading exactly when some heading occurs in the stripped line |
| Confidence.HeadingLine | analysis.py:37-42 | a line counts exactly when its stripped text is non-empty, shorter than 50 and contains a heading |
| Confidence.CountHeadingLines | analysis.py:34-42 | the loop's count equals the number of heading lines |
| Confidence.AddSignals | analysis.py:21-64 | the accumulated signals equal the tiered sum of email, phone, heading, date and bullet signals, and never exceed 10 |
| Confidence.ResumeConfidence | analysis.py:19-66 | signals computed from the lines of the lower-cased text, with the bullet lines counted as lines whose stripped text starts with a bullet glyph; at most 10 |
| Consistency.RunLength | analyzers/consistency.py:9 | the length of the leading `\w` run: all word characters, followed by a non-word character |
| Consistency.SkipNonWord | analyzers/consistency.py:9 | the text after the leading non-word characters starts with a word character |
| Consistency.WordRuns | analyzers/consistency.py:9-10 | the `\w+` runs of the text: each a non-empty run of word characters; `Consistency.WordRunsOfRun`, `Consistency.WordRunsSplitAt` and `Consistency.WordRunsAfterNonWord` pin them down as exactly the maximal runs, in order |
| Consistency.WordRunsAfterNonWord | analyzers/consistency.py:9-10 | leading non-word characters do not change the runs |
| Consistency.WordRunsOfRun | analyzers/consistency.py:9-10 | a single run of word characters is one match, itself |
| Consistency.RunLengthAppend | analyzers/consistency.py:9 | a run is not lengthened by what follows a non-word character |
| Consistency.WordRunsSplitAt | analyzers/consistency.py:9-10 | a non-word character splits the runs in two: the runs of `a + x` are those of `a` followed by those of `x` after its first character; with `Consistency.WordRunsOfRun` this fixes the runs as the maximal ones, in order |
| Consistency.WordRunsSplitRun | analyzers/consistency.py:9-10 | the same split for a text starting with a run, whose first run is the first on both sides |
| Consistency.MixedPairs | analyzers/consistency.py:41-47 | at most one label per pair |
| Consistency.MixedPairsComplete | analyzers/consistency.py:45-47 | every pair whose full and short forms both occur in the lower-cased text is listed |
| Consistency.MixedPairsSound | analyzers/consistency.py:45-47 | every listed label comes from a pair whose two forms both occur |
| Consistency.NoMixedPairs | analyzers/consistency.py:49-51 | nothing is listed exactly when no pair has both forms present |
| Consistency.PrefixPairAlwaysMixed | analyzers/consistency.py:46 | a pair whose short form is a prefix of its full form is mixed whenever the full form occurs |
| Consistency.ApplicationAndDevelopmentAlwaysMixed | analyzers/consistency.py:42-47 | any text containing "application" or "development" is reported as mixing App/Dev, since the short form is a prefix |
| Consistency.MixedAbbreviations | analyzers/consistency.py:41-47 | the loop's list equals the specification of mixed pairs |
| Consistency.TenseRatioThreshold | analyzers/consistency.py:13-14 | `min/max > 0.6` is the integer comparison `5*min > 3*max` |
| Consistency.TenseGradeSymmetric | analyzers/consistency.py:12-20 | when both tenses occur the grade does not depend on which tense is which, and equal counts always give the mixed-tense warning |
| Consistency.FirstPersonGradeAntitone | analyzers/consistency.py:31-39 | more first-person pronouns never earn more points |
| Consistency.ConsistencyPointsBounds | analyzers/consistency.py:12-56 | the score lies between 2 and 7, is 7 exactly for a full tense grade, no pronouns and no mixed pairs, and the tense grade is full exactly when past forms occur and present forms are absent or not close in number |
| Consistency.CheckTense | analyzers/consistency.py:12-29 | points and kind of the tense grade, with the counts on the warning and the dominant tense on the pass |
| Consistency.CheckFirstPerson | analyzers/consistency.py:31-39 | points and kind of the pronoun grade, with the count on a non-pass |
| Consistency.CheckAbbreviations | analyzers/consistency.py:49-54 | 2 points and a pass without mixed pairs, 1 point and a warning listing them otherwise |
| Consistency.ScoreConsistency | analyzers/consistency.py:4-56 | maximum 7, the score is the sum of the three grades within 2..7, three findings in source order |
| Consistency.CheckConsistency | analyzers/consistency.py:4-56 | the check on a text: past forms are `\w+ed` runs, present forms the listed verbs in any case, pronouns the exact-case words, mixed pairs found in the lower-cased text; the three findings have the kinds of the tense, pronoun and abbreviation grades of those counts, and the abbreviation warning lists the mixed pairs |
| Contact.EmailAddress | analyzers/contact.py:57 | whitespace removed and lower-cased: no space and no capital letter remains; `Contact.EmailAddressAppend`, `Contact.EmailAddressChar` and `Contact.EmailAddressLength` show every other character is kept, lower-cased and in order |
| Contact.LocalPart | analyzers/contact.py:59 | the text before the first `@`, or empty when there is none |
| Contact.Domain | analyzers/contact.py:58 | the text between the first and second `@`, or empty when there is none |
| Contact.EmailFinding | analyzers/contact.py:55-68 | no email is a fail; otherwise the finding lists the address, is a warning exactly when the local part contains an unprofessional word, and is otherwise a pass marked professional exactly when the domain is a listed webmail domain |
| Contact.EmailAddressIdempotent | analyzers/contact.py:57 | normalising an address twice is normalising it once |
| Contact.EmailAddressAppend | analyzers/contact.py:57 | normalising works piece by piece: the address of `x + y` is that of `x` followed by that of `y` |
| Contact.EmailAddressChar | analyzers/contact.py:57 | a whitespace character is dropped and any other one lower-cased; with `Contact.EmailAddressAppend` this fixes the address |
| Contact.EmailAddressLength | analyzers/contact.py:57 | the address is shorter than the match by exactly its number of whitespace characters |
| Contact.LocalPartDomain | analyzers/contact.py:58-59 | splitting `l@d` at `@` gives back `l` and `d` |
| Contact.UnprofessionalBeforeDomain | analyzers/contact.py:61-64 | an unprofessional word in the local part wins over a webmail domain: the finding is the warning |
| Contact.CheckEmail | analyzers/contact.py:55-68 | the email finding, and 3 points exactly when an email was matched |
| Contact.CheckLinkedIn | analyzers/contact.py:76-83 | 2 points and a pass exactly when one of the five searches matched, marked as a keyword-only reference exactly when the URL search on the collapsed text failed and the word search succeeded |
| Contact.CheckPortfolio | analyzers/contact.py:85-95 | 2 points and a pass when GitHub or a website matched, GitHub taking precedence; the keyword-only mark as for LinkedIn |
| Contact.CheckContactInfo | analyzers/contact.py:5-103 | maximum 12, score 3+3+2+2+2 for email, phone, LinkedIn, GitHub-or-website and location, within bounds, five findings in source order with the kinds and marks above |
| Text.DedupDistinct | analyzers/education.py:9-21 | a dictionary display whose keys are all different keeps every key in written order |
| Text.DedupRepeat | analyzers/education.py:9-21 | a dictionary display keeps the first position of a repeated key: writing a key again changes nothing |
| Education.DegreeNamesOrder | analyzers/education.py:9-21 | the eleven entries of the degree table, with "MBA" given three times, leave nine distinct keys in first-listed order |
| Education.KeepMatched | analyzers/education.py:23-26 | the degrees kept are exactly the table's names whose patterns matched, in table order |
| Education.KeepMatchedDistinct | analyzers/education.py:23-26 | a table without repeats reports each degree once |
| Education.FindDegrees | analyzers/education.py:23-26 | the loop's list equals the specification of kept degrees |
| Education.DegreesOnce | analyzers/education.py:9-26 | no degree is reported twice, and MBA is reported exactly when its pattern matched, although it is listed three times |
| Education.GradWindow | analyzers/education.py:69-74 | the 800 characters from the education heading when one is found, and the last 600 characters of the text otherwise |
| Education.DegreeFinding | analyzers/education.py:28-32 | a pass listing the degrees when any was found, a fail otherwise |
| Education.GradYearFinding | analyzers/education.py:74-79 | a pass carrying the sorted distinct years when any year was found, a warning otherwise |
| Education.EducationPointsBounds | analyzers/education.py:28-94 | the score lies between 0 and 9.5 points, so the cap of 10 never bites |
| Education.CheckGpa | analyzers/education.py:84-92 | 1 point and a pass for a GPA or for honours, the GPA taking precedence, an info finding otherwise |
| Education.ScoreEducation | analyzers/education.py:4-94 | maximum 10, the score 3+2+2+1.5+1 for degree, field, institution, year and GPA-or-honours, five findings in source order |
| Education.CheckEducation | analyzers/education.py:4-94 | the check on a text: the degrees kept from the table, institutions from keyword or named matches, years searched in the graduation window; the five findings carry the degree, field, institution, year and GPA-or-honours outcomes, a GPA reported as such |
| Experience.DateGradeMonotone | analyzers/experience.py:20-30 | more full or year-only ranges never earn fewer points |
| Experience.DateGradeKinds | analyzers/experience.py:20-30 | the date finding is a fail exactly when no range exists, and a pass exactly when two or more full month-year ranges exist |
| Experience.CheckDates | analyzers/experience.py:20-30 | points and kind of the date grade, with the full-range count on the pass and the total count on the two-or-more warning |
| Experience.YearFinding | analyzers/experience.py:34-39 | three or more distinct years give a pass carrying the span from first to last year, fewer give an info finding listing them |
| Experience.CareerSpan | analyzers/experience.py:32-37 | the first and last year of the span are years mentioned in the text |
| Experience.CheckYears | analyzers/experience.py:32-39 | 1.5 points exactly for three or more distinct years, and a year finding exactly when any year is mentioned |
| Experience.Normalized | analyzers/experience.py:51 | lower-cased and stripped titles, one per match |
| Experience.Stripped | analyzers/experience.py:67 | stripped company names, one per match |
| Experience.DistinctCount | analyzers/experience.py:51 | `len(set(...))`: at most the number of matches, and zero exactly when there were none |
| Experience.DistinctCountIsSetSize | analyzers/experience.py:51 | the count equals the size of the set of matched values |
| Experience.GradesMonotone | analyzers/experience.py:53-77 | more distinct titles or companies never earn fewer points, capped at 3 and 2.5 |
| Experience.CheckTitles | analyzers/experience.py:53-60 | points and kind of the title grade (3 or more / 1 or more / none), with the count when any was found |
| Experience.CheckCompanies | analyzers/experience.py:69-77 | points and kind of the company grade (2 or more / 1 / none) |
| Experience.ExperiencePointsBounds | analyzers/experience.py:20-91 | the score lies between 0 and 11.5 points, so the cap of 12 never bites |
| Experience.CheckCurrent | analyzers/experience.py:79-84 | 1 point and a pass when a current position is indicated, an info finding otherwise |
| Experience.CheckLocation | analyzers/experience.py:86-89 | 0.5 points and one pass finding when a work location is found, no finding otherwise |
| Experience.ScoreExperience | analyzers/experience.py:4-91 | maximum 12, the score is the sum of the six grades, findings in source order with the optional year and location findings in place |
| Experience.CheckWorkExperience | analyzers/experience.py:4-91 | the check on a text: the distinct years are those found in the text, titles and companies are counted after normalising and removing duplicates |
| Formatting.ContentLines | analyzers/formatting.py:11-12 | the non-empty lines of the stripped text: every kept line is non-blank |
| Formatting.PageGrade | analyzers/formatting.py:14-22 | a page count below 1 earns no finding; otherwise a pass exactly for 1 or 2 pages |
| Formatting.WordGradeBands | analyzers/formatting.py:24-38 | 2 points and a pass exactly for 400..800 words, a fail exactly below 300 or above 1100, and between 0.5 and 2 points always |
| Formatting.WordGradeTowardIdeal | analyzers/formatting.py:24-38 | moving the word count toward the 400..800 band never lowers the points |
| Formatting.BulletRatioThresholds | analyzers/formatting.py:42-50 | the ratio comparisons `> 0.2`, `> 0.1`, `> 0.03` over `max(lines, 1)` are the integer comparisons used in the model |
| Formatting.BulletGradeMonotone | analyzers/formatting.py:41-54 | more bullet lines, or fewer content lines, never lower the bullet points |
| Formatting.BulletGradeExtremes | analyzers/formatting.py:41-54 | all lines bulleted gives the top grade, no bullets gives the fail |
| Formatting.LineRatioThreshold | analyzers/formatting.py:72 | `long > lines * 0.3` is `10*long > 3*lines` |
| Formatting.CapsGrade | analyzers/formatting.py:79-84 | a finding exists exactly when some line is in capitals |
| Formatting.CapsNotMonotone | analyzers/formatting.py:80-84 | six capitalised lines earn more than seven: the grade is not monotone |
| Formatting.FormattingPointsBounds | analyzers/formatting.py:14-86 | the score lies between 1 and 12 points, so the cap of 13 never bites |
| Formatting.CheckPages | analyzers/formatting.py:14-22 | the page points, and one finding of the page grade's kind exactly when there is at least one page |
| Formatting.CheckWordCount | analyzers/formatting.py:24-38 | points and kind of the word grade, with the word count on the finding |
| Formatting.CheckBullets | analyzers/formatting.py:44-54 | points and kind of the bullet grade, with the bullet count and the rounded percentage on the top grade |
| Formatting.CheckDateFormat | analyzers/formatting.py:60-69 | points and kind of the date grade, plus a second pass finding exactly when years, months and a present word all occur |
| Formatting.CheckLineLength | analyzers/formatting.py:71-77 | points and kind of the line-length grade, with the count on the warning |
| Formatting.CheckCaps | analyzers/formatting.py:79-84 | the capitals points, and one finding exactly when a capitalised line exists, with the count above six |
| Formatting.ScoreFormatting | analyzers/formatting.py:4-86 | maximum 13, the score is the sum of the six grades within bounds, findings in source order with the optional page, present and capitals findings in place |
| Formatting.CheckFormatting | analyzers/formatting.py:4-86 | the check on a text: words by `split()`, bullet, long and capitalised lines counted over the content lines, years found in the text; the number of findings, and the word, bullet, date, line-length and capitals findings with the kinds of their grades over those counts |
| Years.DigitValue | analyzers/education.py:74 | a digit's value is at most 9 |
| Years.YearValue | analyzers/education.py:74 | a year matched by `19\d{2}` or `20\d{2}` lies in 1900..2099 |
| Years.YearsFrom | analyzers/education.py:74 | every year found lies in 1900..2099 |
| Years.YearAlone | analyzers/education.py:74 | a text that is just a year yields exactly that year |
| Years.Insert | analyzers/experience.py:33 | inserting into an increasing list keeps it increasing and adds exactly the new value |
| Years.SortedSet | analyzers/experience.py:33 | `sorted(set(years))`: increasing, with exactly the values of the input |
| Years.SortedSetEmpty | analyzers/experience.py:33 | the sorted set is empty exactly when the input is |
| Years.SortedSetOfIncreasing | analyzers/experience.py:33 | an already increasing list is its own sorted set |
| Years.InsertLast | analyzers/experience.py:33 | a value above all elements goes at the end |
| Keywords.ExtendAll | analyzers/keywords.py:10-14 | each `extend` loop appends the members of every group, in order |
| Keywords.CollectKeywords | analyzers/keywords.py:10-14 | the collected list is the hard-skill members followed by the soft-skill members |
| Keywords.FoundKeywords | analyzers/keywords.py:16 | the found set: no repeats, every element is a listed keyword whose lower-cased form occurs in the text, and every such keyword is found |
| Keywords.KeywordGradeMonotone | analyzers/keywords.py:19-32 | more distinct keywords never earn fewer points, at most 10 |
| Keywords.RepeatsCountOnce | analyzers/keywords.py:16-17 | a keyword listed under several groups counts once, so the count never exceeds the list nor the number of matches |
| Keywords.FrequencyAbsent | analyzers/keywords.py:34-35 | `Counter.get(kw, 0)` is 0 for a word that is not a token |
| Keywords.SpacedKeywordNeverRepeated | analyzers/keywords.py:34-35 | a keyword containing whitespace can never be a `split()` token, so multi-word keywords are never reported as emphasised |
| Keywords.Repeated | analyzers/keywords.py:35 | each entry is a found keyword with its token frequency, and that frequency is at least 3 |
| Keywords.RepeatedComplete | analyzers/keywords.py:35 | every found keyword occurring three or more times as a token is listed with its frequency |
| Keywords.InsertByCount | analyzers/keywords.py:36 | inserting keeps the list in descending order of count and adds exactly one entry |
| Keywords.InsertByCountStep | analyzers/keywords.py:36 | an entry with a smaller count stays behind a larger one |
| Keywords.SortByCount | analyzers/keywords.py:36 | `sort(key=count, reverse=True)`: a permutation in descending order of count |
| Keywords.EmphasisFindings | analyzers/keywords.py:38-40 | one info finding with at most five keywords when any keyword is emphasised, none otherwise |
| Keywords.ChunkCount | analyzers/keywords.py:44 | `range(0, min(n, 24), 12)` has no step for no keywords, one for 1..12 and two beyond |
| Keywords.ListingFindings | analyzers/keywords.py:44-46 | chunk `c` lists the sorted keywords from `12c` to `12c+12` |
| Keywords.ListingCoversPrefix | analyzers/keywords.py:42-46 | one chunk lists all keywords, two chunks list exactly the first 24 sorted keywords |
| Keywords.AppendListing | analyzers/keywords.py:44-46 | the loop appends exactly the chunk findings |
| Keywords.CheckKeywordCount | analyzers/keywords.py:19-32 | points and kind of the five-tier keyword grade, with the count from 4 keywords on |
| Keywords.ScoreKeywords | analyzers/keywords.py:5-51 | maximum 10, the score of the keyword count, between two and five findings: the grade, the emphasis finding, the sorted chunks and the closing pro tip |
| Keywords.SameElements | analyzers/keywords.py:16-42 | any iteration order of the found set has the same count and the same sorted listing |
| Keywords.CheckKeywordsIn | analyzers/keywords.py:5-51 | the check over any pair of skill tables and any iteration order of the set: score and first finding of the distinct keyword count, and the sorted listing |
| Keywords.CheckKeywordOptimization | analyzers/keywords.py:5-51 | the check over the hard and soft skill tables: the score and first finding are the grade of the number of distinct keywords found, the listing chunks are the sorted found keywords, the last finding is the pro tip |
| Matching.Matched | analyzers/skills.py:10 | the matched members: every matched phrase is in the list and matches, and every matching phrase is matched |
| Matching.FoundGroups | analyzers/skills.py:9-13 | only groups with at least one match are kept, at most one per group |
| Matching.GroupNames | analyzers/skills.py:16 | the names of the kept groups, in order |
| Matching.GroupNamesAppend | analyzers/skills.py:9-13 | the names of an appended group come last |
| Matching.FoundGroupsStep | analyzers/skills.py:9-13 | one more table group adds its name exactly when it has a match |
| Matching.FoundGroupNamesComplete | analyzers/skills.py:9-13 | every group with a match is reported |
| Matching.FoundGroupNamesSound | analyzers/skills.py:9-13 | every reported name is that of a group with a match |
| Matching.FoundGroupNames | analyzers/skills.py:9-13 | a name is reported exactly when its group has a match |
| Matching.FlattenAppend | analyzers/skills.py:13 | `extend`: flattening an appended group appends its members |
| Matching.TotalIsMatchCount | analyzers/skills.py:13-15 | the length of the total list is the number of matches across all groups |
| Matching.MatchGroups | analyzers/skills.py:9-13 | the loop's dictionary and total list equal their specifications |
| Matching.CategoryInfos | analyzers/skills.py:36-37 | one info finding per found group, listing its name and its matched members |
| Matching.AppendCategoryInfos | analyzers/skills.py:36-37 | the loop appends exactly those findings |
| Matching.MissingNames | analyzers/skills.py:39 | a group name is missing exactly when it is not among the found names |
| Matching.MissingUnmatched | analyzers/skills.py:39-41 | every missing name is the name of a group without a match |
| Matching.UnmatchedMissing | analyzers/skills.py:39-41 | with distinct names, every group without a match is listed as missing |
| Matching.NoneMissing | analyzers/skills.py:39-41 | with distinct names, no group is missing exactly when every group has a match |
| Ordering.BelowTotal | analyzers/keywords.py:42 | any two strings are ordered one way or the other |
| Ordering.BelowTransitive | analyzers/keywords.py:42 | the string order is transitive |
| Ordering.BelowAntisymmetric | analyzers/keywords.py:42 | strings ordered both ways are equal |
| Ordering.Insert | analyzers/keywords.py:42 | insertion keeps ascending order and adds exactly one element |
| Ordering.InsertFront | analyzers/keywords.py:42 | an element at most the head goes in front |
| Ordering.InsertBehind | analyzers/keywords.py:42 | the head stays first when the element goes into the tail |
| Ordering.Sort | analyzers/keywords.py:42 | `list.sort()`: an ascending permutation |
| Ordering.AscendingTail | analyzers/keywords.py:42 | the tail of an ascending list is ascending |
| Ordering.SameMinimum | analyzers/keywords.py:42 | two ascending permutations start with the same element |
| Ordering.AscendingUnique | analyzers/keywords.py:42 | two ascending permutations are the same list |
| Ordering.SortPermutation | analyzers/keywords.py:16-42 | sorting does not depend on the order the set yielded its elements |
| Readability.Sentences | analyzers/readability.py:10 | every kept sentence has more than two words, at most one per piece |
| Text.SelectComplete | analyzers/readability.py:10 | a filtering comprehension keeps every element whose condition holds |
| Text.SelectSound | analyzers/readability.py:10 | every element a filtering comprehension keeps is one whose condition holds |
| Readability.SentencesComplete | analyzers/readability.py:10 | every stripped piece with more than two words is kept |
| Readability.SentencesSound | analyzers/readability.py:10 | every kept sentence is a stripped piece |
| Readability.WordCounts | analyzers/readability.py:16 | the word count of each sentence, in order |
| Readability.SumAtLeast | analyzers/readability.py:17 | the sum of values each at least `lo` is at least `lo` times their number |
| Readability.AverageAtLeastThree | analyzers/readability.py:16-17 | since every kept sentence has three words or more, the average is at least 3 |
| Readability.Paragraphs | analyzers/readability.py:53 | at least one paragraph; `Readability.ParagraphsJoin` and `Readability.ParagraphsStep` give the join round trip and the leftmost cuts at blank lines |
| Readability.ParagraphsJoin | analyzers/readability.py:53 | joining the paragraphs with blank lines gives back the text |
| Readability.ParagraphsStep | analyzers/readability.py:53 | the first paragraph ends at the leftmost `\n\n` |
| Readability.QuotientBelow | analyzers/readability.py:17-22 | a quotient below a constant is a product comparison |
| Readability.AverageThresholds | analyzers/readability.py:19-22 | the average comparisons `10 <= avg <= 20` and `avg < 10` are integer comparisons of the sum |
| Readability.AverageGradeBands | analyzers/readability.py:19-27 | 3 points exactly for an average of 10..20, a warning exactly above 20, between 1 and 3 points always |
| Readability.VocabularyRatioThresholds | analyzers/readability.py:41-46 | the ratio comparisons `< 0.05` and `< 0.1` over `max(words, 1)` are integer comparisons |
| Readability.VocabularyGradeAntitone | analyzers/readability.py:43-51 | more complex words never earn more points |
| Readability.ReadabilityPointsBounds | analyzers/readability.py:16-62 | the score lies between 2 and 8, and is 8 exactly for an average of 10..20, no long sentence, few complex words and no dense paragraph |
| Readability.CheckAverage | analyzers/readability.py:16-27 | points and kind of the average grade, with the average rounded to one decimal |
| Readability.CheckLongSentences | analyzers/readability.py:29-37 | points and kind of the long-sentence grade (none / at most 3 / more), with the count |
| Readability.CheckVocabulary | analyzers/readability.py:39-51 | points and kind of the vocabulary grade |
| Readability.CheckParagraphs | analyzers/readability.py:53-60 | 1.5 points and a pass without dense paragraphs, 0.5 and a warning with the count otherwise |
| Readability.ScoreReadability | analyzers/readability.py:4-62 | maximum 8; no sentence gives the fixed 4 points and one warning; otherwise the sum of the four grades and four findings in source order |
| Readability.CheckReadability | analyzers/readability.py:4-62 | the check on a text: sentences split at `[.!?]+` and kept above two words, complex words counted in the lower-cased text, dense paragraphs over `\n\n` pieces; with sentences, the four findings have the kinds of the average, long-sentence, vocabulary and paragraph grades of those counts |
| Results.MetricClasses | analyzers/results.py:16-23 | the six metric classes of the dictionary, one group each |
| Results.MatchTotalOfSignals | analyzers/results.py:25 | the total is the sum of the six match counts |
| Results.ResultGradeValues | analyzers/results.py:27-40 | the score is one of 0, 2, 5, 8, 10, never decreases with more matches, and is 0 exactly without a match |
| Results.Snippet | analyzers/results.py:44 | a displayed value is the start of the stripped match, at most 60 characters, and all of it when it fits |
| Results.Display | analyzers/results.py:44 | at most the first three matches are displayed |
| Results.MetricInfos | analyzers/results.py:42-45 | at most one info finding per class, each naming the class and one to three values |
| Results.MetricInfosOfSignals | analyzers/results.py:42-45 | one info finding exactly for each class with a match |
| Results.AppendMetricInfos | analyzers/results.py:42-45 | the loop appends exactly those findings |
| Results.TipFindings | analyzers/results.py:47-50 | a percentages tip exactly without percentages and a financial tip exactly without dollar amounts or finance words, both warnings, in that order |
| Results.CheckTotal | analyzers/results.py:27-40 | points and kind of the five-tier result grade, with the total |
| Results.CheckMeasurableResults | analyzers/results.py:4-52 | maximum 10, the score of the total match count, findings made of the grade, the per-class infos and the tips |
| Scoring.CountKind | analysis.py:145-147 | the number of findings of one type is at most the number of findings |
| Scoring.CountKindsSum | analysis.py:144-147 | the pass, warning, fail and info counts add up to the number of findings |
| Scoring.CountKindAppend | analysis.py:145-147 | counting over two lists of findings adds the counts |
| Scoring.Clamp | analyzers/sections.py:68 | `min(score, max_score)`: at most both, and equal to one of them |
| Scoring.TierBounds | analyzers/skills.py:21-34 | on a table of decreasing thresholds and points, the award lies between the fallback and the top row |
| Scoring.TierMonotone | analyzers/skills.py:21-34 | a larger count never earns fewer points from an if/elif threshold chain |
| Scoring.TierIsRow | analyzers/skills.py:21-34 | the award is the fallback or one of the table's rows |
| Scoring.RoundHalfEven | analysis.py:97 | Python's `round(n / d)`: within half a unit of the quotient, and even on an exact tie |
| Scoring.RoundHalfEvenUnique | analysis.py:97 | any integer meeting those two conditions is the rounded value |
| Scoring.RoundHalfEvenMonotone | analysis.py:97 | rounding never reverses the order of two quotients |
| Scoring.RoundHalfEvenExact | analysis.py:97 | an exact quotient rounds to itself |
| Scoring.Percent | analysis.py:97 | `round(s / m * 100) if m else 0`: 0 for a zero maximum, otherwise within half a unit of the exact percentage |
| Scoring.PercentInRange | analysis.py:97 | a score between 0 and its maximum has a percentage between 0 and 100 |
| Scoring.AtLeastOne | analyzers/formatting.py:42 | `max(n, 1)`: at least 1 and at least `n` |
| Scoring.QuotientAbove | analyzers/formatting.py:44 | a quotient above a constant is a product comparison |
| Sections.KeywordMatchesSimplified | analyzers/sections.py:12-17 | of the three heading tests the equality test is implied by the prefix test, so a keyword matches exactly when the line starts with it and is less than 15 characters longer, or contains it and is shorter than 50 |
| Sections.AnySectionLineExists | analyzers/sections.py:7-18 | the line loop returns true exactly when some line's heading text is non-empty and matches a keyword |
| Sections.MatchesAnyKeywordExists | analyzers/sections.py:11-17 | the keyword loop succeeds exactly when some keyword matches |
| Sections.KeywordLineFound | analyzers/sections.py:12-13 | a line that is just a keyword, up to whitespace and a trailing colon, is a heading |
| Sections.LineMatches | analyzers/sections.py:11-17 | the keyword loop with its early returns finds a match exactly when some keyword matches |
| Sections.FindSectionHeading | analyzers/sections.py:4-18 | `_find_section_heading` returns true exactly when the lower-cased text has a heading line for the keywords |
| Sections.Presence | analyzers/sections.py:33-57 | one detection result per table entry |
| Sections.PresenceAt | analyzers/sections.py:34 | entry `i` is the heading search for the keywords of section `i` |
| Sections.FoundSections | analyzers/sections.py:31-57 | at most the table's sections are found |
| Sections.Names | analyzers/sections.py:37 | the titles of a table's sections, in order |
| Sections.KeepFound | analyzers/sections.py:60-61 | the filter keeps exactly the listed names that were found, in list order |
| Sections.PointsAppend | analyzers/sections.py:36 | adding a section's points extends the total by them |
| Sections.FoundPointsMonotone | analyzers/sections.py:33-57 | detecting more sections never lowers the points |
| Sections.FoundPointsBounds | analyzers/sections.py:33-57 | the points of the found sections lie between 0 and the table's total |
| Sections.AllFound | analyzers/sections.py:33-57 | when every section is detected all are found |
| Sections.FoundStep | analyzers/sections.py:35-36 | one more section adds its points exactly when detected |
| Sections.SectionFindings | analyzers/sections.py:33-49 | one finding per critical or important section |
| Sections.SectionFindingsAt | analyzers/sections.py:35-49 | finding `i` is a pass for a detected section and otherwise a fail for a critical one and a warning for the summary |
| Sections.SectionFindingsStep | analyzers/sections.py:33-49 | one more section appends its finding |
| Sections.Detected | analyzers/sections.py:34 | the heading search for section `i` gives entry `i` of the presence flags |
| Sections.CheckCritical | analyzers/sections.py:33-40 | the loop's points, found names and findings equal their specifications over the critical table |
| Sections.CheckImportant | analyzers/sections.py:42-49 | the same for the summary table, with warnings for a missing summary |
| Sections.CheckBonus | analyzers/sections.py:51-57 | the loop's points are the awards of the detected bonus sections, its names their titles in table order, and its count their number |
| Sections.Detect | analyzers/sections.py:33-57 | one detection result per section of each table |
| Sections.NamesAppend | analyzers/sections.py:37 | the title of an appended section comes last |
| Sections.KeepFoundAppend | analyzers/sections.py:60-61 | filtering one more name appends it exactly when found |
| Sections.FoundNamesMembers | analyzers/sections.py:37 | a title is among the found titles exactly when its section was detected |
| Sections.KeepFoundNames | analyzers/sections.py:59-62 | filtering the bonus titles by the found titles gives the detected bonus sections in table order |
| Sections.BonusTitleFound | analyzers/sections.py:59-61 | with distinct titles, a bonus title is among the found titles exactly when its section was detected |
| Sections.BonusFindingNames | analyzers/sections.py:59-64 | with bonus sections found the finding is a pass naming them in table order, otherwise an info finding |
| Sections.TablesDistinct | analyzers/sections.py:26-29 | the section titles of the three tables are distinct |
| Sections.CheckSectionsWith | analyzers/sections.py:21-68 | the check over any three tables: clamped score, one finding per critical and important section, then the bonus and total findings |
| Sections.CheckSections | analyzers/sections.py:21-68 | the check over the source's tables: maximum 15 and six findings, the bonus finding naming the detected bonus sections |
| Sections.TablesTotal | analyzers/sections.py:26-29 | the tables are worth 12, 1.5 and 1.8 points, 15.3 in all, and no award is negative |
| Sections.ScoreBounds | analyzers/sections.py:33-57 | the unclamped score lies between 0 and 15.3 |
| Sections.ClampBinds | analyzers/sections.py:68 | with every section present the sum is 15.3 and the cap at 15 takes effect |
| Sections.ScoreMonotone | analyzers/sections.py:33-57 | for any tables of non-negative awards, detecting more sections never lowers the unclamped score |
| Skills.SkillGradeMonotone | analyzers/skills.py:21-34 | more matched skills never earn fewer points, at most 12 |
| Skills.SkillCountWithRepeats | analyzers/skills.py:13-15 | the skill count is the number of matches across all groups, so a skill listed in two groups counts twice |
| Skills.MissingFindings | analyzers/skills.py:39-41 | one info finding naming the first four missing groups exactly when some group is missing |
| Skills.MissingFindingWhen | analyzers/skills.py:39-41 | the missing finding exists exactly when some group has no match |
| Skills.HardSkillNamesDistinct | analyzers/skills.py:9 | the hard-skill group names are distinct |
| Skills.CheckSkillCount | analyzers/skills.py:21-34 | points and kind of the five-tier skill grade, with the counts on the findings that show them |
| Skills.ScoreSkills | analyzers/skills.py:4-43 | maximum 12, the score of the total match count, and findings made of the grade, one info per found group and the missing finding |
| Skills.CheckHardSkills | analyzers/skills.py:4-43 | the check on the lower-cased text over the hard-skill table by substring matching: the tier finding, one info per found group, then the missing-groups finding |
| Verbs.VerbGradeMonotone | analyzers/verbs.py:21-34 | more matched verbs never earn fewer points, at most 10 |
| Verbs.WeakPenalty | analyzers/verbs.py:47-49 | `max(0, score - 1)`: weak phrases cost at most one point, never push the score below 0, and cost exactly one point when two or more verbs were found |
| Verbs.LookupDistinct | analyzers/verbs.py:43 | with distinct category names, looking a category up gives its own verbs |
| Verbs.SuggestionsFor | analyzers/verbs.py:41-43 | one suggestion per missing category, naming it with the first three of its verbs |
| Verbs.SuggestedVerbs | analyzers/verbs.py:42-43 | the suggestion for a table category is that category with its first three verbs |
| Verbs.VerbCategoryNamesDistinct | analyzers/verbs.py:12 | the action-verb category names are distinct |
| Verbs.SuggestionFindings | analyzers/verbs.py:39-45 | one warning exactly when one to five categories are missing, suggesting verbs for the first three of them |
| Verbs.CheckVerbCount | analyzers/verbs.py:21-34 | points and kind of the five-tier verb grade, with the counts on the findings that show them |
| Verbs.ScoreVerbs | analyzers/verbs.py:4-54 | maximum 10, the score of the match count less the weak-phrase penalty, findings made of the grade, one info per found category, the suggestion and a last finding that is a fail listing the weak phrases exactly when there are any, a pass otherwise |
| Verbs.CheckActionVerbs | analyzers/verbs.py:4-54 | the check on the lower-cased text: verbs matched at word starts, weak phrases matched as substrings; the tier finding, one info per found category, the suggestion for the missing ones, and last the weak-phrase finding listing them |
| Tips.Rank | tips.py:102 | the sort key of a priority is 0, 1 or 2 |
| Tips.ScoreOf | tips.py:4-6 | `category_scores.get(name, 100)`: 100 for a category missing from the list |
| Tips.ScoreOfLast | tips.py:4 | the dictionary keeps the percentage of the last category with the name |
| Tips.Fired | tips.py:6-84 | at most one tip per rule |
| Tips.FiredStep | tips.py:6-84 | one more rule appends its tip exactly when its category scores below its threshold |
| Tips.FiredComplete | tips.py:6-84 | every rule whose category scores below its threshold contributes its tip |
| Tips.FiredSound | tips.py:6-84 | every tip comes from a rule whose category scores below its threshold |
| Tips.RulesFacts | tips.py:6-84 | ten rules with distinct titles and thresholds of at most 100, none of them the tailor or update tip |
| Tips.RuleFires | tips.py:6-84 | a rule's tip is given exactly when its category's percentage is below its threshold (80, 60, 60, 70, 80, 70, 70, 70, 60, 80 in source order) |
| Tips.AbsentNeverFires | tips.py:4-84 | a category missing from the list never triggers its tip |
| Tips.Generated | tips.py:6-100 | at most twelve tips before truncation |
| Tips.BonusTips | tips.py:86-100 | the tailor tip is given exactly when the overall score is at least 80 and fewer than two rule tips fired; the update tip exactly when the overall score is at least 80 |
| Tips.OfPriority | tips.py:102 | the tips of one priority, every one of that priority |
| Tips.OfPriorityAppend | tips.py:102 | selecting by priority distributes over concatenation |
| Tips.OfPriorityUniform | tips.py:102 | a list of one priority selects to itself for that priority and to nothing otherwise |
| Tips.OfPriorityMultiset | tips.py:102 | the three priority groups together hold exactly the tips |
| Tips.RankedGroups | tips.py:102 | high tips, then medium, then low, are in key order |
| Tips.PrioritySortSpec | tips.py:102 | the stable sort by key is in key order, a permutation, and keeps the original order within each priority |
| Tips.RankedPrefix | tips.py:103 | a prefix of a list in key order is in key order |
| Tips.RankedSplit | tips.py:102 | a list already in key order is left unchanged by the sort |
| Tips.OfPriorityLast | tips.py:102 | selecting over a list with one more tip appends it exactly when it has the priority |
| Tips.RankedSplitStep | tips.py:102 | a sorted list followed by a tip of key at least all of its keys is sorted |
| Tips.NoneOfPriority | tips.py:102 | a list without a priority selects nothing for it |
| Tips.PrioritySortUnique | tips.py:102 | the stable sort is the only list in key order that keeps each priority group in original order |
| Tips.FirstEight | tips.py:103 | `tips[:8]`: a prefix of at most eight tips, the whole list when it has at most eight |
| Tips.HighBeforeMedium | tips.py:102 | after sorting no high tip follows a medium or low one, and no tip follows a low one unless it is low |
| Tips.ApplyRule | tips.py:6-84 | one rule's `if`: appends the tip exactly when the rule fires |
| Tips.ApplyRules | tips.py:6-84 | the ten rule `if`s give exactly the fired tips in rule order |
| Tips.GenerateTips | tips.py:1-103 | `generate_tips`: the first eight of the stably sorted rule tips followed by the bonus tips; at most eight, in priority order |
| Analysis.RunFirstChecks | analysis.py:75-78 | the contact, sections, experience and education checks, with maxima 12, 15, 12 and 10, scores within them, and each score the one its checker gives for the inputs (contact sum, clamped section sum, experience and education points) |
| Analysis.RunSecondChecks | analysis.py:79-82 | the formatting, compatibility, action-verb and measurable-results checks, with maxima 13, 8, 10 and 10, scores within them, and each score the one its checker gives for the inputs |
| Analysis.RunFormattingCheck | analysis.py:79 | the formatting check and its score |
| Analysis.RunVerbCheck | analysis.py:81 | the action-verb check on the lower-cased text and its score |
| Analysis.RunThirdChecks | analysis.py:83-86 | the hard-skill, readability, consistency and keyword checks, with maxima 12, 8, 7 and 10, scores within them, and each score the one its checker gives for the text (4 points for readability without sentences) |
| Analysis.RunSkillsCheck | analysis.py:83 | the hard-skill check on the lower-cased text and its score |
| Analysis.RunReadabilityCheck | analysis.py:84 | the readability check and its score |
| Analysis.RunConsistencyCheck | analysis.py:85 | the consistency check and its score |
| Analysis.RunKeywordCheck | analysis.py:86 | the keyword check, over the found keywords in first-listed order: maximum 10 and the grade of the number of distinct keywords found |
| Analysis.RunChecks | analysis.py:74-94 | twelve results whose maxima follow the check list (12, 15, 12, 10, 13, 8, 10, 10, 12, 8, 7, 10) and add up to 127, each score between 0 and its maximum; which checker's score each entry holds is stated only by the three group methods |
| Analysis.Assemble | analysis.py:74-94 | the list of the twelve results in order, each in range of its maximum |
| Analysis.TotalsInRange | analysis.py:95-96 | when every check is in range the summed score lies between 0 and the summed maximum |
| Analysis.MaxTotal | analysis.py:74-96 | the twelve maxima add up to 127 |
| Analysis.CategoryOf | analysis.py:97-104 | the category entry of one check: a score in range gives a percentage between 0 and 100 |
| Analysis.Categories | analysis.py:93-104 | one entry per check |
| Analysis.CategoriesAt | analysis.py:98-104 | entry `i` is built from the name and result of check `i` |
| Analysis.Tally | analysis.py:89-104 | the loop's totals are the sums of scores and maxima, and its category list equals the specification |
| Analysis.ConfidenceBands | analysis.py:108-125 | the comparisons `confidence < 0.3 / 0.5 / 0.7` are `signals < 3 / 5 / 7` for every signal count |
| Analysis.Dampen | analysis.py:108-125 | the dampened percentage is within half a unit of the percentage times 0.4, 0.65, 0.85 or 1 by confidence band, and a non-negative percentage is never raised nor made negative |
| Analysis.RoundTenths | analysis.py:109 | rounding the percentage times 0.4 as hundredths or as tenths gives the same result |
| Analysis.DampenMonotone | analysis.py:108-125 | a higher confidence never lowers a dampened percentage |
| Analysis.DampenConfident | analysis.py:114-115 | at confidence 0.7 or more the percentage is left alone |
| Analysis.DampenCategories | analysis.py:117-125 | every category's percentage is replaced by its dampened value, every other field kept |
| Analysis.VerdictOf | analysis.py:127-140 | below 0.3 confidence "not a resume", below 0.5 "few signals", otherwise the band of the overall score (85, 70, 55, 40) decides, each verdict exactly in its band |
| Analysis.VerdictMonotone | analysis.py:131-140 | at confidence 0.5 or more a higher overall score never gives a worse verdict |
| Analysis.KindTotalsSum | analysis.py:144-147 | the pass, warning, fail and info totals over all categories add up to the total number of findings |
| Analysis.SummaryStats | analysis.py:144-159 | passed, warnings and failed together with the info findings make up the total number of checks |
| Analysis.StatsOfFindings | analysis.py:117-159 | the statistics depend on the findings only, so dampening the percentages does not change them |
| Analysis.Summarize | analysis.py:89-163 | totals, the dampened overall score (between 0 and the raw score when every check is in range), the categories with their names, scores, maxima, findings and dampened percentages, the verdict, the tips of `generate_tips` on the dampened categories and the statistics |
| Analysis.ResumeHalves | analysis.py:19-66 | the half-signals of the resume-likeness estimate over the lines of the lower-cased text: at most 20 |
| Analysis.AnalyzeResume | analysis.py:69-164 | `analyze_resume`: maximum 127 points and an earned total within it; the overall score is the total's percentage dampened by the confidence, so between 0 and the raw percentage; twelve categories named in list order, each in range, with its percentage dampened the same way; the verdict of the confidence and overall score; the tips are the first eight of the sorted generated tips, in priority order; the statistics are those of the categories |

## Left out

- Regular-expression searches other than years, `\w+` runs, substrings and word starts are inputs, not modelled: the email, phone, LinkedIn, GitHub, website and location searches, the date-range, title, company, institution, field, GPA, honours, table, image and metric patterns. Their counts, flags or matches are fields of the `...Signals` datatypes.
- `lower()`, `isupper()`, `\s`, `\w` and `\d` are modelled on ASCII letters and digits (`\s` also on the Unicode spaces Python's `str.split` accepts); Unicode case mapping is not modelled.
- Floating point is modelled as exact arithmetic in tenths and halves. A float sum such as `4 + 0.3` is not exactly 4.3, and where such an error meets a rounding tie the source may round the other way.
- File parsing and page counting (`parsers.py`), the web routes, the Flask application and the browser script are not part of this model; the page count and file extension are inputs.
- Message texts become fixed tags plus the numbers and names they show. The description and impact texts of tips are not kept, only priority and title.
- `generate_tips` receives `text_lower` but never uses it; the model omits that parameter.
- `analyze_resume` calls each check inside its loop through a lambda; the model runs the twelve checks first, then the same loop over their results. The order and results are the same because the checks do not depend on each other.
- Analysis.RunChecks: states each entry's maximum and range, not which checker's score it holds. The three group methods (`Analysis.RunFirstChecks`, `Analysis.RunSecondChecks`, `Analysis.RunThirdChecks`) state each check's score, four at a time; a single proof that holds all twelve score definitions at once (their keyword catalogs and text functions) exceeds the verifier's resource bound, so the list does not repeat them.
- Analysis.AnalyzeResume: for the same reason it does not state that category `i`'s score is the score of check `i`'s checker (the group methods do); it states the total, the dampened overall score, names, ranges, dampened percentages, verdict, tips and statistics.
- Analysis.RunKeywordCheck: iterates the found-keyword set in first-listed order, while Python's set order is unspecified. `Keywords.CheckKeywordOptimization` is proved for every order, and `Keywords.SameElements` with `Ordering.SortPermutation` shows the count and the sorted listing do not depend on it.
- Keywords.ScoreKeywords: which emphasised keywords are shown first among equal counts depends on the set's order; the model fixes one order and states the descending-count order, not the tie order.
- Tips.ApplyRules: the ten rule `if`s are one `ApplyRule` step per row of the rule table (same conditions, same order), not ten written-out statements.
- Education.CheckEducation: the institution and field lists are counted but their displayed first three names are not modelled, since they come from regular expressions and an unordered set.
- Experience.CheckWorkExperience: the displayed title and company names (first six, four or five of an unordered set, cut to 40 characters) are not modelled, only their counts.
- Analysis.DampenCategories: the in-place rewrite of each category dictionary's `percentage` is a method returning the updated list of category values. No dictionary is shared elsewhere, so aliasing is not modelled.
- Tips.GenerateTips: the in-place `tips.sort` and the slice are modelled on list values; `PrioritySort` is a stable bucket sort proved to be the only stable arrangement by key.
