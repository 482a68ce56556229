# Grievance keyword engine — a Dafny model

This project models the core of a small grievance-intake application. A
student submits a free-text complaint. A keyword rule engine tags it with a
category, a priority and a sentiment, and one row is appended to the
grievance table. The model covers:

- **Category classifier** (`classify_grievance`). The text is lowered, then
  an ordered chain of substring rules is tried and the first rule that fires
  decides: Discipline ("ragging", "harassment"), Hostel ("hostel"),
  Examination ("exam", "result"), Library ("library"), Accounts ("fee"),
  and otherwise General.
- **Priority detector** (`detect_priority`). High when one of "urgent",
  "immediately", "danger", "harassment", "emergency" occurs; otherwise
  Medium when "not working" or "problem" occurs; otherwise Low.
- **Sentiment thresholds** (`sentiment_analysis`). A polarity below -0.1 is
  Negative, above 0.1 is Positive, and the closed interval [-0.1, 0.1] is
  Neutral. The polarity is an input.
- **Submit branch of the Student page**. A text that strips to "" is
  refused with a warning and nothing is stored. Any other text is labelled
  by the three analyzers and stored as exactly one new row, with status
  "Pending", the anonymity flag written "Yes"/"No", the raw (unstripped)
  text and the date. The labels shown to the user are the labels stored.

Modules, one per concern:

- `Strings` (`strings.dfy`): lowering, the substring test `needle in s`,
  and `str.strip()`.
- `Labels` (`labels.dfy`): the closed label sets, the text each is stored
  as, and reading those texts back.
- `AiEngine` (`ai_engine.dfy`): the three analyzers. It also states the rule
  table as a reference definition ("the label of the first rule that
  fires") and proves the if-chains equal to it.
- `Intake` (`intake.dfy`): the table row, `insert_grievance`, the submit
  branch, the table invariant, and runs of several submissions.

Modelling choices:

- Text is `string`, a sequence of Unicode scalar values.
- Lowering maps ASCII `A`–`Z` to `a`–`z` and the KELVIN SIGN (U+212A) to
  `k`, and leaves every other character unchanged. Every keyword is
  lower-case ASCII. Python lowers every other non-ASCII character to a
  non-ASCII character, and such a character can never be part of a keyword
  occurrence, so this choice gives the same labels as Python. One
  exception remains: U+0130 lowers to `i` followed by U+0307. Such an `i`
  could only be the last character of a keyword occurrence, because
  U+0307 is not ASCII. No keyword ends in `i`, so the labels are the same
  here too. This argument is not mechanised.
- White space for `strip()` is exactly the set Python's `str.isspace()`
  accepts.
- The polarity estimator is a parameter `polarity: string -> real`. The
  sentiment of a submission is the threshold map applied to
  `polarity(text)` for the same text that is classified.
- The polarity is the exact real value of the double the estimator
  returns. The source compares it against the double literal `0.1`, whose
  exact value `AiEngine.Tenth` is
  0.1000000000000000055511151231257827021181583404541015625, slightly
  above one tenth. The thresholds are `-Tenth` and `Tenth`, so a polarity
  equal to that double is Neutral, as in the source.
- The table is `seq<Row>` in insertion order. Every column is TEXT, as in
  the SQL schema. The clock is a parameter `today`.

Three facts about the code shape the model:

- The submit branch returns no record, id or date. It shows the three
  labels (`Intake.Outcome`).
- The anonymity column holds the text "Yes" or "No".
- Only "Pending" is ever written as a status. No code path writes
  "Resolved", so the table invariant `Intake.WellFormed` requires
  "Pending".

## Model

| member | source | states |
|---|---|---|
| `Strings.LowerChar` | ai_engine.py:5 | an ASCII capital becomes the letter 32 code points later, the KELVIN SIGN becomes `k`, every other character is left unchanged, and no result is an ASCII capital |
| `Strings.Lower` | ai_engine.py:5 | lowering keeps the length and lowers each character on its own, position by position |
| `Strings.LowerIdempotent` | ai_engine.py:5 | lowering an already lowered text changes nothing |
| `Strings.ContainsUnfold` | ai_engine.py:6 | `needle in s` holds exactly when the needle is a prefix of `s` or occurs in the tail of `s` |
| `Strings.LeadingSpaces` | app.py:33 | the count of leading white space: all of those characters are white space, and the next one is not |
| `Strings.TrailingSpaces` | app.py:33 | the count of trailing white space: all of those characters are white space, and the one before them is not |
| `Strings.Strip` | app.py:33 | `strip()` is the slice of `s` that starts after the leading white space and is followed only by white space; it neither begins nor ends with white space |
| `Strings.StripEmptyIffBlank` | app.py:33 | `text.strip() == ""` holds exactly when every character is white space, the empty text included |
| `Labels.ParseCategory` | ai_engine.py:6-17 | a stored category text reads back as the category written that way; otherwise no category is written that way |
| `Labels.ParsePriority` | ai_engine.py:22-27 | a stored priority text reads back as the priority written that way; otherwise no priority is written that way |
| `Labels.ParseSentiment` | ai_engine.py:32-37 | a stored sentiment text reads back as the sentiment written that way; otherwise no sentiment is written that way |
| `Labels.NamesRoundTrip` | ai_engine.py:6-37 | writing any label and reading it back gives the same label, so distinct labels are stored as distinct texts |
| `AiEngine.AnyIn` | ai_engine.py:21-22 | `any(word in t for word in words)` holds exactly when some word of the list occurs in the text |
| `AiEngine.ClassifyIsFirstMatch` | ai_engine.py:4-17 | for every category, the classifier returns it if and only if it is the first rule of the table whose keyword occurs in the lowered text; General is returned if and only if no rule fires |
| `AiEngine.ClassifyNoLaterThanFiringRule` | ai_engine.py:6-15 | whenever a rule's keyword occurs, the result is that rule or an earlier one: Discipline beats Hostel, Hostel beats Examination, Library beats Accounts |
| `AiEngine.ClassifyGeneralIff` | ai_engine.py:6-17 | the result is General exactly when none of the seven category keywords occurs in the lowered text |
| `AiEngine.ClassifyIgnoresCase` | ai_engine.py:5-24 | the category and the priority of a text equal those of its lowered form |
| `AiEngine.HarassmentIsDisciplineAndHigh` | ai_engine.py:6-23 | a text whose lowered form contains "harassment" is Discipline and High, whatever else it contains |
| `AiEngine.PriorityIsFirstMatch` | ai_engine.py:20-27 | for every priority, the detector returns it if and only if it is the first rule whose keyword occurs: High for an urgent word; Medium for no urgent word but "not working" or "problem"; Low otherwise |
| `AiEngine.SentimentOf` | ai_engine.py:32-37 | with `Tenth` the exact value of the double literal 0.1: Negative exactly below -Tenth, Positive exactly above Tenth, Neutral exactly on the closed interval [-Tenth, Tenth]; the three cases do not overlap |
| `AiEngine.SentimentMonotone` | ai_engine.py:32-37 | a higher polarity never gives a more negative label |
| `AiEngine.SentimentBoundaries` | ai_engine.py:32-37 | the double 0.1 and its negation are Neutral, and so are one tenth and its negation; 0.15 is Positive, -0.15 is Negative |
| `AiEngine.DisciplineBeforeHostelExample` | ai_engine.py:6-9 | "ragging in hostel" is Discipline |
| `AiEngine.LibraryBeforeAccountsExample` | ai_engine.py:12-15 | "library fee waiver" is Library |
| `AiEngine.SubstringMatchExample` | ai_engine.py:14-15 | "coffee" is Accounts, because "fee" occurs inside a word |
| `AiEngine.UpperCaseExample` | ai_engine.py:5-7 | "RAGGING" is Discipline |
| `AiEngine.UrgentBeforeMalfunctionExample` | ai_engine.py:21-25 | "this is an emergency, problem too" is High |
| `AiEngine.FallbackPriorityExample` | ai_engine.py:20-27 | "random text" is Low |
| `Intake.AnonymousFlag` | app.py:45 | the stored flag is "Yes" exactly when the box is ticked, and "No" exactly when it is not |
| `Intake.InsertGrievance` | database.py:28-44 | an insert adds exactly one row at the end, with status Pending and the given columns, and leaves every earlier row unchanged |
| `Intake.Submit` | app.py:32-52 | refused with the warning and an unchanged store exactly when the text is blank; otherwise one row is appended and the earlier rows are kept. The shown labels are the classifier, detector and threshold results for the same text, and the stored columns read back as those same labels. The stored text is the raw text, the status is Pending, the flag is Yes/No per the checkbox, and the date is today's |
| `Intake.SubmitPreservesWellFormed` | app.py:35-46 | after any submission, every row still holds labels from the closed sets, status Pending and a Yes/No flag |
| `Intake.StoredTextIsRaw` | app.py:33-41 | a non-blank text that begins with white space is stored unstripped, so it differs from its stripped form |
| `Intake.AcceptedRowsCount` | app.py:33-46 | the requests produce exactly one row for each non-blank text |
| `Intake.SubmitAllAppendsInOrder` | app.py:32-46 | after a run of submissions the table is the old table followed by one row for each non-blank request, in request order; its length grows by the number of non-blank requests |

## Left out

- The lexicon polarity estimator (ai_engine.py:31) is a foreign library
  doing floating-point NLP. It is the parameter `polarity`.
- SQLite persistence is left out. That covers `create_table`, the
  connection handling and `fetch_grievances` (database.py:7-25,
  database.py:50-58). The store is the sequence of rows itself, and
  reading it back returns that sequence.
- The AUTOINCREMENT `id` (database.py:13) is left out: it is assigned by
  the database library. `datetime.now()` (database.py:43) is clock
  behaviour, replaced by the parameter `today`.
- The Admin dashboard (app.py:58-186) is left out. It consists of pandas
  aggregation, plotly charts and Streamlit rendering.
- Streamlit widgets, the page configuration and the role selector
  (app.py:11-30) are left out. So are the success and information banners
  (app.py:48, app.py:53). `Intake.Outcome` keeps only the warning and the
  three labels displayed.
- Full Unicode `str.lower()` is left out. The ASCII-plus-KELVIN-SIGN
  lowering above gives the same labels for these keywords.
