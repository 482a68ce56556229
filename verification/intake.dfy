/** The Student submission branch: the blank-text guard, the three labels
    computed from the submitted text, and the one row appended to the
    grievance table. The table is a sequence of rows in insertion order. */
module Intake {
  import opened Strings
  import opened Labels
  import opened AiEngine

  /** One row of the grievance table as the store writes it: every column
      is TEXT. The auto-assigned `id` is not modelled; a row's position in
      the store stands for its insertion order. */
  datatype Row = Row(
    text: string,
    category: string,
    priority: string,
    sentiment: string,
    status: string,
    anonymous: string,
    date: string)

  type Store = seq<Row>

  /** The status every new grievance is stored with. */
  const PendingStatus: string := "Pending"

  /** The warning shown when the submitted text is blank. */
  const BlankWarning: string := "Please enter grievance text"

  /** How the anonymity checkbox is written to the table. */
  function AnonymousFlag(anonymous: bool): (flag: string)
    ensures flag == "Yes" <==> anonymous
    ensures flag == "No" <==> !anonymous
  {
    if anonymous then "Yes" else "No"
  }

  /** `insert_grievance`: appends exactly one row, with status Pending and
      the current date, and leaves every earlier row as it was. */
  function InsertGrievance(store: Store, text: string, category: string, priority: string,
                           sentiment: string, anonymous: string, date: string): (s': Store)
    ensures |s'| == |store| + 1
    ensures s'[..|store|] == store
    ensures s'[|store|].text == text && s'[|store|].status == PendingStatus
    ensures s'[|store|].category == category && s'[|store|].priority == priority
    ensures s'[|store|].sentiment == sentiment && s'[|store|].anonymous == anonymous
    ensures s'[|store|].date == date
  {
    store + [Row(text, category, priority, sentiment, PendingStatus, anonymous, date)]
  }

  /** What the user sees after pressing the submit button. */
  datatype Outcome =
    | Warned(message: string)
    | Submitted(category: Category, priority: Priority, sentiment: Sentiment)

  /** The submit branch of the Student page. `polarity` stands for the
      lexicon estimator and `today` for the clock; the result is the
      outcome shown and the store afterwards. */
  function Submit(text: string, anonymous: bool, polarity: string -> real, today: string, store: Store)
    : (r: (Outcome, Store))
    ensures r.0.Warned? <==> IsBlank(text)
    ensures r.0.Warned? ==> r.0.message == BlankWarning && r.1 == store
    ensures r.0.Submitted? ==>
      && |r.1| == |store| + 1
      && r.1[..|store|] == store
      && r.0.category == ClassifyGrievance(text)
      && r.0.priority == DetectPriority(text)
      && r.0.sentiment == SentimentOf(polarity(text))
    ensures r.0.Submitted? ==>
      var row := r.1[|store|];
      && row.text == text
      && ParseCategory(row.category) == Some(r.0.category)
      && ParsePriority(row.priority) == Some(r.0.priority)
      && ParseSentiment(row.sentiment) == Some(r.0.sentiment)
      && row.status == PendingStatus
      && (row.anonymous == "Yes" <==> anonymous)
      && (row.anonymous == "No" <==> !anonymous)
      && row.date == today
  {
    StripEmptyIffBlank(text);
    if Strip(text) == "" then
      (Warned(BlankWarning), store)
    else
      var category := ClassifyGrievance(text);
      var priority := DetectPriority(text);
      var sentiment := SentimentAnalysis(polarity, text);
      NamesRoundTrip(category, priority, sentiment);
      var store' := InsertGrievance(store, text, CategoryName(category), PriorityName(priority),
                                    SentimentName(sentiment), AnonymousFlag(anonymous), today);
      (Submitted(category, priority, sentiment), store')
  }

  // ---------------------------------------------------------------------
  // The table invariant
  // ---------------------------------------------------------------------

  /** Every label column reads back as a label of its closed set, the status
      is Pending and the anonymity column is Yes or No. */
  predicate RowWellFormed(row: Row) {
    && ParseCategory(row.category).Some?
    && ParsePriority(row.priority).Some?
    && ParseSentiment(row.sentiment).Some?
    && row.status == PendingStatus
    && (row.anonymous == "Yes" || row.anonymous == "No")
  }

  predicate WellFormed(store: Store) {
    forall i :: 0 <= i < |store| ==> RowWellFormed(store[i])
  }

  /** A submission, accepted or refused, keeps the table well formed. */
  lemma SubmitPreservesWellFormed(text: string, anonymous: bool, polarity: string -> real,
                                  today: string, store: Store)
    requires WellFormed(store)
    ensures WellFormed(Submit(text, anonymous, polarity, today, store).1)
  {
  }

  /** The stored text is the raw text, not its stripped form: a non-blank
      text with white space in front is stored with that white space. */
  lemma StoredTextIsRaw(text: string, anonymous: bool, polarity: string -> real,
                        today: string, store: Store)
    requires !IsBlank(text) && IsSpace(text[0])
    ensures Submit(text, anonymous, polarity, today, store).1[|store|].text != Strip(text)
  {
  }

  // ---------------------------------------------------------------------
  // Several submissions in a row
  // ---------------------------------------------------------------------

  /** One press of the submit button. */
  datatype Request = Request(text: string, anonymous: bool, date: string)

  /** The requests handled one after another, in order. */
  function SubmitAll(requests: seq<Request>, polarity: string -> real, store: Store): Store
    decreases |requests|
  {
    if |requests| == 0 then store
    else
      var q := requests[0];
      SubmitAll(requests[1..], polarity, Submit(q.text, q.anonymous, polarity, q.date, store).1)
  }

  /** The row a request with non-blank text is stored as, built directly
      from the three analyzers. */
  function RowFor(q: Request, polarity: string -> real): Row {
    Row(q.text,
        CategoryName(ClassifyGrievance(q.text)),
        PriorityName(DetectPriority(q.text)),
        SentimentName(SentimentOf(polarity(q.text))),
        PendingStatus,
        AnonymousFlag(q.anonymous),
        q.date)
  }

  /** The rows of the accepted requests, in request order. */
  function AcceptedRows(requests: seq<Request>, polarity: string -> real): seq<Row>
    decreases |requests|
  {
    if |requests| == 0 then []
    else
      (if IsBlank(requests[0].text) then [] else [RowFor(requests[0], polarity)])
      + AcceptedRows(requests[1..], polarity)
  }

  /** The number of requests whose text is not blank. */
  function CountNonBlank(requests: seq<Request>): nat
    decreases |requests|
  {
    if |requests| == 0 then 0
    else (if IsBlank(requests[0].text) then 0 else 1) + CountNonBlank(requests[1..])
  }

  lemma {:induction false} AcceptedRowsCount(requests: seq<Request>, polarity: string -> real)
    ensures |AcceptedRows(requests, polarity)| == CountNonBlank(requests)
    decreases |requests|
  {
    if |requests| > 0 {
      AcceptedRowsCount(requests[1..], polarity);
    }
  }

  /** A run of submissions only appends: the earlier rows stay, and after
      them come the rows of the non-blank requests, one each, in order. */
  lemma {:induction false} SubmitAllAppendsInOrder(requests: seq<Request>, polarity: string -> real,
                                                   store: Store)
    ensures SubmitAll(requests, polarity, store) == store + AcceptedRows(requests, polarity)
    ensures |SubmitAll(requests, polarity, store)| == |store| + CountNonBlank(requests)
    decreases |requests|
  {
    AcceptedRowsCount(requests, polarity);
    if |requests| > 0 {
      var q := requests[0];
      var r := Submit(q.text, q.anonymous, polarity, q.date, store);
      SubmitAllAppendsInOrder(requests[1..], polarity, r.1);
      if !IsBlank(q.text) {
        assert r.1 == store + [RowFor(q, polarity)];
      }
    }
  }
}
