/** The closed label sets the engine produces, and the text each label is
    written as in the grievance table (the store keeps every column as TEXT). */
module Labels {

  datatype Option<+T> = None | Some(value: T)

  datatype Category = Discipline | Hostel | Examination | Library | Accounts | General

  datatype Priority = High | Medium | Low

  datatype Sentiment = Negative | Neutral | Positive

  function CategoryName(c: Category): string {
    match c
    case Discipline => "Discipline"
    case Hostel => "Hostel"
    case Examination => "Examination"
    case Library => "Library"
    case Accounts => "Accounts"
    case General => "General"
  }

  function PriorityName(p: Priority): string {
    match p
    case High => "High"
    case Medium => "Medium"
    case Low => "Low"
  }

  function SentimentName(s: Sentiment): string {
    match s
    case Negative => "Negative"
    case Neutral => "Neutral"
    case Positive => "Positive"
  }

  /** Reads a category column back: the category written as `s`, if any. */
  function ParseCategory(s: string): (r: Option<Category>)
    ensures r.Some? ==> CategoryName(r.value) == s
    ensures r.None? ==> forall c :: CategoryName(c) != s
  {
    if s == "Discipline" then Some(Discipline)
    else if s == "Hostel" then Some(Hostel)
    else if s == "Examination" then Some(Examination)
    else if s == "Library" then Some(Library)
    else if s == "Accounts" then Some(Accounts)
    else if s == "General" then Some(General)
    else None
  }

  /** Reads a priority column back: the priority written as `s`, if any. */
  function ParsePriority(s: string): (r: Option<Priority>)
    ensures r.Some? ==> PriorityName(r.value) == s
    ensures r.None? ==> forall p :: PriorityName(p) != s
  {
    if s == "High" then Some(High)
    else if s == "Medium" then Some(Medium)
    else if s == "Low" then Some(Low)
    else None
  }

  /** Reads a sentiment column back: the sentiment written as `s`, if any. */
  function ParseSentiment(s: string): (r: Option<Sentiment>)
    ensures r.Some? ==> SentimentName(r.value) == s
    ensures r.None? ==> forall t :: SentimentName(t) != s
  {
    if s == "Negative" then Some(Negative)
    else if s == "Neutral" then Some(Neutral)
    else if s == "Positive" then Some(Positive)
    else None
  }

  /** Writing a label and reading it back gives the label: distinct labels
      are written as distinct texts. */
  lemma NamesRoundTrip(c: Category, p: Priority, s: Sentiment)
    ensures ParseCategory(CategoryName(c)) == Some(c)
    ensures ParsePriority(PriorityName(p)) == Some(p)
    ensures ParseSentiment(SentimentName(s)) == Some(s)
  {
  }
}
