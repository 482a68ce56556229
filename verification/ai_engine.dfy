/** The keyword rule engine: category classification, priority detection
    and the sentiment thresholds, each a total function of its input. */
module AiEngine {
  import opened Strings
  import opened Labels

  /** `classify_grievance`: the text is lowered once, then the rules are
      tried in order and the first one with a keyword in the text decides. */
  function ClassifyGrievance(text: string): Category {
    var t := Lower(text);
    if Contains(t, "ragging") || Contains(t, "harassment") then Discipline
    else if Contains(t, "hostel") then Hostel
    else if Contains(t, "exam") || Contains(t, "result") then Examination
    else if Contains(t, "library") then Library
    else if Contains(t, "fee") then Accounts
    else General
  }

  /** The keyword list of the first priority rule. */
  const UrgentWords: seq<string> := ["urgent", "immediately", "danger", "harassment", "emergency"]

  /** Python's `any(word in t for word in words)`. */
  function AnyIn(t: string, words: seq<string>): (b: bool)
    ensures b <==> exists i :: 0 <= i < |words| && Contains(t, words[i])
  {
    if |words| == 0 then false
    else Contains(t, words[0]) || AnyIn(t, words[1..])
  }

  /** `detect_priority`: urgent words first, then malfunction words, else Low. */
  function DetectPriority(text: string): Priority {
    if AnyIn(Lower(text), UrgentWords) then High
    else if Contains(Lower(text), "not working") || Contains(Lower(text), "problem") then Medium
    else Low
  }

  /** The exact value of the binary64 literal `0.1` the thresholds compare
      against; it is slightly above one tenth. */
  const Tenth: real := 0.1000000000000000055511151231257827021181583404541015625

  /** The threshold part of `sentiment_analysis`: strict comparisons on both
      sides, so the closed interval [-Tenth, Tenth] is Neutral. */
  function SentimentOf(polarity: real): (s: Sentiment)
    ensures s == Negative <==> polarity < -Tenth
    ensures s == Positive <==> Tenth < polarity
    ensures s == Neutral <==> -Tenth <= polarity <= Tenth
  {
    if polarity < -Tenth then Negative
    else if polarity > Tenth then Positive
    else Neutral
  }

  /** `sentiment_analysis(text)`, with the polarity estimator supplied by
      the caller in place of the lexicon library. */
  function SentimentAnalysis(polarity: string -> real, text: string): Sentiment {
    SentimentOf(polarity(text))
  }

  // ---------------------------------------------------------------------
  // Reference definition: the rules as a table, and "first match wins"
  // stated declaratively.
  // ---------------------------------------------------------------------

  /** The keywords of the rule that yields `c` (none for the fallback). */
  function CategoryKeywords(c: Category): seq<string> {
    match c
    case Discipline => ["ragging", "harassment"]
    case Hostel => ["hostel"]
    case Examination => ["exam", "result"]
    case Library => ["library"]
    case Accounts => ["fee"]
    case General => []
  }

  /** The position of the rule that yields `c`; the fallback comes last. */
  function CategoryRank(c: Category): nat {
    match c
    case Discipline => 0
    case Hostel => 1
    case Examination => 2
    case Library => 3
    case Accounts => 4
    case General => 5
  }

  /** Every keyword the classifier looks for. */
  const AllCategoryKeywords: seq<string> :=
    ["ragging", "harassment", "hostel", "exam", "result", "library", "fee"]

  /** `c` is the label of the first rule one of whose keywords occurs in the
      lowered text `t`, or the fallback when no earlier rule fires. */
  predicate IsFirstCategoryMatch(t: string, c: Category) {
    && (c == General || AnyIn(t, CategoryKeywords(c)))
    && forall d :: CategoryRank(d) < CategoryRank(c) ==> !AnyIn(t, CategoryKeywords(d))
  }

  function PriorityKeywords(p: Priority): seq<string> {
    match p
    case High => UrgentWords
    case Medium => ["not working", "problem"]
    case Low => []
  }

  function PriorityRank(p: Priority): nat {
    match p
    case High => 0
    case Medium => 1
    case Low => 2
  }

  predicate IsFirstPriorityMatch(t: string, p: Priority) {
    && (p == Low || AnyIn(t, PriorityKeywords(p)))
    && forall q :: PriorityRank(q) < PriorityRank(p) ==> !AnyIn(t, PriorityKeywords(q))
  }

  // ---------------------------------------------------------------------
  // Properties of the classifier
  // ---------------------------------------------------------------------

  lemma CategoryFirstMatchUnique(t: string, c: Category, d: Category)
    requires IsFirstCategoryMatch(t, c) && IsFirstCategoryMatch(t, d)
    ensures c == d
  {
  }

  /** The if-chain of `classify_grievance` computes exactly the first match
      of the rule table on the lowered text: for every label, the classifier
      returns it if and only if it is the first rule that fires. */
  lemma ClassifyIsFirstMatch(text: string, c: Category)
    ensures ClassifyGrievance(text) == c <==> IsFirstCategoryMatch(Lower(text), c)
  {
    var t := Lower(text);
    var r := ClassifyGrievance(text);
    assert IsFirstCategoryMatch(t, r) by {
      forall d | CategoryRank(d) < CategoryRank(r)
        ensures !AnyIn(t, CategoryKeywords(d))
      {
        assert AnyIn(t, CategoryKeywords(d)) == (exists i :: 0 <= i < |CategoryKeywords(d)| && Contains(t, CategoryKeywords(d)[i]));
      }
    }
    if IsFirstCategoryMatch(t, c) {
      CategoryFirstMatchUnique(t, c, r);
    }
  }

  /** Every keyword that occurs bounds the result: the classifier never
      answers with a rule later than one that fires. */
  lemma ClassifyNoLaterThanFiringRule(text: string, c: Category)
    requires AnyIn(Lower(text), CategoryKeywords(c))
    ensures CategoryRank(ClassifyGrievance(text)) <= CategoryRank(c)
  {
  }

  /** The fallback `General` is returned exactly when none of the keywords
      occurs in the lowered text. */
  lemma ClassifyGeneralIff(text: string)
    ensures ClassifyGrievance(text) == General
        <==> forall w :: w in AllCategoryKeywords ==> !Contains(Lower(text), w)
  {
    var t := Lower(text);
    if ClassifyGrievance(text) == General {
      forall w | w in AllCategoryKeywords
        ensures !Contains(t, w)
      {
        assert w in CategoryKeywords(Discipline) + CategoryKeywords(Hostel) + CategoryKeywords(Examination)
                  + CategoryKeywords(Library) + CategoryKeywords(Accounts);
      }
    } else {
      var k :=
        if Contains(t, "ragging") then 0
        else if Contains(t, "harassment") then 1
        else if Contains(t, "hostel") then 2
        else if Contains(t, "exam") then 3
        else if Contains(t, "result") then 4
        else if Contains(t, "library") then 5
        else 6;
      assert AllCategoryKeywords[k] in AllCategoryKeywords && Contains(t, AllCategoryKeywords[k]);
    }
  }

  /** Only the lowered text matters: classification ignores case. */
  lemma ClassifyIgnoresCase(text: string)
    ensures ClassifyGrievance(Lower(text)) == ClassifyGrievance(text)
    ensures DetectPriority(Lower(text)) == DetectPriority(text)
  {
    LowerIdempotent(text);
  }

  /** A text containing "harassment" is both a Discipline and a High
      priority grievance, whatever else it contains. */
  lemma HarassmentIsDisciplineAndHigh(text: string)
    requires Contains(Lower(text), "harassment")
    ensures ClassifyGrievance(text) == Discipline
    ensures DetectPriority(text) == High
  {
    assert UrgentWords[3] == "harassment";
  }

  // ---------------------------------------------------------------------
  // Properties of the priority detector
  // ---------------------------------------------------------------------

  lemma PriorityFirstMatchUnique(t: string, p: Priority, q: Priority)
    requires IsFirstPriorityMatch(t, p) && IsFirstPriorityMatch(t, q)
    ensures p == q
  {
  }

  /** `detect_priority` returns a priority if and only if it is the first
      priority rule that fires on the lowered text (High: an urgent word;
      Medium: no urgent word but a malfunction word; Low: neither). */
  lemma PriorityIsFirstMatch(text: string, p: Priority)
    ensures DetectPriority(text) == p <==> IsFirstPriorityMatch(Lower(text), p)
  {
    var t := Lower(text);
    var r := DetectPriority(text);
    assert IsFirstPriorityMatch(t, r) by {
      forall q | PriorityRank(q) < PriorityRank(r)
        ensures !AnyIn(t, PriorityKeywords(q))
      {
        assert AnyIn(t, PriorityKeywords(q)) == (exists i :: 0 <= i < |PriorityKeywords(q)| && Contains(t, PriorityKeywords(q)[i]));
      }
    }
    if IsFirstPriorityMatch(t, p) {
      PriorityFirstMatchUnique(t, p, r);
    }
  }

  // ---------------------------------------------------------------------
  // Properties of the sentiment thresholds
  // ---------------------------------------------------------------------

  function SentimentRank(s: Sentiment): nat {
    match s
    case Negative => 0
    case Neutral => 1
    case Positive => 2
  }

  /** A higher polarity never gives a more negative label. */
  lemma SentimentMonotone(p: real, q: real)
    requires p <= q
    ensures SentimentRank(SentimentOf(p)) <= SentimentRank(SentimentOf(q))
  {
  }

  /** Both boundaries are Neutral; just beyond them the label changes. */
  lemma SentimentBoundaries()
    ensures SentimentOf(Tenth) == Neutral && SentimentOf(-Tenth) == Neutral
    ensures SentimentOf(0.1) == Neutral && SentimentOf(-0.1) == Neutral
    ensures SentimentOf(0.15) == Positive && SentimentOf(-0.15) == Negative
  {
  }

  // ---------------------------------------------------------------------
  // Worked examples
  // ---------------------------------------------------------------------

  /** A keyword with a character the text lacks does not occur in it. */
  lemma MissingCharRulesOut(s: string, w: string, c: char)
    requires c in w && c !in s
    ensures !Contains(s, w)
  {
  }

  /** The Discipline rule is tried before the Hostel rule. */
  lemma DisciplineBeforeHostelExample(t: string)
    requires t == "ragging in hostel"
    ensures ClassifyGrievance(t) == Discipline
  {
    LowerOfLowerIsIdentity(t);
    assert OccursAt(t, "ragging", 0);
  }

  lemma LibraryFeeWaiverKeywords(t: string)
    requires t == "library fee waiver"
    ensures !Contains(t, "ragging") && !Contains(t, "harassment") && !Contains(t, "hostel")
    ensures !Contains(t, "exam") && !Contains(t, "result") && Contains(t, "library")
  {
    MissingCharRulesOut(t, "ragging", 'n');
    MissingCharRulesOut(t, "harassment", 's');
    MissingCharRulesOut(t, "hostel", 'h');
    MissingCharRulesOut(t, "exam", 'x');
    MissingCharRulesOut(t, "result", 's');
    assert OccursAt(t, "library", 0);
  }

  /** The Library rule is tried before the Accounts rule. */
  lemma LibraryBeforeAccountsExample(t: string)
    requires t == "library fee waiver"
    ensures ClassifyGrievance(t) == Library
  {
    LibraryFeeWaiverKeywords(t);
    LowerOfLowerIsIdentity(t);
  }

  lemma CoffeeKeywords(t: string)
    requires t == "coffee"
    ensures !Contains(t, "ragging") && !Contains(t, "harassment") && !Contains(t, "hostel")
    ensures !Contains(t, "exam") && !Contains(t, "result") && !Contains(t, "library")
    ensures Contains(t, "fee")
  {
    MissingCharRulesOut(t, "ragging", 'r');
    MissingCharRulesOut(t, "harassment", 'r');
    MissingCharRulesOut(t, "hostel", 'h');
    MissingCharRulesOut(t, "exam", 'x');
    MissingCharRulesOut(t, "result", 'r');
    MissingCharRulesOut(t, "library", 'r');
    assert OccursAt(t, "fee", 3);
  }

  /** Keywords match anywhere, even inside a longer word. */
  lemma SubstringMatchExample(t: string)
    requires t == "coffee"
    ensures ClassifyGrievance(t) == Accounts
  {
    CoffeeKeywords(t);
    LowerOfLowerIsIdentity(t);
  }

  /** Upper-case keywords are found after lowering. */
  lemma UpperCaseExample(t: string)
    requires t == "RAGGING"
    ensures ClassifyGrievance(t) == Discipline
  {
    assert Lower(t) == "ragging";
    assert OccursAt(Lower(t), "ragging", 0);
  }

  lemma EmergencyProblemKeywords(t: string)
    requires t == "this is an emergency, problem too"
    ensures Contains(t, "emergency")
  {
    forall k | 0 <= k < 9
      ensures t[11 + k] == "emergency"[k]
    {
    }
    assert OccursAt(t, "emergency", 11);
  }

  /** An urgent word outranks a malfunction word. */
  lemma UrgentBeforeMalfunctionExample(t: string)
    requires t == "this is an emergency, problem too"
    ensures DetectPriority(t) == High
  {
    EmergencyProblemKeywords(t);
    LowerOfLowerIsIdentity(t);
    assert UrgentWords[4] == "emergency";
  }

  lemma RandomTextKeywords(t: string)
    requires t == "random text"
    ensures !Contains(t, "urgent") && !Contains(t, "immediately") && !Contains(t, "danger")
    ensures !Contains(t, "harassment") && !Contains(t, "emergency")
    ensures !Contains(t, "not working") && !Contains(t, "problem")
  {
    MissingCharRulesOut(t, "urgent", 'u');
    MissingCharRulesOut(t, "immediately", 'i');
    MissingCharRulesOut(t, "danger", 'g');
    MissingCharRulesOut(t, "harassment", 'h');
    MissingCharRulesOut(t, "emergency", 'g');
    MissingCharRulesOut(t, "not working", 'w');
    MissingCharRulesOut(t, "problem", 'p');
  }

  /** A text with no keyword at all is Low priority. */
  lemma FallbackPriorityExample(t: string)
    requires t == "random text"
    ensures DetectPriority(t) == Low
  {
    RandomTextKeywords(t);
    LowerOfLowerIsIdentity(t);
  }
}
