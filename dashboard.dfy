// The dashboard's list logic: filtering the stored records by decision and
// client tier, sorting them with the comparator of the selected sort key,
// and the small string mappers that label a row.

module Dashboard {
  import opened Wrappers
  import opened Text
  import opened Scoring
  import opened ValueParsing
  import opened Store
  import opened Sorting

  // ---------------------------------------------------------------------------
  // Filtering
  // ---------------------------------------------------------------------------

  /** The two filters together: an empty filter lets every record through. */
  predicate Selects(decision: string, client: string, r: Record)
  {
    && (decision == "" || r.result.decision == decision)
    && (client == "" || r.result.clientCategory == client)
  }

  /** `Selects` as a test for `Keep`. */
  function SelectsFn(decision: string, client: string): Record -> bool
  {
    (r: Record) => Selects(decision, client, r)
  }

  /** The records both filters let through, in stored order. */
  function Selected(rs: seq<Record>, decision: string, client: string): seq<Record>
  {
    Keep(rs, SelectsFn(decision, client))
  }

  /**
   * The selection holds each record that passes both filters as often as it
   * is stored, and no other record, in stored order.
   */
  lemma SelectedExactly(rs: seq<Record>, decision: string, client: string)
    ensures forall x :: multiset(Selected(rs, decision, client))[x] ==
                        (if Selects(decision, client, x) then multiset(rs)[x] else 0)
    ensures IsSubsequence(Selected(rs, decision, client), rs)
    ensures decision == "" && client == "" ==> Selected(rs, decision, client) == rs
  {
    KeepExactly(rs, SelectsFn(decision, client));
    if decision == "" && client == "" {
      KeepAll(rs, SelectsFn(decision, client));
    }
  }

  /** Applying the decision filter and then the client filter, each only when set, yields the selection. */
  lemma FilteringSelects(rs: seq<Record>, decision: string, client: string)
    ensures var byDecision := if decision != "" then Keep(rs, HasDecision(decision)) else rs;
      (if client != "" then Keep(byDecision, HasCategory(Client, client)) else byDecision)
        == Selected(rs, decision, client)
  {
    var sel := SelectsFn(decision, client);
    if decision != "" && client != "" {
      KeepBoth(rs, HasDecision(decision), HasCategory(Client, client), sel);
    } else if decision != "" {
      KeepSame(rs, HasDecision(decision), sel);
    } else if client != "" {
      KeepSame(rs, HasCategory(Client, client), sel);
    } else {
      KeepAll(rs, sel);
    }
  }

  // ---------------------------------------------------------------------------
  // Sorting
  // ---------------------------------------------------------------------------

  /** The six sort keys the comparator knows. */
  predicate IsKnownSort(sort: string)
  {
    sort in ["date-desc", "date-asc", "score-desc", "score-asc", "value-desc", "value-asc"]
  }

  /** The two keys that compare project values. */
  predicate IsValueSort(sort: string)
  {
    sort == "value-desc" || sort == "value-asc"
  }

  /** `x - y` on the parsed values; a NaN difference is compared as 0. */
  function Difference(x: Number, y: Number): int
  {
    match (x, y)
    case (Finite(m), Finite(n)) => m - n
    case _ => 0
  }

  /** The comparator: a positive result puts `a` after `b`. */
  function Compare(sort: string, a: Record, b: Record): int
  {
    if sort == "date-desc" then b.timestamp - a.timestamp
    else if sort == "date-asc" then a.timestamp - b.timestamp
    else if sort == "score-desc" then b.result.totalScore - a.result.totalScore
    else if sort == "score-asc" then a.result.totalScore - b.result.totalScore
    else if sort == "value-desc" then Difference(ExtractValue(b.projectInfo.value), ExtractValue(a.projectInfo.value))
    else if sort == "value-asc" then Difference(ExtractValue(a.projectInfo.value), ExtractValue(b.projectInfo.value))
    else 0
  }

  /** The value a record is sorted by; NaN counts as 0 here, but `Comparable` excludes it. */
  function ValueKey(r: Record): int
  {
    match ExtractValue(r.projectInfo.value)
    case Finite(n) => n
    case NaN => 0
  }

  /** The number the selected key sorts by in ascending order. */
  function SortKey(sort: string, r: Record): int
  {
    if sort == "date-desc" then -r.timestamp
    else if sort == "date-asc" then r.timestamp
    else if sort == "score-desc" then -r.result.totalScore
    else if sort == "score-asc" then r.result.totalScore
    else if sort == "value-desc" then -ValueKey(r)
    else if sort == "value-asc" then ValueKey(r)
    else 0
  }

  /** The comparator orders the record consistently: a known key, and no NaN value for a value sort. */
  predicate Comparable(sort: string, r: Record)
  {
    IsKnownSort(sort) && (IsValueSort(sort) ==> ExtractValue(r.projectInfo.value).Finite?)
  }

  /** On comparable records the comparator is the difference of the sort keys. */
  lemma CompareByKey(sort: string, a: Record, b: Record)
    requires Comparable(sort, a) && Comparable(sort, b)
    ensures Compare(sort, a, b) == SortKey(sort, a) - SortKey(sort, b)
  {
  }

  /** Under an unknown key every comparison is 0. */
  lemma UnknownSortCompares(sort: string, a: Record, b: Record)
    ensures !IsKnownSort(sort) ==> Compare(sort, a, b) == 0
  {
  }

  /** `s` is in ascending order of the sort key. */
  predicate Sorted(sort: string, s: seq<Record>)
  {
    forall p, q :: 0 <= p < q < |s| ==> SortKey(sort, s[p]) <= SortKey(sort, s[q])
  }

  /** What each key's order means for the records themselves. */
  lemma SortedMeans(sort: string, s: seq<Record>)
    requires Sorted(sort, s)
    ensures sort == "date-desc" ==> forall p, q :: 0 <= p < q < |s| ==> s[p].timestamp >= s[q].timestamp
    ensures sort == "date-asc" ==> forall p, q :: 0 <= p < q < |s| ==> s[p].timestamp <= s[q].timestamp
    ensures sort == "score-desc" ==>
      forall p, q :: 0 <= p < q < |s| ==> s[p].result.totalScore >= s[q].result.totalScore
    ensures sort == "score-asc" ==>
      forall p, q :: 0 <= p < q < |s| ==> s[p].result.totalScore <= s[q].result.totalScore
    ensures sort == "value-desc" ==> forall p, q :: 0 <= p < q < |s| ==> ValueKey(s[p]) >= ValueKey(s[q])
    ensures sort == "value-asc" ==> forall p, q :: 0 <= p < q < |s| ==> ValueKey(s[p]) <= ValueKey(s[q])
  {
    forall p, q | 0 <= p < q < |s|
      ensures SortKey(sort, s[p]) <= SortKey(sort, s[q])
    {
    }
  }

  /** The sort key as a function, for the key-generic lemmas below. */
  function KeyOf(sort: string): Record -> int
  {
    (r: Record) => SortKey(sort, r)
  }

  /** Being in order of `KeyOf(sort)` is being `Sorted`. */
  lemma SortedByKey(sort: string, s: seq<Record>)
    requires SortedBy(KeyOf(sort), s, 0, |s|)
    ensures Sorted(sort, s)
  {
    forall p, q | 0 <= p < q < |s|
      ensures SortKey(sort, s[p]) <= SortKey(sort, s[q])
    {
      assert KeyOf(sort)(s[p]) <= KeyOf(sort)(s[q]);
    }
  }

  /** The comparator of a sort key as a function value. */
  function CompareFn(sort: string): (Record, Record) -> int
  {
    (x: Record, y: Record) => Compare(sort, x, y)
  }

  /** On comparable records the comparator is the difference of the sort key. */
  lemma ComparableKeyDifference(sort: string, s: seq<Record>)
    requires forall r :: r in s ==> Comparable(sort, r)
    ensures KeyDifference(CompareFn(sort), KeyOf(sort), s)
  {
    forall x, y | x in s && y in s
      ensures CompareFn(sort)(x, y) == KeyOf(sort)(x) - KeyOf(sort)(y)
    {
      CompareByKey(sort, x, y);
    }
  }

  /** Under an unknown key the comparator never asks for a swap. */
  lemma UnknownSortStill(sort: string)
    requires !IsKnownSort(sort)
    ensures NeverPositive(CompareFn(sort))
  {
    forall x, y ensures CompareFn(sort)(x, y) <= 0 {
      UnknownSortCompares(sort, x, y);
    }
  }

  /**
   * `assessments.sort(comparator)` on the dashboard's array: a permutation,
   * sorted by the key when every record is comparable, and untouched when
   * the key is unknown.
   */
  method SortAssessments(a: array<Record>, sort: string)
    modifies a
    ensures multiset(a[..]) == multiset(old(a[..]))
    ensures (forall r :: r in old(a[..]) ==> Comparable(sort, r)) ==> Sorted(sort, a[..])
    ensures !IsKnownSort(sort) ==> a[..] == old(a[..])
  {
    ghost var original := a[..];
    ghost var comparable := forall r :: r in original ==> Comparable(sort, r);
    if comparable {
      ComparableKeyDifference(sort, original);
    }
    if !IsKnownSort(sort) {
      UnknownSortStill(sort);
    }
    InsertionSort(a, CompareFn(sort), KeyOf(sort));
    if comparable {
      assert a[..] == a[..a.Length];
      SortedByKey(sort, a[..]);
    }
  }

  // ---------------------------------------------------------------------------
  // The string mappers
  // ---------------------------------------------------------------------------

  /** The badge class: substrings checked in the order DECLINE, HIGH MARGIN, MODERATE MARGIN. */
  function GetDecisionClass(decision: string): string
  {
    if Contains(decision, "DECLINE") then "decision-decline"
    else if Contains(decision, "HIGH MARGIN") then "decision-high-margin"
    else if Contains(decision, "MODERATE MARGIN") then "decision-moderate-margin"
    else "decision-standard-margin"
  }

  /** "DECLINE" is checked first and found. */
  lemma DeclineClass()
    ensures GetDecisionClass(Decline.Text()) == "decision-" + Decline.CssClass()
  {
    OccursIn("DECLINE", "", "DECLINE", "");
  }

  /** No "PURSUE WITH" text holds a 'C', so none holds "DECLINE". */
  lemma PursueLacksDecline(d: Decision)
    requires d != Decline
    ensures !Contains(d.Text(), "DECLINE")
  {
    MissingChar(d.Text(), "DECLINE", 2);
  }

  /**
   * Only the high-margin text holds "HIGH MARGIN": "DECLINE" has no 'H', and
   * the phrase needs two 'G's where the other margin texts have one.
   */
  lemma OnlyHighHoldsHigh(d: Decision)
    requires d != HighMargin
    ensures !Contains(d.Text(), "HIGH MARGIN")
  {
    match d
    case Decline => MissingChar(d.Text(), "HIGH MARGIN", 0);
    case ModerateMargin =>
      RepeatedChar(d.Text(), "HIGH MARGIN", 2, 8, "PURSUE WITH MODERATE MAR", "IN");
    case StandardMargin =>
      RepeatedChar(d.Text(), "HIGH MARGIN", 2, 8, "PURSUE WITH STANDARD MAR", "IN");
  }

  /** Each margin text holds its own phrase after "PURSUE WITH ". */
  lemma PursueHoldsPhrase(d: Decision)
    requires d != Decline
    ensures d == HighMargin ==> Contains(d.Text(), "HIGH MARGIN")
    ensures d == ModerateMargin ==> Contains(d.Text(), "MODERATE MARGIN")
  {
    match d
    case HighMargin => OccursIn(d.Text(), "PURSUE WITH ", "HIGH MARGIN", "");
    case ModerateMargin => OccursIn(d.Text(), "PURSUE WITH ", "MODERATE MARGIN", "");
    case StandardMargin =>
  }

  /** The standard-margin text holds no 'O', so not "MODERATE MARGIN". */
  lemma StandardLacksModerate()
    ensures !Contains("PURSUE WITH STANDARD MARGIN", "MODERATE MARGIN")
  {
    MissingChar("PURSUE WITH STANDARD MARGIN", "MODERATE MARGIN", 1);
  }

  /** The high-margin text falls in the second class. */
  lemma HighMarginClass()
    ensures GetDecisionClass(HighMargin.Text()) == "decision-" + HighMargin.CssClass()
  {
    PursueLacksDecline(HighMargin);
    PursueHoldsPhrase(HighMargin);
  }

  /** The moderate-margin text falls in the third class. */
  lemma ModerateMarginClass()
    ensures GetDecisionClass(ModerateMargin.Text()) == "decision-" + ModerateMargin.CssClass()
  {
    PursueLacksDecline(ModerateMargin);
    OnlyHighHoldsHigh(ModerateMargin);
    PursueHoldsPhrase(ModerateMargin);
  }

  /** The standard-margin text falls through to the last class. */
  lemma StandardMarginClass()
    ensures GetDecisionClass(StandardMargin.Text()) == "decision-" + StandardMargin.CssClass()
  {
    PursueLacksDecline(StandardMargin);
    OnlyHighHoldsHigh(StandardMargin);
    StandardLacksModerate();
  }

  /** Each decision string the engine produces gets the badge class named after its own tag. */
  lemma DecisionClassOf(d: Decision)
    ensures GetDecisionClass(d.Text()) == "decision-" + d.CssClass()
  {
    match d
    case Decline => DeclineClass();
    case HighMargin => HighMarginClass();
    case ModerateMargin => ModerateMarginClass();
    case StandardMargin => StandardMarginClass();
  }

  /** The badge class of every engine result is "decision-" followed by the result's own tag. */
  lemma DecisionClassMatchesResult(s: ScreeningAnswers, sc: AssessmentScores)
    ensures GetDecisionClass(CalculateResult(s, sc).decision) == "decision-" + CalculateResult(s, sc).cssClass
  {
    if FailsScreening(s) {
      DecisionClassOf(Decline);
    } else {
      DecisionClassOf(Matrix(ClientTier(ClientScore(sc)), WorkTier(WorkScore(sc))));
    }
  }

  /** The category badge class: "category-" and the category lowercased. */
  function GetCategoryClass(category: string): string
  {
    "category-" + Lower(category)
  }

  /** The class holds the category lowercased, with no capital letter left after the prefix. */
  lemma CategoryClassShape(category: string)
    ensures |GetCategoryClass(category)| == 9 + |category|
    ensures GetCategoryClass(category)[..9] == "category-"
    ensures forall i :: 9 <= i < |GetCategoryClass(category)| ==> !('A' <= GetCategoryClass(category)[i] <= 'Z')
  {
    LowerPointwise(category);
    forall i | 0 <= i < |category| {
      LowerCharCases(category[i]);
    }
  }

  /** A capitalised word without further capitals: only its initial changes. */
  lemma CategoryClassOfWord(name: string, first: char, rest: string)
    requires name == [first] + rest
    requires forall c :: c in rest ==> !('A' <= c <= 'Z') && c != '\U{212A}'
    ensures GetCategoryClass(name) == "category-" + [LowerChar(first)] + rest
  {
    LowerCapitalised(first, rest);
  }

  /** A tier name is capitalised, and its class is the name with the initial lowercased. */
  lemma TierCategoryClass(t: Tier)
    ensures |t.Name()| > 0 && 'A' <= t.Name()[0] <= 'Z'
    ensures GetCategoryClass(t.Name()) == "category-" + [LowerChar(t.Name()[0])] + t.Name()[1..]
  {
    var name := t.Name();
    assert name == [name[0]] + name[1..];
    CategoryClassOfWord(name, name[0], name[1..]);
  }

  /** The screening placeholder's class. */
  lemma PlaceholderCategoryClass()
    ensures GetCategoryClass("N/A") == "category-n/a"
  {
  }

  /** The label: the first "PURSUE WITH " and then the first " MARGIN" removed. */
  function FormatDecision(decision: string): string
  {
    ReplaceFirst(ReplaceFirst(decision, "PURSUE WITH ", ""), " MARGIN", "")
  }

  /** A decision without either phrase is shown as it is. */
  lemma FormatDecisionPlain(decision: string)
    requires !Contains(decision, "PURSUE WITH ") && !Contains(decision, " MARGIN")
    ensures FormatDecision(decision) == decision
  {
  }

  /** "DECLINE" holds neither phrase and is shown as it is. */
  lemma DeclineLabel()
    ensures FormatDecision(Decline.Text()) == "DECLINE"
  {
    MissingChar("DECLINE", " MARGIN", 1);
  }

  /** The high-margin decision is shown as "HIGH". */
  lemma HighMarginLabel()
    ensures FormatDecision(HighMargin.Text()) == "HIGH"
  {
    LabelOf(HighMargin.Text(), "HIGH");
  }

  /** The moderate-margin decision is shown as "MODERATE". */
  lemma ModerateMarginLabel()
    ensures FormatDecision(ModerateMargin.Text()) == "MODERATE"
  {
    LabelOf(ModerateMargin.Text(), "MODERATE");
  }

  /** The standard-margin decision is shown as "STANDARD". */
  lemma StandardMarginLabel()
    ensures FormatDecision(StandardMargin.Text()) == "STANDARD"
  {
    LabelOf(StandardMargin.Text(), "STANDARD");
  }

  /** "PURSUE WITH " + word + " MARGIN" is labelled with the word, when the word has no space. */
  lemma LabelOf(decision: string, word: string)
    requires decision == "PURSUE WITH " + word + " MARGIN"
    requires ' ' !in word
    ensures FormatDecision(decision) == word
  {
    assert OccursAt(decision, "PURSUE WITH ", 0);
    IndexOfIs(decision, "PURSUE WITH ", 0);
    var rest := ReplaceFirst(decision, "PURSUE WITH ", "");
    assert rest == word + " MARGIN";
    assert OccursAt(rest, " MARGIN", |word|);
    AbsentBefore(rest, " MARGIN", 0, |word|);
    IndexOfIs(rest, " MARGIN", |word|);
    assert rest[..|word|] == word;
  }

  // ---------------------------------------------------------------------------
  // The dashboard
  // ---------------------------------------------------------------------------

  /** The list view over a store, with its current filter and sort key. */
  class Dashboard {
    const dataManager: DataManager
    var decisionFilter: string
    var clientFilter: string
    var sort: string

    /** No filter, newest first. */
    constructor(dataManager: DataManager)
      ensures this.dataManager == dataManager
      ensures decisionFilter == "" && clientFilter == "" && sort == "date-desc"
    {
      this.dataManager := dataManager;
      decisionFilter := "";
      clientFilter := "";
      sort := "date-desc";
    }

    /** The decision filter's change handler. */
    method SetDecisionFilter(value: string)
      modifies this
      ensures decisionFilter == value && clientFilter == old(clientFilter) && sort == old(sort)
    {
      decisionFilter := value;
    }

    /** The client filter's change handler. */
    method SetClientFilter(value: string)
      modifies this
      ensures clientFilter == value && decisionFilter == old(decisionFilter) && sort == old(sort)
    {
      clientFilter := value;
    }

    /** The sort selector's change handler. */
    method SetSort(value: string)
      modifies this
      ensures sort == value && decisionFilter == old(decisionFilter) && clientFilter == old(clientFilter)
    {
      sort := value;
    }

    /**
     * The stored records both filters let through, sorted by the current
     * key: a permutation of the selection, in key order when every selected
     * record is comparable, and in stored order under an unknown key.
     */
    method GetFilteredAndSortedAssessments() returns (assessments: seq<Record>)
      ensures multiset(assessments) == multiset(Selected(dataManager.GetAllAssessments(), decisionFilter, clientFilter))
      ensures (forall r :: r in Selected(dataManager.GetAllAssessments(), decisionFilter, clientFilter) ==>
                 Comparable(sort, r)) ==> Sorted(sort, assessments)
      ensures !IsKnownSort(sort) ==> assessments == Selected(dataManager.GetAllAssessments(), decisionFilter, clientFilter)
    {
      assessments := dataManager.GetAllAssessments();
      FilteringSelects(assessments, decisionFilter, clientFilter);
      ghost var selected := Selected(assessments, decisionFilter, clientFilter);

      if decisionFilter != "" {
        assessments := Keep(assessments, HasDecision(decisionFilter));
      }
      if clientFilter != "" {
        assessments := Keep(assessments, HasCategory(Client, clientFilter));
      }
      assert assessments == selected;

      var a := new Record[|assessments|](i requires 0 <= i < |assessments| => assessments[i]);
      assert a[..] == assessments;
      SortAssessments(a, sort);
      assessments := a[..];
    }
  }
}
