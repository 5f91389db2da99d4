// The assessment store: one collection of records held under one storage
// key, read, modified and written back whole by every operation, and the
// summary statistics computed over it.

module Store {
  import opened Wrappers
  import opened Text
  import opened Scoring
  import opened ValueParsing

  // ---------------------------------------------------------------------------
  // Records
  // ---------------------------------------------------------------------------

  /** The free-text project details; a field left blank or absent is "". */
  datatype ProjectInfo = ProjectInfo(
    workScope: string,
    clientName: string,
    location: string,
    workType: string,
    value: string,
    assessedBy: string,
    assessmentDate: string)

  /** What the assessment page hands to the store when a result is saved. */
  datatype AssessmentData = AssessmentData(
    projectInfo: ProjectInfo,
    screeningAnswers: ScreeningAnswers,
    assessmentScores: AssessmentScores,
    result: DecisionResult)

  /** A stored record: the saved data with its generated id and timestamp in front. */
  datatype Record = Record(
    id: string,
    timestamp: int,
    projectInfo: ProjectInfo,
    screeningAnswers: ScreeningAnswers,
    assessmentScores: AssessmentScores,
    result: DecisionResult)

  /** `{ id, timestamp, ...assessmentData }`. */
  function Stamp(data: AssessmentData, id: string, timestamp: int): Record
  {
    Record(id, timestamp, data.projectInfo, data.screeningAnswers, data.assessmentScores, data.result)
  }

  // ---------------------------------------------------------------------------
  // Filtering a sequence of records
  // ---------------------------------------------------------------------------

  /** `xs` can be obtained from `ys` by deleting elements. */
  predicate IsSubsequence(xs: seq<Record>, ys: seq<Record>)
    decreases |ys|
  {
    if xs == [] then true
    else if ys == [] then false
    else (xs[0] == ys[0] && IsSubsequence(xs[1..], ys[1..])) || IsSubsequence(xs, ys[1..])
  }

  /**
   * `Array.prototype.filter`: the records `keep` accepts, each as often as
   * it occurs, in their original order.
   */
  function Keep(rs: seq<Record>, keep: Record -> bool): (r: seq<Record>)
    ensures |r| <= |rs|
  {
    if rs == [] then []
    else if keep(rs[0]) then [rs[0]] + Keep(rs[1..], keep)
    else Keep(rs[1..], keep)
  }

  /**
   * The filter keeps exactly the accepted records: each as often as it
   * occurs, the others not at all, and in their original order.
   */
  lemma {:induction false} KeepExactly(rs: seq<Record>, keep: Record -> bool)
    ensures forall x :: x in Keep(rs, keep) <==> x in rs && keep(x)
    ensures forall x :: multiset(Keep(rs, keep))[x] == if keep(x) then multiset(rs)[x] else 0
    ensures IsSubsequence(Keep(rs, keep), rs)
  {
    if rs != [] {
      KeepExactly(rs[1..], keep);
      assert rs == [rs[0]] + rs[1..];
    }
  }

  /** Filtering a concatenation filters each part. */
  lemma {:induction false} KeepAppend(a: seq<Record>, b: seq<Record>, keep: Record -> bool)
    ensures Keep(a + b, keep) == Keep(a, keep) + Keep(b, keep)
  {
    if a == [] {
      assert a + b == b;
    } else {
      assert (a + b)[1..] == a[1..] + b;
      KeepAppend(a[1..], b, keep);
    }
  }

  /** A filter every record passes changes nothing. */
  lemma {:induction false} KeepAll(rs: seq<Record>, keep: Record -> bool)
    requires forall x :: x in rs ==> keep(x)
    ensures Keep(rs, keep) == rs
  {
    if rs != [] {
      KeepAll(rs[1..], keep);
    }
  }

  /** Filtering twice by the same test is filtering once. */
  lemma KeepTwice(rs: seq<Record>, keep: Record -> bool)
    ensures Keep(Keep(rs, keep), keep) == Keep(rs, keep)
  {
    KeepExactly(rs, keep);
    KeepAll(Keep(rs, keep), keep);
  }

  /** Filters that agree on every record give the same result. */
  lemma {:induction false} KeepSame(rs: seq<Record>, p: Record -> bool, q: Record -> bool)
    requires forall x :: p(x) == q(x)
    ensures Keep(rs, p) == Keep(rs, q)
  {
    if rs != [] {
      KeepSame(rs[1..], p, q);
    }
  }

  /** Filtering by `p` and then by `q` keeps the records that pass both. */
  lemma {:induction false} KeepBoth(rs: seq<Record>, p: Record -> bool, q: Record -> bool, pq: Record -> bool)
    requires forall x :: pq(x) == (p(x) && q(x))
    ensures Keep(Keep(rs, p), q) == Keep(rs, pq)
  {
    if rs != [] {
      KeepBoth(rs[1..], p, q, pq);
    }
  }

  // ---------------------------------------------------------------------------
  // Lookup and deletion by id
  // ---------------------------------------------------------------------------

  /** `rs[i]` is the first record whose id is `id`. */
  predicate FirstWithId(rs: seq<Record>, id: string, i: nat)
  {
    i < |rs| && rs[i].id == id && forall j :: 0 <= j < i ==> rs[j].id != id
  }

  /** `find(a => a.id === id)`: the first record with that id, if any. */
  function FindById(rs: seq<Record>, id: string): (r: Option<Record>)
    ensures r.None? <==> forall i :: 0 <= i < |rs| ==> rs[i].id != id
    ensures r.Some? ==> exists i: nat :: FirstWithId(rs, id, i) && rs[i] == r.value
  {
    if rs == [] then None
    else if rs[0].id == id then
      assert FirstWithId(rs, id, 0);
      Some(rs[0])
    else
      var r := FindById(rs[1..], id);
      if r.Some? then
        var i: nat :| FirstWithId(rs[1..], id, i) && rs[1..][i] == r.value;
        assert FirstWithId(rs, id, i + 1);
        r
      else r
  }

  /** The first record with the id is what lookup finds. */
  lemma FindByIdIs(rs: seq<Record>, id: string, i: nat)
    requires FirstWithId(rs, id, i)
    ensures FindById(rs, id) == Some(rs[i])
  {
    var r := FindById(rs, id);
    var k: nat :| FirstWithId(rs, id, k) && rs[k] == r.value;
  }

  /** After a record with a fresh id is appended, looking its id up finds it. */
  lemma FindAfterSave(rs: seq<Record>, rec: Record)
    requires forall r :: r in rs ==> r.id != rec.id
    ensures FindById(rs + [rec], rec.id) == Some(rec)
  {
    var all := rs + [rec];
    forall j | 0 <= j < |rs|
      ensures all[j].id != rec.id
    {
      assert all[j] == rs[j];
    }
    FindByIdIs(all, rec.id, |rs|);
  }

  /** Appending a record does not change what an id already present finds. */
  lemma FindUnchangedBySave(rs: seq<Record>, rec: Record, id: string)
    requires FindById(rs, id).Some?
    ensures FindById(rs + [rec], id) == FindById(rs, id)
  {
    var i: nat :| FirstWithId(rs, id, i) && rs[i] == FindById(rs, id).value;
    var all := rs + [rec];
    assert all[i] == rs[i];
    assert forall j :: 0 <= j < i ==> all[j] == rs[j];
    FindByIdIs(all, id, i);
  }

  /** The test `a.id !== id`. */
  function HasOtherId(id: string): Record -> bool
  {
    (r: Record) => r.id != id
  }

  /** `filter(a => a.id !== id)`: every record except those with the id. */
  function WithoutId(rs: seq<Record>, id: string): (r: seq<Record>)
    ensures forall x :: x in r <==> x in rs && x.id != id
    ensures forall x :: multiset(r)[x] == if x.id != id then multiset(rs)[x] else 0
    ensures IsSubsequence(r, rs)
  {
    KeepExactly(rs, HasOtherId(id));
    Keep(rs, HasOtherId(id))
  }

  /** Deleting an id that no record carries leaves the collection as it was. */
  lemma DeleteAbsent(rs: seq<Record>, id: string)
    requires forall r :: r in rs ==> r.id != id
    ensures WithoutId(rs, id) == rs
  {
    KeepAll(rs, HasOtherId(id));
  }

  /** Deleting twice is deleting once. */
  lemma DeleteTwice(rs: seq<Record>, id: string)
    ensures WithoutId(WithoutId(rs, id), id) == WithoutId(rs, id)
  {
    KeepTwice(rs, HasOtherId(id));
  }

  /** After a delete, the id finds nothing. */
  lemma DeleteThenFind(rs: seq<Record>, id: string)
    ensures FindById(WithoutId(rs, id), id).None?
  {
    var w := WithoutId(rs, id);
    forall i | 0 <= i < |w|
      ensures w[i].id != id
    {
      assert w[i] in w;
    }
  }

  // ---------------------------------------------------------------------------
  // Summary statistics: the specification of the counting loop
  // ---------------------------------------------------------------------------

  /** The test `assessment.result.decision === 'DECLINE'`. */
  function IsDeclined(r: Record): bool
  {
    r.result.decision == "DECLINE"
  }

  /** Every record not declined counts as approved. */
  function IsApproved(r: Record): bool
  {
    !IsDeclined(r)
  }

  /** Each record is either approved or declined. */
  lemma {:induction false} ApprovedPlusDeclined(rs: seq<Record>)
    ensures |Keep(rs, IsApproved)| + |Keep(rs, IsDeclined)| == |rs|
  {
    if rs != [] {
      ApprovedPlusDeclined(rs[1..]);
    }
  }

  /** One entry of the decision frequency table. */
  datatype DecisionCount = DecisionCount(decision: string, count: nat)

  /**
   * `table[d] = (table[d] || 0) + 1` on a table kept in the order keys were
   * first added, as a JavaScript object keeps its string keys.
   */
  function Bump(table: seq<DecisionCount>, d: string): seq<DecisionCount>
  {
    if table == [] then [DecisionCount(d, 1)]
    else if table[0].decision == d then [DecisionCount(d, table[0].count + 1)] + table[1..]
    else [table[0]] + Bump(table[1..], d)
  }

  /** `table[d] || 0`. */
  function Lookup(table: seq<DecisionCount>, d: string): nat
  {
    if table == [] then 0
    else if table[0].decision == d then table[0].count
    else Lookup(table[1..], d)
  }

  /** The sum of the counts in a table. */
  function Total(table: seq<DecisionCount>): nat
  {
    if table == [] then 0 else table[0].count + Total(table[1..])
  }

  /** The keys of a table, in order. */
  function Keys(table: seq<DecisionCount>): seq<string>
  {
    if table == [] then [] else [table[0].decision] + Keys(table[1..])
  }

  /** No key is listed twice and every listed key has been counted at least once. */
  predicate ProperTable(table: seq<DecisionCount>)
  {
    && (forall i, j :: 0 <= i < j < |table| ==> table[i].decision != table[j].decision)
    && (forall i :: 0 <= i < |table| ==> table[i].count > 0)
  }

  /** What one increment does to a table: one more for `d`, a key appended at the end if new. */
  lemma {:induction false} BumpEffect(table: seq<DecisionCount>, d: string)
    ensures forall e :: Lookup(Bump(table, d), e) == Lookup(table, e) + (if e == d then 1 else 0)
    ensures Total(Bump(table, d)) == Total(table) + 1
    ensures Keys(Bump(table, d)) == if d in Keys(table) then Keys(table) else Keys(table) + [d]
  {
    if table != [] && table[0].decision != d {
      BumpEffect(table[1..], d);
    }
  }

  /** An increment keeps a table proper. */
  lemma {:induction false} BumpProper(table: seq<DecisionCount>, d: string)
    requires ProperTable(table)
    ensures ProperTable(Bump(table, d))
    ensures |Keys(table)| == |table|
  {
    if table != [] {
      assert ProperTable(table[1..]) by {
        assert forall i :: 0 <= i < |table| - 1 ==> table[1..][i] == table[i + 1];
      }
      BumpProper(table[1..], d);
      if table[0].decision != d {
        var b := Bump(table[1..], d);
        BumpEffect(table[1..], d);
        KeysAreDecisions(b);
        KeysAreDecisions(table[1..]);
        forall j | 0 <= j < |b|
          ensures b[j].decision != table[0].decision
        {
          assert b[j].decision in Keys(b);
          if b[j].decision != d {
            assert b[j].decision in Keys(table[1..]);
          }
        }
      }
    }
  }

  /** The keys of a table are its entries' decisions. */
  lemma {:induction false} KeysAreDecisions(table: seq<DecisionCount>)
    ensures |Keys(table)| == |table|
    ensures forall i :: 0 <= i < |table| ==> Keys(table)[i] == table[i].decision
  {
    if table != [] {
      KeysAreDecisions(table[1..]);
    }
  }

  /** The decision frequency table after the records `rs`. */
  function DecisionTable(rs: seq<Record>): seq<DecisionCount>
  {
    if rs == [] then []
    else Bump(DecisionTable(rs[..|rs| - 1]), rs[|rs| - 1].result.decision)
  }

  /** The test `a.result.decision === d`. */
  function HasDecision(d: string): Record -> bool
  {
    (r: Record) => r.result.decision == d
  }

  /**
   * The table counts each decision exactly as often as records carry it, its
   * counts add up to the number of records, and it lists no key twice.
   */
  lemma {:induction false} DecisionTableCounts(rs: seq<Record>)
    ensures forall d :: Lookup(DecisionTable(rs), d) == |Keep(rs, HasDecision(d))|
    ensures Total(DecisionTable(rs)) == |rs|
    ensures ProperTable(DecisionTable(rs))
  {
    if rs != [] {
      var init := rs[..|rs| - 1];
      var last := rs[|rs| - 1];
      assert rs == init + [last];
      DecisionTableCounts(init);
      BumpEffect(DecisionTable(init), last.result.decision);
      BumpProper(DecisionTable(init), last.result.decision);
      forall d
        ensures Lookup(DecisionTable(rs), d) == |Keep(rs, HasDecision(d))|
      {
        KeepAppend(init, [last], HasDecision(d));
      }
    }
  }

  /** The four counters of one side, one per tier name. */
  datatype TierCounts = TierCounts(development: nat, leverage: nat, nuisance: nat, avoid: nat) {
    /** The counter of a tier. */
    function Of(t: Tier): nat
    {
      match t
      case Development => development
      case Leverage => leverage
      case Nuisance => nuisance
      case Avoid => avoid
    }

    /** The four counters together. */
    function Sum(): nat
    {
      development + leverage + nuisance + avoid
    }

    /**
     * `counts[category]++`: the counter named by the category; any other
     * string leaves the four counters alone.
     */
    function Bump(category: string): TierCounts
    {
      if category == "Development" then this.(development := development + 1)
      else if category == "Leverage" then this.(leverage := leverage + 1)
      else if category == "Nuisance" then this.(nuisance := nuisance + 1)
      else if category == "Avoid" then this.(avoid := avoid + 1)
      else this
    }
  }

  const NoTiers: TierCounts := TierCounts(0, 0, 0, 0)

  /** A result's client or work category. */
  function Category(r: Record, side: Side): string
  {
    match side
    case Client => r.result.clientCategory
    case Work => r.result.workCategory
  }

  /** One of the four tier names. */
  predicate IsTierName(s: string)
  {
    s == "Development" || s == "Leverage" || s == "Nuisance" || s == "Avoid"
  }

  /** Bumping by a category adds one to that tier's counter, and to the sum when it names a tier. */
  lemma BumpTier(counts: TierCounts, c: string, t: Tier)
    ensures counts.Bump(c).Of(t) == counts.Of(t) + (if c == t.Name() then 1 else 0)
    ensures counts.Bump(c).Sum() == counts.Sum() + (if IsTierName(c) then 1 else 0)
  {
  }

  /** `if (category) counts[category]++`. */
  function CountCategory(counts: TierCounts, category: string): TierCounts
  {
    if category != "" then counts.Bump(category) else counts
  }

  /** The tier counters of one side after the records `rs`. */
  function TierCountsOf(rs: seq<Record>, side: Side): TierCounts
  {
    if rs == [] then NoTiers
    else
      CountCategory(TierCountsOf(rs[..|rs| - 1], side), Category(rs[|rs| - 1], side))
  }

  /** The test "this side's category is the name `name`". */
  function HasCategory(side: Side, name: string): Record -> bool
  {
    (r: Record) => Category(r, side) == name
  }

  /** The test "this side's category is a tier name". */
  function HasTier(side: Side): Record -> bool
  {
    (r: Record) => IsTierName(Category(r, side))
  }

  /** Each tier counter counts exactly the records of that category. */
  lemma {:induction false} TierCounting(rs: seq<Record>, side: Side, t: Tier)
    ensures TierCountsOf(rs, side).Of(t) == |Keep(rs, HasCategory(side, t.Name()))|
  {
    if rs != [] {
      var init := rs[..|rs| - 1];
      var last := rs[|rs| - 1];
      assert rs == init + [last];
      TierCounting(init, side, t);
      KeepAppend(init, [last], HasCategory(side, t.Name()));
      BumpTier(TierCountsOf(init, side), Category(last, side), t);
    }
  }

  /**
   * The four counters together count exactly the records whose category is a
   * tier name, so a screened-out "N/A" record is in no counter.
   */
  lemma {:induction false} TierTotal(rs: seq<Record>, side: Side)
    ensures TierCountsOf(rs, side).Sum() == |Keep(rs, HasTier(side))|
  {
    if rs != [] {
      var init := rs[..|rs| - 1];
      var last := rs[|rs| - 1];
      assert rs == init + [last];
      TierTotal(init, side);
      KeepAppend(init, [last], HasTier(side));
      BumpTier(TierCountsOf(init, side), Category(last, side), Avoid);
    }
  }

  /** The summed project value of the records `rs`. */
  function ValueTotal(rs: seq<Record>): nat
  {
    if rs == [] then 0
    else ValueTotal(rs[..|rs| - 1]) + StatsValue(rs[|rs| - 1].projectInfo.value)
  }

  /** The summed `result.totalScore` of the records `rs`. */
  function ScoreTotal(rs: seq<Record>): int
  {
    if rs == [] then 0
    else ScoreTotal(rs[..|rs| - 1]) + rs[|rs| - 1].result.totalScore
  }

  /** `Math.round(s / n)`: the quotient rounded to the nearest integer, halves up. */
  function RoundedAverage(s: int, n: nat): int
    requires n > 0
  {
    (2 * s + n) / (2 * n)
  }

  /**
   * The rounded average is the one integer within a half of `s / n`, with a
   * tie going to the larger: `r - 1/2 <= s/n < r + 1/2`.
   */
  lemma RoundedAverageIs(s: int, n: nat, r: int)
    requires n > 0
    ensures RoundedAverage(s, n) == r <==> n * (2 * r - 1) <= 2 * s < n * (2 * r + 1)
  {
    var q := RoundedAverage(s, n);
    var m := (2 * s + n) % (2 * n);
    assert 2 * s + n == (2 * n) * q + m && 0 <= m < 2 * n;
    assert n * (2 * q - 1) == (2 * n) * q - n;
    assert n * (2 * q + 1) == (2 * n) * q + n;
    if r < q {
      MulMonotone(n, 2 * r + 1, 2 * q - 1);
    } else if q < r {
      MulMonotone(n, 2 * q + 1, 2 * r - 1);
    }
  }

  /** Multiplying by a natural keeps the order. */
  lemma MulMonotone(n: nat, a: int, b: int)
    requires a <= b
    ensures n * a <= n * b
  {
    assert n * b - n * a == n * (b - a);
  }

  /** What `getSummaryStats` returns. */
  datatype SummaryStats = SummaryStats(
    total: nat,
    approved: nat,
    declined: nat,
    totalValue: nat,
    avgScore: int,
    clientTiers: TierCounts,
    workTiers: TierCounts,
    decisions: seq<DecisionCount>)

  /** The statistics before any record is counted. */
  function InitialStats(n: nat): SummaryStats
  {
    SummaryStats(n, 0, 0, 0, 0, NoTiers, NoTiers, [])
  }

  /**
   * The statistics of a collection of `total` records once the records `rs`
   * have been counted, before the average is taken.
   */
  function Counted(rs: seq<Record>, total: nat): SummaryStats
  {
    SummaryStats(
      total,
      |Keep(rs, IsApproved)|,
      |Keep(rs, IsDeclined)|,
      ValueTotal(rs),
      0,
      TierCountsOf(rs, Client),
      TierCountsOf(rs, Work),
      DecisionTable(rs))
  }

  /** The statistics of a collection, as the counting loop defines them. */
  function Summary(rs: seq<Record>): SummaryStats
  {
    if rs == [] then InitialStats(0)
    else Counted(rs, |rs|).(avgScore := RoundedAverage(ScoreTotal(rs), |rs|))
  }

  /**
   * The promises of the summary: the total is the number of records, the
   * declined count is the number of 'DECLINE' records, approved and declined
   * add up to the total, the decision table counts each decision exactly and
   * adds up to the total, and each tier counter counts its category.
   */
  lemma SummaryCounts(rs: seq<Record>)
    ensures Summary(rs).total == |rs|
    ensures Summary(rs).declined == |Keep(rs, IsDeclined)|
    ensures Summary(rs).approved + Summary(rs).declined == Summary(rs).total
    ensures Total(Summary(rs).decisions) == Summary(rs).total
    ensures forall d :: Lookup(Summary(rs).decisions, d) == |Keep(rs, HasDecision(d))|
    ensures ProperTable(Summary(rs).decisions)
    ensures forall t: Tier :: Summary(rs).clientTiers.Of(t) == |Keep(rs, HasCategory(Client, t.Name()))|
    ensures forall t: Tier :: Summary(rs).workTiers.Of(t) == |Keep(rs, HasCategory(Work, t.Name()))|
  {
    ApprovedPlusDeclined(rs);
    DecisionTableCounts(rs);
    forall t: Tier
      ensures Summary(rs).clientTiers.Of(t) == |Keep(rs, HasCategory(Client, t.Name()))|
      ensures Summary(rs).workTiers.Of(t) == |Keep(rs, HasCategory(Work, t.Name()))|
    {
      TierCounting(rs, Client, t);
      TierCounting(rs, Work, t);
    }
  }

  /** An empty collection has all-zero statistics, with no division performed. */
  lemma EmptySummary()
    ensures Summary([]) == SummaryStats(0, 0, 0, 0, 0, TierCounts(0, 0, 0, 0), TierCounts(0, 0, 0, 0), [])
  {
  }

  /**
   * A non-empty collection's average is the score total over the count,
   * rounded to the nearest integer with halves going up.
   */
  lemma SummaryAverage(rs: seq<Record>, r: int)
    requires rs != []
    ensures Summary(rs).avgScore == r <==> |rs| * (2 * r - 1) <= 2 * ScoreTotal(rs) < |rs| * (2 * r + 1)
  {
    assert Summary(rs).avgScore == RoundedAverage(ScoreTotal(rs), |rs|);
    RoundedAverageIs(ScoreTotal(rs), |rs|, r);
  }

  /** How the statistics grow when one more record is counted. */
  lemma CountStep(rs: seq<Record>, i: nat, total: nat)
    requires i < |rs|
    ensures var before := Counted(rs[..i], total);
      var r := rs[i];
      Counted(rs[..i + 1], total) == before.(
        approved := before.approved + (if IsApproved(r) then 1 else 0),
        declined := before.declined + (if IsDeclined(r) then 1 else 0),
        decisions := Bump(before.decisions, r.result.decision),
        totalValue := before.totalValue + StatsValue(r.projectInfo.value),
        clientTiers := CountCategory(before.clientTiers, r.result.clientCategory),
        workTiers := CountCategory(before.workTiers, r.result.workCategory))
    ensures ScoreTotal(rs[..i + 1]) == ScoreTotal(rs[..i]) + rs[i].result.totalScore
  {
    assert rs[..i + 1] == rs[..i] + [rs[i]];
    assert rs[..i + 1][..i] == rs[..i];
    KeepAppend(rs[..i], [rs[i]], IsApproved);
    KeepAppend(rs[..i], [rs[i]], IsDeclined);
  }

  // ---------------------------------------------------------------------------
  // The store
  // ---------------------------------------------------------------------------

  /** What parsing an imported file yields. */
  datatype ImportPayload =
    | JsonArray(records: seq<Record>)
    | JsonOther
    | Unparsable

  /** The repository over the storage slot under the key 'wcc_assessments'. */
  class DataManager {
    /** The slot: absent, or holding the stored array. */
    var slot: Option<seq<Record>>

    /** The store reads whatever the slot already holds. */
    constructor(stored: Option<seq<Record>>)
      ensures slot == stored
    {
      slot := stored;
    }

    /** The stored array, or the empty one when the slot is absent. */
    function GetAllAssessments(): (r: seq<Record>)
      reads this
      ensures slot.None? ==> r == []
      ensures slot.Some? ==> r == slot.value
    {
      match slot
      case None => []
      case Some(rs) => rs
    }

    /** The first stored record with the id, if any. */
    function GetAssessment(id: string): (r: Option<Record>)
      reads this
      ensures r.None? <==> forall x :: x in GetAllAssessments() ==> x.id != id
      ensures r.Some? ==> r.value in GetAllAssessments() && r.value.id == id
      ensures r.Some? ==> exists i: nat :: FirstWithId(GetAllAssessments(), id, i) && GetAllAssessments()[i] == r.value
    {
      FindById(GetAllAssessments(), id)
    }

    /**
     * Appends the data, stamped with the id and the timestamp, to the stored
     * array and writes it back; returns the id. With a fresh id, lookup finds
     * the new record.
     */
    method SaveAssessment(data: AssessmentData, id: string, timestamp: int) returns (newId: string)
      modifies this
      ensures slot == Some(old(GetAllAssessments()) + [Stamp(data, id, timestamp)])
      ensures newId == id
      ensures (forall r :: r in old(GetAllAssessments()) ==> r.id != id) ==>
        GetAssessment(id) == Some(Stamp(data, id, timestamp))
    {
      var assessments := GetAllAssessments();
      var newAssessment := Stamp(data, id, timestamp);
      if forall r :: r in assessments ==> r.id != id {
        FindAfterSave(assessments, newAssessment);
      }
      assessments := assessments + [newAssessment];
      slot := Some(assessments);
      newId := newAssessment.id;
    }

    /** Writes back every record except those with the id (an absent slot becomes an empty array). */
    method DeleteAssessment(id: string)
      modifies this
      ensures slot == Some(WithoutId(old(GetAllAssessments()), id))
      ensures GetAssessment(id).None?
    {
      var assessments := GetAllAssessments();
      var filtered := WithoutId(assessments, id);
      DeleteThenFind(assessments, id);
      slot := Some(filtered);
    }

    /** Removes the slot. */
    method ClearAllAssessments()
      modifies this
      ensures slot == None
      ensures GetAllAssessments() == []
    {
      slot := None;
    }

    /**
     * Replaces the collection with a parsed array and reports its length; a
     * non-array or an unparsable file is rejected and the slot left as it was.
     */
    method ImportData(payload: ImportPayload) returns (r: Result<nat>)
      modifies this
      ensures payload.JsonArray? ==> r == Ok(|payload.records|) && slot == Some(payload.records)
      ensures payload.JsonOther? ==> r == Err("Invalid data format") && slot == old(slot)
      ensures payload.Unparsable? ==> r == Err("Error parsing JSON file") && slot == old(slot)
    {
      match payload
      case JsonArray(data) =>
        slot := Some(data);
        r := Ok(|data|);
      case JsonOther =>
        r := Err("Invalid data format");
      case Unparsable =>
        r := Err("Error parsing JSON file");
    }

    /** One pass over the stored records, counting as it goes. */
    method GetSummaryStats() returns (stats: SummaryStats)
      ensures stats == Summary(GetAllAssessments())
    {
      var assessments := GetAllAssessments();
      var n := |assessments|;
      stats := InitialStats(n);
      if n == 0 {
        return;
      }

      var totalScore := 0;
      var i := 0;
      while i < n
        invariant 0 <= i <= n
        invariant stats == Counted(assessments[..i], n)
        invariant totalScore == ScoreTotal(assessments[..i])
      {
        var assessment := assessments[i];
        CountStep(assessments, i, n);

        if assessment.result.decision == "DECLINE" {
          stats := stats.(declined := stats.declined + 1);
        } else {
          stats := stats.(approved := stats.approved + 1);
        }

        var decision := assessment.result.decision;
        stats := stats.(decisions := Bump(stats.decisions, decision));

        stats := stats.(totalValue := stats.totalValue + StatsValue(assessment.projectInfo.value));

        totalScore := totalScore + assessment.result.totalScore;

        if assessment.result.clientCategory != "" {
          stats := stats.(clientTiers := stats.clientTiers.Bump(assessment.result.clientCategory));
        }
        if assessment.result.workCategory != "" {
          stats := stats.(workTiers := stats.workTiers.Bump(assessment.result.workCategory));
        }
        i := i + 1;
      }
      assert assessments[..n] == assessments;

      stats := stats.(avgScore := RoundedAverage(totalScore, n));
    }
  }
}
