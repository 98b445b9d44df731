/**
 * The derived statistics of the data layer (statistics.ts): the seeded
 * statistics record, the KYC quality score, the risk level and the
 * record that combines them.
 */
module Statistics {
  import opened Types
  import opened ArrayOps
  import opened Issues

  /** The stored statistics: quality 80, corroboration 78, risk Low. */
  function SeedStatistics(): Statistics {
    Statistics(kycQuality := 80, corroboration := 78, risk := Low)
  }

  /** The corroboration figure, a constant in the source. */
  const Corroboration: int := 78

  /** `issue => issue.severity === severity && issue.state === 'open'`. */
  function OpenWithSeverity(severity: Level): Issue -> bool {
    (i: Issue) => i.severity == severity && i.state == Open
  }

  /** `issues.filter(issue => issue.state === state).length`. */
  function CountInState(issues: seq<Issue>, state: IssueState): nat {
    |Filter(issues, InState(state))|
  }

  /** The number of open issues of the given severity. */
  function CountOpen(issues: seq<Issue>, severity: Level): nat {
    |Filter(issues, OpenWithSeverity(severity))|
  }

  /** Every issue is in exactly one of the three states. */
  lemma {:induction false} StatesPartition(issues: seq<Issue>)
    ensures CountInState(issues, Open) + CountInState(issues, Solved) + CountInState(issues, Dismissed) == |issues|
  {
    if issues != [] {
      StatesPartition(issues[1..]);
      assert issues == [issues[0]] + issues[1..];
      FilterCons(issues[0], issues[1..], InState(Open));
      FilterCons(issues[0], issues[1..], InState(Solved));
      FilterCons(issues[0], issues[1..], InState(Dismissed));
    }
  }

  /** An open issue of some severity is an open issue. */
  lemma CountOpenAtMostOpen(issues: seq<Issue>, severity: Level)
    ensures CountOpen(issues, severity) <= CountInState(issues, Open)
  {
    FilterImplied(issues, OpenWithSeverity(severity), InState(Open));
  }

  /**
   * `Math.round(n / d)` for a positive `d`: the integer nearest to the
   * ratio, halves rounded up.
   */
  function RoundRatio(n: int, d: int): (r: int)
    requires d > 0
    ensures 2 * r * d <= 2 * n + d < 2 * (r + 1) * d
  {
    (2 * n + d) / (2 * d)
  }

  /** `Math.max(0, Math.min(100, n))`. */
  function Clamp(n: int): (r: int)
    ensures 0 <= r <= 100
    ensures 0 <= n <= 100 ==> r == n
    ensures n < 0 ==> r == 0
    ensures n > 100 ==> r == 100
  {
    if n > 100 then 100 else if n < 0 then 0 else n
  }

  /**
   * `calculateKycQuality`: the share of resolved issues as a percentage,
   * less 5 for every open High and 2 for every open Medium issue,
   * rounded and clamped to 0..100; an empty list scores 100.
   */
  function CalculateKycQuality(issues: seq<Issue>): (r: int)
    ensures 0 <= r <= 100
    ensures |issues| == 0 ==> r == 100
  {
    if |issues| == 0 then 100
    else
      var open := CountInState(issues, Open);
      var solved := CountInState(issues, Solved);
      var dismissed := CountInState(issues, Dismissed);
      StatesPartition(issues);
      QualityScore(solved + dismissed, open + solved + dismissed, CountOpen(issues, High), CountOpen(issues, Medium))
  }

  /**
   * The score of `resolved` resolved issues out of `total`, with `high`
   * open High and `medium` open Medium ones: the resolved percentage
   * `resolved / total * 100` less the penalties, rounded, as exact
   * rational arithmetic.
   */
  function QualityScore(resolved: nat, total: nat, high: nat, medium: nat): (r: int)
    requires total > 0
    ensures 0 <= r <= 100
  {
    Clamp(RoundRatio(100 * resolved - (5 * high + 2 * medium) * total, total))
  }

  /**
   * `calculateRiskLevel`: High with two or more open High issues, Medium
   * with exactly one open High or three or more open Medium issues, Low
   * otherwise and for an empty list.
   */
  function CalculateRiskLevel(issues: seq<Issue>): (r: Level)
    ensures |issues| == 0 ==> r == Low
    ensures r == High <==> CountOpen(issues, High) >= 2
    ensures r == Medium <==> CountOpen(issues, High) == 1 || (CountOpen(issues, High) == 0 && CountOpen(issues, Medium) >= 3)
    ensures r == Low <==> CountOpen(issues, High) == 0 && CountOpen(issues, Medium) < 3
  {
    if |issues| == 0 then Low
    else
      var high := CountOpen(issues, High);
      var medium := CountOpen(issues, Medium);
      if high >= 2 then High
      else if high == 1 || medium >= 3 then Medium
      else Low
  }

  /** `updateStatistics`: the two calculators and the constant corroboration. */
  function UpdateStatistics(issues: seq<Issue>): (r: Statistics)
    ensures r.kycQuality == CalculateKycQuality(issues)
    ensures r.risk == CalculateRiskLevel(issues)
    ensures r.corroboration == 78
    ensures 0 <= r.kycQuality <= 100
  {
    Statistics(CalculateKycQuality(issues), Corroboration, CalculateRiskLevel(issues))
  }

  /** Integer division has one answer: the `q` with `n == q * d + m` and `0 <= m < d`. */
  lemma DivUnique(n: int, d: int, q: int, m: int)
    requires d > 0
    requires 0 <= m < d
    requires n == q * d + m
    ensures n / d == q
  {
    var q0, m0 := n / d, n % d;
    assert n == q0 * d + m0 && 0 <= m0 < d;
    if q0 < q {
      assert (q - q0) * d == m0 - m;
      ProductAtLeast(q - q0, d);
    } else if q < q0 {
      assert (q0 - q) * d == m - m0;
      ProductAtLeast(q0 - q, d);
    }
  }

  lemma ProductAtLeast(k: int, d: int)
    requires k >= 1 && d > 0
    ensures k * d >= d
  {
    assert k * d == (k - 1) * d + d;
  }

  /** Rounding a ratio that is an integer gives that integer. */
  lemma RoundWhole(k: int, d: int)
    requires d > 0
    ensures RoundRatio(k * d, d) == k
  {
    assert 2 * (k * d) + d == k * (2 * d) + d;
    DivUnique(2 * (k * d) + d, 2 * d, k, d);
  }

  /** A non-empty list scores what its counts score. */
  lemma KycQualityOfCounts(issues: seq<Issue>)
    requires |issues| > 0
    ensures CalculateKycQuality(issues)
         == QualityScore(CountInState(issues, Solved) + CountInState(issues, Dismissed), |issues|,
                         CountOpen(issues, High), CountOpen(issues, Medium))
  {
    StatesPartition(issues);
  }

  /** All resolved: the score is 100. */
  lemma QualityScoreAllResolved(total: nat)
    requires total > 0
    ensures QualityScore(total, total, 0, 0) == 100
  {
    RoundWhole(100, total);
  }

  /** With no open issue left, the score is 100 whatever the severities. */
  lemma AllResolvedScoresHundred(issues: seq<Issue>)
    requires forall i :: 0 <= i < |issues| ==> issues[i].state != Open
    ensures CalculateKycQuality(issues) == 100
  {
    if |issues| > 0 {
      FilterAllOrNone(issues, InState(Open));
      CountOpenAtMostOpen(issues, High);
      CountOpenAtMostOpen(issues, Medium);
      StatesPartition(issues);
      QualityScoreAllResolved(|issues|);
    }
  }

  /** The order of the issues changes none of the counts the score is built from. */
  lemma KycCountsPermutationInvariant(a: seq<Issue>, b: seq<Issue>)
    requires multiset(a) == multiset(b)
    ensures CountInState(a, Solved) + CountInState(a, Dismissed) == CountInState(b, Solved) + CountInState(b, Dismissed)
    ensures CountInState(a, Open) == CountInState(b, Open)
    ensures CountOpen(a, High) == CountOpen(b, High)
    ensures CountOpen(a, Medium) == CountOpen(b, Medium)
  {
    FilterCountPermutation(a, b, InState(Open));
    FilterCountPermutation(a, b, InState(Solved));
    FilterCountPermutation(a, b, InState(Dismissed));
    FilterCountPermutation(a, b, OpenWithSeverity(High));
    FilterCountPermutation(a, b, OpenWithSeverity(Medium));
  }

  /** The score does not depend on the order of the issues. */
  lemma KycQualityPermutationInvariant(a: seq<Issue>, b: seq<Issue>)
    requires multiset(a) == multiset(b)
    ensures CalculateKycQuality(a) == CalculateKycQuality(b)
  {
    assert |a| == |multiset(a)| == |multiset(b)| == |b|;
    KycCountsPermutationInvariant(a, b);
  }

  /** The risk level does not depend on the order of the issues. */
  lemma RiskPermutationInvariant(a: seq<Issue>, b: seq<Issue>)
    requires multiset(a) == multiset(b)
    ensures CalculateRiskLevel(a) == CalculateRiskLevel(b)
  {
    assert |a| == |multiset(a)| == |multiset(b)| == |b|;
    FilterCountPermutation(a, b, OpenWithSeverity(High));
    FilterCountPermutation(a, b, OpenWithSeverity(Medium));
  }

  /** Solved and dismissed issues never affect the risk level: it is that of the open issues alone. */
  lemma RiskIgnoresResolved(issues: seq<Issue>)
    ensures CalculateRiskLevel(issues) == CalculateRiskLevel(Filter(issues, InState(Open)))
  {
    var open := Filter(issues, InState(Open));
    FilterOfFilter(issues, InState(Open), OpenWithSeverity(High));
    FilterOfFilter(issues, InState(Open), OpenWithSeverity(Medium));
    if |open| == 0 {
      FilterImplied(issues, OpenWithSeverity(High), InState(Open));
      FilterImplied(issues, OpenWithSeverity(Medium), InState(Open));
    }
  }

  /** The order High > Medium > Low. */
  function LevelRank(l: Level): int {
    match l
    case Low => 0
    case Medium => 1
    case High => 2
  }

  /** Adding an issue never lowers the risk level. */
  lemma RiskMonotone(issues: seq<Issue>, x: Issue)
    ensures LevelRank(CalculateRiskLevel(issues)) <= LevelRank(CalculateRiskLevel(issues + [x]))
  {
    FilterConcat(issues, [x], OpenWithSeverity(High));
    FilterConcat(issues, [x], OpenWithSeverity(Medium));
  }

  /** The number of issues of the seed that satisfy `p`, given its count in each block of five. */
  lemma SeedCount(text: int -> IssueText, p: Issue -> bool, sow: nat, ubo: nat, risk: nat, corr: nat)
    requires Indicator(p(SowIssues(text)[0])) + Indicator(p(SowIssues(text)[1])) + Indicator(p(SowIssues(text)[2]))
           + Indicator(p(SowIssues(text)[3])) + Indicator(p(SowIssues(text)[4])) == sow
    requires Indicator(p(UboIssues(text)[0])) + Indicator(p(UboIssues(text)[1])) + Indicator(p(UboIssues(text)[2]))
           + Indicator(p(UboIssues(text)[3])) + Indicator(p(UboIssues(text)[4])) == ubo
    requires Indicator(p(RiskIssues(text)[0])) + Indicator(p(RiskIssues(text)[1])) + Indicator(p(RiskIssues(text)[2]))
           + Indicator(p(RiskIssues(text)[3])) + Indicator(p(RiskIssues(text)[4])) == risk
    requires Indicator(p(CorrIssues(text)[0])) + Indicator(p(CorrIssues(text)[1])) + Indicator(p(CorrIssues(text)[2]))
           + Indicator(p(CorrIssues(text)[3])) + Indicator(p(CorrIssues(text)[4])) == corr
    ensures |Filter(SeedIssuesWith(text), p)| == sow + ubo + risk + corr
  {
    SeedFilterCount(text, p);
    FilterCountFive(SowIssues(text), p);
    FilterCountFive(UboIssues(text), p);
    FilterCountFive(RiskIssues(text), p);
    FilterCountFive(CorrIssues(text), p);
  }

  /** The seed has 7 solved, 4 dismissed, 2 open High and 6 open Medium issues. */
  lemma SeedSolved(text: int -> IssueText)
    ensures CountInState(SeedIssuesWith(text), Solved) == 7
  {
    SeedCount(text, InState(Solved), 1, 2, 2, 2);
  }

  lemma SeedDismissed(text: int -> IssueText)
    ensures CountInState(SeedIssuesWith(text), Dismissed) == 4
  {
    SeedCount(text, InState(Dismissed), 1, 1, 1, 1);
  }

  lemma SeedOpenHigh(text: int -> IssueText)
    ensures CountOpen(SeedIssuesWith(text), High) == 2
  {
    SeedCount(text, OpenWithSeverity(High), 0, 0, 2, 0);
  }

  lemma SeedOpenMedium(text: int -> IssueText)
    ensures CountOpen(SeedIssuesWith(text), Medium) == 6
  {
    SeedCount(text, OpenWithSeverity(Medium), 2, 2, 0, 2);
  }

  /**
   * Recomputed over the seeded issues, the statistics are quality 33 and
   * risk High, while the stored record says 80 and Low.
   */
  lemma SeedStatisticsStale(text: int -> IssueText)
    ensures UpdateStatistics(SeedIssuesWith(text)) == Statistics(33, 78, High)
    ensures UpdateStatistics(SeedIssuesWith(text)) != SeedStatistics()
  {
    var s := SeedIssuesWith(text);
    SeedDistinctIds(text);
    SeedSolved(text);
    SeedDismissed(text);
    SeedOpenHigh(text);
    SeedOpenMedium(text);
    StatesPartition(s);
    KycQualityOfCounts(s);
    assert QualityScore(11, 20, 2, 6) == 33;
  }
}
