/**
 * The issue list of the repository (issues.ts): the twenty seeded
 * issues and the read-only queries over a list of issues. The
 * operations that change the stored list are methods of
 * `Repository.Store`.
 */
module Issues {
  import opened Wrappers
  import opened Types
  import opened ArrayOps

  /** The seeded issues: SOW, UBO, RISK and CORR, five each, in that order. */
  function SeedIssues(): seq<Issue> {
    SeedIssuesWith(SeedText)
  }

  /** The seeded issues with the free-text fields taken from `text`, by issue id. */
  function SeedIssuesWith(text: int -> IssueText): seq<Issue> {
    SowIssues(text) + UboIssues(text) + RiskIssues(text) + CorrIssues(text)
  }

  /** The free-text fields of an issue. */
  datatype IssueText = IssueText(
    title: string,
    description: Option<string>,
    requirements: seq<string>,
    considerations: seq<string>,
    hit: Option<string>)

  /** The seeded issue with id `id`, its texts `t` and the other fields given. */
  function Seeded(t: IssueText, id: int, severity: Level, status: Status, companyId: int, materiality: int,
                  category: CategoryId, badge: Option<Badge>, state: IssueState): (r: Issue)
    ensures r.id == id && r.category == category && r.state == state && r.severity == severity
    ensures r.title == t.title && r.requirements == t.requirements
  {
    Issue(id, t.title, t.description, severity, status, companyId, materiality,
          t.requirements, t.considerations, category, badge, t.hit, state)
  }

  function SowIssues(text: int -> IssueText): seq<Issue> {
    [
      Seeded(text(1), id := 1, severity := Medium, status := Warning, companyId := 1,
             materiality := 80, category := SOW, badge := Some(TextBadge("2")), state := Open),
      Seeded(text(2), id := 2, severity := High, status := Warning, companyId := 1,
             materiality := 75, category := SOW, badge := None, state := Solved),
      Seeded(text(3), id := 3, severity := Medium, status := Warning, companyId := 1,
             materiality := 70, category := SOW, badge := None, state := Dismissed),
      Seeded(text(13), id := 13, severity := Medium, status := Warning, companyId := 1,
             materiality := 65, category := SOW, badge := None, state := Open),
      Seeded(text(14), id := 14, severity := Low, status := Success, companyId := 1,
             materiality := 60, category := SOW, badge := None, state := Open)
    ]
  }

  function UboIssues(text: int -> IssueText): seq<Issue> {
    [
      Seeded(text(4), id := 4, severity := Medium, status := Success, companyId := 1,
             materiality := 50, category := UBO, badge := None, state := Open),
      Seeded(text(5), id := 5, severity := Low, status := Success, companyId := 1,
             materiality := 60, category := UBO, badge := None, state := Solved),
      Seeded(text(6), id := 6, severity := Low, status := Success, companyId := 1,
             materiality := 55, category := UBO, badge := None, state := Dismissed),
      Seeded(text(15), id := 15, severity := Medium, status := Warning, companyId := 1,
             materiality := 70, category := UBO, badge := None, state := Open),
      Seeded(text(16), id := 16, severity := Low, status := Success, companyId := 1,
             materiality := 55, category := UBO, badge := None, state := Solved)
    ]
  }

  function RiskIssues(text: int -> IssueText): seq<Issue> {
    [
      Seeded(text(7), id := 7, severity := High, status := Warning, companyId := 1,
             materiality := 85, category := RISK, badge := Some(TextBadge("3")), state := Open),
      Seeded(text(8), id := 8, severity := Medium, status := Warning, companyId := 1,
             materiality := 75, category := RISK, badge := None, state := Solved),
      Seeded(text(9), id := 9, severity := Medium, status := Warning, companyId := 1,
             materiality := 70, category := RISK, badge := None, state := Dismissed),
      Seeded(text(17), id := 17, severity := High, status := Warning, companyId := 1,
             materiality := 80, category := RISK, badge := None, state := Open),
      Seeded(text(18), id := 18, severity := Medium, status := Success, companyId := 1,
             materiality := 65, category := RISK, badge := None, state := Solved)
    ]
  }

  function CorrIssues(text: int -> IssueText): seq<Issue> {
    [
      Seeded(text(10), id := 10, severity := Medium, status := Success, companyId := 1,
             materiality := 65, category := CORR, badge := Some(TextBadge("1")), state := Open),
      Seeded(text(11), id := 11, severity := Low, status := Success, companyId := 1,
             materiality := 60, category := CORR, badge := None, state := Solved),
      Seeded(text(12), id := 12, severity := Low, status := Success, companyId := 1,
             materiality := 55, category := CORR, badge := None, state := Dismissed),
      Seeded(text(19), id := 19, severity := Medium, status := Warning, companyId := 1,
             materiality := 70, category := CORR, badge := None, state := Open),
      Seeded(text(20), id := 20, severity := Low, status := Success, companyId := 1,
             materiality := 60, category := CORR, badge := None, state := Solved)
    ]
  }

  /** The texts of the seeded issues, by id. */
  function SeedText(id: int): IssueText {
    match id
    case 1 => IssueText(
      title := "Missing Ownership Documentation",
      description := Some("Legal ownership documentation is incomplete or missing"),
      requirements := [
        "Legal ownership structure documentation",
        "Shareholder information and percentages",
        "Corporate governance information"
      ],
      considerations := [
        "Verification of ownership claims against public records",
        "Analysis of beneficial ownership structure",
        "Identification of any ownership changes in the past 3 years"
      ],
      hit := None)
    case 2 => IssueText(
      title := "Incomplete Employment Records",
      description := Some("Employment details and compensation information are incomplete"),
      requirements := [
        "Employer name for any additional employment if available",
        "Any other roles held during this employment, if applicable",
        "Annual bonus information",
        "Stock option details"
      ],
      considerations := [
        "Specification of whether there were any other roles held during this employment",
        "Detail of any additional compensation beyond base salary",
        "Clarification on employment history gaps if any exist"
      ],
      hit := None)
    case 3 => IssueText(
      title := "Financial Benchmark Discrepancy",
      description := Some("Financial performance shows significant deviation from industry benchmarks"),
      requirements := [
        "Financial statements for the last fiscal year",
        "Revenue growth rate comparison to industry benchmark",
        "Profit margin analysis against competitors",
        "Debt-to-equity ratio evaluation"
      ],
      considerations := [
        "Assessment of financial health compared to industry standards",
        "Identification of any unusual financial patterns",
        "Evaluation of sustainable growth indicators"
      ],
      hit := None)
    case 13 => IssueText(
      title := "Unclear Organizational Chart",
      description := Some("Company structure and reporting lines are not clearly defined"),
      requirements := [
        "Organization chart with reporting lines",
        "Parent-subsidiary relationships documentation",
        "Board of directors composition",
        "Key management personnel identification"
      ],
      considerations := [
        "Verification of corporate structure against official records",
        "Assessment of management control effectiveness",
        "Identification of any recent corporate restructuring events"
      ],
      hit := None)
    case 14 => IssueText(
      title := "Inconsistent Business Activities",
      description := Some("Declared business activities do not match operational evidence"),
      requirements := [
        "Description of primary business activities",
        "Product and service portfolio",
        "Key markets and geographic presence",
        "Major customers and suppliers information"
      ],
      considerations := [
        "Alignment of activities with stated business purpose",
        "Review of operational risks in key markets",
        "Assessment of supplier and customer concentration risks"
      ],
      hit := None)
    case 4 => IssueText(
      title := "Missing UBO Identification",
      description := Some("Ultimate beneficial owner information is incomplete"),
      requirements := [
        "Full legal name",
        "Date of birth",
        "Nationality",
        "Current residential address",
        "Government-issued identification"
      ],
      considerations := [
        "Verification of identity against official documents",
        "Cross-check of personal information with public records",
        "Confirmation of current address validity"
      ],
      hit := None)
    case 5 => IssueText(
      title := "Asset Verification Required",
      description := Some("Declared assets require additional verification"),
      requirements := [
        "Details of shareholdings in companies",
        "Real estate ownership information",
        "Investment portfolio summary",
        "Other significant assets"
      ],
      considerations := [
        "Assessment of asset diversification",
        "Verification of declared assets against public records",
        "Analysis of any concentrated risk in asset holdings"
      ],
      hit := None)
    case 6 => IssueText(
      title := "Account Purpose Unclear",
      description := Some("Purpose of accounts is insufficiently explained"),
      requirements := [
        "Primary purpose of the account",
        "Expected transaction types and volumes",
        "Source of funds documentation",
        "Expected account activity patterns"
      ],
      considerations := [
        "Alignment of stated purpose with business activities",
        "Reasonableness of expected transaction patterns",
        "Verification of source of funds"
      ],
      hit := None)
    case 15 => IssueText(
      title := "Wealth Source Documentation Missing",
      description := Some("Insufficient documentation on source of wealth"),
      requirements := [
        "Income tax returns for past 3 years",
        "Documentation of business income and investments",
        "Explanation of significant assets acquisition",
        "Banking statements supporting wealth sources"
      ],
      considerations := [
        "Consistency of wealth sources with disclosed activities",
        "Verification of major financial transactions",
        "Assessment of wealth accumulation timeline"
      ],
      hit := None)
    case 16 => IssueText(
      title := "UBO Relationship Discrepancy",
      description := Some("Relationships between UBOs contain inconsistencies"),
      requirements := [
        "Family relationship diagrams if applicable",
        "Business relationship documentation",
        "Historical association evidence",
        "Control structure clarification"
      ],
      considerations := [
        "Assessment of relationship impact on business control",
        "Verification of disclosed associations against public records",
        "Identification of any undisclosed material relationships"
      ],
      hit := None)
    case 7 => IssueText(
      title := "Negative Screening Hit",
      description := Some("Negative screening has produced significant matches"),
      requirements := [
        "Screening against global sanctions lists",
        "Politically exposed person (PEP) screening",
        "Adverse media screening",
        "Industry risk assessment"
      ],
      considerations := [
        "Evaluation of any negative findings against business context",
        "Assessment of risk mitigation measures in place",
        "Determination of risk level based on findings"
      ],
      hit := None)
    case 8 => IssueText(
      title := "High-Risk Country Operations",
      description := Some("Business operations in countries with elevated risk profiles"),
      requirements := [
        "Identification of all business activities in sensitive countries",
        "Nature and extent of operations in high-risk jurisdictions",
        "Compliance with applicable sanctions and restrictions",
        "Risk controls for sensitive country operations"
      ],
      considerations := [
        "Evaluation of exposure to geopolitical and compliance risks",
        "Assessment of controls relative to identified country risks",
        "Analysis of business necessity for sensitive country operations"
      ],
      hit := Some("Zhang Yunfeng Hit"))
    case 9 => IssueText(
      title := "Adverse Media Mentions",
      description := Some("Multiple negative media references require evaluation"),
      requirements := [
        "Comprehensive media search results",
        "Analysis of negative media themes and severity",
        "Assessment of reputational impact",
        "Company responses to negative coverage"
      ],
      considerations := [
        "Credibility and reach of media sources reporting negative information",
        "Recency and relevance of negative coverage",
        "Effectiveness of company's response to allegations"
      ],
      hit := Some("Chen Jiaqing Hit"))
    case 17 => IssueText(
      title := "Regulatory Compliance Gaps",
      description := Some("Identified gaps in regulatory compliance documentation"),
      requirements := [
        "Regulatory compliance audit results",
        "Past violations and remediation actions",
        "Current compliance program description",
        "Pending regulatory investigations if any"
      ],
      considerations := [
        "Assessment of compliance program effectiveness",
        "Analysis of regulatory risk exposure",
        "Evaluation of remediation actions for past issues"
      ],
      hit := None)
    case 18 => IssueText(
      title := "Operational Risk Vulnerabilities",
      description := Some("Several operational vulnerabilities require mitigation"),
      requirements := [
        "Operational risk management framework",
        "Business continuity planning documentation",
        "Key operational vulnerabilities assessment",
        "Risk mitigation strategies"
      ],
      considerations := [
        "Adequacy of operational risk controls",
        "Industry-specific operational risk factors",
        "Historical operational incidents and responses"
      ],
      hit := None)
    case 10 => IssueText(
      title := "PEP Status Confirmation Required",
      description := Some("Politically exposed person status needs verification"),
      requirements := [
        "Politically exposed person status verification",
        "Anti-money laundering screening results",
        "Enhanced due diligence documentation if applicable",
        "Ongoing monitoring protocols"
      ],
      considerations := [
        "Evaluation of PEP risk level if identified",
        "Assessment of AML controls adequacy",
        "Analysis of transaction monitoring procedures"
      ],
      hit := None)
    case 11 => IssueText(
      title := "Sensitive Industry Exposure",
      description := Some("Business has exposure to industries requiring enhanced due diligence"),
      requirements := [
        "Identification of all business activities in sensitive industries",
        "Regulatory compliance status for industry-specific requirements",
        "Risk controls for sensitive industry operations",
        "Industry reputation assessment"
      ],
      considerations := [
        "Evaluation of exposure to industry-specific risks",
        "Assessment of controls relative to identified industry risks",
        "Analysis of business operations against industry best practices"
      ],
      hit := None)
    case 12 => IssueText(
      title := "Related Company Risk Flags",
      description := Some("Associated companies have risk indicators requiring review"),
      requirements := [
        "Identification of all related companies and entities",
        "Screening results for related companies",
        "Assessment of impact of any negative findings",
        "Verification of separation between entities if applicable"
      ],
      considerations := [
        "Determination of materiality of related entity findings",
        "Evaluation of governance connections between entities",
        "Assessment of contagion risk from related entity issues"
      ],
      hit := None)
    case 19 => IssueText(
      title := "Transaction Monitoring Alert",
      description := Some("Transaction patterns require enhanced scrutiny"),
      requirements := [
        "Transaction monitoring system description",
        "Alert handling procedures",
        "Past suspicious activity reports",
        "Recent system effectiveness testing results"
      ],
      considerations := [
        "Adequacy of monitoring thresholds and scenarios",
        "Timeliness of alert investigation",
        "Quality of suspicious activity reporting"
      ],
      hit := None)
    case 20 => IssueText(
      title := "Governance Documentation Gaps",
      description := Some("Corporate governance documentation is incomplete"),
      requirements := [
        "Board composition and independence analysis",
        "Corporate governance policies documentation",
        "Decision-making process description",
        "Stakeholder communication protocols"
      ],
      considerations := [
        "Alignment with corporate governance best practices",
        "Effectiveness of board oversight",
        "Transparency in stakeholder communications"
      ],
      hit := None)
    case _ => IssueText("", None, [], [], None)
  }

  ghost predicate DistinctIds(issues: seq<Issue>) {
    forall i, j :: 0 <= i < j < |issues| ==> issues[i].id != issues[j].id
  }

  /** `getIssueById`: the first issue with this id, or nothing. */
  function GetIssueById(issues: seq<Issue>, id: int): (r: Option<Issue>)
    ensures r.None? <==> forall k :: 0 <= k < |issues| ==> issues[k].id != id
    ensures r.Some? ==> exists k :: 0 <= k < |issues| && issues[k] == r.value && r.value.id == id
                                    && forall j :: 0 <= j < k ==> issues[j].id != id
  {
    Find(issues, HasId(id))
  }

  /** `issues.findIndex(issue => issue.id === id)`. */
  function IndexOfId(issues: seq<Issue>, id: int): (r: int)
    ensures -1 <= r < |issues|
    ensures r == -1 <==> forall k :: 0 <= k < |issues| ==> issues[k].id != id
    ensures 0 <= r ==> issues[r].id == id && forall k :: 0 <= k < r ==> issues[k].id != id
  {
    FindIndex(issues, HasId(id))
  }

  /** `issues.filter(issue => issue.category === category).length`. */
  function CountInCategory(issues: seq<Issue>, category: string): nat {
    |Filter(issues, InCategory(category))|
  }

  /** `getIssuesByCategory`: exactly the issues of that category, in stored order. */
  function GetIssuesByCategory(issues: seq<Issue>, category: string): (r: seq<Issue>)
    ensures forall x :: x in r <==> x in issues && CategoryCode(x.category) == category
    ensures forall x :: x in issues ==>
      multiset(r)[x] == if CategoryCode(x.category) == category then multiset(issues)[x] else 0
    ensures IsSubsequence(r, issues)
  {
    FilterMultiset(issues, InCategory(category));
    FilterSubsequence(issues, InCategory(category));
    Filter(issues, InCategory(category))
  }

  /** `getIssuesByCompany`: exactly the issues of that company, in stored order. */
  function GetIssuesByCompany(issues: seq<Issue>, companyId: int): (r: seq<Issue>)
    ensures forall x :: x in r <==> x in issues && x.companyId == companyId
    ensures forall x :: x in issues ==>
      multiset(r)[x] == if x.companyId == companyId then multiset(issues)[x] else 0
    ensures IsSubsequence(r, issues)
  {
    FilterMultiset(issues, OfCompany(companyId));
    FilterSubsequence(issues, OfCompany(companyId));
    Filter(issues, OfCompany(companyId))
  }

  /** `getIssuesByState`: exactly the issues in that state, in stored order. */
  function GetIssuesByState(issues: seq<Issue>, state: IssueState): (r: seq<Issue>)
    ensures forall x :: x in r <==> x in issues && x.state == state
    ensures forall x :: x in issues ==>
      multiset(r)[x] == if x.state == state then multiset(issues)[x] else 0
    ensures IsSubsequence(r, issues)
  {
    FilterMultiset(issues, InState(state));
    FilterSubsequence(issues, InState(state));
    Filter(issues, InState(state))
  }

  /** `Math.max(...issues.map(i => i.id)) + 1`: larger than every id in use. */
  function NextId(issues: seq<Issue>): (r: int)
    requires |issues| > 0
    ensures forall k :: 0 <= k < |issues| ==> issues[k].id < r
    ensures exists k :: 0 <= k < |issues| && issues[k].id == r - 1
  {
    var ids := Map(issues, IdOf);
    assert forall k :: 0 <= k < |issues| ==> issues[k].id in ids;
    var m := Max(ids);
    assert exists k :: 0 <= k < |ids| && ids[k] == m;
    m + 1
  }

  /** Every id in `issues` is one of `ids`. */
  ghost predicate IdsWithin(issues: seq<Issue>, ids: set<int>) {
    forall i :: 0 <= i < |issues| ==> issues[i].id in ids
  }

  /** One block of five seeded issues: distinct ids drawn from `ids`, every issue in category `c`. */
  ghost predicate SeedBlock(block: seq<Issue>, c: CategoryId, ids: set<int>) {
    && |block| == 5
    && DistinctIds(block)
    && IdsWithin(block, ids)
    && forall i :: 0 <= i < |block| ==> block[i].category == c
  }

  lemma SowBlock(text: int -> IssueText) ensures SeedBlock(SowIssues(text), SOW, {1, 2, 3, 13, 14}) { }
  lemma UboBlock(text: int -> IssueText) ensures SeedBlock(UboIssues(text), UBO, {4, 5, 6, 15, 16}) { }
  lemma RiskBlock(text: int -> IssueText) ensures SeedBlock(RiskIssues(text), RISK, {7, 8, 9, 17, 18}) { }
  lemma CorrBlock(text: int -> IssueText) ensures SeedBlock(CorrIssues(text), CORR, {10, 11, 12, 19, 20}) { }

  /** A block contributes all of itself to the count of its own category and nothing to the others. */
  lemma BlockCount(block: seq<Issue>, c: CategoryId, ids: set<int>, d: CategoryId)
    requires SeedBlock(block, c, ids)
    ensures CountInCategory(block, CategoryCode(d)) == if c == d then 5 else 0
  {
    FilterAllOrNone(block, InCategory(CategoryCode(d)));
    forall i | 0 <= i < |block| {
      CategoryCodeInjective(block[i].category, d);
    }
  }

  /** Two lists with distinct ids drawn from disjoint sets join into one with distinct ids. */
  lemma ConcatDistinct(a: seq<Issue>, b: seq<Issue>, ida: set<int>, idb: set<int>)
    requires DistinctIds(a) && IdsWithin(a, ida)
    requires DistinctIds(b) && IdsWithin(b, idb)
    requires ida !! idb
    ensures DistinctIds(a + b) && IdsWithin(a + b, ida + idb)
  {
    var s := a + b;
    forall i, j | 0 <= i < j < |s| ensures s[i].id != s[j].id {
      if j < |a| {
        assert s[i] == a[i] && s[j] == a[j];
      } else if i >= |a| {
        assert s[i] == b[i - |a|] && s[j] == b[j - |a|];
      } else {
        assert s[i] == a[i] && s[j] == b[j - |a|];
      }
    }
  }

  /** The seed holds twenty issues with the distinct ids 1..20, whatever their texts are. */
  lemma SeedDistinctIds(text: int -> IssueText)
    ensures |SeedIssuesWith(text)| == 20
    ensures DistinctIds(SeedIssuesWith(text))
    ensures forall k :: 0 <= k < |SeedIssuesWith(text)| ==> 1 <= SeedIssuesWith(text)[k].id <= 20
  {
    var sow, ubo, risk, corr := SowIssues(text), UboIssues(text), RiskIssues(text), CorrIssues(text);
    var a, b, c, d := {1, 2, 3, 13, 14}, {4, 5, 6, 15, 16}, {7, 8, 9, 17, 18}, {10, 11, 12, 19, 20};
    SowBlock(text);
    UboBlock(text);
    RiskBlock(text);
    CorrBlock(text);
    ConcatDistinct(sow, ubo, a, b);
    ConcatDistinct(sow + ubo, risk, a + b, c);
    ConcatDistinct(sow + ubo + risk, corr, a + b + c, d);
    assert forall x :: x in a + b + c + d ==> 1 <= x <= 20;
  }

  /** Five seeded issues in each category, whatever their texts are. */
  lemma SeedCategoryCounts(text: int -> IssueText, d: CategoryId)
    ensures CountInCategory(SeedIssuesWith(text), CategoryCode(d)) == 5
  {
    var sow, ubo, risk, corr := SowIssues(text), UboIssues(text), RiskIssues(text), CorrIssues(text);
    var p := InCategory(CategoryCode(d));
    SowBlock(text);
    UboBlock(text);
    RiskBlock(text);
    CorrBlock(text);
    BlockCount(sow, SOW, {1, 2, 3, 13, 14}, d);
    BlockCount(ubo, UBO, {4, 5, 6, 15, 16}, d);
    BlockCount(risk, RISK, {7, 8, 9, 17, 18}, d);
    BlockCount(corr, CORR, {10, 11, 12, 19, 20}, d);
    FilterConcat(sow + ubo + risk, corr, p);
    FilterConcat(sow + ubo, risk, p);
    FilterConcat(sow, ubo, p);
  }

  /** A filter over the seed counts block by block. */
  lemma SeedFilterCount(text: int -> IssueText, p: Issue -> bool)
    ensures |Filter(SeedIssuesWith(text), p)|
         == |Filter(SowIssues(text), p)| + |Filter(UboIssues(text), p)|
          + |Filter(RiskIssues(text), p)| + |Filter(CorrIssues(text), p)|
  {
    var sow, ubo, risk, corr := SowIssues(text), UboIssues(text), RiskIssues(text), CorrIssues(text);
    FilterConcat(sow + ubo + risk, corr, p);
    FilterConcat(sow + ubo, risk, p);
    FilterConcat(sow, ubo, p);
  }

  /** Appending an issue adds one to the count of its own category and to no other. */
  lemma AppendCategoryCount(issues: seq<Issue>, x: Issue, category: string)
    ensures CountInCategory(issues + [x], category)
         == CountInCategory(issues, category) + (if CategoryCode(x.category) == category then 1 else 0)
  {
    FilterConcat(issues, [x], InCategory(category));
    FilterCons(x, [], InCategory(category));
    assert [x] == [x] + [];
  }

  /** Removing the issue at `k` subtracts one from the count of its category only. */
  lemma RemoveAtCategoryCount(issues: seq<Issue>, k: nat, category: string)
    requires k < |issues|
    ensures CountInCategory(issues[..k] + issues[k + 1..], category)
         == CountInCategory(issues, category) - (if CategoryCode(issues[k].category) == category then 1 else 0)
  {
    FilterRemoveAt(issues, k, InCategory(category));
  }

  /** With distinct ids, once the issue at `k` is removed its id is found no more. */
  lemma RemovedIdIsGone(issues: seq<Issue>, k: nat)
    requires DistinctIds(issues)
    requires k < |issues|
    ensures GetIssueById(issues[..k] + issues[k + 1..], issues[k].id).None?
  {
    var rest := issues[..k] + issues[k + 1..];
    forall j | 0 <= j < |rest| ensures rest[j].id != issues[k].id {
      if j < k {
        assert rest[j] == issues[j];
      } else {
        assert rest[j] == issues[j + 1];
      }
    }
  }

  /** Appending an issue under the next id keeps the ids distinct. */
  lemma AppendNextIdKeepsDistinct(issues: seq<Issue>, x: Issue)
    requires DistinctIds(issues)
    requires |issues| > 0
    ensures DistinctIds(issues + [x.(id := NextId(issues))])
  {
  }

  /** With distinct ids, removing the issue at `k` leaves the ids distinct. */
  lemma RemoveAtKeepsDistinct(issues: seq<Issue>, k: nat)
    requires DistinctIds(issues)
    requires k < |issues|
    ensures DistinctIds(issues[..k] + issues[k + 1..])
  {
    var rest := issues[..k] + issues[k + 1..];
    forall i, j | 0 <= i < j < |rest| ensures rest[i].id != rest[j].id {
      var i', j' := if i < k then i else i + 1, if j < k then j else j + 1;
      assert rest[i] == issues[i'] && rest[j] == issues[j'];
    }
  }

  /** Replacing the issue at `k` by one with the same id leaves the ids distinct. */
  lemma ReplaceKeepingIdKeepsDistinct(issues: seq<Issue>, k: nat, x: Issue)
    requires DistinctIds(issues)
    requires k < |issues| && x.id == issues[k].id
    ensures DistinctIds(issues[k := x])
  {
    var s := issues[k := x];
    forall i, j | 0 <= i < j < |s| ensures s[i].id != s[j].id {
      assert s[i].id == issues[i].id && s[j].id == issues[j].id;
    }
  }

  /**
   * An update that gives an `id` is not checked against the other ids: an
   * update of one issue to the id of another leaves two issues with one id.
   */
  lemma UpdateCanDuplicateIds(issues: seq<Issue>, k: nat, j: nat)
    requires k < |issues| && j < |issues| && k != j
    ensures !DistinctIds(issues[k := MergeIssue(issues[k], NoIssueUpdates.(id := Some(issues[j].id)))])
  {
    var s := issues[k := MergeIssue(issues[k], NoIssueUpdates.(id := Some(issues[j].id)))];
    assert s[k].id == s[j].id;
    if k < j {
      assert !(s[k].id != s[j].id);
    } else {
      assert !(s[j].id != s[k].id);
    }
  }
}
