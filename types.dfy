/**
 * The record shapes of the KYC data layer: categories, companies,
 * stories, statistics, issues and issue actions, with the partial
 * updates (`Partial<Issue>`, `Partial<Company>`) that the update
 * operations merge into a stored record.
 */
module Types {
  import opened Wrappers

  /** 'High' | 'Medium' | 'Low': an issue's severity and the overall risk level. */
  datatype Level = High | Medium | Low

  /** 'warning' | 'success' | 'neutral': a display hint, not the lifecycle. */
  datatype Status = Warning | Success | Neutral

  /** 'SOW' | 'UBO' | 'RISK' | 'CORR'. */
  datatype CategoryId = SOW | UBO | RISK | CORR

  /** 'open' | 'solved' | 'dismissed': the lifecycle of an issue. */
  datatype IssueState = Open | Solved | Dismissed

  /** `string | number`, the type of the optional `badge` fields. */
  datatype Badge = TextBadge(text: string) | NumberBadge(n: int)

  /** The string a category enum value is compared as. */
  function CategoryCode(c: CategoryId): string {
    match c
    case SOW => "SOW"
    case UBO => "UBO"
    case RISK => "RISK"
    case CORR => "CORR"
  }

  /** The string an issue state is compared as. */
  function StateCode(s: IssueState): string {
    match s
    case Open => "open"
    case Solved => "solved"
    case Dismissed => "dismissed"
  }

  lemma CategoryCodeInjective(a: CategoryId, b: CategoryId)
    ensures CategoryCode(a) == CategoryCode(b) <==> a == b
  {
  }

  lemma StateCodeInjective(a: IssueState, b: IssueState)
    ensures StateCode(a) == StateCode(b) <==> a == b
  {
  }

  datatype Category = Category(id: string, name: string, count: int)

  datatype Company = Company(id: int, name: string, period: string, verified: bool, badge: Option<Badge>)

  datatype Story = Story(
    id: int,
    title: string,
    company: Company,
    period: string,
    category: CategoryId,
    verified: bool,
    issueIds: seq<int>)

  datatype Statistics = Statistics(kycQuality: int, corroboration: int, risk: Level)

  datatype Issue = Issue(
    id: int,
    title: string,
    description: Option<string>,
    severity: Level,
    status: Status,
    companyId: int,
    materiality: int,
    requirements: seq<string>,
    considerations: seq<string>,
    category: CategoryId,
    badge: Option<Badge>,
    hit: Option<string>,
    state: IssueState)

  /** The `type` of an action button. */
  datatype ButtonType = Primary | Default | Dashed | Link | Text

  /**
   * An issue action: a button whose `label` is `caption` and whose `onClick(id)` calls the
   * page's action handler with `(id, command)`.
   */
  datatype IssueAction = IssueAction(caption: string, kind: ButtonType, command: string)

  /** `i => i.id`, also the sort key of the comparator `(a, b) => a.id - b.id`. */
  function IdOf(i: Issue): int {
    i.id
  }

  /** `issue => issue.id === id`. */
  function HasId(id: int): Issue -> bool {
    (i: Issue) => i.id == id
  }

  /** `issue => issue.category === category`, a string comparison. */
  function InCategory(category: string): Issue -> bool {
    (i: Issue) => CategoryCode(i.category) == category
  }

  /** `issue => issue.state === state`. */
  function InState(state: IssueState): Issue -> bool {
    (i: Issue) => i.state == state
  }

  /** `issue => issue.companyId === companyId`. */
  function OfCompany(companyId: int): Issue -> bool {
    (i: Issue) => i.companyId == companyId
  }

  /** What `onClick(id)` of an action hands to the action handler. */
  function Click(a: IssueAction, id: int): (int, string) {
    (id, a.command)
  }

  /**
   * `Partial<Issue>`: each field is either absent (`None`) or given.
   * For the optional fields, `Some(None)` is a key given as `undefined`.
   */
  datatype IssueUpdates = IssueUpdates(
    id: Option<int>,
    title: Option<string>,
    description: Option<Option<string>>,
    severity: Option<Level>,
    status: Option<Status>,
    companyId: Option<int>,
    materiality: Option<int>,
    requirements: Option<seq<string>>,
    considerations: Option<seq<string>>,
    category: Option<CategoryId>,
    badge: Option<Option<Badge>>,
    hit: Option<Option<string>>,
    state: Option<IssueState>)

  /** The update that gives no field. */
  const NoIssueUpdates := IssueUpdates(None, None, None, None, None, None, None, None, None, None, None, None, None)

  /** `{ ...issue, ...u }`: every field that `u` gives wins, the others are kept. */
  function MergeIssue(issue: Issue, u: IssueUpdates): Issue {
    Issue(
      u.id.GetOr(issue.id),
      u.title.GetOr(issue.title),
      u.description.GetOr(issue.description),
      u.severity.GetOr(issue.severity),
      u.status.GetOr(issue.status),
      u.companyId.GetOr(issue.companyId),
      u.materiality.GetOr(issue.materiality),
      u.requirements.GetOr(issue.requirements),
      u.considerations.GetOr(issue.considerations),
      u.category.GetOr(issue.category),
      u.badge.GetOr(issue.badge),
      u.hit.GetOr(issue.hit),
      u.state.GetOr(issue.state))
  }

  /** Given fields win, absent ones keep the stored value; the empty update changes nothing. */
  lemma MergeIssueFields(issue: Issue, u: IssueUpdates)
    ensures var m := MergeIssue(issue, u);
      && (m.id == if u.id.Some? then u.id.value else issue.id)
      && (m.title == if u.title.Some? then u.title.value else issue.title)
      && (m.description == if u.description.Some? then u.description.value else issue.description)
      && (m.severity == if u.severity.Some? then u.severity.value else issue.severity)
      && (m.status == if u.status.Some? then u.status.value else issue.status)
      && (m.companyId == if u.companyId.Some? then u.companyId.value else issue.companyId)
      && (m.materiality == if u.materiality.Some? then u.materiality.value else issue.materiality)
      && (m.requirements == if u.requirements.Some? then u.requirements.value else issue.requirements)
      && (m.considerations == if u.considerations.Some? then u.considerations.value else issue.considerations)
      && (m.category == if u.category.Some? then u.category.value else issue.category)
      && (m.badge == if u.badge.Some? then u.badge.value else issue.badge)
      && (m.hit == if u.hit.Some? then u.hit.value else issue.hit)
      && (m.state == if u.state.Some? then u.state.value else issue.state)
    ensures MergeIssue(issue, NoIssueUpdates) == issue
  {
  }

  /** `Partial<Company>`. */
  datatype CompanyUpdates = CompanyUpdates(
    id: Option<int>,
    name: Option<string>,
    period: Option<string>,
    verified: Option<bool>,
    badge: Option<Option<Badge>>)

  /** `{ ...company, ...u }`. */
  function MergeCompany(c: Company, u: CompanyUpdates): Company {
    Company(
      u.id.GetOr(c.id),
      u.name.GetOr(c.name),
      u.period.GetOr(c.period),
      u.verified.GetOr(c.verified),
      u.badge.GetOr(c.badge))
  }

  lemma MergeCompanyFields(c: Company, u: CompanyUpdates)
    ensures var m := MergeCompany(c, u);
      && (m.id == if u.id.Some? then u.id.value else c.id)
      && (m.name == if u.name.Some? then u.name.value else c.name)
      && (m.period == if u.period.Some? then u.period.value else c.period)
      && (m.verified == if u.verified.Some? then u.verified.value else c.verified)
      && (m.badge == if u.badge.Some? then u.badge.value else c.badge)
    ensures MergeCompany(c, CompanyUpdates(None, None, None, None, None)) == c
  {
  }
}
