/**
 * The data manager (dataManager.ts): a facade whose every accessor and
 * mutator hands back what the underlying store operation gives, and whose
 * refresh operations compute fresh statistics and category counts without
 * storing them. The manager holds the store it stands in front of; in the
 * source that store is the set of module-level arrays.
 */
module DataManagement {
  import opened Wrappers
  import opened Types
  import opened Issues
  import opened Companies
  import opened Categories
  import opened Statistics
  import opened Repository

  class DataManager {
    const store: Store

    /** Nothing writes the stored categories and statistics, so they keep their seeded values. */
    ghost predicate Valid()
      reads store
    {
      store.categories == SeedCategories() && store.statistics == SeedStatistics()
    }

    /** The singleton over freshly initialised stores. */
    constructor (text: int -> IssueText)
      ensures fresh(store)
      ensures store.issues == SeedIssuesWith(text) && store.companies == SeedCompanies()
      ensures Valid()
    {
      store := new Store(text);
    }

    /** `getCategories`: the stored categories themselves. */
    method GetCategories() returns (r: seq<Category>)
      ensures r == store.categories
      ensures Valid() ==> r == SeedCategories()
    {
      r := store.categories;
    }

    /** `getCompanies`: the stored companies themselves. */
    method GetCompanies() returns (r: seq<Company>)
      ensures r == store.companies
    {
      r := store.companies;
    }

    method GetCompanyById(id: int) returns (r: Option<Company>)
      ensures r == Companies.GetCompanyById(store.companies, id)
    {
      r := Companies.GetCompanyById(store.companies, id);
    }

    method AddCompany(company: Company) returns (r: Company)
      requires |store.companies| > 0
      requires Valid()
      modifies store`companies
      ensures r == company.(id := NextCompanyId(old(store.companies)))
      ensures store.companies == old(store.companies) + [r]
      ensures Valid()
    {
      r := store.AddCompany(company);
    }

    method UpdateCompany(id: int, updates: CompanyUpdates) returns (r: Option<Company>)
      requires Valid()
      modifies store`companies
      ensures var k := IndexOfCompany(old(store.companies), id);
        && (k == -1 ==> r.None? && store.companies == old(store.companies))
        && (0 <= k ==> r == Some(MergeCompany(old(store.companies)[k], updates))
                       && store.companies == old(store.companies)[k := r.value])
      ensures Valid()
    {
      r := store.UpdateCompany(id, updates);
    }

    /** `getIssues`: the stored issues themselves. */
    method GetIssues() returns (r: seq<Issue>)
      ensures r == store.issues
    {
      r := store.issues;
    }

    method GetIssueById(id: int) returns (r: Option<Issue>)
      ensures r == Issues.GetIssueById(store.issues, id)
    {
      r := Issues.GetIssueById(store.issues, id);
    }

    method GetIssuesByCategory(category: string) returns (r: seq<Issue>)
      ensures r == Issues.GetIssuesByCategory(store.issues, category)
    {
      r := Issues.GetIssuesByCategory(store.issues, category);
    }

    method GetIssuesByCompany(companyId: int) returns (r: seq<Issue>)
      ensures r == Issues.GetIssuesByCompany(store.issues, companyId)
    {
      r := Issues.GetIssuesByCompany(store.issues, companyId);
    }

    method GetIssuesByState(state: IssueState) returns (r: seq<Issue>)
      ensures r == Issues.GetIssuesByState(store.issues, state)
    {
      r := Issues.GetIssuesByState(store.issues, state);
    }

    method AddIssue(issue: Issue) returns (r: Issue)
      requires |store.issues| > 0
      requires Valid()
      modifies store`issues
      ensures r == issue.(id := NextId(old(store.issues)))
      ensures store.issues == old(store.issues) + [r]
      ensures Valid()
    {
      r := store.AddIssue(issue);
    }

    method UpdateIssue(id: int, updates: IssueUpdates) returns (r: Option<Issue>)
      requires Valid()
      modifies store`issues
      ensures var k := IndexOfId(old(store.issues), id);
        && (k == -1 ==> r.None? && store.issues == old(store.issues))
        && (0 <= k ==> r == Some(MergeIssue(old(store.issues)[k], updates))
                       && store.issues == old(store.issues)[k := r.value])
      ensures Valid()
    {
      r := store.UpdateIssue(id, updates);
    }

    method DeleteIssue(id: int) returns (deleted: bool)
      requires Valid()
      modifies store`issues
      ensures var k := IndexOfId(old(store.issues), id);
        && (k == -1 ==> !deleted && store.issues == old(store.issues))
        && (0 <= k ==> deleted && store.issues == old(store.issues)[..k] + old(store.issues)[k + 1..])
      ensures Valid()
    {
      deleted := store.DeleteIssue(id);
    }

    /** `getStatistics`: the stored statistics, which keep their seeded value. */
    method GetStatistics() returns (r: Types.Statistics)
      ensures r == store.statistics
      ensures Valid() ==> r == Statistics(80, 78, Low)
    {
      r := store.statistics;
    }

    /** `refreshStatistics`: the statistics of the current issues, not stored. */
    method RefreshStatistics() returns (r: Types.Statistics)
      ensures r.kycQuality == CalculateKycQuality(store.issues)
      ensures r.risk == CalculateRiskLevel(store.issues)
      ensures r.corroboration == 78
    {
      r := UpdateStatistics(store.issues);
    }

    /** `refreshCategoryCounts`: the categories recounted over the current issues, not stored. */
    method RefreshCategoryCounts() returns (r: seq<Category>)
      ensures r == UpdateCategoryCounts(store.categories, store.issues)
      ensures Valid() ==> |r| == 4 && forall k :: 0 <= k < 4 ==>
        r[k].id == SeedCategories()[k].id && r[k].count == CountInCategory(store.issues, SeedCategories()[k].id)
    {
      r := UpdateCategoryCounts(store.categories, store.issues);
    }

    /**
     * `getStandardIssueActions`: an "Approve" button of type primary whose
     * click hands `(id, "approve")` to the handler, then a "Reject" button
     * of type default that hands it `(id, "reject")`.
     */
    function GetStandardIssueActions(): (r: seq<IssueAction>)
      ensures |r| == 2
      ensures r[0].caption == "Approve" && r[0].kind == Primary
      ensures r[1].caption == "Reject" && r[1].kind == Default
      ensures forall id :: Click(r[0], id) == (id, "approve") && Click(r[1], id) == (id, "reject")
    {
      [IssueAction("Approve", Primary, "approve"), IssueAction("Reject", Default, "reject")]
    }
  }
}
