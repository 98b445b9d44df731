/**
 * The module-level stores of the data layer (issues.ts, companies.ts,
 * categories.ts, statistics.ts): the issue and company arrays, which the
 * add, update and delete operations change in place, and the stored
 * categories and statistics, which nothing ever writes. The issue
 * mutators recompute category counts and statistics and drop the
 * results, so each of them leaves `categories` and `statistics` as they
 * were; the frames below say so.
 */
module Repository {
  import opened Wrappers
  import opened Types
  import opened Issues
  import opened Companies
  import opened Categories
  import opened Statistics

  class Store {
    var issues: seq<Issue>
    var companies: seq<Company>
    var categories: seq<Category>
    var statistics: Types.Statistics

    /**
     * The stores as the modules initialise them, with the seeded issues'
     * texts taken from `text` (`SeedText` holds the ones of the source).
     */
    constructor (text: int -> IssueText)
      ensures issues == SeedIssuesWith(text) && companies == SeedCompanies()
      ensures categories == SeedCategories() && statistics == SeedStatistics()
    {
      issues := SeedIssuesWith(text);
      companies := SeedCompanies();
      categories := SeedCategories();
      statistics := SeedStatistics();
    }

    /**
     * `addIssue`: the issue under the id one above the largest in use,
     * appended at the end. Needs a non-empty list (the largest id of no
     * issues is not a number).
     */
    method AddIssue(issue: Issue) returns (r: Issue)
      requires |issues| > 0
      modifies this`issues
      ensures r == issue.(id := NextId(old(issues)))
      ensures forall k :: 0 <= k < |old(issues)| ==> old(issues)[k].id < r.id
      ensures issues == old(issues) + [r]
      ensures DistinctIds(old(issues)) ==> DistinctIds(issues)
    {
      var newId := NextId(issues);
      r := issue.(id := newId);
      issues := issues + [r];
      if DistinctIds(old(issues)) {
        AppendNextIdKeepsDistinct(old(issues), issue);
      }
      var recounted := UpdateCategoryCounts(categories, issues);   // result dropped
      var recomputed := UpdateStatistics(issues);                  // result dropped
    }

    /**
     * `updateIssue`: nothing, and no change, when no issue has the id;
     * otherwise the first issue with the id is replaced, at its index, by
     * its merge with the updates, and that merge is returned.
     */
    method UpdateIssue(id: int, updates: IssueUpdates) returns (r: Option<Issue>)
      modifies this`issues
      ensures (forall k :: 0 <= k < |old(issues)| ==> old(issues)[k].id != id) ==> r.None? && issues == old(issues)
      ensures var k := IndexOfId(old(issues), id);
        0 <= k ==> r == Some(MergeIssue(old(issues)[k], updates)) && issues == old(issues)[k := r.value]
      ensures |issues| == |old(issues)|
      ensures updates.id.None? && DistinctIds(old(issues)) ==> DistinctIds(issues)
    {
      var index := IndexOfId(issues, id);
      if index == -1 {
        return None;
      }
      issues := issues[index := MergeIssue(issues[index], updates)];
      if updates.id.None? && DistinctIds(old(issues)) {
        ReplaceKeepingIdKeepsDistinct(old(issues), index, issues[index]);
      }
      var recounted := UpdateCategoryCounts(categories, issues);   // result dropped
      var recomputed := UpdateStatistics(issues);                  // result dropped
      r := Some(issues[index]);
    }

    /**
     * `deleteIssue`: false, and no change, when no issue has the id;
     * otherwise true, with the first issue of that id spliced out.
     */
    method DeleteIssue(id: int) returns (deleted: bool)
      modifies this`issues
      ensures deleted <==> exists k :: 0 <= k < |old(issues)| && old(issues)[k].id == id
      ensures !deleted ==> issues == old(issues)
      ensures var k := IndexOfId(old(issues), id);
        deleted ==> issues == old(issues)[..k] + old(issues)[k + 1..]
      ensures DistinctIds(old(issues)) ==> DistinctIds(issues) && GetIssueById(issues, id).None?
    {
      var index := IndexOfId(issues, id);
      if index == -1 {
        return false;
      }
      issues := issues[..index] + issues[index + 1..];
      if DistinctIds(old(issues)) {
        RemoveAtKeepsDistinct(old(issues), index);
        RemovedIdIsGone(old(issues), index);
      }
      var recounted := UpdateCategoryCounts(categories, issues);   // result dropped
      var recomputed := UpdateStatistics(issues);                  // result dropped
      deleted := true;
    }

    /**
     * `addCompany`: the company under the id one above the largest in use,
     * appended at the end; needs a non-empty list.
     */
    method AddCompany(company: Company) returns (r: Company)
      requires |companies| > 0
      modifies this`companies
      ensures r == company.(id := NextCompanyId(old(companies)))
      ensures forall k :: 0 <= k < |old(companies)| ==> old(companies)[k].id < r.id
      ensures companies == old(companies) + [r]
      ensures |companies| > |old(companies)|
    {
      r := company.(id := NextCompanyId(companies));
      companies := companies + [r];
    }

    /**
     * `updateCompany`: nothing, and no change, when no company has the id;
     * otherwise the first company with the id is merged in place and
     * returned. The length never changes.
     */
    method UpdateCompany(id: int, updates: CompanyUpdates) returns (r: Option<Company>)
      modifies this`companies
      ensures (forall k :: 0 <= k < |old(companies)| ==> old(companies)[k].id != id) ==> r.None? && companies == old(companies)
      ensures var k := IndexOfCompany(old(companies), id);
        0 <= k ==> r == Some(MergeCompany(old(companies)[k], updates)) && companies == old(companies)[k := r.value]
      ensures |companies| == |old(companies)|
    {
      var index := IndexOfCompany(companies, id);
      if index == -1 {
        return None;
      }
      companies := companies[index := MergeCompany(companies[index], updates)];
      r := Some(companies[index]);
    }
  }
}
