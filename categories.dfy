/**
 * The issue categories (categories.ts): the seeded category records and
 * the recount that builds a fresh list with each category's count
 * replaced by the number of issues in it.
 */
module Categories {
  import opened Types
  import opened ArrayOps
  import opened Issues

  /** The stored categories: SOW, UBO, RISK and CORR, each with count 3. */
  function SeedCategories(): seq<Category> {
    [
      Category(id := "SOW", name := "SOW", count := 3),
      Category(id := "UBO", name := "UBO", count := 3),
      Category(id := "RISK", name := "RISK", count := 3),
      Category(id := "CORR", name := "CORR", count := 3)
    ]
  }

  /**
   * `updateCategoryCounts`: a new list, in the order of `categories`, that
   * keeps each category's id and name and replaces its count with the
   * number of issues whose category is that id.
   */
  function UpdateCategoryCounts(categories: seq<Category>, issues: seq<Issue>): (r: seq<Category>)
    ensures |r| == |categories|
    ensures forall k :: 0 <= k < |r| ==>
      && r[k].id == categories[k].id
      && r[k].name == categories[k].name
      && r[k].count == CountInCategory(issues, categories[k].id)
  {
    seq(|categories|, k requires 0 <= k < |categories| =>
      categories[k].(count := CountInCategory(issues, categories[k].id)))
  }

  /** No two categories share an id. */
  ghost predicate DistinctCategoryIds(categories: seq<Category>) {
    forall i, j :: 0 <= i < j < |categories| ==> categories[i].id != categories[j].id
  }

  /** The ids of the categories. */
  function CategoryIdSet(categories: seq<Category>): set<string> {
    set c | c in categories :: c.id
  }

  /** The issue's category is one of `ids`. */
  function InAnyCategory(ids: set<string>): Issue -> bool {
    (i: Issue) => CategoryCode(i.category) in ids
  }

  /** The sum of the counts. */
  function SumCounts(categories: seq<Category>): int {
    if categories == [] then 0 else categories[0].count + SumCounts(categories[1..])
  }

  /**
   * With distinct ids, the recounted counts add up to the number of
   * issues whose category is one of the ids.
   */
  lemma {:induction false} SumOfRecount(categories: seq<Category>, issues: seq<Issue>)
    requires DistinctCategoryIds(categories)
    ensures SumCounts(UpdateCategoryCounts(categories, issues))
         == |Filter(issues, InAnyCategory(CategoryIdSet(categories)))|
  {
    var r := UpdateCategoryCounts(categories, issues);
    if categories == [] {
      assert CategoryIdSet(categories) == {};
      FilterAllOrNone(issues, InAnyCategory({}));
    } else {
      var rest := categories[1..];
      assert r[1..] == UpdateCategoryCounts(rest, issues);
      SumOfRecount(rest, issues);
      var id := categories[0].id;
      forall j | 0 <= j < |rest| ensures rest[j].id != id {
        assert rest[j] == categories[j + 1];
      }
      assert id !in CategoryIdSet(rest);
      assert categories == [categories[0]] + rest;
      assert CategoryIdSet(categories) == {id} + CategoryIdSet(rest);
      FilterDisjointUnion(issues, InCategory(id), InAnyCategory(CategoryIdSet(rest)),
                          InAnyCategory(CategoryIdSet(categories)));
    }
  }

  /**
   * With distinct category ids the recounted counts add up to at most the
   * number of issues, and to exactly that number when every issue's
   * category is among the ids.
   */
  lemma RecountTotal(categories: seq<Category>, issues: seq<Issue>)
    requires DistinctCategoryIds(categories)
    ensures SumCounts(UpdateCategoryCounts(categories, issues)) <= |issues|
    ensures (forall i :: 0 <= i < |issues| ==> CategoryCode(issues[i].category) in CategoryIdSet(categories))
        ==> SumCounts(UpdateCategoryCounts(categories, issues)) == |issues|
  {
    SumOfRecount(categories, issues);
    FilterAllOrNone(issues, InAnyCategory(CategoryIdSet(categories)));
  }

  /** The seeded category ids are the four category codes, in order. */
  lemma SeedCategoryIds()
    ensures |SeedCategories()| == 4
    ensures SeedCategories()[0].id == CategoryCode(SOW)
    ensures SeedCategories()[1].id == CategoryCode(UBO)
    ensures SeedCategories()[2].id == CategoryCode(RISK)
    ensures SeedCategories()[3].id == CategoryCode(CORR)
  {
  }

  /** Recounting the seeded categories over issues with five in each category gives five everywhere. */
  lemma RecountFivePerCategory(issues: seq<Issue>)
    requires forall d :: CountInCategory(issues, CategoryCode(d)) == 5
    ensures |UpdateCategoryCounts(SeedCategories(), issues)| == 4
    ensures forall k :: 0 <= k < 4 ==> UpdateCategoryCounts(SeedCategories(), issues)[k].count == 5
  {
    SeedCategoryIds();
    assert CountInCategory(issues, CategoryCode(SOW)) == 5;
    assert CountInCategory(issues, CategoryCode(UBO)) == 5;
    assert CountInCategory(issues, CategoryCode(RISK)) == 5;
    assert CountInCategory(issues, CategoryCode(CORR)) == 5;
  }

  /**
   * The stored counts are stale: recounted over the seeded issues every
   * category has 5 issues, while the stored count is 3.
   */
  lemma SeedCategoriesStale(text: int -> IssueText)
    ensures |UpdateCategoryCounts(SeedCategories(), SeedIssuesWith(text))| == 4
    ensures forall k :: 0 <= k < 4 ==>
      UpdateCategoryCounts(SeedCategories(), SeedIssuesWith(text))[k].count == 5 && SeedCategories()[k].count == 3
  {
    forall d ensures CountInCategory(SeedIssuesWith(text), CategoryCode(d)) == 5 {
      SeedCategoryCounts(text, d);
    }
    RecountFivePerCategory(SeedIssuesWith(text));
  }
}
