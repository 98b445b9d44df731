/**
 * The companies (companies.ts): the three seeded companies and the
 * lookup by id. Adding and updating a company change the stored list
 * and are methods of `Repository.Store`.
 */
module Companies {
  import opened Wrappers
  import opened Types
  import opened ArrayOps

  /** The seeded companies, with the ids 1, 2 and 3. */
  function SeedCompanies(): seq<Company> {
    [
      Company(id := 1, name := "Xiamen Limbach Aircraft Engine Co.Ltd", period := "2015-2022",
              verified := false, badge := Some(TextBadge("2"))),
      Company(id := 2, name := "嘉兴锡诚旅游用品有限公司", period := "2012-2020",
              verified := true, badge := None),
      Company(id := 3, name := "嘉兴瑞杰国际货运代理有限公司", period := "2017-2023",
              verified := true, badge := None)
    ]
  }

  /** `company => company.id === id`. */
  function CompanyHasId(id: int): Company -> bool {
    (c: Company) => c.id == id
  }

  /** `c => c.id`. */
  function CompanyIdOf(c: Company): int {
    c.id
  }

  /** `getCompanyById`: the first company with that id, or nothing when there is none. */
  function GetCompanyById(companies: seq<Company>, id: int): (r: Option<Company>)
    ensures r.None? <==> forall k :: 0 <= k < |companies| ==> companies[k].id != id
    ensures r.Some? ==> exists k :: 0 <= k < |companies| && companies[k] == r.value && r.value.id == id
                                    && forall j :: 0 <= j < k ==> companies[j].id != id
  {
    Find(companies, CompanyHasId(id))
  }

  /** `companies.findIndex(company => company.id === id)`. */
  function IndexOfCompany(companies: seq<Company>, id: int): (r: int)
    ensures -1 <= r < |companies|
    ensures r == -1 <==> forall k :: 0 <= k < |companies| ==> companies[k].id != id
    ensures 0 <= r ==> companies[r].id == id && forall k :: 0 <= k < r ==> companies[k].id != id
  {
    FindIndex(companies, CompanyHasId(id))
  }

  /** `Math.max(...companies.map(c => c.id)) + 1`: larger than every id in use. */
  function NextCompanyId(companies: seq<Company>): (r: int)
    requires |companies| > 0
    ensures forall k :: 0 <= k < |companies| ==> companies[k].id < r
    ensures exists k :: 0 <= k < |companies| && companies[k].id == r - 1
  {
    var ids := Map(companies, CompanyIdOf);
    assert forall k :: 0 <= k < |companies| ==> companies[k].id in ids;
    var m := Max(ids);
    assert exists k :: 0 <= k < |ids| && ids[k] == m;
    m + 1
  }

  /** The seed holds three companies with the ids 1, 2 and 3. */
  lemma SeedCompanyIds()
    ensures Map(SeedCompanies(), CompanyIdOf) == [1, 2, 3]
    ensures NextCompanyId(SeedCompanies()) == 4
  {
    var ids := Map(SeedCompanies(), CompanyIdOf);
    assert ids == [1, 2, 3];
    assert Max(ids) == 3;
  }
}
