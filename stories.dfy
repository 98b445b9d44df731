/**
 * The stories (stories.ts): the twelve seeded stories, three per
 * category, the lookups over them, and the issues of a story sorted by
 * id.
 */
module Stories {
  import opened Wrappers
  import opened Types
  import opened ArrayOps
  import opened Companies

  /**
   * The seeded stories. Each holds the value of the first seeded company;
   * a later update of that company stores a new record and leaves the
   * stories' copy as it was.
   */
  function SeedStories(): seq<Story> {
    SeedStoriesWith(SeedStoryText, SeedCompanies()[0])
  }

  /** The title and period of a story. */
  datatype StoryText = StoryText(title: string, period: string)

  /** The story with id `id`, texts `t`, company `company`, category and issue ids, not verified. */
  function Seeded(t: StoryText, id: int, company: Company, category: CategoryId, issueIds: seq<int>): (r: Story)
    ensures r.id == id && r.category == category && r.issueIds == issueIds && r.company == company
  {
    Story(id, t.title, company, t.period, category, false, issueIds)
  }

  /** The seeded stories with their texts taken from `text`, by story id. */
  function SeedStoriesWith(text: int -> StoryText, company: Company): seq<Story> {
    [
      Seeded(text(1), 1, company, SOW, [1, 2, 3]),
      Seeded(text(2), 2, company, SOW, [13, 14, 15, 16]),
      Seeded(text(3), 3, company, SOW, [14, 17, 18, 19, 20]),
      Seeded(text(4), 4, company, UBO, [4, 5, 6]),
      Seeded(text(5), 5, company, UBO, [5, 6, 7, 8]),
      Seeded(text(6), 6, company, UBO, [6, 15, 16, 17, 18]),
      Seeded(text(7), 7, company, RISK, [7, 8, 9]),
      Seeded(text(8), 8, company, RISK, [8, 9, 10, 11]),
      Seeded(text(9), 9, company, RISK, [9, 17, 18, 19, 20]),
      Seeded(text(10), 10, company, CORR, [10, 11, 12]),
      Seeded(text(11), 11, company, CORR, [11, 12, 7, 8]),
      Seeded(text(12), 12, company, CORR, [12, 19, 20, 3, 4])
    ]
  }

  /** The titles and periods of the seeded stories, by id. */
  function SeedStoryText(id: int): StoryText {
    match id
    case 1 => StoryText("Owner Review: Xiamen Limbach", "2015-2022")
    case 2 => StoryText("Corporate Structure Check", "2015-2022")
    case 3 => StoryText("Business Activities", "2015-2022")
    case 4 => StoryText("Personal Info Verification", "2015-2022")
    case 5 => StoryText("Asset Composition Check", "2015-2022")
    case 6 => StoryText("Source of Wealth Check", "2015-2022")
    case 7 => StoryText("Negative Screening Check", "2015-2022")
    case 8 => StoryText("Country Risk Assessment", "2015-2022")
    case 9 => StoryText("Media Coverage Analysis", "2015-2022")
    case 10 => StoryText("PEP/AML Screening", "2015-2022")
    case 11 => StoryText("Industry Risk Assessment", "2015-2022")
    case 12 => StoryText("Related Company Check", "2015-2022")
    case _ => StoryText("", "")
  }

  /** `story => story.category === category`, a string comparison. */
  function StoryInCategory(category: string): Story -> bool {
    (s: Story) => CategoryCode(s.category) == category
  }

  /** `story => story.id === id`. */
  function StoryHasId(id: int): Story -> bool {
    (s: Story) => s.id == id
  }

  /** `getStoriesByCategory`: exactly the stories of that category, in stored order. */
  function GetStoriesByCategory(stories: seq<Story>, category: string): (r: seq<Story>)
    ensures forall s :: s in r <==> s in stories && CategoryCode(s.category) == category
    ensures forall s :: s in stories ==>
      multiset(r)[s] == if CategoryCode(s.category) == category then multiset(stories)[s] else 0
    ensures IsSubsequence(r, stories)
  {
    FilterMultiset(stories, StoryInCategory(category));
    FilterSubsequence(stories, StoryInCategory(category));
    Filter(stories, StoryInCategory(category))
  }

  /** `getStoryById`: the first story with that id, or nothing when there is none. */
  function GetStoryById(stories: seq<Story>, id: int): (r: Option<Story>)
    ensures r.None? <==> forall k :: 0 <= k < |stories| ==> stories[k].id != id
    ensures r.Some? ==> exists k :: 0 <= k < |stories| && stories[k] == r.value && r.value.id == id
                                    && forall j :: 0 <= j < k ==> stories[j].id != id
  {
    Find(stories, StoryHasId(id))
  }

  /** `issue => ids.includes(issue.id)`. */
  function IdIn(ids: seq<int>): Issue -> bool {
    (i: Issue) => i.id in ids
  }

  /**
   * The issues whose id is among `ids`, sorted by ascending id: a
   * permutation of those issues, ids without a matching issue dropped.
   */
  function IssuesWithIds(ids: seq<int>, issues: seq<Issue>): (r: seq<Issue>)
    ensures SortedByKey(r, IdOf)
    ensures multiset(r) == multiset(Filter(issues, IdIn(ids)))
    ensures forall x :: x in r <==> x in issues && x.id in ids
  {
    var selected := Filter(issues, IdIn(ids));
    FilterMultiset(issues, IdIn(ids));
    var r := SortByKey(selected, IdOf);
    assert forall x :: x in r <==> x in multiset(selected);
    r
  }

  /**
   * `getIssuesForStory`: nothing for an unknown story; otherwise the issues
   * of the story's issue ids, sorted by ascending id.
   */
  function GetIssuesForStory(stories: seq<Story>, storyId: int, issues: seq<Issue>): (r: seq<Issue>)
    ensures (forall k :: 0 <= k < |stories| ==> stories[k].id != storyId) ==> r == []
    ensures GetStoryById(stories, storyId).Some? ==> r == IssuesWithIds(GetStoryById(stories, storyId).value.issueIds, issues)
  {
    match GetStoryById(stories, storyId)
    case None => []
    case Some(story) => IssuesWithIds(story.issueIds, issues)
  }

  /** Issues with the same id keep their relative input order. */
  lemma IssuesWithIdsStable(ids: seq<int>, issues: seq<Issue>, id: int)
    ensures WithKey(IssuesWithIds(ids, issues), IdOf, id) == WithKey(Filter(issues, IdIn(ids)), IdOf, id)
  {
    SortByKeyStable(Filter(issues, IdIn(ids)), IdOf, id);
  }

  /** With distinct issue ids, the issues of a story appear in strictly ascending id order. */
  lemma IssuesWithIdsStrictlyAscending(ids: seq<int>, issues: seq<Issue>)
    requires forall i, j :: 0 <= i < j < |issues| ==> issues[i].id != issues[j].id
    ensures var r := IssuesWithIds(ids, issues);
      forall i, j :: 0 <= i < j < |r| ==> r[i].id < r[j].id
  {
    var r := IssuesWithIds(ids, issues);
    FilterMultiset(issues, IdIn(ids));
    forall i, j | 0 <= i < j < |r| ensures r[i].id < r[j].id {
      assert IdOf(r[i]) <= IdOf(r[j]);
      DistinctIdsCountOne(issues, r[i]);
      assert r[i] in issues;
      assert multiset(r)[r[i]] <= 1;
      DistinctPositions(r, i, j);
      DistinctIdsDistinctIssues(issues, r[i], r[j]);
    }
  }

  /** In a list with distinct ids, two different issues have different ids. */
  lemma DistinctIdsDistinctIssues(issues: seq<Issue>, x: Issue, y: Issue)
    requires forall i, j :: 0 <= i < j < |issues| ==> issues[i].id != issues[j].id
    requires x in issues && y in issues && x != y
    ensures x.id != y.id
  {
    var i :| 0 <= i < |issues| && issues[i] == x;
    var j :| 0 <= j < |issues| && issues[j] == y;
  }

  /** An element that occurs at most once is different from the elements at other positions. */
  lemma DistinctPositions<T>(s: seq<T>, i: nat, j: nat)
    requires i < j < |s|
    requires multiset(s)[s[i]] <= 1
    ensures s[i] != s[j]
  {
    assert s == s[..i] + [s[i]] + s[i + 1..j] + [s[j]] + s[j + 1..];
    assert multiset(s)[s[i]] >= 1 + (if s[i] == s[j] then 1 else 0);
  }

  /** In a list with distinct ids, no issue occurs twice. */
  lemma {:induction false} DistinctIdsCountOne(issues: seq<Issue>, x: Issue)
    requires forall i, j :: 0 <= i < j < |issues| ==> issues[i].id != issues[j].id
    ensures multiset(issues)[x] <= 1
  {
    if issues != [] {
      var rest := issues[1..];
      DistinctIdsCountOne(rest, x);
      assert issues == [issues[0]] + rest;
      if x == issues[0] {
        forall k | 0 <= k < |rest| ensures rest[k] != x {
          assert rest[k] == issues[k + 1];
        }
        assert x !in rest;
      }
    }
  }

  /** The seed holds twelve stories with the ids 1..12 in order, three in each category. */
  lemma SeedStoryFacts(text: int -> StoryText, company: Company)
    ensures |SeedStoriesWith(text, company)| == 12
    ensures forall k :: 0 <= k < 12 ==> SeedStoriesWith(text, company)[k].id == k + 1
    ensures forall k :: 0 <= k < 12 ==> SeedStoriesWith(text, company)[k].category == [SOW, UBO, RISK, CORR][k / 3]
  {
  }
}
