# KYC data layer, modelled in Dafny

This project models the in-memory data layer of a KYC (know-your-customer)
review dashboard and proves properties of that model. It covers:

- **The stores.** The seeded issues, companies, stories and categories and
  the stored statistics record, with the lookups and filters over them.
- **The stateful operations.** Adding, updating and deleting issues, and
  adding and updating companies, change the issue and company lists in
  place. These are the methods of the class `Repository.Store`.
- **The data-manager facade.** `DataManagement.DataManager` forwards to the
  store. Its refresh operations compute fresh statistics and category
  counts without storing them.
- **The statistics calculators.** The KYC quality score (0 to 100) and the
  High/Medium/Low risk level are computed from counts over the issues.
  The category recount builds a fresh category list.
- **The data-fetching hook.** Its three state cells (`data`, `status`,
  `error`) form the class `DataFetching.FetchState`. A fetch is split into
  `Begin`, then `Resolve` or `Reject`.
- **The list rules of the page and of the issue list.** These are the
  state labels and colours, the state filter, the stable sort by state,
  the toggle of expanded cards, the state update of one issue, and the
  action handler.
- **The corroboration-support tables.** Supporting documents and
  mentioned links are kept per story, with an empty-list default.

One fact runs through the model. The issue mutators recompute category
counts and statistics and then drop the results, so the stored
`categories` and `statistics` never change. Each mutator's `modifies`
clause names only the field it writes. `DataManager.Valid()` holds from
construction onwards and states that both stored values are still the
seeded ones. The recomputed values over the seed differ from what is
stored: every category holds 5 issues where the stored count says 3, and
the statistics come out as quality 33 and risk High where the stored
record says 80 and Low.

Layout: one module per source file, plus `Wrappers` (`Option`) and
`ArrayOps`. `ArrayOps` holds the JavaScript array built-ins as functions on
sequences: `filter`, `find`, `findIndex`, `Math.max` over a list, and a
stable `sort` by an integer key.

Arithmetic and values:

- The quality score is exact integer arithmetic. `RoundRatio(n, d)` is
  `Math.round(n / d)`, rounding halves up.
- Lists are sequences, and the in-place changes reassign a `seq` field.
- A `Partial<Issue>` is a record of `Option`s. For an optional field,
  `Some(None)` means the key was given as `undefined`.

## Model

| member | source | states |
|---|---|---|
| Types.MergeIssueFields | src/data/issues.ts:532 | In `{ ...issue, ...updates }` every field the update gives wins and every other keeps its stored value; the empty update changes nothing |
| Types.MergeCompanyFields | src/data/companies.ts:44 | The same for `{ ...company, ...updates }` |
| Types.CategoryCodeInjective | src/data/types.ts:48 | Two categories compare equal as strings exactly when they are the same category |
| Types.StateCodeInjective | src/data/types.ts:51 | Two states compare equal as strings exactly when they are the same state |
| ArrayOps.Filter | src/data/issues.ts:498-510 | `filter` keeps only elements of the input that pass, and no more of them than there are |
| ArrayOps.FilterMultiset | src/data/issues.ts:498-510 | `filter` keeps every passing element as often as it occurs and drops every other |
| ArrayOps.FilterSubsequence | src/data/issues.ts:498-510 | `filter` keeps the input order |
| ArrayOps.FindIndex | src/data/issues.ts:529 | `findIndex` gives -1 exactly when no element passes, otherwise the first index that passes |
| ArrayOps.Find | src/data/issues.ts:493-495 | `find` gives nothing exactly when no element passes, otherwise the first one that passes |
| ArrayOps.Max | src/data/issues.ts:514 | `Math.max` over a non-empty list is an element of the list and at least every element |
| ArrayOps.SortByKey | src/data/stories.ts:152-154 | The comparator sort's result is sorted by key and is a permutation of its input |
| ArrayOps.SortByKeyStable | src/components/IssueList.tsx:60 | The sort is stable: elements with equal keys keep their relative order |
| ArrayOps.FilterKeepsNoDuplicates | src/app/page.tsx:62 | Filtering a list without duplicates gives one without duplicates |
| Issues.SeedDistinctIds | src/data/issues.ts:24-490 | The seed holds 20 issues with distinct ids, all in 1..20 |
| Issues.SeedCategoryCounts | src/data/issues.ts:24-490 | The seed holds 5 issues in each category |
| Issues.GetIssueById | src/data/issues.ts:493-495 | Nothing exactly when no issue has the id; otherwise an issue with the id that no earlier issue has |
| Issues.IndexOfId | src/data/issues.ts:529-530 | -1 exactly when no issue has the id, otherwise the index of the first issue with it |
| Issues.GetIssuesByCategory | src/data/issues.ts:498-500 | Exactly the issues of the category, each as often as stored, in stored order |
| Issues.GetIssuesByCompany | src/data/issues.ts:503-505 | Exactly the issues of the company, each as often as stored, in stored order |
| Issues.GetIssuesByState | src/data/issues.ts:508-510 | Exactly the issues in the state, each as often as stored, in stored order |
| Issues.NextId | src/data/issues.ts:514 | For a non-empty list, the new id is larger than every id in use and one above the largest |
| Issues.AppendNextIdKeepsDistinct | src/data/issues.ts:514-516 | Appending under the next id keeps the ids distinct |
| Issues.AppendCategoryCount | src/data/issues.ts:516-519 | An appended issue adds one to the count of its own category and to no other |
| Issues.RemoveAtCategoryCount | src/data/issues.ts:548-551 | Splicing out an issue subtracts one from the count of its own category only |
| Issues.RemovedIdIsGone | src/data/issues.ts:545-548 | With distinct ids, the spliced-out id is found no more |
| Issues.RemoveAtKeepsDistinct | src/data/issues.ts:548 | Splicing out an issue keeps the ids distinct |
| Issues.ReplaceKeepingIdKeepsDistinct | src/data/issues.ts:532 | Replacing an issue by one with the same id keeps the ids distinct |
| Issues.UpdateCanDuplicateIds | src/data/issues.ts:528-532 | An update that gives an `id` is not checked: it can leave two issues with one id |
| Statistics.StatesPartition | src/data/statistics.ts:16-21 | The open, solved and dismissed counts add up to the number of issues |
| Statistics.CountOpenAtMostOpen | src/data/statistics.ts:25-26 | The open issues of one severity are never more than the open issues |
| Statistics.RoundRatio | src/data/statistics.ts:34 | `Math.round` of a ratio is the nearest integer, with halves rounded up |
| Statistics.Clamp | src/data/statistics.ts:34 | The clamp is in 0..100 and is the identity there |
| Statistics.CalculateKycQuality | src/data/statistics.ts:12-35 | The score is an integer in 0..100, and 100 for no issues |
| Statistics.QualityScore | src/data/statistics.ts:21-34 | The score computed from the counts is in 0..100 |
| Statistics.KycQualityOfCounts | src/data/statistics.ts:16-34 | A non-empty list scores the rounded, clamped `(solved + dismissed) / total * 100 - 5 * openHigh - 2 * openMedium` |
| Statistics.AllResolvedScoresHundred | src/data/statistics.ts:22-34 | With every issue solved or dismissed, the score is 100 whatever the severities |
| Statistics.KycQualityPermutationInvariant | src/data/statistics.ts:16-26 | The score does not depend on the order of the issues |
| Statistics.KycCountsPermutationInvariant | src/data/statistics.ts:16-26 | Reordering the issues keeps the resolved, open, open-High and open-Medium counts |
| Statistics.CalculateRiskLevel | src/data/statistics.ts:38-52 | High exactly with at least two open High issues; Medium exactly with one open High, or with none and at least three open Medium; Low otherwise, including for no issues |
| Statistics.RiskPermutationInvariant | src/data/statistics.ts:41-47 | The risk level does not depend on the order of the issues |
| Statistics.RiskIgnoresResolved | src/data/statistics.ts:41-47 | The risk level is that of the open issues alone |
| Statistics.RiskMonotone | src/data/statistics.ts:41-51 | Adding an issue never lowers the risk level |
| Statistics.UpdateStatistics | src/data/statistics.ts:55-61 | The record holds the two calculators' results and corroboration 78 |
| Statistics.SeedSolved | src/data/issues.ts:24-490 | The seed holds 7 solved issues |
| Statistics.SeedDismissed | src/data/issues.ts:24-490 | The seed holds 4 dismissed issues |
| Statistics.SeedOpenHigh | src/data/issues.ts:24-490 | The seed holds 2 open High-severity issues |
| Statistics.SeedOpenMedium | src/data/issues.ts:24-490 | The seed holds 6 open Medium-severity issues |
| Statistics.SeedStatisticsStale | src/data/statistics.ts:5-9 | Recomputed over the seed, the statistics are quality 33 and risk High, unlike the stored record |
| Categories.UpdateCategoryCounts | src/data/categories.ts:12-17 | Same length and order as the categories; each keeps its id and name, and its count is the number of issues of its id |
| Categories.SumOfRecount | src/data/categories.ts:14 | With distinct ids, the recounted counts add up to the number of issues whose category is among the ids |
| Categories.RecountTotal | src/data/categories.ts:14 | With distinct ids, the counts add up to at most the number of issues, and to exactly that when every issue's category is among the ids |
| Categories.SeedCategoriesStale | src/data/categories.ts:4-9 | Recounted over the seed every category has 5 issues, while every stored count is 3 |
| Companies.SeedCompanyIds | src/data/companies.ts:4-24 | The seed holds the companies 1, 2 and 3, and the next id is 4 |
| Companies.GetCompanyById | src/data/companies.ts:27-29 | Nothing exactly when no company has the id; otherwise a company with the id that no earlier company has |
| Companies.IndexOfCompany | src/data/companies.ts:41-42 | -1 exactly when no company has the id, otherwise the index of the first company with it |
| Companies.NextCompanyId | src/data/companies.ts:33 | The new id is larger than every id in use and one above the largest |
| Stories.SeedStoryFacts | src/data/stories.ts:5-134 | The seed holds 12 stories with the ids 1..12 in order, three per category |
| Stories.GetStoriesByCategory | src/data/stories.ts:137-139 | Exactly the stories of the category, each as often as stored, in stored order |
| Stories.GetStoryById | src/data/stories.ts:142-144 | Nothing exactly when no story has the id; otherwise a story with the id that no earlier story has |
| Stories.IssuesWithIds | src/data/stories.ts:152-154 | The issues whose id is among the story's ids, sorted by id and a permutation of the filtered issues; ids without an issue are dropped |
| Stories.GetIssuesForStory | src/data/stories.ts:147-155 | Empty for an unknown story; otherwise the issues of the story's ids, sorted by id |
| Stories.IssuesWithIdsStable | src/data/stories.ts:152-154 | Issues with equal ids keep their input order |
| Stories.IssuesWithIdsStrictlyAscending | src/data/stories.ts:152-154 | With distinct issue ids, a story's issues come in strictly ascending id order |
| Repository.Store.constructor | src/data/issues.ts:24-490 | The stores start with the seeded issues, companies, categories and statistics |
| Repository.Store.AddIssue | src/data/issues.ts:513-525 | The issue is appended under the next id; earlier issues, the categories and the statistics are unchanged |
| Repository.Store.UpdateIssue | src/data/issues.ts:528-541 | Nothing and no change for an absent id; otherwise only the first match's index holds the merge, which is returned; the length is unchanged |
| Repository.Store.DeleteIssue | src/data/issues.ts:543-557 | False and no change for an absent id; otherwise true with exactly the first match spliced out; distinct ids stay distinct |
| Repository.Store.AddCompany | src/data/companies.ts:32-37 | The company is appended under the next id, so the list grows by one |
| Repository.Store.UpdateCompany | src/data/companies.ts:40-46 | Nothing and no change for an absent id; otherwise the first match is merged at its index; the length never changes |
| DataManagement.DataManager.constructor | src/data/dataManager.ts:114-115 | The singleton starts over the seeded stores, with categories and statistics as seeded |
| DataManagement.DataManager.GetCategories | src/data/dataManager.ts:28-30 | The stored categories themselves, which are the seeded ones |
| DataManagement.DataManager.GetCompanies | src/data/dataManager.ts:33-35 | The stored companies themselves |
| DataManagement.DataManager.GetCompanyById | src/data/dataManager.ts:37-39 | The first stored company with the id, or nothing when none has it |
| DataManagement.DataManager.AddCompany | src/data/dataManager.ts:41-43 | The company is appended to the stored list under the next id and returned; the categories and statistics stay as seeded |
| DataManagement.DataManager.UpdateCompany | src/data/dataManager.ts:45-47 | Nothing and no change for an absent id; otherwise the first match is merged in place and returned; the categories and statistics stay as seeded |
| DataManagement.DataManager.GetIssues | src/data/dataManager.ts:50-52 | The stored issues themselves |
| DataManagement.DataManager.GetIssueById | src/data/dataManager.ts:54-56 | The first stored issue with the id, or nothing when none has it |
| DataManagement.DataManager.GetIssuesByCategory | src/data/dataManager.ts:58-60 | The stored issues of the category, in stored order |
| DataManagement.DataManager.GetIssuesByCompany | src/data/dataManager.ts:62-64 | The stored issues of the company, in stored order |
| DataManagement.DataManager.GetIssuesByState | src/data/dataManager.ts:66-68 | The stored issues in the state, in stored order |
| DataManagement.DataManager.AddIssue | src/data/dataManager.ts:70-72 | The issue is appended under the next id and returned; the categories and statistics stay as seeded although the issues changed |
| DataManagement.DataManager.UpdateIssue | src/data/dataManager.ts:74-76 | Nothing and no change for an absent id; otherwise the first match is merged in place and returned; the categories and statistics stay as seeded |
| DataManagement.DataManager.DeleteIssue | src/data/dataManager.ts:78-80 | False and no change for an absent id; otherwise true with the first match spliced out; the categories and statistics stay as seeded |
| DataManagement.DataManager.GetStatistics | src/data/dataManager.ts:83-85 | The stored statistics, always the seeded quality 80, corroboration 78, risk Low |
| DataManagement.DataManager.RefreshStatistics | src/data/dataManager.ts:88-90 | The two calculators over the current issues and corroboration 78, with nothing stored |
| DataManagement.DataManager.RefreshCategoryCounts | src/data/dataManager.ts:93-95 | The recount of the stored categories over the current issues, with nothing stored; the four seeded ids with their live counts |
| DataManagement.DataManager.GetStandardIssueActions | src/data/dataManager.ts:98-111 | Two actions in order: Approve (primary), whose click hands `(id, "approve")` on, and Reject (default), whose click hands `(id, "reject")` on |
| DataFetching.IsEmptyResult | src/hooks/useDataFetching.ts:51-53 | Empty exactly for null, undefined, an empty array and an object without own keys; `0`, `""` and `false` are not empty |
| DataFetching.EmptinessExamples | src/hooks/useDataFetching.ts:51-53 | null, undefined, `[]` and `{}` count as empty; `0`, `""`, `false`, a function, `[null]` and an object with a key do not |
| DataFetching.ErrorOf | src/hooks/useDataFetching.ts:62 | The stored error is the thrown `Error`, or a generic "An unknown error occurred" one |
| DataFetching.FetchState.constructor | src/hooks/useDataFetching.ts:27-33 | Initially null data, status idle and no error, which satisfies the invariant |
| DataFetching.FetchState.Reset | src/hooks/useDataFetching.ts:36-40 | From any state: null data, idle, no error |
| DataFetching.FetchState.Begin | src/hooks/useDataFetching.ts:45-46 | Loading, with the error cleared and the previous data kept |
| DataFetching.FetchState.Resolve | src/hooks/useDataFetching.ts:51-59 | Empty or success by the emptiness test, with the data exactly the result; the invariant holds exactly when no error is stored |
| DataFetching.FetchState.Reject | src/hooks/useDataFetching.ts:60-63 | Error status, the stored error, null data; the invariant holds |
| DataFetching.FetchState.FetchData | src/hooks/useDataFetching.ts:43-65 | One whole fetch from any state ends in the resolved or rejected state above, with the invariant holding |
| IssueList.GetStateLabel | src/components/IssueList.tsx:34-41 | open, solved and dismissed give Open, Solved and Dismissed; 'Solve' exactly for any other string |
| IssueList.GetStateColor | src/components/IssueList.tsx:44-51 | solved and dismissed give green and red; purple exactly for open and for any other string |
| IssueList.ButtonCaption | src/components/IssueList.tsx:159 | The state button says 'Solve' exactly for an open issue, and the state's label otherwise |
| IssueList.LabelsOfStates | src/components/IssueList.tsx:34-41 | Different states get different labels, and the button caption and the label differ only for open issues |
| IssueList.DisplayedIssues | src/components/IssueList.tsx:54-56 | All issues in the 'all' view; otherwise exactly those in the chosen state |
| IssueList.SortedIssues | src/components/IssueList.tsx:59-64 | The sorted list is never longer than the input; its order and contents are stated by the lemmas below |
| IssueList.AllViewSorted | src/components/IssueList.tsx:59-63 | The 'all' view is a permutation of the input, sorted by state rank |
| IssueList.AllViewGroupsStates | src/components/IssueList.tsx:61-62 | In the 'all' view open issues precede solved ones, which precede dismissed ones |
| IssueList.AllViewStable | src/components/IssueList.tsx:60 | In the 'all' view the issues of one state keep their input order |
| IssueList.StateViewIsFilter | src/components/IssueList.tsx:54-64 | A state's view is exactly the filter by that state, in input order and unsorted |
| IssueList.Render | src/components/IssueList.tsx:282 | "No issues found" exactly when the issues handed in are empty; otherwise the cards of the sorted issues |
| IssueList.EmptyViewShowsNoMessage | src/components/IssueList.tsx:282 | Issues none of which is in the chosen state give an empty card list, not the message |
| HomePage.Toggle | src/app/page.tsx:60-66 | A present id loses every occurrence while every other id keeps its multiplicity and order; an absent id is appended |
| HomePage.ToggleKeepsNoDuplicates | src/app/page.tsx:60-66 | Toggling keeps the expanded list free of duplicates |
| HomePage.ToggleTwiceRestores | src/app/page.tsx:60-66 | Toggling an absent id twice restores the list |
| HomePage.SetState | src/app/page.tsx:52-58 | Same length and order; matching issues get the new state and only that field changes; other issues are unchanged |
| HomePage.SetStateIdempotent | src/app/page.tsx:52-58 | Setting a state twice is setting it once |
| HomePage.SetStateCommutesWithCategory | src/app/page.tsx:52-58 | Setting a state commutes with the category filter the list is shown through |
| HomePage.ActionState | src/app/page.tsx:43-47 | 'approve' solves, 'reject' dismisses, every other action leaves the state alone |
| HomePage.StandardActionsEffect | src/app/page.tsx:22-50 | Clicking the standard Approve button on an issue solves it, and clicking Reject dismisses it |
| HomePage.Home.constructor | src/app/page.tsx:17-24 | The page opens on SOW with issue 1 expanded, the manager's issues, no recorded action and no open dropdown |
| HomePage.Home.ListedIssues | src/app/page.tsx:183 | The list handed to the issue list is exactly the page's issues of the active category, each as often as it occurs, in the page's order |
| HomePage.Home.SelectCategory | src/app/page.tsx:174 | Clicking a category tab makes it the active category and changes nothing else |
| HomePage.Home.ToggleExpand | src/app/page.tsx:60-66 | The expanded list becomes its toggle, and stays free of duplicates |
| HomePage.Home.UpdateIssueState | src/app/page.tsx:52-58 | The page's issues become their state update |
| HomePage.Home.HandleIssueAction | src/app/page.tsx:36-50 | Records the action for the issue, applies the action's state if it has one, and closes the dropdown |
| Corroboration.GetSupportingDocuments | src/data/corroborationSupport.ts:348-350 | Empty for every story other than 3, 4 and 5; 2, 1 and 1 documents for those, all of type document |
| Corroboration.GetMentionedLinks | src/data/corroborationSupport.ts:353-355 | Empty for every story other than 3, 4 and 5; 2, 1 and 2 links for those, all of type link |
| Corroboration.GetCorroborationSupport | src/data/corroborationSupport.ts:358-363 | The documents and the links of the story |
| Corroboration.TableKeys | src/data/corroborationSupport.ts:4-345 | Both tables hold exactly the stories 3, 4 and 5 |
| Corroboration.DocumentIds | src/data/corroborationSupport.ts:4-163 | Story 3 has the documents doc-1 and doc-2, story 4 doc-3 and story 5 doc-4, in that order |
| Corroboration.LinkIds | src/data/corroborationSupport.ts:166-345 | Story 3 has the links link-1 and link-2, story 4 link-3 and story 5 link-4 and link-5, in that order |
| Corroboration.ItemIdsDistinct | src/data/corroborationSupport.ts:8-342 | The item ids are doc-1..doc-4 and link-1..link-5, so none occurs twice across the two tables |

## Left out

- Rendering, styling, routing and the widgets of the components are out of scope; only the list rules are modelled.
- Floating point: the quality score is exact rational arithmetic rounded half up. At an exact .5 tie, IEEE division followed by `Math.round` could in principle round the other way.
- Repository.Store.AddIssue, Repository.Store.AddCompany, Issues.NextId, Companies.NextCompanyId: require a non-empty list, because there `Math.max()` of nothing is -Infinity and the new record would get the id -Infinity, which no integer models.
- Types.IssueUpdates, Types.CompanyUpdates: cannot give `undefined` for a required field (such as `{ title: undefined }`), which the spread would copy into the record; every given required field carries a value.
- The page cells `activeCompany` and `checkModalVisible` are never read by the modelled logic; the page's `categories` cell, which shows the stored (stale) counts on the category tabs, and its `issueActions` cell are not fields of `HomePage.Home`. The effect of the standard actions is stated by `HomePage.StandardActionsEffect`.
- Repository.Store.AddIssue, Repository.Store.AddCompany: take a whole record and overwrite its id, where the source takes the record without an id; the spread gives the same result.
- Repository.Store.constructor, DataManagement.DataManager.constructor: take the texts of the seeded issues as a parameter rather than fixing them to `Issues.SeedText`, which holds the source's texts. No operation's behaviour depends on those texts, and the seed lemmas hold for every choice of them.
- Aliasing: the stores are values, so "returns the live array" is modelled as returning the current field value. A caller that mutates a returned array is not modelled.
- `getIssuesForStory` and the story getters take the issue or story list as a parameter, as the source's `getIssuesForStory` does for issues.
- DataFetching.FetchState.Resolve, DataFetching.FetchState.Reject: overlapping fetches (a second `refetch` before the first settles) are modelled only as steps in some order; `FetchData` covers one fetch that is not interleaved with another.
- The effect that fetches on mount (`initialFetch`) and React's scheduling of state updates are left out; every state update here takes effect at once.
- `JsValue` describes a value by its shape only. Numbers are integers, and an object is its own enumerable keys. This is all the emptiness test looks at.
- The markdown bodies of the corroboration items are opaque tokens numbered by their position in their table, not their text.
- The issue and story seed texts are kept in `Issues.SeedText` and `Stories.SeedStoryText`, and the seed lemmas quantify over every text, because the facts they state do not depend on the texts.
- The duplicate seed data of `mockData.ts`, the profile page's copy of `toggleExpand`, the single-item accordion toggle, the story-title map written during rendering, the timer-driven check simulation and the mock API delays are not part of this model.
