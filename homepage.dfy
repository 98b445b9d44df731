/**
 * The home page's state (app/page.tsx): the active category, the ids of
 * the expanded issue cards, the page's own copy of the issues, the action
 * recorded per issue and the open dropdown. Expanding a card, changing an
 * issue's state and acting on an issue replace these cells with new
 * values computed by the functions below.
 */
module HomePage {
  import opened Wrappers
  import opened Types
  import opened ArrayOps
  import opened DataManagement
  import Issues

  /** `toggleExpand`'s new list: every occurrence of a present id removed, an absent id appended. */
  function Toggle(expanded: seq<int>, issueId: int): (r: seq<int>)
    ensures issueId in expanded ==> forall x :: x in r <==> x in expanded && x != issueId
    ensures issueId in expanded ==> forall x :: x in expanded ==>
      multiset(r)[x] == if x == issueId then 0 else multiset(expanded)[x]
    ensures issueId in expanded ==> IsSubsequence(r, expanded)
    ensures issueId !in expanded ==> r == expanded + [issueId]
  {
    if issueId in expanded then
      FilterMultiset(expanded, (x: int) => x != issueId);
      FilterSubsequence(expanded, (x: int) => x != issueId);
      Filter(expanded, (x: int) => x != issueId)
    else expanded + [issueId]
  }

  /** Toggling keeps the list free of duplicates. */
  lemma ToggleKeepsNoDuplicates(expanded: seq<int>, issueId: int)
    requires NoDuplicates(expanded)
    ensures NoDuplicates(Toggle(expanded, issueId))
  {
    if issueId in expanded {
      FilterKeepsNoDuplicates(expanded, (x: int) => x != issueId);
    }
  }

  /** Expanding a collapsed card and collapsing it again restores the list. */
  lemma ToggleTwiceRestores(expanded: seq<int>, issueId: int)
    requires issueId !in expanded
    ensures Toggle(Toggle(expanded, issueId), issueId) == expanded
  {
    var p := (x: int) => x != issueId;
    assert issueId in expanded + [issueId];
    FilterConcat(expanded, [issueId], p);
    FilterAllOrNone(expanded, p);
    FilterAllOrNone([issueId], p);
  }

  /** One issue after `updateIssueState`: the new state if the id matches, unchanged otherwise. */
  function WithStateIf(issue: Issue, issueId: int, newState: IssueState): Issue {
    if issue.id == issueId then issue.(state := newState) else issue
  }

  /**
   * `updateIssueState`'s new list: the issues with the id get
   * `newState`, nothing else about any issue changes.
   */
  function SetState(issues: seq<Issue>, issueId: int, newState: IssueState): (r: seq<Issue>)
    ensures |r| == |issues|
    ensures forall k :: 0 <= k < |r| ==> r[k].state == if issues[k].id == issueId then newState else issues[k].state
    ensures forall k :: 0 <= k < |r| ==> r[k].(state := issues[k].state) == issues[k]
  {
    seq(|issues|, k requires 0 <= k < |issues| => WithStateIf(issues[k], issueId, newState))
  }

  /** Setting a state twice is setting it once. */
  lemma SetStateIdempotent(issues: seq<Issue>, issueId: int, newState: IssueState)
    ensures SetState(SetState(issues, issueId, newState), issueId, newState) == SetState(issues, issueId, newState)
  {
    var once := SetState(issues, issueId, newState);
    var twice := SetState(once, issueId, newState);
    forall k | 0 <= k < |issues| ensures twice[k] == once[k] {
      assert once[k].id == issues[k].id;
    }
  }

  /** `SetState` works element by element. */
  lemma SetStateCons(x: Issue, s: seq<Issue>, issueId: int, newState: IssueState)
    ensures SetState([x] + s, issueId, newState) == [WithStateIf(x, issueId, newState)] + SetState(s, issueId, newState)
  {
  }

  /** Setting a state does not change which issues are in a category, so it commutes with the category filter. */
  lemma {:induction false} SetStateCommutesWithCategory(issues: seq<Issue>, issueId: int, newState: IssueState, category: string)
    ensures Filter(SetState(issues, issueId, newState), InCategory(category))
         == SetState(Filter(issues, InCategory(category)), issueId, newState)
  {
    if issues != [] {
      var p := InCategory(category);
      var x, t := issues[0], issues[1..];
      var y := WithStateIf(x, issueId, newState);
      assert issues == [x] + t;
      SetStateCons(x, t, issueId, newState);
      FilterCons(y, SetState(t, issueId, newState), p);
      FilterCons(x, t, p);
      SetStateCommutesWithCategory(t, issueId, newState, category);
      SetStateCons(x, Filter(t, p), issueId, newState);
      assert p(y) == p(x);
    }
  }

  /** The state an action moves an issue to: 'approve' solves it, 'reject' dismisses it, others do nothing. */
  function ActionState(action: string): (r: Option<IssueState>)
    ensures r == Some(Solved) <==> action == "approve"
    ensures r == Some(Dismissed) <==> action == "reject"
    ensures r.None? <==> action != "approve" && action != "reject"
  {
    if action == "approve" then Some(Solved)
    else if action == "reject" then Some(Dismissed)
    else None
  }

  /** Clicking the standard Approve button solves the issue and clicking Reject dismisses it. */
  lemma StandardActionsEffect(m: DataManager, issueId: int)
    ensures var actions := m.GetStandardIssueActions();
      && Click(actions[0], issueId).0 == issueId && ActionState(Click(actions[0], issueId).1) == Some(Solved)
      && Click(actions[1], issueId).0 == issueId && ActionState(Click(actions[1], issueId).1) == Some(Dismissed)
  {
  }

  class Home {
    var activeCategory: string
    var expandedIssues: seq<int>
    var issues: seq<Issue>
    var actionStatuses: map<int, string>
    var activeDropdownId: Option<int>

    /** The page starts on SOW with the first issue expanded, the issues of the data manager, and no actions. */
    constructor (managerIssues: seq<Issue>)
      ensures activeCategory == "SOW" && expandedIssues == [1] && issues == managerIssues
      ensures actionStatuses == map[] && activeDropdownId == None
    {
      activeCategory := "SOW";
      expandedIssues := [1];
      issues := managerIssues;
      actionStatuses := map[];
      activeDropdownId := None;
    }

    /**
     * The issues handed to the issue list: exactly the page's issues of the
     * active category, each as often as it occurs, in the page's order.
     */
    function ListedIssues(): (r: seq<Issue>)
      reads this
      ensures forall x :: x in r <==> x in issues && CategoryCode(x.category) == activeCategory
      ensures forall x :: x in issues ==>
        multiset(r)[x] == if CategoryCode(x.category) == activeCategory then multiset(issues)[x] else 0
      ensures IsSubsequence(r, issues)
    {
      Issues.GetIssuesByCategory(issues, activeCategory)
    }

    /** A click on a category tab. */
    method SelectCategory(category: string)
      modifies this`activeCategory
      ensures activeCategory == category
    {
      activeCategory := category;
    }

    method ToggleExpand(issueId: int)
      modifies this`expandedIssues
      ensures expandedIssues == Toggle(old(expandedIssues), issueId)
      ensures NoDuplicates(old(expandedIssues)) ==> NoDuplicates(expandedIssues)
    {
      expandedIssues := Toggle(expandedIssues, issueId);
      if NoDuplicates(old(expandedIssues)) {
        ToggleKeepsNoDuplicates(old(expandedIssues), issueId);
      }
    }

    method UpdateIssueState(issueId: int, newState: IssueState)
      modifies this`issues
      ensures issues == SetState(old(issues), issueId, newState)
    {
      issues := SetState(issues, issueId, newState);
    }

    /**
     * `handleIssueAction`: records the action for the issue, moves the
     * issue to the action's state if the action has one, and closes the
     * dropdown.
     */
    method HandleIssueAction(issueId: int, action: string)
      modifies this`actionStatuses, this`issues, this`activeDropdownId
      ensures actionStatuses == old(actionStatuses)[issueId := action]
      ensures ActionState(action).Some? ==> issues == SetState(old(issues), issueId, ActionState(action).value)
      ensures ActionState(action).None? ==> issues == old(issues)
      ensures activeDropdownId == None
    {
      actionStatuses := actionStatuses[issueId := action];
      if action == "approve" {
        UpdateIssueState(issueId, Solved);
      } else if action == "reject" {
        UpdateIssueState(issueId, Dismissed);
      }
      activeDropdownId := None;
    }
  }
}
