/**
 * The list rules of the issue list (IssueList.tsx): the label and colour
 * of a state, the state filter of the list, the sort of the 'all' view by
 * state (open, then solved, then dismissed) and the empty-list message.
 */
module IssueList {
  import opened Types
  import opened ArrayOps

  /** `getStateLabel`: the label of a state, 'Solve' for a string that is no state. */
  function GetStateLabel(state: string): (r: string)
    ensures state == "open" ==> r == "Open"
    ensures state == "solved" ==> r == "Solved"
    ensures state == "dismissed" ==> r == "Dismissed"
    ensures r == "Solve" <==> state != "open" && state != "solved" && state != "dismissed"
  {
    match state
    case "open" => "Open"
    case "solved" => "Solved"
    case "dismissed" => "Dismissed"
    case _ => "Solve"
  }

  /** `getStateColor`: open issues and strings that are no state share the purple. */
  function GetStateColor(state: string): (r: string)
    ensures state == "solved" ==> r == "#52c41a"
    ensures state == "dismissed" ==> r == "#ff4d4f"
    ensures r == "#722ed1" <==> state != "solved" && state != "dismissed"
  {
    match state
    case "open" => "#722ed1"
    case "solved" => "#52c41a"
    case "dismissed" => "#ff4d4f"
    case _ => "#722ed1"
  }

  /** The caption of an issue's state button: 'Solve' on an open issue, the state's label otherwise. */
  function ButtonCaption(state: IssueState): (r: string)
    ensures r == "Solve" <==> state == Open
    ensures state != Open ==> r == GetStateLabel(StateCode(state))
  {
    if state == Open then "Solve" else GetStateLabel(StateCode(state))
  }

  /** Every state has its own label and the button caption differs from the label only for open issues. */
  lemma LabelsOfStates(a: IssueState, b: IssueState)
    ensures GetStateLabel(StateCode(a)) == GetStateLabel(StateCode(b)) ==> a == b
    ensures ButtonCaption(a) != GetStateLabel(StateCode(a)) <==> a == Open
  {
  }

  /** The `activeState` of the list: 'all' or one state. */
  datatype View = All | OnlyState(state: IssueState)

  /** `stateOrder`: open 1, solved 2, dismissed 3. */
  function StateRank(i: Issue): int {
    match i.state
    case Open => 1
    case Solved => 2
    case Dismissed => 3
  }

  /** `displayedIssues`: all issues, or those in the chosen state. */
  function DisplayedIssues(issues: seq<Issue>, view: View): (r: seq<Issue>)
    ensures view.All? ==> r == issues
    ensures view.OnlyState? ==> forall x :: x in r <==> x in issues && x.state == view.state
  {
    match view
    case All => issues
    case OnlyState(s) =>
      FilterMultiset(issues, InState(s));
      Filter(issues, InState(s))
  }

  /** `sortedIssues`: the 'all' view sorted by state rank, a state's view as filtered. */
  function SortedIssues(issues: seq<Issue>, view: View): (r: seq<Issue>)
    ensures |r| <= |issues|
  {
    match view
    case All => SortByKey(issues, StateRank)
    case OnlyState(_) => DisplayedIssues(issues, view)
  }

  /** The 'all' view is a permutation of the issues, open before solved before dismissed. */
  lemma AllViewSorted(issues: seq<Issue>)
    ensures multiset(SortedIssues(issues, All)) == multiset(issues)
    ensures var r := SortedIssues(issues, All);
      forall i, j :: 0 <= i < j < |r| ==> StateRank(r[i]) <= StateRank(r[j])
  {
  }

  /** In the 'all' view no open issue follows a solved or dismissed one, and no solved one follows a dismissed one. */
  lemma AllViewGroupsStates(issues: seq<Issue>, i: nat, j: nat)
    requires i < j < |SortedIssues(issues, All)|
    ensures var r := SortedIssues(issues, All);
      && (r[j].state == Open ==> r[i].state == Open)
      && (r[j].state == Solved ==> r[i].state != Dismissed)
  {
    var r := SortedIssues(issues, All);
    assert StateRank(r[i]) <= StateRank(r[j]);
  }

  /** In the 'all' view the issues in one state keep their relative order. */
  lemma AllViewStable(issues: seq<Issue>, s: IssueState)
    ensures Filter(SortedIssues(issues, All), InState(s)) == Filter(issues, InState(s))
  {
    var k := match s case Open => 1 case Solved => 2 case Dismissed => 3;
    SortByKeyStable(issues, StateRank, k);
    SameTest(SortedIssues(issues, All), s, k);
    SameTest(issues, s, k);
  }

  /** Being in state `s` is having the rank of `s`. */
  lemma {:induction false} SameTest(issues: seq<Issue>, s: IssueState, k: int)
    requires k == match s case Open => 1 case Solved => 2 case Dismissed => 3
    ensures Filter(issues, InState(s)) == WithKey(issues, StateRank, k)
  {
    if issues != [] {
      SameTest(issues[1..], s, k);
      assert InState(s)(issues[0]) == (StateRank(issues[0]) == k);
      assert InState(s)(issues[0]) == KeyIs(StateRank, k)(issues[0]);
    }
  }

  /** A state's view is exactly the issues in that state, in stored order and unsorted. */
  lemma StateViewIsFilter(issues: seq<Issue>, s: IssueState)
    ensures SortedIssues(issues, OnlyState(s)) == Filter(issues, InState(s))
    ensures IsSubsequence(SortedIssues(issues, OnlyState(s)), issues)
  {
    FilterSubsequence(issues, InState(s));
  }

  /** What the list shows: the "No issues found" message, or the cards of the sorted issues. */
  datatype Rendering = NoIssuesFound | IssueCards(shown: seq<Issue>)

  /** The message depends on the issues handed in, not on what the view keeps of them. */
  function Render(issues: seq<Issue>, view: View): (r: Rendering)
    ensures r.NoIssuesFound? <==> |issues| == 0
    ensures r.IssueCards? ==> r.shown == SortedIssues(issues, view)
  {
    if |issues| == 0 then NoIssuesFound else IssueCards(SortedIssues(issues, view))
  }

  /** Issues none of which is in the chosen state give an empty list of cards, not the message. */
  lemma EmptyViewShowsNoMessage(issues: seq<Issue>, s: IssueState)
    requires |issues| > 0
    requires forall i :: 0 <= i < |issues| ==> issues[i].state != s
    ensures Render(issues, OnlyState(s)) == IssueCards([])
  {
    FilterAllOrNone(issues, InState(s));
  }
}
