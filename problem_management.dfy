/**
 * The problem table of components/problem-management.tsx: the filtered and
 * sorted view (`filteredAndSortedProblems`), the status update, the
 * sort-header state machine (`handleSort`), Clear Filters, and which status
 * button the details dialog offers.
 */
module ProblemManagement {
  import opened Wrappers
  import opened Strings
  import opened Sequences
  import opened StableSort
  import opened Problems
  import opened Auth


  datatype SortField = ByDate | ByUpvotes | ByStatus

  datatype SortOrder = Asc | Desc

  /** The search box and the three selects. */
  datatype Filters = Filters(searchTerm: string, statusFilter: string, typeFilter: string, priorityFilter: string)

  /** The sort header state `(sortBy, sortOrder)`. */
  datatype SortState = SortState(sortBy: SortField, sortOrder: SortOrder)

  /** The filters after Clear Filters, which are also the initial ones. */
  const Cleared := Filters("", All, All, All)

  /** The title or the location contains the search term, ignoring case. */
  predicate MatchesSearch(p: Problem, searchTerm: string)
  {
    Contains(Lower(p.title), Lower(searchTerm)) || Contains(Lower(p.location), Lower(searchTerm))
  }

  /** A select matches when it is "all" or equals the record's value. */
  predicate MatchesSelect(selected: string, value: string)
  {
    selected == All || value == selected
  }

  /** The filter callback: search, status, type and priority must all match. */
  predicate Matches(f: Filters, p: Problem)
  {
    && MatchesSearch(p, f.searchTerm)
    && MatchesSelect(f.statusFilter, StatusName(p.status))
    && MatchesSelect(f.typeFilter, TypeName(p.problemType))
    && MatchesSelect(f.priorityFilter, PriorityName(p.priority))
  }

  function Keep(f: Filters): Problem -> bool
  {
    p => Matches(f, p)
  }

  /** `statusOrder`: the lifecycle order, not the alphabetical one. */
  function StatusOrder(s: Status): (n: int)
    ensures 0 <= n <= 2
  {
    match s
    case Pending => 0
    case InProgress => 1
    case Resolved => 2
  }

  /** The number the comparator subtracts for a field. */
  function FieldKey(p: Problem, field: SortField): int
  {
    match field
    case ByDate => p.reportedAt
    case ByUpvotes => p.upvotes
    case ByStatus => StatusOrder(p.status)
  }

  /** The comparator passed to `filtered.sort`. */
  function Comparison(a: Problem, b: Problem, s: SortState): int
  {
    var comparison := FieldKey(a, s.sortBy) - FieldKey(b, s.sortBy);
    if s.sortOrder == Asc then comparison else -comparison
  }

  /** The key the comparator orders by ascending: the field's number, negated for descending. */
  function SortKey(s: SortState): Problem -> int
  {
    p => if s.sortOrder == Asc then FieldKey(p, s.sortBy) else -FieldKey(p, s.sortBy)
  }

  /** The comparator is the difference of the sort keys, so the sort is a stable sort by `SortKey`. */
  lemma ComparisonIsKeyDifference(a: Problem, b: Problem, s: SortState)
    ensures Comparison(a, b, s) == Compare(a, b, SortKey(s))
  {
  }

  /** The rows the table shows: the filtered records, stably sorted by the comparator. */
  function Visible(problems: seq<Problem>, f: Filters, s: SortState): seq<Problem>
  {
    Sort(Filter(problems, Keep(f)), SortKey(s))
  }

  /** `filteredAndSortedProblems`: filter into a new array, then sort it in place. */
  method FilteredAndSortedProblems(problems: seq<Problem>, f: Filters, s: SortState) returns (r: seq<Problem>)
    ensures r == Visible(problems, f, s)
  {
    var filtered := Filter(problems, Keep(f));
    var a := new Problem[|filtered|](i requires 0 <= i < |filtered| => filtered[i]);
    assert a[..] == filtered;
    SortInPlace(a, SortKey(s));
    r := a[..];
  }

  /** A record is shown iff it is one of `problems` and passes every filter; none is added. */
  lemma VisibleMembers(problems: seq<Problem>, f: Filters, s: SortState, p: Problem)
    ensures p in Visible(problems, f, s) <==> p in problems && Matches(f, p)
    ensures multiset(Visible(problems, f, s)) == multiset(Filter(problems, Keep(f)))
  {
    SortSorted(Filter(problems, Keep(f)), SortKey(s));
    FilterMembership(problems, Keep(f), p);
    assert p in Visible(problems, f, s) <==> p in multiset(Visible(problems, f, s));
  }

  /** The shown rows are a permutation of the order-preserving subsequence that passes the filter. */
  lemma VisibleIsPermutedSubsequence(problems: seq<Problem>, f: Filters, s: SortState)
    ensures IsSubsequence(Filter(problems, Keep(f)), problems)
    ensures multiset(Visible(problems, f, s)) == multiset(Filter(problems, Keep(f)))
    ensures forall p :: multiset(Visible(problems, f, s))[p] == if Matches(f, p) then multiset(problems)[p] else 0
  {
    FilterSpec(problems, Keep(f));
    SortSorted(Filter(problems, Keep(f)), SortKey(s));
  }

  /** Ascending output is non-decreasing in the field, descending output non-increasing. */
  lemma VisibleOrdered(problems: seq<Problem>, f: Filters, s: SortState)
    ensures forall i, j :: 0 <= i < j < |Visible(problems, f, s)| ==>
      if s.sortOrder == Asc
      then FieldKey(Visible(problems, f, s)[i], s.sortBy) <= FieldKey(Visible(problems, f, s)[j], s.sortBy)
      else FieldKey(Visible(problems, f, s)[i], s.sortBy) >= FieldKey(Visible(problems, f, s)[j], s.sortBy)
  {
    SortSorted(Filter(problems, Keep(f)), SortKey(s));
  }

  /** Accepts the records whose sort field has the number `v`. */
  function HasFieldKey(field: SortField, v: int): Problem -> bool
  {
    p => FieldKey(p, field) == v
  }

  /**
   * In both directions, the records that share a value of the sort field
   * appear in the order the filter left them in.
   */
  lemma VisibleStable(problems: seq<Problem>, f: Filters, s: SortState, v: int)
    ensures Filter(Visible(problems, f, s), HasFieldKey(s.sortBy, v))
         == Filter(Filter(problems, Keep(f)), HasFieldKey(s.sortBy, v))
  {
    var filtered := Filter(problems, Keep(f));
    var key := SortKey(s);
    var w := if s.sortOrder == Asc then v else -v;
    SortStable(filtered, key);
    assert Filter(Sort(filtered, key), HasKey(key, w)) == Filter(filtered, HasKey(key, w));
    SortSorted(filtered, key);
    FilterCongruent(Sort(filtered, key), HasKey(key, w), HasFieldKey(s.sortBy, v));
    FilterCongruent(filtered, HasKey(key, w), HasFieldKey(s.sortBy, v));
  }

  /**
   * The table's order is determined by the filter and the comparator alone:
   * any sorted arrangement that keeps equal keys in filter order, which
   * every stable sort produces, is the one shown.
   */
  lemma VisibleIsTheStableSort(problems: seq<Problem>, f: Filters, s: SortState, out: seq<Problem>)
    requires SortedBy(out, SortKey(s))
    requires KeepsOrderOfEqualKeys(out, Filter(problems, Keep(f)), SortKey(s))
    ensures out == Visible(problems, f, s)
  {
    SortUnique(Filter(problems, Keep(f)), out, SortKey(s));
  }

  /** An empty search term matches every record. */
  lemma EmptySearchMatchesAll(p: Problem)
    ensures MatchesSearch(p, "")
  {
    ContainsEmpty(Lower(p.title));
  }

  /** The search ignores case: an upper-cased term matches the same records. */
  lemma SearchIgnoresCase(p: Problem, term: string)
    ensures MatchesSearch(p, Upper(term)) == MatchesSearch(p, term)
    ensures MatchesSearch(p, Lower(term)) == MatchesSearch(p, term)
  {
    LowerAbsorbs(term);
  }

  /** With the filters cleared every record is shown, in some order. */
  lemma ClearedShowsAll(problems: seq<Problem>, s: SortState)
    ensures Filter(problems, Keep(Cleared)) == problems
    ensures multiset(Visible(problems, Cleared, s)) == multiset(problems)
  {
    forall k | 0 <= k < |problems| ensures Keep(Cleared)(problems[k]) {
      EmptySearchMatchesAll(problems[k]);
    }
    FilterKeepsAll(problems, Keep(Cleared));
    SortSorted(problems, SortKey(s));
  }

  /**
   * Sorting by status descending shows every resolved row before every
   * in-progress row and every in-progress row before every pending row,
   * for any records and filters.
   */
  lemma StatusDescending(problems: seq<Problem>, f: Filters)
    ensures var rows := Visible(problems, f, SortState(ByStatus, Desc));
      forall i, j :: 0 <= i < j < |rows| ==>
        && (rows[j].status == Resolved ==> rows[i].status == Resolved)
        && (rows[i].status == Pending ==> rows[j].status == Pending)
  {
    VisibleOrdered(problems, f, SortState(ByStatus, Desc));
  }

  /** The record `updateProblemStatus` writes: new status, `resolvedAt` set only for resolved. */
  function WithStatus(p: Problem, newStatus: Status, now: int): Problem
  {
    p.(status := newStatus, resolvedAt := if newStatus == Resolved then Some(now) else None)
  }

  /** `updateProblemStatus(problemId, newStatus)` applied to `prev`; `now` is the clock. */
  function UpdateProblemStatus(problems: seq<Problem>, problemId: string, newStatus: Status, now: int): (r: seq<Problem>)
    ensures |r| == |problems|
    ensures forall i :: 0 <= i < |r| ==> r[i].id == problems[i].id
    ensures forall i :: 0 <= i < |r| && problems[i].id != problemId ==> r[i] == problems[i]
    ensures forall i :: 0 <= i < |r| && problems[i].id == problemId ==>
      && r[i].status == newStatus
      && r[i].resolvedAt == (if newStatus == Resolved then Some(now) else None)
      && r[i] == problems[i].(status := r[i].status, resolvedAt := r[i].resolvedAt)
  {
    seq(|problems|, i requires 0 <= i < |problems| =>
      if problems[i].id == problemId then WithStatus(problems[i], newStatus, now) else problems[i])
  }

  /** An id that no record has changes nothing. */
  lemma UpdateUnknownId(problems: seq<Problem>, problemId: string, newStatus: Status, now: int)
    requires forall i :: 0 <= i < |problems| ==> problems[i].id != problemId
    ensures UpdateProblemStatus(problems, problemId, newStatus, now) == problems
  {
  }

  /** Updating twice with the same arguments is the same as updating once. */
  lemma UpdateIdempotent(problems: seq<Problem>, problemId: string, newStatus: Status, now: int)
    ensures UpdateProblemStatus(UpdateProblemStatus(problems, problemId, newStatus, now), problemId, newStatus, now)
         == UpdateProblemStatus(problems, problemId, newStatus, now)
  {
  }

  /**
   * With a clock that does not run behind any report, the update keeps every
   * record's `resolvedAt` set exactly when it is resolved.
   */
  lemma UpdateKeepsResolutionConsistent(problems: seq<Problem>, problemId: string, newStatus: Status, now: int)
    requires forall i :: 0 <= i < |problems| ==> ResolutionConsistent(problems[i])
    requires forall i :: 0 <= i < |problems| ==> problems[i].reportedAt <= now
    ensures forall i :: 0 <= i < |problems| ==>
      ResolutionConsistent(UpdateProblemStatus(problems, problemId, newStatus, now)[i])
  {
  }

  /** `handleSort(field)`: the same field flips the order, another field starts descending. */
  function HandleSort(current: SortState, field: SortField): (next: SortState)
    ensures next.sortBy == field
  {
    if current.sortBy == field then
      SortState(field, if current.sortOrder == Asc then Desc else Asc)
    else
      SortState(field, Desc)
  }

  /** Clicking the current field twice restores the state; a new field clicked twice ends ascending. */
  lemma HandleSortTwice(current: SortState, field: SortField)
    ensures current.sortBy == field ==> HandleSort(HandleSort(current, field), field) == current
    ensures current.sortBy != field ==> HandleSort(HandleSort(current, field), field) == SortState(field, Asc)
    ensures current.sortBy == field ==> HandleSort(current, field).sortOrder != current.sortOrder
    ensures current.sortBy != field ==> HandleSort(current, field).sortOrder == Desc
  {
  }

  /** `canUpdateStatus`: the signed-in user is municipal staff or an NGO. */
  predicate CanUpdateStatus(user: Option<User>)
  {
    user.Some? && (user.value.role == Municipal || user.value.role == Ngo)
  }

  /** Every role may update statuses, so the rule only excludes a signed-out visitor. */
  lemma CanUpdateStatusIffSignedIn(user: Option<User>)
    ensures CanUpdateStatus(user) <==> user.Some?
  {
  }

  /** The status the details dialog's one button moves a record to, when it shows one. */
  function StatusButton(user: Option<User>, current: Status): (next: Option<Status>)
    ensures next.Some? <==> CanUpdateStatus(user)
    ensures next.Some? ==> next.value != current
  {
    if !CanUpdateStatus(user) then None
    else match current
      case Pending => Some(InProgress)
      case InProgress => Some(Resolved)
      case Resolved => Some(Pending)
  }

  /** The three workflow edges: start work, mark resolved, reopen. */
  const WorkflowEdges: set<(Status, Status)> := {(Pending, InProgress), (InProgress, Resolved), (Resolved, Pending)}

  /** A button is offered exactly for the workflow edges, and only to a permitted user. */
  lemma StatusButtonFollowsWorkflow(user: Option<User>, from: Status, to: Status)
    ensures StatusButton(user, from) == Some(to) <==> CanUpdateStatus(user) && (from, to) in WorkflowEdges
    ensures StatusButton(user, Pending) != Some(Resolved)
  {
  }

  /** The component's state: the records, the filters and the sort header. */
  class ProblemManagementView {
    var problems: seq<Problem>
    var filters: Filters
    var sort: SortState

    /** The initial state: the records given, no filter, newest first. */
    constructor(initial: seq<Problem>)
      ensures problems == initial && filters == Cleared && sort == SortState(ByDate, Desc)
    {
      problems := initial;
      filters := Cleared;
      sort := SortState(ByDate, Desc);
    }

    /** The rows currently shown. */
    method Rows() returns (r: seq<Problem>)
      ensures r == Visible(problems, filters, sort)
    {
      r := FilteredAndSortedProblems(problems, filters, sort);
    }

    /** `updateProblemStatus`: only the records change. */
    method UpdateStatus(problemId: string, newStatus: Status, now: int)
      modifies this`problems
      ensures problems == UpdateProblemStatus(old(problems), problemId, newStatus, now)
    {
      problems := UpdateProblemStatus(problems, problemId, newStatus, now);
    }

    /** A click on a sortable column header. */
    method ClickSortHeader(field: SortField)
      modifies this`sort
      ensures sort == HandleSort(old(sort), field)
    {
      sort := HandleSort(sort, field);
    }

    /** The Clear Filters button: empty search, every select back to "all". */
    method ClearFilters()
      modifies this`filters
      ensures filters == Cleared
      ensures Filter(problems, Keep(filters)) == problems
    {
      filters := Cleared;
      ClearedShowsAll(problems, sort);
    }

    /**
     * The details dialog's button, clicked by `user` in the dialog opened on
     * `problem`, one of the rows shown. The dialog sends `problem.id`, and
     * its button depends on `problem.status`, which is the status every
     * record with that id has.
     */
    method ClickStatusButton(user: Option<User>, problem: Problem, now: int)
      requires problem in problems
      requires forall i :: 0 <= i < |problems| && problems[i].id == problem.id ==> problems[i].status == problem.status
      modifies this`problems
      ensures StatusButton(user, problem.status).None? ==> problems == old(problems)
      ensures StatusButton(user, problem.status).Some? ==>
        problems == UpdateProblemStatus(old(problems), problem.id, StatusButton(user, problem.status).value, now)
      ensures |problems| == |old(problems)|
      ensures forall i :: 0 <= i < |problems| && old(problems)[i].status != problems[i].status ==>
        (old(problems)[i].status, problems[i].status) in WorkflowEdges
      ensures CanUpdateStatus(user) ==>
        forall i :: 0 <= i < |problems| && old(problems)[i].id == problem.id ==> problems[i].status != old(problems)[i].status
    {
      var current := problem.status;
      var target := StatusButton(user, current);
      if target.Some? {
        UpdateStatus(problem.id, target.value, now);
        StatusButtonFollowsWorkflow(user, current, target.value);
      }
    }
  }
}
