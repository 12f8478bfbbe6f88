/**
 * The summary figures and badge labels of components/dashboard-overview.tsx:
 * the rounded resolution rate, the most upvoted recent report (a `reduce`
 * without an initial value) and the translation keys the badges build from
 * a status, a priority and a chart category name.
 */
module DashboardOverview {
  import opened Wrappers
  import opened Strings
  import opened Problems
  import opened LanguageContext

  /** A row of the `recentProblems` list; `reportedAt` is relative text. */
  datatype RecentProblem = RecentProblem(
    id: int,
    title: string,
    location: string,
    status: Status,
    upvotes: int,
    reportedAt: string,
    priority: Priority)

  const RecentProblems: seq<RecentProblem> := [
    RecentProblem(1, "Large pothole on Main Street", "University Main Gate Road", Pending, 23, "2 hours ago", High),
    RecentProblem(2, "Broken streetlight", "Academic Block Parking", InProgress, 15, "4 hours ago", Medium),
    RecentProblem(3, "Overflowing garbage bin", "Hostel Block C Area", Resolved, 8, "1 day ago", Low),
    RecentProblem(4, "Water leak on residential street", "Dehmi-Kalan Village Road", Pending, 19, "3 hours ago", High)
  ]

  /** The category names of the `problemsByType` chart data. */
  const ChartTypeNames: seq<string> := ["Potholes", "Streetlights", "Garbage", "Water Issues", "Other"]

  const TotalProblems := 247
  const ResolvedProblems := 189

  /**
   * `Math.round(resolved / total * 100)` on exact rationals: the integer
   * nearest to the percentage, halves rounded up.
   */
  function ResolutionRate(resolved: nat, total: nat): (r: int)
    requires total > 0
    ensures 2 * total * r <= 200 * resolved + total < 2 * total * (r + 1)
    ensures resolved <= total ==> 0 <= r <= 100
  {
    var n := 200 * resolved + total;
    var q := n / (2 * total);
    RoundingBounds(n, 2 * total, q);
    RateAtMostHundred(resolved, total, q);
    q
  }

  /** The quotient of a Euclidean division lies between the two neighbouring multiples. */
  lemma RoundingBounds(n: nat, d: nat, q: int)
    requires d > 0 && q == n / d
    ensures d * q <= n < d * (q + 1)
    ensures 0 <= q
  {
    assert n == d * q + n % d;
  }

  /** A share of at most the whole never rounds above 100. */
  lemma RateAtMostHundred(resolved: nat, total: nat, q: int)
    requires total > 0 && 2 * total * q <= 200 * resolved + total
    ensures resolved <= total ==> q <= 100
  {
    if resolved <= total && q > 100 {
      assert false;
    }
  }

  /** Multiplying by a non-negative factor keeps the order. */
  lemma MulMonotone(d: int, a: int, b: int)
    requires d >= 0 && a <= b
    ensures d * a <= d * b
  {
    assert d * b - d * a == d * (b - a);
  }

  /** The rounded rate is the only integer whose half-open half-percent window holds the ratio. */
  lemma ResolutionRateUnique(resolved: nat, total: nat, r: int)
    requires total > 0
    requires 2 * total * r <= 200 * resolved + total < 2 * total * (r + 1)
    ensures r == ResolutionRate(resolved, total)
  {
    var q := ResolutionRate(resolved, total);
    var d := 2 * total;
    if r < q {
      MulMonotone(d, r + 1, q);
    } else if r > q {
      MulMonotone(d, q + 1, r);
    }
  }

  /** The dashboard shows 77% for 189 of 247 problems resolved. */
  lemma DashboardRate()
    ensures ResolutionRate(ResolvedProblems, TotalProblems) == 77
  {
    ResolutionRateUnique(ResolvedProblems, TotalProblems, 77);
  }

  /** `prev.upvotes > current.upvotes ? prev : current`: a tie goes to the later row. */
  function Pick(prev: RecentProblem, current: RecentProblem): (r: RecentProblem)
    ensures r == prev || r == current
    ensures r.upvotes >= prev.upvotes && r.upvotes >= current.upvotes
    ensures prev.upvotes == current.upvotes ==> r == current
  {
    if prev.upvotes > current.upvotes then prev else current
  }

  /** Row `i` has the most upvotes and every later row strictly fewer. */
  predicate IsLastMaximum(s: seq<RecentProblem>, i: int)
  {
    0 <= i < |s|
    && (forall j :: 0 <= j < |s| ==> s[j].upvotes <= s[i].upvotes)
    && (forall j :: i < j < |s| ==> s[j].upvotes < s[i].upvotes)
  }

  /** The left fold of `Pick` over a non-empty list, as `reduce` without an initial value computes it. */
  function ReduceMostUpvoted(s: seq<RecentProblem>): (r: RecentProblem)
    requires |s| > 0
    ensures exists i :: IsLastMaximum(s, i) && s[i] == r
  {
    if |s| == 1 then
      assert IsLastMaximum(s, 0);
      s[0]
    else
      var prev := ReduceMostUpvoted(s[..|s| - 1]);
      PickExtends(s, s[..|s| - 1], prev);
      Pick(prev, s[|s| - 1])
  }

  /** Folding in one more row keeps the last maximum: the row itself wins a tie. */
  lemma PickExtends(s: seq<RecentProblem>, init: seq<RecentProblem>, prev: RecentProblem)
    requires |s| > 1 && init == s[..|s| - 1]
    requires exists i :: IsLastMaximum(init, i) && init[i] == prev
    ensures exists i :: IsLastMaximum(s, i) && s[i] == Pick(prev, s[|s| - 1])
  {
    var i :| IsLastMaximum(init, i) && init[i] == prev;
    var last := |s| - 1;
    assert forall j :: 0 <= j < last ==> s[j] == init[j];
    if prev.upvotes > s[last].upvotes {
      assert IsLastMaximum(s, i);
    } else {
      assert IsLastMaximum(s, last);
    }
  }

  /** A row after the last maximum has fewer upvotes than it. */
  lemma LaterRowsHaveFewer(s: seq<RecentProblem>, i: int, k: int)
    requires IsLastMaximum(s, i) && i < k < |s|
    ensures s[k].upvotes < s[i].upvotes
  {
  }

  /** There is at most one last maximum. */
  lemma LastMaximumUnique(s: seq<RecentProblem>, i: int, k: int)
    requires IsLastMaximum(s, i) && IsLastMaximum(s, k)
    ensures i == k
  {
    if i < k {
      LaterRowsHaveFewer(s, i, k);
      assert false;
    } else if k < i {
      LaterRowsHaveFewer(s, k, i);
      assert false;
    }
  }

  /** `recentProblems.reduce(...)`: `None` is the TypeError thrown on an empty list. */
  function MostUpvoted(s: seq<RecentProblem>): (r: Option<RecentProblem>)
    ensures r.None? <==> s == []
    ensures r.Some? ==> exists i :: IsLastMaximum(s, i) && s[i] == r.value
  {
    if s == [] then None else Some(ReduceMostUpvoted(s))
  }

  /** The featured report is the 23-vote pothole. */
  lemma FeaturedProblem()
    ensures MostUpvoted(RecentProblems) == Some(RecentProblems[0])
  {
    var i :| IsLastMaximum(RecentProblems, i) && RecentProblems[i] == MostUpvoted(RecentProblems).value;
    assert IsLastMaximum(RecentProblems, 0);
    LastMaximumUnique(RecentProblems, i, 0);
  }

  /** The badge key as written: `status.${problem.status.replace("-", "")}`. */
  function StatusKeyAsWritten(status: string): string
  {
    "status." + RemoveFirst(status, '-')
  }

  /** The in-progress badge asks for "status.inprogress", which no table has: the raw key is shown. */
  lemma InProgressBadgeShowsKey(language: string, status: string)
    requires IsLanguage(language) && status == StatusName(InProgress)
    ensures StatusKeyAsWritten(status) == "status.inprogress"
    ensures FlatLookup(Tables, language, StatusKeyAsWritten(status)) == Some("status.inprogress")
  {
    InProgressKey(status);
    DerivedKeysMissing(language);
  }

  /** `"in-progress".replace("-", "")` */
  lemma InProgressKey(status: string)
    requires status == "in-progress"
    ensures StatusKeyAsWritten(status) == "status.inprogress"
  {
    RemoveFirstAt("in", '-', "progress");
    assert "in" + ['-'] + "progress" == status;
  }

  /** Neither key the dashboard derives with a lower-case second word is in any flat table. */
  lemma DerivedKeysMissing(language: string)
    requires IsLanguage(language)
    ensures "status.inprogress" !in Tables[language]
    ensures "problemType.waterissues" !in Tables[language]
  {
    if language == "en" {
      assert "status.inprogress" !in En && "problemType.waterissues" !in En;
    } else if language == "hi" {
      assert "status.inprogress" !in Hi && "problemType.waterissues" !in Hi;
    } else {
      assert "status.inprogress" !in Raj && "problemType.waterissues" !in Raj;
    }
  }

  /** The key the flat tables define for a status (camel case). */
  function StatusKey(s: Status): (key: string)
    ensures key == "status.pending" || key == "status.inProgress" || key == "status.resolved"
  {
    match s
    case Pending => "status.pending"
    case InProgress => "status.inProgress"
    case Resolved => "status.resolved"
  }

  /** The written key is right for the statuses without a hyphen. */
  lemma StatusKeyAgrees(s: Status, status: string)
    requires s != InProgress && status == StatusName(s)
    ensures StatusKeyAsWritten(status) == StatusKey(s)
  {
  }

  /** The status badge text. */
  function StatusLabel(language: string, s: Status): (r: Option<string>)
    ensures IsLanguage(language) ==> r.Some? && r.value != StatusKey(s)
  {
    assert IsLanguage(language) ==> StatusKey(s) in Tables[language];
    FlatLookup(Tables, language, StatusKey(s))
  }

  /** The priority badge key `priority.${priority}`. */
  function PriorityKey(p: Priority): string
  {
    "priority." + PriorityName(p)
  }

  /** Every priority badge resolves in every language. */
  lemma PriorityKeysResolve(language: string, p: Priority)
    requires IsLanguage(language)
    ensures PriorityKey(p) in Tables[language]
    ensures FlatLookup(Tables, language, PriorityKey(p)) == Some(Tables[language][PriorityKey(p)])
  {
    match p
    case Low => assert PriorityKey(p) == "priority.low";
    case Medium => assert PriorityKey(p) == "priority.medium";
    case High => assert PriorityKey(p) == "priority.high";
  }

  /** The "Top Problem Types" list key as written: `problemType.${name.toLowerCase().replace(" ", "")}`. */
  function TypeKeyAsWritten(name: string): string
  {
    "problemType." + RemoveFirst(Lower(name), ' ')
  }

  /** Removing the first space of a space-free name leaves it as it is. */
  lemma NoSpaceKept(lower: string)
    requires ' ' !in lower
    ensures RemoveFirst(lower, ' ') == lower
  {
  }

  /** The two "Top Problem Types" rows shown (`slice(0, 2)`) resolve in every language. */
  lemma ShownTypeKeysResolve(language: string, name: string)
    requires IsLanguage(language) && name in ChartTypeNames[..2]
    ensures TypeKeyAsWritten(name) in Tables[language]
  {
    assert ChartTypeNames[..2] == ["Potholes", "Streetlights"];
    if name == "Potholes" {
      PotholesKey(name);
    } else {
      StreetlightsKey(name);
    }
  }

  lemma PotholesKey(name: string)
    requires name == "Potholes"
    ensures TypeKeyAsWritten(name) == "problemType.potholes"
  {
    assert Lower(name) == "potholes";
    NoSpaceKept(Lower(name));
  }

  lemma StreetlightsKey(name: string)
    requires name == "Streetlights"
    ensures TypeKeyAsWritten(name) == "problemType.streetlights"
  {
    assert Lower(name) == "streetlights";
    NoSpaceKept(Lower(name));
  }

  /** `"Water Issues".toLowerCase().replace(" ", "")` */
  lemma WaterIssuesKey(name: string)
    requires name == "Water Issues"
    ensures TypeKeyAsWritten(name) == "problemType.waterissues"
  {
    assert Lower(name) == "water issues";
    WaterIssuesJoined(Lower(name));
  }

  lemma WaterIssuesJoined(lower: string)
    requires lower == "water issues"
    ensures RemoveFirst(lower, ' ') == "waterissues"
  {
    assert lower == "water" + [' '] + "issues";
    RemoveFirstAt("water", ' ', "issues");
  }

  /** Water issues would be looked up as "problemType.waterissues", which no table has. */
  lemma WaterIssuesKeyIsMissing(language: string, name: string)
    requires IsLanguage(language) && name == "Water Issues"
    ensures TypeKeyAsWritten(name) == "problemType.waterissues"
    ensures TypeKeyAsWritten(name) !in Tables[language]
  {
    WaterIssuesKey(name);
    DerivedKeysMissing(language);
  }
}
