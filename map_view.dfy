/**
 * The map page of components/map-view.tsx: the status/type filter that the
 * first effect recomputes, the marker colour rule, the popup status colour
 * and Clear Filters. Drawing the markers with Leaflet is not modelled.
 */
module MapView {
  import opened Sequences
  import opened Problems

  const Green := "#10b981"
  const Amber := "#f59e0b"
  const Red := "#ef4444"
  const Orange := "#f97316"
  const Gray := "#6b7280"

  /** The effect's filter callback: status and type must both match. */
  predicate Shown(statusFilter: string, typeFilter: string, p: Problem)
  {
    (statusFilter == All || StatusName(p.status) == statusFilter)
    && (typeFilter == All || TypeName(p.problemType) == typeFilter)
  }

  /** The list the effect stores in `filteredProblems`. */
  function MapFilter(problems: seq<Problem>, statusFilter: string, typeFilter: string): seq<Problem>
  {
    Filter(problems, p => Shown(statusFilter, typeFilter, p))
  }

  /** The filtered list keeps the records that match, each as often as before, in their order. */
  lemma MapFilterSpec(problems: seq<Problem>, statusFilter: string, typeFilter: string, p: Problem)
    ensures IsSubsequence(MapFilter(problems, statusFilter, typeFilter), problems)
    ensures p in MapFilter(problems, statusFilter, typeFilter) <==> p in problems && Shown(statusFilter, typeFilter, p)
    ensures multiset(MapFilter(problems, statusFilter, typeFilter))[p]
         == if Shown(statusFilter, typeFilter, p) then multiset(problems)[p] else 0
  {
    FilterSpec(problems, q => Shown(statusFilter, typeFilter, q));
    FilterMembership(problems, q => Shown(statusFilter, typeFilter, q), p);
  }

  /** With both selects at "all" the map shows every record, in order. */
  lemma MapFilterAllShowsAll(problems: seq<Problem>)
    ensures MapFilter(problems, All, All) == problems
  {
    FilterKeepsAll(problems, p => Shown(All, All, p));
  }

  /** `getMarkerColor`: status decides first, and only a pending record is coloured by priority. */
  function MarkerColor(status: Status, priority: Priority): (color: string)
    ensures status == Resolved ==> color == Green
    ensures status == InProgress ==> color == Amber
    ensures status == Pending ==> color == (match priority case High => Red case Medium => Orange case Low => Gray)
  {
    if status == Resolved then Green
    else if status == InProgress then Amber
    else if priority == High then Red
    else if priority == Medium then Orange
    else Gray
  }

  /** The five marker colours are different strings. */
  lemma ColorsDistinct()
    ensures Green != Amber && Green != Red && Green != Orange && Green != Gray
    ensures Amber != Red && Amber != Orange && Amber != Gray
    ensures Red != Orange && Red != Gray && Orange != Gray
  {
    assert Green[1] != Amber[1] && Green[1] != Red[1] && Green[1] != Orange[1] && Green[1] != Gray[1];
    assert Amber[1] != Red[1] && Amber[2] != Orange[2] && Amber[1] != Gray[1];
    assert Red[1] != Gray[1] && Orange[1] != Gray[1];
    assert Red[2] != Orange[2];
  }

  /** A marker's colour tells its status for green and amber, and its priority for a pending record. */
  lemma MarkerColorDecodes(status: Status, priority: Priority)
    ensures MarkerColor(status, priority) == Green <==> status == Resolved
    ensures MarkerColor(status, priority) == Amber <==> status == InProgress
    ensures MarkerColor(status, priority) == Red <==> status == Pending && priority == High
    ensures MarkerColor(status, priority) == Orange <==> status == Pending && priority == Medium
    ensures MarkerColor(status, priority) == Gray <==> status == Pending && priority == Low
  {
    ColorsDistinct();
  }

  /** The background of the popup's status badge. */
  function PopupStatusColor(status: Status): (color: string)
    ensures status == Resolved ==> color == Green
    ensures status == InProgress ==> color == Amber
    ensures status == Pending ==> color == Red
  {
    if status == Resolved then Green else if status == InProgress then Amber else Red
  }

  /** The popup badge repeats the marker's colour except for pending records of medium or low priority. */
  lemma PopupAgreesWithMarker(status: Status, priority: Priority)
    ensures PopupStatusColor(status) == MarkerColor(status, priority)
        <==> !(status == Pending && priority != High)
  {
    ColorsDistinct();
  }

  /** The page state: the records, the two selects and the list the effect derived from them. */
  class MapViewState {
    const problems: seq<Problem>
    var filteredProblems: seq<Problem>
    var statusFilter: string
    var typeFilter: string

    /** The filter effect has run for the current selects. */
    ghost predicate Valid()
      reads this
    {
      filteredProblems == MapFilter(problems, statusFilter, typeFilter)
    }

    /** `useState(mockProblems)` for both lists, both selects at "all". */
    constructor(initial: seq<Problem>)
      ensures Valid()
      ensures problems == initial && filteredProblems == initial
      ensures statusFilter == All && typeFilter == All
    {
      problems := initial;
      filteredProblems := initial;
      statusFilter := All;
      typeFilter := All;
      new;
      MapFilterAllShowsAll(initial);
    }

    /** The effect on `[problems, statusFilter, typeFilter]`. */
    method RunFilterEffect()
      modifies this`filteredProblems
      ensures Valid()
    {
      filteredProblems := MapFilter(problems, statusFilter, typeFilter);
    }

    /** The status select, followed by the effect. */
    method SetStatusFilter(value: string)
      modifies this`statusFilter, this`filteredProblems
      ensures statusFilter == value && typeFilter == old(typeFilter)
      ensures Valid()
    {
      statusFilter := value;
      RunFilterEffect();
    }

    /** The type select, followed by the effect. */
    method SetTypeFilter(value: string)
      modifies this`typeFilter, this`filteredProblems
      ensures typeFilter == value && statusFilter == old(statusFilter)
      ensures Valid()
    {
      typeFilter := value;
      RunFilterEffect();
    }

    /** Clear Filters: both selects back to "all"; the effect then shows every record. */
    method ClearFilters()
      modifies this`statusFilter, this`typeFilter, this`filteredProblems
      ensures statusFilter == All && typeFilter == All
      ensures Valid() && filteredProblems == problems
    {
      statusFilter := All;
      typeFilter := All;
      RunFilterEffect();
      MapFilterAllShowsAll(problems);
    }
  }
}
