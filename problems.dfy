/**
 * The citizen-reported problem record shared by the problem table and the
 * map (the `Problem` interface of components/problem-management.tsx and
 * components/map-view.tsx). Timestamps are milliseconds since the epoch,
 * the value `new Date(...).getTime()` yields.
 */
module Problems {
  import opened Wrappers

  /** The value of a select that matches every record, on the problem table and the map. */
  const All := "all"

  datatype Status = Pending | InProgress | Resolved

  datatype ProblemType = Pothole | Streetlight | Garbage | Water | Other

  datatype Priority = Low | Medium | High

  datatype Coordinates = Coordinates(lat: real, lng: real)

  datatype CitizenComment = CitizenComment(id: string, author: string, comment: string, timestamp: int)

  datatype Problem = Problem(
    id: string,
    title: string,
    description: string,
    location: string,
    coordinates: Coordinates,
    problemType: ProblemType,
    status: Status,
    priority: Priority,
    upvotes: int,
    reportedAt: int,
    resolvedAt: Option<int>,
    citizenComments: seq<CitizenComment>,
    photos: seq<string>,
    reportedBy: string)

  /** The string a record stores in `status`, which the filters compare against. */
  function StatusName(s: Status): string
  {
    match s
    case Pending => "pending"
    case InProgress => "in-progress"
    case Resolved => "resolved"
  }

  /** The string a record stores in `type`. */
  function TypeName(t: ProblemType): string
  {
    match t
    case Pothole => "pothole"
    case Streetlight => "streetlight"
    case Garbage => "garbage"
    case Water => "water"
    case Other => "other"
  }

  /** The string a record stores in `priority`. */
  function PriorityName(p: Priority): string
  {
    match p
    case Low => "low"
    case Medium => "medium"
    case High => "high"
  }

  /** The stored names tell the values apart, and none of them is the wildcard "all". */
  lemma NamesDistinct()
    ensures forall a: Status, b: Status :: StatusName(a) == StatusName(b) ==> a == b
    ensures forall a: ProblemType, b: ProblemType :: TypeName(a) == TypeName(b) ==> a == b
    ensures forall a: Priority, b: Priority :: PriorityName(a) == PriorityName(b) ==> a == b
    ensures forall a: Status :: StatusName(a) != All
    ensures forall a: ProblemType :: TypeName(a) != All
    ensures forall a: Priority :: PriorityName(a) != All
  {
  }

  /** A record's `resolvedAt` is set exactly when it is resolved, and not before it was reported. */
  predicate ResolutionConsistent(p: Problem)
  {
    (p.resolvedAt.Some? <==> p.status == Resolved)
    && (p.resolvedAt.Some? ==> p.reportedAt <= p.resolvedAt.value)
  }
}
