/**
  The shared record types of the application: the `Issue` a citizen reports,
  with its enumerated category, priority and citizen-facing status, and the
  JSON names those enumerations travel under.
 */
module Types {

  datatype Option<T> = None | Some(value: T)

  /** A JavaScript truthiness test on an optional string: present and non-empty. */
  predicate Truthy(s: Option<string>)
  {
    s.Some? && s.value != ""
  }

  datatype Category = Infrastructure | Safety | Environment | Utilities | Other

  datatype Priority = Low | Medium | High | Urgent

  /** The citizen-facing status vocabulary. */
  datatype Status = Pending | InProgress | Resolved | Closed

  function CategoryName(c: Category): string
  {
    match c
    case Infrastructure => "infrastructure"
    case Safety => "safety"
    case Environment => "environment"
    case Utilities => "utilities"
    case Other => "other"
  }

  function StatusName(s: Status): string
  {
    match s
    case Pending => "pending"
    case InProgress => "in-progress"
    case Resolved => "resolved"
    case Closed => "closed"
  }

  /** Clock readings, in milliseconds. */
  type Timestamp = int

  datatype Coordinates = Coordinates(lat: real, lng: real)

  datatype Location = Location(address: string, coordinates: Option<Coordinates>)

  datatype Issue = Issue(
    id: string,
    title: string,
    description: string,
    category: Category,
    priority: Priority,
    status: Status,
    location: Location,
    images: Option<seq<string>>,
    citizenId: string,
    assignedTo: Option<string>,
    createdAt: Timestamp,
    updatedAt: Timestamp,
    resolvedAt: Option<Timestamp>
  )

  /** `issue.status === status` against a status name. */
  function StatusIs(status: string): Issue -> bool
  {
    (i: Issue) => StatusName(i.status) == status
  }

  /** `issue.category === category` against a category name. */
  function CategoryIs(category: string): Issue -> bool
  {
    (i: Issue) => CategoryName(i.category) == category
  }
}
