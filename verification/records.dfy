/**
 * The two record types of the potty service, their enumerations, the request-argument
 * parsers that turn strings into enumeration members, and the status-change event that
 * is pushed to subscribers.
 */
module Records {
  import opened Wrappers

  /** Occupancy of a potty (the `Potty.Status` enumeration). */
  datatype Status = Occupied | Vacant

  /** Site of a potty (the `Potty.Location` enumeration). */
  datatype Location = North | South | East | West

  /** The string under which a status is stored and sent; its name and its value coincide. */
  function StatusName(s: Status): string
  {
    match s
    case Occupied => "OCCUPIED"
    case Vacant => "VACANT"
  }

  function LocationName(l: Location): string
  {
    match l
    case North => "NORTH"
    case South => "SOUTH"
    case East => "EAST"
    case West => "WEST"
  }

  /**
   * Converting a request value with the enumeration's constructor: it succeeds exactly
   * for the string that is some member's value, and yields that member.
   */
  function ParseStatus(s: string): (r: Option<Status>)
    ensures forall st :: r == Some(st) <==> StatusName(st) == s
  {
    if s == "OCCUPIED" then Some(Occupied)
    else if s == "VACANT" then Some(Vacant)
    else None
  }

  function ParseLocation(s: string): (r: Option<Location>)
    ensures forall l :: r == Some(l) <==> LocationName(l) == s
  {
    if s == "NORTH" then Some(North)
    else if s == "SOUTH" then Some(South)
    else if s == "EAST" then Some(East)
    else if s == "WEST" then Some(West)
    else None
  }

  /** A row of the `potty` table, without its key. Both columns are nullable. */
  datatype Potty = Potty(status: Option<Status>, location: Option<Location>)

  /** A row of the `subscriber` table, without its key. */
  datatype Subscriber = Subscriber(url: string)

  /** A record together with the primary key it is stored under. */
  datatype Stored<T> = Stored(id: int, record: T)

  /** The errors a request can end in: 404, 400, and an exception escaping the handler (500). */
  datatype Error = NotFound | BadRequest | ServerError

  datatype Outcome<+T> = Ok(value: T) | Err(error: Error)

  /**
   * An optional enumeration argument of a request: absent stays absent (`None`), a
   * member's value becomes that member, and anything else is refused with BadRequest.
   */
  function ParseOptionalStatus(arg: Option<string>): (r: Outcome<Option<Status>>)
    ensures arg.None? ==> r == Ok(None)
    ensures arg.Some? ==> (r.Ok? <==> ParseStatus(arg.value).Some?)
    ensures r.Ok? && arg.Some? ==> r.value.Some? && StatusName(r.value.value) == arg.value
    ensures r.Err? ==> r.error == BadRequest
  {
    match arg
    case None => Ok(None)
    case Some(s) => if ParseStatus(s).Some? then Ok(ParseStatus(s)) else Err(BadRequest)
  }

  function ParseOptionalLocation(arg: Option<string>): (r: Outcome<Option<Location>>)
    ensures arg.None? ==> r == Ok(None)
    ensures arg.Some? ==> (r.Ok? <==> ParseLocation(arg.value).Some?)
    ensures r.Ok? && arg.Some? ==> r.value.Some? && LocationName(r.value.value) == arg.value
    ensures r.Err? ==> r.error == BadRequest
  {
    match arg
    case None => Ok(None)
    case Some(s) => if ParseLocation(s).Some? then Ok(ParseLocation(s)) else Err(BadRequest)
  }

  /** The JSON body posted to a subscriber when a potty's status changes. */
  datatype Event = Event(id: int, oldStatus: string, currentStatus: string, location: string)

  /** One outbound delivery attempt: which subscriber, to which URL, with which body. */
  datatype Attempt = Attempt(subscriber: int, url: string, body: Event)

  /**
   * The dispatch guard: subscribers are notified only when the status really changed
   * and the subscriber table is not empty.
   */
  function Notifies(oldStatus: Option<Status>, newStatus: Option<Status>, subs: map<int, Subscriber>): (r: bool)
    ensures oldStatus == newStatus ==> !r
    ensures |subs| == 0 ==> !r
    ensures oldStatus != newStatus && |subs| > 0 ==> r
  {
    oldStatus != newStatus && subs != map[]
  }

  /**
   * The event for a potty `id` whose status went from `oldStatus` to `p.status`. Building
   * it reads the name of the old status, the new status and the location, so it fails
   * (`None`) when any of the three columns is null. When it succeeds, every field decodes
   * back to the value it was built from.
   */
  function ChangeEvent(id: int, oldStatus: Option<Status>, p: Potty): (r: Option<Event>)
    ensures r.Some? <==> oldStatus.Some? && p.status.Some? && p.location.Some?
    ensures r.Some? ==> r.value.id == id
    ensures r.Some? ==> ParseStatus(r.value.oldStatus) == oldStatus
    ensures r.Some? ==> ParseStatus(r.value.currentStatus) == p.status
    ensures r.Some? ==> ParseLocation(r.value.location) == p.location
  {
    match (oldStatus, p.status, p.location)
    case (Some(o), Some(c), Some(l)) => Some(Event(id, StatusName(o), StatusName(c), LocationName(l)))
    case _ => None
  }
}
