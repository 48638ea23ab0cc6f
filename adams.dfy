/**
 * One request to the ADaMS access-control service (`_adams_request` in
 * burotel/indico_burotel/tasks.py): no request without a person id, DELETE
 * for a cancellation and POST otherwise, the room name with `-` turned into
 * `/`, and the outcome decided by what the transport reports.
 */
module Adams {
  import opened Wrappers
  import opened Calendar
  import opened Identity
  import opened Bookings

  datatype HttpMethod = Delete | Post

  function MethodFor(action: string): HttpMethod {
    if action == "cancel" then Delete else Post
  }

  /** The room part of the service URL: every `-` of the room name replaced by `/`. */
  function RoomSegment(name: string): (r: string)
    ensures |r| == |name|
    ensures forall i :: 0 <= i < |name| ==> r[i] == if name[i] == '-' then '/' else name[i]
  {
    if name == [] then []
    else [if name[0] == '-' then '/' else name[0]] + RoomSegment(name[1..])
  }

  /** The room segment has no `-` left, and a name without `-` is kept as it is. */
  lemma RoomSegmentProperties(name: string)
    ensures '-' !in RoomSegment(name)
    ensures '-' !in name ==> RoomSegment(name) == name
  {
  }

  /** The fields the service URL is built from, and the HTTP method. */
  datatype Request = Request(verb: HttpMethod, action: string, personId: Value, room: string, start: When, end: When)

  /** The request `_adams_request` issues for a resolved person id, or None when it gives up first. */
  function BuildRequest(action: string, pid: Option<Value>, roomName: string, start: When, end: When): (r: Option<Request>)
    ensures r.None? <==> !Truthy(pid)
    ensures r.Some? ==> (r.value.verb == Delete <==> action == "cancel")
    ensures r.Some? ==> Some(r.value.personId) == pid && r.value.action == action &&
                        r.value.room == RoomSegment(roomName) && r.value.start == start && r.value.end == end
  {
    if !Truthy(pid) then None
    else Some(Request(MethodFor(action), action, pid.value, RoomSegment(roomName), start, end))
  }

  /** What the HTTP client reports: a timeout, another request error with no response, or a response. */
  datatype Transport = TimedOut | RequestError | Response(status: int)

  /**
   * How one call ends: no person id (no request made), Retry raised, a request
   * error logged (with the status when raise_for_status raised it), an
   * unexpected status logged, or done.
   */
  datatype Outcome = NoPersonId | Retry | RequestFailed(errorStatus: Option<int>) | UnexpectedStatus(status: int) | Done

  /** The statuses for which raise_for_status raises. */
  predicate RaisesForStatus(status: int) {
    400 <= status < 600
  }

  function Classify(t: Transport): (o: Outcome)
    ensures o == Retry <==> t == TimedOut
    ensures o == Done <==> t == Response(200)
    ensures o.RequestFailed? <==> t == RequestError || (t.Response? && RaisesForStatus(t.status))
    ensures o.UnexpectedStatus? <==> t.Response? && t.status != 200 && !RaisesForStatus(t.status)
    ensures o.RequestFailed? ==> o.errorStatus == if t.Response? then Some(t.status) else None
    ensures o.UnexpectedStatus? ==> o.status == t.status
    ensures o != NoPersonId
  {
    match t
    case TimedOut => Retry
    case RequestError => RequestFailed(None)
    case Response(status) =>
      if RaisesForStatus(status) then RequestFailed(Some(status))
      else if status == 200 then Done
      else UnexpectedStatus(status)
  }

  /**
   * `_adams_request`: resolves the user's person id (possibly refreshing the
   * identity), then issues at most one request through `send` and classifies
   * what came back.
   */
  method AdamsRequest(action: string, user: User, room: Room, start: When, end: When,
                      providerName: string, provider: Provider, send: Request -> Transport)
    returns (sent: Option<Request>, outcome: Outcome)
    modifies IdentityFrame(user, providerName)
    ensures var r := Resolve(old(Snapshot(user, providerName)), user.emails, provider);
            Snapshot(user, providerName) == r.identity &&
            sent == BuildRequest(action, r.personId, room.name, start, end)
    ensures sent.None? <==> outcome == NoPersonId
    ensures sent.Some? ==> outcome == Classify(send(sent.value))
  {
    var pid, _ := FindPersonId(user, providerName, provider);
    sent := BuildRequest(action, pid, room.name, start, end);
    if sent.None? {
      return sent, NoPersonId;
    }
    outcome := Classify(send(sent.value));
  }
}
