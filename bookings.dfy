/**
 * Bookings, rooms and the staleness query (`_build_query` in
 * burotel/indico_burotel/tasks.py) as a filter over the store's bookings.
 */
module Bookings {
  import opened Calendar
  import opened Identity

  datatype State = Pending | Accepted | Cancelled | Rejected

  /** A room with its named attributes; values are the JSON strings stored for them. */
  datatype Room = Room(name: string, attributes: map<string, string>)

  /** Who an edit-log entry is attributed to. */
  datatype Author = SystemUser | Burotel

  /** What an edit-log entry records: its kind and the dates it names (the user's name and id in its text are not modelled). */
  datatype Entry =
    | CancelledAutomatically
    | CurrentAccessRemoved(start: When, end: When)
    | AccessGranted(start: When, end: When)
    | AccessRemoved(start: When, end: When)

  datatype EditLog = EditLog(author: Author, entry: Entry)

  datatype Booking = Booking(id: nat, room: Room, bookedFor: User, state: State,
                             start: Timestamp, end: Timestamp, log: seq<EditLog>)

  const ConfirmationAttribute: string := "confirmation-by-secretariat"
  const CancelThreshold: int := 3
  const WarnThreshold: int := 2

  predicate NeedsConfirmation(room: Room) {
    ConfirmationAttribute in room.attributes && room.attributes[ConfirmationAttribute] == "yes"
  }

  /** The query's selection predicate for threshold `delta`. */
  predicate Stale(b: Booking, now: Timestamp, delta: int) {
    b.state == Pending && b.end > now && WorkingDays(b.start, now) > delta && NeedsConfirmation(b.room)
  }

  /** The positions of the stale bookings, in store order. */
  function StaleIndices(bs: seq<Booking>, now: Timestamp, delta: int): (r: seq<nat>)
    ensures forall j :: 0 <= j < |r| ==> r[j] < |bs| && Stale(bs[r[j]], now, delta)
    ensures forall i :: 0 <= i < |bs| && Stale(bs[i], now, delta) ==> i in r
    ensures forall j, k :: 0 <= j < k < |r| ==> r[j] < r[k]
  {
    if bs == [] then []
    else
      var n := |bs| - 1;
      StaleIndices(bs[..n], now, delta) + (if Stale(bs[n], now, delta) then [n] else [])
  }

  /** The cancel set lies within the warn set computed over the same bookings. */
  lemma CancelSetWithinWarnSet(bs: seq<Booking>, now: Timestamp)
    ensures forall j :: 0 <= j < |StaleIndices(bs, now, CancelThreshold)| ==>
              StaleIndices(bs, now, CancelThreshold)[j] in StaleIndices(bs, now, WarnThreshold)
  {
  }

  /** A booking stale at one moment stays stale at any later moment before it ends. */
  lemma StaysStale(b: Booking, now1: Timestamp, now2: Timestamp, delta: int)
    requires Stale(b, now1, delta) && now1 <= now2 < b.end
    ensures Stale(b, now2, delta)
  {
    WorkingDaysMonotone(b.start, now1, now2);
  }
}
