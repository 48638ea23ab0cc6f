# Burotel booking and door-access reconciliation, in Dafny

This project models the reconciliation tasks of the Burotel plugin
(`burotel/indico_burotel/tasks.py`): the daily sweep that cancels pending
desk bookings nobody confirmed within three working days and warns about
those at two, and the task that grants or revokes door access in the ADaMS
access-control service when a booking's state changes. It also models the
resolution of a user's CERN person id behind each ADaMS request.

Modules, one per concern:

- `Wrappers` (`wrappers.dfy`): `Option`.
- `Calendar` (`calendar.dfy`): timestamps as whole seconds since 1970-01-01
  00:00 UTC (a Thursday), days of the week numbered as PostgreSQL's `dow`
  (0 Sunday, 6 Saturday), and `WorkingDays`, the count of the one-day series
  from the booking's start up to now without Saturdays and Sundays.
- `Identity` (`identity.dfy`): `_find_person_id`. `Resolve` is the fallback
  chain on values. `FindPersonId` is the imperative version. It overwrites the
  fields of a mutable `IdentityRecord` and loops over the search results. The
  identity provider's refresh and search are function-valued parameters.
- `Bookings` (`bookings.dfy`): bookings, rooms, edit-log entries, the
  selection predicate `Stale` and the query `StaleIndices`.
- `Adams` (`adams.dfy`): `_adams_request`. It covers the method choice, the
  room segment, the request record, the classification of what the HTTP
  client reports, and the method `AdamsRequest`. The transport is a
  function-valued parameter.
- `Tasks` (`tasks.dfy`): a `Store` class holding the session's bookings, the
  last committed snapshot and the dispatched notifications. It has the sweep
  `AutoCancelBookings`, built from its two phases `CancelStale` and
  `WarnStale`, and the access update `UpdateAccessPermissions`, driven by
  the pure `Plan` and the request loop `RunSteps`.

Behaviour of the code worth knowing:

- The staleness count includes the start point itself. A Monday 09:00
  booking already counts 4 at Thursday 09:00
  (`Calendar.MondayToThursdaySameHour`). At the 08:00 sweep
  (burotel/indico_burotel/tasks.py:132) it counts 3 on Thursday and 4 on
  Friday (`Calendar.MondayToThursday`, `Calendar.MondayToFriday`). A Friday
  09:00 booking counts 1 at the Monday 08:00 sweep (`Calendar.FridayToMonday`).
- In the access update, a missing person id, an error status (400 to 599) and
  an unexpected status do not stop the task. The edit-log entry for that step
  is still appended and committed. A timeout (Retry) stops the remaining steps
  and the commit. So does a request error without a response: in the code,
  logging it reads `e.response.status_code` on `None`, and that error escapes
  before the edit-log entry and the commit. The model does not capture this
  last case (see "## Left out").
- `raise_for_status` raises for statuses 400 to 599. So those go down the
  logged request-error path. The "unexpected status" path only sees the
  other non-200 statuses.

## Model

| member | source | states |
|---|---|---|
| `Calendar.WorkingDaysCountsPoints` | burotel/indico_burotel/tasks.py:69-79 | The working-day count equals the number of points start + k days (k >= 0) not after now that fall on neither Saturday nor Sunday. The start itself is included, and the count is 0 when start > now. |
| `Calendar.WorkingDays` | burotel/indico_burotel/tasks.py:69-79 | The working-day count of the one-day series from the start up to now. It carries no contract of its own: `Calendar.WorkingDaysCountsPoints`, `Calendar.WorkingDaysMonotone`, `Calendar.FullWeek` and the worked examples characterise it. |
| `Bookings.NeedsConfirmation` | burotel/indico_burotel/tasks.py:87-92 | The room's `confirmation-by-secretariat` attribute is present and its value is `yes`. It is used by `Bookings.Stale` and characterised through `Bookings.StaleIndices`. |
| `Bookings.Stale` | burotel/indico_burotel/tasks.py:81-93 | The four-part selection predicate. `Bookings.StaleIndices` states that the query selects exactly the bookings satisfying it, and `Bookings.StaysStale` that it persists over time. |
| `Identity.Lookup` | burotel/indico_burotel/tasks.py:34-59 | Subscripting provider data with `cern_person_id`, with None where Python raises KeyError or TypeError. `Identity.FirstHit` and `Identity.Resolve` state its use in the fallback chain. |
| `Identity.Truthy` | burotel/indico_burotel/tasks.py:105 | Python truthiness of the person id: None, JSON null, false, 0 and the empty string are falsy. `Adams.BuildRequest` states that no request is made exactly for a falsy id. |
| `Adams.MethodFor` | burotel/indico_burotel/tasks.py:118 | DELETE for the action `cancel`, POST for any other. `Adams.BuildRequest` states the "iff". |
| `Tasks.CancelBooking` | burotel/indico_burotel/tasks.py:137-141 | A booking as the sweep leaves it: state cancelled and one edit-log entry by the system user appended. `Tasks.SweepCancelsExactlyTheCancelSet` states it. |
| `Tasks.AfterCancel` | burotel/indico_burotel/tasks.py:135-141 | The bookings after the cancellation phase. `Tasks.SweepCancelsExactlyTheCancelSet` and `Tasks.WarnSetAfterCancel` characterise it, and `Tasks.Store.AutoCancelBookings` ends in it. |
| `Calendar.Dow` | burotel/indico_burotel/tasks.py:79 | PostgreSQL's `extract('dow', …)`: the weekday (0 Sunday to 6 Saturday) of the UTC day holding the timestamp, counted from an epoch that falls on a Thursday. `Calendar.DowStep` states that one day later is the next weekday, and `Calendar.FullWeek` and the worked examples rest on it. |
| `Calendar.IsWorkingDay` | burotel/indico_burotel/tasks.py:79 | The `notin_({0, 6})` filter: the point falls on neither Sunday nor Saturday. `Calendar.WorkingDaysCountsPoints` and `Calendar.FullWeek` state what counting them gives. |
| `Calendar.DateOf` | burotel/indico_burotel/tasks.py:181-193 | `.date()` of a timestamp: the UTC day it falls in, rounded down. `Tasks.Plan` states where it is used: the dates of the `create` request and of a cancelled or rejected booking's `cancel`. |
| `Calendar.WorkingDaysMonotone` | burotel/indico_burotel/tasks.py:69-79 | A later now never gives a smaller count. |
| `Calendar.FullWeek` | burotel/indico_burotel/tasks.py:76-79 | Any seven consecutive points of the series hold exactly five working days, whatever weekday they start on. |
| `Calendar.FridayToMonday` | burotel/indico_burotel/tasks.py:69-79 | A Friday 09:00 booking at the Monday 08:00 sweep counts 1 working day. |
| `Calendar.MondayToThursday` | burotel/indico_burotel/tasks.py:69-79 | A Monday 09:00 booking at the Thursday 08:00 sweep counts 3, so it is not above the cancel threshold. |
| `Calendar.MondayToFriday` | burotel/indico_burotel/tasks.py:69-79 | The same booking at the Friday 08:00 sweep counts 4, so it is above the cancel threshold. |
| `Calendar.MondayToThursdaySameHour` | burotel/indico_burotel/tasks.py:69-79 | At Thursday 09:00 sharp the Monday 09:00 booking already counts 4, because its start day is counted. |
| `Bookings.StaleIndices` | burotel/indico_burotel/tasks.py:81-93 | The query result holds exactly the store positions of the bookings with these four properties: pending, ending after now, with a count above delta, and in a room whose `confirmation-by-secretariat` attribute is `yes`. Each position appears once, in store order. |
| `Bookings.CancelSetWithinWarnSet` | burotel/indico_burotel/tasks.py:135-147 | On the same bookings, every booking selected at threshold 3 is also selected at threshold 2. |
| `Bookings.StaysStale` | burotel/indico_burotel/tasks.py:81-93 | A booking selected at one moment is still selected at any later moment before it ends. |
| `Identity.FirstHit` | burotel/indico_burotel/tasks.py:55-59 | The search yields no id iff no result has one. Otherwise it yields the id of a result before which no result had one. |
| `Identity.Resolve` | burotel/indico_burotel/tasks.py:28-62 | A cached id is returned with no provider call. A refresh is made iff an identity exists without a cached id, and at most one refresh and one search are made; it is made with its identifier and current provider data, it overwrites data and provider data, and an id it yields is returned. The search is made with all e-mail addresses only when neither earlier step produced an id, and it comes last. None is returned iff all three steps fail. A missing identity (where Python raises AttributeError) goes straight to the search, with no refresh and no write-back. |
| `Identity.RefreshedIdIsCached` | burotel/indico_burotel/tasks.py:34-48 | After a refresh that produced an id, a second resolution returns the same id from the cache with no provider call. |
| `Identity.IdentityAfter` | burotel/indico_burotel/tasks.py:44-46 | The identity state after a run of resolutions: the one the last resolution left, or the starting state when none was made. `Identity.ResolutionsNext` and `Tasks.RunSteps` state its use. |
| `Identity.Resolutions` | burotel/indico_burotel/tasks.py:103 | `n` resolutions of the same user made one after the other, each starting from the identity state the previous one left, as the requests of one access update do. It holds exactly `n` resolutions. |
| `Identity.ResolutionsNext` | burotel/indico_burotel/tasks.py:103 | One more resolution, made from the state the run left, extends the run by exactly that resolution, and the run then leaves the state that resolution left. |
| `Identity.FindPersonId` | burotel/indico_burotel/tasks.py:28-62 | The imperative lookup returns the id and the provider calls of `Resolve`. It leaves the identity record in the state `Resolve` describes. |
| `Adams.RoomSegment` | burotel/indico_burotel/tasks.py:112 | The room segment has the room name's length. Every `-` becomes `/` and every other character is kept in place. |
| `Adams.RoomSegmentProperties` | burotel/indico_burotel/tasks.py:112 | No `-` is left in the segment, and a name without `-` is kept unchanged. |
| `Adams.BuildRequest` | burotel/indico_burotel/tasks.py:103-118 | No request is made iff the person id is falsy. Otherwise the method is DELETE iff the action is `cancel`. The request carries the action, the person id, the room segment and the two given dates. |
| `Adams.RaisesForStatus` | burotel/indico_burotel/tasks.py:119 | The statuses 400 to 599, for which `res.raise_for_status()` raises. `Adams.Classify` states that exactly these responses take the logged request-failure path. |
| `Adams.Classify` | burotel/indico_burotel/tasks.py:117-129 | A timeout and only a timeout raises Retry. Only status 200 is done. Another request error or a 400-599 status is a logged request failure. Any other status is a logged unexpected status. |
| `Adams.AdamsRequest` | burotel/indico_burotel/tasks.py:96-129 | Resolves the person id as `Resolve` does. Issues the request `BuildRequest` gives, if any. The outcome is "no person id" exactly when no request is issued; otherwise it is the classification of the transport's answer. |
| `Tasks.SweepCancelsExactlyTheCancelSet` | burotel/indico_burotel/tasks.py:135-142 | Every booking in the threshold-3 set ends cancelled with exactly one new edit-log entry by the system user, and nothing else about it changes. Every other booking is unchanged. |
| `Tasks.WarnSetAfterCancel` | burotel/indico_burotel/tasks.py:144-148 | After the cancellations are flushed, the threshold-2 query selects exactly the bookings that were stale at 2 but not at 3. So no booking cancelled in a pass is warned in it. |
| `Tasks.Notify` | burotel/indico_burotel/tasks.py:142-148 | The `notify_automatic_cancellation` and `notify_about_to_cancel` dispatches: one notice of the given kind per listed position, carrying that booking's id, in list order. `Tasks.NotifySnoc`, `Tasks.CancelStale`, `Tasks.WarnStale` and `Tasks.Store.AutoCancelBookings` state its use. |
| `Tasks.NotifySnoc` | burotel/indico_burotel/tasks.py:142-148 | Notifying about one more position appends exactly that booking's notice. |
| `Tasks.AfterCancelByIndices` | burotel/indico_burotel/tasks.py:135-141 | Cancelling exactly the bookings at the positions of the threshold-3 query, and leaving every other one as it was, gives `AfterCancel`. |
| `Tasks.CancelEach` | burotel/indico_burotel/tasks.py:135-142 | The cancellation loop over given positions: the bookings at those positions are cancelled, all others kept, and one automatic-cancellation notice per position is sent, in order. |
| `Tasks.CancelStale` | burotel/indico_burotel/tasks.py:135-142 | The cancellation phase: the bookings end as `AfterCancel` makes them, and the notices are those for the threshold-3 query's result, in its order. |
| `Tasks.WarnStale` | burotel/indico_burotel/tasks.py:147-148 | The warning phase: one about-to-cancel notice per booking of the threshold-2 query, in its order. |
| `Tasks.Store.AutoCancelBookings` | burotel/indico_burotel/tasks.py:133-149 | The sweep leaves the bookings as the cancellation of the threshold-3 set makes them. It appends one automatic-cancellation notice per cancelled booking, in order, then one about-to-cancel notice per booking of the threshold-2 query on the flushed state. It commits. |
| `Tasks.Plan` | burotel/indico_burotel/tasks.py:158-197 | A pending booking needs no request. An accepted one ends with a `create` for its current dates, preceded by a `cancel` for the old interval exactly when it was modified. A cancelled or rejected one gets one `cancel` for its dates. Only accepted bookings are granted access. |
| `Tasks.Logs` | burotel/indico_burotel/tasks.py:173-195 | The `ReservationEditLog(user_name="Burotel", …)` entries: one per step, attributed to Burotel, carrying that step's text, in step order. `Tasks.Store.UpdateAccessPermissions` states which of them are appended. |
| `Tasks.Issues` | burotel/indico_burotel/tasks.py:103-129 | What a step's call does: no request iff the outcome is "no person id"; otherwise the request has the step's method, action and dates and the room segment, and the outcome classifies the transport's answer. |
| `Tasks.Answered` | burotel/indico_burotel/tasks.py:105-129 | The outcome of a call is "no person id" iff no request was made, and otherwise the classification of the transport's answer to that request. |
| `Tasks.BuiltRequestIssues` | burotel/indico_burotel/tasks.py:103-129 | A request built for a step and answered as `Answered` says is issued as `Issues` says. |
| `Tasks.FollowsResolutions` | burotel/indico_burotel/tasks.py:172-190 | The requests made so far are those built from the person ids of the run of resolutions, and the identity record is the one that run leaves. `Tasks.FollowsResolutionsStep` states how it is kept. |
| `Tasks.BuiltFromSnoc` | burotel/indico_burotel/tasks.py:172-190 | Requests built from the person ids of a run, followed by one more built from the next resolution's id, are built from the extended run. |
| `Tasks.FollowsResolutionsStep` | burotel/indico_burotel/tasks.py:172-190 | One more call, made from the identity record a run left, keeps the requests following the run extended by that call's resolution. |
| `Tasks.Store.UpdateAccessPermissions` | burotel/indico_burotel/tasks.py:153-200 | Makes the plan's requests in order, each followed by its edit-log entry. Step j's request is the one `BuildRequest` gives for that step and the person id found by the j-th of the resolutions made one after the other (`Identity.Resolutions`), so a request is sent exactly when that id is truthy. The user's identity record ends as that run of resolutions leaves it. A Retry stops the rest, with no entry for that step and no commit. Otherwise all entries are appended and the task commits. When the plan is empty (a pending booking), the bookings, the committed snapshot and the user's identity record are unchanged and nothing is sent. Notifications are untouched. |
| `Tasks.RunSteps` | burotel/indico_burotel/tasks.py:172-190 | The request loop alone: one `_adams_request` per step, in order, until one ends in Retry; every step before the last one made did not. Each request is the one built from the person id of its own resolution in the run, each outcome is the classification of the transport's answer (or "no person id" when nothing was sent), and the identity record ends as the run leaves it. |

## Left out

- SQL and ORM mechanics are not modelled (`generate_series`, the JSONB cast, aliasing, joins, flush and transactions). The query is a filter over the store's bookings, evaluated as a per-booking count, as the code's comments describe it. A flush shows up only in that the warn query runs on the updated bookings.
- The `.one()` lookup of the `confirmation-by-secretariat` attribute is not modelled. In the code it raises when the attribute is not defined. The model assumes the attribute exists and reads each room's attributes as a map from names to JSON strings.
- Time zones are not modelled. Days of the week come from a UTC epoch with a fixed weekday, not from the database session's time zone.
- The query calls `now_utc()` more than once. The model uses one `now` for the count and the end-time comparison of both queries.
- `Reservation.cancel` is not part of this model. Its effect with `silent=True` is taken as setting the state to cancelled. Occurrence updates and the state-change signal are not modelled.
- Notification sending and logging are not modelled. Notifications are recorded as notices carrying the booking id. Log lines are not recorded. The outcome value names the logging path taken.
- The URL template, `str.format` and `isoformat` are left out, because the template is external configuration. A request is the record of the values the template is filled with. Basic auth and the 10-second timeout are also left out.
- The access to `e.response` on a request error that has no response is left out. In the code, that logging fails with AttributeError, which ends `update_access_permissions` before the step's edit-log entry and before the commit. The model records such an error as `RequestFailed(None)`, returns normally and goes on with the plan.
- Celery scheduling and the Retry exception harness are left out. Retry is an outcome value, and the task reports `RetryRaised`.
- Provider internals are left out, as is any exception from a refresh or a search. `user.get_identity` is a lookup by provider name.
- The identity record's write-back takes effect on the object immediately. The model does not tie it to the store's commit.
- In an access update, the model appends the steps' edit-log entries once the request loop has ended, rather than one after each request. The end state is the same, because a Retry stops before its step's entry and nothing is committed before the end.
- `Bookings.StaleIndices`: the query at burotel/indico_burotel/tasks.py:81-93 has no `order_by`, so in the code the cancel and warn notices come in whatever order the database returns. The model fixes store order, and every "in order" about the sweep's notices above means that order.
- The identity provider's refresh and search and the HTTP transport are pure functions, so the same call always gets the same answer. In a booking modification whose first refresh produced no id and the same provider data, the second step repeats that identical refresh and, in the model, gets the identical answer. A live provider or service need not do so.
- `conversion/indico_conversion/blueprint.py` is not part of this model. It only registers a URL rule.
