/**
 * The two jobs of burotel/indico_burotel/tasks.py over an entity store: the
 * daily auto-cancel sweep and the access-permission update run when a
 * booking's state changes.
 */
module Tasks {
  import opened Wrappers
  import opened Calendar
  import opened Identity
  import opened Bookings
  import opened Adams

  datatype NoticeKind = AutomaticCancellation | AboutToCancel

  /** One notification dispatched about the booking with the given id. */
  datatype Notice = Notice(kind: NoticeKind, booking: nat)

  /** A booking as the sweep leaves it: cancelled silently, with one edit-log entry by the system user. */
  function CancelBooking(b: Booking): Booking {
    b.(state := Cancelled, log := b.log + [EditLog(SystemUser, CancelledAutomatically)])
  }

  /** The bookings after the cancellation phase of a sweep at `now`. */
  function AfterCancel(bs: seq<Booking>, now: Timestamp): seq<Booking> {
    seq(|bs|, i requires 0 <= i < |bs| => if Stale(bs[i], now, CancelThreshold) then CancelBooking(bs[i]) else bs[i])
  }

  /** The notices of one kind for the bookings at the given positions, in that order. */
  function Notify(kind: NoticeKind, bs: seq<Booking>, idx: seq<nat>): seq<Notice>
    requires forall j :: 0 <= j < |idx| ==> idx[j] < |bs|
  {
    seq(|idx|, j requires 0 <= j < |idx| => Notice(kind, bs[idx[j]].id))
  }

  /**
   * Every booking in the cancel set ends cancelled with exactly one new
   * edit-log entry; every other booking is left exactly as it was.
   */
  lemma SweepCancelsExactlyTheCancelSet(bs: seq<Booking>, now: Timestamp, i: nat)
    requires i < |bs|
    ensures |AfterCancel(bs, now)| == |bs|
    ensures i in StaleIndices(bs, now, CancelThreshold) ==>
              AfterCancel(bs, now)[i].state == Cancelled &&
              AfterCancel(bs, now)[i].log == bs[i].log + [EditLog(SystemUser, CancelledAutomatically)] &&
              AfterCancel(bs, now)[i].(state := bs[i].state, log := bs[i].log) == bs[i]
    ensures i !in StaleIndices(bs, now, CancelThreshold) ==> AfterCancel(bs, now)[i] == bs[i]
  {
  }

  /**
   * After the cancellations are flushed, the warn query selects exactly the
   * bookings that were stale at the warn threshold but not at the cancel
   * threshold: no booking cancelled in a pass is also warned in it.
   */
  lemma WarnSetAfterCancel(bs: seq<Booking>, now: Timestamp, i: nat)
    requires i < |bs|
    ensures i in StaleIndices(AfterCancel(bs, now), now, WarnThreshold) <==>
              Stale(bs[i], now, WarnThreshold) && !Stale(bs[i], now, CancelThreshold)
    ensures i in StaleIndices(bs, now, CancelThreshold) ==> i !in StaleIndices(AfterCancel(bs, now), now, WarnThreshold)
  {
  }

  /** Notifying about one more position appends its notice. */
  lemma NotifySnoc(kind: NoticeKind, bs: seq<Booking>, idx: seq<nat>, k: nat)
    requires forall j :: 0 <= j < |idx| ==> idx[j] < |bs|
    requires k < |bs|
    ensures Notify(kind, bs, idx + [k]) == Notify(kind, bs, idx) + [Notice(kind, bs[k].id)]
  {
  }

  /** Cancelling exactly the bookings at the positions of the cancel set gives `AfterCancel`. */
  lemma AfterCancelByIndices(bs: seq<Booking>, now: Timestamp, after: seq<Booking>)
    requires |after| == |bs|
    requires forall i :: 0 <= i < |bs| ==>
               after[i] == if i in StaleIndices(bs, now, CancelThreshold) then CancelBooking(bs[i]) else bs[i]
    ensures after == AfterCancel(bs, now)
  {
    forall i | 0 <= i < |bs|
      ensures after[i] == AfterCancel(bs, now)[i]
    {
      assert i in StaleIndices(bs, now, CancelThreshold) <==> Stale(bs[i], now, CancelThreshold);
    }
  }

  /**
   * Cancels the bookings at the positions `cancel`, in order, with one
   * notice each.
   */
  method CancelEach(bs: seq<Booking>, cancel: seq<nat>) returns (after: seq<Booking>, sent: seq<Notice>)
    requires forall j :: 0 <= j < |cancel| ==> cancel[j] < |bs|
    requires forall j, k :: 0 <= j < k < |cancel| ==> cancel[j] < cancel[k]
    ensures |after| == |bs|
    ensures forall i :: 0 <= i < |bs| ==> after[i] == if i in cancel then CancelBooking(bs[i]) else bs[i]
    ensures sent == Notify(AutomaticCancellation, bs, cancel)
  {
    after, sent := bs, [];
    var j := 0;
    while j < |cancel|
      invariant 0 <= j <= |cancel|
      invariant |after| == |bs|
      invariant forall i :: 0 <= i < |bs| ==>
                  after[i] == if i in cancel[..j] then CancelBooking(bs[i]) else bs[i]
      invariant sent == Notify(AutomaticCancellation, bs, cancel[..j])
    {
      var i := cancel[j];
      assert i !in cancel[..j];
      after := after[i := CancelBooking(after[i])];
      sent := sent + [Notice(AutomaticCancellation, bs[i].id)];
      assert cancel[..j + 1] == cancel[..j] + [i];
      NotifySnoc(AutomaticCancellation, bs, cancel[..j], i);
      j := j + 1;
    }
    assert cancel[..j] == cancel;
  }

  /**
   * The cancellation phase of the sweep: the cancel set is read in full
   * first, then each of its bookings is cancelled and notified about, in
   * order.
   */
  method CancelStale(bs: seq<Booking>, now: Timestamp) returns (after: seq<Booking>, sent: seq<Notice>)
    ensures after == AfterCancel(bs, now)
    ensures sent == Notify(AutomaticCancellation, bs, StaleIndices(bs, now, CancelThreshold))
  {
    var cancel := StaleIndices(bs, now, CancelThreshold);
    after, sent := CancelEach(bs, cancel);
    AfterCancelByIndices(bs, now, after);
  }

  /** The warning phase of the sweep: one notice per booking of the warn set, in order. */
  method WarnStale(bs: seq<Booking>, now: Timestamp) returns (sent: seq<Notice>)
    ensures sent == Notify(AboutToCancel, bs, StaleIndices(bs, now, WarnThreshold))
  {
    var warn := StaleIndices(bs, now, WarnThreshold);
    sent := [];
    var j := 0;
    while j < |warn|
      invariant 0 <= j <= |warn|
      invariant sent == Notify(AboutToCancel, bs, warn[..j])
    {
      sent := sent + [Notice(AboutToCancel, bs[warn[j]].id)];
      assert warn[..j + 1] == warn[..j] + [warn[j]];
      NotifySnoc(AboutToCancel, bs, warn[..j], warn[j]);
      j := j + 1;
    }
    assert warn[..j] == warn;
  }

  /** The steps of an access-permission update: the request to make and the edit-log entry that follows it. */
  datatype Step = Step(action: string, start: When, end: When, entry: Entry)

  /** The requests `update_access_permissions` makes for a booking, in order. */
  function Plan(b: Booking, modifyDates: Option<(Timestamp, Timestamp)>): (p: seq<Step>)
    // a pending booking needs nothing
    ensures p == [] <==> b.state == Pending
    // an accepted booking ends with access granted for the dates of its current interval
    ensures b.state == Accepted ==>
              p[|p| - 1] == Step("create", DateOf(b.start), DateOf(b.end), AccessGranted(DateOf(b.start), DateOf(b.end)))
    // a modified accepted booking first loses its access for the old interval, exactly as given
    ensures b.state == Accepted ==> (|p| == 2 <==> modifyDates.Some?) && |p| <= 2
    ensures b.state == Accepted && modifyDates.Some? ==>
              var (oldStart, oldEnd) := modifyDates.value;
              p[0] == Step("cancel", At(oldStart), At(oldEnd), CurrentAccessRemoved(At(oldStart), At(oldEnd)))
    // a cancelled or rejected booking loses its access for the dates of its interval
    ensures b.state == Cancelled || b.state == Rejected ==>
              p == [Step("cancel", DateOf(b.start), DateOf(b.end), AccessRemoved(DateOf(b.start), DateOf(b.end)))]
    // only an accepted booking is ever granted access
    ensures (exists j :: 0 <= j < |p| && p[j].action == "create") <==> b.state == Accepted
  {
    var (start, end) := (DateOf(b.start), DateOf(b.end));
    match b.state
    case Accepted =>
      var grant := Step("create", start, end, AccessGranted(start, end));
      if modifyDates.Some? then
        var (oldStart, oldEnd) := modifyDates.value;
        [Step("cancel", At(oldStart), At(oldEnd), CurrentAccessRemoved(At(oldStart), At(oldEnd))), grant]
      else [grant]
    case Cancelled => [Step("cancel", start, end, AccessRemoved(start, end))]
    case Rejected => [Step("cancel", start, end, AccessRemoved(start, end))]
    case Pending => []
  }

  /** The edit-log entries the steps add, attributed to Burotel. */
  function Logs(steps: seq<Step>): seq<EditLog> {
    seq(|steps|, j requires 0 <= j < |steps| => EditLog(Burotel, steps[j].entry))
  }

  /** The request made for a step (if any) and its outcome agree with the step. */
  predicate Issues(step: Step, roomName: string, send: Request -> Transport, sent: Option<Request>, outcome: Outcome) {
    (sent.None? <==> outcome == NoPersonId) &&
    (sent.Some? ==>
       sent.value.verb == MethodFor(step.action) && sent.value.action == step.action &&
       sent.value.room == RoomSegment(roomName) && sent.value.start == step.start && sent.value.end == step.end &&
       outcome == Classify(send(sent.value)))
  }

  /** The outcome of a call agrees with the request made (if any) and what the transport answered. */
  predicate Answered(send: Request -> Transport, sent: Option<Request>, outcome: Outcome) {
    (sent.None? <==> outcome == NoPersonId) && (sent.Some? ==> outcome == Classify(send(sent.value)))
  }

  /** A request built for a step, answered as `Answered` says, is issued as `Issues` says. */
  lemma BuiltRequestIssues(step: Step, roomName: string, send: Request -> Transport, pid: Option<Value>,
                           sent: Option<Request>, outcome: Outcome)
    requires sent == BuildRequest(step.action, pid, roomName, step.start, step.end)
    requires Answered(send, sent, outcome)
    ensures Issues(step, roomName, send, sent, outcome)
  {
  }

  /**
   * The requests `sent` for the first steps of `plan` are the ones built from
   * the person ids found by the run of resolutions starting at `s0`, and `now`
   * is the identity record that run leaves.
   */
  ghost predicate FollowsResolutions(s0: Option<IdentityState>, emails: set<string>, provider: Provider,
                                     plan: seq<Step>, roomName: string, sent: seq<Option<Request>>,
                                     now: Option<IdentityState>)
  {
    var rs := Resolutions(s0, emails, provider, |sent|);
    |sent| <= |plan| &&
    (forall j :: 0 <= j < |sent| ==>
       sent[j] == BuildRequest(plan[j].action, rs[j].personId, roomName, plan[j].start, plan[j].end)) &&
    now == IdentityAfter(s0, rs)
  }

  /** Requests built from the person ids of `rs`, extended by one more built from that of `r`. */
  lemma BuiltFromSnoc(plan: seq<Step>, roomName: string, sent: seq<Option<Request>>, rs: seq<Resolution>,
                      s: Option<Request>, r: Resolution)
    requires |sent| == |rs| < |plan|
    requires forall j :: 0 <= j < |sent| ==>
               sent[j] == BuildRequest(plan[j].action, rs[j].personId, roomName, plan[j].start, plan[j].end)
    requires s == BuildRequest(plan[|sent|].action, r.personId, roomName, plan[|sent|].start, plan[|sent|].end)
    ensures forall j :: 0 <= j < |sent| + 1 ==>
              (sent + [s])[j] == BuildRequest(plan[j].action, (rs + [r])[j].personId, roomName, plan[j].start, plan[j].end)
  {
    forall j | 0 <= j < |sent| + 1
      ensures (sent + [s])[j] == BuildRequest(plan[j].action, (rs + [r])[j].personId, roomName, plan[j].start, plan[j].end)
    {
      if j < |sent| {
        assert (rs + [r])[j] == rs[j];
      }
    }
  }

  /** One more call, made from the record the run left, extends the run by one resolution. */
  lemma FollowsResolutionsStep(s0: Option<IdentityState>, emails: set<string>, provider: Provider,
                               plan: seq<Step>, roomName: string, sent: seq<Option<Request>>,
                               now: Option<IdentityState>, s: Option<Request>, next: Option<IdentityState>)
    requires FollowsResolutions(s0, emails, provider, plan, roomName, sent, now)
    requires |sent| < |plan|
    requires var r := Resolve(now, emails, provider);
             var step := plan[|sent|];
             s == BuildRequest(step.action, r.personId, roomName, step.start, step.end) && next == r.identity
    ensures FollowsResolutions(s0, emails, provider, plan, roomName, sent + [s], next)
  {
    var rs, r := Resolutions(s0, emails, provider, |sent|), Resolve(now, emails, provider);
    ResolutionsNext(s0, emails, provider, |sent|, now);
    assert Resolutions(s0, emails, provider, |sent + [s]|) == rs + [r];
    BuiltFromSnoc(plan, roomName, sent, rs, s, r);
  }

  datatype TaskResult = NothingToDo | RetryRaised | Committed

  /**
   * The request loop of `update_access_permissions` over the steps `plan`
   * for a booking of `room` made for `user`: one call per step, in order,
   * until a call ends in Retry.
   */
  method RunSteps(user: User, room: Room, plan: seq<Step>, providerName: string, provider: Provider,
                  send: Request -> Transport)
    returns (sent: seq<Option<Request>>, outcomes: seq<Outcome>, retried: bool)
    modifies IdentityFrame(user, providerName)
    ensures |sent| == |outcomes| <= |plan|
    ensures forall j :: 0 <= j < |sent| ==> Answered(send, sent[j], outcomes[j])
    ensures forall j :: 0 <= j < |outcomes| - 1 ==> outcomes[j] != Retry
    ensures retried <==> |outcomes| > 0 && outcomes[|outcomes| - 1] == Retry
    ensures !retried ==> |outcomes| == |plan|
    // each step's request is the one built from the person id its own resolution found, and the
    // identity record ends as that run of resolutions leaves it
    ensures var s0 := old(Snapshot(user, providerName));
            var rs := Resolutions(s0, user.emails, provider, |sent|);
            (forall j :: 0 <= j < |sent| ==>
               sent[j] == BuildRequest(plan[j].action, rs[j].personId, room.name, plan[j].start, plan[j].end)) &&
            Snapshot(user, providerName) == IdentityAfter(s0, rs)
  {
    ghost var s0 := Snapshot(user, providerName);
    sent, outcomes := [], [];
    var k := 0;
    while k < |plan|
      invariant 0 <= k <= |plan|
      invariant |sent| == |outcomes| == k
      invariant forall j :: 0 <= j < k ==> Answered(send, sent[j], outcomes[j]) && outcomes[j] != Retry
      invariant FollowsResolutions(s0, user.emails, provider, plan, room.name, sent, Snapshot(user, providerName))
    {
      ghost var now := Snapshot(user, providerName);
      var s, o := AdamsRequest(plan[k].action, user, room, plan[k].start, plan[k].end, providerName, provider, send);
      FollowsResolutionsStep(s0, user.emails, provider, plan, room.name, sent, now, s, Snapshot(user, providerName));
      sent, outcomes := sent + [s], outcomes + [o];
      if o == Retry {
        break;
      }
      k := k + 1;
    }
    retried := |outcomes| > 0 && outcomes[|outcomes| - 1] == Retry;
  }

  /**
   * The store the jobs work on: `bookings` is the session's view, `persisted`
   * what the last commit wrote, and `notices` the notifications dispatched.
   */
  class Store {
    var bookings: seq<Booking>
    var persisted: seq<Booking>
    var notices: seq<Notice>

    constructor (bookings: seq<Booking>)
      ensures this.bookings == bookings && persisted == bookings && notices == []
    {
      this.bookings := bookings;
      persisted := bookings;
      notices := [];
    }

    /**
     * `auto_cancel_bookings`: cancel every booking of the cancel set (read in
     * full first) and notify about it, then query the warn set on the flushed
     * state, notify about each of its bookings, and commit.
     */
    method AutoCancelBookings(now: Timestamp)
      modifies this
      ensures bookings == AfterCancel(old(bookings), now)
      ensures notices == old(notices)
                         + Notify(AutomaticCancellation, old(bookings), StaleIndices(old(bookings), now, CancelThreshold))
                         + Notify(AboutToCancel, bookings, StaleIndices(bookings, now, WarnThreshold))
      ensures persisted == bookings
    {
      var after, cancelled := CancelStale(bookings, now);
      // flushed: the warn query sees the cancellations made above
      var warned := WarnStale(after, now);
      bookings, notices, persisted := after, notices + cancelled + warned, after;
    }

    /**
     * `update_access_permissions` for the booking at position `i`: one
     * request per step of the plan, each followed by its edit-log entry; a
     * timeout (Retry) aborts the rest and nothing is committed, otherwise the
     * task commits, unless the plan was empty.
     */
    method UpdateAccessPermissions(i: nat, modifyDates: Option<(Timestamp, Timestamp)>,
                                   providerName: string, provider: Provider, send: Request -> Transport)
      returns (sent: seq<Option<Request>>, outcomes: seq<Outcome>, result: TaskResult)
      requires i < |bookings|
      modifies this, IdentityFrame(bookings[i].bookedFor, providerName)
      ensures var b := old(bookings[i]);
              var plan := Plan(b, modifyDates);
              |sent| == |outcomes| <= |plan| &&
              (forall j :: 0 <= j < |sent| ==> Issues(plan[j], b.room.name, send, sent[j], outcomes[j])) &&
              (forall j :: 0 <= j < |outcomes| - 1 ==> outcomes[j] != Retry) &&
              (result == NothingToDo <==> plan == []) &&
              (result == RetryRaised <==> |outcomes| > 0 && outcomes[|outcomes| - 1] == Retry) &&
              (result == Committed ==> |outcomes| == |plan|) &&
              var done := if result == RetryRaised then |outcomes| - 1 else |outcomes|;
              bookings == old(bookings)[i := b.(log := b.log + Logs(plan[..done]))]
      ensures persisted == if result == Committed then bookings else old(persisted)
      // each step's request is the one built from the person id its own resolution found, and the
      // identity record ends as that run of resolutions leaves it (unchanged when there is no step)
      ensures var b := old(bookings[i]);
              var plan := Plan(b, modifyDates);
              var s0 := old(Snapshot(bookings[i].bookedFor, providerName));
              var rs := Resolutions(s0, b.bookedFor.emails, provider, |sent|);
              |sent| <= |plan| &&
              (forall j :: 0 <= j < |sent| ==>
                 sent[j] == BuildRequest(plan[j].action, rs[j].personId, b.room.name, plan[j].start, plan[j].end)) &&
              Snapshot(b.bookedFor, providerName) == IdentityAfter(s0, rs)
      ensures result == NothingToDo ==>
                Snapshot(old(bookings[i]).bookedFor, providerName) == old(Snapshot(bookings[i].bookedFor, providerName))
      ensures notices == old(notices)
    {
      var plan := Plan(bookings[i], modifyDates);
      if plan == [] {
        assert Logs(plan[..0]) == [] && bookings[i].(log := bookings[i].log + []) == bookings[i];
        return [], [], NothingToDo;
      }
      var b := bookings[i];
      ghost var s0 := Snapshot(b.bookedFor, providerName);
      var retried;
      sent, outcomes, retried := RunSteps(b.bookedFor, b.room, plan, providerName, provider, send);
      ghost var rs := Resolutions(s0, b.bookedFor.emails, provider, |sent|);
      forall j | 0 <= j < |sent|
        ensures Issues(plan[j], b.room.name, send, sent[j], outcomes[j])
      {
        BuiltRequestIssues(plan[j], b.room.name, send, rs[j].personId, sent[j], outcomes[j]);
      }
      // every step that did not end in Retry leaves its edit-log entry
      var done := if retried then |outcomes| - 1 else |outcomes|;
      bookings := bookings[i := b.(log := b.log + Logs(plan[..done]))];
      if retried {
        return sent, outcomes, RetryRaised;
      }
      persisted := bookings;
      result := Committed;
    }
  }
}
