/** The operator's booking table (src/app/admin/bookings/page.tsx): which
    buttons each row offers, and what a click writes. */
module AdminBookings {
  import opened Common
  import opened Bookings

  datatype BookingAction = Confirm | Complete | Cancel

  /** The buttons a row with this status shows, left to right. */
  function BookingActions(s: BookingStatus): (r: seq<BookingAction>)
    ensures |r| > 0 && r[|r| - 1] == Cancel
  {
    match s
    case Pending => [Confirm, Cancel]
    case Confirmed => [Complete, Cancel]
    case UserConfirmed => [Complete, Cancel]
    case Completed => [Cancel]
    case Cancelled => [Cancel]
  }

  /** The status a button writes; Cancel deletes the booking instead. */
  function ActionTarget(a: BookingAction): (r: Option<BookingStatus>)
    ensures r.None? <==> a == Cancel
    ensures r.Some? ==> (r.value == Confirmed <==> a == Confirm) && (r.value == Completed <==> a == Complete)
  {
    match a
    case Confirm => Some(Confirmed)
    case Complete => Some(Completed)
    case Cancel => None
  }

  /** The statuses a row with status `s` can be moved to from this page. */
  function StatusTargets(s: BookingStatus): set<BookingStatus> {
    set a | a in BookingActions(s) && ActionTarget(a).Some? :: ActionTarget(a).value
  }

  lemma PendingOffersOnlyConfirm()
    ensures BookingActions(Pending) == [Confirm, Cancel]
    ensures StatusTargets(Pending) == {Confirmed}
  {
    assert Confirm in BookingActions(Pending);
  }

  lemma ConfirmedOffersOnlyComplete(s: BookingStatus)
    requires s == Confirmed || s == UserConfirmed
    ensures BookingActions(s) == [Complete, Cancel]
    ensures StatusTargets(s) == {Completed}
  {
    assert Complete in BookingActions(s);
  }

  lemma FinishedOffersNoTransition(s: BookingStatus)
    requires s == Completed || s == Cancelled
    ensures BookingActions(s) == [Cancel]
    ensures StatusTargets(s) == {}
  {
  }

  /** Cancel, a delete, is offered whatever the status. */
  lemma CancelAlwaysOffered(s: BookingStatus)
    ensures Cancel in BookingActions(s)
    ensures ActionTarget(Cancel).None?
  {
  }

  /** Pending < Confirmed, User Confirmed < Completed (Cancelled is terminal). */
  function Stage(s: BookingStatus): nat {
    match s
    case Pending => 0
    case Confirmed => 1
    case UserConfirmed => 1
    case Completed => 2
    case Cancelled => 2
  }

  /** Every status a button writes is exactly one stage further on. */
  lemma ActionsMoveForward(s: BookingStatus, a: BookingAction)
    requires a in BookingActions(s) && ActionTarget(a).Some?
    ensures Stage(ActionTarget(a).value) == Stage(s) + 1
  {
  }

  /** Clicking the status buttons of `path` one after another takes a row
      from status `s` to status `t`. */
  predicate Walk(s: BookingStatus, path: seq<BookingAction>, t: BookingStatus)
    decreases |path|
  {
    if path == [] then t == s
    else path[0] in BookingActions(s) && ActionTarget(path[0]).Some? &&
         Walk(ActionTarget(path[0]).value, path[1..], t)
  }

  /** Every walk moves forward one stage per click, so no row takes more
      than two status changes from this page, and none ever reaches
      User Confirmed (the customer's step), Cancelled or Pending again. */
  lemma {:induction false} WalksMoveForward(s: BookingStatus, path: seq<BookingAction>, t: BookingStatus)
    requires Walk(s, path, t)
    ensures Stage(t) == Stage(s) + |path|
    ensures |path| <= 2
    ensures |path| > 0 ==> t == Confirmed || t == Completed
    decreases |path|
  {
    if path != [] {
      ActionsMoveForward(s, path[0]);
      WalksMoveForward(ActionTarget(path[0]).value, path[1..], t);
    }
  }

  /** `handleUpdateStatus`: passes the write straight to the store. */
  method HandleUpdateStatus(store: BookingStore, id: Id, status: BookingStatus)
    modifies store
    ensures id in old(store.bookings) ==>
      store.bookings == old(store.bookings)[id := old(store.bookings)[id].(status := status)]
    ensures id !in old(store.bookings) ==> store.bookings == old(store.bookings)
    ensures store.notifications ==
      old(store.notifications) + if id in old(store.bookings) then NoticesFor(id, status) else []
  {
    var _ := store.UpdateBookingStatus(id, status);
  }

  /** `handleDeleteBooking`: deletes only when the operator accepts the
      confirmation prompt (`confirmed`). */
  method HandleDeleteBooking(store: BookingStore, id: Id, confirmed: bool)
    modifies store
    ensures store.bookings == if confirmed then old(store.bookings) - {id} else old(store.bookings)
    ensures store.notifications == old(store.notifications)
  {
    if confirmed {
      store.DeleteBooking(id);
    }
  }

  /** A click on one of the buttons row `id` shows. */
  method ClickRowAction(store: BookingStore, id: Id, action: BookingAction, confirmed: bool)
    requires id in store.bookings && action in BookingActions(store.bookings[id].status)
    modifies store
    ensures action == Cancel ==>
      store.bookings == if confirmed then old(store.bookings) - {id} else old(store.bookings)
    ensures action != Cancel ==>
      id in store.bookings &&
      store.bookings == old(store.bookings)[id := old(store.bookings)[id].(status := ActionTarget(action).value)] &&
      Stage(store.bookings[id].status) == Stage(old(store.bookings)[id].status) + 1
    ensures store.notifications ==
      old(store.notifications) + if action == Confirm then NoticesFor(id, Confirmed) else []
  {
    match action
    case Cancel =>
      HandleDeleteBooking(store, id, confirmed);
    case _ =>
      ActionsMoveForward(store.bookings[id].status, action);
      HandleUpdateStatus(store, id, ActionTarget(action).value);
  }
}
