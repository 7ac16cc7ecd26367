/** A partner's dashboard (src/app/partner/dashboard/page.tsx): the bookings
    referred by the partner named in the `id` query parameter, newest first,
    with the referral count and the flat per-booking earnings. */
module PartnerDashboard {
  import opened Common
  import opened Bookings
  import opened BookingOrder

  /** The amount credited per completed referral. */
  const EarningsPerCompleted: nat := 100

  /** `allBookings.filter(booking => booking.partnerId === partnerId)`. */
  function PartnerBookings(all: seq<Booking>, pid: Id): (r: seq<Booking>)
    ensures |r| <= |all|
    ensures forall b | b in r :: b.partnerId == Some(pid)
    ensures forall b :: multiset(r)[b] == if b.partnerId == Some(pid) then multiset(all)[b] else 0
  {
    if all == [] then []
    else
      assert all == [all[0]] + all[1..];
      (if all[0].partnerId == Some(pid) then [all[0]] else []) + PartnerBookings(all[1..], pid)
  }

  /** `.filter(b => b.status === 'Completed').length`. */
  function CountCompleted(s: seq<Booking>): (n: nat)
    ensures n <= |s|
  {
    if s == [] then 0
    else (if s[0].status == Completed then 1 else 0) + CountCompleted(s[1..])
  }

  lemma {:induction false} InsertKeepsCompletedCount(x: Booking, s: seq<Booking>)
    ensures CountCompleted(Insert(x, s)) == CountCompleted(s) + (if x.status == Completed then 1 else 0)
  {
    if s != [] && CompareByDateDesc(x, s[0]) > 0 {
      InsertKeepsCompletedCount(x, s[1..]);
      assert Insert(x, s)[1..] == Insert(x, s[1..]);
    }
  }

  /** Sorting neither adds nor drops a completed booking. */
  lemma {:induction false} SortKeepsCompletedCount(s: seq<Booking>)
    ensures CountCompleted(SortByDateDesc(s)) == CountCompleted(s)
  {
    if s != [] {
      SortKeepsCompletedCount(s[1..]);
      InsertKeepsCompletedCount(s[0], SortByDateDesc(s[1..]));
    }
  }

  /** What the page shows. */
  datatype DashboardView =
    | AccessDenied
    | Showing(rows: seq<Booking>, totalReferrals: nat, totalEarnings: nat)

  /** The page for query parameter `idParam` once the bookings subscription
      has delivered `snapshot` (None before the first delivery). A missing or
      empty `id` denies access. */
  function Dashboard(idParam: Option<string>, snapshot: Option<seq<Booking>>): (r: DashboardView)
    ensures r.AccessDenied? <==> idParam.None? || idParam.value == ""
    ensures r.Showing? ==>
      r.totalReferrals == |r.rows| && r.totalEarnings == EarningsPerCompleted * CountCompleted(r.rows)
    ensures r.Showing? && snapshot.None? ==> r.rows == []
    ensures r.Showing? && snapshot.Some? ==>
      r.rows == SortByDateDesc(PartnerBookings(snapshot.value, idParam.value))
  {
    if idParam.None? || idParam.value == "" then AccessDenied
    else
      var rows := if snapshot.None? then [] else SortByDateDesc(PartnerBookings(snapshot.value, idParam.value));
      Showing(rows, |rows|, EarningsPerCompleted * CountCompleted(rows))
  }

  /** The rows are exactly the snapshot's bookings referred by this partner,
      each as often as it occurs, and their count is the referral total. */
  lemma RowsAreThePartnersBookings(pid: Id, snapshot: seq<Booking>, b: Booking)
    requires Dashboard(Some(pid), Some(snapshot)).Showing?
    ensures var v := Dashboard(Some(pid), Some(snapshot));
      multiset(v.rows)[b] == (if b.partnerId == Some(pid) then multiset(snapshot)[b] else 0) &&
      v.totalReferrals == |PartnerBookings(snapshot, pid)|
  {
    var rows := Dashboard(Some(pid), Some(snapshot)).rows;
    assert multiset(rows) == multiset(PartnerBookings(snapshot, pid));
    assert |rows| == |multiset(rows)|;
  }

  /** Earnings are 100 per completed referral, so never more than 100 per
      referral. */
  lemma EarningsBound(pid: Id, snapshot: seq<Booking>)
    requires pid != ""
    ensures var v := Dashboard(Some(pid), Some(snapshot));
      v.totalEarnings == EarningsPerCompleted * CountCompleted(PartnerBookings(snapshot, pid)) &&
      0 <= v.totalEarnings <= EarningsPerCompleted * v.totalReferrals
  {
    SortKeepsCompletedCount(PartnerBookings(snapshot, pid));
  }

  /** With every date a timestamp, the rows put later dates first. */
  lemma RowsNewestFirst(pid: Id, snapshot: seq<Booking>, i: nat, j: nat)
    requires pid != "" && AllTimestamped(snapshot)
    requires i < j < |Dashboard(Some(pid), Some(snapshot)).rows|
    ensures var rows := Dashboard(Some(pid), Some(snapshot)).rows;
      rows[i].date.Timestamp? && rows[j].date.Timestamp? &&
      rows[i].date.millis >= rows[j].date.millis
  {
    var filtered := PartnerBookings(snapshot, pid);
    assert AllTimestamped(filtered) by {
      forall b | b in filtered ensures Timestamped(b) {
        assert multiset(filtered)[b] > 0;
        assert b in snapshot;
      }
    }
    SortIsNewestFirst(filtered);
    NewestFirstMeansLaterFirst(SortByDateDesc(filtered), i, j);
  }

  /** A booking made without a referral carries the empty partner id, and
      the empty id is refused, so such a booking is on no dashboard. */
  lemma UnreferredBookingOnNoDashboard(idParam: Option<string>, snapshot: seq<Booking>, b: Booking)
    requires b.partnerId == Some("")
    ensures Dashboard(idParam, Some(snapshot)).Showing? ==> b !in Dashboard(idParam, Some(snapshot)).rows
  {
    var v := Dashboard(idParam, Some(snapshot));
    if v.Showing? {
      var filtered := PartnerBookings(snapshot, idParam.value);
      assert multiset(v.rows) == multiset(filtered);
    }
  }
}
