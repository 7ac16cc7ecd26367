/** The date-descending order both booking lists are shown in
    (src/app/admin/bookings/page.tsx and src/app/partner/dashboard/page.tsx
    pass the same comparator to `Array.prototype.sort`). */
module BookingOrder {
  import opened Bookings

  predicate Timestamped(b: Booking) {
    b.date.Timestamp?
  }

  /** The comparator: when both dates are timestamps, `b`'s time minus `a`'s
      (negative puts `a` first); otherwise 0, "keep as is". */
  function CompareByDateDesc(a: Booking, b: Booking): (r: int)
    ensures Timestamped(a) && Timestamped(b) ==> (r < 0 <==> a.date.millis > b.date.millis)
    ensures Timestamped(a) && Timestamped(b) ==> (r == 0 <==> a.date.millis == b.date.millis)
    ensures !(Timestamped(a) && Timestamped(b)) ==> r == 0
  {
    if Timestamped(a) && Timestamped(b) then b.date.millis - a.date.millis else 0
  }

  /** Swapping the arguments negates the answer. */
  lemma CompareAntisymmetric(a: Booking, b: Booking)
    ensures CompareByDateDesc(a, b) == -CompareByDateDesc(b, a)
  {
  }

  predicate AllTimestamped(s: seq<Booking>) {
    forall b | b in s :: Timestamped(b)
  }

  /** No pair of the list is out of order for the comparator; when every
      date is a timestamp this is "later date first". */
  predicate NewestFirst(s: seq<Booking>) {
    forall i, j | 0 <= i < j < |s| :: CompareByDateDesc(s[i], s[j]) <= 0
  }

  lemma NewestFirstMeansLaterFirst(s: seq<Booking>, i: nat, j: nat)
    requires NewestFirst(s) && AllTimestamped(s) && i < j < |s|
    ensures Timestamped(s[i]) && Timestamped(s[j])
    ensures s[i].date.millis >= s[j].date.millis
  {
    assert s[i] in s && s[j] in s;
    assert CompareByDateDesc(s[i], s[j]) <= 0;
  }

  /** Places `x` before the first element that is not later than it. */
  function Insert(x: Booking, s: seq<Booking>): (r: seq<Booking>)
    ensures multiset(r) == multiset(s) + multiset{x}
  {
    if s == [] then [x]
    else if CompareByDateDesc(x, s[0]) <= 0 then [x] + s
    else
      assert s == [s[0]] + s[1..];
      [s[0]] + Insert(x, s[1..])
  }

  /** Every element of `Insert(x, s)` is `x` or comes from `s`. */
  lemma InsertMember(x: Booking, s: seq<Booking>, y: Booking)
    requires y in Insert(x, s)
    ensures y == x || y in s
  {
    assert y in multiset(Insert(x, s));
  }

  /** A head that is not later-out-of-order with any element extends a list
      that is in order. */
  lemma ConsNewestFirst(h: Booking, rest: seq<Booking>)
    requires NewestFirst(rest)
    requires forall j | 0 <= j < |rest| :: CompareByDateDesc(h, rest[j]) <= 0
    ensures NewestFirst([h] + rest)
  {
    var r := [h] + rest;
    forall i, j | 0 <= i < j < |r| ensures CompareByDateDesc(r[i], r[j]) <= 0 {
      if i == 0 {
        assert r[j] == rest[j - 1];
      } else {
        assert r[i] == rest[i - 1] && r[j] == rest[j - 1];
      }
    }
  }

  lemma {:induction false} InsertKeepsNewestFirst(x: Booking, s: seq<Booking>)
    requires Timestamped(x) && AllTimestamped(s) && NewestFirst(s)
    ensures NewestFirst(Insert(x, s))
  {
    if s == [] {
    } else if CompareByDateDesc(x, s[0]) <= 0 {
      forall j | 0 <= j < |s| ensures CompareByDateDesc(x, s[j]) <= 0 {
        if j > 0 {
          assert s[0] in s && s[j] in s;
          assert CompareByDateDesc(s[0], s[j]) <= 0;
        }
      }
      ConsNewestFirst(x, s);
    } else {
      var tail := s[1..];
      assert NewestFirst(tail) by {
        forall i, j | 0 <= i < j < |tail| ensures CompareByDateDesc(tail[i], tail[j]) <= 0 {
          assert tail[i] == s[i + 1] && tail[j] == s[j + 1];
        }
      }
      assert AllTimestamped(tail) by {
        forall b | b in tail ensures Timestamped(b) { assert b in s; }
      }
      InsertKeepsNewestFirst(x, tail);
      var rest := Insert(x, tail);
      assert s[0] in s;
      forall j | 0 <= j < |rest| ensures CompareByDateDesc(s[0], rest[j]) <= 0 {
        InsertMember(x, tail, rest[j]);
        if rest[j] != x {
          var k :| 0 <= k < |tail| && tail[k] == rest[j];
          assert s[k + 1] == rest[j];
        }
      }
      ConsNewestFirst(s[0], rest);
    }
  }

  /** The order the pages show (an insertion sort with the comparator):
      the same bookings as given. */
  function SortByDateDesc(s: seq<Booking>): (r: seq<Booking>)
    ensures multiset(r) == multiset(s)
  {
    if s == [] then []
    else
      assert s == [s[0]] + s[1..];
      Insert(s[0], SortByDateDesc(s[1..]))
  }

  /** When every date is a timestamp the sorted list puts later dates first. */
  lemma {:induction false} SortIsNewestFirst(s: seq<Booking>)
    requires AllTimestamped(s)
    ensures NewestFirst(SortByDateDesc(s))
  {
    if s != [] {
      var tail := s[1..];
      assert AllTimestamped(tail) by {
        forall b | b in tail ensures Timestamped(b) { assert b in s; }
      }
      SortIsNewestFirst(tail);
      var rest := SortByDateDesc(tail);
      assert AllTimestamped(rest) by {
        forall b | b in rest ensures Timestamped(b) {
          assert b in multiset(rest);
          assert b in tail;
        }
      }
      assert s[0] in s;
      InsertKeepsNewestFirst(s[0], rest);
    }
  }
}
