/**
 * The four figures of the admin statistics cards: the number of bookings,
 * the confirmed and pending counts (`filter(...).length`), and the guest
 * total (`reduce((sum, b) => sum + b.guests, 0)`).
 */
module StatsCards {
  import opened Store

  datatype Stats = Stats(totalBookings: nat, confirmedBookings: nat, pendingBookings: nat, totalGuests: real)

  /** `bookings.filter(b => b.status === status).length`. */
  function CountStatus(bookings: seq<Booking>, status: Status): nat {
    if bookings == [] then 0
    else CountStatus(bookings[..|bookings| - 1], status) + (if bookings[|bookings| - 1].status == status then 1 else 0)
  }

  /** The left fold `reduce((sum, booking) => sum + booking.guests, 0)`. */
  function SumGuests(bookings: seq<Booking>): real {
    if bookings == [] then 0.0 else SumGuests(bookings[..|bookings| - 1]) + bookings[|bookings| - 1].guests
  }

  function StatsCards(bookings: seq<Booking>): Stats {
    Stats(|bookings|, CountStatus(bookings, Confirmed), CountStatus(bookings, Pending), SumGuests(bookings))
  }

  function Statuses(bookings: seq<Booking>): seq<Status> {
    seq(|bookings|, k requires 0 <= k < |bookings| => bookings[k].status)
  }

  /** The filter count is the number of entries with exactly that status. */
  lemma {:induction false} CountIsMultiplicity(bookings: seq<Booking>, status: Status)
    ensures CountStatus(bookings, status) == multiset(Statuses(bookings))[status]
  {
    if bookings != [] {
      var init := bookings[..|bookings| - 1];
      CountIsMultiplicity(init, status);
      assert Statuses(bookings) == Statuses(init) + [bookings[|bookings| - 1].status];
    }
  }

  lemma {:induction false} ConfirmedPlusPendingAtMostTotal(bookings: seq<Booking>)
    ensures CountStatus(bookings, Confirmed) + CountStatus(bookings, Pending) <= |bookings|
  {
    if bookings != [] {
      ConfirmedPlusPendingAtMostTotal(bookings[..|bookings| - 1]);
    }
  }

  lemma EmptyStats()
    ensures StatsCards([]) == Stats(0, 0, 0, 0.0)
  {
  }

  predicate GuestsInRange(bookings: seq<Booking>) {
    forall k :: 0 <= k < |bookings| ==> 1.0 <= bookings[k].guests <= 20.0
  }

  /** With every booking for 1 to 20 guests, the guest total lies between
      the number of bookings and twenty times that number. */
  lemma {:induction false} GuestTotalBounds(bookings: seq<Booking>)
    requires GuestsInRange(bookings)
    ensures |bookings| as real <= SumGuests(bookings) <= 20.0 * |bookings| as real
  {
    if bookings != [] {
      var init := bookings[..|bookings| - 1];
      assert GuestsInRange(init) by {
        forall k | 0 <= k < |init| ensures 1.0 <= init[k].guests <= 20.0 {
          assert init[k] == bookings[k];
        }
      }
      GuestTotalBounds(init);
      assert 1.0 <= bookings[|bookings| - 1].guests <= 20.0;
    }
  }

  /** Masking phones does not change any figure: the cards computed from the
      masked rows the admin page passes in equal those of the stored rows. */
  lemma {:induction false} StatsIgnorePhones(bookings: seq<Booking>, masked: seq<Booking>)
    requires |masked| == |bookings|
    requires forall k :: 0 <= k < |bookings| ==> masked[k].(phone := bookings[k].phone) == bookings[k]
    ensures StatsCards(masked) == StatsCards(bookings)
  {
    if bookings != [] {
      var n := |bookings| - 1;
      StatsIgnorePhones(bookings[..n], masked[..n]);
      assert masked[n].(phone := bookings[n].phone) == bookings[n];
    }
  }
}
