/**
 * The `bookings` table of the external database, reduced to what the
 * booking code relies on: rows are appended by an insert that may fail,
 * the database stamps `id` and `created_at`, and reads are
 * `order('created_at', { ascending: false }).limit(n)`.
 */
module Store {
  import opened Wrappers

  datatype Status = Pending | Confirmed | Cancelled

  /** What an insert sends: the booking fields plus `status` and `user_id`. */
  datatype NewBooking = NewBooking(name: string, phone: string, date: string, time: string,
                                   guests: real, status: Status, userId: string)

  /** A stored row. `guests` is a JavaScript number, hence `real`. */
  datatype Booking = Booking(id: nat, name: string, phone: string, date: string, time: string,
                             guests: real, status: Status, userId: string, createdAt: int)

  function Stored(b: NewBooking, id: nat, createdAt: int): Booking {
    Booking(id, b.name, b.phone, b.date, b.time, b.guests, b.status, b.userId, createdAt)
  }

  /** Rows in insertion order carry strictly increasing `created_at`. */
  predicate Chronological(rows: seq<Booking>) {
    forall i, j :: 0 <= i < j < |rows| ==> rows[i].createdAt < rows[j].createdAt
  }

  predicate NewestFirst(rows: seq<Booking>) {
    forall i, j :: 0 <= i < j < |rows| ==> rows[i].createdAt > rows[j].createdAt
  }

  function Min(a: nat, b: nat): nat {
    if a < b then a else b
  }

  /** The query `order('created_at', { ascending: false }).limit(limit)`
      over rows kept in insertion order. */
  function Latest(rows: seq<Booking>, limit: nat): seq<Booking> {
    var n := Min(limit, |rows|);
    seq(n, k requires 0 <= k < n => rows[|rows| - 1 - k])
  }

  /** The listing holds `min(limit, |rows|)` stored rows, newest first, and
      the rows it leaves out, `rows[..|rows| - n]`, are older than every row
      it lists. */
  lemma LatestIsNewestFirst(rows: seq<Booking>, limit: nat)
    requires Chronological(rows)
    ensures |Latest(rows, limit)| == Min(limit, |rows|)
    ensures forall k :: 0 <= k < |Latest(rows, limit)| ==> Latest(rows, limit)[k] in rows
    ensures NewestFirst(Latest(rows, limit))
    ensures forall j, k :: 0 <= j < |rows| - |Latest(rows, limit)| && 0 <= k < |Latest(rows, limit)|
              ==> rows[j].createdAt < Latest(rows, limit)[k].createdAt
  {
  }

  /** Each row with its `phone` rewritten by `mask`, as the
      `rows.map(b => ({ ...b, phone: mask(b.phone) }))` of both read paths. */
  function WithMaskedPhones(rows: seq<Booking>, mask: string -> string): (r: seq<Booking>)
    ensures |r| == |rows|
    ensures forall k :: 0 <= k < |r| ==> r[k].phone == mask(rows[k].phone)
    ensures forall k :: 0 <= k < |r| ==> r[k].(phone := rows[k].phone) == rows[k]
  {
    seq(|rows|, k requires 0 <= k < |rows| => rows[k].(phone := mask(rows[k].phone)))
  }

  class BookingStore {
    var rows: seq<Booking>
    /** The `created_at` the next insert receives. */
    var clock: int

    ghost predicate Valid()
      reads this
    {
      Chronological(rows) &&
      forall k :: 0 <= k < |rows| ==> rows[k].id == k && rows[k].createdAt < clock
    }

    constructor (start: int)
      ensures Valid() && rows == [] && clock == start
    {
      rows := [];
      clock := start;
    }

    /** `insert([row]).select().single()`: on success the stored row, with
        a fresh `id` and the current `created_at`; `fails` stands for the
        error the database may return, which leaves the table as it was. */
    method Insert(b: NewBooking, fails: bool) returns (r: Option<Booking>)
      requires Valid()
      modifies this
      ensures Valid()
      ensures fails ==> r == None && rows == old(rows) && clock == old(clock)
      ensures !fails ==> r == Some(Stored(b, |old(rows)|, old(clock))) && rows == old(rows) + [r.value]
    {
      if fails {
        return None;
      }
      var stored := Stored(b, |rows|, clock);
      rows := rows + [stored];
      clock := clock + 1;
      r := Some(stored);
    }
  }
}
