/**
 * The admin dashboard's server component: the role guard, the listing
 * query, the error redirect, and the phone mask mapped over the rows
 * before they reach the statistics cards and the table.
 */
module AdminPage {
  import opened Wrappers
  import opened PhoneMask
  import opened Store

  /** `session.user.role`, when the session carries one. */
  datatype Session = Session(role: Option<string>)

  /** The listing query's `{ data, error }`: an error, or data that may be null. */
  datatype Fetched = FetchError | FetchData(data: Option<seq<Booking>>)

  /** What the component does: redirect, or render the dashboard. */
  datatype Page = Redirect(location: string) | Dashboard(bookings: seq<Booking>)

  const Unauthorized := "/login?error=unauthorized"
  const DatabaseError := "/login?error=database"
  const ListingLimit: nat := 20

  /** `!session || session.user.role !== 'admin'`: only the role is checked. */
  predicate IsAdmin(session: Option<Session>) {
    session.Some? && session.value.role == Some("admin")
  }

  /** The rows the listing query asks for: newest `created_at` first, at most 20. */
  function ListingQuery(rows: seq<Booking>): seq<Booking> {
    Latest(rows, ListingLimit)
  }

  /** `b.phone.replace(/(\d{3})\d{4}(\d{3})/, '$1****$2')`. */
  function MaskPhone(phone: string): string {
    MaskFirstRun(phone, 3)
  }

  /** `AdminDashboard()`. */
  function AdminDashboard(session: Option<Session>, fetched: Fetched): Page {
    if !IsAdmin(session) then Redirect(Unauthorized)
    else match fetched
      case FetchError => Redirect(DatabaseError)
      case FetchData(data) =>
        Dashboard(if data.None? then [] else WithMaskedPhones(data.value, MaskPhone))
  }

  /** The guard decides before the query: without an admin session the
      page redirects to the unauthorized login whatever the query would
      have returned. */
  lemma GuardPrecedesQuery(session: Option<Session>, fetched: Fetched)
    requires !IsAdmin(session)
    ensures AdminDashboard(session, fetched) == Redirect(Unauthorized)
  {
  }

  /** For an admin, a query error redirects to the database-error login;
      otherwise the dashboard shows every fetched row, in order, with only
      the phone masked, and nothing for a null result. */
  lemma AdminSeesMaskedRows(session: Option<Session>, fetched: Fetched)
    requires IsAdmin(session)
    ensures fetched == FetchError ==> AdminDashboard(session, fetched) == Redirect(DatabaseError)
    ensures fetched == FetchData(None) ==> AdminDashboard(session, fetched) == Dashboard([])
    ensures fetched.FetchData? && fetched.data.Some? ==>
      var shown := AdminDashboard(session, fetched);
      var rows := fetched.data.value;
      && shown.Dashboard? && |shown.bookings| == |rows|
      && forall k :: 0 <= k < |rows| ==>
           shown.bookings[k].(phone := rows[k].phone) == rows[k] &&
           shown.bookings[k].phone == MaskPhone(rows[k].phone)
  {
  }

  /** With the leftmost run of ten digits at `i`, the first three and last
      three digits of the run are kept, the four between become `*`, and
      the rest of the string and its length are unchanged. */
  lemma MaskPhoneAt(phone: string, i: nat)
    requires DigitRunAt(phone, i, 10)
    requires forall j :: 0 <= j < i ==> !DigitRunAt(phone, j, 10)
    ensures |MaskPhone(phone)| == |phone|
    ensures forall k :: 0 <= k < |phone| ==>
      MaskPhone(phone)[k] == if i + 3 <= k < i + 7 then '*' else phone[k]
  {
    assert PatternWidth(3) == 10;
    MaskFirstRunAt(phone, 3, i);
  }

  /** A phone without ten consecutive digits is shown as stored. */
  lemma MaskPhoneNoMatch(phone: string)
    requires forall j :: !DigitRunAt(phone, j, 10)
    ensures MaskPhone(phone) == phone
  {
    assert PatternWidth(3) == 10;
    MaskFirstRunNoMatch(phone, 3);
  }

  /** Over a table kept in insertion order the listing is the newest rows,
      at most 20 of them, newest first. */
  lemma ListingIsNewest20(rows: seq<Booking>)
    requires Chronological(rows)
    ensures |ListingQuery(rows)| == Min(20, |rows|)
    ensures NewestFirst(ListingQuery(rows))
    ensures forall j, k :: 0 <= j < |rows| - |ListingQuery(rows)| && 0 <= k < |ListingQuery(rows)| ==>
              rows[j].createdAt < ListingQuery(rows)[k].createdAt
  {
    LatestIsNewestFirst(rows, ListingLimit);
  }

  /** What an admin sees when the listing query succeeds: the query's rows,
      at most 20 and newest first, each with only its phone masked. */
  lemma AdminSeesNewest20(session: Option<Session>, rows: seq<Booking>)
    requires IsAdmin(session) && Chronological(rows)
    ensures var page := AdminDashboard(session, FetchData(Some(ListingQuery(rows))));
      && page.Dashboard?
      && |page.bookings| == Min(ListingLimit, |rows|)
      && NewestFirst(page.bookings)
      && forall k :: 0 <= k < |page.bookings| ==>
           page.bookings[k] == ListingQuery(rows)[k].(phone := MaskPhone(ListingQuery(rows)[k].phone))
  {
    var listed := ListingQuery(rows);
    ListingIsNewest20(rows);
    AdminSeesMaskedRows(session, FetchData(Some(listed)));
    var shown := AdminDashboard(session, FetchData(Some(listed))).bookings;
    assert forall k :: 0 <= k < |shown| ==> shown[k].createdAt == listed[k].createdAt;
  }
}
