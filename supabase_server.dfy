/**
 * The server-side booking helpers: the input check `validateBookingData`
 * with `isValidTime`, the phone mask `maskPhoneNumber`, and the two
 * database paths `createSecureBooking` (validate, insert as pending,
 * return a masked copy) and `getSecureBookings` (select the newest rows,
 * return masked copies).
 */
module SupabaseServer {
  import opened Wrappers
  import opened JsStrings
  import opened JsNumbers
  import opened PhoneMask
  import opened Store

  /** The JavaScript values a loosely typed request field can hold
      (objects and arrays are not modelled). */
  datatype Value = Undefined | Null | Bool(b: bool) | Num(x: real) | NaN | Str(s: string)

  /** JavaScript truthiness: `!v` is `!Truthy(v)`. */
  predicate Truthy(v: Value) {
    match v
    case Undefined => false
    case Null => false
    case Bool(b) => b
    case Num(x) => x != 0.0
    case NaN => false
    case Str(s) => s != ""
  }

  /** The object handed to `validateBookingData(data: any)`. */
  datatype RawBooking = RawBooking(name: Value, phone: Value, date: Value, time: Value, guests: Value)

  /** The typed argument of `createSecureBooking`. */
  datatype BookingRequest = BookingRequest(name: string, phone: string, date: string, time: string, guests: real)

  function ToRaw(req: BookingRequest): RawBooking {
    RawBooking(Str(req.name), Str(req.phone), Str(req.date), Str(req.time), Num(req.guests))
  }

  // ---- isValidTime: /^([01]\d|2[0-3]):([0-5]\d)$/ -------------------------

  predicate IsValidTime(s: string) {
    |s| == 5 &&
    (((s[0] == '0' || s[0] == '1') && IsDigit(s[1])) || (s[0] == '2' && '0' <= s[1] <= '3')) &&
    s[2] == ':' && '0' <= s[3] <= '5' && IsDigit(s[4])
  }

  /** `n` as two decimal digits, with a leading zero below 10. */
  function TwoDigits(n: nat): (s: string)
    requires n < 100
  {
    [DigitChar(n / 10), DigitChar(n % 10)]
  }

  function DigitOf(c: char): int {
    c as int - '0' as int
  }

  /** Every accepted string is `HH:MM` for an hour below 24 and a minute below 60. */
  lemma ValidTimeIsClockTime(s: string)
    requires IsValidTime(s)
    ensures var h, m := 10 * DigitOf(s[0]) + DigitOf(s[1]), 10 * DigitOf(s[3]) + DigitOf(s[4]);
            0 <= h < 24 && 0 <= m < 60 && s == TwoDigits(h) + ":" + TwoDigits(m)
  {
  }

  /** Every `HH:MM` with an hour below 24 and a minute below 60 is accepted. */
  lemma ClockTimeIsValidTime(h: nat, m: nat)
    requires h < 24 && m < 60
    ensures IsValidTime(TwoDigits(h) + ":" + TwoDigits(m))
  {
  }

  lemma ValidTimeExamples()
    ensures IsValidTime("23:59") && IsValidTime("00:00")
    ensures !IsValidTime("24:00") && !IsValidTime("9:00") && !IsValidTime("12:60")
  {
  }

  // ---- validateBookingData ------------------------------------------------

  predicate NameOk(v: Value) {
    !(!Truthy(v) || !v.Str? || |v.s| < 2)
  }

  predicate PhoneOk(v: Value) {
    !(!Truthy(v) || !v.Str? || !(10 <= |v.s| <= 15 && AllDigits(v.s)))
  }

  predicate DateOk(v: Value, isValidDate: Value -> bool) {
    !(!Truthy(v) || !isValidDate(v))
  }

  predicate TimeOk(v: Value) {
    !(!Truthy(v) || !v.Str? || !IsValidTime(v.s))
  }

  predicate GuestsOk(v: Value) {
    !(!Truthy(v) || !v.Num? || v.x < 1.0 || v.x > 20.0)
  }

  /** `validateBookingData(data)`. `isValidDate` stands for the check built
      on JavaScript's `Date` parser. */
  function ValidateBookingData(data: RawBooking, isValidDate: Value -> bool): (ok: bool)
    ensures ok <==>
      && data.name.Str? && |data.name.s| >= 2
      && data.phone.Str? && AllDigits(data.phone.s) && 10 <= |data.phone.s| <= 15
      && Truthy(data.date) && isValidDate(data.date)
      && data.time.Str? && IsValidTime(data.time.s)
      && data.guests.Num? && 1.0 <= data.guests.x <= 20.0
  {
    NameOk(data.name) && PhoneOk(data.phone) && DateOk(data.date, isValidDate) &&
    TimeOk(data.time) && GuestsOk(data.guests)
  }

  /** Guests is accepted only as a number in [1, 20]: 0, 21, NaN and
      non-numbers such as the string "4" are rejected. */
  lemma GuestsBounds()
    ensures GuestsOk(Num(1.0)) && GuestsOk(Num(20.0))
    ensures !GuestsOk(Num(0.0)) && !GuestsOk(Num(21.0)) && !GuestsOk(NaN)
    ensures !GuestsOk(Str("4")) && !GuestsOk(Undefined) && !GuestsOk(Null)
  {
  }

  // ---- maskPhoneNumber: replace(/(\d{5})\d{4}(\d{3})/, '$1****$2') ----------

  const ServerKeptLead: nat := 5

  function MaskPhoneNumber(phone: string): string {
    if phone == "" then "" else MaskFirstRun(phone, ServerKeptLead)
  }

  /** With the leftmost run of twelve digits at `i`, the characters at
      `i+5..i+8` become `*` and everything else, length included, is kept. */
  lemma MaskPhoneNumberAt(phone: string, i: nat)
    requires DigitRunAt(phone, i, 12)
    requires forall j :: 0 <= j < i ==> !DigitRunAt(phone, j, 12)
    ensures |MaskPhoneNumber(phone)| == |phone|
    ensures forall k :: 0 <= k < |phone| ==>
      MaskPhoneNumber(phone)[k] == if i + 5 <= k < i + 9 then '*' else phone[k]
  {
    assert PatternWidth(ServerKeptLead) == 12;
    MaskFirstRunAt(phone, ServerKeptLead, i);
  }

  /** The empty string, and any string without twelve consecutive digits,
      comes back unchanged. */
  lemma MaskPhoneNumberNoMatch(phone: string)
    requires forall j :: !DigitRunAt(phone, j, 12)
    ensures MaskPhoneNumber(phone) == phone
  {
    assert PatternWidth(ServerKeptLead) == 12;
    MaskFirstRunNoMatch(phone, ServerKeptLead);
  }

  /** What the code produces for the example of its own doc comment: the
      comment promises "628****67890", the rewrite gives "62812****7890". */
  lemma MaskPhoneNumberDocExample()
    ensures MaskPhoneNumber("6281234567890") == "62812****7890"
    ensures MaskPhoneNumber("6281234567890") != "628****67890"
  {
    var p := "6281234567890";
    MaskPhoneNumberAt(p, 0);
    var r := MaskPhoneNumber(p);
    assert |r| == 13;
    assert r == "62812****7890" by {
      forall k | 0 <= k < 13 ensures r[k] == "62812****7890"[k] { }
    }
  }

  // ---- createSecureBooking / getSecureBookings ----------------------------

  /** The errors the two database paths throw. */
  datatype ServerError = InvalidBookingData | CreateFailed | FetchFailed

  function PendingRow(req: BookingRequest): NewBooking {
    NewBooking(req.name, req.phone, req.date, req.time, req.guests, Pending, "anonymous")
  }

  /** `createSecureBooking(bookingData)`: nothing is inserted unless the
      data validates; an insert always carries status pending and user
      anonymous; the caller receives the stored row with its phone masked. */
  method CreateSecureBooking(store: BookingStore, req: BookingRequest, isValidDate: Value -> bool,
                             insertFails: bool)
    returns (r: Result<Booking, ServerError>)
    requires store.Valid()
    modifies store
    ensures store.Valid()
    ensures !ValidateBookingData(ToRaw(req), isValidDate) ==>
      r == Failure(InvalidBookingData) && store.rows == old(store.rows)
    ensures ValidateBookingData(ToRaw(req), isValidDate) && insertFails ==>
      r == Failure(CreateFailed) && store.rows == old(store.rows)
    ensures ValidateBookingData(ToRaw(req), isValidDate) && !insertFails ==>
      var row := Stored(PendingRow(req), |old(store.rows)|, old(store.clock));
      && store.rows == old(store.rows) + [row]
      && row.status == Pending && row.userId == "anonymous"
      && r == Success(row.(phone := MaskPhoneNumber(row.phone)))
  {
    if !ValidateBookingData(ToRaw(req), isValidDate) {
      return Failure(InvalidBookingData);
    }
    var inserted := store.Insert(PendingRow(req), insertFails);
    if inserted.None? {
      return Failure(CreateFailed);
    }
    var data := inserted.value;
    r := Success(data.(phone := MaskPhoneNumber(data.phone)));
  }

  /** `getSecureBookings(limit)`: the newest `limit` rows, each with only
      its phone masked, or the fetch error. */
  method GetSecureBookings(store: BookingStore, limit: nat, selectFails: bool)
    returns (r: Result<seq<Booking>, ServerError>)
    requires store.Valid()
    ensures selectFails ==> r == Failure(FetchFailed)
    ensures !selectFails ==> r.Success? && |r.value| == Min(limit, |store.rows|)
    ensures !selectFails ==> NewestFirst(r.value)
    ensures !selectFails ==> forall k :: 0 <= k < |r.value| ==>
      r.value[k] == Latest(store.rows, limit)[k].(phone := MaskPhoneNumber(Latest(store.rows, limit)[k].phone))
  {
    if selectFails {
      return Failure(FetchFailed);
    }
    var bookings := Latest(store.rows, limit);
    LatestIsNewestFirst(store.rows, limit);
    r := Success(WithMaskedPhones(bookings, MaskPhoneNumber));
  }
}
