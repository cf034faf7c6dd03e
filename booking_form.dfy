/**
 * The client booking form and its submit handler. The component's state
 * (`formData`, `captchaToken`, `isSubmitting`) and the browser's
 * `localStorage` are the fields of `Form`; `Date.now()` and the outcome of
 * the awaited `onSubmit` callback are parameters of `HandleSubmit`.
 *
 * The handler runs, in order: the captcha-token check, the phone pattern
 * check, the 60-second cooldown keyed on the stored timestamp, the
 * sanitiser, the timestamp write, the callback, and the reset.
 */
module BookingForm {
  import opened Wrappers
  import opened JsStrings
  import opened JsNumbers

  /** The form fields; `guests` is kept as the string of the selected option. */
  datatype FormData = FormData(name: string, phone: string, guests: string, date: string,
                               time: string, notes: string)

  datatype Field = Name | Phone | Guests | Date | Time | Notes

  const DefaultFormData := FormData("", "", "2", "", "", "")

  /** The options of the time select. */
  const TimeSlots: seq<string> := ["08:00", "10:00", "12:00", "14:00", "16:00", "18:00", "20:00"]

  /** The guest select offers these party sizes, each option's value being
      `num.toString()`. */
  const GuestCounts: seq<nat> := [2, 4, 6, 8, 10]
  const GuestOptions: seq<string> :=
    seq(|GuestCounts|, k requires 0 <= k < |GuestCounts| => NatToString(GuestCounts[k]))

  const SubmissionKey := "booking-submission"
  const CooldownMs: int := 60000

  function WithField(d: FormData, f: Field, v: string): FormData {
    match f
    case Name => d.(name := v)
    case Phone => d.(phone := v)
    case Guests => d.(guests := v)
    case Date => d.(date := v)
    case Time => d.(time := v)
    case Notes => d.(notes := v)
  }

  // ---- the phone pattern /^[+]?[\d\s\-\(\)]{11,15}$/ ----------------------

  predicate IsPhonePatternChar(c: char) {
    IsDigit(c) || IsSpace(c) || c == '-' || c == '(' || c == ')'
  }

  /** 11 to 15 characters, each a digit, whitespace, `-`, `(` or `)`. */
  predicate PhoneBody(t: string) {
    11 <= |t| <= 15 && forall k :: 0 <= k < |t| ==> IsPhonePatternChar(t[k])
  }

  /** The test as a backtracking matcher runs it: `+` is not in the class,
      so an initial `+` can only be the optional prefix. */
  predicate PhonePatternOk(s: string) {
    if s != [] && s[0] == '+' then PhoneBody(s[1..]) else PhoneBody(s)
  }

  /** An accepted phone is an optional `+` followed by a pattern body. */
  lemma PhonePatternSound(s: string)
    requires PhonePatternOk(s)
    ensures PhoneBody(s) || (s != [] && s[0] == '+' && PhoneBody(s[1..]))
  {
  }

  /** Every optional `+` followed by a pattern body is accepted. */
  lemma PhonePatternComplete(t: string, plus: bool)
    requires PhoneBody(t)
    ensures PhonePatternOk(if plus then "+" + t else t)
  {
    if plus {
      assert ("+" + t)[1..] == t;
    } else {
      assert IsPhonePatternChar(t[0]);
    }
  }

  // ---- the cooldown ---------------------------------------------------------

  /** `Math.ceil(x / 1000)` for a positive integer `x`. */
  function CeilSeconds(x: int): (r: int)
    requires x > 0
    ensures (r - 1) * 1000 < x <= r * 1000
  {
    (x + 999) / 1000
  }

  datatype Throttle = Admit | Wait(remaining: int)

  /** The cooldown decision on `localStorage.getItem('booking-submission')`:
      a missing or empty entry admits; `parseInt` giving NaN admits too,
      since `NaN < 60000` is false. */
  function CheckCooldown(stored: Option<string>, now: int): Throttle {
    if stored.None? || stored.value == "" then Admit
    else match ParseInt(stored.value)
      case None => Admit
      case Some(last) =>
        var diff := now - last;
        if diff < CooldownMs then Wait(CeilSeconds(CooldownMs - diff)) else Admit
  }

  /** Within the window the submission waits, and the wait shown is the
      whole number of seconds left, between 1 and 60. */
  lemma CooldownWaits(stored: string, now: int)
    requires ParseInt(stored).Some? && 0 <= now - ParseInt(stored).value < CooldownMs
    ensures CheckCooldown(Some(stored), now).Wait?
    ensures var r := CheckCooldown(Some(stored), now).remaining;
            1 <= r <= 60 && (r - 1) * 1000 < CooldownMs - (now - ParseInt(stored).value) <= r * 1000
  {
  }

  /** With no entry, or a minute or more after the stored time, the
      submission is admitted. */
  lemma CooldownAdmits(stored: Option<string>, now: int)
    requires stored.None? || ParseInt(stored.value).None? ||
             now - ParseInt(stored.value).value >= CooldownMs
    ensures CheckCooldown(stored, now) == Admit
  {
  }

  /** A timestamp written as `Date.now().toString()` blocks every submission
      in the following minute: the write and the read round-trip. */
  lemma WrittenTimestampBlocks(written: nat, now: int)
    requires written <= now < written + CooldownMs
    ensures CheckCooldown(Some(NatToString(written)), now).Wait?
  {
    ParseIntOfToString(written);
  }

  // ---- the sanitiser --------------------------------------------------------

  /** Name and notes trimmed, phone reduced to its digits; guests, date and
      time as entered. */
  function Sanitize(d: FormData): (r: FormData)
    ensures Trimmed(r.name) && Trimmed(r.notes) && AllDigits(r.phone)
    ensures r.guests == d.guests && r.date == d.date && r.time == d.time
  {
    d.(name := Trim(d.name), phone := StripNonDigits(d.phone), notes := Trim(d.notes))
  }

  lemma SanitizeIdempotent(d: FormData)
    ensures Sanitize(Sanitize(d)) == Sanitize(d)
  {
    TrimIdempotent(d.name);
    TrimIdempotent(d.notes);
  }

  // ---- the handler ----------------------------------------------------------

  /** How far a submission gets through the three checks. */
  datatype Admission = CaptchaRequired | InvalidPhone | TooManyRequests(remaining: int) | Admitted

  function Lookup(storage: map<string, string>, key: string): Option<string> {
    if key in storage then Some(storage[key]) else None
  }

  /** The checks of `handleSubmit` in their order: captcha token, phone
      pattern, cooldown. */
  function CheckSubmission(token: string, data: FormData, storage: map<string, string>, now: int): Admission {
    if token == "" then CaptchaRequired
    else if !PhonePatternOk(data.phone) then InvalidPhone
    else match CheckCooldown(Lookup(storage, SubmissionKey), now)
      case Wait(r) => TooManyRequests(r)
      case Admit => Admitted
  }

  /** An empty token stops a submission whatever else holds; a submission is
      admitted exactly when the token is present, the phone matches the
      pattern and the cooldown admits. */
  lemma AdmitOrder(token: string, data: FormData, storage: map<string, string>, now: int)
    ensures token == "" ==> CheckSubmission(token, data, storage, now) == CaptchaRequired
    ensures token != "" && !PhonePatternOk(data.phone) ==> CheckSubmission(token, data, storage, now) == InvalidPhone
    ensures CheckSubmission(token, data, storage, now) == Admitted <==>
      token != "" && PhonePatternOk(data.phone) &&
      CheckCooldown(Lookup(storage, SubmissionKey), now) == Admit
  {
  }

  /** What the handler reports: a rejection before any state changes, or the
      sanitised record handed to `onSubmit` and whether that call threw. */
  datatype SubmitOutcome = Rejected(reason: Admission) | Submitted(sent: FormData) | SubmitFailed(sent: FormData)

  class Form {
    var formData: FormData
    var captchaToken: string
    var isSubmitting: bool
    /** `window.localStorage`. */
    var storage: map<string, string>

    /** Between handler runs no submission is in flight. */
    ghost predicate Valid()
      reads this
    {
      !isSubmitting
    }

    constructor (storage: map<string, string>)
      ensures Valid()
      ensures formData == DefaultFormData && captchaToken == "" && this.storage == storage
    {
      formData := DefaultFormData;
      captchaToken := "";
      isSubmitting := false;
      this.storage := storage;
    }

    /** `handleChange(field, value)`. */
    method HandleChange(field: Field, value: string)
      modifies this
      ensures formData == WithField(old(formData), field, value)
      ensures captchaToken == old(captchaToken) && isSubmitting == old(isSubmitting) && storage == old(storage)
    {
      formData := WithField(formData, field, value);
    }

    /** The captcha widget's `onSuccess={setToken}`. */
    method CaptchaSolved(token: string)
      modifies this
      ensures captchaToken == token
      ensures formData == old(formData) && isSubmitting == old(isSubmitting) && storage == old(storage)
    {
      captchaToken := token;
    }

    /** `handleSubmit`. `now` is `Date.now()`; `submitSucceeds` says whether
        the awaited `onSubmit` resolves or throws. */
    method HandleSubmit(now: nat, submitSucceeds: bool) returns (outcome: SubmitOutcome)
      requires Valid()
      modifies this
      ensures Valid()
      ensures var admission := CheckSubmission(old(captchaToken), old(formData), old(storage), now);
        admission != Admitted ==>
          && outcome == Rejected(admission)
          && formData == old(formData) && captchaToken == old(captchaToken) && storage == old(storage)
      ensures CheckSubmission(old(captchaToken), old(formData), old(storage), now) == Admitted ==>
          && storage == old(storage)[SubmissionKey := NatToString(now)]
          && outcome == (if submitSucceeds then Submitted(Sanitize(old(formData)))
                         else SubmitFailed(Sanitize(old(formData))))
          && (submitSucceeds ==> formData == DefaultFormData && captchaToken == "")
          && (!submitSucceeds ==> formData == old(formData) && captchaToken == old(captchaToken))
    {
      ghost var admission := CheckSubmission(captchaToken, formData, storage, now);
      if captchaToken == "" {
        assert admission == CaptchaRequired;
        return Rejected(CaptchaRequired);
      }
      if !PhonePatternOk(formData.phone) {
        assert admission == InvalidPhone;
        return Rejected(InvalidPhone);
      }
      var lastSubmission := Lookup(storage, SubmissionKey);
      var cooldown := CheckCooldown(lastSubmission, now);
      if cooldown.Wait? {
        assert admission == TooManyRequests(cooldown.remaining);
        return Rejected(TooManyRequests(cooldown.remaining));
      }
      assert admission == Admitted;
      outcome := SubmitAdmitted(now, submitSucceeds);
    }

    /** The part of `handleSubmit` after the checks: mark the form busy,
        sanitise, record the timestamp, await `onSubmit`, reset the form on
        success, and clear the busy flag on both paths. */
    method SubmitAdmitted(now: nat, submitSucceeds: bool) returns (outcome: SubmitOutcome)
      requires Valid()
      modifies this
      ensures Valid()
      ensures storage == old(storage)[SubmissionKey := NatToString(now)]
      ensures outcome == (if submitSucceeds then Submitted(Sanitize(old(formData)))
                          else SubmitFailed(Sanitize(old(formData))))
      ensures submitSucceeds ==> formData == DefaultFormData && captchaToken == ""
      ensures !submitSucceeds ==> formData == old(formData) && captchaToken == old(captchaToken)
    {
      isSubmitting := true;
      var sanitized := Sanitize(formData);
      storage := storage[SubmissionKey := NatToString(now)];
      if submitSucceeds {
        outcome := Submitted(sanitized);
        formData := DefaultFormData;
        captchaToken := "";
      } else {
        outcome := SubmitFailed(sanitized);
      }
      isSubmitting := false;
    }
  }
}
