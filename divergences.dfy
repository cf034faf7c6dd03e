/**
 * Where the paths of the system disagree with each other: the booking
 * form's checks against the server's validation, and the server's phone
 * mask against the admin page's.
 */
module Divergences {
  import opened Wrappers
  import opened JsStrings
  import opened JsNumbers
  import opened PhoneMask
  import opened SupabaseServer
  import opened BookingForm
  import opened AdminPage

  /** For a stored twelve-digit phone the two masks hide different digits:
      the server keeps five leading digits, the admin page three, so the two
      views never agree. */
  lemma MasksDisagreeOnTwelveDigits(phone: string)
    requires |phone| == 12 && AllDigits(phone)
    ensures MaskPhoneNumber(phone)[3] == phone[3] && MaskPhone(phone)[3] == '*'
    ensures MaskPhoneNumber(phone) != MaskPhone(phone)
  {
    assert DigitRunAt(phone, 0, 12);
    assert DigitRunAt(phone, 0, 10);
    MaskPhoneNumberAt(phone, 0);
    MaskPhoneAt(phone, 0);
    assert IsDigit(phone[3]);
  }

  lemma MaskExamples()
    ensures MaskPhoneNumber("081234567890") == "08123****890"
    ensures MaskPhone("081234567890") == "081****67890"
  {
    var p := "081234567890";
    assert DigitRunAt(p, 0, 12);
    MaskPhoneNumberAt(p, 0);
    MaskPhoneAt(p, 0);
    var s := MaskPhoneNumber(p);
    var a := MaskPhone(p);
    assert s == "08123****890" by {
      forall k | 0 <= k < 12 ensures s[k] == "08123****890"[k] { }
    }
    assert a == "081****67890" by {
      forall k | 0 <= k < 12 ensures a[k] == "081****67890"[k] { }
    }
  }

  /** A ten- or eleven-digit phone passes the server's validation, yet the
      server's read path returns it in full: its mask needs twelve digits. */
  lemma ShortPhonesUnmasked(phone: string)
    requires AllDigits(phone) && 10 <= |phone| <= 11
    ensures PhoneOk(Str(phone))
    ensures MaskPhoneNumber(phone) == phone
  {
    MaskPhoneNumberNoMatch(phone);
  }

  /** The form's pattern accepts 11 to 15 characters of spaces, dashes and
      parentheses with no digit at all (say "(---) -----"); the server is
      then handed an empty phone, which it rejects. */
  lemma FormAcceptsDigitlessPhone(t: string)
    requires PhoneBody(t)
    requires forall k :: 0 <= k < |t| ==> !IsDigit(t[k])
    ensures PhonePatternOk(t)
    ensures !PhoneOk(Str(StripNonDigits(t)))
  {
    PhonePatternComplete(t, false);
    StripNonDigitsOfNonDigits(t);
  }

  /** The server accepts a ten-digit phone the form's pattern (eleven
      characters at least) refuses. */
  lemma ServerAcceptsPhoneFormRejects()
    ensures PhoneOk(Str("0812345678"))
    ensures !PhonePatternOk("0812345678")
  {
  }

  /** The form keeps guests as the select's string value; the server accepts
      only a number, so no form value is accepted unconverted. */
  lemma FormGuestsNeverAccepted(d: FormData)
    ensures !GuestsOk(Str(Sanitize(d).guests))
  {
  }

  /** Converted to a number, every guest option (the default `"2"` among
      them) reads back as its party size, which the server accepts: only
      the missing conversion separates the form from the server. */
  lemma GuestOptionsConvertToAcceptedCounts()
    ensures DefaultFormData.guests == GuestOptions[0]
    ensures forall k :: 0 <= k < |GuestOptions| ==>
      ParseInt(GuestOptions[k]) == Some(GuestCounts[k] as int) && GuestsOk(Num(GuestCounts[k] as real))
  {
    assert NatToString(2) == "2";
    forall k | 0 <= k < |GuestOptions|
      ensures ParseInt(GuestOptions[k]) == Some(GuestCounts[k] as int)
    {
      ParseIntOfToString(GuestCounts[k]);
    }
  }

  /** What the server's checks let through: a name of two spaces, a
      fractional party size. */
  lemma ServerLaxInputs()
    ensures NameOk(Str("  "))
    ensures GuestsOk(Num(2.5))
  {
  }

  /** Every time slot of the form is a valid time for the server, but the
      server takes any clock time, including ones no slot offers. */
  lemma SlotsWithinValidTimes()
    ensures forall k :: 0 <= k < |TimeSlots| ==> IsValidTime(TimeSlots[k])
    ensures IsValidTime("09:00") && "09:00" !in TimeSlots
  {
  }
}
