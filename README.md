# Restaurant booking: admission, redaction and admin views, modelled in Dafny

This project models the logic core of a restaurant-booking web application (a
Next.js front end over a Supabase `bookings` table) and proves properties of it:

- **Server booking path** (`lib/supabase-server.ts`): `validateBookingData`,
  `isValidTime` and the phone mask `maskPhoneNumber`. Also the order of steps in
  `createSecureBooking` (validate, insert a `pending`/`anonymous` row, return it
  masked) and in `getSecureBookings` (newest rows first, each masked).
- **Booking form** (`components/ui/BookingForm.tsx`): a `Form` class holding the
  form data, the captcha token, the busy flag and the browser's `localStorage`.
  Its `HandleSubmit` runs the gates in the source's order: captcha token, phone
  pattern, 60-second cooldown. Then it sanitises, records the timestamp, calls
  `onSubmit`, and resets the form or keeps it.
- **Admin dashboard** (`app/admin/page.tsx`): the role guard, the
  database-error redirect, the 20-row newest-first listing and its own phone mask.
- **Statistics cards** (`components/admin/StatsCards.tsx`): the total,
  confirmed and pending counts, and the guest sum.
- **Middleware** (`middleware.ts`): the `/admin` cookie guard, the route matcher,
  the CSP header normalisation `replace(/\s+/g, ' ').trim()`, and the three
  security headers set on a `Headers` object.
- **Menu modal** (`menumodal.tsx`): a `Modal` class with the quantity counter
  (floor 1) and the zoom toggle.

The JavaScript primitives this code relies on are modelled in `JsStrings` and
`JsNumbers`:

- `\d` and `\s` (the ECMAScript whitespace set, which `trim` also removes).
- `trim`, `replace(/\D/g, '')` and `replace(/\s+/g, ' ')`.
- `Number.prototype.toString` on the non-negative integers that `Date.now()`
  returns (all digits written out; see "## Left out" for larger numbers).
- `parseInt`, including the optional sign, the hexadecimal `0x` prefix, and NaN for no digits.

The one-match regular expression replace `(\d{L})\d{4}(\d{3})` is modelled in
`PhoneMask`. It rewrites only the leftmost window of `L + 7` consecutive digits.

JavaScript values that reach `validateBookingData` (typed `any`) are a `Value`
datatype with JavaScript truthiness. Numbers are `real`, so fractional guest
counts are represented.

Notes on the source:

- `lib/supabase-server.ts:81` documents `'6281234567890' -> '628****67890'`. The
  rewrite at line 85 produces `62812****7890`: five digits are kept, not three.
  The model follows the code, and `SupabaseServer.MaskPhoneNumberDocExample`
  proves both facts.
- `components/ui/BookingForm.tsx:50` has the `if (!captchaToken) {` on the same
  line as a comment. The closing brace at line 57 only balances if the check is
  live, so the model treats it as a live check.
- `middleware.ts:26` calls `NextResponse.next()` but imports only `NextRequest`.
  The model takes the evident intent: the request continues with the headers
  set.
- The paths disagree with one another. The model records these disagreements
  (module `Divergences`) instead of smoothing them over:
  - the server and the admin page mask different digits;
  - the server returns ten- and eleven-digit phones unmasked;
  - the form's phone pattern and the server's phone rule each accept phones the
    other refuses;
  - the form keeps guests as a string, while the server wants a number;
  - the server accepts a name of two spaces and fractional guest counts;
  - the server accepts any clock time, not just the form's slots.

## Model

| member | source | states |
|---|---|---|
| JsStrings.LeadingSpaces | components/ui/BookingForm.tsx:91 | the count of leading whitespace characters: all of them whitespace, and the next character (if any) is not |
| JsStrings.TrimStart | components/ui/BookingForm.tsx:91 | the result is empty or starts with a non-whitespace character, and it is shorter than the input when the input starts with whitespace |
| JsStrings.TrimEnd | components/ui/BookingForm.tsx:91 | the result is a prefix of the input, the dropped tail is all whitespace, and the result ends with a non-whitespace character |
| JsStrings.Trim | components/ui/BookingForm.tsx:91 | `trim()` leaves no whitespace at either end |
| JsStrings.TrimIsSlice | middleware.ts:24 | `trim()` only removes whitespace: the result is a contiguous slice of the input with whitespace-only text on both sides |
| JsStrings.TrimIdempotent | components/ui/BookingForm.tsx:91 | trimming twice equals trimming once |
| JsStrings.TrimOfTrimmed | middleware.ts:24 | a string without whitespace at its ends is its own trim |
| JsStrings.StripNonDigits | components/ui/BookingForm.tsx:92 | `replace(/\D/g, '')` yields only digits, is no longer than its input, and leaves an all-digit string unchanged |
| JsStrings.StripNonDigitsIdempotent | components/ui/BookingForm.tsx:92 | stripping the phone twice equals stripping it once |
| JsStrings.StripNonDigitsConcat | components/ui/BookingForm.tsx:92 | stripping distributes over concatenation |
| JsStrings.StripNonDigitsOfNonDigits | components/ui/BookingForm.tsx:92 | a phone with no digit is stripped to the empty string |
| JsStrings.NonSpacesConcat | middleware.ts:24 | the non-whitespace characters of a concatenation are those of its parts, in order |
| JsStrings.NonSpacesOfSpaces | middleware.ts:24 | a whitespace-only string has no non-whitespace characters |
| JsStrings.CollapseSpaces | middleware.ts:24 | `replace(/\s+/g, ' ')` leaves no two adjacent whitespace characters, only the space as whitespace, the same non-whitespace characters in order, and a leading whitespace exactly when the input had one |
| JsStrings.LeadingSpacesAppend | middleware.ts:24 | the leading whitespace of a concatenation is that of its first part, or all of it followed by that of the second |
| JsStrings.CollapseSpacesRun | middleware.ts:24 | each maximal whitespace run becomes exactly one space: `a + w + b`, with `w` whitespace and `a`, `b` not touching it with whitespace, collapses to `a` and `b` collapsed, joined by `" "` |
| JsStrings.CollapseSpacesKeepsEnd | middleware.ts:24 | text ending in a non-whitespace character still ends in one after the replacement |
| JsStrings.CollapseSpacesFixed | middleware.ts:24 | a string already collapsed is unchanged by the replacement |
| JsNumbers.DigitChar | components/ui/BookingForm.tsx:97 | each decimal digit value is written as a digit character |
| JsNumbers.NatToString | components/ui/BookingForm.tsx:97 | `Date.now().toString()` is a non-empty digit string without a leading zero |
| JsNumbers.RadixPrefix | components/ui/BookingForm.tsx:73 | the digits `parseInt` reads are the longest prefix of radix digits |
| JsNumbers.ParseInt | components/ui/BookingForm.tsx:73 | `parseInt(s)`: skip leading whitespace, read a sign and a `0x` prefix, then the longest digit prefix; no digits is NaN (`None`). Characterised by `ParseIntOfDigits` and `ParseIntOfToString` |
| JsNumbers.DecimalValueOfToString | components/ui/BookingForm.tsx:97 | the decimal value of `n.toString()` is `n` |
| JsNumbers.RadixPrefixOfDigits | components/ui/BookingForm.tsx:73 | on an all-digit string `parseInt` reads every character |
| JsNumbers.ParseIntOfDigits | components/ui/BookingForm.tsx:73 | `parseInt` of a non-empty all-digit string is its decimal value |
| JsNumbers.ParseIntOfToString | components/ui/BookingForm.tsx:73 | `parseInt(n.toString())` gives back `n`: the stored timestamp reads back as written |
| PhoneMask.FirstDigitRun | lib/supabase-server.ts:85 | the search finds the leftmost window of `n` consecutive digits, or reports that none exists |
| PhoneMask.MaskFirstRun | lib/supabase-server.ts:85 | the non-global replace of `(\d{L})\d{4}(\d{3})` by `$1****$2`: the four characters after the first `L` of the leftmost `L + 7`-digit window become `****`. Characterised by `MaskFirstRunAt` and `MaskFirstRunNoMatch` |
| PhoneMask.MaskFirstRunLength | lib/supabase-server.ts:85 | the masking rewrite keeps the length |
| PhoneMask.MaskFirstRunAt | lib/supabase-server.ts:85 | with the leftmost run at `i`, exactly the four characters after the kept lead become `*`; all others are unchanged |
| PhoneMask.MaskFirstRunNoMatch | lib/supabase-server.ts:85 | without a long enough run of digits the string is returned unchanged |
| Store.LatestIsNewestFirst | lib/supabase-server.ts:64-65 | `order('created_at', desc).limit(n)` gives `min(n, rows)` rows drawn from the table, newest first, and every row left out is older than every row returned |
| Store.Latest | lib/supabase-server.ts:64-65 | the rows the query `order('created_at', desc).limit(n)` returns from a table kept in insertion order. Characterised by `LatestIsNewestFirst` |
| Store.WithMaskedPhones | lib/supabase-server.ts:73-76 | the masking `map` keeps length and order; each row differs from its source row at most in `phone`, which is the masked phone |
| Store.BookingStore.constructor | lib/supabase-server.ts:107-115 | an empty table |
| Store.BookingStore.Insert | lib/supabase-server.ts:107-115 | a failed insert changes nothing; a successful one appends the row with the next id and the current time, keeping the table in creation order |
| SupabaseServer.IsValidTime | lib/supabase-server.ts:149-151 | the anchored time pattern: five characters, an hour `[01]\d` or `2[0-3]`, a colon, a minute `[0-5]\d`. Characterised by `ValidTimeIsClockTime` and `ClockTimeIsValidTime` |
| SupabaseServer.NameOk | lib/supabase-server.ts:133 | the guard on the name: truthy, a string, length at least 2 |
| SupabaseServer.PhoneOk | lib/supabase-server.ts:134 | the guard on the phone: truthy, a string matching `^\d{10,15}$` |
| SupabaseServer.DateOk | lib/supabase-server.ts:135 | the guard on the date: truthy and accepted by `isValidDate` |
| SupabaseServer.TimeOk | lib/supabase-server.ts:136 | the guard on the time: truthy, a string, and a valid time |
| SupabaseServer.GuestsOk | lib/supabase-server.ts:137 | the guard on guests: truthy, a number, between 1 and 20 |
| SupabaseServer.ValidTimeIsClockTime | lib/supabase-server.ts:149-151 | every accepted time is `HH:MM` with hour below 24 and minute below 60 |
| SupabaseServer.ClockTimeIsValidTime | lib/supabase-server.ts:149-151 | every `HH:MM` with hour below 24 and minute below 60 is accepted |
| SupabaseServer.ValidTimeExamples | lib/supabase-server.ts:149-151 | `23:59` and `00:00` are accepted; `24:00`, `9:00` and `12:60` are rejected |
| SupabaseServer.ValidateBookingData | lib/supabase-server.ts:131-140 | the data is accepted iff the name is a string of length at least 2, the phone is 10 to 15 digits, the date is truthy and valid, the time is valid and guests is a number in [1, 20] |
| SupabaseServer.GuestsBounds | lib/supabase-server.ts:137 | guests 1 and 20 pass; 0, 21, NaN, the string "4", undefined and null fail |
| SupabaseServer.MaskPhoneNumber | lib/supabase-server.ts:83-86 | `maskPhoneNumber`: the empty string for a falsy phone, otherwise the mask with five digits kept. Characterised by `MaskPhoneNumberAt` and `MaskPhoneNumberNoMatch` |
| SupabaseServer.MaskPhoneNumberAt | lib/supabase-server.ts:83-86 | with the leftmost 12-digit run at `i`, the characters at `i+5..i+8` become `*`, and the length and all other characters are kept |
| SupabaseServer.MaskPhoneNumberNoMatch | lib/supabase-server.ts:84-85 | the empty string, and any string without 12 consecutive digits, is returned unchanged |
| SupabaseServer.MaskPhoneNumberDocExample | lib/supabase-server.ts:81-85 | `6281234567890` is masked to `62812****7890`, not to the `628****67890` of the doc comment |
| SupabaseServer.PendingRow | lib/supabase-server.ts:109-113 | the inserted record: the booking data with `status: 'pending'` and `user_id: 'anonymous'` |
| SupabaseServer.CreateSecureBooking | lib/supabase-server.ts:94-126 | invalid data is refused and nothing is inserted; a failed insert leaves the table unchanged; otherwise exactly one `pending`/`anonymous` row is appended and returned with its phone masked |
| SupabaseServer.GetSecureBookings | lib/supabase-server.ts:50-77 | a fetch error fails; otherwise the newest `min(limit, rows)` rows, newest first, with only the phone masked |
| BookingForm.PhonePatternSound | components/ui/BookingForm.tsx:60-61 | an accepted phone is an optional `+` followed by 11 to 15 digits, whitespace, `-`, `(` or `)` |
| BookingForm.PhonePatternComplete | components/ui/BookingForm.tsx:60-61 | every optional `+` followed by such a body is accepted |
| BookingForm.PhonePatternOk | components/ui/BookingForm.tsx:60-61 | the test of `^[+]?[\d\s\-\(\)]{11,15}$`. Characterised by `PhonePatternSound` and `PhonePatternComplete` |
| BookingForm.CeilSeconds | components/ui/BookingForm.tsx:75 | `Math.ceil(x / 1000)`: the least `r` with `x <= 1000 r` |
| BookingForm.CooldownWaits | components/ui/BookingForm.tsx:71-82 | with a stored timestamp and `0 <= diff < 60000`, the submission waits `ceil((60000 - diff) / 1000)` seconds, between 1 and 60 |
| BookingForm.CooldownAdmits | components/ui/BookingForm.tsx:72-74 | no stored entry, or `diff >= 60000`, admits |
| BookingForm.CheckCooldown | components/ui/BookingForm.tsx:71-83 | the cooldown decision on the stored entry. Characterised by `CooldownWaits`, `CooldownAdmits` and `WrittenTimestampBlocks` |
| BookingForm.WrittenTimestampBlocks | components/ui/BookingForm.tsx:71-97 | the timestamp the handler writes blocks every submission during the next 60 seconds |
| BookingForm.Sanitize | components/ui/BookingForm.tsx:89-94 | the sanitised name and notes are trimmed and the phone is digits only; guests, date and time are kept |
| BookingForm.SanitizeIdempotent | components/ui/BookingForm.tsx:89-94 | sanitising twice equals sanitising once |
| BookingForm.AdmitOrder | components/ui/BookingForm.tsx:50-83 | an empty token rejects before anything else; a bad phone rejects before the cooldown; admitted iff token, pattern and cooldown all pass |
| BookingForm.CheckSubmission | components/ui/BookingForm.tsx:50-83 | the three gates of `handleSubmit` in order. Characterised by `AdmitOrder` |
| BookingForm.WithField | components/ui/BookingForm.tsx:43-45 | `{ ...prev, [field]: value }` |
| BookingForm.Form.constructor | components/ui/BookingForm.tsx:31-40 | the default form data (guests `2`, all else empty), an empty token, not submitting |
| BookingForm.Form.HandleChange | components/ui/BookingForm.tsx:43-45 | only the named field of the form data changes |
| BookingForm.Form.CaptchaSolved | components/ui/BookingForm.tsx:226 | only the captcha token changes |
| BookingForm.Form.HandleSubmit | components/ui/BookingForm.tsx:47-124 | a rejection changes nothing, storage included; an admitted submission stamps storage with `now` before `onSubmit`, hands on the sanitised data, resets the form and token on success only, and always ends not submitting |
| BookingForm.Form.SubmitAdmitted | components/ui/BookingForm.tsx:85-123 | the timestamp is written whether or not `onSubmit` throws; reset on success; form kept on failure; busy flag cleared on both paths |
| AdminPage.GuardPrecedesQuery | app/admin/page.tsx:16-18 | without an admin session the page redirects to `/login?error=unauthorized`, whatever the query would return |
| AdminPage.IsAdmin | app/admin/page.tsx:16 | a session exists and its role is `'admin'`; nothing else is checked |
| AdminPage.AdminDashboard | app/admin/page.tsx:12-46 | the page: the guard's redirect, the error redirect, or the dashboard of masked rows. Characterised by `GuardPrecedesQuery`, `AdminSeesMaskedRows` and `AdminSeesNewest20` |
| AdminPage.MaskPhone | app/admin/page.tsx:45 | the mask with three digits kept. Characterised by `MaskPhoneAt` and `MaskPhoneNoMatch` |
| AdminPage.ListingQuery | app/admin/page.tsx:34-35 | the rows the listing query returns. Characterised by `ListingIsNewest20` |
| AdminPage.AdminSeesMaskedRows | app/admin/page.tsx:37-46 | for an admin, a query error redirects to `/login?error=database`, a null result gives no rows, otherwise every row is shown in order with only its phone masked |
| AdminPage.MaskPhoneAt | app/admin/page.tsx:45 | the first and last three digits of the leftmost 10-digit run are kept, the four between become `*`, and the length and everything else are kept |
| AdminPage.MaskPhoneNoMatch | app/admin/page.tsx:45 | a phone without 10 consecutive digits is shown as stored |
| AdminPage.ListingIsNewest20 | app/admin/page.tsx:34-35 | the listing holds at most 20 rows, newest first, and every row not listed is older |
| AdminPage.AdminSeesNewest20 | app/admin/page.tsx:22-46 | for an admin whose query succeeds, the dashboard shows the query's rows, at most 20 and newest first, each with only its phone masked |
| StatsCards.CountIsMultiplicity | components/admin/StatsCards.tsx:16-17 | each status count equals the number of bookings with exactly that status |
| StatsCards.CountStatus | components/admin/StatsCards.tsx:16-17 | `filter(b => b.status === s).length`. Characterised by `CountIsMultiplicity` |
| StatsCards.SumGuests | components/admin/StatsCards.tsx:18 | `reduce((sum, b) => sum + b.guests, 0)`. Characterised by `GuestTotalBounds` |
| StatsCards.StatsCards | components/admin/StatsCards.tsx:15-18 | the four figures: length, the two status counts, and the guest sum |
| StatsCards.ConfirmedPlusPendingAtMostTotal | components/admin/StatsCards.tsx:15-17 | confirmed plus pending never exceeds the total |
| StatsCards.EmptyStats | components/admin/StatsCards.tsx:15-18 | an empty list gives all zeros |
| StatsCards.GuestTotalBounds | components/admin/StatsCards.tsx:18 | with every party of 1 to 20 guests, the total lies between the number of bookings and 20 times it |
| StatsCards.StatsIgnorePhones | app/admin/page.tsx:85 | masking phones before the cards are computed does not change any figure |
| Middleware.AdminRoutesReachMiddleware | middleware.ts:34-36 | the route matcher never skips a path the admin guard covers |
| Middleware.MiddlewareRuns | middleware.ts:34-36 | the route matcher, as a prefix test: every path except `/_next/static`, `/_next/image` and `/favicon?ico` |
| Middleware.CspTemplate | middleware.ts:15-24 | the policy's template literal, line breaks and indentation included |
| Middleware.IsAdminRoute | middleware.ts:5 | `url.startsWith('/admin')` |
| Middleware.TokenAccepted | middleware.ts:8-9 | the cookie is present, non-empty and equal to `ADMIN_TOKEN` (an unset token accepts nothing) |
| Middleware.RedirectsToLogin | middleware.ts:7-11 | an admin route whose cookie is not accepted. Characterised by `GuardDecision` |
| Middleware.GuardDecision | middleware.ts:5-12 | non-admin routes are never redirected; an admin route is redirected iff the cookie is missing, empty or differs from `ADMIN_TOKEN` |
| Middleware.AdminPrefixExamples | middleware.ts:5 | `/admin`, `/admin/bookings` and `/administrator` are admin routes; `/`, `/menu` and `/adm` are not |
| Middleware.NormalizeHeaderSpec | middleware.ts:15-24 | the normalised policy has no whitespace at either end, no whitespace run, no whitespace other than the space, and the same non-whitespace characters in order |
| Middleware.NormalizeHeader | middleware.ts:24 | `s.replace(/\s+/g, ' ').trim()`. Characterised by `NormalizeHeaderSpec`, `NormalizeHeaderSeparates` and `NormalizeHeaderIdempotent` |
| Middleware.NormalizeHeaderSeparates | middleware.ts:15-24 | the whitespace between two directives becomes exactly one space: `a + w + b` normalises to `a` and `b` normalised, joined by `" "` |
| Middleware.NormalizeHeaderIdempotent | middleware.ts:24 | normalising the normalised policy again changes nothing |
| Middleware.Headers.Set | middleware.ts:27-29 | `headers.set` overwrites the one named entry |
| Middleware.HandleRequest | middleware.ts:3-32 | a rejected admin request is redirected to `/login`; every other response carries the CSP, `X-Frame-Options: DENY` and `X-Content-Type-Options: nosniff` headers, set in that order on a fresh header set |
| MenuModal.DecrementFloor | menumodal.tsx:44 | from 1 the quantity stays 1, from more it drops by one |
| MenuModal.Incremented | menumodal.tsx:43 | `prev => prev + 1` |
| MenuModal.Decremented | menumodal.tsx:44 | `prev => Math.max(1, prev - 1)`. Characterised by `DecrementFloor` |
| MenuModal.Toggled | menumodal.tsx:82 | `!isZoomed` |
| MenuModal.Pressed | menumodal.tsx:43-44 | the quantity after a sequence of `+` and `-` clicks. Characterised by `PressesKeepQuantityPositive` |
| MenuModal.DecrementUndoesIncrement | menumodal.tsx:43-44 | `-` after `+` restores the quantity |
| MenuModal.PressesKeepQuantityPositive | menumodal.tsx:20-44 | no sequence of presses takes the quantity below 1 |
| MenuModal.ToggleTwice | menumodal.tsx:82 | toggling zoom twice restores it |
| MenuModal.Modal.constructor | menumodal.tsx:20-21 | the quantity starts at 1 and the image unzoomed |
| MenuModal.Modal.Increment | menumodal.tsx:43 | the quantity rises by one, zoom unchanged |
| MenuModal.Modal.Decrement | menumodal.tsx:44 | the quantity becomes `max(1, q - 1)` and stays at least 1, zoom unchanged |
| MenuModal.Modal.ToggleZoom | menumodal.tsx:82 | the zoom flag flips, quantity unchanged |
| Divergences.MasksDisagreeOnTwelveDigits | app/admin/page.tsx:45 | on a 12-digit phone the admin mask hides a digit that the server mask (lib/supabase-server.ts:85) keeps |
| Divergences.MaskExamples | app/admin/page.tsx:45 | `081234567890` is `08123****890` from the server and `081****67890` on the admin page |
| Divergences.ShortPhonesUnmasked | lib/supabase-server.ts:83-86 | a valid 10- or 11-digit phone is returned by the server read path in full |
| Divergences.FormAcceptsDigitlessPhone | components/ui/BookingForm.tsx:60-61 | the form accepts 11 to 15 characters with no digit at all; the server would reject the empty phone they are stripped to |
| Divergences.ServerAcceptsPhoneFormRejects | lib/supabase-server.ts:134 | a 10-digit phone passes the server and fails the form's pattern |
| Divergences.FormGuestsNeverAccepted | components/ui/BookingForm.tsx:20 | the form's string guests value is never accepted by the server's number check |
| Divergences.GuestOptionsConvertToAcceptedCounts | components/ui/BookingForm.tsx:195-196 | every guest option, the default `"2"` among them, parses back to its party size, which the server's check (lib/supabase-server.ts:137) accepts |
| Divergences.ServerLaxInputs | lib/supabase-server.ts:133-137 | a name of two spaces and a party of 2.5 pass the server checks |
| Divergences.SlotsWithinValidTimes | components/ui/BookingForm.tsx:178 | every form slot is a valid server time, and `09:00` is a valid time that no slot offers |

## Left out

- Supabase client construction, the cookie adapters and the network calls (lib/supabase-server.ts:10-42). The table is a `BookingStore` object. Whether an insert or select fails is a parameter.
- The column projection of the selects is not modelled. Rows keep `user_id`, which the selects at lib/supabase-server.ts:54-63 and app/admin/page.tsx:24-33 do not request.
- `isValidDate` (lib/supabase-server.ts:145-148) depends on JavaScript's `Date` parser. It is a parameter `isValidDate: Value -> bool`.
- `created_at` is the store's own clock, which increases with every insert. The database clock is not modelled.
- `validateBookingData`'s `any` argument is a `Value`. Objects and arrays are not among its cases. Guests is a mathematical real, so floating-point rounding is not modelled.
- String lengths count Dafny characters, not UTF-16 code units.
- JsNumbers.ParseInt: the loss of precision for integers beyond 2^53 is not modelled.
- JsNumbers.NatToString: writes every digit for every `n`. JavaScript switches to exponent notation (`1e+21`) from 10^21 and cannot represent every integer above 2^53. Millisecond timestamps lie far below both bounds.
- SupabaseServer.GetSecureBookings: the default `limit = 20` is not modelled, and `limit` is a `nat`; callers pass it explicitly. Negative, fractional and non-numeric limits are not modelled.
- Middleware.HandleRequest: the headers start from an empty set. Headers `NextResponse.next()` itself may carry are not modelled, so "exactly these three" holds for what the middleware sets, not for the whole response.
- Next-auth session retrieval, the Turnstile widget, toasts, `async` scheduling and all markup are left out.
- `Date.now()` is a parameter `now`. One value serves both the cooldown check and the stored timestamp, whereas the source reads the clock twice (components/ui/BookingForm.tsx:73 and :97).
- The submit button's `disabled` attribute (components/ui/BookingForm.tsx:233) is not modelled, because `handleSubmit` repeats the token check.
- The menu modal's Escape-key listener and body-scroll lock (menumodal.tsx:24-41) are left out as DOM event wiring.
- A `null` phone in a fetched row is not modelled. `b.phone.replace` would throw on it; phones are strings here.
- Middleware.MiddlewareRuns: Next.js's translation of the matcher to a regular expression is simplified to this prefix test.
- The CSP header is specified by its properties. Its exact one-line text is not computed.
