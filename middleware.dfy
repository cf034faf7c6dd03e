/**
 * The request middleware: the `/admin` route guard on the `auth-token`
 * cookie, and the security headers set on every response it lets through,
 * among them a Content-Security-Policy written as an indented template
 * literal and normalised with `.replace(/\s+/g, ' ').trim()`.
 */
module Middleware {
  import opened Wrappers
  import opened JsStrings

  /** `url.startsWith('/admin')`, so `/administrator` is guarded as well. */
  predicate IsAdminRoute(path: string) {
    "/admin" <= path
  }

  /** The `config.matcher` pattern `/((?!_next/static|_next/image|favicon.ico).*)`:
      the middleware runs on every path except the static-asset ones (the
      unescaped `.` matches any character). */
  predicate MiddlewareRuns(path: string) {
    && "/" <= path
    && !("/_next/static" <= path)
    && !("/_next/image" <= path)
    && !(|path| >= 12 && path[..8] == "/favicon" && path[9..12] == "ico")
  }

  /** The matcher never lets an admin route bypass the guard. */
  lemma AdminRoutesReachMiddleware(path: string)
    requires IsAdminRoute(path)
    ensures MiddlewareRuns(path)
  {
    assert path[..6] == "/admin";
    assert path[1] == 'a';
  }

  /** The admin cookie is accepted when it is present, non-empty and equal
      to the configured `ADMIN_TOKEN` (an unset token accepts nothing). */
  predicate TokenAccepted(cookie: Option<string>, adminToken: Option<string>) {
    !(cookie.None? || cookie.value == "" || Some(cookie.value) != adminToken)
  }

  /** Whether the middleware answers with the redirect to `/login`. */
  predicate RedirectsToLogin(path: string, cookie: Option<string>, adminToken: Option<string>) {
    IsAdminRoute(path) && !TokenAccepted(cookie, adminToken)
  }

  lemma GuardDecision(path: string, cookie: Option<string>, adminToken: Option<string>)
    ensures !IsAdminRoute(path) ==> !RedirectsToLogin(path, cookie, adminToken)
    ensures IsAdminRoute(path) ==>
      (RedirectsToLogin(path, cookie, adminToken) <==>
       cookie.None? || cookie.value == "" || adminToken != Some(cookie.value))
  {
  }

  lemma AdminPrefixExamples()
    ensures IsAdminRoute("/admin") && IsAdminRoute("/admin/bookings") && IsAdminRoute("/administrator")
    ensures !IsAdminRoute("/") && !IsAdminRoute("/menu") && !IsAdminRoute("/adm")
  {
  }

  /** The template literal of the policy, indentation and line breaks included. */
  const CspTemplate: string :=
    "\n    default-src 'self';\n    script-src 'self' 'unsafe-inline' https://plausible.io;\n" +
    "    style-src 'self' 'unsafe-inline';\n    img-src 'self' data: https:;\n" +
    "    font-src 'self' https://fonts.gstatic.com;\n    connect-src 'self' https://*.supabase.co;\n" +
    "    frame-ancestors 'none';\n    object-src 'none';\n  "

  /** `s.replace(/\s+/g, ' ').trim()`. */
  function NormalizeHeader(s: string): string {
    Trim(CollapseSpaces(s))
  }

  /** The normalised header has no whitespace at either end, no run of two
      whitespace characters, no whitespace other than the space, and the
      same non-whitespace characters in the same order as the template. */
  lemma NormalizeHeaderSpec(s: string)
    ensures Trimmed(NormalizeHeader(s))
    ensures NoSpaceRun(NormalizeHeader(s))
    ensures forall k :: 0 <= k < |NormalizeHeader(s)| && IsSpace(NormalizeHeader(s)[k]) ==>
              NormalizeHeader(s)[k] == ' '
    ensures NonSpaces(NormalizeHeader(s)) == NonSpaces(s)
  {
    var c := CollapseSpaces(s);
    TrimIsSlice(c);
    var a :| PaddedAt(c, NormalizeHeader(s), a);
    PaddedKeepsNonSpaces(c, NormalizeHeader(s), a);
    PaddedKeepsSpacing(c, NormalizeHeader(s), a);
  }

  /** The whitespace between two directives (a line break and the next
      line's indentation) becomes exactly one space: normalising
      `a + w + b` gives `a` and `b` normalised, joined by `" "`. */
  lemma NormalizeHeaderSeparates(a: string, w: string, b: string)
    requires a != [] && b != [] && Trimmed(a) && Trimmed(b)
    requires w != [] && AllSpace(w)
    ensures NormalizeHeader(a + w + b) == NormalizeHeader(a) + " " + NormalizeHeader(b)
  {
    CollapseSpacesRun(a, w, b);
    var ca, cb := CollapseSpaces(a), CollapseSpaces(b);
    CollapseSpacesKeepsEnd(a);
    CollapseSpacesKeepsEnd(b);
    TrimOfTrimmed(ca);
    TrimOfTrimmed(cb);
    var joined := ca + " " + cb;
    assert joined[0] == ca[0];
    assert joined[|joined| - 1] == cb[|cb| - 1];
    TrimOfTrimmed(joined);
  }

  /** Normalising the normalised header again changes nothing. */
  lemma NormalizeHeaderIdempotent(s: string)
    ensures NormalizeHeader(NormalizeHeader(s)) == NormalizeHeader(s)
  {
    var r := NormalizeHeader(s);
    NormalizeHeaderSpec(s);
    CollapseSpacesFixed(r);
    TrimOfTrimmed(r);
  }

  lemma PaddedKeepsNonSpaces(c: string, r: string, a: int)
    requires PaddedAt(c, r, a)
    ensures NonSpaces(r) == NonSpaces(c)
  {
    assert c == c[..a] + r + c[a + |r|..];
    NonSpacesConcat(c[..a] + r, c[a + |r|..]);
    NonSpacesConcat(c[..a], r);
    NonSpacesOfSpaces(c[..a]);
    NonSpacesOfSpaces(c[a + |r|..]);
  }

  lemma PaddedKeepsSpacing(c: string, r: string, a: int)
    requires PaddedAt(c, r, a)
    requires NoSpaceRun(c)
    requires forall k :: 0 <= k < |c| && IsSpace(c[k]) ==> c[k] == ' '
    ensures NoSpaceRun(r)
    ensures forall k :: 0 <= k < |r| && IsSpace(r[k]) ==> r[k] == ' '
  {
    forall k | 0 <= k < |r| ensures r[k] == c[a + k] { }
  }

  /** The response headers, which the middleware sets one after another. */
  class Headers {
    var entries: map<string, string>

    constructor ()
      ensures entries == map[]
    {
      entries := map[];
    }

    /** `response.headers.set(name, value)`. */
    method Set(name: string, value: string)
      modifies this
      ensures entries == old(entries)[name := value]
    {
      entries := entries[name := value];
    }
  }

  datatype Response = RedirectTo(location: string) | Next(headers: map<string, string>)

  /** `middleware(request)`: the guard's redirect, or the next response with
      the three security headers. */
  method HandleRequest(path: string, cookies: map<string, string>, adminToken: Option<string>)
    returns (response: Response)
    ensures var cookie := if "auth-token" in cookies then Some(cookies["auth-token"]) else None;
      RedirectsToLogin(path, cookie, adminToken) ==> response == RedirectTo("/login")
    ensures var cookie := if "auth-token" in cookies then Some(cookies["auth-token"]) else None;
      !RedirectsToLogin(path, cookie, adminToken) ==>
        && response.Next?
        && response.headers.Keys == {"Content-Security-Policy", "X-Frame-Options", "X-Content-Type-Options"}
        && response.headers["Content-Security-Policy"] == NormalizeHeader(CspTemplate)
        && response.headers["X-Frame-Options"] == "DENY"
        && response.headers["X-Content-Type-Options"] == "nosniff"
  {
    var isAdminRoute := IsAdminRoute(path);
    if isAdminRoute {
      var auth := if "auth-token" in cookies then Some(cookies["auth-token"]) else None;
      if !TokenAccepted(auth, adminToken) {
        return RedirectTo("/login");
      }
    }
    var cspHeader := NormalizeHeader(CspTemplate);
    var headers := new Headers();
    headers.Set("Content-Security-Policy", cspHeader);
    headers.Set("X-Frame-Options", "DENY");
    headers.Set("X-Content-Type-Options", "nosniff");
    response := Next(headers.entries);
  }
}
