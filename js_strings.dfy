/**
 * The JavaScript string primitives the booking code relies on: the `\d`
 * and `\s` character classes of ECMAScript regular expressions,
 * `String.prototype.trim`, and the global replacements `replace(/\D/g, '')`
 * and `replace(/\s+/g, ' ')`.
 */
module JsStrings {

  /** `\d` outside Unicode mode: the ASCII digits only. */
  predicate IsDigit(c: char) {
    '0' <= c <= '9'
  }

  /**
   * `\s`, which is also the set `trim` removes: WhiteSpace and
   * LineTerminator of ECMAScript (tab, line feed, vertical tab, form feed,
   * carriage return, space, no-break space, the Zs separators, line and
   * paragraph separator, and the byte order mark).
   */
  predicate IsSpace(c: char) {
    c == '\t' || c == '\n' || c == '\U{000B}' || c == '\U{000C}' || c == '\r' || c == ' ' ||
    c == '\U{00A0}' || c == '\U{1680}' || ('\U{2000}' <= c <= '\U{200A}') ||
    c == '\U{2028}' || c == '\U{2029}' || c == '\U{202F}' || c == '\U{205F}' ||
    c == '\U{3000}' || c == '\U{FEFF}'
  }

  predicate AllDigits(s: string) {
    forall k :: 0 <= k < |s| ==> IsDigit(s[k])
  }

  predicate AllSpace(s: string) {
    forall k :: 0 <= k < |s| ==> IsSpace(s[k])
  }

  /** Neither end of `s` is whitespace. */
  predicate Trimmed(s: string) {
    s == [] || (!IsSpace(s[0]) && !IsSpace(s[|s| - 1]))
  }

  /** No two adjacent characters of `s` are both whitespace. */
  predicate NoSpaceRun(s: string) {
    forall k :: 0 <= k < |s| - 1 ==> !(IsSpace(s[k]) && IsSpace(s[k + 1]))
  }

  /** The number of whitespace characters `s` starts with. */
  function LeadingSpaces(s: string): (n: nat)
    ensures n <= |s| && AllSpace(s[..n])
    ensures n < |s| ==> !IsSpace(s[n])
  {
    if s != [] && IsSpace(s[0]) then
      var n := 1 + LeadingSpaces(s[1..]);
      assert s[..n] == [s[0]] + s[1..][..n - 1];
      n
    else 0
  }

  /** Drops the leading whitespace: the result is a suffix of `s` that
      begins with a non-space, and what was dropped is all whitespace. */
  function TrimStart(s: string): (r: string)
    ensures r == [] || !IsSpace(r[0])
    ensures s != [] && IsSpace(s[0]) ==> |r| < |s|
  {
    s[LeadingSpaces(s)..]
  }

  /** Drops the trailing whitespace: the result is a prefix of `s` that
      ends with a non-space, and what was dropped is all whitespace. */
  function TrimEnd(s: string): (r: string)
    ensures |r| <= |s| && r == s[..|r|]
    ensures AllSpace(s[|r|..])
    ensures r == [] || !IsSpace(r[|r| - 1])
  {
    if s != [] && IsSpace(s[|s| - 1]) then TrimEnd(s[..|s| - 1]) else s
  }

  /** `s` is `r` with whitespace-only text `s[..a]` before it and
      whitespace-only text after it. */
  predicate PaddedAt(s: string, r: string, a: int) {
    0 <= a <= a + |r| <= |s| && r == s[a..a + |r|] && AllSpace(s[..a]) && AllSpace(s[a + |r|..])
  }

  /** `s.trim()`: what is left when the whitespace at both ends is removed. */
  function Trim(s: string): (r: string)
    ensures Trimmed(r)
  {
    TrimEnd(TrimStart(s))
  }

  /** `Trim(s)` is a slice of `s` with only whitespace cut off on either side. */
  lemma TrimIsSlice(s: string)
    ensures exists a :: PaddedAt(s, Trim(s), a)
  {
    TrimSlices(s, TrimStart(s), Trim(s));
  }

  lemma TrimSlices(s: string, t: string, r: string)
    requires |t| <= |s| && t == s[|s| - |t|..] && AllSpace(s[..|s| - |t|])
    requires |r| <= |t| && r == t[..|r|] && AllSpace(t[|r|..])
    ensures PaddedAt(s, r, |s| - |t|)
  {
    var a := |s| - |t|;
    assert s[a + |r|..] == t[|r|..];
  }

  lemma TrimIdempotent(s: string)
    ensures Trim(Trim(s)) == Trim(s)
  {
    var t := Trim(s);
    if t != [] {
      assert TrimStart(t) == t;
      assert TrimEnd(t) == t;
    }
  }

  /** `s.replace(/\D/g, '')`: the digits of `s`, in order. */
  function StripNonDigits(s: string): (r: string)
    ensures AllDigits(r)
    ensures |r| <= |s|
    ensures AllDigits(s) ==> r == s
  {
    if s == [] then []
    else if IsDigit(s[0]) then [s[0]] + StripNonDigits(s[1..])
    else StripNonDigits(s[1..])
  }

  lemma {:induction false} StripNonDigitsIdempotent(s: string)
    ensures StripNonDigits(StripNonDigits(s)) == StripNonDigits(s)
  {
  }

  /** Removing the non-digits distributes over concatenation. */
  lemma {:induction false} StripNonDigitsConcat(a: string, b: string)
    ensures StripNonDigits(a + b) == StripNonDigits(a) + StripNonDigits(b)
  {
    if a != [] {
      assert (a + b)[0] == a[0];
      assert (a + b)[1..] == a[1..] + b;
      StripNonDigitsConcat(a[1..], b);
    } else {
      assert a + b == b;
    }
  }

  /** A string without digits is removed entirely. */
  lemma {:induction false} StripNonDigitsOfNonDigits(s: string)
    requires forall k :: 0 <= k < |s| ==> !IsDigit(s[k])
    ensures StripNonDigits(s) == []
  {
    if s != [] {
      StripNonDigitsOfNonDigits(s[1..]);
    }
  }

  /** The characters of `s` that are not whitespace, in order. */
  function NonSpaces(s: string): string {
    if s == [] then []
    else if IsSpace(s[0]) then NonSpaces(s[1..])
    else [s[0]] + NonSpaces(s[1..])
  }

  lemma {:induction false} NonSpacesConcat(a: string, b: string)
    ensures NonSpaces(a + b) == NonSpaces(a) + NonSpaces(b)
  {
    if a != [] {
      assert (a + b)[0] == a[0];
      assert (a + b)[1..] == a[1..] + b;
      NonSpacesConcat(a[1..], b);
    } else {
      assert a + b == b;
    }
  }

  lemma {:induction false} NonSpacesOfSpaces(s: string)
    requires AllSpace(s)
    ensures NonSpaces(s) == []
  {
    if s != [] {
      NonSpacesOfSpaces(s[1..]);
    }
  }

  /** `s.replace(/\s+/g, ' ')`: every maximal run of whitespace becomes one
      space; the non-whitespace characters are kept, in order. */
  function CollapseSpaces(s: string): (r: string)
    ensures NoSpaceRun(r)
    ensures forall k :: 0 <= k < |r| && IsSpace(r[k]) ==> r[k] == ' '
    ensures NonSpaces(r) == NonSpaces(s)
    ensures (r != [] && IsSpace(r[0])) <==> (s != [] && IsSpace(s[0]))
    decreases |s|
  {
    if s == [] then []
    else if IsSpace(s[0]) then
      var t := TrimStart(s);
      var rest := CollapseSpaces(t);
      assert s == s[..|s| - |t|] + t;
      NonSpacesConcat(s[..|s| - |t|], t);
      NonSpacesOfSpaces(s[..|s| - |t|]);
      [' '] + rest
    else
      assert s == [s[0]] + s[1..];
      [s[0]] + CollapseSpaces(s[1..])
  }

  /** A string already in the collapsed form is left as it is. */
  lemma {:induction false} CollapseSpacesFixed(s: string)
    requires NoSpaceRun(s)
    requires forall k :: 0 <= k < |s| && IsSpace(s[k]) ==> s[k] == ' '
    ensures CollapseSpaces(s) == s
    decreases |s|
  {
    if s != [] {
      assert forall k :: 0 <= k < |s| - 1 ==> s[1..][k] == s[k + 1];
      CollapseSpacesFixed(s[1..]);
      if IsSpace(s[0]) {
        assert s[1..] == [] || !IsSpace(s[1..][0]);
        assert LeadingSpaces(s[1..]) == 0;
        assert TrimStart(s) == s[1..];
      }
      assert s == [s[0]] + s[1..];
    }
  }

  /** Trimming a string with no whitespace at either end changes nothing. */
  lemma TrimOfTrimmed(s: string)
    requires Trimmed(s)
    ensures Trim(s) == s
  {
    if s != [] {
      assert TrimStart(s) == s;
    }
  }

  /** The leading whitespace of `x + y`: that of `x` when `x` has a
      non-whitespace character, all of `x` and then that of `y` otherwise. */
  lemma {:induction false} LeadingSpacesAppend(x: string, y: string)
    ensures LeadingSpaces(x) < |x| ==> LeadingSpaces(x + y) == LeadingSpaces(x)
    ensures LeadingSpaces(x) == |x| ==> LeadingSpaces(x + y) == |x| + LeadingSpaces(y)
    decreases |x|
  {
    if x != [] {
      assert (x + y)[0] == x[0];
      assert (x + y)[1..] == x[1..] + y;
      LeadingSpacesAppend(x[1..], y);
    } else {
      assert x + y == y;
    }
  }

  /** Each maximal run of whitespace becomes exactly one space: a run `w`
      between text that does not end in whitespace and text that does not
      begin with it is replaced by `" "`, and the two sides are collapsed
      on their own. */
  lemma {:induction false} CollapseSpacesRun(a: string, w: string, b: string)
    requires w != [] && AllSpace(w)
    requires a == [] || !IsSpace(a[|a| - 1])
    requires b == [] || !IsSpace(b[0])
    ensures CollapseSpaces(a + w + b) == CollapseSpaces(a) + " " + CollapseSpaces(b)
    decreases |a|
  {
    if a == [] {
      CollapseLeadingRun(w, b);
      assert a + w + b == w + b;
    } else {
      var rest, head := CollapseFront(a, w + b);
      CollapseSpacesRun(rest, w, b);
      AppendAssoc(a, w, b);
      AppendAssoc(rest, w, b);
      AppendAssoc(head, CollapseSpaces(rest) + " ", CollapseSpaces(b));
      AppendAssoc(head, CollapseSpaces(rest), " ");
    }
  }

  lemma AppendAssoc<T>(x: seq<T>, y: seq<T>, z: seq<T>)
    ensures x + (y + z) == x + y + z
  {
  }

  /** A leading run collapses to one space before the rest. */
  lemma CollapseLeadingRun(w: string, b: string)
    requires w != [] && AllSpace(w)
    requires b == [] || !IsSpace(b[0])
    ensures CollapseSpaces(w + b) == " " + CollapseSpaces(b)
  {
    assert LeadingSpaces(w) == |w|;
    LeadingSpacesAppend(w, b);
    assert (w + b)[0] == w[0];
    assert (w + b)[|w|..] == b;
  }

  /** The first step of the replacement on text `a` ending in a
      non-whitespace character: it emits `head` (a leading run's space, or
      the first character) and continues with a shorter `rest` of `a`
      that still ends in that character, whatever follows `a`. */
  lemma CollapseFront(a: string, t: string) returns (rest: string, head: string)
    requires a != [] && !IsSpace(a[|a| - 1])
    ensures |rest| < |a| && (rest == [] || !IsSpace(rest[|rest| - 1]))
    ensures CollapseSpaces(a + t) == head + CollapseSpaces(rest + t)
    ensures CollapseSpaces(a) == head + CollapseSpaces(rest)
  {
    assert (a + t)[0] == a[0];
    if IsSpace(a[0]) {
      var n := LeadingSpaces(a);
      assert a[..|a|] == a;
      LeadingSpacesAppend(a, t);
      assert (a + t)[n..] == a[n..] + t;
      rest, head := a[n..], " ";
    } else {
      assert (a + t)[1..] == a[1..] + t;
      rest, head := a[1..], [a[0]];
    }
  }

  /** Text that ends in a non-whitespace character still does after the
      replacement. */
  lemma {:induction false} CollapseSpacesKeepsEnd(s: string)
    requires s != [] && !IsSpace(s[|s| - 1])
    ensures CollapseSpaces(s) != [] && !IsSpace(CollapseSpaces(s)[|CollapseSpaces(s)| - 1])
    decreases |s|
  {
    if IsSpace(s[0]) {
      var n := LeadingSpaces(s);
      assert s[..|s|] == s;
      assert n < |s|;
      CollapseSpacesKeepsEnd(s[n..]);
    } else if |s| > 1 {
      CollapseSpacesKeepsEnd(s[1..]);
    }
  }
}
