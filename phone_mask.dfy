/**
 * The phone-masking rewrite both read paths use, a single (non-global)
 * regular-expression replacement
 *
 *   s.replace(/(\d{L})\d{4}(\d{3})/, '$1****$2')
 *
 * with L = 5 on the server read path and L = 3 on the admin page. The
 * pattern has a fixed width W = L + 7, so it matches exactly at the
 * leftmost position where W consecutive ASCII digits start, and only that
 * first match is replaced.
 */
module PhoneMask {
  import opened Wrappers
  import opened JsStrings

  /** Width of the `****` block and of the kept `(\d{3})` tail. */
  const MaskWidth: nat := 4
  const TailWidth: nat := 3

  /** Width of the whole pattern `(\d{lead})\d{4}(\d{3})`. */
  function PatternWidth(lead: nat): nat {
    lead + MaskWidth + TailWidth
  }

  /** `s[i..i+n]` exists and is all digits. */
  predicate DigitRunAt(s: string, i: int, n: nat) {
    0 <= i && i + n <= |s| && forall k :: i <= k < i + n ==> IsDigit(s[k])
  }

  /** The leftmost start, at or after `from`, of `n` consecutive digits:
      where a regular-expression search for `\d{n}` finds its match. */
  function FirstDigitRun(s: string, n: nat, from: nat): (r: Option<nat>)
    ensures r.Some? ==> from <= r.value && DigitRunAt(s, r.value, n)
    ensures r.Some? ==> forall j :: from <= j < r.value ==> !DigitRunAt(s, j, n)
    ensures r.None? ==> forall j :: from <= j ==> !DigitRunAt(s, j, n)
    decreases |s| - from
  {
    if from + n > |s| then None
    else if DigitRunAt(s, from, n) then Some(from)
    else FirstDigitRun(s, n, from + 1)
  }

  /** The replacement: keep the first `lead` digits of the match, write
      `****` over the next four, keep the last three and everything else. */
  function MaskFirstRun(s: string, lead: nat): string {
    match FirstDigitRun(s, PatternWidth(lead), 0)
    case None => s
    case Some(i) => s[..i + lead] + "****" + s[i + lead + MaskWidth..]
  }

  lemma MaskFirstRunLength(s: string, lead: nat)
    ensures |MaskFirstRun(s, lead)| == |s|
  {
  }

  /** With the leftmost run of `lead + 7` digits at `i`, exactly the four
      characters at offsets `lead..lead+3` of that run become `*`; every
      other character is unchanged. */
  lemma MaskFirstRunAt(s: string, lead: nat, i: nat)
    requires DigitRunAt(s, i, PatternWidth(lead))
    requires forall j :: 0 <= j < i ==> !DigitRunAt(s, j, PatternWidth(lead))
    ensures |MaskFirstRun(s, lead)| == |s|
    ensures forall k :: 0 <= k < |s| ==>
      MaskFirstRun(s, lead)[k] == if i + lead <= k < i + lead + 4 then '*' else s[k]
  {
    var found := FirstDigitRun(s, PatternWidth(lead), 0);
    assert found == Some(i);
  }

  /** Without any run of `lead + 7` digits the string is returned unchanged. */
  lemma MaskFirstRunNoMatch(s: string, lead: nat)
    requires forall j :: !DigitRunAt(s, j, PatternWidth(lead))
    ensures MaskFirstRun(s, lead) == s
  {
  }
}
