/**
 * The few JavaScript built-ins the site's logic relies on, written out on
 * `seq<char>`: truthiness of optional strings and booleans, `startsWith`,
 * `endsWith`, `indexOf`, `replace` with a string pattern, and
 * `Number.prototype.toString(radix)` for integral numbers.
 */
module JsString {
  import opened Wrappers

  /** `o` is truthy: present and not the empty string. */
  predicate Truthy(o: Option<string>) {
    o.Some? && o.value != ""
  }

  /** `o || fallback` for an optional string and a string fallback. */
  function OrElse(o: Option<string>, fallback: string): (r: string)
    ensures Truthy(o) ==> r == o.value
    ensures !Truthy(o) ==> r == fallback
  {
    match o
    case Some(s) => if s != "" then s else fallback
    case None => fallback
  }

  /** `a || b` for two optional strings; the result is truthy iff one of them is. */
  function OrOptional(a: Option<string>, b: Option<string>): (r: Option<string>)
    ensures Truthy(r) <==> Truthy(a) || Truthy(b)
    ensures Truthy(a) ==> r == a
    ensures !Truthy(a) ==> r == b
  {
    if Truthy(a) then a else b
  }

  /** `a || b` for two strings: `a` unless it is empty. */
  function Or(a: string, b: string): (r: string)
    ensures a != "" ==> r == a
    ensures a == "" ==> r == b
  {
    if a != "" then a else b
  }

  /** An optional boolean is truthy exactly when it is present and true. */
  predicate IsTrue(b: Option<bool>) {
    b == Some(true)
  }

  /** `s.startsWith(prefix)`. */
  predicate StartsWith(s: string, prefix: string) {
    |prefix| <= |s| && s[..|prefix|] == prefix
  }

  /** `s.endsWith(suffix)`. */
  predicate EndsWith(s: string, suffix: string) {
    |suffix| <= |s| && s[|s| - |suffix|..] == suffix
  }

  /** `pat` occurs in `s` starting at index `j`. */
  predicate OccursAt(s: string, pat: string, j: int) {
    0 <= j && j + |pat| <= |s| && s[j..j + |pat|] == pat
  }

  /** `s.indexOf(pat, i)`, with None for -1: the first occurrence at or after `i`. */
  function IndexFrom(s: string, pat: string, i: nat): (r: Option<nat>)
    ensures r.Some? ==> i <= r.value && OccursAt(s, pat, r.value)
    ensures r.Some? ==> forall j :: i <= j < r.value ==> !OccursAt(s, pat, j)
    ensures r.None? ==> forall j :: i <= j ==> !OccursAt(s, pat, j)
    decreases |s| - i
  {
    if i + |pat| > |s| then None
    else if s[i..i + |pat|] == pat then Some(i)
    else IndexFrom(s, pat, i + 1)
  }

  /** `s.indexOf(pat)`. */
  function IndexOf(s: string, pat: string): (r: Option<nat>)
    ensures r.Some? ==> OccursAt(s, pat, r.value) && forall j :: 0 <= j < r.value ==> !OccursAt(s, pat, j)
    ensures r.None? ==> forall j :: 0 <= j ==> !OccursAt(s, pat, j)
  {
    IndexFrom(s, pat, 0)
  }

  /**
   * `s.replace(pat, rep)` with a string pattern and a replacement without `$`
   * patterns: only the first occurrence of `pat` is replaced.
   */
  function ReplaceFirst(s: string, pat: string, rep: string): (r: string)
    ensures (forall j :: 0 <= j ==> !OccursAt(s, pat, j)) ==> r == s
    ensures forall i :: OccursAt(s, pat, i) && (forall j :: 0 <= j < i ==> !OccursAt(s, pat, j)) ==>
      r == s[..i] + rep + s[i + |pat|..]
  {
    match IndexOf(s, pat)
    case None => s
    case Some(i) => s[..i] + rep + s[i + |pat|..]
  }

  /** The digits JavaScript uses for radixes up to 16, in value order. */
  const DigitAlphabet: string := "0123456789abcdef"

  /** The digits `Number.prototype.toString(radix)` prints for a non-negative integer. */
  function RadixDigits(n: nat, radix: nat): (s: string)
    requires 2 <= radix <= 16
    ensures |s| >= 1
    ensures n < radix <==> |s| == 1
    ensures forall k :: 0 <= k < |s| ==> s[k] in DigitAlphabet
    decreases n
  {
    if n < radix then [DigitAlphabet[n]]
    else
      DivBounds(n, radix);
      RadixDigits(n / radix, radix) + [DigitAlphabet[n % radix]]
  }

  /** Dividing a number that is at least the radix gives a smaller positive quotient. */
  lemma DivBounds(n: nat, radix: nat)
    requires 2 <= radix
    ensures n >= radix ==> 1 <= n / radix < n
  {
    if n >= radix {
      var q := n / radix;
      assert n == q * radix + n % radix;
      assert n % radix < radix;
      assert q * radix >= q * 2;
    }
  }

  /** `x.toString(radix)` for an integral number `x`. */
  function NumberToString(x: int, radix: nat): (s: string)
    requires 2 <= radix <= 16
    ensures x >= 0 ==> s == RadixDigits(x, radix)
    ensures x < 0 ==> s == "-" + RadixDigits(-x, radix)
  {
    if x < 0 then "-" + RadixDigits(-x, radix) else RadixDigits(x, radix)
  }
}
