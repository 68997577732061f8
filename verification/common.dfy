/**
 * Shared value types and the pieces of JavaScript string behaviour that the
 * browser code relies on: `String.prototype.trim`, `Array.prototype.join`,
 * decimal printing of integers (`Number.prototype.toString`) and decimal
 * digit runs (as `parseInt` and `\d+` read them).
 */
module Common {

  /** A value that may be absent (JavaScript `null` / `undefined`). */
  datatype Option<+T> = None | Some(value: T) {
    function GetOr(default: T): T {
      match this
      case Some(v) => v
      case None => default
    }
  }

  /** The outcome of an operation that can be refused: a value, or the reason it was refused. */
  datatype Result<+T, +E> = Ok(value: T) | Err(error: E)

  // ---------------------------------------------------------------------
  // Whitespace and trim
  // ---------------------------------------------------------------------

  /**
   * The characters `String.prototype.trim` removes: the ECMAScript WhiteSpace
   * and LineTerminator code points (TAB, VT, FF, SP, NBSP, ZWNBSP, the Zs
   * space separators, LF, CR, LS, PS).
   */
  predicate IsJsWhitespace(c: char) {
    || c == '\t' || c == '\n' || c == '\U{000B}' || c == '\U{000C}' || c == '\r'
    || c == ' ' || c == '\U{00A0}' || c == '\U{1680}'
    || ('\U{2000}' <= c <= '\U{200A}')
    || c == '\U{2028}' || c == '\U{2029}' || c == '\U{202F}' || c == '\U{205F}'
    || c == '\U{3000}' || c == '\U{FEFF}'
  }

  /** Every character of `s` is whitespace (the empty string included). */
  predicate IsBlank(s: string) {
    forall i :: 0 <= i < |s| ==> IsJsWhitespace(s[i])
  }

  /** The length of the run of whitespace at the start of `s`. */
  function LeadingBlank(s: string): (k: nat)
    ensures k <= |s| && IsBlank(s[..k])
    ensures k < |s| ==> !IsJsWhitespace(s[k])
  {
    if s != [] && IsJsWhitespace(s[0]) then
      var k := 1 + LeadingBlank(s[1..]);
      assert s[..k] == [s[0]] + s[1..][..k - 1];
      k
    else 0
  }

  /** The length of `s` without the run of whitespace at its end. */
  function KeptBeforeTrailingBlank(s: string): (k: nat)
    ensures k <= |s| && IsBlank(s[k..])
    ensures k > 0 ==> !IsJsWhitespace(s[k - 1])
  {
    if s != [] && IsJsWhitespace(s[|s| - 1]) then
      var k := KeptBeforeTrailingBlank(s[..|s| - 1]);
      assert s[k..] == s[..|s| - 1][k..] + [s[|s| - 1]];
      k
    else |s|
  }

  /** `s` with its leading whitespace removed. */
  function TrimStart(s: string): (r: string)
    ensures |r| <= |s| && r == s[|s| - |r|..]
    ensures IsBlank(s[..|s| - |r|])
    ensures r != [] ==> !IsJsWhitespace(r[0])
  {
    s[LeadingBlank(s)..]
  }

  /** `String.prototype.trim`: `s` without its leading and trailing whitespace; empty exactly when `s` is blank. */
  function Trim(s: string): (r: string)
    ensures |r| <= |s|
    ensures LeadingBlank(s) + |r| <= |s| && r == s[LeadingBlank(s)..LeadingBlank(s) + |r|]
    ensures IsBlank(s[..LeadingBlank(s)]) && IsBlank(s[LeadingBlank(s) + |r|..])
    ensures r == "" <==> IsBlank(s)
    ensures r != [] ==> !IsJsWhitespace(r[0]) && !IsJsWhitespace(r[|r| - 1])
  {
    var k := LeadingBlank(s);
    var j := KeptBeforeTrailingBlank(s[k..]);
    TrimMiddle(s, k, j);
    TrimEmpty(s, k, j);
    s[k..k + j]
  }

  /** The kept middle of `s`: what follows it is blank, and it starts and ends with non-whitespace. */
  lemma TrimMiddle(s: string, k: nat, j: nat)
    requires k == LeadingBlank(s) && j == KeptBeforeTrailingBlank(s[k..])
    ensures k + j <= |s| && IsBlank(s[k + j..])
    ensures j > 0 ==> !IsJsWhitespace(s[k]) && !IsJsWhitespace(s[k + j - 1])
  {
    var a := s[k..];
    assert a[j..] == s[k + j..];
    if j > 0 {
      assert a[j - 1] == s[k + j - 1];
    }
  }

  /** Nothing is kept exactly when `s` is all whitespace. */
  lemma TrimEmpty(s: string, k: nat, j: nat)
    requires k == LeadingBlank(s) && j == KeptBeforeTrailingBlank(s[k..])
    ensures j == 0 <==> IsBlank(s)
  {
    if k < |s| {
      assert !IsBlank(s) by { assert !IsJsWhitespace(s[k]); }
      assert s[k..][0] == s[k];
    } else {
      assert s[..k] == s;
    }
  }

  // ---------------------------------------------------------------------
  // Array.prototype.join
  // ---------------------------------------------------------------------

  /** `xs.join(sep)`: the items in order with `sep` between neighbours. */
  function Join(xs: seq<string>, sep: string): string {
    if xs == [] then ""
    else if |xs| == 1 then xs[0]
    else Join(xs[..|xs| - 1], sep) + sep + xs[|xs| - 1]
  }

  /** Concatenation regrouped: appending three pieces one after another appends their concatenation. */
  lemma Regroup<T>(s: seq<T>, a: seq<T>, b: seq<T>, c: seq<T>)
    ensures s + a + b + c == s + (a + b + c)
  {
  }

  /** Concatenation is associative. */
  lemma Assoc<T>(a: seq<T>, b: seq<T>, c: seq<T>)
    ensures a + (b + c) == a + b + c
  {
  }

  /** Adding one item at the end of a non-empty list adds the separator and the item. */
  lemma JoinSnoc(xs: seq<string>, x: string, sep: string)
    requires xs != []
    ensures Join(xs + [x], sep) == Join(xs, sep) + sep + x
  {
    assert (xs + [x])[..|xs|] == xs;
  }

  /** Joining two non-empty lists one after the other puts one separator between their joins. */
  lemma {:induction false} JoinAppend(a: seq<string>, b: seq<string>, sep: string)
    requires a != [] && b != []
    ensures Join(a + b, sep) == Join(a, sep) + sep + Join(b, sep)
  {
    var init, last := b[..|b| - 1], b[|b| - 1];
    assert b == init + [last];
    Assoc(a, init, [last]);
    JoinSnoc(a + init, last, sep);
    if init == [] {
      assert a + init == a;
    } else {
      JoinAppend(a, init, sep);
      JoinSnoc(init, last, sep);
      Regroup(Join(a, sep), sep, Join(init, sep), sep + last);
      Assoc(Join(init, sep), sep, last);
    }
  }

  // ---------------------------------------------------------------------
  // Decimal digits
  // ---------------------------------------------------------------------

  /** `\d` in a JavaScript regular expression without the `u` flag. */
  predicate IsDigit(c: char) {
    '0' <= c <= '9'
  }

  function DigitValue(c: char): (d: nat)
    requires IsDigit(c)
    ensures d < 10
  {
    (c as int - '0' as int)
  }

  function DigitChar(d: nat): (c: char)
    requires d < 10
    ensures IsDigit(c) && DigitValue(c) == d
  {
    (d + '0' as int) as char
  }

  predicate AllDigits(s: string) {
    forall i :: 0 <= i < |s| ==> IsDigit(s[i])
  }

  /** The decimal text of `n`, as `n.toString()` prints a non-negative integer. */
  function Dec(n: nat): (r: string)
    ensures |r| >= 1 && AllDigits(r)
    ensures r[0] == '0' ==> n == 0 && r == "0"
    ensures n < 10 <==> |r| == 1
  {
    if n < 10 then [DigitChar(n)] else Dec(n / 10) + [DigitChar(n % 10)]
  }

  /** The value of a run of decimal digits, read left to right. */
  function ParseNat(s: string): nat
    requires AllDigits(s)
  {
    if s == [] then 0 else ParseNat(s[..|s| - 1]) * 10 + DigitValue(s[|s| - 1])
  }

  /** Reading back the printed decimal text of `n` gives `n`. */
  lemma {:induction false} ParseDec(n: nat)
    ensures ParseNat(Dec(n)) == n
  {
    if n >= 10 {
      var d := Dec(n);
      assert d[..|d| - 1] == Dec(n / 10);
      ParseDec(n / 10);
    }
  }

  /** The length of the run of digits at the start of `s` (what a greedy `\d+` consumes). */
  function DigitRun(s: string): (k: nat)
    ensures k <= |s| && AllDigits(s[..k])
    ensures k < |s| ==> !IsDigit(s[k])
  {
    if s != [] && IsDigit(s[0]) then
      var k := 1 + DigitRun(s[1..]);
      assert s[..k] == [s[0]] + s[1..][..k - 1];
      k
    else 0
  }

  /** The digit run of a digit string followed by a non-digit is exactly that string. */
  lemma {:induction false} DigitRunOf(d: string, rest: string)
    requires AllDigits(d)
    requires rest != [] ==> !IsDigit(rest[0])
    ensures DigitRun(d + rest) == |d|
  {
    if d != [] {
      assert (d + rest)[1..] == d[1..] + rest;
      DigitRunOf(d[1..], rest);
    }
  }
}
