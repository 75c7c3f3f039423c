/**
  The pieces of Python's `str` that the client code relies on, restricted to
  ASCII: `lower()`, `strip()`, `split()`, the `in` substring test, and the
  leftmost-longest digit run that `re.search(r'(\d+)', t)` finds.
*/
module Text {
  import opened Wrappers

  /** Python's `str.isspace` on ASCII: tab, newline, vertical tab, form feed,
      carriage return, the four information separators and space. */
  predicate IsSpace(c: char) {
    var n := c as int;
    (9 <= n <= 13) || (28 <= n <= 32)
  }

  predicate IsDigit(c: char) {
    '0' <= c <= '9'
  }

  /** `str.lower()` on one character: ASCII upper-case letters only. */
  function LowerChar(c: char): (r: char)
    ensures 'A' <= c <= 'Z' ==> 'a' <= r <= 'z' && r as int == c as int + 32
    ensures !('A' <= c <= 'Z') ==> r == c
  {
    if 'A' <= c <= 'Z' then (c as int + 32) as char else c
  }

  /** `str.lower()`: lower-cases every character, keeps the length. */
  function Lower(s: string): (r: string)
    ensures |r| == |s|
    ensures forall i :: 0 <= i < |s| ==> r[i] == LowerChar(s[i])
  {
    seq(|s|, i requires 0 <= i < |s| => LowerChar(s[i]))
  }

  /** A string that `Lower` leaves as it is. */
  predicate IsLowered(s: string) {
    forall i :: 0 <= i < |s| ==> LowerChar(s[i]) == s[i]
  }

  lemma LowerFixesLowered(s: string)
    requires IsLowered(s)
    ensures Lower(s) == s
  {
  }

  /** Leading whitespace removed; the result is a suffix of `s`. */
  function LStrip(s: string): (r: string)
    ensures |r| <= |s| && r == s[|s| - |r|..]
    ensures forall i :: 0 <= i < |s| - |r| ==> IsSpace(s[i])
    ensures r == [] || !IsSpace(r[0])
  {
    if s != [] && IsSpace(s[0]) then LStrip(s[1..]) else s
  }

  /** Trailing whitespace removed; the result is a prefix of `s`. */
  function RStrip(s: string): (r: string)
    ensures |r| <= |s| && r == s[..|r|]
    ensures forall i :: |r| <= i < |s| ==> IsSpace(s[i])
    ensures r == [] || !IsSpace(r[|r| - 1])
  {
    if s != [] && IsSpace(s[|s| - 1]) then RStrip(s[..|s| - 1]) else s
  }

  /** `str.strip()`: whitespace removed at both ends. */
  function Strip(s: string): (r: string)
  {
    RStrip(LStrip(s))
  }

  /** `Strip` yields a slice of its input with no whitespace at either end,
      and everything it cut away is whitespace. */
  lemma StripSlice(s: string)
    ensures exists i, j ::
              && 0 <= i <= j <= |s| && Strip(s) == s[i..j]
              && (forall k :: 0 <= k < i ==> IsSpace(s[k]))
              && (forall k :: j <= k < |s| ==> IsSpace(s[k]))
    ensures Strip(s) == [] || (!IsSpace(Strip(s)[0]) && !IsSpace(Strip(s)[|Strip(s)| - 1]))
  {
    var l := LStrip(s);
    var r := RStrip(l);
    var i := |s| - |l|;
    var j := i + |r|;
    assert Strip(s) == r == s[i..j];
    assert forall k :: 0 <= k < i ==> IsSpace(s[k]);
    forall k | j <= k < |s|
      ensures IsSpace(s[k])
    {
      assert s[k] == l[k - i];
    }
    if r != [] {
      assert r[0] == l[0];
    }
  }

  /** Stripping twice is stripping once. */
  lemma StripIdempotent(s: string)
    ensures Strip(Strip(s)) == Strip(s)
  {
    var l := LStrip(s);
    var r := RStrip(l);
    if r != [] {
      assert r[0] == l[0];
    }
    assert LStrip(r) == r;
  }

  /** The client's normal form of a prompt: `text.lower().strip()`. */
  function Normalize(s: string): (r: string)
  {
    Strip(Lower(s))
  }

  /** A normalised prompt is its own normal form. */
  lemma NormalizeIdempotent(s: string)
    ensures Normalize(Normalize(s)) == Normalize(s)
  {
    var x := Lower(s);
    LowerIsLowered(s);
    StripKeepsLowered(x);
    LowerFixesLowered(Strip(x));
    StripIdempotent(x);
  }

  lemma LowerIsLowered(s: string)
    ensures IsLowered(Lower(s))
  {
    var x := Lower(s);
    forall k | 0 <= k < |x|
      ensures LowerChar(x[k]) == x[k]
    {
      assert x[k] == LowerChar(s[k]);
    }
  }

  lemma StripKeepsLowered(x: string)
    requires IsLowered(x)
    ensures IsLowered(Strip(x))
  {
    var l := LStrip(x);
    SliceKeepsLowered(x, |x| - |l|, |x|);
    SliceKeepsLowered(l, 0, |RStrip(l)|);
  }

  lemma SliceKeepsLowered(x: string, a: nat, b: nat)
    requires IsLowered(x) && a <= b <= |x|
    ensures IsLowered(x[a..b])
  {
    var y := x[a..b];
    forall k | 0 <= k < |y|
      ensures LowerChar(y[k]) == y[k]
    {
      assert y[k] == x[a + k];
    }
  }

  /** Python's `sub in s`: `sub` occurs as a contiguous piece of `s`. */
  predicate Contains(s: string, sub: string)
    decreases |s|
  {
    sub <= s || (s != [] && Contains(s[1..], sub))
  }

  /** `sub` occurs in `s` starting at index `i`. */
  predicate OccursAt(s: string, sub: string, i: int) {
    0 <= i && i + |sub| <= |s| && s[i..i + |sub|] == sub
  }

  /** `Contains` is the substring test: there is an index where `sub`
      occurs. */
  lemma {:induction false} ContainsIffOccurs(s: string, sub: string)
    ensures Contains(s, sub) <==> exists i :: OccursAt(s, sub, i)
    decreases |s|
  {
    if sub <= s {
      assert OccursAt(s, sub, 0);
    } else if s != [] {
      ContainsIffOccurs(s[1..], sub);
      if Contains(s[1..], sub) {
        var i :| OccursAt(s[1..], sub, i);
        assert s[1..][i..i + |sub|] == s[i + 1..i + 1 + |sub|];
        assert OccursAt(s, sub, i + 1);
      }
      if i :| OccursAt(s, sub, i) {
        if i > 0 {
          assert s[1..][i - 1..i - 1 + |sub|] == s[i..i + |sub|];
          assert OccursAt(s[1..], sub, i - 1);
        }
      }
    }
  }

  /** Whatever occurs in a suffix of `s` occurs in `s`. */
  lemma {:induction false} ContainsInSuffix(s: string, k: nat, sub: string)
    requires k <= |s|
    requires Contains(s[k..], sub)
    ensures Contains(s, sub)
    decreases k
  {
    if k > 0 {
      assert s[1..][k - 1..] == s[k..];
      ContainsInSuffix(s[1..], k - 1, sub);
    }
  }

  /** Every character of an occurring piece is a character of `s`. */
  lemma {:induction false} ContainedCharsOccur(s: string, sub: string)
    requires Contains(s, sub)
    ensures forall k :: 0 <= k < |sub| ==> sub[k] in s
    decreases |s|
  {
    if !(sub <= s) {
      ContainedCharsOccur(s[1..], sub);
      forall k | 0 <= k < |sub|
        ensures sub[k] in s
      {
        var m :| 0 <= m < |s[1..]| && s[1..][m] == sub[k];
        assert s[m + 1] == sub[k];
      }
    }
  }

  /** So a piece holding a character that `s` lacks does not occur in `s`. */
  lemma MissingCharNotContained(s: string, sub: string, k: nat)
    requires k < |sub| && sub[k] !in s
    ensures !Contains(s, sub)
  {
    if Contains(s, sub) {
      ContainedCharsOccur(s, sub);
    }
  }

  predicate NoSpace(w: string) {
    forall k :: 0 <= k < |w| ==> !IsSpace(w[k])
  }

  /** The longest prefix of `s` without whitespace. */
  function TakeWord(s: string): (w: string)
    ensures w <= s && NoSpace(w)
    ensures |w| == |s| || IsSpace(s[|w|])
  {
    if s == [] || IsSpace(s[0]) then [] else [s[0]] + TakeWord(s[1..])
  }

  /** `str.split()` with no separator: the maximal runs of non-whitespace,
      left to right. Each word is non-empty, holds no whitespace and occurs
      in `s`. */
  function Words(s: string): (ws: seq<string>)
    ensures forall i :: 0 <= i < |ws| ==> ws[i] != [] && NoSpace(ws[i]) && Contains(s, ws[i])
    decreases |s|
  {
    if s == [] then []
    else if IsSpace(s[0]) then
      var rest := Words(s[1..]);
      assert forall i :: 0 <= i < |rest| ==> Contains(s, rest[i]) by {
        forall i | 0 <= i < |rest| ensures Contains(s, rest[i]) {
          ContainsInSuffix(s, 1, rest[i]);
        }
      }
      rest
    else
      var w := TakeWord(s);
      var rest := Words(s[|w|..]);
      assert forall i :: 0 <= i < |rest| ==> Contains(s, rest[i]) by {
        forall i | 0 <= i < |rest| ensures Contains(s, rest[i]) {
          ContainsInSuffix(s, |w|, rest[i]);
        }
      }
      [w] + rest
  }

  predicate AllSpace(s: string) {
    forall k :: 0 <= k < |s| ==> IsSpace(s[k])
  }

  /** `Words` is `split()`: no word exactly when the text is all whitespace;
      otherwise the first word is the non-whitespace run after the leading
      whitespace, and the other words are those of the text after it. */
  lemma {:induction false} WordsSplit(s: string)
    ensures Words(s) == [] <==> AllSpace(s)
    ensures Words(s) != [] ==>
      var l := LStrip(s); var w := TakeWord(l);
      Words(s)[0] == w && Words(s)[1..] == Words(l[|w|..])
    decreases |s|
  {
    if s != [] && IsSpace(s[0]) {
      WordsSplit(s[1..]);
      assert AllSpace(s) <==> AllSpace(s[1..]) by {
        if AllSpace(s[1..]) {
          forall k | 0 <= k < |s| ensures IsSpace(s[k]) {
            if k > 0 { assert s[k] == s[1..][k - 1]; }
          }
        }
        if AllSpace(s) {
          forall k | 0 <= k < |s[1..]| ensures IsSpace(s[1..][k]) {
            assert s[1..][k] == s[k + 1];
          }
        }
      }
    } else if s != [] {
      assert !AllSpace(s);
      assert LStrip(s) == s;
    }
  }

  /** Index of the first digit of `s`, or |s| when there is none. */
  function DigitRunStart(s: string): (i: nat)
    ensures i <= |s|
    ensures forall k :: 0 <= k < i ==> !IsDigit(s[k])
    ensures i < |s| ==> IsDigit(s[i])
  {
    if s == [] || IsDigit(s[0]) then 0 else 1 + DigitRunStart(s[1..])
  }

  /** End of the run of digits that starts at `i`: the run is as long as it
      can be. */
  function DigitRunEnd(s: string, i: nat): (j: nat)
    requires i <= |s|
    ensures i <= j <= |s|
    ensures forall k :: i <= k < j ==> IsDigit(s[k])
    ensures j == |s| || !IsDigit(s[j])
    decreases |s| - i
  {
    if i < |s| && IsDigit(s[i]) then DigitRunEnd(s, i + 1) else i
  }

  /** `s[i..j]` is the leftmost maximal run of digits of `s`: no digit
      before it, all digits inside, no digit right after it. */
  predicate FirstRunAt(s: string, i: int, j: int) {
    0 <= i < j <= |s| &&
    (forall k :: 0 <= k < i ==> !IsDigit(s[k])) &&
    (forall k :: i <= k < j ==> IsDigit(s[k])) &&
    (j == |s| || !IsDigit(s[j]))
  }

  /** The leftmost maximal digit run is the only run with those properties. */
  lemma DigitRunUnique(s: string, i: int, j: int)
    requires FirstRunAt(s, i, j)
    ensures DigitRunStart(s) == i && DigitRunEnd(s, i) == j
  {
    assert IsDigit(s[i]);
    var e := DigitRunEnd(s, i);
    assert e < |s| ==> !IsDigit(s[e]);
  }

  function DigitValue(c: char): nat
    requires IsDigit(c)
  {
    c as int - '0' as int
  }

  predicate AllDigits(d: string) {
    forall k :: 0 <= k < |d| ==> IsDigit(d[k])
  }

  function Pow10(k: nat): (p: nat)
    ensures p >= 1
  {
    if k == 0 then 1 else 10 * Pow10(k - 1)
  }

  /** The value of `int(d)` on a string of ASCII digits (base 10, leading
      zeros allowed): a number with at most |d| decimal digits. */
  function DecimalValue(d: string): (n: nat)
    requires AllDigits(d)
    ensures n < Pow10(|d|)
  {
    if d == [] then 0 else 10 * DecimalValue(d[..|d| - 1]) + DigitValue(d[|d| - 1])
  }

  function DigitChar(n: nat): (c: char)
    requires n < 10
    ensures IsDigit(c) && DigitValue(c) == n
  {
    ('0' as int + n) as char
  }

  /** Python's `str(n)` for a natural number: decimal digits, no leading
      zero except for 0 itself. */
  function DecimalString(n: nat): (d: string)
    ensures d != [] && AllDigits(d)
  {
    if n < 10 then [DigitChar(n)] else DecimalString(n / 10) + [DigitChar(n % 10)]
  }

  /** Since version 3.11 CPython's `int()` refuses, by default, a decimal
      string of more than this many digits (`sys.get_int_max_str_digits()`). */
  const MaxStrDigits := 4300

  /** The `ValueError` that `int()` raises on too long a digit string. */
  datatype IntError = TooManyDigits(digits: nat)

  /** Python's `int(d)` on a string of ASCII digits, with the default limit
      on its length. */
  function IntOfDigits(d: string): (r: Result<nat, IntError>)
    requires AllDigits(d)
    ensures r.Ok? <==> |d| <= MaxStrDigits
    ensures r.Ok? ==> r.value == DecimalValue(d) && r.value < Pow10(|d|)
    ensures r.Err? ==> r.error == TooManyDigits(|d|)
  {
    if |d| > MaxStrDigits then Err(TooManyDigits(|d|)) else Ok(DecimalValue(d))
  }

  /** `str(n)` has at most `k` digits exactly when `n < 10^k`. */
  lemma {:induction false} DecimalStringLength(n: nat, k: nat)
    requires k >= 1
    ensures |DecimalString(n)| <= k <==> n < Pow10(k)
    decreases n
  {
    if n < 10 {
      assert Pow10(k) == 10 * Pow10(k - 1);
    } else if k == 1 {
      assert |DecimalString(n)| == |DecimalString(n / 10)| + 1;
    } else {
      DecimalStringLength(n / 10, k - 1);
      assert |DecimalString(n)| == |DecimalString(n / 10)| + 1;
      assert Pow10(k) == 10 * Pow10(k - 1);
    }
  }

  /** `int(str(n)) == n`. */
  lemma {:induction false} DecimalRoundTrip(n: nat)
    ensures DecimalValue(DecimalString(n)) == n
  {
    var d := DecimalString(n);
    if n >= 10 {
      DecimalRoundTrip(n / 10);
      assert d[..|d| - 1] == DecimalString(n / 10);
    }
  }
}
