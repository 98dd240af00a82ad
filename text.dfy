/**
 * String helpers the tools rely on: Python's `str.lower()`, the `in`
 * substring test, decimal rendering of integers (`f"{n}"`, zero-padded
 * fields of timestamps) and their readers.
 */
module Text {

  // ---------------------------------------------------------------------
  // Lower case
  // ---------------------------------------------------------------------

  /** True of the upper-case letters this model lowers: ASCII A-Z, the
      Latin-1 capitals À-Þ except the multiplication sign, Œ and Ÿ. */
  predicate IsUpper(c: char) {
    ('A' <= c <= 'Z') || ('À' <= c <= 'Þ' && c != '×') || c == 'Œ' || c == 'Ÿ'
  }

  /** Python's `str.lower()` on one character, for the letters above. */
  function LowerChar(c: char): (r: char)
    ensures !IsUpper(r)
    ensures !IsUpper(c) ==> r == c
  {
    if 'A' <= c <= 'Z' || ('À' <= c <= 'Þ' && c != '×') then (c as int + 32) as char
    else if c == 'Œ' then 'œ'
    else if c == 'Ÿ' then 'ÿ'
    else c
  }

  /** Python's `str.lower()`, character by character. */
  function Lower(s: string): (r: string)
    ensures |r| == |s|
  {
    if s == [] then [] else [LowerChar(s[0])] + Lower(s[1..])
  }

  lemma {:induction false} LowerAt(s: string, i: nat)
    requires i < |s|
    ensures Lower(s)[i] == LowerChar(s[i])
  {
    if i > 0 {
      LowerAt(s[1..], i - 1);
    }
  }

  /** Lowering distributes over concatenation. */
  lemma {:induction false} LowerConcat(s: string, t: string)
    ensures Lower(s + t) == Lower(s) + Lower(t)
  {
    if s != [] {
      assert (s + t)[1..] == s[1..] + t;
      LowerConcat(s[1..], t);
    } else {
      assert s + t == t;
    }
  }

  /** Text without upper-case letters is left as it is. */
  lemma {:induction false} LowerOfLower(s: string)
    requires forall i :: 0 <= i < |s| ==> !IsUpper(s[i])
    ensures Lower(s) == s
  {
    if s != [] {
      LowerOfLower(s[1..]);
    }
  }

  /** Lowering twice is lowering once. */
  lemma LowerIdempotent(s: string)
    ensures Lower(Lower(s)) == Lower(s)
  {
    forall i | 0 <= i < |Lower(s)|
      ensures !IsUpper(Lower(s)[i])
    {
      LowerAt(s, i);
    }
    LowerOfLower(Lower(s));
  }

  // ---------------------------------------------------------------------
  // Substring containment: Python's `keyword in text`
  // ---------------------------------------------------------------------

  /** `kw` occurs in `text` starting at index `i`. */
  ghost predicate OccursAt(kw: string, text: string, i: int) {
    0 <= i && i + |kw| <= |text| && text[i..i + |kw|] == kw
  }

  /** Python's `kw in text` for strings. */
  function Occurs(kw: string, text: string): bool
    decreases |text|
  {
    kw <= text || (text != [] && Occurs(kw, text[1..]))
  }

  /** `Occurs` is substring containment: true exactly when some index starts a copy of `kw`. */
  lemma {:induction false} OccursIff(kw: string, text: string)
    ensures Occurs(kw, text) <==> exists i :: OccursAt(kw, text, i)
    decreases |text|
  {
    if kw <= text {
      assert text[0..|kw|] == kw;
      assert OccursAt(kw, text, 0);
    } else if text == [] {
      assert kw != [];
      forall i | OccursAt(kw, text, i) ensures false { }
    } else {
      OccursIff(kw, text[1..]);
      if Occurs(kw, text[1..]) {
        var i :| OccursAt(kw, text[1..], i);
        assert text[1..][i..i + |kw|] == text[i + 1..i + 1 + |kw|];
        assert OccursAt(kw, text, i + 1);
      } else {
        forall i | 0 < i && i + |kw| <= |text| ensures !OccursAt(kw, text, i) {
          assert text[1..][i - 1..i - 1 + |kw|] == text[i..i + |kw|];
          assert !OccursAt(kw, text[1..], i - 1);
        }
      }
    }
  }

  /** An occurrence in `t` is an occurrence in `s + t` and in `t + s`. */
  lemma OccursInConcat(kw: string, s: string, t: string)
    requires Occurs(kw, t)
    ensures Occurs(kw, s + t) && Occurs(kw, t + s)
  {
    OccursIff(kw, t);
    var i :| OccursAt(kw, t, i);
    assert (s + t)[|s| + i..|s| + i + |kw|] == t[i..i + |kw|];
    assert OccursAt(kw, s + t, |s| + i);
    OccursIff(kw, s + t);
    assert (t + s)[i..i + |kw|] == t[i..i + |kw|];
    assert OccursAt(kw, t + s, i);
    OccursIff(kw, t + s);
  }

  // ---------------------------------------------------------------------
  // Decimal digits
  // ---------------------------------------------------------------------

  predicate IsDigit(c: char) {
    '0' <= c <= '9'
  }

  predicate IsDigits(s: string) {
    forall i :: 0 <= i < |s| ==> IsDigit(s[i])
  }

  function DigitChar(d: nat): (c: char)
    requires d < 10
    ensures IsDigit(c)
  {
    ('0' as int + d) as char
  }

  function DigitValue(c: char): nat
    requires IsDigit(c)
  {
    c as int - '0' as int
  }

  function Pow10(w: nat): (p: nat)
    ensures p >= 1
  {
    if w == 0 then 1 else 10 * Pow10(w - 1)
  }

  /** The value of a string of decimal digits, most significant first. */
  function DigitsValue(s: string): nat
    requires IsDigits(s)
  {
    if s == [] then 0 else 10 * DigitsValue(s[..|s| - 1]) + DigitValue(s[|s| - 1])
  }

  /** Python's `f"{n}"` for a non-negative integer: decimal, no leading zero. */
  function NatToString(n: nat): (r: string)
    ensures |r| >= 1 && IsDigits(r)
    ensures r[0] == '0' ==> n == 0
  {
    if n < 10 then [DigitChar(n)] else NatToString(n / 10) + [DigitChar(n % 10)]
  }

  /** Reading the decimal rendering back gives the number. */
  lemma {:induction false} NatToStringRoundTrip(n: nat)
    ensures DigitsValue(NatToString(n)) == n
  {
    var r := NatToString(n);
    if n >= 10 {
      NatToStringRoundTrip(n / 10);
      assert r[..|r| - 1] == NatToString(n / 10);
    }
  }

  /** `n` rendered in exactly `width` digits, zero-padded on the left
      (Python's `%02d`, `%06d`), keeping the low digits when `n` is wider. */
  function Pad(n: nat, width: nat): (r: string)
    ensures |r| == width && IsDigits(r)
  {
    if width == 0 then [] else Pad(n / 10, width - 1) + [DigitChar(n % 10)]
  }

  /** A number that fits in `width` digits is read back from its padding. */
  lemma {:induction false} PadRoundTrip(n: nat, width: nat)
    requires n < Pow10(width)
    ensures DigitsValue(Pad(n, width)) == n
  {
    if width > 0 {
      var r := Pad(n, width);
      assert r[..|r| - 1] == Pad(n / 10, width - 1);
      PadRoundTrip(n / 10, width - 1);
    }
  }

  /** 10^w is at least ten once w is positive. */
  lemma {:induction false} PowAtLeastTen(w: nat)
    requires w >= 1
    ensures Pow10(w) >= 10
  {
    if w > 1 { PowAtLeastTen(w - 1); }
  }

  // ---------------------------------------------------------------------
  // Concatenation of lines and line counting
  // ---------------------------------------------------------------------

  /** Python's `"".join(parts)`. */
  function Concat(parts: seq<string>): string {
    if parts == [] then [] else parts[0] + Concat(parts[1..])
  }

  /** Appending one more part at the end, as `plan += line` does. */
  lemma {:induction false} ConcatSnoc(parts: seq<string>, last: string)
    ensures Concat(parts + [last]) == Concat(parts) + last
  {
    if parts != [] {
      assert (parts + [last])[1..] == parts[1..] + [last];
      ConcatSnoc(parts[1..], last);
    } else {
      assert parts + [last] == [last];
    }
  }

  /** Number of occurrences of `c` in `s`. */
  function Count(c: char, s: string): nat {
    if s == [] then 0 else (if s[0] == c then 1 else 0) + Count(c, s[1..])
  }

  lemma {:induction false} CountConcat(c: char, s: string, t: string)
    ensures Count(c, s + t) == Count(c, s) + Count(c, t)
  {
    if s != [] {
      assert (s + t)[1..] == s[1..] + t;
      CountConcat(c, s[1..], t);
    } else {
      assert s + t == t;
    }
  }

  lemma {:induction false} CountAbsent(c: char, s: string)
    requires c !in s
    ensures Count(c, s) == 0
  {
    if s != [] {
      CountAbsent(c, s[1..]);
    }
  }

  /** `suffix` ends `s`. */
  predicate EndsWith(s: string, suffix: string) {
    |suffix| <= |s| && s[|s| - |suffix|..] == suffix
  }

  /** `a + (b + t)` ends with `t`. */
  lemma EndsWithTail(a: string, b: string, t: string)
    ensures EndsWith(a + (b + t), t)
  {
    var s := a + (b + t);
    assert s[|a|..] == b + t;
    assert s[|s| - |t|..] == (b + t)[|b|..];
  }

  /** Length of the run of decimal digits that starts `s`. */
  function LeadingDigits(s: string): (n: nat)
    ensures n <= |s| && IsDigits(s[..n])
    ensures n < |s| ==> !IsDigit(s[n])
  {
    if s == [] || !IsDigit(s[0]) then 0
    else
      var n := 1 + LeadingDigits(s[1..]);
      assert s[..n] == [s[0]] + s[1..][..n - 1];
      n
  }

  /** The digit run of `digits + rest` is `digits` when `rest` does not go on with a digit. */
  lemma {:induction false} LeadingDigitsOf(digits: string, rest: string)
    requires IsDigits(digits)
    requires rest != [] ==> !IsDigit(rest[0])
    ensures LeadingDigits(digits + rest) == |digits|
  {
    if digits != [] {
      assert (digits + rest)[1..] == digits[1..] + rest;
      LeadingDigitsOf(digits[1..], rest);
    } else {
      assert digits + rest == rest;
    }
  }

  /** Index of the first `c` in `s`. */
  function IndexOf(c: char, s: string): (i: nat)
    requires c in s
    ensures i < |s| && s[i] == c && c !in s[..i]
  {
    if s[0] == c then 0
    else
      var i := 1 + IndexOf(c, s[1..]);
      assert s[..i] == [s[0]] + s[1..][..i - 1];
      i
  }

  /** The first `c` of `x + [c] + rest` is the one after `x` when `x` has none. */
  lemma {:induction false} IndexOfAfter(c: char, x: string, rest: string)
    requires c !in x
    ensures c in x + [c] + rest && IndexOf(c, x + [c] + rest) == |x|
  {
    var s := x + [c] + rest;
    assert s[|x|] == c;
    if x != [] {
      assert s[1..] == x[1..] + [c] + rest;
      IndexOfAfter(c, x[1..], rest);
    }
  }
}
