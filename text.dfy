/**
 * Python string behaviour the application relies on: character classes,
 * `upper()`/`lower()`, `strip()`, `startswith`, `split`, slicing, `str(int)`
 * and `int(str)`. Letters are the ASCII letters and digits the ASCII digits.
 */
module Text {
  import opened Wrappers

  function Min(a: int, b: int): int { if a <= b then a else b }

  // ---------------------------------------------------------------- characters

  predicate IsDigit(c: char) { '0' <= c <= '9' }
  predicate IsUpperLetter(c: char) { 'A' <= c <= 'Z' }
  predicate IsLowerLetter(c: char) { 'a' <= c <= 'z' }

  /** Every character is a digit (true of the empty string). */
  predicate AllDigits(s: string) { forall i :: 0 <= i < |s| ==> IsDigit(s[i]) }

  /** Python's `str.isdigit()`: at least one character, and all of them digits. */
  predicate IsDigitString(s: string) { |s| > 0 && AllDigits(s) }

  /** Every character is an upper-case letter. */
  predicate AllUpperLetters(s: string) { forall i :: 0 <= i < |s| ==> IsUpperLetter(s[i]) }

  /** Python's `str.isspace()` for one character. */
  predicate IsSpace(c: char)
  {
    || c == ' ' || '\t' <= c <= '\r' || '\U{1c}' <= c <= '\U{1f}'
    || c == '\U{85}' || c == '\U{a0}' || c == '\U{1680}'
    || '\U{2000}' <= c <= '\U{200a}' || c == '\U{2028}' || c == '\U{2029}'
    || c == '\U{202f}' || c == '\U{205f}' || c == '\U{3000}'
  }

  function UpperChar(c: char): char
  {
    if IsLowerLetter(c) then (c as int - 32) as char else c
  }

  function LowerChar(c: char): char
  {
    if IsUpperLetter(c) then (c as int + 32) as char else c
  }

  /** Python's `str.upper()`. */
  function Upper(s: string): (r: string)
    ensures |r| == |s|
    ensures forall i :: 0 <= i < |s| ==> r[i] == UpperChar(s[i])
  {
    seq(|s|, i requires 0 <= i < |s| => UpperChar(s[i]))
  }

  /** Python's `str.lower()`. */
  function Lower(s: string): (r: string)
    ensures |r| == |s|
    ensures forall i :: 0 <= i < |s| ==> r[i] == LowerChar(s[i])
  {
    seq(|s|, i requires 0 <= i < |s| => LowerChar(s[i]))
  }

  /** Upper-casing twice is upper-casing once. */
  lemma UpperIdempotent(s: string)
    ensures Upper(Upper(s)) == Upper(s)
  {
  }

  /** Upper-casing keeps every character that is not a lower-case letter. */
  lemma UpperKeeps(s: string, i: int)
    requires 0 <= i < |s| && !IsLowerLetter(s[i])
    ensures Upper(s)[i] == s[i]
  {
  }

  /** Lower-casing forgets the case of the input. */
  lemma LowerOfUpper(s: string)
    ensures Lower(Upper(s)) == Lower(s)
  {
  }

  /**
   * Django's `RegexValidator(r'^\d{n}$')`, which calls `re.search`: n digits,
   * and, because Python's `$` also matches before a final newline, n digits
   * followed by one '\n'.
   */
  predicate MatchesDigitsPattern(s: string, n: nat)
  {
    || (|s| == n && AllDigits(s))
    || (|s| == n + 1 && s[n] == '\n' && AllDigits(s[..n]))
  }

  /** The string with every occurrence of `c` removed. */
  function Remove(s: string, c: char): (r: string)
    ensures c !in r
  {
    if s == [] then [] else (if s[0] == c then [] else [s[0]]) + Remove(s[1..], c)
  }

  /** Removing a character that does not occur changes nothing. */
  lemma {:induction false} RemoveAbsent(s: string, c: char)
    requires c !in s
    ensures Remove(s, c) == s
  {
    if s != [] {
      RemoveAbsent(s[1..], c);
      assert s == [s[0]] + s[1..];
    }
  }

  /** Removing distributes over concatenation. */
  lemma {:induction false} RemoveAppend(a: string, b: string, c: char)
    ensures Remove(a + b, c) == Remove(a, c) + Remove(b, c)
  {
    if a != [] {
      RemoveAppend(a[1..], b, c);
      assert (a + b)[0] == a[0] && (a + b)[1..] == a[1..] + b;
    } else {
      assert a + b == b;
    }
  }

  // ------------------------------------------------------------------ slicing

  /** Python's `s[:n]` for n >= 0. */
  function Take(s: string, n: nat): (r: string)
    ensures |r| == Min(n, |s|) && r <= s
  {
    s[..Min(n, |s|)]
  }

  /** Python's `s[-n:]` for n > 0. */
  function TakeLast(s: string, n: nat): (r: string)
    ensures |r| == Min(n, |s|) && r == s[|s| - |r|..]
  {
    s[|s| - Min(n, |s|)..]
  }

  /** Python's `str.startswith(p)`. */
  predicate StartsWith(s: string, p: string) { p <= s }

  /**
   * The first element of `cands` that `s` starts with, scanning the list
   * from the front.
   */
  function FirstPrefixIn(cands: seq<string>, s: string): (r: Option<string>)
    ensures r.None? <==> forall k :: 0 <= k < |cands| ==> !StartsWith(s, cands[k])
    ensures r.Some? ==> exists k :: 0 <= k < |cands| && cands[k] == r.value && StartsWith(s, cands[k])
                                  && forall j :: 0 <= j < k ==> !StartsWith(s, cands[j])
  {
    if cands == [] then None
    else if StartsWith(s, cands[0]) then Some(cands[0])
    else
      var r := FirstPrefixIn(cands[1..], s);
      assert forall k :: 1 <= k < |cands| ==> cands[k] == cands[1..][k - 1];
      r
  }

  // ------------------------------------------------------------------ strip()

  /**
   * Python's `str.strip()`: white space is dropped from both ends until
   * neither end is white space.
   */
  function Strip(s: string): string
    decreases |s|
  {
    if s == [] then []
    else if IsSpace(s[0]) then Strip(s[1..])
    else if IsSpace(s[|s| - 1]) then Strip(s[..|s| - 1])
    else s
  }

  /** Where the stripped text starts inside `s`. */
  function StripStart(s: string): nat
    decreases |s|
  {
    if s == [] then 0
    else if IsSpace(s[0]) then 1 + StripStart(s[1..])
    else if IsSpace(s[|s| - 1]) then StripStart(s[..|s| - 1])
    else 0
  }

  /**
   * `strip()` keeps one slice of `s`: everything before and after it is
   * white space, and the slice neither starts nor ends with white space.
   */
  lemma {:induction false} StripIsSlice(s: string)
    ensures StripStart(s) + |Strip(s)| <= |s|
    ensures Strip(s) == s[StripStart(s)..StripStart(s) + |Strip(s)|]
    ensures forall k :: 0 <= k < StripStart(s) ==> IsSpace(s[k])
    ensures forall k :: StripStart(s) + |Strip(s)| <= k < |s| ==> IsSpace(s[k])
    ensures Strip(s) != [] ==> !IsSpace(Strip(s)[0]) && !IsSpace(Strip(s)[|Strip(s)| - 1])
  {
    StrippedSliceHolds(s);
  }

  /** By induction on the length of s, one stripped space at a time. */
  lemma {:induction false} StrippedSliceHolds(s: string)
    ensures StrippedSlice(s)
    decreases |s|
  {
    if s != [] {
      if IsSpace(s[0]) {
        StrippedSliceHolds(s[1..]);
        StripSliceFront(s);
      } else if IsSpace(s[|s| - 1]) {
        StrippedSliceHolds(s[..|s| - 1]);
        StripSliceBack(s);
      }
    }
  }

  /** The facts `StripIsSlice` states about one string. */
  predicate StrippedSlice(s: string)
  {
    && StripStart(s) + |Strip(s)| <= |s|
    && Strip(s) == s[StripStart(s)..StripStart(s) + |Strip(s)|]
    && (forall k :: 0 <= k < StripStart(s) ==> IsSpace(s[k]))
    && (forall k :: StripStart(s) + |Strip(s)| <= k < |s| ==> IsSpace(s[k]))
    && (Strip(s) != [] ==> !IsSpace(Strip(s)[0]) && !IsSpace(Strip(s)[|Strip(s)| - 1]))
  }

  /** Dropping a leading space keeps the facts. */
  lemma StripSliceFront(s: string)
    requires s != [] && IsSpace(s[0]) && StrippedSlice(s[1..])
    ensures StrippedSlice(s)
  {
    var t := s[1..];
    assert forall k :: 1 <= k < |s| ==> s[k] == t[k - 1];
  }

  /** Dropping a trailing space keeps the facts. */
  lemma StripSliceBack(s: string)
    requires s != [] && !IsSpace(s[0]) && IsSpace(s[|s| - 1]) && StrippedSlice(s[..|s| - 1])
    ensures StrippedSlice(s)
  {
    var t := s[..|s| - 1];
    assert forall k :: 0 <= k < |t| ==> s[k] == t[k];
  }

  /** `strip()` leaves nothing exactly when `s` is all white space. */
  lemma StripEmptyIff(s: string)
    ensures Strip(s) == [] <==> forall k :: 0 <= k < |s| ==> IsSpace(s[k])
  {
    StripIsSlice(s);
    if Strip(s) == [] {
      assert forall k :: 0 <= k < |s| ==> IsSpace(s[k]);
    } else {
      assert s[StripStart(s)] == Strip(s)[0];
    }
  }

  // ------------------------------------------------------------------ split()

  /** Python's `s.split(c)` for a one-character separator. */
  function Split(s: string, c: char): (r: seq<string>)
    ensures |r| >= 1
  {
    if s == [] then [[]]
    else
      var rest := Split(s[1..], c);
      if s[0] == c then [[]] + rest else [[s[0]] + rest[0]] + rest[1..]
  }

  /** Without the separator, splitting gives back the whole string. */
  lemma {:induction false} SplitNoSeparator(a: string, c: char)
    requires c !in a
    ensures Split(a, c) == [a]
  {
    if a != [] {
      SplitNoSeparator(a[1..], c);
      assert a == [a[0]] + a[1..];
    }
  }

  /** Splitting `a c b`, where `a` holds no separator, peels off `a`. */
  lemma {:induction false} SplitJoin(a: string, b: string, c: char)
    requires c !in a
    ensures Split(a + [c] + b, c) == [a] + Split(b, c)
  {
    if a == [] {
      assert [c] + b == a + [c] + b;
      assert ([c] + b)[1..] == b;
    } else {
      SplitJoin(a[1..], b, c);
      assert (a + [c] + b)[0] == a[0];
      assert (a + [c] + b)[1..] == a[1..] + [c] + b;
      assert a == [a[0]] + a[1..];
    }
  }

  /**
   * The first piece of a split is the text before the first separator: it
   * holds no separator, and is followed in `s` by the separator when `s`
   * has one.
   */
  lemma {:induction false} SplitHead(s: string, c: char)
    ensures c !in Split(s, c)[0] && Split(s, c)[0] <= s
    ensures c in s ==> Split(s, c)[0] + [c] <= s
    ensures c !in s ==> Split(s, c)[0] == s
  {
    if s != [] {
      SplitHead(s[1..], c);
      if s[0] != c {
        assert s == [s[0]] + s[1..];
      }
    }
  }

  /** The text before the first separator is the same after upper-casing. */
  lemma {:induction false} SplitHeadUpper(s: string, c: char)
    requires !IsLowerLetter(c) && !IsUpperLetter(c)
    ensures Upper(Split(s, c)[0]) == Split(Upper(s), c)[0]
  {
    if s != [] {
      SplitHeadUpper(s[1..], c);
      assert Upper(s)[1..] == Upper(s[1..]);
      assert UpperChar(s[0]) == c <==> s[0] == c;
    }
  }

  // ------------------------------------------------------- str(int), int(str)

  function DigitChar(d: nat): (c: char)
    requires d < 10
    ensures IsDigit(c)
  {
    ('0' as int + d) as char
  }

  function DigitValue(c: char): nat
    requires IsDigit(c)
  {
    c as int - '0' as int
  }

  /** Python's `str(n)` for a natural number: its decimal digits. */
  function NatToString(n: nat): (r: string)
    ensures |r| >= 1 && AllDigits(r)
    decreases n
  {
    if n < 10 then [DigitChar(n)] else NatToString(n / 10) + [DigitChar(n % 10)]
  }

  /** Python's `int(s)` for a string of digits. */
  function DigitsValue(s: string): nat
    requires AllDigits(s)
  {
    if s == [] then 0 else DigitsValue(s[..|s| - 1]) * 10 + DigitValue(s[|s| - 1])
  }

  function Pow10(k: nat): (p: nat)
    ensures p >= 1
  {
    if k == 0 then 1 else 10 * Pow10(k - 1)
  }

  /** `int(str(n)) == n`. */
  lemma {:induction false} NatToStringRoundTrip(n: nat)
    ensures DigitsValue(NatToString(n)) == n
    decreases n
  {
    var s := NatToString(n);
    if n >= 10 {
      NatToStringRoundTrip(n / 10);
      assert s[..|s| - 1] == NatToString(n / 10);
    }
  }

  /** A number with k digits prints as k characters. */
  lemma {:induction false} NatToStringLength(n: nat, k: nat)
    requires k >= 1 && Pow10(k - 1) <= n < Pow10(k)
    ensures |NatToString(n)| == k
    decreases k
  {
    if k > 1 {
      NatToStringLength(n / 10, k - 1);
    }
  }

  /** The numbers 10000..99999 print as exactly five digits. */
  lemma FiveDigits(n: nat)
    requires 10000 <= n <= 99999
    ensures |NatToString(n)| == 5 && AllDigits(NatToString(n))
  {
    assert Pow10(4) == 10000 && Pow10(5) == 100000;
    NatToStringLength(n, 5);
  }

  /** A number with at least k digits prints as at least k characters. */
  lemma {:induction false} NatToStringAtLeast(n: nat, k: nat)
    requires k >= 1 && Pow10(k - 1) <= n
    ensures |NatToString(n)| >= k
    decreases k
  {
    if k > 1 {
      NatToStringAtLeast(n / 10, k - 1);
    }
  }

  /** Euclidean remainder after shifting in one more decimal digit. */
  lemma ShiftMod(x: nat, d: nat, p: nat)
    requires d < 10 && p >= 1
    ensures (x * 10 + d) % (10 * p) == (x % p) * 10 + d
  {
    var q, r := x / p, x % p;
    assert x == q * p + r;
    assert x * 10 == q * (10 * p) + r * 10 by {
      assert x * 10 == (q * p + r) * 10;
    }
    ModUnique(x * 10 + d, 10 * p, q, r * 10 + d);
  }

  /** Euclidean division leaves one remainder. */
  lemma ModUnique(a: int, b: int, q: int, r: int)
    requires b > 0 && a == q * b + r && 0 <= r < b
    ensures a % b == r
  {
    var q', r' := a / b, a % b;
    var k := q - q';
    assert k * b == q * b - q' * b;
    assert k * b == r' - r;
    if k >= 1 {
      MulAtLeast(k, b);
    } else if k <= -1 {
      MulAtLeast(-k, b);
    }
  }

  lemma MulAtLeast(k: int, b: int)
    requires k >= 1 && b > 0
    ensures k * b >= b
  {
    assert k * b == (k - 1) * b + b;
  }

  /** The last k digits of a digit string read as its value modulo 10^k. */
  lemma {:induction false} SuffixValue(s: string, k: nat)
    requires AllDigits(s) && k <= |s|
    ensures DigitsValue(s[|s| - k..]) == DigitsValue(s) % Pow10(k)
    decreases k
  {
    if k == 0 {
      assert s[|s|..] == [];
    } else {
      var init := s[..|s| - 1];
      SuffixValue(init, k - 1);
      var suf := s[|s| - k..];
      assert suf[..|suf| - 1] == init[|init| - (k - 1)..];
      ShiftMod(DigitsValue(init), DigitValue(s[|s| - 1]), Pow10(k - 1));
    }
  }

  /** Digit strings of one length with one value are the same string. */
  lemma {:induction false} DigitsValueInjective(a: string, b: string)
    requires AllDigits(a) && AllDigits(b) && |a| == |b|
    requires DigitsValue(a) == DigitsValue(b)
    ensures a == b
    decreases |a|
  {
    if a != [] {
      var a', b' := a[..|a| - 1], b[..|b| - 1];
      assert DigitValue(a[|a| - 1]) == DigitsValue(a) % 10;
      assert DigitValue(b[|b| - 1]) == DigitsValue(b) % 10;
      assert DigitsValue(a') == DigitsValue(a) / 10;
      assert DigitsValue(b') == DigitsValue(b) / 10;
      DigitsValueInjective(a', b');
      assert a == a' + [a[|a| - 1]] && b == b' + [b[|b| - 1]];
    }
  }

  /** The value of a concatenation of digit strings. */
  lemma {:induction false} DigitsValueAppend(a: string, b: string)
    requires AllDigits(a) && AllDigits(b)
    ensures AllDigits(a + b)
    ensures DigitsValue(a + b) == DigitsValue(a) * Pow10(|b|) + DigitsValue(b)
    decreases |b|
  {
    if b == [] {
      assert a + b == a;
    } else {
      var b' := b[..|b| - 1];
      var d := DigitValue(b[|b| - 1]);
      DigitsValueAppend(a, b');
      assert (a + b)[..|a + b| - 1] == a + b';
      var x, y, p := DigitsValue(a), DigitsValue(b'), Pow10(|b'|);
      assert DigitsValue(a + b) == (x * p + y) * 10 + d;
      assert DigitsValue(b) == y * 10 + d;
      assert Pow10(|b|) == p * 10;
      ShiftSum(x, p, y, d);
    }
  }

  lemma ShiftSum(x: int, p: int, y: int, d: int)
    ensures (x * p + y) * 10 + d == x * (p * 10) + (y * 10 + d)
  {
    assert (x * p + y) * 10 == x * p * 10 + y * 10;
  }

  /** A number below 10^w prints in at most w characters. */
  lemma {:induction false} NatToStringAtMost(n: nat, w: nat)
    requires w >= 1 && n < Pow10(w)
    ensures |NatToString(n)| <= w
    decreases w
  {
    if n >= 10 {
      assert w != 1;
      NatToStringAtMost(n / 10, w - 1);
    }
  }
}
