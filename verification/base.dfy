/** Shared vocabulary: optional values, the Python exceptions the model can raise,
    and the few `str` operations of Python 2 that the core relies on. */
module Base {

  datatype Option<T> = None | Some(value: T)

  /** The Python exception classes that the modelled code can raise. */
  datatype PyError =
    | NameError       // includes UnboundLocalError, a subclass
    | TypeError
    | KeyError
    | IndexError
    | ValueError
    | AttributeError
    | RuntimeError

  datatype Result<T> = Ok(value: T) | Err(error: PyError)

  /** Characters removed by `str.strip()` with no argument (Python 2, byte strings). */
  predicate IsSpace(c: char)
  {
    c == ' ' || c == '\t' || c == '\n' || c == '\r' || c == '\U{0B}' || c == '\U{0C}'
  }

  /** `\w` of Python 2's `re` without the UNICODE flag. */
  predicate IsWordChar(c: char)
  {
    ('a' <= c <= 'z') || ('A' <= c <= 'Z') || ('0' <= c <= '9') || c == '_'
  }

  /** Index of the first character of `s` at or after `i` that is not white space. */
  function SkipSpaces(s: string, i: nat): (k: nat)
    requires i <= |s|
    ensures i <= k <= |s|
    ensures forall j :: i <= j < k ==> IsSpace(s[j])
    ensures k == |s| || !IsSpace(s[k])
    decreases |s| - i
  {
    if i == |s| || !IsSpace(s[i]) then i else SkipSpaces(s, i + 1)
  }

  /** Index just after the last character of `s[..j]` that is not white space, or `lo`. */
  function TrimEnd(s: string, lo: nat, j: nat): (k: nat)
    requires lo <= j <= |s|
    ensures lo <= k <= j
    ensures forall m :: k <= m < j ==> IsSpace(s[m])
    ensures k == lo || !IsSpace(s[k - 1])
    decreases j
  {
    if j == lo || !IsSpace(s[j - 1]) then j else TrimEnd(s, lo, j - 1)
  }

  /** `s.strip()`: the slice of `s` between its leading and trailing white space. */
  function Strip(s: string): (r: string)
    ensures |r| <= |s|
    ensures r == [] || (!IsSpace(r[0]) && !IsSpace(r[|r| - 1]))
  {
    s[SkipSpaces(s, 0)..TrimEnd(s, SkipSpaces(s, 0), |s|)]
  }

  /** Stripping removes white space only: every other character of `s` survives. */
  lemma StripKeeps(s: string, j: nat)
    requires j < |s| && !IsSpace(s[j])
    ensures s[j] in Strip(s)
  {
    var a := SkipSpaces(s, 0);
    var b := TrimEnd(s, a, |s|);
    assert a <= j < b;
    assert s[a..b][j - a] == s[j];
  }

  /** Every character that survives stripping comes from `s`. */
  lemma StripWithin(s: string, i: nat)
    requires i < |Strip(s)|
    ensures Strip(s)[i] in s
  {
    var a := SkipSpaces(s, 0);
    assert Strip(s)[i] == s[a + i];
  }

  /** A string of white space strips to nothing. */
  lemma StripAllSpace(s: string)
    requires forall i :: 0 <= i < |s| ==> IsSpace(s[i])
    ensures Strip(s) == []
  {
    assert SkipSpaces(s, 0) == |s|;
  }

  /** The first character that survives stripping is the first one that is not white space. */
  lemma StripFirst(s: string)
    requires Strip(s) != []
    ensures SkipSpaces(s, 0) < |s| && Strip(s)[0] == s[SkipSpaces(s, 0)]
  {
  }

  /** `strip()` keeps exactly the contiguous part `s[a..b]` that has only white space before
      and after it and starts and ends with a character that is not white space. */
  lemma StripSlice(s: string, a: nat, b: nat)
    requires a <= b <= |s|
    requires forall m :: 0 <= m < a ==> IsSpace(s[m])
    requires forall m :: b <= m < |s| ==> IsSpace(s[m])
    requires a < b ==> !IsSpace(s[a]) && !IsSpace(s[b - 1])
    ensures Strip(s) == s[a..b]
  {
    if a == b {
      assert forall m :: 0 <= m < |s| ==> IsSpace(s[m]);
      StripAllSpace(s);
    }
  }

  /** `s.replace(a, b)` for single characters. */
  function ReplaceChar(s: string, a: char, b: char): (r: string)
    ensures |r| == |s|
    ensures forall i :: 0 <= i < |s| ==> r[i] == (if s[i] == a then b else s[i])
  {
    if s == [] then [] else [if s[0] == a then b else s[0]] + ReplaceChar(s[1..], a, b)
  }

  /** `s.lower()` on a byte string: only ASCII letters change. */
  function Lower(s: string): (r: string)
    ensures |r| == |s|
    ensures forall i :: 0 <= i < |s| ==> ('A' <= s[i] <= 'Z' ==> r[i] == (s[i] as int + 32) as char)
    ensures forall i :: 0 <= i < |s| ==> (!('A' <= s[i] <= 'Z') ==> r[i] == s[i])
  {
    if s == [] then []
    else [if 'A' <= s[0] <= 'Z' then (s[0] as int + 32) as char else s[0]] + Lower(s[1..])
  }

  /** Python's `s[i:j]` for non-negative bounds: out-of-range bounds are clamped. */
  function Slice(s: string, i: nat, j: nat): (r: string)
    ensures |r| == (if j <= i || i >= |s| then 0 else (if j <= |s| then j else |s|) - i)
    ensures forall k :: 0 <= k < |r| ==> r[k] == s[i + k]
  {
    var hi := if j <= |s| then j else |s|;
    if i >= hi then [] else s[i..hi]
  }

  /** `p` occurs in `s` starting at index `i`. */
  predicate OccursAt(s: string, p: string, i: nat)
  {
    i + |p| <= |s| && s[i..i + |p|] == p
  }

  /** `s.find(p) != -1`. */
  predicate Contains(s: string, p: string)
  {
    exists i: nat | i <= |s| :: OccursAt(s, p, i)
  }

  /** `os.path.basename(p)`: what follows the last `/` of `p` (all of `p` if it has none). */
  function Basename(p: string): (r: string)
    ensures |r| <= |p| && r == p[|p| - |r|..]
    ensures '/' !in r
    ensures |r| < |p| ==> p[|p| - |r| - 1] == '/'
  {
    if p == [] || p[|p| - 1] == '/' then [] else Basename(p[..|p| - 1]) + [p[|p| - 1]]
  }

  predicate IsDigit(c: char)
  {
    '0' <= c <= '9'
  }

  predicate AllDigits(s: string)
  {
    forall i :: 0 <= i < |s| ==> IsDigit(s[i])
  }

  /** The number a string of decimal digits denotes. */
  function DigitsValue(s: string): nat
    requires AllDigits(s)
  {
    if s == [] then 0 else 10 * DigitsValue(s[..|s| - 1]) + (s[|s| - 1] as int - '0' as int)
  }

  /** Python 2's `int(s)` on a string: surrounding white space, an optional sign, white space
      again after the sign (the sign is read first and the digits after it are read by a
      routine that skips leading white space once more), and at least one decimal digit;
      anything else raises ValueError, written here as None. */
  function ParseInt(s: string): (r: Option<int>)
    ensures r.Some? ==> Strip(s) != []
  {
    var t := Strip(s);
    if t != [] && (t[0] == '+' || t[0] == '-') then
      var u := t[SkipSpaces(t, 1)..];
      (if u != [] && AllDigits(u) then
         Some(if t[0] == '-' then 0 - DigitsValue(u) as int else DigitsValue(u) as int)
       else None)
    else if t != [] && AllDigits(t) then Some(DigitsValue(t))
    else None
  }

  /** The white space skipped from `i` ends exactly where the first other character is. */
  lemma {:induction false} SkipSpacesAt(s: string, i: nat, k: nat)
    requires i <= k <= |s|
    requires forall j :: i <= j < k ==> IsSpace(s[j])
    requires k == |s| || !IsSpace(s[k])
    ensures SkipSpaces(s, i) == k
    decreases k - i
  {
    if i < k {
      SkipSpacesAt(s, i + 1, k);
    }
  }

  /** The decimal digits of `n`, without leading zeros. */
  function ShowNat(n: nat): (s: string)
    ensures s != [] && AllDigits(s)
  {
    if n < 10 then [('0' as int + n) as char] else ShowNat(n / 10) + [('0' as int + n % 10) as char]
  }

  /** `str(n)`. */
  function ShowInt(n: int): (s: string)
  {
    if n < 0 then "-" + ShowNat(-n) else ShowNat(n)
  }

  lemma {:induction false} ShowNatValue(n: nat)
    ensures DigitsValue(ShowNat(n)) == n
  {
    if n >= 10 {
      ShowNatValue(n / 10);
      var s := ShowNat(n);
      assert s[..|s| - 1] == ShowNat(n / 10);
    }
  }

  /** A string with no white space at either end strips to itself. */
  lemma StripUnchanged(s: string)
    requires s != [] && !IsSpace(s[0]) && !IsSpace(s[|s| - 1])
    ensures Strip(s) == s
  {
    assert SkipSpaces(s, 0) == 0;
    assert TrimEnd(s, 0, |s|) == |s|;
  }

  /** `int(str(n)) == n`. */
  lemma ParseShowInt(n: int)
    ensures ParseInt(ShowInt(n)) == Some(n)
  {
    var s := ShowInt(n);
    var digits := if n < 0 then ShowNat(-n) else ShowNat(n);
    assert IsDigit(digits[0]) && IsDigit(digits[|digits| - 1]);
    StripUnchanged(s);
    if n < 0 {
      SkipSpacesAt(s, 1, 1);
      assert s[1..] == digits;
      ShowNatValue(-n);
    } else {
      ShowNatValue(n);
    }
  }

  /** A sign, then white space, then the digits of `n`: `int("- 5") == -5` and
      `int("+ 5") == 5`. */
  lemma ParseSpacedSign(ws: string, n: nat)
    requires forall k :: 0 <= k < |ws| ==> IsSpace(ws[k])
    ensures ParseInt("-" + ws + ShowNat(n)) == Some(0 - n)
    ensures ParseInt("+" + ws + ShowNat(n)) == Some(n)
  {
    var digits := ShowNat(n);
    ShowNatValue(n);
    SignedDigits('-', ws, digits);
    SignedDigits('+', ws, digits);
    assert "-" + ws + digits == ['-'] + ws + digits;
    assert "+" + ws + digits == ['+'] + ws + digits;
  }

  /** The signed and spaced form of any digit string. */
  lemma SignedDigits(c: char, ws: string, digits: string)
    requires c == '-' || c == '+'
    requires forall k :: 0 <= k < |ws| ==> IsSpace(ws[k])
    requires digits != [] && AllDigits(digits)
    ensures ParseInt([c] + ws + digits)
      == Some(if c == '-' then 0 - DigitsValue(digits) as int else DigitsValue(digits) as int)
  {
    var s := [c] + ws + digits;
    SpacedSign(c, ws, digits);
    SignedForm(s, digits);
  }

  /** A stripped string that is a sign, white space and digits parses to the signed value. */
  lemma SignedForm(s: string, digits: string)
    requires Strip(s) == s && s != [] && (s[0] == '-' || s[0] == '+')
    requires s[SkipSpaces(s, 1)..] == digits && digits != [] && AllDigits(digits)
    ensures ParseInt(s)
      == Some(if s[0] == '-' then 0 - DigitsValue(digits) as int else DigitsValue(digits) as int)
  {
  }

  /** The part after a sign and white space is the digits. */
  lemma SpacedSign(c: char, ws: string, digits: string)
    requires c == '-' || c == '+'
    requires forall k :: 0 <= k < |ws| ==> IsSpace(ws[k])
    requires digits != [] && AllDigits(digits)
    ensures var s := [c] + ws + digits;
      Strip(s) == s && s[SkipSpaces(s, 1)..] == digits
  {
    var s := [c] + ws + digits;
    assert IsDigit(digits[0]) && IsDigit(digits[|digits| - 1]);
    assert s[|s| - 1] == digits[|digits| - 1];
    StripUnchanged(s);
    assert s[1 + |ws|] == digits[0];
    SkipSpacesAt(s, 1, 1 + |ws|);
    assert s[1 + |ws|..] == digits;
  }
}
