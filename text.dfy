/**
 * The JavaScript string operations the application relies on, over `string`
 * (a sequence of characters): the `\d` character class, `replace(/\D/g, "")`,
 * `slice(0, n)`, `trim()`, `toUpperCase()` on ASCII letters and `includes`.
 */
module Text {

  /** A character of the regular-expression class `\d`: an ASCII digit. */
  predicate IsDigit(c: char) {
    '0' <= c <= '9'
  }

  /** Every character is a digit (the empty string included). */
  predicate AllDigits(s: string) {
    forall i :: 0 <= i < |s| ==> IsDigit(s[i])
  }

  /** `a` is obtained from `b` by deleting characters, keeping the order of the rest. */
  predicate IsSubsequence(a: string, b: string)
    decreases |b|
  {
    if a == [] then true
    else if b == [] then false
    else if a[0] == b[0] then IsSubsequence(a[1..], b[1..])
    else IsSubsequence(a, b[1..])
  }

  /** `s.replace(/\D/g, "")`: the digits of `s`, in their original order. */
  function DigitsOnly(s: string): (r: string)
    ensures AllDigits(r)
    ensures |r| <= |s|
    ensures IsSubsequence(r, s)
  {
    if s == [] then []
    else if IsDigit(s[0]) then [s[0]] + DigitsOnly(s[1..])
    else DigitsOnly(s[1..])
  }

  /** Deleting the non-digits keeps every digit: each digit occurs in the result as often as in `s`. */
  lemma {:induction false} DigitsOnlyKeepsDigits(s: string, c: char)
    ensures multiset(DigitsOnly(s))[c] == if IsDigit(c) then multiset(s)[c] else 0
  {
    if s != [] {
      DigitsOnlyKeepsDigits(s[1..], c);
      assert s == [s[0]] + s[1..];
    }
  }

  /** A string of digits is left as it is. */
  lemma {:induction false} DigitsOnlyFixesDigits(s: string)
    requires AllDigits(s)
    ensures DigitsOnly(s) == s
  {
    if s != [] {
      DigitsOnlyFixesDigits(s[1..]);
    }
  }

  /** `s.slice(0, n)`: the first `n` characters, or all of `s` when it is shorter. */
  function Prefix(s: string, n: nat): (r: string)
    ensures r <= s
    ensures |r| == if |s| <= n then |s| else n
  {
    if |s| <= n then s else s[..n]
  }

  /**
   * The characters `String.prototype.trim` removes: the ECMAScript WhiteSpace
   * and LineTerminator code points.
   */
  predicate IsWhitespace(c: char) {
    c == '\t' || c == '\n' || c == '\U{B}' || c == '\U{C}' || c == '\r' || c == ' '
    || c == '\U{A0}' || c == '\U{1680}' || ('\U{2000}' <= c <= '\U{200A}')
    || c == '\U{2028}' || c == '\U{2029}' || c == '\U{202F}' || c == '\U{205F}'
    || c == '\U{3000}' || c == '\U{FEFF}'
  }

  /** `s` with its leading whitespace removed. */
  function TrimStart(s: string): (r: string)
    ensures |r| <= |s| && r == s[|s| - |r|..]
    ensures forall i :: 0 <= i < |s| - |r| ==> IsWhitespace(s[i])
    ensures r == [] || !IsWhitespace(r[0])
  {
    if s != [] && IsWhitespace(s[0]) then TrimStart(s[1..]) else s
  }

  /** `s` with its trailing whitespace removed. */
  function TrimEnd(s: string): (r: string)
    ensures |r| <= |s| && r == s[..|r|]
    ensures forall i :: |r| <= i < |s| ==> IsWhitespace(s[i])
    ensures r == [] || !IsWhitespace(r[|r| - 1])
  {
    if s != [] && IsWhitespace(s[|s| - 1]) then TrimEnd(s[..|s| - 1]) else s
  }

  /**
   * `r` is `s` from index `start` on with some trailing characters cut, and
   * every character cut at either end is whitespace.
   */
  predicate BlankAround(s: string, r: string, start: nat) {
    && start + |r| <= |s| && r == s[start..start + |r|]
    && (forall i :: 0 <= i < start ==> IsWhitespace(s[i]))
    && (forall i :: start + |r| <= i < |s| ==> IsWhitespace(s[i]))
  }

  /** `s.trim()`: the slice of `s` between its leading and trailing whitespace. */
  function Trim(s: string): (r: string)
    ensures BlankAround(s, r, |s| - |TrimStart(s)|)
    ensures r == [] || (!IsWhitespace(r[0]) && !IsWhitespace(r[|r| - 1]))
  {
    TrimmedSlice(s);
    TrimEnd(TrimStart(s))
  }

  /** Trimming the end after the start leaves a slice with whitespace cut at both ends. */
  lemma TrimmedSlice(s: string)
    ensures var r := TrimEnd(TrimStart(s));
      && BlankAround(s, r, |s| - |TrimStart(s)|)
      && (r == [] || (!IsWhitespace(r[0]) && !IsWhitespace(r[|r| - 1])))
  {
    var t := TrimStart(s);
    var r := TrimEnd(t);
    var start := |s| - |t|;
    SliceOfSuffix(s, start, |r|);
    forall i | start + |r| <= i < |s| ensures IsWhitespace(s[i]) {
      assert s[i] == t[i - start];
    }
    assert r == [] || r[0] == t[0];
  }

  /** Taking `n` characters of the suffix from `start` is the slice `start..start + n`. */
  lemma SliceOfSuffix(s: string, start: nat, n: nat)
    requires start + n <= |s|
    ensures s[start..][..n] == s[start..start + n]
  {
  }

  /** `!s.trim()` holds exactly when `s` consists of whitespace only. */
  lemma TrimEmptyIffBlank(s: string)
    ensures Trim(s) == [] <==> forall i :: 0 <= i < |s| ==> IsWhitespace(s[i])
  {
    var t := TrimStart(s);
    if Trim(s) != [] {
      assert !IsWhitespace(Trim(s)[0]);
      assert Trim(s)[0] == s[|s| - |t|];
    }
  }

  /** Trimming leaves a string of digits unchanged: a digit is not whitespace. */
  lemma TrimFixesDigits(s: string)
    requires AllDigits(s)
    ensures Trim(s) == s
  {
    assert s != [] ==> !IsWhitespace(s[0]) && !IsWhitespace(s[|s| - 1]);
  }

  /** The upper-case form of an ASCII letter; every other character is kept. */
  function UpperChar(c: char): char {
    if 'a' <= c <= 'z' then (c as int - 32) as char else c
  }

  /** `s.toUpperCase()` on ASCII text. */
  function ToUpper(s: string): (r: string)
    ensures |r| == |s|
    ensures forall i :: 0 <= i < |s| ==> r[i] == UpperChar(s[i])
  {
    seq(|s|, i requires 0 <= i < |s| => UpperChar(s[i]))
  }

  /** `s.includes(part)`: `part` occurs somewhere in `s`. */
  predicate Contains(s: string, part: string)
    ensures Contains(s, part) ==> |part| <= |s|
    ensures part <= s ==> Contains(s, part)
  {
    assert part <= s ==> part <= s[0..];
    exists i :: 0 <= i <= |s| && part <= s[i..]
  }

  /** Whatever surrounds it, `part` is found in `prefix + part + suffix`. */
  lemma ContainsInfix(prefix: string, part: string, suffix: string)
    ensures Contains(prefix + part + suffix, part)
  {
    var s := prefix + part + suffix;
    assert part <= s[|prefix|..];
  }
}
