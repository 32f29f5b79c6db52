/**
 * The few java.lang.String and java.util.Objects operations the core relies
 * on, defined on `seq<char>`.  Case mapping covers ASCII letters only.
 */
module JavaStrings {
  import opened Wrappers

  /** `String.valueOf` of a possibly-null String, as string concatenation prints it. */
  function Show(s: Option<string>): (r: string)
    ensures s.Some? ==> r == s.value
    ensures s.None? ==> r == "null"
  {
    if s.Some? then s.value else "null"
  }

  // ---------------------------------------------------------------- trim

  /** `String.trim` removes leading and trailing characters up to U+0020. */
  predicate IsTrimmed(c: char) {
    c <= ' '
  }

  function TrimStart(s: string): (r: string)
    ensures |r| <= |s| && r == s[|s| - |r|..]
    ensures forall i :: 0 <= i < |s| - |r| ==> IsTrimmed(s[i])
    ensures r != [] ==> !IsTrimmed(r[0])
  {
    if s != [] && IsTrimmed(s[0]) then TrimStart(s[1..]) else s
  }

  function TrimEnd(s: string): (r: string)
    ensures |r| <= |s| && r == s[..|r|]
    ensures forall i :: |r| <= i < |s| ==> IsTrimmed(s[i])
    ensures r != [] ==> !IsTrimmed(r[|r| - 1])
  {
    if s != [] && IsTrimmed(s[|s| - 1]) then TrimEnd(s[..|s| - 1]) else s
  }

  /** `s.trim()`: the slice of `s` between its leading and trailing blanks. */
  function Trim(s: string): (r: string)
    ensures |r| <= |s|
    ensures r == [] <==> forall i :: 0 <= i < |s| ==> IsTrimmed(s[i])
    ensures r != [] ==> !IsTrimmed(r[0]) && !IsTrimmed(r[|r| - 1])
    ensures s == [] || (!IsTrimmed(s[0]) && !IsTrimmed(s[|s| - 1])) ==> r == s
  {
    var t := TrimStart(s);
    var r := TrimEnd(t);
    assert t != [] ==> t[0] == s[|s| - |t|];
    assert r != [] ==> r[0] == t[0];
    r
  }

  /** `s.trim().isEmpty()`. */
  predicate IsBlank(s: string) {
    Trim(s) == []
  }

  lemma {:induction false} TrimIdempotent(s: string)
    ensures Trim(Trim(s)) == Trim(s)
  {
  }

  // ---------------------------------------------------------------- case

  /** A string whose first character is a letter once upper-cased is not blank. */
  lemma LetterStartIsNotBlank(s: string)
    requires |s| > 0 && 'A' <= UpperChar(s[0]) <= 'Z'
    ensures !IsBlank(s)
  {
  }

  function UpperChar(c: char): char {
    if 'a' <= c <= 'z' then (c as int - 32) as char else c
  }

  function LowerChar(c: char): char {
    if 'A' <= c <= 'Z' then (c as int + 32) as char else c
  }

  /** `s.toUpperCase()` on ASCII letters. */
  function ToUpper(s: string): (r: string)
    ensures |r| == |s| && forall i :: 0 <= i < |s| ==> r[i] == UpperChar(s[i])
  {
    seq(|s|, i requires 0 <= i < |s| => UpperChar(s[i]))
  }

  /** `s.toLowerCase()` on ASCII letters. */
  function ToLower(s: string): (r: string)
    ensures |r| == |s| && forall i :: 0 <= i < |s| ==> r[i] == LowerChar(s[i])
  {
    seq(|s|, i requires 0 <= i < |s| => LowerChar(s[i]))
  }

  /**
   * `a.equalsIgnoreCase(b)` for ASCII: same length, and at every position
   * the characters are equal, or equal once both are upper-cased or both
   * lower-cased.
   */
  predicate EqualsIgnoreCase(a: string, b: string) {
    |a| == |b| &&
    forall i :: 0 <= i < |a| ==>
      a[i] == b[i] || UpperChar(a[i]) == UpperChar(b[i]) || LowerChar(a[i]) == LowerChar(b[i])
  }

  /** `w` is spelled with upper-case ASCII letters only. */
  predicate IsUpperWord(w: string) {
    forall i :: 0 <= i < |w| ==> 'A' <= w[i] <= 'Z'
  }

  /** `w` is spelled with lower-case ASCII letters only. */
  predicate IsLowerWord(w: string) {
    forall i :: 0 <= i < |w| ==> 'a' <= w[i] <= 'z'
  }

  /** Upper-casing a string yields an upper-case word `w` exactly when it equals `w` ignoring case. */
  lemma UpperMatchIsCaseInsensitive(s: string, w: string)
    requires IsUpperWord(w)
    ensures ToUpper(s) == w <==> EqualsIgnoreCase(s, w)
  {
    if EqualsIgnoreCase(s, w) {
      forall i | 0 <= i < |s| ensures ToUpper(s)[i] == w[i] {
        assert 'A' <= w[i] <= 'Z';
      }
    }
  }

  /** Lower-casing a string yields a lower-case word `w` exactly when it equals `w` ignoring case. */
  lemma LowerMatchIsCaseInsensitive(s: string, w: string)
    requires IsLowerWord(w)
    ensures ToLower(s) == w <==> EqualsIgnoreCase(s, w)
  {
    if EqualsIgnoreCase(s, w) {
      forall i | 0 <= i < |s| ensures ToLower(s)[i] == w[i] {
        assert 'a' <= w[i] <= 'z';
      }
    }
  }

  // ---------------------------------------------------------------- search

  /** `s.startsWith(p)`. */
  predicate StartsWith(s: string, p: string) {
    |p| <= |s| && s[..|p|] == p
  }

  /** A prefix must agree with the string at every position it covers. */
  lemma MismatchRulesOutPrefix(s: string, p: string, i: int)
    requires 0 <= i < |s| && i < |p| && s[i] != p[i]
    ensures !StartsWith(s, p)
  {
  }

  /** A prefix must agree with the string on its first character. */
  lemma FirstCharRulesOutPrefix(s: string, p: string)
    requires |s| > 0 && |p| > 0 && s[0] != p[0]
    ensures !StartsWith(s, p)
  {
  }

  /** `s.contains(t)`, searching from the left. */
  predicate Contains(s: string, t: string)
    decreases |s|
  {
    StartsWith(s, t) || (s != [] && Contains(s[1..], t))
  }

  /** A search for `t` passes over a prefix that lacks its first character. */
  lemma {:induction false} ContainsSkipsPrefix(p: string, s: string, t: string)
    requires |t| > 0 && t[0] !in p
    ensures Contains(p + s, t) <==> Contains(s, t)
  {
    if p == [] {
      assert p + s == s;
    } else {
      FirstCharRulesOutPrefix(p + s, t);
      assert (p + s)[1..] == p[1..] + s;
      ContainsSkipsPrefix(p[1..], s, t);
    }
  }

  /** A search for `t` passes over a first character that does not start an occurrence. */
  lemma SkipMismatch(c: char, s: string, t: string)
    requires |t| > 1 && (c != t[0] || (|s| > 0 && s[0] != t[1]))
    ensures Contains([c] + s, t) <==> Contains(s, t)
  {
    if c != t[0] {
      FirstCharRulesOutPrefix([c] + s, t);
    } else {
      MismatchRulesOutPrefix([c] + s, t, 1);
    }
    assert ([c] + s)[1..] == s;
  }

  /** `t` occurs in `s` starting at position `i`. */
  predicate OccursAt(s: string, t: string, i: int) {
    0 <= i <= |s| - |t| && s[i..i + |t|] == t
  }

  /** `Contains` holds exactly when `t` occurs at some position of `s`. */
  lemma {:induction false} ContainsIffOccurs(s: string, t: string)
    ensures Contains(s, t) <==> exists i :: OccursAt(s, t, i)
    decreases |s|
  {
    if s == [] {
      if Contains(s, t) {
        assert OccursAt(s, t, 0);
      }
      if exists i :: OccursAt(s, t, i) {
        var i :| OccursAt(s, t, i);
        assert StartsWith(s, t);
      }
    } else {
      ContainsIffOccurs(s[1..], t);
      if Contains(s, t) {
        if StartsWith(s, t) {
          assert OccursAt(s, t, 0);
        } else {
          var j :| OccursAt(s[1..], t, j);
          assert s[1..][j..j + |t|] == s[j + 1..j + 1 + |t|];
          assert OccursAt(s, t, j + 1);
        }
      }
      if exists i :: OccursAt(s, t, i) {
        var i :| OccursAt(s, t, i);
        if i == 0 {
          assert StartsWith(s, t);
        } else {
          assert s[1..][i - 1..i - 1 + |t|] == s[i..i + |t|];
          assert OccursAt(s[1..], t, i - 1);
        }
      }
    }
  }

  // ---------------------------------------------------------------- decimal

  function DigitChar(d: nat): (c: char)
    requires d < 10
    ensures '0' <= c <= '9'
  {
    "0123456789"[d]
  }

  predicate IsDigits(s: string) {
    forall i :: 0 <= i < |s| ==> '0' <= s[i] <= '9'
  }

  /** The decimal form of a natural number, as `String.valueOf` writes it. */
  function NatToString(n: nat): (r: string)
    ensures |r| >= 1 && IsDigits(r)
    ensures (|r| == 1) == (n < 10)
  {
    if n < 10 then [DigitChar(n)] else NatToString(n / 10) + [DigitChar(n % 10)]
  }

  /** The decimal form of an integer, with a leading '-' when negative. */
  function IntToString(i: int): (r: string)
    ensures |r| >= 1
    ensures forall k :: 0 <= k < |r| ==> r[k] == '-' || '0' <= r[k] <= '9'
    ensures (r[0] == '-') == (i < 0)
  {
    if i < 0 then "-" + NatToString(-i) else NatToString(i)
  }

  lemma {:induction false} NatToStringInjective(a: nat, b: nat)
    requires NatToString(a) == NatToString(b)
    ensures a == b
    decreases a
  {
    if a >= 10 && b >= 10 {
      var sa, sb := NatToString(a), NatToString(b);
      assert sa[|sa| - 1] == DigitChar(a % 10) && sb[|sb| - 1] == DigitChar(b % 10);
      assert a % 10 == b % 10;
      assert sa[..|sa| - 1] == NatToString(a / 10);
      assert sb[..|sb| - 1] == NatToString(b / 10);
      NatToStringInjective(a / 10, b / 10);
    }
  }

  /** Distinct integers print differently. */
  lemma IntToStringInjective(a: int, b: int)
    requires IntToString(a) == IntToString(b)
    ensures a == b
  {
    var s := IntToString(a);
    if a < 0 && b < 0 {
      assert NatToString(-a) == s[1..] == NatToString(-b);
      NatToStringInjective(-a, -b);
    } else if a >= 0 && b >= 0 {
      NatToStringInjective(a, b);
    }
  }

  // ---------------------------------------------------------------- separators

  /** The number of characters before the first `c` in `s` (all of `s` when there is none). */
  function CountBeforeFirst(s: string, c: char): (n: nat)
    ensures n <= |s|
  {
    if s == [] || s[0] == c then 0 else 1 + CountBeforeFirst(s[1..], c)
  }

  /** The number of characters after the last `c` in `s` (all of `s` when there is none). */
  function CountAfterLast(s: string, c: char): (n: nat)
    ensures n <= |s|
  {
    if s == [] || s[|s| - 1] == c then 0 else 1 + CountAfterLast(s[..|s| - 1], c)
  }

  lemma {:induction false} FirstSeparatorFollowsPrefix(a: string, rest: string, sep: char)
    requires sep !in a
    ensures CountBeforeFirst(a + [sep] + rest, sep) == |a|
  {
    if a != [] {
      assert (a + [sep] + rest)[1..] == a[1..] + [sep] + rest;
      FirstSeparatorFollowsPrefix(a[1..], rest, sep);
    }
  }

  lemma {:induction false} LastSeparatorPrecedesSuffix(front: string, b: string, sep: char)
    requires sep !in b
    ensures CountAfterLast(front + [sep] + b, sep) == |b|
  {
    if b != [] {
      assert (front + [sep] + b)[..|front| + |b|] == front + [sep] + b[..|b| - 1];
      LastSeparatorPrecedesSuffix(front, b[..|b| - 1], sep);
    }
  }

  /** Splitting at the first separator: the part before it must be free of the separator. */
  lemma SplitAtFirstSeparator(a: string, b: string, c: string, d: string, sep: char)
    requires sep !in a && sep !in c
    requires a + [sep] + b == c + [sep] + d
    ensures a == c && b == d
  {
    var s := a + [sep] + b;
    FirstSeparatorFollowsPrefix(a, b, sep);
    FirstSeparatorFollowsPrefix(c, d, sep);
    assert a == s[..|a|] && c == s[..|c|];
    assert b == s[|a| + 1..] && d == s[|c| + 1..];
  }

  /** Splitting at the last separator: the part after it must be free of the separator. */
  lemma SplitAtLastSeparator(a: string, b: string, c: string, d: string, sep: char)
    requires sep !in b && sep !in d
    requires a + [sep] + b == c + [sep] + d
    ensures a == c && b == d
  {
    var s := a + [sep] + b;
    LastSeparatorPrecedesSuffix(a, b, sep);
    LastSeparatorPrecedesSuffix(c, d, sep);
    assert a == s[..|a|] && c == s[..|c|];
    assert b == s[|a| + 1..] && d == s[|c| + 1..];
  }

  // ---------------------------------------------------------------- hashing

  const Int32Modulus: int := 0x1_0000_0000

  predicate IsInt32(x: int) {
    -0x8000_0000 <= x < 0x8000_0000
  }

  /** Java `int` arithmetic: the value congruent to `x` modulo 2^32 in the signed range. */
  function ToInt32(x: int): (r: int)
    ensures IsInt32(r)
    ensures (x - r) % Int32Modulus == 0
    ensures IsInt32(x) ==> r == x
  {
    (x + 0x8000_0000) % Int32Modulus - 0x8000_0000
  }

  /** `String.hashCode`: h = 31 * h + c over the characters, in 32-bit arithmetic. */
  function StringHashCode(s: string): (h: int)
    ensures IsInt32(h)
  {
    if s == [] then 0 else ToInt32(31 * StringHashCode(s[..|s| - 1]) + s[|s| - 1] as int)
  }

  /** `Objects.hash(o)` of a single argument: 31 + o.hashCode(), a null hashing to 0. */
  function ObjectsHash(o: Option<string>): (h: int)
    ensures IsInt32(h)
    ensures o.None? ==> h == 31
  {
    ToInt32(31 + if o.Some? then StringHashCode(o.value) else 0)
  }

  /** Two distinct strings with the same hash code. */
  lemma HashCollision()
    ensures "Aa" != "BB" && StringHashCode("Aa") == StringHashCode("BB")
  {
    assert "Aa"[..1] == "A" && "BB"[..1] == "B";
    assert StringHashCode("A") == 65 && StringHashCode("B") == 66;
  }
}
