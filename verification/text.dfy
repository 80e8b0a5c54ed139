/**
 * String helpers that the JavaScript code gets from its runtime:
 * `String.prototype.includes`, `trim`, and the decimal rendering of a
 * number inside a template literal.
 */
module Text {

  /** `s.includes(sub)`: `sub` occurs somewhere in `s`. */
  predicate Includes(s: string, sub: string)
    decreases |s|
  {
    sub <= s || (|s| > 0 && Includes(s[1..], sub))
  }

  /** `sub` sits at offset `i` of `s`. */
  predicate OccursAt(s: string, sub: string, i: int) {
    0 <= i <= |s| - |sub| && s[i..i + |sub|] == sub
  }

  /** `Includes` holds exactly when `sub` sits at some offset of `s`. */
  lemma {:induction false} IncludesAt(s: string, sub: string)
    ensures Includes(s, sub) <==> exists i :: OccursAt(s, sub, i)
    decreases |s|
  {
    if |s| > 0 {
      IncludesAt(s[1..], sub);
      if Includes(s[1..], sub) {
        var i :| OccursAt(s[1..], sub, i);
        assert OccursAt(s, sub, i + 1);
      }
      if sub <= s {
        assert OccursAt(s, sub, 0);
      }
      if exists i :: OccursAt(s, sub, i) {
        var i :| OccursAt(s, sub, i);
        if i > 0 {
          assert OccursAt(s[1..], sub, i - 1);
        } else {
          assert sub <= s;
        }
      }
    } else {
      if sub <= s {
        assert OccursAt(s, sub, 0);
      }
      if exists i :: OccursAt(s, sub, i) {
        var i :| OccursAt(s, sub, i);
        assert sub == [] && sub <= s;
      }
    }
  }

  /** Whatever text surrounds `b`, the whole contains `b`. */
  lemma {:induction false} IncludesMiddle(a: string, b: string, c: string)
    ensures Includes(a + b + c, b)
    decreases |a|
  {
    if a == [] {
      assert a + b + c == b + c;
    } else {
      IncludesMiddle(a[1..], b, c);
      assert (a + b + c)[1..] == a[1..] + b + c;
    }
  }

  /** A concatenation contains its right-hand part. */
  lemma IncludesSuffix(a: string, b: string)
    ensures Includes(a + b, b)
  {
    IncludesMiddle(a, b, []);
    assert a + b + [] == a + b;
  }

  /** Containment is transitive. */
  lemma IncludesTrans(x: string, y: string, z: string)
    requires Includes(x, y) && Includes(y, z)
    ensures Includes(x, z)
  {
    IncludesAt(x, y);
    IncludesAt(y, z);
    var i :| OccursAt(x, y, i);
    var j :| OccursAt(y, z, j);
    assert forall m :: 0 <= m < |y| ==> y[m] == x[i + m];
    assert x[i + j..i + j + |z|] == y[j..j + |z|];
    assert OccursAt(x, z, i + j);
    IncludesAt(x, z);
  }

  /** Whatever contains `a + b` contains `a` and contains `b`. */
  lemma IncludesParts(x: string, a: string, b: string)
    requires Includes(x, a + b)
    ensures Includes(x, a) && Includes(x, b)
  {
    assert Includes(a + b, a);
    IncludesSuffix(a, b);
    IncludesTrans(x, a + b, a);
    IncludesTrans(x, a + b, b);
  }

  /** A string never contains a character that none of its positions hold. */
  lemma IncludesCharAt(s: string, c: char)
    requires Includes(s, [c])
    ensures exists i :: 0 <= i < |s| && s[i] == c
  {
    IncludesAt(s, [c]);
    var i :| OccursAt(s, [c], i);
    assert s[i] == s[i..i + 1][0] == c;
  }

  // ---------------------------------------------------------------------
  // Decimal rendering of integers, as `${n}` does for an integral number.
  // ---------------------------------------------------------------------

  predicate IsDigit(c: char) { '0' <= c <= '9' }

  function DigitChar(d: nat): (c: char)
    requires d < 10
    ensures IsDigit(c) && c as int - '0' as int == d
  {
    ('0' as int + d) as char
  }

  /** The decimal digits of `n`, most significant first, without leading zeros. */
  function NatToString(n: nat): (s: string)
    ensures |s| >= 1
    ensures forall i :: 0 <= i < |s| ==> IsDigit(s[i])
    ensures |s| > 1 ==> s[0] != '0'
    decreases n
  {
    if n < 10 then [DigitChar(n)] else NatToString(n / 10) + [DigitChar(n % 10)]
  }

  /** Reads a string of decimal digits back as a number. */
  function DigitsValue(s: string): nat
    requires forall i :: 0 <= i < |s| ==> IsDigit(s[i])
    decreases |s|
  {
    if s == [] then 0
    else
      assert IsDigit(s[|s| - 1]);
      DigitsValue(s[..|s| - 1]) * 10 + (s[|s| - 1] as int - '0' as int)
  }

  /** Reading the rendering of `n` gives back `n`. */
  lemma {:induction false} DigitsValueOfNatToString(n: nat)
    ensures DigitsValue(NatToString(n)) == n
    decreases n
  {
    var s := NatToString(n);
    if n >= 10 {
      DigitsValueOfNatToString(n / 10);
      assert s[..|s| - 1] == NatToString(n / 10);
    }
  }

  /** Distinct numbers render as distinct strings. */
  lemma NatToStringInjective(a: nat, b: nat)
    requires NatToString(a) == NatToString(b)
    ensures a == b
  {
    DigitsValueOfNatToString(a);
    DigitsValueOfNatToString(b);
  }

  /** `${n}` for an integer `n`: a minus sign before the digits of `|n|` when negative. */
  function IntToString(n: int): (s: string)
    ensures |s| >= 1
    ensures n >= 0 ==> s == NatToString(n)
    ensures n < 0 ==> s[0] == '-' && s[1..] == NatToString(-n)
  {
    if n < 0 then "-" + NatToString(-n) else NatToString(n)
  }

  // ---------------------------------------------------------------------
  // String.prototype.trim
  // ---------------------------------------------------------------------

  /** ECMAScript WhiteSpace and LineTerminator code points, the set `trim` removes. */
  predicate IsJsSpace(c: char) {
    var n := c as int;
    n == 0x09 || n == 0x0A || n == 0x0B || n == 0x0C || n == 0x0D || n == 0x20
    || n == 0xA0 || n == 0x1680 || (0x2000 <= n <= 0x200A) || n == 0x2028 || n == 0x2029
    || n == 0x202F || n == 0x205F || n == 0x3000 || n == 0xFEFF
  }

  predicate AllSpace(s: string) { forall i :: 0 <= i < |s| ==> IsJsSpace(s[i]) }

  /** The first index at or after `i` that holds a non-space character, or `|s|`. */
  function LeadingFrom(s: string, i: nat): (k: nat)
    requires i <= |s|
    ensures i <= k <= |s|
    ensures forall m :: i <= m < k ==> IsJsSpace(s[m])
    ensures k < |s| ==> !IsJsSpace(s[k])
    decreases |s| - i
  {
    if i < |s| && IsJsSpace(s[i]) then LeadingFrom(s, i + 1) else i
  }

  /** The length of the longest all-space prefix of `s`. */
  function LeadingSpaces(s: string): (k: nat)
    ensures k <= |s| && AllSpace(s[..k])
    ensures k < |s| ==> !IsJsSpace(s[k])
  {
    LeadingFrom(s, 0)
  }

  /** The start of the longest all-space run that ends at index `j`. */
  function TrailingFrom(s: string, j: nat): (e: nat)
    requires j <= |s|
    ensures e <= j
    ensures forall m :: e <= m < j ==> IsJsSpace(s[m])
    ensures e > 0 ==> !IsJsSpace(s[e - 1])
  {
    if j > 0 && IsJsSpace(s[j - 1]) then TrailingFrom(s, j - 1) else j
  }

  /** The length of the longest all-space suffix of `s`. */
  function TrailingSpaces(s: string): (k: nat)
    ensures k <= |s| && AllSpace(s[|s| - k..])
    ensures k < |s| ==> !IsJsSpace(s[|s| - k - 1])
  {
    |s| - TrailingFrom(s, |s|)
  }

  /**
   * `s.trim()`: `s` with every leading and trailing white-space character
   * removed. The result is the middle of `s`, flanked by white space only,
   * and starts and ends with a non-space character when it is non-empty.
   */
  function Trim(s: string): (r: string)
    ensures exists i, j :: 0 <= i <= j <= |s| && r == s[i..j] && AllSpace(s[..i]) && AllSpace(s[j..])
    ensures |r| > 0 ==> !IsJsSpace(r[0]) && !IsJsSpace(r[|r| - 1])
    ensures AllSpace(s) ==> r == []
  {
    var t := s[LeadingSpaces(s)..];
    var r := t[..|t| - TrailingSpaces(t)];
    assert r == s[LeadingSpaces(s)..|s| - TrailingSpaces(t)];
    assert s[|s| - TrailingSpaces(t)..] == t[|t| - TrailingSpaces(t)..];
    r
  }

  /** Trimming a string that already has no space at either end changes nothing. */
  lemma TrimUnchanged(s: string)
    requires |s| > 0 ==> !IsJsSpace(s[0]) && !IsJsSpace(s[|s| - 1])
    ensures Trim(s) == s
  {
    assert LeadingSpaces(s) == 0;
    assert TrailingSpaces(s) == 0;
  }

  // ---------------------------------------------------------------------
  // `[...new Set(xs)]`: first occurrences, in order.
  // ---------------------------------------------------------------------

  /** The first occurrence of every element, in order. */
  function Dedup(items: seq<string>): (r: seq<string>)
    ensures forall x :: x in r <==> x in items
    ensures forall i, j :: 0 <= i < j < |r| ==> r[i] != r[j]
    ensures |r| <= |items|
    decreases |items|
  {
    if items == [] then []
    else
      var rest := Dedup(items[..|items| - 1]);
      var x := items[|items| - 1];
      if x in items[..|items| - 1] then rest else rest + [x]
  }

  /** Deduplicating one more item appends it exactly when it is new. */
  lemma DedupPush(items: seq<string>, x: string)
    ensures Dedup(items + [x]) == if x in items then Dedup(items) else Dedup(items) + [x]
  {
    assert (items + [x])[..|items|] == items;
  }
}
