/** The two string normalisations the identity code applies to names and
    e-mail addresses: `String.prototype.trim` and `toLowerCase`. */
module Text {

  /** The characters `trim` removes: ECMAScript WhiteSpace (tab, vertical
      tab, form feed, space, no-break space, the byte-order mark and the
      Unicode space separators) and LineTerminator (LF, CR, U+2028, U+2029). */
  predicate IsJsSpace(c: char)
  {
    var n := c as int;
    n == 0x09 || n == 0x0A || n == 0x0B || n == 0x0C || n == 0x0D || n == 0x20
    || n == 0xA0 || n == 0x1680 || (0x2000 <= n <= 0x200A)
    || n == 0x2028 || n == 0x2029 || n == 0x202F || n == 0x205F
    || n == 0x3000 || n == 0xFEFF
  }

  predicate AllSpace(s: string)
  {
    forall i :: 0 <= i < |s| ==> IsJsSpace(s[i])
  }

  /** Leading white space dropped: the result is a suffix of `s`, what was
      dropped is white space, and the result does not start with any. */
  function TrimStart(s: string): (r: string)
    ensures |r| <= |s| && r == s[|s| - |r|..]
    ensures AllSpace(s[..|s| - |r|])
    ensures r == [] || !IsJsSpace(r[0])
  {
    if s != [] && IsJsSpace(s[0]) then
      var r := TrimStart(s[1..]);
      assert s[..|s| - |r|] == [s[0]] + s[1..][..|s| - 1 - |r|];
      r
    else s
  }

  /** Trailing white space dropped: the result is a prefix of `s`, what was
      dropped is white space, and the result does not end with any. */
  function TrimEnd(s: string): (r: string)
    ensures |r| <= |s| && r == s[..|r|]
    ensures AllSpace(s[|r|..])
    ensures r == [] || !IsJsSpace(r[|r| - 1])
  {
    if s != [] && IsJsSpace(s[|s| - 1]) then
      var r := TrimEnd(s[..|s| - 1]);
      assert s[|r|..] == s[..|s| - 1][|r|..] + [s[|s| - 1]];
      r
    else s
  }

  /** Outside the slice `s[a..b]` there is only white space. */
  predicate SpaceOutside(s: string, a: int, b: int)
    requires 0 <= a <= b <= |s|
  {
    forall i :: 0 <= i < |s| && (i < a || b <= i) ==> IsJsSpace(s[i])
  }

  /** `s.trim()`: a slice of `s` outside which there is only white space,
      and which neither starts nor ends with white space. */
  function Trim(s: string): (r: string)
    ensures |r| <= |s|
    ensures r == [] || (!IsJsSpace(r[0]) && !IsJsSpace(r[|r| - 1]))
    ensures exists a, b :: 0 <= a <= b <= |s| && r == s[a..b] && SpaceOutside(s, a, b)
  {
    var t := TrimStart(s);
    TrimSlice(s, t, TrimEnd(t));
    TrimEnd(t)
  }

  lemma TrimSlice(s: string, t: string, r: string)
    requires |t| <= |s| && t == s[|s| - |t|..] && AllSpace(s[..|s| - |t|])
    requires |r| <= |t| && r == t[..|r|] && AllSpace(t[|r|..])
    ensures |s| - |t| + |r| <= |s| && r == s[|s| - |t|..|s| - |t| + |r|]
    ensures SpaceOutside(s, |s| - |t|, |s| - |t| + |r|)
  {
    var a := |s| - |t|;
    forall i | 0 <= i < |s| && (i < a || a + |r| <= i)
      ensures IsJsSpace(s[i])
    {
      if i < a {
        assert s[i] == s[..a][i];
      } else {
        assert s[i] == t[|r|..][i - a - |r|];
      }
    }
  }

  lemma {:induction false} TrimStartFixed(s: string)
    requires s == [] || !IsJsSpace(s[0])
    ensures TrimStart(s) == s
  {
  }

  lemma {:induction false} TrimEndFixed(s: string)
    requires s == [] || !IsJsSpace(s[|s| - 1])
    ensures TrimEnd(s) == s
  {
  }

  /** Trimming is idempotent. */
  lemma TrimIdempotent(s: string)
    ensures Trim(Trim(s)) == Trim(s)
  {
    var t := Trim(s);
    TrimStartFixed(t);
    TrimEndFixed(t);
  }

  /** A string of white space only trims to the empty string. */
  lemma {:induction false} TrimAllSpace(s: string)
    requires AllSpace(s)
    ensures Trim(s) == []
  {
  }

  /** `toLowerCase` on one character; only A-Z is mapped here. */
  function LowerChar(c: char): (d: char)
    ensures 'A' <= c <= 'Z' ==> 'a' <= d <= 'z' && d as int == c as int + 32
    ensures !('A' <= c <= 'Z') ==> d == c
  {
    if 'A' <= c <= 'Z' then (c as int + 32) as char else c
  }

  /** `s.toLowerCase()`, character by character. */
  function Lower(s: string): (r: string)
    ensures |r| == |s|
    ensures forall i :: 0 <= i < |s| ==> r[i] == LowerChar(s[i])
  {
    seq(|s|, i requires 0 <= i < |s| => LowerChar(s[i]))
  }

  predicate IsLowerCase(s: string)
  {
    forall i :: 0 <= i < |s| ==> !('A' <= s[i] <= 'Z')
  }

  /** Lower-casing yields a lower-case string and does nothing to one. */
  lemma LowerIsLowerCase(s: string)
    ensures IsLowerCase(Lower(s))
    ensures IsLowerCase(s) ==> Lower(s) == s
  {
  }

  /** Every slice of a lower-case string is lower-case. */
  lemma LowerCaseSlice(s: string, i: nat, j: nat)
    requires IsLowerCase(s) && i <= j <= |s|
    ensures IsLowerCase(s[i..j])
  {
    forall k | 0 <= k < j - i ensures !('A' <= s[i..j][k] <= 'Z') {
      assert s[i..j][k] == s[i + k];
    }
  }

  /** Trimming a lower-case string keeps it lower-case, so the normalised
      e-mail `Trim(Lower(e))` is a fixed point of `Lower`. */
  lemma {:induction false} TrimKeepsLowerCase(s: string)
    requires IsLowerCase(s)
    ensures IsLowerCase(Trim(s))
    ensures Lower(Trim(s)) == Trim(s)
  {
    var a := TrimStart(s);
    LowerCaseSlice(s, |s| - |a|, |s|);
    assert a == s[|s| - |a|..|s|];
    var b := TrimEnd(a);
    LowerCaseSlice(a, 0, |b|);
    assert b == a[0..|b|];
    LowerIsLowerCase(b);
  }

  /** The form `toLowerCase().trim()` produces: lower-case, with no white
      space at either end. */
  predicate Normalised(e: string)
  {
    IsLowerCase(e) && (e == [] || (!IsJsSpace(e[0]) && !IsJsSpace(e[|e| - 1])))
  }

  /** Normalising yields a normalised string, and a normalised string is
      exactly one that normalising leaves unchanged. */
  lemma NormaliseNormalises(s: string)
    ensures Normalised(Trim(Lower(s)))
    ensures Normalised(s) <==> Trim(Lower(s)) == s
  {
    LowerIsLowerCase(s);
    TrimKeepsLowerCase(Lower(s));
    if Normalised(s) {
      TrimStartFixed(s);
      TrimEndFixed(s);
    }
  }
}
