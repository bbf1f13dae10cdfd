/**
 * `String.prototype.trim` and `String.prototype.includes`, which the search
 * bar and the playlist filter rely on. A `char` is a Unicode scalar value,
 * not a UTF-16 code unit; on well-formed strings `trim` and `includes` give
 * the same answers in either view, since every white-space character is a
 * single code unit and a match of scalar values is a match of their units.
 */
module JsStrings {

  /** ECMAScript WhiteSpace and LineTerminator code points, which `trim` removes. */
  predicate IsWhiteSpace(c: char) {
    var n := c as int;
    || n == 0x09 || n == 0x0A || n == 0x0B || n == 0x0C || n == 0x0D
    || n == 0x20 || n == 0xA0 || n == 0x1680
    || (0x2000 <= n <= 0x200A)
    || n == 0x2028 || n == 0x2029 || n == 0x202F || n == 0x205F
    || n == 0x3000 || n == 0xFEFF
  }

  /** Every character of `p` is white space. */
  predicate AllWhiteSpace(p: string) {
    forall i :: 0 <= i < |p| ==> IsWhiteSpace(p[i])
  }

  /** `s` with its leading white space removed. */
  function TrimStart(s: string): (r: string)
    ensures |r| <= |s| && r == s[|s| - |r|..]
    ensures AllWhiteSpace(s[..|s| - |r|])
    ensures |r| > 0 ==> !IsWhiteSpace(r[0])
    decreases |s|
  {
    if |s| > 0 && IsWhiteSpace(s[0]) then
      var r := TrimStart(s[1..]);
      WhiteSpacePrefixGrows(s, |s| - |r|);
      r
    else
      s
  }

  /** `s` with its trailing white space removed. */
  function TrimEnd(s: string): (r: string)
    ensures |r| <= |s| && r == s[..|r|]
    ensures AllWhiteSpace(s[|r|..])
    ensures |r| > 0 ==> !IsWhiteSpace(r[|r| - 1])
    decreases |s|
  {
    if |s| > 0 && IsWhiteSpace(s[|s| - 1]) then
      var r := TrimEnd(s[..|s| - 1]);
      WhiteSpaceSuffixGrows(s, |r|);
      r
    else
      s
  }

  lemma WhiteSpacePrefixGrows(s: string, n: nat)
    requires 0 < n <= |s| && IsWhiteSpace(s[0]) && AllWhiteSpace(s[1..][..n - 1])
    ensures AllWhiteSpace(s[..n])
  {
    forall i | 1 <= i < n
      ensures IsWhiteSpace(s[..n][i])
    {
      assert s[..n][i] == s[1..][..n - 1][i - 1];
    }
  }

  lemma WhiteSpaceSuffixGrows(s: string, m: nat)
    requires m < |s| && IsWhiteSpace(s[|s| - 1]) && AllWhiteSpace(s[..|s| - 1][m..])
    ensures AllWhiteSpace(s[m..])
  {
    forall i | 0 <= i < |s| - 1 - m
      ensures IsWhiteSpace(s[m..][i])
    {
      assert s[m..][i] == s[..|s| - 1][m..][i];
    }
  }

  /** `s.trim()`. */
  function Trim(s: string): (r: string)
    ensures |r| <= |s|
    ensures |r| > 0 ==> !IsWhiteSpace(r[0]) && !IsWhiteSpace(r[|r| - 1])
  {
    TrimEnd(TrimStart(s))
  }

  /**
   * `trim` keeps a contiguous middle of the string: it starts where
   * `TrimStart` stops dropping white space, and only white space follows it.
   */
  lemma TrimIsMiddle(s: string)
    ensures SliceAt(Trim(s), s, |s| - |TrimStart(s)|)
  {
    var t := TrimStart(s);
    var r := Trim(s);
    assert r == t[..|r|] by {
      assert r == TrimEnd(t);
    }
    PrefixOfSuffix(s, t, r);
  }

  /** Everything after the trimmed middle is white space. */
  lemma TrimDropsTrailingWhiteSpace(s: string)
    ensures |s| - |TrimStart(s)| + |Trim(s)| <= |s|
    ensures AllWhiteSpace(s[|s| - |TrimStart(s)| + |Trim(s)|..])
  {
    var t := TrimStart(s);
    var r := Trim(s);
    assert AllWhiteSpace(t[|r|..]) by {
      assert r == TrimEnd(t);
    }
    DropOfSuffix(s, t, |r|);
  }

  /** `r` is the slice of `s` that starts at `k`. */
  ghost predicate SliceAt<T>(r: seq<T>, s: seq<T>, k: int) {
    0 <= k && k + |r| <= |s| && r == s[k..k + |r|]
  }

  /** A prefix `r` of a suffix `t` of `s` is the slice of `s` it sits at. */
  lemma PrefixOfSuffix<T>(s: seq<T>, t: seq<T>, r: seq<T>)
    requires |t| <= |s| && t == s[|s| - |t|..]
    requires |r| <= |t| && r == t[..|r|]
    ensures SliceAt(r, s, |s| - |t|)
  {
  }

  /** Dropping `n` from a suffix `t` of `s` leaves the same tail as `s`. */
  lemma DropOfSuffix<T>(s: seq<T>, t: seq<T>, n: nat)
    requires |t| <= |s| && t == s[|s| - |t|..]
    requires n <= |t|
    ensures s[|s| - |t| + n..] == t[n..]
  {
  }

  /** A string trims to the empty string exactly when it is all white space. */
  lemma TrimEmptyIff(s: string)
    ensures Trim(s) == "" <==> AllWhiteSpace(s)
  {
    var t := TrimStart(s);
    if !forall i :: 0 <= i < |s| ==> IsWhiteSpace(s[i]) {
      var j :| 0 <= j < |s| && !IsWhiteSpace(s[j]);
      assert j >= |s| - |t|;
      assert t[j - (|s| - |t|)] == s[j];
    }
  }

  /** Trimming twice is trimming once. */
  lemma TrimIdempotent(s: string)
    ensures Trim(Trim(s)) == Trim(s)
  {
    var r := Trim(s);
    if |r| > 0 {
      assert TrimStart(r) == r;
      assert TrimEnd(r) == r;
    } else {
      assert r == "";
    }
  }

  predicate StartsWith(s: string, prefix: string) {
    |prefix| <= |s| && s[..|prefix|] == prefix
  }

  /** `s.includes(sub)`: `sub` starts at some position of `s`. */
  predicate Includes(s: string, sub: string)
    ensures Includes(s, sub) ==> |sub| <= |s|
    decreases |s|
  {
    StartsWith(s, sub) || (|s| > 0 && Includes(s[1..], sub))
  }

  ghost predicate OccursAt(s: string, sub: string, i: int) {
    0 <= i && i + |sub| <= |s| && s[i..i + |sub|] == sub
  }

  /** `includes` means: occurs as a contiguous substring somewhere. */
  lemma {:induction false} IncludesIffOccurs(s: string, sub: string)
    ensures Includes(s, sub) <==> exists i :: OccursAt(s, sub, i)
    decreases |s|
  {
    if StartsWith(s, sub) {
      assert OccursAt(s, sub, 0);
    } else if |s| > 0 {
      IncludesIffOccurs(s[1..], sub);
      if Includes(s[1..], sub) {
        var i :| OccursAt(s[1..], sub, i);
        assert s[1..][i..i + |sub|] == s[i + 1..i + 1 + |sub|];
        assert OccursAt(s, sub, i + 1);
      }
      if exists i :: OccursAt(s, sub, i) {
        var i :| OccursAt(s, sub, i);
        assert i != 0;
        assert s[1..][i - 1..i - 1 + |sub|] == s[i..i + |sub|];
        assert OccursAt(s[1..], sub, i - 1);
      }
    }
  }

  /** Every string includes the empty string. */
  lemma IncludesEmpty(s: string)
    ensures Includes(s, "")
  {
    assert s[..0] == "";
  }
}
