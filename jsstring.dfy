/**
 * The JavaScript string primitives the service relies on: `trim`, `indexOf` and
 * `lastIndexOf` on a single character. Strings are sequences of Unicode scalar
 * values; `indexOf` and `lastIndexOf` keep JavaScript's `-1` for "not found".
 */
module JsString {

  /**
   * The characters `String.prototype.trim` removes: the ECMAScript WhiteSpace
   * code points (tab, vertical tab, form feed, the byte order mark and every
   * space separator of Unicode category Zs) and the LineTerminator code points
   * (line feed, carriage return, line separator, paragraph separator).
   */
  predicate IsWhitespace(c: char) {
    var n := c as int;
    || n == 0x09 || n == 0x0A || n == 0x0B || n == 0x0C || n == 0x0D
    || n == 0x20 || n == 0xA0 || n == 0x1680
    || (0x2000 <= n <= 0x200A)
    || n == 0x2028 || n == 0x2029 || n == 0x202F || n == 0x205F
    || n == 0x3000 || n == 0xFEFF
  }

  /** `sub` occurs in `s` as a contiguous run of characters. */
  predicate IsSubstring(sub: string, s: string) {
    exists i :: 0 <= i <= |s| && sub <= s[i..]
  }

  /** Every slice of `s` occurs in `s`. */
  lemma SliceIsSubstring(s: string, i: nat, j: nat)
    requires i <= j <= |s|
    ensures IsSubstring(s[i..j], s)
  {
    assert s[i..j] <= s[i..];
  }

  predicate AllWhitespace(s: string) {
    forall k :: 0 <= k < |s| ==> IsWhitespace(s[k])
  }

  /** Neither the first nor the last character of `s` is whitespace. */
  predicate NoEdgeWhitespace(s: string) {
    s == [] || (!IsWhitespace(s[0]) && !IsWhitespace(s[|s| - 1]))
  }

  /** `s` with its leading whitespace removed. TrimStartShape states what it keeps. */
  function TrimStart(s: string): string
  {
    if s != [] && IsWhitespace(s[0]) then TrimStart(s[1..]) else s
  }

  /** `s` with its trailing whitespace removed. TrimEndShape states what it keeps. */
  function TrimEnd(s: string): string
  {
    if s != [] && IsWhitespace(s[|s| - 1]) then TrimEnd(s[..|s| - 1]) else s
  }

  /**
   * `TrimStart` keeps a suffix of its input, drops only whitespace, and what it
   * keeps does not start with whitespace.
   */
  lemma {:induction false} TrimStartShape(s: string)
    ensures |TrimStart(s)| <= |s| && TrimStart(s) == s[|s| - |TrimStart(s)|..]
    ensures AllWhitespace(s[..|s| - |TrimStart(s)|])
    ensures TrimStart(s) == [] || !IsWhitespace(TrimStart(s)[0])
  {
    if s != [] && IsWhitespace(s[0]) {
      var tail := s[1..];
      TrimStartShape(tail);
      var r := TrimStart(tail);
      var n := |s| - |r|;
      assert tail[n - 1..] == s[n..];
      var dropped := s[..n];
      forall k | 0 <= k < |dropped| ensures IsWhitespace(dropped[k]) {
        if k > 0 {
          assert dropped[k] == tail[..n - 1][k - 1];
        }
      }
    }
  }

  /**
   * `TrimEnd` keeps a prefix of its input, drops only whitespace, and what it
   * keeps does not end with whitespace.
   */
  lemma {:induction false} TrimEndShape(s: string)
    ensures |TrimEnd(s)| <= |s| && TrimEnd(s) == s[..|TrimEnd(s)|]
    ensures AllWhitespace(s[|TrimEnd(s)|..])
    ensures TrimEnd(s) == [] || !IsWhitespace(TrimEnd(s)[|TrimEnd(s)| - 1])
  {
    if s != [] && IsWhitespace(s[|s| - 1]) {
      var front := s[..|s| - 1];
      TrimEndShape(front);
      var r := TrimEnd(front);
      var n := |r|;
      assert front[..n] == s[..n];
      var dropped := s[n..];
      forall k | 0 <= k < |dropped| ensures IsWhitespace(dropped[k]) {
        if k < |dropped| - 1 {
          assert dropped[k] == front[n..][k];
        }
      }
    }
  }

  /**
   * `r` is `s` with whitespace dropped on either side: `r` occurs in `s` at some
   * offset `i`, and everything before `i` and after the occurrence is whitespace.
   */
  predicate IsTrimOf(r: string, s: string) {
    exists i :: 0 <= i <= |s| - |r| && r == s[i..i + |r|]
                && AllWhitespace(s[..i]) && AllWhitespace(s[i + |r|..])
  }

  /**
   * `String.prototype.trim`: the result neither starts nor ends with whitespace.
   * TrimDropsOnlyWhitespace states what it removes.
   */
  function Trim(s: string): (r: string)
    ensures NoEdgeWhitespace(r)
  {
    TrimStartShape(s);
    TrimEndShape(TrimStart(s));
    TrimEnd(TrimStart(s))
  }

  /** `Trim` never lengthens its input. */
  lemma TrimNoLonger(s: string)
    ensures |Trim(s)| <= |s|
  {
    TrimStartShape(s);
    TrimEndShape(TrimStart(s));
  }

  /** What `Trim` removes from either side is whitespace, and nothing else is removed. */
  lemma TrimDropsOnlyWhitespace(s: string)
    ensures IsTrimOf(Trim(s), s)
  {
    var t := TrimStart(s);
    var r := TrimEnd(t);
    TrimStartShape(s);
    TrimEndShape(t);
    var i := |s| - |t|;
    assert s[i..][..|r|] == s[i..i + |r|];
    assert s[i..][|r|..] == s[i + |r|..];
  }

  /** Dropping a whitespace prefix that ends at a non-whitespace character is `TrimStart`. */
  lemma {:induction false} TrimStartAt(s: string, i: nat)
    requires i <= |s| && AllWhitespace(s[..i]) && (i == |s| || !IsWhitespace(s[i]))
    ensures TrimStart(s) == s[i..]
  {
    if i > 0 {
      assert IsWhitespace(s[..i][0]);
      var rest := s[1..][..i - 1];
      assert AllWhitespace(rest) by {
        forall k | 0 <= k < |rest| ensures IsWhitespace(rest[k]) {
          assert rest[k] == s[..i][k + 1];
        }
      }
      TrimStartAt(s[1..], i - 1);
      assert s[1..][i - 1..] == s[i..];
    }
  }

  /** Dropping a whitespace suffix that starts after a non-whitespace character is `TrimEnd`. */
  lemma {:induction false} TrimEndAt(s: string, j: nat)
    requires j <= |s| && AllWhitespace(s[j..]) && (j == 0 || !IsWhitespace(s[j - 1]))
    ensures TrimEnd(s) == s[..j]
  {
    if j < |s| {
      assert IsWhitespace(s[j..][|s| - 1 - j]);
      var front := s[..|s| - 1];
      var rest := front[j..];
      assert AllWhitespace(rest) by {
        forall k | 0 <= k < |rest| ensures IsWhitespace(rest[k]) {
          assert rest[k] == s[j..][k];
        }
      }
      TrimEndAt(front, j);
      assert front[..j] == s[..j];
    }
  }

  /**
   * `Trim` is the only result of dropping whitespace from both sides that leaves
   * no whitespace at either edge.
   */
  lemma TrimUnique(s: string, r: string)
    requires IsTrimOf(r, s) && NoEdgeWhitespace(r)
    ensures r == Trim(s)
  {
    var i :| 0 <= i <= |s| - |r| && r == s[i..i + |r|]
             && AllWhitespace(s[..i]) && AllWhitespace(s[i + |r|..]);
    if r == [] {
      TrimAllWhitespace(s, i);
    } else {
      assert s[i] == r[0] && s[i + |r| - 1] == r[|r| - 1];
      TrimInfixAt(s, i, |r|);
    }
  }

  /** A string made only of whitespace trims to the empty string. */
  lemma TrimAllWhitespace(s: string, i: nat)
    requires i <= |s| && AllWhitespace(s[..i]) && AllWhitespace(s[i..])
    ensures Trim(s) == []
  {
    var front, back := s[..i], s[i..];
    assert AllWhitespace(s) by {
      forall k | 0 <= k < |s| ensures IsWhitespace(s[k]) {
        if k < i { assert s[k] == front[k]; } else { assert s[k] == back[k - i]; }
      }
    }
    assert s[..|s|] == s;
    TrimStartAt(s, |s|);
  }

  /** Trimming keeps exactly the run between a whitespace prefix and a whitespace suffix. */
  lemma TrimInfixAt(s: string, i: nat, n: nat)
    requires 0 < n && i + n <= |s|
    requires AllWhitespace(s[..i]) && AllWhitespace(s[i + n..])
    requires !IsWhitespace(s[i]) && !IsWhitespace(s[i + n - 1])
    ensures Trim(s) == s[i..i + n]
  {
    TrimStartAt(s, i);
    var t := s[i..];
    assert t[n..] == s[i + n..];
    assert t[n - 1] == s[i + n - 1];
    TrimEndAt(t, n);
    assert t[..n] == s[i..i + n];
  }

  /** A string without whitespace at its edges is its own trim. */
  lemma TrimFixesNoEdgeWhitespace(s: string)
    requires NoEdgeWhitespace(s)
    ensures Trim(s) == s
  {
    assert TrimStart(s) == s;
    assert TrimEnd(s) == s;
  }

  /** Trimming twice is trimming once. */
  lemma TrimIdempotent(s: string)
    ensures Trim(Trim(s)) == Trim(s)
  {
    TrimFixesNoEdgeWhitespace(Trim(s));
  }

  /**
   * `s.indexOf(c)`: the position of the first `c` in `s`, or -1 when `s` holds
   * no `c`. IndexOfIsFirst states that no `c` comes before it.
   */
  function IndexOf(s: string, c: char): (r: int)
    ensures -1 <= r < |s|
    ensures 0 <= r ==> s[r] == c
  {
    if s == [] then -1
    else if s[0] == c then 0
    else
      var k := IndexOf(s[1..], c);
      if k == -1 then -1 else k + 1
  }

  /** Every `c` in `s` is at or after `IndexOf(s, c)`, which is therefore not -1. */
  lemma {:induction false} IndexOfIsFirst(s: string, c: char, k: nat)
    requires k < |s| && s[k] == c
    ensures 0 <= IndexOf(s, c) <= k
  {
    if s[0] != c {
      assert s[1..][k - 1] == c;
      IndexOfIsFirst(s[1..], c, k - 1);
    }
  }

  /**
   * `s.lastIndexOf(c)`: the position of the last `c` in `s`, or -1 when `s`
   * holds no `c`. LastIndexOfIsLast states that no `c` comes after it.
   */
  function LastIndexOf(s: string, c: char): (r: int)
    ensures -1 <= r < |s|
    ensures 0 <= r ==> s[r] == c
  {
    if s == [] then -1
    else if s[|s| - 1] == c then |s| - 1
    else LastIndexOf(s[..|s| - 1], c)
  }

  /** Every `c` in `s` is at or before `LastIndexOf(s, c)`. */
  lemma {:induction false} LastIndexOfIsLast(s: string, c: char, k: nat)
    requires k < |s| && s[k] == c
    ensures k <= LastIndexOf(s, c)
  {
    if s[|s| - 1] != c {
      assert s[..|s| - 1][k] == c;
      LastIndexOfIsLast(s[..|s| - 1], c, k);
    }
  }
}
