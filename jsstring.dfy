/**
  The part of JavaScript's String.prototype.trim that the habit tracker relies on:
  `newHabit.trim()` is truthy exactly when the input holds a character that is not
  white space. ECMAScript strips WhiteSpace and LineTerminator code points from both ends.
 */
module JsString {

  /** ECMAScript WhiteSpace (TAB, VT, FF, SP, NBSP, ZWNBSP and the Zs category)
      and LineTerminator (LF, CR, LS, PS). */
  predicate IsWhiteSpace(c: char) {
    var n := c as int;
    n == 0x09 || n == 0x0A || n == 0x0B || n == 0x0C || n == 0x0D || n == 0x20 ||
    n == 0xA0 || n == 0x1680 || (0x2000 <= n <= 0x200A) || n == 0x2028 || n == 0x2029 ||
    n == 0x202F || n == 0x205F || n == 0x3000 || n == 0xFEFF
  }

  /** Every character of `s` is white space (the empty string included). */
  predicate IsBlank(s: string) {
    forall i :: 0 <= i < |s| ==> IsWhiteSpace(s[i])
  }

  /** `s` without its leading white space: the longest blank prefix is dropped. */
  function TrimStart(s: string): (r: string)
    ensures |r| <= |s| && r == s[|s| - |r|..]
    ensures IsBlank(s[..|s| - |r|])
    ensures r == [] || !IsWhiteSpace(r[0])
    decreases |s|
  {
    if s != [] && IsWhiteSpace(s[0]) then
      var r := TrimStart(s[1..]);
      assert s[..|s| - |r|] == [s[0]] + s[1..][..|s| - 1 - |r|];
      r
    else s
  }

  /** `s` without its trailing white space: the longest blank suffix is dropped. */
  function TrimEnd(s: string): (r: string)
    ensures |r| <= |s| && r == s[..|r|]
    ensures IsBlank(s[|r|..])
    ensures r == [] || !IsWhiteSpace(r[|r| - 1])
    decreases |s|
  {
    if s != [] && IsWhiteSpace(s[|s| - 1]) then
      var r := TrimEnd(s[..|s| - 1]);
      assert s[|r|..] == s[..|s| - 1][|r|..] + [s[|s| - 1]];
      r
    else s
  }

  /** String.prototype.trim: the input with a blank prefix and a blank suffix
      removed, leaving no white space at either end. */
  function Trim(s: string): (r: string)
    ensures exists k :: 0 <= k && k + |r| <= |s| && r == s[k..k + |r|] && IsBlank(s[..k]) && IsBlank(s[k + |r|..])
    ensures r == [] || (!IsWhiteSpace(r[0]) && !IsWhiteSpace(r[|r| - 1]))
  {
    var t := TrimStart(s);
    var u := TrimEnd(t);
    TrimWitness(s, t, u);
    u
  }

  /** A blank prefix dropped from `s` to give `t`, then a blank suffix dropped from
      `t` to give `u`: `u` is a slice of `s` between a blank prefix and a blank suffix. */
  lemma TrimWitness(s: string, t: string, u: string)
    requires |t| <= |s| && t == s[|s| - |t|..] && IsBlank(s[..|s| - |t|])
    requires |u| <= |t| && u == t[..|u|] && IsBlank(t[|u|..])
    requires t == [] || !IsWhiteSpace(t[0])
    requires u == [] || !IsWhiteSpace(u[|u| - 1])
    ensures exists k :: 0 <= k && k + |u| <= |s| && u == s[k..k + |u|] && IsBlank(s[..k]) && IsBlank(s[k + |u|..])
    ensures u == [] || (!IsWhiteSpace(u[0]) && !IsWhiteSpace(u[|u| - 1]))
  {
    var k := |s| - |t|;
    var rest := s[k + |u|..];
    assert rest == t[|u|..] by {
      forall i | 0 <= i < |rest| ensures rest[i] == t[|u| + i] { }
    }
    assert u == s[k..k + |u|] by {
      forall i | 0 <= i < |u| ensures u[i] == s[k + i] { }
    }
    if u != [] {
      assert u[0] == t[0];
    }
    assert IsBlank(s[..k]) && IsBlank(rest);
  }

  /** Trimming leaves an empty string exactly when the input was blank. */
  lemma TrimEmptyIffBlank(s: string)
    ensures Trim(s) == [] <==> IsBlank(s)
  {
    var t := TrimStart(s);
    var k := |s| - |t|;
    var u := TrimEnd(t);
    if t == [] {
      assert s[..k] == s;
    } else {
      assert t[|t|..] == [];
      assert u[0] == t[0] == s[k];
      assert !IsBlank(s) by {
        assert !IsWhiteSpace(s[k]);
      }
    }
  }
}
