/** String primitives the intake handler relies on: JavaScript's `trim`,
    `slice(0, n)`, `toLowerCase` and the `\s` character class, over `seq<char>`. */
module Text {

  /** ECMAScript WhiteSpace and LineTerminator code points: the set that both
      `String.prototype.trim` and the regular-expression class `\s` use. */
  predicate IsWhitespace(c: char)
  {
    c == '\t' || c == '\n' || c == '\U{000B}' || c == '\U{000C}' || c == '\r' || c == ' '
    || c == '\U{00A0}' || c == '\U{1680}' || ('\U{2000}' <= c <= '\U{200A}')
    || c == '\U{2028}' || c == '\U{2029}' || c == '\U{202F}' || c == '\U{205F}'
    || c == '\U{3000}' || c == '\U{FEFF}'
  }

  predicate AllWhitespace(s: string)
  {
    forall i :: 0 <= i < |s| ==> IsWhitespace(s[i])
  }

  predicate NoWhitespace(s: string)
  {
    forall i :: 0 <= i < |s| ==> !IsWhitespace(s[i])
  }

  /** `s` without its leading whitespace. */
  function TrimStart(s: string): (r: string)
    ensures |r| <= |s|
  {
    if s != [] && IsWhitespace(s[0]) then TrimStart(s[1..]) else s
  }

  /** `s` without its trailing whitespace. */
  function TrimEnd(s: string): (r: string)
    ensures |r| <= |s|
  {
    if s != [] && IsWhitespace(s[|s| - 1]) then TrimEnd(s[..|s| - 1]) else s
  }

  /** `s.trim()`: `s` without the whitespace at either end. */
  function Trim(s: string): (r: string)
    ensures |r| <= |s|
  {
    TrimEnd(TrimStart(s))
  }

  /** `TrimStart` drops a whitespace prefix and keeps the rest, which starts
      with a non-whitespace character if it is not empty. */
  lemma {:induction false} TrimStartSplit(s: string)
    ensures var k := |s| - |TrimStart(s)|;
      TrimStart(s) == s[k..] && AllWhitespace(s[..k])
      && (TrimStart(s) == [] || !IsWhitespace(TrimStart(s)[0]))
  {
    if s != [] && IsWhitespace(s[0]) {
      TrimStartSplit(s[1..]);
      var k := |s| - |TrimStart(s)|;
      assert s[1..][k - 1..] == s[k..];
      forall i | 0 <= i < k ensures IsWhitespace(s[..k][i]) {
        if i > 0 { assert s[..k][i] == s[1..][..k - 1][i - 1]; }
      }
    } else {
      assert s[0..] == s;
    }
  }

  /** `TrimEnd` drops a whitespace suffix and keeps the rest, which ends
      with a non-whitespace character if it is not empty. */
  lemma {:induction false} TrimEndSplit(s: string)
    ensures var k := |TrimEnd(s)|;
      TrimEnd(s) == s[..k] && AllWhitespace(s[k..])
      && (TrimEnd(s) == [] || !IsWhitespace(TrimEnd(s)[k - 1]))
  {
    if s != [] && IsWhitespace(s[|s| - 1]) {
      var p := s[..|s| - 1];
      TrimEndSplit(p);
      var k := |TrimEnd(s)|;
      assert p[..k] == s[..k];
      var tail := s[k..];
      forall j | 0 <= j < |tail| ensures IsWhitespace(tail[j]) {
        if j < |tail| - 1 { assert tail[j] == p[k..][j]; }
      }
    } else {
      assert s[..|s|] == s;
    }
  }

  /** `s.trim()` is empty exactly when `s` is all whitespace. */
  lemma TrimEmptyIff(s: string)
    ensures Trim(s) == [] <==> AllWhitespace(s)
  {
    var t := TrimStart(s);
    TrimStartSplit(s);
    TrimEndSplit(t);
    var k := |s| - |t|;
    if Trim(s) == [] {
      assert t == [];
      forall i | 0 <= i < |s| ensures IsWhitespace(s[i]) {
        assert s[i] == s[..k][i];
      }
    } else {
      assert t != [];
      assert s[k] == t[0];
    }
  }

  /** A string with no whitespace at all is left alone by `trim`. */
  lemma TrimOfNoWhitespace(s: string)
    requires NoWhitespace(s)
    ensures Trim(s) == s
  {
    if s != [] {
      assert !IsWhitespace(s[0]) && !IsWhitespace(s[|s| - 1]);
    }
    assert TrimStart(s) == s;
    assert TrimEnd(s) == s;
  }

  /** `trim` keeps a contiguous piece of `s` that neither starts nor ends
      with whitespace, and removes only whitespace around it. */
  lemma TrimIsInfix(s: string)
    ensures var k := |s| - |TrimStart(s)|;
      k + |Trim(s)| <= |s| && Trim(s) == s[k..k + |Trim(s)|]
      && AllWhitespace(s[..k]) && AllWhitespace(s[k + |Trim(s)|..])
      && (Trim(s) == [] || (!IsWhitespace(Trim(s)[0]) && !IsWhitespace(Trim(s)[|Trim(s)| - 1])))
  {
    var t := TrimStart(s);
    TrimStartSplit(s);
    TrimEndSplit(t);
    var k, n := |s| - |t|, |Trim(s)|;
    assert Trim(s) == t[..n];
    assert t[..n] == s[k..k + n];
    assert s[k + n..] == t[n..];
    if Trim(s) != [] {
      assert Trim(s)[0] == t[0];
    }
  }

  /** `s.slice(0, n)`: the first `n` characters, or all of `s` when it is shorter. */
  function Take(s: string, n: nat): (r: string)
    ensures |r| == if |s| <= n then |s| else n
  {
    if |s| <= n then s else s[..n]
  }

  function ToLowerChar(c: char): (r: char)
  {
    if 'A' <= c <= 'Z' then (c as int + 32) as char else c
  }

  /** `s.toLowerCase()` on the ASCII letters. */
  function ToLower(s: string): (r: string)
    ensures |r| == |s|
  {
    seq(|s|, i requires 0 <= i < |s| => ToLowerChar(s[i]))
  }

  /** Lowercasing works character by character and leaves no capital. */
  lemma ToLowerAt(s: string, i: int)
    requires 0 <= i < |s|
    ensures ToLower(s)[i] == ToLowerChar(s[i])
    ensures !('A' <= ToLower(s)[i] <= 'Z')
  {
  }
}
