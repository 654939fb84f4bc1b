/** The JavaScript string operations the chat components rely on:
    `toLowerCase`, `includes`, `startsWith` and `trim`. */
module Text {

  /** `c` lower-cased (only the ASCII capitals are mapped): 'A'..'Z' go to
      'a'..'z' in order. */
  function LowerChar(c: char): (r: char)
    ensures 'A' <= c <= 'Z' ==> 'a' <= r <= 'z' && r as int == c as int + ('a' as int - 'A' as int)
    ensures !('A' <= c <= 'Z') ==> r == c
    ensures !('A' <= r <= 'Z')
  {
    if 'A' <= c <= 'Z' then (c as int - 'A' as int + 'a' as int) as char else c
  }

  /** `s.toLowerCase()`. */
  function Lower(s: string): (r: string)
    ensures |r| == |s|
    ensures forall i :: 0 <= i < |s| ==> r[i] == LowerChar(s[i])
  {
    seq(|s|, i requires 0 <= i < |s| => LowerChar(s[i]))
  }

  /** Lower-casing twice is lower-casing once. */
  lemma LowerIdempotent(s: string)
    ensures Lower(Lower(s)) == Lower(s)
  {
    assert forall i :: 0 <= i < |s| ==> Lower(Lower(s))[i] == Lower(s)[i];
  }

  /** Lower-casing works character by character, so it distributes over `+`. */
  lemma LowerAppend(a: string, b: string)
    ensures Lower(a + b) == Lower(a) + Lower(b)
  {
    assert forall i :: 0 <= i < |a + b| ==> Lower(a + b)[i] == (Lower(a) + Lower(b))[i];
  }

  /** `s.startsWith(p)`. */
  predicate StartsWith(s: string, p: string) {
    |p| <= |s| && s[..|p|] == p
  }

  /** A string that differs from `p` at a position of `p` does not start with `p`. */
  lemma MismatchNotPrefix(s: string, p: string, i: nat)
    requires i < |p| && i < |s| && s[i] != p[i]
    ensures !StartsWith(s, p)
  {
    if |p| <= |s| {
      assert s[..|p|][i] == s[i];
    }
  }

  /** `s.includes(k)`: `k` occurs in `s` as a contiguous substring. */
  predicate Includes(s: string, k: string)
    decreases |s|
  {
    StartsWith(s, k) || (|s| > 0 && Includes(s[1..], k))
  }

  /** `Includes` holds whenever `k` occurs at some offset. */
  lemma {:induction false} IncludesAt(s: string, k: string, at: nat)
    requires at + |k| <= |s| && s[at..at + |k|] == k
    ensures Includes(s, k)
    decreases at
  {
    if at > 0 {
      assert s[1..][at - 1..at - 1 + |k|] == s[at..at + |k|];
      IncludesAt(s[1..], k, at - 1);
    }
  }

  /** Conversely, when `s` includes `k` there is an offset at which `k`
      occurs; together with `IncludesAt`, `Includes` is exactly "`k` occurs
      at some offset". */
  lemma {:induction false} IncludesWitness(s: string, k: string) returns (at: nat)
    requires Includes(s, k)
    ensures at + |k| <= |s| && s[at..at + |k|] == k
    decreases |s|
  {
    if StartsWith(s, k) {
      at := 0;
    } else {
      var i := IncludesWitness(s[1..], k);
      assert s[1..][i..i + |k|] == s[i + 1..i + 1 + |k|];
      at := i + 1;
    }
  }

  /** A text that includes `k` still does once something is put before it. */
  lemma IncludesAfterPrefix(a: string, b: string, k: string)
    requires Includes(b, k)
    ensures Includes(a + b, k)
  {
    var at := IncludesWitness(b, k);
    assert (a + b)[|a| + at..|a| + at + |k|] == b[at..at + |k|];
    IncludesAt(a + b, k, |a| + at);
  }

  /** If some character of `k` does not occur in `s`, `s` does not include
      `k`; the way to show that a keyword is absent from a concrete text. */
  lemma {:induction false} MissingCharExcludes(s: string, k: string, j: nat)
    requires j < |k| && k[j] !in s
    ensures !Includes(s, k)
    decreases |s|
  {
    if |s| > 0 {
      assert forall c :: c in s[1..] ==> c in s;
      MissingCharExcludes(s[1..], k, j);
    }
    if j < |s| {
      assert s[j] in s;
    }
  }

  /** The characters `String.prototype.trim` removes: ECMAScript's
      WhiteSpace and LineTerminator code points. */
  predicate IsSpace(c: char) {
    c in {'\U{9}', '\U{A}', '\U{B}', '\U{C}', '\U{D}', '\U{20}', '\U{A0}',
          '\U{1680}', '\U{2000}', '\U{2001}', '\U{2002}', '\U{2003}', '\U{2004}', '\U{2005}',
          '\U{2006}', '\U{2007}', '\U{2008}', '\U{2009}', '\U{200A}', '\U{2028}', '\U{2029}',
          '\U{202F}', '\U{205F}', '\U{3000}', '\U{FEFF}'}
  }

  /** Every character of `s` is white space (this includes the empty string). */
  predicate AllSpace(s: string) {
    forall i :: 0 <= i < |s| ==> IsSpace(s[i])
  }

  /** `s` with its leading white space removed. */
  function TrimStart(s: string): (r: string)
    ensures |r| <= |s| && r == s[|s| - |r|..]
    ensures AllSpace(s[..|s| - |r|])
    ensures r == [] || !IsSpace(r[0])
    decreases |s|
  {
    if |s| > 0 && IsSpace(s[0]) then TrimStart(s[1..]) else s
  }

  /** `s` with its trailing white space removed. */
  function TrimEnd(s: string): (r: string)
    ensures |r| <= |s| && r == s[..|r|]
    ensures AllSpace(s[|r|..])
    ensures r == [] || !IsSpace(r[|r| - 1])
    decreases |s|
  {
    if |s| > 0 && IsSpace(s[|s| - 1]) then TrimEnd(s[..|s| - 1]) else s
  }

  /** `s.trim()`. */
  function Trim(s: string): (r: string)
    ensures |r| <= |s|
    ensures r == [] || (!IsSpace(r[0]) && !IsSpace(r[|r| - 1]))
  {
    TrimEnd(TrimStart(s))
  }

  /** `!s.trim()`: the string is empty once trimmed. */
  predicate IsBlank(s: string) {
    Trim(s) == []
  }

  /** Trimming cuts only white space from the two ends: the result is the
      slice `s[a..a + |Trim(s)|]` and everything outside it is white space. */
  lemma TrimSlice(s: string) returns (a: nat)
    ensures a + |Trim(s)| <= |s|
    ensures Trim(s) == s[a..a + |Trim(s)|]
    ensures AllSpace(s[..a]) && AllSpace(s[a + |Trim(s)|..])
  {
    var t := TrimStart(s);
    a := |s| - |t|;
    var r := TrimEnd(t);
    assert s[a..][..|r|] == s[a..a + |r|];
    assert s[a + |r|..] == t[|r|..];
  }

  /** A string is blank exactly when it consists of white space only. */
  lemma BlankIffAllSpace(s: string)
    ensures IsBlank(s) <==> AllSpace(s)
  {
    var a := TrimSlice(s);
    if IsBlank(s) {
      assert s == s[..a] + s[a..];
      forall i | 0 <= i < |s| ensures IsSpace(s[i]) {
        if i < a { assert s[..a][i] == s[i]; } else { assert s[a..][i - a] == s[i]; }
      }
    } else {
      var r := Trim(s);
      assert r[0] == s[a];
    }
  }

  /** Trimming a trimmed string changes nothing. */
  lemma TrimIdempotent(s: string)
    ensures Trim(Trim(s)) == Trim(s)
  {
    var r := Trim(s);
    assert r == [] || (!IsSpace(r[0]) && TrimStart(r) == r);
  }
}
