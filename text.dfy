/** Optional values, as returned by a lookup that may find nothing. */
module Wrappers {
  datatype Option<+T> = None | Some(value: T)
}

/**
 * Character classes and the small string scans shared by the URL parser and
 * the markup scanners. Every scan returns an index, so that callers can slice
 * the input, and each comes with a lemma saying what it yields on a
 * concatenation: that is what lets the concrete cases be proved piece by piece.
 */
module Text {

  /** ASCII whitespace as HTML and CSS know it: space, tab, LF, FF, CR. */
  predicate IsWs(c: char) {
    c == ' ' || c == '\t' || c == '\n' || c == '\r' || c == '\U{000C}'
  }

  predicate IsAlpha(c: char) {
    ('a' <= c <= 'z') || ('A' <= c <= 'Z')
  }

  predicate IsQuote(c: char) {
    c == '"' || c == '\''
  }

  /** ASCII lower-casing; every other character is left alone. */
  function LowerChar(c: char): (r: char)
    ensures 'A' <= c <= 'Z' ==> 'a' <= r <= 'z'
    ensures !('A' <= c <= 'Z') ==> r == c
  {
    if 'A' <= c <= 'Z' then (c as int - 'A' as int + 'a' as int) as char else c
  }

  function Lower(s: string): (r: string)
    ensures |r| == |s|
    ensures forall i :: 0 <= i < |s| ==> r[i] == LowerChar(s[i])
  {
    seq(|s|, i requires 0 <= i < |s| => LowerChar(s[i]))
  }

  lemma LowerAppend(a: string, b: string)
    ensures Lower(a + b) == Lower(a) + Lower(b)
  {
  }

  /** Concatenation regrouped; proofs about rendered text and found references chain instances of it. */
  lemma Assoc<T>(a: seq<T>, b: seq<T>, c: seq<T>)
    ensures a + (b + c) == a + b + c
  {
  }

  /** A sequence is its prefix followed by the rest. */
  lemma TakeDrop<T>(s: seq<T>, n: nat)
    requires n <= |s|
    ensures s[..n] + s[n..] == s
  {
  }

  lemma DropDrop<T>(s: seq<T>, i: nat, m: nat)
    requires i + m <= |s|
    ensures s[i..][m..] == s[i + m..]
  {
  }

  lemma AppendNil<T>(a: seq<T>)
    ensures a + [] == a && [] + a == a
  {
  }

  /** The suffix of a concatenation that starts inside its second part. */
  lemma DropPrefix<T>(a: seq<T>, b: seq<T>, n: nat)
    requires n <= |b|
    ensures (a + b)[|a| + n..] == b[n..]
  {
  }

  /** The slices of a concatenation that fall inside its first part. */
  lemma TakeAppend<T>(a: seq<T>, b: seq<T>, n: nat)
    requires n <= |a|
    ensures (a + b)[..n] == a[..n]
  {
  }

  lemma DropAppend<T>(a: seq<T>, b: seq<T>, n: nat)
    requires n <= |a|
    ensures (a + b)[n..] == a[n..] + b
  {
  }

  lemma SliceAppend<T>(a: seq<T>, b: seq<T>, i: nat, j: nat)
    requires i <= j <= |a|
    ensures (a + b)[i..j] == a[i..j]
  {
  }

  /** Dropping the last element of a concatenation drops it from the second part. */
  lemma DropLastAppend<T>(a: seq<T>, b: seq<T>)
    requires b != []
    ensures (a + b)[..|a + b| - 1] == a + b[..|b| - 1]
  {
  }

  predicate AllWs(s: string) {
    forall i :: 0 <= i < |s| ==> IsWs(s[i])
  }

  /** s begins with p. */
  predicate StartsWith(s: string, p: string) {
    |p| <= |s| && s[..|p|] == p
  }

  /** s begins with p up to ASCII case; p is given in lower case. */
  predicate StartsWithCI(s: string, p: string) {
    |p| <= |s| && Lower(s[..|p|]) == p
  }

  /** No character of a belongs to stop. */
  predicate NoneIn(a: string, stop: set<char>) {
    forall i :: 0 <= i < |a| ==> a[i] !in stop
  }

  /** The index of the first character of s in stop, or |s| if there is none. */
  function Find(s: string, stop: set<char>): (r: nat)
    ensures r <= |s|
    ensures forall i :: 0 <= i < r ==> s[i] !in stop
    ensures r < |s| ==> s[r] in stop
  {
    if s == [] then 0 else if s[0] in stop then 0 else 1 + Find(s[1..], stop)
  }

  /** Find stops exactly at the end of a stop-free prefix. */
  lemma FindAppend(a: string, b: string, stop: set<char>)
    requires NoneIn(a, stop)
    requires b == [] || b[0] in stop
    ensures Find(a + b, stop) == |a|
  {
    assert forall i :: 0 <= i < |a| ==> (a + b)[i] == a[i];
    assert b != [] ==> (a + b)[|a|] == b[0];
  }

  /** A string none of whose characters is one of the listed ones is stop-free. */
  lemma NoneInIntro(a: string, stop: set<char>)
    requires forall c :: c in stop ==> c !in a
    ensures NoneIn(a, stop)
  {
    forall i | 0 <= i < |a| ensures a[i] !in stop {
      assert a[i] in a;
    }
  }

  /** The index of the first non-whitespace character of s, or |s|. */
  function SkipWs(s: string): (r: nat)
    ensures r <= |s|
    ensures forall i :: 0 <= i < r ==> IsWs(s[i])
    ensures r < |s| ==> !IsWs(s[r])
  {
    if s == [] then 0 else if IsWs(s[0]) then 1 + SkipWs(s[1..]) else 0
  }

  lemma SkipWsAppend(a: string, b: string)
    requires AllWs(a)
    requires b == [] || !IsWs(b[0])
    ensures SkipWs(a + b) == |a|
  {
    assert forall i :: 0 <= i < |a| ==> (a + b)[i] == a[i];
    assert b != [] ==> (a + b)[|a|] == b[0];
  }

  /** The length of the longest whitespace suffix of s. */
  function WsSuffix(s: string): (r: nat)
    ensures r <= |s|
    ensures forall i :: |s| - r <= i < |s| ==> IsWs(s[i])
    ensures r < |s| ==> !IsWs(s[|s| - r - 1])
  {
    if s == [] then 0 else if IsWs(s[|s| - 1]) then 1 + WsSuffix(s[..|s| - 1]) else 0
  }

  /** s without its leading and trailing whitespace. */
  function Trim(s: string): (r: string)
    ensures r == [] || (!IsWs(r[0]) && !IsWs(r[|r| - 1]))
    ensures exists i, j :: 0 <= i <= j <= |s| && r == s[i..j] && AllWs(s[..i]) && AllWs(s[j..])
  {
    var i := SkipWs(s);
    var k := WsSuffix(s[i..]);
    TrimWindow(s, i, k);
    s[i..|s| - k]
  }

  /** The window between a whitespace prefix of s and a whitespace suffix of the rest. */
  lemma TrimWindow(s: string, i: nat, k: nat)
    requires i <= |s| && k <= |s| - i
    requires forall m :: 0 <= m < i ==> IsWs(s[m])
    requires i < |s| ==> !IsWs(s[i])
    requires forall m :: |s| - i - k <= m < |s| - i ==> IsWs(s[i..][m])
    requires k < |s| - i ==> !IsWs(s[i..][|s| - i - k - 1])
    ensures AllWs(s[..i]) && AllWs(s[|s| - k..])
    ensures s[i..|s| - k] == [] || (!IsWs(s[i]) && !IsWs(s[|s| - k - 1]))
  {
    assert AllWs(s[..i]) by {
      forall m | 0 <= m < i ensures IsWs(s[..i][m]) {
        assert s[..i][m] == s[m];
      }
    }
    var u, t := s[|s| - k..], s[i..];
    forall m | 0 <= m < |u| ensures IsWs(u[m]) {
      assert u[m] == t[|t| - k + m];
    }
    if i < |s| - k {
      assert s[|s| - k - 1] == t[|t| - k - 1];
    } else {
      assert |s[i..|s| - k]| == 0;
    }
  }

  lemma WsSuffixAppend(a: string, b: string)
    requires AllWs(b)
    requires a == [] || !IsWs(a[|a| - 1])
    ensures WsSuffix(a + b) == |b|
  {
    var s := a + b;
    assert forall i :: 0 <= i < |b| ==> s[|a| + i] == b[i];
    assert a != [] ==> s[|a| - 1] == a[|a| - 1];
  }

  /** Trimming removes exactly the whitespace around a value that has none at its ends. */
  lemma TrimPadded(a: string, v: string, b: string)
    requires AllWs(a) && AllWs(b)
    requires v == [] || (!IsWs(v[0]) && !IsWs(v[|v| - 1]))
    ensures Trim(a + v + b) == v
  {
    var s := a + v + b;
    if v == [] {
      assert AllWs(s) by {
        forall m | 0 <= m < |s| ensures IsWs(s[m]) {
          if m < |a| { assert s[m] == a[m]; } else { assert s[m] == b[m - |a|]; }
        }
      }
      assert SkipWs(s) == |s|;
    } else {
      assert s == a + (v + b);
      SkipWsAppend(a, v + b);
      assert s[|a|..] == v + b;
      WsSuffixAppend(v, b);
      assert (v + b)[..|v|] == v;
    }
  }
}
