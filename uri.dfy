/**
 * URI references as RFC 3986 describes them: the five components (section 3),
 * parsing by the regular expression of Appendix B, recomposition (section 5.3),
 * path merging (section 5.2.3), dot-segment removal (section 5.2.4) and strict
 * reference resolution (section 5.2.2); then the two rules the extractor adds:
 * the query and fragment are dropped, and only http(s) URLs on the origin host
 * are kept.
 */
module Uri {
  import opened Wrappers
  import opened Text

  datatype Reference = Reference(
    scheme: Option<string>,
    authority: Option<string>,
    path: string,
    query: Option<string>,
    fragment: Option<string>)

  const SchemeStop: set<char> := {':', '/', '?', '#'}
  const AuthorityStop: set<char> := {'/', '?', '#'}
  const PathStop: set<char> := {'?', '#'}
  const QueryStop: set<char> := {'#'}

  /** Find on a concatenation: the first stop of a, or |a| plus the first stop of b. */
  lemma FindConcat(a: string, b: string, stop: set<char>)
    ensures Find(a + b, stop) == if Find(a, stop) < |a| then Find(a, stop) else |a| + Find(b, stop)
  {
    if a == [] {
      assert a + b == b;
    } else {
      assert (a + b)[0] == a[0];
      assert (a + b)[1..] == a[1..] + b;
      FindConcat(a[1..], b, stop);
    }
  }

  // ---------------------------------------------------------------------------
  // Parsing (Appendix B): ^(([^:/?#]+):)?(//([^/?#]*))?([^?#]*)(\?([^#]*))?(#(.*))?

  /** The position of the scheme's ':' when s starts with a scheme. */
  predicate HasScheme(s: string) {
    var i := Find(s, SchemeStop);
    0 < i < |s| && s[i] == ':'
  }

  function SplitScheme(s: string): (Option<string>, string) {
    var i := Find(s, SchemeStop);
    if HasScheme(s) then (Some(s[..i]), s[i + 1..]) else (None, s)
  }

  function SplitAuthority(s: string): (Option<string>, string) {
    if StartsWith(s, "//") then
      var j := Find(s[2..], AuthorityStop);
      (Some(s[2..][..j]), s[2..][j..])
    else (None, s)
  }

  function SplitPath(s: string): (string, string) {
    var k := Find(s, PathStop);
    (s[..k], s[k..])
  }

  function SplitQuery(s: string): (Option<string>, string) {
    if |s| > 0 && s[0] == '?' then
      var m := Find(s[1..], QueryStop);
      (Some(s[1..][..m]), s[1..][m..])
    else (None, s)
  }

  function SplitFragment(s: string): Option<string> {
    if |s| > 0 then Some(s[1..]) else None
  }

  /** Splits any string into the five components; no input is rejected. */
  function Parse(s: string): Reference {
    var a := SplitScheme(s);
    var b := SplitAuthority(a.1);
    var c := SplitPath(b.1);
    var d := SplitQuery(c.1);
    Reference(a.0, b.0, c.0, d.0, SplitFragment(d.1))
  }

  function OptPrefix(o: Option<string>, before: string, after: string): string {
    if o.Some? then before + o.value + after else ""
  }

  /** Section 5.3: the components joined back together with their delimiters. */
  function Recompose(r: Reference): string {
    OptPrefix(r.scheme, "", ":") + (OptPrefix(r.authority, "//", "") + (r.path
      + (OptPrefix(r.query, "?", "") + OptPrefix(r.fragment, "#", ""))))
  }

  lemma SplitSchemeJoin(s: string)
    ensures OptPrefix(SplitScheme(s).0, "", ":") + SplitScheme(s).1 == s
  {
    if HasScheme(s) {
      var i := Find(s, SchemeStop);
      AppendNil(s[..i]);
      Assoc(s[..i], [s[i]], s[i + 1..]);
      assert [s[i]] + s[i + 1..] == s[i..];
      TakeDrop(s, i);
    }
  }

  lemma SplitAuthorityJoin(s: string)
    ensures OptPrefix(SplitAuthority(s).0, "//", "") + SplitAuthority(s).1 == s
  {
    if StartsWith(s, "//") {
      var u := s[2..];
      var j := Find(u, AuthorityStop);
      AppendNil("//" + u[..j]);
      Assoc("//", u[..j], u[j..]);
      TakeDrop(u, j);
      TakeDrop(s, 2);
    }
  }

  lemma SplitPathJoin(s: string)
    ensures SplitPath(s).0 + SplitPath(s).1 == s
  {
    var k := Find(s, PathStop);
    assert s == s[..k] + s[k..];
  }

  lemma SplitQueryJoin(s: string)
    ensures OptPrefix(SplitQuery(s).0, "?", "") + SplitQuery(s).1 == s
  {
    if |s| > 0 && s[0] == '?' {
      var m := Find(s[1..], QueryStop);
      assert s[1..] == s[1..][..m] + s[1..][m..];
      assert s == [s[0]] + s[1..];
    }
  }

  /** Every string is the recomposition of its own parse. */
  lemma RecomposeParse(s: string)
    ensures Recompose(Parse(s)) == s
  {
    var a := SplitScheme(s);
    var b := SplitAuthority(a.1);
    var c := SplitPath(b.1);
    var d := SplitQuery(c.1);
    var r := Reference(a.0, b.0, c.0, d.0, SplitFragment(d.1));
    assert Parse(s) == r;
    var f := OptPrefix(SplitFragment(d.1), "#", "");
    assert f == d.1 by {
      if |d.1| > 0 { assert d.1 == [d.1[0]] + d.1[1..]; }
    }
    var t4 := OptPrefix(d.0, "?", "") + f;
    assert t4 == c.1 by { SplitQueryJoin(c.1); }
    var t3 := c.0 + t4;
    assert t3 == b.1 by { SplitPathJoin(b.1); }
    var t2 := OptPrefix(b.0, "//", "") + t3;
    assert t2 == a.1 by { SplitAuthorityJoin(a.1); }
    assert OptPrefix(a.0, "", ":") + t2 == s by { SplitSchemeJoin(s); }
  }

  /** A path that, with no scheme and no authority in front of it, would not be read as a scheme. */
  predicate NoSchemeLook(path: string) {
    !HasScheme(path)
  }

  /** The component constraints under which recomposition is undone by parsing. */
  predicate WellFormed(r: Reference) {
    && (r.scheme.Some? ==> |r.scheme.value| > 0 && NoneIn(r.scheme.value, SchemeStop))
    && (r.authority.Some? ==> NoneIn(r.authority.value, AuthorityStop) && (r.path == [] || r.path[0] == '/'))
    && (r.authority.None? ==> !StartsWith(r.path, "//"))
    && (r.scheme.None? && r.authority.None? ==> NoSchemeLook(r.path))
    && NoneIn(r.path, PathStop)
    && (r.query.Some? ==> NoneIn(r.query.value, QueryStop))
  }

  /** What follows the scheme, the authority and the path in a recomposition. */
  function AfterPath(r: Reference): string {
    OptPrefix(r.query, "?", "") + OptPrefix(r.fragment, "#", "")
  }

  function AfterAuthority(r: Reference): string {
    r.path + AfterPath(r)
  }

  function AfterScheme(r: Reference): string {
    OptPrefix(r.authority, "//", "") + AfterAuthority(r)
  }

  lemma AfterPathStarts(r: Reference)
    ensures AfterPath(r) == [] || AfterPath(r)[0] in PathStop
  {
  }

  lemma SplitSchemeOf(r: Reference)
    requires WellFormed(r)
    ensures SplitScheme(Recompose(r)) == (r.scheme, AfterScheme(r))
  {
    var s := Recompose(r);
    var rest := AfterScheme(r);
    assert s == OptPrefix(r.scheme, "", ":") + rest;
    if r.scheme.Some? {
      SchemePresent(r.scheme.value, rest);
    } else if r.authority.Some? {
      assert s == rest;
      assert s[0] == '/' && '/' in SchemeStop;
      assert Find(s, SchemeStop) == 0;
    } else {
      AfterPathStarts(r);
      AppendNil(AfterAuthority(r));
      assert s == r.path + AfterPath(r);
      SchemeAbsent(r.path, AfterPath(r));
    }
  }

  /** A scheme followed by ':' is split off again. */
  lemma SchemePresent(sc: string, rest: string)
    requires |sc| > 0 && NoneIn(sc, SchemeStop)
    ensures SplitScheme(OptPrefix(Some(sc), "", ":") + rest) == (Some(sc), rest)
  {
    var t := ":" + rest;
    var s := sc + t;
    AppendNil(sc);
    Assoc(sc, ":", rest);
    assert OptPrefix(Some(sc), "", ":") + rest == s;
    FindAppend(sc, t, SchemeStop);
    TakeAppend(sc, t, |sc|);
    assert sc[..|sc|] == sc;
    DropPrefix(sc, t, 1);
    DropPrefix(":", rest, 0);
    assert s[|sc|] == t[0];
  }

  /** A path that does not look like a scheme, followed by a query or fragment part, is no scheme. */
  lemma SchemeAbsent(path: string, tail: string)
    requires NoSchemeLook(path)
    requires tail == [] || tail[0] in PathStop
    ensures SplitScheme(path + tail) == (None, path + tail)
  {
    var s := path + tail;
    assert tail != [] ==> tail[0] in SchemeStop;
    assert Find(tail, SchemeStop) == 0;
    FindConcat(path, tail, SchemeStop);
    var i := Find(path, SchemeStop);
    assert i < |path| ==> s[i] == path[i];
    assert tail != [] ==> s[|path|] == tail[0];
  }

  lemma SplitAuthorityOf(r: Reference)
    requires WellFormed(r)
    ensures SplitAuthority(AfterScheme(r)) == (r.authority, AfterAuthority(r))
  {
    if r.authority.Some? {
      SplitAuthorityPresent(r);
    } else {
      SplitAuthorityAbsent(r);
    }
  }

  lemma SplitAuthorityPresent(r: Reference)
    requires WellFormed(r) && r.authority.Some?
    ensures SplitAuthority(AfterScheme(r)) == (r.authority, AfterAuthority(r))
  {
    var s := AfterScheme(r);
    var rest := AfterAuthority(r);
    var a := r.authority.value;
    AfterPathStarts(r);
    assert s == "//" + (a + rest);
    assert s[2..] == a + rest;
    assert rest == [] || rest[0] in AuthorityStop;
    FindAppend(a, rest, AuthorityStop);
    assert (a + rest)[..|a|] == a;
    assert (a + rest)[|a|..] == rest;
  }

  lemma SplitAuthorityAbsent(r: Reference)
    requires WellFormed(r) && r.authority.None?
    ensures SplitAuthority(AfterScheme(r)) == (None, AfterAuthority(r))
  {
    var s := AfterScheme(r);
    var tail := AfterPath(r);
    AfterPathStarts(r);
    assert s == r.path + tail;
    assert !StartsWith(s, "//") by {
      if |r.path| < 2 && |s| >= 2 {
        assert s[|r.path|] == tail[0];
      }
      if |r.path| >= 2 {
        assert s[..2] == r.path[..2];
      }
    }
  }

  lemma SplitPathOf(r: Reference)
    requires WellFormed(r)
    ensures SplitPath(AfterAuthority(r)) == (r.path, AfterPath(r))
  {
    var s := AfterAuthority(r);
    AfterPathStarts(r);
    FindAppend(r.path, AfterPath(r), PathStop);
    assert s[..|r.path|] == r.path;
    assert s[|r.path|..] == AfterPath(r);
  }

  lemma SplitQueryOf(r: Reference)
    requires WellFormed(r)
    ensures SplitQuery(AfterPath(r)) == (r.query, OptPrefix(r.fragment, "#", ""))
  {
    var fs := OptPrefix(r.fragment, "#", "");
    assert r.query.None? ==> AfterPath(r) == fs;
    if r.query.Some? {
      var q := r.query.value;
      var s := AfterPath(r);
      assert s == "?" + (q + fs);
      assert s[1..] == q + fs;
      FindAppend(q, fs, QueryStop);
      assert (q + fs)[..|q|] == q;
      assert (q + fs)[|q|..] == fs;
    }
  }

  lemma SplitFragmentOf(f: Option<string>)
    ensures SplitFragment(OptPrefix(f, "#", "")) == f
  {
    if f.Some? {
      var v := f.value;
      Assoc("#", v, "");
      assert v + "" == v;
      assert ("#" + v)[1..] == v;
    }
  }

  /** Parsing undoes recomposition of well-formed components. */
  lemma ParseRecompose(r: Reference)
    requires WellFormed(r)
    ensures Parse(Recompose(r)) == r
  {
    var a := SplitScheme(Recompose(r));
    assert a == (r.scheme, AfterScheme(r)) by { SplitSchemeOf(r); }
    var b := SplitAuthority(a.1);
    assert b == (r.authority, AfterAuthority(r)) by { SplitAuthorityOf(r); }
    var c := SplitPath(b.1);
    assert c == (r.path, AfterPath(r)) by { SplitPathOf(r); }
    var d := SplitQuery(c.1);
    var fs := OptPrefix(r.fragment, "#", "");
    assert d == (r.query, fs) by { SplitQueryOf(r); }
    SplitFragmentOf(r.fragment);
    assert Parse(Recompose(r)) == Reference(a.0, b.0, c.0, d.0, SplitFragment(d.1));
  }

  // ---------------------------------------------------------------------------
  // Path merging (section 5.2.3)

  /** s up to and including its last '/', or "" when it has none. */
  function Directory(s: string): (r: string)
    ensures |r| <= |s| && r == s[..|r|]
    ensures r == [] || r[|r| - 1] == '/'
    ensures NoneIn(s[|r|..], {'/'})
  {
    if s == [] then []
    else if s[|s| - 1] == '/' then s
    else
      var d := Directory(s[..|s| - 1]);
      assert s[|d|..] == s[..|s| - 1][|d|..] + [s[|s| - 1]];
      d
  }

  /** The directory of a path that starts with '/' starts with it too. */
  lemma {:induction false} DirectoryRooted(s: string)
    requires s != [] && s[0] == '/'
    ensures Directory(s) != [] && Directory(s)[0] == '/'
    decreases |s|
  {
    if s[|s| - 1] != '/' {
      DirectoryRooted(s[..|s| - 1]);
    }
  }

  lemma DirectoryOf(a: string, b: string)
    requires NoneIn(b, {'/'})
    ensures Directory(a + "/" + b) == a + "/"
    decreases |b|
  {
    if b != [] {
      assert (a + "/" + b)[..|a + "/" + b| - 1] == a + "/" + b[..|b| - 1];
      DirectoryOf(a, b[..|b| - 1]);
    } else {
      assert a + "/" + b == a + "/";
    }
  }

  function Merge(base: Reference, path: string): string {
    if base.authority.Some? && base.path == [] then "/" + path
    else Directory(base.path) + path
  }

  // ---------------------------------------------------------------------------
  // Removing dot segments (section 5.2.4)

  /** Where the first segment of a non-empty input ends: its leading '/' (if any) and up to the next '/'. */
  function SegmentEnd(s: string): (n: nat)
    requires s != []
    ensures 1 <= n <= |s|
    ensures n < |s| ==> s[n] == '/'
  {
    if s[0] == '/' then 1 + Find(s[1..], {'/'}) else Find(s, {'/'})
  }

  /** The text of the first segment, without its leading '/'. */
  function SegmentText(s: string): string
    requires s != []
  {
    var n := SegmentEnd(s);
    if s[0] == '/' then s[1..n] else s[..n]
  }

  /** The output buffer without its last segment and that segment's leading '/'. */
  function RemoveLastSegment(s: string): (r: string)
    ensures |r| <= |s| && r == s[..|r|]
  {
    var d := Directory(s);
    if d == [] then [] else d[..|d| - 1]
  }

  /** One pass of the loop of section 5.2.4 (steps A to E): the new input and output buffers. */
  function Step(input: string, output: string): (r: (string, string))
    requires input != []
    ensures |r.0| < |input|
  {
    if StartsWith(input, "../") then (input[3..], output)
    else if StartsWith(input, "./") then (input[2..], output)
    else if StartsWith(input, "/./") then (input[2..], output)
    else if input == "/." then ("/", output)
    else if StartsWith(input, "/../") then (input[3..], RemoveLastSegment(output))
    else if input == "/.." then ("/", RemoveLastSegment(output))
    else if input == "." || input == ".." then ([], output)
    else
      var n := SegmentEnd(input);
      (input[n..], output + input[..n])
  }

  /** The loop of section 5.2.4: passes until the input buffer is empty, then the output buffer. */
  function RemoveDots(input: string, output: string): string
    decreases |input|
  {
    if input == [] then output
    else
      var next := Step(input, output);
      RemoveDots(next.0, next.1)
  }

  function RemoveDotSegments(path: string): string {
    RemoveDots(path, "")
  }

  /** No segment of p is "." or "..". */
  predicate DotFree(p: string)
    decreases |p|
  {
    p == [] || (SegmentText(p) != "." && SegmentText(p) != ".." && DotFree(p[SegmentEnd(p)..]))
  }

  /** The prefixes that steps A to D look for all begin with a dot segment. */
  lemma DotPrefixes(p: string)
    requires p != []
    ensures StartsWith(p, "../") || p == ".." || StartsWith(p, "/../") || p == "/.." ==> SegmentText(p) == ".."
    ensures StartsWith(p, "./") || p == "." || StartsWith(p, "/./") || p == "/." ==> SegmentText(p) == "."
  {
    if StartsWith(p, "../") || p == ".." {
      BareDotSegment(p, "..");
    } else if StartsWith(p, "./") || p == "." {
      BareDotSegment(p, ".");
    } else if StartsWith(p, "/../") || p == "/.." {
      SlashDotSegment(p, "..");
    } else if StartsWith(p, "/./") || p == "/." {
      SlashDotSegment(p, ".");
    }
  }

  lemma BareDotSegment(p: string, d: string)
    requires d == "." || d == ".."
    requires p == d || StartsWith(p, d + "/")
    ensures p != [] && SegmentText(p) == d
  {
    DotSegmentAt(p, d);
    assert p[0] == d[0] == '.';
  }

  lemma SlashDotSegment(p: string, d: string)
    requires d == "." || d == ".."
    requires p == "/" + d || StartsWith(p, "/" + d + "/")
    ensures p != [] && SegmentText(p) == d
  {
    var q := p[1..];
    assert p[0] == '/';
    if p == "/" + d {
      assert q == d;
    } else {
      assert p[..|d| + 2] == "/" + d + "/";
      assert q[..|d| + 1] == p[1..|d| + 2];
      assert p[1..|d| + 2] == d + "/";
    }
    DotSegmentAt(q, d);
    assert SegmentEnd(p) == 1 + |d|;
  }

  /** When p begins with the dots d followed by '/' or by nothing, its first '/' is at |d|. */
  lemma DotSegmentAt(p: string, d: string)
    requires d == "." || d == ".."
    requires p == d || StartsWith(p, d + "/")
    ensures Find(p, {'/'}) == |d| && p[..|d|] == d
  {
    if p == d {
      assert p == d + [];
      FindAppend(d, [], {'/'});
    } else {
      assert p[..|d| + 1] == d + "/";
      assert p[..|d|] == d;
      assert p == d + p[|d|..];
      FindAppend(d, p[|d|..], {'/'});
    }
  }

  /** The first segment of a + b is that of a, when b starts a new segment. */
  lemma SegmentOfConcat(a: string, b: string)
    requires a != []
    requires b == [] || b[0] == '/'
    ensures SegmentEnd(a + b) == SegmentEnd(a)
    ensures SegmentText(a + b) == SegmentText(a)
    ensures (a + b)[SegmentEnd(a)..] == a[SegmentEnd(a)..] + b
  {
    var s := a + b;
    assert Find(b, {'/'}) == 0;
    assert s[0] == a[0];
    if a[0] == '/' {
      DropAppend(a, b, 1);
      FindConcat(a[1..], b, {'/'});
    } else {
      FindConcat(a, b, {'/'});
    }
    var n := SegmentEnd(a);
    assert SegmentEnd(s) == n;
    TakeAppend(a, b, n);
    SliceAppend(a, b, 1, n);
    DropAppend(a, b, n);
  }

  /** Steps A and D of the algorithm never apply to a slash-led input. */
  lemma SlashLedSteps(input: string)
    requires input != [] && input[0] == '/'
    ensures !StartsWith(input, "../") && !StartsWith(input, "./") && input != "." && input != ".."
  {
    assert |input| >= 3 ==> input[..3][0] == '/';
    assert |input| >= 2 ==> input[..2][0] == '/';
  }

  /** A plain first segment is moved, with its leading '/', to the output (step E). */
  lemma StepPlain(input: string, output: string)
    requires input != [] && SegmentText(input) != "." && SegmentText(input) != ".."
    ensures Step(input, output) == (input[SegmentEnd(input)..], output + input[..SegmentEnd(input)])
  {
    DotPrefixes(input);
  }

  /** A dot-free prefix ending where b begins a new segment is copied to the output unchanged. */
  lemma {:induction false} RemoveDotsPrefix(a: string, b: string, out: string)
    requires DotFree(a)
    requires b == [] || b[0] == '/'
    ensures RemoveDots(a + b, out) == RemoveDots(b, out + a)
    decreases |a|
  {
    if a == [] {
      assert a + b == b && out + a == out;
    } else {
      var s := a + b;
      var n := SegmentEnd(a);
      SegmentOfConcat(a, b);
      StepPlain(s, out);
      TakeAppend(a, b, n);
      var rest, done := a[n..] + b, out + a[..n];
      assert Step(s, out) == (rest, done);
      RemoveDotsPrefix(a[n..], b, done);
      assert done + a[n..] == out + a by {
        Assoc(out, a[..n], a[n..]);
        TakeDrop(a, n);
      }
      calc {
        RemoveDots(s, out);
        RemoveDots(rest, done);
        RemoveDots(b, done + a[n..]);
        RemoveDots(b, out + a);
      }
    }
  }

  /** Section 5.2.4 leaves a path without dot segments as it is. */
  lemma RemoveDotSegmentsDotFree(p: string)
    requires DotFree(p)
    ensures RemoveDotSegments(p) == p
  {
    RemoveDotsPrefix(p, [], "");
    assert p + [] == p;
  }

  /** Step C: "/.." removes the last output segment. */
  lemma RemoveDotsParent(b: string, out: string)
    requires b == [] || b[0] == '/'
    ensures RemoveDots("/.." + b, out) == RemoveDots(if b == [] then "/" else b, RemoveLastSegment(out))
  {
    var s := "/.." + b;
    SlashLedSteps(s);
    if b != [] {
      assert s[..4] == "/../";
      assert s[3..] == b;
    } else {
      assert s == "/..";
    }
    assert Step(s, out) == (if b == [] then "/" else b, RemoveLastSegment(out));
  }

  /** Step B: "/." is dropped. */
  lemma RemoveDotsCurrent(b: string, out: string)
    requires b == [] || b[0] == '/'
    ensures RemoveDots("/." + b, out) == RemoveDots(if b == [] then "/" else b, out)
  {
    var s := "/." + b;
    SlashLedSteps(s);
    if b != [] {
      assert s[..3] == "/./";
      assert s[2..] == b;
    } else {
      assert s == "/.";
    }
    assert Step(s, out) == (if b == [] then "/" else b, out);
  }

  /** Dot-freeness splits at a segment boundary. */
  lemma {:induction false} DotFreeConcat(a: string, b: string)
    requires b == [] || b[0] == '/'
    ensures DotFree(a + b) <==> DotFree(a) && DotFree(b)
    decreases |a|
  {
    if a == [] {
      assert a + b == b;
    } else {
      var n := SegmentEnd(a);
      SegmentOfConcat(a, b);
      DotFreeConcat(a[n..], b);
    }
  }

  /** A single plain segment after a '/' is dot-free. */
  lemma DotFreeSegment(seg: string)
    requires NoneIn(seg, {'/'}) && seg != "." && seg != ".."
    ensures DotFree("/" + seg)
  {
    var s := "/" + seg;
    assert s[1..] == seg + [];
    FindAppend(seg, [], {'/'});
    assert s[1..1 + |seg|] == seg;
    assert s[1 + |seg|..] == [];
  }

  /** The converse of DotPrefixes: a dot first segment is one of the prefixes steps A to D handle. */
  lemma DotSegmentForms(p: string)
    requires p != []
    ensures SegmentText(p) == ".." ==> StartsWith(p, "../") || p == ".." || StartsWith(p, "/../") || p == "/.."
    ensures SegmentText(p) == "." ==> StartsWith(p, "./") || p == "." || StartsWith(p, "/./") || p == "/."
  {
    var n := SegmentEnd(p);
    if p[0] == '/' {
      if SegmentText(p) == ".." {
        assert p[..3] == "/..";
        if n < |p| { assert p[..4] == "/../"; } else { assert p == "/.."; }
      }
      if SegmentText(p) == "." {
        assert p[..2] == "/.";
        if n < |p| { assert p[..3] == "/./"; } else { assert p == "/."; }
      }
    } else {
      if SegmentText(p) == ".." {
        if n < |p| { assert p[..3] == "../"; } else { assert p == ".."; }
      }
      if SegmentText(p) == "." {
        if n < |p| { assert p[..2] == "./"; } else { assert p == "."; }
      }
    }
  }

  /** Step E moves a plain first segment to the output and keeps the output dot-free. */
  lemma AppendSegmentDotFree(input: string, out: string)
    requires input != [] && SegmentText(input) != "." && SegmentText(input) != ".."
    requires DotFree(out)
    requires out == [] || input[0] == '/'
    ensures DotFree(out + input[..SegmentEnd(input)])
    ensures input[SegmentEnd(input)..] == [] || input[SegmentEnd(input)..][0] == '/'
  {
    var n := SegmentEnd(input);
    var piece, rest := input[..n], input[n..];
    TakeDrop(input, n);
    SegmentOfConcat(piece, rest);
    assert piece[n..] == [];
    assert DotFree(piece);
    if out != [] {
      assert piece[0] == input[0];
      DotFreeConcat(out, piece);
    }
  }

  /** One pass keeps the output dot-free, and leaves an input that starts a new segment. */
  lemma StepDotFree(input: string, out: string)
    requires input != [] && DotFree(out)
    requires out == [] || input[0] == '/'
    ensures DotFree(Step(input, out).1)
    ensures var r := Step(input, out); r.1 == [] || r.0 == [] || r.0[0] == '/'
  {
    if input[0] == '/' {
      SlashLedSteps(input);
    }
    var r := Step(input, out);
    if StartsWith(input, "../") || StartsWith(input, "./") {
      assert r.1 == out;
    } else if StartsWith(input, "/./") {
      assert input[2..][0] == input[..3][2];
      assert r == (input[2..], out);
    } else if input == "/." {
      assert r == ("/", out);
    } else if StartsWith(input, "/../") {
      RemoveLastSegmentDotFree(out);
      assert input[3..][0] == input[..4][3];
      assert r == (input[3..], RemoveLastSegment(out));
    } else if input == "/.." {
      RemoveLastSegmentDotFree(out);
      assert r == ("/", RemoveLastSegment(out));
    } else if input == "." || input == ".." {
      assert r == ([], out);
    } else {
      var n := SegmentEnd(input);
      DotSegmentForms(input);
      AppendSegmentDotFree(input, out);
      assert r == (input[n..], out + input[..n]);
    }
  }

  /** The output of the loop never contains a dot segment. */
  lemma {:induction false} RemoveDotsIsDotFree(input: string, out: string)
    requires DotFree(out)
    requires out == [] || input == [] || input[0] == '/'
    ensures DotFree(RemoveDots(input, out))
    decreases |input|
  {
    if input != [] {
      var next := Step(input, out);
      StepDotFree(input, out);
      RemoveDotsIsDotFree(next.0, next.1);
    }
  }

  lemma RemoveLastSegmentDotFree(s: string)
    requires DotFree(s)
    ensures DotFree(RemoveLastSegment(s))
  {
    var d := Directory(s);
    if d != [] {
      var k := |d| - 1;
      assert RemoveLastSegment(s) == s[..k];
      assert s[k..][0] == d[k];
      TakeDrop(s, k);
      DotFreeConcat(s[..k], s[k..]);
    }
  }

  /** The result of section 5.2.4 has no dot segments. */
  lemma RemoveDotSegmentsIsDotFree(p: string)
    ensures DotFree(RemoveDotSegments(p))
  {
    RemoveDotsIsDotFree(p, []);
  }

  /** Removing dot segments twice is removing them once. */
  lemma RemoveDotSegmentsIdempotent(p: string)
    ensures RemoveDotSegments(RemoveDotSegments(p)) == RemoveDotSegments(p)
  {
    RemoveDotSegmentsIsDotFree(p);
    RemoveDotSegmentsDotFree(RemoveDotSegments(p));
  }

  // ---------------------------------------------------------------------------
  // Reference resolution (section 5.2.2, strict)

  function Resolve(base: Reference, r: Reference): Reference {
    if r.scheme.Some? then
      Reference(r.scheme, r.authority, RemoveDotSegments(r.path), r.query, r.fragment)
    else if r.authority.Some? then
      Reference(base.scheme, r.authority, RemoveDotSegments(r.path), r.query, r.fragment)
    else if r.path == [] then
      Reference(base.scheme, base.authority, base.path, if r.query.Some? then r.query else base.query, r.fragment)
    else if r.path[0] == '/' then
      Reference(base.scheme, base.authority, RemoveDotSegments(r.path), r.query, r.fragment)
    else
      Reference(base.scheme, base.authority, RemoveDotSegments(Merge(base, r.path)), r.query, r.fragment)
  }

  /** Resolution against a dot-free base never yields a path with dot segments. */
  lemma ResolveDotFree(base: Reference, r: Reference)
    requires DotFree(base.path)
    ensures DotFree(Resolve(base, r).path)
  {
    if r.scheme.Some? || r.authority.Some? || (r.path != [] && r.path[0] == '/') {
      RemoveDotSegmentsIsDotFree(r.path);
    } else if r.path != [] {
      RemoveDotSegmentsIsDotFree(Merge(base, r.path));
    }
  }

  /** A resolved reference resolves to itself again: resolution is idempotent over an absolute base. */
  lemma ResolveIdempotent(base: Reference, r: Reference)
    requires base.scheme.Some? && DotFree(base.path)
    ensures Resolve(base, Resolve(base, r)) == Resolve(base, r)
  {
    var t := Resolve(base, r);
    ResolveDotFree(base, r);
    RemoveDotSegmentsDotFree(t.path);
  }

  // ---------------------------------------------------------------------------
  // The extractor's rules on top of RFC 3986

  /** Crawl identity: the query and the fragment are dropped. */
  function StripQueryFragment(r: Reference): Reference {
    r.(query := None, fragment := None)
  }

  /** Cutting at the first stop passes over a stop-free prefix. */
  lemma CutConcat(a: string, b: string, stop: set<char>)
    requires NoneIn(a, stop)
    ensures (a + b)[..Find(a + b, stop)] == a + b[..Find(b, stop)]
  {
    FindConcat(a, b, stop);
    if a != [] {
      assert Find(a, stop) == |a|;
    }
    assert (a + b)[..|a| + Find(b, stop)] == a + b[..Find(b, stop)];
  }

  lemma SchemePartClean(s: string)
    ensures NoneIn(OptPrefix(SplitScheme(s).0, "", ":"), PathStop)
  {
    if HasScheme(s) {
      var i := Find(s, SchemeStop);
      var p1 := OptPrefix(SplitScheme(s).0, "", ":");
      assert p1 == s[..i] + ":";
      assert forall k :: 0 <= k < i ==> p1[k] == s[k];
    }
  }

  lemma AuthorityPartClean(s: string)
    ensures NoneIn(OptPrefix(SplitAuthority(s).0, "//", ""), PathStop)
  {
    if StartsWith(s, "//") {
      var j := Find(s[2..], AuthorityStop);
      var p2 := OptPrefix(SplitAuthority(s).0, "//", "");
      assert p2 == "//" + s[2..][..j];
      assert forall k :: 2 <= k < |p2| ==> p2[k] == s[2..][k - 2];
    }
  }

  /** The stripped URL is the input up to its first '?' or '#'. */
  lemma StripQueryFragmentPrefix(s: string)
    ensures Recompose(StripQueryFragment(Parse(s))) == s[..Find(s, PathStop)]
  {
    var a := SplitScheme(s);
    var b := SplitAuthority(a.1);
    var c := SplitPath(b.1);
    var d := SplitQuery(c.1);
    var p1 := OptPrefix(a.0, "", ":");
    var p2 := OptPrefix(b.0, "//", "");
    assert Parse(s) == Reference(a.0, b.0, c.0, d.0, SplitFragment(d.1));
    assert Recompose(StripQueryFragment(Parse(s))) == p1 + (p2 + c.0) by {
      assert Recompose(Reference(a.0, b.0, c.0, None, None)) == p1 + (p2 + (c.0 + ("" + "")));
      assert c.0 + ("" + "") == c.0;
    }
    var cut := b.1[..Find(b.1, PathStop)];
    assert cut == c.0;
    assert a.1[..Find(a.1, PathStop)] == p2 + cut by {
      SplitAuthorityJoin(a.1);
      AuthorityPartClean(a.1);
      CutConcat(p2, b.1, PathStop);
    }
    assert s[..Find(s, PathStop)] == p1 + (p2 + cut) by {
      SplitSchemeJoin(s);
      SchemePartClean(s);
      CutConcat(p1, a.1, PathStop);
    }
  }

  /** Local means fetchable over http(s) from the origin host. */
  predicate IsLocal(r: Reference, originHost: string) {
    (r.scheme == Some("http") || r.scheme == Some("https")) && r.authority == Some(originHost)
  }
}
