/**
 * The URL extractor: the raw references of a body (HTML or CSS) are trimmed,
 * resolved against the URL of the page they were found on, stripped of query
 * and fragment, kept only when local to the origin host, and returned once
 * each in order of first discovery.
 */
module UrlExtractor {
  import opened Wrappers
  import opened Text
  import opened Uri
  import CssScanner
  import HtmlScanner

  datatype ContentType = Html | Css

  function RawReferences(kind: ContentType, body: string): seq<string> {
    match kind
    case Html => HtmlScanner.ScanHtml(body)
    case Css => CssScanner.ScanCss(body)
  }

  /** Where a raw reference points, as the crawler identifies pages. */
  function Target(base: Reference, raw: string): Reference {
    StripQueryFragment(Resolve(base, Parse(Trim(raw))))
  }

  /** Where each raw reference points, in order. */
  function Targets(base: Reference, raws: seq<string>): (r: seq<Reference>)
    ensures |r| == |raws|
  {
    if raws == [] then [] else [Target(base, raws[0])] + Targets(base, raws[1..])
  }

  /** The i-th target is where the i-th raw reference points. */
  lemma {:induction false} TargetsAt(base: Reference, raws: seq<string>, i: nat)
    requires i < |raws|
    ensures Targets(base, raws)[i] == Target(base, raws[i])
  {
    if i > 0 {
      var rest := raws[1..];
      assert rest[i - 1] == raws[i];
      assert Targets(base, raws)[i] == Targets(base, rest)[i - 1];
      TargetsAt(base, rest, i - 1);
    }
  }

  /** The absolute URLs of the local targets, in order, repetitions included. */
  function LocalUrls(originHost: string, targets: seq<Reference>): seq<string> {
    if targets == [] then []
    else
      (if IsLocal(targets[0], originHost) then [Recompose(targets[0])] else []) + LocalUrls(originHost, targets[1..])
  }

  predicate NoDuplicates(xs: seq<string>) {
    forall i, j :: 0 <= i < j < |xs| ==> xs[i] != xs[j]
  }

  /** The first occurrence of every element, in order. */
  function Dedup(xs: seq<string>): (r: seq<string>)
    ensures forall x :: x in r <==> x in xs
    ensures NoDuplicates(r)
    ensures xs != [] ==> r != [] && r[0] == xs[0]
  {
    if xs == [] then []
    else
      var prefix := xs[..|xs| - 1];
      var last := xs[|xs| - 1];
      var r := Dedup(prefix);
      assert forall x :: x in xs <==> x in prefix || x == last by {
        assert xs == prefix + [last];
      }
      assert prefix != [] ==> prefix[0] == xs[0];
      if last in r then r else r + [last]
  }

  /** Extraction: the deduplicated local URLs referenced by a body fetched from pageUrl. */
  function Extract(kind: ContentType, body: string, pageUrl: string, originHost: string): seq<string> {
    Dedup(LocalUrls(originHost, Targets(Parse(pageUrl), RawReferences(kind, body))))
  }

  // ---------------------------------------------------------------------------
  // Properties of extraction

  lemma LocalUrlsMembers(originHost: string, targets: seq<Reference>, u: string)
    ensures u in LocalUrls(originHost, targets) <==>
      exists i :: 0 <= i < |targets| && IsLocal(targets[i], originHost) && u == Recompose(targets[i])
  {
    if targets != [] {
      var rest := targets[1..];
      LocalUrlsMembers(originHost, rest, u);
      if u in LocalUrls(originHost, rest) {
        var i :| 0 <= i < |rest| && IsLocal(rest[i], originHost) && u == Recompose(rest[i]);
        assert rest[i] == targets[i + 1];
      }
      forall i | 1 <= i < |targets| ensures targets[i] == rest[i - 1] { }
    }
  }

  /** A URL is extracted exactly when some raw reference of the body resolves to it and it is local. */
  lemma ExtractMembers(kind: ContentType, body: string, pageUrl: string, originHost: string, u: string)
    ensures var raws := RawReferences(kind, body);
      u in Extract(kind, body, pageUrl, originHost) <==>
        exists i :: 0 <= i < |raws| && IsLocal(Target(Parse(pageUrl), raws[i]), originHost)
          && u == Recompose(Target(Parse(pageUrl), raws[i]))
  {
    var base := Parse(pageUrl);
    var raws := RawReferences(kind, body);
    var ts := Targets(base, raws);
    LocalUrlsMembers(originHost, ts, u);
    if u in Extract(kind, body, pageUrl, originHost) {
      var i :| 0 <= i < |ts| && IsLocal(ts[i], originHost) && u == Recompose(ts[i]);
      TargetsAt(base, raws, i);
    }
    if exists i :: 0 <= i < |raws| && IsLocal(Target(base, raws[i]), originHost) && u == Recompose(Target(base, raws[i])) {
      var i :| 0 <= i < |raws| && IsLocal(Target(base, raws[i]), originHost) && u == Recompose(Target(base, raws[i]));
      TargetsAt(base, raws, i);
    }
  }

  /** Deduplicating a list without repetitions changes nothing. */
  lemma {:induction false} DedupNoDuplicates(xs: seq<string>)
    requires NoDuplicates(xs)
    ensures Dedup(xs) == xs
  {
    if xs != [] {
      var prefix := xs[..|xs| - 1];
      var last := xs[|xs| - 1];
      assert NoDuplicates(prefix) by {
        forall i, j | 0 <= i < j < |prefix| ensures prefix[i] != prefix[j] {
          assert prefix[i] == xs[i] && prefix[j] == xs[j];
        }
      }
      DedupNoDuplicates(prefix);
      assert last !in prefix by {
        forall k | 0 <= k < |prefix| ensures prefix[k] != last {
          assert prefix[k] == xs[k];
        }
      }
      assert prefix + [last] == xs;
    }
  }

  /** Where x first occurs in xs. */
  function FirstIndex(xs: seq<string>, x: string): (i: nat)
    requires x in xs
    ensures i < |xs| && xs[i] == x && x !in xs[..i]
  {
    if xs[0] == x then 0
    else
      var i := 1 + FirstIndex(xs[1..], x);
      assert xs[..i] == [xs[0]] + xs[1..][..i - 1];
      i
  }

  /** A first occurrence is determined by the list and the element. */
  lemma FirstIndexUnique(xs: seq<string>, x: string, k: nat)
    requires k < |xs| && xs[k] == x && x !in xs[..k]
    ensures FirstIndex(xs, x) == k
  {
    var p := FirstIndex(xs, x);
    assert forall q :: 0 <= q < k ==> xs[..k][q] == xs[q];
    assert forall q :: 0 <= q < p ==> xs[..p][q] == xs[q];
  }

  /** Appending an element does not move the first occurrences of the others. */
  lemma FirstIndexSnoc(xs: seq<string>, last: string, x: string)
    requires x in xs
    ensures FirstIndex(xs + [last], x) == FirstIndex(xs, x)
  {
    var p := FirstIndex(xs, x);
    assert (xs + [last])[..p] == xs[..p];
    FirstIndexUnique(xs + [last], x, p);
  }

  /** First-discovery order, as a property of a list r of elements of xs. */
  predicate InFirstOrder(xs: seq<string>, r: seq<string>)
    requires forall x :: x in r ==> x in xs
  {
    forall i, j :: 0 <= i < j < |r| ==> FirstIndex(xs, r[i]) < FirstIndex(xs, r[j])
  }

  /** One more element at the end of xs keeps the order, whether or not it is new. */
  lemma InFirstOrderSnoc(prefix: seq<string>, last: string, r0: seq<string>)
    requires forall x :: x in r0 ==> x in prefix
    requires InFirstOrder(prefix, r0)
    ensures forall x :: x in r0 ==> x in prefix + [last]
    ensures InFirstOrder(prefix + [last], r0)
    ensures last !in prefix ==>
      (forall x :: x in r0 + [last] ==> x in prefix + [last]) && InFirstOrder(prefix + [last], r0 + [last])
  {
    var xs := prefix + [last];
    forall i | 0 <= i < |r0| ensures FirstIndex(xs, r0[i]) == FirstIndex(prefix, r0[i]) < |prefix| {
      FirstIndexSnoc(prefix, last, r0[i]);
    }
    if last !in prefix {
      var r := r0 + [last];
      assert xs[..|prefix|] == prefix;
      FirstIndexUnique(xs, last, |prefix|);
      forall i, j | 0 <= i < j < |r| ensures FirstIndex(xs, r[i]) < FirstIndex(xs, r[j]) {
        assert r[i] == r0[i];
        if j < |r0| {
          assert r[j] == r0[j];
        }
      }
    }
  }

  /**
   * Deduplication keeps the order of first discovery: of two URLs in the
   * result, the earlier one was found first.
   */
  lemma {:induction false} DedupFirstOrder(xs: seq<string>)
    ensures InFirstOrder(xs, Dedup(xs))
  {
    if xs != [] {
      var prefix := xs[..|xs| - 1];
      var last := xs[|xs| - 1];
      DedupFirstOrder(prefix);
      assert xs == prefix + [last];
      InFirstOrderSnoc(prefix, last, Dedup(prefix));
    }
  }

  /** The extracted URLs come in the order the body first references them. */
  lemma ExtractFirstOrder(kind: ContentType, body: string, pageUrl: string, originHost: string)
    ensures var found := LocalUrls(originHost, Targets(Parse(pageUrl), RawReferences(kind, body)));
      InFirstOrder(found, Extract(kind, body, pageUrl, originHost))
  {
    DedupFirstOrder(LocalUrls(originHost, Targets(Parse(pageUrl), RawReferences(kind, body))));
  }

  lemma DedupIdempotent(xs: seq<string>)
    ensures Dedup(Dedup(xs)) == Dedup(xs)
  {
    DedupNoDuplicates(Dedup(xs));
  }

  /** Extracting from the same body twice gives the same URLs, none of them twice. */
  lemma ExtractDeduplicated(kind: ContentType, body: string, pageUrl: string, originHost: string)
    ensures NoDuplicates(Extract(kind, body, pageUrl, originHost))
    ensures Dedup(Extract(kind, body, pageUrl, originHost)) == Extract(kind, body, pageUrl, originHost)
  {
    DedupIdempotent(LocalUrls(originHost, Targets(Parse(pageUrl), RawReferences(kind, body))));
  }

  // ---------------------------------------------------------------------------
  // Every extracted URL is local and carries no query or fragment

  /** The parse of any string satisfies the component constraints. */
  lemma ParseWellFormed(s: string)
    ensures WellFormed(Parse(s))
  {
    var a := SplitScheme(s);
    var b := SplitAuthority(a.1);
    var c := SplitPath(b.1);
    var d := SplitQuery(c.1);
    assert Parse(s) == Reference(a.0, b.0, c.0, d.0, SplitFragment(d.1));
    SchemePart(s);
    AuthorityPart(a.1);
    PathPart(b.1);
    QueryPart(c.1);
    if a.0.None? && b.0.None? {
      assert b.1 == s;
      NoSchemeInPrefix(s, c.0);
    }
  }

  lemma SchemePart(s: string)
    ensures var a := SplitScheme(s);
      a.0.Some? ==> |a.0.value| > 0 && NoneIn(a.0.value, SchemeStop)
  {
    var a := SplitScheme(s);
    if a.0.Some? {
      var i := Find(s, SchemeStop);
      assert a.0.value == s[..i];
    }
  }

  /** An authority holds no '/', '?' or '#'; what follows it starts with one of them, or is empty. */
  lemma AuthorityPart(t: string)
    ensures var b := SplitAuthority(t);
      && (b.0.Some? ==> NoneIn(b.0.value, AuthorityStop) && (b.1 == [] || b.1[0] in AuthorityStop))
      && (b.0.None? ==> !StartsWith(b.1, "//"))
  {
    var b := SplitAuthority(t);
    if b.0.Some? {
      var u := t[2..];
      var j := Find(u, AuthorityStop);
      assert b.0.value == u[..j];
      assert b.1 == u[j..];
      assert b.1 != [] ==> b.1[0] == u[j];
    }
  }

  /** The path is a ?- and #-free prefix; the query part starts at the first ? or #. */
  lemma PathPart(t: string)
    ensures var c := SplitPath(t);
      && NoneIn(c.0, PathStop) && |c.0| <= |t| && t[..|c.0|] == c.0
      && (t != [] && t[0] in AuthorityStop ==> c.0 == [] || c.0[0] == '/')
      && (!StartsWith(t, "//") ==> !StartsWith(c.0, "//"))
  {
    var c := SplitPath(t);
    var k := Find(t, PathStop);
    assert c.0 == t[..k];
    if t != [] && t[0] in AuthorityStop && c.0 != [] {
      assert c.0[0] == t[0];
    }
    if StartsWith(c.0, "//") {
      assert t[..2] == c.0[..2];
    }
  }

  lemma QueryPart(t: string)
    ensures var d := SplitQuery(t);
      d.0.Some? ==> NoneIn(d.0.value, QueryStop)
  {
    var d := SplitQuery(t);
    if d.0.Some? {
      var m := Find(t[1..], QueryStop);
      assert d.0.value == t[1..][..m];
    }
  }

  /** A prefix of a string without a scheme, ending where the string's first ?, # or end is, has none either. */
  lemma NoSchemeInPrefix(s: string, p: string)
    requires !HasScheme(s) && p == s[..Find(s, PathStop)]
    ensures !HasScheme(p)
  {
    var k := Find(s, PathStop);
    assert s == p + s[k..];
    assert s[k..] == [] || s[k..][0] in SchemeStop;
    FindConcat(p, s[k..], SchemeStop);
    var i := Find(p, SchemeStop);
    assert i < |p| ==> s[i] == p[i];
  }

  predicate SlashLed(p: string) {
    p == [] || p[0] == '/'
  }

  /** The loop of section 5.2.4 keeps a path absolute and introduces no new characters. */
  lemma {:induction false} RemoveDotsShape(input: string, out: string, c: char)
    requires SlashLed(input) && SlashLed(out) && c != '/'
    ensures SlashLed(RemoveDots(input, out))
    ensures c !in input && c !in out ==> c !in RemoveDots(input, out)
    decreases |input|
  {
    if input != [] {
      var next := Step(input, out);
      StepShape(input, out, c);
      RemoveDotsShape(next.0, next.1, c);
    }
  }

  /** One pass over a slash-led input keeps both buffers slash-led and free of c. */
  lemma StepShape(input: string, out: string, c: char)
    requires input != [] && SlashLed(input) && SlashLed(out) && c != '/'
    ensures var r := Step(input, out); SlashLed(r.0) && SlashLed(r.1)
    ensures var r := Step(input, out); c !in input && c !in out ==> c !in r.0 && c !in r.1
  {
    SlashLedSteps(input);
    if StartsWith(input, "/./") {
      assert input[2..][0] == input[..3][2];
    } else if input == "/." {
    } else if StartsWith(input, "/../") {
      assert input[3..][0] == input[..4][3];
      PrefixShape(out, RemoveLastSegment(out), c);
    } else if input == "/.." {
      PrefixShape(out, RemoveLastSegment(out), c);
    } else {
      SegmentSplitShape(input, out, c);
    }
  }

  /** Moving the first segment to the output keeps both sides slash-led and free of c. */
  lemma SegmentSplitShape(input: string, out: string, c: char)
    requires input != [] && SlashLed(input) && SlashLed(out)
    ensures var n := SegmentEnd(input);
      SlashLed(input[n..]) && SlashLed(out + input[..n]) &&
      (c !in input && c !in out ==> c !in input[n..] && c !in out + input[..n])
  {
    var n := SegmentEnd(input);
    assert input == input[..n] + input[n..];
    assert out + input[..n] == [] || (out + input[..n])[0] == '/';
  }

  lemma PrefixShape(s: string, p: string, c: char)
    requires |p| <= |s| && p == s[..|p|] && SlashLed(s)
    ensures SlashLed(p)
    ensures c !in s ==> c !in p
  {
    if c in p {
      var k :| 0 <= k < |p| && p[k] == c;
      assert s[k] == c;
    }
  }

  lemma RemoveDotSegmentsShape(p: string, c: char)
    requires SlashLed(p) && c != '/'
    ensures SlashLed(RemoveDotSegments(p))
    ensures c !in p ==> c !in RemoveDotSegments(p)
  {
    RemoveDotsShape(p, [], c);
  }

  /** A local target has an absolute path without '?' or '#'. */
  lemma LocalTargetPath(base: Reference, raw: string, originHost: string, c: char)
    requires WellFormed(base) && IsLocal(Target(base, raw), originHost) && (c == '?' || c == '#')
    ensures SlashLed(Target(base, raw).path) && c !in Target(base, raw).path
  {
    var r := Parse(Trim(raw));
    ParseWellFormed(Trim(raw));
    assert c in PathStop;
    assert c !in r.path;
    assert c !in base.path;
    if r.scheme.Some? || r.authority.Some? || (r.path != [] && r.path[0] == '/') {
      RemoveDotSegmentsShape(r.path, c);
    } else if r.path != [] {
      var m := Merge(base, r.path);
      if base.path != [] {
        var d := Directory(base.path);
        DirectoryRooted(base.path);
        assert c !in d;
      }
      RemoveDotSegmentsShape(m, c);
    }
  }

  /** Every extracted URL parses as a local reference with neither query nor fragment. */
  lemma ExtractIsLocal(kind: ContentType, body: string, pageUrl: string, originHost: string, u: string)
    requires NoneIn(originHost, AuthorityStop)
    requires u in Extract(kind, body, pageUrl, originHost)
    ensures IsLocal(Parse(u), originHost)
    ensures Parse(u).query.None? && Parse(u).fragment.None?
  {
    var base := Parse(pageUrl);
    var raws := RawReferences(kind, body);
    ExtractMembers(kind, body, pageUrl, originHost, u);
    var i :| 0 <= i < |raws| && IsLocal(Target(base, raws[i]), originHost) && u == Recompose(Target(base, raws[i]));
    ParseWellFormed(pageUrl);
    LocalTargetWellFormed(base, raws[i], originHost);
    ParseRecompose(Target(base, raws[i]));
  }

  lemma LocalTargetWellFormed(base: Reference, raw: string, originHost: string)
    requires WellFormed(base) && NoneIn(originHost, AuthorityStop)
    requires IsLocal(Target(base, raw), originHost)
    ensures WellFormed(Target(base, raw))
  {
    LocalTargetPath(base, raw, originHost, '?');
    LocalTargetPath(base, raw, originHost, '#');
    LocalWellFormed(Target(base, raw), originHost);
  }

  lemma LocalWellFormed(t: Reference, originHost: string)
    requires IsLocal(t, originHost) && NoneIn(originHost, AuthorityStop)
    requires t.query.None? && t.fragment.None?
    requires SlashLed(t.path) && '?' !in t.path && '#' !in t.path
    ensures WellFormed(t)
  {
    assert NoneIn(t.path, PathStop) by {
      forall k | 0 <= k < |t.path| ensures t.path[k] !in PathStop {
        assert t.path[k] in t.path;
      }
    }
    assert NoneIn(t.scheme.value, SchemeStop);
  }
}
