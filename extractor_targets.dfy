/**
 * Where the reference forms that occur in the extractor's test tables point
 * when they are found on the page http://example.org/blog/my-first-blog-post,
 * whose origin host is example.org. Each lemma covers one form for every
 * choice of its parts; the tabled cases instantiate them.
 */
module ExtractorTargets {
  import opened Wrappers
  import opened Text
  import opened Uri
  import opened UrlExtractor

  // The strings are written as concatenations so that the verifier does not
  // evaluate the scanners and the parser on long literals character by character.

  const Host: string := "example.org"
  /** http://example.org */
  const Domain: string := "http://" + Host
  /** /blog/my-first-blog-post */
  const PostPath: string := "/blog" + "/" + "my-first-blog-post"
  /** http://example.org/blog/my-first-blog-post */
  const Page: string := Domain + PostPath
  const Base: Reference := Reference(Some("http"), Some(Host), PostPath, None, None)

  /** A path segment with no delimiter of any component and no dot-segment meaning. */
  predicate Segment(x: string) {
    x != [] && NoneIn(x, {'/', '?', '#', ':'}) && x != "." && x != ".."
  }

  lemma SegmentIntro(x: string)
    requires x != [] && '/' !in x && '?' !in x && '#' !in x && ':' !in x && x != "." && x != ".."
    ensures Segment(x)
  {
    NoneInIntro(x, {'/', '?', '#', ':'});
  }

  /** A path of segments: dot-free, free of '?' and '#', and starting with a single '/'. */
  predicate SegmentPath(p: string) {
    DotFree(p) && NoneIn(p, PathStop) && |p| >= 2 && p[0] == '/' && p[1] != '/'
  }

  /** The local page at the given path. */
  function At(path: string): Reference {
    Reference(Some("http"), Some(Host), path, None, None)
  }

  lemma HttpUrl(host: string, path: string)
    ensures Recompose(Reference(Some("http"), Some(host), path, None, None)) == "http://" + host + path
  {
  }

  lemma AtUrl(path: string)
    ensures IsLocal(At(path), Host)
    ensures Recompose(At(path)) == Domain + path
  {
    HttpUrl(Host, path);
  }

  lemma SegmentNoSlash(x: string)
    requires Segment(x)
    ensures NoneIn(x, {'/'}) && NoneIn(x, SchemeStop) && NoneIn(x, PathStop)
  {
  }

  /** One segment in front of a path of segments, or of nothing. */
  lemma SlashSegment(x: string, p: string)
    requires Segment(x)
    requires p == [] || SegmentPath(p)
    ensures SegmentPath(("/" + x) + p)
  {
    SegmentNoSlash(x);
    DotFreeSegment(x);
    DotFreeConcat("/" + x, p);
    assert NoneIn("/" + x, PathStop) by {
      forall i | 0 <= i < |"/" + x| ensures ("/" + x)[i] !in PathStop {
        if i > 0 { assert ("/" + x)[i] == x[i - 1]; }
      }
    }
    NoneInConcat("/" + x, p, PathStop);
    assert (("/" + x) + p)[1] == x[0];
  }

  lemma OneSegment(x: string)
    requires Segment(x)
    ensures SegmentPath("/" + x)
  {
    SlashSegment(x, []);
    assert ("/" + x) + [] == "/" + x;
  }

  lemma TwoSegments(x: string, y: string)
    requires Segment(x) && Segment(y)
    ensures SegmentPath("/" + x + "/" + y)
  {
    OneSegment(y);
    SlashSegment(x, "/" + y);
    assert ("/" + x) + ("/" + y) == "/" + x + "/" + y;
  }

  lemma NoneInConcat(a: string, b: string, stop: set<char>)
    requires NoneIn(a, stop) && NoneIn(b, stop)
    ensures NoneIn(a + b, stop)
  {
    forall i | 0 <= i < |a + b| ensures (a + b)[i] !in stop {
      if i >= |a| { assert (a + b)[i] == b[i - |a|]; }
    }
  }

  /** A value with no whitespace at either end is its own trimmed form. */
  lemma TrimPlain(v: string)
    requires v != [] && !IsWs(v[0]) && !IsWs(v[|v| - 1])
    ensures Trim(v) == v
  {
    TrimPadded("", v, "");
    assert "" + v + "" == v;
  }

  lemma HostClean()
    ensures NoneIn(Host, AuthorityStop)
  {
    NoneInIntro(Host, AuthorityStop);
  }

  lemma PostSegment()
    ensures Segment("my-first-blog-post")
  {
    SegmentIntro("my-first-blog-post");
  }

  lemma BasePath()
    ensures SegmentPath(Base.path)
  {
    SegmentIntro("blog");
    PostSegment();
    TwoSegments("blog", "my-first-blog-post");
    assert "/" + "blog" == "/blog";
  }

  lemma BaseWellFormed()
    ensures WellFormed(Base)
  {
    NoneInIntro("http", SchemeStop);
    HostClean();
    BasePath();
  }

  /** The page's own URL parses into its components. */
  lemma PageParse()
    ensures Parse(Page) == Base
  {
    HttpUrl(Host, PostPath);
    BaseWellFormed();
    ParseRecompose(Base);
  }

  /** What the shapes below need to know of the page they are found on. */
  predicate PageLike(base: Reference) {
    base.scheme == Some("http") && base.authority == Some(Host) && Directory(base.path) == "/blog/"
  }

  lemma BaseLike()
    ensures PageLike(Base)
  {
    BaseDirectory();
  }

  lemma BaseDirectory()
    ensures Directory(Base.path) == "/blog/"
  {
    PostSegment();
    SegmentNoSlash("my-first-blog-post");
    DirectoryOf("/blog", "my-first-blog-post");
  }

  /** A relative path whose first segment is plain has no scheme. */
  lemma NoSchemeBefore(a: string, b: string)
    requires NoneIn(a, SchemeStop) && b != [] && b[0] == '/'
    ensures !HasScheme(a + b)
  {
    FindAppend(a, b, SchemeStop);
    assert (a + b)[|a|] == b[0];
  }

  /** A reference that parses back from its recomposition points where resolving it says. */
  lemma TargetOf(base: Reference, raw: string, r: Reference)
    requires WellFormed(r) && Trim(raw) == Recompose(r)
    ensures Target(base, raw) == StripQueryFragment(Resolve(base, r))
  {
    ParseRecompose(r);
  }

  /** A bare relative path: neither a scheme nor a leading '/'. */
  lemma RelativeWellFormed(v: string)
    requires v != [] && v[0] != '/' && !HasScheme(v) && NoneIn(v, PathStop)
    ensures WellFormed(Reference(None, None, v, None, None))
    ensures Recompose(Reference(None, None, v, None, None)) == v
  {
  }

  lemma MergeInPage(base: Reference, v: string)
    requires PageLike(base)
    ensures Merge(base, v) == "/blog/" + v
  {
    assert base.path != [];
  }

  lemma BlogPath()
    ensures DotFree("/blog") && NoneIn("blog", {'/'})
  {
    SegmentIntro("blog");
    OneSegment("blog");
  }

  lemma RemoveDotsPlain(x: string)
    requires Segment(x)
    ensures RemoveDotSegments("/blog/" + x) == "/blog/" + x
  {
    SegmentIntro("blog");
    TwoSegments("blog", x);
    assert "/" + "blog" + "/" + x == "/blog/" + x;
    RemoveDotSegmentsDotFree("/blog/" + x);
  }

  lemma RegroupCurrent(x: string)
    ensures "/blog/" + ("./" + x) == "/blog" + ("/." + ("/" + x))
    ensures "/blog" + ("/" + x) == "/blog/" + x
    ensures ("/" + x) + [] == "/" + x
  {
  }

  lemma RegroupParent(x: string)
    ensures "/blog/" + ("../" + x) == "/blog" + ("/.." + ("/" + x))
    ensures ("/" + x) + [] == "/" + x
  {
  }

  lemma BlogParent()
    ensures RemoveLastSegment("/blog") == ""
  {
    BlogPath();
    DirectoryOf("", "blog");
    assert "" + "/" + "blog" == "/blog";
  }

  lemma RemoveDotsCurrentDir(x: string)
    requires Segment(x)
    ensures RemoveDotSegments("/blog/" + ("./" + x)) == "/blog/" + x
  {
    RegroupCurrent(x);
    BlogPath();
    OneSegment(x);
    RemoveDotsPrefix("/blog", "/." + ("/" + x), "");
    RemoveDotsCurrent("/" + x, "" + "/blog");
    RemoveDotsPrefix("/" + x, [], "" + "/blog");
  }

  lemma RemoveDotsParentDir(x: string)
    requires Segment(x)
    ensures RemoveDotSegments("/blog/" + ("../" + x)) == "/" + x
  {
    RegroupParent(x);
    BlogPath();
    OneSegment(x);
    RemoveDotsPrefix("/blog", "/.." + ("/" + x), "");
    RemoveDotsParent("/" + x, "" + "/blog");
    BlogParent();
    RemoveDotsPrefix("/" + x, [], "");
  }

  lemma RootedPath(p: string)
    requires SegmentPath(p)
    ensures !StartsWith(p, "//") && !HasScheme(p)
  {
    assert p[..2][1] == p[1];
    NoSchemeBefore([], p);
    assert [] + p == p;
  }

  /** "/a/b?q#f", a root-relative path: the same path on the origin, without query and fragment. */
  lemma TargetRoot(base: Reference, raw: string, p: string, q: Option<string>, f: Option<string>)
    requires PageLike(base) && SegmentPath(p)
    requires q.Some? ==> '#' !in q.value
    requires Trim(raw) == Recompose(Reference(None, None, p, q, f))
    ensures Target(base, raw) == At(p)
  {
    var r := Reference(None, None, p, q, f);
    RootedPath(p);
    if q.Some? {
      NoneInIntro(q.value, QueryStop);
    }
    assert WellFormed(r);
    TargetOf(base, raw, r);
    RemoveDotSegmentsDotFree(p);
  }

  /** "x", a bare segment: x in the directory of the page. */
  lemma TargetRelative(base: Reference, raw: string, x: string)
    requires PageLike(base) && Segment(x) && Trim(raw) == x
    ensures Target(base, raw) == At("/blog/" + x)
  {
    SegmentNoSlash(x);
    RelativeWellFormed(x);
    TargetOf(base, raw, Reference(None, None, x, None, None));
    MergeInPage(base, x);
    RemoveDotsPlain(x);
  }

  /** "d/x" with d a dot segment: a relative path with no scheme, no query and no fragment. */
  lemma DotRelative(d: string, x: string)
    requires d == "." || d == ".."
    requires Segment(x)
    ensures WellFormed(Reference(None, None, d + ("/" + x), None, None))
    ensures Recompose(Reference(None, None, d + ("/" + x), None, None)) == d + ("/" + x)
  {
    var v := d + ("/" + x);
    SegmentNoSlash(x);
    NoneInIntro(d, SchemeStop);
    NoneInIntro("/", PathStop);
    NoneInConcat("/", x, PathStop);
    NoneInConcat(d, "/" + x, PathStop);
    NoSchemeBefore(d, "/" + x);
    assert v[0] == d[0];
    RelativeWellFormed(v);
  }

  /** "./x": the same as "x". */
  lemma TargetCurrent(base: Reference, raw: string, x: string)
    requires PageLike(base) && Segment(x) && Trim(raw) == "./" + x
    ensures Target(base, raw) == At("/blog/" + x)
  {
    var v := "." + ("/" + x);
    Assoc(".", "/", x);
    DotRelative(".", x);
    TargetOf(base, raw, Reference(None, None, v, None, None));
    MergeInPage(base, v);
    RemoveDotsCurrentDir(x);
  }

  /** "../x": x in the parent of the page's directory. */
  lemma TargetParent(base: Reference, raw: string, x: string)
    requires PageLike(base) && Segment(x) && Trim(raw) == "../" + x
    ensures Target(base, raw) == At("/" + x)
  {
    var v := ".." + ("/" + x);
    Assoc("..", "/", x);
    DotRelative("..", x);
    TargetOf(base, raw, Reference(None, None, v, None, None));
    MergeInPage(base, v);
    RemoveDotsParentDir(x);
  }

  /** "scheme://authority/a/b#f", an absolute reference: itself, without its fragment. */
  lemma TargetAbsolute(base: Reference, raw: string, scheme: string, authority: string, p: string, f: Option<string>)
    requires PageLike(base)
    requires scheme != [] && NoneIn(scheme, SchemeStop) && NoneIn(authority, AuthorityStop)
    requires p == [] || SegmentPath(p)
    requires Trim(raw) == Recompose(Reference(Some(scheme), Some(authority), p, None, f))
    ensures Target(base, raw) == Reference(Some(scheme), Some(authority), p, None, None)
  {
    var r := Reference(Some(scheme), Some(authority), p, None, f);
    assert WellFormed(r);
    TargetOf(base, raw, r);
    RemoveDotSegmentsDotFree(p);
  }

  /** A reference naming another scheme or another host is never local. */
  lemma TargetForeign(base: Reference, raw: string, r: Reference)
    requires PageLike(base) && WellFormed(r) && Trim(raw) == Recompose(r)
    requires || (r.scheme.Some? && r.scheme.value != "http" && r.scheme.value != "https")
             || (r.authority.Some? && r.authority.value != Host)
    ensures !IsLocal(Target(base, raw), Host)
  {
    ParseRecompose(r);
  }
}
