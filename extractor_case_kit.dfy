/**
 * Building blocks for the tabled extractor cases: the forms a reference
 * takes on the test page, small documents and style sheets written out
 * node by node, and extraction results of one or two references.
 */
module CaseKit {
  import opened Wrappers
  import opened Text
  import opened Uri
  import opened UrlExtractor
  import opened HtmlScanner
  import opened ExtractorTargets
  import CssScanner

  // ---------------------------------------------------------------------------
  // Targets on the test page

  lemma RootTarget(raw: string, x: string)
    requires Segment(x) && Trim(raw) == "/" + x
    ensures Target(Base, raw) == At("/" + x)
  {
    BaseLike();
    OneSegment(x);
    assert Recompose(Reference(None, None, "/" + x, None, None)) == "/" + x;
    TargetRoot(Base, raw, "/" + x, None, None);
  }

  lemma RootPairTarget(raw: string, x: string, y: string)
    requires Segment(x) && Segment(y) && Trim(raw) == "/" + x + "/" + y
    ensures Target(Base, raw) == At("/" + x + "/" + y)
  {
    BaseLike();
    TwoSegments(x, y);
    assert Recompose(Reference(None, None, "/" + x + "/" + y, None, None)) == "/" + x + "/" + y;
    TargetRoot(Base, raw, "/" + x + "/" + y, None, None);
  }

  lemma RecomposeQuery(p: string, q: string)
    ensures Recompose(Reference(None, None, p, Some(q), None)) == p + "?" + q
  {
  }

  lemma RecomposeFragment(p: string, f: string)
    ensures Recompose(Reference(None, None, p, None, Some(f))) == p + "#" + f
  {
  }

  lemma RootQueryTarget(raw: string, x: string, q: string)
    requires Segment(x) && '#' !in q && Trim(raw) == "/" + x + "?" + q
    ensures Target(Base, raw) == At("/" + x)
  {
    BaseLike();
    OneSegment(x);
    RecomposeQuery("/" + x, q);
    TargetRoot(Base, raw, "/" + x, Some(q), None);
  }

  lemma RootFragmentTarget(raw: string, x: string, f: string)
    requires Segment(x) && Trim(raw) == "/" + x + "#" + f
    ensures Target(Base, raw) == At("/" + x)
  {
    BaseLike();
    OneSegment(x);
    RecomposeFragment("/" + x, f);
    TargetRoot(Base, raw, "/" + x, None, Some(f));
  }

  lemma RelativeTarget(raw: string, x: string)
    requires Segment(x) && Trim(raw) == x
    ensures Target(Base, raw) == At("/blog/" + x)
  {
    BaseLike();
    TargetRelative(Base, raw, x);
  }

  lemma CurrentTarget(raw: string, x: string)
    requires Segment(x) && Trim(raw) == "./" + x
    ensures Target(Base, raw) == At("/blog/" + x)
  {
    BaseLike();
    TargetCurrent(Base, raw, x);
  }

  lemma ParentTarget(raw: string, x: string)
    requires Segment(x) && Trim(raw) == "../" + x
    ensures Target(Base, raw) == At("/" + x)
  {
    BaseLike();
    TargetParent(Base, raw, x);
  }

  /** An absolute URL on the origin, with or without a fragment. */
  lemma AbsoluteTarget(raw: string, p: string, f: Option<string>)
    requires p == [] || SegmentPath(p)
    requires Trim(raw) == Domain + (p + OptPrefix(f, "#", ""))
    ensures Target(Base, raw) == At(p)
  {
    Assoc(Domain, p, OptPrefix(f, "#", ""));
    BaseLike();
    NoneInIntro("http", SchemeStop);
    HostClean();
    RecomposeAbsolute(p, f);
    TargetAbsolute(Base, raw, "http", Host, p, f);
  }

  lemma RecomposeAbsolute(p: string, f: Option<string>)
    ensures Recompose(Reference(Some("http"), Some(Host), p, None, f)) == Domain + p + OptPrefix(f, "#", "")
  {
    var a := "http" + ":";
    var b := "//" + Host + "";
    assert Recompose(Reference(Some("http"), Some(Host), p, None, f)) == a + (b + (p + ("" + OptPrefix(f, "#", ""))));
    assert a + b == Domain;
  }

  lemma ForeignTarget(raw: string, r: Reference)
    requires Uri.WellFormed(r) && Trim(raw) == Recompose(r)
    requires || (r.scheme.Some? && r.scheme.value != "http" && r.scheme.value != "https")
             || (r.authority.Some? && r.authority.value != Host)
    ensures !IsLocal(Target(Base, raw), Host)
  {
    BaseLike();
    TargetForeign(Base, raw, r);
  }

  // ---------------------------------------------------------------------------
  // Extraction on the test page

  lemma ExtractOnPage(kind: ContentType, body: string, raws: seq<string>)
    requires RawReferences(kind, body) == raws
    ensures Extract(kind, body, Page, Host) == Dedup(LocalUrls(Host, Targets(Base, raws)))
  {
    PageParse();
  }

  lemma TargetsOne(raw: string)
    ensures Targets(Base, [raw]) == [Target(Base, raw)]
  {
  }

  lemma TargetsTwo(base: Reference, a: string, b: string)
    ensures Targets(base, [a, b]) == [Target(base, a), Target(base, b)]
  {
    assert [a, b][1..] == [b];
    assert [b][1..] == [];
  }

  lemma LocalAt(path: string)
    ensures LocalUrls(Host, [At(path)]) == [Domain + path]
  {
    AtUrl(path);
    assert [At(path)][1..] == [];
  }

  lemma LocalNotAt(t: Reference)
    requires !IsLocal(t, Host)
    ensures LocalUrls(Host, [t]) == []
  {
    assert [t][1..] == [];
  }

  lemma LocalCons(t: Reference, ts: seq<Reference>)
    ensures LocalUrls(Host, [t] + ts) == LocalUrls(Host, [t]) + LocalUrls(Host, ts)
  {
    assert ([t] + ts)[1..] == ts;
    assert [t][1..] == [];
  }

  lemma LocalPair(p: string, q: string)
    ensures LocalUrls(Host, [At(p), At(q)]) == [Domain + p, Domain + q]
  {
    LocalCons(At(p), [At(q)]);
    assert [At(p)] + [At(q)] == [At(p), At(q)];
    LocalAt(p);
    LocalAt(q);
  }

  lemma DedupOne(u: string)
    ensures Dedup([u]) == [u]
  {
    assert [u][..0] == [];
  }

  lemma DedupTwo(u: string, w: string)
    requires u != w
    ensures Dedup([u, w]) == [u, w]
  {
    DedupOne(u);
    assert [u, w][..1] == [u];
  }

  lemma DistinctUrls(p: string, q: string)
    requires p != q
    ensures Domain + p != Domain + q
  {
    assert (Domain + p)[|Domain|..] == p;
    assert (Domain + q)[|Domain|..] == q;
  }

  /** One reference, to the local page at path. */
  lemma ExtractOne(kind: ContentType, body: string, raw: string, path: string)
    requires RawReferences(kind, body) == [raw] && Target(Base, raw) == At(path)
    ensures Extract(kind, body, Page, Host) == [Domain + path]
  {
    ExtractOnPage(kind, body, [raw]);
    TargetsOne(raw);
    LocalAt(path);
    DedupOne(Domain + path);
  }

  /** One reference, not local. */
  lemma ExtractForeign(kind: ContentType, body: string, raw: string)
    requires RawReferences(kind, body) == [raw] && !IsLocal(Target(Base, raw), Host)
    ensures Extract(kind, body, Page, Host) == []
  {
    ExtractOnPage(kind, body, [raw]);
    TargetsOne(raw);
    LocalNotAt(Target(Base, raw));
  }

  /** No reference at all. */
  lemma ExtractNothing(kind: ContentType, body: string)
    requires RawReferences(kind, body) == []
    ensures Extract(kind, body, Page, Host) == []
  {
    ExtractOnPage(kind, body, []);
  }

  /** Two references, to two different local pages. */
  lemma ExtractTwo(kind: ContentType, body: string, a: string, b: string, p: string, q: string)
    requires RawReferences(kind, body) == [a, b] && Target(Base, a) == At(p) && Target(Base, b) == At(q)
    requires p != q
    ensures Extract(kind, body, Page, Host) == [Domain + p, Domain + q]
  {
    ExtractOnPage(kind, body, [a, b]);
    TargetsTwo(Base, a, b);
    LocalPair(p, q);
    DistinctUrls(p, q);
    DedupTwo(Domain + p, Domain + q);
  }

  /** Two references, the first not local. */
  lemma ExtractSecond(kind: ContentType, body: string, a: string, b: string, q: string)
    requires RawReferences(kind, body) == [a, b] && !IsLocal(Target(Base, a), Host) && Target(Base, b) == At(q)
    ensures Extract(kind, body, Page, Host) == [Domain + q]
  {
    ExtractOnPage(kind, body, [a, b]);
    TargetsTwo(Base, a, b);
    LocalCons(Target(Base, a), [At(q)]);
    LocalNotAt(Target(Base, a));
    LocalAt(q);
    DedupOne(Domain + q);
  }

  // ---------------------------------------------------------------------------
  // Documents written out node by node

  lemma Document1(a: Node)
    requires NodeWellFormed(a)
    ensures ScanHtml(RenderNode(a)) == NodeRefs(a)
  {
    ScanNode(a, "");
    assert RenderNode(a) + "" == RenderNode(a);
    assert NodeRefs(a) + [] == NodeRefs(a);
  }

  lemma Document2(a: Node, b: Node)
    requires NodeWellFormed(a) && NodeWellFormed(b)
    ensures ScanHtml(RenderNode(a) + RenderNode(b)) == NodeRefs(a) + NodeRefs(b)
  {
    Document1(b);
    ScanNode(a, RenderNode(b));
  }

  lemma Document3(a: Node, b: Node, c: Node)
    requires NodeWellFormed(a) && NodeWellFormed(b) && NodeWellFormed(c)
    ensures ScanHtml(RenderNode(a) + (RenderNode(b) + RenderNode(c))) == NodeRefs(a) + (NodeRefs(b) + NodeRefs(c))
  {
    Document2(b, c);
    ScanNode(a, RenderNode(b) + RenderNode(c));
  }

  lemma Attributes1(a: Attribute)
    ensures RenderAttributes([a]) == RenderAttribute(a)
    ensures AttributesRefs([a]) == AttributeRefsOf(a)
    ensures AttributeWellFormed(a) ==> AttributesWellFormed([a])
  {
    assert [a][1..] == [];
  }

  lemma Attributes2(a: Attribute, b: Attribute)
    ensures RenderAttributes([a, b]) == RenderAttribute(a) + RenderAttribute(b)
    ensures AttributesRefs([a, b]) == AttributeRefsOf(a) + AttributeRefsOf(b)
    ensures AttributeWellFormed(a) && AttributeWellFormed(b) ==> AttributesWellFormed([a, b])
  {
    Attributes1(b);
    assert [a, b][1..] == [b];
  }

  lemma Attributes3(a: Attribute, b: Attribute, c: Attribute)
    ensures RenderAttributes([a, b, c]) == RenderAttribute(a) + (RenderAttribute(b) + RenderAttribute(c))
    ensures AttributesRefs([a, b, c]) == AttributeRefsOf(a) + (AttributeRefsOf(b) + AttributeRefsOf(c))
    ensures AttributeWellFormed(a) && AttributeWellFormed(b) && AttributeWellFormed(c) ==> AttributesWellFormed([a, b, c])
  {
    Attributes2(b, c);
    assert [a, b, c][1..] == [b, c];
  }

  lemma Attributes4(a: Attribute, b: Attribute, c: Attribute, d: Attribute)
    ensures RenderAttributes([a, b, c, d]) == RenderAttribute(a) + (RenderAttribute(b) + (RenderAttribute(c) + RenderAttribute(d)))
    ensures AttributesRefs([a, b, c, d]) == AttributeRefsOf(a) + (AttributeRefsOf(b) + (AttributeRefsOf(c) + AttributeRefsOf(d)))
    ensures AttributeWellFormed(a) && AttributeWellFormed(b) && AttributeWellFormed(c) && AttributeWellFormed(d)
      ==> AttributesWellFormed([a, b, c, d])
  {
    Attributes3(b, c, d);
    assert [a, b, c, d][1..] == [b, c, d];
  }

  lemma Attributes5(a: Attribute, b: Attribute, c: Attribute, d: Attribute, e: Attribute)
    ensures RenderAttributes([a, b, c, d, e])
      == RenderAttribute(a) + (RenderAttribute(b) + (RenderAttribute(c) + (RenderAttribute(d) + RenderAttribute(e))))
    ensures AttributesRefs([a, b, c, d, e])
      == AttributeRefsOf(a) + (AttributeRefsOf(b) + (AttributeRefsOf(c) + (AttributeRefsOf(d) + AttributeRefsOf(e))))
    ensures (AttributeWellFormed(a) && AttributeWellFormed(b) && AttributeWellFormed(c) && AttributeWellFormed(d)
      && AttributeWellFormed(e)) ==> AttributesWellFormed([a, b, c, d, e])
  {
    Attributes4(b, c, d, e);
    assert [a, b, c, d, e][1..] == [b, c, d, e];
  }

  /** An attribute whose value is a reference. */
  lemma UrlAttribute(a: Attribute)
    requires a.assignment.Some? && Lower(a.name) in UrlAttributes
    ensures AttributeRefsOf(a) == [a.assignment.value.value.text]
  {
  }

  /** A path that does not open with a slash cannot be read as an authority. */
  lemma NoDoubleSlash(s: string)
    requires s != [] && s[0] != '/'
    ensures !StartsWith(s, "//")
  {
    if |s| >= 2 {
      assert s[..2][0] == s[0];
    }
  }

  /** An unquoted url argument with nothing after it. */
  lemma EmptyRight(t: string)
    ensures t + "" == t
  {
  }

  /** A well-formed attribute with a quoted value. */
  lemma QuotedAttributeWellFormed(lead: string, name: string, before: string, after: string, q: char, t: string)
    requires lead != [] && AllWs(lead) && name != [] && NoneIn(name, AttributeNameStop)
    requires AllWs(before) && AllWs(after) && IsQuote(q) && q !in t
    ensures AttributeWellFormed(Attribute(lead, name, Some(Assignment(before, after, QuotedValue(q, t)))))
  {
  }

  /** A well-formed attribute with an unquoted value. */
  lemma BareAttributeWellFormed(lead: string, name: string, before: string, after: string, t: string)
    requires lead != [] && AllWs(lead) && name != [] && NoneIn(name, AttributeNameStop)
    requires AllWs(before) && AllWs(after) && t != [] && !IsQuote(t[0]) && NoneIn(t, BareValueStop)
    ensures AttributeWellFormed(Attribute(lead, name, Some(Assignment(before, after, BareValue(t)))))
  {
  }

  /** A well-formed attribute without a value. */
  lemma NamedAttributeWellFormed(lead: string, name: string)
    requires lead != [] && AllWs(lead) && name != [] && NoneIn(name, AttributeNameStop)
    ensures AttributeWellFormed(Attribute(lead, name, None))
  {
  }

  /** An attribute that carries no reference. */
  lemma OtherAttribute(a: Attribute)
    requires Lower(a.name) !in UrlAttributes && Lower(a.name) != "style"
    ensures AttributeRefsOf(a) == []
  {
  }

  /** A style attribute: the references of its value read as CSS. */
  lemma StyleAttribute(a: Attribute)
    requires a.assignment.Some? && Lower(a.name) == "style"
    ensures AttributeRefsOf(a) == CssScanner.ScanCss(a.assignment.value.value.text)
  {
  }

  // ---------------------------------------------------------------------------
  // Style sheets written out item by item

  lemma Sheet1(a: CssScanner.Item)
    ensures CssScanner.RenderCss([a]) == CssScanner.RenderItem(a)
    ensures CssScanner.CssRefs([a]) == CssScanner.ItemRefs(a)
  {
    assert [a][1..] == [];
  }

  lemma Sheet2(a: CssScanner.Item, b: CssScanner.Item)
    ensures CssScanner.RenderCss([a, b]) == CssScanner.RenderItem(a) + CssScanner.RenderItem(b)
    ensures CssScanner.CssRefs([a, b]) == CssScanner.ItemRefs(a) + CssScanner.ItemRefs(b)
  {
    Sheet1(b);
    assert [a, b][1..] == [b];
  }

  lemma Sheet3(a: CssScanner.Item, b: CssScanner.Item, c: CssScanner.Item)
    ensures CssScanner.RenderCss([a, b, c])
      == CssScanner.RenderItem(a) + (CssScanner.RenderItem(b) + CssScanner.RenderItem(c))
    ensures CssScanner.CssRefs([a, b, c])
      == CssScanner.ItemRefs(a) + (CssScanner.ItemRefs(b) + CssScanner.ItemRefs(c))
  {
    Sheet2(b, c);
    assert [a, b, c][1..] == [b, c];
  }

  lemma Sheet4(a: CssScanner.Item, b: CssScanner.Item, c: CssScanner.Item, d: CssScanner.Item)
    ensures CssScanner.RenderCss([a, b, c, d])
      == CssScanner.RenderItem(a) + (CssScanner.RenderItem(b) + (CssScanner.RenderItem(c) + CssScanner.RenderItem(d)))
    ensures CssScanner.CssRefs([a, b, c, d])
      == CssScanner.ItemRefs(a) + (CssScanner.ItemRefs(b) + (CssScanner.ItemRefs(c) + CssScanner.ItemRefs(d)))
  {
    Sheet3(b, c, d);
    assert [a, b, c, d][1..] == [b, c, d];
  }

  /** Two items may follow each other unless both are plain text, and a bare keyword needs a url after it. */
  lemma SheetWellFormed2(a: CssScanner.Item, b: CssScanner.Item)
    requires CssScanner.ItemWellFormed(a) && CssScanner.ItemWellFormed(b)
    requires CssScanner.Adjacent(a, b) && !b.ImportKeyword?
    ensures CssScanner.WellFormed([a, b])
  {
  }

  lemma SheetWellFormed3(a: CssScanner.Item, b: CssScanner.Item, c: CssScanner.Item)
    requires CssScanner.ItemWellFormed(a) && CssScanner.ItemWellFormed(b) && CssScanner.ItemWellFormed(c)
    requires CssScanner.Adjacent(a, b) && CssScanner.Adjacent(b, c) && !c.ImportKeyword?
    ensures CssScanner.WellFormed([a, b, c])
  {
  }

  lemma SheetWellFormed4(a: CssScanner.Item, b: CssScanner.Item, c: CssScanner.Item, d: CssScanner.Item)
    requires CssScanner.ItemWellFormed(a) && CssScanner.ItemWellFormed(b)
    requires CssScanner.ItemWellFormed(c) && CssScanner.ItemWellFormed(d)
    requires CssScanner.Adjacent(a, b) && CssScanner.Adjacent(b, c) && CssScanner.Adjacent(c, d) && !d.ImportKeyword?
    ensures CssScanner.WellFormed([a, b, c, d])
  {
  }

  lemma UrlOpener()
    ensures Lower("url(") == "url("
  {
  }

  lemma ImportOpener()
    ensures Lower("@import") == "@import"
  {
  }

  /** A '(' after a space cannot open a url. */
  lemma ParenAfterSpace(a: string, b: string)
    requires '(' !in a && '(' !in b && a != [] && a[|a| - 1] == ' '
    ensures CssScanner.NoUrlOpen(a + "(" + b)
  {
    var t := a + "(" + b;
    forall i | 0 < i < |t| && t[i] == '('
      ensures LowerChar(t[i - 1]) != 'l'
    {
      if i < |a| {
        assert false;
      } else if i > |a| {
        assert false;
      } else {
        assert t[i - 1] == a[|a| - 1];
      }
    }
  }

  /** Text with no '(' cannot open a url. */
  lemma NoParen(t: string)
    requires '(' !in t
    ensures CssScanner.NoUrlOpen(t)
  {
    assert forall i :: 0 <= i < |t| ==> t[i] != '(';
  }
}
