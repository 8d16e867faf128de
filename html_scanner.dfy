/**
 * The HTML side of the URL extractor. The scanner walks the markup once:
 * comments are skipped whole, a start tag yields the values of its
 * URL-carrying attributes and the CSS references of its `style` attribute,
 * and the body of a `<style>` element is handed to the CSS scanner. Tag and
 * attribute names are compared without regard to ASCII case; attribute
 * values may be single-quoted, double-quoted or bare (a bare value ends at
 * whitespace or '>'), and whitespace is allowed around '='.
 *
 * The second half describes documents as node sequences and proves that the
 * scanner yields exactly the references of any well-formed document.
 */
module HtmlScanner {
  import opened Wrappers
  import opened Text
  import CssScanner

  /** The attributes whose value is itself a reference. */
  const UrlAttributes: set<string> := {"href", "src", "longdesc", "poster", "cite", "codebase", "classid"}

  const WsChars: set<char> := {' ', '\t', '\n', '\r', '\U{000C}'}
  const TagNameStop: set<char> := WsChars + {'/', '>'}
  const AttributeNameStop: set<char> := WsChars + {'/', '>', '='}
  const BareValueStop: set<char> := WsChars + {'>'}

  lemma WsCharsAreWs(c: char)
    ensures c in WsChars <==> IsWs(c)
  {
  }

  /** What one attribute contributes: its value for a URL attribute, the CSS references of a style attribute. */
  function AttributeRefs(name: string, value: string): seq<string> {
    var n := Lower(name);
    if n in UrlAttributes then [value]
    else if n == "style" then CssScanner.ScanCss(value)
    else []
  }

  /** A quoted value runs to the matching quote, a bare one to whitespace or '>'; also returns what follows. */
  function AttributeValue(x: string): (r: (string, string))
    ensures |r.1| <= |x|
  {
    var y := x[SkipWs(x)..];
    if y != [] && IsQuote(y[0]) then
      var body := y[1..];
      var k := Find(body, {y[0]});
      (body[..k], if k < |body| then body[k + 1..] else [])
    else
      var k := Find(y, BareValueStop);
      (y[..k], y[k..])
  }

  /** The references in the attribute list of a start tag, and the text after the tag's '>'. */
  function ScanAttributes(s: string): (r: (seq<string>, string))
    ensures |r.1| <= |s|
    decreases |s|, 1
  {
    ScanAttributesAt(s[SkipWs(s)..])
  }

  /** ScanAttributes once the whitespace in front of the next attribute has been skipped. */
  function ScanAttributesAt(t: string): (r: (seq<string>, string))
    ensures |r.1| <= |t|
    decreases |t|, 0
  {
    if t == [] then ([], [])
    else if t[0] == '>' then ([], t[1..])
    else if t[0] == '/' then ScanAttributes(t[1..])
    else
      var n := 1 + Find(t[1..], AttributeNameStop);
      var u := t[n..];
      var v := u[SkipWs(u)..];
      if v != [] && v[0] == '=' then
        var a := AttributeValue(v[1..]);
        var rest := ScanAttributes(a.1);
        (AttributeRefs(t[..n], a.0) + rest.0, rest.1)
      else ScanAttributes(v)
  }

  /** The text after the first "-->", or nothing when the comment is never closed. */
  function AfterComment(t: string): (r: string)
    ensures |r| <= |t|
  {
    if t == [] then []
    else if StartsWith(t, "-->") then t[3..]
    else AfterComment(t[1..])
  }

  /** Where the first "</style" (in any case) begins, or |t|. */
  function StyleEnd(t: string): (r: nat)
    ensures r <= |t|
  {
    if t == [] then 0
    else if StartsWithCI(t, "</style") then 0
    else 1 + StyleEnd(t[1..])
  }

  /** The raw references of an HTML document, in document order. */
  function ScanHtml(s: string): seq<string>
    decreases |s|
  {
    if s == [] then []
    else if StartsWith(s, "<!--") then ScanHtml(AfterComment(s[4..]))
    else if s[0] == '<' && |s| > 1 && IsAlpha(s[1]) then
      var n := 1 + Find(s[1..], TagNameStop);
      var a := ScanAttributes(s[n..]);
      if Lower(s[1..n]) == "style" then
        var e := StyleEnd(a.1);
        a.0 + CssScanner.ScanCss(a.1[..e]) + ScanHtml(a.1[e..])
      else a.0 + ScanHtml(a.1)
    else ScanHtml(s[1..])
  }

  // ---------------------------------------------------------------------------
  // Documents as node sequences

  datatype Value = QuotedValue(quote: char, text: string) | BareValue(text: string)

  /** `before` '=' `after` value, where before and after are whitespace. */
  datatype Assignment = Assignment(before: string, after: string, value: Value)

  /** Leading whitespace, the name and, optionally, a value. */
  datatype Attribute = Attribute(lead: string, name: string, assignment: Option<Assignment>)

  datatype Node =
    | Text(text: string)
    | Comment(body: string)
    | Element(name: string, attributes: seq<Attribute>, selfClosing: bool)
    | EndTag(name: string)
    | StyleBlock(name: string, attributes: seq<Attribute>, css: seq<CssScanner.Item>, closeName: string)

  function RenderValue(v: Value): string {
    match v
    case QuotedValue(q, t) => [q] + t + [q]
    case BareValue(t) => t
  }

  function RenderAttribute(a: Attribute): string {
    a.lead + (a.name + (
      if a.assignment.Some? then
        a.assignment.value.before + ("=" + (a.assignment.value.after + RenderValue(a.assignment.value.value)))
      else ""))
  }

  function RenderAttributes(attrs: seq<Attribute>): string {
    if attrs == [] then [] else RenderAttribute(attrs[0]) + RenderAttributes(attrs[1..])
  }

  function TagClose(selfClosing: bool): string {
    if selfClosing then " />" else ">"
  }

  function RenderNode(n: Node): string {
    match n
    case Text(t) => t
    case Comment(b) => "<!--" + (b + "-->")
    case Element(name, attrs, sc) => "<" + (name + (RenderAttributes(attrs) + TagClose(sc)))
    case EndTag(name) => "<" + ("/" + (name + ">"))
    case StyleBlock(name, attrs, css, close) =>
      "<" + (name + (RenderAttributes(attrs) + (">" + (CssScanner.RenderCss(css) + ("<" + ("/" + (close + ">")))))))
  }

  function RenderHtml(nodes: seq<Node>): string {
    if nodes == [] then [] else RenderNode(nodes[0]) + RenderHtml(nodes[1..])
  }

  function AttributeRefsOf(a: Attribute): seq<string> {
    if a.assignment.Some? then AttributeRefs(a.name, a.assignment.value.value.text) else []
  }

  function AttributesRefs(attrs: seq<Attribute>): seq<string> {
    if attrs == [] then [] else AttributeRefsOf(attrs[0]) + AttributesRefs(attrs[1..])
  }

  function NodeRefs(n: Node): seq<string> {
    match n
    case Text(_) => []
    case Comment(_) => []
    case Element(_, attrs, _) => AttributesRefs(attrs)
    case EndTag(_) => []
    case StyleBlock(_, attrs, css, _) => AttributesRefs(attrs) + CssScanner.CssRefs(css)
  }

  function HtmlRefs(nodes: seq<Node>): seq<string> {
    if nodes == [] then [] else NodeRefs(nodes[0]) + HtmlRefs(nodes[1..])
  }

  /** No "-->" occurs in the comment body. */
  predicate NoCommentClose(b: string) {
    forall i :: 0 <= i < |b| - 2 ==> !(b[i] == '-' && b[i + 1] == '-' && b[i + 2] == '>')
  }

  predicate ValueWellFormed(v: Value) {
    match v
    case QuotedValue(q, t) => IsQuote(q) && q !in t
    case BareValue(t) => t != [] && !IsQuote(t[0]) && NoneIn(t, BareValueStop)
  }

  predicate AttributeWellFormed(a: Attribute) {
    && a.lead != [] && AllWs(a.lead)
    && a.name != [] && NoneIn(a.name, AttributeNameStop)
    && (a.assignment.Some? ==>
          AllWs(a.assignment.value.before) && AllWs(a.assignment.value.after) && ValueWellFormed(a.assignment.value.value))
  }

  predicate AttributesWellFormed(attrs: seq<Attribute>) {
    forall i :: 0 <= i < |attrs| ==> AttributeWellFormed(attrs[i])
  }

  predicate TagNameWellFormed(name: string) {
    name != [] && IsAlpha(name[0]) && NoneIn(name, TagNameStop)
  }

  predicate NodeWellFormed(n: Node) {
    match n
    case Text(t) => '<' !in t
    case Comment(b) => NoCommentClose(b)
    case Element(name, attrs, _) => TagNameWellFormed(name) && Lower(name) != "style" && AttributesWellFormed(attrs)
    case EndTag(name) => '<' !in name
    case StyleBlock(name, attrs, css, close) =>
      && TagNameWellFormed(name) && Lower(name) == "style" && AttributesWellFormed(attrs)
      && CssScanner.WellFormed(css) && '<' !in CssScanner.RenderCss(css)
      && Lower(close) == "style"
  }

  predicate WellFormed(nodes: seq<Node>) {
    forall i :: 0 <= i < |nodes| ==> NodeWellFormed(nodes[i])
  }

  // ---------------------------------------------------------------------------
  // Scanning a rendered document

  lemma ScanSkip(s: string)
    requires s != [] && s[0] != '<'
    ensures ScanHtml(s) == ScanHtml(s[1..])
  {
    assert !StartsWith(s, "<!--") by {
      if |s| >= 4 { assert s[..4][0] == s[0]; }
    }
  }

  /** Text without '<' is skipped character by character. */
  lemma {:induction false} ScanText(t: string, rest: string)
    requires '<' !in t
    ensures ScanHtml(t + rest) == ScanHtml(rest)
    decreases |t|
  {
    if t == [] {
      AppendNil(rest);
    } else {
      var s := t + rest;
      assert s[0] == t[0] && t[0] in t;
      ScanSkip(s);
      DropAppend(t, rest, 1);
      assert '<' !in t[1..] by {
        assert forall i :: 0 <= i < |t[1..]| ==> t[1..][i] == t[i + 1];
      }
      ScanText(t[1..], rest);
    }
  }

  lemma {:induction false} AfterCommentClose(b: string, rest: string)
    requires NoCommentClose(b)
    ensures AfterComment(b + ("-->" + rest)) == rest
    decreases |b|
  {
    var s := b + ("-->" + rest);
    if b == [] {
      assert s[..3] == "-->";
      assert s[3..] == rest;
    } else {
      assert !StartsWith(s, "-->") by {
        if |b| >= 3 {
          assert s[..3] == b[..3];
          assert !(b[0] == '-' && b[1] == '-' && b[2] == '>');
          assert b[..3][0] == b[0] && b[..3][1] == b[1] && b[..3][2] == b[2];
        } else {
          assert s[2] == '-';
          assert s[..3][2] == '-';
        }
      }
      assert s[1..] == b[1..] + ("-->" + rest);
      assert NoCommentClose(b[1..]) by {
        forall i | 0 <= i < |b[1..]| - 2
          ensures !(b[1..][i] == '-' && b[1..][i + 1] == '-' && b[1..][i + 2] == '>')
        {
          assert b[1..][i] == b[i + 1] && b[1..][i + 1] == b[i + 2] && b[1..][i + 2] == b[i + 3];
        }
      }
      AfterCommentClose(b[1..], rest);
    }
  }

  /** A sufficient condition for a well-formed comment body. */
  lemma NoCommentCloseIntro(b: string)
    requires '-' !in b || '>' !in b
    ensures NoCommentClose(b)
  {
  }

  lemma ScanComment(b: string, rest: string)
    requires NoCommentClose(b)
    ensures ScanHtml("<!--" + (b + "-->") + rest) == ScanHtml(rest)
  {
    var s := "<!--" + (b + "-->") + rest;
    assert s[..4] == "<!--";
    assert s[4..] == b + ("-->" + rest);
    AfterCommentClose(b, rest);
  }

  lemma ScanEndTag(name: string, rest: string)
    requires '<' !in name
    ensures ScanHtml("<" + ("/" + (name + ">")) + rest) == ScanHtml(rest)
  {
    var s := "<" + ("/" + (name + ">")) + rest;
    assert s[1] == '/';
    assert !StartsWith(s, "<!--");
    assert s[1..] == ("/" + name + ">") + rest;
    ScanText("/" + name + ">", rest);
  }

  /** ScanAttributes skips leading whitespace itself. */
  lemma ScanAttributesSkipsWs(s: string)
    ensures ScanAttributes(s[SkipWs(s)..]) == ScanAttributes(s)
  {
    var t := s[SkipWs(s)..];
    assert SkipWs(t) == 0;
    assert t[0..] == t;
  }

  lemma ScanClose(sc: bool, rest: string)
    ensures ScanAttributes(TagClose(sc) + rest) == ([], rest)
  {
    if sc {
      var s := " />" + rest;
      assert s[0] == ' ' && s[1] == '/';
      assert SkipWs(s) == 1;
      assert s[1..] == "/>" + rest;
      assert s[1..][1..] == ">" + rest;
      assert SkipWs(">" + rest) == 0;
      assert ScanAttributes(s) == ScanAttributesAt(s[1..]);
      assert ScanAttributesAt(s[1..]) == ScanAttributes(">" + rest);
      assert ScanAttributes(">" + rest) == ScanAttributesAt(">" + rest);
      assert (">" + rest)[1..] == rest;
    } else {
      assert SkipWs(">" + rest) == 0;
      assert (">" + rest)[1..] == rest;
    }
  }

  /** What follows an attribute: another attribute (whitespace first) or the tag's end, never a stray '='. */
  predicate AttributeFollower(rest: string) {
    rest == [] ||
      ((rest[0] in WsChars || rest[0] == '>') && (SkipWs(rest) == |rest| || rest[SkipWs(rest)] != '='))
  }

  lemma RenderAttributesFollower(attrs: seq<Attribute>, sc: bool, rest: string)
    requires AttributesWellFormed(attrs)
    ensures AttributeFollower(RenderAttributes(attrs) + (TagClose(sc) + rest))
  {
    if attrs != [] {
      var tail := RenderAttributes(attrs[1..]) + (TagClose(sc) + rest);
      assert AttributeWellFormed(attrs[0]);
      AttributeStartsFollower(attrs[0], tail);
      Assoc(RenderAttribute(attrs[0]), RenderAttributes(attrs[1..]), TagClose(sc) + rest);
    } else {
      CloseFollower(sc, rest);
    }
  }

  /** A rendered attribute opens with whitespace and then a name character. */
  lemma AttributeStartsFollower(a: Attribute, tail: string)
    requires AttributeWellFormed(a)
    ensures AttributeFollower(RenderAttribute(a) + tail)
  {
    var v := if a.assignment.Some? then
        a.assignment.value.before + ("=" + (a.assignment.value.after + RenderValue(a.assignment.value.value)))
      else "";
    var x := a.name + (v + tail);
    var r := RenderAttribute(a) + tail;
    assert r == a.lead + x;
    assert x[0] == a.name[0];
    WsCharsAreWs(a.name[0]);
    SkipWsAppend(a.lead, x);
    assert r[|a.lead|] == x[0];
    WsCharsAreWs(a.lead[0]);
  }

  /** The tag's end follows the last attribute. */
  lemma CloseFollower(sc: bool, rest: string)
    ensures AttributeFollower(TagClose(sc) + rest)
  {
    var r := TagClose(sc) + rest;
    if sc {
      assert r[0] == ' ' && r[1] == '/';
      assert SkipWs(r) == 1;
    } else {
      assert r[0] == '>';
    }
  }

  lemma ScanValue(v: Value, after: string, rest: string)
    requires AllWs(after) && ValueWellFormed(v) && AttributeFollower(rest)
    ensures AttributeValue(after + (RenderValue(v) + rest)) == (v.text, rest)
  {
    var w := RenderValue(v) + rest;
    assert w[0] == RenderValue(v)[0];
    WsCharsAreWs(w[0]);
    SkipWsAppend(after, w);
    assert (after + w)[|after|..] == w;
    if v.QuotedValue? {
      ScanQuotedValue(v.quote, v.text, rest);
    } else {
      ScanBareValue(v.text, rest);
    }
  }

  lemma ScanQuotedValue(q: char, t: string, rest: string)
    requires IsQuote(q) && q !in t
    ensures var w := [q] + t + [q] + rest;
      var body := w[1..];
      Find(body, {q}) == |t| && body[..|t|] == t && body[|t| + 1..] == rest
  {
    var w := [q] + t + [q] + rest;
    var body := w[1..];
    assert body == t + ([q] + rest);
    NoneInIntro(t, {q});
    FindAppend(t, [q] + rest, {q});
    assert body[..|t|] == t;
    assert body[|t| + 1..] == rest;
  }

  lemma ScanBareValue(t: string, rest: string)
    requires t != [] && NoneIn(t, BareValueStop) && AttributeFollower(rest)
    ensures Find(t + rest, BareValueStop) == |t| && (t + rest)[..|t|] == t && (t + rest)[|t|..] == rest
  {
    FindAppend(t, rest, BareValueStop);
  }

  /** An attribute's name is read up to whitespace, '/', '>' or '='. */
  lemma ScanAttributeName(a: Attribute, tail: string)
    requires AttributeWellFormed(a)
    requires tail == [] || tail[0] in AttributeNameStop
    ensures var s := a.lead + (a.name + tail);
      var t := s[SkipWs(s)..];
      && t == a.name + tail && t != [] && t[0] != '>' && t[0] != '/'
      && 1 + Find(t[1..], AttributeNameStop) == |a.name|
  {
    var t := a.name + tail;
    var s := a.lead + t;
    assert t[0] == a.name[0];
    WsCharsAreWs(t[0]);
    SkipWsAppend(a.lead, t);
    assert s[|a.lead|..] == t;
    assert t[1..] == a.name[1..] + tail;
    FindAppend(a.name[1..], tail, AttributeNameStop);
  }

  lemma ScanOneAttribute(a: Attribute, rest: string)
    requires AttributeWellFormed(a) && AttributeFollower(rest)
    ensures ScanAttributes(RenderAttribute(a) + rest).0 == AttributeRefsOf(a) + ScanAttributes(rest).0
    ensures ScanAttributes(RenderAttribute(a) + rest).1 == ScanAttributes(rest).1
  {
    if a.assignment.Some? {
      ScanAssignedAttribute(a, rest);
    } else {
      ScanBareAttribute(a, rest);
    }
  }

  /** One step of ScanAttributes at an attribute name of length n. */
  lemma ScanAttributesAtName(s: string, t: string, n: nat)
    requires t == s[SkipWs(s)..] && t != [] && t[0] != '>' && t[0] != '/'
    requires n == 1 + Find(t[1..], AttributeNameStop)
    ensures var u := t[n..];
      var v := u[SkipWs(u)..];
      ScanAttributes(s) ==
        if v != [] && v[0] == '=' then
          (AttributeRefs(t[..n], AttributeValue(v[1..]).0) + ScanAttributes(AttributeValue(v[1..]).1).0,
           ScanAttributes(AttributeValue(v[1..]).1).1)
        else ScanAttributes(v)
  {
    assert ScanAttributes(s) == ScanAttributesAt(t);
  }

  lemma RenderAssignedAttribute(a: Attribute, rest: string)
    requires a.assignment.Some?
    ensures var asg := a.assignment.value;
      RenderAttribute(a) + rest
        == a.lead + (a.name + (asg.before + ("=" + (asg.after + (RenderValue(asg.value) + rest)))))
  {
  }

  lemma ScanAssignedAttribute(a: Attribute, rest: string)
    requires AttributeWellFormed(a) && AttributeFollower(rest) && a.assignment.Some?
    ensures ScanAttributes(RenderAttribute(a) + rest).0 == AttributeRefsOf(a) + ScanAttributes(rest).0
    ensures ScanAttributes(RenderAttribute(a) + rest).1 == ScanAttributes(rest).1
  {
    var asg := a.assignment.value;
    var w2 := asg.after + (RenderValue(asg.value) + rest);
    var tail := asg.before + ("=" + w2);
    var s := a.lead + (a.name + tail);
    assert RenderAttribute(a) + rest == s by {
      RenderAssignedAttribute(a, rest);
    }
    assert tail[0] in AttributeNameStop by {
      if asg.before != [] {
        assert tail[0] == asg.before[0];
        WsCharsAreWs(asg.before[0]);
      } else {
        assert tail[0] == '=';
      }
    }
    ScanAttributeName(a, tail);
    var t := a.name + tail;
    var n := |a.name|;
    assert t[..n] == a.name && t[n..] == tail;
    assert ("=" + w2)[0] == '=';
    SkipWsAppend(asg.before, "=" + w2);
    var v := tail[SkipWs(tail)..];
    assert v == "=" + w2;
    assert v[1..] == w2;
    ScanValue(asg.value, asg.after, rest);
    ScanAttributesAtName(s, t, n);
  }

  lemma ScanBareAttribute(a: Attribute, rest: string)
    requires AttributeWellFormed(a) && AttributeFollower(rest) && a.assignment.None?
    ensures ScanAttributes(RenderAttribute(a) + rest).0 == AttributeRefsOf(a) + ScanAttributes(rest).0
    ensures ScanAttributes(RenderAttribute(a) + rest).1 == ScanAttributes(rest).1
  {
    var s := a.lead + (a.name + rest);
    AppendNil(a.name);
    Assoc(a.lead, a.name, rest);
    assert RenderAttribute(a) + rest == s;
    ScanAttributeName(a, rest);
    var t := a.name + rest;
    var n := |a.name|;
    DropPrefix(a.name, rest, 0);
    var v := rest[SkipWs(rest)..];
    assert v != [] ==> v[0] == rest[SkipWs(rest)];
    ScanAttributesAtName(s, t, n);
    assert ScanAttributes(s) == ScanAttributes(v);
    ScanAttributesSkipsWs(rest);
    AppendNil(ScanAttributes(rest).0);
  }

  lemma ScanAttributeList(attrs: seq<Attribute>, sc: bool, rest: string)
    requires AttributesWellFormed(attrs)
    ensures ScanAttributes(RenderAttributes(attrs) + (TagClose(sc) + rest)) == (AttributesRefs(attrs), rest)
    decreases |attrs|
  {
    if attrs == [] {
      assert RenderAttributes(attrs) + (TagClose(sc) + rest) == TagClose(sc) + rest;
      ScanClose(sc, rest);
    } else {
      var more := RenderAttributes(attrs[1..]) + (TagClose(sc) + rest);
      assert RenderAttributes(attrs) + (TagClose(sc) + rest) == RenderAttribute(attrs[0]) + more;
      assert AttributesWellFormed(attrs[1..]) by {
        assert forall i :: 0 <= i < |attrs[1..]| ==> attrs[1..][i] == attrs[i + 1];
      }
      assert AttributeWellFormed(attrs[0]);
      RenderAttributesFollower(attrs[1..], sc, rest);
      ScanOneAttribute(attrs[0], more);
      ScanAttributeList(attrs[1..], sc, rest);
    }
  }

  /** The opening "<name" of a start tag: the name is read up to the attribute list. */
  lemma ScanTagName(name: string, tail: string)
    requires TagNameWellFormed(name)
    requires tail == [] || tail[0] in WsChars || tail[0] == '>'
    ensures var s := "<" + (name + tail);
      && !StartsWith(s, "<!--") && s[0] == '<' && |s| > 1 && IsAlpha(s[1])
      && 1 + Find(s[1..], TagNameStop) == 1 + |name|
      && s[1..1 + |name|] == name && s[1 + |name|..] == tail
  {
    var s := "<" + (name + tail);
    assert s[1] == name[0];
    assert s[1..] == name + tail;
    FindAppend(name, tail, TagNameStop);
    assert (name + tail)[..|name|] == name;
  }

  lemma ScanElement(name: string, attrs: seq<Attribute>, sc: bool, rest: string)
    requires TagNameWellFormed(name) && Lower(name) != "style" && AttributesWellFormed(attrs)
    ensures ScanHtml("<" + (name + (RenderAttributes(attrs) + TagClose(sc))) + rest)
      == AttributesRefs(attrs) + ScanHtml(rest)
  {
    var tail := RenderAttributes(attrs) + (TagClose(sc) + rest);
    assert "<" + (name + (RenderAttributes(attrs) + TagClose(sc))) + rest == "<" + (name + tail);
    RenderAttributesFollower(attrs, sc, rest);
    ScanTagName(name, tail);
    ScanHtmlAtElement("<" + (name + tail), 1 + |name|);
    ScanAttributeList(attrs, sc, rest);
  }

  /** The end tag of a style element, in any case. */
  function StyleClose(close: string): string {
    "<" + ("/" + (close + ">"))
  }

  lemma StyleCloseMatches(close: string, rest: string)
    requires Lower(close) == "style"
    ensures StartsWithCI(StyleClose(close) + rest, "</style")
  {
    var e := StyleClose(close) + rest;
    assert e[..7] == "</" + close;
    LowerAppend("</", close);
  }

  lemma {:induction false} StyleEndAt(css: string, close: string, rest: string)
    requires '<' !in css && Lower(close) == "style"
    ensures StyleEnd(css + (StyleClose(close) + rest)) == |css|
    decreases |css|
  {
    var s := css + (StyleClose(close) + rest);
    if css == [] {
      assert s == StyleClose(close) + rest;
      StyleCloseMatches(close, rest);
    } else {
      assert s[0] == css[0] && css[0] in css;
      assert !StartsWithCI(s, "</style") by {
        assert |s| >= 7 ==> Lower(s[..7])[0] == LowerChar(s[0]);
      }
      assert s[1..] == css[1..] + (StyleClose(close) + rest);
      assert '<' !in css[1..] by {
        assert forall i :: 0 <= i < |css[1..]| ==> css[1..][i] == css[i + 1];
      }
      StyleEndAt(css[1..], close, rest);
    }
  }

  /** One step of ScanHtml at a start tag whose name ends at n: an ordinary element ... */
  lemma ScanHtmlAtElement(s: string, n: nat)
    requires s != [] && !StartsWith(s, "<!--") && s[0] == '<' && |s| > 1 && IsAlpha(s[1])
    requires n == 1 + Find(s[1..], TagNameStop) && Lower(s[1..n]) != "style"
    ensures ScanHtml(s) == ScanAttributes(s[n..]).0 + ScanHtml(ScanAttributes(s[n..]).1)
  {
  }

  /** ... and a style element, whose body up to the end tag is a style sheet. */
  lemma ScanHtmlAtStyle(s: string, n: nat)
    requires s != [] && !StartsWith(s, "<!--") && s[0] == '<' && |s| > 1 && IsAlpha(s[1])
    requires n == 1 + Find(s[1..], TagNameStop) && Lower(s[1..n]) == "style"
    ensures var a := ScanAttributes(s[n..]);
      ScanHtml(s) == a.0 + CssScanner.ScanCss(a.1[..StyleEnd(a.1)]) + ScanHtml(a.1[StyleEnd(a.1)..])
  {
  }

  /** A character that is not an upper-case letter and is missing from Lower(s) is missing from s. */
  lemma LowerExcludes(s: string, c: char)
    requires c !in Lower(s) && !('A' <= c <= 'Z')
    ensures c !in s
  {
    forall i | 0 <= i < |s| ensures s[i] != c {
      assert Lower(s)[i] in Lower(s);
    }
  }

  /** The start tag of a style element: its attributes, then the style sheet up to the end tag. */
  lemma ScanStyleHead(name: string, attrs: seq<Attribute>, after: string)
    requires TagNameWellFormed(name) && Lower(name) == "style" && AttributesWellFormed(attrs)
    ensures var e := StyleEnd(after);
      ScanHtml("<" + (name + (RenderAttributes(attrs) + (TagClose(false) + after))))
      == AttributesRefs(attrs) + (CssScanner.ScanCss(after[..e]) + ScanHtml(after[e..]))
  {
    var tail := RenderAttributes(attrs) + (TagClose(false) + after);
    RenderAttributesFollower(attrs, false, after);
    ScanTagName(name, tail);
    ScanHtmlAtStyle("<" + (name + tail), 1 + |name|);
    ScanAttributeList(attrs, false, after);
    var e := StyleEnd(after);
    Assoc(AttributesRefs(attrs), CssScanner.ScanCss(after[..e]), ScanHtml(after[e..]));
  }

  /** The body of a style element and its end tag. */
  lemma ScanStyleBody(css: seq<CssScanner.Item>, close: string, rest: string)
    requires CssScanner.WellFormed(css) && '<' !in CssScanner.RenderCss(css) && Lower(close) == "style"
    ensures var after := CssScanner.RenderCss(css) + (StyleClose(close) + rest);
      var e := StyleEnd(after);
      CssScanner.ScanCss(after[..e]) + ScanHtml(after[e..]) == CssScanner.CssRefs(css) + ScanHtml(rest)
  {
    var text := CssScanner.RenderCss(css);
    var after := text + (StyleClose(close) + rest);
    StyleEndAt(text, close, rest);
    assert after[..|text|] == text;
    assert after[|text|..] == StyleClose(close) + rest;
    CssScanner.ScanRenderCss(css);
    LowerExcludes(close, '<');
    ScanEndTag(close, rest);
  }

  lemma ScanStyleBlock(name: string, attrs: seq<Attribute>, css: seq<CssScanner.Item>, close: string, rest: string)
    requires NodeWellFormed(StyleBlock(name, attrs, css, close))
    ensures ScanHtml(RenderNode(StyleBlock(name, attrs, css, close)) + rest)
      == AttributesRefs(attrs) + CssScanner.CssRefs(css) + ScanHtml(rest)
  {
    var text, endTag, ra := CssScanner.RenderCss(css), StyleClose(close), RenderAttributes(attrs);
    var after := text + (endTag + rest);
    Assoc(text, endTag, rest);
    Assoc(">", text + endTag, rest);
    Assoc(ra, ">" + (text + endTag), rest);
    Assoc(name, ra + (">" + (text + endTag)), rest);
    Assoc("<", name + (ra + (">" + (text + endTag))), rest);
    assert RenderNode(StyleBlock(name, attrs, css, close)) + rest
      == "<" + (name + (ra + (TagClose(false) + after)));
    ScanStyleHead(name, attrs, after);
    ScanStyleBody(css, close, rest);
    Assoc(AttributesRefs(attrs), CssScanner.CssRefs(css), ScanHtml(rest));
  }

  lemma ScanNode(n: Node, rest: string)
    requires NodeWellFormed(n)
    ensures ScanHtml(RenderNode(n) + rest) == NodeRefs(n) + ScanHtml(rest)
  {
    match n
    case Text(t) => ScanText(t, rest);
    case Comment(b) => ScanComment(b, rest);
    case Element(name, attrs, sc) => ScanElement(name, attrs, sc, rest);
    case EndTag(name) => ScanEndTag(name, rest);
    case StyleBlock(name, attrs, css, close) => ScanStyleBlock(name, attrs, css, close, rest);
  }

  /** The scanner finds the references of a well-formed document, and only those. */
  lemma {:induction false} ScanRenderHtml(nodes: seq<Node>)
    requires WellFormed(nodes)
    ensures ScanHtml(RenderHtml(nodes)) == HtmlRefs(nodes)
    decreases |nodes|
  {
    if nodes != [] {
      assert NodeWellFormed(nodes[0]);
      assert WellFormed(nodes[1..]) by {
        assert forall i :: 0 <= i < |nodes[1..]| ==> nodes[1..][i] == nodes[i + 1];
      }
      ScanNode(nodes[0], RenderHtml(nodes[1..]));
      ScanRenderHtml(nodes[1..]);
    }
  }
}
