/**
 * The HTML cases tabled in the extractor's unit tests, each proved for the
 * test page http://example.org/blog/my-first-blog-post: every document is
 * written out node by node, its raw references are found by the scanner,
 * each reference is resolved, and the extracted list is computed.
 */
module HtmlCases {
  import opened Wrappers
  import opened Text
  import opened Uri
  import opened UrlExtractor
  import opened HtmlScanner
  import opened ExtractorTargets
  import opened CaseKit
  import CssScanner

  lemma AttributeCLASSID()
    ensures NoneIn("CLASSID", AttributeNameStop) && Lower("CLASSID") == "classid" && "classid" in UrlAttributes
  {
    NoneInIntro("CLASSID", AttributeNameStop);
  }

  lemma AttributeCODETYPE()
    ensures NoneIn("CODETYPE", AttributeNameStop) && Lower("CODETYPE") == "codetype" && "codetype" !in UrlAttributes && "codetype" != "style"
  {
    NoneInIntro("CODETYPE", AttributeNameStop);
  }

  lemma AttributeHRef()
    ensures NoneIn("HRef", AttributeNameStop) && Lower("HRef") == "href" && "href" in UrlAttributes
  {
    NoneInIntro("HRef", AttributeNameStop);
  }

  lemma AttributeSTYLE()
    ensures NoneIn("STYLE", AttributeNameStop) && Lower("STYLE") == "style"
  {
    NoneInIntro("STYLE", AttributeNameStop);
  }

  lemma AttributeTITLE()
    ensures NoneIn("TITLE", AttributeNameStop) && Lower("TITLE") == "title" && "title" !in UrlAttributes && "title" != "style"
  {
    NoneInIntro("TITLE", AttributeNameStop);
  }

  lemma AttributeAlt()
    ensures NoneIn("alt", AttributeNameStop) && Lower("alt") == "alt" && "alt" !in UrlAttributes && "alt" != "style"
  {
    NoneInIntro("alt", AttributeNameStop);
  }

  lemma AttributeCite()
    ensures NoneIn("cite", AttributeNameStop) && Lower("cite") == "cite" && "cite" in UrlAttributes
  {
    NoneInIntro("cite", AttributeNameStop);
  }

  lemma AttributeClassid()
    ensures NoneIn("classid", AttributeNameStop) && Lower("classid") == "classid" && "classid" in UrlAttributes
  {
    NoneInIntro("classid", AttributeNameStop);
  }

  lemma AttributeCodebase()
    ensures NoneIn("codebase", AttributeNameStop) && Lower("codebase") == "codebase" && "codebase" in UrlAttributes
  {
    NoneInIntro("codebase", AttributeNameStop);
  }

  lemma AttributeControls()
    ensures NoneIn("controls", AttributeNameStop) && Lower("controls") == "controls" && "controls" !in UrlAttributes && "controls" != "style"
  {
    NoneInIntro("controls", AttributeNameStop);
  }

  lemma AttributeCoords()
    ensures NoneIn("coords", AttributeNameStop) && Lower("coords") == "coords" && "coords" !in UrlAttributes && "coords" != "style"
  {
    NoneInIntro("coords", AttributeNameStop);
  }

  lemma AttributeHref()
    ensures NoneIn("href", AttributeNameStop) && Lower("href") == "href" && "href" in UrlAttributes
  {
    NoneInIntro("href", AttributeNameStop);
  }

  lemma AttributeId()
    ensures NoneIn("id", AttributeNameStop) && Lower("id") == "id" && "id" !in UrlAttributes && "id" != "style"
  {
    NoneInIntro("id", AttributeNameStop);
  }

  lemma AttributeLongdesc()
    ensures NoneIn("longdesc", AttributeNameStop) && Lower("longdesc") == "longdesc" && "longdesc" in UrlAttributes
  {
    NoneInIntro("longdesc", AttributeNameStop);
  }

  lemma AttributeMedia()
    ensures NoneIn("media", AttributeNameStop) && Lower("media") == "media" && "media" !in UrlAttributes && "media" != "style"
  {
    NoneInIntro("media", AttributeNameStop);
  }

  lemma AttributePoster()
    ensures NoneIn("poster", AttributeNameStop) && Lower("poster") == "poster" && "poster" in UrlAttributes
  {
    NoneInIntro("poster", AttributeNameStop);
  }

  lemma AttributeRel()
    ensures NoneIn("rel", AttributeNameStop) && Lower("rel") == "rel" && "rel" !in UrlAttributes && "rel" != "style"
  {
    NoneInIntro("rel", AttributeNameStop);
  }

  lemma AttributeShape()
    ensures NoneIn("shape", AttributeNameStop) && Lower("shape") == "shape" && "shape" !in UrlAttributes && "shape" != "style"
  {
    NoneInIntro("shape", AttributeNameStop);
  }

  lemma AttributeSrc()
    ensures NoneIn("src", AttributeNameStop) && Lower("src") == "src" && "src" in UrlAttributes
  {
    NoneInIntro("src", AttributeNameStop);
  }

  lemma AttributeStyle()
    ensures NoneIn("style", AttributeNameStop) && Lower("style") == "style"
  {
    NoneInIntro("style", AttributeNameStop);
  }

  lemma AttributeTest()
    ensures NoneIn("test", AttributeNameStop) && Lower("test") == "test" && "test" !in UrlAttributes && "test" != "style"
  {
    NoneInIntro("test", AttributeNameStop);
  }

  lemma AttributeType()
    ensures NoneIn("type", AttributeNameStop) && Lower("type") == "type" && "type" !in UrlAttributes && "type" != "style"
  {
    NoneInIntro("type", AttributeNameStop);
  }

  lemma TagCapitalA()
    ensures TagNameWellFormed("A") && Lower("A") != "style"
  {
    NoneInIntro("A", TagNameStop);
  }

  lemma TagOBJECT()
    ensures TagNameWellFormed("OBJECT") && Lower("OBJECT") != "style"
  {
    NoneInIntro("OBJECT", TagNameStop);
  }

  lemma TagSTYLE()
    ensures TagNameWellFormed("STYLE") && Lower("STYLE") == "style"
  {
    NoneInIntro("STYLE", TagNameStop);
  }

  lemma TagA()
    ensures TagNameWellFormed("a") && Lower("a") != "style"
  {
    NoneInIntro("a", TagNameStop);
  }

  lemma TagApplet()
    ensures TagNameWellFormed("applet") && Lower("applet") != "style"
  {
    NoneInIntro("applet", TagNameStop);
  }

  lemma TagArea()
    ensures TagNameWellFormed("area") && Lower("area") != "style"
  {
    NoneInIntro("area", TagNameStop);
  }

  lemma TagBody()
    ensures TagNameWellFormed("body") && Lower("body") != "style"
  {
    NoneInIntro("body", TagNameStop);
  }

  lemma TagDiv()
    ensures TagNameWellFormed("div") && Lower("div") != "style"
  {
    NoneInIntro("div", TagNameStop);
  }

  lemma TagIframe()
    ensures TagNameWellFormed("iframe") && Lower("iframe") != "style"
  {
    NoneInIntro("iframe", TagNameStop);
  }

  lemma TagImg()
    ensures TagNameWellFormed("img") && Lower("img") != "style"
  {
    NoneInIntro("img", TagNameStop);
  }

  lemma TagIns()
    ensures TagNameWellFormed("ins") && Lower("ins") != "style"
  {
    NoneInIntro("ins", TagNameStop);
  }

  lemma TagLink()
    ensures TagNameWellFormed("link") && Lower("link") != "style"
  {
    NoneInIntro("link", TagNameStop);
  }

  lemma TagObject()
    ensures TagNameWellFormed("object") && Lower("object") != "style"
  {
    NoneInIntro("object", TagNameStop);
  }

  lemma TagStyle()
    ensures TagNameWellFormed("style") && Lower("style") == "style"
  {
    NoneInIntro("style", TagNameStop);
  }

  lemma TagVideo()
    ensures TagNameWellFormed("video") && Lower("video") != "style"
  {
    NoneInIntro("video", TagNameStop);
  }

  lemma Link38Run1()
    ensures "<" + "a" == "<a"
  {
  }

  lemma Link38Run2()
    ensures " " + "href" + "" + "=" + "" + ['\''] == " href='"
  {
  }

  lemma Link38Run3()
    ensures ['\''] + ">" + "one" + "<" + "/" + "a" + ">" == "'>one</a>"
  {
  }

  lemma Link38Text(u: string)
    ensures ("<" + ("a" + ((" " + ("href" + ("" + ("=" + ("" + (['\''] + u + ['\''])))))) + ">"))) + ("one" + ("<" + ("/" + ("a" + ">"))))
      == "<a" + " href='" + u + "'>one</a>"
  {
    Link38Run1();
    Link38Run2();
    Link38Run3();
    Assoc("", ['\''] + u, ['\'']);
    Assoc("", ['\''], u);
    Assoc("=", "" + ['\''] + u, ['\'']);
    Assoc("=", "" + ['\''], u);
    Assoc("=", "", ['\'']);
    Assoc("", "=" + "" + ['\''] + u, ['\'']);
    Assoc("", "=" + "" + ['\''], u);
    Assoc("", "=" + "", ['\'']);
    Assoc("", "=", "");
    Assoc("href", "" + "=" + "" + ['\''] + u, ['\'']);
    Assoc("href", "" + "=" + "" + ['\''], u);
    Assoc("href", "" + "=" + "", ['\'']);
    Assoc("href", "" + "=", "");
    Assoc("href", "", "=");
    Assoc(" ", "href" + "" + "=" + "" + ['\''] + u, ['\'']);
    Assoc(" ", "href" + "" + "=" + "" + ['\''], u);
    Assoc(" ", "href" + "" + "=" + "", ['\'']);
    Assoc(" ", "href" + "" + "=", "");
    Assoc(" ", "href" + "", "=");
    Assoc(" ", "href", "");
    Assoc("a", " " + "href" + "" + "=" + "" + ['\''] + u + ['\''], ">");
    Assoc("a", " " + "href" + "" + "=" + "" + ['\''] + u, ['\'']);
    Assoc("a", " " + "href" + "" + "=" + "" + ['\''], u);
    Assoc("a", " " + "href" + "" + "=" + "", ['\'']);
    Assoc("a", " " + "href" + "" + "=", "");
    Assoc("a", " " + "href" + "", "=");
    Assoc("a", " " + "href", "");
    Assoc("a", " ", "href");
    Assoc("<", "a" + " " + "href" + "" + "=" + "" + ['\''] + u + ['\''], ">");
    Assoc("<", "a" + " " + "href" + "" + "=" + "" + ['\''] + u, ['\'']);
    Assoc("<", "a" + " " + "href" + "" + "=" + "" + ['\''], u);
    Assoc("<", "a" + " " + "href" + "" + "=" + "", ['\'']);
    Assoc("<", "a" + " " + "href" + "" + "=", "");
    Assoc("<", "a" + " " + "href" + "", "=");
    Assoc("<", "a" + " " + "href", "");
    Assoc("<", "a" + " ", "href");
    Assoc("<", "a", " ");
    Assoc("/", "a", ">");
    Assoc("<", "/" + "a", ">");
    Assoc("<", "/", "a");
    Assoc("one", "<" + "/" + "a", ">");
    Assoc("one", "<" + "/", "a");
    Assoc("one", "<", "/");
    Assoc("<" + "a" + " " + "href" + "" + "=" + "" + ['\''] + u + ['\''] + ">", "one" + "<" + "/" + "a", ">");
    Assoc("<" + "a" + " " + "href" + "" + "=" + "" + ['\''] + u + ['\''] + ">", "one" + "<" + "/", "a");
    Assoc("<" + "a" + " " + "href" + "" + "=" + "" + ['\''] + u + ['\''] + ">", "one" + "<", "/");
    Assoc("<" + "a" + " " + "href" + "" + "=" + "" + ['\''] + u + ['\''] + ">", "one", "<");
    Assoc("<" + "a", " " + "href" + "" + "=" + "", ['\'']);
    Assoc("<" + "a", " " + "href" + "" + "=", "");
    Assoc("<" + "a", " " + "href" + "", "=");
    Assoc("<" + "a", " " + "href", "");
    Assoc("<" + "a", " ", "href");
    Assoc("<" + "a" + " " + "href" + "" + "=" + "" + ['\''] + u, ['\''] + ">" + "one" + "<" + "/" + "a", ">");
    Assoc("<" + "a" + " " + "href" + "" + "=" + "" + ['\''] + u, ['\''] + ">" + "one" + "<" + "/", "a");
    Assoc("<" + "a" + " " + "href" + "" + "=" + "" + ['\''] + u, ['\''] + ">" + "one" + "<", "/");
    Assoc("<" + "a" + " " + "href" + "" + "=" + "" + ['\''] + u, ['\''] + ">" + "one", "<");
    Assoc("<" + "a" + " " + "href" + "" + "=" + "" + ['\''] + u, ['\''] + ">", "one");
    Assoc("<" + "a" + " " + "href" + "" + "=" + "" + ['\''] + u, ['\''], ">");
  }

  lemma Link38Render(u: string)
    ensures RenderNode(Element("a", [Attribute(" ", "href", Some(Assignment("", "", QuotedValue('\'', u))))], false)) + (RenderNode(Text("one")) + RenderNode(EndTag("a")))
      == "<a" + " href='" + u + "'>one</a>"
  {
    Attributes1(Attribute(" ", "href", Some(Assignment("", "", QuotedValue('\'', u)))));
    assert RenderAttribute(Attribute(" ", "href", Some(Assignment("", "", QuotedValue('\'', u))))) == " " + ("href" + ("" + ("=" + ("" + (['\''] + u + ['\''])))));
    assert RenderNode(Element("a", [Attribute(" ", "href", Some(Assignment("", "", QuotedValue('\'', u))))], false)) == "<" + ("a" + ((" " + ("href" + ("" + ("=" + ("" + (['\''] + u + ['\''])))))) + ">"));
    assert RenderNode(EndTag("a")) == "<" + ("/" + ("a" + ">"));
    Link38Text(u);
  }

  lemma Link38Attribute1Value()
    ensures '\'' !in "/one.htm"
  {
  }

  lemma Link38Attribute1()
    ensures AttributeWellFormed(Attribute(" ", "href", Some(Assignment("", "", QuotedValue('\'', "/one.htm")))))
  {
    AttributeHref();
    Link38Attribute1Value();
    QuotedAttributeWellFormed(" ", "href", "", "", '\'', "/one.htm");
  }

  lemma Link38Node1()
    ensures NodeWellFormed(Element("a", [Attribute(" ", "href", Some(Assignment("", "", QuotedValue('\'', "/one.htm"))))], false))
  {
    TagA();
    Link38Attribute1();
    Attributes1(Attribute(" ", "href", Some(Assignment("", "", QuotedValue('\'', "/one.htm")))));
  }

  lemma Link38Node2()
    ensures NodeWellFormed(Text("one"))
  {
  }

  lemma Link38Node3()
    ensures NodeWellFormed(EndTag("a"))
  {
  }

  lemma Link38WellFormed()
    ensures NodeWellFormed(Element("a", [Attribute(" ", "href", Some(Assignment("", "", QuotedValue('\'', "/one.htm"))))], false)) && NodeWellFormed(Text("one")) && NodeWellFormed(EndTag("a"))
  {
    Link38Node1();
    Link38Node2();
    Link38Node3();
  }

  lemma Link38Refs()
    ensures NodeRefs(Element("a", [Attribute(" ", "href", Some(Assignment("", "", QuotedValue('\'', "/one.htm"))))], false)) + (NodeRefs(Text("one")) + NodeRefs(EndTag("a"))) == ["/one.htm"]
  {
    Attributes1(Attribute(" ", "href", Some(Assignment("", "", QuotedValue('\'', "/one.htm")))));
    AttributeHref();
    UrlAttribute(Attribute(" ", "href", Some(Assignment("", "", QuotedValue('\'', "/one.htm")))));
  }

  lemma Link38Scan()
    ensures RawReferences(Html, "<a" + " href='" + "/one.htm" + "'>one</a>") == ["/one.htm"]
  {
    Link38Render("/one.htm");
    Link38WellFormed();
    Link38Refs();
    Document3(Element("a", [Attribute(" ", "href", Some(Assignment("", "", QuotedValue('\'', "/one.htm"))))], false), Text("one"), EndTag("a"));
  }

  lemma Link38TargetSegment()
    ensures Segment("one.htm")
  {
    SegmentIntro("one.htm");
  }

  lemma Link38TargetJoin()
    ensures "/" + "one.htm" == "/one.htm"
  {
  }

  lemma Link38TargetTrim()
    ensures Trim("/one.htm") == "/one.htm"
  {
    TrimPlain("/one.htm");
  }

  lemma Link38Target()
    ensures Target(Base, "/one.htm") == At("/one.htm")
  {
    Link38TargetSegment();
    Link38TargetJoin();
    Link38TargetTrim();
    RootTarget("/one.htm", "one.htm");
  }

  /** <a href='/one.htm'>one</a>: a root-relative URL */
  lemma Link38()
    ensures Extract(Html, "<a" + " href='" + "/one.htm" + "'>one</a>", Page, Host) == [Domain + "/one.htm"]
  {
    Link38Scan();
    Link38Target();
    ExtractOne(Html, "<a" + " href='" + "/one.htm" + "'>one</a>", "/one.htm", "/one.htm");
  }

  lemma Link41Run1()
    ensures "<" + "a" == "<a"
  {
  }

  lemma Link41Run2()
    ensures " " + "href" + "" + "=" + "" + ['\''] == " href='"
  {
  }

  lemma Link41Run3()
    ensures ['\''] + ">" + "two" + "<" + "/" + "a" + ">" == "'>two</a>"
  {
  }

  lemma Link41Text(u: string)
    ensures ("<" + ("a" + ((" " + ("href" + ("" + ("=" + ("" + (['\''] + u + ['\''])))))) + ">"))) + ("two" + ("<" + ("/" + ("a" + ">"))))
      == "<a" + " href='" + u + "'>two</a>"
  {
    Link41Run1();
    Link41Run2();
    Link41Run3();
    Assoc("", ['\''] + u, ['\'']);
    Assoc("", ['\''], u);
    Assoc("=", "" + ['\''] + u, ['\'']);
    Assoc("=", "" + ['\''], u);
    Assoc("=", "", ['\'']);
    Assoc("", "=" + "" + ['\''] + u, ['\'']);
    Assoc("", "=" + "" + ['\''], u);
    Assoc("", "=" + "", ['\'']);
    Assoc("", "=", "");
    Assoc("href", "" + "=" + "" + ['\''] + u, ['\'']);
    Assoc("href", "" + "=" + "" + ['\''], u);
    Assoc("href", "" + "=" + "", ['\'']);
    Assoc("href", "" + "=", "");
    Assoc("href", "", "=");
    Assoc(" ", "href" + "" + "=" + "" + ['\''] + u, ['\'']);
    Assoc(" ", "href" + "" + "=" + "" + ['\''], u);
    Assoc(" ", "href" + "" + "=" + "", ['\'']);
    Assoc(" ", "href" + "" + "=", "");
    Assoc(" ", "href" + "", "=");
    Assoc(" ", "href", "");
    Assoc("a", " " + "href" + "" + "=" + "" + ['\''] + u + ['\''], ">");
    Assoc("a", " " + "href" + "" + "=" + "" + ['\''] + u, ['\'']);
    Assoc("a", " " + "href" + "" + "=" + "" + ['\''], u);
    Assoc("a", " " + "href" + "" + "=" + "", ['\'']);
    Assoc("a", " " + "href" + "" + "=", "");
    Assoc("a", " " + "href" + "", "=");
    Assoc("a", " " + "href", "");
    Assoc("a", " ", "href");
    Assoc("<", "a" + " " + "href" + "" + "=" + "" + ['\''] + u + ['\''], ">");
    Assoc("<", "a" + " " + "href" + "" + "=" + "" + ['\''] + u, ['\'']);
    Assoc("<", "a" + " " + "href" + "" + "=" + "" + ['\''], u);
    Assoc("<", "a" + " " + "href" + "" + "=" + "", ['\'']);
    Assoc("<", "a" + " " + "href" + "" + "=", "");
    Assoc("<", "a" + " " + "href" + "", "=");
    Assoc("<", "a" + " " + "href", "");
    Assoc("<", "a" + " ", "href");
    Assoc("<", "a", " ");
    Assoc("/", "a", ">");
    Assoc("<", "/" + "a", ">");
    Assoc("<", "/", "a");
    Assoc("two", "<" + "/" + "a", ">");
    Assoc("two", "<" + "/", "a");
    Assoc("two", "<", "/");
    Assoc("<" + "a" + " " + "href" + "" + "=" + "" + ['\''] + u + ['\''] + ">", "two" + "<" + "/" + "a", ">");
    Assoc("<" + "a" + " " + "href" + "" + "=" + "" + ['\''] + u + ['\''] + ">", "two" + "<" + "/", "a");
    Assoc("<" + "a" + " " + "href" + "" + "=" + "" + ['\''] + u + ['\''] + ">", "two" + "<", "/");
    Assoc("<" + "a" + " " + "href" + "" + "=" + "" + ['\''] + u + ['\''] + ">", "two", "<");
    Assoc("<" + "a", " " + "href" + "" + "=" + "", ['\'']);
    Assoc("<" + "a", " " + "href" + "" + "=", "");
    Assoc("<" + "a", " " + "href" + "", "=");
    Assoc("<" + "a", " " + "href", "");
    Assoc("<" + "a", " ", "href");
    Assoc("<" + "a" + " " + "href" + "" + "=" + "" + ['\''] + u, ['\''] + ">" + "two" + "<" + "/" + "a", ">");
    Assoc("<" + "a" + " " + "href" + "" + "=" + "" + ['\''] + u, ['\''] + ">" + "two" + "<" + "/", "a");
    Assoc("<" + "a" + " " + "href" + "" + "=" + "" + ['\''] + u, ['\''] + ">" + "two" + "<", "/");
    Assoc("<" + "a" + " " + "href" + "" + "=" + "" + ['\''] + u, ['\''] + ">" + "two", "<");
    Assoc("<" + "a" + " " + "href" + "" + "=" + "" + ['\''] + u, ['\''] + ">", "two");
    Assoc("<" + "a" + " " + "href" + "" + "=" + "" + ['\''] + u, ['\''], ">");
  }

  lemma Link41Render(u: string)
    ensures RenderNode(Element("a", [Attribute(" ", "href", Some(Assignment("", "", QuotedValue('\'', u))))], false)) + (RenderNode(Text("two")) + RenderNode(EndTag("a")))
      == "<a" + " href='" + u + "'>two</a>"
  {
    Attributes1(Attribute(" ", "href", Some(Assignment("", "", QuotedValue('\'', u)))));
    assert RenderAttribute(Attribute(" ", "href", Some(Assignment("", "", QuotedValue('\'', u))))) == " " + ("href" + ("" + ("=" + ("" + (['\''] + u + ['\''])))));
    assert RenderNode(Element("a", [Attribute(" ", "href", Some(Assignment("", "", QuotedValue('\'', u))))], false)) == "<" + ("a" + ((" " + ("href" + ("" + ("=" + ("" + (['\''] + u + ['\''])))))) + ">"));
    assert RenderNode(EndTag("a")) == "<" + ("/" + ("a" + ">"));
    Link41Text(u);
  }

  lemma Link41Attribute1Value()
    ensures '\'' !in "    /two.htm  "
  {
  }

  lemma Link41Attribute1()
    ensures AttributeWellFormed(Attribute(" ", "href", Some(Assignment("", "", QuotedValue('\'', "    /two.htm  ")))))
  {
    AttributeHref();
    Link41Attribute1Value();
    QuotedAttributeWellFormed(" ", "href", "", "", '\'', "    /two.htm  ");
  }

  lemma Link41Node1()
    ensures NodeWellFormed(Element("a", [Attribute(" ", "href", Some(Assignment("", "", QuotedValue('\'', "    /two.htm  "))))], false))
  {
    TagA();
    Link41Attribute1();
    Attributes1(Attribute(" ", "href", Some(Assignment("", "", QuotedValue('\'', "    /two.htm  ")))));
  }

  lemma Link41Node2()
    ensures NodeWellFormed(Text("two"))
  {
  }

  lemma Link41Node3()
    ensures NodeWellFormed(EndTag("a"))
  {
  }

  lemma Link41WellFormed()
    ensures NodeWellFormed(Element("a", [Attribute(" ", "href", Some(Assignment("", "", QuotedValue('\'', "    /two.htm  "))))], false)) && NodeWellFormed(Text("two")) && NodeWellFormed(EndTag("a"))
  {
    Link41Node1();
    Link41Node2();
    Link41Node3();
  }

  lemma Link41Refs()
    ensures NodeRefs(Element("a", [Attribute(" ", "href", Some(Assignment("", "", QuotedValue('\'', "    /two.htm  "))))], false)) + (NodeRefs(Text("two")) + NodeRefs(EndTag("a"))) == ["    /two.htm  "]
  {
    Attributes1(Attribute(" ", "href", Some(Assignment("", "", QuotedValue('\'', "    /two.htm  ")))));
    AttributeHref();
    UrlAttribute(Attribute(" ", "href", Some(Assignment("", "", QuotedValue('\'', "    /two.htm  ")))));
  }

  lemma Link41Scan()
    ensures RawReferences(Html, "<a" + " href='" + "    /two.htm  " + "'>two</a>") == ["    /two.htm  "]
  {
    Link41Render("    /two.htm  ");
    Link41WellFormed();
    Link41Refs();
    Document3(Element("a", [Attribute(" ", "href", Some(Assignment("", "", QuotedValue('\'', "    /two.htm  "))))], false), Text("two"), EndTag("a"));
  }

  lemma Link41TargetSegment()
    ensures Segment("two.htm")
  {
    SegmentIntro("two.htm");
  }

  lemma Link41TargetJoin()
    ensures "/" + "two.htm" == "/two.htm"
  {
  }

  lemma Link41TargetSplit()
    ensures "    " + "/two.htm" + "  " == "    /two.htm  "
  {
  }

  lemma Link41TargetTrim()
    ensures Trim("    /two.htm  ") == "/two.htm"
  {
    Link41TargetSplit();
    TrimPadded("    ", "/two.htm", "  ");
  }

  lemma Link41Target()
    ensures Target(Base, "    /two.htm  ") == At("/two.htm")
  {
    Link41TargetSegment();
    Link41TargetJoin();
    Link41TargetTrim();
    RootTarget("    /two.htm  ", "two.htm");
  }

  /** <a href='    /two.htm  '>two</a>: whitespace around the value */
  lemma Link41()
    ensures Extract(Html, "<a" + " href='" + "    /two.htm  " + "'>two</a>", Page, Host) == [Domain + "/two.htm"]
  {
    Link41Scan();
    Link41Target();
    ExtractOne(Html, "<a" + " href='" + "    /two.htm  " + "'>two</a>", "    /two.htm  ", "/two.htm");
  }

  lemma Link44Run1()
    ensures "<" + "a" == "<a"
  {
  }

  lemma Link44Run2()
    ensures " " + "href" + "" + "=" + "" == " href="
  {
  }

  lemma Link44Run3()
    ensures ">" + "three" + "<" + "/" + "a" + ">" == ">three</a>"
  {
  }

  lemma Link44Text(u: string)
    ensures ("<" + ("a" + ((" " + ("href" + ("" + ("=" + ("" + (u)))))) + ">"))) + ("three" + ("<" + ("/" + ("a" + ">"))))
      == "<a" + " href=" + u + ">three</a>"
  {
    Link44Run1();
    Link44Run2();
    Link44Run3();
    Assoc("=", "", u);
    Assoc("", "=" + "", u);
    Assoc("", "=", "");
    Assoc("href", "" + "=" + "", u);
    Assoc("href", "" + "=", "");
    Assoc("href", "", "=");
    Assoc(" ", "href" + "" + "=" + "", u);
    Assoc(" ", "href" + "" + "=", "");
    Assoc(" ", "href" + "", "=");
    Assoc(" ", "href", "");
    Assoc("a", " " + "href" + "" + "=" + "" + u, ">");
    Assoc("a", " " + "href" + "" + "=" + "", u);
    Assoc("a", " " + "href" + "" + "=", "");
    Assoc("a", " " + "href" + "", "=");
    Assoc("a", " " + "href", "");
    Assoc("a", " ", "href");
    Assoc("<", "a" + " " + "href" + "" + "=" + "" + u, ">");
    Assoc("<", "a" + " " + "href" + "" + "=" + "", u);
    Assoc("<", "a" + " " + "href" + "" + "=", "");
    Assoc("<", "a" + " " + "href" + "", "=");
    Assoc("<", "a" + " " + "href", "");
    Assoc("<", "a" + " ", "href");
    Assoc("<", "a", " ");
    Assoc("/", "a", ">");
    Assoc("<", "/" + "a", ">");
    Assoc("<", "/", "a");
    Assoc("three", "<" + "/" + "a", ">");
    Assoc("three", "<" + "/", "a");
    Assoc("three", "<", "/");
    Assoc("<" + "a" + " " + "href" + "" + "=" + "" + u + ">", "three" + "<" + "/" + "a", ">");
    Assoc("<" + "a" + " " + "href" + "" + "=" + "" + u + ">", "three" + "<" + "/", "a");
    Assoc("<" + "a" + " " + "href" + "" + "=" + "" + u + ">", "three" + "<", "/");
    Assoc("<" + "a" + " " + "href" + "" + "=" + "" + u + ">", "three", "<");
    Assoc("<" + "a", " " + "href" + "" + "=", "");
    Assoc("<" + "a", " " + "href" + "", "=");
    Assoc("<" + "a", " " + "href", "");
    Assoc("<" + "a", " ", "href");
    Assoc("<" + "a" + " " + "href" + "" + "=" + "" + u, ">" + "three" + "<" + "/" + "a", ">");
    Assoc("<" + "a" + " " + "href" + "" + "=" + "" + u, ">" + "three" + "<" + "/", "a");
    Assoc("<" + "a" + " " + "href" + "" + "=" + "" + u, ">" + "three" + "<", "/");
    Assoc("<" + "a" + " " + "href" + "" + "=" + "" + u, ">" + "three", "<");
    Assoc("<" + "a" + " " + "href" + "" + "=" + "" + u, ">", "three");
  }

  lemma Link44Render(u: string)
    ensures RenderNode(Element("a", [Attribute(" ", "href", Some(Assignment("", "", BareValue(u))))], false)) + (RenderNode(Text("three")) + RenderNode(EndTag("a")))
      == "<a" + " href=" + u + ">three</a>"
  {
    Attributes1(Attribute(" ", "href", Some(Assignment("", "", BareValue(u)))));
    assert RenderAttribute(Attribute(" ", "href", Some(Assignment("", "", BareValue(u))))) == " " + ("href" + ("" + ("=" + ("" + (u)))));
    assert RenderNode(Element("a", [Attribute(" ", "href", Some(Assignment("", "", BareValue(u))))], false)) == "<" + ("a" + ((" " + ("href" + ("" + ("=" + ("" + (u)))))) + ">"));
    assert RenderNode(EndTag("a")) == "<" + ("/" + ("a" + ">"));
    Link44Text(u);
  }

  lemma Link44Attribute1ValueChar1()
    ensures ' ' !in "three.htm"
  {
  }

  lemma Link44Attribute1ValueChar2()
    ensures '\t' !in "three.htm"
  {
  }

  lemma Link44Attribute1ValueChar3()
    ensures '\n' !in "three.htm"
  {
  }

  lemma Link44Attribute1ValueChar4()
    ensures '\r' !in "three.htm"
  {
  }

  lemma Link44Attribute1ValueChar5()
    ensures '\U{000C}' !in "three.htm"
  {
  }

  lemma Link44Attribute1ValueChar6()
    ensures '>' !in "three.htm"
  {
  }

  lemma Link44Attribute1Value()
    ensures NoneIn("three.htm", BareValueStop)
  {
    Link44Attribute1ValueChar1();
    Link44Attribute1ValueChar2();
    Link44Attribute1ValueChar3();
    Link44Attribute1ValueChar4();
    Link44Attribute1ValueChar5();
    Link44Attribute1ValueChar6();
    NoneInIntro("three.htm", BareValueStop);
  }

  lemma Link44Attribute1()
    ensures AttributeWellFormed(Attribute(" ", "href", Some(Assignment("", "", BareValue("three.htm")))))
  {
    AttributeHref();
    Link44Attribute1Value();
    BareAttributeWellFormed(" ", "href", "", "", "three.htm");
  }

  lemma Link44Node1()
    ensures NodeWellFormed(Element("a", [Attribute(" ", "href", Some(Assignment("", "", BareValue("three.htm"))))], false))
  {
    TagA();
    Link44Attribute1();
    Attributes1(Attribute(" ", "href", Some(Assignment("", "", BareValue("three.htm")))));
  }

  lemma Link44Node2()
    ensures NodeWellFormed(Text("three"))
  {
  }

  lemma Link44Node3()
    ensures NodeWellFormed(EndTag("a"))
  {
  }

  lemma Link44WellFormed()
    ensures NodeWellFormed(Element("a", [Attribute(" ", "href", Some(Assignment("", "", BareValue("three.htm"))))], false)) && NodeWellFormed(Text("three")) && NodeWellFormed(EndTag("a"))
  {
    Link44Node1();
    Link44Node2();
    Link44Node3();
  }

  lemma Link44Refs()
    ensures NodeRefs(Element("a", [Attribute(" ", "href", Some(Assignment("", "", BareValue("three.htm"))))], false)) + (NodeRefs(Text("three")) + NodeRefs(EndTag("a"))) == ["three.htm"]
  {
    Attributes1(Attribute(" ", "href", Some(Assignment("", "", BareValue("three.htm")))));
    AttributeHref();
    UrlAttribute(Attribute(" ", "href", Some(Assignment("", "", BareValue("three.htm")))));
  }

  lemma Link44Scan()
    ensures RawReferences(Html, "<a" + " href=" + "three.htm" + ">three</a>") == ["three.htm"]
  {
    Link44Render("three.htm");
    Link44WellFormed();
    Link44Refs();
    Document3(Element("a", [Attribute(" ", "href", Some(Assignment("", "", BareValue("three.htm"))))], false), Text("three"), EndTag("a"));
  }

  lemma Link44TargetSegment()
    ensures Segment("three.htm")
  {
    SegmentIntro("three.htm");
  }

  lemma Link44TargetTrim()
    ensures Trim("three.htm") == "three.htm"
  {
    TrimPlain("three.htm");
  }

  lemma Link44TargetJoin()
    ensures "/blog/" + "three.htm" == "/blog/three.htm"
  {
  }

  lemma Link44Target()
    ensures Target(Base, "three.htm") == At("/blog/three.htm")
  {
    Link44TargetSegment();
    Link44TargetTrim();
    Link44TargetJoin();
    RelativeTarget("three.htm", "three.htm");
  }

  /** <a href=three.htm>three</a>: an unquoted value */
  lemma Link44()
    ensures Extract(Html, "<a" + " href=" + "three.htm" + ">three</a>", Page, Host) == [Domain + "/blog/three.htm"]
  {
    Link44Scan();
    Link44Target();
    ExtractOne(Html, "<a" + " href=" + "three.htm" + ">three</a>", "three.htm", "/blog/three.htm");
  }

  lemma Link47Run1()
    ensures "<" + "a" == "<a"
  {
  }

  lemma Link47Run2()
    ensures " " + "href" + "" + "=" + "" + ['"'] == " href=\""
  {
  }

  lemma Link47Run3()
    ensures ['"'] + ">" + "four" + "<" + "/" + "a" + ">" == "\">four</a>"
  {
  }

  lemma Link47Text(u: string)
    ensures ("<" + ("a" + ((" " + ("href" + ("" + ("=" + ("" + (['"'] + u + ['"'])))))) + ">"))) + ("four" + ("<" + ("/" + ("a" + ">"))))
      == "<a" + " href=\"" + u + "\">four</a>"
  {
    Link47Run1();
    Link47Run2();
    Link47Run3();
    Assoc("", ['"'] + u, ['"']);
    Assoc("", ['"'], u);
    Assoc("=", "" + ['"'] + u, ['"']);
    Assoc("=", "" + ['"'], u);
    Assoc("=", "", ['"']);
    Assoc("", "=" + "" + ['"'] + u, ['"']);
    Assoc("", "=" + "" + ['"'], u);
    Assoc("", "=" + "", ['"']);
    Assoc("", "=", "");
    Assoc("href", "" + "=" + "" + ['"'] + u, ['"']);
    Assoc("href", "" + "=" + "" + ['"'], u);
    Assoc("href", "" + "=" + "", ['"']);
    Assoc("href", "" + "=", "");
    Assoc("href", "", "=");
    Assoc(" ", "href" + "" + "=" + "" + ['"'] + u, ['"']);
    Assoc(" ", "href" + "" + "=" + "" + ['"'], u);
    Assoc(" ", "href" + "" + "=" + "", ['"']);
    Assoc(" ", "href" + "" + "=", "");
    Assoc(" ", "href" + "", "=");
    Assoc(" ", "href", "");
    Assoc("a", " " + "href" + "" + "=" + "" + ['"'] + u + ['"'], ">");
    Assoc("a", " " + "href" + "" + "=" + "" + ['"'] + u, ['"']);
    Assoc("a", " " + "href" + "" + "=" + "" + ['"'], u);
    Assoc("a", " " + "href" + "" + "=" + "", ['"']);
    Assoc("a", " " + "href" + "" + "=", "");
    Assoc("a", " " + "href" + "", "=");
    Assoc("a", " " + "href", "");
    Assoc("a", " ", "href");
    Assoc("<", "a" + " " + "href" + "" + "=" + "" + ['"'] + u + ['"'], ">");
    Assoc("<", "a" + " " + "href" + "" + "=" + "" + ['"'] + u, ['"']);
    Assoc("<", "a" + " " + "href" + "" + "=" + "" + ['"'], u);
    Assoc("<", "a" + " " + "href" + "" + "=" + "", ['"']);
    Assoc("<", "a" + " " + "href" + "" + "=", "");
    Assoc("<", "a" + " " + "href" + "", "=");
    Assoc("<", "a" + " " + "href", "");
    Assoc("<", "a" + " ", "href");
    Assoc("<", "a", " ");
    Assoc("/", "a", ">");
    Assoc("<", "/" + "a", ">");
    Assoc("<", "/", "a");
    Assoc("four", "<" + "/" + "a", ">");
    Assoc("four", "<" + "/", "a");
    Assoc("four", "<", "/");
    Assoc("<" + "a" + " " + "href" + "" + "=" + "" + ['"'] + u + ['"'] + ">", "four" + "<" + "/" + "a", ">");
    Assoc("<" + "a" + " " + "href" + "" + "=" + "" + ['"'] + u + ['"'] + ">", "four" + "<" + "/", "a");
    Assoc("<" + "a" + " " + "href" + "" + "=" + "" + ['"'] + u + ['"'] + ">", "four" + "<", "/");
    Assoc("<" + "a" + " " + "href" + "" + "=" + "" + ['"'] + u + ['"'] + ">", "four", "<");
    Assoc("<" + "a", " " + "href" + "" + "=" + "", ['"']);
    Assoc("<" + "a", " " + "href" + "" + "=", "");
    Assoc("<" + "a", " " + "href" + "", "=");
    Assoc("<" + "a", " " + "href", "");
    Assoc("<" + "a", " ", "href");
    Assoc("<" + "a" + " " + "href" + "" + "=" + "" + ['"'] + u, ['"'] + ">" + "four" + "<" + "/" + "a", ">");
    Assoc("<" + "a" + " " + "href" + "" + "=" + "" + ['"'] + u, ['"'] + ">" + "four" + "<" + "/", "a");
    Assoc("<" + "a" + " " + "href" + "" + "=" + "" + ['"'] + u, ['"'] + ">" + "four" + "<", "/");
    Assoc("<" + "a" + " " + "href" + "" + "=" + "" + ['"'] + u, ['"'] + ">" + "four", "<");
    Assoc("<" + "a" + " " + "href" + "" + "=" + "" + ['"'] + u, ['"'] + ">", "four");
    Assoc("<" + "a" + " " + "href" + "" + "=" + "" + ['"'] + u, ['"'], ">");
  }

  lemma Link47Render(u: string)
    ensures RenderNode(Element("a", [Attribute(" ", "href", Some(Assignment("", "", QuotedValue('"', u))))], false)) + (RenderNode(Text("four")) + RenderNode(EndTag("a")))
      == "<a" + " href=\"" + u + "\">four</a>"
  {
    Attributes1(Attribute(" ", "href", Some(Assignment("", "", QuotedValue('"', u)))));
    assert RenderAttribute(Attribute(" ", "href", Some(Assignment("", "", QuotedValue('"', u))))) == " " + ("href" + ("" + ("=" + ("" + (['"'] + u + ['"'])))));
    assert RenderNode(Element("a", [Attribute(" ", "href", Some(Assignment("", "", QuotedValue('"', u))))], false)) == "<" + ("a" + ((" " + ("href" + ("" + ("=" + ("" + (['"'] + u + ['"'])))))) + ">"));
    assert RenderNode(EndTag("a")) == "<" + ("/" + ("a" + ">"));
    Link47Text(u);
  }

  lemma Link47Attribute1Value()
    ensures '"' !in "../four.htm"
  {
  }

  lemma Link47Attribute1()
    ensures AttributeWellFormed(Attribute(" ", "href", Some(Assignment("", "", QuotedValue('"', "../four.htm")))))
  {
    AttributeHref();
    Link47Attribute1Value();
    QuotedAttributeWellFormed(" ", "href", "", "", '"', "../four.htm");
  }

  lemma Link47Node1()
    ensures NodeWellFormed(Element("a", [Attribute(" ", "href", Some(Assignment("", "", QuotedValue('"', "../four.htm"))))], false))
  {
    TagA();
    Link47Attribute1();
    Attributes1(Attribute(" ", "href", Some(Assignment("", "", QuotedValue('"', "../four.htm")))));
  }

  lemma Link47Node2()
    ensures NodeWellFormed(Text("four"))
  {
  }

  lemma Link47Node3()
    ensures NodeWellFormed(EndTag("a"))
  {
  }

  lemma Link47WellFormed()
    ensures NodeWellFormed(Element("a", [Attribute(" ", "href", Some(Assignment("", "", QuotedValue('"', "../four.htm"))))], false)) && NodeWellFormed(Text("four")) && NodeWellFormed(EndTag("a"))
  {
    Link47Node1();
    Link47Node2();
    Link47Node3();
  }

  lemma Link47Refs()
    ensures NodeRefs(Element("a", [Attribute(" ", "href", Some(Assignment("", "", QuotedValue('"', "../four.htm"))))], false)) + (NodeRefs(Text("four")) + NodeRefs(EndTag("a"))) == ["../four.htm"]
  {
    Attributes1(Attribute(" ", "href", Some(Assignment("", "", QuotedValue('"', "../four.htm")))));
    AttributeHref();
    UrlAttribute(Attribute(" ", "href", Some(Assignment("", "", QuotedValue('"', "../four.htm")))));
  }

  lemma Link47Scan()
    ensures RawReferences(Html, "<a" + " href=\"" + "../four.htm" + "\">four</a>") == ["../four.htm"]
  {
    Link47Render("../four.htm");
    Link47WellFormed();
    Link47Refs();
    Document3(Element("a", [Attribute(" ", "href", Some(Assignment("", "", QuotedValue('"', "../four.htm"))))], false), Text("four"), EndTag("a"));
  }

  lemma Link47TargetSegment()
    ensures Segment("four.htm")
  {
    SegmentIntro("four.htm");
  }

  lemma Link47TargetSplit()
    ensures "../" + "four.htm" == "../four.htm"
  {
  }

  lemma Link47TargetTrim()
    ensures Trim("../four.htm") == "../four.htm"
  {
    TrimPlain("../four.htm");
  }

  lemma Link47TargetJoin()
    ensures "/" + "four.htm" == "/four.htm"
  {
  }

  lemma Link47Target()
    ensures Target(Base, "../four.htm") == At("/four.htm")
  {
    Link47TargetSegment();
    Link47TargetSplit();
    Link47TargetTrim();
    Link47TargetJoin();
    ParentTarget("../four.htm", "four.htm");
  }

  /** <a href="../four.htm">four</a>: a parent-directory reference */
  lemma Link47()
    ensures Extract(Html, "<a" + " href=\"" + "../four.htm" + "\">four</a>", Page, Host) == [Domain + "/four.htm"]
  {
    Link47Scan();
    Link47Target();
    ExtractOne(Html, "<a" + " href=\"" + "../four.htm" + "\">four</a>", "../four.htm", "/four.htm");
  }

  lemma Link50Run1()
    ensures "<" + "a" == "<a"
  {
  }

  lemma Link50Run2()
    ensures " " + "href" + "" + "=" + "" == " href="
  {
  }

  lemma Link50Run3()
    ensures ">" + "five" + "<" + "/" + "a" + ">" == ">five</a>"
  {
  }

  lemma Link50Text(u: string)
    ensures ("<" + ("a" + ((" " + ("href" + ("" + ("=" + ("" + (u)))))) + ">"))) + ("five" + ("<" + ("/" + ("a" + ">"))))
      == "<a" + " href=" + u + ">five</a>"
  {
    Link50Run1();
    Link50Run2();
    Link50Run3();
    Assoc("=", "", u);
    Assoc("", "=" + "", u);
    Assoc("", "=", "");
    Assoc("href", "" + "=" + "", u);
    Assoc("href", "" + "=", "");
    Assoc("href", "", "=");
    Assoc(" ", "href" + "" + "=" + "", u);
    Assoc(" ", "href" + "" + "=", "");
    Assoc(" ", "href" + "", "=");
    Assoc(" ", "href", "");
    Assoc("a", " " + "href" + "" + "=" + "" + u, ">");
    Assoc("a", " " + "href" + "" + "=" + "", u);
    Assoc("a", " " + "href" + "" + "=", "");
    Assoc("a", " " + "href" + "", "=");
    Assoc("a", " " + "href", "");
    Assoc("a", " ", "href");
    Assoc("<", "a" + " " + "href" + "" + "=" + "" + u, ">");
    Assoc("<", "a" + " " + "href" + "" + "=" + "", u);
    Assoc("<", "a" + " " + "href" + "" + "=", "");
    Assoc("<", "a" + " " + "href" + "", "=");
    Assoc("<", "a" + " " + "href", "");
    Assoc("<", "a" + " ", "href");
    Assoc("<", "a", " ");
    Assoc("/", "a", ">");
    Assoc("<", "/" + "a", ">");
    Assoc("<", "/", "a");
    Assoc("five", "<" + "/" + "a", ">");
    Assoc("five", "<" + "/", "a");
    Assoc("five", "<", "/");
    Assoc("<" + "a" + " " + "href" + "" + "=" + "" + u + ">", "five" + "<" + "/" + "a", ">");
    Assoc("<" + "a" + " " + "href" + "" + "=" + "" + u + ">", "five" + "<" + "/", "a");
    Assoc("<" + "a" + " " + "href" + "" + "=" + "" + u + ">", "five" + "<", "/");
    Assoc("<" + "a" + " " + "href" + "" + "=" + "" + u + ">", "five", "<");
    Assoc("<" + "a", " " + "href" + "" + "=", "");
    Assoc("<" + "a", " " + "href" + "", "=");
    Assoc("<" + "a", " " + "href", "");
    Assoc("<" + "a", " ", "href");
    Assoc("<" + "a" + " " + "href" + "" + "=" + "" + u, ">" + "five" + "<" + "/" + "a", ">");
    Assoc("<" + "a" + " " + "href" + "" + "=" + "" + u, ">" + "five" + "<" + "/", "a");
    Assoc("<" + "a" + " " + "href" + "" + "=" + "" + u, ">" + "five" + "<", "/");
    Assoc("<" + "a" + " " + "href" + "" + "=" + "" + u, ">" + "five", "<");
    Assoc("<" + "a" + " " + "href" + "" + "=" + "" + u, ">", "five");
  }

  lemma Link50Render(u: string)
    ensures RenderNode(Element("a", [Attribute(" ", "href", Some(Assignment("", "", BareValue(u))))], false)) + (RenderNode(Text("five")) + RenderNode(EndTag("a")))
      == "<a" + " href=" + u + ">five</a>"
  {
    Attributes1(Attribute(" ", "href", Some(Assignment("", "", BareValue(u)))));
    assert RenderAttribute(Attribute(" ", "href", Some(Assignment("", "", BareValue(u))))) == " " + ("href" + ("" + ("=" + ("" + (u)))));
    assert RenderNode(Element("a", [Attribute(" ", "href", Some(Assignment("", "", BareValue(u))))], false)) == "<" + ("a" + ((" " + ("href" + ("" + ("=" + ("" + (u)))))) + ">"));
    assert RenderNode(EndTag("a")) == "<" + ("/" + ("a" + ">"));
    Link50Text(u);
  }

  lemma Link50Attribute1ValueChar1()
    ensures ' ' !in "./five.htm"
  {
  }

  lemma Link50Attribute1ValueChar2()
    ensures '\t' !in "./five.htm"
  {
  }

  lemma Link50Attribute1ValueChar3()
    ensures '\n' !in "./five.htm"
  {
  }

  lemma Link50Attribute1ValueChar4()
    ensures '\r' !in "./five.htm"
  {
  }

  lemma Link50Attribute1ValueChar5()
    ensures '\U{000C}' !in "./five.htm"
  {
  }

  lemma Link50Attribute1ValueChar6()
    ensures '>' !in "./five.htm"
  {
  }

  lemma Link50Attribute1Value()
    ensures NoneIn("./five.htm", BareValueStop)
  {
    Link50Attribute1ValueChar1();
    Link50Attribute1ValueChar2();
    Link50Attribute1ValueChar3();
    Link50Attribute1ValueChar4();
    Link50Attribute1ValueChar5();
    Link50Attribute1ValueChar6();
    NoneInIntro("./five.htm", BareValueStop);
  }

  lemma Link50Attribute1()
    ensures AttributeWellFormed(Attribute(" ", "href", Some(Assignment("", "", BareValue("./five.htm")))))
  {
    AttributeHref();
    Link50Attribute1Value();
    BareAttributeWellFormed(" ", "href", "", "", "./five.htm");
  }

  lemma Link50Node1()
    ensures NodeWellFormed(Element("a", [Attribute(" ", "href", Some(Assignment("", "", BareValue("./five.htm"))))], false))
  {
    TagA();
    Link50Attribute1();
    Attributes1(Attribute(" ", "href", Some(Assignment("", "", BareValue("./five.htm")))));
  }

  lemma Link50Node2()
    ensures NodeWellFormed(Text("five"))
  {
  }

  lemma Link50Node3()
    ensures NodeWellFormed(EndTag("a"))
  {
  }

  lemma Link50WellFormed()
    ensures NodeWellFormed(Element("a", [Attribute(" ", "href", Some(Assignment("", "", BareValue("./five.htm"))))], false)) && NodeWellFormed(Text("five")) && NodeWellFormed(EndTag("a"))
  {
    Link50Node1();
    Link50Node2();
    Link50Node3();
  }

  lemma Link50Refs()
    ensures NodeRefs(Element("a", [Attribute(" ", "href", Some(Assignment("", "", BareValue("./five.htm"))))], false)) + (NodeRefs(Text("five")) + NodeRefs(EndTag("a"))) == ["./five.htm"]
  {
    Attributes1(Attribute(" ", "href", Some(Assignment("", "", BareValue("./five.htm")))));
    AttributeHref();
    UrlAttribute(Attribute(" ", "href", Some(Assignment("", "", BareValue("./five.htm")))));
  }

  lemma Link50Scan()
    ensures RawReferences(Html, "<a" + " href=" + "./five.htm" + ">five</a>") == ["./five.htm"]
  {
    Link50Render("./five.htm");
    Link50WellFormed();
    Link50Refs();
    Document3(Element("a", [Attribute(" ", "href", Some(Assignment("", "", BareValue("./five.htm"))))], false), Text("five"), EndTag("a"));
  }

  lemma Link50TargetSegment()
    ensures Segment("five.htm")
  {
    SegmentIntro("five.htm");
  }

  lemma Link50TargetSplit()
    ensures "./" + "five.htm" == "./five.htm"
  {
  }

  lemma Link50TargetTrim()
    ensures Trim("./five.htm") == "./five.htm"
  {
    TrimPlain("./five.htm");
  }

  lemma Link50TargetJoin()
    ensures "/blog/" + "five.htm" == "/blog/five.htm"
  {
  }

  lemma Link50Target()
    ensures Target(Base, "./five.htm") == At("/blog/five.htm")
  {
    Link50TargetSegment();
    Link50TargetSplit();
    Link50TargetTrim();
    Link50TargetJoin();
    CurrentTarget("./five.htm", "five.htm");
  }

  /** <a href=./five.htm>five</a>: a current-directory reference */
  lemma Link50()
    ensures Extract(Html, "<a" + " href=" + "./five.htm" + ">five</a>", Page, Host) == [Domain + "/blog/five.htm"]
  {
    Link50Scan();
    Link50Target();
    ExtractOne(Html, "<a" + " href=" + "./five.htm" + ">five</a>", "./five.htm", "/blog/five.htm");
  }

  lemma Link53Run1()
    ensures "<" + "a" == "<a"
  {
  }

  lemma Link53Run2()
    ensures " " + "href" == " href"
  {
  }

  lemma Link53Run3()
    ensures " " + "=" == " ="
  {
  }

  lemma Link53Run4()
    ensures ">" + "six" + "<" + "/" + "a" + ">" == ">six</a>"
  {
  }

  lemma Link53Text(u: string)
    ensures ("<" + ("a" + ((" " + ("href" + (" " + ("=" + (" " + (u)))))) + ">"))) + ("six" + ("<" + ("/" + ("a" + ">"))))
      == "<a" + " href" + " =" + " " + u + ">six</a>"
  {
    Link53Run1();
    Link53Run2();
    Link53Run3();
    Link53Run4();
    Assoc("=", " ", u);
    Assoc(" ", "=" + " ", u);
    Assoc(" ", "=", " ");
    Assoc("href", " " + "=" + " ", u);
    Assoc("href", " " + "=", " ");
    Assoc("href", " ", "=");
    Assoc(" ", "href" + " " + "=" + " ", u);
    Assoc(" ", "href" + " " + "=", " ");
    Assoc(" ", "href" + " ", "=");
    Assoc(" ", "href", " ");
    Assoc("a", " " + "href" + " " + "=" + " " + u, ">");
    Assoc("a", " " + "href" + " " + "=" + " ", u);
    Assoc("a", " " + "href" + " " + "=", " ");
    Assoc("a", " " + "href" + " ", "=");
    Assoc("a", " " + "href", " ");
    Assoc("a", " ", "href");
    Assoc("<", "a" + " " + "href" + " " + "=" + " " + u, ">");
    Assoc("<", "a" + " " + "href" + " " + "=" + " ", u);
    Assoc("<", "a" + " " + "href" + " " + "=", " ");
    Assoc("<", "a" + " " + "href" + " ", "=");
    Assoc("<", "a" + " " + "href", " ");
    Assoc("<", "a" + " ", "href");
    Assoc("<", "a", " ");
    Assoc("/", "a", ">");
    Assoc("<", "/" + "a", ">");
    Assoc("<", "/", "a");
    Assoc("six", "<" + "/" + "a", ">");
    Assoc("six", "<" + "/", "a");
    Assoc("six", "<", "/");
    Assoc("<" + "a" + " " + "href" + " " + "=" + " " + u + ">", "six" + "<" + "/" + "a", ">");
    Assoc("<" + "a" + " " + "href" + " " + "=" + " " + u + ">", "six" + "<" + "/", "a");
    Assoc("<" + "a" + " " + "href" + " " + "=" + " " + u + ">", "six" + "<", "/");
    Assoc("<" + "a" + " " + "href" + " " + "=" + " " + u + ">", "six", "<");
    Assoc("<" + "a", " ", "href");
    Assoc("<" + "a" + " " + "href", " ", "=");
    Assoc("<" + "a" + " " + "href" + " " + "=" + " " + u, ">" + "six" + "<" + "/" + "a", ">");
    Assoc("<" + "a" + " " + "href" + " " + "=" + " " + u, ">" + "six" + "<" + "/", "a");
    Assoc("<" + "a" + " " + "href" + " " + "=" + " " + u, ">" + "six" + "<", "/");
    Assoc("<" + "a" + " " + "href" + " " + "=" + " " + u, ">" + "six", "<");
    Assoc("<" + "a" + " " + "href" + " " + "=" + " " + u, ">", "six");
  }

  lemma Link53Render(u: string)
    ensures RenderNode(Element("a", [Attribute(" ", "href", Some(Assignment(" ", " ", BareValue(u))))], false)) + (RenderNode(Text("six")) + RenderNode(EndTag("a")))
      == "<a" + " href" + " =" + " " + u + ">six</a>"
  {
    Attributes1(Attribute(" ", "href", Some(Assignment(" ", " ", BareValue(u)))));
    assert RenderAttribute(Attribute(" ", "href", Some(Assignment(" ", " ", BareValue(u))))) == " " + ("href" + (" " + ("=" + (" " + (u)))));
    assert RenderNode(Element("a", [Attribute(" ", "href", Some(Assignment(" ", " ", BareValue(u))))], false)) == "<" + ("a" + ((" " + ("href" + (" " + ("=" + (" " + (u)))))) + ">"));
    assert RenderNode(EndTag("a")) == "<" + ("/" + ("a" + ">"));
    Link53Text(u);
  }

  lemma Link53Attribute1ValueChar1()
    ensures ' ' !in "six.htm"
  {
  }

  lemma Link53Attribute1ValueChar2()
    ensures '\t' !in "six.htm"
  {
  }

  lemma Link53Attribute1ValueChar3()
    ensures '\n' !in "six.htm"
  {
  }

  lemma Link53Attribute1ValueChar4()
    ensures '\r' !in "six.htm"
  {
  }

  lemma Link53Attribute1ValueChar5()
    ensures '\U{000C}' !in "six.htm"
  {
  }

  lemma Link53Attribute1ValueChar6()
    ensures '>' !in "six.htm"
  {
  }

  lemma Link53Attribute1Value()
    ensures NoneIn("six.htm", BareValueStop)
  {
    Link53Attribute1ValueChar1();
    Link53Attribute1ValueChar2();
    Link53Attribute1ValueChar3();
    Link53Attribute1ValueChar4();
    Link53Attribute1ValueChar5();
    Link53Attribute1ValueChar6();
    NoneInIntro("six.htm", BareValueStop);
  }

  lemma Link53Attribute1()
    ensures AttributeWellFormed(Attribute(" ", "href", Some(Assignment(" ", " ", BareValue("six.htm")))))
  {
    AttributeHref();
    Link53Attribute1Value();
    BareAttributeWellFormed(" ", "href", " ", " ", "six.htm");
  }

  lemma Link53Node1()
    ensures NodeWellFormed(Element("a", [Attribute(" ", "href", Some(Assignment(" ", " ", BareValue("six.htm"))))], false))
  {
    TagA();
    Link53Attribute1();
    Attributes1(Attribute(" ", "href", Some(Assignment(" ", " ", BareValue("six.htm")))));
  }

  lemma Link53Node2()
    ensures NodeWellFormed(Text("six"))
  {
  }

  lemma Link53Node3()
    ensures NodeWellFormed(EndTag("a"))
  {
  }

  lemma Link53WellFormed()
    ensures NodeWellFormed(Element("a", [Attribute(" ", "href", Some(Assignment(" ", " ", BareValue("six.htm"))))], false)) && NodeWellFormed(Text("six")) && NodeWellFormed(EndTag("a"))
  {
    Link53Node1();
    Link53Node2();
    Link53Node3();
  }

  lemma Link53Refs()
    ensures NodeRefs(Element("a", [Attribute(" ", "href", Some(Assignment(" ", " ", BareValue("six.htm"))))], false)) + (NodeRefs(Text("six")) + NodeRefs(EndTag("a"))) == ["six.htm"]
  {
    Attributes1(Attribute(" ", "href", Some(Assignment(" ", " ", BareValue("six.htm")))));
    AttributeHref();
    UrlAttribute(Attribute(" ", "href", Some(Assignment(" ", " ", BareValue("six.htm")))));
  }

  lemma Link53Scan()
    ensures RawReferences(Html, "<a" + " href" + " =" + " " + "six.htm" + ">six</a>") == ["six.htm"]
  {
    Link53Render("six.htm");
    Link53WellFormed();
    Link53Refs();
    Document3(Element("a", [Attribute(" ", "href", Some(Assignment(" ", " ", BareValue("six.htm"))))], false), Text("six"), EndTag("a"));
  }

  lemma Link53TargetSegment()
    ensures Segment("six.htm")
  {
    SegmentIntro("six.htm");
  }

  lemma Link53TargetTrim()
    ensures Trim("six.htm") == "six.htm"
  {
    TrimPlain("six.htm");
  }

  lemma Link53TargetJoin()
    ensures "/blog/" + "six.htm" == "/blog/six.htm"
  {
  }

  lemma Link53Target()
    ensures Target(Base, "six.htm") == At("/blog/six.htm")
  {
    Link53TargetSegment();
    Link53TargetTrim();
    Link53TargetJoin();
    RelativeTarget("six.htm", "six.htm");
  }

  /** <a href = six.htm>six</a>: spaces around the equals sign */
  lemma Link53()
    ensures Extract(Html, "<a" + " href" + " =" + " " + "six.htm" + ">six</a>", Page, Host) == [Domain + "/blog/six.htm"]
  {
    Link53Scan();
    Link53Target();
    ExtractOne(Html, "<a" + " href" + " =" + " " + "six.htm" + ">six</a>", "six.htm", "/blog/six.htm");
  }

  lemma Link56Run1()
    ensures "<" + "a" == "<a"
  {
  }

  lemma Link56Run2()
    ensures " " + "href" + "" + "=" + "" + ['\''] == " href='"
  {
  }

  lemma Link56Run3()
    ensures ['\''] + ">" + "seven" + "<" + "/" + "a" + ">" == "'>seven</a>"
  {
  }

  lemma Link56Text(u: string)
    ensures ("<" + ("a" + ((" " + ("href" + ("" + ("=" + ("" + (['\''] + u + ['\''])))))) + ">"))) + ("seven" + ("<" + ("/" + ("a" + ">"))))
      == "<a" + " href='" + u + "'>seven</a>"
  {
    Link56Run1();
    Link56Run2();
    Link56Run3();
    Assoc("", ['\''] + u, ['\'']);
    Assoc("", ['\''], u);
    Assoc("=", "" + ['\''] + u, ['\'']);
    Assoc("=", "" + ['\''], u);
    Assoc("=", "", ['\'']);
    Assoc("", "=" + "" + ['\''] + u, ['\'']);
    Assoc("", "=" + "" + ['\''], u);
    Assoc("", "=" + "", ['\'']);
    Assoc("", "=", "");
    Assoc("href", "" + "=" + "" + ['\''] + u, ['\'']);
    Assoc("href", "" + "=" + "" + ['\''], u);
    Assoc("href", "" + "=" + "", ['\'']);
    Assoc("href", "" + "=", "");
    Assoc("href", "", "=");
    Assoc(" ", "href" + "" + "=" + "" + ['\''] + u, ['\'']);
    Assoc(" ", "href" + "" + "=" + "" + ['\''], u);
    Assoc(" ", "href" + "" + "=" + "", ['\'']);
    Assoc(" ", "href" + "" + "=", "");
    Assoc(" ", "href" + "", "=");
    Assoc(" ", "href", "");
    Assoc("a", " " + "href" + "" + "=" + "" + ['\''] + u + ['\''], ">");
    Assoc("a", " " + "href" + "" + "=" + "" + ['\''] + u, ['\'']);
    Assoc("a", " " + "href" + "" + "=" + "" + ['\''], u);
    Assoc("a", " " + "href" + "" + "=" + "", ['\'']);
    Assoc("a", " " + "href" + "" + "=", "");
    Assoc("a", " " + "href" + "", "=");
    Assoc("a", " " + "href", "");
    Assoc("a", " ", "href");
    Assoc("<", "a" + " " + "href" + "" + "=" + "" + ['\''] + u + ['\''], ">");
    Assoc("<", "a" + " " + "href" + "" + "=" + "" + ['\''] + u, ['\'']);
    Assoc("<", "a" + " " + "href" + "" + "=" + "" + ['\''], u);
    Assoc("<", "a" + " " + "href" + "" + "=" + "", ['\'']);
    Assoc("<", "a" + " " + "href" + "" + "=", "");
    Assoc("<", "a" + " " + "href" + "", "=");
    Assoc("<", "a" + " " + "href", "");
    Assoc("<", "a" + " ", "href");
    Assoc("<", "a", " ");
    Assoc("/", "a", ">");
    Assoc("<", "/" + "a", ">");
    Assoc("<", "/", "a");
    Assoc("seven", "<" + "/" + "a", ">");
    Assoc("seven", "<" + "/", "a");
    Assoc("seven", "<", "/");
    Assoc("<" + "a" + " " + "href" + "" + "=" + "" + ['\''] + u + ['\''] + ">", "seven" + "<" + "/" + "a", ">");
    Assoc("<" + "a" + " " + "href" + "" + "=" + "" + ['\''] + u + ['\''] + ">", "seven" + "<" + "/", "a");
    Assoc("<" + "a" + " " + "href" + "" + "=" + "" + ['\''] + u + ['\''] + ">", "seven" + "<", "/");
    Assoc("<" + "a" + " " + "href" + "" + "=" + "" + ['\''] + u + ['\''] + ">", "seven", "<");
    Assoc("<" + "a", " " + "href" + "" + "=" + "", ['\'']);
    Assoc("<" + "a", " " + "href" + "" + "=", "");
    Assoc("<" + "a", " " + "href" + "", "=");
    Assoc("<" + "a", " " + "href", "");
    Assoc("<" + "a", " ", "href");
    Assoc("<" + "a" + " " + "href" + "" + "=" + "" + ['\''] + u, ['\''] + ">" + "seven" + "<" + "/" + "a", ">");
    Assoc("<" + "a" + " " + "href" + "" + "=" + "" + ['\''] + u, ['\''] + ">" + "seven" + "<" + "/", "a");
    Assoc("<" + "a" + " " + "href" + "" + "=" + "" + ['\''] + u, ['\''] + ">" + "seven" + "<", "/");
    Assoc("<" + "a" + " " + "href" + "" + "=" + "" + ['\''] + u, ['\''] + ">" + "seven", "<");
    Assoc("<" + "a" + " " + "href" + "" + "=" + "" + ['\''] + u, ['\''] + ">", "seven");
    Assoc("<" + "a" + " " + "href" + "" + "=" + "" + ['\''] + u, ['\''], ">");
  }

  lemma Link56Render(u: string)
    ensures RenderNode(Element("a", [Attribute(" ", "href", Some(Assignment("", "", QuotedValue('\'', u))))], false)) + (RenderNode(Text("seven")) + RenderNode(EndTag("a")))
      == "<a" + " href='" + u + "'>seven</a>"
  {
    Attributes1(Attribute(" ", "href", Some(Assignment("", "", QuotedValue('\'', u)))));
    assert RenderAttribute(Attribute(" ", "href", Some(Assignment("", "", QuotedValue('\'', u))))) == " " + ("href" + ("" + ("=" + ("" + (['\''] + u + ['\''])))));
    assert RenderNode(Element("a", [Attribute(" ", "href", Some(Assignment("", "", QuotedValue('\'', u))))], false)) == "<" + ("a" + ((" " + ("href" + ("" + ("=" + ("" + (['\''] + u + ['\''])))))) + ">"));
    assert RenderNode(EndTag("a")) == "<" + ("/" + ("a" + ">"));
    Link56Text(u);
  }

  lemma Link56Attribute1Value()
    ensures '\'' !in "file seven.pdf"
  {
  }

  lemma Link56Attribute1()
    ensures AttributeWellFormed(Attribute(" ", "href", Some(Assignment("", "", QuotedValue('\'', "file seven.pdf")))))
  {
    AttributeHref();
    Link56Attribute1Value();
    QuotedAttributeWellFormed(" ", "href", "", "", '\'', "file seven.pdf");
  }

  lemma Link56Node1()
    ensures NodeWellFormed(Element("a", [Attribute(" ", "href", Some(Assignment("", "", QuotedValue('\'', "file seven.pdf"))))], false))
  {
    TagA();
    Link56Attribute1();
    Attributes1(Attribute(" ", "href", Some(Assignment("", "", QuotedValue('\'', "file seven.pdf")))));
  }

  lemma Link56Node2()
    ensures NodeWellFormed(Text("seven"))
  {
  }

  lemma Link56Node3()
    ensures NodeWellFormed(EndTag("a"))
  {
  }

  lemma Link56WellFormed()
    ensures NodeWellFormed(Element("a", [Attribute(" ", "href", Some(Assignment("", "", QuotedValue('\'', "file seven.pdf"))))], false)) && NodeWellFormed(Text("seven")) && NodeWellFormed(EndTag("a"))
  {
    Link56Node1();
    Link56Node2();
    Link56Node3();
  }

  lemma Link56Refs()
    ensures NodeRefs(Element("a", [Attribute(" ", "href", Some(Assignment("", "", QuotedValue('\'', "file seven.pdf"))))], false)) + (NodeRefs(Text("seven")) + NodeRefs(EndTag("a"))) == ["file seven.pdf"]
  {
    Attributes1(Attribute(" ", "href", Some(Assignment("", "", QuotedValue('\'', "file seven.pdf")))));
    AttributeHref();
    UrlAttribute(Attribute(" ", "href", Some(Assignment("", "", QuotedValue('\'', "file seven.pdf")))));
  }

  lemma Link56Scan()
    ensures RawReferences(Html, "<a" + " href='" + "file seven.pdf" + "'>seven</a>") == ["file seven.pdf"]
  {
    Link56Render("file seven.pdf");
    Link56WellFormed();
    Link56Refs();
    Document3(Element("a", [Attribute(" ", "href", Some(Assignment("", "", QuotedValue('\'', "file seven.pdf"))))], false), Text("seven"), EndTag("a"));
  }

  lemma Link56TargetSegment()
    ensures Segment("file seven.pdf")
  {
    SegmentIntro("file seven.pdf");
  }

  lemma Link56TargetTrim()
    ensures Trim("file seven.pdf") == "file seven.pdf"
  {
    TrimPlain("file seven.pdf");
  }

  lemma Link56TargetJoin()
    ensures "/blog/" + "file seven.pdf" == "/blog/file seven.pdf"
  {
  }

  lemma Link56Target()
    ensures Target(Base, "file seven.pdf") == At("/blog/file seven.pdf")
  {
    Link56TargetSegment();
    Link56TargetTrim();
    Link56TargetJoin();
    RelativeTarget("file seven.pdf", "file seven.pdf");
  }

  /** <a href='file seven.pdf'>seven</a>: a space inside a quoted value */
  lemma Link56()
    ensures Extract(Html, "<a" + " href='" + "file seven.pdf" + "'>seven</a>", Page, Host) == [Domain + "/blog/file seven.pdf"]
  {
    Link56Scan();
    Link56Target();
    ExtractOne(Html, "<a" + " href='" + "file seven.pdf" + "'>seven</a>", "file seven.pdf", "/blog/file seven.pdf");
  }

  lemma Link63Run1()
    ensures "<" + "a" == "<a"
  {
  }

  lemma Link63Run2()
    ensures " " + "href" + "" + "=" + "" == " href="
  {
  }

  lemma Link63Run3()
    ensures " " + "test" + "" + "=" + "" + "test" + ">" + "nine" + "<" + "/" + "a" + ">" == " test=test>nine</a>"
  {
  }

  lemma Link63Text(u: string)
    ensures ("<" + ("a" + (((" " + ("href" + ("" + ("=" + ("" + (u)))))) + (" " + ("test" + ("" + ("=" + ("" + ("test"))))))) + ">"))) + ("nine" + ("<" + ("/" + ("a" + ">"))))
      == "<a" + " href=" + u + " test=test>nine</a>"
  {
    Link63Run1();
    Link63Run2();
    Link63Run3();
    Assoc("=", "", u);
    Assoc("", "=" + "", u);
    Assoc("", "=", "");
    Assoc("href", "" + "=" + "", u);
    Assoc("href", "" + "=", "");
    Assoc("href", "", "=");
    Assoc(" ", "href" + "" + "=" + "", u);
    Assoc(" ", "href" + "" + "=", "");
    Assoc(" ", "href" + "", "=");
    Assoc(" ", "href", "");
    Assoc("=", "", "test");
    Assoc("", "=" + "", "test");
    Assoc("", "=", "");
    Assoc("test", "" + "=" + "", "test");
    Assoc("test", "" + "=", "");
    Assoc("test", "", "=");
    Assoc(" ", "test" + "" + "=" + "", "test");
    Assoc(" ", "test" + "" + "=", "");
    Assoc(" ", "test" + "", "=");
    Assoc(" ", "test", "");
    Assoc(" " + "href" + "" + "=" + "" + u, " " + "test" + "" + "=" + "", "test");
    Assoc(" " + "href" + "" + "=" + "" + u, " " + "test" + "" + "=", "");
    Assoc(" " + "href" + "" + "=" + "" + u, " " + "test" + "", "=");
    Assoc(" " + "href" + "" + "=" + "" + u, " " + "test", "");
    Assoc(" " + "href" + "" + "=" + "" + u, " ", "test");
    Assoc("a", " " + "href" + "" + "=" + "" + u + " " + "test" + "" + "=" + "" + "test", ">");
    Assoc("a", " " + "href" + "" + "=" + "" + u + " " + "test" + "" + "=" + "", "test");
    Assoc("a", " " + "href" + "" + "=" + "" + u + " " + "test" + "" + "=", "");
    Assoc("a", " " + "href" + "" + "=" + "" + u + " " + "test" + "", "=");
    Assoc("a", " " + "href" + "" + "=" + "" + u + " " + "test", "");
    Assoc("a", " " + "href" + "" + "=" + "" + u + " ", "test");
    Assoc("a", " " + "href" + "" + "=" + "" + u, " ");
    Assoc("a", " " + "href" + "" + "=" + "", u);
    Assoc("a", " " + "href" + "" + "=", "");
    Assoc("a", " " + "href" + "", "=");
    Assoc("a", " " + "href", "");
    Assoc("a", " ", "href");
    Assoc("<", "a" + " " + "href" + "" + "=" + "" + u + " " + "test" + "" + "=" + "" + "test", ">");
    Assoc("<", "a" + " " + "href" + "" + "=" + "" + u + " " + "test" + "" + "=" + "", "test");
    Assoc("<", "a" + " " + "href" + "" + "=" + "" + u + " " + "test" + "" + "=", "");
    Assoc("<", "a" + " " + "href" + "" + "=" + "" + u + " " + "test" + "", "=");
    Assoc("<", "a" + " " + "href" + "" + "=" + "" + u + " " + "test", "");
    Assoc("<", "a" + " " + "href" + "" + "=" + "" + u + " ", "test");
    Assoc("<", "a" + " " + "href" + "" + "=" + "" + u, " ");
    Assoc("<", "a" + " " + "href" + "" + "=" + "", u);
    Assoc("<", "a" + " " + "href" + "" + "=", "");
    Assoc("<", "a" + " " + "href" + "", "=");
    Assoc("<", "a" + " " + "href", "");
    Assoc("<", "a" + " ", "href");
    Assoc("<", "a", " ");
    Assoc("/", "a", ">");
    Assoc("<", "/" + "a", ">");
    Assoc("<", "/", "a");
    Assoc("nine", "<" + "/" + "a", ">");
    Assoc("nine", "<" + "/", "a");
    Assoc("nine", "<", "/");
    Assoc("<" + "a" + " " + "href" + "" + "=" + "" + u + " " + "test" + "" + "=" + "" + "test" + ">", "nine" + "<" + "/" + "a", ">");
    Assoc("<" + "a" + " " + "href" + "" + "=" + "" + u + " " + "test" + "" + "=" + "" + "test" + ">", "nine" + "<" + "/", "a");
    Assoc("<" + "a" + " " + "href" + "" + "=" + "" + u + " " + "test" + "" + "=" + "" + "test" + ">", "nine" + "<", "/");
    Assoc("<" + "a" + " " + "href" + "" + "=" + "" + u + " " + "test" + "" + "=" + "" + "test" + ">", "nine", "<");
    Assoc("<" + "a", " " + "href" + "" + "=", "");
    Assoc("<" + "a", " " + "href" + "", "=");
    Assoc("<" + "a", " " + "href", "");
    Assoc("<" + "a", " ", "href");
    Assoc("<" + "a" + " " + "href" + "" + "=" + "" + u, " " + "test" + "" + "=" + "" + "test" + ">" + "nine" + "<" + "/" + "a", ">");
    Assoc("<" + "a" + " " + "href" + "" + "=" + "" + u, " " + "test" + "" + "=" + "" + "test" + ">" + "nine" + "<" + "/", "a");
    Assoc("<" + "a" + " " + "href" + "" + "=" + "" + u, " " + "test" + "" + "=" + "" + "test" + ">" + "nine" + "<", "/");
    Assoc("<" + "a" + " " + "href" + "" + "=" + "" + u, " " + "test" + "" + "=" + "" + "test" + ">" + "nine", "<");
    Assoc("<" + "a" + " " + "href" + "" + "=" + "" + u, " " + "test" + "" + "=" + "" + "test" + ">", "nine");
    Assoc("<" + "a" + " " + "href" + "" + "=" + "" + u, " " + "test" + "" + "=" + "" + "test", ">");
    Assoc("<" + "a" + " " + "href" + "" + "=" + "" + u, " " + "test" + "" + "=" + "", "test");
    Assoc("<" + "a" + " " + "href" + "" + "=" + "" + u, " " + "test" + "" + "=", "");
    Assoc("<" + "a" + " " + "href" + "" + "=" + "" + u, " " + "test" + "", "=");
    Assoc("<" + "a" + " " + "href" + "" + "=" + "" + u, " " + "test", "");
    Assoc("<" + "a" + " " + "href" + "" + "=" + "" + u, " ", "test");
  }

  lemma Link63Render(u: string)
    ensures RenderNode(Element("a", [Attribute(" ", "href", Some(Assignment("", "", BareValue(u)))), Attribute(" ", "test", Some(Assignment("", "", BareValue("test"))))], false)) + (RenderNode(Text("nine")) + RenderNode(EndTag("a")))
      == "<a" + " href=" + u + " test=test>nine</a>"
  {
    Attributes2(Attribute(" ", "href", Some(Assignment("", "", BareValue(u)))), Attribute(" ", "test", Some(Assignment("", "", BareValue("test")))));
    assert RenderAttribute(Attribute(" ", "href", Some(Assignment("", "", BareValue(u))))) == " " + ("href" + ("" + ("=" + ("" + (u)))));
    assert RenderAttribute(Attribute(" ", "test", Some(Assignment("", "", BareValue("test"))))) == " " + ("test" + ("" + ("=" + ("" + ("test")))));
    assert RenderNode(Element("a", [Attribute(" ", "href", Some(Assignment("", "", BareValue(u)))), Attribute(" ", "test", Some(Assignment("", "", BareValue("test"))))], false)) == "<" + ("a" + (((" " + ("href" + ("" + ("=" + ("" + (u)))))) + (" " + ("test" + ("" + ("=" + ("" + ("test"))))))) + ">"));
    assert RenderNode(EndTag("a")) == "<" + ("/" + ("a" + ">"));
    Link63Text(u);
  }

  lemma Link63Attribute1ValueChar1()
    ensures ' ' !in "nine.htm"
  {
  }

  lemma Link63Attribute1ValueChar2()
    ensures '\t' !in "nine.htm"
  {
  }

  lemma Link63Attribute1ValueChar3()
    ensures '\n' !in "nine.htm"
  {
  }

  lemma Link63Attribute1ValueChar4()
    ensures '\r' !in "nine.htm"
  {
  }

  lemma Link63Attribute1ValueChar5()
    ensures '\U{000C}' !in "nine.htm"
  {
  }

  lemma Link63Attribute1ValueChar6()
    ensures '>' !in "nine.htm"
  {
  }

  lemma Link63Attribute1Value()
    ensures NoneIn("nine.htm", BareValueStop)
  {
    Link63Attribute1ValueChar1();
    Link63Attribute1ValueChar2();
    Link63Attribute1ValueChar3();
    Link63Attribute1ValueChar4();
    Link63Attribute1ValueChar5();
    Link63Attribute1ValueChar6();
    NoneInIntro("nine.htm", BareValueStop);
  }

  lemma Link63Attribute1()
    ensures AttributeWellFormed(Attribute(" ", "href", Some(Assignment("", "", BareValue("nine.htm")))))
  {
    AttributeHref();
    Link63Attribute1Value();
    BareAttributeWellFormed(" ", "href", "", "", "nine.htm");
  }

  lemma Link63Attribute2ValueChar1()
    ensures ' ' !in "test"
  {
  }

  lemma Link63Attribute2ValueChar2()
    ensures '\t' !in "test"
  {
  }

  lemma Link63Attribute2ValueChar3()
    ensures '\n' !in "test"
  {
  }

  lemma Link63Attribute2ValueChar4()
    ensures '\r' !in "test"
  {
  }

  lemma Link63Attribute2ValueChar5()
    ensures '\U{000C}' !in "test"
  {
  }

  lemma Link63Attribute2ValueChar6()
    ensures '>' !in "test"
  {
  }

  lemma Link63Attribute2Value()
    ensures NoneIn("test", BareValueStop)
  {
    Link63Attribute2ValueChar1();
    Link63Attribute2ValueChar2();
    Link63Attribute2ValueChar3();
    Link63Attribute2ValueChar4();
    Link63Attribute2ValueChar5();
    Link63Attribute2ValueChar6();
    NoneInIntro("test", BareValueStop);
  }

  lemma Link63Attribute2()
    ensures AttributeWellFormed(Attribute(" ", "test", Some(Assignment("", "", BareValue("test")))))
  {
    AttributeTest();
    Link63Attribute2Value();
    BareAttributeWellFormed(" ", "test", "", "", "test");
  }

  lemma Link63Node1()
    ensures NodeWellFormed(Element("a", [Attribute(" ", "href", Some(Assignment("", "", BareValue("nine.htm")))), Attribute(" ", "test", Some(Assignment("", "", BareValue("test"))))], false))
  {
    TagA();
    Link63Attribute1();
    Link63Attribute2();
    Attributes2(Attribute(" ", "href", Some(Assignment("", "", BareValue("nine.htm")))), Attribute(" ", "test", Some(Assignment("", "", BareValue("test")))));
  }

  lemma Link63Node2()
    ensures NodeWellFormed(Text("nine"))
  {
  }

  lemma Link63Node3()
    ensures NodeWellFormed(EndTag("a"))
  {
  }

  lemma Link63WellFormed()
    ensures NodeWellFormed(Element("a", [Attribute(" ", "href", Some(Assignment("", "", BareValue("nine.htm")))), Attribute(" ", "test", Some(Assignment("", "", BareValue("test"))))], false)) && NodeWellFormed(Text("nine")) && NodeWellFormed(EndTag("a"))
  {
    Link63Node1();
    Link63Node2();
    Link63Node3();
  }

  lemma Link63Refs()
    ensures NodeRefs(Element("a", [Attribute(" ", "href", Some(Assignment("", "", BareValue("nine.htm")))), Attribute(" ", "test", Some(Assignment("", "", BareValue("test"))))], false)) + (NodeRefs(Text("nine")) + NodeRefs(EndTag("a"))) == ["nine.htm"]
  {
    Attributes2(Attribute(" ", "href", Some(Assignment("", "", BareValue("nine.htm")))), Attribute(" ", "test", Some(Assignment("", "", BareValue("test")))));
    AttributeHref();
    UrlAttribute(Attribute(" ", "href", Some(Assignment("", "", BareValue("nine.htm")))));
    AttributeTest();
    OtherAttribute(Attribute(" ", "test", Some(Assignment("", "", BareValue("test")))));
  }

  lemma Link63Scan()
    ensures RawReferences(Html, "<a" + " href=" + "nine.htm" + " test=test>nine</a>") == ["nine.htm"]
  {
    Link63Render("nine.htm");
    Link63WellFormed();
    Link63Refs();
    Document3(Element("a", [Attribute(" ", "href", Some(Assignment("", "", BareValue("nine.htm")))), Attribute(" ", "test", Some(Assignment("", "", BareValue("test"))))], false), Text("nine"), EndTag("a"));
  }

  lemma Link63TargetSegment()
    ensures Segment("nine.htm")
  {
    SegmentIntro("nine.htm");
  }

  lemma Link63TargetTrim()
    ensures Trim("nine.htm") == "nine.htm"
  {
    TrimPlain("nine.htm");
  }

  lemma Link63TargetJoin()
    ensures "/blog/" + "nine.htm" == "/blog/nine.htm"
  {
  }

  lemma Link63Target()
    ensures Target(Base, "nine.htm") == At("/blog/nine.htm")
  {
    Link63TargetSegment();
    Link63TargetTrim();
    Link63TargetJoin();
    RelativeTarget("nine.htm", "nine.htm");
  }

  /** <a href=nine.htm test=test>nine</a>: an unquoted value followed by another attribute */
  lemma Link63()
    ensures Extract(Html, "<a" + " href=" + "nine.htm" + " test=test>nine</a>", Page, Host) == [Domain + "/blog/nine.htm"]
  {
    Link63Scan();
    Link63Target();
    ExtractOne(Html, "<a" + " href=" + "nine.htm" + " test=test>nine</a>", "nine.htm", "/blog/nine.htm");
  }

  lemma Link66Run1()
    ensures "<" + "a" == "<a"
  {
  }

  lemma Link66Run2()
    ensures " " + "href" + "" + "=" + "" + ['\''] == " href='"
  {
  }

  lemma Link66Run3()
    ensures ['\''] + ">" + "ten" + "<" + "/" + "a" + ">" == "'>ten</a>"
  {
  }

  lemma Link66Text(u: string)
    ensures ("<" + ("a" + ((" " + ("href" + ("" + ("=" + ("" + (['\''] + u + ['\''])))))) + ">"))) + ("ten" + ("<" + ("/" + ("a" + ">"))))
      == "<a" + " href='" + u + "'>ten</a>"
  {
    Link66Run1();
    Link66Run2();
    Link66Run3();
    Assoc("", ['\''] + u, ['\'']);
    Assoc("", ['\''], u);
    Assoc("=", "" + ['\''] + u, ['\'']);
    Assoc("=", "" + ['\''], u);
    Assoc("=", "", ['\'']);
    Assoc("", "=" + "" + ['\''] + u, ['\'']);
    Assoc("", "=" + "" + ['\''], u);
    Assoc("", "=" + "", ['\'']);
    Assoc("", "=", "");
    Assoc("href", "" + "=" + "" + ['\''] + u, ['\'']);
    Assoc("href", "" + "=" + "" + ['\''], u);
    Assoc("href", "" + "=" + "", ['\'']);
    Assoc("href", "" + "=", "");
    Assoc("href", "", "=");
    Assoc(" ", "href" + "" + "=" + "" + ['\''] + u, ['\'']);
    Assoc(" ", "href" + "" + "=" + "" + ['\''], u);
    Assoc(" ", "href" + "" + "=" + "", ['\'']);
    Assoc(" ", "href" + "" + "=", "");
    Assoc(" ", "href" + "", "=");
    Assoc(" ", "href", "");
    Assoc("a", " " + "href" + "" + "=" + "" + ['\''] + u + ['\''], ">");
    Assoc("a", " " + "href" + "" + "=" + "" + ['\''] + u, ['\'']);
    Assoc("a", " " + "href" + "" + "=" + "" + ['\''], u);
    Assoc("a", " " + "href" + "" + "=" + "", ['\'']);
    Assoc("a", " " + "href" + "" + "=", "");
    Assoc("a", " " + "href" + "", "=");
    Assoc("a", " " + "href", "");
    Assoc("a", " ", "href");
    Assoc("<", "a" + " " + "href" + "" + "=" + "" + ['\''] + u + ['\''], ">");
    Assoc("<", "a" + " " + "href" + "" + "=" + "" + ['\''] + u, ['\'']);
    Assoc("<", "a" + " " + "href" + "" + "=" + "" + ['\''], u);
    Assoc("<", "a" + " " + "href" + "" + "=" + "", ['\'']);
    Assoc("<", "a" + " " + "href" + "" + "=", "");
    Assoc("<", "a" + " " + "href" + "", "=");
    Assoc("<", "a" + " " + "href", "");
    Assoc("<", "a" + " ", "href");
    Assoc("<", "a", " ");
    Assoc("/", "a", ">");
    Assoc("<", "/" + "a", ">");
    Assoc("<", "/", "a");
    Assoc("ten", "<" + "/" + "a", ">");
    Assoc("ten", "<" + "/", "a");
    Assoc("ten", "<", "/");
    Assoc("<" + "a" + " " + "href" + "" + "=" + "" + ['\''] + u + ['\''] + ">", "ten" + "<" + "/" + "a", ">");
    Assoc("<" + "a" + " " + "href" + "" + "=" + "" + ['\''] + u + ['\''] + ">", "ten" + "<" + "/", "a");
    Assoc("<" + "a" + " " + "href" + "" + "=" + "" + ['\''] + u + ['\''] + ">", "ten" + "<", "/");
    Assoc("<" + "a" + " " + "href" + "" + "=" + "" + ['\''] + u + ['\''] + ">", "ten", "<");
    Assoc("<" + "a", " " + "href" + "" + "=" + "", ['\'']);
    Assoc("<" + "a", " " + "href" + "" + "=", "");
    Assoc("<" + "a", " " + "href" + "", "=");
    Assoc("<" + "a", " " + "href", "");
    Assoc("<" + "a", " ", "href");
    Assoc("<" + "a" + " " + "href" + "" + "=" + "" + ['\''] + u, ['\''] + ">" + "ten" + "<" + "/" + "a", ">");
    Assoc("<" + "a" + " " + "href" + "" + "=" + "" + ['\''] + u, ['\''] + ">" + "ten" + "<" + "/", "a");
    Assoc("<" + "a" + " " + "href" + "" + "=" + "" + ['\''] + u, ['\''] + ">" + "ten" + "<", "/");
    Assoc("<" + "a" + " " + "href" + "" + "=" + "" + ['\''] + u, ['\''] + ">" + "ten", "<");
    Assoc("<" + "a" + " " + "href" + "" + "=" + "" + ['\''] + u, ['\''] + ">", "ten");
    Assoc("<" + "a" + " " + "href" + "" + "=" + "" + ['\''] + u, ['\''], ">");
  }

  lemma Link66Render(u: string)
    ensures RenderNode(Element("a", [Attribute(" ", "href", Some(Assignment("", "", QuotedValue('\'', u))))], false)) + (RenderNode(Text("ten")) + RenderNode(EndTag("a")))
      == "<a" + " href='" + u + "'>ten</a>"
  {
    Attributes1(Attribute(" ", "href", Some(Assignment("", "", QuotedValue('\'', u)))));
    assert RenderAttribute(Attribute(" ", "href", Some(Assignment("", "", QuotedValue('\'', u))))) == " " + ("href" + ("" + ("=" + ("" + (['\''] + u + ['\''])))));
    assert RenderNode(Element("a", [Attribute(" ", "href", Some(Assignment("", "", QuotedValue('\'', u))))], false)) == "<" + ("a" + ((" " + ("href" + ("" + ("=" + ("" + (['\''] + u + ['\''])))))) + ">"));
    assert RenderNode(EndTag("a")) == "<" + ("/" + ("a" + ">"));
    Link66Text(u);
  }

  lemma Link66Attribute1Value()
    ensures '\'' !in "/path/ten.htm"
  {
  }

  lemma Link66Attribute1()
    ensures AttributeWellFormed(Attribute(" ", "href", Some(Assignment("", "", QuotedValue('\'', "/path/ten.htm")))))
  {
    AttributeHref();
    Link66Attribute1Value();
    QuotedAttributeWellFormed(" ", "href", "", "", '\'', "/path/ten.htm");
  }

  lemma Link66Node1()
    ensures NodeWellFormed(Element("a", [Attribute(" ", "href", Some(Assignment("", "", QuotedValue('\'', "/path/ten.htm"))))], false))
  {
    TagA();
    Link66Attribute1();
    Attributes1(Attribute(" ", "href", Some(Assignment("", "", QuotedValue('\'', "/path/ten.htm")))));
  }

  lemma Link66Node2()
    ensures NodeWellFormed(Text("ten"))
  {
  }

  lemma Link66Node3()
    ensures NodeWellFormed(EndTag("a"))
  {
  }

  lemma Link66WellFormed()
    ensures NodeWellFormed(Element("a", [Attribute(" ", "href", Some(Assignment("", "", QuotedValue('\'', "/path/ten.htm"))))], false)) && NodeWellFormed(Text("ten")) && NodeWellFormed(EndTag("a"))
  {
    Link66Node1();
    Link66Node2();
    Link66Node3();
  }

  lemma Link66Refs()
    ensures NodeRefs(Element("a", [Attribute(" ", "href", Some(Assignment("", "", QuotedValue('\'', "/path/ten.htm"))))], false)) + (NodeRefs(Text("ten")) + NodeRefs(EndTag("a"))) == ["/path/ten.htm"]
  {
    Attributes1(Attribute(" ", "href", Some(Assignment("", "", QuotedValue('\'', "/path/ten.htm")))));
    AttributeHref();
    UrlAttribute(Attribute(" ", "href", Some(Assignment("", "", QuotedValue('\'', "/path/ten.htm")))));
  }

  lemma Link66Scan()
    ensures RawReferences(Html, "<a" + " href='" + "/path/ten.htm" + "'>ten</a>") == ["/path/ten.htm"]
  {
    Link66Render("/path/ten.htm");
    Link66WellFormed();
    Link66Refs();
    Document3(Element("a", [Attribute(" ", "href", Some(Assignment("", "", QuotedValue('\'', "/path/ten.htm"))))], false), Text("ten"), EndTag("a"));
  }

  lemma Link66TargetSegment1()
    ensures Segment("path")
  {
    SegmentIntro("path");
  }

  lemma Link66TargetSegment2()
    ensures Segment("ten.htm")
  {
    SegmentIntro("ten.htm");
  }

  lemma Link66TargetJoin()
    ensures "/" + "path" + "/" + "ten.htm" == "/path/ten.htm"
  {
  }

  lemma Link66TargetTrim()
    ensures Trim("/path/ten.htm") == "/path/ten.htm"
  {
    TrimPlain("/path/ten.htm");
  }

  lemma Link66Target()
    ensures Target(Base, "/path/ten.htm") == At("/path/ten.htm")
  {
    Link66TargetSegment1();
    Link66TargetSegment2();
    Link66TargetJoin();
    Link66TargetTrim();
    RootPairTarget("/path/ten.htm", "path", "ten.htm");
  }

  /** <a href='/path/ten.htm'>ten</a>: a root-relative URL with a directory */
  lemma Link66()
    ensures Extract(Html, "<a" + " href='" + "/path/ten.htm" + "'>ten</a>", Page, Host) == [Domain + "/path/ten.htm"]
  {
    Link66Scan();
    Link66Target();
    ExtractOne(Html, "<a" + " href='" + "/path/ten.htm" + "'>ten</a>", "/path/ten.htm", "/path/ten.htm");
  }

  lemma Link69Run1()
    ensures "<" + "a" == "<a"
  {
  }

  lemma Link69Run2()
    ensures " " + "href" + "" + "=" + "" + ['\''] == " href='"
  {
  }

  lemma Link69Run3()
    ensures ['\''] + ">" + "11" + "<" + "/" + "a" + ">" == "'>11</a>"
  {
  }

  lemma Link69Text(u: string)
    ensures ("<" + ("a" + ((" " + ("href" + ("" + ("=" + ("" + (['\''] + u + ['\''])))))) + ">"))) + ("11" + ("<" + ("/" + ("a" + ">"))))
      == "<a" + " href='" + u + "'>11</a>"
  {
    Link69Run1();
    Link69Run2();
    Link69Run3();
    Assoc("", ['\''] + u, ['\'']);
    Assoc("", ['\''], u);
    Assoc("=", "" + ['\''] + u, ['\'']);
    Assoc("=", "" + ['\''], u);
    Assoc("=", "", ['\'']);
    Assoc("", "=" + "" + ['\''] + u, ['\'']);
    Assoc("", "=" + "" + ['\''], u);
    Assoc("", "=" + "", ['\'']);
    Assoc("", "=", "");
    Assoc("href", "" + "=" + "" + ['\''] + u, ['\'']);
    Assoc("href", "" + "=" + "" + ['\''], u);
    Assoc("href", "" + "=" + "", ['\'']);
    Assoc("href", "" + "=", "");
    Assoc("href", "", "=");
    Assoc(" ", "href" + "" + "=" + "" + ['\''] + u, ['\'']);
    Assoc(" ", "href" + "" + "=" + "" + ['\''], u);
    Assoc(" ", "href" + "" + "=" + "", ['\'']);
    Assoc(" ", "href" + "" + "=", "");
    Assoc(" ", "href" + "", "=");
    Assoc(" ", "href", "");
    Assoc("a", " " + "href" + "" + "=" + "" + ['\''] + u + ['\''], ">");
    Assoc("a", " " + "href" + "" + "=" + "" + ['\''] + u, ['\'']);
    Assoc("a", " " + "href" + "" + "=" + "" + ['\''], u);
    Assoc("a", " " + "href" + "" + "=" + "", ['\'']);
    Assoc("a", " " + "href" + "" + "=", "");
    Assoc("a", " " + "href" + "", "=");
    Assoc("a", " " + "href", "");
    Assoc("a", " ", "href");
    Assoc("<", "a" + " " + "href" + "" + "=" + "" + ['\''] + u + ['\''], ">");
    Assoc("<", "a" + " " + "href" + "" + "=" + "" + ['\''] + u, ['\'']);
    Assoc("<", "a" + " " + "href" + "" + "=" + "" + ['\''], u);
    Assoc("<", "a" + " " + "href" + "" + "=" + "", ['\'']);
    Assoc("<", "a" + " " + "href" + "" + "=", "");
    Assoc("<", "a" + " " + "href" + "", "=");
    Assoc("<", "a" + " " + "href", "");
    Assoc("<", "a" + " ", "href");
    Assoc("<", "a", " ");
    Assoc("/", "a", ">");
    Assoc("<", "/" + "a", ">");
    Assoc("<", "/", "a");
    Assoc("11", "<" + "/" + "a", ">");
    Assoc("11", "<" + "/", "a");
    Assoc("11", "<", "/");
    Assoc("<" + "a" + " " + "href" + "" + "=" + "" + ['\''] + u + ['\''] + ">", "11" + "<" + "/" + "a", ">");
    Assoc("<" + "a" + " " + "href" + "" + "=" + "" + ['\''] + u + ['\''] + ">", "11" + "<" + "/", "a");
    Assoc("<" + "a" + " " + "href" + "" + "=" + "" + ['\''] + u + ['\''] + ">", "11" + "<", "/");
    Assoc("<" + "a" + " " + "href" + "" + "=" + "" + ['\''] + u + ['\''] + ">", "11", "<");
    Assoc("<" + "a", " " + "href" + "" + "=" + "", ['\'']);
    Assoc("<" + "a", " " + "href" + "" + "=", "");
    Assoc("<" + "a", " " + "href" + "", "=");
    Assoc("<" + "a", " " + "href", "");
    Assoc("<" + "a", " ", "href");
    Assoc("<" + "a" + " " + "href" + "" + "=" + "" + ['\''] + u, ['\''] + ">" + "11" + "<" + "/" + "a", ">");
    Assoc("<" + "a" + " " + "href" + "" + "=" + "" + ['\''] + u, ['\''] + ">" + "11" + "<" + "/", "a");
    Assoc("<" + "a" + " " + "href" + "" + "=" + "" + ['\''] + u, ['\''] + ">" + "11" + "<", "/");
    Assoc("<" + "a" + " " + "href" + "" + "=" + "" + ['\''] + u, ['\''] + ">" + "11", "<");
    Assoc("<" + "a" + " " + "href" + "" + "=" + "" + ['\''] + u, ['\''] + ">", "11");
    Assoc("<" + "a" + " " + "href" + "" + "=" + "" + ['\''] + u, ['\''], ">");
  }

  lemma Link69Render(u: string)
    ensures RenderNode(Element("a", [Attribute(" ", "href", Some(Assignment("", "", QuotedValue('\'', u))))], false)) + (RenderNode(Text("11")) + RenderNode(EndTag("a")))
      == "<a" + " href='" + u + "'>11</a>"
  {
    Attributes1(Attribute(" ", "href", Some(Assignment("", "", QuotedValue('\'', u)))));
    assert RenderAttribute(Attribute(" ", "href", Some(Assignment("", "", QuotedValue('\'', u))))) == " " + ("href" + ("" + ("=" + ("" + (['\''] + u + ['\''])))));
    assert RenderNode(Element("a", [Attribute(" ", "href", Some(Assignment("", "", QuotedValue('\'', u))))], false)) == "<" + ("a" + ((" " + ("href" + ("" + ("=" + ("" + (['\''] + u + ['\''])))))) + ">"));
    assert RenderNode(EndTag("a")) == "<" + ("/" + ("a" + ">"));
    Link69Text(u);
  }

  lemma Link69Attribute1Value()
    ensures '\'' !in "/11.htm?test=true"
  {
  }

  lemma Link69Attribute1()
    ensures AttributeWellFormed(Attribute(" ", "href", Some(Assignment("", "", QuotedValue('\'', "/11.htm?test=true")))))
  {
    AttributeHref();
    Link69Attribute1Value();
    QuotedAttributeWellFormed(" ", "href", "", "", '\'', "/11.htm?test=true");
  }

  lemma Link69Node1()
    ensures NodeWellFormed(Element("a", [Attribute(" ", "href", Some(Assignment("", "", QuotedValue('\'', "/11.htm?test=true"))))], false))
  {
    TagA();
    Link69Attribute1();
    Attributes1(Attribute(" ", "href", Some(Assignment("", "", QuotedValue('\'', "/11.htm?test=true")))));
  }

  lemma Link69Node2()
    ensures NodeWellFormed(Text("11"))
  {
  }

  lemma Link69Node3()
    ensures NodeWellFormed(EndTag("a"))
  {
  }

  lemma Link69WellFormed()
    ensures NodeWellFormed(Element("a", [Attribute(" ", "href", Some(Assignment("", "", QuotedValue('\'', "/11.htm?test=true"))))], false)) && NodeWellFormed(Text("11")) && NodeWellFormed(EndTag("a"))
  {
    Link69Node1();
    Link69Node2();
    Link69Node3();
  }

  lemma Link69Refs()
    ensures NodeRefs(Element("a", [Attribute(" ", "href", Some(Assignment("", "", QuotedValue('\'', "/11.htm?test=true"))))], false)) + (NodeRefs(Text("11")) + NodeRefs(EndTag("a"))) == ["/11.htm?test=true"]
  {
    Attributes1(Attribute(" ", "href", Some(Assignment("", "", QuotedValue('\'', "/11.htm?test=true")))));
    AttributeHref();
    UrlAttribute(Attribute(" ", "href", Some(Assignment("", "", QuotedValue('\'', "/11.htm?test=true")))));
  }

  lemma Link69Scan()
    ensures RawReferences(Html, "<a" + " href='" + "/11.htm?test=true" + "'>11</a>") == ["/11.htm?test=true"]
  {
    Link69Render("/11.htm?test=true");
    Link69WellFormed();
    Link69Refs();
    Document3(Element("a", [Attribute(" ", "href", Some(Assignment("", "", QuotedValue('\'', "/11.htm?test=true"))))], false), Text("11"), EndTag("a"));
  }

  lemma Link69TargetSegment()
    ensures Segment("11.htm")
  {
    SegmentIntro("11.htm");
  }

  lemma Link69TargetNoHash()
    ensures '#' !in "test=true"
  {
  }

  lemma Link69TargetJoin()
    ensures "/" + "11.htm" + "?" + "test=true" == "/11.htm?test=true"
  {
  }

  lemma Link69TargetTrim()
    ensures Trim("/11.htm?test=true") == "/11.htm?test=true"
  {
    TrimPlain("/11.htm?test=true");
  }

  lemma Link69TargetPath()
    ensures "/" + "11.htm" == "/11.htm"
  {
  }

  lemma Link69Target()
    ensures Target(Base, "/11.htm?test=true") == At("/11.htm")
  {
    Link69TargetSegment();
    Link69TargetNoHash();
    Link69TargetJoin();
    Link69TargetTrim();
    Link69TargetPath();
    RootQueryTarget("/11.htm?test=true", "11.htm", "test=true");
  }

  /** <a href='/11.htm?test=true'>11</a>: the query is dropped */
  lemma Link69()
    ensures Extract(Html, "<a" + " href='" + "/11.htm?test=true" + "'>11</a>", Page, Host) == [Domain + "/11.htm"]
  {
    Link69Scan();
    Link69Target();
    ExtractOne(Html, "<a" + " href='" + "/11.htm?test=true" + "'>11</a>", "/11.htm?test=true", "/11.htm");
  }

  lemma Link72Run1()
    ensures "<" + "a" == "<a"
  {
  }

  lemma Link72Run2()
    ensures " " + "href" + "" + "=" + "" + ['\''] == " href='"
  {
  }

  lemma Link72Run3()
    ensures ['\''] + ">" + "12" + "<" + "/" + "a" + ">" == "'>12</a>"
  {
  }

  lemma Link72Text(u: string)
    ensures ("<" + ("a" + ((" " + ("href" + ("" + ("=" + ("" + (['\''] + u + ['\''])))))) + ">"))) + ("12" + ("<" + ("/" + ("a" + ">"))))
      == "<a" + " href='" + u + "'>12</a>"
  {
    Link72Run1();
    Link72Run2();
    Link72Run3();
    Assoc("", ['\''] + u, ['\'']);
    Assoc("", ['\''], u);
    Assoc("=", "" + ['\''] + u, ['\'']);
    Assoc("=", "" + ['\''], u);
    Assoc("=", "", ['\'']);
    Assoc("", "=" + "" + ['\''] + u, ['\'']);
    Assoc("", "=" + "" + ['\''], u);
    Assoc("", "=" + "", ['\'']);
    Assoc("", "=", "");
    Assoc("href", "" + "=" + "" + ['\''] + u, ['\'']);
    Assoc("href", "" + "=" + "" + ['\''], u);
    Assoc("href", "" + "=" + "", ['\'']);
    Assoc("href", "" + "=", "");
    Assoc("href", "", "=");
    Assoc(" ", "href" + "" + "=" + "" + ['\''] + u, ['\'']);
    Assoc(" ", "href" + "" + "=" + "" + ['\''], u);
    Assoc(" ", "href" + "" + "=" + "", ['\'']);
    Assoc(" ", "href" + "" + "=", "");
    Assoc(" ", "href" + "", "=");
    Assoc(" ", "href", "");
    Assoc("a", " " + "href" + "" + "=" + "" + ['\''] + u + ['\''], ">");
    Assoc("a", " " + "href" + "" + "=" + "" + ['\''] + u, ['\'']);
    Assoc("a", " " + "href" + "" + "=" + "" + ['\''], u);
    Assoc("a", " " + "href" + "" + "=" + "", ['\'']);
    Assoc("a", " " + "href" + "" + "=", "");
    Assoc("a", " " + "href" + "", "=");
    Assoc("a", " " + "href", "");
    Assoc("a", " ", "href");
    Assoc("<", "a" + " " + "href" + "" + "=" + "" + ['\''] + u + ['\''], ">");
    Assoc("<", "a" + " " + "href" + "" + "=" + "" + ['\''] + u, ['\'']);
    Assoc("<", "a" + " " + "href" + "" + "=" + "" + ['\''], u);
    Assoc("<", "a" + " " + "href" + "" + "=" + "", ['\'']);
    Assoc("<", "a" + " " + "href" + "" + "=", "");
    Assoc("<", "a" + " " + "href" + "", "=");
    Assoc("<", "a" + " " + "href", "");
    Assoc("<", "a" + " ", "href");
    Assoc("<", "a", " ");
    Assoc("/", "a", ">");
    Assoc("<", "/" + "a", ">");
    Assoc("<", "/", "a");
    Assoc("12", "<" + "/" + "a", ">");
    Assoc("12", "<" + "/", "a");
    Assoc("12", "<", "/");
    Assoc("<" + "a" + " " + "href" + "" + "=" + "" + ['\''] + u + ['\''] + ">", "12" + "<" + "/" + "a", ">");
    Assoc("<" + "a" + " " + "href" + "" + "=" + "" + ['\''] + u + ['\''] + ">", "12" + "<" + "/", "a");
    Assoc("<" + "a" + " " + "href" + "" + "=" + "" + ['\''] + u + ['\''] + ">", "12" + "<", "/");
    Assoc("<" + "a" + " " + "href" + "" + "=" + "" + ['\''] + u + ['\''] + ">", "12", "<");
    Assoc("<" + "a", " " + "href" + "" + "=" + "", ['\'']);
    Assoc("<" + "a", " " + "href" + "" + "=", "");
    Assoc("<" + "a", " " + "href" + "", "=");
    Assoc("<" + "a", " " + "href", "");
    Assoc("<" + "a", " ", "href");
    Assoc("<" + "a" + " " + "href" + "" + "=" + "" + ['\''] + u, ['\''] + ">" + "12" + "<" + "/" + "a", ">");
    Assoc("<" + "a" + " " + "href" + "" + "=" + "" + ['\''] + u, ['\''] + ">" + "12" + "<" + "/", "a");
    Assoc("<" + "a" + " " + "href" + "" + "=" + "" + ['\''] + u, ['\''] + ">" + "12" + "<", "/");
    Assoc("<" + "a" + " " + "href" + "" + "=" + "" + ['\''] + u, ['\''] + ">" + "12", "<");
    Assoc("<" + "a" + " " + "href" + "" + "=" + "" + ['\''] + u, ['\''] + ">", "12");
    Assoc("<" + "a" + " " + "href" + "" + "=" + "" + ['\''] + u, ['\''], ">");
  }

  lemma Link72Render(u: string)
    ensures RenderNode(Element("a", [Attribute(" ", "href", Some(Assignment("", "", QuotedValue('\'', u))))], false)) + (RenderNode(Text("12")) + RenderNode(EndTag("a")))
      == "<a" + " href='" + u + "'>12</a>"
  {
    Attributes1(Attribute(" ", "href", Some(Assignment("", "", QuotedValue('\'', u)))));
    assert RenderAttribute(Attribute(" ", "href", Some(Assignment("", "", QuotedValue('\'', u))))) == " " + ("href" + ("" + ("=" + ("" + (['\''] + u + ['\''])))));
    assert RenderNode(Element("a", [Attribute(" ", "href", Some(Assignment("", "", QuotedValue('\'', u))))], false)) == "<" + ("a" + ((" " + ("href" + ("" + ("=" + ("" + (['\''] + u + ['\''])))))) + ">"));
    assert RenderNode(EndTag("a")) == "<" + ("/" + ("a" + ">"));
    Link72Text(u);
  }

  lemma Link72Attribute1Value()
    ensures '\'' !in "/12.htm#test"
  {
  }

  lemma Link72Attribute1()
    ensures AttributeWellFormed(Attribute(" ", "href", Some(Assignment("", "", QuotedValue('\'', "/12.htm#test")))))
  {
    AttributeHref();
    Link72Attribute1Value();
    QuotedAttributeWellFormed(" ", "href", "", "", '\'', "/12.htm#test");
  }

  lemma Link72Node1()
    ensures NodeWellFormed(Element("a", [Attribute(" ", "href", Some(Assignment("", "", QuotedValue('\'', "/12.htm#test"))))], false))
  {
    TagA();
    Link72Attribute1();
    Attributes1(Attribute(" ", "href", Some(Assignment("", "", QuotedValue('\'', "/12.htm#test")))));
  }

  lemma Link72Node2()
    ensures NodeWellFormed(Text("12"))
  {
  }

  lemma Link72Node3()
    ensures NodeWellFormed(EndTag("a"))
  {
  }

  lemma Link72WellFormed()
    ensures NodeWellFormed(Element("a", [Attribute(" ", "href", Some(Assignment("", "", QuotedValue('\'', "/12.htm#test"))))], false)) && NodeWellFormed(Text("12")) && NodeWellFormed(EndTag("a"))
  {
    Link72Node1();
    Link72Node2();
    Link72Node3();
  }

  lemma Link72Refs()
    ensures NodeRefs(Element("a", [Attribute(" ", "href", Some(Assignment("", "", QuotedValue('\'', "/12.htm#test"))))], false)) + (NodeRefs(Text("12")) + NodeRefs(EndTag("a"))) == ["/12.htm#test"]
  {
    Attributes1(Attribute(" ", "href", Some(Assignment("", "", QuotedValue('\'', "/12.htm#test")))));
    AttributeHref();
    UrlAttribute(Attribute(" ", "href", Some(Assignment("", "", QuotedValue('\'', "/12.htm#test")))));
  }

  lemma Link72Scan()
    ensures RawReferences(Html, "<a" + " href='" + "/12.htm#test" + "'>12</a>") == ["/12.htm#test"]
  {
    Link72Render("/12.htm#test");
    Link72WellFormed();
    Link72Refs();
    Document3(Element("a", [Attribute(" ", "href", Some(Assignment("", "", QuotedValue('\'', "/12.htm#test"))))], false), Text("12"), EndTag("a"));
  }

  lemma Link72TargetSegment()
    ensures Segment("12.htm")
  {
    SegmentIntro("12.htm");
  }

  lemma Link72TargetJoin()
    ensures "/" + "12.htm" + "#" + "test" == "/12.htm#test"
  {
  }

  lemma Link72TargetTrim()
    ensures Trim("/12.htm#test") == "/12.htm#test"
  {
    TrimPlain("/12.htm#test");
  }

  lemma Link72TargetPath()
    ensures "/" + "12.htm" == "/12.htm"
  {
  }

  lemma Link72Target()
    ensures Target(Base, "/12.htm#test") == At("/12.htm")
  {
    Link72TargetSegment();
    Link72TargetJoin();
    Link72TargetTrim();
    Link72TargetPath();
    RootFragmentTarget("/12.htm#test", "12.htm", "test");
  }

  /** <a href='/12.htm#test'>12</a>: the fragment is dropped */
  lemma Link72()
    ensures Extract(Html, "<a" + " href='" + "/12.htm#test" + "'>12</a>", Page, Host) == [Domain + "/12.htm"]
  {
    Link72Scan();
    Link72Target();
    ExtractOne(Html, "<a" + " href='" + "/12.htm#test" + "'>12</a>", "/12.htm#test", "/12.htm");
  }

  lemma Link75Run1()
    ensures "<" + "A" == "<A"
  {
  }

  lemma Link75Run2()
    ensures " " + "HRef" + "" + "=" + "" + ['\''] == " HRef='"
  {
  }

  lemma Link75Run3()
    ensures ['\''] + ">" + "13" + "<" + "/" + "a" + ">" == "'>13</a>"
  {
  }

  lemma Link75Text(u: string)
    ensures ("<" + ("A" + ((" " + ("HRef" + ("" + ("=" + ("" + (['\''] + u + ['\''])))))) + ">"))) + ("13" + ("<" + ("/" + ("a" + ">"))))
      == "<A" + " HRef='" + u + "'>13</a>"
  {
    Link75Run1();
    Link75Run2();
    Link75Run3();
    Assoc("", ['\''] + u, ['\'']);
    Assoc("", ['\''], u);
    Assoc("=", "" + ['\''] + u, ['\'']);
    Assoc("=", "" + ['\''], u);
    Assoc("=", "", ['\'']);
    Assoc("", "=" + "" + ['\''] + u, ['\'']);
    Assoc("", "=" + "" + ['\''], u);
    Assoc("", "=" + "", ['\'']);
    Assoc("", "=", "");
    Assoc("HRef", "" + "=" + "" + ['\''] + u, ['\'']);
    Assoc("HRef", "" + "=" + "" + ['\''], u);
    Assoc("HRef", "" + "=" + "", ['\'']);
    Assoc("HRef", "" + "=", "");
    Assoc("HRef", "", "=");
    Assoc(" ", "HRef" + "" + "=" + "" + ['\''] + u, ['\'']);
    Assoc(" ", "HRef" + "" + "=" + "" + ['\''], u);
    Assoc(" ", "HRef" + "" + "=" + "", ['\'']);
    Assoc(" ", "HRef" + "" + "=", "");
    Assoc(" ", "HRef" + "", "=");
    Assoc(" ", "HRef", "");
    Assoc("A", " " + "HRef" + "" + "=" + "" + ['\''] + u + ['\''], ">");
    Assoc("A", " " + "HRef" + "" + "=" + "" + ['\''] + u, ['\'']);
    Assoc("A", " " + "HRef" + "" + "=" + "" + ['\''], u);
    Assoc("A", " " + "HRef" + "" + "=" + "", ['\'']);
    Assoc("A", " " + "HRef" + "" + "=", "");
    Assoc("A", " " + "HRef" + "", "=");
    Assoc("A", " " + "HRef", "");
    Assoc("A", " ", "HRef");
    Assoc("<", "A" + " " + "HRef" + "" + "=" + "" + ['\''] + u + ['\''], ">");
    Assoc("<", "A" + " " + "HRef" + "" + "=" + "" + ['\''] + u, ['\'']);
    Assoc("<", "A" + " " + "HRef" + "" + "=" + "" + ['\''], u);
    Assoc("<", "A" + " " + "HRef" + "" + "=" + "", ['\'']);
    Assoc("<", "A" + " " + "HRef" + "" + "=", "");
    Assoc("<", "A" + " " + "HRef" + "", "=");
    Assoc("<", "A" + " " + "HRef", "");
    Assoc("<", "A" + " ", "HRef");
    Assoc("<", "A", " ");
    Assoc("/", "a", ">");
    Assoc("<", "/" + "a", ">");
    Assoc("<", "/", "a");
    Assoc("13", "<" + "/" + "a", ">");
    Assoc("13", "<" + "/", "a");
    Assoc("13", "<", "/");
    Assoc("<" + "A" + " " + "HRef" + "" + "=" + "" + ['\''] + u + ['\''] + ">", "13" + "<" + "/" + "a", ">");
    Assoc("<" + "A" + " " + "HRef" + "" + "=" + "" + ['\''] + u + ['\''] + ">", "13" + "<" + "/", "a");
    Assoc("<" + "A" + " " + "HRef" + "" + "=" + "" + ['\''] + u + ['\''] + ">", "13" + "<", "/");
    Assoc("<" + "A" + " " + "HRef" + "" + "=" + "" + ['\''] + u + ['\''] + ">", "13", "<");
    Assoc("<" + "A", " " + "HRef" + "" + "=" + "", ['\'']);
    Assoc("<" + "A", " " + "HRef" + "" + "=", "");
    Assoc("<" + "A", " " + "HRef" + "", "=");
    Assoc("<" + "A", " " + "HRef", "");
    Assoc("<" + "A", " ", "HRef");
    Assoc("<" + "A" + " " + "HRef" + "" + "=" + "" + ['\''] + u, ['\''] + ">" + "13" + "<" + "/" + "a", ">");
    Assoc("<" + "A" + " " + "HRef" + "" + "=" + "" + ['\''] + u, ['\''] + ">" + "13" + "<" + "/", "a");
    Assoc("<" + "A" + " " + "HRef" + "" + "=" + "" + ['\''] + u, ['\''] + ">" + "13" + "<", "/");
    Assoc("<" + "A" + " " + "HRef" + "" + "=" + "" + ['\''] + u, ['\''] + ">" + "13", "<");
    Assoc("<" + "A" + " " + "HRef" + "" + "=" + "" + ['\''] + u, ['\''] + ">", "13");
    Assoc("<" + "A" + " " + "HRef" + "" + "=" + "" + ['\''] + u, ['\''], ">");
  }

  lemma Link75Render(u: string)
    ensures RenderNode(Element("A", [Attribute(" ", "HRef", Some(Assignment("", "", QuotedValue('\'', u))))], false)) + (RenderNode(Text("13")) + RenderNode(EndTag("a")))
      == "<A" + " HRef='" + u + "'>13</a>"
  {
    Attributes1(Attribute(" ", "HRef", Some(Assignment("", "", QuotedValue('\'', u)))));
    assert RenderAttribute(Attribute(" ", "HRef", Some(Assignment("", "", QuotedValue('\'', u))))) == " " + ("HRef" + ("" + ("=" + ("" + (['\''] + u + ['\''])))));
    assert RenderNode(Element("A", [Attribute(" ", "HRef", Some(Assignment("", "", QuotedValue('\'', u))))], false)) == "<" + ("A" + ((" " + ("HRef" + ("" + ("=" + ("" + (['\''] + u + ['\''])))))) + ">"));
    assert RenderNode(EndTag("a")) == "<" + ("/" + ("a" + ">"));
    Link75Text(u);
  }

  lemma Link75Attribute1Value()
    ensures '\'' !in "/THIRTEEN.htm"
  {
  }

  lemma Link75Attribute1()
    ensures AttributeWellFormed(Attribute(" ", "HRef", Some(Assignment("", "", QuotedValue('\'', "/THIRTEEN.htm")))))
  {
    AttributeHRef();
    Link75Attribute1Value();
    QuotedAttributeWellFormed(" ", "HRef", "", "", '\'', "/THIRTEEN.htm");
  }

  lemma Link75Node1()
    ensures NodeWellFormed(Element("A", [Attribute(" ", "HRef", Some(Assignment("", "", QuotedValue('\'', "/THIRTEEN.htm"))))], false))
  {
    TagCapitalA();
    Link75Attribute1();
    Attributes1(Attribute(" ", "HRef", Some(Assignment("", "", QuotedValue('\'', "/THIRTEEN.htm")))));
  }

  lemma Link75Node2()
    ensures NodeWellFormed(Text("13"))
  {
  }

  lemma Link75Node3()
    ensures NodeWellFormed(EndTag("a"))
  {
  }

  lemma Link75WellFormed()
    ensures NodeWellFormed(Element("A", [Attribute(" ", "HRef", Some(Assignment("", "", QuotedValue('\'', "/THIRTEEN.htm"))))], false)) && NodeWellFormed(Text("13")) && NodeWellFormed(EndTag("a"))
  {
    Link75Node1();
    Link75Node2();
    Link75Node3();
  }

  lemma Link75Refs()
    ensures NodeRefs(Element("A", [Attribute(" ", "HRef", Some(Assignment("", "", QuotedValue('\'', "/THIRTEEN.htm"))))], false)) + (NodeRefs(Text("13")) + NodeRefs(EndTag("a"))) == ["/THIRTEEN.htm"]
  {
    Attributes1(Attribute(" ", "HRef", Some(Assignment("", "", QuotedValue('\'', "/THIRTEEN.htm")))));
    AttributeHRef();
    UrlAttribute(Attribute(" ", "HRef", Some(Assignment("", "", QuotedValue('\'', "/THIRTEEN.htm")))));
  }

  lemma Link75Scan()
    ensures RawReferences(Html, "<A" + " HRef='" + "/THIRTEEN.htm" + "'>13</a>") == ["/THIRTEEN.htm"]
  {
    Link75Render("/THIRTEEN.htm");
    Link75WellFormed();
    Link75Refs();
    Document3(Element("A", [Attribute(" ", "HRef", Some(Assignment("", "", QuotedValue('\'', "/THIRTEEN.htm"))))], false), Text("13"), EndTag("a"));
  }

  lemma Link75TargetSegment()
    ensures Segment("THIRTEEN.htm")
  {
    SegmentIntro("THIRTEEN.htm");
  }

  lemma Link75TargetJoin()
    ensures "/" + "THIRTEEN.htm" == "/THIRTEEN.htm"
  {
  }

  lemma Link75TargetTrim()
    ensures Trim("/THIRTEEN.htm") == "/THIRTEEN.htm"
  {
    TrimPlain("/THIRTEEN.htm");
  }

  lemma Link75Target()
    ensures Target(Base, "/THIRTEEN.htm") == At("/THIRTEEN.htm")
  {
    Link75TargetSegment();
    Link75TargetJoin();
    Link75TargetTrim();
    RootTarget("/THIRTEEN.htm", "THIRTEEN.htm");
  }

  /** <A HRef='/THIRTEEN.htm'>13</a>: tag and attribute names in any case */
  lemma Link75()
    ensures Extract(Html, "<A" + " HRef='" + "/THIRTEEN.htm" + "'>13</a>", Page, Host) == [Domain + "/THIRTEEN.htm"]
  {
    Link75Scan();
    Link75Target();
    ExtractOne(Html, "<A" + " HRef='" + "/THIRTEEN.htm" + "'>13</a>", "/THIRTEEN.htm", "/THIRTEEN.htm");
  }

  lemma Link78Run1()
    ensures "<" + "a" == "<a"
  {
  }

  lemma Link78Run2()
    ensures " " + "href" + "" + "=" + "" + ['\''] == " href='"
  {
  }

  lemma Link78Run3()
    ensures ['\''] + ">" + "14" + "<" + "/" + "a" + ">" == "'>14</a>"
  {
  }

  lemma Link78Text(u: string)
    ensures ("<" + ("a" + ((" " + ("href" + ("" + ("=" + ("" + (['\''] + u + ['\''])))))) + ">"))) + ("14" + ("<" + ("/" + ("a" + ">"))))
      == "<a" + " href='" + u + "'>14</a>"
  {
    Link78Run1();
    Link78Run2();
    Link78Run3();
    Assoc("", ['\''] + u, ['\'']);
    Assoc("", ['\''], u);
    Assoc("=", "" + ['\''] + u, ['\'']);
    Assoc("=", "" + ['\''], u);
    Assoc("=", "", ['\'']);
    Assoc("", "=" + "" + ['\''] + u, ['\'']);
    Assoc("", "=" + "" + ['\''], u);
    Assoc("", "=" + "", ['\'']);
    Assoc("", "=", "");
    Assoc("href", "" + "=" + "" + ['\''] + u, ['\'']);
    Assoc("href", "" + "=" + "" + ['\''], u);
    Assoc("href", "" + "=" + "", ['\'']);
    Assoc("href", "" + "=", "");
    Assoc("href", "", "=");
    Assoc(" ", "href" + "" + "=" + "" + ['\''] + u, ['\'']);
    Assoc(" ", "href" + "" + "=" + "" + ['\''], u);
    Assoc(" ", "href" + "" + "=" + "", ['\'']);
    Assoc(" ", "href" + "" + "=", "");
    Assoc(" ", "href" + "", "=");
    Assoc(" ", "href", "");
    Assoc("a", " " + "href" + "" + "=" + "" + ['\''] + u + ['\''], ">");
    Assoc("a", " " + "href" + "" + "=" + "" + ['\''] + u, ['\'']);
    Assoc("a", " " + "href" + "" + "=" + "" + ['\''], u);
    Assoc("a", " " + "href" + "" + "=" + "", ['\'']);
    Assoc("a", " " + "href" + "" + "=", "");
    Assoc("a", " " + "href" + "", "=");
    Assoc("a", " " + "href", "");
    Assoc("a", " ", "href");
    Assoc("<", "a" + " " + "href" + "" + "=" + "" + ['\''] + u + ['\''], ">");
    Assoc("<", "a" + " " + "href" + "" + "=" + "" + ['\''] + u, ['\'']);
    Assoc("<", "a" + " " + "href" + "" + "=" + "" + ['\''], u);
    Assoc("<", "a" + " " + "href" + "" + "=" + "", ['\'']);
    Assoc("<", "a" + " " + "href" + "" + "=", "");
    Assoc("<", "a" + " " + "href" + "", "=");
    Assoc("<", "a" + " " + "href", "");
    Assoc("<", "a" + " ", "href");
    Assoc("<", "a", " ");
    Assoc("/", "a", ">");
    Assoc("<", "/" + "a", ">");
    Assoc("<", "/", "a");
    Assoc("14", "<" + "/" + "a", ">");
    Assoc("14", "<" + "/", "a");
    Assoc("14", "<", "/");
    Assoc("<" + "a" + " " + "href" + "" + "=" + "" + ['\''] + u + ['\''] + ">", "14" + "<" + "/" + "a", ">");
    Assoc("<" + "a" + " " + "href" + "" + "=" + "" + ['\''] + u + ['\''] + ">", "14" + "<" + "/", "a");
    Assoc("<" + "a" + " " + "href" + "" + "=" + "" + ['\''] + u + ['\''] + ">", "14" + "<", "/");
    Assoc("<" + "a" + " " + "href" + "" + "=" + "" + ['\''] + u + ['\''] + ">", "14", "<");
    Assoc("<" + "a", " " + "href" + "" + "=" + "", ['\'']);
    Assoc("<" + "a", " " + "href" + "" + "=", "");
    Assoc("<" + "a", " " + "href" + "", "=");
    Assoc("<" + "a", " " + "href", "");
    Assoc("<" + "a", " ", "href");
    Assoc("<" + "a" + " " + "href" + "" + "=" + "" + ['\''] + u, ['\''] + ">" + "14" + "<" + "/" + "a", ">");
    Assoc("<" + "a" + " " + "href" + "" + "=" + "" + ['\''] + u, ['\''] + ">" + "14" + "<" + "/", "a");
    Assoc("<" + "a" + " " + "href" + "" + "=" + "" + ['\''] + u, ['\''] + ">" + "14" + "<", "/");
    Assoc("<" + "a" + " " + "href" + "" + "=" + "" + ['\''] + u, ['\''] + ">" + "14", "<");
    Assoc("<" + "a" + " " + "href" + "" + "=" + "" + ['\''] + u, ['\''] + ">", "14");
    Assoc("<" + "a" + " " + "href" + "" + "=" + "" + ['\''] + u, ['\''], ">");
  }

  lemma Link78Render(u: string)
    ensures RenderNode(Element("a", [Attribute(" ", "href", Some(Assignment("", "", QuotedValue('\'', u))))], false)) + (RenderNode(Text("14")) + RenderNode(EndTag("a")))
      == "<a" + " href='" + u + "'>14</a>"
  {
    Attributes1(Attribute(" ", "href", Some(Assignment("", "", QuotedValue('\'', u)))));
    assert RenderAttribute(Attribute(" ", "href", Some(Assignment("", "", QuotedValue('\'', u))))) == " " + ("href" + ("" + ("=" + ("" + (['\''] + u + ['\''])))));
    assert RenderNode(Element("a", [Attribute(" ", "href", Some(Assignment("", "", QuotedValue('\'', u))))], false)) == "<" + ("a" + ((" " + ("href" + ("" + ("=" + ("" + (['\''] + u + ['\''])))))) + ">"));
    assert RenderNode(EndTag("a")) == "<" + ("/" + ("a" + ">"));
    Link78Text(u);
  }

  lemma Link78Attribute1Value()
    ensures '\'' !in (Domain + "/14")
  {
  }

  lemma Link78Attribute1()
    ensures AttributeWellFormed(Attribute(" ", "href", Some(Assignment("", "", QuotedValue('\'', (Domain + "/14"))))))
  {
    AttributeHref();
    Link78Attribute1Value();
    QuotedAttributeWellFormed(" ", "href", "", "", '\'', (Domain + "/14"));
  }

  lemma Link78Node1()
    ensures NodeWellFormed(Element("a", [Attribute(" ", "href", Some(Assignment("", "", QuotedValue('\'', (Domain + "/14")))))], false))
  {
    TagA();
    Link78Attribute1();
    Attributes1(Attribute(" ", "href", Some(Assignment("", "", QuotedValue('\'', (Domain + "/14"))))));
  }

  lemma Link78Node2()
    ensures NodeWellFormed(Text("14"))
  {
  }

  lemma Link78Node3()
    ensures NodeWellFormed(EndTag("a"))
  {
  }

  lemma Link78WellFormed()
    ensures NodeWellFormed(Element("a", [Attribute(" ", "href", Some(Assignment("", "", QuotedValue('\'', (Domain + "/14")))))], false)) && NodeWellFormed(Text("14")) && NodeWellFormed(EndTag("a"))
  {
    Link78Node1();
    Link78Node2();
    Link78Node3();
  }

  lemma Link78Refs()
    ensures NodeRefs(Element("a", [Attribute(" ", "href", Some(Assignment("", "", QuotedValue('\'', (Domain + "/14")))))], false)) + (NodeRefs(Text("14")) + NodeRefs(EndTag("a"))) == [(Domain + "/14")]
  {
    Attributes1(Attribute(" ", "href", Some(Assignment("", "", QuotedValue('\'', (Domain + "/14"))))));
    AttributeHref();
    UrlAttribute(Attribute(" ", "href", Some(Assignment("", "", QuotedValue('\'', (Domain + "/14"))))));
  }

  lemma Link78Scan()
    ensures RawReferences(Html, "<a" + " href='" + (Domain + "/14") + "'>14</a>") == [(Domain + "/14")]
  {
    Link78Render(Domain + "/14");
    Link78WellFormed();
    Link78Refs();
    Document3(Element("a", [Attribute(" ", "href", Some(Assignment("", "", QuotedValue('\'', (Domain + "/14")))))], false), Text("14"), EndTag("a"));
  }

  lemma Link78TargetSegment1()
    ensures Segment("14")
  {
    SegmentIntro("14");
  }

  lemma Link78TargetPath()
    ensures SegmentPath("/14")
  {
    OneSegment("14");
  }

  lemma Link78TargetRest()
    ensures "/14" + OptPrefix(None, "#", "") == "/14"
  {
  }

  lemma Link78TargetTrim()
    ensures Trim((Domain + "/14")) == (Domain + "/14")
  {
    TrimPlain((Domain + "/14"));
  }

  lemma Link78Target()
    ensures Target(Base, (Domain + "/14")) == At("/14")
  {
    Link78TargetSegment1();
    Link78TargetPath();
    Link78TargetRest();
    Link78TargetTrim();
    AbsoluteTarget((Domain + "/14"), "/14", None);
  }

  /** <a href='http://example.org/14'>14</a>: an absolute URL on the site */
  lemma Link78()
    ensures Extract(Html, "<a" + " href='" + (Domain + "/14") + "'>14</a>", Page, Host) == [Domain + "/14"]
  {
    Link78Scan();
    Link78Target();
    ExtractOne(Html, "<a" + " href='" + (Domain + "/14") + "'>14</a>", (Domain + "/14"), "/14");
  }

  lemma Link81Run1()
    ensures "<" + "a" == "<a"
  {
  }

  lemma Link81Run2()
    ensures " " + "href" + "" + "=" + "" + ['\''] == " href='"
  {
  }

  lemma Link81Run3()
    ensures ['\''] + ">" + "15" + "<" + "/" + "a" + ">" == "'>15</a>"
  {
  }

  lemma Link81Text(u: string)
    ensures ("<" + ("a" + ((" " + ("href" + ("" + ("=" + ("" + (['\''] + u + ['\''])))))) + ">"))) + ("15" + ("<" + ("/" + ("a" + ">"))))
      == "<a" + " href='" + u + "'>15</a>"
  {
    Link81Run1();
    Link81Run2();
    Link81Run3();
    Assoc("", ['\''] + u, ['\'']);
    Assoc("", ['\''], u);
    Assoc("=", "" + ['\''] + u, ['\'']);
    Assoc("=", "" + ['\''], u);
    Assoc("=", "", ['\'']);
    Assoc("", "=" + "" + ['\''] + u, ['\'']);
    Assoc("", "=" + "" + ['\''], u);
    Assoc("", "=" + "", ['\'']);
    Assoc("", "=", "");
    Assoc("href", "" + "=" + "" + ['\''] + u, ['\'']);
    Assoc("href", "" + "=" + "" + ['\''], u);
    Assoc("href", "" + "=" + "", ['\'']);
    Assoc("href", "" + "=", "");
    Assoc("href", "", "=");
    Assoc(" ", "href" + "" + "=" + "" + ['\''] + u, ['\'']);
    Assoc(" ", "href" + "" + "=" + "" + ['\''], u);
    Assoc(" ", "href" + "" + "=" + "", ['\'']);
    Assoc(" ", "href" + "" + "=", "");
    Assoc(" ", "href" + "", "=");
    Assoc(" ", "href", "");
    Assoc("a", " " + "href" + "" + "=" + "" + ['\''] + u + ['\''], ">");
    Assoc("a", " " + "href" + "" + "=" + "" + ['\''] + u, ['\'']);
    Assoc("a", " " + "href" + "" + "=" + "" + ['\''], u);
    Assoc("a", " " + "href" + "" + "=" + "", ['\'']);
    Assoc("a", " " + "href" + "" + "=", "");
    Assoc("a", " " + "href" + "", "=");
    Assoc("a", " " + "href", "");
    Assoc("a", " ", "href");
    Assoc("<", "a" + " " + "href" + "" + "=" + "" + ['\''] + u + ['\''], ">");
    Assoc("<", "a" + " " + "href" + "" + "=" + "" + ['\''] + u, ['\'']);
    Assoc("<", "a" + " " + "href" + "" + "=" + "" + ['\''], u);
    Assoc("<", "a" + " " + "href" + "" + "=" + "", ['\'']);
    Assoc("<", "a" + " " + "href" + "" + "=", "");
    Assoc("<", "a" + " " + "href" + "", "=");
    Assoc("<", "a" + " " + "href", "");
    Assoc("<", "a" + " ", "href");
    Assoc("<", "a", " ");
    Assoc("/", "a", ">");
    Assoc("<", "/" + "a", ">");
    Assoc("<", "/", "a");
    Assoc("15", "<" + "/" + "a", ">");
    Assoc("15", "<" + "/", "a");
    Assoc("15", "<", "/");
    Assoc("<" + "a" + " " + "href" + "" + "=" + "" + ['\''] + u + ['\''] + ">", "15" + "<" + "/" + "a", ">");
    Assoc("<" + "a" + " " + "href" + "" + "=" + "" + ['\''] + u + ['\''] + ">", "15" + "<" + "/", "a");
    Assoc("<" + "a" + " " + "href" + "" + "=" + "" + ['\''] + u + ['\''] + ">", "15" + "<", "/");
    Assoc("<" + "a" + " " + "href" + "" + "=" + "" + ['\''] + u + ['\''] + ">", "15", "<");
    Assoc("<" + "a", " " + "href" + "" + "=" + "", ['\'']);
    Assoc("<" + "a", " " + "href" + "" + "=", "");
    Assoc("<" + "a", " " + "href" + "", "=");
    Assoc("<" + "a", " " + "href", "");
    Assoc("<" + "a", " ", "href");
    Assoc("<" + "a" + " " + "href" + "" + "=" + "" + ['\''] + u, ['\''] + ">" + "15" + "<" + "/" + "a", ">");
    Assoc("<" + "a" + " " + "href" + "" + "=" + "" + ['\''] + u, ['\''] + ">" + "15" + "<" + "/", "a");
    Assoc("<" + "a" + " " + "href" + "" + "=" + "" + ['\''] + u, ['\''] + ">" + "15" + "<", "/");
    Assoc("<" + "a" + " " + "href" + "" + "=" + "" + ['\''] + u, ['\''] + ">" + "15", "<");
    Assoc("<" + "a" + " " + "href" + "" + "=" + "" + ['\''] + u, ['\''] + ">", "15");
    Assoc("<" + "a" + " " + "href" + "" + "=" + "" + ['\''] + u, ['\''], ">");
  }

  lemma Link81Render(u: string)
    ensures RenderNode(Element("a", [Attribute(" ", "href", Some(Assignment("", "", QuotedValue('\'', u))))], false)) + (RenderNode(Text("15")) + RenderNode(EndTag("a")))
      == "<a" + " href='" + u + "'>15</a>"
  {
    Attributes1(Attribute(" ", "href", Some(Assignment("", "", QuotedValue('\'', u)))));
    assert RenderAttribute(Attribute(" ", "href", Some(Assignment("", "", QuotedValue('\'', u))))) == " " + ("href" + ("" + ("=" + ("" + (['\''] + u + ['\''])))));
    assert RenderNode(Element("a", [Attribute(" ", "href", Some(Assignment("", "", QuotedValue('\'', u))))], false)) == "<" + ("a" + ((" " + ("href" + ("" + ("=" + ("" + (['\''] + u + ['\''])))))) + ">"));
    assert RenderNode(EndTag("a")) == "<" + ("/" + ("a" + ">"));
    Link81Text(u);
  }

  lemma Link81Attribute1Value()
    ensures '\'' !in (Domain + "#section15")
  {
  }

  lemma Link81Attribute1()
    ensures AttributeWellFormed(Attribute(" ", "href", Some(Assignment("", "", QuotedValue('\'', (Domain + "#section15"))))))
  {
    AttributeHref();
    Link81Attribute1Value();
    QuotedAttributeWellFormed(" ", "href", "", "", '\'', (Domain + "#section15"));
  }

  lemma Link81Node1()
    ensures NodeWellFormed(Element("a", [Attribute(" ", "href", Some(Assignment("", "", QuotedValue('\'', (Domain + "#section15")))))], false))
  {
    TagA();
    Link81Attribute1();
    Attributes1(Attribute(" ", "href", Some(Assignment("", "", QuotedValue('\'', (Domain + "#section15"))))));
  }

  lemma Link81Node2()
    ensures NodeWellFormed(Text("15"))
  {
  }

  lemma Link81Node3()
    ensures NodeWellFormed(EndTag("a"))
  {
  }

  lemma Link81WellFormed()
    ensures NodeWellFormed(Element("a", [Attribute(" ", "href", Some(Assignment("", "", QuotedValue('\'', (Domain + "#section15")))))], false)) && NodeWellFormed(Text("15")) && NodeWellFormed(EndTag("a"))
  {
    Link81Node1();
    Link81Node2();
    Link81Node3();
  }

  lemma Link81Refs()
    ensures NodeRefs(Element("a", [Attribute(" ", "href", Some(Assignment("", "", QuotedValue('\'', (Domain + "#section15")))))], false)) + (NodeRefs(Text("15")) + NodeRefs(EndTag("a"))) == [(Domain + "#section15")]
  {
    Attributes1(Attribute(" ", "href", Some(Assignment("", "", QuotedValue('\'', (Domain + "#section15"))))));
    AttributeHref();
    UrlAttribute(Attribute(" ", "href", Some(Assignment("", "", QuotedValue('\'', (Domain + "#section15"))))));
  }

  lemma Link81Scan()
    ensures RawReferences(Html, "<a" + " href='" + (Domain + "#section15") + "'>15</a>") == [(Domain + "#section15")]
  {
    Link81Render(Domain + "#section15");
    Link81WellFormed();
    Link81Refs();
    Document3(Element("a", [Attribute(" ", "href", Some(Assignment("", "", QuotedValue('\'', (Domain + "#section15")))))], false), Text("15"), EndTag("a"));
  }

  lemma Link81TargetRest()
    ensures "" + OptPrefix(Some("section15"), "#", "") == "#section15"
  {
  }

  lemma Link81TargetTrim()
    ensures Trim((Domain + "#section15")) == (Domain + "#section15")
  {
    TrimPlain((Domain + "#section15"));
  }

  lemma Link81Target()
    ensures Target(Base, (Domain + "#section15")) == At("")
  {
    Link81TargetRest();
    Link81TargetTrim();
    AbsoluteTarget((Domain + "#section15"), "", Some("section15"));
  }

  /** <a href='http://example.org#section15'>15</a>: an absolute URL with only a fragment */
  lemma Link81()
    ensures Extract(Html, "<a" + " href='" + (Domain + "#section15") + "'>15</a>", Page, Host) == [Domain]
  {
    Link81Scan();
    Link81Target();
    EmptyRight(Domain);
    ExtractOne(Html, "<a" + " href='" + (Domain + "#section15") + "'>15</a>", (Domain + "#section15"), "");
  }

  lemma Link84Run1()
    ensures "<" + "a" == "<a"
  {
  }

  lemma Link84Run2()
    ensures " " + "href" + "" + "=" + "" + ['\''] == " href='"
  {
  }

  lemma Link84Run3()
    ensures ['\''] + ">" + "16" + "<" + "/" + "a" + ">" == "'>16</a>"
  {
  }

  lemma Link84Text(u: string)
    ensures ("<" + ("a" + ((" " + ("href" + ("" + ("=" + ("" + (['\''] + u + ['\''])))))) + ">"))) + ("16" + ("<" + ("/" + ("a" + ">"))))
      == "<a" + " href='" + u + "'>16</a>"
  {
    Link84Run1();
    Link84Run2();
    Link84Run3();
    Assoc("", ['\''] + u, ['\'']);
    Assoc("", ['\''], u);
    Assoc("=", "" + ['\''] + u, ['\'']);
    Assoc("=", "" + ['\''], u);
    Assoc("=", "", ['\'']);
    Assoc("", "=" + "" + ['\''] + u, ['\'']);
    Assoc("", "=" + "" + ['\''], u);
    Assoc("", "=" + "", ['\'']);
    Assoc("", "=", "");
    Assoc("href", "" + "=" + "" + ['\''] + u, ['\'']);
    Assoc("href", "" + "=" + "" + ['\''], u);
    Assoc("href", "" + "=" + "", ['\'']);
    Assoc("href", "" + "=", "");
    Assoc("href", "", "=");
    Assoc(" ", "href" + "" + "=" + "" + ['\''] + u, ['\'']);
    Assoc(" ", "href" + "" + "=" + "" + ['\''], u);
    Assoc(" ", "href" + "" + "=" + "", ['\'']);
    Assoc(" ", "href" + "" + "=", "");
    Assoc(" ", "href" + "", "=");
    Assoc(" ", "href", "");
    Assoc("a", " " + "href" + "" + "=" + "" + ['\''] + u + ['\''], ">");
    Assoc("a", " " + "href" + "" + "=" + "" + ['\''] + u, ['\'']);
    Assoc("a", " " + "href" + "" + "=" + "" + ['\''], u);
    Assoc("a", " " + "href" + "" + "=" + "", ['\'']);
    Assoc("a", " " + "href" + "" + "=", "");
    Assoc("a", " " + "href" + "", "=");
    Assoc("a", " " + "href", "");
    Assoc("a", " ", "href");
    Assoc("<", "a" + " " + "href" + "" + "=" + "" + ['\''] + u + ['\''], ">");
    Assoc("<", "a" + " " + "href" + "" + "=" + "" + ['\''] + u, ['\'']);
    Assoc("<", "a" + " " + "href" + "" + "=" + "" + ['\''], u);
    Assoc("<", "a" + " " + "href" + "" + "=" + "", ['\'']);
    Assoc("<", "a" + " " + "href" + "" + "=", "");
    Assoc("<", "a" + " " + "href" + "", "=");
    Assoc("<", "a" + " " + "href", "");
    Assoc("<", "a" + " ", "href");
    Assoc("<", "a", " ");
    Assoc("/", "a", ">");
    Assoc("<", "/" + "a", ">");
    Assoc("<", "/", "a");
    Assoc("16", "<" + "/" + "a", ">");
    Assoc("16", "<" + "/", "a");
    Assoc("16", "<", "/");
    Assoc("<" + "a" + " " + "href" + "" + "=" + "" + ['\''] + u + ['\''] + ">", "16" + "<" + "/" + "a", ">");
    Assoc("<" + "a" + " " + "href" + "" + "=" + "" + ['\''] + u + ['\''] + ">", "16" + "<" + "/", "a");
    Assoc("<" + "a" + " " + "href" + "" + "=" + "" + ['\''] + u + ['\''] + ">", "16" + "<", "/");
    Assoc("<" + "a" + " " + "href" + "" + "=" + "" + ['\''] + u + ['\''] + ">", "16", "<");
    Assoc("<" + "a", " " + "href" + "" + "=" + "", ['\'']);
    Assoc("<" + "a", " " + "href" + "" + "=", "");
    Assoc("<" + "a", " " + "href" + "", "=");
    Assoc("<" + "a", " " + "href", "");
    Assoc("<" + "a", " ", "href");
    Assoc("<" + "a" + " " + "href" + "" + "=" + "" + ['\''] + u, ['\''] + ">" + "16" + "<" + "/" + "a", ">");
    Assoc("<" + "a" + " " + "href" + "" + "=" + "" + ['\''] + u, ['\''] + ">" + "16" + "<" + "/", "a");
    Assoc("<" + "a" + " " + "href" + "" + "=" + "" + ['\''] + u, ['\''] + ">" + "16" + "<", "/");
    Assoc("<" + "a" + " " + "href" + "" + "=" + "" + ['\''] + u, ['\''] + ">" + "16", "<");
    Assoc("<" + "a" + " " + "href" + "" + "=" + "" + ['\''] + u, ['\''] + ">", "16");
    Assoc("<" + "a" + " " + "href" + "" + "=" + "" + ['\''] + u, ['\''], ">");
  }

  lemma Link84Render(u: string)
    ensures RenderNode(Element("a", [Attribute(" ", "href", Some(Assignment("", "", QuotedValue('\'', u))))], false)) + (RenderNode(Text("16")) + RenderNode(EndTag("a")))
      == "<a" + " href='" + u + "'>16</a>"
  {
    Attributes1(Attribute(" ", "href", Some(Assignment("", "", QuotedValue('\'', u)))));
    assert RenderAttribute(Attribute(" ", "href", Some(Assignment("", "", QuotedValue('\'', u))))) == " " + ("href" + ("" + ("=" + ("" + (['\''] + u + ['\''])))));
    assert RenderNode(Element("a", [Attribute(" ", "href", Some(Assignment("", "", QuotedValue('\'', u))))], false)) == "<" + ("a" + ((" " + ("href" + ("" + ("=" + ("" + (['\''] + u + ['\''])))))) + ">"));
    assert RenderNode(EndTag("a")) == "<" + ("/" + ("a" + ">"));
    Link84Text(u);
  }

  lemma Link84Attribute1Value()
    ensures '\'' !in (Domain + "/test#section16")
  {
  }

  lemma Link84Attribute1()
    ensures AttributeWellFormed(Attribute(" ", "href", Some(Assignment("", "", QuotedValue('\'', (Domain + "/test#section16"))))))
  {
    AttributeHref();
    Link84Attribute1Value();
    QuotedAttributeWellFormed(" ", "href", "", "", '\'', (Domain + "/test#section16"));
  }

  lemma Link84Node1()
    ensures NodeWellFormed(Element("a", [Attribute(" ", "href", Some(Assignment("", "", QuotedValue('\'', (Domain + "/test#section16")))))], false))
  {
    TagA();
    Link84Attribute1();
    Attributes1(Attribute(" ", "href", Some(Assignment("", "", QuotedValue('\'', (Domain + "/test#section16"))))));
  }

  lemma Link84Node2()
    ensures NodeWellFormed(Text("16"))
  {
  }

  lemma Link84Node3()
    ensures NodeWellFormed(EndTag("a"))
  {
  }

  lemma Link84WellFormed()
    ensures NodeWellFormed(Element("a", [Attribute(" ", "href", Some(Assignment("", "", QuotedValue('\'', (Domain + "/test#section16")))))], false)) && NodeWellFormed(Text("16")) && NodeWellFormed(EndTag("a"))
  {
    Link84Node1();
    Link84Node2();
    Link84Node3();
  }

  lemma Link84Refs()
    ensures NodeRefs(Element("a", [Attribute(" ", "href", Some(Assignment("", "", QuotedValue('\'', (Domain + "/test#section16")))))], false)) + (NodeRefs(Text("16")) + NodeRefs(EndTag("a"))) == [(Domain + "/test#section16")]
  {
    Attributes1(Attribute(" ", "href", Some(Assignment("", "", QuotedValue('\'', (Domain + "/test#section16"))))));
    AttributeHref();
    UrlAttribute(Attribute(" ", "href", Some(Assignment("", "", QuotedValue('\'', (Domain + "/test#section16"))))));
  }

  lemma Link84Scan()
    ensures RawReferences(Html, "<a" + " href='" + (Domain + "/test#section16") + "'>16</a>") == [(Domain + "/test#section16")]
  {
    Link84Render(Domain + "/test#section16");
    Link84WellFormed();
    Link84Refs();
    Document3(Element("a", [Attribute(" ", "href", Some(Assignment("", "", QuotedValue('\'', (Domain + "/test#section16")))))], false), Text("16"), EndTag("a"));
  }

  lemma Link84TargetSegment1()
    ensures Segment("test")
  {
    SegmentIntro("test");
  }

  lemma Link84TargetPath()
    ensures SegmentPath("/test")
  {
    OneSegment("test");
  }

  lemma Link84TargetRest()
    ensures "/test" + OptPrefix(Some("section16"), "#", "") == "/test#section16"
  {
  }

  lemma Link84TargetTrim()
    ensures Trim((Domain + "/test#section16")) == (Domain + "/test#section16")
  {
    TrimPlain((Domain + "/test#section16"));
  }

  lemma Link84Target()
    ensures Target(Base, (Domain + "/test#section16")) == At("/test")
  {
    Link84TargetSegment1();
    Link84TargetPath();
    Link84TargetRest();
    Link84TargetTrim();
    AbsoluteTarget((Domain + "/test#section16"), "/test", Some("section16"));
  }

  /** <a href='http://example.org/test#section16'>16</a>: an absolute URL with a path and a fragment */
  lemma Link84()
    ensures Extract(Html, "<a" + " href='" + (Domain + "/test#section16") + "'>16</a>", Page, Host) == [Domain + "/test"]
  {
    Link84Scan();
    Link84Target();
    ExtractOne(Html, "<a" + " href='" + (Domain + "/test#section16") + "'>16</a>", (Domain + "/test#section16"), "/test");
  }

  lemma Link87Run1()
    ensures "<" + "a" == "<a"
  {
  }

  lemma Link87Run2()
    ensures " " + "href" + "" + "=" + "" + ['\''] == " href='"
  {
  }

  lemma Link87Run3()
    ensures ['\''] + ">" + "17" + "<" + "/" + "a" + ">" == "'>17</a>"
  {
  }

  lemma Link87Text(u: string)
    ensures ("<" + ("a" + ((" " + ("href" + ("" + ("=" + ("" + (['\''] + u + ['\''])))))) + ">"))) + ("17" + ("<" + ("/" + ("a" + ">"))))
      == "<a" + " href='" + u + "'>17</a>"
  {
    Link87Run1();
    Link87Run2();
    Link87Run3();
    Assoc("", ['\''] + u, ['\'']);
    Assoc("", ['\''], u);
    Assoc("=", "" + ['\''] + u, ['\'']);
    Assoc("=", "" + ['\''], u);
    Assoc("=", "", ['\'']);
    Assoc("", "=" + "" + ['\''] + u, ['\'']);
    Assoc("", "=" + "" + ['\''], u);
    Assoc("", "=" + "", ['\'']);
    Assoc("", "=", "");
    Assoc("href", "" + "=" + "" + ['\''] + u, ['\'']);
    Assoc("href", "" + "=" + "" + ['\''], u);
    Assoc("href", "" + "=" + "", ['\'']);
    Assoc("href", "" + "=", "");
    Assoc("href", "", "=");
    Assoc(" ", "href" + "" + "=" + "" + ['\''] + u, ['\'']);
    Assoc(" ", "href" + "" + "=" + "" + ['\''], u);
    Assoc(" ", "href" + "" + "=" + "", ['\'']);
    Assoc(" ", "href" + "" + "=", "");
    Assoc(" ", "href" + "", "=");
    Assoc(" ", "href", "");
    Assoc("a", " " + "href" + "" + "=" + "" + ['\''] + u + ['\''], ">");
    Assoc("a", " " + "href" + "" + "=" + "" + ['\''] + u, ['\'']);
    Assoc("a", " " + "href" + "" + "=" + "" + ['\''], u);
    Assoc("a", " " + "href" + "" + "=" + "", ['\'']);
    Assoc("a", " " + "href" + "" + "=", "");
    Assoc("a", " " + "href" + "", "=");
    Assoc("a", " " + "href", "");
    Assoc("a", " ", "href");
    Assoc("<", "a" + " " + "href" + "" + "=" + "" + ['\''] + u + ['\''], ">");
    Assoc("<", "a" + " " + "href" + "" + "=" + "" + ['\''] + u, ['\'']);
    Assoc("<", "a" + " " + "href" + "" + "=" + "" + ['\''], u);
    Assoc("<", "a" + " " + "href" + "" + "=" + "", ['\'']);
    Assoc("<", "a" + " " + "href" + "" + "=", "");
    Assoc("<", "a" + " " + "href" + "", "=");
    Assoc("<", "a" + " " + "href", "");
    Assoc("<", "a" + " ", "href");
    Assoc("<", "a", " ");
    Assoc("/", "a", ">");
    Assoc("<", "/" + "a", ">");
    Assoc("<", "/", "a");
    Assoc("17", "<" + "/" + "a", ">");
    Assoc("17", "<" + "/", "a");
    Assoc("17", "<", "/");
    Assoc("<" + "a" + " " + "href" + "" + "=" + "" + ['\''] + u + ['\''] + ">", "17" + "<" + "/" + "a", ">");
    Assoc("<" + "a" + " " + "href" + "" + "=" + "" + ['\''] + u + ['\''] + ">", "17" + "<" + "/", "a");
    Assoc("<" + "a" + " " + "href" + "" + "=" + "" + ['\''] + u + ['\''] + ">", "17" + "<", "/");
    Assoc("<" + "a" + " " + "href" + "" + "=" + "" + ['\''] + u + ['\''] + ">", "17", "<");
    Assoc("<" + "a", " " + "href" + "" + "=" + "", ['\'']);
    Assoc("<" + "a", " " + "href" + "" + "=", "");
    Assoc("<" + "a", " " + "href" + "", "=");
    Assoc("<" + "a", " " + "href", "");
    Assoc("<" + "a", " ", "href");
    Assoc("<" + "a" + " " + "href" + "" + "=" + "" + ['\''] + u, ['\''] + ">" + "17" + "<" + "/" + "a", ">");
    Assoc("<" + "a" + " " + "href" + "" + "=" + "" + ['\''] + u, ['\''] + ">" + "17" + "<" + "/", "a");
    Assoc("<" + "a" + " " + "href" + "" + "=" + "" + ['\''] + u, ['\''] + ">" + "17" + "<", "/");
    Assoc("<" + "a" + " " + "href" + "" + "=" + "" + ['\''] + u, ['\''] + ">" + "17", "<");
    Assoc("<" + "a" + " " + "href" + "" + "=" + "" + ['\''] + u, ['\''] + ">", "17");
    Assoc("<" + "a" + " " + "href" + "" + "=" + "" + ['\''] + u, ['\''], ">");
  }

  lemma Link87Render(u: string)
    ensures RenderNode(Element("a", [Attribute(" ", "href", Some(Assignment("", "", QuotedValue('\'', u))))], false)) + (RenderNode(Text("17")) + RenderNode(EndTag("a")))
      == "<a" + " href='" + u + "'>17</a>"
  {
    Attributes1(Attribute(" ", "href", Some(Assignment("", "", QuotedValue('\'', u)))));
    assert RenderAttribute(Attribute(" ", "href", Some(Assignment("", "", QuotedValue('\'', u))))) == " " + ("href" + ("" + ("=" + ("" + (['\''] + u + ['\''])))));
    assert RenderNode(Element("a", [Attribute(" ", "href", Some(Assignment("", "", QuotedValue('\'', u))))], false)) == "<" + ("a" + ((" " + ("href" + ("" + ("=" + ("" + (['\''] + u + ['\''])))))) + ">"));
    assert RenderNode(EndTag("a")) == "<" + ("/" + ("a" + ">"));
    Link87Text(u);
  }

  lemma Link87Attribute1Value()
    ensures '\'' !in (Domain + "/test/17.htm")
  {
  }

  lemma Link87Attribute1()
    ensures AttributeWellFormed(Attribute(" ", "href", Some(Assignment("", "", QuotedValue('\'', (Domain + "/test/17.htm"))))))
  {
    AttributeHref();
    Link87Attribute1Value();
    QuotedAttributeWellFormed(" ", "href", "", "", '\'', (Domain + "/test/17.htm"));
  }

  lemma Link87Node1()
    ensures NodeWellFormed(Element("a", [Attribute(" ", "href", Some(Assignment("", "", QuotedValue('\'', (Domain + "/test/17.htm")))))], false))
  {
    TagA();
    Link87Attribute1();
    Attributes1(Attribute(" ", "href", Some(Assignment("", "", QuotedValue('\'', (Domain + "/test/17.htm"))))));
  }

  lemma Link87Node2()
    ensures NodeWellFormed(Text("17"))
  {
  }

  lemma Link87Node3()
    ensures NodeWellFormed(EndTag("a"))
  {
  }

  lemma Link87WellFormed()
    ensures NodeWellFormed(Element("a", [Attribute(" ", "href", Some(Assignment("", "", QuotedValue('\'', (Domain + "/test/17.htm")))))], false)) && NodeWellFormed(Text("17")) && NodeWellFormed(EndTag("a"))
  {
    Link87Node1();
    Link87Node2();
    Link87Node3();
  }

  lemma Link87Refs()
    ensures NodeRefs(Element("a", [Attribute(" ", "href", Some(Assignment("", "", QuotedValue('\'', (Domain + "/test/17.htm")))))], false)) + (NodeRefs(Text("17")) + NodeRefs(EndTag("a"))) == [(Domain + "/test/17.htm")]
  {
    Attributes1(Attribute(" ", "href", Some(Assignment("", "", QuotedValue('\'', (Domain + "/test/17.htm"))))));
    AttributeHref();
    UrlAttribute(Attribute(" ", "href", Some(Assignment("", "", QuotedValue('\'', (Domain + "/test/17.htm"))))));
  }

  lemma Link87Scan()
    ensures RawReferences(Html, "<a" + " href='" + (Domain + "/test/17.htm") + "'>17</a>") == [(Domain + "/test/17.htm")]
  {
    Link87Render(Domain + "/test/17.htm");
    Link87WellFormed();
    Link87Refs();
    Document3(Element("a", [Attribute(" ", "href", Some(Assignment("", "", QuotedValue('\'', (Domain + "/test/17.htm")))))], false), Text("17"), EndTag("a"));
  }

  lemma Link87TargetSegment1()
    ensures Segment("test")
  {
    SegmentIntro("test");
  }

  lemma Link87TargetSegment2()
    ensures Segment("17.htm")
  {
    SegmentIntro("17.htm");
  }

  lemma Link87TargetJoin()
    ensures "/" + "test" + "/" + "17.htm" == "/test/17.htm"
  {
  }

  lemma Link87TargetPath()
    ensures SegmentPath("/test/17.htm")
  {
    Link87TargetJoin();
    TwoSegments("test", "17.htm");
  }

  lemma Link87TargetRest()
    ensures "/test/17.htm" + OptPrefix(None, "#", "") == "/test/17.htm"
  {
  }

  lemma Link87TargetTrim()
    ensures Trim((Domain + "/test/17.htm")) == (Domain + "/test/17.htm")
  {
    TrimPlain((Domain + "/test/17.htm"));
  }

  lemma Link87Target()
    ensures Target(Base, (Domain + "/test/17.htm")) == At("/test/17.htm")
  {
    Link87TargetSegment1();
    Link87TargetSegment2();
    Link87TargetJoin();
    Link87TargetPath();
    Link87TargetRest();
    Link87TargetTrim();
    AbsoluteTarget((Domain + "/test/17.htm"), "/test/17.htm", None);
  }

  /** <a href='http://example.org/test/17.htm'>17</a>: an absolute URL with a longer path */
  lemma Link87()
    ensures Extract(Html, "<a" + " href='" + (Domain + "/test/17.htm") + "'>17</a>", Page, Host) == [Domain + "/test/17.htm"]
  {
    Link87Scan();
    Link87Target();
    ExtractOne(Html, "<a" + " href='" + (Domain + "/test/17.htm") + "'>17</a>", (Domain + "/test/17.htm"), "/test/17.htm");
  }

  lemma Link90Run1()
    ensures "<" + "a" == "<a"
  {
  }

  lemma Link90Run2()
    ensures " " + "href" + "" + "=" + "" + ['\''] == " href='"
  {
  }

  lemma Link90Run3()
    ensures ['\''] + ">" + "18" + "<" + "/" + "a" + ">" == "'>18</a>"
  {
  }

  lemma Link90Text(u: string)
    ensures ("<" + ("a" + ((" " + ("href" + ("" + ("=" + ("" + (['\''] + u + ['\''])))))) + ">"))) + ("18" + ("<" + ("/" + ("a" + ">"))))
      == "<a" + " href='" + u + "'>18</a>"
  {
    Link90Run1();
    Link90Run2();
    Link90Run3();
    Assoc("", ['\''] + u, ['\'']);
    Assoc("", ['\''], u);
    Assoc("=", "" + ['\''] + u, ['\'']);
    Assoc("=", "" + ['\''], u);
    Assoc("=", "", ['\'']);
    Assoc("", "=" + "" + ['\''] + u, ['\'']);
    Assoc("", "=" + "" + ['\''], u);
    Assoc("", "=" + "", ['\'']);
    Assoc("", "=", "");
    Assoc("href", "" + "=" + "" + ['\''] + u, ['\'']);
    Assoc("href", "" + "=" + "" + ['\''], u);
    Assoc("href", "" + "=" + "", ['\'']);
    Assoc("href", "" + "=", "");
    Assoc("href", "", "=");
    Assoc(" ", "href" + "" + "=" + "" + ['\''] + u, ['\'']);
    Assoc(" ", "href" + "" + "=" + "" + ['\''], u);
    Assoc(" ", "href" + "" + "=" + "", ['\'']);
    Assoc(" ", "href" + "" + "=", "");
    Assoc(" ", "href" + "", "=");
    Assoc(" ", "href", "");
    Assoc("a", " " + "href" + "" + "=" + "" + ['\''] + u + ['\''], ">");
    Assoc("a", " " + "href" + "" + "=" + "" + ['\''] + u, ['\'']);
    Assoc("a", " " + "href" + "" + "=" + "" + ['\''], u);
    Assoc("a", " " + "href" + "" + "=" + "", ['\'']);
    Assoc("a", " " + "href" + "" + "=", "");
    Assoc("a", " " + "href" + "", "=");
    Assoc("a", " " + "href", "");
    Assoc("a", " ", "href");
    Assoc("<", "a" + " " + "href" + "" + "=" + "" + ['\''] + u + ['\''], ">");
    Assoc("<", "a" + " " + "href" + "" + "=" + "" + ['\''] + u, ['\'']);
    Assoc("<", "a" + " " + "href" + "" + "=" + "" + ['\''], u);
    Assoc("<", "a" + " " + "href" + "" + "=" + "", ['\'']);
    Assoc("<", "a" + " " + "href" + "" + "=", "");
    Assoc("<", "a" + " " + "href" + "", "=");
    Assoc("<", "a" + " " + "href", "");
    Assoc("<", "a" + " ", "href");
    Assoc("<", "a", " ");
    Assoc("/", "a", ">");
    Assoc("<", "/" + "a", ">");
    Assoc("<", "/", "a");
    Assoc("18", "<" + "/" + "a", ">");
    Assoc("18", "<" + "/", "a");
    Assoc("18", "<", "/");
    Assoc("<" + "a" + " " + "href" + "" + "=" + "" + ['\''] + u + ['\''] + ">", "18" + "<" + "/" + "a", ">");
    Assoc("<" + "a" + " " + "href" + "" + "=" + "" + ['\''] + u + ['\''] + ">", "18" + "<" + "/", "a");
    Assoc("<" + "a" + " " + "href" + "" + "=" + "" + ['\''] + u + ['\''] + ">", "18" + "<", "/");
    Assoc("<" + "a" + " " + "href" + "" + "=" + "" + ['\''] + u + ['\''] + ">", "18", "<");
    Assoc("<" + "a", " " + "href" + "" + "=" + "", ['\'']);
    Assoc("<" + "a", " " + "href" + "" + "=", "");
    Assoc("<" + "a", " " + "href" + "", "=");
    Assoc("<" + "a", " " + "href", "");
    Assoc("<" + "a", " ", "href");
    Assoc("<" + "a" + " " + "href" + "" + "=" + "" + ['\''] + u, ['\''] + ">" + "18" + "<" + "/" + "a", ">");
    Assoc("<" + "a" + " " + "href" + "" + "=" + "" + ['\''] + u, ['\''] + ">" + "18" + "<" + "/", "a");
    Assoc("<" + "a" + " " + "href" + "" + "=" + "" + ['\''] + u, ['\''] + ">" + "18" + "<", "/");
    Assoc("<" + "a" + " " + "href" + "" + "=" + "" + ['\''] + u, ['\''] + ">" + "18", "<");
    Assoc("<" + "a" + " " + "href" + "" + "=" + "" + ['\''] + u, ['\''] + ">", "18");
    Assoc("<" + "a" + " " + "href" + "" + "=" + "" + ['\''] + u, ['\''], ">");
  }

  lemma Link90Render(u: string)
    ensures RenderNode(Element("a", [Attribute(" ", "href", Some(Assignment("", "", QuotedValue('\'', u))))], false)) + (RenderNode(Text("18")) + RenderNode(EndTag("a")))
      == "<a" + " href='" + u + "'>18</a>"
  {
    Attributes1(Attribute(" ", "href", Some(Assignment("", "", QuotedValue('\'', u)))));
    assert RenderAttribute(Attribute(" ", "href", Some(Assignment("", "", QuotedValue('\'', u))))) == " " + ("href" + ("" + ("=" + ("" + (['\''] + u + ['\''])))));
    assert RenderNode(Element("a", [Attribute(" ", "href", Some(Assignment("", "", QuotedValue('\'', u))))], false)) == "<" + ("a" + ((" " + ("href" + ("" + ("=" + ("" + (['\''] + u + ['\''])))))) + ">"));
    assert RenderNode(EndTag("a")) == "<" + ("/" + ("a" + ">"));
    Link90Text(u);
  }

  lemma Link90Attribute1Value()
    ensures '\'' !in ("http:" + "//www.external.com" + "/18.htm")
  {
  }

  lemma Link90Attribute1()
    ensures AttributeWellFormed(Attribute(" ", "href", Some(Assignment("", "", QuotedValue('\'', ("http:" + "//www.external.com" + "/18.htm"))))))
  {
    AttributeHref();
    Link90Attribute1Value();
    QuotedAttributeWellFormed(" ", "href", "", "", '\'', ("http:" + "//www.external.com" + "/18.htm"));
  }

  lemma Link90Node1()
    ensures NodeWellFormed(Element("a", [Attribute(" ", "href", Some(Assignment("", "", QuotedValue('\'', ("http:" + "//www.external.com" + "/18.htm")))))], false))
  {
    TagA();
    Link90Attribute1();
    Attributes1(Attribute(" ", "href", Some(Assignment("", "", QuotedValue('\'', ("http:" + "//www.external.com" + "/18.htm"))))));
  }

  lemma Link90Node2()
    ensures NodeWellFormed(Text("18"))
  {
  }

  lemma Link90Node3()
    ensures NodeWellFormed(EndTag("a"))
  {
  }

  lemma Link90WellFormed()
    ensures NodeWellFormed(Element("a", [Attribute(" ", "href", Some(Assignment("", "", QuotedValue('\'', ("http:" + "//www.external.com" + "/18.htm")))))], false)) && NodeWellFormed(Text("18")) && NodeWellFormed(EndTag("a"))
  {
    Link90Node1();
    Link90Node2();
    Link90Node3();
  }

  lemma Link90Refs()
    ensures NodeRefs(Element("a", [Attribute(" ", "href", Some(Assignment("", "", QuotedValue('\'', ("http:" + "//www.external.com" + "/18.htm")))))], false)) + (NodeRefs(Text("18")) + NodeRefs(EndTag("a"))) == [("http:" + "//www.external.com" + "/18.htm")]
  {
    Attributes1(Attribute(" ", "href", Some(Assignment("", "", QuotedValue('\'', ("http:" + "//www.external.com" + "/18.htm"))))));
    AttributeHref();
    UrlAttribute(Attribute(" ", "href", Some(Assignment("", "", QuotedValue('\'', ("http:" + "//www.external.com" + "/18.htm"))))));
  }

  lemma Link90Scan()
    ensures RawReferences(Html, "<a" + " href='" + ("http:" + "//www.external.com" + "/18.htm") + "'>18</a>") == [("http:" + "//www.external.com" + "/18.htm")]
  {
    Link90Render("http:" + "//www.external.com" + "/18.htm");
    Link90WellFormed();
    Link90Refs();
    Document3(Element("a", [Attribute(" ", "href", Some(Assignment("", "", QuotedValue('\'', ("http:" + "//www.external.com" + "/18.htm")))))], false), Text("18"), EndTag("a"));
  }

  lemma Link90TargetSchemeChar1()
    ensures ':' !in "http"
  {
  }

  lemma Link90TargetSchemeChar2()
    ensures '/' !in "http"
  {
  }

  lemma Link90TargetSchemeChar3()
    ensures '?' !in "http"
  {
  }

  lemma Link90TargetSchemeChar4()
    ensures '#' !in "http"
  {
  }

  lemma Link90TargetScheme()
    ensures NoneIn("http", SchemeStop)
  {
    Link90TargetSchemeChar1();
    Link90TargetSchemeChar2();
    Link90TargetSchemeChar3();
    Link90TargetSchemeChar4();
    NoneInIntro("http", SchemeStop);
  }

  lemma Link90TargetAuthorityChar1()
    ensures '/' !in "www.external.com"
  {
  }

  lemma Link90TargetAuthorityChar2()
    ensures '?' !in "www.external.com"
  {
  }

  lemma Link90TargetAuthorityChar3()
    ensures '#' !in "www.external.com"
  {
  }

  lemma Link90TargetAuthority()
    ensures NoneIn("www.external.com", AuthorityStop)
  {
    Link90TargetAuthorityChar1();
    Link90TargetAuthorityChar2();
    Link90TargetAuthorityChar3();
    NoneInIntro("www.external.com", AuthorityStop);
  }

  lemma Link90TargetPathChar1()
    ensures '?' !in "/18.htm"
  {
  }

  lemma Link90TargetPathChar2()
    ensures '#' !in "/18.htm"
  {
  }

  lemma Link90TargetPath()
    ensures NoneIn("/18.htm", PathStop)
  {
    Link90TargetPathChar1();
    Link90TargetPathChar2();
    NoneInIntro("/18.htm", PathStop);
  }

  lemma Link90TargetReference()
    ensures Uri.WellFormed(Reference(Some("http"), Some("www.external.com"), "/18.htm", None, None))
  {
    Link90TargetScheme();
    Link90TargetAuthority();
    Link90TargetPath();
  }

  lemma Link90TargetUnfold()
    ensures Recompose(Reference(Some("http"), Some("www.external.com"), "/18.htm", None, None)) == ("" + "http" + ":") + (("//" + "www.external.com" + "") + ("/18.htm" + ("" + "")))
  {
  }

  lemma Link90TargetTextPiece1()
    ensures "" + "http" + ":" == "http:"
  {
  }

  lemma Link90TargetTextPiece2()
    ensures "//" + "www.external.com" == "//www.external.com"
  {
  }

  lemma Link90TargetTextPiece3()
    ensures "" + "/18.htm" + "" + "" == "/18.htm"
  {
  }

  lemma Link90TargetText()
    ensures ("" + "http" + ":") + (("//" + "www.external.com" + "") + ("/18.htm" + ("" + ""))) == ("http:" + "//www.external.com" + "/18.htm")
  {
    Link90TargetTextPiece1();
    Link90TargetTextPiece2();
    Link90TargetTextPiece3();
    Assoc("/18.htm", "", "");
    Assoc("//" + "www.external.com" + "", "/18.htm" + "", "");
    Assoc("//" + "www.external.com" + "", "/18.htm", "");
    Assoc("" + "http" + ":", "//" + "www.external.com" + "" + "/18.htm" + "", "");
    Assoc("" + "http" + ":", "//" + "www.external.com" + "" + "/18.htm", "");
    Assoc("" + "http" + ":", "//" + "www.external.com" + "", "/18.htm");
    Assoc("" + "http" + ":", "//" + "www.external.com", "");
    Assoc("" + "http" + ":", "//", "www.external.com");
    Assoc("" + "http" + ":", "//", "www.external.com");
    Assoc("" + "http" + ":" + "//" + "www.external.com", "" + "/18.htm" + "", "");
    Assoc("" + "http" + ":" + "//" + "www.external.com", "" + "/18.htm", "");
    Assoc("" + "http" + ":" + "//" + "www.external.com", "", "/18.htm");
  }

  lemma Link90TargetRecompose()
    ensures Recompose(Reference(Some("http"), Some("www.external.com"), "/18.htm", None, None)) == ("http:" + "//www.external.com" + "/18.htm")
  {
    Link90TargetUnfold();
    Link90TargetText();
  }

  lemma Link90TargetTrim()
    ensures Trim(("http:" + "//www.external.com" + "/18.htm")) == ("http:" + "//www.external.com" + "/18.htm")
  {
    TrimPlain(("http:" + "//www.external.com" + "/18.htm"));
  }

  lemma Link90Target()
    ensures !IsLocal(Target(Base, ("http:" + "//www.external.com" + "/18.htm")), Host)
  {
    Link90TargetReference();
    Link90TargetRecompose();
    Link90TargetTrim();
    ForeignTarget(("http:" + "//www.external.com" + "/18.htm"), Reference(Some("http"), Some("www.external.com"), "/18.htm", None, None));
  }

  /** <a href='http://www.external.com/18.htm'>18</a>: another host is not extracted */
  lemma Link90()
    ensures Extract(Html, "<a" + " href='" + ("http:" + "//www.external.com" + "/18.htm") + "'>18</a>", Page, Host) == []
  {
    Link90Scan();
    Link90Target();
    ExtractForeign(Html, "<a" + " href='" + ("http:" + "//www.external.com" + "/18.htm") + "'>18</a>", ("http:" + "//www.external.com" + "/18.htm"));
  }

  lemma Element110Run1()
    ensures "<" + "link" == "<link"
  {
  }

  lemma Element110Run2()
    ensures " " + "rel" + "" + "=" + "" + ['\''] + "stylesheet" + ['\''] == " rel='stylesheet'"
  {
  }

  lemma Element110Run3()
    ensures " " + "id" + "" + "=" + "" + ['\''] + "test-css" + ['\''] == " id='test-css'"
  {
  }

  lemma Element110Run4()
    ensures "  " + "href" + "" + "=" + "" + ['\''] == "  href='"
  {
  }

  lemma Element110Run5()
    ensures " " + "type" + "" + "=" + "" + ['\''] + "text/css" + ['\''] == " type='text/css'"
  {
  }

  lemma Element110Run6()
    ensures " " + "media" + "" + "=" + "" + ['\''] + "all" + ['\''] == " media='all'"
  {
  }

  lemma Element110Text(u: string)
    ensures ("<" + ("link" + (((" " + ("rel" + ("" + ("=" + ("" + (['\''] + "stylesheet" + ['\''])))))) + ((" " + ("id" + ("" + ("=" + ("" + (['\''] + "test-css" + ['\''])))))) + (("  " + ("href" + ("" + ("=" + ("" + (['\''] + u + ['\''])))))) + ((" " + ("type" + ("" + ("=" + ("" + (['\''] + "text/css" + ['\''])))))) + (" " + ("media" + ("" + ("=" + ("" + (['\''] + "all" + ['\''])))))))))) + " />")))
      == "<link" + " rel='stylesheet'" + " id='test-css'" + "  href='" + u + "'" + " type='text/css'" + " media='all'" + " />"
  {
    Element110Run1();
    Element110Run2();
    Element110Run3();
    Element110Run4();
    Element110Run5();
    Element110Run6();
    Assoc("", ['\''] + "stylesheet", ['\'']);
    Assoc("", ['\''], "stylesheet");
    Assoc("=", "" + ['\''] + "stylesheet", ['\'']);
    Assoc("=", "" + ['\''], "stylesheet");
    Assoc("=", "", ['\'']);
    Assoc("", "=" + "" + ['\''] + "stylesheet", ['\'']);
    Assoc("", "=" + "" + ['\''], "stylesheet");
    Assoc("", "=" + "", ['\'']);
    Assoc("", "=", "");
    Assoc("rel", "" + "=" + "" + ['\''] + "stylesheet", ['\'']);
    Assoc("rel", "" + "=" + "" + ['\''], "stylesheet");
    Assoc("rel", "" + "=" + "", ['\'']);
    Assoc("rel", "" + "=", "");
    Assoc("rel", "", "=");
    Assoc(" ", "rel" + "" + "=" + "" + ['\''] + "stylesheet", ['\'']);
    Assoc(" ", "rel" + "" + "=" + "" + ['\''], "stylesheet");
    Assoc(" ", "rel" + "" + "=" + "", ['\'']);
    Assoc(" ", "rel" + "" + "=", "");
    Assoc(" ", "rel" + "", "=");
    Assoc(" ", "rel", "");
    Assoc("", ['\''] + "test-css", ['\'']);
    Assoc("", ['\''], "test-css");
    Assoc("=", "" + ['\''] + "test-css", ['\'']);
    Assoc("=", "" + ['\''], "test-css");
    Assoc("=", "", ['\'']);
    Assoc("", "=" + "" + ['\''] + "test-css", ['\'']);
    Assoc("", "=" + "" + ['\''], "test-css");
    Assoc("", "=" + "", ['\'']);
    Assoc("", "=", "");
    Assoc("id", "" + "=" + "" + ['\''] + "test-css", ['\'']);
    Assoc("id", "" + "=" + "" + ['\''], "test-css");
    Assoc("id", "" + "=" + "", ['\'']);
    Assoc("id", "" + "=", "");
    Assoc("id", "", "=");
    Assoc(" ", "id" + "" + "=" + "" + ['\''] + "test-css", ['\'']);
    Assoc(" ", "id" + "" + "=" + "" + ['\''], "test-css");
    Assoc(" ", "id" + "" + "=" + "", ['\'']);
    Assoc(" ", "id" + "" + "=", "");
    Assoc(" ", "id" + "", "=");
    Assoc(" ", "id", "");
    Assoc("", ['\''] + u, ['\'']);
    Assoc("", ['\''], u);
    Assoc("=", "" + ['\''] + u, ['\'']);
    Assoc("=", "" + ['\''], u);
    Assoc("=", "", ['\'']);
    Assoc("", "=" + "" + ['\''] + u, ['\'']);
    Assoc("", "=" + "" + ['\''], u);
    Assoc("", "=" + "", ['\'']);
    Assoc("", "=", "");
    Assoc("href", "" + "=" + "" + ['\''] + u, ['\'']);
    Assoc("href", "" + "=" + "" + ['\''], u);
    Assoc("href", "" + "=" + "", ['\'']);
    Assoc("href", "" + "=", "");
    Assoc("href", "", "=");
    Assoc("  ", "href" + "" + "=" + "" + ['\''] + u, ['\'']);
    Assoc("  ", "href" + "" + "=" + "" + ['\''], u);
    Assoc("  ", "href" + "" + "=" + "", ['\'']);
    Assoc("  ", "href" + "" + "=", "");
    Assoc("  ", "href" + "", "=");
    Assoc("  ", "href", "");
    Assoc("", ['\''] + "text/css", ['\'']);
    Assoc("", ['\''], "text/css");
    Assoc("=", "" + ['\''] + "text/css", ['\'']);
    Assoc("=", "" + ['\''], "text/css");
    Assoc("=", "", ['\'']);
    Assoc("", "=" + "" + ['\''] + "text/css", ['\'']);
    Assoc("", "=" + "" + ['\''], "text/css");
    Assoc("", "=" + "", ['\'']);
    Assoc("", "=", "");
    Assoc("type", "" + "=" + "" + ['\''] + "text/css", ['\'']);
    Assoc("type", "" + "=" + "" + ['\''], "text/css");
    Assoc("type", "" + "=" + "", ['\'']);
    Assoc("type", "" + "=", "");
    Assoc("type", "", "=");
    Assoc(" ", "type" + "" + "=" + "" + ['\''] + "text/css", ['\'']);
    Assoc(" ", "type" + "" + "=" + "" + ['\''], "text/css");
    Assoc(" ", "type" + "" + "=" + "", ['\'']);
    Assoc(" ", "type" + "" + "=", "");
    Assoc(" ", "type" + "", "=");
    Assoc(" ", "type", "");
    Assoc("", ['\''] + "all", ['\'']);
    Assoc("", ['\''], "all");
    Assoc("=", "" + ['\''] + "all", ['\'']);
    Assoc("=", "" + ['\''], "all");
    Assoc("=", "", ['\'']);
    Assoc("", "=" + "" + ['\''] + "all", ['\'']);
    Assoc("", "=" + "" + ['\''], "all");
    Assoc("", "=" + "", ['\'']);
    Assoc("", "=", "");
    Assoc("media", "" + "=" + "" + ['\''] + "all", ['\'']);
    Assoc("media", "" + "=" + "" + ['\''], "all");
    Assoc("media", "" + "=" + "", ['\'']);
    Assoc("media", "" + "=", "");
    Assoc("media", "", "=");
    Assoc(" ", "media" + "" + "=" + "" + ['\''] + "all", ['\'']);
    Assoc(" ", "media" + "" + "=" + "" + ['\''], "all");
    Assoc(" ", "media" + "" + "=" + "", ['\'']);
    Assoc(" ", "media" + "" + "=", "");
    Assoc(" ", "media" + "", "=");
    Assoc(" ", "media", "");
    Assoc(" " + "type" + "" + "=" + "" + ['\''] + "text/css" + ['\''], " " + "media" + "" + "=" + "" + ['\''] + "all", ['\'']);
    Assoc(" " + "type" + "" + "=" + "" + ['\''] + "text/css" + ['\''], " " + "media" + "" + "=" + "" + ['\''], "all");
    Assoc(" " + "type" + "" + "=" + "" + ['\''] + "text/css" + ['\''], " " + "media" + "" + "=" + "", ['\'']);
    Assoc(" " + "type" + "" + "=" + "" + ['\''] + "text/css" + ['\''], " " + "media" + "" + "=", "");
    Assoc(" " + "type" + "" + "=" + "" + ['\''] + "text/css" + ['\''], " " + "media" + "", "=");
    Assoc(" " + "type" + "" + "=" + "" + ['\''] + "text/css" + ['\''], " " + "media", "");
    Assoc(" " + "type" + "" + "=" + "" + ['\''] + "text/css" + ['\''], " ", "media");
    Assoc("  " + "href" + "" + "=" + "" + ['\''] + u + ['\''], " " + "type" + "" + "=" + "" + ['\''] + "text/css" + ['\''] + " " + "media" + "" + "=" + "" + ['\''] + "all", ['\'']);
    Assoc("  " + "href" + "" + "=" + "" + ['\''] + u + ['\''], " " + "type" + "" + "=" + "" + ['\''] + "text/css" + ['\''] + " " + "media" + "" + "=" + "" + ['\''], "all");
    Assoc("  " + "href" + "" + "=" + "" + ['\''] + u + ['\''], " " + "type" + "" + "=" + "" + ['\''] + "text/css" + ['\''] + " " + "media" + "" + "=" + "", ['\'']);
    Assoc("  " + "href" + "" + "=" + "" + ['\''] + u + ['\''], " " + "type" + "" + "=" + "" + ['\''] + "text/css" + ['\''] + " " + "media" + "" + "=", "");
    Assoc("  " + "href" + "" + "=" + "" + ['\''] + u + ['\''], " " + "type" + "" + "=" + "" + ['\''] + "text/css" + ['\''] + " " + "media" + "", "=");
    Assoc("  " + "href" + "" + "=" + "" + ['\''] + u + ['\''], " " + "type" + "" + "=" + "" + ['\''] + "text/css" + ['\''] + " " + "media", "");
    Assoc("  " + "href" + "" + "=" + "" + ['\''] + u + ['\''], " " + "type" + "" + "=" + "" + ['\''] + "text/css" + ['\''] + " ", "media");
    Assoc("  " + "href" + "" + "=" + "" + ['\''] + u + ['\''], " " + "type" + "" + "=" + "" + ['\''] + "text/css" + ['\''], " ");
    Assoc("  " + "href" + "" + "=" + "" + ['\''] + u + ['\''], " " + "type" + "" + "=" + "" + ['\''] + "text/css", ['\'']);
    Assoc("  " + "href" + "" + "=" + "" + ['\''] + u + ['\''], " " + "type" + "" + "=" + "" + ['\''], "text/css");
    Assoc("  " + "href" + "" + "=" + "" + ['\''] + u + ['\''], " " + "type" + "" + "=" + "", ['\'']);
    Assoc("  " + "href" + "" + "=" + "" + ['\''] + u + ['\''], " " + "type" + "" + "=", "");
    Assoc("  " + "href" + "" + "=" + "" + ['\''] + u + ['\''], " " + "type" + "", "=");
    Assoc("  " + "href" + "" + "=" + "" + ['\''] + u + ['\''], " " + "type", "");
    Assoc("  " + "href" + "" + "=" + "" + ['\''] + u + ['\''], " ", "type");
    Assoc(" " + "id" + "" + "=" + "" + ['\''] + "test-css" + ['\''], "  " + "href" + "" + "=" + "" + ['\''] + u + ['\''] + " " + "type" + "" + "=" + "" + ['\''] + "text/css" + ['\''] + " " + "media" + "" + "=" + "" + ['\''] + "all", ['\'']);
    Assoc(" " + "id" + "" + "=" + "" + ['\''] + "test-css" + ['\''], "  " + "href" + "" + "=" + "" + ['\''] + u + ['\''] + " " + "type" + "" + "=" + "" + ['\''] + "text/css" + ['\''] + " " + "media" + "" + "=" + "" + ['\''], "all");
    Assoc(" " + "id" + "" + "=" + "" + ['\''] + "test-css" + ['\''], "  " + "href" + "" + "=" + "" + ['\''] + u + ['\''] + " " + "type" + "" + "=" + "" + ['\''] + "text/css" + ['\''] + " " + "media" + "" + "=" + "", ['\'']);
    Assoc(" " + "id" + "" + "=" + "" + ['\''] + "test-css" + ['\''], "  " + "href" + "" + "=" + "" + ['\''] + u + ['\''] + " " + "type" + "" + "=" + "" + ['\''] + "text/css" + ['\''] + " " + "media" + "" + "=", "");
    Assoc(" " + "id" + "" + "=" + "" + ['\''] + "test-css" + ['\''], "  " + "href" + "" + "=" + "" + ['\''] + u + ['\''] + " " + "type" + "" + "=" + "" + ['\''] + "text/css" + ['\''] + " " + "media" + "", "=");
    Assoc(" " + "id" + "" + "=" + "" + ['\''] + "test-css" + ['\''], "  " + "href" + "" + "=" + "" + ['\''] + u + ['\''] + " " + "type" + "" + "=" + "" + ['\''] + "text/css" + ['\''] + " " + "media", "");
    Assoc(" " + "id" + "" + "=" + "" + ['\''] + "test-css" + ['\''], "  " + "href" + "" + "=" + "" + ['\''] + u + ['\''] + " " + "type" + "" + "=" + "" + ['\''] + "text/css" + ['\''] + " ", "media");
    Assoc(" " + "id" + "" + "=" + "" + ['\''] + "test-css" + ['\''], "  " + "href" + "" + "=" + "" + ['\''] + u + ['\''] + " " + "type" + "" + "=" + "" + ['\''] + "text/css" + ['\''], " ");
    Assoc(" " + "id" + "" + "=" + "" + ['\''] + "test-css" + ['\''], "  " + "href" + "" + "=" + "" + ['\''] + u + ['\''] + " " + "type" + "" + "=" + "" + ['\''] + "text/css", ['\'']);
    Assoc(" " + "id" + "" + "=" + "" + ['\''] + "test-css" + ['\''], "  " + "href" + "" + "=" + "" + ['\''] + u + ['\''] + " " + "type" + "" + "=" + "" + ['\''], "text/css");
    Assoc(" " + "id" + "" + "=" + "" + ['\''] + "test-css" + ['\''], "  " + "href" + "" + "=" + "" + ['\''] + u + ['\''] + " " + "type" + "" + "=" + "", ['\'']);
    Assoc(" " + "id" + "" + "=" + "" + ['\''] + "test-css" + ['\''], "  " + "href" + "" + "=" + "" + ['\''] + u + ['\''] + " " + "type" + "" + "=", "");
    Assoc(" " + "id" + "" + "=" + "" + ['\''] + "test-css" + ['\''], "  " + "href" + "" + "=" + "" + ['\''] + u + ['\''] + " " + "type" + "", "=");
    Assoc(" " + "id" + "" + "=" + "" + ['\''] + "test-css" + ['\''], "  " + "href" + "" + "=" + "" + ['\''] + u + ['\''] + " " + "type", "");
    Assoc(" " + "id" + "" + "=" + "" + ['\''] + "test-css" + ['\''], "  " + "href" + "" + "=" + "" + ['\''] + u + ['\''] + " ", "type");
    Assoc(" " + "id" + "" + "=" + "" + ['\''] + "test-css" + ['\''], "  " + "href" + "" + "=" + "" + ['\''] + u + ['\''], " ");
    Assoc(" " + "id" + "" + "=" + "" + ['\''] + "test-css" + ['\''], "  " + "href" + "" + "=" + "" + ['\''] + u, ['\'']);
    Assoc(" " + "id" + "" + "=" + "" + ['\''] + "test-css" + ['\''], "  " + "href" + "" + "=" + "" + ['\''], u);
    Assoc(" " + "id" + "" + "=" + "" + ['\''] + "test-css" + ['\''], "  " + "href" + "" + "=" + "", ['\'']);
    Assoc(" " + "id" + "" + "=" + "" + ['\''] + "test-css" + ['\''], "  " + "href" + "" + "=", "");
    Assoc(" " + "id" + "" + "=" + "" + ['\''] + "test-css" + ['\''], "  " + "href" + "", "=");
    Assoc(" " + "id" + "" + "=" + "" + ['\''] + "test-css" + ['\''], "  " + "href", "");
    Assoc(" " + "id" + "" + "=" + "" + ['\''] + "test-css" + ['\''], "  ", "href");
    Assoc(" " + "rel" + "" + "=" + "" + ['\''] + "stylesheet" + ['\''], " " + "id" + "" + "=" + "" + ['\''] + "test-css" + ['\''] + "  " + "href" + "" + "=" + "" + ['\''] + u + ['\''] + " " + "type" + "" + "=" + "" + ['\''] + "text/css" + ['\''] + " " + "media" + "" + "=" + "" + ['\''] + "all", ['\'']);
    Assoc(" " + "rel" + "" + "=" + "" + ['\''] + "stylesheet" + ['\''], " " + "id" + "" + "=" + "" + ['\''] + "test-css" + ['\''] + "  " + "href" + "" + "=" + "" + ['\''] + u + ['\''] + " " + "type" + "" + "=" + "" + ['\''] + "text/css" + ['\''] + " " + "media" + "" + "=" + "" + ['\''], "all");
    Assoc(" " + "rel" + "" + "=" + "" + ['\''] + "stylesheet" + ['\''], " " + "id" + "" + "=" + "" + ['\''] + "test-css" + ['\''] + "  " + "href" + "" + "=" + "" + ['\''] + u + ['\''] + " " + "type" + "" + "=" + "" + ['\''] + "text/css" + ['\''] + " " + "media" + "" + "=" + "", ['\'']);
    Assoc(" " + "rel" + "" + "=" + "" + ['\''] + "stylesheet" + ['\''], " " + "id" + "" + "=" + "" + ['\''] + "test-css" + ['\''] + "  " + "href" + "" + "=" + "" + ['\''] + u + ['\''] + " " + "type" + "" + "=" + "" + ['\''] + "text/css" + ['\''] + " " + "media" + "" + "=", "");
    Assoc(" " + "rel" + "" + "=" + "" + ['\''] + "stylesheet" + ['\''], " " + "id" + "" + "=" + "" + ['\''] + "test-css" + ['\''] + "  " + "href" + "" + "=" + "" + ['\''] + u + ['\''] + " " + "type" + "" + "=" + "" + ['\''] + "text/css" + ['\''] + " " + "media" + "", "=");
    Assoc(" " + "rel" + "" + "=" + "" + ['\''] + "stylesheet" + ['\''], " " + "id" + "" + "=" + "" + ['\''] + "test-css" + ['\''] + "  " + "href" + "" + "=" + "" + ['\''] + u + ['\''] + " " + "type" + "" + "=" + "" + ['\''] + "text/css" + ['\''] + " " + "media", "");
    Assoc(" " + "rel" + "" + "=" + "" + ['\''] + "stylesheet" + ['\''], " " + "id" + "" + "=" + "" + ['\''] + "test-css" + ['\''] + "  " + "href" + "" + "=" + "" + ['\''] + u + ['\''] + " " + "type" + "" + "=" + "" + ['\''] + "text/css" + ['\''] + " ", "media");
    Assoc(" " + "rel" + "" + "=" + "" + ['\''] + "stylesheet" + ['\''], " " + "id" + "" + "=" + "" + ['\''] + "test-css" + ['\''] + "  " + "href" + "" + "=" + "" + ['\''] + u + ['\''] + " " + "type" + "" + "=" + "" + ['\''] + "text/css" + ['\''], " ");
    Assoc(" " + "rel" + "" + "=" + "" + ['\''] + "stylesheet" + ['\''], " " + "id" + "" + "=" + "" + ['\''] + "test-css" + ['\''] + "  " + "href" + "" + "=" + "" + ['\''] + u + ['\''] + " " + "type" + "" + "=" + "" + ['\''] + "text/css", ['\'']);
    Assoc(" " + "rel" + "" + "=" + "" + ['\''] + "stylesheet" + ['\''], " " + "id" + "" + "=" + "" + ['\''] + "test-css" + ['\''] + "  " + "href" + "" + "=" + "" + ['\''] + u + ['\''] + " " + "type" + "" + "=" + "" + ['\''], "text/css");
    Assoc(" " + "rel" + "" + "=" + "" + ['\''] + "stylesheet" + ['\''], " " + "id" + "" + "=" + "" + ['\''] + "test-css" + ['\''] + "  " + "href" + "" + "=" + "" + ['\''] + u + ['\''] + " " + "type" + "" + "=" + "", ['\'']);
    Assoc(" " + "rel" + "" + "=" + "" + ['\''] + "stylesheet" + ['\''], " " + "id" + "" + "=" + "" + ['\''] + "test-css" + ['\''] + "  " + "href" + "" + "=" + "" + ['\''] + u + ['\''] + " " + "type" + "" + "=", "");
    Assoc(" " + "rel" + "" + "=" + "" + ['\''] + "stylesheet" + ['\''], " " + "id" + "" + "=" + "" + ['\''] + "test-css" + ['\''] + "  " + "href" + "" + "=" + "" + ['\''] + u + ['\''] + " " + "type" + "", "=");
    Assoc(" " + "rel" + "" + "=" + "" + ['\''] + "stylesheet" + ['\''], " " + "id" + "" + "=" + "" + ['\''] + "test-css" + ['\''] + "  " + "href" + "" + "=" + "" + ['\''] + u + ['\''] + " " + "type", "");
    Assoc(" " + "rel" + "" + "=" + "" + ['\''] + "stylesheet" + ['\''], " " + "id" + "" + "=" + "" + ['\''] + "test-css" + ['\''] + "  " + "href" + "" + "=" + "" + ['\''] + u + ['\''] + " ", "type");
    Assoc(" " + "rel" + "" + "=" + "" + ['\''] + "stylesheet" + ['\''], " " + "id" + "" + "=" + "" + ['\''] + "test-css" + ['\''] + "  " + "href" + "" + "=" + "" + ['\''] + u + ['\''], " ");
    Assoc(" " + "rel" + "" + "=" + "" + ['\''] + "stylesheet" + ['\''], " " + "id" + "" + "=" + "" + ['\''] + "test-css" + ['\''] + "  " + "href" + "" + "=" + "" + ['\''] + u, ['\'']);
    Assoc(" " + "rel" + "" + "=" + "" + ['\''] + "stylesheet" + ['\''], " " + "id" + "" + "=" + "" + ['\''] + "test-css" + ['\''] + "  " + "href" + "" + "=" + "" + ['\''], u);
    Assoc(" " + "rel" + "" + "=" + "" + ['\''] + "stylesheet" + ['\''], " " + "id" + "" + "=" + "" + ['\''] + "test-css" + ['\''] + "  " + "href" + "" + "=" + "", ['\'']);
    Assoc(" " + "rel" + "" + "=" + "" + ['\''] + "stylesheet" + ['\''], " " + "id" + "" + "=" + "" + ['\''] + "test-css" + ['\''] + "  " + "href" + "" + "=", "");
    Assoc(" " + "rel" + "" + "=" + "" + ['\''] + "stylesheet" + ['\''], " " + "id" + "" + "=" + "" + ['\''] + "test-css" + ['\''] + "  " + "href" + "", "=");
    Assoc(" " + "rel" + "" + "=" + "" + ['\''] + "stylesheet" + ['\''], " " + "id" + "" + "=" + "" + ['\''] + "test-css" + ['\''] + "  " + "href", "");
    Assoc(" " + "rel" + "" + "=" + "" + ['\''] + "stylesheet" + ['\''], " " + "id" + "" + "=" + "" + ['\''] + "test-css" + ['\''] + "  ", "href");
    Assoc(" " + "rel" + "" + "=" + "" + ['\''] + "stylesheet" + ['\''], " " + "id" + "" + "=" + "" + ['\''] + "test-css" + ['\''], "  ");
    Assoc(" " + "rel" + "" + "=" + "" + ['\''] + "stylesheet" + ['\''], " " + "id" + "" + "=" + "" + ['\''] + "test-css", ['\'']);
    Assoc(" " + "rel" + "" + "=" + "" + ['\''] + "stylesheet" + ['\''], " " + "id" + "" + "=" + "" + ['\''], "test-css");
    Assoc(" " + "rel" + "" + "=" + "" + ['\''] + "stylesheet" + ['\''], " " + "id" + "" + "=" + "", ['\'']);
    Assoc(" " + "rel" + "" + "=" + "" + ['\''] + "stylesheet" + ['\''], " " + "id" + "" + "=", "");
    Assoc(" " + "rel" + "" + "=" + "" + ['\''] + "stylesheet" + ['\''], " " + "id" + "", "=");
    Assoc(" " + "rel" + "" + "=" + "" + ['\''] + "stylesheet" + ['\''], " " + "id", "");
    Assoc(" " + "rel" + "" + "=" + "" + ['\''] + "stylesheet" + ['\''], " ", "id");
    Assoc("link", " " + "rel" + "" + "=" + "" + ['\''] + "stylesheet" + ['\''] + " " + "id" + "" + "=" + "" + ['\''] + "test-css" + ['\''] + "  " + "href" + "" + "=" + "" + ['\''] + u + ['\''] + " " + "type" + "" + "=" + "" + ['\''] + "text/css" + ['\''] + " " + "media" + "" + "=" + "" + ['\''] + "all" + ['\''], " />");
    Assoc("link", " " + "rel" + "" + "=" + "" + ['\''] + "stylesheet" + ['\''] + " " + "id" + "" + "=" + "" + ['\''] + "test-css" + ['\''] + "  " + "href" + "" + "=" + "" + ['\''] + u + ['\''] + " " + "type" + "" + "=" + "" + ['\''] + "text/css" + ['\''] + " " + "media" + "" + "=" + "" + ['\''] + "all", ['\'']);
    Assoc("link", " " + "rel" + "" + "=" + "" + ['\''] + "stylesheet" + ['\''] + " " + "id" + "" + "=" + "" + ['\''] + "test-css" + ['\''] + "  " + "href" + "" + "=" + "" + ['\''] + u + ['\''] + " " + "type" + "" + "=" + "" + ['\''] + "text/css" + ['\''] + " " + "media" + "" + "=" + "" + ['\''], "all");
    Assoc("link", " " + "rel" + "" + "=" + "" + ['\''] + "stylesheet" + ['\''] + " " + "id" + "" + "=" + "" + ['\''] + "test-css" + ['\''] + "  " + "href" + "" + "=" + "" + ['\''] + u + ['\''] + " " + "type" + "" + "=" + "" + ['\''] + "text/css" + ['\''] + " " + "media" + "" + "=" + "", ['\'']);
    Assoc("link", " " + "rel" + "" + "=" + "" + ['\''] + "stylesheet" + ['\''] + " " + "id" + "" + "=" + "" + ['\''] + "test-css" + ['\''] + "  " + "href" + "" + "=" + "" + ['\''] + u + ['\''] + " " + "type" + "" + "=" + "" + ['\''] + "text/css" + ['\''] + " " + "media" + "" + "=", "");
    Assoc("link", " " + "rel" + "" + "=" + "" + ['\''] + "stylesheet" + ['\''] + " " + "id" + "" + "=" + "" + ['\''] + "test-css" + ['\''] + "  " + "href" + "" + "=" + "" + ['\''] + u + ['\''] + " " + "type" + "" + "=" + "" + ['\''] + "text/css" + ['\''] + " " + "media" + "", "=");
    Assoc("link", " " + "rel" + "" + "=" + "" + ['\''] + "stylesheet" + ['\''] + " " + "id" + "" + "=" + "" + ['\''] + "test-css" + ['\''] + "  " + "href" + "" + "=" + "" + ['\''] + u + ['\''] + " " + "type" + "" + "=" + "" + ['\''] + "text/css" + ['\''] + " " + "media", "");
    Assoc("link", " " + "rel" + "" + "=" + "" + ['\''] + "stylesheet" + ['\''] + " " + "id" + "" + "=" + "" + ['\''] + "test-css" + ['\''] + "  " + "href" + "" + "=" + "" + ['\''] + u + ['\''] + " " + "type" + "" + "=" + "" + ['\''] + "text/css" + ['\''] + " ", "media");
    Assoc("link", " " + "rel" + "" + "=" + "" + ['\''] + "stylesheet" + ['\''] + " " + "id" + "" + "=" + "" + ['\''] + "test-css" + ['\''] + "  " + "href" + "" + "=" + "" + ['\''] + u + ['\''] + " " + "type" + "" + "=" + "" + ['\''] + "text/css" + ['\''], " ");
    Assoc("link", " " + "rel" + "" + "=" + "" + ['\''] + "stylesheet" + ['\''] + " " + "id" + "" + "=" + "" + ['\''] + "test-css" + ['\''] + "  " + "href" + "" + "=" + "" + ['\''] + u + ['\''] + " " + "type" + "" + "=" + "" + ['\''] + "text/css", ['\'']);
    Assoc("link", " " + "rel" + "" + "=" + "" + ['\''] + "stylesheet" + ['\''] + " " + "id" + "" + "=" + "" + ['\''] + "test-css" + ['\''] + "  " + "href" + "" + "=" + "" + ['\''] + u + ['\''] + " " + "type" + "" + "=" + "" + ['\''], "text/css");
    Assoc("link", " " + "rel" + "" + "=" + "" + ['\''] + "stylesheet" + ['\''] + " " + "id" + "" + "=" + "" + ['\''] + "test-css" + ['\''] + "  " + "href" + "" + "=" + "" + ['\''] + u + ['\''] + " " + "type" + "" + "=" + "", ['\'']);
    Assoc("link", " " + "rel" + "" + "=" + "" + ['\''] + "stylesheet" + ['\''] + " " + "id" + "" + "=" + "" + ['\''] + "test-css" + ['\''] + "  " + "href" + "" + "=" + "" + ['\''] + u + ['\''] + " " + "type" + "" + "=", "");
    Assoc("link", " " + "rel" + "" + "=" + "" + ['\''] + "stylesheet" + ['\''] + " " + "id" + "" + "=" + "" + ['\''] + "test-css" + ['\''] + "  " + "href" + "" + "=" + "" + ['\''] + u + ['\''] + " " + "type" + "", "=");
    Assoc("link", " " + "rel" + "" + "=" + "" + ['\''] + "stylesheet" + ['\''] + " " + "id" + "" + "=" + "" + ['\''] + "test-css" + ['\''] + "  " + "href" + "" + "=" + "" + ['\''] + u + ['\''] + " " + "type", "");
    Assoc("link", " " + "rel" + "" + "=" + "" + ['\''] + "stylesheet" + ['\''] + " " + "id" + "" + "=" + "" + ['\''] + "test-css" + ['\''] + "  " + "href" + "" + "=" + "" + ['\''] + u + ['\''] + " ", "type");
    Assoc("link", " " + "rel" + "" + "=" + "" + ['\''] + "stylesheet" + ['\''] + " " + "id" + "" + "=" + "" + ['\''] + "test-css" + ['\''] + "  " + "href" + "" + "=" + "" + ['\''] + u + ['\''], " ");
    Assoc("link", " " + "rel" + "" + "=" + "" + ['\''] + "stylesheet" + ['\''] + " " + "id" + "" + "=" + "" + ['\''] + "test-css" + ['\''] + "  " + "href" + "" + "=" + "" + ['\''] + u, ['\'']);
    Assoc("link", " " + "rel" + "" + "=" + "" + ['\''] + "stylesheet" + ['\''] + " " + "id" + "" + "=" + "" + ['\''] + "test-css" + ['\''] + "  " + "href" + "" + "=" + "" + ['\''], u);
    Assoc("link", " " + "rel" + "" + "=" + "" + ['\''] + "stylesheet" + ['\''] + " " + "id" + "" + "=" + "" + ['\''] + "test-css" + ['\''] + "  " + "href" + "" + "=" + "", ['\'']);
    Assoc("link", " " + "rel" + "" + "=" + "" + ['\''] + "stylesheet" + ['\''] + " " + "id" + "" + "=" + "" + ['\''] + "test-css" + ['\''] + "  " + "href" + "" + "=", "");
    Assoc("link", " " + "rel" + "" + "=" + "" + ['\''] + "stylesheet" + ['\''] + " " + "id" + "" + "=" + "" + ['\''] + "test-css" + ['\''] + "  " + "href" + "", "=");
    Assoc("link", " " + "rel" + "" + "=" + "" + ['\''] + "stylesheet" + ['\''] + " " + "id" + "" + "=" + "" + ['\''] + "test-css" + ['\''] + "  " + "href", "");
    Assoc("link", " " + "rel" + "" + "=" + "" + ['\''] + "stylesheet" + ['\''] + " " + "id" + "" + "=" + "" + ['\''] + "test-css" + ['\''] + "  ", "href");
    Assoc("link", " " + "rel" + "" + "=" + "" + ['\''] + "stylesheet" + ['\''] + " " + "id" + "" + "=" + "" + ['\''] + "test-css" + ['\''], "  ");
    Assoc("link", " " + "rel" + "" + "=" + "" + ['\''] + "stylesheet" + ['\''] + " " + "id" + "" + "=" + "" + ['\''] + "test-css", ['\'']);
    Assoc("link", " " + "rel" + "" + "=" + "" + ['\''] + "stylesheet" + ['\''] + " " + "id" + "" + "=" + "" + ['\''], "test-css");
    Assoc("link", " " + "rel" + "" + "=" + "" + ['\''] + "stylesheet" + ['\''] + " " + "id" + "" + "=" + "", ['\'']);
    Assoc("link", " " + "rel" + "" + "=" + "" + ['\''] + "stylesheet" + ['\''] + " " + "id" + "" + "=", "");
    Assoc("link", " " + "rel" + "" + "=" + "" + ['\''] + "stylesheet" + ['\''] + " " + "id" + "", "=");
    Assoc("link", " " + "rel" + "" + "=" + "" + ['\''] + "stylesheet" + ['\''] + " " + "id", "");
    Assoc("link", " " + "rel" + "" + "=" + "" + ['\''] + "stylesheet" + ['\''] + " ", "id");
    Assoc("link", " " + "rel" + "" + "=" + "" + ['\''] + "stylesheet" + ['\''], " ");
    Assoc("link", " " + "rel" + "" + "=" + "" + ['\''] + "stylesheet", ['\'']);
    Assoc("link", " " + "rel" + "" + "=" + "" + ['\''], "stylesheet");
    Assoc("link", " " + "rel" + "" + "=" + "", ['\'']);
    Assoc("link", " " + "rel" + "" + "=", "");
    Assoc("link", " " + "rel" + "", "=");
    Assoc("link", " " + "rel", "");
    Assoc("link", " ", "rel");
    Assoc("<", "link" + " " + "rel" + "" + "=" + "" + ['\''] + "stylesheet" + ['\''] + " " + "id" + "" + "=" + "" + ['\''] + "test-css" + ['\''] + "  " + "href" + "" + "=" + "" + ['\''] + u + ['\''] + " " + "type" + "" + "=" + "" + ['\''] + "text/css" + ['\''] + " " + "media" + "" + "=" + "" + ['\''] + "all" + ['\''], " />");
    Assoc("<", "link" + " " + "rel" + "" + "=" + "" + ['\''] + "stylesheet" + ['\''] + " " + "id" + "" + "=" + "" + ['\''] + "test-css" + ['\''] + "  " + "href" + "" + "=" + "" + ['\''] + u + ['\''] + " " + "type" + "" + "=" + "" + ['\''] + "text/css" + ['\''] + " " + "media" + "" + "=" + "" + ['\''] + "all", ['\'']);
    Assoc("<", "link" + " " + "rel" + "" + "=" + "" + ['\''] + "stylesheet" + ['\''] + " " + "id" + "" + "=" + "" + ['\''] + "test-css" + ['\''] + "  " + "href" + "" + "=" + "" + ['\''] + u + ['\''] + " " + "type" + "" + "=" + "" + ['\''] + "text/css" + ['\''] + " " + "media" + "" + "=" + "" + ['\''], "all");
    Assoc("<", "link" + " " + "rel" + "" + "=" + "" + ['\''] + "stylesheet" + ['\''] + " " + "id" + "" + "=" + "" + ['\''] + "test-css" + ['\''] + "  " + "href" + "" + "=" + "" + ['\''] + u + ['\''] + " " + "type" + "" + "=" + "" + ['\''] + "text/css" + ['\''] + " " + "media" + "" + "=" + "", ['\'']);
    Assoc("<", "link" + " " + "rel" + "" + "=" + "" + ['\''] + "stylesheet" + ['\''] + " " + "id" + "" + "=" + "" + ['\''] + "test-css" + ['\''] + "  " + "href" + "" + "=" + "" + ['\''] + u + ['\''] + " " + "type" + "" + "=" + "" + ['\''] + "text/css" + ['\''] + " " + "media" + "" + "=", "");
    Assoc("<", "link" + " " + "rel" + "" + "=" + "" + ['\''] + "stylesheet" + ['\''] + " " + "id" + "" + "=" + "" + ['\''] + "test-css" + ['\''] + "  " + "href" + "" + "=" + "" + ['\''] + u + ['\''] + " " + "type" + "" + "=" + "" + ['\''] + "text/css" + ['\''] + " " + "media" + "", "=");
    Assoc("<", "link" + " " + "rel" + "" + "=" + "" + ['\''] + "stylesheet" + ['\''] + " " + "id" + "" + "=" + "" + ['\''] + "test-css" + ['\''] + "  " + "href" + "" + "=" + "" + ['\''] + u + ['\''] + " " + "type" + "" + "=" + "" + ['\''] + "text/css" + ['\''] + " " + "media", "");
    Assoc("<", "link" + " " + "rel" + "" + "=" + "" + ['\''] + "stylesheet" + ['\''] + " " + "id" + "" + "=" + "" + ['\''] + "test-css" + ['\''] + "  " + "href" + "" + "=" + "" + ['\''] + u + ['\''] + " " + "type" + "" + "=" + "" + ['\''] + "text/css" + ['\''] + " ", "media");
    Assoc("<", "link" + " " + "rel" + "" + "=" + "" + ['\''] + "stylesheet" + ['\''] + " " + "id" + "" + "=" + "" + ['\''] + "test-css" + ['\''] + "  " + "href" + "" + "=" + "" + ['\''] + u + ['\''] + " " + "type" + "" + "=" + "" + ['\''] + "text/css" + ['\''], " ");
    Assoc("<", "link" + " " + "rel" + "" + "=" + "" + ['\''] + "stylesheet" + ['\''] + " " + "id" + "" + "=" + "" + ['\''] + "test-css" + ['\''] + "  " + "href" + "" + "=" + "" + ['\''] + u + ['\''] + " " + "type" + "" + "=" + "" + ['\''] + "text/css", ['\'']);
    Assoc("<", "link" + " " + "rel" + "" + "=" + "" + ['\''] + "stylesheet" + ['\''] + " " + "id" + "" + "=" + "" + ['\''] + "test-css" + ['\''] + "  " + "href" + "" + "=" + "" + ['\''] + u + ['\''] + " " + "type" + "" + "=" + "" + ['\''], "text/css");
    Assoc("<", "link" + " " + "rel" + "" + "=" + "" + ['\''] + "stylesheet" + ['\''] + " " + "id" + "" + "=" + "" + ['\''] + "test-css" + ['\''] + "  " + "href" + "" + "=" + "" + ['\''] + u + ['\''] + " " + "type" + "" + "=" + "", ['\'']);
    Assoc("<", "link" + " " + "rel" + "" + "=" + "" + ['\''] + "stylesheet" + ['\''] + " " + "id" + "" + "=" + "" + ['\''] + "test-css" + ['\''] + "  " + "href" + "" + "=" + "" + ['\''] + u + ['\''] + " " + "type" + "" + "=", "");
    Assoc("<", "link" + " " + "rel" + "" + "=" + "" + ['\''] + "stylesheet" + ['\''] + " " + "id" + "" + "=" + "" + ['\''] + "test-css" + ['\''] + "  " + "href" + "" + "=" + "" + ['\''] + u + ['\''] + " " + "type" + "", "=");
    Assoc("<", "link" + " " + "rel" + "" + "=" + "" + ['\''] + "stylesheet" + ['\''] + " " + "id" + "" + "=" + "" + ['\''] + "test-css" + ['\''] + "  " + "href" + "" + "=" + "" + ['\''] + u + ['\''] + " " + "type", "");
    Assoc("<", "link" + " " + "rel" + "" + "=" + "" + ['\''] + "stylesheet" + ['\''] + " " + "id" + "" + "=" + "" + ['\''] + "test-css" + ['\''] + "  " + "href" + "" + "=" + "" + ['\''] + u + ['\''] + " ", "type");
    Assoc("<", "link" + " " + "rel" + "" + "=" + "" + ['\''] + "stylesheet" + ['\''] + " " + "id" + "" + "=" + "" + ['\''] + "test-css" + ['\''] + "  " + "href" + "" + "=" + "" + ['\''] + u + ['\''], " ");
    Assoc("<", "link" + " " + "rel" + "" + "=" + "" + ['\''] + "stylesheet" + ['\''] + " " + "id" + "" + "=" + "" + ['\''] + "test-css" + ['\''] + "  " + "href" + "" + "=" + "" + ['\''] + u, ['\'']);
    Assoc("<", "link" + " " + "rel" + "" + "=" + "" + ['\''] + "stylesheet" + ['\''] + " " + "id" + "" + "=" + "" + ['\''] + "test-css" + ['\''] + "  " + "href" + "" + "=" + "" + ['\''], u);
    Assoc("<", "link" + " " + "rel" + "" + "=" + "" + ['\''] + "stylesheet" + ['\''] + " " + "id" + "" + "=" + "" + ['\''] + "test-css" + ['\''] + "  " + "href" + "" + "=" + "", ['\'']);
    Assoc("<", "link" + " " + "rel" + "" + "=" + "" + ['\''] + "stylesheet" + ['\''] + " " + "id" + "" + "=" + "" + ['\''] + "test-css" + ['\''] + "  " + "href" + "" + "=", "");
    Assoc("<", "link" + " " + "rel" + "" + "=" + "" + ['\''] + "stylesheet" + ['\''] + " " + "id" + "" + "=" + "" + ['\''] + "test-css" + ['\''] + "  " + "href" + "", "=");
    Assoc("<", "link" + " " + "rel" + "" + "=" + "" + ['\''] + "stylesheet" + ['\''] + " " + "id" + "" + "=" + "" + ['\''] + "test-css" + ['\''] + "  " + "href", "");
    Assoc("<", "link" + " " + "rel" + "" + "=" + "" + ['\''] + "stylesheet" + ['\''] + " " + "id" + "" + "=" + "" + ['\''] + "test-css" + ['\''] + "  ", "href");
    Assoc("<", "link" + " " + "rel" + "" + "=" + "" + ['\''] + "stylesheet" + ['\''] + " " + "id" + "" + "=" + "" + ['\''] + "test-css" + ['\''], "  ");
    Assoc("<", "link" + " " + "rel" + "" + "=" + "" + ['\''] + "stylesheet" + ['\''] + " " + "id" + "" + "=" + "" + ['\''] + "test-css", ['\'']);
    Assoc("<", "link" + " " + "rel" + "" + "=" + "" + ['\''] + "stylesheet" + ['\''] + " " + "id" + "" + "=" + "" + ['\''], "test-css");
    Assoc("<", "link" + " " + "rel" + "" + "=" + "" + ['\''] + "stylesheet" + ['\''] + " " + "id" + "" + "=" + "", ['\'']);
    Assoc("<", "link" + " " + "rel" + "" + "=" + "" + ['\''] + "stylesheet" + ['\''] + " " + "id" + "" + "=", "");
    Assoc("<", "link" + " " + "rel" + "" + "=" + "" + ['\''] + "stylesheet" + ['\''] + " " + "id" + "", "=");
    Assoc("<", "link" + " " + "rel" + "" + "=" + "" + ['\''] + "stylesheet" + ['\''] + " " + "id", "");
    Assoc("<", "link" + " " + "rel" + "" + "=" + "" + ['\''] + "stylesheet" + ['\''] + " ", "id");
    Assoc("<", "link" + " " + "rel" + "" + "=" + "" + ['\''] + "stylesheet" + ['\''], " ");
    Assoc("<", "link" + " " + "rel" + "" + "=" + "" + ['\''] + "stylesheet", ['\'']);
    Assoc("<", "link" + " " + "rel" + "" + "=" + "" + ['\''], "stylesheet");
    Assoc("<", "link" + " " + "rel" + "" + "=" + "", ['\'']);
    Assoc("<", "link" + " " + "rel" + "" + "=", "");
    Assoc("<", "link" + " " + "rel" + "", "=");
    Assoc("<", "link" + " " + "rel", "");
    Assoc("<", "link" + " ", "rel");
    Assoc("<", "link", " ");
    Assoc("<" + "link", " " + "rel" + "" + "=" + "" + ['\''] + "stylesheet", ['\'']);
    Assoc("<" + "link", " " + "rel" + "" + "=" + "" + ['\''], "stylesheet");
    Assoc("<" + "link", " " + "rel" + "" + "=" + "", ['\'']);
    Assoc("<" + "link", " " + "rel" + "" + "=", "");
    Assoc("<" + "link", " " + "rel" + "", "=");
    Assoc("<" + "link", " " + "rel", "");
    Assoc("<" + "link", " ", "rel");
    Assoc("<" + "link" + " " + "rel" + "" + "=" + "" + ['\''] + "stylesheet" + ['\''], " " + "id" + "" + "=" + "" + ['\''] + "test-css", ['\'']);
    Assoc("<" + "link" + " " + "rel" + "" + "=" + "" + ['\''] + "stylesheet" + ['\''], " " + "id" + "" + "=" + "" + ['\''], "test-css");
    Assoc("<" + "link" + " " + "rel" + "" + "=" + "" + ['\''] + "stylesheet" + ['\''], " " + "id" + "" + "=" + "", ['\'']);
    Assoc("<" + "link" + " " + "rel" + "" + "=" + "" + ['\''] + "stylesheet" + ['\''], " " + "id" + "" + "=", "");
    Assoc("<" + "link" + " " + "rel" + "" + "=" + "" + ['\''] + "stylesheet" + ['\''], " " + "id" + "", "=");
    Assoc("<" + "link" + " " + "rel" + "" + "=" + "" + ['\''] + "stylesheet" + ['\''], " " + "id", "");
    Assoc("<" + "link" + " " + "rel" + "" + "=" + "" + ['\''] + "stylesheet" + ['\''], " ", "id");
    Assoc("<" + "link" + " " + "rel" + "" + "=" + "" + ['\''] + "stylesheet" + ['\''] + " " + "id" + "" + "=" + "" + ['\''] + "test-css" + ['\''], "  " + "href" + "" + "=" + "", ['\'']);
    Assoc("<" + "link" + " " + "rel" + "" + "=" + "" + ['\''] + "stylesheet" + ['\''] + " " + "id" + "" + "=" + "" + ['\''] + "test-css" + ['\''], "  " + "href" + "" + "=", "");
    Assoc("<" + "link" + " " + "rel" + "" + "=" + "" + ['\''] + "stylesheet" + ['\''] + " " + "id" + "" + "=" + "" + ['\''] + "test-css" + ['\''], "  " + "href" + "", "=");
    Assoc("<" + "link" + " " + "rel" + "" + "=" + "" + ['\''] + "stylesheet" + ['\''] + " " + "id" + "" + "=" + "" + ['\''] + "test-css" + ['\''], "  " + "href", "");
    Assoc("<" + "link" + " " + "rel" + "" + "=" + "" + ['\''] + "stylesheet" + ['\''] + " " + "id" + "" + "=" + "" + ['\''] + "test-css" + ['\''], "  ", "href");
    Assoc("<" + "link" + " " + "rel" + "" + "=" + "" + ['\''] + "stylesheet" + ['\''] + " " + "id" + "" + "=" + "" + ['\''] + "test-css" + ['\''] + "  " + "href" + "" + "=" + "" + ['\''] + u + ['\''], " " + "type" + "" + "=" + "" + ['\''] + "text/css", ['\'']);
    Assoc("<" + "link" + " " + "rel" + "" + "=" + "" + ['\''] + "stylesheet" + ['\''] + " " + "id" + "" + "=" + "" + ['\''] + "test-css" + ['\''] + "  " + "href" + "" + "=" + "" + ['\''] + u + ['\''], " " + "type" + "" + "=" + "" + ['\''], "text/css");
    Assoc("<" + "link" + " " + "rel" + "" + "=" + "" + ['\''] + "stylesheet" + ['\''] + " " + "id" + "" + "=" + "" + ['\''] + "test-css" + ['\''] + "  " + "href" + "" + "=" + "" + ['\''] + u + ['\''], " " + "type" + "" + "=" + "", ['\'']);
    Assoc("<" + "link" + " " + "rel" + "" + "=" + "" + ['\''] + "stylesheet" + ['\''] + " " + "id" + "" + "=" + "" + ['\''] + "test-css" + ['\''] + "  " + "href" + "" + "=" + "" + ['\''] + u + ['\''], " " + "type" + "" + "=", "");
    Assoc("<" + "link" + " " + "rel" + "" + "=" + "" + ['\''] + "stylesheet" + ['\''] + " " + "id" + "" + "=" + "" + ['\''] + "test-css" + ['\''] + "  " + "href" + "" + "=" + "" + ['\''] + u + ['\''], " " + "type" + "", "=");
    Assoc("<" + "link" + " " + "rel" + "" + "=" + "" + ['\''] + "stylesheet" + ['\''] + " " + "id" + "" + "=" + "" + ['\''] + "test-css" + ['\''] + "  " + "href" + "" + "=" + "" + ['\''] + u + ['\''], " " + "type", "");
    Assoc("<" + "link" + " " + "rel" + "" + "=" + "" + ['\''] + "stylesheet" + ['\''] + " " + "id" + "" + "=" + "" + ['\''] + "test-css" + ['\''] + "  " + "href" + "" + "=" + "" + ['\''] + u + ['\''], " ", "type");
    Assoc("<" + "link" + " " + "rel" + "" + "=" + "" + ['\''] + "stylesheet" + ['\''] + " " + "id" + "" + "=" + "" + ['\''] + "test-css" + ['\''] + "  " + "href" + "" + "=" + "" + ['\''] + u + ['\''] + " " + "type" + "" + "=" + "" + ['\''] + "text/css" + ['\''], " " + "media" + "" + "=" + "" + ['\''] + "all", ['\'']);
    Assoc("<" + "link" + " " + "rel" + "" + "=" + "" + ['\''] + "stylesheet" + ['\''] + " " + "id" + "" + "=" + "" + ['\''] + "test-css" + ['\''] + "  " + "href" + "" + "=" + "" + ['\''] + u + ['\''] + " " + "type" + "" + "=" + "" + ['\''] + "text/css" + ['\''], " " + "media" + "" + "=" + "" + ['\''], "all");
    Assoc("<" + "link" + " " + "rel" + "" + "=" + "" + ['\''] + "stylesheet" + ['\''] + " " + "id" + "" + "=" + "" + ['\''] + "test-css" + ['\''] + "  " + "href" + "" + "=" + "" + ['\''] + u + ['\''] + " " + "type" + "" + "=" + "" + ['\''] + "text/css" + ['\''], " " + "media" + "" + "=" + "", ['\'']);
    Assoc("<" + "link" + " " + "rel" + "" + "=" + "" + ['\''] + "stylesheet" + ['\''] + " " + "id" + "" + "=" + "" + ['\''] + "test-css" + ['\''] + "  " + "href" + "" + "=" + "" + ['\''] + u + ['\''] + " " + "type" + "" + "=" + "" + ['\''] + "text/css" + ['\''], " " + "media" + "" + "=", "");
    Assoc("<" + "link" + " " + "rel" + "" + "=" + "" + ['\''] + "stylesheet" + ['\''] + " " + "id" + "" + "=" + "" + ['\''] + "test-css" + ['\''] + "  " + "href" + "" + "=" + "" + ['\''] + u + ['\''] + " " + "type" + "" + "=" + "" + ['\''] + "text/css" + ['\''], " " + "media" + "", "=");
    Assoc("<" + "link" + " " + "rel" + "" + "=" + "" + ['\''] + "stylesheet" + ['\''] + " " + "id" + "" + "=" + "" + ['\''] + "test-css" + ['\''] + "  " + "href" + "" + "=" + "" + ['\''] + u + ['\''] + " " + "type" + "" + "=" + "" + ['\''] + "text/css" + ['\''], " " + "media", "");
    Assoc("<" + "link" + " " + "rel" + "" + "=" + "" + ['\''] + "stylesheet" + ['\''] + " " + "id" + "" + "=" + "" + ['\''] + "test-css" + ['\''] + "  " + "href" + "" + "=" + "" + ['\''] + u + ['\''] + " " + "type" + "" + "=" + "" + ['\''] + "text/css" + ['\''], " ", "media");
  }

  lemma Element110Render(u: string)
    ensures RenderNode(Element("link", [Attribute(" ", "rel", Some(Assignment("", "", QuotedValue('\'', "stylesheet")))), Attribute(" ", "id", Some(Assignment("", "", QuotedValue('\'', "test-css")))), Attribute("  ", "href", Some(Assignment("", "", QuotedValue('\'', u)))), Attribute(" ", "type", Some(Assignment("", "", QuotedValue('\'', "text/css")))), Attribute(" ", "media", Some(Assignment("", "", QuotedValue('\'', "all"))))], true))
      == "<link" + " rel='stylesheet'" + " id='test-css'" + "  href='" + u + "'" + " type='text/css'" + " media='all'" + " />"
  {
    Attributes5(Attribute(" ", "rel", Some(Assignment("", "", QuotedValue('\'', "stylesheet")))), Attribute(" ", "id", Some(Assignment("", "", QuotedValue('\'', "test-css")))), Attribute("  ", "href", Some(Assignment("", "", QuotedValue('\'', u)))), Attribute(" ", "type", Some(Assignment("", "", QuotedValue('\'', "text/css")))), Attribute(" ", "media", Some(Assignment("", "", QuotedValue('\'', "all")))));
    assert RenderAttribute(Attribute(" ", "rel", Some(Assignment("", "", QuotedValue('\'', "stylesheet"))))) == " " + ("rel" + ("" + ("=" + ("" + (['\''] + "stylesheet" + ['\''])))));
    assert RenderAttribute(Attribute(" ", "id", Some(Assignment("", "", QuotedValue('\'', "test-css"))))) == " " + ("id" + ("" + ("=" + ("" + (['\''] + "test-css" + ['\''])))));
    assert RenderAttribute(Attribute("  ", "href", Some(Assignment("", "", QuotedValue('\'', u))))) == "  " + ("href" + ("" + ("=" + ("" + (['\''] + u + ['\''])))));
    assert RenderAttribute(Attribute(" ", "type", Some(Assignment("", "", QuotedValue('\'', "text/css"))))) == " " + ("type" + ("" + ("=" + ("" + (['\''] + "text/css" + ['\''])))));
    assert RenderAttribute(Attribute(" ", "media", Some(Assignment("", "", QuotedValue('\'', "all"))))) == " " + ("media" + ("" + ("=" + ("" + (['\''] + "all" + ['\''])))));
    assert RenderNode(Element("link", [Attribute(" ", "rel", Some(Assignment("", "", QuotedValue('\'', "stylesheet")))), Attribute(" ", "id", Some(Assignment("", "", QuotedValue('\'', "test-css")))), Attribute("  ", "href", Some(Assignment("", "", QuotedValue('\'', u)))), Attribute(" ", "type", Some(Assignment("", "", QuotedValue('\'', "text/css")))), Attribute(" ", "media", Some(Assignment("", "", QuotedValue('\'', "all"))))], true)) == "<" + ("link" + (((" " + ("rel" + ("" + ("=" + ("" + (['\''] + "stylesheet" + ['\''])))))) + ((" " + ("id" + ("" + ("=" + ("" + (['\''] + "test-css" + ['\''])))))) + (("  " + ("href" + ("" + ("=" + ("" + (['\''] + u + ['\''])))))) + ((" " + ("type" + ("" + ("=" + ("" + (['\''] + "text/css" + ['\''])))))) + (" " + ("media" + ("" + ("=" + ("" + (['\''] + "all" + ['\''])))))))))) + " />"));
    Element110Text(u);
  }

  lemma Element110Attribute1Value()
    ensures '\'' !in "stylesheet"
  {
  }

  lemma Element110Attribute1()
    ensures AttributeWellFormed(Attribute(" ", "rel", Some(Assignment("", "", QuotedValue('\'', "stylesheet")))))
  {
    AttributeRel();
    Element110Attribute1Value();
    QuotedAttributeWellFormed(" ", "rel", "", "", '\'', "stylesheet");
  }

  lemma Element110Attribute2Value()
    ensures '\'' !in "test-css"
  {
  }

  lemma Element110Attribute2()
    ensures AttributeWellFormed(Attribute(" ", "id", Some(Assignment("", "", QuotedValue('\'', "test-css")))))
  {
    AttributeId();
    Element110Attribute2Value();
    QuotedAttributeWellFormed(" ", "id", "", "", '\'', "test-css");
  }

  lemma Element110Attribute3Value()
    ensures '\'' !in "/test.css"
  {
  }

  lemma Element110Attribute3()
    ensures AttributeWellFormed(Attribute("  ", "href", Some(Assignment("", "", QuotedValue('\'', "/test.css")))))
  {
    AttributeHref();
    Element110Attribute3Value();
    QuotedAttributeWellFormed("  ", "href", "", "", '\'', "/test.css");
  }

  lemma Element110Attribute4Value()
    ensures '\'' !in "text/css"
  {
  }

  lemma Element110Attribute4()
    ensures AttributeWellFormed(Attribute(" ", "type", Some(Assignment("", "", QuotedValue('\'', "text/css")))))
  {
    AttributeType();
    Element110Attribute4Value();
    QuotedAttributeWellFormed(" ", "type", "", "", '\'', "text/css");
  }

  lemma Element110Attribute5Value()
    ensures '\'' !in "all"
  {
  }

  lemma Element110Attribute5()
    ensures AttributeWellFormed(Attribute(" ", "media", Some(Assignment("", "", QuotedValue('\'', "all")))))
  {
    AttributeMedia();
    Element110Attribute5Value();
    QuotedAttributeWellFormed(" ", "media", "", "", '\'', "all");
  }

  lemma Element110Node1()
    ensures NodeWellFormed(Element("link", [Attribute(" ", "rel", Some(Assignment("", "", QuotedValue('\'', "stylesheet")))), Attribute(" ", "id", Some(Assignment("", "", QuotedValue('\'', "test-css")))), Attribute("  ", "href", Some(Assignment("", "", QuotedValue('\'', "/test.css")))), Attribute(" ", "type", Some(Assignment("", "", QuotedValue('\'', "text/css")))), Attribute(" ", "media", Some(Assignment("", "", QuotedValue('\'', "all"))))], true))
  {
    TagLink();
    Element110Attribute1();
    Element110Attribute2();
    Element110Attribute3();
    Element110Attribute4();
    Element110Attribute5();
    Attributes5(Attribute(" ", "rel", Some(Assignment("", "", QuotedValue('\'', "stylesheet")))), Attribute(" ", "id", Some(Assignment("", "", QuotedValue('\'', "test-css")))), Attribute("  ", "href", Some(Assignment("", "", QuotedValue('\'', "/test.css")))), Attribute(" ", "type", Some(Assignment("", "", QuotedValue('\'', "text/css")))), Attribute(" ", "media", Some(Assignment("", "", QuotedValue('\'', "all")))));
  }

  lemma Element110WellFormed()
    ensures NodeWellFormed(Element("link", [Attribute(" ", "rel", Some(Assignment("", "", QuotedValue('\'', "stylesheet")))), Attribute(" ", "id", Some(Assignment("", "", QuotedValue('\'', "test-css")))), Attribute("  ", "href", Some(Assignment("", "", QuotedValue('\'', "/test.css")))), Attribute(" ", "type", Some(Assignment("", "", QuotedValue('\'', "text/css")))), Attribute(" ", "media", Some(Assignment("", "", QuotedValue('\'', "all"))))], true))
  {
    Element110Node1();
  }

  lemma Element110Refs()
    ensures NodeRefs(Element("link", [Attribute(" ", "rel", Some(Assignment("", "", QuotedValue('\'', "stylesheet")))), Attribute(" ", "id", Some(Assignment("", "", QuotedValue('\'', "test-css")))), Attribute("  ", "href", Some(Assignment("", "", QuotedValue('\'', "/test.css")))), Attribute(" ", "type", Some(Assignment("", "", QuotedValue('\'', "text/css")))), Attribute(" ", "media", Some(Assignment("", "", QuotedValue('\'', "all"))))], true)) == ["/test.css"]
  {
    Attributes5(Attribute(" ", "rel", Some(Assignment("", "", QuotedValue('\'', "stylesheet")))), Attribute(" ", "id", Some(Assignment("", "", QuotedValue('\'', "test-css")))), Attribute("  ", "href", Some(Assignment("", "", QuotedValue('\'', "/test.css")))), Attribute(" ", "type", Some(Assignment("", "", QuotedValue('\'', "text/css")))), Attribute(" ", "media", Some(Assignment("", "", QuotedValue('\'', "all")))));
    AttributeRel();
    OtherAttribute(Attribute(" ", "rel", Some(Assignment("", "", QuotedValue('\'', "stylesheet")))));
    AttributeId();
    OtherAttribute(Attribute(" ", "id", Some(Assignment("", "", QuotedValue('\'', "test-css")))));
    AttributeHref();
    UrlAttribute(Attribute("  ", "href", Some(Assignment("", "", QuotedValue('\'', "/test.css")))));
    AttributeType();
    OtherAttribute(Attribute(" ", "type", Some(Assignment("", "", QuotedValue('\'', "text/css")))));
    AttributeMedia();
    OtherAttribute(Attribute(" ", "media", Some(Assignment("", "", QuotedValue('\'', "all")))));
  }

  lemma Element110Scan()
    ensures RawReferences(Html, "<link" + " rel='stylesheet'" + " id='test-css'" + "  href='" + "/test.css" + "'" + " type='text/css'" + " media='all'" + " />") == ["/test.css"]
  {
    Element110Render("/test.css");
    Element110WellFormed();
    Element110Refs();
    Document1(Element("link", [Attribute(" ", "rel", Some(Assignment("", "", QuotedValue('\'', "stylesheet")))), Attribute(" ", "id", Some(Assignment("", "", QuotedValue('\'', "test-css")))), Attribute("  ", "href", Some(Assignment("", "", QuotedValue('\'', "/test.css")))), Attribute(" ", "type", Some(Assignment("", "", QuotedValue('\'', "text/css")))), Attribute(" ", "media", Some(Assignment("", "", QuotedValue('\'', "all"))))], true));
  }

  lemma Element110TargetSegment()
    ensures Segment("test.css")
  {
    SegmentIntro("test.css");
  }

  lemma Element110TargetJoin()
    ensures "/" + "test.css" == "/test.css"
  {
  }

  lemma Element110TargetTrim()
    ensures Trim("/test.css") == "/test.css"
  {
    TrimPlain("/test.css");
  }

  lemma Element110Target()
    ensures Target(Base, "/test.css") == At("/test.css")
  {
    Element110TargetSegment();
    Element110TargetJoin();
    Element110TargetTrim();
    RootTarget("/test.css", "test.css");
  }

  /** a self-closing link element with five attributes */
  lemma Element110()
    ensures Extract(Html, "<link" + " rel='stylesheet'" + " id='test-css'" + "  href='" + "/test.css" + "'" + " type='text/css'" + " media='all'" + " />", Page, Host) == [Domain + "/test.css"]
  {
    Element110Scan();
    Element110Target();
    ExtractOne(Html, "<link" + " rel='stylesheet'" + " id='test-css'" + "  href='" + "/test.css" + "'" + " type='text/css'" + " media='all'" + " />", "/test.css", "/test.css");
  }

  lemma Element112Run1()
    ensures "<" + "link" == "<link"
  {
  }

  lemma Element112Run2()
    ensures " " + "href" + "" + "=" + "" + ['\''] == " href='"
  {
  }

  lemma Element112Run3()
    ensures " " + "rel" + "" + "=" + "" + ['\''] + "stylesheet" + ['\''] == " rel='stylesheet'"
  {
  }

  lemma Element112Run4()
    ensures " " + "type" + "" + "=" + "" + ['\''] + "text/css" + ['\''] + ">" == " type='text/css'>"
  {
  }

  lemma Element112Text(u: string)
    ensures ("<" + ("link" + (((" " + ("href" + ("" + ("=" + ("" + (['\''] + u + ['\''])))))) + ((" " + ("rel" + ("" + ("=" + ("" + (['\''] + "stylesheet" + ['\''])))))) + (" " + ("type" + ("" + ("=" + ("" + (['\''] + "text/css" + ['\''])))))))) + ">")))
      == "<link" + " href='" + u + "'" + " rel='stylesheet'" + " type='text/css'>"
  {
    Element112Run1();
    Element112Run2();
    Element112Run3();
    Element112Run4();
    Assoc("", ['\''] + u, ['\'']);
    Assoc("", ['\''], u);
    Assoc("=", "" + ['\''] + u, ['\'']);
    Assoc("=", "" + ['\''], u);
    Assoc("=", "", ['\'']);
    Assoc("", "=" + "" + ['\''] + u, ['\'']);
    Assoc("", "=" + "" + ['\''], u);
    Assoc("", "=" + "", ['\'']);
    Assoc("", "=", "");
    Assoc("href", "" + "=" + "" + ['\''] + u, ['\'']);
    Assoc("href", "" + "=" + "" + ['\''], u);
    Assoc("href", "" + "=" + "", ['\'']);
    Assoc("href", "" + "=", "");
    Assoc("href", "", "=");
    Assoc(" ", "href" + "" + "=" + "" + ['\''] + u, ['\'']);
    Assoc(" ", "href" + "" + "=" + "" + ['\''], u);
    Assoc(" ", "href" + "" + "=" + "", ['\'']);
    Assoc(" ", "href" + "" + "=", "");
    Assoc(" ", "href" + "", "=");
    Assoc(" ", "href", "");
    Assoc("", ['\''] + "stylesheet", ['\'']);
    Assoc("", ['\''], "stylesheet");
    Assoc("=", "" + ['\''] + "stylesheet", ['\'']);
    Assoc("=", "" + ['\''], "stylesheet");
    Assoc("=", "", ['\'']);
    Assoc("", "=" + "" + ['\''] + "stylesheet", ['\'']);
    Assoc("", "=" + "" + ['\''], "stylesheet");
    Assoc("", "=" + "", ['\'']);
    Assoc("", "=", "");
    Assoc("rel", "" + "=" + "" + ['\''] + "stylesheet", ['\'']);
    Assoc("rel", "" + "=" + "" + ['\''], "stylesheet");
    Assoc("rel", "" + "=" + "", ['\'']);
    Assoc("rel", "" + "=", "");
    Assoc("rel", "", "=");
    Assoc(" ", "rel" + "" + "=" + "" + ['\''] + "stylesheet", ['\'']);
    Assoc(" ", "rel" + "" + "=" + "" + ['\''], "stylesheet");
    Assoc(" ", "rel" + "" + "=" + "", ['\'']);
    Assoc(" ", "rel" + "" + "=", "");
    Assoc(" ", "rel" + "", "=");
    Assoc(" ", "rel", "");
    Assoc("", ['\''] + "text/css", ['\'']);
    Assoc("", ['\''], "text/css");
    Assoc("=", "" + ['\''] + "text/css", ['\'']);
    Assoc("=", "" + ['\''], "text/css");
    Assoc("=", "", ['\'']);
    Assoc("", "=" + "" + ['\''] + "text/css", ['\'']);
    Assoc("", "=" + "" + ['\''], "text/css");
    Assoc("", "=" + "", ['\'']);
    Assoc("", "=", "");
    Assoc("type", "" + "=" + "" + ['\''] + "text/css", ['\'']);
    Assoc("type", "" + "=" + "" + ['\''], "text/css");
    Assoc("type", "" + "=" + "", ['\'']);
    Assoc("type", "" + "=", "");
    Assoc("type", "", "=");
    Assoc(" ", "type" + "" + "=" + "" + ['\''] + "text/css", ['\'']);
    Assoc(" ", "type" + "" + "=" + "" + ['\''], "text/css");
    Assoc(" ", "type" + "" + "=" + "", ['\'']);
    Assoc(" ", "type" + "" + "=", "");
    Assoc(" ", "type" + "", "=");
    Assoc(" ", "type", "");
    Assoc(" " + "rel" + "" + "=" + "" + ['\''] + "stylesheet" + ['\''], " " + "type" + "" + "=" + "" + ['\''] + "text/css", ['\'']);
    Assoc(" " + "rel" + "" + "=" + "" + ['\''] + "stylesheet" + ['\''], " " + "type" + "" + "=" + "" + ['\''], "text/css");
    Assoc(" " + "rel" + "" + "=" + "" + ['\''] + "stylesheet" + ['\''], " " + "type" + "" + "=" + "", ['\'']);
    Assoc(" " + "rel" + "" + "=" + "" + ['\''] + "stylesheet" + ['\''], " " + "type" + "" + "=", "");
    Assoc(" " + "rel" + "" + "=" + "" + ['\''] + "stylesheet" + ['\''], " " + "type" + "", "=");
    Assoc(" " + "rel" + "" + "=" + "" + ['\''] + "stylesheet" + ['\''], " " + "type", "");
    Assoc(" " + "rel" + "" + "=" + "" + ['\''] + "stylesheet" + ['\''], " ", "type");
    Assoc(" " + "href" + "" + "=" + "" + ['\''] + u + ['\''], " " + "rel" + "" + "=" + "" + ['\''] + "stylesheet" + ['\''] + " " + "type" + "" + "=" + "" + ['\''] + "text/css", ['\'']);
    Assoc(" " + "href" + "" + "=" + "" + ['\''] + u + ['\''], " " + "rel" + "" + "=" + "" + ['\''] + "stylesheet" + ['\''] + " " + "type" + "" + "=" + "" + ['\''], "text/css");
    Assoc(" " + "href" + "" + "=" + "" + ['\''] + u + ['\''], " " + "rel" + "" + "=" + "" + ['\''] + "stylesheet" + ['\''] + " " + "type" + "" + "=" + "", ['\'']);
    Assoc(" " + "href" + "" + "=" + "" + ['\''] + u + ['\''], " " + "rel" + "" + "=" + "" + ['\''] + "stylesheet" + ['\''] + " " + "type" + "" + "=", "");
    Assoc(" " + "href" + "" + "=" + "" + ['\''] + u + ['\''], " " + "rel" + "" + "=" + "" + ['\''] + "stylesheet" + ['\''] + " " + "type" + "", "=");
    Assoc(" " + "href" + "" + "=" + "" + ['\''] + u + ['\''], " " + "rel" + "" + "=" + "" + ['\''] + "stylesheet" + ['\''] + " " + "type", "");
    Assoc(" " + "href" + "" + "=" + "" + ['\''] + u + ['\''], " " + "rel" + "" + "=" + "" + ['\''] + "stylesheet" + ['\''] + " ", "type");
    Assoc(" " + "href" + "" + "=" + "" + ['\''] + u + ['\''], " " + "rel" + "" + "=" + "" + ['\''] + "stylesheet" + ['\''], " ");
    Assoc(" " + "href" + "" + "=" + "" + ['\''] + u + ['\''], " " + "rel" + "" + "=" + "" + ['\''] + "stylesheet", ['\'']);
    Assoc(" " + "href" + "" + "=" + "" + ['\''] + u + ['\''], " " + "rel" + "" + "=" + "" + ['\''], "stylesheet");
    Assoc(" " + "href" + "" + "=" + "" + ['\''] + u + ['\''], " " + "rel" + "" + "=" + "", ['\'']);
    Assoc(" " + "href" + "" + "=" + "" + ['\''] + u + ['\''], " " + "rel" + "" + "=", "");
    Assoc(" " + "href" + "" + "=" + "" + ['\''] + u + ['\''], " " + "rel" + "", "=");
    Assoc(" " + "href" + "" + "=" + "" + ['\''] + u + ['\''], " " + "rel", "");
    Assoc(" " + "href" + "" + "=" + "" + ['\''] + u + ['\''], " ", "rel");
    Assoc("link", " " + "href" + "" + "=" + "" + ['\''] + u + ['\''] + " " + "rel" + "" + "=" + "" + ['\''] + "stylesheet" + ['\''] + " " + "type" + "" + "=" + "" + ['\''] + "text/css" + ['\''], ">");
    Assoc("link", " " + "href" + "" + "=" + "" + ['\''] + u + ['\''] + " " + "rel" + "" + "=" + "" + ['\''] + "stylesheet" + ['\''] + " " + "type" + "" + "=" + "" + ['\''] + "text/css", ['\'']);
    Assoc("link", " " + "href" + "" + "=" + "" + ['\''] + u + ['\''] + " " + "rel" + "" + "=" + "" + ['\''] + "stylesheet" + ['\''] + " " + "type" + "" + "=" + "" + ['\''], "text/css");
    Assoc("link", " " + "href" + "" + "=" + "" + ['\''] + u + ['\''] + " " + "rel" + "" + "=" + "" + ['\''] + "stylesheet" + ['\''] + " " + "type" + "" + "=" + "", ['\'']);
    Assoc("link", " " + "href" + "" + "=" + "" + ['\''] + u + ['\''] + " " + "rel" + "" + "=" + "" + ['\''] + "stylesheet" + ['\''] + " " + "type" + "" + "=", "");
    Assoc("link", " " + "href" + "" + "=" + "" + ['\''] + u + ['\''] + " " + "rel" + "" + "=" + "" + ['\''] + "stylesheet" + ['\''] + " " + "type" + "", "=");
    Assoc("link", " " + "href" + "" + "=" + "" + ['\''] + u + ['\''] + " " + "rel" + "" + "=" + "" + ['\''] + "stylesheet" + ['\''] + " " + "type", "");
    Assoc("link", " " + "href" + "" + "=" + "" + ['\''] + u + ['\''] + " " + "rel" + "" + "=" + "" + ['\''] + "stylesheet" + ['\''] + " ", "type");
    Assoc("link", " " + "href" + "" + "=" + "" + ['\''] + u + ['\''] + " " + "rel" + "" + "=" + "" + ['\''] + "stylesheet" + ['\''], " ");
    Assoc("link", " " + "href" + "" + "=" + "" + ['\''] + u + ['\''] + " " + "rel" + "" + "=" + "" + ['\''] + "stylesheet", ['\'']);
    Assoc("link", " " + "href" + "" + "=" + "" + ['\''] + u + ['\''] + " " + "rel" + "" + "=" + "" + ['\''], "stylesheet");
    Assoc("link", " " + "href" + "" + "=" + "" + ['\''] + u + ['\''] + " " + "rel" + "" + "=" + "", ['\'']);
    Assoc("link", " " + "href" + "" + "=" + "" + ['\''] + u + ['\''] + " " + "rel" + "" + "=", "");
    Assoc("link", " " + "href" + "" + "=" + "" + ['\''] + u + ['\''] + " " + "rel" + "", "=");
    Assoc("link", " " + "href" + "" + "=" + "" + ['\''] + u + ['\''] + " " + "rel", "");
    Assoc("link", " " + "href" + "" + "=" + "" + ['\''] + u + ['\''] + " ", "rel");
    Assoc("link", " " + "href" + "" + "=" + "" + ['\''] + u + ['\''], " ");
    Assoc("link", " " + "href" + "" + "=" + "" + ['\''] + u, ['\'']);
    Assoc("link", " " + "href" + "" + "=" + "" + ['\''], u);
    Assoc("link", " " + "href" + "" + "=" + "", ['\'']);
    Assoc("link", " " + "href" + "" + "=", "");
    Assoc("link", " " + "href" + "", "=");
    Assoc("link", " " + "href", "");
    Assoc("link", " ", "href");
    Assoc("<", "link" + " " + "href" + "" + "=" + "" + ['\''] + u + ['\''] + " " + "rel" + "" + "=" + "" + ['\''] + "stylesheet" + ['\''] + " " + "type" + "" + "=" + "" + ['\''] + "text/css" + ['\''], ">");
    Assoc("<", "link" + " " + "href" + "" + "=" + "" + ['\''] + u + ['\''] + " " + "rel" + "" + "=" + "" + ['\''] + "stylesheet" + ['\''] + " " + "type" + "" + "=" + "" + ['\''] + "text/css", ['\'']);
    Assoc("<", "link" + " " + "href" + "" + "=" + "" + ['\''] + u + ['\''] + " " + "rel" + "" + "=" + "" + ['\''] + "stylesheet" + ['\''] + " " + "type" + "" + "=" + "" + ['\''], "text/css");
    Assoc("<", "link" + " " + "href" + "" + "=" + "" + ['\''] + u + ['\''] + " " + "rel" + "" + "=" + "" + ['\''] + "stylesheet" + ['\''] + " " + "type" + "" + "=" + "", ['\'']);
    Assoc("<", "link" + " " + "href" + "" + "=" + "" + ['\''] + u + ['\''] + " " + "rel" + "" + "=" + "" + ['\''] + "stylesheet" + ['\''] + " " + "type" + "" + "=", "");
    Assoc("<", "link" + " " + "href" + "" + "=" + "" + ['\''] + u + ['\''] + " " + "rel" + "" + "=" + "" + ['\''] + "stylesheet" + ['\''] + " " + "type" + "", "=");
    Assoc("<", "link" + " " + "href" + "" + "=" + "" + ['\''] + u + ['\''] + " " + "rel" + "" + "=" + "" + ['\''] + "stylesheet" + ['\''] + " " + "type", "");
    Assoc("<", "link" + " " + "href" + "" + "=" + "" + ['\''] + u + ['\''] + " " + "rel" + "" + "=" + "" + ['\''] + "stylesheet" + ['\''] + " ", "type");
    Assoc("<", "link" + " " + "href" + "" + "=" + "" + ['\''] + u + ['\''] + " " + "rel" + "" + "=" + "" + ['\''] + "stylesheet" + ['\''], " ");
    Assoc("<", "link" + " " + "href" + "" + "=" + "" + ['\''] + u + ['\''] + " " + "rel" + "" + "=" + "" + ['\''] + "stylesheet", ['\'']);
    Assoc("<", "link" + " " + "href" + "" + "=" + "" + ['\''] + u + ['\''] + " " + "rel" + "" + "=" + "" + ['\''], "stylesheet");
    Assoc("<", "link" + " " + "href" + "" + "=" + "" + ['\''] + u + ['\''] + " " + "rel" + "" + "=" + "", ['\'']);
    Assoc("<", "link" + " " + "href" + "" + "=" + "" + ['\''] + u + ['\''] + " " + "rel" + "" + "=", "");
    Assoc("<", "link" + " " + "href" + "" + "=" + "" + ['\''] + u + ['\''] + " " + "rel" + "", "=");
    Assoc("<", "link" + " " + "href" + "" + "=" + "" + ['\''] + u + ['\''] + " " + "rel", "");
    Assoc("<", "link" + " " + "href" + "" + "=" + "" + ['\''] + u + ['\''] + " ", "rel");
    Assoc("<", "link" + " " + "href" + "" + "=" + "" + ['\''] + u + ['\''], " ");
    Assoc("<", "link" + " " + "href" + "" + "=" + "" + ['\''] + u, ['\'']);
    Assoc("<", "link" + " " + "href" + "" + "=" + "" + ['\''], u);
    Assoc("<", "link" + " " + "href" + "" + "=" + "", ['\'']);
    Assoc("<", "link" + " " + "href" + "" + "=", "");
    Assoc("<", "link" + " " + "href" + "", "=");
    Assoc("<", "link" + " " + "href", "");
    Assoc("<", "link" + " ", "href");
    Assoc("<", "link", " ");
    Assoc("<" + "link", " " + "href" + "" + "=" + "", ['\'']);
    Assoc("<" + "link", " " + "href" + "" + "=", "");
    Assoc("<" + "link", " " + "href" + "", "=");
    Assoc("<" + "link", " " + "href", "");
    Assoc("<" + "link", " ", "href");
    Assoc("<" + "link" + " " + "href" + "" + "=" + "" + ['\''] + u + ['\''], " " + "rel" + "" + "=" + "" + ['\''] + "stylesheet", ['\'']);
    Assoc("<" + "link" + " " + "href" + "" + "=" + "" + ['\''] + u + ['\''], " " + "rel" + "" + "=" + "" + ['\''], "stylesheet");
    Assoc("<" + "link" + " " + "href" + "" + "=" + "" + ['\''] + u + ['\''], " " + "rel" + "" + "=" + "", ['\'']);
    Assoc("<" + "link" + " " + "href" + "" + "=" + "" + ['\''] + u + ['\''], " " + "rel" + "" + "=", "");
    Assoc("<" + "link" + " " + "href" + "" + "=" + "" + ['\''] + u + ['\''], " " + "rel" + "", "=");
    Assoc("<" + "link" + " " + "href" + "" + "=" + "" + ['\''] + u + ['\''], " " + "rel", "");
    Assoc("<" + "link" + " " + "href" + "" + "=" + "" + ['\''] + u + ['\''], " ", "rel");
    Assoc("<" + "link" + " " + "href" + "" + "=" + "" + ['\''] + u + ['\''] + " " + "rel" + "" + "=" + "" + ['\''] + "stylesheet" + ['\''], " " + "type" + "" + "=" + "" + ['\''] + "text/css" + ['\''], ">");
    Assoc("<" + "link" + " " + "href" + "" + "=" + "" + ['\''] + u + ['\''] + " " + "rel" + "" + "=" + "" + ['\''] + "stylesheet" + ['\''], " " + "type" + "" + "=" + "" + ['\''] + "text/css", ['\'']);
    Assoc("<" + "link" + " " + "href" + "" + "=" + "" + ['\''] + u + ['\''] + " " + "rel" + "" + "=" + "" + ['\''] + "stylesheet" + ['\''], " " + "type" + "" + "=" + "" + ['\''], "text/css");
    Assoc("<" + "link" + " " + "href" + "" + "=" + "" + ['\''] + u + ['\''] + " " + "rel" + "" + "=" + "" + ['\''] + "stylesheet" + ['\''], " " + "type" + "" + "=" + "", ['\'']);
    Assoc("<" + "link" + " " + "href" + "" + "=" + "" + ['\''] + u + ['\''] + " " + "rel" + "" + "=" + "" + ['\''] + "stylesheet" + ['\''], " " + "type" + "" + "=", "");
    Assoc("<" + "link" + " " + "href" + "" + "=" + "" + ['\''] + u + ['\''] + " " + "rel" + "" + "=" + "" + ['\''] + "stylesheet" + ['\''], " " + "type" + "", "=");
    Assoc("<" + "link" + " " + "href" + "" + "=" + "" + ['\''] + u + ['\''] + " " + "rel" + "" + "=" + "" + ['\''] + "stylesheet" + ['\''], " " + "type", "");
    Assoc("<" + "link" + " " + "href" + "" + "=" + "" + ['\''] + u + ['\''] + " " + "rel" + "" + "=" + "" + ['\''] + "stylesheet" + ['\''], " ", "type");
  }

  lemma Element112Render(u: string)
    ensures RenderNode(Element("link", [Attribute(" ", "href", Some(Assignment("", "", QuotedValue('\'', u)))), Attribute(" ", "rel", Some(Assignment("", "", QuotedValue('\'', "stylesheet")))), Attribute(" ", "type", Some(Assignment("", "", QuotedValue('\'', "text/css"))))], false))
      == "<link" + " href='" + u + "'" + " rel='stylesheet'" + " type='text/css'>"
  {
    Attributes3(Attribute(" ", "href", Some(Assignment("", "", QuotedValue('\'', u)))), Attribute(" ", "rel", Some(Assignment("", "", QuotedValue('\'', "stylesheet")))), Attribute(" ", "type", Some(Assignment("", "", QuotedValue('\'', "text/css")))));
    assert RenderAttribute(Attribute(" ", "href", Some(Assignment("", "", QuotedValue('\'', u))))) == " " + ("href" + ("" + ("=" + ("" + (['\''] + u + ['\''])))));
    assert RenderAttribute(Attribute(" ", "rel", Some(Assignment("", "", QuotedValue('\'', "stylesheet"))))) == " " + ("rel" + ("" + ("=" + ("" + (['\''] + "stylesheet" + ['\''])))));
    assert RenderAttribute(Attribute(" ", "type", Some(Assignment("", "", QuotedValue('\'', "text/css"))))) == " " + ("type" + ("" + ("=" + ("" + (['\''] + "text/css" + ['\''])))));
    assert RenderNode(Element("link", [Attribute(" ", "href", Some(Assignment("", "", QuotedValue('\'', u)))), Attribute(" ", "rel", Some(Assignment("", "", QuotedValue('\'', "stylesheet")))), Attribute(" ", "type", Some(Assignment("", "", QuotedValue('\'', "text/css"))))], false)) == "<" + ("link" + (((" " + ("href" + ("" + ("=" + ("" + (['\''] + u + ['\''])))))) + ((" " + ("rel" + ("" + ("=" + ("" + (['\''] + "stylesheet" + ['\''])))))) + (" " + ("type" + ("" + ("=" + ("" + (['\''] + "text/css" + ['\''])))))))) + ">"));
    Element112Text(u);
  }

  lemma Element112Attribute1Value()
    ensures '\'' !in ("//fonts.googleapis.com" + "/css" + "?" + "family=Judson:400,400italic,700")
  {
  }

  lemma Element112Attribute1()
    ensures AttributeWellFormed(Attribute(" ", "href", Some(Assignment("", "", QuotedValue('\'', ("//fonts.googleapis.com" + "/css" + "?" + "family=Judson:400,400italic,700"))))))
  {
    AttributeHref();
    Element112Attribute1Value();
    QuotedAttributeWellFormed(" ", "href", "", "", '\'', ("//fonts.googleapis.com" + "/css" + "?" + "family=Judson:400,400italic,700"));
  }

  lemma Element112Attribute2Value()
    ensures '\'' !in "stylesheet"
  {
  }

  lemma Element112Attribute2()
    ensures AttributeWellFormed(Attribute(" ", "rel", Some(Assignment("", "", QuotedValue('\'', "stylesheet")))))
  {
    AttributeRel();
    Element112Attribute2Value();
    QuotedAttributeWellFormed(" ", "rel", "", "", '\'', "stylesheet");
  }

  lemma Element112Attribute3Value()
    ensures '\'' !in "text/css"
  {
  }

  lemma Element112Attribute3()
    ensures AttributeWellFormed(Attribute(" ", "type", Some(Assignment("", "", QuotedValue('\'', "text/css")))))
  {
    AttributeType();
    Element112Attribute3Value();
    QuotedAttributeWellFormed(" ", "type", "", "", '\'', "text/css");
  }

  lemma Element112Node1()
    ensures NodeWellFormed(Element("link", [Attribute(" ", "href", Some(Assignment("", "", QuotedValue('\'', ("//fonts.googleapis.com" + "/css" + "?" + "family=Judson:400,400italic,700"))))), Attribute(" ", "rel", Some(Assignment("", "", QuotedValue('\'', "stylesheet")))), Attribute(" ", "type", Some(Assignment("", "", QuotedValue('\'', "text/css"))))], false))
  {
    TagLink();
    Element112Attribute1();
    Element112Attribute2();
    Element112Attribute3();
    Attributes3(Attribute(" ", "href", Some(Assignment("", "", QuotedValue('\'', ("//fonts.googleapis.com" + "/css" + "?" + "family=Judson:400,400italic,700"))))), Attribute(" ", "rel", Some(Assignment("", "", QuotedValue('\'', "stylesheet")))), Attribute(" ", "type", Some(Assignment("", "", QuotedValue('\'', "text/css")))));
  }

  lemma Element112WellFormed()
    ensures NodeWellFormed(Element("link", [Attribute(" ", "href", Some(Assignment("", "", QuotedValue('\'', ("//fonts.googleapis.com" + "/css" + "?" + "family=Judson:400,400italic,700"))))), Attribute(" ", "rel", Some(Assignment("", "", QuotedValue('\'', "stylesheet")))), Attribute(" ", "type", Some(Assignment("", "", QuotedValue('\'', "text/css"))))], false))
  {
    Element112Node1();
  }

  lemma Element112Refs()
    ensures NodeRefs(Element("link", [Attribute(" ", "href", Some(Assignment("", "", QuotedValue('\'', ("//fonts.googleapis.com" + "/css" + "?" + "family=Judson:400,400italic,700"))))), Attribute(" ", "rel", Some(Assignment("", "", QuotedValue('\'', "stylesheet")))), Attribute(" ", "type", Some(Assignment("", "", QuotedValue('\'', "text/css"))))], false)) == [("//fonts.googleapis.com" + "/css" + "?" + "family=Judson:400,400italic,700")]
  {
    Attributes3(Attribute(" ", "href", Some(Assignment("", "", QuotedValue('\'', ("//fonts.googleapis.com" + "/css" + "?" + "family=Judson:400,400italic,700"))))), Attribute(" ", "rel", Some(Assignment("", "", QuotedValue('\'', "stylesheet")))), Attribute(" ", "type", Some(Assignment("", "", QuotedValue('\'', "text/css")))));
    AttributeHref();
    UrlAttribute(Attribute(" ", "href", Some(Assignment("", "", QuotedValue('\'', ("//fonts.googleapis.com" + "/css" + "?" + "family=Judson:400,400italic,700"))))));
    AttributeRel();
    OtherAttribute(Attribute(" ", "rel", Some(Assignment("", "", QuotedValue('\'', "stylesheet")))));
    AttributeType();
    OtherAttribute(Attribute(" ", "type", Some(Assignment("", "", QuotedValue('\'', "text/css")))));
  }

  lemma Element112Scan()
    ensures RawReferences(Html, "<link" + " href='" + ("//fonts.googleapis.com" + "/css" + "?" + "family=Judson:400,400italic,700") + "'" + " rel='stylesheet'" + " type='text/css'>") == [("//fonts.googleapis.com" + "/css" + "?" + "family=Judson:400,400italic,700")]
  {
    Element112Render("//fonts.googleapis.com" + "/css" + "?" + "family=Judson:400,400italic,700");
    Element112WellFormed();
    Element112Refs();
    Document1(Element("link", [Attribute(" ", "href", Some(Assignment("", "", QuotedValue('\'', ("//fonts.googleapis.com" + "/css" + "?" + "family=Judson:400,400italic,700"))))), Attribute(" ", "rel", Some(Assignment("", "", QuotedValue('\'', "stylesheet")))), Attribute(" ", "type", Some(Assignment("", "", QuotedValue('\'', "text/css"))))], false));
  }

  lemma Element112TargetAuthorityChar1()
    ensures '/' !in "fonts.googleapis.com"
  {
  }

  lemma Element112TargetAuthorityChar2()
    ensures '?' !in "fonts.googleapis.com"
  {
  }

  lemma Element112TargetAuthorityChar3()
    ensures '#' !in "fonts.googleapis.com"
  {
  }

  lemma Element112TargetAuthority()
    ensures NoneIn("fonts.googleapis.com", AuthorityStop)
  {
    Element112TargetAuthorityChar1();
    Element112TargetAuthorityChar2();
    Element112TargetAuthorityChar3();
    NoneInIntro("fonts.googleapis.com", AuthorityStop);
  }

  lemma Element112TargetPathChar1()
    ensures '?' !in "/css"
  {
  }

  lemma Element112TargetPathChar2()
    ensures '#' !in "/css"
  {
  }

  lemma Element112TargetPath()
    ensures NoneIn("/css", PathStop)
  {
    Element112TargetPathChar1();
    Element112TargetPathChar2();
    NoneInIntro("/css", PathStop);
  }

  lemma Element112TargetQueryChar1()
    ensures '#' !in "family=Judson:400,400italic,700"
  {
  }

  lemma Element112TargetQuery()
    ensures NoneIn("family=Judson:400,400italic,700", QueryStop)
  {
    Element112TargetQueryChar1();
    NoneInIntro("family=Judson:400,400italic,700", QueryStop);
  }

  lemma Element112TargetReference()
    ensures Uri.WellFormed(Reference(None, Some("fonts.googleapis.com"), "/css", Some("family=Judson:400,400italic,700"), None))
  {
    Element112TargetAuthority();
    Element112TargetPath();
    Element112TargetQuery();
  }

  lemma Element112TargetUnfold()
    ensures Recompose(Reference(None, Some("fonts.googleapis.com"), "/css", Some("family=Judson:400,400italic,700"), None)) == "" + (("//" + "fonts.googleapis.com" + "") + ("/css" + (("?" + "family=Judson:400,400italic,700" + "") + "")))
  {
  }

  lemma Element112TargetTextPiece1()
    ensures "" + "//" + "fonts.googleapis.com" == "//fonts.googleapis.com"
  {
  }

  lemma Element112TargetTextPiece2()
    ensures "" + "/css" == "/css"
  {
  }

  lemma Element112TargetTextPiece4()
    ensures "family=Judson:400,400italic,700" + "" + "" == "family=Judson:400,400italic,700"
  {
  }

  lemma Element112TargetText()
    ensures "" + (("//" + "fonts.googleapis.com" + "") + ("/css" + (("?" + "family=Judson:400,400italic,700" + "") + ""))) == ("//fonts.googleapis.com" + "/css" + "?" + "family=Judson:400,400italic,700")
  {
    Element112TargetTextPiece1();
    Element112TargetTextPiece2();
    Element112TargetTextPiece4();
    Assoc("/css", "?" + "family=Judson:400,400italic,700" + "", "");
    Assoc("/css", "?" + "family=Judson:400,400italic,700", "");
    Assoc("/css", "?", "family=Judson:400,400italic,700");
    Assoc("//" + "fonts.googleapis.com" + "", "/css" + "?" + "family=Judson:400,400italic,700" + "", "");
    Assoc("//" + "fonts.googleapis.com" + "", "/css" + "?" + "family=Judson:400,400italic,700", "");
    Assoc("//" + "fonts.googleapis.com" + "", "/css" + "?", "family=Judson:400,400italic,700");
    Assoc("//" + "fonts.googleapis.com" + "", "/css", "?");
    Assoc("", "//" + "fonts.googleapis.com" + "" + "/css" + "?" + "family=Judson:400,400italic,700" + "", "");
    Assoc("", "//" + "fonts.googleapis.com" + "" + "/css" + "?" + "family=Judson:400,400italic,700", "");
    Assoc("", "//" + "fonts.googleapis.com" + "" + "/css" + "?", "family=Judson:400,400italic,700");
    Assoc("", "//" + "fonts.googleapis.com" + "" + "/css", "?");
    Assoc("", "//" + "fonts.googleapis.com" + "", "/css");
    Assoc("", "//" + "fonts.googleapis.com", "");
    Assoc("", "//", "fonts.googleapis.com");
    Assoc("" + "//" + "fonts.googleapis.com", "", "/css");
    Assoc("" + "//" + "fonts.googleapis.com" + "" + "/css" + "?", "family=Judson:400,400italic,700" + "", "");
    Assoc("" + "//" + "fonts.googleapis.com" + "" + "/css" + "?", "family=Judson:400,400italic,700", "");
  }

  lemma Element112TargetRecompose()
    ensures Recompose(Reference(None, Some("fonts.googleapis.com"), "/css", Some("family=Judson:400,400italic,700"), None)) == ("//fonts.googleapis.com" + "/css" + "?" + "family=Judson:400,400italic,700")
  {
    Element112TargetUnfold();
    Element112TargetText();
  }

  lemma Element112TargetTrim()
    ensures Trim(("//fonts.googleapis.com" + "/css" + "?" + "family=Judson:400,400italic,700")) == ("//fonts.googleapis.com" + "/css" + "?" + "family=Judson:400,400italic,700")
  {
    TrimPlain(("//fonts.googleapis.com" + "/css" + "?" + "family=Judson:400,400italic,700"));
  }

  lemma Element112Target()
    ensures !IsLocal(Target(Base, ("//fonts.googleapis.com" + "/css" + "?" + "family=Judson:400,400italic,700")), Host)
  {
    Element112TargetReference();
    Element112TargetRecompose();
    Element112TargetTrim();
    ForeignTarget(("//fonts.googleapis.com" + "/css" + "?" + "family=Judson:400,400italic,700"), Reference(None, Some("fonts.googleapis.com"), "/css", Some("family=Judson:400,400italic,700"), None));
  }

  /** a link to a network-path reference on another host */
  lemma Element112()
    ensures Extract(Html, "<link" + " href='" + ("//fonts.googleapis.com" + "/css" + "?" + "family=Judson:400,400italic,700") + "'" + " rel='stylesheet'" + " type='text/css'>", Page, Host) == []
  {
    Element112Scan();
    Element112Target();
    ExtractForeign(Html, "<link" + " href='" + ("//fonts.googleapis.com" + "/css" + "?" + "family=Judson:400,400italic,700") + "'" + " rel='stylesheet'" + " type='text/css'>", ("//fonts.googleapis.com" + "/css" + "?" + "family=Judson:400,400italic,700"));
  }

  lemma Element114Run1()
    ensures "<" + "applet" == "<applet"
  {
  }

  lemma Element114Run2()
    ensures " " + "codebase" + "" + "=" + "" + ['"'] == " codebase=\""
  {
  }

  lemma Element114Run3()
    ensures ['"'] + ">" + "<" + "/" + "applet" + ">" == "\"></applet>"
  {
  }

  lemma Element114Text(u: string)
    ensures ("<" + ("applet" + ((" " + ("codebase" + ("" + ("=" + ("" + (['"'] + u + ['"'])))))) + ">"))) + ("<" + ("/" + ("applet" + ">")))
      == "<applet" + " codebase=\"" + u + "\"></applet>"
  {
    Element114Run1();
    Element114Run2();
    Element114Run3();
    Assoc("", ['"'] + u, ['"']);
    Assoc("", ['"'], u);
    Assoc("=", "" + ['"'] + u, ['"']);
    Assoc("=", "" + ['"'], u);
    Assoc("=", "", ['"']);
    Assoc("", "=" + "" + ['"'] + u, ['"']);
    Assoc("", "=" + "" + ['"'], u);
    Assoc("", "=" + "", ['"']);
    Assoc("", "=", "");
    Assoc("codebase", "" + "=" + "" + ['"'] + u, ['"']);
    Assoc("codebase", "" + "=" + "" + ['"'], u);
    Assoc("codebase", "" + "=" + "", ['"']);
    Assoc("codebase", "" + "=", "");
    Assoc("codebase", "", "=");
    Assoc(" ", "codebase" + "" + "=" + "" + ['"'] + u, ['"']);
    Assoc(" ", "codebase" + "" + "=" + "" + ['"'], u);
    Assoc(" ", "codebase" + "" + "=" + "", ['"']);
    Assoc(" ", "codebase" + "" + "=", "");
    Assoc(" ", "codebase" + "", "=");
    Assoc(" ", "codebase", "");
    Assoc("applet", " " + "codebase" + "" + "=" + "" + ['"'] + u + ['"'], ">");
    Assoc("applet", " " + "codebase" + "" + "=" + "" + ['"'] + u, ['"']);
    Assoc("applet", " " + "codebase" + "" + "=" + "" + ['"'], u);
    Assoc("applet", " " + "codebase" + "" + "=" + "", ['"']);
    Assoc("applet", " " + "codebase" + "" + "=", "");
    Assoc("applet", " " + "codebase" + "", "=");
    Assoc("applet", " " + "codebase", "");
    Assoc("applet", " ", "codebase");
    Assoc("<", "applet" + " " + "codebase" + "" + "=" + "" + ['"'] + u + ['"'], ">");
    Assoc("<", "applet" + " " + "codebase" + "" + "=" + "" + ['"'] + u, ['"']);
    Assoc("<", "applet" + " " + "codebase" + "" + "=" + "" + ['"'], u);
    Assoc("<", "applet" + " " + "codebase" + "" + "=" + "", ['"']);
    Assoc("<", "applet" + " " + "codebase" + "" + "=", "");
    Assoc("<", "applet" + " " + "codebase" + "", "=");
    Assoc("<", "applet" + " " + "codebase", "");
    Assoc("<", "applet" + " ", "codebase");
    Assoc("<", "applet", " ");
    Assoc("/", "applet", ">");
    Assoc("<", "/" + "applet", ">");
    Assoc("<", "/", "applet");
    Assoc("<" + "applet" + " " + "codebase" + "" + "=" + "" + ['"'] + u + ['"'] + ">", "<" + "/" + "applet", ">");
    Assoc("<" + "applet" + " " + "codebase" + "" + "=" + "" + ['"'] + u + ['"'] + ">", "<" + "/", "applet");
    Assoc("<" + "applet" + " " + "codebase" + "" + "=" + "" + ['"'] + u + ['"'] + ">", "<", "/");
    Assoc("<" + "applet", " " + "codebase" + "" + "=" + "", ['"']);
    Assoc("<" + "applet", " " + "codebase" + "" + "=", "");
    Assoc("<" + "applet", " " + "codebase" + "", "=");
    Assoc("<" + "applet", " " + "codebase", "");
    Assoc("<" + "applet", " ", "codebase");
    Assoc("<" + "applet" + " " + "codebase" + "" + "=" + "" + ['"'] + u, ['"'] + ">" + "<" + "/" + "applet", ">");
    Assoc("<" + "applet" + " " + "codebase" + "" + "=" + "" + ['"'] + u, ['"'] + ">" + "<" + "/", "applet");
    Assoc("<" + "applet" + " " + "codebase" + "" + "=" + "" + ['"'] + u, ['"'] + ">" + "<", "/");
    Assoc("<" + "applet" + " " + "codebase" + "" + "=" + "" + ['"'] + u, ['"'] + ">", "<");
    Assoc("<" + "applet" + " " + "codebase" + "" + "=" + "" + ['"'] + u, ['"'], ">");
  }

  lemma Element114Render(u: string)
    ensures RenderNode(Element("applet", [Attribute(" ", "codebase", Some(Assignment("", "", QuotedValue('"', u))))], false)) + RenderNode(EndTag("applet"))
      == "<applet" + " codebase=\"" + u + "\"></applet>"
  {
    Attributes1(Attribute(" ", "codebase", Some(Assignment("", "", QuotedValue('"', u)))));
    assert RenderAttribute(Attribute(" ", "codebase", Some(Assignment("", "", QuotedValue('"', u))))) == " " + ("codebase" + ("" + ("=" + ("" + (['"'] + u + ['"'])))));
    assert RenderNode(Element("applet", [Attribute(" ", "codebase", Some(Assignment("", "", QuotedValue('"', u))))], false)) == "<" + ("applet" + ((" " + ("codebase" + ("" + ("=" + ("" + (['"'] + u + ['"'])))))) + ">"));
    assert RenderNode(EndTag("applet")) == "<" + ("/" + ("applet" + ">"));
    Element114Text(u);
  }

  lemma Element114Attribute1Value()
    ensures '"' !in "/classes"
  {
  }

  lemma Element114Attribute1()
    ensures AttributeWellFormed(Attribute(" ", "codebase", Some(Assignment("", "", QuotedValue('"', "/classes")))))
  {
    AttributeCodebase();
    Element114Attribute1Value();
    QuotedAttributeWellFormed(" ", "codebase", "", "", '"', "/classes");
  }

  lemma Element114Node1()
    ensures NodeWellFormed(Element("applet", [Attribute(" ", "codebase", Some(Assignment("", "", QuotedValue('"', "/classes"))))], false))
  {
    TagApplet();
    Element114Attribute1();
    Attributes1(Attribute(" ", "codebase", Some(Assignment("", "", QuotedValue('"', "/classes")))));
  }

  lemma Element114Node2()
    ensures NodeWellFormed(EndTag("applet"))
  {
  }

  lemma Element114WellFormed()
    ensures NodeWellFormed(Element("applet", [Attribute(" ", "codebase", Some(Assignment("", "", QuotedValue('"', "/classes"))))], false)) && NodeWellFormed(EndTag("applet"))
  {
    Element114Node1();
    Element114Node2();
  }

  lemma Element114Refs()
    ensures NodeRefs(Element("applet", [Attribute(" ", "codebase", Some(Assignment("", "", QuotedValue('"', "/classes"))))], false)) + NodeRefs(EndTag("applet")) == ["/classes"]
  {
    Attributes1(Attribute(" ", "codebase", Some(Assignment("", "", QuotedValue('"', "/classes")))));
    AttributeCodebase();
    UrlAttribute(Attribute(" ", "codebase", Some(Assignment("", "", QuotedValue('"', "/classes")))));
  }

  lemma Element114Scan()
    ensures RawReferences(Html, "<applet" + " codebase=\"" + "/classes" + "\"></applet>") == ["/classes"]
  {
    Element114Render("/classes");
    Element114WellFormed();
    Element114Refs();
    Document2(Element("applet", [Attribute(" ", "codebase", Some(Assignment("", "", QuotedValue('"', "/classes"))))], false), EndTag("applet"));
  }

  lemma Element114TargetSegment()
    ensures Segment("classes")
  {
    SegmentIntro("classes");
  }

  lemma Element114TargetJoin()
    ensures "/" + "classes" == "/classes"
  {
  }

  lemma Element114TargetTrim()
    ensures Trim("/classes") == "/classes"
  {
    TrimPlain("/classes");
  }

  lemma Element114Target()
    ensures Target(Base, "/classes") == At("/classes")
  {
    Element114TargetSegment();
    Element114TargetJoin();
    Element114TargetTrim();
    RootTarget("/classes", "classes");
  }

  /** <applet codebase="/classes"></applet> */
  lemma Element114()
    ensures Extract(Html, "<applet" + " codebase=\"" + "/classes" + "\"></applet>", Page, Host) == [Domain + "/classes"]
  {
    Element114Scan();
    Element114Target();
    ExtractOne(Html, "<applet" + " codebase=\"" + "/classes" + "\"></applet>", "/classes", "/classes");
  }

  lemma Element116Run1()
    ensures "<" + "area" == "<area"
  {
  }

  lemma Element116Run2()
    ensures " " + "shape" + "" + "=" + "" + ['"'] + "rect" + ['"'] == " shape=\"rect\""
  {
  }

  lemma Element116Run3()
    ensures " " + "coords" + "" + "=" + "" + ['"'] + "0,0,10,10" + ['"'] == " coords=\"0,0,10,10\""
  {
  }

  lemma Element116Run4()
    ensures " " + "href" + "" + "=" + "" + ['"'] == " href=\""
  {
  }

  lemma Element116Run5()
    ensures ['"'] + ">" == "\">"
  {
  }

  lemma Element116Text(u: string)
    ensures ("<" + ("area" + (((" " + ("shape" + ("" + ("=" + ("" + (['"'] + "rect" + ['"'])))))) + ((" " + ("coords" + ("" + ("=" + ("" + (['"'] + "0,0,10,10" + ['"'])))))) + (" " + ("href" + ("" + ("=" + ("" + (['"'] + u + ['"'])))))))) + ">")))
      == "<area" + " shape=\"rect\"" + " coords=\"0,0,10,10\"" + " href=\"" + u + "\">"
  {
    Element116Run1();
    Element116Run2();
    Element116Run3();
    Element116Run4();
    Element116Run5();
    Assoc("", ['"'] + "rect", ['"']);
    Assoc("", ['"'], "rect");
    Assoc("=", "" + ['"'] + "rect", ['"']);
    Assoc("=", "" + ['"'], "rect");
    Assoc("=", "", ['"']);
    Assoc("", "=" + "" + ['"'] + "rect", ['"']);
    Assoc("", "=" + "" + ['"'], "rect");
    Assoc("", "=" + "", ['"']);
    Assoc("", "=", "");
    Assoc("shape", "" + "=" + "" + ['"'] + "rect", ['"']);
    Assoc("shape", "" + "=" + "" + ['"'], "rect");
    Assoc("shape", "" + "=" + "", ['"']);
    Assoc("shape", "" + "=", "");
    Assoc("shape", "", "=");
    Assoc(" ", "shape" + "" + "=" + "" + ['"'] + "rect", ['"']);
    Assoc(" ", "shape" + "" + "=" + "" + ['"'], "rect");
    Assoc(" ", "shape" + "" + "=" + "", ['"']);
    Assoc(" ", "shape" + "" + "=", "");
    Assoc(" ", "shape" + "", "=");
    Assoc(" ", "shape", "");
    Assoc("", ['"'] + "0,0,10,10", ['"']);
    Assoc("", ['"'], "0,0,10,10");
    Assoc("=", "" + ['"'] + "0,0,10,10", ['"']);
    Assoc("=", "" + ['"'], "0,0,10,10");
    Assoc("=", "", ['"']);
    Assoc("", "=" + "" + ['"'] + "0,0,10,10", ['"']);
    Assoc("", "=" + "" + ['"'], "0,0,10,10");
    Assoc("", "=" + "", ['"']);
    Assoc("", "=", "");
    Assoc("coords", "" + "=" + "" + ['"'] + "0,0,10,10", ['"']);
    Assoc("coords", "" + "=" + "" + ['"'], "0,0,10,10");
    Assoc("coords", "" + "=" + "", ['"']);
    Assoc("coords", "" + "=", "");
    Assoc("coords", "", "=");
    Assoc(" ", "coords" + "" + "=" + "" + ['"'] + "0,0,10,10", ['"']);
    Assoc(" ", "coords" + "" + "=" + "" + ['"'], "0,0,10,10");
    Assoc(" ", "coords" + "" + "=" + "", ['"']);
    Assoc(" ", "coords" + "" + "=", "");
    Assoc(" ", "coords" + "", "=");
    Assoc(" ", "coords", "");
    Assoc("", ['"'] + u, ['"']);
    Assoc("", ['"'], u);
    Assoc("=", "" + ['"'] + u, ['"']);
    Assoc("=", "" + ['"'], u);
    Assoc("=", "", ['"']);
    Assoc("", "=" + "" + ['"'] + u, ['"']);
    Assoc("", "=" + "" + ['"'], u);
    Assoc("", "=" + "", ['"']);
    Assoc("", "=", "");
    Assoc("href", "" + "=" + "" + ['"'] + u, ['"']);
    Assoc("href", "" + "=" + "" + ['"'], u);
    Assoc("href", "" + "=" + "", ['"']);
    Assoc("href", "" + "=", "");
    Assoc("href", "", "=");
    Assoc(" ", "href" + "" + "=" + "" + ['"'] + u, ['"']);
    Assoc(" ", "href" + "" + "=" + "" + ['"'], u);
    Assoc(" ", "href" + "" + "=" + "", ['"']);
    Assoc(" ", "href" + "" + "=", "");
    Assoc(" ", "href" + "", "=");
    Assoc(" ", "href", "");
    Assoc(" " + "coords" + "" + "=" + "" + ['"'] + "0,0,10,10" + ['"'], " " + "href" + "" + "=" + "" + ['"'] + u, ['"']);
    Assoc(" " + "coords" + "" + "=" + "" + ['"'] + "0,0,10,10" + ['"'], " " + "href" + "" + "=" + "" + ['"'], u);
    Assoc(" " + "coords" + "" + "=" + "" + ['"'] + "0,0,10,10" + ['"'], " " + "href" + "" + "=" + "", ['"']);
    Assoc(" " + "coords" + "" + "=" + "" + ['"'] + "0,0,10,10" + ['"'], " " + "href" + "" + "=", "");
    Assoc(" " + "coords" + "" + "=" + "" + ['"'] + "0,0,10,10" + ['"'], " " + "href" + "", "=");
    Assoc(" " + "coords" + "" + "=" + "" + ['"'] + "0,0,10,10" + ['"'], " " + "href", "");
    Assoc(" " + "coords" + "" + "=" + "" + ['"'] + "0,0,10,10" + ['"'], " ", "href");
    Assoc(" " + "shape" + "" + "=" + "" + ['"'] + "rect" + ['"'], " " + "coords" + "" + "=" + "" + ['"'] + "0,0,10,10" + ['"'] + " " + "href" + "" + "=" + "" + ['"'] + u, ['"']);
    Assoc(" " + "shape" + "" + "=" + "" + ['"'] + "rect" + ['"'], " " + "coords" + "" + "=" + "" + ['"'] + "0,0,10,10" + ['"'] + " " + "href" + "" + "=" + "" + ['"'], u);
    Assoc(" " + "shape" + "" + "=" + "" + ['"'] + "rect" + ['"'], " " + "coords" + "" + "=" + "" + ['"'] + "0,0,10,10" + ['"'] + " " + "href" + "" + "=" + "", ['"']);
    Assoc(" " + "shape" + "" + "=" + "" + ['"'] + "rect" + ['"'], " " + "coords" + "" + "=" + "" + ['"'] + "0,0,10,10" + ['"'] + " " + "href" + "" + "=", "");
    Assoc(" " + "shape" + "" + "=" + "" + ['"'] + "rect" + ['"'], " " + "coords" + "" + "=" + "" + ['"'] + "0,0,10,10" + ['"'] + " " + "href" + "", "=");
    Assoc(" " + "shape" + "" + "=" + "" + ['"'] + "rect" + ['"'], " " + "coords" + "" + "=" + "" + ['"'] + "0,0,10,10" + ['"'] + " " + "href", "");
    Assoc(" " + "shape" + "" + "=" + "" + ['"'] + "rect" + ['"'], " " + "coords" + "" + "=" + "" + ['"'] + "0,0,10,10" + ['"'] + " ", "href");
    Assoc(" " + "shape" + "" + "=" + "" + ['"'] + "rect" + ['"'], " " + "coords" + "" + "=" + "" + ['"'] + "0,0,10,10" + ['"'], " ");
    Assoc(" " + "shape" + "" + "=" + "" + ['"'] + "rect" + ['"'], " " + "coords" + "" + "=" + "" + ['"'] + "0,0,10,10", ['"']);
    Assoc(" " + "shape" + "" + "=" + "" + ['"'] + "rect" + ['"'], " " + "coords" + "" + "=" + "" + ['"'], "0,0,10,10");
    Assoc(" " + "shape" + "" + "=" + "" + ['"'] + "rect" + ['"'], " " + "coords" + "" + "=" + "", ['"']);
    Assoc(" " + "shape" + "" + "=" + "" + ['"'] + "rect" + ['"'], " " + "coords" + "" + "=", "");
    Assoc(" " + "shape" + "" + "=" + "" + ['"'] + "rect" + ['"'], " " + "coords" + "", "=");
    Assoc(" " + "shape" + "" + "=" + "" + ['"'] + "rect" + ['"'], " " + "coords", "");
    Assoc(" " + "shape" + "" + "=" + "" + ['"'] + "rect" + ['"'], " ", "coords");
    Assoc("area", " " + "shape" + "" + "=" + "" + ['"'] + "rect" + ['"'] + " " + "coords" + "" + "=" + "" + ['"'] + "0,0,10,10" + ['"'] + " " + "href" + "" + "=" + "" + ['"'] + u + ['"'], ">");
    Assoc("area", " " + "shape" + "" + "=" + "" + ['"'] + "rect" + ['"'] + " " + "coords" + "" + "=" + "" + ['"'] + "0,0,10,10" + ['"'] + " " + "href" + "" + "=" + "" + ['"'] + u, ['"']);
    Assoc("area", " " + "shape" + "" + "=" + "" + ['"'] + "rect" + ['"'] + " " + "coords" + "" + "=" + "" + ['"'] + "0,0,10,10" + ['"'] + " " + "href" + "" + "=" + "" + ['"'], u);
    Assoc("area", " " + "shape" + "" + "=" + "" + ['"'] + "rect" + ['"'] + " " + "coords" + "" + "=" + "" + ['"'] + "0,0,10,10" + ['"'] + " " + "href" + "" + "=" + "", ['"']);
    Assoc("area", " " + "shape" + "" + "=" + "" + ['"'] + "rect" + ['"'] + " " + "coords" + "" + "=" + "" + ['"'] + "0,0,10,10" + ['"'] + " " + "href" + "" + "=", "");
    Assoc("area", " " + "shape" + "" + "=" + "" + ['"'] + "rect" + ['"'] + " " + "coords" + "" + "=" + "" + ['"'] + "0,0,10,10" + ['"'] + " " + "href" + "", "=");
    Assoc("area", " " + "shape" + "" + "=" + "" + ['"'] + "rect" + ['"'] + " " + "coords" + "" + "=" + "" + ['"'] + "0,0,10,10" + ['"'] + " " + "href", "");
    Assoc("area", " " + "shape" + "" + "=" + "" + ['"'] + "rect" + ['"'] + " " + "coords" + "" + "=" + "" + ['"'] + "0,0,10,10" + ['"'] + " ", "href");
    Assoc("area", " " + "shape" + "" + "=" + "" + ['"'] + "rect" + ['"'] + " " + "coords" + "" + "=" + "" + ['"'] + "0,0,10,10" + ['"'], " ");
    Assoc("area", " " + "shape" + "" + "=" + "" + ['"'] + "rect" + ['"'] + " " + "coords" + "" + "=" + "" + ['"'] + "0,0,10,10", ['"']);
    Assoc("area", " " + "shape" + "" + "=" + "" + ['"'] + "rect" + ['"'] + " " + "coords" + "" + "=" + "" + ['"'], "0,0,10,10");
    Assoc("area", " " + "shape" + "" + "=" + "" + ['"'] + "rect" + ['"'] + " " + "coords" + "" + "=" + "", ['"']);
    Assoc("area", " " + "shape" + "" + "=" + "" + ['"'] + "rect" + ['"'] + " " + "coords" + "" + "=", "");
    Assoc("area", " " + "shape" + "" + "=" + "" + ['"'] + "rect" + ['"'] + " " + "coords" + "", "=");
    Assoc("area", " " + "shape" + "" + "=" + "" + ['"'] + "rect" + ['"'] + " " + "coords", "");
    Assoc("area", " " + "shape" + "" + "=" + "" + ['"'] + "rect" + ['"'] + " ", "coords");
    Assoc("area", " " + "shape" + "" + "=" + "" + ['"'] + "rect" + ['"'], " ");
    Assoc("area", " " + "shape" + "" + "=" + "" + ['"'] + "rect", ['"']);
    Assoc("area", " " + "shape" + "" + "=" + "" + ['"'], "rect");
    Assoc("area", " " + "shape" + "" + "=" + "", ['"']);
    Assoc("area", " " + "shape" + "" + "=", "");
    Assoc("area", " " + "shape" + "", "=");
    Assoc("area", " " + "shape", "");
    Assoc("area", " ", "shape");
    Assoc("<", "area" + " " + "shape" + "" + "=" + "" + ['"'] + "rect" + ['"'] + " " + "coords" + "" + "=" + "" + ['"'] + "0,0,10,10" + ['"'] + " " + "href" + "" + "=" + "" + ['"'] + u + ['"'], ">");
    Assoc("<", "area" + " " + "shape" + "" + "=" + "" + ['"'] + "rect" + ['"'] + " " + "coords" + "" + "=" + "" + ['"'] + "0,0,10,10" + ['"'] + " " + "href" + "" + "=" + "" + ['"'] + u, ['"']);
    Assoc("<", "area" + " " + "shape" + "" + "=" + "" + ['"'] + "rect" + ['"'] + " " + "coords" + "" + "=" + "" + ['"'] + "0,0,10,10" + ['"'] + " " + "href" + "" + "=" + "" + ['"'], u);
    Assoc("<", "area" + " " + "shape" + "" + "=" + "" + ['"'] + "rect" + ['"'] + " " + "coords" + "" + "=" + "" + ['"'] + "0,0,10,10" + ['"'] + " " + "href" + "" + "=" + "", ['"']);
    Assoc("<", "area" + " " + "shape" + "" + "=" + "" + ['"'] + "rect" + ['"'] + " " + "coords" + "" + "=" + "" + ['"'] + "0,0,10,10" + ['"'] + " " + "href" + "" + "=", "");
    Assoc("<", "area" + " " + "shape" + "" + "=" + "" + ['"'] + "rect" + ['"'] + " " + "coords" + "" + "=" + "" + ['"'] + "0,0,10,10" + ['"'] + " " + "href" + "", "=");
    Assoc("<", "area" + " " + "shape" + "" + "=" + "" + ['"'] + "rect" + ['"'] + " " + "coords" + "" + "=" + "" + ['"'] + "0,0,10,10" + ['"'] + " " + "href", "");
    Assoc("<", "area" + " " + "shape" + "" + "=" + "" + ['"'] + "rect" + ['"'] + " " + "coords" + "" + "=" + "" + ['"'] + "0,0,10,10" + ['"'] + " ", "href");
    Assoc("<", "area" + " " + "shape" + "" + "=" + "" + ['"'] + "rect" + ['"'] + " " + "coords" + "" + "=" + "" + ['"'] + "0,0,10,10" + ['"'], " ");
    Assoc("<", "area" + " " + "shape" + "" + "=" + "" + ['"'] + "rect" + ['"'] + " " + "coords" + "" + "=" + "" + ['"'] + "0,0,10,10", ['"']);
    Assoc("<", "area" + " " + "shape" + "" + "=" + "" + ['"'] + "rect" + ['"'] + " " + "coords" + "" + "=" + "" + ['"'], "0,0,10,10");
    Assoc("<", "area" + " " + "shape" + "" + "=" + "" + ['"'] + "rect" + ['"'] + " " + "coords" + "" + "=" + "", ['"']);
    Assoc("<", "area" + " " + "shape" + "" + "=" + "" + ['"'] + "rect" + ['"'] + " " + "coords" + "" + "=", "");
    Assoc("<", "area" + " " + "shape" + "" + "=" + "" + ['"'] + "rect" + ['"'] + " " + "coords" + "", "=");
    Assoc("<", "area" + " " + "shape" + "" + "=" + "" + ['"'] + "rect" + ['"'] + " " + "coords", "");
    Assoc("<", "area" + " " + "shape" + "" + "=" + "" + ['"'] + "rect" + ['"'] + " ", "coords");
    Assoc("<", "area" + " " + "shape" + "" + "=" + "" + ['"'] + "rect" + ['"'], " ");
    Assoc("<", "area" + " " + "shape" + "" + "=" + "" + ['"'] + "rect", ['"']);
    Assoc("<", "area" + " " + "shape" + "" + "=" + "" + ['"'], "rect");
    Assoc("<", "area" + " " + "shape" + "" + "=" + "", ['"']);
    Assoc("<", "area" + " " + "shape" + "" + "=", "");
    Assoc("<", "area" + " " + "shape" + "", "=");
    Assoc("<", "area" + " " + "shape", "");
    Assoc("<", "area" + " ", "shape");
    Assoc("<", "area", " ");
    Assoc("<" + "area", " " + "shape" + "" + "=" + "" + ['"'] + "rect", ['"']);
    Assoc("<" + "area", " " + "shape" + "" + "=" + "" + ['"'], "rect");
    Assoc("<" + "area", " " + "shape" + "" + "=" + "", ['"']);
    Assoc("<" + "area", " " + "shape" + "" + "=", "");
    Assoc("<" + "area", " " + "shape" + "", "=");
    Assoc("<" + "area", " " + "shape", "");
    Assoc("<" + "area", " ", "shape");
    Assoc("<" + "area" + " " + "shape" + "" + "=" + "" + ['"'] + "rect" + ['"'], " " + "coords" + "" + "=" + "" + ['"'] + "0,0,10,10", ['"']);
    Assoc("<" + "area" + " " + "shape" + "" + "=" + "" + ['"'] + "rect" + ['"'], " " + "coords" + "" + "=" + "" + ['"'], "0,0,10,10");
    Assoc("<" + "area" + " " + "shape" + "" + "=" + "" + ['"'] + "rect" + ['"'], " " + "coords" + "" + "=" + "", ['"']);
    Assoc("<" + "area" + " " + "shape" + "" + "=" + "" + ['"'] + "rect" + ['"'], " " + "coords" + "" + "=", "");
    Assoc("<" + "area" + " " + "shape" + "" + "=" + "" + ['"'] + "rect" + ['"'], " " + "coords" + "", "=");
    Assoc("<" + "area" + " " + "shape" + "" + "=" + "" + ['"'] + "rect" + ['"'], " " + "coords", "");
    Assoc("<" + "area" + " " + "shape" + "" + "=" + "" + ['"'] + "rect" + ['"'], " ", "coords");
    Assoc("<" + "area" + " " + "shape" + "" + "=" + "" + ['"'] + "rect" + ['"'] + " " + "coords" + "" + "=" + "" + ['"'] + "0,0,10,10" + ['"'], " " + "href" + "" + "=" + "", ['"']);
    Assoc("<" + "area" + " " + "shape" + "" + "=" + "" + ['"'] + "rect" + ['"'] + " " + "coords" + "" + "=" + "" + ['"'] + "0,0,10,10" + ['"'], " " + "href" + "" + "=", "");
    Assoc("<" + "area" + " " + "shape" + "" + "=" + "" + ['"'] + "rect" + ['"'] + " " + "coords" + "" + "=" + "" + ['"'] + "0,0,10,10" + ['"'], " " + "href" + "", "=");
    Assoc("<" + "area" + " " + "shape" + "" + "=" + "" + ['"'] + "rect" + ['"'] + " " + "coords" + "" + "=" + "" + ['"'] + "0,0,10,10" + ['"'], " " + "href", "");
    Assoc("<" + "area" + " " + "shape" + "" + "=" + "" + ['"'] + "rect" + ['"'] + " " + "coords" + "" + "=" + "" + ['"'] + "0,0,10,10" + ['"'], " ", "href");
    Assoc("<" + "area" + " " + "shape" + "" + "=" + "" + ['"'] + "rect" + ['"'] + " " + "coords" + "" + "=" + "" + ['"'] + "0,0,10,10" + ['"'] + " " + "href" + "" + "=" + "" + ['"'] + u, ['"'], ">");
  }

  lemma Element116Render(u: string)
    ensures RenderNode(Element("area", [Attribute(" ", "shape", Some(Assignment("", "", QuotedValue('"', "rect")))), Attribute(" ", "coords", Some(Assignment("", "", QuotedValue('"', "0,0,10,10")))), Attribute(" ", "href", Some(Assignment("", "", QuotedValue('"', u))))], false))
      == "<area" + " shape=\"rect\"" + " coords=\"0,0,10,10\"" + " href=\"" + u + "\">"
  {
    Attributes3(Attribute(" ", "shape", Some(Assignment("", "", QuotedValue('"', "rect")))), Attribute(" ", "coords", Some(Assignment("", "", QuotedValue('"', "0,0,10,10")))), Attribute(" ", "href", Some(Assignment("", "", QuotedValue('"', u)))));
    assert RenderAttribute(Attribute(" ", "shape", Some(Assignment("", "", QuotedValue('"', "rect"))))) == " " + ("shape" + ("" + ("=" + ("" + (['"'] + "rect" + ['"'])))));
    assert RenderAttribute(Attribute(" ", "coords", Some(Assignment("", "", QuotedValue('"', "0,0,10,10"))))) == " " + ("coords" + ("" + ("=" + ("" + (['"'] + "0,0,10,10" + ['"'])))));
    assert RenderAttribute(Attribute(" ", "href", Some(Assignment("", "", QuotedValue('"', u))))) == " " + ("href" + ("" + ("=" + ("" + (['"'] + u + ['"'])))));
    assert RenderNode(Element("area", [Attribute(" ", "shape", Some(Assignment("", "", QuotedValue('"', "rect")))), Attribute(" ", "coords", Some(Assignment("", "", QuotedValue('"', "0,0,10,10")))), Attribute(" ", "href", Some(Assignment("", "", QuotedValue('"', u))))], false)) == "<" + ("area" + (((" " + ("shape" + ("" + ("=" + ("" + (['"'] + "rect" + ['"'])))))) + ((" " + ("coords" + ("" + ("=" + ("" + (['"'] + "0,0,10,10" + ['"'])))))) + (" " + ("href" + ("" + ("=" + ("" + (['"'] + u + ['"'])))))))) + ">"));
    Element116Text(u);
  }

  lemma Element116Attribute1Value()
    ensures '"' !in "rect"
  {
  }

  lemma Element116Attribute1()
    ensures AttributeWellFormed(Attribute(" ", "shape", Some(Assignment("", "", QuotedValue('"', "rect")))))
  {
    AttributeShape();
    Element116Attribute1Value();
    QuotedAttributeWellFormed(" ", "shape", "", "", '"', "rect");
  }

  lemma Element116Attribute2Value()
    ensures '"' !in "0,0,10,10"
  {
  }

  lemma Element116Attribute2()
    ensures AttributeWellFormed(Attribute(" ", "coords", Some(Assignment("", "", QuotedValue('"', "0,0,10,10")))))
  {
    AttributeCoords();
    Element116Attribute2Value();
    QuotedAttributeWellFormed(" ", "coords", "", "", '"', "0,0,10,10");
  }

  lemma Element116Attribute3Value()
    ensures '"' !in "sun.htm"
  {
  }

  lemma Element116Attribute3()
    ensures AttributeWellFormed(Attribute(" ", "href", Some(Assignment("", "", QuotedValue('"', "sun.htm")))))
  {
    AttributeHref();
    Element116Attribute3Value();
    QuotedAttributeWellFormed(" ", "href", "", "", '"', "sun.htm");
  }

  lemma Element116Node1()
    ensures NodeWellFormed(Element("area", [Attribute(" ", "shape", Some(Assignment("", "", QuotedValue('"', "rect")))), Attribute(" ", "coords", Some(Assignment("", "", QuotedValue('"', "0,0,10,10")))), Attribute(" ", "href", Some(Assignment("", "", QuotedValue('"', "sun.htm"))))], false))
  {
    TagArea();
    Element116Attribute1();
    Element116Attribute2();
    Element116Attribute3();
    Attributes3(Attribute(" ", "shape", Some(Assignment("", "", QuotedValue('"', "rect")))), Attribute(" ", "coords", Some(Assignment("", "", QuotedValue('"', "0,0,10,10")))), Attribute(" ", "href", Some(Assignment("", "", QuotedValue('"', "sun.htm")))));
  }

  lemma Element116WellFormed()
    ensures NodeWellFormed(Element("area", [Attribute(" ", "shape", Some(Assignment("", "", QuotedValue('"', "rect")))), Attribute(" ", "coords", Some(Assignment("", "", QuotedValue('"', "0,0,10,10")))), Attribute(" ", "href", Some(Assignment("", "", QuotedValue('"', "sun.htm"))))], false))
  {
    Element116Node1();
  }

  lemma Element116Refs()
    ensures NodeRefs(Element("area", [Attribute(" ", "shape", Some(Assignment("", "", QuotedValue('"', "rect")))), Attribute(" ", "coords", Some(Assignment("", "", QuotedValue('"', "0,0,10,10")))), Attribute(" ", "href", Some(Assignment("", "", QuotedValue('"', "sun.htm"))))], false)) == ["sun.htm"]
  {
    Attributes3(Attribute(" ", "shape", Some(Assignment("", "", QuotedValue('"', "rect")))), Attribute(" ", "coords", Some(Assignment("", "", QuotedValue('"', "0,0,10,10")))), Attribute(" ", "href", Some(Assignment("", "", QuotedValue('"', "sun.htm")))));
    AttributeShape();
    OtherAttribute(Attribute(" ", "shape", Some(Assignment("", "", QuotedValue('"', "rect")))));
    AttributeCoords();
    OtherAttribute(Attribute(" ", "coords", Some(Assignment("", "", QuotedValue('"', "0,0,10,10")))));
    AttributeHref();
    UrlAttribute(Attribute(" ", "href", Some(Assignment("", "", QuotedValue('"', "sun.htm")))));
  }

  lemma Element116Scan()
    ensures RawReferences(Html, "<area" + " shape=\"rect\"" + " coords=\"0,0,10,10\"" + " href=\"" + "sun.htm" + "\">") == ["sun.htm"]
  {
    Element116Render("sun.htm");
    Element116WellFormed();
    Element116Refs();
    Document1(Element("area", [Attribute(" ", "shape", Some(Assignment("", "", QuotedValue('"', "rect")))), Attribute(" ", "coords", Some(Assignment("", "", QuotedValue('"', "0,0,10,10")))), Attribute(" ", "href", Some(Assignment("", "", QuotedValue('"', "sun.htm"))))], false));
  }

  lemma Element116TargetSegment()
    ensures Segment("sun.htm")
  {
    SegmentIntro("sun.htm");
  }

  lemma Element116TargetTrim()
    ensures Trim("sun.htm") == "sun.htm"
  {
    TrimPlain("sun.htm");
  }

  lemma Element116TargetJoin()
    ensures "/blog/" + "sun.htm" == "/blog/sun.htm"
  {
  }

  lemma Element116Target()
    ensures Target(Base, "sun.htm") == At("/blog/sun.htm")
  {
    Element116TargetSegment();
    Element116TargetTrim();
    Element116TargetJoin();
    RelativeTarget("sun.htm", "sun.htm");
  }

  /** <area shape="rect" coords="0,0,10,10" href="sun.htm"> */
  lemma Element116()
    ensures Extract(Html, "<area" + " shape=\"rect\"" + " coords=\"0,0,10,10\"" + " href=\"" + "sun.htm" + "\">", Page, Host) == [Domain + "/blog/sun.htm"]
  {
    Element116Scan();
    Element116Target();
    ExtractOne(Html, "<area" + " shape=\"rect\"" + " coords=\"0,0,10,10\"" + " href=\"" + "sun.htm" + "\">", "sun.htm", "/blog/sun.htm");
  }

  lemma Element118Run1()
    ensures "<" + "ins" == "<ins"
  {
  }

  lemma Element118Run2()
    ensures " " + "cite" + "" + "=" + "" + ['"'] == " cite=\""
  {
  }

  lemma Element118Run3()
    ensures ['"'] + ">" + "Cited text." + "<" + "/" + "ins" + ">" == "\">Cited text.</ins>"
  {
  }

  lemma Element118Text(u: string)
    ensures ("<" + ("ins" + ((" " + ("cite" + ("" + ("=" + ("" + (['"'] + u + ['"'])))))) + ">"))) + ("Cited text." + ("<" + ("/" + ("ins" + ">"))))
      == "<ins" + " cite=\"" + u + "\">Cited text.</ins>"
  {
    Element118Run1();
    Element118Run2();
    Element118Run3();
    Assoc("", ['"'] + u, ['"']);
    Assoc("", ['"'], u);
    Assoc("=", "" + ['"'] + u, ['"']);
    Assoc("=", "" + ['"'], u);
    Assoc("=", "", ['"']);
    Assoc("", "=" + "" + ['"'] + u, ['"']);
    Assoc("", "=" + "" + ['"'], u);
    Assoc("", "=" + "", ['"']);
    Assoc("", "=", "");
    Assoc("cite", "" + "=" + "" + ['"'] + u, ['"']);
    Assoc("cite", "" + "=" + "" + ['"'], u);
    Assoc("cite", "" + "=" + "", ['"']);
    Assoc("cite", "" + "=", "");
    Assoc("cite", "", "=");
    Assoc(" ", "cite" + "" + "=" + "" + ['"'] + u, ['"']);
    Assoc(" ", "cite" + "" + "=" + "" + ['"'], u);
    Assoc(" ", "cite" + "" + "=" + "", ['"']);
    Assoc(" ", "cite" + "" + "=", "");
    Assoc(" ", "cite" + "", "=");
    Assoc(" ", "cite", "");
    Assoc("ins", " " + "cite" + "" + "=" + "" + ['"'] + u + ['"'], ">");
    Assoc("ins", " " + "cite" + "" + "=" + "" + ['"'] + u, ['"']);
    Assoc("ins", " " + "cite" + "" + "=" + "" + ['"'], u);
    Assoc("ins", " " + "cite" + "" + "=" + "", ['"']);
    Assoc("ins", " " + "cite" + "" + "=", "");
    Assoc("ins", " " + "cite" + "", "=");
    Assoc("ins", " " + "cite", "");
    Assoc("ins", " ", "cite");
    Assoc("<", "ins" + " " + "cite" + "" + "=" + "" + ['"'] + u + ['"'], ">");
    Assoc("<", "ins" + " " + "cite" + "" + "=" + "" + ['"'] + u, ['"']);
    Assoc("<", "ins" + " " + "cite" + "" + "=" + "" + ['"'], u);
    Assoc("<", "ins" + " " + "cite" + "" + "=" + "", ['"']);
    Assoc("<", "ins" + " " + "cite" + "" + "=", "");
    Assoc("<", "ins" + " " + "cite" + "", "=");
    Assoc("<", "ins" + " " + "cite", "");
    Assoc("<", "ins" + " ", "cite");
    Assoc("<", "ins", " ");
    Assoc("/", "ins", ">");
    Assoc("<", "/" + "ins", ">");
    Assoc("<", "/", "ins");
    Assoc("Cited text.", "<" + "/" + "ins", ">");
    Assoc("Cited text.", "<" + "/", "ins");
    Assoc("Cited text.", "<", "/");
    Assoc("<" + "ins" + " " + "cite" + "" + "=" + "" + ['"'] + u + ['"'] + ">", "Cited text." + "<" + "/" + "ins", ">");
    Assoc("<" + "ins" + " " + "cite" + "" + "=" + "" + ['"'] + u + ['"'] + ">", "Cited text." + "<" + "/", "ins");
    Assoc("<" + "ins" + " " + "cite" + "" + "=" + "" + ['"'] + u + ['"'] + ">", "Cited text." + "<", "/");
    Assoc("<" + "ins" + " " + "cite" + "" + "=" + "" + ['"'] + u + ['"'] + ">", "Cited text.", "<");
    Assoc("<" + "ins", " " + "cite" + "" + "=" + "", ['"']);
    Assoc("<" + "ins", " " + "cite" + "" + "=", "");
    Assoc("<" + "ins", " " + "cite" + "", "=");
    Assoc("<" + "ins", " " + "cite", "");
    Assoc("<" + "ins", " ", "cite");
    Assoc("<" + "ins" + " " + "cite" + "" + "=" + "" + ['"'] + u, ['"'] + ">" + "Cited text." + "<" + "/" + "ins", ">");
    Assoc("<" + "ins" + " " + "cite" + "" + "=" + "" + ['"'] + u, ['"'] + ">" + "Cited text." + "<" + "/", "ins");
    Assoc("<" + "ins" + " " + "cite" + "" + "=" + "" + ['"'] + u, ['"'] + ">" + "Cited text." + "<", "/");
    Assoc("<" + "ins" + " " + "cite" + "" + "=" + "" + ['"'] + u, ['"'] + ">" + "Cited text.", "<");
    Assoc("<" + "ins" + " " + "cite" + "" + "=" + "" + ['"'] + u, ['"'] + ">", "Cited text.");
    Assoc("<" + "ins" + " " + "cite" + "" + "=" + "" + ['"'] + u, ['"'], ">");
  }

  lemma Element118Render(u: string)
    ensures RenderNode(Element("ins", [Attribute(" ", "cite", Some(Assignment("", "", QuotedValue('"', u))))], false)) + (RenderNode(Text("Cited text.")) + RenderNode(EndTag("ins")))
      == "<ins" + " cite=\"" + u + "\">Cited text.</ins>"
  {
    Attributes1(Attribute(" ", "cite", Some(Assignment("", "", QuotedValue('"', u)))));
    assert RenderAttribute(Attribute(" ", "cite", Some(Assignment("", "", QuotedValue('"', u))))) == " " + ("cite" + ("" + ("=" + ("" + (['"'] + u + ['"'])))));
    assert RenderNode(Element("ins", [Attribute(" ", "cite", Some(Assignment("", "", QuotedValue('"', u))))], false)) == "<" + ("ins" + ((" " + ("cite" + ("" + ("=" + ("" + (['"'] + u + ['"'])))))) + ">"));
    assert RenderNode(EndTag("ins")) == "<" + ("/" + ("ins" + ">"));
    Element118Text(u);
  }

  lemma Element118Attribute1Value()
    ensures '"' !in "why.htm"
  {
  }

  lemma Element118Attribute1()
    ensures AttributeWellFormed(Attribute(" ", "cite", Some(Assignment("", "", QuotedValue('"', "why.htm")))))
  {
    AttributeCite();
    Element118Attribute1Value();
    QuotedAttributeWellFormed(" ", "cite", "", "", '"', "why.htm");
  }

  lemma Element118Node1()
    ensures NodeWellFormed(Element("ins", [Attribute(" ", "cite", Some(Assignment("", "", QuotedValue('"', "why.htm"))))], false))
  {
    TagIns();
    Element118Attribute1();
    Attributes1(Attribute(" ", "cite", Some(Assignment("", "", QuotedValue('"', "why.htm")))));
  }

  lemma Element118Node2()
    ensures NodeWellFormed(Text("Cited text."))
  {
  }

  lemma Element118Node3()
    ensures NodeWellFormed(EndTag("ins"))
  {
  }

  lemma Element118WellFormed()
    ensures NodeWellFormed(Element("ins", [Attribute(" ", "cite", Some(Assignment("", "", QuotedValue('"', "why.htm"))))], false)) && NodeWellFormed(Text("Cited text.")) && NodeWellFormed(EndTag("ins"))
  {
    Element118Node1();
    Element118Node2();
    Element118Node3();
  }

  lemma Element118Refs()
    ensures NodeRefs(Element("ins", [Attribute(" ", "cite", Some(Assignment("", "", QuotedValue('"', "why.htm"))))], false)) + (NodeRefs(Text("Cited text.")) + NodeRefs(EndTag("ins"))) == ["why.htm"]
  {
    Attributes1(Attribute(" ", "cite", Some(Assignment("", "", QuotedValue('"', "why.htm")))));
    AttributeCite();
    UrlAttribute(Attribute(" ", "cite", Some(Assignment("", "", QuotedValue('"', "why.htm")))));
  }

  lemma Element118Scan()
    ensures RawReferences(Html, "<ins" + " cite=\"" + "why.htm" + "\">Cited text.</ins>") == ["why.htm"]
  {
    Element118Render("why.htm");
    Element118WellFormed();
    Element118Refs();
    Document3(Element("ins", [Attribute(" ", "cite", Some(Assignment("", "", QuotedValue('"', "why.htm"))))], false), Text("Cited text."), EndTag("ins"));
  }

  lemma Element118TargetSegment()
    ensures Segment("why.htm")
  {
    SegmentIntro("why.htm");
  }

  lemma Element118TargetTrim()
    ensures Trim("why.htm") == "why.htm"
  {
    TrimPlain("why.htm");
  }

  lemma Element118TargetJoin()
    ensures "/blog/" + "why.htm" == "/blog/why.htm"
  {
  }

  lemma Element118Target()
    ensures Target(Base, "why.htm") == At("/blog/why.htm")
  {
    Element118TargetSegment();
    Element118TargetTrim();
    Element118TargetJoin();
    RelativeTarget("why.htm", "why.htm");
  }

  /** <ins cite="why.htm">Cited text.</ins> */
  lemma Element118()
    ensures Extract(Html, "<ins" + " cite=\"" + "why.htm" + "\">Cited text.</ins>", Page, Host) == [Domain + "/blog/why.htm"]
  {
    Element118Scan();
    Element118Target();
    ExtractOne(Html, "<ins" + " cite=\"" + "why.htm" + "\">Cited text.</ins>", "why.htm", "/blog/why.htm");
  }

  lemma Element120Text()
    ensures ("<!--" + (" <ins cite=\"why.htm\">Cited text.</ins> " + "-->"))
      == "<!--" + " <ins cite=\"why.htm\">Cited text.</ins> " + "-->"
  {
    Assoc("<!--", " <ins cite=\"why.htm\">Cited text.</ins> ", "-->");
  }

  lemma Element120Render()
    ensures RenderNode(Comment(" <ins cite=\"why.htm\">Cited text.</ins> "))
      == "<!--" + " <ins cite=\"why.htm\">Cited text.</ins> " + "-->"
  {
    assert RenderNode(Comment(" <ins cite=\"why.htm\">Cited text.</ins> ")) == "<!--" + (" <ins cite=\"why.htm\">Cited text.</ins> " + "-->");
    Element120Text();
  }

  lemma Element120CommentDash()
    ensures '-' !in " <ins cite=\"why.htm\">Cited text.</ins> "
  {
  }

  lemma Element120Node1()
    ensures NodeWellFormed(Comment(" <ins cite=\"why.htm\">Cited text.</ins> "))
  {
    Element120CommentDash();
    NoCommentCloseIntro(" <ins cite=\"why.htm\">Cited text.</ins> ");
  }

  lemma Element120WellFormed()
    ensures NodeWellFormed(Comment(" <ins cite=\"why.htm\">Cited text.</ins> "))
  {
    Element120Node1();
  }

  lemma Element120Refs()
    ensures NodeRefs(Comment(" <ins cite=\"why.htm\">Cited text.</ins> ")) == []
  {
  }

  lemma Element120Scan()
    ensures RawReferences(Html, "<!--" + " <ins cite=\"why.htm\">Cited text.</ins> " + "-->") == []
  {
    Element120Render();
    Element120WellFormed();
    Element120Refs();
    Document1(Comment(" <ins cite=\"why.htm\">Cited text.</ins> "));
  }

  /** an element inside a comment is not scanned */
  lemma Element120()
    ensures Extract(Html, "<!--" + " <ins cite=\"why.htm\">Cited text.</ins> " + "-->", Page, Host) == []
  {
    Element120Scan();
    ExtractNothing(Html, "<!--" + " <ins cite=\"why.htm\">Cited text.</ins> " + "-->");
  }

  lemma Attributes141Run1()
    ensures "<" + "iframe" == "<iframe"
  {
  }

  lemma Attributes141Run2()
    ensures " " + "src" + "" + "=" + "" + ['"'] == " src=\""
  {
  }

  lemma Attributes141Run3()
    ensures " " + "longdesc" + "" + "=" + "" + ['"'] == " longdesc=\""
  {
  }

  lemma Attributes141Run4()
    ensures ['"'] + ">" + "<" + "/" + "iframe" + ">" == "\"></iframe>"
  {
  }

  lemma Attributes141Text(u1: string, u2: string)
    ensures ("<" + ("iframe" + (((" " + ("src" + ("" + ("=" + ("" + (['"'] + u1 + ['"'])))))) + (" " + ("longdesc" + ("" + ("=" + ("" + (['"'] + u2 + ['"']))))))) + ">"))) + ("<" + ("/" + ("iframe" + ">")))
      == "<iframe" + " src=\"" + u1 + "\"" + " longdesc=\"" + u2 + "\"></iframe>"
  {
    Attributes141Run1();
    Attributes141Run2();
    Attributes141Run3();
    Attributes141Run4();
    Assoc("", ['"'] + u1, ['"']);
    Assoc("", ['"'], u1);
    Assoc("=", "" + ['"'] + u1, ['"']);
    Assoc("=", "" + ['"'], u1);
    Assoc("=", "", ['"']);
    Assoc("", "=" + "" + ['"'] + u1, ['"']);
    Assoc("", "=" + "" + ['"'], u1);
    Assoc("", "=" + "", ['"']);
    Assoc("", "=", "");
    Assoc("src", "" + "=" + "" + ['"'] + u1, ['"']);
    Assoc("src", "" + "=" + "" + ['"'], u1);
    Assoc("src", "" + "=" + "", ['"']);
    Assoc("src", "" + "=", "");
    Assoc("src", "", "=");
    Assoc(" ", "src" + "" + "=" + "" + ['"'] + u1, ['"']);
    Assoc(" ", "src" + "" + "=" + "" + ['"'], u1);
    Assoc(" ", "src" + "" + "=" + "", ['"']);
    Assoc(" ", "src" + "" + "=", "");
    Assoc(" ", "src" + "", "=");
    Assoc(" ", "src", "");
    Assoc("", ['"'] + u2, ['"']);
    Assoc("", ['"'], u2);
    Assoc("=", "" + ['"'] + u2, ['"']);
    Assoc("=", "" + ['"'], u2);
    Assoc("=", "", ['"']);
    Assoc("", "=" + "" + ['"'] + u2, ['"']);
    Assoc("", "=" + "" + ['"'], u2);
    Assoc("", "=" + "", ['"']);
    Assoc("", "=", "");
    Assoc("longdesc", "" + "=" + "" + ['"'] + u2, ['"']);
    Assoc("longdesc", "" + "=" + "" + ['"'], u2);
    Assoc("longdesc", "" + "=" + "", ['"']);
    Assoc("longdesc", "" + "=", "");
    Assoc("longdesc", "", "=");
    Assoc(" ", "longdesc" + "" + "=" + "" + ['"'] + u2, ['"']);
    Assoc(" ", "longdesc" + "" + "=" + "" + ['"'], u2);
    Assoc(" ", "longdesc" + "" + "=" + "", ['"']);
    Assoc(" ", "longdesc" + "" + "=", "");
    Assoc(" ", "longdesc" + "", "=");
    Assoc(" ", "longdesc", "");
    Assoc(" " + "src" + "" + "=" + "" + ['"'] + u1 + ['"'], " " + "longdesc" + "" + "=" + "" + ['"'] + u2, ['"']);
    Assoc(" " + "src" + "" + "=" + "" + ['"'] + u1 + ['"'], " " + "longdesc" + "" + "=" + "" + ['"'], u2);
    Assoc(" " + "src" + "" + "=" + "" + ['"'] + u1 + ['"'], " " + "longdesc" + "" + "=" + "", ['"']);
    Assoc(" " + "src" + "" + "=" + "" + ['"'] + u1 + ['"'], " " + "longdesc" + "" + "=", "");
    Assoc(" " + "src" + "" + "=" + "" + ['"'] + u1 + ['"'], " " + "longdesc" + "", "=");
    Assoc(" " + "src" + "" + "=" + "" + ['"'] + u1 + ['"'], " " + "longdesc", "");
    Assoc(" " + "src" + "" + "=" + "" + ['"'] + u1 + ['"'], " ", "longdesc");
    Assoc("iframe", " " + "src" + "" + "=" + "" + ['"'] + u1 + ['"'] + " " + "longdesc" + "" + "=" + "" + ['"'] + u2 + ['"'], ">");
    Assoc("iframe", " " + "src" + "" + "=" + "" + ['"'] + u1 + ['"'] + " " + "longdesc" + "" + "=" + "" + ['"'] + u2, ['"']);
    Assoc("iframe", " " + "src" + "" + "=" + "" + ['"'] + u1 + ['"'] + " " + "longdesc" + "" + "=" + "" + ['"'], u2);
    Assoc("iframe", " " + "src" + "" + "=" + "" + ['"'] + u1 + ['"'] + " " + "longdesc" + "" + "=" + "", ['"']);
    Assoc("iframe", " " + "src" + "" + "=" + "" + ['"'] + u1 + ['"'] + " " + "longdesc" + "" + "=", "");
    Assoc("iframe", " " + "src" + "" + "=" + "" + ['"'] + u1 + ['"'] + " " + "longdesc" + "", "=");
    Assoc("iframe", " " + "src" + "" + "=" + "" + ['"'] + u1 + ['"'] + " " + "longdesc", "");
    Assoc("iframe", " " + "src" + "" + "=" + "" + ['"'] + u1 + ['"'] + " ", "longdesc");
    Assoc("iframe", " " + "src" + "" + "=" + "" + ['"'] + u1 + ['"'], " ");
    Assoc("iframe", " " + "src" + "" + "=" + "" + ['"'] + u1, ['"']);
    Assoc("iframe", " " + "src" + "" + "=" + "" + ['"'], u1);
    Assoc("iframe", " " + "src" + "" + "=" + "", ['"']);
    Assoc("iframe", " " + "src" + "" + "=", "");
    Assoc("iframe", " " + "src" + "", "=");
    Assoc("iframe", " " + "src", "");
    Assoc("iframe", " ", "src");
    Assoc("<", "iframe" + " " + "src" + "" + "=" + "" + ['"'] + u1 + ['"'] + " " + "longdesc" + "" + "=" + "" + ['"'] + u2 + ['"'], ">");
    Assoc("<", "iframe" + " " + "src" + "" + "=" + "" + ['"'] + u1 + ['"'] + " " + "longdesc" + "" + "=" + "" + ['"'] + u2, ['"']);
    Assoc("<", "iframe" + " " + "src" + "" + "=" + "" + ['"'] + u1 + ['"'] + " " + "longdesc" + "" + "=" + "" + ['"'], u2);
    Assoc("<", "iframe" + " " + "src" + "" + "=" + "" + ['"'] + u1 + ['"'] + " " + "longdesc" + "" + "=" + "", ['"']);
    Assoc("<", "iframe" + " " + "src" + "" + "=" + "" + ['"'] + u1 + ['"'] + " " + "longdesc" + "" + "=", "");
    Assoc("<", "iframe" + " " + "src" + "" + "=" + "" + ['"'] + u1 + ['"'] + " " + "longdesc" + "", "=");
    Assoc("<", "iframe" + " " + "src" + "" + "=" + "" + ['"'] + u1 + ['"'] + " " + "longdesc", "");
    Assoc("<", "iframe" + " " + "src" + "" + "=" + "" + ['"'] + u1 + ['"'] + " ", "longdesc");
    Assoc("<", "iframe" + " " + "src" + "" + "=" + "" + ['"'] + u1 + ['"'], " ");
    Assoc("<", "iframe" + " " + "src" + "" + "=" + "" + ['"'] + u1, ['"']);
    Assoc("<", "iframe" + " " + "src" + "" + "=" + "" + ['"'], u1);
    Assoc("<", "iframe" + " " + "src" + "" + "=" + "", ['"']);
    Assoc("<", "iframe" + " " + "src" + "" + "=", "");
    Assoc("<", "iframe" + " " + "src" + "", "=");
    Assoc("<", "iframe" + " " + "src", "");
    Assoc("<", "iframe" + " ", "src");
    Assoc("<", "iframe", " ");
    Assoc("/", "iframe", ">");
    Assoc("<", "/" + "iframe", ">");
    Assoc("<", "/", "iframe");
    Assoc("<" + "iframe" + " " + "src" + "" + "=" + "" + ['"'] + u1 + ['"'] + " " + "longdesc" + "" + "=" + "" + ['"'] + u2 + ['"'] + ">", "<" + "/" + "iframe", ">");
    Assoc("<" + "iframe" + " " + "src" + "" + "=" + "" + ['"'] + u1 + ['"'] + " " + "longdesc" + "" + "=" + "" + ['"'] + u2 + ['"'] + ">", "<" + "/", "iframe");
    Assoc("<" + "iframe" + " " + "src" + "" + "=" + "" + ['"'] + u1 + ['"'] + " " + "longdesc" + "" + "=" + "" + ['"'] + u2 + ['"'] + ">", "<", "/");
    Assoc("<" + "iframe", " " + "src" + "" + "=" + "", ['"']);
    Assoc("<" + "iframe", " " + "src" + "" + "=", "");
    Assoc("<" + "iframe", " " + "src" + "", "=");
    Assoc("<" + "iframe", " " + "src", "");
    Assoc("<" + "iframe", " ", "src");
    Assoc("<" + "iframe" + " " + "src" + "" + "=" + "" + ['"'] + u1 + ['"'], " " + "longdesc" + "" + "=" + "", ['"']);
    Assoc("<" + "iframe" + " " + "src" + "" + "=" + "" + ['"'] + u1 + ['"'], " " + "longdesc" + "" + "=", "");
    Assoc("<" + "iframe" + " " + "src" + "" + "=" + "" + ['"'] + u1 + ['"'], " " + "longdesc" + "", "=");
    Assoc("<" + "iframe" + " " + "src" + "" + "=" + "" + ['"'] + u1 + ['"'], " " + "longdesc", "");
    Assoc("<" + "iframe" + " " + "src" + "" + "=" + "" + ['"'] + u1 + ['"'], " ", "longdesc");
    Assoc("<" + "iframe" + " " + "src" + "" + "=" + "" + ['"'] + u1 + ['"'] + " " + "longdesc" + "" + "=" + "" + ['"'] + u2, ['"'] + ">" + "<" + "/" + "iframe", ">");
    Assoc("<" + "iframe" + " " + "src" + "" + "=" + "" + ['"'] + u1 + ['"'] + " " + "longdesc" + "" + "=" + "" + ['"'] + u2, ['"'] + ">" + "<" + "/", "iframe");
    Assoc("<" + "iframe" + " " + "src" + "" + "=" + "" + ['"'] + u1 + ['"'] + " " + "longdesc" + "" + "=" + "" + ['"'] + u2, ['"'] + ">" + "<", "/");
    Assoc("<" + "iframe" + " " + "src" + "" + "=" + "" + ['"'] + u1 + ['"'] + " " + "longdesc" + "" + "=" + "" + ['"'] + u2, ['"'] + ">", "<");
    Assoc("<" + "iframe" + " " + "src" + "" + "=" + "" + ['"'] + u1 + ['"'] + " " + "longdesc" + "" + "=" + "" + ['"'] + u2, ['"'], ">");
  }

  lemma Attributes141Render(u1: string, u2: string)
    ensures RenderNode(Element("iframe", [Attribute(" ", "src", Some(Assignment("", "", QuotedValue('"', u1)))), Attribute(" ", "longdesc", Some(Assignment("", "", QuotedValue('"', u2))))], false)) + RenderNode(EndTag("iframe"))
      == "<iframe" + " src=\"" + u1 + "\"" + " longdesc=\"" + u2 + "\"></iframe>"
  {
    Attributes2(Attribute(" ", "src", Some(Assignment("", "", QuotedValue('"', u1)))), Attribute(" ", "longdesc", Some(Assignment("", "", QuotedValue('"', u2)))));
    assert RenderAttribute(Attribute(" ", "src", Some(Assignment("", "", QuotedValue('"', u1))))) == " " + ("src" + ("" + ("=" + ("" + (['"'] + u1 + ['"'])))));
    assert RenderAttribute(Attribute(" ", "longdesc", Some(Assignment("", "", QuotedValue('"', u2))))) == " " + ("longdesc" + ("" + ("=" + ("" + (['"'] + u2 + ['"'])))));
    assert RenderNode(Element("iframe", [Attribute(" ", "src", Some(Assignment("", "", QuotedValue('"', u1)))), Attribute(" ", "longdesc", Some(Assignment("", "", QuotedValue('"', u2))))], false)) == "<" + ("iframe" + (((" " + ("src" + ("" + ("=" + ("" + (['"'] + u1 + ['"'])))))) + (" " + ("longdesc" + ("" + ("=" + ("" + (['"'] + u2 + ['"']))))))) + ">"));
    assert RenderNode(EndTag("iframe")) == "<" + ("/" + ("iframe" + ">"));
    Attributes141Text(u1, u2);
  }

  lemma Attributes141Attribute1Value()
    ensures '"' !in "/default.asp"
  {
  }

  lemma Attributes141Attribute1()
    ensures AttributeWellFormed(Attribute(" ", "src", Some(Assignment("", "", QuotedValue('"', "/default.asp")))))
  {
    AttributeSrc();
    Attributes141Attribute1Value();
    QuotedAttributeWellFormed(" ", "src", "", "", '"', "/default.asp");
  }

  lemma Attributes141Attribute2Value()
    ensures '"' !in "w3s.txt"
  {
  }

  lemma Attributes141Attribute2()
    ensures AttributeWellFormed(Attribute(" ", "longdesc", Some(Assignment("", "", QuotedValue('"', "w3s.txt")))))
  {
    AttributeLongdesc();
    Attributes141Attribute2Value();
    QuotedAttributeWellFormed(" ", "longdesc", "", "", '"', "w3s.txt");
  }

  lemma Attributes141Node1()
    ensures NodeWellFormed(Element("iframe", [Attribute(" ", "src", Some(Assignment("", "", QuotedValue('"', "/default.asp")))), Attribute(" ", "longdesc", Some(Assignment("", "", QuotedValue('"', "w3s.txt"))))], false))
  {
    TagIframe();
    Attributes141Attribute1();
    Attributes141Attribute2();
    Attributes2(Attribute(" ", "src", Some(Assignment("", "", QuotedValue('"', "/default.asp")))), Attribute(" ", "longdesc", Some(Assignment("", "", QuotedValue('"', "w3s.txt")))));
  }

  lemma Attributes141Node2()
    ensures NodeWellFormed(EndTag("iframe"))
  {
  }

  lemma Attributes141WellFormed()
    ensures NodeWellFormed(Element("iframe", [Attribute(" ", "src", Some(Assignment("", "", QuotedValue('"', "/default.asp")))), Attribute(" ", "longdesc", Some(Assignment("", "", QuotedValue('"', "w3s.txt"))))], false)) && NodeWellFormed(EndTag("iframe"))
  {
    Attributes141Node1();
    Attributes141Node2();
  }

  lemma Attributes141Refs()
    ensures NodeRefs(Element("iframe", [Attribute(" ", "src", Some(Assignment("", "", QuotedValue('"', "/default.asp")))), Attribute(" ", "longdesc", Some(Assignment("", "", QuotedValue('"', "w3s.txt"))))], false)) + NodeRefs(EndTag("iframe")) == ["/default.asp", "w3s.txt"]
  {
    Attributes2(Attribute(" ", "src", Some(Assignment("", "", QuotedValue('"', "/default.asp")))), Attribute(" ", "longdesc", Some(Assignment("", "", QuotedValue('"', "w3s.txt")))));
    AttributeSrc();
    UrlAttribute(Attribute(" ", "src", Some(Assignment("", "", QuotedValue('"', "/default.asp")))));
    AttributeLongdesc();
    UrlAttribute(Attribute(" ", "longdesc", Some(Assignment("", "", QuotedValue('"', "w3s.txt")))));
  }

  lemma Attributes141Scan()
    ensures RawReferences(Html, "<iframe" + " src=\"" + "/default.asp" + "\"" + " longdesc=\"" + "w3s.txt" + "\"></iframe>") == ["/default.asp", "w3s.txt"]
  {
    Attributes141Render("/default.asp", "w3s.txt");
    Attributes141WellFormed();
    Attributes141Refs();
    Document2(Element("iframe", [Attribute(" ", "src", Some(Assignment("", "", QuotedValue('"', "/default.asp")))), Attribute(" ", "longdesc", Some(Assignment("", "", QuotedValue('"', "w3s.txt"))))], false), EndTag("iframe"));
  }

  lemma Attributes141Target1Segment()
    ensures Segment("default.asp")
  {
    SegmentIntro("default.asp");
  }

  lemma Attributes141Target1Join()
    ensures "/" + "default.asp" == "/default.asp"
  {
  }

  lemma Attributes141Target1Trim()
    ensures Trim("/default.asp") == "/default.asp"
  {
    TrimPlain("/default.asp");
  }

  lemma Attributes141Target1()
    ensures Target(Base, "/default.asp") == At("/default.asp")
  {
    Attributes141Target1Segment();
    Attributes141Target1Join();
    Attributes141Target1Trim();
    RootTarget("/default.asp", "default.asp");
  }

  lemma Attributes141Target2Segment()
    ensures Segment("w3s.txt")
  {
    SegmentIntro("w3s.txt");
  }

  lemma Attributes141Target2Trim()
    ensures Trim("w3s.txt") == "w3s.txt"
  {
    TrimPlain("w3s.txt");
  }

  lemma Attributes141Target2Join()
    ensures "/blog/" + "w3s.txt" == "/blog/w3s.txt"
  {
  }

  lemma Attributes141Target2()
    ensures Target(Base, "w3s.txt") == At("/blog/w3s.txt")
  {
    Attributes141Target2Segment();
    Attributes141Target2Trim();
    Attributes141Target2Join();
    RelativeTarget("w3s.txt", "w3s.txt");
  }

  /** <iframe src="/default.asp" longdesc="w3s.txt"></iframe> */
  lemma Attributes141()
    ensures Extract(Html, "<iframe" + " src=\"" + "/default.asp" + "\"" + " longdesc=\"" + "w3s.txt" + "\"></iframe>", Page, Host) == [Domain + "/default.asp", Domain + "/blog/w3s.txt"]
  {
    Attributes141Scan();
    Attributes141Target1();
    Attributes141Target2();
    ExtractTwo(Html, "<iframe" + " src=\"" + "/default.asp" + "\"" + " longdesc=\"" + "w3s.txt" + "\"></iframe>", "/default.asp", "w3s.txt", "/default.asp", "/blog/w3s.txt");
  }

  lemma Attributes144Run1()
    ensures "<" + "img" == "<img"
  {
  }

  lemma Attributes144Run2()
    ensures " " + "src" + "" + "=" + "" + ['"'] == " src=\""
  {
  }

  lemma Attributes144Run3()
    ensures " " + "alt" + "" + "=" + "" + ['"'] + "W3Schools.com" + ['"'] == " alt=\"W3Schools.com\""
  {
  }

  lemma Attributes144Run4()
    ensures " " + "longdesc" + "" + "=" + "" + ['"'] == " longdesc=\""
  {
  }

  lemma Attributes144Run5()
    ensures ['"'] + ">" == "\">"
  {
  }

  lemma Attributes144Text(u1: string, u2: string)
    ensures ("<" + ("img" + (((" " + ("src" + ("" + ("=" + ("" + (['"'] + u1 + ['"'])))))) + ((" " + ("alt" + ("" + ("=" + ("" + (['"'] + "W3Schools.com" + ['"'])))))) + (" " + ("longdesc" + ("" + ("=" + ("" + (['"'] + u2 + ['"'])))))))) + ">")))
      == "<img" + " src=\"" + u1 + "\"" + " alt=\"W3Schools.com\"" + " longdesc=\"" + u2 + "\">"
  {
    Attributes144Run1();
    Attributes144Run2();
    Attributes144Run3();
    Attributes144Run4();
    Attributes144Run5();
    Assoc("", ['"'] + u1, ['"']);
    Assoc("", ['"'], u1);
    Assoc("=", "" + ['"'] + u1, ['"']);
    Assoc("=", "" + ['"'], u1);
    Assoc("=", "", ['"']);
    Assoc("", "=" + "" + ['"'] + u1, ['"']);
    Assoc("", "=" + "" + ['"'], u1);
    Assoc("", "=" + "", ['"']);
    Assoc("", "=", "");
    Assoc("src", "" + "=" + "" + ['"'] + u1, ['"']);
    Assoc("src", "" + "=" + "" + ['"'], u1);
    Assoc("src", "" + "=" + "", ['"']);
    Assoc("src", "" + "=", "");
    Assoc("src", "", "=");
    Assoc(" ", "src" + "" + "=" + "" + ['"'] + u1, ['"']);
    Assoc(" ", "src" + "" + "=" + "" + ['"'], u1);
    Assoc(" ", "src" + "" + "=" + "", ['"']);
    Assoc(" ", "src" + "" + "=", "");
    Assoc(" ", "src" + "", "=");
    Assoc(" ", "src", "");
    Assoc("", ['"'] + "W3Schools.com", ['"']);
    Assoc("", ['"'], "W3Schools.com");
    Assoc("=", "" + ['"'] + "W3Schools.com", ['"']);
    Assoc("=", "" + ['"'], "W3Schools.com");
    Assoc("=", "", ['"']);
    Assoc("", "=" + "" + ['"'] + "W3Schools.com", ['"']);
    Assoc("", "=" + "" + ['"'], "W3Schools.com");
    Assoc("", "=" + "", ['"']);
    Assoc("", "=", "");
    Assoc("alt", "" + "=" + "" + ['"'] + "W3Schools.com", ['"']);
    Assoc("alt", "" + "=" + "" + ['"'], "W3Schools.com");
    Assoc("alt", "" + "=" + "", ['"']);
    Assoc("alt", "" + "=", "");
    Assoc("alt", "", "=");
    Assoc(" ", "alt" + "" + "=" + "" + ['"'] + "W3Schools.com", ['"']);
    Assoc(" ", "alt" + "" + "=" + "" + ['"'], "W3Schools.com");
    Assoc(" ", "alt" + "" + "=" + "", ['"']);
    Assoc(" ", "alt" + "" + "=", "");
    Assoc(" ", "alt" + "", "=");
    Assoc(" ", "alt", "");
    Assoc("", ['"'] + u2, ['"']);
    Assoc("", ['"'], u2);
    Assoc("=", "" + ['"'] + u2, ['"']);
    Assoc("=", "" + ['"'], u2);
    Assoc("=", "", ['"']);
    Assoc("", "=" + "" + ['"'] + u2, ['"']);
    Assoc("", "=" + "" + ['"'], u2);
    Assoc("", "=" + "", ['"']);
    Assoc("", "=", "");
    Assoc("longdesc", "" + "=" + "" + ['"'] + u2, ['"']);
    Assoc("longdesc", "" + "=" + "" + ['"'], u2);
    Assoc("longdesc", "" + "=" + "", ['"']);
    Assoc("longdesc", "" + "=", "");
    Assoc("longdesc", "", "=");
    Assoc(" ", "longdesc" + "" + "=" + "" + ['"'] + u2, ['"']);
    Assoc(" ", "longdesc" + "" + "=" + "" + ['"'], u2);
    Assoc(" ", "longdesc" + "" + "=" + "", ['"']);
    Assoc(" ", "longdesc" + "" + "=", "");
    Assoc(" ", "longdesc" + "", "=");
    Assoc(" ", "longdesc", "");
    Assoc(" " + "alt" + "" + "=" + "" + ['"'] + "W3Schools.com" + ['"'], " " + "longdesc" + "" + "=" + "" + ['"'] + u2, ['"']);
    Assoc(" " + "alt" + "" + "=" + "" + ['"'] + "W3Schools.com" + ['"'], " " + "longdesc" + "" + "=" + "" + ['"'], u2);
    Assoc(" " + "alt" + "" + "=" + "" + ['"'] + "W3Schools.com" + ['"'], " " + "longdesc" + "" + "=" + "", ['"']);
    Assoc(" " + "alt" + "" + "=" + "" + ['"'] + "W3Schools.com" + ['"'], " " + "longdesc" + "" + "=", "");
    Assoc(" " + "alt" + "" + "=" + "" + ['"'] + "W3Schools.com" + ['"'], " " + "longdesc" + "", "=");
    Assoc(" " + "alt" + "" + "=" + "" + ['"'] + "W3Schools.com" + ['"'], " " + "longdesc", "");
    Assoc(" " + "alt" + "" + "=" + "" + ['"'] + "W3Schools.com" + ['"'], " ", "longdesc");
    Assoc(" " + "src" + "" + "=" + "" + ['"'] + u1 + ['"'], " " + "alt" + "" + "=" + "" + ['"'] + "W3Schools.com" + ['"'] + " " + "longdesc" + "" + "=" + "" + ['"'] + u2, ['"']);
    Assoc(" " + "src" + "" + "=" + "" + ['"'] + u1 + ['"'], " " + "alt" + "" + "=" + "" + ['"'] + "W3Schools.com" + ['"'] + " " + "longdesc" + "" + "=" + "" + ['"'], u2);
    Assoc(" " + "src" + "" + "=" + "" + ['"'] + u1 + ['"'], " " + "alt" + "" + "=" + "" + ['"'] + "W3Schools.com" + ['"'] + " " + "longdesc" + "" + "=" + "", ['"']);
    Assoc(" " + "src" + "" + "=" + "" + ['"'] + u1 + ['"'], " " + "alt" + "" + "=" + "" + ['"'] + "W3Schools.com" + ['"'] + " " + "longdesc" + "" + "=", "");
    Assoc(" " + "src" + "" + "=" + "" + ['"'] + u1 + ['"'], " " + "alt" + "" + "=" + "" + ['"'] + "W3Schools.com" + ['"'] + " " + "longdesc" + "", "=");
    Assoc(" " + "src" + "" + "=" + "" + ['"'] + u1 + ['"'], " " + "alt" + "" + "=" + "" + ['"'] + "W3Schools.com" + ['"'] + " " + "longdesc", "");
    Assoc(" " + "src" + "" + "=" + "" + ['"'] + u1 + ['"'], " " + "alt" + "" + "=" + "" + ['"'] + "W3Schools.com" + ['"'] + " ", "longdesc");
    Assoc(" " + "src" + "" + "=" + "" + ['"'] + u1 + ['"'], " " + "alt" + "" + "=" + "" + ['"'] + "W3Schools.com" + ['"'], " ");
    Assoc(" " + "src" + "" + "=" + "" + ['"'] + u1 + ['"'], " " + "alt" + "" + "=" + "" + ['"'] + "W3Schools.com", ['"']);
    Assoc(" " + "src" + "" + "=" + "" + ['"'] + u1 + ['"'], " " + "alt" + "" + "=" + "" + ['"'], "W3Schools.com");
    Assoc(" " + "src" + "" + "=" + "" + ['"'] + u1 + ['"'], " " + "alt" + "" + "=" + "", ['"']);
    Assoc(" " + "src" + "" + "=" + "" + ['"'] + u1 + ['"'], " " + "alt" + "" + "=", "");
    Assoc(" " + "src" + "" + "=" + "" + ['"'] + u1 + ['"'], " " + "alt" + "", "=");
    Assoc(" " + "src" + "" + "=" + "" + ['"'] + u1 + ['"'], " " + "alt", "");
    Assoc(" " + "src" + "" + "=" + "" + ['"'] + u1 + ['"'], " ", "alt");
    Assoc("img", " " + "src" + "" + "=" + "" + ['"'] + u1 + ['"'] + " " + "alt" + "" + "=" + "" + ['"'] + "W3Schools.com" + ['"'] + " " + "longdesc" + "" + "=" + "" + ['"'] + u2 + ['"'], ">");
    Assoc("img", " " + "src" + "" + "=" + "" + ['"'] + u1 + ['"'] + " " + "alt" + "" + "=" + "" + ['"'] + "W3Schools.com" + ['"'] + " " + "longdesc" + "" + "=" + "" + ['"'] + u2, ['"']);
    Assoc("img", " " + "src" + "" + "=" + "" + ['"'] + u1 + ['"'] + " " + "alt" + "" + "=" + "" + ['"'] + "W3Schools.com" + ['"'] + " " + "longdesc" + "" + "=" + "" + ['"'], u2);
    Assoc("img", " " + "src" + "" + "=" + "" + ['"'] + u1 + ['"'] + " " + "alt" + "" + "=" + "" + ['"'] + "W3Schools.com" + ['"'] + " " + "longdesc" + "" + "=" + "", ['"']);
    Assoc("img", " " + "src" + "" + "=" + "" + ['"'] + u1 + ['"'] + " " + "alt" + "" + "=" + "" + ['"'] + "W3Schools.com" + ['"'] + " " + "longdesc" + "" + "=", "");
    Assoc("img", " " + "src" + "" + "=" + "" + ['"'] + u1 + ['"'] + " " + "alt" + "" + "=" + "" + ['"'] + "W3Schools.com" + ['"'] + " " + "longdesc" + "", "=");
    Assoc("img", " " + "src" + "" + "=" + "" + ['"'] + u1 + ['"'] + " " + "alt" + "" + "=" + "" + ['"'] + "W3Schools.com" + ['"'] + " " + "longdesc", "");
    Assoc("img", " " + "src" + "" + "=" + "" + ['"'] + u1 + ['"'] + " " + "alt" + "" + "=" + "" + ['"'] + "W3Schools.com" + ['"'] + " ", "longdesc");
    Assoc("img", " " + "src" + "" + "=" + "" + ['"'] + u1 + ['"'] + " " + "alt" + "" + "=" + "" + ['"'] + "W3Schools.com" + ['"'], " ");
    Assoc("img", " " + "src" + "" + "=" + "" + ['"'] + u1 + ['"'] + " " + "alt" + "" + "=" + "" + ['"'] + "W3Schools.com", ['"']);
    Assoc("img", " " + "src" + "" + "=" + "" + ['"'] + u1 + ['"'] + " " + "alt" + "" + "=" + "" + ['"'], "W3Schools.com");
    Assoc("img", " " + "src" + "" + "=" + "" + ['"'] + u1 + ['"'] + " " + "alt" + "" + "=" + "", ['"']);
    Assoc("img", " " + "src" + "" + "=" + "" + ['"'] + u1 + ['"'] + " " + "alt" + "" + "=", "");
    Assoc("img", " " + "src" + "" + "=" + "" + ['"'] + u1 + ['"'] + " " + "alt" + "", "=");
    Assoc("img", " " + "src" + "" + "=" + "" + ['"'] + u1 + ['"'] + " " + "alt", "");
    Assoc("img", " " + "src" + "" + "=" + "" + ['"'] + u1 + ['"'] + " ", "alt");
    Assoc("img", " " + "src" + "" + "=" + "" + ['"'] + u1 + ['"'], " ");
    Assoc("img", " " + "src" + "" + "=" + "" + ['"'] + u1, ['"']);
    Assoc("img", " " + "src" + "" + "=" + "" + ['"'], u1);
    Assoc("img", " " + "src" + "" + "=" + "", ['"']);
    Assoc("img", " " + "src" + "" + "=", "");
    Assoc("img", " " + "src" + "", "=");
    Assoc("img", " " + "src", "");
    Assoc("img", " ", "src");
    Assoc("<", "img" + " " + "src" + "" + "=" + "" + ['"'] + u1 + ['"'] + " " + "alt" + "" + "=" + "" + ['"'] + "W3Schools.com" + ['"'] + " " + "longdesc" + "" + "=" + "" + ['"'] + u2 + ['"'], ">");
    Assoc("<", "img" + " " + "src" + "" + "=" + "" + ['"'] + u1 + ['"'] + " " + "alt" + "" + "=" + "" + ['"'] + "W3Schools.com" + ['"'] + " " + "longdesc" + "" + "=" + "" + ['"'] + u2, ['"']);
    Assoc("<", "img" + " " + "src" + "" + "=" + "" + ['"'] + u1 + ['"'] + " " + "alt" + "" + "=" + "" + ['"'] + "W3Schools.com" + ['"'] + " " + "longdesc" + "" + "=" + "" + ['"'], u2);
    Assoc("<", "img" + " " + "src" + "" + "=" + "" + ['"'] + u1 + ['"'] + " " + "alt" + "" + "=" + "" + ['"'] + "W3Schools.com" + ['"'] + " " + "longdesc" + "" + "=" + "", ['"']);
    Assoc("<", "img" + " " + "src" + "" + "=" + "" + ['"'] + u1 + ['"'] + " " + "alt" + "" + "=" + "" + ['"'] + "W3Schools.com" + ['"'] + " " + "longdesc" + "" + "=", "");
    Assoc("<", "img" + " " + "src" + "" + "=" + "" + ['"'] + u1 + ['"'] + " " + "alt" + "" + "=" + "" + ['"'] + "W3Schools.com" + ['"'] + " " + "longdesc" + "", "=");
    Assoc("<", "img" + " " + "src" + "" + "=" + "" + ['"'] + u1 + ['"'] + " " + "alt" + "" + "=" + "" + ['"'] + "W3Schools.com" + ['"'] + " " + "longdesc", "");
    Assoc("<", "img" + " " + "src" + "" + "=" + "" + ['"'] + u1 + ['"'] + " " + "alt" + "" + "=" + "" + ['"'] + "W3Schools.com" + ['"'] + " ", "longdesc");
    Assoc("<", "img" + " " + "src" + "" + "=" + "" + ['"'] + u1 + ['"'] + " " + "alt" + "" + "=" + "" + ['"'] + "W3Schools.com" + ['"'], " ");
    Assoc("<", "img" + " " + "src" + "" + "=" + "" + ['"'] + u1 + ['"'] + " " + "alt" + "" + "=" + "" + ['"'] + "W3Schools.com", ['"']);
    Assoc("<", "img" + " " + "src" + "" + "=" + "" + ['"'] + u1 + ['"'] + " " + "alt" + "" + "=" + "" + ['"'], "W3Schools.com");
    Assoc("<", "img" + " " + "src" + "" + "=" + "" + ['"'] + u1 + ['"'] + " " + "alt" + "" + "=" + "", ['"']);
    Assoc("<", "img" + " " + "src" + "" + "=" + "" + ['"'] + u1 + ['"'] + " " + "alt" + "" + "=", "");
    Assoc("<", "img" + " " + "src" + "" + "=" + "" + ['"'] + u1 + ['"'] + " " + "alt" + "", "=");
    Assoc("<", "img" + " " + "src" + "" + "=" + "" + ['"'] + u1 + ['"'] + " " + "alt", "");
    Assoc("<", "img" + " " + "src" + "" + "=" + "" + ['"'] + u1 + ['"'] + " ", "alt");
    Assoc("<", "img" + " " + "src" + "" + "=" + "" + ['"'] + u1 + ['"'], " ");
    Assoc("<", "img" + " " + "src" + "" + "=" + "" + ['"'] + u1, ['"']);
    Assoc("<", "img" + " " + "src" + "" + "=" + "" + ['"'], u1);
    Assoc("<", "img" + " " + "src" + "" + "=" + "", ['"']);
    Assoc("<", "img" + " " + "src" + "" + "=", "");
    Assoc("<", "img" + " " + "src" + "", "=");
    Assoc("<", "img" + " " + "src", "");
    Assoc("<", "img" + " ", "src");
    Assoc("<", "img", " ");
    Assoc("<" + "img", " " + "src" + "" + "=" + "", ['"']);
    Assoc("<" + "img", " " + "src" + "" + "=", "");
    Assoc("<" + "img", " " + "src" + "", "=");
    Assoc("<" + "img", " " + "src", "");
    Assoc("<" + "img", " ", "src");
    Assoc("<" + "img" + " " + "src" + "" + "=" + "" + ['"'] + u1 + ['"'], " " + "alt" + "" + "=" + "" + ['"'] + "W3Schools.com", ['"']);
    Assoc("<" + "img" + " " + "src" + "" + "=" + "" + ['"'] + u1 + ['"'], " " + "alt" + "" + "=" + "" + ['"'], "W3Schools.com");
    Assoc("<" + "img" + " " + "src" + "" + "=" + "" + ['"'] + u1 + ['"'], " " + "alt" + "" + "=" + "", ['"']);
    Assoc("<" + "img" + " " + "src" + "" + "=" + "" + ['"'] + u1 + ['"'], " " + "alt" + "" + "=", "");
    Assoc("<" + "img" + " " + "src" + "" + "=" + "" + ['"'] + u1 + ['"'], " " + "alt" + "", "=");
    Assoc("<" + "img" + " " + "src" + "" + "=" + "" + ['"'] + u1 + ['"'], " " + "alt", "");
    Assoc("<" + "img" + " " + "src" + "" + "=" + "" + ['"'] + u1 + ['"'], " ", "alt");
    Assoc("<" + "img" + " " + "src" + "" + "=" + "" + ['"'] + u1 + ['"'] + " " + "alt" + "" + "=" + "" + ['"'] + "W3Schools.com" + ['"'], " " + "longdesc" + "" + "=" + "", ['"']);
    Assoc("<" + "img" + " " + "src" + "" + "=" + "" + ['"'] + u1 + ['"'] + " " + "alt" + "" + "=" + "" + ['"'] + "W3Schools.com" + ['"'], " " + "longdesc" + "" + "=", "");
    Assoc("<" + "img" + " " + "src" + "" + "=" + "" + ['"'] + u1 + ['"'] + " " + "alt" + "" + "=" + "" + ['"'] + "W3Schools.com" + ['"'], " " + "longdesc" + "", "=");
    Assoc("<" + "img" + " " + "src" + "" + "=" + "" + ['"'] + u1 + ['"'] + " " + "alt" + "" + "=" + "" + ['"'] + "W3Schools.com" + ['"'], " " + "longdesc", "");
    Assoc("<" + "img" + " " + "src" + "" + "=" + "" + ['"'] + u1 + ['"'] + " " + "alt" + "" + "=" + "" + ['"'] + "W3Schools.com" + ['"'], " ", "longdesc");
    Assoc("<" + "img" + " " + "src" + "" + "=" + "" + ['"'] + u1 + ['"'] + " " + "alt" + "" + "=" + "" + ['"'] + "W3Schools.com" + ['"'] + " " + "longdesc" + "" + "=" + "" + ['"'] + u2, ['"'], ">");
  }

  lemma Attributes144Render(u1: string, u2: string)
    ensures RenderNode(Element("img", [Attribute(" ", "src", Some(Assignment("", "", QuotedValue('"', u1)))), Attribute(" ", "alt", Some(Assignment("", "", QuotedValue('"', "W3Schools.com")))), Attribute(" ", "longdesc", Some(Assignment("", "", QuotedValue('"', u2))))], false))
      == "<img" + " src=\"" + u1 + "\"" + " alt=\"W3Schools.com\"" + " longdesc=\"" + u2 + "\">"
  {
    Attributes3(Attribute(" ", "src", Some(Assignment("", "", QuotedValue('"', u1)))), Attribute(" ", "alt", Some(Assignment("", "", QuotedValue('"', "W3Schools.com")))), Attribute(" ", "longdesc", Some(Assignment("", "", QuotedValue('"', u2)))));
    assert RenderAttribute(Attribute(" ", "src", Some(Assignment("", "", QuotedValue('"', u1))))) == " " + ("src" + ("" + ("=" + ("" + (['"'] + u1 + ['"'])))));
    assert RenderAttribute(Attribute(" ", "alt", Some(Assignment("", "", QuotedValue('"', "W3Schools.com"))))) == " " + ("alt" + ("" + ("=" + ("" + (['"'] + "W3Schools.com" + ['"'])))));
    assert RenderAttribute(Attribute(" ", "longdesc", Some(Assignment("", "", QuotedValue('"', u2))))) == " " + ("longdesc" + ("" + ("=" + ("" + (['"'] + u2 + ['"'])))));
    assert RenderNode(Element("img", [Attribute(" ", "src", Some(Assignment("", "", QuotedValue('"', u1)))), Attribute(" ", "alt", Some(Assignment("", "", QuotedValue('"', "W3Schools.com")))), Attribute(" ", "longdesc", Some(Assignment("", "", QuotedValue('"', u2))))], false)) == "<" + ("img" + (((" " + ("src" + ("" + ("=" + ("" + (['"'] + u1 + ['"'])))))) + ((" " + ("alt" + ("" + ("=" + ("" + (['"'] + "W3Schools.com" + ['"'])))))) + (" " + ("longdesc" + ("" + ("=" + ("" + (['"'] + u2 + ['"'])))))))) + ">"));
    Attributes144Text(u1, u2);
  }

  lemma Attributes144Attribute1Value()
    ensures '"' !in "w3html.gif"
  {
  }

  lemma Attributes144Attribute1()
    ensures AttributeWellFormed(Attribute(" ", "src", Some(Assignment("", "", QuotedValue('"', "w3html.gif")))))
  {
    AttributeSrc();
    Attributes144Attribute1Value();
    QuotedAttributeWellFormed(" ", "src", "", "", '"', "w3html.gif");
  }

  lemma Attributes144Attribute2Value()
    ensures '"' !in "W3Schools.com"
  {
  }

  lemma Attributes144Attribute2()
    ensures AttributeWellFormed(Attribute(" ", "alt", Some(Assignment("", "", QuotedValue('"', "W3Schools.com")))))
  {
    AttributeAlt();
    Attributes144Attribute2Value();
    QuotedAttributeWellFormed(" ", "alt", "", "", '"', "W3Schools.com");
  }

  lemma Attributes144Attribute3Value()
    ensures '"' !in "w3html.txt"
  {
  }

  lemma Attributes144Attribute3()
    ensures AttributeWellFormed(Attribute(" ", "longdesc", Some(Assignment("", "", QuotedValue('"', "w3html.txt")))))
  {
    AttributeLongdesc();
    Attributes144Attribute3Value();
    QuotedAttributeWellFormed(" ", "longdesc", "", "", '"', "w3html.txt");
  }

  lemma Attributes144Node1()
    ensures NodeWellFormed(Element("img", [Attribute(" ", "src", Some(Assignment("", "", QuotedValue('"', "w3html.gif")))), Attribute(" ", "alt", Some(Assignment("", "", QuotedValue('"', "W3Schools.com")))), Attribute(" ", "longdesc", Some(Assignment("", "", QuotedValue('"', "w3html.txt"))))], false))
  {
    TagImg();
    Attributes144Attribute1();
    Attributes144Attribute2();
    Attributes144Attribute3();
    Attributes3(Attribute(" ", "src", Some(Assignment("", "", QuotedValue('"', "w3html.gif")))), Attribute(" ", "alt", Some(Assignment("", "", QuotedValue('"', "W3Schools.com")))), Attribute(" ", "longdesc", Some(Assignment("", "", QuotedValue('"', "w3html.txt")))));
  }

  lemma Attributes144WellFormed()
    ensures NodeWellFormed(Element("img", [Attribute(" ", "src", Some(Assignment("", "", QuotedValue('"', "w3html.gif")))), Attribute(" ", "alt", Some(Assignment("", "", QuotedValue('"', "W3Schools.com")))), Attribute(" ", "longdesc", Some(Assignment("", "", QuotedValue('"', "w3html.txt"))))], false))
  {
    Attributes144Node1();
  }

  lemma Attributes144Refs()
    ensures NodeRefs(Element("img", [Attribute(" ", "src", Some(Assignment("", "", QuotedValue('"', "w3html.gif")))), Attribute(" ", "alt", Some(Assignment("", "", QuotedValue('"', "W3Schools.com")))), Attribute(" ", "longdesc", Some(Assignment("", "", QuotedValue('"', "w3html.txt"))))], false)) == ["w3html.gif", "w3html.txt"]
  {
    Attributes3(Attribute(" ", "src", Some(Assignment("", "", QuotedValue('"', "w3html.gif")))), Attribute(" ", "alt", Some(Assignment("", "", QuotedValue('"', "W3Schools.com")))), Attribute(" ", "longdesc", Some(Assignment("", "", QuotedValue('"', "w3html.txt")))));
    AttributeSrc();
    UrlAttribute(Attribute(" ", "src", Some(Assignment("", "", QuotedValue('"', "w3html.gif")))));
    AttributeAlt();
    OtherAttribute(Attribute(" ", "alt", Some(Assignment("", "", QuotedValue('"', "W3Schools.com")))));
    AttributeLongdesc();
    UrlAttribute(Attribute(" ", "longdesc", Some(Assignment("", "", QuotedValue('"', "w3html.txt")))));
  }

  lemma Attributes144Scan()
    ensures RawReferences(Html, "<img" + " src=\"" + "w3html.gif" + "\"" + " alt=\"W3Schools.com\"" + " longdesc=\"" + "w3html.txt" + "\">") == ["w3html.gif", "w3html.txt"]
  {
    Attributes144Render("w3html.gif", "w3html.txt");
    Attributes144WellFormed();
    Attributes144Refs();
    Document1(Element("img", [Attribute(" ", "src", Some(Assignment("", "", QuotedValue('"', "w3html.gif")))), Attribute(" ", "alt", Some(Assignment("", "", QuotedValue('"', "W3Schools.com")))), Attribute(" ", "longdesc", Some(Assignment("", "", QuotedValue('"', "w3html.txt"))))], false));
  }

  lemma Attributes144Target1Segment()
    ensures Segment("w3html.gif")
  {
    SegmentIntro("w3html.gif");
  }

  lemma Attributes144Target1Trim()
    ensures Trim("w3html.gif") == "w3html.gif"
  {
    TrimPlain("w3html.gif");
  }

  lemma Attributes144Target1Join()
    ensures "/blog/" + "w3html.gif" == "/blog/w3html.gif"
  {
  }

  lemma Attributes144Target1()
    ensures Target(Base, "w3html.gif") == At("/blog/w3html.gif")
  {
    Attributes144Target1Segment();
    Attributes144Target1Trim();
    Attributes144Target1Join();
    RelativeTarget("w3html.gif", "w3html.gif");
  }

  lemma Attributes144Target2Segment()
    ensures Segment("w3html.txt")
  {
    SegmentIntro("w3html.txt");
  }

  lemma Attributes144Target2Trim()
    ensures Trim("w3html.txt") == "w3html.txt"
  {
    TrimPlain("w3html.txt");
  }

  lemma Attributes144Target2Join()
    ensures "/blog/" + "w3html.txt" == "/blog/w3html.txt"
  {
  }

  lemma Attributes144Target2()
    ensures Target(Base, "w3html.txt") == At("/blog/w3html.txt")
  {
    Attributes144Target2Segment();
    Attributes144Target2Trim();
    Attributes144Target2Join();
    RelativeTarget("w3html.txt", "w3html.txt");
  }

  /** <img src="w3html.gif" alt="W3Schools.com" longdesc="w3html.txt"> */
  lemma Attributes144()
    ensures Extract(Html, "<img" + " src=\"" + "w3html.gif" + "\"" + " alt=\"W3Schools.com\"" + " longdesc=\"" + "w3html.txt" + "\">", Page, Host) == [Domain + "/blog/w3html.gif", Domain + "/blog/w3html.txt"]
  {
    Attributes144Scan();
    Attributes144Target1();
    Attributes144Target2();
    ExtractTwo(Html, "<img" + " src=\"" + "w3html.gif" + "\"" + " alt=\"W3Schools.com\"" + " longdesc=\"" + "w3html.txt" + "\">", "w3html.gif", "w3html.txt", "/blog/w3html.gif", "/blog/w3html.txt");
  }

  lemma Attributes147Run1()
    ensures "<" + "object" == "<object"
  {
  }

  lemma Attributes147Run2()
    ensures " " + "classid" + "" + "=" + "" + ['"'] == " classid=\""
  {
  }

  lemma Attributes147Run3()
    ensures " " + "codebase" + "" + "=" + "" + ['"'] == " codebase=\""
  {
  }

  lemma Attributes147Run4()
    ensures ['"'] + ">" == "\">"
  {
  }

  lemma Attributes147Text(u1: string, u2: string)
    ensures ("<" + ("object" + (((" " + ("classid" + ("" + ("=" + ("" + (['"'] + u1 + ['"'])))))) + (" " + ("codebase" + ("" + ("=" + ("" + (['"'] + u2 + ['"']))))))) + ">")))
      == "<object" + " classid=\"" + u1 + "\"" + " codebase=\"" + u2 + "\">"
  {
    Attributes147Run1();
    Attributes147Run2();
    Attributes147Run3();
    Attributes147Run4();
    Assoc("", ['"'] + u1, ['"']);
    Assoc("", ['"'], u1);
    Assoc("=", "" + ['"'] + u1, ['"']);
    Assoc("=", "" + ['"'], u1);
    Assoc("=", "", ['"']);
    Assoc("", "=" + "" + ['"'] + u1, ['"']);
    Assoc("", "=" + "" + ['"'], u1);
    Assoc("", "=" + "", ['"']);
    Assoc("", "=", "");
    Assoc("classid", "" + "=" + "" + ['"'] + u1, ['"']);
    Assoc("classid", "" + "=" + "" + ['"'], u1);
    Assoc("classid", "" + "=" + "", ['"']);
    Assoc("classid", "" + "=", "");
    Assoc("classid", "", "=");
    Assoc(" ", "classid" + "" + "=" + "" + ['"'] + u1, ['"']);
    Assoc(" ", "classid" + "" + "=" + "" + ['"'], u1);
    Assoc(" ", "classid" + "" + "=" + "", ['"']);
    Assoc(" ", "classid" + "" + "=", "");
    Assoc(" ", "classid" + "", "=");
    Assoc(" ", "classid", "");
    Assoc("", ['"'] + u2, ['"']);
    Assoc("", ['"'], u2);
    Assoc("=", "" + ['"'] + u2, ['"']);
    Assoc("=", "" + ['"'], u2);
    Assoc("=", "", ['"']);
    Assoc("", "=" + "" + ['"'] + u2, ['"']);
    Assoc("", "=" + "" + ['"'], u2);
    Assoc("", "=" + "", ['"']);
    Assoc("", "=", "");
    Assoc("codebase", "" + "=" + "" + ['"'] + u2, ['"']);
    Assoc("codebase", "" + "=" + "" + ['"'], u2);
    Assoc("codebase", "" + "=" + "", ['"']);
    Assoc("codebase", "" + "=", "");
    Assoc("codebase", "", "=");
    Assoc(" ", "codebase" + "" + "=" + "" + ['"'] + u2, ['"']);
    Assoc(" ", "codebase" + "" + "=" + "" + ['"'], u2);
    Assoc(" ", "codebase" + "" + "=" + "", ['"']);
    Assoc(" ", "codebase" + "" + "=", "");
    Assoc(" ", "codebase" + "", "=");
    Assoc(" ", "codebase", "");
    Assoc(" " + "classid" + "" + "=" + "" + ['"'] + u1 + ['"'], " " + "codebase" + "" + "=" + "" + ['"'] + u2, ['"']);
    Assoc(" " + "classid" + "" + "=" + "" + ['"'] + u1 + ['"'], " " + "codebase" + "" + "=" + "" + ['"'], u2);
    Assoc(" " + "classid" + "" + "=" + "" + ['"'] + u1 + ['"'], " " + "codebase" + "" + "=" + "", ['"']);
    Assoc(" " + "classid" + "" + "=" + "" + ['"'] + u1 + ['"'], " " + "codebase" + "" + "=", "");
    Assoc(" " + "classid" + "" + "=" + "" + ['"'] + u1 + ['"'], " " + "codebase" + "", "=");
    Assoc(" " + "classid" + "" + "=" + "" + ['"'] + u1 + ['"'], " " + "codebase", "");
    Assoc(" " + "classid" + "" + "=" + "" + ['"'] + u1 + ['"'], " ", "codebase");
    Assoc("object", " " + "classid" + "" + "=" + "" + ['"'] + u1 + ['"'] + " " + "codebase" + "" + "=" + "" + ['"'] + u2 + ['"'], ">");
    Assoc("object", " " + "classid" + "" + "=" + "" + ['"'] + u1 + ['"'] + " " + "codebase" + "" + "=" + "" + ['"'] + u2, ['"']);
    Assoc("object", " " + "classid" + "" + "=" + "" + ['"'] + u1 + ['"'] + " " + "codebase" + "" + "=" + "" + ['"'], u2);
    Assoc("object", " " + "classid" + "" + "=" + "" + ['"'] + u1 + ['"'] + " " + "codebase" + "" + "=" + "", ['"']);
    Assoc("object", " " + "classid" + "" + "=" + "" + ['"'] + u1 + ['"'] + " " + "codebase" + "" + "=", "");
    Assoc("object", " " + "classid" + "" + "=" + "" + ['"'] + u1 + ['"'] + " " + "codebase" + "", "=");
    Assoc("object", " " + "classid" + "" + "=" + "" + ['"'] + u1 + ['"'] + " " + "codebase", "");
    Assoc("object", " " + "classid" + "" + "=" + "" + ['"'] + u1 + ['"'] + " ", "codebase");
    Assoc("object", " " + "classid" + "" + "=" + "" + ['"'] + u1 + ['"'], " ");
    Assoc("object", " " + "classid" + "" + "=" + "" + ['"'] + u1, ['"']);
    Assoc("object", " " + "classid" + "" + "=" + "" + ['"'], u1);
    Assoc("object", " " + "classid" + "" + "=" + "", ['"']);
    Assoc("object", " " + "classid" + "" + "=", "");
    Assoc("object", " " + "classid" + "", "=");
    Assoc("object", " " + "classid", "");
    Assoc("object", " ", "classid");
    Assoc("<", "object" + " " + "classid" + "" + "=" + "" + ['"'] + u1 + ['"'] + " " + "codebase" + "" + "=" + "" + ['"'] + u2 + ['"'], ">");
    Assoc("<", "object" + " " + "classid" + "" + "=" + "" + ['"'] + u1 + ['"'] + " " + "codebase" + "" + "=" + "" + ['"'] + u2, ['"']);
    Assoc("<", "object" + " " + "classid" + "" + "=" + "" + ['"'] + u1 + ['"'] + " " + "codebase" + "" + "=" + "" + ['"'], u2);
    Assoc("<", "object" + " " + "classid" + "" + "=" + "" + ['"'] + u1 + ['"'] + " " + "codebase" + "" + "=" + "", ['"']);
    Assoc("<", "object" + " " + "classid" + "" + "=" + "" + ['"'] + u1 + ['"'] + " " + "codebase" + "" + "=", "");
    Assoc("<", "object" + " " + "classid" + "" + "=" + "" + ['"'] + u1 + ['"'] + " " + "codebase" + "", "=");
    Assoc("<", "object" + " " + "classid" + "" + "=" + "" + ['"'] + u1 + ['"'] + " " + "codebase", "");
    Assoc("<", "object" + " " + "classid" + "" + "=" + "" + ['"'] + u1 + ['"'] + " ", "codebase");
    Assoc("<", "object" + " " + "classid" + "" + "=" + "" + ['"'] + u1 + ['"'], " ");
    Assoc("<", "object" + " " + "classid" + "" + "=" + "" + ['"'] + u1, ['"']);
    Assoc("<", "object" + " " + "classid" + "" + "=" + "" + ['"'], u1);
    Assoc("<", "object" + " " + "classid" + "" + "=" + "", ['"']);
    Assoc("<", "object" + " " + "classid" + "" + "=", "");
    Assoc("<", "object" + " " + "classid" + "", "=");
    Assoc("<", "object" + " " + "classid", "");
    Assoc("<", "object" + " ", "classid");
    Assoc("<", "object", " ");
    Assoc("<" + "object", " " + "classid" + "" + "=" + "", ['"']);
    Assoc("<" + "object", " " + "classid" + "" + "=", "");
    Assoc("<" + "object", " " + "classid" + "", "=");
    Assoc("<" + "object", " " + "classid", "");
    Assoc("<" + "object", " ", "classid");
    Assoc("<" + "object" + " " + "classid" + "" + "=" + "" + ['"'] + u1 + ['"'], " " + "codebase" + "" + "=" + "", ['"']);
    Assoc("<" + "object" + " " + "classid" + "" + "=" + "" + ['"'] + u1 + ['"'], " " + "codebase" + "" + "=", "");
    Assoc("<" + "object" + " " + "classid" + "" + "=" + "" + ['"'] + u1 + ['"'], " " + "codebase" + "", "=");
    Assoc("<" + "object" + " " + "classid" + "" + "=" + "" + ['"'] + u1 + ['"'], " " + "codebase", "");
    Assoc("<" + "object" + " " + "classid" + "" + "=" + "" + ['"'] + u1 + ['"'], " ", "codebase");
    Assoc("<" + "object" + " " + "classid" + "" + "=" + "" + ['"'] + u1 + ['"'] + " " + "codebase" + "" + "=" + "" + ['"'] + u2, ['"'], ">");
  }

  lemma Attributes147Render(u1: string, u2: string)
    ensures RenderNode(Element("object", [Attribute(" ", "classid", Some(Assignment("", "", QuotedValue('"', u1)))), Attribute(" ", "codebase", Some(Assignment("", "", QuotedValue('"', u2))))], false))
      == "<object" + " classid=\"" + u1 + "\"" + " codebase=\"" + u2 + "\">"
  {
    Attributes2(Attribute(" ", "classid", Some(Assignment("", "", QuotedValue('"', u1)))), Attribute(" ", "codebase", Some(Assignment("", "", QuotedValue('"', u2)))));
    assert RenderAttribute(Attribute(" ", "classid", Some(Assignment("", "", QuotedValue('"', u1))))) == " " + ("classid" + ("" + ("=" + ("" + (['"'] + u1 + ['"'])))));
    assert RenderAttribute(Attribute(" ", "codebase", Some(Assignment("", "", QuotedValue('"', u2))))) == " " + ("codebase" + ("" + ("=" + ("" + (['"'] + u2 + ['"'])))));
    assert RenderNode(Element("object", [Attribute(" ", "classid", Some(Assignment("", "", QuotedValue('"', u1)))), Attribute(" ", "codebase", Some(Assignment("", "", QuotedValue('"', u2))))], false)) == "<" + ("object" + (((" " + ("classid" + ("" + ("=" + ("" + (['"'] + u1 + ['"'])))))) + (" " + ("codebase" + ("" + ("=" + ("" + (['"'] + u2 + ['"']))))))) + ">"));
    Attributes147Text(u1, u2);
  }

  lemma Attributes147Attribute1Value()
    ensures '"' !in ("clsid:" + "D27CDB6E-AE6D-11cf-96B8-444553540000")
  {
  }

  lemma Attributes147Attribute1()
    ensures AttributeWellFormed(Attribute(" ", "classid", Some(Assignment("", "", QuotedValue('"', ("clsid:" + "D27CDB6E-AE6D-11cf-96B8-444553540000"))))))
  {
    AttributeClassid();
    Attributes147Attribute1Value();
    QuotedAttributeWellFormed(" ", "classid", "", "", '"', ("clsid:" + "D27CDB6E-AE6D-11cf-96B8-444553540000"));
  }

  lemma Attributes147Attribute2Value()
    ensures '"' !in "/swflash.cab#version=9,0,28,0"
  {
  }

  lemma Attributes147Attribute2()
    ensures AttributeWellFormed(Attribute(" ", "codebase", Some(Assignment("", "", QuotedValue('"', "/swflash.cab#version=9,0,28,0")))))
  {
    AttributeCodebase();
    Attributes147Attribute2Value();
    QuotedAttributeWellFormed(" ", "codebase", "", "", '"', "/swflash.cab#version=9,0,28,0");
  }

  lemma Attributes147Node1()
    ensures NodeWellFormed(Element("object", [Attribute(" ", "classid", Some(Assignment("", "", QuotedValue('"', ("clsid:" + "D27CDB6E-AE6D-11cf-96B8-444553540000"))))), Attribute(" ", "codebase", Some(Assignment("", "", QuotedValue('"', "/swflash.cab#version=9,0,28,0"))))], false))
  {
    TagObject();
    Attributes147Attribute1();
    Attributes147Attribute2();
    Attributes2(Attribute(" ", "classid", Some(Assignment("", "", QuotedValue('"', ("clsid:" + "D27CDB6E-AE6D-11cf-96B8-444553540000"))))), Attribute(" ", "codebase", Some(Assignment("", "", QuotedValue('"', "/swflash.cab#version=9,0,28,0")))));
  }

  lemma Attributes147WellFormed()
    ensures NodeWellFormed(Element("object", [Attribute(" ", "classid", Some(Assignment("", "", QuotedValue('"', ("clsid:" + "D27CDB6E-AE6D-11cf-96B8-444553540000"))))), Attribute(" ", "codebase", Some(Assignment("", "", QuotedValue('"', "/swflash.cab#version=9,0,28,0"))))], false))
  {
    Attributes147Node1();
  }

  lemma Attributes147Refs()
    ensures NodeRefs(Element("object", [Attribute(" ", "classid", Some(Assignment("", "", QuotedValue('"', ("clsid:" + "D27CDB6E-AE6D-11cf-96B8-444553540000"))))), Attribute(" ", "codebase", Some(Assignment("", "", QuotedValue('"', "/swflash.cab#version=9,0,28,0"))))], false)) == [("clsid:" + "D27CDB6E-AE6D-11cf-96B8-444553540000"), "/swflash.cab#version=9,0,28,0"]
  {
    Attributes2(Attribute(" ", "classid", Some(Assignment("", "", QuotedValue('"', ("clsid:" + "D27CDB6E-AE6D-11cf-96B8-444553540000"))))), Attribute(" ", "codebase", Some(Assignment("", "", QuotedValue('"', "/swflash.cab#version=9,0,28,0")))));
    AttributeClassid();
    UrlAttribute(Attribute(" ", "classid", Some(Assignment("", "", QuotedValue('"', ("clsid:" + "D27CDB6E-AE6D-11cf-96B8-444553540000"))))));
    AttributeCodebase();
    UrlAttribute(Attribute(" ", "codebase", Some(Assignment("", "", QuotedValue('"', "/swflash.cab#version=9,0,28,0")))));
  }

  lemma Attributes147Scan()
    ensures RawReferences(Html, "<object" + " classid=\"" + ("clsid:" + "D27CDB6E-AE6D-11cf-96B8-444553540000") + "\"" + " codebase=\"" + "/swflash.cab#version=9,0,28,0" + "\">") == [("clsid:" + "D27CDB6E-AE6D-11cf-96B8-444553540000"), "/swflash.cab#version=9,0,28,0"]
  {
    Attributes147Render("clsid:" + "D27CDB6E-AE6D-11cf-96B8-444553540000", "/swflash.cab#version=9,0,28,0");
    Attributes147WellFormed();
    Attributes147Refs();
    Document1(Element("object", [Attribute(" ", "classid", Some(Assignment("", "", QuotedValue('"', ("clsid:" + "D27CDB6E-AE6D-11cf-96B8-444553540000"))))), Attribute(" ", "codebase", Some(Assignment("", "", QuotedValue('"', "/swflash.cab#version=9,0,28,0"))))], false));
  }

  lemma Attributes147Target1SchemeChar1()
    ensures ':' !in "clsid"
  {
  }

  lemma Attributes147Target1SchemeChar2()
    ensures '/' !in "clsid"
  {
  }

  lemma Attributes147Target1SchemeChar3()
    ensures '?' !in "clsid"
  {
  }

  lemma Attributes147Target1SchemeChar4()
    ensures '#' !in "clsid"
  {
  }

  lemma Attributes147Target1Scheme()
    ensures NoneIn("clsid", SchemeStop)
  {
    Attributes147Target1SchemeChar1();
    Attributes147Target1SchemeChar2();
    Attributes147Target1SchemeChar3();
    Attributes147Target1SchemeChar4();
    NoneInIntro("clsid", SchemeStop);
  }

  lemma Attributes147Target1PathChar1()
    ensures '?' !in "D27CDB6E-AE6D-11cf-96B8-444553540000"
  {
  }

  lemma Attributes147Target1PathChar2()
    ensures '#' !in "D27CDB6E-AE6D-11cf-96B8-444553540000"
  {
  }

  lemma Attributes147Target1Path()
    ensures NoneIn("D27CDB6E-AE6D-11cf-96B8-444553540000", PathStop)
  {
    Attributes147Target1PathChar1();
    Attributes147Target1PathChar2();
    NoneInIntro("D27CDB6E-AE6D-11cf-96B8-444553540000", PathStop);
  }

  lemma Attributes147Target1Opening()
    ensures !StartsWith("D27CDB6E-AE6D-11cf-96B8-444553540000", "//")
  {
    NoDoubleSlash("D27CDB6E-AE6D-11cf-96B8-444553540000");
  }

  lemma Attributes147Target1Reference()
    ensures Uri.WellFormed(Reference(Some("clsid"), None, "D27CDB6E-AE6D-11cf-96B8-444553540000", None, None))
  {
    Attributes147Target1Scheme();
    Attributes147Target1Path();
    Attributes147Target1Opening();
  }

  lemma Attributes147Target1Unfold()
    ensures Recompose(Reference(Some("clsid"), None, "D27CDB6E-AE6D-11cf-96B8-444553540000", None, None)) == ("" + "clsid" + ":") + ("" + ("D27CDB6E-AE6D-11cf-96B8-444553540000" + ("" + "")))
  {
  }

  lemma Attributes147Target1TextPiece1()
    ensures "" + "clsid" + ":" == "clsid:"
  {
  }

  lemma Attributes147Target1TextPiece2()
    ensures "" + "D27CDB6E-AE6D-11cf-96B8-444553540000" + "" + "" == "D27CDB6E-AE6D-11cf-96B8-444553540000"
  {
  }

  lemma Attributes147Target1Text()
    ensures ("" + "clsid" + ":") + ("" + ("D27CDB6E-AE6D-11cf-96B8-444553540000" + ("" + ""))) == ("clsid:" + "D27CDB6E-AE6D-11cf-96B8-444553540000")
  {
    Attributes147Target1TextPiece1();
    Attributes147Target1TextPiece2();
    Assoc("D27CDB6E-AE6D-11cf-96B8-444553540000", "", "");
    Assoc("", "D27CDB6E-AE6D-11cf-96B8-444553540000" + "", "");
    Assoc("", "D27CDB6E-AE6D-11cf-96B8-444553540000", "");
    Assoc("" + "clsid" + ":", "" + "D27CDB6E-AE6D-11cf-96B8-444553540000" + "", "");
    Assoc("" + "clsid" + ":", "" + "D27CDB6E-AE6D-11cf-96B8-444553540000", "");
    Assoc("" + "clsid" + ":", "", "D27CDB6E-AE6D-11cf-96B8-444553540000");
    Assoc("" + "clsid" + ":", "" + "D27CDB6E-AE6D-11cf-96B8-444553540000" + "", "");
    Assoc("" + "clsid" + ":", "" + "D27CDB6E-AE6D-11cf-96B8-444553540000", "");
    Assoc("" + "clsid" + ":", "", "D27CDB6E-AE6D-11cf-96B8-444553540000");
  }

  lemma Attributes147Target1Recompose()
    ensures Recompose(Reference(Some("clsid"), None, "D27CDB6E-AE6D-11cf-96B8-444553540000", None, None)) == ("clsid:" + "D27CDB6E-AE6D-11cf-96B8-444553540000")
  {
    Attributes147Target1Unfold();
    Attributes147Target1Text();
  }

  lemma Attributes147Target1Trim()
    ensures Trim(("clsid:" + "D27CDB6E-AE6D-11cf-96B8-444553540000")) == ("clsid:" + "D27CDB6E-AE6D-11cf-96B8-444553540000")
  {
    TrimPlain(("clsid:" + "D27CDB6E-AE6D-11cf-96B8-444553540000"));
  }

  lemma Attributes147Target1()
    ensures !IsLocal(Target(Base, ("clsid:" + "D27CDB6E-AE6D-11cf-96B8-444553540000")), Host)
  {
    Attributes147Target1Reference();
    Attributes147Target1Recompose();
    Attributes147Target1Trim();
    ForeignTarget(("clsid:" + "D27CDB6E-AE6D-11cf-96B8-444553540000"), Reference(Some("clsid"), None, "D27CDB6E-AE6D-11cf-96B8-444553540000", None, None));
  }

  lemma Attributes147Target2Segment()
    ensures Segment("swflash.cab")
  {
    SegmentIntro("swflash.cab");
  }

  lemma Attributes147Target2Join()
    ensures "/" + "swflash.cab" + "#" + "version=9,0,28,0" == "/swflash.cab#version=9,0,28,0"
  {
  }

  lemma Attributes147Target2Trim()
    ensures Trim("/swflash.cab#version=9,0,28,0") == "/swflash.cab#version=9,0,28,0"
  {
    TrimPlain("/swflash.cab#version=9,0,28,0");
  }

  lemma Attributes147Target2Path()
    ensures "/" + "swflash.cab" == "/swflash.cab"
  {
  }

  lemma Attributes147Target2()
    ensures Target(Base, "/swflash.cab#version=9,0,28,0") == At("/swflash.cab")
  {
    Attributes147Target2Segment();
    Attributes147Target2Join();
    Attributes147Target2Trim();
    Attributes147Target2Path();
    RootFragmentTarget("/swflash.cab#version=9,0,28,0", "swflash.cab", "version=9,0,28,0");
  }

  /** an object whose class identifier has another scheme */
  lemma Attributes147()
    ensures Extract(Html, "<object" + " classid=\"" + ("clsid:" + "D27CDB6E-AE6D-11cf-96B8-444553540000") + "\"" + " codebase=\"" + "/swflash.cab#version=9,0,28,0" + "\">", Page, Host) == [Domain + "/swflash.cab"]
  {
    Attributes147Scan();
    Attributes147Target1();
    Attributes147Target2();
    ExtractSecond(Html, "<object" + " classid=\"" + ("clsid:" + "D27CDB6E-AE6D-11cf-96B8-444553540000") + "\"" + " codebase=\"" + "/swflash.cab#version=9,0,28,0" + "\">", ("clsid:" + "D27CDB6E-AE6D-11cf-96B8-444553540000"), "/swflash.cab#version=9,0,28,0", "/swflash.cab");
  }

  lemma Attributes149Run1()
    ensures "<" + "OBJECT" == "<OBJECT"
  {
  }

  lemma Attributes149Run2()
    ensures " " + "CLASSID" + "" + "=" + "" + ['"'] == " CLASSID=\""
  {
  }

  lemma Attributes149Run3()
    ensures " " + "CODETYPE" + "" + "=" + "" + ['"'] == " CODETYPE=\""
  {
  }

  lemma Attributes149Run4()
    ensures " " + "TITLE" + "" + "=" + "" + ['"'] == " TITLE=\""
  {
  }

  lemma Attributes149Run5()
    ensures "My Yahtzee Game" + ['"'] + ">" + "<" + "/" == "My Yahtzee Game\"></"
  {
  }

  lemma Attributes149Run6()
    ensures "OBJECT" + ">" == "OBJECT>"
  {
  }

  lemma Attributes149Text(u: string)
    ensures ("<" + ("OBJECT" + (((" " + ("CLASSID" + ("" + ("=" + ("" + (['"'] + u + ['"'])))))) + ((" " + ("CODETYPE" + ("" + ("=" + ("" + (['"'] + "application/x-python" + ['"'])))))) + (" " + ("TITLE" + ("" + ("=" + ("" + (['"'] + "My Yahtzee Game" + ['"'])))))))) + ">"))) + ("<" + ("/" + ("OBJECT" + ">")))
      == "<OBJECT" + " CLASSID=\"" + u + "\"" + " CODETYPE=\"" + "application/x-python" + "\"" + " TITLE=\"" + "My Yahtzee Game\"></" + "OBJECT>"
  {
    Attributes149Run1();
    Attributes149Run2();
    Attributes149Run3();
    Attributes149Run4();
    Attributes149Run5();
    Attributes149Run6();
    Assoc("", ['"'] + u, ['"']);
    Assoc("", ['"'], u);
    Assoc("=", "" + ['"'] + u, ['"']);
    Assoc("=", "" + ['"'], u);
    Assoc("=", "", ['"']);
    Assoc("", "=" + "" + ['"'] + u, ['"']);
    Assoc("", "=" + "" + ['"'], u);
    Assoc("", "=" + "", ['"']);
    Assoc("", "=", "");
    Assoc("CLASSID", "" + "=" + "" + ['"'] + u, ['"']);
    Assoc("CLASSID", "" + "=" + "" + ['"'], u);
    Assoc("CLASSID", "" + "=" + "", ['"']);
    Assoc("CLASSID", "" + "=", "");
    Assoc("CLASSID", "", "=");
    Assoc(" ", "CLASSID" + "" + "=" + "" + ['"'] + u, ['"']);
    Assoc(" ", "CLASSID" + "" + "=" + "" + ['"'], u);
    Assoc(" ", "CLASSID" + "" + "=" + "", ['"']);
    Assoc(" ", "CLASSID" + "" + "=", "");
    Assoc(" ", "CLASSID" + "", "=");
    Assoc(" ", "CLASSID", "");
    Assoc("", ['"'] + "application/x-python", ['"']);
    Assoc("", ['"'], "application/x-python");
    Assoc("=", "" + ['"'] + "application/x-python", ['"']);
    Assoc("=", "" + ['"'], "application/x-python");
    Assoc("=", "", ['"']);
    Assoc("", "=" + "" + ['"'] + "application/x-python", ['"']);
    Assoc("", "=" + "" + ['"'], "application/x-python");
    Assoc("", "=" + "", ['"']);
    Assoc("", "=", "");
    Assoc("CODETYPE", "" + "=" + "" + ['"'] + "application/x-python", ['"']);
    Assoc("CODETYPE", "" + "=" + "" + ['"'], "application/x-python");
    Assoc("CODETYPE", "" + "=" + "", ['"']);
    Assoc("CODETYPE", "" + "=", "");
    Assoc("CODETYPE", "", "=");
    Assoc(" ", "CODETYPE" + "" + "=" + "" + ['"'] + "application/x-python", ['"']);
    Assoc(" ", "CODETYPE" + "" + "=" + "" + ['"'], "application/x-python");
    Assoc(" ", "CODETYPE" + "" + "=" + "", ['"']);
    Assoc(" ", "CODETYPE" + "" + "=", "");
    Assoc(" ", "CODETYPE" + "", "=");
    Assoc(" ", "CODETYPE", "");
    Assoc("", ['"'] + "My Yahtzee Game", ['"']);
    Assoc("", ['"'], "My Yahtzee Game");
    Assoc("=", "" + ['"'] + "My Yahtzee Game", ['"']);
    Assoc("=", "" + ['"'], "My Yahtzee Game");
    Assoc("=", "", ['"']);
    Assoc("", "=" + "" + ['"'] + "My Yahtzee Game", ['"']);
    Assoc("", "=" + "" + ['"'], "My Yahtzee Game");
    Assoc("", "=" + "", ['"']);
    Assoc("", "=", "");
    Assoc("TITLE", "" + "=" + "" + ['"'] + "My Yahtzee Game", ['"']);
    Assoc("TITLE", "" + "=" + "" + ['"'], "My Yahtzee Game");
    Assoc("TITLE", "" + "=" + "", ['"']);
    Assoc("TITLE", "" + "=", "");
    Assoc("TITLE", "", "=");
    Assoc(" ", "TITLE" + "" + "=" + "" + ['"'] + "My Yahtzee Game", ['"']);
    Assoc(" ", "TITLE" + "" + "=" + "" + ['"'], "My Yahtzee Game");
    Assoc(" ", "TITLE" + "" + "=" + "", ['"']);
    Assoc(" ", "TITLE" + "" + "=", "");
    Assoc(" ", "TITLE" + "", "=");
    Assoc(" ", "TITLE", "");
    Assoc(" " + "CODETYPE" + "" + "=" + "" + ['"'] + "application/x-python" + ['"'], " " + "TITLE" + "" + "=" + "" + ['"'] + "My Yahtzee Game", ['"']);
    Assoc(" " + "CODETYPE" + "" + "=" + "" + ['"'] + "application/x-python" + ['"'], " " + "TITLE" + "" + "=" + "" + ['"'], "My Yahtzee Game");
    Assoc(" " + "CODETYPE" + "" + "=" + "" + ['"'] + "application/x-python" + ['"'], " " + "TITLE" + "" + "=" + "", ['"']);
    Assoc(" " + "CODETYPE" + "" + "=" + "" + ['"'] + "application/x-python" + ['"'], " " + "TITLE" + "" + "=", "");
    Assoc(" " + "CODETYPE" + "" + "=" + "" + ['"'] + "application/x-python" + ['"'], " " + "TITLE" + "", "=");
    Assoc(" " + "CODETYPE" + "" + "=" + "" + ['"'] + "application/x-python" + ['"'], " " + "TITLE", "");
    Assoc(" " + "CODETYPE" + "" + "=" + "" + ['"'] + "application/x-python" + ['"'], " ", "TITLE");
    Assoc(" " + "CLASSID" + "" + "=" + "" + ['"'] + u + ['"'], " " + "CODETYPE" + "" + "=" + "" + ['"'] + "application/x-python" + ['"'] + " " + "TITLE" + "" + "=" + "" + ['"'] + "My Yahtzee Game", ['"']);
    Assoc(" " + "CLASSID" + "" + "=" + "" + ['"'] + u + ['"'], " " + "CODETYPE" + "" + "=" + "" + ['"'] + "application/x-python" + ['"'] + " " + "TITLE" + "" + "=" + "" + ['"'], "My Yahtzee Game");
    Assoc(" " + "CLASSID" + "" + "=" + "" + ['"'] + u + ['"'], " " + "CODETYPE" + "" + "=" + "" + ['"'] + "application/x-python" + ['"'] + " " + "TITLE" + "" + "=" + "", ['"']);
    Assoc(" " + "CLASSID" + "" + "=" + "" + ['"'] + u + ['"'], " " + "CODETYPE" + "" + "=" + "" + ['"'] + "application/x-python" + ['"'] + " " + "TITLE" + "" + "=", "");
    Assoc(" " + "CLASSID" + "" + "=" + "" + ['"'] + u + ['"'], " " + "CODETYPE" + "" + "=" + "" + ['"'] + "application/x-python" + ['"'] + " " + "TITLE" + "", "=");
    Assoc(" " + "CLASSID" + "" + "=" + "" + ['"'] + u + ['"'], " " + "CODETYPE" + "" + "=" + "" + ['"'] + "application/x-python" + ['"'] + " " + "TITLE", "");
    Assoc(" " + "CLASSID" + "" + "=" + "" + ['"'] + u + ['"'], " " + "CODETYPE" + "" + "=" + "" + ['"'] + "application/x-python" + ['"'] + " ", "TITLE");
    Assoc(" " + "CLASSID" + "" + "=" + "" + ['"'] + u + ['"'], " " + "CODETYPE" + "" + "=" + "" + ['"'] + "application/x-python" + ['"'], " ");
    Assoc(" " + "CLASSID" + "" + "=" + "" + ['"'] + u + ['"'], " " + "CODETYPE" + "" + "=" + "" + ['"'] + "application/x-python", ['"']);
    Assoc(" " + "CLASSID" + "" + "=" + "" + ['"'] + u + ['"'], " " + "CODETYPE" + "" + "=" + "" + ['"'], "application/x-python");
    Assoc(" " + "CLASSID" + "" + "=" + "" + ['"'] + u + ['"'], " " + "CODETYPE" + "" + "=" + "", ['"']);
    Assoc(" " + "CLASSID" + "" + "=" + "" + ['"'] + u + ['"'], " " + "CODETYPE" + "" + "=", "");
    Assoc(" " + "CLASSID" + "" + "=" + "" + ['"'] + u + ['"'], " " + "CODETYPE" + "", "=");
    Assoc(" " + "CLASSID" + "" + "=" + "" + ['"'] + u + ['"'], " " + "CODETYPE", "");
    Assoc(" " + "CLASSID" + "" + "=" + "" + ['"'] + u + ['"'], " ", "CODETYPE");
    Assoc("OBJECT", " " + "CLASSID" + "" + "=" + "" + ['"'] + u + ['"'] + " " + "CODETYPE" + "" + "=" + "" + ['"'] + "application/x-python" + ['"'] + " " + "TITLE" + "" + "=" + "" + ['"'] + "My Yahtzee Game" + ['"'], ">");
    Assoc("OBJECT", " " + "CLASSID" + "" + "=" + "" + ['"'] + u + ['"'] + " " + "CODETYPE" + "" + "=" + "" + ['"'] + "application/x-python" + ['"'] + " " + "TITLE" + "" + "=" + "" + ['"'] + "My Yahtzee Game", ['"']);
    Assoc("OBJECT", " " + "CLASSID" + "" + "=" + "" + ['"'] + u + ['"'] + " " + "CODETYPE" + "" + "=" + "" + ['"'] + "application/x-python" + ['"'] + " " + "TITLE" + "" + "=" + "" + ['"'], "My Yahtzee Game");
    Assoc("OBJECT", " " + "CLASSID" + "" + "=" + "" + ['"'] + u + ['"'] + " " + "CODETYPE" + "" + "=" + "" + ['"'] + "application/x-python" + ['"'] + " " + "TITLE" + "" + "=" + "", ['"']);
    Assoc("OBJECT", " " + "CLASSID" + "" + "=" + "" + ['"'] + u + ['"'] + " " + "CODETYPE" + "" + "=" + "" + ['"'] + "application/x-python" + ['"'] + " " + "TITLE" + "" + "=", "");
    Assoc("OBJECT", " " + "CLASSID" + "" + "=" + "" + ['"'] + u + ['"'] + " " + "CODETYPE" + "" + "=" + "" + ['"'] + "application/x-python" + ['"'] + " " + "TITLE" + "", "=");
    Assoc("OBJECT", " " + "CLASSID" + "" + "=" + "" + ['"'] + u + ['"'] + " " + "CODETYPE" + "" + "=" + "" + ['"'] + "application/x-python" + ['"'] + " " + "TITLE", "");
    Assoc("OBJECT", " " + "CLASSID" + "" + "=" + "" + ['"'] + u + ['"'] + " " + "CODETYPE" + "" + "=" + "" + ['"'] + "application/x-python" + ['"'] + " ", "TITLE");
    Assoc("OBJECT", " " + "CLASSID" + "" + "=" + "" + ['"'] + u + ['"'] + " " + "CODETYPE" + "" + "=" + "" + ['"'] + "application/x-python" + ['"'], " ");
    Assoc("OBJECT", " " + "CLASSID" + "" + "=" + "" + ['"'] + u + ['"'] + " " + "CODETYPE" + "" + "=" + "" + ['"'] + "application/x-python", ['"']);
    Assoc("OBJECT", " " + "CLASSID" + "" + "=" + "" + ['"'] + u + ['"'] + " " + "CODETYPE" + "" + "=" + "" + ['"'], "application/x-python");
    Assoc("OBJECT", " " + "CLASSID" + "" + "=" + "" + ['"'] + u + ['"'] + " " + "CODETYPE" + "" + "=" + "", ['"']);
    Assoc("OBJECT", " " + "CLASSID" + "" + "=" + "" + ['"'] + u + ['"'] + " " + "CODETYPE" + "" + "=", "");
    Assoc("OBJECT", " " + "CLASSID" + "" + "=" + "" + ['"'] + u + ['"'] + " " + "CODETYPE" + "", "=");
    Assoc("OBJECT", " " + "CLASSID" + "" + "=" + "" + ['"'] + u + ['"'] + " " + "CODETYPE", "");
    Assoc("OBJECT", " " + "CLASSID" + "" + "=" + "" + ['"'] + u + ['"'] + " ", "CODETYPE");
    Assoc("OBJECT", " " + "CLASSID" + "" + "=" + "" + ['"'] + u + ['"'], " ");
    Assoc("OBJECT", " " + "CLASSID" + "" + "=" + "" + ['"'] + u, ['"']);
    Assoc("OBJECT", " " + "CLASSID" + "" + "=" + "" + ['"'], u);
    Assoc("OBJECT", " " + "CLASSID" + "" + "=" + "", ['"']);
    Assoc("OBJECT", " " + "CLASSID" + "" + "=", "");
    Assoc("OBJECT", " " + "CLASSID" + "", "=");
    Assoc("OBJECT", " " + "CLASSID", "");
    Assoc("OBJECT", " ", "CLASSID");
    Assoc("<", "OBJECT" + " " + "CLASSID" + "" + "=" + "" + ['"'] + u + ['"'] + " " + "CODETYPE" + "" + "=" + "" + ['"'] + "application/x-python" + ['"'] + " " + "TITLE" + "" + "=" + "" + ['"'] + "My Yahtzee Game" + ['"'], ">");
    Assoc("<", "OBJECT" + " " + "CLASSID" + "" + "=" + "" + ['"'] + u + ['"'] + " " + "CODETYPE" + "" + "=" + "" + ['"'] + "application/x-python" + ['"'] + " " + "TITLE" + "" + "=" + "" + ['"'] + "My Yahtzee Game", ['"']);
    Assoc("<", "OBJECT" + " " + "CLASSID" + "" + "=" + "" + ['"'] + u + ['"'] + " " + "CODETYPE" + "" + "=" + "" + ['"'] + "application/x-python" + ['"'] + " " + "TITLE" + "" + "=" + "" + ['"'], "My Yahtzee Game");
    Assoc("<", "OBJECT" + " " + "CLASSID" + "" + "=" + "" + ['"'] + u + ['"'] + " " + "CODETYPE" + "" + "=" + "" + ['"'] + "application/x-python" + ['"'] + " " + "TITLE" + "" + "=" + "", ['"']);
    Assoc("<", "OBJECT" + " " + "CLASSID" + "" + "=" + "" + ['"'] + u + ['"'] + " " + "CODETYPE" + "" + "=" + "" + ['"'] + "application/x-python" + ['"'] + " " + "TITLE" + "" + "=", "");
    Assoc("<", "OBJECT" + " " + "CLASSID" + "" + "=" + "" + ['"'] + u + ['"'] + " " + "CODETYPE" + "" + "=" + "" + ['"'] + "application/x-python" + ['"'] + " " + "TITLE" + "", "=");
    Assoc("<", "OBJECT" + " " + "CLASSID" + "" + "=" + "" + ['"'] + u + ['"'] + " " + "CODETYPE" + "" + "=" + "" + ['"'] + "application/x-python" + ['"'] + " " + "TITLE", "");
    Assoc("<", "OBJECT" + " " + "CLASSID" + "" + "=" + "" + ['"'] + u + ['"'] + " " + "CODETYPE" + "" + "=" + "" + ['"'] + "application/x-python" + ['"'] + " ", "TITLE");
    Assoc("<", "OBJECT" + " " + "CLASSID" + "" + "=" + "" + ['"'] + u + ['"'] + " " + "CODETYPE" + "" + "=" + "" + ['"'] + "application/x-python" + ['"'], " ");
    Assoc("<", "OBJECT" + " " + "CLASSID" + "" + "=" + "" + ['"'] + u + ['"'] + " " + "CODETYPE" + "" + "=" + "" + ['"'] + "application/x-python", ['"']);
    Assoc("<", "OBJECT" + " " + "CLASSID" + "" + "=" + "" + ['"'] + u + ['"'] + " " + "CODETYPE" + "" + "=" + "" + ['"'], "application/x-python");
    Assoc("<", "OBJECT" + " " + "CLASSID" + "" + "=" + "" + ['"'] + u + ['"'] + " " + "CODETYPE" + "" + "=" + "", ['"']);
    Assoc("<", "OBJECT" + " " + "CLASSID" + "" + "=" + "" + ['"'] + u + ['"'] + " " + "CODETYPE" + "" + "=", "");
    Assoc("<", "OBJECT" + " " + "CLASSID" + "" + "=" + "" + ['"'] + u + ['"'] + " " + "CODETYPE" + "", "=");
    Assoc("<", "OBJECT" + " " + "CLASSID" + "" + "=" + "" + ['"'] + u + ['"'] + " " + "CODETYPE", "");
    Assoc("<", "OBJECT" + " " + "CLASSID" + "" + "=" + "" + ['"'] + u + ['"'] + " ", "CODETYPE");
    Assoc("<", "OBJECT" + " " + "CLASSID" + "" + "=" + "" + ['"'] + u + ['"'], " ");
    Assoc("<", "OBJECT" + " " + "CLASSID" + "" + "=" + "" + ['"'] + u, ['"']);
    Assoc("<", "OBJECT" + " " + "CLASSID" + "" + "=" + "" + ['"'], u);
    Assoc("<", "OBJECT" + " " + "CLASSID" + "" + "=" + "", ['"']);
    Assoc("<", "OBJECT" + " " + "CLASSID" + "" + "=", "");
    Assoc("<", "OBJECT" + " " + "CLASSID" + "", "=");
    Assoc("<", "OBJECT" + " " + "CLASSID", "");
    Assoc("<", "OBJECT" + " ", "CLASSID");
    Assoc("<", "OBJECT", " ");
    Assoc("/", "OBJECT", ">");
    Assoc("<", "/" + "OBJECT", ">");
    Assoc("<", "/", "OBJECT");
    Assoc("<" + "OBJECT" + " " + "CLASSID" + "" + "=" + "" + ['"'] + u + ['"'] + " " + "CODETYPE" + "" + "=" + "" + ['"'] + "application/x-python" + ['"'] + " " + "TITLE" + "" + "=" + "" + ['"'] + "My Yahtzee Game" + ['"'] + ">", "<" + "/" + "OBJECT", ">");
    Assoc("<" + "OBJECT" + " " + "CLASSID" + "" + "=" + "" + ['"'] + u + ['"'] + " " + "CODETYPE" + "" + "=" + "" + ['"'] + "application/x-python" + ['"'] + " " + "TITLE" + "" + "=" + "" + ['"'] + "My Yahtzee Game" + ['"'] + ">", "<" + "/", "OBJECT");
    Assoc("<" + "OBJECT" + " " + "CLASSID" + "" + "=" + "" + ['"'] + u + ['"'] + " " + "CODETYPE" + "" + "=" + "" + ['"'] + "application/x-python" + ['"'] + " " + "TITLE" + "" + "=" + "" + ['"'] + "My Yahtzee Game" + ['"'] + ">", "<", "/");
    Assoc("<" + "OBJECT", " " + "CLASSID" + "" + "=" + "", ['"']);
    Assoc("<" + "OBJECT", " " + "CLASSID" + "" + "=", "");
    Assoc("<" + "OBJECT", " " + "CLASSID" + "", "=");
    Assoc("<" + "OBJECT", " " + "CLASSID", "");
    Assoc("<" + "OBJECT", " ", "CLASSID");
    Assoc("<" + "OBJECT" + " " + "CLASSID" + "" + "=" + "" + ['"'] + u + ['"'], " " + "CODETYPE" + "" + "=" + "", ['"']);
    Assoc("<" + "OBJECT" + " " + "CLASSID" + "" + "=" + "" + ['"'] + u + ['"'], " " + "CODETYPE" + "" + "=", "");
    Assoc("<" + "OBJECT" + " " + "CLASSID" + "" + "=" + "" + ['"'] + u + ['"'], " " + "CODETYPE" + "", "=");
    Assoc("<" + "OBJECT" + " " + "CLASSID" + "" + "=" + "" + ['"'] + u + ['"'], " " + "CODETYPE", "");
    Assoc("<" + "OBJECT" + " " + "CLASSID" + "" + "=" + "" + ['"'] + u + ['"'], " ", "CODETYPE");
    Assoc("<" + "OBJECT" + " " + "CLASSID" + "" + "=" + "" + ['"'] + u + ['"'] + " " + "CODETYPE" + "" + "=" + "" + ['"'] + "application/x-python" + ['"'], " " + "TITLE" + "" + "=" + "", ['"']);
    Assoc("<" + "OBJECT" + " " + "CLASSID" + "" + "=" + "" + ['"'] + u + ['"'] + " " + "CODETYPE" + "" + "=" + "" + ['"'] + "application/x-python" + ['"'], " " + "TITLE" + "" + "=", "");
    Assoc("<" + "OBJECT" + " " + "CLASSID" + "" + "=" + "" + ['"'] + u + ['"'] + " " + "CODETYPE" + "" + "=" + "" + ['"'] + "application/x-python" + ['"'], " " + "TITLE" + "", "=");
    Assoc("<" + "OBJECT" + " " + "CLASSID" + "" + "=" + "" + ['"'] + u + ['"'] + " " + "CODETYPE" + "" + "=" + "" + ['"'] + "application/x-python" + ['"'], " " + "TITLE", "");
    Assoc("<" + "OBJECT" + " " + "CLASSID" + "" + "=" + "" + ['"'] + u + ['"'] + " " + "CODETYPE" + "" + "=" + "" + ['"'] + "application/x-python" + ['"'], " ", "TITLE");
    Assoc("<" + "OBJECT" + " " + "CLASSID" + "" + "=" + "" + ['"'] + u + ['"'] + " " + "CODETYPE" + "" + "=" + "" + ['"'] + "application/x-python" + ['"'] + " " + "TITLE" + "" + "=" + "" + ['"'], "My Yahtzee Game" + ['"'] + ">" + "<", "/");
    Assoc("<" + "OBJECT" + " " + "CLASSID" + "" + "=" + "" + ['"'] + u + ['"'] + " " + "CODETYPE" + "" + "=" + "" + ['"'] + "application/x-python" + ['"'] + " " + "TITLE" + "" + "=" + "" + ['"'], "My Yahtzee Game" + ['"'] + ">", "<");
    Assoc("<" + "OBJECT" + " " + "CLASSID" + "" + "=" + "" + ['"'] + u + ['"'] + " " + "CODETYPE" + "" + "=" + "" + ['"'] + "application/x-python" + ['"'] + " " + "TITLE" + "" + "=" + "" + ['"'], "My Yahtzee Game" + ['"'], ">");
    Assoc("<" + "OBJECT" + " " + "CLASSID" + "" + "=" + "" + ['"'] + u + ['"'] + " " + "CODETYPE" + "" + "=" + "" + ['"'] + "application/x-python" + ['"'] + " " + "TITLE" + "" + "=" + "" + ['"'], "My Yahtzee Game", ['"']);
    Assoc("<" + "OBJECT" + " " + "CLASSID" + "" + "=" + "" + ['"'] + u + ['"'] + " " + "CODETYPE" + "" + "=" + "" + ['"'] + "application/x-python" + ['"'] + " " + "TITLE" + "" + "=" + "" + ['"'] + "My Yahtzee Game" + ['"'] + ">" + "<" + "/", "OBJECT", ">");
  }

  lemma Attributes149Render(u: string)
    ensures RenderNode(Element("OBJECT", [Attribute(" ", "CLASSID", Some(Assignment("", "", QuotedValue('"', u)))), Attribute(" ", "CODETYPE", Some(Assignment("", "", QuotedValue('"', "application/x-python")))), Attribute(" ", "TITLE", Some(Assignment("", "", QuotedValue('"', "My Yahtzee Game"))))], false)) + RenderNode(EndTag("OBJECT"))
      == "<OBJECT" + " CLASSID=\"" + u + "\"" + " CODETYPE=\"" + "application/x-python" + "\"" + " TITLE=\"" + "My Yahtzee Game\"></" + "OBJECT>"
  {
    Attributes3(Attribute(" ", "CLASSID", Some(Assignment("", "", QuotedValue('"', u)))), Attribute(" ", "CODETYPE", Some(Assignment("", "", QuotedValue('"', "application/x-python")))), Attribute(" ", "TITLE", Some(Assignment("", "", QuotedValue('"', "My Yahtzee Game")))));
    assert RenderAttribute(Attribute(" ", "CLASSID", Some(Assignment("", "", QuotedValue('"', u))))) == " " + ("CLASSID" + ("" + ("=" + ("" + (['"'] + u + ['"'])))));
    assert RenderAttribute(Attribute(" ", "CODETYPE", Some(Assignment("", "", QuotedValue('"', "application/x-python"))))) == " " + ("CODETYPE" + ("" + ("=" + ("" + (['"'] + "application/x-python" + ['"'])))));
    assert RenderAttribute(Attribute(" ", "TITLE", Some(Assignment("", "", QuotedValue('"', "My Yahtzee Game"))))) == " " + ("TITLE" + ("" + ("=" + ("" + (['"'] + "My Yahtzee Game" + ['"'])))));
    assert RenderNode(Element("OBJECT", [Attribute(" ", "CLASSID", Some(Assignment("", "", QuotedValue('"', u)))), Attribute(" ", "CODETYPE", Some(Assignment("", "", QuotedValue('"', "application/x-python")))), Attribute(" ", "TITLE", Some(Assignment("", "", QuotedValue('"', "My Yahtzee Game"))))], false)) == "<" + ("OBJECT" + (((" " + ("CLASSID" + ("" + ("=" + ("" + (['"'] + u + ['"'])))))) + ((" " + ("CODETYPE" + ("" + ("=" + ("" + (['"'] + "application/x-python" + ['"'])))))) + (" " + ("TITLE" + ("" + ("=" + ("" + (['"'] + "My Yahtzee Game" + ['"'])))))))) + ">"));
    assert RenderNode(EndTag("OBJECT")) == "<" + ("/" + ("OBJECT" + ">"));
    Attributes149Text(u);
  }

  lemma Attributes149Attribute1Value()
    ensures '"' !in "/yahtzee.py"
  {
  }

  lemma Attributes149Attribute1()
    ensures AttributeWellFormed(Attribute(" ", "CLASSID", Some(Assignment("", "", QuotedValue('"', "/yahtzee.py")))))
  {
    AttributeCLASSID();
    Attributes149Attribute1Value();
    QuotedAttributeWellFormed(" ", "CLASSID", "", "", '"', "/yahtzee.py");
  }

  lemma Attributes149Attribute2Value()
    ensures '"' !in "application/x-python"
  {
  }

  lemma Attributes149Attribute2()
    ensures AttributeWellFormed(Attribute(" ", "CODETYPE", Some(Assignment("", "", QuotedValue('"', "application/x-python")))))
  {
    AttributeCODETYPE();
    Attributes149Attribute2Value();
    QuotedAttributeWellFormed(" ", "CODETYPE", "", "", '"', "application/x-python");
  }

  lemma Attributes149Attribute3Value()
    ensures '"' !in "My Yahtzee Game"
  {
  }

  lemma Attributes149Attribute3()
    ensures AttributeWellFormed(Attribute(" ", "TITLE", Some(Assignment("", "", QuotedValue('"', "My Yahtzee Game")))))
  {
    AttributeTITLE();
    Attributes149Attribute3Value();
    QuotedAttributeWellFormed(" ", "TITLE", "", "", '"', "My Yahtzee Game");
  }

  lemma Attributes149Node1()
    ensures NodeWellFormed(Element("OBJECT", [Attribute(" ", "CLASSID", Some(Assignment("", "", QuotedValue('"', "/yahtzee.py")))), Attribute(" ", "CODETYPE", Some(Assignment("", "", QuotedValue('"', "application/x-python")))), Attribute(" ", "TITLE", Some(Assignment("", "", QuotedValue('"', "My Yahtzee Game"))))], false))
  {
    TagOBJECT();
    Attributes149Attribute1();
    Attributes149Attribute2();
    Attributes149Attribute3();
    Attributes3(Attribute(" ", "CLASSID", Some(Assignment("", "", QuotedValue('"', "/yahtzee.py")))), Attribute(" ", "CODETYPE", Some(Assignment("", "", QuotedValue('"', "application/x-python")))), Attribute(" ", "TITLE", Some(Assignment("", "", QuotedValue('"', "My Yahtzee Game")))));
  }

  lemma Attributes149Node2()
    ensures NodeWellFormed(EndTag("OBJECT"))
  {
  }

  lemma Attributes149WellFormed()
    ensures NodeWellFormed(Element("OBJECT", [Attribute(" ", "CLASSID", Some(Assignment("", "", QuotedValue('"', "/yahtzee.py")))), Attribute(" ", "CODETYPE", Some(Assignment("", "", QuotedValue('"', "application/x-python")))), Attribute(" ", "TITLE", Some(Assignment("", "", QuotedValue('"', "My Yahtzee Game"))))], false)) && NodeWellFormed(EndTag("OBJECT"))
  {
    Attributes149Node1();
    Attributes149Node2();
  }

  lemma Attributes149Refs()
    ensures NodeRefs(Element("OBJECT", [Attribute(" ", "CLASSID", Some(Assignment("", "", QuotedValue('"', "/yahtzee.py")))), Attribute(" ", "CODETYPE", Some(Assignment("", "", QuotedValue('"', "application/x-python")))), Attribute(" ", "TITLE", Some(Assignment("", "", QuotedValue('"', "My Yahtzee Game"))))], false)) + NodeRefs(EndTag("OBJECT")) == ["/yahtzee.py"]
  {
    Attributes3(Attribute(" ", "CLASSID", Some(Assignment("", "", QuotedValue('"', "/yahtzee.py")))), Attribute(" ", "CODETYPE", Some(Assignment("", "", QuotedValue('"', "application/x-python")))), Attribute(" ", "TITLE", Some(Assignment("", "", QuotedValue('"', "My Yahtzee Game")))));
    AttributeCLASSID();
    UrlAttribute(Attribute(" ", "CLASSID", Some(Assignment("", "", QuotedValue('"', "/yahtzee.py")))));
    AttributeCODETYPE();
    OtherAttribute(Attribute(" ", "CODETYPE", Some(Assignment("", "", QuotedValue('"', "application/x-python")))));
    AttributeTITLE();
    OtherAttribute(Attribute(" ", "TITLE", Some(Assignment("", "", QuotedValue('"', "My Yahtzee Game")))));
  }

  lemma Attributes149Scan()
    ensures RawReferences(Html, "<OBJECT" + " CLASSID=\"" + "/yahtzee.py" + "\"" + " CODETYPE=\"" + "application/x-python" + "\"" + " TITLE=\"" + "My Yahtzee Game\"></" + "OBJECT>") == ["/yahtzee.py"]
  {
    Attributes149Render("/yahtzee.py");
    Attributes149WellFormed();
    Attributes149Refs();
    Document2(Element("OBJECT", [Attribute(" ", "CLASSID", Some(Assignment("", "", QuotedValue('"', "/yahtzee.py")))), Attribute(" ", "CODETYPE", Some(Assignment("", "", QuotedValue('"', "application/x-python")))), Attribute(" ", "TITLE", Some(Assignment("", "", QuotedValue('"', "My Yahtzee Game"))))], false), EndTag("OBJECT"));
  }

  lemma Attributes149TargetSegment()
    ensures Segment("yahtzee.py")
  {
    SegmentIntro("yahtzee.py");
  }

  lemma Attributes149TargetJoin()
    ensures "/" + "yahtzee.py" == "/yahtzee.py"
  {
  }

  lemma Attributes149TargetTrim()
    ensures Trim("/yahtzee.py") == "/yahtzee.py"
  {
    TrimPlain("/yahtzee.py");
  }

  lemma Attributes149Target()
    ensures Target(Base, "/yahtzee.py") == At("/yahtzee.py")
  {
    Attributes149TargetSegment();
    Attributes149TargetJoin();
    Attributes149TargetTrim();
    RootTarget("/yahtzee.py", "yahtzee.py");
  }

  /** <OBJECT CLASSID="/yahtzee.py" CODETYPE="application/x-python" TITLE="My Yahtzee Game"></OBJECT> */
  lemma Attributes149()
    ensures Extract(Html, "<OBJECT" + " CLASSID=\"" + "/yahtzee.py" + "\"" + " CODETYPE=\"" + "application/x-python" + "\"" + " TITLE=\"" + "My Yahtzee Game\"></" + "OBJECT>", Page, Host) == [Domain + "/yahtzee.py"]
  {
    Attributes149Scan();
    Attributes149Target();
    ExtractOne(Html, "<OBJECT" + " CLASSID=\"" + "/yahtzee.py" + "\"" + " CODETYPE=\"" + "application/x-python" + "\"" + " TITLE=\"" + "My Yahtzee Game\"></" + "OBJECT>", "/yahtzee.py", "/yahtzee.py");
  }

  lemma Attributes151Run1()
    ensures "<" + "video" == "<video"
  {
  }

  lemma Attributes151Run2()
    ensures " " + "controls" + "" == " controls"
  {
  }

  lemma Attributes151Run3()
    ensures " " + "src" + "" + "=" + "" + ['"'] == " src=\""
  {
  }

  lemma Attributes151Run4()
    ensures " " + "poster" + "" + "=" + "" + ['"'] == " poster=\""
  {
  }

  lemma Attributes151Run5()
    ensures ['"'] + ">" + "<" + "/" + "video" + ">" == "\"></video>"
  {
  }

  lemma Attributes151Text(u1: string, u2: string)
    ensures ("<" + ("video" + (((" " + ("controls" + (""))) + ((" " + ("src" + ("" + ("=" + ("" + (['"'] + u1 + ['"'])))))) + (" " + ("poster" + ("" + ("=" + ("" + (['"'] + u2 + ['"'])))))))) + ">"))) + ("<" + ("/" + ("video" + ">")))
      == "<video" + " controls" + " src=\"" + u1 + "\"" + " poster=\"" + u2 + "\"></video>"
  {
    Attributes151Run1();
    Attributes151Run2();
    Attributes151Run3();
    Attributes151Run4();
    Attributes151Run5();
    Assoc(" ", "controls", "");
    Assoc("", ['"'] + u1, ['"']);
    Assoc("", ['"'], u1);
    Assoc("=", "" + ['"'] + u1, ['"']);
    Assoc("=", "" + ['"'], u1);
    Assoc("=", "", ['"']);
    Assoc("", "=" + "" + ['"'] + u1, ['"']);
    Assoc("", "=" + "" + ['"'], u1);
    Assoc("", "=" + "", ['"']);
    Assoc("", "=", "");
    Assoc("src", "" + "=" + "" + ['"'] + u1, ['"']);
    Assoc("src", "" + "=" + "" + ['"'], u1);
    Assoc("src", "" + "=" + "", ['"']);
    Assoc("src", "" + "=", "");
    Assoc("src", "", "=");
    Assoc(" ", "src" + "" + "=" + "" + ['"'] + u1, ['"']);
    Assoc(" ", "src" + "" + "=" + "" + ['"'], u1);
    Assoc(" ", "src" + "" + "=" + "", ['"']);
    Assoc(" ", "src" + "" + "=", "");
    Assoc(" ", "src" + "", "=");
    Assoc(" ", "src", "");
    Assoc("", ['"'] + u2, ['"']);
    Assoc("", ['"'], u2);
    Assoc("=", "" + ['"'] + u2, ['"']);
    Assoc("=", "" + ['"'], u2);
    Assoc("=", "", ['"']);
    Assoc("", "=" + "" + ['"'] + u2, ['"']);
    Assoc("", "=" + "" + ['"'], u2);
    Assoc("", "=" + "", ['"']);
    Assoc("", "=", "");
    Assoc("poster", "" + "=" + "" + ['"'] + u2, ['"']);
    Assoc("poster", "" + "=" + "" + ['"'], u2);
    Assoc("poster", "" + "=" + "", ['"']);
    Assoc("poster", "" + "=", "");
    Assoc("poster", "", "=");
    Assoc(" ", "poster" + "" + "=" + "" + ['"'] + u2, ['"']);
    Assoc(" ", "poster" + "" + "=" + "" + ['"'], u2);
    Assoc(" ", "poster" + "" + "=" + "", ['"']);
    Assoc(" ", "poster" + "" + "=", "");
    Assoc(" ", "poster" + "", "=");
    Assoc(" ", "poster", "");
    Assoc(" " + "src" + "" + "=" + "" + ['"'] + u1 + ['"'], " " + "poster" + "" + "=" + "" + ['"'] + u2, ['"']);
    Assoc(" " + "src" + "" + "=" + "" + ['"'] + u1 + ['"'], " " + "poster" + "" + "=" + "" + ['"'], u2);
    Assoc(" " + "src" + "" + "=" + "" + ['"'] + u1 + ['"'], " " + "poster" + "" + "=" + "", ['"']);
    Assoc(" " + "src" + "" + "=" + "" + ['"'] + u1 + ['"'], " " + "poster" + "" + "=", "");
    Assoc(" " + "src" + "" + "=" + "" + ['"'] + u1 + ['"'], " " + "poster" + "", "=");
    Assoc(" " + "src" + "" + "=" + "" + ['"'] + u1 + ['"'], " " + "poster", "");
    Assoc(" " + "src" + "" + "=" + "" + ['"'] + u1 + ['"'], " ", "poster");
    Assoc(" " + "controls" + "", " " + "src" + "" + "=" + "" + ['"'] + u1 + ['"'] + " " + "poster" + "" + "=" + "" + ['"'] + u2, ['"']);
    Assoc(" " + "controls" + "", " " + "src" + "" + "=" + "" + ['"'] + u1 + ['"'] + " " + "poster" + "" + "=" + "" + ['"'], u2);
    Assoc(" " + "controls" + "", " " + "src" + "" + "=" + "" + ['"'] + u1 + ['"'] + " " + "poster" + "" + "=" + "", ['"']);
    Assoc(" " + "controls" + "", " " + "src" + "" + "=" + "" + ['"'] + u1 + ['"'] + " " + "poster" + "" + "=", "");
    Assoc(" " + "controls" + "", " " + "src" + "" + "=" + "" + ['"'] + u1 + ['"'] + " " + "poster" + "", "=");
    Assoc(" " + "controls" + "", " " + "src" + "" + "=" + "" + ['"'] + u1 + ['"'] + " " + "poster", "");
    Assoc(" " + "controls" + "", " " + "src" + "" + "=" + "" + ['"'] + u1 + ['"'] + " ", "poster");
    Assoc(" " + "controls" + "", " " + "src" + "" + "=" + "" + ['"'] + u1 + ['"'], " ");
    Assoc(" " + "controls" + "", " " + "src" + "" + "=" + "" + ['"'] + u1, ['"']);
    Assoc(" " + "controls" + "", " " + "src" + "" + "=" + "" + ['"'], u1);
    Assoc(" " + "controls" + "", " " + "src" + "" + "=" + "", ['"']);
    Assoc(" " + "controls" + "", " " + "src" + "" + "=", "");
    Assoc(" " + "controls" + "", " " + "src" + "", "=");
    Assoc(" " + "controls" + "", " " + "src", "");
    Assoc(" " + "controls" + "", " ", "src");
    Assoc("video", " " + "controls" + "" + " " + "src" + "" + "=" + "" + ['"'] + u1 + ['"'] + " " + "poster" + "" + "=" + "" + ['"'] + u2 + ['"'], ">");
    Assoc("video", " " + "controls" + "" + " " + "src" + "" + "=" + "" + ['"'] + u1 + ['"'] + " " + "poster" + "" + "=" + "" + ['"'] + u2, ['"']);
    Assoc("video", " " + "controls" + "" + " " + "src" + "" + "=" + "" + ['"'] + u1 + ['"'] + " " + "poster" + "" + "=" + "" + ['"'], u2);
    Assoc("video", " " + "controls" + "" + " " + "src" + "" + "=" + "" + ['"'] + u1 + ['"'] + " " + "poster" + "" + "=" + "", ['"']);
    Assoc("video", " " + "controls" + "" + " " + "src" + "" + "=" + "" + ['"'] + u1 + ['"'] + " " + "poster" + "" + "=", "");
    Assoc("video", " " + "controls" + "" + " " + "src" + "" + "=" + "" + ['"'] + u1 + ['"'] + " " + "poster" + "", "=");
    Assoc("video", " " + "controls" + "" + " " + "src" + "" + "=" + "" + ['"'] + u1 + ['"'] + " " + "poster", "");
    Assoc("video", " " + "controls" + "" + " " + "src" + "" + "=" + "" + ['"'] + u1 + ['"'] + " ", "poster");
    Assoc("video", " " + "controls" + "" + " " + "src" + "" + "=" + "" + ['"'] + u1 + ['"'], " ");
    Assoc("video", " " + "controls" + "" + " " + "src" + "" + "=" + "" + ['"'] + u1, ['"']);
    Assoc("video", " " + "controls" + "" + " " + "src" + "" + "=" + "" + ['"'], u1);
    Assoc("video", " " + "controls" + "" + " " + "src" + "" + "=" + "", ['"']);
    Assoc("video", " " + "controls" + "" + " " + "src" + "" + "=", "");
    Assoc("video", " " + "controls" + "" + " " + "src" + "", "=");
    Assoc("video", " " + "controls" + "" + " " + "src", "");
    Assoc("video", " " + "controls" + "" + " ", "src");
    Assoc("video", " " + "controls" + "", " ");
    Assoc("video", " " + "controls", "");
    Assoc("video", " ", "controls");
    Assoc("<", "video" + " " + "controls" + "" + " " + "src" + "" + "=" + "" + ['"'] + u1 + ['"'] + " " + "poster" + "" + "=" + "" + ['"'] + u2 + ['"'], ">");
    Assoc("<", "video" + " " + "controls" + "" + " " + "src" + "" + "=" + "" + ['"'] + u1 + ['"'] + " " + "poster" + "" + "=" + "" + ['"'] + u2, ['"']);
    Assoc("<", "video" + " " + "controls" + "" + " " + "src" + "" + "=" + "" + ['"'] + u1 + ['"'] + " " + "poster" + "" + "=" + "" + ['"'], u2);
    Assoc("<", "video" + " " + "controls" + "" + " " + "src" + "" + "=" + "" + ['"'] + u1 + ['"'] + " " + "poster" + "" + "=" + "", ['"']);
    Assoc("<", "video" + " " + "controls" + "" + " " + "src" + "" + "=" + "" + ['"'] + u1 + ['"'] + " " + "poster" + "" + "=", "");
    Assoc("<", "video" + " " + "controls" + "" + " " + "src" + "" + "=" + "" + ['"'] + u1 + ['"'] + " " + "poster" + "", "=");
    Assoc("<", "video" + " " + "controls" + "" + " " + "src" + "" + "=" + "" + ['"'] + u1 + ['"'] + " " + "poster", "");
    Assoc("<", "video" + " " + "controls" + "" + " " + "src" + "" + "=" + "" + ['"'] + u1 + ['"'] + " ", "poster");
    Assoc("<", "video" + " " + "controls" + "" + " " + "src" + "" + "=" + "" + ['"'] + u1 + ['"'], " ");
    Assoc("<", "video" + " " + "controls" + "" + " " + "src" + "" + "=" + "" + ['"'] + u1, ['"']);
    Assoc("<", "video" + " " + "controls" + "" + " " + "src" + "" + "=" + "" + ['"'], u1);
    Assoc("<", "video" + " " + "controls" + "" + " " + "src" + "" + "=" + "", ['"']);
    Assoc("<", "video" + " " + "controls" + "" + " " + "src" + "" + "=", "");
    Assoc("<", "video" + " " + "controls" + "" + " " + "src" + "", "=");
    Assoc("<", "video" + " " + "controls" + "" + " " + "src", "");
    Assoc("<", "video" + " " + "controls" + "" + " ", "src");
    Assoc("<", "video" + " " + "controls" + "", " ");
    Assoc("<", "video" + " " + "controls", "");
    Assoc("<", "video" + " ", "controls");
    Assoc("<", "video", " ");
    Assoc("/", "video", ">");
    Assoc("<", "/" + "video", ">");
    Assoc("<", "/", "video");
    Assoc("<" + "video" + " " + "controls" + "" + " " + "src" + "" + "=" + "" + ['"'] + u1 + ['"'] + " " + "poster" + "" + "=" + "" + ['"'] + u2 + ['"'] + ">", "<" + "/" + "video", ">");
    Assoc("<" + "video" + " " + "controls" + "" + " " + "src" + "" + "=" + "" + ['"'] + u1 + ['"'] + " " + "poster" + "" + "=" + "" + ['"'] + u2 + ['"'] + ">", "<" + "/", "video");
    Assoc("<" + "video" + " " + "controls" + "" + " " + "src" + "" + "=" + "" + ['"'] + u1 + ['"'] + " " + "poster" + "" + "=" + "" + ['"'] + u2 + ['"'] + ">", "<", "/");
    Assoc("<" + "video", " " + "controls", "");
    Assoc("<" + "video", " ", "controls");
    Assoc("<" + "video" + " " + "controls" + "", " " + "src" + "" + "=" + "", ['"']);
    Assoc("<" + "video" + " " + "controls" + "", " " + "src" + "" + "=", "");
    Assoc("<" + "video" + " " + "controls" + "", " " + "src" + "", "=");
    Assoc("<" + "video" + " " + "controls" + "", " " + "src", "");
    Assoc("<" + "video" + " " + "controls" + "", " ", "src");
    Assoc("<" + "video" + " " + "controls" + "" + " " + "src" + "" + "=" + "" + ['"'] + u1 + ['"'], " " + "poster" + "" + "=" + "", ['"']);
    Assoc("<" + "video" + " " + "controls" + "" + " " + "src" + "" + "=" + "" + ['"'] + u1 + ['"'], " " + "poster" + "" + "=", "");
    Assoc("<" + "video" + " " + "controls" + "" + " " + "src" + "" + "=" + "" + ['"'] + u1 + ['"'], " " + "poster" + "", "=");
    Assoc("<" + "video" + " " + "controls" + "" + " " + "src" + "" + "=" + "" + ['"'] + u1 + ['"'], " " + "poster", "");
    Assoc("<" + "video" + " " + "controls" + "" + " " + "src" + "" + "=" + "" + ['"'] + u1 + ['"'], " ", "poster");
    Assoc("<" + "video" + " " + "controls" + "" + " " + "src" + "" + "=" + "" + ['"'] + u1 + ['"'] + " " + "poster" + "" + "=" + "" + ['"'] + u2, ['"'] + ">" + "<" + "/" + "video", ">");
    Assoc("<" + "video" + " " + "controls" + "" + " " + "src" + "" + "=" + "" + ['"'] + u1 + ['"'] + " " + "poster" + "" + "=" + "" + ['"'] + u2, ['"'] + ">" + "<" + "/", "video");
    Assoc("<" + "video" + " " + "controls" + "" + " " + "src" + "" + "=" + "" + ['"'] + u1 + ['"'] + " " + "poster" + "" + "=" + "" + ['"'] + u2, ['"'] + ">" + "<", "/");
    Assoc("<" + "video" + " " + "controls" + "" + " " + "src" + "" + "=" + "" + ['"'] + u1 + ['"'] + " " + "poster" + "" + "=" + "" + ['"'] + u2, ['"'] + ">", "<");
    Assoc("<" + "video" + " " + "controls" + "" + " " + "src" + "" + "=" + "" + ['"'] + u1 + ['"'] + " " + "poster" + "" + "=" + "" + ['"'] + u2, ['"'], ">");
  }

  lemma Attributes151Render(u1: string, u2: string)
    ensures RenderNode(Element("video", [Attribute(" ", "controls", None), Attribute(" ", "src", Some(Assignment("", "", QuotedValue('"', u1)))), Attribute(" ", "poster", Some(Assignment("", "", QuotedValue('"', u2))))], false)) + RenderNode(EndTag("video"))
      == "<video" + " controls" + " src=\"" + u1 + "\"" + " poster=\"" + u2 + "\"></video>"
  {
    Attributes3(Attribute(" ", "controls", None), Attribute(" ", "src", Some(Assignment("", "", QuotedValue('"', u1)))), Attribute(" ", "poster", Some(Assignment("", "", QuotedValue('"', u2)))));
    assert RenderAttribute(Attribute(" ", "controls", None)) == " " + ("controls" + (""));
    assert RenderAttribute(Attribute(" ", "src", Some(Assignment("", "", QuotedValue('"', u1))))) == " " + ("src" + ("" + ("=" + ("" + (['"'] + u1 + ['"'])))));
    assert RenderAttribute(Attribute(" ", "poster", Some(Assignment("", "", QuotedValue('"', u2))))) == " " + ("poster" + ("" + ("=" + ("" + (['"'] + u2 + ['"'])))));
    assert RenderNode(Element("video", [Attribute(" ", "controls", None), Attribute(" ", "src", Some(Assignment("", "", QuotedValue('"', u1)))), Attribute(" ", "poster", Some(Assignment("", "", QuotedValue('"', u2))))], false)) == "<" + ("video" + (((" " + ("controls" + (""))) + ((" " + ("src" + ("" + ("=" + ("" + (['"'] + u1 + ['"'])))))) + (" " + ("poster" + ("" + ("=" + ("" + (['"'] + u2 + ['"'])))))))) + ">"));
    assert RenderNode(EndTag("video")) == "<" + ("/" + ("video" + ">"));
    Attributes151Text(u1, u2);
  }

  lemma Attributes151Attribute1()
    ensures AttributeWellFormed(Attribute(" ", "controls", None))
  {
    AttributeControls();
    NamedAttributeWellFormed(" ", "controls");
  }

  lemma Attributes151Attribute2Value()
    ensures '"' !in "movie.ogg"
  {
  }

  lemma Attributes151Attribute2()
    ensures AttributeWellFormed(Attribute(" ", "src", Some(Assignment("", "", QuotedValue('"', "movie.ogg")))))
  {
    AttributeSrc();
    Attributes151Attribute2Value();
    QuotedAttributeWellFormed(" ", "src", "", "", '"', "movie.ogg");
  }

  lemma Attributes151Attribute3Value()
    ensures '"' !in "/images/w3html5.gif"
  {
  }

  lemma Attributes151Attribute3()
    ensures AttributeWellFormed(Attribute(" ", "poster", Some(Assignment("", "", QuotedValue('"', "/images/w3html5.gif")))))
  {
    AttributePoster();
    Attributes151Attribute3Value();
    QuotedAttributeWellFormed(" ", "poster", "", "", '"', "/images/w3html5.gif");
  }

  lemma Attributes151Node1()
    ensures NodeWellFormed(Element("video", [Attribute(" ", "controls", None), Attribute(" ", "src", Some(Assignment("", "", QuotedValue('"', "movie.ogg")))), Attribute(" ", "poster", Some(Assignment("", "", QuotedValue('"', "/images/w3html5.gif"))))], false))
  {
    TagVideo();
    Attributes151Attribute1();
    Attributes151Attribute2();
    Attributes151Attribute3();
    Attributes3(Attribute(" ", "controls", None), Attribute(" ", "src", Some(Assignment("", "", QuotedValue('"', "movie.ogg")))), Attribute(" ", "poster", Some(Assignment("", "", QuotedValue('"', "/images/w3html5.gif")))));
  }

  lemma Attributes151Node2()
    ensures NodeWellFormed(EndTag("video"))
  {
  }

  lemma Attributes151WellFormed()
    ensures NodeWellFormed(Element("video", [Attribute(" ", "controls", None), Attribute(" ", "src", Some(Assignment("", "", QuotedValue('"', "movie.ogg")))), Attribute(" ", "poster", Some(Assignment("", "", QuotedValue('"', "/images/w3html5.gif"))))], false)) && NodeWellFormed(EndTag("video"))
  {
    Attributes151Node1();
    Attributes151Node2();
  }

  lemma Attributes151Refs()
    ensures NodeRefs(Element("video", [Attribute(" ", "controls", None), Attribute(" ", "src", Some(Assignment("", "", QuotedValue('"', "movie.ogg")))), Attribute(" ", "poster", Some(Assignment("", "", QuotedValue('"', "/images/w3html5.gif"))))], false)) + NodeRefs(EndTag("video")) == ["movie.ogg", "/images/w3html5.gif"]
  {
    Attributes3(Attribute(" ", "controls", None), Attribute(" ", "src", Some(Assignment("", "", QuotedValue('"', "movie.ogg")))), Attribute(" ", "poster", Some(Assignment("", "", QuotedValue('"', "/images/w3html5.gif")))));
    AttributeControls();
    OtherAttribute(Attribute(" ", "controls", None));
    AttributeSrc();
    UrlAttribute(Attribute(" ", "src", Some(Assignment("", "", QuotedValue('"', "movie.ogg")))));
    AttributePoster();
    UrlAttribute(Attribute(" ", "poster", Some(Assignment("", "", QuotedValue('"', "/images/w3html5.gif")))));
  }

  lemma Attributes151Scan()
    ensures RawReferences(Html, "<video" + " controls" + " src=\"" + "movie.ogg" + "\"" + " poster=\"" + "/images/w3html5.gif" + "\"></video>") == ["movie.ogg", "/images/w3html5.gif"]
  {
    Attributes151Render("movie.ogg", "/images/w3html5.gif");
    Attributes151WellFormed();
    Attributes151Refs();
    Document2(Element("video", [Attribute(" ", "controls", None), Attribute(" ", "src", Some(Assignment("", "", QuotedValue('"', "movie.ogg")))), Attribute(" ", "poster", Some(Assignment("", "", QuotedValue('"', "/images/w3html5.gif"))))], false), EndTag("video"));
  }

  lemma Attributes151Target1Segment()
    ensures Segment("movie.ogg")
  {
    SegmentIntro("movie.ogg");
  }

  lemma Attributes151Target1Trim()
    ensures Trim("movie.ogg") == "movie.ogg"
  {
    TrimPlain("movie.ogg");
  }

  lemma Attributes151Target1Join()
    ensures "/blog/" + "movie.ogg" == "/blog/movie.ogg"
  {
  }

  lemma Attributes151Target1()
    ensures Target(Base, "movie.ogg") == At("/blog/movie.ogg")
  {
    Attributes151Target1Segment();
    Attributes151Target1Trim();
    Attributes151Target1Join();
    RelativeTarget("movie.ogg", "movie.ogg");
  }

  lemma Attributes151Target2Segment1()
    ensures Segment("images")
  {
    SegmentIntro("images");
  }

  lemma Attributes151Target2Segment2()
    ensures Segment("w3html5.gif")
  {
    SegmentIntro("w3html5.gif");
  }

  lemma Attributes151Target2Join()
    ensures "/" + "images" + "/" + "w3html5.gif" == "/images/w3html5.gif"
  {
  }

  lemma Attributes151Target2Trim()
    ensures Trim("/images/w3html5.gif") == "/images/w3html5.gif"
  {
    TrimPlain("/images/w3html5.gif");
  }

  lemma Attributes151Target2()
    ensures Target(Base, "/images/w3html5.gif") == At("/images/w3html5.gif")
  {
    Attributes151Target2Segment1();
    Attributes151Target2Segment2();
    Attributes151Target2Join();
    Attributes151Target2Trim();
    RootPairTarget("/images/w3html5.gif", "images", "w3html5.gif");
  }

  /** <video controls src="movie.ogg" poster="/images/w3html5.gif"></video> */
  lemma Attributes151()
    ensures Extract(Html, "<video" + " controls" + " src=\"" + "movie.ogg" + "\"" + " poster=\"" + "/images/w3html5.gif" + "\"></video>", Page, Host) == [Domain + "/blog/movie.ogg", Domain + "/images/w3html5.gif"]
  {
    Attributes151Scan();
    Attributes151Target1();
    Attributes151Target2();
    ExtractTwo(Html, "<video" + " controls" + " src=\"" + "movie.ogg" + "\"" + " poster=\"" + "/images/w3html5.gif" + "\"></video>", "movie.ogg", "/images/w3html5.gif", "/blog/movie.ogg", "/images/w3html5.gif");
  }

  lemma Style206StyleRender(u: string)
    ensures CssScanner.RenderCss([CssScanner.Plain("background: #00ff00 "), CssScanner.UrlRef("url(", "", CssScanner.Quoted('"', u), ""), CssScanner.Plain(" no-repeat fixed center;")])
      == "background: #00ff00 " + (("url(" + ("" + (['"'] + u + ['"'] + ("" + ")")))) + " no-repeat fixed center;")
  {
    Sheet3(CssScanner.Plain("background: #00ff00 "), CssScanner.UrlRef("url(", "", CssScanner.Quoted('"', u), ""), CssScanner.Plain(" no-repeat fixed center;"));
    assert CssScanner.RenderItem(CssScanner.Plain("background: #00ff00 ")) == "background: #00ff00 ";
    assert CssScanner.RenderItem(CssScanner.UrlRef("url(", "", CssScanner.Quoted('"', u), "")) == "url(" + ("" + (['"'] + u + ['"'] + ("" + ")")));
    assert CssScanner.RenderItem(CssScanner.Plain(" no-repeat fixed center;")) == " no-repeat fixed center;";
  }

  lemma Style206StyleItem1At()
    ensures '@' !in "background: #00ff00 "
  {
  }

  lemma Style206StyleItem1Paren()
    ensures '(' !in "background: #00ff00 "
  {
  }

  lemma Style206StyleItem1()
    ensures CssScanner.ItemWellFormed(CssScanner.Plain("background: #00ff00 "))
  {
    Style206StyleItem1At();
    Style206StyleItem1Paren();
    NoParen("background: #00ff00 ");
  }

  lemma Style206StyleItem2Quote()
    ensures '"' !in "/smiley.gif"
  {
  }

  lemma Style206StyleItem2()
    ensures CssScanner.ItemWellFormed(CssScanner.UrlRef("url(", "", CssScanner.Quoted('"', "/smiley.gif"), ""))
  {
    UrlOpener();
    Style206StyleItem2Quote();
  }

  lemma Style206StyleItem3At()
    ensures '@' !in " no-repeat fixed center;"
  {
  }

  lemma Style206StyleItem3Paren()
    ensures '(' !in " no-repeat fixed center;"
  {
  }

  lemma Style206StyleItem3()
    ensures CssScanner.ItemWellFormed(CssScanner.Plain(" no-repeat fixed center;"))
  {
    Style206StyleItem3At();
    Style206StyleItem3Paren();
    NoParen(" no-repeat fixed center;");
  }

  lemma Style206StyleWellFormed()
    ensures CssScanner.WellFormed([CssScanner.Plain("background: #00ff00 "), CssScanner.UrlRef("url(", "", CssScanner.Quoted('"', "/smiley.gif"), ""), CssScanner.Plain(" no-repeat fixed center;")])
  {
    Style206StyleItem1();
    Style206StyleItem2();
    Style206StyleItem3();
    SheetWellFormed3(CssScanner.Plain("background: #00ff00 "), CssScanner.UrlRef("url(", "", CssScanner.Quoted('"', "/smiley.gif"), ""), CssScanner.Plain(" no-repeat fixed center;"));
  }

  lemma Style206StyleScan()
    ensures CssScanner.ScanCss("background: #00ff00 " + (("url(" + ("" + (['"'] + "/smiley.gif" + ['"'] + ("" + ")")))) + " no-repeat fixed center;")) == ["/smiley.gif"]
  {
    Style206StyleRender("/smiley.gif");
    Style206StyleWellFormed();
    Sheet3(CssScanner.Plain("background: #00ff00 "), CssScanner.UrlRef("url(", "", CssScanner.Quoted('"', "/smiley.gif"), ""), CssScanner.Plain(" no-repeat fixed center;"));
    CssScanner.ScanRenderCss([CssScanner.Plain("background: #00ff00 "), CssScanner.UrlRef("url(", "", CssScanner.Quoted('"', "/smiley.gif"), ""), CssScanner.Plain(" no-repeat fixed center;")]);
  }

  lemma Style206Run1()
    ensures "<" + "body" == "<body"
  {
  }

  lemma Style206Run2()
    ensures " " + "style" + "" + "=" + "" + ['\''] == " style='"
  {
  }

  lemma Style206Run3()
    ensures "url(" + "" + ['"'] == "url(\""
  {
  }

  lemma Style206Run4()
    ensures ['"'] + "" + ")" == "\")"
  {
  }

  lemma Style206Run5()
    ensures ['\''] + ">" + "<" + "/" + "body" + ">" == "'></body>"
  {
  }

  lemma Style206Text(u: string)
    ensures ("<" + ("body" + ((" " + ("style" + ("" + ("=" + ("" + (['\''] + ("background: #00ff00 " + (("url(" + ("" + (['"'] + u + ['"'] + ("" + ")")))) + " no-repeat fixed center;")) + ['\''])))))) + ">"))) + ("<" + ("/" + ("body" + ">")))
      == "<body" + " style='" + "background: #00ff00 " + "url(\"" + u + "\")" + " no-repeat fixed center;" + "'></body>"
  {
    Style206Run1();
    Style206Run2();
    Style206Run3();
    Style206Run4();
    Style206Run5();
    Assoc(['"'] + u + ['"'], "", ")");
    Assoc("", ['"'] + u + ['"'] + "", ")");
    Assoc("", ['"'] + u + ['"'], "");
    Assoc("", ['"'] + u, ['"']);
    Assoc("", ['"'], u);
    Assoc("url(", "" + ['"'] + u + ['"'] + "", ")");
    Assoc("url(", "" + ['"'] + u + ['"'], "");
    Assoc("url(", "" + ['"'] + u, ['"']);
    Assoc("url(", "" + ['"'], u);
    Assoc("url(", "", ['"']);
    Assoc("background: #00ff00 ", "url(" + "" + ['"'] + u + ['"'] + "" + ")", " no-repeat fixed center;");
    Assoc("background: #00ff00 ", "url(" + "" + ['"'] + u + ['"'] + "", ")");
    Assoc("background: #00ff00 ", "url(" + "" + ['"'] + u + ['"'], "");
    Assoc("background: #00ff00 ", "url(" + "" + ['"'] + u, ['"']);
    Assoc("background: #00ff00 ", "url(" + "" + ['"'], u);
    Assoc("background: #00ff00 ", "url(" + "", ['"']);
    Assoc("background: #00ff00 ", "url(", "");
    Assoc(['\''], "background: #00ff00 " + "url(" + "" + ['"'] + u + ['"'] + "" + ")", " no-repeat fixed center;");
    Assoc(['\''], "background: #00ff00 " + "url(" + "" + ['"'] + u + ['"'] + "", ")");
    Assoc(['\''], "background: #00ff00 " + "url(" + "" + ['"'] + u + ['"'], "");
    Assoc(['\''], "background: #00ff00 " + "url(" + "" + ['"'] + u, ['"']);
    Assoc(['\''], "background: #00ff00 " + "url(" + "" + ['"'], u);
    Assoc(['\''], "background: #00ff00 " + "url(" + "", ['"']);
    Assoc(['\''], "background: #00ff00 " + "url(", "");
    Assoc(['\''], "background: #00ff00 ", "url(");
    Assoc("", ['\''] + "background: #00ff00 " + "url(" + "" + ['"'] + u + ['"'] + "" + ")" + " no-repeat fixed center;", ['\'']);
    Assoc("", ['\''] + "background: #00ff00 " + "url(" + "" + ['"'] + u + ['"'] + "" + ")", " no-repeat fixed center;");
    Assoc("", ['\''] + "background: #00ff00 " + "url(" + "" + ['"'] + u + ['"'] + "", ")");
    Assoc("", ['\''] + "background: #00ff00 " + "url(" + "" + ['"'] + u + ['"'], "");
    Assoc("", ['\''] + "background: #00ff00 " + "url(" + "" + ['"'] + u, ['"']);
    Assoc("", ['\''] + "background: #00ff00 " + "url(" + "" + ['"'], u);
    Assoc("", ['\''] + "background: #00ff00 " + "url(" + "", ['"']);
    Assoc("", ['\''] + "background: #00ff00 " + "url(", "");
    Assoc("", ['\''] + "background: #00ff00 ", "url(");
    Assoc("", ['\''], "background: #00ff00 ");
    Assoc("=", "" + ['\''] + "background: #00ff00 " + "url(" + "" + ['"'] + u + ['"'] + "" + ")" + " no-repeat fixed center;", ['\'']);
    Assoc("=", "" + ['\''] + "background: #00ff00 " + "url(" + "" + ['"'] + u + ['"'] + "" + ")", " no-repeat fixed center;");
    Assoc("=", "" + ['\''] + "background: #00ff00 " + "url(" + "" + ['"'] + u + ['"'] + "", ")");
    Assoc("=", "" + ['\''] + "background: #00ff00 " + "url(" + "" + ['"'] + u + ['"'], "");
    Assoc("=", "" + ['\''] + "background: #00ff00 " + "url(" + "" + ['"'] + u, ['"']);
    Assoc("=", "" + ['\''] + "background: #00ff00 " + "url(" + "" + ['"'], u);
    Assoc("=", "" + ['\''] + "background: #00ff00 " + "url(" + "", ['"']);
    Assoc("=", "" + ['\''] + "background: #00ff00 " + "url(", "");
    Assoc("=", "" + ['\''] + "background: #00ff00 ", "url(");
    Assoc("=", "" + ['\''], "background: #00ff00 ");
    Assoc("=", "", ['\'']);
    Assoc("", "=" + "" + ['\''] + "background: #00ff00 " + "url(" + "" + ['"'] + u + ['"'] + "" + ")" + " no-repeat fixed center;", ['\'']);
    Assoc("", "=" + "" + ['\''] + "background: #00ff00 " + "url(" + "" + ['"'] + u + ['"'] + "" + ")", " no-repeat fixed center;");
    Assoc("", "=" + "" + ['\''] + "background: #00ff00 " + "url(" + "" + ['"'] + u + ['"'] + "", ")");
    Assoc("", "=" + "" + ['\''] + "background: #00ff00 " + "url(" + "" + ['"'] + u + ['"'], "");
    Assoc("", "=" + "" + ['\''] + "background: #00ff00 " + "url(" + "" + ['"'] + u, ['"']);
    Assoc("", "=" + "" + ['\''] + "background: #00ff00 " + "url(" + "" + ['"'], u);
    Assoc("", "=" + "" + ['\''] + "background: #00ff00 " + "url(" + "", ['"']);
    Assoc("", "=" + "" + ['\''] + "background: #00ff00 " + "url(", "");
    Assoc("", "=" + "" + ['\''] + "background: #00ff00 ", "url(");
    Assoc("", "=" + "" + ['\''], "background: #00ff00 ");
    Assoc("", "=" + "", ['\'']);
    Assoc("", "=", "");
    Assoc("style", "" + "=" + "" + ['\''] + "background: #00ff00 " + "url(" + "" + ['"'] + u + ['"'] + "" + ")" + " no-repeat fixed center;", ['\'']);
    Assoc("style", "" + "=" + "" + ['\''] + "background: #00ff00 " + "url(" + "" + ['"'] + u + ['"'] + "" + ")", " no-repeat fixed center;");
    Assoc("style", "" + "=" + "" + ['\''] + "background: #00ff00 " + "url(" + "" + ['"'] + u + ['"'] + "", ")");
    Assoc("style", "" + "=" + "" + ['\''] + "background: #00ff00 " + "url(" + "" + ['"'] + u + ['"'], "");
    Assoc("style", "" + "=" + "" + ['\''] + "background: #00ff00 " + "url(" + "" + ['"'] + u, ['"']);
    Assoc("style", "" + "=" + "" + ['\''] + "background: #00ff00 " + "url(" + "" + ['"'], u);
    Assoc("style", "" + "=" + "" + ['\''] + "background: #00ff00 " + "url(" + "", ['"']);
    Assoc("style", "" + "=" + "" + ['\''] + "background: #00ff00 " + "url(", "");
    Assoc("style", "" + "=" + "" + ['\''] + "background: #00ff00 ", "url(");
    Assoc("style", "" + "=" + "" + ['\''], "background: #00ff00 ");
    Assoc("style", "" + "=" + "", ['\'']);
    Assoc("style", "" + "=", "");
    Assoc("style", "", "=");
    Assoc(" ", "style" + "" + "=" + "" + ['\''] + "background: #00ff00 " + "url(" + "" + ['"'] + u + ['"'] + "" + ")" + " no-repeat fixed center;", ['\'']);
    Assoc(" ", "style" + "" + "=" + "" + ['\''] + "background: #00ff00 " + "url(" + "" + ['"'] + u + ['"'] + "" + ")", " no-repeat fixed center;");
    Assoc(" ", "style" + "" + "=" + "" + ['\''] + "background: #00ff00 " + "url(" + "" + ['"'] + u + ['"'] + "", ")");
    Assoc(" ", "style" + "" + "=" + "" + ['\''] + "background: #00ff00 " + "url(" + "" + ['"'] + u + ['"'], "");
    Assoc(" ", "style" + "" + "=" + "" + ['\''] + "background: #00ff00 " + "url(" + "" + ['"'] + u, ['"']);
    Assoc(" ", "style" + "" + "=" + "" + ['\''] + "background: #00ff00 " + "url(" + "" + ['"'], u);
    Assoc(" ", "style" + "" + "=" + "" + ['\''] + "background: #00ff00 " + "url(" + "", ['"']);
    Assoc(" ", "style" + "" + "=" + "" + ['\''] + "background: #00ff00 " + "url(", "");
    Assoc(" ", "style" + "" + "=" + "" + ['\''] + "background: #00ff00 ", "url(");
    Assoc(" ", "style" + "" + "=" + "" + ['\''], "background: #00ff00 ");
    Assoc(" ", "style" + "" + "=" + "", ['\'']);
    Assoc(" ", "style" + "" + "=", "");
    Assoc(" ", "style" + "", "=");
    Assoc(" ", "style", "");
    Assoc("body", " " + "style" + "" + "=" + "" + ['\''] + "background: #00ff00 " + "url(" + "" + ['"'] + u + ['"'] + "" + ")" + " no-repeat fixed center;" + ['\''], ">");
    Assoc("body", " " + "style" + "" + "=" + "" + ['\''] + "background: #00ff00 " + "url(" + "" + ['"'] + u + ['"'] + "" + ")" + " no-repeat fixed center;", ['\'']);
    Assoc("body", " " + "style" + "" + "=" + "" + ['\''] + "background: #00ff00 " + "url(" + "" + ['"'] + u + ['"'] + "" + ")", " no-repeat fixed center;");
    Assoc("body", " " + "style" + "" + "=" + "" + ['\''] + "background: #00ff00 " + "url(" + "" + ['"'] + u + ['"'] + "", ")");
    Assoc("body", " " + "style" + "" + "=" + "" + ['\''] + "background: #00ff00 " + "url(" + "" + ['"'] + u + ['"'], "");
    Assoc("body", " " + "style" + "" + "=" + "" + ['\''] + "background: #00ff00 " + "url(" + "" + ['"'] + u, ['"']);
    Assoc("body", " " + "style" + "" + "=" + "" + ['\''] + "background: #00ff00 " + "url(" + "" + ['"'], u);
    Assoc("body", " " + "style" + "" + "=" + "" + ['\''] + "background: #00ff00 " + "url(" + "", ['"']);
    Assoc("body", " " + "style" + "" + "=" + "" + ['\''] + "background: #00ff00 " + "url(", "");
    Assoc("body", " " + "style" + "" + "=" + "" + ['\''] + "background: #00ff00 ", "url(");
    Assoc("body", " " + "style" + "" + "=" + "" + ['\''], "background: #00ff00 ");
    Assoc("body", " " + "style" + "" + "=" + "", ['\'']);
    Assoc("body", " " + "style" + "" + "=", "");
    Assoc("body", " " + "style" + "", "=");
    Assoc("body", " " + "style", "");
    Assoc("body", " ", "style");
    Assoc("<", "body" + " " + "style" + "" + "=" + "" + ['\''] + "background: #00ff00 " + "url(" + "" + ['"'] + u + ['"'] + "" + ")" + " no-repeat fixed center;" + ['\''], ">");
    Assoc("<", "body" + " " + "style" + "" + "=" + "" + ['\''] + "background: #00ff00 " + "url(" + "" + ['"'] + u + ['"'] + "" + ")" + " no-repeat fixed center;", ['\'']);
    Assoc("<", "body" + " " + "style" + "" + "=" + "" + ['\''] + "background: #00ff00 " + "url(" + "" + ['"'] + u + ['"'] + "" + ")", " no-repeat fixed center;");
    Assoc("<", "body" + " " + "style" + "" + "=" + "" + ['\''] + "background: #00ff00 " + "url(" + "" + ['"'] + u + ['"'] + "", ")");
    Assoc("<", "body" + " " + "style" + "" + "=" + "" + ['\''] + "background: #00ff00 " + "url(" + "" + ['"'] + u + ['"'], "");
    Assoc("<", "body" + " " + "style" + "" + "=" + "" + ['\''] + "background: #00ff00 " + "url(" + "" + ['"'] + u, ['"']);
    Assoc("<", "body" + " " + "style" + "" + "=" + "" + ['\''] + "background: #00ff00 " + "url(" + "" + ['"'], u);
    Assoc("<", "body" + " " + "style" + "" + "=" + "" + ['\''] + "background: #00ff00 " + "url(" + "", ['"']);
    Assoc("<", "body" + " " + "style" + "" + "=" + "" + ['\''] + "background: #00ff00 " + "url(", "");
    Assoc("<", "body" + " " + "style" + "" + "=" + "" + ['\''] + "background: #00ff00 ", "url(");
    Assoc("<", "body" + " " + "style" + "" + "=" + "" + ['\''], "background: #00ff00 ");
    Assoc("<", "body" + " " + "style" + "" + "=" + "", ['\'']);
    Assoc("<", "body" + " " + "style" + "" + "=", "");
    Assoc("<", "body" + " " + "style" + "", "=");
    Assoc("<", "body" + " " + "style", "");
    Assoc("<", "body" + " ", "style");
    Assoc("<", "body", " ");
    Assoc("/", "body", ">");
    Assoc("<", "/" + "body", ">");
    Assoc("<", "/", "body");
    Assoc("<" + "body" + " " + "style" + "" + "=" + "" + ['\''] + "background: #00ff00 " + "url(" + "" + ['"'] + u + ['"'] + "" + ")" + " no-repeat fixed center;" + ['\''] + ">", "<" + "/" + "body", ">");
    Assoc("<" + "body" + " " + "style" + "" + "=" + "" + ['\''] + "background: #00ff00 " + "url(" + "" + ['"'] + u + ['"'] + "" + ")" + " no-repeat fixed center;" + ['\''] + ">", "<" + "/", "body");
    Assoc("<" + "body" + " " + "style" + "" + "=" + "" + ['\''] + "background: #00ff00 " + "url(" + "" + ['"'] + u + ['"'] + "" + ")" + " no-repeat fixed center;" + ['\''] + ">", "<", "/");
    Assoc("<" + "body", " " + "style" + "" + "=" + "", ['\'']);
    Assoc("<" + "body", " " + "style" + "" + "=", "");
    Assoc("<" + "body", " " + "style" + "", "=");
    Assoc("<" + "body", " " + "style", "");
    Assoc("<" + "body", " ", "style");
    Assoc("<" + "body" + " " + "style" + "" + "=" + "" + ['\''] + "background: #00ff00 ", "url(" + "", ['"']);
    Assoc("<" + "body" + " " + "style" + "" + "=" + "" + ['\''] + "background: #00ff00 ", "url(", "");
    Assoc("<" + "body" + " " + "style" + "" + "=" + "" + ['\''] + "background: #00ff00 " + "url(" + "" + ['"'] + u, ['"'] + "", ")");
    Assoc("<" + "body" + " " + "style" + "" + "=" + "" + ['\''] + "background: #00ff00 " + "url(" + "" + ['"'] + u, ['"'], "");
    Assoc("<" + "body" + " " + "style" + "" + "=" + "" + ['\''] + "background: #00ff00 " + "url(" + "" + ['"'] + u + ['"'] + "" + ")" + " no-repeat fixed center;", ['\''] + ">" + "<" + "/" + "body", ">");
    Assoc("<" + "body" + " " + "style" + "" + "=" + "" + ['\''] + "background: #00ff00 " + "url(" + "" + ['"'] + u + ['"'] + "" + ")" + " no-repeat fixed center;", ['\''] + ">" + "<" + "/", "body");
    Assoc("<" + "body" + " " + "style" + "" + "=" + "" + ['\''] + "background: #00ff00 " + "url(" + "" + ['"'] + u + ['"'] + "" + ")" + " no-repeat fixed center;", ['\''] + ">" + "<", "/");
    Assoc("<" + "body" + " " + "style" + "" + "=" + "" + ['\''] + "background: #00ff00 " + "url(" + "" + ['"'] + u + ['"'] + "" + ")" + " no-repeat fixed center;", ['\''] + ">", "<");
    Assoc("<" + "body" + " " + "style" + "" + "=" + "" + ['\''] + "background: #00ff00 " + "url(" + "" + ['"'] + u + ['"'] + "" + ")" + " no-repeat fixed center;", ['\''], ">");
  }

  lemma Style206Render(u: string)
    ensures RenderNode(Element("body", [Attribute(" ", "style", Some(Assignment("", "", QuotedValue('\'', "background: #00ff00 " + (("url(" + ("" + (['"'] + u + ['"'] + ("" + ")")))) + " no-repeat fixed center;")))))], false)) + RenderNode(EndTag("body"))
      == "<body" + " style='" + "background: #00ff00 " + "url(\"" + u + "\")" + " no-repeat fixed center;" + "'></body>"
  {
    Attributes1(Attribute(" ", "style", Some(Assignment("", "", QuotedValue('\'', "background: #00ff00 " + (("url(" + ("" + (['"'] + u + ['"'] + ("" + ")")))) + " no-repeat fixed center;"))))));
    assert RenderAttribute(Attribute(" ", "style", Some(Assignment("", "", QuotedValue('\'', "background: #00ff00 " + (("url(" + ("" + (['"'] + u + ['"'] + ("" + ")")))) + " no-repeat fixed center;")))))) == " " + ("style" + ("" + ("=" + ("" + (['\''] + ("background: #00ff00 " + (("url(" + ("" + (['"'] + u + ['"'] + ("" + ")")))) + " no-repeat fixed center;")) + ['\''])))));
    assert RenderNode(Element("body", [Attribute(" ", "style", Some(Assignment("", "", QuotedValue('\'', "background: #00ff00 " + (("url(" + ("" + (['"'] + u + ['"'] + ("" + ")")))) + " no-repeat fixed center;")))))], false)) == "<" + ("body" + ((" " + ("style" + ("" + ("=" + ("" + (['\''] + ("background: #00ff00 " + (("url(" + ("" + (['"'] + u + ['"'] + ("" + ")")))) + " no-repeat fixed center;")) + ['\''])))))) + ">"));
    assert RenderNode(EndTag("body")) == "<" + ("/" + ("body" + ">"));
    Style206Text(u);
  }

  lemma Style206Attribute1Value()
    ensures '\'' !in "background: #00ff00 " + (("url(" + ("" + (['"'] + "/smiley.gif" + ['"'] + ("" + ")")))) + " no-repeat fixed center;")
  {
  }

  lemma Style206Attribute1()
    ensures AttributeWellFormed(Attribute(" ", "style", Some(Assignment("", "", QuotedValue('\'', "background: #00ff00 " + (("url(" + ("" + (['"'] + "/smiley.gif" + ['"'] + ("" + ")")))) + " no-repeat fixed center;"))))))
  {
    AttributeStyle();
    Style206Attribute1Value();
    QuotedAttributeWellFormed(" ", "style", "", "", '\'', "background: #00ff00 " + (("url(" + ("" + (['"'] + "/smiley.gif" + ['"'] + ("" + ")")))) + " no-repeat fixed center;"));
  }

  lemma Style206Node1()
    ensures NodeWellFormed(Element("body", [Attribute(" ", "style", Some(Assignment("", "", QuotedValue('\'', "background: #00ff00 " + (("url(" + ("" + (['"'] + "/smiley.gif" + ['"'] + ("" + ")")))) + " no-repeat fixed center;")))))], false))
  {
    TagBody();
    Style206Attribute1();
    Attributes1(Attribute(" ", "style", Some(Assignment("", "", QuotedValue('\'', "background: #00ff00 " + (("url(" + ("" + (['"'] + "/smiley.gif" + ['"'] + ("" + ")")))) + " no-repeat fixed center;"))))));
  }

  lemma Style206Node2()
    ensures NodeWellFormed(EndTag("body"))
  {
  }

  lemma Style206WellFormed()
    ensures NodeWellFormed(Element("body", [Attribute(" ", "style", Some(Assignment("", "", QuotedValue('\'', "background: #00ff00 " + (("url(" + ("" + (['"'] + "/smiley.gif" + ['"'] + ("" + ")")))) + " no-repeat fixed center;")))))], false)) && NodeWellFormed(EndTag("body"))
  {
    Style206Node1();
    Style206Node2();
  }

  lemma Style206Refs()
    ensures NodeRefs(Element("body", [Attribute(" ", "style", Some(Assignment("", "", QuotedValue('\'', "background: #00ff00 " + (("url(" + ("" + (['"'] + "/smiley.gif" + ['"'] + ("" + ")")))) + " no-repeat fixed center;")))))], false)) + NodeRefs(EndTag("body")) == ["/smiley.gif"]
  {
    Attributes1(Attribute(" ", "style", Some(Assignment("", "", QuotedValue('\'', "background: #00ff00 " + (("url(" + ("" + (['"'] + "/smiley.gif" + ['"'] + ("" + ")")))) + " no-repeat fixed center;"))))));
    AttributeStyle();
    StyleAttribute(Attribute(" ", "style", Some(Assignment("", "", QuotedValue('\'', "background: #00ff00 " + (("url(" + ("" + (['"'] + "/smiley.gif" + ['"'] + ("" + ")")))) + " no-repeat fixed center;"))))));
    Style206StyleScan();
  }

  lemma Style206Scan()
    ensures RawReferences(Html, "<body" + " style='" + "background: #00ff00 " + "url(\"" + "/smiley.gif" + "\")" + " no-repeat fixed center;" + "'></body>") == ["/smiley.gif"]
  {
    Style206Render("/smiley.gif");
    Style206WellFormed();
    Style206Refs();
    Document2(Element("body", [Attribute(" ", "style", Some(Assignment("", "", QuotedValue('\'', "background: #00ff00 " + (("url(" + ("" + (['"'] + "/smiley.gif" + ['"'] + ("" + ")")))) + " no-repeat fixed center;")))))], false), EndTag("body"));
  }

  lemma Style206TargetSegment()
    ensures Segment("smiley.gif")
  {
    SegmentIntro("smiley.gif");
  }

  lemma Style206TargetJoin()
    ensures "/" + "smiley.gif" == "/smiley.gif"
  {
  }

  lemma Style206TargetTrim()
    ensures Trim("/smiley.gif") == "/smiley.gif"
  {
    TrimPlain("/smiley.gif");
  }

  lemma Style206Target()
    ensures Target(Base, "/smiley.gif") == At("/smiley.gif")
  {
    Style206TargetSegment();
    Style206TargetJoin();
    Style206TargetTrim();
    RootTarget("/smiley.gif", "smiley.gif");
  }

  /** a url() inside a style attribute among other declarations */
  lemma Style206()
    ensures Extract(Html, "<body" + " style='" + "background: #00ff00 " + "url(\"" + "/smiley.gif" + "\")" + " no-repeat fixed center;" + "'></body>", Page, Host) == [Domain + "/smiley.gif"]
  {
    Style206Scan();
    Style206Target();
    ExtractOne(Html, "<body" + " style='" + "background: #00ff00 " + "url(\"" + "/smiley.gif" + "\")" + " no-repeat fixed center;" + "'></body>", "/smiley.gif", "/smiley.gif");
  }

  lemma Style208StyleRender(u: string)
    ensures CssScanner.RenderCss([CssScanner.Plain("background-image: "), CssScanner.UrlRef("url(", "", CssScanner.Quoted('"', u), "")])
      == "background-image: " + ("url(" + ("" + (['"'] + u + ['"'] + ("" + ")"))))
  {
    Sheet2(CssScanner.Plain("background-image: "), CssScanner.UrlRef("url(", "", CssScanner.Quoted('"', u), ""));
    assert CssScanner.RenderItem(CssScanner.Plain("background-image: ")) == "background-image: ";
    assert CssScanner.RenderItem(CssScanner.UrlRef("url(", "", CssScanner.Quoted('"', u), "")) == "url(" + ("" + (['"'] + u + ['"'] + ("" + ")")));
  }

  lemma Style208StyleItem1At()
    ensures '@' !in "background-image: "
  {
  }

  lemma Style208StyleItem1Paren()
    ensures '(' !in "background-image: "
  {
  }

  lemma Style208StyleItem1()
    ensures CssScanner.ItemWellFormed(CssScanner.Plain("background-image: "))
  {
    Style208StyleItem1At();
    Style208StyleItem1Paren();
    NoParen("background-image: ");
  }

  lemma Style208StyleItem2Quote()
    ensures '"' !in "/one.png"
  {
  }

  lemma Style208StyleItem2()
    ensures CssScanner.ItemWellFormed(CssScanner.UrlRef("url(", "", CssScanner.Quoted('"', "/one.png"), ""))
  {
    UrlOpener();
    Style208StyleItem2Quote();
  }

  lemma Style208StyleWellFormed()
    ensures CssScanner.WellFormed([CssScanner.Plain("background-image: "), CssScanner.UrlRef("url(", "", CssScanner.Quoted('"', "/one.png"), "")])
  {
    Style208StyleItem1();
    Style208StyleItem2();
    SheetWellFormed2(CssScanner.Plain("background-image: "), CssScanner.UrlRef("url(", "", CssScanner.Quoted('"', "/one.png"), ""));
  }

  lemma Style208StyleScan()
    ensures CssScanner.ScanCss("background-image: " + ("url(" + ("" + (['"'] + "/one.png" + ['"'] + ("" + ")"))))) == ["/one.png"]
  {
    Style208StyleRender("/one.png");
    Style208StyleWellFormed();
    Sheet2(CssScanner.Plain("background-image: "), CssScanner.UrlRef("url(", "", CssScanner.Quoted('"', "/one.png"), ""));
    CssScanner.ScanRenderCss([CssScanner.Plain("background-image: "), CssScanner.UrlRef("url(", "", CssScanner.Quoted('"', "/one.png"), "")]);
  }

  lemma Style208Run1()
    ensures "<" + "div" == "<div"
  {
  }

  lemma Style208Run2()
    ensures " " + "style" + "" + "=" + "" + ['\''] == " style='"
  {
  }

  lemma Style208Run3()
    ensures "url(" + "" + ['"'] == "url(\""
  {
  }

  lemma Style208Run4()
    ensures ['"'] + "" + ")" + ['\''] + ">" + "<" + "/" + "div" + ">" == "\")'></div>"
  {
  }

  lemma Style208Text(u: string)
    ensures ("<" + ("div" + ((" " + ("style" + ("" + ("=" + ("" + (['\''] + ("background-image: " + ("url(" + ("" + (['"'] + u + ['"'] + ("" + ")"))))) + ['\''])))))) + ">"))) + ("<" + ("/" + ("div" + ">")))
      == "<div" + " style='" + "background-image: " + "url(\"" + u + "\")'></div>"
  {
    Style208Run1();
    Style208Run2();
    Style208Run3();
    Style208Run4();
    Assoc(['"'] + u + ['"'], "", ")");
    Assoc("", ['"'] + u + ['"'] + "", ")");
    Assoc("", ['"'] + u + ['"'], "");
    Assoc("", ['"'] + u, ['"']);
    Assoc("", ['"'], u);
    Assoc("url(", "" + ['"'] + u + ['"'] + "", ")");
    Assoc("url(", "" + ['"'] + u + ['"'], "");
    Assoc("url(", "" + ['"'] + u, ['"']);
    Assoc("url(", "" + ['"'], u);
    Assoc("url(", "", ['"']);
    Assoc("background-image: ", "url(" + "" + ['"'] + u + ['"'] + "", ")");
    Assoc("background-image: ", "url(" + "" + ['"'] + u + ['"'], "");
    Assoc("background-image: ", "url(" + "" + ['"'] + u, ['"']);
    Assoc("background-image: ", "url(" + "" + ['"'], u);
    Assoc("background-image: ", "url(" + "", ['"']);
    Assoc("background-image: ", "url(", "");
    Assoc(['\''], "background-image: " + "url(" + "" + ['"'] + u + ['"'] + "", ")");
    Assoc(['\''], "background-image: " + "url(" + "" + ['"'] + u + ['"'], "");
    Assoc(['\''], "background-image: " + "url(" + "" + ['"'] + u, ['"']);
    Assoc(['\''], "background-image: " + "url(" + "" + ['"'], u);
    Assoc(['\''], "background-image: " + "url(" + "", ['"']);
    Assoc(['\''], "background-image: " + "url(", "");
    Assoc(['\''], "background-image: ", "url(");
    Assoc("", ['\''] + "background-image: " + "url(" + "" + ['"'] + u + ['"'] + "" + ")", ['\'']);
    Assoc("", ['\''] + "background-image: " + "url(" + "" + ['"'] + u + ['"'] + "", ")");
    Assoc("", ['\''] + "background-image: " + "url(" + "" + ['"'] + u + ['"'], "");
    Assoc("", ['\''] + "background-image: " + "url(" + "" + ['"'] + u, ['"']);
    Assoc("", ['\''] + "background-image: " + "url(" + "" + ['"'], u);
    Assoc("", ['\''] + "background-image: " + "url(" + "", ['"']);
    Assoc("", ['\''] + "background-image: " + "url(", "");
    Assoc("", ['\''] + "background-image: ", "url(");
    Assoc("", ['\''], "background-image: ");
    Assoc("=", "" + ['\''] + "background-image: " + "url(" + "" + ['"'] + u + ['"'] + "" + ")", ['\'']);
    Assoc("=", "" + ['\''] + "background-image: " + "url(" + "" + ['"'] + u + ['"'] + "", ")");
    Assoc("=", "" + ['\''] + "background-image: " + "url(" + "" + ['"'] + u + ['"'], "");
    Assoc("=", "" + ['\''] + "background-image: " + "url(" + "" + ['"'] + u, ['"']);
    Assoc("=", "" + ['\''] + "background-image: " + "url(" + "" + ['"'], u);
    Assoc("=", "" + ['\''] + "background-image: " + "url(" + "", ['"']);
    Assoc("=", "" + ['\''] + "background-image: " + "url(", "");
    Assoc("=", "" + ['\''] + "background-image: ", "url(");
    Assoc("=", "" + ['\''], "background-image: ");
    Assoc("=", "", ['\'']);
    Assoc("", "=" + "" + ['\''] + "background-image: " + "url(" + "" + ['"'] + u + ['"'] + "" + ")", ['\'']);
    Assoc("", "=" + "" + ['\''] + "background-image: " + "url(" + "" + ['"'] + u + ['"'] + "", ")");
    Assoc("", "=" + "" + ['\''] + "background-image: " + "url(" + "" + ['"'] + u + ['"'], "");
    Assoc("", "=" + "" + ['\''] + "background-image: " + "url(" + "" + ['"'] + u, ['"']);
    Assoc("", "=" + "" + ['\''] + "background-image: " + "url(" + "" + ['"'], u);
    Assoc("", "=" + "" + ['\''] + "background-image: " + "url(" + "", ['"']);
    Assoc("", "=" + "" + ['\''] + "background-image: " + "url(", "");
    Assoc("", "=" + "" + ['\''] + "background-image: ", "url(");
    Assoc("", "=" + "" + ['\''], "background-image: ");
    Assoc("", "=" + "", ['\'']);
    Assoc("", "=", "");
    Assoc("style", "" + "=" + "" + ['\''] + "background-image: " + "url(" + "" + ['"'] + u + ['"'] + "" + ")", ['\'']);
    Assoc("style", "" + "=" + "" + ['\''] + "background-image: " + "url(" + "" + ['"'] + u + ['"'] + "", ")");
    Assoc("style", "" + "=" + "" + ['\''] + "background-image: " + "url(" + "" + ['"'] + u + ['"'], "");
    Assoc("style", "" + "=" + "" + ['\''] + "background-image: " + "url(" + "" + ['"'] + u, ['"']);
    Assoc("style", "" + "=" + "" + ['\''] + "background-image: " + "url(" + "" + ['"'], u);
    Assoc("style", "" + "=" + "" + ['\''] + "background-image: " + "url(" + "", ['"']);
    Assoc("style", "" + "=" + "" + ['\''] + "background-image: " + "url(", "");
    Assoc("style", "" + "=" + "" + ['\''] + "background-image: ", "url(");
    Assoc("style", "" + "=" + "" + ['\''], "background-image: ");
    Assoc("style", "" + "=" + "", ['\'']);
    Assoc("style", "" + "=", "");
    Assoc("style", "", "=");
    Assoc(" ", "style" + "" + "=" + "" + ['\''] + "background-image: " + "url(" + "" + ['"'] + u + ['"'] + "" + ")", ['\'']);
    Assoc(" ", "style" + "" + "=" + "" + ['\''] + "background-image: " + "url(" + "" + ['"'] + u + ['"'] + "", ")");
    Assoc(" ", "style" + "" + "=" + "" + ['\''] + "background-image: " + "url(" + "" + ['"'] + u + ['"'], "");
    Assoc(" ", "style" + "" + "=" + "" + ['\''] + "background-image: " + "url(" + "" + ['"'] + u, ['"']);
    Assoc(" ", "style" + "" + "=" + "" + ['\''] + "background-image: " + "url(" + "" + ['"'], u);
    Assoc(" ", "style" + "" + "=" + "" + ['\''] + "background-image: " + "url(" + "", ['"']);
    Assoc(" ", "style" + "" + "=" + "" + ['\''] + "background-image: " + "url(", "");
    Assoc(" ", "style" + "" + "=" + "" + ['\''] + "background-image: ", "url(");
    Assoc(" ", "style" + "" + "=" + "" + ['\''], "background-image: ");
    Assoc(" ", "style" + "" + "=" + "", ['\'']);
    Assoc(" ", "style" + "" + "=", "");
    Assoc(" ", "style" + "", "=");
    Assoc(" ", "style", "");
    Assoc("div", " " + "style" + "" + "=" + "" + ['\''] + "background-image: " + "url(" + "" + ['"'] + u + ['"'] + "" + ")" + ['\''], ">");
    Assoc("div", " " + "style" + "" + "=" + "" + ['\''] + "background-image: " + "url(" + "" + ['"'] + u + ['"'] + "" + ")", ['\'']);
    Assoc("div", " " + "style" + "" + "=" + "" + ['\''] + "background-image: " + "url(" + "" + ['"'] + u + ['"'] + "", ")");
    Assoc("div", " " + "style" + "" + "=" + "" + ['\''] + "background-image: " + "url(" + "" + ['"'] + u + ['"'], "");
    Assoc("div", " " + "style" + "" + "=" + "" + ['\''] + "background-image: " + "url(" + "" + ['"'] + u, ['"']);
    Assoc("div", " " + "style" + "" + "=" + "" + ['\''] + "background-image: " + "url(" + "" + ['"'], u);
    Assoc("div", " " + "style" + "" + "=" + "" + ['\''] + "background-image: " + "url(" + "", ['"']);
    Assoc("div", " " + "style" + "" + "=" + "" + ['\''] + "background-image: " + "url(", "");
    Assoc("div", " " + "style" + "" + "=" + "" + ['\''] + "background-image: ", "url(");
    Assoc("div", " " + "style" + "" + "=" + "" + ['\''], "background-image: ");
    Assoc("div", " " + "style" + "" + "=" + "", ['\'']);
    Assoc("div", " " + "style" + "" + "=", "");
    Assoc("div", " " + "style" + "", "=");
    Assoc("div", " " + "style", "");
    Assoc("div", " ", "style");
    Assoc("<", "div" + " " + "style" + "" + "=" + "" + ['\''] + "background-image: " + "url(" + "" + ['"'] + u + ['"'] + "" + ")" + ['\''], ">");
    Assoc("<", "div" + " " + "style" + "" + "=" + "" + ['\''] + "background-image: " + "url(" + "" + ['"'] + u + ['"'] + "" + ")", ['\'']);
    Assoc("<", "div" + " " + "style" + "" + "=" + "" + ['\''] + "background-image: " + "url(" + "" + ['"'] + u + ['"'] + "", ")");
    Assoc("<", "div" + " " + "style" + "" + "=" + "" + ['\''] + "background-image: " + "url(" + "" + ['"'] + u + ['"'], "");
    Assoc("<", "div" + " " + "style" + "" + "=" + "" + ['\''] + "background-image: " + "url(" + "" + ['"'] + u, ['"']);
    Assoc("<", "div" + " " + "style" + "" + "=" + "" + ['\''] + "background-image: " + "url(" + "" + ['"'], u);
    Assoc("<", "div" + " " + "style" + "" + "=" + "" + ['\''] + "background-image: " + "url(" + "", ['"']);
    Assoc("<", "div" + " " + "style" + "" + "=" + "" + ['\''] + "background-image: " + "url(", "");
    Assoc("<", "div" + " " + "style" + "" + "=" + "" + ['\''] + "background-image: ", "url(");
    Assoc("<", "div" + " " + "style" + "" + "=" + "" + ['\''], "background-image: ");
    Assoc("<", "div" + " " + "style" + "" + "=" + "", ['\'']);
    Assoc("<", "div" + " " + "style" + "" + "=", "");
    Assoc("<", "div" + " " + "style" + "", "=");
    Assoc("<", "div" + " " + "style", "");
    Assoc("<", "div" + " ", "style");
    Assoc("<", "div", " ");
    Assoc("/", "div", ">");
    Assoc("<", "/" + "div", ">");
    Assoc("<", "/", "div");
    Assoc("<" + "div" + " " + "style" + "" + "=" + "" + ['\''] + "background-image: " + "url(" + "" + ['"'] + u + ['"'] + "" + ")" + ['\''] + ">", "<" + "/" + "div", ">");
    Assoc("<" + "div" + " " + "style" + "" + "=" + "" + ['\''] + "background-image: " + "url(" + "" + ['"'] + u + ['"'] + "" + ")" + ['\''] + ">", "<" + "/", "div");
    Assoc("<" + "div" + " " + "style" + "" + "=" + "" + ['\''] + "background-image: " + "url(" + "" + ['"'] + u + ['"'] + "" + ")" + ['\''] + ">", "<", "/");
    Assoc("<" + "div", " " + "style" + "" + "=" + "", ['\'']);
    Assoc("<" + "div", " " + "style" + "" + "=", "");
    Assoc("<" + "div", " " + "style" + "", "=");
    Assoc("<" + "div", " " + "style", "");
    Assoc("<" + "div", " ", "style");
    Assoc("<" + "div" + " " + "style" + "" + "=" + "" + ['\''] + "background-image: ", "url(" + "", ['"']);
    Assoc("<" + "div" + " " + "style" + "" + "=" + "" + ['\''] + "background-image: ", "url(", "");
    Assoc("<" + "div" + " " + "style" + "" + "=" + "" + ['\''] + "background-image: " + "url(" + "" + ['"'] + u, ['"'] + "" + ")" + ['\''] + ">" + "<" + "/" + "div", ">");
    Assoc("<" + "div" + " " + "style" + "" + "=" + "" + ['\''] + "background-image: " + "url(" + "" + ['"'] + u, ['"'] + "" + ")" + ['\''] + ">" + "<" + "/", "div");
    Assoc("<" + "div" + " " + "style" + "" + "=" + "" + ['\''] + "background-image: " + "url(" + "" + ['"'] + u, ['"'] + "" + ")" + ['\''] + ">" + "<", "/");
    Assoc("<" + "div" + " " + "style" + "" + "=" + "" + ['\''] + "background-image: " + "url(" + "" + ['"'] + u, ['"'] + "" + ")" + ['\''] + ">", "<");
    Assoc("<" + "div" + " " + "style" + "" + "=" + "" + ['\''] + "background-image: " + "url(" + "" + ['"'] + u, ['"'] + "" + ")" + ['\''], ">");
    Assoc("<" + "div" + " " + "style" + "" + "=" + "" + ['\''] + "background-image: " + "url(" + "" + ['"'] + u, ['"'] + "" + ")", ['\'']);
    Assoc("<" + "div" + " " + "style" + "" + "=" + "" + ['\''] + "background-image: " + "url(" + "" + ['"'] + u, ['"'] + "", ")");
    Assoc("<" + "div" + " " + "style" + "" + "=" + "" + ['\''] + "background-image: " + "url(" + "" + ['"'] + u, ['"'], "");
  }

  lemma Style208Render(u: string)
    ensures RenderNode(Element("div", [Attribute(" ", "style", Some(Assignment("", "", QuotedValue('\'', "background-image: " + ("url(" + ("" + (['"'] + u + ['"'] + ("" + ")"))))))))], false)) + RenderNode(EndTag("div"))
      == "<div" + " style='" + "background-image: " + "url(\"" + u + "\")'></div>"
  {
    Attributes1(Attribute(" ", "style", Some(Assignment("", "", QuotedValue('\'', "background-image: " + ("url(" + ("" + (['"'] + u + ['"'] + ("" + ")")))))))));
    assert RenderAttribute(Attribute(" ", "style", Some(Assignment("", "", QuotedValue('\'', "background-image: " + ("url(" + ("" + (['"'] + u + ['"'] + ("" + ")"))))))))) == " " + ("style" + ("" + ("=" + ("" + (['\''] + ("background-image: " + ("url(" + ("" + (['"'] + u + ['"'] + ("" + ")"))))) + ['\''])))));
    assert RenderNode(Element("div", [Attribute(" ", "style", Some(Assignment("", "", QuotedValue('\'', "background-image: " + ("url(" + ("" + (['"'] + u + ['"'] + ("" + ")"))))))))], false)) == "<" + ("div" + ((" " + ("style" + ("" + ("=" + ("" + (['\''] + ("background-image: " + ("url(" + ("" + (['"'] + u + ['"'] + ("" + ")"))))) + ['\''])))))) + ">"));
    assert RenderNode(EndTag("div")) == "<" + ("/" + ("div" + ">"));
    Style208Text(u);
  }

  lemma Style208Attribute1Value()
    ensures '\'' !in "background-image: " + ("url(" + ("" + (['"'] + "/one.png" + ['"'] + ("" + ")"))))
  {
  }

  lemma Style208Attribute1()
    ensures AttributeWellFormed(Attribute(" ", "style", Some(Assignment("", "", QuotedValue('\'', "background-image: " + ("url(" + ("" + (['"'] + "/one.png" + ['"'] + ("" + ")")))))))))
  {
    AttributeStyle();
    Style208Attribute1Value();
    QuotedAttributeWellFormed(" ", "style", "", "", '\'', "background-image: " + ("url(" + ("" + (['"'] + "/one.png" + ['"'] + ("" + ")")))));
  }

  lemma Style208Node1()
    ensures NodeWellFormed(Element("div", [Attribute(" ", "style", Some(Assignment("", "", QuotedValue('\'', "background-image: " + ("url(" + ("" + (['"'] + "/one.png" + ['"'] + ("" + ")"))))))))], false))
  {
    TagDiv();
    Style208Attribute1();
    Attributes1(Attribute(" ", "style", Some(Assignment("", "", QuotedValue('\'', "background-image: " + ("url(" + ("" + (['"'] + "/one.png" + ['"'] + ("" + ")")))))))));
  }

  lemma Style208Node2()
    ensures NodeWellFormed(EndTag("div"))
  {
  }

  lemma Style208WellFormed()
    ensures NodeWellFormed(Element("div", [Attribute(" ", "style", Some(Assignment("", "", QuotedValue('\'', "background-image: " + ("url(" + ("" + (['"'] + "/one.png" + ['"'] + ("" + ")"))))))))], false)) && NodeWellFormed(EndTag("div"))
  {
    Style208Node1();
    Style208Node2();
  }

  lemma Style208Refs()
    ensures NodeRefs(Element("div", [Attribute(" ", "style", Some(Assignment("", "", QuotedValue('\'', "background-image: " + ("url(" + ("" + (['"'] + "/one.png" + ['"'] + ("" + ")"))))))))], false)) + NodeRefs(EndTag("div")) == ["/one.png"]
  {
    Attributes1(Attribute(" ", "style", Some(Assignment("", "", QuotedValue('\'', "background-image: " + ("url(" + ("" + (['"'] + "/one.png" + ['"'] + ("" + ")")))))))));
    AttributeStyle();
    StyleAttribute(Attribute(" ", "style", Some(Assignment("", "", QuotedValue('\'', "background-image: " + ("url(" + ("" + (['"'] + "/one.png" + ['"'] + ("" + ")")))))))));
    Style208StyleScan();
  }

  lemma Style208Scan()
    ensures RawReferences(Html, "<div" + " style='" + "background-image: " + "url(\"" + "/one.png" + "\")'></div>") == ["/one.png"]
  {
    Style208Render("/one.png");
    Style208WellFormed();
    Style208Refs();
    Document2(Element("div", [Attribute(" ", "style", Some(Assignment("", "", QuotedValue('\'', "background-image: " + ("url(" + ("" + (['"'] + "/one.png" + ['"'] + ("" + ")"))))))))], false), EndTag("div"));
  }

  lemma Style208TargetSegment()
    ensures Segment("one.png")
  {
    SegmentIntro("one.png");
  }

  lemma Style208TargetJoin()
    ensures "/" + "one.png" == "/one.png"
  {
  }

  lemma Style208TargetTrim()
    ensures Trim("/one.png") == "/one.png"
  {
    TrimPlain("/one.png");
  }

  lemma Style208Target()
    ensures Target(Base, "/one.png") == At("/one.png")
  {
    Style208TargetSegment();
    Style208TargetJoin();
    Style208TargetTrim();
    RootTarget("/one.png", "one.png");
  }

  /** a double-quoted url() inside a single-quoted style attribute */
  lemma Style208()
    ensures Extract(Html, "<div" + " style='" + "background-image: " + "url(\"" + "/one.png" + "\")'></div>", Page, Host) == [Domain + "/one.png"]
  {
    Style208Scan();
    Style208Target();
    ExtractOne(Html, "<div" + " style='" + "background-image: " + "url(\"" + "/one.png" + "\")'></div>", "/one.png", "/one.png");
  }

  lemma Style210StyleRender(u: string)
    ensures CssScanner.RenderCss([CssScanner.Plain("background-IMAGE: "), CssScanner.UrlRef("url(", "", CssScanner.Bare(u), "")])
      == "background-IMAGE: " + ("url(" + ("" + (u + ("" + ")"))))
  {
    Sheet2(CssScanner.Plain("background-IMAGE: "), CssScanner.UrlRef("url(", "", CssScanner.Bare(u), ""));
    assert CssScanner.RenderItem(CssScanner.Plain("background-IMAGE: ")) == "background-IMAGE: ";
    assert CssScanner.RenderItem(CssScanner.UrlRef("url(", "", CssScanner.Bare(u), "")) == "url(" + ("" + (u + ("" + ")")));
  }

  lemma Style210StyleItem1At()
    ensures '@' !in "background-IMAGE: "
  {
  }

  lemma Style210StyleItem1Paren()
    ensures '(' !in "background-IMAGE: "
  {
  }

  lemma Style210StyleItem1()
    ensures CssScanner.ItemWellFormed(CssScanner.Plain("background-IMAGE: "))
  {
    Style210StyleItem1At();
    Style210StyleItem1Paren();
    NoParen("background-IMAGE: ");
  }

  lemma Style210StyleItem2Close()
    ensures ')' !in "/two.png"
  {
  }

  lemma Style210StyleItem2()
    ensures CssScanner.ItemWellFormed(CssScanner.UrlRef("url(", "", CssScanner.Bare("/two.png"), ""))
  {
    UrlOpener();
    Style210StyleItem2Close();
  }

  lemma Style210StyleWellFormed()
    ensures CssScanner.WellFormed([CssScanner.Plain("background-IMAGE: "), CssScanner.UrlRef("url(", "", CssScanner.Bare("/two.png"), "")])
  {
    Style210StyleItem1();
    Style210StyleItem2();
    SheetWellFormed2(CssScanner.Plain("background-IMAGE: "), CssScanner.UrlRef("url(", "", CssScanner.Bare("/two.png"), ""));
  }

  lemma Style210StyleScan()
    ensures CssScanner.ScanCss("background-IMAGE: " + ("url(" + ("" + ("/two.png" + ("" + ")"))))) == ["/two.png"]
  {
    Style210StyleRender("/two.png");
    Style210StyleWellFormed();
    Sheet2(CssScanner.Plain("background-IMAGE: "), CssScanner.UrlRef("url(", "", CssScanner.Bare("/two.png"), ""));
    CssScanner.ScanRenderCss([CssScanner.Plain("background-IMAGE: "), CssScanner.UrlRef("url(", "", CssScanner.Bare("/two.png"), "")]);
    EmptyRight("/two.png");
  }

  lemma Style210Run1()
    ensures "<" + "div" == "<div"
  {
  }

  lemma Style210Run2()
    ensures " " + "STYLE" + "" + "=" + "" + ['\''] == " STYLE='"
  {
  }

  lemma Style210Run3()
    ensures "url(" + "" == "url("
  {
  }

  lemma Style210Run4()
    ensures "" + ")" + ['\''] + ">" + "<" + "/" + "div" + ">" == ")'></div>"
  {
  }

  lemma Style210Text(u: string)
    ensures ("<" + ("div" + ((" " + ("STYLE" + ("" + ("=" + ("" + (['\''] + ("background-IMAGE: " + ("url(" + ("" + (u + ("" + ")"))))) + ['\''])))))) + ">"))) + ("<" + ("/" + ("div" + ">")))
      == "<div" + " STYLE='" + "background-IMAGE: " + "url(" + u + ")'></div>"
  {
    Style210Run1();
    Style210Run2();
    Style210Run3();
    Style210Run4();
    Assoc(u, "", ")");
    Assoc("", u + "", ")");
    Assoc("", u, "");
    Assoc("url(", "" + u + "", ")");
    Assoc("url(", "" + u, "");
    Assoc("url(", "", u);
    Assoc("background-IMAGE: ", "url(" + "" + u + "", ")");
    Assoc("background-IMAGE: ", "url(" + "" + u, "");
    Assoc("background-IMAGE: ", "url(" + "", u);
    Assoc("background-IMAGE: ", "url(", "");
    Assoc(['\''], "background-IMAGE: " + "url(" + "" + u + "", ")");
    Assoc(['\''], "background-IMAGE: " + "url(" + "" + u, "");
    Assoc(['\''], "background-IMAGE: " + "url(" + "", u);
    Assoc(['\''], "background-IMAGE: " + "url(", "");
    Assoc(['\''], "background-IMAGE: ", "url(");
    Assoc("", ['\''] + "background-IMAGE: " + "url(" + "" + u + "" + ")", ['\'']);
    Assoc("", ['\''] + "background-IMAGE: " + "url(" + "" + u + "", ")");
    Assoc("", ['\''] + "background-IMAGE: " + "url(" + "" + u, "");
    Assoc("", ['\''] + "background-IMAGE: " + "url(" + "", u);
    Assoc("", ['\''] + "background-IMAGE: " + "url(", "");
    Assoc("", ['\''] + "background-IMAGE: ", "url(");
    Assoc("", ['\''], "background-IMAGE: ");
    Assoc("=", "" + ['\''] + "background-IMAGE: " + "url(" + "" + u + "" + ")", ['\'']);
    Assoc("=", "" + ['\''] + "background-IMAGE: " + "url(" + "" + u + "", ")");
    Assoc("=", "" + ['\''] + "background-IMAGE: " + "url(" + "" + u, "");
    Assoc("=", "" + ['\''] + "background-IMAGE: " + "url(" + "", u);
    Assoc("=", "" + ['\''] + "background-IMAGE: " + "url(", "");
    Assoc("=", "" + ['\''] + "background-IMAGE: ", "url(");
    Assoc("=", "" + ['\''], "background-IMAGE: ");
    Assoc("=", "", ['\'']);
    Assoc("", "=" + "" + ['\''] + "background-IMAGE: " + "url(" + "" + u + "" + ")", ['\'']);
    Assoc("", "=" + "" + ['\''] + "background-IMAGE: " + "url(" + "" + u + "", ")");
    Assoc("", "=" + "" + ['\''] + "background-IMAGE: " + "url(" + "" + u, "");
    Assoc("", "=" + "" + ['\''] + "background-IMAGE: " + "url(" + "", u);
    Assoc("", "=" + "" + ['\''] + "background-IMAGE: " + "url(", "");
    Assoc("", "=" + "" + ['\''] + "background-IMAGE: ", "url(");
    Assoc("", "=" + "" + ['\''], "background-IMAGE: ");
    Assoc("", "=" + "", ['\'']);
    Assoc("", "=", "");
    Assoc("STYLE", "" + "=" + "" + ['\''] + "background-IMAGE: " + "url(" + "" + u + "" + ")", ['\'']);
    Assoc("STYLE", "" + "=" + "" + ['\''] + "background-IMAGE: " + "url(" + "" + u + "", ")");
    Assoc("STYLE", "" + "=" + "" + ['\''] + "background-IMAGE: " + "url(" + "" + u, "");
    Assoc("STYLE", "" + "=" + "" + ['\''] + "background-IMAGE: " + "url(" + "", u);
    Assoc("STYLE", "" + "=" + "" + ['\''] + "background-IMAGE: " + "url(", "");
    Assoc("STYLE", "" + "=" + "" + ['\''] + "background-IMAGE: ", "url(");
    Assoc("STYLE", "" + "=" + "" + ['\''], "background-IMAGE: ");
    Assoc("STYLE", "" + "=" + "", ['\'']);
    Assoc("STYLE", "" + "=", "");
    Assoc("STYLE", "", "=");
    Assoc(" ", "STYLE" + "" + "=" + "" + ['\''] + "background-IMAGE: " + "url(" + "" + u + "" + ")", ['\'']);
    Assoc(" ", "STYLE" + "" + "=" + "" + ['\''] + "background-IMAGE: " + "url(" + "" + u + "", ")");
    Assoc(" ", "STYLE" + "" + "=" + "" + ['\''] + "background-IMAGE: " + "url(" + "" + u, "");
    Assoc(" ", "STYLE" + "" + "=" + "" + ['\''] + "background-IMAGE: " + "url(" + "", u);
    Assoc(" ", "STYLE" + "" + "=" + "" + ['\''] + "background-IMAGE: " + "url(", "");
    Assoc(" ", "STYLE" + "" + "=" + "" + ['\''] + "background-IMAGE: ", "url(");
    Assoc(" ", "STYLE" + "" + "=" + "" + ['\''], "background-IMAGE: ");
    Assoc(" ", "STYLE" + "" + "=" + "", ['\'']);
    Assoc(" ", "STYLE" + "" + "=", "");
    Assoc(" ", "STYLE" + "", "=");
    Assoc(" ", "STYLE", "");
    Assoc("div", " " + "STYLE" + "" + "=" + "" + ['\''] + "background-IMAGE: " + "url(" + "" + u + "" + ")" + ['\''], ">");
    Assoc("div", " " + "STYLE" + "" + "=" + "" + ['\''] + "background-IMAGE: " + "url(" + "" + u + "" + ")", ['\'']);
    Assoc("div", " " + "STYLE" + "" + "=" + "" + ['\''] + "background-IMAGE: " + "url(" + "" + u + "", ")");
    Assoc("div", " " + "STYLE" + "" + "=" + "" + ['\''] + "background-IMAGE: " + "url(" + "" + u, "");
    Assoc("div", " " + "STYLE" + "" + "=" + "" + ['\''] + "background-IMAGE: " + "url(" + "", u);
    Assoc("div", " " + "STYLE" + "" + "=" + "" + ['\''] + "background-IMAGE: " + "url(", "");
    Assoc("div", " " + "STYLE" + "" + "=" + "" + ['\''] + "background-IMAGE: ", "url(");
    Assoc("div", " " + "STYLE" + "" + "=" + "" + ['\''], "background-IMAGE: ");
    Assoc("div", " " + "STYLE" + "" + "=" + "", ['\'']);
    Assoc("div", " " + "STYLE" + "" + "=", "");
    Assoc("div", " " + "STYLE" + "", "=");
    Assoc("div", " " + "STYLE", "");
    Assoc("div", " ", "STYLE");
    Assoc("<", "div" + " " + "STYLE" + "" + "=" + "" + ['\''] + "background-IMAGE: " + "url(" + "" + u + "" + ")" + ['\''], ">");
    Assoc("<", "div" + " " + "STYLE" + "" + "=" + "" + ['\''] + "background-IMAGE: " + "url(" + "" + u + "" + ")", ['\'']);
    Assoc("<", "div" + " " + "STYLE" + "" + "=" + "" + ['\''] + "background-IMAGE: " + "url(" + "" + u + "", ")");
    Assoc("<", "div" + " " + "STYLE" + "" + "=" + "" + ['\''] + "background-IMAGE: " + "url(" + "" + u, "");
    Assoc("<", "div" + " " + "STYLE" + "" + "=" + "" + ['\''] + "background-IMAGE: " + "url(" + "", u);
    Assoc("<", "div" + " " + "STYLE" + "" + "=" + "" + ['\''] + "background-IMAGE: " + "url(", "");
    Assoc("<", "div" + " " + "STYLE" + "" + "=" + "" + ['\''] + "background-IMAGE: ", "url(");
    Assoc("<", "div" + " " + "STYLE" + "" + "=" + "" + ['\''], "background-IMAGE: ");
    Assoc("<", "div" + " " + "STYLE" + "" + "=" + "", ['\'']);
    Assoc("<", "div" + " " + "STYLE" + "" + "=", "");
    Assoc("<", "div" + " " + "STYLE" + "", "=");
    Assoc("<", "div" + " " + "STYLE", "");
    Assoc("<", "div" + " ", "STYLE");
    Assoc("<", "div", " ");
    Assoc("/", "div", ">");
    Assoc("<", "/" + "div", ">");
    Assoc("<", "/", "div");
    Assoc("<" + "div" + " " + "STYLE" + "" + "=" + "" + ['\''] + "background-IMAGE: " + "url(" + "" + u + "" + ")" + ['\''] + ">", "<" + "/" + "div", ">");
    Assoc("<" + "div" + " " + "STYLE" + "" + "=" + "" + ['\''] + "background-IMAGE: " + "url(" + "" + u + "" + ")" + ['\''] + ">", "<" + "/", "div");
    Assoc("<" + "div" + " " + "STYLE" + "" + "=" + "" + ['\''] + "background-IMAGE: " + "url(" + "" + u + "" + ")" + ['\''] + ">", "<", "/");
    Assoc("<" + "div", " " + "STYLE" + "" + "=" + "", ['\'']);
    Assoc("<" + "div", " " + "STYLE" + "" + "=", "");
    Assoc("<" + "div", " " + "STYLE" + "", "=");
    Assoc("<" + "div", " " + "STYLE", "");
    Assoc("<" + "div", " ", "STYLE");
    Assoc("<" + "div" + " " + "STYLE" + "" + "=" + "" + ['\''] + "background-IMAGE: ", "url(", "");
    Assoc("<" + "div" + " " + "STYLE" + "" + "=" + "" + ['\''] + "background-IMAGE: " + "url(" + "" + u, "" + ")" + ['\''] + ">" + "<" + "/" + "div", ">");
    Assoc("<" + "div" + " " + "STYLE" + "" + "=" + "" + ['\''] + "background-IMAGE: " + "url(" + "" + u, "" + ")" + ['\''] + ">" + "<" + "/", "div");
    Assoc("<" + "div" + " " + "STYLE" + "" + "=" + "" + ['\''] + "background-IMAGE: " + "url(" + "" + u, "" + ")" + ['\''] + ">" + "<", "/");
    Assoc("<" + "div" + " " + "STYLE" + "" + "=" + "" + ['\''] + "background-IMAGE: " + "url(" + "" + u, "" + ")" + ['\''] + ">", "<");
    Assoc("<" + "div" + " " + "STYLE" + "" + "=" + "" + ['\''] + "background-IMAGE: " + "url(" + "" + u, "" + ")" + ['\''], ">");
    Assoc("<" + "div" + " " + "STYLE" + "" + "=" + "" + ['\''] + "background-IMAGE: " + "url(" + "" + u, "" + ")", ['\'']);
    Assoc("<" + "div" + " " + "STYLE" + "" + "=" + "" + ['\''] + "background-IMAGE: " + "url(" + "" + u, "", ")");
  }

  lemma Style210Render(u: string)
    ensures RenderNode(Element("div", [Attribute(" ", "STYLE", Some(Assignment("", "", QuotedValue('\'', "background-IMAGE: " + ("url(" + ("" + (u + ("" + ")"))))))))], false)) + RenderNode(EndTag("div"))
      == "<div" + " STYLE='" + "background-IMAGE: " + "url(" + u + ")'></div>"
  {
    Attributes1(Attribute(" ", "STYLE", Some(Assignment("", "", QuotedValue('\'', "background-IMAGE: " + ("url(" + ("" + (u + ("" + ")")))))))));
    assert RenderAttribute(Attribute(" ", "STYLE", Some(Assignment("", "", QuotedValue('\'', "background-IMAGE: " + ("url(" + ("" + (u + ("" + ")"))))))))) == " " + ("STYLE" + ("" + ("=" + ("" + (['\''] + ("background-IMAGE: " + ("url(" + ("" + (u + ("" + ")"))))) + ['\''])))));
    assert RenderNode(Element("div", [Attribute(" ", "STYLE", Some(Assignment("", "", QuotedValue('\'', "background-IMAGE: " + ("url(" + ("" + (u + ("" + ")"))))))))], false)) == "<" + ("div" + ((" " + ("STYLE" + ("" + ("=" + ("" + (['\''] + ("background-IMAGE: " + ("url(" + ("" + (u + ("" + ")"))))) + ['\''])))))) + ">"));
    assert RenderNode(EndTag("div")) == "<" + ("/" + ("div" + ">"));
    Style210Text(u);
  }

  lemma Style210Attribute1Value()
    ensures '\'' !in "background-IMAGE: " + ("url(" + ("" + ("/two.png" + ("" + ")"))))
  {
  }

  lemma Style210Attribute1()
    ensures AttributeWellFormed(Attribute(" ", "STYLE", Some(Assignment("", "", QuotedValue('\'', "background-IMAGE: " + ("url(" + ("" + ("/two.png" + ("" + ")")))))))))
  {
    AttributeSTYLE();
    Style210Attribute1Value();
    QuotedAttributeWellFormed(" ", "STYLE", "", "", '\'', "background-IMAGE: " + ("url(" + ("" + ("/two.png" + ("" + ")")))));
  }

  lemma Style210Node1()
    ensures NodeWellFormed(Element("div", [Attribute(" ", "STYLE", Some(Assignment("", "", QuotedValue('\'', "background-IMAGE: " + ("url(" + ("" + ("/two.png" + ("" + ")"))))))))], false))
  {
    TagDiv();
    Style210Attribute1();
    Attributes1(Attribute(" ", "STYLE", Some(Assignment("", "", QuotedValue('\'', "background-IMAGE: " + ("url(" + ("" + ("/two.png" + ("" + ")")))))))));
  }

  lemma Style210Node2()
    ensures NodeWellFormed(EndTag("div"))
  {
  }

  lemma Style210WellFormed()
    ensures NodeWellFormed(Element("div", [Attribute(" ", "STYLE", Some(Assignment("", "", QuotedValue('\'', "background-IMAGE: " + ("url(" + ("" + ("/two.png" + ("" + ")"))))))))], false)) && NodeWellFormed(EndTag("div"))
  {
    Style210Node1();
    Style210Node2();
  }

  lemma Style210Refs()
    ensures NodeRefs(Element("div", [Attribute(" ", "STYLE", Some(Assignment("", "", QuotedValue('\'', "background-IMAGE: " + ("url(" + ("" + ("/two.png" + ("" + ")"))))))))], false)) + NodeRefs(EndTag("div")) == ["/two.png"]
  {
    Attributes1(Attribute(" ", "STYLE", Some(Assignment("", "", QuotedValue('\'', "background-IMAGE: " + ("url(" + ("" + ("/two.png" + ("" + ")")))))))));
    AttributeSTYLE();
    StyleAttribute(Attribute(" ", "STYLE", Some(Assignment("", "", QuotedValue('\'', "background-IMAGE: " + ("url(" + ("" + ("/two.png" + ("" + ")")))))))));
    Style210StyleScan();
  }

  lemma Style210Scan()
    ensures RawReferences(Html, "<div" + " STYLE='" + "background-IMAGE: " + "url(" + "/two.png" + ")'></div>") == ["/two.png"]
  {
    Style210Render("/two.png");
    Style210WellFormed();
    Style210Refs();
    Document2(Element("div", [Attribute(" ", "STYLE", Some(Assignment("", "", QuotedValue('\'', "background-IMAGE: " + ("url(" + ("" + ("/two.png" + ("" + ")"))))))))], false), EndTag("div"));
  }

  lemma Style210TargetSegment()
    ensures Segment("two.png")
  {
    SegmentIntro("two.png");
  }

  lemma Style210TargetJoin()
    ensures "/" + "two.png" == "/two.png"
  {
  }

  lemma Style210TargetTrim()
    ensures Trim("/two.png") == "/two.png"
  {
    TrimPlain("/two.png");
  }

  lemma Style210Target()
    ensures Target(Base, "/two.png") == At("/two.png")
  {
    Style210TargetSegment();
    Style210TargetJoin();
    Style210TargetTrim();
    RootTarget("/two.png", "two.png");
  }

  /** an unquoted url() in an upper-case STYLE attribute */
  lemma Style210()
    ensures Extract(Html, "<div" + " STYLE='" + "background-IMAGE: " + "url(" + "/two.png" + ")'></div>", Page, Host) == [Domain + "/two.png"]
  {
    Style210Scan();
    Style210Target();
    ExtractOne(Html, "<div" + " STYLE='" + "background-IMAGE: " + "url(" + "/two.png" + ")'></div>", "/two.png", "/two.png");
  }

  lemma Style212StyleRender(u: string)
    ensures CssScanner.RenderCss([CssScanner.Plain("background-image: "), CssScanner.UrlRef("url(", "", CssScanner.Quoted('\'', u), "")])
      == "background-image: " + ("url(" + ("" + (['\''] + u + ['\''] + ("" + ")"))))
  {
    Sheet2(CssScanner.Plain("background-image: "), CssScanner.UrlRef("url(", "", CssScanner.Quoted('\'', u), ""));
    assert CssScanner.RenderItem(CssScanner.Plain("background-image: ")) == "background-image: ";
    assert CssScanner.RenderItem(CssScanner.UrlRef("url(", "", CssScanner.Quoted('\'', u), "")) == "url(" + ("" + (['\''] + u + ['\''] + ("" + ")")));
  }

  lemma Style212StyleItem1At()
    ensures '@' !in "background-image: "
  {
  }

  lemma Style212StyleItem1Paren()
    ensures '(' !in "background-image: "
  {
  }

  lemma Style212StyleItem1()
    ensures CssScanner.ItemWellFormed(CssScanner.Plain("background-image: "))
  {
    Style212StyleItem1At();
    Style212StyleItem1Paren();
    NoParen("background-image: ");
  }

  lemma Style212StyleItem2Quote()
    ensures '\'' !in "/three.png"
  {
  }

  lemma Style212StyleItem2()
    ensures CssScanner.ItemWellFormed(CssScanner.UrlRef("url(", "", CssScanner.Quoted('\'', "/three.png"), ""))
  {
    UrlOpener();
    Style212StyleItem2Quote();
  }

  lemma Style212StyleWellFormed()
    ensures CssScanner.WellFormed([CssScanner.Plain("background-image: "), CssScanner.UrlRef("url(", "", CssScanner.Quoted('\'', "/three.png"), "")])
  {
    Style212StyleItem1();
    Style212StyleItem2();
    SheetWellFormed2(CssScanner.Plain("background-image: "), CssScanner.UrlRef("url(", "", CssScanner.Quoted('\'', "/three.png"), ""));
  }

  lemma Style212StyleScan()
    ensures CssScanner.ScanCss("background-image: " + ("url(" + ("" + (['\''] + "/three.png" + ['\''] + ("" + ")"))))) == ["/three.png"]
  {
    Style212StyleRender("/three.png");
    Style212StyleWellFormed();
    Sheet2(CssScanner.Plain("background-image: "), CssScanner.UrlRef("url(", "", CssScanner.Quoted('\'', "/three.png"), ""));
    CssScanner.ScanRenderCss([CssScanner.Plain("background-image: "), CssScanner.UrlRef("url(", "", CssScanner.Quoted('\'', "/three.png"), "")]);
  }

  lemma Style212Run1()
    ensures "<" + "div" == "<div"
  {
  }

  lemma Style212Run2()
    ensures " " + "style" + "" + "=" + "" + ['"'] == " style=\""
  {
  }

  lemma Style212Run3()
    ensures "url(" + "" + ['\''] == "url('"
  {
  }

  lemma Style212Run4()
    ensures ['\''] + "" + ")" + ['"'] + ">" + "<" + "/" + "div" + ">" == "')\"></div>"
  {
  }

  lemma Style212Text(u: string)
    ensures ("<" + ("div" + ((" " + ("style" + ("" + ("=" + ("" + (['"'] + ("background-image: " + ("url(" + ("" + (['\''] + u + ['\''] + ("" + ")"))))) + ['"'])))))) + ">"))) + ("<" + ("/" + ("div" + ">")))
      == "<div" + " style=\"" + "background-image: " + "url('" + u + "')\"></div>"
  {
    Style212Run1();
    Style212Run2();
    Style212Run3();
    Style212Run4();
    Assoc(['\''] + u + ['\''], "", ")");
    Assoc("", ['\''] + u + ['\''] + "", ")");
    Assoc("", ['\''] + u + ['\''], "");
    Assoc("", ['\''] + u, ['\'']);
    Assoc("", ['\''], u);
    Assoc("url(", "" + ['\''] + u + ['\''] + "", ")");
    Assoc("url(", "" + ['\''] + u + ['\''], "");
    Assoc("url(", "" + ['\''] + u, ['\'']);
    Assoc("url(", "" + ['\''], u);
    Assoc("url(", "", ['\'']);
    Assoc("background-image: ", "url(" + "" + ['\''] + u + ['\''] + "", ")");
    Assoc("background-image: ", "url(" + "" + ['\''] + u + ['\''], "");
    Assoc("background-image: ", "url(" + "" + ['\''] + u, ['\'']);
    Assoc("background-image: ", "url(" + "" + ['\''], u);
    Assoc("background-image: ", "url(" + "", ['\'']);
    Assoc("background-image: ", "url(", "");
    Assoc(['"'], "background-image: " + "url(" + "" + ['\''] + u + ['\''] + "", ")");
    Assoc(['"'], "background-image: " + "url(" + "" + ['\''] + u + ['\''], "");
    Assoc(['"'], "background-image: " + "url(" + "" + ['\''] + u, ['\'']);
    Assoc(['"'], "background-image: " + "url(" + "" + ['\''], u);
    Assoc(['"'], "background-image: " + "url(" + "", ['\'']);
    Assoc(['"'], "background-image: " + "url(", "");
    Assoc(['"'], "background-image: ", "url(");
    Assoc("", ['"'] + "background-image: " + "url(" + "" + ['\''] + u + ['\''] + "" + ")", ['"']);
    Assoc("", ['"'] + "background-image: " + "url(" + "" + ['\''] + u + ['\''] + "", ")");
    Assoc("", ['"'] + "background-image: " + "url(" + "" + ['\''] + u + ['\''], "");
    Assoc("", ['"'] + "background-image: " + "url(" + "" + ['\''] + u, ['\'']);
    Assoc("", ['"'] + "background-image: " + "url(" + "" + ['\''], u);
    Assoc("", ['"'] + "background-image: " + "url(" + "", ['\'']);
    Assoc("", ['"'] + "background-image: " + "url(", "");
    Assoc("", ['"'] + "background-image: ", "url(");
    Assoc("", ['"'], "background-image: ");
    Assoc("=", "" + ['"'] + "background-image: " + "url(" + "" + ['\''] + u + ['\''] + "" + ")", ['"']);
    Assoc("=", "" + ['"'] + "background-image: " + "url(" + "" + ['\''] + u + ['\''] + "", ")");
    Assoc("=", "" + ['"'] + "background-image: " + "url(" + "" + ['\''] + u + ['\''], "");
    Assoc("=", "" + ['"'] + "background-image: " + "url(" + "" + ['\''] + u, ['\'']);
    Assoc("=", "" + ['"'] + "background-image: " + "url(" + "" + ['\''], u);
    Assoc("=", "" + ['"'] + "background-image: " + "url(" + "", ['\'']);
    Assoc("=", "" + ['"'] + "background-image: " + "url(", "");
    Assoc("=", "" + ['"'] + "background-image: ", "url(");
    Assoc("=", "" + ['"'], "background-image: ");
    Assoc("=", "", ['"']);
    Assoc("", "=" + "" + ['"'] + "background-image: " + "url(" + "" + ['\''] + u + ['\''] + "" + ")", ['"']);
    Assoc("", "=" + "" + ['"'] + "background-image: " + "url(" + "" + ['\''] + u + ['\''] + "", ")");
    Assoc("", "=" + "" + ['"'] + "background-image: " + "url(" + "" + ['\''] + u + ['\''], "");
    Assoc("", "=" + "" + ['"'] + "background-image: " + "url(" + "" + ['\''] + u, ['\'']);
    Assoc("", "=" + "" + ['"'] + "background-image: " + "url(" + "" + ['\''], u);
    Assoc("", "=" + "" + ['"'] + "background-image: " + "url(" + "", ['\'']);
    Assoc("", "=" + "" + ['"'] + "background-image: " + "url(", "");
    Assoc("", "=" + "" + ['"'] + "background-image: ", "url(");
    Assoc("", "=" + "" + ['"'], "background-image: ");
    Assoc("", "=" + "", ['"']);
    Assoc("", "=", "");
    Assoc("style", "" + "=" + "" + ['"'] + "background-image: " + "url(" + "" + ['\''] + u + ['\''] + "" + ")", ['"']);
    Assoc("style", "" + "=" + "" + ['"'] + "background-image: " + "url(" + "" + ['\''] + u + ['\''] + "", ")");
    Assoc("style", "" + "=" + "" + ['"'] + "background-image: " + "url(" + "" + ['\''] + u + ['\''], "");
    Assoc("style", "" + "=" + "" + ['"'] + "background-image: " + "url(" + "" + ['\''] + u, ['\'']);
    Assoc("style", "" + "=" + "" + ['"'] + "background-image: " + "url(" + "" + ['\''], u);
    Assoc("style", "" + "=" + "" + ['"'] + "background-image: " + "url(" + "", ['\'']);
    Assoc("style", "" + "=" + "" + ['"'] + "background-image: " + "url(", "");
    Assoc("style", "" + "=" + "" + ['"'] + "background-image: ", "url(");
    Assoc("style", "" + "=" + "" + ['"'], "background-image: ");
    Assoc("style", "" + "=" + "", ['"']);
    Assoc("style", "" + "=", "");
    Assoc("style", "", "=");
    Assoc(" ", "style" + "" + "=" + "" + ['"'] + "background-image: " + "url(" + "" + ['\''] + u + ['\''] + "" + ")", ['"']);
    Assoc(" ", "style" + "" + "=" + "" + ['"'] + "background-image: " + "url(" + "" + ['\''] + u + ['\''] + "", ")");
    Assoc(" ", "style" + "" + "=" + "" + ['"'] + "background-image: " + "url(" + "" + ['\''] + u + ['\''], "");
    Assoc(" ", "style" + "" + "=" + "" + ['"'] + "background-image: " + "url(" + "" + ['\''] + u, ['\'']);
    Assoc(" ", "style" + "" + "=" + "" + ['"'] + "background-image: " + "url(" + "" + ['\''], u);
    Assoc(" ", "style" + "" + "=" + "" + ['"'] + "background-image: " + "url(" + "", ['\'']);
    Assoc(" ", "style" + "" + "=" + "" + ['"'] + "background-image: " + "url(", "");
    Assoc(" ", "style" + "" + "=" + "" + ['"'] + "background-image: ", "url(");
    Assoc(" ", "style" + "" + "=" + "" + ['"'], "background-image: ");
    Assoc(" ", "style" + "" + "=" + "", ['"']);
    Assoc(" ", "style" + "" + "=", "");
    Assoc(" ", "style" + "", "=");
    Assoc(" ", "style", "");
    Assoc("div", " " + "style" + "" + "=" + "" + ['"'] + "background-image: " + "url(" + "" + ['\''] + u + ['\''] + "" + ")" + ['"'], ">");
    Assoc("div", " " + "style" + "" + "=" + "" + ['"'] + "background-image: " + "url(" + "" + ['\''] + u + ['\''] + "" + ")", ['"']);
    Assoc("div", " " + "style" + "" + "=" + "" + ['"'] + "background-image: " + "url(" + "" + ['\''] + u + ['\''] + "", ")");
    Assoc("div", " " + "style" + "" + "=" + "" + ['"'] + "background-image: " + "url(" + "" + ['\''] + u + ['\''], "");
    Assoc("div", " " + "style" + "" + "=" + "" + ['"'] + "background-image: " + "url(" + "" + ['\''] + u, ['\'']);
    Assoc("div", " " + "style" + "" + "=" + "" + ['"'] + "background-image: " + "url(" + "" + ['\''], u);
    Assoc("div", " " + "style" + "" + "=" + "" + ['"'] + "background-image: " + "url(" + "", ['\'']);
    Assoc("div", " " + "style" + "" + "=" + "" + ['"'] + "background-image: " + "url(", "");
    Assoc("div", " " + "style" + "" + "=" + "" + ['"'] + "background-image: ", "url(");
    Assoc("div", " " + "style" + "" + "=" + "" + ['"'], "background-image: ");
    Assoc("div", " " + "style" + "" + "=" + "", ['"']);
    Assoc("div", " " + "style" + "" + "=", "");
    Assoc("div", " " + "style" + "", "=");
    Assoc("div", " " + "style", "");
    Assoc("div", " ", "style");
    Assoc("<", "div" + " " + "style" + "" + "=" + "" + ['"'] + "background-image: " + "url(" + "" + ['\''] + u + ['\''] + "" + ")" + ['"'], ">");
    Assoc("<", "div" + " " + "style" + "" + "=" + "" + ['"'] + "background-image: " + "url(" + "" + ['\''] + u + ['\''] + "" + ")", ['"']);
    Assoc("<", "div" + " " + "style" + "" + "=" + "" + ['"'] + "background-image: " + "url(" + "" + ['\''] + u + ['\''] + "", ")");
    Assoc("<", "div" + " " + "style" + "" + "=" + "" + ['"'] + "background-image: " + "url(" + "" + ['\''] + u + ['\''], "");
    Assoc("<", "div" + " " + "style" + "" + "=" + "" + ['"'] + "background-image: " + "url(" + "" + ['\''] + u, ['\'']);
    Assoc("<", "div" + " " + "style" + "" + "=" + "" + ['"'] + "background-image: " + "url(" + "" + ['\''], u);
    Assoc("<", "div" + " " + "style" + "" + "=" + "" + ['"'] + "background-image: " + "url(" + "", ['\'']);
    Assoc("<", "div" + " " + "style" + "" + "=" + "" + ['"'] + "background-image: " + "url(", "");
    Assoc("<", "div" + " " + "style" + "" + "=" + "" + ['"'] + "background-image: ", "url(");
    Assoc("<", "div" + " " + "style" + "" + "=" + "" + ['"'], "background-image: ");
    Assoc("<", "div" + " " + "style" + "" + "=" + "", ['"']);
    Assoc("<", "div" + " " + "style" + "" + "=", "");
    Assoc("<", "div" + " " + "style" + "", "=");
    Assoc("<", "div" + " " + "style", "");
    Assoc("<", "div" + " ", "style");
    Assoc("<", "div", " ");
    Assoc("/", "div", ">");
    Assoc("<", "/" + "div", ">");
    Assoc("<", "/", "div");
    Assoc("<" + "div" + " " + "style" + "" + "=" + "" + ['"'] + "background-image: " + "url(" + "" + ['\''] + u + ['\''] + "" + ")" + ['"'] + ">", "<" + "/" + "div", ">");
    Assoc("<" + "div" + " " + "style" + "" + "=" + "" + ['"'] + "background-image: " + "url(" + "" + ['\''] + u + ['\''] + "" + ")" + ['"'] + ">", "<" + "/", "div");
    Assoc("<" + "div" + " " + "style" + "" + "=" + "" + ['"'] + "background-image: " + "url(" + "" + ['\''] + u + ['\''] + "" + ")" + ['"'] + ">", "<", "/");
    Assoc("<" + "div", " " + "style" + "" + "=" + "", ['"']);
    Assoc("<" + "div", " " + "style" + "" + "=", "");
    Assoc("<" + "div", " " + "style" + "", "=");
    Assoc("<" + "div", " " + "style", "");
    Assoc("<" + "div", " ", "style");
    Assoc("<" + "div" + " " + "style" + "" + "=" + "" + ['"'] + "background-image: ", "url(" + "", ['\'']);
    Assoc("<" + "div" + " " + "style" + "" + "=" + "" + ['"'] + "background-image: ", "url(", "");
    Assoc("<" + "div" + " " + "style" + "" + "=" + "" + ['"'] + "background-image: " + "url(" + "" + ['\''] + u, ['\''] + "" + ")" + ['"'] + ">" + "<" + "/" + "div", ">");
    Assoc("<" + "div" + " " + "style" + "" + "=" + "" + ['"'] + "background-image: " + "url(" + "" + ['\''] + u, ['\''] + "" + ")" + ['"'] + ">" + "<" + "/", "div");
    Assoc("<" + "div" + " " + "style" + "" + "=" + "" + ['"'] + "background-image: " + "url(" + "" + ['\''] + u, ['\''] + "" + ")" + ['"'] + ">" + "<", "/");
    Assoc("<" + "div" + " " + "style" + "" + "=" + "" + ['"'] + "background-image: " + "url(" + "" + ['\''] + u, ['\''] + "" + ")" + ['"'] + ">", "<");
    Assoc("<" + "div" + " " + "style" + "" + "=" + "" + ['"'] + "background-image: " + "url(" + "" + ['\''] + u, ['\''] + "" + ")" + ['"'], ">");
    Assoc("<" + "div" + " " + "style" + "" + "=" + "" + ['"'] + "background-image: " + "url(" + "" + ['\''] + u, ['\''] + "" + ")", ['"']);
    Assoc("<" + "div" + " " + "style" + "" + "=" + "" + ['"'] + "background-image: " + "url(" + "" + ['\''] + u, ['\''] + "", ")");
    Assoc("<" + "div" + " " + "style" + "" + "=" + "" + ['"'] + "background-image: " + "url(" + "" + ['\''] + u, ['\''], "");
  }

  lemma Style212Render(u: string)
    ensures RenderNode(Element("div", [Attribute(" ", "style", Some(Assignment("", "", QuotedValue('"', "background-image: " + ("url(" + ("" + (['\''] + u + ['\''] + ("" + ")"))))))))], false)) + RenderNode(EndTag("div"))
      == "<div" + " style=\"" + "background-image: " + "url('" + u + "')\"></div>"
  {
    Attributes1(Attribute(" ", "style", Some(Assignment("", "", QuotedValue('"', "background-image: " + ("url(" + ("" + (['\''] + u + ['\''] + ("" + ")")))))))));
    assert RenderAttribute(Attribute(" ", "style", Some(Assignment("", "", QuotedValue('"', "background-image: " + ("url(" + ("" + (['\''] + u + ['\''] + ("" + ")"))))))))) == " " + ("style" + ("" + ("=" + ("" + (['"'] + ("background-image: " + ("url(" + ("" + (['\''] + u + ['\''] + ("" + ")"))))) + ['"'])))));
    assert RenderNode(Element("div", [Attribute(" ", "style", Some(Assignment("", "", QuotedValue('"', "background-image: " + ("url(" + ("" + (['\''] + u + ['\''] + ("" + ")"))))))))], false)) == "<" + ("div" + ((" " + ("style" + ("" + ("=" + ("" + (['"'] + ("background-image: " + ("url(" + ("" + (['\''] + u + ['\''] + ("" + ")"))))) + ['"'])))))) + ">"));
    assert RenderNode(EndTag("div")) == "<" + ("/" + ("div" + ">"));
    Style212Text(u);
  }

  lemma Style212Attribute1Value()
    ensures '"' !in "background-image: " + ("url(" + ("" + (['\''] + "/three.png" + ['\''] + ("" + ")"))))
  {
  }

  lemma Style212Attribute1()
    ensures AttributeWellFormed(Attribute(" ", "style", Some(Assignment("", "", QuotedValue('"', "background-image: " + ("url(" + ("" + (['\''] + "/three.png" + ['\''] + ("" + ")")))))))))
  {
    AttributeStyle();
    Style212Attribute1Value();
    QuotedAttributeWellFormed(" ", "style", "", "", '"', "background-image: " + ("url(" + ("" + (['\''] + "/three.png" + ['\''] + ("" + ")")))));
  }

  lemma Style212Node1()
    ensures NodeWellFormed(Element("div", [Attribute(" ", "style", Some(Assignment("", "", QuotedValue('"', "background-image: " + ("url(" + ("" + (['\''] + "/three.png" + ['\''] + ("" + ")"))))))))], false))
  {
    TagDiv();
    Style212Attribute1();
    Attributes1(Attribute(" ", "style", Some(Assignment("", "", QuotedValue('"', "background-image: " + ("url(" + ("" + (['\''] + "/three.png" + ['\''] + ("" + ")")))))))));
  }

  lemma Style212Node2()
    ensures NodeWellFormed(EndTag("div"))
  {
  }

  lemma Style212WellFormed()
    ensures NodeWellFormed(Element("div", [Attribute(" ", "style", Some(Assignment("", "", QuotedValue('"', "background-image: " + ("url(" + ("" + (['\''] + "/three.png" + ['\''] + ("" + ")"))))))))], false)) && NodeWellFormed(EndTag("div"))
  {
    Style212Node1();
    Style212Node2();
  }

  lemma Style212Refs()
    ensures NodeRefs(Element("div", [Attribute(" ", "style", Some(Assignment("", "", QuotedValue('"', "background-image: " + ("url(" + ("" + (['\''] + "/three.png" + ['\''] + ("" + ")"))))))))], false)) + NodeRefs(EndTag("div")) == ["/three.png"]
  {
    Attributes1(Attribute(" ", "style", Some(Assignment("", "", QuotedValue('"', "background-image: " + ("url(" + ("" + (['\''] + "/three.png" + ['\''] + ("" + ")")))))))));
    AttributeStyle();
    StyleAttribute(Attribute(" ", "style", Some(Assignment("", "", QuotedValue('"', "background-image: " + ("url(" + ("" + (['\''] + "/three.png" + ['\''] + ("" + ")")))))))));
    Style212StyleScan();
  }

  lemma Style212Scan()
    ensures RawReferences(Html, "<div" + " style=\"" + "background-image: " + "url('" + "/three.png" + "')\"></div>") == ["/three.png"]
  {
    Style212Render("/three.png");
    Style212WellFormed();
    Style212Refs();
    Document2(Element("div", [Attribute(" ", "style", Some(Assignment("", "", QuotedValue('"', "background-image: " + ("url(" + ("" + (['\''] + "/three.png" + ['\''] + ("" + ")"))))))))], false), EndTag("div"));
  }

  lemma Style212TargetSegment()
    ensures Segment("three.png")
  {
    SegmentIntro("three.png");
  }

  lemma Style212TargetJoin()
    ensures "/" + "three.png" == "/three.png"
  {
  }

  lemma Style212TargetTrim()
    ensures Trim("/three.png") == "/three.png"
  {
    TrimPlain("/three.png");
  }

  lemma Style212Target()
    ensures Target(Base, "/three.png") == At("/three.png")
  {
    Style212TargetSegment();
    Style212TargetJoin();
    Style212TargetTrim();
    RootTarget("/three.png", "three.png");
  }

  /** a single-quoted url() inside a double-quoted style attribute */
  lemma Style212()
    ensures Extract(Html, "<div" + " style=\"" + "background-image: " + "url('" + "/three.png" + "')\"></div>", Page, Host) == [Domain + "/three.png"]
  {
    Style212Scan();
    Style212Target();
    ExtractOne(Html, "<div" + " style=\"" + "background-image: " + "url('" + "/three.png" + "')\"></div>", "/three.png", "/three.png");
  }

  lemma Block232SheetRender(u: string)
    ensures CssScanner.RenderCss([CssScanner.Plain(" "), CssScanner.ImportKeyword("@import", " "), CssScanner.UrlRef("url(", "", CssScanner.Quoted('"', u), ""), CssScanner.Plain(" print; ")])
      == " " + (("@import" + " ") + (("url(" + ("" + (['"'] + u + ['"'] + ("" + ")")))) + " print; "))
  {
    Sheet4(CssScanner.Plain(" "), CssScanner.ImportKeyword("@import", " "), CssScanner.UrlRef("url(", "", CssScanner.Quoted('"', u), ""), CssScanner.Plain(" print; "));
    assert CssScanner.RenderItem(CssScanner.Plain(" ")) == " ";
    assert CssScanner.RenderItem(CssScanner.ImportKeyword("@import", " ")) == "@import" + " ";
    assert CssScanner.RenderItem(CssScanner.UrlRef("url(", "", CssScanner.Quoted('"', u), "")) == "url(" + ("" + (['"'] + u + ['"'] + ("" + ")")));
    assert CssScanner.RenderItem(CssScanner.Plain(" print; ")) == " print; ";
  }

  lemma Block232SheetItem1At()
    ensures '@' !in " "
  {
  }

  lemma Block232SheetItem1Paren()
    ensures '(' !in " "
  {
  }

  lemma Block232SheetItem1()
    ensures CssScanner.ItemWellFormed(CssScanner.Plain(" "))
  {
    Block232SheetItem1At();
    Block232SheetItem1Paren();
    NoParen(" ");
  }

  lemma Block232SheetItem2()
    ensures CssScanner.ItemWellFormed(CssScanner.ImportKeyword("@import", " "))
  {
    ImportOpener();
  }

  lemma Block232SheetItem3Quote()
    ensures '"' !in "/import.css"
  {
  }

  lemma Block232SheetItem3()
    ensures CssScanner.ItemWellFormed(CssScanner.UrlRef("url(", "", CssScanner.Quoted('"', "/import.css"), ""))
  {
    UrlOpener();
    Block232SheetItem3Quote();
  }

  lemma Block232SheetItem4At()
    ensures '@' !in " print; "
  {
  }

  lemma Block232SheetItem4Paren()
    ensures '(' !in " print; "
  {
  }

  lemma Block232SheetItem4()
    ensures CssScanner.ItemWellFormed(CssScanner.Plain(" print; "))
  {
    Block232SheetItem4At();
    Block232SheetItem4Paren();
    NoParen(" print; ");
  }

  lemma Block232SheetWellFormed()
    ensures CssScanner.WellFormed([CssScanner.Plain(" "), CssScanner.ImportKeyword("@import", " "), CssScanner.UrlRef("url(", "", CssScanner.Quoted('"', "/import.css"), ""), CssScanner.Plain(" print; ")])
  {
    Block232SheetItem1();
    Block232SheetItem2();
    Block232SheetItem3();
    Block232SheetItem4();
    SheetWellFormed4(CssScanner.Plain(" "), CssScanner.ImportKeyword("@import", " "), CssScanner.UrlRef("url(", "", CssScanner.Quoted('"', "/import.css"), ""), CssScanner.Plain(" print; "));
  }

  lemma Block232SheetScan()
    ensures CssScanner.ScanCss(" " + (("@import" + " ") + (("url(" + ("" + (['"'] + "/import.css" + ['"'] + ("" + ")")))) + " print; "))) == ["/import.css"]
  {
    Block232SheetRender("/import.css");
    Block232SheetWellFormed();
    Sheet4(CssScanner.Plain(" "), CssScanner.ImportKeyword("@import", " "), CssScanner.UrlRef("url(", "", CssScanner.Quoted('"', "/import.css"), ""), CssScanner.Plain(" print; "));
    CssScanner.ScanRenderCss([CssScanner.Plain(" "), CssScanner.ImportKeyword("@import", " "), CssScanner.UrlRef("url(", "", CssScanner.Quoted('"', "/import.css"), ""), CssScanner.Plain(" print; ")]);
  }

  lemma Block232Run1()
    ensures "<" + "STYLE" + "" + ">" == "<STYLE>"
  {
  }

  lemma Block232Run2()
    ensures " " + "@import" == " @import"
  {
  }

  lemma Block232Run3()
    ensures " " + "url(" + "" + ['"'] == " url(\""
  {
  }

  lemma Block232Run4()
    ensures ['"'] + "" + ")" == "\")"
  {
  }

  lemma Block232Run5()
    ensures " print; " + "<" + "/" + "STYLE" + ">" == " print; </STYLE>"
  {
  }

  lemma Block232Text(u: string)
    ensures ("<" + ("STYLE" + ("" + (">" + ((" " + (("@import" + " ") + (("url(" + ("" + (['"'] + u + ['"'] + ("" + ")")))) + " print; "))) + ("<" + ("/" + ("STYLE" + ">"))))))))
      == "<STYLE>" + " @import" + " url(\"" + u + "\")" + " print; </STYLE>"
  {
    Block232Run1();
    Block232Run2();
    Block232Run3();
    Block232Run4();
    Block232Run5();
    Assoc(['"'] + u + ['"'], "", ")");
    Assoc("", ['"'] + u + ['"'] + "", ")");
    Assoc("", ['"'] + u + ['"'], "");
    Assoc("", ['"'] + u, ['"']);
    Assoc("", ['"'], u);
    Assoc("url(", "" + ['"'] + u + ['"'] + "", ")");
    Assoc("url(", "" + ['"'] + u + ['"'], "");
    Assoc("url(", "" + ['"'] + u, ['"']);
    Assoc("url(", "" + ['"'], u);
    Assoc("url(", "", ['"']);
    Assoc("@import" + " ", "url(" + "" + ['"'] + u + ['"'] + "" + ")", " print; ");
    Assoc("@import" + " ", "url(" + "" + ['"'] + u + ['"'] + "", ")");
    Assoc("@import" + " ", "url(" + "" + ['"'] + u + ['"'], "");
    Assoc("@import" + " ", "url(" + "" + ['"'] + u, ['"']);
    Assoc("@import" + " ", "url(" + "" + ['"'], u);
    Assoc("@import" + " ", "url(" + "", ['"']);
    Assoc("@import" + " ", "url(", "");
    Assoc(" ", "@import" + " " + "url(" + "" + ['"'] + u + ['"'] + "" + ")", " print; ");
    Assoc(" ", "@import" + " " + "url(" + "" + ['"'] + u + ['"'] + "", ")");
    Assoc(" ", "@import" + " " + "url(" + "" + ['"'] + u + ['"'], "");
    Assoc(" ", "@import" + " " + "url(" + "" + ['"'] + u, ['"']);
    Assoc(" ", "@import" + " " + "url(" + "" + ['"'], u);
    Assoc(" ", "@import" + " " + "url(" + "", ['"']);
    Assoc(" ", "@import" + " " + "url(", "");
    Assoc(" ", "@import" + " ", "url(");
    Assoc(" ", "@import", " ");
    Assoc("/", "STYLE", ">");
    Assoc("<", "/" + "STYLE", ">");
    Assoc("<", "/", "STYLE");
    Assoc(" " + "@import" + " " + "url(" + "" + ['"'] + u + ['"'] + "" + ")" + " print; ", "<" + "/" + "STYLE", ">");
    Assoc(" " + "@import" + " " + "url(" + "" + ['"'] + u + ['"'] + "" + ")" + " print; ", "<" + "/", "STYLE");
    Assoc(" " + "@import" + " " + "url(" + "" + ['"'] + u + ['"'] + "" + ")" + " print; ", "<", "/");
    Assoc(">", " " + "@import" + " " + "url(" + "" + ['"'] + u + ['"'] + "" + ")" + " print; " + "<" + "/" + "STYLE", ">");
    Assoc(">", " " + "@import" + " " + "url(" + "" + ['"'] + u + ['"'] + "" + ")" + " print; " + "<" + "/", "STYLE");
    Assoc(">", " " + "@import" + " " + "url(" + "" + ['"'] + u + ['"'] + "" + ")" + " print; " + "<", "/");
    Assoc(">", " " + "@import" + " " + "url(" + "" + ['"'] + u + ['"'] + "" + ")" + " print; ", "<");
    Assoc(">", " " + "@import" + " " + "url(" + "" + ['"'] + u + ['"'] + "" + ")", " print; ");
    Assoc(">", " " + "@import" + " " + "url(" + "" + ['"'] + u + ['"'] + "", ")");
    Assoc(">", " " + "@import" + " " + "url(" + "" + ['"'] + u + ['"'], "");
    Assoc(">", " " + "@import" + " " + "url(" + "" + ['"'] + u, ['"']);
    Assoc(">", " " + "@import" + " " + "url(" + "" + ['"'], u);
    Assoc(">", " " + "@import" + " " + "url(" + "", ['"']);
    Assoc(">", " " + "@import" + " " + "url(", "");
    Assoc(">", " " + "@import" + " ", "url(");
    Assoc(">", " " + "@import", " ");
    Assoc(">", " ", "@import");
    Assoc("", ">" + " " + "@import" + " " + "url(" + "" + ['"'] + u + ['"'] + "" + ")" + " print; " + "<" + "/" + "STYLE", ">");
    Assoc("", ">" + " " + "@import" + " " + "url(" + "" + ['"'] + u + ['"'] + "" + ")" + " print; " + "<" + "/", "STYLE");
    Assoc("", ">" + " " + "@import" + " " + "url(" + "" + ['"'] + u + ['"'] + "" + ")" + " print; " + "<", "/");
    Assoc("", ">" + " " + "@import" + " " + "url(" + "" + ['"'] + u + ['"'] + "" + ")" + " print; ", "<");
    Assoc("", ">" + " " + "@import" + " " + "url(" + "" + ['"'] + u + ['"'] + "" + ")", " print; ");
    Assoc("", ">" + " " + "@import" + " " + "url(" + "" + ['"'] + u + ['"'] + "", ")");
    Assoc("", ">" + " " + "@import" + " " + "url(" + "" + ['"'] + u + ['"'], "");
    Assoc("", ">" + " " + "@import" + " " + "url(" + "" + ['"'] + u, ['"']);
    Assoc("", ">" + " " + "@import" + " " + "url(" + "" + ['"'], u);
    Assoc("", ">" + " " + "@import" + " " + "url(" + "", ['"']);
    Assoc("", ">" + " " + "@import" + " " + "url(", "");
    Assoc("", ">" + " " + "@import" + " ", "url(");
    Assoc("", ">" + " " + "@import", " ");
    Assoc("", ">" + " ", "@import");
    Assoc("", ">", " ");
    Assoc("STYLE", "" + ">" + " " + "@import" + " " + "url(" + "" + ['"'] + u + ['"'] + "" + ")" + " print; " + "<" + "/" + "STYLE", ">");
    Assoc("STYLE", "" + ">" + " " + "@import" + " " + "url(" + "" + ['"'] + u + ['"'] + "" + ")" + " print; " + "<" + "/", "STYLE");
    Assoc("STYLE", "" + ">" + " " + "@import" + " " + "url(" + "" + ['"'] + u + ['"'] + "" + ")" + " print; " + "<", "/");
    Assoc("STYLE", "" + ">" + " " + "@import" + " " + "url(" + "" + ['"'] + u + ['"'] + "" + ")" + " print; ", "<");
    Assoc("STYLE", "" + ">" + " " + "@import" + " " + "url(" + "" + ['"'] + u + ['"'] + "" + ")", " print; ");
    Assoc("STYLE", "" + ">" + " " + "@import" + " " + "url(" + "" + ['"'] + u + ['"'] + "", ")");
    Assoc("STYLE", "" + ">" + " " + "@import" + " " + "url(" + "" + ['"'] + u + ['"'], "");
    Assoc("STYLE", "" + ">" + " " + "@import" + " " + "url(" + "" + ['"'] + u, ['"']);
    Assoc("STYLE", "" + ">" + " " + "@import" + " " + "url(" + "" + ['"'], u);
    Assoc("STYLE", "" + ">" + " " + "@import" + " " + "url(" + "", ['"']);
    Assoc("STYLE", "" + ">" + " " + "@import" + " " + "url(", "");
    Assoc("STYLE", "" + ">" + " " + "@import" + " ", "url(");
    Assoc("STYLE", "" + ">" + " " + "@import", " ");
    Assoc("STYLE", "" + ">" + " ", "@import");
    Assoc("STYLE", "" + ">", " ");
    Assoc("STYLE", "", ">");
    Assoc("<", "STYLE" + "" + ">" + " " + "@import" + " " + "url(" + "" + ['"'] + u + ['"'] + "" + ")" + " print; " + "<" + "/" + "STYLE", ">");
    Assoc("<", "STYLE" + "" + ">" + " " + "@import" + " " + "url(" + "" + ['"'] + u + ['"'] + "" + ")" + " print; " + "<" + "/", "STYLE");
    Assoc("<", "STYLE" + "" + ">" + " " + "@import" + " " + "url(" + "" + ['"'] + u + ['"'] + "" + ")" + " print; " + "<", "/");
    Assoc("<", "STYLE" + "" + ">" + " " + "@import" + " " + "url(" + "" + ['"'] + u + ['"'] + "" + ")" + " print; ", "<");
    Assoc("<", "STYLE" + "" + ">" + " " + "@import" + " " + "url(" + "" + ['"'] + u + ['"'] + "" + ")", " print; ");
    Assoc("<", "STYLE" + "" + ">" + " " + "@import" + " " + "url(" + "" + ['"'] + u + ['"'] + "", ")");
    Assoc("<", "STYLE" + "" + ">" + " " + "@import" + " " + "url(" + "" + ['"'] + u + ['"'], "");
    Assoc("<", "STYLE" + "" + ">" + " " + "@import" + " " + "url(" + "" + ['"'] + u, ['"']);
    Assoc("<", "STYLE" + "" + ">" + " " + "@import" + " " + "url(" + "" + ['"'], u);
    Assoc("<", "STYLE" + "" + ">" + " " + "@import" + " " + "url(" + "", ['"']);
    Assoc("<", "STYLE" + "" + ">" + " " + "@import" + " " + "url(", "");
    Assoc("<", "STYLE" + "" + ">" + " " + "@import" + " ", "url(");
    Assoc("<", "STYLE" + "" + ">" + " " + "@import", " ");
    Assoc("<", "STYLE" + "" + ">" + " ", "@import");
    Assoc("<", "STYLE" + "" + ">", " ");
    Assoc("<", "STYLE" + "", ">");
    Assoc("<", "STYLE", "");
    Assoc("<" + "STYLE" + "" + ">", " ", "@import");
    Assoc("<" + "STYLE" + "" + ">" + " " + "@import", " " + "url(" + "", ['"']);
    Assoc("<" + "STYLE" + "" + ">" + " " + "@import", " " + "url(", "");
    Assoc("<" + "STYLE" + "" + ">" + " " + "@import", " ", "url(");
    Assoc("<" + "STYLE" + "" + ">" + " " + "@import" + " " + "url(" + "" + ['"'] + u, ['"'] + "", ")");
    Assoc("<" + "STYLE" + "" + ">" + " " + "@import" + " " + "url(" + "" + ['"'] + u, ['"'], "");
    Assoc("<" + "STYLE" + "" + ">" + " " + "@import" + " " + "url(" + "" + ['"'] + u + ['"'] + "" + ")", " print; " + "<" + "/" + "STYLE", ">");
    Assoc("<" + "STYLE" + "" + ">" + " " + "@import" + " " + "url(" + "" + ['"'] + u + ['"'] + "" + ")", " print; " + "<" + "/", "STYLE");
    Assoc("<" + "STYLE" + "" + ">" + " " + "@import" + " " + "url(" + "" + ['"'] + u + ['"'] + "" + ")", " print; " + "<", "/");
    Assoc("<" + "STYLE" + "" + ">" + " " + "@import" + " " + "url(" + "" + ['"'] + u + ['"'] + "" + ")", " print; ", "<");
  }

  lemma Block232Render(u: string)
    ensures RenderNode(StyleBlock("STYLE", [], [CssScanner.Plain(" "), CssScanner.ImportKeyword("@import", " "), CssScanner.UrlRef("url(", "", CssScanner.Quoted('"', u), ""), CssScanner.Plain(" print; ")], "STYLE"))
      == "<STYLE>" + " @import" + " url(\"" + u + "\")" + " print; </STYLE>"
  {
    Sheet4(CssScanner.Plain(" "), CssScanner.ImportKeyword("@import", " "), CssScanner.UrlRef("url(", "", CssScanner.Quoted('"', u), ""), CssScanner.Plain(" print; "));
    assert CssScanner.RenderItem(CssScanner.Plain(" ")) == " ";
    assert CssScanner.RenderItem(CssScanner.ImportKeyword("@import", " ")) == "@import" + " ";
    assert CssScanner.RenderItem(CssScanner.UrlRef("url(", "", CssScanner.Quoted('"', u), "")) == "url(" + ("" + (['"'] + u + ['"'] + ("" + ")")));
    assert CssScanner.RenderItem(CssScanner.Plain(" print; ")) == " print; ";
    assert RenderNode(StyleBlock("STYLE", [], [CssScanner.Plain(" "), CssScanner.ImportKeyword("@import", " "), CssScanner.UrlRef("url(", "", CssScanner.Quoted('"', u), ""), CssScanner.Plain(" print; ")], "STYLE")) == "<" + ("STYLE" + ("" + (">" + ((" " + (("@import" + " ") + (("url(" + ("" + (['"'] + u + ['"'] + ("" + ")")))) + " print; "))) + ("<" + ("/" + ("STYLE" + ">")))))));
    Block232Text(u);
  }

  lemma Block232SheetOpen()
    ensures '<' !in " " + (("@import" + " ") + (("url(" + ("" + (['"'] + "/import.css" + ['"'] + ("" + ")")))) + " print; "))
  {
  }

  lemma Block232Node1()
    ensures NodeWellFormed(StyleBlock("STYLE", [], [CssScanner.Plain(" "), CssScanner.ImportKeyword("@import", " "), CssScanner.UrlRef("url(", "", CssScanner.Quoted('"', "/import.css"), ""), CssScanner.Plain(" print; ")], "STYLE"))
  {
    TagSTYLE();
    assert AttributesWellFormed([]);
    Block232SheetWellFormed();
    Block232SheetRender("/import.css");
    Block232SheetOpen();
  }

  lemma Block232WellFormed()
    ensures NodeWellFormed(StyleBlock("STYLE", [], [CssScanner.Plain(" "), CssScanner.ImportKeyword("@import", " "), CssScanner.UrlRef("url(", "", CssScanner.Quoted('"', "/import.css"), ""), CssScanner.Plain(" print; ")], "STYLE"))
  {
    Block232Node1();
  }

  lemma Block232Refs()
    ensures NodeRefs(StyleBlock("STYLE", [], [CssScanner.Plain(" "), CssScanner.ImportKeyword("@import", " "), CssScanner.UrlRef("url(", "", CssScanner.Quoted('"', "/import.css"), ""), CssScanner.Plain(" print; ")], "STYLE")) == ["/import.css"]
  {
    Sheet4(CssScanner.Plain(" "), CssScanner.ImportKeyword("@import", " "), CssScanner.UrlRef("url(", "", CssScanner.Quoted('"', "/import.css"), ""), CssScanner.Plain(" print; "));
  }

  lemma Block232Scan()
    ensures RawReferences(Html, "<STYLE>" + " @import" + " url(\"" + "/import.css" + "\")" + " print; </STYLE>") == ["/import.css"]
  {
    Block232Render("/import.css");
    Block232WellFormed();
    Block232Refs();
    Document1(StyleBlock("STYLE", [], [CssScanner.Plain(" "), CssScanner.ImportKeyword("@import", " "), CssScanner.UrlRef("url(", "", CssScanner.Quoted('"', "/import.css"), ""), CssScanner.Plain(" print; ")], "STYLE"));
  }

  lemma Block232TargetSegment()
    ensures Segment("import.css")
  {
    SegmentIntro("import.css");
  }

  lemma Block232TargetJoin()
    ensures "/" + "import.css" == "/import.css"
  {
  }

  lemma Block232TargetTrim()
    ensures Trim("/import.css") == "/import.css"
  {
    TrimPlain("/import.css");
  }

  lemma Block232Target()
    ensures Target(Base, "/import.css") == At("/import.css")
  {
    Block232TargetSegment();
    Block232TargetJoin();
    Block232TargetTrim();
    RootTarget("/import.css", "import.css");
  }

  /** <STYLE> @import url("/import.css") print; </STYLE> */
  lemma Block232()
    ensures Extract(Html, "<STYLE>" + " @import" + " url(\"" + "/import.css" + "\")" + " print; </STYLE>", Page, Host) == [Domain + "/import.css"]
  {
    Block232Scan();
    Block232Target();
    ExtractOne(Html, "<STYLE>" + " @import" + " url(\"" + "/import.css" + "\")" + " print; </STYLE>", "/import.css", "/import.css");
  }

  lemma Block234SheetRender(u: string)
    ensures CssScanner.RenderCss([CssScanner.Plain(" div { background-image: "), CssScanner.UrlRef("url(", "", CssScanner.Bare(u), ""), CssScanner.Plain("; } ")])
      == " div { background-image: " + (("url(" + ("" + (u + ("" + ")")))) + "; } ")
  {
    Sheet3(CssScanner.Plain(" div { background-image: "), CssScanner.UrlRef("url(", "", CssScanner.Bare(u), ""), CssScanner.Plain("; } "));
    assert CssScanner.RenderItem(CssScanner.Plain(" div { background-image: ")) == " div { background-image: ";
    assert CssScanner.RenderItem(CssScanner.UrlRef("url(", "", CssScanner.Bare(u), "")) == "url(" + ("" + (u + ("" + ")")));
    assert CssScanner.RenderItem(CssScanner.Plain("; } ")) == "; } ";
  }

  lemma Block234SheetItem1At()
    ensures '@' !in " div { background-image: "
  {
  }

  lemma Block234SheetItem1Paren()
    ensures '(' !in " div { background-image: "
  {
  }

  lemma Block234SheetItem1()
    ensures CssScanner.ItemWellFormed(CssScanner.Plain(" div { background-image: "))
  {
    Block234SheetItem1At();
    Block234SheetItem1Paren();
    NoParen(" div { background-image: ");
  }

  lemma Block234SheetItem2Close()
    ensures ')' !in "/image-one.png"
  {
  }

  lemma Block234SheetItem2()
    ensures CssScanner.ItemWellFormed(CssScanner.UrlRef("url(", "", CssScanner.Bare("/image-one.png"), ""))
  {
    UrlOpener();
    Block234SheetItem2Close();
  }

  lemma Block234SheetItem3At()
    ensures '@' !in "; } "
  {
  }

  lemma Block234SheetItem3Paren()
    ensures '(' !in "; } "
  {
  }

  lemma Block234SheetItem3()
    ensures CssScanner.ItemWellFormed(CssScanner.Plain("; } "))
  {
    Block234SheetItem3At();
    Block234SheetItem3Paren();
    NoParen("; } ");
  }

  lemma Block234SheetWellFormed()
    ensures CssScanner.WellFormed([CssScanner.Plain(" div { background-image: "), CssScanner.UrlRef("url(", "", CssScanner.Bare("/image-one.png"), ""), CssScanner.Plain("; } ")])
  {
    Block234SheetItem1();
    Block234SheetItem2();
    Block234SheetItem3();
    SheetWellFormed3(CssScanner.Plain(" div { background-image: "), CssScanner.UrlRef("url(", "", CssScanner.Bare("/image-one.png"), ""), CssScanner.Plain("; } "));
  }

  lemma Block234SheetScan()
    ensures CssScanner.ScanCss(" div { background-image: " + (("url(" + ("" + ("/image-one.png" + ("" + ")")))) + "; } ")) == ["/image-one.png"]
  {
    Block234SheetRender("/image-one.png");
    Block234SheetWellFormed();
    Sheet3(CssScanner.Plain(" div { background-image: "), CssScanner.UrlRef("url(", "", CssScanner.Bare("/image-one.png"), ""), CssScanner.Plain("; } "));
    CssScanner.ScanRenderCss([CssScanner.Plain(" div { background-image: "), CssScanner.UrlRef("url(", "", CssScanner.Bare("/image-one.png"), ""), CssScanner.Plain("; } ")]);
    EmptyRight("/image-one.png");
  }

  lemma Block234Run1()
    ensures "<" + "style" + "" + ">" == "<style>"
  {
  }

  lemma Block234Run2()
    ensures "url(" + "" == "url("
  {
  }

  lemma Block234Run3()
    ensures "" + ")" + "; } " + "<" + "/" + "style" + ">" == "); } </style>"
  {
  }

  lemma Block234Text(u: string)
    ensures ("<" + ("style" + ("" + (">" + ((" div { background-image: " + (("url(" + ("" + (u + ("" + ")")))) + "; } ")) + ("<" + ("/" + ("style" + ">"))))))))
      == "<style>" + " div { background-image: " + "url(" + u + "); } </style>"
  {
    Block234Run1();
    Block234Run2();
    Block234Run3();
    Assoc(u, "", ")");
    Assoc("", u + "", ")");
    Assoc("", u, "");
    Assoc("url(", "" + u + "", ")");
    Assoc("url(", "" + u, "");
    Assoc("url(", "", u);
    Assoc(" div { background-image: ", "url(" + "" + u + "" + ")", "; } ");
    Assoc(" div { background-image: ", "url(" + "" + u + "", ")");
    Assoc(" div { background-image: ", "url(" + "" + u, "");
    Assoc(" div { background-image: ", "url(" + "", u);
    Assoc(" div { background-image: ", "url(", "");
    Assoc("/", "style", ">");
    Assoc("<", "/" + "style", ">");
    Assoc("<", "/", "style");
    Assoc(" div { background-image: " + "url(" + "" + u + "" + ")" + "; } ", "<" + "/" + "style", ">");
    Assoc(" div { background-image: " + "url(" + "" + u + "" + ")" + "; } ", "<" + "/", "style");
    Assoc(" div { background-image: " + "url(" + "" + u + "" + ")" + "; } ", "<", "/");
    Assoc(">", " div { background-image: " + "url(" + "" + u + "" + ")" + "; } " + "<" + "/" + "style", ">");
    Assoc(">", " div { background-image: " + "url(" + "" + u + "" + ")" + "; } " + "<" + "/", "style");
    Assoc(">", " div { background-image: " + "url(" + "" + u + "" + ")" + "; } " + "<", "/");
    Assoc(">", " div { background-image: " + "url(" + "" + u + "" + ")" + "; } ", "<");
    Assoc(">", " div { background-image: " + "url(" + "" + u + "" + ")", "; } ");
    Assoc(">", " div { background-image: " + "url(" + "" + u + "", ")");
    Assoc(">", " div { background-image: " + "url(" + "" + u, "");
    Assoc(">", " div { background-image: " + "url(" + "", u);
    Assoc(">", " div { background-image: " + "url(", "");
    Assoc(">", " div { background-image: ", "url(");
    Assoc("", ">" + " div { background-image: " + "url(" + "" + u + "" + ")" + "; } " + "<" + "/" + "style", ">");
    Assoc("", ">" + " div { background-image: " + "url(" + "" + u + "" + ")" + "; } " + "<" + "/", "style");
    Assoc("", ">" + " div { background-image: " + "url(" + "" + u + "" + ")" + "; } " + "<", "/");
    Assoc("", ">" + " div { background-image: " + "url(" + "" + u + "" + ")" + "; } ", "<");
    Assoc("", ">" + " div { background-image: " + "url(" + "" + u + "" + ")", "; } ");
    Assoc("", ">" + " div { background-image: " + "url(" + "" + u + "", ")");
    Assoc("", ">" + " div { background-image: " + "url(" + "" + u, "");
    Assoc("", ">" + " div { background-image: " + "url(" + "", u);
    Assoc("", ">" + " div { background-image: " + "url(", "");
    Assoc("", ">" + " div { background-image: ", "url(");
    Assoc("", ">", " div { background-image: ");
    Assoc("style", "" + ">" + " div { background-image: " + "url(" + "" + u + "" + ")" + "; } " + "<" + "/" + "style", ">");
    Assoc("style", "" + ">" + " div { background-image: " + "url(" + "" + u + "" + ")" + "; } " + "<" + "/", "style");
    Assoc("style", "" + ">" + " div { background-image: " + "url(" + "" + u + "" + ")" + "; } " + "<", "/");
    Assoc("style", "" + ">" + " div { background-image: " + "url(" + "" + u + "" + ")" + "; } ", "<");
    Assoc("style", "" + ">" + " div { background-image: " + "url(" + "" + u + "" + ")", "; } ");
    Assoc("style", "" + ">" + " div { background-image: " + "url(" + "" + u + "", ")");
    Assoc("style", "" + ">" + " div { background-image: " + "url(" + "" + u, "");
    Assoc("style", "" + ">" + " div { background-image: " + "url(" + "", u);
    Assoc("style", "" + ">" + " div { background-image: " + "url(", "");
    Assoc("style", "" + ">" + " div { background-image: ", "url(");
    Assoc("style", "" + ">", " div { background-image: ");
    Assoc("style", "", ">");
    Assoc("<", "style" + "" + ">" + " div { background-image: " + "url(" + "" + u + "" + ")" + "; } " + "<" + "/" + "style", ">");
    Assoc("<", "style" + "" + ">" + " div { background-image: " + "url(" + "" + u + "" + ")" + "; } " + "<" + "/", "style");
    Assoc("<", "style" + "" + ">" + " div { background-image: " + "url(" + "" + u + "" + ")" + "; } " + "<", "/");
    Assoc("<", "style" + "" + ">" + " div { background-image: " + "url(" + "" + u + "" + ")" + "; } ", "<");
    Assoc("<", "style" + "" + ">" + " div { background-image: " + "url(" + "" + u + "" + ")", "; } ");
    Assoc("<", "style" + "" + ">" + " div { background-image: " + "url(" + "" + u + "", ")");
    Assoc("<", "style" + "" + ">" + " div { background-image: " + "url(" + "" + u, "");
    Assoc("<", "style" + "" + ">" + " div { background-image: " + "url(" + "", u);
    Assoc("<", "style" + "" + ">" + " div { background-image: " + "url(", "");
    Assoc("<", "style" + "" + ">" + " div { background-image: ", "url(");
    Assoc("<", "style" + "" + ">", " div { background-image: ");
    Assoc("<", "style" + "", ">");
    Assoc("<", "style", "");
    Assoc("<" + "style" + "" + ">" + " div { background-image: ", "url(", "");
    Assoc("<" + "style" + "" + ">" + " div { background-image: " + "url(" + "" + u, "" + ")" + "; } " + "<" + "/" + "style", ">");
    Assoc("<" + "style" + "" + ">" + " div { background-image: " + "url(" + "" + u, "" + ")" + "; } " + "<" + "/", "style");
    Assoc("<" + "style" + "" + ">" + " div { background-image: " + "url(" + "" + u, "" + ")" + "; } " + "<", "/");
    Assoc("<" + "style" + "" + ">" + " div { background-image: " + "url(" + "" + u, "" + ")" + "; } ", "<");
    Assoc("<" + "style" + "" + ">" + " div { background-image: " + "url(" + "" + u, "" + ")", "; } ");
    Assoc("<" + "style" + "" + ">" + " div { background-image: " + "url(" + "" + u, "", ")");
  }

  lemma Block234Render(u: string)
    ensures RenderNode(StyleBlock("style", [], [CssScanner.Plain(" div { background-image: "), CssScanner.UrlRef("url(", "", CssScanner.Bare(u), ""), CssScanner.Plain("; } ")], "style"))
      == "<style>" + " div { background-image: " + "url(" + u + "); } </style>"
  {
    Sheet3(CssScanner.Plain(" div { background-image: "), CssScanner.UrlRef("url(", "", CssScanner.Bare(u), ""), CssScanner.Plain("; } "));
    assert CssScanner.RenderItem(CssScanner.Plain(" div { background-image: ")) == " div { background-image: ";
    assert CssScanner.RenderItem(CssScanner.UrlRef("url(", "", CssScanner.Bare(u), "")) == "url(" + ("" + (u + ("" + ")")));
    assert CssScanner.RenderItem(CssScanner.Plain("; } ")) == "; } ";
    assert RenderNode(StyleBlock("style", [], [CssScanner.Plain(" div { background-image: "), CssScanner.UrlRef("url(", "", CssScanner.Bare(u), ""), CssScanner.Plain("; } ")], "style")) == "<" + ("style" + ("" + (">" + ((" div { background-image: " + (("url(" + ("" + (u + ("" + ")")))) + "; } ")) + ("<" + ("/" + ("style" + ">")))))));
    Block234Text(u);
  }

  lemma Block234SheetOpen()
    ensures '<' !in " div { background-image: " + (("url(" + ("" + ("/image-one.png" + ("" + ")")))) + "; } ")
  {
  }

  lemma Block234Node1()
    ensures NodeWellFormed(StyleBlock("style", [], [CssScanner.Plain(" div { background-image: "), CssScanner.UrlRef("url(", "", CssScanner.Bare("/image-one.png"), ""), CssScanner.Plain("; } ")], "style"))
  {
    TagStyle();
    assert AttributesWellFormed([]);
    Block234SheetWellFormed();
    Block234SheetRender("/image-one.png");
    Block234SheetOpen();
  }

  lemma Block234WellFormed()
    ensures NodeWellFormed(StyleBlock("style", [], [CssScanner.Plain(" div { background-image: "), CssScanner.UrlRef("url(", "", CssScanner.Bare("/image-one.png"), ""), CssScanner.Plain("; } ")], "style"))
  {
    Block234Node1();
  }

  lemma Block234Refs()
    ensures NodeRefs(StyleBlock("style", [], [CssScanner.Plain(" div { background-image: "), CssScanner.UrlRef("url(", "", CssScanner.Bare("/image-one.png"), ""), CssScanner.Plain("; } ")], "style")) == ["/image-one.png"]
  {
    Sheet3(CssScanner.Plain(" div { background-image: "), CssScanner.UrlRef("url(", "", CssScanner.Bare("/image-one.png"), ""), CssScanner.Plain("; } "));
    EmptyRight("/image-one.png");
  }

  lemma Block234Scan()
    ensures RawReferences(Html, "<style>" + " div { background-image: " + "url(" + "/image-one.png" + "); } </style>") == ["/image-one.png"]
  {
    Block234Render("/image-one.png");
    Block234WellFormed();
    Block234Refs();
    Document1(StyleBlock("style", [], [CssScanner.Plain(" div { background-image: "), CssScanner.UrlRef("url(", "", CssScanner.Bare("/image-one.png"), ""), CssScanner.Plain("; } ")], "style"));
  }

  lemma Block234TargetSegment()
    ensures Segment("image-one.png")
  {
    SegmentIntro("image-one.png");
  }

  lemma Block234TargetJoin()
    ensures "/" + "image-one.png" == "/image-one.png"
  {
  }

  lemma Block234TargetTrim()
    ensures Trim("/image-one.png") == "/image-one.png"
  {
    TrimPlain("/image-one.png");
  }

  lemma Block234Target()
    ensures Target(Base, "/image-one.png") == At("/image-one.png")
  {
    Block234TargetSegment();
    Block234TargetJoin();
    Block234TargetTrim();
    RootTarget("/image-one.png", "image-one.png");
  }

  /** <style> div { background-image: url(/image-one.png); } </style> */
  lemma Block234()
    ensures Extract(Html, "<style>" + " div { background-image: " + "url(" + "/image-one.png" + "); } </style>", Page, Host) == [Domain + "/image-one.png"]
  {
    Block234Scan();
    Block234Target();
    ExtractOne(Html, "<style>" + " div { background-image: " + "url(" + "/image-one.png" + "); } </style>", "/image-one.png", "/image-one.png");
  }
}
