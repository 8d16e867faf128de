/**
 * The style sheet cases tabled in the extractor's unit tests, proved for
 * the test page http://example.org/blog/my-first-blog-post.
 */
module CssCases {
  import opened Wrappers
  import opened Text
  import opened Uri
  import opened UrlExtractor
  import opened ExtractorTargets
  import opened CaseKit
  import CssScanner

  lemma Sheet254SheetRender(u: string)
    ensures CssScanner.RenderCss([CssScanner.ImportKeyword("@import", " "), CssScanner.UrlRef("url(", "", CssScanner.Quoted('"', u), ""), CssScanner.Plain(" print;")])
      == ("@import" + " ") + (("url(" + ("" + (['"'] + u + ['"'] + ("" + ")")))) + " print;")
  {
    Sheet3(CssScanner.ImportKeyword("@import", " "), CssScanner.UrlRef("url(", "", CssScanner.Quoted('"', u), ""), CssScanner.Plain(" print;"));
    assert CssScanner.RenderItem(CssScanner.ImportKeyword("@import", " ")) == "@import" + " ";
    assert CssScanner.RenderItem(CssScanner.UrlRef("url(", "", CssScanner.Quoted('"', u), "")) == "url(" + ("" + (['"'] + u + ['"'] + ("" + ")")));
    assert CssScanner.RenderItem(CssScanner.Plain(" print;")) == " print;";
  }

  lemma Sheet254SheetItem1()
    ensures CssScanner.ItemWellFormed(CssScanner.ImportKeyword("@import", " "))
  {
    ImportOpener();
  }

  lemma Sheet254SheetItem2Quote()
    ensures '"' !in "./one.css"
  {
  }

  lemma Sheet254SheetItem2()
    ensures CssScanner.ItemWellFormed(CssScanner.UrlRef("url(", "", CssScanner.Quoted('"', "./one.css"), ""))
  {
    UrlOpener();
    Sheet254SheetItem2Quote();
  }

  lemma Sheet254SheetItem3At()
    ensures '@' !in " print;"
  {
  }

  lemma Sheet254SheetItem3Paren()
    ensures '(' !in " print;"
  {
  }

  lemma Sheet254SheetItem3()
    ensures CssScanner.ItemWellFormed(CssScanner.Plain(" print;"))
  {
    Sheet254SheetItem3At();
    Sheet254SheetItem3Paren();
    NoParen(" print;");
  }

  lemma Sheet254SheetWellFormed()
    ensures CssScanner.WellFormed([CssScanner.ImportKeyword("@import", " "), CssScanner.UrlRef("url(", "", CssScanner.Quoted('"', "./one.css"), ""), CssScanner.Plain(" print;")])
  {
    Sheet254SheetItem1();
    Sheet254SheetItem2();
    Sheet254SheetItem3();
    SheetWellFormed3(CssScanner.ImportKeyword("@import", " "), CssScanner.UrlRef("url(", "", CssScanner.Quoted('"', "./one.css"), ""), CssScanner.Plain(" print;"));
  }

  lemma Sheet254SheetScan()
    ensures CssScanner.ScanCss(("@import" + " ") + (("url(" + ("" + (['"'] + "./one.css" + ['"'] + ("" + ")")))) + " print;")) == ["./one.css"]
  {
    Sheet254SheetRender("./one.css");
    Sheet254SheetWellFormed();
    Sheet3(CssScanner.ImportKeyword("@import", " "), CssScanner.UrlRef("url(", "", CssScanner.Quoted('"', "./one.css"), ""), CssScanner.Plain(" print;"));
    CssScanner.ScanRenderCss([CssScanner.ImportKeyword("@import", " "), CssScanner.UrlRef("url(", "", CssScanner.Quoted('"', "./one.css"), ""), CssScanner.Plain(" print;")]);
  }

  lemma Sheet254Run1()
    ensures " " + "url(" + "" + ['"'] == " url(\""
  {
  }

  lemma Sheet254Run2()
    ensures ['"'] + "" + ")" == "\")"
  {
  }

  lemma Sheet254Text(u: string)
    ensures ("@import" + " ") + (("url(" + ("" + (['"'] + u + ['"'] + ("" + ")")))) + " print;")
      == "@import" + " url(\"" + u + "\")" + " print;"
  {
    Sheet254Run1();
    Sheet254Run2();
    Assoc(['"'] + u + ['"'], "", ")");
    Assoc("", ['"'] + u + ['"'] + "", ")");
    Assoc("", ['"'] + u + ['"'], "");
    Assoc("", ['"'] + u, ['"']);
    Assoc("", ['"'], u);
    Assoc("url(", "" + ['"'] + u + ['"'] + "", ")");
    Assoc("url(", "" + ['"'] + u + ['"'], "");
    Assoc("url(", "" + ['"'] + u, ['"']);
    Assoc("url(", "" + ['"'], u);
    Assoc("url(", "", ['"']);
    Assoc("@import" + " ", "url(" + "" + ['"'] + u + ['"'] + "" + ")", " print;");
    Assoc("@import" + " ", "url(" + "" + ['"'] + u + ['"'] + "", ")");
    Assoc("@import" + " ", "url(" + "" + ['"'] + u + ['"'], "");
    Assoc("@import" + " ", "url(" + "" + ['"'] + u, ['"']);
    Assoc("@import" + " ", "url(" + "" + ['"'], u);
    Assoc("@import" + " ", "url(" + "", ['"']);
    Assoc("@import" + " ", "url(", "");
    Assoc("@import", " " + "url(" + "", ['"']);
    Assoc("@import", " " + "url(", "");
    Assoc("@import", " ", "url(");
    Assoc("@import" + " " + "url(" + "" + ['"'] + u, ['"'] + "", ")");
    Assoc("@import" + " " + "url(" + "" + ['"'] + u, ['"'], "");
  }

  lemma Sheet254Scan()
    ensures RawReferences(Css, "@import" + " url(\"" + "./one.css" + "\")" + " print;") == ["./one.css"]
  {
    Sheet254Text("./one.css");
    Sheet254SheetScan();
  }

  lemma Sheet254TargetSegment()
    ensures Segment("one.css")
  {
    SegmentIntro("one.css");
  }

  lemma Sheet254TargetSplit()
    ensures "./" + "one.css" == "./one.css"
  {
  }

  lemma Sheet254TargetTrim()
    ensures Trim("./one.css") == "./one.css"
  {
    TrimPlain("./one.css");
  }

  lemma Sheet254TargetJoin()
    ensures "/blog/" + "one.css" == "/blog/one.css"
  {
  }

  lemma Sheet254Target()
    ensures Target(Base, "./one.css") == At("/blog/one.css")
  {
    Sheet254TargetSegment();
    Sheet254TargetSplit();
    Sheet254TargetTrim();
    Sheet254TargetJoin();
    CurrentTarget("./one.css", "one.css");
  }

  /** @import url("./one.css") print; */
  lemma Sheet254()
    ensures Extract(Css, "@import" + " url(\"" + "./one.css" + "\")" + " print;", Page, Host) == [Domain + "/blog/one.css"]
  {
    Sheet254Scan();
    Sheet254Target();
    ExtractOne(Css, "@import" + " url(\"" + "./one.css" + "\")" + " print;", "./one.css", "/blog/one.css");
  }

  lemma Sheet256SheetRender(u: string)
    ensures CssScanner.RenderCss([CssScanner.ImportKeyword("@import", " "), CssScanner.UrlRef("url(", "", CssScanner.Quoted('"', u), ""), CssScanner.Plain(" projection, tv;")])
      == ("@import" + " ") + (("url(" + ("" + (['"'] + u + ['"'] + ("" + ")")))) + " projection, tv;")
  {
    Sheet3(CssScanner.ImportKeyword("@import", " "), CssScanner.UrlRef("url(", "", CssScanner.Quoted('"', u), ""), CssScanner.Plain(" projection, tv;"));
    assert CssScanner.RenderItem(CssScanner.ImportKeyword("@import", " ")) == "@import" + " ";
    assert CssScanner.RenderItem(CssScanner.UrlRef("url(", "", CssScanner.Quoted('"', u), "")) == "url(" + ("" + (['"'] + u + ['"'] + ("" + ")")));
    assert CssScanner.RenderItem(CssScanner.Plain(" projection, tv;")) == " projection, tv;";
  }

  lemma Sheet256SheetItem1()
    ensures CssScanner.ItemWellFormed(CssScanner.ImportKeyword("@import", " "))
  {
    ImportOpener();
  }

  lemma Sheet256SheetItem2Quote()
    ensures '"' !in "../two.css"
  {
  }

  lemma Sheet256SheetItem2()
    ensures CssScanner.ItemWellFormed(CssScanner.UrlRef("url(", "", CssScanner.Quoted('"', "../two.css"), ""))
  {
    UrlOpener();
    Sheet256SheetItem2Quote();
  }

  lemma Sheet256SheetItem3At()
    ensures '@' !in " projection, tv;"
  {
  }

  lemma Sheet256SheetItem3Paren()
    ensures '(' !in " projection, tv;"
  {
  }

  lemma Sheet256SheetItem3()
    ensures CssScanner.ItemWellFormed(CssScanner.Plain(" projection, tv;"))
  {
    Sheet256SheetItem3At();
    Sheet256SheetItem3Paren();
    NoParen(" projection, tv;");
  }

  lemma Sheet256SheetWellFormed()
    ensures CssScanner.WellFormed([CssScanner.ImportKeyword("@import", " "), CssScanner.UrlRef("url(", "", CssScanner.Quoted('"', "../two.css"), ""), CssScanner.Plain(" projection, tv;")])
  {
    Sheet256SheetItem1();
    Sheet256SheetItem2();
    Sheet256SheetItem3();
    SheetWellFormed3(CssScanner.ImportKeyword("@import", " "), CssScanner.UrlRef("url(", "", CssScanner.Quoted('"', "../two.css"), ""), CssScanner.Plain(" projection, tv;"));
  }

  lemma Sheet256SheetScan()
    ensures CssScanner.ScanCss(("@import" + " ") + (("url(" + ("" + (['"'] + "../two.css" + ['"'] + ("" + ")")))) + " projection, tv;")) == ["../two.css"]
  {
    Sheet256SheetRender("../two.css");
    Sheet256SheetWellFormed();
    Sheet3(CssScanner.ImportKeyword("@import", " "), CssScanner.UrlRef("url(", "", CssScanner.Quoted('"', "../two.css"), ""), CssScanner.Plain(" projection, tv;"));
    CssScanner.ScanRenderCss([CssScanner.ImportKeyword("@import", " "), CssScanner.UrlRef("url(", "", CssScanner.Quoted('"', "../two.css"), ""), CssScanner.Plain(" projection, tv;")]);
  }

  lemma Sheet256Run1()
    ensures " " + "url(" + "" + ['"'] == " url(\""
  {
  }

  lemma Sheet256Run2()
    ensures ['"'] + "" + ")" == "\")"
  {
  }

  lemma Sheet256Text(u: string)
    ensures ("@import" + " ") + (("url(" + ("" + (['"'] + u + ['"'] + ("" + ")")))) + " projection, tv;")
      == "@import" + " url(\"" + u + "\")" + " projection, tv;"
  {
    Sheet256Run1();
    Sheet256Run2();
    Assoc(['"'] + u + ['"'], "", ")");
    Assoc("", ['"'] + u + ['"'] + "", ")");
    Assoc("", ['"'] + u + ['"'], "");
    Assoc("", ['"'] + u, ['"']);
    Assoc("", ['"'], u);
    Assoc("url(", "" + ['"'] + u + ['"'] + "", ")");
    Assoc("url(", "" + ['"'] + u + ['"'], "");
    Assoc("url(", "" + ['"'] + u, ['"']);
    Assoc("url(", "" + ['"'], u);
    Assoc("url(", "", ['"']);
    Assoc("@import" + " ", "url(" + "" + ['"'] + u + ['"'] + "" + ")", " projection, tv;");
    Assoc("@import" + " ", "url(" + "" + ['"'] + u + ['"'] + "", ")");
    Assoc("@import" + " ", "url(" + "" + ['"'] + u + ['"'], "");
    Assoc("@import" + " ", "url(" + "" + ['"'] + u, ['"']);
    Assoc("@import" + " ", "url(" + "" + ['"'], u);
    Assoc("@import" + " ", "url(" + "", ['"']);
    Assoc("@import" + " ", "url(", "");
    Assoc("@import", " " + "url(" + "", ['"']);
    Assoc("@import", " " + "url(", "");
    Assoc("@import", " ", "url(");
    Assoc("@import" + " " + "url(" + "" + ['"'] + u, ['"'] + "", ")");
    Assoc("@import" + " " + "url(" + "" + ['"'] + u, ['"'], "");
  }

  lemma Sheet256Scan()
    ensures RawReferences(Css, "@import" + " url(\"" + "../two.css" + "\")" + " projection, tv;") == ["../two.css"]
  {
    Sheet256Text("../two.css");
    Sheet256SheetScan();
  }

  lemma Sheet256TargetSegment()
    ensures Segment("two.css")
  {
    SegmentIntro("two.css");
  }

  lemma Sheet256TargetSplit()
    ensures "../" + "two.css" == "../two.css"
  {
  }

  lemma Sheet256TargetTrim()
    ensures Trim("../two.css") == "../two.css"
  {
    TrimPlain("../two.css");
  }

  lemma Sheet256TargetJoin()
    ensures "/" + "two.css" == "/two.css"
  {
  }

  lemma Sheet256Target()
    ensures Target(Base, "../two.css") == At("/two.css")
  {
    Sheet256TargetSegment();
    Sheet256TargetSplit();
    Sheet256TargetTrim();
    Sheet256TargetJoin();
    ParentTarget("../two.css", "two.css");
  }

  /** @import url("../two.css") projection, tv; */
  lemma Sheet256()
    ensures Extract(Css, "@import" + " url(\"" + "../two.css" + "\")" + " projection, tv;", Page, Host) == [Domain + "/two.css"]
  {
    Sheet256Scan();
    Sheet256Target();
    ExtractOne(Css, "@import" + " url(\"" + "../two.css" + "\")" + " projection, tv;", "../two.css", "/two.css");
  }

  lemma Sheet258SheetRender(u: string)
    ensures CssScanner.RenderCss([CssScanner.ImportString("@import", " ", '\'', u), CssScanner.Plain(";")])
      == ("@import" + (" " + (['\''] + u + ['\'']))) + ";"
  {
    Sheet2(CssScanner.ImportString("@import", " ", '\'', u), CssScanner.Plain(";"));
    assert CssScanner.RenderItem(CssScanner.ImportString("@import", " ", '\'', u)) == "@import" + (" " + (['\''] + u + ['\'']));
    assert CssScanner.RenderItem(CssScanner.Plain(";")) == ";";
  }

  lemma Sheet258SheetItem1Quote()
    ensures '\'' !in "three.css"
  {
  }

  lemma Sheet258SheetItem1()
    ensures CssScanner.ItemWellFormed(CssScanner.ImportString("@import", " ", '\'', "three.css"))
  {
    ImportOpener();
    Sheet258SheetItem1Quote();
  }

  lemma Sheet258SheetItem2At()
    ensures '@' !in ";"
  {
  }

  lemma Sheet258SheetItem2Paren()
    ensures '(' !in ";"
  {
  }

  lemma Sheet258SheetItem2()
    ensures CssScanner.ItemWellFormed(CssScanner.Plain(";"))
  {
    Sheet258SheetItem2At();
    Sheet258SheetItem2Paren();
    NoParen(";");
  }

  lemma Sheet258SheetWellFormed()
    ensures CssScanner.WellFormed([CssScanner.ImportString("@import", " ", '\'', "three.css"), CssScanner.Plain(";")])
  {
    Sheet258SheetItem1();
    Sheet258SheetItem2();
    SheetWellFormed2(CssScanner.ImportString("@import", " ", '\'', "three.css"), CssScanner.Plain(";"));
  }

  lemma Sheet258SheetScan()
    ensures CssScanner.ScanCss(("@import" + (" " + (['\''] + "three.css" + ['\'']))) + ";") == ["three.css"]
  {
    Sheet258SheetRender("three.css");
    Sheet258SheetWellFormed();
    Sheet2(CssScanner.ImportString("@import", " ", '\'', "three.css"), CssScanner.Plain(";"));
    CssScanner.ScanRenderCss([CssScanner.ImportString("@import", " ", '\'', "three.css"), CssScanner.Plain(";")]);
  }

  lemma Sheet258Run1()
    ensures " " + ['\''] == " '"
  {
  }

  lemma Sheet258Run2()
    ensures ['\''] + ";" == "';"
  {
  }

  lemma Sheet258Text(u: string)
    ensures ("@import" + (" " + (['\''] + u + ['\'']))) + ";"
      == "@import" + " '" + u + "';"
  {
    Sheet258Run1();
    Sheet258Run2();
    Assoc(" ", ['\''] + u, ['\'']);
    Assoc(" ", ['\''], u);
    Assoc("@import", " " + ['\''] + u, ['\'']);
    Assoc("@import", " " + ['\''], u);
    Assoc("@import", " ", ['\'']);
    Assoc("@import", " ", ['\'']);
    Assoc("@import" + " " + ['\''] + u, ['\''], ";");
  }

  lemma Sheet258Scan()
    ensures RawReferences(Css, "@import" + " '" + "three.css" + "';") == ["three.css"]
  {
    Sheet258Text("three.css");
    Sheet258SheetScan();
  }

  lemma Sheet258TargetSegment()
    ensures Segment("three.css")
  {
    SegmentIntro("three.css");
  }

  lemma Sheet258TargetTrim()
    ensures Trim("three.css") == "three.css"
  {
    TrimPlain("three.css");
  }

  lemma Sheet258TargetJoin()
    ensures "/blog/" + "three.css" == "/blog/three.css"
  {
  }

  lemma Sheet258Target()
    ensures Target(Base, "three.css") == At("/blog/three.css")
  {
    Sheet258TargetSegment();
    Sheet258TargetTrim();
    Sheet258TargetJoin();
    RelativeTarget("three.css", "three.css");
  }

  /** @import 'three.css'; */
  lemma Sheet258()
    ensures Extract(Css, "@import" + " '" + "three.css" + "';", Page, Host) == [Domain + "/blog/three.css"]
  {
    Sheet258Scan();
    Sheet258Target();
    ExtractOne(Css, "@import" + " '" + "three.css" + "';", "three.css", "/blog/three.css");
  }

  lemma Sheet260SheetRender(u: string)
    ensures CssScanner.RenderCss([CssScanner.ImportString("@import", " ", '"', u), CssScanner.Plain(" print;")])
      == ("@import" + (" " + (['"'] + u + ['"']))) + " print;"
  {
    Sheet2(CssScanner.ImportString("@import", " ", '"', u), CssScanner.Plain(" print;"));
    assert CssScanner.RenderItem(CssScanner.ImportString("@import", " ", '"', u)) == "@import" + (" " + (['"'] + u + ['"']));
    assert CssScanner.RenderItem(CssScanner.Plain(" print;")) == " print;";
  }

  lemma Sheet260SheetItem1Quote()
    ensures '"' !in "./four.css"
  {
  }

  lemma Sheet260SheetItem1()
    ensures CssScanner.ItemWellFormed(CssScanner.ImportString("@import", " ", '"', "./four.css"))
  {
    ImportOpener();
    Sheet260SheetItem1Quote();
  }

  lemma Sheet260SheetItem2At()
    ensures '@' !in " print;"
  {
  }

  lemma Sheet260SheetItem2Paren()
    ensures '(' !in " print;"
  {
  }

  lemma Sheet260SheetItem2()
    ensures CssScanner.ItemWellFormed(CssScanner.Plain(" print;"))
  {
    Sheet260SheetItem2At();
    Sheet260SheetItem2Paren();
    NoParen(" print;");
  }

  lemma Sheet260SheetWellFormed()
    ensures CssScanner.WellFormed([CssScanner.ImportString("@import", " ", '"', "./four.css"), CssScanner.Plain(" print;")])
  {
    Sheet260SheetItem1();
    Sheet260SheetItem2();
    SheetWellFormed2(CssScanner.ImportString("@import", " ", '"', "./four.css"), CssScanner.Plain(" print;"));
  }

  lemma Sheet260SheetScan()
    ensures CssScanner.ScanCss(("@import" + (" " + (['"'] + "./four.css" + ['"']))) + " print;") == ["./four.css"]
  {
    Sheet260SheetRender("./four.css");
    Sheet260SheetWellFormed();
    Sheet2(CssScanner.ImportString("@import", " ", '"', "./four.css"), CssScanner.Plain(" print;"));
    CssScanner.ScanRenderCss([CssScanner.ImportString("@import", " ", '"', "./four.css"), CssScanner.Plain(" print;")]);
  }

  lemma Sheet260Run1()
    ensures " " + ['"'] == " \""
  {
  }

  lemma Sheet260Text(u: string)
    ensures ("@import" + (" " + (['"'] + u + ['"']))) + " print;"
      == "@import" + " \"" + u + "\"" + " print;"
  {
    Sheet260Run1();
    Assoc(" ", ['"'] + u, ['"']);
    Assoc(" ", ['"'], u);
    Assoc("@import", " " + ['"'] + u, ['"']);
    Assoc("@import", " " + ['"'], u);
    Assoc("@import", " ", ['"']);
    Assoc("@import", " ", ['"']);
  }

  lemma Sheet260Scan()
    ensures RawReferences(Css, "@import" + " \"" + "./four.css" + "\"" + " print;") == ["./four.css"]
  {
    Sheet260Text("./four.css");
    Sheet260SheetScan();
  }

  lemma Sheet260TargetSegment()
    ensures Segment("four.css")
  {
    SegmentIntro("four.css");
  }

  lemma Sheet260TargetSplit()
    ensures "./" + "four.css" == "./four.css"
  {
  }

  lemma Sheet260TargetTrim()
    ensures Trim("./four.css") == "./four.css"
  {
    TrimPlain("./four.css");
  }

  lemma Sheet260TargetJoin()
    ensures "/blog/" + "four.css" == "/blog/four.css"
  {
  }

  lemma Sheet260Target()
    ensures Target(Base, "./four.css") == At("/blog/four.css")
  {
    Sheet260TargetSegment();
    Sheet260TargetSplit();
    Sheet260TargetTrim();
    Sheet260TargetJoin();
    CurrentTarget("./four.css", "four.css");
  }

  /** @import "./four.css" print; */
  lemma Sheet260()
    ensures Extract(Css, "@import" + " \"" + "./four.css" + "\"" + " print;", Page, Host) == [Domain + "/blog/four.css"]
  {
    Sheet260Scan();
    Sheet260Target();
    ExtractOne(Css, "@import" + " \"" + "./four.css" + "\"" + " print;", "./four.css", "/blog/four.css");
  }

  lemma Sheet262SheetRender(u: string)
    ensures CssScanner.RenderCss([CssScanner.ImportKeyword("@import", " "), CssScanner.UrlRef("url(", "", CssScanner.Quoted('"', u), ""), CssScanner.Plain(";")])
      == ("@import" + " ") + (("url(" + ("" + (['"'] + u + ['"'] + ("" + ")")))) + ";")
  {
    Sheet3(CssScanner.ImportKeyword("@import", " "), CssScanner.UrlRef("url(", "", CssScanner.Quoted('"', u), ""), CssScanner.Plain(";"));
    assert CssScanner.RenderItem(CssScanner.ImportKeyword("@import", " ")) == "@import" + " ";
    assert CssScanner.RenderItem(CssScanner.UrlRef("url(", "", CssScanner.Quoted('"', u), "")) == "url(" + ("" + (['"'] + u + ['"'] + ("" + ")")));
    assert CssScanner.RenderItem(CssScanner.Plain(";")) == ";";
  }

  lemma Sheet262SheetItem1()
    ensures CssScanner.ItemWellFormed(CssScanner.ImportKeyword("@import", " "))
  {
    ImportOpener();
  }

  lemma Sheet262SheetItem2Quote()
    ensures '"' !in ("chrome:" + "//five" + "/")
  {
  }

  lemma Sheet262SheetItem2()
    ensures CssScanner.ItemWellFormed(CssScanner.UrlRef("url(", "", CssScanner.Quoted('"', ("chrome:" + "//five" + "/")), ""))
  {
    UrlOpener();
    Sheet262SheetItem2Quote();
  }

  lemma Sheet262SheetItem3At()
    ensures '@' !in ";"
  {
  }

  lemma Sheet262SheetItem3Paren()
    ensures '(' !in ";"
  {
  }

  lemma Sheet262SheetItem3()
    ensures CssScanner.ItemWellFormed(CssScanner.Plain(";"))
  {
    Sheet262SheetItem3At();
    Sheet262SheetItem3Paren();
    NoParen(";");
  }

  lemma Sheet262SheetWellFormed()
    ensures CssScanner.WellFormed([CssScanner.ImportKeyword("@import", " "), CssScanner.UrlRef("url(", "", CssScanner.Quoted('"', ("chrome:" + "//five" + "/")), ""), CssScanner.Plain(";")])
  {
    Sheet262SheetItem1();
    Sheet262SheetItem2();
    Sheet262SheetItem3();
    SheetWellFormed3(CssScanner.ImportKeyword("@import", " "), CssScanner.UrlRef("url(", "", CssScanner.Quoted('"', ("chrome:" + "//five" + "/")), ""), CssScanner.Plain(";"));
  }

  lemma Sheet262SheetScan()
    ensures CssScanner.ScanCss(("@import" + " ") + (("url(" + ("" + (['"'] + ("chrome:" + "//five" + "/") + ['"'] + ("" + ")")))) + ";")) == [("chrome:" + "//five" + "/")]
  {
    Sheet262SheetRender("chrome:" + "//five" + "/");
    Sheet262SheetWellFormed();
    Sheet3(CssScanner.ImportKeyword("@import", " "), CssScanner.UrlRef("url(", "", CssScanner.Quoted('"', ("chrome:" + "//five" + "/")), ""), CssScanner.Plain(";"));
    CssScanner.ScanRenderCss([CssScanner.ImportKeyword("@import", " "), CssScanner.UrlRef("url(", "", CssScanner.Quoted('"', ("chrome:" + "//five" + "/")), ""), CssScanner.Plain(";")]);
  }

  lemma Sheet262Run1()
    ensures " " + "url(" + "" + ['"'] == " url(\""
  {
  }

  lemma Sheet262Run2()
    ensures ['"'] + "" + ")" + ";" == "\");"
  {
  }

  lemma Sheet262Text(u: string)
    ensures ("@import" + " ") + (("url(" + ("" + (['"'] + u + ['"'] + ("" + ")")))) + ";")
      == "@import" + " url(\"" + u + "\");"
  {
    Sheet262Run1();
    Sheet262Run2();
    Assoc(['"'] + u + ['"'], "", ")");
    Assoc("", ['"'] + u + ['"'] + "", ")");
    Assoc("", ['"'] + u + ['"'], "");
    Assoc("", ['"'] + u, ['"']);
    Assoc("", ['"'], u);
    Assoc("url(", "" + ['"'] + u + ['"'] + "", ")");
    Assoc("url(", "" + ['"'] + u + ['"'], "");
    Assoc("url(", "" + ['"'] + u, ['"']);
    Assoc("url(", "" + ['"'], u);
    Assoc("url(", "", ['"']);
    Assoc("@import" + " ", "url(" + "" + ['"'] + u + ['"'] + "" + ")", ";");
    Assoc("@import" + " ", "url(" + "" + ['"'] + u + ['"'] + "", ")");
    Assoc("@import" + " ", "url(" + "" + ['"'] + u + ['"'], "");
    Assoc("@import" + " ", "url(" + "" + ['"'] + u, ['"']);
    Assoc("@import" + " ", "url(" + "" + ['"'], u);
    Assoc("@import" + " ", "url(" + "", ['"']);
    Assoc("@import" + " ", "url(", "");
    Assoc("@import", " " + "url(" + "", ['"']);
    Assoc("@import", " " + "url(", "");
    Assoc("@import", " ", "url(");
    Assoc("@import" + " " + "url(" + "" + ['"'] + u, ['"'] + "" + ")", ";");
    Assoc("@import" + " " + "url(" + "" + ['"'] + u, ['"'] + "", ")");
    Assoc("@import" + " " + "url(" + "" + ['"'] + u, ['"'], "");
  }

  lemma Sheet262Scan()
    ensures RawReferences(Css, "@import" + " url(\"" + ("chrome:" + "//five" + "/") + "\");") == [("chrome:" + "//five" + "/")]
  {
    Sheet262Text("chrome:" + "//five" + "/");
    Sheet262SheetScan();
  }

  lemma Sheet262TargetSchemeChar1()
    ensures ':' !in "chrome"
  {
  }

  lemma Sheet262TargetSchemeChar2()
    ensures '/' !in "chrome"
  {
  }

  lemma Sheet262TargetSchemeChar3()
    ensures '?' !in "chrome"
  {
  }

  lemma Sheet262TargetSchemeChar4()
    ensures '#' !in "chrome"
  {
  }

  lemma Sheet262TargetScheme()
    ensures NoneIn("chrome", SchemeStop)
  {
    Sheet262TargetSchemeChar1();
    Sheet262TargetSchemeChar2();
    Sheet262TargetSchemeChar3();
    Sheet262TargetSchemeChar4();
    NoneInIntro("chrome", SchemeStop);
  }

  lemma Sheet262TargetAuthorityChar1()
    ensures '/' !in "five"
  {
  }

  lemma Sheet262TargetAuthorityChar2()
    ensures '?' !in "five"
  {
  }

  lemma Sheet262TargetAuthorityChar3()
    ensures '#' !in "five"
  {
  }

  lemma Sheet262TargetAuthority()
    ensures NoneIn("five", AuthorityStop)
  {
    Sheet262TargetAuthorityChar1();
    Sheet262TargetAuthorityChar2();
    Sheet262TargetAuthorityChar3();
    NoneInIntro("five", AuthorityStop);
  }

  lemma Sheet262TargetPathChar1()
    ensures '?' !in "/"
  {
  }

  lemma Sheet262TargetPathChar2()
    ensures '#' !in "/"
  {
  }

  lemma Sheet262TargetPath()
    ensures NoneIn("/", PathStop)
  {
    Sheet262TargetPathChar1();
    Sheet262TargetPathChar2();
    NoneInIntro("/", PathStop);
  }

  lemma Sheet262TargetReference()
    ensures Uri.WellFormed(Reference(Some("chrome"), Some("five"), "/", None, None))
  {
    Sheet262TargetScheme();
    Sheet262TargetAuthority();
    Sheet262TargetPath();
  }

  lemma Sheet262TargetUnfold()
    ensures Recompose(Reference(Some("chrome"), Some("five"), "/", None, None)) == ("" + "chrome" + ":") + (("//" + "five" + "") + ("/" + ("" + "")))
  {
  }

  lemma Sheet262TargetTextPiece1()
    ensures "" + "chrome" + ":" == "chrome:"
  {
  }

  lemma Sheet262TargetTextPiece2()
    ensures "//" + "five" == "//five"
  {
  }

  lemma Sheet262TargetTextPiece3()
    ensures "" + "/" + "" + "" == "/"
  {
  }

  lemma Sheet262TargetText()
    ensures ("" + "chrome" + ":") + (("//" + "five" + "") + ("/" + ("" + ""))) == ("chrome:" + "//five" + "/")
  {
    Sheet262TargetTextPiece1();
    Sheet262TargetTextPiece2();
    Sheet262TargetTextPiece3();
    Assoc("/", "", "");
    Assoc("//" + "five" + "", "/" + "", "");
    Assoc("//" + "five" + "", "/", "");
    Assoc("" + "chrome" + ":", "//" + "five" + "" + "/" + "", "");
    Assoc("" + "chrome" + ":", "//" + "five" + "" + "/", "");
    Assoc("" + "chrome" + ":", "//" + "five" + "", "/");
    Assoc("" + "chrome" + ":", "//" + "five", "");
    Assoc("" + "chrome" + ":", "//", "five");
    Assoc("" + "chrome" + ":", "//", "five");
    Assoc("" + "chrome" + ":" + "//" + "five", "" + "/" + "", "");
    Assoc("" + "chrome" + ":" + "//" + "five", "" + "/", "");
    Assoc("" + "chrome" + ":" + "//" + "five", "", "/");
  }

  lemma Sheet262TargetRecompose()
    ensures Recompose(Reference(Some("chrome"), Some("five"), "/", None, None)) == ("chrome:" + "//five" + "/")
  {
    Sheet262TargetUnfold();
    Sheet262TargetText();
  }

  lemma Sheet262TargetTrim()
    ensures Trim(("chrome:" + "//five" + "/")) == ("chrome:" + "//five" + "/")
  {
    TrimPlain(("chrome:" + "//five" + "/"));
  }

  lemma Sheet262Target()
    ensures !IsLocal(Target(Base, ("chrome:" + "//five" + "/")), Host)
  {
    Sheet262TargetReference();
    Sheet262TargetRecompose();
    Sheet262TargetTrim();
    ForeignTarget(("chrome:" + "//five" + "/"), Reference(Some("chrome"), Some("five"), "/", None, None));
  }

  /** @import url("chrome://five/"); names another scheme */
  lemma Sheet262()
    ensures Extract(Css, "@import" + " url(\"" + ("chrome:" + "//five" + "/") + "\");", Page, Host) == []
  {
    Sheet262Scan();
    Sheet262Target();
    ExtractForeign(Css, "@import" + " url(\"" + ("chrome:" + "//five" + "/") + "\");", ("chrome:" + "//five" + "/"));
  }

  lemma Sheet264SheetRender(u: string)
    ensures CssScanner.RenderCss([CssScanner.ImportKeyword("@import", " "), CssScanner.UrlRef("url(", "", CssScanner.Quoted('\'', u), ""), CssScanner.Plain(" screen and (orientation:landscape);")])
      == ("@import" + " ") + (("url(" + ("" + (['\''] + u + ['\''] + ("" + ")")))) + " screen and (orientation:landscape);")
  {
    Sheet3(CssScanner.ImportKeyword("@import", " "), CssScanner.UrlRef("url(", "", CssScanner.Quoted('\'', u), ""), CssScanner.Plain(" screen and (orientation:landscape);"));
    assert CssScanner.RenderItem(CssScanner.ImportKeyword("@import", " ")) == "@import" + " ";
    assert CssScanner.RenderItem(CssScanner.UrlRef("url(", "", CssScanner.Quoted('\'', u), "")) == "url(" + ("" + (['\''] + u + ['\''] + ("" + ")")));
    assert CssScanner.RenderItem(CssScanner.Plain(" screen and (orientation:landscape);")) == " screen and (orientation:landscape);";
  }

  lemma Sheet264SheetItem1()
    ensures CssScanner.ItemWellFormed(CssScanner.ImportKeyword("@import", " "))
  {
    ImportOpener();
  }

  lemma Sheet264SheetItem2Quote()
    ensures '\'' !in "six.css"
  {
  }

  lemma Sheet264SheetItem2()
    ensures CssScanner.ItemWellFormed(CssScanner.UrlRef("url(", "", CssScanner.Quoted('\'', "six.css"), ""))
  {
    UrlOpener();
    Sheet264SheetItem2Quote();
  }

  lemma Sheet264SheetItem3At()
    ensures '@' !in " screen and (orientation:landscape);"
  {
  }

  lemma Sheet264SheetItem3Before()
    ensures '(' !in " screen and "
  {
  }

  lemma Sheet264SheetItem3After()
    ensures '(' !in "orientation:landscape);"
  {
  }

  lemma Sheet264SheetItem3Split()
    ensures " screen and " + "(" + "orientation:landscape);" == " screen and (orientation:landscape);"
  {
  }

  lemma Sheet264SheetItem3()
    ensures CssScanner.ItemWellFormed(CssScanner.Plain(" screen and (orientation:landscape);"))
  {
    Sheet264SheetItem3At();
    Sheet264SheetItem3Before();
    Sheet264SheetItem3After();
    Sheet264SheetItem3Split();
    ParenAfterSpace(" screen and ", "orientation:landscape);");
  }

  lemma Sheet264SheetWellFormed()
    ensures CssScanner.WellFormed([CssScanner.ImportKeyword("@import", " "), CssScanner.UrlRef("url(", "", CssScanner.Quoted('\'', "six.css"), ""), CssScanner.Plain(" screen and (orientation:landscape);")])
  {
    Sheet264SheetItem1();
    Sheet264SheetItem2();
    Sheet264SheetItem3();
    SheetWellFormed3(CssScanner.ImportKeyword("@import", " "), CssScanner.UrlRef("url(", "", CssScanner.Quoted('\'', "six.css"), ""), CssScanner.Plain(" screen and (orientation:landscape);"));
  }

  lemma Sheet264SheetScan()
    ensures CssScanner.ScanCss(("@import" + " ") + (("url(" + ("" + (['\''] + "six.css" + ['\''] + ("" + ")")))) + " screen and (orientation:landscape);")) == ["six.css"]
  {
    Sheet264SheetRender("six.css");
    Sheet264SheetWellFormed();
    Sheet3(CssScanner.ImportKeyword("@import", " "), CssScanner.UrlRef("url(", "", CssScanner.Quoted('\'', "six.css"), ""), CssScanner.Plain(" screen and (orientation:landscape);"));
    CssScanner.ScanRenderCss([CssScanner.ImportKeyword("@import", " "), CssScanner.UrlRef("url(", "", CssScanner.Quoted('\'', "six.css"), ""), CssScanner.Plain(" screen and (orientation:landscape);")]);
  }

  lemma Sheet264Run1()
    ensures " " + "url(" + "" + ['\''] == " url('"
  {
  }

  lemma Sheet264Run2()
    ensures ['\''] + "" + ")" == "')"
  {
  }

  lemma Sheet264Text(u: string)
    ensures ("@import" + " ") + (("url(" + ("" + (['\''] + u + ['\''] + ("" + ")")))) + " screen and (orientation:landscape);")
      == "@import" + " url('" + u + "')" + " screen and (orientation:landscape);"
  {
    Sheet264Run1();
    Sheet264Run2();
    Assoc(['\''] + u + ['\''], "", ")");
    Assoc("", ['\''] + u + ['\''] + "", ")");
    Assoc("", ['\''] + u + ['\''], "");
    Assoc("", ['\''] + u, ['\'']);
    Assoc("", ['\''], u);
    Assoc("url(", "" + ['\''] + u + ['\''] + "", ")");
    Assoc("url(", "" + ['\''] + u + ['\''], "");
    Assoc("url(", "" + ['\''] + u, ['\'']);
    Assoc("url(", "" + ['\''], u);
    Assoc("url(", "", ['\'']);
    Assoc("@import" + " ", "url(" + "" + ['\''] + u + ['\''] + "" + ")", " screen and (orientation:landscape);");
    Assoc("@import" + " ", "url(" + "" + ['\''] + u + ['\''] + "", ")");
    Assoc("@import" + " ", "url(" + "" + ['\''] + u + ['\''], "");
    Assoc("@import" + " ", "url(" + "" + ['\''] + u, ['\'']);
    Assoc("@import" + " ", "url(" + "" + ['\''], u);
    Assoc("@import" + " ", "url(" + "", ['\'']);
    Assoc("@import" + " ", "url(", "");
    Assoc("@import", " " + "url(" + "", ['\'']);
    Assoc("@import", " " + "url(", "");
    Assoc("@import", " ", "url(");
    Assoc("@import" + " " + "url(" + "" + ['\''] + u, ['\''] + "", ")");
    Assoc("@import" + " " + "url(" + "" + ['\''] + u, ['\''], "");
  }

  lemma Sheet264Scan()
    ensures RawReferences(Css, "@import" + " url('" + "six.css" + "')" + " screen and (orientation:landscape);") == ["six.css"]
  {
    Sheet264Text("six.css");
    Sheet264SheetScan();
  }

  lemma Sheet264TargetSegment()
    ensures Segment("six.css")
  {
    SegmentIntro("six.css");
  }

  lemma Sheet264TargetTrim()
    ensures Trim("six.css") == "six.css"
  {
    TrimPlain("six.css");
  }

  lemma Sheet264TargetJoin()
    ensures "/blog/" + "six.css" == "/blog/six.css"
  {
  }

  lemma Sheet264Target()
    ensures Target(Base, "six.css") == At("/blog/six.css")
  {
    Sheet264TargetSegment();
    Sheet264TargetTrim();
    Sheet264TargetJoin();
    RelativeTarget("six.css", "six.css");
  }

  /** @import url('six.css') screen and (orientation:landscape); */
  lemma Sheet264()
    ensures Extract(Css, "@import" + " url('" + "six.css" + "')" + " screen and (orientation:landscape);", Page, Host) == [Domain + "/blog/six.css"]
  {
    Sheet264Scan();
    Sheet264Target();
    ExtractOne(Css, "@import" + " url('" + "six.css" + "')" + " screen and (orientation:landscape);", "six.css", "/blog/six.css");
  }

  lemma Sheet266SheetRender(u: string)
    ensures CssScanner.RenderCss([CssScanner.Plain(".seven { background-image: "), CssScanner.UrlRef("url(", "", CssScanner.Bare(u), ""), CssScanner.Plain("; }")])
      == ".seven { background-image: " + (("url(" + ("" + (u + ("" + ")")))) + "; }")
  {
    Sheet3(CssScanner.Plain(".seven { background-image: "), CssScanner.UrlRef("url(", "", CssScanner.Bare(u), ""), CssScanner.Plain("; }"));
    assert CssScanner.RenderItem(CssScanner.Plain(".seven { background-image: ")) == ".seven { background-image: ";
    assert CssScanner.RenderItem(CssScanner.UrlRef("url(", "", CssScanner.Bare(u), "")) == "url(" + ("" + (u + ("" + ")")));
    assert CssScanner.RenderItem(CssScanner.Plain("; }")) == "; }";
  }

  lemma Sheet266SheetItem1At()
    ensures '@' !in ".seven { background-image: "
  {
  }

  lemma Sheet266SheetItem1Paren()
    ensures '(' !in ".seven { background-image: "
  {
  }

  lemma Sheet266SheetItem1()
    ensures CssScanner.ItemWellFormed(CssScanner.Plain(".seven { background-image: "))
  {
    Sheet266SheetItem1At();
    Sheet266SheetItem1Paren();
    NoParen(".seven { background-image: ");
  }

  lemma Sheet266SheetItem2Close()
    ensures ')' !in "seven.png"
  {
  }

  lemma Sheet266SheetItem2()
    ensures CssScanner.ItemWellFormed(CssScanner.UrlRef("url(", "", CssScanner.Bare("seven.png"), ""))
  {
    UrlOpener();
    Sheet266SheetItem2Close();
  }

  lemma Sheet266SheetItem3At()
    ensures '@' !in "; }"
  {
  }

  lemma Sheet266SheetItem3Paren()
    ensures '(' !in "; }"
  {
  }

  lemma Sheet266SheetItem3()
    ensures CssScanner.ItemWellFormed(CssScanner.Plain("; }"))
  {
    Sheet266SheetItem3At();
    Sheet266SheetItem3Paren();
    NoParen("; }");
  }

  lemma Sheet266SheetWellFormed()
    ensures CssScanner.WellFormed([CssScanner.Plain(".seven { background-image: "), CssScanner.UrlRef("url(", "", CssScanner.Bare("seven.png"), ""), CssScanner.Plain("; }")])
  {
    Sheet266SheetItem1();
    Sheet266SheetItem2();
    Sheet266SheetItem3();
    SheetWellFormed3(CssScanner.Plain(".seven { background-image: "), CssScanner.UrlRef("url(", "", CssScanner.Bare("seven.png"), ""), CssScanner.Plain("; }"));
  }

  lemma Sheet266SheetScan()
    ensures CssScanner.ScanCss(".seven { background-image: " + (("url(" + ("" + ("seven.png" + ("" + ")")))) + "; }")) == ["seven.png"]
  {
    Sheet266SheetRender("seven.png");
    Sheet266SheetWellFormed();
    Sheet3(CssScanner.Plain(".seven { background-image: "), CssScanner.UrlRef("url(", "", CssScanner.Bare("seven.png"), ""), CssScanner.Plain("; }"));
    CssScanner.ScanRenderCss([CssScanner.Plain(".seven { background-image: "), CssScanner.UrlRef("url(", "", CssScanner.Bare("seven.png"), ""), CssScanner.Plain("; }")]);
    EmptyRight("seven.png");
  }

  lemma Sheet266Run1()
    ensures "url(" + "" == "url("
  {
  }

  lemma Sheet266Run2()
    ensures "" + ")" + "; }" == "); }"
  {
  }

  lemma Sheet266Text(u: string)
    ensures ".seven { background-image: " + (("url(" + ("" + (u + ("" + ")")))) + "; }")
      == ".seven { background-image: " + "url(" + u + "); }"
  {
    Sheet266Run1();
    Sheet266Run2();
    Assoc(u, "", ")");
    Assoc("", u + "", ")");
    Assoc("", u, "");
    Assoc("url(", "" + u + "", ")");
    Assoc("url(", "" + u, "");
    Assoc("url(", "", u);
    Assoc(".seven { background-image: ", "url(" + "" + u + "" + ")", "; }");
    Assoc(".seven { background-image: ", "url(" + "" + u + "", ")");
    Assoc(".seven { background-image: ", "url(" + "" + u, "");
    Assoc(".seven { background-image: ", "url(" + "", u);
    Assoc(".seven { background-image: ", "url(", "");
    Assoc(".seven { background-image: ", "url(", "");
    Assoc(".seven { background-image: " + "url(" + "" + u, "" + ")", "; }");
    Assoc(".seven { background-image: " + "url(" + "" + u, "", ")");
  }

  lemma Sheet266Scan()
    ensures RawReferences(Css, ".seven { background-image: " + "url(" + "seven.png" + "); }") == ["seven.png"]
  {
    Sheet266Text("seven.png");
    Sheet266SheetScan();
  }

  lemma Sheet266TargetSegment()
    ensures Segment("seven.png")
  {
    SegmentIntro("seven.png");
  }

  lemma Sheet266TargetTrim()
    ensures Trim("seven.png") == "seven.png"
  {
    TrimPlain("seven.png");
  }

  lemma Sheet266TargetJoin()
    ensures "/blog/" + "seven.png" == "/blog/seven.png"
  {
  }

  lemma Sheet266Target()
    ensures Target(Base, "seven.png") == At("/blog/seven.png")
  {
    Sheet266TargetSegment();
    Sheet266TargetTrim();
    Sheet266TargetJoin();
    RelativeTarget("seven.png", "seven.png");
  }

  /** .seven { background-image: url(seven.png); } */
  lemma Sheet266()
    ensures Extract(Css, ".seven { background-image: " + "url(" + "seven.png" + "); }", Page, Host) == [Domain + "/blog/seven.png"]
  {
    Sheet266Scan();
    Sheet266Target();
    ExtractOne(Css, ".seven { background-image: " + "url(" + "seven.png" + "); }", "seven.png", "/blog/seven.png");
  }

  lemma Sheet268SheetRender(u: string)
    ensures CssScanner.RenderCss([CssScanner.Plain(".eight { background-image: "), CssScanner.UrlRef("url(", "", CssScanner.Quoted('"', u), ""), CssScanner.Plain("; }")])
      == ".eight { background-image: " + (("url(" + ("" + (['"'] + u + ['"'] + ("" + ")")))) + "; }")
  {
    Sheet3(CssScanner.Plain(".eight { background-image: "), CssScanner.UrlRef("url(", "", CssScanner.Quoted('"', u), ""), CssScanner.Plain("; }"));
    assert CssScanner.RenderItem(CssScanner.Plain(".eight { background-image: ")) == ".eight { background-image: ";
    assert CssScanner.RenderItem(CssScanner.UrlRef("url(", "", CssScanner.Quoted('"', u), "")) == "url(" + ("" + (['"'] + u + ['"'] + ("" + ")")));
    assert CssScanner.RenderItem(CssScanner.Plain("; }")) == "; }";
  }

  lemma Sheet268SheetItem1At()
    ensures '@' !in ".eight { background-image: "
  {
  }

  lemma Sheet268SheetItem1Paren()
    ensures '(' !in ".eight { background-image: "
  {
  }

  lemma Sheet268SheetItem1()
    ensures CssScanner.ItemWellFormed(CssScanner.Plain(".eight { background-image: "))
  {
    Sheet268SheetItem1At();
    Sheet268SheetItem1Paren();
    NoParen(".eight { background-image: ");
  }

  lemma Sheet268SheetItem2Quote()
    ensures '"' !in "eight.png"
  {
  }

  lemma Sheet268SheetItem2()
    ensures CssScanner.ItemWellFormed(CssScanner.UrlRef("url(", "", CssScanner.Quoted('"', "eight.png"), ""))
  {
    UrlOpener();
    Sheet268SheetItem2Quote();
  }

  lemma Sheet268SheetItem3At()
    ensures '@' !in "; }"
  {
  }

  lemma Sheet268SheetItem3Paren()
    ensures '(' !in "; }"
  {
  }

  lemma Sheet268SheetItem3()
    ensures CssScanner.ItemWellFormed(CssScanner.Plain("; }"))
  {
    Sheet268SheetItem3At();
    Sheet268SheetItem3Paren();
    NoParen("; }");
  }

  lemma Sheet268SheetWellFormed()
    ensures CssScanner.WellFormed([CssScanner.Plain(".eight { background-image: "), CssScanner.UrlRef("url(", "", CssScanner.Quoted('"', "eight.png"), ""), CssScanner.Plain("; }")])
  {
    Sheet268SheetItem1();
    Sheet268SheetItem2();
    Sheet268SheetItem3();
    SheetWellFormed3(CssScanner.Plain(".eight { background-image: "), CssScanner.UrlRef("url(", "", CssScanner.Quoted('"', "eight.png"), ""), CssScanner.Plain("; }"));
  }

  lemma Sheet268SheetScan()
    ensures CssScanner.ScanCss(".eight { background-image: " + (("url(" + ("" + (['"'] + "eight.png" + ['"'] + ("" + ")")))) + "; }")) == ["eight.png"]
  {
    Sheet268SheetRender("eight.png");
    Sheet268SheetWellFormed();
    Sheet3(CssScanner.Plain(".eight { background-image: "), CssScanner.UrlRef("url(", "", CssScanner.Quoted('"', "eight.png"), ""), CssScanner.Plain("; }"));
    CssScanner.ScanRenderCss([CssScanner.Plain(".eight { background-image: "), CssScanner.UrlRef("url(", "", CssScanner.Quoted('"', "eight.png"), ""), CssScanner.Plain("; }")]);
  }

  lemma Sheet268Run1()
    ensures "url(" + "" + ['"'] == "url(\""
  {
  }

  lemma Sheet268Run2()
    ensures ['"'] + "" + ")" + "; }" == "\"); }"
  {
  }

  lemma Sheet268Text(u: string)
    ensures ".eight { background-image: " + (("url(" + ("" + (['"'] + u + ['"'] + ("" + ")")))) + "; }")
      == ".eight { background-image: " + "url(\"" + u + "\"); }"
  {
    Sheet268Run1();
    Sheet268Run2();
    Assoc(['"'] + u + ['"'], "", ")");
    Assoc("", ['"'] + u + ['"'] + "", ")");
    Assoc("", ['"'] + u + ['"'], "");
    Assoc("", ['"'] + u, ['"']);
    Assoc("", ['"'], u);
    Assoc("url(", "" + ['"'] + u + ['"'] + "", ")");
    Assoc("url(", "" + ['"'] + u + ['"'], "");
    Assoc("url(", "" + ['"'] + u, ['"']);
    Assoc("url(", "" + ['"'], u);
    Assoc("url(", "", ['"']);
    Assoc(".eight { background-image: ", "url(" + "" + ['"'] + u + ['"'] + "" + ")", "; }");
    Assoc(".eight { background-image: ", "url(" + "" + ['"'] + u + ['"'] + "", ")");
    Assoc(".eight { background-image: ", "url(" + "" + ['"'] + u + ['"'], "");
    Assoc(".eight { background-image: ", "url(" + "" + ['"'] + u, ['"']);
    Assoc(".eight { background-image: ", "url(" + "" + ['"'], u);
    Assoc(".eight { background-image: ", "url(" + "", ['"']);
    Assoc(".eight { background-image: ", "url(", "");
    Assoc(".eight { background-image: ", "url(" + "", ['"']);
    Assoc(".eight { background-image: ", "url(", "");
    Assoc(".eight { background-image: " + "url(" + "" + ['"'] + u, ['"'] + "" + ")", "; }");
    Assoc(".eight { background-image: " + "url(" + "" + ['"'] + u, ['"'] + "", ")");
    Assoc(".eight { background-image: " + "url(" + "" + ['"'] + u, ['"'], "");
  }

  lemma Sheet268Scan()
    ensures RawReferences(Css, ".eight { background-image: " + "url(\"" + "eight.png" + "\"); }") == ["eight.png"]
  {
    Sheet268Text("eight.png");
    Sheet268SheetScan();
  }

  lemma Sheet268TargetSegment()
    ensures Segment("eight.png")
  {
    SegmentIntro("eight.png");
  }

  lemma Sheet268TargetTrim()
    ensures Trim("eight.png") == "eight.png"
  {
    TrimPlain("eight.png");
  }

  lemma Sheet268TargetJoin()
    ensures "/blog/" + "eight.png" == "/blog/eight.png"
  {
  }

  lemma Sheet268Target()
    ensures Target(Base, "eight.png") == At("/blog/eight.png")
  {
    Sheet268TargetSegment();
    Sheet268TargetTrim();
    Sheet268TargetJoin();
    RelativeTarget("eight.png", "eight.png");
  }

  /** .eight { background-image: url("eight.png"); } */
  lemma Sheet268()
    ensures Extract(Css, ".eight { background-image: " + "url(\"" + "eight.png" + "\"); }", Page, Host) == [Domain + "/blog/eight.png"]
  {
    Sheet268Scan();
    Sheet268Target();
    ExtractOne(Css, ".eight { background-image: " + "url(\"" + "eight.png" + "\"); }", "eight.png", "/blog/eight.png");
  }

  lemma Sheet270SheetRender(u: string)
    ensures CssScanner.RenderCss([CssScanner.Plain(".nine { background-image: "), CssScanner.UrlRef("url(", "  ", CssScanner.Quoted('\'', u), "  "), CssScanner.Plain("; }")])
      == ".nine { background-image: " + (("url(" + ("  " + (['\''] + u + ['\''] + ("  " + ")")))) + "; }")
  {
    Sheet3(CssScanner.Plain(".nine { background-image: "), CssScanner.UrlRef("url(", "  ", CssScanner.Quoted('\'', u), "  "), CssScanner.Plain("; }"));
    assert CssScanner.RenderItem(CssScanner.Plain(".nine { background-image: ")) == ".nine { background-image: ";
    assert CssScanner.RenderItem(CssScanner.UrlRef("url(", "  ", CssScanner.Quoted('\'', u), "  ")) == "url(" + ("  " + (['\''] + u + ['\''] + ("  " + ")")));
    assert CssScanner.RenderItem(CssScanner.Plain("; }")) == "; }";
  }

  lemma Sheet270SheetItem1At()
    ensures '@' !in ".nine { background-image: "
  {
  }

  lemma Sheet270SheetItem1Paren()
    ensures '(' !in ".nine { background-image: "
  {
  }

  lemma Sheet270SheetItem1()
    ensures CssScanner.ItemWellFormed(CssScanner.Plain(".nine { background-image: "))
  {
    Sheet270SheetItem1At();
    Sheet270SheetItem1Paren();
    NoParen(".nine { background-image: ");
  }

  lemma Sheet270SheetItem2Quote()
    ensures '\'' !in "nine.png"
  {
  }

  lemma Sheet270SheetItem2()
    ensures CssScanner.ItemWellFormed(CssScanner.UrlRef("url(", "  ", CssScanner.Quoted('\'', "nine.png"), "  "))
  {
    UrlOpener();
    Sheet270SheetItem2Quote();
  }

  lemma Sheet270SheetItem3At()
    ensures '@' !in "; }"
  {
  }

  lemma Sheet270SheetItem3Paren()
    ensures '(' !in "; }"
  {
  }

  lemma Sheet270SheetItem3()
    ensures CssScanner.ItemWellFormed(CssScanner.Plain("; }"))
  {
    Sheet270SheetItem3At();
    Sheet270SheetItem3Paren();
    NoParen("; }");
  }

  lemma Sheet270SheetWellFormed()
    ensures CssScanner.WellFormed([CssScanner.Plain(".nine { background-image: "), CssScanner.UrlRef("url(", "  ", CssScanner.Quoted('\'', "nine.png"), "  "), CssScanner.Plain("; }")])
  {
    Sheet270SheetItem1();
    Sheet270SheetItem2();
    Sheet270SheetItem3();
    SheetWellFormed3(CssScanner.Plain(".nine { background-image: "), CssScanner.UrlRef("url(", "  ", CssScanner.Quoted('\'', "nine.png"), "  "), CssScanner.Plain("; }"));
  }

  lemma Sheet270SheetScan()
    ensures CssScanner.ScanCss(".nine { background-image: " + (("url(" + ("  " + (['\''] + "nine.png" + ['\''] + ("  " + ")")))) + "; }")) == ["nine.png"]
  {
    Sheet270SheetRender("nine.png");
    Sheet270SheetWellFormed();
    Sheet3(CssScanner.Plain(".nine { background-image: "), CssScanner.UrlRef("url(", "  ", CssScanner.Quoted('\'', "nine.png"), "  "), CssScanner.Plain("; }"));
    CssScanner.ScanRenderCss([CssScanner.Plain(".nine { background-image: "), CssScanner.UrlRef("url(", "  ", CssScanner.Quoted('\'', "nine.png"), "  "), CssScanner.Plain("; }")]);
  }

  lemma Sheet270Run1()
    ensures "  " + ['\''] == "  '"
  {
  }

  lemma Sheet270Run2()
    ensures "  " + ")" + "; }" == "  ); }"
  {
  }

  lemma Sheet270Text(u: string)
    ensures ".nine { background-image: " + (("url(" + ("  " + (['\''] + u + ['\''] + ("  " + ")")))) + "; }")
      == ".nine { background-image: " + "url(" + "  '" + u + "'" + "  ); }"
  {
    Sheet270Run1();
    Sheet270Run2();
    Assoc(['\''] + u + ['\''], "  ", ")");
    Assoc("  ", ['\''] + u + ['\''] + "  ", ")");
    Assoc("  ", ['\''] + u + ['\''], "  ");
    Assoc("  ", ['\''] + u, ['\'']);
    Assoc("  ", ['\''], u);
    Assoc("url(", "  " + ['\''] + u + ['\''] + "  ", ")");
    Assoc("url(", "  " + ['\''] + u + ['\''], "  ");
    Assoc("url(", "  " + ['\''] + u, ['\'']);
    Assoc("url(", "  " + ['\''], u);
    Assoc("url(", "  ", ['\'']);
    Assoc(".nine { background-image: ", "url(" + "  " + ['\''] + u + ['\''] + "  " + ")", "; }");
    Assoc(".nine { background-image: ", "url(" + "  " + ['\''] + u + ['\''] + "  ", ")");
    Assoc(".nine { background-image: ", "url(" + "  " + ['\''] + u + ['\''], "  ");
    Assoc(".nine { background-image: ", "url(" + "  " + ['\''] + u, ['\'']);
    Assoc(".nine { background-image: ", "url(" + "  " + ['\''], u);
    Assoc(".nine { background-image: ", "url(" + "  ", ['\'']);
    Assoc(".nine { background-image: ", "url(", "  ");
    Assoc(".nine { background-image: " + "url(", "  ", ['\'']);
    Assoc(".nine { background-image: " + "url(" + "  " + ['\''] + u + ['\''], "  " + ")", "; }");
    Assoc(".nine { background-image: " + "url(" + "  " + ['\''] + u + ['\''], "  ", ")");
  }

  lemma Sheet270Scan()
    ensures RawReferences(Css, ".nine { background-image: " + "url(" + "  '" + "nine.png" + "'" + "  ); }") == ["nine.png"]
  {
    Sheet270Text("nine.png");
    Sheet270SheetScan();
  }

  lemma Sheet270TargetSegment()
    ensures Segment("nine.png")
  {
    SegmentIntro("nine.png");
  }

  lemma Sheet270TargetTrim()
    ensures Trim("nine.png") == "nine.png"
  {
    TrimPlain("nine.png");
  }

  lemma Sheet270TargetJoin()
    ensures "/blog/" + "nine.png" == "/blog/nine.png"
  {
  }

  lemma Sheet270Target()
    ensures Target(Base, "nine.png") == At("/blog/nine.png")
  {
    Sheet270TargetSegment();
    Sheet270TargetTrim();
    Sheet270TargetJoin();
    RelativeTarget("nine.png", "nine.png");
  }

  /** .nine { background-image: url(  'nine.png'  ); } */
  lemma Sheet270()
    ensures Extract(Css, ".nine { background-image: " + "url(" + "  '" + "nine.png" + "'" + "  ); }", Page, Host) == [Domain + "/blog/nine.png"]
  {
    Sheet270Scan();
    Sheet270Target();
    ExtractOne(Css, ".nine { background-image: " + "url(" + "  '" + "nine.png" + "'" + "  ); }", "nine.png", "/blog/nine.png");
  }
}
