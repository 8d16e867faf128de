/**
 * The CSS side of the URL extractor: the raw arguments of every `url(...)`
 * and of every `@import "..."` in a style sheet, a style attribute or a
 * style block, in document order. `url(` and `@import` are matched without
 * regard to ASCII case; the argument may be quoted with either quote or bare.
 *
 * The second half of the module describes style sheets as a sequence of
 * items (plain text, url references, imports) and proves that the scanner
 * finds exactly the references of any well-formed sequence once rendered.
 */
module CssScanner {
  import opened Text

  /** A bare argument ends at the first ')', a quoted one at the matching quote; the rest resumes after ')'. */
  function UrlArgument(t: string): (r: (string, string))
    ensures |r.1| < |t| + 1
  {
    ArgumentAt(t[SkipWs(t)..])
  }

  /** The argument of a url(...) whose leading whitespace is already skipped. */
  function ArgumentAt(u: string): (r: (string, string))
    ensures |r.1| < |u| + 1
  {
    if u != [] && IsQuote(u[0]) then
      var body := u[1..];
      var k := Find(body, {u[0]});
      var after := if k < |body| then body[k + 1..] else [];
      var c := Find(after, {')'});
      (body[..k], if c < |after| then after[c + 1..] else [])
    else
      var c := Find(u, {')'});
      (u[..c], if c < |u| then u[c + 1..] else [])
  }

  /** The raw reference strings of a style sheet, in order. */
  function ScanCss(s: string): seq<string>
    decreases |s|
  {
    if s == [] then []
    else if StartsWithCI(s, "url(") then
      var a := UrlArgument(s[4..]);
      [a.0] + ScanCss(a.1)
    else if StartsWithCI(s, "@import") then
      var t := s[7..];
      var u := t[SkipWs(t)..];
      if u != [] && IsQuote(u[0]) then
        var body := u[1..];
        var k := Find(body, {u[0]});
        [body[..k]] + ScanCss(if k < |body| then body[k + 1..] else [])
      else ScanCss(u)
    else ScanCss(s[1..])
  }

  // ---------------------------------------------------------------------------
  // Style sheets as items

  datatype Argument = Quoted(quote: char, text: string) | Bare(text: string)

  datatype Item =
    | Plain(text: string)
      /** `url(` in any case, whitespace, the argument, whitespace, `)` */
    | UrlRef(opener: string, padLeft: string, arg: Argument, padRight: string)
      /** `@import` in any case, whitespace, a quoted string */
    | ImportString(keyword: string, pad: string, quote: char, text: string)
      /** `@import` in any case and whitespace, followed by a url reference */
    | ImportKeyword(keyword: string, pad: string)

  function RenderArgument(a: Argument): string {
    match a
    case Quoted(q, t) => [q] + t + [q]
    case Bare(t) => t
  }

  function RenderItem(it: Item): string {
    match it
    case Plain(t) => t
    case UrlRef(f, l, a, r) => f + (l + (RenderArgument(a) + (r + ")")))
    case ImportString(k, p, q, t) => k + (p + ([q] + t + [q]))
    case ImportKeyword(k, p) => k + p
  }

  function RenderCss(items: seq<Item>): string {
    if items == [] then [] else RenderItem(items[0]) + RenderCss(items[1..])
  }

  /** The reference an item contributes: a bare argument keeps the whitespace before its ')'. */
  function ItemRefs(it: Item): seq<string> {
    match it
    case Plain(_) => []
    case UrlRef(_, _, a, r) => if a.Quoted? then [a.text] else [a.text + r]
    case ImportString(_, _, _, t) => [t]
    case ImportKeyword(_, _) => []
  }

  function CssRefs(items: seq<Item>): seq<string> {
    if items == [] then [] else ItemRefs(items[0]) + CssRefs(items[1..])
  }

  /** No "url(" can start inside t: every '(' follows something other than an 'l'. */
  predicate NoUrlOpen(t: string) {
    forall i :: 0 < i < |t| && t[i] == '(' ==> LowerChar(t[i - 1]) != 'l'
  }

  predicate ArgumentWellFormed(a: Argument) {
    match a
    case Quoted(q, t) => IsQuote(q) && q !in t
    case Bare(t) => t != [] && !IsWs(t[0]) && !IsQuote(t[0]) && ')' !in t
  }

  predicate ItemWellFormed(it: Item) {
    match it
    case Plain(t) => t != [] && '@' !in t && NoUrlOpen(t)
    case UrlRef(f, l, a, r) => Lower(f) == "url(" && AllWs(l) && ArgumentWellFormed(a) && AllWs(r)
    case ImportString(k, p, q, t) => Lower(k) == "@import" && AllWs(p) && IsQuote(q) && q !in t
    case ImportKeyword(k, p) => Lower(k) == "@import" && AllWs(p)
  }

  /** Two plain texts never touch, and a bare keyword is followed by a url. */
  predicate Adjacent(a: Item, b: Item) {
    !(a.Plain? && b.Plain?) && (a.ImportKeyword? ==> b.UrlRef?)
  }

  /** Items are well formed, neighbours fit together, and the sheet does not end in a bare keyword. */
  predicate WellFormed(items: seq<Item>) {
    && (forall i :: 0 <= i < |items| ==> ItemWellFormed(items[i]))
    && (forall i :: 0 <= i < |items| - 1 ==> Adjacent(items[i], items[i + 1]))
    && (items != [] ==> !items[|items| - 1].ImportKeyword?)
  }

  /** What can follow plain text: nothing, or the start of a url or an import. */
  predicate OpensItem(rest: string) {
    rest == [] || rest[0] == 'u' || rest[0] == 'U' || rest[0] == '@'
  }

  lemma RenderItemOpens(it: Item, rest: string)
    requires ItemWellFormed(it) && !it.Plain?
    ensures OpensItem(RenderItem(it) + rest)
  {
    match it
    case UrlRef(f, l, a, r) =>
      assert Lower(f)[0] == 'u';
      assert (RenderItem(it) + rest)[0] == f[0];
    case ImportString(k, p, q, t) =>
      assert Lower(k)[0] == '@';
      assert (RenderItem(it) + rest)[0] == k[0];
    case ImportKeyword(k, p) =>
      assert Lower(k)[0] == '@';
      assert (RenderItem(it) + rest)[0] == k[0];
  }

  /** Plain text contributes nothing and never swallows the item after it. */
  lemma {:induction false} ScanPlain(t: string, rest: string)
    requires '@' !in t && NoUrlOpen(t) && OpensItem(rest)
    ensures ScanCss(t + rest) == ScanCss(rest)
    decreases |t|
  {
    if t != [] {
      var s := t + rest;
      assert s[0] == t[0];
      assert !StartsWithCI(s, "url(") by {
        if |t| >= 4 {
          TakeAppend(t, rest, 4);
          assert t[3] == '(' ==> LowerChar(t[2]) != 'l';
          assert Lower(s[..4])[2] == LowerChar(t[2]) && Lower(s[..4])[3] == LowerChar(t[3]);
        } else if |s| >= 4 {
          assert s[|t|] == rest[0];
          assert Lower(s[..4])[|t|] == LowerChar(rest[0]);
        }
      }
      assert !StartsWithCI(s, "@import") by {
        if |s| >= 7 {
          assert Lower(s[..7])[0] == LowerChar(t[0]);
          assert t[0] in t;
        }
      }
      DropAppend(t, rest, 1);
      assert NoUrlOpen(t[1..]) by {
        forall i | 0 < i < |t[1..]| && t[1..][i] == '('
          ensures LowerChar(t[1..][i - 1]) != 'l'
        {
          assert t[i + 1] == '(';
        }
      }
      assert '@' !in t[1..] by {
        assert forall i :: 0 <= i < |t[1..]| ==> t[1..][i] == t[i + 1];
      }
      ScanPlain(t[1..], rest);
    } else {
      AppendNil(rest);
    }
  }

  /** Whitespace before a url argument is skipped. */
  lemma UrlArgumentSkip(l: string, v: string)
    requires AllWs(l) && v != [] && !IsWs(v[0])
    ensures UrlArgument(l + v) == UrlArgument(v)
  {
    SkipWsAppend(l, v);
    assert (l + v)[|l|..] == v;
    assert SkipWs(v) == 0;
    assert v[0..] == v;
  }

  lemma ScanArgument(a: Argument, l: string, r: string, rest: string)
    requires AllWs(l) && ArgumentWellFormed(a) && AllWs(r)
    ensures UrlArgument(l + (RenderArgument(a) + (r + ")") + rest))
      == (if a.Quoted? then a.text else a.text + r, rest)
  {
    var v := RenderArgument(a) + (r + ")") + rest;
    assert v[0] == RenderArgument(a)[0];
    UrlArgumentSkip(l, v);
    assert forall i :: 0 <= i < |r| ==> r[i] != ')';
    NoneInChar(r, ')');
    if a.Quoted? {
      ScanQuoted(a.quote, a.text, r, rest);
    } else {
      ScanBare(a.text, r, rest);
    }
  }

  lemma ScanQuoted(q: char, x: string, r: string, rest: string)
    requires IsQuote(q) && q !in x && NoneIn(r, {')'})
    ensures UrlArgument([q] + x + [q] + (r + ")") + rest) == (x, rest)
  {
    var after := r + (")" + rest);
    var body := x + ([q] + after);
    var v := [q] + x + [q] + (r + ")") + rest;
    assert v == [q] + body by {
      Assoc(r, ")", rest);
      Assoc([q] + x + [q], r + ")", rest);
      Assoc([q] + x, [q], after);
      Assoc([q], x, [q] + after);
    }
    assert SkipWs(v) == 0 && v[0..] == v;
    assert v[1..] == body;
    NoneInChar(x, q);
    FindAppend(x, [q] + after, {q});
    assert body[..|x|] == x;
    assert body[|x| + 1..] == after;
    FindAppend(r, ")" + rest, {')'});
    assert after[|r| + 1..] == rest;
  }

  lemma ScanBare(x: string, r: string, rest: string)
    requires x != [] && !IsWs(x[0]) && !IsQuote(x[0]) && ')' !in x && NoneIn(r, {')'})
    ensures UrlArgument(x + (r + ")") + rest) == (x + r, rest)
  {
    var v := x + (r + ")") + rest;
    assert v == (x + r) + (")" + rest) by {
      Assoc(x, r, ")");
      Assoc(x + r, ")", rest);
    }
    assert v[0] == x[0];
    assert SkipWs(v) == 0 && v[0..] == v;
    NoneInChar(x, ')');
    NoneInConcat(x, r, {')'});
    FindAppend(x + r, ")" + rest, {')'});
    assert v[..|x + r|] == x + r;
    assert v[|x + r| + 1..] == rest;
  }

  lemma NoneInChar(a: string, c: char)
    requires c !in a
    ensures NoneIn(a, {c})
  {
    NoneInIntro(a, {c});
  }

  lemma NoneInConcat(a: string, b: string, stop: set<char>)
    requires NoneIn(a, stop) && NoneIn(b, stop)
    ensures NoneIn(a + b, stop)
  {
    assert forall i :: |a| <= i < |a + b| ==> (a + b)[i] == b[i - |a|];
  }

  lemma StartsWithLower(f: string, rest: string, p: string)
    requires Lower(f) == p
    ensures StartsWithCI(f + rest, p)
  {
    assert (f + rest)[..|f|] == f;
  }

  lemma NotUrlAtImport(s: string)
    requires |s| >= 1 && s[0] == '@'
    ensures !StartsWithCI(s, "url(")
  {
    if |s| >= 4 {
      assert Lower(s[..4])[0] == '@';
    }
  }

  /** Text opening with a url( in any case is scanned as a url reference. */
  lemma UrlPrefix(f: string, tail: string)
    requires Lower(f) == "url("
    ensures ScanCss(f + tail) == [UrlArgument(tail).0] + ScanCss(UrlArgument(tail).1)
  {
    StartsWithLower(f, tail, "url(");
    assert (f + tail)[4..] == tail;
  }

  /** Text opening with an @import in any case is scanned as an import. */
  lemma ImportPrefix(k: string, tail: string)
    requires Lower(k) == "@import"
    ensures var s := k + tail;
      !StartsWithCI(s, "url(") && StartsWithCI(s, "@import") && s[7..] == tail
  {
    var s := k + tail;
    StartsWithLower(k, tail, "@import");
    assert s[0] == k[0] && Lower(k)[0] == '@';
    NotUrlAtImport(s);
    assert s[7..] == tail;
  }

  lemma ScanUrlRef(it: Item, rest: string)
    requires it.UrlRef? && ItemWellFormed(it)
    ensures ScanCss(RenderItem(it) + rest) == ItemRefs(it) + ScanCss(rest)
  {
    var f, l, x := it.opener, it.padLeft, RenderArgument(it.arg) + (it.padRight + ")");
    assert RenderItem(it) + rest == f + (l + (x + rest)) by {
      Assoc(f, l + x, rest);
      Assoc(l, x, rest);
    }
    UrlPrefix(f, l + (x + rest));
    ScanArgument(it.arg, l, it.padRight, rest);
  }

  lemma ScanImportString(it: Item, rest: string)
    requires it.ImportString? && ItemWellFormed(it)
    ensures ScanCss(RenderItem(it) + rest) == ItemRefs(it) + ScanCss(rest)
  {
    var k, p, q, x := it.keyword, it.pad, it.quote, it.text;
    var body := x + ([q] + rest);
    var v := [q] + body;
    assert RenderItem(it) + rest == k + (p + v) by {
      Assoc(k, p + ([q] + x + [q]), rest);
      Assoc(p, [q] + x + [q], rest);
      Assoc([q] + x, [q], rest);
      Assoc([q], x, [q] + rest);
    }
    ImportPrefix(k, p + v);
    SkipWsAppend(p, v);
    assert (p + v)[|p|..] == v;
    assert v[1..] == body;
    NoneInChar(x, q);
    FindAppend(x, [q] + rest, {q});
    assert body[..|x|] == x;
    assert body[|x| + 1..] == rest;
  }

  /** An @import not followed by a quote is skipped, whitespace and all. */
  lemma ImportUnquoted(k: string, p: string, v: string)
    requires Lower(k) == "@import" && AllWs(p) && v != [] && !IsWs(v[0]) && !IsQuote(v[0])
    ensures ScanCss(k + (p + v)) == ScanCss(v)
  {
    ImportPrefix(k, p + v);
    SkipWsAppend(p, v);
    assert (p + v)[|p|..] == v;
  }

  lemma ScanImportKeyword(it: Item, next: Item, rest: string)
    requires it.ImportKeyword? && ItemWellFormed(it) && next.UrlRef? && ItemWellFormed(next)
    ensures ScanCss(RenderItem(it) + (RenderItem(next) + rest)) == ScanCss(RenderItem(next) + rest)
  {
    var v := RenderItem(next) + rest;
    Assoc(it.keyword, it.pad, v);
    RenderItemOpens(next, rest);
    assert |RenderItem(next)| >= |next.opener| == 4;
    ImportUnquoted(it.keyword, it.pad, v);
  }

  lemma WellFormedTail(items: seq<Item>)
    requires WellFormed(items) && items != []
    ensures WellFormed(items[1..])
  {
    var t := items[1..];
    assert forall i :: 0 <= i < |t| ==> t[i] == items[i + 1];
  }

  lemma WellFormedAt(items: seq<Item>, i: nat)
    requires WellFormed(items) && i < |items|
    ensures ItemWellFormed(items[i])
    ensures items[i].Plain? && i + 1 < |items| ==> !items[i + 1].Plain?
    ensures items[i].ImportKeyword? ==> i + 1 < |items| && items[i + 1].UrlRef?
  {
    if i + 1 < |items| {
      assert Adjacent(items[i], items[i + 1]);
    }
  }

  /** The scanner finds the references of a well-formed style sheet, and only those. */
  lemma {:induction false} ScanRenderCss(items: seq<Item>)
    requires WellFormed(items)
    ensures ScanCss(RenderCss(items)) == CssRefs(items)
    decreases |items|
  {
    if items != [] {
      var it := items[0];
      var rest := RenderCss(items[1..]);
      WellFormedTail(items);
      WellFormedAt(items, 0);
      ScanRenderCss(items[1..]);
      match it
      case Plain(t) =>
        if |items| > 1 {
          assert rest == RenderItem(items[1]) + RenderCss(items[2..]) by {
            assert items[1..][1..] == items[2..];
          }
          RenderItemOpens(items[1], RenderCss(items[2..]));
        }
        ScanPlain(t, rest);
      case UrlRef(_, _, _, _) =>
        ScanUrlRef(it, rest);
      case ImportString(_, _, _, _) =>
        ScanImportString(it, rest);
      case ImportKeyword(_, _) =>
        var next := items[1];
        assert rest == RenderItem(next) + RenderCss(items[2..]) by {
          assert items[1..][1..] == items[2..];
        }
        ScanImportKeyword(it, next, RenderCss(items[2..]));
        assert CssRefs(items[1..]) == ItemRefs(next) + CssRefs(items[2..]) by {
          assert items[1..][1..] == items[2..];
        }
    }
  }
}
