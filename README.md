# Simply Static: URL extraction, the system-requirements check and activation

Simply Static is a WordPress plugin that turns a site into a static copy. It
crawls the site's pages and pulls the URLs of linked resources out of each
HTML page and style sheet. It keeps the URLs on the site's own host and
writes everything out as a zip archive or a local directory. This project
models two parts of it and proves their properties in Dafny.

**URL extraction.** The extractor class itself is not part of this model.
Its behaviour is taken from the test file
`trunk/tests/test-class-simply-static-url-extractor.php`, and the model is
the function that file pins down: `UrlExtractor.Extract(kind, body, pageUrl,
originHost)`. Extraction works in five steps:

- It scans the body for raw references:
  - `HtmlScanner.ScanHtml` does this for HTML;
  - `CssScanner.ScanCss` does it for CSS.
- It trims each raw reference (`Text.Trim`).
- It resolves the reference against the page URL with strict reference
  resolution, section 5.2.2 of RFC 3986 (`Uri.Resolve`). Parsing follows
  Appendix B, path merging section 5.2.3, dot-segment removal section 5.2.4
  and recomposition section 5.3.
- It drops the query and the fragment (`Uri.StripQueryFragment`).
- It keeps the http and https URLs whose authority is the origin host
  (`Uri.IsLocal`), each once, in order of first discovery
  (`UrlExtractor.Dedup`).

The HTML scanner handles the following:

- It skips comments whole.
- It reads the values of the URL attributes `href`, `src`, `longdesc`,
  `poster`, `cite`, `codebase` and `classid`.
- It hands `style` attributes and the bodies of `<style>` elements to the
  CSS scanner.
- It compares tag and attribute names regardless of ASCII case.
- It accepts values in single quotes, in double quotes or bare, with
  whitespace allowed around `=`.

The CSS scanner finds the argument of every `url(...)`, whether bare or
quoted, and the string of every `@import "..."`.

Each scanner comes with a document model: HTML as nodes, CSS as items. A
round-trip lemma proves that scanning a rendered well-formed document yields
exactly that document's references. The `WellFormed` predicates describe the
documents the model can render; the scanners themselves are defined on every
string.

Every tabled test case is a lemma about the literal body on the test's page
`http://example.org/blog/my-first-blog-post`. The tests assert only the first
extracted URL (`array_shift`), or that each extracted URL belongs to an
expected set. The lemmas state the whole extracted list.

**The plugin class** `includes/class-simply-static.php` contributes three
things:

- `Plugin.CheckSystemRequirements`, the system-requirements check. It builds
  the dictionary from field to messages with one method per check, and with
  loops for the additional URLs and files. It is proved equal to
  `Requirements.RequirementErrors`, which is defined by the ordered list of
  (field, message) findings the check raises (`ErrorTable.Group`).
  - The facts it asks the environment for are an `Env` record: file
    existence, writability, permalink structure, the zip extension,
    `sist_is_local_url`, `sist_string_to_array` and the three root paths.
- `Plugin.Activate`, activation. It writes the defaults to the options store
  (`Options.OptionsStore`), runs the migrations and stamps and saves the
  version. It is proved equal to `Activation.ActivatedOptions` and, for the
  site's option rows, to `Activation.ActivatedSiteOptions`.
  - The store belongs to the site's `simply_static` row: it is loaded from
    that row when the plugin object is created, and saving writes its values
    back to that row. The 1.3 migration copies the legacy `simply-static`
    row to the same row just before the save, so the save overwrites the
    copy (see "Findings").
  - Versions are compared by a strict order `lt` passed as a parameter.
    "No stored version" is below every version.
- `Plugin.SaveDestinationHost`, the destination-host line of `save_options`.
  It stores `WordPress.Untrailingslashit` of the submitted value.
  `untrailingslashit` and `trailingslashit` are WordPress functions outside
  the repository. They are modelled by what they do: the first removes every
  trailing '/' and '\', and the second appends one '/' to the result of the
  first.

## Model

Paths are relative to the repository root.

| member | source | states |
|---|---|---|
| Uri.Parse | trunk/tests/test-class-simply-static-url-extractor.php:77-88 | splits a reference into scheme, authority, path, query and fragment by the regular expression of Appendix B of RFC 3986; RecomposeParse, ParseRecompose and ParseWellFormed state what it returns |
| Uri.Merge | trunk/tests/test-class-simply-static-url-extractor.php:43-51 | section 5.2.3: a base with an authority and an empty path gives "/" + path, any other base gives its directory (DirectoryOf) + path |
| Uri.RemoveDotSegments | trunk/tests/test-class-simply-static-url-extractor.php:46-51 | the loop of section 5.2.4 run from an empty output buffer; RemoveDotsParent, RemoveDotsCurrent, RemoveDotSegmentsDotFree, RemoveDotSegmentsIsDotFree and RemoveDotSegmentsIdempotent state its properties |
| Uri.Resolve | trunk/tests/test-class-simply-static-url-extractor.php:36-91 | strict resolution of section 5.2.2 with the four cases of the reference (scheme, authority, empty path, rooted or relative path); ResolveDotFree and ResolveIdempotent state its properties, the ExtractorTargets lemmas its results on the test page |
| Uri.StripQueryFragment | trunk/tests/test-class-simply-static-url-extractor.php:68-73 | the reference with query and fragment removed and every other component kept; StripQueryFragmentPrefix states its textual meaning |
| Uri.IsLocal | trunk/tests/test-class-simply-static-url-extractor.php:89-91 | a target is local iff its scheme is http or https and its authority is the origin host; TargetForeign and ExtractIsLocal use it |
| Text.Trim | trunk/tests/test-class-simply-static-url-extractor.php:41-42 | the result has no leading or trailing whitespace and is the input with a whitespace-only prefix and suffix removed |
| Uri.RecomposeParse | trunk/tests/test-class-simply-static-url-extractor.php:77-88 | recomposing the parse of any string gives back that string |
| Uri.ParseRecompose | trunk/tests/test-class-simply-static-url-extractor.php:77-88 | parsing the recomposition of a well-formed reference gives back that reference |
| Uri.DirectoryOf | trunk/tests/test-class-simply-static-url-extractor.php:43-45 | merging takes the base path up to and including its last '/' |
| Uri.RemoveDotsParent | trunk/tests/test-class-simply-static-url-extractor.php:46-48 | a leading "/.." segment removes the last segment of the output buffer, as step C of section 5.2.4 says |
| Uri.RemoveDotsCurrent | trunk/tests/test-class-simply-static-url-extractor.php:49-51 | a leading "/." segment is dropped, as step B says |
| Uri.RemoveDotSegmentsDotFree | trunk/tests/test-class-simply-static-url-extractor.php:37-39 | a path with no "." or ".." segment is left unchanged |
| Uri.RemoveDotSegmentsIsDotFree | trunk/tests/test-class-simply-static-url-extractor.php:46-51 | the result of dot-segment removal has no "." or ".." segment |
| Uri.RemoveDotSegmentsIdempotent | trunk/tests/test-class-simply-static-url-extractor.php:46-51 | removing dot segments twice gives the same as once |
| Uri.ResolveDotFree | trunk/tests/test-class-simply-static-url-extractor.php:36-57 | against a dot-free base, every resolved path is dot-free |
| Uri.ResolveIdempotent | trunk/tests/test-class-simply-static-url-extractor.php:36-57 | resolving an already-resolved reference against the same base changes nothing |
| Uri.StripQueryFragmentPrefix | trunk/tests/test-class-simply-static-url-extractor.php:68-73 | a reference without its query and fragment recomposes to its text up to the first '?' or '#' |
| UrlExtractor.Extract | trunk/tests/test-class-simply-static-url-extractor.php:19-21 | extraction from a body of a content type on a page: scan, trim, resolve, strip, keep the local URLs and deduplicate; ExtractMembers, ExtractDeduplicated, ExtractIsLocal and ExtractFirstOrder state what it returns |
| UrlExtractor.TargetsAt | trunk/tests/test-class-simply-static-url-extractor.php:94-98 | the i-th target is where the i-th raw reference of the body points |
| UrlExtractor.Dedup | trunk/tests/test-class-simply-static-url-extractor.php:156-163 | the result has the same members as the input, no repetition, and begins with the input's first element |
| UrlExtractor.DedupNoDuplicates | trunk/tests/test-class-simply-static-url-extractor.php:156-163 | deduplicating a list without repetitions returns the list |
| UrlExtractor.FirstIndex | trunk/tests/test-class-simply-static-url-extractor.php:156-163 | the position of the first occurrence: the element is there and not earlier |
| UrlExtractor.DedupFirstOrder | trunk/tests/test-class-simply-static-url-extractor.php:156-163 | of two URLs in the deduplicated list, the earlier one first occurs earlier in the input: the result is in order of first discovery |
| UrlExtractor.ExtractFirstOrder | trunk/tests/test-class-simply-static-url-extractor.php:156-163 | the extracted URLs come in the order in which the body first references them |
| UrlExtractor.ExtractMembers | trunk/tests/test-class-simply-static-url-extractor.php:94-98 | a URL is extracted iff some raw reference of the body has a local target whose recomposition it is |
| UrlExtractor.ExtractDeduplicated | trunk/tests/test-class-simply-static-url-extractor.php:156-163 | the extracted list has no repetition, and deduplicating it again changes nothing |
| UrlExtractor.ExtractIsLocal | trunk/tests/test-class-simply-static-url-extractor.php:68-91 | every extracted URL parses as an http(s) URL on the origin host, with neither query nor fragment |
| UrlExtractor.ParseWellFormed | trunk/tests/test-class-simply-static-url-extractor.php:77-88 | the parse of any string satisfies the component constraints of Appendix B |
| UrlExtractor.LocalTargetPath | trunk/tests/test-class-simply-static-url-extractor.php:68-73 | a local target's path starts with '/' and holds no '?' and no '#' |
| HtmlScanner.ScanHtml | trunk/tests/test-class-simply-static-url-extractor.php:105-167 | the raw references of an HTML body, left to right; ScanRenderHtml states that it returns a document's references and the Scan lemmas state each construct's contribution |
| HtmlScanner.ScanRenderHtml | trunk/tests/test-class-simply-static-url-extractor.php:105-167 | scanning a rendered well-formed document yields exactly its references, in document order |
| HtmlScanner.ScanComment | trunk/tests/test-class-simply-static-url-extractor.php:120-121 | a comment contributes nothing, whatever it contains |
| HtmlScanner.ScanText | trunk/tests/test-class-simply-static-url-extractor.php:36-57 | text without '<' contributes nothing |
| HtmlScanner.ScanEndTag | trunk/tests/test-class-simply-static-url-extractor.php:36-57 | an end tag contributes nothing |
| HtmlScanner.ScanElement | trunk/tests/test-class-simply-static-url-extractor.php:138-163 | a start tag contributes the references of its attributes, in order |
| HtmlScanner.ScanAssignedAttribute | trunk/tests/test-class-simply-static-url-extractor.php:52-64 | an attribute with a value contributes its references, with whitespace allowed around '=' |
| HtmlScanner.ScanQuotedValue | trunk/tests/test-class-simply-static-url-extractor.php:55-57 | a quoted value runs to the matching quote, spaces included |
| HtmlScanner.ScanBareValue | trunk/tests/test-class-simply-static-url-extractor.php:62-64 | a bare value runs to the first whitespace or '>' |
| HtmlScanner.ScanStyleBlock | trunk/tests/test-class-simply-static-url-extractor.php:229-235 | a style element contributes its attributes' references and then those of its CSS body |
| CssScanner.ScanCss | trunk/tests/test-class-simply-static-url-extractor.php:251-271 | the raw references of a style sheet, left to right; ScanRenderCss states that it returns a sheet's references and the Scan lemmas state each construct's contribution |
| CssScanner.ScanRenderCss | trunk/tests/test-class-simply-static-url-extractor.php:251-271 | scanning a rendered well-formed style sheet yields exactly its references, in order |
| CssScanner.ScanQuoted | trunk/tests/test-class-simply-static-url-extractor.php:268-271 | a quoted url() argument is the text between the quotes, and the scan resumes after ')' |
| CssScanner.ScanBare | trunk/tests/test-class-simply-static-url-extractor.php:266-267 | a bare url() argument runs to ')' |
| CssScanner.ScanUrlRef | trunk/tests/test-class-simply-static-url-extractor.php:266-271 | a url() item contributes its argument |
| CssScanner.ScanImportString | trunk/tests/test-class-simply-static-url-extractor.php:258-261 | an @import of a quoted string contributes that string |
| CssScanner.ScanImportKeyword | trunk/tests/test-class-simply-static-url-extractor.php:254-257 | an @import followed by url() contributes only the url() argument |
| CssScanner.ScanPlain | trunk/tests/test-class-simply-static-url-extractor.php:266-271 | plain CSS text with no url( and no '@' contributes nothing |
| ExtractorTargets.TargetRoot | trunk/tests/test-class-simply-static-url-extractor.php:37-39 | a root-relative reference points to that path on the origin, without query and fragment |
| ExtractorTargets.TargetRelative | trunk/tests/test-class-simply-static-url-extractor.php:43-45 | a bare segment points into the page's directory /blog/ |
| ExtractorTargets.TargetCurrent | trunk/tests/test-class-simply-static-url-extractor.php:49-51 | "./x" points to /blog/x |
| ExtractorTargets.TargetParent | trunk/tests/test-class-simply-static-url-extractor.php:46-48 | "../x" points to /x |
| ExtractorTargets.TargetAbsolute | trunk/tests/test-class-simply-static-url-extractor.php:77-88 | an absolute reference points to itself without its fragment |
| ExtractorTargets.TargetForeign | trunk/tests/test-class-simply-static-url-extractor.php:89-91 | a reference with another scheme or another host is not local |
| HtmlCases.Link38 | trunk/tests/test-class-simply-static-url-extractor.php:38-39 | the extracted list is [http://example.org/one.htm] |
| HtmlCases.Link41 | trunk/tests/test-class-simply-static-url-extractor.php:41-42 | whitespace around a quoted value is trimmed: [http://example.org/two.htm] |
| HtmlCases.Link44 | trunk/tests/test-class-simply-static-url-extractor.php:44-45 | an unquoted value: [http://example.org/blog/three.htm] |
| HtmlCases.Link47 | trunk/tests/test-class-simply-static-url-extractor.php:47-48 | "../four.htm": [http://example.org/four.htm] |
| HtmlCases.Link50 | trunk/tests/test-class-simply-static-url-extractor.php:50-51 | "./five.htm": [http://example.org/blog/five.htm] |
| HtmlCases.Link53 | trunk/tests/test-class-simply-static-url-extractor.php:53-54 | spaces around '=': [http://example.org/blog/six.htm] |
| HtmlCases.Link56 | trunk/tests/test-class-simply-static-url-extractor.php:56-57 | an interior space is kept: [http://example.org/blog/file seven.pdf] |
| HtmlCases.Link63 | trunk/tests/test-class-simply-static-url-extractor.php:63-64 | a bare value ends at whitespace, and the next attribute is not a URL: [http://example.org/blog/nine.htm] |
| HtmlCases.Link66 | trunk/tests/test-class-simply-static-url-extractor.php:66-67 | [http://example.org/path/ten.htm] |
| HtmlCases.Link69 | trunk/tests/test-class-simply-static-url-extractor.php:69-70 | the query is dropped: [http://example.org/11.htm] |
| HtmlCases.Link72 | trunk/tests/test-class-simply-static-url-extractor.php:72-73 | the fragment is dropped: [http://example.org/12.htm] |
| HtmlCases.Link75 | trunk/tests/test-class-simply-static-url-extractor.php:75-76 | tag and attribute names in any case, with path case kept: [http://example.org/THIRTEEN.htm] |
| HtmlCases.Link78 | trunk/tests/test-class-simply-static-url-extractor.php:78-79 | an absolute URL: [http://example.org/14] |
| HtmlCases.Link81 | trunk/tests/test-class-simply-static-url-extractor.php:81-82 | a fragment-only absolute URL gives the bare origin with no trailing slash: [http://example.org] |
| HtmlCases.Link84 | trunk/tests/test-class-simply-static-url-extractor.php:84-85 | [http://example.org/test] |
| HtmlCases.Link87 | trunk/tests/test-class-simply-static-url-extractor.php:87-88 | [http://example.org/test/17.htm] |
| HtmlCases.Link90 | trunk/tests/test-class-simply-static-url-extractor.php:90-91 | another host: nothing is extracted |
| HtmlCases.Element110 | trunk/tests/test-class-simply-static-url-extractor.php:110-111 | a link element among other attributes: [http://example.org/test.css] |
| HtmlCases.Element112 | trunk/tests/test-class-simply-static-url-extractor.php:112-113 | a network-path reference to another host: nothing |
| HtmlCases.Element114 | trunk/tests/test-class-simply-static-url-extractor.php:114-115 | codebase: [http://example.org/classes] |
| HtmlCases.Element116 | trunk/tests/test-class-simply-static-url-extractor.php:116-117 | area href: [http://example.org/blog/sun.htm] |
| HtmlCases.Element118 | trunk/tests/test-class-simply-static-url-extractor.php:118-119 | ins cite: [http://example.org/blog/why.htm] |
| HtmlCases.Element120 | trunk/tests/test-class-simply-static-url-extractor.php:120-121 | the same element inside a comment: nothing |
| HtmlCases.Attributes141 | trunk/tests/test-class-simply-static-url-extractor.php:141-143 | src and longdesc: both URLs, in order |
| HtmlCases.Attributes144 | trunk/tests/test-class-simply-static-url-extractor.php:144-146 | src and longdesc around alt: both URLs, in order |
| HtmlCases.Attributes147 | trunk/tests/test-class-simply-static-url-extractor.php:147-148 | a clsid: class identifier is dropped, and codebase loses its fragment: [http://example.org/swflash.cab] |
| HtmlCases.Attributes149 | trunk/tests/test-class-simply-static-url-extractor.php:149-150 | upper-case OBJECT and CLASSID: [http://example.org/yahtzee.py] |
| HtmlCases.Attributes151 | trunk/tests/test-class-simply-static-url-extractor.php:151-153 | an attribute without a value, then src and poster: both URLs, in order |
| HtmlCases.Style206 | trunk/tests/test-class-simply-static-url-extractor.php:206-207 | url("...") in a style attribute: [http://example.org/smiley.gif] |
| HtmlCases.Style208 | trunk/tests/test-class-simply-static-url-extractor.php:208-209 | [http://example.org/one.png] |
| HtmlCases.Style210 | trunk/tests/test-class-simply-static-url-extractor.php:210-211 | an upper-case STYLE attribute with a bare url(): [http://example.org/two.png] |
| HtmlCases.Style212 | trunk/tests/test-class-simply-static-url-extractor.php:212-213 | url('...') inside a double-quoted attribute: [http://example.org/three.png] |
| HtmlCases.Block232 | trunk/tests/test-class-simply-static-url-extractor.php:232-233 | @import url() in an upper-case STYLE element: [http://example.org/import.css] |
| HtmlCases.Block234 | trunk/tests/test-class-simply-static-url-extractor.php:234-235 | a bare url() in a style element: [http://example.org/image-one.png] |
| CssCases.Sheet254 | trunk/tests/test-class-simply-static-url-extractor.php:254-255 | [http://example.org/blog/one.css] |
| CssCases.Sheet256 | trunk/tests/test-class-simply-static-url-extractor.php:256-257 | [http://example.org/two.css] |
| CssCases.Sheet258 | trunk/tests/test-class-simply-static-url-extractor.php:258-259 | @import of a single-quoted string: [http://example.org/blog/three.css] |
| CssCases.Sheet260 | trunk/tests/test-class-simply-static-url-extractor.php:260-261 | @import of a double-quoted string: [http://example.org/blog/four.css] |
| CssCases.Sheet262 | trunk/tests/test-class-simply-static-url-extractor.php:262-263 | a chrome: URL: nothing |
| CssCases.Sheet264 | trunk/tests/test-class-simply-static-url-extractor.php:264-265 | a media query after the url(): [http://example.org/blog/six.css] |
| CssCases.Sheet266 | trunk/tests/test-class-simply-static-url-extractor.php:266-267 | [http://example.org/blog/seven.png] |
| CssCases.Sheet268 | trunk/tests/test-class-simply-static-url-extractor.php:268-269 | [http://example.org/blog/eight.png] |
| CssCases.Sheet270 | trunk/tests/test-class-simply-static-url-extractor.php:270-271 | whitespace inside url() around a quoted argument: [http://example.org/blog/nine.png] |
| SimplyStatic.Plugin.CheckSystemRequirements | includes/class-simply-static.php:388-459 | the returned dictionary is RequirementErrors of the options and the environment; the method changes no state |
| SimplyStatic.Plugin.CheckDestinationHost | includes/class-simply-static.php:393-396 | appends the destination-host findings to the dictionary built so far |
| SimplyStatic.Plugin.CheckTempFilesDir | includes/class-simply-static.php:398-409 | appends the blank finding under temp_files_dir, then the access finding under delivery_method |
| SimplyStatic.Plugin.CheckPermalinks | includes/class-simply-static.php:412-414 | appends the permalink finding |
| SimplyStatic.Plugin.CheckZip | includes/class-simply-static.php:416-420 | appends the zip finding |
| SimplyStatic.Plugin.CheckLocalDir | includes/class-simply-static.php:422-436 | appends the local-directory finding |
| SimplyStatic.AddUrlErrors | includes/class-simply-static.php:438-445 | the loop appends one finding per non-local URL, in list order |
| SimplyStatic.AddFileErrors | includes/class-simply-static.php:447-456 | the loop appends one finding per file outside the three roots, in list order |
| Requirements.DestinationMessages | includes/class-simply-static.php:393-396 | one message iff the destination host is blank (strlen 0); DestinationHostErrors states where it is filed |
| Requirements.TempBlankMessages | includes/class-simply-static.php:398-400 | one message iff the temporary directory is blank; TempDirErrors states it |
| Requirements.TempAccessMessages | includes/class-simply-static.php:401-409 | for a non-blank temporary directory, one message if it is missing, else one if it is not writable; TempDirErrors states it |
| Requirements.PermalinkMessages | includes/class-simply-static.php:412-414 | one message iff the permalink structure is blank; PermalinkErrors states it |
| Requirements.ZipMessages | includes/class-simply-static.php:416-420 | one message iff the delivery method is zip and the zip extension is not loaded; DeliveryMethodGates states it |
| Requirements.LocalDirMessages | includes/class-simply-static.php:422-436 | for the local delivery method, one message if the directory is blank, else missing, else not writable; DeliveryMethodGates states it |
| Requirements.StartsWithIgnoringCase | includes/class-simply-static.php:449 | `stripos(file, root) === 0`: the file's first |root| characters equal the root ignoring ASCII case; FileMessagesOne uses it |
| Requirements.UrlMessages | includes/class-simply-static.php:438-445 | as many messages as non-local URLs; each names a non-local URL of the list; every non-local URL has one |
| Requirements.FileMessages | includes/class-simply-static.php:447-456 | as many messages as files outside the roots; each names such a file; every such file has one |
| Requirements.UrlMessagesAppend | includes/class-simply-static.php:439-445 | the messages of a + b are those of a followed by those of b, so list order is kept |
| Requirements.FileMessagesAppend | includes/class-simply-static.php:448-456 | the same for files |
| Requirements.UrlMessagesOne | includes/class-simply-static.php:440-444 | one URL gives one message iff it is not local |
| Requirements.FileMessagesOne | includes/class-simply-static.php:449-455 | one file gives one message iff it starts, ignoring case, with none of the home, plugin and content paths |
| Requirements.UrlMessagesEmpty | includes/class-simply-static.php:438-445 | no URL message iff every additional URL is local |
| Requirements.FileMessagesEmpty | includes/class-simply-static.php:447-456 | no file message iff every file lies within one of the roots |
| Requirements.Findings | includes/class-simply-static.php:391-456 | the ordered (field, message) findings of the eight checks, in the order the method runs them; Entries states each field's part |
| Requirements.RequirementErrors | includes/class-simply-static.php:388-459 | the dictionary the method returns: the findings grouped by field, in order; Plugin.CheckSystemRequirements is proved equal to it |
| Requirements.Entries | includes/class-simply-static.php:388-459 | each field's entry holds the messages of the checks filed under it, in the order they run |
| Requirements.DestinationHostErrors | includes/class-simply-static.php:393-396 | a blank destination host gives exactly one message under destination_host; a non-blank one gives none |
| Requirements.TempDirErrors | includes/class-simply-static.php:398-409 | at most one temporary-directory message; blank gives one under temp_files_dir and none under delivery_method; missing or unwritable gives one under delivery_method, naming the directory |
| Requirements.PermalinkErrors | includes/class-simply-static.php:412-414 | one message under permalink_structure iff no structure is set |
| Requirements.DeliveryMethodErrors | includes/class-simply-static.php:398-436 | the delivery_method entry is the temporary-directory message, then the zip message, then the local-directory message |
| Requirements.DeliveryMethodGates | includes/class-simply-static.php:416-436 | the zip message appears iff the method is zip and the extension is missing; local messages appear only for the local method, and then exactly one iff the directory is blank, missing or unwritable |
| Requirements.AdditionalUrlsErrors | includes/class-simply-static.php:438-456 | the additional_urls entry is the URL messages followed by the file messages; its length is the number of non-local URLs plus the number of files outside the roots |
| Requirements.RequirementsEmptyIffAllPass | includes/class-simply-static.php:388-459 | the dictionary is empty iff every check passes, stated check by check |
| ErrorTable.GroupEmpty | includes/class-simply-static.php:391-458 | the dictionary is empty iff no finding was raised |
| ErrorTable.GroupRaiseSame | includes/class-simply-static.php:395-454 | filing messages under a field appends them to that field's entry, in order |
| ErrorTable.GroupRaiseOther | includes/class-simply-static.php:395-454 | filing messages under a field leaves every other entry alone |
| ErrorTable.RaiseAppend | includes/class-simply-static.php:439-456 | filing a + b under one field is filing a and then b |
| SimplyStatic.Plugin.constructor | includes/class-simply-static.php:66-69 | the plugin's options store is created for the simply_static row and holds that row's values, or none when it is absent |
| SimplyStatic.Plugin.Activate | includes/class-simply-static.php:110-152 | the new options are ActivatedOptions of the old ones; they are saved once iff the stored version is below 1.3.0; the site's rows are ActivatedSiteOptions, so the plugin's row holds the saved values; the page table is created once iff the 1.3 migration runs |
| SimplyStatic.Plugin.Migrate | includes/class-simply-static.php:127-150 | the migrations and the version stamp; the legacy row is moved when truthy, and then the save writes the store's values to the plugin's row; the page table is created once |
| Activation.Install | includes/class-simply-static.php:115-123 | the seven defaults of a first installation, written over the stored options; FirstActivation states them |
| Activation.Migrated | includes/class-simply-static.php:127-150 | the 1.2 migration when the stored version is below 1.2.0, then the version stamp; AdditionalFilesGate and Upgrade state it |
| Activation.ActivatedOptions | includes/class-simply-static.php:110-152 | the option values after activation: defaults when no version is stored, then the migrations when it is below 1.3.0; FirstActivation, CurrentActivation, Upgrade and ActivationIdempotent state it |
| Activation.MovedLegacyRow | includes/class-simply-static.php:137-140 | a truthy simply-static row is copied to simply_static and deleted; otherwise the rows are unchanged; LegacyRowGate states it |
| Activation.ActivatedSiteOptions | includes/class-simply-static.php:135-149 | the site's rows after activation: the legacy row moved by the 1.3 migration, then the saved values written to simply_static; LegacyRowGate states it |
| Activation.Loaded | includes/class-simply-static.php:69 | the values the store starts with: the simply_static row, or none |
| Activation.FirstActivation | includes/class-simply-static.php:115-150 | with no stored version: every default is written (delivery_method zip, delete_temp_files 1, additional_urls and local_dir blank, destination = origin, temp_files_dir under the plugin directory), additional_files is blank, version is 1.3.0 and saved, and other options are untouched |
| Activation.CurrentActivation | includes/class-simply-static.php:112-150 | with a stored version at least 1.3.0: nothing is set, nothing is saved and the site's rows are unchanged |
| Activation.Upgrade | includes/class-simply-static.php:127-150 | with an older stored version: version becomes 1.3.0, and no option but additional_files and version is added or changed |
| Activation.AdditionalFilesGate | includes/class-simply-static.php:130-133 | additional_files is set to blank iff the stored version is below 1.2.0; otherwise it is as stored |
| Activation.LegacyRowGate | includes/class-simply-static.php:135-149 | the legacy row disappears iff the 1.3 migration runs and the row is truthy; when the options are saved, the simply_static row holds exactly the activated values, whatever the move copied there; otherwise the rows are unchanged; no other row changes |
| Activation.LegacyRowDiscarded | includes/class-simply-static.php:110-149 | upgrading a site whose settings are only in the legacy row leaves simply_static holding the first-installation defaults and deletes the legacy row, so the legacy settings are lost |
| Activation.LegacyHostExample | includes/class-simply-static.php:110-149 | for the legacy row {version 1.2.0, destination_host old.example}, the saved destination host is the origin's, not old.example |
| Activation.UpgradedSiteOptions | includes/class-simply-static.php:135-149 | corrected activation: a legacy row moved by the 1.3 migration is what the store migrates and saves |
| Activation.LegacySettingsKept | includes/class-simply-static.php:135-149 | with the corrected activation, an upgrade from a legacy row with an older version keeps every legacy setting but additional_files and version, stamps 1.3.0 and deletes the legacy row; without a legacy row it is activation as written |
| Activation.ActivationIdempotent | includes/class-simply-static.php:110-152 | activating again changes nothing and saves nothing |
| SimplyStatic.Plugin.SaveDestinationHost | includes/class-simply-static.php:359-370 | destination_host becomes the submitted value without trailing slashes, and the store is saved to its row |
| SimplyStatic.SavedHostChecked | includes/class-simply-static.php:362 | after the save, the requirements check files exactly one blank-host message under destination_host iff the submitted value is all slashes, and none otherwise |
| WordPress.Untrailingslashit | includes/class-simply-static.php:362 | WordPress's untrailingslashit: every trailing '/' and '\' removed; UntrailingslashitShape and UntrailingslashitCharacterised state what it returns |
| WordPress.Trailingslashit | includes/class-simply-static.php:119 | WordPress's trailingslashit: the result ends in exactly one '/' added after the trailing slashes are removed |
| WordPress.UntrailingslashitShape | includes/class-simply-static.php:362 | the result is a prefix of the input, the rest is all slashes, and the result does not end in a slash |
| WordPress.UntrailingslashitCharacterised | includes/class-simply-static.php:362 | that shape determines the result uniquely |
| WordPress.UntrailingslashitIdempotent | includes/class-simply-static.php:362 | removing trailing slashes twice gives the same as once |
| WordPress.UntrailingslashitBlank | includes/class-simply-static.php:362 | the value without trailing slashes is blank iff the value is all slashes |
| WordPress.UntrailingslashitOfTrailing | includes/class-simply-static.php:119 | adding a trailing slash and then removing trailing slashes gives the same as removing them |
| WordPress.Site.GetOption | includes/class-simply-static.php:137 | get_option returns the row iff it exists |
| WordPress.Site.UpdateOption | includes/class-simply-static.php:138 | update_option creates or replaces the row |
| WordPress.Site.DeleteOption | includes/class-simply-static.php:139 | delete_option removes the row |
| WordPress.Site.CreatePageTable | includes/class-simply-static.php:143 | the creation of the page table is counted |
| Options.OptionsStore.constructor | includes/class-simply-static.php:69 | the store for a row holds that row's values, or none when the row is absent |
| Options.OptionsStore.Get | includes/class-simply-static.php:112 | an option's value, or null when it was never set |
| Options.OptionsStore.Text | includes/class-simply-static.php:393-394 | the value as strlen sees it: a missing option reads as the empty string |
| Options.OptionsStore.Set | includes/class-simply-static.php:116-122 | set changes exactly the named option |
| Options.OptionsStore.Save | includes/class-simply-static.php:147-149 | save writes the current values to the store's option row of the site and counts one save |

## Left out

- The extractor class, its factory and the HTML parser library it uses are
  not part of this model. The model is the contract that the test file fixes
  case by case, extended to every input by the rules stated above. It is not
  a full HTML tokeniser: character references, CDATA, `<script>` bodies and
  attributes outside the seven named ones are not distinguished.
- The cases the tests mark as unsupported are not modelled as supported:
  - an unquoted value containing a space (lines 58-61 of the test file); the
    model's bare value ends at the first space, as any bare value does;
  - space- or comma-delimited `archive` lists (lines 169-198).
- ExtractorTargets.TargetRelative, TargetCurrent, TargetParent and TargetRoot
  are stated for the test page `http://example.org/blog/my-first-blog-post`
  and for single-segment or segment-path references only; general
  resolution is covered by the lemmas on `Uri.Resolve`.
- Character case in hosts and schemes is not normalised. `IsLocal` compares
  the authority with the origin host exactly. Percent-encoding is not
  normalised either.
- The remaining rows of `save_options` (lines 361 and 363-369) are not
  modelled. `filter_input` and its URL sanitising filter are taken as given:
  the submitted host is a plain string.
- Plugin.Activate: the environment calls `sist_origin_scheme`,
  `sist_origin_host` and `plugin_dir_path` are the `Origin` record.
  `version_compare` is the order `lt`, assumed to be a strict total order
  with 1.2.0 below 1.3.0. PHP's version-string algorithm is not
  re-implemented.
- Simply_Static_Page::create_table is represented only by a count of its
  calls.
- Options.OptionsStore: Simply_Static_Options is not part of this model. Its
  constructor is taken to load the row named by its key, with no values when
  the row is absent, and `save()` to write the values back to that row with
  `update_option`. `set` is taken to change the in-memory value only.
- A site option row is a map of strings. `get_option` returning a value that
  is not an array is not modelled. The row is truthy iff it is a non-empty
  map.
- Plugin.CheckSystemRequirements: the environment queries are fields of
  `Env`, taken as given. These are `file_exists`, `is_writeable`,
  `extension_loaded('zip')`, `get_option('permalink_structure')`,
  `admin_url`, `sist_is_local_url`, `sist_origin_url`,
  `sist_string_to_array`, `get_home_path`, `WP_PLUGIN_DIR` and
  `WP_CONTENT_DIR`. Several other things are not modelled:
  - the `global $wp_filesystem` the method declares, which it never uses;
  - the messages' translated wording and `sprintf` formatting; a message is a
    datatype value carrying the values it shows;
  - the insertion order of the dictionary's keys; the result is a map from
    field to its ordered list.
- Requirements.StartsWithIgnoringCase models `stripos(file, root) === 0`
  with ASCII case folding. Multibyte case folding is not modelled. An empty
  root counts as found at position 0, PHP 8's behaviour; earlier PHP
  versions return false there.
- Requirements.ZipMessages and LocalDirMessages compare `delivery_method`
  with `==`. For the literals 'zip' and 'local', PHP's loose comparison is
  plain string equality, and a missing option (null) equals neither.
- WordPress wiring is not modelled because it is framework plumbing:
  - the singleton, the hooks and the admin menu;
  - asset enqueueing and the file includes;
  - text domains;
  - the AJAX handlers, the view rendering and `download_file`.
- None of these is part of the shown source, so nothing about them can be
  stated: the archive manager, the page store, the fetcher and the archive
  creator.

## Findings

| source | as written | input that shows it | evidently intended | confidence | as-written member | corrected member |
|---|---|---|---|---|---|---|
| includes/class-simply-static.php:69, 110-149 | The store is loaded from the `simply_static` row. On an upgrade from a release that kept its settings in the `simply-static` row, that row does not exist yet. So activation installs the defaults, copies the legacy row to `simply_static` (138), and then `save()` (147-149) writes the defaults over the copy; the legacy row is deleted (139). | a site with only the row `simply-static` = {version: 1.2.0, destination_host: old.example}, activated on a host other than old.example: the saved destination_host is the origin host | the moved legacy settings are what the store migrates and saves, so they survive the upgrade | medium, not executed; it depends on Simply_Static_Options loading from and saving to the `simply_static` row, which is not part of this model | Activation.LegacyRowDiscarded, Activation.LegacyHostExample | Activation.UpgradedSiteOptions, Activation.LegacySettingsKept |
