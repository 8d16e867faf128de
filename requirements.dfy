/**
 * The system-requirements check shown on the plugin's generate page. It
 * maps the plugin's options and the facts it asks the environment for to a
 * dictionary from field name to the messages raised against that field,
 * in the order they were raised.
 *
 * The check is specified by the ordered list of findings it raises, each a
 * (field, message) pair; Group folds that list into the dictionary exactly
 * as appending `$errors[field][] = message` one finding at a time does.
 */
module Requirements {
  import opened Text
  import opened ErrorTable

  /** The environment facts the check consults, all taken as given. */
  datatype Env = Env(
    fileExists: string -> bool,
    isWriteable: string -> bool,
    permalinkStructure: string,
    permalinkSettingsUrl: string,
    zipLoaded: bool,
    isLocalUrl: string -> bool,
    originUrl: string,
    stringToArray: string -> seq<string>,
    homePath: string,
    pluginDir: string,
    contentDir: string)

  /** The messages, by kind and with the values they show (not their wording). */
  datatype Message =
    | DestinationBlank
    | TempDirBlank
    | TempDirNotWriteable(dir: string)
    | TempDirMissing(dir: string)
    | NoPermalinkStructure(settingsUrl: string)
    | NoZipExtension
    | LocalDirBlank
    | LocalDirNotWriteable(dir: string)
    | LocalDirMissing(dir: string)
    | UrlNotLocal(origin: string, url: string)
    | FileOutsideRoots(file: string, home: string, plugins: string, content: string)

  /** The dictionary's keys: the settings fields a message is shown against. */
  datatype Field = DestinationHost | TempFilesDir | DeliveryMethod | PermalinkStructure | AdditionalUrlsField

  /** The key each field has in the returned array. */
  function Key(f: Field): string {
    match f
    case DestinationHost => "destination_host"
    case TempFilesDir => "temp_files_dir"
    case DeliveryMethod => "delivery_method"
    case PermalinkStructure => "permalink_structure"
    case AdditionalUrlsField => "additional_urls"
  }

  /** An option's value as the check reads it: a missing option is blank. */
  function Opt(options: map<string, string>, name: string): string {
    if name in options then options[name] else ""
  }

  // ---- the individual checks -------------------------------------------

  function DestinationMessages(options: map<string, string>): seq<Message> {
    if |Opt(options, "destination_host")| == 0 then [DestinationBlank] else []
  }

  /** A blank temporary directory is reported under its own field ... */
  function TempBlankMessages(options: map<string, string>): seq<Message> {
    if |Opt(options, "temp_files_dir")| == 0 then [TempDirBlank] else []
  }

  /** ... a missing or unwritable one under delivery_method. */
  function TempAccessMessages(options: map<string, string>, env: Env): seq<Message> {
    var dir := Opt(options, "temp_files_dir");
    if |dir| == 0 then []
    else if env.fileExists(dir) then
      if !env.isWriteable(dir) then [TempDirNotWriteable(dir)] else []
    else [TempDirMissing(dir)]
  }

  function PermalinkMessages(env: Env): seq<Message> {
    if |env.permalinkStructure| == 0 then [NoPermalinkStructure(env.permalinkSettingsUrl)] else []
  }

  function ZipMessages(options: map<string, string>, env: Env): seq<Message> {
    if Opt(options, "delivery_method") == "zip" then
      if !env.zipLoaded then [NoZipExtension] else []
    else []
  }

  function LocalDirMessages(options: map<string, string>, env: Env): seq<Message> {
    if Opt(options, "delivery_method") == "local" then
      var dir := Opt(options, "local_dir");
      if |dir| == 0 then [LocalDirBlank]
      else if env.fileExists(dir) then
        if !env.isWriteable(dir) then [LocalDirNotWriteable(dir)] else []
      else [LocalDirMissing(dir)]
    else []
  }

  /** One message per URL the is-local predicate rejects, in list order. */
  function UrlMessages(urls: seq<string>, env: Env): (r: seq<Message>)
    ensures |r| == CountNonLocal(urls, env)
    ensures forall m :: m in r ==> m.UrlNotLocal? && m.url in urls && !env.isLocalUrl(m.url)
    ensures forall u :: u in urls && !env.isLocalUrl(u) ==> UrlNotLocal(env.originUrl, u) in r
  {
    if urls == [] then []
    else
      var init, u := urls[..|urls| - 1], urls[|urls| - 1];
      assert urls == init + [u];
      CountNonLocalAppend(init, [u], env);
      UrlMessages(init, env) + (if !env.isLocalUrl(u) then [UrlNotLocal(env.originUrl, u)] else [])
  }

  /** The number of URLs the is-local predicate rejects. */
  function CountNonLocal(urls: seq<string>, env: Env): nat {
    if urls == [] then 0
    else (if env.isLocalUrl(urls[0]) then 0 else 1) + CountNonLocal(urls[1..], env)
  }

  /**
   * `stripos(file, root) === 0`: the first case-insensitive occurrence of
   * root in file is at its start, that is, file starts with root up to
   * ASCII case (an empty root is found at 0).
   */
  predicate StartsWithIgnoringCase(file: string, root: string) {
    |root| <= |file| && Lower(file[..|root|]) == Lower(root)
  }

  /** The file lies within none of the three expected directories. */
  predicate OutsideRoots(file: string, env: Env) {
    !StartsWithIgnoringCase(file, env.homePath) &&
    !StartsWithIgnoringCase(file, env.pluginDir) &&
    !StartsWithIgnoringCase(file, env.contentDir)
  }

  /** One message per file outside all three directories, in list order. */
  function FileMessages(files: seq<string>, env: Env): (r: seq<Message>)
    ensures |r| == CountOutside(files, env)
    ensures forall m :: m in r ==> m.FileOutsideRoots? && m.file in files && OutsideRoots(m.file, env)
    ensures forall f :: f in files && OutsideRoots(f, env) ==>
      FileOutsideRoots(f, env.homePath, env.pluginDir, env.contentDir) in r
  {
    if files == [] then []
    else
      var init, f := files[..|files| - 1], files[|files| - 1];
      assert files == init + [f];
      CountOutsideAppend(init, [f], env);
      FileMessages(init, env) +
        (if OutsideRoots(f, env) then [FileOutsideRoots(f, env.homePath, env.pluginDir, env.contentDir)] else [])
  }

  /** The number of files outside all three directories. */
  function CountOutside(files: seq<string>, env: Env): nat {
    if files == [] then 0
    else (if OutsideRoots(files[0], env) then 1 else 0) + CountOutside(files[1..], env)
  }

  function AdditionalUrls(options: map<string, string>, env: Env): seq<string> {
    env.stringToArray(Opt(options, "additional_urls"))
  }

  function AdditionalFiles(options: map<string, string>, env: Env): seq<string> {
    env.stringToArray(Opt(options, "additional_files"))
  }

  /** Every finding, in the order the check raises them. */
  function Findings(options: map<string, string>, env: Env): seq<Finding<Field, Message>> {
    Assemble(DestinationMessages(options), TempBlankMessages(options), TempAccessMessages(options, env),
             PermalinkMessages(env), ZipMessages(options, env), LocalDirMessages(options, env),
             UrlMessages(AdditionalUrls(options, env), env), FileMessages(AdditionalFiles(options, env), env))
  }

  /** The findings of the eight checks, each filed under its field, one check after another. */
  function Assemble(destination: seq<Message>, tempBlank: seq<Message>, tempAccess: seq<Message>,
                    permalink: seq<Message>, zip: seq<Message>, localDir: seq<Message>,
                    urls: seq<Message>, files: seq<Message>): seq<Finding<Field, Message>> {
    Raise(DestinationHost, destination) +
    Raise(TempFilesDir, tempBlank) +
    Raise(DeliveryMethod, tempAccess) +
    Raise(PermalinkStructure, permalink) +
    Raise(DeliveryMethod, zip) +
    Raise(DeliveryMethod, localDir) +
    Raise(AdditionalUrlsField, urls) +
    Raise(AdditionalUrlsField, files)
  }

  /** The dictionary the check returns. */
  function RequirementErrors(options: map<string, string>, env: Env): Errors<Field, Message> {
    Group(Findings(options, env))
  }

  /** Every check passes, stated check by check. */
  predicate AllPass(options: map<string, string>, env: Env) {
    var temp := Opt(options, "temp_files_dir");
    var method_ := Opt(options, "delivery_method");
    var local := Opt(options, "local_dir");
    |Opt(options, "destination_host")| > 0 &&
    |temp| > 0 && env.fileExists(temp) && env.isWriteable(temp) &&
    |env.permalinkStructure| > 0 &&
    (method_ == "zip" ==> env.zipLoaded) &&
    (method_ == "local" ==> |local| > 0 && env.fileExists(local) && env.isWriteable(local)) &&
    (forall u :: u in AdditionalUrls(options, env) ==> env.isLocalUrl(u)) &&
    (forall f :: f in AdditionalFiles(options, env) ==> !OutsideRoots(f, env))
  }

  // ---- the dictionary and the findings ---------------------------------

  lemma UrlMessagesEmpty(urls: seq<string>, env: Env)
    ensures UrlMessages(urls, env) == [] <==> forall u :: u in urls ==> env.isLocalUrl(u)
  {
    if exists u :: u in urls && !env.isLocalUrl(u) {
      var u :| u in urls && !env.isLocalUrl(u);
      assert UrlNotLocal(env.originUrl, u) in UrlMessages(urls, env);
    }
  }

  lemma FileMessagesEmpty(files: seq<string>, env: Env)
    ensures FileMessages(files, env) == [] <==> forall f :: f in files ==> !OutsideRoots(f, env)
  {
    if exists f :: f in files && OutsideRoots(f, env) {
      var f :| f in files && OutsideRoots(f, env);
      assert FileOutsideRoots(f, env.homePath, env.pluginDir, env.contentDir) in FileMessages(files, env);
    }
  }

  /** The URL messages keep list order: those of a + b are those of a, then those of b. */
  lemma {:induction false} UrlMessagesAppend(a: seq<string>, b: seq<string>, env: Env)
    ensures UrlMessages(a + b, env) == UrlMessages(a, env) + UrlMessages(b, env)
    decreases |b|
  {
    if b == [] {
      assert a + b == a;
    } else {
      var init, u := b[..|b| - 1], b[|b| - 1];
      var step := if !env.isLocalUrl(u) then [UrlNotLocal(env.originUrl, u)] else [];
      UrlMessagesAppend(a, init, env);
      DropLastAppend(a, b);
      assert (a + b)[|a + b| - 1] == u;
      assert UrlMessages(a + b, env) == UrlMessages(a + init, env) + step;
      assert UrlMessages(b, env) == UrlMessages(init, env) + step;
      Assoc(UrlMessages(a, env), UrlMessages(init, env), step);
    }
  }

  /** The file messages keep list order in the same way. */
  lemma {:induction false} FileMessagesAppend(a: seq<string>, b: seq<string>, env: Env)
    ensures FileMessages(a + b, env) == FileMessages(a, env) + FileMessages(b, env)
    decreases |b|
  {
    if b == [] {
      assert a + b == a;
    } else {
      var init, f := b[..|b| - 1], b[|b| - 1];
      var step := if OutsideRoots(f, env) then [FileOutsideRoots(f, env.homePath, env.pluginDir, env.contentDir)] else [];
      FileMessagesAppend(a, init, env);
      DropLastAppend(a, b);
      assert (a + b)[|a + b| - 1] == f;
      assert FileMessages(a + b, env) == FileMessages(a + init, env) + step;
      assert FileMessages(b, env) == FileMessages(init, env) + step;
      Assoc(FileMessages(a, env), FileMessages(init, env), step);
    }
  }

  /** One URL gives one message exactly when it is not local. */
  lemma UrlMessagesOne(u: string, env: Env)
    ensures UrlMessages([u], env) == if env.isLocalUrl(u) then [] else [UrlNotLocal(env.originUrl, u)]
  {
    assert [u][..0] == [];
  }

  /** One file gives one message exactly when it lies outside all three directories. */
  lemma FileMessagesOne(f: string, env: Env)
    ensures FileMessages([f], env) ==
      if OutsideRoots(f, env) then [FileOutsideRoots(f, env.homePath, env.pluginDir, env.contentDir)] else []
  {
    assert [f][..0] == [];
  }

  lemma CountNonLocalAppend(a: seq<string>, b: seq<string>, env: Env)
    ensures CountNonLocal(a + b, env) == CountNonLocal(a, env) + CountNonLocal(b, env)
  {
    if a != [] {
      assert (a + b)[0] == a[0];
      assert (a + b)[1..] == a[1..] + b;
      CountNonLocalAppend(a[1..], b, env);
    } else {
      assert a + b == b;
    }
  }

  lemma CountOutsideAppend(a: seq<string>, b: seq<string>, env: Env)
    ensures CountOutside(a + b, env) == CountOutside(a, env) + CountOutside(b, env)
  {
    if a != [] {
      assert (a + b)[0] == a[0];
      assert (a + b)[1..] == a[1..] + b;
      CountOutsideAppend(a[1..], b, env);
    } else {
      assert a + b == b;
    }
  }

  /** Each field's entry holds the messages of the checks filed under it, in the order they run. */
  lemma AssembledEntries(a: seq<Message>, b: seq<Message>, c: seq<Message>, d: seq<Message>,
                         e: seq<Message>, f: seq<Message>, g: seq<Message>, h: seq<Message>)
    ensures var errors := Group(Assemble(a, b, c, d, e, f, g, h));
      Lookup(errors, DestinationHost) == a &&
      Lookup(errors, TempFilesDir) == b &&
      Lookup(errors, DeliveryMethod) == c + e + f &&
      Lookup(errors, PermalinkStructure) == d &&
      Lookup(errors, AdditionalUrlsField) == g + h
  {
    AssembledEntryDestinationHost(a, b, c, d, e, f, g, h);
    AssembledEntryTempFilesDir(a, b, c, d, e, f, g, h);
    AssembledEntryDeliveryMethod(a, b, c, d, e, f, g, h);
    AssembledEntryPermalinkStructure(a, b, c, d, e, f, g, h);
    AssembledEntryAdditionalUrlsField(a, b, c, d, e, f, g, h);
  }

  lemma AssembledEntryDestinationHost(a: seq<Message>, b: seq<Message>, c: seq<Message>, d: seq<Message>,
                         e: seq<Message>, f: seq<Message>, g: seq<Message>, h: seq<Message>)
    ensures Lookup(Group(Assemble(a, b, c, d, e, f, g, h)), DestinationHost) == a
  {
    var p0: seq<Finding<Field, Message>> := [];
    var p1 := Raise(DestinationHost, a);
    assert p0 + p1 == p1;
    GroupRaiseSame(p0, DestinationHost, a);
    assert Lookup(Group(p1), DestinationHost) == a;
    var p2 := p1 + Raise(TempFilesDir, b);
    GroupRaiseOther(p1, TempFilesDir, b, DestinationHost);
    var p3 := p2 + Raise(DeliveryMethod, c);
    GroupRaiseOther(p2, DeliveryMethod, c, DestinationHost);
    var p4 := p3 + Raise(PermalinkStructure, d);
    GroupRaiseOther(p3, PermalinkStructure, d, DestinationHost);
    var p5 := p4 + Raise(DeliveryMethod, e);
    GroupRaiseOther(p4, DeliveryMethod, e, DestinationHost);
    var p6 := p5 + Raise(DeliveryMethod, f);
    GroupRaiseOther(p5, DeliveryMethod, f, DestinationHost);
    var p7 := p6 + Raise(AdditionalUrlsField, g);
    GroupRaiseOther(p6, AdditionalUrlsField, g, DestinationHost);
    var p8 := p7 + Raise(AdditionalUrlsField, h);
    GroupRaiseOther(p7, AdditionalUrlsField, h, DestinationHost);
    assert Assemble(a, b, c, d, e, f, g, h) == p8;
  }

  lemma AssembledEntryTempFilesDir(a: seq<Message>, b: seq<Message>, c: seq<Message>, d: seq<Message>,
                         e: seq<Message>, f: seq<Message>, g: seq<Message>, h: seq<Message>)
    ensures Lookup(Group(Assemble(a, b, c, d, e, f, g, h)), TempFilesDir) == b
  {
    var p0: seq<Finding<Field, Message>> := [];
    var p1 := Raise(DestinationHost, a);
    assert p0 + p1 == p1;
    GroupRaiseOther(p0, DestinationHost, a, TempFilesDir);
    var p2 := p1 + Raise(TempFilesDir, b);
    GroupRaiseSame(p1, TempFilesDir, b);
    assert Lookup(Group(p2), TempFilesDir) == b;
    var p3 := p2 + Raise(DeliveryMethod, c);
    GroupRaiseOther(p2, DeliveryMethod, c, TempFilesDir);
    var p4 := p3 + Raise(PermalinkStructure, d);
    GroupRaiseOther(p3, PermalinkStructure, d, TempFilesDir);
    var p5 := p4 + Raise(DeliveryMethod, e);
    GroupRaiseOther(p4, DeliveryMethod, e, TempFilesDir);
    var p6 := p5 + Raise(DeliveryMethod, f);
    GroupRaiseOther(p5, DeliveryMethod, f, TempFilesDir);
    var p7 := p6 + Raise(AdditionalUrlsField, g);
    GroupRaiseOther(p6, AdditionalUrlsField, g, TempFilesDir);
    var p8 := p7 + Raise(AdditionalUrlsField, h);
    GroupRaiseOther(p7, AdditionalUrlsField, h, TempFilesDir);
    assert Assemble(a, b, c, d, e, f, g, h) == p8;
  }

  lemma AssembledEntryDeliveryMethod(a: seq<Message>, b: seq<Message>, c: seq<Message>, d: seq<Message>,
                         e: seq<Message>, f: seq<Message>, g: seq<Message>, h: seq<Message>)
    ensures Lookup(Group(Assemble(a, b, c, d, e, f, g, h)), DeliveryMethod) == c + e + f
  {
    var p0: seq<Finding<Field, Message>> := [];
    var p1 := Raise(DestinationHost, a);
    assert p0 + p1 == p1;
    GroupRaiseOther(p0, DestinationHost, a, DeliveryMethod);
    var p2 := p1 + Raise(TempFilesDir, b);
    GroupRaiseOther(p1, TempFilesDir, b, DeliveryMethod);
    var p3 := p2 + Raise(DeliveryMethod, c);
    GroupRaiseSame(p2, DeliveryMethod, c);
    assert Lookup(Group(p3), DeliveryMethod) == c;
    var p4 := p3 + Raise(PermalinkStructure, d);
    GroupRaiseOther(p3, PermalinkStructure, d, DeliveryMethod);
    var p5 := p4 + Raise(DeliveryMethod, e);
    GroupRaiseSame(p4, DeliveryMethod, e);
    assert Lookup(Group(p5), DeliveryMethod) == c + e;
    var p6 := p5 + Raise(DeliveryMethod, f);
    GroupRaiseSame(p5, DeliveryMethod, f);
    assert Lookup(Group(p6), DeliveryMethod) == c + e + f;
    var p7 := p6 + Raise(AdditionalUrlsField, g);
    GroupRaiseOther(p6, AdditionalUrlsField, g, DeliveryMethod);
    var p8 := p7 + Raise(AdditionalUrlsField, h);
    GroupRaiseOther(p7, AdditionalUrlsField, h, DeliveryMethod);
    assert Assemble(a, b, c, d, e, f, g, h) == p8;
  }

  lemma AssembledEntryPermalinkStructure(a: seq<Message>, b: seq<Message>, c: seq<Message>, d: seq<Message>,
                         e: seq<Message>, f: seq<Message>, g: seq<Message>, h: seq<Message>)
    ensures Lookup(Group(Assemble(a, b, c, d, e, f, g, h)), PermalinkStructure) == d
  {
    var p0: seq<Finding<Field, Message>> := [];
    var p1 := Raise(DestinationHost, a);
    assert p0 + p1 == p1;
    GroupRaiseOther(p0, DestinationHost, a, PermalinkStructure);
    var p2 := p1 + Raise(TempFilesDir, b);
    GroupRaiseOther(p1, TempFilesDir, b, PermalinkStructure);
    var p3 := p2 + Raise(DeliveryMethod, c);
    GroupRaiseOther(p2, DeliveryMethod, c, PermalinkStructure);
    var p4 := p3 + Raise(PermalinkStructure, d);
    GroupRaiseSame(p3, PermalinkStructure, d);
    assert Lookup(Group(p4), PermalinkStructure) == d;
    var p5 := p4 + Raise(DeliveryMethod, e);
    GroupRaiseOther(p4, DeliveryMethod, e, PermalinkStructure);
    var p6 := p5 + Raise(DeliveryMethod, f);
    GroupRaiseOther(p5, DeliveryMethod, f, PermalinkStructure);
    var p7 := p6 + Raise(AdditionalUrlsField, g);
    GroupRaiseOther(p6, AdditionalUrlsField, g, PermalinkStructure);
    var p8 := p7 + Raise(AdditionalUrlsField, h);
    GroupRaiseOther(p7, AdditionalUrlsField, h, PermalinkStructure);
    assert Assemble(a, b, c, d, e, f, g, h) == p8;
  }

  lemma AssembledEntryAdditionalUrlsField(a: seq<Message>, b: seq<Message>, c: seq<Message>, d: seq<Message>,
                         e: seq<Message>, f: seq<Message>, g: seq<Message>, h: seq<Message>)
    ensures Lookup(Group(Assemble(a, b, c, d, e, f, g, h)), AdditionalUrlsField) == g + h
  {
    var p0: seq<Finding<Field, Message>> := [];
    var p1 := Raise(DestinationHost, a);
    assert p0 + p1 == p1;
    GroupRaiseOther(p0, DestinationHost, a, AdditionalUrlsField);
    var p2 := p1 + Raise(TempFilesDir, b);
    GroupRaiseOther(p1, TempFilesDir, b, AdditionalUrlsField);
    var p3 := p2 + Raise(DeliveryMethod, c);
    GroupRaiseOther(p2, DeliveryMethod, c, AdditionalUrlsField);
    var p4 := p3 + Raise(PermalinkStructure, d);
    GroupRaiseOther(p3, PermalinkStructure, d, AdditionalUrlsField);
    var p5 := p4 + Raise(DeliveryMethod, e);
    GroupRaiseOther(p4, DeliveryMethod, e, AdditionalUrlsField);
    var p6 := p5 + Raise(DeliveryMethod, f);
    GroupRaiseOther(p5, DeliveryMethod, f, AdditionalUrlsField);
    var p7 := p6 + Raise(AdditionalUrlsField, g);
    GroupRaiseSame(p6, AdditionalUrlsField, g);
    assert Lookup(Group(p7), AdditionalUrlsField) == g;
    var p8 := p7 + Raise(AdditionalUrlsField, h);
    GroupRaiseSame(p7, AdditionalUrlsField, h);
    assert Lookup(Group(p8), AdditionalUrlsField) == g + h;
    assert Assemble(a, b, c, d, e, f, g, h) == p8;
  }

  /** The entries of the check's dictionary. */
  lemma Entries(options: map<string, string>, env: Env)
    ensures var errors := RequirementErrors(options, env);
      Lookup(errors, DestinationHost) == DestinationMessages(options) &&
      Lookup(errors, TempFilesDir) == TempBlankMessages(options) &&
      Lookup(errors, DeliveryMethod) ==
        TempAccessMessages(options, env) + ZipMessages(options, env) + LocalDirMessages(options, env) &&
      Lookup(errors, PermalinkStructure) == PermalinkMessages(env) &&
      Lookup(errors, AdditionalUrlsField) ==
        UrlMessages(AdditionalUrls(options, env), env) + FileMessages(AdditionalFiles(options, env), env)
  {
    AssembledEntries(DestinationMessages(options), TempBlankMessages(options), TempAccessMessages(options, env),
                     PermalinkMessages(env), ZipMessages(options, env), LocalDirMessages(options, env),
                     UrlMessages(AdditionalUrls(options, env), env), FileMessages(AdditionalFiles(options, env), env));
  }

  // ---- what the check promises -----------------------------------------

  /** A blank destination host raises exactly one message under its field; a non-blank one none. */
  lemma DestinationHostErrors(options: map<string, string>, env: Env)
    ensures Lookup(RequirementErrors(options, env), DestinationHost) ==
      if |Opt(options, "destination_host")| == 0 then [DestinationBlank] else []
  {
    Entries(options, env);
  }

  /**
   * The temporary directory raises at most one message, and the outcomes
   * exclude each other: blank gives one under temp_files_dir, missing or
   * unwritable gives one under delivery_method instead.
   */
  lemma TempDirErrors(options: map<string, string>, env: Env)
    ensures var dir := Opt(options, "temp_files_dir");
      var blank, access := TempBlankMessages(options), TempAccessMessages(options, env);
      Lookup(RequirementErrors(options, env), TempFilesDir) == (if |dir| == 0 then [TempDirBlank] else []) &&
      |blank| + |access| <= 1 &&
      (|blank| + |access| == 1 <==> |dir| == 0 || !env.fileExists(dir) || !env.isWriteable(dir)) &&
      (|dir| == 0 ==> access == []) &&
      (|dir| > 0 ==> blank == [] && access == (if !env.fileExists(dir) then [TempDirMissing(dir)]
                                          else if !env.isWriteable(dir) then [TempDirNotWriteable(dir)] else []))
  {
    Entries(options, env);
  }

  /**
   * The delivery_method entry: the temporary-directory message, then the
   * zip message, then the local-directory message, in that order.
   */
  lemma DeliveryMethodErrors(options: map<string, string>, env: Env)
    ensures Lookup(RequirementErrors(options, env), DeliveryMethod) ==
      TempAccessMessages(options, env) + ZipMessages(options, env) + LocalDirMessages(options, env)
  {
    Entries(options, env);
  }

  /**
   * The zip check speaks only for the zip method and the local checks only
   * for the local method; for the local method a blank, missing or
   * unwritable directory gives exactly one message, which names it.
   */
  lemma DeliveryMethodGates(options: map<string, string>, env: Env)
    ensures var method_ := Opt(options, "delivery_method");
      var local := Opt(options, "local_dir");
      (ZipMessages(options, env) != [] <==> method_ == "zip" && !env.zipLoaded) &&
      |ZipMessages(options, env)| <= 1 &&
      (method_ != "local" ==> LocalDirMessages(options, env) == []) &&
      |LocalDirMessages(options, env)| <= 1 &&
      (method_ == "local" ==>
        (|LocalDirMessages(options, env)| == 1 <==> |local| == 0 || !env.fileExists(local) || !env.isWriteable(local)) &&
        LocalDirMessages(options, env) ==
          if |local| == 0 then [LocalDirBlank]
          else if !env.fileExists(local) then [LocalDirMissing(local)]
          else if !env.isWriteable(local) then [LocalDirNotWriteable(local)] else [])
  {
  }

  /**
   * The additional_urls entry: one message for each URL that is not local,
   * in list order, then one for each file outside the three directories.
   */
  lemma AdditionalUrlsErrors(options: map<string, string>, env: Env)
    ensures var entry := Lookup(RequirementErrors(options, env), AdditionalUrlsField);
      var urls, files := AdditionalUrls(options, env), AdditionalFiles(options, env);
      entry == UrlMessages(urls, env) + FileMessages(files, env) &&
      |entry| == CountNonLocal(urls, env) + CountOutside(files, env)
  {
    Entries(options, env);
  }

  /** The permalink check reports under its own field exactly when no structure is set. */
  lemma PermalinkErrors(options: map<string, string>, env: Env)
    ensures Lookup(RequirementErrors(options, env), PermalinkStructure) ==
      if |env.permalinkStructure| == 0 then [NoPermalinkStructure(env.permalinkSettingsUrl)] else []
  {
    Entries(options, env);
  }

  /** The dictionary is empty, so the generate page reports no failure, exactly when every check passes. */
  lemma RequirementsEmptyIffAllPass(options: map<string, string>, env: Env)
    ensures RequirementErrors(options, env) == map[] <==> AllPass(options, env)
  {
    GroupEmpty(Findings(options, env));
    UrlMessagesEmpty(AdditionalUrls(options, env), env);
    FileMessagesEmpty(AdditionalFiles(options, env), env);
  }
}
