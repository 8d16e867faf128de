/**
 * The plugin object: its options store and the three operations on it
 * that carry decision logic, namely activation, saving the destination host
 * from the settings form, and the system-requirements check.
 */
module SimplyStatic {
  import opened Wrappers
  import opened WordPress
  import opened Options
  import opened Activation
  import opened Requirements
  import opened ErrorTable

  class Plugin {
    /** The options store, created once with the plugin object for the plugin's row. */
    const options: OptionsStore

    constructor (site: Site)
      ensures fresh(options) && options.key == OptionsKey && options.saves == 0
      ensures options.values == Loaded(site.options)
    {
      options := new OptionsStore(site, OptionsKey);
    }

    /**
     * Activation: defaults on a first installation, then (for an older
     * stored version) the migrations, the version stamp and one save to the
     * plugin's option row.
     */
    method Activate(site: Site, origin: Origin, lt: (string, string) -> bool)
      requires options.key == OptionsKey
      modifies options, site
      ensures options.values == ActivatedOptions(old(options.values), origin, lt)
      ensures options.saves == old(options.saves) + if Saves(old(options.values), lt) then 1 else 0
      ensures site.options == ActivatedSiteOptions(old(site.options), old(options.values), origin, lt)
      ensures site.pageTableCreations ==
        old(site.pageTableCreations) + if Migrates13(old(options.values), lt) then 1 else 0
    {
      ghost var stored := options.values;
      var version := options.Get("version");
      assert version == StoredVersion(stored);

      if version.None? {
        options.Set("destination_scheme", origin.scheme);
        options.Set("destination_host", origin.host);
        options.Set("temp_files_dir", Trailingslashit(origin.pluginDir + "static-files"));
        options.Set("additional_urls", "");
        options.Set("delivery_method", "zip");
        options.Set("local_dir", "");
        options.Set("delete_temp_files", "1");
      }
      assert options.values == if version.None? then Install(stored, origin) else stored;
      assert site.options == old(site.options);

      if Below(version, Version, lt) {
        Migrate(site, version, lt);
      }
    }

    /**
     * The migrations for a stored version older than the plugin's: 1.2 adds
     * the additional files option, 1.3 moves the options row to its new name
     * and creates the page table; then the version is stamped and the store
     * saved, which writes the plugin's row after the move. The plugin's
     * version is 1.3.0 itself, so the 1.3 migration runs whenever this does.
     */
    method Migrate(site: Site, version: Option<string>, lt: (string, string) -> bool)
      requires Below(version, Version, lt)
      requires options.key == OptionsKey
      modifies options, site
      ensures options.values == Migrated(old(options.values), version, lt)
      ensures options.saves == old(options.saves) + 1
      ensures site.options == MovedLegacyRow(old(site.options))[OptionsKey := options.values]
      ensures site.pageTableCreations == old(site.pageTableCreations) + 1
    {
      if Below(version, "1.2.0", lt) {
        options.Set("additional_files", "");
      }
      if Below(version, "1.3.0", lt) {
        var legacy := site.GetOption(LegacyOptionsKey);
        if Truthy(legacy) {
          site.UpdateOption(OptionsKey, legacy.value);
          site.DeleteOption(LegacyOptionsKey);
        }
        site.CreatePageTable();
      }
      options.Set("version", Version);
      options.Save(site);
    }

    /**
     * Saving the settings form, as far as the destination host goes: the
     * submitted host has its trailing slashes removed, and the store is
     * saved to its row.
     */
    method SaveDestinationHost(site: Site, posted: string)
      modifies options, site`options
      ensures options.values == old(options.values)["destination_host" := Untrailingslashit(posted)]
      ensures site.options == old(site.options)[options.key := options.values]
      ensures options.saves == old(options.saves) + 1
    {
      options.Set("destination_host", Untrailingslashit(posted));
      options.Save(site);
    }

    /**
     * The system-requirements check. It only reads the options; the
     * dictionary it builds is the one the findings specify. Each block of
     * checks is a method of its own, which appends its messages.
     */
    method CheckSystemRequirements(env: Env) returns (errors: Errors<Field, Message>)
      ensures errors == RequirementErrors(options.values, env)
    {
      ghost var opts := options.values;
      ghost var found: seq<Finding<Field, Message>> := [];
      errors := CheckDestinationHost(map[], found);
      found := found + Raise(DestinationHost, DestinationMessages(opts));
      errors := CheckTempFilesDir(errors, env, found);
      found := found + Raise(TempFilesDir, TempBlankMessages(opts)) + Raise(DeliveryMethod, TempAccessMessages(opts, env));
      errors := CheckPermalinks(errors, env, found);
      found := found + Raise(PermalinkStructure, PermalinkMessages(env));
      errors := CheckZip(errors, env, found);
      found := found + Raise(DeliveryMethod, ZipMessages(opts, env));
      errors := CheckLocalDir(errors, env, found);
      found := found + Raise(DeliveryMethod, LocalDirMessages(opts, env));

      var additionalUrls := env.stringToArray(options.Text("additional_urls"));
      errors := AddUrlErrors(errors, additionalUrls, env, found);
      found := found + Raise(AdditionalUrlsField, UrlMessages(additionalUrls, env));

      var additionalFiles := env.stringToArray(options.Text("additional_files"));
      errors := AddFileErrors(errors, additionalFiles, env, found);
      assert found + Raise(AdditionalUrlsField, FileMessages(additionalFiles, env)) == Findings(opts, env);
    }

    method CheckDestinationHost(errors0: Errors<Field, Message>, ghost found: seq<Finding<Field, Message>>) returns (errors: Errors<Field, Message>)
      requires errors0 == Group(found)
      ensures errors == Group(found + Raise(DestinationHost, DestinationMessages(options.values)))
    {
      errors := errors0;
      var destinationHost := options.Text("destination_host");
      if |destinationHost| == 0 {
        errors := Append(errors, Finding(DestinationHost, DestinationBlank));
      }
      AppendStep(found, Raise(DestinationHost, DestinationMessages(options.values)));
    }

    method CheckTempFilesDir(errors0: Errors<Field, Message>, env: Env, ghost found: seq<Finding<Field, Message>>) returns (errors: Errors<Field, Message>)
      requires errors0 == Group(found)
      ensures errors == Group(found + Raise(TempFilesDir, TempBlankMessages(options.values))
                                    + Raise(DeliveryMethod, TempAccessMessages(options.values, env)))
    {
      errors := errors0;
      var tempFilesDir := options.Text("temp_files_dir");
      if |tempFilesDir| == 0 {
        errors := Append(errors, Finding(TempFilesDir, TempDirBlank));
      } else {
        if env.fileExists(tempFilesDir) {
          if !env.isWriteable(tempFilesDir) {
            errors := Append(errors, Finding(DeliveryMethod, TempDirNotWriteable(tempFilesDir)));
          }
        } else {
          errors := Append(errors, Finding(DeliveryMethod, TempDirMissing(tempFilesDir)));
        }
      }
      ghost var c := Raise(TempFilesDir, TempBlankMessages(options.values))
                   + Raise(DeliveryMethod, TempAccessMessages(options.values, env));
      AppendStep(found, c);
      assert found + c == found + Raise(TempFilesDir, TempBlankMessages(options.values))
                                + Raise(DeliveryMethod, TempAccessMessages(options.values, env));
    }

    method CheckPermalinks(errors0: Errors<Field, Message>, env: Env, ghost found: seq<Finding<Field, Message>>) returns (errors: Errors<Field, Message>)
      requires errors0 == Group(found)
      ensures errors == Group(found + Raise(PermalinkStructure, PermalinkMessages(env)))
    {
      errors := errors0;
      if |env.permalinkStructure| == 0 {
        errors := Append(errors, Finding(PermalinkStructure, NoPermalinkStructure(env.permalinkSettingsUrl)));
      }
      AppendStep(found, Raise(PermalinkStructure, PermalinkMessages(env)));
    }

    method CheckZip(errors0: Errors<Field, Message>, env: Env, ghost found: seq<Finding<Field, Message>>) returns (errors: Errors<Field, Message>)
      requires errors0 == Group(found)
      ensures errors == Group(found + Raise(DeliveryMethod, ZipMessages(options.values, env)))
    {
      errors := errors0;
      if options.Text("delivery_method") == "zip" {
        if !env.zipLoaded {
          errors := Append(errors, Finding(DeliveryMethod, NoZipExtension));
        }
      }
      AppendStep(found, Raise(DeliveryMethod, ZipMessages(options.values, env)));
    }

    method CheckLocalDir(errors0: Errors<Field, Message>, env: Env, ghost found: seq<Finding<Field, Message>>) returns (errors: Errors<Field, Message>)
      requires errors0 == Group(found)
      ensures errors == Group(found + Raise(DeliveryMethod, LocalDirMessages(options.values, env)))
    {
      errors := errors0;
      if options.Text("delivery_method") == "local" {
        var localDir := options.Text("local_dir");
        if |localDir| == 0 {
          errors := Append(errors, Finding(DeliveryMethod, LocalDirBlank));
        } else {
          if env.fileExists(localDir) {
            if !env.isWriteable(localDir) {
              errors := Append(errors, Finding(DeliveryMethod, LocalDirNotWriteable(localDir)));
            }
          } else {
            errors := Append(errors, Finding(DeliveryMethod, LocalDirMissing(localDir)));
          }
        }
      }
      AppendStep(found, Raise(DeliveryMethod, LocalDirMessages(options.values, env)));
    }
  }

  /** The loop over the additional URLs: one message for each URL that is not local. */
  method AddUrlErrors(errors0: Errors<Field, Message>, urls: seq<string>, env: Env, ghost found: seq<Finding<Field, Message>>) returns (errors: Errors<Field, Message>)
    requires errors0 == Group(found)
    ensures errors == Group(found + Raise(AdditionalUrlsField, UrlMessages(urls, env)))
  {
    errors := errors0;
    var i := 0;
    assert found + Raise(AdditionalUrlsField, UrlMessages(urls[..i], env)) == found;
    while i < |urls|
      invariant 0 <= i <= |urls|
      invariant errors == Group(found + Raise(AdditionalUrlsField, UrlMessages(urls[..i], env)))
    {
      var url := urls[i];
      if !env.isLocalUrl(url) {
        errors := Append(errors, Finding(AdditionalUrlsField, UrlNotLocal(env.originUrl, url)));
      }
      UrlStep(found, urls, i, env);
      i := i + 1;
    }
    assert urls[..i] == urls;
  }

  /** The loop over the additional files: one message for each file outside the three directories. */
  method AddFileErrors(errors0: Errors<Field, Message>, files: seq<string>, env: Env, ghost found: seq<Finding<Field, Message>>) returns (errors: Errors<Field, Message>)
    requires errors0 == Group(found)
    ensures errors == Group(found + Raise(AdditionalUrlsField, FileMessages(files, env)))
  {
    errors := errors0;
    var j := 0;
    assert found + Raise(AdditionalUrlsField, FileMessages(files[..j], env)) == found;
    while j < |files|
      invariant 0 <= j <= |files|
      invariant errors == Group(found + Raise(AdditionalUrlsField, FileMessages(files[..j], env)))
    {
      var file := files[j];
      if !StartsWithIgnoringCase(file, env.homePath) && !StartsWithIgnoringCase(file, env.pluginDir) &&
         !StartsWithIgnoringCase(file, env.contentDir) {
        errors := Append(errors, Finding(AdditionalUrlsField,
          FileOutsideRoots(file, env.homePath, env.pluginDir, env.contentDir)));
      }
      FileStep(found, files, j, env);
      j := j + 1;
    }
    assert files[..j] == files;
  }

  /**
   * The destination host saved from the form is reported blank by the
   * requirements check exactly when the submitted value was nothing but
   * slashes.
   */
  lemma SavedHostChecked(values: map<string, string>, posted: string, env: Env)
    ensures var saved := values["destination_host" := Untrailingslashit(posted)];
      Lookup(RequirementErrors(saved, env), DestinationHost) == if AllSlashes(posted) then [DestinationBlank] else []
  {
    var saved := values["destination_host" := Untrailingslashit(posted)];
    DestinationHostErrors(saved, env);
    UntrailingslashitBlank(posted);
  }

  /** Appending the findings of one check (none or one) to the dictionary built so far. */
  lemma AppendStep(found: seq<Finding<Field, Message>>, c: seq<Finding<Field, Message>>)
    requires |c| <= 1
    ensures Group(found + c) == if c == [] then Group(found) else Append(Group(found), c[0])
  {
    if c == [] {
      assert found + c == found;
    } else {
      assert (found + c)[..|found + c| - 1] == found;
    }
  }

  /** One turn of the additional-URL loop appends that URL's finding, if any. */
  lemma UrlStep(found: seq<Finding<Field, Message>>, urls: seq<string>, i: nat, env: Env)
    requires i < |urls|
    ensures Group(found + Raise(AdditionalUrlsField, UrlMessages(urls[..i + 1], env))) ==
      if env.isLocalUrl(urls[i]) then Group(found + Raise(AdditionalUrlsField, UrlMessages(urls[..i], env)))
      else Append(Group(found + Raise(AdditionalUrlsField, UrlMessages(urls[..i], env))),
        Finding(AdditionalUrlsField, UrlNotLocal(env.originUrl, urls[i])))
  {
    var prev := UrlMessages(urls[..i], env);
    assert urls[..i + 1][..i] == urls[..i];
    if env.isLocalUrl(urls[i]) {
      assert UrlMessages(urls[..i + 1], env) == prev;
    } else {
      assert UrlMessages(urls[..i + 1], env) == prev + [UrlNotLocal(env.originUrl, urls[i])];
      GroupRaiseSnoc(found, AdditionalUrlsField, prev, UrlNotLocal(env.originUrl, urls[i]));
    }
  }

  /** One turn of the additional-file loop appends that file's finding, if any. */
  lemma FileStep(found: seq<Finding<Field, Message>>, files: seq<string>, j: nat, env: Env)
    requires j < |files|
    ensures Group(found + Raise(AdditionalUrlsField, FileMessages(files[..j + 1], env))) ==
      if !OutsideRoots(files[j], env) then Group(found + Raise(AdditionalUrlsField, FileMessages(files[..j], env)))
      else Append(Group(found + Raise(AdditionalUrlsField, FileMessages(files[..j], env))),
        Finding(AdditionalUrlsField, FileOutsideRoots(files[j], env.homePath, env.pluginDir, env.contentDir)))
  {
    var prev := FileMessages(files[..j], env);
    assert files[..j + 1][..j] == files[..j];
    if !OutsideRoots(files[j], env) {
      assert FileMessages(files[..j + 1], env) == prev;
    } else {
      var m := FileOutsideRoots(files[j], env.homePath, env.pluginDir, env.contentDir);
      assert FileMessages(files[..j + 1], env) == prev + [m];
      GroupRaiseSnoc(found, AdditionalUrlsField, prev, m);
    }
  }
}
