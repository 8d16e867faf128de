/**
 * What activating the plugin does to its options and to the site, stated
 * as functions of what was stored before. Versions are compared by an
 * ordering passed in as `lt` ("strictly older than"); an absent stored
 * version is older than every version.
 */
module Activation {
  import opened Wrappers
  import opened WordPress

  /** The plugin's own version, the one activation stamps. */
  const Version: string := "1.3.0"

  /** The option row the plugin's settings live in, and the row used before 1.3. */
  const OptionsKey: string := "simply_static"
  const LegacyOptionsKey: string := "simply-static"

  /** The facts about the installation that the defaults are taken from. */
  datatype Origin = Origin(scheme: string, host: string, pluginDir: string)

  /**
   * `lt` is a strict total order on version strings, and it puts 1.2.0
   * before 1.3.0, as version_compare does.
   */
  ghost predicate VersionOrder(lt: (string, string) -> bool) {
    lt("1.2.0", "1.3.0") &&
    (forall v :: !lt(v, v)) &&
    (forall u, v, w :: lt(u, v) && lt(v, w) ==> lt(u, w)) &&
    (forall u, v :: u == v || lt(u, v) || lt(v, u))
  }

  /** `version_compare(version, w, '<')`, with null older than everything. */
  predicate Below(version: Option<string>, w: string, lt: (string, string) -> bool) {
    version.None? || lt(version.value, w)
  }

  function StoredVersion(stored: map<string, string>): Option<string> {
    if "version" in stored then Some(stored["version"]) else None
  }

  /** The option names a first installation gives a value to. */
  const DefaultNames: set<string> := {"destination_scheme", "destination_host", "temp_files_dir",
    "additional_urls", "delivery_method", "local_dir", "delete_temp_files"}

  /** The settings a first installation writes, one after another, over what is stored. */
  function Install(stored: map<string, string>, origin: Origin): map<string, string> {
    stored["destination_scheme" := origin.scheme]
          ["destination_host" := origin.host]
          ["temp_files_dir" := Trailingslashit(origin.pluginDir + "static-files")]
          ["additional_urls" := ""]
          ["delivery_method" := "zip"]
          ["local_dir" := ""]
          ["delete_temp_files" := "1"]
  }

  /** The option values after activation. */
  function ActivatedOptions(stored: map<string, string>, origin: Origin, lt: (string, string) -> bool): map<string, string> {
    var version := StoredVersion(stored);
    var installed := if version.None? then Install(stored, origin) else stored;
    if Below(version, Version, lt) then Migrated(installed, version, lt) else installed
  }

  /** The migrations for a stored version older than the plugin's, then the version stamp. */
  function Migrated(installed: map<string, string>, version: Option<string>, lt: (string, string) -> bool): map<string, string> {
    var migrated := if Below(version, "1.2.0", lt) then installed["additional_files" := ""] else installed;
    migrated["version" := Version]
  }

  /** Activation saves the options exactly when the stored version is older than the plugin's. */
  predicate Saves(stored: map<string, string>, lt: (string, string) -> bool) {
    Below(StoredVersion(stored), Version, lt)
  }

  /** Activation runs the 1.3 migration (options row rename, page table) exactly then. */
  predicate Migrates13(stored: map<string, string>, lt: (string, string) -> bool) {
    Below(StoredVersion(stored), "1.3.0", lt)
  }

  /** The values the options store holds when it is created for the plugin's row. */
  function Loaded(site: map<string, map<string, string>>): map<string, string> {
    if OptionsKey in site then site[OptionsKey] else map[]
  }

  /**
   * The site's option rows after activation: the 1.3 migration moves the
   * legacy row, and then the save writes the activated values to the
   * plugin's row, over whatever the move put there.
   */
  function ActivatedSiteOptions(site: map<string, map<string, string>>, stored: map<string, string>,
                                origin: Origin, lt: (string, string) -> bool): map<string, map<string, string>> {
    var moved := if Migrates13(stored, lt) then MovedLegacyRow(site) else site;
    if Saves(stored, lt) then moved[OptionsKey := ActivatedOptions(stored, origin, lt)] else moved
  }

  /** A truthy legacy row is copied to the current key and deleted; otherwise nothing changes. */
  function MovedLegacyRow(site: map<string, map<string, string>>): map<string, map<string, string>> {
    if LegacyOptionsKey in site && site[LegacyOptionsKey] != map[] then
      site[OptionsKey := site[LegacyOptionsKey]] - {LegacyOptionsKey}
    else site
  }

  // ---- what activation promises ----------------------------------------

  /**
   * A first activation writes every default, runs every migration and
   * stamps the plugin's version, leaving every other option alone.
   */
  lemma FirstActivation(stored: map<string, string>, origin: Origin, lt: (string, string) -> bool)
    requires "version" !in stored
    ensures var r := ActivatedOptions(stored, origin, lt);
      r.Keys == stored.Keys + DefaultNames + {"additional_files", "version"} &&
      r["delivery_method"] == "zip" && r["delete_temp_files"] == "1" &&
      r["additional_urls"] == "" && r["local_dir"] == "" &&
      r["destination_scheme"] == origin.scheme && r["destination_host"] == origin.host &&
      r["temp_files_dir"] == Trailingslashit(origin.pluginDir + "static-files") &&
      r["additional_files"] == "" && r["version"] == Version &&
      (forall k :: k in stored && k !in DefaultNames && k != "additional_files" ==> r[k] == stored[k])
    ensures Saves(stored, lt) && Migrates13(stored, lt)
  {
  }

  /** A stored version at least the plugin's leaves everything as it was, and nothing is saved. */
  lemma CurrentActivation(stored: map<string, string>, origin: Origin, lt: (string, string) -> bool,
                          site: map<string, map<string, string>>)
    requires "version" in stored && !lt(stored["version"], Version)
    ensures ActivatedOptions(stored, origin, lt) == stored
    ensures !Saves(stored, lt) && !Migrates13(stored, lt)
    ensures ActivatedSiteOptions(site, stored, origin, lt) == site
  {
  }

  /** An upgrade stamps the version and touches no option but additional_files and version. */
  lemma Upgrade(stored: map<string, string>, origin: Origin, lt: (string, string) -> bool)
    requires "version" in stored && lt(stored["version"], Version)
    ensures var r := ActivatedOptions(stored, origin, lt);
      r["version"] == Version &&
      (forall k :: k in stored && k != "additional_files" && k != "version" ==> k in r && r[k] == stored[k]) &&
      (forall k :: k in r ==> k in stored || k == "additional_files" || k == "version")
    ensures Saves(stored, lt)
  {
  }

  /** additional_files is reset to blank exactly when the stored version predates 1.2.0. */
  lemma AdditionalFilesGate(stored: map<string, string>, origin: Origin, lt: (string, string) -> bool)
    requires VersionOrder(lt)
    ensures var r := ActivatedOptions(stored, origin, lt);
      if Below(StoredVersion(stored), "1.2.0", lt) then "additional_files" in r && r["additional_files"] == ""
      else ("additional_files" in r <==> "additional_files" in stored) &&
           ("additional_files" in stored ==> r["additional_files"] == stored["additional_files"])
  {
  }

  /**
   * The legacy row is deleted only by the 1.3 migration, and only when it is
   * truthy; the plugin's row ends up holding the activated values whenever
   * they are saved, and no other row changes.
   */
  lemma LegacyRowGate(site: map<string, map<string, string>>, stored: map<string, string>,
                      origin: Origin, lt: (string, string) -> bool)
    ensures var r := ActivatedSiteOptions(site, stored, origin, lt);
      (LegacyOptionsKey in r <==>
        LegacyOptionsKey in site && !(Migrates13(stored, lt) && Truthy(Some(site[LegacyOptionsKey])))) &&
      (LegacyOptionsKey in r ==> r[LegacyOptionsKey] == site[LegacyOptionsKey]) &&
      (if Saves(stored, lt) then OptionsKey in r && r[OptionsKey] == ActivatedOptions(stored, origin, lt)
       else r == site) &&
      (forall k :: k != OptionsKey && k != LegacyOptionsKey ==>
        (k in r <==> k in site) && (k in site ==> r[k] == site[k]))
  {
  }

  /**
   * As written, an upgrade from a version that kept its settings in the
   * legacy row loses them: the store is loaded from the plugin's row, which
   * does not exist yet, so activation installs the defaults and saves them
   * over the row the legacy settings were just copied to.
   */
  lemma LegacyRowDiscarded(site: map<string, map<string, string>>, origin: Origin, lt: (string, string) -> bool)
    requires OptionsKey !in site && LegacyOptionsKey in site && site[LegacyOptionsKey] != map[]
    ensures var r := ActivatedSiteOptions(site, Loaded(site), origin, lt);
      LegacyOptionsKey !in r && OptionsKey in r && r[OptionsKey] == ActivatedOptions(map[], origin, lt) &&
      r[OptionsKey]["destination_host"] == origin.host
  {
  }

  /** The same, on one legacy row: its destination host is replaced by the origin's. */
  lemma LegacyHostExample(origin: Origin, lt: (string, string) -> bool)
    requires origin.host != "old.example"
    ensures var legacy := map["version" := "1.2.0", "destination_host" := "old.example"];
      var r := ActivatedSiteOptions(map[LegacyOptionsKey := legacy], map[], origin, lt);
      r[OptionsKey]["destination_host"] != legacy["destination_host"]
  {
    var legacy := map["version" := "1.2.0", "destination_host" := "old.example"];
    assert "version" in legacy;
    LegacyRowDiscarded(map[LegacyOptionsKey := legacy], origin, lt);
  }

  /**
   * Activation as the upgrade evidently means it: a legacy row that the 1.3
   * migration moves is what the store then works on, so the legacy settings
   * are migrated and saved rather than replaced by the defaults.
   */
  function UpgradedSiteOptions(site: map<string, map<string, string>>, origin: Origin,
                               lt: (string, string) -> bool): map<string, map<string, string>> {
    var stored := Loaded(site);
    if Migrates13(stored, lt) && LegacyOptionsKey in site && site[LegacyOptionsKey] != map[] then
      ActivatedSiteOptions(MovedLegacyRow(site), site[LegacyOptionsKey], origin, lt)
    else ActivatedSiteOptions(site, stored, origin, lt)
  }

  /**
   * Upgrading with the corrected activation keeps every legacy setting
   * except the two the migrations own, stamps the version and removes the
   * legacy row; without a legacy row it is activation as written.
   */
  lemma LegacySettingsKept(site: map<string, map<string, string>>, origin: Origin, lt: (string, string) -> bool)
    ensures var r := UpgradedSiteOptions(site, origin, lt);
      OptionsKey !in site && LegacyOptionsKey in site && site[LegacyOptionsKey] != map[] &&
      "version" in site[LegacyOptionsKey] && lt(site[LegacyOptionsKey]["version"], Version) ==>
        var legacy := site[LegacyOptionsKey];
        LegacyOptionsKey !in r && OptionsKey in r && r[OptionsKey]["version"] == Version &&
        (forall k :: k in legacy && k != "additional_files" && k != "version" ==>
          k in r[OptionsKey] && r[OptionsKey][k] == legacy[k])
    ensures !(LegacyOptionsKey in site && site[LegacyOptionsKey] != map[]) ==>
      UpgradedSiteOptions(site, origin, lt) == ActivatedSiteOptions(site, Loaded(site), origin, lt)
  {
    if OptionsKey !in site && LegacyOptionsKey in site && site[LegacyOptionsKey] != map[] &&
       "version" in site[LegacyOptionsKey] && lt(site[LegacyOptionsKey]["version"], Version) {
      var legacy := site[LegacyOptionsKey];
      Upgrade(legacy, origin, lt);
    }
  }

  /** Activating a second time changes nothing and saves nothing. */
  lemma ActivationIdempotent(stored: map<string, string>, origin: Origin, lt: (string, string) -> bool)
    requires VersionOrder(lt)
    ensures var r := ActivatedOptions(stored, origin, lt);
      ActivatedOptions(r, origin, lt) == r && (Saves(stored, lt) ==> !Saves(r, lt))
  {
    var r := ActivatedOptions(stored, origin, lt);
    if Saves(stored, lt) {
      assert StoredVersion(r) == Some(Version);
      assert !lt(Version, Version);
    }
  }
}
