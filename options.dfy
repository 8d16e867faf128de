/**
 * The plugin's options store: the values of one option row of the site,
 * loaded when the store is created, set one by one in memory, and written
 * back to that row when saved.
 */
module Options {
  import opened Wrappers
  import opened WordPress

  class OptionsStore {
    /** The name of the option row the store is loaded from and saved to. */
    const key: string
    /** The current values, by option name. */
    var values: map<string, string>
    /** How many times the store has been saved. */
    var saves: nat

    /** The store for the row `key`: its values, or none when the row is absent. */
    constructor (site: Site, key: string)
      ensures this.key == key && saves == 0
      ensures values == if key in site.options then site.options[key] else map[]
    {
      this.key := key;
      values := if key in site.options then site.options[key] else map[];
      saves := 0;
    }

    /** get: the value, or nothing (PHP null) when the option was never set. */
    function Get(name: string): (r: Option<string>)
      reads this
      ensures r.Some? <==> name in values
      ensures r.Some? ==> r.value == values[name]
    {
      if name in values then Some(values[name]) else None
    }

    /** The value as PHP's string functions see it: null reads as "". */
    function Text(name: string): (r: string)
      reads this
      ensures name in values ==> r == values[name]
      ensures name !in values ==> r == ""
    {
      if name in values then values[name] else ""
    }

    method Set(name: string, value: string)
      modifies this`values
      ensures values == old(values)[name := value]
    {
      values := values[name := value];
    }

    /** save: the row `key` of the site now holds the current values. */
    method Save(site: Site)
      modifies site`options, this`saves
      ensures site.options == old(site.options)[key := values]
      ensures saves == old(saves) + 1
    {
      site.UpdateOption(key, values);
      saves := saves + 1;
    }
  }
}
