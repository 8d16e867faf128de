/**
 * The parts of WordPress that the plugin's activation and settings code
 * relies on: the trailing-slash helpers, which are plain string functions,
 * and the site's option table, which activation reads, writes and deletes
 * rows of. Each option row holds an options array, modelled as a map from
 * option name to text.
 */
module WordPress {
  import opened Wrappers

  predicate IsSlash(c: char) {
    c == '/' || c == '\\'
  }

  predicate AllSlashes(s: string) {
    forall i :: 0 <= i < |s| ==> IsSlash(s[i])
  }

  /** WordPress's untrailingslashit: every trailing '/' and '\' is removed. */
  function Untrailingslashit(s: string): string
  {
    if s != [] && IsSlash(s[|s| - 1]) then Untrailingslashit(s[..|s| - 1]) else s
  }

  /** WordPress's trailingslashit: exactly one '/' at the end. */
  function Trailingslashit(s: string): (r: string)
    ensures |r| > 0 && r[|r| - 1] == '/'
  {
    Untrailingslashit(s) + "/"
  }

  /**
   * What untrailingslashit yields: a prefix of its input, followed in the
   * input only by slashes, that does not itself end in a slash.
   */
  predicate SlashFreeEnd(s: string, r: string) {
    |r| <= |s| && s[..|r|] == r && AllSlashes(s[|r|..]) &&
    (r == [] || !IsSlash(r[|r| - 1]))
  }

  lemma {:induction false} UntrailingslashitShape(s: string)
    ensures SlashFreeEnd(s, Untrailingslashit(s))
    decreases |s|
  {
    if s != [] && IsSlash(s[|s| - 1]) {
      var t := s[..|s| - 1];
      UntrailingslashitShape(t);
      var r := Untrailingslashit(t);
      assert s[..|r|] == t[..|r|];
      forall i | 0 <= i < |s| - |r| ensures IsSlash(s[|r|..][i]) {
        if i < |t| - |r| {
          assert s[|r|..][i] == t[|r|..][i];
        }
      }
    }
  }

  /** SlashFreeEnd pins its second argument down: there is only one such r. */
  lemma SlashFreeEndUnique(s: string, r: string, q: string)
    requires SlashFreeEnd(s, r) && SlashFreeEnd(s, q)
    ensures r == q
  {
    if |r| < |q| {
      assert false;
    } else if |q| < |r| {
      assert false;
    }
  }

  /** Any r with SlashFreeEnd(s, r) is untrailingslashit's answer. */
  lemma UntrailingslashitCharacterised(s: string, r: string)
    requires SlashFreeEnd(s, r)
    ensures Untrailingslashit(s) == r
  {
    UntrailingslashitShape(s);
    SlashFreeEndUnique(s, r, Untrailingslashit(s));
  }

  lemma UntrailingslashitIdempotent(s: string)
    ensures Untrailingslashit(Untrailingslashit(s)) == Untrailingslashit(s)
  {
    var r := Untrailingslashit(s);
    UntrailingslashitShape(s);
    assert r[..|r|] == r;
    UntrailingslashitCharacterised(r, r);
  }

  /** A value made only of slashes, and only such a value, becomes blank. */
  lemma UntrailingslashitBlank(s: string)
    ensures Untrailingslashit(s) == [] <==> AllSlashes(s)
  {
    UntrailingslashitShape(s);
    if AllSlashes(s) {
      assert s[0..] == s;
      UntrailingslashitCharacterised(s, []);
    }
  }

  /** trailingslashit and then untrailingslashit undo each other's slashes. */
  lemma UntrailingslashitOfTrailing(s: string)
    ensures Untrailingslashit(Trailingslashit(s)) == Untrailingslashit(s)
  {
    var r := Untrailingslashit(s);
    assert (r + "/")[..|r|] == r;
    UntrailingslashitIdempotent(s);
  }

  /** PHP truthiness of an options array: it is truthy iff it is not empty. */
  predicate Truthy(value: Option<map<string, string>>) {
    value.Some? && value.value != map[]
  }

  /**
   * The site's database as far as activation touches it: the option table
   * and the number of times the plugin's page table was created.
   */
  class Site {
    var options: map<string, map<string, string>>
    var pageTableCreations: nat

    constructor (options: map<string, map<string, string>>)
      ensures this.options == options && pageTableCreations == 0
    {
      this.options := options;
      pageTableCreations := 0;
    }

    /** get_option: the row's value, or nothing when the row is absent. */
    function GetOption(name: string): (r: Option<map<string, string>>)
      reads this
      ensures r.Some? <==> name in options
      ensures r.Some? ==> r.value == options[name]
    {
      if name in options then Some(options[name]) else None
    }

    /** update_option: the row is created or replaced. */
    method UpdateOption(name: string, value: map<string, string>)
      modifies this`options
      ensures options == old(options)[name := value]
    {
      options := options[name := value];
    }

    /** delete_option: the row is removed. */
    method DeleteOption(name: string)
      modifies this`options
      ensures options == old(options) - {name}
    {
      options := options - {name};
    }

    /** The plugin's page table is (re)created; only the call is recorded. */
    method CreatePageTable()
      modifies this`pageTableCreations
      ensures pageTableCreations == old(pageTableCreations) + 1
    {
      pageTableCreations := pageTableCreations + 1;
    }
  }
}
