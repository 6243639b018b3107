/**
 * The message properties that binary plugins contribute, and how they are
 * folded, in plugin order, into one properties map.
 */
module PluginProperties {
  import opened Maybe

  /** A locale tag such as "de_DE"; locales are only compared, never parsed. */
  type Locale = string

  /** The contents of a `java.util.Properties`: message code to message text. */
  type PropMap = map<string, string>

  /**
   * A plugin as the plugin manager lists it. `isBinary` says whether it is a
   * precompiled (binary) plugin; for a binary plugin `getProperties` gives the
   * properties it carries for a locale, `None` where the plugin returns null.
   */
  datatype Plugin = Plugin(isBinary: bool, getProperties: Locale -> Option<PropMap>)

  /** A plugin is merged for `locale` only if it is binary and has properties for it. */
  predicate Contributes(p: Plugin, locale: Locale)
  {
    p.isBinary && p.getProperties(locale).Some?
  }

  /** The plugin contributes a value for `code` in `locale`. */
  predicate Defines(p: Plugin, locale: Locale, code: string)
  {
    Contributes(p, locale) && code in p.getProperties(locale).value
  }

  /**
   * `base` after every contributing plugin's properties were put into it, in
   * order: the specification of the merge loop.
   */
  function Merged(plugins: seq<Plugin>, locale: Locale, base: PropMap): (r: PropMap)
    ensures base.Keys <= r.Keys
  {
    if plugins == [] then base
    else
      var prior := Merged(plugins[..|plugins| - 1], locale, base);
      var last := plugins[|plugins| - 1];
      if last.isBinary && last.getProperties(locale).Some? then prior + last.getProperties(locale).value
      else prior
  }

  /**
   * Reference definition of the winning plugin for `code`: the index of the
   * last plugin that defines it, or -1 when none does.
   */
  function LastDefiner(plugins: seq<Plugin>, locale: Locale, code: string): (r: int)
    ensures -1 <= r < |plugins|
    ensures r >= 0 ==> Defines(plugins[r], locale, code)
    ensures forall j :: r < j < |plugins| ==> !Defines(plugins[j], locale, code)
  {
    if plugins == [] then -1
    else if Defines(plugins[|plugins| - 1], locale, code) then |plugins| - 1
    else LastDefiner(plugins[..|plugins| - 1], locale, code)
  }

  /** The text the plugins provide for `code`: the last definer's value, or `None`. */
  function PluginDefinition(plugins: seq<Plugin>, locale: Locale, code: string): Option<string>
  {
    var i := LastDefiner(plugins, locale, code);
    if i >= 0 then Some(plugins[i].getProperties(locale).value[code]) else None
  }

  /**
   * Last writer wins: when plugin `i` defines `code` and no later plugin
   * does, the merged map holds plugin `i`'s value for `code`.
   */
  lemma {:induction false} MergedLastWriterWins(plugins: seq<Plugin>, locale: Locale, base: PropMap, code: string, i: int)
    requires 0 <= i < |plugins| && Defines(plugins[i], locale, code)
    requires forall j :: i < j < |plugins| ==> !Defines(plugins[j], locale, code)
    ensures code in Merged(plugins, locale, base)
    ensures Merged(plugins, locale, base)[code] == plugins[i].getProperties(locale).value[code]
  {
    var init := plugins[..|plugins| - 1];
    if i < |plugins| - 1 {
      assert forall j :: i < j < |init| ==> init[j] == plugins[j];
      MergedLastWriterWins(init, locale, base, code, i);
    }
  }

  /** A code that no plugin defines keeps, in the merged map, whatever `base` had for it. */
  lemma {:induction false} MergedKeepsUndefined(plugins: seq<Plugin>, locale: Locale, base: PropMap, code: string)
    requires forall j :: 0 <= j < |plugins| ==> !Defines(plugins[j], locale, code)
    ensures code in Merged(plugins, locale, base) <==> code in base
    ensures code in base ==> Merged(plugins, locale, base)[code] == base[code]
  {
    if plugins != [] {
      var init := plugins[..|plugins| - 1];
      assert forall j :: 0 <= j < |init| ==> init[j] == plugins[j];
      MergedKeepsUndefined(init, locale, base, code);
    }
  }

  /**
   * A plugin that does not contribute (not binary, or no properties for
   * the locale) can be removed from the list without changing the merge.
   */
  lemma {:induction false} MergedSkipsNonContributing(plugins: seq<Plugin>, locale: Locale, base: PropMap, i: int)
    requires 0 <= i < |plugins| && !Contributes(plugins[i], locale)
    ensures Merged(plugins[..i] + plugins[i + 1..], locale, base) == Merged(plugins, locale, base)
  {
    var n := |plugins|;
    var init, last := plugins[..n - 1], plugins[n - 1];
    if i == n - 1 {
      assert plugins[..i] + plugins[i + 1..] == init;
    } else {
      var initWithout := init[..i] + init[i + 1..];
      MergedSkipsNonContributing(init, locale, base, i);
      RemoveBeforeLast(plugins, i);
      MergedAppend(initWithout, last, locale, base);
    }
  }

  /** Removing an element other than the last commutes with splitting off the last. */
  lemma RemoveBeforeLast<T>(s: seq<T>, i: int)
    requires 0 <= i < |s| - 1
    ensures s[..i] + s[i + 1..] == (s[..|s| - 1][..i] + s[..|s| - 1][i + 1..]) + [s[|s| - 1]]
  {
    var init := s[..|s| - 1];
    assert init[..i] == s[..i];
    assert init[i + 1..] + [s[|s| - 1]] == s[i + 1..];
  }

  /** Merging one more plugin is one more step of the fold. */
  lemma MergedAppend(plugins: seq<Plugin>, p: Plugin, locale: Locale, base: PropMap)
    ensures Merged(plugins + [p], locale, base) ==
      if Contributes(p, locale) then Merged(plugins, locale, base) + p.getProperties(locale).value
      else Merged(plugins, locale, base)
  {
    assert (plugins + [p])[..|plugins|] == plugins;
  }

  /** The merged map's value for `code` is exactly the plugins' definition, else `base`'s. */
  lemma MergedLookup(plugins: seq<Plugin>, locale: Locale, base: PropMap, code: string)
    ensures PluginDefinition(plugins, locale, code).Some? ==>
      code in Merged(plugins, locale, base) &&
      Merged(plugins, locale, base)[code] == PluginDefinition(plugins, locale, code).value
    ensures PluginDefinition(plugins, locale, code).None? ==>
      (code in Merged(plugins, locale, base) <==> code in base) &&
      (code in base ==> Merged(plugins, locale, base)[code] == base[code])
  {
    var i := LastDefiner(plugins, locale, code);
    if i >= 0 {
      MergedLastWriterWins(plugins, locale, base, code, i);
    } else {
      MergedKeepsUndefined(plugins, locale, base, code);
    }
  }

  /** A mutable `java.util.Properties` table. */
  class Properties {
    var entries: PropMap

    constructor ()
      ensures entries == map[]
    {
      entries := map[];
    }

    /** `putAll`: every entry of `other` is stored, replacing an existing value for its key. */
    method PutAll(other: PropMap)
      modifies this
      ensures entries == old(entries) + other
    {
      entries := entries + other;
    }
  }

  /** `getProperty`: the value stored for `key`, or `None` for null. */
  function GetProperty(props: PropMap, key: string): (r: Option<string>)
    ensures r.Some? <==> key in props
    ensures r.Some? ==> r.value == props[key]
  {
    if key in props then Some(props[key]) else None
  }
}
