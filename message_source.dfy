/**
 * The message source that falls back on plugin properties: it derives its
 * bundle basenames from the application's `.properties` resources, keeps a
 * separate plugin cache setting, and resolves a code from the merged binary
 * plugin properties when the application's own bundles have no message.
 */
module MessageSource {
  import opened Maybe
  import opened JavaInt
  import opened Basenames
  import opened PluginProperties

  /**
   * A parsed message pattern. Its construction belongs to the JDK's
   * formatting library; here only its pattern text is kept.
   */
  datatype MessageFormat = MessageFormat(pattern: string)

  /** `getMessageFormat`: a format for the stored pattern, or `None` when the code is absent. */
  function GetMessageFormat(props: PropMap, code: string): (r: Option<MessageFormat>)
    ensures r.Some? <==> code in props
    ensures r.Some? ==> r.value.pattern == props[code]
  {
    if code in props then Some(MessageFormat(props[code])) else None
  }

  class PluginAwareResourceBundleMessageSource {
    /** Plugin cache time in milliseconds; `LONG_MIN` means "not configured". */
    var pluginCacheMillis: Int64
    /** The inherited cache time of the application's own bundles. */
    var cacheMillis: Int64
    /** The inherited bundle basenames. */
    var basenames: seq<string>
    /** Whether a resource loader has been set (the loader field is non-null). */
    var hasLocalResourceLoader: bool
    /** What the plugin manager's `getAllPlugins()` returns, in its order. */
    var plugins: seq<Plugin>

    /**
     * A fresh message source, with the inherited cache time and the plugin
     * manager's plugins as the container wires them in.
     */
    constructor (cacheMillis: Int64, plugins: seq<Plugin>)
      ensures this.pluginCacheMillis == LONG_MIN
      ensures this.cacheMillis == cacheMillis && this.plugins == plugins
      ensures this.basenames == [] && !this.hasLocalResourceLoader
    {
      this.pluginCacheMillis := LONG_MIN;
      this.cacheMillis := cacheMillis;
      this.plugins := plugins;
      this.basenames := [];
      this.hasLocalResourceLoader := false;
    }

    /**
     * Initialisation after the container set the properties. The plugin
     * cache time defaults to the bundle cache time unless it was set; then,
     * if a resource loader is present, the basenames become the distinct
     * bundle basenames of `resourceFilenames` (the `.properties` resources
     * found on disk or on the classpath), in order of first occurrence.
     */
    method AfterPropertiesSet(resourceFilenames: seq<string>, fileBasename: string -> string)
      modifies this`pluginCacheMillis, this`basenames
      ensures pluginCacheMillis == if old(pluginCacheMillis) == LONG_MIN then cacheMillis else old(pluginCacheMillis)
      ensures !hasLocalResourceLoader ==> basenames == old(basenames)
      ensures hasLocalResourceLoader ==> basenames == Distinct(Derived(resourceFilenames, fileBasename))
    {
      if pluginCacheMillis == LONG_MIN {
        pluginCacheMillis := cacheMillis;
      }

      if !hasLocalResourceLoader {
        return;
      }

      var names: seq<string> := [];
      for n := 0 to |resourceFilenames|
        invariant pluginCacheMillis == if old(pluginCacheMillis) == LONG_MIN then cacheMillis else old(pluginCacheMillis)
        invariant names == Distinct(Derived(resourceFilenames[..n], fileBasename))
      {
        var baseName := fileBasename(resourceFilenames[n]);
        var i := IndexOf(baseName, '_');
        if i > -1 {
          baseName := baseName[..i];
        }
        assert baseName == TruncateAtUnderscore(fileBasename(resourceFilenames[n]));
        DistinctDerivedStep(resourceFilenames, n, fileBasename);
        if baseName !in names {
          names := names + [baseName];
        }
      }
      assert resourceFilenames[..|resourceFilenames|] == resourceFilenames;

      basenames := names;
    }

    /** The inherited resource-loader setter, reduced to whether the loader is non-null. */
    method SetResourceLoader(loaderIsNonNull: bool)
      modifies this`hasLocalResourceLoader
      ensures hasLocalResourceLoader == loaderIsNonNull
    {
      hasLocalResourceLoader := loaderIsNonNull;
    }

    /** Sets the plugin cache time from seconds, multiplying in 32-bit `int` arithmetic. */
    method SetPluginCacheSeconds(pluginCacheSeconds: Int32)
      modifies this`pluginCacheMillis
      ensures pluginCacheMillis == MulInt32(pluginCacheSeconds, 1000)
      ensures pluginCacheMillis != LONG_MIN
    {
      pluginCacheMillis := MulInt32(pluginCacheSeconds, 1000);
    }

    /**
     * Puts the properties of every binary plugin that has properties for
     * `locale` into `mergedProps`, in plugin order.
     */
    method MergeBinaryPluginProperties(locale: Locale, mergedProps: Properties)
      modifies mergedProps
      ensures mergedProps.entries == Merged(plugins, locale, old(mergedProps.entries))
    {
      var allPlugins := plugins;
      for n := 0 to |allPlugins|
        invariant mergedProps.entries == Merged(allPlugins[..n], locale, old(mergedProps.entries))
      {
        var plugin := allPlugins[n];
        if plugin.isBinary {
          var binaryPluginProperties := plugin.getProperties(locale);
          if binaryPluginProperties.Some? {
            mergedProps.PutAll(binaryPluginProperties.value);
          }
        }
        assert allPlugins[..n + 1][..n] == allPlugins[..n];
      }
      assert allPlugins[..|allPlugins|] == allPlugins;
    }

    /** The merged properties consulted when `pluginCacheMillis` is negative. */
    method GetMergedPluginProperties(locale: Locale) returns (mergedHolder: Properties)
      ensures fresh(mergedHolder)
      ensures mergedHolder.entries == Merged(plugins, locale, map[])
    {
      mergedHolder := new Properties();
      MergeBinaryPluginProperties(locale, mergedHolder);
    }

    /** The merged properties consulted when `pluginCacheMillis` is zero or positive. */
    method GetMergedBinaryPluginProperties(locale: Locale) returns (mergedHolder: Properties)
      ensures fresh(mergedHolder)
      ensures mergedHolder.entries == Merged(plugins, locale, map[])
    {
      mergedHolder := new Properties();
      MergeBinaryPluginProperties(locale, mergedHolder);
    }

    /**
     * The plugin lookup of a code as plain text. Whichever branch the plugin
     * cache time selects, the answer is the value of the last binary plugin
     * that defines the code, or `None` when no binary plugin does.
     */
    function ResolveCodeWithoutArgumentsFromPlugins(code: string, locale: Locale): (r: Option<string>)
      reads this
      ensures r == PluginDefinition(plugins, locale, code)
    {
      MergedLookup(plugins, locale, map[], code);
      if pluginCacheMillis < 0 then
        // getMergedPluginProperties
        var result := GetProperty(Merged(plugins, locale, map[]), code);
        if result.Some? then result else None
      else
        // findCodeInBinaryPlugins, through getMergedBinaryPluginProperties
        var result := GetProperty(Merged(plugins, locale, map[]), code);
        if result.Some? then result else None
    }

    /**
     * The plugin lookup of a code as a message format: present exactly when
     * some binary plugin defines the code, built from the last definer's text.
     */
    function ResolveCodeFromPlugins(code: string, locale: Locale): (r: Option<MessageFormat>)
      reads this
      ensures r.Some? <==> PluginDefinition(plugins, locale, code).Some?
      ensures r.Some? ==> r.value.pattern == PluginDefinition(plugins, locale, code).value
    {
      MergedLookup(plugins, locale, map[], code);
      if pluginCacheMillis < 0 then
        // getMergedPluginProperties
        var result := GetMessageFormat(Merged(plugins, locale, map[]), code);
        if result.Some? then result else None
      else
        // findMessageFormatInBinaryPlugins, through getMergedBinaryPluginProperties
        var result := GetMessageFormat(Merged(plugins, locale, map[]), code);
        if result.Some? then result else None
    }

    /**
     * Resolution of a code as plain text: the application's own message
     * (`superMsg`, the inherited lookup's answer) whenever there is one, and
     * the plugins' definition only when there is none.
     */
    function ResolveCodeWithoutArguments(code: string, locale: Locale, superMsg: Option<string>): (r: Option<string>)
      reads this
      ensures superMsg.Some? ==> r == superMsg
      ensures superMsg.None? ==> r == PluginDefinition(plugins, locale, code)
    {
      var msg := superMsg;
      if msg.None? then ResolveCodeWithoutArgumentsFromPlugins(code, locale) else msg
    }

    /**
     * Resolution of a code as a message format: the application's own format
     * (`superFormat`) whenever there is one; otherwise a format exactly when
     * some binary plugin defines the code, from the last definer's text.
     */
    function ResolveCode(code: string, locale: Locale, superFormat: Option<MessageFormat>): (r: Option<MessageFormat>)
      reads this
      ensures superFormat.Some? ==> r == superFormat
      ensures superFormat.None? ==> (r.Some? <==> PluginDefinition(plugins, locale, code).Some?)
      ensures superFormat.None? && r.Some? ==> r.value.pattern == PluginDefinition(plugins, locale, code).value
    {
      var mf := superFormat;
      if mf.None? then ResolveCodeFromPlugins(code, locale) else mf
    }
  }

  /**
   * The plugin cache time a freshly created message source ends up with once
   * initialised: the bundle cache time by default, or the configured seconds
   * converted with 32-bit multiplication when `setPluginCacheSeconds` ran
   * first.
   */
  method InitialisedPluginCacheMillis(cacheMillis: Int64, pluginCacheSeconds: Option<Int32>) returns (millis: Int64)
    ensures pluginCacheSeconds.None? ==> millis == cacheMillis
    ensures pluginCacheSeconds.Some? ==> millis == MulInt32(pluginCacheSeconds.value, 1000)
  {
    var source := new PluginAwareResourceBundleMessageSource(cacheMillis, []);
    if pluginCacheSeconds.Some? {
      source.SetPluginCacheSeconds(pluginCacheSeconds.value);
    }
    source.AfterPropertiesSet([], s => s);
    millis := source.pluginCacheMillis;
  }
}
