# Plugin-aware resource bundle message source, modelled in Dafny

Grails resolves i18n message codes through `PluginAwareResourceBundleMessageSource`, which extends a reloadable resource-bundle message source. The class does four things of its own, and this project models each of them:

- **Basename derivation** (`afterPropertiesSet`). The class takes the `.properties` resources of the application. For each one it takes the file basename and cuts it before the first `'_'`, which removes the locale suffix. It keeps each resulting bundle basename once, in order of first occurrence, and installs the list as the bundle basenames. It does this only when a resource loader has been set.
- **Plugin cache setting.** `pluginCacheMillis` starts at the sentinel `Long.MIN_VALUE`. `afterPropertiesSet` replaces that sentinel with the inherited `cacheMillis`. `setPluginCacheSeconds` sets the field to `seconds * 1000`, computed in 32-bit `int` arithmetic. Its sign chooses which of the two merged-property caches a lookup uses.
- **Merging of binary plugin properties** (`mergeBinaryPluginProperties`). Every plugin that is a binary plugin and has properties for the locale has those properties put into one `Properties` table, in plugin-manager order. A later plugin overrides an earlier one.
- **Fallback resolution** (`resolveCodeWithoutArguments`, `resolveCode` and their `...FromPlugins` helpers). The application's own answer is used whenever there is one. Otherwise the code is looked up in the merged plugin properties. Both branches of the `pluginCacheMillis < 0` test consult the same merged content.

Modules:

- `Maybe` (`maybe.dfy`) holds `Option`, which stands for a Java reference that may be null.
- `JavaInt` (`java_int.dfy`) holds Java `int`/`long` ranges and the 32-bit wrap-around of `int * int`.
- `Basenames` (`basenames.dfy`) holds `indexOf`, the underscore truncation, the first-occurrence deduplication and their lemmas.
- `PluginProperties` (`plugin_properties.dfy`) holds the plugin datatype, the merge specification `Merged`, the reference definition of the winning plugin, the merge lemmas and a mutable `Properties` class.
- `MessageSource` (`message_source.dfy`) holds the class `PluginAwareResourceBundleMessageSource`. Its fields are `pluginCacheMillis`, `cacheMillis`, `basenames`, the plugin list and whether a resource loader is set.

Parameters that stand for code outside this model:

- `GrailsStringUtils.getFileBasename` is the function parameter `fileBasename` of `AfterPropertiesSet`. Its extension-stripping rule is not modelled.
- The inherited `super.resolveCodeWithoutArguments` / `super.resolveCode` results are the parameters `superMsg` / `superFormat`.
- `BinaryGrailsPlugin.getProperties(locale)` is the field `getProperties` of `Plugin`. It returns `None` where Java returns null.
- The resources found by directory listing or classpath scanning are the parameter `resourceFilenames`, as returned by `getFilename()`.
- `pluginManager.getAllPlugins()` is the field `plugins`. The constructor sets it, together with the inherited `cacheMillis`.

## Model

| member | source | states |
|---|---|---|
| `MessageSource.PluginAwareResourceBundleMessageSource.constructor` | grails-core/src/main/groovy/org/grails/spring/context/support/PluginAwareResourceBundleMessageSource.java:61 | a new source has `pluginCacheMillis` at the sentinel `Long.MIN_VALUE`, no basenames and no resource loader |
| `MessageSource.PluginAwareResourceBundleMessageSource.AfterPropertiesSet` | grails-core/src/main/groovy/org/grails/spring/context/support/PluginAwareResourceBundleMessageSource.java:85-131 | the sentinel is replaced by `cacheMillis` and any other value is kept; without a resource loader the basenames are unchanged; with one they become the distinct bundle basenames of the resources in first-occurrence order; no other field changes |
| `MessageSource.PluginAwareResourceBundleMessageSource.SetPluginCacheSeconds` | grails-core/src/main/groovy/org/grails/spring/context/support/PluginAwareResourceBundleMessageSource.java:262-264 | `pluginCacheMillis` becomes `seconds * 1000` wrapped to 32 bits, which is never the sentinel |
| `MessageSource.PluginAwareResourceBundleMessageSource.SetResourceLoader` | grails-core/src/main/groovy/org/grails/spring/context/support/PluginAwareResourceBundleMessageSource.java:246-253 | records whether the resource loader is non-null, which decides whether `afterPropertiesSet` derives basenames |
| `MessageSource.InitialisedPluginCacheMillis` | grails-core/src/main/groovy/org/grails/spring/context/support/PluginAwareResourceBundleMessageSource.java:256-264 | after construction and initialisation the plugin cache time is `cacheMillis` by default, and the 32-bit product when `setPluginCacheSeconds` ran first |
| `MessageSource.PluginAwareResourceBundleMessageSource.MergeBinaryPluginProperties` | grails-core/src/main/groovy/org/grails/spring/context/support/PluginAwareResourceBundleMessageSource.java:202-213 | the loop leaves the table equal to `Merged(plugins, locale, old table)`: each contributing plugin's properties are put in, in order |
| `MessageSource.PluginAwareResourceBundleMessageSource.GetMergedPluginProperties` | grails-core/src/main/groovy/org/grails/spring/context/support/PluginAwareResourceBundleMessageSource.java:154-164 | a fresh table holding the merge of all binary plugin properties into an empty table |
| `MessageSource.PluginAwareResourceBundleMessageSource.GetMergedBinaryPluginProperties` | grails-core/src/main/groovy/org/grails/spring/context/support/PluginAwareResourceBundleMessageSource.java:189-200 | a fresh table with the same contents as `GetMergedPluginProperties`: the two cache branches consult identical merged content |
| `MessageSource.PluginAwareResourceBundleMessageSource.ResolveCodeWithoutArgumentsFromPlugins` | grails-core/src/main/groovy/org/grails/spring/context/support/PluginAwareResourceBundleMessageSource.java:173-187 | on either side of `pluginCacheMillis < 0` the result is the value of the last binary plugin defining the code, and null exactly when no binary plugin defines it |
| `MessageSource.PluginAwareResourceBundleMessageSource.ResolveCodeFromPlugins` | grails-core/src/main/groovy/org/grails/spring/context/support/PluginAwareResourceBundleMessageSource.java:230-243 | a format is returned exactly when some binary plugin defines the code; its pattern is the last definer's text, on either cache branch |
| `MessageSource.PluginAwareResourceBundleMessageSource.ResolveCodeWithoutArguments` | grails-core/src/main/groovy/org/grails/spring/context/support/PluginAwareResourceBundleMessageSource.java:134-138 | the application's own message wins whenever it is non-null; otherwise the result is the plugins' definition of the code |
| `MessageSource.PluginAwareResourceBundleMessageSource.ResolveCode` | grails-core/src/main/groovy/org/grails/spring/context/support/PluginAwareResourceBundleMessageSource.java:140-144 | the application's own format wins whenever it is non-null; otherwise a format exists exactly when a plugin defines the code, built from the last definer's text |
| `Basenames.IndexOf` | grails-core/src/main/groovy/org/grails/spring/context/support/PluginAwareResourceBundleMessageSource.java:121 | `indexOf` gives -1 exactly when the element is absent, and otherwise a position holding it with no earlier occurrence |
| `Basenames.IndexOfAppend` | grails-core/src/main/groovy/org/grails/spring/context/support/PluginAwareResourceBundleMessageSource.java:125-126 | appending to the list does not move the first occurrence of an element already in it |
| `Basenames.TruncateAtUnderscore` | grails-core/src/main/groovy/org/grails/spring/context/support/PluginAwareResourceBundleMessageSource.java:121-124 | the result has no `'_'` and is a prefix of the basename; it is the whole basename when that has no `'_'`, and otherwise the basename continues with `'_'` right after it |
| `Basenames.BundleBasename` | grails-core/src/main/groovy/org/grails/spring/context/support/PluginAwareResourceBundleMessageSource.java:119-124 | a resource's bundle basename has no `'_'` and is a prefix of its file basename |
| `Basenames.Derived` | grails-core/src/main/groovy/org/grails/spring/context/support/PluginAwareResourceBundleMessageSource.java:118-124 | the derived list has one entry per resource |
| `Basenames.DerivedAt` | grails-core/src/main/groovy/org/grails/spring/context/support/PluginAwareResourceBundleMessageSource.java:118-124 | entry `i` of the derived list is the bundle basename of resource `i`, so the list follows resource order |
| `Basenames.AddIfAbsent` | grails-core/src/main/groovy/org/grails/spring/context/support/PluginAwareResourceBundleMessageSource.java:125-126 | contains-then-add keeps the list as a prefix, holds the element afterwards, and grows by at most one |
| `Basenames.Distinct` | grails-core/src/main/groovy/org/grails/spring/context/support/PluginAwareResourceBundleMessageSource.java:117-127 | the deduplicated list is never longer than its input |
| `Basenames.DistinctDerivedStep` | grails-core/src/main/groovy/org/grails/spring/context/support/PluginAwareResourceBundleMessageSource.java:118-127 | one more resource extends the list by its bundle basename exactly when that basename is not yet listed |
| `Basenames.DistinctSameElements` | grails-core/src/main/groovy/org/grails/spring/context/support/PluginAwareResourceBundleMessageSource.java:125-126 | the contains-then-add list holds exactly the elements that were offered to it |
| `Basenames.DistinctNoDuplicates` | grails-core/src/main/groovy/org/grails/spring/context/support/PluginAwareResourceBundleMessageSource.java:125-126 | the contains-then-add list never holds an element twice |
| `Basenames.DistinctFirstOccurrenceOrder` | grails-core/src/main/groovy/org/grails/spring/context/support/PluginAwareResourceBundleMessageSource.java:117-129 | the list orders its elements by their first occurrence in the input |
| `Basenames.BasenamesCharacterised` | grails-core/src/main/groovy/org/grails/spring/context/support/PluginAwareResourceBundleMessageSource.java:117-129 | the installed basenames contain no `'_'` and no repeats, are exactly the resources' bundle basenames, and come in first-derived order |
| `PluginProperties.Merged` | grails-core/src/main/groovy/org/grails/spring/context/support/PluginAwareResourceBundleMessageSource.java:202-213 | merging never removes a key already in the table |
| `PluginProperties.LastDefiner` | grails-core/src/main/groovy/org/grails/spring/context/support/PluginAwareResourceBundleMessageSource.java:204-210 | the index of the last binary plugin whose properties define the code, or -1 when none does |
| `PluginProperties.MergedLastWriterWins` | grails-core/src/main/groovy/org/grails/spring/context/support/PluginAwareResourceBundleMessageSource.java:202-213 | when plugin `i` defines a code and no later plugin does, the merged table holds plugin `i`'s value |
| `PluginProperties.MergedKeepsUndefined` | grails-core/src/main/groovy/org/grails/spring/context/support/PluginAwareResourceBundleMessageSource.java:202-213 | a code that no binary plugin defines keeps its prior presence and value in the table |
| `PluginProperties.MergedSkipsNonContributing` | grails-core/src/main/groovy/org/grails/spring/context/support/PluginAwareResourceBundleMessageSource.java:205-210 | a plugin that is not binary, or returns null properties, can be removed without changing the merge |
| `PluginProperties.MergedLookup` | grails-core/src/main/groovy/org/grails/spring/context/support/PluginAwareResourceBundleMessageSource.java:202-213 | the merged table maps a code to the last definer's value, or to the prior value when no plugin defines it |
| `PluginProperties.GetProperty` | grails-core/src/main/groovy/org/grails/spring/context/support/PluginAwareResourceBundleMessageSource.java:176 | `getProperty` is non-null exactly when the code is in the table, and then gives its value |
| `PluginProperties.MergedAppend` | grails-core/src/main/groovy/org/grails/spring/context/support/PluginAwareResourceBundleMessageSource.java:204-212 | one more plugin is one more `putAll` step of the merge when it contributes, and no step otherwise |
| `MessageSource.GetMessageFormat` | grails-core/src/main/groovy/org/grails/spring/context/support/PluginAwareResourceBundleMessageSource.java:233 | `getMessageFormat` is non-null exactly when the code is in the table, and then carries its text as the pattern |
| `PluginProperties.Properties.PutAll` | grails-core/src/main/groovy/org/grails/spring/context/support/PluginAwareResourceBundleMessageSource.java:209 | `putAll` stores every entry of the argument and overrides existing values for its keys |
| `JavaInt.WrapInt32` | grails-core/src/main/groovy/org/grails/spring/context/support/PluginAwareResourceBundleMessageSource.java:263 | the result is the one 32-bit value congruent to the input modulo 2^32 |
| `JavaInt.MulInt32` | grails-core/src/main/groovy/org/grails/spring/context/support/PluginAwareResourceBundleMessageSource.java:263 | Java `int * int`: the product wrapped to 32 bits |
| `JavaInt.SecondsToMillisExact` | grails-core/src/main/groovy/org/grails/spring/context/support/PluginAwareResourceBundleMessageSource.java:263 | for at most 2147483 seconds in magnitude the conversion to milliseconds is exact |
| `JavaInt.SecondsToMillisWraps` | grails-core/src/main/groovy/org/grails/spring/context/support/PluginAwareResourceBundleMessageSource.java:263 | from 2147484 to 4294967 seconds the product wraps to a negative value, which selects the `getMergedPluginProperties` branch at lines 174 and 231; the negated seconds wrap to a positive value |

## Left out

- Listing `grails-app/i18n` in development mode, classpath scanning and `Environment.isDevelopmentMode` are left out because they are I/O and environment queries. The resource filenames are an input.
- `GrailsStringUtils.getFileBasename` is left out because its source is not part of this model. It is the uninterpreted parameter `fileBasename`.
- The inherited resolution and `setBasenames` are left out because the superclass source is not part of this model. `setBasenames` is modelled as assigning the list. Any trimming or validation it does is not captured.
- `CacheEntry.getValue` and the two per-locale `ConcurrentHashMap` caches are left out because they are about timing and concurrency. Each merged table is built fresh. That is the content a cache miss produces, and the cache time never changes that content.
- The plugin cache time does not set how long merged plugin properties are cached. Both `getMergedPluginProperties` and `getMergedBinaryPluginProperties` pass the inherited `cacheMillis` to `CacheEntry.getValue` (lines 155 and 190). `pluginCacheMillis` only chooses which of the two caches a lookup uses, although the comment at lines 256-261 says it sets a cache time. With caching left out, the model keeps only that choice of branch.
- `MessageFormat` construction and `PropertiesHolder.getMessageFormat` are left out because they belong to a formatting library. A format is its pattern string, and the lookup is present or absent only.
- The creation of the `CachingPathMatchingResourcePatternResolver` in `setResourceLoader` and the superclass call are left out because they are framework wiring. Only the loader's non-nullness is kept.
- The locale of a lookup is a tag that is only passed to `getProperties`. Locale fallback is inside the plugin and the superclass, so it is not modelled.
- The trivial getters and setters (`pluginBaseNames`, `setGrailsApplication`, `setPluginManager`, `setResourceResolver`) are left out because they only assign fields. The constructor takes the plugin list and `cacheMillis` instead.
- A null `pluginManager`, a null `resourceResolver` in production mode, and a null filename would raise `NullPointerException` in Java. These cases are left out.
