# FoxAI viewer: the browser-side core, modelled in Dafny

FoxAI viewer is a browser client for a realtime multimodal model. It streams
microphone, camera and screen frames over a WebSocket, or talks to an
HTTP "API pool". The model can call local tools. The project models the
logic of that client:

- **Realtime** (`session.dfy`): the page script's module-level state
  (`isConnected`, `isRecording`, `isUsingTool`, the device objects) and the
  handlers that change it. It covers the content, interrupted and
  turn-complete events, the recorder and frame callbacks, connecting by mode,
  the API-pool error classifier, disconnecting, sending text, and the mic,
  camera and screen toggles. Messages sent to the client and devices stopped
  are recorded as sequences. The outcomes of `client.connect`, of the
  probe `fetch` and of device start-up are parameters.
- **ToolRegistry** (`tool_registry.dfy`): the `ToolManager` class. It keeps a
  registry of tools in insertion order, registers the built-in tools
  according to the configuration store, lists declarations, dispatches a
  function call (including the `get_weather_on_date` alias), reloads, and
  reports tool information.
- **ToolConfigs** (`tool_configs.dfy`): the `MCPConfig` class. It covers
  validation and normalisation of a raw configuration, the eight built-in
  configurations, add, get, update, enable and remove, the bulk import that
  stops at the first invalid entry, and the statistics.
- **Calculator** (`calculator.dfy`): the calculator tool's declaration,
  the character sanitiser, the parenthesis check and the `execute` error
  paths. Arithmetic evaluation is a parameter.
- **I18n** (`i18n.dfy`): the translation manager. It covers browser-language
  detection, the language choice on construction and in `setLanguage`,
  dotted-key lookup with the English fallback, and the observer list.
- **ServiceWorker** (`service_worker.dfy`): request routing (pass-through,
  network-first, cache-first), the two caching strategies over a Cache
  Storage object, and the activate clean-up.
- **Common** (`common.dfy`): the JavaScript values the code relies on. This
  means a JSON value type with truthiness and string conversion, `trim`,
  `includes`, `split` and `join`, and an insertion-ordered map standing for
  a JavaScript `Map`.

Thrown exceptions are modelled as `Result`/`Outcome` values that carry the
message and the error code. A JavaScript `Map` is a sequence of keys plus a
map of entries.

## Model

| member | source | states |
|---|---|---|
| Calculator.GetDeclaration | src/static/js/tools/calculator-tool.js:14-29 | one declaration, `calculate`, whose object parameters have exactly one property, the required string `expression` |
| Calculator.Sanitize | src/static/js/tools/calculator-tool.js:76 | the sanitised expression is no longer than the input and holds only digits, the four operators, parentheses, dots and whitespace |
| Calculator.SanitizeMembers | src/static/js/tools/calculator-tool.js:76 | a character survives sanitising exactly when it occurs in the input and is allowed |
| Calculator.SanitizeConcat | src/static/js/tools/calculator-tool.js:76 | sanitising distributes over concatenation |
| Calculator.SanitizeIdempotent | src/static/js/tools/calculator-tool.js:76 | sanitising twice is sanitising once |
| Calculator.HasBalancedParentheses | src/static/js/tools/calculator-tool.js:107-115 | the counter loop with early exit returns true exactly when no prefix closes more parentheses than it opened and the totals agree |
| Calculator.EvaluateExpression | src/static/js/tools/calculator-tool.js:74-100 | succeeds exactly when the sanitised expression is non-empty, balanced and evaluates to a finite number, and then returns that number; an expression that sanitises to nothing gives `Empty or invalid expression` |
| Calculator.Execute | src/static/js/tools/calculator-tool.js:37-67 | every failure is an EXECUTION_ERROR whose message starts with `Calculation failed: `; it succeeds exactly when a non-empty string expression trims and sanitises to a non-empty, balanced text that evaluates to a finite number, and then returns that expression and number; `undefined` or `null` arguments fail with the destructuring `TypeError` text |
| Calculator.EvaluatorFailureWrapped | src/static/js/tools/calculator-tool.js:88-99 | an evaluator that throws, or yields something other than a finite number, fails with `Invalid mathematical expression: ` and its message (`Invalid calculation result` for a non-number), under the `Calculation failed: ` prefix |
| Calculator.InvalidExpressionRejected | src/static/js/tools/calculator-tool.js:40-47 | for any argument other than `undefined` or `null`, a missing, empty or non-string expression fails with `Invalid expression provided` |
| Calculator.RejectedBeforeEvaluation | src/static/js/tools/calculator-tool.js:79-86 | an expression that sanitises to nothing or is unbalanced fails, whatever the evaluator would do |
| Calculator.UnbalancedRejected | src/static/js/tools/calculator-tool.js:84-86 | an unbalanced sanitised expression fails with the unbalanced-parentheses message |
| Calculator.UnbalancedExample | src/static/js/tools/calculator-tool.js:84-86 | `2+(3` is refused as unbalanced |
| I18n.DetectBrowserLanguage | src/static/js/i18n/i18n-manager.js:27-34 | detection always yields one of `en`, `zh`, `de`, `fr` |
| I18n.DetectPrimary | src/static/js/i18n/i18n-manager.js:27-34 | for any tag with a `-`, the lower-cased text before the first `-` when it is a supported code, otherwise `en` |
| I18n.DetectWholeTag | src/static/js/i18n/i18n-manager.js:27-34 | for any tag without a `-`, the lower-cased tag when it is a supported code, otherwise `en` |
| I18n.DetectGermanRegion | src/static/js/i18n/i18n-manager.js:27-34 | `DE-at` is detected as `de` |
| I18n.DetectUnsupported | src/static/js/i18n/i18n-manager.js:27-34 | `pt-BR` falls back to `en` |
| I18n.Walk | src/static/js/i18n/i18n-manager.js:74-86 | an empty path gives the node itself; a walk that finds something went through a table holding the first segment |
| I18n.Translate | src/static/js/i18n/i18n-manager.js:70-92 | the answer is `fallback || key` or a string found at the dotted path in the current language or in English |
| I18n.WalkAppend | src/static/js/i18n/i18n-manager.js:74-76 | walking a path in two pieces is walking it at once |
| I18n.WalkStuck | src/static/js/i18n/i18n-manager.js:75-86 | once a segment is missing (or the value is not a table), the whole walk gives nothing |
| I18n.TranslateCurrent | src/static/js/i18n/i18n-manager.js:70-92 | a key that resolves to a string in the current language gives that string |
| I18n.TranslateFallsBackToEnglish | src/static/js/i18n/i18n-manager.js:77-87 | a key missing in the current language is looked up in English, and gives `fallback || key` when missing there too |
| I18n.TranslateTableIsNotText | src/static/js/i18n/i18n-manager.js:91 | a key that resolves to a nested table gives `fallback || key` |
| I18n.SampleGerman | src/static/js/i18n/i18n-manager.js:70-92 | on a sample table, `connect` in German is `Verbinden` |
| I18n.SampleEnglishFallback | src/static/js/i18n/i18n-manager.js:77-87 | a key the German table lacks is taken from English |
| I18n.SampleUnknownLanguage | src/static/js/i18n/i18n-manager.js:72-87 | an unknown current language reads the English table |
| I18n.SampleTableKey | src/static/js/i18n/i18n-manager.js:91 | a key naming a table gives the key itself |
| I18n.SampleNestedKey | src/static/js/i18n/i18n-manager.js:70-76 | a dotted key reaches a nested string |
| I18n.SplitSuffix | src/static/js/i18n/i18n-manager.js:71 | splitting on the separator peels off the first segment |
| I18n.WithObserver | src/static/js/i18n/i18n-manager.js:241-243 | adding an observer keeps every earlier one, adds it and nothing else |
| I18n.AddTwiceRemoveOnce | src/static/js/i18n/i18n-manager.js:241-251 | the observers stay distinct, adding twice is adding once, and one removal removes it |
| I18n.NotificationsFor | src/static/js/i18n/i18n-manager.js:257-265 | every observer is called once, in order, with the new code, whether or not an earlier one threw |
| I18n.NotificationsAppend | src/static/js/i18n/i18n-manager.js:257-265 | notifying one more observer appends exactly its call |
| I18n.ChosenLanguage | src/static/js/i18n/i18n-manager.js:41-46 | a code with a translation table is kept; any other code becomes `en` |
| I18n.I18nManager.constructor | src/static/js/i18n/i18n-manager.js:9-21 | a stored non-empty language wins, otherwise the detected one; no observers yet |
| I18n.I18nManager.AddObserver | src/static/js/i18n/i18n-manager.js:241-243 | the observer set gains the callback; nothing else changes |
| I18n.I18nManager.RemoveObserver | src/static/js/i18n/i18n-manager.js:249-251 | the callback leaves the observer set; nothing else changes |
| I18n.I18nManager.NotifyObservers | src/static/js/i18n/i18n-manager.js:257-265 | the loop records one call per observer, in order |
| I18n.I18nManager.SetLanguage | src/static/js/i18n/i18n-manager.js:40-54 | the chosen language becomes current and is persisted, and every observer is told it; translations and observers are unchanged |
| I18n.I18nManager.T | src/static/js/i18n/i18n-manager.js:70-92 | the nested loops return the string the dotted-path lookup with English fallback defines |
| ServiceWorker.IsNetworkFirst | src/static/sw.js:95-97 | an `/api/` URL is network-first |
| ServiceWorker.IsStaticAsset | src/static/sw.js:100-107 | a URL containing `.js` or `.css` anywhere is a static asset |
| ServiceWorker.Route | src/static/sw.js:69-92 | cache-first is only chosen for static assets, and a network-first URL is always network-first |
| ServiceWorker.RoutePartition | src/static/sw.js:74-91 | non-`http` requests are passed through; cache-first is used exactly for static URLs that match no network-first pattern; everything else is network-first |
| ServiceWorker.MainScriptIsNetworkFirst | src/static/sw.js:19-23 | the application's own script is a static asset yet is routed network-first |
| ServiceWorker.NamesOf | src/static/sw.js:50-53 | the cache names are listed in creation order |
| ServiceWorker.MatchIn | src/static/sw.js:112 | a match is found exactly when some cache holds the URL, and it is the entry of the first such cache in creation order |
| ServiceWorker.Cached | src/static/sw.js:112 | only a GET request can match, and a GET matches by its URL |
| ServiceWorker.PutIn | src/static/sw.js:119-120 | storing opens (creates at the end, when missing) the named cache and no other |
| ServiceWorker.MatchAfterPut | src/static/sw.js:117-121 | after a miss, a stored response is what the next match returns |
| ServiceWorker.MatchOtherAfterPut | src/static/sw.js:119-120 | storing one URL leaves the match of every other URL alone |
| ServiceWorker.OpenIn | src/static/sw.js:119 | opening a cache creates it empty at the end when missing and changes no other name |
| ServiceWorker.MatchAfterOpen | src/static/sw.js:119 | opening a cache changes what no URL matches |
| ServiceWorker.OpenAndPut | src/static/sw.js:118-121 | after an ok answer the named cache exists, whether or not `cache.put` accepted the response |
| ServiceWorker.Without | src/static/sw.js:56 | deleting a cache removes exactly the caches of that name |
| ServiceWorker.Kept | src/static/sw.js:54 | the legacy `CACHE_NAME` is never kept |
| ServiceWorker.ToDelete | src/static/sw.js:54 | the caches deleted are exactly those that are neither the static nor the dynamic cache |
| ServiceWorker.LegacyCacheDeleted | src/static/sw.js:3-5 | the unused `CACHE_NAME` cache is deleted on activation |
| ServiceWorker.CacheStorage.constructor | src/static/sw.js:112 | the storage starts with the given caches |
| ServiceWorker.CacheStorage.Put | src/static/sw.js:119-120 | the store gains the entry in the named cache |
| ServiceWorker.CacheStorage.Open | src/static/sw.js:119 | the caches become those after opening the named cache |
| ServiceWorker.CacheStorage.Delete | src/static/sw.js:56 | the named cache is dropped |
| ServiceWorker.OnlyOkGetStored | src/static/sw.js:117-135 | either strategy leaves the caches unchanged, or, for an ok network answer, opens its own cache and stores the answer when `cache.put` accepts it; what a URL matches changes only for an accepted answer (a GET, ok, not 206), and only for the request's URL |
| ServiceWorker.NonGetNeverFromCache | src/static/sw.js:138-150 | when the network fails, a non-GET request that is not a page load is answered 503, never from the cache |
| ServiceWorker.NetworkFirstFallsBack | src/static/sw.js:130-143 | after an answer `cache.put` accepts, for a URL no cache held, a later network failure is answered with that stored response |
| ServiceWorker.PartialNeverStored | src/static/sw.js:130-150 | a 206 answer is not stored: a later network failure for a URL no cache held gets the 503 |
| ServiceWorker.CacheFirstStrategy | src/static/sw.js:110-127 | a hit (GET only) is returned without touching the caches; on a miss the network response is returned; an ok one opens the static cache and is stored in it when it answers a GET and is not 206; a network failure gives 503 |
| ServiceWorker.NetworkFirstStrategy | src/static/sw.js:130-152 | the network response is returned; an ok one opens the dynamic cache and is stored in it when it answers a GET and is not 206; on failure the cached entry, else the offline page for documents, else 503, with the caches unchanged |
| ServiceWorker.HandleFetch | src/static/sw.js:69-92 | a request is passed through exactly when it is not `http`, changing nothing; otherwise the answer and the new caches are exactly those of the routed strategy (including opening its cache and refusing to store a non-GET or 206 answer), cache-first always answering |
| ServiceWorker.Activate | src/static/sw.js:46-66 | after the loop exactly the caches whose names the filter did not select for deletion remain |
| ToolRegistry.Names | src/static/js/tools/tool-manager.js:50-59 | the registration names, in order |
| ToolRegistry.RegisterAll | src/static/js/tools/tool-manager.js:50-59 | registering in order keeps the registry well formed (distinct names, each with an entry) |
| ToolRegistry.RegisterFresh | src/static/js/tools/tool-manager.js:50-59 | registering names new to the registry never fails and appends them, in order |
| ToolRegistry.RegisterFreshEntries | src/static/js/tools/tool-manager.js:57 | each new name holds its own tool object |
| ToolRegistry.RegisterFreshKeeps | src/static/js/tools/tool-manager.js:57 | entries registered before are kept |
| ToolRegistry.DefaultSelection | src/static/js/tools/tool-manager.js:26-35 | only enabled configurations are registered, under distinct names: `googleSearch` for `google_search`, `weather` for `weather` |
| ToolRegistry.EnabledNames | src/static/js/tools/tool-manager.js:29-35 | the names registered are exactly those of the enabled configurations |
| ToolRegistry.DefaultsOnEmpty | src/static/js/tools/tool-manager.js:24-41 | on an empty registry the built-in registration succeeds and registers exactly the enabled tools, web search first |
| ToolRegistry.DefaultsOnEmptyTools | src/static/js/tools/tool-manager.js:30-34 | each registered built-in name holds its tool |
| ToolRegistry.Wrap | src/static/js/tools/tool-manager.js:72-78 | a declaration is wrapped in an object with exactly one key, holding the declaration: `functionDeclarations` for `weather`, the tool's own name for every other tool |
| ToolRegistry.DeclarationsOf | src/static/js/tools/tool-manager.js:67-83 | the declaration list has at most one entry per registered tool |
| ToolRegistry.DeclarationsFrame | src/static/js/tools/tool-manager.js:70-80 | the declaration list depends only on the listed tools |
| ToolRegistry.DeclarationsAfterRegister | src/static/js/tools/tool-manager.js:50-80 | registering a new tool appends its wrapped declaration, when it has one, after all the earlier ones |
| ToolRegistry.DeclarationsSnoc | src/static/js/tools/tool-manager.js:70-80 | one more tool in `forEach` order appends exactly its entry |
| ToolRegistry.BothDeclarations | src/static/js/tools/tool-manager.js:72-78 | with both tools enabled, web search is keyed by its name and weather is wrapped as `functionDeclarations` |
| ToolRegistry.ResolveName | src/static/js/tools/tool-manager.js:101-105 | a call resolves to `weather` exactly when it names `weather` or `get_weather_on_date`; other names resolve to themselves |
| ToolRegistry.HandleToolCall | src/static/js/tools/tool-manager.js:96-131 | an unresolved name is an INVALID_PARAMETER error; otherwise exactly one response with the call's id, holding the tool's output, or the message of what it threw |
| ToolRegistry.WeatherAlias | src/static/js/tools/tool-manager.js:101-102 | a `get_weather_on_date` call is answered exactly as a `weather` call |
| ToolRegistry.DisabledWeatherUnknown | src/static/js/tools/tool-manager.js:33-112 | with weather disabled, both weather names are unknown tools |
| ToolRegistry.ConfigIdFor | src/static/js/tools/tool-manager.js:155 | every registered name other than `googleSearch` is described by its own configuration |
| ToolRegistry.ToolManager.constructor | src/static/js/tools/tool-manager.js:15-18 | the registry is what the built-in registration makes of an empty one |
| ToolRegistry.ToolManager.RegisterTool | src/static/js/tools/tool-manager.js:50-59 | a taken name is an INVALID_STATE error and changes nothing; a new name is appended with its tool |
| ToolRegistry.ToolManager.RegisterDefaultTools | src/static/js/tools/tool-manager.js:24-41 | the registry and outcome are those of registering the enabled built-in tools in order |
| ToolRegistry.ToolManager.ReloadTools | src/static/js/tools/tool-manager.js:137-145 | the registry is rebuilt from empty: it holds `googleSearch` and `weather` exactly when their configurations are enabled |
| ToolRegistry.ToolManager.GetToolDeclarations | src/static/js/tools/tool-manager.js:67-83 | the loop returns the declaration list of the registered tools in registration order |
| ToolRegistry.ToolManager.GetToolsInfo | src/static/js/tools/tool-manager.js:151-166 | one entry per tool in order, with its configuration (by the `google_search` id for `googleSearch`), enabled exactly when that configuration exists and is enabled, and whether it has a declaration and an `execute` |
| ToolConfigs.MissingFields | src/static/js/tools/mcp-config.js:130-138 | the missing fields are exactly the required keys absent from the object; none exactly when all are present |
| ToolConfigs.Validate | src/static/js/tools/mcp-config.js:129-163 | validation succeeds exactly for an object with the four required keys and a valid category; the result is the normalised object built from the fields and keeps name, description and category, coercing the flags; failures on objects and arrays are INVALID_PARAMETER, and on primitives the `in` operator's TypeError |
| ToolConfigs.Normalized | src/static/js/tools/mcp-config.js:152-162 | the returned object has a valid category and the flags coerced to booleans; each of icon, colour, permissions and settings keeps a truthy value and otherwise becomes `🔧`, `#666666`, `[]` or `{}` |
| ToolConfigs.MissingReported | src/static/js/tools/mcp-config.js:132-138 | an object lacking required keys is refused with all of them listed |
| ToolConfigs.MissingReportedInOrder | src/static/js/tools/mcp-config.js:132-138 | an object holding only a category is refused for `name, description, enabled`, in that order |
| ToolConfigs.ValidateStored | src/static/js/tools/mcp-config.js:129-163 | validation is idempotent: a stored configuration validates to itself |
| ToolConfigs.Add | src/static/js/tools/mcp-config.js:113-122 | adding succeeds exactly when validation does, stores the record with its id and timestamps, and appends a new id; the validation error is thrown otherwise |
| ToolConfigs.Update | src/static/js/tools/mcp-config.js:204-221 | an unknown id is NOT_FOUND; a success keeps the id order and stores the re-validated overlay of the updates on the existing fields |
| ToolConfigs.UpdateFailsOnlyOnCategory | src/static/js/tools/mcp-config.js:213-219 | an update of a stored record fails exactly when it sets an invalid category |
| ToolConfigs.SetEnabledEffect | src/static/js/tools/mcp-config.js:228-230 | enabling or disabling a stored record changes only its flag (and drops id and timestamps) |
| ToolConfigs.Validated | src/static/js/tools/mcp-config.js:258-259 | each imported id is paired with what validation makes of its configuration |
| ToolConfigs.ImportStep | src/static/js/tools/mcp-config.js:258-264 | a turn after a failure changes nothing; a turn that keeps the import running stored an entry that validated |
| ToolConfigs.ImportAll | src/static/js/tools/mcp-config.js:255-266 | the import keeps the store well formed |
| ToolConfigs.ImportStepIsAdd | src/static/js/tools/mcp-config.js:258-260 | a turn of the import loop is one `addToolConfig` |
| ToolConfigs.ImportFromFailed | src/static/js/tools/mcp-config.js:258-266 | after the first failure, the remaining entries change nothing |
| ToolConfigs.ImportTurn | src/static/js/tools/mcp-config.js:258-260 | one turn either continues from the new store or ends the import with the store as it was |
| ToolConfigs.ImportSucceedsIff | src/static/js/tools/mcp-config.js:255-268 | an import succeeds exactly when every entry validates |
| ToolConfigs.ImportStoresEntries | src/static/js/tools/mcp-config.js:258-260 | a successful import stores every imported id, the last with its validated configuration, and leaves the other ids alone |
| ToolConfigs.ImportDoneStep | src/static/js/tools/mcp-config.js:259 | a turn that keeps the import running stored a validated entry |
| ToolConfigs.ImportKeepsValid | src/static/js/tools/mcp-config.js:255-268 | an import, complete or partial, leaves only validated records in the store |
| ToolConfigs.CategoryCounts | src/static/js/tools/mcp-config.js:277-281 | every category counted has a count between one and the number of records |
| ToolConfigs.CategoryCountsMatch | src/static/js/tools/mcp-config.js:277-281 | each category counted carries the number of records of that category, and a category appears exactly when some record has it |
| ToolConfigs.CategoryCountsSum | src/static/js/tools/mcp-config.js:277-281 | the counts of the valid categories add up to the records with a valid category |
| ToolConfigs.ValidCategoriesDistinct | src/static/js/tools/mcp-config.js:140-150 | no category is listed twice |
| ToolConfigs.SumCountsBump | src/static/js/tools/mcp-config.js:280 | one increment adds one to the sum when the category is listed |
| ToolConfigs.DefaultsInOrder | src/static/js/tools/mcp-config.js:24-106 | the eight `addToolConfig` calls, in order, add the built-in list |
| ToolConfigs.DefaultInputShape | src/static/js/tools/mcp-config.js:25-105 | each built-in object has the four required keys and no permissions or settings |
| ToolConfigs.ValidateDefault | src/static/js/tools/mcp-config.js:24-106 | a built-in configuration validates unchanged apart from empty permissions and settings |
| ToolConfigs.LoadedFresh | src/static/js/tools/mcp-config.js:113-122 | loading configurations with distinct ids into an empty store lists the ids in order |
| ToolConfigs.LoadedFreshEntries | src/static/js/tools/mcp-config.js:113-122 | each loaded id holds its own record |
| ToolConfigs.DefaultIdsListed | src/static/js/tools/mcp-config.js:24-106 | the eight built-in ids, in order |
| ToolConfigs.DefaultFlags | src/static/js/tools/mcp-config.js:24-106 | the first two built-ins are enabled; web search and image generation are server-side |
| ToolConfigs.DefaultsListed | src/static/js/tools/mcp-config.js:15-19 | the constructed store lists the eight ids in order |
| ToolConfigs.DefaultsLoaded | src/static/js/tools/mcp-config.js:15-106 | in the constructed store only `google_search` and `weather` are enabled, and only `google_search` and `image_generator` are server-side |
| ToolConfigs.DefaultEntry | src/static/js/tools/mcp-config.js:24-106 | the flags of each built-in, by id |
| ToolConfigs.MCPConfig.constructor | src/static/js/tools/mcp-config.js:15-19 | the store is the eight built-ins loaded into an empty one |
| ToolConfigs.MCPConfig.AddToolConfig | src/static/js/tools/mcp-config.js:113-122 | the store becomes what `Add` gives, or stays unchanged with the validation error returned |
| ToolConfigs.MCPConfig.LoadDefaultConfigs | src/static/js/tools/mcp-config.js:24-106 | the store gains the eight built-ins, each call succeeding |
| ToolConfigs.MCPConfig.AddDefault | src/static/js/tools/mcp-config.js:25-105 | one built-in `addToolConfig` extends the loaded store by that record |
| ToolConfigs.MCPConfig.GetConfig | src/static/js/tools/mcp-config.js:195-197 | the stored record, exactly when the id is stored |
| ToolConfigs.MCPConfig.GetAllConfigs | src/static/js/tools/mcp-config.js:169-171 | the records in insertion order, one per id |
| ToolConfigs.MCPConfig.GetEnabledConfigs | src/static/js/tools/mcp-config.js:177-179 | exactly the stored records that are enabled |
| ToolConfigs.MCPConfig.GetConfigsByCategory | src/static/js/tools/mcp-config.js:186-188 | exactly the stored records of that category |
| ToolConfigs.MCPConfig.UpdateConfig | src/static/js/tools/mcp-config.js:204-221 | the store becomes what `Update` gives, or stays unchanged with the error returned |
| ToolConfigs.MCPConfig.SetToolEnabled | src/static/js/tools/mcp-config.js:228-230 | for a stored id only the flag changes and it always succeeds; an unknown id is NOT_FOUND and changes nothing |
| ToolConfigs.MCPConfig.RemoveConfig | src/static/js/tools/mcp-config.js:236-240 | the id is gone and nothing else changes; removing an absent id does nothing |
| ToolConfigs.MCPConfig.ImportConfigs | src/static/js/tools/mcp-config.js:255-268 | the loop leaves the store the import defines: unchanged on a parse error, with every entry added on success, and with those before the first invalid one added on failure; errors are rethrown as INVALID_PARAMETER with the `Failed to import configs: ` prefix |
| ToolConfigs.MCPConfig.GetStats | src/static/js/tools/mcp-config.js:274-291 | the loop computes the statistics of the listed records |
| ToolConfigs.MCPConfig.StatsMeaning | src/static/js/tools/mcp-config.js:274-291 | the total is the number of stored ids and splits into enabled plus disabled and into server- plus client-side; each category's count is the length of `getConfigsByCategory`; the category counts add up to the total |
| ToolConfigs.StatsFacts | src/static/js/tools/mcp-config.js:283-290 | for normalised records, the complementary filters partition the list and the category counts agree with the filters |
| ToolConfigs.AllCategoriesValid | src/static/js/tools/mcp-config.js:140-150 | stored records all have a valid category |
| Realtime.Step | src/static/js/main.js:622-653 | only a content message with a call can set the flag, and only a message with a response, `interrupted` or `turncomplete` can clear it |
| Realtime.StepCases | src/static/js/main.js:622-653 | a message with a call sets `isUsingTool`; one with a response and no call clears it; one with neither leaves it; `interrupted` and `turncomplete` clear it |
| Realtime.CallAndResponseKeepsFlag | src/static/js/main.js:624-630 | a message carrying both a call and a response leaves the flag set |
| Realtime.AfterLastDecides | src/static/js/main.js:622-653 | after any sequence of events, the flag is set exactly when the last deciding event was a message with a call |
| Realtime.AfterNoneDecides | src/static/js/main.js:622-653 | with no deciding event, the flag is what it was |
| Realtime.MicChunk | src/static/js/main.js:271-282 | a mic chunk is 16 kHz PCM with the frame's data, marked as an interruption exactly while a tool is in use |
| Realtime.SetupConfig | src/static/js/main.js:430-449 | the setup message has exactly the keys `model`, `generationConfig` and `systemInstruction`, so no `tools` |
| Realtime.SetupConfigPlaces | src/static/js/main.js:430-449 | the setup message carries the model, the voice, the language and the instruction at their nested places, and no `tools` entry |
| Realtime.ConnectErrorText | src/static/js/main.js:388-396 | the text shown is the timeout text, the network text or the error's own message |
| Realtime.ConnectErrorCases | src/static/js/main.js:388-396 | an abort is a timeout; a message mentioning `fetch` is a network error; any other message is shown as it is |
| Realtime.DisconnectStopsSplit | src/static/js/main.js:484-508 | stopping audio, then camera, then screen appends exactly the devices that existed |
| Realtime.Session.constructor | src/static/js/main.js:156-165 | nothing connected, recording, filming or sharing; no tool in use |
| Realtime.Session.OnContent | src/static/js/main.js:622-637 | the flag takes the step the content defines, and the joined part texts are shown when non-empty |
| Realtime.Session.OnInterrupted | src/static/js/main.js:639-644 | the flag is cleared and playback stops when a streamer exists |
| Realtime.Session.OnTurnComplete | src/static/js/main.js:650-653 | the flag is cleared |
| Realtime.Session.OnMicFrame | src/static/js/main.js:270-282 | each frame is sent as one PCM chunk, marked as an interruption while a tool is in use, connected or not |
| Realtime.Session.OnCameraFrame | src/static/js/main.js:709-713 | a camera frame is forwarded only while connected |
| Realtime.Session.OnScreenFrame | src/static/js/main.js:764-771 | a screen frame is sent as JPEG only while connected |
| Realtime.Session.ConnectToWebSocketMode | src/static/js/main.js:416-476 | an empty key sends nothing and changes nothing; otherwise the setup config is sent and the session is connected exactly when connect and resume both succeed |
| Realtime.Session.ConnectToApiPool | src/static/js/main.js:343-410 | connected exactly when the probe succeeds; a failure shows the classified error text |
| Realtime.Session.ConnectByMode | src/static/js/main.js:329-337 | `api-pool` takes the pool path and sends nothing to the socket; any other mode takes the socket path |
| Realtime.Session.StopVideo | src/static/js/main.js:738-747 | the camera is off and its manager gone, and the camera is stopped if a manager existed |
| Realtime.Session.StopScreenSharing | src/static/js/main.js:795-805 | sharing is off and the recorder gone, and the screen is stopped if a recorder existed |
| Realtime.Session.DisconnectFromWebsocket | src/static/js/main.js:481-509 | afterwards nothing is connected, recording, filming or sharing; a disconnect is sent; the existing devices are stopped in order; `isUsingTool` is left as it was |
| Realtime.Session.OnConnectButton | src/static/js/main.js:680-686 | when connected the button disconnects; otherwise it connects by mode |
| Realtime.Session.HandleSendMessage | src/static/js/main.js:514-527 | an input that trims to nothing sends nothing; otherwise the trimmed text goes to the pool or the socket by mode |
| Realtime.Session.HandleMicToggle | src/static/js/main.js:260-313 | starting sets `isRecording` exactly when every step succeeds, stops nothing and keeps whatever streamer or recorder was created before a failure; stopping clears it, stops the recorder and keeps the devices |
| Realtime.Session.HandleVideoToggle | src/static/js/main.js:697-733 | starting makes the camera active, with a manager, exactly when it succeeds, and stops nothing; stopping turns it off and stops the camera when there was a manager |
| Realtime.Session.HandleScreenShare | src/static/js/main.js:758-790 | starting shares exactly when it succeeds, keeps the recorder either way and stops nothing; stopping turns it off and stops the screen recorder when there was one |
| Realtime.Session.OnAudio | src/static/js/main.js:612-620 | an audio chunk creates the audio streamer when none exists and the creation is reached; the other state is unchanged |

## Left out

- DOM updates, icons, button states, log text and `Logger` calls are left out. They do not affect the modelled state.
- `localStorage` is modelled only as the persisted UI language (`I18n.I18nManager.storedLanguage`). The other saved settings are left out because nothing in the core reads them back.
- `sendMessageToApiPool` and `sendMessageToWebSocket` (`main.js:532-598`) are represented only by the message they are given. The HTTP request, its response and the reply text are left out.
- The API-pool probe's `fetch`, its 10-second timer and the model count are left out. Only how the probe ends is modelled, as a `ProbeFailure` parameter.
- The audio and video classes are left out. This covers `AudioStreamer`, `AudioRecorder`, `VideoManager`, `ScreenRecorder`, the audio visualiser, the audio context that `ensureAudioInitialized` (`main.js:243-254`) creates, and `resumeAudioContext`. How they end is a parameter, such as `MicStart`, `streamerCreated` or `connects`/`resumes`.
- The `open`, `close`, `log`, `setupcomplete`, `error` and `message` client events (`main.js:600-669`) are left out. They only log. For the `audio` event, `OnAudio` models only the streamer it creates; the playback of the chunk is left out. The same goes for the `ApplicationError` test at `main.js:656`.
- Clearing the message input after sending is left out because it is a DOM update.
- Concurrency between the page's async handlers is left out. `HandleMicToggle`, `HandleVideoToggle`, `HandleScreenShare`, `ConnectToWebSocketMode`, `ConnectToApiPool` and `OnAudio` each run to completion as one step. Another handler that runs while one of them awaits (a disconnect during `await videoManager.start`, `main.js:709`, or during `await getUserMedia`, `main.js:289`) is not modelled. The source can then reach states that `Valid()` excludes: camera active without a manager, or recording without a recorder. `Valid()` holds only under this one-step assumption. The same assumption makes the `audioRecorder && isRecording` guard of `main.js:305` always true in the model.
- Realtime.Session.OnConnectButton: its ensures states the disconnect and API-pool cases only. The WebSocket case is stated by `ConnectByMode` and `ConnectToWebSocketMode`.
- Calculator: `evaluateExpression`'s `Function` constructor and its floating-point arithmetic are left out. They are an `evaluate` parameter, and the result is a real number, without IEEE rounding. `formatResult` (`calculator-tool.js:122-133`) is left out because it formats floating point.
- GoogleSearchTool and WeatherTool are not part of this model. A tool is modelled by whether it has a declaration and an `execute`. What `execute` does is a parameter of `HandleToolCall`.
- `mcp-ui.js` is not part of this model. It is the settings dialog.
- `exportConfigs` (`mcp-config.js:246-249`) and the `JSON.parse` in `importConfigs` are left out because they are serialisation. The import receives the parsed entries, or the parse error.
- The timestamps that `addToolConfig` adds are a flag (`timestamped`) rather than dates, because there is no clock.
- JSON numbers are integers in the `Json` type. Every number in the core is an integer or only tested for truthiness.
- The `in` operator and the truthiness test on `this.translations[code]` also see keys inherited from `Object.prototype`, such as `constructor` or `toString`. The model looks only at own keys. For validation this changes nothing, since none of the four required fields is such a key. It differs for a translation key segment or a `setLanguage` code that names an inherited member.
- Translations: only a small sample table is modelled. The shipped translation tables are not part of this model.
- `updatePageTexts`, `updateVoiceOptions`, `updateResponseTypeOptions`, `getAvailableLanguages` and `initializeLanguageSelector` (`i18n-manager.js:95-297`) are left out because they are DOM rendering.
- I18n.LowerAscii lower-cases only ASCII letters. For the comparison with the four supported codes this is the same as `toLowerCase`.
- The service worker's `install` handler (`cache.addAll`, `sw.js:26-43`) is left out. So are background sync and push notifications (`sw.js:155` on). Requests are modelled by URL, method and destination only. `cache.put` of a non-GET request or of a 206 response rejects; the cache was already opened (and so created) by the awaited `caches.open`, and the rejection is not awaited (`sw.js:120`, `sw.js:135`), so the response is still returned. Other reasons for `cache.put` to reject, such as a `Vary: *` header, are left out with the headers.
- Cache keys are URLs. `caches.match` is modelled on the request URL and method, ignoring request headers and `Vary`.
- The setup config that `main.js:430-449` builds carries no `tools` entry. `SetupConfigPlaces` states the absence.
- A `content` message whose `modelTurn` has no `parts` array makes `parts.some` throw a `TypeError` (`main.js:624`). `Content` always carries the parts, so that exception is left out.
