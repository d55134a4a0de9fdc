# Scene application boilerplate, modelled in Dafny

This project models the bootstrap layer of a web-scene template application:

- **The boilerplate** (`js/boilerplate/Boilerplate.js`). It reads the page's query
  string, merges configuration layers, derives portal URLs, and queries the
  application item, the portal, the web map, the web scene and a group. It then
  records what it found in `results`.
- **The sample application** (`js/application/main.js`). It takes that configuration
  and those results, sets the page direction, parses the `viewpoint` camera
  parameter and builds the scene view.

Modules:

- `JsValues` (`js_values.dfy`): the JavaScript values the code reads, with truthiness, property reads and `undefined`. It also holds the errors and the ways a remote call settles.
- `Strings` (`strings.dfy`): `indexOf`, `split`, `join`, replacement of every occurrence, dojo's `lang.replace` of `{name}` placeholders, and ASCII lower-casing.
- `QueryString` (`query_string.dfy`): `_urlToObject`, `_stripTags`, `_getUrlParamValues` and `_createUrlParamsObject`. The regular-expression scans are modelled on their own terms.
- `BoilerplateModel` (`records.dfy`): the settings, the portal and item responses, the `results` object, and the global request configuration.
- `ConfigRules` (`config_rules.dfy`): the decision rules. These are the layer merge, units, hosted-portal URLs, direction, group-query parameters, the item-query branches, the geometry service, trusted hosts, the application-item configuration and the extent rewrite.
- `Boilerplate` (`boilerplate.dfy`): the `Boilerplate` object as a class. Each step of `_init` is a method that updates its fields, specified by a function from the old state to the new one; the phases of `_init` are the compositions of those functions.
- `Viewpoint` (`viewpoint.dfy`): `_setCameraViewpoint`, with its token loop.
- `Application` (`application.dfy`): the `main.js` object as a class. Its methods are `init`, `reportError`, `_setDirection` and `_createWebscene`.

The boundaries of the model:

- **Remote responses** (the portal self request, item loads, group queries, the local JSON file) are parameters of the methods that receive them.
- **Asynchrony.** The two asynchronous phases of `_init` run one after the other.
- **Numbers.** `parseFloat` and `parseInt` are kept symbolic: the model records what they are applied to.
- **The page.** The page is the fields of `Application.MainApp`: the `dir` attribute, the loading and error classes, the message markup and `document.title`.
- **The scene view.** Its readiness is a parameter.

Some points where the model follows the code rather than the repository's prose description:

- **`_completeApplication` on a fresh start.** The description says the application extent overwrites the extent of the resolved web scene and web map items. The code runs that step before those items are queried, and then it throws (see Findings).
- **Allowed URL parameters.** The description says only that allowed keys are kept. The code also drops an allowed key whose value is empty after tag stripping, because it keeps only truthy values.
- **Units.** The description gives "english" for a US region, or for no region with the locale `en-us`. The code also gives "english" to a signed-in user when neither that user nor the organisation has a region, whatever the locale. The model keeps all five conditions of the code.

## Model

| member | source | states |
|---|---|---|
| JsValues.AndField | js/application/main.js:142 | the guarded read `o && o.name` gives `o` when `o` is falsy, and otherwise the field of the object |
| Strings.IndexOfFinds | js/application/main.js:163 | `indexOf` gives the first position where the pattern occurs, and -1 exactly when it does not occur |
| Strings.Split | js/application/main.js:135 | `split` gives at least one piece |
| Strings.SplitNone | js/application/main.js:135 | `split` gives a single piece exactly when the separator does not occur, and that piece is the whole string |
| Strings.SplitPieces | js/application/main.js:135 | no piece of `split` contains the separator |
| Strings.JoinSplit | js/application/main.js:135 | joining the pieces of `split` with the separator gives back the string |
| Strings.SplitJoin | js/application/main.js:172 | splitting a join of separator-free pieces gives back the pieces |
| Strings.ReplaceAll | js/boilerplate/Boilerplate.js:120-124 | the string is cut at the pattern's occurrences and the same pieces are glued with the replacement; a string without the pattern is unchanged |
| Strings.ToLowerAsciiIdempotent | js/boilerplate/Boilerplate.js:551 | lower-casing a lower-cased string changes nothing |
| Strings.ToLowerAsciiIsWord | js/boilerplate/Boilerplate.js:551-555 | a string lower-cases to a lower-case word exactly when it spells that word with each letter in either case, so "TRUE" and "tRuE" compare equal to "true" |
| Strings.LangReplaceCopies | js/boilerplate/Boilerplate.js:120-124 | `lang.replace` copies text without a `{` unchanged |
| Strings.LangReplacePlaceholder | js/boilerplate/Boilerplate.js:120-124 | a `{name}` placeholder becomes the value when `name` is the key, and the text "undefined" for any other name |
| Strings.LangReplaceIsReplaceAll | js/boilerplate/Boilerplate.js:120-124 | when every `{` of the text starts `{key}`, `lang.replace` replaces every occurrence of `{key}` by the value, as a replace-all does |
| QueryString.SpanStops | js/boilerplate/Boilerplate.js:39 | a greedy `[^...]*` run holds no stop character and ends at a stop character or at the end of the text |
| QueryString.SpanIs | js/boilerplate/Boilerplate.js:39 | a run free of stop characters that ends at a stop character or at the end is exactly the greedy run |
| QueryString.Matches | js/boilerplate/Boilerplate.js:39 | every capture of `URL_RE` is a key free of `&` and `=` and a value free of `&` |
| QueryString.AssignKey | js/boilerplate/Boilerplate.js:664-666 | the object built from the captures holds a key exactly when some capture names it |
| QueryString.AssignLast | js/boilerplate/Boilerplate.js:664-666 | a key holds the value of its last capture |
| QueryString.AssignUntouched | js/boilerplate/Boilerplate.js:664-666 | a key no capture names keeps its value |
| QueryString.MatchesPair | js/boilerplate/Boilerplate.js:39 | a `k=v` pair before `&` or the end is captured as exactly `(k, v)` |
| QueryString.MatchesEncode | js/boilerplate/Boilerplate.js:39 | scanning a well-formed `k1=v1&k2=v2…` gives back exactly its pairs, in order |
| QueryString.UrlObjectOfQuery | js/boilerplate/Boilerplate.js:661-667 | for `?k1=v1&…`, the URL object's keys are the query's keys, and each holds the raw value of its last occurrence |
| QueryString.MatchStep | js/boilerplate/Boilerplate.js:39 | a capture is a maximal key, then an optional `=` and a maximal value, then the scan of the rest |
| QueryString.UrlToObject | js/boilerplate/Boilerplate.js:661-667 | the scanning loop builds exactly the object of the `URL_RE` captures of the search string without its `?` |
| QueryString.TagLength | js/boilerplate/Boilerplate.js:38 | the length of the `TAGS_RE` match starting at the front, 0 when no tag starts there |
| QueryString.StripTags | js/boilerplate/Boilerplate.js:638-641 | removing the tags never lengthens a string and adds no character |
| QueryString.StripTagsLeavesNoTag | js/boilerplate/Boilerplate.js:638-641 | no `<`, non-`>` characters, `>` sequence is left after stripping |
| QueryString.StripTagsKeepsTagFree | js/boilerplate/Boilerplate.js:638-641 | a string without tags is returned unchanged |
| QueryString.StripTagsIdempotent | js/boilerplate/Boilerplate.js:634-641 | stripping twice equals stripping once |
| QueryString.StripTagsInObject | js/boilerplate/Boilerplate.js:642-655 | the `for…in` loop strips every field of the URL object, and no field still holds a tag |
| QueryString.Coerce | js/boilerplate/Boilerplate.js:549-560 | "true" and "false" in any letter case become booleans, and every other string is kept verbatim |
| QueryString.GetUrlParamValues | js/boilerplate/Boilerplate.js:541-569 | the loop over the allow-list builds exactly the filtered, coerced object |
| QueryString.ReadUrlParams | js/boilerplate/Boilerplate.js:571-580 | the URL parameters: scan, strip tags, then filter and coerce |
| QueryString.UrlParamConfigShape | js/boilerplate/Boilerplate.js:541-569 | keys come only from `items`, and only those whose stripped URL value is truthy; an empty allow-list gives `{}` |
| QueryString.UrlParamConfigOfQuery | js/boilerplate/Boilerplate.js:541-580 | an allowed key of a well-formed query holds the coerced, stripped value of its last occurrence |
| ConfigRules.MixinAll | js/boilerplate/Boilerplate.js:529-539 | every key resolves to the URL layer's value, else the application layer's, else the prior config's; no other key appears |
| ConfigRules.MixinAllIdempotent | js/boilerplate/Boilerplate.js:529-539 | merging the same layers twice changes nothing |
| ConfigRules.MixinAllTwice | js/boilerplate/Boilerplate.js:168-185 | the two merges of `_init`, with edits between them, equal one merge of the edited configuration: the edits override the static configuration, the application layer overrides the edits, and the URL layer wins |
| ConfigRules.Units | js/boilerplate/Boilerplate.js:445-456 | units come from the user, else the organisation, else "english" under the US rule, else "metric" |
| ConfigRules.UnitsSources | js/boilerplate/Boilerplate.js:445-456 | the units are always one of the user's, the organisation's, "english" or "metric" |
| ConfigRules.UnitsByUserRegion | js/boilerplate/Boilerplate.js:451-453 | without configured units, a user region of "US" gives "english" and any other region "metric" |
| ConfigRules.UnitsByOrgRegion | js/boilerplate/Boilerplate.js:451-453 | for a user without a region, an organisation region of "US", or no organisation region, gives "english" |
| ConfigRules.UnitsAnonymous | js/boilerplate/Boilerplate.js:451-453 | without a user, "english" exactly when the IP country is "US", or there is none and the locale is `en-us` |
| ConfigRules.HostedPortal | js/boilerplate/Boilerplate.js:582-600 | a path with `/apps/` (checked first), or else `/home/`, gives `https://host` plus the path before it, with `/sharing/proxy` appended for the proxy; otherwise nothing |
| ConfigRules.SomeOccurs | js/boilerplate/Boilerplate.js:519-525 | `some` finds a language exactly when one of them occurs in the locale |
| ConfigRules.Direction | js/boilerplate/Boilerplate.js:517-527 | the direction is "rtl" exactly when the locale contains "ar" or "he", else "ltr" |
| ConfigRules.SubstituteGroupSpec | js/boilerplate/Boilerplate.js:119-124 | a truthy string query goes through `lang.replace` (each `{groupid}` becomes the group id, any other `{name}` becomes "undefined") and no other parameter changes; a falsy query leaves the parameters as merged; a truthy non-string query throws a `TypeError` |
| ConfigRules.GroupItemParamsPrecedence | js/boilerplate/Boilerplate.js:118 | each parameter other than the query comes from `options`, else the settings, else the defaults |
| ConfigRules.DefaultQueryNamesGroup | js/boilerplate/Boilerplate.js:111-124 | with the default query, the group id stands between the quotes of `group:"…"` |
| ConfigRules.GroupQueryReplacesPlaceholders | js/boilerplate/Boilerplate.js:119-124 | a query whose every `{` starts `{groupid}` has every `{groupid}` replaced by the group id |
| ConfigRules.GroupInfoQueryInjective | js/boilerplate/Boilerplate.js:284-286 | two group ids give the same `id:"…"` query exactly when they print the same |
| ConfigRules.ItemQuery | js/boilerplate/Boilerplate.js:203-271 | with `fetch` off the record is untouched; otherwise exactly one branch runs (local JSON, built-in default, or the item loaded by id), and `json` and `data` are never both set |
| ConfigRules.DefaultsAreEmptyTopographic | js/boilerplate/Boilerplate.js:321-339 | both built-in defaults have no operational layers and the "Topographic" basemap |
| ConfigRules.GeometryUrlOf | js/boilerplate/Boilerplate.js:505-507 | a falsy helper-services value is returned itself; a truthy result is the `url` of the truthy `geometry` of the helper services |
| ConfigRules.GeometryServiceUrl | js/boilerplate/Boilerplate.js:500-513 | the portal's geometry service wins over the configuration's, and without either the setting is unchanged |
| ConfigRules.GeometryWithoutPortal | js/boilerplate/Boilerplate.js:502 | without a portal, the configuration's geometry service (if any) is used |
| ConfigRules.CorsEntries | js/boilerplate/Boilerplate.js:429-443 | every pushed server has credentials and a defined, non-empty host, and no more servers than domains are pushed |
| ConfigRules.CorsEntriesMembership | js/boilerplate/Boilerplate.js:429-443 | a host is pushed exactly when it is in the list, defined and non-empty |
| ConfigRules.AppConfig | js/boilerplate/Boilerplate.js:378-398 | the item's values, plus `application_extent` when the item has an extent, plus one layer mixin per application proxy |
| ConfigRules.AppItemRecord | js/boilerplate/Boilerplate.js:399-403 | `results.applicationItem` holds the item and its configuration, and the configuration is the item's `values` object itself |
| ConfigRules.Index | js/boilerplate/Boilerplate.js:483-486 | indexing throws exactly on `undefined` or `null` |
| ConfigRules.Corner | js/boilerplate/Boilerplate.js:483-486 | `extent[i][j]` throws exactly when row `i` cannot be read or is undefined |
| ConfigRules.ParseExtent | js/boilerplate/Boilerplate.js:481-488 | the extent conversion throws exactly when the extent is `null` or a row is missing |
| ConfigRules.ParseExtentOfPairs | js/boilerplate/Boilerplate.js:481-488 | `[[a,b],[c,d]]` gives the four numbers in order |
| ConfigRules.ParseExtentOneRow | js/boilerplate/Boilerplate.js:484-486 | a one-row extent throws |
| ConfigRules.OverwriteExtent | js/boilerplate/Boilerplate.js:478-490 | only an item that has an extent is rewritten, with the parsed extent; everything else is kept |
| ConfigRules.OverwriteExtentIdempotent | js/boilerplate/Boilerplate.js:478-490 | rewriting twice with the same extent equals rewriting once |
| Boilerplate.CompleteExtentAsWritten | js/boilerplate/Boilerplate.js:492-500 | as written: with an application extent, a missing web scene record throws |
| Boilerplate.CompleteExtentAsWrittenThrows | js/boilerplate/Boilerplate.js:176-186 | at the point where `_init` runs it, the as-written extent step throws for an application with an extent |
| Boilerplate.OverwriteRecord | js/boilerplate/Boilerplate.js:498-499 | a missing record is skipped; an existing one keeps its `json` and has its data rewritten |
| Boilerplate.ApplyApplicationExtent | js/boilerplate/Boilerplate.js:492-500 | corrected: the extent of every existing item is rewritten, nothing else changes, and `json`/`data` exclusivity is kept |
| Boilerplate.ApplyAgreesWhereAsWrittenSucceeds | js/boilerplate/Boilerplate.js:492-500 | wherever the as-written step succeeds, the corrected one gives the same result |
| Boilerplate.AfterPhase1Layers | js/boilerplate/Boilerplate.js:163-186 | after the first phase the configuration is the static one plus the hosted-portal URLs, overridden by the application item, overridden by the URL parameters; `results` gains the URL layer, the application item when `appid` is set and it loaded, and the portal when it loaded |
| Boilerplate.AfterPhase1UrlWins | js/boilerplate/Boilerplate.js:168-185 | every allowed URL parameter keeps its URL value in the configuration after the first phase |
| Boilerplate.GroupResponsesLand | js/boilerplate/Boilerplate.js:101-135 | although `queryGroupItems` resets `results.group` after `_queryGroupInfo` started, both loaded responses land in the record that is left, and both deferreds resolve |
| Boilerplate.GroupQueriedKeeps | js/boilerplate/Boilerplate.js:273-296 | the group queries change only `results.group`, and a run that does not throw settles two deferreds |
| Boilerplate.WebmapQueriedKeeps | js/boilerplate/Boilerplate.js:203-271 | the web map query changes only `results.webmapItem`, and never leaves it with both `json` and `data` |
| Boilerplate.WebsceneQueriedKeeps | js/boilerplate/Boilerplate.js:300-364 | the web scene query changes only `results.websceneItem`, and never leaves it with both `json` and `data` |
| Boilerplate.ItemsQueriedConsistent | js/boilerplate/Boilerplate.js:190-193 | the two item queries change only the two item records and keep `json`/`data` exclusivity |
| Boilerplate.AfterPhase2Results | js/boilerplate/Boilerplate.js:186-198 | the second phase changes only the web map, web scene and group records, keeps `json`/`data` exclusivity, and a completed phase has four outcomes |
| Boilerplate.Boilerplate.constructor | js/boilerplate/Boilerplate.js:76-93 | `results` starts as `{}`, and the other fields start unset |
| Boilerplate.Boilerplate.SetUrlParams | js/boilerplate/Boilerplate.js:163-165 | `results.urlParams` becomes the allowed URL parameters of the page, and no other field changes |
| Boilerplate.Boilerplate.MixinAllConfigs | js/boilerplate/Boilerplate.js:529-539 | the configuration becomes the merge of itself, the application item's configuration and the URL parameters, and no other field changes |
| Boilerplate.Boilerplate.InitializeApplication | js/boilerplate/Boilerplate.js:582-606 | the configuration gains the hosted-portal URLs only in an Esri environment on a hosted path; the request's portal URL then follows the configuration, its proxy URL follows it only when set, and nothing else changes |
| Boilerplate.Boilerplate.SetDirection | js/boilerplate/Boilerplate.js:517-527 | the direction field becomes the locale's direction, and nothing else changes |
| Boilerplate.Boilerplate.QueryApplicationItem | js/boilerplate/Boilerplate.js:366-413 | without `appid` nothing changes and the deferred resolves; with it a loaded item becomes `results.applicationItem`, and a failure rejects with the item error and changes nothing |
| Boilerplate.Boilerplate.PushTrustedHosts | js/boilerplate/Boilerplate.js:431-442 | the loop appends exactly the trusted hosts, in order |
| Boilerplate.Boilerplate.QueryPortal | js/boilerplate/Boilerplate.js:415-476 | with portal fetching off nothing changes; a loaded portal sets the portal object, the units, the privileges, `results.portal` and (with web-tier security) appends the trusted hosts; a failure leaves a portal without helper services and rejects |
| Boilerplate.Boilerplate.CompleteApplication | js/boilerplate/Boilerplate.js:501-513 | the request's geometry service follows the portal-over-configuration precedence, and nothing else changes |
| Boilerplate.Boilerplate.ApplyExtent | js/boilerplate/Boilerplate.js:492-500 | the results become the corrected extent rewrite, or an error is returned with the state unchanged |
| Boilerplate.Boilerplate.QueryWebmapItem | js/boilerplate/Boilerplate.js:203-271 | `results.webmapItem` becomes the record of the item-query branch that runs, the deferred settles as that branch says, and nothing else changes |
| Boilerplate.Boilerplate.QueryWebsceneItem | js/boilerplate/Boilerplate.js:300-364 | `results.websceneItem` becomes the record of the item-query branch that runs, the deferred settles as that branch says, and nothing else changes |
| Boilerplate.Boilerplate.BeginGroupInfo | js/boilerplate/Boilerplate.js:273-288 | with group info wanted, `results.group` is reset and the `id:"…"` query is sent; without a portal it throws; otherwise nothing happens |
| Boilerplate.Boilerplate.EndGroupInfo | js/boilerplate/Boilerplate.js:288-296 | the response becomes `results.group.infoData`; a failure rejects with the group-info error |
| Boilerplate.Boilerplate.BeginGroupItems | js/boilerplate/Boilerplate.js:101-126 | with group items wanted, `results.group` is reset and the merged parameters are sent; otherwise nothing happens |
| Boilerplate.Boilerplate.EndGroupItems | js/boilerplate/Boilerplate.js:126-135 | the response becomes `results.group.itemsData`; a failure rejects with the group-items error |
| Boilerplate.Boilerplate.InitPhase1 | js/boilerplate/Boilerplate.js:163-186 | the whole state after the first phase: the configuration is the static one plus the hosted-portal URLs, overridden by the application item, overridden by the URL parameters; the URL parameters are recorded, the direction is set, the application item and portal land, no item or group record exists yet, and the as-written extent step throws whenever an extent is configured |
| Boilerplate.Boilerplate.QueryItems | js/boilerplate/Boilerplate.js:190-193 | the web map query, then the web scene query, each as its branch says, with their two outcomes |
| Boilerplate.Boilerplate.QueryGroup | js/boilerplate/Boilerplate.js:194-197 | the group queries: a start that throws leaves the reset record; wanting neither changes nothing; otherwise the record holds the loaded info and items, and both outcomes are returned |
| Boilerplate.Boilerplate.InitPhase2 | js/boilerplate/Boilerplate.js:186-198 | the whole state after the second phase: item queries, group queries, then the corrected extent step; the configuration, direction and portal are kept, and an item record never holds both `json` and `data` |
| Boilerplate.Boilerplate.Init | js/boilerplate/Boilerplate.js:148-201 | the whole state after `_init` is the second phase after the first; the URL parameters win in the configuration, the direction is set, `json`/`data` stay exclusive, a completed run has two and four outcomes, and the as-written extent failure is exposed |
| Viewpoint.LastOfKind | js/application/main.js:162-169 | the token kept is the last one of its kind, or "" when there is none |
| Viewpoint.CameraFrom | js/application/main.js:170-203 | a camera needs three or more position fields; it has a wkid exactly with four, and heading and tilt come from the other token |
| Viewpoint.CameraOf | js/application/main.js:153-158 | an unset viewpoint gives no camera, a non-string one throws, and a string is split into tokens on `;` |
| Viewpoint.SetCameraViewpoint | js/application/main.js:153-205 | the token loop and field parsing give exactly the camera of the viewpoint |
| Viewpoint.NoCameraToken | js/application/main.js:163-170 | without a token containing `cam:` there is no camera |
| Viewpoint.CameraOfTokens | js/application/main.js:155-169 | the camera of a non-empty viewpoint depends only on its `;`-tokens |
| Viewpoint.CameraFromParts | js/application/main.js:171-195 | `cam:x,y,z` with `h,t` gives the WGS84 camera at x, y, z with heading h and tilt t |
| Viewpoint.CameraWithHeadingAndTilt | js/application/main.js:153-205 | `cam:x,y,z;h,t` gives the WGS84 camera at x, y, z with heading h and tilt t |
| Viewpoint.CameraWithWkid | js/application/main.js:180-183 | `cam:x,y,z,w` gives the camera with spatial reference w, heading 0 and tilt 0 |
| Application.SelectScene | js/application/main.js:118-128 | the loaded item wins over the JSON record; with neither there is no scene |
| Application.DefaultTitle | js/application/main.js:142-144 | a configured title is kept; otherwise the portal item's title is written; no other key changes |
| Application.DefaultTitleIdempotent | js/application/main.js:142-144 | applying the title rule twice equals applying it once |
| Application.Components | js/application/main.js:133-137 | truthy `components` is split on `,` into comma-free pieces that join back to it; a non-string throws |
| Application.ViewOf | js/application/main.js:129-141 | the view shows the scene in `viewDiv`, with the split components and the viewpoint's camera |
| Application.ViewOfThrows | js/application/main.js:133-138 | building the view throws exactly when `components` or `viewpoint` is truthy but not a string |
| Application.ErrorMarkup | js/application/main.js:93 | the message markup ends with the error's message and `</p>` |
| Application.WebsceneCreatedEffects | js/application/main.js:117-151 | creating the scene never changes the results or the direction, changes nothing when it throws, sets a view only with the title rule applied and the page out of the loading state, writes the document title only for a ready view, and shows an error only for a view that fails |
| Application.MainApp.constructor | js/application/main.js:57-61 | the object starts without configuration and results, on a loading page |
| Application.MainApp.ReportError | js/application/main.js:82-96 | the same error is returned; the page leaves the loading state and shows the error, the message markup is written only when the node exists, and nothing else changes |
| Application.MainApp.SetDirection | js/application/main.js:104-115 | the page's `dir` becomes the locale's direction |
| Application.MainApp.CreateWebscene | js/application/main.js:117-151 | the whole page after `_createWebscene`: missing results or a missing scene record throws and nothing changes; no scene changes nothing; a read that throws changes nothing; otherwise the title rule and the view, then either the ready page with its document title or the reported error |
| Application.MainApp.Init | js/application/main.js:69-80 | without a boilerplate, the missing-configuration error is reported and nothing else changes (the document title included); otherwise the configuration and results are taken, the direction is set, and the page is then exactly the one `_createWebscene` leaves |

## Left out

- Remote calls (`PortalItem.load`, `Portal.load`, `queryGroups`, `queryItems`) and `require` of the local JSON file. Their responses are parameters, and `JSON.parse` is not modelled.
- `_checkSignIn`, `OAuthInfo` and `IdentityManager`. Signing in does not change what the core decides.
- Promise, `Deferred` and `promiseList` semantics. The first phase and the second phase run in sequence. Within a phase the steps run in their source order, and each response arrives after every step of the phase has started. A start that throws ends the chain as `Aborted`.
- `addResolvingPromise` and the promise the constructor passes on.
- Floating point. `parseFloat` and `parseInt` are recorded as applied to their text or value. Numbers in `Value` are integers.
- The DOM: the CSS class writes, the `innerHTML` node lookup, the `html` element and `document.title`. All are fields of `Application.MainApp`. `WebScene`, `SceneView`, `Camera`, `Point` and `SpatialReference` are records of the arguments they get.
- `ConfigRules.SubstituteGroupSpec`: `lang.replace` resolves each `{name}` with dojo's `getObject`, so a dotted name such as `{groupid.length}` or an inherited name such as `{constructor}` reads a property of the map object; the model reads only the `groupid` key and gives "undefined" for every other name.
- `QueryString.GetUrlParamValues`: `urlObject[items[i]]` also reads inherited properties, so an allowed item named `constructor` finds the inherited `Object` function, which is truthy and not a string, and copies it into the result; the model sees only the keys the query string sets.
- `Viewpoint.CameraFrom` and `ConfigRules.HostedPortal`: `substr` counts UTF-16 code units; the model counts the characters of a `seq<char>`, which agrees only when no character lies outside the Basic Multilingual Plane.
- The `main.js` configuration object and the boilerplate's are one JavaScript object. The model copies it, so the title written in `main.js` is not seen by the boilerplate.
- Objects with a `length` property, and inherited (prototype) keys in the `for…in` of `_stripTags`, are not modelled.
- `authorizedCrossOriginDomains` that is not an array is not modelled.
- The fields of an application proxy are taken as present.
- The settings are taken after the defaults mixin of the constructor, so `webscene`, `webmap`, `group` and `portal` are always objects.
- `Strings.ToLowerAscii`: lower-cases ASCII letters only. This is exact for the comparisons against "true" and "false", but not for the full Unicode mapping of `toLowerCase`.
- `Application.MainApp.ReportError`: the message text of an engine `TypeError` is a constant of the object, because the engine chooses it.
- `Viewpoint.SetCameraViewpoint`: the `!viewpointArray.length` test is dead, because `split` always returns at least one piece; the model has no branch for it.
- `Boilerplate.Boilerplate.Init`: the as-written result of the extent step is a ghost output. The corrected step is the one that changes the state.

## Findings

| source | as written | input that shows it | evidently intended | confidence | as-written member | corrected member |
|---|---|---|---|---|---|---|
| js/boilerplate/Boilerplate.js:497-499 | `_completeApplication` reads `results.websceneItem.data` and `results.webmapItem.data`, but `_init` calls it before `_queryWebsceneItem` and `_queryWebmapItem` have created those records, so the read is of a property of `undefined` | a configuration with `appid` set and `application_extent` `[[1,2],[3,4]]`, at the first call of `_init` | the application extent rewrites the extent of the web scene and web map items once they are loaded, and a missing record is skipped | not executed | Boilerplate.CompleteExtentAsWritten, Boilerplate.CompleteExtentAsWrittenThrows | Boilerplate.ApplyApplicationExtent |
