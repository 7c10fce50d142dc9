# Yarn editor settings layer, modelled in Dafny

This project models the settings object of the Yarn dialogue editor
(`src/js/classes/settings.js`). The object holds one Knockout observable per
user preference. It loads each preference once from a storage backend, with a
typed default. It writes every change back to the backend through the
`persist` extender. Its `apply` operation pushes the current values to the
host application.

Three modules, one per concern:

- `JsNumbers` (`js_numbers.dfy`): the JavaScript number semantics the layer
  depends on. `parseInt` with no radix follows ECMAScript: skip leading white
  space, read an optional sign, switch to radix 16 on `0x`/`0X`, read the
  longest run of digits, and give NaN when there is none. It also models
  `String(n)`. Numbers are integers or NaN (`JsNumber`). The main result is
  `parseInt(String(x)) == x`.
- `SettingsStorage` (`settings_storage.dfy`): `getStorage` and the two
  backends. `Backend = Local(m) | HostNoop`. `getItem` yields an `Item`:
  `Str(s)`, `Null` (`localStorage` has no entry) or `Undefined` (the
  host-managed backend's empty arrow function). Writes take the value
  already in string form.
- `SettingsStore` (`settings_store.dfy`): the load expressions
  (`getItem(k) || default`, `parseInt(getItem(k) || '50')`,
  `getItem(k) !== null ? getItem(k) === 'true' : default`) and `Load`, the
  values a construction gives every field. It also holds the reload lemmas
  and the `Settings` class. The class has one field per preference, a
  constructor that reads the backend, a `Set*` method per preference that
  writes through, and `Apply`, which returns the trace of host calls.

The class invariant `InSync()` says that, in standalone mode, a settings
object constructed from the backend would hold the current values.
`transcribeEnabled` is the exception: it is never stored and always loads
as false. The constructor establishes `InSync()`. Every setter preserves it;
the theme, language and markupLanguage setters only for non-empty values,
because an empty string loads back as the default.

The host-managed backend behaves as the code does, not as a reader might
expect. Its `getItem` returns `undefined`, and `undefined !== null`. So every
boolean preference loads as false there, even the four whose default is
true (`LoadHostManaged`, `BooleanHostRule`). The string preferences and the
throttle still get their defaults.

Two more behaviours of the code are easy to misread, and the model keeps
them as written:
- In host-managed mode a read is `undefined`, not an "absent" marker that
  would select the defaults.
- A throttle that does not parse loads as NaN, not as 50. Only a missing or
  empty value gives 50.

Inputs that come from outside the code are parameters:
- whether `window.vsCodeApi` exists and the contents of `localStorage` are
  constructor arguments;
- the host application's setters appear only as `HostCall` entries in the
  trace that `Apply` returns.

## Model

| member | source | states |
|---|---|---|
| JsNumbers.ParseInt | src/js/classes/settings.js:50 | JavaScript's `parseInt(s)` with no radix: strip leading white space, take an optional sign, switch to radix 16 after `0x`/`0X`, read the longest digit run, NaN when it is empty; its meaning is stated by `TrimStartSpec`, `DigitPrefixSpec`, `ParseIntOfDecimal`, `ParseIntNoDigit` and `ParseIntOfNumberToString` |
| JsNumbers.NumberToString | src/js/classes/settings.js:21 | `String(x)` as `setItem` applies it to the throttle: decimal digits without leading zeros, a leading `-` for negatives, `"NaN"` for NaN; its meaning is stated by `NatToDecimalDigits`, `NumberToStringNonEmpty` and `ParseIntOfNumberToString` |
| JsNumbers.TrimStartSpec | src/js/classes/settings.js:50 | the result is a suffix of the input, all removed characters are ECMAScript white space, and the result does not start with white space (the first step of `parseInt`) |
| JsNumbers.DigitPrefixSpec | src/js/classes/settings.js:50 | the result is the longest prefix of the input made of digits of the radix (the digits `parseInt` consumes) |
| JsNumbers.NatToDecimalDigits | src/js/classes/settings.js:21 | `String(n)` of a natural number is a non-empty run of decimal digits whose value is `n` |
| JsNumbers.DigitPrefixOfDigits | src/js/classes/settings.js:50 | a string of digits is read by `parseInt` to its end |
| JsNumbers.ParseDigitsOfDecimal | src/js/classes/settings.js:50 | a non-empty decimal digit string is read in radix 10 (no `0x` prefix can be present) to its value |
| JsNumbers.ParseIntOfDecimal | src/js/classes/settings.js:50 | `parseInt` of a non-empty decimal digit string is that number |
| JsNumbers.ParseIntOfNaNString | src/js/classes/settings.js:50 | `parseInt("NaN")` is NaN, so a stored NaN throttle reads back as NaN |
| JsNumbers.ParseIntOfNegative | src/js/classes/settings.js:50 | `parseInt("-" + digits of n)` is `-n` |
| JsNumbers.ParseIntOfNumberToString | src/js/classes/settings.js:21 | `parseInt(String(x)) == x` for every integer and for NaN: the throttle written by the persist extender is read back unchanged |
| JsNumbers.NumberToStringNonEmpty | src/js/classes/settings.js:50 | `String(x)` is never empty, so `String(x) \|\| '50'` is `String(x)` |
| JsNumbers.ParseIntFifty | src/js/classes/settings.js:50 | the throttle fallback string `'50'` parses to 50 |
| JsNumbers.ParseIntOneTwenty | src/js/classes/settings.js:50 | `parseInt("120")` is 120 |
| JsNumbers.ParseIntNoDigit | src/js/classes/settings.js:50 | `parseInt` is NaN whenever no decimal digit follows the leading white space and the optional sign |
| JsNumbers.ParseIntNaNExamples | src/js/classes/settings.js:50 | `parseInt("")` and `parseInt("fast")` are NaN |
| JsNumbers.ParseIntPrefixExample | src/js/classes/settings.js:50 | `parseInt(" 7ms")` is 7; the general rule that `parseInt` skips leading white space and stops at the first non-digit is stated by `TrimStartSpec` and `DigitPrefixSpec` |
| SettingsStorage.GetStorage | src/js/classes/settings.js:2-13 | the host-managed backend is chosen exactly when `window.vsCodeApi` exists; otherwise the backend is `localStorage` with its current contents |
| SettingsStorage.GetItem | src/js/classes/settings.js:7-11 | `storage.getItem(key)`: `undefined` from the host-managed backend (line 7), the stored string or `null` from `localStorage` (line 11); its meaning is stated by `ReadAfterWrite`, `HostManagedIsInert` and `LocalReadIsNullOrString` |
| SettingsStorage.SetItem | src/js/classes/settings.js:21 | `storage.setItem(key, value)`: ignored by the host-managed backend (line 8), one entry added or overwritten in `localStorage` (line 21); its meaning is stated by `ReadAfterWrite`, `WriteFrame` and `HostManagedIsInert` |
| SettingsStorage.ReadAfterWrite | src/js/classes/settings.js:5-11 | after `setItem(key, value)`, `getItem(key)` yields `value` and every other key yields what it did before in standalone mode; the host-managed backend yields `undefined` whatever was written |
| SettingsStorage.WriteFrame | src/js/classes/settings.js:21 | a standalone write adds or overwrites exactly the written key and keeps every other entry |
| SettingsStorage.HostManagedIsInert | src/js/classes/settings.js:6-9 | the host-managed backend yields `undefined` for every key and ignores every write |
| SettingsStorage.LocalReadIsNullOrString | src/js/classes/settings.js:11 | `localStorage.getItem` yields `null` exactly for absent keys and never `undefined` |
| SettingsStore.OrElse | src/js/classes/settings.js:40 | the expression `getItem(key) \|\| default` of the three string preferences (lines 40, 45, 109) and of the throttle (line 50); its meaning is stated by `StringPreferenceRule` |
| SettingsStore.LoadThrottle | src/js/classes/settings.js:50 | the expression `parseInt(getItem('redrawThrottle') \|\| '50')`; its meaning is stated by `ThrottleRule` and `LoadThrottleOfNumberToString` |
| SettingsStore.LoadBool | src/js/classes/settings.js:63-65 | the expression `getItem(key) !== null ? getItem(key) === 'true' : default` of the seven boolean preferences (lines 63-65, 74-76, 81-83, 88-90, 95-97, 102-104, 115-117); its meaning is stated by `BooleanPreferenceRule` and `BooleanHostRule` |
| SettingsStore.BoolString | src/js/classes/settings.js:21 | `String(b)` as `setItem` applies it to a boolean preference, `"true"` or `"false"`; the `Reload*` lemmas of the booleans state that `LoadBool` reads it back as `b` |
| SettingsStore.Load | src/js/classes/settings.js:39-118 | the initial value of every field, each the load expression of its line with `transcribeEnabled` fixed to false (line 70); its meaning is stated by `Defaults`, `LoadHostManaged`, the `Reload*` lemmas and `Settings.constructor` |
| SettingsStore.StringPreferenceRule | src/js/classes/settings.js:40 | a string preference (theme, language, markupLanguage, lines 40, 45, 109) loads the stored string when it is non-empty and its default when the key is absent, the value is empty or the backend is host-managed |
| SettingsStore.BooleanPreferenceRule | src/js/classes/settings.js:62-118 | in standalone mode a boolean preference loads its default when the key is absent, and otherwise true exactly when the stored string is `"true"` |
| SettingsStore.BooleanHostRule | src/js/classes/settings.js:63-65 | in host-managed mode `undefined !== null` holds, so every boolean preference loads as false whatever its default |
| SettingsStore.ThrottleRule | src/js/classes/settings.js:50 | the throttle loads as 50 when there is no stored value or it is empty, and as the stored number when it is a decimal digit string |
| SettingsStore.Defaults | src/js/classes/settings.js:39-118 | the defaults written in the load expressions of lines 40-118 (classic, en-GB, 50, spellcheck/completeTags/completeWords/createNodes on, the others off, bbcode) are exactly what an empty `localStorage` loads |
| SettingsStore.LoadHostManaged | src/js/classes/settings.js:5-9 | the host-managed backend loads the string and throttle defaults, `undefined` gist credentials and false for all booleans, including the four whose default is true |
| SettingsStore.ReloadTheme | src/js/classes/settings.js:39-41 | writing theme `v` and loading again gives `v` (the default `classic` when `v` is empty) and changes no other preference |
| SettingsStore.ReloadLanguage | src/js/classes/settings.js:44-46 | writing language `v` and loading again gives `v` (the default `en-GB` when `v` is empty) and changes no other preference |
| SettingsStore.ReloadRedrawThrottle | src/js/classes/settings.js:49-51 | writing `String(x)` for the throttle and loading again gives `x`, NaN included, and changes no other preference |
| SettingsStore.ThrottleWriteFrame | src/js/classes/settings.js:49-51 | a throttle write changes only the throttle among the loaded preferences |
| SettingsStore.LoadThrottleOfNumberToString | src/js/classes/settings.js:50 | the throttle load expression `parseInt(v \|\| '50')` gives back `x` when `v` is `String(x)` |
| SettingsStore.ReloadGistToken | src/js/classes/settings.js:53-55 | writing gist token `v` and loading again gives `v` and changes no other preference |
| SettingsStore.ReloadGistFile | src/js/classes/settings.js:57-59 | writing gist file `v` and loading again gives `v` and changes no other preference |
| SettingsStore.ReloadSpellcheckEnabled | src/js/classes/settings.js:62-66 | writing `String(b)` for spellcheck and loading again gives `b` and changes no other preference |
| SettingsStore.ReloadCompleteTagsEnabled | src/js/classes/settings.js:73-77 | writing `String(b)` for tag completion and loading again gives `b` and changes no other preference |
| SettingsStore.ReloadCompleteWordsEnabled | src/js/classes/settings.js:80-84 | writing `String(b)` for word completion and loading again gives `b` and changes no other preference |
| SettingsStore.ReloadNightModeEnabled | src/js/classes/settings.js:87-91 | writing `String(b)` for night mode and loading again gives `b` and changes no other preference |
| SettingsStore.ReloadCreateNodesEnabled | src/js/classes/settings.js:94-98 | writing `String(b)` for node creation and loading again gives `b` and changes no other preference |
| SettingsStore.ReloadEditorStatsEnabled | src/js/classes/settings.js:101-105 | writing `String(b)` for editor stats and loading again gives `b` and changes no other preference |
| SettingsStore.ReloadMarkupLanguage | src/js/classes/settings.js:108-110 | writing markup language `v` and loading again gives `v` (the default `bbcode` when `v` is empty) and changes no other preference |
| SettingsStore.ReloadAlwaysOpenNodesInVisualStudioCodeEditor | src/js/classes/settings.js:114-118 | writing `String(b)` for opening nodes in the code editor and loading again gives `b` and changes no other preference |
| SettingsStore.Settings.constructor | src/js/classes/settings.js:15-118 | the backend is the one `getStorage` chooses, every field holds what `Load` gives for it (`transcribeEnabled` false), nothing is written, and a reload agrees with the fields |
| SettingsStore.Settings.Persist | src/js/classes/settings.js:19-24 | the persist subscription performs `storage.setItem(key, value)` and nothing else |
| SettingsStore.Settings.SetTheme | src/js/classes/settings.js:39-41 | only `theme` changes among the fields; the backend gets exactly this key written with the value's string form; the host-managed backend stays inert; a reload still agrees with the fields for a non-empty value |
| SettingsStore.Settings.SetLanguage | src/js/classes/settings.js:44-46 | only `language` changes among the fields; the backend gets exactly this key written with the value's string form; the host-managed backend stays inert; a reload still agrees with the fields for a non-empty value |
| SettingsStore.Settings.SetRedrawThrottle | src/js/classes/settings.js:49-51 | only `redrawThrottle` (written as `String(x)`) changes among the fields; the backend gets exactly this key written with the value's string form; the host-managed backend stays inert; a reload still agrees with the fields |
| SettingsStore.Settings.SetGistToken | src/js/classes/settings.js:53-55 | only `gistToken` changes among the fields; the backend gets exactly this key written with the value's string form; the host-managed backend stays inert; a reload still agrees with the fields |
| SettingsStore.Settings.SetGistFile | src/js/classes/settings.js:57-59 | only `gistFile` changes among the fields; the backend gets exactly this key written with the value's string form; the host-managed backend stays inert; a reload still agrees with the fields |
| SettingsStore.Settings.SetSpellcheckEnabled | src/js/classes/settings.js:62-66 | only `spellcheckEnabled` (written as `"true"` or `"false"`) changes among the fields; the backend gets exactly this key written with the value's string form; the host-managed backend stays inert; a reload still agrees with the fields |
| SettingsStore.Settings.SetCompleteTagsEnabled | src/js/classes/settings.js:73-77 | only `completeTagsEnabled` changes among the fields; the backend gets exactly this key written with the value's string form; the host-managed backend stays inert; a reload still agrees with the fields |
| SettingsStore.Settings.SetCompleteWordsEnabled | src/js/classes/settings.js:80-84 | only `completeWordsEnabled` changes among the fields; the backend gets exactly this key written with the value's string form; the host-managed backend stays inert; a reload still agrees with the fields |
| SettingsStore.Settings.SetNightModeEnabled | src/js/classes/settings.js:87-91 | only `nightModeEnabled` changes among the fields; the backend gets exactly this key written with the value's string form; the host-managed backend stays inert; a reload still agrees with the fields |
| SettingsStore.Settings.SetCreateNodesEnabled | src/js/classes/settings.js:94-98 | only `createNodesEnabled` changes among the fields; the backend gets exactly this key written with the value's string form; the host-managed backend stays inert; a reload still agrees with the fields |
| SettingsStore.Settings.SetEditorStatsEnabled | src/js/classes/settings.js:101-105 | only `editorStatsEnabled` changes among the fields; the backend gets exactly this key written with the value's string form; the host-managed backend stays inert; a reload still agrees with the fields |
| SettingsStore.Settings.SetMarkupLanguage | src/js/classes/settings.js:108-110 | only `markupLanguage` changes among the fields; the backend gets exactly this key written with the value's string form; the host-managed backend stays inert; a reload still agrees with the fields for a non-empty value |
| SettingsStore.Settings.SetAlwaysOpenNodesInVisualStudioCodeEditor | src/js/classes/settings.js:114-118 | only `alwaysOpenNodesInVisualStudioCodeEditor` changes among the fields; the backend gets exactly this key written with the value's string form; the host-managed backend stays inert; a reload still agrees with the fields |
| SettingsStore.Settings.SetTranscribeEnabled | src/js/classes/settings.js:69-70 | only `transcribeEnabled` changes and the backend is untouched: this preference is never persisted |
| SettingsStore.Settings.Apply | src/js/classes/settings.js:29-36 | exactly six host calls in order: setTheme, setLanguage, toggleNightMode (no argument, whatever `nightModeEnabled` holds), setMarkupLanguage, workspace.setThrottle, setGistCredentials with the token and file, each with the current field value |
| SettingsStore.ThemeSurvivesReload | src/js/classes/settings.js:19-24 | standalone: setting the theme to "dark" writes exactly that key, and a settings object constructed from the new storage sees "dark" with every other preference unchanged |
| SettingsStore.HostManagedStaysInert | src/js/classes/settings.js:5-9 | host-managed: booleans whose default is true load as false, theme and throttle get their defaults, and changing every preference leaves the backend inert |

## Left out

- Knockout's observable machinery (subscription dispatch) is not modelled. Each setter performs the write that the `persist` subscription would perform.
- SettingsStore.Settings.SetTheme (and every other `Set*` method): Knockout skips notifying subscribers when a primitive equal to the current value is written. The model writes anyway. The backend can then differ, for example an empty stored theme replaced by `"classic"`, but a later reload observes the same values.
- The browser `localStorage` API beyond a string map is not modelled: quota errors, exceptions, cross-tab events.
- The gist setters take strings, so `localStorage`'s coercion of `null` or `undefined` to `"null"`/`"undefined"` does not arise.
- The backend is a value held by each `Settings` object, not storage shared between objects. In the browser every instance would share the one `window.localStorage`; the editor builds a single instance, so no property here depends on sharing.
- Detecting `window.vsCodeApi` is a constructor parameter, not a probe of a global.
- JavaScript numbers beyond integers and NaN are not modelled: no fractions, no infinities, no `-0`, no loss of precision above 2^53.
- JsNumbers.NumberToString writes every integer in plain decimal. JavaScript switches to exponent notation from 10^21 on, and `parseInt` would then read back only the leading digits. So `ParseIntOfNumberToString` holds in JavaScript only below that bound.
- `parseInt`'s loss of precision on long digit strings is not modelled; the value is exact.
- The host application's setters (`setTheme`, `toggleNightMode`, `workspace.setThrottle`, ...) are foreign code. `Apply` records them as a trace. A setter that throws and stops `apply` part-way is not modelled.
