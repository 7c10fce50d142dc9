/**
 The editor's settings object (src/js/classes/settings.js, `Settings`):
 one observable field per preference, loaded once from the storage
 backend with a typed default, written through to the backend on every
 change (the `persist` extender), and pushed to the host application by
 `apply`.
 */
module SettingsStore {
  import opened JsNumbers
  import opened SettingsStorage

  // The storage keys: the preference names themselves.
  const ThemeKey := "theme"
  const LanguageKey := "language"
  const RedrawThrottleKey := "redrawThrottle"
  const GistTokenKey := "gistToken"
  const GistFileKey := "gistFile"
  const SpellcheckKey := "spellcheckEnabled"
  const CompleteTagsKey := "completeTagsEnabled"
  const CompleteWordsKey := "completeWordsEnabled"
  const NightModeKey := "nightModeEnabled"
  const CreateNodesKey := "createNodesEnabled"
  const EditorStatsKey := "editorStatsEnabled"
  const MarkupLanguageKey := "markupLanguage"
  const AlwaysOpenInCodeEditorKey := "alwaysOpenNodesInVisualStudioCodeEditor"

  /** JavaScript truthiness of what `getItem` yields: `null`, `undefined`
      and the empty string are falsy. */
  predicate Truthy(v: Item) {
    v.Str? && v.s != ""
  }

  /** `v || fallback` where the fallback is a string: the load rule of a
      string preference, `getItem(key) || default`. */
  function OrElse(v: Item, fallback: string): string {
    if Truthy(v) then v.s else fallback
  }

  /** `parseInt(getItem('redrawThrottle') || '50')`. */
  function LoadThrottle(v: Item): JsNumber {
    ParseInt(OrElse(v, "50"))
  }

  /** `getItem(key) !== null ? getItem(key) === 'true' : default`. */
  function LoadBool(v: Item, default: bool): bool {
    if v != Null then v == Str("true") else default
  }

  /** `String(b)` for a boolean. */
  function BoolString(b: bool): string {
    if b then "true" else "false"
  }

  /** The values of all preference fields at one moment. */
  datatype Preferences = Preferences(
    theme: string,
    language: string,
    redrawThrottle: JsNumber,
    gistToken: Item,
    gistFile: Item,
    spellcheckEnabled: bool,
    transcribeEnabled: bool,
    completeTagsEnabled: bool,
    completeWordsEnabled: bool,
    nightModeEnabled: bool,
    createNodesEnabled: bool,
    editorStatsEnabled: bool,
    markupLanguage: string,
    alwaysOpenNodesInVisualStudioCodeEditor: bool)

  /** The values the constructor gives the fields when it reads backend `b`. */
  function Load(b: Backend): Preferences {
    Preferences(
      theme := OrElse(GetItem(b, ThemeKey), "classic"),
      language := OrElse(GetItem(b, LanguageKey), "en-GB"),
      redrawThrottle := LoadThrottle(GetItem(b, RedrawThrottleKey)),
      gistToken := GetItem(b, GistTokenKey),
      gistFile := GetItem(b, GistFileKey),
      spellcheckEnabled := LoadBool(GetItem(b, SpellcheckKey), true),
      transcribeEnabled := false,
      completeTagsEnabled := LoadBool(GetItem(b, CompleteTagsKey), true),
      completeWordsEnabled := LoadBool(GetItem(b, CompleteWordsKey), true),
      nightModeEnabled := LoadBool(GetItem(b, NightModeKey), false),
      createNodesEnabled := LoadBool(GetItem(b, CreateNodesKey), true),
      editorStatsEnabled := LoadBool(GetItem(b, EditorStatsKey), false),
      markupLanguage := OrElse(GetItem(b, MarkupLanguageKey), "bbcode"),
      alwaysOpenNodesInVisualStudioCodeEditor := LoadBool(GetItem(b, AlwaysOpenInCodeEditorKey), false))
  }

  // ---------------------------------------------------------------- load rules

  /** A string preference takes the stored string when there is a non-empty
      one, and its default when the key is absent, empty or the backend is
      host-managed. */
  lemma StringPreferenceRule(b: Backend, key: string, default: string)
    ensures OrElse(GetItem(b, key), default) ==
      if b.Local? && key in b.m && b.m[key] != "" then b.m[key] else default
  {
  }

  /** A boolean preference in standalone mode: its default when the key is
      absent, true for exactly the string "true", false for any other string. */
  lemma BooleanPreferenceRule(m: map<string, string>, key: string, default: bool)
    ensures key !in m ==> LoadBool(GetItem(Local(m), key), default) == default
    ensures key in m ==> (LoadBool(GetItem(Local(m), key), default) <==> m[key] == "true")
  {
  }

  /** A boolean preference in host-managed mode: `undefined !== null`, so the
      default is never used and the value is false even when the default is
      true. */
  lemma BooleanHostRule(key: string, default: bool)
    ensures !LoadBool(GetItem(HostNoop, key), default)
  {
  }

  /** The throttle is 50 when there is no stored value or the stored value
      is empty, and the stored number when it is a decimal digit string. */
  lemma ThrottleRule(b: Backend)
    ensures !Truthy(GetItem(b, RedrawThrottleKey)) ==> Load(b).redrawThrottle == Int(50)
    ensures b.Local? && RedrawThrottleKey in b.m && b.m[RedrawThrottleKey] != []
              && AllRadixDigits(b.m[RedrawThrottleKey], 10)
            ==> Load(b).redrawThrottle == Int(DigitsValue(b.m[RedrawThrottleKey], 10))
  {
    ParseIntFifty();
    if b.Local? && RedrawThrottleKey in b.m && b.m[RedrawThrottleKey] != []
       && AllRadixDigits(b.m[RedrawThrottleKey], 10) {
      ParseIntOfDecimal(b.m[RedrawThrottleKey]);
    }
  }

  /** The defaults written in the load expressions of settings.js lines
      40-118: what an empty `localStorage` loads. */
  function Defaults(): (p: Preferences)
    ensures p == Load(Local(map[]))
  {
    ParseIntFifty();
    Preferences(
      theme := "classic", language := "en-GB", redrawThrottle := Int(50),
      gistToken := Null, gistFile := Null,
      spellcheckEnabled := true, transcribeEnabled := false,
      completeTagsEnabled := true, completeWordsEnabled := true,
      nightModeEnabled := false, createNodesEnabled := true,
      editorStatsEnabled := false, markupLanguage := "bbcode",
      alwaysOpenNodesInVisualStudioCodeEditor := false)
  }

  /** What the host-managed backend loads: the string and throttle defaults,
      `undefined` gist credentials, and false for every boolean, so it
      differs from the defaults in exactly the four booleans whose
      default is true and in the gist credentials. */
  lemma LoadHostManaged()
    ensures Load(HostNoop) == Defaults().(
      gistToken := Undefined, gistFile := Undefined,
      spellcheckEnabled := false, completeTagsEnabled := false,
      completeWordsEnabled := false, createNodesEnabled := false)
  {
    ParseIntFifty();
  }

  // ------------------------------------------------------- reload after a write

  /** Writing theme `v` and loading again gives `v` for the theme, unless
      `v` is empty, which loads as the default; no other field changes. */
  lemma ReloadTheme(m: map<string, string>, v: string)
    ensures Load(Local(m[ThemeKey := v])) ==
      Load(Local(m)).(theme := if v == "" then "classic" else v)
  {
  }

  lemma ReloadLanguage(m: map<string, string>, v: string)
    ensures Load(Local(m[LanguageKey := v])) ==
      Load(Local(m)).(language := if v == "" then "en-GB" else v)
  {
  }

  lemma ReloadMarkupLanguage(m: map<string, string>, v: string)
    ensures Load(Local(m[MarkupLanguageKey := v])) ==
      Load(Local(m)).(markupLanguage := if v == "" then "bbcode" else v)
  {
  }

  /** Writing `String(x)` for the throttle and loading again gives `x`,
      NaN included; no other field changes. */
  lemma ReloadRedrawThrottle(m: map<string, string>, x: JsNumber)
    ensures Load(Local(m[RedrawThrottleKey := NumberToString(x)])) ==
      Load(Local(m)).(redrawThrottle := x)
  {
    var s := NumberToString(x);
    ThrottleWriteFrame(m, s);
    LoadThrottleOfNumberToString(x);
  }

  /** A throttle write changes only the throttle's loaded value. */
  lemma ThrottleWriteFrame(m: map<string, string>, s: string)
    ensures Load(Local(m[RedrawThrottleKey := s])) ==
      Load(Local(m)).(redrawThrottle := LoadThrottle(Str(s)))
  {
  }

  /** The throttle load expression inverts `String(x)`. */
  lemma LoadThrottleOfNumberToString(x: JsNumber)
    ensures LoadThrottle(Str(NumberToString(x))) == x
  {
    NumberToStringNonEmpty(x);
    ParseIntOfNumberToString(x);
  }

  lemma ReloadGistToken(m: map<string, string>, v: string)
    ensures Load(Local(m[GistTokenKey := v])) == Load(Local(m)).(gistToken := Str(v))
  {
  }

  lemma ReloadGistFile(m: map<string, string>, v: string)
    ensures Load(Local(m[GistFileKey := v])) == Load(Local(m)).(gistFile := Str(v))
  {
  }

  lemma ReloadSpellcheckEnabled(m: map<string, string>, v: bool)
    ensures Load(Local(m[SpellcheckKey := BoolString(v)])) ==
      Load(Local(m)).(spellcheckEnabled := v)
  {
  }

  lemma ReloadCompleteTagsEnabled(m: map<string, string>, v: bool)
    ensures Load(Local(m[CompleteTagsKey := BoolString(v)])) ==
      Load(Local(m)).(completeTagsEnabled := v)
  {
  }

  lemma ReloadCompleteWordsEnabled(m: map<string, string>, v: bool)
    ensures Load(Local(m[CompleteWordsKey := BoolString(v)])) ==
      Load(Local(m)).(completeWordsEnabled := v)
  {
  }

  lemma ReloadNightModeEnabled(m: map<string, string>, v: bool)
    ensures Load(Local(m[NightModeKey := BoolString(v)])) ==
      Load(Local(m)).(nightModeEnabled := v)
  {
  }

  lemma ReloadCreateNodesEnabled(m: map<string, string>, v: bool)
    ensures Load(Local(m[CreateNodesKey := BoolString(v)])) ==
      Load(Local(m)).(createNodesEnabled := v)
  {
  }

  lemma ReloadEditorStatsEnabled(m: map<string, string>, v: bool)
    ensures Load(Local(m[EditorStatsKey := BoolString(v)])) ==
      Load(Local(m)).(editorStatsEnabled := v)
  {
  }

  lemma ReloadAlwaysOpenNodesInVisualStudioCodeEditor(m: map<string, string>, v: bool)
    ensures Load(Local(m[AlwaysOpenInCodeEditorKey := BoolString(v)])) ==
      Load(Local(m)).(alwaysOpenNodesInVisualStudioCodeEditor := v)
  {
  }

  // ----------------------------------------------- write-through keeps a reload in step

  /** Backend `b` reloads as preferences `p` (apart from `transcribeEnabled`,
      which is never stored); vacuous for the host-managed backend, which
      stores nothing. */
  predicate SyncedWith(b: Backend, p: Preferences) {
    b.Local? ==> Load(b) == p.(transcribeEnabled := false)
  }

  lemma SyncAfterSetTheme(b: Backend, p: Preferences, v: string)
    ensures SyncedWith(b, p) && v != "" ==> SyncedWith(SetItem(b, ThemeKey, v), p.(theme := v))
  {
    if b.Local? && SyncedWith(b, p) { ReloadTheme(b.m, v); }
  }

  lemma SyncAfterSetLanguage(b: Backend, p: Preferences, v: string)
    ensures SyncedWith(b, p) && v != "" ==> SyncedWith(SetItem(b, LanguageKey, v), p.(language := v))
  {
    if b.Local? && SyncedWith(b, p) { ReloadLanguage(b.m, v); }
  }

  lemma SyncAfterSetRedrawThrottle(b: Backend, p: Preferences, v: JsNumber)
    ensures SyncedWith(b, p) ==> SyncedWith(SetItem(b, RedrawThrottleKey, NumberToString(v)), p.(redrawThrottle := v))
  {
    if b.Local? && SyncedWith(b, p) { ReloadRedrawThrottle(b.m, v); }
  }

  lemma SyncAfterSetGistToken(b: Backend, p: Preferences, v: string)
    ensures SyncedWith(b, p) ==> SyncedWith(SetItem(b, GistTokenKey, v), p.(gistToken := Str(v)))
  {
    if b.Local? && SyncedWith(b, p) { ReloadGistToken(b.m, v); }
  }

  lemma SyncAfterSetGistFile(b: Backend, p: Preferences, v: string)
    ensures SyncedWith(b, p) ==> SyncedWith(SetItem(b, GistFileKey, v), p.(gistFile := Str(v)))
  {
    if b.Local? && SyncedWith(b, p) { ReloadGistFile(b.m, v); }
  }

  lemma SyncAfterSetSpellcheckEnabled(b: Backend, p: Preferences, v: bool)
    ensures SyncedWith(b, p) ==> SyncedWith(SetItem(b, SpellcheckKey, BoolString(v)), p.(spellcheckEnabled := v))
  {
    if b.Local? && SyncedWith(b, p) { ReloadSpellcheckEnabled(b.m, v); }
  }

  lemma SyncAfterSetCompleteTagsEnabled(b: Backend, p: Preferences, v: bool)
    ensures SyncedWith(b, p) ==> SyncedWith(SetItem(b, CompleteTagsKey, BoolString(v)), p.(completeTagsEnabled := v))
  {
    if b.Local? && SyncedWith(b, p) { ReloadCompleteTagsEnabled(b.m, v); }
  }

  lemma SyncAfterSetCompleteWordsEnabled(b: Backend, p: Preferences, v: bool)
    ensures SyncedWith(b, p) ==> SyncedWith(SetItem(b, CompleteWordsKey, BoolString(v)), p.(completeWordsEnabled := v))
  {
    if b.Local? && SyncedWith(b, p) { ReloadCompleteWordsEnabled(b.m, v); }
  }

  lemma SyncAfterSetNightModeEnabled(b: Backend, p: Preferences, v: bool)
    ensures SyncedWith(b, p) ==> SyncedWith(SetItem(b, NightModeKey, BoolString(v)), p.(nightModeEnabled := v))
  {
    if b.Local? && SyncedWith(b, p) { ReloadNightModeEnabled(b.m, v); }
  }

  lemma SyncAfterSetCreateNodesEnabled(b: Backend, p: Preferences, v: bool)
    ensures SyncedWith(b, p) ==> SyncedWith(SetItem(b, CreateNodesKey, BoolString(v)), p.(createNodesEnabled := v))
  {
    if b.Local? && SyncedWith(b, p) { ReloadCreateNodesEnabled(b.m, v); }
  }

  lemma SyncAfterSetEditorStatsEnabled(b: Backend, p: Preferences, v: bool)
    ensures SyncedWith(b, p) ==> SyncedWith(SetItem(b, EditorStatsKey, BoolString(v)), p.(editorStatsEnabled := v))
  {
    if b.Local? && SyncedWith(b, p) { ReloadEditorStatsEnabled(b.m, v); }
  }

  lemma SyncAfterSetMarkupLanguage(b: Backend, p: Preferences, v: string)
    ensures SyncedWith(b, p) && v != "" ==> SyncedWith(SetItem(b, MarkupLanguageKey, v), p.(markupLanguage := v))
  {
    if b.Local? && SyncedWith(b, p) { ReloadMarkupLanguage(b.m, v); }
  }

  lemma SyncAfterSetAlwaysOpenNodesInVisualStudioCodeEditor(b: Backend, p: Preferences, v: bool)
    ensures SyncedWith(b, p) ==> SyncedWith(SetItem(b, AlwaysOpenInCodeEditorKey, BoolString(v)), p.(alwaysOpenNodesInVisualStudioCodeEditor := v))
  {
    if b.Local? && SyncedWith(b, p) { ReloadAlwaysOpenNodesInVisualStudioCodeEditor(b.m, v); }
  }

  // ------------------------------------------------------------- the host side

  /** A call `apply` makes on the host application. */
  datatype HostCall =
    | SetTheme(name: string)
    | SetLanguage(code: string)
    | ToggleNightMode
    | SetMarkupLanguage(name: string)
    | SetThrottle(ms: JsNumber)
    | SetGistCredentials(token: Item, file: Item)

  // ---------------------------------------------------------- the settings object

  class Settings {
    /** The mechanism `getStorage` chose; the backend's contents live in it. */
    var storage: Backend

    var theme: string
    var language: string
    var redrawThrottle: JsNumber
    var gistToken: Item
    var gistFile: Item
    var spellcheckEnabled: bool
    var transcribeEnabled: bool
    var completeTagsEnabled: bool
    var completeWordsEnabled: bool
    var nightModeEnabled: bool
    var createNodesEnabled: bool
    var editorStatsEnabled: bool
    var markupLanguage: string
    var alwaysOpenNodesInVisualStudioCodeEditor: bool

    /** The current values of all preference fields. */
    function Current(): Preferences
      reads this
    {
      Preferences(theme, language, redrawThrottle, gistToken, gistFile,
        spellcheckEnabled, transcribeEnabled, completeTagsEnabled,
        completeWordsEnabled, nightModeEnabled, createNodesEnabled,
        editorStatsEnabled, markupLanguage, alwaysOpenNodesInVisualStudioCodeEditor)
    }

    /** In standalone mode, constructing a new settings object from the
        backend would give the current values (`transcribeEnabled`, which
        is never stored, always loads as false). */
    predicate InSync()
      reads this
    {
      SyncedWith(storage, Current())
    }

    /** Chooses the backend and loads every field from it; nothing is written. */
    constructor (vsCodeApiPresent: bool, localStorage: map<string, string>)
      ensures storage == GetStorage(vsCodeApiPresent, localStorage)
      ensures Current() == Load(storage)
      ensures InSync()
    {
      var b := GetStorage(vsCodeApiPresent, localStorage);
      var p := Load(b);
      storage := b;
      theme := p.theme;
      language := p.language;
      redrawThrottle := p.redrawThrottle;
      gistToken := p.gistToken;
      gistFile := p.gistFile;
      spellcheckEnabled := p.spellcheckEnabled;
      transcribeEnabled := false;
      completeTagsEnabled := p.completeTagsEnabled;
      completeWordsEnabled := p.completeWordsEnabled;
      nightModeEnabled := p.nightModeEnabled;
      createNodesEnabled := p.createNodesEnabled;
      editorStatsEnabled := p.editorStatsEnabled;
      markupLanguage := p.markupLanguage;
      alwaysOpenNodesInVisualStudioCodeEditor := p.alwaysOpenNodesInVisualStudioCodeEditor;
    }

    /** The `persist` extender's subscription: `storage.setItem(key, value)`. */
    method Persist(key: string, value: string)
      modifies this`storage
      ensures storage == SetItem(old(storage), key, value)
    {
      storage := SetItem(storage, key, value);
    }

    method SetTheme(v: string)
      modifies this
      ensures Current() == old(Current()).(theme := v)
      ensures storage == SetItem(old(storage), ThemeKey, v)
      ensures old(storage) == HostNoop ==> storage == HostNoop
      ensures old(InSync()) && v != "" ==> InSync()
    {
      theme := v;
      Persist(ThemeKey, v);
      SyncAfterSetTheme(old(storage), old(Current()), v);
    }

    method SetLanguage(v: string)
      modifies this
      ensures Current() == old(Current()).(language := v)
      ensures storage == SetItem(old(storage), LanguageKey, v)
      ensures old(storage) == HostNoop ==> storage == HostNoop
      ensures old(InSync()) && v != "" ==> InSync()
    {
      language := v;
      Persist(LanguageKey, v);
      SyncAfterSetLanguage(old(storage), old(Current()), v);
    }

    method SetRedrawThrottle(v: JsNumber)
      modifies this
      ensures Current() == old(Current()).(redrawThrottle := v)
      ensures storage == SetItem(old(storage), RedrawThrottleKey, NumberToString(v))
      ensures old(storage) == HostNoop ==> storage == HostNoop
      ensures old(InSync()) ==> InSync()
    {
      redrawThrottle := v;
      Persist(RedrawThrottleKey, NumberToString(v));
      SyncAfterSetRedrawThrottle(old(storage), old(Current()), v);
    }

    method SetGistToken(v: string)
      modifies this
      ensures Current() == old(Current()).(gistToken := Str(v))
      ensures storage == SetItem(old(storage), GistTokenKey, v)
      ensures old(storage) == HostNoop ==> storage == HostNoop
      ensures old(InSync()) ==> InSync()
    {
      gistToken := Str(v);
      Persist(GistTokenKey, v);
      SyncAfterSetGistToken(old(storage), old(Current()), v);
    }

    method SetGistFile(v: string)
      modifies this
      ensures Current() == old(Current()).(gistFile := Str(v))
      ensures storage == SetItem(old(storage), GistFileKey, v)
      ensures old(storage) == HostNoop ==> storage == HostNoop
      ensures old(InSync()) ==> InSync()
    {
      gistFile := Str(v);
      Persist(GistFileKey, v);
      SyncAfterSetGistFile(old(storage), old(Current()), v);
    }

    method SetSpellcheckEnabled(v: bool)
      modifies this
      ensures Current() == old(Current()).(spellcheckEnabled := v)
      ensures storage == SetItem(old(storage), SpellcheckKey, BoolString(v))
      ensures old(storage) == HostNoop ==> storage == HostNoop
      ensures old(InSync()) ==> InSync()
    {
      spellcheckEnabled := v;
      Persist(SpellcheckKey, BoolString(v));
      SyncAfterSetSpellcheckEnabled(old(storage), old(Current()), v);
    }

    method SetCompleteTagsEnabled(v: bool)
      modifies this
      ensures Current() == old(Current()).(completeTagsEnabled := v)
      ensures storage == SetItem(old(storage), CompleteTagsKey, BoolString(v))
      ensures old(storage) == HostNoop ==> storage == HostNoop
      ensures old(InSync()) ==> InSync()
    {
      completeTagsEnabled := v;
      Persist(CompleteTagsKey, BoolString(v));
      SyncAfterSetCompleteTagsEnabled(old(storage), old(Current()), v);
    }

    method SetCompleteWordsEnabled(v: bool)
      modifies this
      ensures Current() == old(Current()).(completeWordsEnabled := v)
      ensures storage == SetItem(old(storage), CompleteWordsKey, BoolString(v))
      ensures old(storage) == HostNoop ==> storage == HostNoop
      ensures old(InSync()) ==> InSync()
    {
      completeWordsEnabled := v;
      Persist(CompleteWordsKey, BoolString(v));
      SyncAfterSetCompleteWordsEnabled(old(storage), old(Current()), v);
    }

    method SetNightModeEnabled(v: bool)
      modifies this
      ensures Current() == old(Current()).(nightModeEnabled := v)
      ensures storage == SetItem(old(storage), NightModeKey, BoolString(v))
      ensures old(storage) == HostNoop ==> storage == HostNoop
      ensures old(InSync()) ==> InSync()
    {
      nightModeEnabled := v;
      Persist(NightModeKey, BoolString(v));
      SyncAfterSetNightModeEnabled(old(storage), old(Current()), v);
    }

    method SetCreateNodesEnabled(v: bool)
      modifies this
      ensures Current() == old(Current()).(createNodesEnabled := v)
      ensures storage == SetItem(old(storage), CreateNodesKey, BoolString(v))
      ensures old(storage) == HostNoop ==> storage == HostNoop
      ensures old(InSync()) ==> InSync()
    {
      createNodesEnabled := v;
      Persist(CreateNodesKey, BoolString(v));
      SyncAfterSetCreateNodesEnabled(old(storage), old(Current()), v);
    }

    method SetEditorStatsEnabled(v: bool)
      modifies this
      ensures Current() == old(Current()).(editorStatsEnabled := v)
      ensures storage == SetItem(old(storage), EditorStatsKey, BoolString(v))
      ensures old(storage) == HostNoop ==> storage == HostNoop
      ensures old(InSync()) ==> InSync()
    {
      editorStatsEnabled := v;
      Persist(EditorStatsKey, BoolString(v));
      SyncAfterSetEditorStatsEnabled(old(storage), old(Current()), v);
    }

    method SetMarkupLanguage(v: string)
      modifies this
      ensures Current() == old(Current()).(markupLanguage := v)
      ensures storage == SetItem(old(storage), MarkupLanguageKey, v)
      ensures old(storage) == HostNoop ==> storage == HostNoop
      ensures old(InSync()) && v != "" ==> InSync()
    {
      markupLanguage := v;
      Persist(MarkupLanguageKey, v);
      SyncAfterSetMarkupLanguage(old(storage), old(Current()), v);
    }

    method SetAlwaysOpenNodesInVisualStudioCodeEditor(v: bool)
      modifies this
      ensures Current() == old(Current()).(alwaysOpenNodesInVisualStudioCodeEditor := v)
      ensures storage == SetItem(old(storage), AlwaysOpenInCodeEditorKey, BoolString(v))
      ensures old(storage) == HostNoop ==> storage == HostNoop
      ensures old(InSync()) ==> InSync()
    {
      alwaysOpenNodesInVisualStudioCodeEditor := v;
      Persist(AlwaysOpenInCodeEditorKey, BoolString(v));
      SyncAfterSetAlwaysOpenNodesInVisualStudioCodeEditor(old(storage), old(Current()), v);
    }

    /** `transcribeEnabled` has no `persist` extender: it changes in memory only. */
    method SetTranscribeEnabled(v: bool)
      modifies this
      ensures Current() == old(Current()).(transcribeEnabled := v)
      ensures storage == old(storage)
      ensures old(InSync()) ==> InSync()
    {
      transcribeEnabled := v;
    }

    /** The calls `apply` makes on the host, in order. `toggleNightMode` is
        called, with no argument, whatever `nightModeEnabled` holds. */
    method Apply() returns (calls: seq<HostCall>)
      ensures |calls| == 6
      ensures calls[0] == HostCall.SetTheme(theme)
      ensures calls[1] == HostCall.SetLanguage(language)
      ensures calls[2] == HostCall.ToggleNightMode
      ensures calls[3] == HostCall.SetMarkupLanguage(markupLanguage)
      ensures calls[4] == HostCall.SetThrottle(redrawThrottle)
      ensures calls[5] == HostCall.SetGistCredentials(gistToken, gistFile)
    {
      calls := [];
      calls := calls + [HostCall.SetTheme(theme)];
      calls := calls + [HostCall.SetLanguage(language)];
      calls := calls + [HostCall.ToggleNightMode];
      calls := calls + [HostCall.SetMarkupLanguage(markupLanguage)];
      calls := calls + [HostCall.SetThrottle(redrawThrottle)];
      calls := calls + [HostCall.SetGistCredentials(gistToken, gistFile)];
    }
  }

  // ------------------------------------------------------------------ scenarios

  /** Standalone: setting the theme to "dark" writes exactly that key, and a
      settings object constructed afresh from the resulting `localStorage`
      sees "dark", with every other preference as before. */
  method ThemeSurvivesReload(localStorage: map<string, string>)
    returns (written: map<string, string>, reloaded: Preferences)
    ensures written == localStorage[ThemeKey := "dark"]
    ensures reloaded == Load(Local(localStorage)).(theme := "dark")
  {
    var settings := new Settings(false, localStorage);
    settings.SetTheme("dark");
    written := settings.storage.m;
    var again := new Settings(false, written);
    reloaded := again.Current();
    ReloadTheme(localStorage, "dark");
  }

  /** Host-managed: every boolean loads as false, and after changing every
      persisted preference the backend is still the inert one. */
  method HostManagedStaysInert(localStorage: map<string, string>)
    returns (loaded: Preferences, after: Backend)
    ensures !loaded.spellcheckEnabled && !loaded.completeTagsEnabled
    ensures !loaded.completeWordsEnabled && !loaded.createNodesEnabled
    ensures loaded.theme == "classic" && loaded.redrawThrottle == Int(50)
    ensures after == HostNoop
  {
    var settings := new Settings(true, localStorage);
    loaded := settings.Current();
    LoadHostManaged();
    settings.SetTheme("dark");
    settings.SetLanguage("de");
    settings.SetRedrawThrottle(Int(100));
    settings.SetGistToken("token");
    settings.SetGistFile("file");
    settings.SetSpellcheckEnabled(true);
    settings.SetTranscribeEnabled(true);
    settings.SetCompleteTagsEnabled(true);
    settings.SetCompleteWordsEnabled(true);
    settings.SetNightModeEnabled(true);
    settings.SetCreateNodesEnabled(true);
    settings.SetEditorStatsEnabled(true);
    settings.SetMarkupLanguage("html");
    settings.SetAlwaysOpenNodesInVisualStudioCodeEditor(true);
    after := settings.storage;
  }
}
