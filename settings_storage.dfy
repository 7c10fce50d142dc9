/**
 The storage mechanism the settings layer reads from and writes to
 (src/js/classes/settings.js, `getStorage`). There are two backends:

 - inside the Visual Studio Code extension the host manages settings
   itself, and the backend is an object whose `getItem` and `setItem` are
   empty arrow functions: reads yield `undefined`, writes do nothing;
 - standalone, the backend is the browser's `localStorage`, a persistent
   map from strings to strings whose `getItem` yields `null` for a key that
   was never set.
 */
module SettingsStorage {

  /** What `getItem` can yield: a stored string, `null` (no entry in
      `localStorage`) or `undefined` (the host-managed backend). */
  datatype Item = Str(s: string) | Null | Undefined

  datatype Backend = Local(m: map<string, string>) | HostNoop

  /** The mechanism chosen once at start-up: the host-managed backend when
      `window.vsCodeApi` exists, `localStorage` otherwise. */
  function GetStorage(vsCodeApiPresent: bool, localStorage: map<string, string>): (b: Backend)
    ensures b.HostNoop? <==> vsCodeApiPresent
    ensures b.Local? ==> b.m == localStorage
  {
    if vsCodeApiPresent then HostNoop else Local(localStorage)
  }

  function GetItem(b: Backend, key: string): Item {
    match b
    case HostNoop => Undefined
    case Local(m) => if key in m then Str(m[key]) else Null
  }

  /** `setItem(key, value)`, with the value already in its string form. */
  function SetItem(b: Backend, key: string, value: string): Backend {
    match b
    case HostNoop => HostNoop
    case Local(m) => Local(m[key := value])
  }

  /** Reading a key after a write: in standalone mode the written key yields
      the written string and every other key what it yielded before; the
      host-managed backend yields `undefined` whatever was written. */
  lemma ReadAfterWrite(b: Backend, key: string, value: string, k: string)
    ensures GetItem(SetItem(b, key, value), k) ==
      if b.HostNoop? then Undefined
      else if k == key then Str(value)
      else GetItem(b, k)
  {
  }

  /** A standalone write adds or overwrites exactly one entry. */
  lemma WriteFrame(m: map<string, string>, key: string, value: string)
    ensures SetItem(Local(m), key, value).Local?
    ensures SetItem(Local(m), key, value).m.Keys == m.Keys + {key}
    ensures SetItem(Local(m), key, value).m[key] == value
    ensures forall k :: k in m && k != key ==> SetItem(Local(m), key, value).m[k] == m[k]
  {
  }

  /** The host-managed backend never yields a stored value, never yields
      `null`, and ignores every write. */
  lemma HostManagedIsInert(key: string, value: string, k: string)
    ensures GetItem(HostNoop, k) == Undefined
    ensures SetItem(HostNoop, key, value) == HostNoop
  {
  }

  /** `localStorage` never yields `undefined`: absent keys read as `null`. */
  lemma LocalReadIsNullOrString(m: map<string, string>, k: string)
    ensures GetItem(Local(m), k) == Null <==> k !in m
    ensures GetItem(Local(m), k) != Undefined
  {
  }
}
