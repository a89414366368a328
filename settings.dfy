/**
 * SettingsManager: the plugin's flat key-value settings document and the
 * settings file it is saved to. `doc` is the in-memory document (`settings`,
 * None until Load has run) and `disk` the content of the settings file
 * (None when it is absent or unreadable). Every setter except SetHotkeyData
 * writes the document through to the file.
 *
 * The libobs helpers are taken to treat a missing document as empty: a set
 * on it does nothing, a get returns the type's default.
 */
module Settings {
  import opened Wrappers

  const AccessTokenKey: string := "access_token"
  const RefreshTokenKey: string := "refresh_token"
  const UserNameKey: string := "user_name"
  const AutoRefreshEnabledKey: string := "auto_refresh_enabled"
  const AutoRefreshIntervalKey: string := "auto_refresh_interval"

  /** An obs_data item: a string, a bool, a 64-bit integer, or an array (hotkey bindings). */
  datatype Value = VString(s: string) | VBool(b: bool) | VInt(n: int) | VArray(items: seq<Value>)

  type Document = map<string, Value>

  type Int32 = n: int | -0x8000_0000 <= n <= 0x7FFF_FFFF

  /** The document Load creates when there is no settings file. */
  function Defaults(): (d: Document)
    ensures d.Keys == {AccessTokenKey, RefreshTokenKey, UserNameKey, AutoRefreshEnabledKey, AutoRefreshIntervalKey}
  {
    map[AccessTokenKey := VString(""),
        RefreshTokenKey := VString(""),
        UserNameKey := VString(""),
        AutoRefreshEnabledKey := VBool(true),
        AutoRefreshIntervalKey := VInt(5)]
  }

  /** obs_data_set_*: `key` now holds `v` and every other key keeps its item; no document stays none. */
  function Put(doc: Option<Document>, key: string, v: Value): (r: Option<Document>)
    ensures r.Some? <==> doc.Some?
    ensures r.Some? ==> r.value.Keys == doc.value.Keys + {key} && r.value[key] == v
    ensures r.Some? ==> forall k :: k in doc.value && k != key ==> r.value[k] == doc.value[k]
  {
    match doc
    case None => None
    case Some(d) => Some(d[key := v])
  }

  function Lookup(doc: Option<Document>, key: string): Option<Value>
  {
    if doc.Some? && key in doc.value then Some(doc.value[key]) else None
  }

  /** obs_data_get_string: the string at `key`; "" without a document, without the key or for another type. */
  function StringAt(doc: Option<Document>, key: string): (s: string)
    ensures doc.None? ==> s == ""
  {
    match Lookup(doc, key)
    case Some(VString(s)) => s
    case _ => ""
  }

  /** obs_data_get_bool: false unless a bool is stored at `key`. */
  function BoolAt(doc: Option<Document>, key: string): (b: bool)
    ensures b ==> Lookup(doc, key) == Some(VBool(true))
  {
    match Lookup(doc, key)
    case Some(VBool(b)) => b
    case _ => false
  }

  /** obs_data_get_int: 0 unless an integer is stored at `key`. */
  function IntAt(doc: Option<Document>, key: string): (n: int)
    ensures n != 0 ==> Lookup(doc, key) == Some(VInt(n))
  {
    match Lookup(doc, key)
    case Some(VInt(n)) => n
    case _ => 0
  }

  /** obs_data_get_array: the array at `key`, or none (a null array). */
  function ArrayAt(doc: Option<Document>, key: string): (a: Option<seq<Value>>)
    ensures a.Some? ==> Lookup(doc, key) == Some(VArray(a.value))
  {
    match Lookup(doc, key)
    case Some(VArray(items)) => Some(items)
    case _ => None
  }

  /** The conversion of a 64-bit integer to a C++ int keeps its low 32 bits, read as two's complement. */
  function Wrap32(n: int): (r: Int32)
    ensures -0x8000_0000 <= n <= 0x7FFF_FFFF ==> r == n
    ensures (r - n) % 0x1_0000_0000 == 0
  {
    (n + 0x8000_0000) % 0x1_0000_0000 - 0x8000_0000
  }

  /** Setting a key changes what that key reads as and nothing else. */
  lemma PutIsolation(doc: Option<Document>, key: string, v: Value, other: string)
    ensures Lookup(Put(doc, key, v), key) == (if doc.Some? then Some(v) else None)
    ensures other != key ==> Lookup(Put(doc, key, v), other) == Lookup(doc, other)
  {
  }

  /** What the getters read from a freshly created default document. */
  lemma DefaultsRead()
    ensures StringAt(Some(Defaults()), AccessTokenKey) == ""
    ensures StringAt(Some(Defaults()), RefreshTokenKey) == ""
    ensures StringAt(Some(Defaults()), UserNameKey) == ""
    ensures BoolAt(Some(Defaults()), AutoRefreshEnabledKey)
    ensures Wrap32(IntAt(Some(Defaults()), AutoRefreshIntervalKey)) == 5
  {
  }

  class SettingsManager {
    /** The settings document; None stands for a null `settings` pointer. */
    var doc: Option<Document>
    /** The settings file; None when there is none or it cannot be read. */
    var disk: Option<Document>

    /** A manager before Load, in a process whose settings file holds `disk`. */
    constructor (disk: Option<Document>)
      ensures this.disk == disk && doc == None
    {
      this.disk := disk;
      doc := None;
    }

    /** Reads the settings file, or creates the default document when there is none; writes nothing. */
    method Load()
      modifies this
      ensures doc == Some(if disk.Some? then disk.value else Defaults())
      ensures disk == old(disk)
    {
      doc := disk;
      if doc.None? {
        doc := Some(Defaults());
      }
    }

    /** Writes the document to the settings file; without a document it writes nothing. */
    method Save()
      modifies this
      ensures doc == old(doc)
      ensures disk == if doc.Some? then doc else old(disk)
    {
      if doc.None? {
        return;
      }
      disk := doc;
    }

    /** Sets `key` to `v` and saves. */
    method SetAndSave(key: string, v: Value)
      modifies this
      ensures doc == Put(old(doc), key, v)
      ensures disk == if doc.Some? then doc else old(disk)
    {
      doc := Put(doc, key, v);
      Save();
    }

    method SetAccessToken(token: string)
      modifies this
      ensures doc == Put(old(doc), AccessTokenKey, VString(token))
      ensures disk == if doc.Some? then doc else old(disk)
      ensures GetAccessToken() == if doc.Some? then token else ""
    {
      SetAndSave(AccessTokenKey, VString(token));
    }

    function GetAccessToken(): (s: string)
      reads this
      ensures doc.None? ==> s == ""
      ensures s != "" ==> Lookup(doc, AccessTokenKey) == Some(VString(s))
    {
      StringAt(doc, AccessTokenKey)
    }

    method SetRefreshToken(token: string)
      modifies this
      ensures doc == Put(old(doc), RefreshTokenKey, VString(token))
      ensures disk == if doc.Some? then doc else old(disk)
      ensures GetRefreshToken() == if doc.Some? then token else ""
    {
      SetAndSave(RefreshTokenKey, VString(token));
    }

    function GetRefreshToken(): (s: string)
      reads this
      ensures doc.None? ==> s == ""
      ensures s != "" ==> Lookup(doc, RefreshTokenKey) == Some(VString(s))
    {
      StringAt(doc, RefreshTokenKey)
    }

    method SetUserName(name: string)
      modifies this
      ensures doc == Put(old(doc), UserNameKey, VString(name))
      ensures disk == if doc.Some? then doc else old(disk)
      ensures GetNightUserName() == if doc.Some? then name else ""
    {
      SetAndSave(UserNameKey, VString(name));
    }

    function GetNightUserName(): (s: string)
      reads this
      ensures doc.None? ==> s == ""
      ensures s != "" ==> Lookup(doc, UserNameKey) == Some(VString(s))
    {
      StringAt(doc, UserNameKey)
    }

    method SetAutoRefreshEnabled(enabled: bool)
      modifies this
      ensures doc == Put(old(doc), AutoRefreshEnabledKey, VBool(enabled))
      ensures disk == if doc.Some? then doc else old(disk)
      ensures GetAutoRefreshEnabled() == (doc.Some? && enabled)
    {
      SetAndSave(AutoRefreshEnabledKey, VBool(enabled));
    }

    function GetAutoRefreshEnabled(): (b: bool)
      reads this
      ensures b ==> Lookup(doc, AutoRefreshEnabledKey) == Some(VBool(true))
    {
      BoolAt(doc, AutoRefreshEnabledKey)
    }

    method SetAutoRefreshInterval(interval: Int32)
      modifies this
      ensures doc == Put(old(doc), AutoRefreshIntervalKey, VInt(interval))
      ensures disk == if doc.Some? then doc else old(disk)
      ensures GetAutoRefreshInterval() == if doc.Some? then interval else 0
    {
      SetAndSave(AutoRefreshIntervalKey, VInt(interval));
    }

    /** The stored 64-bit integer, narrowed to an int. */
    function GetAutoRefreshInterval(): (n: Int32)
      reads this
      ensures Lookup(doc, AutoRefreshIntervalKey).None? ==> n == 0
      ensures n != 0 ==> Lookup(doc, AutoRefreshIntervalKey).Some? && Lookup(doc, AutoRefreshIntervalKey).value.VInt?
      ensures Lookup(doc, AutoRefreshIntervalKey).Some? && Lookup(doc, AutoRefreshIntervalKey).value.VInt?
              && -0x8000_0000 <= Lookup(doc, AutoRefreshIntervalKey).value.n <= 0x7FFF_FFFF
              ==> n == Lookup(doc, AutoRefreshIntervalKey).value.n
    {
      Wrap32(IntAt(doc, AutoRefreshIntervalKey))
    }

    /** Stores hotkey bindings under `key` without saving the file. */
    method SetHotkeyData(key: string, bindings: seq<Value>)
      modifies this
      ensures doc == Put(old(doc), key, VArray(bindings))
      ensures disk == old(disk)
      ensures GetHotkeyData(key) == if doc.Some? then Some(bindings) else None
    {
      doc := Put(doc, key, VArray(bindings));
    }

    function GetHotkeyData(key: string): (a: Option<seq<Value>>)
      reads this
      ensures doc.None? ==> a.None?
      ensures a.Some? ==> Lookup(doc, key) == Some(VArray(a.value))
    {
      ArrayAt(doc, key)
    }
  }

  /** A token set in one process is read back by the next one, which loads the file it left. */
  method TokenSurvivesRestart(file: Option<Document>, token: string) returns (reloaded: string)
    ensures reloaded == token
  {
    var first := new SettingsManager(file);
    first.Load();
    first.SetAccessToken(token);
    var second := new SettingsManager(first.disk);
    second.Load();
    reloaded := second.GetAccessToken();
  }

  /** Before Load every string getter reads "", whatever the file holds. */
  method GettersBeforeLoad(file: Option<Document>) returns (access: string, refresh: string, user: string)
    ensures access == "" && refresh == "" && user == ""
  {
    var m := new SettingsManager(file);
    access, refresh, user := m.GetAccessToken(), m.GetRefreshToken(), m.GetNightUserName();
  }

  /** With no settings file, Load yields the defaults: empty tokens and user, auto refresh on with interval 5. */
  method FirstRunDefaults() returns (access: string, refresh: string, user: string, autoRefresh: bool, interval: int)
    ensures access == "" && refresh == "" && user == "" && autoRefresh && interval == 5
  {
    var m := new SettingsManager(None);
    m.Load();
    access, refresh, user := m.GetAccessToken(), m.GetRefreshToken(), m.GetNightUserName();
    autoRefresh, interval := m.GetAutoRefreshEnabled(), m.GetAutoRefreshInterval();
  }
}
