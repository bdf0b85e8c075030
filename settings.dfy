/** The plugin's settings (main.ts:11-27), how they are loaded from and
    saved to the plugin's stored data (main.ts:136-147), and the rules the
    settings tab applies to what the user types (main.ts:157-279). */
module PluginSettings {
  import opened Js

  /** The `uuidPluginSettings` record. */
  datatype Settings = Settings(
    uuidKey: string,
    uuidLength: int,
    blacklist: seq<string>,
    whitelist: seq<string>,
    uuidStyle: int,
    dateFormat: string)

  /** `DEFAULT_SETTINGS`. */
  const Defaults := Settings("uuid", 10, [], [], 1, "YYYYMMDD_hhmmss")

  /** The settings fields found in the plugin's stored data; a field that is
      absent (or stored data that does not exist at all) is `None`. */
  datatype StoredData = StoredData(
    uuidKey: Option<string>,
    uuidLength: Option<int>,
    blacklist: Option<seq<string>>,
    whitelist: Option<seq<string>>,
    uuidStyle: Option<int>,
    dateFormat: Option<string>)

  const NoData := StoredData(None, None, None, None, None, None)

  /** `Object.assign({}, DEFAULT_SETTINGS, loaded)`: every field takes its
      stored value when there is one and its default otherwise. */
  function Merge(loaded: StoredData): (s: Settings)
    ensures loaded == NoData ==> s == Defaults
    ensures loaded.uuidKey.Some? ==> s.uuidKey == loaded.uuidKey.value
    ensures loaded.uuidKey.None? ==> s.uuidKey == Defaults.uuidKey
    ensures loaded.uuidLength.Some? ==> s.uuidLength == loaded.uuidLength.value
    ensures loaded.uuidLength.None? ==> s.uuidLength == Defaults.uuidLength
    ensures loaded.blacklist.Some? ==> s.blacklist == loaded.blacklist.value
    ensures loaded.blacklist.None? ==> s.blacklist == Defaults.blacklist
    ensures loaded.whitelist.Some? ==> s.whitelist == loaded.whitelist.value
    ensures loaded.whitelist.None? ==> s.whitelist == Defaults.whitelist
    ensures loaded.uuidStyle.Some? ==> s.uuidStyle == loaded.uuidStyle.value
    ensures loaded.uuidStyle.None? ==> s.uuidStyle == Defaults.uuidStyle
    ensures loaded.dateFormat.Some? ==> s.dateFormat == loaded.dateFormat.value
    ensures loaded.dateFormat.None? ==> s.dateFormat == Defaults.dateFormat
  {
    Settings(
      loaded.uuidKey.GetOr(Defaults.uuidKey),
      loaded.uuidLength.GetOr(Defaults.uuidLength),
      loaded.blacklist.GetOr(Defaults.blacklist),
      loaded.whitelist.GetOr(Defaults.whitelist),
      loaded.uuidStyle.GetOr(Defaults.uuidStyle),
      loaded.dateFormat.GetOr(Defaults.dateFormat))
  }

  /** What `saveData(settings)` writes: every field present. Loading it back
      yields the same settings. */
  function Store(s: Settings): (d: StoredData)
    ensures Merge(d) == s
  {
    StoredData(Some(s.uuidKey), Some(s.uuidLength), Some(s.blacklist),
               Some(s.whitelist), Some(s.uuidStyle), Some(s.dateFormat))
  }

  /** The rule of the key and date-format fields: input whose trim is empty
      falls back to the default; any other input is kept verbatim, spaces
      included. A non-blank default makes the result non-blank. */
  function BlankToDefault(value: string, default: string): (r: string)
    ensures IsBlank(value) ==> r == default
    ensures !IsBlank(value) ==> r == value
    ensures !IsBlank(default) ==> !IsBlank(r)
  {
    if Trim(value) == "" then default else value
  }

  /** The separator the list text areas use between entries. */
  const LineBreak := '\n'

  /** The plugin object as far as settings go: the in-memory settings the
      commands read, and the data last written to disk by `saveSettings`. */
  class Plugin {
    var settings: Settings
    var stored: StoredData

    /** A plugin whose stored data is `data`, after `onload` has run
        `loadSettings`. */
    constructor (data: StoredData)
      ensures stored == data
      ensures settings == Merge(data)
    {
      stored := data;
      settings := Merge(data);
    }

    /** `loadSettings`: defaults merged with the stored data. */
    method LoadSettings()
      modifies this
      ensures stored == old(stored)
      ensures settings == Merge(stored)
    {
      settings := Merge(stored);
    }

    /** `saveSettings`: write the current settings to disk. */
    method SaveSettings()
      modifies this
      ensures settings == old(settings)
      ensures stored == Store(settings)
    {
      stored := Store(settings);
    }

    /** The uuid-key text field changed. */
    method OnUuidKeyChange(value: string)
      modifies this
      ensures settings == old(settings).(uuidKey := BlankToDefault(value, Defaults.uuidKey))
      ensures !IsBlank(settings.uuidKey)
      ensures stored == Store(settings)
    {
      assert !IsWhitespace(Defaults.uuidKey[0]);
      if Trim(value) == "" {
        settings := settings.(uuidKey := Defaults.uuidKey);
      } else {
        settings := settings.(uuidKey := value);
      }
      SaveSettings();
    }

    /** The uuid-length text field changed. `parseInt` stands for the
        JavaScript builtin, `None` for its NaN. A number is stored and saved;
        anything else resets the length to the default in memory only. */
    method OnUuidLengthChange(value: string, parseInt: string -> Option<int>)
      modifies this
      ensures parseInt(value).Some? ==>
                settings == old(settings).(uuidLength := parseInt(value).value) &&
                stored == Store(settings)
      ensures parseInt(value).None? ==>
                settings == old(settings).(uuidLength := Defaults.uuidLength) &&
                stored == old(stored)
    {
      var intValue := parseInt(value);
      if intValue.Some? {
        settings := settings.(uuidLength := intValue.value);
        SaveSettings();
      } else {
        settings := settings.(uuidLength := Defaults.uuidLength);
      }
    }

    /** The blacklist text area changed: one entry per line. The text area
        shows the entries joined by line breaks, and that text is what the
        entries were split from. */
    method OnBlacklistChange(value: string)
      modifies this
      ensures settings == old(settings).(blacklist := Split(value, LineBreak))
      ensures |settings.blacklist| >= 1
      ensures Join(settings.blacklist, LineBreak) == value
      ensures stored == Store(settings)
    {
      settings := settings.(blacklist := Split(value, LineBreak));
      JoinSplit(value, LineBreak);
      SaveSettings();
    }

    /** The whitelist text area changed: one entry per line. */
    method OnWhitelistChange(value: string)
      modifies this
      ensures settings == old(settings).(whitelist := Split(value, LineBreak))
      ensures |settings.whitelist| >= 1
      ensures Join(settings.whitelist, LineBreak) == value
      ensures stored == Store(settings)
    {
      settings := settings.(whitelist := Split(value, LineBreak));
      JoinSplit(value, LineBreak);
      SaveSettings();
    }

    /** The uuidStyle dropdown changed; its only options are "1" (random
        string) and "2" (creation timestamp), which `parseInt` reads as the
        numbers 1 and 2. */
    method OnUuidStyleChange(value: string)
      requires value == "1" || value == "2"
      modifies this
      ensures settings == old(settings).(uuidStyle := if value == "1" then 1 else 2)
      ensures stored == Store(settings)
    {
      settings := settings.(uuidStyle := if value == "1" then 1 else 2);
      SaveSettings();
    }

    /** The timestamp-format text field changed. */
    method OnDateFormatChange(value: string)
      modifies this
      ensures settings == old(settings).(dateFormat := BlankToDefault(value, Defaults.dateFormat))
      ensures !IsBlank(settings.dateFormat)
      ensures stored == Store(settings)
    {
      assert !IsWhitespace(Defaults.dateFormat[0]);
      if Trim(value) == "" {
        settings := settings.(dateFormat := Defaults.dateFormat);
      } else {
        settings := settings.(dateFormat := value);
      }
      SaveSettings();
    }
  }

  /** A list that was shown in its text area and typed back unchanged is
      stored unchanged, as long as it is non-empty and no entry holds a line
      break; an empty list does not survive the round trip, it comes back
      as `[""]`. */
  lemma ListFieldRoundTrip(entries: seq<string>)
    requires forall k :: 0 <= k < |entries| ==> LineBreak !in entries[k]
    ensures |entries| >= 1 ==> Split(Join(entries, LineBreak), LineBreak) == entries
    ensures entries == [] ==> Split(Join(entries, LineBreak), LineBreak) == [""]
  {
    if |entries| >= 1 {
      SplitJoin(entries, LineBreak);
    }
  }
}
