# obsidian-uuid-plugin, modelled in Dafny

The plugin gives each note in an Obsidian vault a unique ID. It writes the
ID into the note's YAML frontmatter under a key that can be configured
(`uuid` by default). It never overwrites a note whose frontmatter already
holds a truthy value at that key. An ID is either a random string
(`uuidStyle` 1) or the note's creation time rendered with a moment.js
pattern (any other style).

The plugin registers three commands:

- all markdown notes except those whose path contains a blacklist entry;
- the markdown notes whose path contains a whitelist entry;
- the active note, if it is a markdown note.

A settings tab edits the key, the random length, the two lists (one entry
per line), the style and the timestamp format.

The model has five modules:

- `Js` (js.dfy): the JavaScript behaviour the plugin relies on, written out.
  This covers truthiness, `includes`, `split`/`join` on `"\n"`, `trim` with
  ECMAScript's whitespace set, and `filter`. Truthiness is stated as the
  list of falsy values. The others come with an independent
  characterisation: an occurrence index, round trips, "all characters are
  whitespace", and multiset plus subsequence.
- `PluginSettings` (settings.dfy): the settings record, `DEFAULT_SETTINGS`,
  the `Object.assign` merge done on load, and a `Plugin` class. Each
  settings-tab `onChange` handler is a method of that class. The class also
  holds `stored`, the data written by `saveSettings`. Because of that field,
  the model shows that a non-numeric length resets the value in memory but
  is not saved.
- `Assignment` (assignment.dfy): `addID`'s policy as a function on values
  (`Assign`) and the sequential batch (`Run`). The ID check reads
  `frontmatter?.[key]` as JavaScript does: no frontmatter means no ID, and a
  key the note does not define is looked up on `Object.prototype`, so a key
  such as `constructor` always counts as present. Lemmas state how a batch
  behaves: existing IDs are kept, only the key is touched, notes outside the
  batch are untouched, every note ends up tagged, and exactly which skips
  are reported, in order.
- `Selection` (selection.dfy): the blacklist and whitelist filters and the
  active-note guard. They also show what happens when a list text area is
  emptied. `"".split("\n")` is `[""]`, and every path contains `""`. So an
  emptied blacklist (or one whose text ends in a line break) blocks every
  note, and such a whitelist admits every note.
- `Commands` (commands.dfy): a `Vault` class whose frontmatter map the
  commands change in place. `AddID` is proved equal to `Assign`. The
  `forEach` loop is proved equal to `Run`. Each command is specified by the
  selection functions together with `Run`.

The global `expSettings` becomes an explicit `Settings` argument to the
commands. `getActiveFile()` becomes an `Option<File>` argument.

Two facts about the code shape the model:

- `addID` awaits `processFrontMatter` (main.ts:50), but the commands never
  await the promise `addID` itself returns (main.ts:64, 73, 92, 108). A
  failed write therefore becomes an unhandled rejection, and the model has
  no failure outcome.
- The code compares `uuidStyle === 1`, so every value other than 1 (not only
  2) selects the timestamp.

## Model

| member | source | states |
|---|---|---|
| `Js.IncludesIff` | main.ts:70 | `path.includes(entry)` holds exactly when `entry` occurs in `path` at some index |
| `Js.Truthy` | main.ts:37 | a frontmatter value is falsy exactly when it is `""`, `0`, `false` or `null`; lists and objects are truthy |
| `Js.Includes` | main.ts:70 | every path includes the empty string, and no path includes an entry longer than itself |
| `Js.Join` | main.ts:207 | joining one or more pieces gives their characters plus one separator fewer than there are pieces, and starts with the first piece |
| `Js.Split` | main.ts:209 | `value.split("\n")` always has at least one piece, and no piece holds a line break |
| `Js.JoinSplit` | main.ts:207-209 | joining the split pieces with `"\n"` gives back the typed text |
| `Js.SplitJoin` | main.ts:207-222 | splitting the joined list shown in the text area gives back a non-empty list whose entries have no line break |
| `Js.SplitTrailingSeparator` | main.ts:209 | text ending in a line break splits into two or more pieces, and the last piece is `""` |
| `Js.Trim` | main.ts:170 | `value.trim() === ""` exactly when every character is ECMAScript whitespace or a line terminator |
| `Js.TrimStart` | main.ts:170 | the kept part is a suffix, the dropped prefix is all whitespace, and the kept part does not start with whitespace |
| `Js.TrimEnd` | main.ts:170 | the kept part is a prefix, the dropped suffix is all whitespace, and the kept part does not end with whitespace |
| `Js.Filter` | main.ts:69-71 | `array.filter(keep)` keeps exactly the elements satisfying `keep`, with their multiplicity, as a subsequence (original order) |
| `Js.FilterKeepsAll` | main.ts:63-64 | a filter that keeps every element returns the list unchanged, so the empty-blacklist short cut agrees with filtering |
| `Js.FilterKeepsNone` | main.ts:83-84 | a filter that keeps no element returns `[]`, so the empty-whitelist short cut agrees with filtering |
| `PluginSettings.Merge` | main.ts:136-141 | each field takes its stored value when present, otherwise the `DEFAULT_SETTINGS` value; no stored data gives the defaults |
| `PluginSettings.Store` | main.ts:145-147 | loading back the data `saveSettings` wrote yields the same settings |
| `PluginSettings.BlankToDefault` | main.ts:170-175 | blank input (all whitespace) becomes the default, other input is kept verbatim, and a non-blank default makes the result non-blank |
| `PluginSettings.ListFieldRoundTrip` | main.ts:207-222 | a list shown and typed back unchanged is stored unchanged if it is non-empty and has no line breaks; an empty list comes back as `[""]` |
| `PluginSettings.Plugin.constructor` | main.ts:113-114 | after `onload` loads settings, the in-memory settings are the defaults merged with the stored data |
| `PluginSettings.Plugin.LoadSettings` | main.ts:136-143 | the settings become the defaults merged with the stored data; the stored data is unchanged |
| `PluginSettings.Plugin.SaveSettings` | main.ts:145-147 | the stored data becomes the current settings; the settings are unchanged |
| `PluginSettings.Plugin.OnUuidKeyChange` | main.ts:169-177 | only `uuidKey` changes: a blank input gives `"uuid"`, any other input is kept verbatim; the key is then non-blank and saved |
| `PluginSettings.Plugin.OnUuidLengthChange` | main.ts:188-198 | a parsed number is stored and saved; a NaN parse resets the length to 10 in memory and does not save |
| `PluginSettings.Plugin.OnBlacklistChange` | main.ts:207-211 | only the blacklist changes, to `value.split("\n")`; it is non-empty, joins back to `value`, and is saved |
| `PluginSettings.Plugin.OnWhitelistChange` | main.ts:220-224 | only the whitelist changes, to `value.split("\n")`; it is non-empty, joins back to `value`, and is saved |
| `PluginSettings.Plugin.OnUuidStyleChange` | main.ts:230-237 | the dropdown's "1" sets style 1 and its "2" sets style 2; nothing else changes, and the result is saved |
| `PluginSettings.Plugin.OnDateFormatChange` | main.ts:266-273 | only `dateFormat` changes: a blank input gives `"YYYYMMDD_hhmmss"`, other input is kept verbatim; the format is non-blank and saved |
| `Assignment.HasId` | main.ts:37 | without frontmatter there is no ID; an own property counts when its value is truthy; a key the note does not define counts exactly when `Object.prototype` has it |
| `Assignment.Assign` | main.ts:36-55 | a truthy value at the key gives "already exists" and changes nothing; otherwise only that key of that note is written. Style 1 writes the next random string of `uuidLength` and consumes one draw; any other style writes `format(ctime, dateFormat)` and draws nothing |
| `Assignment.AssignTwice` | main.ts:37-51 | a second `addID` right after the first writes nothing exactly when the ID from the first call (if any) is non-empty |
| `Assignment.Run` | main.ts:64-73 | `forEach(addID)` reports only "already exists" notices, at most one per note of the batch |
| `Assignment.SkipsFor` | main.ts:53-55 | the expected skip notices: all "already exists", and one names a path exactly when a batch note has that path and already had an ID |
| `Assignment.RunLeavesOthers` | main.ts:73 | a batch leaves the frontmatter of every note outside it unchanged |
| `Assignment.RunKeepsExisting` | main.ts:37 | a note that already had a truthy ID keeps its whole frontmatter through a batch |
| `Assignment.RunTouchesOnlyKey` | main.ts:50-52 | a batch changes no frontmatter key other than the ID key |
| `Assignment.RunTagsEvery` | main.ts:37-52 | if generated IDs are non-empty, every note of the batch has a truthy ID afterwards |
| `Assignment.RunReportsExactlyExisting` | main.ts:53-55 | with distinct paths, the batch notices are exactly `SkipsFor`: one "already exists" per batch note that had an ID before the batch, in batch order, and nothing else |
| `Assignment.DefaultRunOverTwoNotes` | main.ts:20-27 | default settings, `a.md` without frontmatter and `b.md` with `uuid: x`: `a.md` gets the first random string of length 10, `b.md` is unchanged, and one skip is reported |
| `Assignment.InheritedKeyCountsAsId` | main.ts:37 | with the key `constructor`, a note with frontmatter `{title: t}` is skipped, while a note without frontmatter is given an ID |
| `Selection.MatchesAny` | main.ts:69-70 | an empty list matches no path, and a list holding `""` matches every path |
| `Selection.MatchesAnyIff` | main.ts:69-70 | `list.some(e => path.includes(e))` holds exactly when some entry occurs in the path at some index |
| `Selection.BesidesBlacklist` | main.ts:61-71 | an empty blacklist selects every note; in general the selected notes are exactly those whose path contains no blacklist entry, in the original order and multiplicity |
| `Selection.InWhitelist` | main.ts:81-90 | an empty whitelist selects nothing; in general the selected notes are exactly those whose path contains some whitelist entry, in the original order and multiplicity |
| `Selection.EmptyEntryMatchesAll` | main.ts:70 | a list holding `""` makes the blacklist select nothing and the whitelist select every note |
| `Selection.EmptiedTextArea` | main.ts:222 | an emptied text area, or one ending in a line break, stores a list holding `""`, so the blacklist command processes no note and the whitelist command processes every note |
| `Selection.ChooseActive` | main.ts:100-108 | no active file gives nothing; a file whose extension is not `"md"` is refused; only an `"md"` file is passed on |
| `Commands.FilterKeepsDistinct` | main.ts:67-71 | filtering notes with distinct paths leaves their paths distinct |
| `Commands.Vault.MarkdownFiles` | main.ts:64 | the listed notes are exactly the vault's files with extension `"md"`, and their paths are distinct when the vault's are |
| `Commands.Vault.AddID` | main.ts:34-57 | the in-place frontmatter write and the random-source state follow `Assign` exactly; the file list is unchanged |
| `Commands.Vault.AddIDsTo` | main.ts:73 | the `forEach` loop leaves the vault in the state `Run` gives and returns its notices |
| `Commands.Vault.AddIDsToAllNotesBesidesBlacklist` | main.ts:58-76 | processes `BesidesBlacklist` of the markdown notes in order; announces the count only when the blacklist is non-empty; the other notices are exactly `SkipsFor` of the processed notes |
| `Commands.Vault.AddIDsToWhitelist` | main.ts:78-95 | an empty whitelist changes nothing and shows nothing; otherwise announces the count, processes `InWhitelist` of the markdown notes in order, and the other notices are exactly `SkipsFor` of the processed notes |
| `Commands.Vault.AddIDToCurrentNote` | main.ts:97-110 | no active file: nothing happens; a non-markdown file: only the "not a md note" notice; a markdown file: one `addID` |

## Left out

- Random IDs (`ShortUniqueId.rnd`, main.ts:41-42): a foreign library. The model uses an arbitrary function from (length, draw number) to a string. It does not state the length or the alphabet of the result. Lemmas that need a non-empty ID say so in their requires.
- Timestamp IDs (`moment(ctime).format(pattern)`, main.ts:44-47): a foreign library with date arithmetic. The model uses an arbitrary function of (ctime, pattern).
- `parseInt` (main.ts:189): a JavaScript builtin. The model takes it as a function `string -> Option<int>`, with `None` for NaN. For the style dropdown (main.ts:235), the two option strings are read as the numbers 1 and 2.
- Async execution: `addID` returns promises that the `forEach` loops never await, and `processFrontMatter` is a host transaction. The model runs the calls one after another, with no failure outcome. With distinct paths this gives the same result as the real interleaving, because each call reads only its own note before writing.
- Metadata-cache staleness: the model assumes the cached frontmatter read at main.ts:37 is the live frontmatter that `processFrontMatter` updates.
- Frontmatter values: YAML numbers are exact reals, so NaN and rounding are not modelled.
- Assignment.Assign: the write `data[key] = uuid` is modelled as setting an own property for every key. For the key `__proto__` JavaScript instead tries to replace the object's prototype, which a string cannot do, so nothing would be written. The read side of such keys is modelled (`Assignment.HasId`). The model also assumes the parsed frontmatter is a plain object.
- Metadata cache without an entry: `getFileCache(f)` returning null is treated like a note without frontmatter, which is what the optional chain at main.ts:37 gives.
- The settings merge takes only the six known fields. `Object.assign` would also copy unknown keys, and values of a wrong type, from the stored data; the model does neither.
- UI: `Notice` durations, the `Setting` widgets, placeholders, the date-format description and its live example (main.ts:240-257, 274-276). Notices are modelled as returned `Notice` values.
- Persistence and lifecycle: `loadData`/`saveData` are modelled as reading and writing the `stored` field. `onload`, `addCommand` and `addSettingTab` (main.ts:113-134) are host registration and are not modelled.
- `Commands.Vault.MarkdownFiles`: the host does not specify the order of `getMarkdownFiles`. The model uses the order of the vault's file list, and its contract states only which files are listed.
