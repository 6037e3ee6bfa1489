# Nostr relay monitor: a Dafny model

This project models the logic of an Obsidian plugin that watches Nostr relays.
The plugin subscribes to a list of relays for text notes (NIP-01 kind 1) created
since it started. It tests each incoming note against a search pattern. When a
note matches, it raises a notice showing a shortened author key and a preview of
the content, and writes a detection record to the console. The repository also
holds a settings tab that edits the relay list as a multi-line text area and the
pattern as a text field.

The modules follow the source:

- `JsString` (`js_string.dfy`): the JavaScript string built-ins the plugin uses.
  These are `split` on one character, `join`, `trim` (with ECMAScript's set of
  whitespace characters) and `substring`. It proves that `split` and `join`
  undo each other.
- `RelayList` (`relay_list.dfy`): the settings tab's text-to-list pipeline
  (split on line feeds, trim, drop empty lines) and the join used to show the
  list.
- `Monitor` (`monitor.dfy`): the default settings and how stored data is laid
  over them; the relay filter; the short author and the content preview; and
  what the event handler decides for one event.
- `Plugin` (`plugin.dfy`): the plugin object as a class. Its effects on the
  outside world (saves, `pool.sub`, `pool.close`, notices, console output) are
  appended in order to a ghost `trace`.
- `SettingsTab` (`settings_tab.dfy`): the settings tab of `settings.ts` as a
  class whose two change handlers update the plugin in place.

Regular expressions are not interpreted. A `RegexEngine` value supplies
`compiles` (whether `new RegExp(text)` succeeds) and `test`, which returns a
match, no match, or a throw. The clock reading and the outcome of `saveData`
are parameters of the methods that use them.

Behaviour of the code worth noting:

- `main.ts` never registers the settings tab: `onload` has no `addSettingTab`
  call, so nothing in it constructs `NostrSettingsTab`. The tab's two change
  handlers are modelled as `settings.ts` writes them, acting on a plugin they
  are given.
- Restarting monitoring after a relay edit does not close the previous
  subscription. Every edit adds one more subscription, and only unloading the
  plugin calls `pool.close`. It closes the relays of the settings at that time
  (`RelayEditKeepsSubscriptions`, `StartThenEditTwice`).
- Nothing is logged for an event that does not match.
- A notice is raised before the timestamp is formatted. When `created_at * 1000`
  is outside the range of a JavaScript Date, `toISOString` throws after the
  notice is shown. The handler catches the error, so no detection record is
  written.
- A failed save during a relay edit rejects the handler before monitoring is
  restarted. A failed save during a pattern edit is caught by the pattern
  handler and logged under "Invalid regular expression". The new pattern stays
  in memory.
- The plugin's code stores no credentials.

## Model

| member | source | states |
|---|---|---|
| JsString.Split | settings.ts:28 | `split` always yields at least one piece and no piece contains the separator |
| JsString.JoinSplit | settings.ts:25-28 | joining the pieces of a split gives back the original text |
| JsString.SplitNoSeparator | settings.ts:28 | text without a line feed splits into itself alone |
| JsString.SplitAtSeparator | settings.ts:28 | splitting at a separator splits the two sides independently and concatenates the results |
| JsString.Join | settings.ts:25 | `join` puts one separator between neighbouring pieces; `JoinSplit` and `SplitJoin` state that it and `split` undo each other |
| JsString.SplitJoin | settings.ts:25-28 | splitting the join of separator-free pieces gives back exactly those pieces |
| JsString.TrimStart | settings.ts:29 | the result is a suffix of the input; what was removed is all whitespace; the result does not start with whitespace |
| JsString.TrimEnd | settings.ts:29 | the result is a prefix of the input; what was removed is all whitespace; the result does not end with whitespace |
| JsString.IsWhitespace | settings.ts:29 | the characters `trim` removes: ECMAScript WhiteSpace and LineTerminator |
| JsString.Trim | settings.ts:29 | the result is the input with its leading and trailing whitespace cut off: it sits in the input with only whitespace before and after it, has no whitespace at either end, and is empty exactly when the input is blank |
| JsString.TrimFixedPoint | settings.ts:29 | `trim` leaves a string unchanged exactly when it has no whitespace at either end, so trimming twice equals trimming once |
| JsString.BlankAround | settings.ts:27-30 | text cut at a whitespace character is blank exactly when both sides are blank |
| JsString.Substring | main.ts:71-74 | `substring` clamps both bounds to the string and swaps them when reversed, so the result is never longer than the input; `SubstringPrefix` gives the leading case |
| JsString.SubstringPrefix | main.ts:71-74 | `substring(0, n)` keeps the first `min(n, length)` code units |
| RelayList.TrimEach | settings.ts:29 | mapping `trim` keeps the length and trims each line at its own position |
| RelayList.DropEmpty | settings.ts:30 | the filter keeps exactly the non-empty entries and produces no empty entry |
| RelayList.ParseRelays | settings.ts:27-30 | split on line feeds, trim every line, drop the empty ones; its properties are stated by `ParseRelaysWellFormed`, `ParseSingleLine`, `ParseAtLineBreak`, `ParseEmptyIffBlank` and `ShowParseRoundTrip` |
| RelayList.ShowRelays | settings.ts:25 | the relays joined by line feeds; `ShowParseRoundTrip` states when parsing gives them back |
| RelayList.ParseRelaysWellFormed | settings.ts:27-30 | every parsed relay is non-empty, trimmed and free of line feeds |
| RelayList.ParseSingleLine | settings.ts:27-30 | one line contributes its trimmed text, or nothing when it is blank |
| RelayList.ParseAtLineBreak | settings.ts:27-30 | the relays of two blocks of text joined by a line feed are those of the first block followed by those of the second, so order is kept |
| RelayList.ParseEmptyIffBlank | settings.ts:27-30 | the list is empty exactly when the text is whitespace only; an empty relay list is accepted |
| RelayList.ShowParseRoundTrip | settings.ts:25-30 | parsing the shown list gives back the list exactly when every entry is non-empty, trimmed and a single line |
| RelayList.ParseShowEntries | settings.ts:25-30 | a list of well-formed entries survives being shown and parsed back |
| RelayList.ParseIdempotent | settings.ts:25-30 | showing and parsing a parsed list again changes nothing |
| RelayList.TrimEachAppend | settings.ts:29 | trimming line by line distributes over concatenation |
| RelayList.DropEmptyAppend | settings.ts:30 | dropping empty lines distributes over concatenation, so the kept lines stay in order |
| RelayList.DropEmptyKeepsNonEmpty | settings.ts:30 | a list without empty entries passes the filter unchanged |
| RelayList.TrimEachOfTrimmed | settings.ts:29 | a list of trimmed entries passes the trim step unchanged |
| Monitor.MergeSettings | main.ts:37 | with no stored data the defaults are used; otherwise each stored field wins and each missing field keeps its default |
| Monitor.MergeComplete | main.ts:37 | stored data that holds every field replaces the defaults entirely |
| Monitor.MergeIdempotent | main.ts:37 | laying the same stored data over the result a second time changes nothing |
| Monitor.BuildFilter | main.ts:48-51 | the filter asks for kind 1 only, and `since * 1000 <= nowMs < (since + 1) * 1000` |
| Monitor.BuildFilterAdmits | main.ts:48-51 | under NIP-01 the filter admits exactly the kind-1 events whose creation second had not ended when monitoring started |
| Monitor.BuildFilterMonotone | main.ts:50 | a later start never asks for older events |
| Monitor.ShortAuthor | main.ts:71 | the short author is the first `min(6, length)` code units of the key followed by `...` |
| Monitor.ShortAuthorSame | main.ts:71 | two keys give the same short author exactly when their first six code units agree |
| Monitor.Preview | main.ts:74 | content of at most 100 units is shown whole; longer content shows its first 100 units and `...`; the preview has at most 103 units |
| Monitor.PreviewCut | main.ts:74 | the preview has length 103 exactly when the content was longer than 100 |
| Monitor.PreviewIdempotent | main.ts:74 | previewing a preview changes nothing |
| Monitor.NoticeText | main.ts:74 | the notice text has a bounded length whatever the content's length |
| Monitor.HandleEvent | main.ts:64-86 | a notice is raised exactly on a match, and the record is written exactly on a match whose timestamp is a valid Date; a throwing test yields only a caught fault; a notice without a record means the date fault was caught |
| Plugin.HandlerEffects | main.ts:69-85 | handling an event only shows notices and writes to the console, and a notice is among them exactly when the handler raised one |
| Plugin.SubscriptionsAppend | main.ts:54 | subscriptions and closes of concatenated traces add up |
| Plugin.StartAddsSubscription | main.ts:54 | starting monitoring adds one subscription behind the earlier ones and closes nothing |
| Plugin.RelayEditKeepsSubscriptions | settings.ts:31-34 | a saved relay edit adds one subscription and keeps every earlier one open |
| Plugin.HandlerLeavesSubscriptions | main.ts:55-57 | handling an event neither subscribes nor closes anything |
| Plugin.NoPoolEffects | main.ts:54 | a trace without `pool.sub` or `pool.close` calls holds no subscriptions and no closes |
| Plugin.NostrMonitorPlugin.constructor | main.ts:20-22 | a new plugin holds the given regular-expression engine, has registered no clean-up and has had no effect yet; its settings start at the defaults |
| Plugin.NostrMonitorPlugin.LoadSettings | main.ts:36-38 | the settings become the stored data laid over the defaults |
| Plugin.NostrMonitorPlugin.SaveSettings | main.ts:40-42 | the current settings are handed to `saveData`, and the call reports whether that resolved |
| Plugin.NostrMonitorPlugin.StartMonitoring | main.ts:44-62 | one `pool.sub` over the current relays with the filter for the current clock reading; nothing is closed |
| Plugin.NostrMonitorPlugin.OnLoad | main.ts:24-34 | load the settings, subscribe once, register the clean-up |
| Plugin.NostrMonitorPlugin.OnUnload | main.ts:31-33 | the clean-up closes the relays of the settings as they are at unload time |
| Plugin.NostrMonitorPlugin.HandleNostrEvent | main.ts:64-86 | the handler's effects are appended to the trace; a non-matching event adds no notice and no record |
| SettingsTab.NostrSettingsTab.constructor | settings.ts:8-11 | the tab edits the plugin it was given |
| SettingsTab.NostrSettingsTab.RelaysText | settings.ts:25 | the area shows the relays joined by line feeds, and that text parses back to the same list exactly when every relay is well formed |
| SettingsTab.NostrSettingsTab.OnRelaysChange | settings.ts:26-35 | the parsed list replaces the relays, then the settings are saved, then monitoring restarts if the save resolved; the pattern is untouched |
| SettingsTab.NostrSettingsTab.ReplaceRelays | settings.ts:27-34 | with the list already parsed: the list replaces the relays, the settings are saved, and a subscription over the new list is added only if the save resolved |
| SettingsTab.NostrSettingsTab.OnPatternChange | settings.ts:44-51 | a pattern that does not compile changes nothing, saves nothing and logs an error; one that compiles replaces the pattern and is then saved |
| SettingsTab.StartThenEditTwice | settings.ts:26-35 | after start-up and two saved relay edits, three subscriptions are open and none was closed |

## Left out

- The post modal (`modal.ts`) is not part of this model. It builds widgets; its only logic is a character counter and a guard against blank posts.
- The relay pool's internals are not modelled: connections, delivery of events and end-of-stored-events signals, and what `close` does to open subscriptions. The model records `pool.sub` and `pool.close` calls in the trace.
- The console messages printed at start-up and on the end-of-stored-events signal are not modelled. They are plain log lines with no effect.
- Regular-expression syntax and matching are left to the `RegexEngine` parameter. So is the escaped `source` text the pattern field shows.
- `Date.now()` becomes the `nowMs` parameter. The ISO text that `toISOString` produces is not modelled: the detection record keeps the millisecond timestamp, and the model keeps only the range check that decides whether formatting throws.
- JavaScript strings are sequences of UTF-16 code units; the model's `char` is a Unicode scalar value. For text outside the Basic Multilingual Plane, the cut at 6 or 100 units and the length test may fall at a different place. A cut in the middle of a surrogate pair cannot be represented.
- Persistence: `loadData` and `saveData` are not modelled beyond their outcome. Stored data is modelled as the two known fields, each present or absent. Extra keys, fields of the wrong type, and the serialised form of the stored pattern are not modelled, so nothing is claimed about the pattern surviving a save and a reload.
- A failing `loadData` during start-up is not modelled.
- Malformed events, for example a missing `pubkey` that would make `substring` throw, are not modelled. Events carry only the three fields the handler reads, plus the kind the filter selects on. Event ids, tags and signatures are not modelled.
- Asynchrony is not modelled: each handler runs to completion in one step, including its `await`. Events that arrive while a save is pending are not interleaved with it.
- Before start-up the plugin's settings are undefined in the source. The model's constructor starts from the defaults.
