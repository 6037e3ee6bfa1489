/**
 * The settings tab: it shows the relay list in a text area and the search
 * pattern in a text field, and writes the user's edits back into the
 * plugin's settings.
 */
module SettingsTab {
  import opened Wrappers
  import opened Monitor
  import opened RelayList
  import opened Plugin

  class NostrSettingsTab {
    const plugin: NostrMonitorPlugin

    constructor (plugin: NostrMonitorPlugin)
      ensures this.plugin == plugin
    {
      this.plugin := plugin;
    }

    /**
     * The text the relay area is filled with. Editing nothing and handing it
     * back yields the same list exactly when every relay is already a
     * non-empty, trimmed, single line.
     */
    method RelaysText() returns (text: string)
      ensures text == ShowRelays(plugin.settings.relays)
      ensures ParseRelays(text) == plugin.settings.relays <==> AllRelayEntries(plugin.settings.relays)
    {
      text := ShowRelays(plugin.settings.relays);
      ShowParseRoundTrip(plugin.settings.relays);
    }

    /**
     * The relay area changed to `value`: the parsed list replaces the relays,
     * the settings are saved, and only once the save has resolved is
     * monitoring started again. A failed save rejects the handler's promise
     * before the restart.
     */
    method OnRelaysChange(value: string, persisted: bool, nowMs: int)
      modifies plugin`settings, plugin`trace
      ensures plugin.settings == old(plugin.settings).(relays := ParseRelays(value))
      ensures plugin.trace == old(plugin.trace) + [Saved(plugin.settings, persisted)]
                + (if persisted then [Subscribed(ParseRelays(value), [BuildFilter(nowMs)])] else [])
    {
      var relays := ParseRelays(value);
      ReplaceRelays(relays, persisted, nowMs);
    }

    /** The steps of the relay handler once the text has been turned into a list. */
    method ReplaceRelays(relays: seq<string>, persisted: bool, nowMs: int)
      modifies plugin`settings, plugin`trace
      ensures plugin.settings == old(plugin.settings).(relays := relays)
      ensures plugin.trace == old(plugin.trace) + [Saved(plugin.settings, persisted)]
                + (if persisted then [Subscribed(relays, [BuildFilter(nowMs)])] else [])
    {
      plugin.settings := plugin.settings.(relays := relays);
      var ok := plugin.SaveSettings(persisted);
      if ok {
        plugin.StartMonitoring(nowMs);
      }
    }

    /**
     * The pattern field changed to `value`. Text that does not compile leaves
     * the settings alone and saves nothing. Text that compiles replaces the
     * pattern and the settings are saved; a failed save is caught by the same
     * handler, and reported under the same message, as a syntax error, while
     * the new pattern stays in effect.
     */
    method OnPatternChange(value: string, persisted: bool)
      modifies plugin`settings, plugin`trace
      ensures !plugin.engine.compiles(value) ==>
                plugin.settings == old(plugin.settings)
                && plugin.trace == old(plugin.trace) + [ErrorLogged(INVALID_REGEX_MESSAGE, RegexSyntaxError)]
      ensures plugin.engine.compiles(value) ==>
                plugin.settings == old(plugin.settings).(searchPattern := Pattern(value))
                && plugin.trace == old(plugin.trace) + [Saved(plugin.settings, persisted)]
                     + (if persisted then [] else [ErrorLogged(INVALID_REGEX_MESSAGE, SaveError)])
    {
      if !plugin.engine.compiles(value) {
        plugin.trace := plugin.trace + [ErrorLogged(INVALID_REGEX_MESSAGE, RegexSyntaxError)];
      } else {
        plugin.settings := plugin.settings.(searchPattern := Pattern(value));
        var ok := plugin.SaveSettings(persisted);
        if !ok {
          plugin.trace := plugin.trace + [ErrorLogged(INVALID_REGEX_MESSAGE, SaveError)];
        }
      }
    }
  }

  /**
   * Start-up followed by two saved relay edits: every edit adds one more
   * subscribe request and none is closed, so three subscribe requests stand.
   */
  method StartThenEditTwice(plugin: NostrMonitorPlugin, stored: Option<StoredData>,
                            first: string, second: string, t0: int, t1: int, t2: int)
    requires plugin.trace == []
    modifies plugin
    ensures Subscriptions(plugin.trace) ==
              [Subscribed(MergeSettings(DEFAULT_SETTINGS, stored).relays, [BuildFilter(t0)])]
              + [Subscribed(ParseRelays(first), [BuildFilter(t1)])]
              + [Subscribed(ParseRelays(second), [BuildFilter(t2)])]
    ensures CloseCount(plugin.trace) == 0
  {
    var tab := new NostrSettingsTab(plugin);
    plugin.OnLoad(stored, t0);
    var s0 := Subscribed(plugin.settings.relays, [BuildFilter(t0)]);
    StartAddsSubscription([], plugin.settings.relays, BuildFilter(t0));
    ghost var trace := plugin.trace;
    assert Subscriptions(trace) == [s0] && CloseCount(trace) == 0 by {
      assert trace == [] + [s0];
    }
    EditRelays(tab, trace, first, t1);
    trace := plugin.trace;
    EditRelays(tab, trace, second, t2);
  }

  /** One saved relay edit, seen from the pool: one subscription more, no close. */
  method EditRelays(tab: NostrSettingsTab, ghost before: seq<Effect>, value: string, nowMs: int)
    requires tab.plugin.trace == before
    modifies tab.plugin
    ensures Subscriptions(tab.plugin.trace) == Subscriptions(before) + [Subscribed(ParseRelays(value), [BuildFilter(nowMs)])]
    ensures CloseCount(tab.plugin.trace) == CloseCount(before)
  {
    tab.OnRelaysChange(value, true, nowMs);
    RelayEditKeepsSubscriptions(before, tab.plugin.settings, ParseRelays(value), BuildFilter(nowMs));
  }
}
