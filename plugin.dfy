/**
 * The plugin object: it owns the settings, subscribes to the relays through
 * the relay pool and handles the events the pool delivers.
 *
 * What the plugin does to the outside world (saving settings, subscribing,
 * closing relays, notices and console output) is recorded, in order, in the
 * ghost `trace`. The clock and the outcome of persisting settings are
 * parameters.
 */
module Plugin {
  import opened Wrappers
  import opened Monitor

  const HANDLER_ERROR_MESSAGE: string := "イベント処理中にエラーが発生しました:"
  const INVALID_REGEX_MESSAGE: string := "Invalid regular expression:"

  /** Why something was written to `console.error`. */
  datatype ErrorCause = HandlerError(fault: HandlerFault) | RegexSyntaxError | SaveError

  /** One effect on the outside world. */
  datatype Effect =
    | Saved(settings: Settings, persisted: bool)          // saveData(settings) and whether it resolved
    | Subscribed(relays: seq<string>, filters: seq<Filter>) // pool.sub(relays, filters)
    | Closed(relays: seq<string>)                          // pool.close(relays)
    | Notified(text: string)                               // new Notice(text)
    | Recorded(record: LogRecord)                          // the detection record on the console
    | ErrorLogged(message: string, cause: ErrorCause)      // console.error(message, error)

  /** The effects of one call of the event handler, in the order it produces them. */
  function HandlerEffects(out: HandlerOutput): (effects: seq<Effect>)
    ensures forall k :: 0 <= k < |effects| ==> effects[k].Notified? || effects[k].Recorded? || effects[k].ErrorLogged?
    ensures (exists t :: Notified(t) in effects) <==> out.notice.Some?
  {
    (if out.notice.Some? then [Notified(out.notice.value)] else [])
    + (if out.record.Some? then [Recorded(out.record.value)] else [])
    + (if out.fault.Some? then [ErrorLogged(HANDLER_ERROR_MESSAGE, HandlerError(out.fault.value))] else [])
  }

  /** The subscriptions requested in a trace, oldest first. */
  ghost function Subscriptions(trace: seq<Effect>): seq<Effect>
  {
    if trace == [] then []
    else (if trace[0].Subscribed? then [trace[0]] else []) + Subscriptions(trace[1..])
  }

  /** The number of `pool.close` calls in a trace. */
  ghost function CloseCount(trace: seq<Effect>): nat
  {
    if trace == [] then 0 else (if trace[0].Closed? then 1 else 0) + CloseCount(trace[1..])
  }

  lemma {:induction false} SubscriptionsAppend(a: seq<Effect>, b: seq<Effect>)
    ensures Subscriptions(a + b) == Subscriptions(a) + Subscriptions(b)
    ensures CloseCount(a + b) == CloseCount(a) + CloseCount(b)
  {
    if a == [] {
      assert a + b == b;
    } else {
      assert (a + b)[0] == a[0] && (a + b)[1..] == a[1..] + b;
      SubscriptionsAppend(a[1..], b);
      assert Subscriptions(a + b) == (if a[0].Subscribed? then [a[0]] else []) + Subscriptions(a[1..] + b);
    }
  }

  /** Starting monitoring adds one subscription behind the earlier ones and closes nothing. */
  lemma StartAddsSubscription(trace: seq<Effect>, relays: seq<string>, f: Filter)
    ensures Subscriptions(trace + [Subscribed(relays, [f])]) == Subscriptions(trace) + [Subscribed(relays, [f])]
    ensures CloseCount(trace + [Subscribed(relays, [f])]) == CloseCount(trace)
  {
    SubscriptionsAppend(trace, [Subscribed(relays, [f])]);
  }

  /**
   * A saved relay edit restarts monitoring by adding a subscription: the ones
   * requested before stay in place and nothing is closed.
   */
  lemma RelayEditKeepsSubscriptions(trace: seq<Effect>, s: Settings, relays: seq<string>, f: Filter)
    ensures Subscriptions(trace + [Saved(s, true)] + [Subscribed(relays, [f])])
              == Subscriptions(trace) + [Subscribed(relays, [f])]
    ensures CloseCount(trace + [Saved(s, true)] + [Subscribed(relays, [f])]) == CloseCount(trace)
  {
    SubscriptionsAppend(trace, [Saved(s, true)]);
    SubscriptionsAppend(trace + [Saved(s, true)], [Subscribed(relays, [f])]);
  }

  /** Handling an event neither subscribes nor closes anything. */
  lemma HandlerLeavesSubscriptions(trace: seq<Effect>, out: HandlerOutput)
    ensures Subscriptions(trace + HandlerEffects(out)) == Subscriptions(trace)
    ensures CloseCount(trace + HandlerEffects(out)) == CloseCount(trace)
  {
    SubscriptionsAppend(trace, HandlerEffects(out));
    NoPoolEffects(HandlerEffects(out));
  }

  lemma {:induction false} NoPoolEffects(effects: seq<Effect>)
    requires forall k :: 0 <= k < |effects| ==> !effects[k].Subscribed? && !effects[k].Closed?
    ensures Subscriptions(effects) == [] && CloseCount(effects) == 0
  {
    if effects != [] {
      NoPoolEffects(effects[1..]);
    }
  }

  class NostrMonitorPlugin {
    const engine: RegexEngine
    var settings: Settings
    /** Whether `onload` has registered the clean-up that closes the relays. */
    var cleanupRegistered: bool
    ghost var trace: seq<Effect>

    constructor (engine: RegexEngine)
      ensures this.engine == engine && settings == DEFAULT_SETTINGS
      ensures !cleanupRegistered && trace == []
    {
      this.engine := engine;
      settings := DEFAULT_SETTINGS;
      cleanupRegistered := false;
      trace := [];
    }

    /** `loadSettings`: the stored data, if any, laid over the defaults. */
    method LoadSettings(stored: Option<StoredData>)
      modifies this`settings
      ensures settings == MergeSettings(DEFAULT_SETTINGS, stored)
    {
      settings := MergeSettings(DEFAULT_SETTINGS, stored);
    }

    /** `saveSettings`: hands the current settings to `saveData`; `persisted` is whether that resolved. */
    method SaveSettings(persisted: bool) returns (ok: bool)
      modifies this`trace
      ensures ok == persisted
      ensures trace == old(trace) + [Saved(settings, persisted)]
    {
      trace := trace + [Saved(settings, persisted)];
      ok := persisted;
    }

    /**
     * `startMonitoring` at clock reading `nowMs`: one subscription over the
     * current relays with the filter for that moment. Earlier subscriptions
     * are left open.
     */
    method StartMonitoring(nowMs: int)
      modifies this`trace
      ensures trace == old(trace) + [Subscribed(settings.relays, [BuildFilter(nowMs)])]
    {
      var filter := BuildFilter(nowMs);
      trace := trace + [Subscribed(settings.relays, [filter])];
    }

    /** `onload`: load the settings, start monitoring, register the clean-up. */
    method OnLoad(stored: Option<StoredData>, nowMs: int)
      modifies this
      ensures settings == MergeSettings(DEFAULT_SETTINGS, stored)
      ensures cleanupRegistered
      ensures trace == old(trace) + [Subscribed(settings.relays, [BuildFilter(nowMs)])]
    {
      LoadSettings(stored);
      StartMonitoring(nowMs);
      cleanupRegistered := true;
    }

    /**
     * Unloading runs the registered clean-up, which closes the relays of the
     * settings as they are now, not those of earlier subscriptions.
     */
    method OnUnload()
      modifies this`trace
      ensures trace == old(trace) + (if cleanupRegistered then [Closed(settings.relays)] else [])
    {
      if cleanupRegistered {
        trace := trace + [Closed(settings.relays)];
      }
    }

    /** `handleNostrEvent`, with the pattern held in the settings when the event arrives. */
    method HandleNostrEvent(e: Event)
      modifies this`trace
      ensures trace == old(trace) + HandlerEffects(HandleEvent(engine, settings.searchPattern, e))
      ensures engine.test(settings.searchPattern, e.content) != Match ==>
                forall k :: |old(trace)| <= k < |trace| ==> !trace[k].Notified? && !trace[k].Recorded?
    {
      var out := HandleEvent(engine, settings.searchPattern, e);
      trace := trace + HandlerEffects(out);
    }
  }
}
