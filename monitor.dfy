/**
 * The value-level logic of the monitor plugin: its settings and how stored
 * data is laid over the defaults, the relay query filter built at start-up,
 * and what the event handler decides to show and record for one event.
 *
 * Regular expressions are not interpreted: a `RegexEngine` says which texts
 * compile and what testing a compiled pattern against a text gives.
 */
module Monitor {
  import opened Wrappers
  import opened JsString

  // ---- settings ----

  /** A compiled regular expression, identified by the text it was compiled from. */
  datatype Pattern = Pattern(source: string)

  /** What `pattern.test(text)` does: it reports a match, reports none, or throws. */
  datatype TestOutcome = Match | NoMatch | Throws

  /**
   * The regular-expression engine, left uninterpreted: `compiles(text)` says
   * whether `new RegExp(text)` succeeds, `test` is `RegExp.prototype.test` on
   * a pattern without flags, so it keeps no state between calls.
   */
  datatype RegexEngine = RegexEngine(compiles: string -> bool, test: (Pattern, string) -> TestOutcome)

  datatype Settings = Settings(relays: seq<string>, searchPattern: Pattern)

  const DEFAULT_SETTINGS: Settings :=
    Settings(["wss://kojira.io", "wss://yabu.me", "wss://relay-jp.shino3.net"], Pattern("ちんちん"))

  /** The record `loadData` hands back; a field it lacks is `None`. */
  datatype StoredData = StoredData(relays: Option<seq<string>>, searchPattern: Option<Pattern>)

  /** Stored data holding both fields, with the values of `s`. */
  function Stored(s: Settings): StoredData {
    StoredData(Some(s.relays), Some(s.searchPattern))
  }

  /**
   * `Object.assign({}, defaults, stored)`: a field present in the stored data
   * wins, a missing field keeps its default; no stored data at all (`null`)
   * leaves the defaults as they are.
   */
  function MergeSettings(defaults: Settings, stored: Option<StoredData>): (s: Settings)
    ensures stored.None? ==> s == defaults
    ensures stored.Some? ==> s.relays == (if stored.value.relays.Some? then stored.value.relays.value else defaults.relays)
    ensures stored.Some? ==> s.searchPattern == (if stored.value.searchPattern.Some? then stored.value.searchPattern.value else defaults.searchPattern)
  {
    match stored
    case None => defaults
    case Some(data) =>
      var relays := if data.relays.Some? then data.relays.value else defaults.relays;
      var pattern := if data.searchPattern.Some? then data.searchPattern.value else defaults.searchPattern;
      Settings(relays, pattern)
  }

  /** A stored record holding every field replaces the defaults entirely. */
  lemma MergeComplete(defaults: Settings, s: Settings)
    ensures MergeSettings(defaults, Some(Stored(s))) == s
  {
  }

  /** Merging the same stored data a second time changes nothing. */
  lemma MergeIdempotent(defaults: Settings, stored: Option<StoredData>)
    ensures MergeSettings(MergeSettings(defaults, stored), stored) == MergeSettings(defaults, stored)
  {
  }

  // ---- the relay query ----

  /** Event kind 1, a short text note (NIP-01). */
  const TEXT_NOTE_KIND: int := 1

  const MS_PER_SECOND: int := 1000

  /** A NIP-01 filter restricted to the two fields the plugin sets. */
  datatype Filter = Filter(kinds: seq<int>, since: int)

  /**
   * The three fields of a Nostr event the handler reads, plus the kind the
   * filter selects on; `createdAt` is in Unix seconds.
   */
  datatype Event = Event(pubkey: string, content: string, createdAt: int, kind: int)

  /** NIP-01: an event passes a filter when its kind is listed and it is not older than `since`. */
  predicate Admits(f: Filter, e: Event) {
    e.kind in f.kinds && e.createdAt >= f.since
  }

  /**
   * The filter `startMonitoring` subscribes with at clock reading `nowMs`
   * (milliseconds): text notes only, from the current whole second on.
   */
  function BuildFilter(nowMs: int): (f: Filter)
    ensures f.kinds == [TEXT_NOTE_KIND]
    ensures f.since * MS_PER_SECOND <= nowMs < (f.since + 1) * MS_PER_SECOND
  {
    Filter([TEXT_NOTE_KIND], nowMs / MS_PER_SECOND)
  }

  /**
   * The filter admits exactly the text notes whose creation second has not
   * ended by the time monitoring started: the current second counts, so a
   * note from up to a second before the start is still delivered.
   */
  lemma BuildFilterAdmits(nowMs: int, e: Event)
    ensures Admits(BuildFilter(nowMs), e) <==> e.kind == TEXT_NOTE_KIND && nowMs < (e.createdAt + 1) * MS_PER_SECOND
  {
    var since := BuildFilter(nowMs).since;
    if e.createdAt >= since {
      MulMonotone(since + 1, e.createdAt + 1);
    } else {
      MulMonotone(e.createdAt + 1, since);
    }
  }

  /** A later start never asks for older events. */
  lemma BuildFilterMonotone(earlierMs: int, laterMs: int)
    requires earlierMs <= laterMs
    ensures BuildFilter(earlierMs).since <= BuildFilter(laterMs).since
  {
    var a, b := BuildFilter(earlierMs).since, BuildFilter(laterMs).since;
    if a > b {
      MulMonotone(b + 1, a);
    }
  }

  lemma MulMonotone(x: int, y: int)
    requires x <= y
    ensures x * MS_PER_SECOND <= y * MS_PER_SECOND
  {
  }

  // ---- alert text ----

  const SHORT_AUTHOR_LENGTH: nat := 6
  const PREVIEW_LENGTH: nat := 100
  const ELLIPSIS: string := "..."
  const NOTICE_HEADER: string := "\U{1F514} 新しいNostrメッセージ"
  const AUTHOR_LABEL: string := "\nAuthor: "
  const CONTENT_LABEL: string := "\nContent: "

  /** `pubkey.substring(0, 6) + '...'`. */
  function ShortAuthor(pubkey: string): (r: string)
    ensures |r| == Min(SHORT_AUTHOR_LENGTH, |pubkey|) + |ELLIPSIS|
    ensures r[..|r| - |ELLIPSIS|] == pubkey[..|r| - |ELLIPSIS|]
    ensures r[|r| - |ELLIPSIS|..] == ELLIPSIS
  {
    SubstringPrefix(pubkey, SHORT_AUTHOR_LENGTH);
    Substring(pubkey, 0, SHORT_AUTHOR_LENGTH) + ELLIPSIS
  }

  /** Two authors are shown alike exactly when their keys share the first six units. */
  lemma ShortAuthorSame(p: string, q: string)
    ensures ShortAuthor(p) == ShortAuthor(q) <==>
            p[..Min(SHORT_AUTHOR_LENGTH, |p|)] == q[..Min(SHORT_AUTHOR_LENGTH, |q|)]
  {
    var a, b := ShortAuthor(p), ShortAuthor(q);
    if a == b {
      assert a[..|a| - |ELLIPSIS|] == b[..|b| - |ELLIPSIS|];
    }
    SubstringPrefix(p, SHORT_AUTHOR_LENGTH);
    SubstringPrefix(q, SHORT_AUTHOR_LENGTH);
  }

  /** `content.substring(0, 100)` followed by `'...'` only when the content is longer than 100. */
  function Preview(content: string): (r: string)
    ensures |r| <= PREVIEW_LENGTH + |ELLIPSIS|
    ensures |content| <= PREVIEW_LENGTH ==> r == content
    ensures |content| > PREVIEW_LENGTH ==>
              |r| == PREVIEW_LENGTH + |ELLIPSIS| && r[..PREVIEW_LENGTH] == content[..PREVIEW_LENGTH]
              && r[PREVIEW_LENGTH..] == ELLIPSIS
  {
    SubstringPrefix(content, PREVIEW_LENGTH);
    Substring(content, 0, PREVIEW_LENGTH) + (if |content| > PREVIEW_LENGTH then ELLIPSIS else "")
  }

  /** The ellipsis is there exactly when content was cut off. */
  lemma PreviewCut(content: string)
    ensures |content| > PREVIEW_LENGTH <==> |Preview(content)| == PREVIEW_LENGTH + |ELLIPSIS|
  {
  }

  /** Previewing a preview changes nothing. */
  lemma PreviewIdempotent(content: string)
    ensures Preview(Preview(content)) == Preview(content)
  {
    var p := Preview(content);
    if |content| > PREVIEW_LENGTH {
      assert p == p[..PREVIEW_LENGTH] + ELLIPSIS;
      assert Preview(p) == p[..PREVIEW_LENGTH] + ELLIPSIS;
    }
  }

  /** The text of the notice raised for a matching event. */
  function NoticeText(pubkey: string, content: string): (r: string)
    ensures |r| <= |NOTICE_HEADER| + |AUTHOR_LABEL| + SHORT_AUTHOR_LENGTH + |ELLIPSIS|
                   + |CONTENT_LABEL| + PREVIEW_LENGTH + |ELLIPSIS|
  {
    NOTICE_HEADER + AUTHOR_LABEL + ShortAuthor(pubkey) + CONTENT_LABEL + Preview(content)
  }

  // ---- the event handler's decision ----

  /** A JavaScript Date holds at most 8.64e15 milliseconds either side of the epoch. */
  const MAX_DATE_MS: int := 8_640_000_000_000_000

  /** `new Date(ms).toISOString()` succeeds exactly when `ms` is a valid Date. */
  predicate IsDateMs(ms: int) {
    -MAX_DATE_MS <= ms <= MAX_DATE_MS
  }

  /** The detection record written to the console (the timestamp before ISO formatting). */
  datatype LogRecord = LogRecord(author: string, content: string, timestampMs: int)

  /** The errors the handler's `try` catches. */
  datatype HandlerFault = TestFault | DateRangeFault

  /** What handling one event produces, in this order: a notice, a console record, a caught fault. */
  datatype HandlerOutput = HandlerOutput(notice: Option<string>, record: Option<LogRecord>, fault: Option<HandlerFault>)

  /**
   * `handleNostrEvent`. The pattern is tested against the content; only a
   * match raises a notice and writes a record. Formatting the timestamp can
   * throw after the notice is already up, and then the record is missing.
   * Whatever throws is caught: the handler always returns.
   */
  function HandleEvent(engine: RegexEngine, pattern: Pattern, e: Event): (out: HandlerOutput)
    ensures out.notice.Some? <==> engine.test(pattern, e.content) == Match
    ensures out.notice.Some? ==> out.notice.value == NoticeText(e.pubkey, e.content)
    ensures out.record.Some? <==> engine.test(pattern, e.content) == Match && IsDateMs(e.createdAt * MS_PER_SECOND)
    ensures out.record.Some? ==> out.record.value == LogRecord(e.pubkey, e.content, e.createdAt * MS_PER_SECOND)
    ensures out.fault == Some(TestFault) <==> engine.test(pattern, e.content) == Throws
    ensures out.fault == Some(DateRangeFault) <==> out.notice.Some? && out.record.None?
  {
    match engine.test(pattern, e.content)
    case Throws => HandlerOutput(None, None, Some(TestFault))
    case NoMatch => HandlerOutput(None, None, None)
    case Match =>
      var notice := Some(NoticeText(e.pubkey, e.content));
      var ms := e.createdAt * MS_PER_SECOND;
      if IsDateMs(ms) then HandlerOutput(notice, Some(LogRecord(e.pubkey, e.content, ms)), None)
      else HandlerOutput(notice, None, Some(DateRangeFault))
  }
}
