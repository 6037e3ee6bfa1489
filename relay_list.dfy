/**
 * The relay list as the settings tab edits it: one relay URL per line of a
 * text area. Typing in the area turns its text into the list by splitting on
 * line feeds, trimming every line and dropping the lines left empty; the area
 * is filled from the list by joining it with line feeds.
 */
module RelayList {
  import opened JsString

  const LINE_SEPARATOR: char := '\n'

  /** What every parsed entry looks like: non-empty, trimmed, a single line. */
  predicate IsRelayEntry(r: string) {
    r != "" && IsTrimmed(r) && LINE_SEPARATOR !in r
  }

  predicate AllRelayEntries(relays: seq<string>) {
    forall i :: 0 <= i < |relays| ==> IsRelayEntry(relays[i])
  }

  /** `lines.map(relay => relay.trim())`. */
  function TrimEach(lines: seq<string>): (r: seq<string>)
    ensures |r| == |lines|
    ensures forall i :: 0 <= i < |lines| ==> r[i] == Trim(lines[i])
  {
    if lines == [] then [] else [Trim(lines[0])] + TrimEach(lines[1..])
  }

  /** `entries.filter(relay => relay.length > 0)`. */
  function DropEmpty(entries: seq<string>): (r: seq<string>)
    ensures |r| <= |entries|
    ensures forall i :: 0 <= i < |r| ==> r[i] != ""
    ensures forall x :: x in r <==> x in entries && x != ""
  {
    if entries == [] then []
    else (if entries[0] == "" then [] else [entries[0]]) + DropEmpty(entries[1..])
  }

  /** The relay list the text of the relay text area stands for. */
  function ParseRelays(value: string): seq<string>
  {
    DropEmpty(TrimEach(Split(value, LINE_SEPARATOR)))
  }

  /** Every parsed relay is non-empty, trimmed and a single line. */
  lemma ParseRelaysWellFormed(value: string)
    ensures AllRelayEntries(ParseRelays(value))
  {
    TrimEachOfSingleLines(Split(value, LINE_SEPARATOR));
    DropEmptyOfSingleLines(TrimEach(Split(value, LINE_SEPARATOR)));
  }

  /** The text the relay text area is filled with. */
  function ShowRelays(relays: seq<string>): string {
    Join(relays, LINE_SEPARATOR)
  }

  // ---- building blocks ----

  lemma {:induction false} TrimEachAppend(a: seq<string>, b: seq<string>)
    ensures TrimEach(a + b) == TrimEach(a) + TrimEach(b)
  {
    if a != [] {
      assert (a + b)[1..] == a[1..] + b;
      TrimEachAppend(a[1..], b);
    } else {
      assert a + b == b;
    }
  }

  lemma {:induction false} DropEmptyAppend(a: seq<string>, b: seq<string>)
    ensures DropEmpty(a + b) == DropEmpty(a) + DropEmpty(b)
  {
    if a != [] {
      assert (a + b)[0] == a[0] && (a + b)[1..] == a[1..] + b;
      DropEmptyAppend(a[1..], b);
      assert DropEmpty(a + b) == (if a[0] == "" then [] else [a[0]]) + DropEmpty(a[1..] + b);
    } else {
      assert a + b == b;
    }
  }

  /** Trimming single lines gives trimmed single lines. */
  lemma TrimEachOfSingleLines(lines: seq<string>)
    requires forall i :: 0 <= i < |lines| ==> LINE_SEPARATOR !in lines[i]
    ensures forall i :: 0 <= i < |lines| ==>
              IsTrimmed(TrimEach(lines)[i]) && LINE_SEPARATOR !in TrimEach(lines)[i]
  {
    forall i | 0 <= i < |lines|
      ensures IsTrimmed(TrimEach(lines)[i]) && LINE_SEPARATOR !in TrimEach(lines)[i]
    {
      assert TrimEach(lines)[i] == Trim(lines[i]);
    }
  }

  /** Dropping the empty entries of trimmed single lines leaves relay entries only. */
  lemma {:induction false} DropEmptyOfSingleLines(entries: seq<string>)
    requires forall i :: 0 <= i < |entries| ==> IsTrimmed(entries[i]) && LINE_SEPARATOR !in entries[i]
    ensures AllRelayEntries(DropEmpty(entries))
  {
    if entries != [] {
      DropEmptyOfSingleLines(entries[1..]);
    }
  }

  lemma {:induction false} DropEmptyKeepsNonEmpty(entries: seq<string>)
    requires forall i :: 0 <= i < |entries| ==> entries[i] != ""
    ensures DropEmpty(entries) == entries
  {
    if entries != [] {
      DropEmptyKeepsNonEmpty(entries[1..]);
    }
  }

  // ---- what parsing does, line by line ----

  /** A single line contributes its trimmed text, or nothing when it is blank. */
  lemma ParseSingleLine(line: string)
    requires LINE_SEPARATOR !in line
    ensures ParseRelays(line) == if Trim(line) == "" then [] else [Trim(line)]
  {
    SplitNoSeparator(line, LINE_SEPARATOR);
  }

  /**
   * Parsing respects line boundaries: the entries of two blocks of text joined
   * by a line feed are the entries of the first block followed by those of the
   * second. With ParseSingleLine this says that the list holds the non-blank
   * lines, trimmed, in the order they were typed.
   */
  lemma ParseAtLineBreak(a: string, b: string)
    ensures ParseRelays(a + [LINE_SEPARATOR] + b) == ParseRelays(a) + ParseRelays(b)
  {
    SplitAtSeparator(a, b, LINE_SEPARATOR);
    TrimEachAppend(Split(a, LINE_SEPARATOR), Split(b, LINE_SEPARATOR));
    DropEmptyAppend(TrimEach(Split(a, LINE_SEPARATOR)), TrimEach(Split(b, LINE_SEPARATOR)));
  }

  /**
   * The list comes out empty exactly when the text is blank: nothing forces a
   * relay list to be non-empty.
   */
  lemma {:induction false} ParseEmptyIffBlank(value: string)
    ensures ParseRelays(value) == [] <==> IsBlank(value)
    decreases |value|
  {
    if LINE_SEPARATOR !in value {
      ParseSingleLine(value);
    } else {
      var k :| 0 <= k < |value| && value[k] == LINE_SEPARATOR;
      var a, b := value[..k], value[k + 1..];
      assert value == a + [LINE_SEPARATOR] + b;
      ParseAtLineBreak(a, b);
      ParseEmptyIffBlank(a);
      ParseEmptyIffBlank(b);
      BlankAround(a, LINE_SEPARATOR, b);
    }
  }

  /**
   * Showing a list and parsing the text back gives the same list exactly when
   * every entry is non-empty, trimmed and a single line.
   */
  lemma ShowParseRoundTrip(relays: seq<string>)
    ensures ParseRelays(ShowRelays(relays)) == relays <==> AllRelayEntries(relays)
  {
    ParseRelaysWellFormed(ShowRelays(relays));
    if AllRelayEntries(relays) {
      ParseShowEntries(relays);
    }
  }

  lemma ParseShowEntries(relays: seq<string>)
    requires AllRelayEntries(relays)
    ensures ParseRelays(ShowRelays(relays)) == relays
  {
    if relays == [] {
      assert TrimEach([""]) == [""];
    } else {
      SplitJoin(relays, LINE_SEPARATOR);
      TrimEachOfTrimmed(relays);
      DropEmptyKeepsNonEmpty(relays);
    }
  }

  lemma TrimEachOfTrimmed(entries: seq<string>)
    requires forall i :: 0 <= i < |entries| ==> IsTrimmed(entries[i])
    ensures TrimEach(entries) == entries
  {
    forall i | 0 <= i < |entries| ensures Trim(entries[i]) == entries[i] {
      TrimFixedPoint(entries[i]);
    }
  }

  /** Parsing the shown form of a parsed list changes nothing. */
  lemma ParseIdempotent(value: string)
    ensures ParseRelays(ShowRelays(ParseRelays(value))) == ParseRelays(value)
  {
    ParseRelaysWellFormed(value);
    ShowParseRoundTrip(ParseRelays(value));
  }
}
