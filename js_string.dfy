/**
 * The JavaScript String built-ins the plugin relies on: `split` on a
 * one-character separator, `Array.prototype.join`, `trim` and `substring`.
 * A Dafny `string` stands for a JavaScript string: one `char` per character,
 * standing in for JavaScript's UTF-16 code units.
 */
module JsString {

  /** The characters `String.prototype.trim` removes: ECMAScript WhiteSpace and LineTerminator. */
  predicate IsWhitespace(c: char) {
    || ('\t' <= c <= '\r')           // tab, line feed, vertical tab, form feed, carriage return
    || c == ' ' || c == '\U{00A0}' || c == '\U{1680}'
    || ('\U{2000}' <= c <= '\U{200A}')
    || c == '\U{2028}' || c == '\U{2029}'
    || c == '\U{202F}' || c == '\U{205F}' || c == '\U{3000}' || c == '\U{FEFF}'
  }

  /** A string with no whitespace at either end: what `trim` leaves behind. */
  predicate IsTrimmed(s: string) {
    s == [] || (!IsWhitespace(s[0]) && !IsWhitespace(s[|s| - 1]))
  }

  /** A string made of whitespace only (the empty string included). */
  predicate IsBlank(s: string) {
    forall k :: 0 <= k < |s| ==> IsWhitespace(s[k])
  }

  /** `s` is `r` at position `i` with only whitespace before and after it. */
  predicate IsPaddedAt(s: string, i: int, r: string) {
    && 0 <= i <= |s| - |r|
    && r == s[i..i + |r|]
    && (forall k :: 0 <= k < i ==> IsWhitespace(s[k]))
    && (forall k :: i + |r| <= k < |s| ==> IsWhitespace(s[k]))
  }

  /** `s.split(sep)`: the maximal separator-free pieces, always at least one (`"".split(sep)` is `[""]`). */
  function Split(s: string, sep: char): (parts: seq<string>)
    ensures |parts| >= 1
    ensures forall i :: 0 <= i < |parts| ==> sep !in parts[i]
    decreases |s|
  {
    if |s| == 0 then [""]
    else
      var rest := Split(s[1..], sep);
      if s[0] == sep then [""] + rest
      else [[s[0]] + rest[0]] + rest[1..]
  }

  /** `parts.join(sep)`: the pieces with one separator between neighbours; `[].join(sep)` is `""`. */
  function Join(parts: seq<string>, sep: char): string
  {
    if |parts| == 0 then ""
    else if |parts| == 1 then parts[0]
    else parts[0] + [sep] + Join(parts[1..], sep)
  }

  /** Removes the leading whitespace, and only that. */
  function TrimStart(s: string): (r: string)
    ensures |r| <= |s| && r == s[|s| - |r|..]
    ensures forall k :: 0 <= k < |s| - |r| ==> IsWhitespace(s[k])
    ensures r == [] || !IsWhitespace(r[0])
  {
    if |s| > 0 && IsWhitespace(s[0]) then TrimStart(s[1..]) else s
  }

  /** Removes the trailing whitespace, and only that. */
  function TrimEnd(s: string): (r: string)
    ensures |r| <= |s| && r == s[..|r|]
    ensures forall k :: |r| <= k < |s| ==> IsWhitespace(s[k])
    ensures r == [] || !IsWhitespace(r[|r| - 1])
  {
    if |s| > 0 && IsWhitespace(s[|s| - 1]) then TrimEnd(s[..|s| - 1]) else s
  }

  /**
   * `s.trim()`: the input with its leading and trailing whitespace cut off,
   * leaving no whitespace at either end.
   */
  function Trim(s: string): (r: string)
    ensures IsTrimmed(r)
    ensures exists i :: IsPaddedAt(s, i, r)
    ensures forall c :: c in r ==> c in s
    ensures r == [] <==> IsBlank(s)
  {
    TrimEnds(s);
    TrimSlice(s);
    PaddedChars(s, |s| - |TrimStart(s)|, TrimEnd(TrimStart(s)));
    TrimOfBlank(s);
    TrimEnd(TrimStart(s))
  }

  lemma TrimEnds(s: string)
    ensures IsTrimmed(TrimEnd(TrimStart(s)))
  {
    var t := TrimStart(s);
    var r := TrimEnd(t);
    if r != [] {
      assert r[0] == t[..|r|][0] == t[0];
    }
  }

  lemma TrimSlice(s: string)
    ensures IsPaddedAt(s, |s| - |TrimStart(s)|, TrimEnd(TrimStart(s)))
  {
    var t := TrimStart(s);
    PaddedInside(s, |s| - |t|, t, TrimEnd(t));
  }

  /** Cutting blank ends off one after the other leaves a string padded by blanks. */
  lemma PaddedInside(s: string, lo: nat, t: string, r: string)
    requires lo <= |s| && t == s[lo..] && |r| <= |t| && r == t[..|r|]
    requires forall k :: 0 <= k < lo ==> IsWhitespace(s[k])
    requires forall k :: |r| <= k < |t| ==> IsWhitespace(t[k])
    ensures IsPaddedAt(s, lo, r)
  {
    forall k | lo + |r| <= k < |s| ensures IsWhitespace(s[k]) {
      assert s[k] == t[k - lo];
    }
  }

  /** A string padded around `r` holds every character of `r`. */
  lemma PaddedChars(s: string, i: int, r: string)
    requires IsPaddedAt(s, i, r)
    ensures forall c :: c in r ==> c in s
  {
    forall c | c in r ensures c in s {
      var j :| 0 <= j < |r| && r[j] == c;
      assert s[i + j] == c;
    }
  }

  lemma TrimOfBlank(s: string)
    ensures TrimEnd(TrimStart(s)) == [] <==> IsBlank(s)
  {
    var t := TrimStart(s);
    // trailing whitespace cannot take everything from a string that starts with a non-blank
    assert TrimEnd(t) == [] ==> t == [];
  }

  /** `s.substring(start, end)`: both bounds clamped to `[0, |s|]`, swapped when `start > end`. */
  function Substring(s: string, start: int, end: int): (r: string)
    ensures |r| <= |s|
  {
    var a := Clamp(start, |s|);
    var b := Clamp(end, |s|);
    if a <= b then s[a..b] else s[b..a]
  }

  function Clamp(x: int, hi: nat): (r: nat)
    ensures r <= hi
  {
    if x < 0 then 0 else if x > hi then hi else x
  }

  function Min(a: int, b: int): int {
    if a <= b then a else b
  }

  /** A leading `substring(0, n)` keeps the first `min(n, |s|)` units. */
  lemma SubstringPrefix(s: string, n: nat)
    ensures Substring(s, 0, n) == s[..Min(n, |s|)]
  {
  }

  // ---- split and join are inverse to each other ----

  /** Joining the pieces of a split gives back the original string. */
  lemma {:induction false} JoinSplit(s: string, sep: char)
    ensures Join(Split(s, sep), sep) == s
    decreases |s|
  {
    if |s| > 0 {
      var rest := Split(s[1..], sep);
      JoinSplit(s[1..], sep);
      JoinHead(rest, sep);
      var tail := if |rest| == 1 then "" else [sep] + Join(rest[1..], sep);
      assert s[1..] == rest[0] + tail;
      var parts := Split(s, sep);
      if s[0] == sep {
        assert parts == [""] + rest && parts[1..] == rest;
        JoinHead(parts, sep);
      } else {
        assert parts == [[s[0]] + rest[0]] + rest[1..] && parts[1..] == rest[1..];
        JoinHead(parts, sep);
        assert Join(parts, sep) == [s[0]] + (rest[0] + tail);
      }
      assert s == [s[0]] + s[1..];
    }
  }

  /** `Join` of a non-empty list: the first piece, then the rest joined behind one separator. */
  lemma JoinHead(parts: seq<string>, sep: char)
    requires |parts| >= 1
    ensures Join(parts, sep) == parts[0] + (if |parts| == 1 then "" else [sep] + Join(parts[1..], sep))
  {
  }

  /** A string with no separator splits into itself alone. */
  lemma {:induction false} SplitNoSeparator(s: string, sep: char)
    requires sep !in s
    ensures Split(s, sep) == [s]
    decreases |s|
  {
    if |s| > 0 {
      SplitNoSeparator(s[1..], sep);
      assert s == [s[0]] + s[1..];
    }
  }

  /** Splitting at a separator splits the two sides independently. */
  lemma {:induction false} SplitAtSeparator(a: string, b: string, sep: char)
    ensures Split(a + [sep] + b, sep) == Split(a, sep) + Split(b, sep)
    decreases |a|
  {
    var s := a + [sep] + b;
    if |a| == 0 {
      assert s[0] == sep && s[1..] == b;
    } else {
      assert s[0] == a[0] && s[1..] == a[1..] + [sep] + b;
      var ra, rb := Split(a[1..], sep), Split(b, sep);
      var rest := ra + rb;
      assert Split(s[1..], sep) == rest by {
        SplitAtSeparator(a[1..], b, sep);
      }
      if a[0] != sep {
        assert rest[0] == ra[0] && rest[1..] == ra[1..] + rb;
        assert Split(s, sep) == [[a[0]] + rest[0]] + rest[1..];
        assert Split(a, sep) == [[a[0]] + ra[0]] + ra[1..];
      }
    }
  }

  /** Splitting the join of separator-free pieces gives back the pieces. */
  lemma {:induction false} SplitJoin(parts: seq<string>, sep: char)
    requires |parts| >= 1
    requires forall i :: 0 <= i < |parts| ==> sep !in parts[i]
    ensures Split(Join(parts, sep), sep) == parts
  {
    if |parts| == 1 {
      SplitNoSeparator(parts[0], sep);
    } else {
      var rest := Join(parts[1..], sep);
      assert Join(parts, sep) == parts[0] + [sep] + rest;
      assert Split(parts[0], sep) == [parts[0]] by {
        SplitNoSeparator(parts[0], sep);
      }
      assert Split(rest, sep) == parts[1..] by {
        SplitJoin(parts[1..], sep);
      }
      SplitAtSeparator(parts[0], rest, sep);
      assert parts == [parts[0]] + parts[1..];
    }
  }

  // ---- trim ----

  /** A string cut at a whitespace character is blank exactly when both sides are. */
  lemma BlankAround(a: string, c: char, b: string)
    requires IsWhitespace(c)
    ensures IsBlank(a + [c] + b) <==> IsBlank(a) && IsBlank(b)
  {
    var s := a + [c] + b;
    assert forall j :: 0 <= j < |a| ==> a[j] == s[j];
    assert forall j :: 0 <= j < |b| ==> b[j] == s[|a| + 1 + j];
  }

  /** `trim` changes a string exactly when there is whitespace at one of its ends. */
  lemma TrimFixedPoint(s: string)
    ensures Trim(s) == s <==> IsTrimmed(s)
  {
    if IsTrimmed(s) && s != [] {
      assert TrimStart(s) == s;
      assert TrimEnd(s) == s;
    }
  }
}
