/**
 Dotted configuration keys such as `mentor.model` or `pricing."my.model".input`:
 the reader, the printer, and the exact sense in which they are inverse.
 */
module KeyPath {
  import opened Common

  datatype BadKey = EmptyKey | UnterminatedQuote | TextAfterQuote | EmptySegment | QuoteInside | Whitespace

  type Parse = Result<seq<string>, BadKey>

  /** Unicode's White_Space property. */
  predicate IsWhitespace(c: char) {
    || '\U{0009}' <= c <= '\U{000D}' || c == ' ' || c == '\U{0085}' || c == '\U{00A0}' || c == '\U{1680}'
    || '\U{2000}' <= c <= '\U{200A}' || c == '\U{2028}' || c == '\U{2029}' || c == '\U{202F}'
    || c == '\U{205F}' || c == '\U{3000}'
  }

  predicate Plain(c: char) {
    c != '.' && c != '"' && !IsWhitespace(c)
  }

  predicate QuoteFree(segment: string) {
    '"' !in segment
  }

  predicate AllQuoteFree(segments: seq<string>) {
    forall i | 0 <= i < |segments| :: QuoteFree(segments[i])
  }

  // ------------------------------------------------------------ what a key means

  /** How many plain characters `s` starts with. */
  function BareEnd(s: string): (n: nat)
    ensures n <= |s|
    ensures forall i | 0 <= i < n :: Plain(s[i])
    ensures n < |s| ==> !Plain(s[n])
  {
    if s == "" || !Plain(s[0]) then 0 else 1 + BareEnd(s[1..])
  }

  /** The position of the first quote of `s`, or its length. */
  function QuoteEnd(s: string): (n: nat)
    ensures n <= |s|
    ensures forall i | 0 <= i < n :: s[i] != '"'
    ensures n < |s| ==> s[n] == '"'
  {
    if s == "" || s[0] == '"' then 0 else 1 + QuoteEnd(s[1..])
  }

  function Prepend(segments: seq<string>, rest: Parse): Parse {
    match rest
    case Ok(more) => Ok(segments + more)
    case Err(_) => rest
  }

  /** Segment by segment; the first fault from the left decides the error. */
  function Segments(s: string): Parse
    decreases |s|
  {
    if s != "" && s[0] == '"' then
      var n := QuoteEnd(s[1..]);
      if n == |s| - 1 then Err(UnterminatedQuote) else AfterSegment(s[1..n + 1], s[n + 2..])
    else
      var n := BareEnd(s);
      if n < |s| && s[n] == '"' then Err(QuoteInside)
      else if n < |s| && IsWhitespace(s[n]) then Err(Whitespace)
      else if n == 0 then Err(EmptySegment)
      else AfterSegment(s[..n], s[n..])
  }

  function AfterSegment(segment: string, rest: string): Parse
    decreases |rest|
  {
    if rest == "" then Ok([segment])
    else if rest[0] == '.' then Prepend([segment], Segments(rest[1..]))
    else Err(TextAfterQuote)
  }

  function Parsed(key: string): Parse {
    if key == "" then Err(EmptyKey) else Segments(key)
  }

  // ------------------------------------------------------------ the character loop

  lemma {:induction false} BareRuns(s: string, k: nat)
    requires k <= |s| && forall i | 0 <= i < k :: Plain(s[i])
    ensures BareEnd(s) >= k
    ensures k < |s| && !Plain(s[k]) ==> BareEnd(s) == k
    ensures k == |s| ==> BareEnd(s) == k
  {}

  lemma {:induction false} PrependTwice(a: seq<string>, b: string, r: Parse)
    ensures Prepend(a, Prepend([b], r)) == Prepend(a + [b], r)
  {
    if r.Ok? {
      assert a + ([b] + r.value) == (a + [b]) + r.value;
    }
  }

  /** Where a segment ends, from the segment's own first character at `start`. */
  lemma {:induction false} BareSegment(key: string, start: nat, i: nat)
    requires start <= i <= |key| && forall k | start <= k < i :: Plain(key[k])
    requires i < |key| ==> !Plain(key[i])
    requires start == i < |key| ==> key[i] != '"'
    ensures Segments(key[start..]) ==
            if i < |key| && key[i] == '"' then Err(QuoteInside)
            else if i < |key| && IsWhitespace(key[i]) then Err(Whitespace)
            else if i == start then Err(EmptySegment)
            else AfterSegment(key[start..i], key[i..])
  {
    var s := key[start..];
    BareRuns(s, i - start);
    assert s[..i - start] == key[start..i] && s[i - start..] == key[i..];
    assert i < |key| ==> s[i - start] == key[i];
  }

  lemma {:induction false} QuoteRuns(s: string, k: nat)
    requires k <= |s| && forall i | 0 <= i < k :: s[i] != '"'
    requires k < |s| ==> s[k] == '"'
    ensures QuoteEnd(s) == k
  {}

  lemma {:induction false} QuotedSegment(key: string, start: nat, close: nat)
    requires start < close <= |key| && key[start] == '"'
    requires forall k | start < k < close :: key[k] != '"'
    requires close < |key| ==> key[close] == '"'
    ensures Segments(key[start..]) ==
            if close == |key| then Err(UnterminatedQuote) else AfterSegment(key[start + 1..close], key[close + 1..])
  {
    var s := key[start..];
    assert s[1..] == key[start + 1..];
    QuoteRuns(s[1..], close - start - 1);
    if close < |key| {
      assert s[1..close - start] == key[start + 1..close] && s[close - start + 1..] == key[close + 1..];
    }
  }

  /** Where the loop stands: `segments` are read, the one being read starts at `start`. */
  ghost predicate Reading(key: string, segments: seq<string>, start: nat, current: string, quoted: bool, i: nat) {
    && start <= i <= |key|
    && if quoted then
         && (i == |key| || key[i] == '.')
         && Parsed(key) == Prepend(segments, AfterSegment(current, key[i..]))
       else
         && current == key[start..i]
         && (forall k | start <= k < i :: Plain(key[k]))
         && Parsed(key) == Prepend(segments, Segments(key[start..]))
  }

  lemma {:induction false} ReadingStarts(key: string)
    requires key != ""
    ensures Reading(key, [], 0, "", false, 0)
  {
    assert key[0..] == key;
    var r := Segments(key);
    if r.Ok? {
      assert [] + r.value == r.value;
    }
  }

  /** A bare segment ends at a fault, at a dot or with the key. */
  lemma {:induction false} BareStops(key: string, segments: seq<string>, start: nat, current: string, i: nat)
    requires Reading(key, segments, start, current, false, i)
    requires i < |key| ==> !Plain(key[i]) && (current == "" ==> key[i] != '"')
    ensures i < |key| && key[i] == '"' ==> Parsed(key) == Err(QuoteInside)
    ensures i < |key| && IsWhitespace(key[i]) ==> Parsed(key) == Err(Whitespace)
    ensures i == |key| || key[i] == '.' ==>
              Parsed(key) == if current == "" then Err(EmptySegment) else Prepend(segments, AfterSegment(current, key[i..]))
  {
    BareSegment(key, start, i);
  }

  /** A quoted segment is over at its second quote, and a dot or the end must follow. */
  lemma {:induction false} QuoteStops(key: string, segments: seq<string>, start: nat, current: string, close: nat)
    requires Reading(key, segments, start, "", false, start)
    requires start < close <= |key| && key[start] == '"' && current == key[start + 1..close]
    requires forall k | start < k < close :: key[k] != '"'
    requires close < |key| ==> key[close] == '"'
    ensures close == |key| ==> Parsed(key) == Err(UnterminatedQuote)
    ensures close + 1 < |key| && key[close + 1] != '.' ==> Parsed(key) == Err(TextAfterQuote)
    ensures close < |key| && (close + 1 == |key| || key[close + 1] == '.') ==>
              Reading(key, segments, start, current, true, close + 1)
  {
    QuotedSegment(key, start, close);
  }

  lemma {:induction false} PlainMoves(key: string, segments: seq<string>, start: nat, current: string, i: nat)
    requires Reading(key, segments, start, current, false, i) && i < |key| && Plain(key[i])
    ensures Reading(key, segments, start, current + [key[i]], false, i + 1)
  {}

  lemma {:induction false} ReadingEnds(key: string, segments: seq<string>, start: nat, current: string, quoted: bool)
    requires Reading(key, segments, start, current, quoted, |key|)
    ensures Parsed(key) == if current == "" && !quoted then Err(EmptySegment) else Ok(segments + [current])
  {
    if !quoted {
      BareStops(key, segments, start, current, |key|);
    }
  }

  lemma {:induction false} DotMoves(key: string, segments: seq<string>, start: nat, current: string, quoted: bool, i: nat)
    requires Reading(key, segments, start, current, quoted, i)
    requires i < |key| && key[i] == '.' && (current != "" || quoted)
    ensures Reading(key, segments + [current], i + 1, "", false, i + 1)
  {
    if !quoted {
      BareStops(key, segments, start, current, i);
    }
    assert key[i..][1..] == key[i + 1..];
    PrependTwice(segments, current, Segments(key[i + 1..]));
  }

  /** The text up to the closing quote, and where that is. */
  method ReadQuoted(key: string, from: nat) returns (text: string, i: nat)
    requires from <= |key|
    ensures from <= i <= |key| && text == key[from..i]
    ensures forall k | from <= k < i :: key[k] != '"'
    ensures i < |key| ==> key[i] == '"'
  {
    text, i := "", from;
    while i < |key| && key[i] != '"'
      invariant from <= i <= |key| && text == key[from..i]
      invariant forall k | from <= k < i :: key[k] != '"'
    {
      text := text + [key[i]];
      i := i + 1;
    }
  }

  method ReadKey(key: string) returns (r: Parse)
    ensures r == Parsed(key)
  {
    if key == "" {
      return Err(EmptyKey);
    }
    var segments: seq<string> := [];
    var current := "";
    var quoted := false;
    var i := 0;
    ghost var start := 0;
    ReadingStarts(key);
    hide Segments, Parsed;
    while i < |key|
      invariant Reading(key, segments, start, current, quoted, i)
    {
      var c := key[i];
      if c == '"' && current == "" && !quoted {
        quoted := true;
        i := i + 1;
        current, i := ReadQuoted(key, i);
        QuoteStops(key, segments, start, current, i);
        if i == |key| {
          return Err(UnterminatedQuote);
        }
        i := i + 1;
        if i < |key| && key[i] != '.' {
          return Err(TextAfterQuote);
        }
      } else if c == '.' {
        if current == "" && !quoted {
          BareStops(key, segments, start, current, i);
          return Err(EmptySegment);
        }
        DotMoves(key, segments, start, current, quoted, i);
        i := i + 1;
        segments, current, quoted, start := segments + [current], "", false, i;
      } else if c == '"' {
        BareStops(key, segments, start, current, i);
        return Err(QuoteInside);
      } else if IsWhitespace(c) {
        BareStops(key, segments, start, current, i);
        return Err(Whitespace);
      } else {
        PlainMoves(key, segments, start, current, i);
        current := current + [c];
        i := i + 1;
      }
    }
    ReadingEnds(key, segments, start, current, quoted);
    if current == "" && !quoted {
      return Err(EmptySegment);
    }
    return Ok(segments + [current]);
  }

  // ------------------------------------------------------------ the printer

  predicate NeedsQuotes(segment: string) {
    segment == "" || exists i | 0 <= i < |segment| :: !Plain(segment[i])
  }

  function Quoted(segment: string): string {
    "\"" + segment + "\""
  }

  function Shown(segment: string): string {
    if NeedsQuotes(segment) then Quoted(segment) else segment
  }

  function Formatted(segments: seq<string>): string {
    if segments == [] then "" else Shown(segments[0]) + Dotted(segments[1..])
  }

  function Dotted(segments: seq<string>): string {
    if segments == [] then "" else "." + (Shown(segments[0]) + Dotted(segments[1..]))
  }

  function Separator(i: nat): string {
    if i > 0 then "." else ""
  }

  /** What is still to be printed before segment `i`. */
  function Remaining(segments: seq<string>, i: nat): string
    requires i <= |segments|
  {
    if i == 0 then Formatted(segments) else Dotted(segments[i..])
  }

  lemma {:induction false} NextSegment(segments: seq<string>, i: nat)
    requires i < |segments|
    ensures Remaining(segments, i) == Separator(i) + (Shown(segments[i]) + Remaining(segments, i + 1))
  {
    assert segments[i..][1..] == segments[i + 1..];
    if i == 0 {
      assert Separator(i) + Formatted(segments) == Formatted(segments);
    }
  }

  lemma {:induction false} Regroup(out: string, a: string, b: string, c: string)
    ensures out + (a + (b + c)) == out + a + b + c
  {}

  method FormatKey(segments: seq<string>) returns (out: string)
    ensures out == Formatted(segments)
  {
    out := "";
    assert "" + Formatted(segments) == Formatted(segments);
    for i := 0 to |segments|
      invariant out + Remaining(segments, i) == Formatted(segments)
    {
      NextSegment(segments, i);
      Regroup(out, Separator(i), Shown(segments[i]), Remaining(segments, i + 1));
      out := out + Separator(i);
      if NeedsQuotes(segments[i]) {
        out := out + Quoted(segments[i]);
      } else {
        out := out + segments[i];
      }
    }
  }

  // ------------------------------------------------------------ reading and printing are inverse

  predicate PieceOf(piece: string, segment: string) {
    QuoteFree(segment) && (piece == Quoted(segment) || (piece == segment && !NeedsQuotes(segment)))
  }

  lemma {:induction false} PieceReads(piece: string, segment: string, rest: string)
    requires PieceOf(piece, segment)
    requires rest == "" || rest[0] == '.'
    ensures Segments(piece + rest) == AfterSegment(segment, rest)
  {
    var key := piece + rest;
    assert key[0..] == key;
    if piece == Quoted(segment) {
      QuotedParts(segment, rest);
      QuotedSegment(key, 0, |segment| + 1);
    } else {
      BareSegment(key, 0, |segment|);
      assert key[0..|segment|] == segment && key[|segment|..] == rest;
    }
  }

  lemma {:induction false} DottedReads(segment: string, more: seq<string>)
    requires QuoteFree(segment) && AllQuoteFree(more)
    ensures Segments(Shown(segment) + Dotted(more)) == Ok([segment] + more)
    decreases more
  {
    PieceReads(Shown(segment), segment, Dotted(more));
    if more == [] {
      assert [segment] + more == [segment];
    } else {
      assert Dotted(more)[1..] == Shown(more[0]) + Dotted(more[1..]);
      DottedReads(more[0], more[1..]);
      assert [more[0]] + more[1..] == more;
    }
  }

  /** Reading never yields a quote, nor no segments at all. */
  lemma {:induction false} SegmentsAreQuoteFree(s: string)
    requires Segments(s).Ok?
    ensures Segments(s).value != [] && AllQuoteFree(Segments(s).value)
    decreases |s|
  {
    var n := if s != "" && s[0] == '"' then QuoteEnd(s[1..]) + 2 else BareEnd(s);
    if n < |s| {
      SegmentsAreQuoteFree(s[n..][1..]);
    }
  }

  /** A path survives printing and reading exactly when it has a segment and none holds a quote. */
  lemma RoundTripIff(segments: seq<string>)
    ensures Parsed(Formatted(segments)) == Ok(segments) <==> segments != [] && AllQuoteFree(segments)
  {
    if segments != [] && AllQuoteFree(segments) {
      DottedReads(segments[0], segments[1..]);
      assert [segments[0]] + segments[1..] == segments;
    } else if Parsed(Formatted(segments)) == Ok(segments) {
      SegmentsAreQuoteFree(Formatted(segments));
    }
  }

  /** Two readable paths never print alike. */
  lemma FormatIsInjective(a: seq<string>, b: seq<string>)
    requires a != [] && AllQuoteFree(a) && b != [] && AllQuoteFree(b)
    requires Formatted(a) == Formatted(b)
    ensures a == b
  {
    RoundTripIff(a);
    RoundTripIff(b);
  }

  /** With quotes allowed, any two quoted segments print like the single segment that contains their seam. */
  lemma QuotesCollide(a: string, b: string)
    requires NeedsQuotes(a) && NeedsQuotes(b)
    ensures Formatted([a, b]) == Formatted([a + "\".\"" + b])
  {
    var whole := a + "\".\"" + b;
    assert whole[|a|] == '"';
    assert Quoted(whole) == Quoted(a) + ("." + Quoted(b));
    PrintsOne(whole);
    PrintsTwo(a, b);
  }

  lemma {:induction false} PrintsOne(a: string)
    ensures Formatted([a]) == Shown(a)
  {
    assert Dotted([a][1..]) == "";
  }

  lemma {:induction false} PrintsTwo(a: string, b: string)
    ensures Formatted([a, b]) == Shown(a) + ("." + Shown(b))
  {
    assert [a, b][1..] == [b];
    PrintsOne(b);
  }

  /** Printing what was read gives one spelling per path, and reading that changes nothing. */
  lemma Canonical(key: string)
    requires Parsed(key).Ok?
    ensures Parsed(Formatted(Parsed(key).value)) == Parsed(key)
  {
    SegmentsAreQuoteFree(key);
    RoundTripIff(Parsed(key).value);
  }

  // ------------------------------------------------------------ the language of keys

  /** `key` spells the path: segments joined by dots, each in quotes, or bare where that is allowed. */
  predicate Spells(key: string, path: seq<string>)
    decreases |path|, 0
  {
    && path != []
    && (SpellsWith(Quoted(path[0]), key, path) || SpellsWith(path[0], key, path))
  }

  predicate SpellsWith(piece: string, key: string, path: seq<string>)
    requires path != []
    decreases |path| - 1, 1
  {
    && PieceOf(piece, path[0])
    && piece <= key
    && if |path| == 1 then key == piece
       else |piece| < |key| && key[|piece|] == '.' && Spells(key[|piece| + 1..], path[1..])
  }

  lemma {:induction false} SpellingReads(piece: string, key: string, path: seq<string>)
    requires path != [] && SpellsWith(piece, key, path)
    ensures Segments(key) == Ok(path)
    decreases |path|
  {
    var rest := key[|piece|..];
    assert key == piece + rest;
    PieceReads(piece, path[0], rest);
    if |path| > 1 {
      var more, key' := path[1..], rest[1..];
      assert key' == key[|piece| + 1..];
      SpellingReads(if SpellsWith(Quoted(more[0]), key', more) then Quoted(more[0]) else more[0], key', more);
      assert path == [path[0]] + more;
    } else {
      assert path == [path[0]];
    }
  }

  lemma {:induction false} QuotedPiece(key: string, n: nat)
    requires n + 2 <= |key| && key[0] == key[n + 1] == '"'
    ensures key[..n + 2] == Quoted(key[1..n + 1])
  {}

  lemma {:induction false} QuotedParts(segment: string, rest: string)
    ensures var key := Quoted(segment) + rest;
            && |key| == |segment| + 2 + |rest| && key[0] == key[|segment| + 1] == '"'
            && key[1..|segment| + 1] == segment && key[|segment| + 2..] == rest
            && forall k | 0 < k < |segment| + 1 :: key[k] == segment[k - 1]
  {}

  lemma {:induction false} ReadSpells(key: string)
    requires Segments(key).Ok?
    ensures Segments(key).value != [] && Spells(key, Segments(key).value)
    decreases |key|
  {
    var quoted := key != "" && key[0] == '"';
    var n := if quoted then QuoteEnd(key[1..]) + 2 else BareEnd(key);
    var piece, rest := key[..n], key[n..];
    var segment := if quoted then key[1..n - 1] else piece;
    assert Segments(key) == AfterSegment(segment, rest);
    if quoted {
      QuotedPiece(key, n - 2);
    }
    assert PieceOf(piece, segment);
    var path := Segments(key).value;
    if rest != "" {
      ReadSpells(rest[1..]);
      assert path[1..] == Segments(rest[1..]).value;
      assert key[n + 1..] == rest[1..];
    }
    assert SpellsWith(piece, key, path);
  }

  /** The reader accepts exactly the spellings, each as the path it spells. */
  lemma ReadsExactlyTheSpellings(key: string, path: seq<string>)
    ensures Parsed(key) == Ok(path) <==> Spells(key, path)
  {
    if Spells(key, path) {
      SpellingReads(if SpellsWith(Quoted(path[0]), key, path) then Quoted(path[0]) else path[0], key, path);
    } else if Parsed(key) == Ok(path) {
      ReadSpells(key);
    }
  }
}
