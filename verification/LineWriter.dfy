/**
 The log writer that redacts whole lines. A logging layer hands it pieces of
 text that need not end at a line; it holds back the unfinished line, so that
 a secret cut in two by the pieces is still seen in one piece. The redaction of
 one line is the parameter `redact`.
 */
module LineWriter {
  import opened Framing

  type Redaction = seq<Byte> -> seq<Byte>

  /** What reaches the sink for the finished lines of `s`: each line with its newline, redacted. */
  function Finished(s: seq<Byte>, redact: Redaction): seq<Byte>
    decreases |s|
  {
    var n := LineEnd(s);
    if n == |s| then [] else redact(s[..n + 1]) + Finished(s[n + 1..], redact)
  }

  /** The unfinished line at the end of `s`. */
  function Tail(s: seq<Byte>): (t: seq<Byte>)
    ensures LF !in t
    decreases |s|
  {
    var n := LineEnd(s);
    if n == |s| then s else Tail(s[n + 1..])
  }

  /** The whole text, one redaction per line, the last of them perhaps without a newline. */
  function Redacted(s: seq<Byte>, redact: Redaction): seq<Byte> {
    Finished(s, redact) + if Tail(s) == [] then [] else redact(Tail(s))
  }

  /** Holding back the unfinished line loses nothing: the next piece is split as if it had come at once. */
  lemma {:induction false} PiecesJoin(a: seq<Byte>, b: seq<Byte>, redact: Redaction)
    ensures Finished(a + b, redact) == Finished(a, redact) + Finished(Tail(a) + b, redact)
    ensures Tail(a + b) == Tail(Tail(a) + b)
    decreases |a|
  {
    var n := LineEnd(a);
    if n < |a| {
      assert a == a[..n] + [LF] + a[n + 1..];
      LineEndOf(a[..n], a[n + 1..] + b);
      assert a + b == a[..n] + [LF] + (a[n + 1..] + b);
      assert LineEnd(a + b) == n && (a + b)[..n + 1] == a[..n + 1] && (a + b)[n + 1..] == a[n + 1..] + b;
      PiecesJoin(a[n + 1..], b, redact);
    }
  }

  /** Moving the first line of what is pending to the sink. */
  lemma {:induction false} LineMoves(sink: seq<Byte>, s: seq<Byte>, redact: Redaction)
    ensures LineEnd(s) == |s| ==> sink + Finished(s, redact) == sink && Tail(s) == s
    ensures LineEnd(s) < |s| ==>
              var n := LineEnd(s);
              && sink + Finished(s, redact) == (sink + redact(s[..n + 1])) + Finished(s[n + 1..], redact)
              && Tail(s) == Tail(s[n + 1..])
  {}

  /** Sink, buffer and the text still to come together amount to `base` and all of `all`, redacted. */
  ghost predicate Owes(sink: seq<Byte>, buf: seq<Byte>, more: seq<Byte>, base: seq<Byte>, all: seq<Byte>, redact: Redaction) {
    && LF !in buf
    && sink + Finished(buf + more, redact) == base + Finished(all, redact)
    && Tail(buf + more) == Tail(all)
  }

  lemma {:induction false} PieceMoves(
      sink: seq<Byte>, buf: seq<Byte>, piece: seq<Byte>, more: seq<Byte>,
      base: seq<Byte>, all: seq<Byte>, redact: Redaction)
    requires Owes(sink, buf, piece + more, base, all, redact)
    ensures Owes(sink + Finished(buf + piece, redact), Tail(buf + piece), more, base, all, redact)
  {
    assert buf + (piece + more) == (buf + piece) + more;
    PiecesJoin(buf + piece, more, redact);
  }

  lemma {:induction false} NothingOwed(sink: seq<Byte>, buf: seq<Byte>, base: seq<Byte>, all: seq<Byte>, redact: Redaction)
    requires Owes(sink, buf, [], base, all, redact)
    ensures sink + (if buf == [] then [] else redact(buf)) == base + Redacted(all, redact)
  {
    Unfinished(sink, buf, redact);
  }

  class RedactingWriter {
    const redact: Redaction
    var buf: seq<Byte>
    var sink: seq<Byte>

    constructor (redact: Redaction)
      ensures this.redact == redact && buf == [] && sink == []
    {
      this.redact, buf, sink := redact, [], [];
    }

    /** Writes out every line that `data` finishes and keeps the rest. */
    method Write(data: seq<Byte>)
      modifies this
      ensures sink == old(sink) + Finished(old(buf) + data, redact)
      ensures buf == Tail(old(buf) + data)
    {
      buf := buf + data;
      while LineEnd(buf) < |buf|
        invariant sink + Finished(buf, redact) == old(sink) + Finished(old(buf) + data, redact)
        invariant Tail(buf) == Tail(old(buf) + data)
        decreases |buf|
      {
        LineMoves(sink, buf, redact);
        var nl := LineEnd(buf);
        sink := sink + redact(buf[..nl + 1]);
        buf := buf[nl + 1..];
      }
      LineMoves(sink, buf, redact);
    }

    /** Also writes out an unfinished line. */
    method Flush()
      modifies this
      ensures buf == []
      ensures sink == old(sink) + (if old(buf) == [] then [] else redact(old(buf)))
    {
      if buf != [] {
        sink := sink + redact(buf);
        buf := [];
      }
    }

    /** Any pieces and one flush give what redacting the whole text line by line gives. */
    method WriteAndFlush(pieces: seq<seq<Byte>>)
      requires buf == []
      modifies this
      ensures buf == []
      ensures sink == old(sink) + Redacted(Concat(pieces), redact)
    {
      ghost var all, base := Concat(pieces), sink;
      assert [] + all == all;
      for i := 0 to |pieces|
        invariant Owes(sink, buf, Concat(pieces[i..]), base, all, redact)
      {
        assert pieces[i..][1..] == pieces[i + 1..];
        PieceMoves(sink, buf, pieces[i], Concat(pieces[i + 1..]), base, all, redact);
        Write(pieces[i]);
      }
      NothingOwed(sink, buf, base, all, redact);
      Flush();
    }
  }

  lemma {:induction false} Unfinished(sink: seq<Byte>, buf: seq<Byte>, redact: Redaction)
    requires LF !in buf
    ensures Tail(buf + []) == buf
    ensures sink + Finished(buf + [], redact) == sink
  {
    assert buf + [] == buf;
    LineEndSkips(buf, []);
  }

  /** A line is redacted exactly as if it had been written alone. */
  lemma {:induction false} FinishedLines(lines: seq<seq<Byte>>, rest: seq<Byte>, redact: Redaction)
    requires forall i | 0 <= i < |lines| :: LF !in lines[i]
    requires LF !in rest
    ensures Redacted(Written(lines) + rest, redact) ==
            EachRedacted(lines, redact) + if rest == [] then [] else redact(rest)
  {
    SplitsIntoLines(lines, rest, redact);
  }

  lemma {:induction false} SplitsIntoLines(lines: seq<seq<Byte>>, rest: seq<Byte>, redact: Redaction)
    requires forall i | 0 <= i < |lines| :: LF !in lines[i]
    requires LF !in rest
    ensures Finished(Written(lines) + rest, redact) == EachRedacted(lines, redact)
    ensures Tail(Written(lines) + rest) == rest
  {
    if lines == [] {
      assert Written(lines) + rest == rest + [];
      Unfinished([], rest, redact);
    } else {
      var more := Written(lines[1..]) + rest;
      assert Written(lines) + rest == lines[0] + [LF] + more;
      FirstLine(lines[0], more, redact);
      SplitsIntoLines(lines[1..], rest, redact);
    }
  }

  lemma {:induction false} FirstLine(line: seq<Byte>, more: seq<Byte>, redact: Redaction)
    requires LF !in line
    ensures Finished(line + [LF] + more, redact) == redact(line + [LF]) + Finished(more, redact)
    ensures Tail(line + [LF] + more) == Tail(more)
  {
    var s := line + [LF] + more;
    LineEndOf(line, more);
    assert s[..|line| + 1] == line + [LF] && s[|line| + 1..] == more;
    LineMoves([], s, redact);
  }

  function EachRedacted(lines: seq<seq<Byte>>, redact: Redaction): seq<Byte> {
    if lines == [] then [] else redact(lines[0] + [LF]) + EachRedacted(lines[1..], redact)
  }
}
