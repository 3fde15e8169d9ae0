/**
 Newline-delimited framing: one reader call takes one line off a byte stream
 that arrives in arbitrary chunks, under a hard limit on the line length. The
 specification splits the whole stream at once and knows nothing of chunks.
 The log writer's line buffer is the same split in the other direction.
 */
module Framing {
  import opened Common

  newtype Byte = x: int | 0 <= x < 256

  const LF: Byte := 10
  const CR: Byte := 13

  /** 64 MiB. */
  const MAX_LINE_BYTES: nat := 64 * 1024 * 1024

  datatype Frame = Line(bytes: seq<Byte>) | TooLong(discarded: nat) | Eof

  // ------------------------------------------------------------ the whole-stream split

  /** The position of the first newline, or the length if there is none. */
  function LineEnd(s: seq<Byte>): (n: nat)
    ensures n <= |s|
    ensures forall i | 0 <= i < n :: s[i] != LF
    ensures n < |s| ==> s[n] == LF
  {
    if s == [] || s[0] == LF then 0 else 1 + LineEnd(s[1..])
  }

  function StripCr(line: seq<Byte>): seq<Byte> {
    if line != [] && line[|line| - 1] == CR then line[..|line| - 1] else line
  }

  /** The first frame of a stream under `limit`. */
  function FirstFrame(s: seq<Byte>, limit: nat): Frame {
    var n := LineEnd(s);
    if n > limit then TooLong(n)
    else if n < |s| then Line(StripCr(s[..n]))
    else if n == 0 then Eof
    else Line(s)
  }

  /** What is left of the stream after its first frame. */
  function Rest(s: seq<Byte>): seq<Byte> {
    var n := LineEnd(s);
    if n < |s| then s[n + 1..] else []
  }

  /** Every frame of a stream, up to the end of the stream. */
  function Frames(s: seq<Byte>, limit: nat): seq<Frame>
    decreases |s|
  {
    if s == [] then [Eof] else [FirstFrame(s, limit)] + Frames(Rest(s), limit)
  }

  // ------------------------------------------------------------ lines written and read back

  /** Newline-free bytes in front only move the first newline. */
  lemma {:induction false} LineEndSkips(a: seq<Byte>, b: seq<Byte>)
    requires LF !in a
    ensures LineEnd(a + b) == |a| + LineEnd(b)
  {
    if a == [] {
      assert a + b == b;
    } else {
      LineEndSkips(a[1..], b);
      assert (a + b)[1..] == a[1..] + b && a[0] in a;
    }
  }

  lemma LineEndOf(line: seq<Byte>, rest: seq<Byte>)
    requires LF !in line
    ensures LineEnd(line + [LF] + rest) == |line|
  {
    LineEndSkips(line, [LF] + rest);
    assert line + [LF] + rest == line + ([LF] + rest);
  }

  /** A line and its newline are one frame, whatever follows: an oversized line costs only itself. */
  lemma FrameOfLine(line: seq<Byte>, rest: seq<Byte>, limit: nat)
    requires LF !in line
    ensures Frames(line + [LF] + rest, limit) ==
            [if |line| > limit then TooLong(|line|) else Line(StripCr(line))] + Frames(rest, limit)
  {
    LineEndOf(line, rest);
    var s := line + [LF] + rest;
    assert s[..|line|] == line && s[|line| + 1..] == rest;
  }

  /** A carriage return before the newline is taken for part of the line ending: one of them, and no other byte. */
  lemma {:induction false} CrLfEndsALine(line: seq<Byte>, rest: seq<Byte>, limit: nat)
    requires LF !in line
    ensures Frames(line + [CR, LF] + rest, limit) ==
            [if |line| + 1 > limit then TooLong(|line| + 1) else Line(line)] + Frames(rest, limit)
    ensures line == [] || line[|line| - 1] != CR ==>
              Frames(line + [LF] + rest, limit) ==
              [if |line| > limit then TooLong(|line|) else Line(line)] + Frames(rest, limit)
  {
    hide Frames;
    FrameOfLine(line + [CR], rest, limit);
    FrameOfLine(line, rest, limit);
    assert line + [CR, LF] + rest == line + [CR] + [LF] + rest;
    assert (line + [CR])[..|line|] == line;
  }

  /** A last line without a newline is a frame as it is, a carriage return at its end included. */
  lemma {:induction false} UnendedLineStays(line: seq<Byte>, limit: nat)
    requires LF !in line && line != []
    ensures Frames(line, limit) == [if |line| > limit then TooLong(|line|) else Line(line), Eof]
  {
    LineEndSkips(line, []);
    assert line + [] == line;
    assert Rest(line) == [] && Frames([], limit) == [Eof];
  }

  /** What the writer puts on the wire for each message, one after the other. */
  function Written(lines: seq<seq<Byte>>): seq<Byte> {
    if lines == [] then [] else lines[0] + [LF] + Written(lines[1..])
  }

  function Lines(lines: seq<seq<Byte>>): seq<Frame> {
    if lines == [] then [Eof] else [Line(lines[0])] + Lines(lines[1..])
  }

  /** A line that survives the wire. */
  predicate Faithful(line: seq<Byte>, limit: nat) {
    LF !in line && |line| <= limit && (line == [] || line[|line| - 1] != CR)
  }

  lemma {:induction false} WrittenLinesReadBack(lines: seq<seq<Byte>>, limit: nat)
    requires forall i | 0 <= i < |lines| :: Faithful(lines[i], limit)
    ensures Frames(Written(lines), limit) == Lines(lines)
  {
    if lines != [] {
      WrittenLinesReadBack(lines[1..], limit);
      FrameOfLine(lines[0], Written(lines[1..]), limit);
    }
  }

  /** And only such lines do. */
  lemma ReadsBackIffFaithful(line: seq<Byte>, limit: nat)
    ensures Frames(line + [LF], limit) == [Line(line), Eof] <==> Faithful(line, limit)
  {
    var s := line + [LF];
    if LF !in line {
      FrameOfLine(line, [], limit);
      assert line + [LF] + [] == s;
      assert Frames(s, limit)[0] == if |line| > limit then TooLong(|line|) else Line(StripCr(line));
      assert Frames(s, limit)[1..] == [Eof];
    } else {
      assert Frames(s, limit)[0] == FirstFrame(s, limit);
      ShortFrame(line, [LF]);
    }
  }

  /** A newline inside a line cuts it. */
  lemma {:induction false} ShortFrame(line: seq<Byte>, rest: seq<Byte>)
    requires LF in line
    ensures LineEnd(line + rest) < |line|
  {
    if line[0] != LF {
      assert LF in line[1..];
      ShortFrame(line[1..], rest);
      assert (line + rest)[1..] == line[1..] + rest;
    }
  }

  // ------------------------------------------------------------ the chunked reader

  function Concat(chunks: seq<seq<Byte>>): seq<Byte> {
    if chunks == [] then [] else chunks[0] + Concat(chunks[1..])
  }

  /** A buffered reader: the current buffer and the chunks the transport will still deliver. */
  class Reader {
    var chunks: seq<seq<Byte>>

    ghost predicate Valid()
      reads this
    {
      forall i | 0 <= i < |chunks| :: chunks[i] != []
    }

    ghost function Stream(): seq<Byte>
      reads this
    {
      Concat(chunks)
    }

    constructor (arrivals: seq<seq<Byte>>)
      requires forall i | 0 <= i < |arrivals| :: arrivals[i] != []
      ensures Valid() && chunks == arrivals
    {
      chunks := arrivals;
    }

    /** `fill_buf`: some bytes, or none at the end of the stream. */
    method FillBuf() returns (available: seq<Byte>)
      requires Valid()
      ensures available <= Stream()
      ensures available == [] <==> Stream() == []
      ensures available == (if chunks == [] then [] else chunks[0])
    {
      if chunks == [] {
        return [];
      }
      return chunks[0];
    }

    method Consume(n: nat)
      requires Valid() && chunks != [] && n <= |chunks[0]|
      modifies this
      ensures Valid() && Stream() == old(Stream())[n..]
    {
      var rest := chunks[0][n..];
      assert Stream() == chunks[0] + Concat(chunks[1..]);
      assert Stream()[n..] == rest + Concat(chunks[1..]);
      if rest == [] {
        chunks := chunks[1..];
      } else {
        chunks := [rest] + chunks[1..];
        assert chunks[1..] == old(chunks)[1..];
      }
    }

    /** Takes the buffered bytes up to a newline, or all of them, off the stream. */
    method NextPiece() returns (eof: bool, piece: seq<Byte>, done: bool)
      requires Valid()
      modifies this
      ensures Valid()
      ensures eof <==> old(Stream()) == []
      ensures LF !in piece
      ensures old(Stream()) == piece + (if done then [LF] else []) + Stream()
      ensures !eof ==> |Stream()| < |old(Stream())|
    {
      ghost var all := Stream();
      var available := FillBuf();
      if available == [] {
        return true, [], false;
      }
      var i := LineEnd(available);
      piece, done := available[..i], i < |available|;
      var consume := i + if done then 1 else 0;
      assert all == all[..consume] + all[consume..] && all[..consume] == available[..consume];
      Consume(consume);
      eof := false;
    }

    /**
     `read_frame`, awaited to completion. It returns the first frame of the
     stream whatever the chunks are, and its buffer never exceeds the limit.
     */
    method ReadFrame(limit: nat) returns (frame: Frame, ghost high: nat)
      requires Valid()
      modifies this
      ensures Valid()
      ensures frame == FirstFrame(old(Stream()), limit)
      ensures Stream() == Rest(old(Stream()))
      ensures high <= limit
    {
      ghost var all, taken := Stream(), [];
      var buf: seq<Byte> := [];
      var discarding := false;
      var discarded := 0;
      high := 0;
      while true
        invariant Valid() && all == taken + Stream() && LF !in taken
        invariant if discarding then |taken| > limit && discarded == |taken| else buf == taken
        invariant |buf| <= high <= limit
        decreases |Stream()|
      {
        ghost var before := Stream();
        var eof, piece, done := NextPiece();
        if eof {
          UnendedFrame(all, taken, limit);
          return if discarding then TooLong(discarded) else if buf == [] then Eof else Line(buf), high;
        }
        if discarding {
          discarded := discarded + |piece|;
        } else if |buf| + |piece| > limit {
          discarding := true;
          discarded := |buf| + |piece|;
          buf := [];
        } else {
          buf := buf + piece;
          high := if |buf| > high then |buf| else high;
        }
        if done {
          EndedFrame(all, taken, before, piece, Stream(), limit);
          return if discarding then TooLong(discarded) else Line(StripCr(buf)), high;
        }
        PieceTaken(all, taken, before, piece, Stream());
        taken := taken + piece;
      }
    }

    /** Reads to the end of the stream. */
    method ReadAll(limit: nat) returns (frames: seq<Frame>)
      requires Valid()
      modifies this
      ensures frames == Frames(old(Stream()), limit)
    {
      ghost var all := Frames(Stream(), limit);
      frames := [];
      while true
        invariant Valid() && frames + Frames(Stream(), limit) == all
        decreases |Stream()|
      {
        OneMore(frames, Stream(), limit);
        var frame, _ := ReadFrame(limit);
        frames := frames + [frame];
        if frame.Eof? {
          return;
        }
      }
    }
  }

  /** One frame read moves from what is to come to what was read. */
  lemma OneMore(read: seq<Frame>, s: seq<Byte>, limit: nat)
    ensures FirstFrame(s, limit).Eof? <==> s == []
    ensures s == [] ==> read + Frames(s, limit) == read + [FirstFrame(s, limit)]
    ensures s != [] ==> read + Frames(s, limit) == read + [FirstFrame(s, limit)] + Frames(Rest(s), limit)
    ensures s != [] ==> |Rest(s)| < |s|
  {}

  lemma PieceTaken(all: seq<Byte>, taken: seq<Byte>, before: seq<Byte>, piece: seq<Byte>, after: seq<Byte>)
    requires all == taken + before && before == piece + [] + after
    requires LF !in taken && LF !in piece
    ensures all == taken + piece + after && LF !in taken + piece
  {}

  lemma UnendedFrame(all: seq<Byte>, taken: seq<Byte>, limit: nat)
    requires all == taken + [] && LF !in taken
    ensures FirstFrame(all, limit) ==
            (if |taken| > limit then TooLong(|taken|) else if taken == [] then Eof else Line(taken))
    ensures Rest(all) == []
  {
    assert all == taken;
    LineEndSkips(taken, []);
  }

  lemma EndedFrame(all: seq<Byte>, taken: seq<Byte>, before: seq<Byte>, piece: seq<Byte>, after: seq<Byte>, limit: nat)
    requires all == taken + before && before == piece + [LF] + after
    requires LF !in taken && LF !in piece
    ensures FirstFrame(all, limit) ==
            (if |taken| + |piece| > limit then TooLong(|taken| + |piece|) else Line(StripCr(taken + piece)))
    ensures Rest(all) == after
  {
    var line := taken + piece;
    assert all == line + [LF] + after;
    LineEndOf(line, after);
    assert all[..|line|] == line && all[|line| + 1..] == after;
  }

  /** However the same bytes are cut, the frames are the same. */
  method ChunksDoNotMatter(a: seq<seq<Byte>>, b: seq<seq<Byte>>, limit: nat) returns (fa: seq<Frame>, fb: seq<Frame>)
    requires forall i | 0 <= i < |a| :: a[i] != []
    requires forall i | 0 <= i < |b| :: b[i] != []
    requires Concat(a) == Concat(b)
    ensures fa == fb == Frames(Concat(a), limit)
  {
    var ra := new Reader(a);
    fa := ra.ReadAll(limit);
    var rb := new Reader(b);
    fb := rb.ReadAll(limit);
  }
}
