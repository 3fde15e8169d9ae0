/**
 Rewriting the string literals of a JSON text without parsing the JSON: each
 literal is unescaped, handed to a redaction, and re-escaped if that changed it;
 every other character stays where it is. Literals follow section 7 of RFC 8259.
 */
module JsonText {
  import opened Common

  // ------------------------------------------------------------ literals

  const QUOTE: char := '"'
  const BACKSLASH: char := '\\'

  function HexDigit(d: nat): char
    requires d < 16
  {
    if d < 10 then '0' + d as char else 'a' + (d - 10) as char
  }

  function HexValue(c: char): Option<nat> {
    if '0' <= c <= '9' then Some((c - '0') as nat)
    else if 'a' <= c <= 'f' then Some((c - 'a') as nat + 10)
    else if 'A' <= c <= 'F' then Some((c - 'A') as nat + 10)
    else None
  }

  /** The four hexadecimal digits that start `s`. */
  function Hex4(s: string): (r: Option<nat>)
    ensures r.Some? ==> |s| >= 4 && r.value < 0x1_0000
  {
    if |s| < 4 then None
    else
      match (HexValue(s[0]), HexValue(s[1]), HexValue(s[2]), HexValue(s[3]))
      case (Some(a), Some(b), Some(c), Some(d)) =>
        assert a < 16 && b < 16 && c < 16 && d < 16;
        Some(0x1000 * a + 0x100 * b + 0x10 * c + d)
      case _ => None
  }

  function EscapeChar(c: char): string {
    if c == QUOTE then "\\\""
    else if c == BACKSLASH then "\\\\"
    else if c == '\U{0008}' then "\\b"
    else if c == '\t' then "\\t"
    else if c == '\n' then "\\n"
    else if c == '\U{000C}' then "\\f"
    else if c == '\r' then "\\r"
    else if c < ' ' then "\\u00" + [HexDigit(c as nat / 16), HexDigit(c as nat % 16)]
    else [c]
  }

  /** The text between the quotes that the serialiser prints for `s`. */
  function Escaped(s: string): string {
    if s == "" then "" else EscapeChar(s[0]) + Escaped(s[1..])
  }

  /** What the letter after a backslash stands for, other than `u`. */
  function ShortEscape(c: char): Option<char> {
    match c
    case '"' => Some('"')
    case '\\' => Some('\\')
    case '/' => Some('/')
    case 'b' => Some('\U{0008}')
    case 'f' => Some('\U{000C}')
    case 'n' => Some('\n')
    case 'r' => Some('\r')
    case 't' => Some('\t')
    case _ => None
  }

  /** The character a `\u` escape stands for and how much text it takes, surrogate pairs included. */
  function UnicodeEscape(s: string): (r: Option<(char, nat)>)
    ensures r.Some? ==> 0 < r.value.1 <= |s|
  {
    match Hex4(s)
    case None => None
    case Some(v) =>
      if v < 0xD800 || v >= 0xE000 then Some((v as char, 4))
      else if v >= 0xDC00 || |s| < 10 || s[4] != BACKSLASH || s[5] != 'u' then None
      else
        match Hex4(s[6..])
        case None => None
        case Some(w) =>
          if 0xDC00 <= w < 0xE000 then Some(((0x1_0000 + 0x400 * (v - 0xD800) + (w - 0xDC00)) as char, 10)) else None
  }

  function Cons(c: char, rest: Option<string>): Option<string> {
    if rest.Some? then Some([c] + rest.value) else None
  }

  /** What the text between two quotes stands for, if it is a literal at all. */
  function Unescaped(body: string): Option<string>
    decreases |body|
  {
    if body == "" then Some("")
    else if body[0] == QUOTE || body[0] < ' ' then None
    else if body[0] != BACKSLASH then Cons(body[0], Unescaped(body[1..]))
    else if |body| == 1 then None
    else if body[1] == 'u' then
      match UnicodeEscape(body[2..])
      case None => None
      case Some((c, n)) => Cons(c, Unescaped(body[2 + n..]))
    else
      match ShortEscape(body[1])
      case None => None
      case Some(c) => Cons(c, Unescaped(body[2..]))
  }

  lemma {:induction false} ControlEscape(v: nat, rest: string)
    requires v < 32
    ensures UnicodeEscape("00" + [HexDigit(v / 16), HexDigit(v % 16)] + rest) == Some((v as char, 4))
  {
    var s := "00" + [HexDigit(v / 16), HexDigit(v % 16)] + rest;
    assert s[0] == '0' && s[1] == '0' && s[2] == HexDigit(v / 16) && s[3] == HexDigit(v % 16);
    assert Hex4(s) == Some(v);
  }

  lemma {:induction false} OneEscape(c: char, rest: string)
    ensures Unescaped(EscapeChar(c) + rest) == Cons(c, Unescaped(rest))
  {
    var e := EscapeChar(c);
    var body := e + rest;
    assert body[|e|..] == rest;
    if |e| == 6 {
      var v := c as nat;
      assert body[2..] == "00" + [HexDigit(v / 16), HexDigit(v % 16)] + rest;
      ControlEscape(v, rest);
    }
  }

  /** A printed literal reads back as what was printed. */
  lemma {:induction false} EscapeReadsBack(s: string)
    ensures Unescaped(Escaped(s)) == Some(s)
  {
    if s != "" {
      OneEscape(s[0], Escaped(s[1..]));
      EscapeReadsBack(s[1..]);
      assert [s[0]] + s[1..] == s;
    }
  }

  // ------------------------------------------------------------ every way to write a text

  /** The ways section 7 of RFC 8259 has for a character: itself, a two-character escape, or `\u` escapes in either case. */
  datatype Spelling = AsItself | Short | Unicode(upper: bool)

  function Hex(d: nat, upper: bool): char
    requires d < 16
  {
    if d < 10 then '0' + d as char else if upper then 'A' + (d - 10) as char else 'a' + (d - 10) as char
  }

  function CodeUnit(v: nat, upper: bool): string
    requires v < 0x1_0000
  {
    "\\u" + [Hex(v / 0x1000, upper), Hex(v / 0x100 % 0x10, upper), Hex(v / 0x10 % 0x10, upper), Hex(v % 0x10, upper)]
  }

  /** One code unit, or a surrogate pair. */
  function UnicodeForm(c: char, upper: bool): string {
    var v := c as nat;
    if v < 0x1_0000 then CodeUnit(v, upper)
    else CodeUnit(0xD800 + (v - 0x1_0000) / 0x400, upper) + CodeUnit(0xDC00 + (v - 0x1_0000) % 0x400, upper)
  }

  function ShortForm(c: char): Option<string> {
    match c
    case '"' => Some("\\\"")
    case '\\' => Some("\\\\")
    case '/' => Some("\\/")
    case '\U{0008}' => Some("\\b")
    case '\U{000C}' => Some("\\f")
    case '\n' => Some("\\n")
    case '\r' => Some("\\r")
    case '\t' => Some("\\t")
    case _ => None
  }

  /** The character written so, if it can be. */
  function Spelled(c: char, how: Spelling): Option<string> {
    match how
    case AsItself => if c == '"' || c == '\\' || c < ' ' then None else Some([c])
    case Short => ShortForm(c)
    case Unicode(upper) => Some(UnicodeForm(c, upper))
  }

  lemma {:induction false} CodeUnitReads(v: nat, upper: bool, rest: string)
    requires v < 0x1_0000
    ensures Hex4((CodeUnit(v, upper) + rest)[2..]) == Some(v)
  {
    var s := (CodeUnit(v, upper) + rest)[2..];
    var a, b, c, d := v / 0x1000, v / 0x100 % 0x10, v / 0x10 % 0x10, v % 0x10;
    HexReads(a, upper);
    HexReads(b, upper);
    HexReads(c, upper);
    HexReads(d, upper);
    assert s[0] == Hex(a, upper) && s[1] == Hex(b, upper) && s[2] == Hex(c, upper) && s[3] == Hex(d, upper);
    FourDigits(v);
  }

  lemma HexReads(d: nat, upper: bool)
    requires d < 16
    ensures HexValue(Hex(d, upper)) == Some(d)
  {}

  lemma FourDigits(v: nat)
    requires v < 0x1_0000
    ensures v == 0x1000 * (v / 0x1000) + 0x100 * (v / 0x100 % 0x10) + 0x10 * (v / 0x10 % 0x10) + v % 0x10
  {
    var a, b, c := v / 0x1000, v / 0x100, v / 0x10;
    assert c / 0x10 == b by { Nested(v, 0x10); }
    assert b / 0x10 == a by { Nested(v, 0x100); }
  }

  lemma Nested(v: nat, k: nat)
    requires k == 0x10 || k == 0x100
    ensures v / k / 0x10 == v / (k * 0x10)
  {
    if k == 0x10 {
      assert v / 0x10 / 0x10 == v / 0x100;
    } else {
      assert v / 0x100 / 0x10 == v / 0x1000;
    }
  }

  lemma {:induction false} UnicodeFormReads(c: char, upper: bool, rest: string)
    ensures Unescaped(UnicodeForm(c, upper) + rest) == Cons(c, Unescaped(rest))
  {
    hide Hex4, Hex;
    var v, form := c as nat, UnicodeForm(c, upper);
    var body := form + rest;
    assert body[0] == BACKSLASH && body[1] == 'u' && body[|form|..] == rest;
    if v < 0x1_0000 {
      CodeUnitReads(v, upper, rest);
      assert UnicodeEscape(body[2..]) == Some((c, 4));
    } else {
      var hi, lo := 0xD800 + (v - 0x1_0000) / 0x400, 0xDC00 + (v - 0x1_0000) % 0x400;
      var second := CodeUnit(lo, upper) + rest;
      assert body == CodeUnit(hi, upper) + second;
      CodeUnitReads(hi, upper, second);
      CodeUnitReads(lo, upper, rest);
      var s := body[2..];
      assert s[4] == BACKSLASH && s[5] == 'u' && s[6..] == second[2..];
      assert UnicodeEscape(s) == Some((c, 10));
    }
  }

  /** One character, however it is written. */
  lemma {:induction false} SpellingReads(c: char, how: Spelling, rest: string)
    requires Spelled(c, how).Some?
    ensures Unescaped(Spelled(c, how).value + rest) == Cons(c, Unescaped(rest))
  {
    match how
    case Unicode(upper) => UnicodeFormReads(c, upper, rest);
    case Short =>
      var body := Spelled(c, how).value + rest;
      assert body[0] == BACKSLASH && body[2..] == rest;
    case AsItself => assert ([c] + rest)[1..] == rest;
  }

  function SpelledAll(s: string, how: seq<Spelling>): Option<string>
    requires |how| == |s|
  {
    if s == "" then Some("")
    else
      match (Spelled(s[0], how[0]), SpelledAll(s[1..], how[1..]))
      case (Some(first), Some(rest)) => Some(first + rest)
      case _ => None
  }

  /** A text reads back from every way to write it. */
  lemma {:induction false} EverySpellingReads(s: string, how: seq<Spelling>)
    requires |how| == |s| && SpelledAll(s, how).Some?
    ensures Unescaped(SpelledAll(s, how).value) == Some(s)
  {
    if s != "" {
      EverySpellingReads(s[1..], how[1..]);
      SpellingReads(s[0], how[0], SpelledAll(s[1..], how[1..]).value);
      assert [s[0]] + s[1..] == s;
    }
  }

  /** What is no literal: a bare quote or control character, an unknown escape, half a surrogate pair. */
  lemma {:induction false} NotALiteral(c: char, v: nat, upper: bool, rest: string)
    ensures c == '"' || c < ' ' ==> Unescaped([c] + rest) == None
    ensures c !in {'"', '\\', '/', 'b', 'f', 'n', 'r', 't', 'u'} ==> Unescaped("\\" + [c] + rest) == None
    ensures 0xDC00 <= v < 0xE000 ==> Unescaped(CodeUnit(v, upper) + rest) == None
    ensures 0xD800 <= v < 0xDC00 && (|rest| < 2 || rest[..2] != "\\u") ==> Unescaped(CodeUnit(v, upper) + rest) == None
  {
    if 0xD800 <= v < 0xE000 {
      CodeUnitReads(v, upper, rest);
      var body := CodeUnit(v, upper) + rest;
      assert body[2..][4..] == rest;
      hide Hex4, Hex;
      if |rest| >= 2 && rest[..2] != "\\u" {
        assert rest[..2] == [rest[0], rest[1]];
        assert body[2..][4] == rest[0] && body[2..][5] == rest[1];
      }
      assert UnicodeEscape(body[2..]) == None || (v < 0xDC00 && |rest| >= 2 && rest[..2] == "\\u");
    }
  }

  // ------------------------------------------------------------ where a literal ends

  /** The first quote that no backslash precedes; a backslash takes the next character with it. */
  function CloseAt(s: string): (r: Option<nat>)
    ensures r.Some? ==> r.value < |s|
    decreases |s|
  {
    if s == "" then None
    else if s[0] == QUOTE then Some(0)
    else if s[0] == BACKSLASH then
      if |s| == 1 then None
      else match CloseAt(s[2..]) case None => None case Some(n) => Some(n + 2)
    else match CloseAt(s[1..]) case None => None case Some(n) => Some(n + 1)
  }

  /** A body that ends only at its own closing quote. */
  predicate Closed(body: string)
    decreases |body|
  {
    if body == "" then true
    else if body[0] == QUOTE then false
    else if body[0] == BACKSLASH then |body| >= 2 && Closed(body[2..])
    else Closed(body[1..])
  }

  lemma {:induction false} ClosedCloses(body: string, rest: string)
    requires Closed(body)
    ensures CloseAt(body + [QUOTE] + rest) == Some(|body|)
    decreases |body|
  {
    var s := body + [QUOTE] + rest;
    if body != "" {
      var k := if body[0] == BACKSLASH then 2 else 1;
      assert s[k..] == body[k..] + [QUOTE] + rest;
      ClosedCloses(body[k..], rest);
    }
  }

  lemma {:induction false} CloseIsClosed(s: string)
    requires CloseAt(s).Some?
    ensures Closed(s[..CloseAt(s).value]) && s[CloseAt(s).value] == QUOTE
    decreases |s|
  {
    if s[0] != QUOTE {
      var k := if s[0] == BACKSLASH then 2 else 1;
      CloseIsClosed(s[k..]);
      assert s[..CloseAt(s).value][k..] == s[k..][..CloseAt(s).value - k];
    }
  }

  lemma {:induction false} EscapedIsClosed(s: string)
    ensures Closed(Escaped(s))
  {
    if s != "" {
      EscapedIsClosed(s[1..]);
      ClosedAfter(s[0], Escaped(s[1..]));
    }
  }

  lemma {:induction false} ClosedAfter(c: char, rest: string)
    requires Closed(rest)
    ensures Closed(EscapeChar(c) + rest)
  {
    var e := EscapeChar(c);
    var body := e + rest;
    if |e| == 6 {
      assert body[2..] == e[2..] + rest;
      PlainThenClosed(e[2..], rest);
    } else {
      assert body[|e|..] == rest;
    }
  }

  lemma {:induction false} PlainThenClosed(plain: string, rest: string)
    requires Closed(rest) && forall i | 0 <= i < |plain| :: plain[i] != QUOTE && plain[i] != BACKSLASH
    ensures Closed(plain + rest)
  {
    if plain == "" {
      assert plain + rest == rest;
    } else {
      PlainThenClosed(plain[1..], rest);
      assert (plain + rest)[1..] == plain[1..] + rest;
    }
  }

  // ------------------------------------------------------------ the pieces of a text

  /** A character between literals, or a literal. */
  datatype Piece = Gap(c: char) | Literal(body: string)

  function Scan(s: string): Option<seq<Piece>>
    decreases |s|
  {
    if s == "" then Some([])
    else if s[0] != QUOTE then Push(Gap(s[0]), Scan(s[1..]))
    else
      match CloseAt(s[1..])
      case None => None
      case Some(n) => Push(Literal(s[1..n + 1]), Scan(s[n + 2..]))
  }

  function Push(piece: Piece, rest: Option<seq<Piece>>): Option<seq<Piece>> {
    if rest.Some? then Some([piece] + rest.value) else None
  }

  function Shown(piece: Piece): string {
    match piece
    case Gap(c) => [c]
    case Literal(body) => [QUOTE] + body + [QUOTE]
  }

  function Render(pieces: seq<Piece>): string {
    if pieces == [] then "" else Shown(pieces[0]) + Render(pieces[1..])
  }

  predicate Sound(piece: Piece) {
    match piece
    case Gap(c) => c != QUOTE
    case Literal(body) => Closed(body)
  }

  predicate AllSound(pieces: seq<Piece>) {
    forall i | 0 <= i < |pieces| :: Sound(pieces[i])
  }

  lemma {:induction false} ScanOne(piece: Piece, rest: string)
    requires Sound(piece)
    ensures Scan(Shown(piece) + rest) == Push(piece, Scan(rest))
  {
    var s := Shown(piece) + rest;
    match piece
    case Gap(c) => assert s[1..] == rest;
    case Literal(body) =>
      assert s[1..] == body + [QUOTE] + rest;
      ClosedCloses(body, rest);
      assert s[1..|body| + 1] == body && s[|body| + 2..] == rest;
  }

  /** Sound pieces are found again, each where it was. */
  lemma {:induction false} RenderScans(pieces: seq<Piece>)
    requires AllSound(pieces)
    ensures Scan(Render(pieces)) == Some(pieces)
  {
    if pieces != [] {
      RenderScans(pieces[1..]);
      ScanOne(pieces[0], Render(pieces[1..]));
      assert pieces == [pieces[0]] + pieces[1..];
    }
  }

  /** A text that starts with a literal, taken apart. */
  lemma {:induction false} LiteralFirst(s: string)
    requires s != "" && s[0] == QUOTE && CloseAt(s[1..]).Some?
    ensures var n := CloseAt(s[1..]).value;
            Sound(Literal(s[1..n + 1])) && s == Shown(Literal(s[1..n + 1])) + s[n + 2..]
  {
    var n := CloseAt(s[1..]).value;
    CloseIsClosed(s[1..]);
    assert s[1..][..n] == s[1..n + 1] && s[1..][n] == s[n + 1];
  }

  /** And a text is the rendering of its pieces. */
  lemma {:induction false} ScanRenders(s: string)
    requires Scan(s).Some?
    ensures Render(Scan(s).value) == s && AllSound(Scan(s).value)
    decreases |s|
  {
    if s != "" {
      if s[0] != QUOTE {
        ScanRenders(s[1..]);
        RenderOne(Gap(s[0]), Scan(s[1..]).value);
        assert s == [s[0]] + s[1..];
      } else {
        var n := CloseAt(s[1..]).value;
        LiteralFirst(s);
        ScanRenders(s[n + 2..]);
        RenderOne(Literal(s[1..n + 1]), Scan(s[n + 2..]).value);
      }
    }
  }

  lemma {:induction false} RenderOne(piece: Piece, rest: seq<Piece>)
    ensures Render([piece] + rest) == Shown(piece) + Render(rest)
    ensures Sound(piece) && AllSound(rest) ==> AllSound([piece] + rest)
  {
    assert ([piece] + rest)[1..] == rest;
  }

  // ------------------------------------------------------------ the rewriting

  /** A redaction with its state: the replacement, or nothing when nothing matched. */
  type Redaction<!S> = (S, string) -> (S, Option<string>)

  datatype Outcome<S> = Outcome(pieces: Option<seq<Piece>>, state: S, touched: bool)

  function RedactLiteral<S>(body: string, redact: Redaction<S>, state: S): (Piece, S, bool) {
    match Unescaped(body)
    case None => (Literal(body), state, false)
    case Some(value) =>
      var (next, r) := redact(state, value);
      match r
      case None => (Literal(body), next, false)
      case Some(changed) => (Literal(Escaped(changed)), next, true)
  }

  /** Literals are redacted from left to right, up to an unterminated one. */
  function Rewrite<S>(s: string, redact: Redaction<S>, state: S): Outcome<S>
    decreases |s|
  {
    if s == "" then Outcome(Some([]), state, false)
    else if s[0] != QUOTE then
      var rest := Rewrite(s[1..], redact, state);
      rest.(pieces := Push(Gap(s[0]), rest.pieces))
    else
      match CloseAt(s[1..])
      case None => Outcome(None, state, false)
      case Some(n) =>
        var (piece, next, touched) := RedactLiteral(s[1..n + 1], redact, state);
        var rest := Rewrite(s[n + 2..], redact, next);
        Outcome(Push(piece, rest.pieces), rest.state, touched || rest.touched)
  }

  /** Piece by piece: gaps stay; a literal stays or becomes the escaped redaction of its value. */
  ghost predicate PieceRedacted<S(!new)>(before: Piece, after: Piece, redact: Redaction<S>) {
    after == before
    || (before.Literal? && Unescaped(before.body).Some?
        && after.Literal? && Unescaped(after.body).Some?
        && after.body == Escaped(Unescaped(after.body).value)
        && exists state: S :: redact(state, Unescaped(before.body).value).1 == Unescaped(after.body))
  }

  ghost predicate PiecesRedacted<S(!new)>(before: seq<Piece>, after: seq<Piece>, redact: Redaction<S>) {
    |before| == |after| && forall i | 0 <= i < |before| :: PieceRedacted(before[i], after[i], redact)
  }

  lemma {:induction false} PiecesCons<S(!new)>(
      before: Piece, befores: seq<Piece>, after: Piece, afters: seq<Piece>, redact: Redaction<S>)
    requires PieceRedacted(before, after, redact) && PiecesRedacted(befores, afters, redact)
    ensures PiecesRedacted([before] + befores, [after] + afters, redact)
  {
    hide PieceRedacted;
  }

  /** The rewriting of a text that starts with a literal. */
  lemma {:induction false} RewriteLiteral<S>(s: string, redact: Redaction<S>, state: S)
    requires s != "" && s[0] == QUOTE && CloseAt(s[1..]).Some?
    ensures var n := CloseAt(s[1..]).value;
            var (piece, next, touched) := RedactLiteral(s[1..n + 1], redact, state);
            var rest := Rewrite(s[n + 2..], redact, next);
            Rewrite(s, redact, state) == Outcome(Push(piece, rest.pieces), rest.state, touched || rest.touched)
  {}

  /** The rewriting finds the literals the scan finds, and rewrites them in place. */
  lemma {:induction false} RewriteKeepsShape<S(!new)>(s: string, redact: Redaction<S>, state: S)
    ensures Rewrite(s, redact, state).pieces.Some? <==> Scan(s).Some?
    ensures Scan(s).Some? ==>
              var after := Rewrite(s, redact, state).pieces.value;
              AllSound(after) && PiecesRedacted(Scan(s).value, after, redact)
    decreases |s|
  {
    hide PieceRedacted, PiecesRedacted, Unescaped, Escaped, Closed, RedactLiteral;
    if s == "" {
      NoPieces(redact);
    } else if s[0] != QUOTE {
      RewriteKeepsShape(s[1..], redact, state);
      if Scan(s[1..]).Some? {
        var gap := Gap(s[0]);
        SameGap(gap, redact);
        PiecesCons(gap, Scan(s[1..]).value, gap, Rewrite(s[1..], redact, state).pieces.value, redact);
        RenderOne(gap, Rewrite(s[1..], redact, state).pieces.value);
      }
    } else if CloseAt(s[1..]).Some? {
      var n := CloseAt(s[1..]).value;
      LiteralFirst(s);
      LiteralRedacted(s[1..n + 1], redact, state);
      var (piece, next, touched) := RedactLiteral(s[1..n + 1], redact, state);
      RewriteLiteral(s, redact, state);
      RewriteKeepsShape(s[n + 2..], redact, next);
      if Scan(s[n + 2..]).Some? {
        var after := Rewrite(s[n + 2..], redact, next).pieces.value;
        PiecesCons(Literal(s[1..n + 1]), Scan(s[n + 2..]).value, piece, after, redact);
        RenderOne(piece, after);
      }
    }
  }

  lemma {:induction false} NoPieces<S(!new)>(redact: Redaction<S>)
    ensures PiecesRedacted([], [], redact)
  {}

  lemma {:induction false} SameGap<S(!new)>(gap: Piece, redact: Redaction<S>)
    ensures PieceRedacted(gap, gap, redact)
  {}

  lemma {:induction false} LiteralRedacted<S(!new)>(body: string, redact: Redaction<S>, state: S)
    requires Sound(Literal(body))
    ensures var (piece, next, touched) := RedactLiteral(body, redact, state);
            && Sound(piece) && PieceRedacted(Literal(body), piece, redact)
            && (!touched ==> piece == Literal(body))
  {
    if Unescaped(body).Some? {
      var value := Unescaped(body).value;
      var r := redact(state, value).1;
      if r.Some? {
        EscapedIsClosed(r.value);
        EscapeReadsBack(r.value);
        assert redact(state, value).1 == Unescaped(Escaped(r.value));
      }
    }
  }

  /** Nothing touched, nothing changed. */
  lemma {:induction false} UntouchedIsUnchanged<S(!new)>(s: string, redact: Redaction<S>, state: S)
    requires Scan(s).Some? && !Rewrite(s, redact, state).touched
    ensures Rewrite(s, redact, state).pieces == Scan(s)
    decreases |s|
  {
    if s != "" {
      if s[0] != QUOTE {
        UntouchedIsUnchanged(s[1..], redact, state);
      } else if CloseAt(s[1..]).Some? {
        var n := CloseAt(s[1..]).value;
        LiteralFirst(s);
        LiteralRedacted(s[1..n + 1], redact, state);
        UntouchedIsUnchanged(s[n + 2..], redact, RedactLiteral(s[1..n + 1], redact, state).1);
      }
    }
  }

  /**
   The text that comes out scans into the same gaps in the same places and as
   many literals, each as it was or the escaped redaction of its value.
   */
  lemma {:induction false} StructureIsKept<S(!new)>(text: string, redact: Redaction<S>, state: S)
    requires Scan(text).Some?
    ensures Rewrite(text, redact, state).pieces.Some?
    ensures var out := Render(Rewrite(text, redact, state).pieces.value);
            && Scan(out).Some? && PiecesRedacted(Scan(text).value, Scan(out).value, redact)
            && (!Rewrite(text, redact, state).touched ==> out == text)
  {
    RewriteKeepsShape(text, redact, state);
    RenderScans(Rewrite(text, redact, state).pieces.value);
    if !Rewrite(text, redact, state).touched {
      UntouchedIsUnchanged(text, redact, state);
      ScanRenders(text);
    }
  }

  /** What one piece becomes, and the state it leaves: every literal that has a value is handed over, and rewritten if the redaction says so. */
  ghost predicate Turn<S(!new)>(before: Piece, after: Piece, redact: Redaction<S>, s: S, s': S) {
    match before
    case Gap(_) => after == before && s' == s
    case Literal(body) =>
      match Unescaped(body)
      case None => after == before && s' == s
      case Some(value) =>
        var (next, r) := redact(s, value);
        s' == next && after == (if r.Some? then Literal(Escaped(r.value)) else before)
  }

  ghost predicate Replaced<S(!new)>(before: Piece, redact: Redaction<S>, s: S) {
    before.Literal? && Unescaped(before.body).Some? && redact(s, Unescaped(before.body).value).1.Some?
  }

  /** The states between the pieces, from the first to the last. */
  ghost predicate InTurn<S(!new)>(
      before: seq<Piece>, after: seq<Piece>, states: seq<S>, redact: Redaction<S>, first: S, last: S, touched: bool)
  {
    && |after| == |before| && |states| == |before| + 1 && states[0] == first && states[|before|] == last
    && (forall i | 0 <= i < |before| :: Turn(before[i], after[i], redact, states[i], states[i + 1]))
    && (touched <==> exists i | 0 <= i < |before| :: Replaced(before[i], redact, states[i]))
  }

  /**
   From left to right every literal with a value is redacted in the state that
   the ones before it left; it stays exactly where the redaction returns nothing.
   */
  lemma {:induction false} LiteralsInTurn<S(!new)>(text: string, redact: Redaction<S>, state: S) returns (states: seq<S>)
    requires Scan(text).Some?
    ensures Rewrite(text, redact, state).pieces.Some?
    ensures var all := Rewrite(text, redact, state);
            InTurn(Scan(text).value, all.pieces.value, states, redact, state, all.state, all.touched)
    decreases |text|
  {
    hide Unescaped, Escaped;
    if text == "" {
      states := [state];
    } else if text[0] != QUOTE {
      var rest := LiteralsInTurn(text[1..], redact, state);
      var all := Rewrite(text[1..], redact, state);
      TurnCons(Gap(text[0]), Gap(text[0]), Scan(text[1..]).value, all.pieces.value, rest, redact, state, state, all.state, all.touched);
      states := [state] + rest;
    } else {
      var n := CloseAt(text[1..]).value;
      RewriteLiteral(text, redact, state);
      var (piece, next, touched) := RedactLiteral(text[1..n + 1], redact, state);
      var rest := LiteralsInTurn(text[n + 2..], redact, next);
      var all := Rewrite(text[n + 2..], redact, next);
      LiteralTurn(text[1..n + 1], redact, state);
      TurnCons(Literal(text[1..n + 1]), piece, Scan(text[n + 2..]).value, all.pieces.value, rest, redact, state, next,
               all.state, all.touched);
      states := [state] + rest;
    }
  }

  lemma LiteralTurn<S(!new)>(body: string, redact: Redaction<S>, state: S)
    ensures var (piece, next, touched) := RedactLiteral(body, redact, state);
            Turn(Literal(body), piece, redact, state, next) && (touched <==> Replaced(Literal(body), redact, state))
  {
    hide Unescaped, Escaped;
    if Unescaped(body).Some? {
      match redact(state, Unescaped(body).value).1
      case None =>
      case Some(changed) => assert RedactLiteral(body, redact, state).0 == Literal(Escaped(changed));
    }
  }

  lemma TurnCons<S(!new)>(
      before: Piece, after: Piece, befores: seq<Piece>, afters: seq<Piece>, states: seq<S>, redact: Redaction<S>,
      first: S, next: S, last: S, touched: bool)
    requires Turn(before, after, redact, first, next) && InTurn(befores, afters, states, redact, next, last, touched)
    ensures InTurn([before] + befores, [after] + afters, [first] + states, redact, first, last,
                   Replaced(before, redact, first) || touched)
  {
    hide Turn, Replaced;
    var bs, all := [before] + befores, [first] + states;
    if touched {
      var i :| 0 <= i < |befores| && Replaced(befores[i], redact, states[i]);
      assert Replaced(bs[i + 1], redact, all[i + 1]);
    }
    if Replaced(before, redact, first) {
      assert Replaced(bs[0], redact, all[0]);
    }
  }

  // ------------------------------------------------------------ the index loop

  function Later(r: Option<nat>, k: nat): Option<nat> {
    match r
    case None => None
    case Some(n) => Some(n + k)
  }

  lemma {:induction false} CloseStep(text: string, i: nat)
    requires i < |text|
    ensures text[i] == QUOTE ==> Later(CloseAt(text[i..]), i) == Some(i)
    ensures text[i] == BACKSLASH && i + 1 == |text| ==> CloseAt(text[i..]) == None
    ensures text[i] == BACKSLASH && i + 2 <= |text| ==>
              Later(CloseAt(text[i..]), i) == Later(CloseAt(text[i + 2..]), i + 2)
    ensures text[i] != QUOTE && text[i] != BACKSLASH ==>
              Later(CloseAt(text[i..]), i) == Later(CloseAt(text[i + 1..]), i + 1)
  {
    assert text[i..][1..] == text[i + 1..];
    if i + 2 <= |text| {
      assert text[i..][2..] == text[i + 2..];
    }
  }

  /** The position of the closing quote, from the position after the opening one. */
  method FindClose(text: string, from: nat) returns (r: Option<nat>)
    requires from <= |text|
    ensures r == Later(CloseAt(text[from..]), from)
  {
    hide CloseAt;
    var i := from;
    ghost var goal := Later(CloseAt(text[from..]), from);
    while i < |text|
      invariant from <= i
      invariant if i <= |text| then goal == Later(CloseAt(text[i..]), i) else goal == None
    {
      CloseStep(text, i);
      if text[i] == BACKSLASH {
        i := i + 2;
      } else if text[i] == QUOTE {
        return Some(i);
      } else {
        i := i + 1;
      }
    }
    NoClose();
    assert i == |text| ==> text[i..] == "";
    return None;
  }

  lemma NoClose()
    ensures CloseAt("") == None
  {}

  /**
   The text written so far, the text since the last rewritten literal and the
   rewriting of what is left make up the whole result.
   */
  ghost predicate Remains<S(!new)>(
      all: Outcome<S>, text: string, out: string, last: nat, i: nat, redact: Redaction<S>, state: S)
    requires last <= i <= |text|
  {
    var rest := Rewrite(text[i..], redact, state);
    && all.state == rest.state
    && (all.pieces.Some? <==> rest.pieces.Some?)
    && (all.touched <==> last > 0 || rest.touched)
    && (last == 0 ==> out == "")
    && (all.pieces.Some? ==> Render(all.pieces.value) == out + text[last..i] + Render(rest.pieces.value))
  }

  lemma {:induction false} RewriteStarts<S(!new)>(text: string, redact: Redaction<S>, state: S)
    ensures Remains(Rewrite(text, redact, state), text, "", 0, 0, redact, state)
  {
    assert text[0..] == text;
  }

  lemma {:induction false} RewriteGap<S>(text: string, i: nat, redact: Redaction<S>, state: S)
    requires i < |text| && text[i] != QUOTE
    ensures var rest := Rewrite(text[i + 1..], redact, state);
            Rewrite(text[i..], redact, state) == rest.(pieces := Push(Gap(text[i]), rest.pieces))
  {
    assert text[i..][1..] == text[i + 1..];
  }

  lemma {:induction false} GapRemains<S(!new)>(
      all: Outcome<S>, text: string, out: string, last: nat, i: nat, redact: Redaction<S>, state: S)
    requires last <= i < |text| && text[i] != QUOTE && Remains(all, text, out, last, i, redact, state)
    ensures Remains(all, text, out, last, i + 1, redact, state)
  {
    hide Render, Rewrite;
    RewriteGap(text, i, redact, state);
    var rest := Rewrite(text[i + 1..], redact, state);
    if rest.pieces.Some? {
      RenderOne(Gap(text[i]), rest.pieces.value);
      assert text[last..i + 1] == text[last..i] + [text[i]];
      Regroup(out, text[last..i], [text[i]], Render(rest.pieces.value));
    }
  }

  lemma {:induction false} NeverCloses<S(!new)>(
      all: Outcome<S>, text: string, out: string, last: nat, i: nat, redact: Redaction<S>, state: S)
    requires last <= i < |text| && text[i] == QUOTE && CloseAt(text[i + 1..]).None?
    requires Remains(all, text, out, last, i, redact, state)
    ensures all.pieces.None? && all.state == state
  {
    assert text[i..][1..] == text[i + 1..];
  }

  /** The rewriting from an opening quote on, in terms of positions. */
  lemma {:induction false} RewriteFrom<S>(text: string, i: nat, redact: Redaction<S>, state: S)
    requires i < |text| && text[i] == QUOTE && CloseAt(text[i + 1..]).Some?
    ensures var close := i + 1 + CloseAt(text[i + 1..]).value;
            && close < |text|
            && text[i..close + 1] == Shown(Literal(text[i + 1..close]))
            && var (piece, next, touched) := RedactLiteral(text[i + 1..close], redact, state);
               var rest := Rewrite(text[close + 1..], redact, next);
               Rewrite(text[i..], redact, state) == Outcome(Push(piece, rest.pieces), rest.state, touched || rest.touched)
  {
    hide RedactLiteral, Rewrite;
    var s := text[i..];
    assert s[1..] == text[i + 1..];
    var n := CloseAt(s[1..]).value;
    var close := i + 1 + n;
    assert s[1..n + 1] == text[i + 1..close] && s[n + 2..] == text[close + 1..] && s[..n + 2] == text[i..close + 1];
    RewriteLiteral(s, redact, state);
    LiteralFirst(s);
  }

  lemma {:induction false} LiteralRemains<S(!new)>(
      all: Outcome<S>, text: string, out: string, last: nat, i: nat, close: nat, redact: Redaction<S>, state: S)
    requires last <= i < |text| && text[i] == QUOTE && CloseAt(text[i + 1..]).Some?
    requires close == i + 1 + CloseAt(text[i + 1..]).value
    requires Remains(all, text, out, last, i, redact, state)
    ensures close < |text|
    ensures var (piece, next, touched) := RedactLiteral(text[i + 1..close], redact, state);
            if touched then Remains(all, text, out + text[last..i] + Shown(piece), close + 1, close + 1, redact, next)
            else Remains(all, text, out, last, close + 1, redact, next)
  {
    hide RedactLiteral, CloseAt, Render, Rewrite, Shown;
    RewriteFrom(text, i, redact, state);
    var (piece, next, touched) := RedactLiteral(text[i + 1..close], redact, state);
    var rest := Rewrite(text[close + 1..], redact, next);
    if rest.pieces.Some? {
      RenderOne(piece, rest.pieces.value);
      Regroup(out, text[last..i], Shown(piece), Render(rest.pieces.value));
    }
    if touched {
      assert text[close + 1..close + 1] == "";
    } else {
      LiteralUntouched(text[i + 1..close], redact, state);
      assert text[last..close + 1] == text[last..i] + text[i..close + 1];
    }
  }

  lemma {:induction false} LiteralUntouched<S>(body: string, redact: Redaction<S>, state: S)
    ensures !RedactLiteral(body, redact, state).2 ==> RedactLiteral(body, redact, state).0 == Literal(body)
  {}

  lemma {:induction false} Regroup(a: string, b: string, c: string, d: string)
    ensures a + b + (c + d) == (a + b + c) + d
    ensures a + b + (c + d) == (a + b + c) + "" + d
    ensures a + b + (c + d) == a + (b + c) + d
  {}

  lemma {:induction false} NothingRemains<S(!new)>(
      all: Outcome<S>, text: string, out: string, last: nat, redact: Redaction<S>, state: S)
    requires last <= |text| && Remains(all, text, out, last, |text|, redact, state)
    ensures all.state == state && all.pieces.Some? && (all.touched <==> last > 0)
    ensures Render(all.pieces.value) == out + text[last..]
  {
    assert text[|text|..] == "" && text[last..|text|] == text[last..];
  }
}
