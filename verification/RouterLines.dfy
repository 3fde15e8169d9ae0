/**
 What a line of bytes means to a connection of `Router`: how it is classified,
 and which answer, handler or change of the connection it brings about.
 */
module RouterLines {
  import opened Common
  import opened Framing
  import opened Router

  /** Tab, line feed, form feed, carriage return and space. */
  predicate Space(b: Byte) {
    b in {9, 10, 12, 13, 32}
  }

  /** The first `n` bytes are whitespace. */
  predicate SpaceUpTo(line: seq<Byte>, n: nat)
    requires n <= |line|
  {
    forall i | 0 <= i < n :: Space(line[i])
  }

  predicate AllSpace(line: seq<Byte>) {
    SpaceUpTo(line, |line|)
  }

  /** The first byte that is not whitespace is `c`. */
  predicate StartsWith(line: seq<Byte>, c: Byte) {
    exists i | 0 <= i < |line| :: line[i] == c && SpaceUpTo(line, i)
  }

  const BRACKET: Byte := 91
  const BRACE: Byte := 123

  lemma {:induction false} TrimmedLine(line: seq<Byte>)
    ensures TrimStart(line) == [] <==> AllSpace(line)
    ensures forall c | !Space(c) :: (TrimStart(line) != [] && TrimStart(line)[0] == c) <==> StartsWith(line, c)
  {
    if line != [] && Space(line[0]) {
      var rest := line[1..];
      TrimmedLine(rest);
      forall i: nat | i < |line| ensures SpaceUpTo(line, i + 1) <==> SpaceUpTo(rest, i) {
        assert forall k | 0 <= k < i :: rest[k] == line[k + 1];
        assert forall k | 0 < k < i + 1 :: line[k] == rest[k - 1];
      }
      forall c | !Space(c) ensures StartsWith(line, c) <==> StartsWith(rest, c) {
        if StartsWith(line, c) {
          var i :| 0 <= i < |line| && line[i] == c && SpaceUpTo(line, i);
          assert SpaceUpTo(line, i - 1 + 1) && rest[i - 1] == c;
        }
        if StartsWith(rest, c) {
          var i :| 0 <= i < |rest| && rest[i] == c && SpaceUpTo(rest, i);
          assert line[i + 1] == c && SpaceUpTo(line, i + 1);
        }
      }
    } else if line != [] {
      forall c | !Space(c) ensures line[0] == c <==> StartsWith(line, c) {
        assert SpaceUpTo(line, 0);
      }
    }
  }

  /** Blank, a batch, not parsable, or the message it parses as: told by its bytes. */
  lemma {:induction false} LinesAreToldApart(line: seq<Byte>, parse: seq<Byte> -> Option<Message>)
    ensures var incoming := Classify(line, parse);
            && (incoming == Blank <==> AllSpace(line))
            && (incoming == Batch <==> StartsWith(line, BRACKET))
            && (incoming == Unparsable <==> !AllSpace(line) && !StartsWith(line, BRACKET) && parse(line).None?)
            && (forall m :: incoming == Received(m) <==>
                  !AllSpace(line) && !StartsWith(line, BRACKET) && parse(line) == Some(m))
            && !incoming.Oversized?
  {
    TrimmedLine(line);
    assert !Space(BRACKET);
  }

  lemma OnlyOneStart(line: seq<Byte>, c: Byte, d: Byte)
    requires StartsWith(line, c) && !Space(c) && !Space(d) && c != d
    ensures !StartsWith(line, d) && !AllSpace(line)
  {
    TrimmedLine(line);
  }

  // ------------------------------------------------------------ the answers

  predicate IsHello(incoming: Incoming) {
    incoming.Received? && incoming.message.Call? && incoming.message.request.name == "daemon.hello"
  }

  predicate IsOther(incoming: Incoming) {
    incoming.Received? && incoming.message.Call? && incoming.message.request.name != "daemon.hello"
  }

  /** A shutdown request that shows the token of a daemon that has one. */
  predicate ShowsToken(config: Config, r: Request) {
    r.name == "daemon.shutdown" && config.token.Some? && r.shutdown == Some(config.token)
  }

  /** What a line is answered at once, if anything: every case, and nothing else. */
  lemma {:induction false} AnswersAreExact(config: Config, authenticated: bool, incoming: Incoming)
    ensures var r := React(config, authenticated, incoming);
            && (r == Nothing <==> incoming.Blank? || (incoming.Received? && !incoming.message.Call?))
            && (r == Replies(None, InvalidRequest) <==> incoming.Batch? || incoming.Oversized?)
            && (r == Replies(None, ParseError) <==> incoming.Unparsable?)
    ensures var r := React(config, authenticated, incoming);
            IsHello(incoming) ==>
              var request := incoming.message.request;
              r == Replies(Some(request.id),
                if request.hello.None? then InvalidParams
                else if request.hello.value.apiVersion != config.apiVersion then IncompatibleApi
                else if config.token.Some? && request.hello.value.token != config.token then Unauthorized
                else Welcome)
    ensures var r := React(config, authenticated, incoming);
            IsOther(incoming) ==>
              var request := incoming.message.request;
              var permitted := authenticated || ShowsToken(config, request);
              && (!permitted ==> r == Replies(Some(request.id), Unauthorized))
              && (permitted && request.name !in config.handlers ==> r == Replies(Some(request.id), MethodNotFound))
              && (permitted && request.name in config.handlers ==> r == Starts(request.id))
  {}

  /**
   A line that starts with a brace and parses as a call starts a handler under
   the call's id or is answered at once with it; one that starts with a bracket
   is refused without an id.
   */
  lemma {:induction false} CallsAreServed(
      config: Config, s: State, line: seq<Byte>, parse: seq<Byte> -> Option<Message>, request: Request)
    requires s.phase == Serving && StartsWith(line, BRACE) && parse(line) == Some(Call(request))
    ensures var t := Next(config, s, Arrives(Classify(line, parse)));
            var n := |s.history|;
            || (t.tasks == s.tasks + [Task(n, request.id)] && t.started == s.started + {n} && t.outgoing == s.outgoing)
            || (t.tasks == s.tasks && t.started == s.started
                && exists reply :: t.outgoing == s.outgoing + [Answer(n, Some(request.id), reply)])
    ensures var t := Next(config, s, Arrives(Classify(line, parse)));
            t.history == s.history + [Received(Call(request))]
  {
    LinesAreToldApart(line, parse);
    OnlyOneStart(line, BRACE, BRACKET);
    assert Classify(line, parse) == Received(Call(request));
    AnswersAreExact(config, s.authenticated, Received(Call(request)));
    var t := Next(config, s, Arrives(Classify(line, parse)));
    match React(config, s.authenticated, Received(Call(request)))
    case Replies(id, reply) => assert t.outgoing == s.outgoing + [Answer(|s.history|, Some(request.id), reply)];
    case _ =>
  }

  /** The first line of a client, an accepted handshake, opens the connection for it and is welcomed under its id. */
  lemma {:induction false} HandshakeOpens(
      config: Config, s: State, line: seq<Byte>, parse: seq<Byte> -> Option<Message>, request: Request, hello: Hello)
    requires s.phase == Serving && StartsWith(line, BRACE) && parse(line) == Some(Call(request))
    requires request.name == "daemon.hello" && request.hello == Some(hello)
    requires hello.apiVersion == config.apiVersion && (config.token.None? || hello.token == config.token)
    ensures Next(config, s, Arrives(Classify(line, parse))) ==
            s.(authenticated := true, client := Some(hello.client), history := s.history + [Received(Call(request))],
               outgoing := s.outgoing + [Answer(|s.history|, Some(request.id), Welcome)])
  {
    LinesAreToldApart(line, parse);
    OnlyOneStart(line, BRACE, BRACKET);
    assert Classify(line, parse) == Received(Call(request));
  }

  /** Nothing but an accepted handshake changes who the client is, or lets it in. */
  lemma {:induction false} OnlyHandshakesLetIn(config: Config, s: State, incoming: Incoming)
    requires s.phase == Serving
    ensures var t := Next(config, s, Arrives(incoming));
            t.authenticated != s.authenticated || t.client != s.client ==>
              && t.authenticated && IsHello(incoming)
              && incoming.message.request.hello.Some?
              && t.client == Some(incoming.message.request.hello.value.client)
              && incoming.message.request.hello.value.apiVersion == config.apiVersion
              && (config.token.None? || incoming.message.request.hello.value.token == config.token)
  {}
}
