/**
 One connection of the daemon's router: the handshake gate, one answer to every
 request, and the numbering of events, under any interleaving of incoming lines,
 finishing handlers and outgoing events.
 */
module Router {
  import opened Common
  import opened Framing

  type Id = string

  const HELLO := "daemon.hello"
  const SHUTDOWN := "daemon.shutdown"

  datatype Config = Config(token: Option<string>, apiVersion: nat, handlers: set<string>)

  datatype Hello = Hello(apiVersion: nat, token: Option<string>, client: string)

  /** A request with what its parameters parse as: a handshake, a shutdown with an optional token. */
  datatype Request = Request(id: Id, name: string, hello: Option<Hello>, shutdown: Option<Option<string>>)

  datatype Message = Call(request: Request) | Notification | Response

  // ------------------------------------------------------------ one line

  datatype Incoming = Blank | Batch | Unparsable | Oversized(bytes: nat) | Received(message: Message)

  predicate IsAsciiWhitespace(b: Byte) {
    b == 9 || b == 10 || b == 12 || b == 13 || b == 32
  }

  function TrimStart(line: seq<Byte>): seq<Byte> {
    if line != [] && IsAsciiWhitespace(line[0]) then TrimStart(line[1..]) else line
  }

  /** Blank lines and batches are recognised before parsing. */
  function Classify(line: seq<Byte>, parse: seq<Byte> -> Option<Message>): Incoming {
    if TrimStart(line) == [] then Blank
    else if TrimStart(line)[0] == '[' as Byte then Batch
    else if parse(line).None? then Unparsable
    else Received(parse(line).value)
  }

  datatype Reply =
    | Welcome | Handled | InvalidRequest | ParseError | InvalidParams | IncompatibleApi | Unauthorized | MethodNotFound

  /** An answer and the line it answers, or an event. */
  datatype Out = Answer(line: nat, id: Option<Id>, reply: Reply) | EventOut(subscription: string, number: nat)

  datatype Task = Task(line: nat, id: Id)

  datatype Phase = Serving | Draining | Drained | Dropped

  datatype State = State(
    phase: Phase, authenticated: bool, client: Option<string>, history: seq<Incoming>, tasks: seq<Task>,
    started: set<nat>, outgoing: seq<Out>, seqs: map<string, nat>, issued: seq<(string, nat)>, unsent: multiset<(string, nat)>)

  const OPENED := State(Serving, false, None, [], [], {}, [], map[], [], multiset{})

  // ------------------------------------------------------------ the gate

  /** `hello`: the errors in order. */
  function HelloReply(config: Config, hello: Option<Hello>): Reply {
    if hello.None? then InvalidParams
    else if hello.value.apiVersion != config.apiVersion then IncompatibleApi
    else if config.token.Some? && hello.value.token != config.token then Unauthorized
    else Welcome
  }

  predicate ShutdownTokenOk(config: Config, r: Request) {
    r.name == SHUTDOWN && config.token.Some? && r.shutdown.Some? && r.shutdown.value == config.token
  }

  /** Nothing, an answer at once, or a handler that will answer. */
  datatype Reaction = Nothing | Replies(id: Option<Id>, reply: Reply) | Starts(started: Id)

  /** `dispatch`. */
  function Dispatch(config: Config, authenticated: bool, r: Request): Reaction {
    if r.name == HELLO then Replies(Some(r.id), HelloReply(config, r.hello))
    else if !authenticated && !ShutdownTokenOk(config, r) then Replies(Some(r.id), Unauthorized)
    else if r.name !in config.handlers then Replies(Some(r.id), MethodNotFound)
    else Starts(r.id)
  }

  /** `handle_line`, and the answer to a line that is too long. */
  function React(config: Config, authenticated: bool, incoming: Incoming): Reaction {
    match incoming
    case Blank => Nothing
    case Batch => Replies(None, InvalidRequest)
    case Unparsable => Replies(None, ParseError)
    case Oversized(_) => Replies(None, InvalidRequest)
    case Received(Call(r)) => Dispatch(config, authenticated, r)
    case Received(_) => Nothing
  }

  function Handle(config: Config, s: State, incoming: Incoming): State {
    var n := |s.history|;
    var t := s.(history := s.history + [incoming]);
    match React(config, s.authenticated, incoming)
    case Nothing => t
    case Replies(id, reply) =>
      var welcome := reply == Welcome;
      t.(outgoing := s.outgoing + [Answer(n, id, reply)],
         authenticated := s.authenticated || welcome,
         client := if welcome then ClientOf(incoming) else s.client)
    case Starts(id) => t.(tasks := s.tasks + [Task(n, id)], started := s.started + {n})
  }

  function ClientOf(incoming: Incoming): Option<string> {
    match incoming
    case Received(Call(r)) => if r.hello.Some? then Some(r.hello.value.client) else None
    case _ => None
  }

  // ------------------------------------------------------------ steps

  datatype Step =
    | Arrives(incoming: Incoming)
    | Finishes(task: nat)
    | Issues(subscription: string)
    | Sends(event: (string, nat))
    | ShutsDown
    | Drains
    | HangsUp

  function SeqOf(seqs: map<string, nat>, subscription: string): nat {
    if subscription in seqs then seqs[subscription] else 0
  }

  predicate Enabled(s: State, step: Step) {
    match step
    case Arrives(_) => s.phase == Serving
    case Finishes(k) => s.phase in {Serving, Draining} && k < |s.tasks|
    case Issues(_) => s.phase in {Serving, Draining}
    case Sends(e) => s.phase in {Serving, Draining} && e in s.unsent
    case ShutsDown => s.phase == Serving
    case Drains => s.phase == Draining && s.tasks == []
    case HangsUp => s.phase == Serving
  }

  function Next(config: Config, s: State, step: Step): State
    requires Enabled(s, step)
  {
    match step
    case Arrives(incoming) => Handle(config, s, incoming)
    case Finishes(k) =>
      s.(tasks := s.tasks[..k] + s.tasks[k + 1..],
         outgoing := s.outgoing + [Answer(s.tasks[k].line, Some(s.tasks[k].id), Handled)])
    case Issues(subscription) =>
      var n := SeqOf(s.seqs, subscription) + 1;
      s.(seqs := s.seqs[subscription := n], issued := s.issued + [(subscription, n)],
         unsent := s.unsent + multiset{(subscription, n)})
    case Sends(e) =>
      s.(unsent := s.unsent - multiset{e}, outgoing := s.outgoing + [EventOut(e.0, e.1)])
    case ShutsDown => s.(phase := Draining)
    case Drains => s.(phase := Drained)
    // The peer is gone: handlers still running are aborted.
    case HangsUp => s.(phase := Dropped, tasks := [])
  }

  predicate Runs(config: Config, s: State, steps: seq<Step>)
    decreases |steps|
  {
    steps == [] || (Enabled(s, steps[0]) && Runs(config, Next(config, s, steps[0]), steps[1..]))
  }

  function Run(config: Config, s: State, steps: seq<Step>): State
    requires Runs(config, s, steps)
    decreases |steps|
  {
    if steps == [] then s else Run(config, Next(config, s, steps[0]), steps[1..])
  }

  // ------------------------------------------------------------ what holds

  predicate AcceptedHello(config: Config, incoming: Incoming) {
    match incoming
    case Received(Call(r)) =>
      && r.name == HELLO && r.hello.Some?
      && r.hello.value.apiVersion == config.apiVersion
      && (config.token.Some? ==> r.hello.value.token == config.token)
    case _ => false
  }

  predicate HelloBefore(config: Config, history: seq<Incoming>, k: nat) {
    exists j | 0 <= j < k && j < |history| :: AcceptedHello(config, history[j])
  }

  /** A registered method other than the handshake, after it or with the shutdown token. */
  predicate Startable(config: Config, authenticated: bool, incoming: Incoming) {
    match incoming
    case Received(Call(r)) =>
      r.name != HELLO && r.name in config.handlers && (authenticated || ShutdownTokenOk(config, r))
    case _ => false
  }

  /** When line `k` may start a handler. */
  predicate MayStart(config: Config, history: seq<Incoming>, k: nat)
    requires k < |history|
  {
    Startable(config, HelloBefore(config, history, k), history[k])
  }

  /** Requests and faulty lines are answered; blank lines, notifications and stray responses are not. */
  predicate WantsAnswer(incoming: Incoming) {
    match incoming
    case Received(Call(_)) => true
    case Received(_) => false
    case Blank => false
    case _ => true
  }

  function IdOf(incoming: Incoming): Option<Id> {
    match incoming
    case Received(Call(r)) => Some(r.id)
    case _ => None
  }

  function AnswerCount(outgoing: seq<Out>, k: nat): nat {
    if outgoing == [] then 0
    else
      var last := outgoing[|outgoing| - 1];
      AnswerCount(outgoing[..|outgoing| - 1], k) + if last.Answer? && last.line == k then 1 else 0
  }

  function Running(tasks: seq<Task>, k: nat): nat {
    if tasks == [] then 0
    else Running(tasks[1..], k) + if tasks[0].line == k then 1 else 0
  }

  /** The numbers issued on one subscription, in order. */
  function Numbers(issued: seq<(string, nat)>, subscription: string): seq<nat> {
    if issued == [] then []
    else
      var last := issued[|issued| - 1];
      Numbers(issued[..|issued| - 1], subscription) + if last.0 == subscription then [last.1] else []
  }

  function Sent(outgoing: seq<Out>): multiset<(string, nat)> {
    if outgoing == [] then multiset{}
    else
      var last := outgoing[|outgoing| - 1];
      if last.EventOut? then Sent(outgoing[..|outgoing| - 1]) + multiset{(last.subscription, last.number)}
      else Sent(outgoing[..|outgoing| - 1])
  }

  predicate UpTo(numbers: seq<nat>, n: nat) {
    |numbers| == n && forall i | 0 <= i < n :: numbers[i] == i + 1
  }

  ghost predicate GateOk(config: Config, s: State) {
    && (s.authenticated <==> HelloBefore(config, s.history, |s.history|))
    && (forall k | k in s.started :: k < |s.history|)
    && (forall k | 0 <= k < |s.history| :: k in s.started <==> MayStart(config, s.history, k))
  }

  ghost predicate AnswersOk(s: State) {
    && (forall k | 0 <= k < |s.history| ::
          AnswerCount(s.outgoing, k) + Running(s.tasks, k) <= (if WantsAnswer(s.history[k]) then 1 else 0))
    && (s.phase != Dropped ==> forall k | 0 <= k < |s.history| ::
          AnswerCount(s.outgoing, k) + Running(s.tasks, k) == if WantsAnswer(s.history[k]) then 1 else 0)
    && (forall k | |s.history| <= k :: AnswerCount(s.outgoing, k) == 0 && Running(s.tasks, k) == 0)
    && (s.phase in {Drained, Dropped} ==> s.tasks == [])
  }

  ghost predicate IdsOk(s: State) {
    && (forall i | 0 <= i < |s.outgoing| && s.outgoing[i].Answer? ::
          s.outgoing[i].line < |s.history| && s.outgoing[i].id == IdOf(s.history[s.outgoing[i].line])
          && (s.outgoing[i].reply == Handled ==> s.outgoing[i].line in s.started))
    && (forall i | 0 <= i < |s.tasks| ::
          s.tasks[i].line < |s.history| && Some(s.tasks[i].id) == IdOf(s.history[s.tasks[i].line])
          && s.tasks[i].line in s.started)
  }

  ghost predicate EventsOk(s: State) {
    && (forall subscription :: UpTo(Numbers(s.issued, subscription), SeqOf(s.seqs, subscription)))
    && multiset(s.issued) == s.unsent + Sent(s.outgoing)
  }

  lemma AnswersSnoc(outgoing: seq<Out>, out: Out, k: nat)
    ensures AnswerCount(outgoing + [out], k) == AnswerCount(outgoing, k) + if out.Answer? && out.line == k then 1 else 0
    ensures Sent(outgoing + [out]) ==
            if out.EventOut? then Sent(outgoing) + multiset{(out.subscription, out.number)} else Sent(outgoing)
  {
    assert (outgoing + [out])[..|outgoing|] == outgoing;
  }

  lemma {:induction false} RunningJoins(a: seq<Task>, b: seq<Task>, k: nat)
    ensures Running(a + b, k) == Running(a, k) + Running(b, k)
  {
    if a == [] {
      assert a + b == b;
    } else {
      assert (a + b)[1..] == a[1..] + b;
      RunningJoins(a[1..], b, k);
    }
  }

  lemma RunningOne(t: Task, k: nat)
    ensures Running([t], k) == if t.line == k then 1 else 0
  {
    assert Running([], k) == 0;
  }

  lemma {:induction false} RunningWithout(tasks: seq<Task>, i: nat, k: nat)
    requires i < |tasks|
    ensures Running(tasks, k) ==
            Running(tasks[..i] + tasks[i + 1..], k) + if tasks[i].line == k then 1 else 0
  {
    assert tasks == tasks[..i] + ([tasks[i]] + tasks[i + 1..]);
    RunningJoins(tasks[..i], [tasks[i]] + tasks[i + 1..], k);
    RunningJoins([tasks[i]], tasks[i + 1..], k);
    RunningJoins(tasks[..i], tasks[i + 1..], k);
    RunningOne(tasks[i], k);
  }

  lemma NumbersSnoc(issued: seq<(string, nat)>, e: (string, nat), subscription: string)
    ensures Numbers(issued + [e], subscription) ==
            Numbers(issued, subscription) + if e.0 == subscription then [e.1] else []
  {
    assert (issued + [e])[..|issued|] == issued;
  }

  lemma HistorySnoc(config: Config, history: seq<Incoming>, incoming: Incoming)
    ensures forall k: nat | k <= |history| ::
              HelloBefore(config, history + [incoming], k) <==> HelloBefore(config, history, k)
    ensures HelloBefore(config, history + [incoming], |history| + 1) <==>
            HelloBefore(config, history, |history|) || AcceptedHello(config, incoming)
    ensures forall k | 0 <= k < |history| :: MayStart(config, history + [incoming], k) <==> MayStart(config, history, k)
  {
    var longer := history + [incoming];
    forall k: nat | k <= |history| ensures HelloBefore(config, longer, k) <==> HelloBefore(config, history, k) {
      assert forall j | 0 <= j < k :: longer[j] == history[j];
    }
    assert longer[|history|] == incoming;
    assert forall j | 0 <= j < |history| :: longer[j] == history[j];
  }

  predicate IsMethodCall(incoming: Incoming) {
    incoming.Received? && incoming.message.Call? && incoming.message.request.name != HELLO
  }

  predicate NotRegistered(config: Config, incoming: Incoming) {
    IsMethodCall(incoming) && incoming.message.request.name !in config.handlers
  }

  /** What a reaction says about the line. */
  lemma ReactionFacts(config: Config, authenticated: bool, incoming: Incoming)
    ensures var r := React(config, authenticated, incoming);
            && (WantsAnswer(incoming) <==> r != Nothing)
            && (r.Replies? ==>
                  && r.id == IdOf(incoming) && r.reply != Handled
                  && (r.reply == Welcome <==> AcceptedHello(config, incoming)))
            && (r.Starts? ==> Some(r.started) == IdOf(incoming))
            && (!r.Replies? ==> !AcceptedHello(config, incoming))
            && (r.Starts? <==> Startable(config, authenticated, incoming))
            && (r.Replies? && r.reply == MethodNotFound ==> NotRegistered(config, incoming))
            && (IsMethodCall(incoming) && !authenticated && !r.Starts? && !NotRegistered(config, incoming) ==>
                  r == Replies(IdOf(incoming), Unauthorized))
  {}

  lemma {:induction false} ArrivalGate(config: Config, s: State, incoming: Incoming)
    requires GateOk(config, s)
    ensures GateOk(config, Handle(config, s, incoming))
  {
    hide React, AcceptedHello, HelloBefore, Startable;
    var t := Handle(config, s, incoming);
    var n := |s.history|;
    HistorySnoc(config, s.history, incoming);
    ReactionFacts(config, s.authenticated, incoming);
    assert t.history[n] == incoming;
  }

  lemma {:induction false} ArrivalAnswers(config: Config, s: State, incoming: Incoming, k: nat)
    ensures var t := Handle(config, s, incoming);
            AnswerCount(t.outgoing, k) + Running(t.tasks, k) ==
            AnswerCount(s.outgoing, k) + Running(s.tasks, k) + if k == |s.history| && WantsAnswer(incoming) then 1 else 0
  {
    hide React, AcceptedHello, HelloBefore, WantsAnswer, IdOf, AnswerCount, Running;
    ReactionFacts(config, s.authenticated, incoming);
    match React(config, s.authenticated, incoming)
    case Nothing =>
    case Replies(id, reply) => AnswersSnoc(s.outgoing, Answer(|s.history|, id, reply), k);
    case Starts(id) =>
      RunningJoins(s.tasks, [Task(|s.history|, id)], k);
      RunningOne(Task(|s.history|, id), k);
  }

  lemma {:induction false} ArrivalKeepsAnswers(config: Config, s: State, incoming: Incoming)
    requires AnswersOk(s) && s.phase == Serving
    ensures AnswersOk(Handle(config, s, incoming))
  {
    hide AnswerCount, Running, React, WantsAnswer;
    var t := Handle(config, s, incoming);
    forall k: nat
      ensures AnswerCount(t.outgoing, k) + Running(t.tasks, k) ==
              AnswerCount(s.outgoing, k) + Running(s.tasks, k) + if k == |s.history| && WantsAnswer(incoming) then 1 else 0
    {
      ArrivalAnswers(config, s, incoming, k);
    }
    assert forall k | 0 <= k < |s.history| :: t.history[k] == s.history[k];
  }

  lemma {:induction false} FinishKeepsAnswers(config: Config, s: State, i: nat)
    requires AnswersOk(s) && s.phase in {Serving, Draining} && i < |s.tasks|
    ensures AnswersOk(Next(config, s, Finishes(i)))
  {
    hide AnswerCount, Running;
    var t := Next(config, s, Finishes(i));
    forall k: nat
      ensures AnswerCount(t.outgoing, k) + Running(t.tasks, k) == AnswerCount(s.outgoing, k) + Running(s.tasks, k)
    {
      AnswersSnoc(s.outgoing, Answer(s.tasks[i].line, Some(s.tasks[i].id), Reply.Handled), k);
      RunningWithout(s.tasks, i, k);
    }
  }

  lemma {:induction false} StepKeepsAnswers(config: Config, s: State, step: Step)
    requires Enabled(s, step) && AnswersOk(s)
    ensures AnswersOk(Next(config, s, step))
  {
    hide AnswerCount, Running;
    match step
    case Arrives(incoming) => ArrivalKeepsAnswers(config, s, incoming);
    case Finishes(i) => FinishKeepsAnswers(config, s, i);
    case Sends(e) =>
      forall k: nat ensures AnswerCount(Next(config, s, step).outgoing, k) == AnswerCount(s.outgoing, k) {
        AnswersSnoc(s.outgoing, EventOut(e.0, e.1), k);
      }
    case HangsUp =>
      forall k: nat ensures Running([], k) == 0 { NoneRunning(k); }
    case _ =>
  }

  lemma NoneRunning(k: nat)
    ensures Running([], k) == 0
  {}

  lemma {:induction false} StepKeepsGate(config: Config, s: State, step: Step)
    requires Enabled(s, step) && GateOk(config, s)
    ensures GateOk(config, Next(config, s, step))
  {
    if step.Arrives? {
      ArrivalGate(config, s, step.incoming);
    }
  }

  lemma {:induction false} ArrivalKeepsIds(config: Config, s: State, incoming: Incoming)
    requires IdsOk(s)
    ensures IdsOk(Handle(config, s, incoming))
  {
    hide React, IdOf, AcceptedHello, Startable, WantsAnswer;
    var t := Handle(config, s, incoming);
    ReactionFacts(config, s.authenticated, incoming);
    assert forall k | 0 <= k < |s.history| :: t.history[k] == s.history[k];
    assert t.history[|s.history|] == incoming;
  }

  lemma {:induction false} StepKeepsIds(config: Config, s: State, step: Step)
    requires Enabled(s, step) && IdsOk(s)
    ensures IdsOk(Next(config, s, step))
  {
    hide Handle, IdOf;
    if step.Arrives? {
      ArrivalKeepsIds(config, s, step.incoming);
    }
  }

  lemma {:induction false} IssueKeepsEvents(s: State, subscription: string)
    requires EventsOk(s)
    ensures var n := SeqOf(s.seqs, subscription) + 1;
            EventsOk(s.(seqs := s.seqs[subscription := n], issued := s.issued + [(subscription, n)],
                        unsent := s.unsent + multiset{(subscription, n)}))
  {
    hide Numbers, Sent;
    var e := (subscription, SeqOf(s.seqs, subscription) + 1);
    var seqs := s.seqs[subscription := e.1];
    forall other ensures UpTo(Numbers(s.issued + [e], other), SeqOf(seqs, other)) {
      NumbersSnoc(s.issued, e, other);
      assert UpTo(Numbers(s.issued, other), SeqOf(s.seqs, other));
    }
  }

  lemma {:induction false} AnswerKeepsEvents(s: State, out: Out)
    requires EventsOk(s) && out.Answer?
    ensures EventsOk(s.(outgoing := s.outgoing + [out]))
  {
    hide Numbers, Sent;
    AnswersSnoc(s.outgoing, out, 0);
  }

  lemma {:induction false} SendKeepsEvents(s: State, e: (string, nat))
    requires EventsOk(s) && e in s.unsent
    ensures EventsOk(s.(unsent := s.unsent - multiset{e}, outgoing := s.outgoing + [EventOut(e.0, e.1)]))
  {
    hide Numbers, Sent, UpTo;
    AnswersSnoc(s.outgoing, EventOut(e.0, e.1), 0);
    Moved(s.unsent, Sent(s.outgoing), e);
  }

  lemma Moved<T>(a: multiset<T>, b: multiset<T>, e: T)
    requires e in a
    ensures (a - multiset{e}) + (b + multiset{e}) == a + b
  {}

  lemma {:induction false} StepKeepsEvents(config: Config, s: State, step: Step)
    requires Enabled(s, step) && EventsOk(s)
    ensures EventsOk(Next(config, s, step))
  {
    hide Numbers, Sent, UpTo, React;
    match step
    case Arrives(incoming) =>
      match React(config, s.authenticated, incoming) {
        case Replies(id, reply) => AnswerKeepsEvents(s, Answer(|s.history|, id, reply));
        case _ =>
      }
    case Finishes(k) => AnswerKeepsEvents(s, Answer(s.tasks[k].line, Some(s.tasks[k].id), Reply.Handled));
    case Issues(subscription) => IssueKeepsEvents(s, subscription);
    case Sends(e) => SendKeepsEvents(s, e);
    case _ =>
  }

  ghost predicate Inv(config: Config, s: State) {
    GateOk(config, s) && AnswersOk(s) && IdsOk(s) && EventsOk(s)
  }

  lemma OpenedOk(config: Config)
    ensures Inv(config, OPENED)
  {}

  lemma {:induction false} InvHolds(config: Config, s: State, steps: seq<Step>)
    requires Runs(config, s, steps) && Inv(config, s)
    ensures Inv(config, Run(config, s, steps))
    decreases |steps|
  {
    hide GateOk, AnswersOk, IdsOk, EventsOk;
    if steps != [] {
      Keeps(config, s, steps[0]);
      InvHolds(config, Next(config, s, steps[0]), steps[1..]);
    }
  }

  // ------------------------------------------------------------ the theorems

  /**
   A handler is started for a line exactly when it is a request for a registered
   method and an earlier hello was accepted, or it is the shutdown with the token.
   */
  lemma {:induction false} HandlersStartIff(config: Config, steps: seq<Step>, k: nat)
    requires Runs(config, OPENED, steps) && k < |Run(config, OPENED, steps).history|
    ensures var s := Run(config, OPENED, steps); k in s.started <==> MayStart(config, s.history, k)
  {
    OpenedOk(config);
    InvHolds(config, OPENED, steps);
  }

  /** A line gets at most one answer, with its own id; exactly one, if it wants one, when serving ends by shutdown. */
  lemma {:induction false} EachLineIsAnsweredOnce(config: Config, steps: seq<Step>, k: nat)
    requires Runs(config, OPENED, steps) && k < |Run(config, OPENED, steps).history|
    ensures var s := Run(config, OPENED, steps);
            && AnswerCount(s.outgoing, k) <= (if WantsAnswer(s.history[k]) then 1 else 0)
            && (s.phase == Drained ==> AnswerCount(s.outgoing, k) == if WantsAnswer(s.history[k]) then 1 else 0)
            && (forall i | 0 <= i < |s.outgoing| && s.outgoing[i].Answer? && s.outgoing[i].line == k ::
                  s.outgoing[i].id == IdOf(s.history[k]))
  {
    OpenedOk(config);
    InvHolds(config, OPENED, steps);
    NoneRunning(k);
  }

  /** The events of a subscription are numbered 1, 2, 3, … and each is sent once or still waits. */
  lemma {:induction false} EventsAreNumbered(config: Config, steps: seq<Step>, subscription: string)
    requires Runs(config, OPENED, steps)
    ensures var s := Run(config, OPENED, steps);
            && UpTo(Numbers(s.issued, subscription), |Numbers(s.issued, subscription)|)
            && multiset(s.issued) == s.unsent + Sent(s.outgoing)
  {
    OpenedOk(config);
    InvHolds(config, OPENED, steps);
  }

  // ------------------------------------------------------------ the connection

  /** The per-connection state; the history and the logs only serve to say what it does. */
  class Connection {
    const config: Config
    var phase: Phase
    var authenticated: bool
    var client: Option<string>
    var outgoing: seq<Out>
    var tasks: seq<Task>
    var seqs: map<string, nat>
    ghost var history: seq<Incoming>
    ghost var started: set<nat>
    ghost var issued: seq<(string, nat)>
    ghost var unsent: multiset<(string, nat)>
    var lines: nat

    ghost predicate Valid()
      reads this
    {
      lines == |history| && Inv(config, Now())
    }

    ghost function Now(): State
      reads this
    {
      State(phase, authenticated, client, history, tasks, started, outgoing, seqs, issued, unsent)
    }

    constructor (config: Config)
      ensures this.config == config && Valid() && Now() == OPENED
    {
      this.config, phase, authenticated, client := config, Serving, false, None;
      outgoing, tasks, seqs, lines := [], [], map[], 0;
      history, started, issued, unsent := [], {}, [], multiset{};
      new;
      OpenedOk(config);
    }

    /** `hello`: checks, in order, and the authenticated flag on success. */
    method SayHello(hello: Option<Hello>) returns (reply: Reply)
      modifies this`authenticated, this`client
      ensures reply == HelloReply(config, hello)
      ensures authenticated == (old(authenticated) || reply == Welcome)
      ensures client == if reply == Welcome then Some(hello.value.client) else old(client)
    {
      if hello.None? {
        return InvalidParams;
      }
      var p := hello.value;
      if p.apiVersion != config.apiVersion {
        return IncompatibleApi;
      }
      if config.token.Some? && p.token != config.token {
        return Unauthorized;
      }
      client := Some(p.client);
      authenticated := true;
      return Welcome;
    }

    method Respond(id: Option<Id>, reply: Reply)
      modifies this`outgoing
      ensures outgoing == old(outgoing) + [Answer(lines, id, reply)]
    {
      outgoing := outgoing + [Answer(lines, id, reply)];
    }

    method DispatchRequest(r: Request)
      modifies this`authenticated, this`client, this`outgoing, this`tasks, this`started
      requires lines == |history|
      ensures Now().(history := []) == Handle(config, old(Now()), Received(Call(r))).(history := [])
    {
      if r.name == HELLO {
        var reply := SayHello(r.hello);
        Respond(Some(r.id), reply);
        return;
      }
      if !authenticated && !ShutdownTokenOk(config, r) {
        Respond(Some(r.id), Unauthorized);
        return;
      }
      if r.name !in config.handlers {
        Respond(Some(r.id), MethodNotFound);
        return;
      }
      tasks := tasks + [Task(lines, r.id)];
      started := started + {lines};
    }

    /** One line off the wire. */
    method HandleLine(line: seq<Byte>, parse: seq<Byte> -> Option<Message>)
      requires Valid() && phase == Serving
      modifies this
      ensures Valid() && Now() == Next(config, old(Now()), Arrives(Classify(line, parse)))
    {
      hide Inv, TrimStart;
      ghost var incoming := Classify(line, parse);
      Keeps(config, Now(), Arrives(incoming));
      var trimmed := TrimStart(line);
      if trimmed == [] {
      } else if trimmed[0] == '[' as Byte {
        Respond(None, InvalidRequest);
      } else {
        var message := parse(line);
        if message.None? {
          Respond(None, ParseError);
        } else if message.value.Call? {
          DispatchRequest(message.value.request);
        }
      }
      history := history + [incoming];
      lines := lines + 1;
    }

    /** A line over the limit is answered, not read. */
    method HandleTooLong(bytes: nat)
      requires Valid() && phase == Serving
      modifies this
      ensures Valid() && Now() == Next(config, old(Now()), Arrives(Oversized(bytes)))
    {
      hide Inv;
      Keeps(config, Now(), Arrives(Oversized(bytes)));
      Respond(None, InvalidRequest);
      history := history + [Oversized(bytes)];
      lines := lines + 1;
    }

    /** A handler comes back, with a result, an error or a panic: it is answered either way. */
    method FinishTask(i: nat)
      requires Valid() && phase in {Serving, Draining} && i < |tasks|
      modifies this
      ensures Valid() && Now() == Next(config, old(Now()), Finishes(i))
    {
      hide Inv;
      Keeps(config, Now(), Finishes(i));
      outgoing := outgoing + [Answer(tasks[i].line, Some(tasks[i].id), Reply.Handled)];
      tasks := tasks[..i] + tasks[i + 1..];
    }

    /** `event_params`: the next number of the subscription. */
    method EventParams(subscription: string) returns (number: nat)
      requires Valid() && phase in {Serving, Draining}
      modifies this
      ensures Valid() && Now() == Next(config, old(Now()), Issues(subscription))
      ensures number == |Numbers(old(issued), subscription)| + 1
    {
      hide Inv, Numbers;
      Keeps(config, Now(), Issues(subscription));
      NextNumber(config, Now(), subscription);
      number := SeqOf(seqs, subscription) + 1;
      seqs := seqs[subscription := number];
      issued := issued + [(subscription, number)];
      unsent := unsent + multiset{(subscription, number)};
    }

    /** Serving ends by shutdown: running handlers finish, in any order, and then the connection closes. */
    method ShutDown()
      requires Valid() && phase == Serving
      modifies this
      ensures Valid() && phase == Drained && history == old(history)
      ensures forall k | 0 <= k < |history| :: AnswerCount(outgoing, k) == if WantsAnswer(history[k]) then 1 else 0
    {
      hide Inv, AnswerCount;
      Keeps(config, Now(), ShutsDown);
      phase := Draining;
      while tasks != []
        invariant Valid() && phase == Draining && history == old(history)
        decreases |tasks|
      {
        var i :| 0 <= i < |tasks|;
        FinishTask(i);
      }
      Keeps(config, Now(), Drains);
      AllAnswered(config, Now());
      phase := Drained;
    }
  }

  lemma {:induction false} Keeps(config: Config, s: State, step: Step)
    requires Enabled(s, step) && Inv(config, s)
    ensures Inv(config, Next(config, s, step))
  {
    hide GateOk, AnswersOk, IdsOk, EventsOk;
    StepKeepsGate(config, s, step);
    StepKeepsAnswers(config, s, step);
    StepKeepsIds(config, s, step);
    StepKeepsEvents(config, s, step);
  }

  lemma NextNumber(config: Config, s: State, subscription: string)
    requires Inv(config, s)
    ensures SeqOf(s.seqs, subscription) == |Numbers(s.issued, subscription)|
  {
    assert UpTo(Numbers(s.issued, subscription), SeqOf(s.seqs, subscription));
  }

  lemma AllAnswered(config: Config, s: State)
    requires Inv(config, s) && s.tasks == [] && s.phase != Dropped
    ensures forall k | 0 <= k < |s.history| :: AnswerCount(s.outgoing, k) == if WantsAnswer(s.history[k]) then 1 else 0
  {
    forall k | 0 <= k < |s.history|
      ensures AnswerCount(s.outgoing, k) == if WantsAnswer(s.history[k]) then 1 else 0
    {
      NoneRunning(k);
    }
  }
}
