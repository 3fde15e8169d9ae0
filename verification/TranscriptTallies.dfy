/**
 What a run of events adds up to in the transcript of `Transcript`: the tallies
 of an agent's turn, the progress and the end of a call, and the end of the run.
 */
module TranscriptTallies {
  import opened Common
  import opened Transcript

  type Events = seq<(Notification, int)>

  /** Every event is of a type this build knows and is accepted when it comes. */
  predicate Flows(t: Transcript, ns: Events)
    decreases |ns|
  {
    ns == [] || (Accepts(t, ns[0].0) && ns[0].0.event.Some? && Flows(ApplyEvent(t, ns[0].0, ns[0].1), ns[1..]))
  }

  // ------------------------------------------------------------ what the events say

  function Reports(ns: Events, agent: string): nat {
    if ns == [] then 0 else ReportsOf(ns[0].0.event, agent) + Reports(ns[1..], agent)
  }

  function Tokens(ns: Events, agent: string): nat {
    if ns == [] then 0 else TokensOf(ns[0].0.event, agent) + Tokens(ns[1..], agent)
  }

  function AddCost(cost: Option<real>, more: Option<real>): Option<real> {
    if more.None? then cost else Some((if cost.Some? then cost.value else 0.0) + more.value)
  }

  function CostBy(e: Option<Event>, agent: string): Option<real> {
    match e case Some(UsageOf(a, _, cost)) => (if a == agent then cost else None) case _ => None
  }

  /** What the events add to a cost; nothing known stays unknown until a report names one. */
  function Costs(ns: Events, agent: string, cost: Option<real>): Option<real> {
    if ns == [] then cost else Costs(ns[1..], agent, AddCost(cost, CostBy(ns[0].0.event, agent)))
  }

  /** The agent an event is about; a log line that names none is about the agent of the run, if it is known. */
  function About(e: Event, main: Option<string>): Option<string> {
    if e.Log? then (if e.about.Some? then e.about else main) else Some(e.agent)
  }

  /** The agent of the run, which the first event about an agent tells. */
  function Main(e: Option<Event>, main: Option<string>): Option<string> {
    if main.Some? || e.None? then main else About(e.value, main)
  }

  function NoteOf(e: Option<Event>, agent: string, main: Option<string>): seq<string> {
    match e
    case Some(Noted(a, text)) => if a == agent then [text] else []
    case Some(Log(about, text)) => if About(e.value, main) == Some(agent) then [text] else []
    case _ => []
  }

  /** The notes about an agent. */
  function Texts(ns: Events, agent: string, main: Option<string>): seq<string> {
    if ns == [] then []
    else NoteOf(ns[0].0.event, agent, main) + Texts(ns[1..], agent, Main(ns[0].0.event, main))
  }

  function ProgressBy(e: Option<Event>, call: string): seq<string> {
    match e case Some(ToolProgress(_, c, text)) => (if c == call then [text] else []) case _ => []
  }

  function Progress(ns: Events, call: string): seq<string> {
    if ns == [] then [] else ProgressBy(ns[0].0.event, call) + Progress(ns[1..], call)
  }

  /** A decision about a call; an automatic permission is none. */
  function DecisionBy(e: Option<Event>, call: string): Option<bool> {
    match e
    case Some(PermissionDecision(_, c, _, deny, byRule)) => if c == call && (deny || !byRule) then Some(deny) else None
    case _ => None
  }

  /** The last one. */
  function Decision(ns: Events, call: string): Option<bool> {
    if ns == [] then None
    else if Decision(ns[1..], call).Some? then Decision(ns[1..], call)
    else DecisionBy(ns[0].0.event, call)
  }

  // ------------------------------------------------------------ what the transcript shows

  function CallsOf(t: Transcript, agent: string): nat {
    if agent in t.agents then t.agents[agent].calls else 0
  }

  function UsageIn(t: Transcript, agent: string): nat {
    if agent in t.agents then t.agents[agent].usage else 0
  }

  function CostIn(t: Transcript, agent: string): Option<real> {
    if agent in t.agents then t.agents[agent].costUsd else None
  }

  function NotesOf(t: Transcript, agent: string): seq<string> {
    if agent in t.agents then t.agents[agent].notes else []
  }

  function ProgressOf(t: Transcript, call: string): seq<string> {
    if call in t.calls then t.calls[call].progress else []
  }

  predicate Denied(t: Transcript, call: string) {
    call in t.calls && t.calls[call].denied
  }

  function ReportsOf(e: Option<Event>, agent: string): nat {
    match e case Some(UsageOf(a, _, _)) => (if a == agent then 1 else 0) case _ => 0
  }

  function TokensOf(e: Option<Event>, agent: string): nat {
    match e case Some(UsageOf(a, n, _)) => (if a == agent then n else 0) case _ => 0
  }

  lemma EventTallies(t: Transcript, n: Notification, now: int, agent: string)
    requires Accepts(t, n) && n.event.Some?
    ensures var t' := ApplyEvent(t, n, now);
            && t'.live.Some? && t'.live.value.agentId == Main(n.event, t.live.value.agentId)
            && CallsOf(t', agent) == CallsOf(t, agent) + ReportsOf(n.event, agent)
            && UsageIn(t', agent) == UsageIn(t, agent) + TokensOf(n.event, agent)
            && CostIn(t', agent) == AddCost(CostIn(t, agent), CostBy(n.event, agent))
            && NotesOf(t', agent) == NotesOf(t, agent) + NoteOf(n.event, agent, t.live.value.agentId)
  {}

  /** An agent's usage and cost, its number of calls and its notes are what the accepted events say, in order, on top of what was there. */
  lemma {:induction false} TalliesAddUp(t: Transcript, ns: Events, agent: string)
    requires Flows(t, ns) && t.live.Some?
    ensures var t' := Folded(t, ns);
            && CallsOf(t', agent) == CallsOf(t, agent) + Reports(ns, agent)
            && UsageIn(t', agent) == UsageIn(t, agent) + Tokens(ns, agent)
            && CostIn(t', agent) == Costs(ns, agent, CostIn(t, agent))
            && NotesOf(t', agent) == NotesOf(t, agent) + Texts(ns, agent, t.live.value.agentId)
    decreases |ns|
  {
    hide Accepts, ApplyEvent, CallsOf, UsageIn, CostIn, AddCost, CostBy, NotesOf, NoteOf, Main;
    if ns == [] {
      assert NotesOf(t, agent) + [] == NotesOf(t, agent);
    } else {
      var (n, now) := ns[0];
      var main := t.live.value.agentId;
      EventTallies(t, n, now, agent);
      TalliesAddUp(ApplyEvent(t, n, now), ns[1..], agent);
      Regroup(NotesOf(t, agent), NoteOf(n.event, agent, main), Texts(ns[1..], agent, Main(n.event, main)));
    }
  }

  lemma Regroup(a: seq<string>, b: seq<string>, c: seq<string>)
    ensures a + b + c == a + (b + c)
  {}

  // ------------------------------------------------------------ calls

  lemma EventOnCall(t: Transcript, n: Notification, now: int, call: string)
    requires Accepts(t, n) && n.event.Some?
    ensures var t' := ApplyEvent(t, n, now);
            && ProgressOf(t', call) == ProgressOf(t, call) + ProgressBy(n.event, call)
            && (Denied(t', call) <==>
                if DecisionBy(n.event, call).Some? then DecisionBy(n.event, call).value else Denied(t, call))
  {}

  /** A call's progress is what its events said, in order, and it counts as denied by the last decision about it. */
  lemma {:induction false} CallsAddUp(t: Transcript, ns: Events, call: string)
    requires Flows(t, ns)
    ensures var t' := Folded(t, ns);
            && ProgressOf(t', call) == ProgressOf(t, call) + Progress(ns, call)
            && (Denied(t', call) <==> if Decision(ns, call).Some? then Decision(ns, call).value else Denied(t, call))
    decreases |ns|
  {
    hide Accepts, ApplyEvent, ProgressOf, Denied, ProgressBy, DecisionBy;
    if ns == [] {
      assert ProgressOf(t, call) + [] == ProgressOf(t, call);
    } else {
      var (n, now) := ns[0];
      EventOnCall(t, n, now, call);
      CallsAddUp(ApplyEvent(t, n, now), ns[1..], call);
      Regroup(ProgressOf(t, call), ProgressBy(n.event, call), Progress(ns[1..], call));
    }
  }

  /** How a call ends: well if its result says so, else denied if the last decision was to deny it, else in error. */
  lemma {:induction false} ResultDecides(
      t: Transcript, ns: Events, n: Notification, now: int, agent: string, call: string, newName: Option<string>, ok: bool,
      eventId: Option<string>)
    requires Flows(t, ns) && Accepts(Folded(t, ns), n)
    requires n.event == Some(ToolResult(agent, call, newName, ok, eventId))
    ensures var t' := ApplyEvent(Folded(t, ns), n, now);
            && call in t'.calls
            && (ok ==> t'.calls[call].status == CallOk)
            && (!ok && Decision(ns, call) == Some(true) ==> t'.calls[call].status == CallDenied)
            && (!ok && Decision(ns, call) == Some(false) ==> t'.calls[call].status == CallError)
            && (!ok && Decision(ns, call) == None ==>
                  t'.calls[call].status == if Denied(t, call) then CallDenied else CallError)
            && (newName.Some? ==> t'.calls[call].name == newName.value)
            && (eventId.Some? ==> t'.calls[call].eventId == eventId)
            && t'.calls[call].progress == ProgressOf(t, call) + Progress(ns, call)
  {
    CallsAddUp(t, ns, call);
  }

  /** An event about one call, or about none, leaves every other call alone; only the end of the run ends those still running. */
  lemma OtherCallsStay(t: Transcript, n: Notification, now: int, call: string)
    requires Accepts(t, n) && n.event.Some?
    requires match n.event.value
             case ToolCall(_, c, _) => c != call
             case ToolProgress(_, c, _) => c != call
             case ToolResult(_, c, _, _, _) => c != call
             case PermissionDecision(_, c, _, _, _) => c != call
             case _ => true
    ensures var t' := ApplyEvent(t, n, now);
            && (call in t'.calls <==> call in t.calls)
            && (call in t.calls && !(n.event.value.Finished? && t.calls[call].status == CallRunning) ==>
                  t'.calls[call] == t.calls[call])
            && (call in t.calls && n.event.value.Finished? && t.calls[call].status == CallRunning ==>
                  t'.calls[call] == t.calls[call].(status := CallError))
  {}

  /** A call that starts runs under its name, whatever was known of it. */
  lemma CallStarts(t: Transcript, n: Notification, now: int, agent: string, call: string, name: string)
    requires Accepts(t, n) && n.event == Some(ToolCall(agent, call, name))
    ensures var t' := ApplyEvent(t, n, now);
            && call in t'.calls && t'.calls[call].status == CallRunning && t'.calls[call].name == name
            && t'.calls[call].progress == ProgressOf(t, call)
            && t'.live.Some? && t'.live.value.steps != []
            && var step := t'.live.value.steps[|t'.live.value.steps| - 1];
               step.calls != [] && step.calls[|step.calls| - 1] == call
  {}

  /** How the run ended is on record with its agent, and the other agents are as they were. */
  lemma EndIsRecorded(
      t: Transcript, n: Notification, now: int, agent: string, how: EndStatus, error: Option<string>, truncated: bool)
    requires Accepts(t, n) && n.event == Some(Finished(agent, how, error, truncated))
    ensures var t' := ApplyEvent(t, n, now);
            && agent in t'.agents
            && t'.agents[agent].status == Ended(how) && t'.agents[agent].endedAt == Some(now)
            && (error.Some? ==> t'.agents[agent].error == error)
            && (truncated ==> t'.agents[agent].truncated)
            && (forall a | a in t.agents && a != agent :: a in t'.agents && t'.agents[a] == t.agents[a])
            && t'.messages == t.messages && t'.live.Some? && t'.live.value.phase == Done
            && t'.live.value.steps == t.live.value.steps
  {}

  // ------------------------------------------------------------ what a stored page takes from the overlay

  /** A row that stores a step of the run. */
  predicate StoresStep(m: Message, agent: string, before: nat) {
    m.role == AssistantRole && m.agentId == Some(agent) && m.number > before
  }

  lemma {:induction false} MineSnoc(page: seq<Message>, m: Message, agent: string)
    ensures Mine(page + [m], agent) == Mine(page, agent) + if m.agentId == Some(agent) then [m] else []
  {
    if page == [] {
      assert [] + [m] == [m] && [m][1..] == [];
    } else {
      assert (page + [m])[1..] == page[1..] + [m];
      MineSnoc(page[1..], m, agent);
    }
  }

  lemma {:induction false} StoredSnoc(rows: seq<Message>, m: Message, before: nat)
    ensures StoredSteps(rows + [m], before) ==
            StoredSteps(rows, before) + if m.role == AssistantRole && m.number > before then 1 else 0
  {
    if rows == [] {
      assert [] + [m] == [m] && [m][1..] == [];
    } else {
      assert (rows + [m])[1..] == rows[1..] + [m];
      StoredSnoc(rows[1..], m, before);
    }
  }

  /** The places of such rows among the first `n`. */
  function Places(page: seq<Message>, n: nat, agent: string, before: nat): set<nat>
    requires n <= |page|
  {
    set i: nat | i < n && StoresStep(page[i], agent, before)
  }

  lemma PlaceAdded(page: seq<Message>, n: nat, agent: string, before: nat)
    requires 0 < n <= |page|
    ensures |Places(page, n, agent, before)| ==
            |Places(page, n - 1, agent, before)| + if StoresStep(page[n - 1], agent, before) then 1 else 0
  {
    var some := Places(page, n - 1, agent, before);
    assert n - 1 !in some;
    assert Places(page, n, agent, before) == if StoresStep(page[n - 1], agent, before) then some + {n - 1} else some;
  }

  lemma {:induction false} StepsAreCounted(page: seq<Message>, n: nat, agent: string, before: nat)
    requires n <= |page|
    ensures StoredSteps(Mine(page[..n], agent), before) == |Places(page, n, agent, before)|
  {
    if n == 0 {
      assert Places(page, 0, agent, before) == {};
    } else {
      hide Mine, StoredSteps, Places;
      var m, mine := page[n - 1], Mine(page[..n - 1], agent);
      StepsAreCounted(page, n - 1, agent, before);
      PlaceAdded(page, n, agent, before);
      assert page[..n] == page[..n - 1] + [m] && mine + [] == mine;
      MineSnoc(page[..n - 1], m, agent);
      StoredSnoc(mine, m, before);
    }
  }

  lemma {:induction false} UserRowOfMine(page: seq<Message>, agent: string)
    ensures HasUserRow(Mine(page, agent)) <==>
            exists i | 0 <= i < |page| :: page[i].role == UserRole && page[i].agentId == Some(agent)
  {
    if page != [] {
      UserRowOfMine(page[1..], agent);
      var rest := Mine(page[1..], agent);
      assert forall i | 0 <= i < |page| - 1 :: page[1..][i] == page[i + 1];
      assert forall i | 0 < i < |page| :: page[i] == page[1..][i - 1];
      if page[0].agentId == Some(agent) {
        assert forall i | 0 <= i < |rest| :: ([page[0]] + rest)[i + 1] == rest[i];
        assert ([page[0]] + rest)[0] == page[0];
      }
    }
  }

  /**
   A page takes from the overlay one step, the oldest, for each assistant row of
   the run that is new, and the prompt once a user row of the run is stored.
   */
  lemma {:induction false} PageTakesSteps(t: Transcript, page: Page, mode: Mode, agent: string)
    requires t.live.Some? && t.live.value.agentId == Some(agent)
    ensures var t', live := MergeStored(t, page, mode), t.live.value;
            var n := |Places(page.messages, |page.messages|, agent, MaxSeq(t.messages))|;
            && t'.live.Some?
            && t'.live.value.steps == (if n >= |live.steps| then [] else live.steps[n..])
            && t'.live.value.prompt ==
               (if exists i | 0 <= i < |page.messages| ::
                     page.messages[i].role == UserRole && page.messages[i].agentId == Some(agent)
                then None else live.prompt)
            && t'.live.value.(steps := live.steps, prompt := live.prompt) == live
  {
    StepsAreCounted(page.messages, |page.messages|, agent, MaxSeq(t.messages));
    assert page.messages[..|page.messages|] == page.messages;
    UserRowOfMine(page.messages, agent);
  }

  predicate Among(o: Outcome, outcomes: seq<Outcome>) {
    exists i | 0 <= i < |outcomes| :: outcomes[i].eventId == o.eventId
  }

  /** A page never takes calls from an agent, believes whoever counted more, and loses no outcome of either side. */
  lemma {:induction false} PageKnowsAgents(t: Transcript, page: Page, mode: Mode, id: string)
    ensures id !in page.agents ==>
              (id in MergeStored(t, page, mode).agents <==> id in t.agents)
              && (id in t.agents ==> MergeStored(t, page, mode).agents[id] == t.agents[id])
    ensures id in page.agents ==>
              && id in MergeStored(t, page, mode).agents
              && var stored, turn := page.agents[id], MergeStored(t, page, mode).agents[id];
              && turn.calls >= stored.calls && turn.calls >= CallsOf(t, id)
              && (turn.calls == stored.calls || turn.calls == CallsOf(t, id))
              && turn.usage == (if stored.calls >= CallsOf(t, id) then stored.usage else UsageIn(t, id))
              && stored.outcomes <= turn.outcomes
              && (forall o | o in (if id in t.agents then t.agents[id].outcomes else []) :: Among(o, turn.outcomes))
              && (id !in t.agents || t.agents[id].status == Running || stored.status != Running ==> turn.status == stored.status)
  {
    if id in page.agents {
      var base := if id in t.agents then t.agents[id].outcomes else [];
      OutcomesKept(page.agents[id].outcomes, base);
    }
  }

  lemma {:induction false} OutcomesKept(stored: seq<Outcome>, extra: seq<Outcome>)
    ensures forall o | o in extra :: Among(o, MergeOutcomes(stored, extra))
  {
    forall o | o in extra ensures Among(o, MergeOutcomes(stored, extra)) {
      if HasOutcome(stored, o.eventId) {
        var i :| 0 <= i < |stored| && stored[i].eventId == o.eventId;
        assert MergeOutcomes(stored, extra)[i] == stored[i];
      } else {
        OtherKept(stored, extra, o);
        var i :| 0 <= i < |Others(stored, extra)| && Others(stored, extra)[i] == o;
        assert MergeOutcomes(stored, extra)[|stored| + i] == o;
      }
    }
  }

  lemma {:induction false} OtherKept(stored: seq<Outcome>, extra: seq<Outcome>, o: Outcome)
    requires o in extra && !HasOutcome(stored, o.eventId)
    ensures o in Others(stored, extra)
  {
    if extra[0] != o {
      OtherKept(stored, extra[1..], o);
    }
  }
}
