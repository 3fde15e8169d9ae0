/**
 The transcript of a session: stored rows that arrive in pages, and a live
 overlay folded from events. Both are folded into one value, in any order.
 */
module Transcript {
  import opened Common

  // ------------------------------------------------------------ data

  datatype EndStatus = Fine | Cancelled | Failed

  datatype Status = Running | Ended(how: EndStatus)

  datatype Role = UserRole | AssistantRole | SystemRole

  datatype Message = Message(number: nat, role: Role, agentId: Option<string>, content: string)

  datatype Outcome = Outcome(eventId: string, kind: string)

  datatype Turn = Turn(
    status: Status, calls: nat, usage: nat, costUsd: Option<real>, model: Option<string>, startedAt: Option<int>,
    endedAt: Option<int>, error: Option<string>, truncated: bool, notes: seq<string>, outcomes: seq<Outcome>, lastSeq: nat)

  datatype Summary = Summary(
    status: Status, calls: nat, usage: nat, costUsd: Option<real>, model: Option<string>, startedAt: Option<int>,
    endedAt: Option<int>, error: Option<string>, outcomes: seq<Outcome>)

  datatype CallStatus = CallRunning | CallOk | CallError | CallDenied

  datatype CallMeta = CallMeta(name: string, status: CallStatus, progress: seq<string>, denied: bool, eventId: Option<string>)

  datatype LiveStep = LiveStep(number: nat, thinking: string, text: string, calls: seq<string>)

  datatype Phase = Starting | Active | Cancelling | Done

  datatype Live = Live(
    phase: Phase, agentId: Option<string>, subscription: Option<string>, prompt: Option<string>, steps: seq<LiveStep>,
    error: Option<string>)

  datatype Transcript = Transcript(
    info: Option<string>, messages: seq<Message>, hasOlder: bool, calls: map<string, CallMeta>, agents: map<string, Turn>,
    live: Option<Live>, loading: bool, loadError: Option<string>)

  /** A page of `session.get`; the daemon lists each agent once. */
  datatype Page = Page(session: string, messages: seq<Message>, hasMore: bool, agents: map<string, Summary>)

  datatype Mode = Newest | Older | Refresh

  // ------------------------------------------------------------ stored rows

  predicate Ascending(messages: seq<Message>) {
    forall i, j | 0 <= i < j < |messages| :: messages[i].number < messages[j].number
  }

  function RowAt(messages: seq<Message>, n: nat): Option<Message> {
    if messages == [] then None
    else if messages[0].number == n then Some(messages[0])
    else RowAt(messages[1..], n)
  }

  /** A row with a known number replaces its row; another is put in order. */
  function Upsert(messages: seq<Message>, m: Message): seq<Message> {
    if messages == [] || m.number < messages[0].number then [m] + messages
    else if m.number == messages[0].number then [m] + messages[1..]
    else [messages[0]] + Upsert(messages[1..], m)
  }

  function Merged(messages: seq<Message>, page: seq<Message>): seq<Message>
    decreases |page|
  {
    if page == [] then messages else Merged(Upsert(messages, page[0]), page[1..])
  }

  /** The last row of the page with a number. */
  function LastRow(page: seq<Message>, n: nat): Option<Message> {
    if page == [] then None
    else if LastRow(page[1..], n).Some? then LastRow(page[1..], n)
    else if page[0].number == n then Some(page[0])
    else None
  }

  lemma {:induction false} UpsertKeeps(messages: seq<Message>, m: Message)
    requires Ascending(messages)
    ensures Ascending(Upsert(messages, m))
    ensures Upsert(messages, m) != []
    ensures Upsert(messages, m)[0] == m || (messages != [] && Upsert(messages, m)[0] == messages[0])
    ensures forall n :: RowAt(Upsert(messages, m), n) == if n == m.number then Some(m) else RowAt(messages, n)
  {
    if messages == [] || m.number < messages[0].number {
      assert ([m] + messages)[1..] == messages;
      NoneBelow(messages, m.number);
    } else if m.number == messages[0].number {
      assert ([m] + messages[1..])[1..] == messages[1..];
    } else {
      UpsertKeeps(messages[1..], m);
      var rest := Upsert(messages[1..], m);
      assert ([messages[0]] + rest)[1..] == rest;
      assert Ascending([messages[0]] + rest) by {
        AscendingCons(messages[0], rest);
      }
    }
  }

  lemma AscendingCons(m: Message, rest: seq<Message>)
    requires Ascending(rest) && (rest != [] ==> m.number < rest[0].number)
    ensures Ascending([m] + rest)
  {
    forall i, j | 0 <= i < j < |[m] + rest| ensures ([m] + rest)[i].number < ([m] + rest)[j].number {
      assert j > 0 ==> rest[0].number <= rest[j - 1].number;
    }
  }

  lemma {:induction false} NoneBelow(messages: seq<Message>, n: nat)
    requires messages != [] ==> n < messages[0].number
    requires Ascending(messages)
    ensures RowAt(messages, n).None?
  {
    if messages != [] {
      NoneBelow(messages[1..], n);
    }
  }

  lemma RowHere(a: seq<Message>)
    requires a != []
    ensures RowAt(a, a[0].number) == Some(a[0])
  {}

  /** Ascending rows are known by their numbers. */
  lemma {:induction false} SameRows(a: seq<Message>, b: seq<Message>)
    requires Ascending(a) && Ascending(b) && forall n :: RowAt(a, n) == RowAt(b, n)
    ensures a == b
  {
    if a != [] {
      RowHere(a);
    }
    if b != [] {
      RowHere(b);
    }
    if a != [] && b != [] {
      FirstRow(a, b);
      FirstRow(b, a);
      forall n ensures RowAt(a[1..], n) == RowAt(b[1..], n) {
        if n == a[0].number {
          NoneBelow(a[1..], n);
          NoneBelow(b[1..], n);
        } else {
          assert RowAt(a, n) == RowAt(b, n);
        }
      }
      SameRows(a[1..], b[1..]);
    }
  }

  lemma {:induction false} FirstRow(a: seq<Message>, b: seq<Message>)
    requires a != [] && b != [] && Ascending(a) && Ascending(b) && forall n :: RowAt(a, n) == RowAt(b, n)
    ensures b[0].number <= a[0].number
    ensures a[0].number == b[0].number ==> a[0] == b[0]
  {
    assert RowAt(a, a[0].number) == Some(a[0]);
    if a[0].number < b[0].number {
      NoneBelow(b, a[0].number);
    }
  }

  /** Merging keeps the rows in order; the page's last word on a number wins. */
  lemma {:induction false} MergedReads(messages: seq<Message>, page: seq<Message>)
    requires Ascending(messages)
    ensures Ascending(Merged(messages, page))
    ensures forall n ::
              RowAt(Merged(messages, page), n) == if LastRow(page, n).Some? then LastRow(page, n) else RowAt(messages, n)
    decreases |page|
  {
    if page != [] {
      UpsertKeeps(messages, page[0]);
      MergedReads(Upsert(messages, page[0]), page[1..]);
    }
  }

  lemma {:induction false} MergedTwice(messages: seq<Message>, page: seq<Message>)
    requires Ascending(messages)
    ensures Merged(Merged(messages, page), page) == Merged(messages, page)
  {
    var once := Merged(messages, page);
    MergedReads(messages, page);
    MergedReads(once, page);
    forall n ensures RowAt(Merged(once, page), n) == RowAt(once, n) {
    }
    SameRows(Merged(once, page), once);
  }

  /** The same with a map and a sort, as `mergeStored` does it. */
  method MergeRows(messages: seq<Message>, page: seq<Message>) returns (rows: seq<Message>)
    requires Ascending(messages)
    ensures rows == Merged(messages, page)
  {
    var byNumber: map<nat, Message> := map[];
    for i := 0 to |messages|
      invariant forall n | n in byNumber :: byNumber[n].number == n
      invariant forall n :: RowAt(messages, n) ==
                  if RowAt(messages[i..], n).Some? then RowAt(messages[i..], n)
                  else if n in byNumber then Some(byNumber[n]) else None
    {
      assert messages[i..][1..] == messages[i + 1..];
      AscendingTail(messages, i);
      NoneBelow(messages[i + 1..], messages[i].number);
      byNumber := byNumber[messages[i].number := messages[i]];
    }
    ghost var stored := byNumber;
    for i := 0 to |page|
      invariant forall n | n in byNumber :: byNumber[n].number == n
      invariant forall n ::
                  (if LastRow(page[i..], n).Some? then LastRow(page[i..], n)
                   else if n in byNumber then Some(byNumber[n]) else None)
                  == if LastRow(page, n).Some? then LastRow(page, n) else if n in stored then Some(stored[n]) else None
    {
      assert page[i..][1..] == page[i + 1..];
      byNumber := byNumber[page[i].number := page[i]];
    }
    rows := [];
    var left := byNumber.Keys;
    while left != {}
      invariant left <= byNumber.Keys && Ascending(rows)
      invariant forall n :: RowAt(rows, n) == if n in byNumber && n !in left then Some(byNumber[n]) else None
      decreases left
    {
      var n :| n in left;
      UpsertKeeps(rows, byNumber[n]);
      rows := Upsert(rows, byNumber[n]);
      left := left - {n};
    }
    MergedReads(messages, page);
    SameRows(rows, Merged(messages, page));
  }

  lemma AscendingTail(messages: seq<Message>, i: nat)
    requires Ascending(messages) && i < |messages|
    ensures Ascending(messages[i..]) && Ascending(messages[i + 1..])
    ensures i + 1 < |messages| ==> messages[i].number < messages[i + 1..][0].number
  {}

  function MaxSeq(messages: seq<Message>): nat {
    if messages == [] then 0 else messages[|messages| - 1].number
  }

  // ------------------------------------------------------------ agents

  predicate HasOutcome(outcomes: seq<Outcome>, eventId: string) {
    exists i | 0 <= i < |outcomes| :: outcomes[i].eventId == eventId
  }

  function Others(stored: seq<Outcome>, extra: seq<Outcome>): seq<Outcome> {
    if extra == [] then []
    else if HasOutcome(stored, extra[0].eventId) then Others(stored, extra[1..])
    else [extra[0]] + Others(stored, extra[1..])
  }

  /** `mergeOutcomes`: the stored ones first, then what they do not have. */
  function MergeOutcomes(stored: seq<Outcome>, extra: seq<Outcome>): seq<Outcome> {
    stored + Others(stored, extra)
  }

  lemma {:induction false} OthersOfStored(stored: seq<Outcome>, part: seq<Outcome>, extra: seq<Outcome>)
    requires forall o | o in part :: o in stored
    ensures Others(stored, part + extra) == Others(stored, extra)
  {
    if part == [] {
      assert part + extra == extra;
    } else {
      assert (part + extra)[1..] == part[1..] + extra;
      assert part[0] in part;
      var k :| 0 <= k < |stored| && stored[k] == part[0];
      assert HasOutcome(stored, part[0].eventId);
      OthersOfStored(stored, part[1..], extra);
    }
  }

  lemma {:induction false} OthersTwice(stored: seq<Outcome>, extra: seq<Outcome>)
    ensures Others(stored, Others(stored, extra)) == Others(stored, extra)
  {
    if extra != [] {
      OthersTwice(stored, extra[1..]);
      if !HasOutcome(stored, extra[0].eventId) {
        assert Others(stored, extra) == [extra[0]] + Others(stored, extra[1..]);
        assert Others(stored, extra)[1..] == Others(stored, extra[1..]);
      }
    }
  }

  lemma {:induction false} OutcomesTwice(stored: seq<Outcome>, extra: seq<Outcome>)
    ensures MergeOutcomes(stored, MergeOutcomes(stored, extra)) == MergeOutcomes(stored, extra)
  {
    OthersOfStored(stored, stored, Others(stored, extra));
    OthersTwice(stored, extra);
  }

  function Max(a: nat, b: nat): nat {
    if a < b then b else a
  }

  function FreshTurn(status: Status): Turn {
    Turn(status, 0, 0, None, None, None, None, None, false, [], [], 0)
  }

  function OrElse<T>(a: Option<T>, b: Option<T>): Option<T> {
    if a.Some? then a else b
  }

  /** `turnFromSummary`: a run that the events know to be over stays over. */
  function TurnFromSummary(a: Summary, previous: Option<Turn>): Turn {
    var base := if previous.Some? then previous.value else FreshTurn(a.status);
    base.(
      status := if base.status != Running && a.status == Running then base.status else a.status,
      calls := Max(base.calls, a.calls),
      usage := if a.calls >= base.calls then a.usage else base.usage,
      outcomes := MergeOutcomes(a.outcomes, base.outcomes),
      error := OrElse(base.error, a.error),
      model := OrElse(a.model, base.model),
      costUsd := if a.costUsd.Some? && a.calls >= base.calls then a.costUsd else base.costUsd,
      startedAt := OrElse(a.startedAt, base.startedAt),
      endedAt := OrElse(a.endedAt, base.endedAt))
  }

  lemma {:induction false} SummaryTwice(a: Summary, previous: Option<Turn>)
    ensures TurnFromSummary(a, Some(TurnFromSummary(a, previous))) == TurnFromSummary(a, previous)
  {
    var base := if previous.Some? then previous.value else FreshTurn(a.status);
    OutcomesTwice(a.outcomes, base.outcomes);
  }

  function Look<T>(m: map<string, T>, key: string): Option<T> {
    if key in m then Some(m[key]) else None
  }

  // ------------------------------------------------------------ folding a page in

  function Mine(page: seq<Message>, agentId: string): seq<Message> {
    if page == [] then []
    else if page[0].agentId != Some(agentId) then Mine(page[1..], agentId)
    else [page[0]] + Mine(page[1..], agentId)
  }

  predicate HasUserRow(rows: seq<Message>) {
    exists i | 0 <= i < |rows| :: rows[i].role == UserRole
  }

  /** The assistant rows past the last known one: that many steps are stored now. */
  function StoredSteps(rows: seq<Message>, before: nat): nat {
    if rows == [] then 0
    else StoredSteps(rows[1..], before) + if rows[0].role == AssistantRole && rows[0].number > before then 1 else 0
  }

  function DropSteps(steps: seq<LiveStep>, n: nat): seq<LiveStep> {
    if n >= |steps| then [] else steps[n..]
  }

  function MergeLive(live: Live, page: Page, before: nat): Live {
    if live.agentId.None? then live
    else
      var mine := Mine(page.messages, live.agentId.value);
      live.(prompt := if HasUserRow(mine) then None else live.prompt,
            steps := DropSteps(live.steps, StoredSteps(mine, before)))
  }

  function MergeAgents(agents: map<string, Turn>, page: map<string, Summary>): map<string, Turn> {
    map id | id in agents.Keys + page.Keys ::
      if id in page then TurnFromSummary(page[id], Look(agents, id)) else agents[id]
  }

  /** `mergeStored`. */
  function MergeStored(t: Transcript, page: Page, mode: Mode): Transcript {
    t.(info := Some(page.session),
       messages := Merged(t.messages, page.messages),
       hasOlder := if mode == Refresh then t.hasOlder else page.hasMore,
       agents := MergeAgents(t.agents, page.agents),
       loading := false, loadError := None,
       live := if t.live.Some? then Some(MergeLive(t.live.value, page, MaxSeq(t.messages))) else None)
  }

  lemma {:induction false} MaxIsLast(messages: seq<Message>, n: nat)
    requires Ascending(messages) && RowAt(messages, n).Some?
    ensures n <= MaxSeq(messages)
  {
    if messages[0].number != n {
      MaxIsLast(messages[1..], n);
    }
  }

  lemma {:induction false} NothingNew(rows: seq<Message>, before: nat)
    requires forall m | m in rows :: m.number <= before
    ensures StoredSteps(rows, before) == 0
  {
    if rows != [] {
      NothingNew(rows[1..], before);
    }
  }

  lemma {:induction false} MineIsPart(page: seq<Message>, agentId: string)
    ensures forall m | m in Mine(page, agentId) :: m in page
  {
    if page != [] {
      MineIsPart(page[1..], agentId);
    }
  }

  lemma {:induction false} PageRowsStored(messages: seq<Message>, page: seq<Message>)
    requires Ascending(messages)
    ensures forall m | m in page :: m.number <= MaxSeq(Merged(messages, page))
  {
    MergedReads(messages, page);
    forall m | m in page ensures m.number <= MaxSeq(Merged(messages, page)) {
      InLastRow(page, m);
      MaxIsLast(Merged(messages, page), m.number);
    }
  }

  lemma {:induction false} InLastRow(page: seq<Message>, m: Message)
    requires m in page
    ensures LastRow(page, m.number).Some?
  {
    if page[0] != m {
      InLastRow(page[1..], m);
    }
  }

  lemma {:induction false} AgentsTwice(agents: map<string, Turn>, page: map<string, Summary>)
    ensures MergeAgents(MergeAgents(agents, page), page) == MergeAgents(agents, page)
  {
    hide TurnFromSummary;
    var once := MergeAgents(agents, page);
    var twice := MergeAgents(once, page);
    forall id | id in twice ensures id in once && twice[id] == once[id] {
      if id in page {
        SummaryTwice(page[id], Look(agents, id));
      }
    }
    assert twice.Keys == once.Keys;
  }

  lemma {:induction false} LiveTwice(live: Live, page: Page, before: nat, after: nat)
    requires forall m | m in page.messages :: m.number <= after
    ensures MergeLive(MergeLive(live, page, before), page, after) == MergeLive(live, page, before)
  {
    if live.agentId.Some? {
      var mine := Mine(page.messages, live.agentId.value);
      MineIsPart(page.messages, live.agentId.value);
      NothingNew(mine, after);
    }
  }

  /** Merging a page twice is merging it once. */
  lemma {:induction false} MergeIsIdempotent(t: Transcript, page: Page, mode: Mode)
    requires Ascending(t.messages)
    ensures MergeStored(MergeStored(t, page, mode), page, mode) == MergeStored(t, page, mode)
  {
    hide Merged, MergeAgents, MergeLive;
    MergedTwice(t.messages, page.messages);
    AgentsTwice(t.agents, page.agents);
    PageRowsStored(t.messages, page.messages);
    if t.live.Some? {
      LiveTwice(t.live.value, page, MaxSeq(t.messages), MaxSeq(Merged(t.messages, page.messages)));
    }
  }

  // ------------------------------------------------------------ the live run

  datatype Event =
    | Started(agent: string)
    | TextDelta(agent: string, text: string)
    | ThinkingDelta(agent: string, text: string)
    | MentorStep(agent: string, number: nat)
    | ToolsStep(agent: string)
    | ToolCall(agent: string, callId: string, name: string)
    | ToolProgress(agent: string, callId: string, text: string)
    | ToolResult(agent: string, callId: string, newName: Option<string>, ok: bool, eventId: Option<string>)
    | UsageOf(agent: string, tokens: nat, cost: Option<real>)
    | Noted(agent: string, text: string)
    | OutcomeOf(agent: string, outcome: Outcome)
    | Finished(agent: string, how: EndStatus, error: Option<string>, truncated: bool)
    | PermissionDecision(agent: string, callId: string, tool: string, deny: bool, byRule: bool)
    | Log(about: Option<string>, text: string)

  /** An event on a subscription; a type this build does not know is `None`. */
  datatype Notification = Notification(subscription: string, number: nat, event: Option<Event>)

  function AgentOf(e: Event, live: Live): Option<string> {
    if e.Log? then OrElse(e.about, live.agentId) else Some(e.agent)
  }

  /** Adds to the current step, the first if there is none yet. */
  function OnLast(steps: seq<LiveStep>, text: string, thinking: string, calls: seq<string>): seq<LiveStep> {
    if steps == [] then [LiveStep(1, thinking, text, calls)]
    else
      var s := steps[|steps| - 1];
      steps[|steps| - 1 := s.(text := s.text + text, thinking := s.thinking + thinking, calls := s.calls + calls)]
  }

  function TurnOf(agents: map<string, Turn>, id: string): Turn {
    if id in agents then agents[id] else FreshTurn(Running)
  }

  function CallOf(calls: map<string, CallMeta>, id: string): CallMeta {
    if id in calls then calls[id] else CallMeta("", CallRunning, [], false, None)
  }

  function StepsAfter(steps: seq<LiveStep>, e: Event): seq<LiveStep> {
    match e
    case TextDelta(_, text) => OnLast(steps, text, "", [])
    case ThinkingDelta(_, text) => OnLast(steps, "", text, [])
    case MentorStep(_, n) =>
      if steps != [] && steps[|steps| - 1].number == n then steps else steps + [LiveStep(n, "", "", [])]
    case ToolCall(_, callId, _) => OnLast(steps, "", "", [callId])
    case _ => steps
  }

  function TurnAfter(turn: Turn, e: Event, now: int): Turn {
    match e
    case UsageOf(_, tokens, cost) =>
      turn.(calls := turn.calls + 1, usage := turn.usage + tokens,
            costUsd := if cost.Some? then Some((if turn.costUsd.Some? then turn.costUsd.value else 0.0) + cost.value)
                       else turn.costUsd)
    case Noted(_, text) => turn.(notes := turn.notes + [text])
    case Log(_, text) => turn.(notes := turn.notes + [text])
    case OutcomeOf(_, outcome) => turn.(outcomes := MergeOutcomes(turn.outcomes, [outcome]))
    case Finished(_, how, error, truncated) =>
      turn.(status := Ended(how), endedAt := Some(now), error := OrElse(error, turn.error),
            truncated := turn.truncated || truncated)
    case _ => turn
  }

  function CallsAfter(calls: map<string, CallMeta>, e: Event): map<string, CallMeta> {
    match e
    case ToolCall(_, id, name) => calls[id := CallOf(calls, id).(name := name, status := CallRunning)]
    case ToolProgress(_, id, text) => calls[id := CallOf(calls, id).(progress := CallOf(calls, id).progress + [text])]
    case ToolResult(_, id, newName, ok, eventId) =>
      var meta := CallOf(calls, id);
      calls[id := meta.(
        name := if newName.Some? then newName.value else meta.name,
        status := if ok then CallOk else if meta.denied then CallDenied else CallError,
        eventId := OrElse(eventId, meta.eventId))]
    case PermissionDecision(_, id, tool, deny, byRule) =>
      if byRule && !deny then calls
      else
        var meta := CallOf(calls, id);
        calls[id := meta.(
          name := if meta.name == "" then tool else meta.name, denied := deny,
          status := if deny then CallDenied else meta.status)]
    // Calls still running when the agent ended.
    case Finished(_, _, _, _) =>
      map id | id in calls :: if calls[id].status == CallRunning then calls[id].(status := CallError) else calls[id]
    case _ => calls
  }

  /** Events count only while a run is on, and only from its subscription. */
  predicate Accepts(t: Transcript, n: Notification) {
    && t.live.Some? && t.live.value.phase != Done
    && (t.live.value.subscription.Some? ==> n.subscription == t.live.value.subscription.value)
  }

  function Seen(turn: Turn, number: nat, now: int): Turn {
    turn.(lastSeq := Max(turn.lastSeq, number), startedAt := OrElse(turn.startedAt, Some(now)))
  }

  /** `applyEvent`. */
  function ApplyEvent(t: Transcript, n: Notification, now: int): Transcript {
    if !Accepts(t, n) then t
    else
      var live := t.live.value.(
        phase := if t.live.value.phase == Starting then Active else t.live.value.phase,
        subscription := Some(n.subscription));
      if n.event.None? then t.(live := Some(live))
      else
        var e := n.event.value;
        var agent := AgentOf(e, live);
        var known := live.(
          agentId := OrElse(live.agentId, agent), steps := StepsAfter(live.steps, e),
          phase := if e.Finished? then Done else live.phase);
        t.(live := Some(known), calls := CallsAfter(t.calls, e),
           agents := if agent.None? then t.agents
                     else t.agents[agent.value := TurnAfter(Seen(TurnOf(t.agents, agent.value), n.number, now), e, now)])
  }

  /** `startLive`. */
  function StartLive(t: Transcript, prompt: string): Transcript {
    t.(live := Some(Live(Starting, None, None, Some(prompt), [], None)))
  }

  /** `attachLive`. */
  function AttachLive(t: Transcript, agent: string, subscription: Option<string>, now: int): Transcript {
    var live := if t.live.Some? then t.live.value else Live(Starting, None, None, None, [], None);
    t.(live := Some(live.(
         phase := if live.phase == Starting then Active else live.phase, agentId := Some(agent),
         subscription := OrElse(subscription, live.subscription))),
       agents := if agent in t.agents then t.agents else t.agents[agent := FreshTurn(Running).(startedAt := Some(now))])
  }

  /** `failLive`. */
  function FailLive(t: Transcript, error: string): Transcript {
    var live := if t.live.Some? then t.live.value else Live(Done, None, None, None, [], None);
    t.(live := Some(live.(phase := Done, error := Some(error))))
  }

  /** `cancellingLive`. */
  function CancellingLive(t: Transcript): Transcript {
    if t.live.None? || t.live.value.phase != Active then t else t.(live := Some(t.live.value.(phase := Cancelling)))
  }

  /** `clearLive`. */
  function ClearLive(t: Transcript): Transcript {
    if t.live.Some? && t.live.value.phase == Done && t.live.value.error.None? && t.live.value.prompt.None?
       && t.live.value.steps == []
    then t.(live := None) else t
  }

  /** `addOutcome`. */
  function AddOutcome(t: Transcript, agent: string, outcome: Outcome): Transcript {
    var turn := TurnOf(t.agents, agent);
    t.(agents := t.agents[agent := turn.(outcomes := MergeOutcomes(turn.outcomes, [outcome]))])
  }

  // ------------------------------------------------------------ runs

  datatype Action =
    | Applies(notification: Notification, now: int)
    | Merges(page: Page, mode: Mode)
    | Starts(prompt: string)
    | Attaches(agent: string, subscription: Option<string>, at: int)
    | Fails(error: string)
    | Cancels
    | Clears
    | Marks(agent: string, outcome: Outcome)

  function Next(t: Transcript, a: Action): Transcript {
    match a
    case Applies(n, now) => ApplyEvent(t, n, now)
    case Merges(page, mode) => MergeStored(t, page, mode)
    case Starts(prompt) => StartLive(t, prompt)
    case Attaches(agent, subscription, at) => AttachLive(t, agent, subscription, at)
    case Fails(error) => FailLive(t, error)
    case Cancels => CancellingLive(t)
    case Clears => ClearLive(t)
    case Marks(agent, outcome) => AddOutcome(t, agent, outcome)
  }

  /** The transcript with the text and the thinking accepted since the run was started. */
  datatype Journal = Journal(t: Transcript, text: string, thinking: string)

  function TextOf(t: Transcript, a: Action): string {
    if a.Applies? && Accepts(t, a.notification) && a.notification.event.Some? && a.notification.event.value.TextDelta?
    then a.notification.event.value.text else ""
  }

  function ThinkingOf(t: Transcript, a: Action): string {
    if a.Applies? && Accepts(t, a.notification) && a.notification.event.Some? && a.notification.event.value.ThinkingDelta?
    then a.notification.event.value.text else ""
  }

  function Logged(log: Journal, a: Action): Journal {
    if a.Starts? then Journal(Next(log.t, a), "", "")
    else Journal(Next(log.t, a), log.text + TextOf(log.t, a), log.thinking + ThinkingOf(log.t, a))
  }

  function Run(log: Journal, actions: seq<Action>): Journal
    decreases |actions|
  {
    if actions == [] then log else Run(Logged(log, actions[0]), actions[1..])
  }

  function LiveText(steps: seq<LiveStep>): string {
    if steps == [] then "" else LiveText(steps[..|steps| - 1]) + steps[|steps| - 1].text
  }

  function LiveThinking(steps: seq<LiveStep>): string {
    if steps == [] then "" else LiveThinking(steps[..|steps| - 1]) + steps[|steps| - 1].thinking
  }

  predicate IsSuffix(part: string, whole: string) {
    |part| <= |whole| && whole[|whole| - |part|..] == part
  }

  ghost predicate Sound(log: Journal) {
    && Ascending(log.t.messages)
    && (log.t.live.Some? ==>
          && IsSuffix(LiveText(log.t.live.value.steps), log.text)
          && IsSuffix(LiveThinking(log.t.live.value.steps), log.thinking))
  }

  const EMPTY := Transcript(None, [], false, map[], map[], None, false, None)

  lemma SuffixOfSuffix(a: string, b: string, c: string)
    requires IsSuffix(a, b) && IsSuffix(b, c)
    ensures IsSuffix(a, c)
  {}

  lemma SuffixGrows(part: string, whole: string, more: string)
    requires IsSuffix(part, whole)
    ensures IsSuffix(part + more, whole + more)
  {
    assert (whole + more)[|whole| - |part|..] == whole[|whole| - |part|..] + more;
  }

  lemma EmptySuffix(whole: string)
    ensures IsSuffix("", whole)
  {}

  lemma {:induction false} DroppingText(steps: seq<LiveStep>, n: nat)
    ensures IsSuffix(LiveText(DropSteps(steps, n)), LiveText(steps))
  {
    hide IsSuffix;
    if n >= |steps| {
      EmptySuffix(LiveText(steps));
    } else {
      var init, rest := steps[..|steps| - 1], steps[n..];
      DroppingText(init, n);
      assert rest[..|rest| - 1] == DropSteps(init, n);
      SuffixGrows(LiveText(DropSteps(init, n)), LiveText(init), steps[|steps| - 1].text);
    }
  }

  lemma {:induction false} DroppingThinking(steps: seq<LiveStep>, n: nat)
    ensures IsSuffix(LiveThinking(DropSteps(steps, n)), LiveThinking(steps))
  {
    hide IsSuffix;
    if n >= |steps| {
      EmptySuffix(LiveThinking(steps));
    } else {
      var init, rest := steps[..|steps| - 1], steps[n..];
      DroppingThinking(init, n);
      assert rest[..|rest| - 1] == DropSteps(init, n);
      SuffixGrows(LiveThinking(DropSteps(init, n)), LiveThinking(init), steps[|steps| - 1].thinking);
    }
  }

  lemma {:induction false} LastGrows(steps: seq<LiveStep>, text: string, thinking: string, calls: seq<string>)
    ensures LiveText(OnLast(steps, text, thinking, calls)) == LiveText(steps) + text
    ensures LiveThinking(OnLast(steps, text, thinking, calls)) == LiveThinking(steps) + thinking
  {
    var after := OnLast(steps, text, thinking, calls);
    if steps == [] {
      assert after[..0] == [];
    } else {
      assert after[..|after| - 1] == steps[..|steps| - 1];
    }
  }

  lemma {:induction false} StepsGrow(steps: seq<LiveStep>, e: Event)
    ensures LiveText(StepsAfter(steps, e)) == LiveText(steps) + if e.TextDelta? then e.text else ""
    ensures LiveThinking(StepsAfter(steps, e)) == LiveThinking(steps) + if e.ThinkingDelta? then e.text else ""
  {
    match e
    case TextDelta(_, text) => LastGrows(steps, text, "", []);
    case ThinkingDelta(_, text) => LastGrows(steps, "", text, []);
    case ToolCall(_, callId, _) => LastGrows(steps, "", "", [callId]);
    case MentorStep(_, n) =>
      var after := StepsAfter(steps, e);
      if after != steps {
        assert after[..|after| - 1] == steps;
      }
    case _ =>
  }

  lemma {:induction false} EventKeeps(log: Journal, n: Notification, now: int)
    requires Sound(log)
    ensures Sound(Logged(log, Applies(n, now)))
  {
    if Accepts(log.t, n) && n.event.Some? {
      var steps := log.t.live.value.steps;
      StepsGrow(steps, n.event.value);
      SuffixGrows(LiveText(steps), log.text, TextOf(log.t, Applies(n, now)));
      SuffixGrows(LiveThinking(steps), log.thinking, ThinkingOf(log.t, Applies(n, now)));
    }
  }

  lemma NothingSaid(log: Journal, a: Action)
    requires !a.Applies? && !a.Starts?
    ensures Logged(log, a) == Journal(Next(log.t, a), log.text, log.thinking)
  {}

  lemma {:induction false} PageKeeps(log: Journal, page: Page, mode: Mode)
    requires Sound(log)
    ensures Sound(Logged(log, Merges(page, mode)))
  {
    hide Merged, MergeAgents, IsSuffix, LiveText, LiveThinking, DropSteps, Mine, StoredSteps, MaxSeq, Ascending;
    MergedReads(log.t.messages, page.messages);
    NothingSaid(log, Merges(page, mode));
    if log.t.live.Some? && log.t.live.value.agentId.Some? {
      var live := log.t.live.value;
      var n := StoredSteps(Mine(page.messages, live.agentId.value), MaxSeq(log.t.messages));
      DroppingText(live.steps, n);
      DroppingThinking(live.steps, n);
      SuffixOfSuffix(LiveText(DropSteps(live.steps, n)), LiveText(live.steps), log.text);
      SuffixOfSuffix(LiveThinking(DropSteps(live.steps, n)), LiveThinking(live.steps), log.thinking);
    }
  }

  lemma {:induction false} ActionKeeps(log: Journal, a: Action)
    requires Sound(log)
    ensures Sound(Logged(log, a))
  {
    hide IsSuffix, Ascending;
    match a
    case Applies(n, now) => EventKeeps(log, n, now);
    case Merges(page, mode) => PageKeeps(log, page, mode);
    case Starts(prompt) => EmptySuffix("");
    case _ => OverlayKeeps(log, a);
  }

  /** The other actions leave the rows and the steps alone, or make an empty overlay. */
  lemma {:induction false} OverlayKeeps(log: Journal, a: Action)
    requires Sound(log) && !a.Applies? && !a.Starts? && !a.Merges?
    ensures Sound(Logged(log, a))
  {
    hide IsSuffix, Ascending;
    NothingSaid(log, a);
    EmptySuffix(log.text);
    EmptySuffix(log.thinking);
  }

  /**
   In every run the stored rows are strictly ascending, and the live text and
   thinking are the last part of what the run's events said, in order.
   */
  lemma {:induction false} RunKeeps(log: Journal, actions: seq<Action>)
    requires Sound(log)
    ensures Sound(Run(log, actions))
    decreases |actions|
  {
    if actions != [] {
      ActionKeeps(log, actions[0]);
      RunKeeps(Logged(log, actions[0]), actions[1..]);
    }
  }

  lemma {:induction false} TranscriptsAreSound(actions: seq<Action>)
    ensures Sound(Run(Journal(EMPTY, "", ""), actions))
  {
    RunKeeps(Journal(EMPTY, "", ""), actions);
  }

  // ------------------------------------------------------------ what never goes back

  predicate IsOver(agents: map<string, Turn>, id: string) {
    id in agents && agents[id].status != Running
  }

  lemma {:induction false} OverStaysOver(t: Transcript, a: Action, id: string)
    requires IsOver(t.agents, id)
    ensures IsOver(Next(t, a).agents, id)
  {}

  /** Once an agent's run is over, no action of any kind makes it run again. */
  lemma {:induction false} StatusNeverGoesBack(log: Journal, actions: seq<Action>, id: string)
    requires IsOver(log.t.agents, id)
    ensures IsOver(Run(log, actions).t.agents, id)
    decreases |actions|
  {
    if actions != [] {
      OverStaysOver(log.t, actions[0], id);
      StatusNeverGoesBack(Logged(log, actions[0]), actions[1..], id);
    }
  }

  /** A finished overlay absorbs every event, and no call of a finished run is left running. */
  lemma {:induction false} FinishedAbsorbs(t: Transcript, how: Notification, now: int, ns: seq<(Notification, int)>)
    requires Accepts(t, how) && how.event.Some? && how.event.value.Finished?
    ensures var done := ApplyEvent(t, how, now);
            && done.live.value.phase == Done
            && IsOver(done.agents, how.event.value.agent)
            && (forall id | id in done.calls :: done.calls[id].status != CallRunning)
            && Folded(done, ns) == done
  {
    AbsorbsAll(ApplyEvent(t, how, now), ns);
  }

  function Folded(t: Transcript, ns: seq<(Notification, int)>): Transcript
    decreases |ns|
  {
    if ns == [] then t else Folded(ApplyEvent(t, ns[0].0, ns[0].1), ns[1..])
  }

  lemma {:induction false} AbsorbsAll(t: Transcript, ns: seq<(Notification, int)>)
    requires t.live.None? || t.live.value.phase == Done
    ensures Folded(t, ns) == t
  {
    if ns != [] {
      AbsorbsAll(t, ns[1..]);
    }
  }

  /** Two chats never cross: once a run knows its subscription, another's events change nothing. */
  lemma OthersAreIgnored(t: Transcript, n: Notification, now: int)
    requires t.live.Some? && t.live.value.subscription.Some? && t.live.value.subscription.value != n.subscription
    ensures ApplyEvent(t, n, now) == t
  {}
}
