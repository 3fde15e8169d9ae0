/**
 Event routing in the client. Every notification of the daemon names a
 subscription. It goes to that subscription's bounded channel, or waits
 unclaimed (under a cap over all subscriptions) until somebody subscribes.
 A consumer that does not keep up loses events, and is told how many. The
 terminal event is never lost.
 */
module EventRouting {
  import opened Common

  type Key = string

  /** An event of the daemon; `terminal` is `agent.finished`. */
  datatype Note = Note(key: Key, seqNo: nat, payload: string, terminal: bool)

  /** What travels in a channel: an event, or the client's own notice that `count` events were dropped. */
  datatype Item = Event(note: Note) | Dropped(key: Key, count: nat)

  /** The sending side a subscription holds, and how many events it dropped since it last said so. */
  datatype Subscription = Subscription(wire: nat, dropped: nat)

  /**
   One channel from the router to one `EventStream`.

   `queue` is what the channel holds, `waiting` what `deliver_terminal` spawned
   and still has to send, `gone` that the stream was dropped.
   The remaining fields only record what happened: everything put into the
   channel, everything the consumer took out, every event routed to this
   channel, and dropped events that nobody is left to announce.
   */
  datatype Wire = Wire(
    key: Key, capacity: nat, queue: seq<Item>, waiting: seq<Item>, gone: bool,
    sent: seq<Item>, received: seq<Item>, routed: seq<Note>, abandoned: nat)

  /** Events held for subscriptions nobody claimed, over all of them. */
  const PENDING_EVENT_CAP := 1024

  datatype State = State(
    subs: map<Key, Subscription>, wires: seq<Wire>,
    count: nat, backlog: map<Key, seq<Note>>,
    closed: bool, buffer: nat)

  // ------------------------------------------------------------ counting

  predicate IsTerminal(i: Item) {
    i.Event? && i.note.terminal
  }

  /** The events among `items`, in order. */
  function EventsOf(items: seq<Item>): seq<Note> {
    if items == [] then []
    else
      var last := items[|items| - 1];
      if last.Event? then EventsOf(items[..|items| - 1]) + [last.note] else EventsOf(items[..|items| - 1])
  }

  /** How many of `notes` are not terminal. */
  function Plain(notes: seq<Note>): nat {
    if notes == [] then 0
    else Plain(notes[..|notes| - 1]) + (if notes[|notes| - 1].terminal then 0 else 1)
  }

  /** How many drops the notices among `items` announce. */
  function Announced(items: seq<Item>): nat {
    if items == [] then 0
    else Announced(items[..|items| - 1]) + (if items[|items| - 1].Dropped? then items[|items| - 1].count else 0)
  }

  /** `a` is `b` with some elements left out. */
  predicate Subsequence<T(==)>(a: seq<T>, b: seq<T>) {
    || a == []
    || (b != [] && a[|a| - 1] == b[|b| - 1] && Subsequence(a[..|a| - 1], b[..|b| - 1]))
    || (b != [] && Subsequence(a, b[..|b| - 1]))
  }

  /** Events held in a backlog, over all keys. */
  ghost function Total(backlog: map<Key, seq<Note>>): nat {
    if backlog == map[] then 0
    else
      var k :| k in backlog;
      |backlog[k]| + Total(backlog - {k})
  }

  // ------------------------------------------------------------ one channel

  predicate HasRoom(w: Wire) {
    !w.gone && |w.queue| < w.capacity
  }

  function Put(w: Wire, i: Item): Wire {
    w.(queue := w.queue + [i], sent := w.sent + [i])
  }

  /** `try_send`: fails when the channel is full or the stream is gone. */
  function TrySend(w: Wire, i: Item): Wire {
    if HasRoom(w) then Put(w, i) else w
  }

  /** A plain event is routed to the channel and kept if there is room. */
  function Routed(w: Wire, note: Note): Wire {
    TrySend(w, Event(note)).(routed := w.routed + [note])
  }

  /** The consumer takes up to `n` items. */
  function Taken(w: Wire, n: nat): Wire {
    var m := if n < |w.queue| then n else |w.queue|;
    w.(queue := w.queue[m..], received := w.received + w.queue[..m])
  }

  /** The consumer drops its stream; what the channel still held goes with it. */
  function Gone(w: Wire): Wire {
    w.(gone := true, queue := [])
  }

  /** A plain event for a claimed subscription; the consumer may take `between` items between the two sends. */
  function Offer(w: Wire, dropped: nat, note: Note, between: nat): (Wire, nat) {
    var told := dropped > 0 && HasRoom(w);
    var w1 := Taken(if told then Put(w, Dropped(note.key, dropped)) else w, between);
    var d1 := if told then 0 else dropped;
    (Routed(w1, note), if HasRoom(w1) then d1 else d1 + 1)
  }

  /** `deliver_terminal`: the notice, if one is due, and then the event wait to be sent. */
  function Finish(w: Wire, dropped: nat, note: Note): Wire {
    w.(waiting := (if dropped > 0 then [Dropped(note.key, dropped)] else []) + [Event(note)], routed := w.routed + [note])
  }

  /** One such send, when there is room; a dropped stream ends them. */
  function Pump(w: Wire): Wire {
    if w.waiting == [] then w
    else if w.gone then w.(waiting := [], abandoned := w.abandoned + Announced(w.waiting))
    else if HasRoom(w) then Put(w, w.waiting[0]).(waiting := w.waiting[1..])
    else w
  }

  /** The sender is dropped with `dropped` drops not announced. */
  function Abandon(w: Wire, dropped: nat): Wire {
    w.(abandoned := w.abandoned + dropped)
  }

  /** Hands a backlog to a new channel, up to and including a terminal event. */
  function Drain(w: Wire, dropped: nat, notes: seq<Note>): (Wire, nat, bool)
    decreases |notes|
  {
    if notes == [] then (w, dropped, false)
    else if notes[0].terminal then (Finish(w, dropped, notes[0]), 0, true)
    else
      var sent := Routed(w, notes[0]);
      Drain(sent, if HasRoom(w) then dropped else dropped + 1, notes[1..])
  }

  // ------------------------------------------------------------ the invariant of one channel

  /** Everything the consumer got or will get. */
  function Stream(w: Wire): seq<Item> {
    w.sent + w.waiting
  }

  /** `notes` ends with its terminal event. */
  predicate Ended(notes: seq<Note>) {
    notes != [] && notes[|notes| - 1].terminal
  }

  /** Only the last event, if any, is terminal. */
  predicate TerminalLast(notes: seq<Note>) {
    forall i | 0 <= i < |notes| - 1 :: !notes[i].terminal
  }

  /** A terminal event is the last thing in `items`, and it is the one that ends `routed`. */
  predicate NothingFollows(items: seq<Item>, routed: seq<Note>) {
    forall i | 0 <= i < |items| && IsTerminal(items[i]) ::
      i == |items| - 1 && Ended(routed) && items[i] == Event(routed[|routed| - 1])
  }

  /**
   The account of one channel: delivered events, announced drops and drops not
   yet announced add up to the events routed; what is delivered keeps the
   arrival order; nothing follows the terminal event.
   */
  predicate Ledger(items: seq<Item>, routed: seq<Note>, unsaid: nat) {
    && Plain(EventsOf(items)) + Announced(items) + unsaid == Plain(routed)
    && Subsequence(EventsOf(items), routed)
    && NothingFollows(items, routed)
    && TerminalLast(routed)
  }

  /** What `deliver_terminal` may still have to send. */
  predicate WaitingOk(items: seq<Item>) {
    || items == []
    || (|items| == 1 && IsTerminal(items[0]))
    || (|items| == 2 && items[0].Dropped? && IsTerminal(items[1]))
  }

  /** The channel is bounded and hands over what was sent, in order. */
  predicate ChannelOk(w: Wire) {
    && 1 <= w.capacity && |w.queue| <= w.capacity
    && (if w.gone then w.queue == [] && w.received <= w.sent else w.sent == w.received + w.queue)
    && WaitingOk(w.waiting)
  }

  predicate AccountOk(w: Wire, open: Option<nat>) {
    && (open.Some? ==> w.waiting == [] && w.abandoned == 0 && !Ended(w.routed))
    && Ledger(Stream(w), w.routed, if open.Some? then open.value else w.abandoned)
    && (Ended(w.routed) && !w.gone ==> Stream(w) != [] && Stream(w)[|Stream(w)| - 1] == Event(w.routed[|w.routed| - 1]))
  }

  /**
   `open` is the drop counter of the subscription that still sends to `w`, or
   `None` when no subscription does.
   */
  predicate WireOk(w: Wire, open: Option<nat>) {
    ChannelOk(w) && AccountOk(w, open)
  }

  // ------------------------------------------------------------ the ledger, one entry at a time

  lemma {:induction false} Snoc(items: seq<Item>, x: Item)
    ensures EventsOf(items + [x]) == if x.Event? then EventsOf(items) + [x.note] else EventsOf(items)
    ensures Announced(items + [x]) == Announced(items) + (if x.Dropped? then x.count else 0)
  {
    assert (items + [x])[..|items|] == items;
  }

  lemma {:induction false} PlainSnoc(notes: seq<Note>, n: Note)
    ensures Plain(notes + [n]) == Plain(notes) + (if n.terminal then 0 else 1)
  {
    assert (notes + [n])[..|notes|] == notes;
  }

  lemma {:induction false} SubsequenceSnoc<T>(a: seq<T>, b: seq<T>, x: T)
    requires Subsequence(a, b)
    ensures Subsequence(a, b + [x]) && Subsequence(a + [x], b + [x])
  {
    assert (b + [x])[..|b|] == b && (a + [x])[..|a|] == a;
  }

  lemma {:induction false} SubsequenceOfInit<T>(a: seq<T>, x: T, b: seq<T>)
    requires Subsequence(a + [x], b)
    ensures Subsequence(a, b)
    decreases |b|
  {
    var b' := b[..|b| - 1];
    assert (a + [x])[..|a|] == a && b == b' + [b[|b| - 1]];
    if !(x == b[|b| - 1] && Subsequence(a, b')) {
      SubsequenceOfInit(a, x, b');
    }
    SubsequenceSnoc(a, b', b[|b| - 1]);
  }

  /** A notice moves the counter into the stream. */
  lemma {:induction false} NoticeEntry(items: seq<Item>, routed: seq<Note>, d: nat, key: Key)
    requires Ledger(items, routed, d) && !Ended(routed)
    ensures Ledger(items + [Dropped(key, d)], routed, 0)
  {
    Snoc(items, Dropped(key, d));
  }

  lemma {:induction false} DeliveredEntry(items: seq<Item>, routed: seq<Note>, d: nat, item: Item)
    requires Ledger(items, routed, d) && !Ended(routed) && item.Event?
    ensures Ledger(items + [item], routed + [item.note], d)
  {
    Snoc(items, item);
    PlainSnoc(routed, item.note);
    PlainSnoc(EventsOf(items), item.note);
    SubsequenceSnoc(EventsOf(items), routed, item.note);
  }

  lemma {:induction false} DroppedEntry(items: seq<Item>, routed: seq<Note>, d: nat, note: Note)
    requires Ledger(items, routed, d) && !Ended(routed) && !note.terminal
    ensures Ledger(items, routed + [note], d + 1)
  {
    PlainSnoc(routed, note);
    SubsequenceSnoc(EventsOf(items), routed, note);
  }

  /** Taking back a last entry that will not be sent: its drops stay unsaid. */
  lemma {:induction false} RevokedEntry(items: seq<Item>, x: Item, routed: seq<Note>, d: nat)
    requires Ledger(items + [x], routed, d) && (x.Dropped? || IsTerminal(x))
    ensures Ledger(items, routed, d + if x.Dropped? then x.count else 0)
  {
    Snoc(items, x);
    assert forall i | 0 <= i < |items| :: (items + [x])[i] == items[i];
    if x.Event? {
      PlainSnoc(EventsOf(items), x.note);
      SubsequenceOfInit(EventsOf(items), x.note, routed);
    }
  }

  // ------------------------------------------------------------ one channel keeps its invariant

  /** Nothing but the channel itself changes when the consumer takes items. */
  lemma TakenOk(w: Wire, open: Option<nat>, n: nat)
    requires WireOk(w, open)
    ensures WireOk(Taken(w, n), open)
  {
    TakenChannelOk(w, n);
    assert Stream(Taken(w, n)) == Stream(w);
  }

  lemma TakenChannelOk(w: Wire, n: nat)
    requires ChannelOk(w)
    ensures ChannelOk(Taken(w, n))
  {
    var m := if n < |w.queue| then n else |w.queue|;
    assert w.queue == w.queue[..m] + w.queue[m..];
    if !w.gone {
      assert w.received + w.queue[..m] + w.queue[m..] == w.received + w.queue;
    }
  }

  lemma PutChannelOk(w: Wire, x: Item)
    requires ChannelOk(w)
    ensures ChannelOk(TrySend(w, x))
  {
    if HasRoom(w) {
      assert w.received + (w.queue + [x]) == w.received + w.queue + [x];
    }
  }

  lemma NoticeOk(w: Wire, d: nat, key: Key)
    requires WireOk(w, Some(d)) && HasRoom(w)
    ensures WireOk(Put(w, Dropped(key, d)), Some(0))
  {
    PutChannelOk(w, Dropped(key, d));
    assert Stream(w) == w.sent && Stream(Put(w, Dropped(key, d))) == w.sent + [Dropped(key, d)];
    NoticeEntry(w.sent, w.routed, d, key);
  }

  lemma RoutedOk(w: Wire, d: nat, note: Note)
    requires WireOk(w, Some(d)) && !note.terminal
    ensures WireOk(Routed(w, note), Some(if HasRoom(w) then d else d + 1))
  {
    PutChannelOk(w, Event(note));
    RoutedAccountOk(w, d, note);
  }

  lemma RoutedAccountOk(w: Wire, d: nat, note: Note)
    requires AccountOk(w, Some(d)) && !note.terminal
    ensures AccountOk(Routed(w, note), Some(if HasRoom(w) then d else d + 1))
  {
    assert Stream(w) == w.sent;
    if HasRoom(w) {
      DeliveredEntry(w.sent, w.routed, d, Event(note));
      assert Stream(Routed(w, note)) == w.sent + [Event(note)];
    } else {
      DroppedEntry(w.sent, w.routed, d, note);
      assert Stream(Routed(w, note)) == w.sent;
    }
  }

  lemma OfferOk(w: Wire, d: nat, note: Note, between: nat)
    requires WireOk(w, Some(d)) && !note.terminal
    ensures WireOk(Offer(w, d, note, between).0, Some(Offer(w, d, note, between).1))
  {
    var told := d > 0 && HasRoom(w);
    if told {
      NoticeOk(w, d, note.key);
    }
    var w0 := if told then Put(w, Dropped(note.key, d)) else w;
    var d1 := if told then 0 else d;
    TakenOk(w0, Some(d1), between);
    RoutedOk(Taken(w0, between), d1, note);
  }

  lemma FinishOk(w: Wire, d: nat, note: Note)
    requires WireOk(w, Some(d)) && note.terminal
    ensures WireOk(Finish(w, d, note), None)
  {
    var told := if d > 0 then w.sent + [Dropped(note.key, d)] else w.sent;
    assert Stream(w) == w.sent;
    assert Stream(Finish(w, d, note)) == told + [Event(note)];
    if d > 0 {
      NoticeEntry(w.sent, w.routed, d, note.key);
    }
    DeliveredEntry(told, w.routed, 0, Event(note));
  }

  lemma PumpOk(w: Wire)
    requires WireOk(w, None)
    ensures WireOk(Pump(w), None)
  {
    if w.waiting != [] && w.gone {
      GivenUpOk(w);
    } else {
      assert Stream(Pump(w)) == Stream(w);
    }
  }

  lemma GivenUpOk(w: Wire)
    requires WireOk(w, None) && w.gone && w.waiting != []
    ensures WireOk(Pump(w), None)
  {
    var n := |w.waiting|;
    var items := w.sent + w.waiting[..n - 1];
    assert Stream(w) == items + [w.waiting[n - 1]];
    RevokedEntry(items, w.waiting[n - 1], w.routed, w.abandoned);
    Snoc(w.waiting[..n - 1], w.waiting[n - 1]);
    assert w.waiting == w.waiting[..n - 1] + [w.waiting[n - 1]];
    assert Stream(Pump(w)) == w.sent;
    if n == 2 {
      assert items == w.sent + [w.waiting[0]];
      RevokedEntry(w.sent, w.waiting[0], w.routed, w.abandoned);
      Snoc([], w.waiting[0]);
      assert w.waiting[..1] == [] + [w.waiting[0]];
    } else {
      assert items == w.sent;
    }
  }

  lemma AbandonOk(w: Wire, d: nat)
    requires WireOk(w, Some(d))
    ensures WireOk(Abandon(w, d), None)
  {
    assert Stream(Abandon(w, d)) == Stream(w);
  }

  lemma GoneOk(w: Wire, open: Option<nat>)
    requires WireOk(w, open)
    ensures WireOk(Gone(w), open)
  {
    assert Stream(Gone(w)) == Stream(w);
    assert w.received <= w.sent;
  }

  lemma {:induction false} DrainOk(w: Wire, d: nat, notes: seq<Note>)
    requires WireOk(w, Some(d))
    ensures var (w', d', ended) := Drain(w, d, notes);
            WireOk(w', if ended then None else Some(d')) && w'.key == w.key && w.routed <= w'.routed
    decreases |notes|
  {
    if notes == [] {
    } else if notes[0].terminal {
      FinishOk(w, d, notes[0]);
    } else {
      RoutedOk(w, d, notes[0]);
      DrainOk(Routed(w, notes[0]), if HasRoom(w) then d else d + 1, notes[1..]);
    }
  }

  // ------------------------------------------------------------ the whole client

  /** One effect of the reader, a caller, a consumer or a waiting send. */
  datatype Step =
    | Arrive(note: Note, victim: Key, between: nat)  // `victim` is evicted if the cap is reached
    | Subscribe(key: Key)
    | Take(wire: nat, n: nat)
    | DropStream(wire: nat)
    | Send(wire: nat)
    | Close

  predicate Held(s: State, i: nat)
    requires i < |s.wires|
  {
    s.wires[i].key in s.subs && s.subs[s.wires[i].key].wire == i
  }

  /** The counter of the subscription sending to wire `i`, if one is. */
  function Open(s: State, i: nat): Option<nat>
    requires i < |s.wires|
  {
    if Held(s, i) then Some(s.subs[s.wires[i].key].dropped) else None
  }

  predicate Longest(backlog: map<Key, seq<Note>>, k: Key) {
    k in backlog && forall j | j in backlog :: |backlog[j]| <= |backlog[k]|
  }

  predicate Enabled(s: State, step: Step) {
    match step
    case Arrive(note, victim, _) => note.key !in s.subs && s.count >= PENDING_EVENT_CAP ==> Longest(s.backlog, victim)
    case Take(i, _) => i < |s.wires|
    case DropStream(i) => i < |s.wires|
    case Send(i) => i < |s.wires|
    case _ => true
  }

  /** The oldest event of one backlog goes; an emptied backlog goes with it. */
  function Evict(s: State, victim: Key): State
    requires victim in s.backlog && s.backlog[victim] != [] && s.count > 0
  {
    var rest := s.backlog[victim][1..];
    s.(count := s.count - 1, backlog := if rest == [] then s.backlog - {victim} else s.backlog[victim := rest])
  }

  function Keep(s: State, note: Note): State {
    var held := if note.key in s.backlog then s.backlog[note.key] else [];
    s.(count := s.count + 1, backlog := s.backlog[note.key := held + [note]])
  }

  function Arrived(s: State, note: Note, victim: Key, between: nat): State
    requires SubsInv(s) && BacklogInv(s) && Enabled(s, Arrive(note, victim, between))
  {
    if note.key in s.subs then
      var sub := s.subs[note.key];
      if note.terminal then
        s.(subs := s.subs - {note.key}, wires := s.wires[sub.wire := Finish(s.wires[sub.wire], sub.dropped, note)])
      else
        var (w, d) := Offer(s.wires[sub.wire], sub.dropped, note, between);
        s.(subs := s.subs[note.key := Subscription(sub.wire, d)], wires := s.wires[sub.wire := w])
    else
      Keep(if s.count >= PENDING_EVENT_CAP then Evict(s, victim) else s, note)
  }

  function NewWire(key: Key, buffer: nat): Wire {
    Wire(key, if buffer < 1 then 1 else buffer, [], [], false, [], [], [], 0)
  }

  /** An earlier subscription of the same key is replaced: its sender is dropped. */
  function Replaced(s: State, key: Key): State
    requires SubsInv(s)
  {
    if key in s.subs then
      var sub := s.subs[key];
      s.(subs := s.subs - {key}, wires := s.wires[sub.wire := Abandon(s.wires[sub.wire], sub.dropped)])
    else s
  }

  function Subscribed(s: State, key: Key): State
    requires SubsInv(s) && BacklogInv(s)
  {
    var notes := if key in s.backlog then s.backlog[key] else [];
    var s1 := s.(count := if |notes| <= s.count then s.count - |notes| else 0, backlog := s.backlog - {key});
    var (w, d, ended) := Drain(NewWire(key, s.buffer), 0, notes);
    if ended then s1.(wires := s1.wires + [w])
    else if s.closed then s1.(wires := s1.wires + [Abandon(w, d)])
    else
      var s2 := Replaced(s1, key);
      s2.(subs := s2.subs[key := Subscription(|s2.wires|, d)], wires := s2.wires + [w])
  }

  function Closed(s: State): State {
    s.(closed := true, subs := map[],
       wires := seq(|s.wires|, i requires 0 <= i < |s.wires| =>
                  if Held(s, i) then Abandon(s.wires[i], s.subs[s.wires[i].key].dropped) else s.wires[i]))
  }

  function Apply(s: State, step: Step): State
    requires SubsInv(s) && BacklogInv(s) && Enabled(s, step)
  {
    match step
    case Arrive(note, victim, between) => Arrived(s, note, victim, between)
    case Subscribe(key) => Subscribed(s, key)
    case Take(i, n) => s.(wires := s.wires[i := Taken(s.wires[i], n)])
    case DropStream(i) => s.(wires := s.wires[i := Gone(s.wires[i])])
    case Send(i) => s.(wires := s.wires[i := Pump(s.wires[i])])
    case Close => Closed(s)
  }

  // ------------------------------------------------------------ the invariant

  /** Every subscription sends to a channel of its own key, so no two share one. */
  ghost predicate SubsInv(s: State) {
    forall k | k in s.subs :: s.subs[k].wire < |s.wires| && s.wires[s.subs[k].wire].key == k
  }

  /** The counter is exact, under the cap, and no empty backlog is kept. */
  ghost predicate BacklogInv(s: State) {
    && s.count == Total(s.backlog)
    && s.count <= PENDING_EVENT_CAP
    && forall k | k in s.backlog :: s.backlog[k] != [] && AllOf(k, s.backlog[k])
  }

  predicate AllOf(key: Key, notes: seq<Note>) {
    forall i | 0 <= i < |notes| :: notes[i].key == key
  }

  predicate WireInv(s: State, i: nat)
    requires i < |s.wires|
  {
    WireOk(s.wires[i], Open(s, i)) && AllOf(s.wires[i].key, s.wires[i].routed)
  }

  ghost predicate Inv(s: State) {
    SubsInv(s) && BacklogInv(s) && forall i | 0 <= i < |s.wires| :: WireInv(s, i)
  }

  // ------------------------------------------------------------ the backlog

  lemma {:induction false} TotalSplit(m: map<Key, seq<Note>>, k: Key)
    requires k in m
    ensures Total(m) == |m[k]| + Total(m - {k})
    decreases |m|
  {
    var p :| p in m && Total(m) == |m[p]| + Total(m - {p});
    if p != k {
      TotalSplit(m - {p}, k);
      TotalSplit(m - {k}, p);
      assert m - {p} - {k} == m - {k} - {p};
    }
  }

  lemma TotalPut(m: map<Key, seq<Note>>, k: Key, v: seq<Note>)
    ensures Total(m[k := v]) == |v| + Total(m - {k})
  {
    TotalSplit(m[k := v], k);
    assert m[k := v] - {k} == m - {k};
  }

  lemma EvictKept(s: State, victim: Key)
    requires BacklogInv(s) && victim in s.backlog
    ensures s.count > 0 && BacklogInv(Evict(s, victim)) && Evict(s, victim).count == s.count - 1
  {
    TotalSplit(s.backlog, victim);
    TotalPut(s.backlog, victim, s.backlog[victim][1..]);
  }

  lemma KeepKept(s: State, note: Note)
    requires BacklogInv(s) && s.count < PENDING_EVENT_CAP
    ensures BacklogInv(Keep(s, note))
  {
    var held := if note.key in s.backlog then s.backlog[note.key] else [];
    TotalPut(s.backlog, note.key, held + [note]);
    if note.key in s.backlog {
      TotalSplit(s.backlog, note.key);
    } else {
      assert s.backlog - {note.key} == s.backlog;
    }
  }

  /** At the cap there is something to evict. */
  lemma FullBacklogHasLongest(s: State)
    requires BacklogInv(s) && s.count >= PENDING_EVENT_CAP
    ensures exists k :: Longest(s.backlog, k)
  {
    assert s.backlog != map[];
    var k :| k in s.backlog;
    var best := LongestAmong(s.backlog, s.backlog.Keys);
    assert Longest(s.backlog, best);
  }

  lemma {:induction false} LongestAmong(backlog: map<Key, seq<Note>>, keys: set<Key>) returns (best: Key)
    requires keys <= backlog.Keys && keys != {}
    ensures best in keys && forall j | j in keys :: |backlog[j]| <= |backlog[best]|
    decreases |keys|
  {
    best :| best in keys;
    if keys != {best} {
      var other := LongestAmong(backlog, keys - {best});
      if |backlog[other]| > |backlog[best]| {
        best := other;
      }
    }
  }

  lemma UnclaimedKept(s: State, note: Note, victim: Key, between: nat)
    requires Inv(s) && Enabled(s, Arrive(note, victim, between)) && note.key !in s.subs
    ensures Inv(Arrived(s, note, victim, between))
  {
    var s' := Arrived(s, note, victim, between);
    if s.count >= PENDING_EVENT_CAP {
      EvictKept(s, victim);
      KeepKept(Evict(s, victim), note);
    } else {
      KeepKept(s, note);
    }
    forall i | 0 <= i < |s'.wires| ensures WireInv(s', i) {
      assert WireInv(s, i);
    }
  }

  // ------------------------------------------------------------ every step

  /** A change confined to one wire and the subscription of its key. */
  lemma OneWireKept(s: State, s': State, at: nat)
    requires Inv(s) && at < |s.wires| && |s'.wires| == |s.wires|
    requires s'.count == s.count && s'.backlog == s.backlog
    requires forall i | 0 <= i < |s.wires| && i != at :: s'.wires[i] == s.wires[i]
    requires s'.wires[at].key == s.wires[at].key
    requires forall k | k != s.wires[at].key || s'.subs == s.subs ::
               (k in s.subs <==> k in s'.subs) && (k in s.subs ==> s'.subs[k] == s.subs[k])
    requires Held(s, at) || s'.subs == s.subs
    requires s.wires[at].key in s'.subs ==>
               s.wires[at].key in s.subs && s'.subs[s.wires[at].key].wire == s.subs[s.wires[at].key].wire
    requires WireInv(s', at)
    ensures Inv(s')
  {
    forall i | 0 <= i < |s'.wires| ensures WireInv(s', i) {
      if i != at {
        assert WireInv(s, i);
        assert Open(s', i) == Open(s, i);
      }
    }
  }

  lemma ClaimedTerminalKept(s: State, note: Note, victim: Key, between: nat)
    requires Inv(s) && note.key in s.subs && note.terminal
    ensures Inv(Arrived(s, note, victim, between))
  {
    var s' := Arrived(s, note, victim, between);
    var sub := s.subs[note.key];
    assert WireInv(s, sub.wire) && Open(s, sub.wire) == Some(sub.dropped);
    FinishOk(s.wires[sub.wire], sub.dropped, note);
    assert Open(s', sub.wire) == None;
    OneWireKept(s, s', sub.wire);
  }

  lemma ClaimedPlainKept(s: State, note: Note, victim: Key, between: nat)
    requires Inv(s) && note.key in s.subs && !note.terminal
    ensures Inv(Arrived(s, note, victim, between))
  {
    var s' := Arrived(s, note, victim, between);
    var sub := s.subs[note.key];
    var (w, d) := Offer(s.wires[sub.wire], sub.dropped, note, between);
    assert WireInv(s, sub.wire) && Open(s, sub.wire) == Some(sub.dropped);
    OfferOk(s.wires[sub.wire], sub.dropped, note, between);
    OfferFrame(s.wires[sub.wire], sub.dropped, note, between);
    assert s'.wires[sub.wire] == w && Open(s', sub.wire) == Some(d);
    OneWireKept(s, s', sub.wire);
  }

  lemma OfferFrame(w: Wire, d: nat, note: Note, between: nat)
    ensures Offer(w, d, note, between).0.key == w.key
    ensures Offer(w, d, note, between).0.routed == w.routed + [note]
  {}

  lemma ChannelStepKept(s: State, step: Step)
    requires Inv(s) && Enabled(s, step) && (step.Take? || step.DropStream? || step.Send?)
    ensures Inv(Apply(s, step))
  {
    var i := step.wire;
    var s' := Apply(s, step);
    assert WireInv(s, i);
    match step {
      case Take(_, n) => TakenOk(s.wires[i], Open(s, i), n);
      case DropStream(_) => GoneOk(s.wires[i], Open(s, i));
      case Send(_) => if Open(s, i).None? { PumpOk(s.wires[i]); }
    }
    assert Open(s', i) == Open(s, i);
    OneWireKept(s, s', i);
  }

  lemma {:induction false} DrainFrame(w: Wire, d: nat, notes: seq<Note>, key: Key)
    requires AllOf(key, w.routed) && AllOf(key, notes)
    ensures AllOf(key, Drain(w, d, notes).0.routed) && Drain(w, d, notes).0.key == w.key
    decreases |notes|
  {
    if notes != [] && !notes[0].terminal {
      DrainFrame(Routed(w, notes[0]), if HasRoom(w) then d else d + 1, notes[1..], key);
    }
  }

  lemma NewWireOk(key: Key, buffer: nat, notes: seq<Note>)
    requires AllOf(key, notes)
    ensures var (w, d, ended) := Drain(NewWire(key, buffer), 0, notes);
            WireOk(w, if ended then None else Some(d)) && w.key == key && AllOf(key, w.routed)
  {
    DrainOk(NewWire(key, buffer), 0, notes);
    DrainFrame(NewWire(key, buffer), 0, notes, key);
  }

  /** Claiming a backlog takes its events off the counter. */
  lemma ClaimKept(s: State, key: Key)
    requires BacklogInv(s)
    ensures var notes := if key in s.backlog then s.backlog[key] else [];
            && |notes| <= s.count && AllOf(key, notes)
            && BacklogInv(s.(count := s.count - |notes|, backlog := s.backlog - {key}))
  {
    if key in s.backlog {
      TotalSplit(s.backlog, key);
    } else {
      assert s.backlog - {key} == s.backlog;
    }
  }

  lemma ReplacedKept(s: State, key: Key)
    requires Inv(s)
    ensures Inv(Replaced(s, key)) && key !in Replaced(s, key).subs && |Replaced(s, key).wires| == |s.wires|
  {
    if key in s.subs {
      var i := s.subs[key].wire;
      assert WireInv(s, i) && Open(s, i) == Some(s.subs[key].dropped);
      AbandonOk(s.wires[i], s.subs[key].dropped);
      OneWireKept(s, Replaced(s, key), i);
    }
  }

  /** Adding a channel, with or without a subscription that sends to it. */
  lemma NewWireKept(s: State, key: Key, w: Wire, open: Option<nat>)
    requires Inv(s) && WireOk(w, open) && w.key == key && AllOf(key, w.routed) && (open.Some? ==> key !in s.subs)
    ensures Inv(s.(
              subs := if open.Some? then s.subs[key := Subscription(|s.wires|, open.value)] else s.subs,
              wires := s.wires + [w]))
  {
    var s' := s.(
      subs := if open.Some? then s.subs[key := Subscription(|s.wires|, open.value)] else s.subs,
      wires := s.wires + [w]);
    forall i | 0 <= i < |s'.wires| ensures WireInv(s', i) {
      if i < |s.wires| {
        assert WireInv(s, i) && Open(s', i) == Open(s, i);
      }
    }
  }

  lemma SubscribedKept(s: State, key: Key)
    requires Inv(s)
    ensures Inv(Subscribed(s, key))
  {
    var notes := if key in s.backlog then s.backlog[key] else [];
    ClaimKept(s, key);
    NewWireOk(key, s.buffer, notes);
    var s1 := s.(count := s.count - |notes|, backlog := s.backlog - {key});
    forall i | 0 <= i < |s1.wires| ensures WireInv(s1, i) {
      assert WireInv(s, i);
    }
    var (w, d, ended) := Drain(NewWire(key, s.buffer), 0, notes);
    if ended {
      NewWireKept(s1, key, w, None);
    } else if s.closed {
      AbandonOk(w, d);
      NewWireKept(s1, key, Abandon(w, d), None);
    } else {
      ReplacedKept(s1, key);
      NewWireKept(Replaced(s1, key), key, w, Some(d));
    }
  }

  lemma ClosedKept(s: State)
    requires Inv(s)
    ensures Inv(Closed(s))
  {
    var s' := Closed(s);
    forall i | 0 <= i < |s'.wires| ensures WireInv(s', i) {
      assert WireInv(s, i);
      if Held(s, i) {
        AbandonOk(s.wires[i], s.subs[s.wires[i].key].dropped);
      }
    }
  }

  lemma StepKept(s: State, step: Step)
    requires Inv(s) && Enabled(s, step)
    ensures Inv(Apply(s, step))
  {
    match step
    case Arrive(note, victim, between) =>
      if note.key !in s.subs {
        UnclaimedKept(s, note, victim, between);
      } else if note.terminal {
        ClaimedTerminalKept(s, note, victim, between);
      } else {
        ClaimedPlainKept(s, note, victim, between);
      }
    case Subscribe(key) => SubscribedKept(s, key);
    case Close => ClosedKept(s);
    case _ => ChannelStepKept(s, step);
  }

  // ------------------------------------------------------------ every run

  function Start(buffer: nat): State {
    State(map[], [], 0, map[], false, buffer)
  }

  /**
   Any steps in any order, each one possible where it is taken. `Apply` is
   defined where subscriptions and backlog are well formed, which `InvHolds`
   shows is everywhere.
   */
  ghost predicate Run(buffer: nat, steps: seq<Step>, states: seq<State>) {
    && |states| == |steps| + 1
    && states[0] == Start(buffer)
    && forall k | 0 <= k < |steps| :: Goes(states[k], steps[k], states[k + 1])
  }

  ghost predicate Goes(s: State, step: Step, s': State) {
    Enabled(s, step) && (SubsInv(s) && BacklogInv(s) ==> s' == Apply(s, step))
  }

  lemma {:induction false} InvHolds(buffer: nat, steps: seq<Step>, states: seq<State>, k: nat)
    requires Run(buffer, steps, states) && k < |states|
    ensures Inv(states[k])
  {
    if k > 0 {
      InvHolds(buffer, steps, states, k - 1);
      assert Goes(states[k - 1], steps[k - 1], states[k]);
      StepKept(states[k - 1], steps[k - 1]);
    }
  }

  /**
   For every channel, after any steps: the events in its stream plus the drops
   announced in it plus the drops still to be announced are the events routed
   to it, and the stream keeps their order.
   */
  lemma NothingIsLostUnsaid(buffer: nat, steps: seq<Step>, states: seq<State>, k: nat, i: nat)
    requires Run(buffer, steps, states) && k < |states| && i < |states[k].wires|
    ensures var w := states[k].wires[i];
            var unsaid := if Held(states[k], i) then states[k].subs[w.key].dropped else w.abandoned;
            && Plain(EventsOf(Stream(w))) + Announced(Stream(w)) + unsaid == Plain(w.routed)
            && Subsequence(EventsOf(Stream(w)), w.routed)
  {
    InvHolds(buffer, steps, states, k);
    assert WireInv(states[k], i);
  }

  /** The consumer has got the stream up to some point, and the channel holds what follows, within its capacity. */
  lemma ConsumerSeesThePrefix(buffer: nat, steps: seq<Step>, states: seq<State>, k: nat, i: nat)
    requires Run(buffer, steps, states) && k < |states| && i < |states[k].wires|
    ensures var w := states[k].wires[i];
            && w.received <= Stream(w)
            && |w.queue| <= w.capacity
            && (!w.gone ==> w.received + w.queue + w.waiting == Stream(w))
  {
    InvHolds(buffer, steps, states, k);
    assert WireInv(states[k], i);
  }

  /**
   The terminal event is the last thing a consumer can get, and once it was
   routed it is there, unless the consumer dropped the stream.
   */
  lemma TerminalIsLastAndKept(buffer: nat, steps: seq<Step>, states: seq<State>, k: nat, i: nat)
    requires Run(buffer, steps, states) && k < |states| && i < |states[k].wires|
    ensures var w := states[k].wires[i];
            && (forall j | 0 <= j < |Stream(w)| - 1 :: !IsTerminal(Stream(w)[j]))
            && (Ended(w.routed) && !w.gone ==>
                  Stream(w) != [] && Stream(w)[|Stream(w)| - 1] == Event(w.routed[|w.routed| - 1]))
  {
    InvHolds(buffer, steps, states, k);
    assert WireInv(states[k], i);
  }

  /** The unclaimed counter is the sum of the backlogs, stays under the cap, and no empty backlog is kept. */
  lemma BacklogIsExact(buffer: nat, steps: seq<Step>, states: seq<State>, k: nat)
    requires Run(buffer, steps, states) && k < |states|
    ensures states[k].count == Total(states[k].backlog) <= PENDING_EVENT_CAP
    ensures forall key | key in states[k].backlog :: states[k].backlog[key] != []
  {
    InvHolds(buffer, steps, states, k);
  }

  // ------------------------------------------------------------ what "routed" means

  /** An event reaches the channel of its own key, if one is claimed, and no other. */
  lemma ArrivalIsRoutedByKey(s: State, note: Note, victim: Key, between: nat, i: nat)
    requires Inv(s) && Enabled(s, Arrive(note, victim, between)) && i < |s.wires|
    ensures |Arrived(s, note, victim, between).wires| == |s.wires|
    ensures Arrived(s, note, victim, between).wires[i].routed ==
            if Held(s, i) && s.wires[i].key == note.key then s.wires[i].routed + [note] else s.wires[i].routed
  {
    if note.key in s.subs {
      OfferFrame(s.wires[s.subs[note.key].wire], s.subs[note.key].dropped, note, between);
    }
  }

  /** `notes` up to and including the first terminal event. */
  function UpToTerminal(notes: seq<Note>): seq<Note> {
    if notes == [] then [] else if notes[0].terminal then [notes[0]] else [notes[0]] + UpToTerminal(notes[1..])
  }

  /** Nothing emitted before the subscription is lost: the new channel is routed the whole backlog, up to a terminal event. */
  lemma {:induction false} BacklogIsRouted(w: Wire, d: nat, notes: seq<Note>)
    ensures Drain(w, d, notes).0.routed == w.routed + UpToTerminal(notes)
    ensures Drain(w, d, notes).2 <==> exists i :: 0 <= i < |notes| && notes[i].terminal
    decreases |notes|
  {
    if notes != [] && !notes[0].terminal {
      BacklogIsRouted(Routed(w, notes[0]), if HasRoom(w) then d else d + 1, notes[1..]);
      assert w.routed + [notes[0]] + UpToTerminal(notes[1..]) == w.routed + UpToTerminal(notes);
      assert forall i | 0 < i < |notes| :: notes[i] == notes[1..][i - 1];
    }
  }

  /** A consumer that takes everything, and the waiting sends in between, `rounds` times over. */
  function Settle(w: Wire, rounds: nat): Wire
    decreases rounds
  {
    var t := Taken(w, |w.queue|);
    if rounds == 0 then t else Settle(Pump(t), rounds - 1)
  }

  /** A consumer that keeps reading gets the whole stream, the terminal event included. */
  lemma {:induction false} ReadingGetsEverything(w: Wire)
    requires WireOk(w, None) && !w.gone
    ensures Settle(w, |w.waiting|).received == Stream(w)
    decreases |w.waiting|
  {
    TakenOk(w, None, |w.queue|);
    var t := Taken(w, |w.queue|);
    assert Stream(t) == Stream(w);
    if w.waiting != [] {
      PumpOk(t);
      assert Stream(Pump(t)) == Stream(t);
      ReadingGetsEverything(Pump(t));
    }
  }
}
