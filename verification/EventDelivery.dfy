/**
 Which events reach the consumer. The account of `EventRouting` balances what
 is delivered against what is counted as dropped; here is which of the two
 happens: an event is kept exactly when its channel has room at its turn.
 */
module EventDelivery {
  import opened Common
  import opened EventRouting
  import opened EventAccount

  // ------------------------------------------------------------ one arrival

  /** How many items the channel holds when an event is tried: after the notice, if one is due and fits, and after the consumer took some. */
  function FilledAt(w: Wire, dropped: nat, between: nat): nat {
    var told := |w.queue| + if dropped > 0 && !w.gone && |w.queue| < w.capacity then 1 else 0;
    if between < told then told - between else 0
  }

  predicate FindsRoom(w: Wire, dropped: nat, between: nat) {
    !w.gone && FilledAt(w, dropped, between) < w.capacity
  }

  /** What a plain event of a claimed subscription does to its channel and its drop counter. */
  lemma ArrivalIsSentOrCounted(s: State, note: Note, victim: Key, between: nat)
    requires SubsInv(s) && BacklogInv(s) && note.key in s.subs && !note.terminal
    ensures note.key in Arrived(s, note, victim, between).subs
    ensures Arrived(s, note, victim, between).subs[note.key].wire == s.subs[note.key].wire
    ensures s.subs[note.key].wire < |Arrived(s, note, victim, between).wires|
    ensures var at, n := s.subs[note.key].wire, s.subs[note.key].dropped;
            var w, w' := s.wires[at], Arrived(s, note, victim, between).wires[at];
            var n' := Arrived(s, note, victim, between).subs[note.key].dropped;
            var told := n > 0 && !w.gone && |w.queue| < w.capacity;
            var kept := FindsRoom(w, n, between);
            && w'.sent == w.sent + (if told then [Dropped(note.key, n)] else []) + (if kept then [Event(note)] else [])
            && n' == (if told then 0 else n) + (if kept then 0 else 1)
  {}

  /** With nothing to announce and a free place, the event is sent and nothing is counted. */
  lemma SentWhenThereIsRoom(s: State, note: Note, victim: Key)
    requires SubsInv(s) && BacklogInv(s) && note.key in s.subs && !note.terminal
    requires var w := s.wires[s.subs[note.key].wire];
             !w.gone && |w.queue| + (if s.subs[note.key].dropped > 0 then 1 else 0) < w.capacity
    ensures var at, n := s.subs[note.key].wire, s.subs[note.key].dropped;
            var s' := Arrived(s, note, victim, 0);
            && note.key in s'.subs && s'.subs[note.key] == Subscription(at, 0)
            && |s'.wires| == |s.wires|
            && Stream(s'.wires[at]) ==
               s.wires[at].sent + (if n > 0 then [Dropped(note.key, n), Event(note)] else [Event(note)]) + s.wires[at].waiting
            && s'.wires[at].queue == s.wires[at].queue + if n > 0 then [Dropped(note.key, n), Event(note)] else [Event(note)]
  {}

  /** The counter goes up only where the stream is gone or the channel full when the event is tried. */
  lemma CountedOnlyWithoutRoom(s: State, note: Note, victim: Key, between: nat)
    requires Inv(s) && note.key in s.subs && !note.terminal
    requires note.key in Arrived(s, note, victim, between).subs
    requires Arrived(s, note, victim, between).subs[note.key].dropped > s.subs[note.key].dropped
    ensures var w := s.wires[s.subs[note.key].wire];
            w.gone || |w.queue| >= w.capacity + between
  {
    assert WireInv(s, s.subs[note.key].wire);
    ArrivalIsSentOrCounted(s, note, victim, between);
  }

  // ------------------------------------------------------------ every run

  /** The plain events of a backlog that fit, and its terminal event. */
  function KeptOfBacklog(notes: seq<Note>, capacity: nat): seq<Note> {
    var all := UpToTerminal(notes);
    var plain := if Ended(all) then all[..|all| - 1] else all;
    (if |plain| <= capacity then plain else plain[..capacity]) + if Ended(all) then [all[|all| - 1]] else []
  }

  /** The events for channel `i` that find room in a step; a terminal event always does. */
  function KeptAt(s: State, step: Step, i: nat): seq<Note> {
    match step
    case Arrive(note, _, between) =>
      if note.key in s.subs && s.subs[note.key].wire == i && i < |s.wires|
         && (note.terminal || FindsRoom(s.wires[i], s.subs[note.key].dropped, between))
      then [note] else []
    case Subscribe(key) =>
      if i == |s.wires| then KeptOfBacklog(Waiting(s, key), if s.buffer < 1 then 1 else s.buffer) else []
    case _ => []
  }

  function Kept(steps: seq<Step>, states: seq<State>, k: nat, i: nat): seq<Note>
    requires k <= |steps| && k <= |states|
  {
    if k == 0 then [] else Kept(steps, states, k - 1, i) + KeptAt(states[k - 1], steps[k - 1], i)
  }

  /** The events of the stream are those kept; a consumer that went away may miss the terminal one. */
  predicate HasKept(w: Wire, kept: seq<Note>) {
    || EventsOf(Stream(w)) == kept
    || (w.gone && Ended(kept) && Ended(w.routed) && w.waiting == [] && EventsOf(Stream(w)) == kept[..|kept| - 1])
  }

  lemma NoEvents()
    ensures EventsOf([]) == []
  {}

  lemma {:induction false} EventsJoin(a: seq<Item>, b: seq<Item>)
    ensures EventsOf(a + b) == EventsOf(a) + EventsOf(b)
  {
    hide EventsOf;
    NoEvents();
    if b == [] {
      assert a + b == a;
    } else {
      var init, last := b[..|b| - 1], b[|b| - 1];
      EventsJoin(a, init);
      Snoc(a + init, last);
      Snoc(init, last);
      assert a + b == a + init + [last] && b == init + [last];
    }
  }

  lemma EventsOfOne(x: Item)
    ensures EventsOf([x]) == if x.Event? then [x.note] else []
  {
    Snoc([], x);
    assert [] + [x] == [x];
  }

  lemma EventsOfOptional(x: Item, y: bool)
    ensures EventsOf(if y then [x] else []) == if y && x.Event? then [x.note] else []
  {
    EventsOfOne(x);
  }

  lemma OfferKeeps(w: Wire, d: nat, note: Note, between: nat, kept: seq<Note>)
    requires w.waiting == [] && !Ended(w.routed) && HasKept(w, kept)
    ensures HasKept(Offer(w, d, note, between).0, kept + if FindsRoom(w, d, between) then [note] else [])
  {
    var told := d > 0 && !w.gone && |w.queue| < w.capacity;
    var notice, event := if told then [Dropped(note.key, d)] else [], if FindsRoom(w, d, between) then [Event(note)] else [];
    var w' := Offer(w, d, note, between).0;
    assert Stream(w') == Stream(w) + notice + event;
    EventsJoin(Stream(w) + notice, event);
    EventsJoin(Stream(w), notice);
    EventsOfOptional(Dropped(note.key, d), told);
    EventsOfOptional(Event(note), FindsRoom(w, d, between));
    assert EventsOf(notice) == [] && kept + [] == kept;
  }

  lemma FinishKeeps(w: Wire, d: nat, note: Note, kept: seq<Note>)
    requires w.waiting == [] && !Ended(w.routed) && HasKept(w, kept)
    ensures HasKept(Finish(w, d, note), kept + [note])
  {
    var notice := if d > 0 then [Dropped(note.key, d)] else [];
    assert Stream(Finish(w, d, note)) == Stream(w) + notice + [Event(note)];
    EventsJoin(Stream(w) + notice, [Event(note)]);
    EventsJoin(Stream(w), notice);
    EventsOfOptional(Dropped(note.key, d), d > 0);
    EventsOfOne(Event(note));
    assert kept + [] == kept;
  }

  lemma PumpKeeps(w: Wire, kept: seq<Note>)
    requires WireOk(w, None) && HasKept(w, kept)
    ensures HasKept(Pump(w), kept)
  {
    if w.waiting != [] && w.gone {
      var last := w.waiting[|w.waiting| - 1];
      var front := w.waiting[..|w.waiting| - 1];
      assert w.waiting == front + [last] && IsTerminal(last);
      assert Stream(w) == w.sent + front + [last];
      assert Stream(w)[|Stream(w)| - 1] == last;
      EventsJoin(w.sent + front, [last]);
      EventsJoin(w.sent, front);
      EventsOfOne(last);
      if front != [] {
        EventsOfOne(front[0]);
        assert front == [front[0]];
      }
      assert EventsOf(w.sent) + [] == EventsOf(w.sent);
      assert Stream(Pump(w)) == w.sent + [] == w.sent;
      assert kept == EventsOf(w.sent) + [last.note];
    } else {
      assert Stream(Pump(w)) == Stream(w);
    }
  }

  lemma RoutedKeeps(w: Wire, note: Note)
    requires w.waiting == [] && !w.gone
    ensures var room, next := |w.queue| < w.capacity, Routed(w, note);
            && EventsOf(Stream(next)) == EventsOf(Stream(w)) + (if room then [note] else [])
            && next.waiting == [] && !next.gone && next.routed == w.routed + [note] && next.capacity == w.capacity
            && |next.queue| == |w.queue| + if room then 1 else 0
  {
    var room := |w.queue| < w.capacity;
    var event := if room then [Event(note)] else [];
    assert Stream(Routed(w, note)) == Stream(w) + event;
    EventsJoin(Stream(w), event);
    EventsOfOptional(Event(note), room);
  }

  lemma {:induction false} DrainKeeps(w: Wire, d: nat, notes: seq<Note>, kept: seq<Note>)
    requires w.waiting == [] && !Ended(w.routed) && !w.gone && EventsOf(Stream(w)) == kept && |w.queue| <= w.capacity
    ensures EventsOf(Stream(Drain(w, d, notes).0)) == kept + KeptOfBacklog(notes, w.capacity - |w.queue|)
    decreases |notes|
  {
    hide EventsOf, KeptOfBacklog, Stream, Routed, Finish;
    var capacity := w.capacity - |w.queue|;
    if notes == [] {
      NoBacklog(capacity);
    } else if notes[0].terminal {
      FinishKeeps(w, d, notes[0], kept);
      OnlyTerminal(w, d, notes, capacity);
    } else {
      var room, next := |w.queue| < w.capacity, Routed(w, notes[0]);
      var more := if room then [notes[0]] else [];
      RoutedKeeps(w, notes[0]);
      KeptCons(notes, capacity);
      DrainKeeps(next, if HasRoom(w) then d else d + 1, notes[1..], kept + more);
      assert kept + more + KeptOfBacklog(notes[1..], next.capacity - |next.queue|)
             == kept + (more + KeptOfBacklog(notes[1..], next.capacity - |next.queue|));
    }
  }

  lemma NoBacklog(capacity: nat)
    ensures KeptOfBacklog([], capacity) == []
  {}

  lemma OnlyTerminal(w: Wire, d: nat, notes: seq<Note>, capacity: nat)
    requires notes != [] && notes[0].terminal
    ensures KeptOfBacklog(notes, capacity) == [notes[0]] && !Finish(w, d, notes[0]).gone == !w.gone
  {
    assert UpToTerminal(notes) == [notes[0]];
  }

  lemma KeptCons(notes: seq<Note>, room: nat)
    requires notes != [] && !notes[0].terminal
    ensures KeptOfBacklog(notes, room) ==
            (if room > 0 then [notes[0]] else []) + KeptOfBacklog(notes[1..], if room > 0 then room - 1 else 0)
  {
    var all, rest := UpToTerminal(notes), UpToTerminal(notes[1..]);
    assert all == [notes[0]] + rest;
    assert Ended(all) <==> Ended(rest);
    var plain := if Ended(all) then all[..|all| - 1] else all;
    var tail := if Ended(rest) then rest[..|rest| - 1] else rest;
    assert plain == [notes[0]] + tail;
  }

  lemma StartKeeps(key: Key, buffer: nat, notes: seq<Note>)
    ensures var capacity := if buffer < 1 then 1 else buffer;
            EventsOf(Stream(Drain(NewWire(key, buffer), 0, notes).0)) == KeptOfBacklog(notes, capacity)
  {
    var capacity := if buffer < 1 then 1 else buffer;
    DrainKeeps(NewWire(key, buffer), 0, notes, []);
    assert [] + KeptOfBacklog(notes, capacity) == KeptOfBacklog(notes, capacity);
  }

  // ------------------------------------------------------------ every step

  lemma SameStream(w: Wire, w': Wire, kept: seq<Note>)
    requires HasKept(w, kept) && Stream(w') == Stream(w) && w'.routed == w.routed
    requires w.gone ==> w'.gone && w'.waiting == w.waiting
    ensures HasKept(w', kept)
  {}

  lemma ArrivalKeeps(s: State, note: Note, victim: Key, between: nat, i: nat, kept: seq<Note>)
    requires Inv(s) && Enabled(s, Arrive(note, victim, between)) && i < |s.wires| && HasKept(s.wires[i], kept)
    ensures |Arrived(s, note, victim, between).wires| == |s.wires|
    ensures HasKept(Arrived(s, note, victim, between).wires[i], kept + KeptAt(s, Arrive(note, victim, between), i))
  {
    assert WireInv(s, i);
    assert kept + [] == kept;
    hide HasKept, Offer, Finish, FindsRoom, Inv, BacklogInv;
    if note.key in s.subs && s.subs[note.key].wire == i {
      assert Open(s, i) == Some(s.subs[note.key].dropped);
      if note.terminal {
        FinishKeeps(s.wires[i], s.subs[note.key].dropped, note, kept);
      } else {
        OfferKeeps(s.wires[i], s.subs[note.key].dropped, note, between, kept);
      }
    }
  }

  lemma SubscribeKeeps(s: State, key: Key, i: nat, kept: seq<Note>)
    requires Inv(s) && i < |s.wires| && HasKept(s.wires[i], kept)
    ensures |Subscribed(s, key).wires| > i && HasKept(Subscribed(s, key).wires[i], kept)
  {
    SubscribedFrame(s, key);
    var w, w' := s.wires[i], Subscribed(s, key).wires[i];
    assert w' == w || w' == Abandon(w, s.subs[w.key].dropped);
    hide HasKept, Inv;
    SameStream(w, w', kept);
  }

  lemma ChannelStepKeeps(s: State, step: Step, i: nat, kept: seq<Note>)
    requires Inv(s) && Enabled(s, step) && (step.Take? || step.DropStream? || step.Send? || step.Close?)
    requires i < |s.wires| && HasKept(s.wires[i], kept)
    ensures |Apply(s, step).wires| == |s.wires| && HasKept(Apply(s, step).wires[i], kept)
  {
    var w, w' := s.wires[i], Apply(s, step).wires[i];
    assert WireInv(s, i);
    if step.Send? && step.wire == i {
      if Open(s, i).None? {
        PumpKeeps(w, kept);
      }
    } else {
      assert Stream(w') == Stream(w);
      SameStream(w, w', kept);
    }
  }

  lemma StepKeeps(s: State, step: Step, i: nat, kept: seq<Note>)
    requires Inv(s) && Enabled(s, step) && i < |s.wires| && HasKept(s.wires[i], kept)
    ensures i < |Apply(s, step).wires| && HasKept(Apply(s, step).wires[i], kept + KeptAt(s, step, i))
  {
    hide HasKept, Inv, Arrived, Subscribed;
    assert kept + [] == kept;
    match step
    case Arrive(note, victim, between) => ArrivalKeeps(s, note, victim, between, i, kept);
    case Subscribe(key) => SubscribeKeeps(s, key, i, kept);
    case _ => ChannelStepKeeps(s, step, i, kept);
  }

  /** A channel that a step makes holds what of the backlog fits. */
  lemma NewChannelKeeps(s: State, step: Step, i: nat)
    requires Inv(s) && Enabled(s, step) && |s.wires| <= i < |Apply(s, step).wires|
    ensures step.Subscribe? && i == |s.wires| && HasKept(Apply(s, step).wires[i], KeptAt(s, step, i))
  {
    if step.Subscribe? {
      SubscribedFrame(s, step.key);
      StartKeeps(step.key, s.buffer, Waiting(s, step.key));
      var (w, d, ended) := Drain(NewWire(step.key, s.buffer), 0, Waiting(s, step.key));
      var w' := Subscribed(s, step.key).wires[i];
      assert w' == w || w' == Abandon(w, d);
      assert Stream(w') == Stream(w);
    }
  }

  /** No step makes a channel go away, and only a subscription makes one. */
  lemma ChannelsStay(s: State, step: Step)
    requires Inv(s) && Enabled(s, step)
    ensures |s.wires| <= |Apply(s, step).wires| && (step.Subscribe? ==> |Apply(s, step).wires| == |s.wires| + 1)
  {
    if step.Subscribe? {
      SubscribedFrame(s, step.key);
    }
  }

  lemma {:induction false} NothingKeptBefore(buffer: nat, steps: seq<Step>, states: seq<State>, k: nat, i: nat)
    requires Run(buffer, steps, states) && k < |states| && |states[k].wires| <= i
    ensures Kept(steps, states, k, i) == []
  {
    hide Inv, Apply;
    if k > 0 {
      InvHolds(buffer, steps, states, k - 1);
      assert Goes(states[k - 1], steps[k - 1], states[k]);
      Applied(states[k - 1], steps[k - 1], states[k]);
      ChannelsStay(states[k - 1], steps[k - 1]);
      NothingKeptBefore(buffer, steps, states, k - 1, i);
    }
  }

  /**
   After any steps, the events in the stream of a channel are exactly those that
   found room in it when they were tried, in order: a routed event that is
   missing met a full channel or a dropped stream. Only the terminal event of a
   stream that was dropped before it could be sent is missing besides.
   */
  lemma {:induction false} StreamIsWhatFoundRoom(buffer: nat, steps: seq<Step>, states: seq<State>, k: nat, i: nat)
    requires Run(buffer, steps, states) && k < |states| && i < |states[k].wires|
    ensures var w, kept := states[k].wires[i], Kept(steps, states, k, i);
            || EventsOf(Stream(w)) == kept
            || (w.gone && Ended(kept) && EventsOf(Stream(w)) == kept[..|kept| - 1])
  {
    StreamHasKept(buffer, steps, states, k, i);
  }

  lemma {:induction false} StreamHasKept(buffer: nat, steps: seq<Step>, states: seq<State>, k: nat, i: nat)
    requires Run(buffer, steps, states) && k < |states| && i < |states[k].wires|
    ensures HasKept(states[k].wires[i], Kept(steps, states, k, i))
  {
    hide HasKept, Inv, Apply, KeptAt;
    if k > 0 {
      var s, step := states[k - 1], steps[k - 1];
      InvHolds(buffer, steps, states, k - 1);
      assert Goes(s, step, states[k]);
      Applied(s, step, states[k]);
      if i < |s.wires| {
        StreamHasKept(buffer, steps, states, k - 1, i);
        StepKeeps(s, step, i, Kept(steps, states, k - 1, i));
      } else {
        NothingKeptBefore(buffer, steps, states, k - 1, i);
        NewChannelKeeps(s, step, i);
        assert [] + KeptAt(s, step, i) == KeptAt(s, step, i);
      }
    }
  }
}
