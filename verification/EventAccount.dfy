/**
 From the wire to the channels: what becomes of the events that arrive for one
 subscription, over its whole life. The log of `EventRouting` starts when an
 event is routed to a channel; here it is tied to the arrivals of the run, and
 the events that are lost before that, without notice, are counted.
 */
module EventAccount {
  import opened Common
  import opened EventRouting

  // ------------------------------------------------------------ what arrived, what was routed, what waits

  function ArrivedBy(step: Step, key: Key): seq<Note> {
    if step.Arrive? && step.note.key == key then [step.note] else []
  }

  /** The events that arrived for a subscription, in order. */
  function Arrivals(steps: seq<Step>, key: Key): seq<Note> {
    if steps == [] then [] else Arrivals(steps[..|steps| - 1], key) + ArrivedBy(steps[|steps| - 1], key)
  }

  function RoutedBy(w: Wire, key: Key): seq<Note> {
    if w.key == key then w.routed else []
  }

  /** The events routed to the channels of a subscription, one channel after the other. */
  function RoutedOf(wires: seq<Wire>, key: Key): seq<Note> {
    if wires == [] then [] else RoutedOf(wires[..|wires| - 1], key) + RoutedBy(wires[|wires| - 1], key)
  }

  function Waiting(s: State, key: Key): seq<Note> {
    if key in s.backlog then s.backlog[key] else []
  }

  /** Everything the client still has or has handed on. */
  function Known(s: State, key: Key): seq<Note> {
    RoutedOf(s.wires, key) + Waiting(s, key)
  }

  /** Events of the subscription that a step loses unsaid: evicted at the cap, or behind a terminal event in its backlog. */
  function LostAt(s: State, step: Step, key: Key): int {
    match step
    case Arrive(note, victim, _) => if note.key !in s.subs && s.count >= PENDING_EVENT_CAP && victim == key then 1 else 0
    case Subscribe(k) => if k == key then |Waiting(s, key)| - |UpToTerminal(Waiting(s, key))| else 0
    case _ => 0
  }

  function Lost(steps: seq<Step>, states: seq<State>, k: nat, key: Key): int
    requires k <= |steps| && k <= |states|
  {
    if k == 0 then 0 else Lost(steps, states, k - 1, key) + LostAt(states[k - 1], steps[k - 1], key)
  }

  /** A claimed subscription has no backlog, and its channel is the newest of its key. */
  ghost predicate Newest(s: State) {
    && (s.closed ==> s.subs == map[])
    && forall k | k in s.subs :: k !in s.backlog && forall j | s.subs[k].wire < j < |s.wires| :: s.wires[j].key != k
  }

  // ------------------------------------------------------------ subsequences

  lemma {:induction false} ItselfIsPart<T>(a: seq<T>)
    ensures Subsequence(a, a)
  {
    if a != [] {
      ItselfIsPart(a[..|a| - 1]);
    }
  }

  lemma {:induction false} PartOfPart<T>(a: seq<T>, b: seq<T>, c: seq<T>)
    requires Subsequence(a, b) && Subsequence(b, c)
    ensures Subsequence(a, c)
    decreases |b| + |c|
  {
    if a != [] {
      var b', c' := b[..|b| - 1], c[..|c| - 1];
      if b[|b| - 1] == c[|c| - 1] && Subsequence(b', c') {
        if a[|a| - 1] == b[|b| - 1] && Subsequence(a[..|a| - 1], b') {
          PartOfPart(a[..|a| - 1], b', c');
        } else {
          PartOfPart(a, b', c');
        }
      } else {
        PartOfPart(a, b, c');
      }
    }
  }

  /** The same on the left of both. */
  lemma {:induction false} PartsAfter<T>(a: seq<T>, b: seq<T>, c: seq<T>)
    requires Subsequence(b, c)
    ensures Subsequence(a + b, a + c)
    decreases |c|
  {
    if c == [] {
      assert a + b == a && a + c == a;
      ItselfIsPart(a);
    } else {
      var c' := c[..|c| - 1];
      assert (a + c)[..|a + c| - 1] == a + c';
      if b != [] && b[|b| - 1] == c[|c| - 1] && Subsequence(b[..|b| - 1], c') {
        assert (a + b)[..|a + b| - 1] == a + b[..|b| - 1];
        PartsAfter(a, b[..|b| - 1], c');
      } else {
        PartsAfter(a, b, c');
      }
    }
  }

  /** And on the right. */
  lemma {:induction false} PartsBefore<T>(a: seq<T>, b: seq<T>, c: seq<T>)
    requires Subsequence(a, b)
    ensures Subsequence(a + c, b + c)
    decreases |c|
  {
    if c == [] {
      assert a + c == a && b + c == b;
    } else {
      var c' := c[..|c| - 1];
      PartsBefore(a, b, c');
      assert (a + c)[..|a + c| - 1] == a + c' && (b + c)[..|b + c| - 1] == b + c';
    }
  }

  lemma PartOfJoined<T>(a: seq<T>, b: seq<T>, c: seq<T>)
    requires Subsequence(a, b)
    ensures Subsequence(a, b + c) && Subsequence(a, c + b)
  {
    PartsBefore([], c, []) by { assert Subsequence([], c); }
    PartsAfter(b, [], c);
    assert b + [] == b;
    PartOfPart(a, b, b + c);
    PartsBefore([], c, b);
    assert [] + b == b;
    PartOfPart(a, b, c + b);
  }

  lemma {:induction false} UpToTerminalIsPart(notes: seq<Note>)
    ensures Subsequence(UpToTerminal(notes), notes) && |UpToTerminal(notes)| <= |notes|
    decreases |notes|
  {
    if notes != [] {
      var rest := notes[1..];
      assert notes == [notes[0]] + rest;
      UpToTerminalIsPart(rest);
      PartsAfter([notes[0]], if notes[0].terminal then [] else UpToTerminal(rest), rest);
      assert [notes[0]] + [] == [notes[0]];
    }
  }

  // ------------------------------------------------------------ routed events, channel by channel

  lemma {:induction false} RoutedSame(a: seq<Wire>, b: seq<Wire>, key: Key)
    requires |a| == |b| && forall i | 0 <= i < |a| :: a[i].key == b[i].key && a[i].routed == b[i].routed
    ensures RoutedOf(a, key) == RoutedOf(b, key)
  {
    if a != [] {
      RoutedSame(a[..|a| - 1], b[..|b| - 1], key);
    }
  }

  /** The same channels, but the newest of the note's key has been routed the note. */
  predicate NoteAt(a: seq<Wire>, b: seq<Wire>, at: nat, note: Note) {
    && |a| == |b| && at < |a| && (forall i | 0 <= i < |a| && i != at :: a[i].key == b[i].key && a[i].routed == b[i].routed)
    && a[at].key == b[at].key == note.key && b[at].routed == a[at].routed + [note]
    && forall i | at < i < |a| :: a[i].key != note.key
  }

  lemma LastNoteAt(a: seq<Wire>, b: seq<Wire>, at: nat, note: Note, key: Key)
    requires NoteAt(a, b, at, note)
    ensures var n := |a| - 1;
            if at == n then
              RoutedOf(a[..n], key) == RoutedOf(b[..n], key)
              && RoutedBy(b[n], key) == RoutedBy(a[n], key) + if note.key == key then [note] else []
            else
              NoteAt(a[..n], b[..n], at, note)
              && RoutedBy(b[n], key) == RoutedBy(a[n], key) && (note.key == key ==> RoutedBy(a[n], key) == [])
  {
    var n := |a| - 1;
    if at == n {
      RoutedSame(a[..n], b[..n], key);
    }
  }

  lemma {:induction false} RoutedMore(a: seq<Wire>, b: seq<Wire>, at: nat, note: Note, key: Key)
    requires NoteAt(a, b, at, note)
    ensures RoutedOf(b, key) == RoutedOf(a, key) + if note.key == key then [note] else []
    decreases |a|
  {
    var n := |a| - 1;
    var more := if note.key == key then [note] else [];
    LastNoteAt(a, b, at, note, key);
    LastRouted(a, key);
    LastRouted(b, key);
    assert |a| == |b| && at < |a|;
    hide RoutedOf, NoteAt, RoutedBy;
    if at < n {
      RoutedMore(a[..n], b[..n], at, note, key);
      Swap(RoutedOf(a[..n], key), more, RoutedBy(a[n], key));
    } else {
      Regroup(RoutedOf(a[..n], key), RoutedBy(a[n], key), more);
    }
  }

  lemma Swap(x: seq<Note>, y: seq<Note>, z: seq<Note>)
    requires y == [] || z == []
    ensures x + y + z == x + z + y
  {}

  lemma Regroup(x: seq<Note>, y: seq<Note>, z: seq<Note>)
    ensures x + (y + z) == x + y + z
  {}

  lemma LastRouted(wires: seq<Wire>, key: Key)
    requires wires != []
    ensures RoutedOf(wires, key) == RoutedOf(wires[..|wires| - 1], key) + RoutedBy(wires[|wires| - 1], key)
  {}

  lemma RoutedAdded(a: seq<Wire>, b: seq<Wire>, key: Key)
    requires |b| == |a| + 1 && forall i | 0 <= i < |a| :: a[i].key == b[i].key && a[i].routed == b[i].routed
    ensures RoutedOf(b, key) == RoutedOf(a, key) + RoutedBy(b[|a|], key)
  {
    RoutedSame(a, b[..|a|], key);
  }

  // ------------------------------------------------------------ every step

  /** The account of one step: what is known afterwards was known or has just arrived, in that order, and the rest is counted as lost. */
  ghost predicate Accounted(s: State, step: Step, s': State, key: Key) {
    var before, arrived := Known(s, key), ArrivedBy(step, key);
    && Subsequence(Known(s', key), before + arrived)
    && |Known(s', key)| + LostAt(s, step, key) == |before| + |arrived|
    && LostAt(s, step, key) >= 0
  }

  /** Enough for it: `more` goes to the channels and `left` waits, and together they are part of what waited or arrived. */
  lemma Moved(s: State, step: Step, s': State, key: Key, more: seq<Note>, left: seq<Note>)
    requires RoutedOf(s'.wires, key) == RoutedOf(s.wires, key) + more && Waiting(s', key) == left
    requires Subsequence(more + left, Waiting(s, key) + ArrivedBy(step, key))
    requires |more| + |left| + LostAt(s, step, key) == |Waiting(s, key)| + |ArrivedBy(step, key)|
    requires LostAt(s, step, key) >= 0
    ensures Accounted(s, step, s', key)
  {
    hide Subsequence, RoutedOf, Waiting, LostAt, ArrivedBy;
    var routed, was, arrived := RoutedOf(s.wires, key), Waiting(s, key), ArrivedBy(step, key);
    PartsAfter(routed, more + left, was + arrived);
    assert Known(s', key) == routed + (more + left);
    assert Known(s, key) + arrived == routed + (was + arrived);
  }

  lemma ClaimedAccounted(s: State, note: Note, victim: Key, between: nat, key: Key)
    requires SubsInv(s) && BacklogInv(s) && Newest(s) && note.key in s.subs
    ensures Accounted(s, Arrive(note, victim, between), Arrived(s, note, victim, between), key)
  {
    hide Subsequence, BacklogInv, Offer, Accounted;
    var s', step := Arrived(s, note, victim, between), Arrive(note, victim, between);
    var at := s.subs[note.key].wire;
    OfferFrame(s.wires[at], s.subs[note.key].dropped, note, between);
    RoutedMore(s.wires, s'.wires, at, note, key);
    hide RoutedOf;
    var more := ArrivedBy(step, key);
    assert more + Waiting(s', key) == Waiting(s, key) + more;
    ItselfIsPart(more + Waiting(s', key));
    Moved(s, step, s', key, more, Waiting(s', key));
  }

  lemma UnclaimedAccounted(s: State, note: Note, victim: Key, between: nat, key: Key)
    requires SubsInv(s) && BacklogInv(s) && Enabled(s, Arrive(note, victim, between)) && note.key !in s.subs
    ensures Accounted(s, Arrive(note, victim, between), Arrived(s, note, victim, between), key)
  {
    hide Subsequence, RoutedOf, Accounted;
    var s', step := Arrived(s, note, victim, between), Arrive(note, victim, between);
    var was, evicted := Waiting(s, key), s.count >= PENDING_EVENT_CAP && victim == key;
    WaitingAfter(s, note, victim, between, key);
    hide Arrived, BacklogInv, SubsInv, Longest;
    LeftIsPart(was, evicted);
    var left := if evicted then was[1..] else was;
    PartsBefore(left, was, ArrivedBy(step, key));
    assert [] + Waiting(s', key) == Waiting(s', key) && RoutedOf(s.wires, key) + [] == RoutedOf(s.wires, key);
    Moved(s, step, s', key, [], Waiting(s', key));
  }

  /** An unclaimed event goes to the end of its backlog, after an eviction if the cap is reached. */
  lemma WaitingAfter(s: State, note: Note, victim: Key, between: nat, key: Key)
    requires SubsInv(s) && BacklogInv(s) && Enabled(s, Arrive(note, victim, between)) && note.key !in s.subs
    ensures Arrived(s, note, victim, between).wires == s.wires
    ensures var evicted, was := s.count >= PENDING_EVENT_CAP && victim == key, Waiting(s, key);
            && (evicted ==> was != [])
            && Waiting(Arrived(s, note, victim, between), key) ==
               (if evicted then was[1..] else was) + ArrivedBy(Arrive(note, victim, between), key)
  {}

  lemma LeftIsPart(was: seq<Note>, evicted: bool)
    requires evicted ==> was != []
    ensures Subsequence(if evicted then was[1..] else was, was)
  {
    if evicted {
      PartsBefore([], [was[0]], was[1..]);
      assert [] + was[1..] == was[1..] && [was[0]] + was[1..] == was;
    } else {
      ItselfIsPart(was);
    }
  }

  /** A subscription adds one channel, to which the backlog is routed up to a terminal event, and takes the backlog away. */
  lemma SubscribedFrame(s: State, k: Key)
    requires SubsInv(s) && BacklogInv(s)
    ensures var s' := Subscribed(s, k);
            && |s'.wires| == |s.wires| + 1
            && s'.wires[|s.wires|].key == k && s'.wires[|s.wires|].routed == UpToTerminal(Waiting(s, k))
            && (forall j | 0 <= j < |s.wires| :: s'.wires[j].key == s.wires[j].key && s'.wires[j].routed == s.wires[j].routed)
            && s'.backlog == s.backlog - {k}
  {
    DrainedWire(s, k);
    hide BacklogInv, UpToTerminal, Drain;
  }

  lemma DrainedWire(s: State, k: Key)
    requires BacklogInv(s)
    ensures var w := Drain(NewWire(k, s.buffer), 0, Waiting(s, k)).0;
            w.key == k && w.routed == UpToTerminal(Waiting(s, k))
  {
    var notes := Waiting(s, k);
    BacklogIsRouted(NewWire(k, s.buffer), 0, notes);
    ClaimKept(s, k);
    NewWireOk(k, s.buffer, notes);
    hide WireOk, BacklogInv, UpToTerminal, Drain;
    assert [] + UpToTerminal(notes) == UpToTerminal(notes);
  }

  lemma KnownAfterSubscribe(s: State, k: Key, key: Key)
    requires SubsInv(s) && BacklogInv(s)
    ensures var s', was := Subscribed(s, k), Waiting(s, key);
            if k == key then
              RoutedOf(s'.wires, key) == RoutedOf(s.wires, key) + UpToTerminal(was) && Waiting(s', key) == []
            else
              RoutedOf(s'.wires, key) == RoutedOf(s.wires, key) + [] && Waiting(s', key) == was
  {
    SubscribedFrame(s, k);
    hide BacklogInv, SubsInv, Subscribed, UpToTerminal, RoutedOf;
    RoutedAdded(s.wires, Subscribed(s, k).wires, key);
  }

  lemma SubscribedAccounted(s: State, k: Key, key: Key)
    requires SubsInv(s) && BacklogInv(s)
    ensures Accounted(s, Subscribe(k), Subscribed(s, k), key)
  {
    hide Subsequence, Subscribed, UpToTerminal, RoutedOf, Accounted, Waiting;
    KnownAfterSubscribe(s, k, key);
    var s', was := Subscribed(s, k), Waiting(s, key);
    hide BacklogInv, SubsInv;
    if k == key {
      var more := UpToTerminal(was);
      UpToTerminalIsPart(was);
      assert more + [] == more && was + [] == was;
      Moved(s, Subscribe(k), s', key, more, []);
    } else {
      ItselfIsPart(was);
      assert [] + was == was && was + [] == was;
      Moved(s, Subscribe(k), s', key, [], was);
    }
  }

  lemma OtherAccounted(s: State, step: Step, key: Key)
    requires SubsInv(s) && BacklogInv(s) && Enabled(s, step) && !step.Arrive? && !step.Subscribe?
    ensures Accounted(s, step, Apply(s, step), key)
  {
    hide Subsequence, BacklogInv, Accounted, RoutedOf;
    var s', was := Apply(s, step), Waiting(s, key);
    RoutedSame(s.wires, s'.wires, key);
    ItselfIsPart(was);
    assert [] + was == was == was + [] && RoutedOf(s.wires, key) + [] == RoutedOf(s.wires, key);
    Moved(s, step, s', key, [], was);
  }

  lemma StepAccounted(s: State, step: Step, key: Key)
    requires SubsInv(s) && BacklogInv(s) && Newest(s) && Enabled(s, step)
    ensures Accounted(s, step, Apply(s, step), key)
  {
    hide Accounted, Newest;
    match step
    case Arrive(note, victim, between) =>
      if note.key in s.subs {
        ClaimedAccounted(s, note, victim, between, key);
      } else {
        UnclaimedAccounted(s, note, victim, between, key);
      }
    case Subscribe(k) => SubscribedAccounted(s, k, key);
    case _ => OtherAccounted(s, step, key);
  }

  // ------------------------------------------------------------ the newest channel

  lemma NewestAfterSubscribe(s: State, k: Key)
    requires SubsInv(s) && BacklogInv(s) && Newest(s)
    ensures Newest(Subscribed(s, k))
  {
    SubscribedFrame(s, k);
    SubsAfter(s, k);
    hide Subscribed, BacklogInv;
  }

  lemma SubsAfter(s: State, k: Key)
    requires SubsInv(s) && BacklogInv(s) && Newest(s)
    ensures var s' := Subscribed(s, k);
            && s'.closed == s.closed
            && (s.closed ==> s'.subs == map[])
            && (forall j | j in s'.subs && j != k :: j in s.subs && s'.subs[j] == s.subs[j])
            && (k in s'.subs ==> s'.subs[k].wire == |s.wires|)
  {
    var notes := Waiting(s, k);
    if notes == [] {
      assert !Drain(NewWire(k, s.buffer), 0, notes).2;
    } else {
      assert k !in s.subs;
    }
    hide Drain, BacklogInv, UpToTerminal;
  }

  lemma NewestKept(s: State, step: Step)
    requires SubsInv(s) && BacklogInv(s) && Newest(s) && Enabled(s, step)
    ensures Newest(Apply(s, step))
  {
    match step
    case Arrive(note, victim, between) =>
      if note.key in s.subs {
        OfferFrame(s.wires[s.subs[note.key].wire], s.subs[note.key].dropped, note, between);
        hide BacklogInv, Offer;
      } else {
        WaitingAfter(s, note, victim, between, note.key);
      }
    case Subscribe(k) => NewestAfterSubscribe(s, k);
    case _ => { hide BacklogInv; }
  }

  // ------------------------------------------------------------ every run

  lemma ArrivalsSnoc(steps: seq<Step>, k: nat, key: Key)
    requires 0 < k <= |steps|
    ensures Arrivals(steps[..k], key) == Arrivals(steps[..k - 1], key) + ArrivedBy(steps[k - 1], key)
  {
    assert steps[..k][..k - 1] == steps[..k - 1];
  }

  /**
   For every subscription, after any steps: the events that arrived are those
   routed to its channels, those still waiting and those lost unsaid; and what
   was routed, then what waits, keeps the order of arrival.
   */
  lemma {:induction false} EveryArrivalIsAccounted(buffer: nat, steps: seq<Step>, states: seq<State>, k: nat, key: Key)
    requires Run(buffer, steps, states) && k < |states|
    ensures Newest(states[k])
    ensures var arrivals, known := Arrivals(steps[..k], key), RoutedOf(states[k].wires, key) + Waiting(states[k], key);
            && Subsequence(known, arrivals)
            && |arrivals| == |known| + Lost(steps, states, k, key)
            && Lost(steps, states, k, key) >= 0
  {
    hide Newest, Inv, Apply, Enabled, LostAt;
    if k == 0 {
      AtStart(buffer, steps, key);
    } else {
      var s, s', step := states[k - 1], states[k], steps[k - 1];
      EveryArrivalIsAccounted(buffer, steps, states, k - 1, key);
      InvHolds(buffer, steps, states, k - 1);
      assert Goes(s, step, s');
      Applied(s, step, s');
      StepAccounted(s, step, key);
      NewestKept(s, step);
      ArrivalsSnoc(steps, k, key);
      var arrivals, arrived := Arrivals(steps[..k - 1], key), ArrivedBy(step, key);
      PartsBefore(Known(s, key), arrivals, arrived);
      PartOfPart(Known(s', key), Known(s, key) + arrived, arrivals + arrived);
    }
  }

  lemma Applied(s: State, step: Step, s': State)
    requires Inv(s) && Goes(s, step, s')
    ensures SubsInv(s) && BacklogInv(s) && Enabled(s, step) && s' == Apply(s, step)
  {}

  lemma AtStart(buffer: nat, steps: seq<Step>, key: Key)
    ensures Newest(Start(buffer)) && Known(Start(buffer), key) == [] && Arrivals(steps[..0], key) == []
  {}

  lemma {:induction false} OneOfRouted(wires: seq<Wire>, i: nat)
    requires i < |wires|
    ensures Subsequence(wires[i].routed, RoutedOf(wires, wires[i].key))
  {
    var n, key := |wires| - 1, wires[i].key;
    if i == n {
      ItselfIsPart(wires[n].routed);
      PartOfJoined(wires[n].routed, wires[n].routed, RoutedOf(wires[..n], key));
    } else {
      OneOfRouted(wires[..n], i);
      PartOfJoined(wires[i].routed, RoutedOf(wires[..n], key), RoutedBy(wires[n], key));
    }
  }

  /** What is routed to a channel has arrived for its subscription, in that order. */
  lemma {:induction false} RoutedHasArrived(buffer: nat, steps: seq<Step>, states: seq<State>, k: nat, i: nat)
    requires Run(buffer, steps, states) && k < |states| && i < |states[k].wires|
    ensures var w := states[k].wires[i];
            Subsequence(w.routed, Arrivals(steps[..k], w.key))
  {
    var w := states[k].wires[i];
    var routed, waiting := RoutedOf(states[k].wires, w.key), Waiting(states[k], w.key);
    EveryArrivalIsAccounted(buffer, steps, states, k, w.key);
    OneOfRouted(states[k].wires, i);
    PartOfJoined(w.routed, routed, waiting);
    PartOfPart(w.routed, routed + waiting, Arrivals(steps[..k], w.key));
  }
}
