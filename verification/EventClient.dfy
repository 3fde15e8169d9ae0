/**
 The client's router as the program runs it: fields updated in place, event by
 event. Each method is shown to do one step of `EventRouting`.
 */
module EventClient {
  import opened Common
  import opened EventRouting

  class Inner {
    var subs: map<Key, Subscription>
    var wires: seq<Wire>
    var count: nat
    var backlog: map<Key, seq<Note>>
    var closed: bool
    const buffer: nat

    ghost function View(): State
      reads this
    {
      State(subs, wires, count, backlog, closed, buffer)
    }

    constructor (eventBuffer: nat)
      ensures View() == Start(eventBuffer)
    {
      subs := map[];
      wires := [];
      count := 0;
      backlog := map[];
      closed := false;
      buffer := eventBuffer;
    }

    /** `try_send` on the channel of a subscription. */
    method TrySendTo(i: nat, x: Item) returns (ok: bool)
      requires i < |wires|
      modifies this`wires
      ensures ok == HasRoom(old(wires)[i])
      ensures wires == old(wires)[i := TrySend(old(wires)[i], x)]
    {
      ok := !wires[i].gone && |wires[i].queue| < wires[i].capacity;
      if ok {
        wires := wires[i := Put(wires[i], x)];
      }
    }

    /** The key with the longest backlog. */
    method LargestBacklog() returns (victim: Key)
      requires backlog != map[]
      ensures Longest(backlog, victim)
    {
      victim :| victim in backlog;
      var rest := backlog.Keys - {victim};
      while rest != {}
        invariant rest <= backlog.Keys && victim in backlog
        invariant forall k | k in backlog && k !in rest :: |backlog[k]| <= |backlog[victim]|
        decreases |rest|
      {
        var k :| k in rest;
        if |backlog[k]| > |backlog[victim]| {
          victim := k;
        }
        rest := rest - {k};
      }
    }

    /** The claimed, plain case of `route_event`: a notice if one is due, then the event. */
    method OfferTo(i: nat, before: nat, note: Note, between: nat) returns (dropped: nat)
      requires i < |wires|
      modifies this`wires
      ensures var (w, d) := Offer(old(wires)[i], before, note, between);
              wires == old(wires)[i := w] && dropped == d
    {
      dropped := before;
      if dropped > 0 {
        var told := TrySendTo(i, Dropped(note.key, dropped));
        if told {
          dropped := 0;
        }
      }
      wires := wires[i := Taken(wires[i], between)];
      var kept := TrySendTo(i, Event(note));
      if !kept {
        dropped := dropped + 1;
      }
      wires := wires[i := wires[i].(routed := wires[i].routed + [note])];
    }

    /** `route_event`; the consumer takes `between` items between the notice and the event. */
    method RouteEvent(note: Note, between: nat) returns (victim: Key)
      requires Inv(View())
      modifies this
      ensures Enabled(old(View()), Arrive(note, victim, between))
      ensures View() == Apply(old(View()), Arrive(note, victim, between))
    {
      victim := note.key;
      if note.key in subs {
        var i, dropped := subs[note.key].wire, subs[note.key].dropped;
        if note.terminal {
          subs := subs - {note.key};
          wires := wires[i := Finish(wires[i], dropped, note)];
        } else {
          dropped := OfferTo(i, dropped, note, between);
          subs := subs[note.key := Subscription(i, dropped)];
        }
        return;
      }
      if count >= PENDING_EVENT_CAP {
        FullBacklogHasLongest(View());
        victim := LargestBacklog();
        EvictKept(View(), victim);
        var rest := backlog[victim][1..];
        count := count - 1;
        backlog := if rest == [] then backlog - {victim} else backlog[victim := rest];
      }
      count := count + 1;
      backlog := backlog[note.key := (if note.key in backlog then backlog[note.key] else []) + [note]];
    }

    /** Fills a new channel from the backlog until it ends or a terminal event comes. */
    method OpenChannel(key: Key, notes: seq<Note>) returns (w: Wire, dropped: nat, ended: bool)
      ensures (w, dropped, ended) == Drain(NewWire(key, buffer), 0, notes)
    {
      w, dropped := NewWire(key, buffer), 0;
      var i := 0;
      while i < |notes| && !notes[i].terminal
        invariant 0 <= i <= |notes|
        invariant Drain(NewWire(key, buffer), 0, notes) == Drain(w, dropped, notes[i..])
      {
        assert notes[i..][1..] == notes[i + 1..];
        var full := w.gone || |w.queue| >= w.capacity;
        w := Routed(w, notes[i]);
        if full {
          dropped := dropped + 1;
        }
        i := i + 1;
      }
      ended := i < |notes|;
      if ended {
        w, dropped := Finish(w, dropped, notes[i]), 0;
      }
    }

    /** Inserting a subscription drops the sender an earlier one of the same key held. */
    method DropSender(key: Key)
      requires SubsInv(View())
      modifies this`subs, this`wires
      ensures View() == Replaced(old(View()), key)
    {
      if key in subs {
        var earlier := subs[key];
        wires := wires[earlier.wire := Abandon(wires[earlier.wire], earlier.dropped)];
        subs := subs - {key};
      }
    }

    /** `subscribe`: the backlog first, then whatever arrives. */
    method Subscribe(key: Key) returns (stream: nat)
      requires Inv(View())
      modifies this
      ensures View() == Apply(old(View()), EventRouting.Subscribe(key))
      ensures stream == |old(wires)| && |wires| == stream + 1
    {
      stream := |wires|;
      var notes := if key in backlog then backlog[key] else [];
      count := if |notes| <= count then count - |notes| else 0;
      backlog := backlog - {key};
      var w, dropped, ended := OpenChannel(key, notes);
      if ended {
        wires := wires + [w];
      } else if closed {
        wires := wires + [Abandon(w, dropped)];
      } else {
        DropSender(key);
        subs := subs[key := Subscription(|wires|, dropped)];
        wires := wires + [w];
      }
    }

    /** One of the sends `deliver_terminal` spawned. */
    method SendWaiting(i: nat)
      requires i < |wires| && Inv(View())
      modifies this`wires
      ensures View() == Apply(old(View()), Send(i))
    {
      var w := wires[i];
      if w.waiting == [] {
        return;
      }
      if w.gone {
        wires := wires[i := w.(waiting := [], abandoned := w.abandoned + Announced(w.waiting))];
      } else {
        var ok := TrySendTo(i, w.waiting[0]);
        if ok {
          wires := wires[i := wires[i].(waiting := w.waiting[1..])];
        }
      }
    }

    /** `EventStream::next`, when something is there. */
    method Next(i: nat) returns (item: Option<Item>)
      requires i < |wires| && Inv(View())
      modifies this`wires
      ensures View() == Apply(old(View()), Take(i, 1))
      ensures item == if old(wires)[i].queue == [] then None else Some(old(wires)[i].queue[0])
    {
      var w := wires[i];
      if w.queue == [] {
        assert Taken(w, 1) == w;
        return None;
      }
      wires := wires[i := w.(queue := w.queue[1..], received := w.received + [w.queue[0]])];
      assert w.queue[..1] == [w.queue[0]];
      return Some(w.queue[0]);
    }

    /** `close`: every subscription's sender is dropped. */
    method CloseAll()
      requires Inv(View())
      modifies this
      ensures View() == Apply(old(View()), Close)
    {
      closed := true;
      var before := wires;
      var i := 0;
      while i < |before|
        invariant 0 <= i <= |before| == |wires|
        invariant closed && subs == old(subs) && count == old(count) && backlog == old(backlog)
        invariant before == old(wires)
        invariant forall j | 0 <= j < i :: wires[j] == Closed(old(View())).wires[j]
        invariant forall j | i <= j < |before| :: wires[j] == before[j]
      {
        if before[i].key in subs && subs[before[i].key].wire == i {
          wires := wires[i := Abandon(before[i], subs[before[i].key].dropped)];
        }
        i := i + 1;
      }
      subs := map[];
      assert wires == Closed(old(View())).wires;
    }
  }

  // ------------------------------------------------------------ forwarding to the frontend

  /** What the bridge emits: an item of the stream, or the finish it makes up itself. */
  datatype Emitted = Relayed(item: Item) | Synthetic(key: Key, seqNo: nat, agentId: string)

  predicate Finishes(e: Emitted) {
    e.Synthetic? || IsTerminal(e.item)
  }

  function SeqOf(i: Item): nat {
    if i.Event? then i.note.seqNo else 0
  }

  /**
   `forward` over the items a stream yields before it ends. The frontend always
   sees exactly one finish, as the last thing.
   */
  method Forward(items: seq<Item>, key: Key, agentId: string) returns (out: seq<Emitted>)
    ensures out != [] && Finishes(out[|out| - 1])
    ensures forall i | 0 <= i < |out| - 1 :: !Finishes(out[i])
    ensures |out| <= |items| + 1 && forall i | 0 <= i < |out| && i < |items| :: out[i] == Relayed(items[i])
    ensures |out| == |items| + 1 <==> forall i | 0 <= i < |items| :: !IsTerminal(items[i])
    ensures |out| == |items| + 1 ==>
              out[|items|] == Synthetic(key, (if items == [] then 0 else SeqOf(items[|items| - 1])) + 1, agentId)
  {
    out := [];
    var last, i := 0, 0;
    while i < |items|
      invariant 0 <= i <= |items| && |out| == i
      invariant forall j | 0 <= j < i :: out[j] == Relayed(items[j]) && !IsTerminal(items[j])
      invariant last == if i == 0 then 0 else SeqOf(items[i - 1])
    {
      last := SeqOf(items[i]);
      out := out + [Relayed(items[i])];
      if IsTerminal(items[i]) {
        return;
      }
      i := i + 1;
    }
    out := out + [Synthetic(key, last + 1, agentId)];
  }
}
