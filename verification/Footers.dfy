/** The list the transcript shows: one footer for each agent, after its last item. */
module Footers {
  import opened Common
  import opened Transcript

  /** An item of the list; `tool` marks a tool call. */
  datatype Item = Item(key: string, agentId: Option<string>, tool: bool)

  datatype Shown = Entry(item: Item) | Footer(agentId: string, turn: Turn, toolCalls: nat)

  predicate Mentions(items: seq<Item>, agent: string) {
    exists i | 0 <= i < |items| :: items[i].agentId == Some(agent)
  }

  function ToolCalls(items: seq<Item>, agent: string): nat {
    if items == [] then 0
    else
      var last := items[|items| - 1];
      ToolCalls(items[..|items| - 1], agent) + if last.agentId == Some(agent) && last.tool then 1 else 0
  }

  /** The footer due after an item: its agent's, if no later item is. */
  function Due(items: seq<Item>, i: nat, agents: map<string, Turn>): seq<Shown>
    requires i < |items|
  {
    match items[i].agentId
    case None => []
    case Some(agent) =>
      if agent in agents && !Mentions(items[i + 1..], agent)
      then [Footer(agent, agents[agent], ToolCalls(items, agent))] else []
  }

  /** The first `n` items with their footers. */
  function WithFooters(items: seq<Item>, n: nat, agents: map<string, Turn>): seq<Shown>
    requires n <= |items|
  {
    if n == 0 then [] else WithFooters(items, n - 1, agents) + ([Entry(items[n - 1])] + Due(items, n - 1, agents))
  }

  /** The index of each agent's last item. */
  ghost predicate LastIndexOk(items: seq<Item>, n: nat, lastIndex: map<string, nat>)
    requires n <= |items|
  {
    && (forall a | a in lastIndex ::
          lastIndex[a] < n && items[lastIndex[a]].agentId == Some(a)
          && forall k | lastIndex[a] < k < n :: items[k].agentId != Some(a))
    && (forall k | 0 <= k < n && items[k].agentId.Some? :: items[k].agentId.value in lastIndex)
  }

  function CountIn(toolCalls: map<string, nat>, a: string): nat {
    if a in toolCalls then toolCalls[a] else 0
  }

  /** The two tables of `withFooters`. */
  method Tables(items: seq<Item>) returns (lastIndex: map<string, nat>, toolCalls: map<string, nat>)
    ensures LastIndexOk(items, |items|, lastIndex)
    ensures forall a :: CountIn(toolCalls, a) == ToolCalls(items, a)
  {
    lastIndex, toolCalls := map[], map[];
    for i := 0 to |items|
      invariant LastIndexOk(items, i, lastIndex)
      invariant forall a :: CountIn(toolCalls, a) == ToolCalls(items[..i], a)
    {
      var item := items[i];
      assert items[..i + 1][..i] == items[..i];
      if item.agentId.Some? {
        var a := item.agentId.value;
        lastIndex := lastIndex[a := i];
        if item.tool {
          toolCalls := toolCalls[a := CountIn(toolCalls, a) + 1];
        }
      }
    }
    assert items[..|items|] == items;
  }

  /** `withFooters`. */
  method InsertFooters(items: seq<Item>, agents: map<string, Turn>) returns (out: seq<Shown>)
    ensures out == WithFooters(items, |items|, agents)
  {
    hide Mentions, ToolCalls;
    var lastIndex, toolCalls := Tables(items);
    out := [];
    for i := 0 to |items|
      invariant out == WithFooters(items, i, agents)
    {
      var footer: seq<Shown> := [];
      if items[i].agentId.Some? {
        var a := items[i].agentId.value;
        LastMention(items, i, a, lastIndex[a]);
        if lastIndex[a] == i && a in agents {
          footer := [Footer(a, agents[a], CountIn(toolCalls, a))];
        }
      }
      assert footer == Due(items, i, agents);
      out := out + ([Entry(items[i])] + footer);
    }
  }

  lemma MentionsSnoc(items: seq<Item>, item: Item)
    ensures forall a :: Mentions(items + [item], a) <==> Mentions(items, a) || item.agentId == Some(a)
  {
    forall a ensures Mentions(items + [item], a) <==> Mentions(items, a) || item.agentId == Some(a) {
      if Mentions(items, a) {
        var i :| 0 <= i < |items| && items[i].agentId == Some(a);
        assert (items + [item])[i].agentId == Some(a);
      }
      assert (items + [item])[|items|] == item;
    }
  }

  lemma LastMention(items: seq<Item>, i: nat, a: string, last: nat)
    requires i < |items| && items[i].agentId == Some(a)
    requires last < |items| && items[last].agentId == Some(a) && forall k | last < k < |items| :: items[k].agentId != Some(a)
    ensures last == i <==> !Mentions(items[i + 1..], a)
  {
    if last > i {
      assert items[i + 1..][last - i - 1].agentId == Some(a);
    }
  }

  // ------------------------------------------------------------ what the list is

  function Entries(out: seq<Shown>): seq<Item> {
    if out == [] then []
    else if out[|out| - 1].Entry? then Entries(out[..|out| - 1]) + [out[|out| - 1].item]
    else Entries(out[..|out| - 1])
  }

  function FooterCount(out: seq<Shown>, agent: string): nat {
    if out == [] then 0
    else
      var last := out[|out| - 1];
      FooterCount(out[..|out| - 1], agent) + if last.Footer? && last.agentId == agent then 1 else 0
  }

  lemma Snoc(out: seq<Shown>, s: Shown, agent: string)
    ensures Entries(out + [s]) == if s.Entry? then Entries(out) + [s.item] else Entries(out)
    ensures FooterCount(out + [s], agent) == FooterCount(out, agent) + if s.Footer? && s.agentId == agent then 1 else 0
  {
    assert (out + [s])[..|out|] == out;
  }

  lemma {:induction false} OneMore(items: seq<Item>, n: nat, agents: map<string, Turn>, agent: string)
    requires 0 < n <= |items|
    ensures var before, after := WithFooters(items, n - 1, agents), WithFooters(items, n, agents);
            && Entries(after) == Entries(before) + [items[n - 1]]
            && FooterCount(after, agent) == FooterCount(before, agent)
                 + if items[n - 1].agentId == Some(agent) && agent in agents && !Mentions(items[n..], agent) then 1 else 0
  {
    hide Entries, FooterCount, Mentions, ToolCalls;
    var before := WithFooters(items, n - 1, agents);
    var due := Due(items, n - 1, agents);
    var entry := Entry(items[n - 1]);
    Snoc(before, entry, agent);
    if due == [] {
      assert before + ([entry] + due) == before + [entry];
    } else {
      Snoc(before + [entry], due[0], agent);
      assert due == [due[0]];
      assert before + ([entry] + due) == (before + [entry]) + [due[0]];
    }
  }

  /** The items are all there, in order; an agent has a footer when it has an item, and only one. */
  lemma {:induction false} OneFooterEach(items: seq<Item>, n: nat, agents: map<string, Turn>, agent: string)
    requires n <= |items|
    ensures Entries(WithFooters(items, n, agents)) == items[..n]
    ensures FooterCount(WithFooters(items, n, agents), agent) ==
            if agent in agents && Mentions(items[..n], agent) && !Mentions(items[n..], agent) then 1 else 0
    decreases n
  {
    hide WithFooters, Entries, FooterCount, Mentions;
    if n == 0 {
      NoItems(items, agents, agent);
    } else {
      OneFooterEach(items, n - 1, agents, agent);
      OneMore(items, n, agents, agent);
      assert items[..n] == items[..n - 1] + [items[n - 1]];
      MentionsSnoc(items[..n - 1], items[n - 1]);
      SplitMentions(items, n, agent);
    }
  }

  lemma NoItems(items: seq<Item>, agents: map<string, Turn>, agent: string)
    ensures Entries(WithFooters(items, 0, agents)) == items[..0] && FooterCount(WithFooters(items, 0, agents), agent) == 0
    ensures !Mentions(items[..0], agent)
  {}

  lemma SplitMentions(items: seq<Item>, n: nat, agent: string)
    requires 0 < n <= |items|
    ensures Mentions(items[n - 1..], agent) <==> items[n - 1].agentId == Some(agent) || Mentions(items[n..], agent)
  {
    var tail := items[n - 1..];
    assert tail[0] == items[n - 1];
    assert forall k | 0 <= k < |items| - n :: items[n..][k] == tail[k + 1];
    assert forall k | 0 < k < |tail| :: tail[k] == items[n..][k - 1];
  }

  /** In the whole list, exactly one footer for each agent that has a turn and an item. */
  lemma {:induction false} FootersAreComplete(items: seq<Item>, agents: map<string, Turn>, agent: string)
    ensures var out := WithFooters(items, |items|, agents);
            && Entries(out) == items
            && FooterCount(out, agent) == if agent in agents && Mentions(items, agent) then 1 else 0
  {
    OneFooterEach(items, |items|, agents, agent);
    assert items[..|items|] == items && !Mentions(items[|items|..], agent);
  }

  /** The footer states its agent's turn and calls, right after an item of the agent and before none. */
  predicate Placed(out: seq<Shown>, j: nat, items: seq<Item>, agents: map<string, Turn>)
    requires j < |out| && out[j].Footer?
  {
    var agent := out[j].agentId;
    && agent in agents && out[j].turn == agents[agent] && out[j].toolCalls == ToolCalls(items, agent)
    && j > 0 && out[j - 1].Entry? && out[j - 1].item.agentId == Some(agent)
    && forall k | j < k < |out| && out[k].Entry? :: out[k].item.agentId != Some(agent)
  }

  lemma PlacedStays(out: seq<Shown>, j: nat, items: seq<Item>, agents: map<string, Turn>, more: Shown)
    requires j < |out| && out[j].Footer? && Placed(out, j, items, agents)
    requires more.Entry? ==> more.item.agentId != Some(out[j].agentId)
    ensures Placed(out + [more], j, items, agents)
  {
    hide ToolCalls;
  }

  /** All footers so far are placed, and no item still to come is of their agents. */
  predicate AllPlaced(out: seq<Shown>, items: seq<Item>, n: nat, agents: map<string, Turn>)
    requires n <= |items|
  {
    forall j | 0 <= j < |out| && out[j].Footer? :: Placed(out, j, items, agents) && !Mentions(items[n..], out[j].agentId)
  }

  lemma {:induction false} PrefixPlaced(items: seq<Item>, n: nat, agents: map<string, Turn>)
    requires n <= |items|
    ensures AllPlaced(WithFooters(items, n, agents), items, n, agents)
    decreases n
  {
    hide Mentions, ToolCalls, Placed;
    if n > 0 {
      PrefixPlaced(items, n - 1, agents);
      var before, item, due := WithFooters(items, n - 1, agents), items[n - 1], Due(items, n - 1, agents);
      var mid := before + [Entry(item)];
      forall j | 0 <= j < |mid| && mid[j].Footer?
        ensures Placed(mid, j, items, agents) && !Mentions(items[n..], mid[j].agentId)
      {
        assert mid[j] == before[j];
        SplitMentions(items, n, before[j].agentId);
        PlacedStays(before, j, items, agents, Entry(item));
      }
      if due == [] {
        assert WithFooters(items, n, agents) == mid;
      } else {
        var out := mid + [due[0]];
        assert WithFooters(items, n, agents) == out;
        forall j | 0 <= j < |mid| && mid[j].Footer? ensures Placed(out, j, items, agents) {
          PlacedStays(mid, j, items, agents, due[0]);
        }
        JustPlaced(mid, item, due[0], items, agents);
      }
    }
  }

  lemma JustPlaced(mid: seq<Shown>, item: Item, footer: Shown, items: seq<Item>, agents: map<string, Turn>)
    requires mid != [] && mid[|mid| - 1] == Entry(item)
    requires footer.Footer? && item.agentId == Some(footer.agentId) && footer.agentId in agents
    requires footer == Footer(footer.agentId, agents[footer.agentId], ToolCalls(items, footer.agentId))
    ensures Placed(mid + [footer], |mid|, items, agents)
  {}

  /** Every footer of the list directly follows its agent's last item, with that agent's turn and number of tool calls. */
  lemma FootersFollowLast(items: seq<Item>, agents: map<string, Turn>, j: nat)
    requires j < |WithFooters(items, |items|, agents)| && WithFooters(items, |items|, agents)[j].Footer?
    ensures Placed(WithFooters(items, |items|, agents), j, items, agents)
  {
    PrefixPlaced(items, |items|, agents);
  }
}
