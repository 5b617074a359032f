/** What the counts of a turn say (codex/turn_history.go:106-134): how many items of which kinds there are. */
module ItemNumbers {
  import opened Prelude
  import opened ItemCounts

  /** How many items are of a kind. */
  function Number(items: seq<Item>, counts: Kind -> bool): nat
    decreases |items|
  {
    if items == [] then 0
    else Number(items[..|items| - 1], counts) + if counts(items[|items| - 1].kind) then 1 else 0
  }

  /** The counts are what they say: how many messages were sent and received, how many tools the turn itself called, and
      whether it slept. */
  lemma {:induction false} SumCountsItems(items: seq<Item>)
    ensures var s := Sum(items);
            && s.messages == Number(items, (k: Kind) => k == AgentMessage)
            && s.received == Number(items, (k: Kind) => k == UserMessage)
            && s.toolCalls == Number(items, (k: Kind) => k == Tool || k == Sleep || k.OwnAgentCall?)
            && (s.hasSleep <==> exists i :: 0 <= i < |items| && items[i].kind == Sleep)
    decreases |items|
  {
    if items != [] {
      var init := items[..|items| - 1];
      SumCountsItems(init);
      assert forall i :: 0 <= i < |init| ==> init[i] == items[i];
    }
  }

  /** An item is waited for exactly while a wait of the turn's own for other agents is in progress. */
  lemma WaitingExactlyWhen(items: seq<Item>, id: string)
    ensures id in Waiting(items) <==>
            exists i :: 0 <= i < |items| && items[i] == Item(id, OwnAgentCall(true), true, items[i].content)
  {
  }
}
