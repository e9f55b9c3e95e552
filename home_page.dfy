/** The seller home page: the onboarding progress bar over the checklist and
    one card per configured checklist item. */
module HomePage {
  import opened Common
  import opened Checklist

  predicate Completed(it: Item) { it.status == "completed" }

  /** `completedCount`: how many items are completed. */
  function CompletedCount(items: seq<Item>): (n: nat)
    ensures n <= |items|
  {
    |Filter(Completed, items)|
  }

  /** Every item is completed exactly when the count of completed items is the
      number of items. */
  lemma {:induction false} AllCompletedCount(items: seq<Item>)
    ensures CompletedCount(items) == |items| <==> forall i :: 0 <= i < |items| ==> Completed(items[i])
  {
    if items != [] {
      AllCompletedCount(items[1..]);
      assert Filter(Completed, items) == (if Completed(items[0]) then [items[0]] else []) + Filter(Completed, items[1..]);
      assert forall i :: 1 <= i < |items| ==> items[i] == items[1..][i - 1];
    }
  }

  /** `isComplete`: vacuously true for an empty list. */
  predicate IsComplete(items: seq<Item>) {
    CompletedCount(items) == |items|
  }

  /** `progress`, in percent: 0 for an empty list, otherwise the completed
      share of the items. */
  function Progress(items: seq<Item>): (p: real)
    ensures 0.0 <= p <= 100.0
    ensures items == [] ==> p == 0.0
    ensures p == 100.0 <==> items != [] && IsComplete(items)
    ensures p == 0.0 <==> CompletedCount(items) == 0
  {
    var total := |items|;
    if total > 0 then (CompletedCount(items) as real / total as real) * 100.0 else 0.0
  }

  /** What a rendered item card shows besides its configured text: the action
      link and the completion date. */
  datatype Card = Card(key: string, completed: bool, actionLink: bool, completionDate: Option<int>)

  /** An item is rendered only when its key has a configuration entry; the
      six configured keys are those of a new checklist. */
  predicate Configured(it: Item) { it.key in Keys }

  function CardOf(it: Item): (c: Card)
    ensures c.key == it.key && c.completed == Completed(it)
    ensures c.actionLink <==> !Completed(it)
    ensures c.completionDate.Some? <==> Completed(it) && it.completedAt.Some?
    ensures c.completionDate.Some? ==> c.completionDate == it.completedAt
  {
    var done := Completed(it);
    Card(it.key, done, !done, if done && it.completedAt.Some? then it.completedAt else None)
  }

  /** The cards, in item order, for the configured items only. */
  function Cards(items: seq<Item>): (cards: seq<Card>)
    ensures |cards| <= |items|
    ensures forall k :: 0 <= k < |cards| ==> cards[k].key in Keys
  {
    MapSeq(CardOf, Filter(Configured, items))
  }

  /** Every configured item gets its card. */
  lemma ConfiguredItemsShown(items: seq<Item>, k: int)
    requires 0 <= k < |items| && Configured(items[k])
    ensures CardOf(items[k]) in Cards(items)
  {
    var shown := Filter(Configured, items);
    var j :| 0 <= j < |shown| && shown[j] == items[k];
    assert Cards(items)[j] == CardOf(items[k]);
  }

  /** Every card is the card of a configured item. */
  lemma CardsFromConfiguredItems(items: seq<Item>, c: Card)
    requires c in Cards(items)
    ensures exists k :: 0 <= k < |items| && Configured(items[k]) && c == CardOf(items[k])
  {
    var shown := Filter(Configured, items);
    var j :| 0 <= j < |Cards(items)| && Cards(items)[j] == c;
    var k :| 0 <= k < |items| && items[k] == shown[j];
  }

  /** On a fresh checklist nothing is completed: progress is 0 and the
      checklist is not complete. */
  lemma FreshChecklistView()
    ensures CompletedCount(InitialItems()) == 0 && Progress(InitialItems()) == 0.0
    ensures !IsComplete(InitialItems())
  {
    var items := InitialItems();
    assert !Completed(items[0]);
    AllCompletedCount(items);
  }
}
