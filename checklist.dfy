/** The onboarding checklist: an ordered list of keyed items, each pending or
    completed with a completion time. Items are found by key (the first item
    with that key), so the list's order and length never change. */
module Checklist {
  import opened Common

  datatype Item = Item(key: string, status: string, completedAt: Option<int>)

  /** The keys whose items the creation handlers complete. */
  const KeyAddProduct: string := "add_product"
  const KeyAddFinance: string := "add_finance"
  const KeyAddAddress: string := "add_address"

  /** The six keys a new checklist holds, in display order. */
  const Keys: seq<string> :=
    [KeyAddProduct, KeyAddFinance, KeyAddAddress, "configure_rto", "review_fees", "invite_team"]

  function KeysOf(items: seq<Item>): (r: seq<string>)
    ensures |r| == |items| && forall i :: 0 <= i < |items| ==> r[i] == items[i].key
  {
    MapSeq((it: Item) => it.key, items)
  }

  predicate Pending(it: Item) { it.status == "pending" }

  /** The checklist created for a user who has none: one pending item per key,
      none with a completion time. */
  function InitialItems(): (r: seq<Item>)
    ensures KeysOf(r) == Keys
    ensures forall i :: 0 <= i < |r| ==> Pending(r[i]) && r[i].completedAt.None?
  {
    MapSeq((k: string) => Item(k, "pending", None), Keys)
  }

  /** The six keys are pairwise different, so each occurs exactly once. */
  lemma KeysDistinct()
    ensures forall i, j :: 0 <= i < j < |Keys| ==> Keys[i] != Keys[j]
  {
    forall i, j | 0 <= i < j < |Keys| ensures Keys[i] != Keys[j] {
      assert Keys[i][4] != Keys[j][4] || Keys[i][0] != Keys[j][0];
    }
  }

  /** The PATCH update: the first item with `key` gets the requested status
      (any string), stamped with `now` exactly when that status is
      "completed"; `None` (404) when no item has the key. */
  function SetItem(items: seq<Item>, key: string, status: string, now: int): (r: Option<seq<Item>>)
    ensures r.None? <==> key !in KeysOf(items)
  {
    var i := IndexOf(KeysOf(items), key);
    if i == -1 then None
    else Some(items[i := items[i].(status := status, completedAt := if status == "completed" then Some(now) else None)])
  }

  /** What PATCH promises: only the first item with the key changes; it
      carries the requested status, and a completion time iff that status is
      "completed"; keys, order and length are kept. */
  lemma SetItemEffect(items: seq<Item>, key: string, status: string, now: int)
    requires key in KeysOf(items)
    ensures var r := SetItem(items, key, status, now).value;
      var i := IndexOf(KeysOf(items), key);
      && |r| == |items|
      && KeysOf(r) == KeysOf(items)
      && r[i].key == key && r[i].status == status
      && (r[i].completedAt.Some? <==> status == "completed")
      && (status == "completed" ==> r[i].completedAt == Some(now))
      && (forall j :: 0 <= j < |items| && j != i ==> r[j] == items[j])
  {
  }

  /** PATCH is not a latch: it can move a completed item back to pending,
      dropping its completion time. */
  lemma SetItemReopens(items: seq<Item>, key: string, now: int)
    requires key in KeysOf(items)
    ensures var r := SetItem(items, key, "pending", now).value;
      var i := IndexOf(KeysOf(items), key);
      Pending(r[i]) && r[i].completedAt.None?
  {
  }

  /** The side effect of creating a product, payout method or address: the
      first item with `key`, if it is pending, becomes completed at `now`;
      otherwise nothing changes. */
  function Latch(items: seq<Item>, key: string, now: int): (r: seq<Item>)
    ensures |r| == |items|
  {
    var i := IndexOf(KeysOf(items), key);
    if i >= 0 && Pending(items[i]) then items[i := items[i].(status := "completed", completedAt := Some(now))]
    else items
  }

  /** The latch completes a pending item and touches nothing else: keys and
      order are kept, every other item is unchanged, and an item that is not
      pending (completed, or any other status) stays exactly as it was. */
  lemma LatchEffect(items: seq<Item>, key: string, now: int)
    ensures var r := Latch(items, key, now);
      var i := IndexOf(KeysOf(items), key);
      && KeysOf(r) == KeysOf(items)
      && (forall j :: 0 <= j < |items| && j != i ==> r[j] == items[j])
      && (i >= 0 && Pending(items[i]) ==> r[i].status == "completed" && r[i].completedAt == Some(now))
      && (i >= 0 && !Pending(items[i]) ==> r[i] == items[i])
      && (i == -1 ==> r == items)
  {
  }

  /** The latch is monotone: an item already completed is never changed. */
  lemma LatchKeepsCompleted(items: seq<Item>, key: string, now: int, j: nat)
    requires j < |items| && items[j].status == "completed"
    ensures Latch(items, key, now)[j] == items[j]
  {
  }

  /** The latch is idempotent: a second trigger, at any later time, finds the
      item completed and keeps the first completion time. */
  lemma LatchIdempotent(items: seq<Item>, key: string, t1: int, t2: int)
    ensures Latch(Latch(items, key, t1), key, t2) == Latch(items, key, t1)
  {
    var r := Latch(items, key, t1);
    assert KeysOf(r) == KeysOf(items);
  }

  /** The first product on a fresh checklist completes `add_product` at that
      time, and the other five items stay pending. */
  lemma FirstProductOnFreshChecklist(now: int)
    ensures var r := Latch(InitialItems(), "add_product", now);
      && r[0] == Item("add_product", "completed", Some(now))
      && forall j :: 1 <= j < 6 ==> Pending(r[j]) && r[j].completedAt.None?
  {
    var items := InitialItems();
    assert KeysOf(items)[0] == "add_product";
    assert IndexOf(KeysOf(items), "add_product") == 0;
  }

  /** The latch as the handlers apply it to the table of checklists: only the
      caller's checklist, and only if the caller has one; none is created. */
  function LatchFor(lists: map<Id, seq<Item>>, owner: Id, key: string, now: int): (r: map<Id, seq<Item>>)
    ensures r.Keys == lists.Keys
    ensures forall u :: u in lists && u != owner ==> r[u] == lists[u]
    ensures owner in lists ==> r[owner] == Latch(lists[owner], key, now)
  {
    if owner in lists then lists[owner := Latch(lists[owner], key, now)] else lists
  }
}
