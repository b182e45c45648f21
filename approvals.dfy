/** `ApprovalList` of `expense_mgmt_frontend_starter.jsx`: a list of expense claims
    loaded from a fixed mock table, on which approve/reject set the status of the
    claim with a given id. */
module Approvals {

  /** One claim awaiting a decision. */
  datatype Item = Item(id: int, employee: string, amount: real, currency: string,
                       category: string, date: string, status: string)

  /** The mock table the list is loaded with. */
  const Mock: seq<Item> := [
    Item(1, "Employee One", 120.5, "USD", "Meals", "2025-09-28", "Pending"),
    Item(2, "Employee One", 560.0, "USD", "Travel", "2025-09-25", "Pending")
  ]

  /** The two actions the buttons pass to `act`. */
  const Approve: string := "Approved"
  const Reject: string := "Rejected"

  /** The callback given to `map` in `act`: a copy of the item with `status`
      replaced when its id matches, the item itself otherwise. */
  function ActOn(x: Item, id: int, action: string): Item
  {
    if x.id == id then x.(status := action) else x
  }

  /** `list.map(x => ...)` in `act`: the list after `action` is applied to `id`. */
  function Acted(items: seq<Item>, id: int, action: string): (r: seq<Item>)
    ensures |r| == |items|
    ensures forall i :: 0 <= i < |items| && items[i].id == id ==> r[i] == items[i].(status := action)
    ensures forall i :: 0 <= i < |items| && items[i].id != id ==> r[i] == items[i]
  {
    if items == [] then []
    else [ActOn(items[0], id, action)] + Acted(items[1..], id, action)
  }

  /** Acting twice on the same id: the second action wins. */
  lemma ActedTwice(items: seq<Item>, id: int, a1: string, a2: string)
    ensures Acted(Acted(items, id, a1), id, a2) == Acted(items, id, a2)
  {
  }

  /** Acting is idempotent. */
  lemma ActedIdempotent(items: seq<Item>, id: int, action: string)
    ensures Acted(Acted(items, id, action), id, action) == Acted(items, id, action)
  {
    ActedTwice(items, id, action, action);
  }

  /** Actions on different ids do not interfere: their order does not matter. */
  lemma ActedCommute(items: seq<Item>, id1: int, a1: string, id2: int, a2: string)
    requires id1 != id2
    ensures Acted(Acted(items, id1, a1), id2, a2) == Acted(Acted(items, id2, a2), id1, a1)
  {
  }

  /** An id that no item carries leaves the list as it is. */
  lemma ActedAbsent(items: seq<Item>, id: int, action: string)
    requires forall i :: 0 <= i < |items| ==> items[i].id != id
    ensures Acted(items, id, action) == items
  {
  }

  /** `ApprovalList`'s `list` state slot. */
  class ApprovalList {
    var list: seq<Item>

    /** `useState([])`. */
    constructor ()
      ensures list == []
    {
      list := [];
    }

    /** The mount effect: `setList(MOCK)`. */
    method Load()
      modifies this
      ensures list == Mock
    {
      list := Mock;
    }

    /** `act(id, action)`: sets `status := action` on every item with that id;
        every other item, the length and the order stay as they were. */
    method Act(id: int, action: string)
      modifies this
      ensures list == Acted(old(list), id, action)
    {
      list := Acted(list, id, action);
    }
  }

  /** Approving claim 1 of the mock table touches claim 1 only. */
  method ApproveFirstMockClaim() returns (statuses: seq<string>)
    ensures statuses == [Approve, "Pending"]
  {
    var l := new ApprovalList();
    l.Load();
    l.Act(1, Approve);
    statuses := [l.list[0].status, l.list[1].status];
  }
}
