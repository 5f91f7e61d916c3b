/** The Manage Transactions page: the transactions table, and the edit dialog
    that changes a transaction's status and its line items. Item edits and the
    total are pure functions of the item list; the page state is a class.
    The selected transaction is modelled in the state React settles in after
    the effect that recomputes `t_total` whenever `t_items` changes, so its
    total always equals the formula (the class invariant `Valid`). */
module ManageTransactions {
  import opened Collections
  import opened Pagination
  import opened Records

  const TransactionsUrl := "https://angkringan-backend.vercel.app/api/transactions"

  /** One line of `t_items`. */
  datatype Item = Item(menuId: string, menuName: string, quantity: int, price: int)

  /** The promotion a transaction references (`promo_id`). */
  datatype Promo = Promo(promoCode: string, promoPrice: int)

  /** A transaction from `/api/transactions` (`t_status`, `t_total`, `t_date`, `t_items`). */
  datatype Transaction = Transaction(
    id: string,
    accountName: string,
    promo: Option<Promo>,
    status: string,
    total: int,
    date: int,
    items: seq<Item>)

  /** The statuses the edit dialog's select offers. */
  const StatusOptions: seq<string> := ["Completed", "Waiting for payment", "Processing", "Canceled"]

  lemma StatusOptionsAreFourDistinct()
    ensures |StatusOptions| == 4
    ensures forall i, j :: 0 <= i < j < |StatusOptions| ==> StatusOptions[i] != StatusOptions[j]
  {
  }

  /** The item "Add Menu" appends: no menu chosen yet, quantity 1, price 0. */
  const BlankItem := Item("", "", 1, 0)

  // ---------------------------------------------------------------------
  // Line-item edits

  /** `handleAddMenuItem`: one blank item at the end, every earlier item unchanged. */
  function AddItem(items: seq<Item>): (r: seq<Item>)
    ensures |r| == |items| + 1
    ensures r[..|items|] == items && r[|items|] == BlankItem
  {
    items + [BlankItem]
  }

  /** `handleRemoveMenuItem`: `filter((_, i) => i !== index)` — every item but
      position `index`, in order; an index outside the list removes nothing. */
  function RemoveItem(items: seq<Item>, index: int): (r: seq<Item>)
    ensures 0 <= index < |items| ==> |r| == |items| - 1
    ensures 0 <= index < |items| ==> forall k :: 0 <= k < |r| ==> r[k] == items[if k < index then k else k + 1]
    ensures !(0 <= index < |items|) ==> r == items
  {
    if 0 <= index < |items| then items[..index] + items[index + 1..] else items
  }

  /** `menus.find((m) => m._id === menuId)`: the first catalog entry with that id, if any. */
  function FindMenu(menus: seq<Menu>, id: string): (r: Option<Menu>)
    ensures r.Some? ==> r.value in menus && r.value.id == id
    ensures r.None? <==> forall m :: m in menus ==> m.id != id
    ensures r.Some? ==> exists k :: 0 <= k < |menus| && menus[k] == r.value && forall j :: 0 <= j < k ==> menus[j].id != id
  {
    if menus == [] then None
    else if menus[0].id == id then Some(menus[0])
    else
      var r := FindMenu(menus[1..], id);
      if r.Some? then
        var k :| 0 <= k < |menus[1..]| && menus[1..][k] == r.value && forall j :: 0 <= j < k ==> menus[1..][j].id != id;
        assert menus[k + 1] == r.value;
        r
      else
        r
  }

  /** `handleMenuChange` once the menu is found: item `index` takes the menu's
      id, name and price and keeps its quantity; every other item is unchanged. */
  function SetItemMenu(items: seq<Item>, index: int, m: Menu): (r: seq<Item>)
    ensures |r| == |items|
    ensures forall k :: 0 <= k < |items| && k != index ==> r[k] == items[k]
    ensures 0 <= index < |items| ==>
      && r[index].menuId == m.id && r[index].menuName == m.menuName && r[index].price == m.menuPrice
      && r[index].quantity == items[index].quantity
  {
    seq(|items|, k requires 0 <= k < |items| =>
      if k == index then items[k].(menuId := m.id, menuName := m.menuName, price := m.menuPrice) else items[k])
  }

  /** `handleQuantityChange`: only item `index`'s quantity changes. */
  function SetItemQuantity(items: seq<Item>, index: int, quantity: int): (r: seq<Item>)
    ensures |r| == |items|
    ensures forall k :: 0 <= k < |items| && k != index ==> r[k] == items[k]
    ensures 0 <= index < |items| ==> r[index] == items[index].(quantity := quantity)
  {
    seq(|items|, k requires 0 <= k < |items| => if k == index then items[k].(quantity := quantity) else items[k])
  }

  /** Adding an item and removing the last one gives back the original list. */
  lemma AddThenRemoveRestores(items: seq<Item>)
    ensures RemoveItem(AddItem(items), |items|) == items
  {
  }

  // ---------------------------------------------------------------------
  // The total

  function LineTotal(it: Item): (r: int)
    ensures it.price == 0 || it.quantity == 0 ==> r == 0
    ensures it.quantity == 1 ==> r == it.price
    ensures it.price >= 0 && it.quantity >= 0 ==> r >= 0
  {
    it.price * it.quantity
  }

  /** `t_items.reduce((sum, item) => sum + item.price * item.quantity, 0)`. */
  function Subtotal(items: seq<Item>): (r: int)
    ensures items == [] ==> r == 0
    ensures |items| == 1 ==> r == LineTotal(items[0])
    decreases |items|
  {
    if items == [] then 0 else Subtotal(items[..|items| - 1]) + LineTotal(items[|items| - 1])
  }

  /** No line below zero means no subtotal below zero; all lines zero means a zero subtotal. */
  lemma {:induction false} SubtotalSign(items: seq<Item>)
    ensures (forall i :: 0 <= i < |items| ==> LineTotal(items[i]) >= 0) ==> Subtotal(items) >= 0
    ensures (forall i :: 0 <= i < |items| ==> LineTotal(items[i]) == 0) ==> Subtotal(items) == 0
    decreases |items|
  {
    if items != [] {
      var init := items[..|items| - 1];
      assert forall i :: 0 <= i < |init| ==> init[i] == items[i];
      SubtotalSign(init);
    }
  }

  /** `promo_id?.promo_price || 0`. */
  function Discount(promo: Option<Promo>): (r: int)
    ensures promo.None? ==> r == 0
    ensures promo.Some? ==> r == promo.value.promoPrice
  {
    if promo.Some? then promo.value.promoPrice else 0
  }

  /** `updateTotalPrice`: the subtotal less the promotion; there is no floor at zero. */
  function Total(items: seq<Item>, promo: Option<Promo>): (r: int)
    ensures r + Discount(promo) == Subtotal(items)
    ensures promo.None? ==> r == Subtotal(items)
    ensures items == [] ==> r == -Discount(promo)
  {
    Subtotal(items) - Discount(promo)
  }

  lemma {:induction false} SubtotalAppend(a: seq<Item>, b: seq<Item>)
    ensures Subtotal(a + b) == Subtotal(a) + Subtotal(b)
    decreases |b|
  {
    if b != [] {
      var b' := b[..|b| - 1];
      assert (a + b)[..|a + b| - 1] == a + b';
      assert (a + b)[|a + b| - 1] == b[|b| - 1];
      SubtotalAppend(a, b');
    } else {
      assert a + b == a;
    }
  }

  lemma SubtotalSingle(it: Item)
    ensures Subtotal([it]) == LineTotal(it)
  {
    assert [it][..0] == [];
  }

  /** The total splits around position `index`. */
  lemma SubtotalAround(items: seq<Item>, index: int)
    requires 0 <= index < |items|
    ensures Subtotal(items) == Subtotal(items[..index]) + LineTotal(items[index]) + Subtotal(items[index + 1..])
  {
    assert items == items[..index] + [items[index]] + items[index + 1..];
    SubtotalAppend(items[..index] + [items[index]], items[index + 1..]);
    SubtotalAppend(items[..index], [items[index]]);
    SubtotalSingle(items[index]);
  }

  /** A blank item is worth nothing: adding one leaves the total as it was. */
  lemma AddItemKeepsTotal(items: seq<Item>, promo: Option<Promo>)
    ensures Total(AddItem(items), promo) == Total(items, promo)
  {
    SubtotalAppend(items, [BlankItem]);
    SubtotalSingle(BlankItem);
  }

  /** Removing item `index` takes exactly its line off the total. */
  lemma RemoveItemTotal(items: seq<Item>, index: int, promo: Option<Promo>)
    requires 0 <= index < |items|
    ensures Total(RemoveItem(items, index), promo) == Total(items, promo) - LineTotal(items[index])
  {
    SubtotalAround(items, index);
    SubtotalAppend(items[..index], items[index + 1..]);
  }

  /** Changing item `index` to `it` changes the total by the difference of the two lines. */
  lemma ReplaceItemTotal(items: seq<Item>, index: int, it: Item, promo: Option<Promo>)
    requires 0 <= index < |items|
    ensures Total(items[index := it], promo) == Total(items, promo) - LineTotal(items[index]) + LineTotal(it)
  {
    var r := items[index := it];
    SubtotalAround(items, index);
    SubtotalAround(r, index);
    assert r[..index] == items[..index];
    assert r[index + 1..] == items[index + 1..];
  }

  /** A quantity change re-prices only its own line. */
  lemma QuantityChangeTotal(items: seq<Item>, index: int, quantity: int, promo: Option<Promo>)
    requires 0 <= index < |items|
    ensures Total(SetItemQuantity(items, index, quantity), promo)
         == Total(items, promo) - LineTotal(items[index]) + items[index].price * quantity
  {
    assert SetItemQuantity(items, index, quantity) == items[index := items[index].(quantity := quantity)];
    ReplaceItemTotal(items, index, items[index].(quantity := quantity), promo);
  }

  /** A menu change re-prices only its own line, at the menu's price. */
  lemma MenuChangeTotal(items: seq<Item>, index: int, m: Menu, promo: Option<Promo>)
    requires 0 <= index < |items|
    ensures Total(SetItemMenu(items, index, m), promo)
         == Total(items, promo) - LineTotal(items[index]) + m.menuPrice * items[index].quantity
  {
    var it := items[index].(menuId := m.id, menuName := m.menuName, price := m.menuPrice);
    assert SetItemMenu(items, index, m) == items[index := it];
    ReplaceItemTotal(items, index, it, promo);
  }

  /** Two items, 2 × 1000 and 1 × 500, with a promotion worth 300, total 2200. */
  lemma TotalExample()
    ensures Total([Item("a", "A", 2, 1000), Item("b", "B", 1, 500)], Some(Promo("P", 300))) == 2200
  {
    var items := [Item("a", "A", 2, 1000), Item("b", "B", 1, 500)];
    assert items[..1] == [items[0]];
    SubtotalSingle(items[0]);
  }

  /** With no items, a promotion makes the total negative: nothing floors it at zero. */
  lemma TotalMayBeNegative()
    ensures Total([], Some(Promo("P", 300))) == -300
  {
  }

  /** A transaction whose `t_total` matches the formula. */
  predicate Settled(t: Transaction) {
    t.total == Total(t.items, t.promo)
  }

  /** The recompute effect: only the total changes, and afterwards it matches the formula. */
  function Recompute(t: Transaction): (r: Transaction)
    ensures Settled(r) && r.(total := t.total) == t
  {
    t.(total := Total(t.items, t.promo))
  }

  /** Recomputing a second time changes nothing. */
  lemma RecomputeIdempotent(t: Transaction)
    ensures Recompute(Recompute(t)) == Recompute(t)
  {
  }

  /** The status select: replaces `t_status` only, so a settled transaction stays settled. */
  function SetStatus(t: Transaction, status: string): (r: Transaction)
    ensures r.status == status && r.(status := t.status) == t
    ensures Settled(t) ==> Settled(r)
  {
    t.(status := status)
  }

  // ---------------------------------------------------------------------
  // The transactions list

  /** After a save: the element whose id is the response's is replaced by it;
      the length, the order and every id stay as they were. */
  function ReplaceById(ts: seq<Transaction>, saved: Transaction): (r: seq<Transaction>)
    ensures |r| == |ts|
    ensures forall k :: 0 <= k < |ts| ==> r[k].id == ts[k].id
    ensures forall k :: 0 <= k < |ts| && ts[k].id != saved.id ==> r[k] == ts[k]
    ensures forall k :: 0 <= k < |ts| && ts[k].id == saved.id ==> r[k] == saved
  {
    seq(|ts|, k requires 0 <= k < |ts| => if ts[k].id == saved.id then saved else ts[k])
  }

  /** Saving the same response twice is the same as saving it once. */
  lemma ReplaceByIdIdempotent(ts: seq<Transaction>, saved: Transaction)
    ensures ReplaceById(ReplaceById(ts, saved), saved) == ReplaceById(ts, saved)
  {
  }

  predicate OtherId(t: Transaction, id: string) {
    t.id != id
  }

  /** After a delete: every transaction with another id, in order. */
  function RemoveById(ts: seq<Transaction>, id: string): (r: seq<Transaction>)
    ensures forall t :: t in r <==> t in ts && t.id != id
  {
    Filter(ts, t => OtherId(t, id))
  }

  lemma RemoveByIdKeepsOrder(ts: seq<Transaction>, id: string)
    ensures IsSubsequence(RemoveById(ts, id), ts)
  {
    FilterIsSubsequence(ts, t => OtherId(t, id));
  }

  // ---------------------------------------------------------------------
  // The page

  class TransactionsPage {
    var transactions: seq<Transaction>
    var menus: seq<Menu>
    var editDialogOpen: bool
    var deleteDialogOpen: bool
    var selected: Option<Transaction>
    const pager: Pager

    /** The transaction in the dialog always carries the recomputed total. */
    ghost predicate Valid()
      reads this
    {
      selected.Some? ==> Settled(selected.value)
    }

    constructor ()
      ensures Valid()
      ensures transactions == [] && menus == [] && selected == None
      ensures !editDialogOpen && !deleteDialogOpen
      ensures fresh(pager) && pager.page == 0 && pager.rowsPerPage == 5
    {
      transactions := [];
      menus := [];
      editDialogOpen := false;
      deleteDialogOpen := false;
      selected := None;
      pager := new Pager();
    }

    /** `count={transactions.length}`. */
    function Count(): (n: nat)
      reads this
      ensures n == |transactions|
    {
      |transactions|
    }

    /** The rows on the current page: at most one page of transactions, in table order. */
    function VisibleRows(): (r: seq<Transaction>)
      reads this, pager
      ensures r == Window(transactions, pager.page, pager.rowsPerPage)
      ensures |r| <= pager.rowsPerPage
      ensures forall k :: 0 <= k < |r| ==>
        pager.page * pager.rowsPerPage + k < |transactions| && r[k] == transactions[pager.page * pager.rowsPerPage + k]
    {
      pager.Visible(transactions)
    }

    /** `fetchTransactions`: a successful response replaces the list, a failure keeps it. */
    method LoadedTransactions(response: Option<seq<Transaction>>)
      requires Valid()
      modifies this
      ensures Valid()
      ensures transactions == (if response.Some? then response.value else old(transactions))
      ensures menus == old(menus) && selected == old(selected)
      ensures editDialogOpen == old(editDialogOpen) && deleteDialogOpen == old(deleteDialogOpen)
    {
      if response.Some? {
        transactions := response.value;
      }
    }

    /** `fetchMenus`: the catalog the item selects offer. */
    method LoadedMenus(response: Option<seq<Menu>>)
      requires Valid()
      modifies this
      ensures Valid()
      ensures menus == (if response.Some? then response.value else old(menus))
      ensures transactions == old(transactions) && selected == old(selected)
      ensures editDialogOpen == old(editDialogOpen) && deleteDialogOpen == old(deleteDialogOpen)
    {
      if response.Some? {
        menus := response.value;
      }
    }

    /** `handleEdit(t)`: selects `t` (and the effect recomputes its total) and opens the edit dialog. */
    method Edit(t: Transaction)
      modifies this
      ensures Valid()
      ensures selected == Some(Recompute(t)) && editDialogOpen
      ensures transactions == old(transactions) && menus == old(menus) && deleteDialogOpen == old(deleteDialogOpen)
    {
      selected := Some(Recompute(t));
      editDialogOpen := true;
    }

    /** `handleDelete(t)`: selects `t` and opens the delete confirmation. */
    method Delete(t: Transaction)
      modifies this
      ensures Valid()
      ensures selected == Some(Recompute(t)) && deleteDialogOpen
      ensures transactions == old(transactions) && menus == old(menus) && editDialogOpen == old(editDialogOpen)
    {
      selected := Some(Recompute(t));
      deleteDialogOpen := true;
    }

    /** `handleEditClose`: closes the edit dialog and clears the selection. */
    method EditClose()
      modifies this
      ensures Valid()
      ensures !editDialogOpen && selected == None
      ensures transactions == old(transactions) && menus == old(menus) && deleteDialogOpen == old(deleteDialogOpen)
    {
      editDialogOpen := false;
      selected := None;
    }

    /** `handleDeleteClose`: closes the confirmation and clears the selection. */
    method DeleteClose()
      modifies this
      ensures Valid()
      ensures !deleteDialogOpen && selected == None
      ensures transactions == old(transactions) && menus == old(menus) && editDialogOpen == old(editDialogOpen)
    {
      deleteDialogOpen := false;
      selected := None;
    }

    /** `handleEditSave`: PUTs the selected transaction. If the call returns the
        saved transaction, it replaces the one with the same id and the dialog
        closes; if the call fails, nothing changes. With nothing selected the
        handler fails before sending anything. */
    method EditSave(response: Option<Transaction>) returns (req: Option<Request<Transaction>>)
      requires Valid()
      modifies this
      ensures Valid()
      ensures old(selected).None? ==>
        req.None? && selected == old(selected) && transactions == old(transactions) && editDialogOpen == old(editDialogOpen)
      ensures old(selected).Some? ==> req == Some(Put(TransactionsUrl + "/" + old(selected).value.id, old(selected).value))
      ensures old(selected).Some? && response.Some? ==>
        transactions == ReplaceById(old(transactions), response.value) && selected == None && !editDialogOpen
      ensures response.None? ==> transactions == old(transactions) && selected == old(selected) && editDialogOpen == old(editDialogOpen)
      ensures menus == old(menus) && deleteDialogOpen == old(deleteDialogOpen)
    {
      req := None;
      if selected.Some? {
        req := Some(Put(TransactionsUrl + "/" + selected.value.id, selected.value));
        if response.Some? {
          transactions := ReplaceById(transactions, response.value);
          EditClose();
        }
      }
    }

    /** `handleDeleteConfirm`: DELETEs the selected transaction. If the call
        succeeds, every transaction with that id is dropped and the confirmation
        closes; if it fails, nothing changes. */
    method DeleteConfirm(succeeded: bool) returns (req: Option<Request<()>>)
      requires Valid()
      modifies this
      ensures Valid()
      ensures old(selected).None? ==>
        req.None? && selected == old(selected) && transactions == old(transactions) && deleteDialogOpen == old(deleteDialogOpen)
      ensures old(selected).Some? ==> req == Some(Request.Delete(TransactionsUrl + "/" + old(selected).value.id, ()))
      ensures old(selected).Some? && succeeded ==>
        transactions == RemoveById(old(transactions), old(selected).value.id) && selected == None && !deleteDialogOpen
      ensures !succeeded ==> transactions == old(transactions) && selected == old(selected) && deleteDialogOpen == old(deleteDialogOpen)
      ensures menus == old(menus) && editDialogOpen == old(editDialogOpen)
    {
      req := None;
      if selected.Some? {
        var id := selected.value.id;
        req := Some(Request.Delete(TransactionsUrl + "/" + id, ()));
        if succeeded {
          transactions := RemoveById(transactions, id);
          DeleteClose();
        }
      }
    }

    /** Replaces the selected transaction's items and lets the effect recompute its total. */
    method SetItems(items: seq<Item>)
      requires selected.Some?
      modifies this
      ensures Valid()
      ensures selected == Some(Recompute(old(selected).value.(items := items)))
      ensures transactions == old(transactions) && menus == old(menus)
      ensures editDialogOpen == old(editDialogOpen) && deleteDialogOpen == old(deleteDialogOpen)
    {
      selected := Some(Recompute(selected.value.(items := items)));
    }

    /** `handleAddMenuItem`. */
    method AddMenuItem()
      requires Valid()
      modifies this
      ensures Valid()
      ensures old(selected).Some? ==> selected == Some(Recompute(old(selected).value.(items := AddItem(old(selected).value.items))))
      ensures old(selected).None? ==> selected == None
      ensures transactions == old(transactions) && menus == old(menus)
      ensures editDialogOpen == old(editDialogOpen) && deleteDialogOpen == old(deleteDialogOpen)
    {
      if selected.Some? {
        SetItems(AddItem(selected.value.items));
      }
    }

    /** `handleRemoveMenuItem(index)`. */
    method RemoveMenuItem(index: int)
      requires Valid()
      modifies this
      ensures Valid()
      ensures old(selected).Some? ==> selected == Some(Recompute(old(selected).value.(items := RemoveItem(old(selected).value.items, index))))
      ensures old(selected).None? ==> selected == None
      ensures transactions == old(transactions) && menus == old(menus)
      ensures editDialogOpen == old(editDialogOpen) && deleteDialogOpen == old(deleteDialogOpen)
    {
      if selected.Some? {
        SetItems(RemoveItem(selected.value.items, index));
      }
    }

    /** `handleMenuChange(index, menuId)`: an id missing from the catalog makes
        the handler fail (`menu._id` of undefined) and nothing changes. */
    method MenuChange(index: int, menuId: string)
      requires Valid()
      modifies this
      ensures Valid()
      ensures old(selected).Some? && FindMenu(menus, menuId).Some? ==>
        selected == Some(Recompute(old(selected).value.(items := SetItemMenu(old(selected).value.items, index, FindMenu(menus, menuId).value))))
      ensures old(selected).None? || FindMenu(menus, menuId).None? ==> selected == old(selected)
      ensures transactions == old(transactions) && menus == old(menus)
      ensures editDialogOpen == old(editDialogOpen) && deleteDialogOpen == old(deleteDialogOpen)
    {
      var m := FindMenu(menus, menuId);
      if selected.Some? && m.Some? {
        SetItems(SetItemMenu(selected.value.items, index, m.value));
      }
    }

    /** `handleQuantityChange(index, quantity)`. */
    method QuantityChange(index: int, quantity: int)
      requires Valid()
      modifies this
      ensures Valid()
      ensures old(selected).Some? ==>
        selected == Some(Recompute(old(selected).value.(items := SetItemQuantity(old(selected).value.items, index, quantity))))
      ensures old(selected).None? ==> selected == None
      ensures transactions == old(transactions) && menus == old(menus)
      ensures editDialogOpen == old(editDialogOpen) && deleteDialogOpen == old(deleteDialogOpen)
    {
      if selected.Some? {
        SetItems(SetItemQuantity(selected.value.items, index, quantity));
      }
    }

    /** The status select: changes `t_status` only; the items and the total stay. */
    method ChangeStatus(status: string)
      requires Valid()
      modifies this
      ensures Valid()
      ensures old(selected).Some? ==> selected == Some(SetStatus(old(selected).value, status))
      ensures old(selected).None? ==> selected == None
      ensures transactions == old(transactions) && menus == old(menus)
      ensures editDialogOpen == old(editDialogOpen) && deleteDialogOpen == old(deleteDialogOpen)
    {
      if selected.Some? {
        selected := Some(SetStatus(selected.value, status));
      }
    }
  }
}
