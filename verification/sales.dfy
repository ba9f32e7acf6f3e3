/** The product sale page (src/components/SalesPage.tsx): editing the draft
    list of items, its total, the selection guards and submission. */
module Sales {
  import opened Options
  import opened Types
  import Seqs
  import Store
  import Stock

  /** A line of the draft, before its total is fixed. */
  datatype DraftItem = DraftItem(productId: Id, quantity: int, unitPrice: Cents)

  /** The sale form: a client and the draft lines. */
  datatype SaleForm = SaleForm(clientId: Id, items: seq<DraftItem>)

  const EmptyForm := SaleForm("", [])

  /** A fresh line: no product yet, one unit, price zero. */
  const BlankItem := DraftItem("", 1, 0)

  /** "Add item" appends a blank line and keeps the others. */
  function AddItem(f: SaleForm): (r: SaleForm)
    ensures r.clientId == f.clientId
    ensures |r.items| == |f.items| + 1 && r.items[..|f.items|] == f.items
    ensures r.items[|f.items|] == DraftItem("", 1, 0)
  {
    f.(items := f.items + [BlankItem])
  }

  /** Deleting line `index` drops exactly that line; the rest keep their
      relative order. An index outside the list changes nothing. */
  function RemoveItem(f: SaleForm, index: int): (r: SaleForm)
    ensures r.clientId == f.clientId
    ensures 0 <= index < |f.items| ==> |r.items| == |f.items| - 1
    ensures 0 <= index < |f.items| ==> forall k :: 0 <= k < |r.items| ==>
              r.items[k] == if k < index then f.items[k] else f.items[k + 1]
    ensures !(0 <= index < |f.items|) ==> r == f
  {
    f.(items := Seqs.DropIndex(f.items, index))
  }

  /** Adding a line and deleting it again restores the form. */
  lemma RemoveUndoesAdd(f: SaleForm)
    ensures RemoveItem(AddItem(f), |f.items|) == f
  {
    assert AddItem(f).items[..|f.items|] == f.items;
  }

  /** The price copied into a line when a product is chosen: that of the
      product's first lot in the ledger, or 0 when it has none. */
  function FirstPrice(stock: seq<StockItem>, productId: Id): (r: Cents)
    ensures (forall k :: 0 <= k < |stock| ==> stock[k].productId != productId) ==> r == 0
    ensures forall k :: 0 <= k < |stock| && stock[k].productId == productId
                        && (forall j :: 0 <= j < k ==> stock[j].productId != productId)
                        ==> r == stock[k].unitPrice
  {
    match Seqs.Find(stock, (e: StockItem) => e.productId == productId)
    case Some(e) => e.unitPrice
    case None => 0
  }

  /** The field a line edit changes, with its new value. */
  datatype ItemField = ProductField(productId: Id) | QuantityField(quantity: int) | PriceField(unitPrice: Cents)

  /** Editing line `index`. Choosing a product also reprices the line from
      the ledger; any other edit changes only its own field. Other lines and
      the client are untouched. */
  function UpdateItem(f: SaleForm, stock: seq<StockItem>, index: int, field: ItemField): (r: SaleForm)
    requires 0 <= index < |f.items|
    ensures r.clientId == f.clientId
    ensures |r.items| == |f.items|
    ensures forall k :: 0 <= k < |f.items| && k != index ==> r.items[k] == f.items[k]
    ensures field.ProductField? ==>
              r.items[index] == DraftItem(field.productId, f.items[index].quantity, FirstPrice(stock, field.productId))
    ensures field.QuantityField? ==> r.items[index] == f.items[index].(quantity := field.quantity)
    ensures field.PriceField? ==> r.items[index] == f.items[index].(unitPrice := field.unitPrice)
  {
    var item := f.items[index];
    var item' := match field
      case ProductField(p) => item.(productId := p, unitPrice := FirstPrice(stock, p))
      case QuantityField(q) => item.(quantity := q)
      case PriceField(p) => item.(unitPrice := p);
    f.(items := f.items[index := item'])
  }

  function LineAmount(item: DraftItem): Cents { item.quantity * item.unitPrice }

  /** The running total shown under the draft: the sum of quantity times unit
      price over the lines, 0 for no lines. */
  function CalculateTotal(items: seq<DraftItem>): (r: Cents)
    ensures |items| == 0 ==> r == 0
    ensures (forall k :: 0 <= k < |items| ==> items[k].quantity >= 0 && items[k].unitPrice >= 0) ==> r >= 0
  {
    Seqs.Sum(items, LineAmount)
  }

  /** The recorded lines: each draft line with its own total fixed. */
  function LineItems(items: seq<DraftItem>): (r: seq<SaleItem>)
    ensures |r| == |items|
    ensures forall k :: 0 <= k < |items| ==>
              r[k] == SaleItem(items[k].productId, items[k].quantity, items[k].unitPrice,
                               items[k].quantity * items[k].unitPrice)
  {
    seq(|items|, k requires 0 <= k < |items| =>
      SaleItem(items[k].productId, items[k].quantity, items[k].unitPrice, LineAmount(items[k])))
  }

  function LineTotal(line: SaleItem): Cents { line.total }

  /** The draft total equals the sum of the recorded line totals. */
  lemma {:induction false} TotalIsSumOfLines(items: seq<DraftItem>)
    ensures CalculateTotal(items) == Seqs.Sum(LineItems(items), LineTotal)
    decreases |items|
  {
    if |items| > 0 {
      var n := |items| - 1;
      assert LineItems(items)[..n] == LineItems(items[..n]);
      TotalIsSumOfLines(items[..n]);
    }
  }

  /** A line edit that keeps quantity and price keeps the total. Choosing a
      product moves the total by the change of that one line. */
  lemma {:induction false} TotalAfterUpdate(items: seq<DraftItem>, index: int, item: DraftItem)
    requires 0 <= index < |items|
    ensures CalculateTotal(items[index := item])
            == CalculateTotal(items) - LineAmount(items[index]) + LineAmount(item)
    decreases |items|
  {
    var n := |items| - 1;
    if index == n {
      assert items[index := item][..n] == items[..n];
    } else {
      assert items[index := item][..n] == items[..n][index := item];
      TotalAfterUpdate(items[..n], index, item);
    }
  }

  /** The submit button is enabled only for a non-empty draft. */
  function CanSubmit(f: SaleForm): (r: bool)
    ensures r <==> |LineItems(f.items)| > 0
    ensures !r ==> CalculateTotal(f.items) == 0
  {
    |f.items| > 0
  }

  /** The guard is exactly what keeps empty sales out of the ledger: a sale
      recorded through the enabled button has at least one line, and one
      recorded from an empty draft would have none and total 0. */
  lemma SubmitGuardRulesOutEmptySales(st: Store.AppState, f: SaleForm, id: Id, now: Millis)
    ensures var s := Submit(st, f, id, now).state.sales[|st.sales|];
            && (CanSubmit(f) <==> |s.items| > 0)
            && (!CanSubmit(f) ==> s.total == 0)
  {
  }

  /** A product is offered in a line's product list unless its on-hand
      quantity is exactly zero. */
  function IsSelectable(stock: seq<StockItem>, productId: Id): (r: bool)
    ensures (forall k :: 0 <= k < |stock| ==> stock[k].productId != productId) ==> !r
    ensures (forall k :: 0 <= k < |stock| ==> stock[k].quantity >= 0) ==> (r <==> Stock.ProductStock(stock, productId) > 0)
  {
    Stock.ProductStock(stock, productId) != 0
  }

  /** The quantity input accepts 1 up to the on-hand quantity of the line's
      product. */
  function QuantityAllowed(stock: seq<StockItem>, item: DraftItem): (r: bool)
    ensures r ==> item.quantity >= 1 && IsSelectable(stock, item.productId)
    ensures r <==> 1 <= item.quantity <= Stock.ProductStock(stock, item.productId)
  {
    1 <= item.quantity <= Stock.ProductStock(stock, item.productId)
  }

  /** A product that has no lot can be neither chosen nor sold in any
      positive quantity. */
  lemma NoLotsMeansNotSellable(stock: seq<StockItem>, item: DraftItem)
    requires forall k :: 0 <= k < |stock| ==> stock[k].productId != item.productId
    ensures !IsSelectable(stock, item.productId)
    ensures !QuantityAllowed(stock, item)
  {
  }

  datatype SaleOutcome = SaleOutcome(state: Store.AppState, form: SaleForm)

  /** Submitting records one sale with fixed line totals and a total equal to
      their sum, authored by the current user (or by nobody), and clears the
      draft. No stock is consumed. */
  function Submit(st: Store.AppState, f: SaleForm, id: Id, now: Millis): (r: SaleOutcome)
    ensures r.state == st.(sales := r.state.sales)
    ensures |r.state.sales| == |st.sales| + 1 && r.state.sales[..|st.sales|] == st.sales
    ensures var s := r.state.sales[|st.sales|];
            && s.id == id && s.createdAt == now && s.clientId == f.clientId
            && |s.items| == |f.items|
            && (forall k :: 0 <= k < |s.items| ==>
                  s.items[k].productId == f.items[k].productId
                  && s.items[k].quantity == f.items[k].quantity
                  && s.items[k].unitPrice == f.items[k].unitPrice
                  && s.items[k].total == s.items[k].quantity * s.items[k].unitPrice)
            && s.total == Seqs.Sum(s.items, LineTotal)
            && s.createdBy == (if st.currentUser.Some? then st.currentUser.value.id else "")
    ensures r.form == SaleForm("", [])
  {
    TotalIsSumOfLines(f.items);
    var draft := Store.SaleDraft(f.clientId, LineItems(f.items), CalculateTotal(f.items), Store.ActorId(st));
    SaleOutcome(Store.AddSale(st, draft, id, now), EmptyForm)
  }
}
