/** The stock ledger page (src/components/StockPage.tsx): per-product
    aggregates over the lots, the colour and warning rules, the recent
    movements table and the entry form. A product's quantity is never stored;
    it is always recomputed from the lots. */
module Stock {
  import opened Types
  import Seqs
  import Store

  /** The lots of one product, in ledger order. */
  function EntriesOf(stock: seq<StockItem>, productId: Id): (r: seq<StockItem>)
    ensures forall i :: 0 <= i < |r| ==> r[i].productId == productId && r[i] in stock
    ensures forall i :: 0 <= i < |stock| && stock[i].productId == productId ==> stock[i] in r
  {
    Seqs.Filter(stock, (e: StockItem) => e.productId == productId)
  }

  function Quantity(e: StockItem): int { e.quantity }
  function LotValue(e: StockItem): Cents { e.quantity * e.unitPrice }

  /** The on-hand quantity of a product: the sum of its lots' quantities. */
  function ProductStock(stock: seq<StockItem>, productId: Id): (r: int)
    ensures (forall i :: 0 <= i < |stock| ==> stock[i].productId != productId) ==> r == 0
    ensures (forall i :: 0 <= i < |stock| ==> stock[i].quantity >= 0) ==> r >= 0
  {
    var lots := EntriesOf(stock, productId);
    assert forall i :: 0 <= i < |lots| ==> lots[i] in stock;
    Seqs.Sum(lots, Quantity)
  }

  /** The stock value of a product: the sum of quantity times unit price. */
  function ProductValue(stock: seq<StockItem>, productId: Id): (r: Cents)
    ensures (forall i :: 0 <= i < |stock| ==> stock[i].productId != productId) ==> r == 0
    ensures (forall i :: 0 <= i < |stock| ==> stock[i].quantity >= 0 && stock[i].unitPrice >= 0) ==> r >= 0
  {
    var lots := EntriesOf(stock, productId);
    assert forall i :: 0 <= i < |lots| ==> lots[i] in stock;
    Seqs.Sum(lots, LotValue)
  }

  /** A new lot adds its quantity and value to its own product and to no
      other: the aggregates are exactly the running sums over the lots. */
  lemma {:induction false} AggregatesOfAppend(stock: seq<StockItem>, e: StockItem, productId: Id)
    ensures ProductStock(stock + [e], productId)
            == ProductStock(stock, productId) + (if e.productId == productId then e.quantity else 0)
    ensures ProductValue(stock + [e], productId)
            == ProductValue(stock, productId) + (if e.productId == productId then e.quantity * e.unitPrice else 0)
  {
    var p := (x: StockItem) => x.productId == productId;
    Seqs.FilterConcat(stock, [e], p);
    assert Seqs.Filter([e], p) == if p(e) then [e] else [] by {
      assert [e][1..] == [];
    }
    Seqs.SumSnoc(Seqs.Filter(stock, p), e, Quantity);
    Seqs.SumSnoc(Seqs.Filter(stock, p), e, LotValue);
    if !p(e) {
      assert Seqs.Filter(stock, p) + [] == Seqs.Filter(stock, p);
    }
  }

  /** The three colours of the quantity badge. */
  datatype Tier = Red | Yellow | Green

  /** At most 5 is red, otherwise at most 10 is yellow, otherwise green. */
  function QuantityTier(quantity: int): (r: Tier)
    ensures r == Red <==> quantity <= 5
    ensures r == Yellow <==> 5 < quantity <= 10
    ensures r == Green <==> 10 < quantity
  {
    if quantity <= 5 then Red
    else if quantity <= 10 then Yellow
    else Green
  }

  /** The "low stock" warning under a product card. */
  function IsLowStock(quantity: int): (r: bool)
    ensures r <==> QuantityTier(quantity) == Red
  {
    quantity <= 5
  }

  /** The warning is shown exactly for the red badge, and the tiers of an
      aggregate quantity are ordered: more units never give a worse colour. */
  lemma LowStockIsRedTier(stock: seq<StockItem>, productId: Id, more: int)
    ensures IsLowStock(ProductStock(stock, productId)) <==> QuantityTier(ProductStock(stock, productId)) == Red
    ensures more >= ProductStock(stock, productId) && QuantityTier(ProductStock(stock, productId)) == Green
            ==> QuantityTier(more) == Green
    ensures more >= ProductStock(stock, productId) && !IsLowStock(ProductStock(stock, productId))
            ==> QuantityTier(more) != Red
  {
  }

  /** The recent movements table: the last ten lots, in ledger order. */
  function RecentEntries(stock: seq<StockItem>): (r: seq<StockItem>)
    ensures |r| == if |stock| < 10 then |stock| else 10
    ensures stock == stock[..|stock| - |r|] + r
  {
    Seqs.LastN(stock, 10)
  }

  /** The newest lot always appears as the last row of the table. */
  lemma NewestEntryIsShownLast(stock: seq<StockItem>, e: StockItem)
    ensures var rows := RecentEntries(stock + [e]); |rows| > 0 && rows[|rows| - 1] == e
  {
  }

  /** Seven days in milliseconds. */
  const Week: Millis := 7 * 24 * 60 * 60 * 1000

  /** A lot is flagged as expiring when its expiry date is no later than one
      week from now. */
  function IsExpiring(e: StockItem, now: Millis): (r: bool)
    ensures r <==> e.expiryDate <= now + 604800000
  {
    e.expiryDate <= now + Week
  }

  /** Once flagged, a lot stays flagged as time passes, and an expired lot is
      always flagged. */
  lemma ExpiringIsMonotone(e: StockItem, now: Millis, later: Millis)
    ensures now <= later && IsExpiring(e, now) ==> IsExpiring(e, later)
    ensures e.expiryDate <= now ==> IsExpiring(e, now)
  {
  }

  /** The entry form: product, quantity, unit price and expiry date. */
  datatype EntryForm = EntryForm(productId: Id, quantity: int, unitPrice: Cents, expiryDate: Millis)

  datatype EntryOutcome = EntryOutcome(state: Store.AppState, form: EntryForm)

  /** Submitting the entry form records one lot authored by the current user
      (or by nobody), and clears the form. The expiry date is passed already
      parsed; the empty form's date is the epoch. */
  function HandleEntry(st: Store.AppState, form: EntryForm, id: Id, now: Millis): (r: EntryOutcome)
    ensures r.state == st.(stock := r.state.stock)
    ensures |r.state.stock| == |st.stock| + 1 && r.state.stock[..|st.stock|] == st.stock
    ensures var e := r.state.stock[|st.stock|];
            && e.id == id && e.entryDate == now
            && e.productId == form.productId && e.quantity == form.quantity
            && e.unitPrice == form.unitPrice && e.expiryDate == form.expiryDate
            && e.createdBy == (if st.currentUser.Some? then st.currentUser.value.id else "")
    ensures r.form == EntryForm("", 0, 0, 0)
  {
    var draft := Store.StockDraft(form.productId, form.quantity, form.unitPrice, form.expiryDate, Store.ActorId(st));
    EntryOutcome(Store.AddStockEntry(st, draft, id, now), EntryForm("", 0, 0, 0))
  }

  /** After an entry the product's quantity grows by exactly the entered
      quantity and every other product's quantity is unchanged. */
  lemma EntryRaisesOnlyItsProduct(st: Store.AppState, form: EntryForm, id: Id, now: Millis, productId: Id)
    ensures ProductStock(HandleEntry(st, form, id, now).state.stock, productId)
            == ProductStock(st.stock, productId) + (if form.productId == productId then form.quantity else 0)
  {
    var r := HandleEntry(st, form, id, now);
    assert r.state.stock == st.stock + [r.state.stock[|st.stock|]];
    AggregatesOfAppend(st.stock, r.state.stock[|st.stock|], productId);
  }
}
