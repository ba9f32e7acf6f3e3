/** The overview page (src/components/Dashboard.tsx): active counts, revenue
    sums, total stock, the low-stock list with its severity colours, and the
    recent sales. */
module Dashboard {
  import opened Options
  import opened Types
  import Seqs
  import Store
  import Stock
  import Sales
  import ServiceSales

  predicate UserActive(u: User) { u.isActive }
  predicate ProductActive(p: Product) { p.isActive }
  predicate ClientActive(c: Client) { c.isActive }

  /** The number of active users. */
  function ActiveUserCount(users: seq<User>): (r: nat)
    ensures r <= |users|
    ensures (forall k :: 0 <= k < |users| ==> !users[k].isActive) <==> r == 0
    ensures (forall k :: 0 <= k < |users| ==> users[k].isActive) ==> r == |users|
  {
    Seqs.Count(users, UserActive)
  }

  /** The number of active products (shown as "registered products"). */
  function ActiveProductCount(products: seq<Product>): (r: nat)
    ensures r <= |products|
    ensures (forall k :: 0 <= k < |products| ==> !products[k].isActive) <==> r == 0
    ensures (forall k :: 0 <= k < |products| ==> products[k].isActive) ==> r == |products|
  {
    Seqs.Count(products, ProductActive)
  }

  /** The number of active clients. */
  function ActiveClientCount(clients: seq<Client>): (r: nat)
    ensures r <= |clients|
    ensures (forall k :: 0 <= k < |clients| ==> !clients[k].isActive) <==> r == 0
    ensures (forall k :: 0 <= k < |clients| ==> clients[k].isActive) ==> r == |clients|
  {
    Seqs.Count(clients, ClientActive)
  }

  /** Creating a record raises the matching count by one exactly when the
      new record is active, which the create forms always make it. */
  lemma CountsAfterCreate(st: Store.AppState, id: Id, now: Millis,
                          u: Store.UserDraft, p: Store.ProductDraft, c: Store.ClientDraft)
    ensures ActiveUserCount(Store.AddUser(st, u, id, now).users)
            == ActiveUserCount(st.users) + (if u.isActive then 1 else 0)
    ensures ActiveProductCount(Store.AddProduct(st, p, id, now).products)
            == ActiveProductCount(st.products) + (if p.isActive then 1 else 0)
    ensures ActiveClientCount(Store.AddClient(st, c, id, now).clients)
            == ActiveClientCount(st.clients) + (if c.isActive then 1 else 0)
  {
    var us := Store.AddUser(st, u, id, now).users;
    assert us == st.users + [us[|st.users|]];
    Seqs.CountSnoc(st.users, us[|st.users|], UserActive);
    var ps := Store.AddProduct(st, p, id, now).products;
    assert ps == st.products + [ps[|st.products|]];
    Seqs.CountSnoc(st.products, ps[|st.products|], ProductActive);
    var cs := Store.AddClient(st, c, id, now).clients;
    assert cs == st.clients + [cs[|st.clients|]];
    Seqs.CountSnoc(st.clients, cs[|st.clients|], ClientActive);
  }

  /** Registering a user or creating a product or client through its form
      always raises the matching count by exactly one. */
  lemma FormCreationRaisesCount(st: Store.AppState, id: Id, now: Millis,
                                name: string, email: string, userType: UserType,
                                category: string, description: Option<string>,
                                phone: string, address: string)
    ensures ActiveUserCount(Store.RegisterUser(st, name, email, userType, id, now).users)
            == ActiveUserCount(st.users) + 1
    ensures ActiveProductCount(Store.CreateProduct(st, name, category, description, id, now).products)
            == ActiveProductCount(st.products) + 1
    ensures ActiveClientCount(Store.CreateClient(st, name, phone, address, email, id, now).clients)
            == ActiveClientCount(st.clients) + 1
  {
    CountsAfterCreate(st, id, now, Store.UserDraft(name, email, userType, true),
                      Store.ProductDraft(name, category, description, true),
                      Store.ClientDraft(name, phone, address, email, true));
  }

  /** With the sample data, the overview opens with four active users (the
      administrator and three staff), five products and eight clients. */
  lemma StartupCounts(others: seq<User>, products: seq<Product>, clients: seq<Client>, now: Millis)
    requires Store.IsSampleData(others, products, clients)
    ensures var st := Store.InitialState(others, products, clients, now);
            && ActiveUserCount(st.users) == 4
            && ActiveProductCount(st.products) == 5
            && ActiveClientCount(st.clients) == 8
  {
    var st := Store.InitialState(others, products, clients, now);
    assert forall k :: 0 <= k < |st.users| ==> st.users[k].isActive by {
      forall k | 0 <= k < |st.users| ensures st.users[k].isActive {
        if k > 0 {
          assert st.users[k] == others[k - 1];
        }
      }
    }
  }

  function SaleTotal(s: Sale): Cents { s.total }
  function ServiceSaleTotal(s: ServiceSale): Cents { s.total }

  /** Product revenue: the sum of the recorded sale totals, 0 for none. */
  function ProductRevenue(sales: seq<Sale>): (r: Cents)
    ensures |sales| == 0 ==> r == 0
    ensures (forall k :: 0 <= k < |sales| ==> sales[k].total >= 0) ==> r >= 0
  {
    Seqs.Sum(sales, SaleTotal)
  }

  /** Service revenue: the sum of the recorded service sale totals, 0 for none. */
  function ServiceRevenue(serviceSales: seq<ServiceSale>): (r: Cents)
    ensures |serviceSales| == 0 ==> r == 0
    ensures (forall k :: 0 <= k < |serviceSales| ==> serviceSales[k].total >= 0) ==> r >= 0
  {
    Seqs.Sum(serviceSales, ServiceSaleTotal)
  }

  /** Submitting a sale adds exactly its draft total to product revenue, and
      submitting a service sale adds the looked-up price times quantity to
      service revenue, or nothing when the service is missing. */
  lemma RevenueAfterSubmit(st: Store.AppState, f: Sales.SaleForm, g: ServiceSales.ServiceForm, id: Id, now: Millis)
    ensures ProductRevenue(Sales.Submit(st, f, id, now).state.sales)
            == ProductRevenue(st.sales) + Sales.CalculateTotal(f.items)
    ensures var found := ServiceSales.FindService(st.services, g.serviceId);
            ServiceRevenue(ServiceSales.Submit(st, g, id, now).state.serviceSales)
            == ServiceRevenue(st.serviceSales) + (if found.Some? then found.value.price * g.quantity else 0)
  {
    var sales := Sales.Submit(st, f, id, now).state.sales;
    assert sales == st.sales + [sales[|st.sales|]];
    Seqs.SumSnoc(st.sales, sales[|st.sales|], SaleTotal);
    Sales.TotalIsSumOfLines(f.items);
    if ServiceSales.FindService(st.services, g.serviceId).Some? {
      var vs := ServiceSales.Submit(st, g, id, now).state.serviceSales;
      assert vs == st.serviceSales + [vs[|st.serviceSales|]];
      Seqs.SumSnoc(st.serviceSales, vs[|st.serviceSales|], ServiceSaleTotal);
    }
  }

  /** Units in stock over all products: the sum of every lot's quantity. */
  function TotalStock(stock: seq<StockItem>): (r: int)
    ensures |stock| == 0 ==> r == 0
    ensures (forall k :: 0 <= k < |stock| ==> stock[k].quantity >= 0) ==> r >= 0
  {
    Seqs.Sum(stock, Stock.Quantity)
  }

  /** A new lot adds exactly its quantity to the total, so with an empty
      ledger giving 0 the total is the sum over every lot. */
  lemma TotalStockOfAppend(stock: seq<StockItem>, e: StockItem)
    ensures TotalStock(stock + [e]) == TotalStock(stock) + e.quantity
  {
    Seqs.SumSnoc(stock, e, Stock.Quantity);
  }

  /** With non-negative lots, any one product's quantity is at most the
      total. */
  lemma ProductStockWithinTotal(stock: seq<StockItem>, productId: Id)
    requires forall k :: 0 <= k < |stock| ==> stock[k].quantity >= 0
    ensures 0 <= Stock.ProductStock(stock, productId) <= TotalStock(stock)
  {
    Seqs.SumFilterBound(stock, (e: StockItem) => e.productId == productId, Stock.Quantity);
  }

  predicate LowLot(e: StockItem) { e.quantity <= 5 }

  /** The lots of 5 units or fewer, in ledger order. */
  function LowLots(stock: seq<StockItem>): (r: seq<StockItem>)
    ensures forall k :: 0 <= k < |r| ==> r[k].quantity <= 5 && r[k] in stock
    ensures forall k :: 0 <= k < |stock| && stock[k].quantity <= 5 ==> stock[k] in r
  {
    Seqs.Filter(stock, LowLot)
  }

  /** A new lot joins the end of the low lots exactly when it holds 5 units
      or fewer, so the low lots keep ledger order and multiplicity. */
  lemma LowLotsOfAppend(stock: seq<StockItem>, e: StockItem)
    ensures LowLots(stock + [e]) == LowLots(stock) + (if e.quantity <= 5 then [e] else [])
  {
    Seqs.FilterConcat(stock, [e], LowLot);
    assert [e][1..] == [];
  }

  /** The low-stock panel: the first five low lots (single lots, not
      per-product sums). */
  function LowStockList(stock: seq<StockItem>): (r: seq<StockItem>)
    ensures |r| == if |LowLots(stock)| < 5 then |LowLots(stock)| else 5
    ensures forall k :: 0 <= k < |r| ==> r[k].quantity <= 5 && r[k] in stock
    ensures LowLots(stock) == r + LowLots(stock)[|r|..]
    ensures |LowLots(stock)| <= 5 ==> r == LowLots(stock)
  {
    Seqs.FirstN(LowLots(stock), 5)
  }

  /** The badge colour of a listed lot: red at 2 units or fewer, else yellow. */
  function Severity(quantity: int): (r: Stock.Tier)
    ensures r == Stock.Red <==> quantity <= 2
    ensures r == Stock.Yellow <==> quantity > 2
  {
    if quantity <= 2 then Stock.Red else Stock.Yellow
  }

  /** "Stock at a good level" is shown exactly when no lot is low. */
  function GoodLevel(stock: seq<StockItem>): (r: bool)
    ensures r <==> forall k :: 0 <= k < |stock| ==> stock[k].quantity > 5
  {
    Seqs.Count(stock, LowLot) == 0
  }

  /** A product flagged low on the stock page has every one of its lots in
      the dashboard's low list (before truncation to five), provided lots are
      non-negative. The converse fails: two lots of 3 units are each listed
      although their product holds 6. */
  lemma LowProductHasLowLots(stock: seq<StockItem>, productId: Id, k: nat)
    requires forall i :: 0 <= i < |stock| ==> stock[i].quantity >= 0
    requires Stock.IsLowStock(Stock.ProductStock(stock, productId))
    requires k < |stock| && stock[k].productId == productId
    ensures stock[k] in LowLots(stock)
  {
    var lots := Stock.EntriesOf(stock, productId);
    assert stock[k] in lots;
    var j :| 0 <= j < |lots| && lots[j] == stock[k];
    assert forall i :: 0 <= i < |lots| ==> lots[i] in stock;
    Seqs.TermWithinSum(lots, Stock.Quantity, j);
  }

  /** The counterexample to the converse: one product, two lots of three. */
  lemma LowLotsOfHealthyProduct(e1: StockItem, e2: StockItem)
    requires e1.productId == e2.productId && e1.quantity == 3 && e2.quantity == 3
    ensures !Stock.IsLowStock(Stock.ProductStock([e1, e2], e1.productId))
    ensures LowStockList([e1, e2]) == [e1, e2]
  {
    var stock := [e1, e2];
    assert Stock.ProductStock(stock, e1.productId) == 6 by {
      assert stock == [e1] + [e2];
      assert [] + [e1] == [e1];
      Stock.AggregatesOfAppend([], e1, e1.productId);
      Stock.AggregatesOfAppend([e1], e2, e1.productId);
    }
    assert LowLots(stock) == stock by {
      Seqs.FilterAll(stock, LowLot);
    }
  }

  /** The recent sales panel: the last five sales, in order. */
  function RecentSales(sales: seq<Sale>): (r: seq<Sale>)
    ensures |r| == if |sales| < 5 then |sales| else 5
    ensures sales == sales[..|sales| - |r|] + r
  {
    Seqs.LastN(sales, 5)
  }
}
