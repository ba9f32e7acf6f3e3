# Shop console business state, in Dafny

This project models the business state of a small repair and retail shop's
administrative console. The console keeps users, products, clients, stock
lots, product sales, service sales and repair tickets ("ordens de serviço")
in memory. The model covers three parts:

- **The entity store** (`Store`). There is one ordered sequence per record
  kind and a session holding at most one current user. Creation appends.
  Updates merge fields into the records with a matching id. Toggles flip
  `isActive` on the records with a matching id. Login picks the first active
  user with the given email. Logout clears the session. The service catalog
  is fixed.
- **The rules the pages compute** (`Stock`, `Sales`, `ServiceSales`,
  `Dashboard`):
  - per-product quantity and value summed over the lots;
  - the colour tiers, the low-stock flag and the expiry flag;
  - the sale draft editor (add, remove, edit with price lookup) and the sale
    and line totals;
  - service sale pricing and the service icon rule;
  - the overview counts, sums and lists.
- **The repair-ticket rules** (`Orders`). A ticket is created as `Recebido`
  with total = parts + labour. Assigning a technician sets it and moves the
  ticket to `EmAndamento`. The technician pool is the active technicians.
  Accessories are ticked in and out of a list.

Every operation is a pure function over immutable datatypes. Money is an
exact integer number of cents, so no total is rounded. Record ids, the
current instant (`now`) and today's date (`today`) are parameters supplied
by the caller. The application draws ids and instants from the clock, and
clock-based ids need not be unique.

`Seqs` gives the JavaScript array methods the source uses their exact
meaning. `reduce` is a left fold, `filter` keeps order, `find` returns the
first match, and `slice(-n)` takes the last `n`. The `map(x => x.id === id ?
f(x) : x)` pattern is `Seqs.MapWhere`. The frame, involution and idempotence
facts about the store are proved once for `MapWhere` and then used for each
record kind.

Some behaviours of the code are easy to assume otherwise. The model keeps
each of them as the code has it:

- An update or toggle with an id that no record carries changes nothing
  (src/context/AppContext.tsx:153-184, 227-231). It reports no error.
- Stock removal only logs its arguments and changes no state
  (src/context/AppContext.tsx:195-198). It checks no availability.
- Login never reads the password (src/context/AppContext.tsx:116-123).
- Technician assignment checks neither the technician's kind nor the
  ticket's status (src/components/ServiceOrdersPage.tsx:80-84). The page
  offers the selector only on `Recebido` tickets and only while an active
  technician exists (src/components/ServiceOrdersPage.tsx:190,
  `Orders.CanAssign`).
- The dashboard's low-stock list and its red/yellow severity apply to single
  lots, not to per-product sums (src/components/Dashboard.tsx:118-130,
  `Dashboard.LowLotsOfHealthyProduct`).
- Accessories are a list. Ticking an accessory appends it even if it is
  already there (src/components/ServiceOrdersPage.tsx:33-35).

The sale page's `getAvailableStock` (src/components/SalesPage.tsx:13-17) is
the same sum as the stock page's `getProductStock`, so both are modelled by
`Stock.ProductStock`. The sale page's "low stock" badge
(src/components/SalesPage.tsx:108) is `Stock.IsLowStock`.

## Model

| member | source | states |
|---|---|---|
| Types.ParseUserType | src/types/index.ts:5 | exactly the strings master, gerente, recepcao and tecnico are account kinds, and each reads back to the kind of that name |
| Types.ParseEquipment | src/types/index.ts:86 | exactly "PC" and "Laptop" are equipment kinds, and each reads back to the kind of that name |
| Types.ParseStatus | src/types/index.ts:94 | exactly the five strings recebido, orcamento, aprovado, em_andamento and concluido are ticket statuses, and each reads back to the status of that name |
| Types.EnumNamesRoundTrip | src/types/index.ts:5-94 | for the three unions (account kind at line 5, equipment at line 86, status at line 94) each enumeration member's name parses back to that same member, so the string domains and the datatypes are in one-to-one correspondence |
| Store.InitialState | src/context/AppContext.tsx:106-114 | at start-up nobody is logged in; the administrator heads the user list; stock, sales, service sales and tickets are empty; the services are the fixed four-entry catalog |
| Store.IsSampleData | src/context/AppContext.tsx:46-91 | the start-up records' ids, kinds, counts and active flags: three active staff users with ids 2 to 4 (manager, receptionist, technician), none clashing with the administrator; five active products prod-1 to prod-5 and eight active clients client-1 to client-8, each with a distinct id |
| Store.AdminLogsInAtStartup | src/context/AppContext.tsx:37-44 | at start-up, logging in as admin@sistema.com succeeds with any password and logs in the administrator, even if a generated user has the same email |
| Store.ActorId | src/components/StockPage.tsx:26 | the author stamped on new records is the logged-in user's id, or the empty string when nobody is logged in |
| Store.Login | src/context/AppContext.tsx:116-123 | login succeeds exactly when some user has the email and is active; on success the session holds the first such user in list order; on failure the state is unchanged; nothing but the session ever changes |
| Store.LoginIgnoresPassword | src/context/AppContext.tsx:116 | two logins that differ only in the password give the same outcome |
| Store.Logout | src/context/AppContext.tsx:125-127 | afterwards nobody is logged in, whatever the prior session; no store changes |
| Store.AddUser | src/context/AppContext.tsx:129-136 | the user list grows by exactly one record at the end, carrying the draft's fields, the given id and instant; earlier users and all other stores are unchanged |
| Store.AddProduct | src/context/AppContext.tsx:144-151 | the product list grows by one record at the end carrying the draft, id and instant; nothing else changes |
| Store.RegisterUser | src/components/LoginPage.tsx:20-25 | registration appends one user with the form's name, email and kind, always active; nothing else changes |
| Store.RegisteredUserCanLogIn | src/components/LoginPage.tsx:20-28 | right after registering, logging in with the new address succeeds with any password, and it logs in the new user when no earlier user could log in with that address |
| Store.CreateProduct | src/components/ProductsPage.tsx:42-45 | the product form appends one product with the form's fields, always active; nothing else changes |
| Store.CreateClient | src/components/ClientsPage.tsx:22-25 | the client form appends one client with the form's fields, always active; nothing else changes |
| Store.AddClient | src/context/AppContext.tsx:165-172 | the client list grows by one record at the end carrying the draft, id and instant; nothing else changes |
| Store.AddStockEntry | src/context/AppContext.tsx:186-193 | the stock ledger grows by one lot at the end, stamped with the instant as its entry date; earlier lots and all other stores are unchanged |
| Store.RemoveFromStock | src/context/AppContext.tsx:195-198 | stock removal leaves the whole state unchanged |
| Store.AddSale | src/context/AppContext.tsx:200-207 | the sale list grows by one record at the end; the stock ledger is not touched |
| Store.AddServiceSale | src/context/AppContext.tsx:209-216 | the service sale list grows by one record at the end; nothing else changes |
| Store.AddServiceOrder | src/context/AppContext.tsx:218-225 | the ticket list grows by one ticket at the end carrying every field of the draft (client, entry date, equipment, receiver, defect, accessories, parts, labour, total, technician, status) with the given id and instant; nothing else changes |
| Store.ToggleUserStatus | src/context/AppContext.tsx:138-142 | every user whose id matches has its active flag flipped and nothing else; other users, the list length and order, and all other stores are unchanged |
| Store.ToggleProductStatus | src/context/AppContext.tsx:159-163 | every product whose id matches has its active flag flipped and nothing else; everything else is unchanged |
| Store.ToggleClientStatus | src/context/AppContext.tsx:180-184 | every client whose id matches has its active flag flipped and nothing else; everything else is unchanged |
| Store.ToggleTwiceIsIdentity | src/context/AppContext.tsx:138-142 | toggling the same id twice gives back the original state, for users, products and clients |
| Store.ToggleUnknownIsNoOp | src/context/AppContext.tsx:180-184 | toggling an id that no record carries leaves the state unchanged, for users, products and clients |
| Store.MergeProduct | src/context/AppContext.tsx:155 | the merged product takes each supplied field from the patch and keeps every other field; its id and creation date always survive |
| Store.MergeClient | src/context/AppContext.tsx:176 | the merged client takes each supplied field from the patch, the id included, and keeps every other field |
| Store.MergeOrder | src/context/AppContext.tsx:229 | the merged ticket takes each supplied field from the patch and keeps every other field |
| Store.MergeLaws | src/context/AppContext.tsx:153-157 | merging the same patch twice equals merging it once, and an empty patch leaves a record unchanged, for products, clients and tickets |
| Store.UpdateProduct | src/context/AppContext.tsx:153-157 | the products with a matching id become their merge with the patch; other products, the length and order, and other stores are unchanged |
| Store.UpdateClient | src/context/AppContext.tsx:174-178 | the clients with a matching id become their merge with the patch; everything else is unchanged |
| Store.UpdateServiceOrder | src/context/AppContext.tsx:227-231 | the tickets with a matching id become their merge with the patch; everything else is unchanged |
| Store.UpdateUnknownIsNoOp | src/context/AppContext.tsx:227-231 | updating an id that no record carries leaves the state unchanged, for products, clients and tickets |
| Store.UpdateTwiceIsUpdateOnce | src/context/AppContext.tsx:174-178 | repeating an update equals doing it once, even when the patch renames the record |
| Store.ActiveClients | src/components/SalesPage.tsx:136 | the clients offered for selection are exactly the active ones |
| Store.RunOnlyGrows | src/context/AppContext.tsx:112 | over any sequence of context operations, no store shrinks; stock lots, sales and service sales are only appended, never altered; the service catalog never changes |
| Stock.ProductStock | src/components/StockPage.tsx:39-43 | a product's quantity is 0 when it has no lots and is non-negative when every lot is |
| Stock.ProductValue | src/components/StockPage.tsx:45-48 | a product's value is 0 when it has no lots and is non-negative when quantities and prices are |
| Stock.AggregatesOfAppend | src/components/StockPage.tsx:39-48 | a new lot adds its quantity, and its quantity times price, to its own product's totals and changes no other product's totals |
| Stock.QuantityTier | src/components/StockPage.tsx:94-97 | red exactly at 5 units or fewer, yellow exactly from 6 to 10, green exactly above 10; one colour per quantity, and every quantity gets one |
| Stock.IsLowStock | src/components/StockPage.tsx:109 | the low-stock warning (also the sale page's badge at src/components/SalesPage.tsx:108) shows exactly for a red-tier quantity |
| Stock.LowStockIsRedTier | src/components/StockPage.tsx:109 | the low-stock warning shows exactly for a red quantity, and a larger quantity never gets a worse colour |
| Stock.RecentEntries | src/components/StockPage.tsx:149 | the movements table shows the last min(10, number of lots) lots, in ledger order |
| Stock.NewestEntryIsShownLast | src/components/StockPage.tsx:149 | the lot just entered is always the last row of the table |
| Stock.IsExpiring | src/components/StockPage.tsx:151 | a lot is flagged exactly when its expiry is at most 604800000 ms (seven days) after now |
| Stock.ExpiringIsMonotone | src/components/StockPage.tsx:151 | a flagged lot stays flagged as time passes, and an expired lot is always flagged |
| Stock.HandleEntry | src/components/StockPage.tsx:21-30 | an entry appends one lot with the form's product, quantity, price and expiry, authored by the current user or by '' when nobody is logged in; the form is cleared; nothing else changes |
| Stock.EntryRaisesOnlyItsProduct | src/components/StockPage.tsx:21-27 | after an entry, the entered product's quantity rises by the form's quantity and every other product's quantity is unchanged |
| Sales.AddItem | src/components/SalesPage.tsx:19-24 | one line (no product, one unit, price 0) is appended; the earlier lines and the client are unchanged |
| Sales.RemoveItem | src/components/SalesPage.tsx:42-45 | exactly the line at the index is deleted and the others keep their order; an index outside the list changes nothing |
| Sales.RemoveUndoesAdd | src/components/SalesPage.tsx:19-45 | deleting the line just added restores the form |
| Sales.FirstPrice | src/components/SalesPage.tsx:30-34 | the looked-up price is the unit price of the product's first lot in ledger order, or 0 when the product has no lot |
| Sales.UpdateItem | src/components/SalesPage.tsx:26-40 | choosing a product sets the line's product and reprices it from the first lot, keeping its quantity; editing quantity or price changes only that field; other lines and the client are unchanged |
| Sales.CalculateTotal | src/components/SalesPage.tsx:47-49 | the draft total is 0 for no lines and non-negative when quantities and prices are |
| Sales.LineItems | src/components/SalesPage.tsx:54-57 | each recorded line keeps its draft's product, quantity and price, and its total is quantity times price |
| Sales.TotalIsSumOfLines | src/components/SalesPage.tsx:51-64 | the draft total equals the sum of the recorded line totals |
| Sales.TotalAfterUpdate | src/components/SalesPage.tsx:26-49 | replacing one line changes the draft total by exactly that line's change in amount |
| Sales.CanSubmit | src/components/SalesPage.tsx:243 | the submit button is enabled exactly when the sale would record at least one line; a draft that keeps it disabled totals 0 |
| Sales.SubmitGuardRulesOutEmptySales | src/components/SalesPage.tsx:243 | the submit button is enabled exactly when the sale it would record has at least one line |
| Sales.IsSelectable | src/components/SalesPage.tsx:168 | a product with no lot is never offered; with non-negative lots a product is offered exactly when its on-hand quantity is positive |
| Sales.QuantityAllowed | src/components/SalesPage.tsx:180-181 | the quantity input accepts exactly the quantities from 1 up to the product's on-hand stock, so an accepted quantity never exceeds the stock and always belongs to a product the line's list offers |
| Sales.NoLotsMeansNotSellable | src/components/SalesPage.tsx:168-181 | a product with no lots cannot be chosen and no positive quantity of it passes the quantity limit |
| Sales.Submit | src/components/SalesPage.tsx:51-69 | one sale is appended: each line total is quantity times price, the sale total is the sum of the line totals, the author is the current user or '', and the draft is cleared; stock is untouched |
| Orders.Technicians | src/components/ServiceOrdersPage.tsx:27 | the pool holds exactly the active users of kind tecnico |
| Orders.TechniciansAtStartup | src/context/AppContext.tsx:46-72 | with the sample data, the start-up pool holds exactly one technician, the sample user 4 |
| Orders.TechniciansOfAppend | src/components/ServiceOrdersPage.tsx:27 | a new user joins the end of the pool exactly when it is an active technician, so the pool follows user-list order |
| Orders.ToggleAccessory | src/components/ServiceOrdersPage.tsx:29-41 | ticking appends the accessory; unticking removes every occurrence of it and keeps the count of every other accessory; no other form field changes |
| Orders.ToggleAccessoryLaws | src/components/ServiceOrdersPage.tsx:36-39 | unticking keeps the remaining accessories in their order, and ticking then unticking an unlisted accessory restores the form |
| Orders.TotalValue | src/components/ServiceOrdersPage.tsx:43-45 | the ticket total is parts plus labour, and with non-negative inputs it is at least each of them |
| Orders.CreateOrder | src/components/ServiceOrdersPage.tsx:47-65 | one ticket is appended with status Recebido, total equal to parts plus labour, the form's client, date, equipment, defect, accessories and (empty) technician, received by the current user or ''; the form is reset |
| Orders.AssignTechnician | src/components/ServiceOrdersPage.tsx:80-84 | the tickets with the id get this technician and status EmAndamento, whatever their prior status; every other field and ticket is unchanged |
| Orders.CanAssign | src/components/ServiceOrdersPage.tsx:190 | the selector is shown exactly for a ticket still Recebido while some user is an active technician |
| Orders.AssignmentClosesSelector | src/components/ServiceOrdersPage.tsx:190 | after an assignment the ticket no longer offers the technician selector, carries the technician and keeps its total |
| Orders.CreateThenAssign | src/components/ServiceOrdersPage.tsx:47-84 | a freshly created ticket with an unused id, once assigned, is in progress with the technician and parts-plus-labour total; earlier tickets are unchanged |
| Orders.StatusText | src/components/ServiceOrdersPage.tsx:101-110 | each of the five status names gets its fixed label, and any other string is shown unchanged |
| Orders.StatusLabelsDistinct | src/components/ServiceOrdersPage.tsx:101-110 | distinct statuses get distinct labels |
| ServiceSales.FindService | src/components/ServicesPage.tsx:30 | the lookup finds a catalog entry with the id exactly when one exists, and it is the first entry with that id |
| ServiceSales.Submit | src/components/ServicesPage.tsx:27-44 | with no matching service nothing is recorded and the form is kept; otherwise one sale is appended with total = looked-up price times quantity, author the current user or '', and the form resets to empty ids and quantity 1 |
| ServiceSales.CatalogSaleTotal | src/context/AppContext.tsx:93-98 | with the start-up catalog, choosing any catalog service charges that service's own price per unit |
| ServiceSales.ActiveServices | src/components/ServicesPage.tsx:148 | the services offered for selection are exactly the active ones |
| ServiceSales.ServiceIcon | src/components/ServicesPage.tsx:14-25 | printer exactly when the lower-cased name contains xerox or impressão; else wifi exactly when it contains internet; else document exactly when it contains documento; else wrench |
| ServiceSales.IconIgnoresCase | src/components/ServicesPage.tsx:14-15 | the icon does not depend on letter case: a name and its lower-cased form always get the same icon |
| ServiceSales.CapitalXeroxIsPrinter | src/components/ServicesPage.tsx:15-16 | every name containing "Xerox" anywhere gets the printer, whatever else it contains |
| ServiceSales.PrinterIcons | src/components/ServicesPage.tsx:15-16 | the Xerox and the Impressão services both show the printer |
| ServiceSales.InternetIcon | src/components/ServicesPage.tsx:18-19 | the Internet access service shows wifi |
| ServiceSales.DocumentsIcon | src/components/ServicesPage.tsx:21-22 | the document issue service shows the document icon |
| Dashboard.ActiveUserCount | src/components/Dashboard.tsx:8 | the count is 0 exactly when no user is active, equals the list length when all are active, and never exceeds it |
| Dashboard.ActiveProductCount | src/components/Dashboard.tsx:9 | the same for products |
| Dashboard.ActiveClientCount | src/components/Dashboard.tsx:10 | the same for clients |
| Dashboard.FormCreationRaisesCount | src/components/Dashboard.tsx:8-10 | registering a user or creating a product or client through its form always raises that count by exactly one |
| Dashboard.StartupCounts | src/context/AppContext.tsx:46-91 | with the sample data the overview opens with 4 active users, 5 products and 8 clients |
| Dashboard.CountsAfterCreate | src/components/Dashboard.tsx:8-10 | creating a user, product or client raises its count by one exactly when the new record is active |
| Dashboard.ProductRevenue | src/components/Dashboard.tsx:11 | product revenue is 0 with no sales and non-negative when every sale total is |
| Dashboard.ServiceRevenue | src/components/Dashboard.tsx:12 | service revenue is 0 with no service sales and non-negative when every total is |
| Dashboard.RevenueAfterSubmit | src/components/Dashboard.tsx:11-12 | a submitted sale raises product revenue by exactly its draft total; a submitted service sale raises service revenue by price times quantity, or by nothing when the service is missing |
| Dashboard.TotalStock | src/components/Dashboard.tsx:13 | total stock is 0 with no lots and non-negative when every lot is |
| Dashboard.TotalStockOfAppend | src/components/Dashboard.tsx:13 | a new lot raises the total by exactly its quantity, so with 0 for an empty ledger the total is the sum over all lots |
| Dashboard.ProductStockWithinTotal | src/components/Dashboard.tsx:13 | with non-negative lots, every product's quantity lies between 0 and the total stock |
| Dashboard.LowLots | src/components/Dashboard.tsx:119 | exactly the lots of 5 units or fewer are selected |
| Dashboard.LowLotsOfAppend | src/components/Dashboard.tsx:119 | a new lot joins the end of the low lots exactly when it holds 5 units or fewer, so the low lots keep ledger order and multiplicity |
| Dashboard.LowStockList | src/components/Dashboard.tsx:118-120 | the panel lists exactly min(5, number of low lots) lots, the first ones in ledger order |
| Dashboard.Severity | src/components/Dashboard.tsx:130 | red exactly at 2 units or fewer, yellow otherwise |
| Dashboard.GoodLevel | src/components/Dashboard.tsx:137 | "stock at a good level" shows exactly when every lot has more than 5 units |
| Dashboard.LowProductHasLowLots | src/components/Dashboard.tsx:118-120 | with non-negative lots, every lot of a product flagged low on the stock page is in the dashboard's low lots |
| Dashboard.LowLotsOfHealthyProduct | src/components/Dashboard.tsx:118-120 | the converse fails: two lots of 3 units of one product are both listed although the product holds 6 and is not low |
| Dashboard.RecentSales | src/components/Dashboard.tsx:93 | the panel shows the last min(5, number of sales) sales, in order |

## Left out

- Rendering, styling, icons as components, modals and navigation are left out. From the registration, product and client forms the model keeps the create calls (`Store.RegisterUser`, `Store.CreateProduct`, `Store.CreateClient`). Those calls always pass `isActive` true. Their edit paths are the store's `UpdateProduct` and `UpdateClient`.
- The `alert` calls that stand in for e-mails to clients and technicians are left out. They change no state.
- The random parts of the sample data are left out: names, e-mails, phones, addresses, descriptions and dates. `Store.InitialState` takes the sample records as parameters. `Store.IsSampleData` pins their fixed parts: ids, user kinds, counts and active flags. The administrator and the service catalog are modelled exactly.
- The clock (`Date.now()`, `new Date()`) and id generation are left out. Ids, `now` and `today` are parameters, and nothing in the model assumes ids are unique.
- Input parsing and formatting are left out: `parseInt`, `parseFloat(...) || 0`, `toFixed`, date parsing and `toLocaleDateString`. Amounts arrive as whole cents and dates as milliseconds. The cleared stock entry form's empty date is modelled as instant 0.
- JavaScript floating point is left out. Money is exact cents, so totals here never round. The source's sums of fractional prices can.
- The average price on the sale page (src/components/SalesPage.tsx:92-94) is left out. It is a floating-point display value, not a business rule.
- The status colour classes (`getStatusColor`) are left out. They are styling only.
- The five-name accessory checklist (src/components/ServiceOrdersPage.tsx:19-25) is left out. It is display data, and ticking accepts any name.
- Stock decrements on removal or on sale are left out. The source performs neither, so no lot-consumption policy is invented.
- Transitions into `Orcamento`, `Aprovado` and `Concluido` are left out. No code produces them, so they exist only as datatype members.
- The unused `StockMovement` record and React's state batching and closure semantics are left out.
- Store.MergeProduct: a patch key that is present with the value `undefined` (which would erase an optional description) is not modelled. A patch field is either supplied with a value or absent.
- Store.MergeOrder: the same applies to `technicianId`. A patch can set a technician but cannot erase one, and no caller erases one.
- Sales.UpdateItem: requires an index inside the list. The page only edits existing lines. Out of range, the source would write a partial line into a sparse array.
- ServiceSales.ServiceIcon: `toLowerCase` is modelled for ASCII and Latin-1 capitals only, which covers every catalog name. Other Unicode case mappings are not modelled.
