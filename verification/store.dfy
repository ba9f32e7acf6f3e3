/** The application state and its mutations (src/context/AppContext.tsx).

    Every store is an ordered sequence. Creation appends one record stamped
    with a caller-supplied id and instant; update and toggle rewrite, in
    place, the records whose id matches; nothing is ever removed. An unknown
    id makes update and toggle silent no-ops, as in the source. */
module Store {
  import opened Options
  import opened Types
  import Seqs

  /** The whole context: the session plus one sequence per entity. */
  datatype AppState = AppState(
    currentUser: Option<User>,
    users: seq<User>,
    products: seq<Product>,
    clients: seq<Client>,
    stock: seq<StockItem>,
    sales: seq<Sale>,
    services: seq<Service>,
    serviceSales: seq<ServiceSale>,
    serviceOrders: seq<ServiceOrder>)

  // ---------------------------------------------------------------------------
  // Initial data

  /** The fixed service catalog; it has no setter, so it never changes. */
  const Catalog: seq<Service> := [
    Service("1", "Xerox", 50, true),
    Service("2", "Acesso à Internet", 300, true),
    Service("3", "Emissão de Documentos", 500, true),
    Service("4", "Impressão", 100, true)
  ]

  /** The built-in administrator account that heads the user list. */
  function MasterUser(now: Millis): User
  {
    User("1", "Administrador", "admin@sistema.com", Master, true, now)
  }

  /** The state at start-up. The sample users, products and clients are
      parameters; the administrator and the catalog are fixed. */
  function InitialState(others: seq<User>, products: seq<Product>, clients: seq<Client>, now: Millis): (r: AppState)
    ensures r.currentUser == None
    ensures |r.users| == |others| + 1 && r.users[0] == MasterUser(now) && r.users[1..] == others
    ensures r.products == products && r.clients == clients
    ensures r.stock == [] && r.sales == [] && r.serviceSales == [] && r.serviceOrders == []
    ensures r.services == Catalog
  {
    AppState(None, [MasterUser(now)] + others, products, clients, [], [], Catalog, [], [])
  }

  /** The ids of the sample products and clients created at start-up. */
  const SampleProductIds: seq<Id> := ["prod-1", "prod-2", "prod-3", "prod-4", "prod-5"]
  const SampleClientIds: seq<Id> :=
    ["client-1", "client-2", "client-3", "client-4", "client-5", "client-6", "client-7", "client-8"]

  /** The fixed part of the sample data: three active staff users with ids
      "2" to "4" (a manager, a receptionist and a technician), five active
      products and eight active clients with the ids above. Names, contacts,
      descriptions and dates are random and left free. */
  function IsSampleData(others: seq<User>, products: seq<Product>, clients: seq<Client>): (r: bool)
    ensures r ==> forall k :: 0 <= k < |others| ==> others[k].id != MasterUser(0).id
    ensures r ==> forall i, j :: 0 <= i < j < |products| ==> products[i].id != products[j].id
    ensures r ==> forall i, j :: 0 <= i < j < |clients| ==> clients[i].id != clients[j].id
    ensures r ==> |others| + 1 == 4 && |products| == 5 && |clients| == 8
  {
    && |others| == 3
    && others[0].id == "2" && others[0].userType == Gerente
    && others[1].id == "3" && others[1].userType == Recepcao
    && others[2].id == "4" && others[2].userType == Tecnico
    && (forall k :: 0 <= k < |others| ==> others[k].isActive)
    && |products| == |SampleProductIds|
    && (forall k :: 0 <= k < |products| ==>
          products[k].id == SampleProductIds[k] && products[k].isActive && products[k].description.Some?)
    && |clients| == |SampleClientIds|
    && (forall k :: 0 <= k < |clients| ==> clients[k].id == SampleClientIds[k] && clients[k].isActive)
  }

  // ---------------------------------------------------------------------------
  // Session

  /** The id recorded as author of a new record: the current user's id, or
      the empty string when nobody is logged in. */
  function ActorId(st: AppState): (r: Id)
    ensures st.currentUser.Some? ==> r == st.currentUser.value.id
    ensures st.currentUser.None? ==> r == ""
  {
    match st.currentUser
    case Some(u) => u.id
    case None => ""
  }

  /** The login rule: same email and active. */
  predicate CanLogIn(u: User, email: string)
  {
    u.email == email && u.isActive
  }

  datatype LoginResult = LoginResult(ok: bool, state: AppState)

  /** Logs in the first active user with this email. The password is not
      consulted. On failure the state is returned unchanged. */
  function Login(st: AppState, email: string, password: string): (r: LoginResult)
    ensures r.ok <==> exists i :: 0 <= i < |st.users| && CanLogIn(st.users[i], email)
    ensures r.ok ==> exists i :: 0 <= i < |st.users| && CanLogIn(st.users[i], email)
                              && r.state.currentUser == Some(st.users[i])
                              && forall j :: 0 <= j < i ==> !CanLogIn(st.users[j], email)
    ensures !r.ok ==> r.state == st
    ensures r.state == st.(currentUser := r.state.currentUser)
  {
    match Seqs.Find(st.users, (u: User) => CanLogIn(u, email))
    case Some(u) => LoginResult(true, st.(currentUser := Some(u)))
    case None => LoginResult(false, st)
  }

  /** The password plays no part in the outcome of a login. */
  lemma LoginIgnoresPassword(st: AppState, email: string, p1: string, p2: string)
    ensures Login(st, email, p1) == Login(st, email, p2)
  {
  }

  /** Ends the session, whatever the prior state. */
  function Logout(st: AppState): (r: AppState)
    ensures r.currentUser == None
    ensures r == st.(currentUser := r.currentUser)
  {
    st.(currentUser := None)
  }

  /** At start-up the administrator can always log in, and is the one logged
      in even when a generated user shares the address. */
  lemma AdminLogsInAtStartup(others: seq<User>, products: seq<Product>, clients: seq<Client>, now: Millis, password: string)
    ensures var r := Login(InitialState(others, products, clients, now), "admin@sistema.com", password);
            r.ok && r.state.currentUser == Some(MasterUser(now))
  {
    var st := InitialState(others, products, clients, now);
    assert CanLogIn(st.users[0], "admin@sistema.com");
  }

  // ---------------------------------------------------------------------------
  // Creation: each `add*` appends one record and touches nothing else.

  datatype UserDraft = UserDraft(name: string, email: string, userType: UserType, isActive: bool)
  datatype ProductDraft = ProductDraft(name: string, category: string, description: Option<string>, isActive: bool)
  datatype ClientDraft = ClientDraft(name: string, phone: string, address: string, email: string, isActive: bool)
  datatype StockDraft = StockDraft(productId: Id, quantity: int, unitPrice: Cents, expiryDate: Millis, createdBy: Id)
  datatype SaleDraft = SaleDraft(clientId: Id, items: seq<SaleItem>, total: Cents, createdBy: Id)
  datatype ServiceSaleDraft = ServiceSaleDraft(clientId: Id, serviceId: Id, quantity: int, total: Cents, createdBy: Id)
  datatype OrderDraft = OrderDraft(
    clientId: Id,
    entryDate: Millis,
    equipment: Equipment,
    receivedBy: Id,
    defectDescription: string,
    accessories: seq<string>,
    partsValue: Cents,
    serviceValue: Cents,
    totalValue: Cents,
    technicianId: Option<Id>,
    status: OrderStatus)

  function AddUser(st: AppState, d: UserDraft, id: Id, now: Millis): (r: AppState)
    ensures r == st.(users := r.users)
    ensures |r.users| == |st.users| + 1 && r.users[..|st.users|] == st.users
    ensures r.users[|st.users|] == User(id, d.name, d.email, d.userType, d.isActive, now)
  {
    st.(users := st.users + [User(id, d.name, d.email, d.userType, d.isActive, now)])
  }

  function AddProduct(st: AppState, d: ProductDraft, id: Id, now: Millis): (r: AppState)
    ensures r == st.(products := r.products)
    ensures |r.products| == |st.products| + 1 && r.products[..|st.products|] == st.products
    ensures r.products[|st.products|] == Product(id, d.name, d.category, d.description, d.isActive, now)
  {
    st.(products := st.products + [Product(id, d.name, d.category, d.description, d.isActive, now)])
  }

  function AddClient(st: AppState, d: ClientDraft, id: Id, now: Millis): (r: AppState)
    ensures r == st.(clients := r.clients)
    ensures |r.clients| == |st.clients| + 1 && r.clients[..|st.clients|] == st.clients
    ensures r.clients[|st.clients|] == Client(id, d.name, d.phone, d.address, d.email, d.isActive, now)
  {
    st.(clients := st.clients + [Client(id, d.name, d.phone, d.address, d.email, d.isActive, now)])
  }

  /** The registration form creates an active user of the chosen kind. */
  function RegisterUser(st: AppState, name: string, email: string, userType: UserType, id: Id, now: Millis): (r: AppState)
    ensures r == st.(users := r.users)
    ensures |r.users| == |st.users| + 1 && r.users[..|st.users|] == st.users
    ensures var u := r.users[|st.users|];
            u.id == id && u.name == name && u.email == email && u.userType == userType && u.isActive
  {
    AddUser(st, UserDraft(name, email, userType, true), id, now)
  }

  /** A newly registered user can log in with its address at once, whatever
      the password; when no earlier user could log in with that address the
      session holds the new user. */
  lemma RegisteredUserCanLogIn(st: AppState, name: string, email: string, userType: UserType, id: Id, now: Millis, password: string)
    ensures var r := RegisterUser(st, name, email, userType, id, now);
            Login(r, email, password).ok
    ensures (forall i :: 0 <= i < |st.users| ==> !CanLogIn(st.users[i], email)) ==>
            Login(RegisterUser(st, name, email, userType, id, now), email, password).state.currentUser
            == Some(User(id, name, email, userType, true, now))
  {
    var r := RegisterUser(st, name, email, userType, id, now);
    assert CanLogIn(r.users[|st.users|], email);
  }

  /** The product form (when not editing) creates an active product. */
  function CreateProduct(st: AppState, name: string, category: string, description: Option<string>, id: Id, now: Millis): (r: AppState)
    ensures r == st.(products := r.products)
    ensures |r.products| == |st.products| + 1 && r.products[..|st.products|] == st.products
    ensures var p := r.products[|st.products|];
            p.id == id && p.name == name && p.category == category && p.description == description && p.isActive
  {
    AddProduct(st, ProductDraft(name, category, description, true), id, now)
  }

  /** The client form (when not editing) creates an active client. */
  function CreateClient(st: AppState, name: string, phone: string, address: string, email: string, id: Id, now: Millis): (r: AppState)
    ensures r == st.(clients := r.clients)
    ensures |r.clients| == |st.clients| + 1 && r.clients[..|st.clients|] == st.clients
    ensures var c := r.clients[|st.clients|];
            c.id == id && c.name == name && c.phone == phone && c.address == address && c.email == email && c.isActive
  {
    AddClient(st, ClientDraft(name, phone, address, email, true), id, now)
  }

  /** A stock entry is stamped with an entry date rather than a creation date. */
  function AddStockEntry(st: AppState, d: StockDraft, id: Id, now: Millis): (r: AppState)
    ensures r == st.(stock := r.stock)
    ensures |r.stock| == |st.stock| + 1 && r.stock[..|st.stock|] == st.stock
    ensures r.stock[|st.stock|] == StockItem(id, d.productId, d.quantity, d.unitPrice, d.expiryDate, now, d.createdBy)
  {
    st.(stock := st.stock + [StockItem(id, d.productId, d.quantity, d.unitPrice, d.expiryDate, now, d.createdBy)])
  }

  /** Recording a sale does not consume stock. */
  function AddSale(st: AppState, d: SaleDraft, id: Id, now: Millis): (r: AppState)
    ensures r == st.(sales := r.sales)
    ensures |r.sales| == |st.sales| + 1 && r.sales[..|st.sales|] == st.sales
    ensures r.sales[|st.sales|] == Sale(id, d.clientId, d.items, d.total, d.createdBy, now)
  {
    st.(sales := st.sales + [Sale(id, d.clientId, d.items, d.total, d.createdBy, now)])
  }

  function AddServiceSale(st: AppState, d: ServiceSaleDraft, id: Id, now: Millis): (r: AppState)
    ensures r == st.(serviceSales := r.serviceSales)
    ensures |r.serviceSales| == |st.serviceSales| + 1 && r.serviceSales[..|st.serviceSales|] == st.serviceSales
    ensures r.serviceSales[|st.serviceSales|] == ServiceSale(id, d.clientId, d.serviceId, d.quantity, d.total, d.createdBy, now)
  {
    st.(serviceSales := st.serviceSales + [ServiceSale(id, d.clientId, d.serviceId, d.quantity, d.total, d.createdBy, now)])
  }

  function OrderOf(d: OrderDraft, id: Id, now: Millis): ServiceOrder
  {
    ServiceOrder(id, d.clientId, d.entryDate, d.equipment, d.receivedBy, d.defectDescription,
                 d.accessories, d.partsValue, d.serviceValue, d.totalValue, d.technicianId, d.status, now)
  }

  function AddServiceOrder(st: AppState, d: OrderDraft, id: Id, now: Millis): (r: AppState)
    ensures r == st.(serviceOrders := r.serviceOrders)
    ensures |r.serviceOrders| == |st.serviceOrders| + 1 && r.serviceOrders[..|st.serviceOrders|] == st.serviceOrders
    ensures r.serviceOrders[|st.serviceOrders|]
            == ServiceOrder(id, d.clientId, d.entryDate, d.equipment, d.receivedBy, d.defectDescription,
                            d.accessories, d.partsValue, d.serviceValue, d.totalValue, d.technicianId, d.status, now)
  {
    st.(serviceOrders := st.serviceOrders + [OrderOf(d, id, now)])
  }

  /** The stock-removal stub: it logs its arguments and changes nothing. */
  function RemoveFromStock(st: AppState, productId: Id, quantity: int, reason: string): (r: AppState)
    ensures r == st
  {
    st
  }

  // ---------------------------------------------------------------------------
  // Activation toggles

  function FlipUser(u: User): User { u.(isActive := !u.isActive) }
  function FlipProduct(p: Product): Product { p.(isActive := !p.isActive) }
  function FlipClient(c: Client): Client { c.(isActive := !c.isActive) }

  function ToggleUserStatus(st: AppState, id: Id): (r: AppState)
    ensures r == st.(users := r.users)
    ensures |r.users| == |st.users|
    ensures forall i :: 0 <= i < |st.users| ==>
              r.users[i] == if st.users[i].id == id then st.users[i].(isActive := !st.users[i].isActive) else st.users[i]
  {
    st.(users := Seqs.MapWhere(st.users, (u: User) => u.id == id, FlipUser))
  }

  function ToggleProductStatus(st: AppState, id: Id): (r: AppState)
    ensures r == st.(products := r.products)
    ensures |r.products| == |st.products|
    ensures forall i :: 0 <= i < |st.products| ==>
              r.products[i] == if st.products[i].id == id then st.products[i].(isActive := !st.products[i].isActive) else st.products[i]
  {
    st.(products := Seqs.MapWhere(st.products, (p: Product) => p.id == id, FlipProduct))
  }

  function ToggleClientStatus(st: AppState, id: Id): (r: AppState)
    ensures r == st.(clients := r.clients)
    ensures |r.clients| == |st.clients|
    ensures forall i :: 0 <= i < |st.clients| ==>
              r.clients[i] == if st.clients[i].id == id then st.clients[i].(isActive := !st.clients[i].isActive) else st.clients[i]
  {
    st.(clients := Seqs.MapWhere(st.clients, (c: Client) => c.id == id, FlipClient))
  }

  /** Toggling the same id twice restores every store. */
  lemma ToggleTwiceIsIdentity(st: AppState, id: Id)
    ensures ToggleUserStatus(ToggleUserStatus(st, id), id) == st
    ensures ToggleProductStatus(ToggleProductStatus(st, id), id) == st
    ensures ToggleClientStatus(ToggleClientStatus(st, id), id) == st
  {
    Seqs.MapWhereInvolution(st.users, (u: User) => u.id == id, FlipUser);
    Seqs.MapWhereInvolution(st.products, (p: Product) => p.id == id, FlipProduct);
    Seqs.MapWhereInvolution(st.clients, (c: Client) => c.id == id, FlipClient);
  }

  /** Toggling an id that no record carries changes nothing. */
  lemma ToggleUnknownIsNoOp(st: AppState, id: Id)
    ensures (forall i :: 0 <= i < |st.users| ==> st.users[i].id != id) ==> ToggleUserStatus(st, id) == st
    ensures (forall i :: 0 <= i < |st.products| ==> st.products[i].id != id) ==> ToggleProductStatus(st, id) == st
    ensures (forall i :: 0 <= i < |st.clients| ==> st.clients[i].id != id) ==> ToggleClientStatus(st, id) == st
  {
    if forall i :: 0 <= i < |st.users| ==> st.users[i].id != id {
      Seqs.MapWhereNoHit(st.users, (u: User) => u.id == id, FlipUser);
    }
    if forall i :: 0 <= i < |st.products| ==> st.products[i].id != id {
      Seqs.MapWhereNoHit(st.products, (p: Product) => p.id == id, FlipProduct);
    }
    if forall i :: 0 <= i < |st.clients| ==> st.clients[i].id != id {
      Seqs.MapWhereNoHit(st.clients, (c: Client) => c.id == id, FlipClient);
    }
  }

  // ---------------------------------------------------------------------------
  // Field-merge updates: `{ ...record, ...patch }` on the matching records.
  // A patch field is `Some` exactly when the caller supplied it.

  /** The fields `updateProduct` may overwrite (its declared parameter omits
      `id` and `createdAt`). */
  datatype ProductPatch = ProductPatch(
    name: Option<string>,
    category: Option<string>,
    description: Option<string>,
    isActive: Option<bool>)

  /** `Partial<Client>`: every field, the id included, may be supplied. */
  datatype ClientPatch = ClientPatch(
    id: Option<Id>,
    name: Option<string>,
    phone: Option<string>,
    address: Option<string>,
    email: Option<string>,
    isActive: Option<bool>,
    createdAt: Option<Millis>)

  /** `Partial<ServiceOrder>`: every field may be supplied. */
  datatype OrderPatch = OrderPatch(
    id: Option<Id>,
    clientId: Option<Id>,
    entryDate: Option<Millis>,
    equipment: Option<Equipment>,
    receivedBy: Option<Id>,
    defectDescription: Option<string>,
    accessories: Option<seq<string>>,
    partsValue: Option<Cents>,
    serviceValue: Option<Cents>,
    totalValue: Option<Cents>,
    technicianId: Option<Id>,
    status: Option<OrderStatus>,
    createdAt: Option<Millis>)

  const NoOrderChange := OrderPatch(None, None, None, None, None, None, None, None, None, None, None, None, None)

  function MergeProduct(p: Product, patch: ProductPatch): (r: Product)
    ensures r.id == p.id && r.createdAt == p.createdAt
    ensures r.name == patch.name.GetOr(p.name)
    ensures r.category == patch.category.GetOr(p.category)
    ensures patch.description.Some? ==> r.description == patch.description
    ensures patch.description.None? ==> r.description == p.description
    ensures r.isActive == patch.isActive.GetOr(p.isActive)
  {
    Product(p.id, patch.name.GetOr(p.name), patch.category.GetOr(p.category),
            if patch.description.Some? then patch.description else p.description,
            patch.isActive.GetOr(p.isActive), p.createdAt)
  }

  function MergeClient(c: Client, patch: ClientPatch): (r: Client)
    ensures r.id == patch.id.GetOr(c.id)
    ensures r.name == patch.name.GetOr(c.name)
    ensures r.phone == patch.phone.GetOr(c.phone)
    ensures r.address == patch.address.GetOr(c.address)
    ensures r.email == patch.email.GetOr(c.email)
    ensures r.isActive == patch.isActive.GetOr(c.isActive)
    ensures r.createdAt == patch.createdAt.GetOr(c.createdAt)
  {
    Client(patch.id.GetOr(c.id), patch.name.GetOr(c.name), patch.phone.GetOr(c.phone),
           patch.address.GetOr(c.address), patch.email.GetOr(c.email),
           patch.isActive.GetOr(c.isActive), patch.createdAt.GetOr(c.createdAt))
  }

  function MergeOrder(o: ServiceOrder, patch: OrderPatch): (r: ServiceOrder)
    ensures r.id == patch.id.GetOr(o.id)
    ensures r.clientId == patch.clientId.GetOr(o.clientId)
    ensures r.entryDate == patch.entryDate.GetOr(o.entryDate)
    ensures r.equipment == patch.equipment.GetOr(o.equipment)
    ensures r.receivedBy == patch.receivedBy.GetOr(o.receivedBy)
    ensures r.defectDescription == patch.defectDescription.GetOr(o.defectDescription)
    ensures r.accessories == patch.accessories.GetOr(o.accessories)
    ensures r.partsValue == patch.partsValue.GetOr(o.partsValue)
    ensures r.serviceValue == patch.serviceValue.GetOr(o.serviceValue)
    ensures r.totalValue == patch.totalValue.GetOr(o.totalValue)
    ensures patch.technicianId.Some? ==> r.technicianId == patch.technicianId
    ensures patch.technicianId.None? ==> r.technicianId == o.technicianId
    ensures r.status == patch.status.GetOr(o.status)
    ensures r.createdAt == patch.createdAt.GetOr(o.createdAt)
  {
    ServiceOrder(patch.id.GetOr(o.id), patch.clientId.GetOr(o.clientId),
                 patch.entryDate.GetOr(o.entryDate), patch.equipment.GetOr(o.equipment),
                 patch.receivedBy.GetOr(o.receivedBy), patch.defectDescription.GetOr(o.defectDescription),
                 patch.accessories.GetOr(o.accessories), patch.partsValue.GetOr(o.partsValue),
                 patch.serviceValue.GetOr(o.serviceValue), patch.totalValue.GetOr(o.totalValue),
                 if patch.technicianId.Some? then patch.technicianId else o.technicianId,
                 patch.status.GetOr(o.status), patch.createdAt.GetOr(o.createdAt))
  }

  /** Merging the same patch twice is merging it once, and an empty patch
      leaves a record as it is. */
  lemma MergeLaws(p: Product, pp: ProductPatch, c: Client, cp: ClientPatch, o: ServiceOrder, op: OrderPatch)
    ensures MergeProduct(MergeProduct(p, pp), pp) == MergeProduct(p, pp)
    ensures MergeClient(MergeClient(c, cp), cp) == MergeClient(c, cp)
    ensures MergeOrder(MergeOrder(o, op), op) == MergeOrder(o, op)
    ensures MergeProduct(p, ProductPatch(None, None, None, None)) == p
    ensures MergeClient(c, ClientPatch(None, None, None, None, None, None, None)) == c
    ensures MergeOrder(o, NoOrderChange) == o
  {
  }

  function UpdateProduct(st: AppState, id: Id, patch: ProductPatch): (r: AppState)
    ensures r == st.(products := r.products)
    ensures |r.products| == |st.products|
    ensures forall i :: 0 <= i < |st.products| ==>
              r.products[i] == if st.products[i].id == id then MergeProduct(st.products[i], patch) else st.products[i]
  {
    st.(products := Seqs.MapWhere(st.products, (p: Product) => p.id == id, (p: Product) => MergeProduct(p, patch)))
  }

  function UpdateClient(st: AppState, id: Id, patch: ClientPatch): (r: AppState)
    ensures r == st.(clients := r.clients)
    ensures |r.clients| == |st.clients|
    ensures forall i :: 0 <= i < |st.clients| ==>
              r.clients[i] == if st.clients[i].id == id then MergeClient(st.clients[i], patch) else st.clients[i]
  {
    st.(clients := Seqs.MapWhere(st.clients, (c: Client) => c.id == id, (c: Client) => MergeClient(c, patch)))
  }

  function UpdateServiceOrder(st: AppState, id: Id, patch: OrderPatch): (r: AppState)
    ensures r == st.(serviceOrders := r.serviceOrders)
    ensures |r.serviceOrders| == |st.serviceOrders|
    ensures forall i :: 0 <= i < |st.serviceOrders| ==>
              r.serviceOrders[i] == if st.serviceOrders[i].id == id then MergeOrder(st.serviceOrders[i], patch) else st.serviceOrders[i]
  {
    st.(serviceOrders := Seqs.MapWhere(st.serviceOrders, (o: ServiceOrder) => o.id == id, (o: ServiceOrder) => MergeOrder(o, patch)))
  }

  /** Updating an id that no record carries changes nothing. */
  lemma UpdateUnknownIsNoOp(st: AppState, id: Id, pp: ProductPatch, cp: ClientPatch, op: OrderPatch)
    ensures (forall i :: 0 <= i < |st.products| ==> st.products[i].id != id) ==> UpdateProduct(st, id, pp) == st
    ensures (forall i :: 0 <= i < |st.clients| ==> st.clients[i].id != id) ==> UpdateClient(st, id, cp) == st
    ensures (forall i :: 0 <= i < |st.serviceOrders| ==> st.serviceOrders[i].id != id) ==> UpdateServiceOrder(st, id, op) == st
  {
    if forall i :: 0 <= i < |st.products| ==> st.products[i].id != id {
      Seqs.MapWhereNoHit(st.products, (p: Product) => p.id == id, (p: Product) => MergeProduct(p, pp));
    }
    if forall i :: 0 <= i < |st.clients| ==> st.clients[i].id != id {
      Seqs.MapWhereNoHit(st.clients, (c: Client) => c.id == id, (c: Client) => MergeClient(c, cp));
    }
    if forall i :: 0 <= i < |st.serviceOrders| ==> st.serviceOrders[i].id != id {
      Seqs.MapWhereNoHit(st.serviceOrders, (o: ServiceOrder) => o.id == id, (o: ServiceOrder) => MergeOrder(o, op));
    }
  }

  /** Repeating an update is the same as doing it once, even when the patch
      rewrites the id itself. */
  lemma UpdateTwiceIsUpdateOnce(st: AppState, id: Id, pp: ProductPatch, cp: ClientPatch, op: OrderPatch)
    ensures UpdateProduct(UpdateProduct(st, id, pp), id, pp) == UpdateProduct(st, id, pp)
    ensures UpdateClient(UpdateClient(st, id, cp), id, cp) == UpdateClient(st, id, cp)
    ensures UpdateServiceOrder(UpdateServiceOrder(st, id, op), id, op) == UpdateServiceOrder(st, id, op)
  {
    MergeLaws(Product("", "", "", None, false, 0), pp, Client("", "", "", "", "", false, 0), cp,
              ServiceOrder("", "", 0, PC, "", "", [], 0, 0, 0, None, Recebido, 0), op);
    Seqs.MapWhereIdempotent(st.products, (p: Product) => p.id == id, (p: Product) => MergeProduct(p, pp));
    Seqs.MapWhereIdempotent(st.clients, (c: Client) => c.id == id, (c: Client) => MergeClient(c, cp));
    Seqs.MapWhereIdempotent(st.serviceOrders, (o: ServiceOrder) => o.id == id, (o: ServiceOrder) => MergeOrder(o, op));
  }

  /** The clients offered in every selection list: the active ones, in order. */
  function ActiveClients(clients: seq<Client>): (r: seq<Client>)
    ensures forall i :: 0 <= i < |r| ==> r[i].isActive && r[i] in clients
    ensures forall i :: 0 <= i < |clients| && clients[i].isActive ==> clients[i] in r
  {
    Seqs.Filter(clients, (c: Client) => c.isActive)
  }

  // ---------------------------------------------------------------------------
  // Histories: any sequence of context operations.

  datatype Action =
    | DoLogin(email: string, password: string)
    | DoLogout
    | DoAddUser(u: UserDraft, uid: Id, unow: Millis)
    | DoAddProduct(p: ProductDraft, pid: Id, pnow: Millis)
    | DoAddClient(c: ClientDraft, cid: Id, cnow: Millis)
    | DoAddStockEntry(e: StockDraft, eid: Id, enow: Millis)
    | DoRemoveFromStock(productId: Id, quantity: int, reason: string)
    | DoAddSale(s: SaleDraft, sid: Id, snow: Millis)
    | DoAddServiceSale(v: ServiceSaleDraft, vid: Id, vnow: Millis)
    | DoAddServiceOrder(o: OrderDraft, oid: Id, onow: Millis)
    | DoUpdateProduct(upid: Id, pp: ProductPatch)
    | DoUpdateClient(ucid: Id, cp: ClientPatch)
    | DoUpdateServiceOrder(uoid: Id, op: OrderPatch)
    | DoToggleUser(tuid: Id)
    | DoToggleProduct(tpid: Id)
    | DoToggleClient(tcid: Id)

  function Step(st: AppState, a: Action): AppState
  {
    match a
    case DoLogin(email, password) => Login(st, email, password).state
    case DoLogout => Logout(st)
    case DoAddUser(d, id, now) => AddUser(st, d, id, now)
    case DoAddProduct(d, id, now) => AddProduct(st, d, id, now)
    case DoAddClient(d, id, now) => AddClient(st, d, id, now)
    case DoAddStockEntry(d, id, now) => AddStockEntry(st, d, id, now)
    case DoRemoveFromStock(pid, q, reason) => RemoveFromStock(st, pid, q, reason)
    case DoAddSale(d, id, now) => AddSale(st, d, id, now)
    case DoAddServiceSale(d, id, now) => AddServiceSale(st, d, id, now)
    case DoAddServiceOrder(d, id, now) => AddServiceOrder(st, d, id, now)
    case DoUpdateProduct(id, patch) => UpdateProduct(st, id, patch)
    case DoUpdateClient(id, patch) => UpdateClient(st, id, patch)
    case DoUpdateServiceOrder(id, patch) => UpdateServiceOrder(st, id, patch)
    case DoToggleUser(id) => ToggleUserStatus(st, id)
    case DoToggleProduct(id) => ToggleProductStatus(st, id)
    case DoToggleClient(id) => ToggleClientStatus(st, id)
  }

  function Run(st: AppState, actions: seq<Action>): AppState
    decreases |actions|
  {
    if |actions| == 0 then st else Run(Step(st, actions[0]), actions[1..])
  }

  /** No operation shrinks a store or touches the catalog and the stock
      ledger only grows by appending. */
  predicate Grows(a: AppState, b: AppState)
  {
    && |a.users| <= |b.users|
    && |a.products| <= |b.products|
    && |a.clients| <= |b.clients|
    && a.stock <= b.stock
    && a.sales <= b.sales
    && a.serviceSales <= b.serviceSales
    && |a.serviceOrders| <= |b.serviceOrders|
    && a.services == b.services
  }

  /** Over any history, records are never deleted, stock entries, sales and
      service sales are never altered, and the catalog stays as it was. */
  lemma {:induction false} RunOnlyGrows(st: AppState, actions: seq<Action>)
    ensures Grows(st, Run(st, actions))
    decreases |actions|
  {
    if |actions| > 0 {
      var next := Step(st, actions[0]);
      assert Grows(st, next);
      RunOnlyGrows(next, actions[1..]);
    }
  }
}
