/** The records and enumerations of the console (src/types/index.ts).

    Identifiers are opaque strings supplied by the caller, money is an exact
    number of cents, quantities are whole units and instants are
    milliseconds since the epoch. */
module Types {
  import opened Options

  type Id = string
  type Cents = int
  type Millis = int

  /** The four account kinds; the source spells them in Portuguese. */
  datatype UserType = Master | Gerente | Recepcao | Tecnico

  datatype User = User(
    id: Id,
    name: string,
    email: string,
    userType: UserType,
    isActive: bool,
    createdAt: Millis)

  /** A catalog product; `description` is optional. */
  datatype Product = Product(
    id: Id,
    name: string,
    category: string,
    description: Option<string>,
    isActive: bool,
    createdAt: Millis)

  datatype Client = Client(
    id: Id,
    name: string,
    phone: string,
    address: string,
    email: string,
    isActive: bool,
    createdAt: Millis)

  /** One stock lot: a batch of a product received at a price and expiry. */
  datatype StockItem = StockItem(
    id: Id,
    productId: Id,
    quantity: int,
    unitPrice: Cents,
    expiryDate: Millis,
    entryDate: Millis,
    createdBy: Id)

  /** A sale line stores its own total next to quantity and unit price. */
  datatype SaleItem = SaleItem(
    productId: Id,
    quantity: int,
    unitPrice: Cents,
    total: Cents)

  datatype Sale = Sale(
    id: Id,
    clientId: Id,
    items: seq<SaleItem>,
    total: Cents,
    createdBy: Id,
    createdAt: Millis)

  datatype Service = Service(
    id: Id,
    name: string,
    price: Cents,
    isActive: bool)

  datatype ServiceSale = ServiceSale(
    id: Id,
    clientId: Id,
    serviceId: Id,
    quantity: int,
    total: Cents,
    createdBy: Id,
    createdAt: Millis)

  datatype Equipment = PC | Laptop

  /** The five repair-ticket states. Only `Recebido` (on creation) and
      `EmAndamento` (on technician assignment) are ever produced. */
  datatype OrderStatus = Recebido | Orcamento | Aprovado | EmAndamento | Concluido

  /** A repair ticket; `technicianId` is optional. */
  datatype ServiceOrder = ServiceOrder(
    id: Id,
    clientId: Id,
    entryDate: Millis,
    equipment: Equipment,
    receivedBy: Id,
    defectDescription: string,
    accessories: seq<string>,
    partsValue: Cents,
    serviceValue: Cents,
    totalValue: Cents,
    technicianId: Option<Id>,
    status: OrderStatus,
    createdAt: Millis)

  /** The string each enumeration member has in the source's union types. */
  function UserTypeName(t: UserType): string
  {
    match t
    case Master => "master"
    case Gerente => "gerente"
    case Recepcao => "recepcao"
    case Tecnico => "tecnico"
  }

  function EquipmentName(e: Equipment): string
  {
    match e
    case PC => "PC"
    case Laptop => "Laptop"
  }

  function StatusName(s: OrderStatus): string
  {
    match s
    case Recebido => "recebido"
    case Orcamento => "orcamento"
    case Aprovado => "aprovado"
    case EmAndamento => "em_andamento"
    case Concluido => "concluido"
  }

  /** Reads a `userType` string: exactly the four names are accepted. */
  function ParseUserType(s: string): (r: Option<UserType>)
    ensures r.Some? <==> s in {"master", "gerente", "recepcao", "tecnico"}
    ensures r.Some? ==> UserTypeName(r.value) == s
  {
    if s == "master" then Some(Master)
    else if s == "gerente" then Some(Gerente)
    else if s == "recepcao" then Some(Recepcao)
    else if s == "tecnico" then Some(Tecnico)
    else None
  }

  /** Reads an `equipment` string: exactly "PC" and "Laptop" are accepted. */
  function ParseEquipment(s: string): (r: Option<Equipment>)
    ensures r.Some? <==> s in {"PC", "Laptop"}
    ensures r.Some? ==> EquipmentName(r.value) == s
  {
    if s == "PC" then Some(PC)
    else if s == "Laptop" then Some(Laptop)
    else None
  }

  /** Reads a `status` string: exactly the five names are accepted. */
  function ParseStatus(s: string): (r: Option<OrderStatus>)
    ensures r.Some? <==> s in {"recebido", "orcamento", "aprovado", "em_andamento", "concluido"}
    ensures r.Some? ==> StatusName(r.value) == s
  {
    if s == "recebido" then Some(Recebido)
    else if s == "orcamento" then Some(Orcamento)
    else if s == "aprovado" then Some(Aprovado)
    else if s == "em_andamento" then Some(EmAndamento)
    else if s == "concluido" then Some(Concluido)
    else None
  }

  /** Every enumeration member has its own name, and reading it back gives the
      member: the string domains and the datatypes are in bijection. */
  lemma EnumNamesRoundTrip(t: UserType, e: Equipment, s: OrderStatus)
    ensures ParseUserType(UserTypeName(t)) == Some(t)
    ensures ParseEquipment(EquipmentName(e)) == Some(e)
    ensures ParseStatus(StatusName(s)) == Some(s)
  {
  }
}
