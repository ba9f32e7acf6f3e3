/** The repair-ticket page (src/components/ServiceOrdersPage.tsx): the
    technician pool, the accessory checklist, the valuation, ticket creation,
    technician assignment and the status labels. */
module Orders {
  import opened Options
  import opened Types
  import Seqs
  import Store

  /** The new-ticket form. The technician starts empty and no control sets it. */
  datatype OrderForm = OrderForm(
    clientId: Id,
    entryDate: Millis,
    equipment: Equipment,
    defectDescription: string,
    accessories: seq<string>,
    partsValue: Cents,
    serviceValue: Cents,
    technicianId: Id)

  /** The form as first shown and as reset after a submission; `today` is
      the caller's current date. */
  function BlankForm(today: Millis): OrderForm
  {
    OrderForm("", today, PC, "", [], 0, 0, "")
  }

  predicate IsTechnician(u: User)
  {
    u.userType == Tecnico && u.isActive
  }

  /** The users a ticket can be dispatched to: the active technicians, in
      user-list order. */
  function Technicians(users: seq<User>): (r: seq<User>)
    ensures forall k :: 0 <= k < |r| ==> r[k].userType == Tecnico && r[k].isActive && r[k] in users
    ensures forall k :: 0 <= k < |users| && users[k].userType == Tecnico && users[k].isActive ==> users[k] in r
  {
    Seqs.Filter(users, IsTechnician)
  }

  /** A new user joins the pool exactly when it is an active technician, and
      then at the end. */
  lemma TechniciansOfAppend(users: seq<User>, u: User)
    ensures Technicians(users + [u]) == Technicians(users) + (if u.userType == Tecnico && u.isActive then [u] else [])
  {
    Seqs.FilterConcat(users, [u], IsTechnician);
    assert [u][1..] == [];
  }

  /** With the sample data the only technician offered at start-up is the
      sample user "4". */
  lemma TechniciansAtStartup(others: seq<User>, products: seq<Product>, clients: seq<Client>, now: Millis)
    requires Store.IsSampleData(others, products, clients)
    ensures var pool := Technicians(Store.InitialState(others, products, clients, now).users);
            |pool| == 1 && pool[0].id == "4"
  {
    var users := Store.InitialState(others, products, clients, now).users;
    assert users == [] + [users[0]] + [others[0]] + [others[1]] + [others[2]];
    TechniciansOfAppend([], users[0]);
    TechniciansOfAppend([users[0]], others[0]);
    TechniciansOfAppend([users[0], others[0]], others[1]);
    TechniciansOfAppend([users[0], others[0], others[1]], others[2]);
    assert [] + [users[0]] == [users[0]];
    assert [users[0]] + [others[0]] == [users[0], others[0]];
    assert [users[0], others[0]] + [others[1]] == [users[0], others[0], others[1]];
  }

  /** Ticking an accessory appends it; unticking removes every occurrence. */
  function ToggleAccessory(f: OrderForm, accessory: string, checked: bool): (r: OrderForm)
    ensures r == f.(accessories := r.accessories)
    ensures checked ==> r.accessories == f.accessories + [accessory]
    ensures !checked ==> accessory !in r.accessories
    ensures !checked ==> multiset(r.accessories) == multiset(f.accessories)[accessory := 0]
  {
    if checked then f.(accessories := f.accessories + [accessory])
    else f.(accessories := Seqs.RemoveAll(f.accessories, accessory))
  }

  /** Unticking keeps the other accessories in order, and ticking then
      unticking an accessory that was not listed restores the form. */
  lemma ToggleAccessoryLaws(f: OrderForm, accessory: string, before: seq<string>, after: seq<string>)
    ensures f.accessories == before + after ==>
              ToggleAccessory(f, accessory, false).accessories
              == Seqs.RemoveAll(before, accessory) + Seqs.RemoveAll(after, accessory)
    ensures accessory !in f.accessories ==>
              ToggleAccessory(ToggleAccessory(f, accessory, true), accessory, false) == f
  {
    Seqs.RemoveAllConcat(before, after, accessory);
    if accessory !in f.accessories {
      Seqs.RemoveAllConcat(f.accessories, [accessory], accessory);
      Seqs.RemoveAllAbsent(f.accessories, accessory);
      assert Seqs.RemoveAll([accessory], accessory) == [] by {
        assert [accessory][1..] == [];
      }
      assert f.accessories + [] == f.accessories;
    }
  }

  /** The ticket's value: parts plus labour. */
  function TotalValue(f: OrderForm): (r: Cents)
    ensures r == f.partsValue + f.serviceValue
    ensures f.partsValue >= 0 && f.serviceValue >= 0 ==> r >= f.partsValue && r >= f.serviceValue
  {
    f.partsValue + f.serviceValue
  }

  datatype OrderOutcome = OrderOutcome(state: Store.AppState, form: OrderForm)

  /** Submitting the form opens a ticket in status `Recebido`, valued at parts
      plus labour, received by the current user (or nobody), carrying the
      form's (empty) technician, and resets the form. */
  function CreateOrder(st: Store.AppState, f: OrderForm, id: Id, now: Millis, today: Millis): (r: OrderOutcome)
    ensures r.state == st.(serviceOrders := r.state.serviceOrders)
    ensures |r.state.serviceOrders| == |st.serviceOrders| + 1
    ensures r.state.serviceOrders[..|st.serviceOrders|] == st.serviceOrders
    ensures var o := r.state.serviceOrders[|st.serviceOrders|];
            && o.id == id && o.createdAt == now
            && o.status == Recebido
            && o.totalValue == o.partsValue + o.serviceValue
            && o.partsValue == f.partsValue && o.serviceValue == f.serviceValue
            && o.clientId == f.clientId && o.entryDate == f.entryDate && o.equipment == f.equipment
            && o.defectDescription == f.defectDescription && o.accessories == f.accessories
            && o.technicianId == Some(f.technicianId)
            && o.receivedBy == (if st.currentUser.Some? then st.currentUser.value.id else "")
    ensures r.form == BlankForm(today)
  {
    var draft := Store.OrderDraft(f.clientId, f.entryDate, f.equipment, Store.ActorId(st),
                                  f.defectDescription, f.accessories, f.partsValue, f.serviceValue,
                                  TotalValue(f), Some(f.technicianId), Recebido);
    OrderOutcome(Store.AddServiceOrder(st, draft, id, now), BlankForm(today))
  }

  /** The patch sent when a technician is chosen. */
  function AssignPatch(technicianId: Id): Store.OrderPatch
  {
    Store.NoOrderChange.(technicianId := Some(technicianId), status := Some(EmAndamento))
  }

  /** Assigning sets the technician and moves the ticket to `EmAndamento`,
      whatever its prior status; every other field and every other ticket is
      unchanged. */
  function AssignTechnician(st: Store.AppState, orderId: Id, technicianId: Id): (r: Store.AppState)
    ensures r == st.(serviceOrders := r.serviceOrders)
    ensures |r.serviceOrders| == |st.serviceOrders|
    ensures forall k :: 0 <= k < |st.serviceOrders| ==>
              var o := st.serviceOrders[k];
              r.serviceOrders[k] == if o.id == orderId
                                    then o.(technicianId := Some(technicianId), status := EmAndamento)
                                    else o
  {
    Store.UpdateServiceOrder(st, orderId, AssignPatch(technicianId))
  }

  /** The assignment selector is shown for a ticket still `Recebido` while
      at least one technician exists. */
  function CanAssign(o: ServiceOrder, users: seq<User>): (r: bool)
    ensures r <==> o.status == Recebido
                   && exists k :: 0 <= k < |users| && users[k].userType == Tecnico && users[k].isActive
  {
    var pool := Technicians(users);
    assert |pool| > 0 ==> pool[0] in users;
    o.status == Recebido && |pool| > 0
  }

  /** After an assignment the dispatched tickets no longer offer the selector,
      and an assignment of a ticket that was offered it keeps the
      (unchanged) total. */
  lemma AssignmentClosesSelector(st: Store.AppState, orderId: Id, technicianId: Id, k: int)
    requires 0 <= k < |st.serviceOrders| && st.serviceOrders[k].id == orderId
    ensures var o := AssignTechnician(st, orderId, technicianId).serviceOrders[k];
            && !CanAssign(o, st.users)
            && o.technicianId == Some(technicianId)
            && o.totalValue == st.serviceOrders[k].totalValue
  {
  }

  /** A ticket created by the form starts with parts plus labour as total,
      and after a technician is dispatched it is in progress with the same
      total: the scenario of a freshly received repair being dispatched. */
  lemma CreateThenAssign(st: Store.AppState, f: OrderForm, id: Id, now: Millis, today: Millis, technicianId: Id)
    requires forall k :: 0 <= k < |st.serviceOrders| ==> st.serviceOrders[k].id != id
    ensures var created := CreateOrder(st, f, id, now, today).state;
            var dispatched := AssignTechnician(created, id, technicianId);
            var o := dispatched.serviceOrders[|st.serviceOrders|];
            && o.status == EmAndamento
            && o.technicianId == Some(technicianId)
            && o.totalValue == f.partsValue + f.serviceValue
            && dispatched.serviceOrders[..|st.serviceOrders|] == st.serviceOrders
  {
    var created := CreateOrder(st, f, id, now, today).state;
    var dispatched := AssignTechnician(created, id, technicianId);
    forall k | 0 <= k < |st.serviceOrders|
      ensures dispatched.serviceOrders[k] == st.serviceOrders[k]
    {
      assert created.serviceOrders[k] == st.serviceOrders[k];
    }
  }

  /** The label shown for a status string; an unknown string is shown as is. */
  function StatusText(status: string): (r: string)
    ensures ParseStatus(status).None? ==> r == status
    ensures ParseStatus(status).Some? ==> r == StatusLabel(ParseStatus(status).value)
  {
    match status
    case "recebido" => "Recebido"
    case "orcamento" => "Orçamento"
    case "aprovado" => "Aprovado"
    case "em_andamento" => "Em Andamento"
    case "concluido" => "Concluído"
    case _ => status
  }

  function StatusLabel(s: OrderStatus): string
  {
    match s
    case Recebido => "Recebido"
    case Orcamento => "Orçamento"
    case Aprovado => "Aprovado"
    case EmAndamento => "Em Andamento"
    case Concluido => "Concluído"
  }

  /** Distinct statuses get distinct labels. */
  lemma StatusLabelsDistinct(s: OrderStatus, t: OrderStatus)
    ensures StatusText(StatusName(s)) == StatusLabel(s)
    ensures s != t ==> StatusLabel(s) != StatusLabel(t)
  {
    EnumNamesRoundTrip(Master, PC, s);
  }
}
