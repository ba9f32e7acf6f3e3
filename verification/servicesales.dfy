/** The service sale page (src/components/ServicesPage.tsx): recording a sale
    of a catalog service, the selection lists and the icon each service
    name is shown with. */
module ServiceSales {
  import opened Options
  import opened Types
  import Seqs
  import Store

  /** The sale form: client, service and a quantity that starts at 1. */
  datatype ServiceForm = ServiceForm(clientId: Id, serviceId: Id, quantity: int)

  const BlankServiceForm := ServiceForm("", "", 1)

  /** The catalog entry with this id, the first one when several share it. */
  function FindService(services: seq<Service>, id: Id): (r: Option<Service>)
    ensures r.None? <==> forall k :: 0 <= k < |services| ==> services[k].id != id
    ensures r.Some? ==> r.value.id == id && r.value in services
    ensures r.Some? ==> exists k :: 0 <= k < |services| && services[k] == r.value
                                    && forall j :: 0 <= j < k ==> services[j].id != id
  {
    Seqs.Find(services, (s: Service) => s.id == id)
  }

  datatype ServiceOutcome = ServiceOutcome(state: Store.AppState, form: ServiceForm)

  /** Submitting looks the service up at that moment. When it is missing
      nothing is recorded and the form stays as it was. Otherwise one sale is
      appended whose total is the looked-up price times the quantity,
      authored by the current user (or nobody), and the form is reset. */
  function Submit(st: Store.AppState, f: ServiceForm, id: Id, now: Millis): (r: ServiceOutcome)
    ensures FindService(st.services, f.serviceId).None? ==> r == ServiceOutcome(st, f)
    ensures FindService(st.services, f.serviceId).Some? ==>
              && r.state == st.(serviceSales := r.state.serviceSales)
              && |r.state.serviceSales| == |st.serviceSales| + 1
              && r.state.serviceSales[..|st.serviceSales|] == st.serviceSales
              && r.form == ServiceForm("", "", 1)
              && var s := r.state.serviceSales[|st.serviceSales|];
                 && s.id == id && s.createdAt == now
                 && s.clientId == f.clientId && s.serviceId == f.serviceId && s.quantity == f.quantity
                 && s.total == FindService(st.services, f.serviceId).value.price * f.quantity
                 && s.createdBy == (if st.currentUser.Some? then st.currentUser.value.id else "")
  {
    match FindService(st.services, f.serviceId)
    case None => ServiceOutcome(st, f)
    case Some(service) =>
      var draft := Store.ServiceSaleDraft(f.clientId, f.serviceId, f.quantity,
                                          service.price * f.quantity, Store.ActorId(st));
      ServiceOutcome(Store.AddServiceSale(st, draft, id, now), BlankServiceForm)
  }

  /** With the start-up catalog, whose ids are distinct, choosing a service
      by its id charges that service's listed price per unit. */
  lemma CatalogSaleTotal(st: Store.AppState, clientId: Id, quantity: int, id: Id, now: Millis, k: nat)
    requires st.services == Store.Catalog
    requires k < |Store.Catalog|
    ensures var r := Submit(st, ServiceForm(clientId, Store.Catalog[k].id, quantity), id, now);
            r.state.serviceSales[|st.serviceSales|].total == Store.Catalog[k].price * quantity
  {
    var c := Store.Catalog;
    assert forall i, j :: 0 <= i < j < |c| ==> c[i].id != c[j].id;
    var found := FindService(c, c[k].id);
    assert found == Some(c[k]);
  }

  /** The services offered in the form: the active ones, in catalog order. */
  function ActiveServices(services: seq<Service>): (r: seq<Service>)
    ensures forall k :: 0 <= k < |r| ==> r[k].isActive && r[k] in services
    ensures forall k :: 0 <= k < |services| && services[k].isActive ==> services[k] in r
  {
    Seqs.Filter(services, (s: Service) => s.isActive)
  }

  /** Lower-casing of a character: the ASCII capitals and the Latin-1
      accented capitals map to their small letters; all else is kept. */
  function LowerChar(c: char): char
  {
    if 'A' <= c <= 'Z' || ('À' <= c <= 'Þ' && c != '×') then (c as int + 32) as char
    else c
  }

  function Lowercase(s: string): (r: string)
    ensures |r| == |s|
    ensures forall k :: 0 <= k < |s| ==> r[k] == LowerChar(s[k])
  {
    seq(|s|, k requires 0 <= k < |s| => LowerChar(s[k]))
  }

  /** `sub` occurs in `s` starting at position `k`. */
  predicate OccursAt(s: string, sub: string, k: int)
  {
    0 <= k <= |s| - |sub| && s[k..k + |sub|] == sub
  }

  /** `s.includes(sub)`. */
  predicate Contains(s: string, sub: string)
  {
    exists k | 0 <= k <= |s| - |sub| :: OccursAt(s, sub, k)
  }

  /** A string misses every substring that has a character it lacks. */
  lemma NotContainedWithout(s: string, sub: string, k: nat)
    requires k < |sub| && sub[k] !in s
    ensures !Contains(s, sub)
  {
    forall i | 0 <= i <= |s| - |sub|
      ensures !OccursAt(s, sub, i)
    {
      assert s[i + k] in s;
    }
  }

  datatype Icon = Printer | Wifi | FileText | Wrench

  /** The icon of a service, decided on its lower-cased name with priority:
      photocopy or printing, then Internet, then documents, then the wrench. */
  function ServiceIcon(name: string): (r: Icon)
    ensures var n := Lowercase(name);
            && (r == Printer <==> Contains(n, "xerox") || Contains(n, "impressão"))
            && (r == Wifi <==> !Contains(n, "xerox") && !Contains(n, "impressão") && Contains(n, "internet"))
            && (r == FileText <==> !Contains(n, "xerox") && !Contains(n, "impressão")
                                   && !Contains(n, "internet") && Contains(n, "documento"))
            && (r == Wrench <==> !Contains(n, "xerox") && !Contains(n, "impressão")
                                 && !Contains(n, "internet") && !Contains(n, "documento"))
  {
    var n := Lowercase(name);
    if Contains(n, "xerox") || Contains(n, "impressão") then Printer
    else if Contains(n, "internet") then Wifi
    else if Contains(n, "documento") then FileText
    else Wrench
  }

  /** Lower-casing twice is lower-casing once. */
  lemma LowercaseIdempotent(s: string)
    ensures Lowercase(Lowercase(s)) == Lowercase(s)
  {
  }

  /** An occurrence of `sub` in `s` is an occurrence of the lower-cased
      `sub` in the lower-cased `s`, at the same position. */
  lemma LowercaseKeepsOccurrence(s: string, sub: string, k: int)
    requires OccursAt(s, sub, k)
    ensures OccursAt(Lowercase(s), Lowercase(sub), k)
  {
    assert Lowercase(s)[k..k + |sub|] == Lowercase(sub) by {
      forall i | 0 <= i < |sub|
        ensures Lowercase(s)[k..k + |sub|][i] == Lowercase(sub)[i]
      {
        assert s[k + i] == sub[i];
      }
    }
  }

  /** The icon does not depend on letter case: a name and its lower-cased
      form get the same icon. */
  lemma IconIgnoresCase(name: string)
    ensures ServiceIcon(Lowercase(name)) == ServiceIcon(name)
  {
    LowercaseIdempotent(name);
  }

  /** Any name containing "Xerox" as written gets the printer. */
  lemma CapitalXeroxIsPrinter(name: string, k: int)
    requires OccursAt(name, "Xerox", k)
    ensures ServiceIcon(name) == Printer
  {
    LowercaseKeepsOccurrence(name, "Xerox", k);
    assert Lowercase("Xerox") == "xerox";
  }

  /** The four catalog services get four fitting icons: both printing
      services show the printer. */
  lemma PrinterIcons()
    ensures ServiceIcon("Xerox") == Printer
    ensures ServiceIcon("Impressão") == Printer
  {
    var x := Lowercase("Xerox");
    assert x == "xerox";
    assert OccursAt(x, "xerox", 0);
    var p := Lowercase("Impressão");
    assert p == "impressão";
    assert OccursAt(p, "impressão", 0);
  }

  lemma InternetIcon()
    ensures ServiceIcon("Acesso à Internet") == Wifi
  {
    var n := Lowercase("Acesso à Internet");
    assert n == "acesso à internet";
    NotContainedWithout(n, "xerox", 0);
    NotContainedWithout(n, "impressão", 2);
    assert OccursAt(n, "internet", 9);
  }

  lemma DocumentsIcon()
    ensures ServiceIcon("Emissão de Documentos") == FileText
  {
    var n := Lowercase("Emissão de Documentos");
    assert n == "emissão de documentos";
    NotContainedWithout(n, "xerox", 0);
    NotContainedWithout(n, "impressão", 2);
    NotContainedWithout(n, "internet", 4);
    assert OccursAt(n, "documento", 11);
  }
}
