/**
 * The distributor contract (`org.pharma-net.distributor`): an earlier variant of company
 * registration, purchase orders and shipment creation, with no checks, plus views that read
 * the drug records of the manufacturer contract.
 */
module Distributor {
  import opened Ledger
  import Manufacturer

  const CompanyNS := "org.pharma-net.company"
  const PurchaseOrderNS := "org.pharma-net.distributor.po"
  const ShipmentNS := "org.pharma-net.distributor.shipment"
  /** The views of this contract read the manufacturer contract's drug namespace. */
  const DrugNS := "org.pharma-net.manufacturer.drug"

  function CompanyKey(crn: string): Key { Key(CompanyNS, [crn]) }
  function PurchaseOrderKey(buyerCRN: string, drugName: string): Key { Key(PurchaseOrderNS, [buyerCRN, drugName]) }
  function ShipmentKey(buyerCRN: string, drugName: string): Key { Key(ShipmentNS, [buyerCRN, drugName]) }
  function DrugKey(drugName: string, serialNo: string): Key { Key(DrugNS, [drugName, serialNo]) }

  /** registerCompany: hierarchy key "2" whatever role is passed; a second registration of the
      same CRN replaces the first. */
  function RegisterCompanyStep(st: Store, crn: string, name: string, location: string, role: RoleName): (o: Outcome<Company>)
    ensures o.result.Ok?
    ensures o.result.value.hierarchy == Some("2")
    ensures o.result.value.role == role && o.result.value.name == name && o.result.value.location == location
    ensures CompanyAt(o.store, CompanyKey(crn)) == Some(o.result.value)
    ensures OnlyChanged(st, o.store, {CompanyKey(crn)})
  {
    var c := Company(CompanyKey(crn), name, location, role, Some("2"));
    Outcome(Ok(c), st[c.id := CompanyRecord(c)])
  }

  method RegisterCompany(ctx: Stub, crn: string, name: string, location: string, role: RoleName) returns (r: Result<Company>)
    modifies ctx
    ensures r == RegisterCompanyStep(old(ctx.state), crn, name, location, role).result
    ensures ctx.state == RegisterCompanyStep(old(ctx.state), crn, name, location, role).store
  {
    var companyKey := CompanyKey(crn);
    var company := Company(companyKey, name, location, role, Some("2"));
    ctx.PutState(companyKey, CompanyRecord(company));
    r := Ok(company);
  }

  /** The latest registration of a CRN is the one stored. */
  lemma RegisterOverwrites(st: Store, crn: string, name: string, location: string, role: RoleName,
                           name': string, location': string, role': RoleName)
    ensures var st1 := RegisterCompanyStep(st, crn, name, location, role).store;
      CompanyAt(RegisterCompanyStep(st1, crn, name', location', role').store, CompanyKey(crn))
        == Some(Company(CompanyKey(crn), name', location', role', Some("2")))
  {
  }

  /** createPO: buyer = caller identity, seller = company key of `sellerCRN`, quantity verbatim;
      no role, quantity or hierarchy check, and an existing order is replaced. */
  function CreatePOStep(st: Store, callerId: string, buyerCRN: string, sellerCRN: string, drugName: string,
                        quantity: string): (o: Outcome<PurchaseOrder>)
    ensures o.result.Ok?
    ensures o.result.value.buyer == callerId && o.result.value.seller == CompanyKey(sellerCRN)
    ensures o.result.value.quantity == quantity && o.result.value.drugName == drugName
    ensures PurchaseOrderKey(buyerCRN, drugName) in o.store
    ensures o.store[PurchaseOrderKey(buyerCRN, drugName)] == PORecord(o.result.value)
    ensures OnlyChanged(st, o.store, {PurchaseOrderKey(buyerCRN, drugName)})
  {
    var po := PurchaseOrder(PurchaseOrderKey(buyerCRN, drugName), drugName, quantity, callerId, CompanyKey(sellerCRN));
    Outcome(Ok(po), st[po.id := PORecord(po)])
  }

  method CreatePO(ctx: Stub, callerId: string, buyerCRN: string, sellerCRN: string, drugName: string, quantity: string)
    returns (r: Result<PurchaseOrder>)
    modifies ctx
    ensures r == CreatePOStep(old(ctx.state), callerId, buyerCRN, sellerCRN, drugName, quantity).result
    ensures ctx.state == CreatePOStep(old(ctx.state), callerId, buyerCRN, sellerCRN, drugName, quantity).store
  {
    var poKey := PurchaseOrderKey(buyerCRN, drugName);
    var sellerKey := CompanyKey(sellerCRN);
    var po := PurchaseOrder(poKey, drugName, quantity, callerId, sellerKey);
    ctx.PutState(poKey, PORecord(po));
    r := Ok(po);
  }

  /** createShipment: stored under (buyerCRN, drugName) in this contract's shipment namespace,
      in transit. */
  function CreateShipmentStep(st: Store, callerId: string, buyerCRN: string, drugName: string, assets: seq<Key>,
                              transporterCRN: string): (o: Outcome<Shipment>)
    ensures o.result.Ok?
    ensures o.result.value.status == InTransit && o.result.value.assets == assets
    ensures o.result.value.transporter == CompanyKey(transporterCRN) && o.result.value.creator == callerId
    ensures ShipmentAt(o.store, ShipmentKey(buyerCRN, drugName)) == Some(o.result.value)
    ensures OnlyChanged(st, o.store, {ShipmentKey(buyerCRN, drugName)})
  {
    var s := Shipment(ShipmentKey(buyerCRN, drugName), callerId, assets, CompanyKey(transporterCRN), InTransit);
    Outcome(Ok(s), st[s.id := ShipmentRecord(s)])
  }

  method CreateShipment(ctx: Stub, callerId: string, buyerCRN: string, drugName: string, assets: seq<Key>,
                        transporterCRN: string) returns (r: Result<Shipment>)
    modifies ctx
    ensures r == CreateShipmentStep(old(ctx.state), callerId, buyerCRN, drugName, assets, transporterCRN).result
    ensures ctx.state == CreateShipmentStep(old(ctx.state), callerId, buyerCRN, drugName, assets, transporterCRN).store
  {
    var shipmentKey := ShipmentKey(buyerCRN, drugName);
    var transporterKey := CompanyKey(transporterCRN);
    var s := Shipment(shipmentKey, callerId, assets, transporterKey, InTransit);
    ctx.PutState(shipmentKey, ShipmentRecord(s));
    r := Ok(s);
  }

  function ViewHistory(st: Store, drugName: string, serialNo: string): (r: Result<seq<Key>>)
    ensures r.Ok? <==> DrugAt(st, DrugKey(drugName, serialNo)).Some?
    ensures r.Ok? ==> r.value == DrugAt(st, DrugKey(drugName, serialNo)).value.shipments
    ensures r.Err? ==> r.error == NotFound(DrugKey(drugName, serialNo))
  {
    match DrugAt(st, DrugKey(drugName, serialNo))
    case None => Err(NotFound(DrugKey(drugName, serialNo)))
    case Some(d) => Ok(d.shipments)
  }

  function ViewDrugCurrentState(st: Store, drugName: string, serialNo: string): (r: Result<Drug>)
    ensures r.Ok? <==> DrugKey(drugName, serialNo) in st && st[DrugKey(drugName, serialNo)].DrugRecord?
    ensures r.Ok? ==> st[DrugKey(drugName, serialNo)] == DrugRecord(r.value)
    ensures r.Err? ==> r.error == NotFound(DrugKey(drugName, serialNo))
  {
    match DrugAt(st, DrugKey(drugName, serialNo))
    case None => Err(NotFound(DrugKey(drugName, serialNo)))
    case Some(d) => Ok(d)
  }

  /** The distributor's views see exactly the drug the manufacturer contract's addDrug stored. */
  lemma ViewsReadManufacturerDrugs(st: Store, callerId: string, drugName: string, serialNo: string,
                                   mfgDate: string, expDate: string, companyCRN: string)
    ensures var o := Manufacturer.AddDrugStep(st, callerId, drugName, serialNo, mfgDate, expDate, companyCRN);
      && ViewDrugCurrentState(o.store, drugName, serialNo) == Ok(o.result.value)
      && ViewHistory(o.store, drugName, serialNo) == Ok([])
  {
  }

  /** A shipment created here never occupies the key a manufacturer shipment uses. */
  lemma ShipmentNamespacesDisjoint(buyerCRN: string, drugName: string, buyerCRN': string, drugName': string)
    ensures ShipmentKey(buyerCRN, drugName) != Manufacturer.ShipmentKey(buyerCRN', drugName')
  {
    // "org.pharma-net." is 15 characters long; the namespaces then go on with "distributor"
    // and "manufacturer", which differ at their first letter.
    assert ShipmentNS[15] != Manufacturer.ShipmentNS[15];
  }
}
