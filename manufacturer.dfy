/**
 * The manufacturer contract (`org.pharma-net.manufacturer`): an earlier variant of company
 * registration, drug creation and shipment creation, with its own key namespaces and with no
 * role, existence or duplicate checks. Every mutating operation writes exactly one key.
 */
module Manufacturer {
  import opened Ledger

  const CompanyNS := "org.pharma-net.company"
  const DrugNS := "org.pharma-net.manufacturer.drug"
  const ShipmentNS := "org.pharma-net.manufacturer.shipment"

  function CompanyKey(crn: string): Key { Key(CompanyNS, [crn]) }
  function DrugKey(drugName: string, serialNo: string): Key { Key(DrugNS, [drugName, serialNo]) }
  function ShipmentKey(buyerCRN: string, drugName: string): Key { Key(ShipmentNS, [buyerCRN, drugName]) }

  /** registerCompany: hierarchy key "1" whatever role is passed, and no check for an existing
      company, so a second registration of the same CRN replaces the first. */
  function RegisterCompanyStep(st: Store, crn: string, name: string, location: string, role: RoleName): (o: Outcome<Company>)
    ensures o.result.Ok?
    ensures o.result.value.hierarchy == Some("1")
    ensures o.result.value.role == role && o.result.value.name == name && o.result.value.location == location
    ensures CompanyAt(o.store, CompanyKey(crn)) == Some(o.result.value)
    ensures OnlyChanged(st, o.store, {CompanyKey(crn)})
  {
    var c := Company(CompanyKey(crn), name, location, role, Some("1"));
    Outcome(Ok(c), st[c.id := CompanyRecord(c)])
  }

  method RegisterCompany(ctx: Stub, crn: string, name: string, location: string, role: RoleName) returns (r: Result<Company>)
    modifies ctx
    ensures r == RegisterCompanyStep(old(ctx.state), crn, name, location, role).result
    ensures ctx.state == RegisterCompanyStep(old(ctx.state), crn, name, location, role).store
  {
    var companyKey := CompanyKey(crn);
    var company := Company(companyKey, name, location, role, Some("1"));
    ctx.PutState(companyKey, CompanyRecord(company));
    r := Ok(company);
  }

  /** The latest registration of a CRN is the one stored. */
  lemma RegisterOverwrites(st: Store, crn: string, name: string, location: string, role: RoleName,
                           name': string, location': string, role': RoleName)
    ensures var st1 := RegisterCompanyStep(st, crn, name, location, role).store;
      CompanyAt(RegisterCompanyStep(st1, crn, name', location', role').store, CompanyKey(crn))
        == Some(Company(CompanyKey(crn), name', location', role', Some("1")))
  {
  }

  /** addDrug: the drug is stored under (drugName, serialNo), owned and manufactured by the
      caller, with no shipments, replacing whatever was there. `companyCRN` is not used. */
  function AddDrugStep(st: Store, callerId: string, drugName: string, serialNo: string, mfgDate: string,
                       expDate: string, companyCRN: string): (o: Outcome<Drug>)
    ensures o.result.Ok?
    ensures o.result.value.owner == Identity(callerId) && o.result.value.manufacturer == callerId
    ensures o.result.value.shipments == []
    ensures o.result.value.name == drugName && o.result.value.mfgDate == mfgDate && o.result.value.expDate == expDate
    ensures DrugAt(o.store, DrugKey(drugName, serialNo)) == Some(o.result.value)
    ensures OnlyChanged(st, o.store, {DrugKey(drugName, serialNo)})
  {
    var d := Drug(DrugKey(drugName, serialNo), drugName, callerId, mfgDate, expDate, Identity(callerId), []);
    Outcome(Ok(d), st[d.id := DrugRecord(d)])
  }

  method AddDrug(ctx: Stub, callerId: string, drugName: string, serialNo: string, mfgDate: string, expDate: string,
                 companyCRN: string) returns (r: Result<Drug>)
    modifies ctx
    ensures r == AddDrugStep(old(ctx.state), callerId, drugName, serialNo, mfgDate, expDate, companyCRN).result
    ensures ctx.state == AddDrugStep(old(ctx.state), callerId, drugName, serialNo, mfgDate, expDate, companyCRN).store
  {
    var drugKey := DrugKey(drugName, serialNo);
    var drug := Drug(drugKey, drugName, callerId, mfgDate, expDate, Identity(callerId), []);
    ctx.PutState(drugKey, DrugRecord(drug));
    r := Ok(drug);
  }

  /** createShipment: stored under (buyerCRN, drugName) in this contract's shipment namespace,
      in transit, with the company key of `transporterCRN` as transporter. */
  function CreateShipmentStep(st: Store, callerId: string, buyerCRN: string, drugName: string, assets: seq<Key>,
                              transporterCRN: string): (o: Outcome<Shipment>)
    ensures o.result.Ok?
    ensures o.result.value.status == InTransit && o.result.value.assets == assets
    ensures o.result.value.transporter == CompanyKey(transporterCRN) && o.result.value.creator == callerId
    ensures ShipmentAt(o.store, ShipmentKey(buyerCRN, drugName)) == Some(o.result.value)
    ensures OnlyChanged(st, o.store, {ShipmentKey(buyerCRN, drugName)})
  {
    var s := Shipment(ShipmentKey(buyerCRN, drugName), callerId, assets, CompanyKey(transporterCRN), InTransit);
    Outcome(Ok(s), st[s.id := ShipmentRecord(s)])
  }

  method CreateShipment(ctx: Stub, callerId: string, buyerCRN: string, drugName: string, assets: seq<Key>,
                        transporterCRN: string) returns (r: Result<Shipment>)
    modifies ctx
    ensures r == CreateShipmentStep(old(ctx.state), callerId, buyerCRN, drugName, assets, transporterCRN).result
    ensures ctx.state == CreateShipmentStep(old(ctx.state), callerId, buyerCRN, drugName, assets, transporterCRN).store
  {
    var shipmentKey := ShipmentKey(buyerCRN, drugName);
    var transporterKey := CompanyKey(transporterCRN);
    var s := Shipment(shipmentKey, callerId, assets, transporterKey, InTransit);
    ctx.PutState(shipmentKey, ShipmentRecord(s));
    r := Ok(s);
  }

  /** viewHistory: the shipment list of the drug record addDrug writes. */
  function ViewHistory(st: Store, drugName: string, serialNo: string): (r: Result<seq<Key>>)
    ensures r.Ok? <==> DrugAt(st, DrugKey(drugName, serialNo)).Some?
    ensures r.Ok? ==> r.value == DrugAt(st, DrugKey(drugName, serialNo)).value.shipments
    ensures r.Err? ==> r.error == NotFound(DrugKey(drugName, serialNo))
  {
    match DrugAt(st, DrugKey(drugName, serialNo))
    case None => Err(NotFound(DrugKey(drugName, serialNo)))
    case Some(d) => Ok(d.shipments)
  }

  /** viewDrugCurrentState: the drug record addDrug writes. */
  function ViewDrugCurrentState(st: Store, drugName: string, serialNo: string): (r: Result<Drug>)
    ensures r.Ok? <==> DrugKey(drugName, serialNo) in st && st[DrugKey(drugName, serialNo)].DrugRecord?
    ensures r.Ok? ==> st[DrugKey(drugName, serialNo)] == DrugRecord(r.value)
    ensures r.Err? ==> r.error == NotFound(DrugKey(drugName, serialNo))
  {
    match DrugAt(st, DrugKey(drugName, serialNo))
    case None => Err(NotFound(DrugKey(drugName, serialNo)))
    case Some(d) => Ok(d)
  }

  /** The views read the key addDrug writes. */
  lemma AddDrugThenView(st: Store, callerId: string, drugName: string, serialNo: string, mfgDate: string,
                        expDate: string, companyCRN: string)
    ensures var o := AddDrugStep(st, callerId, drugName, serialNo, mfgDate, expDate, companyCRN);
      && ViewDrugCurrentState(o.store, drugName, serialNo) == Ok(o.result.value)
      && ViewHistory(o.store, drugName, serialNo) == Ok([])
  {
  }
}
