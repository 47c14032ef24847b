/**
 * The transporter contract (`org.pharma-net.transporter`): an earlier variant of company
 * registration, the delivery of a shipment, and views over the manufacturer contract's drugs.
 * Its delivery has no role check and looks the shipment up only among the shipments the
 * manufacturer contract creates.
 */
module Transporter {
  import opened Ledger
  import Delivery
  import Manufacturer
  import Distributor

  const CompanyNS := "org.pharma-net.company"
  /** Delivery reads the manufacturer contract's shipment namespace. */
  const ShipmentNS := "org.pharma-net.manufacturer.shipment"
  /** The views read the manufacturer contract's drug namespace. */
  const DrugNS := "org.pharma-net.manufacturer.drug"

  function CompanyKey(crn: string): Key { Key(CompanyNS, [crn]) }
  function ShipmentKey(buyerCRN: string, drugName: string): Key { Key(ShipmentNS, [buyerCRN, drugName]) }
  function DrugKey(drugName: string, serialNo: string): Key { Key(DrugNS, [drugName, serialNo]) }

  /** registerCompany: no hierarchy key whatever role is passed; a second registration of the
      same CRN replaces the first. */
  function RegisterCompanyStep(st: Store, crn: string, name: string, location: string, role: RoleName): (o: Outcome<Company>)
    ensures o.result.Ok?
    ensures o.result.value.hierarchy == None
    ensures o.result.value.role == role && o.result.value.name == name && o.result.value.location == location
    ensures CompanyAt(o.store, CompanyKey(crn)) == Some(o.result.value)
    ensures OnlyChanged(st, o.store, {CompanyKey(crn)})
  {
    var c := Company(CompanyKey(crn), name, location, role, None);
    Outcome(Ok(c), st[c.id := CompanyRecord(c)])
  }

  method RegisterCompany(ctx: Stub, crn: string, name: string, location: string, role: RoleName) returns (r: Result<Company>)
    modifies ctx
    ensures r == RegisterCompanyStep(old(ctx.state), crn, name, location, role).result
    ensures ctx.state == RegisterCompanyStep(old(ctx.state), crn, name, location, role).store
  {
    var companyKey := CompanyKey(crn);
    var company := Company(companyKey, name, location, role, None);
    ctx.PutState(companyKey, CompanyRecord(company));
    r := Ok(company);
  }

  /** The latest registration of a CRN is the one stored. */
  lemma RegisterOverwrites(st: Store, crn: string, name: string, location: string, role: RoleName,
                           name': string, location': string, role': RoleName)
    ensures var st1 := RegisterCompanyStep(st, crn, name, location, role).store;
      CompanyAt(RegisterCompanyStep(st1, crn, name', location', role').store, CompanyKey(crn))
        == Some(Company(CompanyKey(crn), name', location', role', None))
  {
  }

  /** updateShipment with the delivery cascade: the shipment becomes delivered and every asset
      drug gets the shipment key appended and the buyer company as owner, all written together,
      or nothing is written. No role check, no in-transit guard; `transporterCRN` is not used. */
  function UpdateShipmentStep(st: Store, buyerCRN: string, drugName: string, transporterCRN: string): (o: Outcome<Shipment>)
    ensures o.result.Err? ==> o.store == st
    ensures o.result.Ok? <==>
      && ShipmentAt(st, ShipmentKey(buyerCRN, drugName)).Some?
      && forall a :: a in ShipmentAt(st, ShipmentKey(buyerCRN, drugName)).value.assets ==> DrugAt(st, a).Some?
    ensures ShipmentAt(st, ShipmentKey(buyerCRN, drugName)).None? ==>
      o.result == Err(NotFound(ShipmentKey(buyerCRN, drugName)))
    ensures o.result.Ok? ==>
      var sk := ShipmentKey(buyerCRN, drugName);
      var old_s := ShipmentAt(st, sk).value;
      && o.result.value == old_s.(status := Delivered)
      && ShipmentAt(o.store, sk) == Some(o.result.value)
      && o.store.Keys == st.Keys
      && forall k :: k in st && k != sk && k !in old_s.assets ==> o.store[k] == st[k]
  {
    var shipmentKey := ShipmentKey(buyerCRN, drugName);
    var buyerKey := CompanyKey(buyerCRN);
    match ShipmentAt(st, shipmentKey)
    case None => Outcome(Err(NotFound(shipmentKey)), st)
    case Some(s) =>
      match Delivery.Deliver(st, s.assets, shipmentKey, buyerKey)
      case Err(e) => Outcome(Err(e), st)
      case Ok(staged) =>
        var delivered := s.(status := Delivered);
        Outcome(Ok(delivered), staged[shipmentKey := ShipmentRecord(delivered)])
  }

  method UpdateShipment(ctx: Stub, buyerCRN: string, drugName: string, transporterCRN: string)
    returns (r: Result<Shipment>)
    modifies ctx
    ensures r == UpdateShipmentStep(old(ctx.state), buyerCRN, drugName, transporterCRN).result
    ensures ctx.state == UpdateShipmentStep(old(ctx.state), buyerCRN, drugName, transporterCRN).store
  {
    var shipmentKey := ShipmentKey(buyerCRN, drugName);
    var buyerKey := CompanyKey(buyerCRN);
    var found := ctx.GetState(shipmentKey);
    if !(found.Some? && found.value.ShipmentRecord?) {
      return Err(NotFound(shipmentKey));
    }
    var s := found.value.shipment;
    var staged := Delivery.StageDelivery(ctx.state, s.assets, shipmentKey, buyerKey);
    if staged.Err? {
      return Err(staged.error);
    }
    var delivered := s.(status := Delivered);
    ctx.PutAll(staged.value[shipmentKey := ShipmentRecord(delivered)]);
    r := Ok(delivered);
  }

  /** Each listed drug's history grows by exactly the shipment key at its end, however often
      the shipment lists it, and its owner becomes the buyer company. */
  lemma UpdateShipmentAppends(st: Store, buyerCRN: string, drugName: string, transporterCRN: string, drugKey: Key)
    requires UpdateShipmentStep(st, buyerCRN, drugName, transporterCRN).result.Ok?
    requires drugKey in ShipmentAt(st, ShipmentKey(buyerCRN, drugName)).value.assets
    ensures var h, st' := DrugAt(st, drugKey).value.shipments, UpdateShipmentStep(st, buyerCRN, drugName, transporterCRN).store;
      && DrugAt(st', drugKey).Some?
      && DrugAt(st', drugKey).value.owner == CompanyRef(CompanyKey(buyerCRN))
      && DrugAt(st', drugKey).value.shipments == h + [ShipmentKey(buyerCRN, drugName)]
  {
    assert drugKey != ShipmentKey(buyerCRN, drugName) by {
      assert ShipmentAt(st, ShipmentKey(buyerCRN, drugName)).Some?;
    }
  }

  /** "delivered" is not terminal here either: a second delivery succeeds and appends the
      shipment key again. */
  lemma RedeliveryAppendsAgain(st: Store, buyerCRN: string, drugName: string, transporterCRN: string, drugKey: Key)
    requires UpdateShipmentStep(st, buyerCRN, drugName, transporterCRN).result.Ok?
    requires drugKey in ShipmentAt(st, ShipmentKey(buyerCRN, drugName)).value.assets
    ensures var st1 := UpdateShipmentStep(st, buyerCRN, drugName, transporterCRN).store;
      var o2 := UpdateShipmentStep(st1, buyerCRN, drugName, transporterCRN);
      && o2.result.Ok?
      && DrugAt(o2.store, drugKey).Some?
      && DrugAt(o2.store, drugKey).value.shipments
           == DrugAt(st, drugKey).value.shipments + [ShipmentKey(buyerCRN, drugName), ShipmentKey(buyerCRN, drugName)]
  {
    var sk := ShipmentKey(buyerCRN, drugName);
    var s := ShipmentAt(st, sk).value;
    var st1 := UpdateShipmentStep(st, buyerCRN, drugName, transporterCRN).store;
    assert ShipmentAt(st1, sk).value.assets == s.assets;
    forall a | a in s.assets ensures DrugAt(st1, a).Some? {
      assert a != sk;
    }
    UpdateShipmentAppends(st, buyerCRN, drugName, transporterCRN, drugKey);
    UpdateShipmentAppends(st1, buyerCRN, drugName, transporterCRN, drugKey);
    var h := DrugAt(st, drugKey).value.shipments;
    assert h + [sk] + [sk] == h + [sk, sk];
  }

  /** A shipment created by the distributor contract is never found by this delivery. */
  lemma DistributorShipmentUnreachable(st: Store, callerId: string, buyerCRN: string, drugName: string,
                                       assets: seq<Key>, transporterCRN: string)
    requires ShipmentAt(st, ShipmentKey(buyerCRN, drugName)).None?
    ensures var st1 := Distributor.CreateShipmentStep(st, callerId, buyerCRN, drugName, assets, transporterCRN).store;
      UpdateShipmentStep(st1, buyerCRN, drugName, transporterCRN) == Outcome(Err(NotFound(ShipmentKey(buyerCRN, drugName))), st1)
  {
    Distributor.ShipmentNamespacesDisjoint(buyerCRN, drugName, buyerCRN, drugName);
  }

  /** A shipment created by the manufacturer contract over drugs it registered is delivered:
      every asset ends up owned by the buyer company. */
  lemma ManufacturerShipmentDelivered(st: Store, callerId: string, buyerCRN: string, drugName: string,
                                      assets: seq<Key>, transporterCRN: string)
    requires forall a :: a in assets ==> a.ns == Manufacturer.DrugNS && DrugAt(st, a).Some?
    ensures var st1 := Manufacturer.CreateShipmentStep(st, callerId, buyerCRN, drugName, assets, transporterCRN).store;
      var o := UpdateShipmentStep(st1, buyerCRN, drugName, transporterCRN);
      && o.result.Ok?
      && o.result.value.status == Delivered
      && forall a :: a in assets ==> DrugAt(o.store, a).Some? && DrugAt(o.store, a).value.owner == CompanyRef(CompanyKey(buyerCRN))
  {
    var sk := ShipmentKey(buyerCRN, drugName);
    var st1 := Manufacturer.CreateShipmentStep(st, callerId, buyerCRN, drugName, assets, transporterCRN).store;
    assert sk == Manufacturer.ShipmentKey(buyerCRN, drugName);
    // "org.pharma-net.manufacturer." is 28 characters long; then "shipment" and "drug" differ
    // at their first letter, so no asset is the shipment's own key.
    assert Manufacturer.ShipmentNS[28] != Manufacturer.DrugNS[28];
    forall a | a in assets ensures DrugAt(st1, a).Some? {
      assert a != sk;
    }
  }

  function ViewHistory(st: Store, drugName: string, serialNo: string): (r: Result<seq<Key>>)
    ensures r.Ok? <==> DrugAt(st, DrugKey(drugName, serialNo)).Some?
    ensures r.Ok? ==> r.value == DrugAt(st, DrugKey(drugName, serialNo)).value.shipments
    ensures r.Err? ==> r.error == NotFound(DrugKey(drugName, serialNo))
  {
    match DrugAt(st, DrugKey(drugName, serialNo))
    case None => Err(NotFound(DrugKey(drugName, serialNo)))
    case Some(d) => Ok(d.shipments)
  }

  function ViewDrugCurrentState(st: Store, drugName: string, serialNo: string): (r: Result<Drug>)
    ensures r.Ok? <==> DrugKey(drugName, serialNo) in st && st[DrugKey(drugName, serialNo)].DrugRecord?
    ensures r.Ok? ==> st[DrugKey(drugName, serialNo)] == DrugRecord(r.value)
    ensures r.Err? ==> r.error == NotFound(DrugKey(drugName, serialNo))
  {
    match DrugAt(st, DrugKey(drugName, serialNo))
    case None => Err(NotFound(DrugKey(drugName, serialNo)))
    case Some(d) => Ok(d)
  }
}
