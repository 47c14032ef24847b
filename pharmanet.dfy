/**
 * The consolidated pharma-net contract (`org.pharma-net.pharmanet`): company registration,
 * drugs, purchase orders, shipments and their delivery, retail sale and the two views.
 *
 * Every gated operation looks up the caller's company role first. The contract passes an
 * unbound, undefined CRN to that lookup; here the caller's CRN is an explicit parameter.
 * Each operation is a `...Step` function from the world state to an `Outcome` (what the
 * operation returns and the world state after it), and a method of the same name as the
 * contract's operation that runs it against the ledger stub.
 */
module Pharmanet {
  import opened Ledger
  import Delivery

  const CompanyNS := "org.pharma-net.pharmanet.company"
  const DrugNS := "org.pharma-net.pharmanet.drug"
  const PurchaseOrderNS := "org.pharma-net.pharmanet.po"
  const ShipmentNS := "org.pharma-net.pharmanet.shipment"

  function CompanyKey(crn: string): Key { Key(CompanyNS, [crn]) }
  function DrugKey(drugName: string, serialNo: string): Key { Key(DrugNS, [drugName, serialNo]) }
  function PurchaseOrderKey(buyerCRN: string, drugName: string): Key { Key(PurchaseOrderNS, [buyerCRN, drugName]) }
  function ShipmentKey(buyerCRN: string, drugName: string): Key { Key(ShipmentNS, [buyerCRN, drugName]) }

  // ---------------------------------------------------------------------------------------
  // Roles and the authorisation policy

  /** getCompanyRole: the role stored in the company record of `crn`. */
  function CompanyRole(st: Store, crn: string): (r: Result<RoleName>)
    ensures r.Ok? <==> CompanyAt(st, CompanyKey(crn)).Some?
    ensures r.Ok? ==> r.value == CompanyAt(st, CompanyKey(crn)).value.role
    ensures r.Err? ==> r.error == NotFound(CompanyKey(crn))
  {
    match CompanyAt(st, CompanyKey(crn))
    case None => Err(NotFound(CompanyKey(crn)))
    case Some(c) => Ok(c.role)
  }

  /** The hierarchy key a registration assigns: "1", "2", "3" for the three ranked roles, none otherwise. */
  function HierarchyKey(role: RoleName): (h: Option<string>)
    ensures h == Some("1") <==> role == Manufacturer
    ensures h == Some("2") <==> role == Distributor
    ensures h == Some("3") <==> role == Retailer
    ensures h == None <==> role != Manufacturer && role != Distributor && role != Retailer
  {
    match role
    case Manufacturer => Some("1")
    case Distributor => Some("2")
    case Retailer => Some("3")
    case _ => None
  }

  /** The gated operations. */
  datatype Operation = AddDrugOp | CreatePOOp | CreateShipmentOp | UpdateShipmentOp | RetailDrugOp

  /** Which roles may invoke which operation. */
  predicate MayInvoke(op: Operation, role: RoleName)
  {
    match op
    case AddDrugOp => role == Manufacturer
    case CreatePOOp => role == Distributor || role == Retailer
    case CreateShipmentOp => role == Manufacturer || role == Distributor
    case UpdateShipmentOp => role == Transporter
    case RetailDrugOp => role == Retailer
  }

  /** The caller with company `crn` is registered and its role may invoke `op`. */
  predicate CallerMay(st: Store, crn: string, op: Operation)
  {
    CompanyRole(st, crn).Ok? && MayInvoke(op, CompanyRole(st, crn).value)
  }

  /** The role check at the head of every gated operation: an unregistered caller is not
      found, a registered caller of the wrong role is not allowed. */
  function Authorize(st: Store, crn: string, op: Operation): (r: Result<RoleName>)
    ensures r.Ok? <==> CallerMay(st, crn, op)
    ensures CompanyAt(st, CompanyKey(crn)).None? ==> r == Err(NotFound(CompanyKey(crn)))
    ensures CompanyAt(st, CompanyKey(crn)).Some? && !CallerMay(st, crn, op) ==> r == Err(NotAllowed)
  {
    match CompanyRole(st, crn)
    case Err(e) => Err(e)
    case Ok(role) => if MayInvoke(op, role) then Ok(role) else Err(NotAllowed)
  }

  // ---------------------------------------------------------------------------------------
  // Company registry

  function RegisterCompanyStep(st: Store, crn: string, name: string, location: string, role: RoleName): (o: Outcome<Company>)
    ensures role == Consumer ==> o == Outcome(Err(NotAllowed), st)
    ensures role != Consumer && CompanyKey(crn) in st ==> o == Outcome(Err(AlreadyRegistered(CompanyKey(crn))), st)
    ensures o.result.Ok? <==> role != Consumer && CompanyKey(crn) !in st
    ensures o.result.Ok? ==>
      && o.result.value == Company(CompanyKey(crn), name, location, role, HierarchyKey(role))
      && o.store == st[CompanyKey(crn) := CompanyRecord(o.result.value)]
  {
    if role == Consumer then Outcome(Err(NotAllowed), st)
    else if CompanyKey(crn) in st then Outcome(Err(AlreadyRegistered(CompanyKey(crn))), st)
    else
      var c := Company(CompanyKey(crn), name, location, role, HierarchyKey(role));
      Outcome(Ok(c), st[CompanyKey(crn) := CompanyRecord(c)])
  }

  method RegisterCompany(ctx: Stub, crn: string, name: string, location: string, role: RoleName) returns (r: Result<Company>)
    modifies ctx
    ensures r == RegisterCompanyStep(old(ctx.state), crn, name, location, role).result
    ensures ctx.state == RegisterCompanyStep(old(ctx.state), crn, name, location, role).store
  {
    if role == Consumer {
      return Err(NotAllowed);
    }
    var hierarchy := HierarchyKey(role);
    var companyKey := CompanyKey(crn);
    var existing := ctx.GetState(companyKey);
    if existing.Some? {
      return Err(AlreadyRegistered(companyKey));
    }
    var company := Company(companyKey, name, location, role, hierarchy);
    ctx.PutState(companyKey, CompanyRecord(company));
    r := Ok(company);
  }

  /** A CRN is registered at most once: a second registration is refused and keeps the first record. */
  lemma RegisterTwiceRefused(st: Store, crn: string, name: string, location: string, role: RoleName,
                             name': string, location': string, role': RoleName)
    requires RegisterCompanyStep(st, crn, name, location, role).result.Ok?
    ensures var st1 := RegisterCompanyStep(st, crn, name, location, role).store;
      && RegisterCompanyStep(st1, crn, name', location', role').result.Err?
      && RegisterCompanyStep(st1, crn, name', location', role').store == st1
      && CompanyAt(st1, CompanyKey(crn)) == Some(Company(CompanyKey(crn), name, location, role, HierarchyKey(role)))
  {
  }

  // ---------------------------------------------------------------------------------------
  // Drug registry

  /** addDrug as the contract evidently intends it: a free (name, serialNo) key gets a new drug
      owned and manufactured by the caller, with no shipments yet. */
  function AddDrugStep(st: Store, callerId: string, companyCRN: string, drugName: string, serialNo: string,
                       mfgDate: string, expDate: string): (o: Outcome<Drug>)
    ensures o.result.Err? ==> o.store == st
    ensures !CallerMay(st, companyCRN, AddDrugOp) ==> o.result == Err(Authorize(st, companyCRN, AddDrugOp).error)
    ensures CallerMay(st, companyCRN, AddDrugOp) && DrugKey(drugName, serialNo) in st ==>
      o.result == Err(AlreadyRegistered(DrugKey(drugName, serialNo)))
    ensures o.result.Ok? <==> CallerMay(st, companyCRN, AddDrugOp) && DrugKey(drugName, serialNo) !in st
    ensures o.result.Ok? ==>
      && o.store == st[DrugKey(drugName, serialNo) := DrugRecord(o.result.value)]
      && o.result.value.owner == Identity(callerId)
      && o.result.value.manufacturer == callerId
      && o.result.value.shipments == []
      && o.result.value.id == DrugKey(drugName, serialNo)
      && o.result.value.name == drugName && o.result.value.mfgDate == mfgDate && o.result.value.expDate == expDate
  {
    match Authorize(st, companyCRN, AddDrugOp)
    case Err(e) => Outcome(Err(e), st)
    case Ok(_) =>
      var drugKey := DrugKey(drugName, serialNo);
      if drugKey in st then Outcome(Err(AlreadyRegistered(drugKey)), st)
      else
        var drug := Drug(drugKey, drugName, callerId, mfgDate, expDate, Identity(callerId), []);
        Outcome(Ok(drug), st[drugKey := DrugRecord(drug)])
  }

  method AddDrug(ctx: Stub, callerId: string, drugName: string, serialNo: string, mfgDate: string, expDate: string,
                 companyCRN: string) returns (r: Result<Drug>)
    modifies ctx
    ensures r == AddDrugStep(old(ctx.state), callerId, companyCRN, drugName, serialNo, mfgDate, expDate).result
    ensures ctx.state == AddDrugStep(old(ctx.state), callerId, companyCRN, drugName, serialNo, mfgDate, expDate).store
  {
    var role := Authorize(ctx.state, companyCRN, AddDrugOp);
    if role.Err? {
      return Err(role.error);
    }
    var drugKey := DrugKey(drugName, serialNo);
    var existing := ctx.GetState(drugKey);
    if existing.Some? {
      return Err(AlreadyRegistered(drugKey));
    }
    var drug := Drug(drugKey, drugName, callerId, mfgDate, expDate, Identity(callerId), []);
    ctx.PutState(drugKey, DrugRecord(drug));
    r := Ok(drug);
  }

  // ---------------------------------------------------------------------------------------
  // Purchase orders

  /** createPO: keyed by (buyerCRN, drugName); the buyer is the caller's identity, the seller the
      company key of `sellerCRN`, the quantity kept verbatim. The contract does not look the
      seller up, does not check the quantity or the hierarchy, and overwrites an existing order. */
  function CreatePOStep(st: Store, callerId: string, callerCRN: string, buyerCRN: string, sellerCRN: string,
                        drugName: string, quantity: string): (o: Outcome<PurchaseOrder>)
    ensures o.result.Err? ==> o.store == st && Authorize(st, callerCRN, CreatePOOp).Err? && o.result == Err(Authorize(st, callerCRN, CreatePOOp).error)
    ensures o.result.Ok? <==> CallerMay(st, callerCRN, CreatePOOp)
    ensures o.result.Ok? ==>
      && o.store == st[PurchaseOrderKey(buyerCRN, drugName) := PORecord(o.result.value)]
      && o.result.value == PurchaseOrder(PurchaseOrderKey(buyerCRN, drugName), drugName, quantity, callerId, CompanyKey(sellerCRN))
  {
    match Authorize(st, callerCRN, CreatePOOp)
    case Err(e) => Outcome(Err(e), st)
    case Ok(_) =>
      var po := PurchaseOrder(PurchaseOrderKey(buyerCRN, drugName), drugName, quantity, callerId, CompanyKey(sellerCRN));
      Outcome(Ok(po), st[po.id := PORecord(po)])
  }

  method CreatePO(ctx: Stub, callerId: string, callerCRN: string, buyerCRN: string, sellerCRN: string,
                  drugName: string, quantity: string) returns (r: Result<PurchaseOrder>)
    modifies ctx
    ensures r == CreatePOStep(old(ctx.state), callerId, callerCRN, buyerCRN, sellerCRN, drugName, quantity).result
    ensures ctx.state == CreatePOStep(old(ctx.state), callerId, callerCRN, buyerCRN, sellerCRN, drugName, quantity).store
  {
    var role := Authorize(ctx.state, callerCRN, CreatePOOp);
    if role.Err? {
      return Err(role.error);
    }
    var poKey := PurchaseOrderKey(buyerCRN, drugName);
    var sellerKey := CompanyKey(sellerCRN);
    var po := PurchaseOrder(poKey, drugName, quantity, callerId, sellerKey);
    ctx.PutState(poKey, PORecord(po));
    r := Ok(po);
  }

  // ---------------------------------------------------------------------------------------
  // Shipments

  /** createShipment: keyed by (buyerCRN, drugName), in transit, carrying the given assets, with
      the company key of `transporterCRN` as transporter. No check on the assets or on an
      existing shipment under the same key. */
  function CreateShipmentStep(st: Store, callerId: string, callerCRN: string, buyerCRN: string, drugName: string,
                              assets: seq<Key>, transporterCRN: string): (o: Outcome<Shipment>)
    ensures o.result.Err? ==> o.store == st && Authorize(st, callerCRN, CreateShipmentOp).Err? && o.result == Err(Authorize(st, callerCRN, CreateShipmentOp).error)
    ensures o.result.Ok? <==> CallerMay(st, callerCRN, CreateShipmentOp)
    ensures o.result.Ok? ==>
      && o.store == st[ShipmentKey(buyerCRN, drugName) := ShipmentRecord(o.result.value)]
      && o.result.value == Shipment(ShipmentKey(buyerCRN, drugName), callerId, assets, CompanyKey(transporterCRN), InTransit)
  {
    match Authorize(st, callerCRN, CreateShipmentOp)
    case Err(e) => Outcome(Err(e), st)
    case Ok(_) =>
      var s := Shipment(ShipmentKey(buyerCRN, drugName), callerId, assets, CompanyKey(transporterCRN), InTransit);
      Outcome(Ok(s), st[s.id := ShipmentRecord(s)])
  }

  method CreateShipment(ctx: Stub, callerId: string, callerCRN: string, buyerCRN: string, drugName: string,
                        assets: seq<Key>, transporterCRN: string) returns (r: Result<Shipment>)
    modifies ctx
    ensures r == CreateShipmentStep(old(ctx.state), callerId, callerCRN, buyerCRN, drugName, assets, transporterCRN).result
    ensures ctx.state == CreateShipmentStep(old(ctx.state), callerId, callerCRN, buyerCRN, drugName, assets, transporterCRN).store
  {
    var role := Authorize(ctx.state, callerCRN, CreateShipmentOp);
    if role.Err? {
      return Err(role.error);
    }
    var shipmentKey := ShipmentKey(buyerCRN, drugName);
    var transporterKey := CompanyKey(transporterCRN);
    var s := Shipment(shipmentKey, callerId, assets, transporterKey, InTransit);
    ctx.PutState(shipmentKey, ShipmentRecord(s));
    r := Ok(s);
  }

  /** updateShipment with the delivery cascade the contract documents: the shipment becomes
      delivered and every asset, loaded as a drug record, gets the shipment key appended and the
      buyer company as owner; all of it is written together, or nothing is written. Like the
      contract, there is no in-transit guard and no check that the caller is the shipment's
      transporter. */
  function UpdateShipmentStep(st: Store, callerCRN: string, buyerCRN: string, drugName: string): (o: Outcome<Shipment>)
    ensures o.result.Err? ==> o.store == st
    ensures o.result.Ok? <==>
      && CallerMay(st, callerCRN, UpdateShipmentOp)
      && ShipmentAt(st, ShipmentKey(buyerCRN, drugName)).Some?
      && forall a :: a in ShipmentAt(st, ShipmentKey(buyerCRN, drugName)).value.assets ==> DrugAt(st, a).Some?
    ensures CallerMay(st, callerCRN, UpdateShipmentOp) && ShipmentAt(st, ShipmentKey(buyerCRN, drugName)).None? ==>
      o.result == Err(NotFound(ShipmentKey(buyerCRN, drugName)))
    ensures o.result.Ok? ==>
      var sk := ShipmentKey(buyerCRN, drugName);
      var old_s := ShipmentAt(st, sk).value;
      && o.result.value == old_s.(status := Delivered)
      && ShipmentAt(o.store, sk) == Some(o.result.value)
      && o.store.Keys == st.Keys
      && forall k :: k in st && k != sk && k !in old_s.assets ==> o.store[k] == st[k]
  {
    match Authorize(st, callerCRN, UpdateShipmentOp)
    case Err(e) => Outcome(Err(e), st)
    case Ok(_) =>
      var shipmentKey := ShipmentKey(buyerCRN, drugName);
      var buyerKey := CompanyKey(buyerCRN);
      match ShipmentAt(st, shipmentKey)
      case None => Outcome(Err(NotFound(shipmentKey)), st)
      case Some(s) =>
        match Delivery.Deliver(st, s.assets, shipmentKey, buyerKey)
        case Err(e) => Outcome(Err(e), st)
        case Ok(staged) =>
          var delivered := s.(status := Delivered);
          Outcome(Ok(delivered), staged[shipmentKey := ShipmentRecord(delivered)])
  }

  method UpdateShipment(ctx: Stub, callerCRN: string, buyerCRN: string, drugName: string, transporterCRN: string)
    returns (r: Result<Shipment>)
    modifies ctx
    ensures r == UpdateShipmentStep(old(ctx.state), callerCRN, buyerCRN, drugName).result
    ensures ctx.state == UpdateShipmentStep(old(ctx.state), callerCRN, buyerCRN, drugName).store
  {
    var role := Authorize(ctx.state, callerCRN, UpdateShipmentOp);
    if role.Err? {
      return Err(role.error);
    }
    var shipmentKey := ShipmentKey(buyerCRN, drugName);
    var buyerKey := CompanyKey(buyerCRN);
    var found := ctx.GetState(shipmentKey);
    if !(found.Some? && found.value.ShipmentRecord?) {
      return Err(NotFound(shipmentKey));
    }
    var s := found.value.shipment;
    var staged := Delivery.StageDelivery(ctx.state, s.assets, shipmentKey, buyerKey);
    if staged.Err? {
      return Err(staged.error);
    }
    var delivered := s.(status := Delivered);
    ctx.PutAll(staged.value[shipmentKey := ShipmentRecord(delivered)]);
    r := Ok(delivered);
  }

  /** After a delivery, every drug of the world state that the shipment lists has the shipment
      key appended exactly once, however often it is listed, and the buyer company as owner;
      every drug it does not list keeps its record. */
  lemma UpdateShipmentEffect(st: Store, callerCRN: string, buyerCRN: string, drugName: string, k: Key)
    requires UpdateShipmentStep(st, callerCRN, buyerCRN, drugName).result.Ok?
    requires DrugAt(st, k).Some?
    ensures var s := ShipmentAt(st, ShipmentKey(buyerCRN, drugName)).value;
      DrugAt(UpdateShipmentStep(st, callerCRN, buyerCRN, drugName).store, k)
        == if k in s.assets then Some(Delivery.Handover(DrugAt(st, k).value, ShipmentKey(buyerCRN, drugName), CompanyKey(buyerCRN)))
           else DrugAt(st, k)
  {
    assert k != ShipmentKey(buyerCRN, drugName) by {
      assert ShipmentAt(st, ShipmentKey(buyerCRN, drugName)).Some?;
    }
  }

  /** Delivery of a shipment: the history of each listed drug grows by exactly the shipment key
      at its end, and its owner is the buyer company. */
  lemma UpdateShipmentAppends(st: Store, callerCRN: string, buyerCRN: string, drugName: string, drugKey: Key)
    requires UpdateShipmentStep(st, callerCRN, buyerCRN, drugName).result.Ok?
    requires drugKey in ShipmentAt(st, ShipmentKey(buyerCRN, drugName)).value.assets
    ensures var h, st' := DrugAt(st, drugKey).value.shipments, UpdateShipmentStep(st, callerCRN, buyerCRN, drugName).store;
      && DrugAt(st', drugKey).Some?
      && DrugAt(st', drugKey).value.owner == CompanyRef(CompanyKey(buyerCRN))
      && DrugAt(st', drugKey).value.shipments == h + [ShipmentKey(buyerCRN, drugName)]
  {
    UpdateShipmentEffect(st, callerCRN, buyerCRN, drugName, drugKey);
  }

  /** "delivered" is not terminal: delivering the same shipment again succeeds and appends the
      shipment key a second time. */
  lemma RedeliveryAppendsAgain(st: Store, callerCRN: string, buyerCRN: string, drugName: string, drugKey: Key)
    requires UpdateShipmentStep(st, callerCRN, buyerCRN, drugName).result.Ok?
    requires drugKey in ShipmentAt(st, ShipmentKey(buyerCRN, drugName)).value.assets
    ensures var st1 := UpdateShipmentStep(st, callerCRN, buyerCRN, drugName).store;
      var o2 := UpdateShipmentStep(st1, callerCRN, buyerCRN, drugName);
      && o2.result.Ok?
      && DrugAt(o2.store, drugKey).Some?
      && DrugAt(o2.store, drugKey).value.shipments
           == DrugAt(st, drugKey).value.shipments + [ShipmentKey(buyerCRN, drugName), ShipmentKey(buyerCRN, drugName)]
  {
    var sk := ShipmentKey(buyerCRN, drugName);
    var s := ShipmentAt(st, sk).value;
    var st1 := UpdateShipmentStep(st, callerCRN, buyerCRN, drugName).store;
    var ck := CompanyKey(callerCRN);
    assert DrugAt(st, ck).None? by {
      assert CompanyAt(st, ck).Some?;
    }
    assert ck !in s.assets;
    assert st1[ck] == st[ck];
    assert ShipmentAt(st1, sk).value.assets == s.assets;
    forall a | a in s.assets ensures DrugAt(st1, a).Some? {
      UpdateShipmentEffect(st, callerCRN, buyerCRN, drugName, a);
    }
    UpdateShipmentAppends(st, callerCRN, buyerCRN, drugName, drugKey);
    UpdateShipmentAppends(st1, callerCRN, buyerCRN, drugName, drugKey);
    var h := DrugAt(st, drugKey).value.shipments;
    assert h + [sk] + [sk] == h + [sk, sk];
  }

  // ---------------------------------------------------------------------------------------
  // Retail sale and the views

  /** retailDrug: the drug's owner becomes the customer; nothing else about it changes. */
  function RetailDrugStep(st: Store, retailerCRN: string, drugName: string, serialNo: string,
                          customerAadhar: string): (o: Outcome<Drug>)
    ensures o.result.Err? ==> o.store == st
    ensures o.result.Ok? <==> CallerMay(st, retailerCRN, RetailDrugOp) && DrugAt(st, DrugKey(drugName, serialNo)).Some?
    ensures CallerMay(st, retailerCRN, RetailDrugOp) && DrugAt(st, DrugKey(drugName, serialNo)).None? ==>
      o.result == Err(NotFound(DrugKey(drugName, serialNo)))
    ensures o.result.Ok? ==>
      && o.result.value.owner == Customer(customerAadhar)
      && o.result.value.(owner := DrugAt(st, DrugKey(drugName, serialNo)).value.owner) == DrugAt(st, DrugKey(drugName, serialNo)).value
      && o.store == st[DrugKey(drugName, serialNo) := DrugRecord(o.result.value)]
  {
    match Authorize(st, retailerCRN, RetailDrugOp)
    case Err(e) => Outcome(Err(e), st)
    case Ok(_) =>
      var drugKey := DrugKey(drugName, serialNo);
      match DrugAt(st, drugKey)
      case None => Outcome(Err(NotFound(drugKey)), st)
      case Some(d) =>
        var sold := d.(owner := Customer(customerAadhar));
        Outcome(Ok(sold), st[drugKey := DrugRecord(sold)])
  }

  method RetailDrug(ctx: Stub, drugName: string, serialNo: string, retailerCRN: string, customerAadhar: string)
    returns (r: Result<Drug>)
    modifies ctx
    ensures r == RetailDrugStep(old(ctx.state), retailerCRN, drugName, serialNo, customerAadhar).result
    ensures ctx.state == RetailDrugStep(old(ctx.state), retailerCRN, drugName, serialNo, customerAadhar).store
  {
    var role := Authorize(ctx.state, retailerCRN, RetailDrugOp);
    if role.Err? {
      return Err(role.error);
    }
    var drugKey := DrugKey(drugName, serialNo);
    var found := ctx.GetState(drugKey);
    if !(found.Some? && found.value.DrugRecord?) {
      return Err(NotFound(drugKey));
    }
    var sold := found.value.drug.(owner := Customer(customerAadhar));
    ctx.PutState(drugKey, DrugRecord(sold));
    r := Ok(sold);
  }

  /** viewHistory: the drug's shipment list as stored. */
  function ViewHistory(st: Store, drugName: string, serialNo: string): (r: Result<seq<Key>>)
    ensures r.Ok? <==> DrugAt(st, DrugKey(drugName, serialNo)).Some?
    ensures r.Ok? ==> r.value == DrugAt(st, DrugKey(drugName, serialNo)).value.shipments
    ensures r.Err? ==> r.error == NotFound(DrugKey(drugName, serialNo))
  {
    match DrugAt(st, DrugKey(drugName, serialNo))
    case None => Err(NotFound(DrugKey(drugName, serialNo)))
    case Some(d) => Ok(d.shipments)
  }

  /** viewDrugCurrentState: the drug record as stored. */
  function ViewDrugCurrentState(st: Store, drugName: string, serialNo: string): (r: Result<Drug>)
    ensures r.Ok? <==> DrugKey(drugName, serialNo) in st && st[DrugKey(drugName, serialNo)].DrugRecord?
    ensures r.Ok? ==> st[DrugKey(drugName, serialNo)] == DrugRecord(r.value)
    ensures r.Err? ==> r.error == NotFound(DrugKey(drugName, serialNo))
  {
    match DrugAt(st, DrugKey(drugName, serialNo))
    case None => Err(NotFound(DrugKey(drugName, serialNo)))
    case Some(d) => Ok(d)
  }

  /** Reading a drug right after adding it gives the record addDrug returned: owned by its creator,
      with an empty history. */
  lemma AddDrugThenView(st: Store, callerId: string, companyCRN: string, drugName: string, serialNo: string,
                        mfgDate: string, expDate: string)
    requires AddDrugStep(st, callerId, companyCRN, drugName, serialNo, mfgDate, expDate).result.Ok?
    ensures var o := AddDrugStep(st, callerId, companyCRN, drugName, serialNo, mfgDate, expDate);
      && ViewDrugCurrentState(o.store, drugName, serialNo) == Ok(o.result.value)
      && ViewDrugCurrentState(o.store, drugName, serialNo).value.owner == Identity(callerId)
      && ViewHistory(o.store, drugName, serialNo) == Ok([])
  {
  }
}
