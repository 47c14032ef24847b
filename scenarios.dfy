/**
 * A supply-chain run through the consolidated contract: a manufacturer registers and adds a
 * drug, ships it to a registered distributor, and a registered transporter delivers it.
 */
module Scenarios {
  import opened Ledger
  import opened Pharmanet
  import Delivery

  /** The world state after a manufacturer `m` registers and adds drug (name, serial), and a
      distributor `d` and a transporter `t` register. */
  function Setup(st: Store, m: string, d: string, t: string, mId: string, name: string, serial: string): Store
  {
    var st1 := RegisterCompanyStep(st, m, "M1", "Pune", Manufacturer).store;
    var st2 := AddDrugStep(st1, mId, m, name, serial, "2020-01-01", "2023-01-01").store;
    var st3 := RegisterCompanyStep(st2, d, "D1", "Delhi", Distributor).store;
    RegisterCompanyStep(st3, t, "T1", "Mumbai", Transporter).store
  }

  /** Starting from a ledger where none of the three CRNs and not the drug is known, each
      registration succeeds and the drug is added owned by the manufacturer's identity, with
      an empty history; the manufacturer may ship but not order, the transporter may deliver. */
  lemma SetupRegistersAll(st: Store, m: string, d: string, t: string, mId: string, name: string, serial: string)
    requires m != d && m != t && d != t
    requires CompanyKey(m) !in st && CompanyKey(d) !in st && CompanyKey(t) !in st && DrugKey(name, serial) !in st
    ensures var st4 := Setup(st, m, d, t, mId, name, serial);
      && CallerMay(st4, m, CreateShipmentOp) && !CallerMay(st4, m, CreatePOOp)
      && CallerMay(st4, t, UpdateShipmentOp)
      && CompanyAt(st4, CompanyKey(d)).Some?
      && ViewDrugCurrentState(st4, name, serial).Ok?
      && ViewDrugCurrentState(st4, name, serial).value.owner == Identity(mId)
      && ViewHistory(st4, name, serial) == Ok([])
  {
    var st1 := RegisterCompanyStep(st, m, "M1", "Pune", Manufacturer).store;
    assert CallerMay(st1, m, AddDrugOp);
    var st2 := AddDrugStep(st1, mId, m, name, serial, "2020-01-01", "2023-01-01").store;
    var st3 := RegisterCompanyStep(st2, d, "D1", "Delhi", Distributor).store;
    assert CompanyAt(st3, CompanyKey(m)) == CompanyAt(st1, CompanyKey(m));
  }

  /** From such a ledger, the manufacturer ships the drug to the distributor and the transporter
      delivers it: the drug's history is exactly this shipment and the distributor owns it. */
  lemma ShipAndDeliver(st: Store, m: string, d: string, t: string, mId: string, name: string, serial: string)
    requires m != d && m != t && d != t
    requires CompanyKey(m) !in st && CompanyKey(d) !in st && CompanyKey(t) !in st && DrugKey(name, serial) !in st
    ensures var st4 := Setup(st, m, d, t, mId, name, serial);
      var o5 := CreateShipmentStep(st4, mId, m, d, name, [DrugKey(name, serial)], t);
      var o6 := UpdateShipmentStep(o5.store, t, d, name);
      && o5.result.Ok? && o5.result.value.status == InTransit
      && o6.result.Ok? && o6.result.value.status == Delivered
      && ViewHistory(o6.store, name, serial) == Ok([ShipmentKey(d, name)])
      && ViewDrugCurrentState(o6.store, name, serial).Ok?
      && ViewDrugCurrentState(o6.store, name, serial).value.owner == CompanyRef(CompanyKey(d))
  {
    var st4 := Setup(st, m, d, t, mId, name, serial);
    SetupRegistersAll(st, m, d, t, mId, name, serial);
    var dk := DrugKey(name, serial);
    var o5 := CreateShipmentStep(st4, mId, m, d, name, [dk], t);
    assert DrugAt(o5.store, dk) == DrugAt(st4, dk);
    assert CompanyAt(o5.store, CompanyKey(t)) == CompanyAt(st4, CompanyKey(t));
    UpdateShipmentAppends(o5.store, t, d, name, dk);
  }

  /** The run with concrete names: Paracetamol SN1 shipped from MFR01 to DIST01 by TRN01. */
  lemma ParacetamolDelivered()
    ensures var st4 := Setup(map[], "MFR01", "DIST01", "TRN01", "m1-identity", "Paracetamol", "SN1");
      var o5 := CreateShipmentStep(st4, "m1-identity", "MFR01", "DIST01", "Paracetamol", [DrugKey("Paracetamol", "SN1")], "TRN01");
      && CreatePOStep(st4, "m1-identity", "MFR01", "MFR01", "DIST01", "Paracetamol", "10").result == Err(NotAllowed)
      && ViewHistory(UpdateShipmentStep(o5.store, "TRN01", "DIST01", "Paracetamol").store, "Paracetamol", "SN1")
           == Ok([ShipmentKey("DIST01", "Paracetamol")])
  {
    // The three CRNs are distinct: they start with "M", "D" and "T".
    assert "MFR01"[0] != "DIST01"[0] && "MFR01"[0] != "TRN01"[0] && "DIST01"[0] != "TRN01"[0];
    SetupRegistersAll(map[], "MFR01", "DIST01", "TRN01", "m1-identity", "Paracetamol", "SN1");
    ShipAndDeliver(map[], "MFR01", "DIST01", "TRN01", "m1-identity", "Paracetamol", "SN1");
  }
}
