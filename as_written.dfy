/**
 * Two operations of the consolidated contract as their code runs them past the role check,
 * beside the corrected versions in module Pharmanet, with the inputs on which the two differ.
 * Both keep the role check in the form the whole model uses, on the caller's CRN given
 * explicitly; in the code the unbound role lookup throws before it is reached. Keeping it
 * isolates each defect to the lines that contain it.
 */
module AsWritten {
  import opened Ledger
  import opened Pharmanet

  /** addDrug as written: the existence check parses the stored bytes as JSON. For a free key
      the ledger returns an empty buffer, the parse throws and the transaction fails; for an
      occupied key the drug is reported as already registered. No drug is ever stored. */
  function AddDrugAsWrittenStep(st: Store, callerId: string, companyCRN: string, drugName: string, serialNo: string,
                                mfgDate: string, expDate: string): (o: Outcome<Drug>)
    ensures o.result.Err? && o.store == st
    ensures CallerMay(st, companyCRN, AddDrugOp) && DrugKey(drugName, serialNo) !in st ==>
      o.result == Err(NotFound(DrugKey(drugName, serialNo)))
  {
    match Authorize(st, companyCRN, AddDrugOp)
    case Err(e) => Outcome(Err(e), st)
    case Ok(_) =>
      var drugKey := DrugKey(drugName, serialNo);
      if drugKey !in st then Outcome(Err(NotFound(drugKey)), st)
      else Outcome(Err(AlreadyRegistered(drugKey)), st)
  }

  /** The input that shows it: a registered manufacturer adding a new drug. The code as written
      fails; the corrected step stores the drug. */
  lemma AddDrugDiscrepancy(st: Store, callerId: string, companyCRN: string, drugName: string, serialNo: string,
                           mfgDate: string, expDate: string)
    requires CallerMay(st, companyCRN, AddDrugOp)
    requires DrugKey(drugName, serialNo) !in st
    ensures AddDrugAsWrittenStep(st, callerId, companyCRN, drugName, serialNo, mfgDate, expDate).result
         == Err(NotFound(DrugKey(drugName, serialNo)))
    ensures AddDrugStep(st, callerId, companyCRN, drugName, serialNo, mfgDate, expDate).result.Ok?
    ensures ViewHistory(AddDrugStep(st, callerId, companyCRN, drugName, serialNo, mfgDate, expDate).store,
                        drugName, serialNo) == Ok([])
  {
  }

  /** updateShipment as written, past the role check: once the shipment is found, it iterates
      its stored asset list with `forEach`. That list is the `listOfAssets` argument of
      createShipment, stored as the string it arrives as, and a string has no `forEach`; were
      it parsed, its entries would be key strings, and `asset.shipment.push` on a string
      throws too. Either way the transaction aborts, and no record, not even the shipment,
      is written. */
  function UpdateShipmentAsWrittenStep(st: Store, callerCRN: string, buyerCRN: string, drugName: string): (o: Outcome<Shipment>)
    ensures o.result.Err? && o.store == st
    ensures CallerMay(st, callerCRN, UpdateShipmentOp) && ShipmentAt(st, ShipmentKey(buyerCRN, drugName)).Some? ==>
      o.result == Err(Aborted)
    ensures CallerMay(st, callerCRN, UpdateShipmentOp) && ShipmentAt(st, ShipmentKey(buyerCRN, drugName)).None? ==>
      o.result == Err(NotFound(ShipmentKey(buyerCRN, drugName)))
  {
    match Authorize(st, callerCRN, UpdateShipmentOp)
    case Err(e) => Outcome(Err(e), st)
    case Ok(_) =>
      var shipmentKey := ShipmentKey(buyerCRN, drugName);
      match ShipmentAt(st, shipmentKey)
      case None => Outcome(Err(NotFound(shipmentKey)), st)
      case Some(_) => Outcome(Err(Aborted), st)
  }

  /** The input that shows it: any successful delivery of a shipment listing a drug. As written,
      the transaction aborts and the drug's history and owner are what they were; corrected, the
      history has the shipment key at its end and the buyer company is the owner. */
  lemma UpdateShipmentDiscrepancy(st: Store, callerCRN: string, buyerCRN: string, drugName: string, drugKey: Key)
    requires UpdateShipmentStep(st, callerCRN, buyerCRN, drugName).result.Ok?
    requires drugKey in ShipmentAt(st, ShipmentKey(buyerCRN, drugName)).value.assets
    ensures var d := DrugAt(st, drugKey).value;
      && UpdateShipmentAsWrittenStep(st, callerCRN, buyerCRN, drugName).result == Err(Aborted)
      && DrugAt(UpdateShipmentAsWrittenStep(st, callerCRN, buyerCRN, drugName).store, drugKey) == Some(d)
      && DrugAt(UpdateShipmentStep(st, callerCRN, buyerCRN, drugName).store, drugKey).Some?
      && DrugAt(UpdateShipmentStep(st, callerCRN, buyerCRN, drugName).store, drugKey).value.shipments
           == d.shipments + [ShipmentKey(buyerCRN, drugName)]
      && DrugAt(UpdateShipmentStep(st, callerCRN, buyerCRN, drugName).store, drugKey).value.owner
           == CompanyRef(CompanyKey(buyerCRN))
  {
    var sk := ShipmentKey(buyerCRN, drugName);
    assert DrugAt(st, drugKey).Some?;
    assert drugKey != sk by {
      assert ShipmentAt(st, sk).Some?;
    }
    UpdateShipmentAppends(st, callerCRN, buyerCRN, drugName, drugKey);
  }
}
