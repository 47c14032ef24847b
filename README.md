# pharma-net chaincode: a Dafny model of the supply-chain state machine

pharma-net is a Hyperledger Fabric chaincode that tracks drugs from manufacturer to
distributor to retailer to consumer. It keeps one key/value world state. Every operation does
the same things in order:

1. build a composite key;
2. check the caller's organisation role (in the consolidated contract);
3. read the records it needs;
4. build or change a record;
5. write it back.

This project models that state machine.

- `ledger.dfy` (module `Ledger`): the world state. Composite keys are a `Key(ns, parts)`
  datatype, so distinct inputs give distinct keys. The records are `Company`, `Drug`,
  `PurchaseOrder` and `Shipment`, held in a `Store = map<Key, Record>`. The class `Stub` holds
  the state and offers `GetState`, `PutState` and `PutAll`, the last committing one
  transaction's writes together. Shipment status is an enum. A role is an enum of the five
  role names plus `Other(name)`, restricted by the subset type `RoleName` so that `Other`
  never carries one of the five names. An operation returns a `Result` (a value, or
  `NotAllowed`, `AlreadyRegistered(key)`, `NotFound(key)` or `Aborted`, the last for a
  JavaScript exception) and yields an `Outcome`: the result plus the world state after it.
- `pharmanet.dfy` (module `Pharmanet`): `chaincode/contract.js`, the consolidated contract.
  It covers `getCompanyRole`, registration with the Consumer refusal and the hierarchy key,
  `addDrug`, `createPO`, `createShipment`, `updateShipment`, `retailDrug` and the two views.
  Each operation is a `…Step` function from the world state to an `Outcome`. A method with the
  operation's name runs it imperatively against a `Stub`, and its `ensures` ties the new state
  and the return value to the `…Step` function.
- `delivery.dfy` (module `Delivery`): the delivery cascade that both `updateShipment`
  operations share. `Deliver` specifies it, through the recursive `Cascade`. `StageDelivery`
  is the loop over the assets, like the source's `forEach`. It stages every change on a copy
  of the state, so that all changes are written together or none is. Each drug is loaded from
  the state as committed before the transaction, as the ledger's `getState` does, so a drug
  listed twice receives the shipment once.
- `manufacturer.dfy`, `distributor.dfy`, `transporter.dfy`: the per-role contracts. They are
  older variants of the same operations over the same world state. They use their own key
  namespaces, hard-code the hierarchy key and make no checks. Several facts about them are
  proved: the distributor's and the transporter's views read the manufacturer's drug
  namespace, and the transporter's delivery never finds a shipment that the distributor
  created. `chaincode/index.js` deploys these per-role contracts, not `contract.js`.
- `as_written.dfy` (module `AsWritten`): two operations of `contract.js` as their code runs
  past the role check, next to the corrected ones (see Findings). Both keep the role check on
  an explicitly given caller CRN, as the rest of the model does, so each isolates the defect at
  the lines cited.
- `scenarios.dfy` (module `Scenarios`): an end-to-end run. A manufacturer registers and adds a
  drug, ships it to a distributor, and a transporter delivers it.

How the model treats the source's defects:

- **Caller's CRN.** In `contract.js`, every role check calls `getCompanyRole` unbound (not as
  `this.getCompanyRole`) and passes a `companyCRN` that is undefined in four of the five
  operations. The model takes the caller's CRN explicitly: `addDrug` uses its `companyCRN`
  argument and `retailDrug` its `retailerCRN`; `createPO`, `createShipment` and
  `updateShipment` get an added `callerCRN` parameter.
- **Missing keys.** Where the code parses an absent record as JSON, which throws, the model
  returns `NotFound(key)` and writes nothing.
- **Delivery cascade.** `updateShipment` is modelled with the cascade its documentation
  describes: the assets are drug keys, each drug is loaded and changed, and everything is
  written together.

The model follows the code in these places, where a stricter design would add checks:

- `createPO` checks neither the quantity, nor that the seller exists, nor the buyer/seller
  hierarchy. It also overwrites an existing order.
- `createShipment` does not check its assets or an existing shipment under the same key.
- `updateShipment` does not check that the shipment is in transit, nor that the caller is the
  named transporter. A second delivery therefore succeeds and appends the shipment key again
  (`Pharmanet.RedeliveryAppendsAgain`, `Transporter.RedeliveryAppendsAgain`).

## Model

| member | source | states |
|---|---|---|
| `Pharmanet.CompanyRole` | chaincode/contract.js:25-44 | the role is found exactly when a company record is stored under company(CRN), and it is that record's role; otherwise `NotFound(company(CRN))` |
| `Pharmanet.HierarchyKey` | chaincode/contract.js:67-75 | "1" exactly for Manufacturer, "2" exactly for Distributor, "3" exactly for Retailer, none exactly for every other role |
| `Pharmanet.Authorize` | chaincode/contract.js:121-323 | the five role gates (lines 122-125, 174-178, 221-228, 270-273 and 320-323): succeeds exactly when the caller is registered with a role the operation admits; an unregistered caller is `NotFound`, a wrong role `NotAllowed` |
| `Pharmanet.RegisterCompanyStep` | chaincode/contract.js:55-108 | Consumer is refused and the state is unchanged; an occupied company key is refused and not overwritten; otherwise the returned company, with the hierarchy key of its role, is what is stored under company(CRN), and nothing else changes |
| `Pharmanet.RegisterCompany` | chaincode/contract.js:55-108 | the ledger's new state and the return value are those of `RegisterCompanyStep` |
| `Pharmanet.RegisterTwiceRefused` | chaincode/contract.js:84-90 | after a successful registration, a second one with the same CRN fails, changes nothing, and the first record stays |
| `Pharmanet.AddDrugStep` | chaincode/contract.js:120-161 | succeeds exactly for a Manufacturer caller and a free (name, serialNo) key; it stores a drug with owner = manufacturer = caller identity and an empty shipment list, and changes nothing else; a refusal changes nothing |
| `Pharmanet.AddDrug` | chaincode/contract.js:120-161 | the ledger's new state and the return value are those of `AddDrugStep` |
| `Pharmanet.AddDrugThenView` | chaincode/contract.js:143-157 | right after a successful addDrug, viewDrugCurrentState returns the added record, owned by its creator, and viewHistory returns the empty list |
| `Pharmanet.CreatePOStep` | chaincode/contract.js:172-208 | succeeds exactly for a Distributor or Retailer caller; it stores under po(buyerCRN, drugName) an order with buyer = caller identity, seller = company(sellerCRN) and the quantity verbatim; a refusal changes nothing |
| `Pharmanet.CreatePO` | chaincode/contract.js:172-208 | the ledger's new state and the return value are those of `CreatePOStep` |
| `Pharmanet.CreateShipmentStep` | chaincode/contract.js:219-258 | succeeds exactly for a Manufacturer or Distributor caller; it stores under shipment(buyerCRN, drugName) an in-transit shipment with the given assets and transporter = company(transporterCRN); a refusal changes nothing |
| `Pharmanet.CreateShipment` | chaincode/contract.js:219-258 | the ledger's new state and the return value are those of `CreateShipmentStep` |
| `Pharmanet.UpdateShipmentStep` | chaincode/contract.js:268-307 | succeeds exactly for a Transporter caller, a stored shipment and assets that are all drugs; the shipment is then stored as delivered, and no key outside the shipment and its assets changes; otherwise nothing changes |
| `Pharmanet.UpdateShipment` | chaincode/contract.js:268-307 | the ledger's new state and the return value are those of `UpdateShipmentStep`, with all writes committed together |
| `Pharmanet.UpdateShipmentEffect` | chaincode/contract.js:295-299 | after a delivery, every listed drug is its old record with the shipment key appended exactly once, however often it is listed, and the buyer company as owner; unlisted drugs are unchanged |
| `Pharmanet.UpdateShipmentAppends` | chaincode/contract.js:295-299 | for any asset list, each listed drug's history becomes the old history plus the shipment key at the end, and its owner becomes company(buyerCRN) |
| `Pharmanet.RedeliveryAppendsAgain` | chaincode/contract.js:288-303 | delivered is not terminal: delivering again succeeds and the drug's history ends with the shipment key twice |
| `Pharmanet.RetailDrugStep` | chaincode/contract.js:318-345 | succeeds exactly for a Retailer caller and a stored drug, and then changes only that drug's owner, to the customer; an unknown drug is `NotFound`; a refusal changes nothing |
| `Pharmanet.RetailDrug` | chaincode/contract.js:318-345 | the ledger's new state and the return value are those of `RetailDrugStep` |
| `Pharmanet.ViewHistory` | chaincode/contract.js:354-370 | returns exactly the stored drug's shipment list, or `NotFound` when no drug is stored there |
| `Pharmanet.ViewDrugCurrentState` | chaincode/contract.js:379-395 | returns exactly the record stored under drug(name, serialNo), or `NotFound` |
| `Delivery.Handover` | chaincode/contract.js:296-299 | one delivery appends the shipment key at the end of the drug's list, keeping the earlier entries, sets the owner to the buyer, and keeps every other field |
| `Delivery.Cascade` | chaincode/contract.js:295-299 | the cascade from any point, by recursion on the remaining assets: it succeeds exactly when they are all drugs in the committed state, otherwise fails with `NotFound` of one that is not; on success each remaining asset holds its committed record after one handover, and every other key keeps its staged record |
| `Delivery.Deliver` | chaincode/contract.js:295-299 | the cascade succeeds exactly when every asset is a drug, and otherwise fails with `NotFound` of a missing asset; on success the key set is the same, each listed drug is its old record after exactly one handover, and every key that is not an asset keeps its record |
| `Delivery.RepeatedAssetDeliveredOnce` | chaincode/contract.js:295-299 | a drug listed twice is delivered exactly as if listed once |
| `Delivery.StageDelivery` | chaincode/contract.js:295-299 | the loop over the assets computes exactly the `Deliver` result |
| `AsWritten.AddDrugAsWrittenStep` | chaincode/contract.js:133-141 | as written, addDrug never succeeds and never changes the state; on a free key, for a Manufacturer caller, it fails with `NotFound` |
| `AsWritten.AddDrugDiscrepancy` | chaincode/contract.js:133-141 | for any caller the role check admits and a new drug, the code as written fails while the corrected step stores the drug with an empty history |
| `AsWritten.UpdateShipmentAsWrittenStep` | chaincode/contract.js:288-306 | as written, delivery never succeeds and never changes the state: once the shipment is found, the `forEach` over its stored asset list throws and the transaction aborts |
| `AsWritten.UpdateShipmentDiscrepancy` | chaincode/contract.js:295-303 | on any successful delivery, the code as written aborts and a listed drug is unchanged, but the corrected step ends its history with the shipment key and is owned by the buyer when corrected |
| `Manufacturer.RegisterCompanyStep` | chaincode/manufacturer.js:28-57 | always succeeds; it stores hierarchy key "1" whatever role is passed, and writes only company(CRN) |
| `Manufacturer.RegisterCompany` | chaincode/manufacturer.js:28-57 | the ledger's new state and the return value are those of `Manufacturer.RegisterCompanyStep` |
| `Manufacturer.RegisterOverwrites` | chaincode/manufacturer.js:36-53 | with no existence check, the record stored is the one from the latest registration |
| `Manufacturer.AddDrugStep` | chaincode/manufacturer.js:69-94 | with no role or duplicate check, stores under manufacturer.drug(name, serialNo) a drug with owner = manufacturer = caller identity and no shipments, writing only that key |
| `Manufacturer.AddDrug` | chaincode/manufacturer.js:69-94 | the ledger's new state and the return value are those of `Manufacturer.AddDrugStep` |
| `Manufacturer.CreateShipmentStep` | chaincode/manufacturer.js:105-134 | stores under manufacturer.shipment(buyerCRN, drugName) an in-transit shipment with the given assets and transporter = company(transporterCRN), writing only that key |
| `Manufacturer.CreateShipment` | chaincode/manufacturer.js:105-134 | the ledger's new state and the return value are those of `Manufacturer.CreateShipmentStep` |
| `Manufacturer.ViewHistory` | chaincode/manufacturer.js:143-159 | returns exactly the shipment list of the drug stored under manufacturer.drug(name, serialNo), or `NotFound` |
| `Manufacturer.ViewDrugCurrentState` | chaincode/manufacturer.js:168-184 | returns exactly the record stored under manufacturer.drug(name, serialNo), or `NotFound` |
| `Manufacturer.AddDrugThenView` | chaincode/manufacturer.js:143-183 | the views read the key addDrug writes: the added record, and an empty history |
| `Distributor.RegisterCompanyStep` | chaincode/distributor.js:28-57 | always succeeds; it stores hierarchy key "2" whatever role is passed, and writes only company(CRN) |
| `Distributor.RegisterCompany` | chaincode/distributor.js:28-57 | the ledger's new state and the return value are those of `Distributor.RegisterCompanyStep` |
| `Distributor.RegisterOverwrites` | chaincode/distributor.js:36-53 | the record stored is the one from the latest registration |
| `Distributor.CreatePOStep` | chaincode/distributor.js:68-96 | with no checks, stores under distributor.po(buyerCRN, drugName) an order with buyer = caller identity, seller = company(sellerCRN) and the quantity verbatim, writing only that key |
| `Distributor.CreatePO` | chaincode/distributor.js:68-96 | the ledger's new state and the return value are those of `Distributor.CreatePOStep` |
| `Distributor.CreateShipmentStep` | chaincode/distributor.js:107-136 | stores under distributor.shipment(buyerCRN, drugName) an in-transit shipment, writing only that key |
| `Distributor.CreateShipment` | chaincode/distributor.js:107-136 | the ledger's new state and the return value are those of `Distributor.CreateShipmentStep` |
| `Distributor.ViewHistory` | chaincode/distributor.js:145-161 | returns exactly the shipment list of the drug under manufacturer.drug(name, serialNo), or `NotFound` |
| `Distributor.ViewDrugCurrentState` | chaincode/distributor.js:170-186 | returns exactly the record under manufacturer.drug(name, serialNo), or `NotFound` |
| `Distributor.ViewsReadManufacturerDrugs` | chaincode/distributor.js:147-150 | the distributor's views return the drug that the manufacturer contract's addDrug stored |
| `Distributor.ShipmentNamespacesDisjoint` | chaincode/distributor.js:109-112 | a distributor shipment key never equals a manufacturer shipment key |
| `Transporter.RegisterCompanyStep` | chaincode/transporter.js:28-57 | always succeeds; it stores no hierarchy key whatever role is passed, and writes only company(CRN) |
| `Transporter.RegisterCompany` | chaincode/transporter.js:28-57 | the ledger's new state and the return value are those of `Transporter.RegisterCompanyStep` |
| `Transporter.RegisterOverwrites` | chaincode/transporter.js:42-53 | the record stored is the one from the latest registration |
| `Transporter.UpdateShipmentStep` | chaincode/transporter.js:67-99 | with no role check, succeeds exactly when a shipment is stored under manufacturer.shipment(buyerCRN, drugName) and all its assets are drugs; then the shipment is delivered and nothing outside it and its assets changes; otherwise nothing changes |
| `Transporter.UpdateShipment` | chaincode/transporter.js:67-99 | the ledger's new state and the return value are those of `Transporter.UpdateShipmentStep`, with all writes committed together |
| `Transporter.UpdateShipmentAppends` | chaincode/transporter.js:87-91 | for any asset list, each listed drug's history becomes the old one plus the shipment key, and its owner becomes company(buyerCRN) |
| `Transporter.RedeliveryAppendsAgain` | chaincode/transporter.js:84-95 | with no in-transit guard, a second delivery succeeds and appends the shipment key again |
| `Transporter.DistributorShipmentUnreachable` | chaincode/transporter.js:69-72 | a shipment created by the distributor contract is never found: the delivery fails with `NotFound` and changes nothing |
| `Transporter.ManufacturerShipmentDelivered` | chaincode/transporter.js:69-91 | a shipment the manufacturer contract created over stored drugs is delivered, and every asset ends up owned by the buyer company |
| `Transporter.ViewHistory` | chaincode/transporter.js:108-124 | returns exactly the shipment list of the drug under manufacturer.drug(name, serialNo), or `NotFound` |
| `Transporter.ViewDrugCurrentState` | chaincode/transporter.js:133-149 | returns exactly the record under manufacturer.drug(name, serialNo), or `NotFound` |
| `Scenarios.SetupRegistersAll` | chaincode/contract.js:55-161 | registering a manufacturer, a distributor and a transporter with fresh CRNs and adding a fresh drug gives a drug owned by its creator with an empty history, and the expected gates: the manufacturer may ship but not order, the transporter may deliver |
| `Scenarios.ShipAndDeliver` | chaincode/contract.js:219-307 | after that setup, shipping the drug to the distributor and delivering it leaves the drug's history as exactly that one shipment, owned by the distributor |
| `Scenarios.ParacetamolDelivered` | chaincode/contract.js:172-307 | the same run with MFR01, DIST01, TRN01 and Paracetamol SN1; createPO by the manufacturer is `NotAllowed` |

## Left out

- The Fabric stub and identity: `getState` and `putState` are map lookup and update, and
  `createCompositeKey` is the `Key` datatype. `clientIdentity.getID()` is a string parameter
  (`callerId`). The ledger's history query is not used by the core and is not modelled.
- JSON and `Buffer` serialisation: records are Dafny datatypes, not bytes. The model does not
  capture a stored non-drug value being read as a drug (for example `drugObject.shipment`
  being undefined): such a read is `NotFound`.
- `createdAt: new Date()`: timestamps are omitted from every record.
- `console.log`, the `.catch` handlers, `instantiate`, and the async/await plumbing.
- Endorsement, consensus and concurrent invocations: each operation is one atomic step on the
  map.
- `chaincode/consumer.js`, `chaincode/retailer.js` and `chaincode/index.js`: empty contract
  classes and module wiring with no logic.
- Role strings: the contracts compare free strings. The model uses `RoleName`, an enum whose
  `Other(name)` stands for any string that is not one of the five role names.
- The throw from the unbound `getCompanyRole` call is not modelled as a failure of every gated
  operation. The intended lookup of the caller's explicitly given CRN is modelled instead.
- `AsWritten.AddDrugAsWrittenStep`, `AsWritten.UpdateShipmentAsWrittenStep`: both keep the
  role check on an explicitly given caller CRN. In the code, the unbound `getCompanyRole` call
  throws before either reaches the defect it models.

## Findings

| source | as written | input that shows it | evidently intended | confidence | as-written member | corrected member |
|---|---|---|---|---|---|---|
| chaincode/contract.js:133-141 | the existence check parses the empty buffer a free key yields as JSON, which throws, so addDrug fails for every new drug and succeeds for none | a registered Manufacturer adding a (name, serialNo) not yet stored | a free key proceeds to store the drug; only an occupied key is refused | high, by reading (not executed) | `AsWritten.AddDrugAsWrittenStep` (`AsWritten.AddDrugDiscrepancy`) | `Pharmanet.AddDrugStep` (`Pharmanet.AddDrugThenView`) |
| chaincode/contract.js:295-303 | updateShipment iterates the shipment's stored asset list, which is the string argument createShipment stored, with `forEach`, which a string lacks, and on key strings `asset.shipment.push` would throw too; the transaction aborts. Even on object entries, it would change only the parsed list and write back only the shipment key, so no drug's history or owner ever changes (the same in chaincode/transporter.js:87-95) | any delivery of a stored shipment that lists a stored drug | load each listed drug record, append the shipment key, set the owner to the buyer, and write all records together with the delivered shipment | high, by reading (not executed) | `AsWritten.UpdateShipmentAsWrittenStep` (`AsWritten.UpdateShipmentDiscrepancy`) | `Pharmanet.UpdateShipmentStep` (`Pharmanet.UpdateShipmentAppends`) |
