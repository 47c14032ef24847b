/**
 * The world state the pharma-net contracts run over: a key/value ledger whose keys are
 * composite keys and whose values are the four kinds of record the contracts store.
 * JSON serialisation is not modelled: a value is the record itself.
 */
module Ledger {

  datatype Option<+T> = None | Some(value: T)

  /** A composite key as `createCompositeKey` builds it: a namespace and ordered parts.
      Distinct (namespace, parts) pairs are distinct keys by construction. */
  datatype Key = Key(ns: string, parts: seq<string>)

  /** The organisation role of a company. The contracts accept any role string: the five
      names they test for are constructors, and `Other` carries any other string. */
  datatype Role = Manufacturer | Distributor | Retailer | Transporter | Consumer | Other(name: string)

  /** A role string as the contracts see it: `Other` never carries one of the five names, so
      each role string has exactly one representation. */
  type RoleName = r: Role | !r.Other? || r.name !in {"Manufacturer", "Distributor", "Retailer", "Transporter", "Consumer"}
    witness Manufacturer

  /** Shipment status: "in-transit" or "delivered". */
  datatype Status = InTransit | Delivered

  /** The owner of a drug: the identity of the client that created it, the key of a company
      it was delivered to, or the customer (Aadhar number) it was sold to. */
  datatype Party = Identity(id: string) | CompanyRef(key: Key) | Customer(aadhar: string)

  datatype Company = Company(id: Key, name: string, location: string, role: RoleName, hierarchy: Option<string>)

  datatype Drug = Drug(
    id: Key, name: string, manufacturer: string, mfgDate: string, expDate: string,
    owner: Party, shipments: seq<Key>)

  /** A purchase order; the quantity is kept verbatim, as the string argument it arrives as. */
  datatype PurchaseOrder = PurchaseOrder(id: Key, drugName: string, quantity: string, buyer: string, seller: Key)

  datatype Shipment = Shipment(id: Key, creator: string, assets: seq<Key>, transporter: Key, status: Status)

  datatype Record =
    | CompanyRecord(company: Company)
    | DrugRecord(drug: Drug)
    | PORecord(po: PurchaseOrder)
    | ShipmentRecord(shipment: Shipment)

  type Store = map<Key, Record>

  /** Why an operation wrote nothing: the "Not Allowed to Invoke this Function" refusal,
      an "already Registered" refusal, a missing record (where the contract would parse
      an empty buffer and throw), or a JavaScript exception that aborts the transaction. */
  datatype Error = NotAllowed | AlreadyRegistered(key: Key) | NotFound(key: Key) | Aborted

  datatype Result<+T> = Ok(value: T) | Err(error: Error)

  /** What an operation returns, together with the world state after it. */
  datatype Outcome<+T> = Outcome(result: Result<T>, store: Store)

  function CompanyAt(st: Store, k: Key): Option<Company>
  {
    if k in st && st[k].CompanyRecord? then Some(st[k].company) else None
  }

  function DrugAt(st: Store, k: Key): Option<Drug>
  {
    if k in st && st[k].DrugRecord? then Some(st[k].drug) else None
  }

  function ShipmentAt(st: Store, k: Key): Option<Shipment>
  {
    if k in st && st[k].ShipmentRecord? then Some(st[k].shipment) else None
  }

  /** Every key outside `ks` is present in `st'` exactly when it is in `st`, with the same record. */
  ghost predicate OnlyChanged(st: Store, st': Store, ks: set<Key>)
  {
    forall k :: k !in ks ==> (k in st <==> k in st') && (k in st ==> st'[k] == st[k])
  }

  /** The ledger stub a transaction talks to. */
  class Stub {
    var state: Store

    constructor (init: Store)
      ensures state == init
    {
      state := init;
    }

    method GetState(k: Key) returns (r: Option<Record>)
      ensures r.Some? <==> k in state
      ensures r.Some? ==> r.value == state[k]
    {
      r := if k in state then Some(state[k]) else None;
    }

    method PutState(k: Key, v: Record)
      modifies this
      ensures state == old(state)[k := v]
    {
      state := state[k := v];
    }

    /** Commits a set of writes together, as the ledger commits one transaction's writes. */
    method PutAll(writes: Store)
      modifies this
      ensures state == old(state) + writes
    {
      state := state + writes;
    }
  }
}
