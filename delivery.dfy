/**
 * The delivery cascade of `updateShipment`: for every asset of a shipment, in list order,
 * load the drug record, append the shipment key to its shipment list and make the buyer
 * company its owner. Either every asset is a drug and all changes are made, or the cascade
 * fails on the first asset that is not and nothing is changed.
 *
 * Every load reads the world state as committed before the transaction, as the ledger's
 * `getState` does: a write made earlier in the same transaction is not visible to a later
 * read. A drug listed twice is therefore loaded twice with the same record and written twice
 * with the same new record, so it receives the shipment key once.
 */
module Delivery {
  import opened Ledger

  /** One drug after one delivery of the shipment `shipKey` to the company `buyer`. */
  function Handover(d: Drug, shipKey: Key, buyer: Key): (r: Drug)
    ensures r.owner == CompanyRef(buyer)
    ensures |r.shipments| == |d.shipments| + 1
    ensures r.shipments[..|d.shipments|] == d.shipments && r.shipments[|d.shipments|..] == [shipKey]
    ensures r.(owner := d.owner, shipments := d.shipments) == d
  {
    d.(owner := CompanyRef(buyer), shipments := d.shipments + [shipKey])
  }

  /** The cascade from a point on: `assets` are still to be delivered, reading from the
      committed state `committed`, and `staged` holds the writes made so far over it. Each
      asset's write replaces any earlier write to the same key. */
  function Cascade(committed: Store, staged: Store, assets: seq<Key>, shipKey: Key, buyer: Key): (r: Result<Store>)
    ensures r.Ok? <==> forall a :: a in assets ==> DrugAt(committed, a).Some?
    ensures r.Err? ==> exists a :: a in assets && DrugAt(committed, a).None? && r.error == NotFound(a)
    ensures r.Ok? ==> forall k :: k in assets ==>
      k in r.value && r.value[k] == DrugRecord(Handover(DrugAt(committed, k).value, shipKey, buyer))
    ensures r.Ok? ==> forall k :: k !in assets ==> (k in r.value <==> k in staged) && (k in staged ==> r.value[k] == staged[k])
    decreases |assets|
  {
    if assets == [] then Ok(staged)
    else
      assert forall k :: k in assets <==> k == assets[0] || k in assets[1..] by {
        assert assets == [assets[0]] + assets[1..];
      }
      match DrugAt(committed, assets[0])
      case None => Err(NotFound(assets[0]))
      case Some(d) =>
        Cascade(committed, staged[assets[0] := DrugRecord(Handover(d, shipKey, buyer))], assets[1..], shipKey, buyer)
  }

  /** The world state after delivering `assets`, or the first asset that is not a drug. On
      success every listed drug has received the shipment exactly once, however often it is
      listed, and every other record is kept. */
  function Deliver(st: Store, assets: seq<Key>, shipKey: Key, buyer: Key): (r: Result<Store>)
    ensures r.Ok? <==> forall a :: a in assets ==> DrugAt(st, a).Some?
    ensures r.Err? ==> exists a :: a in assets && DrugAt(st, a).None? && r.error == NotFound(a)
    ensures r.Ok? ==> r.value.Keys == st.Keys
    ensures r.Ok? ==> forall k :: k in assets ==> DrugAt(r.value, k) == Some(Handover(DrugAt(st, k).value, shipKey, buyer))
    ensures r.Ok? ==> forall k :: k in st && k !in assets ==> r.value[k] == st[k]
  {
    Cascade(st, st, assets, shipKey, buyer)
  }

  /** Listing a drug twice delivers it as listing it once. */
  lemma RepeatedAssetDeliveredOnce(st: Store, a: Key, shipKey: Key, buyer: Key)
    ensures Deliver(st, [a, a], shipKey, buyer) == Deliver(st, [a], shipKey, buyer)
  {
    var r1, r2 := Deliver(st, [a, a], shipKey, buyer), Deliver(st, [a], shipKey, buyer);
    assert forall k :: k in [a, a] <==> k in [a];
    if r1.Ok? {
      assert r1.value == r2.value;
    }
  }

  /** The cascade as the contracts run it: a loop over the assets that loads each drug from
      the committed state and stages its new record on a copy, so that all of them can be
      committed together. */
  method StageDelivery(st: Store, assets: seq<Key>, shipKey: Key, buyer: Key) returns (r: Result<Store>)
    ensures r == Deliver(st, assets, shipKey, buyer)
  {
    var staged := st;
    var i := 0;
    while i < |assets|
      invariant 0 <= i <= |assets|
      invariant Cascade(st, st, assets, shipKey, buyer) == Cascade(st, staged, assets[i..], shipKey, buyer)
    {
      var asset := assets[i];
      if !(asset in st && st[asset].DrugRecord?) {
        return Err(NotFound(asset));
      }
      var d := st[asset].drug;
      assert assets[i..][1..] == assets[i + 1..];
      staged := staged[asset := DrugRecord(d.(owner := CompanyRef(buyer), shipments := d.shipments + [shipKey]))];
      i := i + 1;
    }
    r := Ok(staged);
  }
}
