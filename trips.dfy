/**
 * Trip records of the transport ledger ("viagens") and the request body
 * from which they are built.
 */
module Trips {
  import opened Wrappers

  /** A stored trip: the id assigned by the ledger plus the eight input fields
      (motorista, placa, origem, destino, data, combustivel, pedagio, frete). */
  datatype Trip = Trip(
    id: nat,
    driver: string,
    plate: string,
    origin: string,
    destination: string,
    date: string,
    fuel: int,
    toll: int,
    freight: int)

  /** The JSON body of a trip submission. `None` is a field the client left out. */
  datatype Body = Body(
    driver: Option<string>,
    plate: Option<string>,
    origin: Option<string>,
    destination: Option<string>,
    date: Option<string>,
    fuel: Option<int>,
    toll: Option<int>,
    freight: Option<int>)

  /** JavaScript truthiness of a text field: present and not the empty string. */
  predicate TextGiven(o: Option<string>) {
    o.Some? && o.value != ""
  }

  /** JavaScript truthiness of an amount: present and not zero. */
  predicate AmountGiven(o: Option<int>) {
    o.Some? && o.value != 0
  }

  /** All eight fields are truthy, the only condition under which a trip is accepted. */
  predicate Complete(b: Body) {
    && TextGiven(b.driver) && TextGiven(b.plate)
    && TextGiven(b.origin) && TextGiven(b.destination)
    && TextGiven(b.date)
    && AmountGiven(b.fuel) && AmountGiven(b.toll) && AmountGiven(b.freight)
  }

  /** The record stored for a complete body under the given id. */
  function MakeTrip(id: nat, b: Body): (t: Trip)
    requires Complete(b)
    ensures t.id == id
    ensures Some(t.driver) == b.driver && Some(t.plate) == b.plate
    ensures Some(t.origin) == b.origin && Some(t.destination) == b.destination
    ensures Some(t.date) == b.date
    ensures Some(t.fuel) == b.fuel && Some(t.toll) == b.toll && Some(t.freight) == b.freight
  {
    Trip(id, b.driver.value, b.plate.value, b.origin.value, b.destination.value,
         b.date.value, b.fuel.value, b.toll.value, b.freight.value)
  }

  /** The ledger's numbering: the trip at index i carries id i + 1. */
  ghost predicate Numbered(ts: seq<Trip>) {
    forall i :: 0 <= i < |ts| ==> ts[i].id == i + 1
  }

  /** Ids of a numbered ledger are positive, strictly increasing, hence unique. */
  lemma NumberedIdsIncrease(ts: seq<Trip>)
    requires Numbered(ts)
    ensures forall i :: 0 <= i < |ts| ==> ts[i].id >= 1
    ensures forall i, j :: 0 <= i < j < |ts| ==> ts[i].id < ts[j].id
  {
  }

  /** In a numbered ledger two positions holding the same trip are the same position. */
  lemma NumberedDistinct(ts: seq<Trip>, i: int, j: int)
    requires Numbered(ts)
    requires 0 <= i < |ts| && 0 <= j < |ts| && ts[i] == ts[j]
    ensures i == j
  {
  }
}
