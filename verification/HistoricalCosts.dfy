/**
  historicalMovementCosts: what a log says each movement cost, piece by piece, before it is replayed.
*/
module HistoricalCosts {
  import opened Fifo
  import opened InventoryLedger
  import opened HistoricalFifo

  datatype Normed = Normed(parts: seq<CostPart>, left: real)

  /** normalizedParts after a prefix of the parts: cut to the movement's quantity. */
  function Norm(parts: seq<CostPart>, quantity: real): Normed
  {
    if parts == [] then Normed([], quantity)
    else
      var s := Norm(parts[..|parts| - 1], quantity);
      var p := parts[|parts| - 1];
      var q := Min(p.quantity, s.left);
      if s.left <= 0.0 || q <= 0.0 then s else Normed(s.parts + [p.(quantity := q)], s.left - q)
  }

  function AllocationParts(allocations: seq<Alloc>): seq<CostPart>
  {
    seq(|allocations|, i requires 0 <= i < |allocations| =>
      CostPart(allocations[i].qty, allocations[i].tag.unitCost, allocations[i].tag.source))
  }

  function OwnParts(m: Movement): Normed { Norm(AllocationParts(m.allocations), Abs(Delta(m))) }

  predicate IsReceipt(m: Movement, t: nat, item: nat)
  {
    m.ref.TransferReceipt? && m.ref.transfer == t && m.loc.item == item
  }

  function ReceivedQuantity(t: nat, item: nat): Movement -> real
  {
    (m: Movement) => if IsReceipt(m, t, item) then m.quantity else 0.0
  }

  /** The shipment recorded last under a transfer, item and source warehouse. */
  function LastShipment(log: seq<Movement>, t: nat, loc: Loc): (i: nat)
    ensures i <= |log|
    ensures i < |log| ==> IsShipment(log[i], t, loc)
  {
    if log == [] then 0
    else
      var n := |log| - 1;
      if IsShipment(log[n], t, loc) then n
      else
        var i := LastShipment(log[..n], t, loc);
        if i < n then i else |log|
  }

  function AsLots(parts: seq<CostPart>): seq<Alloc>
  {
    seq(|parts|, i requires 0 <= i < |parts| =>
      Lot(parts[i].quantity, CostTag(0, parts[i].source, parts[i].unitCost)))
  }

  function AsParts(lots: seq<Lot<real>>): seq<CostPart>
  {
    seq(|lots|, i requires 0 <= i < |lots| => CostPart(lots[i].qty, lots[i].tag, None))
  }

  /** A transfer receipt inherits the stretch of its shipment's cost after what came in before. */
  function ReceiptParts(b: Books, i: nat): Option<seq<CostPart>>
    requires i < |b.log| && b.log[i].ref.TransferReceipt?
  {
    var m := b.log[i];
    var t := m.ref.transfer;
    if t >= |b.transfers| || m.loc.warehouse != b.transfers[t].destination then None
    else
      var s := LastShipment(b.log, t, Loc(m.loc.item, b.transfers[t].source));
      if s >= |b.log| then None
      else
        var skip := SumBy(b.log[..i], ReceivedQuantity(t, m.loc.item));
        var source := if b.log[s].allocations == [] then [] else OwnParts(b.log[s]).parts;
        Some(Norm(AsParts(Slice(AsLots(source), skip, m.quantity).parts), m.quantity).parts)
  }

  datatype Search = NotFound | Found(i: nat) | Ambiguous

  predicate WasReserved(m: Movement, order: nat, loc: Loc)
  {
    m.ref.Reservation? && m.ref.order == order && m.ref.status in {Released, Cancelled, Expired} && m.loc == loc
  }

  function ReservationSource(log: seq<Movement>, order: nat, loc: Loc): (s: Search)
    ensures s.Found? ==> s.i < |log|
  {
    if log == [] then NotFound
    else
      var n := |log| - 1;
      var s := ReservationSource(log[..n], order, loc);
      if WasReserved(log[n], order, loc) then (if s == NotFound then Found(n) else Ambiguous) else s
  }

  function PartsOf(b: Books, i: nat): Option<seq<CostPart>>
    requires i < |b.log|
  {
    var m := b.log[i];
    var own := OwnParts(m);
    var fallback := if m.allocations == [] then None else Some(own.parts);
    if m.ref.TransferReceipt? && ReceiptParts(b, i).Some? then ReceiptParts(b, i)
    else if m.ref.ReservationRelease? && (m.allocations == [] || own.left > 0.0) then
      match ReservationSource(b.log, m.ref.order, m.loc)
      case Found(j) =>
        if b.log[j].allocations == [] then fallback
        else Some(Norm(OwnParts(b.log[j]).parts, Abs(Delta(m))).parts)
      case _ => fallback
    else fallback
  }

  function Records(b: Books): CostRecords
  {
    CostRecords(
      map i | 0 <= i < |b.log| && !IsActive(b.log[i]) && PartsOf(b, i).Some? :: PartsOf(b, i).value,
      map[])
  }

  // ------------------------------------------------------------------ exact parts pass through

  predicate PositiveParts(parts: seq<CostPart>) { forall i :: 0 <= i < |parts| ==> parts[i].quantity > 0.0 }

  function PartsTotal(parts: seq<CostPart>): real
  {
    if parts == [] then 0.0 else PartsTotal(parts[..|parts| - 1]) + parts[|parts| - 1].quantity
  }

  /** Parts that do not exceed the quantity are left alone. */
  lemma {:induction false} NormExact(parts: seq<CostPart>, quantity: real)
    requires PositiveParts(parts) && PartsTotal(parts) <= quantity
    ensures Norm(parts, quantity) == Normed(parts, quantity - PartsTotal(parts))
  {
    if parts != [] {
      NormExact(parts[..|parts| - 1], quantity);
    }
  }

  function PartLayers(parts: seq<CostPart>, source: nat): seq<HistLayer>
  {
    seq(|parts|, i requires 0 <= i < |parts| => Lot(parts[i].quantity, HistTag(Some(source), Some(parts[i].unitCost))))
  }

  /** Parts that do not exceed the delta become one layer each. */
  lemma {:induction false} CoverExact(parts: seq<CostPart>, delta: real, source: nat)
    requires PositiveParts(parts) && PartsTotal(parts) <= delta
    ensures Cover(parts, delta, source) == Covering(PartLayers(parts, source), PartsTotal(parts), false)
  {
    if parts != [] {
      var n := |parts| - 1;
      CoverExact(parts[..n], delta, source);
      assert PartLayers(parts, source) ==
             PartLayers(parts[..n], source) + [Lot(parts[n].quantity, HistTag(Some(source), Some(parts[n].unitCost)))];
    }
  }

  lemma {:induction false} AllocationPartsTotal(allocations: seq<Alloc>)
    ensures PartsTotal(AllocationParts(allocations)) == Sum(allocations)
  {
    if allocations != [] {
      var n := |allocations| - 1;
      assert AllocationParts(allocations)[..n] == AllocationParts(allocations[..n]);
      AllocationPartsTotal(allocations[..n]);
      assert allocations == allocations[..n] + [allocations[n]];
      SumConcat(allocations[..n], [allocations[n]]);
      assert [allocations[n]][1..] == [];
      assert Sum([allocations[n]]) == allocations[n].qty;
    }
  }

  lemma {:induction false} AsPartsTotal(lots: seq<Lot<real>>)
    ensures PartsTotal(AsParts(lots)) == Sum(lots)
  {
    if lots != [] {
      var n := |lots| - 1;
      assert AsParts(lots)[..n] == AsParts(lots[..n]);
      AsPartsTotal(lots[..n]);
      assert lots == lots[..n] + [lots[n]];
      SumConcat(lots[..n], [lots[n]]);
      assert [lots[n]][1..] == [];
      assert Sum([lots[n]]) == lots[n].qty;
    }
  }
}
