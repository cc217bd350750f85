/** Reserving a spare part for a device: the device type names a part, the
    first inventory item whose name contains that part name (ignoring case)
    is chosen, or else the first item at all, and one unit of its stock is
    taken. Modelled as one sequential step. */
module Reservation {
  import opened Outcomes
  import opened Seqs
  import opened Models
  import opened Text

  /** The fixed device-type to part-name table. */
  const PartNames: map<DeviceType, string> :=
    map[CPE := "Set Top Box", ROUTER := "WiFi Router", TOWER := "Fiber Cable"]

  /** `mapping.get(device.type)`; falsy (absent or empty) means no part name. */
  function PartName(kind: DeviceType): Option<string> {
    if kind in PartNames && PartNames[kind] != "" then Some(PartNames[kind]) else None
  }

  predicate NameMatches(item: InventoryItem, part: string) {
    ContainsIgnoreCase(item.name, part)
  }

  /** The item a device of type `kind` draws from: the first whose name
      contains the part name, else the first item; none when there are no
      items. */
  function TargetIndex(items: seq<InventoryItem>, kind: DeviceType): (r: Option<nat>)
    ensures r.None? <==> |items| == 0
    ensures r.Some? ==> r.value < |items|
    ensures PartName(kind).Some? && r.Some? && NameMatches(items[r.value], PartName(kind).value) ==>
              forall j :: 0 <= j < r.value ==> !NameMatches(items[j], PartName(kind).value)
    ensures r.Some? && r.value != 0 ==>
              PartName(kind).Some? && NameMatches(items[r.value], PartName(kind).value)
    ensures r == Some(0) && PartName(kind).Some? && !NameMatches(items[0], PartName(kind).value) ==>
              forall j :: 0 <= j < |items| ==> !NameMatches(items[j], PartName(kind).value)
  {
    var hit := match PartName(kind)
      case None => None
      case Some(part) => FirstIndex(items, (x: InventoryItem) => NameMatches(x, part));
    if hit.Some? then hit
    else if |items| > 0 then Some(0)
    else None
  }

  /** Every device type has a part name, so the mapping itself never falls
      through to the first-item fallback. */
  lemma EveryTypeMapped(kind: DeviceType)
    ensures PartName(kind).Some?
    ensures PartName(kind).value in {"Set Top Box", "WiFi Router", "Fiber Cable"}
  {
  }

  /** Which item is chosen depends only on item names. */
  lemma TargetIgnoresStock(items: seq<InventoryItem>, k: nat, stock: int, kind: DeviceType)
    requires k < |items|
    ensures TargetIndex(items[k := items[k].(stockOnHand := stock)], kind) == TargetIndex(items, kind)
  {
    var items' := items[k := items[k].(stockOnHand := stock)];
    assert forall j :: 0 <= j < |items| ==> items'[j].name == items[j].name;
    match PartName(kind)
    case None =>
    case Some(part) =>
      var p := (x: InventoryItem) => NameMatches(x, part);
      assert forall j :: 0 <= j < |items| ==> p(items'[j]) == p(items[j]);
      FirstIndexSame(items', items, p);
  }

  datatype Reserved = Reserved(itemName: string, remainingStock: int)

  /** The stock level the chosen item would take one unit from. */
  ghost predicate Reserves(s: Store, deviceId: int, k: nat) {
    && DeviceIndex(s, deviceId).Some?
    && TargetIndex(s.inventory, s.devices[DeviceIndex(s, deviceId).value].kind) == Some(k)
  }

  /** Reserve one replacement part for a device. */
  function Reserve(s: Store, deviceId: int): (r: Result<(Store, Reserved)>)
    ensures DeviceIndex(s, deviceId).None? <==> r == Err(NotFound)
    ensures DeviceIndex(s, deviceId).Some? && |s.inventory| == 0 ==> r == Err(NoInventory)
    ensures forall k: nat :: Reserves(s, deviceId, k) && s.inventory[k].stockOnHand <= 0 ==>
              r == Err(InsufficientStock)
    ensures forall k: nat :: Reserves(s, deviceId, k) && s.inventory[k].stockOnHand > 0 ==> r.Ok?
    ensures r.Ok? ==>
      exists k: nat :: Reserves(s, deviceId, k)
        && s.inventory[k].stockOnHand > 0
        && r.value.0 == s.(inventory := s.inventory[k := s.inventory[k].(stockOnHand := s.inventory[k].stockOnHand - 1)])
        && r.value.1 == Reserved(s.inventory[k].name, s.inventory[k].stockOnHand - 1)
        && r.value.1.remainingStock >= 0
    ensures r.Err? ==> r.error in {NotFound, NoInventory, InsufficientStock}
  {
    match DeviceIndex(s, deviceId)
    case None => Err(NotFound)
    case Some(d) =>
      match TargetIndex(s.inventory, s.devices[d].kind)
      case None => Err(NoInventory)
      case Some(k) =>
        var item := s.inventory[k];
        if item.stockOnHand <= 0 then Err(InsufficientStock)
        else
          var item' := item.(stockOnHand := item.stockOnHand - 1);
          Ok((s.(inventory := s.inventory[k := item']), Reserved(item'.name, item'.stockOnHand)))
  }

  /** Every item's stock is non-negative. */
  ghost predicate StockNonNegative(s: Store) {
    forall k :: 0 <= k < |s.inventory| ==> s.inventory[k].stockOnHand >= 0
  }

  /** A reservation never drives stock below zero, and keeps the store well formed. */
  lemma ReservePreserves(s: Store, deviceId: int)
    requires Reserve(s, deviceId).Ok?
    ensures StockNonNegative(s) ==> StockNonNegative(Reserve(s, deviceId).value.0)
    ensures WellFormed(s) ==> WellFormed(Reserve(s, deviceId).value.0)
  {
  }

  /** A freshly created item starts with no stock, so reserving it fails
      until it is restocked. */
  lemma NewItemCannotBeReserved(s: Store, deviceId: int, id: nat, name: string)
    requires DeviceIndex(s, deviceId).Some?
    requires s.inventory == [NewInventoryItem(id, name)]
    ensures Reserve(s, deviceId) == Err(InsufficientStock)
    ensures NewInventoryItem(id, name).reorderPoint == 5
  {
  }

  // ----- repeated reservations -----

  /** `n` reservations for the same device one after another; returns the
      final store and the number that succeeded. */
  function ReserveTimes(s: Store, deviceId: int, n: nat): (Store, nat)
    decreases n
  {
    if n == 0 then (s, 0)
    else
      match Reserve(s, deviceId)
      case Err(_) => (s, 0)
      case Ok((s', _)) =>
        var (s'', m) := ReserveTimes(s', deviceId, n - 1);
        (s'', m + 1)
  }

  function Min(a: int, b: int): int { if a < b then a else b }
  function Max(a: int, b: int): int { if a < b then b else a }

  /** Against an item holding `S` units, `n` reservations succeed
      `min(n, S)` times and leave `max(S - n, 0)` units: the stock never goes
      negative and the count of successes never exceeds the stock. */
  lemma {:induction false} ReserveTimesCount(s: Store, deviceId: int, n: nat, k: nat)
    requires Reserves(s, deviceId, k)
    requires s.inventory[k].stockOnHand >= 0
    ensures var (s', m) := ReserveTimes(s, deviceId, n);
            && m == Min(n, s.inventory[k].stockOnHand)
            && |s'.inventory| == |s.inventory|
            && s'.inventory[k].stockOnHand == Max(s.inventory[k].stockOnHand - n, 0)
            && Reserves(s', deviceId, k)
    decreases n
  {
    if n > 0 && s.inventory[k].stockOnHand > 0 {
      var s1 := Reserve(s, deviceId).value.0;
      var d := DeviceIndex(s, deviceId).value;
      TargetIgnoresStock(s.inventory, k, s.inventory[k].stockOnHand - 1, s.devices[d].kind);
      assert s1.devices == s.devices;
      ReserveTimesCount(s1, deviceId, n - 1, k);
    }
  }
}
