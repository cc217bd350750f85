/** Operator actions on devices and bills: bulk acknowledgement of a
    device's open alerts, opening a remediation ticket (which puts the device
    into maintenance), and marking a bill paid. */
module Ticketing {
  import opened Outcomes
  import opened Seqs
  import opened Models

  // ----- acknowledge -----

  predicate OpenFor(a: Alert, deviceId: int) {
    a.device == Some(deviceId) && a.status == Open
  }

  /** The number of open alerts referencing a device. */
  function CountOpenFor(alerts: seq<Alert>, deviceId: int): nat {
    if |alerts| == 0 then 0
    else (if OpenFor(alerts[0], deviceId) then 1 else 0) + CountOpenFor(alerts[1..], deviceId)
  }

  /** The bulk update: each open alert of the device becomes acknowledged. */
  function AcknowledgeAll(alerts: seq<Alert>, deviceId: int): seq<Alert> {
    seq(|alerts|, i requires 0 <= i < |alerts| =>
      if OpenFor(alerts[i], deviceId) then alerts[i].(status := Acknowledged) else alerts[i])
  }

  /** After the bulk update no alert of the device is open any more. */
  lemma {:induction false} AcknowledgeAllClears(alerts: seq<Alert>, deviceId: int)
    ensures CountOpenFor(AcknowledgeAll(alerts, deviceId), deviceId) == 0
    decreases |alerts|
  {
    if |alerts| > 0 {
      AcknowledgeAllClears(alerts[1..], deviceId);
      assert AcknowledgeAll(alerts, deviceId)[1..] == AcknowledgeAll(alerts[1..], deviceId);
    }
  }

  /** Without an open alert of the device the bulk update changes nothing. */
  lemma {:induction false} AcknowledgeAllNoop(alerts: seq<Alert>, deviceId: int)
    requires CountOpenFor(alerts, deviceId) == 0
    ensures AcknowledgeAll(alerts, deviceId) == alerts
    decreases |alerts|
  {
    if |alerts| > 0 {
      AcknowledgeAllNoop(alerts[1..], deviceId);
      assert AcknowledgeAll(alerts, deviceId)[1..] == AcknowledgeAll(alerts[1..], deviceId);
    }
  }

  datatype AckOutcome = NothingOpen | AcknowledgedCount(count: nat)

  /** Acknowledge every open alert of a device; report how many there were,
      or that there were none (a message, not an error). */
  function Acknowledge(s: Store, deviceId: int): (r: Result<(Store, AckOutcome)>)
    ensures DeviceIndex(s, deviceId).None? <==> r == Err(NotFound)
    ensures r.Err? ==> r.error == NotFound
    ensures r.Ok? ==> r.value.0 == s.(alerts := r.value.0.alerts)
    ensures r.Ok? ==> |r.value.0.alerts| == |s.alerts|
    ensures r.Ok? ==> CountOpenFor(r.value.0.alerts, deviceId) == 0
    ensures r.Ok? ==> (r.value.1 == NothingOpen <==> CountOpenFor(s.alerts, deviceId) == 0)
    ensures r.Ok? && r.value.1.AcknowledgedCount? ==> r.value.1.count == CountOpenFor(s.alerts, deviceId)
    ensures r.Ok? ==> forall i :: 0 <= i < |s.alerts| ==>
              && (OpenFor(s.alerts[i], deviceId) ==> r.value.0.alerts[i] == s.alerts[i].(status := Acknowledged))
              && (!OpenFor(s.alerts[i], deviceId) ==> r.value.0.alerts[i] == s.alerts[i])
  {
    match DeviceIndex(s, deviceId)
    case None => Err(NotFound)
    case Some(_) =>
      var count := CountOpenFor(s.alerts, deviceId);
      if count == 0 then
        AcknowledgeAllNoop(s.alerts, deviceId);
        Ok((s, NothingOpen))
      else
        AcknowledgeAllClears(s.alerts, deviceId);
        Ok((s.(alerts := AcknowledgeAll(s.alerts, deviceId)), AcknowledgedCount(count)))
  }

  /** An immediate second acknowledgement finds nothing open and changes nothing. */
  lemma AcknowledgeTwice(s: Store, deviceId: int)
    requires Acknowledge(s, deviceId).Ok?
    ensures var s1 := Acknowledge(s, deviceId).value.0;
            Acknowledge(s1, deviceId) == Ok((s1, NothingOpen))
  {
  }

  // ----- create ticket -----

  /** The description the endpoint uses when the request gives none. */
  function DashboardDescription(identifier: string): string {
    "Ticket created from dashboard for " + identifier
  }

  /** Open a ticket for a device and put the device into maintenance.
      Returns the new ticket's key. */
  function CreateTicket(s: Store, deviceId: int, description: Option<string>, createdBy: Option<string>, now: int)
    : (r: Result<(Store, nat)>)
    ensures DeviceIndex(s, deviceId).None? <==> r == Err(NotFound)
    ensures r.Err? ==> r.error == NotFound
    ensures r.Ok? ==>
      var (s', ticketId) := r.value;
      var d := DeviceIndex(s, deviceId).value;
      && s' == s.(devices := s'.devices, tickets := s'.tickets)
      && (forall i :: 0 <= i < |s.tickets| ==> s.tickets[i].id != ticketId)
      && s'.tickets == s.tickets + [Ticket(ticketId, Some(deviceId as nat), now, TicketOpen,
                                           description.GetOr(DashboardDescription(s.devices[d].identifier)),
                                           createdBy.GetOr(DefaultCreatedBy))]
      && |s'.devices| == |s.devices|
      && s'.devices[d] == s.devices[d].(status := Maintenance)
      && (forall i :: 0 <= i < |s.devices| && i != d ==> s'.devices[i] == s.devices[i])
  {
    match DeviceIndex(s, deviceId)
    case None => Err(NotFound)
    case Some(d) =>
      var dev := s.devices[d];
      var id := FreshKey(s.tickets, TicketKey);
      var ticket := NewTicket(id, Some(dev.id), now).(
        description := description.GetOr(DashboardDescription(dev.identifier)),
        createdBy := createdBy.GetOr(DefaultCreatedBy));
      Ok((s.(tickets := s.tickets + [ticket], devices := s.devices[d := dev.(status := Maintenance)]), id))
  }

  /** Creating a ticket keeps keys and identifiers unique and every foreign
      key valid; the new ticket references the device it was created for. */
  lemma CreateTicketWellFormed(s: Store, deviceId: int, description: Option<string>, createdBy: Option<string>, now: int)
    requires WellFormed(s)
    requires CreateTicket(s, deviceId, description, createdBy, now).Ok?
    ensures WellFormed(CreateTicket(s, deviceId, description, createdBy, now).value.0)
  {
  }

  /** Without the optional fields the ticket carries the endpoint's dashboard
      description, which differs from the column default of "", and the
      default creator "engineer". */
  lemma CreateTicketDefaults(s: Store, deviceId: int, now: int)
    requires CreateTicket(s, deviceId, None, None, now).Ok?
    ensures var s' := CreateTicket(s, deviceId, None, None, now).value.0;
            var t := s'.tickets[|s'.tickets| - 1];
            && t.status == TicketOpen
            && t.createdBy == "engineer"
            && t.description != DefaultTicketDescription
            && t.description == "Ticket created from dashboard for " + s.devices[DeviceIndex(s, deviceId).value].identifier
  {
  }

  // ----- pay -----

  /** Mark a bill paid. */
  function Pay(s: Store, billId: int): (r: Result<Store>)
    ensures BillIndex(s, billId).None? <==> r == Err(NotFound)
    ensures r.Err? ==> r.error == NotFound
    ensures r.Ok? ==>
      var k := BillIndex(s, billId).value;
      && r.value == s.(bills := r.value.bills)
      && |r.value.bills| == |s.bills|
      && r.value.bills[k].status == Paid
      && r.value.bills[k] == s.bills[k].(status := Paid)
      && (forall i :: 0 <= i < |s.bills| && i != k ==> r.value.bills[i] == s.bills[i])
  {
    match BillIndex(s, billId)
    case None => Err(NotFound)
    case Some(k) => Ok(s.(bills := s.bills[k := s.bills[k].(status := Paid)]))
  }

  /** Paying again finds the same bill, already paid, and changes nothing more. */
  lemma {:induction false} PayIdempotent(s: Store, billId: int)
    requires Pay(s, billId).Ok?
    ensures BillIndex(Pay(s, billId).value, billId) == BillIndex(s, billId)
    ensures Pay(Pay(s, billId).value, billId) == Pay(s, billId)
  {
    var s1 := Pay(s, billId).value;
    FirstIndexSame(s1.bills, s.bills, BillWithId(billId));
    var k := BillIndex(s, billId).value;
    assert s1.bills[k := s1.bills[k].(status := Paid)] == s1.bills;
  }

  /** A new bill starts unpaid; paying it leaves it paid. */
  lemma PayNewBill(s: Store, id: nat, customer: nat, month: int, amount: real)
    requires BillIndex(s, id).None?
    ensures NewBill(id, customer, month, amount).status == Unpaid
    ensures var s1 := s.(bills := s.bills + [NewBill(id, customer, month, amount)]);
            Pay(s1, id).Ok? && Pay(s1, id).value.bills[|s.bills|].status == Paid
  {
    var s1 := s.(bills := s.bills + [NewBill(id, customer, month, amount)]);
    assert BillWithId(id)(s1.bills[|s.bills|]);
    assert BillIndex(s1, id).Some?;
    assert forall j :: 0 <= j < |s.bills| ==> s1.bills[j] == s.bills[j];
  }

  /** Paying keeps the store well formed. */
  lemma PayWellFormed(s: Store, billId: int)
    requires WellFormed(s)
    requires Pay(s, billId).Ok?
    ensures WellFormed(Pay(s, billId).value)
  {
  }
}
