/** The entities of the `core` application and the in-memory store that
    holds them. Timestamps are whole seconds and dates are day numbers,
    both supplied by the caller; every collection is a sequence in the
    datastore's default order. */
module Models {
  import opened Outcomes
  import opened Seqs

  // ----- enumerations (the `choices` lists) -----

  datatype DeviceType = CPE | ROUTER | TOWER

  datatype DeviceStatus = Active | Maintenance | Faulty | Decommissioned

  datatype Severity = Info | Warning | Critical

  /** Alert type codes. The rule engine emits the first four; alerts created
      by other means carry any code. */
  datatype AlertKind = HeartbeatMissed | Overheat | Warm | EolSoon | OtherKind(code: string)

  /** Alert lifecycle; nothing in the core moves an alert to `Closed`. */
  datatype AlertStatus = Open | Acknowledged | Closed

  datatype BillStatus = Paid | Unpaid | Overdue

  datatype TicketStatus = TicketOpen | InProgress | Resolved

  /** The text of an alert, kept structured: which rule wrote it and the
      values it interpolates. `Render` in the rule engine spells it out. */
  datatype Message =
    | NoHeartbeat(identifier: string)
    | TemperatureReading(identifier: string, tempC: real)
    | EolWithin(identifier: string, days: nat)
    | FreeText(text: string)

  // ----- records -----

  datatype Device = Device(
    id: nat,
    identifier: string,
    kind: DeviceType,
    status: DeviceStatus,
    lastHeartbeat: Option<int>,   // seconds
    tempC: Option<real>,
    eolDate: Option<int>)         // day number

  datatype InventoryItem = InventoryItem(id: nat, name: string, stockOnHand: int, reorderPoint: int)

  datatype Plan = Plan(id: nat, name: string, speedMbps: int, monthlyPrice: int)

  datatype Customer = Customer(
    id: nat,
    name: string,
    city: string,
    tenureMonths: int,
    complaintsLast90d: int,
    lastRechargeDaysAgo: int)

  datatype Subscription = Subscription(id: nat, customer: nat, plan: nat, startDate: int, status: string)

  datatype UsageEvent = UsageEvent(customer: nat, date: int, gbUsed: real)

  datatype Alert = Alert(
    severity: Severity,
    kind: AlertKind,
    message: Message,
    device: Option<nat>,
    customer: Option<nat>,
    status: AlertStatus,
    createdAt: int)

  datatype Bill = Bill(id: nat, customer: nat, month: int, amount: real, status: BillStatus)

  datatype Ticket = Ticket(
    id: nat,
    device: Option<nat>,
    createdAt: int,
    status: TicketStatus,
    description: string,
    createdBy: string)

  /** Every table the core reads or writes. */
  datatype Store = Store(
    devices: seq<Device>,
    inventory: seq<InventoryItem>,
    plans: seq<Plan>,
    customers: seq<Customer>,
    subscriptions: seq<Subscription>,
    usage: seq<UsageEvent>,
    alerts: seq<Alert>,
    bills: seq<Bill>,
    tickets: seq<Ticket>)

  // ----- column defaults -----

  const DefaultStockOnHand: int := 0
  const DefaultReorderPoint: int := 5
  const DefaultTicketDescription: string := ""
  const DefaultCreatedBy: string := "engineer"
  const DefaultSubscriptionStatus: string := "active"

  /** A device as created with only its required columns. */
  function NewDevice(id: nat, identifier: string, kind: DeviceType): Device {
    Device(id, identifier, kind, Active, None, None, None)
  }

  function NewInventoryItem(id: nat, name: string): InventoryItem {
    InventoryItem(id, name, DefaultStockOnHand, DefaultReorderPoint)
  }

  function NewCustomer(id: nat, name: string, city: string): Customer {
    Customer(id, name, city, 0, 0, 0)
  }

  function NewSubscription(id: nat, customer: nat, plan: nat, startDate: int): Subscription {
    Subscription(id, customer, plan, startDate, DefaultSubscriptionStatus)
  }

  function NewAlert(severity: Severity, kind: AlertKind, message: Message, device: Option<nat>, createdAt: int): Alert {
    Alert(severity, kind, message, device, None, Open, createdAt)
  }

  function NewBill(id: nat, customer: nat, month: int, amount: real): Bill {
    Bill(id, customer, month, amount, Unpaid)
  }

  function NewTicket(id: nat, device: Option<nat>, createdAt: int): Ticket {
    Ticket(id, device, createdAt, TicketOpen, DefaultTicketDescription, DefaultCreatedBy)
  }

  // ----- keys and lookups -----

  function DeviceKey(d: Device): nat { d.id }
  function IdentifierKey(d: Device): string { d.identifier }
  function ItemKey(x: InventoryItem): nat { x.id }
  function PlanKey(p: Plan): nat { p.id }
  function CustomerKey(c: Customer): nat { c.id }
  function SubscriptionKey(x: Subscription): nat { x.id }
  function BillKey(b: Bill): nat { b.id }
  function SubscriberKey(x: Subscription): nat { x.customer }
  function TicketKey(t: Ticket): nat { t.id }

  /** Row filters on the primary key. */
  function DeviceWithId(id: int): Device -> bool { (d: Device) => d.id == id }
  function PlanWithId(id: int): Plan -> bool { (p: Plan) => p.id == id }
  function CustomerWithId(id: int): Customer -> bool { (c: Customer) => c.id == id }
  function BillWithId(id: int): Bill -> bool { (b: Bill) => b.id == id }

  /** Primary-key lookup of a device (`get_object` on the device endpoint). */
  function DeviceIndex(s: Store, id: int): Option<nat> {
    FirstIndex(s.devices, DeviceWithId(id))
  }

  function PlanIndex(s: Store, id: int): Option<nat> {
    FirstIndex(s.plans, PlanWithId(id))
  }

  function CustomerIndex(s: Store, id: int): Option<nat> {
    FirstIndex(s.customers, CustomerWithId(id))
  }

  function BillIndex(s: Store, id: int): Option<nat> {
    FirstIndex(s.bills, BillWithId(id))
  }

  ghost predicate HasCustomer(s: Store, id: int) {
    exists j :: 0 <= j < |s.customers| && s.customers[j].id == id
  }

  ghost predicate HasPlan(s: Store, id: int) {
    exists j :: 0 <= j < |s.plans| && s.plans[j].id == id
  }

  ghost predicate HasDevice(s: Store, id: int) {
    exists j :: 0 <= j < |s.devices| && s.devices[j].id == id
  }

  /** The subscription foreign keys hold: every subscription points at an
      existing customer and an existing plan. */
  ghost predicate ReferencesHold(s: Store) {
    forall i :: 0 <= i < |s.subscriptions| ==>
      HasCustomer(s, s.subscriptions[i].customer) && HasPlan(s, s.subscriptions[i].plan)
  }

  /** The remaining foreign keys hold: an alert's device and customer, a
      ticket's device, a bill's customer and a usage event's customer, where
      set, are existing rows. */
  ghost predicate RecordReferencesHold(s: Store) {
    && (forall i :: 0 <= i < |s.alerts| && s.alerts[i].device.Some? ==> HasDevice(s, s.alerts[i].device.value))
    && (forall i :: 0 <= i < |s.alerts| && s.alerts[i].customer.Some? ==> HasCustomer(s, s.alerts[i].customer.value))
    && (forall i :: 0 <= i < |s.tickets| && s.tickets[i].device.Some? ==> HasDevice(s, s.tickets[i].device.value))
    && (forall i :: 0 <= i < |s.bills| ==> HasCustomer(s, s.bills[i].customer))
    && (forall i :: 0 <= i < |s.usage| ==> HasCustomer(s, s.usage[i].customer))
  }

  /** The database's own guarantees: unique keys, the unique device
      identifier, and every foreign key points at an existing row. */
  ghost predicate WellFormed(s: Store) {
    && Distinct(s.devices, DeviceKey)
    && Distinct(s.devices, IdentifierKey)
    && Distinct(s.inventory, ItemKey)
    && Distinct(s.plans, PlanKey)
    && Distinct(s.customers, CustomerKey)
    && Distinct(s.subscriptions, SubscriptionKey)
    && Distinct(s.bills, BillKey)
    && Distinct(s.tickets, TicketKey)
    && ReferencesHold(s)
    && RecordReferencesHold(s)
  }

  function SubscriptionOfCustomer(customerId: int): Subscription -> bool {
    (x: Subscription) => x.customer == customerId
  }

  /** `Subscription.objects.get(customer=...)`: the one subscription of the
      customer; none is a not-found error and more than one raises. */
  function SubscriptionOf(s: Store, customerId: int): (r: Result<nat>)
    ensures r == Err(NotFound) <==>
              forall j :: 0 <= j < |s.subscriptions| ==> s.subscriptions[j].customer != customerId
    ensures r == Err(MultipleFound) <==>
              exists i, j :: 0 <= i < j < |s.subscriptions|
                && s.subscriptions[i].customer == customerId && s.subscriptions[j].customer == customerId
    ensures r.Ok? ==> r.value < |s.subscriptions| && s.subscriptions[r.value].customer == customerId
    ensures r.Ok? ==> forall j :: 0 <= j < |s.subscriptions| && j != r.value ==>
                        s.subscriptions[j].customer != customerId
    ensures r.Err? ==> r.error in {NotFound, MultipleFound}
  {
    var p := SubscriptionOfCustomer(customerId);
    match FirstIndex(s.subscriptions, p)
    case None => Err(NotFound)
    case Some(i) =>
      var later := s.subscriptions[i + 1..];
      match FirstIndex(later, p)
      case Some(j) =>
        assert s.subscriptions[i + 1 + j] == later[j];
        Err(MultipleFound)
      case None =>
        assert forall j :: i < j < |s.subscriptions| ==> s.subscriptions[j] == later[j - i - 1];
        Ok(i)
  }
}
