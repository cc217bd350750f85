# Network operations core: a Dafny model

This project models the decision logic of the `core` application of a small
ISP operations service. The service monitors network devices and customer
accounts. The model covers five parts:

- **Telemetry rule sweep.** Each device is checked against three independent
  rules: missed heartbeat, temperature, and end of life soon. Each rule that
  fires appends one open alert that references the device.
- **Churn scorer.** Four weights (40, 30, 20 and 10) are added up and capped
  at 100. The churn endpoint maps the score to a recommended action.
- **Spare-part reservation.** The device type names a part. The first
  inventory item whose name contains that part name, ignoring case, is
  chosen; if none matches, the first item is chosen. One unit of its stock is
  taken.
- **Alert acknowledgement, tickets and payment.**
  - Acknowledging moves a device's open alerts to acknowledged, in bulk.
  - Opening a ticket puts the device into maintenance.
  - Paying marks a bill as paid.
- **Usage estimate and subscriptions.**
  - The bill estimate is the plan price plus 10 per GB above 100 GB. The GB
    total covers the last seven days.
  - Onboarding runs its validation, not-found and conflict checks in order
    before it writes anything.
  - The plan endpoint reads a customer's plan or changes it.

The datastore is a `Store`: a record holding one sequence per table.
Every operation is a pure function, except the usage estimate, which is a
method with a loop. Each operation returns either a new store or an `Error`.
A failing operation returns no store, so a failure never changes anything.
The clock is passed in as parameters: `now` in whole seconds, and `today`
and all dates as day numbers.

Files:

- `outcomes.dfy`: `Option`, `Result` and the error kinds.
- `seqs.dfy`: first-match search, key uniqueness and fresh keys. These stand
  in for `.filter().first()`, unique columns and auto-increment keys.
- `text.dfy`: ASCII case folding and substring search, used for the
  `icontains` lookup. Also the decimal rendering of day counts.
- `models.py` is modelled by `models.dfy`: the enumerations, the records, the
  column defaults, the store and its well-formedness. That covers unique keys,
  the unique device identifier and every foreign key: a subscription's
  customer and plan, an alert's device and customer, a ticket's device, and a
  bill's or usage event's customer.
- `alert_rules.py` is modelled by `alert_rules.dfy`.
- `churn.py`, together with the churn endpoint, is modelled by `churn.dfy`.
- The endpoints in `views.py` are modelled by four files:
  - `reservation.dfy` for `reserve_replacement`;
  - `ticketing.dfy` for `acknowledge`, `create_ticket` and `pay`;
  - `billing.dfy` for `customer_usage`;
  - `subscriptions.dfy` for `onboard` and `my_plan`, plus the finding below.

In a few places the code behaves in ways its names do not suggest; the
model follows the code:

- The bill estimate sums usage over the last seven days, from `today - 6` to
  `today`. It does not use a calendar month.
- The reservation is a read followed by a write. It is modelled as one
  sequential step. The code does not make the check and the decrement one
  atomic step, and the model does not claim they are.
- The fallback item is the first item, whatever its stock.
- The usage-drop weight needs both averages to be present and non-zero.
  Python's truthiness makes 0.0 count as absent.
- The default ticket description is the endpoint's own text,
  "Ticket created from dashboard for <identifier>". It is not the column
  default `""`.
- The churn endpoint scores with the fixed averages 1.5 and 5.0. Then
  1.5 < 0.3 × 5.0 is false, so the usage weight never fires there.

## Model

| member | source | states |
|---|---|---|
| `AlertRules.DeviceAlerts` | Prep_Project/core/alert_rules.py:7-39 | a device contributes at most three alerts per sweep; each is open, references that device, has no customer, is stamped `now`, and carries the severity its rule type prescribes |
| `AlertRules.HeartbeatAlertIff` | Prep_Project/core/alert_rules.py:9-14 | exactly one critical HEARTBEAT_MISSED alert iff a heartbeat is recorded and more than 900 s old (900 s exactly gives none), else none |
| `AlertRules.TemperatureAlertIff` | Prep_Project/core/alert_rules.py:17-29 | one OVERHEAT alert iff temp ≥ 80; one WARM alert iff 70 ≤ temp < 80; none without a reading or below 70; never both |
| `AlertRules.EolAlertIff` | Prep_Project/core/alert_rules.py:32-39 | one warning EOL_SOON alert iff an end-of-life date is set and at most 30 days ahead; the reported day count is the distance clamped at 0 |
| `AlertRules.EolTextReportsClampedDays` | Prep_Project/core/alert_rules.py:35-38 | the end-of-life alert comes last for its device, and its text is "Device <identifier> EOL within <n> days" where the digits of n read back as the clamped day count |
| `AlertRules.SweepAlerts` | Prep_Project/core/alert_rules.py:5-41 | a sweep creates at most three times as many alerts as there are devices, all open, stamped `now`, each referencing a device of the sweep |
| `AlertRules.SweepAlertsSplit` | Prep_Project/core/alert_rules.py:7-39 | alerts come out in device order: sweeping `a + b` yields the alerts of `a` followed by those of `b` |
| `AlertRules.SweepAlertsPerDevice` | Prep_Project/core/alert_rules.py:7-39 | with unique device keys, the alerts a sweep raises for one device are exactly its heartbeat, temperature and end-of-life alerts, in that order |
| `AlertRules.Sweep` | Prep_Project/core/alert_rules.py:4-41 | the sweep only appends: devices and every other table unchanged, old alerts kept as a prefix, the appended suffix equal to the returned list, which is the device-order sweep of the rules, each new alert referencing an existing device |
| `AlertRules.SweepRaisesDeviceAlerts` | Prep_Project/core/alert_rules.py:7-39 | in a well-formed store, the alerts one sweep appends for a device are exactly the alerts its three rules raise, in rule order |
| `AlertRules.NewDeviceRaisesNothing` | Prep_Project/core/models.py:29-33 | a device created with only its required columns is active, and no rule fires for it |
| `AlertRules.SweepWellFormed` | Prep_Project/core/alert_rules.py:7-41 | a sweep keeps keys, identifiers and every foreign key valid; in particular each appended alert references an existing device and no customer |
| `AlertRules.SweepTwiceDuplicates` | Prep_Project/core/alert_rules.py:7-41 | a second sweep over unchanged devices returns the same alerts and appends them again; the sweep is not idempotent |
| `Churn.ChurnScore` | Prep_Project/core/churn.py:1-24 | the score lies in [0, 100] and is a multiple of 10 |
| `Churn.ScoreIsSumOfWeights` | Prep_Project/core/churn.py:6-24 | the score equals the sum of the weights whose conditions hold, so the cap at 100 never cuts anything |
| `Churn.RechargeWeight` | Prep_Project/core/churn.py:9-10 | a recharge more than 28 days ago adds exactly 40 points compared with one 28 days ago or less |
| `Churn.UsageDropWeight` | Prep_Project/core/churn.py:13-14 | a usage drop (both averages present and non-zero, 7-day below 30% of 30-day) adds exactly 30 points; a zero or missing average adds none |
| `Churn.ComplaintWeight` | Prep_Project/core/churn.py:17-18 | two or more complaints add exactly 20 points compared with fewer |
| `Churn.TenureWeight` | Prep_Project/core/churn.py:21-22 | a tenure under 3 months adds exactly 10 points compared with 3 or more |
| `Churn.ScoreMonotone` | Prep_Project/core/churn.py:9-22 | more days since recharge, more complaints or a shorter tenure never lower the score |
| `Churn.ActionFor` | Prep_Project/core/views.py:273-278 | discount iff score ≥ 70, SMS reminder iff 40 ≤ score < 70, normal engagement iff score < 40 |
| `Churn.ActionMonotone` | Prep_Project/core/views.py:273-278 | a higher score never yields a milder action |
| `Churn.ChurnApi` | Prep_Project/core/views.py:262-285 | unknown customer iff not-found, and not-found is the only error; otherwise the customer's own name and city, the churn score computed with the fixed averages 1.5 and 5.0 (so in [0, 100]), and the action mapped from it |
| `Churn.ChurnApiIgnoresUsage` | Prep_Project/core/views.py:270-278 | with the fixed averages 1.5 and 5.0 the usage weight never fires: score ≤ 70, discount only for a late, complaining, new customer |
| `Reservation.TargetIndex` | Prep_Project/core/views.py:79-94 | no target iff there are no items; a chosen non-first item matches the part name ignoring case and no earlier item does; a non-matching first item is chosen only when no item matches |
| `Reservation.EveryTypeMapped` | Prep_Project/core/views.py:79-84 | CPE, ROUTER and TOWER each map to one of the three part names |
| `Reservation.TargetIgnoresStock` | Prep_Project/core/views.py:86-91 | which item is chosen depends on names only, not on stock |
| `Reservation.Reserve` | Prep_Project/core/views.py:75-104 | unknown device gives not-found, and only then; no items gives the no-inventory error; a target with stock ≤ 0 gives insufficient stock, and a target with positive stock always succeeds; on success only the target's stock changes, by exactly −1, and the reported remaining stock is that new value, ≥ 0 |
| `Reservation.ReservePreserves` | Prep_Project/core/views.py:96-100 | a successful reservation keeps all stock non-negative and the store well formed |
| `Reservation.NewItemCannotBeReserved` | Prep_Project/core/models.py:41-42 | a new item starts with stock 0 and reorder point 5, so reserving it fails with insufficient stock |
| `Reservation.ReserveTimesCount` | Prep_Project/core/views.py:96-104 | n reservations in sequence against stock S ≥ 0 succeed min(n, S) times and leave max(S − n, 0) |
| `Ticketing.AcknowledgeAllClears` | Prep_Project/core/views.py:51 | after the bulk update no alert of the device is open |
| `Ticketing.Acknowledge` | Prep_Project/core/views.py:45-52 | unknown device gives not-found, and not-found is the only error: a known device always succeeds and reports the number of the device's open alerts, or "nothing open" iff there were none; afterwards none of the device's alerts is open; exactly those alerts become acknowledged and every other alert and table is unchanged |
| `Ticketing.AcknowledgeTwice` | Prep_Project/core/views.py:47-50 | an immediate second call reports nothing open, which is a message and not an error, and changes nothing |
| `Ticketing.CreateTicket` | Prep_Project/core/views.py:60-67 | unknown device gives not-found, and not-found is the only error: a known device always succeeds and appends one open ticket with a new key referencing the device, with the given or default description and creator, and sets only that device's status to maintenance |
| `Ticketing.CreateTicketWellFormed` | Prep_Project/core/views.py:63-66 | ticket creation keeps keys, the unique device identifier and every foreign key valid, including the new ticket's device |
| `Ticketing.CreateTicketDefaults` | Prep_Project/core/views.py:62-63 | without optional fields the ticket is open, created by "engineer", with the dashboard description rather than the column default "" |
| `Ticketing.Pay` | Prep_Project/core/views.py:153-157 | unknown bill gives not-found, and not-found is the only error: a known bill always succeeds and that bill becomes paid with its other fields kept, and nothing else changes |
| `Ticketing.PayIdempotent` | Prep_Project/core/views.py:153-157 | paying twice equals paying once |
| `Ticketing.PayNewBill` | Prep_Project/core/models.py:122 | a new bill starts unpaid and paying it makes it paid |
| `Ticketing.PayWellFormed` | Prep_Project/core/views.py:154-156 | paying keeps the store well formed |
| `Billing.BillEstimate` | Prep_Project/core/views.py:342-346 | bill = price + max(0, total − 100) × 10; hence bill ≥ price, and bill = price iff total ≤ 100 |
| `Billing.BillEstimateMonotone` | Prep_Project/core/views.py:342-346 | more usage never lowers the bill |
| `Billing.BillEstimateExamples` | Prep_Project/core/views.py:342-346 | price 499 with 150 GB bills 999; with 80 GB bills 499 |
| `Billing.RangeTotalExtend` | Prep_Project/core/views.py:336-340 | adding one day to a day range adds exactly that day's aggregate |
| `Billing.WindowTotalAppend` | Prep_Project/core/views.py:336-340 | usage outside the last seven days, or of another customer, does not affect the total; usage inside adds its GB |
| `Billing.UsageEstimate` | Prep_Project/core/views.py:326-357 | unknown customer, or no subscription, gives not-found; more than one subscription gives the multiple-rows error; it succeeds exactly when the customer exists with one subscription, and then reports the customer's name, the plan and seven daily entries, oldest first, each that day's total; the grand total is the seven-day window total, and the bill is the estimate for the subscribed plan's price |
| `Subscriptions.CheckRequest` | Prep_Project/core/views.py:234-240 | validation error iff name, city or plan id is missing or falsy; otherwise not-found iff the plan does not exist |
| `Subscriptions.Onboard` | Prep_Project/core/views.py:220-259 | validation, then not-found, then conflict, each exactly when its condition holds and earlier checks pass, and no other error; conflict iff the first customer with that name and city already holds that plan; on success exactly one new subscription is added, and an existing customer is reused or a new one created |
| `Subscriptions.OnboardWellFormed` | Prep_Project/core/views.py:250-253 | onboarding keeps keys unique and foreign keys valid |
| `Subscriptions.OnboardTwiceConflicts` | Prep_Project/core/views.py:242-248 | repeating a successful onboarding request is refused as a conflict |
| `Models.SubscriptionOf` | Prep_Project/core/views.py:291-294 | the `.get` lookup: not-found iff the customer has no subscription, the multiple-rows error iff it has two or more, otherwise the customer's only one |
| `Subscriptions.MyPlanGet` | Prep_Project/core/views.py:290-302 | fails exactly as the subscription lookup does; otherwise reports the subscribed plan's name and price and the customer's name and city |
| `Subscriptions.MyPlanChange` | Prep_Project/core/views.py:304-319 | the subscription lookup comes first, then the plan-id check, then the plan lookup; when all three pass it succeeds, and only that subscription's plan changes, no subscription is added, and the new plan's name and price are reported |
| `Subscriptions.MyPlanChangeThenGet` | Prep_Project/core/views.py:314-319 | after a change, reading the plan reports the new plan and price |
| `OneSubscription.OnboardSecondPlanBreaksLookup` | Prep_Project/core/views.py:242-253 | onboarding a customer who already holds a plan onto another plan leaves two subscriptions, after which the plan read fails with the multiple-rows error |
| `OneSubscription.OnboardSecondPlanExample` | Prep_Project/core/views.py:242-253 | a concrete well-formed store with one subscription per customer, and a request, where that happens |
| `OneSubscription.OnboardSingle` | Prep_Project/core/views.py:242-253 | corrected onboarding: conflict iff the existing customer holds any subscription; validation and not-found as before, no other error, and otherwise the same effect |
| `OneSubscription.OnboardSingleKeepsOne` | Prep_Project/core/views.py:242-253 | the corrected onboarding keeps one subscription per customer, and the new subscription is the one the plan lookup finds |
| `OneSubscription.OnboardSingleRefusesSecondPlan` | Prep_Project/core/views.py:242-248 | the corrected onboarding refuses a customer who already holds a subscription |
| `Text.ContainsSpec` | Prep_Project/core/views.py:88 | the substring search behind `icontains` succeeds iff the needle occurs at some position |
| `Text.NatToString` | Prep_Project/core/alert_rules.py:37 | the decimal text of a day count is non-empty, all digits, reads back as the number, and has no leading zero |

## Left out

- Concurrency of reservation. The code reads the stock and then writes it,
  as two steps. Two overlapping requests can both succeed against a stock of
  1. The model runs reservations one after another and claims nothing about
  races.
- `Reservation.ReserveTimesCount`: states the min(n, S) count for sequential
  requests only. The code gives no such promise for concurrent ones.
- The web plumbing is not modelled:
  - generic CRUD view sets, routing, serializers and admin;
  - authentication and CSRF decorators;
  - HTTP status codes;
  - 405 for a wrong HTTP method;
  - malformed JSON in `onboard`;
  - string-to-integer coercion of ids.
- The dashboard and portal pages, and the per-customer bill listing with its
  `order_by('-month')`. These are read-only rendering.
- The seeding, simulation and rule-running commands. They use randomness or
  only call the sweep. Their bill formula has no included allowance and is
  not part of this model.
- Real clocks and time zones. `now` and `today` are parameters. Heartbeat age
  is compared in whole seconds, so sub-second differences are not modelled.
- Floating point. Temperatures, GB and averages are exact `real`s, and the
  0.3 factor is exact. Rounding of the bill to two decimals is not modelled.
- `AlertRules.Render`: the text of temperature alerts depends on Python's
  float formatting, which is passed in as a function. The other alert texts
  are spelled out.
- Alert primary keys and exact creation times. The sweep stamps `now`. The
  core never looks up an alert by key.
- Sites (`Device.site`), `Customer.created_at` and usage-event keys. The core
  does not use them.
- Per-device failure isolation during a sweep. The code has none, and
  nothing in the model can fail.
- `create_ticket` with `description` or `created_by` given as JSON null.
  Neither column accepts null, so that is a database error in the code; the
  model treats a present field as a string, and `Ticketing.CreateTicket`
  does not model that failure.
- Query order. `.filter(...).first()` and `.first()` on an unordered
  queryset return the row with the lowest primary key. The model takes the
  first element of each store sequence, so it assumes every sequence is kept
  in primary-key order (true when rows are only appended with fresh,
  increasing keys, as every operation here does). The sweep's loop over
  `Device.objects.all()` has no ordering either; the model takes the store
  order of the devices as the sweep's order, so "device order" in the sweep
  lemmas means store order.
- Case folding in `icontains` is ASCII only. Non-ASCII case rules of the
  database are not modelled.
- `DeviceType` has only the three declared choices. So the unmapped-type
  fallback in `reserve_replacement` is kept in `Reservation.TargetIndex`, but
  no device reaches it.
- `Billing.UsageEstimate` and `Subscriptions.MyPlanGet` require that
  subscriptions reference existing customers and plans. The database's
  foreign keys guarantee this.

## Findings

| source | as written | input that shows it | evidently intended | confidence | as-written member | corrected member |
|---|---|---|---|---|---|---|
| Prep_Project/core/views.py:242-253 | `onboard` refuses an existing customer only when they already hold the same plan; otherwise it adds a second subscription. `my_plan` (views.py:292) and `customer_usage` (views.py:330) then fail, because their `.get(customer=...)` raises on two rows and nothing catches it. | customer Asha in Pune holds plan 1; onboard `{"name": "Asha", "city": "Pune", "plan_id": 2}` | one subscription per customer, as both `.get` lookups assume; plan changes go through `my_plan` | medium, not executed | `OneSubscription.OnboardSecondPlanBreaksLookup` | `OneSubscription.OnboardSingle` |
