/** The usage-and-bill estimate: a customer's usage over the last seven
    days (today and the six days before), day by day, and a bill of the plan
    price plus an overage charge for usage beyond the included allowance. */
module Billing {
  import opened Outcomes
  import opened Models

  const IncludedGb: real := 100.0
  const OverageRate: real := 10.0
  const WindowDays: int := 7

  /** The bill for a plan price and a usage total. */
  function BillEstimate(price: int, totalGb: real): (bill: real)
    ensures bill == price as real + (if totalGb - IncludedGb > 0.0 then totalGb - IncludedGb else 0.0) * OverageRate
    ensures bill >= price as real
    ensures bill == price as real <==> totalGb <= IncludedGb
  {
    var bill := price as real;
    if totalGb > IncludedGb then bill + (totalGb - IncludedGb) * OverageRate else bill
  }

  /** More usage never makes the bill smaller. */
  lemma BillEstimateMonotone(price: int, t1: real, t2: real)
    requires t1 <= t2
    ensures BillEstimate(price, t1) <= BillEstimate(price, t2)
  {
  }

  /** The worked examples: price 499 with 150 GB bills 999; with 80 GB, 499. */
  lemma BillEstimateExamples()
    ensures BillEstimate(499, 150.0) == 999.0
    ensures BillEstimate(499, 80.0) == 499.0
  {
  }

  // ----- usage aggregation -----

  /** Usage a customer recorded on one day (`Sum(gb_used)` for that date, or 0). */
  function DayTotal(events: seq<UsageEvent>, customerId: int, day: int): real {
    if |events| == 0 then 0.0
    else
      (if events[0].customer == customerId && events[0].date == day then events[0].gbUsed else 0.0)
      + DayTotal(events[1..], customerId, day)
  }

  /** Usage a customer recorded on days `lo` up to but excluding `hi`. */
  function RangeTotal(events: seq<UsageEvent>, customerId: int, lo: int, hi: int): real {
    if |events| == 0 then 0.0
    else
      (if events[0].customer == customerId && lo <= events[0].date < hi then events[0].gbUsed else 0.0)
      + RangeTotal(events[1..], customerId, lo, hi)
  }

  /** Usage in the seven days ending today. */
  function WindowTotal(events: seq<UsageEvent>, customerId: int, today: int): real {
    RangeTotal(events, customerId, today - (WindowDays - 1), today + 1)
  }

  /** An empty day range holds no usage. */
  lemma {:induction false} RangeTotalEmpty(events: seq<UsageEvent>, customerId: int, day: int)
    ensures RangeTotal(events, customerId, day, day) == 0.0
    decreases |events|
  {
    if |events| > 0 {
      RangeTotalEmpty(events[1..], customerId, day);
    }
  }

  /** Widening a day range by one day adds exactly that day's usage. */
  lemma {:induction false} RangeTotalExtend(events: seq<UsageEvent>, customerId: int, lo: int, hi: int)
    requires lo <= hi
    ensures RangeTotal(events, customerId, lo, hi + 1)
         == RangeTotal(events, customerId, lo, hi) + DayTotal(events, customerId, hi)
    decreases |events|
  {
    if |events| > 0 {
      RangeTotalExtend(events[1..], customerId, lo, hi);
    }
  }

  /** An event outside the seven-day window, or of another customer, does
      not count toward the bill; one inside adds its usage. */
  lemma {:induction false} WindowTotalAppend(events: seq<UsageEvent>, e: UsageEvent, customerId: int, today: int)
    ensures WindowTotal(events + [e], customerId, today)
         == WindowTotal(events, customerId, today)
          + (if e.customer == customerId && today - 6 <= e.date <= today then e.gbUsed else 0.0)
    decreases |events|
  {
    if |events| == 0 {
      assert events + [e] == [e];
    } else {
      assert (events + [e])[1..] == events[1..] + [e];
      WindowTotalAppend(events[1..], e, customerId, today);
    }
  }

  datatype DayUsage = DayUsage(day: int, gbUsed: real)

  datatype Estimate = Estimate(
    customerName: string,
    planName: string,
    monthlyPrice: int,
    usage: seq<DayUsage>,
    totalGb: real,
    bill: real)

  /** The usage endpoint: the customer, its one subscription and that plan;
      then the last seven days oldest first, their total and the bill. */
  method UsageEstimate(s: Store, customerId: int, today: int) returns (r: Result<Estimate>)
    requires ReferencesHold(s)
    ensures CustomerIndex(s, customerId).None? ==> r == Err(NotFound)
    ensures CustomerIndex(s, customerId).Some? && SubscriptionOf(s, customerId).Err? ==>
              r == Err(SubscriptionOf(s, customerId).error)
    ensures r.Ok? <==> CustomerIndex(s, customerId).Some? && SubscriptionOf(s, customerId).Ok?
    ensures r.Ok? ==> r.value.customerName == s.customers[CustomerIndex(s, customerId).value].name
    ensures r.Ok? ==>
      var e := r.value;
      var sub := s.subscriptions[SubscriptionOf(s, customerId).value];
      && (exists j :: 0 <= j < |s.plans| && s.plans[j].id == sub.plan && s.plans[j].monthlyPrice == e.monthlyPrice
                      && s.plans[j].name == e.planName)
      && |e.usage| == WindowDays
      && (forall k :: 0 <= k < |e.usage| ==>
            e.usage[k] == DayUsage(today - 6 + k, DayTotal(s.usage, customerId, today - 6 + k)))
      && e.totalGb == WindowTotal(s.usage, customerId, today)
      && e.bill == BillEstimate(e.monthlyPrice, e.totalGb)
  {
    var c := CustomerIndex(s, customerId);
    if c.None? {
      return Err(NotFound);
    }
    var customer := s.customers[c.value];
    var sub := SubscriptionOf(s, customerId);
    if sub.Err? {
      return Err(sub.error);
    }
    var planId := s.subscriptions[sub.value].plan;
    var p := PlanIndex(s, planId);
    assert HasPlan(s, planId);
    var plan := s.plans[p.value];

    var usage: seq<DayUsage> := [];
    var total: real := 0.0;
    var i := WindowDays - 1;
    RangeTotalEmpty(s.usage, customerId, today - 6);
    while i >= 0
      invariant -1 <= i <= WindowDays - 1
      invariant |usage| == WindowDays - 1 - i
      invariant forall k :: 0 <= k < |usage| ==>
                  usage[k] == DayUsage(today - 6 + k, DayTotal(s.usage, customerId, today - 6 + k))
      invariant total == RangeTotal(s.usage, customerId, today - 6, today - i)
      decreases i
    {
      var day := today - i;
      var gb := DayTotal(s.usage, customerId, day);
      usage := usage + [DayUsage(day, gb)];
      RangeTotalExtend(s.usage, customerId, today - 6, day);
      total := total + gb;
      i := i - 1;
    }
    r := Ok(Estimate(customer.name, plan.name, plan.monthlyPrice, usage, total, BillEstimate(plan.monthlyPrice, total)));
  }
}
