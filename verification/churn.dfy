/** The churn-risk heuristic: four independent weights added up and capped
    at 100, and the action the churn endpoint derives from the score. */
module Churn {
  import opened Outcomes
  import opened Models

  const LateRechargeDays: int := 28
  const UsageDropFactor: real := 0.3
  const ComplaintThreshold: int := 2
  const NewCustomerMonths: int := 3
  const MaxScore: int := 100

  /** Python truthiness of an optional float: present and non-zero. */
  predicate Truthy(x: Option<real>) {
    x.Some? && x.value != 0.0
  }

  /** The score for a customer given the 7-day and 30-day usage averages. */
  function ChurnScore(c: Customer, avg7: Option<real>, avg30: Option<real>): (score: int)
    ensures 0 <= score <= MaxScore
    ensures score % 10 == 0
  {
    var recharge := if c.lastRechargeDaysAgo != 0 && c.lastRechargeDaysAgo > LateRechargeDays then 40 else 0;
    var usage := if Truthy(avg30) && Truthy(avg7) && avg7.value < UsageDropFactor * avg30.value then 30 else 0;
    var complaints := if c.complaintsLast90d >= ComplaintThreshold then 20 else 0;
    var tenure := if c.tenureMonths < NewCustomerMonths then 10 else 0;
    var total := recharge + usage + complaints + tenure;
    if total < MaxScore then total else MaxScore
  }

  /** The usage-drop signal: both averages reported and non-zero, and the
      recent one below 30% of the longer one. */
  ghost predicate UsageDropped(avg7: Option<real>, avg30: Option<real>) {
    avg7.Some? && avg30.Some? && avg7.value != 0.0 && avg30.value != 0.0
    && 10.0 * avg7.value < 3.0 * avg30.value
  }

  /** The score is exactly the sum of the weights whose conditions hold;
      since the weights total 100 the cap never removes anything. */
  lemma ScoreIsSumOfWeights(c: Customer, avg7: Option<real>, avg30: Option<real>)
    ensures ChurnScore(c, avg7, avg30)
         == (if c.lastRechargeDaysAgo > 28 then 40 else 0)
          + (if UsageDropped(avg7, avg30) then 30 else 0)
          + (if c.complaintsLast90d >= 2 then 20 else 0)
          + (if c.tenureMonths < 3 then 10 else 0)
  {
  }

  /** A late recharge (more than 28 days ago) is worth exactly 40 points. */
  lemma RechargeWeight(c: Customer, avg7: Option<real>, avg30: Option<real>, late: int, onTime: int)
    requires late > 28 >= onTime
    ensures ChurnScore(c.(lastRechargeDaysAgo := late), avg7, avg30)
         == ChurnScore(c.(lastRechargeDaysAgo := onTime), avg7, avg30) + 40
  {
  }

  /** A usage drop is worth exactly 30 points, and a zero or missing average
      earns none of them. */
  lemma UsageDropWeight(c: Customer, avg7: Option<real>, avg30: Option<real>)
    ensures UsageDropped(avg7, avg30) ==> ChurnScore(c, avg7, avg30) == ChurnScore(c, None, None) + 30
    ensures !UsageDropped(avg7, avg30) ==> ChurnScore(c, avg7, avg30) == ChurnScore(c, None, None)
    ensures avg7 == Some(0.0) || avg30 == Some(0.0) || avg7.None? || avg30.None? ==>
              ChurnScore(c, avg7, avg30) == ChurnScore(c, None, None)
  {
  }

  /** Two or more complaints in 90 days are worth exactly 20 points. */
  lemma ComplaintWeight(c: Customer, avg7: Option<real>, avg30: Option<real>, many: int, few: int)
    requires many >= 2 > few
    ensures ChurnScore(c.(complaintsLast90d := many), avg7, avg30)
         == ChurnScore(c.(complaintsLast90d := few), avg7, avg30) + 20
  {
  }

  /** A tenure under three months is worth exactly 10 points. */
  lemma TenureWeight(c: Customer, avg7: Option<real>, avg30: Option<real>, young: int, settled: int)
    requires young < 3 <= settled
    ensures ChurnScore(c.(tenureMonths := young), avg7, avg30)
         == ChurnScore(c.(tenureMonths := settled), avg7, avg30) + 10
  {
  }

  /** More days since recharge, more complaints or a shorter tenure never
      lower the score. */
  lemma ScoreMonotone(c: Customer, c': Customer, avg7: Option<real>, avg30: Option<real>)
    requires c'.lastRechargeDaysAgo >= c.lastRechargeDaysAgo
    requires c'.complaintsLast90d >= c.complaintsLast90d
    requires c'.tenureMonths <= c.tenureMonths
    ensures ChurnScore(c', avg7, avg30) >= ChurnScore(c, avg7, avg30)
  {
  }

  // ----- the churn endpoint -----

  datatype Action = OfferDiscount | SendReminder | NormalEngagement

  /** How strongly an action intervenes. */
  function Urgency(a: Action): nat {
    match a
    case NormalEngagement => 0
    case SendReminder => 1
    case OfferDiscount => 2
  }

  /** The recommended action for a score. */
  function ActionFor(score: int): (a: Action)
    ensures a == OfferDiscount <==> score >= 70
    ensures a == SendReminder <==> 40 <= score < 70
    ensures a == NormalEngagement <==> score < 40
  {
    if score >= 70 then OfferDiscount
    else if score >= 40 then SendReminder
    else NormalEngagement
  }

  /** A higher score never recommends a milder action. */
  lemma ActionMonotone(s1: int, s2: int)
    requires s1 <= s2
    ensures Urgency(ActionFor(s1)) <= Urgency(ActionFor(s2))
  {
  }

  /** The fixed averages the endpoint scores with. */
  const DemoAvg7: real := 1.5
  const DemoAvg30: real := 5.0

  datatype ChurnReport = ChurnReport(customerName: string, city: string, score: int, action: Action)

  /** The churn endpoint: look the customer up and score it. */
  function ChurnApi(s: Store, customerId: int): (r: Result<ChurnReport>)
    ensures CustomerIndex(s, customerId).None? <==> r == Err(NotFound)
    ensures r.Err? ==> r.error == NotFound
    ensures r.Ok? ==> 0 <= r.value.score <= MaxScore && r.value.action == ActionFor(r.value.score)
    ensures r.Ok? ==>
      var c := s.customers[CustomerIndex(s, customerId).value];
      && r.value.customerName == c.name && r.value.city == c.city
      && r.value.score == ChurnScore(c, Some(DemoAvg7), Some(DemoAvg30))
  {
    match CustomerIndex(s, customerId)
    case None => Err(NotFound)
    case Some(i) =>
      var c := s.customers[i];
      var score := ChurnScore(c, Some(DemoAvg7), Some(DemoAvg30));
      Ok(ChurnReport(c.name, c.city, score, ActionFor(score)))
  }

  /** With the endpoint's fixed averages, 1.5 is not below 30% of 5.0, so the
      usage weight never fires: the score is at most 70, and the discount is
      offered only to a new, late-paying customer with two or more complaints. */
  lemma ChurnApiIgnoresUsage(s: Store, customerId: int)
    requires CustomerIndex(s, customerId).Some?
    ensures var c := s.customers[CustomerIndex(s, customerId).value];
            var r := ChurnApi(s, customerId);
            && r.Ok?
            && r.value.score == ChurnScore(c, None, None)
            && r.value.score <= 70
            && (r.value.action == OfferDiscount <==>
                  c.lastRechargeDaysAgo > 28 && c.complaintsLast90d >= 2 && c.tenureMonths < 3)
  {
  }
}
