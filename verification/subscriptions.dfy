/** Onboarding a customer onto a plan, and reading or changing the plan a
    customer is subscribed to. */
module Subscriptions {
  import opened Outcomes
  import opened Seqs
  import opened Models

  /** Python truthiness of an optional request field: present and non-empty. */
  predicate Given(x: Option<string>) {
    x.Some? && x.value != ""
  }

  /** Truthiness of an optional key: present and non-zero. */
  predicate GivenId(x: Option<int>) {
    x.Some? && x.value != 0
  }

  datatype OnboardRequest = OnboardRequest(name: Option<string>, city: Option<string>, planId: Option<int>)

  predicate Complete(req: OnboardRequest) {
    Given(req.name) && Given(req.city) && GivenId(req.planId)
  }

  function CustomerNamed(name: string, city: string): Customer -> bool {
    (c: Customer) => c.name == name && c.city == city
  }

  function SubscriptionTo(customerId: int, planId: int): Subscription -> bool {
    (x: Subscription) => x.customer == customerId && x.plan == planId
  }

  /** The first customer with this name and city, if any. */
  function ExistingCustomer(s: Store, name: string, city: string): Option<nat> {
    FirstIndex(s.customers, CustomerNamed(name, city))
  }

  /** The customer holds a subscription to the plan. */
  ghost predicate Subscribed(s: Store, customerId: int, planId: int) {
    exists j :: 0 <= j < |s.subscriptions| && s.subscriptions[j].customer == customerId
                && s.subscriptions[j].plan == planId
  }

  /** A request that passed validation, with the plan and the customer it found. */
  datatype Checked = Checked(name: string, city: string, plan: nat, existing: Option<nat>)

  /** The checks that precede any write: required fields, then the plan. */
  function CheckRequest(s: Store, req: OnboardRequest): (r: Result<Checked>)
    ensures r == Err(Validation) <==> !Complete(req)
    ensures r == Err(NotFound) <==> Complete(req) && !HasPlan(s, req.planId.value)
    ensures r.Ok? ==> Complete(req) && r.value.plan == req.planId.value && HasPlan(s, r.value.plan)
                      && r.value.name == req.name.value && r.value.city == req.city.value
                      && r.value.existing == ExistingCustomer(s, r.value.name, r.value.city)
    ensures r.Err? ==> r.error in {Validation, NotFound}
  {
    if !Complete(req) then Err(Validation)
    else
      match PlanIndex(s, req.planId.value)
      case None => Err(NotFound)
      case Some(p) =>
        var name := req.name.value;
        var city := req.city.value;
        Ok(Checked(name, city, s.plans[p].id, ExistingCustomer(s, name, city)))
  }

  datatype Onboarded = Onboarded(customerId: nat, subscriptionId: nat)

  /** The writes: reuse the customer found or create one, then add one subscription. */
  function Activate(s: Store, c: Checked, today: int): (r: (Store, Onboarded))
    requires c.existing.Some? ==> c.existing.value < |s.customers|
  {
    var (customers, cid) :=
      match c.existing
      case Some(i) => (s.customers, s.customers[i].id)
      case None =>
        var id := FreshKey(s.customers, CustomerKey);
        (s.customers + [NewCustomer(id, c.name, c.city)], id);
    var sid := FreshKey(s.subscriptions, SubscriptionKey);
    var sub := NewSubscription(sid, cid, c.plan, today);
    (s.(customers := customers, subscriptions := s.subscriptions + [sub]), Onboarded(cid, sid))
  }

  /** What a successful onboarding did to the store: exactly one new
      subscription to the plan; the customer reused when one with that name
      and city exists, otherwise created; nothing else touched. */
  ghost predicate OnboardEffect(s: Store, c: Checked, today: int, s': Store, out: Onboarded) {
    && s' == s.(customers := s'.customers, subscriptions := s'.subscriptions)
    && (forall j :: 0 <= j < |s.subscriptions| ==> s.subscriptions[j].id != out.subscriptionId)
    && s'.subscriptions == s.subscriptions + [Subscription(out.subscriptionId, out.customerId, c.plan, today, "active")]
    && (match ExistingCustomer(s, c.name, c.city)
        case Some(i) => s'.customers == s.customers && out.customerId == s.customers[i].id
        case None =>
          && (forall j :: 0 <= j < |s.customers| ==> s.customers[j].id != out.customerId)
          && s'.customers == s.customers + [Customer(out.customerId, c.name, c.city, 0, 0, 0)])
  }

  lemma ActivateEffect(s: Store, c: Checked, today: int)
    requires c.existing == ExistingCustomer(s, c.name, c.city)
    ensures var (s', out) := Activate(s, c, today); OnboardEffect(s, c, today, s', out)
  {
  }

  /** The onboarding endpoint as written: a customer already subscribed to
      this very plan is refused; one subscribed to other plans is not. */
  function Onboard(s: Store, req: OnboardRequest, today: int): (r: Result<(Store, Onboarded)>)
    ensures r == Err(Validation) <==> !Complete(req)
    ensures r == Err(NotFound) <==> Complete(req) && !HasPlan(s, req.planId.value)
    ensures r == Err(Conflict) <==>
      && Complete(req) && HasPlan(s, req.planId.value)
      && ExistingCustomer(s, req.name.value, req.city.value).Some?
      && Subscribed(s, s.customers[ExistingCustomer(s, req.name.value, req.city.value).value].id, req.planId.value)
    ensures r.Err? ==> r.error == Validation || r.error == NotFound || r.error == Conflict
    ensures r.Ok? ==> OnboardEffect(s, CheckRequest(s, req).value, today, r.value.0, r.value.1)
  {
    match CheckRequest(s, req)
    case Err(e) => Err(e)
    case Ok(c) =>
      if c.existing.Some? && FirstIndex(s.subscriptions, SubscriptionTo(s.customers[c.existing.value].id, c.plan)).Some? then
        Err(Conflict)
      else
        ActivateEffect(s, c, today);
        Ok(Activate(s, c, today))
  }

  /** Onboarding preserves unique keys and foreign keys. */
  lemma OnboardWellFormed(s: Store, req: OnboardRequest, today: int)
    requires WellFormed(s)
    requires Onboard(s, req, today).Ok?
    ensures WellFormed(Onboard(s, req, today).value.0)
  {
    var (s', out) := Onboard(s, req, today).value;
    var c := CheckRequest(s, req).value;
    var sub := s'.subscriptions[|s.subscriptions|];
    DistinctAppend(s.subscriptions, sub, SubscriptionKey);
    match ExistingCustomer(s, c.name, c.city) {
      case Some(i) =>
        assert HasCustomer(s', out.customerId);
      case None =>
        DistinctAppend(s.customers, s'.customers[|s.customers|], CustomerKey);
        assert s'.customers[|s.customers|].id == out.customerId;
        assert HasCustomer(s', out.customerId);
    }
    forall id | HasCustomer(s, id)
      ensures HasCustomer(s', id)
    {
      var j :| 0 <= j < |s.customers| && s.customers[j].id == id;
      assert s'.customers[j] == s.customers[j];
    }
    assert forall id :: HasPlan(s', id) == HasPlan(s, id);
    forall i | 0 <= i < |s'.subscriptions|
      ensures HasCustomer(s', s'.subscriptions[i].customer) && HasPlan(s', s'.subscriptions[i].plan)
    {
      if i < |s.subscriptions| {
        assert s'.subscriptions[i] == s.subscriptions[i];
      }
    }
  }

  /** Repeating a successful onboarding request is refused as a conflict:
      the customer now exists and holds that plan. */
  lemma {:induction false} OnboardTwiceConflicts(s: Store, req: OnboardRequest, today: int)
    requires Onboard(s, req, today).Ok?
    ensures Onboard(Onboard(s, req, today).value.0, req, today) == Err(Conflict)
  {
    var (s', out) := Onboard(s, req, today).value;
    var c := CheckRequest(s, req).value;
    assert HasPlan(s', c.plan);
    var p := CustomerNamed(c.name, c.city);
    var i' := ExistingCustomer(s', c.name, c.city);
    match ExistingCustomer(s, c.name, c.city) {
      case Some(i) =>
        assert i' == Some(i);
      case None =>
        assert p(s'.customers[|s.customers|]);
        assert forall j :: 0 <= j < |s.customers| ==> s'.customers[j] == s.customers[j];
        assert i' == Some(|s.customers|);
    }
    assert s'.customers[i'.value].id == out.customerId;
    var k := |s.subscriptions|;
    assert s'.subscriptions[k].customer == out.customerId && s'.subscriptions[k].plan == c.plan;
    assert Subscribed(s', s'.customers[i'.value].id, req.planId.value);
  }

  // ----- my plan -----

  datatype PlanView = PlanView(customerName: string, city: string, planName: string, price: int)

  /** Reading a customer's plan: the customer's one subscription, its
      customer and its plan. */
  function MyPlanGet(s: Store, customerId: int): (r: Result<PlanView>)
    requires ReferencesHold(s)
    ensures r.Err? <==> SubscriptionOf(s, customerId).Err?
    ensures r.Err? ==> r.error == SubscriptionOf(s, customerId).error
    ensures r.Ok? ==>
      var sub := s.subscriptions[SubscriptionOf(s, customerId).value];
      && (exists j :: 0 <= j < |s.plans| && s.plans[j].id == sub.plan
                      && r.value.planName == s.plans[j].name && r.value.price == s.plans[j].monthlyPrice)
      && (exists j :: 0 <= j < |s.customers| && s.customers[j].id == sub.customer
                      && r.value.customerName == s.customers[j].name && r.value.city == s.customers[j].city)
  {
    match SubscriptionOf(s, customerId)
    case Err(e) => Err(e)
    case Ok(k) =>
      var sub := s.subscriptions[k];
      assert HasCustomer(s, sub.customer) && HasPlan(s, sub.plan);
      var c := s.customers[CustomerIndex(s, sub.customer).value];
      var p := s.plans[PlanIndex(s, sub.plan).value];
      Ok(PlanView(c.name, c.city, p.name, p.monthlyPrice))
  }

  datatype PlanChanged = PlanChanged(planName: string, price: int)

  /** Changing a customer's plan: the subscription is looked up first, then
      the new plan id is required, then the plan must exist; the existing
      subscription is re-pointed rather than a new one created. */
  function MyPlanChange(s: Store, customerId: int, newPlanId: Option<int>): (r: Result<(Store, PlanChanged)>)
    ensures SubscriptionOf(s, customerId).Err? ==> r == Err(SubscriptionOf(s, customerId).error)
    ensures SubscriptionOf(s, customerId).Ok? && !GivenId(newPlanId) ==> r == Err(Validation)
    ensures SubscriptionOf(s, customerId).Ok? && GivenId(newPlanId) && !HasPlan(s, newPlanId.value) ==>
              r == Err(NotFound)
    ensures SubscriptionOf(s, customerId).Ok? && GivenId(newPlanId) && HasPlan(s, newPlanId.value) ==> r.Ok?
    ensures r.Ok? ==>
      var k := SubscriptionOf(s, customerId).value;
      var s' := r.value.0;
      && GivenId(newPlanId) && HasPlan(s, newPlanId.value)
      && s' == s.(subscriptions := s'.subscriptions)
      && |s'.subscriptions| == |s.subscriptions|
      && s'.subscriptions[k] == s.subscriptions[k].(plan := newPlanId.value as nat)
      && (forall j :: 0 <= j < |s.subscriptions| && j != k ==> s'.subscriptions[j] == s.subscriptions[j])
      && (exists j :: 0 <= j < |s.plans| && s.plans[j].id == newPlanId.value
                      && r.value.1 == PlanChanged(s.plans[j].name, s.plans[j].monthlyPrice))
  {
    match SubscriptionOf(s, customerId)
    case Err(e) => Err(e)
    case Ok(k) =>
      if !GivenId(newPlanId) then Err(Validation)
      else
        match PlanIndex(s, newPlanId.value)
        case None => Err(NotFound)
        case Some(p) =>
          var plan := s.plans[p];
          Ok((s.(subscriptions := s.subscriptions[k := s.subscriptions[k].(plan := plan.id)]),
              PlanChanged(plan.name, plan.monthlyPrice)))
  }

  /** After a change, reading the plan reports the new plan and its price. */
  lemma {:induction false} MyPlanChangeThenGet(s: Store, customerId: int, newPlanId: Option<int>)
    requires WellFormed(s)
    requires MyPlanChange(s, customerId, newPlanId).Ok?
    ensures ReferencesHold(MyPlanChange(s, customerId, newPlanId).value.0)
    ensures var (s', changed) := MyPlanChange(s, customerId, newPlanId).value;
            MyPlanGet(s', customerId).Ok?
            && MyPlanGet(s', customerId).value.planName == changed.planName
            && MyPlanGet(s', customerId).value.price == changed.price
  {
  }
}

/** The onboarding endpoint lets a customer who already holds one plan take
    a second one, after which the lookups that expect exactly one
    subscription per customer fail. This module exhibits that, and gives the
    onboarding that keeps one subscription per customer. */
module OneSubscription {
  import opened Outcomes
  import opened Seqs
  import opened Models
  import opened Subscriptions

  /** Each customer holds at most one subscription. */
  ghost predicate OneSubscriptionEach(s: Store) {
    Distinct(s.subscriptions, SubscriberKey)
  }

  /** As written: onboarding a customer who already holds a subscription onto
      another plan leaves two subscriptions, and reading the plan then fails
      with the multiple-rows error. */
  lemma OnboardSecondPlanBreaksLookup(s: Store, req: OnboardRequest, today: int)
    requires WellFormed(s)
    requires Onboard(s, req, today).Ok?
    requires ExistingCustomer(s, req.name.value, req.city.value).Some?
    requires SubscriptionOf(s, Onboard(s, req, today).value.1.customerId).Ok?
    ensures var (s', out) := Onboard(s, req, today).value;
            && ReferencesHold(s')
            && !OneSubscriptionEach(s')
            && SubscriptionOf(s', out.customerId) == Err(MultipleFound)
            && MyPlanGet(s', out.customerId) == Err(MultipleFound)
  {
    var (s', out) := Onboard(s, req, today).value;
    OnboardWellFormed(s, req, today);
    var k := SubscriptionOf(s, out.customerId).value;
    var n := |s.subscriptions|;
    assert s'.subscriptions[k] == s.subscriptions[k];
    assert s'.subscriptions[n].customer == out.customerId;
    assert SubscriberKey(s'.subscriptions[k]) == SubscriberKey(s'.subscriptions[n]);
  }

  /** A store where Asha in Pune holds plan 1 of two plans. */
  function ExampleStore(): Store {
    Store([], [], [Plan(1, "Basic", 50, 499), Plan(2, "Pro", 200, 999)],
          [Customer(1, "Asha", "Pune", 0, 0, 0)],
          [Subscription(1, 1, 1, 0, "active")], [], [], [], [])
  }

  lemma ExampleStoreWellFormed()
    ensures WellFormed(ExampleStore()) && OneSubscriptionEach(ExampleStore())
    ensures SubscriptionOf(ExampleStore(), 1) == Ok(0)
  {
    var s := ExampleStore();
    assert s.customers[0].id == 1 && s.plans[0].id == 1;
    assert HasCustomer(s, 1) && HasPlan(s, 1);
  }

  /** A concrete instance: Asha is onboarded onto plan 2 as well, and her
      plan can no longer be read. */
  lemma OnboardSecondPlanExample()
    ensures WellFormed(ExampleStore()) && OneSubscriptionEach(ExampleStore())
    ensures var req := OnboardRequest(Some("Asha"), Some("Pune"), Some(2));
            && Onboard(ExampleStore(), req, 1).Ok?
            && MyPlanGet(Onboard(ExampleStore(), req, 1).value.0, 1) == Err(MultipleFound)
  {
    ExampleStoreWellFormed();
  }

  /** Corrected: a customer who already holds any subscription is refused;
      a plan change goes through the plan-change endpoint instead. */
  function OnboardSingle(s: Store, req: OnboardRequest, today: int): (r: Result<(Store, Onboarded)>)
    ensures r == Err(Validation) <==> !Complete(req)
    ensures r == Err(NotFound) <==> Complete(req) && !HasPlan(s, req.planId.value)
    ensures r == Err(Conflict) <==>
      && Complete(req) && HasPlan(s, req.planId.value)
      && ExistingCustomer(s, req.name.value, req.city.value).Some?
      && SubscriptionOf(s, s.customers[ExistingCustomer(s, req.name.value, req.city.value).value].id) != Err(NotFound)
    ensures r.Err? ==> r.error == Validation || r.error == NotFound || r.error == Conflict
    ensures r.Ok? ==> OnboardEffect(s, CheckRequest(s, req).value, today, r.value.0, r.value.1)
  {
    match CheckRequest(s, req)
    case Err(e) => Err(e)
    case Ok(c) =>
      if c.existing.Some? && SubscriptionOf(s, s.customers[c.existing.value].id) != Err(NotFound) then
        Err(Conflict)
      else
        ActivateEffect(s, c, today);
        Ok(Activate(s, c, today))
  }

  /** The corrected onboarding keeps one subscription per customer, and the
      new customer's plan can be read back. */
  lemma OnboardSingleKeepsOne(s: Store, req: OnboardRequest, today: int)
    requires WellFormed(s) && OneSubscriptionEach(s)
    requires OnboardSingle(s, req, today).Ok?
    ensures var (s', out) := OnboardSingle(s, req, today).value;
            && OneSubscriptionEach(s')
            && SubscriptionOf(s', out.customerId) == Ok(|s.subscriptions|)
  {
    var (s', out) := OnboardSingle(s, req, today).value;
    var c := CheckRequest(s, req).value;
    var n := |s.subscriptions|;
    forall j | 0 <= j < n
      ensures s.subscriptions[j].customer != out.customerId
    {
      match ExistingCustomer(s, c.name, c.city) {
        case Some(i) =>
          assert SubscriptionOf(s, s.customers[i].id) == Err(NotFound);
        case None =>
          assert HasCustomer(s, s.subscriptions[j].customer);
      }
    }
    DistinctAppend(s.subscriptions, s'.subscriptions[n], SubscriberKey);
    assert s'.subscriptions == s.subscriptions + [s'.subscriptions[n]];
    assert forall j :: 0 <= j < n ==> s'.subscriptions[j] == s.subscriptions[j];
  }

  /** Onboarding a customer onto a second plan is refused by the corrected endpoint. */
  lemma OnboardSingleRefusesSecondPlan(s: Store, req: OnboardRequest, today: int)
    requires Complete(req) && HasPlan(s, req.planId.value)
    requires ExistingCustomer(s, req.name.value, req.city.value).Some?
    requires SubscriptionOf(s, s.customers[ExistingCustomer(s, req.name.value, req.city.value).value].id).Ok?
    ensures OnboardSingle(s, req, today) == Err(Conflict)
  {
  }
}
