/** The telemetry rule sweep: every device is checked against three
    independent rules (missed heartbeat, temperature, approaching end of
    life) and each rule that fires appends one open alert referencing the
    device. The clock is a parameter: `now` in seconds, `today` as a day
    number. */
module AlertRules {
  import opened Outcomes
  import opened Seqs
  import opened Models
  import opened Text

  const HeartbeatTimeoutSeconds: int := 15 * 60
  const OverheatC: real := 80.0
  const WarmC: real := 70.0
  const EolWindowDays: int := 30

  // ----- the three rules -----

  /** Rule 1: the last heartbeat is more than fifteen minutes old. */
  function HeartbeatRule(d: Device, now: int): seq<Alert> {
    if d.lastHeartbeat.Some? && now - d.lastHeartbeat.value > HeartbeatTimeoutSeconds then
      [NewAlert(Critical, HeartbeatMissed, NoHeartbeat(d.identifier), Some(d.id), now)]
    else []
  }

  /** Rule 2: overheating is checked first, so a hot device is never also warm. */
  function TemperatureRule(d: Device, now: int): seq<Alert> {
    match d.tempC
    case None => []
    case Some(t) =>
      if t >= OverheatC then
        [NewAlert(Critical, Overheat, TemperatureReading(d.identifier, t), Some(d.id), now)]
      else if t >= WarmC then
        [NewAlert(Warning, Warm, TemperatureReading(d.identifier, t), Some(d.id), now)]
      else []
  }

  /** Rule 3: end of life within thirty days; an expired device reports 0 days. */
  function EolRule(d: Device, now: int, today: int): seq<Alert> {
    match d.eolDate
    case None => []
    case Some(eol) =>
      var days := eol - today;
      if days <= EolWindowDays then
        [NewAlert(Warning, EolSoon, EolWithin(d.identifier, if days > 0 then days else 0), Some(d.id), now)]
      else []
  }

  /** The severity each rule-generated alert type is raised with. */
  function RuleSeverity(k: AlertKind): Severity {
    match k
    case HeartbeatMissed => Critical
    case Overheat => Critical
    case Warm => Warning
    case EolSoon => Warning
    case OtherKind(_) => Info
  }

  /** The alerts one device contributes to a sweep, in rule order. */
  function DeviceAlerts(d: Device, now: int, today: int): (r: seq<Alert>)
    ensures |r| <= 3
    ensures forall a :: a in r ==>
      && a.device == Some(d.id)
      && a.customer.None?
      && a.status == Open
      && a.createdAt == now
      && !a.kind.OtherKind?
      && a.severity == RuleSeverity(a.kind)
  {
    HeartbeatRule(d, now) + TemperatureRule(d, now) + EolRule(d, now, today)
  }

  // ----- counting alerts by type -----

  function CountKind(alerts: seq<Alert>, k: AlertKind): nat {
    if |alerts| == 0 then 0
    else (if alerts[0].kind == k then 1 else 0) + CountKind(alerts[1..], k)
  }

  lemma {:induction false} CountKindConcat(a: seq<Alert>, b: seq<Alert>, k: AlertKind)
    ensures CountKind(a + b, k) == CountKind(a, k) + CountKind(b, k)
    decreases |a|
  {
    if |a| == 0 {
      assert a + b == b;
    } else {
      assert (a + b)[1..] == a[1..] + b;
      CountKindConcat(a[1..], b, k);
    }
  }

  lemma CountKindDevice(d: Device, now: int, today: int, k: AlertKind)
    ensures CountKind(DeviceAlerts(d, now, today), k)
         == CountKind(HeartbeatRule(d, now), k) + CountKind(TemperatureRule(d, now), k)
          + CountKind(EolRule(d, now, today), k)
  {
  }

  // ----- per-device properties -----

  /** A missed-heartbeat alert is raised exactly when a heartbeat is recorded
      and more than 900 seconds have passed since it; 900 exactly is on time. */
  lemma HeartbeatAlertIff(d: Device, now: int, today: int)
    ensures CountKind(DeviceAlerts(d, now, today), HeartbeatMissed)
         == if d.lastHeartbeat.Some? && now > d.lastHeartbeat.value + 900 then 1 else 0
    ensures forall a :: a in DeviceAlerts(d, now, today) && a.kind == HeartbeatMissed ==>
              a.severity == Critical && a.message == NoHeartbeat(d.identifier)
  {
    CountKindDevice(d, now, today, HeartbeatMissed);
  }

  /** At or above 80 degrees: one critical overheat alert; from 70 up to 80:
      one warning; below 70 or with no reading: neither. Never both. */
  lemma TemperatureAlertIff(d: Device, now: int, today: int)
    ensures CountKind(DeviceAlerts(d, now, today), Overheat)
         == if d.tempC.Some? && d.tempC.value >= 80.0 then 1 else 0
    ensures CountKind(DeviceAlerts(d, now, today), Warm)
         == if d.tempC.Some? && 70.0 <= d.tempC.value < 80.0 then 1 else 0
    ensures CountKind(DeviceAlerts(d, now, today), Overheat)
          + CountKind(DeviceAlerts(d, now, today), Warm) <= 1
    ensures forall a :: a in DeviceAlerts(d, now, today) && (a.kind == Overheat || a.kind == Warm) ==>
              a.message == TemperatureReading(d.identifier, d.tempC.value)
  {
    CountKindDevice(d, now, today, Overheat);
    CountKindDevice(d, now, today, Warm);
  }

  /** An end-of-life alert is raised exactly when an end-of-life date is set
      and lies at most 30 days ahead (or is already past); the day count it
      reports is the distance clamped at zero. */
  lemma EolAlertIff(d: Device, now: int, today: int)
    ensures CountKind(DeviceAlerts(d, now, today), EolSoon)
         == if d.eolDate.Some? && d.eolDate.value <= today + 30 then 1 else 0
    ensures forall a :: a in DeviceAlerts(d, now, today) && a.kind == EolSoon ==>
              && a.severity == Warning
              && a.message.EolWithin?
              && a.message.identifier == d.identifier
              && a.message.days == (if d.eolDate.value < today then 0 else d.eolDate.value - today)
  {
    CountKindDevice(d, now, today, EolSoon);
  }

  // ----- the sweep -----

  /** All alerts a sweep over `devs` creates, device by device. */
  function SweepAlerts(devs: seq<Device>, now: int, today: int): (r: seq<Alert>)
    ensures |r| <= 3 * |devs|
    ensures forall a :: a in r ==>
      && a.status == Open
      && a.createdAt == now
      && a.customer.None?
      && a.device.Some?
      && exists i :: 0 <= i < |devs| && devs[i].id == a.device.value
    decreases |devs|
  {
    if |devs| == 0 then []
    else
      var rest := SweepAlerts(devs[1..], now, today);
      assert forall a :: a in rest ==> exists i :: 1 <= i < |devs| && devs[i].id == a.device.value by {
        forall a | a in rest
          ensures exists i :: 1 <= i < |devs| && devs[i].id == a.device.value
        {
          var j :| 0 <= j < |devs[1..]| && devs[1..][j].id == a.device.value;
          assert devs[j + 1].id == a.device.value;
        }
      }
      DeviceAlerts(devs[0], now, today) + rest
  }

  /** Sweeping `a` then `b` yields the alerts of `a` followed by those of
      `b`: the result is in device order. */
  lemma {:induction false} SweepAlertsSplit(a: seq<Device>, b: seq<Device>, now: int, today: int)
    ensures SweepAlerts(a + b, now, today) == SweepAlerts(a, now, today) + SweepAlerts(b, now, today)
    decreases |a|
  {
    if |a| == 0 {
      assert a + b == b;
    } else {
      assert (a + b)[1..] == a[1..] + b;
      SweepAlertsSplit(a[1..], b, now, today);
    }
  }

  /** The alerts referencing one device. */
  function AlertsFor(alerts: seq<Alert>, id: nat): seq<Alert> {
    if |alerts| == 0 then []
    else (if alerts[0].device == Some(id) then [alerts[0]] else []) + AlertsFor(alerts[1..], id)
  }

  lemma {:induction false} AlertsForConcat(a: seq<Alert>, b: seq<Alert>, id: nat)
    ensures AlertsFor(a + b, id) == AlertsFor(a, id) + AlertsFor(b, id)
    decreases |a|
  {
    if |a| == 0 {
      assert a + b == b;
    } else {
      assert (a + b)[1..] == a[1..] + b;
      AlertsForConcat(a[1..], b, id);
    }
  }

  lemma {:induction false} AlertsForNone(alerts: seq<Alert>, id: nat)
    requires forall a :: a in alerts ==> a.device != Some(id)
    ensures AlertsFor(alerts, id) == []
    decreases |alerts|
  {
    if |alerts| > 0 {
      assert alerts[0] in alerts;
      assert forall a :: a in alerts[1..] ==> a in alerts;
      AlertsForNone(alerts[1..], id);
    }
  }

  lemma {:induction false} AlertsForAll(alerts: seq<Alert>, id: nat)
    requires forall a :: a in alerts ==> a.device == Some(id)
    ensures AlertsFor(alerts, id) == alerts
    decreases |alerts|
  {
    if |alerts| > 0 {
      assert alerts[0] in alerts;
      assert forall a :: a in alerts[1..] ==> a in alerts;
      AlertsForAll(alerts[1..], id);
      assert alerts == [alerts[0]] + alerts[1..];
    }
  }

  /** With unique device keys, the alerts a sweep raises for device `i` are
      exactly that device's heartbeat, temperature and end-of-life alerts,
      in that order. */
  lemma {:induction false} SweepAlertsPerDevice(devs: seq<Device>, i: nat, now: int, today: int)
    requires Distinct(devs, DeviceKey)
    requires i < |devs|
    ensures AlertsFor(SweepAlerts(devs, now, today), devs[i].id) == DeviceAlerts(devs[i], now, today)
    decreases |devs|
  {
    var head := DeviceAlerts(devs[0], now, today);
    var rest := SweepAlerts(devs[1..], now, today);
    AlertsForConcat(head, rest, devs[i].id);
    assert Distinct(devs[1..], DeviceKey) by {
      forall p, q | 0 <= p < q < |devs[1..]|
        ensures DeviceKey(devs[1..][p]) != DeviceKey(devs[1..][q])
      {
        assert devs[1..][p] == devs[p + 1] && devs[1..][q] == devs[q + 1];
      }
    }
    if i == 0 {
      AlertsForAll(head, devs[0].id);
      forall a | a in rest
        ensures a.device != Some(devs[0].id)
      {
        var j :| 0 <= j < |devs[1..]| && devs[1..][j].id == a.device.value;
        assert DeviceKey(devs[0]) != DeviceKey(devs[j + 1]);
      }
      AlertsForNone(rest, devs[0].id);
    } else {
      assert DeviceKey(devs[0]) != DeviceKey(devs[i]);
      AlertsForNone(head, devs[i].id);
      SweepAlertsPerDevice(devs[1..], i - 1, now, today);
      assert devs[1..][i - 1] == devs[i];
    }
  }

  /** One sweep: the alerts created are appended to the store and returned. */
  function Sweep(s: Store, now: int, today: int): (r: (Store, seq<Alert>))
    ensures r.0.devices == s.devices
    ensures |r.0.alerts| == |s.alerts| + |r.1|
    ensures r.0.alerts[..|s.alerts|] == s.alerts
    ensures r.0 == s.(alerts := r.0.alerts)
    ensures r.0.alerts[|s.alerts|..] == r.1
    ensures |r.1| <= 3 * |s.devices|
    ensures forall a :: a in r.1 ==> a.status == Open && a.device.Some? && DeviceIndex(s, a.device.value).Some?
    ensures r.1 == SweepAlerts(s.devices, now, today)
  {
    var created := SweepAlerts(s.devices, now, today);
    var s' := s.(alerts := s.alerts + created);
    assert s'.alerts[..|s.alerts|] == s.alerts;
    assert s'.alerts[|s.alerts|..] == created;
    (s', created)
  }

  /** In a well-formed store, the alerts one sweep appends for a device are
      exactly what its three rules raise, in rule order. */
  lemma {:induction false} SweepRaisesDeviceAlerts(s: Store, i: nat, now: int, today: int)
    requires WellFormed(s)
    requires i < |s.devices|
    ensures AlertsFor(Sweep(s, now, today).1, s.devices[i].id) == DeviceAlerts(s.devices[i], now, today)
  {
    SweepAlertsPerDevice(s.devices, i, now, today);
  }

  /** A device created with only its required columns is active, and no rule
      fires for it until a heartbeat, temperature or end-of-life date is set. */
  lemma NewDeviceRaisesNothing(id: nat, identifier: string, kind: DeviceType, now: int, today: int)
    ensures NewDevice(id, identifier, kind).status == Active
    ensures DeviceAlerts(NewDevice(id, identifier, kind), now, today) == []
  {
  }

  /** A sweep keeps the store well formed. */
  lemma SweepWellFormed(s: Store, now: int, today: int)
    requires WellFormed(s)
    ensures WellFormed(Sweep(s, now, today).0)
  {
    var (s', created) := Sweep(s, now, today);
    forall i | 0 <= i < |s'.alerts| && s'.alerts[i].device.Some?
      ensures HasDevice(s', s'.alerts[i].device.value)
    {
      if i >= |s.alerts| {
        assert s'.alerts[i] in created;
      } else {
        assert s'.alerts[i] == s.alerts[i];
      }
    }
    forall i | 0 <= i < |s'.alerts| && s'.alerts[i].customer.Some?
      ensures HasCustomer(s', s'.alerts[i].customer.value)
    {
      if i < |s.alerts| {
        assert s'.alerts[i] == s.alerts[i];
      }
    }
  }

  /** Sweeping again over unchanged devices raises the same alerts again:
      the sweep accumulates duplicates rather than being idempotent. */
  lemma SweepTwiceDuplicates(s: Store, now: int, today: int)
    ensures var (s1, r1) := Sweep(s, now, today);
            var (s2, r2) := Sweep(s1, now, today);
            && r2 == r1
            && s2.alerts == s.alerts + r1 + r1
            && (|r1| > 0 ==> s2 != s1)
  {
  }

  // ----- message text -----

  /** The alert text as the rules write it; the float formatting of a
      temperature is a parameter. */
  function Render(m: Message, showTemp: real -> string): string {
    match m
    case NoHeartbeat(id) => "No heartbeat for >15 minutes for " + id
    case TemperatureReading(id, t) => "Device " + id + " temp " + showTemp(t) + "C"
    case EolWithin(id, days) => "Device " + id + " EOL within " + NatToString(days) + " days"
    case FreeText(t) => t
  }

  /** The end-of-life alert text reports the days left clamped at zero, in
      decimal digits that read back as that count, so it never shows a
      negative number. */
  lemma EolTextReportsClampedDays(d: Device, now: int, today: int, showTemp: real -> string)
    requires d.eolDate.Some? && d.eolDate.value <= today + 30
    ensures var r := DeviceAlerts(d, now, today);
            var days: nat := if d.eolDate.value < today then 0 else d.eolDate.value - today;
            && r[|r| - 1].kind == EolSoon
            && Render(r[|r| - 1].message, showTemp) == "Device " + d.identifier + " EOL within " + NatToString(days) + " days"
            && DigitsValue(NatToString(days)) == days
  {
    var e := EolRule(d, now, today);
    assert |e| == 1;
  }
}
