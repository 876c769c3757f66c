/** Whole-client runs: the wizard, the watchdog and the store driven together
    through the operations of the other modules. */
module Scenarios {
  import opened Wrappers
  import opened Types
  import opened InactivityHook
  import opened ApiService
  import opened PatientFormPage

  /** A patient answers every question, the browser reports a position and
      the patient presses the emergency button: the tier is HIGH and exactly
      one NEW alert, carrying the report as submitted, heads the store. */
  method EmergencyReport(store: AlertStore, now: int) returns (tier: Option<RiskLevel>)
    requires store.Valid()
    modifies store
    ensures store.Valid()
    ensures tier == Some(HIGH)
    ensures |store.alerts| == |old(store.alerts)| + 1 && store.alerts[1..] == old(store.alerts)
    ensures store.alerts[0].status == NEW && store.alerts[0].riskLevel == HIGH
    ensures store.alerts[0].id == old(store.nextId) && store.alerts[0].userPhone == "+2348012345678"
    ensures store.alerts[0].symptoms ==
      SymptomData(Some(ChestPain), Some(true), Some(true), Some(true), Some(MoreThan60), "+2348012345678",
                  EmptyLocation.(lat := Some(NonZero), lng := Some(NonZero)))
  {
    var form := new PatientForm(now);
    form.SetMainSymptom(ChestPain);
    form.SetDetail(Crushing, true);
    form.SetDetail(Radiates, true);
    form.SetDetail(Sweating, true);
    form.SetDuration(MoreThan60);
    form.SetPhone("+2348012345678");
    form.ReceiveGeoFix(GeoFix(NonZero, NonZero));
    var started;
    started, tier := form.Submit(store, true, LOW, 0, now + 1000);
  }

  /** Pressing submit a second time before the page moves on sends nothing:
      one submission, one alert. */
  method DoubleSubmit(store: AlertStore, now: int) returns (first: bool, second: bool)
    requires store.Valid()
    modifies store
    ensures store.Valid()
    ensures first && !second
    ensures |store.alerts| == |old(store.alerts)| + 1
  {
    var form := new PatientForm(now);
    var tier;
    first, tier := form.Submit(store, true, LOW, 0, now);
    second, tier := form.Submit(store, true, LOW, 0, now);
  }

  /** A fresh alert is NEW; calling the patient and then resolving it with
      "Advised to Monitor" leaves it RESOLVED with that resolution and a time. */
  method CallThenResolve(now: int) returns (a: Alert)
    ensures a.status == RESOLVED && a.resolution == Some(AdvisedToMonitor) && a.resolvedAt == Some(now + 2)
    ensures a.chwNotes == None && a.riskLevel == HIGH
  {
    var store := new AlertStore(now);
    var form := new PatientForm(now);
    var started, tier := form.Submit(store, true, LOW, 0, now);
    assert store.alerts[0].status == NEW && store.alerts[0].id == 3;
    var r1 := store.UpdateAlertStatus(3, CONTACTING);
    assert store.alerts[0].status == CONTACTING && store.alerts[0].id == 3;
    var r2 := store.ResolveAlert(3, AdvisedToMonitor, None, now + 2);
    a := store.alerts[0];
  }

  /** Left alone with a phone number typed in, the wizard submits once when
      the minute is up, and the watchdog does not fire again after that. */
  method InactivityFiresOnce(store: AlertStore, now: int) returns (first: bool, again: bool)
    requires store.Valid()
    modifies store
    ensures store.Valid()
    ensures first && !again
    ensures |store.alerts| == |old(store.alerts)| + 1 && store.alerts[0].status == NEW
  {
    var form := new PatientForm(now);
    form.SetPhone("+2348012345678");
    var fired;
    fired, first := form.TimerElapsed(store, 0, now + InactivityTimeout);
    var refired;
    refired, again := form.TimerElapsed(store, 0, now + 10 * InactivityTimeout);
  }

  /** After a submission the listeners stay attached: a mouse move on the
      result screen re-arms the watchdog, and a minute later the same report
      is sent again as a second emergency alert. */
  method ActivityAfterSubmissionResubmits(store: AlertStore, now: int) returns (resubmitted: bool)
    requires store.Valid()
    modifies store
    ensures store.Valid()
    ensures resubmitted
    ensures |store.alerts| == |old(store.alerts)| + 2
    ensures store.alerts[0].symptoms == store.alerts[1].symptoms
  {
    var form := new PatientForm(now);
    form.SetPhone("+2348012345678");
    var started, tier := form.Submit(store, true, LOW, 0, now);
    form.timer.OnActivity(MouseMove, now + 1000);
    var fired;
    fired, resubmitted := form.TimerElapsed(store, 0, now + 1000 + InactivityTimeout);
  }
}
