/** pages/PatientForm.tsx: the five-step symptom wizard. Each handler is one
    atomic step over the component state; it reads the state of the render it
    was created in, as a React event handler does. */
module PatientFormPage {
  import opened Wrappers
  import opened Types
  import opened Constants
  import opened InactivityHook
  import ApiService

  datatype FormStatus = Idle | Submitting | Submitted

  /** `keyof SymptomData`, the keys of the error record. */
  datatype FormField =
    MainSymptomField | IsCrushingField | DoesRadiateField | IsSweatingField | DurationField | PhoneField | LocationField

  /** The location fields the manual entry edits. */
  datatype ManualField = StateField | LgaField | CityField | AddressField

  /** The position `useGeolocation` reports: `{ lat, lng }`. */
  datatype GeoFix = GeoFix(lat: Coord, lng: Coord)

  /** The wizard's three yes/no questions. */
  datatype Detail = Crushing | Radiates | Sweating

  const TotalSteps: nat := 5
  const InactivityTimeout: nat := 60000

  /** The empty report: no answers, the phone pre-filled with the country code. */
  const InitialData: SymptomData := SymptomData(None, None, None, None, None, "+234", EmptyLocation)

  const SymptomError: string := "Please select a symptom."
  const DurationError: string := "Please select a duration."
  const PhoneError: string := "Please enter a valid Nigerian phone number (e.g., +2348012345678)."
  const LocationError: string := "Please provide your location, either automatically or manually."

  /** Both coordinates are present (`!= null`): zero counts. */
  predicate HasGeoLocation(loc: LocationData) {
    loc.lat.Some? && loc.lng.Some?
  }

  predicate HasManualLocation(loc: LocationData) {
    Truthy(loc.state) && Truthy(loc.lga) && Truthy(loc.city)
  }

  /** The validity test of each case of `validateStep`; other steps pass. */
  predicate StepValid(step: int, d: SymptomData) {
    if step == 0 then d.mainSymptom.Some?
    else if step == 1 then d.isCrushing.Some? && d.doesRadiate.Some? && d.isSweating.Some?
    else if step == 2 then d.duration.Some?
    else if step == 3 then IsValidPhone(d.phone)
    else if step == 4 then HasGeoLocation(d.location) || HasManualLocation(d.location)
    else true
  }

  /** The error key a step writes and the message it writes on failure;
      step 1 (and any step outside 0..4) writes none. */
  function StepError(step: int): Option<(FormField, string)> {
    if step == 0 then Some((MainSymptomField, SymptomError))
    else if step == 2 then Some((DurationField, DurationError))
    else if step == 3 then Some((PhoneField, PhoneError))
    else if step == 4 then Some((LocationField, LocationError))
    else None
  }

  /** The error record `validateStep(step)` stores. */
  function ValidatedErrors(step: int, d: SymptomData, errors: map<FormField, string>): (r: map<FormField, string>)
    ensures StepError(step).None? ==> r == errors
    ensures StepError(step).Some? ==>
      var (field, message) := StepError(step).value;
      && r.Keys == errors.Keys + {field}
      && r[field] == (if StepValid(step, d) then "" else message)
      && forall g :: g in errors && g != field ==> r[g] == errors[g]
  {
    match StepError(step)
    case None => errors
    case Some((field, message)) => errors[field := if StepValid(step, d) then "" else message]
  }

  /** The contact step accepts exactly the numbers the phone pattern describes. */
  lemma ContactStepAccepts(d: SymptomData)
    ensures StepValid(3, d) <==>
      && |d.phone| == 14
      && d.phone[..4] == "+234"
      && d.phone[4] in "789"
      && d.phone[5] in "01"
      && forall i :: 6 <= i < 14 ==> '0' <= d.phone[i] <= '9'
  {
    PhoneCharacterization(d.phone);
  }

  /** A fresh report passes none of the five steps. */
  lemma InitialDataPassesNoStep(step: int)
    requires 0 <= step < TotalSteps
    ensures !StepValid(step, InitialData)
  {
    PhoneRejectsCountryCodeAlone();
  }

  /** A GPS fix alone passes the location step; a state alone does not;
      state, LGA and city together do. */
  lemma LocationStepExamples(base: SymptomData)
    ensures StepValid(4, base.(location := EmptyLocation.(lat := Some(NonZero), lng := Some(NonZero))))
    ensures !StepValid(4, base.(location := EmptyLocation.(state := Some("Lagos"))))
    ensures StepValid(4, base.(location := EmptyLocation.(state := Some("Lagos"), lga := Some("Ikeja"), city := Some("Ikeja"))))
  {
  }

  /** `handleLocationChange(field, value)` on the location: it sets the field,
      and a new state also empties the LGA. */
  function WithManualField(loc: LocationData, field: ManualField, value: string): (r: LocationData)
    ensures field == StateField ==> r == loc.(state := Some(value), lga := Some(""))
    ensures field != StateField ==> r.lat == loc.lat && r.lng == loc.lng && r.state == loc.state
    ensures field == LgaField ==> r == loc.(lga := Some(value))
    ensures field == CityField ==> r == loc.(city := Some(value))
    ensures field == AddressField ==> r == loc.(address := Some(value))
  {
    match field
    case StateField => loc.(state := Some(value)).(lga := Some(""))
    case LgaField => loc.(lga := Some(value))
    case CityField => loc.(city := Some(value))
    case AddressField => loc.(address := Some(value))
  }

  /** A new state invalidates a completed manual location until an LGA is chosen again. */
  lemma NewStateClearsManualLocation(loc: LocationData, value: string)
    ensures !HasManualLocation(WithManualField(loc, StateField, value))
  {
  }

  /** `{ ...prev.location, ...geoLoc }`: the fix overrides the coordinates only. */
  function MergeGeo(loc: LocationData, fix: GeoFix): LocationData {
    loc.(lat := Some(fix.lat), lng := Some(fix.lng))
  }

  /** The inactivity handler's guard: more than the country code typed, or a GPS fix. */
  predicate InactivitySubmits(d: SymptomData, geo: Option<GeoFix>) {
    |d.phone| > 4 || geo.Some?
  }

  /** `{ ...formData, location: geoLoc || formData.location }`: a fix replaces
      the whole location, manual fields included. */
  function InactivityPayload(d: SymptomData, geo: Option<GeoFix>): (r: SymptomData)
    ensures r.(location := d.location) == d
    ensures geo.Some? ==> r.location == EmptyLocation.(lat := Some(geo.value.lat), lng := Some(geo.value.lng))
    ensures geo.None? ==> r == d
  {
    match geo
    case None => d
    case Some(fix) => d.(location := LocationData(Some(fix.lat), Some(fix.lng), None, None, None, None))
  }

  /** The untouched wizard does not submit on inactivity: "+234" is only the prefix. */
  lemma InitialDataStaysQuiet()
    ensures !InactivitySubmits(InitialData, None)
  {
  }

  /** The auto-submit effect's condition on the last step. */
  predicate AutoSubmitArmed(step: int, d: SymptomData, manual: bool, status: FormStatus) {
    && step == TotalSteps - 1
    && ((HasGeoLocation(d.location) && !manual) || (manual && HasManualLocation(d.location)))
    && status == Idle
  }

  /** When auto-submit arms, the delayed `handleSubmit(false)` passes its
      guards on the same state. A GPS fix alone arms it while manual entry is
      closed, but not while it is open, although the location step passes. */
  lemma AutoSubmitArmedPassesSubmitGuards(d: SymptomData, manual: bool, status: FormStatus)
    ensures AutoSubmitArmed(TotalSteps - 1, d, manual, status) ==> status == Idle && StepValid(4, d)
    ensures var gpsOnly := d.(location := MergeGeo(EmptyLocation, GeoFix(NonZero, NonZero)));
      && StepValid(4, gpsOnly)
      && AutoSubmitArmed(TotalSteps - 1, gpsOnly, false, Idle)
      && !AutoSubmitArmed(TotalSteps - 1, gpsOnly, true, Idle)
  {
  }

  class PatientForm {
    var currentStep: int
    var formData: SymptomData
    var errors: map<FormField, string>
    var formStatus: FormStatus
    var riskLevel: Option<RiskLevel>
    var isManualLocation: bool
    var isAutoSubmitting: bool
    /** The position `useGeolocation` last reported. */
    var geoLoc: Option<GeoFix>
    /** The watchdog of `useInactivityTimer(handleFormSubmitForInactivity, 60000)`. */
    const timer: InactivityTimer

    ghost predicate Valid()
      reads this, timer
    {
      0 <= currentStep < TotalSteps && timer.Valid() && timer.timeout == InactivityTimeout
    }

    /** The result screen replaces the wizard. */
    predicate ShowsFeedback()
      reads this
    {
      formStatus == Submitted && riskLevel.Some?
    }

    /** First render, followed by the timer hook's mount effect. */
    constructor (now: int)
      ensures Valid() && fresh(timer)
      ensures currentStep == 0 && formData == InitialData && errors == map[]
      ensures formStatus == Idle && riskLevel == None && !isManualLocation && !isAutoSubmitting && geoLoc == None
      ensures timer.listening && timer.Pending() == Some(now + InactivityTimeout)
    {
      currentStep := 0;
      formData := InitialData;
      errors := map[];
      formStatus := Idle;
      riskLevel := None;
      isManualLocation := false;
      isAutoSubmitting := false;
      geoLoc := None;
      timer := new InactivityTimer(InactivityTimeout);
      new;
      timer.Mount(now);
    }

    /** `validateStep(step)`. */
    method ValidateStep(step: int) returns (isValid: bool)
      modifies this`errors
      ensures isValid == StepValid(step, formData)
      ensures errors == ValidatedErrors(step, formData, old(errors))
    {
      isValid := StepValid(step, formData);
      errors := ValidatedErrors(step, formData, errors);
    }

    /** `nextStep`: one step forward when the current step is valid, never past the last. */
    method NextStep()
      requires Valid()
      modifies this`currentStep, this`errors
      ensures Valid()
      ensures errors == ValidatedErrors(old(currentStep), formData, old(errors))
      ensures StepValid(old(currentStep), formData) && old(currentStep) < TotalSteps - 1 ==>
        currentStep == old(currentStep) + 1
      ensures old(currentStep) == TotalSteps - 1 ==> currentStep == TotalSteps - 1
      ensures !StepValid(old(currentStep), formData) ==> currentStep == old(currentStep)
    {
      var ok := ValidateStep(currentStep);
      if ok {
        currentStep := if currentStep + 1 < TotalSteps - 1 then currentStep + 1 else TotalSteps - 1;
      }
    }

    /** `prevStep`: one step back, never below the first. */
    method PrevStep()
      requires Valid()
      modifies this`currentStep
      ensures Valid()
      ensures currentStep == if old(currentStep) > 0 then old(currentStep) - 1 else 0
    {
      currentStep := if currentStep - 1 > 0 then currentStep - 1 else 0;
    }

    /** The option buttons and inputs of steps 0 to 3. */
    method SetMainSymptom(s: Symptom)
      modifies this`formData
      ensures formData == old(formData).(mainSymptom := Some(s))
    {
      formData := formData.(mainSymptom := Some(s));
    }

    method SetDetail(which: Detail, answer: bool)
      modifies this`formData
      ensures which == Crushing ==> formData == old(formData).(isCrushing := Some(answer))
      ensures which == Radiates ==> formData == old(formData).(doesRadiate := Some(answer))
      ensures which == Sweating ==> formData == old(formData).(isSweating := Some(answer))
    {
      match which
      case Crushing => formData := formData.(isCrushing := Some(answer));
      case Radiates => formData := formData.(doesRadiate := Some(answer));
      case Sweating => formData := formData.(isSweating := Some(answer));
    }

    method SetDuration(d: Duration)
      modifies this`formData
      ensures formData == old(formData).(duration := Some(d))
    {
      formData := formData.(duration := Some(d));
    }

    method SetPhone(phone: string)
      modifies this`formData
      ensures formData == old(formData).(phone := phone)
    {
      formData := formData.(phone := phone);
    }

    /** The "Enter Address Manually" / "Hide Manual Entry" toggle. */
    method ToggleManualLocation()
      modifies this`isManualLocation
      ensures isManualLocation == !old(isManualLocation)
    {
      isManualLocation := !isManualLocation;
    }

    /** `handleLocationChange(field, value)`. Its `validateStep(4)` runs in the
        same render as the handler, so it judges the location before the change. */
    method HandleLocationChange(field: ManualField, value: string)
      modifies this`formData, this`errors
      ensures formData == old(formData).(location := WithManualField(old(formData).location, field, value))
      ensures errors == ValidatedErrors(4, old(formData), old(errors))
    {
      var renderData := formData;
      formData := formData.(location := WithManualField(formData.location, field, value));
      errors := ValidatedErrors(4, renderData, errors);
    }

    /** A position arrives from `useGeolocation`, and the merge effect runs. */
    method ReceiveGeoFix(fix: GeoFix)
      modifies this`geoLoc, this`formData, this`isManualLocation, this`errors
      ensures geoLoc == Some(fix)
      ensures formData == old(formData).(location := MergeGeo(old(formData).location, fix))
      ensures HasGeoLocation(formData.location) && !isManualLocation
      ensures errors == old(errors)[LocationField := ""]
    {
      geoLoc := Some(fix);
      formData := formData.(location := MergeGeo(formData.location, fix));
      isManualLocation := false;
      errors := errors[LocationField := ""];
    }

    /** The auto-submit effect: arms the delayed `handleSubmit(false)` (the
        caller's next `Submit`) and shows the "Submitting" notice. */
    method AutoSubmitEffect() returns (armed: bool)
      modifies this`isAutoSubmitting
      ensures armed == AutoSubmitArmed(currentStep, formData, isManualLocation, formStatus)
      ensures isAutoSubmitting == (old(isAutoSubmitting) || armed)
    {
      armed := AutoSubmitArmed(currentStep, formData, isManualLocation, formStatus);
      if armed {
        isAutoSubmitting := true;
      }
    }

    /** The synchronous part of `handleSubmit(isEmergency)`, up to the call. */
    method BeginSubmit(isEmergency: bool) returns (started: bool)
      requires Valid()
      modifies this, timer
      ensures Valid()
      ensures started <==> old(formStatus) == Idle && (isEmergency || StepValid(4, old(formData)))
      ensures errors == if old(formStatus) == Idle && !isEmergency
                        then ValidatedErrors(4, old(formData), old(errors)) else old(errors)
      ensures started ==> formStatus == Submitting && riskLevel == None && timer.Pending() == None
      ensures !started ==> formStatus == old(formStatus) && riskLevel == old(riskLevel)
                           && timer.queue == old(timer.queue)
      ensures formData == old(formData) && currentStep == old(currentStep) && geoLoc == old(geoLoc)
      ensures isManualLocation == old(isManualLocation) && isAutoSubmitting == old(isAutoSubmitting)
      ensures timer.listening == old(timer.listening) && timer.timerRef == old(timer.timerRef)
    {
      started := false;
      if formStatus != Idle {
        return;
      }
      if !isEmergency {
        var ok := ValidateStep(4);
        if !ok {
          return;
        }
      }
      formStatus := Submitting;
      riskLevel := None;
      timer.StopTimer();
      started := true;
    }

    /** The `finally` of `handleSubmit`: `response` is the tier the call
        returned, or `None` if it threw. */
    method FinishSubmit(response: Option<RiskLevel>)
      modifies this`formStatus, this`riskLevel
      ensures formStatus == Submitted
      ensures riskLevel == if response.Some? then response else old(riskLevel)
    {
      if response.Some? {
        riskLevel := response;
      }
      formStatus := Submitted;
    }

    /** `handleSubmit(isEmergency)` with the mock back end answering: at most
        one submission per report, and one new alert exactly when it comes back HIGH. */
    method Submit(store: ApiService.AlertStore, isEmergency: bool, drawn: RiskLevel, workerIndex: nat, now: int)
      returns (started: bool, tier: Option<RiskLevel>)
      requires Valid() && store.Valid() && workerIndex < |store.chws|
      modifies this, timer, store
      ensures Valid() && store.Valid()
      ensures started <==> old(formStatus) == Idle && (isEmergency || StepValid(4, old(formData)))
      ensures !started ==> tier == None && formStatus == old(formStatus)
                           && store.alerts == old(store.alerts) && store.nextId == old(store.nextId)
      ensures started ==> formStatus == Submitted && riskLevel == tier && timer.Pending() == None
      ensures started ==> tier == Some(if isEmergency then HIGH else drawn)
      ensures started && tier == Some(HIGH) ==>
        store.alerts == [ApiService.NewAlert(old(store.nextId), old(formData), old(store.chws)[workerIndex], now)]
                        + old(store.alerts)
      ensures started && tier == Some(HIGH) ==> store.nextId == old(store.nextId) + 1
      ensures started && tier != Some(HIGH) ==> store.alerts == old(store.alerts) && store.nextId == old(store.nextId)
      ensures started ==> ShowsFeedback()
      ensures !started ==> riskLevel == old(riskLevel) && timer.queue == old(timer.queue)
      ensures errors == if old(formStatus) == Idle && !isEmergency
                        then ValidatedErrors(4, old(formData), old(errors)) else old(errors)
      ensures formData == old(formData) && store.chws == old(store.chws) && geoLoc == old(geoLoc)
      ensures currentStep == old(currentStep) && isManualLocation == old(isManualLocation)
              && isAutoSubmitting == old(isAutoSubmitting)
      ensures timer.listening == old(timer.listening) && timer.timerRef == old(timer.timerRef)
    {
      tier := None;
      started := BeginSubmit(isEmergency);
      if started {
        var level := store.SubmitSymptoms(formData, isEmergency, drawn, workerIndex, now);
        tier := Some(level);
        FinishSubmit(tier);
      }
    }

    /** `handleFormSubmitForInactivity`, the watchdog's callback. It forces an
        emergency submission whatever `formStatus` is. */
    method HandleInactivity(store: ApiService.AlertStore, workerIndex: nat, now: int) returns (submitted: bool)
      requires Valid() && store.Valid() && workerIndex < |store.chws|
      modifies this, timer, store
      ensures Valid() && store.Valid()
      ensures submitted <==> InactivitySubmits(old(formData), old(geoLoc))
      ensures submitted ==>
        && store.alerts == [ApiService.NewAlert(old(store.nextId), InactivityPayload(old(formData), old(geoLoc)),
                                                old(store.chws)[workerIndex], now)] + old(store.alerts)
        && store.nextId == old(store.nextId) + 1
        && formStatus == Submitted && riskLevel == Some(HIGH) && ShowsFeedback() && timer.Pending() == None
      ensures !submitted ==> store.alerts == old(store.alerts) && store.nextId == old(store.nextId)
                             && formStatus == old(formStatus) && riskLevel == old(riskLevel)
                             && timer.queue == old(timer.queue)
      ensures formData == old(formData) && currentStep == old(currentStep) && store.chws == old(store.chws)
      ensures errors == old(errors) && isManualLocation == old(isManualLocation)
              && isAutoSubmitting == old(isAutoSubmitting)
      ensures geoLoc == old(geoLoc) && timer.listening == old(timer.listening) && timer.timerRef == old(timer.timerRef)
    {
      submitted := InactivitySubmits(formData, geoLoc);
      if submitted {
        var level := store.SubmitSymptoms(InactivityPayload(formData, geoLoc), true, HIGH, workerIndex, now);
        riskLevel := Some(level);
        formStatus := Submitted;
        timer.StopTimer();
      }
    }

    /** The clock reaches `now`: if the watchdog's deadline has passed, its callback runs. */
    method TimerElapsed(store: ApiService.AlertStore, workerIndex: nat, now: int) returns (fired: bool, submitted: bool)
      requires Valid() && store.Valid() && workerIndex < |store.chws|
      modifies this, timer, store
      ensures Valid() && store.Valid()
      ensures fired <==> old(timer.Pending()).Some? && old(timer.Pending()).value <= now
      ensures submitted <==> fired && InactivitySubmits(old(formData), old(geoLoc))
      ensures !submitted ==> store.alerts == old(store.alerts) && store.nextId == old(store.nextId)
                             && formStatus == old(formStatus) && riskLevel == old(riskLevel)
      ensures submitted ==>
        && store.alerts == [ApiService.NewAlert(old(store.nextId), InactivityPayload(old(formData), old(geoLoc)),
                                                old(store.chws)[workerIndex], now)] + old(store.alerts)
        && store.nextId == old(store.nextId) + 1
        && formStatus == Submitted && riskLevel == Some(HIGH) && ShowsFeedback()
      ensures fired ==> timer.Pending() == None
      ensures !fired ==> timer.queue == old(timer.queue)
      ensures formData == old(formData) && geoLoc == old(geoLoc) && store.chws == old(store.chws)
      ensures currentStep == old(currentStep) && errors == old(errors)
              && isManualLocation == old(isManualLocation) && isAutoSubmitting == old(isAutoSubmitting)
      ensures timer.listening == old(timer.listening) && timer.timerRef == old(timer.timerRef)
    {
      fired := timer.Elapse(now);
      submitted := false;
      if fired {
        submitted := HandleInactivity(store, workerIndex, now);
      }
    }

    /** `resetForm`, from the result screen. The geolocation hook keeps its fix. */
    method ResetForm(now: int)
      requires Valid() && timer.InTime(now)
      modifies this, timer
      ensures Valid() && !ShowsFeedback()
      ensures formData == InitialData && errors == map[] && formStatus == Idle && riskLevel == None
      ensures currentStep == 0 && !isManualLocation && !isAutoSubmitting
      ensures geoLoc == old(geoLoc)
      ensures timer.Pending() == Some(now + InactivityTimeout) && timer.listening == old(timer.listening)
    {
      formData := InitialData;
      errors := map[];
      formStatus := Idle;
      riskLevel := None;
      currentStep := 0;
      isManualLocation := false;
      isAutoSubmitting := false;
      timer.ResetTimer(now);
    }
  }
}
