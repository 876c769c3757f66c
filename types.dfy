/** The entities of the triage service (types.ts). */
module Types {
  import opened Wrappers

  datatype Symptom = ChestPain | ShortnessOfBreath | Dizziness

  datatype Duration = LessThan15 | Between15And60 | MoreThan60

  datatype RiskLevel = LOW | MEDIUM | HIGH

  datatype AlertStatus = NEW | CONTACTING | RESOLVED

  datatype Resolution = ReferredToClinic | AdvisedToMonitor | EmergencyServicesAlerted | CouldNotReach

  /** A floating-point coordinate, reduced to the one thing the code asks of
      its value: whether JavaScript treats it as truthy (0 and NaN are not). */
  datatype Coord = Zero | NonZero

  /** `LocationData`: every field is optional. */
  datatype LocationData = LocationData(
    lat: Option<Coord>,
    lng: Option<Coord>,
    state: Option<string>,
    lga: Option<string>,
    city: Option<string>,
    address: Option<string>)

  const EmptyLocation: LocationData := LocationData(None, None, None, None, None, None)

  /** JavaScript truthiness of an optional string: present and non-empty. */
  predicate Truthy(s: Option<string>) {
    s.Some? && s.value != ""
  }

  /** `SymptomData`; the empty option `''` and the tri-state `null` are `None`. */
  datatype SymptomData = SymptomData(
    mainSymptom: Option<Symptom>,
    isCrushing: Option<bool>,
    doesRadiate: Option<bool>,
    isSweating: Option<bool>,
    duration: Option<Duration>,
    phone: string,
    location: LocationData)

  /** `CommunityHealthWorker`. */
  datatype Chw = Chw(id: int, fullName: string, phone: string)

  /** `Alert`; timestamps are integer milliseconds. */
  datatype Alert = Alert(
    id: int,
    userPhone: string,
    symptoms: SymptomData,
    riskLevel: RiskLevel,
    status: AlertStatus,
    resolution: Option<Resolution>,
    chwNotes: Option<string>,
    createdAt: int,
    resolvedAt: Option<int>,
    assignedTo: Chw,
    userLocation: LocationData)
}
