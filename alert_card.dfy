/** components/AlertCard.tsx: what a card shows and which actions it enables. */
module AlertCard {
  import opened Wrappers
  import opened Types

  const GpsFallback: string := "GPS Location Available"

  /** A template-literal slot `${x}`: a missing value prints as "undefined". */
  function Show(s: Option<string>): string {
    if s.Some? then s.value else "undefined"
  }

  /** `locationString`. */
  function LocationSummary(loc: LocationData): string {
    if Truthy(loc.address) then loc.address.value + ", " + Show(loc.city)
    else if Truthy(loc.city) then loc.city.value + ", " + Show(loc.lga) + ", " + Show(loc.state)
    else GpsFallback
  }

  /** The fallback text appears exactly when neither an address nor a city is
      filled in: both other forms carry a comma, and the fallback has none. */
  lemma {:induction false} GpsFallbackExactly(loc: LocationData)
    ensures LocationSummary(loc) == GpsFallback <==> !Truthy(loc.address) && !Truthy(loc.city)
  {
    assert forall i :: 0 <= i < |GpsFallback| ==> GpsFallback[i] != ',';
    if Truthy(loc.address) {
      var r := LocationSummary(loc);
      assert r[|loc.address.value|] == ',';
    } else if Truthy(loc.city) {
      var r := LocationSummary(loc);
      assert r[|loc.city.value|] == ',';
    }
  }

  /** An address comes first and is followed by the city. */
  lemma SummaryLeadsWithAddress(loc: LocationData)
    requires Truthy(loc.address)
    ensures LocationSummary(loc) == loc.address.value + ", " + Show(loc.city)
  {
  }

  /** A complete manual entry without an address reads "city, lga, state". */
  lemma SummaryOfManualEntry(loc: LocationData)
    requires Truthy(loc.state) && Truthy(loc.lga) && Truthy(loc.city) && !Truthy(loc.address)
    ensures LocationSummary(loc) == loc.city.value + ", " + loc.lga.value + ", " + loc.state.value
  {
  }

  /** "Call Patient" is enabled only while the alert is NEW. */
  predicate CallEnabled(status: AlertStatus) {
    status == NEW
  }

  /** "Resolve" is enabled until the alert is RESOLVED, so also for NEW. */
  predicate ResolveEnabled(status: AlertStatus) {
    status != RESOLVED
  }

  /** "View Map" needs both coordinates truthy: a zero coordinate hides it. */
  predicate ViewMapShown(loc: LocationData) {
    loc.lat == Some(NonZero) && loc.lng == Some(NonZero)
  }

  /** The two buttons that lead to a store update. */
  datatype CardAction = CallPatient | ResolveWith(resolution: Resolution)

  predicate Enabled(action: CardAction, status: AlertStatus) {
    match action
    case CallPatient => CallEnabled(status)
    case ResolveWith(_) => ResolveEnabled(status)
  }

  /** The status the action asks the store for: Call requests CONTACTING. */
  function Requested(action: CardAction): AlertStatus {
    match action
    case CallPatient => CONTACTING
    case ResolveWith(_) => RESOLVED
  }

  /** A RESOLVED card enables no action. */
  lemma ResolvedCardIsInert(action: CardAction)
    ensures !Enabled(action, RESOLVED)
  {
  }
}
