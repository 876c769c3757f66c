/** The in-memory mock back end of services/apiService.ts: the alert store,
    risk scoring with its random draw passed in, and the credential checks. */
module ApiService {
  import opened Wrappers
  import opened Types

  const AlertNotFound: string := "Alert not found"
  const InvalidCredentials: string := "Invalid credentials. Please try again."
  const InvalidSignUp: string := "Invalid sign-up data provided."

  /** The three workers the mock database starts with. */
  const SeedWorkers: seq<Chw> := [
    Chw(1, "Adebayo Akinwunmi", "+2348012345678"),
    Chw(2, "Fatima Bello", "+2348023456789"),
    Chw(3, "Chinedu Okoro", "+2348034567890")
  ]

  /** The two alerts the mock database starts with, created 5 and 30 minutes
      before `now`. Their partial symptom records have no phone and no location;
      the model writes those absent fields as "" and `EmptyLocation`. */
  function SeedAlerts(now: int): seq<Alert> {
    [ Alert(1, "+2349098765432",
            SymptomData(Some(ChestPain), Some(true), None, None, None, "", EmptyLocation),
            HIGH, NEW, None, None, now - 5 * 60 * 1000, None, SeedWorkers[0],
            LocationData(None, None, Some("Lagos"), Some("Ikeja"), Some("Ikeja"), Some("123 Allen Avenue"))),
      Alert(2, "+2348011223344",
            SymptomData(Some(Dizziness), None, None, None, None, "", EmptyLocation),
            MEDIUM, CONTACTING, None, None, now - 30 * 60 * 1000, None, SeedWorkers[1],
            LocationData(Some(NonZero), Some(NonZero), Some("Abuja (FCT)"), Some("AMAC"), None, None)) ]
  }

  /** The alert `submitSymptoms` creates for a high-risk report. */
  function NewAlert(id: int, data: SymptomData, worker: Chw, now: int): Alert {
    Alert(id, data.phone, data, HIGH, NEW, None, None, now, None, worker, data.location)
  }

  ghost predicate IdsDistinct(alerts: seq<Alert>) {
    forall i, j :: 0 <= i < j < |alerts| ==> alerts[i].id != alerts[j].id
  }

  ghost predicate IdsBelow(alerts: seq<Alert>, bound: int) {
    forall i :: 0 <= i < |alerts| ==> 1 <= alerts[i].id < bound
  }

  /** `findIndex(a => a.id === id)`, with -1 as `None`. */
  function FindIndex(alerts: seq<Alert>, id: int): (r: Option<nat>)
    ensures r.Some? ==> r.value < |alerts| && alerts[r.value].id == id
    ensures r.Some? ==> forall j :: 0 <= j < r.value ==> alerts[j].id != id
    ensures r.None? <==> forall j :: 0 <= j < |alerts| ==> alerts[j].id != id
  {
    if alerts == [] then None
    else if alerts[0].id == id then Some(0)
    else match FindIndex(alerts[1..], id)
      case None => None
      case Some(k) => Some(k + 1)
  }

  /** With distinct ids, the alert found is the only one carrying that id. */
  lemma FoundIndexIsUnique(alerts: seq<Alert>, id: int, j: nat)
    requires IdsDistinct(alerts) && j < |alerts| && alerts[j].id == id
    ensures FindIndex(alerts, id) == Some(j)
  {
  }

  function WithStatus(a: Alert, status: AlertStatus): Alert {
    a.(status := status)
  }

  function WithResolution(a: Alert, resolution: Resolution, notes: Option<string>, now: int): Alert {
    a.(status := RESOLVED, resolution := Some(resolution), chwNotes := notes, resolvedAt := Some(now))
  }

  /** The store after `updateAlertStatus(id, status)`, and the call's outcome. */
  function StatusUpdate(alerts: seq<Alert>, id: int, status: AlertStatus): (seq<Alert>, Result<Alert>) {
    match FindIndex(alerts, id)
    case None => (alerts, Err(AlertNotFound))
    case Some(k) => (alerts[k := WithStatus(alerts[k], status)], Ok(WithStatus(alerts[k], status)))
  }

  /** The store after `resolveAlert(id, resolution, notes)`, and the call's outcome. */
  function Resolve(alerts: seq<Alert>, id: int, resolution: Resolution, notes: Option<string>, now: int)
    : (seq<Alert>, Result<Alert>)
  {
    match FindIndex(alerts, id)
    case None => (alerts, Err(AlertNotFound))
    case Some(k) =>
      var a := WithResolution(alerts[k], resolution, notes, now);
      (alerts[k := a], Ok(a))
  }

  /** An unknown id changes nothing; a known id rewrites the status of that
      one alert to exactly the value passed, whatever it was before. */
  lemma StatusUpdateEffect(alerts: seq<Alert>, id: int, status: AlertStatus)
    ensures var (after, r) := StatusUpdate(alerts, id, status);
      && |after| == |alerts|
      && (r.Err? <==> forall j :: 0 <= j < |alerts| ==> alerts[j].id != id)
      && (r.Err? ==> after == alerts && r.message == AlertNotFound)
      && (r.Ok? ==> exists k :: 0 <= k < |alerts| && alerts[k].id == id
                      && after[k] == alerts[k].(status := status) && r.value == after[k]
                      && forall j :: 0 <= j < |alerts| && j != k ==> after[j] == alerts[j])
  {
    var r := FindIndex(alerts, id);
    if r.Some? {
      var k := r.value;
      assert StatusUpdate(alerts, id, status).0[k] == alerts[k].(status := status);
    }
  }

  /** An unknown id changes nothing; a known id marks that one alert RESOLVED
      and overwrites its resolution, notes and resolution time, also when it
      was already resolved. */
  lemma ResolveEffect(alerts: seq<Alert>, id: int, resolution: Resolution, notes: Option<string>, now: int)
    ensures var (after, r) := Resolve(alerts, id, resolution, notes, now);
      && |after| == |alerts|
      && (r.Err? <==> forall j :: 0 <= j < |alerts| ==> alerts[j].id != id)
      && (r.Err? ==> after == alerts && r.message == AlertNotFound)
      && (r.Ok? ==> exists k :: 0 <= k < |alerts| && alerts[k].id == id
                      && after[k].status == RESOLVED && after[k].resolution == Some(resolution)
                      && after[k].chwNotes == notes && after[k].resolvedAt == Some(now)
                      && after[k] == alerts[k].(status := RESOLVED, resolution := Some(resolution),
                                                chwNotes := notes, resolvedAt := Some(now))
                      && r.value == after[k]
                      && forall j :: 0 <= j < |alerts| && j != k ==> after[j] == alerts[j])
  {
    var r := FindIndex(alerts, id);
    if r.Some? {
      var k := r.value;
      assert Resolve(alerts, id, resolution, notes, now).0[k] == WithResolution(alerts[k], resolution, notes, now);
    }
  }

  /** Resolving an alert twice keeps only the second resolution. */
  lemma ResolveTwiceOverwrites(alerts: seq<Alert>, id: int, r1: Resolution, n1: Option<string>, t1: int,
                               r2: Resolution, n2: Option<string>, t2: int)
    ensures Resolve(Resolve(alerts, id, r1, n1, t1).0, id, r2, n2, t2).0 == Resolve(alerts, id, r2, n2, t2).0
  {
    var once := Resolve(alerts, id, r1, n1, t1).0;
    match FindIndex(alerts, id)
    case None =>
    case Some(k) =>
      assert forall j :: 0 <= j < |once| ==> once[j].id == alerts[j].id;
      assert FindIndex(once, id) == Some(k);
  }

  /** Neither update touches an id, so the id invariant survives both. */
  lemma UpdatesKeepIds(alerts: seq<Alert>, id: int, status: AlertStatus, resolution: Resolution,
                       notes: Option<string>, now: int, bound: int)
    requires IdsDistinct(alerts) && IdsBelow(alerts, bound)
    ensures IdsDistinct(StatusUpdate(alerts, id, status).0) && IdsBelow(StatusUpdate(alerts, id, status).0, bound)
    ensures IdsDistinct(Resolve(alerts, id, resolution, notes, now).0)
    ensures IdsBelow(Resolve(alerts, id, resolution, notes, now).0, bound)
  {
    var a1 := StatusUpdate(alerts, id, status).0;
    var a2 := Resolve(alerts, id, resolution, notes, now).0;
    assert |a1| == |alerts| && forall j :: 0 <= j < |a1| ==> a1[j].id == alerts[j].id;
    assert |a2| == |alerts| && forall j :: 0 <= j < |a2| ==> a2[j].id == alerts[j].id;
  }

  // ---------------------------------------------------------------------------
  // getCHWAlerts: a copy sorted by createdAt, newest first.
  // ---------------------------------------------------------------------------

  predicate NewestFirst(s: seq<Alert>) {
    forall i, j :: 0 <= i < j < |s| ==> s[i].createdAt >= s[j].createdAt
  }

  /** Places `a` before the first alert that is not newer than it. */
  function InsertNewestFirst(a: Alert, s: seq<Alert>): (r: seq<Alert>)
    requires NewestFirst(s)
    ensures NewestFirst(r)
    ensures multiset(r) == multiset{a} + multiset(s)
    ensures |r| == |s| + 1 && (r[0] == a || (s != [] && r[0] == s[0]))
  {
    if s == [] || s[0].createdAt <= a.createdAt then [a] + s
    else
      var rest := InsertNewestFirst(a, s[1..]);
      assert s == [s[0]] + s[1..];
      assert s[0].createdAt >= rest[0].createdAt;
      [s[0]] + rest
  }

  /** The comparator `(a, b) => b.createdAt - a.createdAt` as an insertion sort. */
  function SortNewestFirst(s: seq<Alert>): (r: seq<Alert>)
    ensures NewestFirst(r)
    ensures multiset(r) == multiset(s)
  {
    if s == [] then []
    else
      assert s == [s[0]] + s[1..];
      InsertNewestFirst(s[0], SortNewestFirst(s[1..]))
  }

  // ---------------------------------------------------------------------------
  // Credentials.
  // ---------------------------------------------------------------------------

  /** The mock session token, stamped with the time it was issued. */
  datatype Token = LoginToken(issuedAt: int) | SignUpToken(issuedAt: int)

  datatype SignUpData = SignUpData(fullName: string, email: string, phone: string, password: string)

  predicate LoginAccepted(email: string, password: string) {
    email != "" && password != "" && |password| >= 6
  }

  predicate SignUpAccepted(data: SignUpData) {
    data.email != "" && data.fullName != "" && |data.password| >= 6
  }

  /** `chwLogin`: any non-empty email with a password of six or more characters. */
  function ChwLogin(email: string, password: string, now: int): (r: Result<Token>)
    ensures r.Ok? <==> email != "" && |password| >= 6
    ensures r.Ok? ==> r.value == LoginToken(now)
    ensures r.Err? ==> r.message == InvalidCredentials
  {
    if LoginAccepted(email, password) then Ok(LoginToken(now)) else Err(InvalidCredentials)
  }

  /** Credentials a sign-up accepts also pass the login check. */
  lemma SignedUpCanLogIn(data: SignUpData, now: int)
    requires SignUpAccepted(data)
    ensures ChwLogin(data.email, data.password, now).Ok?
  {
  }

  // ---------------------------------------------------------------------------
  // The module-level state: mockAlerts, nextAlertId and mockCHWs.
  // ---------------------------------------------------------------------------

  class AlertStore {
    var alerts: seq<Alert>
    var nextId: int
    var chws: seq<Chw>

    /** Ids are distinct, positive and below the counter; worker ids are
        their position plus one, as `mockCHWs.length + 1` hands them out. */
    ghost predicate Valid()
      reads this
    {
      && IdsDistinct(alerts)
      && IdsBelow(alerts, nextId)
      && nextId >= 1
      && |chws| > 0
      && forall i :: 0 <= i < |chws| ==> chws[i].id == i + 1
    }

    constructor (now: int)
      ensures Valid()
      ensures alerts == SeedAlerts(now) && nextId == 3 && chws == SeedWorkers
    {
      alerts := SeedAlerts(now);
      nextId := 3;
      chws := SeedWorkers;
    }

    /** `submitSymptoms(data, isEmergency)`. `drawn` is the tier the random
        draw produces, `workerIndex` the random worker position and `now` the
        clock; an emergency skips the draw. */
    method SubmitSymptoms(data: SymptomData, isEmergency: bool, drawn: RiskLevel, workerIndex: nat, now: int)
      returns (riskLevel: RiskLevel)
      requires Valid() && workerIndex < |chws|
      modifies this
      ensures Valid()
      ensures isEmergency ==> riskLevel == HIGH
      ensures !isEmergency ==> riskLevel == drawn
      ensures riskLevel == HIGH ==> nextId == old(nextId) + 1
      ensures riskLevel == HIGH ==> alerts == [NewAlert(old(nextId), data, old(chws)[workerIndex], now)] + old(alerts)
      ensures riskLevel != HIGH ==> alerts == old(alerts) && nextId == old(nextId)
      ensures chws == old(chws)
    {
      riskLevel := if isEmergency then HIGH else drawn;
      if riskLevel == HIGH {
        var a := NewAlert(nextId, data, chws[workerIndex], now);
        nextId := nextId + 1;
        alerts := [a] + alerts;
      }
    }

    /** `getCHWAlerts(chwId)`: every alert, newest first; `chwId` is ignored. */
    method GetCHWAlerts(chwId: int) returns (r: seq<Alert>)
      ensures multiset(r) == multiset(alerts)
      ensures NewestFirst(r)
    {
      r := SortNewestFirst(alerts);
    }

    /** `updateAlertStatus(alertId, status)`. */
    method UpdateAlertStatus(alertId: int, status: AlertStatus) returns (r: Result<Alert>)
      requires Valid()
      modifies this
      ensures Valid()
      ensures (alerts, r) == StatusUpdate(old(alerts), alertId, status)
      ensures nextId == old(nextId) && chws == old(chws)
    {
      UpdatesKeepIds(alerts, alertId, status, ReferredToClinic, None, 0, nextId);
      var k := FindIndex(alerts, alertId);
      if k.Some? {
        alerts := alerts[k.value := WithStatus(alerts[k.value], status)];
        r := Ok(alerts[k.value]);
      } else {
        r := Err(AlertNotFound);
      }
    }

    /** `resolveAlert(alertId, resolution, notes)`. */
    method ResolveAlert(alertId: int, resolution: Resolution, notes: Option<string>, now: int)
      returns (r: Result<Alert>)
      requires Valid()
      modifies this
      ensures Valid()
      ensures (alerts, r) == Resolve(old(alerts), alertId, resolution, notes, now)
      ensures nextId == old(nextId) && chws == old(chws)
    {
      UpdatesKeepIds(alerts, alertId, NEW, resolution, notes, now, nextId);
      var k := FindIndex(alerts, alertId);
      if k.Some? {
        alerts := alerts[k.value := WithResolution(alerts[k.value], resolution, notes, now)];
        r := Ok(alerts[k.value]);
      } else {
        r := Err(AlertNotFound);
      }
    }

    /** `chwSignUp(data)`: appends a worker numbered one past the current count. */
    method ChwSignUp(data: SignUpData, now: int) returns (r: Result<Token>)
      requires Valid()
      modifies this
      ensures Valid()
      ensures r.Ok? <==> SignUpAccepted(data)
      ensures r.Ok? ==> r.value == SignUpToken(now)
                        && chws == old(chws) + [Chw(|old(chws)| + 1, data.fullName, data.phone)]
      ensures r.Err? ==> r.message == InvalidSignUp && chws == old(chws)
      ensures alerts == old(alerts) && nextId == old(nextId)
    {
      if SignUpAccepted(data) {
        chws := chws + [Chw(|chws| + 1, data.fullName, data.phone)];
        r := Ok(SignUpToken(now));
      } else {
        r := Err(InvalidSignUp);
      }
    }
  }
}
