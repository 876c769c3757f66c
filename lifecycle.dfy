/** The alert lifecycle as a worker can drive it: the store accepts any
    status, and the card's enable rules (components/AlertCard.tsx) are what
    make the lifecycle move forward only. */
module Lifecycle {
  import opened Wrappers
  import opened Types
  import opened ApiService
  import opened AlertCard
  import PatientFormPage

  /** What an enabled card action does to the alert in the store: Call goes
      through `updateAlertStatus`, Resolve through `resolveAlert` without notes. */
  function CardEffect(a: Alert, action: CardAction, now: int): (b: Alert)
    ensures b.status == Requested(action) && b.id == a.id
  {
    match action
    case CallPatient => WithStatus(a, CONTACTING)
    case ResolveWith(res) => WithResolution(a, res, None, now)
  }

  function Rank(s: AlertStatus): nat {
    match s
    case NEW => 0
    case CONTACTING => 1
    case RESOLVED => 2
  }

  /** Some enabled card action takes status `from` to status `to`. */
  ghost predicate CardTransition(from: AlertStatus, to: AlertStatus) {
    exists action: CardAction :: Enabled(action, from) && Requested(action) == to
  }

  /** The card reaches NEW to CONTACTING, NEW to RESOLVED (skipping
      CONTACTING) and CONTACTING to RESOLVED, and nothing else. */
  lemma CardTransitionsAre(from: AlertStatus, to: AlertStatus)
    ensures CardTransition(from, to) <==>
      || (from == NEW && to == CONTACTING)
      || (from == NEW && to == RESOLVED)
      || (from == CONTACTING && to == RESOLVED)
  {
    if from == NEW && to == CONTACTING {
      assert Enabled(CallPatient, from) && Requested(CallPatient) == to;
    }
    if from != RESOLVED && to == RESOLVED {
      assert Enabled(ResolveWith(CouldNotReach), from) && Requested(ResolveWith(CouldNotReach)) == to;
    }
  }

  /** Replays card actions on one alert; `None` once an action is disabled. */
  function RunCard(a: Alert, steps: seq<(CardAction, int)>): Option<Alert>
    decreases |steps|
  {
    if steps == [] then Some(a)
    else if !Enabled(steps[0].0, a.status) then None
    else RunCard(CardEffect(a, steps[0].0, steps[0].1), steps[1..])
  }

  /** Every card action moves the status strictly forward, so at most two
      run on one alert, and none on a RESOLVED one. */
  lemma {:induction false} CardRunsMoveForward(a: Alert, steps: seq<(CardAction, int)>)
    requires RunCard(a, steps).Some?
    ensures |steps| <= 2 - Rank(a.status)
    ensures Rank(RunCard(a, steps).value.status) >= Rank(a.status) + |steps|
    ensures RunCard(a, steps).value.id == a.id
    decreases |steps|
  {
    if steps != [] {
      var b := CardEffect(a, steps[0].0, steps[0].1);
      CardRunsMoveForward(b, steps[1..]);
    }
  }

  /** The worker cannot leave RESOLVED through the card. */
  lemma ResolvedIsTerminal(a: Alert, steps: seq<(CardAction, int)>)
    requires a.status == RESOLVED && RunCard(a, steps).Some?
    ensures steps == []
  {
    CardRunsMoveForward(a, steps);
  }

  /** A resolution and a resolution time are recorded exactly for RESOLVED alerts. */
  predicate ResolutionConsistent(a: Alert) {
    (a.resolution.Some? <==> a.status == RESOLVED) && (a.resolvedAt.Some? <==> a.status == RESOLVED)
  }

  lemma {:induction false} CardRunsKeepResolutionConsistent(a: Alert, steps: seq<(CardAction, int)>)
    requires ResolutionConsistent(a) && RunCard(a, steps).Some?
    ensures ResolutionConsistent(RunCard(a, steps).value)
    decreases |steps|
  {
    if steps != [] {
      var b := CardEffect(a, steps[0].0, steps[0].1);
      CardRunsKeepResolutionConsistent(b, steps[1..]);
    }
  }

  /** Seeded and newly created alerts start out consistent. */
  lemma StartsConsistent(now: int, id: int, data: SymptomData, worker: Chw, t: int)
    ensures forall i :: 0 <= i < |SeedAlerts(now)| ==> ResolutionConsistent(SeedAlerts(now)[i])
    ensures ResolutionConsistent(NewAlert(id, data, worker, t)) && NewAlert(id, data, worker, t).status == NEW
  {
  }

  /** The store itself checks no order: moving a resolved alert back to NEW
      keeps its resolution, which the card would never do. */
  lemma StoreAcceptsReopening(a: Alert)
    requires a.status == RESOLVED && ResolutionConsistent(a)
    ensures !ResolutionConsistent(WithStatus(a, NEW))
  {
  }

  /** "View Map" is stricter than the wizard's location check: a zero
      coordinate counts as a GPS fix for the wizard but hides the map button. */
  lemma ViewMapStricterThanWizard(loc: LocationData)
    ensures ViewMapShown(loc) ==> PatientFormPage.HasGeoLocation(loc)
    ensures var zero := EmptyLocation.(lat := Some(Zero), lng := Some(NonZero));
      PatientFormPage.HasGeoLocation(zero) && !ViewMapShown(zero)
  {
  }
}
