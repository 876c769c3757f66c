/** pages/CHWDashboard.tsx: the worker's alert list, its status filter and
    counts, and the resolve dialog. */
module DashboardPage {
  import opened Wrappers
  import opened Types
  import ApiService

  /** `AlertStatus | 'ALL'`. */
  datatype Filter = All | Only(status: AlertStatus)

  const Filters: seq<Filter> := [All, Only(NEW), Only(CONTACTING), Only(RESOLVED)]

  const FetchError: string := "Failed to fetch alerts."

  predicate Shows(f: Filter, a: Alert) {
    f.All? || a.status == f.status
  }

  /** `filteredAlerts`: the alerts the filter lets through, in list order. */
  function FilteredAlerts(alerts: seq<Alert>, f: Filter): (r: seq<Alert>)
    ensures |r| <= |alerts|
    ensures forall i :: 0 <= i < |r| ==> Shows(f, r[i])
  {
    if alerts == [] then []
    else (if Shows(f, alerts[0]) then [alerts[0]] else []) + FilteredAlerts(alerts[1..], f)
  }

  /** Each alert the filter lets through is listed as often as it occurs; no other is listed. */
  lemma {:induction false} FilterContents(alerts: seq<Alert>, f: Filter)
    ensures forall a :: multiset(FilteredAlerts(alerts, f))[a] == if Shows(f, a) then multiset(alerts)[a] else 0
  {
    if alerts != [] {
      FilterContents(alerts[1..], f);
      assert alerts == [alerts[0]] + alerts[1..];
    }
  }

  /** Filtering keeps list order: it distributes over concatenation. */
  lemma {:induction false} FilterKeepsOrder(xs: seq<Alert>, ys: seq<Alert>, f: Filter)
    ensures FilteredAlerts(xs + ys, f) == FilteredAlerts(xs, f) + FilteredAlerts(ys, f)
  {
    if xs == [] {
      assert xs + ys == ys;
    } else {
      assert (xs + ys)[0] == xs[0] && (xs + ys)[1..] == xs[1..] + ys;
      FilterKeepsOrder(xs[1..], ys, f);
    }
  }

  /** 'ALL' shows the list as it is. */
  lemma {:induction false} FilterAllIsIdentity(alerts: seq<Alert>)
    ensures FilteredAlerts(alerts, All) == alerts
  {
    if alerts != [] {
      FilterAllIsIdentity(alerts[1..]);
    }
  }

  /** Every alert is in exactly one status list. */
  lemma {:induction false} StatusCountsAddUp(alerts: seq<Alert>)
    ensures |FilteredAlerts(alerts, Only(NEW))| + |FilteredAlerts(alerts, Only(CONTACTING))|
            + |FilteredAlerts(alerts, Only(RESOLVED))| == |alerts|
  {
    if alerts != [] {
      StatusCountsAddUp(alerts[1..]);
    }
  }

  /** Every filter value has a button, so every selected filter has a badge. */
  lemma EveryFilterHasButton(f: Filter)
    ensures f in Filters
  {
    match f
    case All =>
    case Only(st) =>
      match st
      case NEW => assert Filters[1] == f;
      case CONTACTING => assert Filters[2] == f;
      case RESOLVED => assert Filters[3] == f;
  }

  /** `alertCounts`: one badge per filter, each the size of the list that
      filter shows, all computed from the full list. */
  function AlertCounts(alerts: seq<Alert>): (m: map<Filter, nat>)
    ensures forall f :: f in m <==> f in Filters
    ensures forall f :: f in Filters ==> m[f] == |FilteredAlerts(alerts, f)|
    ensures m[All] == |alerts|
    ensures m[Only(NEW)] + m[Only(CONTACTING)] + m[Only(RESOLVED)] == m[All]
  {
    FilterAllIsIdentity(alerts);
    StatusCountsAddUp(alerts);
    map[All := |alerts|,
        Only(NEW) := |FilteredAlerts(alerts, Only(NEW))|,
        Only(CONTACTING) := |FilteredAlerts(alerts, Only(CONTACTING))|,
        Only(RESOLVED) := |FilteredAlerts(alerts, Only(RESOLVED))|]
  }

  /** Statuses NEW, NEW, CONTACTING, RESOLVED give badges 4, 2, 1 and 1. */
  lemma CountsExample(alerts: seq<Alert>)
    requires |alerts| == 4
    requires alerts[0].status == NEW && alerts[1].status == NEW
    requires alerts[2].status == CONTACTING && alerts[3].status == RESOLVED
    ensures AlertCounts(alerts)[All] == 4
    ensures AlertCounts(alerts)[Only(NEW)] == 2
    ensures AlertCounts(alerts)[Only(CONTACTING)] == 1
    ensures AlertCounts(alerts)[Only(RESOLVED)] == 1
  {
    var tail := alerts[2..];
    assert alerts == [alerts[0], alerts[1]] + tail;
    assert tail == [alerts[2]] + [alerts[3]];
    assert [alerts[0], alerts[1]] == [alerts[0]] + [alerts[1]];
    forall f | f in Filters
      ensures |FilteredAlerts(alerts, f)| == |FilteredAlerts([alerts[0]], f)| + |FilteredAlerts([alerts[1]], f)|
                                           + |FilteredAlerts([alerts[2]], f)| + |FilteredAlerts([alerts[3]], f)|
    {
      FilterKeepsOrder([alerts[0], alerts[1]], tail, f);
      FilterKeepsOrder([alerts[0]], [alerts[1]], f);
      FilterKeepsOrder([alerts[2]], [alerts[3]], f);
    }
  }

  class Dashboard {
    var alerts: seq<Alert>
    var isLoading: bool
    var error: Option<string>
    var filter: Filter
    var isResolveModalOpen: bool
    var selectedAlert: Option<Alert>
    var resolution: Option<Resolution>
    var isResolving: bool

    /** The first render, before the first fetch has come back. */
    constructor ()
      ensures alerts == [] && isLoading && error == None && filter == Only(NEW)
      ensures !isResolveModalOpen && selectedAlert == None && resolution == None && !isResolving
    {
      alerts := [];
      isLoading := true;
      error := None;
      filter := Only(NEW);
      isResolveModalOpen := false;
      selectedAlert := None;
      resolution := None;
      isResolving := false;
    }

    /** The list area shows cards: neither the first-load spinner (loading
        with nothing listed yet) nor the error message replaces them. */
    predicate ListShown()
      reads this
    {
      !(isLoading && alerts == []) && error.None?
    }

    /** The cards on screen: the selected filter's alerts when the list is
        shown, and none under the spinner or the error message. */
    function Visible(): (r: seq<Alert>)
      reads this
      ensures !ListShown() ==> r == []
      ensures forall i :: 0 <= i < |r| ==> Shows(filter, r[i])
      ensures ListShown() ==>
        forall a :: multiset(r)[a] == if Shows(filter, a) then multiset(alerts)[a] else 0
    {
      FilterContents(alerts, filter);
      if ListShown() then FilteredAlerts(alerts, filter) else []
    }

    /** The filter badges, computed from the whole list whatever is on screen. */
    function Counts(): (m: map<Filter, nat>)
      reads this
      ensures forall f :: f in m <==> f in Filters
      ensures m[All] == |alerts|
      ensures filter in m && m[filter] == |FilteredAlerts(alerts, filter)|
      ensures ListShown() ==> m[filter] == |Visible()|
    {
      EveryFilterHasButton(filter);
      AlertCounts(alerts)
    }

    method SetFilter(f: Filter)
      modifies this`filter
      ensures filter == f && Visible() == if ListShown() then FilteredAlerts(alerts, f) else []
      ensures Counts() == old(Counts())
    {
      filter := f;
    }

    /** `fetchAlerts` with the call's outcome: a failure keeps the last list. */
    method FetchAlerts(outcome: Result<seq<Alert>>)
      modifies this`alerts, this`error, this`isLoading
      ensures !isLoading
      ensures outcome.Ok? ==> alerts == outcome.value && error == None
      ensures outcome.Err? ==> alerts == old(alerts) && error == Some(FetchError) && Visible() == []
      ensures outcome.Ok? ==> ListShown() && Visible() == FilteredAlerts(outcome.value, filter)
    {
      error := None;
      if outcome.Ok? {
        alerts := outcome.value;
      } else {
        error := Some(FetchError);
      }
      isLoading := false;
    }

    /** Reloads the list from the store, which the mock always answers. */
    method Refetch(store: ApiService.AlertStore)
      modifies this`alerts, this`error, this`isLoading
      ensures !isLoading && error == None
      ensures multiset(alerts) == multiset(store.alerts) && ApiService.NewestFirst(alerts)
    {
      var fetched := store.GetCHWAlerts(1);
      FetchAlerts(Ok(fetched));
    }

    /** `handleUpdateStatus`, the card's Call button. */
    method HandleUpdateStatus(store: ApiService.AlertStore, alertId: int, status: AlertStatus)
      returns (r: Result<Alert>)
      requires store.Valid()
      modifies store, this`alerts, this`error, this`isLoading
      ensures store.Valid()
      ensures (store.alerts, r) == ApiService.StatusUpdate(old(store.alerts), alertId, status)
      ensures store.nextId == old(store.nextId) && store.chws == old(store.chws)
      ensures r.Ok? ==> multiset(alerts) == multiset(store.alerts) && ApiService.NewestFirst(alerts)
                        && error == None && !isLoading
      ensures r.Err? ==> alerts == old(alerts) && error == old(error) && isLoading == old(isLoading)
    {
      r := store.UpdateAlertStatus(alertId, status);
      if r.Ok? {
        Refetch(store);
      }
    }

    /** `handleOpenResolveModal`: only for an alert in the current list. */
    method HandleOpenResolveModal(alertId: int)
      modifies this`selectedAlert, this`resolution, this`isResolveModalOpen
      ensures match ApiService.FindIndex(alerts, alertId)
        case None =>
          selectedAlert == old(selectedAlert) && resolution == old(resolution)
          && isResolveModalOpen == old(isResolveModalOpen)
        case Some(k) =>
          selectedAlert == Some(alerts[k]) && resolution == None && isResolveModalOpen
    {
      var k := ApiService.FindIndex(alerts, alertId);
      if k.Some? {
        selectedAlert := Some(alerts[k.value]);
        resolution := None;
        isResolveModalOpen := true;
      }
    }

    /** The dialog's reason selector; its empty option is `None`. */
    method ChooseResolution(choice: Option<Resolution>)
      modifies this`resolution
      ensures resolution == choice
    {
      resolution := choice;
    }

    /** The dialog's Cancel and close buttons. */
    method CloseResolveModal()
      modifies this`isResolveModalOpen
      ensures !isResolveModalOpen
    {
      isResolveModalOpen := false;
    }

    /** `handleResolve`: needs a selected alert and a chosen reason; the notes
        box is not wired to the call, so no notes are sent. `r` is `None` when
        the guard stops it. */
    method HandleResolve(store: ApiService.AlertStore, now: int) returns (r: Option<Result<Alert>>)
      requires store.Valid()
      modifies store, this`alerts, this`error, this`isLoading, this`isResolveModalOpen, this`selectedAlert,
               this`isResolving
      ensures store.Valid()
      ensures store.nextId == old(store.nextId) && store.chws == old(store.chws)
      ensures r.Some? ==> !isResolving
      ensures r.None? <==> old(selectedAlert).None? || old(resolution).None?
      ensures r.None? ==> store.alerts == old(store.alerts) && alerts == old(alerts)
                          && selectedAlert == old(selectedAlert) && isResolveModalOpen == old(isResolveModalOpen)
                          && isResolving == old(isResolving) && error == old(error) && isLoading == old(isLoading)
      ensures r.Some? ==>
        (store.alerts, r.value) ==
          ApiService.Resolve(old(store.alerts), old(selectedAlert).value.id, old(resolution).value, None, now)
      ensures r.Some? && r.value.Ok? ==>
        && !isResolveModalOpen && selectedAlert == None
        && multiset(alerts) == multiset(store.alerts) && ApiService.NewestFirst(alerts)
        && error == None && !isLoading
      ensures r.Some? && r.value.Err? ==>
        && alerts == old(alerts) && selectedAlert == old(selectedAlert) && isResolveModalOpen == old(isResolveModalOpen)
        && error == old(error) && isLoading == old(isLoading)
      ensures filter == old(filter) && resolution == old(resolution)
    {
      if selectedAlert.None? || resolution.None? {
        r := None;
        return;
      }
      isResolving := true;
      var outcome := store.ResolveAlert(selectedAlert.value.id, resolution.value, None, now);
      r := Some(outcome);
      if outcome.Ok? {
        isResolveModalOpen := false;
        selectedAlert := None;
        Refetch(store);
      }
      isResolving := false;
    }
  }
}
