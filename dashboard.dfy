/** The dashboard: six numbers and two short lists worked out from seven
    lists the page fetches together.  The replies are a parameter. */
module Dashboard {
  import opened Base
  import opened Schemas

  /** Only completed rentals earn revenue. */
  predicate Completed(r: Rental)
  {
    r.info.status == "Completed"
  }

  function AmountOf(r: Rental): int
  {
    r.info.totalAmount
  }

  /** The revenue figure: the completed rentals' totals added up, over the
      rentals the page fetched. */
  function Revenue(rentals: seq<Rental>): int
  {
    Sum(Filter(rentals, Completed), AmountOf)
  }

  /** Revenue adds up over a split list. */
  lemma RevenueAppend(a: seq<Rental>, b: seq<Rental>)
    ensures Revenue(a + b) == Revenue(a) + Revenue(b)
  {
    FilterAppend(a, b, Completed);
    SumAppend(Filter(a, Completed), Filter(b, Completed), AmountOf);
  }

  /** One more rental adds its total when it is completed and nothing
      otherwise. */
  lemma RevenueOfOneMore(rentals: seq<Rental>, r: Rental)
    ensures Revenue(rentals + [r]) == Revenue(rentals) + (if Completed(r) then r.info.totalAmount else 0)
  {
    RevenueAppend(rentals, [r]);
    assert Filter([r], Completed) == if Completed(r) then [r] else [];
    assert [r][1..] == [];
    assert Sum([r], AmountOf) == r.info.totalAmount;
  }

  /** Rentals that are not completed contribute nothing. */
  lemma RevenueWithoutCompleted(rentals: seq<Rental>)
    requires forall i :: 0 <= i < |rentals| ==> !Completed(rentals[i])
    ensures Revenue(rentals) == 0
  {
    FilterNone(rentals, Completed);
  }

  /** The rentals list is fetched with a limit of 10: the figure shown is
      the revenue of those ten, and every completed rental past them is
      missing from it. */
  lemma RevenueOfFirstPage(all: seq<Rental>)
    requires |all| >= 10
    ensures Revenue(all[..10]) == Revenue(all) - Revenue(all[10..])
  {
    assert all == all[..10] + all[10..];
    RevenueAppend(all[..10], all[10..]);
  }

  /** `slice(0, 5)`: the first five, or all when there are fewer. */
  function FirstFive<T>(s: seq<T>): (r: seq<T>)
    ensures |r| == if |s| < 5 then |s| else 5
    ensures forall i :: 0 <= i < |r| ==> r[i] == s[i]
  {
    if |s| < 5 then s else s[..5]
  }

  /** The first five are a prefix of the list, so the list's order is kept. */
  lemma FirstFiveIsPrefix<T>(s: seq<T>)
    ensures FirstFive(s) == s[..|FirstFive(s)|]
  {
  }

  datatype Stats = Stats(totalCustomers: nat, totalVehicles: nat, activeRentals: nat,
                         availableVehicles: nat, overdueRentals: nat, revenue: int)

  /** The seven replies, in the order the page asks for them. */
  datatype Replies = Replies(customers: seq<Customer>, vehicles: seq<Vehicle>, activeRentals: seq<Rental>,
                             availableVehicles: seq<Vehicle>, overdueRentals: seq<Rental>,
                             maintenanceVehicles: seq<Vehicle>, rentals: seq<Rental>)

  /** The figures shown: each count is the length of its list. */
  function StatsOf(d: Replies): (s: Stats)
    ensures s.totalCustomers == |d.customers| && s.totalVehicles == |d.vehicles|
    ensures s.activeRentals == |d.activeRentals| && s.availableVehicles == |d.availableVehicles|
    ensures s.overdueRentals == |d.overdueRentals| && s.revenue == Revenue(d.rentals)
  {
    Stats(|d.customers|, |d.vehicles|, |d.activeRentals|, |d.availableVehicles|,
          |d.overdueRentals|, Revenue(d.rentals))
  }

  /** The overdue card is drawn as a warning exactly when some rental is
      overdue. */
  predicate OverdueWarning(s: Stats)
  {
    s.overdueRentals > 0
  }

  lemma OverdueWarningIffAnyOverdue(d: Replies)
    ensures OverdueWarning(StatsOf(d)) <==> d.overdueRentals != []
  {
  }

  const LoadFailed := "Failed to load dashboard data"

  class Page {
    var stats: Stats
    var recentRentals: seq<Rental>
    var vehiclesNeedingMaintenance: seq<Vehicle>
    var loading: bool
    var error: Option<string>

    constructor()
      ensures stats == Stats(0, 0, 0, 0, 0, 0) && recentRentals == [] && vehiclesNeedingMaintenance == []
      ensures loading && error.None?
    {
      stats := Stats(0, 0, 0, 0, 0, 0);
      recentRentals := [];
      vehiclesNeedingMaintenance := [];
      loading := true;
      error := None;
    }

    /** fetchDashboardData, with the replies as a parameter (None when any
        of the requests failed, in which case nothing shown changes but the
        error). */
    method FetchDashboardData(replies: Option<Replies>)
      modifies this
      ensures !loading
      ensures replies.None? ==>
        && error == Some(LoadFailed) && stats == old(stats) && recentRentals == old(recentRentals)
        && vehiclesNeedingMaintenance == old(vehiclesNeedingMaintenance)
      ensures replies.Some? ==>
        && error.None? && stats == StatsOf(replies.value)
        && recentRentals == FirstFive(replies.value.rentals)
        && vehiclesNeedingMaintenance == FirstFive(replies.value.maintenanceVehicles)
    {
      loading := true;
      error := None;
      match replies {
        case None =>
          error := Some(LoadFailed);
        case Some(d) =>
          var completed := Filter(d.rentals, Completed);
          var revenue := Sum(completed, AmountOf);
          stats := Stats(|d.customers|, |d.vehicles|, |d.activeRentals|, |d.availableVehicles|,
                         |d.overdueRentals|, revenue);
          recentRentals := FirstFive(d.rentals);
          vehiclesNeedingMaintenance := FirstFive(d.maintenanceVehicles);
      }
      loading := false;
    }
  }
}
