/** The second copy of `getDashboardData`, in `src/services/dashboardService.ts`.
    It computes the same counts and lists as the one in `api.ts`, with two
    differences: revenue adds `preco` without a default, so one entry without a
    price turns the sum into `NaN`; and the team block only counts users whose
    profile is the upper-case string `PROFISSIONAL`. */
module ServiceDashboard {
  import opened Common
  import opened Seqs
  import opened Records
  import opened Metrics
  import ApiDashboard

  /** A revenue figure: `None` stands for `NaN`. */
  type Revenue = Option<int>

  datatype Financial = Financial(dailyRevenue: Revenue, monthlyRevenue: Revenue, pendingPayments: nat)

  datatype TeamStatus = TeamStatus(activeProfessionals: nat, onBreakProfessionals: nat, absentProfessionals: nat)

  datatype DashboardData = DashboardData(
    todayAppointments: nat,
    dailyRevenue: Revenue,
    monthlyRevenue: Revenue,
    monthlyClients: nat,
    topServices: seq<ServiceCount>,
    nextAppointments: seq<UpcomingAppointment>,
    pendingPayments: nat,
    totalClients: nat,
    financial: Financial,
    team: TeamStatus)

  /** `reduce((acc, curr) => acc + curr.preco, 0)`: adding an absent price
      gives `NaN`, and `NaN` plus anything stays `NaN`. */
  function StrictSum(entries: seq<FinanceEntry>): Revenue {
    if entries == [] then Some(0)
    else
      match StrictSum(entries[..|entries| - 1])
      case None => None
      case Some(acc) =>
        match entries[|entries| - 1].price
        case None => None
        case Some(p) => Some(acc + p)
  }

  predicate AllPriced(entries: seq<FinanceEntry>) {
    forall i :: 0 <= i < |entries| ==> entries[i].price.Some?
  }

  /** The strict sum is a number exactly when every entry has a price, and
      then it is the sum with absent prices read as 0. */
  lemma {:induction false} StrictSumDefinedWhenAllPriced(entries: seq<FinanceEntry>)
    ensures StrictSum(entries) ==
      if AllPriced(entries) then Some(SumOf(entries, ApiDashboard.PriceOrZero)) else None
  {
    if entries != [] {
      var init := entries[..|entries| - 1];
      StrictSumDefinedWhenAllPriced(init);
      assert AllPriced(entries) <==> AllPriced(init) && entries[|entries| - 1].price.Some? by {
        if AllPriced(init) && entries[|entries| - 1].price.Some? {
          forall i | 0 <= i < |entries| ensures entries[i].price.Some? {
            if i < |init| {
              assert entries[i] == init[i];
            }
          }
        }
        if AllPriced(entries) {
          forall i | 0 <= i < |init| ensures init[i].price.Some? {
            assert init[i] == entries[i];
          }
        }
      }
    }
  }

  function DailyRevenue(finance: seq<FinanceEntry>, now: int): Revenue {
    StrictSum(Filter(finance, PaidOn(now)))
  }

  function MonthlyRevenue(finance: seq<FinanceEntry>, env: Env): Revenue {
    StrictSum(Filter(finance, PaidInMonth(env)))
  }

  /** The entries a filter keeps all have prices exactly when every entry of
      the list that passes the filter has one. */
  lemma KeptPricedIffPassingPriced(finance: seq<FinanceEntry>, counted: FinanceEntry -> bool)
    ensures AllPriced(Filter(finance, counted)) <==> forall f :: f in finance && counted(f) ==> f.price.Some?
  {
    var kept := Filter(finance, counted);
    FilterMultiset(finance, counted);
    if AllPriced(kept) {
      forall f | f in finance && counted(f) ensures f.price.Some? {
        assert f in multiset(finance);
        assert f in multiset(kept);
        var i :| 0 <= i < |kept| && kept[i] == f;
      }
    }
    if forall f :: f in finance && counted(f) ==> f.price.Some? {
      forall i | 0 <= i < |kept| ensures kept[i].price.Some? {
        assert kept[i] in multiset(kept);
        assert kept[i] in multiset(finance);
      }
    }
  }

  /** A filtered strict sum is a number exactly when every entry that passes
      the filter has a price, and then it agrees with the sum that reads an
      absent price as 0. */
  lemma FilteredStrictSum(finance: seq<FinanceEntry>, counted: FinanceEntry -> bool)
    ensures StrictSum(Filter(finance, counted)) ==
      if forall f :: f in finance && counted(f) ==> f.price.Some?
      then Some(SumOf(Filter(finance, counted), ApiDashboard.PriceOrZero))
      else None
  {
    StrictSumDefinedWhenAllPriced(Filter(finance, counted));
    KeptPricedIffPassingPriced(finance, counted);
  }

  /** The day's revenue is `NaN` exactly when an entry paid today has no
      price; otherwise it equals the revenue of the `api.ts` copy. */
  lemma DailyRevenueMatchesApi(finance: seq<FinanceEntry>, now: int)
    ensures DailyRevenue(finance, now) ==
      if forall f :: f in finance && f.status == StatusPago && OnDay(f.createdAt, now) ==> f.price.Some?
      then Some(ApiDashboard.DailyRevenue(finance, now))
      else None
  {
    FilteredStrictSum(finance, PaidOn(now));
  }

  /** The month's revenue is `NaN` exactly when an entry paid in the current
      month number has no price; otherwise it equals the revenue of the
      `api.ts` copy. */
  lemma MonthlyRevenueMatchesApi(finance: seq<FinanceEntry>, env: Env)
    ensures MonthlyRevenue(finance, env) ==
      if forall f :: (f in finance && f.status == StatusPago &&
                      env.localMonth(f.createdAt) == env.localMonth(env.now)) ==> f.price.Some?
      then Some(ApiDashboard.MonthlyRevenue(finance, env))
      else None
  {
    FilteredStrictSum(finance, PaidInMonth(env));
  }

  /** The profile string this copy compares against. */
  const UpperProfissional: string := "PROFISSIONAL"

  /** `profissionais.data.filter(p => p.perfil === 'PROFISSIONAL').length`:
      the number of users whose profile is exactly that string. */
  function ActiveProfessionals(users: seq<UserRecord>): (n: nat)
    ensures n <= |users|
    ensures n == |set i | 0 <= i < |users| && users[i].profile == UpperProfissional|
  {
    var upper := (u: UserRecord) => u.profile == UpperProfissional;
    FilterLengthCountsPositions(users, upper);
    assert IndicesWhere(users, upper) == set i | 0 <= i < |users| && users[i].profile == UpperProfissional;
    |Filter(users, upper)|
  }

  /** The `Perfil` values are lower case, so on accounts whose profile is one
      of them no professional is ever counted as active. */
  lemma NoActiveProfessionalsForEnumProfiles(users: seq<UserRecord>)
    requires forall i :: 0 <= i < |users| ==>
      users[i].profile == PerfilAdmin || users[i].profile == PerfilProfissional
    ensures ActiveProfessionals(users) == 0
  {
    assert UpperProfissional[0] != PerfilAdmin[0] && UpperProfissional[0] != PerfilProfissional[0];
    assert (set i | 0 <= i < |users| && users[i].profile == UpperProfissional) == {};
  }

  /** The dashboard this copy returns for the given lists at the given moment. */
  function Dashboard(appointments: seq<Appointment>, clients: seq<Client>, finance: seq<FinanceEntry>,
                     users: seq<UserRecord>, env: Env): DashboardData
  {
    var daily := DailyRevenue(finance, env.now);
    var monthly := MonthlyRevenue(finance, env);
    var pending := PendingPayments(finance);
    DashboardData(
      TodayAppointments(appointments, env.now),
      daily,
      monthly,
      MonthlyClients(clients, env),
      TopServices(appointments),
      NextAppointments(appointments, env.now),
      pending,
      |clients|,
      Financial(daily, monthly, pending),
      TeamStatus(ActiveProfessionals(users), 0, 0))
  }

  /** Apart from revenue and the team block, both copies report the same
      figures; their revenues agree whenever every counted entry has a price. */
  lemma DashboardsAgree(appointments: seq<Appointment>, clients: seq<Client>, finance: seq<FinanceEntry>,
                        users: seq<UserRecord>, env: Env)
    ensures var s, a := Dashboard(appointments, clients, finance, users, env),
                        ApiDashboard.Dashboard(appointments, clients, finance, users, env);
      s.todayAppointments == a.todayAppointments && s.monthlyClients == a.monthlyClients &&
      s.topServices == a.topServices && s.nextAppointments == a.nextAppointments &&
      s.pendingPayments == a.pendingPayments && s.totalClients == a.totalClients &&
      (s.dailyRevenue.Some? ==> s.dailyRevenue.value == a.dailyRevenue) &&
      (s.monthlyRevenue.Some? ==> s.monthlyRevenue.value == a.monthlyRevenue) &&
      ((forall f :: f in finance ==> f.price.Some?) ==>
         s.dailyRevenue == Some(a.dailyRevenue) && s.monthlyRevenue == Some(a.monthlyRevenue))
  {
    DailyRevenueMatchesApi(finance, env.now);
    MonthlyRevenueMatchesApi(finance, env);
  }

  /** The aggregation step of this copy, after the four lists arrived. */
  method GetDashboardData(appointments: seq<Appointment>, clients: seq<Client>, finance: seq<FinanceEntry>,
                          users: seq<UserRecord>, env: Env) returns (d: DashboardData)
    ensures d == Dashboard(appointments, clients, finance, users, env)
    ensures d.financial == Financial(d.dailyRevenue, d.monthlyRevenue, d.pendingPayments)
    ensures d.team.onBreakProfessionals == 0 && d.team.absentProfessionals == 0
    ensures d.team.activeProfessionals <= |users|
  {
    var todayCount := TodayAppointments(appointments, env.now);
    var daily := DailyRevenue(finance, env.now);
    var monthly := MonthlyRevenue(finance, env);
    var monthClients := MonthlyClients(clients, env);
    var tally := CountServices(appointments);
    var top := Take(SortBy(tally, ByCountDesc), 5);
    var next := NextAppointments(appointments, env.now);
    var pending := PendingPayments(finance);
    var active := ActiveProfessionals(users);
    d := DashboardData(todayCount, daily, monthly, monthClients, top, next, pending, |clients|,
                       Financial(daily, monthly, pending), TeamStatus(active, 0, 0));
  }
}
