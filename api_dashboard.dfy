/** `dashboardService.getDashboardData` and `profissionalService.list` of the
    service layer `src/services/api.ts`. The four lists the service fetches in
    parallel are parameters here. */
module ApiDashboard {
  import opened Common
  import opened Seqs
  import opened Records
  import opened Metrics

  datatype Financial = Financial(dailyRevenue: int, monthlyRevenue: int, pendingPayments: nat)

  /** A professional as the dashboard lists it (`ProfissionalFiltrado`). */
  datatype TeamMember = TeamMember(name: string, role: string, services: seq<string>)

  datatype Team = Team(professionals: seq<TeamMember>, uniqueServices: seq<string>, uniqueRoles: seq<string>)

  datatype DashboardData = DashboardData(
    todayAppointments: nat,
    dailyRevenue: int,
    monthlyRevenue: int,
    monthlyClients: nat,
    topServices: seq<ServiceCount>,
    nextAppointments: seq<UpcomingAppointment>,
    pendingPayments: nat,
    totalClients: nat,
    financial: Financial,
    team: Team)

  /** `curr.preco || 0`: an absent price adds nothing. */
  function PriceOrZero(f: FinanceEntry): int {
    f.price.GetOr(0)
  }

  /** Sum of the prices of the entries paid today. */
  function DailyRevenue(finance: seq<FinanceEntry>, now: int): int {
    SumOf(Filter(finance, PaidOn(now)), PriceOrZero)
  }

  /** Sum of the prices of the entries paid in the current month number. */
  function MonthlyRevenue(finance: seq<FinanceEntry>, env: Env): int {
    SumOf(Filter(finance, PaidInMonth(env)), PriceOrZero)
  }

  /** Inserting one entry anywhere adds its price to a filtered revenue exactly
      when it passes the filter. */
  lemma RevenueContribution(before: seq<FinanceEntry>, f: FinanceEntry, after: seq<FinanceEntry>,
                            counted: FinanceEntry -> bool)
    ensures SumOf(Filter(before + [f] + after, counted), PriceOrZero) ==
            SumOf(Filter(before + after, counted), PriceOrZero) + (if counted(f) then PriceOrZero(f) else 0)
  {
    SumOfFilter(before + [f] + after, counted, PriceOrZero);
    SumOfFilter(before + after, counted, PriceOrZero);
    SumWhereConcat(before + [f], after, counted, PriceOrZero);
    SumWhereConcat(before, [f], counted, PriceOrZero);
    SumWhereConcat(before, after, counted, PriceOrZero);
    assert [f][1..] == [];
  }

  /** The day's revenue starts at 0, and an entry adds its price (0 when absent)
      exactly when it is `PAGO` and created today: entries `PENDENTE` or
      `CANCELADO` never change it. */
  lemma DailyRevenueCountsPaidToday(before: seq<FinanceEntry>, f: FinanceEntry, after: seq<FinanceEntry>, now: int)
    ensures DailyRevenue([], now) == 0
    ensures DailyRevenue(before + [f] + after, now) == DailyRevenue(before + after, now) +
      (if f.status == StatusPago && OnDay(f.createdAt, now) then PriceOrZero(f) else 0)
  {
    RevenueContribution(before, f, after, PaidOn(now));
  }

  /** The month's revenue starts at 0, and an entry adds its price (0 when
      absent) exactly when it is `PAGO` and its local month number is the
      current one, in any year. */
  lemma MonthlyRevenueCountsPaidInMonth(before: seq<FinanceEntry>, f: FinanceEntry, after: seq<FinanceEntry>, env: Env)
    ensures MonthlyRevenue([], env) == 0
    ensures MonthlyRevenue(before + [f] + after, env) == MonthlyRevenue(before + after, env) +
      (if f.status == StatusPago && env.localMonth(f.createdAt) == env.localMonth(env.now) then PriceOrZero(f) else 0)
  {
    RevenueContribution(before, f, after, PaidInMonth(env));
  }

  /** Two ledgers whose entries agree on status, price and local month number
      have the same monthly revenue, however far apart their years are. */
  lemma {:induction false} MonthlyRevenueIgnoresYear(fs: seq<FinanceEntry>, gs: seq<FinanceEntry>, env: Env)
    requires |fs| == |gs|
    requires forall i :: 0 <= i < |fs| ==>
      fs[i].status == gs[i].status && fs[i].price == gs[i].price &&
      env.localMonth(fs[i].createdAt) == env.localMonth(gs[i].createdAt)
    ensures MonthlyRevenue(fs, env) == MonthlyRevenue(gs, env)
  {
    SumOfFilter(fs, PaidInMonth(env), PriceOrZero);
    SumOfFilter(gs, PaidInMonth(env), PriceOrZero);
    SumWhereAgrees(fs, gs, env);
  }

  lemma {:induction false} SumWhereAgrees(fs: seq<FinanceEntry>, gs: seq<FinanceEntry>, env: Env)
    requires |fs| == |gs|
    requires forall i :: 0 <= i < |fs| ==>
      fs[i].status == gs[i].status && fs[i].price == gs[i].price &&
      env.localMonth(fs[i].createdAt) == env.localMonth(gs[i].createdAt)
    ensures SumWhere(fs, PaidInMonth(env), PriceOrZero) == SumWhere(gs, PaidInMonth(env), PriceOrZero)
  {
    if fs != [] {
      SumWhereAgrees(fs[1..], gs[1..], env);
    }
  }

  /** `p.perfil === Perfil.PROFISSIONAL`. */
  predicate IsProfessional(u: UserRecord) {
    u.profile == PerfilProfissional
  }

  /** `{ nome, cargo, servicos: p.servicos || [] }`. */
  function ToMember(u: UserRecord): TeamMember {
    TeamMember(u.name, u.role, u.services.GetOr([]))
  }

  function MemberServices(m: TeamMember): seq<string> {
    m.services
  }

  function MemberRole(m: TeamMember): string {
    m.role
  }

  /** The users with profile `profissional`, as team members, in order. */
  function Professionals(users: seq<UserRecord>): seq<TeamMember> {
    MapSeq(Filter(users, IsProfessional), ToMember)
  }

  /** `flatMap` of the professionals' services, repetitions included. */
  function OfferedServices(users: seq<UserRecord>): seq<string> {
    Flatten(MapSeq(Professionals(users), MemberServices))
  }

  function UniqueServices(users: seq<UserRecord>): seq<string> {
    Dedup(OfferedServices(users))
  }

  /** The professionals' roles, repetitions included. */
  function Roles(users: seq<UserRecord>): seq<string> {
    MapSeq(Professionals(users), MemberRole)
  }

  function UniqueRoles(users: seq<UserRecord>): seq<string> {
    Dedup(Roles(users))
  }

  /** A user is among the filtered professionals exactly when it is a user of profile `profissional`. */
  lemma ProfessionalMembers(users: seq<UserRecord>)
    ensures forall i :: 0 <= i < |Filter(users, IsProfessional)| ==>
      Filter(users, IsProfessional)[i] in users && IsProfessional(Filter(users, IsProfessional)[i])
    ensures forall u :: u in users && IsProfessional(u) ==> u in Filter(users, IsProfessional)
  {
    FilterMultiset(users, IsProfessional);
    var kept := Filter(users, IsProfessional);
    forall i | 0 <= i < |kept| ensures kept[i] in users {
      assert kept[i] in multiset(kept);
    }
    forall u | u in users && IsProfessional(u) ensures u in kept {
      assert u in multiset(users);
    }
  }

  /** A service offered by the team belongs to a user of profile `profissional`. */
  lemma OfferedByProfessional(users: seq<UserRecord>, s: string)
    requires s in OfferedServices(users)
    ensures exists u :: u in users && u.profile == PerfilProfissional && u.services.Some? && s in u.services.value
  {
    FilterMultiset(users, IsProfessional);
    var kept := Filter(users, IsProfessional);
    var lists := MapSeq(Professionals(users), MemberServices);
    var i :| 0 <= i < |lists| && s in lists[i];
    assert lists[i] == kept[i].services.GetOr([]);
    assert kept[i] in multiset(kept);
  }

  /** Every service of a user of profile `profissional` is offered by the team. */
  lemma ProfessionalOffers(users: seq<UserRecord>, u: UserRecord, s: string)
    requires u in users && u.profile == PerfilProfissional && u.services.Some? && s in u.services.value
    ensures s in OfferedServices(users)
  {
    FilterMultiset(users, IsProfessional);
    var kept := Filter(users, IsProfessional);
    var lists := MapSeq(Professionals(users), MemberServices);
    assert u in multiset(users);
    assert u in multiset(kept);
    var i :| 0 <= i < |kept| && kept[i] == u;
    assert s in lists[i];
  }

  /** The distinct services are listed once each, in order of first appearance,
      and are exactly the services of users of profile `profissional` (a user
      without `servicos` offers none). */
  lemma UniqueServicesExact(users: seq<UserRecord>)
    ensures Distinct(UniqueServices(users))
    ensures forall s :: s in UniqueServices(users) <==>
      exists u :: u in users && u.profile == PerfilProfissional && u.services.Some? && s in u.services.value
    ensures forall i, j :: 0 <= i < j < |UniqueServices(users)| ==>
      FirstIndex(OfferedServices(users), UniqueServices(users)[i]) <
      FirstIndex(OfferedServices(users), UniqueServices(users)[j])
  {
    DedupFirstOccurrenceOrder(OfferedServices(users));
    forall s | s in OfferedServices(users)
      ensures exists u :: u in users && u.profile == PerfilProfissional && u.services.Some? && s in u.services.value
    {
      OfferedByProfessional(users, s);
    }
    forall s, u | u in users && u.profile == PerfilProfissional && u.services.Some? && s in u.services.value
      ensures s in OfferedServices(users)
    {
      ProfessionalOffers(users, u, s);
    }
  }

  /** A role of the team belongs to a user of profile `profissional`. */
  lemma RoleOfProfessional(users: seq<UserRecord>, c: string)
    requires c in Roles(users)
    ensures exists u :: u in users && u.profile == PerfilProfissional && u.role == c
  {
    FilterMultiset(users, IsProfessional);
    var kept := Filter(users, IsProfessional);
    var roles := Roles(users);
    var i :| 0 <= i < |roles| && roles[i] == c;
    assert kept[i] in multiset(kept);
    assert kept[i].role == c;
  }

  /** The role of a user of profile `profissional` is a role of the team. */
  lemma ProfessionalHasRole(users: seq<UserRecord>, u: UserRecord)
    requires u in users && u.profile == PerfilProfissional
    ensures u.role in Roles(users)
  {
    FilterMultiset(users, IsProfessional);
    var kept := Filter(users, IsProfessional);
    assert u in multiset(users);
    assert u in multiset(kept);
    var i :| 0 <= i < |kept| && kept[i] == u;
    assert Roles(users)[i] == u.role;
  }

  /** The distinct roles are listed once each, in order of first appearance,
      and are exactly the roles of users of profile `profissional`. */
  lemma UniqueRolesExact(users: seq<UserRecord>)
    ensures Distinct(UniqueRoles(users))
    ensures forall c :: c in UniqueRoles(users) <==>
      exists u :: u in users && u.profile == PerfilProfissional && u.role == c
    ensures forall i, j :: 0 <= i < j < |UniqueRoles(users)| ==>
      FirstIndex(Roles(users), UniqueRoles(users)[i]) < FirstIndex(Roles(users), UniqueRoles(users)[j])
  {
    DedupFirstOccurrenceOrder(Roles(users));
    forall c | c in Roles(users)
      ensures exists u :: u in users && u.profile == PerfilProfissional && u.role == c
    {
      RoleOfProfessional(users, c);
    }
    forall u | u in users && u.profile == PerfilProfissional ensures u.role in Roles(users) {
      ProfessionalHasRole(users, u);
    }
  }

  /** `profissionalService.list`: the users of profile `profissional`, each as
      often as in the input. Both tests of the filter compare with the same
      string, `Perfil.PROFISSIONAL` being `'profissional'`. */
  function ListProfessionals(users: seq<UserRecord>): (r: seq<UserRecord>)
    ensures forall i :: 0 <= i < |r| ==> r[i].profile == PerfilProfissional
    ensures forall u :: multiset(r)[u] == if u.profile == PerfilProfissional then multiset(users)[u] else 0
  {
    var professional := (u: UserRecord) => u.profile == PerfilProfissional || u.profile == "profissional";
    FilterMultiset(users, professional);
    Filter(users, professional)
  }

  /** The listed professionals keep their original order: listing a
      concatenation lists each part, and a list of professionals only is kept whole. */
  lemma ListProfessionalsKeepsOrder(a: seq<UserRecord>, b: seq<UserRecord>)
    ensures ListProfessionals(a + b) == ListProfessionals(a) + ListProfessionals(b)
    ensures (forall i :: 0 <= i < |a| ==> a[i].profile == PerfilProfissional) ==> ListProfessionals(a) == a
  {
    var test := (u: UserRecord) => u.profile == PerfilProfissional || u.profile == "profissional";
    FilterConcat(a, b, test);
    if forall i :: 0 <= i < |a| ==> a[i].profile == PerfilProfissional {
      FilterKeepsAll(a, test);
    }
  }

  /** The service's list and the dashboard's team filter select the same users. */
  lemma ListProfessionalsIsTeamFilter(users: seq<UserRecord>)
    ensures ListProfessionals(users) == Filter(users, IsProfessional)
  {
    FilterCongruent(users, (u: UserRecord) => u.profile == PerfilProfissional || u.profile == "profissional", IsProfessional);
  }

  /** The dashboard the service returns for the given lists at the given moment. */
  function Dashboard(appointments: seq<Appointment>, clients: seq<Client>, finance: seq<FinanceEntry>,
                     users: seq<UserRecord>, env: Env): DashboardData
  {
    var daily := DailyRevenue(finance, env.now);
    var monthly := MonthlyRevenue(finance, env);
    var pending := PendingPayments(finance);
    DashboardData(
      TodayAppointments(appointments, env.now),
      daily,
      monthly,
      MonthlyClients(clients, env),
      TopServices(appointments),
      NextAppointments(appointments, env.now),
      pending,
      |clients|,
      Financial(daily, monthly, pending),
      Team(Professionals(users), UniqueServices(users), UniqueRoles(users)))
  }

  /** The aggregation step of `getDashboardData`, after the four lists arrived. */
  method GetDashboardData(appointments: seq<Appointment>, clients: seq<Client>, finance: seq<FinanceEntry>,
                          users: seq<UserRecord>, env: Env) returns (d: DashboardData)
    ensures d == Dashboard(appointments, clients, finance, users, env)
    ensures d.todayAppointments <= |appointments|
    ensures d.totalClients == |clients|
    ensures d.financial == Financial(d.dailyRevenue, d.monthlyRevenue, d.pendingPayments)
    ensures |d.topServices| <= 5 && |d.nextAppointments| <= 5
  {
    var todayCount := TodayAppointments(appointments, env.now);
    var daily := DailyRevenue(finance, env.now);
    var monthly := MonthlyRevenue(finance, env);
    var monthClients := MonthlyClients(clients, env);
    var tally := CountServices(appointments);
    var top := Take(SortBy(tally, ByCountDesc), 5);
    var next := NextAppointments(appointments, env.now);
    var pending := PendingPayments(finance);
    var members := Professionals(users);
    var uniqueServices := Dedup(Flatten(MapSeq(members, MemberServices)));
    var uniqueRoles := Dedup(MapSeq(members, MemberRole));
    d := DashboardData(todayCount, daily, monthly, monthClients, top, next, pending, |clients|,
                       Financial(daily, monthly, pending), Team(members, uniqueServices, uniqueRoles));
    TopServicesRanked(appointments);
    NextAppointmentsOrdered(appointments, env.now);
  }
}
