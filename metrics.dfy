/** The dashboard figures that both copies of `getDashboardData` compute in the
    same way: today's appointments, clients of the month, pending payments, the
    service tally with its top five, and the next five appointments. */
module Metrics {
  import opened Common
  import opened Seqs
  import opened Records

  /** The instant `t` falls on the same UTC day as `now`. */
  predicate OnDay(t: int, now: int) {
    DayKey(t) == DayKey(now)
  }

  /** The instant `t` falls in the current local month, whatever its year. */
  predicate InCurrentMonth(env: Env, t: int) {
    env.localMonth(t) == env.localMonth(env.now)
  }

  /** Number of appointments whose UTC date is today's. */
  function TodayAppointments(appointments: seq<Appointment>, now: int): (n: nat)
    ensures n <= |appointments|
    ensures n == |set i | 0 <= i < |appointments| && OnDay(appointments[i].at, now)|
  {
    var today := (a: Appointment) => OnDay(a.at, now);
    FilterLengthCountsPositions(appointments, today);
    assert IndicesWhere(appointments, today) == set i | 0 <= i < |appointments| && OnDay(appointments[i].at, now);
    |Filter(appointments, today)|
  }

  /** Number of clients whose birth date falls in the current local month: the
      figure shown as the month's new clients. */
  function MonthlyClients(clients: seq<Client>, env: Env): (n: nat)
    ensures n <= |clients|
    ensures n == |set i | 0 <= i < |clients| && InCurrentMonth(env, clients[i].birthDate)|
  {
    var thisMonth := (c: Client) => InCurrentMonth(env, c.birthDate);
    FilterLengthCountsPositions(clients, thisMonth);
    assert IndicesWhere(clients, thisMonth) == set i | 0 <= i < |clients| && InCurrentMonth(env, clients[i].birthDate);
    |Filter(clients, thisMonth)|
  }

  /** Number of finance entries whose status is `PENDENTE`. */
  function PendingPayments(finance: seq<FinanceEntry>): (n: nat)
    ensures n <= |finance|
    ensures n == |set i | 0 <= i < |finance| && finance[i].status == StatusPendente|
  {
    var pending := (f: FinanceEntry) => f.status == StatusPendente;
    FilterLengthCountsPositions(finance, pending);
    assert IndicesWhere(finance, pending) == set i | 0 <= i < |finance| && finance[i].status == StatusPendente;
    |Filter(finance, pending)|
  }

  /** The test an entry passes to count towards the day's revenue. */
  function PaidOn(now: int): FinanceEntry -> bool {
    (f: FinanceEntry) => OnDay(f.createdAt, now) && f.status == StatusPago
  }

  /** The test an entry passes to count towards the month's revenue. */
  function PaidInMonth(env: Env): FinanceEntry -> bool {
    (f: FinanceEntry) => InCurrentMonth(env, f.createdAt) && f.status == StatusPago
  }

  /** The services of the appointments, in order. */
  function ServicesOf(appointments: seq<Appointment>): (r: seq<string>)
    ensures |r| == |appointments|
    ensures forall i :: 0 <= i < |r| ==> r[i] == appointments[i].service
  {
    seq(|appointments|, i requires 0 <= i < |appointments| => appointments[i].service)
  }

  /** `Object.entries` of the tally object: one row per distinct service, in the
      order the services first appear, with the number of times each appears. */
  function ServiceTally(services: seq<string>): (r: seq<ServiceCount>)
    ensures forall i :: 0 <= i < |r| ==> r[i].name in services
    ensures forall i :: 0 <= i < |r| ==> r[i].count == multiset(services)[r[i].name] >= 1
    ensures forall s :: s in services ==> exists i :: 0 <= i < |r| && r[i].name == s
    ensures forall i, j :: 0 <= i < j < |r| ==> r[i].name != r[j].name
  {
    var names := Dedup(services);
    var r := seq(|names|, j requires 0 <= j < |names| => ServiceCount(names[j], multiset(services)[names[j]]));
    assert forall s :: s in services ==> r[FirstIndex(names, s)].name == s;
    r
  }

  /** The services of one more appointment. */
  lemma ServicesOfSnoc(appointments: seq<Appointment>, i: nat)
    requires i < |appointments|
    ensures ServicesOf(appointments[..i + 1]) == ServicesOf(appointments[..i]) + [appointments[i].service]
  {
    assert appointments[..i + 1] == appointments[..i] + [appointments[i]];
  }

  /** `Object.entries` of a tally object: each key with its count, in the
      order the keys were first set (the order `Object.entries` uses for keys
      that are not integer-like). */
  function Rows(keys: seq<string>, counts: map<string, int>): (r: seq<ServiceCount>)
    requires forall k :: k in keys ==> k in counts
    ensures |r| == |keys|
    ensures forall j :: 0 <= j < |keys| ==> r[j] == ServiceCount(keys[j], counts[keys[j]])
  {
    seq(|keys|, j requires 0 <= j < |keys| => ServiceCount(keys[j], counts[keys[j]]))
  }

  /** A tally object whose keys are the distinct services in first-seen order
      and whose counts are the occurrences lists the rows of `ServiceTally`. */
  lemma RowsAreTally(keys: seq<string>, counts: map<string, int>, services: seq<string>)
    requires keys == Dedup(services)
    requires forall k :: k in counts <==> k in keys
    requires forall k :: k in counts ==> counts[k] == multiset(services)[k]
    ensures Rows(keys, counts) == ServiceTally(services)
  {
    var r, t := Rows(keys, counts), ServiceTally(services);
    assert |r| == |t|;
    forall j | 0 <= j < |r| ensures r[j] == t[j] {
      assert keys[j] in counts;
    }
  }

  /** A tally object (`counts` and the order `keys` in which they were first
      set) that has counted exactly the services `seen`. */
  ghost predicate Counted(keys: seq<string>, counts: map<string, int>, seen: seq<string>) {
    keys == Dedup(seen) &&
    (forall k :: k in counts <==> k in keys) &&
    (forall k :: k in counts ==> counts[k] == multiset(seen)[k])
  }

  /** Counting one more service: a new key is appended, and its count becomes
      one more than before (one for a new key). */
  lemma CountedSnoc(keys: seq<string>, counts: map<string, int>, seen: seq<string>, service: string)
    requires Counted(keys, counts, seen)
    ensures Counted(if service in counts then keys else keys + [service],
                    counts[service := (if service in counts then counts[service] else 0) + 1],
                    seen + [service])
  {
    var keys' := if service in counts then keys else keys + [service];
    var counts' := counts[service := (if service in counts then counts[service] else 0) + 1];
    var seen' := seen + [service];
    DedupSnoc(seen, service);
    assert service in counts <==> service in seen;
    assert keys' == Dedup(seen');
    assert multiset(seen') == multiset(seen) + multiset{service};
    forall k | k in counts' ensures counts'[k] == multiset(seen')[k] {
      if k != service {
        assert counts'[k] == counts[k];
      }
    }
  }

  /** The in-place tally of the source: for each appointment, `acc[servico]` is
      created at 1 or incremented. A JavaScript object is modelled as a map and
      the order in which its keys were first set. */
  method CountServices(appointments: seq<Appointment>) returns (tally: seq<ServiceCount>)
    ensures tally == ServiceTally(ServicesOf(appointments))
  {
    var counts: map<string, int> := map[];
    var keys: seq<string> := [];
    ghost var seen: seq<string> := [];
    for i := 0 to |appointments|
      invariant seen == ServicesOf(appointments[..i])
      invariant Counted(keys, counts, seen)
    {
      var service := appointments[i].service;
      ServicesOfSnoc(appointments, i);
      CountedSnoc(keys, counts, seen, service);
      if service !in counts {
        keys := keys + [service];
      }
      counts := counts[service := (if service in counts then counts[service] else 0) + 1];
      seen := seen + [service];
    }
    assert appointments[..|appointments|] == appointments;
    RowsAreTally(keys, counts, seen);
    tally := Rows(keys, counts);
  }

  /** Sort key for `(a, b) => b.count - a.count`: ascending in this key is
      descending in count. */
  function ByCountDesc(e: ServiceCount): int {
    -e.count
  }

  /** The tally sorted by descending count, before `slice(0, 5)`. */
  function RankedServices(appointments: seq<Appointment>): seq<ServiceCount> {
    SortBy(ServiceTally(ServicesOf(appointments)), ByCountDesc)
  }

  /** The five most frequent services, most frequent first. */
  function TopServices(appointments: seq<Appointment>): seq<ServiceCount> {
    Take(RankedServices(appointments), 5)
  }

  /** Every row of the sorted tally is a row of the tally. */
  lemma RankedServicesFromTally(appointments: seq<Appointment>)
    ensures forall k :: 0 <= k < |RankedServices(appointments)| ==>
      RankedServices(appointments)[k] in ServiceTally(ServicesOf(appointments))
  {
    var ranked := RankedServices(appointments);
    forall k | 0 <= k < |ranked| ensures ranked[k] in ServiceTally(ServicesOf(appointments)) {
      assert ranked[k] in multiset(ranked);
    }
  }

  /** The sorted tally counts each service's appointments exactly. */
  lemma RankedServicesCounts(appointments: seq<Appointment>)
    ensures forall k :: 0 <= k < |RankedServices(appointments)| ==>
      RankedServices(appointments)[k].count == multiset(ServicesOf(appointments))[RankedServices(appointments)[k].name] >= 1
  {
    RankedServicesFromTally(appointments);
  }

  /** The sorted tally names each service once. */
  lemma RankedServicesDistinct(appointments: seq<Appointment>)
    ensures forall i, j :: 0 <= i < j < |RankedServices(appointments)| ==>
      RankedServices(appointments)[i].name != RankedServices(appointments)[j].name
  {
    var tally := ServiceTally(ServicesOf(appointments));
    RankedServicesFromTally(appointments);
    assert Distinct(tally);
    PermutationKeepsDistinct(tally, RankedServices(appointments));
  }

  /** The sorted tally names every service that some appointment has. */
  lemma RankedServicesComplete(appointments: seq<Appointment>)
    ensures forall a :: a in appointments ==>
      exists k :: 0 <= k < |RankedServices(appointments)| && RankedServices(appointments)[k].name == a.service
  {
    var services := ServicesOf(appointments);
    var tally := ServiceTally(services);
    var ranked := RankedServices(appointments);
    forall a | a in appointments
      ensures exists k :: 0 <= k < |ranked| && ranked[k].name == a.service
    {
      var n :| 0 <= n < |appointments| && appointments[n] == a;
      assert services[n] == a.service && services[n] in services;
      var t :| 0 <= t < |tally| && tally[t].name == a.service;
      assert tally[t] in multiset(ranked);
    }
  }

  /** A service that some appointment has is shown, or five services are shown
      and each occurs at least as often. */
  lemma ShownOrOutranked(appointments: seq<Appointment>, a: Appointment)
    requires a in appointments
    ensures (exists i :: 0 <= i < |TopServices(appointments)| && TopServices(appointments)[i].name == a.service) ||
      (|TopServices(appointments)| == 5 &&
       forall i :: 0 <= i < 5 ==> TopServices(appointments)[i].count >= multiset(ServicesOf(appointments))[a.service])
  {
    var ranked := RankedServices(appointments);
    var top := TopServices(appointments);
    RankedServicesCounts(appointments);
    RankedServicesComplete(appointments);
    assert SortedBy(ranked, ByCountDesc);
    var k :| 0 <= k < |ranked| && ranked[k].name == a.service;
    if k < |top| {
      assert top[k].name == a.service;
    } else {
      forall i | 0 <= i < 5 ensures top[i].count >= multiset(ServicesOf(appointments))[a.service] {
        assert top[i] == ranked[i];
        assert ByCountDesc(ranked[i]) <= ByCountDesc(ranked[k]);
      }
    }
  }

  /** The ranking holds at most five rows, in non-increasing count, each service
      once with its exact number of appointments; a service left out occurs no
      more often than any service shown, and is left out only when five are shown. */
  lemma TopServicesRanked(appointments: seq<Appointment>)
    ensures |TopServices(appointments)| <= 5
    ensures forall i, j :: 0 <= i < j < |TopServices(appointments)| ==>
      TopServices(appointments)[i].count >= TopServices(appointments)[j].count
    ensures forall i, j :: 0 <= i < j < |TopServices(appointments)| ==>
      TopServices(appointments)[i].name != TopServices(appointments)[j].name
    ensures forall i :: 0 <= i < |TopServices(appointments)| ==>
      TopServices(appointments)[i].count == multiset(ServicesOf(appointments))[TopServices(appointments)[i].name] >= 1
    ensures forall a :: a in appointments ==>
      (exists i :: 0 <= i < |TopServices(appointments)| && TopServices(appointments)[i].name == a.service) ||
      (|TopServices(appointments)| == 5 &&
       forall i :: 0 <= i < 5 ==> TopServices(appointments)[i].count >= multiset(ServicesOf(appointments))[a.service])
  {
    var ranked := RankedServices(appointments);
    var top := TopServices(appointments);
    RankedServicesCounts(appointments);
    RankedServicesDistinct(appointments);
    assert SortedBy(ranked, ByCountDesc);
    assert |top| <= 5 && forall i :: 0 <= i < |top| ==> top[i] == ranked[i];
    forall i, j | 0 <= i < j < |top| ensures top[i].count >= top[j].count {
      assert ByCountDesc(ranked[i]) <= ByCountDesc(ranked[j]);
    }
    forall a | a in appointments
      ensures (exists i :: 0 <= i < |top| && top[i].name == a.service) ||
              (|top| == 5 && forall i :: 0 <= i < 5 ==> top[i].count >= multiset(ServicesOf(appointments))[a.service])
    {
      ShownOrOutranked(appointments, a);
    }
  }

  /** Sort key for `(a, b) => a.data_hora - b.data_hora`. */
  function ByTime(a: Appointment): int {
    a.at
  }

  /** The row shown for an upcoming appointment; its `valor` is always 0. */
  function ToUpcoming(a: Appointment): UpcomingAppointment {
    UpcomingAppointment(a.id, a.clientId, a.service, a.at, 0, a.status)
  }

  /** The appointments at or after `now`, earliest first. */
  function UpcomingSorted(appointments: seq<Appointment>, now: int): seq<Appointment> {
    SortBy(Filter(appointments, (a: Appointment) => a.at >= now), ByTime)
  }

  /** The next five appointments at or after `now`, earliest first. */
  function NextAppointments(appointments: seq<Appointment>, now: int): seq<UpcomingAppointment> {
    MapSeq(Take(UpcomingSorted(appointments, now), 5), ToUpcoming)
  }

  /** The sorted upcoming appointments are exactly the input appointments at
      or after `now`, each as often as in the input. */
  lemma UpcomingSortedIsFuture(appointments: seq<Appointment>, now: int)
    ensures multiset(UpcomingSorted(appointments, now)) == multiset(Filter(appointments, (a: Appointment) => a.at >= now))
    ensures forall k :: 0 <= k < |UpcomingSorted(appointments, now)| ==>
      UpcomingSorted(appointments, now)[k] in appointments && UpcomingSorted(appointments, now)[k].at >= now
    ensures forall a :: a in appointments && a.at >= now ==> a in UpcomingSorted(appointments, now)
  {
    var kept := Filter(appointments, (a: Appointment) => a.at >= now);
    var sorted := UpcomingSorted(appointments, now);
    FilterMultiset(appointments, (a: Appointment) => a.at >= now);
    assert multiset(sorted) == multiset(kept);
    forall k | 0 <= k < |sorted| ensures sorted[k] in appointments && sorted[k].at >= now {
      assert sorted[k] in multiset(sorted);
      assert multiset(kept)[sorted[k]] > 0;
    }
    forall a | a in appointments && a.at >= now ensures a in sorted {
      assert multiset(appointments)[a] > 0;
      assert a in multiset(sorted);
    }
  }

  /** The first five of a time-sorted list of appointments at or after `now`
      are at most five rows, at or after `now`, ascending, each with value 0. */
  lemma FirstFiveOrdered(sorted: seq<Appointment>, now: int)
    requires SortedBy(sorted, ByTime)
    requires forall k :: 0 <= k < |sorted| ==> sorted[k].at >= now
    ensures |MapSeq(Take(sorted, 5), ToUpcoming)| <= 5
    ensures forall i :: 0 <= i < |MapSeq(Take(sorted, 5), ToUpcoming)| ==>
      MapSeq(Take(sorted, 5), ToUpcoming)[i].at >= now && MapSeq(Take(sorted, 5), ToUpcoming)[i].value == 0
    ensures forall i, j :: 0 <= i < j < |MapSeq(Take(sorted, 5), ToUpcoming)| ==>
      MapSeq(Take(sorted, 5), ToUpcoming)[i].at <= MapSeq(Take(sorted, 5), ToUpcoming)[j].at
  {
    var next := MapSeq(Take(sorted, 5), ToUpcoming);
    assert forall i :: 0 <= i < |next| ==> next[i] == ToUpcoming(sorted[i]);
    forall i, j | 0 <= i < j < |next| ensures next[i].at <= next[j].at {
      assert ByTime(sorted[i]) <= ByTime(sorted[j]);
    }
  }

  /** The list holds five rows, or every appointment at or after `now` when
      there are fewer, all at or after `now` and in ascending time, each with
      value 0. */
  lemma NextAppointmentsOrdered(appointments: seq<Appointment>, now: int)
    ensures var upcoming := |Filter(appointments, (a: Appointment) => a.at >= now)|;
      |NextAppointments(appointments, now)| == if upcoming < 5 then upcoming else 5
    ensures exists sorted ::
      (multiset(sorted) == multiset(Filter(appointments, (a: Appointment) => a.at >= now)) &&
       SortedBy(sorted, ByTime) && NextAppointments(appointments, now) == MapSeq(Take(sorted, 5), ToUpcoming))
    ensures forall i :: 0 <= i < |NextAppointments(appointments, now)| ==>
      NextAppointments(appointments, now)[i].at >= now && NextAppointments(appointments, now)[i].value == 0
    ensures forall i, j :: 0 <= i < j < |NextAppointments(appointments, now)| ==>
      NextAppointments(appointments, now)[i].at <= NextAppointments(appointments, now)[j].at
  {
    var sorted := UpcomingSorted(appointments, now);
    UpcomingSortedIsFuture(appointments, now);
    assert |sorted| == |multiset(sorted)|;
    FirstFiveOrdered(sorted, now);
  }

  /** Each row copies the id, client, service, time and status of an input appointment. */
  lemma NextAppointmentsCopied(appointments: seq<Appointment>, now: int)
    ensures forall i :: 0 <= i < |NextAppointments(appointments, now)| ==>
      exists a :: a in appointments && NextAppointments(appointments, now)[i] ==
        UpcomingAppointment(a.id, a.clientId, a.service, a.at, 0, a.status)
  {
    var sorted := UpcomingSorted(appointments, now);
    var next := NextAppointments(appointments, now);
    UpcomingSortedIsFuture(appointments, now);
    forall i | 0 <= i < |next|
      ensures exists a :: a in appointments && next[i] == UpcomingAppointment(a.id, a.clientId, a.service, a.at, 0, a.status)
    {
      assert next[i] == ToUpcoming(sorted[i]) && sorted[i] in appointments;
    }
  }

  /** An appointment at or after `now` is missing from the list only when five
      rows are shown, none of them later than it. */
  lemma NextAppointmentsEarliest(appointments: seq<Appointment>, now: int)
    ensures forall a :: a in appointments && a.at >= now ==>
      ToUpcoming(a) in NextAppointments(appointments, now) ||
      (|NextAppointments(appointments, now)| == 5 &&
       forall i :: 0 <= i < 5 ==> NextAppointments(appointments, now)[i].at <= a.at)
  {
    UpcomingSortedIsFuture(appointments, now);
    forall a | a in appointments && a.at >= now
      ensures ToUpcoming(a) in NextAppointments(appointments, now) ||
        (|NextAppointments(appointments, now)| == 5 &&
         forall i :: 0 <= i < 5 ==> NextAppointments(appointments, now)[i].at <= a.at)
    {
      var sorted := UpcomingSorted(appointments, now);
      var k :| 0 <= k < |sorted| && sorted[k] == a;
      ShownOrPreceded(sorted, k);
    }
  }

  /** The element at position `k` of a time-sorted sequence is among the first
      five rows, or five rows no later than it are shown. */
  lemma ShownOrPreceded(sorted: seq<Appointment>, k: nat)
    requires SortedBy(sorted, ByTime) && k < |sorted|
    ensures ToUpcoming(sorted[k]) in MapSeq(Take(sorted, 5), ToUpcoming) ||
      (|MapSeq(Take(sorted, 5), ToUpcoming)| == 5 &&
       forall i :: 0 <= i < 5 ==> MapSeq(Take(sorted, 5), ToUpcoming)[i].at <= sorted[k].at)
  {
    var next := MapSeq(Take(sorted, 5), ToUpcoming);
    if k < 5 {
      assert next[k] == ToUpcoming(sorted[k]);
    } else {
      forall i | 0 <= i < 5 ensures next[i].at <= sorted[k].at {
        assert ByTime(sorted[i]) <= ByTime(sorted[k]);
      }
    }
  }
}
