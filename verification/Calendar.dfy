/**
 The scheduling tables and the conflict check. `HasBlockedOverlap` looks only at appointments in a window
 widened by the provider's largest buffers; it is compared with a scan of every appointment.
 Instants are whole ticks, and buffers and durations are whole minutes.
 */
module Calendar {
  import opened Options
  import opened Statuses

  const MINUTE := 60000000
  const DAY := 1440 * MINUTE

  type Positive = n: int | n > 0 witness 1
  type TimeOfDay = t: int | 0 <= t < DAY

  datatype Interval = Interval(start: int, end: int)

  datatype Provider = Provider(organization: int, isActive: bool, duration: Positive)
  datatype Location = Location(organization: int, isActive: bool)
  datatype Service = Service(organization: int, duration: Positive, before: nat, after: nat, isActive: bool)
  datatype Assignment = Assignment(provider: int, service: int, duration: Option<Positive>)
  datatype Window = Window(start: TimeOfDay, end: TimeOfDay)
  datatype Availability = Availability(provider: int, weekday: int, window: Window, isActive: bool)

  /** Without hours the row closes the whole day; the table's check constraint allows nothing in between. */
  datatype DateOverride = DateOverride(provider: int, date: int, hours: Option<Window>, isActive: bool)

  datatype TimeOff = TimeOff(provider: int, span: Interval)

  datatype Appointment = Appointment(provider: int, location: int, service: Option<int>, customer: int,
                                     visible: Interval, status: AppointmentStatus)

  /** Everything a booking reads and does not write. */
  datatype Catalogue = Catalogue(
    activeOrganizations: set<int>,
    customers: set<int>,
    providers: map<int, Provider>,
    locations: map<int, Location>,
    services: map<int, Service>,
    assignments: seq<Assignment>,
    providerLocations: set<(int, int)>,
    serviceLocations: set<(int, int)>,
    availabilities: seq<Availability>,
    overrides: seq<DateOverride>,
    timeOffs: seq<TimeOff>)

  predicate Overlaps(a: Interval, b: Interval) {
    a.start < b.end && a.end > b.start
  }

  function BlockedInterval(visible: Interval, before: nat, after: nat): Interval {
    Interval(visible.start - before * MINUTE, visible.end + after * MINUTE)
  }

  // ----- Buffers ------------------------------------------------------------------------------

  predicate IsAssigned(assignments: seq<Assignment>, provider: int, service: int) {
    exists i :: 0 <= i < |assignments| && assignments[i].provider == provider && assignments[i].service == service
  }

  /** The services assigned to the provider now, active or not. */
  function AssignedServices(assignments: seq<Assignment>, services: map<int, Service>, provider: int): (r: seq<Service>)
    ensures forall id :: id in services && IsAssigned(assignments, provider, id) ==> services[id] in r
  {
    if assignments == [] then []
    else
      var before, last :=
        AssignedServices(assignments[..|assignments| - 1], services, provider), assignments[|assignments| - 1];
      if last.provider == provider && last.service in services then before + [services[last.service]] else before
  }

  function MaxBefore(services: seq<Service>): (m: nat)
    ensures forall i :: 0 <= i < |services| ==> services[i].before <= m
  {
    if services == [] then 0
    else
      var m, b := MaxBefore(services[..|services| - 1]), services[|services| - 1].before;
      if m < b then b else m
  }

  function MaxAfter(services: seq<Service>): (m: nat)
    ensures forall i :: 0 <= i < |services| ==> services[i].after <= m
  {
    if services == [] then 0
    else
      var m, a := MaxAfter(services[..|services| - 1]), services[|services| - 1].after;
      if m < a then a else m
  }

  /** Each maximum is the buffer of some listed service, or zero. */
  lemma {:induction false} MaxAttained(services: seq<Service>)
    ensures MaxBefore(services) == 0 || exists s :: s in services && s.before == MaxBefore(services)
    ensures MaxAfter(services) == 0 || exists s :: s in services && s.after == MaxAfter(services)
  {
    if services != [] {
      MaxAttained(services[..|services| - 1]);
      assert services[|services| - 1] in services;
    }
  }

  function MaxProviderBuffers(cat: Catalogue, provider: int): (nat, nat) {
    var services := AssignedServices(cat.assignments, cat.services, provider);
    (MaxBefore(services), MaxAfter(services))
  }

  /** With one assignment the largest buffers are its service's. */
  lemma OneAssigned(cat: Catalogue, a: Assignment)
    requires cat.assignments == [a] && a.service in cat.services
    ensures var s := cat.services[a.service]; MaxProviderBuffers(cat, a.provider) == (s.before, s.after)
  {
    var services := cat.services;
    assert [a][..0] == [] && AssignedServices([a][..0], services, a.provider) == [];
    assert AssignedServices([a], services, a.provider) == [services[a.service]];
    OneService(services[a.service]);
  }

  lemma OneService(s: Service)
    ensures MaxBefore([s]) == s.before && MaxAfter([s]) == s.after
  {
    assert [s][..0] == [] && MaxBefore([s][..0]) == 0 && MaxAfter([s][..0]) == 0;
  }

  /** An appointment blocks with its own service's current buffers, wherever that service is assigned. */
  function OwnBuffers(a: Appointment, services: map<int, Service>): (nat, nat) {
    if a.service.Some? && a.service.value in services
    then (services[a.service.value].before, services[a.service.value].after)
    else (0, 0)
  }

  function OwnBlock(a: Appointment, services: map<int, Service>): (b: Interval)
    ensures b.start <= a.visible.start && a.visible.end <= b.end
  {
    var buffers := OwnBuffers(a, services);
    BlockedInterval(a.visible, buffers.0, buffers.1)
  }

  // ----- The two conflict checks ----------------------------------------------------------------

  predicate BlockingFor(a: Appointment, provider: int) {
    a.provider == provider && Blocking(a.status)
  }

  /** The query: blocking rows of the provider that end after `query.start` and start before `query.end`. */
  predicate InQuery(a: Appointment, provider: int, query: Interval) {
    BlockingFor(a, provider) && a.visible.end > query.start && a.visible.start < query.end
  }

  function Widened(span: Interval, buffers: (nat, nat)): Interval {
    Interval(span.start - buffers.1 * MINUTE, span.end + buffers.0 * MINUTE)
  }

  function ListBlocking(appointments: seq<Appointment>, provider: int, query: Interval, excluded: Option<int>)
      : (r: seq<Appointment>)
    ensures forall i :: 0 <= i < |appointments| && InQuery(appointments[i], provider, query) && excluded != Some(i)
                        ==> appointments[i] in r
    ensures forall a :: a in r ==>
              exists i :: 0 <= i < |appointments| && appointments[i] == a && InQuery(a, provider, query)
                  && excluded != Some(i)
  {
    if appointments == [] then []
    else
      var n := |appointments| - 1;
      var before := ListBlocking(appointments[..n], provider, query, excluded);
      if InQuery(appointments[n], provider, query) && excluded != Some(n) then before + [appointments[n]] else before
  }

  function RelevantBlocking(cat: Catalogue, appointments: seq<Appointment>, provider: int, span: Interval,
      excluded: Option<int>): seq<Appointment> {
    ListBlocking(appointments, provider, Widened(span, MaxProviderBuffers(cat, provider)), excluded)
  }

  /** The check as coded: some row of the prefiltered list meets the interval with its own block. */
  predicate PrefilteredOverlap(cat: Catalogue, appointments: seq<Appointment>, provider: int, block: Interval,
      excluded: Option<int>) {
    exists i :: 0 <= i < |appointments| && excluded != Some(i)
                && InQuery(appointments[i], provider, Widened(block, MaxProviderBuffers(cat, provider)))
                && Overlaps(block, OwnBlock(appointments[i], cat.services))
  }

  /** The check as meant: a scan of every blocking appointment of the provider. */
  predicate ScanOverlap(cat: Catalogue, appointments: seq<Appointment>, provider: int, block: Interval,
      excluded: Option<int>) {
    exists i :: 0 <= i < |appointments| && excluded != Some(i) && BlockingFor(appointments[i], provider)
                && Overlaps(block, OwnBlock(appointments[i], cat.services))
  }

  method HasBlockedOverlap(cat: Catalogue, appointments: seq<Appointment>, provider: int, block: Interval,
      excluded: Option<int>)
    returns (found: bool)
    ensures found <==> PrefilteredOverlap(cat, appointments, provider, block, excluded)
  {
    var rows := RelevantBlocking(cat, appointments, provider, block, excluded);
    for n := 0 to |rows|
      invariant forall m :: 0 <= m < n ==> !Overlaps(block, OwnBlock(rows[m], cat.services))
    {
      if Overlaps(block, OwnBlock(rows[n], cat.services)) {
        assert rows[n] in rows;
        return true;
      }
    }
    return false;
  }

  // ----- Refinement ---------------------------------------------------------------------------

  /** No blocking appointment of the provider carries a buffer larger than the largest assigned one. */
  predicate BuffersCovered(cat: Catalogue, appointments: seq<Appointment>, provider: int) {
    forall i :: 0 <= i < |appointments| && BlockingFor(appointments[i], provider) ==>
      && OwnBuffers(appointments[i], cat.services).0 <= MaxProviderBuffers(cat, provider).0
      && OwnBuffers(appointments[i], cat.services).1 <= MaxProviderBuffers(cat, provider).1
  }

  /** Every booked service is still assigned to the provider. */
  predicate BookedStillAssigned(cat: Catalogue, appointments: seq<Appointment>, provider: int) {
    forall i :: 0 <= i < |appointments| && BlockingFor(appointments[i], provider) && appointments[i].service.Some?
                ==> IsAssigned(cat.assignments, provider, appointments[i].service.value)
  }

  lemma AssignedIsCovered(cat: Catalogue, appointments: seq<Appointment>, provider: int)
    requires BookedStillAssigned(cat, appointments, provider)
    ensures BuffersCovered(cat, appointments, provider)
  {
    var services := AssignedServices(cat.assignments, cat.services, provider);
    forall i | 0 <= i < |appointments| && BlockingFor(appointments[i], provider)
      ensures OwnBuffers(appointments[i], cat.services).0 <= MaxProviderBuffers(cat, provider).0
      ensures OwnBuffers(appointments[i], cat.services).1 <= MaxProviderBuffers(cat, provider).1
    {
      var a := appointments[i];
      if a.service.Some? && a.service.value in cat.services {
        assert cat.services[a.service.value] in services;
      }
    }
  }

  /** When buffers are covered the prefilter loses nothing: the check is the full scan, for every interval. */
  lemma PrefilterRefinesScan(cat: Catalogue, appointments: seq<Appointment>, provider: int, block: Interval,
      excluded: Option<int>)
    requires BuffersCovered(cat, appointments, provider)
    ensures PrefilteredOverlap(cat, appointments, provider, block, excluded)
            <==> ScanOverlap(cat, appointments, provider, block, excluded)
  {
    var buffers := MaxProviderBuffers(cat, provider);
    forall i | 0 <= i < |appointments| && BlockingFor(appointments[i], provider)
        && Overlaps(block, OwnBlock(appointments[i], cat.services))
      ensures InQuery(appointments[i], provider, Widened(block, buffers))
    {
    }
  }

  /** Whatever the catalogue says, an overlap of visible times is never missed. */
  lemma VisibleOverlapFound(cat: Catalogue, appointments: seq<Appointment>, provider: int, visible: Interval,
      block: Interval, excluded: Option<int>, i: int)
    requires block.start <= visible.start && visible.end <= block.end
    requires 0 <= i < |appointments| && BlockingFor(appointments[i], provider) && excluded != Some(i)
    requires Overlaps(visible, appointments[i].visible)
    ensures PrefilteredOverlap(cat, appointments, provider, block, excluded)
  {
    assert InQuery(appointments[i], provider, Widened(block, MaxProviderBuffers(cat, provider)));
  }

  /**
   The condition cannot be weakened: a single appointment is found by the prefilter for every interval its
   block meets if and only if its own buffers are within the largest assigned ones.
   */
  lemma CoverageIsNeeded(cat: Catalogue, a: Appointment, provider: int)
    requires BlockingFor(a, provider)
    ensures (forall block ::
                 PrefilteredOverlap(cat, [a], provider, block, None) == ScanOverlap(cat, [a], provider, block, None))
            <==> BuffersCovered(cat, [a], provider)
  {
    var buffers, own := MaxProviderBuffers(cat, provider), OwnBuffers(a, cat.services);
    if BuffersCovered(cat, [a], provider) {
      forall block
          ensures PrefilteredOverlap(cat, [a], provider, block, None) == ScanOverlap(cat, [a], provider, block, None) {
        PrefilterRefinesScan(cat, [a], provider, block, None);
      }
    } else {
      var far := if a.visible.start <= a.visible.end then a.visible.end - a.visible.start
          else a.visible.start - a.visible.end;
      var block :=
        if own.1 > buffers.1
            then Interval(a.visible.end + buffers.1 * MINUTE, a.visible.end + buffers.1 * MINUTE + far + 1)
        else Interval(a.visible.start - buffers.0 * MINUTE - far - 1, a.visible.start - buffers.0 * MINUTE);
      assert [a][0] == a;
      assert BlockingFor([a][0], provider) && Overlaps(block, OwnBlock([a][0], cat.services));
      assert ScanOverlap(cat, [a], provider, block, None);
      assert !PrefilteredOverlap(cat, [a], provider, block, None);
    }
  }

  /** A booked service with an hour of buffer, unassigned: the check misses a conflict the scan sees. */
  lemma UnassignedServiceIsMissed()
    ensures exists cat: Catalogue, appointments: seq<Appointment>, provider: int, block: Interval ::
              && ScanOverlap(cat, appointments, provider, block, None)
              && !PrefilteredOverlap(cat, appointments, provider, block, None)
  {
    var service := Service(1, 30, 0, 60, true);
    var cat := Catalogue({1}, {}, map[], map[], map[7 := service], [], {}, {}, [], [], []);
    var booked := Appointment(3, 1, Some(7), 1, Interval(0, 30 * MINUTE), Confirmed);
    var block := Interval(30 * MINUTE, 60 * MINUTE);
    assert [booked][0] == booked && BlockingFor([booked][0], 3);
    assert ScanOverlap(cat, [booked], 3, block, None);
    assert !PrefilteredOverlap(cat, [booked], 3, block, None);
  }
}
