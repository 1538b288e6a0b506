/**
 * useAppointments: the doctor lookup and the load effect that fills the
 * `appointments`, `loading` and `error` state cells, guarded by the effect's
 * `mounted` flag.
 */
module UseAppointments {

  import opened Types
  import opened Time
  import opened Seqs
  import opened AppointmentService

  /** The hook's parameters; a missing `Date` or id is `None`. */
  datatype Query = Query(doctorId: Option<string>, date: int, startDate: Option<int>, endDate: Option<int>)

  /** `doctorId` is truthy: present and not the empty string. */
  predicate HasDoctor(doctorId: Option<string>) {
    doctorId.Some? && doctorId.value != ""
  }

  /** The `doctor` memo: undefined without a doctor id, else the lookup result. */
  function DoctorFor(store: Store, doctorId: Option<string>): (r: Option<Doctor>)
    ensures r.Some? ==> HasDoctor(doctorId) && r.value in store.doctors && r.value.id == doctorId.value
    ensures r.None? <==> !HasDoctor(doctorId) || forall d :: d in store.doctors ==> d.id != doctorId.value
  {
    if !HasDoctor(doctorId) then None else FindDoctor(store.doctors, doctorId.value)
  }

  /** Both ends of a range are given, so the range filter is used. */
  predicate UsesRange(q: Query) {
    q.startDate.Some? && q.endDate.Some?
  }

  /** The start times the chosen filter admits. */
  predicate InWindow(q: Query, t: int) {
    if UsesRange(q) then q.startDate.value <= t <= q.endDate.value else DayOf(t) == DayOf(q.date)
  }

  /** The appointments a load asks for: the query's doctor and a start in its window. */
  function Wanted(q: Query): Appointment -> bool {
    (a: Appointment) => Some(a.doctorId) == q.doctorId && InWindow(q, a.startTime)
  }

  /** The appointments a load commits: those asked for whose doctor and patient resolve. */
  function Loaded(store: Store, q: Query): Appointment -> bool {
    (a: Appointment) => Some(a.doctorId) == q.doctorId && InWindow(q, a.startTime) && Resolves(store, a)
  }

  /**
   * The raw list: the range filter when both ends are given, else the
   * single-date filter; either way exactly the wanted appointments, each as
   * often as the store holds it, in store order.
   */
  function Fetch(store: Store, q: Query): (r: seq<Appointment>)
    requires HasDoctor(q.doctorId)
    ensures Selects(r, store.appointments, Wanted(q))
  {
    var id := q.doctorId.value;
    if UsesRange(q) then
      var r := ByDoctorAndDateRange(store, id, q.startDate.value, q.endDate.value);
      SelectsAgrees(r, store.appointments,
                    (a: Appointment) => a.doctorId == id && q.startDate.value <= a.startTime <= q.endDate.value,
                    Wanted(q));
      r
    else
      var r := ByDoctorAndDate(store, id, q.date);
      SelectsAgrees(r, store.appointments,
                    (a: Appointment) => a.doctorId == id && DayOf(a.startTime) == DayOf(q.date),
                    Wanted(q));
      r
  }

  /**
   * The list a successful load commits, sorted then populated, is the stable
   * sort by start of the store's loaded appointments; the proof behind
   * `Lookup`.
   */
  lemma LookupSpec(store: Store, q: Query)
    requires HasDoctor(q.doctorId)
    ensures Bases(PopulateAll(store, SortByStart(Fetch(store, q)))) ==
            SortByStart(Filter(store.appointments, Loaded(store, q)))
  {
    var fetched := Fetch(store, q);
    SelectsIsFilter(fetched, store.appointments, Wanted(q));
    PopulateAllBases(store, SortByStart(fetched));
    FilterSortCommutes(fetched, Resolvable(store));
    FilterTwice(store.appointments, Wanted(q), Resolvable(store), Loaded(store, q));
  }

  /**
   * What a successful load commits: the raw list sorted by start, then
   * populated. Its appointments are exactly the store's loaded ones, each as
   * often as the store holds it, sorted by start, with appointments that
   * start together in store order.
   */
  function Lookup(store: Store, q: Query): (r: seq<PopulatedAppointment>)
    requires HasDoctor(q.doctorId)
    ensures forall i :: 0 <= i < |r| ==> Populate(store, r[i].Base()) == Some(r[i])
    ensures Bases(r) == SortByStart(Filter(store.appointments, Loaded(store, q)))
    ensures SortedByStart(Bases(r))
    ensures multiset(Bases(r)) == multiset(Filter(store.appointments, Loaded(store, q)))
    ensures forall k :: Filter(Bases(r), StartsAt(k)) == Filter(Filter(store.appointments, Loaded(store, q)), StartsAt(k))
    ensures forall a :: a in Bases(r) <==>
              a in store.appointments && a.doctorId == q.doctorId.value && InWindow(q, a.startTime) && Resolves(store, a)
  {
    LookupSpec(store, q);
    var loaded := Filter(store.appointments, Loaded(store, q));
    assert forall k :: Filter(SortByStart(loaded), StartsAt(k)) == Filter(loaded, StartsAt(k)) by {
      forall k ensures Filter(SortByStart(loaded), StartsAt(k)) == Filter(loaded, StartsAt(k)) {
        SortIsStable(loaded, k);
      }
    }
    assert forall a :: a in SortByStart(loaded) <==> a in loaded by {
      assert forall a :: a in SortByStart(loaded) <==> a in multiset(SortByStart(loaded));
    }
    PopulateAll(store, SortByStart(Fetch(store, q)))
  }

  /** The state cells of one hook instance and the `mounted` flag of its current effect run. */
  class AppointmentsState {
    var appointments: seq<PopulatedAppointment>
    var loading: bool
    var error: Option<string>
    var mounted: bool

    /** The `useState` initial values, before any effect has run. */
    constructor ()
      ensures appointments == [] && !loading && error == None && !mounted
    {
      appointments := [];
      loading := false;
      error := None;
      mounted := false;
    }

    /** An effect run begins: `let mounted = true`. */
    method Mount()
      modifies this
      ensures mounted
      ensures appointments == old(appointments) && loading == old(loading) && error == old(error)
    {
      mounted := true;
    }

    /** The effect's cleanup: `mounted = false`. */
    method Cleanup()
      modifies this
      ensures !mounted
      ensures appointments == old(appointments) && loading == old(loading) && error == old(error)
    {
      mounted := false;
    }

    /**
     * `load()`. `fault` stands for an exception thrown by the data source
     * during the lookup, which the `catch` turns into the error state.
     * `loading := true` and `error := null` happen first and are not guarded;
     * every later update is committed only while `mounted` holds.
     */
    method Load(store: Store, q: Query, fault: Option<string>)
      modifies this
      ensures mounted == old(mounted)
      ensures !mounted ==> loading && error == None && appointments == old(appointments)
      ensures mounted ==> !loading
      ensures mounted && !HasDoctor(q.doctorId) ==> appointments == [] && error == None
      ensures mounted && HasDoctor(q.doctorId) && fault.Some? ==>
                error == fault && appointments == old(appointments)
      ensures mounted && HasDoctor(q.doctorId) && fault.None? ==>
                error == None && appointments == Lookup(store, q)
    {
      loading := true;
      error := None;
      if !HasDoctor(q.doctorId) {
        if mounted {
          appointments := [];
          loading := false;
        }
        return;
      }
      if fault.Some? {
        if mounted {
          error := fault;
          loading := false;
        }
        return;
      }
      var raw: seq<Appointment>;
      if UsesRange(q) {
        raw := ByDoctorAndDateRange(store, q.doctorId.value, q.startDate.value, q.endDate.value);
      } else {
        raw := ByDoctorAndDate(store, q.doctorId.value, q.date);
      }
      raw := SortByStart(raw);
      var populated := PopulateAll(store, raw);
      if mounted {
        appointments := populated;
        loading := false;
      }
    }
  }
}
