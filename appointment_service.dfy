/**
 * The data-access layer: filters over the appointment collection, the join
 * of an appointment with its doctor and patient, and the sort by start time.
 * The collections are a `Store` value passed in; the lookups by id are the
 * first match in the corresponding collection.
 */
module AppointmentService {

  import opened Types
  import opened Time
  import opened Seqs

  /** The mock data set: doctors, patients and the flat appointment list. */
  datatype Store = Store(doctors: seq<Doctor>, patients: seq<Patient>, appointments: seq<Appointment>)

  /** `getDoctorById(id)` */
  function FindDoctor(doctors: seq<Doctor>, id: string): (r: Option<Doctor>)
    ensures r.None? <==> forall d :: d in doctors ==> d.id != id
    ensures r.Some? ==> r.value in doctors && r.value.id == id
  {
    Find(doctors, (d: Doctor) => d.id == id)
  }

  /** `getPatientById(id)` */
  function FindPatient(patients: seq<Patient>, id: string): (r: Option<Patient>)
    ensures r.None? <==> forall p :: p in patients ==> p.id != id
    ensures r.Some? ==> r.value in patients && r.value.id == id
  {
    Find(patients, (p: Patient) => p.id == id)
  }

  /** `getAppointmentsByDoctor(doctorId)` */
  function ByDoctor(store: Store, doctorId: string): (r: seq<Appointment>)
    ensures Selects(r, store.appointments, (a: Appointment) => a.doctorId == doctorId)
  {
    var keep := (a: Appointment) => a.doctorId == doctorId;
    FilterSelects(store.appointments, keep);
    Filter(store.appointments, keep)
  }

  /**
   * `getAppointmentsByDoctorAndDate(doctorId, date)`: same doctor and a start
   * on the same local year, month and day as `date`.
   */
  function ByDoctorAndDate(store: Store, doctorId: string, date: int): (r: seq<Appointment>)
    ensures Selects(r, store.appointments,
                    (a: Appointment) => a.doctorId == doctorId && DayOf(a.startTime) == DayOf(date))
  {
    var keep := (a: Appointment) => a.doctorId == doctorId && IsSameDay(a.startTime, date);
    FilterSelects(store.appointments, keep);
    Filter(store.appointments, keep)
  }

  /** Only the calendar day of `date` matters to the day filter, not its time of day. */
  lemma DateFilterIgnoresClockTime(store: Store, doctorId: string, date1: int, date2: int)
    requires DayOf(date1) == DayOf(date2)
    ensures ByDoctorAndDate(store, doctorId, date1) == ByDoctorAndDate(store, doctorId, date2)
  {
    FilterAgrees(store.appointments,
                 (a: Appointment) => a.doctorId == doctorId && IsSameDay(a.startTime, date1),
                 (a: Appointment) => a.doctorId == doctorId && IsSameDay(a.startTime, date2));
  }

  /**
   * `getAppointmentsByDoctorAndDateRange(doctorId, startDate, endDate)`:
   * same doctor and a start inside [startDate, endDate], both ends included;
   * the end time of the appointment plays no part.
   */
  function ByDoctorAndDateRange(store: Store, doctorId: string, startDate: int, endDate: int): (r: seq<Appointment>)
    ensures Selects(r, store.appointments,
                    (a: Appointment) => a.doctorId == doctorId && startDate <= a.startTime <= endDate)
  {
    var keep := (a: Appointment) => a.doctorId == doctorId && startDate <= a.startTime <= endDate;
    FilterSelects(store.appointments, keep);
    Filter(store.appointments, keep)
  }

  /** Both references of `a` resolve in the store. */
  predicate Resolves(store: Store, a: Appointment) {
    FindDoctor(store.doctors, a.doctorId).Some? && FindPatient(store.patients, a.patientId).Some?
  }

  /** `Resolves` as a filter predicate. */
  function Resolvable(store: Store): Appointment -> bool {
    (a: Appointment) => Resolves(store, a)
  }

  /**
   * `getPopulatedAppointment(a)`: null when the doctor or the patient is
   * missing, otherwise every field of `a` plus both records.
   */
  function Populate(store: Store, a: Appointment): (r: Option<PopulatedAppointment>)
    ensures r.None? <==> (forall d :: d in store.doctors ==> d.id != a.doctorId) ||
                         (forall p :: p in store.patients ==> p.id != a.patientId)
    ensures r.Some? ==> r.value.Base() == a
    ensures r.Some? ==> r.value.doctor in store.doctors && r.value.doctor.id == a.doctorId
    ensures r.Some? ==> r.value.patient in store.patients && r.value.patient.id == a.patientId
  {
    var doctor := FindDoctor(store.doctors, a.doctorId);
    var patient := FindPatient(store.patients, a.patientId);
    if doctor.None? || patient.None? then None
    else Some(Extend(a, doctor.value, patient.value))
  }

  /** The appointments a list of populated records was built from. */
  function Bases(ps: seq<PopulatedAppointment>): (r: seq<Appointment>)
    ensures |r| == |ps| && forall i :: 0 <= i < |ps| ==> r[i] == ps[i].Base()
  {
    seq(|ps|, i requires 0 <= i < |ps| => ps[i].Base())
  }

  /**
   * `getPopulatedAppointments(list)`: each appointment of the list that
   * populates, in list order; the others are dropped silently.
   */
  function PopulateAll(store: Store, s: seq<Appointment>): (r: seq<PopulatedAppointment>)
    ensures |r| <= |s|
    ensures forall i :: 0 <= i < |r| ==> Populate(store, r[i].Base()) == Some(r[i])
  {
    if s == [] then []
    else
      var rest := PopulateAll(store, s[1..]);
      var head := Populate(store, s[0]);
      if head.Some? then [head.value] + rest else rest
  }

  /**
   * The populated records are, field for field, the resolvable appointments
   * of the input in input order.
   */
  lemma {:induction false} PopulateAllBases(store: Store, s: seq<Appointment>)
    ensures Bases(PopulateAll(store, s)) == Filter(s, Resolvable(store))
  {
    if s != [] {
      var keep := Resolvable(store);
      var rest := PopulateAll(store, s[1..]);
      var head := Populate(store, s[0]);
      PopulateAllBases(store, s[1..]);
      assert head.Some? == keep(s[0]);
      assert Filter(s, keep) == (if keep(s[0]) then [s[0]] else []) + Filter(s[1..], keep);
      if head.Some? {
        assert PopulateAll(store, s) == [head.value] + rest;
        BasesCons(head.value, rest);
      }
    }
  }

  lemma BasesCons(p: PopulatedAppointment, ps: seq<PopulatedAppointment>)
    ensures Bases([p] + ps) == [p.Base()] + Bases(ps)
  {
    var l, r := Bases([p] + ps), [p.Base()] + Bases(ps);
    assert |l| == |r|;
    forall i | 0 <= i < |l| ensures l[i] == r[i] {
      if i > 0 {
        assert ([p] + ps)[i] == ps[i - 1];
      }
    }
  }

  /** Populating never adds records, and drops none exactly when every reference resolves. */
  lemma PopulateAllLength(store: Store, s: seq<Appointment>)
    ensures |PopulateAll(store, s)| <= |s|
    ensures |PopulateAll(store, s)| == |s| <==> forall a :: a in s ==> Resolves(store, a)
  {
    FilterKeepsAll(s, Resolvable(store));
    PopulateAllBases(store, s);
    assert |PopulateAll(store, s)| == |Bases(PopulateAll(store, s))|;
  }

  /** Non-decreasing by start time. */
  predicate SortedByStart(s: seq<Appointment>) {
    forall i, j :: 0 <= i < j < |s| ==> s[i].startTime <= s[j].startTime
  }

  /** Select the appointments starting at instant `k`. */
  function StartsAt(k: int): Appointment -> bool {
    (a: Appointment) => a.startTime == k
  }

  /** A sorted list with an element in front that starts no later than any of them. */
  lemma ConsSorted(x: Appointment, s: seq<Appointment>)
    requires SortedByStart(s)
    requires forall y :: y in s ==> x.startTime <= y.startTime
    ensures SortedByStart([x] + s)
  {
    forall i, j | 0 <= i < j < |[x] + s|
      ensures ([x] + s)[i].startTime <= ([x] + s)[j].startTime
    {
      if i == 0 {
        assert ([x] + s)[j] == s[j - 1];
      } else {
        assert ([x] + s)[i] == s[i - 1] && ([x] + s)[j] == s[j - 1];
      }
    }
  }

  /**
   * Place `x` in front of the first element that does not start before it,
   * so `x` stays ahead of every element with the same start time.
   */
  function InsertByStart(x: Appointment, s: seq<Appointment>): (r: seq<Appointment>)
    ensures multiset(r) == multiset(s) + multiset{x}
  {
    if s == [] || x.startTime <= s[0].startTime then [x] + s
    else
      assert s == [s[0]] + s[1..];
      [s[0]] + InsertByStart(x, s[1..])
  }

  /** Inserting into a sorted list keeps it sorted. */
  lemma {:induction false} InsertKeepsSorted(x: Appointment, s: seq<Appointment>)
    requires SortedByStart(s)
    ensures SortedByStart(InsertByStart(x, s))
  {
    if s == [] || x.startTime <= s[0].startTime {
      ConsSorted(x, s);
    } else {
      var rest := InsertByStart(x, s[1..]);
      InsertKeepsSorted(x, s[1..]);
      assert forall y :: y in rest ==> s[0].startTime <= y.startTime by {
        forall y | y in rest ensures s[0].startTime <= y.startTime {
          assert y in multiset(rest);
          if y != x {
            var j :| 0 <= j < |s[1..]| && s[1..][j] == y;
            assert s[j + 1] == y;
          }
        }
      }
      ConsSorted(s[0], rest);
    }
  }

  /**
   * `sortAppointmentsByStartTime(list)`: a sorted copy of the list, with
   * appointments that start together kept in list order
   * (`Array.prototype.sort` is stable).
   */
  function SortByStart(s: seq<Appointment>): (r: seq<Appointment>)
    ensures SortedByStart(r)
    ensures multiset(r) == multiset(s)
  {
    if s == [] then []
    else
      assert s == [s[0]] + s[1..];
      InsertKeepsSorted(s[0], SortByStart(s[1..]));
      InsertByStart(s[0], SortByStart(s[1..]))
  }

  lemma {:induction false} InsertKeepsTies(x: Appointment, s: seq<Appointment>, k: int)
    ensures Filter(InsertByStart(x, s), StartsAt(k)) == (if x.startTime == k then [x] else []) + Filter(s, StartsAt(k))
  {
    var keep := StartsAt(k);
    if s == [] || x.startTime <= s[0].startTime {
      assert InsertByStart(x, s) == [x] + s;
      FilterCons(x, s, keep);
    } else {
      var rest := InsertByStart(x, s[1..]);
      assert InsertByStart(x, s) == [s[0]] + rest;
      InsertKeepsTies(x, s[1..], k);
      FilterCons(s[0], rest, keep);
      assert Filter(s, keep) == (if keep(s[0]) then [s[0]] else []) + Filter(s[1..], keep);
      if keep(x) {
        // s[0] starts before x, so it is not among x's ties
        assert Filter([s[0]] + rest, keep) == Filter(rest, keep);
        assert Filter(s, keep) == Filter(s[1..], keep);
      } else {
        assert Filter(rest, keep) == Filter(s[1..], keep);
      }
    }
  }

  /** The sort is stable: the appointments starting at any one instant keep their relative order. */
  lemma {:induction false} SortIsStable(s: seq<Appointment>, k: int)
    ensures Filter(SortByStart(s), StartsAt(k)) == Filter(s, StartsAt(k))
  {
    if s != [] {
      var keep := StartsAt(k);
      assert SortByStart(s) == InsertByStart(s[0], SortByStart(s[1..]));
      SortIsStable(s[1..], k);
      InsertKeepsTies(s[0], SortByStart(s[1..]), k);
      assert Filter(s, keep) == (if keep(s[0]) then [s[0]] else []) + Filter(s[1..], keep);
    }
  }

  /** `x` goes in front of a list whose first element does not start before it. */
  lemma InsertFront(x: Appointment, u: seq<Appointment>)
    requires u == [] || x.startTime <= u[0].startTime
    ensures InsertByStart(x, u) == [x] + u
  {
  }

  /** `x` goes behind a first element that starts before it. */
  lemma InsertBehind(x: Appointment, y: Appointment, u: seq<Appointment>)
    requires y.startTime < x.startTime
    ensures InsertByStart(x, [y] + u) == [y] + InsertByStart(x, u)
  {
    assert ([y] + u)[0] == y && ([y] + u)[1..] == u;
  }

  /** Every element of a selection from a sorted list starts no earlier than the list's head. */
  lemma FilterHeadBound(t: seq<Appointment>, p: Appointment -> bool)
    requires SortedByStart(t)
    ensures Filter(t, p) != [] ==> t[0].startTime <= Filter(t, p)[0].startTime
  {
    var ft := Filter(t, p);
    if ft != [] {
      assert ft[0] in ft;
      var j :| 0 <= j < |t| && t[j] == ft[0];
      assert j == 0 || t[0].startTime <= t[j].startTime;
    }
  }

  /** `FilterInsert` when `x` goes to the front. */
  lemma FilterInsertFront(x: Appointment, t: seq<Appointment>, p: Appointment -> bool)
    requires SortedByStart(t)
    requires t == [] || x.startTime <= t[0].startTime
    ensures Filter(InsertByStart(x, t), p) == if p(x) then InsertByStart(x, Filter(t, p)) else Filter(t, p)
  {
    InsertFront(x, t);
    FilterCons(x, t, p);
    if p(x) {
      FilterHeadBound(t, p);
      InsertFront(x, Filter(t, p));
    }
  }

  /** `FilterInsert` when `x` goes behind the head `y` of the list. */
  lemma FilterInsertBehind(x: Appointment, y: Appointment, t: seq<Appointment>, p: Appointment -> bool)
    requires y.startTime < x.startTime
    requires Filter(InsertByStart(x, t), p) == if p(x) then InsertByStart(x, Filter(t, p)) else Filter(t, p)
    ensures Filter(InsertByStart(x, [y] + t), p) ==
            if p(x) then InsertByStart(x, Filter([y] + t, p)) else Filter([y] + t, p)
  {
    var ins, kept := InsertByStart(x, t), Filter(t, p);
    InsertBehind(x, y, t);
    FilterCons(y, ins, p);
    FilterCons(y, t, p);
    if !p(y) {
      assert Filter([y] + ins, p) == Filter(ins, p);
      assert Filter([y] + t, p) == kept;
    } else if p(x) {
      assert Filter([y] + ins, p) == [y] + InsertByStart(x, kept);
      assert Filter([y] + t, p) == [y] + kept;
      InsertBehind(x, y, kept);
    } else {
      assert Filter([y] + ins, p) == [y] + kept;
    }
  }

  /**
   * Filtering after inserting into a sorted list is inserting into the
   * filtered list: `x` lands behind exactly the kept elements that start
   * before it.
   */
  lemma {:induction false} FilterInsert(x: Appointment, t: seq<Appointment>, p: Appointment -> bool)
    requires SortedByStart(t)
    ensures Filter(InsertByStart(x, t), p) == if p(x) then InsertByStart(x, Filter(t, p)) else Filter(t, p)
  {
    if t == [] || x.startTime <= t[0].startTime {
      FilterInsertFront(x, t, p);
    } else {
      var t' := t[1..];
      assert t == [t[0]] + t';
      assert SortedByStart(t') by {
        forall i, j | 0 <= i < j < |t'| ensures t'[i].startTime <= t'[j].startTime {
          assert t'[i] == t[i + 1] && t'[j] == t[j + 1];
        }
      }
      FilterInsert(x, t', p);
      FilterInsertBehind(x, t[0], t', p);
    }
  }

  /** Sorting a list with a known first element inserts it into the sorted rest. */
  lemma SortCons(x: Appointment, u: seq<Appointment>)
    ensures SortByStart([x] + u) == InsertByStart(x, SortByStart(u))
  {
    assert ([x] + u)[0] == x && ([x] + u)[1..] == u;
  }

  /**
   * Filtering the sorted list gives the sorted filtered list, so the join
   * that drops unresolvable appointments may equally run before the sort.
   */
  lemma {:induction false} FilterSortCommutes(s: seq<Appointment>, p: Appointment -> bool)
    ensures Filter(SortByStart(s), p) == SortByStart(Filter(s, p))
  {
    if s != [] {
      var x, s' := s[0], s[1..];
      var sorted', kept' := SortByStart(s'), Filter(s', p);
      assert s == [x] + s';
      SortCons(x, s');
      FilterSortCommutes(s', p);
      FilterInsert(x, sorted', p);
      FilterCons(x, s', p);
      if p(x) {
        SortCons(x, kept');
      } else {
        assert Filter(s, p) == kept';
      }
    }
  }

  /** Any selection from a sorted list is sorted. */
  lemma {:induction false} FilterKeepsSorted(s: seq<Appointment>, p: Appointment -> bool)
    requires SortedByStart(s)
    ensures SortedByStart(Filter(s, p))
  {
    if s != [] {
      FilterKeepsSorted(s[1..], p);
      var rest := Filter(s[1..], p);
      assert Filter(s, p) == (if p(s[0]) then [s[0]] else []) + rest;
      assert forall y :: y in rest ==> s[0].startTime <= y.startTime by {
        forall y | y in rest ensures s[0].startTime <= y.startTime {
          var j :| 0 <= j < |s[1..]| && s[1..][j] == y;
          assert s[j + 1] == y;
        }
      }
      if p(s[0]) {
        ConsSorted(s[0], rest);
      }
    }
  }
}
