/**
 * Domain records of the appointment scheduler: enumerations, the entity
 * shapes and the per-type configuration table. Timestamps are instants of
 * module Time (minutes, local time) instead of ISO strings.
 */
module Types {

  datatype Option<+T> = None | Some(value: T)

  datatype AppointmentType = Checkup | Consultation | FollowUp | Procedure

  datatype Specialty = Cardiology | Pediatrics | GeneralPractice | Orthopedics | Dermatology

  datatype DayOfWeek = Monday | Tuesday | Wednesday | Thursday | Friday | Saturday | Sunday

  /** Opening and closing times as the source's "HH:mm" strings. */
  datatype WorkingHours = WorkingHours(start: string, end: string)

  datatype Doctor = Doctor(
    id: string,
    name: string,
    specialty: Specialty,
    email: string,
    phone: string,
    workingHours: map<DayOfWeek, WorkingHours>)

  datatype Patient = Patient(id: string, name: string, email: string, phone: string, dateOfBirth: string)

  datatype AppointmentStatus = Scheduled | Completed | Cancelled | NoShow

  /** `kind` is the source's `type` field (a reserved word in Dafny). */
  datatype Appointment = Appointment(
    id: string,
    patientId: string,
    doctorId: string,
    kind: AppointmentType,
    startTime: int,
    endTime: int,
    status: AppointmentStatus,
    notes: Option<string>)

  /** An appointment with every one of its fields, plus the resolved patient and doctor. */
  datatype PopulatedAppointment = PopulatedAppointment(
    id: string,
    patientId: string,
    doctorId: string,
    kind: AppointmentType,
    startTime: int,
    endTime: int,
    status: AppointmentStatus,
    notes: Option<string>,
    patient: Patient,
    doctor: Doctor)
  {
    /** The appointment this record was populated from. */
    function Base(): Appointment {
      Appointment(id, patientId, doctorId, kind, startTime, endTime, status, notes)
    }
  }

  /** `{ ...appointment, doctor, patient }` */
  function Extend(a: Appointment, doctor: Doctor, patient: Patient): (p: PopulatedAppointment)
    ensures p.Base() == a && p.doctor == doctor && p.patient == patient
  {
    PopulatedAppointment(a.id, a.patientId, a.doctorId, a.kind, a.startTime, a.endTime,
                         a.status, a.notes, patient, doctor)
  }

  datatype CalendarView = DayCalendar | WeekCalendar

  /**
   * A 30-minute rendering interval. The source's `label` is the start
   * formatted as "h:mm a"; here `caption` is the clock time that label shows
   * (`label` is a reserved word in Dafny).
   */
  datatype ClockLabel = ClockLabel(hour: int, minute: int)
  datatype TimeSlot = TimeSlot(start: int, end: int, caption: ClockLabel)

  datatype AppointmentTypeInfo = AppointmentTypeInfo(
    kind: AppointmentType,
    caption: string,
    color: string,
    defaultDuration: int)

  /** Length of a rendering slot in minutes. */
  const SlotMinutes: int := 30

  /** `APPOINTMENT_TYPE_CONFIG[t]` */
  function TypeConfig(t: AppointmentType): (info: AppointmentTypeInfo)
    ensures info.kind == t
    ensures info.defaultDuration > 0 && info.defaultDuration % SlotMinutes == 0
    ensures info.defaultDuration == (if t == Consultation then 60 else if t == Procedure then 90 else 30)
  {
    match t
    case Checkup => AppointmentTypeInfo(Checkup, "General Checkup", "#3b82f6", 30)
    case Consultation => AppointmentTypeInfo(Consultation, "Consultation", "#10b981", 60)
    case FollowUp => AppointmentTypeInfo(FollowUp, "Follow-up", "#f59e0b", 30)
    case Procedure => AppointmentTypeInfo(Procedure, "Procedure", "#8b5cf6", 90)
  }

  /** Each appointment type has its own colour, so cards of different types are told apart. */
  lemma ConfigColorsDistinct(s: AppointmentType, t: AppointmentType)
    ensures s != t ==> TypeConfig(s).color != TypeConfig(t).color
  {
    match s
    case Checkup =>
      assert TypeConfig(s).color[1] == '3';
    case Consultation =>
      assert TypeConfig(s).color[1] == '1';
    case FollowUp =>
      assert TypeConfig(s).color[1] == 'f';
    case Procedure =>
      assert TypeConfig(s).color[1] == '8';
  }
}
