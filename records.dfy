/** A model of the in-memory patient record registry: patients keyed by an
    identifier, an appointment schedule, a FIFO consultation queue and an
    append-only prescription stack. Identifiers, names, ages, doctor ids and
    medications are opaque text tokens. */
module PatientRecords {

  datatype Option<T> = None | Some(value: T)

  /** Reference data only: the registry stores doctor identifiers, never Doctor records. */
  datatype Doctor = Doctor(doctorId: string, name: string, specialization: string)

  /** One issued prescription: (patient identifier, medication). */
  type Prescription = (string, string)

  /** The two attributes of a patient that an update may replace. */
  datatype ClinicalInfo = ClinicalInfo(medicalHistory: seq<string>, currentCondition: Option<string>)

  /** One keyword argument of an update: the field it names and its new value. */
  datatype FieldUpdate =
    | MedicalHistory(history: seq<string>)
    | CurrentCondition(condition: Option<string>)

  /** What a patient search reports. */
  datatype PatientSummary = PatientSummary(
    name: string,
    age: string,
    doctor: Option<string>,
    appointmentDetails: string,
    medications: seq<string>)

  // ---------------------------------------------------------------------------
  // Updates by keyword

  /** Setting one attribute replaces it wholesale. */
  function ApplyUpdate(c: ClinicalInfo, u: FieldUpdate): ClinicalInfo
  {
    match u
    case MedicalHistory(h) => c.(medicalHistory := h)
    case CurrentCondition(k) => c.(currentCondition := k)
  }

  /** The attributes after setting each update in turn. */
  function ApplyUpdates(c: ClinicalInfo, us: seq<FieldUpdate>): ClinicalInfo
  {
    if us == [] then c else ApplyUpdate(ApplyUpdates(c, us[..|us| - 1]), us[|us| - 1])
  }

  /** The medical history after a list of updates is the one named by the
      last update that names it: earlier values are replaced, never merged. */
  lemma {:induction false} HistoryIsLastWritten(c: ClinicalInfo, us: seq<FieldUpdate>, k: nat)
    requires k < |us| && us[k].MedicalHistory?
    requires forall j | k < j < |us| :: !us[j].MedicalHistory?
    ensures ApplyUpdates(c, us).medicalHistory == us[k].history
  {
    var n := |us| - 1;
    if k < n {
      assert us[..n][k] == us[k];
      assert forall j | k < j < n :: us[..n][j] == us[j];
      HistoryIsLastWritten(c, us[..n], k);
    }
  }

  /** Updates that do not name the medical history leave it as it was. */
  lemma {:induction false} HistoryUntouched(c: ClinicalInfo, us: seq<FieldUpdate>)
    requires forall k | 0 <= k < |us| :: !us[k].MedicalHistory?
    ensures ApplyUpdates(c, us).medicalHistory == c.medicalHistory
  {
    if us != [] {
      var n := |us| - 1;
      assert forall k | 0 <= k < n :: us[..n][k] == us[k];
      HistoryUntouched(c, us[..n]);
    }
  }

  /** The current condition after a list of updates is the one named by the
      last update that names it. */
  lemma {:induction false} ConditionIsLastWritten(c: ClinicalInfo, us: seq<FieldUpdate>, k: nat)
    requires k < |us| && us[k].CurrentCondition?
    requires forall j | k < j < |us| :: !us[j].CurrentCondition?
    ensures ApplyUpdates(c, us).currentCondition == us[k].condition
  {
    var n := |us| - 1;
    if k < n {
      assert us[..n][k] == us[k];
      assert forall j | k < j < n :: us[..n][j] == us[j];
      ConditionIsLastWritten(c, us[..n], k);
    }
  }

  /** Updates that do not name the current condition leave it as it was. */
  lemma {:induction false} ConditionUntouched(c: ClinicalInfo, us: seq<FieldUpdate>)
    requires forall k | 0 <= k < |us| :: !us[k].CurrentCondition?
    ensures ApplyUpdates(c, us).currentCondition == c.currentCondition
  {
    if us != [] {
      var n := |us| - 1;
      assert forall k | 0 <= k < n :: us[..n][k] == us[k];
      ConditionUntouched(c, us[..n]);
    }
  }

  // ---------------------------------------------------------------------------
  // The consultation queue

  /** The position of the first occurrence of x in q. */
  function FirstIndex(q: seq<string>, x: string): (i: nat)
    requires x in q
    ensures i < |q| && q[i] == x && x !in q[..i]
  {
    if q[0] == x then 0 else
      var i := 1 + FirstIndex(q[1..], x);
      assert q[..i] == [q[0]] + q[1..][..i - 1];
      i
  }

  /** Removing a value from a deque: only its first occurrence goes. The deque
      raises when the value is absent, hence the precondition. */
  function RemoveFirst(q: seq<string>, x: string): (r: seq<string>)
    requires x in q
    ensures |r| == |q| - 1
  {
    if q[0] == x then q[1..] else [q[0]] + RemoveFirst(q[1..], x)
  }

  /** Removal takes away exactly one copy of the value and keeps every other entry. */
  lemma {:induction false} RemoveFirstMultiset(q: seq<string>, x: string)
    requires x in q
    ensures multiset(RemoveFirst(q, x)) == multiset(q) - multiset{x}
  {
    assert q == [q[0]] + q[1..];
    if q[0] != x {
      RemoveFirstMultiset(q[1..], x);
    }
  }

  /** Removal splices out exactly the first occurrence: what precedes it and
      everything after it, later duplicates included, stay in order. */
  lemma {:induction false} RemoveFirstSplices(a: seq<string>, x: string, b: seq<string>)
    requires x !in a
    ensures RemoveFirst(a + [x] + b, x) == a + b
  {
    if a != [] {
      assert (a + [x] + b)[1..] == a[1..] + [x] + b;
      RemoveFirstSplices(a[1..], x, b);
      assert [a[0]] + (a[1..] + b) == a + b;
    }
  }

  /** Entries appended after an occurrence of x are untouched by its removal. */
  lemma {:induction false} RemoveFirstAppend(q: seq<string>, x: string, b: seq<string>)
    requires x in q
    ensures RemoveFirst(q + b, x) == RemoveFirst(q, x) + b
  {
    assert (q + b)[0] == q[0];
    if q[0] != x {
      assert (q + b)[1..] == q[1..] + b;
      RemoveFirstAppend(q[1..], x, b);
    } else {
      assert (q + b)[1..] == q[1..] + b;
    }
  }

  /** Every queue that holds x has that shape around its first occurrence. */
  lemma {:induction false} RemoveFirstAtFirstIndex(q: seq<string>, x: string)
    requires x in q
    ensures RemoveFirst(q, x) == q[..FirstIndex(q, x)] + q[FirstIndex(q, x) + 1..]
  {
    var i := FirstIndex(q, x);
    assert q == q[..i] + [x] + q[i + 1..];
    RemoveFirstSplices(q[..i], x, q[i + 1..]);
  }

  // ---------------------------------------------------------------------------
  // The prescription stack

  /** The medications issued to one patient: the stack filtered by patient,
      in issuance order. */
  function MedicationsOf(stack: seq<Prescription>, patientId: string): (r: seq<string>)
    ensures |r| <= |stack|
  {
    if stack == [] then []
    else (if stack[0].0 == patientId then [stack[0].1] else []) + MedicationsOf(stack[1..], patientId)
  }

  /** Filtering distributes over concatenation, so issuance order is kept. */
  lemma {:induction false} MedicationsOfConcat(s: seq<Prescription>, t: seq<Prescription>, patientId: string)
    ensures MedicationsOf(s + t, patientId) == MedicationsOf(s, patientId) + MedicationsOf(t, patientId)
  {
    if s != [] {
      assert (s + t)[1..] == s[1..] + t;
      MedicationsOfConcat(s[1..], t, patientId);
    } else {
      assert s + t == t;
    }
  }

  /** Each medication appears as often as it was issued to this patient: repeats
      are kept and entries for other patients contribute nothing. */
  lemma {:induction false} MedicationsOfCount(stack: seq<Prescription>, patientId: string, m: string)
    ensures multiset(MedicationsOf(stack, patientId))[m] == multiset(stack)[(patientId, m)]
  {
    if stack != [] {
      var rest := stack[1..];
      var head := if stack[0].0 == patientId then [stack[0].1] else [];
      MedicationsOfCount(rest, patientId, m);
      assert stack == [stack[0]] + rest;
      assert multiset(stack)[(patientId, m)] == multiset([stack[0]])[(patientId, m)] + multiset(rest)[(patientId, m)];
      assert multiset(head)[m] == multiset([stack[0]])[(patientId, m)];
    }
  }

  /** A medication is listed exactly when some stack entry issued it to this patient. */
  lemma {:induction false} MedicationsOfMember(stack: seq<Prescription>, patientId: string, m: string)
    ensures m in MedicationsOf(stack, patientId) <==> (patientId, m) in stack
  {
    MedicationsOfCount(stack, patientId, m);
  }

  /** Issuing one prescription adds its medication at the end of that patient's
      list and leaves every other patient's list as it was. */
  lemma MedicationsAfterIssue(stack: seq<Prescription>, issuedTo: string, medication: string, patientId: string)
    ensures MedicationsOf(stack + [(issuedTo, medication)], patientId) ==
            MedicationsOf(stack, patientId) + (if patientId == issuedTo then [medication] else [])
  {
    MedicationsOfConcat(stack, [(issuedTo, medication)], patientId);
  }

  // ---------------------------------------------------------------------------
  // Patients

  class Patient {
    const patientId: string
    const name: string
    const age: string
    var medicalHistory: seq<string>
    var currentCondition: Option<string>

    function Clinical(): ClinicalInfo
      reads this
    {
      ClinicalInfo(medicalHistory, currentCondition)
    }

    /** An omitted or empty history starts the patient with no history;
        the condition defaults to absent. */
    constructor (patientId: string, name: string, age: string,
                 medicalHistory: Option<seq<string>>, currentCondition: Option<string>)
      ensures this.patientId == patientId && this.name == name && this.age == age
      ensures this.medicalHistory == if medicalHistory.Some? then medicalHistory.value else []
      ensures this.currentCondition == currentCondition
    {
      this.patientId := patientId;
      this.name := name;
      this.age := age;
      this.medicalHistory :=
        if medicalHistory.Some? && |medicalHistory.value| > 0 then medicalHistory.value else [];
      this.currentCondition := currentCondition;
    }

    /** Appends one entry; the earlier history is kept as a prefix. */
    method UpdateMedicalHistory(newEntry: string)
      modifies this`medicalHistory
      ensures medicalHistory == old(medicalHistory) + [newEntry]
      ensures old(medicalHistory) <= medicalHistory
    {
      medicalHistory := medicalHistory + [newEntry];
    }

    /** Overwrites the current condition. */
    method UpdateCondition(newCondition: Option<string>)
      modifies this`currentCondition
      ensures currentCondition == newCondition
    {
      currentCondition := newCondition;
    }
  }

  // ---------------------------------------------------------------------------
  // The registry

  class PatientRecordSystem {
    var patients: map<string, Patient>
    var appointmentSchedule: map<string, string>
    var consultationQueue: seq<string>
    var prescriptionStack: seq<Prescription>

    /** Every record is stored under its own identifier; as identifiers are
        constant, no two keys share a record. */
    ghost predicate Valid()
      reads this
    {
      forall id | id in patients :: patients[id].patientId == id
    }

    constructor ()
      ensures Valid()
      ensures patients == map[] && appointmentSchedule == map[]
      ensures consultationQueue == [] && prescriptionStack == []
    {
      patients := map[];
      appointmentSchedule := map[];
      consultationQueue := [];
      prescriptionStack := [];
    }

    /** Stores a fresh record under patientId, replacing any earlier record
        (and its history) under that identifier. */
    method AddPatientRecord(patientId: string, name: string, age: string,
                            medicalHistory: Option<seq<string>>, currentCondition: Option<string>)
      returns (p: Patient)
      requires Valid()
      modifies this`patients
      ensures Valid() && fresh(p)
      ensures patients == old(patients)[patientId := p]
      ensures p.patientId == patientId && p.name == name && p.age == age
      ensures p.medicalHistory == if medicalHistory.Some? then medicalHistory.value else []
      ensures p.currentCondition == currentCondition
      ensures appointmentSchedule == old(appointmentSchedule)
      ensures consultationQueue == old(consultationQueue)
      ensures prescriptionStack == old(prescriptionStack)
      ensures var s := SearchPatientSummary(patientId); s.Some? && s.value.name == name && s.value.age == age
    {
      p := new Patient(patientId, name, age, medicalHistory, currentCondition);
      patients := patients[patientId := p];
    }

    /** Sets each named attribute of a stored record in turn; an unknown
        identifier changes nothing. */
    method UpdatePatientRecord(patientId: string, updates: seq<FieldUpdate>)
      requires Valid()
      modifies if patientId in patients then {patients[patientId]} else {}
      ensures Valid()
      ensures patients == old(patients)
      ensures patientId in patients ==>
                patients[patientId].Clinical() == ApplyUpdates(old(patients[patientId].Clinical()), updates)
      ensures forall id | id in patients && id != patientId ::
                patients[id].Clinical() == old(patients[id].Clinical())
    {
      if patientId in patients {
        var patient := patients[patientId];
        ghost var before := patient.Clinical();
        for i := 0 to |updates|
          invariant patient.Clinical() == ApplyUpdates(before, updates[..i])
        {
          assert updates[..i + 1][..i] == updates[..i];
          assert ApplyUpdates(before, updates[..i + 1]) == ApplyUpdate(patient.Clinical(), updates[i]);
          match updates[i]
          case MedicalHistory(h) => patient.medicalHistory := h;
          case CurrentCondition(c) => patient.currentCondition := c;
        }
        assert updates[..|updates|] == updates;
      }
    }

    /** Takes the first occurrence of patientId out of the queue, if there is one. */
    method RemovePatientFromQueue(patientId: string)
      modifies this`consultationQueue
      ensures consultationQueue ==
                if patientId in old(consultationQueue) then RemoveFirst(old(consultationQueue), patientId)
                else old(consultationQueue)
      ensures patients == old(patients) && appointmentSchedule == old(appointmentSchedule)
      ensures prescriptionStack == old(prescriptionStack)
    {
      if patientId in consultationQueue {
        consultationQueue := RemoveFirst(consultationQueue, patientId);
      }
    }

    /** Assigns the doctor (replacing any earlier one) and always appends the
        patient to the queue. Neither identifier is checked. */
    method ScheduleAppointment(patientId: string, doctorId: string)
      modifies this`appointmentSchedule, this`consultationQueue
      ensures appointmentSchedule == old(appointmentSchedule)[patientId := doctorId]
      ensures consultationQueue == old(consultationQueue) + [patientId]
      ensures patients == old(patients) && prescriptionStack == old(prescriptionStack)
    {
      appointmentSchedule := appointmentSchedule[patientId := doctorId];
      consultationQueue := consultationQueue + [patientId];
    }

    /** Records (patientId, medication) when the patient is known; the result
        says whether it did. */
    method IssuePrescription(patientId: string, medication: string) returns (issued: bool)
      modifies this`prescriptionStack
      ensures issued <==> patientId in patients
      ensures prescriptionStack ==
                if issued then old(prescriptionStack) + [(patientId, medication)] else old(prescriptionStack)
      ensures forall id ::
                MedicationsOf(prescriptionStack, id) ==
                MedicationsOf(old(prescriptionStack), id) + (if issued && id == patientId then [medication] else [])
      ensures patients == old(patients) && appointmentSchedule == old(appointmentSchedule)
      ensures consultationQueue == old(consultationQueue)
    {
      if patientId in patients {
        forall id {
          MedicationsAfterIssue(prescriptionStack, patientId, medication, id);
        }
        prescriptionStack := prescriptionStack + [(patientId, medication)];
        return true;
      }
      return false;
    }

    /** The summary of a known patient: personal details, the assigned doctor
        (absent when none), the appointment details (the doctor, or
        "Not scheduled") and the medications issued to that patient. */
    function SearchPatientSummary(patientId: string): (r: Option<PatientSummary>)
      reads this
      ensures r.Some? <==> patientId in patients
      ensures r.Some? ==> r.value.name == patients[patientId].name && r.value.age == patients[patientId].age
      ensures r.Some? ==> (r.value.doctor.Some? <==> patientId in appointmentSchedule)
      ensures r.Some? && r.value.doctor.Some? ==> r.value.doctor.value == appointmentSchedule[patientId]
      ensures r.Some? ==>
                r.value.appointmentDetails == if r.value.doctor.Some? then r.value.doctor.value else "Not scheduled"
      ensures r.Some? ==> r.value.medications == MedicationsOf(prescriptionStack, patientId)
      ensures r.Some? ==> forall m ::
                multiset(r.value.medications)[m] == multiset(prescriptionStack)[(patientId, m)]
    {
      if patientId in patients then
        var patient := patients[patientId];
        var doctor := if patientId in appointmentSchedule then Some(appointmentSchedule[patientId]) else None;
        var medications := MedicationsOf(prescriptionStack, patientId);
        assert forall m :: multiset(medications)[m] == multiset(prescriptionStack)[(patientId, m)] by {
          forall m { MedicationsOfCount(prescriptionStack, patientId, m); }
        }
        Some(PatientSummary(
          patient.name,
          patient.age,
          doctor,
          if patientId in appointmentSchedule then appointmentSchedule[patientId] else "Not scheduled",
          medications))
      else
        None
    }
  }
}
