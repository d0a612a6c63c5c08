/** The registry driven through the sample session of the repository's test
    script: three patients, one update, three appointments, two prescriptions,
    three searches and one dequeue. One step is added to that session: a
    prescription for an unknown identifier, which must be refused. */
module Scenario {
  import opened PatientRecords

  /** The script's first two steps: three records, then an update of the first. */
  method RegisterSamplePatients() returns (system: PatientRecordSystem, updated: ClinicalInfo)
    ensures fresh(system) && system.Valid()
    ensures system.patients.Keys == {"P001", "P002", "P003"}
    ensures system.patients["P001"].name == "Fatma Baharoon" && system.patients["P001"].age == "18"
    ensures system.patients["P002"].name == "Hind Ahli" && system.patients["P002"].age == "19"
    ensures system.patients["P003"].name == "Roudha Ahli" && system.patients["P003"].age == "19"
    ensures system.appointmentSchedule == map[] && system.consultationQueue == [] && system.prescriptionStack == []
    ensures updated == ClinicalInfo(["High blood pressure"], Some("Headache"))
    ensures system.patients["P001"].Clinical() == updated
    ensures system.patients["P002"].Clinical() == ClinicalInfo(["Allergy to penicillin"], Some("Fever"))
  {
    system := new PatientRecordSystem();
    var p1 := system.AddPatientRecord("P001", "Fatma Baharoon", "18", None, None);
    var p2 := system.AddPatientRecord("P002", "Hind Ahli", "19", Some(["Allergy to penicillin"]), Some("Fever"));
    var p3 := system.AddPatientRecord("P003", "Roudha Ahli", "19", None, None);
    assert "P001" != "P002" && "P001" != "P003" && "P002" != "P003";
    assert system.patients["P001"] == p1 && system.patients["P002"] == p2;
    assert p2.Clinical() == ClinicalInfo(["Allergy to penicillin"], Some("Fever"));

    var updates := [MedicalHistory(["High blood pressure"]), CurrentCondition(Some("Headache"))];
    system.UpdatePatientRecord("P001", updates);
    assert updates[..1] == [MedicalHistory(["High blood pressure"])];
    updated := p1.Clinical();
  }

  /** The script's next two steps, three appointments and two prescriptions,
      followed by the added step: a prescription for an unknown identifier. */
  method ScheduleAndPrescribe(system: PatientRecordSystem) returns (unknownIssued: bool)
    requires system.patients.Keys == {"P001", "P002", "P003"}
    requires system.appointmentSchedule == map[] && system.consultationQueue == [] && system.prescriptionStack == []
    modifies system
    ensures system.patients == old(system.patients)
    ensures system.appointmentSchedule == map["P001" := "D001", "P002" := "D002", "P003" := "D003"]
    ensures system.consultationQueue == ["P001", "P002", "P003"]
    ensures system.prescriptionStack == [("P001", "Ibuprofen"), ("P002", "Paracetamol")]
    ensures !unknownIssued
  {
    system.ScheduleAppointment("P001", "D001");
    system.ScheduleAppointment("P002", "D002");
    system.ScheduleAppointment("P003", "D003");

    var ok1 := system.IssuePrescription("P001", "Ibuprofen");
    var ok2 := system.IssuePrescription("P002", "Paracetamol");
    assert "Pxxx" !in system.patients;
    unknownIssued := system.IssuePrescription("Pxxx", "Aspirin");
  }

  method SampleSession()
    returns (summary1: Option<PatientSummary>, summary2: Option<PatientSummary>,
             summary3: Option<PatientSummary>, unknownIssued: bool,
             updated: ClinicalInfo, queueBefore: seq<string>,
             first: string, queueAfter: seq<string>)
    ensures summary1 == Some(PatientSummary("Fatma Baharoon", "18", Some("D001"), "D001", ["Ibuprofen"]))
    ensures summary2 == Some(PatientSummary("Hind Ahli", "19", Some("D002"), "D002", ["Paracetamol"]))
    ensures summary3 == Some(PatientSummary("Roudha Ahli", "19", Some("D003"), "D003", []))
    ensures !unknownIssued
    ensures updated == ClinicalInfo(["High blood pressure"], Some("Headache"))
    ensures queueBefore == ["P001", "P002", "P003"]
    ensures first == "P001" && queueAfter == ["P002", "P003"]
  {
    var system;
    system, updated := RegisterSamplePatients();
    unknownIssued := ScheduleAndPrescribe(system);
    assert "P001" != "P002" && "P001" != "P003" && "P002" != "P003";
    assert system.appointmentSchedule["P001"] == "D001" && system.appointmentSchedule["P002"] == "D002";
    assert system.appointmentSchedule["P003"] == "D003";

    assert MedicationsOf(system.prescriptionStack, "P001") == ["Ibuprofen"];
    assert MedicationsOf(system.prescriptionStack, "P002") == ["Paracetamol"];
    assert MedicationsOf(system.prescriptionStack, "P003") == [];
    summary1 := system.SearchPatientSummary("P001");
    summary2 := system.SearchPatientSummary("P002");
    summary3 := system.SearchPatientSummary("P003");

    // The script takes the head of the queue directly (deque.popleft).
    queueBefore := system.consultationQueue;
    first := system.consultationQueue[0];
    system.consultationQueue := system.consultationQueue[1..];
    queueAfter := system.consultationQueue;
  }

  /** A patient queued twice by two schedulings loses only the first of its
      entries on removal: an earlier occurrence if there was one, otherwise
      the first of the two new entries. */
  lemma {:induction false} RemoveAfterDoubleSchedule(queue: seq<string>, patientId: string)
    ensures patientId in queue ==>
              RemoveFirst(queue + [patientId, patientId], patientId) == RemoveFirst(queue, patientId) + [patientId, patientId]
    ensures patientId !in queue ==>
              RemoveFirst(queue + [patientId, patientId], patientId) == queue + [patientId]
  {
    var scheduled := queue + [patientId, patientId];
    assert scheduled[|queue|] == patientId;
    if patientId in queue {
      RemoveFirstAppend(queue, patientId, [patientId, patientId]);
    } else {
      RemoveFirstSplices(queue, patientId, [patientId]);
      assert queue + [patientId] + [patientId] == queue + [patientId, patientId];
    }
  }

  /** Scheduling one patient twice keeps only the later doctor but queues the
      patient twice; a removal then takes out only the first of those entries. */
  method RescheduleThenRemove(system: PatientRecordSystem, patientId: string, first: string, second: string)
    modifies system
    ensures system.appointmentSchedule == old(system.appointmentSchedule)[patientId := second]
    ensures patientId !in old(system.consultationQueue) ==>
              system.consultationQueue == old(system.consultationQueue) + [patientId]
    ensures patientId in old(system.consultationQueue) ==>
              system.consultationQueue == RemoveFirst(old(system.consultationQueue), patientId) + [patientId, patientId]
    ensures system.patients == old(system.patients) && system.prescriptionStack == old(system.prescriptionStack)
  {
    ghost var queue, schedule := system.consultationQueue, system.appointmentSchedule;
    system.ScheduleAppointment(patientId, first);
    system.ScheduleAppointment(patientId, second);
    assert system.appointmentSchedule == schedule[patientId := first][patientId := second];
    assert schedule[patientId := first][patientId := second] == schedule[patientId := second];
    ghost var scheduled := system.consultationQueue;
    assert scheduled == queue + [patientId, patientId];
    assert scheduled[|queue|] == patientId;
    system.RemovePatientFromQueue(patientId);
    assert system.consultationQueue == RemoveFirst(scheduled, patientId);
    RemoveAfterDoubleSchedule(queue, patientId);
  }
}
