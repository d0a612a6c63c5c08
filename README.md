# Patient record registry

A Dafny model of a small in-memory patient record system (`Ass2.py`). The registry,
`PatientRecordSystem`, keeps four collections keyed by a patient identifier:

- `patients`: identifier to `Patient` record;
- `appointmentSchedule`: patient identifier to doctor identifier;
- `consultationQueue`: a FIFO queue of patient identifiers;
- `prescriptionStack`: an append-only list of (patient identifier, medication) pairs.

Six operations act on them: add a record, update a record by keyword, remove a patient
from the queue, schedule an appointment, issue a prescription and search for a
summary. `Patient` is a class whose clinical attributes (medical history and current
condition) are updated in place. The registry holds references to these objects.
Its invariant `Valid()` says that each record is stored under its own identifier, so no
two identifiers share a record. The registry methods state their whole new state.
Lemmas about three specification functions state what the source promises:

- `ApplyUpdates` folds the keyword updates and is the last-write-wins rule.
- `RemoveFirst` is `deque.remove`, which takes out only the first occurrence.
- `MedicationsOf` is the in-order filter of the prescription stack.

Identifiers, names, ages, doctor identifiers and medications are opaque text tokens
(`string`). The registry never inspects them. Age is text because the menu reads it
with `input`. The test script passes numbers, so the sample session writes `"18"`.

`records.dfy` holds the model (module `PatientRecords`). `scenario.dfy` (module
`Scenario`) holds clients of the registry. The main client drives it through the
session of the repository's test script, `Test Case .py`, lines 109-150. The model adds
one step that the script does not have: a prescription for the unknown identifier
`Pxxx`, which must be refused.
A second client schedules one patient twice and then removes it from the queue.

The code updates a record with `setattr`, which accepts any attribute name. The model
chooses to express an update as a `FieldUpdate` value that can only name
`medical_history` or `current_condition`, so no other name can be written.

## Model

| member | source | states |
|---|---|---|
| `PatientRecords.Patient.constructor` | Ass2.py:20-26 | the record keeps the given identifier, name and age; the history is the supplied list, or empty when none or an empty one is supplied; the condition is the supplied one (absent by default) |
| `PatientRecords.Patient.UpdateMedicalHistory` | Ass2.py:29-31 | the new entry is appended at the end; the earlier history stays a prefix |
| `PatientRecords.Patient.UpdateCondition` | Ass2.py:33-35 | the current condition is overwritten; nothing else changes |
| `PatientRecords.PatientRecordSystem.constructor` | Ass2.py:46-51 | all four collections start empty |
| `PatientRecords.PatientRecordSystem.AddPatientRecord` | Ass2.py:54-57 | a fresh record with exactly the given details is stored under the identifier, replacing any earlier record and its history; schedule, queue and prescriptions are unchanged; a search then reports the given name and age |
| `PatientRecords.PatientRecordSystem.UpdatePatientRecord` | Ass2.py:60-65 | unknown identifier: nothing changes; known identifier: its clinical attributes become the result of setting each update in turn, and every other record is untouched |
| `PatientRecords.HistoryIsLastWritten` | Ass2.py:64-65 | after a list of updates the medical history is the value of the last update naming it (wholesale replacement, no merging) |
| `PatientRecords.HistoryUntouched` | Ass2.py:64-65 | updates that do not name the medical history leave it as it was |
| `PatientRecords.ConditionIsLastWritten` | Ass2.py:64-65 | after a list of updates the current condition is the value of the last update naming it |
| `PatientRecords.ConditionUntouched` | Ass2.py:64-65 | updates that do not name the current condition leave it as it was |
| `PatientRecords.PatientRecordSystem.RemovePatientFromQueue` | Ass2.py:68-70 | an identifier in the queue loses its first occurrence; an absent identifier changes nothing; records, schedule and prescriptions are never touched |
| `PatientRecords.RemoveFirst` | Ass2.py:70 | removal from a queue holding the value shrinks it by exactly one |
| `PatientRecords.RemoveFirstMultiset` | Ass2.py:70 | the multiset of entries loses exactly one copy of the value and nothing else |
| `PatientRecords.FirstIndex` | Ass2.py:69-70 | the index found holds the value and no earlier position does |
| `PatientRecords.RemoveFirstSplices` | Ass2.py:70 | removing x from `a + [x] + b`, where x is not in a, gives `a + b`: what precedes stays, and later duplicates stay in place and in order |
| `PatientRecords.RemoveFirstAppend` | Ass2.py:70 | when the value already occurs in q, entries appended after q are untouched by the removal |
| `PatientRecords.RemoveFirstAtFirstIndex` | Ass2.py:69-70 | for every queue holding x, removal is the queue with the element at x's first index spliced out |
| `PatientRecords.PatientRecordSystem.ScheduleAppointment` | Ass2.py:73-76 | the schedule maps the patient to the new doctor with all other entries unchanged; the queue is the old queue followed by the patient, even when already queued or scheduled; no identifier is checked |
| `PatientRecords.PatientRecordSystem.IssuePrescription` | Ass2.py:79-87 | the result is true exactly when the patient is known; then exactly (patient, medication) is appended, otherwise the stack is unchanged; the medication appears at the end of that patient's medication list and no other patient's list changes |
| `PatientRecords.MedicationsAfterIssue` | Ass2.py:85 | appending one prescription extends that patient's medication list by its medication and leaves every other patient's list unchanged |
| `PatientRecords.PatientRecordSystem.SearchPatientSummary` | Ass2.py:90-107 | absent exactly for an unknown identifier; otherwise the record's name and age, the doctor (present exactly when scheduled), appointment details equal to that doctor or "Not scheduled", and medications whose multiplicities equal those of the patient's stack entries |
| `PatientRecords.MedicationsOf` | Ass2.py:95 | the filtered list is never longer than the stack |
| `PatientRecords.MedicationsOfConcat` | Ass2.py:95 | the filter distributes over concatenation, so medications keep issuance order even with issuances to other patients interleaved |
| `PatientRecords.MedicationsOfCount` | Ass2.py:95 | each medication occurs in the list as often as the pair (patient, medication) occurs in the stack: repeats are kept and other patients contribute nothing |
| `PatientRecords.MedicationsOfMember` | Ass2.py:95 | a medication is listed exactly when the stack holds it for that patient |
| `Scenario.RegisterSamplePatients` | Ass2.py:54-65 | (test script lines 109-118) after the three additions and the update, the three records hold the given names and ages, and P001's record holds the updated history and condition, while P002 keeps the history and condition it was added with |
| `Scenario.ScheduleAndPrescribe` | Ass2.py:73-87 | (test script lines 120-127) three appointments give the schedule D001/D002/D003 and the queue P001, P002, P003; the two prescriptions are stacked in order; a prescription for the unknown identifier `Pxxx`, a step the model adds to the script's session, is refused |
| `Scenario.SampleSession` | Ass2.py:90-107 | (test script lines 129-150) the three summaries hold the expected details, doctors and medications (none for P003); taking the head of the queue yields P001 and leaves P002, P003 |
| `Scenario.RemoveAfterDoubleSchedule` | Ass2.py:68-76 | after two schedulings of a patient, removal takes out its earlier occurrence if there was one, otherwise the first of the two new entries |
| `Scenario.RescheduleThenRemove` | Ass2.py:68-76 | scheduling a patient twice keeps only the later doctor but queues the patient twice; a removal then takes out only one entry, the first |

## Left out

- `menu_interface` (Ass2.py:110-182): the interactive `input`/`print` loop. It only calls the modelled operations. The misplaced indentation of its update call (Ass2.py:144), which skips an update unless a condition is entered, belongs to this loop.
- The module-level instance and the menu launch (Ass2.py:185-188): side effects at import time.
- The sample `doctors` and `patients` dictionaries (Ass2.py:12-16, 38-42): fixture data, not registry state. `Doctor` is kept only as a record type, because the registry stores doctor identifiers and never Doctor records.
- `UpdatePatientRecord`: `setattr` accepts any attribute name. The model covers only `medical_history` and `current_condition`. Overwriting `name`, `age` or `patient_id`, and creating new attributes, are not modelled. For that reason these three fields are constants of `Patient`.
- `Patient.constructor` and `UpdatePatientRecord`: Python stores the caller's list object as the medical history, both when a record is created (Ass2.py:25) and when an update sets it (Ass2.py:65), so a later `update_medical_history` append is also seen by the caller. The model stores a sequence value, so this aliasing is not captured.
- `SearchPatientSummary`: Python returns a nested dictionary that the menu prints. The model returns a `PatientSummary` datatype and leaves out the formatting.
- `deque.popleft`, which the test script calls directly on the queue field, is modelled in `Scenario.SampleSession` by taking the queue's head. It is not a registry operation.
