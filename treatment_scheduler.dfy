/** The treatment scheduler: it reads the symptoms of a pet needing care,
    chooses a treatment type and medication from keyword tables, and builds
    a schedule whose timing and staffing depend on urgency. Logging is left
    out and the clock is a parameter. */
module TreatmentScheduler {
  import opened Common
  import opened Text
  import opened PetTypes
  import opened PetStore

  /** `' '.join(symptoms).lower()` */
  function SymptomString(symptoms: seq<string>): string {
    Lower(Join(symptoms, " "))
  }

  const GeneralExamination: string := "General Medical Examination"

  /** The treatment for the first keyword found, in the priority order
      bleeding, breathing, pain, infection, fever. */
  function DetermineTreatmentType(symptoms: seq<string>): (t: string)
    ensures var s := SymptomString(symptoms);
      && (t == "Emergency Surgery" <==> Contains(s, "bleeding"))
      && (t == "Respiratory Treatment" <==> !Contains(s, "bleeding") && Contains(s, "breathing"))
      && (t == "Pain Management" <==>
            !Contains(s, "bleeding") && !Contains(s, "breathing") && Contains(s, "pain"))
      && (t == "Antibiotic Treatment" <==>
            !Contains(s, "bleeding") && !Contains(s, "breathing") && !Contains(s, "pain") && Contains(s, "infection"))
      && (t == "Fever Management" <==>
            !Contains(s, "bleeding") && !Contains(s, "breathing") && !Contains(s, "pain")
            && !Contains(s, "infection") && Contains(s, "fever"))
      && (t == GeneralExamination <==>
            !Contains(s, "bleeding") && !Contains(s, "breathing") && !Contains(s, "pain")
            && !Contains(s, "infection") && !Contains(s, "fever"))
  {
    var s := SymptomString(symptoms);
    if Contains(s, "bleeding") then "Emergency Surgery"
    else if Contains(s, "breathing") then "Respiratory Treatment"
    else if Contains(s, "pain") then "Pain Management"
    else if Contains(s, "infection") then "Antibiotic Treatment"
    else if Contains(s, "fever") then "Fever Management"
    else GeneralExamination
  }

  /** The medication table: keyword and the medication it calls for. */
  const MedicationTable: seq<(string, string)> := [
    ("pain", "Pain Relief (Ibuprofen)"),
    ("infection", "Antibiotics (Amoxicillin)"),
    ("fever", "Fever Reducer (Acetaminophen)"),
    ("anxiety", "Anti-anxiety (Diazepam)")]

  /** The medications of `table` whose keyword occurs in `s`, in table order. */
  function MedicationsFor(table: seq<(string, string)>, s: string): (m: seq<string>)
    ensures |m| <= |table|
    ensures forall x :: x in m ==> exists j :: 0 <= j < |table| && table[j].1 == x && Contains(s, table[j].0)
  {
    if table == [] then []
    else
      var rest := MedicationsFor(table[1..], s);
      if Contains(s, table[0].0) then [table[0].1] + rest else rest
  }

  /** `determine_medication`: one entry for each keyword present, in the
      order pain, infection, fever, anxiety. */
  method DetermineMedication(symptoms: seq<string>) returns (medication: seq<string>)
    ensures medication == MedicationsFor(MedicationTable, SymptomString(symptoms))
    ensures |medication| <= 4
    ensures forall i, j :: 0 <= i < j < |medication| ==> medication[i] != medication[j]
    ensures forall x :: x in medication ==> InstructionFor(x) != DefaultInstruction
  {
    var s := SymptomString(symptoms);
    medication := [];
    if Contains(s, "pain") {
      medication := medication + ["Pain Relief (Ibuprofen)"];
    }
    if Contains(s, "infection") {
      medication := medication + ["Antibiotics (Amoxicillin)"];
    }
    if Contains(s, "fever") {
      medication := medication + ["Fever Reducer (Acetaminophen)"];
    }
    if Contains(s, "anxiety") {
      medication := medication + ["Anti-anxiety (Diazepam)"];
    }
    MedicationTableSpelled(s);
    MedicationsDistinct(s);
    TableMedicationsHaveInstructions(s);
  }

  /** `MedicationsFor` on a table of four entries, spelled out entry by
      entry. */
  lemma {:induction false} MedicationsForFour(t: seq<(string, string)>, s: string)
    requires |t| == 4
    ensures MedicationsFor(t, s)
         == (if Contains(s, t[0].0) then [t[0].1] else [])
          + (if Contains(s, t[1].0) then [t[1].1] else [])
          + (if Contains(s, t[2].0) then [t[2].1] else [])
          + (if Contains(s, t[3].0) then [t[3].1] else [])
  {
    var last := if Contains(s, t[3].0) then [t[3].1] else [];
    var third := if Contains(s, t[2].0) then [t[2].1] else [];
    var second := if Contains(s, t[1].0) then [t[1].1] else [];
    var first := if Contains(s, t[0].0) then [t[0].1] else [];
    assert t[3..][1..] == [] && t[3..][0] == t[3];
    assert MedicationsFor(t[3..], s) == last;
    assert t[2..][1..] == t[3..] && t[2..][0] == t[2];
    assert MedicationsFor(t[2..], s) == third + last;
    assert t[1..][1..] == t[2..] && t[1..][0] == t[1];
    assert MedicationsFor(t[1..], s) == second + (third + last);
    assert MedicationsFor(t, s) == first + (second + (third + last));
  }

  lemma MedicationTableSpelled(s: string)
    ensures MedicationsFor(MedicationTable, s)
         == (if Contains(s, "pain") then ["Pain Relief (Ibuprofen)"] else [])
          + (if Contains(s, "infection") then ["Antibiotics (Amoxicillin)"] else [])
          + (if Contains(s, "fever") then ["Fever Reducer (Acetaminophen)"] else [])
          + (if Contains(s, "anxiety") then ["Anti-anxiety (Diazepam)"] else [])
  {
    MedicationsForFour(MedicationTable, s);
  }

  /** The table's medications differ, so no medication is listed twice. */
  lemma MedicationsDistinct(s: string)
    ensures var m := MedicationsFor(MedicationTable, s);
      forall i, j :: 0 <= i < j < |m| ==> m[i] != m[j]
  {
    MedicationTableSpelled(s);
  }

  const DefaultInstruction: string := "Follow veterinarian instructions"

  /** The instruction for one medication, chosen by the first name
      fragment it contains. */
  function InstructionFor(med: string): (r: string)
    ensures Contains(med, "Pain Relief") ==> r == "Give 1 tablet every 8 hours with food"
    ensures r == DefaultInstruction <==>
      !Contains(med, "Pain Relief") && !Contains(med, "Antibiotics")
      && !Contains(med, "Fever Reducer") && !Contains(med, "Anti-anxiety")
  {
    if Contains(med, "Pain Relief") then "Give 1 tablet every 8 hours with food"
    else if Contains(med, "Antibiotics") then "Give 1 tablet every 12 hours for 7 days"
    else if Contains(med, "Fever Reducer") then "Give 1 tablet every 6 hours as needed"
    else if Contains(med, "Anti-anxiety") then "Give 1 tablet every 12 hours during stressful periods"
    else DefaultInstruction
  }

  /** No medication `determine_medication` can produce falls back to the
      default instruction. */
  lemma TableMedicationsHaveInstructions(s: string)
    ensures forall x :: x in MedicationsFor(MedicationTable, s) ==> InstructionFor(x) != DefaultInstruction
  {
    forall x | x in MedicationsFor(MedicationTable, s) ensures InstructionFor(x) != DefaultInstruction {
      MedicationTableSpelled(s);
      if x == "Pain Relief (Ibuprofen)" {
        assert Contains(x, "Pain Relief");
      } else if x == "Antibiotics (Amoxicillin)" {
        assert Contains(x, "Antibiotics");
      } else if x == "Fever Reducer (Acetaminophen)" {
        assert Contains(x, "Fever Reducer");
      } else {
        assert x == "Anti-anxiety (Diazepam)";
        assert Contains(x, "Anti-anxiety");
      }
    }
  }

  /** `generate_medication_instructions`: one instruction per medication,
      each chosen from its own medication alone. */
  method GenerateMedicationInstructions(medication: seq<string>) returns (instructions: seq<string>)
    ensures |instructions| == |medication|
    ensures forall i :: 0 <= i < |medication| ==> instructions[i] == InstructionFor(medication[i])
  {
    instructions := [];
    for i := 0 to |medication|
      invariant |instructions| == i
      invariant forall k :: 0 <= k < i ==> instructions[k] == InstructionFor(medication[k])
    {
      var med := medication[i];
      if Contains(med, "Pain Relief") {
        instructions := instructions + ["Give 1 tablet every 8 hours with food"];
      } else if Contains(med, "Antibiotics") {
        instructions := instructions + ["Give 1 tablet every 12 hours for 7 days"];
      } else if Contains(med, "Fever Reducer") {
        instructions := instructions + ["Give 1 tablet every 6 hours as needed"];
      } else if Contains(med, "Anti-anxiety") {
        instructions := instructions + ["Give 1 tablet every 12 hours during stressful periods"];
      } else {
        instructions := instructions + [DefaultInstruction];
      }
    }
  }

  /** One symptom that makes the case urgent. */
  predicate UrgentSymptom(symptom: string) {
    var s := Lower(symptom);
    Contains(s, "bleeding") || Contains(s, "severe pain") || Contains(s, "breathing difficulty") || Contains(s, "unconscious")
  }

  /** `any(any(urgent in symptom.lower() ...) for symptom in symptoms)` */
  function IsUrgent(symptoms: seq<string>): (r: bool)
    ensures r <==> exists i :: 0 <= i < |symptoms| && UrgentSymptom(symptoms[i])
  {
    if symptoms == [] then false
    else UrgentSymptom(symptoms[0]) || IsUrgent(symptoms[1..])
  }

  /** Urgency and treatment agree on bleeding: an urgent case flagged by a
      bleeding symptom is always scheduled for emergency surgery. */
  lemma BleedingIsSurgery(symptoms: seq<string>, i: nat)
    requires i < |symptoms| && Contains(Lower(symptoms[i]), "bleeding")
    ensures IsUrgent(symptoms)
    ensures DetermineTreatmentType(symptoms) == "Emergency Surgery"
  {
    JoinedLowerContains(symptoms, " ", i, "bleeding");
  }

  /** Urgency and the treatment choice also agree on breathing difficulty: it
      leads to respiratory treatment unless there is bleeding. */
  lemma BreathingDifficultyIsRespiratory(symptoms: seq<string>, i: nat)
    requires i < |symptoms| && Contains(Lower(symptoms[i]), "breathing difficulty")
    requires !Contains(SymptomString(symptoms), "bleeding")
    ensures IsUrgent(symptoms)
    ensures DetermineTreatmentType(symptoms) == "Respiratory Treatment"
  {
    var phrase := "breathing difficulty";
    assert Contains(phrase, "breathing") by {
      assert "breathing" <= phrase;
    }
    ContainsWithin(Lower(symptoms[i]), phrase, "breathing");
    JoinedLowerContains(symptoms, " ", i, "breathing");
    assert UrgentSymptom(symptoms[i]);
  }

  datatype TreatmentSchedule = TreatmentSchedule(
    petId: string,
    scheduledAt: int,
    urgency: string,
    symptoms: seq<string>,
    treatmentType: string,
    estimatedDuration: string,
    requiredStaff: seq<string>,
    medication: seq<string>)

  /** The handler's schedule for a stored pet; an unknown pet gets none. */
  method ScheduleTreatment(store: PetStore, petId: string, symptoms: seq<string>, now: int)
    returns (r: Option<TreatmentSchedule>)
    ensures petId !in store.pets ==> r.None?
    ensures petId in store.pets ==> r.Some? && r.value.petId == petId && r.value.symptoms == symptoms
    ensures r.Some? && IsUrgent(symptoms) ==>
      && r.value.scheduledAt == now + 7200000 && r.value.urgency == "urgent"
      && r.value.requiredStaff == ["veterinarian", "nurse"] && r.value.estimatedDuration == "2-4 hours"
    ensures r.Some? && !IsUrgent(symptoms) ==>
      && r.value.scheduledAt == now + 86400000 && r.value.urgency == "normal"
      && r.value.requiredStaff == ["veterinarian"] && r.value.estimatedDuration == "1-2 hours"
    ensures r.Some? ==> r.value.treatmentType == DetermineTreatmentType(symptoms)
    ensures r.Some? ==> r.value.medication == MedicationsFor(MedicationTable, SymptomString(symptoms))
  {
    var pet := store.Get(petId);
    if pet.None? {
      return None;
    }
    var isUrgent := IsUrgent(symptoms);
    var medication := DetermineMedication(symptoms);
    r := Some(TreatmentSchedule(
      petId,
      now + (if isUrgent then 2 * 60 * 60 * 1000 else 24 * 60 * 60 * 1000),
      if isUrgent then "urgent" else "normal",
      symptoms,
      DetermineTreatmentType(symptoms),
      if isUrgent then "2-4 hours" else "1-2 hours",
      if isUrgent then ["veterinarian", "nurse"] else ["veterinarian"],
      medication));
  }
}
