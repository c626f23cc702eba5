/** The recovery monitor: when a treatment starts it builds a recovery plan
    (expected recovery time, monitoring schedule, milestones); when it
    completes it schedules follow-up checks and lists recovery indicators.
    Logging and the emitted events are left out; the clock is a parameter. */
module RecoveryMonitor {
  import opened Common
  import opened Text
  import opened PetTypes
  import opened PetStore
  import TreatmentScheduler

  /** The expected recovery time for the first treatment name found,
      case-insensitively, in the order emergency surgery, respiratory
      treatment, pain management, antibiotic treatment, fever management. */
  function ExpectedRecoveryTime(treatmentType: string): (r: string)
    ensures r in {"2-4 weeks", "1-2 weeks", "3-7 days", "7-14 days", "3-5 days"}
    ensures Contains(Lower(treatmentType), "emergency surgery") ==> r == "2-4 weeks"
  {
    var t := Lower(treatmentType);
    if Contains(t, "emergency surgery") then "2-4 weeks"
    else if Contains(t, "respiratory treatment") then "1-2 weeks"
    else if Contains(t, "pain management") then "3-7 days"
    else if Contains(t, "antibiotic treatment") then "7-14 days"
    else if Contains(t, "fever management") then "3-5 days"
    else "1-2 weeks"
  }

  /** The treatment names the scheduler produces get their own recovery
      times: its vocabulary and the monitor's agree. */
  lemma SurgeryRecoveryTime()
    ensures ExpectedRecoveryTime("Emergency Surgery") == "2-4 weeks"
  {
    assert Lower("Emergency Surgery") == "emergency surgery";
    assert "emergency surgery" <= "emergency surgery";
  }

  lemma RespiratoryRecoveryTime()
    ensures ExpectedRecoveryTime("Respiratory Treatment") == "1-2 weeks"
  {
    var t := "respiratory treatment";
    assert Lower("Respiratory Treatment") == t by { }
    assert Contains(t, t) by { assert t <= t; }
    assert !Contains(t, "emergency surgery") by { MissingCharNotContained(t, "emergency surgery", 'g'); }
  }

  lemma PainRecoveryTime()
    ensures ExpectedRecoveryTime("Pain Management") == "3-7 days"
  {
    var t := "pain management";
    assert Lower("Pain Management") == t by { }
    assert Contains(t, t) by { assert t <= t; }
    assert !Contains(t, "emergency surgery") by { MissingCharNotContained(t, "emergency surgery", 'y'); }
    assert !Contains(t, "respiratory treatment") by { MissingCharNotContained(t, "respiratory treatment", 'y'); }
  }

  lemma AntibioticRecoveryTime()
    ensures ExpectedRecoveryTime("Antibiotic Treatment") == "7-14 days"
  {
    assert Lower("Antibiotic Treatment") == "antibiotic treatment";
    AntibioticMatches(Lower("Antibiotic Treatment"));
  }

  lemma AntibioticMatches(t: string)
    requires t == "antibiotic treatment"
    ensures !Contains(t, "emergency surgery") && !Contains(t, "respiratory treatment")
    ensures !Contains(t, "pain management") && Contains(t, "antibiotic treatment")
  {
    assert "antibiotic treatment" <= t;
    assert !Contains(t, "emergency surgery") by { MissingCharNotContained(t, "emergency surgery", 'y'); }
    assert !Contains(t, "respiratory treatment") by { MissingCharNotContained(t, "respiratory treatment", 'y'); }
    assert !Contains(t, "pain management") by { MissingCharNotContained(t, "pain management", 'p'); }
  }

  lemma FeverRecoveryTime()
    ensures ExpectedRecoveryTime("Fever Management") == "3-5 days"
  {
    assert Lower("Fever Management") == "fever management";
    FeverMatches(Lower("Fever Management"));
  }

  lemma FeverMatches(t: string)
    requires t == "fever management"
    ensures !Contains(t, "emergency surgery") && !Contains(t, "respiratory treatment")
    ensures !Contains(t, "pain management") && !Contains(t, "antibiotic treatment")
    ensures Contains(t, "fever management")
  {
    assert "fever management" <= t;
    assert !Contains(t, "emergency surgery") by { MissingCharNotContained(t, "emergency surgery", 'y'); }
    assert !Contains(t, "respiratory treatment") by { MissingCharNotContained(t, "respiratory treatment", 'y'); }
    assert !Contains(t, "pain management") by { MissingCharNotContained(t, "pain management", 'p'); }
    assert !Contains(t, "antibiotic treatment") by { MissingCharNotContained(t, "antibiotic treatment", 'b'); }
  }

  lemma ExaminationRecoveryTime()
    ensures ExpectedRecoveryTime("General Medical Examination") == "1-2 weeks"
  {
    ExaminationCase("General Medical Examination");
  }

  lemma ExaminationCase(name: string)
    requires Lower(name) == "general medical examination"
    ensures ExpectedRecoveryTime(name) == "1-2 weeks"
  {
    NamesNoTreatment(Lower(name));
  }

  /** A name without the letters y, p, b and v names no treatment. */
  lemma NamesNoTreatment(t: string)
    requires 'y' !in t && 'p' !in t && 'b' !in t && 'v' !in t
    ensures !Contains(t, "emergency surgery") && !Contains(t, "respiratory treatment")
    ensures !Contains(t, "pain management") && !Contains(t, "antibiotic treatment")
    ensures !Contains(t, "fever management")
  {
    MissingCharNotContained(t, "emergency surgery", 'y');
    MissingCharNotContained(t, "respiratory treatment", 'y');
    MissingCharNotContained(t, "pain management", 'p');
    MissingCharNotContained(t, "antibiotic treatment", 'b');
    MissingCharNotContained(t, "fever management", 'v');
  }

  /** The recovery time the monitor expects for each treatment the
      scheduler can choose. */
  const RecoveryTimes: map<string, string> := map[
    "Emergency Surgery" := "2-4 weeks",
    "Respiratory Treatment" := "1-2 weeks",
    "Pain Management" := "3-7 days",
    "Antibiotic Treatment" := "7-14 days",
    "Fever Management" := "3-5 days",
    "General Medical Examination" := "1-2 weeks"]

  /** Whatever the symptoms, the treatment the scheduler picks is one the
      monitor recognises, with its own recovery time (never the fallback
      reached by an unknown name, except for the general examination). */
  lemma RecoveryTimeOfScheduledTreatment(symptoms: seq<string>)
    ensures TreatmentScheduler.DetermineTreatmentType(symptoms) in RecoveryTimes
    ensures ExpectedRecoveryTime(TreatmentScheduler.DetermineTreatmentType(symptoms))
         == RecoveryTimes[TreatmentScheduler.DetermineTreatmentType(symptoms)]
  {
    var t := TreatmentScheduler.DetermineTreatmentType(symptoms);
    if t == "Emergency Surgery" {
      SurgeryRecoveryTime();
    } else if t == "Respiratory Treatment" {
      RespiratoryRecoveryTime();
    } else if t == "Pain Management" {
      PainRecoveryTime();
    } else if t == "Antibiotic Treatment" {
      AntibioticRecoveryTime();
    } else if t == "Fever Management" {
      FeverRecoveryTime();
    } else {
      assert t == "General Medical Examination";
      ExaminationRecoveryTime();
    }
  }

  datatype Check = Check(time: string, check: string, priority: string)

  const BaseSchedule: seq<Check> := [
    Check("every 2 hours", "vital signs", "high"),
    Check("every 6 hours", "medication compliance", "high"),
    Check("daily", "wound healing", "medium"),
    Check("daily", "appetite and hydration", "medium")]

  const SurgeryChecks: seq<Check> := [
    Check("every 4 hours", "incision site", "high"),
    Check("daily", "mobility assessment", "medium")]

  const RespiratoryChecks: seq<Check> := [
    Check("every 3 hours", "breathing pattern", "high"),
    Check("daily", "oxygen levels", "high")]

  /** `generate_monitoring_schedule`: the base checks, extended in place with
      the surgery checks and then the respiratory checks when the lower-cased
      treatment names them. */
  method MonitoringSchedule(treatmentType: string) returns (schedule: seq<Check>)
    ensures var t := Lower(treatmentType);
      schedule == BaseSchedule + (if Contains(t, "surgery") then SurgeryChecks else [])
                               + (if Contains(t, "respiratory") then RespiratoryChecks else [])
    ensures |schedule| in {4, 6, 8} && schedule[..4] == BaseSchedule
    ensures forall c :: c in schedule ==> c.priority == "high" || c.priority == "medium"
  {
    schedule := BaseSchedule;
    var t := Lower(treatmentType);
    if Contains(t, "surgery") {
      schedule := schedule + SurgeryChecks;
    }
    if Contains(t, "respiratory") {
      schedule := schedule + RespiratoryChecks;
    }
  }

  datatype Milestone = Milestone(day: nat, milestone: string, status: string)

  const BaseMilestones: seq<Milestone> := [
    Milestone(1, "Initial treatment response", "pending"),
    Milestone(3, "Pain management effectiveness", "pending"),
    Milestone(7, "Primary healing indicators", "pending"),
    Milestone(14, "Full recovery assessment", "pending")]

  const SurgeryMilestones: seq<Milestone> := [
    Milestone(2, "Incision healing check", "pending"),
    Milestone(10, "Stitch removal readiness", "pending")]

  predicate SortedByDay(m: seq<Milestone>) {
    forall i, j :: 0 <= i < j < |m| ==> m[i].day <= m[j].day
  }

  /** `generate_recovery_milestones`: the base milestones, with the surgery
      milestones appended (not merged by day) for a surgery. */
  method RecoveryMilestones(treatmentType: string) returns (milestones: seq<Milestone>)
    ensures |milestones| in {4, 6} && milestones[..4] == BaseMilestones
    ensures Contains(Lower(treatmentType), "surgery") ==> milestones == BaseMilestones + SurgeryMilestones
    ensures !Contains(Lower(treatmentType), "surgery") ==> milestones == BaseMilestones
    ensures forall m :: m in milestones ==> m.status == "pending" && 1 <= m.day <= 14
    ensures SortedByDay(milestones) <==> !Contains(Lower(treatmentType), "surgery")
  {
    milestones := BaseMilestones;
    if Contains(Lower(treatmentType), "surgery") {
      milestones := milestones + SurgeryMilestones;
      assert milestones[3].day > milestones[4].day;
    }
  }

  const BaseIndicators: seq<string> := ["Normal appetite", "Active behavior", "No signs of pain", "Normal vital signs"]
  const SurgeryIndicators: seq<string> := ["Incision healing well", "No signs of infection", "Good mobility"]
  const RespiratoryIndicators: seq<string> := ["Normal breathing pattern", "Good oxygen saturation", "No coughing"]

  /** `get_recovery_indicators` */
  method RecoveryIndicators(treatmentType: string) returns (indicators: seq<string>)
    ensures var t := Lower(treatmentType);
      indicators == BaseIndicators + (if Contains(t, "surgery") then SurgeryIndicators else [])
                                   + (if Contains(t, "respiratory") then RespiratoryIndicators else [])
    ensures |indicators| in {4, 7, 10} && indicators[..4] == BaseIndicators
    ensures forall i, j :: 0 <= i < j < |indicators| ==> indicators[i] != indicators[j]
  {
    indicators := BaseIndicators;
    var t := Lower(treatmentType);
    if Contains(t, "surgery") {
      indicators := indicators + SurgeryIndicators;
    }
    if Contains(t, "respiratory") {
      indicators := indicators + RespiratoryIndicators;
    }
  }

  datatype FollowUp = FollowUp(kind: string, scheduledAt: int)

  /** The follow-up checks after completion: two hours, one day and one
      week later, in that order. */
  function FollowUpChecks(completedAt: int): (r: seq<FollowUp>)
    ensures |r| == 3
    ensures r[0].scheduledAt == completedAt + 7200000
    ensures r[1].scheduledAt == completedAt + 86400000
    ensures r[2].scheduledAt == completedAt + 604800000
    ensures forall i, j :: 0 <= i < j < 3 ==> r[i].scheduledAt < r[j].scheduledAt
  {
    [FollowUp("immediate", completedAt + 2 * 60 * 60 * 1000),
     FollowUp("daily", completedAt + 24 * 60 * 60 * 1000),
     FollowUp("weekly", completedAt + 7 * 24 * 60 * 60 * 1000)]
  }

  datatype RecoveryPlan = RecoveryPlan(
    petId: string,
    treatmentType: string,
    startedAt: int,
    expectedRecoveryTime: string,
    monitoringSchedule: seq<Check>,
    milestones: seq<Milestone>,
    currentPhase: string)

  datatype FollowUpSchedule = FollowUpSchedule(
    petId: string,
    treatmentCompletedAt: int,
    followUpChecks: seq<FollowUp>,
    recoveryIndicators: seq<string>,
    readyForDischarge: bool)

  datatype MonitorOutcome =
    | PetNotFound
    | PlanCreated(plan: RecoveryPlan)
    | FollowUpScheduled(schedule: FollowUpSchedule)
    /** An exception raised while building the plan or the schedule, caught
        by the handler: nothing is emitted. */
    | Failed
    | NothingToDo

  /** `input_data.get('treatmentType', 'general')` as the string the
      builders lower-case: an absent key is "general", a string is itself,
      and any other value (null included) has no `.lower()`. */
  function TreatmentKind(treatmentType: Option<Json>): (k: Option<string>)
    ensures treatmentType.None? ==> k == Some("general")
    ensures treatmentType.Some? ==> (k.Some? <==> treatmentType.value.JStr?)
    ensures treatmentType.Some? && k.Some? ==> treatmentType.value == JStr(k.value)
  {
    if treatmentType.None? then Some("general")
    else if treatmentType.value.JStr? then Some(treatmentType.value.s)
    else None
  }

  /** The handler: an unknown pet is reported; a started treatment gets a
      plan, a completed one a follow-up schedule, any other status nothing.
      A treatment type that is not a string makes both builders raise. */
  method Monitor(store: PetStore, petId: string, treatmentType: Option<Json>, treatmentStatus: Option<string>, now: int)
    returns (r: MonitorOutcome)
    ensures petId !in store.pets <==> r == PetNotFound
    ensures r == Failed <==>
      petId in store.pets && treatmentStatus in {Some("started"), Some("completed")} && TreatmentKind(treatmentType).None?
    ensures r.PlanCreated? <==>
      petId in store.pets && treatmentStatus == Some("started") && TreatmentKind(treatmentType).Some?
    ensures r.FollowUpScheduled? <==>
      petId in store.pets && treatmentStatus == Some("completed") && TreatmentKind(treatmentType).Some?
    ensures r.PlanCreated? ==>
      var t := Lower(r.plan.treatmentType);
      && r.plan.petId == petId && r.plan.startedAt == now && r.plan.currentPhase == "initial_treatment"
      && Some(r.plan.treatmentType) == TreatmentKind(treatmentType)
      && r.plan.expectedRecoveryTime == ExpectedRecoveryTime(r.plan.treatmentType)
      && r.plan.monitoringSchedule == BaseSchedule + (if Contains(t, "surgery") then SurgeryChecks else [])
                                                   + (if Contains(t, "respiratory") then RespiratoryChecks else [])
      && r.plan.milestones == BaseMilestones + (if Contains(t, "surgery") then SurgeryMilestones else [])
    ensures r.FollowUpScheduled? ==>
      var t := Lower(TreatmentKind(treatmentType).value);
      && r.schedule.petId == petId && r.schedule.treatmentCompletedAt == now
      && r.schedule.followUpChecks == FollowUpChecks(now) && !r.schedule.readyForDischarge
      && r.schedule.recoveryIndicators == BaseIndicators + (if Contains(t, "surgery") then SurgeryIndicators else [])
                                                         + (if Contains(t, "respiratory") then RespiratoryIndicators else [])
  {
    var pet := store.Get(petId);
    if pet.None? {
      return PetNotFound;
    }
    if treatmentStatus != Some("started") && treatmentStatus != Some("completed") {
      return NothingToDo;
    }
    var kind := TreatmentKind(treatmentType);
    if kind.None? {
      return Failed;
    }
    if treatmentStatus == Some("started") {
      var schedule := MonitoringSchedule(kind.value);
      var milestones := RecoveryMilestones(kind.value);
      r := PlanCreated(RecoveryPlan(petId, kind.value, now, ExpectedRecoveryTime(kind.value), schedule, milestones, "initial_treatment"));
    } else {
      var indicators := RecoveryIndicators(kind.value);
      r := FollowUpScheduled(FollowUpSchedule(petId, now, FollowUpChecks(now), indicators, false));
    }
  }
}
