/** The pet lifecycle orchestrator: a table of transition rules keyed by
    event and current status, guards on some rules, an idempotency check,
    flag actions, and the follow-up events and automatic progressions a
    completed transition triggers (as written, the follow-up events are
    never sent; see `HandleResultAsWritten`). Logging, the event bus and the delayed
    task are left out; the clock is a parameter. */
module PetLifecycle {
  import opened Common
  import opened Text
  import opened PetTypes
  import opened PetStore

  /** The events the orchestrator subscribes to, without their "py."
      prefix. */
  datatype Topic =
    | FeedingReminderCompleted
    | StatusUpdate
    | TreatmentRequired
    | NoTreatmentNeeded
    | NeedsData
    | AdoptionReady

  function TopicName(t: Topic): string {
    match t
    case FeedingReminderCompleted => "feeding.reminder.completed"
    case StatusUpdate => "status.update.requested"
    case TreatmentRequired => "health.treatment_required"
    case NoTreatmentNeeded => "health.no_treatment_needed"
    case NeedsData => "adoption.needs_data"
    case AdoptionReady => "adoption.ready"
  }

  /** The topic an event string names, if any. */
  function ParseTopic(s: string): (r: Option<Topic>)
    ensures r.Some? ==> TopicName(r.value) == s
  {
    if s == "feeding.reminder.completed" then Some(FeedingReminderCompleted)
    else if s == "status.update.requested" then Some(StatusUpdate)
    else if s == "health.treatment_required" then Some(TreatmentRequired)
    else if s == "health.no_treatment_needed" then Some(NoTreatmentNeeded)
    else if s == "adoption.needs_data" then Some(NeedsData)
    else if s == "adoption.ready" then Some(AdoptionReady)
    else None
  }

  lemma ParseTopicName(t: Topic)
    ensures ParseTopic(TopicName(t)) == Some(t)
  {
  }

  /** The guard names `check_guards` knows, and any other name. */
  datatype Guard = MustBeHealthy | NoNeedsDataFlag | UnknownGuard(name: string)

  datatype FlagAction = Add(flag: string) | Remove(flag: string)

  datatype Rule = Rule(
    from: seq<Status>,
    to: Status,
    event: Topic,
    guards: seq<Guard>,
    flagAction: Option<FlagAction>)

  /** The number of entries of `TRANSITION_RULES`. */
  const RuleCount: nat := 14

  /** Entry `k` of `TRANSITION_RULES`, in table order (the descriptions,
      which only go to the log and the completion event, are left out). */
  function RuleAt(k: nat): Rule
    requires k < RuleCount
  {
    match k
    case 0 => Rule([New], InQuarantine, FeedingReminderCompleted, [], None)
    case 1 => Rule([InQuarantine], Healthy, StatusUpdate, [], None)
    case 2 => Rule([Healthy, InQuarantine, Available], Ill, StatusUpdate, [], None)
    case 3 => Rule([Healthy], Available, StatusUpdate, [], None)
    case 4 => Rule([Ill], UnderTreatment, StatusUpdate, [], None)
    case 5 => Rule([UnderTreatment, Ill], Recovered, StatusUpdate, [], None)
    case 6 => Rule([Recovered, New], Healthy, StatusUpdate, [], None)
    case 7 => Rule([Available], PendingAdoption, StatusUpdate, [], None)
    case 8 => Rule([PendingAdoption], Adopted, StatusUpdate, [], None)
    case 9 => Rule([PendingAdoption], Available, StatusUpdate, [], None)
    case 10 => Rule([Healthy, InQuarantine], Ill, TreatmentRequired, [], None)
    case 11 => Rule([Healthy, InQuarantine], Healthy, NoTreatmentNeeded, [], None)
    case 12 => Rule([Healthy], Healthy, NeedsData, [], Some(Add("needs_data")))
    case _ => Rule([Healthy], Available, AdoptionReady, [NoNeedsDataFlag], None)
  }

  predicate InTable(rule: Rule) {
    exists k :: 0 <= k < RuleCount && RuleAt(k) == rule
  }

  /** Neither "adopted" nor "deleted" is the source of any rule, so both are
      terminal for the orchestrator; only the adoption.ready rule has a
      guard and only the adoption.needs_data rule a flag action. */
  lemma TableShape()
    ensures forall k :: 0 <= k < RuleCount ==> Adopted !in RuleAt(k).from && Deleted !in RuleAt(k).from
    ensures forall k :: 0 <= k < RuleCount ==> (RuleAt(k).guards != [] <==> RuleAt(k).event == AdoptionReady)
    ensures forall k :: 0 <= k < RuleCount ==> (RuleAt(k).flagAction.Some? <==> RuleAt(k).event == NeedsData)
  {
  }

  // Guards

  /** Why one guard fails for `pet`, if it does. */
  function GuardFailure(pet: Pet, guard: Guard): (reason: Option<string>)
    ensures guard == MustBeHealthy ==> (reason.None? <==> pet.status == Healthy)
    ensures guard == NoNeedsDataFlag ==> (reason.None? <==> "needs_data" !in pet.flags)
    ensures guard.UnknownGuard? ==> reason.Some?
  {
    match guard
    case MustBeHealthy =>
      if pet.status != Healthy then Some("Pet must be healthy (current: " + StatusName(pet.status) + ")") else None
    case NoNeedsDataFlag =>
      if "needs_data" in pet.flags then Some(NeedsDataBlocking) else None
    case UnknownGuard(name) => Some("Unknown guard: " + name)
  }

  /** Index of the first failing guard, or the number of guards when all
      pass. */
  function FirstFailingGuard(pet: Pet, guards: seq<Guard>): (i: nat)
    ensures i <= |guards|
    ensures forall j :: 0 <= j < i ==> GuardFailure(pet, guards[j]).None?
    ensures i < |guards| ==> GuardFailure(pet, guards[i]).Some?
  {
    if guards == [] then 0
    else if GuardFailure(pet, guards[0]).Some? then 0
    else 1 + FirstFailingGuard(pet, guards[1..])
  }

  datatype GuardResult = Passed | Failed(reason: string)

  function GuardsVerdict(pet: Pet, guards: seq<Guard>): GuardResult {
    var i := FirstFailingGuard(pet, guards);
    if i < |guards| then Failed(GuardFailure(pet, guards[i]).value) else Passed
  }

  /** `check_guards`: passes exactly when every guard passes, and otherwise
      reports the first failing one. */
  method CheckGuards(pet: Pet, guards: seq<Guard>) returns (r: GuardResult)
    ensures r == GuardsVerdict(pet, guards)
    ensures r.Passed? <==> forall j :: 0 <= j < |guards| ==> GuardFailure(pet, guards[j]).None?
  {
    for i := 0 to |guards|
      invariant forall j :: 0 <= j < i ==> GuardFailure(pet, guards[j]).None?
    {
      var failure := GuardFailure(pet, guards[i]);
      if failure.Some? {
        FirstFailingGuardIs(pet, guards, i);
        return Failed(failure.value);
      }
    }
    FirstFailingGuardIs(pet, guards, |guards|);
    r := Passed;
  }

  /** The first-failure index is determined by its two defining properties. */
  lemma {:induction false} FirstFailingGuardIs(pet: Pet, guards: seq<Guard>, i: nat)
    requires i <= |guards|
    requires forall j :: 0 <= j < i ==> GuardFailure(pet, guards[j]).None?
    requires i < |guards| ==> GuardFailure(pet, guards[i]).Some?
    ensures FirstFailingGuard(pet, guards) == i
  {
    if i > 0 {
      assert GuardFailure(pet, guards[0]).None?;
      forall j | 0 <= j < i - 1 ensures GuardFailure(pet, guards[1..][j]).None? {
        assert guards[1..][j] == guards[j + 1];
      }
      if i - 1 < |guards| - 1 {
        assert guards[1..][i - 1] == guards[i];
      }
      FirstFailingGuardIs(pet, guards[1..], i - 1);
    }
  }

  // Rule lookup

  /** The topic of the incoming event, if it is one the table knows. */
  function TopicOf(event: Option<string>): (t: Option<Topic>)
    ensures t.Some? ==> event == Some(TopicName(t.value))
  {
    if event.Some? then ParseTopic(event.value) else None
  }

  /** A status-update request that names a status is matched on its target
      as well; any other event only on event and current status. */
  predicate ByRequest(event: Option<string>, requested: Option<string>) {
    TopicOf(event) == Some(StatusUpdate) && requested.Some? && requested.value != ""
  }

  /** The status a request names, if it names one. */
  function TargetOf(requested: Option<string>): (s: Option<Status>)
    ensures s.Some? ==> requested == Some(StatusName(s.value))
  {
    if requested.Some? then ParseStatus(requested.value) else None
  }

  /** A query against the table: the event's topic, whether the target
      must match too, and the target asked for. */
  datatype Query = Query(topic: Option<Topic>, byRequest: bool, target: Option<Status>)

  function QueryOf(event: Option<string>, requested: Option<string>): Query {
    Query(TopicOf(event), ByRequest(event, requested), TargetOf(requested))
  }

  predicate Matches(rule: Rule, status: Status, q: Query) {
    && q.topic == Some(rule.event)
    && status in rule.from
    && (q.byRequest ==> q.target == Some(rule.to))
  }

  /** Index of the first matching rule at or after `k`, or the number of
      rules when none matches. */
  function FirstMatchFrom(k: nat, status: Status, q: Query): (i: nat)
    requires k <= RuleCount
    ensures k <= i <= RuleCount
    ensures forall j :: k <= j < i ==> !Matches(RuleAt(j), status, q)
    ensures i < RuleCount ==> Matches(RuleAt(i), status, q)
    decreases RuleCount - k
  {
    if k == RuleCount then k
    else if Matches(RuleAt(k), status, q) then k
    else FirstMatchFrom(k + 1, status, q)
  }

  lemma {:induction false} FirstMatchFromIs(k: nat, status: Status, q: Query, i: nat)
    requires k <= i <= RuleCount
    requires forall j :: k <= j < i ==> !Matches(RuleAt(j), status, q)
    requires i < RuleCount ==> Matches(RuleAt(i), status, q)
    ensures FirstMatchFrom(k, status, q) == i
    decreases i - k
  {
    if k < i {
      FirstMatchFromIs(k + 1, status, q, i);
    }
  }

  /** The rule the handler picks: the first match in table order. */
  function SelectRule(status: Status, q: Query): (r: Option<Rule>)
    ensures r.Some? ==> InTable(r.value) && Matches(r.value, status, q)
    ensures r.None? <==> forall j :: 0 <= j < RuleCount ==> !Matches(RuleAt(j), status, q)
  {
    var i := FirstMatchFrom(0, status, q);
    if i < RuleCount then Some(RuleAt(i)) else None
  }

  /** The rule at index `i` is selected when it matches and no earlier one
      does. */
  lemma SelectsRule(status: Status, q: Query, i: nat)
    requires i < RuleCount && Matches(RuleAt(i), status, q)
    requires forall j :: 0 <= j < i ==> !Matches(RuleAt(j), status, q)
    ensures SelectRule(status, q) == Some(RuleAt(i))
  {
    FirstMatchFromIs(0, status, q, i);
  }

  /** The handler's search loop over the table, stopping at the first
      match. */
  method FindRule(status: Status, q: Query) returns (rule: Option<Rule>)
    ensures rule == SelectRule(status, q)
  {
    var i := 0;
    while i < RuleCount
      invariant 0 <= i <= RuleCount
      invariant forall j :: 0 <= j < i ==> !Matches(RuleAt(j), status, q)
      decreases RuleCount - i
    {
      if Matches(RuleAt(i), status, q) {
        SelectsRule(status, q, i);
        return Some(RuleAt(i));
      }
      i := i + 1;
    }
    rule := None;
  }

  /** A status-update request is only ever granted as asked: the rule
      chosen for it is a status-update rule leading to the requested
      status. */
  lemma RequestGetsRequestedStatus(status: Status, event: Option<string>, requested: Option<string>)
    requires ByRequest(event, requested)
    ensures var r := SelectRule(status, QueryOf(event, requested));
      r.Some? ==> requested == Some(StatusName(r.value.to)) && r.value.event == StatusUpdate
  {
  }

  /** No rule leaves a terminal status. */
  lemma TerminalHasNoRule(status: Status, q: Query)
    requires status == Adopted || status == Deleted
    ensures SelectRule(status, q).None?
  {
    TableShape();
  }

  // Decision and effect

  function OptionText(o: Option<string>): string {
    if o.Some? then o.value else "None"
  }

  /** The reason given when no rule matches. */
  function NoRuleReason(status: Status, event: Option<string>, requested: Option<string>): string {
    if TopicOf(event) == Some(StatusUpdate)
    then "Invalid transition: cannot change from " + StatusName(status) + " to " + OptionText(requested)
    else "No transition rule found for " + OptionText(event) + " from " + StatusName(status)
  }

  datatype Decision =
    | NoRule(reason: string)
    | Blocked(reason: string)
    | Idle
    | Apply(rule: Rule)

  /** What the handler decides for a stored pet: reject when no rule
      matches, block when a guard fails, do nothing when the pet is already
      in the target status and the rule has no flag action, and otherwise
      apply the rule. */
  function Decide(pet: Pet, event: Option<string>, requested: Option<string>): (d: Decision)
    ensures d.NoRule? <==> SelectRule(pet.status, QueryOf(event, requested)).None?
    ensures d.Apply? ==> d.rule == SelectRule(pet.status, QueryOf(event, requested)).value
    ensures d.Apply? ==> InTable(d.rule) && Matches(d.rule, pet.status, QueryOf(event, requested))
    ensures d.Apply? ==> forall j :: 0 <= j < |d.rule.guards| ==> GuardFailure(pet, d.rule.guards[j]).None?
    ensures d.Apply? ==> pet.status != d.rule.to || d.rule.flagAction.Some?
  {
    var rule := SelectRule(pet.status, QueryOf(event, requested));
    if rule.None? then NoRule(NoRuleReason(pet.status, event, requested))
    else
      var verdict := GuardsVerdict(pet, rule.value.guards);
      if verdict.Failed? then Blocked(verdict.reason)
      else if pet.status == rule.value.to && rule.value.flagAction.None? then Idle
      else Apply(rule.value)
  }

  /** The pet after a rule is applied: the new status, then the flag
      action; nothing else changes. */
  function Applied(pet: Pet, rule: Rule, now: int): (r: Pet)
    ensures r.status == rule.to && r.updatedAt == now
    ensures rule.flagAction.None? ==> r.flags == pet.flags
    ensures rule.flagAction.Some? && rule.flagAction.value.Add? ==> r.flags == pet.flags + {rule.flagAction.value.flag}
    ensures rule.flagAction.Some? && rule.flagAction.value.Remove? ==> r.flags == pet.flags - {rule.flagAction.value.flag}
    ensures r.(status := pet.status, flags := pet.flags, updatedAt := pet.updatedAt) == pet
  {
    var moved := WithStatus(pet, rule.to, now);
    if rule.flagAction.None? then moved
    else
      match rule.flagAction.value
      case Add(flag) => WithFlagAdded(moved, flag, now)
      case Remove(flag) => WithFlagRemoved(moved, flag, now)
  }

  /** The follow-up topic `emit_next_action_events` picks; it depends only
      on the old and new status. */
  function NextActionTopic(newStatus: Status, oldStatus: Status): (topic: Option<string>)
    ensures topic.Some? <==>
      || (newStatus == UnderTreatment && oldStatus == Ill)
      || (newStatus == Available && oldStatus == Healthy)
      || (newStatus == Recovered && oldStatus == UnderTreatment)
      || (newStatus == Healthy && oldStatus == Recovered)
    ensures newStatus == UnderTreatment && oldStatus == Ill ==> topic == Some("py.treatment.required")
    ensures newStatus == Available && oldStatus == Healthy ==> topic == Some("py.adoption.ready")
    ensures newStatus == Recovered && oldStatus == UnderTreatment ==> topic == Some("py.treatment.completed")
    ensures newStatus == Healthy && oldStatus == Recovered ==> topic == Some("py.health.restored")
  {
    if newStatus == UnderTreatment && oldStatus == Ill then Some("py.treatment.required")
    else if newStatus == Available && oldStatus == Healthy then Some("py.adoption.ready")
    else if newStatus == Recovered && oldStatus == UnderTreatment then Some("py.treatment.completed")
    else if newStatus == Healthy && oldStatus == Recovered then Some("py.health.restored")
    else None
  }

  /** The `automatic_progressions` map. */
  function AutoProgression(status: Status): (next: Option<Status>)
    ensures next.Some? <==> status == Healthy || status == Ill || status == Recovered
    ensures next.Some? ==> next.value != status
  {
    match status
    case Healthy => Some(Available)
    case Ill => Some(UnderTreatment)
    case Recovered => Some(Healthy)
    case _ => None
  }

  /** The delayed progression request is sent only when the re-read pet
      still has the status it was scheduled from. */
  predicate ProgressionFires(scheduledFrom: Status, reread: Option<Pet>) {
    AutoProgression(scheduledFrom).Some? && reread.Some? && reread.value.status == scheduledFrom
  }

  /** Every automatic progression is itself a transition of the table,
      reached by a status-update request naming the target, without guards
      or flag actions: when it fires, the orchestrator applies it. */
  lemma AutoProgressionIsTableMove(pet: Pet, event: Option<string>, requested: Option<string>)
    requires ProgressionFires(pet.status, Some(pet))
    requires ByRequest(event, requested) && TargetOf(requested) == AutoProgression(pet.status)
    ensures var d := Decide(pet, event, requested);
      d.Apply? && d.rule.to == AutoProgression(pet.status).value && d.rule.guards == [] && d.rule.flagAction.None?
  {
    var q := QueryOf(event, requested);
    if pet.status == Healthy {
      SelectsRule(pet.status, q, 3);
    } else if pet.status == Ill {
      SelectsRule(pet.status, q, 4);
    } else {
      SelectsRule(pet.status, q, 6);
    }
  }

  datatype Outcome =
    | PetNotFound
    | Rejected(reason: string)
    | AlreadyInStatus
    | Transitioned(oldStatus: Status, newStatus: Status, nextAction: Option<string>, progression: Option<Status>)
    | Crashed(error: string)

  /** The handler's outcome and the new table, with the flag action carried
      out. */
  function HandleResult(pets: map<string, Pet>, petId: Option<string>, event: Option<string>, requested: Option<string>, now: int)
    : (r: (Outcome, map<string, Pet>))
    ensures petId.None? || petId.value !in pets ==> r == (PetNotFound, pets)
    ensures r.1.Keys == pets.Keys
    ensures r.0.Transitioned? ==> petId.Some? && petId.value in pets && r.1.Keys == pets.Keys
    ensures !r.0.Transitioned? ==> r.1 == pets
  {
    if petId.None? || petId.value !in pets then (PetNotFound, pets)
    else
      var pet := pets[petId.value];
      match Decide(pet, event, requested)
      case NoRule(reason) => (Rejected(reason), pets)
      case Blocked(reason) => (Rejected("Guard check failed: " + reason), pets)
      case Idle => (AlreadyInStatus, pets)
      case Apply(rule) =>
        (Transitioned(pet.status, rule.to, NextActionTopic(rule.to, pet.status), AutoProgression(rule.to)),
         pets[petId.value := Applied(pet, rule, now)])
  }

  const MissingAddFlag: string := "module 'services.pet_store' has no attribute 'add_flag'"
  const MissingRemoveFlag: string := "module 'services.pet_store' has no attribute 'remove_flag'"

  /** The handler as written: the status is written, but the store has no
      flag operations, so a rule with a flag action raises after the write;
      the error is caught, and no flag is set and nothing further is
      emitted. Without a flag action the transition completes, but
      `emit_next_action_events` reads the module-level name `time`, which
      only the handler imports (locally), so it raises before emitting and
      swallows the error: no follow-up topic is ever sent, while the
      automatic progression still is. */
  function HandleResultAsWritten(pets: map<string, Pet>, petId: Option<string>, event: Option<string>, requested: Option<string>, now: int)
    : (r: (Outcome, map<string, Pet>))
    ensures petId.None? || petId.value !in pets ==> r == (PetNotFound, pets)
    ensures r.1.Keys == pets.Keys
    ensures forall k :: k in r.1 ==> r.1[k].flags == pets[k].flags
    ensures r.0.Transitioned? ==> r.0.nextAction.None?
  {
    if petId.None? || petId.value !in pets then (PetNotFound, pets)
    else
      var pet := pets[petId.value];
      match Decide(pet, event, requested)
      case NoRule(reason) => (Rejected(reason), pets)
      case Blocked(reason) => (Rejected("Guard check failed: " + reason), pets)
      case Idle => (AlreadyInStatus, pets)
      case Apply(rule) =>
        var moved := pets[petId.value := WithStatus(pet, rule.to, now)];
        if rule.flagAction.None? then
          (Transitioned(pet.status, rule.to, None, AutoProgression(rule.to)), moved)
        else if rule.flagAction.value.Add? then (Crashed(MissingAddFlag), moved)
        else (Crashed(MissingRemoveFlag), moved)
  }

  /** The handler's checks on a stored pet: the rule search, the guards
      (only when the rule has any) and the idempotency check. */
  method Evaluate(pet: Pet, event: Option<string>, requested: Option<string>) returns (d: Decision)
    ensures d == Decide(pet, event, requested)
  {
    var rule := FindRule(pet.status, QueryOf(event, requested));
    if rule.None? {
      return NoRule(NoRuleReason(pet.status, event, requested));
    }
    var r := rule.value;
    if r.guards != [] {
      var verdict := CheckGuards(pet, r.guards);
      if verdict.Failed? {
        return Blocked(verdict.reason);
      }
    } else {
      assert FirstFailingGuard(pet, r.guards) == 0;
    }
    if pet.status == r.to && r.flagAction.None? {
      return Idle;
    }
    d := Apply(r);
  }

  /** A rule's flag action, carried out by the store on a stored pet. */
  method ApplyFlagAction(store: PetStore, id: string, action: FlagAction, now: int)
    requires store.Valid() && id in store.pets
    modifies store
    ensures store.Valid() && store.nextId == old(store.nextId)
    ensures store.pets == old(store.pets)[id :=
      if action.Add? then WithFlagAdded(old(store.pets)[id], action.flag, now)
      else WithFlagRemoved(old(store.pets)[id], action.flag, now)]
  {
    var updated;
    match action
    case Add(flag) =>
      updated := store.AddFlag(id, flag, now);
    case Remove(flag) =>
      updated := store.RemoveFlag(id, flag, now);
  }

  /** Applying a rule to a stored pet: the status is written, then the
      flag action is carried out. */
  method Transition(store: PetStore, id: string, r: Rule, now: int)
    requires store.Valid() && id in store.pets
    modifies store
    ensures store.Valid() && store.nextId == old(store.nextId)
    ensures store.pets == old(store.pets)[id := Applied(old(store.pets)[id], r, now)]
  {
    ghost var before := store.pets;
    var updated := store.UpdateStatus(id, r.to, now);
    ghost var moved := WithStatus(before[id], r.to, now);
    assert store.pets == before[id := moved];
    if r.flagAction.Some? {
      ApplyFlagAction(store, id, r.flagAction.value, now);
    }
  }

  /** The handler, with the flag action carried out by the store. */
  method Handle(store: PetStore, petId: Option<string>, event: Option<string>, requested: Option<string>, now: int)
    returns (outcome: Outcome)
    requires store.Valid()
    modifies store
    ensures store.Valid() && store.nextId == old(store.nextId)
    ensures (outcome, store.pets) == HandleResult(old(store.pets), petId, event, requested, now)
  {
    if petId.None? {
      return PetNotFound;
    }
    var id := petId.value;
    var found := store.Get(id);
    if found.None? {
      return PetNotFound;
    }
    var pet := found.value;
    var decision := Evaluate(pet, event, requested);
    match decision
    case NoRule(reason) =>
      outcome := Rejected(reason);
    case Blocked(reason) =>
      outcome := Rejected("Guard check failed: " + reason);
    case Idle =>
      outcome := AlreadyInStatus;
    case Apply(r) =>
      Transition(store, id, r, now);
      outcome := Transitioned(pet.status, r.to, NextActionTopic(r.to, pet.status), AutoProgression(r.to));
  }

  // Properties of the orchestrator

  /** adoption.ready on a healthy pet carrying the needs_data flag is
      blocked by the rule's guard. */
  lemma AdoptionReadyBlocked(pet: Pet, event: Option<string>, requested: Option<string>)
    requires pet.status == Healthy && "needs_data" in pet.flags
    requires TopicOf(event) == Some(AdoptionReady)
    ensures Decide(pet, event, requested) == Blocked(NeedsDataBlocking)
  {
    SelectsRule(Healthy, QueryOf(event, requested), 13);
    assert FirstFailingGuard(pet, [NoNeedsDataFlag]) == 0;
  }

  /** adoption.ready has no rule for a pet that is not healthy. */
  lemma AdoptionReadyNeedsHealthy(pet: Pet, event: Option<string>, requested: Option<string>)
    requires pet.status != Healthy
    requires TopicOf(event) == Some(AdoptionReady)
    ensures Decide(pet, event, requested).NoRule?
  {
  }

  /** A guard failure changes nothing: adoption.ready never makes a pet
      carrying the needs_data flag available. */
  lemma NeedsDataBlocksAdoptionReady(pets: map<string, Pet>, id: string, event: Option<string>, requested: Option<string>, now: int)
    requires id in pets && "needs_data" in pets[id].flags
    requires TopicOf(event) == Some(AdoptionReady)
    ensures var r := HandleResult(pets, Some(id), event, requested, now);
      r.1 == pets && r.0.Rejected?
  {
    if pets[id].status == Healthy {
      AdoptionReadyBlocked(pets[id], event, requested);
    } else {
      AdoptionReadyNeedsHealthy(pets[id], event, requested);
    }
  }

  /** adoption.needs_data on a healthy pet applies the rule that keeps it
      healthy and adds the flag. */
  lemma NeedsDataDecision(pet: Pet, event: Option<string>, requested: Option<string>)
    requires pet.status == Healthy
    requires TopicOf(event) == Some(NeedsData)
    ensures Decide(pet, event, requested) == Apply(RuleAt(12))
    ensures RuleAt(12) == Rule([Healthy], Healthy, NeedsData, [], Some(Add("needs_data")))
  {
    SelectsRule(Healthy, QueryOf(event, requested), 12);
  }

  /** adoption.ready on a healthy pet without the needs_data flag applies
      the rule to available. */
  lemma AdoptionReadyApplies(pet: Pet, event: Option<string>, requested: Option<string>)
    requires pet.status == Healthy && "needs_data" !in pet.flags
    requires TopicOf(event) == Some(AdoptionReady)
    ensures Decide(pet, event, requested) == Apply(RuleAt(13))
    ensures RuleAt(13) == Rule([Healthy], Available, AdoptionReady, [NoNeedsDataFlag], None)
  {
    SelectsRule(Healthy, QueryOf(event, requested), 13);
    assert FirstFailingGuard(pet, [NoNeedsDataFlag]) == 1;
  }

  /** adoption.needs_data keeps a healthy pet healthy while adding the
      needs_data flag, and schedules the progression to available. */
  lemma NeedsDataFlagsHealthyPet(pets: map<string, Pet>, id: string, event: Option<string>, requested: Option<string>, now: int)
    requires id in pets && pets[id].status == Healthy
    requires TopicOf(event) == Some(NeedsData)
    ensures var r := HandleResult(pets, Some(id), event, requested, now);
      && r.0 == Transitioned(Healthy, Healthy, None, Some(Available))
      && r.1[id].status == Healthy && r.1[id].flags == pets[id].flags + {"needs_data"}
  {
    NeedsDataDecision(pets[id], event, requested);
  }

  /** Idempotency: an event whose rule targets the current status and has
      no flag action changes nothing (health.no_treatment_needed on a
      healthy pet). */
  lemma NoTreatmentNeededIsIdempotent(pets: map<string, Pet>, id: string, event: Option<string>, requested: Option<string>, now: int)
    requires id in pets && pets[id].status == Healthy
    requires TopicOf(event) == Some(NoTreatmentNeeded)
    ensures HandleResult(pets, Some(id), event, requested, now) == (AlreadyInStatus, pets)
  {
    SelectsRule(Healthy, QueryOf(event, requested), 11);
  }

  /** Every state change the orchestrator makes is a move of the table:
      from a status the rule lists to its target, for the event given, and
      to the requested status when a status is requested. */
  lemma TransitionsFollowTable(pets: map<string, Pet>, id: string, event: Option<string>, requested: Option<string>, now: int)
    requires id in pets
    ensures var r := HandleResult(pets, Some(id), event, requested, now);
      r.0.Transitioned? ==>
        && r.1[id].status == r.0.newStatus
        && (exists k :: 0 <= k < RuleCount && RuleAt(k).to == r.0.newStatus && pets[id].status in RuleAt(k).from
                      && event == Some(TopicName(RuleAt(k).event)))
        && (ByRequest(event, requested) ==> requested == Some(StatusName(r.0.newStatus)))
  {
    var r := HandleResult(pets, Some(id), event, requested, now);
    if r.0.Transitioned? {
      var k := FirstMatchFrom(0, pets[id].status, QueryOf(event, requested));
      assert RuleAt(k).to == r.0.newStatus;
    }
  }

  /** A stored pet in a terminal status is never changed. */
  lemma TerminalPetsUnchanged(pets: map<string, Pet>, id: string, event: Option<string>, requested: Option<string>, now: int)
    requires id in pets && (pets[id].status == Adopted || pets[id].status == Deleted)
    ensures HandleResult(pets, Some(id), event, requested, now) == (Rejected(NoRuleReason(pets[id].status, event, requested)), pets)
  {
    TerminalHasNoRule(pets[id].status, QueryOf(event, requested));
  }

  /** The handler as written and the corrected one change the same pets to
      the same statuses; their outcomes differ only where the written one
      crashes on a flag action, or in the follow-up topic it fails to send. */
  lemma AsWrittenAgreesOnStatus(pets: map<string, Pet>, petId: Option<string>, event: Option<string>, requested: Option<string>, now: int)
    ensures var fixed := HandleResult(pets, petId, event, requested, now);
      var asWritten := HandleResultAsWritten(pets, petId, event, requested, now);
      && (forall k :: k in fixed.1 ==> k in asWritten.1 && fixed.1[k].status == asWritten.1[k].status)
      && (asWritten.0.Transitioned? ==>
            fixed.0 == asWritten.0.(nextAction := NextActionTopic(asWritten.0.newStatus, asWritten.0.oldStatus)))
      && (fixed.0 != asWritten.0 && !asWritten.0.Transitioned? ==> asWritten.0.Crashed?)
  {
    if petId.Some? && petId.value in pets {
      var pet := pets[petId.value];
      var d := Decide(pet, event, requested);
      if d.Apply? {
        var fixed := HandleResult(pets, petId, event, requested, now);
        var asWritten := HandleResultAsWritten(pets, petId, event, requested, now);
        assert fixed.1 == pets[petId.value := Applied(pet, d.rule, now)];
        assert asWritten.1 == pets[petId.value := WithStatus(pet, d.rule.to, now)];
        assert Applied(pet, d.rule, now).status == d.rule.to;
      }
    }
  }

  const NeedsDataBlocking: string := "Pet has needs_data flag blocking adoption"

  /** The defect as written: after adoption.needs_data the flag is missing,
      so a following adoption.ready makes the pet available. */
  lemma AsWrittenAdoptionReadyIgnoresNeedsData(pet: Pet, first: Option<string>, second: Option<string>, now1: int, now2: int)
    requires pet.status == Healthy && pet.flags == {}
    requires TopicOf(first) == Some(NeedsData) && TopicOf(second) == Some(AdoptionReady)
    ensures var pets := map[pet.id := pet];
      var r1 := HandleResultAsWritten(pets, Some(pet.id), first, None, now1);
      var r2 := HandleResultAsWritten(r1.1, Some(pet.id), second, None, now2);
      && r1.0 == Crashed(MissingAddFlag)
      && r2.0.Transitioned? && r2.1[pet.id].status == Available
  {
    var pets := map[pet.id := pet];
    NeedsDataDecision(pet, first, None);
    var r1 := HandleResultAsWritten(pets, Some(pet.id), first, None, now1);
    assert r1.1 == map[pet.id := WithStatus(pet, Healthy, now1)];
    var p1 := r1.1[pet.id];
    assert p1.status == Healthy && p1.flags == {};
    AdoptionReadyApplies(p1, second, None);
  }

  /** With the flag action carried out, the same two events leave the pet
      healthy and flagged, and adoption.ready is rejected. */
  lemma AdoptionReadyAfterNeedsDataIsRejected(pet: Pet, first: Option<string>, second: Option<string>, now1: int, now2: int)
    requires pet.status == Healthy
    requires TopicOf(first) == Some(NeedsData) && TopicOf(second) == Some(AdoptionReady)
    ensures var pets := map[pet.id := pet];
      var r1 := HandleResult(pets, Some(pet.id), first, None, now1);
      var r2 := HandleResult(r1.1, Some(pet.id), second, None, now2);
      && r2.0 == Rejected("Guard check failed: " + NeedsDataBlocking)
      && r2.1 == r1.1 && r2.1[pet.id].status == Healthy
  {
    var pets := map[pet.id := pet];
    NeedsDataFlagsHealthyPet(pets, pet.id, first, None, now1);
    var r1 := HandleResult(pets, Some(pet.id), first, None, now1);
    AdoptionReadyBlocked(r1.1[pet.id], second, None);
  }

  /** The follow-up defect as written: an ill pet moved to under_treatment
      is transitioned, but "py.treatment.required" is never sent. */
  lemma AsWrittenSendsNoFollowUp(pets: map<string, Pet>, id: string, event: Option<string>, requested: Option<string>, now: int)
    requires id in pets && pets[id].status == Ill
    requires ByRequest(event, requested) && TargetOf(requested) == Some(UnderTreatment)
    ensures HandleResultAsWritten(pets, Some(id), event, requested, now).0 == Transitioned(Ill, UnderTreatment, None, None)
  {
    AutoProgressionIsTableMove(pets[id], event, requested);
  }

  /** With the follow-up sent, the same request asks for treatment:
      "py.treatment.required" goes out with the transition. */
  lemma TreatmentStartSendsTreatmentRequired(pets: map<string, Pet>, id: string, event: Option<string>, requested: Option<string>, now: int)
    requires id in pets && pets[id].status == Ill
    requires ByRequest(event, requested) && TargetOf(requested) == Some(UnderTreatment)
    ensures HandleResult(pets, Some(id), event, requested, now).0
      == Transitioned(Ill, UnderTreatment, Some("py.treatment.required"), None)
  {
    AutoProgressionIsTableMove(pets[id], event, requested);
  }

  /** The guard is not universal: a staff request (or the automatic
      progression) to "available" has no guard, so a flagged healthy pet
      still becomes available that way. */
  lemma StatusRequestBypassesNeedsData(pets: map<string, Pet>, id: string, event: Option<string>, requested: Option<string>, now: int)
    requires id in pets && pets[id].status == Healthy && "needs_data" in pets[id].flags
    requires ByRequest(event, requested) && TargetOf(requested) == Some(Available)
    ensures var r := HandleResult(pets, Some(id), event, requested, now);
      r.0.Transitioned? && r.1[id].status == Available
  {
    AutoProgressionIsTableMove(pets[id], event, requested);
  }
}
