/** The PUT /py/pets/:id handler: a request that asks for a different
    status is validated and handed to the lifecycle orchestrator without
    writing anything; any other request patches the pet's plain fields.
    Logging and the emitted event are left out; the clock is a parameter. */
module UpdatePetStep {
  import opened Common
  import opened Text
  import opened PetTypes
  import opened PetStore
  import PetLifecycle

  /** The list the handler checks a requested status against. */
  const ValidStatuses: seq<string> := [
    "new", "in_quarantine", "healthy", "available", "pending",
    "adopted", "ill", "under_treatment", "recovered", "deleted"]

  /** The handler's list holds exactly the names of the `Status` values, so
      testing membership in it is parsing a status. */
  lemma ValidStatusesAreStatusNames(s: string)
    ensures s in ValidStatuses <==> ParseStatus(s).Some?
  {
    if ParseStatus(s).Some? {
      var st := ParseStatus(s).value;
      assert StatusName(st) in ValidStatuses;
    } else {
      forall st: Status ensures StatusName(st) != s {
        ParseStatusName(st);
      }
      assert s !in ValidStatuses by {
        forall i | 0 <= i < |ValidStatuses| ensures ValidStatuses[i] != s {
          assert ValidStatuses[i] in {StatusName(New), StatusName(InQuarantine), StatusName(Healthy),
            StatusName(Available), StatusName(PendingAdoption), StatusName(Adopted), StatusName(Ill),
            StatusName(UnderTreatment), StatusName(Recovered), StatusName(Deleted)};
        }
      }
    }
  }

  datatype Reply =
    | NotFound
    | InvalidStatus
    /** 202: the request is handed on; the pet is not written. */
    | StatusRequested(petId: string, currentStatus: Status, requestedStatus: Status)
    | Updated(pet: Pet)

  function StatusCode(r: Reply): (code: int)
    ensures code in {200, 202, 400, 404}
  {
    match r
    case NotFound => 404
    case InvalidStatus => 400
    case StatusRequested(_, _, _) => 202
    case Updated(_) => 200
  }

  /** `b.get(key)`, with JSON null for a missing key. */
  function Field(body: map<string, Json>, key: string): Json {
    if key in body then body[key] else JNull
  }

  /** The request takes the status path when it carries a truthy status
      that differs from the current one. */
  predicate AsksStatusChange(body: map<string, Json>, current: Status) {
    Truthy(Field(body, "status")) && Field(body, "status") != JStr(StatusName(current))
  }

  /** `isinstance(v, (int, float, str))`. */
  predicate IsNumberOrString(v: Json) {
    IsNumber(v) || v.JStr?
  }

  /** The patch the handler builds: a string name, a listed species, an
      age `int()` accepts (as an integer), a string note and a numeric next
      feeding time (truncated); every other key is dropped. */
  function PatchOf(body: map<string, Json>): (patch: Patch)
    ensures patch.name.Some? <==> Field(body, "name").JStr?
    ensures patch.name.Some? ==> patch.name.value == Field(body, "name")
    ensures patch.species.Some? <==> Field(body, "species").JStr? && ParseSpecies(Field(body, "species").s).Some?
    ensures patch.species.Some? ==> Field(body, "species") == JStr(SpeciesName(patch.species.value))
    ensures patch.ageMonths.Some? <==> IsNumberOrString(Field(body, "ageMonths")) && PyInt(Field(body, "ageMonths")).Some?
    ensures patch.ageMonths.Some? ==> patch.ageMonths.value == JInt(PyInt(Field(body, "ageMonths")).value)
    ensures patch.notes.Some? <==> Field(body, "notes").JStr?
    ensures patch.nextFeedingAt.Some? <==> IsNumber(Field(body, "nextFeedingAt"))
    ensures patch.nextFeedingAt.Some? ==> Some(patch.nextFeedingAt.value) == PyInt(Field(body, "nextFeedingAt"))
  {
    var name := Field(body, "name");
    var species := Field(body, "species");
    var age := Field(body, "ageMonths");
    var notes := Field(body, "notes");
    var feeding := Field(body, "nextFeedingAt");
    Patch(
      if name.JStr? then Some(name) else None,
      if species.JStr? then ParseSpecies(species.s) else None,
      if IsNumberOrString(age) && PyInt(age).Some? then Some(JInt(PyInt(age).value)) else None,
      if notes.JStr? then Some(notes.s) else None,
      if IsNumber(feeding) then Some(PyInt(feeding).value) else None)
  }

  /** The handler. */
  method UpdatePet(store: PetStore, petId: Option<string>, body: map<string, Json>, now: int) returns (reply: Reply)
    requires store.Valid()
    modifies store
    ensures store.Valid() && store.nextId == old(store.nextId)
    ensures petId.None? || petId.value !in old(store.pets) ==> reply == NotFound && store.pets == old(store.pets)
    ensures petId.Some? && petId.value in old(store.pets) && AsksStatusChange(body, old(store.pets)[petId.value].status) ==>
      && store.pets == old(store.pets)
      && reply == (
        var requested := Field(body, "status");
        if requested.JStr? && ParseStatus(requested.s).Some?
        then StatusRequested(petId.value, old(store.pets)[petId.value].status, ParseStatus(requested.s).value)
        else InvalidStatus)
    ensures petId.Some? && petId.value in old(store.pets) && !AsksStatusChange(body, old(store.pets)[petId.value].status) ==>
      && reply == Updated(Patched(old(store.pets)[petId.value], PatchOf(body), now))
      && store.pets == old(store.pets)[petId.value := reply.pet]
  {
    if petId.None? {
      return NotFound;
    }
    var id := petId.value;
    var current := store.Get(id);
    if current.None? {
      return NotFound;
    }
    var cur := current.value;
    var status := Field(body, "status");
    if Truthy(status) && status != JStr(StatusName(cur.status)) {
      if !status.JStr? {
        return InvalidStatus;
      }
      ValidStatusesAreStatusNames(status.s);
      if status.s !in ValidStatuses {
        return InvalidStatus;
      }
      return StatusRequested(id, cur.status, ParseStatus(status.s).value);
    }
    var patch := EmptyPatch;
    var name := Field(body, "name");
    if name.JStr? {
      patch := patch.(name := Some(name));
    }
    var species := Field(body, "species");
    if species.JStr? && ParseSpecies(species.s).Some? {
      patch := patch.(species := ParseSpecies(species.s));
    }
    var age := Field(body, "ageMonths");
    if IsNumberOrString(age) {
      var parsed := PyInt(age);
      if parsed.Some? {
        patch := patch.(ageMonths := Some(JInt(parsed.value)));
      }
    }
    var notes := Field(body, "notes");
    if notes.JStr? {
      patch := patch.(notes := Some(notes.s));
    }
    var feeding := Field(body, "nextFeedingAt");
    if IsNumber(feeding) {
      patch := patch.(nextFeedingAt := Some(PyInt(feeding).value));
    }
    assert patch == PatchOf(body);
    var updated := store.Update(id, patch, now);
    reply := Updated(updated.value);
  }

  /** The patch path never touches the status, the identity or the flags,
      whatever the body holds. */
  lemma PatchKeepsLifecycleFields(pet: Pet, body: map<string, Json>, now: int)
    ensures var r := Patched(pet, PatchOf(body), now);
      && r.id == pet.id && r.status == pet.status && r.flags == pet.flags
      && r.createdAt == pet.createdAt && r.profile == pet.profile
      && r.deletedAt == pet.deletedAt && r.purgeAt == pet.purgeAt
  {
  }

  /** An age sent as decimal digits is stored as that number. */
  lemma DigitAgeIsStored(pet: Pet, body: map<string, Json>, n: nat, now: int)
    requires Field(body, "ageMonths") == JStr(NatToString(n))
    ensures Patched(pet, PatchOf(body), now).ageMonths == n
  {
    ParseIntOfNatToString(n);
  }

  /** An age sent as a number is truncated and clamped at zero. */
  lemma RealAgeIsTruncated(pet: Pet, body: map<string, Json>, x: real, now: int)
    requires Field(body, "ageMonths") == JReal(x)
    ensures Patched(pet, PatchOf(body), now).ageMonths == MaxI(0, Trunc(x))
  {
  }

  /** Sending the current status back is not a status change: the request
      takes the patch path. */
  lemma SameStatusIsPlainUpdate(body: map<string, Json>, current: Status)
    requires Field(body, "status") == JStr(StatusName(current))
    ensures !AsksStatusChange(body, current)
  {
  }

  /** A 202 hands the orchestrator a status-update request for the named
      status, which it matches by target, and the target differs from the
      current status. */
  lemma StatusRequestReachesOrchestrator(body: map<string, Json>, current: Status, requested: Status)
    requires AsksStatusChange(body, current) && Field(body, "status") == JStr(StatusName(requested))
    ensures requested != current
    ensures PetLifecycle.QueryOf(Some(PetLifecycle.TopicName(PetLifecycle.StatusUpdate)), Some(StatusName(requested)))
      == PetLifecycle.Query(Some(PetLifecycle.StatusUpdate), true, Some(requested))
  {
    PetLifecycle.ParseTopicName(PetLifecycle.StatusUpdate);
    ParseStatusName(requested);
  }
}
