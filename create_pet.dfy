/** The POST /py/pets handler: it validates the name, the species and the
    age in that order, creates the pet and answers 201. The stream record,
    logging and the emitted events are left out; the clock is a
    parameter. */
module CreatePetStep {
  import opened Common
  import opened Text
  import opened PetTypes
  import opened PetStore

  datatype Reply =
    | InvalidName
    | InvalidSpecies
    | InvalidAge
    | Created(pet: Pet)
    /** An exception that escapes the handler. */
    | Crashed(error: string)

  function StatusCode(r: Reply): (code: int)
    ensures code in {201, 400, 500}
    ensures code == 400 <==> r.InvalidName? || r.InvalidSpecies? || r.InvalidAge?
  {
    match r
    case InvalidName => 400
    case InvalidSpecies => 400
    case InvalidAge => 400
    case Created(_) => 201
    case Crashed(_) => 500
  }

  /** `b.get(key)`, with JSON null for a missing key. */
  function Field(body: map<string, Json>, key: string): Json {
    if key in body then body[key] else JNull
  }

  /** A validated request: the name, species and age the store is asked to
      create the pet with. */
  datatype Request = Request(name: string, species: Species, ageMonths: int)

  /** The outcome of validation: the request, or the 400 reply. */
  datatype Validation = Accepted(request: Request) | Refused(reply: Reply)

  /** The name check: a string that is not blank once stripped. */
  predicate NameOk(body: map<string, Json>) {
    Field(body, "name").JStr? && Strip(Field(body, "name").s) != ""
  }

  /** The species check: one of the listed species. */
  predicate SpeciesOk(body: map<string, Json>) {
    Field(body, "species").JStr? && ParseSpecies(Field(body, "species").s).Some?
  }

  /** The three checks, in order: a string name that is not blank, a listed
      species, and an age `int()` accepts. */
  function Validate(body: map<string, Json>): (r: Validation)
    ensures r.Accepted? <==>
      && Field(body, "name").JStr? && Strip(Field(body, "name").s) != ""
      && Field(body, "species").JStr? && ParseSpecies(Field(body, "species").s).Some?
      && PyInt(Field(body, "ageMonths")).Some?
    ensures r.Accepted? ==>
      && Field(body, "name") == JStr(r.request.name)
      && Field(body, "species") == JStr(SpeciesName(r.request.species))
      && PyInt(Field(body, "ageMonths")) == Some(r.request.ageMonths)
    ensures r.Refused? ==> r.reply in {InvalidName, InvalidSpecies, InvalidAge}
    ensures r == Refused(InvalidName) <==> !NameOk(body)
    ensures r == Refused(InvalidSpecies) <==> NameOk(body) && !SpeciesOk(body)
    ensures r == Refused(InvalidAge) <==> NameOk(body) && SpeciesOk(body) && PyInt(Field(body, "ageMonths")).None?
  {
    var name := Field(body, "name");
    var species := Field(body, "species");
    if !name.JStr? || Strip(name.s) == [] then Refused(InvalidName)
    else if !species.JStr? || ParseSpecies(species.s).None? then Refused(InvalidSpecies)
    else
      var age := PyInt(Field(body, "ageMonths"));
      if age.None? then Refused(InvalidAge)
      else Accepted(Request(name.s, ParseSpecies(species.s).value, age.value))
  }

  const CreateKeywords: string := "create() got an unexpected keyword argument 'weight_kg'"

  /** The handler as written: the store's `create` takes no `weight_kg` or
      `symptoms` argument, so every request that passes validation raises
      before anything is stored. */
  method CreatePetAsWritten(store: PetStore, body: map<string, Json>, now: int) returns (reply: Reply)
    requires store.Valid()
    ensures Validate(body).Refused? ==> reply == Validate(body).reply
    ensures Validate(body).Accepted? ==> reply == Crashed(CreateKeywords)
  {
    var checked := Validate(body);
    if checked.Refused? {
      return checked.reply;
    }
    reply := Crashed(CreateKeywords);
  }

  /** The handler with the store's `create` called on the three values it
      takes: a valid request stores a new pet under a fresh id. */
  method CreatePet(store: PetStore, body: map<string, Json>, now: int) returns (reply: Reply)
    requires store.Valid()
    modifies store
    ensures store.Valid()
    ensures Validate(body).Refused? ==>
      reply == Validate(body).reply && store.pets == old(store.pets) && store.nextId == old(store.nextId)
    ensures Validate(body).Accepted? ==>
      var request := Validate(body).request;
      && reply == Created(NewPet(NatToString(old(store.nextId)), request.name, request.species, request.ageMonths, now))
      && reply.pet.id !in old(store.pets)
      && store.pets == old(store.pets)[reply.pet.id := reply.pet]
  {
    var checked := Validate(body);
    if checked.Refused? {
      return checked.reply;
    }
    var request := checked.request;
    var pet := store.Create(request.name, request.species, request.ageMonths, now);
    reply := Created(pet);
  }

  /** The pet a valid request creates is new, with the stripped name, the
      listed species and the age clamped at zero. */
  lemma CreatedPetMatchesRequest(body: map<string, Json>, id: string, now: int)
    requires Validate(body).Accepted?
    ensures var request := Validate(body).request;
      var pet := NewPet(id, request.name, request.species, request.ageMonths, now);
      && pet.status == New && pet.flags == {}
      && JStr(SpeciesName(pet.species)) == Field(body, "species")
      && pet.name == Strip(Field(body, "name").s) && pet.name != ""
      && pet.ageMonths == MaxI(0, PyInt(Field(body, "ageMonths")).value)
  {
  }

  /** A missing age is rejected (`int(None)` raises), after the name and
      species checks. */
  lemma MissingAgeRejected(body: map<string, Json>)
    requires "ageMonths" !in body
    requires Field(body, "name").JStr? && Strip(Field(body, "name").s) != ""
    requires Field(body, "species").JStr? && ParseSpecies(Field(body, "species").s).Some?
    ensures Validate(body) == Refused(InvalidAge)
  {
  }

  /** Every body with a non-blank name, a listed species and an integer
      age is a valid request: these are the bodies on which
      `CreatePetAsWritten` answers `Crashed` while `CreatePet` stores the
      pet. */
  lemma ValidRequestsExist(body: map<string, Json>, name: string, species: Species, age: int)
    requires Strip(name) != ""
    requires Field(body, "name") == JStr(name)
    requires Field(body, "species") == JStr(SpeciesName(species))
    requires Field(body, "ageMonths") == JInt(age)
    ensures Validate(body) == Accepted(Request(name, species, age))
  {
    ParseSpeciesName(species);
  }
}
