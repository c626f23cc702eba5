/** The adoption posting: when a pet becomes ready for adoption, a posting
    is built with a fee and a list of adopter requirements, and a screening
    interview is scheduled a week later. Logging and the emitted events are
    left out; the clock is a parameter. */
module AdoptionPosting {
  import opened Common
  import opened Text
  import opened PetTypes
  import opened PetStore

  /** `profile.breedGuess`, or "" without a profile. */
  function BreedGuess(pet: Pet): string {
    if pet.profile.Some? then pet.profile.value.breedGuess else ""
  }

  /** `calculate_adoption_fee`: 150, plus 50 under twelve months, plus 100
      when the breed guess mentions "Purebred" (case-sensitively). */
  function AdoptionFee(pet: Pet): (fee: int)
    ensures fee in {150, 200, 250, 300}
    ensures pet.profile.None? ==> fee in {150, 200}
    ensures fee >= 200 <==> pet.ageMonths < 12 || Contains(BreedGuess(pet), "Purebred")
  {
    var ageFactor := if pet.ageMonths < 12 then 50 else 0;
    var breedFactor := if Contains(BreedGuess(pet), "Purebred") then 100 else 0;
    NoPurebredInEmpty();
    150 + ageFactor + breedFactor
  }

  lemma NoPurebredInEmpty()
    ensures !Contains("", "Purebred")
  {
  }

  /** A pet under twelve months costs exactly 50 more than the same pet at
      twelve months or older, so it is never cheaper. */
  lemma YoungerNeverCheaper(pet: Pet, olderAge: int)
    requires pet.ageMonths < 12 <= olderAge
    ensures AdoptionFee(pet) == AdoptionFee(pet.(ageMonths := olderAge)) + 50
  {
  }

  /** The fee does not depend on anything but age and breed guess. */
  lemma FeeDependsOnAgeAndBreed(p: Pet, q: Pet)
    requires (p.ageMonths < 12) == (q.ageMonths < 12) && BreedGuess(p) == BreedGuess(q)
    ensures AdoptionFee(p) == AdoptionFee(q)
  {
  }

  const BaseRequirements: seq<string> := [
    "Must be 21 years or older",
    "Valid photo ID required",
    "Proof of current address",
    "Landlord approval (if renting)",
    "Reference from current veterinarian"]

  /** `profile.temperamentTags`, or none without a profile. */
  function TemperamentTags(pet: Pet): (tags: seq<string>)
    ensures pet.profile.None? ==> tags == []
  {
    if pet.profile.Some? then pet.profile.value.temperamentTags else []
  }

  /** `generate_adoption_requirements`: the five fixed items, then one
      item for each of the high_energy tag, the needs_experience tag and the
      special_needs flag, in that order. */
  method AdoptionRequirements(pet: Pet) returns (requirements: seq<string>)
    ensures requirements ==
      BaseRequirements
      + (if "high_energy" in TemperamentTags(pet) then ["Active lifestyle recommended"] else [])
      + (if "needs_experience" in TemperamentTags(pet) then ["Previous pet ownership experience preferred"] else [])
      + (if "special_needs" in pet.flags then ["Special care experience required"] else [])
    ensures 5 <= |requirements| <= 8 && requirements[..5] == BaseRequirements
    ensures pet.profile.None? ==>
      requirements == BaseRequirements + (if "special_needs" in pet.flags then ["Special care experience required"] else [])
    ensures forall i, j :: 0 <= i < j < |requirements| ==> requirements[i] != requirements[j]
  {
    requirements := BaseRequirements;
    var tags := TemperamentTags(pet);
    if "high_energy" in tags {
      requirements := requirements + ["Active lifestyle recommended"];
    }
    if "needs_experience" in tags {
      requirements := requirements + ["Previous pet ownership experience preferred"];
    }
    if "special_needs" in pet.flags {
      requirements := requirements + ["Special care experience required"];
    }
  }

  datatype Posting = Posting(
    petId: string,
    postedAt: int,
    title: string,
    ageMonths: int,
    species: Species,
    breed: string,
    adoptionFee: int,
    requirements: seq<string>,
    interviewAt: int)

  /** The handler: an unknown pet gets no posting; a stored one gets a
      posting titled with its name and breed (or species), and an interview
      one week later. */
  method PostForAdoption(store: PetStore, petId: string, now: int) returns (r: Option<Posting>)
    ensures petId !in store.pets <==> r.None?
    ensures r.Some? ==>
      var pet := store.pets[petId];
      && r.value.petId == petId && r.value.postedAt == now
      && r.value.adoptionFee == AdoptionFee(pet)
      && r.value.breed == (if pet.profile.Some? then pet.profile.value.breedGuess else "Mixed Breed")
      && r.value.title == pet.name + " - "
           + (if pet.profile.Some? then pet.profile.value.breedGuess else SpeciesName(pet.species))
           + " Available for Adoption"
      && 5 <= |r.value.requirements| <= 8 && r.value.requirements[..5] == BaseRequirements
      && r.value.interviewAt == now + 604800000
  {
    var found := store.Get(petId);
    if found.None? {
      return None;
    }
    var pet := found.value;
    var requirements := AdoptionRequirements(pet);
    var breedOrSpecies := if pet.profile.Some? then pet.profile.value.breedGuess else SpeciesName(pet.species);
    r := Some(Posting(
      petId,
      now,
      pet.name + " - " + breedOrSpecies + " Available for Adoption",
      pet.ageMonths,
      pet.species,
      if pet.profile.Some? then pet.profile.value.breedGuess else "Mixed Breed",
      AdoptionFee(pet),
      requirements,
      now + 7 * 24 * 60 * 60 * 1000));
  }
}
