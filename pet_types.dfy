/** The pet-shelter records: the `Species` and `Status` enumerations, the
    optional profile, the pet record, and Python's `int()` on the loosely
    typed values a request body may hold. */
module PetTypes {
  import opened Common
  import opened Text

  datatype Species = Dog | Cat | Bird | OtherSpecies

  function SpeciesName(s: Species): string {
    match s
    case Dog => "dog"
    case Cat => "cat"
    case Bird => "bird"
    case OtherSpecies => "other"
  }

  /** Membership in `["dog","cat","bird","other"]`. */
  function ParseSpecies(s: string): (r: Option<Species>)
    ensures r.Some? ==> SpeciesName(r.value) == s
  {
    if s == "dog" then Some(Dog)
    else if s == "cat" then Some(Cat)
    else if s == "bird" then Some(Bird)
    else if s == "other" then Some(OtherSpecies)
    else None
  }

  lemma ParseSpeciesName(s: Species)
    ensures ParseSpecies(SpeciesName(s)) == Some(s)
  {
  }

  datatype Status =
    | New | InQuarantine | Healthy | Available | PendingAdoption
    | Adopted | Ill | UnderTreatment | Recovered | Deleted

  function StatusName(s: Status): string {
    match s
    case New => "new"
    case InQuarantine => "in_quarantine"
    case Healthy => "healthy"
    case Available => "available"
    case PendingAdoption => "pending"
    case Adopted => "adopted"
    case Ill => "ill"
    case UnderTreatment => "under_treatment"
    case Recovered => "recovered"
    case Deleted => "deleted"
  }

  /** Membership in the list of valid statuses. */
  function ParseStatus(s: string): (r: Option<Status>)
    ensures r.Some? ==> StatusName(r.value) == s
  {
    if s == "new" then Some(New)
    else if s == "in_quarantine" then Some(InQuarantine)
    else if s == "healthy" then Some(Healthy)
    else if s == "available" then Some(Available)
    else if s == "pending" then Some(PendingAdoption)
    else if s == "adopted" then Some(Adopted)
    else if s == "ill" then Some(Ill)
    else if s == "under_treatment" then Some(UnderTreatment)
    else if s == "recovered" then Some(Recovered)
    else if s == "deleted" then Some(Deleted)
    else None
  }

  /** Every status has a distinct name that parses back to it. */
  lemma ParseStatusName(s: Status)
    ensures ParseStatus(StatusName(s)) == Some(s)
  {
  }

  datatype Profile = Profile(
    bio: string,
    breedGuess: string,
    temperamentTags: seq<string>,
    adopterHints: string)

  datatype Pet = Pet(
    id: string,
    name: string,
    species: Species,
    ageMonths: int,
    status: Status,
    createdAt: int,
    updatedAt: int,
    notes: Option<string>,
    nextFeedingAt: Option<int>,
    deletedAt: Option<int>,
    purgeAt: Option<int>,
    profile: Option<Profile>,
    flags: set<string>)

  /** `int(v)` for a JSON value: integers as they are, booleans as 0 or 1,
      floats truncated toward zero, strings parsed as decimals; anything else
      raises (`None`). */
  function PyInt(v: Json): (r: Option<int>)
    ensures v.JInt? ==> r == Some(v.i)
    ensures v.JNull? || v.JList? || v.JObj? ==> r.None?
    ensures IsNumber(v) ==> r == Some(NumberValue(v))
  {
    match v
    case JInt(i) => Some(i)
    case JBool(b) => Some(if b then 1 else 0)
    case JReal(x) => Some(Trunc(x))
    case JStr(s) => ParseInt(s)
    case _ => None
  }

  /** `isinstance(v, (int, float))`; a boolean is an int in Python. */
  predicate IsNumber(v: Json) {
    v.JInt? || v.JBool? || v.JReal?
  }

  /** `int(v)` for a number, which never raises. */
  function NumberValue(v: Json): int
    requires IsNumber(v)
  {
    match v
    case JInt(i) => i
    case JBool(b) => if b then 1 else 0
    case JReal(x) => Trunc(x)
  }

}
