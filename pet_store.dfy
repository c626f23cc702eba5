/** The pet store (`pet_store`): a counter and a table of pets keyed by id.
    The JSON file it is loaded from and saved to becomes the two fields of
    one object, updated in place; the clock is a parameter `now`. */
module PetStore {
  import opened Common
  import opened Text
  import opened PetTypes

  /** Thirty days in milliseconds. */
  const PurgeDelay: int := 30 * 24 * 60 * 60 * 1000

  /** The record `create` stores. */
  function NewPet(id: string, name: string, species: Species, ageMonths: int, now: int): (p: Pet)
    ensures p.id == id && p.species == species && p.status == New
    ensures p.name == Strip(name) && |p.name| <= |name|
    ensures p.ageMonths >= 0 && (ageMonths >= 0 ==> p.ageMonths == ageMonths)
    ensures p.createdAt == now && p.updatedAt == now
    ensures p.notes.None? && p.nextFeedingAt.None? && p.deletedAt.None? && p.purgeAt.None?
    ensures p.profile.None? && p.flags == {}
  {
    Pet(id, Strip(name), species, MaxI(0, ageMonths), New, now, now, None, None, None, None, None, {})
  }

  /** The record after `update_status`: only status and updatedAt change. */
  function WithStatus(p: Pet, status: Status, now: int): (r: Pet)
    ensures r.status == status && r.updatedAt == now
    ensures r.(status := p.status, updatedAt := p.updatedAt) == p
  {
    p.(status := status, updatedAt := now)
  }

  /** The keys `update` can receive. A name or age of the wrong type is
      carried as it came and then ignored. */
  datatype Patch = Patch(
    name: Option<Json>,
    species: Option<Species>,
    ageMonths: Option<Json>,
    notes: Option<string>,
    nextFeedingAt: Option<int>)

  const EmptyPatch: Patch := Patch(None, None, None, None, None)

  /** The record after `update`: the patch overlays the pet, except that the
      name is taken (stripped) only when it is a string and the age (clamped
      at 0) only when it is a number. */
  function Patched(p: Pet, patch: Patch, now: int): (r: Pet)
    ensures r.updatedAt == now
    ensures r.name == (if patch.name.Some? && patch.name.value.JStr? then Strip(patch.name.value.s) else p.name)
    ensures patch.ageMonths.Some? && IsNumber(patch.ageMonths.value) ==>
              r.ageMonths >= 0 && r.ageMonths == MaxI(0, NumberValue(patch.ageMonths.value))
    ensures !(patch.ageMonths.Some? && IsNumber(patch.ageMonths.value)) ==> r.ageMonths == p.ageMonths
    ensures r.species == (if patch.species.Some? then patch.species.value else p.species)
    ensures r.notes == (if patch.notes.Some? then patch.notes else p.notes)
    ensures r.nextFeedingAt == (if patch.nextFeedingAt.Some? then patch.nextFeedingAt else p.nextFeedingAt)
    ensures r.id == p.id && r.status == p.status && r.createdAt == p.createdAt && r.deletedAt == p.deletedAt
    ensures r.purgeAt == p.purgeAt && r.profile == p.profile && r.flags == p.flags
  {
    var name := if patch.name.Some? && patch.name.value.JStr? then Strip(patch.name.value.s) else p.name;
    var age :=
      if patch.ageMonths.Some? && IsNumber(patch.ageMonths.value) then MaxI(0, NumberValue(patch.ageMonths.value))
      else p.ageMonths;
    p.(
      name := name,
      species := if patch.species.Some? then patch.species.value else p.species,
      ageMonths := age,
      notes := if patch.notes.Some? then patch.notes else p.notes,
      nextFeedingAt := if patch.nextFeedingAt.Some? then patch.nextFeedingAt else p.nextFeedingAt,
      updatedAt := now)
  }

  /** An empty patch only refreshes the timestamp. */
  lemma EmptyPatchTouchesOnly(p: Pet, now: int)
    ensures Patched(p, EmptyPatch, now) == p.(updatedAt := now)
  {
  }

  /** The record after `soft_delete`. */
  function SoftDeleted(p: Pet, now: int): (r: Pet)
    ensures r.status == Deleted && r.deletedAt == Some(now) && r.updatedAt == now
    ensures r.purgeAt == Some(now + 2592000000)
    ensures r.(status := p.status, deletedAt := p.deletedAt, purgeAt := p.purgeAt, updatedAt := p.updatedAt) == p
  {
    p.(status := Deleted, deletedAt := Some(now), purgeAt := Some(now + PurgeDelay), updatedAt := now)
  }

  /** The record after `update_profile`. */
  function WithProfile(p: Pet, profile: Profile, now: int): (r: Pet)
    ensures r.profile == Some(profile) && r.updatedAt == now
    ensures r.(profile := p.profile, updatedAt := p.updatedAt) == p
  {
    p.(profile := Some(profile), updatedAt := now)
  }

  /** The record with one flag added: the flag is set, every other flag is
      kept, and only flags and updatedAt change. */
  function WithFlagAdded(p: Pet, flag: string, now: int): (r: Pet)
    ensures flag in r.flags && r.flags - {flag} == p.flags - {flag} && r.updatedAt == now
    ensures r.(flags := p.flags, updatedAt := p.updatedAt) == p
  {
    p.(flags := p.flags + {flag}, updatedAt := now)
  }

  /** The record with one flag removed: the flag is cleared, every other
      flag is kept, and only flags and updatedAt change. */
  function WithFlagRemoved(p: Pet, flag: string, now: int): (r: Pet)
    ensures flag !in r.flags && r.flags + {flag} == p.flags + {flag} && r.updatedAt == now
    ensures r.(flags := p.flags, updatedAt := p.updatedAt) == p
  {
    p.(flags := p.flags - {flag}, updatedAt := now)
  }

  /** `pet['status'] == 'deleted' and pet.get('purgeAt', 0) <= now_ms` */
  predicate ReadyToPurge(p: Pet, now: int) {
    p.status == Deleted && (if p.purgeAt.Some? then p.purgeAt.value else 0) <= now
  }

  /** A soft-deleted pet becomes ready for purging exactly thirty days later. */
  lemma SoftDeletedReadyAfterThirtyDays(p: Pet, deletedAt: int, now: int)
    ensures ReadyToPurge(SoftDeleted(p, deletedAt), now) <==> now >= deletedAt + 2592000000
  {
  }

  /** The ids of the stored pets that are ready to purge. */
  function ReadyIds(pets: map<string, Pet>, now: int): (ids: set<string>)
    ensures ids <= pets.Keys
  {
    set k | k in pets && ReadyToPurge(pets[k], now)
  }

  /** The ids listed in `r`. */
  function IdsOf(r: seq<Pet>): set<string> {
    set i | 0 <= i < |r| :: r[i].id
  }

  lemma IdsOfSnoc(r: seq<Pet>, p: Pet)
    ensures IdsOf(r + [p]) == IdsOf(r) + {p.id}
  {
    var s := r + [p];
    forall x | x in IdsOf(s) ensures x in IdsOf(r) + {p.id} {
      var i :| 0 <= i < |s| && s[i].id == x;
      if i < |r| { assert r[i].id == x; }
    }
    forall x | x in IdsOf(r) + {p.id} ensures x in IdsOf(s) {
      if x in IdsOf(r) {
        var i :| 0 <= i < |r| && r[i].id == x;
        assert s[i].id == x;
      } else {
        assert s[|r|].id == x;
      }
    }
  }

  lemma SnocKeepsDistinct(r: seq<Pet>, p: Pet)
    requires DistinctIds(r) && p.id !in IdsOf(r)
    ensures DistinctIds(r + [p])
  {
    var s := r + [p];
    forall i, j | 0 <= i < j < |s| ensures s[i].id != s[j].id {
      assert s[i] == r[i];
      if j == |r| {
        assert r[i].id in IdsOf(r);
      } else {
        assert s[j] == r[j];
      }
    }
  }

  predicate SortedByUpdatedDesc(s: seq<Pet>) {
    forall i, j :: 0 <= i < j < |s| ==> s[i].updatedAt >= s[j].updatedAt
  }

  predicate DistinctIds(s: seq<Pet>) {
    forall i, j :: 0 <= i < j < |s| ==> s[i].id != s[j].id
  }

  /** Where `p` goes in a list sorted by updatedAt descending: after every
      pet updated no earlier than it. */
  function InsertPos(s: seq<Pet>, p: Pet): (pos: nat)
    ensures pos <= |s|
    ensures forall i :: 0 <= i < pos ==> s[i].updatedAt >= p.updatedAt
    ensures pos < |s| ==> s[pos].updatedAt < p.updatedAt
  {
    if s == [] || s[0].updatedAt < p.updatedAt then 0 else 1 + InsertPos(s[1..], p)
  }

  /** `p` inserted into `s` at its place. */
  function Inserted(s: seq<Pet>, p: Pet): (r: seq<Pet>)
    ensures |r| == |s| + 1
    ensures forall q :: q in r <==> q in s || q == p
  {
    var pos := InsertPos(s, p);
    assert forall q :: q in s <==> q in s[..pos] || q in s[pos..] by {
      assert s == s[..pos] + s[pos..];
    }
    s[..pos] + [p] + s[pos..]
  }

  lemma InsertKeepsSorted(s: seq<Pet>, p: Pet)
    requires SortedByUpdatedDesc(s)
    ensures SortedByUpdatedDesc(Inserted(s, p))
  {
    var pos := InsertPos(s, p);
    var r := Inserted(s, p);
    forall i, j | 0 <= i < j < |r| ensures r[i].updatedAt >= r[j].updatedAt {
      if j < pos {
        assert r[i] == s[i] && r[j] == s[j];
      } else if j == pos {
        assert r[i] == s[i];
      } else if i == pos {
        assert r[j] == s[j - 1];
        assert s[pos].updatedAt >= s[j - 1].updatedAt;
      } else if i < pos {
        assert r[i] == s[i] && r[j] == s[j - 1];
      } else {
        assert r[i] == s[i - 1] && r[j] == s[j - 1];
      }
    }
  }

  lemma InsertKeepsDistinct(s: seq<Pet>, p: Pet)
    requires DistinctIds(s)
    requires forall q :: q in s ==> q.id != p.id
    ensures DistinctIds(Inserted(s, p))
  {
    var pos := InsertPos(s, p);
    var r := Inserted(s, p);
    forall i, j | 0 <= i < j < |r| ensures r[i].id != r[j].id {
      if j < pos {
        assert r[i] == s[i] && r[j] == s[j];
      } else if j == pos {
        assert r[i] == s[i];
      } else if i == pos {
        assert r[j] == s[j - 1];
      } else if i < pos {
        assert r[i] == s[i] && r[j] == s[j - 1];
      } else {
        assert r[i] == s[i - 1] && r[j] == s[j - 1];
      }
    }
  }

  class PetStore {
    var nextId: nat
    var pets: map<string, Pet>

    /** Every pet is stored under its own id, and no id the counter has not
        reached yet is in use. */
    ghost predicate Valid()
      reads this
    {
      && (forall k :: k in pets ==> pets[k].id == k)
      && (forall n: nat :: n >= nextId ==> NatToString(n) !in pets)
    }

    /** The initial file: `{'seq': 1, 'pets': {}}`. */
    constructor()
      ensures nextId == 1 && pets == map[]
      ensures Valid()
    {
      nextId := 1;
      pets := map[];
    }

    /** `create`: the id is the counter in decimal, the counter moves on by
        one, and no stored pet is touched. */
    method Create(name: string, species: Species, ageMonths: int, now: int) returns (pet: Pet)
      requires Valid()
      modifies this
      ensures Valid()
      ensures pet == NewPet(NatToString(old(nextId)), name, species, ageMonths, now)
      ensures pet.id !in old(pets)
      ensures nextId == old(nextId) + 1
      ensures pets == old(pets)[pet.id := pet]
    {
      var pid := NatToString(nextId);
      pet := NewPet(pid, name, species, ageMonths, now);
      forall n: nat | n >= nextId + 1 ensures NatToString(n) != pid {
        if NatToString(n) == pid { NatToStringInjective(n, nextId); }
      }
      nextId := nextId + 1;
      pets := pets[pid := pet];
    }

    /** `get` */
    method Get(pid: string) returns (r: Option<Pet>)
      ensures pid in pets ==> r == Some(pets[pid])
      ensures pid !in pets ==> r.None?
    {
      r := if pid in pets then Some(pets[pid]) else None;
    }

    /** `update_status` */
    method UpdateStatus(pid: string, status: Status, now: int) returns (r: Option<Pet>)
      requires Valid()
      modifies this
      ensures Valid() && nextId == old(nextId)
      ensures pid !in old(pets) ==> r.None? && pets == old(pets)
      ensures pid in old(pets) ==> r == Some(WithStatus(old(pets)[pid], status, now)) && pets == old(pets)[pid := r.value]
    {
      if pid !in pets {
        return None;
      }
      var updated := WithStatus(pets[pid], status, now);
      pets := pets[pid := updated];
      r := Some(updated);
    }

    /** `update` */
    method Update(pid: string, patch: Patch, now: int) returns (r: Option<Pet>)
      requires Valid()
      modifies this
      ensures Valid() && nextId == old(nextId)
      ensures pid !in old(pets) ==> r.None? && pets == old(pets)
      ensures pid in old(pets) ==> r == Some(Patched(old(pets)[pid], patch, now)) && pets == old(pets)[pid := r.value]
    {
      if pid !in pets {
        return None;
      }
      var updated := Patched(pets[pid], patch, now);
      pets := pets[pid := updated];
      r := Some(updated);
    }

    /** `update_profile` */
    method UpdateProfile(pid: string, profile: Profile, now: int) returns (r: Option<Pet>)
      requires Valid()
      modifies this
      ensures Valid() && nextId == old(nextId)
      ensures pid !in old(pets) ==> r.None? && pets == old(pets)
      ensures pid in old(pets) ==> r == Some(WithProfile(old(pets)[pid], profile, now)) && pets == old(pets)[pid := r.value]
    {
      if pid !in pets {
        return None;
      }
      var updated := WithProfile(pets[pid], profile, now);
      pets := pets[pid := updated];
      r := Some(updated);
    }

    /** `soft_delete` */
    method SoftDelete(pid: string, now: int) returns (r: Option<Pet>)
      requires Valid()
      modifies this
      ensures Valid() && nextId == old(nextId)
      ensures pid !in old(pets) ==> r.None? && pets == old(pets)
      ensures pid in old(pets) ==> r == Some(SoftDeleted(old(pets)[pid], now)) && pets == old(pets)[pid := r.value]
    {
      if pid !in pets {
        return None;
      }
      var updated := SoftDeleted(pets[pid], now);
      pets := pets[pid := updated];
      r := Some(updated);
    }

    /** `remove`: deletes exactly the one entry, when it exists. */
    method Remove(pid: string) returns (removed: bool)
      requires Valid()
      modifies this
      ensures Valid() && nextId == old(nextId)
      ensures removed <==> pid in old(pets)
      ensures pets == old(pets) - {pid}
    {
      if pid !in pets {
        return false;
      }
      pets := pets - {pid};
      removed := true;
    }

    /** `find_deleted_pets_ready_to_purge`: every stored pet that is deleted
        and past its purge time, each once. */
    method FindDeletedPetsReadyToPurge(now: int) returns (r: seq<Pet>)
      requires Valid()
      ensures forall q :: q in r ==> q.id in pets && pets[q.id] == q && ReadyToPurge(q, now)
      ensures IdsOf(r) == ReadyIds(pets, now)
      ensures DistinctIds(r)
    {
      r := [];
      var todo := pets.Keys;
      while todo != {}
        invariant todo <= pets.Keys
        invariant forall q :: q in r ==> q.id in pets && pets[q.id] == q && ReadyToPurge(q, now)
        invariant IdsOf(r) == ReadyIds(pets, now) - todo
        invariant DistinctIds(r)
        decreases |todo|
      {
        var pid :| pid in todo;
        var pet := pets[pid];
        if ReadyToPurge(pet, now) {
          assert pet.id == pid && pid !in IdsOf(r);
          SnocKeepsDistinct(r, pet);
          IdsOfSnoc(r, pet);
          r := r + [pet];
        }
        todo := todo - {pid};
      }
    }

    /** `list_all`: every stored pet once, most recently updated first. */
    method ListAll() returns (r: seq<Pet>)
      requires Valid()
      ensures |r| == |pets|
      ensures forall q :: q in r ==> q.id in pets && pets[q.id] == q
      ensures IdsOf(r) == pets.Keys
      ensures DistinctIds(r)
      ensures SortedByUpdatedDesc(r)
    {
      r := [];
      var todo := pets.Keys;
      while todo != {}
        invariant todo <= pets.Keys
        invariant |r| == |pets.Keys - todo|
        invariant forall q :: q in r ==> q.id in pets - todo && pets[q.id] == q
        invariant DistinctIds(r)
        invariant SortedByUpdatedDesc(r)
        decreases |todo|
      {
        var pid :| pid in todo;
        var pet := pets[pid];
        InsertKeepsSorted(r, pet);
        InsertKeepsDistinct(r, pet);
        assert pets.Keys - (todo - {pid}) == (pets.Keys - todo) + {pid};
        r := Inserted(r, pet);
        todo := todo - {pid};
      }
      ListingCoversTable(r, pets);
    }

    /** Adds a flag to a stored pet. `pet_store` defines no such operation;
        this is the set update its caller evidently expects. */
    method AddFlag(pid: string, flag: string, now: int) returns (r: Option<Pet>)
      requires Valid()
      modifies this
      ensures Valid() && nextId == old(nextId)
      ensures pid !in old(pets) ==> r.None? && pets == old(pets)
      ensures pid in old(pets) ==>
        r == Some(WithFlagAdded(old(pets)[pid], flag, now))
        && pets == old(pets)[pid := r.value]
    {
      if pid !in pets {
        return None;
      }
      var updated := WithFlagAdded(pets[pid], flag, now);
      pets := pets[pid := updated];
      r := Some(updated);
    }

    /** Removes a flag from a stored pet; like `AddFlag`, absent from
        `pet_store`. */
    method RemoveFlag(pid: string, flag: string, now: int) returns (r: Option<Pet>)
      requires Valid()
      modifies this
      ensures Valid() && nextId == old(nextId)
      ensures pid !in old(pets) ==> r.None? && pets == old(pets)
      ensures pid in old(pets) ==>
        r == Some(WithFlagRemoved(old(pets)[pid], flag, now))
        && pets == old(pets)[pid := r.value]
    {
      if pid !in pets {
        return None;
      }
      var updated := WithFlagRemoved(pets[pid], flag, now);
      pets := pets[pid := updated];
      r := Some(updated);
    }
  }

  /** As many distinct stored ids as pets: `list_all` lists every pet. */
  lemma ListingCoversTable(r: seq<Pet>, pets: map<string, Pet>)
    requires |r| == |pets|
    requires forall q :: q in r ==> q.id in pets
    requires DistinctIds(r)
    ensures IdsOf(r) == pets.Keys
  {
    var ids := IdsOf(r);
    IdsCount(r);
    assert ids <= pets.Keys by {
      forall x | x in ids ensures x in pets.Keys {
        var i :| 0 <= i < |r| && r[i].id == x;
        assert r[i] in r;
      }
    }
    assert |pets.Keys| == |pets|;
    SubsetOfSameSize(ids, pets.Keys);
  }

  /** A subset as large as the whole set is the whole set. */
  lemma SubsetOfSameSize(a: set<string>, b: set<string>)
    requires a <= b && |a| == |b|
    ensures a == b
  {
    assert b == a + (b - a);
    assert a * (b - a) == {};
    assert |b - a| == 0;
  }

  /** Distinct ids: as many ids as pets in the list. */
  lemma {:induction false} IdsCount(r: seq<Pet>)
    requires DistinctIds(r)
    ensures |IdsOf(r)| == |r|
  {
    if r != [] {
      var init := r[..|r| - 1];
      var last := r[|r| - 1];
      assert r == init + [last];
      assert DistinctIds(init);
      IdsCount(init);
      IdsOfSnoc(init, last);
      assert last.id !in IdsOf(init) by {
        forall i | 0 <= i < |init| ensures init[i].id != last.id {
          assert init[i] == r[i];
        }
      }
    }
  }
}
