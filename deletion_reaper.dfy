/** The daily deletion reaper: it scans the store for soft-deleted pets past
    their purge time and removes each one, counting the removals. Logging
    and the emitted events are left out; the clock is a parameter. */
module DeletionReaper {
  import opened PetTypes
  import opened PetStore

  /** What the completion event reports: how many pets the scan returned and
      how many removes succeeded. */
  datatype ReaperReport = ReaperReport(totalScanned: nat, purgedCount: nat)

  /** `len(pets_to_reap) - purged_count` */
  function FailedCount(report: ReaperReport): int {
    report.totalScanned - report.purgedCount
  }

  /** One run of the reaper. */
  method Reap(store: PetStore, now: int) returns (report: ReaperReport)
    requires store.Valid()
    modifies store
    ensures store.Valid() && store.nextId == old(store.nextId)
    ensures report.purgedCount <= report.totalScanned
    ensures report.totalScanned == |ReadyIds(old(store.pets), now)|
    ensures FailedCount(report) == 0
    ensures store.pets == old(store.pets) - ReadyIds(old(store.pets), now)
    ensures ReadyIds(old(store.pets), now) == {} ==> report == ReaperReport(0, 0) && store.pets == old(store.pets)
  {
    var petsToReap := store.FindDeletedPetsReadyToPurge(now);
    IdsCount(petsToReap);
    ghost var before := store.pets;
    ghost var ready := ReadyIds(before, now);
    assert IdsOf(petsToReap) == ready;
    if petsToReap == [] {
      assert ready == {};
      assert store.pets == before - ready;
      return ReaperReport(0, 0);
    }
    var purged := 0;
    var i := 0;
    while i < |petsToReap|
      invariant 0 <= i <= |petsToReap|
      invariant store.Valid() && store.nextId == old(store.nextId)
      invariant purged == i
      invariant store.pets == before - IdsOf(petsToReap[..i])
      decreases |petsToReap| - i
    {
      var pet := petsToReap[i];
      assert pet in petsToReap;
      assert pet.id !in IdsOf(petsToReap[..i]) by {
        forall j | 0 <= j < i ensures petsToReap[..i][j].id != pet.id {
          assert petsToReap[..i][j] == petsToReap[j];
        }
      }
      assert pet.id in before;
      assert pet.id in store.pets;
      var success := store.Remove(pet.id);
      assert success;
      purged := purged + 1;
      IdsOfSnoc(petsToReap[..i], pet);
      assert petsToReap[..i + 1] == petsToReap[..i] + [pet];
      i := i + 1;
    }
    assert petsToReap[..i] == petsToReap;
    assert store.pets == before - ready;
    report := ReaperReport(|petsToReap|, purged);
  }
}
