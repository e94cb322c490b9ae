/**
 * The `useStorage` hook of `src/hooks/useStorage.ts`: an in-memory copy of the
 * list of fines kept beside the storage service, with `loading` and `error` state.
 * Each callback runs to completion before the next starts.
 */
module UseStorage {
  import opened Wrappers
  import opened Fines
  import opened Storage

  class StorageHook {
    const service: StorageService
    var fines: seq<Fine>
    var loading: bool
    var error: Option<string>

    ghost predicate Valid()
      reads this
    {
      service.Valid() && this !in service.Repr
    }

    /** The in-memory list is the list the service serves. */
    ghost predicate Coherent()
      reads this, service.local.storage, service.remote
    {
      fines == service.Current()
    }

    /** The initial state: no fines, loading, no error. */
    constructor (service: StorageService)
      requires service.Valid()
      ensures Valid() && this.service == service
      ensures fines == [] && loading && error == None
    {
      this.service := service;
      fines := [];
      loading := true;
      error := None;
    }

    /**
     * The mount effect: always ends with `loading` false; the list is
     * replaced only on success, and a failure is recorded in `error`.
     */
    method LoadOnMount(online: bool)
      requires Valid()
      modifies this, service.Repr
      ensures Valid() && !loading
      ensures error == None ==> Coherent()
      ensures error != None ==>
        && service.mode == DatabaseMode
        && error == Some(Message(RemoteLoadFailed))
        && fines == old(fines)
    {
      loading := true;
      error := None;
      var r := service.LoadFines(online);
      if r.Ok? {
        fines := r.value;
      } else {
        error := Some(Message(r.error));
      }
      loading := false;
    }

    /**
     * `addFine(fine)`: the id is attached, the store is called with `error` cleared,
     * and only on success is the new fine appended to the list. On failure the list
     * is unchanged, `error` holds the message and the message is thrown; in database
     * mode the server may hold the fine all the same.
     */
    method AddFine(newFine: NewFine, id: string, online: bool) returns (r: Result<Fine, string>)
      requires Valid()
      modifies this, service.Repr
      ensures Valid() && loading == old(loading)
      ensures r.Ok? ==> r.value == WithId(newFine, id) && fines == old(fines) + [r.value] && error == None
      ensures r.Err? ==> fines == old(fines) && error == Some(r.error)
      ensures old(Coherent()) && (r.Ok? || service.mode != DatabaseMode) ==> Coherent()
      ensures old(Coherent()) && r.Err? && service.mode == DatabaseMode ==>
        service.Current() == fines || service.Current() == fines + [WithId(newFine, id)]
    {
      error := None;
      var fine := WithId(newFine, id);
      var stored := service.AddFine(fine, online);
      if stored.Err? {
        error := Some(Message(stored.error));
        return Err(Message(stored.error));
      }
      fines := fines + [fine];
      r := Ok(fine);
    }

    /**
     * `updateFine(id, updates)`: on success every in-memory fine with the id is
     * replaced by the fine the store returned. With unique ids that keeps the list
     * equal to the store's; an id the list does not hold is always an error then.
     * A failure in database mode may still have patched the server's copy.
     */
    method UpdateFine(id: string, updates: Patch, online: bool) returns (r: Result<Fine, string>)
      requires Valid()
      modifies this, service.Repr
      ensures Valid() && loading == old(loading)
      ensures r.Ok? ==> fines == ReplaceWhere(old(fines), id, r.value) && error == None
      ensures r.Ok? && old(Coherent()) ==>
        var i := FindIndex(old(fines), id); i >= 0 && r.value == Merge(old(fines)[i], updates)
      ensures r.Err? ==> fines == old(fines) && error == Some(r.error)
      ensures old(Coherent()) && !HasId(old(fines), id) ==> r.Err?
      ensures old(Coherent()) && UniqueIds(old(fines)) && (r.Ok? || service.mode != DatabaseMode) ==> Coherent()
      ensures old(Coherent()) && r.Err? && service.mode == DatabaseMode ==>
        || service.Current() == fines
        || var i := FindIndex(fines, id); i >= 0 && service.Current() == fines[i := Merge(fines[i], updates)]
    {
      error := None;
      var stored := service.UpdateFine(id, updates, online);
      if stored.Err? {
        error := Some(Message(stored.error));
        return Err(Message(stored.error));
      }
      ReplaceWhereFirst(fines, id, stored.value);
      fines := ReplaceWhere(fines, id, stored.value);
      r := Ok(stored.value);
    }

    /** `deleteFine(id)`: only after the store delete succeeds are the fines with the id dropped. */
    method DeleteFine(id: string, online: bool) returns (r: Outcome<string>)
      requires Valid()
      modifies this, service.Repr
      ensures Valid() && loading == old(loading)
      ensures r.Pass? ==> fines == RemoveId(old(fines), id) && error == None
      ensures r.Fail? ==> fines == old(fines) && error == Some(r.error)
      ensures old(Coherent()) ==> Coherent()
    {
      error := None;
      var stored := service.DeleteFine(id, online);
      if stored.Fail? {
        error := Some(Message(stored.error));
        return Fail(Message(stored.error));
      }
      fines := RemoveId(fines, id);
      r := Pass;
    }

    /**
     * `syncData()`: nothing happens unless the service has `syncWithServer` (hybrid
     * mode); then the queue is replayed and the list reloaded. Neither step of the
     * hybrid service throws, so `error` always ends up cleared.
     */
    method SyncData(online: bool)
      requires Valid()
      modifies this, service.Repr
      ensures Valid() && loading == old(loading)
      ensures service.mode != HybridMode ==>
        && fines == old(fines) && error == old(error)
        && unchanged(service.local.storage, service.remote)
      ensures service.mode == HybridMode ==> error == None && Coherent()
      ensures service.mode == HybridMode && !online ==>
        && service.hybrid.syncQueue == old(service.hybrid.syncQueue)
        && service.remote.log == old(service.remote.log) && service.remote.fines == old(service.remote.fines)
      ensures service.mode == HybridMode && online ==>
        && |service.remote.log| == |old(service.remote.log)| + |old(service.hybrid.syncQueue)| + 1
        && service.remote.log[|service.remote.log| - 1].request == LoadRequest
        && Synced(old(service.hybrid.syncQueue), old(service.remote.log), old(service.remote.fines),
                  service.hybrid.syncQueue, service.remote.log[..|service.remote.log| - 1], service.remote.fines)
    {
      if service.hybrid != null {
        error := None;
        service.hybrid.SyncWithServer(online);
        ghost var replayed := service.remote.log;
        var synced := service.hybrid.LoadFines(online);
        assert online ==> service.remote.log[..|service.remote.log| - 1] == replayed;
        fines := synced;
      }
    }

    /** `clearError()`: `error` becomes null, nothing else changes. */
    method ClearError()
      modifies this
      ensures error == None && fines == old(fines) && loading == old(loading)
    {
      error := None;
    }

    /** `isOnline()`: forwarded to the service. */
    function IsOnline(online: bool): (r: bool)
      ensures service.mode == LocalMode ==> !r
      ensures service.mode != LocalMode ==> (r <==> online)
    {
      service.IsOnline(online)
    }
  }

  /**
   * With two fines sharing an id the hook and the local store part ways after an
   * update: the store patches only the first, the hook's `map` replaces both.
   */
  lemma DuplicateIdsDiverge(fines: seq<Fine>, id: string, g: Fine, i: int, j: int)
    requires 0 <= i < j < |fines| && fines[i].id == id && fines[j].id == id && fines[j] != g
    ensures ReplaceWhere(fines, id, g) != fines[FindIndex(fines, id) := g]
  {
    var k := FindIndex(fines, id);
    assert ReplaceWhere(fines, id, g)[j] == g;
    assert fines[k := g][j] == fines[j];
  }
}
