/**
 * The fine persistence layer of `src/services/storage.ts`: the local service that
 * keeps every fine as one array under one `localStorage` key, the remote service
 * (an abstract server whose every call may fail), the offline-first hybrid service
 * with its durable sync queue, and the `createStorageService` mode switch.
 */
module Storage {
  import opened Wrappers
  import opened Seqs
  import opened Fines
  import opened Browser

  const STORAGE_KEY := "finetrack-fines"
  const SYNC_QUEUE_KEY := "finetrack-sync-queue"

  /** The errors the services throw. */
  datatype StorageError =
    | NotFound(id: string)
    | SaveFailed
    | RemoteLoadFailed
    | RemoteAddFailed
    | RemoteUpdateFailed
    | RemoteDeleteFailed
    | BulkSaveUnsupported

  /** The `message` of the thrown `Error`. */
  function Message(e: StorageError): string {
    match e
    case NotFound(id) => "Fine with id " + id + " not found"
    case SaveFailed => "Failed to save fines offline"
    case RemoteLoadFailed => "Failed to load fines from server"
    case RemoteAddFailed => "Failed to add fine to server"
    case RemoteUpdateFailed => "Failed to update fine on server"
    case RemoteDeleteFailed => "Failed to delete fine from server"
    case BulkSaveUnsupported => "Bulk save not implemented for database service"
  }

  // ================================================================ local service

  /** `LocalStorageService`: load the whole array, change it, save the whole array. */
  class LocalStorageService {
    const storage: LocalStorage

    constructor (storage: LocalStorage)
      ensures this.storage == storage
    {
      this.storage := storage;
    }

    /** The list `loadFines` reads: `[]` when the key is absent or does not parse. */
    function Stored(): seq<Fine>
      reads storage
    {
      DecodeFines(storage.GetItem(STORAGE_KEY))
    }

    /** `loadFines()`: never throws. */
    method LoadFines() returns (fines: seq<Fine>)
      ensures fines == DecodeFines(storage.GetItem(STORAGE_KEY))
      ensures STORAGE_KEY !in storage.items ==> fines == []
      ensures STORAGE_KEY in storage.items && storage.items[STORAGE_KEY].FineList? ==>
        fines == storage.items[STORAGE_KEY].fines
      ensures STORAGE_KEY in storage.items && !storage.items[STORAGE_KEY].FineList? ==> fines == []
    {
      var saved := storage.GetItem(STORAGE_KEY);
      if saved.Some? && saved.value.FineList? {
        fines := saved.value.fines;
      } else {
        fines := [];
      }
    }

    /** `saveFines(fines)`: overwrites the key, or fails with `SaveFailed` and changes nothing. */
    method SaveFines(fines: seq<Fine>) returns (r: Outcome<StorageError>)
      modifies storage
      ensures storage.writes == old(storage.writes) + [Write(STORAGE_KEY, FineList(fines), r.Pass?)]
      ensures r.Fail? ==> r.error == SaveFailed
      ensures storage.items == if r.Pass? then old(storage.items)[STORAGE_KEY := FineList(fines)] else old(storage.items)
    {
      var ok := storage.SetItem(STORAGE_KEY, FineList(fines));
      r := if ok then Pass else Fail(SaveFailed);
    }

    /** `addFine(fine)`: appends at the end and returns the same fine. */
    method AddFine(fine: Fine) returns (r: Result<Fine, StorageError>)
      modifies storage
      ensures storage.writes == old(storage.writes) + [Write(STORAGE_KEY, FineList(old(Stored()) + [fine]), r.Ok?)]
      ensures r == if r.Ok? then Ok(fine) else Err(SaveFailed)
      ensures storage.items ==
        if r.Ok? then old(storage.items)[STORAGE_KEY := FineList(old(Stored()) + [fine])] else old(storage.items)
    {
      var fines := LoadFines();
      fines := fines + [fine];
      var saved := SaveFines(fines);
      r := if saved.Pass? then Ok(fine) else Err(SaveFailed);
    }

    /**
     * `updateFine(id, updates)`: patches the first fine with the id in place. An
     * unknown id throws `NotFound` before anything is written.
     */
    method UpdateFine(id: string, updates: Patch) returns (r: Result<Fine, StorageError>)
      modifies storage
      ensures var i := FindIndex(old(Stored()), id);
        if i == -1 then
          r == Err(NotFound(id)) && storage.items == old(storage.items) && storage.writes == old(storage.writes)
        else
          var g := Merge(old(Stored())[i], updates);
          && storage.writes == old(storage.writes) + [Write(STORAGE_KEY, FineList(old(Stored())[i := g]), r.Ok?)]
          && r == (if r.Ok? then Ok(g) else Err(SaveFailed))
          && storage.items == if r.Ok? then old(storage.items)[STORAGE_KEY := FineList(old(Stored())[i := g])] else old(storage.items)
    {
      var fines := LoadFines();
      var index := FindIndex(fines, id);
      if index == -1 {
        return Err(NotFound(id));
      }
      var updated := Merge(fines[index], updates);
      fines := fines[index := updated];
      var saved := SaveFines(fines);
      r := if saved.Pass? then Ok(updated) else Err(SaveFailed);
    }

    /** `deleteFine(id)`: keeps the fines with other ids; an absent id is not an error. */
    method DeleteFine(id: string) returns (r: Outcome<StorageError>)
      modifies storage
      ensures storage.writes == old(storage.writes) + [Write(STORAGE_KEY, FineList(RemoveId(old(Stored()), id)), r.Pass?)]
      ensures r.Fail? ==> r.error == SaveFailed
      ensures storage.items ==
        if r.Pass? then old(storage.items)[STORAGE_KEY := FineList(RemoveId(old(Stored()), id))] else old(storage.items)
    {
      var fines := LoadFines();
      var filtered := RemoveId(fines, id);
      r := SaveFines(filtered);
    }
  }

  // ================================================================ remote service

  /** A request the remote received. */
  datatype Request = LoadRequest | MutateRequest(op: PendingOp)

  /**
   * A request, whether it succeeded (`ok`), and whether the server's list took its
   * change (`applied`). A successful mutation is always applied. A failed add or
   * update may have been applied too: those calls read the reply body inside their
   * `try`, so a request the server committed can still throw.
   */
  datatype Call = Call(request: Request, ok: bool, applied: bool)

  /**
   * `DatabaseService`, abstracted: a server holding a list of fines. Whether a call
   * succeeds is not under the program's control; the model records each call and
   * its outcome in `log`. An applied mutation does to the server's list what the
   * local service does to its own; an update of an id the server does not hold fails
   * and changes nothing.
   */
  class DatabaseService {
    var fines: seq<Fine>
    ghost var log: seq<Call>

    constructor (fines: seq<Fine>)
      ensures this.fines == fines && log == []
    {
      this.fines := fines;
      log := [];
    }

    /** `loadFines()`: the server's list, or `RemoteLoadFailed`. */
    method LoadFines() returns (r: Result<seq<Fine>, StorageError>)
      modifies this
      ensures fines == old(fines)
      ensures log == old(log) + [Call(LoadRequest, r.Ok?, false)]
      ensures r.Ok? ==> r.value == fines
      ensures r.Err? ==> r.error == RemoteLoadFailed
    {
      var ok: bool :| true;
      log := log + [Call(LoadRequest, ok, false)];
      r := if ok then Ok(fines) else Err(RemoteLoadFailed);
    }

    /** `saveFines` always throws on the remote. */
    method SaveFines(fines: seq<Fine>) returns (r: Outcome<StorageError>)
      ensures r == Fail(BulkSaveUnsupported)
    {
      r := Fail(BulkSaveUnsupported);
    }

    /**
     * `addFine(fine)` (POST): the server's echo of the fine, or `RemoteAddFailed`.
     * A failure may come after the server appended the fine.
     */
    method AddFine(fine: Fine) returns (r: Result<Fine, StorageError>)
      modifies this
      ensures |log| == |old(log)| + 1
      ensures log == old(log) + [Call(MutateRequest(AddOp(fine)), r.Ok?, log[|old(log)|].applied)]
      ensures r.Ok? ==> log[|old(log)|].applied
      ensures fines == if log[|old(log)|].applied then ApplyOp(old(fines), AddOp(fine)) else old(fines)
      ensures r.Ok? ==> r.value == fine
      ensures r.Err? ==> r.error == RemoteAddFailed
    {
      var applied: bool :| true;
      var ok: bool :| true;
      ok := ok && applied;
      log := log + [Call(MutateRequest(AddOp(fine)), ok, applied)];
      if applied {
        fines := fines + [fine];
      }
      r := if ok then Ok(fine) else Err(RemoteAddFailed);
    }

    /**
     * `updateFine(id, updates)` (PATCH): the patched fine, or `RemoteUpdateFailed`.
     * A failure may come after the server patched the fine.
     */
    method UpdateFine(id: string, updates: Patch) returns (r: Result<Fine, StorageError>)
      modifies this
      ensures |log| == |old(log)| + 1
      ensures log == old(log) + [Call(MutateRequest(UpdateOp(id, updates)), r.Ok?, log[|old(log)|].applied)]
      ensures r.Ok? ==> log[|old(log)|].applied
      ensures log[|old(log)|].applied ==> HasId(old(fines), id)
      ensures fines == if log[|old(log)|].applied then ApplyOp(old(fines), UpdateOp(id, updates)) else old(fines)
      ensures r.Ok? ==> var i := FindIndex(old(fines), id); i >= 0 && r.value == Merge(old(fines)[i], updates)
      ensures r.Err? ==> r.error == RemoteUpdateFailed
    {
      var i := FindIndex(fines, id);
      var applied: bool :| true;
      applied := applied && i >= 0;
      var ok: bool :| true;
      ok := ok && applied;
      log := log + [Call(MutateRequest(UpdateOp(id, updates)), ok, applied)];
      r := Err(RemoteUpdateFailed);
      if applied {
        var g := Merge(fines[i], updates);
        fines := fines[i := g];
        if ok {
          r := Ok(g);
        }
      }
    }

    /** `deleteFine(id)` (DELETE), or `RemoteDeleteFailed`; it reads no reply body, so a failure changed nothing. */
    method DeleteFine(id: string) returns (r: Outcome<StorageError>)
      modifies this
      ensures log == old(log) + [Call(MutateRequest(DeleteOp(id)), r.Pass?, r.Pass?)]
      ensures fines == if r.Pass? then ApplyOp(old(fines), DeleteOp(id)) else old(fines)
      ensures r.Fail? ==> r.error == RemoteDeleteFailed
    {
      var ok: bool :| true;
      log := log + [Call(MutateRequest(DeleteOp(id)), ok, ok)];
      if ok {
        fines := RemoveId(fines, id);
        r := Pass;
      } else {
        r := Fail(RemoteDeleteFailed);
      }
    }
  }

  // ================================================================ replaying the queue

  /** Each call is the request for the queue entry at the same position: every entry was tried, in order. */
  predicate Tried(calls: seq<Call>, queue: seq<PendingOp>) {
    |calls| == |queue| && forall i :: 0 <= i < |queue| ==> calls[i].request == MutateRequest(queue[i])
  }

  /** The mutations of the calls that failed, in their original order. */
  function Failed(calls: seq<Call>): seq<PendingOp> {
    if calls == [] then []
    else (if !calls[0].ok && calls[0].request.MutateRequest? then [calls[0].request.op] else []) + Failed(calls[1..])
  }

  /** The server's list after one call. */
  function Step(fines: seq<Fine>, c: Call): seq<Fine> {
    if c.applied && c.request.MutateRequest? then ApplyOp(fines, c.request.op) else fines
  }

  /** The server's list after a sequence of calls, the earliest first. */
  function Replay(fines: seq<Fine>, calls: seq<Call>): seq<Fine>
    decreases |calls|
  {
    if calls == [] then fines else Replay(Step(fines, calls[0]), calls[1..])
  }

  lemma {:induction false} FailedSnoc(calls: seq<Call>, c: Call)
    ensures Failed(calls + [c]) == Failed(calls) + Failed([c])
  {
    if calls == [] {
      assert calls + [c] == [c];
    } else {
      var h := if !calls[0].ok && calls[0].request.MutateRequest? then [calls[0].request.op] else [];
      assert (calls + [c])[0] == calls[0] && (calls + [c])[1..] == calls[1..] + [c];
      assert Failed(calls + [c]) == h + Failed(calls[1..] + [c]);
      FailedSnoc(calls[1..], c);
      assert h + (Failed(calls[1..]) + Failed([c])) == (h + Failed(calls[1..])) + Failed([c]);
    }
  }

  lemma {:induction false} ReplaySnoc(fines: seq<Fine>, calls: seq<Call>, c: Call)
    ensures Replay(fines, calls + [c]) == Step(Replay(fines, calls), c)
    decreases |calls|
  {
    if calls == [] {
      assert calls + [c] == [c];
      assert [c][1..] == [];
    } else {
      assert (calls + [c])[0] == calls[0] && (calls + [c])[1..] == calls[1..] + [c];
      ReplaySnoc(Step(fines, calls[0]), calls[1..], c);
    }
  }

  /**
   * What is left after a replay keeps only failed entries, in their original
   * relative order: it is a subsequence of the queue that was replayed.
   */
  lemma {:induction false} FailedIsSubseq(calls: seq<Call>, queue: seq<PendingOp>)
    requires Tried(calls, queue)
    ensures IsSubseq(Failed(calls), queue)
    ensures |Failed(calls)| <= |queue|
  {
    if calls != [] {
      FailedIsSubseq(calls[1..], queue[1..]);
      var rest := Failed(calls[1..]);
      assert calls[0].request == MutateRequest(queue[0]);
      if !calls[0].ok {
        assert Failed(calls) == [queue[0]] + rest;
        assert Failed(calls)[1..] == rest;
        assert IsSubseq(Failed(calls)[1..], queue[1..]);
      } else {
        assert Failed(calls) == rest;
        assert IsSubseq(rest, queue[1..]);
      }
    }
  }

  /** Every entry of the new queue failed; every entry that failed is kept; when all succeed the queue empties. */
  lemma {:induction false} FailedExactly(calls: seq<Call>, queue: seq<PendingOp>)
    requires Tried(calls, queue)
    ensures (forall i :: 0 <= i < |calls| ==> calls[i].ok) ==> Failed(calls) == []
    ensures (forall i :: 0 <= i < |calls| ==> !calls[i].ok) ==> Failed(calls) == queue
  {
    if calls != [] {
      FailedExactly(calls[1..], queue[1..]);
      assert forall i :: 0 < i < |calls| ==> calls[1..][i - 1] == calls[i];
      assert queue == [queue[0]] + queue[1..];
    }
  }

  /**
   * An add the server committed but whose reply could not be read fails, so it is
   * queued; a later successful replay of that queue appends the fine a second time.
   */
  lemma LostAddReplyDuplicates(fines: seq<Fine>, f: Fine)
    ensures var lost := Call(MutateRequest(AddOp(f)), false, true);
            var retry := Call(MutateRequest(AddOp(f)), true, true);
            && Failed([lost]) == [AddOp(f)]
            && Tried([retry], Failed([lost]))
            && Replay(fines, [lost, retry]) == fines + [f, f]
  {
    var lost := Call(MutateRequest(AddOp(f)), false, true);
    var retry := Call(MutateRequest(AddOp(f)), true, true);
    assert [lost][1..] == [] && [lost, retry][1..] == [retry] && [retry][1..] == [];
    assert Replay(fines, [lost, retry]) == Replay(fines + [f], [retry]);
    assert Replay(fines + [f], [retry]) == Replay(fines + [f] + [f], []);
    assert fines + [f] + [f] == fines + [f, f];
  }

  /** The effect of one replay of `q0`: log `log0` grew by one call per entry, in order, and the failures form the new queue. */
  ghost predicate Synced(q0: seq<PendingOp>, log0: seq<Call>, fines0: seq<Fine>,
                         q1: seq<PendingOp>, log1: seq<Call>, fines1: seq<Fine>)
  {
    && |log1| >= |log0| && log1[..|log0|] == log0
    && Tried(log1[|log0|..], q0)
    && q1 == Failed(log1[|log0|..])
    && fines1 == Replay(fines0, log1[|log0|..])
  }

  /** Replaying an empty queue makes no calls and leaves an empty queue. */
  lemma SyncedEmpty(log0: seq<Call>, fines0: seq<Fine>, q1: seq<PendingOp>, log1: seq<Call>, fines1: seq<Fine>)
    requires Synced([], log0, fines0, q1, log1, fines1)
    ensures q1 == [] && log1 == log0 && fines1 == fines0
  {
    assert log1 == log1[..|log0|] + log1[|log0|..];
  }

  // ================================================================ hybrid service

  /** `HybridStorageService`: writes locally first, mirrors to the remote, queues what the remote did not take. */
  class HybridStorageService {
    const local: LocalStorageService
    const remote: DatabaseService
    var syncQueue: seq<PendingOp>

    /** The constructor loads the queue; an absent or unparsable entry gives the empty queue. */
    constructor (local: LocalStorageService, remote: DatabaseService)
      ensures this.local == local && this.remote == remote
      ensures syncQueue == DecodeQueue(local.storage.GetItem(SYNC_QUEUE_KEY))
    {
      this.local := local;
      this.remote := remote;
      var queue := local.storage.GetItem(SYNC_QUEUE_KEY);
      syncQueue := if queue.Some? && queue.value.QueueList? then queue.value.ops else [];
    }

    /** `saveSyncQueue()`: best effort; the write is attempted and a failure is swallowed. */
    method SaveSyncQueue()
      modifies local.storage
      ensures local.storage.Attempted(SYNC_QUEUE_KEY, QueueList(syncQueue), old(local.storage.items), old(local.storage.writes))
    {
      var saved := local.storage.SetItem(SYNC_QUEUE_KEY, QueueList(syncQueue));
    }

    /** `addToSyncQueue(op)`: appends at the end and saves the queue. */
    method AddToSyncQueue(op: PendingOp)
      modifies this, local.storage
      ensures syncQueue == old(syncQueue) + [op]
      ensures local.storage.Attempted(SYNC_QUEUE_KEY, QueueList(syncQueue), old(local.storage.items), old(local.storage.writes))
    {
      syncQueue := syncQueue + [op];
      SaveSyncQueue();
    }

    /** The `switch (item.operation)` of `syncWithServer`: sends one queued operation to the remote. */
    method Send(op: PendingOp) returns (ok: bool)
      modifies remote
      ensures |remote.log| == |old(remote.log)| + 1
      ensures remote.log == old(remote.log) + [Call(MutateRequest(op), ok, remote.log[|old(remote.log)|].applied)]
      ensures ok ==> remote.log[|old(remote.log)|].applied
      ensures remote.fines == Step(old(remote.fines), remote.log[|old(remote.log)|])
    {
      match op {
        case AddOp(f) =>
          var r := remote.AddFine(f);
          ok := r.Ok?;
        case UpdateOp(id, p) =>
          var r := remote.UpdateFine(id, p);
          ok := r.Ok?;
        case DeleteOp(id) =>
          var r := remote.DeleteFine(id);
          ok := r.Pass?;
      }
    }

    /**
     * The `for` loop of `syncWithServer`: every entry is sent in order, whatever
     * became of the earlier ones, and the failed ones are collected in order.
     */
    method SendAll(queue: seq<PendingOp>) returns (failed: seq<PendingOp>)
      modifies remote
      ensures Synced(queue, old(remote.log), old(remote.fines), failed, remote.log, remote.fines)
    {
      ghost var log0 := remote.log;
      ghost var fines0 := remote.fines;
      ghost var calls: seq<Call> := [];
      failed := [];
      var i := 0;
      while i < |queue|
        invariant 0 <= i <= |queue|
        invariant remote.log == log0 + calls
        invariant Tried(calls, queue[..i])
        invariant failed == Failed(calls)
        invariant remote.fines == Replay(fines0, calls)
      {
        var ok := Send(queue[i]);
        ghost var c := remote.log[|remote.log| - 1];
        FailedSnoc(calls, c);
        ReplaySnoc(fines0, calls, c);
        if !ok {
          failed := failed + [queue[i]];
        }
        assert queue[..i + 1] == queue[..i] + [queue[i]];
        calls := calls + [c];
        i := i + 1;
      }
      assert queue[..i] == queue;
      assert remote.log[..|log0|] == log0 && remote.log[|log0|..] == calls;
    }

    /**
     * `syncWithServer()`: offline, nothing happens; online, every queued entry is
     * sent in FIFO order, a failure does not stop the later ones, and the new queue
     * is exactly the failed entries in their original order.
     */
    method SyncWithServer(online: bool)
      modifies this, remote, local.storage
      ensures !online ==>
        syncQueue == old(syncQueue) && remote.log == old(remote.log) && remote.fines == old(remote.fines)
      ensures online ==> Synced(old(syncQueue), old(remote.log), old(remote.fines), syncQueue, remote.log, remote.fines)
      ensures if online && old(syncQueue) != []
        then local.storage.Attempted(SYNC_QUEUE_KEY, QueueList(syncQueue), old(local.storage.items), old(local.storage.writes))
        else local.storage.items == old(local.storage.items) && local.storage.writes == old(local.storage.writes)
    {
      if !online || |syncQueue| == 0 {
        assert remote.log[..|remote.log|] == remote.log;
        assert remote.log[|remote.log|..] == [];
        return;
      }
      var failed := SendAll(syncQueue);
      syncQueue := failed;
      SaveSyncQueue();
    }

    /**
     * `loadFines()`: online with a successful server load, the server's list is
     * saved locally; when that save succeeds too, it is returned. In every other
     * case the local list is returned unchanged. It never throws.
     */
    method LoadFines(online: bool) returns (fines: seq<Fine>)
      modifies remote, local.storage
      ensures remote.fines == old(remote.fines)
      ensures !online ==> remote.log == old(remote.log)
      ensures online ==>
        && |remote.log| == |old(remote.log)| + 1
        && remote.log == old(remote.log) + [Call(LoadRequest, remote.log[|old(remote.log)|].ok, false)]
      ensures var loaded := online && remote.log[|remote.log| - 1].ok;
        if loaded then
          local.storage.Attempted(STORAGE_KEY, FineList(remote.fines), old(local.storage.items), old(local.storage.writes))
        else
          local.storage.items == old(local.storage.items) && local.storage.writes == old(local.storage.writes)
      ensures var served := online && remote.log[|remote.log| - 1].ok && local.storage.writes[|old(local.storage.writes)|].ok;
        fines == if served then remote.fines else old(local.Stored())
    {
      if online {
        var server := remote.LoadFines();
        if server.Ok? {
          var saved := local.SaveFines(server.value);
          if saved.Pass? {
            return server.value;
          }
        }
      }
      fines := local.LoadFines();
    }

    /** `saveFines(fines)`: saves locally (a failure is thrown), then replays the queue when online. */
    method SaveFines(fines: seq<Fine>, online: bool) returns (r: Outcome<StorageError>)
      modifies this, remote, local.storage
      ensures |local.storage.writes| > |old(local.storage.writes)|
      ensures local.storage.writes[|old(local.storage.writes)|] == Write(STORAGE_KEY, FineList(fines), r.Pass?)
      ensures r.Fail? ==>
        && r.error == SaveFailed
        && local.storage.items == old(local.storage.items) && syncQueue == old(syncQueue)
        && remote.log == old(remote.log) && remote.fines == old(remote.fines)
      ensures r.Pass? ==> local.Stored() == fines
      ensures r.Pass? && online ==>
        Synced(old(syncQueue), old(remote.log), old(remote.fines), syncQueue, remote.log, remote.fines)
      ensures r.Pass? && !online ==>
        syncQueue == old(syncQueue) && remote.log == old(remote.log) && remote.fines == old(remote.fines)
    {
      r := local.SaveFines(fines);
      if r.Fail? {
        return;
      }
      SyncWithServer(online);
    }

    /** The mirroring step after a successful local write: the remote call when online, and the queueing of `op` when offline or when that call failed. */
    ghost predicate Mirrored(op: PendingOp, online: bool, q0: seq<PendingOp>, log0: seq<Call>, fines0: seq<Fine>)
      reads this, remote
    {
      if online then
        && |remote.log| == |log0| + 1
        && remote.log == log0 + [Call(MutateRequest(op), remote.log[|log0|].ok, remote.log[|log0|].applied)]
        && (remote.log[|log0|].ok ==> remote.log[|log0|].applied)
        && remote.fines == Step(fines0, remote.log[|log0|])
        && syncQueue == q0 + (if remote.log[|log0|].ok then [] else [op])
      else
        remote.log == log0 && remote.fines == fines0 && syncQueue == q0 + [op]
    }

    /**
     * The queue's persistence after a mirroring that started from queue `q0`, with
     * `w0` writes logged and `stored0` under the queue's key: an unchanged queue is
     * not written; a grown one is written once, and is stored only when that write
     * succeeded, the previous entry staying otherwise.
     */
    ghost predicate QueueWritten(q0: seq<PendingOp>, w0: nat, stored0: Option<Doc>)
      reads this, local.storage
    {
      if syncQueue == q0 then
        |local.storage.writes| == w0 && local.storage.GetItem(SYNC_QUEUE_KEY) == stored0
      else
        && |local.storage.writes| == w0 + 1
        && local.storage.writes[w0] == Write(SYNC_QUEUE_KEY, QueueList(syncQueue), local.storage.writes[w0].ok)
        && local.storage.GetItem(SYNC_QUEUE_KEY) == if local.storage.writes[w0].ok then Some(QueueList(syncQueue)) else stored0
    }

    /** Mirrors an operation whose local write succeeded. */
    method Mirror(op: PendingOp, online: bool)
      modifies this, remote, local.storage
      ensures Mirrored(op, online, old(syncQueue), old(remote.log), old(remote.fines))
      ensures if syncQueue == old(syncQueue)
        then local.storage.items == old(local.storage.items) && local.storage.writes == old(local.storage.writes)
        else local.storage.Attempted(SYNC_QUEUE_KEY, QueueList(syncQueue), old(local.storage.items), old(local.storage.writes))
    {
      if online {
        var ok := Send(op);
        if !ok {
          AddToSyncQueue(op);
        }
      } else {
        AddToSyncQueue(op);
      }
    }

    /** `addFine(fine)`: local first; on a local failure nothing is queued and the remote is not called. */
    method AddFine(fine: Fine, online: bool) returns (r: Result<Fine, StorageError>)
      modifies this, remote, local.storage
      ensures |local.storage.writes| > |old(local.storage.writes)|
      ensures local.storage.writes[|old(local.storage.writes)|] == Write(STORAGE_KEY, FineList(old(local.Stored()) + [fine]), r.Ok?)
      ensures r == if r.Ok? then Ok(fine) else Err(SaveFailed)
      ensures r.Err? ==>
        local.storage.items == old(local.storage.items) && syncQueue == old(syncQueue) &&
        remote.log == old(remote.log) && remote.fines == old(remote.fines)
      ensures r.Ok? ==> local.Stored() == old(local.Stored()) + [fine]
      ensures r.Ok? ==> Mirrored(AddOp(fine), online, old(syncQueue), old(remote.log), old(remote.fines))
      ensures r.Ok? ==>
        QueueWritten(old(syncQueue), |old(local.storage.writes)| + 1, old(local.storage.GetItem(SYNC_QUEUE_KEY)))
    {
      r := local.AddFine(fine);
      if r.Err? {
        return;
      }
      Mirror(AddOp(fine), online);
    }

    /** `updateFine(id, updates)`: local first (an unknown id throws `NotFound` and nothing is queued), then mirrored. */
    method UpdateFine(id: string, updates: Patch, online: bool) returns (r: Result<Fine, StorageError>)
      modifies this, remote, local.storage
      ensures var i := FindIndex(old(local.Stored()), id);
        if i == -1 then r == Err(NotFound(id)) && local.storage.writes == old(local.storage.writes)
        else
          var g := Merge(old(local.Stored())[i], updates);
          && |local.storage.writes| > |old(local.storage.writes)|
          && local.storage.writes[|old(local.storage.writes)|] == Write(STORAGE_KEY, FineList(old(local.Stored())[i := g]), r.Ok?)
          && r == (if r.Ok? then Ok(g) else Err(SaveFailed))
          && (r.Ok? ==> local.Stored() == old(local.Stored())[i := g])
      ensures r.Err? ==>
        local.storage.items == old(local.storage.items) && syncQueue == old(syncQueue) &&
        remote.log == old(remote.log) && remote.fines == old(remote.fines)
      ensures r.Ok? ==> Mirrored(UpdateOp(id, updates), online, old(syncQueue), old(remote.log), old(remote.fines))
      ensures r.Ok? ==>
        QueueWritten(old(syncQueue), |old(local.storage.writes)| + 1, old(local.storage.GetItem(SYNC_QUEUE_KEY)))
    {
      r := local.UpdateFine(id, updates);
      if r.Err? {
        return;
      }
      Mirror(UpdateOp(id, updates), online);
    }

    /** `deleteFine(id)`: local first, then mirrored; an absent id is still mirrored. */
    method DeleteFine(id: string, online: bool) returns (r: Outcome<StorageError>)
      modifies this, remote, local.storage
      ensures |local.storage.writes| > |old(local.storage.writes)|
      ensures local.storage.writes[|old(local.storage.writes)|] == Write(STORAGE_KEY, FineList(RemoveId(old(local.Stored()), id)), r.Pass?)
      ensures r.Fail? ==>
        && r.error == SaveFailed
        && local.storage.items == old(local.storage.items) && syncQueue == old(syncQueue)
        && remote.log == old(remote.log) && remote.fines == old(remote.fines)
      ensures r.Pass? ==> local.Stored() == RemoveId(old(local.Stored()), id)
      ensures r.Pass? ==> Mirrored(DeleteOp(id), online, old(syncQueue), old(remote.log), old(remote.fines))
      ensures r.Pass? ==>
        QueueWritten(old(syncQueue), |old(local.storage.writes)| + 1, old(local.storage.GetItem(SYNC_QUEUE_KEY)))
    {
      r := local.DeleteFine(id);
      if r.Fail? {
        return;
      }
      Mirror(DeleteOp(id), online);
    }
  }

  // ================================================================ mode switch

  datatype Mode = LocalMode | DatabaseMode | HybridMode

  /** The mode `createStorageService` is configured with in the repository. */
  const CONFIGURED_MODE := LocalMode

  /**
   * The `StorageService` that `createStorageService` returns, for any of the three
   * modes: a local service, a remote, and a hybrid service over both when the mode
   * is hybrid. Calls are forwarded to the service the mode selects.
   */
  class StorageService {
    const mode: Mode
    const local: LocalStorageService
    const remote: DatabaseService
    const hybrid: HybridStorageService?
    ghost const Repr: set<object>

    ghost predicate Valid() {
      && (hybrid != null <==> mode == HybridMode)
      && (hybrid != null ==> hybrid.local == local && hybrid.remote == remote)
      && Repr == {local.storage, remote} + (if hybrid == null then {} else {hybrid})
    }

    /** The list the selected service serves: the server's in database mode, the local one otherwise. */
    ghost function Current(): seq<Fine>
      reads local.storage, remote
    {
      if mode == DatabaseMode then remote.fines else local.Stored()
    }

    /** `createStorageService()` with the given mode, over the browser's storage and the remote. */
    constructor (mode: Mode, storage: LocalStorage, server: DatabaseService)
      ensures Valid() && this.mode == mode && local.storage == storage && remote == server
      ensures hybrid != null ==> hybrid.syncQueue == DecodeQueue(storage.GetItem(SYNC_QUEUE_KEY))
    {
      this.mode := mode;
      var l := new LocalStorageService(storage);
      local := l;
      remote := server;
      var h: HybridStorageService? := null;
      if mode == HybridMode {
        h := new HybridStorageService(l, server);
      }
      hybrid := h;
      Repr := {storage, server} + (if h == null then {} else {h});
    }

    /** `isOnline()`: always false in local mode, `navigator.onLine` otherwise. */
    function IsOnline(online: bool): (r: bool)
      ensures mode == LocalMode ==> !r
      ensures mode != LocalMode ==> (r <==> online)
    {
      if mode == LocalMode then false else online
    }

    /** `loadFines()`: only the remote of database mode can fail; whatever is returned is the selected list. */
    method LoadFines(online: bool) returns (r: Result<seq<Fine>, StorageError>)
      requires Valid()
      modifies Repr
      ensures r.Ok? ==> r.value == Current()
      ensures r.Err? ==> mode == DatabaseMode && r.error == RemoteLoadFailed
      ensures mode != HybridMode ==> Current() == old(Current())
      ensures mode == LocalMode ==> r == Ok(old(Current())) && local.storage.items == old(local.storage.items)
      ensures mode == HybridMode ==> r.Ok?
    {
      match mode {
        case LocalMode =>
          var fines := local.LoadFines();
          r := Ok(fines);
        case DatabaseMode =>
          r := remote.LoadFines();
        case HybridMode =>
          var fines := hybrid.LoadFines(online);
          r := Ok(fines);
      }
    }

    /** `saveFines(fines)`: the remote refuses bulk saves. */
    method SaveFines(fines: seq<Fine>, online: bool) returns (r: Outcome<StorageError>)
      requires Valid()
      modifies Repr
      ensures mode == DatabaseMode ==> r == Fail(BulkSaveUnsupported) && Current() == old(Current())
      ensures mode != DatabaseMode ==>
        && |local.storage.writes| > |old(local.storage.writes)|
        && local.storage.writes[|old(local.storage.writes)|] == Write(STORAGE_KEY, FineList(fines), r.Pass?)
        && (r.Fail? ==> r.error == SaveFailed)
      ensures r.Pass? ==> Current() == fines
      ensures r.Fail? ==> Current() == old(Current())
    {
      match mode {
        case LocalMode =>
          r := local.SaveFines(fines);
        case DatabaseMode =>
          r := remote.SaveFines(fines);
        case HybridMode =>
          r := hybrid.SaveFines(fines, online);
      }
    }

    /**
     * `addFine(fine)`: on success the fine is appended to the selected list and returned.
     * A failure changes nothing, except that the server may have appended the fine.
     */
    method AddFine(fine: Fine, online: bool) returns (r: Result<Fine, StorageError>)
      requires Valid()
      modifies Repr
      ensures r.Ok? ==> r.value == fine && Current() == old(Current()) + [fine]
      ensures r.Err? && mode != DatabaseMode ==> Current() == old(Current())
      ensures r.Err? && mode == DatabaseMode ==>
        Current() == old(Current()) || Current() == old(Current()) + [fine]
      ensures mode != DatabaseMode ==>
        && |local.storage.writes| > |old(local.storage.writes)|
        && local.storage.writes[|old(local.storage.writes)|] == Write(STORAGE_KEY, FineList(old(Current()) + [fine]), r.Ok?)
      ensures r.Err? ==> r.error == if mode == DatabaseMode then RemoteAddFailed else SaveFailed
    {
      match mode {
        case LocalMode =>
          r := local.AddFine(fine);
        case DatabaseMode =>
          r := remote.AddFine(fine);
        case HybridMode =>
          r := hybrid.AddFine(fine, online);
      }
    }

    /**
     * `updateFine(id, updates)`: on success the first fine with the id is patched in
     * the selected list and returned; an id the list does not hold always fails.
     * A failure changes nothing, except that the server may have patched the fine.
     */
    method UpdateFine(id: string, updates: Patch, online: bool) returns (r: Result<Fine, StorageError>)
      requires Valid()
      modifies Repr
      ensures r.Ok? ==>
        var i := FindIndex(old(Current()), id);
        && i >= 0
        && r.value == Merge(old(Current())[i], updates)
        && Current() == old(Current())[i := r.value]
      ensures r.Err? && mode != DatabaseMode ==> Current() == old(Current())
      ensures r.Err? && mode == DatabaseMode ==>
        || Current() == old(Current())
        || var i := FindIndex(old(Current()), id); i >= 0 && Current() == old(Current())[i := Merge(old(Current())[i], updates)]
      ensures mode != DatabaseMode && FindIndex(old(Current()), id) == -1 ==> r == Err(NotFound(id))
      ensures mode != DatabaseMode && FindIndex(old(Current()), id) >= 0 ==>
        && |local.storage.writes| > |old(local.storage.writes)|
        && local.storage.writes[|old(local.storage.writes)|].key == STORAGE_KEY
        && (r.Ok? <==> local.storage.writes[|old(local.storage.writes)|].ok)
    {
      match mode {
        case LocalMode =>
          r := local.UpdateFine(id, updates);
        case DatabaseMode =>
          r := remote.UpdateFine(id, updates);
        case HybridMode =>
          r := hybrid.UpdateFine(id, updates, online);
      }
    }

    /** `deleteFine(id)`: on success the selected list keeps exactly the fines with other ids. */
    method DeleteFine(id: string, online: bool) returns (r: Outcome<StorageError>)
      requires Valid()
      modifies Repr
      ensures r.Pass? ==> Current() == RemoveId(old(Current()), id)
      ensures r.Fail? ==> Current() == old(Current())
      ensures mode != DatabaseMode ==>
        && |local.storage.writes| > |old(local.storage.writes)|
        && local.storage.writes[|old(local.storage.writes)|] == Write(STORAGE_KEY, FineList(RemoveId(old(Current()), id)), r.Pass?)
    {
      match mode {
        case LocalMode =>
          r := local.DeleteFine(id);
        case DatabaseMode =>
          r := remote.DeleteFine(id);
        case HybridMode =>
          r := hybrid.DeleteFine(id, online);
      }
    }
  }
}
