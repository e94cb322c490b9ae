/**
 * The `Fine` record of `src/types.ts`, the `Partial<Fine>` patches applied to it,
 * the operations kept in the offline sync queue, and the list transformations the
 * storage services and the `useStorage` hook apply to arrays of fines.
 */
module Fines {
  import opened Wrappers
  import opened Seqs

  /** `Fine['type']`. */
  datatype FineType = Speeding | Parking | Dartford | Mot | Insurance | Congestion | OtherType

  /** `Fine['status']`. */
  datatype Status = Unpaid | Paid | Overdue | Disputed

  /** A fine; `amount` is an integer number of pence; the four `?:` fields are optional. */
  datatype Fine = Fine(
    id: string,
    fineType: FineType,
    title: string,
    description: string,
    amount: int,
    dueDate: string,
    issueDate: string,
    status: Status,
    referenceNumber: Option<string>,
    paymentLink: Option<string>,
    location: Option<string>,
    vehicleReg: Option<string>)

  /** `Omit<Fine, 'id'>`: what the add form produces before an id is attached. */
  datatype NewFine = NewFine(
    fineType: FineType,
    title: string,
    description: string,
    amount: int,
    dueDate: string,
    issueDate: string,
    status: Status,
    referenceNumber: Option<string>,
    paymentLink: Option<string>,
    location: Option<string>,
    vehicleReg: Option<string>)

  /** `{ ...fine, id }`: the new record with an id attached. */
  function WithId(n: NewFine, id: string): (f: Fine)
    ensures f.id == id
    ensures Strip(f) == n
  {
    Fine(id, n.fineType, n.title, n.description, n.amount, n.dueDate, n.issueDate, n.status,
         n.referenceNumber, n.paymentLink, n.location, n.vehicleReg)
  }

  /** A fine without its id. */
  function Strip(f: Fine): NewFine {
    NewFine(f.fineType, f.title, f.description, f.amount, f.dueDate, f.issueDate, f.status,
            f.referenceNumber, f.paymentLink, f.location, f.vehicleReg)
  }

  /** Attaching an id to a fine's other fields gives back that fine. */
  lemma WithIdStrip(f: Fine)
    ensures WithId(Strip(f), f.id) == f
  {
  }

  /** `Partial<Fine>`: every field may be absent; a present field overrides. */
  datatype Patch = Patch(
    id: Option<string>,
    fineType: Option<FineType>,
    title: Option<string>,
    description: Option<string>,
    amount: Option<int>,
    dueDate: Option<string>,
    issueDate: Option<string>,
    status: Option<Status>,
    referenceNumber: Option<string>,
    paymentLink: Option<string>,
    location: Option<string>,
    vehicleReg: Option<string>)

  /** The patch `{}`. */
  const NoChanges := Patch(None, None, None, None, None, None, None, None, None, None, None, None)

  function Pick<T>(o: Option<T>, old_: T): T {
    if o.Some? then o.value else old_
  }

  function PickOpt<T>(o: Option<T>, old_: Option<T>): Option<T> {
    if o.Some? then o else old_
  }

  /** `{ ...f, ...p }`: the fields present in `p` replace those of `f`. */
  function Merge(f: Fine, p: Patch): Fine {
    Fine(Pick(p.id, f.id), Pick(p.fineType, f.fineType), Pick(p.title, f.title),
         Pick(p.description, f.description), Pick(p.amount, f.amount), Pick(p.dueDate, f.dueDate),
         Pick(p.issueDate, f.issueDate), Pick(p.status, f.status),
         PickOpt(p.referenceNumber, f.referenceNumber), PickOpt(p.paymentLink, f.paymentLink),
         PickOpt(p.location, f.location), PickOpt(p.vehicleReg, f.vehicleReg))
  }

  /** `{ ...p, ...q }`: one patch after another, as a single patch. */
  function Overlay(p: Patch, q: Patch): Patch {
    Patch(PickOpt(q.id, p.id), PickOpt(q.fineType, p.fineType), PickOpt(q.title, p.title),
          PickOpt(q.description, p.description), PickOpt(q.amount, p.amount),
          PickOpt(q.dueDate, p.dueDate), PickOpt(q.issueDate, p.issueDate),
          PickOpt(q.status, p.status), PickOpt(q.referenceNumber, p.referenceNumber),
          PickOpt(q.paymentLink, p.paymentLink), PickOpt(q.location, p.location),
          PickOpt(q.vehicleReg, p.vehicleReg))
  }

  /** The empty patch changes nothing. */
  lemma MergeNoChanges(f: Fine)
    ensures Merge(f, NoChanges) == f
  {
  }

  /** Applying two patches in turn is applying their overlay once. */
  lemma MergeOverlay(f: Fine, p: Patch, q: Patch)
    ensures Merge(Merge(f, p), q) == Merge(f, Overlay(p, q))
  {
  }

  /** Applying the same patch twice is applying it once. */
  lemma MergeIdempotent(f: Fine, p: Patch)
    ensures Merge(Merge(f, p), p) == Merge(f, p)
  {
  }

  /** A patch that does not name an id keeps the fine's id; one that names an id sets it. */
  lemma MergeId(f: Fine, p: Patch)
    ensures Merge(f, p).id == (if p.id.Some? then p.id.value else f.id)
  {
  }

  // ---------------------------------------------------------------- lists of fines

  /** No two fines of the list share an id. */
  predicate UniqueIds(fines: seq<Fine>) {
    forall i, j :: 0 <= i < j < |fines| ==> fines[i].id != fines[j].id
  }

  predicate HasId(fines: seq<Fine>, id: string) {
    exists i :: 0 <= i < |fines| && fines[i].id == id
  }

  /** `fines.findIndex(fine => fine.id === id)`: the first position holding `id`, or -1. */
  function FindIndex(fines: seq<Fine>, id: string): (i: int)
    ensures -1 <= i < |fines|
    ensures i >= 0 ==> fines[i].id == id && forall j :: 0 <= j < i ==> fines[j].id != id
    ensures i == -1 <==> !HasId(fines, id)
  {
    if fines == [] then -1
    else if fines[0].id == id then 0
    else
      var k := FindIndex(fines[1..], id);
      assert forall j :: 0 < j < |fines| ==> fines[1..][j - 1] == fines[j];
      if k == -1 then -1 else k + 1
  }

  function IdIsNot(id: string): Fine -> bool {
    (f: Fine) => f.id != id
  }

  /** `fines.filter(fine => fine.id !== id)`. */
  function RemoveId(fines: seq<Fine>, id: string): seq<Fine> {
    Filter(fines, IdIsNot(id))
  }

  /** Deletion keeps exactly the fines with other ids, in their original order. */
  lemma {:induction false} RemoveIdFacts(fines: seq<Fine>, id: string)
    ensures IsSubseq(RemoveId(fines, id), fines)
    ensures !HasId(RemoveId(fines, id), id)
    ensures forall i :: 0 <= i < |fines| && fines[i].id != id ==> fines[i] in RemoveId(fines, id)
  {
    FilterIsSubseq(fines, IdIsNot(id));
    var r := RemoveId(fines, id);
    forall i | 0 <= i < |r| ensures r[i].id != id {
      assert IdIsNot(id)(r[i]);
    }
    forall i | 0 <= i < |fines| && fines[i].id != id
      ensures fines[i] in r
    {
      assert IdIsNot(id)(fines[i]);
    }
  }

  /** Deleting an id no fine has leaves the list as it was. */
  lemma RemoveAbsentId(fines: seq<Fine>, id: string)
    requires !HasId(fines, id)
    ensures RemoveId(fines, id) == fines
  {
    forall i | 0 <= i < |fines| ensures IdIsNot(id)(fines[i]) {
      assert !(fines[i].id == id);
    }
    FilterAllKept(fines, IdIsNot(id));
  }

  /** Deleting an id keeps uniqueness of ids. */
  lemma {:induction false} RemoveIdUnique(fines: seq<Fine>, id: string)
    requires UniqueIds(fines)
    ensures UniqueIds(RemoveId(fines, id))
  {
    if fines != [] {
      RemoveIdUnique(fines[1..], id);
      var rest := RemoveId(fines[1..], id);
      if fines[0].id != id {
        assert RemoveId(fines, id) == [fines[0]] + rest;
        forall j | 0 <= j < |rest| ensures fines[0].id != rest[j].id {
          assert rest[j] in fines[1..];
        }
      }
    }
  }

  /** `fines.map(fine => fine.id === id ? g : fine)`: every fine with `id` becomes `g`. */
  function ReplaceWhere(fines: seq<Fine>, id: string, g: Fine): (r: seq<Fine>)
    ensures |r| == |fines|
  {
    seq(|fines|, i requires 0 <= i < |fines| => if fines[i].id == id then g else fines[i])
  }

  /**
   * With unique ids, replacing every match is replacing the one `FindIndex` finds,
   * and with no match the list is unchanged.
   */
  lemma ReplaceWhereFirst(fines: seq<Fine>, id: string, g: Fine)
    ensures FindIndex(fines, id) == -1 ==> ReplaceWhere(fines, id, g) == fines
    ensures UniqueIds(fines) && FindIndex(fines, id) >= 0 ==>
      ReplaceWhere(fines, id, g) == fines[FindIndex(fines, id) := g]
  {
    var k := FindIndex(fines, id);
    if k == -1 {
      assert forall i :: 0 <= i < |fines| ==> fines[i].id != id;
    }
  }

  /** Two fines sharing an id are both replaced by `ReplaceWhere`, not just the first. */
  lemma ReplaceWhereDuplicates(fines: seq<Fine>, id: string, g: Fine, i: int, j: int)
    requires 0 <= i < j < |fines| && fines[i].id == id && fines[j].id == id
    ensures ReplaceWhere(fines, id, g)[j] == g
    ensures FindIndex(fines, id) <= i
  {
  }

  // ---------------------------------------------------------------- queued operations

  /** An entry of the sync queue: `{operation: 'add' | 'update' | 'delete', data}`. */
  datatype PendingOp = AddOp(fine: Fine) | UpdateOp(id: string, updates: Patch) | DeleteOp(id: string)

  /**
   * What one operation does to a list of fines, as the local service performs it:
   * append, overwrite the first match, or keep every other id. An update of an id
   * that is not there changes nothing.
   */
  function ApplyOp(fines: seq<Fine>, op: PendingOp): (r: seq<Fine>)
    ensures op.AddOp? ==> |r| == |fines| + 1 && r[..|fines|] == fines && r[|fines|] == op.fine
    ensures op.UpdateOp? ==> |r| == |fines|
    ensures op.DeleteOp? ==> IsSubseq(r, fines) && !HasId(r, op.id)
  {
    match op
    case AddOp(f) => fines + [f]
    case UpdateOp(id, p) =>
      var i := FindIndex(fines, id);
      if i == -1 then fines else fines[i := Merge(fines[i], p)]
    case DeleteOp(id) =>
      RemoveIdFacts(fines, id);
      RemoveId(fines, id)
  }

  /** An update changes only the first fine with the id, to that fine patched. */
  lemma ApplyUpdate(fines: seq<Fine>, id: string, p: Patch, k: int)
    requires 0 <= k < |fines|
    ensures var r := ApplyOp(fines, UpdateOp(id, p));
      var i := FindIndex(fines, id);
      r[k] == (if k == i then Merge(fines[k], p) else fines[k])
  {
  }

  // ---------------------------------------------------------------- stored documents

  /**
   * What can sit under a `localStorage` key once `JSON.parse` has read it: a list of
   * fines, a list of queue entries, or text that does not parse.
   */
  datatype Doc = FineList(fines: seq<Fine>) | QueueList(ops: seq<PendingOp>) | Unparsable

  /** `saved ? JSON.parse(saved) : []` with the parse error caught; a document that is not a list of fines gives `[]`. */
  function DecodeFines(d: Option<Doc>): (fines: seq<Fine>)
    ensures d.Some? && d.value.FineList? ==> fines == d.value.fines
  {
    if d.Some? && d.value.FineList? then d.value.fines else []
  }

  /** The same decoding for the sync queue. */
  function DecodeQueue(d: Option<Doc>): (ops: seq<PendingOp>)
    ensures d.Some? && d.value.QueueList? ==> ops == d.value.ops
  {
    if d.Some? && d.value.QueueList? then d.value.ops else []
  }

  /**
   * An absent key, or one holding text that does not parse, decodes to `[]`. A
   * queue stored under the fines key also decodes to `[]` here; `JSON.parse` would
   * hand such an array back as it is.
   */
  lemma DecodeFinesEmpty(d: Option<Doc>)
    ensures d.None? ==> DecodeFines(d) == []
    ensures d == Some(Unparsable) ==> DecodeFines(d) == []
    ensures d.Some? && d.value.QueueList? ==> DecodeFines(d) == []
  {
  }
}
