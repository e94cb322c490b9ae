/**
 * The browser's `localStorage`: a map from keys to stored documents. Values are
 * kept as what `JSON.parse` would make of them (see `Fines.Doc`), so
 * `JSON.stringify` followed by `JSON.parse` is the identity here.
 */
module Browser {
  import opened Wrappers
  import opened Fines

  /** One `setItem` call: the key, the document written and whether the call succeeded. */
  datatype Write = Write(key: string, value: Doc, ok: bool)

  class LocalStorage {
    /** The stored documents, by key. */
    var items: map<string, Doc>
    /** Every `setItem` call so far, the earliest first. */
    ghost var writes: seq<Write>

    constructor (items: map<string, Doc>)
      ensures this.items == items && writes == []
    {
      this.items := items;
      writes := [];
    }

    /** `getItem(key)`: the stored document, or `null` (None) for an absent key. */
    function GetItem(key: string): (d: Option<Doc>)
      reads this
      ensures d.Some? <==> key in items
      ensures d.Some? ==> d.value == items[key]
    {
      if key in items then Some(items[key]) else None
    }

    /**
     * `setItem(key, value)`: stores the document, or throws (`ok` false: quota
     * exceeded, storage disabled) and stores nothing. Whether a call succeeds is up
     * to the browser, call by call; the call and its outcome are logged.
     */
    method SetItem(key: string, value: Doc) returns (ok: bool)
      modifies this
      ensures writes == old(writes) + [Write(key, value, ok)]
      ensures items == if ok then old(items)[key := value] else old(items)
    {
      ok :| true;
      writes := writes + [Write(key, value, ok)];
      if ok {
        items := items[key := value];
      }
    }

    /**
     * Since the state (`items0`, `writes0`) one `setItem(key, value)` was made: it is
     * logged, and the store holds the value exactly when that call succeeded.
     */
    ghost predicate Attempted(key: string, value: Doc, items0: map<string, Doc>, writes0: seq<Write>)
      reads this
    {
      && |writes| == |writes0| + 1
      && writes == writes0 + [Write(key, value, writes[|writes0|].ok)]
      && items == if writes[|writes0|].ok then items0[key := value] else items0
    }
  }
}
