/**
 * The volatile store: one code-to-URL map in process memory.  Saving always
 * writes under a freshly generated code, with no content deduplication; the
 * owner and soft-delete operations are stubs.  The generated code is the
 * output of the ID generator, passed in as `id`.
 */
module MemoryStorage {
  import opened StorageTypes
  import opened UrlMapOps

  class Storage {
    var data: UrlMap

    /** An empty store; construction never fails. */
    constructor ()
      ensures data == map[]
    {
      data := map[];
    }

    /** The stored URL and true, or "" and false when the code is absent. */
    function GetURL(id: string): (r: (string, bool))
      reads this
      ensures r.1 <==> id in data
      ensures r.1 ==> r.0 == data[id]
      ensures !r.1 ==> r.0 == ""
    {
      Lookup(data, id)
    }

    /**
     * Stores `original` under the generated code and returns that code with no
     * error.  Only that code changes, and whatever it held is overwritten.
     */
    method SaveURL(userID: string, original: string, id: string) returns (code: string, err: Option<StoreError>)
      modifies this
      ensures code == id && err == None
      ensures data == old(data)[id := original]
      ensures GetURL(code) == (original, true)
      ensures forall k :: k != code ==> GetURL(k) == old(GetURL(k))
    {
      data := data[id := original];
      code, err := id, None;
    }

    /** Writes `url` under `id` unconditionally; nothing else changes. */
    method ForceSet(id: string, url: string)
      modifies this
      ensures data == old(data)[id := url]
      ensures GetURL(id) == (url, true)
      ensures forall k :: k != id ==> GetURL(k) == old(GetURL(k))
    {
      data := data[id := url];
    }

    /** The liveness probe always succeeds. */
    function Ping(): (err: Option<StoreError>)
      ensures err.None?
    {
      None
    }

    /**
     * Inserts the entries in order, skipping every entry whose code is
     * already stored (also one stored earlier in the same batch); always
     * returns no error.
     */
    method BatchSave(userID: string, entries: seq<BatchEntry>) returns (err: Option<StoreError>)
      modifies this
      ensures err == None
      ensures data == BatchInsert(old(data), entries)
    {
      var i := 0;
      while i < |entries|
        invariant 0 <= i <= |entries|
        invariant data == BatchInsert(old(data), entries[..i])
      {
        var entry := entries[i];
        if entry.shortURL !in data {
          data := data[entry.shortURL := entry.originalURL];
        }
        assert entries[..i + 1][..i] == entries[..i];
        i := i + 1;
      }
      assert entries[..i] == entries;
      err := None;
    }

    /** No owner tracking: the list is always empty and there is no error. */
    function GetUserURLs(userID: string): (r: (seq<UserURL>, Option<StoreError>))
      ensures r.0 == [] && r.1 == None
    {
      ([], None)
    }

    /** Soft deletion is a capability gap: always `NotImplemented`. */
    function MarkAsDeleted(userID: string, ids: seq<string>): (err: Option<StoreError>)
      ensures err == Some(NotImplemented)
    {
      Some(NotImplemented)
    }

    /** The number of stored codes. */
    function CountURLs(): (r: (int, Option<StoreError>))
      reads this
      ensures r.0 == |data.Keys| && r.1 == None
    {
      (|data|, None)
    }

    /** No owner tracking: always zero users. */
    function CountUsers(): (r: (int, Option<StoreError>))
      ensures r == (0, None)
    {
      (0, None)
    }
  }

  /**
   * The same batch saved twice leaves the store as the first save left it,
   * and both saves report no error.
   */
  method BatchSaveTwice(s: Storage, userID: string, entries: seq<BatchEntry>)
    returns (e1: Option<StoreError>, e2: Option<StoreError>)
    modifies s
    ensures e1 == None && e2 == None
    ensures s.data == BatchInsert(old(s.data), entries)
  {
    e1 := s.BatchSave(userID, entries);
    ghost var once := s.data;
    e2 := s.BatchSave(userID, entries);
    BatchInsertIdempotent(old(s.data), entries);
    assert s.data == once;
  }
}
