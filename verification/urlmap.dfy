/**
 * The code-to-URL map semantics shared by the legacy, volatile and logged
 * stores: lookup with Go's zero-value convention, and the skip-existing
 * batch insert, with the facts the stores' callers rely on.
 */
module UrlMapOps {
  import opened StorageTypes

  /** A Go map read `url, ok := m[id]`: the empty string when absent. */
  function Lookup(m: UrlMap, id: string): (string, bool)
  {
    if id in m then (m[id], true) else ("", false)
  }

  /** One step of a batch insert: an entry whose code is already taken is skipped. */
  function InsertIfAbsent(m: UrlMap, e: BatchEntry): UrlMap
  {
    if e.shortURL in m then m else m[e.shortURL := e.originalURL]
  }

  /** The map after inserting `es` in order, skipping every taken code. */
  function BatchInsert(m: UrlMap, es: seq<BatchEntry>): UrlMap
    decreases |es|
  {
    if es == [] then m else InsertIfAbsent(BatchInsert(m, es[..|es| - 1]), es[|es| - 1])
  }

  /** The codes named by a batch. */
  function Codes(es: seq<BatchEntry>): set<string>
  {
    set i | 0 <= i < |es| :: es[i].shortURL
  }

  lemma CodesOfPrefix(es: seq<BatchEntry>)
    requires es != []
    ensures Codes(es) == Codes(es[..|es| - 1]) + {es[|es| - 1].shortURL}
  {
    var pre := es[..|es| - 1];
    forall c | c in Codes(es) ensures c in Codes(pre) + {es[|es| - 1].shortURL} {
      var i :| 0 <= i < |es| && es[i].shortURL == c;
      if i < |es| - 1 { assert pre[i] == es[i]; }
    }
    forall c | c in Codes(pre) ensures c in Codes(es) {
      var i :| 0 <= i < |pre| && pre[i].shortURL == c;
      assert es[i] == pre[i];
    }
  }

  /** A batch never overwrites a code that was already stored. */
  lemma {:induction false} BatchInsertKeepsExisting(m: UrlMap, es: seq<BatchEntry>, k: string)
    requires k in m
    ensures k in BatchInsert(m, es) && BatchInsert(m, es)[k] == m[k]
    decreases |es|
  {
    if es != [] {
      BatchInsertKeepsExisting(m, es[..|es| - 1], k);
    }
  }

  /** Afterwards exactly the old codes and the batch's codes are stored. */
  lemma {:induction false} BatchInsertKeys(m: UrlMap, es: seq<BatchEntry>)
    ensures BatchInsert(m, es).Keys == m.Keys + Codes(es)
    decreases |es|
  {
    if es != [] {
      BatchInsertKeys(m, es[..|es| - 1]);
      CodesOfPrefix(es);
    }
  }

  /** Within one batch the first entry for a new code wins. */
  lemma {:induction false} BatchInsertFirstWins(m: UrlMap, es: seq<BatchEntry>, j: nat)
    requires j < |es| && es[j].shortURL !in m
    requires forall i :: 0 <= i < j ==> es[i].shortURL != es[j].shortURL
    ensures es[j].shortURL in BatchInsert(m, es)
    ensures BatchInsert(m, es)[es[j].shortURL] == es[j].originalURL
    decreases |es|
  {
    var pre := es[..|es| - 1];
    if j == |es| - 1 {
      BatchInsertKeys(m, pre);
      forall i | 0 <= i < |pre| ensures pre[i].shortURL != es[j].shortURL {
        assert pre[i] == es[i];
      }
    } else {
      assert pre[j] == es[j];
      BatchInsertFirstWins(m, pre, j);
      BatchInsertKeepsExisting(BatchInsert(m, pre), [es[|es| - 1]], es[j].shortURL);
      assert [es[|es| - 1]][..0] == [];
    }
  }

  /** A batch whose codes are all taken changes nothing. */
  lemma {:induction false} BatchInsertAllTaken(m: UrlMap, es: seq<BatchEntry>)
    requires Codes(es) <= m.Keys
    ensures BatchInsert(m, es) == m
    decreases |es|
  {
    if es != [] {
      CodesOfPrefix(es);
      BatchInsertAllTaken(m, es[..|es| - 1]);
    }
  }

  /** Repeating a batch leaves the map as the first run left it. */
  lemma BatchInsertIdempotent(m: UrlMap, es: seq<BatchEntry>)
    ensures BatchInsert(BatchInsert(m, es), es) == BatchInsert(m, es)
  {
    BatchInsertKeys(m, es);
    BatchInsertAllTaken(BatchInsert(m, es), es);
  }
}
