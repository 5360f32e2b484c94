/**
 * The service facade between the adapters and the active backend.  The
 * backend is reached through an interface, so each backend call is an input
 * here: the reply it gives (`SaveReply`, the counts) or, where the facade
 * chooses the argument, a function from argument to reply.  The codes the ID
 * generator hands out are inputs too.
 */
module Service {
  import opened StorageTypes
  import opened UrlMapOps
  import MemoryStorage
  import FileStorage

  datatype BatchRequestItem = BatchRequestItem(correlationID: string, originalURL: string)

  datatype ShortenBatchResult = ShortenBatchResult(correlationID: string, shortURL: string)

  /** Errors the facade reports: its own two, or the backend's, passed through. */
  datatype ServiceError = EmptyOriginalURL | AlreadyExists | Repo(err: StoreError)

  /** A backend's answer to `SaveURL`: the code and the error, if any. */
  datatype SaveReply = SaveReply(id: string, err: Option<StoreError>)

  datatype Stats = Stats(urls: int, users: int)

  /** Whether the backend offers a liveness probe, and what it answers. */
  datatype Pinger = NoPing | HasPing(reply: Option<StoreError>)

  /** White space as the Unicode White_Space property defines it (Go's `unicode.IsSpace`). */
  predicate IsSpace(c: char)
  {
    c == '\t' || c == '\n' || c == '\U{0B}' || c == '\U{0C}' || c == '\r' || c == ' '
    || c == '\U{85}' || c == '\U{A0}' || c == '\U{1680}' || '\U{2000}' <= c <= '\U{200A}'
    || c == '\U{2028}' || c == '\U{2029}' || c == '\U{202F}' || c == '\U{205F}' || c == '\U{3000}'
  }

  /** Drops leading white space: the result is a suffix of `s` starting at a non-space. */
  function TrimLeftSpace(s: string): (r: string)
    ensures |r| <= |s| && r == s[|s| - |r|..]
    ensures forall k :: 0 <= k < |s| - |r| ==> IsSpace(s[k])
    ensures r != [] ==> !IsSpace(r[0])
    decreases |s|
  {
    if s != [] && IsSpace(s[0]) then TrimLeftSpace(s[1..]) else s
  }

  /** Drops trailing white space: the result is a prefix of `s` ending at a non-space. */
  function TrimRightSpace(s: string): (r: string)
    ensures |r| <= |s| && r == s[..|r|]
    ensures forall k :: |r| <= k < |s| ==> IsSpace(s[k])
    ensures r != [] ==> !IsSpace(r[|r| - 1])
    decreases |s|
  {
    if s != [] && IsSpace(s[|s| - 1]) then TrimRightSpace(s[..|s| - 1]) else s
  }

  /** Go's `strings.TrimSpace`: strips white space from both ends. */
  function TrimSpace(s: string): string
  {
    TrimRightSpace(TrimLeftSpace(s))
  }

  /**
   * The trimmed string is the contiguous middle `s[i..j]` of `s` between a
   * run of leading and a run of trailing white space, and has none at either
   * end.
   */
  lemma TrimSpaceShape(s: string) returns (i: nat, j: nat)
    ensures i <= j <= |s| && TrimSpace(s) == s[i..j]
    ensures forall k :: 0 <= k < i ==> IsSpace(s[k])
    ensures forall k :: j <= k < |s| ==> IsSpace(s[k])
    ensures TrimSpace(s) != [] ==> !IsSpace(TrimSpace(s)[0]) && !IsSpace(TrimSpace(s)[|TrimSpace(s)| - 1])
  {
    i, j := TrimShapeOf(s, TrimLeftSpace(s), TrimSpace(s));
  }

  /**
   * The shape of a trim, stated over plain strings: `l` is `s` without its
   * leading white space and `t` is `l` without its trailing white space.
   */
  lemma TrimShapeOf(s: string, l: string, t: string) returns (i: nat, j: nat)
    requires |l| <= |s| && l == s[|s| - |l|..]
    requires forall k :: 0 <= k < |s| - |l| ==> IsSpace(s[k])
    requires l != [] ==> !IsSpace(l[0])
    requires |t| <= |l| && t == l[..|t|]
    requires forall k :: |t| <= k < |l| ==> IsSpace(l[k])
    requires t != [] ==> !IsSpace(t[|t| - 1])
    ensures i <= j <= |s| && t == s[i..j]
    ensures forall k :: 0 <= k < i ==> IsSpace(s[k])
    ensures forall k :: j <= k < |s| ==> IsSpace(s[k])
    ensures t != [] ==> !IsSpace(t[0]) && !IsSpace(t[|t| - 1])
  {
    i := |s| - |l|;
    j := i + |t|;
    SuffixSpaces(s, i, l, |t|);
    PrefixOfSuffix(s, i, l, t);
  }

  /** A prefix `r` of the suffix `l == s[i..]` is the slice of `s` from `i`, and starts as `l` does. */
  lemma PrefixOfSuffix(s: string, i: nat, l: string, r: string)
    requires i <= |s| && l == s[i..] && |r| <= |l| && r == l[..|r|]
    ensures r == s[i..i + |r|]
    ensures r != [] ==> r[0] == l[0]
  {
  }

  /** White space at the end of the suffix `s[i..]` is white space at the end of `s`. */
  lemma SuffixSpaces(s: string, i: nat, l: string, n: nat)
    requires i <= |s| && l == s[i..] && n <= |l|
    requires forall k :: n <= k < |l| ==> IsSpace(l[k])
    ensures forall k :: i + n <= k < |s| ==> IsSpace(s[k])
  {
    forall k | i + n <= k < |s| ensures IsSpace(s[k]) {
      assert s[k] == l[k - i];
    }
  }

  /** A string of white space only trims away entirely from the left. */
  lemma {:induction false} AllSpaceTrimsLeft(s: string)
    requires forall k :: 0 <= k < |s| ==> IsSpace(s[k])
    ensures TrimLeftSpace(s) == []
    decreases |s|
  {
    if s != [] {
      AllSpaceTrimsLeft(s[1..]);
    }
  }

  /** The input is rejected as empty exactly when it is all white space. */
  lemma TrimSpaceEmpty(s: string)
    ensures TrimSpace(s) == [] <==> forall k :: 0 <= k < |s| ==> IsSpace(s[k])
  {
    if forall k :: 0 <= k < |s| ==> IsSpace(s[k]) {
      AllSpaceTrimsLeft(s);
    }
  }

  /** Trimming twice is trimming once. */
  lemma TrimSpaceIdempotent(s: string)
    ensures TrimSpace(TrimSpace(s)) == TrimSpace(s)
  {
    var t := TrimSpace(s);
    var _, _ := TrimSpaceShape(s);
    if t != [] {
      assert TrimLeftSpace(t) == t;
      assert TrimRightSpace(t) == t;
    }
  }

  /** The short link the facade hands out for a code. */
  function ShortLink(baseURL: string, id: string): string
  {
    baseURL + "/" + id
  }

  /**
   * Trims the URL; a blank URL is rejected before the backend is called.
   * Otherwise the trimmed URL is saved, and the link to the returned code is
   * reported, with `AlreadyExists` in place of the backend's conflict and
   * any other backend error passed through.
   */
  function CreateShort(baseURL: string, original: string, save: string -> SaveReply): (r: (string, Option<ServiceError>))
    ensures TrimSpace(original) == "" ==> r == ("", Some(EmptyOriginalURL))
    ensures TrimSpace(original) != "" ==>
              var reply := save(TrimSpace(original));
              && r.0 == ShortLink(baseURL, reply.id)
              && (r.1 == Some(AlreadyExists) <==> reply.err == Some(Conflict))
              && (reply.err == None <==> r.1 == None)
              && (reply.err.Some? && reply.err != Some(Conflict) ==> r.1 == Some(Repo(reply.err.value)))
  {
    var trimmed := TrimSpace(original);
    if trimmed == "" then ("", Some(EmptyOriginalURL))
    else
      var reply := save(trimmed);
      if reply.err == Some(Conflict) then (ShortLink(baseURL, reply.id), Some(AlreadyExists))
      else (ShortLink(baseURL, reply.id), if reply.err.Some? then Some(Repo(reply.err.value)) else None)
  }

  /** Surrounding white space does not change what is created. */
  lemma CreateShortIgnoresPadding(baseURL: string, original: string, save: string -> SaveReply)
    ensures CreateShort(baseURL, TrimSpace(original), save) == CreateShort(baseURL, original, save)
  {
    TrimSpaceIdempotent(original);
  }

  /**
   * The facade over the in-memory backend: a blank URL is rejected and the
   * store is left alone; any other URL is stored trimmed under the generated
   * code, and its link comes back with no error, never `AlreadyExists`.
   */
  method CreateShortOnMemory(s: MemoryStorage.Storage, baseURL: string, userID: string, original: string, id: string)
    returns (r: (string, Option<ServiceError>))
    modifies s
    ensures TrimSpace(original) == "" ==> r == ("", Some(EmptyOriginalURL)) && s.data == old(s.data)
    ensures TrimSpace(original) != "" ==>
              r == (ShortLink(baseURL, id), None) && s.data == old(s.data)[id := TrimSpace(original)]
  {
    var trimmed := TrimSpace(original);
    if trimmed == "" {
      return CreateShort(baseURL, original, _ => SaveReply(id, None));
    }
    var code, err := s.SaveURL(userID, trimmed, id);
    r := CreateShort(baseURL, original, _ => SaveReply(code, err));
  }

  /**
   * The facade over the logged backend: as over the in-memory one, whether
   * or not the append succeeds.  A blank URL leaves the log alone; any other
   * URL's record is appended when the write succeeds, and a store that was
   * durable stays durable when that record fits the scanner's line limit.
   */
  method CreateShortOnFile(s: FileStorage.Storage, baseURL: string, userID: string, original: string, id: string,
                           o: FileStorage.AppendOracle)
    returns (r: (string, Option<ServiceError>))
    modifies s
    ensures TrimSpace(original) == "" ==>
              r == ("", Some(EmptyOriginalURL)) && s.data == old(s.data) && s.file == old(s.file)
    ensures TrimSpace(original) != "" ==>
              r == (ShortLink(baseURL, id), None) && s.data == old(s.data)[id := TrimSpace(original)]
    ensures TrimSpace(original) != "" ==>
              s.file == FileStorage.AppendFile(old(s.file),
                                               FileStorage.AppendedLines(s.filePath, old(s.file), o, id, TrimSpace(original)))
    ensures old(s.Durable()) && s.filePath != "" && o.succeeds
            && (TrimSpace(original) != "" ==> FileStorage.Fits(FileStorage.Item(o.uuid, id, TrimSpace(original))))
            ==> s.Durable()
  {
    var trimmed := TrimSpace(original);
    if trimmed == "" {
      return CreateShort(baseURL, original, _ => SaveReply(id, None));
    }
    var code, err := s.SaveURL(userID, trimmed, id, o);
    r := CreateShort(baseURL, original, _ => SaveReply(code, err));
  }

  /** The batch the facade sends: one entry per item, under that item's generated code. */
  function EntriesFor(input: seq<BatchRequestItem>, codes: seq<string>): (es: seq<BatchEntry>)
    requires |codes| == |input|
    ensures |es| == |input|
    ensures forall i :: 0 <= i < |es| ==> es[i] == BatchEntry(codes[i], input[i].originalURL, input[i].correlationID)
  {
    seq(|input|, i requires 0 <= i < |input| => BatchEntry(codes[i], input[i].originalURL, input[i].correlationID))
  }

  /**
   * Generates one code per item (`codes[i]` for item i), saves them as one
   * batch, and answers with one result per item, in input order, carrying
   * the item's correlation token and the link to its generated code.  If the
   * batch save fails there are no results, only the error.
   */
  method CreateShortBatch(baseURL: string, userID: string, input: seq<BatchRequestItem>, codes: seq<string>,
                          batchSave: seq<BatchEntry> -> Option<StoreError>)
    returns (results: seq<ShortenBatchResult>, err: Option<StoreError>)
    requires |codes| == |input|
    ensures err == batchSave(EntriesFor(input, codes))
    ensures err.Some? ==> results == []
    ensures err.None? ==> |results| == |input|
    ensures err.None? ==> forall i :: 0 <= i < |input| ==>
              results[i] == ShortenBatchResult(input[i].correlationID, ShortLink(baseURL, codes[i]))
  {
    var entries: seq<BatchEntry> := [];
    results := [];
    for i := 0 to |input|
      invariant |entries| == i && |results| == i
      invariant forall k :: 0 <= k < i ==> entries[k] == BatchEntry(codes[k], input[k].originalURL, input[k].correlationID)
      invariant forall k :: 0 <= k < i ==> results[k] == ShortenBatchResult(input[k].correlationID, ShortLink(baseURL, codes[k]))
    {
      var item := input[i];
      var short := codes[i];
      entries := entries + [BatchEntry(short, item.originalURL, item.correlationID)];
      results := results + [ShortenBatchResult(item.correlationID, ShortLink(baseURL, short))];
    }
    assert entries == EntriesFor(input, codes);
    err := batchSave(entries);
    if err.Some? {
      results := [];
    }
  }

  /**
   * On a map-only backend, a batch result whose code was new and not repeated
   * in the batch resolves to its item's URL; a result whose code was already
   * taken keeps resolving to the URL stored before.
   */
  lemma BatchResultsResolve(m: UrlMap, input: seq<BatchRequestItem>, codes: seq<string>, i: nat)
    requires |codes| == |input| && i < |input|
    requires forall k :: 0 <= k < i ==> codes[k] != codes[i]
    ensures codes[i] !in m ==> Lookup(BatchInsert(m, EntriesFor(input, codes)), codes[i]) == (input[i].originalURL, true)
    ensures codes[i] in m ==> Lookup(BatchInsert(m, EntriesFor(input, codes)), codes[i]) == (m[codes[i]], true)
  {
    var es := EntriesFor(input, codes);
    if codes[i] in m {
      BatchInsertKeepsExisting(m, es, codes[i]);
    } else {
      BatchInsertFirstWins(m, es, i);
    }
  }

  /** The backend's probe when it has one; no error when it has none. */
  function Ping(repo: Pinger): (err: Option<StoreError>)
    ensures repo.NoPing? ==> err.None?
    ensures repo.HasPing? ==> err == repo.reply
  {
    match repo
    case NoPing => None
    case HasPing(reply) => reply
  }

  /** Both map-based backends answer the probe with no error. */
  lemma PingOfMapBackends(m: MemoryStorage.Storage, f: FileStorage.Storage)
    ensures Ping(HasPing(m.Ping())) == None && Ping(HasPing(f.Ping())) == None
  {
  }

  /**
   * The link and user counts, or the first error met: a failing link count
   * wins over a failing user count, and any error gives zero counts.
   */
  function GetStats(countURLs: (int, Option<StoreError>), countUsers: (int, Option<StoreError>)): (r: (Stats, Option<StoreError>))
    ensures countURLs.1.Some? ==> r == (Stats(0, 0), countURLs.1)
    ensures countURLs.1.None? && countUsers.1.Some? ==> r == (Stats(0, 0), countUsers.1)
    ensures r.1.None? <==> countURLs.1.None? && countUsers.1.None?
    ensures r.1.None? ==> r.0 == Stats(countURLs.0, countUsers.0)
  {
    if countURLs.1.Some? then (Stats(0, 0), countURLs.1)
    else if countUsers.1.Some? then (Stats(0, 0), countUsers.1)
    else (Stats(countURLs.0, countUsers.0), None)
  }

  /** Over a map-based backend the stats are the number of stored codes and zero users. */
  lemma StatsOfMapBackends(m: MemoryStorage.Storage, f: FileStorage.Storage)
    ensures GetStats(m.CountURLs(), m.CountUsers()) == (Stats(|m.data|, 0), None)
    ensures GetStats(f.CountURLs(), f.CountUsers()) == (Stats(|f.data|, 0), None)
  {
  }
}
