/**
 * The logged store: the volatile store's map plus an append-only log file.
 * `SaveURL`, and each batch entry whose code is new, append one record when
 * a file path is set and the write succeeds; `ForceSet` appends nothing.
 * Construction replays the whole log in order (last write wins, malformed
 * lines skipped).
 *
 * The file at `filePath` is modelled as a `LogFile` value: absent, not
 * openable, or present with its lines.  A line is a record (a line that
 * decodes to an `Item`), a malformed line (one that does not decode) or a
 * line too long for the line scanner, which ends the scan with an error.
 * Whether an append succeeds, and the time-stamp token it writes, are
 * oracle inputs (`AppendOracle`).
 */
module FileStorage {
  import opened StorageTypes
  import opened UrlMapOps

  /** One log record. */
  datatype Item = Item(uuid: string, shortURL: string, originalURL: string)

  datatype LogLine = Record(item: Item) | Malformed(text: string) | TooLong

  datatype LogFile = Absent | Unopenable(reason: string) | Present(lines: seq<LogLine>)

  /** What the environment does with one append: the token written as the
      record's uuid, and whether opening and writing the file succeed. */
  datatype AppendOracle = AppendOracle(uuid: string, succeeds: bool)

  const ScanTooLong: string := "bufio.Scanner: token too long"

  /** The scanner's largest buffer (bufio.MaxScanTokenSize): a line and its newline must fit in it. */
  const MaxScanTokenSize: nat := 65536

  /**
   * The bytes `encoding/json` writes for one character of a string, with
   * HTML escaping on (the encoder's default): control characters as `\n`,
   * `\t`, ... or `\u00XX`, the quote and backslash escaped, `<`, `>`, `&`,
   * U+2028 and U+2029 as `\uXXXX`, and everything else in UTF-8.
   */
  function EscapedSize(c: char): (n: nat)
    ensures 1 <= n <= 6
  {
    var v := c as int;
    if v < 0x20 then (if v == 0x08 || v == 0x09 || v == 0x0A || v == 0x0C || v == 0x0D then 2 else 6)
    else if c == '"' || c == '\\' then 2
    else if c == '<' || c == '>' || c == '&' then 6
    else if v < 0x80 then 1
    else if v == 0x2028 || v == 0x2029 then 6
    else if v < 0x800 then 2
    else if v < 0x10000 then 3
    else 4
  }

  /** The bytes a string takes inside the quotes of a JSON string. */
  function EscapedLength(s: string): nat
    decreases |s|
  {
    if s == [] then 0 else EscapedSize(s[0]) + EscapedLength(s[1..])
  }

  /** The length of the line the encoder writes for `item`, newline excluded. */
  function EncodedLength(item: Item): nat
  {
    |"{\"uuid\":\""| + EscapedLength(item.uuid)
    + |"\",\"short_url\":\""| + EscapedLength(item.shortURL)
    + |"\",\"original_url\":\""| + EscapedLength(item.originalURL)
    + |"\"}"|
  }

  /** Whether the record's line, with its newline, fits in the scanner's buffer. */
  predicate Fits(item: Item)
  {
    EncodedLength(item) + 1 <= MaxScanTokenSize
  }

  /**
   * Writing a record produces one line: one the scanner delivers and that
   * decodes back to the item, or, when it does not fit, a line too long to scan.
   */
  function Encode(item: Item): LogLine
  {
    if Fits(item) then Record(item) else TooLong
  }

  /** Decoding one scanned line; a malformed line does not decode. */
  function Parse(line: LogLine): Option<Item>
  {
    if line.Record? then Some(line.item) else None
  }

  /** Each character takes between one and six bytes once escaped. */
  lemma {:induction false} EscapedLengthBounds(s: string)
    ensures |s| <= EscapedLength(s) <= 6 * |s|
    decreases |s|
  {
    if s != [] {
      EscapedLengthBounds(s[1..]);
    }
  }

  /** A record whose original URL alone fills the buffer never scans back. */
  lemma LongURLNeverFits(item: Item)
    requires |item.originalURL| + 44 >= MaxScanTokenSize
    ensures Encode(item) == TooLong
  {
    EscapedLengthBounds(item.originalURL);
  }

  /** A record short enough even with every character escaped always scans back. */
  lemma ShortItemFits(item: Item)
    requires 6 * (|item.uuid| + |item.shortURL| + |item.originalURL|) + 45 <= MaxScanTokenSize
    ensures Encode(item) == Record(item)
  {
    EscapedLengthBounds(item.uuid);
    EscapedLengthBounds(item.shortURL);
    EscapedLengthBounds(item.originalURL);
  }

  /** The lines of the file as it stands (an absent file has none). */
  function FileLines(f: LogFile): seq<LogLine>
  {
    if f.Present? then f.lines else []
  }

  /** Applying one line during replay. */
  function ReplayLine(m: UrlMap, line: LogLine): UrlMap
  {
    match Parse(line)
    case Some(item) => m[item.shortURL := item.originalURL]
    case None => m
  }

  /** Applying lines in file order. */
  function Replay(m: UrlMap, lines: seq<LogLine>): UrlMap
    decreases |lines|
  {
    if lines == [] then m else Replay(ReplayLine(m, lines[0]), lines[1..])
  }

  /** The number of lines the scanner delivers before a line that is too long. */
  function ScanLimit(lines: seq<LogLine>): (n: nat)
    ensures n <= |lines|
    ensures forall k :: 0 <= k < n ==> !lines[k].TooLong?
    ensures n < |lines| ==> lines[n].TooLong?
    decreases |lines|
  {
    if lines == [] || lines[0].TooLong? then 0 else 1 + ScanLimit(lines[1..])
  }

  /** What constructing a store over `file` yields: the replayed map, or an error. */
  function LoadSpec(filePath: string, file: LogFile): (r: (UrlMap, Option<StoreError>))
  {
    if filePath == "" then (map[], None)
    else match file
      case Absent => (map[], None)
      case Unopenable(reason) => (map[], Some(Failure(reason)))
      case Present(lines) =>
        if ScanLimit(lines) < |lines| then (map[], Some(Failure(ScanTooLong)))
        else (Replay(map[], lines), None)
  }

  /** Replay takes one more line at the end by applying it last. */
  lemma {:induction false} ReplayAppend(m: UrlMap, lines: seq<LogLine>, line: LogLine)
    ensures Replay(m, lines + [line]) == ReplayLine(Replay(m, lines), line)
    decreases |lines|
  {
    if lines == [] {
      assert Replay(ReplayLine(m, line), []) == ReplayLine(m, line);
      assert [] + [line] == [line];
    } else {
      assert (lines + [line])[1..] == lines[1..] + [line];
      ReplayAppend(ReplayLine(m, lines[0]), lines[1..], line);
    }
  }

  /** Replay leaves a code alone when no record names it. */
  lemma {:induction false} ReplayUntouched(m: UrlMap, lines: seq<LogLine>, k: string)
    requires forall i :: 0 <= i < |lines| && lines[i].Record? ==> lines[i].item.shortURL != k
    ensures Lookup(Replay(m, lines), k) == Lookup(m, k)
    decreases |lines|
  {
    if lines != [] {
      ReplayUntouched(ReplayLine(m, lines[0]), lines[1..], k);
    }
  }

  /** Last write wins: the code holds the URL of its last record in the log. */
  lemma {:induction false} ReplayLastWriteWins(m: UrlMap, lines: seq<LogLine>, j: nat)
    requires j < |lines| && lines[j].Record?
    requires forall i :: j < i < |lines| && lines[i].Record? ==> lines[i].item.shortURL != lines[j].item.shortURL
    ensures Lookup(Replay(m, lines), lines[j].item.shortURL) == (lines[j].item.originalURL, true)
    decreases |lines|
  {
    if j == 0 {
      ReplayUntouched(ReplayLine(m, lines[0]), lines[1..], lines[0].item.shortURL);
    } else {
      ReplayLastWriteWins(ReplayLine(m, lines[0]), lines[1..], j - 1);
    }
  }

  /** A malformed line contributes nothing: dropping it gives the same map. */
  lemma {:induction false} ReplaySkipsMalformed(m: UrlMap, lines: seq<LogLine>, j: nat)
    requires j < |lines| && lines[j].Malformed?
    ensures Replay(m, lines) == Replay(m, lines[..j] + lines[j + 1..])
    decreases j
  {
    if j == 0 {
      assert lines[..0] + lines[1..] == lines[1..];
    } else {
      ReplaySkipsMalformed(ReplayLine(m, lines[0]), lines[1..], j - 1);
      assert (lines[..j] + lines[j + 1..])[0] == lines[0];
      assert (lines[..j] + lines[j + 1..])[1..] == lines[1..][..j - 1] + lines[1..][j..];
    }
  }

  /** The line an append adds to the log: none without a path or on failure. */
  function AppendedLines(filePath: string, file: LogFile, o: AppendOracle, code: string, url: string): seq<LogLine>
  {
    if filePath == "" || file.Unopenable? || !o.succeeds then [] else [Encode(Item(o.uuid, code, url))]
  }

  /** The file after appending `extra` lines (opened with create-if-missing). */
  function AppendFile(file: LogFile, extra: seq<LogLine>): LogFile
  {
    if extra == [] then file else Present(FileLines(file) + extra)
  }

  /** The line one batch entry appends: none when its code is already taken in `m`. */
  function EntryLines(filePath: string, file: LogFile, m: UrlMap, e: BatchEntry, o: AppendOracle): seq<LogLine>
  {
    if e.shortURL in m then [] else AppendedLines(filePath, file, o, e.shortURL, e.originalURL)
  }

  /** The lines a batch appends: one per entry whose code was still free. */
  function BatchLog(filePath: string, file: LogFile, m: UrlMap, es: seq<BatchEntry>, os: seq<AppendOracle>): seq<LogLine>
    requires |os| == |es|
    decreases |es|
  {
    if es == [] then []
    else
      var n := |es| - 1;
      var before := BatchLog(filePath, file, m, es[..n], os[..n]);
      before + EntryLines(filePath, file, BatchInsert(m, es[..n]), es[n], os[n])
  }

  predicate AllSucceed(os: seq<AppendOracle>)
  {
    forall i :: 0 <= i < |os| ==> os[i].succeeds
  }

  /** Every record the batch could append fits in the scanner's buffer. */
  predicate AllFit(es: seq<BatchEntry>, os: seq<AppendOracle>)
    requires |os| == |es|
  {
    forall i :: 0 <= i < |es| ==> Fits(Item(os[i].uuid, es[i].shortURL, es[i].originalURL))
  }

  /**
   * With every append succeeding, replaying the log a batch appends turns the
   * map before the batch into the map after it.
   */
  lemma {:induction false} BatchLogReplays(m0: UrlMap, log: seq<LogLine>, filePath: string, file: LogFile,
                                          es: seq<BatchEntry>, os: seq<AppendOracle>)
    requires |os| == |es| && AllSucceed(os) && AllFit(es, os) && filePath != "" && !file.Unopenable?
    ensures Replay(m0, log + BatchLog(filePath, file, Replay(m0, log), es, os))
         == BatchInsert(Replay(m0, log), es)
    decreases |es|
  {
    var m := Replay(m0, log);
    if es == [] {
      AppendNothing(log);
    } else {
      var n := |es| - 1;
      var before := BatchLog(filePath, file, m, es[..n], os[..n]);
      var mid := BatchInsert(m, es[..n]);
      BatchConditionsOfPrefix(es, os, n);
      BatchLogReplays(m0, log, filePath, file, es[..n], os[..n]);
      assert BatchLog(filePath, file, m, es, os) == before + EntryLines(filePath, file, mid, es[n], os[n]);
      if es[n].shortURL in mid {
        AppendNothing(before);
      } else {
        var item := Item(os[n].uuid, es[n].shortURL, es[n].originalURL);
        assert os[n].succeeds && Fits(item);
        AppendOneAfter(log, before, Record(item));
        ReplayAppend(m0, log + before, Record(item));
      }
    }
  }

  lemma AppendNothing(lines: seq<LogLine>)
    ensures lines + [] == lines
  {
  }

  lemma AppendOneAfter(log: seq<LogLine>, before: seq<LogLine>, line: LogLine)
    ensures log + (before + [line]) == (log + before) + [line]
  {
  }

  /** The conditions on a whole batch hold for each of its prefixes. */
  lemma BatchConditionsOfPrefix(es: seq<BatchEntry>, os: seq<AppendOracle>, n: nat)
    requires |os| == |es| && n <= |es|
    ensures AllSucceed(os) ==> AllSucceed(os[..n])
    ensures AllFit(es, os) ==> AllFit(es[..n], os[..n])
  {
  }

  /** A batch whose codes are all taken appends nothing. */
  lemma {:induction false} BatchLogAllTaken(filePath: string, file: LogFile, m: UrlMap,
                                           es: seq<BatchEntry>, os: seq<AppendOracle>)
    requires |os| == |es| && Codes(es) <= m.Keys
    ensures BatchLog(filePath, file, m, es, os) == []
    decreases |es|
  {
    if es != [] {
      var n := |es| - 1;
      CodesOfPrefix(es);
      BatchLogAllTaken(filePath, file, m, es[..n], os[..n]);
      BatchInsertKeys(m, es[..n]);
    }
  }

  /** Saving the same batch a second time adds no line to the log. */
  lemma BatchLogRepeat(filePath: string, file: LogFile, m: UrlMap, es: seq<BatchEntry>, os: seq<AppendOracle>)
    requires |os| == |es|
    ensures BatchLog(filePath, file, BatchInsert(m, es), es, os) == []
  {
    BatchInsertKeys(m, es);
    BatchLogAllTaken(filePath, file, BatchInsert(m, es), es, os);
  }

  predicate DistinctCodes(es: seq<BatchEntry>)
  {
    forall i, j :: 0 <= i < j < |es| ==> es[i].shortURL != es[j].shortURL
  }

  /** A batch of distinct new codes with successful appends adds one line per entry. */
  lemma {:induction false} BatchLogCount(filePath: string, file: LogFile, m: UrlMap,
                                        es: seq<BatchEntry>, os: seq<AppendOracle>)
    requires |os| == |es| && AllSucceed(os) && filePath != "" && !file.Unopenable?
    requires DistinctCodes(es) && Codes(es) !! m.Keys
    ensures |BatchLog(filePath, file, m, es, os)| == |es|
    decreases |es|
  {
    if es != [] {
      var n := |es| - 1;
      CodesOfPrefix(es);
      BatchLogCount(filePath, file, m, es[..n], os[..n]);
      BatchInsertKeys(m, es[..n]);
      forall i | 0 <= i < n ensures es[..n][i].shortURL != es[n].shortURL { }
      assert es[n].shortURL !in Codes(es[..n]);
    }
  }

  class Storage {
    var data: UrlMap
    const filePath: string
    /** The file at `filePath`. */
    var file: LogFile

    /** Restarting against the current file would rebuild exactly `data`. */
    ghost predicate Durable()
      reads this
    {
      LoadSpec(filePath, file) == (data, None)
    }

    /** An empty store over `filePath`, before loading. */
    constructor (filePath: string, file: LogFile)
      ensures this.filePath == filePath && this.file == file && data == map[]
    {
      this.filePath := filePath;
      this.file := file;
      data := map[];
    }

    /**
     * Builds a store and replays its log.  A missing file gives an empty
     * store; a file that cannot be opened, or a line too long to scan, fails
     * construction; without a path nothing is loaded.  A constructed store is
     * durable.
     */
    static method NewStorage(filePath: string, file: LogFile) returns (s: Storage?, err: Option<StoreError>)
      ensures err == LoadSpec(filePath, file).1
      ensures s == null <==> err.Some?
      ensures s != null ==> fresh(s) && s.filePath == filePath && s.file == file
      ensures s != null ==> s.data == LoadSpec(filePath, file).0 && s.Durable()
    {
      s := new Storage(filePath, file);
      var loadErr := s.LoadFromFile();
      if file.Present? {
        assert file.lines[..|file.lines|] == file.lines;
      }
      if loadErr.Some? && loadErr != Some(NotExist) {
        s, err := null, loadErr;
      } else {
        err := None;
      }
    }

    /**
     * Replays the file into `data`: records in file order, a later record for
     * a code overwriting an earlier one, malformed lines skipped; a line too
     * long stops the scan with an error.
     */
    method LoadFromFile() returns (err: Option<StoreError>)
      modifies this`data
      ensures filePath == "" ==> err == None && data == old(data)
      ensures filePath != "" && file.Absent? ==> err == Some(NotExist) && data == old(data)
      ensures filePath != "" && file.Unopenable? ==> err == Some(Failure(file.reason)) && data == old(data)
      ensures filePath != "" && file.Present? ==>
                data == Replay(old(data), file.lines[..ScanLimit(file.lines)]) &&
                err == (if ScanLimit(file.lines) < |file.lines| then Some(Failure(ScanTooLong)) else None)
    {
      if filePath == "" {
        return None;
      }
      match file
      case Absent =>
        return Some(NotExist);
      case Unopenable(reason) =>
        return Some(Failure(reason));
      case Present(lines) =>
        var i := 0;
        while i < |lines| && !lines[i].TooLong?
          invariant 0 <= i <= ScanLimit(lines)
          invariant data == Replay(old(data), lines[..i])
        {
          var parsed := Parse(lines[i]);
          ReplayAppend(old(data), lines[..i], lines[i]);
          assert lines[..i + 1] == lines[..i] + [lines[i]];
          i := i + 1;
          if parsed.None? {
            continue;
          }
          data := data[parsed.value.shortURL := parsed.value.originalURL];
        }
        err := if i < |lines| then Some(Failure(ScanTooLong)) else None;
    }

    /**
     * Appends one encoded record.  Without a path it does nothing and
     * succeeds; otherwise the record is added only when the file opens and
     * the write succeeds, and an error is reported when it does not.
     */
    method AppendToFile(item: Item, o: AppendOracle) returns (err: Option<StoreError>)
      requires o.uuid == item.uuid
      modifies this`file
      ensures file == AppendFile(old(file), AppendedLines(filePath, old(file), o, item.shortURL, item.originalURL))
      ensures err.None? <==> (filePath == "" || (!old(file).Unopenable? && o.succeeds))
    {
      if filePath == "" {
        return None;
      }
      if file.Unopenable? {
        return Some(Failure(file.reason));
      }
      if !o.succeeds {
        return Some(Failure("write failed"));
      }
      file := Present(FileLines(file) + [Encode(item)]);
      err := None;
    }

    /** The stored URL and true, or "" and false when the code is absent. */
    function GetURL(id: string): (r: (string, bool))
      reads this
      ensures r.1 <==> id in data
      ensures r.1 ==> r.0 == data[id]
      ensures !r.1 ==> r.0 == ""
    {
      Lookup(data, id)
    }

    /**
     * Stores `original` under the generated code, appends one record for it,
     * and returns the code with no error even when the append failed.  A
     * durable store stays durable when the append succeeds and the record
     * fits in the scanner's buffer; a record that does not fit is still
     * written, and then the next load of the file fails.
     */
    method SaveURL(userID: string, original: string, id: string, o: AppendOracle)
      returns (code: string, err: Option<StoreError>)
      modifies this
      ensures code == id && err == None
      ensures data == old(data)[id := original]
      ensures GetURL(code) == (original, true)
      ensures file == AppendFile(old(file), AppendedLines(filePath, old(file), o, id, original))
      ensures old(Durable()) && filePath != "" && o.succeeds && Fits(Item(o.uuid, id, original)) ==> Durable()
      ensures filePath != "" && !old(file).Unopenable? && o.succeeds && !Fits(Item(o.uuid, id, original))
              ==> LoadSpec(filePath, file) == (map[], Some(Failure(ScanTooLong)))
    {
      var item := Item(o.uuid, id, original);
      if filePath != "" && !file.Unopenable? && o.succeeds {
        assert o == AppendOracle(item.uuid, true);
        if Fits(item) {
          if Durable() {
            AppendKeepsDurable(filePath, file, data, item);
          }
        } else {
          OversizeAppendFailsLoad(filePath, file, item);
        }
      }
      data := data[id := original];
      var _ := AppendToFile(item, o);
      code, err := id, None;
    }

    /**
     * Writes `url` under `id` without logging it.  Durability survives only
     * when the code already held exactly that URL.
     */
    method ForceSet(id: string, url: string)
      modifies this`data
      ensures data == old(data)[id := url]
      ensures old(Durable()) ==> (Durable() <==> Lookup(old(data), id) == (url, true))
    {
      data := data[id := url];
      if old(Durable()) {
        if id in old(data) && old(data)[id] == url {
          assert data == old(data);
        } else {
          assert data[id] == url;
          assert data != old(data);
        }
      }
    }

    /** The liveness probe always succeeds. */
    function Ping(): (err: Option<StoreError>)
      ensures err.None?
    {
      None
    }

    /** One pass of the batch loop: a code still free is inserted and its record appended. */
    method SaveEntry(entry: BatchEntry, o: AppendOracle)
      modifies this`data, this`file
      ensures data == InsertIfAbsent(old(data), entry)
      ensures file == AppendFile(old(file), EntryLines(filePath, old(file), old(data), entry, o))
      ensures old(LoadSpec(filePath, file)) == (old(data), None) && filePath != "" && o.succeeds
              && Fits(Item(o.uuid, entry.shortURL, entry.originalURL))
              ==> LoadSpec(filePath, file) == (data, None)
    {
      if entry.shortURL in data {
        return;
      }
      var item := Item(o.uuid, entry.shortURL, entry.originalURL);
      ghost var durable := LoadSpec(filePath, file) == (data, None) && filePath != "" && o.succeeds && Fits(item);
      if durable {
        assert o == AppendOracle(item.uuid, true);
        AppendKeepsDurable(filePath, file, data, item);
      }
      data := data[entry.shortURL := entry.originalURL];
      var _ := AppendToFile(item, o);
    }

    /**
     * Inserts the entries in order, skipping taken codes, and appends one
     * record per inserted entry; append failures are ignored and no error is
     * returned.  A durable store stays durable when every append succeeds
     * and every record fits in the scanner's buffer.
     */
    method BatchSave(userID: string, entries: seq<BatchEntry>, os: seq<AppendOracle>) returns (err: Option<StoreError>)
      requires |os| == |entries|
      modifies this
      ensures err == None
      ensures data == BatchInsert(old(data), entries)
      ensures file == AppendFile(old(file), BatchLog(filePath, old(file), old(data), entries, os))
      ensures FileLines(file) == FileLines(old(file)) + BatchLog(filePath, old(file), old(data), entries, os)
      ensures old(Durable()) && filePath != "" && AllSucceed(os) && AllFit(entries, os) ==> Durable()
    {
      ghost var keep := Durable() && filePath != "" && AllSucceed(os) && AllFit(entries, os);
      var i := 0;
      while i < |entries|
        invariant 0 <= i <= |entries|
        invariant data == BatchInsert(old(data), entries[..i])
        invariant file == AppendFile(old(file), BatchLog(filePath, old(file), old(data), entries[..i], os[..i]))
        invariant file.Unopenable? <==> old(file).Unopenable?
        invariant keep ==> LoadSpec(filePath, file) == (data, None)
      {
        ghost var fileBefore, dataBefore := file, data;
        SaveEntry(entries[i], os[i]);
        BatchSaveStep(filePath, old(file), old(data), entries, os, i, fileBefore, dataBefore, file, data, keep);
        i := i + 1;
      }
      assert entries[..i] == entries && os[..i] == os;
      AppendFileLines(old(file), BatchLog(filePath, old(file), old(data), entries, os));
      err := None;
    }

    /** No owner tracking: the list is always empty and there is no error. */
    function GetUserURLs(userID: string): (r: (seq<UserURL>, Option<StoreError>))
      ensures r.0 == [] && r.1 == None
    {
      ([], None)
    }

    /** Soft deletion is a capability gap: always `NotImplemented`. */
    function MarkAsDeleted(userID: string, ids: seq<string>): (err: Option<StoreError>)
      ensures err == Some(NotImplemented)
    {
      Some(NotImplemented)
    }

    /** The number of stored codes. */
    function CountURLs(): (r: (int, Option<StoreError>))
      reads this
      ensures r.0 == |data.Keys| && r.1 == None
    {
      (|data|, None)
    }

    /** No owner tracking: always zero users. */
    function CountUsers(): (r: (int, Option<StoreError>))
      ensures r == (0, None)
    {
      (0, None)
    }
  }

  /** A store whose log is durable reloads, on restart, exactly the map it held. */
  method Restart(s: Storage) returns (s2: Storage?, err: Option<StoreError>)
    requires s.Durable()
    ensures err == None && s2 != null && s2.data == s.data
  {
    s2, err := Storage.NewStorage(s.filePath, s.file);
  }

  /**
   * One pass of the batch loop keeps its invariants: given what `SaveEntry`
   * promises for entry `i`, the map, the file and durability after the pass
   * are those of the batch's first `i + 1` entries.
   */
  lemma BatchSaveStep(filePath: string, file0: LogFile, m0: UrlMap, es: seq<BatchEntry>, os: seq<AppendOracle>,
                      i: nat, file: LogFile, data: UrlMap, file': LogFile, data': UrlMap, keep: bool)
    requires |os| == |es| && i < |es|
    requires data == BatchInsert(m0, es[..i])
    requires file == AppendFile(file0, BatchLog(filePath, file0, m0, es[..i], os[..i]))
    requires file.Unopenable? <==> file0.Unopenable?
    requires keep ==> filePath != "" && AllSucceed(os) && AllFit(es, os) && LoadSpec(filePath, file) == (data, None)
    requires data' == InsertIfAbsent(data, es[i])
    requires file' == AppendFile(file, EntryLines(filePath, file, data, es[i], os[i]))
    requires LoadSpec(filePath, file) == (data, None) && filePath != "" && os[i].succeeds
             && Fits(Item(os[i].uuid, es[i].shortURL, es[i].originalURL))
             ==> LoadSpec(filePath, file') == (data', None)
    ensures data' == BatchInsert(m0, es[..i + 1])
    ensures file' == AppendFile(file0, BatchLog(filePath, file0, m0, es[..i + 1], os[..i + 1]))
    ensures file'.Unopenable? <==> file0.Unopenable?
    ensures keep ==> LoadSpec(filePath, file') == (data', None)
  {
    BatchLogStep(filePath, file0, m0, es, os, i);
    var extra := EntryLines(filePath, file, data, es[i], os[i]);
    assert extra == EntryLines(filePath, file0, data, es[i], os[i]);
    AppendFileTwice(file0, BatchLog(filePath, file0, m0, es[..i], os[..i]), extra);
    if keep {
      assert os[i].succeeds && Fits(Item(os[i].uuid, es[i].shortURL, es[i].originalURL));
    }
  }

  /** The batch log grows by at most the current entry's record. */
  lemma BatchLogStep(filePath: string, file: LogFile, m: UrlMap, es: seq<BatchEntry>, os: seq<AppendOracle>, i: nat)
    requires |os| == |es| && i < |es|
    ensures BatchLog(filePath, file, m, es[..i + 1], os[..i + 1])
         == BatchLog(filePath, file, m, es[..i], os[..i])
            + EntryLines(filePath, file, BatchInsert(m, es[..i]), es[i], os[i])
    ensures BatchInsert(m, es[..i + 1]) == InsertIfAbsent(BatchInsert(m, es[..i]), es[i])
  {
    assert es[..i + 1][..i] == es[..i];
    assert os[..i + 1][..i] == os[..i];
  }

  /** Appending lines to a file adds them at the end of its lines. */
  lemma AppendFileLines(file: LogFile, extra: seq<LogLine>)
    ensures FileLines(AppendFile(file, extra)) == FileLines(file) + extra
  {
    if extra == [] {
      assert FileLines(file) + [] == FileLines(file);
    }
  }

  /** Two appends in a row are one append of both. */
  lemma AppendFileTwice(file: LogFile, a: seq<LogLine>, b: seq<LogLine>)
    ensures AppendFile(AppendFile(file, a), b) == AppendFile(file, a + b)
    ensures AppendFile(file, a + b).Unopenable? <==> file.Unopenable? && a + b == []
  {
    if a == [] {
      assert a + b == b;
    } else if b == [] {
      assert a + b == a;
    } else {
      assert FileLines(file) + a + b == FileLines(file) + (a + b);
    }
  }

  /** Appending the record of a write to a durable store's log keeps it durable. */
  lemma AppendKeepsDurable(filePath: string, file: LogFile, data: UrlMap, item: Item)
    requires LoadSpec(filePath, file) == (data, None) && filePath != "" && Fits(item)
    ensures LoadSpec(filePath, AppendFile(file, AppendedLines(filePath, file, AppendOracle(item.uuid, true), item.shortURL, item.originalURL)))
         == (data[item.shortURL := item.originalURL], None)
  {
    var lines := FileLines(file);
    assert ScanLimit(lines) == |lines|;
    assert Replay(map[], lines) == data;
    ReplayAppend(map[], lines, Encode(item));
    ScanLimitAppend(lines, [Encode(item)]);
  }

  /** A batch whose records all fit appends only lines the scanner delivers, each a record. */
  lemma {:induction false} BatchLogNoTooLong(filePath: string, file: LogFile, m: UrlMap,
                                            es: seq<BatchEntry>, os: seq<AppendOracle>)
    requires |os| == |es| && AllFit(es, os)
    ensures forall k :: 0 <= k < |BatchLog(filePath, file, m, es, os)| ==> BatchLog(filePath, file, m, es, os)[k].Record?
    decreases |es|
  {
    if es != [] {
      BatchLogNoTooLong(filePath, file, m, es[..|es| - 1], os[..|os| - 1]);
    }
  }

  /** A line too long anywhere in the log makes loading fail, whatever else the log holds. */
  lemma TooLongFailsLoad(filePath: string, lines: seq<LogLine>, k: nat)
    requires filePath != "" && k < |lines| && lines[k].TooLong?
    ensures LoadSpec(filePath, Present(lines)) == (map[], Some(Failure(ScanTooLong)))
  {
    assert ScanLimit(lines) <= k;
  }

  /**
   * A successful append of a record too long for the scanner makes the next
   * load of the file fail, whatever the file held before.
   */
  lemma OversizeAppendFailsLoad(filePath: string, file: LogFile, item: Item)
    requires filePath != "" && !file.Unopenable? && !Fits(item)
    ensures LoadSpec(filePath, AppendFile(file, AppendedLines(filePath, file, AppendOracle(item.uuid, true), item.shortURL, item.originalURL)))
         == (map[], Some(Failure(ScanTooLong)))
  {
    var lines := FileLines(file) + [TooLong];
    assert lines[|lines| - 1].TooLong?;
    TooLongFailsLoad(filePath, lines, |lines| - 1);
  }

  /** Appending lines that all scan leaves the whole log scannable. */
  lemma ScanLimitAppend(lines: seq<LogLine>, extra: seq<LogLine>)
    requires ScanLimit(lines) == |lines|
    requires forall k :: 0 <= k < |extra| ==> !extra[k].TooLong?
    ensures ScanLimit(lines + extra) == |lines + extra|
  {
    var all := lines + extra;
    forall k | 0 <= k < |all| ensures !all[k].TooLong? {
      if k < |lines| { assert all[k] == lines[k]; } else { assert all[k] == extra[k - |lines|]; }
    }
  }
}
