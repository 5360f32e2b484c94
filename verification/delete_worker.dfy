/**
 * The background deletion worker.  It keeps, per owner, the codes waiting to
 * be marked deleted, and reacts to one event at a time: a deletion task, a
 * timer tick, the task channel closing, or cancellation.  Each reaction
 * issues some `MarkAsDeleted(owner, codes)` calls to the backend; their
 * errors are ignored, so only the calls themselves are observable.
 *
 * As written, the periodic flush sends every non-empty pending list but
 * clears none of them, so every later tick sends the same codes again; only
 * the batch-size path empties an owner's list.
 *
 * A flush visits owners in the map's iteration order, which Go leaves
 * unspecified, so the calls one event makes are specified as a set.
 */
module DeleteWorker {
  import opened StorageTypes

  /** Pending list length at which an owner's list is sent at once. */
  const MaxBatchSize: nat := 100

  datatype Event = Task(userID: string, ids: seq<string>) | Tick | ChannelClosed | Cancelled

  datatype MarkCall = MarkCall(userID: string, ids: seq<string>)

  type Buffer = map<string, seq<string>>

  /** The worker's state: the pending lists, and whether its loop still runs. */
  datatype Worker = Worker(buffer: Buffer, running: bool)

  const Start: Worker := Worker(map[], true)

  function Pending(b: Buffer, u: string): seq<string>
  {
    if u in b then b[u] else []
  }

  /** One call per owner among `users` whose pending list is non-empty. */
  function PendingCallsAmong(b: Buffer, users: set<string>): set<MarkCall>
  {
    set u | u in users && u in b && b[u] != [] :: MarkCall(u, b[u])
  }

  /** What a flush of the whole buffer sends. */
  function PendingCalls(b: Buffer): set<MarkCall>
  {
    PendingCallsAmong(b, b.Keys)
  }

  /** The call a task makes when it brings its owner's list to the batch size. */
  function TaskCall(w: Worker, u: string, ids: seq<string>): (c: Option<MarkCall>)
  {
    var l := Pending(w.buffer, u) + ids;
    if |l| >= MaxBatchSize then Some(MarkCall(u, l)) else None
  }

  /** The state after one event; a stopped worker no longer reacts. */
  function Next(w: Worker, e: Event): Worker
  {
    if !w.running then w
    else match e
      case Task(u, ids) =>
        var l := Pending(w.buffer, u) + ids;
        Worker(w.buffer[u := if |l| >= MaxBatchSize then [] else l], true)
      case Tick => w
      case ChannelClosed => Worker(w.buffer, false)
      case Cancelled => Worker(w.buffer, false)
  }

  /** The calls one event makes. */
  function Output(w: Worker, e: Event): set<MarkCall>
  {
    if !w.running then {}
    else match e
      case Task(u, ids) => if TaskCall(w, u, ids).Some? then {TaskCall(w, u, ids).value} else {}
      case _ => PendingCalls(w.buffer)
  }

  /** The state after a sequence of events, from the start state. */
  function Run(events: seq<Event>): Worker
    decreases |events|
  {
    if events == [] then Start else Next(Run(events[..|events| - 1]), events[|events| - 1])
  }

  /** Visiting one more owner adds its call, if any, to what the visited owners send. */
  lemma PendingCallsAdd(b: Buffer, done: set<string>, u: string, calls: seq<MarkCall>)
    requires u in b && u !in done
    requires multiset(calls) == multiset(PendingCallsAmong(b, done))
    ensures b[u] != [] ==> multiset(calls + [MarkCall(u, b[u])]) == multiset(PendingCallsAmong(b, done + {u}))
    ensures b[u] == [] ==> multiset(calls) == multiset(PendingCallsAmong(b, done + {u}))
  {
    var before := PendingCallsAmong(b, done);
    assert MarkCall(u, b[u]) !in before;
    if b[u] != [] {
      assert PendingCallsAmong(b, done + {u}) == before + {MarkCall(u, b[u])};
      assert multiset(before + {MarkCall(u, b[u])}) == multiset(before) + multiset{MarkCall(u, b[u])};
    } else {
      assert PendingCallsAmong(b, done + {u}) == before;
    }
  }

  /**
   * Sends one call per owner with a non-empty pending list and none for
   * empty lists; the buffer itself is left as it was.
   */
  method FlushBuffer(buffer: Buffer) returns (calls: seq<MarkCall>)
    ensures multiset(calls) == multiset(PendingCalls(buffer))
  {
    calls := [];
    var todo := buffer.Keys;
    while todo != {}
      invariant todo <= buffer.Keys
      invariant multiset(calls) == multiset(PendingCallsAmong(buffer, buffer.Keys - todo))
      decreases |todo|
    {
      var u :| u in todo;
      var ids := buffer[u];
      ghost var done := buffer.Keys - todo;
      PendingCallsAdd(buffer, done, u, calls);
      if |ids| > 0 {
        calls := calls + [MarkCall(u, ids)];
      }
      assert buffer.Keys - (todo - {u}) == done + {u};
      todo := todo - {u};
    }
  }

  /**
   * Handles one event.  A task appends its codes to its owner's list and, when
   * the list reaches the batch size, sends the whole list in one call and
   * empties it.  A tick flushes every list without clearing it.  Closing or
   * cancellation flushes every list and stops the worker.
   */
  method Step(w: Worker, e: Event) returns (w': Worker, calls: seq<MarkCall>)
    requires w.running
    ensures w' == Next(w, e)
    ensures multiset(calls) == multiset(Output(w, e))
  {
    var buffer := w.buffer;
    match e
    case Task(u, ids) =>
      buffer := buffer[u := Pending(buffer, u) + ids];
      calls := [];
      if |buffer[u]| >= MaxBatchSize {
        calls := [MarkCall(u, buffer[u])];
        buffer := buffer[u := []];
      }
      w' := Worker(buffer, true);
    case Tick =>
      calls := FlushBuffer(buffer);
      w' := w;
    case ChannelClosed =>
      calls := FlushBuffer(buffer);
      w' := Worker(buffer, false);
    case Cancelled =>
      calls := FlushBuffer(buffer);
      w' := Worker(buffer, false);
  }

  /**
   * The worker's loop over the events it receives, until it stops.  `out[k]`
   * holds the calls made for `events[k]`; events after the stop are never
   * consumed and would make no call.
   */
  method RunWorker(events: seq<Event>) returns (w: Worker, out: seq<seq<MarkCall>>)
    ensures |out| <= |events|
    ensures w == Run(events)
    ensures |out| < |events| ==> !Run(events[..|out|]).running
    ensures forall k :: 0 <= k < |out| ==> Run(events[..k]).running
    ensures forall k :: 0 <= k < |out| ==> multiset(out[k]) == multiset(Output(Run(events[..k]), events[k]))
  {
    w := Start;
    out := [];
    var i := 0;
    while i < |events| && w.running
      invariant 0 <= i <= |events| && |out| == i
      invariant w == Run(events[..i])
      invariant RanThrough(events, i)
      invariant OutputsMatch(events, out)
    {
      RunPrefix(events, i);
      var calls;
      w, calls := Step(w, events[i]);
      OutputsMatchExtend(events, out, calls);
      RanThroughExtend(events, i);
      out := out + [calls];
      i := i + 1;
    }
    RunAfterStop(events, i);
  }

  /** `out[k]` holds the calls made for `events[k]`, for every recorded event. */
  ghost predicate OutputsMatch(events: seq<Event>, out: seq<seq<MarkCall>>)
    requires |out| <= |events|
  {
    forall k :: 0 <= k < |out| ==> multiset(out[k]) == multiset(Output(Run(events[..k]), events[k]))
  }

  /** The worker was running before each of the first `n` events. */
  ghost predicate RanThrough(events: seq<Event>, n: nat)
    requires n <= |events|
  {
    forall k :: 0 <= k < n ==> Run(events[..k]).running
  }

  lemma RanThroughExtend(events: seq<Event>, n: nat)
    requires n < |events| && RanThrough(events, n) && Run(events[..n]).running
    ensures RanThrough(events, n + 1)
  {
  }

  lemma OutputsMatchExtend(events: seq<Event>, out: seq<seq<MarkCall>>, calls: seq<MarkCall>)
    requires |out| < |events| && OutputsMatch(events, out)
    requires multiset(calls) == multiset(Output(Run(events[..|out|]), events[|out|]))
    ensures OutputsMatch(events, out + [calls])
  {
    forall k | 0 <= k < |out| + 1
      ensures multiset((out + [calls])[k]) == multiset(Output(Run(events[..k]), events[k]))
    {
      if k < |out| {
        assert (out + [calls])[k] == out[k];
      }
    }
  }

  lemma RunPrefix(events: seq<Event>, i: nat)
    requires i < |events|
    ensures Run(events[..i + 1]) == Next(Run(events[..i]), events[i])
  {
    assert events[..i + 1][..i] == events[..i];
  }

  /** A prefix after which the worker stopped, or all of the events, gives the final state. */
  lemma RunAfterStop(events: seq<Event>, i: nat)
    requires i <= |events| && (i < |events| ==> !Run(events[..i]).running)
    ensures Run(events) == Run(events[..i])
  {
    if i < |events| {
      StopIsFinal(events[..i], events[i..]);
      assert events[..i] + events[i..] == events;
    } else {
      assert events[..i] == events;
    }
  }

  /** Once stopped, the worker neither changes nor calls, whatever arrives. */
  lemma {:induction false} StopIsFinal(events: seq<Event>, more: seq<Event>)
    requires !Run(events).running
    ensures Run(events + more) == Run(events)
    ensures forall k :: |events| <= k < |events + more| ==> Output(Run((events + more)[..k]), (events + more)[k]) == {}
    decreases |more|
  {
    if more == [] {
      assert events + more == events;
    } else {
      var m := more[..|more| - 1];
      StopIsFinal(events, m);
      assert (events + more)[..|events + more| - 1] == events + m;
      forall k | |events| <= k < |events + more|
        ensures Output(Run((events + more)[..k]), (events + more)[k]) == {}
      {
        if k < |events + m| {
          assert (events + more)[..k] == (events + m)[..k];
          assert (events + more)[k] == (events + m)[k];
        }
      }
    }
  }

  /** Every pending list stays below the batch size. */
  lemma {:induction false} PendingBelowBatchSize(events: seq<Event>)
    ensures forall u :: u in Run(events).buffer ==> |Run(events).buffer[u]| < MaxBatchSize
    decreases |events|
  {
    if events != [] {
      PendingBelowBatchSize(events[..|events| - 1]);
    }
  }

  /** The codes of `u`'s tasks that the running worker accepted, in arrival order. */
  function Accepted(events: seq<Event>, u: string): seq<string>
    decreases |events|
  {
    if events == [] then []
    else
      var n := |events| - 1;
      var e := events[n];
      Accepted(events[..n], u) + (if Run(events[..n]).running && e.Task? && e.userID == u then e.ids else [])
  }

  /** The codes of `u` sent by batch-size calls, in the order sent. */
  function SentAtBatchSize(events: seq<Event>, u: string): seq<string>
    decreases |events|
  {
    if events == [] then []
    else
      var n := |events| - 1;
      var e := events[n];
      var w := Run(events[..n]);
      SentAtBatchSize(events[..n], u)
        + (if w.running && e.Task? && e.userID == u && TaskCall(w, u, e.ids).Some? then TaskCall(w, u, e.ids).value.ids else [])
  }

  /**
   * No code is lost or reordered: the codes accepted for an owner are those
   * sent at the batch size followed by those still pending.
   */
  lemma {:induction false} AcceptedCodesConserved(events: seq<Event>, u: string)
    ensures Accepted(events, u) == SentAtBatchSize(events, u) + Pending(Run(events).buffer, u)
    decreases |events|
  {
    if events != [] {
      var n := |events| - 1;
      var pre := events[..n];
      AcceptedCodesConserved(pre, u);
      var w := Run(pre);
      var e := events[n];
      var sent := SentAtBatchSize(pre, u);
      var p := Pending(w.buffer, u);
      assert Run(events) == Next(w, e);
      if w.running && e.Task? && e.userID == u {
        assert Accepted(events, u) == (sent + p) + e.ids;
        Regroup(sent, p, e.ids);
        if |p + e.ids| >= MaxBatchSize {
          assert SentAtBatchSize(events, u) == sent + (p + e.ids);
          assert Pending(Run(events).buffer, u) == [];
        } else {
          assert SentAtBatchSize(events, u) == sent;
          assert Pending(Run(events).buffer, u) == p + e.ids;
        }
      } else {
        assert Accepted(events, u) == Accepted(pre, u);
        assert SentAtBatchSize(events, u) == sent;
        assert Pending(Run(events).buffer, u) == p;
      }
    }
  }

  lemma Regroup(a: seq<string>, b: seq<string>, c: seq<string>)
    ensures (a + b) + c == a + (b + c)
  {
  }

  /**
   * A task that brings a running owner's list to the batch size is sent at
   * once, whole (possibly more than the batch size), and the list is emptied;
   * a task that stays below waits for a tick or the stop.
   */
  lemma TaskThreshold(events: seq<Event>, u: string, ids: seq<string>)
    requires Run(events).running
    ensures var l := Pending(Run(events).buffer, u) + ids;
            && (|l| >= MaxBatchSize ==> Output(Run(events), Task(u, ids)) == {MarkCall(u, l)}
                                        && Pending(Run(events + [Task(u, ids)]).buffer, u) == [])
            && (|l| < MaxBatchSize ==> Output(Run(events), Task(u, ids)) == {}
                                       && Pending(Run(events + [Task(u, ids)]).buffer, u) == l)
  {
    assert (events + [Task(u, ids)])[..|events|] == events;
  }

  /** A tick changes nothing, so the next tick sends the very same calls again. */
  lemma TickResends(events: seq<Event>)
    requires Run(events).running
    ensures Run(events + [Tick]) == Run(events)
    ensures Output(Run(events + [Tick]), Tick) == Output(Run(events), Tick) == PendingCalls(Run(events).buffer)
  {
    assert (events + [Tick])[..|events|] == events;
  }

  /** Closing or cancelling sends every non-empty pending list and stops the worker. */
  lemma StopFlushesAll(events: seq<Event>, e: Event)
    requires Run(events).running && (e.ChannelClosed? || e.Cancelled?)
    ensures Output(Run(events), e) == PendingCalls(Run(events).buffer)
    ensures !Run(events + [e]).running
  {
    assert (events + [e])[..|events|] == events;
  }

  /**
   * The batching boundary: 100 codes for one owner are sent at once, while a
   * single code is sent only by the next tick.
   */
  lemma BatchingBoundary(u: string, hundred: seq<string>, c: string)
    requires |hundred| == MaxBatchSize
    ensures Output(Start, Task(u, hundred)) == {MarkCall(u, hundred)}
    ensures Output(Start, Task(u, [c])) == {}
    ensures Output(Run([Task(u, [c])]), Tick) == {MarkCall(u, [c])}
  {
    assert [] + hundred == hundred;
    assert [] + [c] == [c];
    var w := Run([Task(u, [c])]);
    assert [Task(u, [c])][..0] == [];
    assert Run([]) == Start;
    assert w == Next(Run([]), Task(u, [c]));
    assert Pending(Start.buffer, u) == [];
    assert w.buffer == map[u := [c]];
    assert MarkCall(u, [c]) in PendingCalls(w.buffer);
  }
}
