/**
 Who closes a stream of the websocket JSON-RPC client: the reader, the stream's context watcher,
 the final failure of the connection, or the caller whose write failed. Every region under the
 client's lock or a stream's own lock is one step.
 */
module RpcStreams {
  import opened Wrappers

  /** The caller of `stream`: entry made, request written, or the three steps after a failed write. */
  datatype Caller = Registered | Written | WriteFailed | Unregistered | Abandoned

  /** The goroutine waiting for the context. */
  datatype Watcher = Idle | Watching | Cancelled | Reporting | Closing | Finished

  /**
   One pending request: its `closed` flag, how often its channel has been sent to and closed, and
   whether the channel was ever misused (sent to or closed when already closed).
   */
  datatype Stream = Stream(id: string, caller: Caller, watcher: Watcher, closed: bool, sends: nat, closes: nat,
                           misused: bool)

  /** The reader between two messages, inside an event, or failing everything with the client's lock held. */
  datatype Reader =
    | Reading
    | Sending(stream: nat, terminal: bool)
    | Unregistering(stream: nat)
    | ClosingStream(stream: nat)
    | FailingAll
    | FailSending(stream: nat)
    | FailClosing(stream: nat)
    | FailDeleting(stream: nat)
    | Stopped

  datatype State = State(pending: map<string, nat>, streams: map<nat, Stream>, reader: Reader)

  datatype Step =
    | Register(stream: nat, id: string)
    | Write(stream: nat, ok: bool)
    | AbandonUnregister(stream: nat)
    | AbandonClose(stream: nat)
    | CtxDone(stream: nat)
    | WatcherSeesDone(stream: nat)
    | WatcherUnregister(stream: nat)
    | WatcherReport(stream: nat)
    | WatcherClose(stream: nat)
    | ReaderLookup(id: string, terminal: bool)
    | ReaderStep
    | ReadError
    | FailPick(id: string)
    | FailDone

  const INITIAL := State(map[], map[], Reading)

  predicate LockFree(s: State) {
    !(s.reader.FailingAll? || s.reader.FailSending? || s.reader.FailClosing? || s.reader.FailDeleting?)
  }

  predicate CallerAt(s: State, p: nat, c: Caller) {
    p in s.streams && s.streams[p].caller == c
  }

  predicate WatcherAt(s: State, p: nat, w: Watcher) {
    p in s.streams && s.streams[p].watcher == w
  }

  predicate Enabled(s: State, a: Step) {
    match a
    case Register(p, id) => p !in s.streams && id != "" && id !in s.pending && LockFree(s)
    case Write(p, _) => CallerAt(s, p, Registered)
    case AbandonUnregister(p) => CallerAt(s, p, WriteFailed) && LockFree(s)
    case AbandonClose(p) => CallerAt(s, p, Unregistered)
    case CtxDone(p) => WatcherAt(s, p, Watching)
    case WatcherSeesDone(p) => WatcherAt(s, p, Watching) && s.streams[p].closed
    case WatcherUnregister(p) => WatcherAt(s, p, Cancelled) && LockFree(s)
    case WatcherReport(p) => WatcherAt(s, p, Reporting)
    case WatcherClose(p) => WatcherAt(s, p, Closing)
    case ReaderLookup(_, _) => s.reader == Reading
    case ReaderStep => (s.reader.Sending? || s.reader.Unregistering? || s.reader.ClosingStream? || s.reader.FailSending?
                        || s.reader.FailClosing? || s.reader.FailDeleting?) && s.reader.stream in s.streams
    case ReadError => s.reader == Reading
    case FailPick(id) => s.reader == FailingAll && id in s.pending
    case FailDone => s.reader == FailingAll && s.pending == map[]
  }

  /** `sendEvent`: skipped on a closed request. */
  function SendEvent(x: Stream): Stream {
    if x.closed then x else x.(sends := x.sends + 1, misused := x.misused || x.closes > 0)
  }

  /** Closing the channel, whoever does it. */
  function CloseChannel(x: Stream): Stream {
    x.(closes := x.closes + 1, misused := x.misused || x.closes > 0)
  }

  /** `closeEvents`: once per request. */
  function CloseEvents(x: Stream): Stream {
    if x.closed then x else CloseChannel(x).(closed := true)
  }

  function With(s: State, p: nat, x: Stream): State {
    s.(streams := s.streams[p := x])
  }

  function Apply(s: State, a: Step): State
    requires Enabled(s, a)
  {
    match a
    case Register(p, id) =>
      With(s, p, Stream(id, Registered, Idle, false, 0, 0, false)).(pending := s.pending[id := p])
    case Write(p, ok) =>
      With(s, p, if ok then s.streams[p].(caller := Written, watcher := Watching)
          else s.streams[p].(caller := WriteFailed))
    case AbandonUnregister(p) =>
      With(s, p, s.streams[p].(caller := Unregistered)).(pending := s.pending - {s.streams[p].id})
    case AbandonClose(p) =>
      With(s, p, CloseChannel(s.streams[p]).(caller := Abandoned))
    case CtxDone(p) =>
      With(s, p, s.streams[p].(watcher := Cancelled))
    case WatcherSeesDone(p) =>
      With(s, p, s.streams[p].(watcher := Finished))
    case WatcherUnregister(p) =>
      With(s, p, s.streams[p].(watcher := if s.streams[p].id in s.pending then Reporting else Finished))
        .(pending := s.pending - {s.streams[p].id})
    case WatcherReport(p) =>
      With(s, p, SendEvent(s.streams[p]).(watcher := Closing))
    case WatcherClose(p) =>
      With(s, p, CloseEvents(s.streams[p]).(watcher := Finished))
    case ReaderLookup(id, terminal) =>
      if id in s.pending then s.(reader := Sending(s.pending[id], terminal)) else s
    case ReaderStep =>
      ReaderAdvance(s, s.reader.stream)
    case ReadError => s.(reader := FailingAll)
    case FailPick(id) => s.(reader := FailSending(s.pending[id]))
    case FailDone => s.(reader := Stopped)
  }

  function ReaderAdvance(s: State, p: nat): State
    requires p in s.streams
  {
    match s.reader
    case Sending(_, terminal) =>
      With(s, p, SendEvent(s.streams[p])).(reader := if terminal then Unregistering(p) else Reading)
    case Unregistering(_) => s.(pending := s.pending - {s.streams[p].id}, reader := ClosingStream(p))
    case ClosingStream(_) => With(s, p, CloseEvents(s.streams[p])).(reader := Reading)
    case FailSending(_) => With(s, p, SendEvent(s.streams[p])).(reader := FailClosing(p))
    case FailClosing(_) => With(s, p, CloseEvents(s.streams[p])).(reader := FailDeleting(p))
    case FailDeleting(_) => s.(pending := s.pending - {s.streams[p].id}, reader := FailingAll)
    case _ => s
  }

  predicate Runs(run: seq<Step>)
    decreases |run|, 0
  {
    run == [] || (Runs(run[..|run| - 1]) && Enabled(After(run[..|run| - 1]), run[|run| - 1]))
  }

  function After(run: seq<Step>): State
    requires Runs(run)
    decreases |run|, 1
  {
    if run == [] then INITIAL else Apply(After(run[..|run| - 1]), run[|run| - 1])
  }

  // ---- The invariant ----

  /** The write has not failed. */
  predicate Sound(x: Stream) {
    x.caller == Registered || x.caller == Written
  }

  predicate InTable(s: State, p: nat) {
    p in s.streams && s.streams[p].id in s.pending && s.pending[s.streams[p].id] == p
  }

  /** The reader's next steps close the stream. */
  predicate ReaderWillClose(s: State, p: nat) {
    match s.reader
    case Sending(q, terminal) => q == p && terminal
    case Unregistering(q) => q == p
    case ClosingStream(q) => q == p
    case FailSending(q) => q == p
    case FailClosing(q) => q == p
    case _ => false
  }

  /** A thread whose next steps close the stream. */
  predicate Held(s: State, p: nat) {
    p in s.streams && (ReaderWillClose(s, p) || s.streams[p].watcher == Reporting || s.streams[p].watcher == Closing)
  }

  /**
   Until its caller closes it outright: never sent to after the close, closed at most once; the `closed`
   flag tells.
   */
  predicate WellUsed(x: Stream) {
    x.caller != Abandoned ==> !x.misused && x.closes == (if x.closed then 1 else 0)
  }

  /** Somebody will close the stream: the table's owner, nobody any more, or a thread on its way. */
  predicate Covered(s: State, p: nat, x: Stream) {
    Sound(x) ==> InTable(s, p) || x.closed || Held(s, p)
  }

  predicate WatcherStarted(x: Stream) {
    (x.caller == Registered ==> x.watcher == Idle) && (x.watcher != Idle ==> x.caller == Written)
  }

  predicate StreamOK(s: State, p: nat, x: Stream) {
    WellUsed(x) && Covered(s, p, x) && WatcherStarted(x)
  }

  ghost predicate StreamsOK(s: State) {
    forall p | p in s.streams :: StreamOK(s, p, s.streams[p])
  }

  ghost predicate PendingOK(s: State) {
    forall id | id in s.pending :: s.pending[id] in s.streams && s.streams[s.pending[id]].id == id
  }

  ghost predicate DistinctIDs(s: State) {
    forall p, q | p in s.streams && q in s.streams && p != q :: s.streams[p].id != s.streams[q].id
  }

  predicate ReaderOK(s: State) {
    && ((s.reader.Sending? || s.reader.Unregistering? || s.reader.ClosingStream? || s.reader.FailSending?
         || s.reader.FailClosing? || s.reader.FailDeleting?) ==> s.reader.stream in s.streams)
    && (s.reader.FailDeleting? && Sound(s.streams[s.reader.stream]) ==> s.streams[s.reader.stream].closed)
  }

  ghost predicate Inv(s: State) {
    StreamsOK(s) && PendingOK(s) && DistinctIDs(s) && ReaderOK(s)
  }

  /** No id is registered that any stream has used before. */
  ghost predicate FreshID(s: State, a: Step) {
    a.Register? ==> forall p | p in s.streams :: s.streams[p].id != a.id
  }

  ghost predicate FreshIDs(run: seq<Step>)
    requires Runs(run)
  {
    run == [] || (FreshIDs(run[..|run| - 1]) && FreshID(After(run[..|run| - 1]), run[|run| - 1]))
  }

  lemma SomeStream(s: State, p: nat)
    requires StreamsOK(s) && p in s.streams
    ensures StreamOK(s, p, s.streams[p])
  {
  }

  /** A stream's id never changes, and only registration adds a stream. */
  lemma IDsStay(s: State, a: Step)
    requires Enabled(s, a)
    ensures forall p | p in s.streams :: p in Apply(s, a).streams && Apply(s, a).streams[p].id == s.streams[p].id
    ensures forall p | p in Apply(s, a).streams && p !in s.streams ::
              a.Register? && a.stream == p && Apply(s, a).streams[p].id == a.id
  {
  }

  lemma DistinctIDsStep(s: State, a: Step)
    requires DistinctIDs(s) && Enabled(s, a) && FreshID(s, a)
    ensures DistinctIDs(Apply(s, a))
  {
    IDsStay(s, a);
    hide Apply, Enabled;
  }

  lemma PendingStep(s: State, a: Step)
    requires PendingOK(s) && Enabled(s, a)
    ensures PendingOK(Apply(s, a))
  {
    IDsStay(s, a);
    var t := Apply(s, a);
    assert forall id | id in t.pending ::
        (a.Register? && id == a.id && t.pending[id] == a.stream)
            || (id in s.pending && t.pending[id] == s.pending[id]) by {
      hide PendingOK, SendEvent, CloseEvents, CloseChannel;
    }
    assert a.Register? ==> a.stream in t.streams && t.streams[a.stream].id == a.id;
    hide Apply, Enabled;
  }

  lemma ReaderStaysOK(s: State, a: Step)
    requires PendingOK(s) && ReaderOK(s) && Enabled(s, a)
    ensures ReaderOK(Apply(s, a))
  {
  }

  lemma WellUsedStep(s: State, a: Step, p: nat)
    requires Enabled(s, a) && p in Apply(s, a).streams
    requires p in s.streams ==> WellUsed(s.streams[p])
    ensures WellUsed(Apply(s, a).streams[p])
  {
  }

  lemma WatcherStartedStep(s: State, a: Step, p: nat)
    requires Enabled(s, a) && p in Apply(s, a).streams
    requires p in s.streams ==> WatcherStarted(s.streams[p])
    ensures WatcherStarted(Apply(s, a).streams[p])
  {
  }

  /** An id in the table belongs to one stream, so taking it out takes out that stream. */
  lemma OwnID(s: State, p: nat)
    requires PendingOK(s) && DistinctIDs(s) && p in s.streams && s.streams[p].id in s.pending
    ensures s.pending[s.streams[p].id] == p
  {
  }

  lemma CoveredByCaller(s: State, a: Step, p: nat)
    requires Inv(s) && Enabled(s, a) && FreshID(s, a) && p in Apply(s, a).streams
    requires a.Register? || a.Write? || a.AbandonUnregister? || a.AbandonClose?
    ensures Covered(Apply(s, a), p, Apply(s, a).streams[p])
  {
    if p in s.streams {
      SomeStream(s, p);
    }
    hide StreamsOK, PendingOK, WellUsed, ReaderOK;
  }

  lemma CoveredByWatcher(s: State, a: Step, p: nat)
    requires Inv(s) && Enabled(s, a) && p in s.streams
    requires a.CtxDone? || a.WatcherSeesDone? || a.WatcherUnregister? || a.WatcherReport? || a.WatcherClose?
    ensures Covered(Apply(s, a), p, Apply(s, a).streams[p])
  {
    SomeStream(s, p);
    if a.WatcherUnregister? && s.streams[a.stream].id in s.pending {
      OwnID(s, a.stream);
    }
    hide StreamsOK, PendingOK, WellUsed, ReaderOK;
  }

  lemma CoveredByReader(s: State, a: Step, p: nat)
    requires Inv(s) && Enabled(s, a) && p in s.streams
    requires a.ReaderLookup? || a.ReaderStep? || a.ReadError? || a.FailPick? || a.FailDone?
    ensures Covered(Apply(s, a), p, Apply(s, a).streams[p])
  {
    SomeStream(s, p);
    if a.ReaderStep? && s.streams[s.reader.stream].id in s.pending {
      OwnID(s, s.reader.stream);
    }
    hide StreamsOK, PendingOK, WellUsed;
  }

  lemma InvStep(s: State, a: Step)
    requires Inv(s) && Enabled(s, a) && FreshID(s, a)
    ensures Inv(Apply(s, a))
  {
    var t := Apply(s, a);
    IDsStay(s, a);
    DistinctIDsStep(s, a);
    PendingStep(s, a);
    ReaderStaysOK(s, a);
    forall p | p in t.streams ensures StreamOK(t, p, t.streams[p]) {
      if p in s.streams {
        SomeStream(s, p);
      }
      hide StreamsOK, PendingOK, DistinctIDs, WellUsed, Covered, WatcherStarted, Apply, Enabled;
      WellUsedStep(s, a, p);
      WatcherStartedStep(s, a, p);
      if a.Register? || a.Write? || a.AbandonUnregister? || a.AbandonClose? {
        CoveredByCaller(s, a, p);
      } else if a.CtxDone? || a.WatcherSeesDone? || a.WatcherUnregister? || a.WatcherReport? || a.WatcherClose? {
        CoveredByWatcher(s, a, p);
      } else {
        CoveredByReader(s, a, p);
      }
    }
    hide StreamOK, PendingOK, DistinctIDs, Apply, Enabled;
  }

  // ---- What every run keeps ----

  lemma {:induction false} RunKeepsInv(run: seq<Step>)
    requires Runs(run) && FreshIDs(run)
    ensures Inv(After(run))
    decreases |run|
  {
    if run != [] {
      var front := run[..|run| - 1];
      RunKeepsInv(front);
      InvStep(After(front), run[|run| - 1]);
    }
  }

  lemma {:induction false} RunIsWellUsed(run: seq<Step>, p: nat)
    requires Runs(run) && p in After(run).streams
    ensures WellUsed(After(run).streams[p])
    decreases |run|
  {
    if run != [] {
      var front := run[..|run| - 1];
      if p in After(front).streams {
        RunIsWellUsed(front, p);
      }
      WellUsedStep(After(front), run[|run| - 1], p);
    }
  }

  /**
   In every interleaving, ids reused or not: until the caller of a failed write closes it outright,
   a stream is never sent to after its close and is closed at most once.
   */
  lemma StreamsAreClosedOnce(run: seq<Step>, p: nat)
    requires Runs(run) && p in After(run).streams && After(run).streams[p].caller != Abandoned
    ensures !After(run).streams[p].misused && After(run).streams[p].closes <= 1
  {
    RunIsWellUsed(run, p);
  }

  /**
   With fresh ids a stream whose write has not failed is in the table, closed, or held by a thread about
   to close it.
   */
  lemma StreamsAreNotOrphaned(run: seq<Step>, p: nat)
    requires Runs(run) && FreshIDs(run) && p in After(run).streams && Sound(After(run).streams[p])
    ensures var s := After(run); InTable(s, p) || s.streams[p].closed || Held(s, p)
  {
    RunKeepsInv(run);
    SomeStream(After(run), p);
    hide StreamsOK, PendingOK, DistinctIDs;
  }

  lemma Extend(run: seq<Step>, a: Step)
    requires Runs(run) && Enabled(After(run), a)
    ensures Runs(run + [a]) && After(run + [a]) == Apply(After(run), a)
  {
    assert (run + [a])[..|run|] == run;
  }

  // ---- When a failed write closes a channel wrongly ----

  /** The reader has found the stream and has not finished with it. */
  predicate ReaderAt(s: State, p: nat) {
    ReaderWillClose(s, p) || s.reader == Sending(p, false)
  }

  /** Nobody will come to the stream any more: not the table, not the reader, not a watcher. */
  ghost predicate LeftAlone(s: State, p: nat) {
    && p in s.streams && !s.streams[p].closed && s.streams[p].watcher == Idle
    && !ReaderAt(s, p) && s.reader != FailDeleting(p)
    && forall id | id in s.pending :: s.pending[id] != p
  }

  /** Closed once, by its caller. */
  ghost predicate ClosedByCaller(s: State, p: nat) {
    LeftAlone(s, p) && s.streams[p].caller == Abandoned && s.streams[p].closes == 1 && !s.streams[p].misused
  }

  /** Before the outright close: the stream is out of the table, unmisused, and its watcher was never started. */
  ghost predicate ReadyToAbandon(s: State, p: nat) {
    && p in s.streams && s.streams[p].watcher == Idle
    && (s.streams[p].caller == Unregistered ==> forall id | id in s.pending :: s.pending[id] != p)
    && (s.reader == FailDeleting(p) ==> s.streams[p].closed)
  }

  lemma ReadyStep(s: State, a: Step, p: nat)
    requires Enabled(s, a) && PendingOK(s) && p in Apply(s, a).streams
    requires Apply(s, a).streams[p].caller != Written && Apply(s, a).streams[p].caller != Abandoned
    requires p in s.streams ==> ReadyToAbandon(s, p)
    requires s.reader.FailDeleting? ==> s.reader.stream in s.streams
    ensures ReadyToAbandon(Apply(s, a), p)
  {
  }

  lemma {:induction false} RunPendingOK(run: seq<Step>)
    requires Runs(run)
    ensures PendingOK(After(run))
    decreases |run|
  {
    if run != [] {
      RunPendingOK(run[..|run| - 1]);
      PendingStep(After(run[..|run| - 1]), run[|run| - 1]);
    }
  }

  lemma {:induction false} RunReaderOK(run: seq<Step>)
    requires Runs(run)
    ensures ReaderOK(After(run))
    decreases |run|
  {
    if run != [] {
      RunReaderOK(run[..|run| - 1]);
      RunPendingOK(run[..|run| - 1]);
      ReaderStaysOK(After(run[..|run| - 1]), run[|run| - 1]);
    }
  }

  lemma {:induction false} RunWatcherStarted(run: seq<Step>, p: nat)
    requires Runs(run) && p in After(run).streams
    ensures WatcherStarted(After(run).streams[p])
    decreases |run|
  {
    if run != [] {
      var front := run[..|run| - 1];
      if p in After(front).streams {
        RunWatcherStarted(front, p);
      }
      WatcherStartedStep(After(front), run[|run| - 1], p);
    }
  }

  /** A caller that has not written or closed yet has not done so before either. */
  lemma CallerBefore(s: State, a: Step, p: nat)
    requires Enabled(s, a) && p in s.streams
    requires Apply(s, a).streams[p].caller != Written && Apply(s, a).streams[p].caller != Abandoned
    ensures s.streams[p].caller != Written && s.streams[p].caller != Abandoned
  {
  }

  lemma {:induction false} RunIsReady(run: seq<Step>, p: nat)
    requires Runs(run) && p in After(run).streams
    requires After(run).streams[p].caller != Written && After(run).streams[p].caller != Abandoned
    ensures ReadyToAbandon(After(run), p)
    decreases |run|
  {
    if run != [] {
      var front, a := run[..|run| - 1], run[|run| - 1];
      RunPendingOK(front);
      RunReaderOK(front);
      if p in After(front).streams {
        CallerBefore(After(front), a, p);
        RunIsReady(front, p);
      }
      hide ReadyToAbandon, PendingOK, Apply, Enabled;
      ReadyStep(After(front), a, p);
    }
  }

  lemma LeftAloneStep(s: State, a: Step, p: nat)
    requires ClosedByCaller(s, p) && Enabled(s, a)
    ensures ClosedByCaller(Apply(s, a), p)
  {
  }

  lemma {:induction false} StaysLeftAlone(run: seq<Step>, more: seq<Step>, p: nat)
    requires Runs(run) && ClosedByCaller(After(run), p) && Runs(run + more)
    ensures ClosedByCaller(After(run + more), p)
    decreases |more|
  {
    if more == [] {
      assert run + more == run;
    } else {
      var front := more[..|more| - 1];
      assert (run + more)[..|run + more| - 1] == run + front;
      StaysLeftAlone(run, front, p);
      LeftAloneStep(After(run + front), more[|more| - 1], p);
      hide ClosedByCaller, Apply, Enabled;
    }
  }

  ghost predicate Misuses(run: seq<Step>, p: nat) {
    Runs(run) && p in After(run).streams && After(run).streams[p].misused
  }

  /** What the reader still does to a stream it has found misuses it, unless it is closed properly. */
  lemma ReaderMisuses(run: seq<Step>, p: nat) returns (more: seq<Step>)
    requires Runs(run) && CallerAt(After(run), p, Abandoned) && After(run).streams[p].closes > 0
             && !After(run).streams[p].closed
    requires ReaderAt(After(run), p)
    ensures Misuses(run + more, p)
  {
    Extend(run, ReaderStep);
    more := [ReaderStep];
    if After(run).reader.Unregistering? {
      Extend(run + more, ReaderStep);
      assert run + [ReaderStep, ReaderStep] == run + more + [ReaderStep];
      more := [ReaderStep, ReaderStep];
    }
  }

  /**
   After a failed write, just before the caller closes the channel outright: some continuation sends
   to it or closes it again exactly when it is closed already or the reader has found it and is not done.
   */
  lemma FailedWriteMisusesIff(run: seq<Step>, p: nat)
    requires Runs(run) && CallerAt(After(run), p, Unregistered)
    ensures (exists more :: Misuses(run + [AbandonClose(p)] + more, p))
            <==> After(run).streams[p].closed || ReaderAt(After(run), p)
  {
    var s := After(run);
    var abandoned := run + [AbandonClose(p)];
    RunIsWellUsed(run, p);
    RunIsReady(run, p);
    Extend(run, AbandonClose(p));
    if s.streams[p].closed {
      assert abandoned + [] == abandoned;
      assert Misuses(abandoned + [], p);
    } else if ReaderAt(s, p) {
      var more := ReaderMisuses(abandoned, p);
      assert Misuses(abandoned + more, p);
    } else {
      assert ClosedByCaller(After(abandoned), p);
      forall more | Runs(abandoned + more) ensures !Misuses(abandoned + more, p) {
        StaysLeftAlone(abandoned, more, p);
      }
    }
  }

  // ---- Why a stream is sent to and closed ----

  /** The step is an event for the stream, its context's end, or the connection's. */
  ghost predicate IsNews(run: seq<Step>, i: nat, p: nat)
    requires Runs(run) && i < |run|
  {
    var a := run[i];
    a.ReadError? || a == CtxDone(p) || (a.ReaderLookup? && LeadsTo(run, i, a.id, p))
  }

  /** The step is such news, the event a terminal one, or the write of the request failed. */
  ghost predicate IsEnd(run: seq<Step>, i: nat, p: nat)
    requires Runs(run) && i < |run|
  {
    var a := run[i];
    a.ReadError? || a == CtxDone(p) || a == Write(p, false)
    || (a.ReaderLookup? && a.terminal && LeadsTo(run, i, a.id, p))
  }

  /** Before step `i` the table leads the id to the stream. */
  ghost predicate LeadsTo(run: seq<Step>, i: nat, id: string, p: nat)
    requires Runs(run) && i <= |run|
  {
    RunsFront(run, i);
    var pending := After(run[..i]).pending;
    id in pending && pending[id] == p
  }

  lemma {:induction false} RunsFront(run: seq<Step>, i: nat)
    requires Runs(run) && i <= |run|
    ensures Runs(run[..i])
    decreases |run|
  {
    if i < |run| {
      RunsFront(run[..|run| - 1], i);
      assert run[..|run| - 1][..i] == run[..i];
    } else {
      assert run[..i] == run;
    }
  }

  /** The stream has been sent to, or a thread is about to. */
  predicate Told(s: State, p: nat) {
    && p in s.streams
    && (s.streams[p].sends > 0 || s.reader == FailSending(p) || (s.reader.Sending? && s.reader.stream == p)
        || s.streams[p].watcher == Cancelled || s.streams[p].watcher == Reporting)
  }

  /** The channel has been closed, or a thread is about to. */
  predicate Doomed(s: State, p: nat) {
    && p in s.streams
    && (s.streams[p].closes > 0 || ReaderWillClose(s, p) || s.streams[p].watcher == Cancelled
        || s.streams[p].watcher == Reporting || s.streams[p].watcher == Closing || s.streams[p].caller == WriteFailed
        || s.streams[p].caller == Unregistered || s.streams[p].caller == Abandoned)
  }

  lemma ToldStep(s: State, a: Step, p: nat)
    requires ReaderOK(s) && Enabled(s, a) && Told(Apply(s, a), p)
    ensures Told(s, p) || !LockFree(s) || a == CtxDone(p)
            || (a.ReaderLookup? && a.id in s.pending && s.pending[a.id] == p)
  {
  }

  lemma DoomedStep(s: State, a: Step, p: nat)
    requires ReaderOK(s) && Enabled(s, a) && Doomed(Apply(s, a), p)
    ensures Doomed(s, p) || !LockFree(s) || a == CtxDone(p) || a == Write(p, false)
            || (a.ReaderLookup? && a.terminal && a.id in s.pending && s.pending[a.id] == p)
  {
  }

  lemma FailingStep(s: State, a: Step)
    requires Enabled(s, a) && !LockFree(Apply(s, a))
    ensures !LockFree(s) || a.ReadError?
  {
  }

  lemma {:induction false} FailingHasError(run: seq<Step>)
    requires Runs(run) && !LockFree(After(run))
    ensures exists i :: 0 <= i < |run| && run[i].ReadError?
    decreases |run|
  {
    if run != [] {
      var front := run[..|run| - 1];
      FailingStep(After(front), run[|run| - 1]);
      hide LockFree, Apply, Enabled;
      if run[|run| - 1].ReadError? {
        assert run[|run| - 1].ReadError?;
      } else {
        FailingHasError(front);
        var i :| 0 <= i < |front| && front[i].ReadError?;
        assert run[i].ReadError?;
      }
    }
  }

  lemma SameCause(run: seq<Step>, i: nat, p: nat)
    requires Runs(run) && i < |run| - 1
    ensures Runs(run[..|run| - 1])
    ensures IsNews(run, i, p) <==> IsNews(run[..|run| - 1], i, p)
    ensures IsEnd(run, i, p) <==> IsEnd(run[..|run| - 1], i, p)
  {
    assert run[..|run| - 1][..i] == run[..i];
    hide After, Enabled, Apply;
  }

  lemma {:induction false} ToldForReason(run: seq<Step>, p: nat)
    requires Runs(run) && Told(After(run), p)
    ensures exists i :: 0 <= i < |run| && IsNews(run, i, p)
    decreases |run|
  {
    hide Told, Apply, Enabled, LockFree, IsNews, ReaderOK;
    if run == [] {
      NothingYet(p);
    } else {
      var front, a := run[..|run| - 1], run[|run| - 1];
      RunReaderOK(front);
      ToldStep(After(front), a, p);
      if Told(After(front), p) {
        ToldForReason(front, p);
        var i :| 0 <= i < |front| && IsNews(front, i, p);
        SameCause(run, i, p);
      } else if !LockFree(After(front)) {
        FailingHasError(front);
        var i :| 0 <= i < |front| && front[i].ReadError?;
        ErrorIsCause(run, i, p);
      } else {
        LastIsCause(run, p);
      }
    }
  }

  lemma {:induction false} DoomedForReason(run: seq<Step>, p: nat)
    requires Runs(run) && Doomed(After(run), p)
    ensures exists i :: 0 <= i < |run| && IsEnd(run, i, p)
    decreases |run|
  {
    hide Doomed, Apply, Enabled, LockFree, IsEnd, ReaderOK;
    if run == [] {
      NothingYet(p);
    } else {
      var front, a := run[..|run| - 1], run[|run| - 1];
      RunReaderOK(front);
      DoomedStep(After(front), a, p);
      if Doomed(After(front), p) {
        DoomedForReason(front, p);
        var i :| 0 <= i < |front| && IsEnd(front, i, p);
        SameCause(run, i, p);
      } else if !LockFree(After(front)) {
        FailingHasError(front);
        var i :| 0 <= i < |front| && front[i].ReadError?;
        ErrorIsCause(run, i, p);
      } else {
        LastIsCause(run, p);
      }
    }
  }

  lemma NothingYet(p: nat)
    ensures !Told(After([]), p) && !Doomed(After([]), p)
  {
  }

  lemma ErrorIsCause(run: seq<Step>, i: nat, p: nat)
    requires Runs(run) && i < |run| - 1 && run[..|run| - 1][i].ReadError?
    ensures IsNews(run, i, p) && IsEnd(run, i, p)
  {
  }

  lemma LastIsCause(run: seq<Step>, p: nat)
    requires Runs(run) && run != []
    ensures var a, pending := run[|run| - 1], After(run[..|run| - 1]).pending;
            && (a == CtxDone(p) || (a.ReaderLookup? && a.id in pending && pending[a.id] == p)
                ==> IsNews(run, |run| - 1, p))
            && (a == CtxDone(p) || a == Write(p, false)
                || (a.ReaderLookup? && a.terminal && a.id in pending && pending[a.id] == p)
                ==> IsEnd(run, |run| - 1, p))
  {
    hide Enabled, Apply;
  }

  /**
   In every run: a stream is sent to only after an event that its id led to, the end of its context or of
   the connection, and its channel is closed only after a terminal one of these or a failed write.
   */
  lemma StreamsEndForReason(run: seq<Step>, p: nat)
    requires Runs(run) && p in After(run).streams
    ensures After(run).streams[p].sends > 0 ==> exists i :: 0 <= i < |run| && IsNews(run, i, p)
    ensures After(run).streams[p].closes > 0 ==> exists i :: 0 <= i < |run| && IsEnd(run, i, p)
  {
    if After(run).streams[p].sends > 0 {
      ToldForReason(run, p);
    }
    if After(run).streams[p].closes > 0 {
      DoomedForReason(run, p);
    }
    hide IsNews, IsEnd;
  }

  lemma EventSteps(s: State, id: string, terminal: bool)
    requires s.reader == Reading && id in s.pending && s.pending[id] in s.streams && s.streams[s.pending[id]].id == id
    ensures var p := s.pending[id];
            var looked := Apply(s, ReaderLookup(id, terminal));
            && Enabled(s, ReaderLookup(id, terminal)) && Enabled(looked, ReaderStep)
            && var sent := Apply(looked, ReaderStep);
               && sent.streams[p].sends == s.streams[p].sends + (if s.streams[p].closed then 0 else 1)
               && (!terminal ==>
                     && sent.reader == Reading && sent.pending == s.pending
                     && sent.streams[p].closed == s.streams[p].closed)
               && (terminal ==>
                     && Enabled(sent, ReaderStep)
                     && var removed := Apply(sent, ReaderStep);
                        && Enabled(removed, ReaderStep)
                        && var closed := Apply(removed, ReaderStep);
                           && closed.reader == Reading && closed.pending == s.pending - {id} && closed.streams[p].closed
                           && closed.streams[p].sends == sent.streams[p].sends)
  {
  }

  /**
   An event that the table leads to an open stream reaches it in the reader's next steps; a terminal one
   takes it out of the table and closes it, and any other leaves it there, open.
   */
  lemma EventReachesStream(run: seq<Step>, id: string, terminal: bool) returns (more: seq<Step>)
    requires Runs(run) && After(run).reader == Reading && id in After(run).pending
    ensures Runs(run + more)
    ensures After(run).pending[id] in After(run).streams && After(run).pending[id] in After(run + more).streams
    ensures var p, s, t := After(run).pending[id], After(run), After(run + more);
            && t.reader == Reading && t.pending == (if terminal then s.pending - {id} else s.pending)
            && t.streams[p].sends == s.streams[p].sends + (if s.streams[p].closed then 0 else 1)
            && t.streams[p].closed == (terminal || s.streams[p].closed)
  {
    RunPendingOK(run);
    var s := After(run);
    EventSteps(s, id, terminal);
    hide Runs, After, Apply, Enabled;
    Extend2(run, ReaderLookup(id, terminal), ReaderStep);
    more := [ReaderLookup(id, terminal), ReaderStep];
    if terminal {
      Extend2(run + more, ReaderStep, ReaderStep);
      assert run + (more + [ReaderStep, ReaderStep]) == run + more + [ReaderStep, ReaderStep];
      more := more + [ReaderStep, ReaderStep];
    }
  }

  lemma CancelSteps(s: State, p: nat)
    requires LockFree(s) && WatcherAt(s, p, Watching) && InTable(s, p) && !s.streams[p].closed
    ensures Enabled(s, CtxDone(p))
    ensures var seen := Apply(s, CtxDone(p));
            && Enabled(seen, WatcherUnregister(p))
            && var out := Apply(seen, WatcherUnregister(p));
               && Enabled(out, WatcherReport(p))
               && var told := Apply(out, WatcherReport(p));
                  && Enabled(told, WatcherClose(p))
                  && var closed := Apply(told, WatcherClose(p));
                     && p in closed.streams && closed.streams[p].closed
                     && closed.pending == s.pending - {s.streams[p].id}
                     && closed.streams[p].sends == s.streams[p].sends + 1
  {
  }

  /** The end of its context takes a stream out of the table, sends it one event and closes it. */
  lemma CancelReachesStream(run: seq<Step>, p: nat)
    requires Runs(run) && LockFree(After(run)) && WatcherAt(After(run), p, Watching)
    requires InTable(After(run), p) && !After(run).streams[p].closed
    ensures var more := run + [CtxDone(p), WatcherUnregister(p), WatcherReport(p), WatcherClose(p)];
            && Runs(more) && p in After(more).streams && After(more).streams[p].closed
            && After(more).pending == After(run).pending - {After(run).streams[p].id}
            && After(more).streams[p].sends == After(run).streams[p].sends + 1
  {
    CancelSteps(After(run), p);
    hide Runs, After, Apply, Enabled;
    Extend2(run, CtxDone(p), WatcherUnregister(p));
    var out := run + [CtxDone(p), WatcherUnregister(p)];
    Extend2(out, WatcherReport(p), WatcherClose(p));
    assert out + [WatcherReport(p), WatcherClose(p)]
        == run + [CtxDone(p), WatcherUnregister(p), WatcherReport(p), WatcherClose(p)];
  }

  // ---- When a stream is orphaned ----

  /** The stream in whose name a step takes an id out of the table. */
  function Remover(s: State, a: Step): Option<nat> {
    match a
    case WatcherUnregister(q) => Some(q)
    case AbandonUnregister(q) => Some(q)
    case ReaderStep => if s.reader.Unregistering? || s.reader.FailDeleting? then Some(s.reader.stream) else None
    case _ => None
  }

  /** The step takes the stream's id out of the table in another stream's name, and nobody else will close it. */
  predicate Orphans(s: State, a: Step, p: nat)
    requires p in s.streams
  {
    && InTable(s, p) && !s.streams[p].closed && !Held(s, p)
    && var q := Remover(s, a);
       q.Some? && q.value != p && q.value in s.streams && s.streams[q.value].id == s.streams[p].id
  }

  lemma OrphanedByReader(s: State, p: nat)
    requires Enabled(s, ReaderStep) && ReaderOK(s) && p in s.streams && Sound(s.streams[p])
             && Covered(s, p, s.streams[p])
    ensures !Covered(Apply(s, ReaderStep), p, Apply(s, ReaderStep).streams[p]) <==> Orphans(s, ReaderStep, p)
  {
  }

  lemma OrphanedByOthers(s: State, a: Step, p: nat)
    requires Enabled(s, a) && p in s.streams && Sound(s.streams[p]) && Covered(s, p, s.streams[p]) && !a.ReaderStep?
    requires WatcherStarted(s.streams[p])
    ensures !Covered(Apply(s, a), p, Apply(s, a).streams[p]) <==> Orphans(s, a, p)
  {
  }

  lemma OrphaningStep(s: State, a: Step, p: nat)
    requires Enabled(s, a) && ReaderOK(s) && p in s.streams && Sound(s.streams[p]) && Covered(s, p, s.streams[p])
    requires WatcherStarted(s.streams[p])
    ensures !Covered(Apply(s, a), p, Apply(s, a).streams[p]) <==> Orphans(s, a, p)
  {
    hide Covered, Apply, Enabled, Orphans, WatcherStarted;
    if a.ReaderStep? {
      OrphanedByReader(s, p);
    } else {
      OrphanedByOthers(s, a, p);
    }
  }

  /**
   In every run, ids reused or not, a stream in the table, closed or held stops being so exactly through
   such a step.
   */
  lemma OrphanedIff(run: seq<Step>, a: Step, p: nat)
    requires Runs(run) && Enabled(After(run), a)
    requires p in After(run).streams && Sound(After(run).streams[p]) && Covered(After(run), p, After(run).streams[p])
    ensures !Covered(Apply(After(run), a), p, Apply(After(run), a).streams[p]) <==> Orphans(After(run), a, p)
  {
    RunReaderOK(run);
    RunWatcherStarted(run, p);
    hide *;
    OrphaningStep(After(run), a, p);
  }

  // ---- Runs that break the two promises ----

  lemma Extend2(run: seq<Step>, a: Step, b: Step)
    requires Runs(run) && Enabled(After(run), a) && Enabled(Apply(After(run), a), b)
    ensures Runs(run + [a, b]) && After(run + [a, b]) == Apply(Apply(After(run), a), b)
  {
    Extend(run, a);
    Extend(run + [a], b);
    assert run + [a, b] == run + [a] + [b];
  }

  const CLOSED_WHILE_WRITING := State(map["r" := 0], map[0 := Stream("r", Registered, Idle, true, 1, 1, false)],
      FailDeleting(0))

  lemma FailInTwo(s: State)
    requires s == State(map["r" := 0], map[0 := Stream("r", Registered, Idle, false, 0, 0, false)], FailingAll)
    ensures Enabled(s, FailPick("r")) && Enabled(Apply(s, FailPick("r")), ReaderStep)
    ensures var t := Apply(Apply(s, FailPick("r")), ReaderStep);
            Enabled(t, ReaderStep)
            && Apply(t, ReaderStep) == CLOSED_WHILE_WRITING
  {
    var t := Apply(Apply(s, FailPick("r")), ReaderStep);
    assert t == State(map["r" := 0], map[0 := Stream("r", Registered, Idle, false, 1, 0, false)], FailClosing(0));
  }

  /** One request is registered, then the connection fails and closes its channel. */
  lemma FailWhileWriting() returns (run: seq<Step>)
    ensures run == [Register(0, "r"), ReadError, FailPick("r"), ReaderStep, ReaderStep]
    ensures Runs(run) && After(run) == CLOSED_WHILE_WRITING
  {
    Extend2([], Register(0, "r"), ReadError);
    run := [] + [Register(0, "r"), ReadError];
    FailInTwo(After(run));
    hide Runs, After, Apply, Enabled;
    Extend2(run, FailPick("r"), ReaderStep);
    run := run + [FailPick("r"), ReaderStep];
    Extend(run, ReaderStep);
    run := run + [ReaderStep];
  }

  /** A failed write closes the channel outright, even if the failing connection has closed it already. */
  lemma FailedWriteClosesTwice() returns (run: seq<Step>)
    ensures Runs(run) && FreshIDs(run) && 0 in After(run).streams
    ensures After(run).streams[0].misused && After(run).streams[0].closes == 2
    ensures run == [Register(0, "r"), ReadError, FailPick("r"), ReaderStep, ReaderStep, ReaderStep, FailDone,
                    Write(0, false), AbandonUnregister(0), AbandonClose(0)]
  {
    run := FailWhileWriting();
    hide Runs, After;
    Extend2(run, ReaderStep, FailDone);
    run := run + [ReaderStep, FailDone];
    assert After(run) == State(map[], map[0 := Stream("r", Registered, Idle, true, 1, 1, false)], Stopped);
    Extend2(run, Write(0, false), AbandonUnregister(0));
    run := run + [Write(0, false), AbandonUnregister(0)];
    assert After(run) == State(map[], map[0 := Stream("r", Unregistered, Idle, true, 1, 1, false)], Stopped);
    Extend(run, AbandonClose(0));
    run := run + [AbandonClose(0)];
    OneRegistration(run);
  }

  lemma {:induction false} OneRegistration(run: seq<Step>)
    requires Runs(run) && forall i | 0 < i < |run| :: !run[i].Register?
    ensures FreshIDs(run)
    decreases |run|
  {
    if run != [] {
      OneRegistration(run[..|run| - 1]);
      if |run| == 1 {
        assert After(run[..0]) == INITIAL;
      }
    }
  }

  lemma AnswerInTwo(s: State)
    requires s == State(map["r" := 0], map[0 := Stream("r", Written, Watching, false, 0, 0, false)], Reading)
    ensures Enabled(s, ReaderLookup("r", true)) && Enabled(Apply(s, ReaderLookup("r", true)), ReaderStep)
    ensures var t := Apply(Apply(s, ReaderLookup("r", true)), ReaderStep);
            Enabled(t, ReaderStep) && Enabled(Apply(t, ReaderStep), ReaderStep)
            && Apply(Apply(t, ReaderStep), ReaderStep)
               == State(map[], map[0 := Stream("r", Written, Watching, true, 1, 1, false)], Reading)
  {
    var t := Apply(Apply(s, ReaderLookup("r", true)), ReaderStep);
    assert t == State(map["r" := 0], map[0 := Stream("r", Written, Watching, false, 1, 0, false)], Unregistering(0));
  }

  /** A request is answered and its channel closed, but its watcher has not noticed yet. */
  lemma AnswerFirst() returns (run: seq<Step>)
    ensures run == [Register(0, "r"), Write(0, true), ReaderLookup("r", true), ReaderStep, ReaderStep, ReaderStep]
    ensures Runs(run)
            && After(run) == State(map[], map[0 := Stream("r", Written, Watching, true, 1, 1, false)], Reading)
  {
    Extend2([], Register(0, "r"), Write(0, true));
    run := [] + [Register(0, "r"), Write(0, true)];
    assert After(run) == State(map["r" := 0], map[0 := Stream("r", Written, Watching, false, 0, 0, false)], Reading);
    AnswerInTwo(After(run));
    hide Runs, After, Apply, Enabled;
    Extend2(run, ReaderLookup("r", true), ReaderStep);
    run := run + [ReaderLookup("r", true), ReaderStep];
    Extend2(run, ReaderStep, ReaderStep);
    run := run + [ReaderStep, ReaderStep];
  }

  lemma AnswerThenReuse() returns (run: seq<Step>)
    ensures run == [Register(0, "r"), Write(0, true), ReaderLookup("r", true), ReaderStep, ReaderStep, ReaderStep,
                    Register(1, "r"), Write(1, true)]
    ensures Runs(run)
    ensures After(run) == State(map["r" := 1], map[0 := Stream("r", Written, Watching, true, 1, 1, false),
                                                   1 := Stream("r", Written, Watching, false, 0, 0, false)], Reading)
  {
    run := AnswerFirst();
    hide Runs, After;
    Extend2(run, Register(1, "r"), Write(1, true));
    run := run + [Register(1, "r"), Write(1, true)];
  }

  function TwoStreams(pending: map<string, nat>, watcher: Watcher): State {
    State(pending, map[0 := Stream("r", Written, watcher, true, 1, 1, false),
                       1 := Stream("r", Written, Watching, false, 0, 0, false)], Reading)
  }

  lemma FirstCancelled(s: State)
    requires s == TwoStreams(map["r" := 1], Watching)
    ensures Enabled(s, CtxDone(0)) && Enabled(Apply(s, CtxDone(0)), WatcherUnregister(0))
    ensures Apply(Apply(s, CtxDone(0)), WatcherUnregister(0)) == TwoStreams(map[], Reporting)
  {
  }

  lemma FirstReported(s: State)
    requires s == TwoStreams(map[], Reporting)
    ensures Enabled(s, WatcherReport(0)) && Enabled(Apply(s, WatcherReport(0)), WatcherClose(0))
    ensures Apply(Apply(s, WatcherReport(0)), WatcherClose(0)) == TwoStreams(map[], Finished)
  {
  }

  /** A reused id lets one stream's watcher take the other stream out of the table and leave it open for good. */
  lemma ReusedIDOrphansStream() returns (run: seq<Step>)
    ensures Runs(run) && !InTable(After(run), 1) && !Held(After(run), 1)
    ensures CallerAt(After(run), 1, Written) && !After(run).streams[1].closed && After(run).reader == Reading
    ensures run == [Register(0, "r"), Write(0, true), ReaderLookup("r", true), ReaderStep, ReaderStep, ReaderStep,
                    Register(1, "r"), Write(1, true), CtxDone(0), WatcherUnregister(0), WatcherReport(0),
                    WatcherClose(0)]
  {
    run := AnswerThenReuse();
    hide Runs, After, Apply, Enabled;
    FirstCancelled(After(run));
    Extend2(run, CtxDone(0), WatcherUnregister(0));
    run := run + [CtxDone(0), WatcherUnregister(0)];
    FirstReported(After(run));
    Extend2(run, WatcherReport(0), WatcherClose(0));
    run := run + [WatcherReport(0), WatcherClose(0)];
  }
}
