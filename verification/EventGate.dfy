/** How often one event key, one unknown chat and one job can get through the time-windowed tables. */
module EventGate {
  import opened StateStore
  import Spacing

  /** One call of `MarkSeen` or `AllowUnknownChatReply`; the readings may go back and forth. */
  datatype Mark = Mark(key: string, now: int)

  /** The dedupe table after the first `n` marks of a run with a fixed time to live. */
  function Table(run: seq<Mark>, ttl: int, n: nat): map<string, int>
    requires n <= |run|
  {
    if n == 0 then map[] else Marked(Table(run, ttl, n - 1), run[n - 1].key, ttl, run[n - 1].now)
  }

  /** Mark `i` of the run is taken for new. */
  predicate Accepted(run: seq<Mark>, ttl: int, i: nat)
    requires i < |run|
  {
    !Seen(Table(run, ttl, i), run[i].key, run[i].now)
  }

  /** The latest accepted mark of a key before position `n`, or -1. */
  function LastAccepted(run: seq<Mark>, ttl: int, key: string, n: nat): (j: int)
    requires n <= |run|
    ensures -1 <= j < n
    ensures j >= 0 ==> run[j].key == key && Accepted(run, ttl, j)
    ensures forall k | j < k < n && run[k].key == key :: !Accepted(run, ttl, k)
  {
    if n == 0 then -1
    else if run[n - 1].key == key && Accepted(run, ttl, n - 1) then n - 1
    else LastAccepted(run, ttl, key, n - 1)
  }

  lemma {:induction false} TableHoldsLastAccepted(run: seq<Mark>, ttl: int, key: string, n: nat)
    requires n <= |run|
    ensures key in Table(run, ttl, n) <==> LastAccepted(run, ttl, key, n) >= 0
    ensures key in Table(run, ttl, n) ==> Table(run, ttl, n)[key] == run[LastAccepted(run, ttl, key, n)].now + ttl
  {
    if n > 0 {
      TableHoldsLastAccepted(run, ttl, key, n - 1);
    }
  }

  /**
   A mark is accepted exactly when its key's last acceptance is at least the time to live ago;
   rejections do not count.
   */
  lemma AcceptedIffWindowPassed(run: seq<Mark>, ttl: int, i: nat)
    requires i < |run|
    ensures var j := LastAccepted(run, ttl, run[i].key, i);
            Accepted(run, ttl, i) <==> j < 0 || run[i].now - run[j].now >= ttl
  {
    TableHoldsLastAccepted(run, ttl, run[i].key, i);
  }

  /** The readings at which a key was accepted among the first `n` marks. */
  function AcceptTimes(run: seq<Mark>, ttl: int, key: string, n: nat): (times: seq<int>)
    requires n <= |run|
    ensures times == [] <==> LastAccepted(run, ttl, key, n) < 0
    ensures times != [] ==> times[|times| - 1] == run[LastAccepted(run, ttl, key, n)].now
  {
    if n == 0 then []
    else
      var before := AcceptTimes(run, ttl, key, n - 1);
      if run[n - 1].key == key && Accepted(run, ttl, n - 1) then before + [run[n - 1].now] else before
  }

  lemma {:induction false} AcceptTimesSpaced(run: seq<Mark>, ttl: int, key: string, n: nat)
    requires n <= |run| && ttl > 0
    ensures Spacing.Spaced(AcceptTimes(run, ttl, key, n), ttl)
  {
    if n > 0 {
      hide Spacing.Spaced, Accepted;
      AcceptTimesSpaced(run, ttl, key, n - 1);
      var before, times := AcceptTimes(run, ttl, key, n - 1), AcceptTimes(run, ttl, key, n);
      if times != before {
        AcceptedIffWindowPassed(run, ttl, n - 1);
        SpacedAppend(before, ttl, run[n - 1].now);
      }
    }
  }

  lemma SpacedAppend(times: seq<int>, gap: int, t: int)
    requires gap > 0 && Spacing.Spaced(times, gap)
    requires times != [] ==> t - times[|times| - 1] >= gap
    ensures Spacing.Spaced(times + [t], gap)
  {
    var grown := times + [t];
    forall i, j | 0 <= i < j < |grown| ensures grown[j] - grown[i] >= gap {
      if j == |times| && i < |times| - 1 {
        assert times[|times| - 1] - times[i] >= gap;
      }
    }
  }

  /** Of one key, a window of length L lets at most floor(L / ttl) + 1 marks through. */
  lemma AcceptsPerWindow(run: seq<Mark>, ttl: int, key: string, start: int, length: nat)
    requires ttl > 0
    ensures |Spacing.InWindow(AcceptTimes(run, ttl, key, |run|), start, length + 1)| <= length / ttl + 1
  {
    AcceptTimesSpaced(run, ttl, key, |run|);
    Spacing.ClosedWindowBound(AcceptTimes(run, ttl, key, |run|), ttl, start, length);
  }

  // ---- Replies to unknown chats are the same gate ----

  function ReplyTable(run: seq<Mark>, interval: int, n: nat): map<string, int>
    requires n <= |run|
  {
    if n == 0 then map[] else Replied(ReplyTable(run, interval, n - 1), run[n - 1].key, interval, run[n - 1].now)
  }

  /** A reply is allowed exactly when the same run of dedupe marks would be accepted there. */
  lemma {:induction false} RepliesAreMarks(run: seq<Mark>, interval: int, n: nat)
    requires n <= |run|
    ensures ReplyTable(run, interval, n).Keys == Table(run, interval, n).Keys
    ensures forall k | k in ReplyTable(run, interval, n) ::
              ReplyTable(run, interval, n)[k] + interval == Table(run, interval, n)[k]
    ensures n < |run| ==>
              (Allowed(ReplyTable(run, interval, n), run[n].key, interval, run[n].now) <==> Accepted(run, interval, n))
  {
    if n > 0 {
      RepliesAreMarks(run, interval, n - 1);
    }
  }

  /** The readings at which an unknown chat got a reply, among the first `n` questions. */
  function ReplyTimes(run: seq<Mark>, interval: int, chat: string, n: nat): seq<int>
    requires n <= |run|
  {
    if n == 0 then []
    else
      var before := ReplyTimes(run, interval, chat, n - 1);
      if run[n - 1].key == chat && Allowed(ReplyTable(run, interval, n - 1), chat, interval, run[n - 1].now)
      then before + [run[n - 1].now] else before
  }

  lemma {:induction false} RepliesAreAccepts(run: seq<Mark>, interval: int, chat: string, n: nat)
    requires n <= |run|
    ensures ReplyTimes(run, interval, chat, n) == AcceptTimes(run, interval, chat, n)
  {
    if n > 0 {
      RepliesAreAccepts(run, interval, chat, n - 1);
      RepliesAreMarks(run, interval, n - 1);
      hide Allowed, Accepted, ReplyTable;
    }
  }

  /** An unknown chat gets at most floor(L / interval) + 1 replies in a window of length L. */
  lemma RepliesPerWindow(run: seq<Mark>, interval: int, chat: string, start: int, length: nat)
    requires interval > 0
    ensures |Spacing.InWindow(ReplyTimes(run, interval, chat, |run|), start, length + 1)| <= length / interval + 1
  {
    RepliesAreAccepts(run, interval, chat, |run|);
    AcceptsPerWindow(run, interval, chat, start, length);
  }

  // ---- The event pipeline ----

  datatype Event = Event(eventID: string, messageID: string)

  /** What the rest of the application decides about an event that got through the dedupe table. */
  datatype Routing = UnknownChat | NotForBot | Denied | Command | ToWorker(queued: bool)

  datatype Disposition = SelfIgnored | DedupeFailed | Deduped | Routed(routing: Routing)

  function DedupeKey(ev: Event): string {
    if ev.eventID != "" then ev.eventID else ev.messageID
  }

  /** One handled event: `ignored` is the self filter's verdict, `storeOk` whether the store works. */
  datatype Arrival = Arrival(ev: Event, ignored: bool, storeOk: bool, routing: Routing, now: int)

  function Dispose(dedupe: map<string, int>, enabled: bool, ttl: int, a: Arrival): Disposition {
    if a.ignored then SelfIgnored
    else if enabled && DedupeKey(a.ev) != "" && !a.storeOk then DedupeFailed
    else if enabled && DedupeKey(a.ev) != "" && Seen(dedupe, DedupeKey(a.ev), a.now) then Deduped
    else Routed(a.routing)
  }

  function DedupeAfter(dedupe: map<string, int>, enabled: bool, ttl: int, a: Arrival): map<string, int> {
    if a.ignored || !enabled || DedupeKey(a.ev) == "" || !a.storeOk then dedupe
    else Marked(dedupe, DedupeKey(a.ev), ttl, a.now)
  }

  class App {
    const store: BoltStore
    const dedupeEnabled: bool
    const ttl: int
    var queued: seq<Arrival>

    constructor (store: BoltStore, dedupeEnabled: bool, ttl: int)
      ensures this.store == store && this.dedupeEnabled == dedupeEnabled && this.ttl == ttl && queued == []
    {
      this.store, this.dedupeEnabled, this.ttl := store, dedupeEnabled, ttl;
      queued := [];
    }

    method HandleEvent(a: Arrival) returns (d: Disposition)
      modifies this, store`dedupe
      ensures var key := if a.ev.eventID != "" then a.ev.eventID else a.ev.messageID;
              var before := old(store.dedupe);
              if a.ignored then d == SelfIgnored && store.dedupe == before
              else if !dedupeEnabled || key == "" then d == Routed(a.routing) && store.dedupe == before
              else if !a.storeOk then d == DedupeFailed && store.dedupe == before
              else if key in before && a.now < before[key] then d == Deduped && store.dedupe == before
              else d == Routed(a.routing) && store.dedupe == before[key := a.now + ttl]
      ensures d == Dispose(old(store.dedupe), dedupeEnabled, ttl, a)
      ensures store.dedupe == DedupeAfter(old(store.dedupe), dedupeEnabled, ttl, a)
      ensures queued == if d == Routed(ToWorker(true)) then old(queued) + [a] else old(queued)
    {
      if a.ignored {
        return SelfIgnored;
      }
      if dedupeEnabled {
        var key := a.ev.eventID;
        if key == "" {
          key := a.ev.messageID;
        }
        if key != "" {
          if !a.storeOk {
            return DedupeFailed;
          }
          var seen := store.MarkSeen(key, ttl, a.now);
          if seen {
            return Deduped;
          }
        }
      }
      if a.routing == ToWorker(true) {
        queued := queued + [a];
      }
      return Routed(a.routing);
    }
  }

  function DedupeRun(run: seq<Arrival>, ttl: int, n: nat): map<string, int>
    requires n <= |run|
  {
    if n == 0 then map[] else DedupeAfter(DedupeRun(run, ttl, n - 1), true, ttl, run[n - 1])
  }

  /** The entry of a key was written by an arrival that got through. */
  lemma {:induction false} EntryWasRouted(run: seq<Arrival>, ttl: int, key: string, n: nat) returns (i: nat)
    requires n <= |run| && key in DedupeRun(run, ttl, n)
    ensures i < n && DedupeKey(run[i].ev) == key && DedupeRun(run, ttl, n)[key] == run[i].now + ttl
    ensures Dispose(DedupeRun(run, ttl, i), true, ttl, run[i]) == Routed(run[i].routing)
  {
    var before := DedupeRun(run, ttl, n - 1);
    if key in before && DedupeRun(run, ttl, n)[key] == before[key] {
      i := EntryWasRouted(run, ttl, key, n - 1);
    } else {
      i := n - 1;
    }
  }

  /**
   An event is taken for a duplicate only if an earlier one with the same event id, or without one the same
   message id, got through less than the time to live before.
   */
  lemma DuplicatesRepeat(run: seq<Arrival>, ttl: int, n: nat) returns (i: nat)
    requires n < |run| && Dispose(DedupeRun(run, ttl, n), true, ttl, run[n]) == Deduped
    ensures i < n && run[n].now < run[i].now + ttl
    ensures Dispose(DedupeRun(run, ttl, i), true, ttl, run[i]) == Routed(run[i].routing)
    ensures (if run[i].ev.eventID != "" then run[i].ev.eventID else run[i].ev.messageID)
            == (if run[n].ev.eventID != "" then run[n].ev.eventID else run[n].ev.messageID) != ""
  {
    i := EntryWasRouted(run, ttl, DedupeKey(run[n].ev), n);
  }

  /** When jobs with this dedupe key reached a worker's queue. */
  function QueuedTimes(run: seq<Arrival>, ttl: int, key: string, n: nat): seq<int>
    requires n <= |run|
  {
    if n == 0 then []
    else
      var before, a := QueuedTimes(run, ttl, key, n - 1), run[n - 1];
      if DedupeKey(a.ev) == key && Dispose(DedupeRun(run, ttl, n - 1), true, ttl, a) == Routed(ToWorker(true))
      then before + [a.now] else before
  }

  lemma {:induction false} QueuedTimesSpaced(run: seq<Arrival>, ttl: int, key: string, n: nat)
    requires n <= |run| && ttl > 0 && key != ""
    ensures Spacing.Spaced(QueuedTimes(run, ttl, key, n), ttl)
    ensures var times := QueuedTimes(run, ttl, key, n);
            times != [] ==> key in DedupeRun(run, ttl, n) && times[|times| - 1] + ttl <= DedupeRun(run, ttl, n)[key]
  {
    if n > 0 {
      hide Spacing.Spaced;
      QueuedTimesSpaced(run, ttl, key, n - 1);
      var before, a := QueuedTimes(run, ttl, key, n - 1), run[n - 1];
      if QueuedTimes(run, ttl, key, n) != before {
        SpacedAppend(before, ttl, a.now);
      }
    }
  }

  /** The bound carries through to the queue: at most floor(L / ttl) + 1 jobs per key in a window of length L. */
  lemma JobsPerWindow(run: seq<Arrival>, ttl: int, key: string, start: int, length: nat)
    requires ttl > 0 && key != ""
    ensures |Spacing.InWindow(QueuedTimes(run, ttl, key, |run|), start, length + 1)| <= length / ttl + 1
  {
    QueuedTimesSpaced(run, ttl, key, |run|);
    Spacing.ClosedWindowBound(QueuedTimes(run, ttl, key, |run|), ttl, start, length);
  }
}
