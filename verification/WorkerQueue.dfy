/**
 The bounded queue between the event handler and one chat's worker. An `Enqueue` that finds the
 queue full drops the oldest job and then sends without a way out, in separate steps, while the
 worker keeps taking jobs.
 */
module WorkerQueue {
  import opened Wrappers

  datatype Job = Job(requestID: string)

  datatype OnFull = Reject | DropOldest

  datatype Config = Config(maxPending: nat, onFull: OnFull)

  /** The error paths of `Enqueue`. */
  datatype Refusal = WorkerClosed | ContextDone | QueueFull

  datatype Fate = Handled(job: Job) | Dropped(job: Job)

  /** Where a producer is: outside, past the first select with the queue full, or about to send for good. */
  datatype Producer = Idle | SawFull(job: Job) | MadeRoom(job: Job)

  datatype State = State(queue: seq<Job>, producers: map<nat, Producer>, accepted: seq<Job>, fates: seq<Fate>,
                         closed: bool, stopped: bool)

  datatype Step =
    | Send(producer: nat, job: Job)
    | Refuse(producer: nat, job: Job, reason: Refusal)
    | SeeFull(producer: nat, job: Job)
    | Drop(producer: nat)
    | SendDropped(producer: nat)
    | Take
    | Close
    | Stop

  const INITIAL := State([], map[], [], [], false, false)

  function At(s: State, p: nat): Producer {
    if p in s.producers then s.producers[p] else Idle
  }

  predicate Full(s: State, cfg: Config) {
    |s.queue| >= cfg.maxPending
  }

  predicate Enabled(s: State, cfg: Config, a: Step) {
    match a
    case Send(p, _) => At(s, p).Idle? && !Full(s, cfg)
    case Refuse(p, _, reason) =>
      && At(s, p).Idle?
      && (reason == WorkerClosed ==> s.closed)
      && (reason == QueueFull ==> Full(s, cfg) && !s.closed && cfg.onFull == Reject)
    case SeeFull(p, _) => At(s, p).Idle? && Full(s, cfg) && !s.closed && cfg.onFull == DropOldest
    case Drop(p) => At(s, p).SawFull?
    case SendDropped(p) => At(s, p).MadeRoom? && !Full(s, cfg)
    case Take => s.queue != [] && !s.stopped
    case Close => true
    case Stop => s.closed
  }

  function Put(s: State, p: nat, job: Job): State {
    s.(queue := s.queue + [job], accepted := s.accepted + [job], producers := s.producers[p := Idle])
  }

  function Apply(s: State, cfg: Config, a: Step): State
    requires Enabled(s, cfg, a)
  {
    match a
    case Send(p, job) => Put(s, p, job)
    case Refuse(_, _, _) => s
    case SeeFull(p, job) => s.(producers := s.producers[p := SawFull(job)])
    case Drop(p) =>
      var next := s.(producers := s.producers[p := MadeRoom(At(s, p).job)]);
      if s.queue == [] then next else next.(queue := s.queue[1..], fates := s.fates + [Dropped(s.queue[0])])
    case SendDropped(p) => Put(s, p, At(s, p).job)
    case Take => s.(queue := s.queue[1..], fates := s.fates + [Handled(s.queue[0])])
    case Close => s.(closed := true)
    case Stop => s.(stopped := true)
  }

  predicate Runs(cfg: Config, run: seq<Step>)
    decreases |run|, 0
  {
    run == [] || (Runs(cfg, run[..|run| - 1]) && Enabled(After(cfg, run[..|run| - 1]), cfg, run[|run| - 1]))
  }

  function After(cfg: Config, run: seq<Step>): State
    requires Runs(cfg, run)
    decreases |run|, 1
  {
    if run == [] then INITIAL else Apply(After(cfg, run[..|run| - 1]), cfg, run[|run| - 1])
  }

  // ---- Conservation and order, for any number of producers ----

  function Jobs(fates: seq<Fate>): (jobs: seq<Job>)
    ensures |jobs| == |fates| && forall i | 0 <= i < |fates| :: jobs[i] == fates[i].job
  {
    seq(|fates|, i requires 0 <= i < |fates| => fates[i].job)
  }

  /** The jobs the worker handled, in order. */
  function HandledJobs(fates: seq<Fate>): seq<Job> {
    if fates == [] then []
    else HandledJobs(fates[..|fates| - 1]) + (if fates[|fates| - 1].Handled? then [fates[|fates| - 1].job] else [])
  }

  /** `xs` is `ys` with some entries left out. */
  predicate Subsequence(xs: seq<Job>, ys: seq<Job>) {
    xs == []
    || (ys != [] && (Subsequence(xs, ys[..|ys| - 1])
                     || (xs[|xs| - 1] == ys[|ys| - 1] && Subsequence(xs[..|xs| - 1], ys[..|ys| - 1]))))
  }

  ghost predicate Conserved(s: State, cfg: Config) {
    s.accepted == Jobs(s.fates) + s.queue && |s.queue| <= cfg.maxPending
  }

  lemma StepConserves(s: State, cfg: Config, a: Step)
    requires Conserved(s, cfg) && Enabled(s, cfg, a)
    ensures Conserved(Apply(s, cfg, a), cfg)
  {
    var t := Apply(s, cfg, a);
    if |t.fates| > |s.fates| {
      assert s.queue == [s.queue[0]] + t.queue;
      assert Jobs(t.fates) == Jobs(s.fates) + [s.queue[0]];
    }
  }

  /** Accepted jobs are the handled and dropped ones, in the order they were accepted, followed by the queued ones. */
  lemma {:induction false} JobsAreConserved(cfg: Config, run: seq<Step>)
    requires Runs(cfg, run)
    ensures var s := After(cfg, run); s.accepted == Jobs(s.fates) + s.queue && |s.queue| <= cfg.maxPending
    decreases |run|
  {
    if run != [] {
      JobsAreConserved(cfg, run[..|run| - 1]);
      StepConserves(After(cfg, run[..|run| - 1]), cfg, run[|run| - 1]);
    }
  }

  /** A dropped job was accepted before every job still queued. */
  lemma DroppedAreOldest(cfg: Config, run: seq<Step>, i: nat, k: nat)
    requires Runs(cfg, run) && i < |After(cfg, run).fates| && k < |After(cfg, run).queue|
    ensures var s := After(cfg, run);
            var at := |s.fates| + k;
            i < at < |s.accepted| && s.accepted[i] == s.fates[i].job && s.accepted[at] == s.queue[k]
  {
    JobsAreConserved(cfg, run);
  }

  lemma {:induction false} HandledAreSubsequence(fates: seq<Fate>)
    ensures Subsequence(HandledJobs(fates), Jobs(fates))
  {
    if fates != [] {
      var front := fates[..|fates| - 1];
      HandledAreSubsequence(front);
      var ys := Jobs(fates);
      assert ys[..|ys| - 1] == Jobs(front);
      var xs := HandledJobs(fates);
      if fates[|fates| - 1].Handled? {
        assert xs[..|xs| - 1] == HandledJobs(front);
      } else {
        assert xs == HandledJobs(front);
      }
    }
  }

  lemma {:induction false} SubsequenceExtends(xs: seq<Job>, ys: seq<Job>, more: seq<Job>)
    requires Subsequence(xs, ys)
    ensures Subsequence(xs + more, ys + more)
    decreases |more|
  {
    if more == [] {
      assert xs + more == xs && ys + more == ys;
    } else {
      var front := more[..|more| - 1];
      SubsequenceExtends(xs, ys, front);
      var a, b := xs + more, ys + more;
      assert a[..|a| - 1] == xs + front && b[..|b| - 1] == ys + front;
    }
  }

  /** What was handled, followed by what is queued, is the accepted jobs in order with some left out. */
  lemma HandledThenQueued(cfg: Config, run: seq<Step>)
    requires Runs(cfg, run)
    ensures var s := After(cfg, run); Subsequence(HandledJobs(s.fates) + s.queue, s.accepted)
  {
    var s := After(cfg, run);
    JobsAreConserved(cfg, run);
    HandledAreSubsequence(s.fates);
    SubsequenceExtends(HandledJobs(s.fates), Jobs(s.fates), s.queue);
  }

  ghost predicate AllIdle(s: State) {
    forall p | p in s.producers :: s.producers[p] == Idle
  }

  predicate NothingDropped(s: State) {
    s.accepted == HandledJobs(s.fates) + s.queue
  }

  lemma HandledOne(fates: seq<Fate>, job: Job)
    ensures HandledJobs(fates + [Handled(job)]) == HandledJobs(fates) + [job]
  {
    assert (fates + [Handled(job)])[..|fates|] == fates;
  }

  lemma TakeDropsNothing(s: State, cfg: Config)
    requires NothingDropped(s) && Enabled(s, cfg, Take)
    ensures NothingDropped(Apply(s, cfg, Take))
  {
    HandledOne(s.fates, s.queue[0]);
    hide HandledJobs;
    assert s.queue == [s.queue[0]] + s.queue[1..];
  }

  lemma RejectingStep(s: State, cfg: Config, a: Step)
    requires NothingDropped(s) && AllIdle(s) && Enabled(s, cfg, a) && cfg.onFull == Reject
    ensures NothingDropped(Apply(s, cfg, a)) && AllIdle(Apply(s, cfg, a))
  {
    if a.Take? {
      TakeDropsNothing(s, cfg);
    } else if a.Send? {
      hide HandledJobs;
      assert s.accepted + [a.job] == HandledJobs(s.fates) + (s.queue + [a.job]);
    }
    hide HandledJobs;
  }

  /** A worker that rejects never drops: every accepted job is handled or queued. */
  lemma {:induction false} RejectingLosesNothing(cfg: Config, run: seq<Step>)
    requires Runs(cfg, run) && cfg.onFull == Reject
    ensures NothingDropped(After(cfg, run)) && AllIdle(After(cfg, run))
    decreases |run|
  {
    if run != [] {
      RejectingLosesNothing(cfg, run[..|run| - 1]);
      RejectingStep(After(cfg, run[..|run| - 1]), cfg, run[|run| - 1]);
    }
  }

  // ---- One producer never blocks ----

  predicate ByProducer(a: Step, p: nat) {
    (a.Send? || a.Refuse? || a.SeeFull? || a.Drop? || a.SendDropped?) ==> a.producer == p
  }

  predicate OneProducer(run: seq<Step>, p: nat) {
    run == [] || (OneProducer(run[..|run| - 1], p) && ByProducer(run[|run| - 1], p))
  }

  /** Past the drop, the only producer finds room whatever the worker does meanwhile. */
  lemma {:induction false} EnqueueNeverBlocks(cfg: Config, run: seq<Step>, p: nat)
    requires Runs(cfg, run) && OneProducer(run, p) && cfg.maxPending > 0
    ensures At(After(cfg, run), p).MadeRoom? ==> Enabled(After(cfg, run), cfg, SendDropped(p))
    decreases |run|
  {
    if run != [] {
      EnqueueNeverBlocks(cfg, run[..|run| - 1], p);
      JobsAreConserved(cfg, run[..|run| - 1]);
    }
  }

  lemma Extend(cfg: Config, run: seq<Step>, a: Step)
    requires Runs(cfg, run) && Enabled(After(cfg, run), cfg, a)
    ensures Runs(cfg, run + [a]) && After(cfg, run + [a]) == Apply(After(cfg, run), cfg, a)
  {
    assert (run + [a])[..|run|] == run;
  }

  // ---- Exactly which producers can block ----

  predicate ByProducers(run: seq<Step>, producers: set<nat>) {
    run == []
    || (ByProducers(run[..|run| - 1], producers)
        && (var a := run[|run| - 1];
            a.Send? || a.Refuse? || a.SeeFull? || a.Drop? || a.SendDropped? ==> a.producer in producers))
  }

  /** A producer that has made room finds it, in every run of these producers. */
  ghost predicate NeverBlocks(cfg: Config, producers: set<nat>) {
    forall run, p | Runs(cfg, run) && ByProducers(run, producers) && At(After(cfg, run), p).MadeRoom? ::
      Enabled(After(cfg, run), cfg, SendDropped(p))
  }

  lemma {:induction false} OnlyThese(cfg: Config, run: seq<Step>, producers: set<nat>, p: nat)
    requires Runs(cfg, run) && ByProducers(run, producers)
    ensures At(After(cfg, run), p) != Idle ==> p in producers
    decreases |run|
  {
    if run != [] {
      OnlyThese(cfg, run[..|run| - 1], producers, p);
    }
  }

  lemma {:induction false} OnlyOne(run: seq<Step>, producers: set<nat>, p: nat)
    requires ByProducers(run, producers) && producers == {p}
    ensures OneProducer(run, p)
  {
    if run != [] {
      OnlyOne(run[..|run| - 1], producers, p);
    }
  }

  lemma SingleMember(producers: set<nat>, p: nat)
    requires p in producers && |producers| <= 1
    ensures producers == {p}
  {
    assert |producers - {p}| == |producers| - 1;
    assert producers == (producers - {p}) + {p};
  }

  /** One producer fills the queue. */
  lemma {:induction false} Fill(cfg: Config, producers: set<nat>, p: nat, job: Job, n: nat) returns (run: seq<Step>)
    requires n <= cfg.maxPending && p in producers
    ensures Runs(cfg, run) && ByProducers(run, producers)
    ensures |After(cfg, run).queue| == n && !After(cfg, run).closed && AllIdle(After(cfg, run))
  {
    if n == 0 {
      run := [];
    } else {
      var front := Fill(cfg, producers, p, job, n - 1);
      ExtendBy(cfg, front, producers, Send(p, job));
      run := front + [Send(p, job)];
    }
  }

  lemma ExtendBy(cfg: Config, run: seq<Step>, producers: set<nat>, a: Step)
    requires Runs(cfg, run) && Enabled(After(cfg, run), cfg, a) && ByProducers(run, producers)
    requires a.Send? || a.Refuse? || a.SeeFull? || a.Drop? || a.SendDropped?
    requires a.producer in producers
    ensures Runs(cfg, run + [a]) && After(cfg, run + [a]) == Apply(After(cfg, run), cfg, a)
            && ByProducers(run + [a], producers)
  {
    hide Enabled, Apply;
    Extend(cfg, run, a);
    assert (run + [a])[..|run|] == run;
  }

  /** The three steps from a full queue. */
  lemma RoomIsTaken(s: State, cfg: Config, p: nat, q: nat, job: Job)
    requires |s.queue| == cfg.maxPending > 0 && cfg.onFull == DropOldest && !s.closed && p != q
             && At(s, p) == At(s, q) == Idle
    ensures Enabled(s, cfg, SeeFull(p, job))
    ensures var saw := Apply(s, cfg, SeeFull(p, job));
            && Enabled(saw, cfg, Drop(p))
            && var room := Apply(saw, cfg, Drop(p));
               && Enabled(room, cfg, Send(q, job))
               && var taken := Apply(room, cfg, Send(q, job));
                  At(taken, p) == MadeRoom(job) && !Enabled(taken, cfg, SendDropped(p))
  {
  }

  /** At any capacity: one producer drops the oldest job, another takes the room, and the first blocks. */
  lemma SecondProducerTakesRoom(cfg: Config, producers: set<nat>, p: nat, q: nat, job: Job) returns (run: seq<Step>)
    requires cfg.maxPending > 0 && cfg.onFull == DropOldest && p in producers && q in producers && p != q
    ensures Runs(cfg, run) && ByProducers(run, producers)
    ensures At(After(cfg, run), p) == MadeRoom(job) && !Enabled(After(cfg, run), cfg, SendDropped(p))
    ensures |run| >= 3 && run[|run| - 3..] == [SeeFull(p, job), Drop(p), Send(q, job)]
  {
    var full := Fill(cfg, producers, p, job, cfg.maxPending);
    assert At(After(cfg, full), p) == At(After(cfg, full), q) == Idle;
    RoomIsTaken(After(cfg, full), cfg, p, q, job);
    hide Runs, After, Apply, Enabled;
    ExtendBy(cfg, full, producers, SeeFull(p, job));
    var saw := full + [SeeFull(p, job)];
    ExtendBy(cfg, saw, producers, Drop(p));
    var dropped := saw + [Drop(p)];
    ExtendBy(cfg, dropped, producers, Send(q, job));
    run := dropped + [Send(q, job)];
  }

  /** A worker that drops the oldest job never blocks its producers exactly when there is at most one. */
  lemma NeverBlocksIffOneProducer(cfg: Config, producers: set<nat>)
    requires cfg.maxPending > 0
    ensures NeverBlocks(cfg, producers) <==> cfg.onFull == Reject || |producers| <= 1
  {
    if cfg.onFull == Reject {
      forall run, p | Runs(cfg, run) ensures !At(After(cfg, run), p).MadeRoom? {
        RejectingLosesNothing(cfg, run);
      }
    } else if |producers| <= 1 {
      forall run, p | Runs(cfg, run) && ByProducers(run, producers) && At(After(cfg, run), p).MadeRoom?
        ensures Enabled(After(cfg, run), cfg, SendDropped(p))
      {
        OnlyThese(cfg, run, producers, p);
        SingleMember(producers, p);
        OnlyOne(run, producers, p);
        EnqueueNeverBlocks(cfg, run, p);
      }
    } else {
      var p :| p in producers;
      assert |producers - {p}| == |producers| - 1;
      var q :| q in producers - {p};
      var run := SecondProducerTakesRoom(cfg, producers, p, q, Job(""));
    }
  }

  // ---- The worker's own methods, with nothing in between ----

  class Worker {
    const cfg: Config
    var queue: seq<Job>
    var closed: bool

    constructor (cfg: Config)
      ensures this.cfg == cfg && queue == [] && !closed
    {
      this.cfg, queue, closed := cfg, [], false;
    }

    /** `pick` is the select's choice between sending and giving up when both are ready. */
    method Enqueue(job: Job, contextDone: bool, pick: bool) returns (r: Option<Refusal>)
      modifies `queue
      ensures r.None? && |old(queue)| < cfg.maxPending ==> queue == old(queue) + [job]
      ensures r.None? && |old(queue)| >= cfg.maxPending ==>
                && cfg.onFull == DropOldest && !closed && !contextDone
                && queue == (if old(queue) == [] then [] else old(queue)[1..]) + [job]
      ensures r.Some? ==> queue == old(queue)
      ensures r == Some(WorkerClosed) ==> closed
      ensures r == Some(ContextDone) ==> contextDone
      ensures r == Some(QueueFull) ==> !closed && !contextDone
      ensures !closed && !contextDone ==>
                r == if |old(queue)| >= cfg.maxPending && cfg.onFull == Reject then Some(QueueFull) else None
    {
      if |queue| < cfg.maxPending && (pick || !(closed || contextDone)) {
        queue := queue + [job];
        return None;
      }
      if closed {
        return Some(WorkerClosed);
      }
      if contextDone {
        return Some(ContextDone);
      }
      if cfg.onFull == DropOldest {
        if queue != [] {
          queue := queue[1..];
        }
        queue := queue + [job];
        return None;
      }
      return Some(QueueFull);
    }
  }

  /**
   The steps of one producer with nothing in between do what the method does: with room the job is added,
   and a refusal for want of room is impossible; without room it is refused by a worker that rejects, and
   takes the place of the oldest job otherwise.
   */
  lemma UninterruptedEnqueue(s: State, cfg: Config, p: nat, job: Job)
    requires Conserved(s, cfg) && cfg.maxPending > 0 && At(s, p).Idle? && !s.closed
    ensures |s.queue| < cfg.maxPending <==> Enabled(s, cfg, Send(p, job))
    ensures |s.queue| < cfg.maxPending ==> Apply(s, cfg, Send(p, job)).queue == s.queue + [job]
    ensures |s.queue| >= cfg.maxPending && cfg.onFull == Reject <==> Enabled(s, cfg, Refuse(p, job, QueueFull))
    ensures |s.queue| >= cfg.maxPending && cfg.onFull == Reject ==> Apply(s, cfg, Refuse(p, job, QueueFull)) == s
    ensures |s.queue| >= cfg.maxPending && cfg.onFull == DropOldest <==> Enabled(s, cfg, SeeFull(p, job))
    ensures Enabled(s, cfg, SeeFull(p, job)) ==>
              var saw := Apply(s, cfg, SeeFull(p, job));
              && Enabled(saw, cfg, Drop(p))
              && var room := Apply(saw, cfg, Drop(p));
                 && Enabled(room, cfg, SendDropped(p)) && room.fates == s.fates + [Dropped(s.queue[0])]
                 && Apply(room, cfg, SendDropped(p)).queue == s.queue[1..] + [job]
  {
  }
}
