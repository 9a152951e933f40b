/** The hourly cleanup cannot be observed: no later answer of the store depends on it. */
module Cleanup {
  import opened StateStore
  import opened Sessions

  /** An operation on the store whose answer somebody sees. */
  datatype Query =
    | Mark(key: string, ttl: int, now: int)
    | Reply(chat: string, now: int)
    | Resolve(req: Request, policy: Policy, now: int, newID: string)
    | Forget(key: string)

  datatype Answer = Seen(seen: bool) | Allowed(allowed: bool) | Reused(id: string) | Opened(id: string) | Forgotten

  /** A cleanup may delete any of the picked entries that have expired. */
  datatype Event =
    | Ask(query: Query)
    | Clean(now: int, sessions: set<string>, dedupe: set<string>, chats: set<string>)

  function AnswerTo(t: Tables, interval: int, q: Query): Answer {
    match q
    case Mark(key, _, now) => Seen(StateStore.Seen(t.dedupe, key, now))
    case Reply(chat, now) => Allowed(StateStore.Allowed(t.unknownChat, chat, interval, now))
    case Resolve(req, policy, now, newID) =>
      var id := RecordAfter(t.sessions, req, policy, now, newID).sessionID;
      if Reusable(t.sessions, req.key, now) then Reused(id) else Opened(id)
    case Forget(_) => Forgotten
  }

  function After(t: Tables, interval: int, q: Query): Tables {
    match q
    case Mark(key, ttl, now) => t.(dedupe := Marked(t.dedupe, key, ttl, now))
    case Reply(chat, now) => t.(unknownChat := Replied(t.unknownChat, chat, interval, now))
    case Resolve(req, policy, now, newID) => t.(sessions := AfterUse(t.sessions, req, policy, now, newID))
    case Forget(key) => t.(sessions := t.sessions - {key})
  }

  function AfterEvent(t: Tables, interval: int, e: Event): Tables {
    match e
    case Ask(q) => After(t, interval, q)
    case Clean(now, sessions, dedupe, chats) => Cleaned(t, now, interval, sessions, dedupe, chats)
  }

  /** The answers of a run, oldest first. */
  function Answers(t: Tables, interval: int, run: seq<Event>): seq<Answer>
    decreases run
  {
    if run == [] then []
    else
      var rest := Answers(AfterEvent(t, interval, run[0]), interval, run[1..]);
      if run[0].Ask? then [AnswerTo(t, interval, run[0].query)] + rest else rest
  }

  function WithoutCleanups(run: seq<Event>): seq<Event> {
    if run == [] then []
    else if run[0].Clean? then WithoutCleanups(run[1..])
    else [run[0]] + WithoutCleanups(run[1..])
  }

  predicate NotBefore(e: Event, start: int) {
    match e
    case Clean(now, _, _, _) => start <= now
    case Ask(Forget(_)) => true
    case Ask(q) => start <= q.now
  }

  /** After a cleanup nothing reads the clock earlier than it did; before the first one, clocks are free. */
  predicate CleanupsStayPast(run: seq<Event>) {
    run == [] || ((run[0].Clean? ==> AllNotBefore(run[1..], run[0].now)) && CleanupsStayPast(run[1..]))
  }

  predicate AllNotBefore(run: seq<Event>, start: int) {
    forall i | 0 <= i < |run| :: NotBefore(run[i], start)
  }

  /** `pruned` is `full` without some entries that had expired by `start`. */
  ghost predicate Masks(full: Tables, pruned: Tables, interval: int, start: int) {
    && (forall k | k in pruned.sessions :: k in full.sessions && full.sessions[k] == pruned.sessions[k])
    && (forall k | k in full.sessions && k !in pruned.sessions :: SessionExpired(full.sessions[k], start))
    && (forall k | k in pruned.dedupe :: k in full.dedupe && full.dedupe[k] == pruned.dedupe[k])
    && (forall k | k in full.dedupe && k !in pruned.dedupe :: start > full.dedupe[k])
    && (forall k | k in pruned.unknownChat :: k in full.unknownChat && full.unknownChat[k] == pruned.unknownChat[k])
    && (forall k | k in full.unknownChat && k !in pruned.unknownChat :: start - full.unknownChat[k] >= interval)
  }

  /** Entries expired by `start` count for nothing at any reading from `start` on. */
  lemma SameAnswer(full: Tables, pruned: Tables, interval: int, start: int, q: Query)
    requires Masks(full, pruned, interval, start) && NotBefore(Ask(q), start)
    ensures AnswerTo(full, interval, q) == AnswerTo(pruned, interval, q)
    ensures Masks(After(full, interval, q), After(pruned, interval, q), interval, start)
  {
    if q.Resolve? {
      assert Reusable(full.sessions, q.req.key, q.now) == Reusable(pruned.sessions, q.req.key, q.now);
    }
  }

  lemma CleaningMasks(full: Tables, pruned: Tables, interval: int, start: int, e: Event)
    requires Masks(full, pruned, interval, start) && e.Clean? && start <= e.now
    ensures Masks(full, AfterEvent(pruned, interval, e), interval, e.now)
  {
  }

  lemma {:induction false} MaskedRunsAgree(full: Tables, pruned: Tables, interval: int, start: int, run: seq<Event>)
    requires Masks(full, pruned, interval, start) && AllNotBefore(run, start) && CleanupsStayPast(run)
    ensures Answers(pruned, interval, run) == Answers(full, interval, WithoutCleanups(run))
    decreases run
  {
    if run != [] {
      hide Masks, AnswerTo, After;
      assert NotBefore(run[0], start);
      if run[0].Ask? {
        SameAnswer(full, pruned, interval, start, run[0].query);
        MaskedRunsAgree(After(full, interval, run[0].query), After(pruned, interval, run[0].query), interval, start,
            run[1..]);
        AskFirst(full, interval, run[0], WithoutCleanups(run[1..]));
      } else {
        CleaningMasks(full, pruned, interval, start, run[0]);
        MaskedRunsAgree(full, AfterEvent(pruned, interval, run[0]), interval, run[0].now, run[1..]);
      }
    }
  }

  lemma AskFirst(t: Tables, interval: int, e: Event, rest: seq<Event>)
    requires e.Ask?
    ensures Answers(t, interval, [e] + rest)
            == [AnswerTo(t, interval, e.query)] + Answers(After(t, interval, e.query), interval, rest)
  {
    assert ([e] + rest)[1..] == rest;
  }

  /** Inserting cleanups anywhere, deleting any expired entries, changes no answer of the run. */
  lemma {:induction false} CleanupIsInvisible(t: Tables, interval: int, run: seq<Event>)
    requires CleanupsStayPast(run)
    ensures Answers(t, interval, run) == Answers(t, interval, WithoutCleanups(run))
    decreases run
  {
    if run != [] {
      hide AnswerTo, After;
      if run[0].Ask? {
        CleanupIsInvisible(After(t, interval, run[0].query), interval, run[1..]);
        AskFirst(t, interval, run[0], WithoutCleanups(run[1..]));
      } else {
        CleaningMasks(t, t, interval, run[0].now, run[0]);
        MaskedRunsAgree(t, AfterEvent(t, interval, run[0]), interval, run[0].now, run[1..]);
      }
    }
  }

  /** A clock that goes back past a cleanup does see it: the event is taken for new. */
  lemma EarlierReadingSeesCleanup()
    ensures var t := Tables(map[], map["event" := 9], map[]);
            var run := [Clean(10, {}, {"event"}, {}), Ask(Mark("event", 5, 8))];
            !CleanupsStayPast(run) && Answers(t, 60, run) == [Seen(false)]
                && Answers(t, 60, WithoutCleanups(run)) == [Seen(true)]
  {
    var t := Tables(map[], map["event" := 9], map[]);
    var ask, clean := Ask(Mark("event", 5, 8)), Clean(10, {}, {"event"}, {});
    var run := [clean, ask];
    assert run[1..] == [ask] && [ask][1..] == [];
    assert !NotBefore(run[1..][0], 10);
    assert WithoutCleanups([ask]) == [ask] + WithoutCleanups([]);
    assert WithoutCleanups(run) == WithoutCleanups(run[1..]) == [ask];
    assert "event" !in AfterEvent(t, 60, clean).dedupe;
  }

  // ---- Exactly which deletions can be seen ----

  /** `left` is `full` with some entries deleted. */
  ghost predicate Subtables(left: Tables, full: Tables) {
    && (forall k | k in left.sessions :: k in full.sessions && full.sessions[k] == left.sessions[k])
    && (forall k | k in left.dedupe :: k in full.dedupe && full.dedupe[k] == left.dedupe[k])
    && (forall k | k in left.unknownChat :: k in full.unknownChat && full.unknownChat[k] == left.unknownChat[k])
  }

  /** No deleted entry still counts at the instant `m`. */
  ghost predicate NoneCounts(full: Tables, left: Tables, interval: int, m: int) {
    && (forall k | k in full.sessions && k !in left.sessions :: !Reusable(full.sessions, k, m))
    && (forall k | k in full.dedupe && k !in left.dedupe :: !StateStore.Seen(full.dedupe, k, m))
    && (forall k | k in full.unknownChat && k !in left.unknownChat ::
          StateStore.Allowed(full.unknownChat, k, interval, m))
  }

  /** No run whose readings are from `m` on can tell the two tables apart. */
  ghost predicate Indistinguishable(full: Tables, left: Tables, interval: int, m: int) {
    forall run | AllNotBefore(run, m) && WithoutCleanups(run) == run ::
      Answers(left, interval, run) == Answers(full, interval, run)
  }

  lemma ReusableElsewhere(sessions: map<string, SessionRecord>, rec: SessionRecord, k: string, m: int)
    requires k != rec.key
    ensures Reusable(sessions[rec.key := rec], k, m) == Reusable(sessions, k, m)
  {
  }

  /** A session is used: both tables answer with it and store the same record. */
  lemma SameUse(full: Tables, left: Tables, interval: int, m: int, q: Query)
    requires Subtables(left, full) && NoneCounts(full, left, interval, m) && NotBefore(Ask(q), m) && q.Resolve?
    ensures AnswerTo(left, interval, q) == AnswerTo(full, interval, q)
    ensures RecordAfter(left.sessions, q.req, q.policy, q.now, q.newID)
            == RecordAfter(full.sessions, q.req, q.policy, q.now, q.newID)
  {
    assert Reusable(left.sessions, q.req.key, q.now) == Reusable(full.sessions, q.req.key, q.now);
  }

  lemma SameResolveWhileNoneCounts(full: Tables, left: Tables, interval: int, m: int, q: Query)
    requires Subtables(left, full) && NoneCounts(full, left, interval, m) && NotBefore(Ask(q), m) && q.Resolve?
    ensures AnswerTo(left, interval, q) == AnswerTo(full, interval, q)
    ensures Subtables(After(left, interval, q), After(full, interval, q))
    ensures NoneCounts(After(full, interval, q), After(left, interval, q), interval, m)
  {
    SameUse(full, left, interval, m, q);
    var rec := RecordAfter(full.sessions, q.req, q.policy, q.now, q.newID);
    var fullAfter, leftAfter := full.sessions[rec.key := rec], left.sessions[rec.key := rec];
    hide Reusable, RecordAfter, AnswerTo, StateStore.Seen, StateStore.Allowed;
    assert After(full, interval, q) == full.(sessions := fullAfter)
           && After(left, interval, q) == left.(sessions := leftAfter);
    forall k | k in fullAfter && k !in leftAfter ensures !Reusable(fullAfter, k, m) {
      ReusableElsewhere(full.sessions, rec, k, m);
    }
    hide After;
  }

  lemma SameAnswerWhileNoneCounts(full: Tables, left: Tables, interval: int, m: int, q: Query)
    requires Subtables(left, full) && NoneCounts(full, left, interval, m) && NotBefore(Ask(q), m)
    ensures AnswerTo(left, interval, q) == AnswerTo(full, interval, q)
    ensures Subtables(After(left, interval, q), After(full, interval, q))
    ensures NoneCounts(After(full, interval, q), After(left, interval, q), interval, m)
  {
    if q.Resolve? {
      hide *;
      SameResolveWhileNoneCounts(full, left, interval, m, q);
    } else {
      hide RecordAfter;
    }
  }

  lemma {:induction false} RunsAgreeWhileNoneCounts(full: Tables, left: Tables, interval: int, m: int, run: seq<Event>)
    requires Subtables(left, full) && NoneCounts(full, left, interval, m)
    requires AllNotBefore(run, m) && WithoutCleanups(run) == run
    ensures Answers(left, interval, run) == Answers(full, interval, run)
    decreases run
  {
    if run != [] {
      NoCleanupFirst(run);
      hide Subtables, NoneCounts, AnswerTo, After;
      assert NotBefore(run[0], m);
      SameAnswerWhileNoneCounts(full, left, interval, m, run[0].query);
      RunsAgreeWhileNoneCounts(After(full, interval, run[0].query), After(left, interval, run[0].query), interval, m,
          run[1..]);
    }
  }

  lemma {:induction false} FewerWithoutCleanups(run: seq<Event>)
    ensures |WithoutCleanups(run)| <= |run|
  {
    if run != [] {
      FewerWithoutCleanups(run[1..]);
    }
  }

  lemma NoCleanupFirst(run: seq<Event>)
    requires run != [] && WithoutCleanups(run) == run
    ensures run[0].Ask? && WithoutCleanups(run[1..]) == run[1..]
  {
    FewerWithoutCleanups(run[1..]);
    assert run == [run[0]] + run[1..];
  }

  /** An entry that still counts answers a question put at that instant. */
  lemma CountingIsSeen(full: Tables, left: Tables, interval: int, m: int) returns (q: Query)
    requires Subtables(left, full) && !NoneCounts(full, left, interval, m)
    ensures NotBefore(Ask(q), m) && AnswerTo(left, interval, q) != AnswerTo(full, interval, q)
  {
    if k :| k in full.sessions && k !in left.sessions && Reusable(full.sessions, k, m) {
      q := Resolve(Request(k, "", "", "", "", ""), Policy(1, 1), m, "");
    } else if k :| k in full.dedupe && k !in left.dedupe && StateStore.Seen(full.dedupe, k, m) {
      q := Mark(k, 1, m);
    } else {
      var k :| k in full.unknownChat && k !in left.unknownChat && !StateStore.Allowed(full.unknownChat, k, interval, m);
      q := Reply(k, m);
    }
  }

  lemma OneQuestion(t: Tables, interval: int, q: Query)
    ensures Answers(t, interval, [Ask(q)]) == [AnswerTo(t, interval, q)] && WithoutCleanups([Ask(q)]) == [Ask(q)]
  {
    assert [Ask(q)][1..] == [];
  }

  /** Deletions are invisible from `m` on exactly when no deleted entry still counts at `m`. */
  lemma InvisibleIffNoneCounts(full: Tables, left: Tables, interval: int, m: int)
    requires Subtables(left, full)
    ensures Indistinguishable(full, left, interval, m) <==> NoneCounts(full, left, interval, m)
  {
    if NoneCounts(full, left, interval, m) {
      forall run | AllNotBefore(run, m) && WithoutCleanups(run) == run
        ensures Answers(left, interval, run) == Answers(full, interval, run)
      {
        RunsAgreeWhileNoneCounts(full, left, interval, m, run);
      }
    } else {
      var q := CountingIsSeen(full, left, interval, m);
      hide NoneCounts, Subtables, AnswerTo;
      OneQuestion(left, interval, q);
      OneQuestion(full, interval, q);
      assert AllNotBefore([Ask(q)], m);
      assert Answers(left, interval, [Ask(q)])[0] != Answers(full, interval, [Ask(q)])[0];
    }
  }

  /**
   A cleanup is invisible to the readings from `m` on exactly when nothing it deleted still counts
   at `m`; that is so for every `m` from the cleanup's own reading on.
   */
  lemma CleanupInvisibleIff(t: Tables, interval: int, clean: Event, m: int)
    requires clean.Clean?
    ensures Indistinguishable(t, AfterEvent(t, interval, clean), interval, m)
            <==> NoneCounts(t, AfterEvent(t, interval, clean), interval, m)
    ensures clean.now <= m ==> NoneCounts(t, AfterEvent(t, interval, clean), interval, m)
  {
    var left := AfterEvent(t, interval, clean);
    assert Subtables(left, t);
    InvisibleIffNoneCounts(t, left, interval, m);
    hide Indistinguishable;
  }
}
