/**
 One job of a chat's worker: resolve a session, start a card, send the prompt, render the events,
 and recover once from a session the agent no longer knows. Every call the worker makes on the
 agent, the store's reset and the renderer is recorded; what they answer is an arbitrary function
 of how many calls came before.
 */
module WorkerHandle {
  import opened Wrappers
  import StateStore
  import Sessions

  datatype Strategy = Static(id: string) | AutoCreate | Ephemeral | Unsupported

  datatype Job = Job(strategy: Strategy, req: Sessions.Request, policy: Sessions.Policy, agentKnown: bool)

  /** An event of a prompt's stream; a stale error says the agent does not know the session. */
  datatype Event = Delta(text: string) | Process(text: string) | Finish(final: string) | Error(stale: bool)

  /** The stream is the events up to its close. */
  datatype SendResult = Streaming(events: seq<Event>) | SendError(stale: bool)

  datatype Env = Env(clock: nat -> int, getOk: nat -> bool, putOk: nat -> bool, resetOk: nat -> bool,
                     open: nat -> Option<string>, send: nat -> SendResult, startOk: nat -> bool, cancelled: nat -> bool)

  datatype Call =
    | Opened(id: Option<string>)
    | Forgot
    | Sent(session: string, result: SendResult)
    | ClosedSession(session: string)
    | StartedCard(ok: bool)
    | Appended(text: string)
    | AppendedProcess(text: string)
    | AnnouncedRefresh
    | FinishedCard(final: string)
    | FailedCard
    | Registered(session: string)
    | Unregistered

  datatype Kind = Opens | Sends | Resets | Refreshes | Terminals | Starts | Registers | Unregisters

  predicate Is(c: Call, k: Kind) {
    match k
    case Opens => c.Opened?
    case Sends => c.Sent?
    case Resets => c.Forgot?
    case Refreshes => c.AnnouncedRefresh?
    case Terminals => c.FinishedCard? || c.FailedCard?
    case Starts => c == StartedCard(true)
    case Registers => c.Registered?
    case Unregisters => c.Unregistered?
  }

  function Count(log: seq<Call>, k: Kind): nat {
    if log == [] then 0 else Count(log[..|log| - 1], k) + if Is(log[|log| - 1], k) then 1 else 0
  }

  // ---- The session a call names ----

  /** The session the job has: the one it began with, or the one last opened; a reset leaves it none. */
  function Current(log: seq<Call>, initial: Option<string>): Option<string> {
    if log == [] then initial else CurrentNext(Current(log[..|log| - 1], initial), log[|log| - 1])
  }

  function CurrentNext(current: Option<string>, c: Call): Option<string> {
    if c.Forgot? then None else if c.Opened? then c.id else current
  }

  /** The last call is a prompt that got a stream. */
  predicate HasStream(log: seq<Call>) {
    log != [] && log[|log| - 1].Sent? && log[|log| - 1].result.Streaming?
  }

  /**
   A prompt and a close name the session the job has. A prompt that got a stream, and nothing else, is
   registered next, with its session.
   */
  predicate MayFollow(log: seq<Call>, initial: Option<string>, c: Call) {
    && (c.Sent? || c.ClosedSession? ==> Current(log, initial) == Some(c.session))
    && (c.Registered? <==> HasStream(log))
    && (c.Registered? ==> c.session == log[|log| - 1].session)
  }

  predicate InOrder(log: seq<Call>, initial: Option<string>) {
    log == [] || (InOrder(log[..|log| - 1], initial) && MayFollow(log[..|log| - 1], initial, log[|log| - 1]))
  }

  lemma {:induction false} OrderedAt(log: seq<Call>, initial: Option<string>, i: nat)
    requires InOrder(log, initial) && i < |log|
    ensures InOrder(log[..i], initial) && MayFollow(log[..i], initial, log[i])
    decreases |log|
  {
    if i < |log| - 1 {
      var front := log[..|log| - 1];
      OrderedAt(front, initial, i);
      assert front[..i] == log[..i];
    }
  }

  /** A registration follows a prompt to the same session that got a stream, and each such prompt is followed by one. */
  lemma RegistrationsFollowPrompts(log: seq<Call>, initial: Option<string>, i: nat)
    requires InOrder(log, initial) && 0 < i < |log|
    ensures log[i].Registered? <==> log[i - 1].Sent? && log[i - 1].result.Streaming?
    ensures log[i].Registered? ==> log[i].session == log[i - 1].session
  {
    OrderedAt(log, initial, i);
  }

  lemma NoRegistrationFirst(log: seq<Call>, initial: Option<string>)
    requires InOrder(log, initial) && log != []
    ensures !log[0].Registered?
  {
    OrderedAt(log, initial, 0);
  }

  /** From `k` on, no session was opened or forgotten before `j`. */
  ghost predicate Unchanged(log: seq<Call>, k: int, j: nat) {
    forall m | k <= m < j && 0 <= m < |log| :: !log[m].Opened? && !log[m].Forgot?
  }

  lemma {:induction false} CurrentIsLast(log: seq<Call>, initial: Option<string>, session: string)
    requires Current(log, initial) == Some(session)
    ensures (initial == Some(session) && Unchanged(log, 0, |log|))
            || exists k :: 0 <= k < |log| && log[k] == Opened(Some(session)) && Unchanged(log, k + 1, |log|)
  {
    if log != [] {
      var front, last := log[..|log| - 1], log[|log| - 1];
      if last.Opened? {
        assert log[|log| - 1] == Opened(Some(session)) && Unchanged(log, |log|, |log|);
      } else {
        CurrentIsLast(front, initial, session);
        assert forall m | 0 <= m < |front| :: log[m] == front[m];
        if k :| 0 <= k < |front| && front[k] == Opened(Some(session)) && Unchanged(front, k + 1, |front|) {
          assert log[k] == Opened(Some(session)) && Unchanged(log, k + 1, |log|);
        }
      }
    }
  }

  /**
   A prompt names the session last opened, none having been forgotten since, or the one the job began with
   if none was opened or forgotten before.
   */
  lemma PromptsNameLastSession(log: seq<Call>, initial: Option<string>, j: nat)
    requires InOrder(log, initial) && j < |log| && log[j].Sent?
    ensures (initial == Some(log[j].session) && Unchanged(log, 0, j))
            || exists k :: 0 <= k < j && log[k] == Opened(Some(log[j].session)) && Unchanged(log, k + 1, j)
  {
    var front := log[..j];
    OrderedAt(log, initial, j);
    CurrentIsLast(front, initial, log[j].session);
    assert forall m | 0 <= m < j :: log[m] == front[m];
    if k :| 0 <= k < j && front[k] == Opened(Some(log[j].session)) && Unchanged(front, k + 1, j) {
      assert log[k] == Opened(Some(log[j].session)) && Unchanged(log, k + 1, j);
    }
  }

  /** In particular a prompt after a reset goes to a session opened since. */
  lemma ResendsUseNewSessions(log: seq<Call>, initial: Option<string>, i: nat, j: nat)
    requires InOrder(log, initial) && i < j < |log| && log[i].Forgot? && log[j].Sent?
    ensures exists k :: i < k < j && log[k] == Opened(Some(log[j].session)) && Unchanged(log, k + 1, j)
  {
    PromptsNameLastSession(log, initial, j);
  }

  predicate Names(c: Call, session: string) {
    c.Sent? || c.Registered? || c.ClosedSession? ==> c.session == session
  }

  /** Every prompt, registration and close is about the one session. */
  predicate NamesOnly(log: seq<Call>, session: string) {
    forall i | 0 <= i < |log| :: Names(log[i], session)
  }

  /** From here on no session is opened or forgotten. */
  predicate Settled(before: seq<Call>, after: seq<Call>) {
    Count(after, Opens) == Count(before, Opens) && Count(after, Resets) == Count(before, Resets)
  }

  lemma {:induction false} CountGrows(log: seq<Call>, n: nat, k: Kind)
    requires n <= |log|
    ensures Count(log[..n], k) <= Count(log, k)
    decreases |log|
  {
    if n < |log| {
      var front := log[..|log| - 1];
      CountGrows(front, n, k);
      assert front[..n] == log[..n];
    } else {
      assert log[..n] == log;
    }
  }

  /** As long as no session is opened or forgotten, every call names the one the job has. */
  /** As long as no session is opened or forgotten, every call names the one the job has. */
  lemma {:induction false} SettledNames(log: seq<Call>, initial: Option<string>, n: nat, session: string)
    requires InOrder(log, initial) && n <= |log| && !HasStream(log[..n]) && NamesOnly(log[..n], session)
    requires Settled(log[..n], log) && Current(log[..n], initial) == Some(session)
    ensures Current(log, initial) == Some(session) && NamesOnly(log, session)
    decreases |log|
  {
    if n == |log| {
      assert log[..n] == log;
    } else {
      var front, last := log[..|log| - 1], log[|log| - 1];
      assert front[..n] == log[..n];
      CountGrows(front, n, Opens);
      CountGrows(front, n, Resets);
      SettledNames(front, initial, n, session);
      assert last.Registered? ==> Names(front[|front| - 1], session);
      assert forall i | 0 <= i < |front| :: log[i] == front[i];
    }
  }

  // ---- Well-formed streams ----

  predicate Terminal(e: Event) {
    e.Finish? || e.Error?
  }

  /** One terminal event, the last. */
  ghost predicate WellFormed(events: seq<Event>) {
    events != [] && forall i | 0 <= i < |events| :: Terminal(events[i]) <==> i == |events| - 1
  }

  ghost predicate WellFormedStreams(env: Env) {
    forall n: nat :: env.send(n).Streaming? ==> WellFormed(env.send(n).events)
  }

  /** What an event does to the card. */
  function RenderCall(e: Event): Call {
    match e
    case Delta(text) => Appended(text)
    case Process(text) => AppendedProcess(text)
    case Finish(final) => FinishedCard(final)
    case Error(_) => FailedCard
  }

  function Rendered(events: seq<Event>): seq<Call> {
    seq(|events|, i requires 0 <= i < |events| => RenderCall(events[i]))
  }

  lemma RenderedMore(events: seq<Event>, n: nat)
    requires 0 < n <= |events|
    ensures Rendered(events[..n]) == Rendered(events[..n - 1]) + [RenderCall(events[n - 1])]
    ensures Rendered(events[..0]) == [] && events[..|events|] == events
  {
  }

  /** An error that calls for a new session. */
  predicate Stale(job: Job, e: Event) {
    e.Error? && ShouldRefresh(job, e.stale)
  }

  ghost predicate NoneStale(job: Job, events: seq<Event>) {
    forall i | 0 <= i < |events| :: !(job.strategy.AutoCreate? && events[i] == Error(true))
  }

  lemma WellFormedAt(events: seq<Event>, i: nat)
    requires i < |events|
    ensures WellFormed(events) ==> (Terminal(events[i]) <==> i == |events| - 1)
  {
  }

  lemma WellFormedNotEmpty(events: seq<Event>)
    ensures WellFormed(events) ==> events != []
  {
  }

  /** How a job ended; `late` if it was cancelled after its stream's terminal event and before the close. */
  datatype End = NotStarted | SendFailed | RefreshFailed | Cancelled(late: bool) | StreamClosed

  /** The calls that end a card, by how the job ended. */
  function TerminalCalls(end: End): nat {
    match end
    case NotStarted => 0
    case SendFailed => 1
    case RefreshFailed => 1
    case Cancelled(late) => if late then 2 else 1
    case StreamClosed => 1
  }

  /** The context is not found ended at any of so many look-ups. */
  ghost predicate NotCancelled(env: Env, from: nat, lookups: nat) {
    forall n | from <= n < from + lookups :: !env.cancelled(n)
  }

  /** The context is found ended right after so many events, and not before. */
  ghost predicate CancelledLate(env: Env, from: nat, events: nat) {
    NotCancelled(env, from, events) && env.cancelled(from + events)
  }

  /** The next look-up decides. */
  lemma CancelledLateIff(env: Env, from: nat, at: nat, events: nat)
    requires at <= events
    ensures NotCancelled(env, from, 0)
    ensures NotCancelled(env, from, at) && !env.cancelled(from + at) ==> NotCancelled(env, from, at + 1)
    ensures NotCancelled(env, from, at) && env.cancelled(from + at) ==>
            (CancelledLate(env, from, events) <==> at == events)
    ensures at == events && !env.cancelled(from + at) ==> !CancelledLate(env, from, events)
  {
  }

  predicate ShouldRefresh(job: Job, stale: bool) {
    job.strategy.AutoCreate? && stale
  }

  /** The session a job has without opening one: the configured or the stored one. */
  function Known(job: Job, sessions: map<string, StateStore.SessionRecord>, now: int): Option<string> {
    match job.strategy
    case Static(id) => Some(id)
    case AutoCreate =>
      if Sessions.Reusable(sessions, job.req.key, now) then Some(sessions[job.req.key].sessionID) else None
    case _ => None
  }

  /** The same, told from the record itself at the first reading of the clock. */
  ghost predicate BeginsWith(env: Env, job: Job, sessions: map<string, StateStore.SessionRecord>,
                             initial: Option<string>)
  {
    var key := job.req.key;
    var good := key in sessions && sessions[key].key != "" && env.clock(0) < sessions[key].expiresAt
                && env.clock(0) < sessions[key].idleUntil;
    && (job.strategy.Static? ==> initial == Some(job.strategy.id))
    && (job.strategy.AutoCreate? ==> initial == if good then Some(sessions[key].sessionID) else None)
    && (job.strategy.Ephemeral? || job.strategy.Unsupported? ==> initial == None)
  }

  /** The calls so far are in order, and the next one is not a registration. */
  predicate Tracks(log: seq<Call>, initial: Option<string>) {
    InOrder(log, initial) && !HasStream(log)
  }

  /** Only a job whose session is looked up by its conversation's key ever changes it. */
  predicate Steady(job: Job, initial: Option<string>, before: seq<Call>, after: seq<Call>) {
    !job.strategy.AutoCreate? ==> Settled(before, after) && Current(after, initial) == Current(before, initial)
  }

  /** At most so many more calls of a kind. */
  ghost predicate AtMost(before: seq<Call>, after: seq<Call>, sends: nat, opens: nat) {
    && Count(after, Sends) <= Count(before, Sends) + sends
    && Count(after, Opens) <= Count(before, Opens) + opens
  }

  /** Nothing was done to the card or the index of running requests. */
  ghost predicate SameCard(before: seq<Call>, after: seq<Call>) {
    forall k: Kind | k != Sends && k != Opens && k != Resets :: Count(after, k) == Count(before, k)
  }

  /** More calls, none of them on the card or the index, and at most so many prompts and opened sessions. */
  ghost predicate Costs(before: seq<Call>, after: seq<Call>, sends: nat, opens: nat) {
    AtMost(before, after, sends, opens) && SameCard(before, after) && before <= after
  }

  lemma CostsAdd(a: seq<Call>, b: seq<Call>, c: seq<Call>, sends: nat, opens: nat, moreSends: nat, moreOpens: nat)
    requires Costs(a, b, sends, opens) && Costs(b, c, moreSends, moreOpens)
    ensures Costs(a, c, sends + moreSends, opens + moreOpens)
  {
    hide Count;
  }

  lemma CostsLess(before: seq<Call>, after: seq<Call>, sends: nat, opens: nat)
    requires exists s, o | 0 <= s <= sends && 0 <= o <= opens :: Costs(before, after, s, o)
    ensures Costs(before, after, sends, opens)
  {
    hide Count;
  }

  lemma PromptCosts(before: seq<Call>, c: Call)
    requires c.Sent?
    ensures Costs(before, before + [c], 1, 0) && Settled(before, before + [c])
  {
    assert (before + [c])[..|before|] == before;
  }

  /**
   A refresh: the announcement, what it costs to get a new stream, and the registration or the failure of the
   card.
   */
  lemma RefreshBudget(before: seq<Call>, refreshed: seq<Call>, c: Call)
    requires Costs(before + [AnnouncedRefresh], refreshed, 2, 2) && (c.FailedCard? || c.Registered?)
    ensures Budget(before, refreshed + [c], 1)
    ensures Count(refreshed + [c], Registers) == Count(before, Registers) + if c.Registered? then 1 else 0
    ensures Count(refreshed + [c], Terminals) == Count(before, Terminals) + if c.Registered? then 0 else 1
  {
    var announced := before + [AnnouncedRefresh];
    assert announced[..|before|] == before && (refreshed + [c])[..|refreshed|] == refreshed;
    assert forall k: Kind :: Count(announced, k) == Count(before, k) + if k == Refreshes then 1 else 0;
    assert forall k: Kind :: Count(refreshed + [c], k) == Count(refreshed, k) + if Is(c, k) then 1 else 0;
    hide Count;
  }

  /** Nothing was ended in the index of running requests, and no card was started. */
  ghost predicate SameIndex(before: seq<Call>, after: seq<Call>) {
    Count(after, Starts) == Count(before, Starts) && Count(after, Unregisters) == Count(before, Unregisters)
  }

  /** So many refreshes, with the prompts and sessions they may cost; the card's start and the index are untouched. */
  ghost predicate Budget(before: seq<Call>, after: seq<Call>, refreshes: nat) {
    && AtMost(before, after, 2 * refreshes, 2 * refreshes)
    && Count(after, Refreshes) == Count(before, Refreshes) + refreshes
    && SameIndex(before, after) && before <= after
  }

  lemma BudgetsAdd(a: seq<Call>, b: seq<Call>, c: seq<Call>, m: nat, n: nat)
    requires Budget(a, b, m) && Budget(b, c, n)
    ensures Budget(a, c, m + n)
  {
    hide Count;
  }

  /**
   One prompt. If the agent rejects its session as unknown: a reset, unless the store fails, and
   then, unless no session can be resolved, a second prompt.
   */
  predicate Recovered(env: Env, job: Job, session: string, before: seq<Call>, after: seq<Call>, sent: SendResult,
                      used: string) {
    var first := env.send(|before|);
    var tried := before + [Sent(session, first)];
    if first.Streaming? || !(first.stale && job.strategy.AutoCreate?) then
      after == tried && sent == first && used == session
    else if !env.resetOk(|tried|) then after == tried && sent == SendError(false)
    else tried + [Forgot] <= after && (after[|after| - 1] == Sent(used, sent) || sent == SendError(false))
  }

  /**
   Where in the log the card starts if a session can be resolved: after the call that opens one, if that
   is needed.
   */
  function CardAt(env: Env, job: Job, sessions: map<string, StateStore.SessionRecord>, from: nat): Option<nat> {
    match job.strategy
    case Static(_) => Some(from)
    case Ephemeral => if env.open(from).Some? then Some(from + 1) else None
    case Unsupported => None
    case AutoCreate =>
      if !env.getOk(from) || !env.putOk(from) then None
      else if Sessions.Reusable(sessions, job.req.key, env.clock(from)) then Some(from)
      else if env.open(from).Some? then Some(from + 1)
      else None
  }

  /** The stored session if it is still good, else one just opened; none if the store or the agent fails. */
  predicate FoundOrOpened(env: Env, job: Job, sessions: map<string, StateStore.SessionRecord>, before: seq<Call>,
                          after: seq<Call>, r: Option<string>)
  {
    var at, key := |before|, job.req.key;
    var reusable := key in sessions && sessions[key].key != "" && env.clock(at) < sessions[key].expiresAt
                    && env.clock(at) < sessions[key].idleUntil;
    if !env.getOk(at) then r == None && after == before
    else if reusable then after == before && r == (if env.putOk(at) then Some(sessions[key].sessionID) else None)
    else after == before + [Opened(env.open(at))] && r == (if env.putOk(at) then env.open(at) else None)
  }

  /** Where in the log a session opened after a reset is on record, if it is. */
  function ReopenedAt(env: Env, from: nat): Option<nat> {
    if env.getOk(from) && env.putOk(from) && env.open(from).Some? then Some(from + 1) else None
  }

  /**
   Where in the log the prompt that got a stream is on record, if one did: the first, or a second one
   after a reset.
   */
  function StreamingAt(env: Env, job: Job, from: nat): Option<nat> {
    var first := env.send(from);
    if first.Streaming? then Some(from + 1)
    else if !ShouldRefresh(job, first.stale) || !env.resetOk(from + 1) then None
    else
      var again := ReopenedAt(env, from + 2);
      if again.Some? && env.send(again.value).Streaming? then Some(again.value + 1) else None
  }

  /** The same for a refresh from inside the event loop, which begins with a reset. */
  function RefreshedAt(env: Env, job: Job, from: nat): Option<nat> {
    if !env.resetOk(from) then None
    else
      var reopened := ReopenedAt(env, from + 1);
      if reopened.Some? then StreamingAt(env, job, reopened.value) else None
  }

  /** The position of the first event that asks for a new session, or the length. */
  function FirstStale(job: Job, events: seq<Event>): (i: nat)
    ensures i <= |events|
    ensures forall k | 0 <= k < i :: !Stale(job, events[k])
    ensures i < |events| ==> Stale(job, events[i])
  {
    if events == [] || Stale(job, events[0]) then 0 else 1 + FirstStale(job, events[1..])
  }

  lemma NoneStaleIff(job: Job, events: seq<Event>)
    ensures NoneStale(job, events) <==> FirstStale(job, events) == |events|
  {
    var i := FirstStale(job, events);
    assert i < |events| ==> Stale(job, events[i]);
    assert forall k | 0 <= k < i :: !Stale(job, events[k]);
    hide FirstStale;
  }

  /** The events whose look-ups of the context start here. */
  function EventsAt(env: Env, sent: nat): seq<Event> {
    if sent > 0 && env.send(sent - 1).Streaming? then env.send(sent - 1).events else []
  }

  /**
   From the look-ups of a stream's events on, the context is found ended between a last event and
   the close: of the stream itself, or of the one its refresh leads to.
   */
  ghost predicate EndsLate(env: Env, job: Job, from: nat, stream: seq<Event>) {
    var i := FirstStale(job, stream);
    if i == |stream| then stream != [] && CancelledLate(env, from, |stream|)
    else
      var sent := RefreshedAt(env, job, from + i + 1);
      && NotCancelled(env, from, i + 1)
      && sent.Some? && EventsAt(env, sent.value) != []
      && CancelledLate(env, sent.value + 1, |EventsAt(env, sent.value)|)
  }

  /** What the event loop knows of its end after so many events of the stream, none of them asking for a new session. */
  lemma LateSoFar(env: Env, job: Job, from: nat, at: nat, stream: seq<Event>)
    requires at <= FirstStale(job, stream) && NotCancelled(env, from, at)
    ensures env.cancelled(from + at) ==> (EndsLate(env, job, from, stream) <==> stream != [] && at == |stream|)
    ensures at == |stream| && !env.cancelled(from + at) ==> !EndsLate(env, job, from, stream)
    ensures at < |stream| && !Stale(job, stream[at]) ==> at < FirstStale(job, stream)
    ensures at < |stream| && Stale(job, stream[at]) ==> at == FirstStale(job, stream) && job.strategy.AutoCreate?
    ensures at < |stream| && Stale(job, stream[at]) && !env.cancelled(from + at) ==>
              var sent := RefreshedAt(env, job, from + at + 1);
              EndsLate(env, job, from, stream)
              <==> sent.Some? && EventsAt(env, sent.value) != []
                   && CancelledLate(env, sent.value + 1, |EventsAt(env, sent.value)|)
  {
    hide RefreshedAt, EventsAt;
  }

  /**
   The events before the first stale error were rendered, the refresh announced, and every event of the
   stream it led to rendered after it, from the registration on.
   */
  ghost predicate ShownAfterRefresh(env: Env, job: Job, before: seq<Call>, after: seq<Call>, stream: seq<Event>) {
    var i := FirstStale(job, stream);
    var sent := RefreshedAt(env, job, |before| + i + 1);
    && before + Rendered(stream[..i]) + [AnnouncedRefresh] <= after
    && sent.Some? && sent.value + 1 <= |after|
    && after[sent.value + 1..] == Rendered(EventsAt(env, sent.value))
  }

  /** The part of this up to the registration; `events` is the new stream. */
  ghost predicate ShownBefore(env: Env, job: Job, before: seq<Call>, base: seq<Call>, stream: seq<Event>,
                              events: seq<Event>)
  {
    var i := FirstStale(job, stream);
    var sent := RefreshedAt(env, job, |before| + i + 1);
    && before + Rendered(stream[..i]) + [AnnouncedRefresh] <= base
    && sent.Some? && |base| == sent.value + 1 && events == EventsAt(env, sent.value)
  }

  lemma ShownFirst(env: Env, job: Job, before: seq<Call>, base: seq<Call>, stream: seq<Event>, at: nat,
                   events: seq<Event>)
    requires at < |stream| && at <= FirstStale(job, stream) && Stale(job, stream[at])
    requires before + Rendered(stream[..at]) + [AnnouncedRefresh] <= base
    requires var sent := RefreshedAt(env, job, |before| + at + 1);
             sent.Some? && |base| == sent.value + 1 && events == EventsAt(env, sent.value)
    ensures ShownBefore(env, job, before, base, stream, events)
  {
    assert FirstStale(job, stream) == at;
    hide RefreshedAt, EventsAt, Rendered, FirstStale, Stale;
  }

  lemma ShownAfter(env: Env, job: Job, before: seq<Call>, base: seq<Call>, stream: seq<Event>, events: seq<Event>)
    requires ShownBefore(env, job, before, base, stream, events)
    ensures ShownAfterRefresh(env, job, before, base + Rendered(events[..|events|]), stream)
  {
    assert events[..|events|] == events;
    hide RefreshedAt, EventsAt, Rendered, FirstStale;
  }

  lemma SteadyAdds(job: Job, initial: Option<string>, a: seq<Call>, b: seq<Call>, c: seq<Call>)
    ensures Steady(job, initial, a, a)
    ensures Steady(job, initial, a, b) && Steady(job, initial, b, c) ==> Steady(job, initial, a, c)
  {
  }

  lemma SteadyRefresh(job: Job, initial: Option<string>, before: seq<Call>, after: seq<Call>)
    requires job.strategy.AutoCreate?
    ensures Steady(job, initial, before, after)
  {
  }

  /** A card started at this point of the log is ended twice. */
  ghost predicate EndsTwice(env: Env, job: Job, from: nat) {
    var sent := StreamingAt(env, job, from + 1);
    env.startOk(from) && sent.Some? && EndsLate(env, job, sent.value + 1, EventsAt(env, sent.value))
  }

  // ---- How often a card is ended ----

  /**
   The terminal events rendered from here on, before the context is found ended or a refresh fails; an
   error that starts the refresh is not rendered.
   */
  function TerminalsShown(env: Env, job: Job, from: nat, events: seq<Event>, mayRefresh: bool): nat
    decreases mayRefresh, |events|
  {
    if env.cancelled(from) || events == [] then 0
    else if mayRefresh && Stale(job, events[0]) then
      var sent := RefreshedAt(env, job, from + 1);
      if sent.None? then 0 else TerminalsShown(env, job, sent.value + 1, EventsAt(env, sent.value), false)
    else (if Terminal(events[0]) then 1 else 0) + TerminalsShown(env, job, from + 1, events[1..], mayRefresh)
  }

  /** The context is found ended, or the refresh fails, before the stream's close is seen: one more end. */
  predicate CutOff(env: Env, job: Job, from: nat, events: seq<Event>, mayRefresh: bool)
    decreases mayRefresh, |events|
  {
    if env.cancelled(from) then true
    else if events == [] then false
    else if mayRefresh && Stale(job, events[0]) then
      var sent := RefreshedAt(env, job, from + 1);
      sent.None? || CutOff(env, job, sent.value + 1, EventsAt(env, sent.value), false)
    else CutOff(env, job, from + 1, events[1..], mayRefresh)
  }

  function Ended(env: Env, job: Job, from: nat, events: seq<Event>, mayRefresh: bool): nat {
    TerminalsShown(env, job, from, events, mayRefresh) + if CutOff(env, job, from, events, mayRefresh) then 1 else 0
  }

  lemma EventsOf(env: Env, n: nat)
    requires env.send(n).Streaming?
    ensures EventsAt(env, n + 1) == env.send(n).events
  {
  }

  /** After a reset a session has to be opened. */
  lemma CardAfterReset(env: Env, job: Job, sessions: map<string, StateStore.SessionRecord>, from: nat)
    requires job.strategy.AutoCreate? && job.req.key !in sessions
    ensures CardAt(env, job, sessions, from) == ReopenedAt(env, from)
    ensures Known(job, sessions, env.clock(from)) == None
  {
  }

  /** What is left to say of a card that was started, by whether a prompt got a stream. */
  lemma EndsFrom(env: Env, job: Job, from: nat)
    ensures env.startOk(from) ==>
              var sent := StreamingAt(env, job, from + 1);
              if sent.None? then EndedFrom(env, job, from) == 1 && !EndsTwice(env, job, from)
              else
                && EndedFrom(env, job, from) == Ended(env, job, sent.value + 1, EventsAt(env, sent.value), true)
                && (EndsTwice(env, job, from) <==> EndsLate(env, job, sent.value + 1, EventsAt(env, sent.value)))
    ensures !env.startOk(from) ==> EndedFrom(env, job, from) == 0 && !EndsTwice(env, job, from)
  {
    hide Ended, EndsLate, StreamingAt;
  }

  /** How often a job's card is ended, told by the environment alone, whatever the streams are. */
  function TimesEnded(env: Env, job: Job, sessions: map<string, StateStore.SessionRecord>): nat {
    var card := CardAt(env, job, sessions, 0);
    if !job.agentKnown || card.None? then 0 else EndedFrom(env, job, card.value)
  }

  /** How often a card that starts at this point of the log is ended: once if no prompt gets a stream. */
  function EndedFrom(env: Env, job: Job, from: nat): nat {
    var sent := StreamingAt(env, job, from + 1);
    if !env.startOk(from) then 0
    else if sent.None? then 1
    else Ended(env, job, sent.value + 1, EventsAt(env, sent.value), true)
  }

  /** The loop's next turn, read off the rest of the stream. */
  lemma EndedStep(env: Env, job: Job, from: nat, events: seq<Event>, at: nat, mayRefresh: bool)
    requires at <= |events|
    ensures env.cancelled(from) ==> Ended(env, job, from, events[at..], mayRefresh) == 1
    ensures at == |events| && !env.cancelled(from) ==> Ended(env, job, from, events[at..], mayRefresh) == 0
    ensures at < |events| && !env.cancelled(from) ==>
              Ended(env, job, from, events[at..], mayRefresh)
              == if mayRefresh && Stale(job, events[at]) then
                   var sent := RefreshedAt(env, job, from + 1);
                   if sent.None? then 1 else Ended(env, job, sent.value + 1, EventsAt(env, sent.value)[0..], false)
                 else (if Terminal(events[at]) then 1 else 0) + Ended(env, job, from + 1, events[at + 1..], mayRefresh)
  {
    if at < |events| {
      assert events[at..][1..] == events[at + 1..];
    }
    hide RefreshedAt, EventsAt;
    assert RefreshedAt(env, job, from + 1).Some? ==>
        EventsAt(env, RefreshedAt(env, job, from + 1).value)[0..]
            == EventsAt(env, RefreshedAt(env, job, from + 1).value);
  }

  /** A started card is ended once exactly if just one terminal event is shown or the stream is cut off before any. */
  lemma EndedOnceIff(env: Env, job: Job, sessions: map<string, StateStore.SessionRecord>)
    ensures TimesEnded(env, job, sessions) == 1 <==>
              var card := CardAt(env, job, sessions, 0);
              && job.agentKnown && card.Some? && env.startOk(card.value)
              && var sent := StreamingAt(env, job, card.value + 1);
                 sent.Some? ==>
                   TerminalsShown(env, job, sent.value + 1, EventsAt(env, sent.value), true)
                   == if CutOff(env, job, sent.value + 1, EventsAt(env, sent.value), true) then 0 else 1
  {
    hide TerminalsShown, CutOff, CardAt, StreamingAt, EventsAt;
  }

  // ---- The same for well-formed streams ----

  lemma NotCancelledTail(env: Env, from: nat, n: nat)
    requires n > 0
    ensures NotCancelled(env, from, n) <==> !env.cancelled(from) && NotCancelled(env, from + 1, n - 1)
    ensures CancelledLate(env, from, n) <==> !env.cancelled(from) && CancelledLate(env, from + 1, n - 1)
  {
  }

  lemma WellFormedTail(events: seq<Event>)
    requires WellFormed(events)
    ensures |events| > 1 ==> WellFormed(events[1..]) && !Terminal(events[0])
    ensures |events| == 1 ==> Terminal(events[0])
  {
    assert forall i | 0 <= i < |events| - 1 :: events[1..][i] == events[i + 1];
  }

  /** Once the refresh is used up, or without one. */
  lemma {:induction false} WellFormedEndsPlainly(env: Env, job: Job, from: nat, events: seq<Event>)
    requires WellFormed(events)
    ensures Ended(env, job, from, events, false) == 1 + if CancelledLate(env, from, |events|) then 1 else 0
    decreases |events|
  {
    WellFormedTail(events);
    WellFormedNotEmpty(events);
    NotCancelledTail(env, from, |events|);
    EndedStep(env, job, from, events, 0, false);
    assert events[0..] == events;
    hide CancelledLate, NotCancelled, WellFormed, Ended;
    if |events| > 1 {
      WellFormedEndsPlainly(env, job, from + 1, events[1..]);
    } else {
      EndedStep(env, job, from + 1, events, 1, false);
      LateNow(env, from + 1);
    }
  }

  lemma LateNow(env: Env, from: nat)
    ensures CancelledLate(env, from, 0) <==> env.cancelled(from)
  {
  }

  lemma LaterStale(job: Job, events: seq<Event>)
    requires events != [] && !Stale(job, events[0])
    ensures FirstStale(job, events) == 1 + FirstStale(job, events[1..])
  {
  }

  lemma EndsLateTail(env: Env, job: Job, from: nat, events: seq<Event>)
    requires |events| > 1 && !Stale(job, events[0])
    ensures EndsLate(env, job, from, events) <==> !env.cancelled(from) && EndsLate(env, job, from + 1, events[1..])
  {
    hide CancelledLate, NotCancelled, Stale, RefreshedAt, EventsAt, FirstStale;
    var i := FirstStale(job, events[1..]);
    LaterStale(job, events);
    assert |events[1..]| == |events| - 1;
    NotCancelledTail(env, from, i + 2);
    NotCancelledTail(env, from, |events|);
    assert from + (1 + i) + 1 == from + 1 + i + 1;
  }

  /** With well-formed streams: once, and once more exactly if the context is found ended right after a last event. */
  lemma {:induction false} WellFormedEnds(env: Env, job: Job, from: nat, events: seq<Event>)
    requires WellFormedStreams(env) && WellFormed(events)
    ensures Ended(env, job, from, events, true) == 1 + if EndsLate(env, job, from, events) then 1 else 0
    decreases |events|
  {
    WellFormedTail(events);
    WellFormedNotEmpty(events);
    EndedStep(env, job, from, events, 0, true);
    assert events[0..] == events;
    hide CancelledLate, NotCancelled, WellFormed, WellFormedStreams, Ended;
    if |events| > 1 {
      assert !Stale(job, events[0]);
      EndsLateTail(env, job, from, events);
      hide EndsLate;
      WellFormedEnds(env, job, from + 1, events[1..]);
    } else if Stale(job, events[0]) {
      hide EndsLate;
      StaleEnds(env, job, from, events);
    } else {
      assert FirstStale(job, events) == 1;
      EndedStep(env, job, from + 1, events, 1, true);
      LateNow(env, from + 1);
      NotCancelledTail(env, from, 1);
    }
  }

  lemma StaleFirst(job: Job, events: seq<Event>)
    requires events != [] && Stale(job, events[0])
    ensures FirstStale(job, events) == 0
  {
  }

  lemma OneLookup(env: Env, from: nat)
    ensures NotCancelled(env, from, 1) <==> !env.cancelled(from)
  {
  }

  lemma EventsWellFormed(env: Env, sent: nat)
    requires WellFormedStreams(env) && sent > 0 && env.send(sent - 1).Streaming?
    ensures WellFormed(EventsAt(env, sent)) && EventsAt(env, sent) != []
  {
  }

  lemma StaleEnds(env: Env, job: Job, from: nat, events: seq<Event>)
    requires WellFormedStreams(env) && |events| == 1 && Stale(job, events[0])
    ensures Ended(env, job, from, events, true) == 1 + if EndsLate(env, job, from, events) then 1 else 0
  {
    hide Ended, FirstStale, Stale, RefreshedAt, EventsAt, NotCancelled, CancelledLate, WellFormed, WellFormedStreams;
    var sent := RefreshedAt(env, job, from + 1);
    StaleFirst(job, events);
    OneLookup(env, from);
    EndedStep(env, job, from, events, 0, true);
    assert events[0..] == events;
    if sent.Some? {
      RefreshedStreams(env, job, from + 1);
      EventsWellFormed(env, sent.value);
      assert EventsAt(env, sent.value)[0..] == EventsAt(env, sent.value);
      WellFormedEndsPlainly(env, job, sent.value + 1, EventsAt(env, sent.value));
    }
  }

  lemma StreamingStreams(env: Env, job: Job, from: nat)
    ensures StreamingAt(env, job, from).Some? ==>
              var sent := StreamingAt(env, job, from).value; sent > 0 && env.send(sent - 1).Streaming?
  {
  }

  lemma RefreshedStreams(env: Env, job: Job, from: nat)
    ensures RefreshedAt(env, job, from).Some? ==>
              var sent := RefreshedAt(env, job, from).value; sent > 0 && env.send(sent - 1).Streaming?
  {
    var reopened := ReopenedAt(env, from + 1);
    if reopened.Some? {
      StreamingStreams(env, job, reopened.value);
    }
    hide StreamingAt;
  }

  /** With well-formed streams a started card is ended once, or twice exactly if the context is found ended late. */
  lemma WellFormedTimesEnded(env: Env, job: Job, sessions: map<string, StateStore.SessionRecord>)
    requires WellFormedStreams(env)
    ensures TimesEnded(env, job, sessions)
            == var card := CardAt(env, job, sessions, 0);
               if !job.agentKnown || card.None? || !env.startOk(card.value) then 0
               else if EndsTwice(env, job, card.value) then 2 else 1
  {
    var card := CardAt(env, job, sessions, 0);
    if card.Some? && StreamingAt(env, job, card.value + 1).Some? {
      var sent := StreamingAt(env, job, card.value + 1).value;
      StreamingStreams(env, job, card.value + 1);
      assert WellFormed(EventsAt(env, sent)) by { hide CardAt, StreamingAt; }
      WellFormedEnds(env, job, sent + 1, EventsAt(env, sent));
    }
    hide CardAt, StreamingAt, EventsAt, EndsLate, Ended, WellFormed, WellFormedStreams;
  }

  // ---- Environments in which a card is ended twice ----

  /**
   Every prompt's stream is just a finish, and only the fifth look-up finds the context ended: the one
   before the close.
   */
  const LATE_CANCEL := Env(_ => 0, _ => true, _ => true, _ => true, _ => None, _ => Streaming([Finish("done")]),
      _ => true, n => n == 4)

  lemma FinishThenCancel(job: Job, sessions: map<string, StateStore.SessionRecord>)
    requires job.agentKnown && job.strategy.Static?
    ensures WellFormedStreams(LATE_CANCEL) && TimesEnded(LATE_CANCEL, job, sessions) == 2
  {
    assert StreamingAt(LATE_CANCEL, job, 1) == Some(2) && EventsAt(LATE_CANCEL, 2) == [Finish("done")];
    assert [Finish("done")][1..] == [];
    assert TerminalsShown(LATE_CANCEL, job, 4, [], true) == 0 && CutOff(LATE_CANCEL, job, 4, [], true);
  }

  /** Nothing is cancelled, and every prompt's stream has the two errors it gets when the agent's process goes away. */
  const TWO_ERRORS := [Error(false), Error(false)]

  const DEAD_AGENT := Env(_ => 0, _ => true, _ => true, _ => true, _ => None, _ => Streaming(TWO_ERRORS), _ => true,
      _ => false)

  lemma TwoErrorsEndTwice(job: Job, sessions: map<string, StateStore.SessionRecord>)
    requires job.agentKnown && job.strategy.Static?
    ensures forall n: nat :: !DEAD_AGENT.cancelled(n) && DEAD_AGENT.send(n) == Streaming([Error(false), Error(false)])
    ensures TimesEnded(DEAD_AGENT, job, sessions) == 2
  {
    assert StreamingAt(DEAD_AGENT, job, 1) == Some(2) && EventsAt(DEAD_AGENT, 2) == TWO_ERRORS;
    assert TWO_ERRORS[1..] == [Error(false)] && [Error(false)][1..] == [];
    assert TerminalsShown(DEAD_AGENT, job, 5, [], true) == 0 && !CutOff(DEAD_AGENT, job, 5, [], true);
    assert TerminalsShown(DEAD_AGENT, job, 4, [Error(false)], true) == 1
           && !CutOff(DEAD_AGENT, job, 4, [Error(false)], true);
  }

  lemma NothingYet(log: seq<Call>, events: seq<Event>)
    ensures Budget(log, log, 0) && Rendered(events[..0]) == []
            && events[..|events|] == events
    ensures events[0..] == events
  {
  }

  class Worker {
    const env: Env
    const manager: Sessions.Manager
    var log: seq<Call>
    /** The session the job began with. */
    ghost var initial: Option<string>

    constructor (env: Env, manager: Sessions.Manager)
      ensures this.env == env && this.manager == manager && log == []
    {
      this.env, this.manager, log, initial := env, manager, [], None;
    }

    method Record(c: Call)
      modifies `log
      ensures log == old(log) + [c]
      ensures forall k: Kind :: Count(log, k) == Count(old(log), k) + if Is(c, k) then 1 else 0
      ensures Current(log, initial) == CurrentNext(Current(old(log), initial), c)
      ensures InOrder(log, initial) <==> InOrder(old(log), initial) && MayFollow(old(log), initial, c)
    {
      log := log + [c];
      assert log[..|log| - 1] == old(log);
    }

    /** The job's session, or None if there is none; one is opened if the strategy asks for it. */
    method Resolve(job: Job) returns (r: Option<string>)
      requires Tracks(log, initial)
      requires Current(log, initial) == Known(job, manager.store.sessions, env.clock(|log|))
      modifies `log, manager.store`sessions
      ensures Tracks(log, initial) && (r.Some? ==> Current(log, initial) == r)
      ensures Costs(old(log), log, 0, 1) && old(log) <= log && Count(log, Resets) == Count(old(log), Resets)
      ensures job.strategy.Static? ==> r == Some(job.strategy.id) && log == old(log)
      ensures job.strategy.Unsupported? ==> r == None && log == old(log)
      ensures job.strategy.Ephemeral? ==> r == env.open(|old(log)|) && log == old(log) + [Opened(r)]
      ensures job.strategy.AutoCreate? ==> FoundOrOpened(env, job, old(manager.store.sessions), old(log), log, r)
      ensures var card := CardAt(env, job, old(manager.store.sessions), |old(log)|);
              r.Some? == card.Some? && (r.Some? ==> |log| == card.value)
    {
      hide Count, InOrder;
      match job.strategy
      case Static(id) =>
        return Some(id);
      case AutoCreate =>
        r := ResolveAuto(job);
      case Ephemeral =>
        var open := env.open(|log|);
        Record(Opened(open));
        return open;
      case Unsupported =>
        return None;
    }

    method ResolveAuto(job: Job) returns (r: Option<string>)
      requires Tracks(log, initial) && job.strategy.AutoCreate?
      requires Current(log, initial) == Known(job, manager.store.sessions, env.clock(|log|))
      modifies `log, manager.store`sessions
      ensures Tracks(log, initial) && (r.Some? ==> Current(log, initial) == r)
      ensures Costs(old(log), log, 0, 1) && old(log) <= log && Count(log, Resets) == Count(old(log), Resets)
      ensures FoundOrOpened(env, job, old(manager.store.sessions), old(log), log, r)
    {
      hide Count, InOrder;
      var at := |log|;
      var now, open, getOk := env.clock(at), env.open(at), env.getOk(at);
      if getOk && !Sessions.Reusable(manager.store.sessions, job.req.key, now) {
        Record(Opened(open));
      }
      var result := manager.ResolveAuto(job.req, job.policy, now, open, getOk, env.putOk(at));
      return if result.Ok? then Some(result.value) else None;
    }

    /** The stored session is forgotten, unless the store fails. */
    method Reset(job: Job) returns (ok: bool)
      requires Tracks(log, initial) && job.strategy.AutoCreate?
      modifies `log, manager.store`sessions
      ensures Tracks(log, initial)
      ensures Costs(old(log), log, 0, 0) && old(log) <= log
      ensures ok == env.resetOk(|old(log)|)
      ensures if ok then job.req.key !in manager.store.sessions && log == old(log) + [Forgot] else log == old(log)
      ensures ok ==> Current(log, initial) == None
    {
      hide Count, InOrder;
      if !env.resetOk(|log|) {
        return false;
      }
      manager.Reset(job.req.key);
      Record(Forgot);
      return true;
    }

    /** Send, and once more to a new session if the agent rejects this one as unknown. */
    method SendWithRecovery(job: Job, session: string) returns (sent: SendResult, used: string)
      requires Tracks(log, initial) && Current(log, initial) == Some(session)
      modifies `log, manager.store`sessions
      ensures InOrder(log, initial) && (HasStream(log) <==> sent.Streaming?)
      ensures Costs(old(log), log, 2, 1) && old(log) <= log
      ensures sent.Streaming? ==> log != [] && log[|log| - 1] == Sent(used, sent)
      ensures sent.Streaming? ==> sent == env.send(|log| - 1)
      ensures sent.Streaming? <==> StreamingAt(env, job, |old(log)|).Some?
      ensures sent.Streaming? ==> |log| == StreamingAt(env, job, |old(log)|).value
      ensures sent.Streaming? ==> Current(log, initial) == Some(used)
      ensures old(log) + [Sent(session, env.send(|old(log)|))] <= log && Steady(job, initial, old(log), log)
      ensures Recovered(env, job, session, old(log), log, sent, used)
    {
      hide Count, InOrder, CardAt, ReopenedAt, Current, Known, FoundOrOpened, Costs,
           Settled;
      sent, used := env.send(|log|), session;
      PromptCosts(log, Sent(session, sent));
      Record(Sent(session, sent));
      CostsLess(old(log), log, 2, 1);
      if sent.Streaming? || !ShouldRefresh(job, sent.stale) {
        return;
      }
      ghost var tried := log;
      var ok := Reset(job);
      CostsAdd(old(log), tried, log, 1, 0, 0, 0);
      CostsLess(old(log), log, 2, 1);
      if !ok {
        sent := SendError(false);
        return;
      }
      CardAfterReset(env, job, manager.store.sessions, |log|);
      ghost var reset := log;
      var refreshed := Resolve(job);
      CostsAdd(old(log), reset, log, 1, 0, 0, 1);
      CostsLess(old(log), log, 2, 1);
      if refreshed.None? {
        sent := SendError(false);
        return;
      }
      used := refreshed.value;
      sent := env.send(|log|);
      PromptCosts(log, Sent(used, sent));
      CostsAdd(old(log), log, log + [Sent(used, sent)], 1, 1, 1, 0);
      Record(Sent(used, sent));
    }

    /** Forget the session the agent rejected in its stream, and send again. */
    method RefreshSession(job: Job) returns (sent: SendResult, used: string)
      requires Tracks(log, initial) && job.strategy.AutoCreate?
      modifies `log, manager.store`sessions
      ensures InOrder(log, initial) && (HasStream(log) <==> sent.Streaming?)
      ensures sent.Streaming? ==> Current(log, initial) == Some(used)
      ensures Costs(old(log), log, 2, 2) && old(log) <= log
      ensures sent.Streaming? ==> log != [] && log[|log| - 1] == Sent(used, sent)
      ensures sent.Streaming? ==> sent == env.send(|log| - 1)
      ensures sent.Streaming? <==> RefreshedAt(env, job, |old(log)|).Some?
      ensures sent.Streaming? ==> |log| == RefreshedAt(env, job, |old(log)|).value
      ensures if env.resetOk(|old(log)|) then old(log) + [Forgot] <= log
              else log == old(log) && sent == SendError(false)
    {
      hide Count, InOrder, Recovered, CardAt, ReopenedAt, StreamingAt, Current, Known, FoundOrOpened,
           Costs;
      var ok := Reset(job);
      CostsLess(old(log), log, 2, 2);
      if !ok {
        return SendError(false), "";
      }
      CardAfterReset(env, job, manager.store.sessions, |log|);
      ghost var reset := log;
      var resolved := Resolve(job);
      CostsAdd(old(log), reset, log, 0, 0, 0, 1);
      CostsLess(old(log), log, 2, 2);
      if resolved.None? {
        return SendError(false), "";
      }
      ghost var found := log;
      sent, used := SendWithRecovery(job, resolved.value);
      CostsAdd(old(log), found, log, 0, 1, 2, 1);
    }

    /** The event loop; `late` tells whether the stream's last event had been rendered when the context ended. */
    method RenderEvents(job: Job, stream: seq<Event>) returns (end: End)
      requires Tracks(log, initial)
      modifies `log, manager.store`sessions
      ensures Tracks(log, initial)
      ensures Budget(old(log), log, 0) || Budget(old(log), log, 1)
      ensures end.RefreshFailed? || end.StreamClosed? || end.Cancelled?
      ensures end.Cancelled? ==> exists n: nat :: env.cancelled(n)
      ensures WellFormedStreams(env) && WellFormed(stream) ==>
                Count(log, Terminals) == Count(old(log), Terminals) + TerminalCalls(end)
      ensures end.StreamClosed? && NoneStale(job, stream) ==> log == old(log) + Rendered(stream)
      ensures end.StreamClosed? && !NoneStale(job, stream) ==>
                Budget(old(log), log, 1) && ShownAfterRefresh(env, job, old(log), log, stream)
      ensures Steady(job, initial, old(log), log)
      ensures end == Cancelled(true) <==> EndsLate(env, job, |old(log)|, stream)
      ensures NoneStale(job, stream) && end == Cancelled(true) ==> log == old(log) + Rendered(stream) + [FailedCard]
      ensures NoneStale(job, stream) ==> !end.RefreshFailed?
      ensures Count(log, Terminals) == Count(old(log), Terminals) + Ended(env, job, |old(log)|, stream, true)
    {
      hide Count, Current, InOrder, WellFormedStreams, SameCard, Budget, Tracks, Steady, NoneStale, WellFormed, Stale,
           Rendered, ShownBefore, ShownAfterRefresh, NotCancelled, CancelledLate, EndsLate, RefreshedAt,
           EventsAt, FirstStale, Ended;
      var events, at, retried := stream, 0, false;
      NothingYet(log, stream);
      NoneStaleIff(job, stream);
      if WellFormedStreams(env) && WellFormed(stream) {
        WellFormedEnds(env, job, |log|, stream);
      }
      SteadyAdds(job, initial, log, log, log);
      ghost var base := log;
      CancelledLateIff(env, |base|, 0, |stream|);
      while true
        invariant at <= |events|
        invariant Tracks(log, initial)
        invariant Budget(old(log), log, if retried then 1 else 0)
        invariant Count(log, Terminals) + Ended(env, job, |log|, events[at..], !retried)
                  == Count(old(log), Terminals) + Ended(env, job, |old(log)|, stream, true)
        invariant Steady(job, initial, old(log), log)
        invariant log == base + Rendered(events[..at])
        invariant if retried then ShownBefore(env, job, old(log), base, stream, events)
                  else events == stream && base == old(log)
        invariant NotCancelled(env, |base|, at) && |log| == |base| + at
        invariant if retried then FirstStale(job, stream) < |stream| else at <= FirstStale(job, stream)
        invariant retried ==>
                  EndsLate(env, job, |old(log)|, stream) == (events != [] && CancelledLate(env, |base|, |events|))
        decreases if retried then 0 else 1, |events| - at
      {
        CancelledLateIff(env, |base|, at, |events|);
        EndedStep(env, job, |log|, events, at, !retried);
        if !retried {
          LateSoFar(env, job, |base|, at, stream);
        }
        ghost var before := log;
        if env.cancelled(|log|) {
          // The card fails as it does on an error event.
          RenderEvent(job, Error(false));
          BudgetsAdd(old(log), before, log, if retried then 1 else 0, 0);
          SteadyAdds(job, initial, old(log), before, log);
          return Cancelled(events != [] && at == |events|);
        }
        if at == |events| {
          if retried {
            ShownAfter(env, job, old(log), base, stream, events);
          }
          return StreamClosed;
        }
        var ev := events[at];
        at := at + 1;
        if !retried && Stale(job, ev) {
          retried := true;
          var sent := RefreshStream(job);
          BudgetsAdd(old(log), before, log, 0, 1);
          SteadyRefresh(job, initial, old(log), log);
          if sent.SendError? {
            return RefreshFailed;
          }
          events := sent.events;
          ShownFirst(env, job, old(log), log, stream, at - 1, events);
          at, base := 0, log;
          NothingYet(log, events);
          CancelledLateIff(env, |base|, 0, |events|);
        } else {
          RenderEvent(job, ev);
          BudgetsAdd(old(log), before, log, if retried then 1 else 0, 0);
          SteadyAdds(job, initial, old(log), before, log);
          RenderedMore(events, at);
        }
      }
    }

    /** One event on the card. */
    method RenderEvent(ghost job: Job, ev: Event)
      requires Tracks(log, initial)
      modifies `log
      ensures Tracks(log, initial)
      ensures Budget(old(log), log, 0) && log == old(log) + [RenderCall(ev)]
      ensures log == old(log) + [if ev.Delta? then Appended(ev.text) else if ev.Process? then AppendedProcess(ev.text)
                                 else if ev.Finish? then FinishedCard(ev.final) else FailedCard]
      ensures Steady(job, initial, old(log), log)
      ensures Count(log, Terminals) == Count(old(log), Terminals) + if Terminal(ev) then 1 else 0
    {
      hide Current, Count, InOrder;
      match ev
      case Delta(text) => Record(Appended(text));
      case Process(text) => Record(AppendedProcess(text));
      case Finish(final) => Record(FinishedCard(final));
      case Error(_) => Record(FailedCard);
    }

    /** The refresh inside the event loop: the job restarts on a new session, or its card fails. */
    method RefreshStream(job: Job) returns (sent: SendResult)
      requires Tracks(log, initial) && job.strategy.AutoCreate?
      modifies `log, manager.store`sessions
      ensures Tracks(log, initial) && Budget(old(log), log, 1)
      ensures old(log) + [AnnouncedRefresh] <= log
      ensures Count(log, Registers) == Count(old(log), Registers) + if sent.Streaming? then 1 else 0
      ensures Count(log, Terminals) == Count(old(log), Terminals) + if sent.Streaming? then 0 else 1
      ensures var at := RefreshedAt(env, job, |old(log)| + 1);
              sent.Streaming? == at.Some?
                  && (at.Some? ==> |log| == at.value + 1 && sent.events == EventsAt(env, at.value))
      ensures sent.Streaming? && WellFormedStreams(env) ==> WellFormed(sent.events)
    {
      hide Count, InOrder, Current, Costs, Budget, WellFormedStreams, WellFormed, RefreshedAt, EventsAt;
      Record(AnnouncedRefresh);
      var used;
      sent, used := RefreshSession(job);
      if sent.SendError? {
        RefreshBudget(old(log), log, FailedCard);
        Record(FailedCard);
      } else {
        StreamIsWellFormed(env, |log| - 1);
        EventsOf(env, |log| - 1);
        RefreshBudget(old(log), log, Registered(used));
        Record(Registered(used));
      }
    }

    /** Everything between a resolved session and the end of the job. */
    method HandleResolved(job: Job, session: string) returns (end: End)
      requires Tracks(log, initial) && Current(log, initial) == Some(session)
      modifies `log, manager.store`sessions
      ensures Tracks(log, initial)
      ensures var started := old(log) + [StartedCard(env.startOk(|old(log)|))];
              started <= log && if env.startOk(|old(log)|) then !end.NotStarted? else end.NotStarted? && log == started
      ensures !end.NotStarted? ==>
                old(log) + [StartedCard(true), Sent(session, env.send(|old(log)| + 1))] <= log
      ensures Steady(job, initial, old(log), log)
      ensures AtMost(old(log), log, 4, 3) && Count(log, Refreshes) <= Count(old(log), Refreshes) + 1
      ensures end.Cancelled? ==> exists n: nat :: env.cancelled(n)
      ensures Count(log, Starts) == Count(old(log), Starts) + if end.NotStarted? then 0 else 1
      ensures WellFormedStreams(env) || end.NotStarted? || end.SendFailed? ==>
                Count(log, Terminals) == Count(old(log), Terminals) + TerminalCalls(end)
      ensures Count(log, Unregisters) == Count(old(log), Unregisters) + if end.NotStarted?
              || end.SendFailed? then 0 else 1
      ensures end == Cancelled(true) <==> EndsTwice(env, job, |old(log)|)
      ensures Count(log, Terminals) == Count(old(log), Terminals) + EndedFrom(env, job, |old(log)|)
    {
      hide Current, Ended, EndedFrom, EndsTwice, EventsAt, Count, InOrder, WellFormedStreams, EndsLate, StreamingAt;
      EndsFrom(env, job, |log|);
      var ok := env.startOk(|log|);
      Record(StartedCard(ok));
      if !ok {
        return NotStarted;
      }
      end := SendAndRender(job, session);
    }

    /** The prompt, and then the events if it gets a stream. */
    method SendAndRender(job: Job, session: string) returns (end: End)
      requires Tracks(log, initial) && Current(log, initial) == Some(session)
      modifies `log, manager.store`sessions
      ensures Tracks(log, initial)
      ensures old(log) + [Sent(session, env.send(|old(log)|))] <= log && Steady(job, initial, old(log), log)
      ensures AtMost(old(log), log, 4, 3) && Count(log, Refreshes) <= Count(old(log), Refreshes) + 1
      ensures end.Cancelled? ==> exists n: nat :: env.cancelled(n)
      ensures Count(log, Starts) == Count(old(log), Starts) && !end.NotStarted?
      ensures WellFormedStreams(env) || end.SendFailed? ==>
                Count(log, Terminals) == Count(old(log), Terminals) + TerminalCalls(end)
      ensures Count(log, Unregisters) == Count(old(log), Unregisters) + if end.SendFailed? then 0 else 1
      ensures var sent := StreamingAt(env, job, |old(log)|);
              && (end == Cancelled(true) <==>
                    sent.Some? && EndsLate(env, job, sent.value + 1, EventsAt(env, sent.value)))
              && Count(log, Terminals) == Count(old(log), Terminals)
                 + if sent.None? then 1 else Ended(env, job, sent.value + 1, EventsAt(env, sent.value), true)
    {
      hide Current, Ended, EventsAt, Count, InOrder, WellFormedStreams, WellFormed, EndsLate, NoneStale,
           StreamingAt, Recovered;
      var sent, used := SendWithRecovery(job, session);
      if sent.SendError? {
        Record(FailedCard);
        return SendFailed;
      }
      StreamIsWellFormed(env, |log| - 1);
      EventsOf(env, |log| - 1);
      end := RenderRegistered(job, used, sent.events);
    }

    /** The request is in the index of running requests while its events are rendered. */
    method RenderRegistered(job: Job, session: string, stream: seq<Event>) returns (end: End)
      requires InOrder(log, initial) && HasStream(log) && session == log[|log| - 1].session
      modifies `log, manager.store`sessions
      ensures Tracks(log, initial)
      ensures old(log) + [Registered(session)] <= log && log[|log| - 1] == Unregistered
      ensures Steady(job, initial, old(log), log)
      ensures AtMost(old(log), log, 2, 2) && Count(log, Refreshes) <= Count(old(log), Refreshes) + 1
      ensures Count(log, Starts) == Count(old(log), Starts)
              && Count(log, Unregisters) == Count(old(log), Unregisters) + 1
      ensures end.RefreshFailed? || end.StreamClosed? || end.Cancelled?
      ensures end.Cancelled? ==> exists n: nat :: env.cancelled(n)
      ensures WellFormedStreams(env) && WellFormed(stream) ==>
                Count(log, Terminals) == Count(old(log), Terminals) + TerminalCalls(end)
      ensures end == Cancelled(true) <==> EndsLate(env, job, |old(log)| + 1, stream)
      ensures Count(log, Terminals) == Count(old(log), Terminals) + Ended(env, job, |old(log)| + 1, stream, true)
    {
      hide Current, Count, InOrder, WellFormedStreams, WellFormed, NoneStale, Rendered, EndsLate, Ended;
      Record(Registered(session));
      end := RenderEvents(job, stream);
      Record(Unregistered);
    }

    /**
     A whole job. Whatever agent, store, renderer and context do: at most four prompts and four opened
     sessions, one refresh in the event loop, and every prompt, registration and close names the session the
     job has at that point, which for a configured or an ephemeral one never changes.
     The environment tells how often the card is ended; with well-formed streams a started card is ended
     once, or twice if the context ended between the terminal event and the close. An ephemeral session
     is closed at the end.
     */
    method Handle(job: Job) returns (end: End)
      modifies `log, `initial, manager.store`sessions
      ensures Count(log, Sends) <= 4 && Count(log, Opens) <= 4 && Count(log, Refreshes) <= 1
      ensures InOrder(log, initial) && !HasStream(log)
      ensures BeginsWith(env, job, old(manager.store.sessions), initial)
      ensures job.strategy.Static? ==> NamesOnly(log, job.strategy.id)
      ensures job.strategy.Ephemeral? && env.open(0).Some? ==> NamesOnly(log, env.open(0).value)
      ensures !end.NotStarted? && initial.Some? ==>
                [StartedCard(true), Sent(initial.value, env.send(1))] <= log
      ensures !end.NotStarted? && initial.None? ==>
                && env.open(0).Some?
                && [Opened(env.open(0)), StartedCard(true), Sent(env.open(0).value, env.send(2))] <= log
      ensures Count(log, Starts) == if end.NotStarted? then 0 else 1
      ensures end.Cancelled? ==> exists n: nat :: env.cancelled(n)
      ensures WellFormedStreams(env) || end.NotStarted? ==> Count(log, Terminals) == TerminalCalls(end)
      ensures Count(log, Terminals) == TimesEnded(env, job, old(manager.store.sessions))
      ensures WellFormedStreams(env) && (forall n: nat :: !env.cancelled(n)) ==>
              Count(log, Terminals) == Count(log, Starts)
      ensures var card := CardAt(env, job, old(manager.store.sessions), 0);
              && (end.NotStarted? <==> !(job.agentKnown && card.Some? && env.startOk(card.value)))
              && (end == Cancelled(true) <==> job.agentKnown && card.Some? && EndsTwice(env, job, card.value))
      ensures Count(log, Unregisters) == if end.NotStarted? || end.SendFailed? then 0 else 1
      ensures job.strategy.Ephemeral? && job.agentKnown ==>
                if env.open(0).None? then log == [Opened(None)]
                else |log| > 1 && log[0] == Opened(env.open(0)) && log[|log| - 1] == ClosedSession(env.open(0).value)
    {
      hide Count, InOrder, WellFormedStreams, EndsTwice, NoneStale, CardAt, EndedFrom, Current, Steady, NamesOnly,
           FoundOrOpened, Costs, Known, BeginsWith;
      KnownAtFirst(env, job, manager.store.sessions);
      log, initial := [], Known(job, manager.store.sessions, env.clock(0));
      NothingRecorded(initial);
      if !job.agentKnown {
        return NotStarted;
      }
      var resolved := Resolve(job);
      FirstCosts(log);
      if resolved.None? {
        return NotStarted;
      }
      FoundFirst(env, job, old(manager.store.sessions), log, resolved.value);
      ghost var first := log;
      end := HandleResolved(job, resolved.value);
      if !job.strategy.AutoCreate? {
        NamesFromFirst(job, initial, first, log, resolved.value);
      }
      if job.strategy.Ephemeral? {
        Record(ClosedSession(resolved.value));
      }
    }
  }

  /** What the first look-up finds is what the job began with, and what it opens is the first call. */
  lemma FoundFirst(env: Env, job: Job, sessions: map<string, StateStore.SessionRecord>, log: seq<Call>, session: string)
    requires job.strategy.Static? ==> session == job.strategy.id && log == []
    requires job.strategy.Ephemeral? ==> Some(session) == env.open(0) && log == [Opened(Some(session))]
    requires job.strategy.AutoCreate? ==> FoundOrOpened(env, job, sessions, [], log, Some(session))
    requires !job.strategy.Unsupported?
    ensures var initial := Known(job, sessions, env.clock(0));
            if initial.Some? then log == [] && initial == Some(session)
            else env.open(0) == Some(session) && log == [Opened(Some(session))]
  {
  }

  lemma NamesFromFirst(job: Job, initial: Option<string>, first: seq<Call>, log: seq<Call>, session: string)
    requires first <= log && InOrder(log, initial) && Steady(job, initial, first, log) && !job.strategy.AutoCreate?
    requires first == [] || first == [Opened(Some(session))]
    requires Current(first, initial) == Some(session)
    ensures NamesOnly(log, session) && Current(log, initial) == Some(session)
    ensures NamesOnly(log + [ClosedSession(session)], session)
  {
    hide Count, Current, InOrder;
    assert log[..|first|] == first;
    SettledNames(log, initial, |first|, session);
  }

  lemma KnownAtFirst(env: Env, job: Job, sessions: map<string, StateStore.SessionRecord>)
    ensures BeginsWith(env, job, sessions, Known(job, sessions, env.clock(0)))
  {
  }

  lemma FirstCosts(log: seq<Call>)
    requires Costs([], log, 0, 1)
    ensures Count(log, Sends) == 0 && Count(log, Opens) <= 1 && Count(log, Refreshes) == 0
    ensures Count(log, Starts) == Count(log, Terminals) == Count(log, Unregisters) == 0
  {
    assert forall k: Kind :: Count([], k) == 0;
    hide Count;
  }

  lemma NothingRecorded(initial: Option<string>)
    ensures Tracks([], initial) && Current([], initial) == initial && forall k: Kind :: Count([], k) == 0
    ensures forall session: string :: NamesOnly([], session)
  {
  }

  lemma StreamIsWellFormed(env: Env, n: nat)
    requires env.send(n).Streaming?
    ensures WellFormedStreams(env) ==> WellFormed(env.send(n).events)
  {
  }
}
