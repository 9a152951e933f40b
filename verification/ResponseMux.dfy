/**
 The pending table of the JSON-RPC client: many concurrent calls, readers and shutdowns share
 it under one lock, and every lock region and channel operation is one step. Section 5 of the
 JSON-RPC 2.0 specification makes a response carry the id of its request.
 */
module ResponseMux {
  import opened Wrappers

  /** A call is known by its place in the order of invocations, which also names its response channel. */
  type Call = nat

  datatype Envelope = Envelope(id: nat, isError: bool, body: string)

  datatype Message = Response(env: Envelope) | Closed(reason: string)

  /** The fields guarded by the client's lock; `dead` holds the reason once shutdown has begun. */
  datatype Shared = Shared(pending: map<nat, Call>, dead: Option<string>) {
    function Register(id: nat, c: Call): Shared {
      this.(pending := pending[id := c])
    }

    function Unregister(id: nat): Shared {
      this.(pending := pending - {id})
    }

    /** The first shutdown takes the whole table; later ones find the client dead and do nothing. */
    function ShutDown(reason: string): (Shared, map<nat, Call>) {
      if dead.Some? then (this, map[]) else (Shared(map[], Some(reason)), pending)
    }
  }

  // ---- The step system ----

  /** How a call ends. */
  datatype Outcome = Answered(message: Message) | TransportDead(reason: string) | Cancelled | WriteFailed

  /** Where a call stands: numbered, in the table, waiting, leaving with its deferred delete ahead, gone. */
  datatype Stage = Numbered | Registered | Waiting | Leaving(outcome: Outcome) | Gone(outcome: Outcome)

  /** Who may send on the call's response channel: a history variable no step looks at. */
  datatype Token = Unfiled | Filed | WithReader(reader: nat) | InSweep | Spent | Dropped

  /** One call with its channel of capacity one and the number of sends the channel has seen. */
  datatype CallState = CallState(id: nat, stage: Stage, buffer: seq<Message>, sent: nat, token: Token)

  datatype Reader = Scanning | Holding(call: Call, env: Envelope)

  /** `sweep` is what the winning shutdown still has to notify. */
  datatype State = State(nextID: nat, shared: Shared, calls: map<Call, CallState>, readers: map<nat, Reader>,
                         sweep: map<nat, Call>)

  datatype Step =
    | Begin(call: Call)
    | Register(call: Call)
    | Write(call: Call, ok: bool)
    | Lookup(reader: nat, env: Envelope)
    | Deliver(reader: nat)
    | Receive(call: Call)
    | LeaveDead(call: Call)
    | Cancel(call: Call)
    | Unregister(call: Call)
    | ShutDown(reason: string)
    | Notify(id: nat)

  const INITIAL := State(0, Shared(map[], None), map[], map[], map[])

  predicate At(s: State, c: Call, stage: Stage) {
    c in s.calls && s.calls[c].stage == stage
  }

  function ReaderOf(s: State, r: nat): Reader {
    if r in s.readers then s.readers[r] else Scanning
  }

  /** A send on a channel of capacity one blocks while it is full. */
  predicate HasRoom(s: State, c: Call) {
    c in s.calls && |s.calls[c].buffer| < 1
  }

  predicate Enabled(s: State, a: Step) {
    match a
    case Begin(c) => c !in s.calls
    case Register(c) => At(s, c, Numbered)
    case Write(c, _) => At(s, c, Registered)
    case Lookup(r, _) => ReaderOf(s, r).Scanning?
    case Deliver(r) => ReaderOf(s, r).Holding? && HasRoom(s, ReaderOf(s, r).call)
    case Receive(c) => At(s, c, Waiting) && s.calls[c].buffer != []
    case LeaveDead(c) => At(s, c, Waiting) && s.shared.dead.Some?
    case Cancel(c) => At(s, c, Waiting)
    case Unregister(c) => c in s.calls && s.calls[c].stage.Leaving?
    case ShutDown(_) => true
    case Notify(id) => id in s.sweep && HasRoom(s, s.sweep[id])
  }

  function WithCall(s: State, c: Call, cs: CallState): State {
    s.(calls := s.calls[c := cs])
  }

  function Pushed(cs: CallState, m: Message): CallState {
    cs.(buffer := cs.buffer + [m], sent := cs.sent + 1, token := Spent)
  }

  /** The tokens of the table move to the shutdown's list. */
  function Swept(calls: map<Call, CallState>): map<Call, CallState> {
    map c | c in calls :: if calls[c].token == Filed then calls[c].(token := InSweep) else calls[c]
  }

  function Apply(s: State, a: Step): State
    requires Enabled(s, a)
  {
    match a
    case Begin(c) =>
      WithCall(s, c, CallState(s.nextID + 1, Numbered, [], 0, Unfiled)).(nextID := s.nextID + 1)
    case Register(c) =>
      WithCall(s, c, s.calls[c].(stage := Registered, token := Filed)).(shared := s.shared.Register(s.calls[c].id, c))
    case Write(c, ok) =>
      WithCall(s, c, s.calls[c].(stage := if ok then Waiting else Leaving(WriteFailed)))
    case Lookup(r, env) =>
      if env.id !in s.shared.pending then s
      else
        var c, found := s.shared.pending[env.id], s.(shared := s.shared.Unregister(env.id));
        var held := found.(readers := s.readers[r := Holding(c, env)]);
        if c in s.calls then WithCall(held, c, s.calls[c].(token := WithReader(r))) else held
    case Deliver(r) =>
      var Holding(c, env) := ReaderOf(s, r);
      WithCall(s, c, Pushed(s.calls[c], Response(env))).(readers := s.readers[r := Scanning])
    case Receive(c) =>
      WithCall(s, c, s.calls[c].(stage := Leaving(Answered(s.calls[c].buffer[0])), buffer := s.calls[c].buffer[1..]))
    case LeaveDead(c) =>
      WithCall(s, c, s.calls[c].(stage := Leaving(TransportDead(s.shared.dead.value))))
    case Cancel(c) =>
      WithCall(s, c, s.calls[c].(stage := Leaving(Cancelled)))
    case Unregister(c) =>
      var token := if s.calls[c].token == Filed then Dropped else s.calls[c].token;
      WithCall(s, c, s.calls[c].(stage := Gone(s.calls[c].stage.outcome), token := token))
        .(shared := s.shared.Unregister(s.calls[c].id))
    case ShutDown(reason) =>
      var (shared, swept) := s.shared.ShutDown(reason);
      if s.shared.dead.Some? then s else s.(shared := shared, sweep := swept, calls := Swept(s.calls))
    case Notify(id) =>
      var reason := if s.shared.dead.Some? then s.shared.dead.value else "";
      WithCall(s, s.sweep[id], Pushed(s.calls[s.sweep[id]], Closed(reason))).(sweep := s.sweep - {id})
  }

  /** A run: every step is enabled where it is taken. */
  predicate Runs(s: State, run: seq<Step>)
    decreases run
  {
    run == [] || (Enabled(s, run[0]) && Runs(Apply(s, run[0]), run[1..]))
  }

  function After(s: State, run: seq<Step>): State
    requires Runs(s, run)
    decreases run
  {
    if run == [] then s else After(Apply(s, run[0]), run[1..])
  }

  // ---- The invariant: one token per channel ----

  /** A message a call may be given: a response with its own id, or the shutdown's reason. */
  predicate Proper(dead: Option<string>, id: nat, m: Message) {
    match m
    case Response(env) => env.id == id
    case Closed(reason) => dead == Some(reason)
  }

  predicate ProperOutcome(dead: Option<string>, id: nat, o: Outcome) {
    match o
    case Answered(m) => Proper(dead, id, m)
    case TransportDead(reason) => dead == Some(reason)
    case Cancelled => true
    case WriteFailed => true
  }

  /** The token decides the rest: nothing is sent before it is spent, and one message after. */
  predicate Counted(nextID: nat, cs: CallState) {
    && 1 <= cs.id <= nextID
    && (cs.stage == Numbered <==> cs.token == Unfiled)
    && (cs.stage.Gone? ==> cs.token != Filed)
    && cs.sent == (if cs.token == Spent then 1 else 0)
    && |cs.buffer| <= cs.sent
  }

  /** Whatever a call has been given or will be given is its own response or the shutdown's reason. */
  predicate Truthful(dead: Option<string>, cs: CallState) {
    && (cs.buffer != [] ==> Proper(dead, cs.id, cs.buffer[0]))
    && (cs.stage.Leaving? || cs.stage.Gone? ==> ProperOutcome(dead, cs.id, cs.stage.outcome))
  }

  ghost predicate CallsOK(s: State) {
    forall c | c in s.calls :: Counted(s.nextID, s.calls[c]) && Truthful(s.shared.dead, s.calls[c])
  }

  ghost predicate DistinctIDs(s: State) {
    forall c, d | c in s.calls && d in s.calls && c != d :: s.calls[c].id != s.calls[d].id
  }

  /** A table of ids leads to the calls that carry them and hold the token `t`. */
  ghost predicate LeadsTo(table: map<nat, Call>, calls: map<Call, CallState>, t: Token) {
    && (forall id | id in table :: table[id] in calls && calls[table[id]].id == id && calls[table[id]].token == t)
    && (forall c | c in calls && calls[c].token == t :: calls[c].id in table && table[calls[c].id] == c)
  }

  ghost predicate ReadersOK(s: State) {
    forall r | r in s.readers && s.readers[r].Holding? ::
      var c := s.readers[r].call;
      c in s.calls && s.calls[c].id == s.readers[r].env.id && s.calls[c].token == WithReader(r)
  }

  ghost predicate Inv(s: State) {
    && CallsOK(s)
    && DistinctIDs(s)
    && LeadsTo(s.shared.pending, s.calls, Filed)
    && LeadsTo(s.sweep, s.calls, InSweep)
    && ReadersOK(s)
    && (s.sweep != map[] ==> s.shared.dead.Some?)
  }

  lemma InitialInv()
    ensures Inv(INITIAL)
  {
  }

  lemma CountedSend(s: State, a: Step, c: Call)
    requires Inv(s) && Enabled(s, a) && (a.Deliver? || a.Notify?) && c in Apply(s, a).calls
    ensures Counted(Apply(s, a).nextID, Apply(s, a).calls[c])
  {
    hide DistinctIDs, Truthful, Proper, ProperOutcome;
    assert c in s.calls ==> Counted(s.nextID, s.calls[c]);
  }

  lemma CountedStep(s: State, a: Step, c: Call)
    requires Inv(s) && Enabled(s, a) && c in Apply(s, a).calls
    ensures Counted(Apply(s, a).nextID, Apply(s, a).calls[c])
  {
    if a.Deliver? || a.Notify? {
      hide *;
      CountedSend(s, a, c);
    } else {
      hide DistinctIDs, Truthful, Proper, ProperOutcome, ReadersOK;
      assert c in s.calls ==> Counted(s.nextID, s.calls[c]);
    }
  }

  lemma TruthfulSend(s: State, a: Step, c: Call)
    requires Inv(s) && Enabled(s, a) && (a.Deliver? || a.Notify?) && c in s.calls
    ensures Truthful(Apply(s, a).shared.dead, Apply(s, a).calls[c])
  {
    hide DistinctIDs;
    assert Counted(s.nextID, s.calls[c]) && Truthful(s.shared.dead, s.calls[c]);
  }

  lemma TruthfulStep(s: State, a: Step, c: Call)
    requires Inv(s) && Enabled(s, a) && c in Apply(s, a).calls
    ensures Truthful(Apply(s, a).shared.dead, Apply(s, a).calls[c])
  {
    if a.Deliver? || a.Notify? {
      hide *;
      TruthfulSend(s, a, c);
    } else {
      hide DistinctIDs, LeadsTo, ReadersOK;
      assert c in s.calls ==> Truthful(s.shared.dead, s.calls[c]);
    }
  }

  lemma DistinctIDsStep(s: State, a: Step)
    requires CallsOK(s) && DistinctIDs(s) && Enabled(s, a)
    ensures DistinctIDs(Apply(s, a))
  {
    hide Truthful;
  }

  // ---- Tables follow the tokens ----

  /** A change that neither gives nor takes the token leaves the table right. */
  lemma LeadsToKeeps(table: map<nat, Call>, calls: map<Call, CallState>, t: Token, c: Call, cs: CallState)
    requires LeadsTo(table, calls, t)
    requires if c in calls then cs.id == calls[c].id && (cs.token == t <==> calls[c].token == t) else cs.token != t
    ensures LeadsTo(table, calls[c := cs], t)
  {
  }

  lemma LeadsToDrops(table: map<nat, Call>, calls: map<Call, CallState>, t: Token, c: Call, cs: CallState)
    requires LeadsTo(table, calls, t)
    requires c in calls && calls[c].token == t && cs.id == calls[c].id && cs.token != t
    ensures LeadsTo(table - {cs.id}, calls[c := cs], t)
  {
  }

  lemma LeadsToAdds(table: map<nat, Call>, calls: map<Call, CallState>, t: Token, c: Call, cs: CallState)
    requires LeadsTo(table, calls, t) && cs.id !in table
    requires c in calls && calls[c].token != t && cs.id == calls[c].id && cs.token == t
    ensures LeadsTo(table[cs.id := c], calls[c := cs], t)
  {
  }

  /** An id whose call does not hold the token is not in the table. */
  lemma NotInTable(s: State, table: map<nat, Call>, t: Token, c: Call)
    requires DistinctIDs(s) && LeadsTo(table, s.calls, t) && c in s.calls && s.calls[c].token != t
    ensures s.calls[c].id !in table
  {
  }

  lemma TableStep(s: State, a: Step)
    requires Inv(s) && Enabled(s, a)
    ensures LeadsTo(Apply(s, a).shared.pending, Apply(s, a).calls, Filed)
  {
    var pending, t := s.shared.pending, Apply(s, a);
    match a
    case Begin(c) =>
      LeadsToKeeps(pending, s.calls, Filed, c, t.calls[c]);
    case Register(c) =>
      NotInTable(s, pending, Filed, c);
      LeadsToAdds(pending, s.calls, Filed, c, t.calls[c]);
    case Lookup(r, env) =>
      if env.id in pending {
        LeadsToDrops(pending, s.calls, Filed, pending[env.id], t.calls[pending[env.id]]);
      }
    case Deliver(r) =>
      var c := ReaderOf(s, r).call;
      LeadsToKeeps(pending, s.calls, Filed, c, t.calls[c]);
    case Unregister(c) =>
      if s.calls[c].token == Filed {
        LeadsToDrops(pending, s.calls, Filed, c, t.calls[c]);
      } else {
        NotInTable(s, pending, Filed, c);
        LeadsToKeeps(pending, s.calls, Filed, c, t.calls[c]);
        assert pending - {s.calls[c].id} == pending;
      }
    case ShutDown(reason) =>
    case Notify(id) =>
      LeadsToKeeps(pending, s.calls, Filed, s.sweep[id], t.calls[s.sweep[id]]);
    case Write(c, ok) =>
      LeadsToKeeps(pending, s.calls, Filed, c, t.calls[c]);
    case Receive(c) =>
      LeadsToKeeps(pending, s.calls, Filed, c, t.calls[c]);
    case LeaveDead(c) =>
      LeadsToKeeps(pending, s.calls, Filed, c, t.calls[c]);
    case Cancel(c) =>
      LeadsToKeeps(pending, s.calls, Filed, c, t.calls[c]);
  }

  lemma SweepStep(s: State, a: Step)
    requires Inv(s) && Enabled(s, a)
    ensures LeadsTo(Apply(s, a).sweep, Apply(s, a).calls, InSweep)
    ensures Apply(s, a).sweep != map[] ==> Apply(s, a).shared.dead.Some?
  {
    var t := Apply(s, a);
    match a
    case Begin(c) =>
      LeadsToKeeps(s.sweep, s.calls, InSweep, c, t.calls[c]);
    case Register(c) =>
      LeadsToKeeps(s.sweep, s.calls, InSweep, c, t.calls[c]);
    case Lookup(r, env) =>
      if env.id in s.shared.pending {
        var c := s.shared.pending[env.id];
        LeadsToKeeps(s.sweep, s.calls, InSweep, c, t.calls[c]);
      }
    case Deliver(r) =>
      var c := ReaderOf(s, r).call;
      LeadsToKeeps(s.sweep, s.calls, InSweep, c, t.calls[c]);
    case Unregister(c) =>
      LeadsToKeeps(s.sweep, s.calls, InSweep, c, t.calls[c]);
    case ShutDown(reason) =>
      assert s.shared.dead.None? ==> s.sweep == map[];
    case Notify(id) =>
      LeadsToDrops(s.sweep, s.calls, InSweep, s.sweep[id], t.calls[s.sweep[id]]);
    case Write(c, ok) =>
      LeadsToKeeps(s.sweep, s.calls, InSweep, c, t.calls[c]);
    case Receive(c) =>
      LeadsToKeeps(s.sweep, s.calls, InSweep, c, t.calls[c]);
    case LeaveDead(c) =>
      LeadsToKeeps(s.sweep, s.calls, InSweep, c, t.calls[c]);
    case Cancel(c) =>
      LeadsToKeeps(s.sweep, s.calls, InSweep, c, t.calls[c]);
  }

  lemma ReadersStep(s: State, a: Step)
    requires Inv(s) && Enabled(s, a)
    ensures ReadersOK(Apply(s, a))
  {
    hide DistinctIDs, Truthful;
  }

  lemma InvStep(s: State, a: Step)
    requires Inv(s) && Enabled(s, a)
    ensures Inv(Apply(s, a))
  {
    DistinctIDsStep(s, a);
    TableStep(s, a);
    SweepStep(s, a);
    ReadersStep(s, a);
    hide LeadsTo, DistinctIDs, ReadersOK, Apply, Counted, Truthful, Enabled;
    var t := Apply(s, a);
    forall c | c in t.calls ensures Counted(t.nextID, t.calls[c]) && Truthful(t.shared.dead, t.calls[c]) {
      CountedStep(s, a, c);
      TruthfulStep(s, a, c);
    }
  }

  // ---- What every run keeps ----

  /** Whatever the interleaving of calls, readers and shutdowns, the invariant holds at every point. */
  lemma {:induction false} RunKeepsInv(s: State, run: seq<Step>)
    requires Inv(s) && Runs(s, run)
    ensures Inv(After(s, run))
    decreases run
  {
    if run != [] {
      InvStep(s, run[0]);
      RunKeepsInv(Apply(s, run[0]), run[1..]);
    }
  }

  /** Each response channel is sent to at most once in its life, so no send on it ever waits for room. */
  lemma SendsNeverBlock(run: seq<Step>)
    requires Runs(INITIAL, run)
    ensures var s := After(INITIAL, run);
            && (forall c | c in s.calls :: s.calls[c].sent <= 1)
            && (forall r | ReaderOf(s, r).Holding? :: Enabled(s, Deliver(r)))
            && (forall id | id in s.sweep :: Enabled(s, Notify(id)))
  {
    RunKeepsInv(INITIAL, run);
    var s := After(INITIAL, run);
    hide Runs, After, Apply;
    forall r | ReaderOf(s, r).Holding? ensures Enabled(s, Deliver(r)) {
      var c := s.readers[r].call;
      assert Counted(s.nextID, s.calls[c]);
    }
    forall id | id in s.sweep ensures Enabled(s, Notify(id)) {
      assert Counted(s.nextID, s.calls[s.sweep[id]]);
    }
  }

  /** A call that got an answer got the response with its own id or the shutdown's notice. */
  lemma AnswersAreOwn(run: seq<Step>, c: Call)
    requires Runs(INITIAL, run) && c in After(INITIAL, run).calls
    ensures var s := After(INITIAL, run); var cs := s.calls[c];
            cs.stage.Leaving? || cs.stage.Gone? ==>
              match cs.stage.outcome
              case Answered(Response(env)) => env.id == cs.id
              case Answered(Closed(reason)) => s.shared.dead == Some(reason)
              case TransportDead(reason) => s.shared.dead == Some(reason)
              case _ => true
  {
    RunKeepsInv(INITIAL, run);
    assert Truthful(After(INITIAL, run).shared.dead, After(INITIAL, run).calls[c]);
  }

  /** The reason of the first shutdown stays, whatever other shutdowns follow. */
  lemma {:induction false} FirstReasonStays(s: State, run: seq<Step>)
    requires s.shared.dead.Some? && Runs(s, run)
    ensures After(s, run).shared.dead == s.shared.dead
    decreases run
  {
    if run != [] {
      FirstReasonStays(Apply(s, run[0]), run[1..]);
    }
  }

  /** Once the client is dead every waiting call can leave in two steps of its own, with the first shutdown's reason. */
  lemma WaitingCallsCanLeave(before: seq<Step>, reason: string, after: seq<Step>, c: Call)
    requires Runs(INITIAL, before) && After(INITIAL, before).shared.dead.None?
    requires var shut := Apply(After(INITIAL, before), ShutDown(reason));
             Runs(shut, after) && At(After(shut, after), c, Waiting)
    ensures var s := After(Apply(After(INITIAL, before), ShutDown(reason)), after);
            && Runs(s, [LeaveDead(c), Unregister(c)])
            && At(After(s, [LeaveDead(c), Unregister(c)]), c, Gone(TransportDead(reason)))
  {
    var shut := Apply(After(INITIAL, before), ShutDown(reason));
    FirstReasonStays(shut, after);
    var s := After(shut, after);
    hide Runs, After;
    var left := Apply(s, LeaveDead(c));
    TwoSteps(s, LeaveDead(c), Unregister(c));
  }

  lemma OneStep(s: State, a: Step)
    requires Enabled(s, a)
    ensures Runs(s, [a]) && After(s, [a]) == Apply(s, a)
  {
    hide Enabled, Apply;
    assert [a][1..] == [];
  }

  lemma TwoSteps(s: State, a: Step, b: Step)
    requires Enabled(s, a) && Enabled(Apply(s, a), b)
    ensures Runs(s, [a, b]) && After(s, [a, b]) == Apply(Apply(s, a), b)
  {
    OneStep(Apply(s, a), b);
    hide Enabled, Apply;
    assert [a, b][1..] == [b];
  }

  // ---- Where an outcome comes from ----

  lemma {:induction false} PrefixRuns(s: State, run: seq<Step>, n: nat)
    requires Runs(s, run) && n <= |run|
    ensures Runs(s, run[..n])
    decreases n
  {
    if n > 0 {
      assert run[..n][0] == run[0] && run[..n][1..] == run[1..][..n - 1];
      PrefixRuns(Apply(s, run[0]), run[1..], n - 1);
    }
  }

  lemma {:induction false} PrefixStep(s: State, run: seq<Step>, n: nat)
    requires Runs(s, run) && n < |run|
    ensures Runs(s, run[..n]) && Runs(s, run[..n + 1]) && Enabled(After(s, run[..n]), run[n])
    ensures After(s, run[..n + 1]) == Apply(After(s, run[..n]), run[n])
    decreases n
  {
    PrefixRuns(s, run, n);
    PrefixRuns(s, run, n + 1);
    if n == 0 {
      assert run[..0] == [] && run[..1] == [run[0]];
      OneStep(s, run[0]);
    } else {
      assert run[..n][0] == run[0] && run[..n][1..] == run[1..][..n - 1];
      assert run[..n + 1][0] == run[0] && run[..n + 1][1..] == run[1..][..n];
      PrefixStep(Apply(s, run[0]), run[1..], n - 1);
    }
  }

  /** Before operation `n` of the run, some reader took this very envelope and found its id leading to the call. */
  ghost predicate Received(run: seq<Step>, n: nat, c: Call, env: Envelope) {
    exists i: nat, r: nat :: i < n <= |run| && run[i] == Lookup(r, env) && Runs(INITIAL, run[..i])
                             && Awaits(After(INITIAL, run[..i]), env.id, c)
  }

  predicate Awaits(s: State, id: nat, c: Call) {
    id in s.shared.pending && s.shared.pending[id] == c
  }

  /** The first shutdown of the run before operation `n` gave this reason. */
  ghost predicate ShutDownFor(run: seq<Step>, n: nat, reason: string) {
    exists i: nat :: i < n <= |run| && run[i] == ShutDown(reason) && forall j: nat | j < i :: !run[j].ShutDown?
  }

  lemma ReaderChange(s: State, a: Step, r: nat)
    requires Enabled(s, a) && ReaderOf(Apply(s, a), r).Holding? && ReaderOf(Apply(s, a), r) != ReaderOf(s, r)
    ensures var held := ReaderOf(Apply(s, a), r);
            a == Lookup(r, held.env) && Awaits(s, held.env.id, held.call)
  {
    hide HasRoom, Swept;
  }

  lemma {:induction false} ReaderReceived(run: seq<Step>, n: nat, r: nat)
    requires Runs(INITIAL, run) && n <= |run| && Runs(INITIAL, run[..n])
    requires ReaderOf(After(INITIAL, run[..n]), r).Holding?
    ensures var held := ReaderOf(After(INITIAL, run[..n]), r); Received(run, n, held.call, held.env)
    decreases n
  {
    if n > 0 {
      PrefixStep(INITIAL, run, n - 1);
      var s := After(INITIAL, run[..n - 1]);
      var held := ReaderOf(After(INITIAL, run[..n]), r);
      hide Runs, After, Apply, Enabled;
      if held == ReaderOf(s, r) {
        ReaderReceived(run, n - 1, r);
      } else {
        ReaderChange(s, run[n - 1], r);
      }
    }
  }

  lemma BufferChange(s: State, a: Step, c: Call, m: Message)
    requires Enabled(s, a) && c in Apply(s, a).calls && m in Apply(s, a).calls[c].buffer
    requires !(c in s.calls && m in s.calls[c].buffer)
    ensures match m
            case Response(env) => a.Deliver? && ReaderOf(s, a.reader) == Holding(c, env)
            case Closed(reason) => s.sweep != map[] && reason == if s.shared.dead.Some? then s.shared.dead.value else ""
  {
  }

  /** The reason kept is the one the first shutdown of the run gave. */
  lemma {:induction false} DeadIsFirst(run: seq<Step>, n: nat)
    requires Runs(INITIAL, run) && n <= |run| && Runs(INITIAL, run[..n])
    ensures var dead := After(INITIAL, run[..n]).shared.dead;
            if dead.Some? then ShutDownFor(run, n, dead.value) else forall j: nat | j < n :: !run[j].ShutDown?
    decreases n
  {
    if n > 0 {
      PrefixStep(INITIAL, run, n - 1);
      DeadIsFirst(run, n - 1);
      DeadChange(After(INITIAL, run[..n - 1]), run[n - 1]);
      hide Runs, After, Apply, Enabled;
    }
  }

  lemma DeadChange(s: State, a: Step)
    requires Enabled(s, a)
    ensures Apply(s, a).shared.dead == if s.shared.dead.None? && a.ShutDown? then Some(a.reason) else s.shared.dead
  {
    hide HasRoom, Swept;
  }

  /** A message in a call's channel is an envelope received for it, or the first shutdown's reason. */
  ghost predicate Sourced(run: seq<Step>, n: nat, c: Call, m: Message) {
    match m
    case Response(env) => Received(run, n, c, env)
    case Closed(reason) => ShutDownFor(run, n, reason)
  }

  lemma SourcedLater(run: seq<Step>, n: nat, c: Call, m: Message)
    requires 0 < n <= |run| && Sourced(run, n - 1, c, m)
    ensures Sourced(run, n, c, m)
  {
    hide Runs, After, Awaits;
    match m
    case Response(env) =>
      var i: nat, r: nat :| i < n - 1 && run[i] == Lookup(r, env) && Runs(INITIAL, run[..i])
                            && Awaits(After(INITIAL, run[..i]), env.id, c);
    case Closed(reason) =>
  }

  lemma {:induction false} BufferSourced(run: seq<Step>, n: nat, c: Call, m: Message)
    requires Runs(INITIAL, run) && n <= |run| && Runs(INITIAL, run[..n])
    requires c in After(INITIAL, run[..n]).calls && m in After(INITIAL, run[..n]).calls[c].buffer
    ensures Sourced(run, n, c, m)
    decreases n
  {
    if n > 0 {
      PrefixStep(INITIAL, run, n - 1);
      RunKeepsInv(INITIAL, run[..n - 1]);
      var s, a := After(INITIAL, run[..n - 1]), run[n - 1];
      assert s.sweep != map[] ==> s.shared.dead.Some?;
      hide Runs, After, Apply, Enabled, Received, ShutDownFor, Inv;
      if c in s.calls && m in s.calls[c].buffer {
        BufferSourced(run, n - 1, c, m);
      } else {
        BufferChange(s, a, c, m);
        if m.Response? {
          ReaderReceived(run, n - 1, a.reader);
        } else {
          DeadIsFirst(run, n - 1);
        }
      }
      SourcedLater(run, n, c, m);
    }
  }

  /** What a call returned is what it was given, or what happened to it. */
  ghost predicate OutcomeSourced(run: seq<Step>, n: nat, c: Call, o: Outcome) {
    match o
    case Answered(m) => Sourced(run, n, c, m)
    case TransportDead(reason) => ShutDownFor(run, n, reason)
    case Cancelled => exists i: nat :: i < n <= |run| && run[i] == Step.Cancel(c)
    case WriteFailed => exists i: nat :: i < n <= |run| && run[i] == Write(c, false)
  }

  lemma OutcomeLater(run: seq<Step>, n: nat, c: Call, o: Outcome)
    requires 0 < n <= |run| && OutcomeSourced(run, n - 1, c, o)
    ensures OutcomeSourced(run, n, c, o)
  {
    match o
    case Answered(m) =>
      hide Sourced, ShutDownFor;
      SourcedLater(run, n, c, m);
    case TransportDead(reason) =>
    case Cancelled =>
    case WriteFailed =>
  }

  predicate Left(s: State, c: Call) {
    c in s.calls && (s.calls[c].stage.Leaving? || s.calls[c].stage.Gone?)
  }

  lemma OutcomeChange(s: State, a: Step, c: Call)
    requires Enabled(s, a) && Left(Apply(s, a), c)
    requires !(Left(s, c) && s.calls[c].stage.outcome == Apply(s, a).calls[c].stage.outcome)
    ensures match Apply(s, a).calls[c].stage.outcome
            case Answered(m) => c in s.calls && m in s.calls[c].buffer
            case TransportDead(reason) => s.shared.dead == Some(reason)
            case Cancelled => a == Step.Cancel(c)
            case WriteFailed => a == Write(c, false)
  {
  }

  /**
   In every run, a call that returned a response returned, whole, an envelope some reader had taken when
   the table led its id to that call; and any other outcome comes from what happened: the first shutdown's
   reason, the call's cancellation, or its failed write.
   */
  lemma {:induction false} OutcomesAreSourced(run: seq<Step>, n: nat, c: Call)
    requires Runs(INITIAL, run) && n <= |run| && Runs(INITIAL, run[..n]) && Left(After(INITIAL, run[..n]), c)
    ensures OutcomeSourced(run, n, c, After(INITIAL, run[..n]).calls[c].stage.outcome)
    decreases n
  {
    if n > 0 {
      PrefixStep(INITIAL, run, n - 1);
      var s, a, t := After(INITIAL, run[..n - 1]), run[n - 1], After(INITIAL, run[..n]);
      var o := t.calls[c].stage.outcome;
      hide Runs, After, Apply, Enabled, Sourced;
      if Left(s, c) && s.calls[c].stage.outcome == o {
        OutcomesAreSourced(run, n - 1, c);
        OutcomeLater(run, n, c, o);
      } else {
        OutcomeChange(s, a, c);
        match o
        case Answered(m) =>
          BufferSourced(run, n - 1, c, m);
          SourcedLater(run, n, c, m);
        case TransportDead(reason) =>
          DeadIsFirst(run, n - 1);
        case Cancelled =>
        case WriteFailed =>
      }
    }
  }

  /**
   A response whose id leads to a waiting call reaches it: reader and call need four steps, and the call
   returns it whole.
   */
  lemma ResponseReachesCall(run: seq<Step>, r: nat, env: Envelope, c: Call)
    requires Runs(INITIAL, run) && ReaderOf(After(INITIAL, run), r).Scanning?
    requires Awaits(After(INITIAL, run), env.id, c) && At(After(INITIAL, run), c, Waiting)
    ensures var s := After(INITIAL, run);
            && Runs(s, [Lookup(r, env), Deliver(r), Receive(c), Unregister(c)])
            && At(After(s, [Lookup(r, env), Deliver(r), Receive(c), Unregister(c)]), c, Gone(Answered(Response(env))))
  {
    var s := After(INITIAL, run);
    RunKeepsInv(INITIAL, run);
    assert s.calls[c].token == Token.Filed && Counted(s.nextID, s.calls[c]);
    hide Inv, Runs, After;
    DeliveryRuns(s, r, env, c);
  }

  /** Without a response, too, a call can leave: it is cancelled while it waits, or its write fails. */
  lemma CallsCanLeave(s: State, c: Call)
    ensures At(s, c, Waiting) ==>
              && Runs(s, [Cancel(c), Unregister(c)])
              && At(After(s, [Cancel(c), Unregister(c)]), c, Gone(Cancelled))
              && s.calls[c].id !in After(s, [Cancel(c), Unregister(c)]).shared.pending
    ensures At(s, c, Registered) ==>
              && Runs(s, [Write(c, false), Unregister(c)])
              && At(After(s, [Write(c, false), Unregister(c)]), c, Gone(WriteFailed))
              && s.calls[c].id !in After(s, [Write(c, false), Unregister(c)]).shared.pending
  {
    hide Runs, After;
    if At(s, c, Waiting) {
      TwoSteps(s, Cancel(c), Unregister(c));
    } else if At(s, c, Registered) {
      TwoSteps(s, Write(c, false), Unregister(c));
    }
  }

  lemma DeliveryRuns(s: State, r: nat, env: Envelope, c: Call)
    requires ReaderOf(s, r).Scanning? && Awaits(s, env.id, c) && At(s, c, Waiting) && s.calls[c].buffer == []
    ensures Runs(s, [Lookup(r, env), Deliver(r), Receive(c), Unregister(c)])
    ensures At(After(s, [Lookup(r, env), Deliver(r), Receive(c), Unregister(c)]), c, Gone(Answered(Response(env))))
  {
    var held := Apply(s, Lookup(r, env));
    assert ReaderOf(held, r) == Holding(c, env) && At(held, c, Waiting) && held.calls[c].buffer == [];
    hide Runs, After;
    ReceiptRuns(held, r, env, c);
    Prepend(s, Lookup(r, env), [Deliver(r), Receive(c), Unregister(c)]);
  }

  lemma ReceiptRuns(s: State, r: nat, env: Envelope, c: Call)
    requires ReaderOf(s, r) == Holding(c, env) && At(s, c, Waiting) && s.calls[c].buffer == []
    ensures Runs(s, [Deliver(r), Receive(c), Unregister(c)])
    ensures At(After(s, [Deliver(r), Receive(c), Unregister(c)]), c, Gone(Answered(Response(env))))
  {
    var given := Apply(s, Deliver(r));
    assert At(given, c, Waiting) && given.calls[c].buffer == [Response(env)];
    hide Runs, After;
    TwoSteps(given, Receive(c), Unregister(c));
    Prepend(s, Deliver(r), [Receive(c), Unregister(c)]);
  }

  lemma Prepend(s: State, a: Step, run: seq<Step>)
    requires Enabled(s, a) && Runs(Apply(s, a), run)
    ensures Runs(s, [a] + run) && After(s, [a] + run) == After(Apply(s, a), run)
  {
    assert ([a] + run)[1..] == run;
    hide Apply, Enabled;
  }
}
