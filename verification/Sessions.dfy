/** Resolving the session of a conversation against the stored records. */
module Sessions {
  import opened Wrappers
  import opened StateStore

  datatype Policy = Policy(ttl: int, idleTimeout: int)

  /** Who is talking, where; everything a new record copies. */
  datatype Request = Request(key: string, chatID: string, senderID: string, threadID: string, agentID: string,
                             cwd: string)

  datatype Failure = GetFailed | TouchFailed | OpenFailed | PutFailed

  predicate Reusable(sessions: map<string, SessionRecord>, key: string, now: int) {
    var rec := GetSession(sessions, key);
    rec.Some? && now < rec.value.expiresAt && now < rec.value.idleUntil
  }

  /** The record a use of the session leaves behind: touched, or new with the id just opened. */
  function RecordAfter(sessions: map<string, SessionRecord>, req: Request, policy: Policy, now: int,
                       newID: string): SessionRecord
  {
    if Reusable(sessions, req.key, now) then
      sessions[req.key].(updatedAt := now, idleUntil := now + policy.idleTimeout)
    else
      SessionRecord(req.key, req.chatID, req.senderID, req.threadID, req.agentID, req.cwd, newID,
                    now, now, now + policy.ttl, now + policy.idleTimeout)
  }

  function AfterUse(sessions: map<string, SessionRecord>, req: Request, policy: Policy, now: int, newID: string)
    : map<string, SessionRecord>
  {
    var rec := RecordAfter(sessions, req, policy, now, newID);
    sessions[rec.key := rec]
  }

  class Manager {
    const store: BoltStore

    constructor (store: BoltStore)
      ensures this.store == store
    {
      this.store := store;
    }

    /** `open` is what the agent answers if it is asked; the flags say whether the store works. */
    method ResolveAuto(req: Request, policy: Policy, now: int, open: Option<string>, getOk: bool, putOk: bool)
      returns (result: Result<string, Failure>)
      modifies store`sessions
      ensures var reuse := Reusable(old(store.sessions), req.key, now);
              if !getOk then result == Err(GetFailed)
              else if !reuse && open.None? then result == Err(OpenFailed)
              else if !putOk then result == Err(if reuse then TouchFailed else PutFailed)
              else result == Ok(if reuse then old(store.sessions)[req.key].sessionID else open.value)
      ensures Reusable(old(store.sessions), req.key, now) <==>
              var before := old(store.sessions);
              && req.key in before && before[req.key].key != ""
              && now < before[req.key].expiresAt && now < before[req.key].idleUntil
      ensures result.Err? ==> store.sessions == old(store.sessions)
      ensures result.Ok? && Reusable(old(store.sessions), req.key, now) ==>
              var rec := old(store.sessions)[req.key];
              store.sessions
              == old(store.sessions)[rec.key := rec.(updatedAt := now, idleUntil := now + policy.idleTimeout)]
      ensures result.Ok? && !Reusable(old(store.sessions), req.key, now) ==>
              && store.sessions.Keys == old(store.sessions).Keys + {req.key}
              && store.sessions - {req.key} == old(store.sessions) - {req.key}
              && var rec := store.sessions[req.key];
                 && rec.key == req.key && rec.chatID == req.chatID && rec.senderID == req.senderID
                 && rec.threadID == req.threadID && rec.agentID == req.agentID && rec.cwd == req.cwd
                 && Some(rec.sessionID) == open && rec.createdAt == rec.updatedAt == now
                 && rec.expiresAt == now + policy.ttl && rec.idleUntil == now + policy.idleTimeout
      ensures result.Ok? ==>
              store.sessions == AfterUse(old(store.sessions), req, policy, now, if open.Some? then open.value else "")
    {
      if !getOk {
        return Err(GetFailed);
      }
      var rec := GetSession(store.sessions, req.key);
      if rec.Some? && now < rec.value.expiresAt && now < rec.value.idleUntil {
        var touched := rec.value.(updatedAt := now, idleUntil := now + policy.idleTimeout);
        if !putOk {
          return Err(TouchFailed);
        }
        store.PutSession(touched);
        return Ok(touched.sessionID);
      }
      if open.None? {
        return Err(OpenFailed);
      }
      if !putOk {
        return Err(PutFailed);
      }
      store.PutSession(SessionRecord(req.key, req.chatID, req.senderID, req.threadID, req.agentID, req.cwd, open.value,
                                     now, now, now + policy.ttl, now + policy.idleTimeout));
      return Ok(open.value);
    }

    /** Forget the conversation's session. */
    method Reset(key: string)
      modifies store`sessions
      ensures store.sessions == old(store.sessions) - {key}
    {
      store.DeleteSession(key);
    }
  }

  // ---- Runs on many keys, one policy, no failures ----

  datatype Op = Use(req: Request, now: int, newID: string) | Reset(key: string) {
    function Key(): string {
      if Use? then req.key else key
    }
  }

  /** The table after the first `n` operations of a run. */
  function Stored(run: seq<Op>, policy: Policy, n: nat): map<string, SessionRecord>
    requires n <= |run|
  {
    if n == 0 then map[]
    else
      var before := Stored(run, policy, n - 1);
      match run[n - 1]
      case Use(req, now, newID) => AfterUse(before, req, policy, now, newID)
      case Reset(key) => before - {key}
  }

  /** The session id that use `i` of the run answers with. */
  function SessionOf(run: seq<Op>, policy: Policy, i: nat): string
    requires i < |run| && run[i].Use?
  {
    RecordAfter(Stored(run, policy, i), run[i].req, policy, run[i].now, run[i].newID).sessionID
  }

  /** The operation on the key just before position `i`, or -1. */
  function Previous(run: seq<Op>, key: string, i: nat): (j: int)
    requires i <= |run|
    ensures -1 <= j < i
    ensures j >= 0 ==> run[j].Key() == key
    ensures forall k | j < k < i :: run[k].Key() != key
  {
    if i == 0 then -1 else if run[i - 1].Key() == key then i - 1 else Previous(run, key, i - 1)
  }

  /**
   Use `i` continues use `j` when `j` is the operation on its key right before it, less than the
   idle timeout earlier, and the session `j` used is younger than the time to live at `i`.
   */
  predicate Continues(run: seq<Op>, policy: Policy, i: nat)
    requires i < |run| && run[i].Use?
    decreases i, 0
  {
    var j := Previous(run, run[i].Key(), i);
    && j >= 0 && run[j].Use?
    && run[i].now - run[j].now < policy.idleTimeout
    && run[i].now - run[Birth(run, policy, j)].now < policy.ttl
  }

  /** The use that opened the session use `i` answers with: follow the continued uses back. */
  function Birth(run: seq<Op>, policy: Policy, i: nat): (b: nat)
    requires i < |run| && run[i].Use?
    ensures b <= i && run[b].Use? && run[b].Key() == run[i].Key()
    decreases i, 1
  {
    if Continues(run, policy, i) then Birth(run, policy, Previous(run, run[i].Key(), i)) else i
  }

  /** Keys are digests, hence never empty. */
  predicate ProperKeys(run: seq<Op>) {
    forall i | 0 <= i < |run| :: run[i].Key() != ""
  }

  /** What the table holds for a key after `n` operations, told by the history alone. */
  ghost predicate Describes(run: seq<Op>, policy: Policy, n: nat, key: string)
    requires n <= |run|
  {
    var j, sessions := Previous(run, key, n), Stored(run, policy, n);
    if j < 0 || run[j].Reset? then key !in sessions
    else
      var b := Birth(run, policy, j);
      && key in sessions && sessions[key].key == key
      && sessions[key].sessionID == run[b].newID
      && sessions[key].expiresAt == run[b].now + policy.ttl
      && sessions[key].idleUntil == run[j].now + policy.idleTimeout
  }

  lemma {:induction false} StoredDescribes(run: seq<Op>, policy: Policy, n: nat, key: string)
    requires n <= |run| && ProperKeys(run)
    ensures Describes(run, policy, n, key)
  {
    if n > 0 {
      hide Describes;
      var op := run[n - 1];
      StoredDescribes(run, policy, n - 1, key);
      StoredDescribes(run, policy, n - 1, op.Key());
      if op.Use? && op.Key() == key {
        UseDescribes(run, policy, n - 1);
      } else {
        OthersUndisturbed(run, policy, n - 1, key);
      }
    }
  }

  lemma UseDescribes(run: seq<Op>, policy: Policy, i: nat)
    requires i < |run| && run[i].Use? && run[i].Key() != "" && Describes(run, policy, i, run[i].Key())
    ensures Describes(run, policy, i + 1, run[i].Key())
  {
    var op, sessions := run[i], Stored(run, policy, i);
    assert Reusable(sessions, op.req.key, op.now) <==> Continues(run, policy, i);
    var rec := RecordAfter(sessions, op.req, policy, op.now, op.newID);
    assert Stored(run, policy, i + 1) == sessions[op.req.key := rec];
  }

  /** An operation on one key leaves the records of the others alone. */
  lemma OthersUndisturbed(run: seq<Op>, policy: Policy, i: nat, key: string)
    requires i < |run| && (run[i].Key() != key || run[i].Reset?)
    requires Describes(run, policy, i, key) && Describes(run, policy, i, run[i].Key())
    ensures Describes(run, policy, i + 1, key)
  {
    hide Birth, Continues;
    var op, before, after := run[i], Stored(run, policy, i), Stored(run, policy, i + 1);
    if op.Use? {
      assert RecordAfter(before, op.req, policy, op.now, op.newID).key == op.Key();
    }
    if op.Key() != key {
      assert key in after <==> key in before;
      assert key in after ==> after[key] == before[key];
    }
  }

  /**
   A use answers with the session of the use it continues and opens a new one otherwise: no reset
   in between, gap below the idle timeout, age below the time to live.
   */
  lemma ReuseIffContinues(run: seq<Op>, policy: Policy, i: nat)
    requires i < |run| && run[i].Use? && ProperKeys(run)
    ensures Reusable(Stored(run, policy, i), run[i].req.key, run[i].now) <==> Continues(run, policy, i)
    ensures SessionOf(run, policy, i) == run[Birth(run, policy, i)].newID
    ensures Continues(run, policy, i) ==>
              SessionOf(run, policy, i) == SessionOf(run, policy, Previous(run, run[i].Key(), i))
    ensures !Continues(run, policy, i) ==> SessionOf(run, policy, i) == run[i].newID
  {
    var j := Previous(run, run[i].Key(), i);
    StoredDescribes(run, policy, i, run[i].Key());
    if Continues(run, policy, i) {
      StoredDescribes(run, policy, j, run[j].Key());
      StoredDescribes(run, policy, j + 1, run[j].Key());
    }
  }

  /** The agent never hands out an id twice. */
  ghost predicate FreshIDs(run: seq<Op>) {
    forall i, j | 0 <= i < j < |run| && run[i].Use? && run[j].Use? :: run[i].newID != run[j].newID
  }

  /** Two uses that answer with one session are uses of one conversation. */
  lemma SessionsAreNotShared(run: seq<Op>, policy: Policy, i: nat, j: nat)
    requires i < |run| && j < |run| && run[i].Use? && run[j].Use? && ProperKeys(run) && FreshIDs(run)
    requires SessionOf(run, policy, i) == SessionOf(run, policy, j)
    ensures run[i].Key() == run[j].Key()
  {
    ReuseIffContinues(run, policy, i);
    ReuseIffContinues(run, policy, j);
    var a, b := Birth(run, policy, i), Birth(run, policy, j);
    assert a == b;
  }

  /** With fresh ids, the previous session comes back exactly when the use continues it. */
  lemma SameSessionIffContinues(run: seq<Op>, policy: Policy, i: nat)
    requires i < |run| && run[i].Use? && ProperKeys(run) && FreshIDs(run)
    requires Previous(run, run[i].Key(), i) >= 0 && run[Previous(run, run[i].Key(), i)].Use?
    ensures SessionOf(run, policy, i) == SessionOf(run, policy, Previous(run, run[i].Key(), i))
            <==> Continues(run, policy, i)
  {
    var j := Previous(run, run[i].Key(), i);
    ReuseIffContinues(run, policy, i);
    ReuseIffContinues(run, policy, j);
    var b := Birth(run, policy, j);
    assert b < i && run[b].newID != run[i].newID;
  }
}
