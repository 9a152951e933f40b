/**
 The index of running requests, by chat and by request id, which `/cancel` and `/status` consult,
 and the workers that keep it: one per chat, each running one request at a time.
 */
module Runtime {
  import opened Wrappers

  /** `cancel` stands for the request's cancel function. */
  datatype Request = Request(requestID: string, chatID: string, senderID: string, sessionID: string, cancel: nat)

  datatype CancelError = NoRunningRequest | NotOwner

  datatype Index = Index(byChat: map<string, Request>, byReq: map<string, Request>)

  function Started(x: Index, req: Request): Index {
    Index(x.byChat[req.chatID := req], x.byReq[req.requestID := req])
  }

  function Finished(x: Index, requestID: string): Index {
    if requestID !in x.byReq then x
    else
      var chatID := x.byReq[requestID].chatID;
      Index(if chatID in x.byChat && x.byChat[chatID].requestID == requestID then x.byChat - {chatID} else x.byChat,
            x.byReq - {requestID})
  }

  /** The cancel function a request to cancel the chat's request calls, if it may. */
  function CancelTarget(x: Index, chatID: string, senderID: string, admin: bool): Result<nat, CancelError> {
    if chatID !in x.byChat then Err(NoRunningRequest)
    else if !admin && x.byChat[chatID].senderID != senderID then Err(NotOwner)
    else Ok(x.byChat[chatID].cancel)
  }

  function StatusOf(x: Index, chatID: string): Option<Request> {
    if chatID in x.byChat then Some(x.byChat[chatID]) else None
  }

  class Runtime {
    var byChat: map<string, Request>
    var byReq: map<string, Request>
    /** The cancel functions called so far. */
    var cancelled: seq<nat>

    function View(): Index
      reads this
    {
      Index(byChat, byReq)
    }

    constructor ()
      ensures View() == Index(map[], map[]) && cancelled == []
    {
      byChat, byReq, cancelled := map[], map[], [];
    }

    method Start(req: Request)
      modifies `byChat, `byReq
      ensures View() == Started(old(View()), req)
      ensures byChat == old(byChat)[req.chatID := req] && byReq == old(byReq)[req.requestID := req]
    {
      byChat := byChat[req.chatID := req];
      byReq := byReq[req.requestID := req];
    }

    method Finish(requestID: string)
      modifies `byChat, `byReq
      ensures View() == Finished(old(View()), requestID)
      ensures requestID !in old(byReq) ==> byReq == old(byReq) && byChat == old(byChat)
      ensures requestID in old(byReq) ==>
                var c := old(byReq)[requestID].chatID;
                && byReq == old(byReq) - {requestID}
                && byChat == if c in old(byChat) && old(byChat)[c].requestID == requestID then old(byChat) - {c}
                             else old(byChat)
    {
      if requestID !in byReq {
        return;
      }
      var req := byReq[requestID];
      byReq := byReq - {requestID};
      if req.chatID in byChat && byChat[req.chatID].requestID == requestID {
        byChat := byChat - {req.chatID};
      }
    }

    method Cancel(chatID: string, senderID: string, admin: bool) returns (r: Result<(), CancelError>)
      modifies `cancelled
      ensures var target := CancelTarget(View(), chatID, senderID, admin);
              && r == (if target.Ok? then Ok(()) else Err(target.error))
              && cancelled == old(cancelled) + if target.Ok? then [target.value] else []
    {
      if chatID !in byChat {
        return Err(NoRunningRequest);
      }
      var req := byChat[chatID];
      if !admin && req.senderID != senderID {
        return Err(NotOwner);
      }
      cancelled := cancelled + [req.cancel];
      return Ok(());
    }

    method Status(chatID: string) returns (r: Option<Request>)
      ensures r == StatusOf(View(), chatID)
    {
      if chatID !in byChat {
        return None;
      }
      return Some(byChat[chatID]);
    }
  }

  // ---- When the two maps say the same ----

  /** Both maps hold the same requests, each under its own chat and its own id. */
  ghost predicate Coherent(x: Index) {
    && (forall c | c in x.byChat ::
          x.byChat[c].chatID == c && x.byChat[c].requestID in x.byReq && x.byReq[x.byChat[c].requestID] == x.byChat[c])
    && (forall r | r in x.byReq ::
          x.byReq[r].requestID == r && x.byReq[r].chatID in x.byChat && x.byChat[x.byReq[r].chatID] == x.byReq[r])
  }

  /** The new request replaces nothing but an earlier start of itself. */
  predicate NoClash(x: Index, req: Request) {
    && (req.chatID in x.byChat ==> x.byChat[req.chatID].requestID == req.requestID)
    && (req.requestID in x.byReq ==> x.byReq[req.requestID].chatID == req.chatID)
  }

  lemma StartCoherentIffNoClash(x: Index, req: Request)
    requires Coherent(x)
    ensures Coherent(Started(x, req)) <==> NoClash(x, req)
  {
    var y := Started(x, req);
    if req.chatID in x.byChat && x.byChat[req.chatID].requestID != req.requestID {
      assert y.byReq[x.byChat[req.chatID].requestID] == x.byChat[req.chatID];
    }
    if req.requestID in x.byReq && x.byReq[req.requestID].chatID != req.chatID {
      assert y.byChat[x.byReq[req.requestID].chatID] == x.byReq[req.requestID];
    }
  }

  lemma FinishCoherent(x: Index, requestID: string)
    requires Coherent(x)
    ensures Coherent(Finished(x, requestID))
    ensures requestID !in Finished(x, requestID).byReq
    ensures requestID in x.byReq ==> x.byReq[requestID].chatID !in Finished(x, requestID).byChat
  {
  }

  // ---- One worker per chat ----

  /** The request each chat's worker is running, and the index. */
  datatype State = State(running: map<string, Request>, index: Index)

  datatype Step =
    | Begin(req: Request)
    | Refresh(chatID: string, sessionID: string)
    | End(chatID: string)

  const INITIAL := State(map[], Index(map[], map[]))

  /** A worker begins when it is free; no other worker is running a request with the same id. */
  predicate Enabled(s: State, a: Step) {
    match a
    case Begin(req) => req.chatID !in s.running && forall c | c in s.running :: s.running[c].requestID != req.requestID
    case Refresh(c, _) => c in s.running
    case End(c) => c in s.running
  }

  function Apply(s: State, a: Step): State
    requires Enabled(s, a)
  {
    match a
    case Begin(req) => State(s.running[req.chatID := req], Started(s.index, req))
    case Refresh(c, session) =>
      var req := s.running[c].(sessionID := session);
      State(s.running[c := req], Started(s.index, req))
    case End(c) => State(s.running - {c}, Finished(s.index, s.running[c].requestID))
  }

  predicate Runs(run: seq<Step>)
    decreases |run|, 0
  {
    run == [] || (Runs(run[..|run| - 1]) && Enabled(After(run[..|run| - 1]), run[|run| - 1]))
  }

  function After(run: seq<Step>): State
    requires Runs(run)
    decreases |run|, 1
  {
    if run == [] then INITIAL else Apply(After(run[..|run| - 1]), run[|run| - 1])
  }

  ghost predicate Inv(s: State) {
    s.index.byChat == s.running && Coherent(s.index)
  }

  lemma InvStep(s: State, a: Step)
    requires Inv(s) && Enabled(s, a)
    ensures Inv(Apply(s, a))
  {
    match a
    case Begin(req) =>
      assert NoClash(s.index, req);
      StartCoherentIffNoClash(s.index, req);
      hide Coherent;
    case Refresh(c, session) =>
      var req := s.running[c].(sessionID := session);
      assert NoClash(s.index, req);
      StartCoherentIffNoClash(s.index, req);
      hide Coherent;
    case End(c) =>
      FinishCoherent(s.index, s.running[c].requestID);
      assert s.index.byReq[s.running[c].requestID] == s.running[c];
      hide Coherent;
  }

  lemma {:induction false} RunKeepsInv(run: seq<Step>)
    requires Runs(run)
    ensures Inv(After(run))
    decreases |run|
  {
    if run != [] {
      RunKeepsInv(run[..|run| - 1]);
      InvStep(After(run[..|run| - 1]), run[|run| - 1]);
      hide Inv, Apply, Enabled;
    }
  }

  /** In every run both maps index exactly the running requests, through restarts on refresh. */
  lemma IndexIsExact(run: seq<Step>, chatID: string, requestID: string)
    requires Runs(run)
    ensures var s := After(run);
            && s.index.byChat == s.running
            && (requestID in s.index.byReq <==> exists c :: c in s.running && s.running[c].requestID == requestID)
            && (chatID in s.running ==>
               s.running[chatID].chatID == chatID && s.running[chatID].requestID in s.index.byReq
                                        && s.index.byReq[s.running[chatID].requestID] == s.running[chatID])
  {
    RunKeepsInv(run);
    var s := After(run);
    if requestID in s.index.byReq {
      assert s.index.byReq[requestID].chatID in s.running;
    }
    hide After;
  }

  /** After a request ends its chat is idle and its id is gone, until the chat begins another. */
  lemma EndedIsForgotten(run: seq<Step>, chatID: string)
    requires run != [] && Runs(run) && run[|run| - 1] == End(chatID)
    ensures var before, s := After(run[..|run| - 1]), After(run);
            chatID !in s.index.byChat && chatID in before.running && before.running[chatID].requestID !in s.index.byReq
  {
    RunKeepsInv(run[..|run| - 1]);
    RunKeepsInv(run);
    var before := After(run[..|run| - 1]);
    FinishCoherent(before.index, before.running[chatID].requestID);
  }

  /**
   In every run, a chat's status is the request its worker is running, and an authorised cancel calls
   that request's function.
   */
  lemma CancelReachesRunning(run: seq<Step>, chatID: string, senderID: string, admin: bool)
    requires Runs(run)
    ensures var running, x := After(run).running, After(run).index;
            && StatusOf(x, chatID) == (if chatID in running then Some(running[chatID]) else None)
            && CancelTarget(x, chatID, senderID, admin)
               == if chatID !in running then Err(NoRunningRequest)
                  else if !admin && running[chatID].senderID != senderID then Err(NotOwner)
                  else Ok(running[chatID].cancel)
  {
    RunKeepsInv(run);
    hide After;
  }

  /** A request that its chat has replaced meanwhile ends without taking the newer one's place in the index. */
  lemma LateFinishKeepsNewer(x: Index, older: Request, newer: Request)
    requires older.chatID == newer.chatID && older.requestID != newer.requestID
    ensures var y := Finished(Started(Started(x, older), newer), older.requestID);
            && StatusOf(y, newer.chatID) == Some(newer) && older.requestID !in y.byReq
            && newer.requestID in y.byReq && y.byReq[newer.requestID] == newer
  {
  }

  /** Two chats running requests with one id: the first to end unregisters the other, and stays registered itself. */
  lemma ClashLeavesStale(a: Request, b: Request)
    requires a.requestID == b.requestID && a.chatID != b.chatID
    ensures var both := Started(Started(Index(map[], map[]), a), b);
            var x := Finished(both, a.requestID);
            && !NoClash(Started(Index(map[], map[]), a), b)
            && x == Index(map[a.chatID := a], map[]) && Finished(x, b.requestID) == x
  {
  }
}
