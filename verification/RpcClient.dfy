/**
 The fields of the websocket JSON-RPC client and the regions it runs under its locks, with nothing
 in between; `RpcStreams` interleaves them.
 */
module RpcClient {
  import opened Wrappers
  import opened RpcStreams

  datatype RegisterError = EmptyID | DuplicateID

  class RpcClient {
    var pending: map<string, nat>
    var streams: map<nat, Stream>

    /** The table points at existing requests, each under its own id. */
    ghost predicate Valid()
      reads this
    {
      PendingOK(View())
    }

    function View(): State
      reads this
    {
      State(pending, streams, Reading)
    }

    constructor ()
      ensures Valid() && View() == INITIAL
    {
      pending, streams := map[], map[];
    }

    method Register(p: nat, id: string) returns (r: Result<(), RegisterError>)
      requires Valid() && p !in streams
      modifies this
      ensures Valid()
      ensures r == (if id == "" then Err(EmptyID) else if id in old(pending) then Err(DuplicateID) else Ok(()))
      ensures r.Ok? <==> Enabled(old(View()), RpcStreams.Register(p, id))
      ensures View() == if r.Ok? then Apply(old(View()), RpcStreams.Register(p, id)) else old(View())
    {
      if id == "" {
        return Err(EmptyID);
      }
      if id in pending {
        return Err(DuplicateID);
      }
      pending := pending[id := p];
      streams := streams[p := Stream(id, Registered, Idle, false, 0, 0, false)];
      return Ok(());
    }

    method Unregister(id: string) returns (p: Option<nat>)
      requires Valid()
      modifies `pending
      ensures Valid()
      ensures p == if id in old(pending) then Some(old(pending)[id]) else None
      ensures pending == old(pending) - {id}
    {
      p := if id in pending then Some(pending[id]) else None;
      pending := pending - {id};
    }

    method SendTo(p: nat)
      requires Valid() && p in streams
      modifies `streams
      ensures Valid() && streams == old(streams)[p := SendEvent(old(streams)[p])]
      ensures streams[p].sends == old(streams)[p].sends + if old(streams)[p].closed then 0 else 1
    {
      var x := streams[p];
      if x.closed {
        return;
      }
      streams := streams[p := x.(sends := x.sends + 1, misused := x.misused || x.closes > 0)];
    }

    method CloseStream(p: nat)
      requires Valid() && p in streams
      modifies `streams
      ensures Valid() && streams == old(streams)[p := CloseEvents(old(streams)[p])]
      ensures streams[p].closed && streams[p].closes == old(streams)[p].closes + if old(streams)[p].closed then 0 else 1
    {
      var x := streams[p];
      if x.closed {
        return;
      }
      streams := streams[p := x.(closed := true, closes := x.closes + 1, misused := x.misused || x.closes > 0)];
    }

    /** The reader has failed: every pending stream gets the error and is closed, and the table is emptied. */
    method FailAll()
      requires Valid()
      modifies this
      ensures Valid() && pending == map[] && streams.Keys == old(streams).Keys
      ensures forall p | p in streams :: streams[p] == FailedIf(old(streams)[p], InTable(old(View()), p))
    {
      ghost var before := View();
      NoneFailedYet(before);
      hide PendingOK, FailedSoFar;
      while pending != map[]
        invariant PendingOK(View()) && FailedSoFar(before, View())
        decreases |pending|
      {
        var id :| id in pending;
        FailOne(before, id);
      }
      AllFailed(before, View());
      hide FailedIf, InTable;
    }

    method FailOne(ghost before: State, id: string)
      requires PendingOK(before) && PendingOK(View()) && FailedSoFar(before, View()) && id in pending
      modifies this
      ensures PendingOK(View()) && FailedSoFar(before, View()) && |pending| < |old(pending)|
    {
      FailOneStep(before, View(), id);
      SmallerKeys(pending, id);
      hide PendingOK, FailedSoFar, SendEvent, CloseEvents;
      SendTo(pending[id]);
      CloseStream(pending[id]);
      pending := pending - {id};
    }
  }

  lemma NoneFailedYet(s: State)
    ensures FailedSoFar(s, s)
  {
  }

  lemma AllFailed(before: State, s: State)
    requires FailedSoFar(before, s) && s.pending == map[]
    ensures s.streams.Keys == before.streams.Keys
    ensures forall p | p in s.streams :: s.streams[p] == FailedIf(before.streams[p], InTable(before, p))
  {
  }

  function FailedIf(x: Stream, pending: bool): Stream {
    if pending then CloseEvents(SendEvent(x)) else x
  }

  /** Of the streams in the table before, those no longer in it have failed; nothing else has changed. */
  ghost predicate FailedSoFar(before: State, s: State) {
    && s.streams.Keys == before.streams.Keys
    && (forall id | id in s.pending :: id in before.pending && s.pending[id] == before.pending[id])
    && (forall p | p in s.streams ::
          s.streams[p] == FailedIf(before.streams[p], InTable(before, p) && before.streams[p].id !in s.pending))
  }

  lemma FailedKeepsID(x: Stream)
    ensures CloseEvents(SendEvent(x)).id == x.id
  {
  }

  lemma FailOneStep(before: State, s: State, id: string)
    requires PendingOK(before) && PendingOK(s) && FailedSoFar(before, s) && id in s.pending
    ensures s.pending[id] in s.streams
    ensures var p := s.pending[id];
            var x := SendEvent(s.streams[p]);
            var t := s.(pending := s.pending - {id}, streams := s.streams[p := x][p := CloseEvents(x)]);
            && PendingOK(s.(streams := s.streams[p := x]))
            && PendingOK(s.(streams := s.streams[p := x][p := CloseEvents(x)]))
            && PendingOK(t) && FailedSoFar(before, t)
  {
    FailedKeepsID(s.streams[s.pending[id]]);
    assert SendEvent(s.streams[s.pending[id]]).id == s.streams[s.pending[id]].id;
    hide SendEvent, CloseEvents;
  }

  lemma SmallerKeys(m: map<string, nat>, id: string)
    requires id in m
    ensures |m - {id}| < |m|
  {
    assert m == (m - {id})[id := m[id]];
  }
}
