/**
 The fields of the JSON-RPC client and the regions it runs under its lock. Each method is one lock
 region. `ResponseMux` and `PromptStreams` interleave them with the channel operations: the ghost
 state is theirs at the time of the region, and the contract says which step the region takes.
 */
module CmdClient {
  import opened Wrappers
  import Mux = ResponseMux
  import PromptStreams

  class CmdClient {
    var nextID: nat
    var pending: map<nat, Mux.Call>
    var streams: map<string, nat>
    var dead: Option<string>

    /** The fields are the shared part of the state. */
    predicate Carries(s: Mux.State)
      reads this
    {
      s.nextID == nextID && s.shared == Mux.Shared(pending, dead)
    }

    constructor ()
      ensures Carries(Mux.INITIAL)
      ensures streams == PromptStreams.INITIAL.streams
    {
      nextID, pending, streams, dead := 0, map[], map[], None;
    }

    /** A call begins with an id nobody has had before. */
    method NewID(ghost s: Mux.State, ghost c: Mux.Call) returns (id: nat)
      requires Carries(s) && Mux.Enabled(s, Mux.Begin(c))
      modifies `nextID
      ensures Carries(Mux.Apply(s, Mux.Begin(c))) && Mux.Apply(s, Mux.Begin(c)).calls[c].id == id
    {
      nextID := nextID + 1;
      return nextID;
    }

    /** The call's response channel is filed under its id. */
    method Register(ghost s: Mux.State, id: nat, c: Mux.Call)
      requires Carries(s) && Mux.Enabled(s, Mux.Step.Register(c)) && s.calls[c].id == id
      modifies `pending
      ensures Carries(Mux.Apply(s, Mux.Step.Register(c)))
    {
      pending := pending[id := c];
    }

    /** The deferred delete of a call. */
    method Unregister(ghost s: Mux.State, id: nat, ghost c: Mux.Call)
      requires Carries(s) && Mux.Enabled(s, Mux.Step.Unregister(c)) && s.calls[c].id == id
      modifies `pending
      ensures Carries(Mux.Apply(s, Mux.Step.Unregister(c)))
    {
      pending := pending - {id};
    }

    /** A reader's region for a response: take the id out, and hold the response for the call it led to. */
    method Take(ghost s: Mux.State, ghost r: nat, env: Mux.Envelope) returns (c: Option<Mux.Call>)
      requires Carries(s) && Mux.Enabled(s, Mux.Lookup(r, env))
      modifies `pending
      ensures Carries(Mux.Apply(s, Mux.Lookup(r, env)))
      ensures Mux.ReaderOf(Mux.Apply(s, Mux.Lookup(r, env)), r) == if c.Some? then Mux.Holding(c.value, env)
              else Mux.Scanning
    {
      c := if env.id in pending then Some(pending[env.id]) else None;
      pending := pending - {env.id};
    }

    /** Start a prompt, unless its session has one in flight. */
    method OpenStream(ghost s: PromptStreams.State, session: string, p: nat) returns (ok: bool)
      requires s.streams == streams && PromptStreams.Enabled(s, PromptStreams.Send(p, session))
      modifies `streams
      ensures ok <==> session !in old(streams)
      ensures streams == PromptStreams.Apply(s, PromptStreams.Send(p, session)).streams
    {
      if session in streams {
        return false;
      }
      streams := streams[session := p];
      return true;
    }

    method RemoveStream(ghost s: PromptStreams.State, session: string, ghost p: nat)
      requires s.streams == streams && PromptStreams.Enabled(s, PromptStreams.Remove(p))
               && s.prompts[p].session == session
      modifies `streams
      ensures streams == PromptStreams.Apply(s, PromptStreams.Remove(p)).streams
    {
      streams := streams - {session};
    }

    /** The first shutdown takes both tables; later ones find the client dead and take nothing. */
    method ShutDown(ghost s: Mux.State, ghost prompts: PromptStreams.State, reason: string)
      returns (swept: map<nat, Mux.Call>, notify: set<nat>)
      requires Carries(s) && prompts.streams == streams && prompts.dead == dead.Some?
      modifies `pending, `streams, `dead
      ensures Carries(Mux.Apply(s, Mux.Step.ShutDown(reason)))
      ensures old(dead).None? ==>
                && swept == Mux.Apply(s, Mux.Step.ShutDown(reason)).sweep
                && notify == PromptStreams.Apply(prompts, PromptStreams.ShutDown).sweep
                && streams == PromptStreams.Apply(prompts, PromptStreams.ShutDown).streams
      ensures old(dead).Some? ==> swept == map[] && notify == {} && streams == old(streams)
    {
      if dead.Some? {
        return map[], {};
      }
      dead := Some(reason);
      swept, notify := pending, streams.Values;
      pending, streams := map[], map[];
    }
  }
}
