/**
 What every run says of a prompt, with cancellations and shutdowns and whatever the agent sends: which
 step settles how it ends, and where each event on its channel comes from.
 */
module PromptOutcomes {
  import opened Wrappers
  import opened PromptStreams

  // ---- The first step that settles a prompt decides how it ends ----

  /**
   Whether the prompt succeeded, if the last step tells: its write, its cancellation, the shutdown of a client
   it waits on, or the reader's finding the reply it waits for.
   */
  ghost function SettledBy(run: seq<Step>, p: nat): Option<bool>
    requires Runs(run) && run != []
  {
    var front := run[..|run| - 1];
    var s := After(front);
    match run[|run| - 1]
    case Write(q, ok) => if q == p && (!ok || HasStep(front, ShutDown)) then Some(false) else None
    case Cancel(q) => if q == p then Some(false) else None
    case ShutDown => if At(s, p, Waiting) then Some(false) else None
    case ReadLine =>
      if At(s, p, Waiting) && s.wire != [] && s.wire[0].Reply? && s.wire[0].prompt == p then Some(s.wire[0].ok)
      else None
    case _ => None
  }

  ghost function FirstSettled(run: seq<Step>, p: nat): Option<bool>
    requires Runs(run)
  {
    if run == [] then None
    else if FirstSettled(run[..|run| - 1], p).Some? then FirstSettled(run[..|run| - 1], p)
    else SettledBy(run, p)
  }

  lemma DeadStep(s: State, a: Step)
    requires Enabled(s, a)
    ensures Apply(s, a).dead <==> s.dead || a == ShutDown
  {
    hide HasRoom, Terminal;
  }

  lemma {:induction false} DeadIffShutDown(run: seq<Step>)
    requires Runs(run)
    ensures After(run).dead <==> HasStep(run, ShutDown)
    decreases |run|
  {
    if run != [] {
      DeadIffShutDown(run[..|run| - 1]);
      DeadStep(After(run[..|run| - 1]), run[|run| - 1]);
      hide Apply, Enabled;
    }
  }

  /** A prompt that is yet to be written is not settled. */
  predicate SettledAs(s: State, p: nat, first: Option<bool>) {
    if p in s.prompts then s.prompts[p].reply == first && (s.prompts[p].stage == Starting ==> first.None?)
    else first.None?
  }

  lemma SettledStep(run: seq<Step>, p: nat, first: Option<bool>)
    requires Runs(run) && run != []
    requires SettledAs(After(run[..|run| - 1]), p, first)
    ensures SettledAs(After(run), p, if first.Some? then first else SettledBy(run, p))
  {
    hide Apply, Enabled, Runs, After, HasStep, HasRoom, Terminal;
    LastStep(run);
    var s, a := After(run[..|run| - 1]), run[|run| - 1];
    DeadIffShutDown(run[..|run| - 1]);
    StageBefore(s, a);
    if p in s.prompts {
      PromptChange(s, a, p);
    } else if p in After(run).prompts {
      PromptBegins(s, a, p);
    }
  }

  lemma LastStep(run: seq<Step>)
    requires Runs(run) && run != []
    ensures var front, a := run[..|run| - 1], run[|run| - 1];
            Runs(front) && Enabled(After(front), a) && After(run) == Apply(After(front), a)
  {
    hide Apply, Enabled;
  }

  /** In every run, what is known of a prompt's outcome is what the first step to settle it says. */
  lemma {:induction false} OutcomeIsFirstSettled(run: seq<Step>, p: nat)
    requires Runs(run)
    ensures SettledAs(After(run), p, FirstSettled(run, p))
    decreases |run|
  {
    if run != [] {
      OutcomeIsFirstSettled(run[..|run| - 1], p);
      SettledStep(run, p, FirstSettled(run[..|run| - 1], p));
      hide SettledAs, SettledBy, After;
    }
  }

  // ---- What each step puts on a channel ----

  /** What the run's last step puts on the channel of a prompt that was there before. */
  ghost function PutBy(run: seq<Step>, p: nat): seq<Event>
    requires Runs(run) && run != [] && p in After(run[..|run| - 1]).prompts
  {
    var front := run[..|run| - 1];
    var s := After(front);
    var x := s.prompts[p];
    match run[|run| - 1]
    case Terminate(q) => if q == p then [if FirstSettled(front, p) == Some(true) then Finish else Error] else []
    case NotifyStream(q) =>
      if q == p && x.stage != Closed && |x.channel| - x.consumed < 1024 then [Error] else []
    case ReaderSend =>
      if s.reader.Holding? && s.reader.prompt == p && x.stage != Closed then [s.reader.event] else []
    case _ => []
  }

  /**
   In every run a channel grows by the prompt's own terminal event, a finish exactly if it was settled as a
   success; by an error, if there is room, when the shutdown notifies it; and by what the reader holds.
   */
  lemma ChannelGrowsBy(run: seq<Step>, p: nat)
    requires Runs(run) && run != [] && p in After(run[..|run| - 1]).prompts
    ensures p in After(run).prompts
    ensures After(run).prompts[p].channel == After(run[..|run| - 1]).prompts[p].channel + PutBy(run, p)
    ensures run[|run| - 1] == Terminate(p) ==> FirstSettled(run[..|run| - 1], p).Some?
  {
    var s, a := After(run[..|run| - 1]), run[|run| - 1];
    OutcomeIsFirstSettled(run[..|run| - 1], p);
    PromptChange(s, a, p);
    assert a == Terminate(p) ==> s.prompts[p].reply.Some?;
    hide Apply, FirstSettled;
  }

  // ---- Where each event comes from ----

  /** The run has the step that put the line on the pipe. */
  predicate LineSent(run: seq<Step>, l: Line) {
    match l
    case Update(session, e) => HasStep(run, AgentUpdate(session, e))
    case Reply(p, ok) => HasStep(run, AgentReply(p, ok))
  }

  lemma LinesAreSent(s: State, a: Step, l: Line)
    requires Enabled(s, a) && l in Apply(s, a).wire && l !in s.wire
    ensures match l
            case Update(session, e) => a == AgentUpdate(session, e)
            case Reply(p, ok) => a == AgentReply(p, ok)
  {
    PipeChange(s, a);
    hide Apply, Enabled;
  }

  lemma {:induction false} WireIsSent(run: seq<Step>, l: Line)
    requires Runs(run) && l in After(run).wire
    ensures LineSent(run, l)
    decreases |run|
  {
    if run != [] {
      var front := run[..|run| - 1];
      if l in After(front).wire {
        WireIsSent(front, l);
      } else {
        LinesAreSent(After(front), run[|run| - 1], l);
      }
      hide Apply, Enabled;
    }
  }

  /** Every event is one the agent is on record for, for the prompt's own session; an error is nobody's. */
  predicate Sourced(run: seq<Step>, p: nat, session: string, e: Event) {
    match e
    case Finish => HasStep(run, AgentReply(p, true))
    case Error => true
    case _ => HasStep(run, AgentUpdate(session, Some(e)))
  }

  lemma SourcedLater(run: seq<Step>, p: nat, session: string, e: Event)
    requires run != [] && Sourced(run[..|run| - 1], p, session, e)
    ensures Sourced(run, p, session, e)
  {
  }

  lemma HandComes(s: State, a: Step)
    requires Enabled(s, a) && Apply(s, a).reader.Holding? && Apply(s, a).reader != s.reader
    ensures a == ReadLine && s.wire != [] && s.wire[0].Update? && s.wire[0].event.Some?
    ensures s.wire[0].session in s.streams
    ensures Apply(s, a).reader == Holding(s.streams[s.wire[0].session], s.wire[0].event.value)
  {
    hide HasRoom, Terminal;
  }

  lemma {:induction false} HandIsSent(run: seq<Step>)
    requires Runs(run) && After(run).reader.Holding?
    ensures After(run).reader.prompt in After(run).prompts
    ensures var s := After(run);
            HasStep(run, AgentUpdate(s.prompts[s.reader.prompt].session, Some(s.reader.event)))
    decreases |run|
  {
    if run != [] {
      var front, a := run[..|run| - 1], run[|run| - 1];
      var s := After(front);
      if After(run).reader == s.reader {
        HandIsSent(front);
        PromptsStay(s, a, s.reader.prompt);
      } else {
        HandComes(s, a);
        RunIsSane(front);
        WireIsSent(front, s.wire[0]);
        PromptsStay(s, a, s.streams[s.wire[0].session]);
      }
      hide Apply, Enabled;
    }
  }

  lemma {:induction false} SuccessIsReplied(run: seq<Step>, p: nat)
    requires Runs(run) && FirstSettled(run, p) == Some(true)
    ensures HasStep(run, AgentReply(p, true))
    decreases |run|
  {
    var front := run[..|run| - 1];
    if FirstSettled(front, p).Some? {
      SuccessIsReplied(front, p);
    } else {
      WireIsSent(front, Reply(p, true));
    }
  }

  lemma LastIsSourced(run: seq<Step>, p: nat, k: nat)
    requires Runs(run) && run != [] && p in After(run[..|run| - 1]).prompts && k < |PutBy(run, p)|
    ensures Sourced(run, p, After(run[..|run| - 1]).prompts[p].session, PutBy(run, p)[k])
  {
    var front, a := run[..|run| - 1], run[|run| - 1];
    if a == ReaderSend {
      HandIsSent(front);
      RunHasOnlyUpdates(front);
    } else if a == Terminate(p) && FirstSettled(front, p) == Some(true) {
      SuccessIsReplied(front, p);
    }
    hide Apply, Enabled, FirstSettled;
  }

  /**
   In every run, each update on a channel is one the agent sent for the prompt's session, and there is a finish
   only if the agent replied to the prompt with success.
   */
  lemma {:induction false} ChannelIsSourced(run: seq<Step>, p: nat, k: nat)
    requires Runs(run) && p in After(run).prompts && k < |After(run).prompts[p].channel|
    ensures var x := After(run).prompts[p];
            match x.channel[k]
            case Finish => HasStep(run, AgentReply(p, true))
            case Error => true
            case e => HasStep(run, AgentUpdate(x.session, Some(e)))
    decreases |run|
  {
    if run != [] {
      hide Apply, Enabled, PutBy, HasStep;
      var front, a := run[..|run| - 1], run[|run| - 1];
      var s := After(front);
      if p in s.prompts {
        ChannelGrowsBy(run, p);
        PromptsStay(s, a, p);
        var x := s.prompts[p];
        if k < |x.channel| {
          ChannelIsSourced(front, p, k);
          SourcedLater(run, p, x.session, x.channel[k]);
        } else {
          LastIsSourced(run, p, k - |x.channel|);
        }
      } else {
        PromptBegins(s, a, p);
      }
    }
  }

  // ---- A prompt that fails comes to its end ----

  /** A cancellation ends a waiting prompt in four steps with an error, and so does a failed write. */
  lemma FailureEndsPrompt(run: seq<Step>, p: nat, a: Step)
    requires Runs(run)
    requires (a == Cancel(p) && At(After(run), p, Waiting) && After(run).prompts[p].reply.None?)
             || (a == Write(p, false) && At(After(run), p, Starting))
    requires |After(run).prompts[p].channel| - After(run).prompts[p].consumed < 1024
    ensures var more := run + [a, Terminate(p), Remove(p), Close(p)];
            && Runs(more) && At(After(more), p, Closed)
            && After(more).prompts[p].channel == After(run).prompts[p].channel + [Error]
  {
    hide Runs, After, Apply, Enabled;
    FailureSettles(After(run), p, a);
    Extend(run, a);
    var failed := run + [a];
    RepliedEnds(After(failed), p, false);
    Extend(failed, Terminate(p));
    Extend(failed + [Terminate(p)], Remove(p));
    Extend(failed + [Terminate(p)] + [Remove(p)], Close(p));
    assert run + [a, Terminate(p), Remove(p), Close(p)] == failed + [Terminate(p)] + [Remove(p)] + [Close(p)];
  }

  lemma FailureSettles(s: State, p: nat, a: Step)
    requires (a == Cancel(p) && At(s, p, Waiting) && s.prompts[p].reply.None?)
             || (a == Write(p, false) && At(s, p, Starting))
    ensures Enabled(s, a)
    ensures var t := Apply(s, a);
            && At(t, p, Waiting) && t.prompts[p].reply == Some(false)
            && t.prompts[p].channel == s.prompts[p].channel && t.prompts[p].consumed == s.prompts[p].consumed
  {
  }

  // ---- Whom the shutdown notifies ----

  predicate Listed(s: State, p: nat) {
    p in s.prompts && InTable(s.prompts[p]) ==>
      s.prompts[p].session in s.streams && s.streams[s.prompts[p].session] == p
  }

  lemma ListedStep(s: State, a: Step, p: nat)
    requires Enabled(s, a) && a != ShutDown && Listed(s, p)
    requires a.Remove? ==> Listed(s, a.prompt)
    ensures Listed(Apply(s, a), p)
  {
    hide Apply, HasRoom, Terminal;
    StreamsChange(s, a);
    if p in s.prompts {
      PromptChange(s, a, p);
    } else if p in Apply(s, a).prompts {
      PromptBegins(s, a, p);
      NewIsListed(s, a);
    }
  }

  lemma StreamsChange(s: State, a: Step)
    requires Enabled(s, a) && a != ShutDown
    ensures Apply(s, a).streams
            == if a.Send? && a.session !in s.streams then s.streams[a.session := a.prompt]
               else if a.Remove? then s.streams - {s.prompts[a.prompt].session} else s.streams
  {
    hide HasRoom, Terminal;
  }

  lemma NewIsListed(s: State, a: Step)
    requires Enabled(s, a) && a.Send? && a.prompt in Apply(s, a).prompts
    ensures a.session !in s.streams
  {
  }

  /** Until the shutdown every prompt that has not removed its stream is in the table. */
  lemma {:induction false} TableIsComplete(run: seq<Step>, p: nat)
    requires Runs(run) && !After(run).dead
    ensures Listed(After(run), p)
    decreases |run|
  {
    if run != [] {
      var front, a := run[..|run| - 1], run[|run| - 1];
      hide Apply, Enabled, Listed;
      LastStep(run);
      DeadStep(After(front), a);
      TableIsComplete(front, p);
      if a.Remove? {
        TableIsComplete(front, a.prompt);
      }
      ListedStep(After(front), a, p);
    }
  }

  /** The shutdown notifies exactly the prompts that have not removed their streams, and empties the table. */
  lemma ShutDownNotifiesTable(run: seq<Step>, p: nat)
    requires Runs(run) && run != [] && run[|run| - 1] == ShutDown
    ensures var before := After(run[..|run| - 1]).prompts;
            p in After(run).sweep <==> p in before && !(before[p].stage == Removed || before[p].stage == Closed)
    ensures After(run).streams == map[]
  {
    var front := run[..|run| - 1];
    LastStep(run);
    TableIsComplete(front, p);
    RunIsSane(front);
    hide Runs, After;
  }
}
