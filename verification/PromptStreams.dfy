/**
 The stream table of the JSON-RPC client: prompts, the one reader, the agent at the other end of
 the pipe. Sends, look-ups, removals and closes are separate steps, as the lock is not held
 between them. Calls are taken as `ResponseMux` proves them: a prompt gets its own reply.
 */
module PromptStreams {
  import opened Wrappers

  const CAPACITY := 1024

  datatype Event = Delta(text: string) | Process(text: string) | Finish | Error

  /** A line from the agent: a session update, empty if it shows nothing, or the reply to a prompt. */
  datatype Line = Update(session: string, event: Option<Event>) | Reply(prompt: nat, ok: bool)

  /** In the table and not yet written; waiting for the reply; terminal event sent; removed; closed. */
  datatype Stage = Starting | Waiting | Ending | Removed | Closed

  /**
   `channel` is everything ever sent on the events channel, of which `consumed` has been read.
   `written`, `answered` and `emitted` are the agent's side: it got the prompt, it has replied,
   and these are the updates it sent for it.
   */
  datatype Prompt = Prompt(session: string, stage: Stage, reply: Option<bool>, channel: seq<Event>, consumed: nat,
                           written: bool, answered: bool, emitted: seq<Event>)

  datatype Reader = Scanning | Holding(prompt: nat, event: Event)

  datatype State = State(streams: map<string, nat>, prompts: map<nat, Prompt>, wire: seq<Line>, reader: Reader,
                         dead: bool, sweep: set<nat>, panicked: bool)

  datatype Step =
    | Send(prompt: nat, session: string)
    | Write(prompt: nat, ok: bool)
    | AgentUpdate(session: string, event: Option<Event>)
    | AgentReply(prompt: nat, ok: bool)
    | ReadLine
    | ReaderSend
    | Consume(prompt: nat)
    | Terminate(prompt: nat)
    | Remove(prompt: nat)
    | Close(prompt: nat)
    | Cancel(prompt: nat)
    | ShutDown
    | NotifyStream(prompt: nat)

  const INITIAL := State(map[], map[], [], Scanning, false, {}, false)

  predicate InTable(p: Prompt) {
    p.stage == Starting || p.stage == Waiting || p.stage == Ending
  }

  predicate At(s: State, p: nat, stage: Stage) {
    p in s.prompts && s.prompts[p].stage == stage
  }

  /** A send blocks while the channel's buffer is full. */
  predicate HasRoom(p: Prompt) {
    |p.channel| < p.consumed + CAPACITY
  }

  predicate Enabled(s: State, a: Step) {
    match a
    case Send(p, _) => p !in s.prompts
    case Write(p, _) => At(s, p, Starting)
    case AgentUpdate(_, e) => e.Some? ==> e.value.Delta? || e.value.Process?
    case AgentReply(_, _) => true
    case ReadLine => s.reader == Scanning && s.wire != []
    case ReaderSend => s.reader.Holding? && s.reader.prompt in s.prompts
                       && (s.prompts[s.reader.prompt].stage == Closed || HasRoom(s.prompts[s.reader.prompt]))
    case Consume(p) => p in s.prompts && s.prompts[p].consumed < |s.prompts[p].channel|
    case Terminate(p) => At(s, p, Waiting) && s.prompts[p].reply.Some? && HasRoom(s.prompts[p])
    case Remove(p) => At(s, p, Ending)
    case Close(p) => At(s, p, Removed)
    case Cancel(p) => At(s, p, Waiting) && s.prompts[p].reply.None?
    case ShutDown => !s.dead
    case NotifyStream(p) => p in s.sweep && p in s.prompts
  }

  function Terminal(p: Prompt): Event {
    if p.reply == Some(true) then Finish else Error
  }

  /** A session with a prompt in flight refuses another one. */
  function Opened(streams: map<string, nat>, session: string, p: nat): map<string, nat> {
    if session in streams then streams else streams[session := p]
  }

  /** The prompt after its goroutine has sent the terminal event. */
  function Ended(p: Prompt): Prompt {
    p.(channel := p.channel + [Terminal(p)], stage := Ending)
  }

  function With(s: State, p: nat, prompt: Prompt): State {
    s.(prompts := s.prompts[p := prompt])
  }

  /** A send on the events channel; on a closed one the program panics. */
  function Push(s: State, p: nat, e: Event): State
    requires p in s.prompts
  {
    if s.prompts[p].stage == Closed then s.(panicked := true)
    else With(s, p, s.prompts[p].(channel := s.prompts[p].channel + [e]))
  }

  /** The prompt of a session the agent is working on. */
  predicate Outstanding(s: State, p: nat) {
    p in s.prompts && s.prompts[p].written && !s.prompts[p].answered
  }

  function Apply(s: State, a: Step): State
    requires Enabled(s, a)
  {
    match a
    case Send(p, session) =>
      if session in s.streams then s
      else With(s, p,
          Prompt(session, Starting, None, [], 0, false, false, [])).(streams := Opened(s.streams, session, p))
    case Write(p, ok) =>
      // On a dead client the call returns at once.
      With(s, p, s.prompts[p].(stage := Waiting, written := ok, reply := if ok && !s.dead then None else Some(false)))
    case AgentUpdate(session, e) =>
      var sent := s.(wire := s.wire + [Update(session, e)]);
      if session in s.streams && e.Some? && s.streams[session] in s.prompts && Outstanding(s, s.streams[session]) then
        var p := s.streams[session];
        With(sent, p, s.prompts[p].(emitted := s.prompts[p].emitted + [e.value]))
      else sent
    case AgentReply(p, ok) =>
      var sent := s.(wire := s.wire + [Reply(p, ok)]);
      if p in s.prompts then With(sent, p, s.prompts[p].(answered := true)) else sent
    case ReadLine =>
      var rest := s.(wire := s.wire[1..]);
      match s.wire[0] {
        case Update(session, e) =>
          if session in s.streams && e.Some? then rest.(reader := Holding(s.streams[session], e.value)) else rest
        case Reply(p, ok) =>
          if At(s, p, Waiting) && s.prompts[p].reply.None? then With(rest, p, s.prompts[p].(reply := Some(ok)))
          else rest
      }
    case ReaderSend =>
      Push(s, s.reader.prompt, s.reader.event).(reader := Scanning)
    case Consume(p) =>
      With(s, p, s.prompts[p].(consumed := s.prompts[p].consumed + 1))
    case Terminate(p) =>
      With(s, p, Ended(s.prompts[p]))
    case Remove(p) =>
      With(s, p, s.prompts[p].(stage := Removed)).(streams := s.streams - {s.prompts[p].session})
    case Close(p) =>
      With(s, p, s.prompts[p].(stage := Closed))
    case Cancel(p) =>
      With(s, p, s.prompts[p].(reply := Some(false)))
    case ShutDown =>
      s.(dead := true, sweep := s.streams.Values, streams := map[], prompts := map p | p in s.prompts ::
           if s.prompts[p].stage == Waiting && s.prompts[p].reply.None? then s.prompts[p].(reply := Some(false))
           else s.prompts[p])
    case NotifyStream(p) =>
      (if s.prompts[p].stage == Closed || HasRoom(s.prompts[p]) then Push(s, p, Error) else s).(sweep := s.sweep - {p})
  }

  /** A run: every step is enabled where it is taken. */
  predicate Runs(run: seq<Step>)
    decreases |run|, 0
  {
    run == [] || (Runs(run[..|run| - 1]) && Enabled(After(run[..|run| - 1]), run[|run| - 1]))
  }

  function After(run: seq<Step>): State
    requires Runs(run)
    decreases |run|, 1
  {
    if run == [] then INITIAL else Apply(After(run[..|run| - 1]), run[|run| - 1])
  }

  /**
   The agent shows something for a session only while it has a prompt of it, and replies to prompts
   it got; there is no cancellation and no shutdown.
   */
  ghost predicate Disciplined(s: State, a: Step) {
    match a
    case AgentUpdate(session, e) => e.Some? ==>
        exists p | p in s.prompts :: Outstanding(s, p) && s.prompts[p].session == session
    case AgentReply(p, _) => p in s.prompts && s.prompts[p].written
    case Cancel(_) => false
    case ShutDown => false
    case NotifyStream(_) => false
    case _ => true
  }

  ghost predicate DisciplinedRun(run: seq<Step>)
    requires Runs(run)
  {
    run == [] || (DisciplinedRun(run[..|run| - 1]) && Disciplined(After(run[..|run| - 1]), run[|run| - 1]))
  }

  // ---- The invariant ----

  /** The updates for a session still in the pipe. */
  function InPipe(wire: seq<Line>, session: string): seq<Event> {
    if wire == [] then []
    else
      (if wire[0].Update? && wire[0].session == session && wire[0].event.Some? then [wire[0].event.value] else [])
      + InPipe(wire[1..], session)
  }

  /** The first reply to the prompt is in the pipe and no update for its session comes after it. */
  predicate ReplyComesLast(wire: seq<Line>, p: nat, session: string) {
    wire != [] &&
    if wire[0].Reply? && wire[0].prompt == p then InPipe(wire[1..], session) == []
    else ReplyComesLast(wire[1..], p, session)
  }

  function InHand(r: Reader, p: nat): seq<Event> {
    if r.Holding? && r.prompt == p then [r.event] else []
  }

  /** What was sent, what the reader holds and what is still in the pipe is what the agent emitted, in order. */
  predicate Flows(prompt: Prompt, hand: seq<Event>, pipe: seq<Event>) {
    prompt.channel + hand + pipe == prompt.emitted
  }

  /** The channel carries everything the agent emitted for the prompt, then one terminal event. */
  predicate Delivered(prompt: Prompt) {
    prompt.channel == prompt.emitted + [Terminal(prompt)]
  }

  ghost predicate PromptOK(s: State, p: nat, prompt: Prompt) {
    && (InTable(prompt) ==> prompt.session in s.streams && s.streams[prompt.session] == p)
    && (prompt.stage == Starting ==> !prompt.written && prompt.reply.None?)
    && (prompt.answered ==> prompt.written)
    && (!prompt.written ==> prompt.emitted == [])
    && (prompt.written && !prompt.answered ==> prompt.stage == Waiting && prompt.reply.None?)
    && (prompt.stage == Starting || prompt.stage == Waiting ==>
          Flows(prompt, InHand(s.reader, p), InPipe(s.wire, prompt.session)))
    && (prompt.stage == Waiting && prompt.answered && prompt.reply.None? ==> ReplyComesLast(s.wire, p, prompt.session))
    && (InTable(prompt) && prompt.reply.Some? ==> InPipe(s.wire, prompt.session) == [])
    && (!(prompt.stage == Starting || prompt.stage == Waiting) ==>
          prompt.reply.Some? && Delivered(prompt))
  }

  ghost predicate PromptsOK(s: State) {
    forall p | p in s.prompts :: PromptOK(s, p, s.prompts[p])
  }

  ghost predicate StreamsOK(s: State) {
    forall session | session in s.streams ::
      var p := s.streams[session];
      p in s.prompts && s.prompts[p].session == session && InTable(s.prompts[p])
  }

  ghost predicate PipeOK(s: State) {
    && (forall session: string | session !in s.streams :: InPipe(s.wire, session) == [])
    && (forall l | l in s.wire && l.Reply? :: l.prompt in s.prompts && s.prompts[l.prompt].answered)
  }

  /** The reader never holds an update of a prompt whose reply it has seen. */
  predicate ReaderOK(s: State) {
    s.reader.Holding? ==>
      s.reader.prompt in s.prompts &&
      var p := s.prompts[s.reader.prompt];
      p.stage == Waiting && p.reply.None? && p.written
  }

  ghost predicate Inv(s: State) {
    !s.panicked && !s.dead && PromptsOK(s) && StreamsOK(s) && PipeOK(s) && ReaderOK(s)
  }

  lemma InitialInv()
    ensures Inv(INITIAL)
  {
  }

  lemma {:induction false} InPipeAppend(wire: seq<Line>, l: Line, session: string)
    ensures InPipe(wire + [l], session)
            == InPipe(wire, session)
                + (if l.Update? && l.session == session && l.event.Some? then [l.event.value] else [])
  {
    if wire == [] {
      assert wire + [l] == [l];
    } else {
      assert (wire + [l])[1..] == wire[1..] + [l];
      InPipeAppend(wire[1..], l, session);
    }
  }

  lemma {:induction false} ReplyLastAppend(wire: seq<Line>, l: Line, p: nat, session: string)
    requires ReplyComesLast(wire, p, session)
    requires !(l.Update? && l.session == session && l.event.Some?)
    ensures ReplyComesLast(wire + [l], p, session)
  {
    assert (wire + [l])[1..] == wire[1..] + [l];
    if wire[0].Reply? && wire[0].prompt == p {
      InPipeAppend(wire[1..], l, session);
    } else {
      ReplyLastAppend(wire[1..], l, p, session);
    }
  }

  lemma {:induction false} FirstReplyIsLast(wire: seq<Line>, p: nat, ok: bool, session: string)
    requires forall l | l in wire && l.Reply? :: l.prompt != p
    ensures ReplyComesLast(wire + [Reply(p, ok)], p, session)
  {
    if wire == [] {
      assert wire + [Reply(p, ok)] == [Reply(p, ok)];
    } else {
      assert (wire + [Reply(p, ok)])[1..] == wire[1..] + [Reply(p, ok)];
      FirstReplyIsLast(wire[1..], p, ok, session);
    }
  }

  lemma SomePrompt(s: State, p: nat)
    requires PromptsOK(s) && p in s.prompts
    ensures PromptOK(s, p, s.prompts[p])
  {
  }

  /** The agent's outstanding prompt is the one the reader will find for its session. */
  lemma OutstandingIsInTable(s: State, p: nat)
    requires PromptsOK(s) && Outstanding(s, p)
    ensures s.prompts[p].session in s.streams && s.streams[s.prompts[p].session] == p
  {
    SomePrompt(s, p);
  }

  // ---- One lemma per kind of step ----

  /** A step that changes one prompt and nothing else keeps the rest of the invariant. */
  lemma LocalChange(s: State, p: nat, prompt: Prompt)
    requires Inv(s) && p in s.prompts
    requires prompt.session == s.prompts[p].session && InTable(prompt) == InTable(s.prompts[p])
    requires prompt.answered == s.prompts[p].answered
    requires s.reader.Holding? && s.reader.prompt == p ==>
             prompt.stage == Waiting && prompt.reply.None? && prompt.written
    requires PromptOK(s, p, prompt)
    ensures Inv(With(s, p, prompt))
  {
    hide InTable, InPipe, ReplyComesLast;
    var t := With(s, p, prompt);
    assert PromptsOK(t) by {
      hide StreamsOK, PipeOK, ReaderOK;
      forall q | q in t.prompts ensures PromptOK(t, q, t.prompts[q]) {
        SamePrompt(s, t, q, t.prompts[q]) by {
          hide PromptOK;
        }
      }
    }
    hide PromptsOK, PromptOK;
  }

  /** What a prompt's invariant looks at outside the prompt. */
  lemma SamePrompt(s: State, t: State, q: nat, prompt: Prompt)
    requires PromptOK(s, q, prompt) && t.streams == s.streams && t.wire == s.wire
             && InHand(t.reader, q) == InHand(s.reader, q)
    ensures PromptOK(t, q, prompt)
  {
  }

  lemma SendKeeps(s: State, p: nat, session: string)
    requires Inv(s) && Enabled(s, Send(p, session))
    ensures Inv(Apply(s, Send(p, session)))
  {
    hide ReplyComesLast, InPipe, InTable;
    if session !in s.streams {
      var t := Apply(s, Send(p, session));
      assert PromptsOK(t) by {
        forall q | q in t.prompts ensures PromptOK(t, q, t.prompts[q]) {
          SendKeepsPrompt(s, p, session, q);
        }
      }
      assert InTable(t.prompts[p]) by {
        StartingInTable(t.prompts[p]);
      }
      hide PromptsOK, PromptOK;
    }
  }

  lemma StartingInTable(p: Prompt)
    requires p.stage == Starting
    ensures InTable(p)
  {
  }

  lemma SendKeepsPrompt(s: State, p: nat, session: string, q: nat)
    requires Inv(s) && Enabled(s, Send(p, session)) && session !in s.streams && q in Apply(s, Send(p, session)).prompts
    ensures PromptOK(Apply(s, Send(p, session)), q, Apply(s, Send(p, session)).prompts[q])
  {
    hide ReplyComesLast, InPipe, StreamsOK;
    if q == p {
      hide PromptsOK;
      assert InPipe(s.wire, session) == [];
    } else {
      SomePrompt(s, q);
      hide PromptsOK, PipeOK, ReaderOK;
    }
  }

  lemma WriteKeeps(s: State, p: nat, ok: bool)
    requires Inv(s) && Enabled(s, Write(p, ok))
    ensures Inv(Apply(s, Write(p, ok)))
  {
    SomePrompt(s, p);
    var prompt := Apply(s, Write(p, ok)).prompts[p];
    assert PromptOK(s, p, prompt) by {
      hide ReplyComesLast, InPipe, PromptsOK, StreamsOK, PipeOK, ReaderOK;
    }
    hide InPipe, PromptOK, PromptsOK, StreamsOK, PipeOK;
    LocalChange(s, p, prompt);
  }

  lemma UpdateKeeps(s: State, session: string, e: Option<Event>)
    requires Inv(s) && e.Some? && Enabled(s, AgentUpdate(session, e)) && Disciplined(s, AgentUpdate(session, e))
    ensures Inv(Apply(s, AgentUpdate(session, e)))
  {
    hide ReplyComesLast, InPipe, InTable, PromptOK;
    var t := Apply(s, AgentUpdate(session, e));
    var p :| p in s.prompts && Outstanding(s, p) && s.prompts[p].session == session;
    OutstandingIsInTable(s, p);
    forall q | q in t.prompts ensures PromptOK(t, q, t.prompts[q]) {
      UpdateKeepsPrompt(s, session, e, p, q);
    }
    assert PipeOK(t) by {
      forall x: string | x !in t.streams ensures InPipe(t.wire, x) == [] {
        InPipeAppend(s.wire, Update(session, e), x);
      }
    }
    assert InTable(t.prompts[p]) == InTable(s.prompts[p]) by {
      SameStage(s.prompts[p], t.prompts[p]);
    }
  }

  /** An update that shows nothing may come at any time. */
  lemma BlankUpdateKeeps(s: State, session: string)
    requires Inv(s)
    ensures Inv(Apply(s, AgentUpdate(session, None)))
  {
    hide ReplyComesLast, InPipe, InTable, PromptOK;
    var t := Apply(s, AgentUpdate(session, None));
    forall q | q in t.prompts ensures PromptOK(t, q, t.prompts[q]) {
      BlankUpdateKeepsPrompt(s, session, q);
    }
    assert PipeOK(t) by {
      forall x: string | x !in t.streams ensures InPipe(t.wire, x) == [] {
        InPipeAppend(s.wire, Update(session, None), x);
      }
    }
  }

  lemma BlankUpdateKeepsPrompt(s: State, session: string, q: nat)
    requires Inv(s) && q in s.prompts
    ensures PromptOK(Apply(s, AgentUpdate(session, None)), q, s.prompts[q])
  {
    hide ReplyComesLast, InPipe, PipeOK, StreamsOK, ReaderOK;
    var prompt := s.prompts[q];
    SomePrompt(s, q);
    InPipeAppend(s.wire, Update(session, None), prompt.session);
    if prompt.stage == Waiting && prompt.answered && prompt.reply.None? {
      ReplyLastAppend(s.wire, Update(session, None), q, prompt.session);
    }
  }

  lemma SameStage(a: Prompt, b: Prompt)
    requires a.stage == b.stage
    ensures InTable(a) == InTable(b)
  {
  }

  lemma UpdateKeepsPrompt(s: State, session: string, e: Option<Event>, p: nat, q: nat)
    requires Inv(s) && Enabled(s, AgentUpdate(session, e))
    requires Outstanding(s, p) && s.prompts[p].session == session && session in s.streams && s.streams[session] == p
    requires q in s.prompts
    ensures PromptOK(Apply(s, AgentUpdate(session, e)), q, Apply(s, AgentUpdate(session, e)).prompts[q])
  {
    hide ReplyComesLast, InPipe, PipeOK, StreamsOK, ReaderOK;
    var prompt := s.prompts[q];
    SomePrompt(s, q);
    InPipeAppend(s.wire, Update(session, e), prompt.session);
    if prompt.stage == Waiting && prompt.answered && prompt.reply.None? {
      ReplyLastAppend(s.wire, Update(session, e), q, prompt.session);
    }
  }

  lemma ReplyKeeps(s: State, p: nat, ok: bool)
    requires Inv(s) && Disciplined(s, AgentReply(p, ok))
    ensures Inv(Apply(s, AgentReply(p, ok)))
  {
    hide ReplyComesLast, InPipe, InTable, PromptOK;
    var t := Apply(s, AgentReply(p, ok));
    forall q | q in t.prompts ensures PromptOK(t, q, t.prompts[q]) {
      ReplyKeepsPrompt(s, p, ok, q);
    }
    assert PipeOK(t) by {
      forall x: string | x !in t.streams ensures InPipe(t.wire, x) == [] {
        InPipeAppend(s.wire, Reply(p, ok), x);
      }
    }
    assert InTable(t.prompts[p]) == InTable(s.prompts[p]) by {
      SameStage(s.prompts[p], t.prompts[p]);
    }
  }

  lemma ReplyKeepsPrompt(s: State, p: nat, ok: bool, q: nat)
    requires Inv(s) && p in s.prompts && s.prompts[p].written && q in s.prompts
    ensures PromptOK(Apply(s, AgentReply(p, ok)), q, Apply(s, AgentReply(p, ok)).prompts[q])
  {
    hide ReplyComesLast, InPipe, StreamsOK, ReaderOK;
    var prompt := s.prompts[q];
    SomePrompt(s, q);
    InPipeAppend(s.wire, Reply(p, ok), prompt.session);
    if prompt.stage == Waiting && prompt.reply.None? {
      if prompt.answered {
        ReplyLastAppend(s.wire, Reply(p, ok), q, prompt.session);
      } else if q == p {
        FirstReplyIsLast(s.wire, p, ok, prompt.session);
      }
    }
  }

  /** The reader takes an update off the pipe: it moves into its hand, or shows nothing. */
  lemma ReadUpdateKeeps(s: State)
    requires Inv(s) && Enabled(s, ReadLine) && s.wire[0].Update?
    ensures Inv(Apply(s, ReadLine))
  {
    var t, line := Apply(s, ReadLine), s.wire[0];
    assert PipeOK(t) && StreamsOK(t) by {
      hide PromptsOK, PromptOK, ReplyComesLast;
    }
    forall q | q in t.prompts ensures PromptOK(t, q, t.prompts[q]) {
      ReadUpdateKeepsPrompt(s, q);
    }
    assert ReaderOK(t) by {
      hide PipeOK, ReplyComesLast;
      if line.session in s.streams && line.event.Some? {
        SomePrompt(s, s.streams[line.session]);
      }
    }
    hide PromptsOK, PromptOK, StreamsOK, PipeOK, ReaderOK;
  }

  lemma ReadUpdateKeepsPrompt(s: State, q: nat)
    requires Inv(s) && Enabled(s, ReadLine) && s.wire[0].Update? && q in s.prompts
    ensures PromptOK(Apply(s, ReadLine), q, s.prompts[q])
  {
    var prompt, line, rest := s.prompts[q], s.wire[0], InPipe(s.wire[1..], s.prompts[q].session);
    SomePrompt(s, q);
    ReadHand(s, q);
    InPipePop(s.wire, prompt.session);
    ReplyLastPop(s.wire, q, prompt.session);
    hide PromptsOK, StreamsOK, PipeOK, ReaderOK, InPipe, ReplyComesLast, Flows, Delivered, Apply, Enabled, Terminal;
    if line.session == prompt.session && line.event.Some? {
      FlowsTake(prompt, line.event.value, rest);
    }
  }

  /**
   Reading an update: the streams stay, the line is gone, and a prompt in the table has it in hand if it
   is its own.
   */
  lemma ReadHand(s: State, q: nat)
    requires Inv(s) && Enabled(s, ReadLine) && s.wire[0].Update? && q in s.prompts
    ensures var t, line := Apply(s, ReadLine), s.wire[0];
            && t.streams == s.streams && t.wire == s.wire[1..] && InHand(s.reader, q) == []
            && (InTable(s.prompts[q]) ==>
                  InHand(t.reader, q)
                  == if line.session == s.prompts[q].session && line.event.Some? then [line.event.value] else [])
  {
    hide Apply, Enabled, PromptsOK, PromptOK, PipeOK, ReaderOK, InTable;
    LedByTable(s, q);
    TakenUpdate(s);
  }

  lemma LedByTable(s: State, q: nat)
    requires PromptsOK(s) && q in s.prompts
    ensures InTable(s.prompts[q]) ==> s.prompts[q].session in s.streams && s.streams[s.prompts[q].session] == q
  {
    SomePrompt(s, q);
    hide PromptsOK, InPipe, ReplyComesLast, Flows, Delivered;
  }

  lemma TakenUpdate(s: State)
    requires Enabled(s, ReadLine) && s.wire[0].Update?
    ensures var t, line := Apply(s, ReadLine), s.wire[0];
            && t.streams == s.streams && t.wire == s.wire[1..] && s.reader == Scanning
            && t.reader == if line.session in s.streams && line.event.Some?
                           then Holding(s.streams[line.session], line.event.value) else Scanning
  {
  }

  lemma FlowsTake(prompt: Prompt, e: Event, rest: seq<Event>)
    ensures Flows(prompt, [], [e] + rest) == Flows(prompt, [e], rest)
  {
    assert prompt.channel + [] + ([e] + rest) == prompt.channel + [e] + rest;
  }

  lemma InPipePop(wire: seq<Line>, session: string)
    requires wire != []
    ensures InPipe(wire, session) ==
            if wire[0].Update? && wire[0].session == session && wire[0].event.Some?
            then [wire[0].event.value] + InPipe(wire[1..], session)
            else InPipe(wire[1..], session)
  {
  }

  lemma ReplyLastPop(wire: seq<Line>, p: nat, session: string)
    requires wire != []
    ensures ReplyComesLast(wire, p, session) ==>
            if wire[0].Reply? && wire[0].prompt == p then InPipe(wire[1..], session) == []
            else ReplyComesLast(wire[1..], p, session)
  {
  }

  /** The reader takes a reply off the pipe; the prompt it settles has nothing left in the pipe. */
  lemma ReadReplyKeeps(s: State)
    requires Inv(s) && Enabled(s, ReadLine) && s.wire[0].Reply?
    ensures Inv(Apply(s, ReadLine))
  {
    var p := s.wire[0].prompt;
    if At(s, p, Waiting) && s.prompts[p].reply.None? {
      var settled := s.prompts[p].(reply := Some(s.wire[0].ok));
      SettledPromptOK(s, p);
      hide PromptsOK, PromptOK, StreamsOK, PipeOK, InPipe;
      LocalChange(s, p, settled);
      PopReplyKeeps(With(s, p, settled));
      assert Apply(s, ReadLine) == With(s, p, settled).(wire := s.wire[1..]);
    } else {
      PopReplyKeeps(s);
    }
  }

  lemma SettledPromptOK(s: State, p: nat)
    requires Inv(s) && Enabled(s, ReadLine) && s.wire[0].Reply? && s.wire[0].prompt == p
    requires At(s, p, Waiting) && s.prompts[p].reply.None?
    ensures PromptOK(s, p, s.prompts[p].(reply := Some(s.wire[0].ok)))
  {
    var prompt := s.prompts[p];
    SomePrompt(s, p);
    assert s.wire[0] in s.wire;
    InPipePop(s.wire, prompt.session);
    ReplyLastPop(s.wire, p, prompt.session);
    FlowsReply(prompt, prompt.(reply := Some(s.wire[0].ok)), InHand(s.reader, p), InPipe(s.wire, prompt.session));
    hide PromptsOK, StreamsOK, ReaderOK, InPipe, ReplyComesLast, Flows, Delivered;
  }

  /** Dropping a reply nobody waits for any more. */
  lemma PopReplyKeeps(s: State)
    requires Inv(s) && s.wire != [] && s.wire[0].Reply?
    requires !(At(s, s.wire[0].prompt, Waiting) && s.prompts[s.wire[0].prompt].reply.None?)
    ensures Inv(s.(wire := s.wire[1..]))
  {
    var t := s.(wire := s.wire[1..]);
    assert PromptsOK(t) by {
      forall q | q in t.prompts ensures PromptOK(t, q, t.prompts[q]) {
        SomePrompt(s, q);
        InPipePop(s.wire, s.prompts[q].session);
        ReplyLastPop(s.wire, q, s.prompts[q].session);
        hide PromptsOK, StreamsOK, ReaderOK, PipeOK, InPipe, ReplyComesLast, Flows, Delivered;
      }
    }
    assert PipeOK(t) by {
      hide PromptsOK, PromptOK, ReplyComesLast, StreamsOK, InPipe;
      forall x: string | x !in t.streams ensures InPipe(t.wire, x) == [] {
        InPipePop(s.wire, x);
      }
    }
    hide PromptsOK, PipeOK;
  }

  lemma FlowsReply(before: Prompt, after: Prompt, hand: seq<Event>, pipe: seq<Event>)
    requires before.channel == after.channel && before.emitted == after.emitted
    ensures Flows(before, hand, pipe) == Flows(after, hand, pipe)
    ensures Terminal(before) == Terminal(after) ==> Delivered(before) == Delivered(after)
  {
  }

  lemma ReaderSendKeeps(s: State)
    requires Inv(s) && Enabled(s, ReaderSend)
    ensures Inv(Apply(s, ReaderSend))
  {
    hide ReplyComesLast, InPipe, InTable;
    var t, p := Apply(s, ReaderSend), s.reader.prompt;
    assert PromptsOK(t) by {
      hide StreamsOK, PipeOK;
      forall q | q in t.prompts ensures PromptOK(t, q, t.prompts[q]) {
        ReaderSendKeepsPrompt(s, q);
      }
    }
    SameStage(s.prompts[p], t.prompts[p]);
    hide PromptsOK, PromptOK;
  }

  lemma ReaderSendKeepsPrompt(s: State, q: nat)
    requires Inv(s) && Enabled(s, ReaderSend) && q in s.prompts
    ensures PromptOK(Apply(s, ReaderSend), q, Apply(s, ReaderSend).prompts[q])
  {
    SomePrompt(s, q);
    hide PromptsOK, StreamsOK, PipeOK, InPipe, ReplyComesLast;
    var prompt := s.prompts[q];
    if q == s.reader.prompt {
      assert prompt.channel + [s.reader.event] + [] == prompt.channel + [s.reader.event];
    }
  }

  lemma ConsumeKeeps(s: State, p: nat)
    requires Inv(s) && Enabled(s, Consume(p))
    ensures Inv(Apply(s, Consume(p)))
  {
    SomePrompt(s, p);
    var prompt := Apply(s, Consume(p)).prompts[p];
    assert PromptOK(s, p, prompt) by {
      hide ReplyComesLast, InPipe, PromptsOK, StreamsOK, PipeOK, ReaderOK;
    }
    hide InPipe, PromptOK, PromptsOK, StreamsOK, PipeOK;
    LocalChange(s, p, prompt);
  }

  lemma TerminateKeeps(s: State, p: nat)
    requires Inv(s) && Enabled(s, Terminate(p))
    ensures Inv(Apply(s, Terminate(p)))
  {
    hide PromptOK, InPipe, PromptsOK, StreamsOK, PipeOK, Terminal;
    SomePrompt(s, p);
    EndingPromptOK(s, p);
    LocalChange(s, p, Ended(s.prompts[p]));
  }

  lemma FlowsEnd(prompt: Prompt)
    requires Flows(prompt, [], [])
    ensures Delivered(Ended(prompt))
  {
    assert prompt.channel + [] + [] == prompt.channel;
  }

  lemma EndingPromptOK(s: State, p: nat)
    requires ReaderOK(s) && p in s.prompts && At(s, p, Waiting) && s.prompts[p].reply.Some?
             && PromptOK(s, p, s.prompts[p])
    ensures PromptOK(s, p, Ended(s.prompts[p]))
  {
    hide InPipe, ReplyComesLast, Flows, Delivered;
    FlowsEnd(s.prompts[p]);
  }

  lemma CloseKeeps(s: State, p: nat)
    requires Inv(s) && Enabled(s, Close(p))
    ensures Inv(Apply(s, Close(p)))
  {
    SomePrompt(s, p);
    var prompt := Apply(s, Close(p)).prompts[p];
    assert PromptOK(s, p, prompt) by {
      hide ReplyComesLast, InPipe, PromptsOK, StreamsOK, PipeOK, ReaderOK;
    }
    hide InPipe, PromptOK, PromptsOK, StreamsOK, PipeOK;
    LocalChange(s, p, prompt);
  }

  lemma RemoveKeeps(s: State, p: nat)
    requires Inv(s) && Enabled(s, Remove(p))
    ensures Inv(Apply(s, Remove(p)))
  {
    hide ReplyComesLast, InPipe;
    var t := Apply(s, Remove(p));
    SomePrompt(s, p);
    assert PromptsOK(t) by {
      hide StreamsOK, PipeOK, ReaderOK;
      forall q | q in t.prompts ensures PromptOK(t, q, t.prompts[q]) {
        RemoveKeepsPrompt(s, p, q);
      }
    }
    assert InPipe(s.wire, s.prompts[p].session) == [];
    hide PromptsOK, PromptOK;
    assert StreamsOK(t) by {
      hide PipeOK;
    }
    hide StreamsOK;
  }

  lemma RemoveKeepsPrompt(s: State, p: nat, q: nat)
    requires Inv(s) && Enabled(s, Remove(p)) && q in s.prompts
    ensures PromptOK(Apply(s, Remove(p)), q, Apply(s, Remove(p)).prompts[q])
  {
    hide ReplyComesLast, InPipe, StreamsOK, PipeOK, ReaderOK;
    SomePrompt(s, p);
    SomePrompt(s, q);
    hide PromptsOK;
  }

  lemma InvStep(s: State, a: Step)
    requires Inv(s) && Enabled(s, a) && Disciplined(s, a)
    ensures Inv(Apply(s, a))
  {
    hide Inv, Apply;
    match a
    case Send(p, session) => SendKeeps(s, p, session);
    case Write(p, ok) => WriteKeeps(s, p, ok);
    case AgentUpdate(session, e) =>
      if e.Some? {
        UpdateKeeps(s, session, e);
      } else {
        BlankUpdateKeeps(s, session);
      }
    case AgentReply(p, ok) => ReplyKeeps(s, p, ok);
    case ReadLine =>
      if s.wire[0].Update? {
        ReadUpdateKeeps(s);
      } else {
        ReadReplyKeeps(s);
      }
    case ReaderSend => ReaderSendKeeps(s);
    case Consume(p) => ConsumeKeeps(s, p);
    case Terminate(p) => TerminateKeeps(s, p);
    case Remove(p) => RemoveKeeps(s, p);
    case Close(p) => CloseKeeps(s, p);
  }

  // ---- What every disciplined run keeps ----

  lemma {:induction false} DisciplinedRunKeepsInv(run: seq<Step>)
    requires Runs(run) && DisciplinedRun(run)
    ensures Inv(After(run))
    decreases |run|
  {
    if run != [] {
      var front := run[..|run| - 1];
      DisciplinedRunKeepsInv(front);
      InvStep(After(front), run[|run| - 1]);
    }
  }

  /** Chunks and process events only, nothing terminal. */
  predicate AllUpdates(events: seq<Event>) {
    events == [] || (var e := events[|events| - 1]; (e.Delta? || e.Process?) && AllUpdates(events[..|events| - 1]))
  }

  lemma EmittedStep(s: State, a: Step, p: nat)
    requires Enabled(s, a) && p in Apply(s, a).prompts
    requires p in s.prompts ==> AllUpdates(s.prompts[p].emitted)
    ensures AllUpdates(Apply(s, a).prompts[p].emitted)
  {
    hide Terminal, HasRoom;
    if a.AgentUpdate? && a.event.Some? && p in s.prompts {
      assert (s.prompts[p].emitted + [a.event.value])[..|s.prompts[p].emitted|] == s.prompts[p].emitted;
    }
  }

  /** What the agent emits for a prompt is never a terminal event. */
  lemma {:induction false} EmittedAreUpdates(run: seq<Step>, p: nat)
    requires Runs(run) && p in After(run).prompts
    ensures AllUpdates(After(run).prompts[p].emitted)
    decreases |run|
  {
    if run != [] {
      var front := run[..|run| - 1];
      if p in After(front).prompts {
        EmittedAreUpdates(front, p);
      }
      EmittedStep(After(front), run[|run| - 1], p);
    }
  }

  /**
   In every disciplined interleaving: no send hits a closed channel, a session has at most one
   prompt in flight, a prompt's channel always carries a prefix of the agent's updates for it in
   the order they were written, and a closed channel carries all of them and then one terminal
   event, `Finish` exactly when the reply was a success.
   */
  lemma ChannelsCarryTheirSession(run: seq<Step>)
    requires Runs(run) && DisciplinedRun(run)
    ensures var s := After(run);
            && !s.panicked
            && (forall p, q | p in s.prompts && q in s.prompts && InTable(s.prompts[p]) && InTable(s.prompts[q])
                              && s.prompts[p].session == s.prompts[q].session :: p == q)
            && (forall p | p in s.prompts && (s.prompts[p].stage == Starting || s.prompts[p].stage == Waiting) ::
                  s.prompts[p].channel <= s.prompts[p].emitted)
            && (forall p | p in s.prompts && s.prompts[p].stage == Closed ::
                  s.prompts[p].channel
                      == s.prompts[p].emitted + [if s.prompts[p].reply == Some(true) then Finish else Error])
  {
    DisciplinedRunKeepsInv(run);
    var s := After(run);
    hide InPipe, ReplyComesLast;
    forall p | p in s.prompts ensures PromptOK(s, p, s.prompts[p]) {
      SomePrompt(s, p);
    }
  }

  /** Nothing reaches a channel any more once it is closed, and it is never closed again. */
  lemma ClosedIsFinal(run: seq<Step>, a: Step, p: nat)
    requires Runs(run) && DisciplinedRun(run) && At(After(run), p, Closed)
    requires Enabled(After(run), a) && Disciplined(After(run), a)
    ensures At(Apply(After(run), a), p, Closed) && a != Close(p)
    ensures Apply(After(run), a).prompts[p].channel == After(run).prompts[p].channel
  {
    hide PipeOK, PromptsOK, StreamsOK, Apply, Enabled;
    DisciplinedRunKeepsInv(run);
    ClosedStep(After(run), a, p);
  }

  lemma ClosedStep(s: State, a: Step, p: nat)
    requires ReaderOK(s) && At(s, p, Closed) && Enabled(s, a) && Disciplined(s, a)
    ensures At(Apply(s, a), p, Closed) && a != Close(p)
    ensures Apply(s, a).prompts[p].channel == s.prompts[p].channel
  {
    hide HasRoom, Terminal;
  }

  // ---- Exactly when a send can hit a closed channel ----

  /** A step of the goroutines already running: no line of the agent, no new prompt, no cancellation, no shutdown. */
  predicate Own(a: Step) {
    a.Write? || a.ReadLine? || a.ReaderSend? || a.Consume? || a.Terminate? || a.Remove? || a.Close? || a.NotifyStream?
  }

  predicate OwnRun(s: State, run: seq<Step>)
    decreases |run|
  {
    run == [] || (Own(run[0]) && Enabled(s, run[0]) && OwnRun(Apply(s, run[0]), run[1..]))
  }

  function OwnAfter(s: State, run: seq<Step>): State
    requires OwnRun(s, run)
    decreases |run|
  {
    if run == [] then s else OwnAfter(Apply(s, run[0]), run[1..])
  }

  ghost predicate Panics(s: State, run: seq<Step>) {
    OwnRun(s, run) && OwnAfter(s, run).panicked
  }

  /** The running goroutines can bring the program to a panic by themselves. */
  ghost predicate CanPanic(s: State) {
    exists run :: Panics(s, run)
  }

  /** The prompt can end without another line from the agent: not written yet, settled, or ending already. */
  predicate CanEnd(p: Prompt) {
    p.stage != Waiting || p.reply.Some?
  }

  /** Among these lines a visible update of the session comes after a reply to the prompt, or at once if `free`. */
  predicate LateUpdate(wire: seq<Line>, p: nat, session: string, free: bool) {
    wire != [] &&
    ((free && wire[0].Update? && wire[0].session == session && wire[0].event.Some?)
     || LateUpdate(wire[1..], p, session, free || (wire[0].Reply? && wire[0].prompt == p)))
  }

  /** The session's prompt in the table can end before the reader has sent some update in the pipe. */
  predicate OvertakenIn(s: State, session: string) {
    && session in s.streams && s.streams[session] in s.prompts
    && LateUpdate(s.wire, s.streams[session], session, CanEnd(s.prompts[s.streams[session]]))
  }

  /** The reader holds, a shutdown owes, or the pipe contains something for a prompt that can end first. */
  ghost predicate Exposed(s: State) {
    || (s.reader.Holding? && s.reader.prompt in s.prompts && CanEnd(s.prompts[s.reader.prompt]))
    || s.sweep != {}
    || exists session :: OvertakenIn(s, session)
  }

  ghost predicate StreamsSane(s: State) {
    forall x | x in s.streams ::
      s.streams[x] in s.prompts && s.prompts[s.streams[x]].session == x && InTable(s.prompts[s.streams[x]])
  }

  ghost predicate SweepSane(s: State) {
    (s.sweep != {} ==> s.dead) && forall p | p in s.sweep :: p in s.prompts && CanEnd(s.prompts[p])
  }

  /** What every run keeps, disciplined or not. */
  ghost predicate Sane(s: State) {
    (s.reader.Holding? ==> s.reader.prompt in s.prompts) && SweepSane(s) && StreamsSane(s)
  }

  /** Prompts stay, under their session; one that can end always can, unless its request is written now. */
  predicate StaysPut(s: State, a: Step, p: nat)
    requires Enabled(s, a) && p in s.prompts
  {
    var t := Apply(s, a);
    && p in t.prompts && t.prompts[p].session == s.prompts[p].session
    && (CanEnd(s.prompts[p]) && (a == Write(p, true) ==> s.dead) ==> CanEnd(t.prompts[p]))
    && (InTable(s.prompts[p]) && a != Remove(p) ==> InTable(t.prompts[p]))
  }

  predicate OfAgent(a: Step) {
    a.Send? || a.Write? || a.AgentUpdate? || a.AgentReply?
  }

  predicate OfReader(a: Step) {
    a.ReadLine? || a.ReaderSend? || a.Consume?
  }

  lemma StaysPutByAgent(s: State, a: Step, p: nat)
    requires Enabled(s, a) && p in s.prompts && OfAgent(a)
    ensures StaysPut(s, a, p)
  {
    hide HasRoom, Terminal;
  }

  lemma StaysPutByReader(s: State, a: Step, p: nat)
    requires Enabled(s, a) && p in s.prompts && OfReader(a)
    ensures StaysPut(s, a, p)
  {
    hide HasRoom, Terminal;
  }

  lemma StaysPutByEnding(s: State, a: Step, p: nat)
    requires Enabled(s, a) && p in s.prompts && !OfAgent(a) && !OfReader(a)
    ensures StaysPut(s, a, p)
  {
    hide HasRoom, Terminal;
  }

  lemma PromptsStay(s: State, a: Step, p: nat)
    requires Enabled(s, a) && p in s.prompts
    ensures StaysPut(s, a, p)
  {
    hide StaysPut, Enabled, Apply;
    if OfAgent(a) {
      StaysPutByAgent(s, a, p);
    } else if OfReader(a) {
      StaysPutByReader(s, a, p);
    } else {
      StaysPutByEnding(s, a, p);
    }
  }

  lemma StreamsStaySane(s: State, a: Step)
    requires StreamsSane(s) && Enabled(s, a)
    ensures StreamsSane(Apply(s, a))
  {
    var t := Apply(s, a);
    forall x | x in t.streams
      ensures t.streams[x] in t.prompts && t.prompts[t.streams[x]].session == x && InTable(t.prompts[t.streams[x]])
    {
      if x in s.streams && t.streams[x] == s.streams[x] {
        PromptsStay(s, a, s.streams[x]);
        assert a != Remove(s.streams[x]);
      } else {
        assert a.Send? && a.session == x && t.streams[x] == a.prompt && x !in s.streams;
      }
      hide StreamsSane, HasRoom, Terminal;
    }
    hide Apply, Enabled;
  }

  lemma SweepStaysSane(s: State, a: Step)
    requires SweepSane(s) && StreamsSane(s) && Enabled(s, a)
    ensures SweepSane(Apply(s, a))
  {
    var t := Apply(s, a);
    assert t.sweep != {} ==> t.dead;
    forall p | p in t.sweep ensures p in t.prompts && CanEnd(t.prompts[p]) {
      if p in s.sweep {
        PromptsStay(s, a, p);
      } else {
        assert a.ShutDown? && p in s.streams.Values;
        hide SweepSane;
      }
      hide HasRoom, Terminal;
    }
    hide Apply, Enabled;
  }

  lemma SaneStep(s: State, a: Step)
    requires Sane(s) && Enabled(s, a)
    ensures Sane(Apply(s, a))
  {
    SweepStaysSane(s, a);
    StreamsStaySane(s, a);
    var t := Apply(s, a);
    if t.reader.Holding? {
      if s.reader.Holding? && t.reader.prompt == s.reader.prompt {
        PromptsStay(s, a, s.reader.prompt);
      }
      hide SweepSane, HasRoom, Terminal;
    }
    hide SweepSane, StreamsSane, Enabled, Apply;
  }

  lemma {:induction false} RunIsSane(run: seq<Step>)
    requires Runs(run)
    ensures Sane(After(run))
    decreases |run|
  {
    if run != [] {
      RunIsSane(run[..|run| - 1]);
      SaneStep(After(run[..|run| - 1]), run[|run| - 1]);
    }
  }

  // ---- Unexposed states are safe ----

  lemma {:induction false} LateUpdateFree(wire: seq<Line>, p: nat, session: string)
    requires LateUpdate(wire, p, session, false)
    ensures LateUpdate(wire, p, session, true)
  {
    if !(wire[0].Reply? && wire[0].prompt == p) {
      LateUpdateFree(wire[1..], p, session);
    }
  }

  /** A prompt that cannot end needs the reader to take its reply off the pipe. */
  lemma EndNeedsReply(s: State, a: Step, p: nat)
    requires Enabled(s, a) && Own(a) && p in s.prompts && !CanEnd(s.prompts[p])
    ensures p in Apply(s, a).prompts
    ensures CanEnd(Apply(s, a).prompts[p]) ==> a == ReadLine && s.wire[0].Reply? && s.wire[0].prompt == p
  {
    hide HasRoom, Terminal;
  }

  /** Own steps add no stream and no line; only reading takes a line. */
  lemma OwnKeeps(s: State, a: Step, x: string)
    requires Enabled(s, a) && Own(a)
    ensures x in Apply(s, a).streams ==> x in s.streams && Apply(s, a).streams[x] == s.streams[x]
    ensures Apply(s, a).wire == if a == ReadLine then s.wire[1..] else s.wire
  {
    hide HasRoom, Terminal;
  }

  lemma StaysNotOvertaken(s: State, a: Step, x: string)
    requires Enabled(s, a) && Own(a) && StreamsSane(s) && !OvertakenIn(s, x)
    ensures !OvertakenIn(Apply(s, a), x)
  {
    var t := Apply(s, a);
    OwnKeeps(s, a, x);
    if x in t.streams {
      var p := s.streams[x];
      if !CanEnd(s.prompts[p]) {
        EndNeedsReply(s, a, p);
      }
      assert a == ReadLine ==> s.wire != [];
      hide Apply, Enabled, CanEnd, StreamsSane;
      var free := CanEnd(s.prompts[p]);
      if LateUpdate(t.wire, p, x, false) {
        LateUpdateFree(t.wire, p, x);
      }
    }
  }

  lemma StaysNotHolding(s: State, a: Step)
    requires Enabled(s, a) && Own(a) && Sane(s) && !Exposed(s) && Apply(s, a).reader.Holding?
    ensures Apply(s, a).reader.prompt in Apply(s, a).prompts && !CanEnd(Apply(s, a).prompts[Apply(s, a).reader.prompt])
  {
    if a == ReadLine {
      assert !OvertakenIn(s, s.wire[0].session);
      hide Exposed, SweepSane;
    } else {
      assert Apply(s, a).reader == s.reader by { hide Exposed, Sane; }
      EndNeedsReply(s, a, s.reader.prompt);
      hide Apply, Enabled, SweepSane, StreamsSane;
    }
  }

  lemma StaysUnexposed(s: State, a: Step)
    requires Sane(s) && !Exposed(s) && !s.panicked && Enabled(s, a) && Own(a)
    ensures !Exposed(Apply(s, a)) && !Apply(s, a).panicked
  {
    var t := Apply(s, a);
    assert t.sweep == {} && !t.panicked by {
      hide StreamsSane, SweepSane, HasRoom, Terminal;
    }
    if t.reader.Holding? {
      StaysNotHolding(s, a);
    }
    forall x ensures !OvertakenIn(t, x) {
      StaysNotOvertaken(s, a, x);
    }
    hide OvertakenIn, Apply, Enabled;
  }

  lemma {:induction false} SafeRun(s: State, run: seq<Step>)
    requires Sane(s) && !Exposed(s) && !s.panicked && OwnRun(s, run)
    ensures !OwnAfter(s, run).panicked
    decreases |run|
  {
    if run != [] {
      SaneStep(s, run[0]);
      StaysUnexposed(s, run[0]);
      hide Sane, Exposed, Apply, Enabled;
      SafeRun(Apply(s, run[0]), run[1..]);
    }
  }

  // ---- Exposed states can panic ----

  lemma StepBack(s: State, a: Step)
    requires Enabled(s, a) && Own(a) && CanPanic(Apply(s, a))
    ensures CanPanic(s)
  {
    hide Enabled, Apply, Own;
    var run :| Panics(Apply(s, a), run);
    assert ([a] + run)[1..] == run;
    assert Panics(s, [a] + run);
  }

  lemma PanicNow(s: State)
    requires s.panicked
    ensures CanPanic(s)
  {
    assert Panics(s, []);
  }

  /** How far a prompt is from its close. */
  function Distance(stage: Stage): nat {
    match stage
    case Starting => 4
    case Waiting => 3
    case Ending => 2
    case Removed => 1
    case Closed => 0
  }

  /** The next step towards the close of a prompt that can end. */
  function TowardsClose(s: State, p: nat): Step
    requires p in s.prompts
  {
    match s.prompts[p].stage
    case Starting => Write(p, false)
    case Waiting => if HasRoom(s.prompts[p]) then Terminate(p) else Consume(p)
    case Ending => Remove(p)
    case Removed => Close(p)
    case Closed => if p in s.sweep then NotifyStream(p) else ReaderSend
  }

  function Unread(p: Prompt): int {
    |p.channel| - p.consumed
  }

  lemma TowardsCloseStep(s: State, p: nat)
    requires p in s.prompts && CanEnd(s.prompts[p]) && s.prompts[p].stage != Closed
    ensures var a := TowardsClose(s, p);
            && Enabled(s, a) && Own(a)
            && var t := Apply(s, a);
               && p in t.prompts && CanEnd(t.prompts[p]) && t.reader == s.reader && t.sweep == s.sweep
               && (Distance(t.prompts[p].stage) < Distance(s.prompts[p].stage)
                   || (t.prompts[p].stage == s.prompts[p].stage
                       && 0 <= Unread(t.prompts[p]) < Unread(s.prompts[p])))
  {
    hide Terminal;
  }

  /** A prompt can end before the reader's send or the shutdown's notice that is meant for it. */
  lemma {:induction false} EndThenPanic(s: State, p: nat)
    requires p in s.prompts && CanEnd(s.prompts[p])
    requires p in s.sweep || (s.reader.Holding? && s.reader.prompt == p)
    ensures CanPanic(s)
    decreases Distance(s.prompts[p].stage), Unread(s.prompts[p])
  {
    var a := TowardsClose(s, p);
    if s.prompts[p].stage == Closed {
      PanicNow(Apply(s, a));
    } else {
      TowardsCloseStep(s, p);
      hide Apply, Enabled, TowardsClose, Own, CanPanic;
      EndThenPanic(Apply(s, a), p);
    }
    hide CanPanic;
    StepBack(s, a);
  }

  /** The reader gets rid of what it holds, consuming what is in its way. */
  lemma ReleaseStep(s: State, x: string) returns (a: Step)
    requires OvertakenIn(s, x) && s.reader.Holding? && s.reader.prompt in s.prompts
             && !CanEnd(s.prompts[s.reader.prompt])
    ensures Own(a) && Enabled(s, a) && OvertakenIn(Apply(s, a), x) && Apply(s, a).wire == s.wire
    ensures var t, q := Apply(s, a), s.reader.prompt;
            t.reader == Scanning
            || (t.reader == s.reader && q in t.prompts
                && 0 <= Unread(t.prompts[q]) < Unread(s.prompts[q]))
  {
    a := if HasRoom(s.prompts[s.reader.prompt]) then ReaderSend else Consume(s.reader.prompt);
    hide LateUpdate;
  }

  /** Reading on, until the late update is in hand. */
  lemma ReadOnStep(s: State, x: string)
    requires OvertakenIn(s, x) && s.reader == Scanning && StreamsSane(s)
    ensures Enabled(s, ReadLine)
    ensures var t := Apply(s, ReadLine);
            OvertakenIn(t, x)
                || (t.reader.Holding? && t.reader.prompt in t.prompts && CanEnd(t.prompts[t.reader.prompt]))
  {
    var p := s.streams[x];
    if LateUpdate(s.wire[1..], p, x, false) {
      LateUpdateFree(s.wire[1..], p, x);
    }
  }

  function Backlog(s: State): int {
    if s.reader.Holding? && s.reader.prompt in s.prompts
    then Unread(s.prompts[s.reader.prompt]) else 0
  }

  lemma {:induction false} ReadThenPanic(s: State, x: string)
    requires Sane(s) && OvertakenIn(s, x)
    ensures CanPanic(s)
    decreases |s.wire|, if s.reader.Holding? then 1 else 0, Backlog(s)
  {
    if s.reader.Holding? && CanEnd(s.prompts[s.reader.prompt]) {
      hide OvertakenIn, SweepSane, StreamsSane;
      EndThenPanic(s, s.reader.prompt);
    } else if s.reader.Holding? {
      var a := ReleaseStep(s, x);
      SaneStep(s, a);
      hide OvertakenIn, Sane, CanPanic, Enabled, Apply, Own, CanEnd;
      ReadThenPanic(Apply(s, a), x);
      StepBack(s, a);
    } else {
      ReadOnStep(s, x);
      SaneStep(s, ReadLine);
      var t := Apply(s, ReadLine);
      assert |t.wire| < |s.wire|;
      hide OvertakenIn, Sane, CanPanic, Enabled, Apply, CanEnd;
      if OvertakenIn(t, x) {
        ReadThenPanic(t, x);
      } else {
        EndThenPanic(t, t.reader.prompt);
      }
      StepBack(s, ReadLine);
    }
  }

  /**
   In every reachable state that has not panicked, the goroutines already running can bring about a
   send on a closed channel exactly when the reader holds an update of a prompt that can end, or a
   shutdown still has a stream to notify, or the pipe has an update, for a prompt in the table, that
   comes when the prompt can have ended: it is settled or not written yet, or its reply comes first.
   */
  lemma PanicReachableIffExposed(run: seq<Step>)
    requires Runs(run) && !After(run).panicked
    ensures CanPanic(After(run)) <==> Exposed(After(run))
  {
    var s := After(run);
    RunIsSane(run);
    if Exposed(s) {
      ExposedCanPanic(s);
    } else {
      hide Sane, Exposed, Runs, After;
      forall steps ensures !Panics(s, steps) {
        if OwnRun(s, steps) {
          SafeRun(s, steps);
        }
      }
    }
  }

  lemma ExposedCanPanic(s: State)
    requires Sane(s) && Exposed(s)
    ensures CanPanic(s)
  {
    hide CanPanic, StreamsSane;
    if s.reader.Holding? && CanEnd(s.prompts[s.reader.prompt]) {
      EndThenPanic(s, s.reader.prompt);
    } else if p :| p in s.sweep {
      EndThenPanic(s, p);
    } else {
      var x :| OvertakenIn(s, x);
      ReadThenPanic(s, x);
    }
  }

  // ---- Outside the discipline the reader's look-up and its send come apart ----

  lemma Extend(run: seq<Step>, a: Step)
    requires Runs(run) && Enabled(After(run), a)
    ensures Runs(run + [a]) && After(run + [a]) == Apply(After(run), a)
  {
    assert (run + [a])[..|run|] == run;
  }

  /** An update the agent sends after its reply can find the stream, and then the channel closed. */
  lemma LateUpdateCanPanic() returns (run: seq<Step>)
    ensures Runs(run) && After(run).panicked
    ensures run == [Send(0, "s"), Write(0, true), AgentReply(0, true), ReadLine, AgentUpdate("s", Some(Delta("x"))),
                    ReadLine, Terminate(0), Remove(0), Close(0), ReaderSend]
  {
    hide Runs, After, Apply, Enabled;
    run := AnsweredPrompt();
    run := TakeUpdate(run);
    run := LoseRace(run);
  }

  /** A cancellation can close the channel under the reader. */
  lemma CancelCanPanic() returns (run: seq<Step>)
    ensures Runs(run) && After(run).panicked
    ensures run == [Send(0, "s"), Write(0, true), AgentUpdate("s", Some(Delta("x"))), ReadLine, Cancel(0),
                    Terminate(0), Remove(0), Close(0), ReaderSend]
  {
    run := StartPrompt();
    hide Runs, After;
    run := TakeUpdate(run);
    Extend(run, Cancel(0));
    run := run + [Cancel(0)];
    run := LoseRace(run);
  }

  /** The prompt ends while the reader still has an update of it in hand. */
  lemma LoseRace(before: seq<Step>) returns (run: seq<Step>)
    requires Runs(before) && At(After(before), 0, Waiting) && After(before).prompts[0].reply.Some?
    requires HasRoom(After(before).prompts[0]) && After(before).reader == Holding(0, Delta("x"))
    ensures run == before + [Terminate(0), Remove(0), Close(0), ReaderSend] && Runs(run) && After(run).panicked
  {
    run := EndPrompt(before);
    Extend(run, ReaderSend);
    run := run + [ReaderSend];
  }

  /** The agent writes an update and the reader looks its stream up. */
  lemma TakeUpdate(before: seq<Step>) returns (run: seq<Step>)
    requires Runs(before) && At(After(before), 0, Waiting) && After(before).wire == []
             && After(before).reader == Scanning
    requires After(before).streams == map["s" := 0]
    ensures run == before + [AgentUpdate("s", Some(Delta("x"))), ReadLine] && Runs(run)
    ensures After(run).reader == Holding(0, Delta("x")) && At(After(run), 0, Waiting)
    ensures After(run).prompts[0].reply == After(before).prompts[0].reply
    ensures After(run).prompts[0].channel == After(before).prompts[0].channel
    ensures After(run).prompts[0].consumed == After(before).prompts[0].consumed
  {
    Extend(before, AgentUpdate("s", Some(Delta("x"))));
    run := before + [AgentUpdate("s", Some(Delta("x")))];
    Extend(run, ReadLine);
    run := run + [ReadLine];
  }

  /** A shutdown can notify a stream whose prompt has ended in the meantime. */
  lemma ShutDownCanPanic() returns (run: seq<Step>)
    ensures Runs(run) && After(run).panicked
    ensures run == [Send(0, "s"), Write(0, true), ShutDown, Terminate(0), Remove(0), Close(0), NotifyStream(0)]
  {
    run := StartPrompt();
    hide Runs, After;
    assert 0 in After(run).streams.Values by {
      assert After(run).streams["s"] == 0;
    }
    Extend(run, ShutDown);
    run := run + [ShutDown];
    run := EndPrompt(run);
    Extend(run, NotifyStream(0));
    run := run + [NotifyStream(0)];
  }

  lemma StartPrompt() returns (run: seq<Step>)
    ensures run == [Send(0, "s"), Write(0, true)] && Runs(run)
    ensures After(run) == INITIAL.(streams := map["s" := 0],
                                   prompts := map[0 := Prompt("s", Waiting, None, [], 0, true, false, [])])
  {
    Extend([], Send(0, "s"));
    run := [] + [Send(0, "s")];
    Extend(run, Write(0, true));
    run := run + [Write(0, true)];
  }

  lemma AnsweredPrompt() returns (run: seq<Step>)
    ensures run == [Send(0, "s"), Write(0, true), AgentReply(0, true), ReadLine] && Runs(run)
    ensures After(run).streams == map["s" := 0] && After(run).wire == [] && After(run).reader == Scanning
    ensures At(After(run), 0, Waiting) && After(run).prompts[0].reply == Some(true)
    ensures HasRoom(After(run).prompts[0])
  {
    run := StartPrompt();
    Extend(run, AgentReply(0, true));
    run := run + [AgentReply(0, true)];
    Extend(run, ReadLine);
    run := run + [ReadLine];
  }

  /** The prompt's goroutine sends its terminal event, removes the stream and closes the channel. */
  lemma EndPrompt(before: seq<Step>) returns (run: seq<Step>)
    requires Runs(before) && At(After(before), 0, Waiting) && After(before).prompts[0].reply.Some?
    requires HasRoom(After(before).prompts[0])
    ensures run == before + [Terminate(0), Remove(0), Close(0)] && Runs(run)
    ensures At(After(run), 0, Closed)
    ensures After(run).reader == After(before).reader && After(run).sweep == After(before).sweep
  {
    Extend(before, Terminate(0));
    run := before + [Terminate(0)];
    Extend(run, Remove(0));
    run := run + [Remove(0)];
    Extend(run, Close(0));
    run := run + [Close(0)];
  }

  // ---- How many terminal events a prompt gets ----

  function TerminalsIn(events: seq<Event>): nat {
    if events == [] then 0
    else
      var last := events[|events| - 1];
      TerminalsIn(events[..|events| - 1]) + if last.Finish? || last.Error? then 1 else 0
  }

  /** The step delivers the shutdown's error to the prompt. */
  predicate Notices(s: State, a: Step, p: nat) {
    a == NotifyStream(p) && p in s.prompts && s.prompts[p].stage != Closed && HasRoom(s.prompts[p])
  }

  function NoticesOf(run: seq<Step>, p: nat): nat
    requires Runs(run)
  {
    if run == [] then 0
    else NoticesOf(run[..|run| - 1], p) + if Notices(After(run[..|run| - 1]), run[|run| - 1], p) then 1 else 0
  }

  predicate IsUpdate(e: Event) {
    e.Delta? || e.Process?
  }

  predicate ShowsUpdate(l: Line) {
    l.Update? && l.event.Some? ==> IsUpdate(l.event.value)
  }

  /** The pipe and the reader's hand carry updates only. */
  ghost predicate OnlyUpdates(s: State) {
    (forall l | l in s.wire :: ShowsUpdate(l)) && (s.reader.Holding? ==> IsUpdate(s.reader.event))
  }

  lemma LinesCome(s: State, a: Step, l: Line)
    requires Enabled(s, a) && l in Apply(s, a).wire && l !in s.wire
    ensures ShowsUpdate(l)
  {
    hide HasRoom, Terminal;
  }

  lemma HandIsFilled(s: State, a: Step)
    requires Enabled(s, a) && Apply(s, a).reader.Holding?
    ensures Apply(s, a).reader == s.reader
            || exists l :: l in s.wire && l.Update? && l.event == Some(Apply(s, a).reader.event)
  {
    if a == ReadLine {
      assert s.wire[0] in s.wire;
    }
    hide HasRoom, Terminal;
  }

  lemma OnlyUpdatesStep(s: State, a: Step)
    requires OnlyUpdates(s) && Enabled(s, a)
    ensures OnlyUpdates(Apply(s, a))
  {
    var t := Apply(s, a);
    hide Apply, Enabled;
    forall l | l in t.wire ensures ShowsUpdate(l) {
      if l !in s.wire {
        LinesCome(s, a, l);
      }
    }
    if t.reader.Holding? {
      HandIsFilled(s, a);
    }
  }

  lemma {:induction false} RunHasOnlyUpdates(run: seq<Step>)
    requires Runs(run)
    ensures OnlyUpdates(After(run))
    decreases |run|
  {
    if run != [] {
      RunHasOnlyUpdates(run[..|run| - 1]);
      OnlyUpdatesStep(After(run[..|run| - 1]), run[|run| - 1]);
      hide OnlyUpdates, Apply, Enabled;
    }
  }

  /** The prompt's own terminal event has been sent. */
  predicate TerminalSent(p: Prompt) {
    p.stage == Ending || p.stage == Removed || p.stage == Closed
  }

  /** What a step adds to a channel: at most one event, terminal exactly from the prompt's end or the notice. */
  ghost predicate ChannelGrows(s: State, a: Step, p: nat)
    requires Enabled(s, a) && p in s.prompts
  {
    && p in Apply(s, a).prompts
    && var x, y := s.prompts[p], Apply(s, a).prompts[p];
       if a == Terminate(p) || Notices(s, a, p) then
         && (exists e: Event :: (e.Finish? || e.Error?) && y.channel == x.channel + [e])
         && (TerminalSent(y) <==> TerminalSent(x) || a == Terminate(p)) && (a == Terminate(p) ==> !TerminalSent(x))
       else
         && (y.channel == x.channel || exists e: Event :: IsUpdate(e) && y.channel == x.channel + [e])
         && (TerminalSent(y) <==> TerminalSent(x))
  }

  lemma ChannelGrowsByAgent(s: State, a: Step, p: nat)
    requires Enabled(s, a) && p in s.prompts && OfAgent(a)
    ensures ChannelGrows(s, a, p)
  {
    hide HasRoom, Terminal;
  }

  lemma ChannelGrowsByReader(s: State, a: Step, p: nat)
    requires Enabled(s, a) && p in s.prompts && OfReader(a) && (s.reader.Holding? ==> IsUpdate(s.reader.event))
    ensures ChannelGrows(s, a, p)
  {
    hide HasRoom, Terminal;
  }

  lemma ChannelGrowsByEnding(s: State, a: Step, p: nat)
    requires Enabled(s, a) && p in s.prompts && !OfAgent(a) && !OfReader(a)
    ensures ChannelGrows(s, a, p)
  {
    assert Terminal(s.prompts[p]).Finish? || Terminal(s.prompts[p]).Error?;
    hide HasRoom, Terminal;
  }

  lemma ChannelStep(s: State, a: Step, p: nat)
    requires Enabled(s, a) && p in s.prompts && OnlyUpdates(s)
    ensures ChannelGrows(s, a, p)
  {
    hide ChannelGrows, Enabled, Apply;
    if OfAgent(a) {
      ChannelGrowsByAgent(s, a, p);
    } else if OfReader(a) {
      ChannelGrowsByReader(s, a, p);
    } else {
      ChannelGrowsByEnding(s, a, p);
    }
  }

  lemma TerminalsAppend(events: seq<Event>, e: Event)
    ensures TerminalsIn(events + [e]) == TerminalsIn(events) + if IsUpdate(e) then 0 else 1
  {
    assert (events + [e])[..|events|] == events;
  }

  /** In every run a prompt's channel has its own terminal event, once it is ending, and one more for each notice. */
  lemma {:induction false} TerminalsAreOwnAndNotices(run: seq<Step>, p: nat)
    requires Runs(run) && p in After(run).prompts
    ensures var x := After(run).prompts[p];
            TerminalsIn(x.channel) == (if TerminalSent(x) then 1 else 0) + NoticesOf(run, p)
    decreases |run|
  {
    if run != [] {
      var front, a := run[..|run| - 1], run[|run| - 1];
      var s := After(front);
      if p in s.prompts {
        TerminalsAreOwnAndNotices(front, p);
        RunHasOnlyUpdates(front);
        ChannelStep(s, a, p);
        ChannelCount(s.prompts[p], Apply(s, a).prompts[p], a == Terminate(p), Notices(s, a, p));
        hide OnlyUpdates, Apply, Enabled, TerminalSent, TerminalsIn, Notices;
      } else {
        NewPrompt(s, a, p);
        NoEarlierNotices(front, p);
        hide Apply, Enabled;
      }
    }
  }

  lemma ChannelCount(x: Prompt, y: Prompt, terminated: bool, noticed: bool)
    requires !(terminated && noticed)
    requires if terminated || noticed then exists e: Event :: (e.Finish? || e.Error?) && y.channel == x.channel + [e]
             else y.channel == x.channel || exists e: Event :: IsUpdate(e) && y.channel == x.channel + [e]
    ensures TerminalsIn(y.channel) == TerminalsIn(x.channel) + if terminated || noticed then 1 else 0
  {
    if y.channel != x.channel {
      var e := y.channel[|y.channel| - 1];
      TerminalsAppend(x.channel, e);
      assert y.channel == x.channel + [e];
    }
  }

  lemma NewPrompt(s: State, a: Step, p: nat)
    requires Enabled(s, a) && p !in s.prompts && p in Apply(s, a).prompts
    ensures Apply(s, a).prompts[p].channel == [] && Apply(s, a).prompts[p].stage == Starting && !Notices(s, a, p)
  {
    hide HasRoom, Terminal;
  }

  lemma {:induction false} NoEarlierNotices(run: seq<Step>, p: nat)
    requires Runs(run) && p !in After(run).prompts
    ensures NoticesOf(run, p) == 0
    decreases |run|
  {
    if run != [] {
      var front := run[..|run| - 1];
      if p in After(front).prompts {
        PromptsStay(After(front), run[|run| - 1], p);
      }
      hide Apply, Enabled, StaysPut;
      NoEarlierNotices(front, p);
    }
  }

  /** A closed channel has one terminal event exactly when no shutdown was noticed on it. */
  lemma OneTerminalIffNotNoticed(run: seq<Step>, p: nat)
    requires Runs(run) && At(After(run), p, Closed)
    ensures TerminalsIn(After(run).prompts[p].channel) == 1 <==> NoticesOf(run, p) == 0
  {
    TerminalsAreOwnAndNotices(run, p);
    hide After, NoticesOf, TerminalsIn;
  }

  lemma NoticeStep(s: State, a: Step, p: nat)
    requires Enabled(s, a)
    ensures Notices(s, a, p) ==>
            p in s.sweep && p !in Apply(s, a).sweep && (s.sweep != {} && s.dead ==> Apply(s, a).dead)
    ensures s.dead ==> Apply(s, a).dead && (p in Apply(s, a).sweep ==> p in s.sweep)
  {
    hide HasRoom, Terminal;
  }

  /** There is one shutdown that notifies, and it notifies a prompt once. */
  lemma {:induction false} NoticedOnce(run: seq<Step>, p: nat)
    requires Runs(run)
    ensures NoticesOf(run, p) <= 1 && (NoticesOf(run, p) == 1 ==> After(run).dead && p !in After(run).sweep)
    decreases |run|
  {
    if run != [] {
      var front := run[..|run| - 1];
      NoticedOnce(front, p);
      RunIsSane(front);
      assert SweepSane(After(front));
      NoticeStep(After(front), run[|run| - 1], p);
      hide Apply, Enabled, Notices, StreamsSane;
    }
  }

  /** A prompt is waiting, its client has been shut down, and it has not been told yet. */
  lemma ShutDownPrompt() returns (run: seq<Step>)
    ensures run == [Send(0, "s"), Write(0, true), ShutDown] && Runs(run) && !After(run).panicked
    ensures After(run).prompts == map[0 := Prompt("s", Waiting, Some(false), [], 0, true, false, [])]
            && After(run).sweep == {0}
  {
    run := StartPrompt();
    var started := After(run);
    assert started.streams["s"] == 0;
    hide Runs, After;
    Extend(run, ShutDown);
    run := run + [ShutDown];
  }

  /** The process goes away in the middle of a prompt: the notice and the prompt's own end are two errors. */
  lemma ShutDownSendsTwoErrors() returns (run: seq<Step>)
    ensures run == [Send(0, "s"), Write(0, true), ShutDown, NotifyStream(0), Terminate(0), Remove(0), Close(0)]
    ensures Runs(run) && !After(run).panicked && At(After(run), 0, Closed)
            && After(run).prompts[0].channel == [Error, Error]
  {
    run := ShutDownPrompt();
    hide Runs, After;
    Extend(run, NotifyStream(0));
    run := run + [NotifyStream(0)];
    assert [] + [Error] == [Error];
    assert After(run).prompts == map[0 := Prompt("s", Waiting, Some(false), [Error], 0, true, false, [])]
           && !After(run).panicked;
    hide Apply, Enabled;
    run := EndNoticed(run);
  }

  lemma EndNoticed(before: seq<Step>) returns (run: seq<Step>)
    requires Runs(before) && !After(before).panicked
    requires After(before).prompts == map[0 := Prompt("s", Waiting, Some(false), [Error], 0, true, false, [])]
    ensures run == before + [Terminate(0), Remove(0), Close(0)] && Runs(run) && !After(run).panicked
    ensures At(After(run), 0, Closed) && After(run).prompts[0].channel == [Error, Error]
  {
    hide Runs, After;
    Extend(before, Terminate(0));
    run := before + [Terminate(0)];
    Extend(run, Remove(0));
    run := run + [Remove(0)];
    Extend(run, Close(0));
    run := run + [Close(0)];
  }

  // ---- What a step does to one prompt ----

  predicate Notified(s: State, p: nat) {
    p in s.prompts && s.prompts[p].stage != Closed && HasRoom(s.prompts[p])
  }

  /** A prompt after a step, read off the step's case. */
  function NextPrompt(s: State, a: Step, p: nat): Prompt
    requires p in s.prompts
  {
    var x := s.prompts[p];
    match a
    case Write(q, ok) =>
      if q == p then x.(stage := Waiting, written := ok, reply := if ok && !s.dead then None else Some(false)) else x
    case AgentUpdate(session, e) =>
      if session in s.streams && s.streams[session] == p && e.Some? && Outstanding(s, p)
      then x.(emitted := x.emitted + [e.value]) else x
    case AgentReply(q, _) => if q == p then x.(answered := true) else x
    case ReadLine =>
      if s.wire != [] && s.wire[0].Reply? && s.wire[0].prompt == p && x.stage == Waiting && x.reply.None?
      then x.(reply := Some(s.wire[0].ok)) else x
    case ReaderSend =>
      if s.reader.Holding? && s.reader.prompt == p && x.stage != Closed then x.(channel := x.channel + [s.reader.event])
      else x
    case Consume(q) => if q == p then x.(consumed := x.consumed + 1) else x
    case Terminate(q) => if q == p then Ended(x) else x
    case Remove(q) => if q == p then x.(stage := Removed) else x
    case Close(q) => if q == p then x.(stage := Closed) else x
    case Cancel(q) => if q == p then x.(reply := Some(false)) else x
    case ShutDown => if x.stage == Waiting && x.reply.None? then x.(reply := Some(false)) else x
    case NotifyStream(q) => if q == p && Notified(s, p) then x.(channel := x.channel + [Error]) else x
    case Send(_, _) => x
  }

  lemma NextByAgent(s: State, a: Step, p: nat)
    requires Enabled(s, a) && p in s.prompts && OfAgent(a)
    ensures p in Apply(s, a).prompts && Apply(s, a).prompts[p] == NextPrompt(s, a, p)
  {
    hide HasRoom, Terminal;
  }

  lemma NextByReader(s: State, a: Step, p: nat)
    requires Enabled(s, a) && p in s.prompts && OfReader(a)
    ensures p in Apply(s, a).prompts && Apply(s, a).prompts[p] == NextPrompt(s, a, p)
  {
    hide HasRoom, Terminal;
  }

  lemma NextByEnding(s: State, a: Step, p: nat)
    requires Enabled(s, a) && p in s.prompts && !OfAgent(a) && !OfReader(a)
    ensures p in Apply(s, a).prompts && Apply(s, a).prompts[p] == NextPrompt(s, a, p)
  {
    hide HasRoom, Terminal;
  }

  lemma PromptChange(s: State, a: Step, p: nat)
    requires Enabled(s, a) && p in s.prompts
    ensures p in Apply(s, a).prompts && Apply(s, a).prompts[p] == NextPrompt(s, a, p)
  {
    hide NextPrompt, Enabled, Apply;
    if OfAgent(a) {
      NextByAgent(s, a, p);
    } else if OfReader(a) {
      NextByReader(s, a, p);
    } else {
      NextByEnding(s, a, p);
    }
  }

  /** A prompt comes into being by its send. */
  lemma PromptBegins(s: State, a: Step, p: nat)
    requires Enabled(s, a) && p !in s.prompts && p in Apply(s, a).prompts
    ensures a.Send? && a.prompt == p
    ensures Apply(s, a).prompts[p] == Prompt(a.session, Starting, None, [], 0, false, false, [])
  {
    hide HasRoom, Terminal;
  }

  /** Only the reader takes a line off the pipe, and only the agent puts one in. */
  lemma PipeChange(s: State, a: Step)
    requires Enabled(s, a)
    ensures Apply(s, a).wire == match a
                                case AgentUpdate(session, e) => s.wire + [Update(session, e)]
                                case AgentReply(p, ok) => s.wire + [Reply(p, ok)]
                                case ReadLine => s.wire[1..]
                                case _ => s.wire
  {
    hide HasRoom, Terminal;
  }

  // ---- What a channel carries, told by the run's steps alone ----

  predicate HasStep(run: seq<Step>, a: Step) {
    run != [] && (run[|run| - 1] == a || HasStep(run[..|run| - 1], a))
  }

  /** The agent has replied to the prompt. */
  predicate Replied(run: seq<Step>, p: nat) {
    HasStep(run, AgentReply(p, true)) || HasStep(run, AgentReply(p, false))
  }

  /** The agent's first reply to the prompt, if there is one. */
  function FirstReply(run: seq<Step>, p: nat): Option<bool> {
    if run == [] then None
    else if FirstReply(run[..|run| - 1], p).Some? then FirstReply(run[..|run| - 1], p)
    else
      match run[|run| - 1]
      case AgentReply(q, ok) => if q == p then Some(ok) else None
      case _ => None
  }

  /** What the agent shows of the session from the prompt's write to the first reply to it. */
  function UpdatesFor(run: seq<Step>, p: nat, session: string): seq<Event> {
    if run == [] then []
    else
      var front := run[..|run| - 1];
      match run[|run| - 1]
      case AgentUpdate(x, Some(e)) =>
        if x == session && HasStep(front, Write(p, true)) && !Replied(front, p) then UpdatesFor(front, p, session) + [e]
        else UpdatesFor(front, p, session)
      case _ => UpdatesFor(front, p, session)
  }

  function FirstInPipe(wire: seq<Line>, p: nat): Option<bool> {
    if wire == [] then None
    else if wire[0].Reply? && wire[0].prompt == p then Some(wire[0].ok)
    else FirstInPipe(wire[1..], p)
  }

  lemma {:induction false} FirstInPipeAppend(wire: seq<Line>, l: Line, p: nat)
    ensures FirstInPipe(wire + [l], p)
            == if FirstInPipe(wire, p).Some? then FirstInPipe(wire, p)
               else if l.Reply? && l.prompt == p then Some(l.ok) else None
  {
    if wire == [] {
      assert wire + [l] == [l] && [l][1..] == [];
    } else {
      assert (wire + [l])[1..] == wire[1..] + [l];
      FirstInPipeAppend(wire[1..], l, p);
    }
  }

  /** The reply a prompt has is the agent's first; until it is read that one is the first in the pipe. */
  predicate ReplyTold(s: State, p: nat, first: Option<bool>) {
    if p !in s.prompts then first.None? && FirstInPipe(s.wire, p).None?
    else
      var x := s.prompts[p];
      if !x.written then first.None? && FirstInPipe(s.wire, p).None? && (x.reply.Some? ==> !x.reply.value)
      else if x.reply.None? then FirstInPipe(s.wire, p) == first
      else first == x.reply
  }

  function NextReply(first: Option<bool>, a: Step, p: nat): Option<bool> {
    if first.None? && a.AgentReply? && a.prompt == p then Some(a.ok) else first
  }

  lemma ReplyToldStep(s: State, a: Step, p: nat, first: Option<bool>)
    requires Enabled(s, a) && Disciplined(s, a) && !s.dead && ReplyTold(s, p, first)
    requires p in s.prompts && s.prompts[p].written && s.prompts[p].reply.None? ==> s.prompts[p].stage == Waiting
    requires p in s.prompts && s.prompts[p].stage == Starting ==> !s.prompts[p].written
    ensures ReplyTold(Apply(s, a), p, NextReply(first, a, p))
  {
    var t := Apply(s, a);
    PipeChange(s, a);
    if a.AgentReply? {
      FirstInPipeAppend(s.wire, Reply(a.prompt, a.ok), p);
    } else if a.AgentUpdate? {
      FirstInPipeAppend(s.wire, Update(a.session, a.event), p);
    }
    if p in s.prompts {
      PromptChange(s, a, p);
      hide Apply, Terminal, HasRoom;
    } else if p in t.prompts {
      PromptBegins(s, a, p);
      hide Apply, FirstInPipe;
    } else {
      hide Apply, HasRoom;
    }
  }

  lemma {:induction false} RepliesAreTold(run: seq<Step>, p: nat)
    requires Runs(run) && DisciplinedRun(run)
    ensures ReplyTold(After(run), p, FirstReply(run, p))
    decreases |run|
  {
    if run != [] {
      var front, a := run[..|run| - 1], run[|run| - 1];
      var s := After(front);
      RepliesAreTold(front, p);
      DisciplinedRunKeepsInv(front);
      if p in s.prompts {
        UnsettledWaits(s, p);
      }
      assert !s.dead && NextReply(FirstReply(front, p), a, p) == FirstReply(run, p);
      hide Inv, ReplyTold, Apply, Enabled, FirstReply;
      ReplyToldStep(s, a, p, FirstReply(front, p));
    }
  }

  lemma UnsettledWaits(s: State, p: nat)
    requires Inv(s) && p in s.prompts
    ensures s.prompts[p].written && s.prompts[p].reply.None? ==> s.prompts[p].stage == Waiting
    ensures s.prompts[p].stage == Starting ==> !s.prompts[p].written
  {
    SomePrompt(s, p);
    hide PromptsOK, StreamsOK, PipeOK, ReaderOK, InPipe, ReplyComesLast, Flows, Delivered;
  }

  // ---- Written and answered, by the steps ----

  lemma NoStepBefore(s: State, a: Step, p: nat)
    requires Enabled(s, a) && Disciplined(s, a) && p !in Apply(s, a).prompts
    ensures p !in s.prompts && !(a.Write? && a.prompt == p) && !(a.AgentReply? && a.prompt == p)
  {
    if p in s.prompts {
      PromptsStay(s, a, p);
    }
    hide HasRoom, Terminal;
  }

  /** The prompt's marks are what the steps say: written, not written, answered, and for which session. */
  predicate Marked(run: seq<Step>, x: Prompt, p: nat) {
    && (x.written <==> HasStep(run, Write(p, true)))
    && (x.stage != Starting && !x.written ==> HasStep(run, Write(p, false)))
    && (x.stage == Starting ==> !HasStep(run, Write(p, false)) && !x.written)
    && (x.answered <==> Replied(run, p))
    && HasStep(run, Send(p, x.session))
  }

  predicate Unmarked(run: seq<Step>, p: nat) {
    !HasStep(run, Write(p, true)) && !HasStep(run, Write(p, false)) && !Replied(run, p)
  }

  lemma HasStepLast(run: seq<Step>, a: Step)
    requires run != []
    ensures HasStep(run, a) <==> run[|run| - 1] == a || HasStep(run[..|run| - 1], a)
  {
  }

  /** A prompt that is written, ended or cancelled is there, at the right stage. */
  lemma StageBefore(s: State, a: Step)
    requires Enabled(s, a)
    ensures a.Write? ==> At(s, a.prompt, Starting)
    ensures a.Terminate? ==> At(s, a.prompt, Waiting) && s.prompts[a.prompt].reply.Some?
    ensures a.Cancel? ==> At(s, a.prompt, Waiting) && s.prompts[a.prompt].reply.None?
    ensures a.Remove? ==> At(s, a.prompt, Ending)
    ensures a.Close? ==> At(s, a.prompt, Removed)
  {
  }

  lemma LastDisciplinedStep(run: seq<Step>)
    requires Runs(run) && DisciplinedRun(run) && run != []
    ensures var front, a := run[..|run| - 1], run[|run| - 1];
            && Runs(front) && DisciplinedRun(front)
            && Enabled(After(front), a) && Disciplined(After(front), a) && After(run) == Apply(After(front), a)
  {
    hide Apply, Enabled, Disciplined;
  }

  lemma MarkedStep(run: seq<Step>, s: State, p: nat)
    requires run != [] && Enabled(s, run[|run| - 1]) && Disciplined(s, run[|run| - 1]) && p in s.prompts
    requires Marked(run[..|run| - 1], s.prompts[p], p)
    ensures p in Apply(s, run[|run| - 1]).prompts && Marked(run, Apply(s, run[|run| - 1]).prompts[p], p)
  {
    hide Apply, Enabled, Disciplined, HasStep, Terminal, HasRoom;
    var a := run[|run| - 1];
    LastStepOf(run, p, s.prompts[p].session);
    PromptChange(s, a, p);
    StageBefore(s, a);
  }

  /** Which of the steps a prompt's marks speak of the run has. */
  lemma LastStepOf(run: seq<Step>, p: nat, session: string)
    requires run != []
    ensures var front, a := run[..|run| - 1], run[|run| - 1];
            && (HasStep(run, Write(p, true)) <==> a == Write(p, true) || HasStep(front, Write(p, true)))
            && (HasStep(run, Write(p, false)) <==> a == Write(p, false) || HasStep(front, Write(p, false)))
            && (HasStep(run, Send(p, session)) <==> a == Send(p, session) || HasStep(front, Send(p, session)))
            && (Replied(run, p) <==> (a.AgentReply? && a.prompt == p) || Replied(front, p))
  {
    HasStepLast(run, AgentReply(p, true));
    HasStepLast(run, AgentReply(p, false));
  }

  lemma {:induction false} MarksAreSteps(run: seq<Step>, p: nat)
    requires Runs(run) && DisciplinedRun(run)
    ensures if p in After(run).prompts then Marked(run, After(run).prompts[p], p) else Unmarked(run, p)
    decreases |run|
  {
    if run != [] {
      hide Runs, After, Apply, Enabled, Disciplined, DisciplinedRun, HasStep, Replied;
      var front, a := run[..|run| - 1], run[|run| - 1];
      LastDisciplinedStep(run);
      var s, t := After(front), After(run);
      MarksAreSteps(front, p);
      if p in s.prompts {
        hide Marked;
        MarkedStep(run, s, p);
      } else if p in t.prompts {
        PromptBegins(s, a, p);
        LastStepOf(run, p, t.prompts[p].session);
      } else {
        NoStepBefore(s, a, p);
        LastStepOf(run, p, "");
      }
    }
  }

  lemma LedToOwn(s: State, session: string)
    requires StreamsOK(s)
    ensures session in s.streams ==>
              s.streams[session] in s.prompts && s.prompts[s.streams[session]].session == session
  {
  }

  /** An update counts for the outstanding prompt of its session. */
  lemma EmittedGrows(s: State, a: Step, p: nat)
    requires Inv(s) && Enabled(s, a) && p in s.prompts
    ensures p in Apply(s, a).prompts && Apply(s, a).prompts[p].session == s.prompts[p].session
    ensures Apply(s, a).prompts[p].emitted
            == if a.AgentUpdate? && a.event.Some? && a.session == s.prompts[p].session && Outstanding(s, p)
               then s.prompts[p].emitted + [a.event.value] else s.prompts[p].emitted
  {
    hide Apply, Enabled, PromptsOK, StreamsOK, PipeOK, ReaderOK, InTable, HasRoom, Terminal;
    PromptChange(s, a, p);
    if Outstanding(s, p) {
      OutstandingIsInTable(s, p);
    }
    if a.AgentUpdate? {
      LedToOwn(s, a.session);
    }
  }

  lemma ShownGrows(run: seq<Step>, p: nat, session: string)
    requires run != []
    ensures var front, a := run[..|run| - 1], run[|run| - 1];
            UpdatesFor(run, p, session)
            == if a.AgentUpdate? && a.event.Some? && a.session == session
                  && HasStep(front, Write(p, true)) && !Replied(front, p)
               then UpdatesFor(front, p, session) + [a.event.value] else UpdatesFor(front, p, session)
  {
    hide HasStep, Replied;
  }

  lemma NothingShownYet(run: seq<Step>, p: nat, session: string)
    requires run != [] && UpdatesFor(run[..|run| - 1], p, session) == [] && !HasStep(run[..|run| - 1], Write(p, true))
    ensures UpdatesFor(run, p, session) == []
  {
    hide HasStep, Replied;
  }

  lemma {:induction false} EmittedIsShown(run: seq<Step>, p: nat, session: string)
    requires Runs(run) && DisciplinedRun(run)
    requires p in After(run).prompts ==> session == After(run).prompts[p].session
    ensures UpdatesFor(run, p, session) == if p in After(run).prompts then After(run).prompts[p].emitted else []
    decreases |run|
  {
    if run != [] {
      var front, a := run[..|run| - 1], run[|run| - 1];
      var s := After(front);
      MarksAreSteps(front, p);
      DisciplinedRunKeepsInv(front);
      assert After(run) == Apply(s, a) && Enabled(s, a);
      hide Runs, After, Apply, Enabled, DisciplinedRun, HasStep, Replied, Inv, UpdatesFor;
      if p in s.prompts {
        EmittedGrows(s, a, p);
        EmittedIsShown(front, p, session);
        ShownGrows(run, p, session);
      } else {
        EmittedIsShown(front, p, session);
        NothingShownYet(run, p, session);
        if p in After(run).prompts {
          PromptBegins(s, a, p);
        }
      }
    }
  }

  /**
   In every disciplined run, without a word about the prompts' own fields: a closed channel carries what the
   agent showed of the session between the prompt's write and the first reply to it, in order, and then a
   finish exactly if that reply was a success; without a reply the write failed. Until the end it carries a
   prefix of what was shown.
   */
  lemma ChannelTellsTheRun(run: seq<Step>, p: nat)
    requires Runs(run) && DisciplinedRun(run) && p in After(run).prompts
    ensures var x := After(run).prompts[p];
            && HasStep(run, Send(p, x.session))
            && (x.stage == Waiting ==> x.channel <= UpdatesFor(run, p, x.session))
            && (x.stage == Closed ==>
                  && x.channel
                     == UpdatesFor(run, p, x.session) + [if FirstReply(run, p) == Some(true) then Finish else Error]
                  && (FirstReply(run, p).None? ==> HasStep(run, Write(p, false))))
  {
    ChannelsCarryTheirSession(run);
    RepliesAreTold(run, p);
    MarksAreSteps(run, p);
    EmittedIsShown(run, p, After(run).prompts[p].session);
    DisciplinedRunKeepsInv(run);
    SettledAtClose(After(run), p);
    hide After, Runs, DisciplinedRun, Inv, UpdatesFor, HasStep, FirstReply, FirstInPipe, Replied;
  }

  lemma SettledAtClose(s: State, p: nat)
    requires Inv(s) && p in s.prompts
    ensures s.prompts[p].stage == Closed ==> s.prompts[p].reply.Some?
  {
    SomePrompt(s, p);
    hide PromptsOK, StreamsOK, PipeOK, ReaderOK, InPipe, ReplyComesLast, Flows, Delivered;
  }

  // ---- The reader and the prompt get on ----

  lemma ReplyIsRead(s: State, p: nat, ok: bool)
    requires s.reader == Scanning && s.wire != [] && s.wire[0] == Reply(p, ok)
    requires At(s, p, Waiting) && s.prompts[p].reply.None?
    ensures var read := Apply(s, ReadLine);
            && Enabled(s, ReadLine) && At(read, p, Waiting) && read.prompts[p] == s.prompts[p].(reply := Some(ok))
  {
  }

  lemma RepliedEnds(s: State, p: nat, ok: bool)
    requires At(s, p, Waiting) && s.prompts[p].reply == Some(ok) && HasRoom(s.prompts[p])
    ensures var ended := Apply(s, Terminate(p));
            && Enabled(s, Terminate(p)) && Enabled(ended, Remove(p))
            && var removed := Apply(ended, Remove(p));
               && Enabled(removed, Close(p))
               && var closed := Apply(removed, Close(p));
                  && At(closed, p, Closed)
                  && closed.prompts[p].channel == s.prompts[p].channel + [if ok then Finish else Error]
  {
  }

  /** A reply that is next in the pipe ends the prompt that waits for it, with a finish exactly on success. */
  lemma ReplyEndsPrompt(run: seq<Step>, p: nat, ok: bool)
    requires Runs(run) && After(run).reader == Scanning && After(run).wire != [] && After(run).wire[0] == Reply(p, ok)
    requires At(After(run), p, Waiting) && After(run).prompts[p].reply.None?
    requires |After(run).prompts[p].channel| - After(run).prompts[p].consumed < 1024
    ensures var more := run + [ReadLine, Terminate(p), Remove(p), Close(p)];
            && Runs(more) && At(After(more), p, Closed)
            && After(more).prompts[p].channel == After(run).prompts[p].channel + [if ok then Finish else Error]
  {
    hide Runs, After, Apply, Enabled;
    ReplyIsRead(After(run), p, ok);
    Extend(run, ReadLine);
    var read := run + [ReadLine];
    RepliedEnds(After(read), p, ok);
    Extend(read, Terminate(p));
    Extend(read + [Terminate(p)], Remove(p));
    Extend(read + [Terminate(p)] + [Remove(p)], Close(p));
    assert run + [ReadLine, Terminate(p), Remove(p), Close(p)] == read + [Terminate(p)] + [Remove(p)] + [Close(p)];
  }

  /** An update that is next in the pipe gets to the channel of its session's prompt unchanged. */
  lemma UpdateReachesChannel(run: seq<Step>, p: nat, session: string, e: Event)
    requires Runs(run) && After(run).reader == Scanning && After(run).wire != []
    requires After(run).wire[0] == Update(session, Some(e))
    requires session in After(run).streams && After(run).streams[session] == p && At(After(run), p, Waiting)
    requires |After(run).prompts[p].channel| - After(run).prompts[p].consumed < 1024
    ensures var more := run + [ReadLine, ReaderSend];
            && Runs(more) && p in After(more).prompts
            && After(more).prompts[p].channel == After(run).prompts[p].channel + [e]
  {
    hide Runs, After;
    Extend(run, ReadLine);
    Extend(run + [ReadLine], ReaderSend);
    assert run + [ReadLine, ReaderSend] == run + [ReadLine] + [ReaderSend];
  }

  lemma UnreadStep(s: State, a: Step, p: nat)
    requires Enabled(s, a) && p in Apply(s, a).prompts && (p in s.prompts ==> 0 <= Unread(s.prompts[p]) <= 1024)
    ensures 0 <= Unread(Apply(s, a).prompts[p]) <= 1024
  {
    assert p in s.prompts && a == ReaderSend && s.reader.prompt == p && s.prompts[p].stage != Closed ==>
        HasRoom(s.prompts[p]);
    assert a == Terminate(p) ==> HasRoom(s.prompts[p]);
    assert a == Consume(p) ==> Unread(s.prompts[p]) > 0;
    if p in s.prompts {
      PromptChange(s, a, p);
    } else {
      PromptBegins(s, a, p);
    }
    hide Terminal, Apply, Enabled;
  }

  /** A channel never holds more than 1024 events that have not been read. */
  lemma {:induction false} BufferIsBounded(run: seq<Step>, p: nat)
    requires Runs(run) && p in After(run).prompts
    ensures 0 <= |After(run).prompts[p].channel| - After(run).prompts[p].consumed <= 1024
    decreases |run|
  {
    if run != [] {
      if p in After(run[..|run| - 1]).prompts {
        BufferIsBounded(run[..|run| - 1], p);
      }
      UnreadStep(After(run[..|run| - 1]), run[|run| - 1], p);
      hide Apply, Enabled;
    }
  }
}
