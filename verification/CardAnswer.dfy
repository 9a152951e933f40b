/**
 The answer text from the agent's deltas to the card: nothing is lost between the buffer, the card
 and the finished message, and what is streamed only ever grows.
 */
module CardAnswer {
  import opened Text
  import opened CardState
  import opened RemoteCard
  import opened CardRendering
  import CardActions
  import CardDeltas
  import CardMirror
  import CardSequence

  /** Everything the agent has said, in order. */
  function Deltas(ops: seq<Op>): string {
    if ops == [] then ""
    else Deltas(ops[..|ops| - 1]) + (if ops[|ops| - 1].OpAppend? then ops[|ops| - 1].delta else "")
  }

  /** The card has not been finished yet. */
  predicate Unfinished(ops: seq<Op>) {
    ops == [] || (Unfinished(ops[..|ops| - 1]) && !ops[|ops| - 1].OpFinish?)
  }

  predicate IsAnswer(call: Call) {
    call.Update? && call.id == Answer
  }

  /** The answer texts in the log form a chain of prefixes, all of them prefixes of `bound`. */
  ghost predicate Chained(log: seq<Call>, bound: string) {
    && (forall i | 0 <= i < |log| && IsAnswer(log[i]) :: log[i].content <= bound)
    && (forall i, j | 0 <= i < j < |log| && IsAnswer(log[i]) && IsAnswer(log[j]) :: log[i].content <= log[j].content)
  }

  predicate EndsWith(s: string, suffix: string) {
    |suffix| <= |s| && s[|s| - |suffix|..] == suffix
  }

  /** The part of the answer that is no longer waiting in the buffer. */
  function Flushed(h: Handle): string
    requires EndsWith(h.finalAnswer, h.pendingDelta)
  {
    h.finalAnswer[..|h.finalAnswer| - |h.pendingDelta|]
  }

  ghost predicate Conserved(s: State, max: int) {
    && EndsWith(s.handle.finalAnswer, s.handle.pendingDelta)
    && Sent(s.handle, Answer) == Truncate(Flushed(s.handle), max)
    && Chained(s.card.log, Truncate(s.handle.finalAnswer, max))
  }

  // ---- The log ----

  lemma ChainedMore(log: seq<Call>, bound: string, call: Call, n: nat)
    requires Chained(log, bound) && (IsAnswer(call) ==> call.content == bound)
    ensures Chained(log + Repeated(call, n), bound)
  {
    var longer := log + Repeated(call, n);
    assert forall i | |log| <= i < |longer| :: longer[i] == call;
    hide Repeated;
  }

  lemma DeliverChained(c: Card, bound: string, call: Call, out: Outcome)
    requires Chained(c.log, bound) && (IsAnswer(call) ==> call.content == bound)
    ensures Chained(Delivered(c, call, out).log, bound)
  {
    CardSequence.DeliveredLog(c, call, out);
    ChainedMore(c.log, bound, call, out.failures + if out.ok then 1 else 0);
    hide Chained, Delivered;
  }

  lemma ChainedLonger(log: seq<Call>, s: string, t: string)
    requires Chained(log, s) && s <= t
    ensures Chained(log, t)
  {
  }

  // ---- One operation ----

  lemma GrowConserves(s: State, max: int, delta: string)
    requires Conserved(s, max)
    ensures Conserved(s.(handle := Grown(s.handle, delta)), max)
  {
    var h, g := s.handle, Grown(s.handle, delta);
    assert h.finalAnswer == Flushed(h) + h.pendingDelta;
    assert g.finalAnswer == Flushed(h) + g.pendingDelta;
    assert Flushed(g) == Flushed(h);
    TruncateKeepsPrefix(h.finalAnswer, g.finalAnswer, max);
    ChainedLonger(s.card.log, Truncate(h.finalAnswer, max), Truncate(g.finalAnswer, max));
    hide Chained, Truncate;
  }

  lemma FlushConserves(s: State, max: int, out: Outcome)
    requires Conserved(s, max)
    ensures Conserved(FlushPendingDelta(s, max, out).state, max) && Conserved(FlushPending(s, max, out).state, max)
    ensures FlushPendingDelta(s, max, out).ok ==> FlushPendingDelta(s, max, out).state.handle.pendingDelta == ""
  {
    var content := Truncate(s.handle.finalAnswer, max);
    DeliverChained(s.card, content, Update(s.handle.sequence, Answer, content), out);
    hide Chained, Delivered, Truncate;
    var t := FlushPendingDelta(s, max, out);
    assert t.ok ==> Flushed(t.state.handle) == s.handle.finalAnswer;
  }

  lemma CloseConserves(s: State, max: int, finalize: Outcome, patch: Outcome)
    requires Conserved(s, max)
    ensures Conserved(Close(s, finalize, patch).state, max)
  {
    var bound := Truncate(s.handle.finalAnswer, max);
    var h := s.handle.(finished := true, sequence := s.handle.sequence + 1);
    var call := Finalize(s.handle.sequence);
    hide Chained, Delivered, Truncate, FinalCard;
    DeliverChained(s.card, bound, call, finalize);
    DeliverChained(Delivered(s.card, call, finalize), bound, Patch(FinalCard(h)), patch);
  }

  lemma PanelStreamConserves(s: State, max: int, panel: nat, content: string, out: Outcome)
    requires Conserved(s, max)
    ensures Conserved(Stream(s, Content(panel), content, out).state, max)
  {
    DeliverChained(s.card, Truncate(s.handle.finalAnswer, max), Update(s.handle.sequence, Content(panel), content),
        out);
    hide Chained, Delivered, Truncate;
  }

  lemma InsertConserves(s: State, max: int, a: Action, compacts: bool, out: Outcome)
    requires Conserved(s, max)
    ensures Conserved(InsertAction(s, a, compacts, out).state, max)
  {
    DeliverChained(s.card, Truncate(s.handle.finalAnswer, max), Insert(s.handle.sequence, StreamingPanel(a)), out);
    hide Chained, Delivered, Truncate, Listed, StreamingPanel;
  }

  lemma ProcessConserves(s: State, max: int, d: ProcessDelta, out: Outcome)
    requires Conserved(s, max)
    ensures Conserved(AppendProcess(s, max, d, out).state, max)
  {
    var actions := s.handle.actions;
    hide Chained, Stream, InsertAction;
    match Choose(actions, d)
    case Nothing =>
    case Continue(fails) =>
      var a := Extended(Last(actions), d.detail, fails);
      PanelStreamConserves(WithLastAction(s, a), max, a.panel, Truncate(RenderActionContent(a), max), out);
    case New(title, compacts) =>
      InsertConserves(s, max, NewAction(|actions|, d.kind, title, d.detail), compacts, out);
  }

  lemma FailConserves(s: State, max: int, op: Op)
    requires Conserved(s, max) && op.OpFail?
    ensures Conserved(Apply(s, max, op).state, max)
  {
    hide Chained, Truncate, FlushPending, Close, FailedActions;
    FlushConserves(s, max, op.flush);
    var flushed := FlushPending(s, max, op.flush).state;
    CloseConserves(WithFailed(flushed, op.report), max, op.finalize, op.patch);
  }

  lemma StepConserves(s: State, max: int, op: Op)
    requires Conserved(s, max) && !op.OpFinish?
    ensures Conserved(Apply(s, max, op).state, max)
  {
    hide Conserved;
    match op
    case OpAppend(delta, _, out) =>
      GrowConserves(s, max, delta);
      FlushConserves(s.(handle := Grown(s.handle, delta)), max, out);
    case OpProcess(d, out) => ProcessConserves(s, max, d, out);
    case OpFail(_, _, _, _) => FailConserves(s, max, op);
  }

  lemma StreamKeeps(s: State, id: ElementID, content: string, out: Outcome)
    ensures var t := Stream(s, id, content, out).state;
            t.handle.finalAnswer == s.handle.finalAnswer && t.handle.messageID == s.handle.messageID
  {
  }

  lemma StepGrowsAnswer(s: State, max: int, op: Op)
    requires !op.OpFinish?
    ensures Apply(s, max, op).state.handle.finalAnswer == s.handle.finalAnswer + if op.OpAppend? then op.delta else ""
  {
    hide Stream, Delivered, Truncate;
    match op
    case OpAppend(delta, _, out) =>
      var grown := s.(handle := Grown(s.handle, delta));
      StreamKeeps(grown, Answer, Truncate(grown.handle.finalAnswer, max), out);
    case OpProcess(d, out) =>
      var actions := s.handle.actions;
      if Choose(actions, d).Continue? {
        var a := Extended(Last(actions), d.detail, Choose(actions, d).fails);
        StreamKeeps(WithLastAction(s, a), Content(a.panel),
                          Truncate(RenderActionContent(a), max), out);
      }
      hide Listed, Extended;
    case OpFail(_, flush, _, _) =>
      StreamKeeps(s, Answer, Truncate(s.handle.finalAnswer, max), flush);
      hide FailedActions, FinalCard;
  }

  // ---- Runs ----

  lemma {:induction false} RunConserves(run: Run)
    requires Unfinished(run.ops)
    ensures Conserved(After(run), run.max) && After(run).handle.finalAnswer == Deltas(run.ops)
    decreases |run.ops|
  {
    if run.ops != [] {
      var s := After(Front(run));
      RunConserves(Front(run));
      StepConserves(s, run.max, LastOp(run));
      StepGrowsAnswer(s, run.max, LastOp(run));
      hide Conserved, Apply;
    }
  }

  /**
   Before it is finished, the answer is what was flushed followed by what is buffered, and the cache
   holds what was flushed.
   */
  lemma AnswerIsConserved(run: Run)
    requires Unfinished(run.ops)
    ensures var h := After(run).handle;
            && EndsWith(h.finalAnswer, h.pendingDelta)
            && Deltas(run.ops) == Flushed(h) + h.pendingDelta
            && Sent(h, Answer) == Truncate(Flushed(h), run.max)
  {
    RunConserves(run);
    ConservedSplits(After(run), run.max);
    hide Conserved, Flushed, EndsWith, Truncate, After;
  }

  lemma ConservedSplits(s: State, max: int)
    requires Conserved(s, max)
    ensures EndsWith(s.handle.finalAnswer, s.handle.pendingDelta)
    ensures s.handle.finalAnswer == Flushed(s.handle) + s.handle.pendingDelta
    ensures Sent(s.handle, Answer) == Truncate(Flushed(s.handle), max)
  {
    hide Chained, Truncate;
  }

  /** Of two answer texts streamed, failed attempts included, the earlier is a prefix of the later. */
  lemma StreamedTextsGrow(run: Run, i: nat, j: nat)
    requires Unfinished(run.ops) && i < j < |After(run).card.log|
    requires IsAnswer(After(run).card.log[i]) && IsAnswer(After(run).card.log[j])
    ensures After(run).card.log[i].content <= After(run).card.log[j].content <= Truncate(Deltas(run.ops), run.max)
  {
    RunConserves(run);
  }

  // ---- The answer element ----

  /** Panels and then the answer, which shows what the cache says, whatever happened to the panels. */
  ghost predicate AnswerShown(s: State) {
    var es := s.card.elements;
    CardMirror.Laid(es) && CardMirror.CacheAgrees(s.handle.lastSent, es[|es| - 1])
  }

  lemma {:induction false} UpdateKeepsIDs(elements: seq<Element>, id: ElementID, content: string)
    ensures var updated := UpdateContent(elements, id, content);
            |updated| == |elements| && forall i | 0 <= i < |elements| ::
              && IDOf(updated[i]) == IDOf(elements[i]) && updated[i] == WithText(elements[i], updated[i].text)
              && (updated[i] == elements[i] || (IDOf(elements[i]) == id && updated[i].text == content))
  {
    if elements != [] && IDOf(elements[0]) != id {
      UpdateKeepsIDs(elements[1..], id, content);
    }
  }

  lemma StreamShows(s: State, id: ElementID, content: string, out: Outcome)
    requires AnswerShown(s)
    ensures AnswerShown(Stream(s, id, content, out).state)
  {
    var es := s.card.elements;
    var n := |es| - 1;
    UpdateKeepsIDs(es, id, content);
    if id == Answer {
      UpdateFirst(es, id, content, n);
    }
    hide UpdateContent;
  }

  lemma InsertShows(s: State, a: Action, compacts: bool, out: Outcome)
    requires AnswerShown(s)
    ensures AnswerShown(InsertAction(s, a, compacts, out).state)
  {
    InsertAt(s.card.elements, StreamingPanel(a), |s.card.elements| - 1);
    hide InsertBefore, Listed;
  }

  lemma FlushShows(s: State, max: int, out: Outcome)
    requires AnswerShown(s)
    ensures AnswerShown(FlushPendingDelta(s, max, out).state) && AnswerShown(FlushPending(s, max, out).state)
  {
    StreamShows(s, Answer, Truncate(s.handle.finalAnswer, max), out);
    hide Stream, CardMirror.CacheAgrees;
  }

  lemma CloseShows(s: State, finalize: Outcome, patch: Outcome)
    requires AnswerShown(s)
    ensures AnswerShown(Close(s, finalize, patch).state)
  {
    hide FinalCard, CardMirror.CacheAgrees;
  }

  lemma ProcessShows(s: State, max: int, d: ProcessDelta, out: Outcome)
    requires AnswerShown(s)
    ensures AnswerShown(AppendProcess(s, max, d, out).state)
  {
    var actions := s.handle.actions;
    hide Stream, InsertAction, CardMirror.CacheAgrees;
    match Choose(actions, d)
    case Nothing =>
    case Continue(fails) =>
      var a := Extended(Last(actions), d.detail, fails);
      StreamShows(WithLastAction(s, a), Content(a.panel), Truncate(RenderActionContent(a), max), out);
    case New(title, compacts) =>
      InsertShows(s, NewAction(|actions|, d.kind, title, d.detail), compacts, out);
  }

  lemma StepShows(s: State, max: int, op: Op)
    requires AnswerShown(s)
    ensures AnswerShown(Apply(s, max, op).state)
  {
    hide FlushPendingDelta, FlushPending, AppendProcess, Close, CardMirror.CacheAgrees;
    match op
    case OpAppend(delta, _, out) => FlushShows(s.(handle := Grown(s.handle, delta)), max, out);
    case OpProcess(d, out) => ProcessShows(s, max, d, out);
    case OpFinish(final, flush, finalize, patch) =>
      var given := Given(s, final);
      FlushShows(given, max, flush);
      CloseShows(FlushPending(given, max, flush).state, finalize, patch);
    case OpFail(report, flush, finalize, patch) =>
      FlushShows(s, max, flush);
      var flushed := FlushPending(s, max, flush).state;
      CloseShows(WithFailed(flushed, report), finalize, patch);
  }

  lemma {:induction false} AnswerAlwaysShown(run: Run)
    ensures AnswerShown(After(run))
    decreases |run.ops|
  {
    if run.ops != [] {
      AnswerAlwaysShown(Front(run));
      StepShows(After(Front(run)), run.max, LastOp(run));
    }
  }

  /** `said` is the flushed part and the buffered part, and the card shows the flushed part or still the placeholder. */
  predicate ShowsFlushed(s: State, max: int, said: string) {
    && s.card.elements != [] && EndsWith(s.handle.finalAnswer, s.handle.pendingDelta)
    && said == Flushed(s.handle) + s.handle.pendingDelta
    && var text, shown := s.card.elements[|s.card.elements| - 1].text, Truncate(Flushed(s.handle), max);
       text == shown || (shown == "" && text == WAITING)
  }

  lemma ShownText(s: State, max: int)
    requires AnswerShown(s) && Conserved(s, max)
    ensures ShowsFlushed(s, max, s.handle.finalAnswer)
  {
    ConservedSplits(s, max);
    var last := s.card.elements[|s.card.elements| - 1];
    assert last.AnswerElement? && CardMirror.CacheAgrees(s.handle.lastSent, last);
    hide Conserved, AnswerShown, Truncate, Flushed;
  }

  /** Before it is finished, the streaming card shows the flushed part of the deltas. */
  lemma CardShowsFlushed(run: Run)
    requires Unfinished(run.ops)
    ensures ShowsFlushed(After(run), run.max, Deltas(run.ops))
  {
    RunConserves(run);
    AnswerAlwaysShown(run);
    ShownText(After(run), run.max);
    hide *;
  }

  // ---- The finished card ----

  /**
   A finish that returned no error leaves the message showing the given text, else all deltas in
   order, else the placeholder, below one panel for each action in the list.
   */
  lemma FinishedCardShowsAnswer(run: Run)
    requires run.ops != [] && Unfinished(Front(run).ops) && LastOp(run).OpFinish? && run.messageID != ""
    requires Apply(After(Front(run)), run.max, LastOp(run)).ok
    ensures var s, final := After(run), LastOp(run).final;
            var answer := if final != "" then final else Deltas(Front(run).ops);
            && s.card.shown.Some? && CardDeltas.IsFinalCard(s.card.shown.value, s.handle.actions, answer)
            && forall i | 0 <= i < |s.handle.actions| :: IDOf(s.card.shown.value[i]) == Content(i)
  {
    hide Apply, Unfinished, Deltas, Conserved, CardActions.FullHistory;
    RunConserves(Front(run));
    KeepsMessage(Front(run));
    CardDeltas.FinishStages(After(Front(run)), run.max, LastOp(run));
    CardActions.ActionsAreIndexed(run);
  }

  lemma {:induction false} KeepsMessage(run: Run)
    ensures After(run).handle.messageID == run.messageID
    decreases |run.ops|
  {
    if run.ops != [] {
      KeepsMessage(Front(run));
      StepKeepsMessage(After(Front(run)), run.max, LastOp(run));
    }
  }

  lemma StepKeepsMessage(s: State, max: int, op: Op)
    ensures Apply(s, max, op).state.handle.messageID == s.handle.messageID
  {
    hide Stream, Delivered, Truncate, FinalCard, Listed, Extended, FailedActions;
    match op
    case OpAppend(delta, _, out) =>
      var grown := s.(handle := Grown(s.handle, delta));
      StreamKeeps(grown, Answer, Truncate(grown.handle.finalAnswer, max), out);
    case OpProcess(d, out) =>
      var actions := s.handle.actions;
      if Choose(actions, d).Continue? {
        var a := Extended(Last(actions), d.detail, Choose(actions, d).fails);
        StreamKeeps(WithLastAction(s, a), Content(a.panel),
                    Truncate(RenderActionContent(a), max), out);
      }
    case OpFinish(final, flush, _, _) =>
      var given := Given(s, final);
      StreamKeeps(given, Answer, Truncate(given.handle.finalAnswer, max), flush);
    case OpFail(_, flush, _, _) =>
      StreamKeeps(s, Answer, Truncate(s.handle.finalAnswer, max), flush);
  }
}
