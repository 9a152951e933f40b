/** Sequence numbers of the streaming calls: the service requires them to increase strictly. */
module CardSequence {
  import opened CardState
  import opened RemoteCard
  import opened CardRendering

  /** Attempts carry increasing numbers below `next`; equal numbers only on attempts at the same call. */
  ghost predicate Numbered(log: seq<Call>, next: nat) {
    && (forall i | 0 <= i < |log| && !log[i].Patch? :: log[i].sequence < next)
    && (forall i, j | 0 <= i < j < |log| && !log[i].Patch? && !log[j].Patch? ::
          log[i].sequence < log[j].sequence || log[i] == log[j])
  }

  ghost predicate WellNumbered(s: State) {
    Numbered(s.card.log, s.handle.sequence)
  }

  lemma DeliveredLog(c: Card, call: Call, out: Outcome)
    ensures Delivered(c, call, out).log == c.log + Repeated(call, out.failures + if out.ok then 1 else 0)
  {
  }

  lemma DeliverNumbered(c: Card, next: nat, call: Call, out: Outcome)
    requires Numbered(c.log, next) && !call.Patch? && call.sequence == next
    ensures Numbered(Delivered(c, call, out).log, next + 1)
  {
    DeliveredLog(c, call, out);
    hide Delivered;
    var n := out.failures + if out.ok then 1 else 0;
    var log := c.log + Repeated(call, n);
    assert forall i | |c.log| <= i < |log| :: log[i] == call;
    hide Repeated;
  }

  lemma PatchNumbered(c: Card, next: nat, call: Call, out: Outcome)
    requires Numbered(c.log, next) && call.Patch?
    ensures Numbered(Delivered(c, call, out).log, next)
  {
    DeliveredLog(c, call, out);
    hide Delivered;
    var n := out.failures + if out.ok then 1 else 0;
    var log := c.log + Repeated(call, n);
    assert forall i | |c.log| <= i < |log| :: log[i] == call;
    hide Repeated;
  }

  lemma StreamNumbered(s: State, id: ElementID, content: string, out: Outcome)
    requires WellNumbered(s)
    ensures WellNumbered(Stream(s, id, content, out).state)
  {
    DeliverNumbered(s.card, s.handle.sequence, Update(s.handle.sequence, id, content), out);
    hide Delivered, Numbered;
  }

  lemma FlushNumbered(s: State, max: int, out: Outcome)
    requires WellNumbered(s)
    ensures WellNumbered(FlushPendingDelta(s, max, out).state) && WellNumbered(FlushPending(s, max, out).state)
  {
    StreamNumbered(s, Answer, Text.Truncate(s.handle.finalAnswer, max), out);
    hide Numbered, Stream;
  }

  lemma CloseNumbered(s: State, finalize: Outcome, patch: Outcome)
    requires WellNumbered(s)
    ensures WellNumbered(Close(s, finalize, patch).state)
  {
    hide Delivered, Numbered, FinalCard;
    var h := s.handle.(finished := true, sequence := s.handle.sequence + 1);
    var call := Finalize(s.handle.sequence);
    DeliverNumbered(s.card, s.handle.sequence, call, finalize);
    PatchNumbered(Delivered(s.card, call, finalize), h.sequence, Patch(FinalCard(h)), patch);
  }

  lemma InsertNumbered(s: State, a: Action, compacts: bool, out: Outcome)
    requires WellNumbered(s)
    ensures WellNumbered(InsertAction(s, a, compacts, out).state)
  {
    DeliverNumbered(s.card, s.handle.sequence, Insert(s.handle.sequence, StreamingPanel(a)), out);
    hide Delivered, Numbered, Listed, StreamingPanel;
  }

  lemma ProcessNumbered(s: State, max: int, d: ProcessDelta, out: Outcome)
    requires WellNumbered(s)
    ensures WellNumbered(AppendProcess(s, max, d, out).state)
  {
    var actions := s.handle.actions;
    hide Numbered, Stream, InsertAction;
    match Choose(actions, d)
    case Nothing =>
    case Continue(fails) =>
      var a := Extended(Last(actions), d.detail, fails);
      StreamNumbered(WithLastAction(s, a), Content(a.panel),
                     Text.Truncate(RenderActionContent(a), max), out);
    case New(title, compacts) =>
      InsertNumbered(s, NewAction(|actions|, d.kind, title, d.detail), compacts, out);
  }

  lemma FinishNumbered(s: State, max: int, op: Op)
    requires WellNumbered(s) && op.OpFinish?
    ensures WellNumbered(Apply(s, max, op).state)
  {
    hide Numbered, FlushPending, Close;
    var given := Given(s, op.final);
    FlushNumbered(given, max, op.flush);
    CloseNumbered(FlushPending(given, max, op.flush).state, op.finalize, op.patch);
  }

  lemma FailNumbered(s: State, max: int, op: Op)
    requires WellNumbered(s) && op.OpFail?
    ensures WellNumbered(Apply(s, max, op).state)
  {
    hide Numbered, FlushPending, Close, FailedActions;
    FlushNumbered(s, max, op.flush);
    var flushed := FlushPending(s, max, op.flush).state;
    CloseNumbered(WithFailed(flushed, op.report), op.finalize, op.patch);
  }

  lemma StepNumbered(s: State, max: int, op: Op)
    requires WellNumbered(s)
    ensures WellNumbered(Apply(s, max, op).state)
  {
    hide Numbered, FlushPendingDelta, AppendProcess;
    match op
    case OpAppend(delta, _, out) => FlushNumbered(s.(handle := Grown(s.handle, delta)), max, out);
    case OpProcess(d, out) => ProcessNumbered(s, max, d, out);
    case OpFinish(_, _, _, _) => FinishNumbered(s, max, op);
    case OpFail(_, _, _, _) => FailNumbered(s, max, op);
  }

  lemma {:induction false} RunIsNumbered(run: Run)
    ensures WellNumbered(After(run))
    decreases |run.ops|
  {
    if run.ops != [] {
      RunIsNumbered(Front(run));
      StepNumbered(After(Front(run)), run.max, LastOp(run));
    }
  }

  /** Of two attempts the later has the larger number, unless it repeats the earlier one exactly. */
  lemma SequencesIncrease(run: Run, i: nat, j: nat)
    requires i < j < |After(run).card.log|
    requires !After(run).card.log[i].Patch? && !After(run).card.log[j].Patch?
    ensures var log := After(run).card.log; log[i].sequence < log[j].sequence || log[i] == log[j]
  {
    RunIsNumbered(run);
  }
}
