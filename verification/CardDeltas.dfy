/**
 What each operation of the renderer does to the list of actions and to the card, told from the
 operation itself: which deltas begin an entry, what a continued entry becomes, when a text is sent,
 which call is made, and where a sequence of calls stops.
 */
module CardDeltas {
  import opened Text
  import opened Wrappers
  import opened CardState
  import opened RemoteCard
  import opened CardRendering
  import opened CardActions
  import CardSequence

  // ---- The list of actions ----

  /** A titled tool, a tool with no tool last, or no tool and not a continuation of its own kind. */
  ghost predicate BeginsEntry(list: seq<Action>, d: ProcessDelta)
    requires d.Delta?
  {
    var follows := list != [] && list[|list| - 1].kind == d.kind;
    if d.kind == Tool then d.title != "" || !follows else !(follows && d.continuation)
  }

  /** The list with an entry for the delta. */
  ghost function WithEntry(list: seq<Action>, d: ProcessDelta): seq<Action>
    requires d.Delta?
  {
    var title := if d.kind == Tool && d.title == "" then "Tool" else d.title;
    list + [Action(|list|, |list|, d.kind, title, Running, d.detail)]
  }

  /** Only the last entry changes: the detail is added on a line of its own, and a failing tool output marks it. */
  ghost predicate AddedToLast(list: seq<Action>, d: ProcessDelta, next: seq<Action>)
    requires d.Delta?
  {
    var n := |list|;
    && n > 0 && |next| == n && next[..n - 1] == list[..n - 1]
    && IsTrimmed(list[n - 1].detail + "\n" + d.detail, next[n - 1].detail)
    && next[n - 1].state == (if d.kind == Tool && d.failed then Failed else list[n - 1].state)
    && next[n - 1].kind == list[n - 1].kind && next[n - 1].title == list[n - 1].title
    && next[n - 1].panel == list[n - 1].panel && next[n - 1].order == list[n - 1].order
  }

  lemma ExtendedIsAdded(list: seq<Action>, d: ProcessDelta)
    requires d.Delta? && list != []
    ensures AddedToLast(list, d, WithLast(list, Extended(Last(list), d.detail, d.kind == Tool && d.failed)))
  {
    hide TrimSpace, IsTrimmed;
    TrimSpaceIff(Last(list).detail + "\n" + d.detail, TrimSpace(Last(list).detail + "\n" + d.detail));
  }

  lemma NextOfDelta(bounded: bool, list: seq<Action>, op: Op)
    requires op.OpProcess? && op.process.Delta? && (bounded && op.out.ok ==> |list| < 8)
    ensures var next := Next(bounded, list, op);
            if BeginsEntry(list, op.process) then next == WithEntry(list, op.process)
            else AddedToLast(list, op.process, next)
  {
    hide Extended, AddedToLast;
    if list != [] {
      ExtendedIsAdded(list, op.process);
    }
  }

  /**
   In the history of all actions a delta begins an entry or is added to the last one, and a blank one does
   nothing.
   */
  lemma DeltaReachesHistory(run: Run)
    requires run.ops != [] && LastOp(run).OpProcess?
    ensures var before, after, d := FullHistory(Front(run)), FullHistory(run), LastOp(run).process;
            if d.Blank? then after == before
            else if BeginsEntry(before, d) then after == WithEntry(before, d)
            else AddedToLast(before, d, after)
  {
    hide BeginsEntry, WithEntry, AddedToLast, Extended, Compact;
    if LastOp(run).process.Delta? {
      NextOfDelta(false, FullHistory(Front(run)), LastOp(run));
    }
  }

  /**
   Merging old entries never changes what becomes of a delta: it begins an entry in the list exactly if it
   does in the history.
   */
  lemma SameEntriesBegin(run: Run, d: ProcessDelta)
    requires d.Delta?
    ensures BeginsEntry(After(run).handle.actions, d) <==> BeginsEntry(FullHistory(run), d)
  {
    CompactionSimulates(run, d);
    ChoiceBegins(After(run).handle.actions, d);
    ChoiceBegins(FullHistory(run), d);
    hide *;
  }

  lemma ChoiceBegins(list: seq<Action>, d: ProcessDelta)
    requires d.Delta?
    ensures BeginsEntry(list, d) <==> Choose(list, d).New?
  {
  }

  /**
   The renderer's own list follows the same rule; it is compacted once an insert other than the fallback
   tool's went through.
   */
  lemma DeltaReachesList(s: State, max: int, op: Op)
    requires op.OpProcess?
    ensures var before, after, d := s.handle.actions, Apply(s, max, op).state.handle.actions, op.process;
            if d.Blank? then after == before
            else if !BeginsEntry(before, d) then AddedToLast(before, d, after)
            else if op.out.ok && |before| >= 8 && (d.kind == Tool ==> d.title != "") then
              after == Compact(WithEntry(before, d))
            else after == WithEntry(before, d)
  {
    StepActions(s, max, op);
    hide AddedToLast, Extended, Apply;
    if op.process.Delta? && s.handle.actions != [] {
      ExtendedIsAdded(s.handle.actions, op.process);
    }
  }

  /** A failing card marks the action that is still running, or has an entry of its own for the error. */
  lemma FailureIsListed(s: State, max: int, op: Op)
    requires op.OpFail?
    ensures var before, after := s.handle.actions, Apply(s, max, op).state.handle.actions;
            var n := |before|;
            if n > 0 && before[n - 1].state == Running then
              && after == before[n - 1 := before[n - 1].(state := Failed, detail := after[n - 1].detail)]
              && IsTrimmed(before[n - 1].detail + "\n\n" + op.report, after[n - 1].detail)
            else after == before + [Action(n, n, Process, "Error", Failed, op.report)]
  {
    FailFailsActions(s, max, op);
    hide TrimSpace, IsTrimmed, Apply;
    var n := |s.handle.actions|;
    if n > 0 {
      var text := s.handle.actions[n - 1].detail + "\n\n" + op.report;
      TrimSpaceIff(text, TrimSpace(text));
    }
  }

  // ---- Calls ----

  /** The attempts at one call: the failed ones and the one that went through. */
  ghost function Attempts(call: Call, out: Outcome): (calls: seq<Call>)
    ensures |calls| == out.failures + (if out.ok then 1 else 0) && forall i | 0 <= i < |calls| :: calls[i] == call
  {
    Repeated(call, out.failures + if out.ok then 1 else 0)
  }

  /** No call is made, and the renderer's own account of the calls stays. */
  ghost predicate MakesNoCall(s: State, r: Reply) {
    var h, k := s.handle, r.state.handle;
    r.ok && r.state.card == s.card && k.sequence == h.sequence && k.lastSent == h.lastSent
    && k.updates == h.updates && k.lastFlush == h.lastFlush
  }

  /** One numbered call; if it went through, it changed the card, and `id` is remembered to show `text`. */
  ghost predicate MakesCall(s: State, r: Reply, call: Call, out: Outcome, id: ElementID, text: string) {
    var h, k := s.handle, r.state.handle;
    && r.ok == out.ok && k.sequence == h.sequence + 1 && r.state.card.log == s.card.log + Attempts(call, out)
    && r.state.card.shown == s.card.shown
    && if out.ok then
         k.lastSent == h.lastSent[id := text] && k.updates == h.updates + 1 && k.lastFlush == out.at
       else
         r.state.card.elements == s.card.elements
         && k.lastSent == h.lastSent && k.updates == h.updates && k.lastFlush == h.lastFlush
  }

  /** A text is sent unless it is remembered to be shown already; nothing remembered counts as no text. */
  ghost predicate SendsText(s: State, r: Reply, id: ElementID, text: string, out: Outcome) {
    if text == (if id in s.handle.lastSent then s.handle.lastSent[id] else "") then MakesNoCall(s, r)
    else
      && MakesCall(s, r, Update(s.handle.sequence, id, text), out, id, text)
      && (out.ok ==> r.state.card.elements == UpdateContent(s.card.elements, id, text))
  }

  /** The panel of an action: its title or a word for its kind, and what it has to report. */
  ghost predicate IsPanelOf(e: Element, a: Action, icon: string) {
    var title := if a.title != "" then a.title else if a.kind == Tool then "Tool"
                 else if a.kind == Thinking then "Thinking" else "Process";
    e == PanelElement(a.panel, icon + " " + title, if a.detail == "" then "_Running..._" else a.detail)
  }

  lemma StreamSends(s: State, id: ElementID, text: string, out: Outcome)
    ensures SendsText(s, Stream(s, id, text, out), id, text, out)
  {
    CardSequence.DeliveredLog(s.card, Update(s.handle.sequence, id, text), out);
    hide UpdateContent, Repeated;
  }

  lemma ContinuedIsSent(s: State, max: int, a: Action, out: Outcome)
    requires s.handle.actions != []
    ensures var r := SyncLast(WithLastAction(s, a), max, out);
            && r.state.handle.actions == WithLast(s.handle.actions, a)
            && SendsText(s, r, Content(a.panel),
                         Truncate(if a.detail == "" then "_Running..._" else a.detail, max), out)
  {
    hide UpdateContent, Repeated, Delivered;
    StreamSends(WithLastAction(s, a), Content(a.panel), Truncate(RenderActionContent(a), max), out);
  }

  lemma InsertIsSent(s: State, a: Action, compacts: bool, out: Outcome)
    ensures var r, call := InsertAction(s, a, compacts, out), Insert(s.handle.sequence, StreamingPanel(a));
            && MakesCall(s, r, call, out, Content(a.panel), a.detail) && IsPanelOf(call.element, a, "\U{1F43E}")
            && (out.ok ==> r.state.card.elements == InsertBefore(s.card.elements, call.element))
  {
    hide InsertBefore, Repeated, Compact;
    CardSequence.DeliveredLog(s.card, Insert(s.handle.sequence, StreamingPanel(a)), out);
  }

  /** A new entry is inserted as a panel above the answer; a continued one is sent as the new text of its panel. */
  lemma DeltaMakesCall(s: State, max: int, op: Op)
    requires op.OpProcess?
    ensures var r, list, d := Apply(s, max, op), s.handle.actions, op.process;
            if d.Blank? then MakesNoCall(s, r)
            else if BeginsEntry(list, d) then
              var call := Insert(s.handle.sequence, StreamingPanel(WithEntry(list, d)[|list|]));
              && MakesCall(s, r, call, op.out, Content(|list|), d.detail)
              && IsPanelOf(call.element, WithEntry(list, d)[|list|], "\U{1F43E}")
              && (op.out.ok ==> r.state.card.elements == InsertBefore(s.card.elements, call.element))
            else
              var last := r.state.handle.actions[|list| - 1];
              SendsText(s, r, Content(last.panel),
                        Truncate(if last.detail == "" then "_Running..._" else last.detail, max), op.out)
  {
    hide InsertBefore, Attempts, Compact, Extended, SendsText, IsPanelOf, InsertAction, SyncLast;
    var list, d := s.handle.actions, op.process;
    if d.Delta? {
      if BeginsEntry(list, d) {
        var a := WithEntry(list, d)[|list|];
        InsertIsSent(s, a, d.kind == Tool ==> d.title != "", op.out);
      } else {
        ContinuedIsSent(s, max, Extended(Last(list), d.detail, d.kind == Tool && d.failed), op.out);
      }
    }
  }

  /**
   The answer is sent when five seconds have passed since the last call that went through or when the
   buffered text is as long as one update may be; until then the delta only waits in the buffer.
   */
  lemma AppendSendsIffDue(s: State, max: int, op: Op)
    requires op.OpAppend?
    ensures var h, r := s.handle, Apply(s, max, op);
            var answer, pending := h.finalAnswer + op.delta, h.pendingDelta + op.delta;
            && r.state.handle.finalAnswer == answer && r.state.handle.actions == h.actions
            && if op.now - h.lastFlush >= 5_000_000_000 || Utf8Length(pending) >= max then
                 && SendsText(s, r, Answer, Truncate(answer, max), op.out)
                 && r.state.handle.pendingDelta == if r.ok then "" else pending
               else MakesNoCall(s, r) && r.state.handle.pendingDelta == pending
  {
    hide UpdateContent, Repeated, Delivered, Utf8Length;
    var grown := s.(handle := Grown(s.handle, op.delta));
    StreamSends(grown, Answer, Truncate(grown.handle.finalAnswer, max), op.out);
  }

  // ---- The end of a card ----

  /** There is buffered text, and the answer is not remembered to be shown already. */
  ghost predicate MustFlush(h: Handle, answer: string, max: int) {
    h.pendingDelta != "" && Truncate(answer, max) != if Answer in h.lastSent then h.lastSent[Answer] else ""
  }

  /** One panel for each action with the icon of how it ended, and the answer. */
  ghost predicate IsFinalCard(elements: seq<Element>, actions: seq<Action>, answer: string) {
    && |elements| == |actions| + 1
    && elements[|actions|] == AnswerElement(if answer == "" then "_Waiting..._" else answer)
    && forall i | 0 <= i < |actions| ::
         IsPanelOf(elements[i], actions[i],
                   if actions[i].state == Failed then "\U{274C}" else if actions[i].state == Running then "\U{1F43E}"
                   else if actions[i].kind == Thinking then "\U{1F4A1}" else "\U{2705}")
  }

  /** The streaming mode ends, and only if that went through is the message replaced, if there is one. */
  ghost predicate Closes(
    h: Handle, card: Card, r: Reply, number: nat, calls: seq<Call>, answer: string, finalize: Outcome, patch: Outcome)
  {
    var k, elements := r.state.handle, FinalCard(r.state.handle);
    var patches := finalize.ok && h.messageID != "";
    && k.finished && k.finalAnswer == answer && k.sequence == number + 1 && IsFinalCard(elements, k.actions, answer)
    && r.state.card.log == card.log + calls + Attempts(Finalize(number), finalize)
                           + (if patches then Attempts(Patch(elements), patch) else [])
    && r.state.card.shown == (if patches && patch.ok then Some(elements) else card.shown)
    && r.ok == (finalize.ok && (h.messageID == "" || patch.ok))
  }

  lemma FinalCardIsFinal(h: Handle)
    ensures IsFinalCard(FinalCard(h), h.actions, h.finalAnswer)
  {
  }

  lemma CloseCloses(s: State, finalize: Outcome, patch: Outcome)
    ensures Closes(s.handle, s.card, Close(s, finalize, patch), s.handle.sequence, [], s.handle.finalAnswer, finalize,
                   patch)
    ensures Close(s, finalize, patch).state.handle.actions == s.handle.actions
    ensures Close(s, finalize, patch).state.card.elements == s.card.elements
  {
    hide Repeated, FinalCard, IsFinalCard;
    var h := s.handle.(finished := true, sequence := s.handle.sequence + 1);
    var call := Finalize(s.handle.sequence);
    FinalCardIsFinal(h);
    CardSequence.DeliveredLog(s.card, call, finalize);
    CardSequence.DeliveredLog(Delivered(s.card, call, finalize), Patch(FinalCard(h)), patch);
  }

  /** The state after the flush before a card is closed. */
  lemma FlushBeforeClose(s: State, max: int, out: Outcome)
    ensures var h, r := s.handle, FlushPending(s, max, out);
            var k, must := r.state.handle, MustFlush(h, h.finalAnswer, max);
            && r.ok == (must ==> out.ok) && k.sequence == h.sequence + (if must then 1 else 0)
            && k.finalAnswer == h.finalAnswer && k.actions == h.actions && k.messageID == h.messageID
            && k.finished == h.finished && k.pendingDelta == (if r.ok then "" else h.pendingDelta)
            && r.state.card.shown == s.card.shown
            && r.state.card.log == s.card.log + (if must then
                 Attempts(Update(h.sequence, Answer, Truncate(h.finalAnswer, max)), out) else [])
            && (!r.ok ==> r.state == State(h.(sequence := h.sequence + 1), s.card.(log := r.state.card.log)))
  {
    hide UpdateContent, Repeated;
    CardSequence.DeliveredLog(s.card, Update(s.handle.sequence, Answer, Truncate(s.handle.finalAnswer, max)), out);
  }

  /** A finish flushes, ends the streaming mode and patches the message, and stops at the first of these that fails. */
  lemma FinishStages(s: State, max: int, op: Op)
    requires op.OpFinish?
    ensures var h, r := s.handle, Apply(s, max, op);
            var answer := if op.final != "" then op.final else h.finalAnswer;
            var must := MustFlush(h, answer, max);
            var calls := if must then Attempts(Update(h.sequence, Answer, Truncate(answer, max)), op.flush) else [];
            && r.state.handle.actions == h.actions
            && if must && !op.flush.ok then
                 !r.ok && r.state.card == s.card.(log := s.card.log + calls)
                 && r.state.handle == h.(finalAnswer := answer, sequence := h.sequence + 1)
               else
                 Closes(h, s.card, r, h.sequence + (if must then 1 else 0), calls, answer, op.finalize, op.patch)
  {
    hide FlushPending, Close, IsFinalCard, FinalCard, Attempts, Truncate;
    var given := Given(s, op.final);
    FlushBeforeClose(given, max, op.flush);
    CloseCloses(FlushPending(given, max, op.flush).state, op.finalize, op.patch);
  }

  /** A failure does the same whatever becomes of the flush, with the actions that `FailureIsListed` describes. */
  lemma FailStages(s: State, max: int, op: Op)
    requires op.OpFail?
    ensures var h, r := s.handle, Apply(s, max, op);
            var must := MustFlush(h, h.finalAnswer, max);
            var flush := Update(h.sequence, Answer, Truncate(h.finalAnswer, max));
            var calls := if must then Attempts(flush, op.flush) else [];
            Closes(h, s.card, r, h.sequence + (if must then 1 else 0), calls, h.finalAnswer, op.finalize, op.patch)
  {
    FlushBeforeClose(s, max, op.flush);
    CloseCloses(WithFailed(FlushPending(s, max, op.flush).state, op.report), op.finalize, op.patch);
    hide FlushPending, Close, IsFinalCard, FinalCard, Attempts, FailedActions;
  }
}
