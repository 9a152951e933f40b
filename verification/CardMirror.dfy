/**
 The send cache against the card: while every inserted panel has an id of its own, the renderer
 knows exactly what each element on the card shows, so a suppressed update loses nothing.
 Compaction renumbers the local list but not the card, and ends that.
 */
module CardMirror {
  import opened Text
  import opened CardState
  import opened RemoteCard
  import opened CardRendering
  import CardActions

  const RUNNING := "_Running..._"

  /** Panels, then one answer element. */
  ghost predicate Laid(elements: seq<Element>) {
    elements != [] && forall i | 0 <= i < |elements| :: elements[i].AnswerElement? <==> i == |elements| - 1
  }

  /** And each element has its own id. */
  ghost predicate Shaped(elements: seq<Element>) {
    && Laid(elements)
    && (forall i, j | 0 <= i < j < |elements| :: IDOf(elements[i]) != IDOf(elements[j]))
  }

  /** The cache has the element's text; an empty entry or none stands for the placeholder it was made with. */
  predicate CacheAgrees(lastSent: map<ElementID, string>, e: Element) {
    if IDOf(e) in lastSent then
      lastSent[IDOf(e)] == e.text || (lastSent[IDOf(e)] == "" && e.PanelElement? && e.text == RUNNING)
    else e == AnswerElement(WAITING)
  }

  ghost predicate AllAgree(lastSent: map<ElementID, string>, elements: seq<Element>) {
    forall i | 0 <= i < |elements| :: CacheAgrees(lastSent, elements[i])
  }

  ghost predicate Mirrors(s: State) {
    Shaped(s.card.elements) && AllAgree(s.handle.lastSent, s.card.elements)
  }

  ghost predicate OnCard(elements: seq<Element>, id: ElementID) {
    exists i | 0 <= i < |elements| :: IDOf(elements[i]) == id
  }

  /** An insert that goes through uses a panel id the card does not have yet. */
  ghost predicate FreshInsert(s: State, op: Op) {
    op.OpProcess? && op.out.ok && Choose(s.handle.actions, op.process).New? ==>
      !OnCard(s.card.elements, Content(|s.handle.actions|))
  }

  /** The action a delta adds. */
  function Added(actions: seq<Action>, d: ProcessDelta): Action
    requires Choose(actions, d).New?
  {
    NewAction(|actions|, d.kind, Choose(actions, d).title, d.detail)
  }

  /** What adding an action does to list, cache and card when the call goes through. */
  lemma NewStep(s: State, max: int, op: Op)
    requires op.OpProcess? && op.out.ok && Choose(s.handle.actions, op.process).New?
    ensures var a, t := Added(s.handle.actions, op.process), Apply(s, max, op).state;
            && t.card.elements == InsertBefore(s.card.elements, StreamingPanel(a))
            && t.handle.actions == Listed(s.handle.actions, a, Choose(s.handle.actions, op.process).compacts)
            && t.handle.lastSent == s.handle.lastSent[Content(a.panel) := a.detail]
  {
    hide InsertBefore, Listed, StreamingPanel;
  }

  // ---- One gateway call ----

  lemma UpdatedElements(elements: seq<Element>, id: ElementID, content: string, k: nat)
    requires Shaped(elements) && k < |elements| && IDOf(elements[k]) == id
    ensures UpdateContent(elements, id, content) == elements[k := WithText(elements[k], content)]
  {
    UpdateFirst(elements, id, content, k);
  }

  lemma StreamMirrors(s: State, id: ElementID, content: string, out: Outcome)
    requires Mirrors(s)
    ensures Mirrors(Stream(s, id, content, out).state)
  {
    var t := Stream(s, id, content, out).state;
    if t.card.elements != s.card.elements || t.handle.lastSent != s.handle.lastSent {
      var es := s.card.elements;
      assert t.card.elements == UpdateContent(es, id, content) && t.handle.lastSent == s.handle.lastSent[id := content];
      hide Stream;
      if OnCard(es, id) {
        var k: nat :| k < |es| && IDOf(es[k]) == id;
        UpdatedElements(es, id, content, k);
        ReplacedMirrors(es, s.handle.lastSent, content, k);
      } else {
        UpdateMissing(es, id, content);
      }
    }
  }

  lemma ReplacedMirrors(es: seq<Element>, lastSent: map<ElementID, string>, content: string, k: nat)
    requires Shaped(es) && AllAgree(lastSent, es) && k < |es|
    ensures var updated := es[k := WithText(es[k], content)];
            Shaped(updated) && AllAgree(lastSent[IDOf(es[k]) := content], updated)
  {
    var updated := es[k := WithText(es[k], content)];
    assert forall i | 0 <= i < |es| ::
        IDOf(updated[i]) == IDOf(es[i]) && updated[i].AnswerElement? == es[i].AnswerElement?;
    assert Shaped(updated) by { hide AllAgree, WithText; }
    forall i | 0 <= i < |updated| ensures CacheAgrees(lastSent[IDOf(es[k]) := content], updated[i]) {
      assert CacheAgrees(lastSent, es[i]);
      assert i != k ==> IDOf(es[i]) != IDOf(es[k]);
      hide Shaped, AllAgree;
    }
  }

  lemma InsertedElements(elements: seq<Element>, e: Element)
    requires Shaped(elements) && e.PanelElement?
    ensures var n := |elements| - 1; InsertBefore(elements, e) == elements[..n] + [e, elements[n]]
  {
    var n := |elements| - 1;
    assert elements == elements[..n] + [elements[n]];
    InsertAboveAnswer(elements[..n], elements[n], e);
  }

  /** A panel with an id of its own keeps the shape, any other breaks it. */
  lemma InsertShapedIffFresh(es: seq<Element>, e: Element)
    requires Shaped(es) && e.PanelElement?
    ensures Shaped(InsertBefore(es, e)) <==> !OnCard(es, IDOf(e))
  {
    InsertedElements(es, e);
    hide InsertBefore;
    var n := |es| - 1;
    var grown := es[..n] + [e, es[n]];
    assert forall i | 0 <= i < n :: grown[i] == es[i];
    assert grown[n] == e && grown[n + 1] == es[n];
    if OnCard(es, IDOf(e)) {
      var k :| 0 <= k < |es| && IDOf(es[k]) == IDOf(e);
      assert k < n && IDOf(grown[k]) == IDOf(grown[n]);
    } else {
      forall i, j | 0 <= i < j < |grown| ensures IDOf(grown[i]) != IDOf(grown[j]) {
        var i', j' := if i <= n then i else n, if j <= n then j else n;
        hide IDOf;
        if j == n {
          assert IDOf(es[i]) != IDOf(e);
        } else if i == n {
          assert IDOf(es[n]) != IDOf(e);
        }
      }
    }
  }

  lemma InsertedAgree(es: seq<Element>, lastSent: map<ElementID, string>, a: Action)
    requires Shaped(es) && AllAgree(lastSent, es) && !OnCard(es, Content(a.panel))
    ensures AllAgree(lastSent[Content(a.panel) := a.detail], InsertBefore(es, StreamingPanel(a)))
  {
    var e := StreamingPanel(a);
    var now := lastSent[Content(a.panel) := a.detail];
    InsertedElements(es, e);
    var n := |es| - 1;
    forall x | x in es ensures CacheAgrees(now, x) {
      assert CacheAgrees(lastSent, x) && IDOf(x) != Content(a.panel);
    }
    assert CacheAgrees(now, e);
    hide Shaped, CacheAgrees, InsertBefore, StreamingPanel;
  }

  lemma InsertActionMirrors(s: State, a: Action, compacts: bool, out: Outcome)
    requires Mirrors(s) && out.ok
    ensures Mirrors(InsertAction(s, a, compacts, out).state) <==> !OnCard(s.card.elements, Content(a.panel))
  {
    var t := InsertAction(s, a, compacts, out).state;
    var es := s.card.elements;
    assert t.card.elements == InsertBefore(es, StreamingPanel(a));
    assert t.handle.lastSent == s.handle.lastSent[Content(a.panel) := a.detail] by { hide Delivered, Listed; }
    InsertShapedIffFresh(es, StreamingPanel(a));
    if !OnCard(es, Content(a.panel)) {
      InsertedAgree(es, s.handle.lastSent, a);
    }
    hide InsertAction, Shaped, AllAgree, OnCard;
  }

  // ---- One operation ----

  lemma FlushMirrors(s: State, max: int, out: Outcome)
    requires Mirrors(s)
    ensures Mirrors(FlushPendingDelta(s, max, out).state) && Mirrors(FlushPending(s, max, out).state)
  {
    StreamMirrors(s, Answer, Truncate(s.handle.finalAnswer, max), out);
    hide Shaped, AllAgree, Stream;
  }

  lemma CloseMirrors(s: State, finalize: Outcome, patch: Outcome)
    requires Mirrors(s)
    ensures Mirrors(Close(s, finalize, patch).state)
  {
    hide Shaped, AllAgree, FinalCard;
  }

  lemma FinishMirrors(s: State, max: int, op: Op)
    requires Mirrors(s) && op.OpFinish?
    ensures Mirrors(Apply(s, max, op).state)
  {
    hide Shaped, AllAgree, FlushPending, Close;
    var given := Given(s, op.final);
    FlushMirrors(given, max, op.flush);
    CloseMirrors(FlushPending(given, max, op.flush).state, op.finalize, op.patch);
  }

  lemma FailMirrors(s: State, max: int, op: Op)
    requires Mirrors(s) && op.OpFail?
    ensures Mirrors(Apply(s, max, op).state)
  {
    hide Shaped, AllAgree, FlushPending, Close, FailedActions;
    FlushMirrors(s, max, op.flush);
    var flushed := FlushPending(s, max, op.flush).state;
    CloseMirrors(WithFailed(flushed, op.report), op.finalize, op.patch);
  }

  lemma ProcessMirrors(s: State, max: int, op: Op)
    requires Mirrors(s) && op.OpProcess?
    ensures Mirrors(Apply(s, max, op).state) <==> FreshInsert(s, op)
  {
    var d := op.process;
    var actions := s.handle.actions;
    hide Shaped, AllAgree, Stream, OnCard;
    match Choose(actions, d)
    case Nothing =>
    case Continue(fails) =>
      var a := Extended(Last(actions), d.detail, fails);
      StreamMirrors(WithLastAction(s, a), Content(a.panel),
                    Truncate(RenderActionContent(a), max), op.out);
    case New(title, compacts) =>
      var a := NewAction(|actions|, d.kind, title, d.detail);
      if op.out.ok {
        InsertActionMirrors(s, a, compacts, op.out);
        hide InsertAction;
      }
  }

  /** From a card the cache mirrors, an operation keeps the mirror exactly when its insert, if any, is fresh. */
  lemma MirrorKeptIffFresh(s: State, max: int, op: Op)
    requires Mirrors(s)
    ensures Mirrors(Apply(s, max, op).state) <==> FreshInsert(s, op)
  {
    hide Mirrors;
    match op
    case OpAppend(delta, _, out) =>
      var grown := s.(handle := Grown(s.handle, delta));
      MirrorsSame(s, grown);
      hide FlushPendingDelta;
      FlushMirrors(grown, max, out);
    case OpProcess(d, out) => ProcessMirrors(s, max, op);
    case OpFinish(_, _, _, _) => FinishMirrors(s, max, op);
    case OpFail(_, _, _, _) => FailMirrors(s, max, op);
  }

  lemma MirrorsSame(s: State, t: State)
    requires Mirrors(s) && t.card.elements == s.card.elements && t.handle.lastSent == s.handle.lastSent
    ensures Mirrors(t)
  {
  }

  // ---- Runs ----

  ghost predicate FreshInserts(run: Run)
    decreases |run.ops|
  {
    run.ops == [] || (FreshInserts(Front(run)) && FreshInsert(After(Front(run)), LastOp(run)))
  }

  lemma {:induction false} RunMirrors(run: Run)
    requires FreshInserts(run)
    ensures Mirrors(After(run))
    decreases |run.ops|
  {
    if run.ops != [] {
      RunMirrors(Front(run));
      MirrorKeptIffFresh(After(Front(run)), run.max, LastOp(run));
    }
  }

  /** No operation of the run has compacted the list. */
  predicate Intact(run: Run)
    decreases |run.ops|
  {
    run.ops == [] || (Intact(Front(run)) && !CardActions.Compacts(After(Front(run)).handle.actions, LastOp(run)))
  }

  /** Every panel on the card has a number below `n`. */
  ghost predicate Below(elements: seq<Element>, n: nat) {
    forall i | 0 <= i < |elements| && elements[i].PanelElement? :: elements[i].panel < n
  }

  lemma {:induction false} UpdateStaysBelow(elements: seq<Element>, id: ElementID, content: string, n: nat)
    requires Below(elements, n)
    ensures Below(UpdateContent(elements, id, content), n)
  {
    if elements != [] && IDOf(elements[0]) != id {
      UpdateStaysBelow(elements[1..], id, content, n);
    }
  }

  lemma {:induction false} InsertStaysBelow(elements: seq<Element>, e: Element, n: nat)
    requires Below(elements, n) && e.PanelElement? && e.panel == n
    ensures Below(InsertBefore(elements, e), n + 1)
  {
    if elements != [] && !elements[0].AnswerElement? {
      InsertStaysBelow(elements[1..], e, n);
    }
  }

  lemma StreamStaysBelow(s: State, id: ElementID, content: string, out: Outcome, n: nat)
    requires Below(s.card.elements, n)
    ensures Below(Stream(s, id, content, out).state.card.elements, n)
  {
    UpdateStaysBelow(s.card.elements, id, content, n);
    hide Below, UpdateContent;
  }

  lemma InsertActionStaysBelow(s: State, a: Action, compacts: bool, out: Outcome)
    requires Below(s.card.elements, a.panel)
    ensures Below(InsertAction(s, a, compacts, out).state.card.elements, a.panel + 1)
  {
    InsertStaysBelow(s.card.elements, StreamingPanel(a), a.panel);
    assert Below(s.card.elements, a.panel + 1);
    hide Below, InsertBefore, Listed;
  }

  lemma ProcessStaysBelow(s: State, max: int, op: Op)
    requires op.OpProcess? && Below(s.card.elements, |s.handle.actions|) && !CardActions.Compacts(s.handle.actions, op)
    ensures Below(Apply(s, max, op).state.card.elements, |Apply(s, max, op).state.handle.actions|)
  {
    var d := op.process;
    var actions := s.handle.actions;
    CardActions.StepActions(s, max, op);
    match Choose(actions, d)
    case Nothing =>
    case Continue(fails) =>
      var a := Extended(Last(actions), d.detail, fails);
      StreamStaysBelow(WithLastAction(s, a), Content(a.panel),
                       Truncate(RenderActionContent(a), max), op.out, |actions|);
      hide Below, Stream;
    case New(title, compacts) =>
      InsertActionStaysBelow(s, NewAction(|actions|, d.kind, title, d.detail), compacts, op.out);
      hide Below, InsertAction, Compact;
  }

  lemma CloseKeepsElements(s: State, finalize: Outcome, patch: Outcome)
    ensures Close(s, finalize, patch).state.card.elements == s.card.elements
    ensures Close(s, finalize, patch).state.handle.actions == s.handle.actions
  {
    hide FinalCard;
  }

  lemma FlushStaysBelow(s: State, max: int, out: Outcome, n: nat)
    requires Below(s.card.elements, n)
    ensures Below(FlushPendingDelta(s, max, out).state.card.elements, n)
    ensures Below(FlushPending(s, max, out).state.card.elements, n)
  {
    StreamStaysBelow(s, Answer, Truncate(s.handle.finalAnswer, max), out, n);
    hide Below, Stream;
  }

  lemma StaysBelow(s: State, max: int, op: Op)
    requires Below(s.card.elements, |s.handle.actions|) && !CardActions.Compacts(s.handle.actions, op)
    ensures Below(Apply(s, max, op).state.card.elements, |Apply(s, max, op).state.handle.actions|)
  {
    var n := |s.handle.actions|;
    match op
    case OpAppend(delta, _, out) =>
      CardActions.StepActions(s, max, op);
      FlushStaysBelow(s.(handle := Grown(s.handle, delta)), max, out, n);
      hide Below, FlushPendingDelta;
    case OpProcess(d, out) =>
      ProcessStaysBelow(s, max, op);
    case OpFinish(final, flush, finalize, patch) =>
      CardActions.StepActions(s, max, op);
      var given := Given(s, final);
      FlushStaysBelow(given, max, flush, n);
      CloseKeepsElements(FlushPending(given, max, flush).state, finalize, patch);
      hide Below, FlushPending, Close;
    case OpFail(report, flush, finalize, patch) =>
      FlushStaysBelow(s, max, flush, n);
      var flushed := FlushPending(s, max, flush).state;
      CloseKeepsElements(WithFailed(flushed, report), finalize, patch);
      CardActions.StepActions(s, max, op);
      MorePanelsBelow(flushed.card.elements, n, |FailedActions(s.handle.actions, report)|);
      hide Below, FlushPending, Close;
  }

  lemma MorePanelsBelow(elements: seq<Element>, m: nat, n: nat)
    requires Below(elements, m) && m <= n
    ensures Below(elements, n)
  {
  }

  lemma {:induction false} IntactIsFresh(run: Run)
    requires Intact(run)
    ensures FreshInserts(run) && Below(After(run).card.elements, |After(run).handle.actions|)
    decreases |run.ops|
  {
    if run.ops != [] {
      var s := After(Front(run));
      IntactIsFresh(Front(run));
      StaysBelow(s, run.max, LastOp(run));
      assert !OnCard(s.card.elements, Content(|s.handle.actions|));
      hide Below, OnCard, Apply;
    }
  }

  /**
   Up to and including the operation that first compacts the list, whatever calls failed: every
   element has an id of its own and shows what the cache says.
   */
  lemma MirrorUntilCompaction(run: Run)
    requires run.ops != [] ==> Intact(Front(run))
    ensures Mirrors(After(run))
  {
    if run.ops != [] {
      var s := After(Front(run));
      IntactIsFresh(Front(run));
      assert !OnCard(s.card.elements, Content(|s.handle.actions|)) by {
        assert Below(s.card.elements, |s.handle.actions|);
      }
      hide Below, OnCard, Mirrors, Intact;
    }
    RunMirrors(run);
  }

  // ---- Suppressed updates ----

  /**
   After a continuation that returned no error, sent or suppressed, the panel with the last action's id
   shows its text.
   */
  lemma PanelWithIDShowsText(s: State, max: int, op: Op, k: nat)
    requires Mirrors(s) && op.OpProcess? && Choose(s.handle.actions, op.process).Continue? && Apply(s, max, op).ok
    requires k < |s.card.elements| && IDOf(s.card.elements[k]) == Content(Last(s.handle.actions).panel)
    ensures var t := Apply(s, max, op).state;
            && t.handle.actions != [] && |t.card.elements| == |s.card.elements|
            && IDOf(t.card.elements[k]) == Content(Last(t.handle.actions).panel)
            && t.card.elements[k].text == Truncate(RenderActionContent(Last(t.handle.actions)), max)
  {
    var a := Extended(Last(s.handle.actions), op.process.detail, Choose(s.handle.actions, op.process).fails);
    var content := Truncate(RenderActionContent(a), max);
    assert CacheAgrees(s.handle.lastSent, s.card.elements[k]);
    UpdatedElements(s.card.elements, Content(a.panel), content, k);
    hide Shaped, AllAgree, UpdateContent, TrimSpace, RenderActionContent;
  }

  // ---- After a compaction ----

  /** When two panels share the last action's id, a continuation changes the older one only. */
  lemma SharedIDUpdatesOlder(s: State, max: int, op: Op, i: nat, j: nat)
    requires op.OpProcess? && op.out.ok && Choose(s.handle.actions, op.process).Continue?
    requires i < j < |s.card.elements|
    requires forall k | 0 <= k < i :: IDOf(s.card.elements[k]) != Content(Last(s.handle.actions).panel)
    requires IDOf(s.card.elements[i]) == IDOf(s.card.elements[j]) == Content(Last(s.handle.actions).panel)
    ensures var t := Apply(s, max, op).state;
            && |t.card.elements| == |s.card.elements| && t.card.elements[j] == s.card.elements[j]
            && (t.card.elements == s.card.elements
                || (t.card.elements[i].text == Truncate(RenderActionContent(Last(t.handle.actions)), max)
                    && t.handle.lastSent[IDOf(s.card.elements[j])] == t.card.elements[i].text))
  {
    var a := Extended(Last(s.handle.actions), op.process.detail, Choose(s.handle.actions, op.process).fails);
    UpdateFirst(s.card.elements, Content(a.panel), Truncate(RenderActionContent(a), max), i);
    hide UpdateContent, TrimSpace, RenderActionContent;
  }

  const DELIVERY := Outcome(0, true, 0)

  const START_TOOL := OpProcess(Delta(Tool, "tool", false, false, "detail"), DELIVERY)

  function ToolOps(n: nat): (ops: seq<Op>)
    ensures |ops| == n
  {
    if n == 0 then [] else ToolOps(n - 1) + [START_TOOL]
  }

  /** One card on which that many titled tools were started, every call succeeding. */
  function Tools(n: nat, max: int): Run {
    Run("message", 0, max, ToolOps(n))
  }

  function ToolAction(position: nat): Action {
    NewAction(position, Tool, "tool", "detail")
  }

  ghost predicate PanelsInOrder(elements: seq<Element>, n: nat) {
    && |elements| == n + 1 && elements[n].AnswerElement?
    && forall i | 0 <= i < n :: elements[i] == StreamingPanel(ToolAction(i))
  }

  lemma ToolListed(actions: seq<Action>, a: Action)
    ensures var list := Listed(actions, a, true);
            |list| == (if |actions| < 8 then |actions| + 1 else 8) && SameWork(Last(list), a)
  {
    if |actions| >= 8 {
      CompactKeepsLastSeven(actions + [a]);
    }
    hide AllSameWork;
  }

  lemma ToolStep(s: State, max: int, op: Op, n: nat)
    requires op == START_TOOL
    requires PanelsInOrder(s.card.elements, n)
    ensures var t := Apply(s, max, op).state;
            && |t.handle.actions| == (if |s.handle.actions| < 8 then |s.handle.actions| + 1 else 8)
            && |t.card.elements| == n + 2 && t.card.elements[..n] == s.card.elements[..n]
               && t.card.elements[n + 1].AnswerElement?
            && t.card.elements[n] == StreamingPanel(ToolAction(|s.handle.actions|))
            && SameWork(Last(t.handle.actions), ToolAction(0))
  {
    var a := ToolAction(|s.handle.actions|);
    NewStep(s, max, op);
    ToolListed(s.handle.actions, a);
    InsertAt(s.card.elements, StreamingPanel(a), n);
    hide Apply, InsertBefore, Listed, StreamingPanel;
  }

  lemma ToolsUnfold(n: nat, max: int)
    requires n > 0
    ensures After(Tools(n, max)) == Apply(After(Tools(n - 1, max)), max, START_TOOL).state
  {
    assert Front(Tools(n, max)) == Tools(n - 1, max);
    hide Apply;
  }

  lemma PanelsGrow(before: seq<Element>, after: seq<Element>, n: nat)
    requires PanelsInOrder(before, n) && |after| == n + 2 && after[..n] == before[..n] && after[n + 1].AnswerElement?
    ensures forall i | 0 <= i < n :: after[i] == StreamingPanel(ToolAction(i))
    ensures after[n] == StreamingPanel(ToolAction(n)) ==> PanelsInOrder(after, n + 1)
  {
    assert forall i | 0 <= i < n :: after[i] == after[..n][i] == before[..n][i] == before[i];
  }

  lemma {:induction false} ToolsState(n: nat, max: int)
    requires n <= 9
    ensures var s := After(Tools(n, max));
            && |s.handle.actions| == (if n < 9 then n else 8) && PanelsInOrder(s.card.elements, n)
            && (n > 0 ==> SameWork(Last(s.handle.actions), ToolAction(0)))
  {
    if n > 0 {
      ToolsState(n - 1, max);
      ToolsUnfold(n, max);
      hide Apply, After, Tools;
      var before, after := After(Tools(n - 1, max)), After(Tools(n, max));
      ToolStep(before, max, START_TOOL, n - 1);
      PanelsGrow(before.card.elements, after.card.elements, n - 1);
    }
  }

  /** The tenth of ten tools, none of whose calls failed, gets the id of the ninth, and the mirror is gone. */
  lemma TenToolsShareAnID(max: int)
    ensures var s := After(Tools(10, max));
            && |s.card.elements| == 11 && IDOf(s.card.elements[8]) == IDOf(s.card.elements[9]) && !Mirrors(s)
  {
    ToolsState(9, max);
    ToolsUnfold(10, max);
    hide Apply, After, Tools;
    var before, after := After(Tools(9, max)), After(Tools(10, max));
    ToolStep(before, max, START_TOOL, 9);
    PanelsGrow(before.card.elements, after.card.elements, 9);
  }

  lemma ToolsLast(n: nat, max: int)
    requires n > 0
    ensures Front(Tools(n, max)) == Tools(n - 1, max) && LastOp(Tools(n, max)) == START_TOOL
  {
    hide After;
  }

  lemma ToolGrowsHistory(full: seq<Action>)
    ensures |CardActions.Next(false, full, START_TOOL)| == |full| + 1
  {
    hide Compact, Extended;
  }

  lemma {:induction false} ToolsHistory(n: nat, max: int)
    ensures |CardActions.FullHistory(Tools(n, max))| == n
  {
    if n > 0 {
      ToolsHistory(n - 1, max);
      ToolsLast(n, max);
      hide *;
      CardActions.LastStep(Tools(n, max));
      ToolGrowsHistory(CardActions.FullHistory(Tools(n - 1, max)));
    }
  }

  /** Three of ten are hidden, and the summary, which replaced an earlier one, says two. */
  ghost predicate Miscounted(actions: seq<Action>, full: seq<Action>) {
    && |actions| == 8 && actions[0].title == "\U{1F4CB} 2 earlier actions"
    && |full| == 10 && AllSameWork(actions[1..], full[3..])
  }

  /** Ten tools leave a summary of "2 earlier actions" above seven, with three of the ten hidden. */
  lemma TenToolsAreMiscounted(max: int)
    ensures Miscounted(After(Tools(10, max)).handle.actions, CardActions.FullHistory(Tools(10, max)))
  {
    ToolsHistory(10, max);
    ToolsLast(10, max);
    var actions, full := After(Tools(10, max)).handle.actions, CardActions.FullHistory(Tools(10, max));
    assert |actions| == 8 && actions[0].title == SummaryTitle(2) by {
      ToolsState(9, max);
      hide *;
      CardActions.LastStep(Tools(10, max));
      NextToolCompacts(After(Tools(9, max)).handle.actions);
    }
    CardActions.CompactionSimulates(Tools(10, max), Blank);
    hide After, CardActions.FullHistory, Tools;
    MiscountedFrom(actions, full);
  }

  lemma NextToolCompacts(actions: seq<Action>)
    requires |actions| == 8
    ensures var next := CardActions.Next(true, actions, START_TOOL); |next| == 8 && next[0].title == SummaryTitle(2)
  {
    CardActions.CompactedSummary(actions, START_TOOL);
    hide CardActions.Next, SummaryTitle;
  }

  lemma MiscountedFrom(actions: seq<Action>, full: seq<Action>)
    requires |actions| == 8 && actions[0].title == SummaryTitle(2) && |full| == 10
             && CardActions.ShowsRecentWork(actions, full)
    ensures Miscounted(actions, full)
  {
    assert SummaryTitle(2) == "\U{1F4CB} 2 earlier actions";
    hide AllSameWork, SummaryTitle;
  }
}
