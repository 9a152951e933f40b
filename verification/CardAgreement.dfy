/**
 Exactly when the send cache stops telling what the card shows. `CardMirror` proves that it does
 while ids are distinct; here the ids are free, and the condition is on what the other panels with
 the id show.
 */
module CardAgreement {
  import opened Text
  import opened CardState
  import opened RemoteCard
  import opened CardRendering
  import opened CardMirror
  import CardAnswer

  /** Panels above one answer, all of them showing what the cache says. */
  ghost predicate Agreed(s: State) {
    Laid(s.card.elements) && AllAgree(s.handle.lastSent, s.card.elements)
  }

  /** The element shows the text, or the placeholder for an empty one. */
  predicate AlreadyShows(e: Element, text: string) {
    e.text == text || (text == "" && e.PanelElement? && e.text == RUNNING)
  }

  /** If the operation inserts a panel, every panel that has its id already shows its detail. */
  ghost predicate InsertAgrees(s: State, op: Op) {
    op.OpProcess? && op.out.ok && Choose(s.handle.actions, op.process).New? ==>
      forall i | 0 <= i < |s.card.elements| && IDOf(s.card.elements[i]) == Content(|s.handle.actions|) ::
        AlreadyShows(s.card.elements[i], op.process.detail)
  }

  /** The text a continuation gives its action. */
  function ContinuedText(s: State, max: int, op: Op): string
    requires op.OpProcess? && Choose(s.handle.actions, op.process).Continue?
  {
    var fails := Choose(s.handle.actions, op.process).fails;
    Truncate(RenderActionContent(Extended(Last(s.handle.actions), op.process.detail, fails)), max)
  }

  /** Of the elements with the id, all but the first show the text. */
  ghost predicate OthersShow(elements: seq<Element>, id: ElementID, text: string) {
    forall i, j | 0 <= i < j < |elements| && IDOf(elements[i]) == id && IDOf(elements[j]) == id ::
      elements[j].text == text
  }

  /** If the operation updates the last action's text, every other panel with its id shows that text already. */
  ghost predicate UpdateAgrees(s: State, max: int, op: Op) {
    op.OpProcess? && op.out.ok && Choose(s.handle.actions, op.process).Continue?
    && ContinuedText(s, max, op) != Sent(s.handle, Content(Last(s.handle.actions).panel)) ==>
      OthersShow(s.card.elements, Content(Last(s.handle.actions).panel), ContinuedText(s, max, op))
  }

  // ---- One gateway call ----

  lemma FirstWith(elements: seq<Element>, id: ElementID) returns (k: nat)
    requires OnCard(elements, id)
    ensures k < |elements| && IDOf(elements[k]) == id && forall i | 0 <= i < k :: IDOf(elements[i]) != id
  {
    k := 0;
    while IDOf(elements[k]) != id
      invariant k < |elements| && forall i | 0 <= i < k :: IDOf(elements[i]) != id
      decreases |elements| - k
    {
      k := k + 1;
    }
  }

  lemma UpdateStaysLaid(elements: seq<Element>, id: ElementID, content: string)
    requires Laid(elements)
    ensures Laid(UpdateContent(elements, id, content))
  {
    CardAnswer.UpdateKeepsIDs(elements, id, content);
    var updated := UpdateContent(elements, id, content);
    assert forall i | 0 <= i < |elements| :: updated[i].AnswerElement? == elements[i].AnswerElement?;
    hide UpdateContent, IDOf, WithText;
  }

  lemma UpdateAgreesIff(elements: seq<Element>, lastSent: map<ElementID, string>, id: ElementID, content: string)
    requires Laid(elements) && AllAgree(lastSent, elements) && (content != "" || id == Answer)
    ensures AllAgree(lastSent[id := content], UpdateContent(elements, id, content)) <==>
            OthersShow(elements, id, content)
  {
    var now := lastSent[id := content];
    if OnCard(elements, id) {
      var k := FirstWith(elements, id);
      UpdateFirst(elements, id, content, k);
      var updated := elements[k := WithText(elements[k], content)];
      hide UpdateContent;
      forall j | 0 <= j < |elements|
        ensures CacheAgrees(now, updated[j]) <==> j <= k || IDOf(elements[j]) != id || elements[j].text == content
      {
        assert CacheAgrees(lastSent, elements[j]);
        assert IDOf(updated[j]) == IDOf(elements[j]);
      }
      hide CacheAgrees, Laid;
    } else {
      UpdateMissing(elements, id, content);
      hide UpdateContent;
      forall j | 0 <= j < |elements| ensures CacheAgrees(now, elements[j]) && IDOf(elements[j]) != id {
        assert CacheAgrees(lastSent, elements[j]);
      }
    }
  }

  lemma StreamAgreesIff(s: State, id: ElementID, content: string, out: Outcome)
    requires Agreed(s) && (content != "" || id == Answer)
    ensures Agreed(Stream(s, id, content, out).state)
            <==> (out.ok && content != Sent(s.handle, id) ==> OthersShow(s.card.elements, id, content))
  {
    UpdateStaysLaid(s.card.elements, id, content);
    UpdateAgreesIff(s.card.elements, s.handle.lastSent, id, content);
    hide Laid, AllAgree, OthersShow, UpdateContent;
  }

  /** There is one answer element. */
  lemma AnswerIsAlone(elements: seq<Element>, text: string)
    requires Laid(elements)
    ensures OthersShow(elements, Answer, text)
  {
    assert forall i | 0 <= i < |elements| :: IDOf(elements[i]) == Answer <==> i == |elements| - 1;
  }

  lemma InsertStaysLaid(elements: seq<Element>, e: Element)
    requires Laid(elements) && e.PanelElement?
    ensures Laid(InsertBefore(elements, e))
    ensures var n := |elements| - 1; InsertBefore(elements, e) == elements[..n] + [e, elements[n]]
  {
    InsertAt(elements, e, |elements| - 1);
    hide InsertBefore;
  }

  lemma EntryAgreesIff(lastSent: map<ElementID, string>, e: Element, id: ElementID, text: string)
    requires CacheAgrees(lastSent, e)
    ensures CacheAgrees(lastSent[id := text], e) <==> (IDOf(e) == id ==> AlreadyShows(e, text))
  {
  }

  lemma NewEntryAgrees(lastSent: map<ElementID, string>, a: Action)
    ensures CacheAgrees(lastSent[Content(a.panel) := a.detail], StreamingPanel(a))
  {
  }

  lemma GrownAgrees(elements: seq<Element>, lastSent: map<ElementID, string>, e: Element)
    requires elements != [] && CacheAgrees(lastSent, e)
    ensures AllAgree(lastSent, elements[..|elements| - 1] + [e, elements[|elements| - 1]]) <==>
            AllAgree(lastSent, elements)
  {
    hide CacheAgrees;
    var n := |elements| - 1;
    var grown := elements[..n] + [e, elements[n]];
    assert grown[n] == e && grown[n + 1] == elements[n] && forall i | 0 <= i < n :: grown[i] == elements[i];
    if AllAgree(lastSent, grown) {
      assert CacheAgrees(lastSent, grown[n + 1]);
    }
  }

  lemma InsertAgreesIff(elements: seq<Element>, lastSent: map<ElementID, string>, a: Action)
    requires Laid(elements) && AllAgree(lastSent, elements)
    ensures AllAgree(lastSent[Content(a.panel) := a.detail], InsertBefore(elements, StreamingPanel(a)))
            <==> forall i | 0 <= i < |elements| && IDOf(elements[i]) == Content(a.panel) ::
                   AlreadyShows(elements[i], a.detail)
  {
    var now, e, n := lastSent[Content(a.panel) := a.detail], StreamingPanel(a), |elements| - 1;
    InsertStaysLaid(elements, e);
    NewEntryAgrees(lastSent, a);
    var grown := elements[..n] + [e, elements[n]];
    assert n >= 0;
    hide InsertBefore, CacheAgrees, AlreadyShows, StreamingPanel, Laid, IDOf;
    forall i | 0 <= i < |elements|
      ensures CacheAgrees(now, elements[i]) <==>
              (IDOf(elements[i]) == Content(a.panel) ==> AlreadyShows(elements[i], a.detail))
    {
      EntryAgreesIff(lastSent, elements[i], Content(a.panel), a.detail);
    }
    GrownAgrees(elements, now, e);
  }

  // ---- One operation ----

  lemma FlushAgrees(s: State, max: int, out: Outcome)
    requires Agreed(s)
    ensures Agreed(FlushPendingDelta(s, max, out).state) && Agreed(FlushPending(s, max, out).state)
  {
    var content := Truncate(s.handle.finalAnswer, max);
    AnswerIsAlone(s.card.elements, content);
    StreamAgreesIff(s, Answer, content, out);
    hide Laid, AllAgree, OthersShow, Stream;
  }

  lemma ProcessAgreesIff(s: State, max: int, op: Op)
    requires Agreed(s) && op.OpProcess?
    ensures Agreed(Apply(s, max, op).state) <==> InsertAgrees(s, op) && UpdateAgrees(s, max, op)
  {
    var d, actions := op.process, s.handle.actions;
    match Choose(actions, d)
    case Nothing =>
      hide Laid, AllAgree;
    case Continue(fails) =>
      var a := Extended(Last(actions), d.detail, fails);
      hide Laid, AllAgree, OthersShow, Stream, Extended;
      assert ContinuedText(s, max, op) != "";
      StreamAgreesIff(WithLastAction(s, a), Content(a.panel), ContinuedText(s, max, op), op.out) by {
        assert Agreed(WithLastAction(s, a));
      }
      assert a.panel == Last(actions).panel by { ExtendedPanel(Last(actions), d.detail, fails); }
    case New(_, _) =>
      if op.out.ok {
        NewStep(s, max, op);
        InsertStaysLaid(s.card.elements, StreamingPanel(Added(actions, d)));
        InsertAgreesIff(s.card.elements, s.handle.lastSent, Added(actions, d));
        hide Apply, Laid, AllAgree, InsertBefore, AlreadyShows, Listed;
      } else {
        hide Laid, AllAgree;
      }
  }

  lemma ExtendedPanel(a: Action, detail: string, fails: bool)
    ensures Extended(a, detail, fails).panel == a.panel
  {
  }

  /**
   From agreement, an operation keeps it exactly when what it writes under an id is what the other
   panels with that id show.
   */
  lemma AgreementKeptIff(s: State, max: int, op: Op)
    requires Agreed(s)
    ensures Agreed(Apply(s, max, op).state) <==> InsertAgrees(s, op) && UpdateAgrees(s, max, op)
  {
    hide Laid, AllAgree, FlushPendingDelta, FlushPending;
    match op
    case OpAppend(delta, _, out) => FlushAgrees(s.(handle := Grown(s.handle, delta)), max, out);
    case OpProcess(_, _) => ProcessAgreesIff(s, max, op);
    case OpFinish(final, flush, finalize, patch) =>
      FlushAgrees(Given(s, final), max, flush);
      CloseKeepsElements(FlushPending(Given(s, final), max, flush).state, finalize, patch);
    case OpFail(report, flush, finalize, patch) =>
      FlushAgrees(s, max, flush);
      CloseKeepsElements(WithFailed(FlushPending(s, max, flush).state, report), finalize, patch);
  }

  /** Every operation of the run writes only what the other panels with the id show. */
  ghost predicate AllKeep(run: Run)
    decreases |run.ops|
  {
    run.ops == []
    || (AllKeep(Front(run))
        && InsertAgrees(After(Front(run)), LastOp(run)) && UpdateAgrees(After(Front(run)), run.max, LastOp(run)))
  }

  /** The cache has told the truth at every point of a run exactly when every operation has kept it. */
  ghost predicate AlwaysAgreed(run: Run)
    decreases |run.ops|
  {
    Agreed(After(run)) && (run.ops == [] || AlwaysAgreed(Front(run)))
  }

  lemma {:induction false} AlwaysAgreedIff(run: Run)
    ensures AlwaysAgreed(run) <==> AllKeep(run)
    decreases |run.ops|
  {
    if run.ops != [] {
      AlwaysAgreedIff(Front(run));
      hide Agreed, InsertAgrees, UpdateAgrees, Apply;
      if AlwaysAgreed(Front(run)) {
        AgreementKeptIff(After(Front(run)), run.max, LastOp(run));
      }
    } else {
      assert Agreed(After(run));
    }
  }

  // ---- A run that loses agreement ----

  const OTHER_TOOL := OpProcess(Delta(Tool, "tool", false, false, "other"), DELIVERY)

  /**
   Nine tools, and a tenth with another detail, no call failing: the ninth panel shows one text and
   the cache holds another for its id.
   */
  lemma TenthToolDisagrees(max: int)
    ensures var s := After(Run("message", 0, max, ToolOps(9) + [OTHER_TOOL]));
            && |s.card.elements| == 11 && s.card.elements[8].text == "detail"
            && IDOf(s.card.elements[8]) in s.handle.lastSent && s.handle.lastSent[IDOf(s.card.elements[8])] == "other"
            && !Agreed(s)
  {
    var run := Run("message", 0, max, ToolOps(9) + [OTHER_TOOL]);
    assert Front(run) == Tools(9, max);
    ToolsState(9, max);
    var before := After(Tools(9, max));
    NewStep(before, max, OTHER_TOOL);
    var e := StreamingPanel(NewAction(8, Tool, "tool", "other"));
    InsertAt(before.card.elements, e, 9);
    var after := After(run);
    assert after == Apply(before, max, OTHER_TOOL).state;
    hide Apply, After, ToolOps, InsertBefore, Listed;
    assert after.card.elements[8] == before.card.elements[8] == StreamingPanel(ToolAction(8));
    assert !CacheAgrees(after.handle.lastSent, after.card.elements[8]);
  }
}
