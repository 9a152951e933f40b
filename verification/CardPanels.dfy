/**
 Which panel a continuation reaches. A panel belongs to the action whose insert made it; an update
 goes to the first panel with the last action's current id. Compaction changes the id, not the panel.
 */
module CardPanels {
  import opened Text
  import opened CardState
  import opened RemoteCard
  import opened CardRendering
  import opened CardMirror
  import CardActions
  import CardAnswer
  import CardAgreement

  /** The element is the one an update of the id goes to. */
  ghost predicate Targets(elements: seq<Element>, id: ElementID, k: nat) {
    k < |elements| && IDOf(elements[k]) == id && forall i | 0 <= i < k :: IDOf(elements[i]) != id
  }

  /** The operation puts another action at the end of the list. */
  predicate Adds(actions: seq<Action>, op: Op) {
    || (op.OpProcess? && Choose(actions, op.process).New?)
    || (op.OpFail? && !(actions != [] && Last(actions).state == Running))
  }

  function Prefix(run: Run, n: nat): Run
    requires n <= |run.ops|
  {
    run.(ops := run.ops[..n])
  }

  /** From operation `n` on the run adds no action. */
  predicate NoneAdded(run: Run, n: nat)
    decreases |run.ops|
  {
    |run.ops| <= n || (NoneAdded(Front(run), n) && !Adds(After(Front(run)).handle.actions, LastOp(run)))
  }

  /** The element right above the answer has the last action's header: it was inserted for it. */
  ghost predicate OwnPanel(s: State, own: nat) {
    && Laid(s.card.elements) && own + 2 == |s.card.elements| && s.handle.actions != []
    && s.card.elements[own].header == StreamingPanel(Last(s.handle.actions)).header
  }

  /** An update of the last action goes to its own panel. */
  ghost predicate Reaches(s: State, own: nat)
    requires s.handle.actions != []
  {
    Targets(s.card.elements, Content(Last(s.handle.actions).panel), own)
  }

  /** The cache has the text of the last action's own panel. */
  predicate OwnCached(s: State, own: nat)
    requires own < |s.card.elements|
  {
    CacheAgrees(s.handle.lastSent, s.card.elements[own])
  }

  /** The operation inserts an action's panel: the call goes through. */
  predicate AddsPanel(s: State, op: Op) {
    op.OpProcess? && op.out.ok && Choose(s.handle.actions, op.process).New?
  }

  /** The action's insert went through, left the list uncompacted and used an id that was new to the card. */
  ghost predicate InsertedPlainly(before: State, op: Op) {
    && AddsPanel(before, op) && !CardActions.Compacts(before.handle.actions, op)
    && !OnCard(before.card.elements, Content(|before.handle.actions|))
  }

  // ---- Right after the insert ----

  lemma LastListed(actions: seq<Action>, op: Op)
    requires op.OpProcess? && op.out.ok && Choose(actions, op.process).New?
    ensures var a := Added(actions, op.process);
            var list := Listed(actions, a, Choose(actions, op.process).compacts);
            && list != [] && SameWork(Last(list), a)
            && Last(list).panel == if CardActions.Compacts(actions, op) then 7 else |actions|
  {
    var a := Added(actions, op.process);
    if CardActions.Compacts(actions, op) {
      CompactKeepsLastSeven(actions + [a]);
    }
    hide SameWork, AllSameWork, SummaryTitle;
  }

  lemma SameHeader(a: Action, b: Action)
    requires SameWork(a, b)
    ensures StreamingPanel(a).header == StreamingPanel(b).header
  {
  }

  /**
   The panel just inserted is its action's own; updates reach it exactly if the list was not compacted
   and the id is fresh.
   */
  lemma InsertedPanel(s: State, max: int, op: Op)
    requires Laid(s.card.elements) && AddsPanel(s, op)
    ensures var t, own := Apply(s, max, op).state, |s.card.elements| - 1;
            && OwnPanel(t, own)
            && (Reaches(t, own) <==> InsertedPlainly(s, op))
            && OwnCached(t, own)
  {
    var a, t, n := Added(s.handle.actions, op.process), Apply(s, max, op).state, |s.card.elements| - 1;
    NewStep(s, max, op);
    CardAgreement.InsertStaysLaid(s.card.elements, StreamingPanel(a));
    LastListed(s.handle.actions, op);
    SameHeader(Last(t.handle.actions), a);
    InsertedReaches(s, op, t);
    assert n >= 0;
    hide Apply, InsertBefore, Listed, SameWork, Reaches, InsertedPlainly, Laid, AddsPanel, CardActions.Compacts;
  }

  lemma InsertedReaches(s: State, op: Op, t: State)
    requires Laid(s.card.elements) && AddsPanel(s, op) && t.handle.actions != []
    requires t.card.elements == InsertBefore(s.card.elements, StreamingPanel(Added(s.handle.actions, op.process)))
    requires Last(t.handle.actions).panel == if CardActions.Compacts(s.handle.actions, op) then 7
             else |s.handle.actions|
    ensures Reaches(t, |s.card.elements| - 1) <==> InsertedPlainly(s, op)
  {
    var e := StreamingPanel(Added(s.handle.actions, op.process));
    assert CardActions.Compacts(s.handle.actions, op) ==> |s.handle.actions| >= 8;
    assert IDOf(e) == Content(|s.handle.actions|);
    CardAgreement.InsertStaysLaid(s.card.elements, e);
    InsertTargets(s.card.elements, e);
    hide InsertBefore, Targets, OnCard, Laid, StreamingPanel, CardActions.Compacts;
  }

  lemma InsertTargets(elements: seq<Element>, e: Element)
    requires Laid(elements) && e.PanelElement?
    ensures var grown, n := elements[..|elements| - 1] + [e, elements[|elements| - 1]], |elements| - 1;
            && (Targets(grown, IDOf(e), n) <==> !OnCard(elements, IDOf(e)))
            && (forall id | id != IDOf(e) :: !Targets(grown, id, n))
            && Laid(grown)
            && elements[..n] + [e] + elements[n..] == grown
  {
    var n := |elements| - 1;
    var grown := elements[..n] + [e, elements[n]];
    assert forall i | 0 <= i < n :: grown[i] == elements[i];
    assert IDOf(elements[n]) != IDOf(e);
    if !OnCard(elements, IDOf(e)) {
      assert forall i | 0 <= i < n :: IDOf(elements[i]) != IDOf(e);
    } else {
      var k :| 0 <= k < |elements| && IDOf(elements[k]) == IDOf(e);
      assert k < n && IDOf(grown[k]) == IDOf(e);
    }
  }

  // ---- While no action is added ----

  /** Same ids, headers and last action; only texts and details change. */
  ghost predicate SamePanels(s: State, t: State) {
    && |t.card.elements| == |s.card.elements|
    && (forall i | 0 <= i < |s.card.elements| ::
       t.card.elements[i] == WithText(s.card.elements[i], t.card.elements[i].text))
    && s.handle.actions != [] && t.handle.actions != []
    && Last(t.handle.actions).panel == Last(s.handle.actions).panel
    && Last(t.handle.actions).kind == Last(s.handle.actions).kind
    && Last(t.handle.actions).title == Last(s.handle.actions).title
  }

  lemma SamePanelsReach(s: State, t: State, own: nat)
    requires SamePanels(s, t) && OwnPanel(s, own)
    ensures OwnPanel(t, own) && (Reaches(t, own) <==> Reaches(s, own))
  {
    var es, fs := s.card.elements, t.card.elements;
    forall i | 0 <= i < |es| ensures IDOf(fs[i]) == IDOf(es[i]) && fs[i].AnswerElement? == es[i].AnswerElement? {
      assert fs[i] == WithText(es[i], fs[i].text);
    }
    assert fs[own].header == es[own].header by {
      assert fs[own] == WithText(es[own], fs[own].text);
    }
    hide IDOf, WithText;
    assert Laid(fs);
  }

  /** One update, of the answer or of the last action, leaves the panels and keeps the own panel's cache entry right. */
  lemma StreamKeepsPanels(s: State, id: ElementID, content: string, out: Outcome, own: nat)
    requires OwnPanel(s, own) && (id == Answer || id == Content(Last(s.handle.actions).panel))
    ensures SamePanels(s, Stream(s, id, content, out).state)
    ensures Reaches(s, own) && OwnCached(s, own) ==> OwnCached(Stream(s, id, content, out).state, own)
  {
    CardAnswer.UpdateKeepsIDs(s.card.elements, id, content);
    if Reaches(s, own) && id != Answer {
      UpdateFirst(s.card.elements, id, content, own);
    }
    hide UpdateContent;
  }

  lemma SameElements(s: State, t: State)
    requires t.card.elements == s.card.elements && s.handle.actions != [] && t.handle.actions != []
    requires Last(t.handle.actions).panel == Last(s.handle.actions).panel
    requires Last(t.handle.actions).kind == Last(s.handle.actions).kind
    requires Last(t.handle.actions).title == Last(s.handle.actions).title
    ensures SamePanels(s, t)
  {
  }

  /** What the steps between the insert and the continuation keep. */
  ghost predicate Kept(s: State, t: State, own: nat) {
    && OwnPanel(s, own) && SamePanels(s, t) && OwnPanel(t, own) && (Reaches(t, own) <==> Reaches(s, own))
    && (Reaches(s, own) && OwnCached(s, own) ==> OwnCached(t, own))
  }

  lemma StreamKeeps(s: State, id: ElementID, content: string, out: Outcome, own: nat)
    requires OwnPanel(s, own) && (id == Answer || id == Content(Last(s.handle.actions).panel))
    ensures Kept(s, Stream(s, id, content, out).state, own)
  {
    StreamKeepsPanels(s, id, content, out, own);
    hide Stream, SamePanels, OwnPanel, OwnCached, Reaches;
    SamePanelsReach(s, Stream(s, id, content, out).state, own);
  }

  /** Changes that leave the card and the cache alone, and the last action's identity. */
  lemma LocalKeeps(s: State, t: State, own: nat)
    requires OwnPanel(s, own) && t.card.elements == s.card.elements && t.handle.lastSent == s.handle.lastSent
    requires t.handle.actions != [] && Last(t.handle.actions).panel == Last(s.handle.actions).panel
    requires Last(t.handle.actions).kind == Last(s.handle.actions).kind
    requires Last(t.handle.actions).title == Last(s.handle.actions).title
    ensures Kept(s, t, own)
  {
    SameElements(s, t);
    SamePanelsReach(s, t, own);
    hide SamePanels, OwnPanel, Reaches;
  }

  lemma KeptChain(s: State, t: State, u: State, own: nat)
    requires Kept(s, t, own) && Kept(t, u, own)
    ensures Kept(s, u, own)
  {
    assert SamePanels(s, u) by {
      hide OwnPanel, Reaches, OwnCached;
      forall i | 0 <= i < |s.card.elements|
             ensures u.card.elements[i] == WithText(s.card.elements[i], u.card.elements[i].text) {
        assert t.card.elements[i] == WithText(s.card.elements[i], t.card.elements[i].text);
      }
    }
    hide SamePanels, OwnPanel, Reaches, OwnCached;
  }

  lemma FlushKeeps(s: State, max: int, out: Outcome, own: nat)
    requires OwnPanel(s, own)
    ensures Kept(s, FlushPendingDelta(s, max, out).state, own) && Kept(s, FlushPending(s, max, out).state, own)
  {
    var content := Truncate(s.handle.finalAnswer, max);
    var streamed := Stream(s, Answer, content, out).state;
    StreamKeeps(s, Answer, content, out, own);
    LocalKeeps(s, s, own);
    assert OwnPanel(streamed, own) by { hide OwnPanel, Reaches, SamePanels, OwnCached, Stream; }
    LocalKeeps(streamed, streamed.(handle := streamed.handle.(pendingDelta := "")), own);
    KeptChain(s, streamed, streamed.(handle := streamed.handle.(pendingDelta := "")), own);
    hide Kept, Stream, OwnPanel;
  }

  lemma CloseKeeps(s: State, finalize: Outcome, patch: Outcome, own: nat)
    requires OwnPanel(s, own)
    ensures Kept(s, Close(s, finalize, patch).state, own)
  {
    assert Close(s, finalize, patch).state.handle.lastSent == s.handle.lastSent by { hide FinalCard, OwnPanel; }
    CloseKeepsElements(s, finalize, patch);
    assert s.handle.actions != [];
    hide Close, OwnPanel;
    LocalKeeps(s, Close(s, finalize, patch).state, own);
  }

  lemma KeptOwns(s: State, t: State, own: nat)
    requires Kept(s, t, own)
    ensures OwnPanel(t, own)
  {
  }

  lemma AppendKeeps(s: State, max: int, op: Op, own: nat)
    requires OwnPanel(s, own) && op.OpAppend?
    ensures Kept(s, Apply(s, max, op).state, own)
  {
    var grown := s.(handle := Grown(s.handle, op.delta));
    LocalKeeps(s, grown, own);
    KeptOwns(s, grown, own);
    FlushKeeps(grown, max, op.out, own);
    KeptChain(s, grown, FlushPendingDelta(grown, max, op.out).state, own);
    hide Kept, OwnPanel, FlushPendingDelta;
  }

  lemma ContinueKeeps(s: State, max: int, op: Op, own: nat)
    requires OwnPanel(s, own) && op.OpProcess? && !Adds(s.handle.actions, op)
    ensures Kept(s, Apply(s, max, op).state, own)
  {
    var actions, d := s.handle.actions, op.process;
    if Choose(actions, d).Continue? {
      var a := Extended(Last(actions), d.detail, Choose(actions, d).fails);
      var longer := WithLastAction(s, a);
      LocalKeeps(s, longer, own);
      KeptOwns(s, longer, own);
      StreamKeeps(longer, Content(a.panel), Truncate(RenderActionContent(a), max), op.out, own);
      KeptChain(s, longer, Stream(longer, Content(a.panel), Truncate(RenderActionContent(a), max), op.out).state, own);
      hide Kept, OwnPanel, Stream, Extended;
    } else {
      LocalKeeps(s, s, own);
      hide Kept, OwnPanel;
    }
  }

  lemma FinishKeeps(s: State, max: int, op: Op, own: nat)
    requires OwnPanel(s, own) && op.OpFinish?
    ensures Kept(s, Apply(s, max, op).state, own)
  {
    var given := Given(s, op.final);
    LocalKeeps(s, given, own);
    KeptOwns(s, given, own);
    FlushKeeps(given, max, op.flush, own);
    var flushed := FlushPending(given, max, op.flush).state;
    KeptChain(s, given, flushed, own);
    KeptOwns(given, flushed, own);
    CloseKeeps(flushed, op.finalize, op.patch, own);
    KeptChain(s, flushed, Close(flushed, op.finalize, op.patch).state, own);
    hide Kept, OwnPanel, FlushPending, Close;
  }

  lemma FailKeeps(s: State, max: int, op: Op, own: nat)
    requires OwnPanel(s, own) && op.OpFail? && !Adds(s.handle.actions, op)
    ensures Kept(s, Apply(s, max, op).state, own)
  {
    FlushKeeps(s, max, op.flush, own);
    var flushed := FlushPending(s, max, op.flush).state;
    KeptOwns(s, flushed, own);
    assert flushed.handle.actions == s.handle.actions by { hide OwnPanel, Kept, Delivered, Truncate; }
    var failed := WithFailed(flushed, op.report);
    LocalKeeps(flushed, failed, own);
    KeptOwns(flushed, failed, own);
    KeptChain(s, flushed, failed, own);
    CloseKeeps(failed, op.finalize, op.patch, own);
    KeptChain(s, failed, Close(failed, op.finalize, op.patch).state, own);
    hide Kept, OwnPanel, FlushPending, Close, WithFailed;
  }

  lemma StepKeeps(s: State, max: int, op: Op, own: nat)
    requires OwnPanel(s, own) && !Adds(s.handle.actions, op)
    ensures Kept(s, Apply(s, max, op).state, own)
  {
    hide *;
    match op
    case OpAppend(_, _, _) => AppendKeeps(s, max, op, own);
    case OpProcess(_, _) => ContinueKeeps(s, max, op, own);
    case OpFinish(_, _, _, _) => FinishKeeps(s, max, op, own);
    case OpFail(_, _, _, _) => FailKeeps(s, max, op, own);
  }

  lemma {:induction false} RunKeeps(run: Run, n: nat, own: nat)
    requires n <= |run.ops| && OwnPanel(After(Prefix(run, n)), own) && NoneAdded(run, n)
    ensures Kept(After(Prefix(run, n)), After(run), own)
    decreases |run.ops|
  {
    if n == |run.ops| {
      assert Prefix(run, n) == run;
      LocalKeeps(After(run), After(run), own);
    } else {
      assert Prefix(Front(run), n) == Prefix(run, n);
      RunKeeps(Front(run), n, own);
      hide Kept, OwnPanel, Apply;
      KeptOwns(After(Prefix(run, n)), After(Front(run)), own);
      StepKeeps(After(Front(run)), run.max, LastOp(run), own);
      KeptChain(After(Prefix(run, n)), After(Front(run)), After(run), own);
    }
  }

  // ---- The continuation ----

  function OwnIndex(s: State): int {
    |s.card.elements| - 2
  }

  /** The last action has its own panel, and updates reach it exactly if it was inserted plainly. */
  ghost predicate PanelOf(s: State, before: State, op: Op) {
    && OwnIndex(s) >= 0 && OwnPanel(s, OwnIndex(s))
    && (Reaches(s, OwnIndex(s)) <==> InsertedPlainly(before, op))
    && (Reaches(s, OwnIndex(s)) ==> OwnCached(s, OwnIndex(s)))
  }

  lemma InsertedPanelOf(s: State, max: int, op: Op)
    requires Laid(s.card.elements) && AddsPanel(s, op)
    ensures PanelOf(Apply(s, max, op).state, s, op)
  {
    InsertedPanel(s, max, op);
    OwnAt(Apply(s, max, op).state, |s.card.elements| - 1);
    hide Apply, Reaches, OwnCached, OwnPanel, Laid, InsertedPlainly;
  }

  lemma OwnAt(s: State, own: nat)
    requires OwnPanel(s, own)
    ensures OwnIndex(s) == own
  {
  }

  lemma PanelOfOwns(s: State, before: State, op: Op)
    requires PanelOf(s, before, op)
    ensures OwnIndex(s) >= 0 && OwnPanel(s, OwnIndex(s))
  {
  }

  lemma KeptPanelOf(s: State, t: State, before: State, op: Op)
    requires PanelOf(s, before, op) && Kept(s, t, OwnIndex(s))
    ensures PanelOf(t, before, op)
  {
    hide Reaches, OwnCached, SamePanels, InsertedPlainly;
  }

  lemma PrefixStep(run: Run, n: nat)
    requires n < |run.ops|
    ensures After(Prefix(run, n + 1)) == Apply(After(Prefix(run, n)), run.max, run.ops[n]).state
  {
    assert Front(Prefix(run, n + 1)) == Prefix(run, n);
    hide Apply;
  }

  lemma AlwaysLaid(run: Run)
    ensures Laid(After(run).card.elements)
  {
    CardAnswer.AnswerAlwaysShown(run);
    hide Laid, After;
  }

  lemma LastPanel(run: Run, n: nat)
    requires n < |run.ops| && AddsPanel(After(Prefix(run, n)), run.ops[n]) && NoneAdded(run, n + 1)
    ensures PanelOf(After(run), After(Prefix(run, n)), run.ops[n])
  {
    hide *;
    var before, after := After(Prefix(run, n)), After(Prefix(run, n + 1));
    AlwaysLaid(Prefix(run, n));
    PrefixStep(run, n);
    InsertedPanelOf(before, run.max, run.ops[n]);
    PanelOfOwns(after, before, run.ops[n]);
    RunKeeps(run, n + 1, OwnIndex(after));
    KeptPanelOf(after, After(run), before, run.ops[n]);
  }

  /**
   The continuation's update, if it reaches the panel and no error is returned, shows there; if not, the
   panel stays.
   */
  lemma ContinuationAt(s: State, max: int, op: Op, own: nat)
    requires op.OpProcess? && Choose(s.handle.actions, op.process).Continue? && OwnPanel(s, own)
    ensures var t := Apply(s, max, op).state;
            && t.handle.actions != [] && |t.card.elements| == |s.card.elements|
            && (!Reaches(s, own) ==> t.card.elements[own] == s.card.elements[own])
            && (Reaches(s, own) && OwnCached(s, own) && Apply(s, max, op).ok ==>
                  t.card.elements[own].text == Truncate(RenderActionContent(Last(t.handle.actions)), max))
  {
    var a := Extended(Last(s.handle.actions), op.process.detail, Choose(s.handle.actions, op.process).fails);
    var content := Truncate(RenderActionContent(a), max);
    assert own < |s.card.elements|;
    hide OwnPanel, Extended, RenderActionContent, Truncate, Stream, Laid;
    assert content != "" by { TextIsNotEmpty(a, max); }
    SamePanelExtended(Last(s.handle.actions), op.process.detail, Choose(s.handle.actions, op.process).fails);
    StreamAt(WithLastAction(s, a), Content(a.panel), content, op.out, own);
  }

  lemma SamePanelExtended(a: Action, detail: string, fails: bool)
    ensures Extended(a, detail, fails).panel == a.panel
  {
  }

  lemma TextIsNotEmpty(a: Action, max: int)
    ensures Truncate(RenderActionContent(a), max) != ""
  {
  }

  /** An update that returns no error shows on the element it goes to, if the cache was right, and on no other. */
  lemma StreamAt(s: State, id: ElementID, content: string, out: Outcome, k: nat)
    requires k < |s.card.elements| && content != ""
    ensures var r := Stream(s, id, content, out);
            && |r.state.card.elements| == |s.card.elements| && r.state.handle.actions == s.handle.actions
            && (!Targets(s.card.elements, id, k) ==> r.state.card.elements[k] == s.card.elements[k])
            && (Targets(s.card.elements, id, k) && CacheAgrees(s.handle.lastSent, s.card.elements[k]) && r.ok ==>
                  r.state.card.elements[k].text == content)
  {
    CardAnswer.UpdateKeepsIDs(s.card.elements, id, content);
    if Targets(s.card.elements, id, k) {
      UpdateFirst(s.card.elements, id, content, k);
    } else {
      UpdateElsewhere(s.card.elements, id, content, k);
    }
    hide UpdateContent;
  }

  lemma {:induction false} UpdateElsewhere(elements: seq<Element>, id: ElementID, content: string, k: nat)
    requires k < |elements| && !Targets(elements, id, k)
    ensures k < |UpdateContent(elements, id, content)| && UpdateContent(elements, id, content)[k] == elements[k]
  {
    if IDOf(elements[0]) == id {
      FirstTargets(elements, id);
    } else if k > 0 {
      TargetsTail(elements, id, k);
      hide Targets, IDOf, WithText;
      UpdateElsewhere(elements[1..], id, content, k - 1);
    } else {
      CardAnswer.UpdateKeepsIDs(elements[1..], id, content);
      hide Targets, IDOf, WithText;
    }
  }

  lemma FirstTargets(elements: seq<Element>, id: ElementID)
    requires elements != [] && IDOf(elements[0]) == id
    ensures Targets(elements, id, 0)
  {
  }

  lemma TargetsTail(elements: seq<Element>, id: ElementID, k: nat)
    requires 0 < k < |elements| && IDOf(elements[0]) != id
    ensures Targets(elements[1..], id, k - 1) ==> Targets(elements, id, k)
  {
    assert forall i | 0 < i <= k :: elements[i] == elements[1..][i - 1];
  }

  // ---- Whose panel is whose ----

  /** For each panel on the card, from the top, the operation of the run that inserted it. */
  function Owners(run: Run): (owners: seq<nat>)
    ensures forall k | 0 <= k < |owners| :: owners[k] < |run.ops|
    decreases |run.ops|
  {
    if run.ops == [] then []
    else Owners(Front(run)) + if AddsPanel(After(Front(run)), LastOp(run)) then [|run.ops| - 1] else []
  }

  /** The panel an operation inserts. */
  function Made(s: State, op: Op): Element
    requires AddsPanel(s, op)
  {
    StreamingPanel(Added(s.handle.actions, op.process))
  }

  /** Same ids and headers; texts may differ. */
  ghost predicate SameButTexts(es: seq<Element>, fs: seq<Element>) {
    |fs| == |es| && forall i | 0 <= i < |es| :: fs[i] == WithText(es[i], fs[i].text)
  }

  lemma StreamSame(s: State, id: ElementID, content: string, out: Outcome)
    ensures SameButTexts(s.card.elements, Stream(s, id, content, out).state.card.elements)
  {
    CardAnswer.UpdateKeepsIDs(s.card.elements, id, content);
    hide UpdateContent;
  }

  lemma FlushSame(s: State, max: int, out: Outcome)
    ensures SameButTexts(s.card.elements, FlushPendingDelta(s, max, out).state.card.elements)
    ensures SameButTexts(s.card.elements, FlushPending(s, max, out).state.card.elements)
  {
    StreamSame(s, Answer, Truncate(s.handle.finalAnswer, max), out);
    hide Stream;
  }

  /** An operation that inserts no panel changes texts only. */
  lemma StepSame(s: State, max: int, op: Op)
    requires !AddsPanel(s, op)
    ensures SameButTexts(s.card.elements, Apply(s, max, op).state.card.elements)
  {
    hide SameButTexts, FlushPendingDelta, FlushPending, Stream;
    match op
    case OpAppend(delta, _, out) =>
      FlushSame(s.(handle := Grown(s.handle, delta)), max, out);
      SameItself(s.card.elements);
    case OpProcess(d, out) =>
      SameItself(s.card.elements);
      if Choose(s.handle.actions, d).Continue? {
        var a := Extended(Last(s.handle.actions), d.detail, Choose(s.handle.actions, d).fails);
        StreamSame(WithLastAction(s, a), Content(a.panel), Truncate(RenderActionContent(a), max), out);
      }
    case OpFinish(final, flush, finalize, patch) =>
      FlushSame(Given(s, final), max, flush);
      CloseKeepsElements(FlushPending(Given(s, final), max, flush).state, finalize, patch);
    case OpFail(report, flush, finalize, patch) =>
      FlushSame(s, max, flush);
      CloseKeepsElements(WithFailed(FlushPending(s, max, flush).state, report), finalize, patch);
  }

  lemma SameItself(es: seq<Element>)
    ensures SameButTexts(es, es)
  {
  }

  /** Every panel on the card is, but for its text, the one its owner made. */
  ghost predicate Owned(run: Run) {
    var es, owners := After(run).card.elements, Owners(run);
    && Laid(es) && |owners| + 1 == |es|
    && forall k: nat | k < |owners| :: OwnedAt(run, owners[k], es, k)
  }

  lemma {:induction false} AlwaysOwned(run: Run)
    ensures Owned(run)
    decreases |run.ops|
  {
    AlwaysLaid(run);
    if run.ops != [] {
      AlwaysOwned(Front(run));
      OwnersCount(run);
      var fs, owners := After(run).card.elements, Owners(run);
      forall k: nat | k < |owners| ensures OwnedAt(run, owners[k], fs, k) {
        OwnerStep(run, k);
      }
      hide OwnedAt, After, Owners, Laid;
    }
  }

  lemma OwnersCount(run: Run)
    requires run.ops != [] && Owned(Front(run))
    ensures |Owners(run)| + 1 == |After(run).card.elements|
  {
    CardElementsStep(run);
    hide After, Laid, AddsPanel, Made;
  }

  /** One new panel right above the answer, or other texts only. */
  ghost predicate ElementsAfter(s: State, op: Op, fs: seq<Element>) {
    var es := s.card.elements;
    es != [] && if AddsPanel(s, op) then fs == es[..|es| - 1] + [Made(s, op), es[|es| - 1]] else SameButTexts(es, fs)
  }

  lemma StepElements(s: State, max: int, op: Op)
    requires Laid(s.card.elements)
    ensures ElementsAfter(s, op, Apply(s, max, op).state.card.elements)
  {
    assert s.card.elements != [];
    hide Laid, SameButTexts, StreamingPanel;
    if AddsPanel(s, op) {
      NewStep(s, max, op);
      CardAgreement.InsertStaysLaid(s.card.elements, Made(s, op));
      hide Apply, InsertBefore, Listed;
    } else {
      hide Apply, AddsPanel;
      StepSame(s, max, op);
    }
  }

  /** What the run's last operation does to the elements. */
  lemma CardElementsStep(run: Run)
    requires run.ops != [] && Laid(After(Front(run)).card.elements)
    ensures ElementsAfter(After(Front(run)), LastOp(run), After(run).card.elements)
  {
    StepElements(After(Front(run)), run.max, LastOp(run));
    hide ElementsAfter, Apply, Laid;
  }

  /** The panel `k` of these elements is, but for its text, the one operation `i` of the run made. */
  ghost predicate OwnedAt(run: Run, i: nat, es: seq<Element>, k: nat) {
    && i < |run.ops| && k < |es| && AddsPanel(After(Prefix(run, i)), run.ops[i])
    && es[k] == WithText(Made(After(Prefix(run, i)), run.ops[i]), es[k].text)
  }

  lemma OwnedBefore(run: Run, i: nat, es: seq<Element>, k: nat)
    requires run.ops != [] && OwnedAt(Front(run), i, es, k)
    ensures OwnedAt(run, i, es, k)
  {
    assert Prefix(Front(run), i) == Prefix(run, i) && run.ops[i] == Front(run).ops[i];
    hide After, AddsPanel, Made;
  }

  lemma OwnedAfter(run: Run, i: nat, es: seq<Element>, fs: seq<Element>, k: nat)
    requires OwnedAt(run, i, es, k) && k < |fs| && fs[k] == WithText(es[k], fs[k].text)
    ensures OwnedAt(run, i, fs, k)
  {
    hide After, AddsPanel, Made;
  }

  lemma OwnersUnfold(run: Run)
    requires run.ops != []
    ensures Owners(run) == Owners(Front(run)) + if AddsPanel(After(Front(run)), LastOp(run)) then [|run.ops| - 1]
            else []
  {
    hide After, AddsPanel;
  }

  lemma OwnedOf(run: Run, k: nat)
    requires Owned(run) && k < |Owners(run)|
    ensures OwnedAt(run, Owners(run)[k], After(run).card.elements, k) && |Owners(run)| + 1 == |After(run).card.elements|
  {
    hide OwnedAt, After, Laid, Owners;
  }

  lemma NewOwned(run: Run, es: seq<Element>, fs: seq<Element>)
    requires run.ops != [] && es != [] && AddsPanel(After(Front(run)), LastOp(run))
    requires fs == es[..|es| - 1] + [Made(After(Front(run)), LastOp(run)), es[|es| - 1]]
    ensures OwnedAt(run, |run.ops| - 1, fs, |es| - 1)
  {
    assert Prefix(run, |run.ops| - 1) == Front(run);
    hide After, AddsPanel, Made;
  }

  lemma ElementAfter(s: State, op: Op, fs: seq<Element>, k: nat)
    requires ElementsAfter(s, op, fs) && k + 1 < |s.card.elements|
    ensures k < |fs| && fs[k] == WithText(s.card.elements[k], fs[k].text)
  {
    hide AddsPanel, Made, IDOf;
  }

  lemma OwnerStep(run: Run, k: nat)
    requires run.ops != [] && Owned(Front(run)) && k < |Owners(run)|
    ensures OwnedAt(run, Owners(run)[k], After(run).card.elements, k)
  {
    AlwaysLaid(Front(run));
    hide *;
    CardElementsStep(run);
    OwnersUnfold(run);
    OwnedCount(Front(run));
    var s, op, fs := After(Front(run)), LastOp(run), After(run).card.elements;
    if k < |Owners(Front(run))| {
      var i := Owners(Front(run))[k];
      OwnedOf(Front(run), k);
      ElementAfter(s, op, fs, k);
      OwnedBefore(run, i, s.card.elements, k);
      OwnedAfter(run, i, s.card.elements, fs, k);
    } else {
      InsertedElement(s, op, fs);
      NewOwned(run, s.card.elements, fs);
    }
  }

  lemma OwnedCount(run: Run)
    requires Owned(run)
    ensures |Owners(run)| + 1 == |After(run).card.elements|
  {
    hide OwnedAt, After, Laid, Owners;
  }

  lemma InsertedElement(s: State, op: Op, fs: seq<Element>)
    requires ElementsAfter(s, op, fs) && AddsPanel(s, op)
    ensures s.card.elements != []
            && fs == s.card.elements[..|s.card.elements| - 1] + [Made(s, op), s.card.elements[|s.card.elements| - 1]]
  {
    hide AddsPanel, Made;
  }

  // ---- The last action and its panel ----

  /**
   The operation at position `n` of the run added the last action; whether its panel was inserted is
   another matter.
   */
  predicate LastAdded(run: Run, n: nat) {
    n < |run.ops| && Adds(After(Prefix(run, n)).handle.actions, run.ops[n]) && NoneAdded(run, n + 1)
  }

  /** Every action was added by some operation, so the last one was. */
  lemma {:induction false} LastWasAdded(run: Run) returns (n: nat)
    requires After(run).handle.actions != []
    ensures LastAdded(run, n)
    decreases |run.ops|
  {
    n := |run.ops| - 1;
    assert Prefix(run, n) == Front(run);
    if !Adds(After(Front(run)).handle.actions, LastOp(run)) {
      CardActions.StepActions(After(Front(run)), run.max, LastOp(run));
      if After(Front(run)).handle.actions == [] {
        NextKeepsEmpty(After(Front(run)).handle.actions, LastOp(run));
      }
      n := LastWasAdded(Front(run));
      assert Prefix(Front(run), n) == Prefix(run, n);
      hide Apply, Adds;
    }
  }

  lemma NextKeepsEmpty(actions: seq<Action>, op: Op)
    requires actions == [] && !Adds(actions, op)
    ensures CardActions.Next(true, actions, op) == []
  {
  }

  lemma {:induction false} OwnersSince(run: Run, n: nat)
    requires n <= |run.ops| && NoneAdded(run, n)
    ensures Owners(run) == Owners(Prefix(run, n))
    decreases |run.ops|
  {
    if n == |run.ops| {
      assert Prefix(run, n) == run;
    } else {
      assert Prefix(Front(run), n) == Prefix(run, n);
      OwnersSince(Front(run), n);
      hide After;
    }
  }

  lemma OwnersAt(run: Run, n: nat)
    requires n < |run.ops|
    ensures Owners(Prefix(run, n + 1))
            == Owners(Prefix(run, n)) + if AddsPanel(After(Prefix(run, n)), run.ops[n]) then [n] else []
  {
    var upto := Prefix(run, n + 1);
    assert Front(upto) == Prefix(run, n) && LastOp(upto) == run.ops[n];
    hide After, AddsPanel;
  }

  /** The last action owns the lowest panel if its insert went through, and none otherwise. */
  lemma OwnerOfLast(run: Run, n: nat)
    requires LastAdded(run, n)
    ensures var owners := Owners(run);
            if AddsPanel(After(Prefix(run, n)), run.ops[n])
            then owners != [] && owners[|owners| - 1] == n && forall k | 0 <= k < |owners| - 1 :: owners[k] != n
            else forall k | 0 <= k < |owners| :: owners[k] != n
  {
    assert NoneAdded(run, n + 1);
    hide NoneAdded, After, AddsPanel, Adds;
    OwnersSince(run, n + 1);
    OwnersAt(run, n);
    assert forall k | 0 <= k < |Owners(Prefix(run, n))| :: Owners(Prefix(run, n))[k] < n;
    hide Owners;
  }

  /** The panel at `k` was inserted by operation `n`. */
  predicate IsOwn(owners: seq<nat>, n: nat, k: nat) {
    k < |owners| && owners[k] == n
  }

  /** Updates of the last action, which operation `n` added, go to the panel inserted for it. */
  ghost predicate ReachesOwn(s: State, owners: seq<nat>, n: nat) {
    s.handle.actions != []
    && exists k: nat :: IsOwn(owners, n, k) && Targets(s.card.elements, Content(Last(s.handle.actions).panel), k)
  }

  lemma OwnIsLowest(run: Run, n: nat)
    requires LastAdded(run, n)
    ensures |Owners(run)| + 1 == |After(run).card.elements|
    ensures forall k: nat ::
              IsOwn(Owners(run), n, k) <==> AddsPanel(After(Prefix(run, n)), run.ops[n]) && k == OwnIndex(After(run))
  {
    OwnerOfLast(run, n);
    AlwaysOwned(run);
    assert n < |run.ops| by { hide After, NoneAdded, Adds; }
    hide *;
    OwnedCount(run);
    LowestOwn(Owners(run), n, AddsPanel(After(Prefix(run, n)), run.ops[n]));
    IndexOfOwn(After(run));
  }

  lemma IndexOfOwn(s: State)
    ensures OwnIndex(s) == |s.card.elements| - 2
  {
  }

  lemma LowestOwn(owners: seq<nat>, n: nat, adds: bool)
    requires if adds then owners != [] && owners[|owners| - 1] == n
             && forall k | 0 <= k < |owners| - 1 :: owners[k] != n
             else forall k | 0 <= k < |owners| :: owners[k] != n
    ensures forall k: nat :: IsOwn(owners, n, k) <==> adds && k == |owners| - 1
  {
  }

  lemma ReachesOwnIff(run: Run, n: nat)
    requires LastAdded(run, n) && After(run).handle.actions != []
    ensures ReachesOwn(After(run), Owners(run), n) <==> InsertedPlainly(After(Prefix(run, n)), run.ops[n])
  {
    assert n < |run.ops| && NoneAdded(run, n + 1) by { hide After, NoneAdded, Adds; }
    OwnIsLowest(run, n);
    hide After, NoneAdded, LastAdded, Owners;
    if AddsPanel(After(Prefix(run, n)), run.ops[n]) {
      LastPanel(run, n);
      ReachedText(After(run), After(Prefix(run, n)), run.ops[n]);
    }
    hide IsOwn, Targets, PanelOf;
    assert InsertedPlainly(After(Prefix(run, n)), run.ops[n]) ==> AddsPanel(After(Prefix(run, n)), run.ops[n]);
    hide InsertedPlainly, AddsPanel;
  }

  lemma ReachedText(s: State, before: State, op: Op)
    requires PanelOf(s, before, op)
    ensures s.handle.actions != [] && 0 <= OwnIndex(s) < |s.card.elements| && OwnPanel(s, OwnIndex(s))
    ensures Reaches(s, OwnIndex(s)) <==> InsertedPlainly(before, op)
    ensures Reaches(s, OwnIndex(s)) ==> OwnCached(s, OwnIndex(s))
  {
    hide Laid, Reaches, InsertedPlainly, OwnCached;
  }

  // ---- The continuation ----

  predicate Continues(s: State, op: Op) {
    op.OpProcess? && Choose(s.handle.actions, op.process).Continue?
  }

  /** The continuation sends its text, and the call goes through; otherwise it is suppressed or fails. */
  predicate Written(s: State, max: int, op: Op)
    requires Continues(s, op)
  {
    op.out.ok && CardAgreement.ContinuedText(s, max, op) != Sent(s.handle, Content(Last(s.handle.actions).panel))
  }

  /**
   The panel operation `n` inserted, if it did, shows the text if updates reach it and no error is
   returned; else it stays.
   */
  ghost predicate OwnShows(s: State, max: int, op: Op, owners: seq<nat>, n: nat)
    requires Continues(s, op)
  {
    var r := Apply(s, max, op);
    && |r.state.card.elements| == |s.card.elements| == |owners| + 1
    && forall k: nat | IsOwn(owners, n, k) ::
         if ReachesOwn(s, owners, n) then r.ok ==>
            r.state.card.elements[k].text == CardAgreement.ContinuedText(s, max, op)
         else r.state.card.elements[k] == s.card.elements[k]
  }

  /**
   Only the first panel with the last action's id changes, another action's if the own is not reached;
   without one, none.
   */
  ghost predicate GoesToFirst(s: State, max: int, op: Op, owners: seq<nat>, n: nat)
    requires Continues(s, op)
  {
    var es, fs, id := s.card.elements, Apply(s, max, op).state.card.elements, Content(Last(s.handle.actions).panel);
    var text := CardAgreement.ContinuedText(s, max, op);
    && (!OnCard(es, id) ==> fs == es)
    && forall k: nat | Targets(es, id, k) ::
         && fs == (if Written(s, max, op) then es[k := WithText(es[k], text)] else es)
         && k < |owners| && (!ReachesOwn(s, owners, n) ==> owners[k] != n)
  }

  lemma ContinuationEffect(s: State, max: int, op: Op)
    requires Continues(s, op)
    ensures var t, text := Apply(s, max, op).state, CardAgreement.ContinuedText(s, max, op);
            && t.card.elements == (if Written(s, max, op)
                                   then UpdateContent(s.card.elements, Content(Last(s.handle.actions).panel), text)
                                   else s.card.elements)
            && t.handle.actions != [] && text == Truncate(RenderActionContent(Last(t.handle.actions)), max)
  {
    hide UpdateContent, TrimSpace, RenderActionContent, Truncate;
  }

  lemma GoesToFirstOf(s: State, max: int, op: Op, owners: seq<nat>, n: nat)
    requires Continues(s, op) && Laid(s.card.elements) && |owners| + 1 == |s.card.elements|
    ensures GoesToFirst(s, max, op, owners, n)
  {
    var es, id, text := s.card.elements, Content(Last(s.handle.actions).panel), CardAgreement.ContinuedText(s, max, op);
    ContinuationEffect(s, max, op);
    hide Apply, UpdateContent, CardAgreement.ContinuedText, Written;
    if !OnCard(es, id) {
      UpdateMissing(es, id, text);
    }
    forall k: nat | Targets(es, id, k)
      ensures UpdateContent(es, id, text) == es[k := WithText(es[k], text)] && k < |owners|
      ensures !ReachesOwn(s, owners, n) ==> owners[k] != n
    {
      UpdateFirst(es, id, text, k);
      assert es[|es| - 1].AnswerElement?;
      assert IsOwn(owners, n, k) ==> ReachesOwn(s, owners, n);
    }
  }

  lemma OwnShowsText(run: Run, n: nat, op: Op)
    requires LastAdded(run, n) && Continues(After(run), op)
    ensures OwnShows(After(run), run.max, op, Owners(run), n)
  {
    assert n < |run.ops| && NoneAdded(run, n + 1) by { hide After, NoneAdded, Adds; }
    assert After(run).handle.actions != [] by { hide After; }
    var s, before, owners := After(run), After(Prefix(run, n)), Owners(run);
    OwnIsLowest(run, n);
    ReachesOwnIff(run, n);
    hide After, NoneAdded, LastAdded, Owners;
    if AddsPanel(before, run.ops[n]) {
      LastPanel(run, n);
      OwnShowsAt(s, run.max, op, owners, n, before, run.ops[n]);
    } else {
      hide AddsPanel;
      ContinuationLength(s, run.max, op);
      hide Apply, ReachesOwn;
    }
  }

  lemma ContinuationLength(s: State, max: int, op: Op)
    requires Continues(s, op)
    ensures |Apply(s, max, op).state.card.elements| == |s.card.elements|
  {
    ContinuationEffect(s, max, op);
    CardAnswer.UpdateKeepsIDs(s.card.elements, Content(Last(s.handle.actions).panel),
        CardAgreement.ContinuedText(s, max, op));
    hide Apply, UpdateContent, CardAgreement.ContinuedText, Written;
  }

  lemma OwnShowsAt(s: State, max: int, op: Op, owners: seq<nat>, n: nat, before: State, ins: Op)
    requires Continues(s, op) && PanelOf(s, before, ins) && |owners| + 1 == |s.card.elements|
    requires forall k: nat :: IsOwn(owners, n, k) <==> k == OwnIndex(s)
    requires ReachesOwn(s, owners, n) <==> InsertedPlainly(before, ins)
    ensures OwnShows(s, max, op, owners, n)
  {
    ReachedText(s, before, ins);
    ContinuationAt(s, max, op, OwnIndex(s));
    ContinuationEffect(s, max, op);
    ContinuationLength(s, max, op);
    hide Apply, UpdateContent, CardAgreement.ContinuedText, Written, Reaches, OwnCached, ReachesOwn, InsertedPlainly,
         IsOwn, OwnPanel, PanelOf, Truncate, RenderActionContent;
  }

  /**
   For the last action, however its insert went: its updates go to the panel inserted for it exactly when
   the insert went through, did not compact the list and used an id new to the card. Then a continuation
   without error shows there. Otherwise it changes another action's panel, the first with the id, or none.
   */
  lemma ContinuationReachesIff(run: Run, n: nat, op: Op)
    requires LastAdded(run, n) && Continues(After(run), op)
    ensures ReachesOwn(After(run), Owners(run), n) <==> InsertedPlainly(After(Prefix(run, n)), run.ops[n])
    ensures OwnShows(After(run), run.max, op, Owners(run), n) && GoesToFirst(After(run), run.max, op, Owners(run), n)
  {
    assert After(run).handle.actions != [] by { hide After; }
    hide *;
    ReachesOwnIff(run, n);
    OwnShowsText(run, n, op);
    OwnIsLowest(run, n);
    AlwaysLaid(run);
    GoesToFirstOf(After(run), run.max, op, Owners(run), n);
  }

  // ---- Before the first compaction ----

  lemma {:induction false} IntactPrefix(run: Run, n: nat)
    requires Intact(run) && n <= |run.ops|
    ensures Intact(Prefix(run, n))
    decreases |run.ops|
  {
    if n == |run.ops| {
      assert Prefix(run, n) == run;
    } else {
      assert Prefix(Front(run), n) == Prefix(run, n);
      IntactPrefix(Front(run), n);
    }
  }

  lemma IntactPlainly(run: Run, n: nat)
    requires Intact(run) && n < |run.ops|
    ensures !CardActions.Compacts(After(Prefix(run, n)).handle.actions, run.ops[n])
    ensures !OnCard(After(Prefix(run, n)).card.elements, Content(|After(Prefix(run, n)).handle.actions|))
  {
    IntactPrefix(run, n + 1);
    var upto := Prefix(run, n + 1);
    assert Front(upto) == Prefix(run, n) && LastOp(upto) == run.ops[n];
    IntactIsFresh(Prefix(run, n));
    BelowIsFree(After(Prefix(run, n)).card.elements, |After(Prefix(run, n)).handle.actions|);
    hide After, Below, OnCard, CardActions.Compacts;
  }

  lemma BelowIsFree(elements: seq<Element>, n: nat)
    requires Below(elements, n)
    ensures !OnCard(elements, Content(n))
  {
  }

  /** The last action's number, once nothing was compacted: its place in the list, as when it was added. */
  lemma AddedNumber(actions: seq<Action>, op: Op)
    requires Adds(actions, op) && !CardActions.Compacts(actions, op)
    ensures var next := CardActions.Next(true, actions, op); next != [] && Last(next).panel == |actions|
  {
    hide SummaryTitle;
  }

  lemma {:induction false} LastNumberStays(run: Run, n: nat)
    requires n <= |run.ops| && NoneAdded(run, n) && After(Prefix(run, n)).handle.actions != []
    ensures After(run).handle.actions != []
    ensures Last(After(run).handle.actions).panel == Last(After(Prefix(run, n)).handle.actions).panel
    decreases |run.ops|
  {
    if n == |run.ops| {
      assert Prefix(run, n) == run;
    } else {
      assert Prefix(Front(run), n) == Prefix(run, n);
      LastNumberStays(Front(run), n);
      CardActions.LastStep(run);
      NumberStays(After(Front(run)).handle.actions, LastOp(run));
      hide After, Adds, CardActions.Next;
    }
  }

  lemma NumberStays(actions: seq<Action>, op: Op)
    requires actions != [] && !Adds(actions, op)
    ensures var next := CardActions.Next(true, actions, op); next != [] && Last(next).panel == Last(actions).panel
  {
    hide TrimSpace;
  }

  lemma {:induction false} SameSince(run: Run, n: nat)
    requires n <= |run.ops| && NoneAdded(run, n)
    ensures SameButTexts(After(Prefix(run, n)).card.elements, After(run).card.elements)
    decreases |run.ops|
  {
    if n == |run.ops| {
      assert Prefix(run, n) == run;
      SameItself(After(run).card.elements);
    } else {
      assert Prefix(Front(run), n) == Prefix(run, n);
      SameSince(Front(run), n);
      assert !AddsPanel(After(Front(run)), LastOp(run)) by { hide After; }
      AlwaysLaid(Front(run));
      CardElementsStep(run);
      hide After, Laid, AddsPanel, SameButTexts;
      SameChain(After(Prefix(run, n)).card.elements, After(Front(run)).card.elements, After(run).card.elements);
    }
  }

  lemma SameChain(es: seq<Element>, fs: seq<Element>, gs: seq<Element>)
    requires SameButTexts(es, fs) && SameButTexts(fs, gs)
    ensures SameButTexts(es, gs)
  {
    forall i | 0 <= i < |es| ensures gs[i] == WithText(es[i], gs[i].text) {
      assert fs[i] == WithText(es[i], fs[i].text) && gs[i] == WithText(fs[i], gs[i].text);
    }
  }

  lemma SameOnCard(es: seq<Element>, fs: seq<Element>, id: ElementID)
    requires SameButTexts(es, fs) && OnCard(fs, id)
    ensures OnCard(es, id)
  {
    var k :| 0 <= k < |fs| && IDOf(fs[k]) == id;
    assert fs[k] == WithText(es[k], fs[k].text);
  }

  /** An action whose insert failed has a number no panel has. */
  lemma IntactHasNoPanel(run: Run, n: nat)
    requires Intact(run) && LastAdded(run, n) && !AddsPanel(After(Prefix(run, n)), run.ops[n])
    ensures After(run).handle.actions != []
    ensures !OnCard(After(run).card.elements, Content(Last(After(run).handle.actions).panel))
  {
    var before, after := After(Prefix(run, n)), After(Prefix(run, n + 1));
    var upto := Prefix(run, n + 1);
    assert NoneAdded(run, n + 1) && Adds(before.handle.actions, run.ops[n]);
    assert Front(upto) == Prefix(run, n) && LastOp(upto) == run.ops[n];
    hide After, NoneAdded, Adds, AddsPanel, OnCard, CardActions.Next, CardActions.Compacts, Laid, SameButTexts,
         LastAdded;
    IntactPlainly(run, n);
    AddedNumber(before.handle.actions, run.ops[n]);
    CardActions.LastStep(upto);
    LastNumberStays(run, n + 1);
    AlwaysLaid(Prefix(run, n));
    CardElementsStep(upto);
    SameSince(run, n + 1);
    SameChain(before.card.elements, after.card.elements, After(run).card.elements);
    if OnCard(After(run).card.elements, Content(|before.handle.actions|)) {
      SameOnCard(before.card.elements, After(run).card.elements, Content(|before.handle.actions|));
    }
  }

  /**
   Until the first compaction an action is reached exactly if its insert went through; otherwise its
   text is nowhere.
   */
  lemma ContinuationReachesCard(run: Run, n: nat, op: Op)
    requires Intact(run) && LastAdded(run, n) && Continues(After(run), op)
    ensures ReachesOwn(After(run), Owners(run), n) <==> AddsPanel(After(Prefix(run, n)), run.ops[n])
    ensures OwnShows(After(run), run.max, op, Owners(run), n)
    ensures !AddsPanel(After(Prefix(run, n)), run.ops[n]) ==>
              Apply(After(run), run.max, op).state.card.elements == After(run).card.elements
  {
    ContinuationReachesIff(run, n, op);
    assert n < |run.ops| by { hide After, NoneAdded, Adds; }
    IntactPlainly(run, n);
    if !AddsPanel(After(Prefix(run, n)), run.ops[n]) {
      IntactHasNoPanel(run, n);
    }
    hide Apply, After, AddsPanel, OnCard, Targets, ReachesOwn, OwnShows, CardActions.Compacts, LastAdded, Intact,
         Owners;
  }

  // ---- A continuation that misses its panel ----

  const TOOL_OUTPUT := OpProcess(Delta(Tool, "", false, false, "output"), DELIVERY)

  /** Nine tools were started: the last action is panel 7 now, the panel inserted for it is panel 8. */
  ghost predicate NineStarted(s: State) {
    && PanelsInOrder(s.card.elements, 9) && s.handle.actions != []
    && Last(s.handle.actions).panel == 7 && SameWork(Last(s.handle.actions), ToolAction(0))
  }

  lemma NineToolsStarted()
    ensures NineStarted(After(Tools(9, 0))) && Mirrors(After(Tools(9, 0)))
  {
    ToolsState(9, 0);
    CardActions.ActionsAreIndexed(Tools(9, 0));
    ToolsIntact(8);
    assert Front(Tools(9, 0)) == Tools(8, 0) by { hide After; }
    MirrorUntilCompaction(Tools(9, 0));
    hide After, ToolOps, Mirrors, PanelsInOrder;
  }

  lemma {:induction false} ToolsIntact(n: nat)
    requires n <= 8
    ensures Intact(Tools(n, 0))
  {
    if n > 0 {
      ToolsIntact(n - 1);
      ToolsState(n - 1, 0);
      assert Front(Tools(n, 0)) == Tools(n - 1, 0);
      hide After;
    }
  }

  /** The last tool started owns the lowest panel. */
  lemma LastToolAdded(n: nat)
    requires n > 0
    ensures LastAdded(Tools(n, 0), n - 1) && Prefix(Tools(n, 0), n - 1) == Tools(n - 1, 0)
            && Tools(n, 0).ops[n - 1] == START_TOOL
    ensures Owners(Tools(n, 0)) != [] && Owners(Tools(n, 0))[|Owners(Tools(n, 0))| - 1] == n - 1
  {
    hide After;
    assert Prefix(Tools(n, 0), n - 1) == Tools(n - 1, 0);
    assert Front(Tools(n, 0)) == Tools(n - 1, 0) && LastOp(Tools(n, 0)) == START_TOOL;
  }

  /**
   Nine tools and one output, no call failing: the ninth tool's action has the text, its panel does not
   get it, and the eighth tool's panel does.
   */
  lemma NinthToolIsMissed()
    ensures LastAdded(Tools(9, 0), 8) && IsOwn(Owners(Tools(9, 0)), 8, 8)
    ensures Missed(After(Tools(9, 0)), Apply(After(Tools(9, 0)), 0, TOOL_OUTPUT).state)
  {
    LastToolAdded(9);
    NineToolsStarted();
    assert IsOwn(Owners(Tools(9, 0)), 8, 8)
           by { AlwaysOwned(Tools(9, 0)); hide After, Owners, Tools, OwnedAt, Mirrors, LastAdded; }
    hide LastAdded, After, Tools, Mirrors, IsOwn;
    OutputIsMissed(After(Tools(9, 0)));
  }

  /** The text is in the action and on the panel above its own, and the own panel is as it was inserted. */
  ghost predicate Missed(s: State, t: State) {
    && |t.card.elements| == |s.card.elements| == 10 && t.handle.actions != []
    && t.card.elements[8] == s.card.elements[8] == StreamingPanel(ToolAction(8))
    && t.card.elements[7].text == Last(t.handle.actions).detail == "detail\noutput"
  }

  lemma OutputIsMissed(s: State)
    requires NineStarted(s) && Mirrors(s)
    ensures Missed(s, Apply(s, 0, TOOL_OUTPUT).state)
  {
    var t := Apply(s, 0, TOOL_OUTPUT).state;
    OutputDetail(Last(s.handle.actions));
    CardActions.StepActions(s, 0, TOOL_OUTPUT);
    OutputIsDelivered(s);
    PanelWithIDShowsText(s, 0, TOOL_OUTPUT, 7);
    assert OwnPanel(s, 8) by { SameHeader(Last(s.handle.actions), ToolAction(8)); hide Extended; }
    ContinuationAt(s, 0, TOOL_OUTPUT, 8);
    assert !Reaches(s, 8);
    hide Apply, Extended, Mirrors, OwnPanel, Reaches, Laid;
  }

  lemma OutputDetail(a: Action)
    requires a.detail == "detail"
    ensures Extended(a, "output", false).detail == "detail\noutput"
  {
    assert "detail" + "\n" + "output" == "detail\noutput";
    TrimmedAlready("detail\noutput");
    hide TrimSpace;
  }

  lemma OutputIsDelivered(s: State)
    requires s.handle.actions != [] && Last(s.handle.actions).kind == Tool
    ensures Choose(s.handle.actions, TOOL_OUTPUT.process) == Continue(false) && Apply(s, 0, TOOL_OUTPUT).ok
  {
    hide UpdateContent, Extended, RenderActionContent, Truncate;
  }

  lemma TrimmedAlready(s: string)
    requires s != "" && !IsSpace(s[0]) && !IsSpace(s[|s| - 1])
    ensures TrimSpace(s) == s
  {
  }

  // ---- Continuations of an action whose insert failed ----

  const FAILED_TOOL := OpProcess(Delta(Tool, "tenth", false, false, "tenth"), Outcome(0, false, 0))

  /** One tool whose start failed on the way to the card. */
  const ONE_FAILED := Run("message", 0, 0, [FAILED_TOOL])

  /** Nothing was compacted and the output is delivered without error, but the card shows nothing of it. */
  lemma FailedToolIsNowhere()
    ensures Intact(ONE_FAILED) && LastAdded(ONE_FAILED, 0) && Continues(After(ONE_FAILED), TOOL_OUTPUT)
    ensures Apply(After(ONE_FAILED), 0, TOOL_OUTPUT).ok
    ensures Apply(After(ONE_FAILED), 0, TOOL_OUTPUT).state.card.elements == [AnswerElement(WAITING)]
  {
    assert ONE_FAILED == Longer(Tools(0, 0), FAILED_TOOL) && |Tools(0, 0).ops| == 0 by { hide After; }
    NoTools();
    ToolsIntact(0);
    hide After, Intact, LastAdded, Apply, Tools, Longer;
    var s := After(ONE_FAILED);
    FailedFirst(After(Tools(0, 0)));
    LongerRun(Tools(0, 0), FAILED_TOOL);
    AddsLast(Tools(0, 0), FAILED_TOOL);
    IntactLonger(Tools(0, 0), FAILED_TOOL);
    OutputIsDelivered(s);
    ContinuationEffect(s, 0, TOOL_OUTPUT);
    UpdateMissing(s.card.elements, Content(Last(s.handle.actions).panel),
        CardAgreement.ContinuedText(s, 0, TOOL_OUTPUT));
    hide Apply, UpdateContent, CardAgreement.ContinuedText, Written;
  }

  lemma FailedFirst(s: State)
    requires s == Started("message", 0)
    ensures var f := Apply(s, 0, FAILED_TOOL).state;
            f.card.elements == [AnswerElement(WAITING)] && |f.handle.actions| == 1
                && Last(f.handle.actions).kind == Tool
    ensures Adds(s.handle.actions, FAILED_TOOL) && !AddsPanel(s, FAILED_TOOL)
    ensures !CardActions.Compacts(s.handle.actions, FAILED_TOOL)
  {
  }

  lemma IntactLonger(run: Run, op: Op)
    requires Intact(run) && !CardActions.Compacts(After(run).handle.actions, op)
    ensures Intact(Longer(run, op))
  {
    LongerRun(run, op);
    hide After, CardActions.Compacts, Apply;
  }

  lemma NoTools()
    ensures After(Tools(0, 0)) == Started("message", 0)
  {
  }

  /** Nine tools, and a tenth whose start fails. */
  const TENTH_FAILED := Run("message", 0, 0, ToolOps(9) + [FAILED_TOOL])

  /** A run with one operation more. */
  function Longer(run: Run, op: Op): Run {
    run.(ops := run.ops + [op])
  }

  lemma LongerRun(run: Run, op: Op)
    ensures Front(Longer(run, op)) == Prefix(Longer(run, op), |run.ops|) == run && LastOp(Longer(run, op)) == op
    ensures After(Longer(run, op)) == Apply(After(run), run.max, op).state
  {
    assert Front(Longer(run, op)) == run;
    hide Apply;
  }

  lemma AddsLast(run: Run, op: Op)
    requires Adds(After(run).handle.actions, op) && !AddsPanel(After(run), op)
    ensures LastAdded(Longer(run, op), |run.ops|) && Owners(Longer(run, op)) == Owners(run)
  {
    LongerRun(run, op);
    var longer := Longer(run, op);
    assert |longer.ops| == |run.ops| + 1 && longer.ops[|run.ops|] == op;
    hide After, Adds, AddsPanel, Longer;
    assert NoneAdded(longer, |run.ops| + 1);
  }

  lemma TenthFailedState()
    ensures LastAdded(TENTH_FAILED, 9) && Owners(TENTH_FAILED) == Owners(Tools(9, 0))
    ensures After(TENTH_FAILED) == Apply(After(Tools(9, 0)), 0, FAILED_TOOL).state
  {
    assert TENTH_FAILED == Longer(Tools(9, 0), FAILED_TOOL) && |Tools(9, 0).ops| == 9 by { hide After; }
    assert Adds(After(Tools(9, 0)).handle.actions, FAILED_TOOL)
           && !AddsPanel(After(Tools(9, 0)), FAILED_TOOL) by { hide After; }
    hide After, Apply, Tools, Owners, LastAdded, Longer, Adds, AddsPanel;
    AddsLast(Tools(9, 0), FAILED_TOOL);
    LongerRun(Tools(9, 0), FAILED_TOOL);
  }

  /** The tenth action's output goes to the panel the ninth tool owns. */
  lemma TenthWritesOnNinth()
    ensures LastAdded(TENTH_FAILED, 9) && IsOwn(Owners(TENTH_FAILED), 8, 8)
    ensures Continues(After(TENTH_FAILED), TOOL_OUTPUT) && Apply(After(TENTH_FAILED), 0, TOOL_OUTPUT).ok
    ensures var t := Apply(After(TENTH_FAILED), 0, TOOL_OUTPUT).state;
            |t.card.elements| == 10 && t.card.elements[8].text == "tenth\noutput"
  {
    TenthFailedState();
    NinthToolIsMissed();
    ToolsState(9, 0);
    NineToolsStarted();
    hide After, LastAdded, Owners, Tools, ToolOps;
    OutputGoesToEight(After(Tools(9, 0)));
  }

  /** The failed start leaves the card and the cache, and its action as the ninth entry. */
  lemma FailedStart(s: State)
    requires |s.handle.actions| == 8 && Mirrors(s)
    ensures var f := Apply(s, 0, FAILED_TOOL).state;
            && f.handle.actions == s.handle.actions + [NewAction(8, Tool, "tenth", "tenth")]
            && f.card.elements == s.card.elements && Mirrors(f)
  {
    CardActions.StepActions(s, 0, FAILED_TOOL);
    MirrorKeptIffFresh(s, 0, FAILED_TOOL);
    hide Mirrors, Compact;
  }

  lemma OutputGoesToEight(s: State)
    requires PanelsInOrder(s.card.elements, 9) && |s.handle.actions| == 8 && Mirrors(s)
    ensures var f := Apply(s, 0, FAILED_TOOL).state;
            && Continues(f, TOOL_OUTPUT) && Apply(f, 0, TOOL_OUTPUT).ok
            && |Apply(f, 0, TOOL_OUTPUT).state.card.elements| == 10
            && Apply(f, 0, TOOL_OUTPUT).state.card.elements[8].text == "tenth\noutput"
  {
    FailedStart(s);
    hide Mirrors, Apply;
    TenthOutput(Apply(s, 0, FAILED_TOOL).state);
  }

  lemma TenthOutput(f: State)
    requires PanelsInOrder(f.card.elements, 9) && Mirrors(f)
    requires f.handle.actions != [] && Last(f.handle.actions) == NewAction(8, Tool, "tenth", "tenth")
    ensures Continues(f, TOOL_OUTPUT) && Apply(f, 0, TOOL_OUTPUT).ok
    ensures var t := Apply(f, 0, TOOL_OUTPUT).state;
            |t.card.elements| == 10 && t.card.elements[8].text == "tenth\noutput"
  {
    OutputIsDelivered(f);
    PanelWithIDShowsText(f, 0, TOOL_OUTPUT, 8);
    CardActions.StepActions(f, 0, TOOL_OUTPUT);
    TenthDetail();
    hide Mirrors, Apply, Extended, PanelsInOrder;
  }

  lemma TenthDetail()
    ensures Extended(NewAction(8, Tool, "tenth", "tenth"), "output", false).detail == "tenth\noutput"
  {
    assert "tenth" + "\n" + "output" == "tenth\noutput";
    TrimmedAlready("tenth\noutput");
    hide TrimSpace;
  }
}
