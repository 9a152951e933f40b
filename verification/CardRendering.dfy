/**
 What each operation of the streaming card renderer does to its handle and to the remote card, as
 functions on values. The class in `CardStreamingRenderer` is proved to compute them. The parsing
 of a process delta is represented by its result.
 */
module CardRendering {
  import opened Text
  import opened CardState
  import opened RemoteCard

  /** A classified process delta; a tool delta without a title continues the tool before it. */
  datatype ProcessDelta =
    | Blank
    | Delta(kind: ActionType, title: string, continuation: bool, failed: bool, detail: string)

  /** `lastSent` remembers, per element, the text the renderer believes the card shows. */
  datatype Handle = Handle(
    messageID: string,
    actions: seq<Action>,
    finalAnswer: string,
    finished: bool,
    lastSent: map<ElementID, string>,
    pendingDelta: string,
    sequence: nat,
    updates: nat,
    lastFlush: int)

  datatype State = State(handle: Handle, card: Card)

  /** The state after an operation, and whether the operation returned no error. */
  datatype Reply = Reply(state: State, ok: bool)

  /** Five seconds. */
  const BATCH_FLUSH_INTERVAL := 5_000_000_000

  function Started(messageID: string, now: int): State {
    State(Handle(messageID, [], "", false, map[], "", 1, 0, now), INITIAL_CARD)
  }

  function Sent(h: Handle, id: ElementID): string {
    if id in h.lastSent then h.lastSent[id] else ""
  }

  function Last(actions: seq<Action>): Action
    requires actions != []
  {
    actions[|actions| - 1]
  }

  function WithLast(actions: seq<Action>, a: Action): seq<Action>
    requires actions != []
  {
    actions[|actions| - 1 := a]
  }

  function WithLastAction(s: State, a: Action): State
    requires s.handle.actions != []
  {
    s.(handle := s.handle.(actions := WithLast(s.handle.actions, a)))
  }

  // ---- Answer and panel texts ----

  /** An element gets a new text unless it is believed to show it already. */
  function Stream(s: State, id: ElementID, content: string, out: Outcome): Reply {
    var h := s.handle;
    if content == Sent(h, id) then Reply(s, true)
    else
      var card := Delivered(s.card, Update(h.sequence, id, content), out);
      if out.ok then
        Reply(State(h.(sequence := h.sequence + 1, lastSent := h.lastSent[id := content], updates := h.updates + 1,
                       lastFlush := out.at), card), true)
      else Reply(State(h.(sequence := h.sequence + 1), card), false)
  }

  function FlushPendingDelta(s: State, max: int, out: Outcome): Reply {
    var r := Stream(s, Answer, Truncate(s.handle.finalAnswer, max), out);
    if r.ok then r.(state := r.state.(handle := r.state.handle.(pendingDelta := ""))) else r
  }

  function SyncLast(s: State, max: int, out: Outcome): Reply
    requires s.handle.actions != []
  {
    var a := Last(s.handle.actions);
    Stream(s, Content(a.panel), Truncate(RenderActionContent(a), max), out)
  }

  function Grown(h: Handle, delta: string): Handle {
    h.(finalAnswer := h.finalAnswer + delta, pendingDelta := h.pendingDelta + delta)
  }

  predicate FlushDue(h: Handle, max: int, now: int) {
    now - h.lastFlush >= BATCH_FLUSH_INTERVAL || Utf8Length(h.pendingDelta) >= max
  }

  function Append(s: State, max: int, delta: string, now: int, out: Outcome): Reply {
    var grown := s.(handle := Grown(s.handle, delta));
    if FlushDue(grown.handle, max, now) then FlushPendingDelta(grown, max, out) else Reply(grown, true)
  }

  // ---- Process deltas ----

  datatype Branch = Nothing | Continue(fails: bool) | New(title: string, compacts: bool)

  /** Whether a delta continues the last action or begins one; only the fallback tool is never compacted after. */
  function Choose(actions: seq<Action>, d: ProcessDelta): Branch {
    if d.Blank? then Nothing
    else
      var sameKind := actions != [] && Last(actions).kind == d.kind;
      if d.kind == Tool then
        if d.title != "" then New(d.title, true)
        else if sameKind then Continue(d.failed)
        else New("Tool", false)
      else if sameKind && d.continuation then Continue(false)
      else New(d.title, true)
  }

  function Extended(a: Action, detail: string, fails: bool): Action {
    a.(detail := TrimSpace(a.detail + "\n" + detail), state := if fails then Failed else a.state)
  }

  function NewAction(position: nat, kind: ActionType, title: string, detail: string): Action {
    Action(position, position, kind, title, Running, detail)
  }

  function StreamingPanel(a: Action): Element {
    PanelElement(a.panel, "\U{1F43E} " + TitleForAction(a), RenderActionContent(a))
  }

  /** The list as it is once the action has been appended, and compacted if the insert went through. */
  function Listed(actions: seq<Action>, a: Action, compacts: bool): seq<Action> {
    if compacts then Compact(actions + [a]) else actions + [a]
  }

  function InsertAction(s: State, a: Action, compacts: bool, out: Outcome): Reply {
    var h := s.handle;
    var card := Delivered(s.card, Insert(h.sequence, StreamingPanel(a)), out);
    if out.ok then
      Reply(State(h.(actions := Listed(h.actions, a, compacts), sequence := h.sequence + 1,
                     lastSent := h.lastSent[Content(a.panel) := a.detail], updates := h.updates + 1,
                     lastFlush := out.at), card), true)
    else Reply(State(h.(actions := h.actions + [a], sequence := h.sequence + 1), card), false)
  }

  function AppendProcess(s: State, max: int, d: ProcessDelta, out: Outcome): Reply {
    var actions := s.handle.actions;
    match Choose(actions, d)
    case Nothing => Reply(s, true)
    case Continue(fails) =>
      SyncLast(WithLastAction(s, Extended(Last(actions), d.detail, fails)), max, out)
    case New(title, compacts) =>
      InsertAction(s, NewAction(|actions|, d.kind, title, d.detail), compacts, out)
  }

  // ---- The end of a card ----

  function FinalIcon(a: Action): string {
    match a.state
    case Done => if a.kind == Thinking then "\U{1F4A1}" else "\U{2705}"
    case Failed => "\U{274C}"
    case Running => "\U{1F43E}"
  }

  function FinalPanel(a: Action): Element {
    PanelElement(a.panel, FinalIcon(a) + " " + TitleForAction(a), RenderActionContent(a))
  }

  function FinalPanels(actions: seq<Action>): (panels: seq<Element>)
    ensures |panels| == |actions| && forall i | 0 <= i < |actions| :: panels[i] == FinalPanel(actions[i])
  {
    seq(|actions|, i requires 0 <= i < |actions| => FinalPanel(actions[i]))
  }

  function FinalCard(h: Handle): seq<Element> {
    FinalPanels(h.actions) + [AnswerElement(if h.finalAnswer == "" then WAITING else h.finalAnswer)]
  }

  /** Streaming ends; then the message is replaced, if there is one. */
  function Close(s: State, finalize: Outcome, patch: Outcome): Reply {
    var h := s.handle.(finished := true, sequence := s.handle.sequence + 1);
    var card := Delivered(s.card, Finalize(s.handle.sequence), finalize);
    if !finalize.ok then Reply(State(h, card), false)
    else if h.messageID == "" then Reply(State(h, card), true)
    else Reply(State(h, Delivered(card, Patch(FinalCard(h)), patch)), patch.ok)
  }

  function FlushPending(s: State, max: int, out: Outcome): Reply {
    if s.handle.pendingDelta == "" then Reply(s, true) else FlushPendingDelta(s, max, out)
  }

  /** A final text replaces the answer. */
  function Given(s: State, final: string): State {
    if final != "" then s.(handle := s.handle.(finalAnswer := final)) else s
  }

  function Finish(s: State, max: int, final: string, flush: Outcome, finalize: Outcome, patch: Outcome): Reply {
    var given := Given(s, final);
    var flushed := FlushPending(given, max, flush);
    if flushed.ok then Close(flushed.state, finalize, patch) else flushed
  }

  /** The last running action fails, or an error action of its own reports it; `report` is the fenced error text. */
  function FailedActions(actions: seq<Action>, report: string): seq<Action> {
    if actions != [] && Last(actions).state == Running then
      WithLast(actions, Last(actions).(state := Failed, detail := TrimSpace(Last(actions).detail + "\n\n" + report)))
    else actions + [NewAction(|actions|, Process, "Error", report).(state := Failed)]
  }

  function WithFailed(s: State, report: string): State {
    s.(handle := s.handle.(actions := FailedActions(s.handle.actions, report)))
  }

  function Fail(s: State, max: int, report: string, flush: Outcome, finalize: Outcome, patch: Outcome): Reply {
    var flushed := FlushPending(s, max, flush).state;
    Close(WithFailed(flushed, report), finalize, patch)
  }

  // ---- Runs ----

  datatype Op =
    | OpAppend(delta: string, now: int, out: Outcome)
    | OpProcess(process: ProcessDelta, out: Outcome)
    | OpFinish(final: string, flush: Outcome, finalize: Outcome, patch: Outcome)
    | OpFail(report: string, flush: Outcome, finalize: Outcome, patch: Outcome)

  function Apply(s: State, max: int, op: Op): Reply {
    match op
    case OpAppend(delta, now, out) => Append(s, max, delta, now, out)
    case OpProcess(d, out) => AppendProcess(s, max, d, out)
    case OpFinish(final, flush, finalize, patch) => Finish(s, max, final, flush, finalize, patch)
    case OpFail(report, flush, finalize, patch) => Fail(s, max, report, flush, finalize, patch)
  }

  /** One card: how it was started, the update limit, and the operations on it. */
  datatype Run = Run(messageID: string, startedAt: int, max: int, ops: seq<Op>)

  function Front(run: Run): Run
    requires run.ops != []
  {
    run.(ops := run.ops[..|run.ops| - 1])
  }

  function LastOp(run: Run): Op
    requires run.ops != []
  {
    run.ops[|run.ops| - 1]
  }

  function After(run: Run): State
    decreases |run.ops|
  {
    if run.ops == [] then Started(run.messageID, run.startedAt)
       else Apply(After(Front(run)), run.max, LastOp(run)).state
  }
}
