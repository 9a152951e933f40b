/**
 The action list over whole runs of the renderer: its numbering, its length, and why a reader who
 only sees the compacted list sees the same recent work as one who sees everything.
 */
module CardActions {
  import opened CardState
  import opened CardRendering
  import RemoteCard
  import Text

  /** The list after one operation; `bounded` is the real renderer, otherwise nothing is ever merged. */
  function Next(bounded: bool, actions: seq<Action>, op: Op): seq<Action> {
    match op
    case OpAppend(_, _, _) => actions
    case OpFinish(_, _, _, _) => actions
    case OpFail(report, _, _, _) => FailedActions(actions, report)
    case OpProcess(d, out) =>
      match Choose(actions, d)
      case Nothing => actions
      case Continue(fails) => WithLast(actions, Extended(Last(actions), d.detail, fails))
      case New(title, compacts) =>
        Listed(actions, NewAction(|actions|, d.kind, title, d.detail), bounded && compacts && out.ok)
  }

  function Tracked(bounded: bool, ops: seq<Op>): seq<Action> {
    if ops == [] then [] else Next(bounded, Tracked(bounded, ops[..|ops| - 1]), ops[|ops| - 1])
  }

  /** Every action of the run, as a renderer that never compacts would hold it. */
  function FullHistory(run: Run): seq<Action> {
    Tracked(false, run.ops)
  }

  lemma StepActions(s: State, max: int, op: Op)
    ensures Apply(s, max, op).state.handle.actions == Next(true, s.handle.actions, op)
  {
    hide RemoteCard.Delivered, Compact, Extended;
    if op.OpFinish? {
      FinishKeepsActions(s, max, op);
    } else if op.OpFail? {
      FailFailsActions(s, max, op);
    }
  }

  lemma FinishKeepsActions(s: State, max: int, op: Op)
    requires op.OpFinish?
    ensures Apply(s, max, op).state.handle.actions == s.handle.actions
  {
    hide RemoteCard.Delivered, FinalCard;
  }

  lemma FailFailsActions(s: State, max: int, op: Op)
    requires op.OpFail?
    ensures Apply(s, max, op).state.handle.actions == FailedActions(s.handle.actions, op.report)
  {
    hide RemoteCard.Delivered, FinalCard, FailedActions;
  }

  lemma {:induction false} ActionsOf(run: Run)
    ensures After(run).handle.actions == Tracked(true, run.ops)
    decreases |run.ops|
  {
    if run.ops != [] {
      ActionsOf(Front(run));
      StepActions(After(Front(run)), run.max, LastOp(run));
    }
  }

  // ---- Numbering ----

  lemma NextIsIndexed(bounded: bool, actions: seq<Action>, op: Op)
    requires Indexed(actions)
    ensures Indexed(Next(bounded, actions, op))
  {
    if op.OpProcess? && Choose(actions, op.process).New? {
      var a := NewAction(|actions|, op.process.kind, Choose(actions, op.process).title, op.process.detail);
      CompactIsIndexed(actions + [a]);
    }
    hide Compact, Extended;
  }

  lemma {:induction false} TrackedIsIndexed(bounded: bool, ops: seq<Op>)
    ensures Indexed(Tracked(bounded, ops))
  {
    if ops != [] {
      TrackedIsIndexed(bounded, ops[..|ops| - 1]);
      NextIsIndexed(bounded, Tracked(bounded, ops[..|ops| - 1]), ops[|ops| - 1]);
    }
  }

  /** In every state, compacted or not and whatever calls failed, entry i is panel i. */
  lemma ActionsAreIndexed(run: Run)
    ensures Indexed(After(run).handle.actions)
  {
    ActionsOf(run);
    TrackedIsIndexed(true, run.ops);
  }

  // ---- Length ----

  /**
   An operation that adds an entry and returns before the list could be compacted: a failed insert, or
   an error entry.
   */
  predicate AddsUnmerged(actions: seq<Action>, op: Op) {
    op.OpFail? || (op.OpProcess? && !op.out.ok && Choose(actions, op.process).New?)
  }

  function Unmerged(run: Run): nat
    decreases |run.ops|
  {
    if run.ops == [] then 0
    else Unmerged(Front(run)) + (if AddsUnmerged(After(Front(run)).handle.actions, LastOp(run)) then 1 else 0)
  }

  predicate EndsInTool(actions: seq<Action>) {
    actions != [] && Last(actions).kind == Tool
  }

  /** How many entries the list may have after that many unmerged ones. */
  function Bound(unmerged: nat, actions: seq<Action>): nat {
    MAX_ACTIONS + 2 * unmerged + if EndsInTool(actions) then 1 else 0
  }

  lemma NextIsBounded(actions: seq<Action>, op: Op, unmerged: nat)
    requires |actions| <= Bound(unmerged, actions)
    ensures var next := Next(true, actions, op);
            |next| <= Bound(unmerged + (if AddsUnmerged(actions, op) then 1 else 0), next)
  {
    if op.OpProcess? && Choose(actions, op.process).New? {
      var list := actions
          + [NewAction(|actions|, op.process.kind, Choose(actions, op.process).title, op.process.detail)];
      if |list| > MAX_ACTIONS {
        CompactKeepsLastSeven(list);
      }
    }
    hide Compact, Extended;
  }

  /**
   The list has eight entries, two more for each entry added without compacting, and one more only if a
   tool is last.
   */
  lemma {:induction false} ListIsBounded(run: Run)
    ensures var actions := After(run).handle.actions; |actions| <= Bound(Unmerged(run), actions)
    decreases |run.ops|
  {
    if run.ops != [] {
      var s := After(Front(run));
      ListIsBounded(Front(run));
      StepActions(s, run.max, LastOp(run));
      NextIsBounded(s.handle.actions, LastOp(run), Unmerged(Front(run)));
      hide Next, Bound, AddsUnmerged, Apply;
    }
  }

  /** When every insert goes through there are at most nine entries, and nine only with a tool last. */
  lemma AtMostNine(run: Run)
    requires Unmerged(run) == 0
    ensures var actions := After(run).handle.actions;
            |actions| <= 9 && (|actions| == 9 ==> Last(actions).kind == Tool)
  {
    ListIsBounded(run);
  }

  // ---- Compaction against the full history ----

  /** `actions` is all of `full`, or a summary followed by its last entries, at least seven of them. */
  ghost predicate Abridges(actions: seq<Action>, full: seq<Action>) {
    actions == full ||
    (MAX_ACTIONS <= |actions| < |full| && actions[0].kind == Process
     && AllSameWork(actions[1..], full[|full| - |actions| + 1..]))
  }

  lemma SameLast(actions: seq<Action>, full: seq<Action>)
    requires Abridges(actions, full)
    ensures (actions == []) == (full == [])
    ensures actions != [] ==> SameWork(Last(actions), Last(full))
  {
    if actions != full {
      assert actions[1..][|actions| - 2] == Last(actions);
      assert full[|full| - |actions| + 1..][|actions| - 2] == Last(full);
    }
  }

  lemma SameChoice(actions: seq<Action>, full: seq<Action>, d: ProcessDelta)
    requires Abridges(actions, full)
    ensures Choose(actions, d) == Choose(full, d)
  {
    SameLast(actions, full);
    hide Abridges;
  }

  lemma AbridgesWithLast(actions: seq<Action>, full: seq<Action>, a: Action, b: Action)
    requires Abridges(actions, full) && actions != [] && full != [] && SameWork(a, b)
    requires actions == full ==> a == b
    ensures Abridges(WithLast(actions, a), WithLast(full, b))
  {
    if actions != full {
      var xs, ys := WithLast(actions, a)[1..], WithLast(full, b)[|full| - |actions| + 1..];
      assert forall i | 0 <= i < |xs| :: i < |xs| - 1 ==>
             xs[i] == actions[1..][i] && ys[i] == full[|full| - |actions| + 1..][i];
    }
  }

  lemma AbridgesAppend(actions: seq<Action>, full: seq<Action>, a: Action, b: Action)
    requires Abridges(actions, full) && SameWork(a, b)
    requires actions == full ==> a == b
    ensures Abridges(actions + [a], full + [b])
  {
    if actions != full {
      var n := |full| - |actions| + 1;
      assert (actions + [a])[1..] == actions[1..] + [a];
      assert (full + [b])[n..] == full[n..] + [b];
    }
  }

  lemma LastSeven(actions: seq<Action>, full: seq<Action>)
    requires Abridges(actions, full) && actions != full
    ensures 8 <= |actions| < |full| && AllSameWork(actions[|actions| - 7..], full[|full| - 7..])
  {
    var tail, fullTail := actions[|actions| - 7..], full[|full| - 7..];
    assert forall i | 0 <= i < 7 ::
        tail[i] == actions[1..][|actions| - 8 + i] && fullTail[i] == full[|full| - |actions| + 1..][|actions| - 8 + i];
  }

  lemma SameTail(list: seq<Action>, n: nat)
    requires n <= |list|
    ensures AllSameWork(list[n..], list[n..])
  {
  }

  lemma AbridgesCompact(list: seq<Action>, full: seq<Action>)
    requires Abridges(list, full)
    ensures Abridges(Compact(list), full)
  {
    if |list| > MAX_ACTIONS {
      CompactKeepsLastSeven(list);
      if list == full {
        SameTail(list, |list| - 7);
      } else {
        LastSeven(list, full);
      }
      SameWorkChain(Compact(list)[1..], list[|list| - 7..], full[|full| - 7..]);
      hide Compact, AllSameWork;
    }
  }

  lemma SameWorkChain(xs: seq<Action>, ys: seq<Action>, zs: seq<Action>)
    requires AllSameWork(xs, ys) && AllSameWork(ys, zs)
    ensures AllSameWork(xs, zs)
  {
  }

  lemma NextAbridges(actions: seq<Action>, full: seq<Action>, op: Op)
    requires Abridges(actions, full) && Indexed(actions) && Indexed(full)
    ensures Abridges(Next(true, actions, op), Next(false, full, op))
  {
    SameLast(actions, full);
    hide Abridges, Compact;
    if op.OpProcess? {
      var d := op.process;
      SameChoice(actions, full, d);
      match Choose(actions, d)
      case Nothing =>
      case Continue(fails) =>
        AbridgesWithLast(actions, full, Extended(Last(actions), d.detail, fails),
            Extended(Last(full), d.detail, fails));
      case New(title, compacts) =>
        var a, b := NewAction(|actions|, d.kind, title, d.detail), NewAction(|full|, d.kind, title, d.detail);
        AbridgesAppend(actions, full, a, b);
        AbridgesCompact(actions + [a], full + [b]);
    } else if op.OpFail? {
      NextAbridgesFailed(actions, full, op.report);
    }
  }

  lemma NextAbridgesFailed(actions: seq<Action>, full: seq<Action>, report: string)
    requires Abridges(actions, full) && Indexed(actions) && Indexed(full)
    ensures Abridges(FailedActions(actions, report), FailedActions(full, report))
  {
    SameLast(actions, full);
    hide Abridges, Indexed, Text.TrimSpace;
    if actions != [] && Last(actions).state == Running {
      AbridgesWithLast(actions, full,
                       Last(actions).(state := Failed,
                           detail := Text.TrimSpace(Last(actions).detail + "\n\n" + report)),
                       Last(full).(state := Failed, detail := Text.TrimSpace(Last(full).detail + "\n\n" + report)));
    } else {
      AbridgesAppend(actions, full, NewAction(|actions|, Process, "Error", report).(state := Failed),
                     NewAction(|full|, Process, "Error", report).(state := Failed));
    }
  }

  lemma {:induction false} TrackedAbridges(ops: seq<Op>)
    ensures Abridges(Tracked(true, ops), Tracked(false, ops))
  {
    if ops != [] {
      var front := ops[..|ops| - 1];
      TrackedAbridges(front);
      TrackedIsIndexed(true, front);
      TrackedIsIndexed(false, front);
      NextAbridges(Tracked(true, front), Tracked(false, front), ops[|ops| - 1]);
    }
  }

  /** Nothing is hidden, or a list of at least eight entries ends in the last seven of the history. */
  ghost predicate ShowsRecentWork(actions: seq<Action>, full: seq<Action>) {
    actions == full || (8 <= |actions| < |full| && AllSameWork(actions[|actions| - 7..], full[|full| - 7..]))
  }

  /**
   After any run the compacting renderer takes the same branch for the next delta as one that never
   compacts, and once the lists differ its last seven entries are the last seven of the history.
   */
  lemma CompactionSimulates(run: Run, d: ProcessDelta)
    ensures Choose(After(run).handle.actions, d) == Choose(FullHistory(run), d)
    ensures ShowsRecentWork(After(run).handle.actions, FullHistory(run))
  {
    hide *;
    ActionsOf(run);
    FullHistoryAbridged(run);
    SameChoice(After(run).handle.actions, FullHistory(run), d);
    RecentWork(After(run).handle.actions, FullHistory(run));
  }

  lemma FullHistoryAbridged(run: Run)
    ensures Abridges(Tracked(true, run.ops), FullHistory(run))
  {
    TrackedAbridges(run.ops);
    hide Abridges, Tracked;
  }

  lemma RecentWork(actions: seq<Action>, full: seq<Action>)
    requires Abridges(actions, full)
    ensures ShowsRecentWork(actions, full)
  {
    hide Abridges, AllSameWork;
    if actions != full {
      LastSeven(actions, full);
    }
  }

  // ---- What the summary counts ----

  /** The operation adds an entry that pushes the list over its limit. */
  predicate Compacts(actions: seq<Action>, op: Op) {
    && op.OpProcess? && op.out.ok && |actions| >= MAX_ACTIONS
    && Choose(actions, op.process).New? && Choose(actions, op.process).compacts
  }

  /**
   The summary's count is the number of entries hidden from the full history exactly when the list
   was complete before: a summary merged again counts as one.
   */
  lemma SummaryCountsHiddenIffFirst(run: Run)
    requires run.ops != [] && Compacts(After(Front(run)).handle.actions, LastOp(run))
    ensures var actions, full := After(run).handle.actions, FullHistory(run);
            && |actions| == 8 && |full| > 8
            && (actions[0].title == SummaryTitle(|full| - 7)
                <==> After(Front(run)).handle.actions == FullHistory(Front(run)))
  {
    hide *;
    ActionsOf(Front(run));
    FullHistoryAbridged(Front(run));
    LastStep(run);
    CountIffComplete(After(Front(run)).handle.actions, FullHistory(Front(run)), LastOp(run));
  }

  lemma LastStep(run: Run)
    requires run.ops != []
    ensures After(run).handle.actions == Next(true, After(Front(run)).handle.actions, LastOp(run))
    ensures FullHistory(run) == Next(false, FullHistory(Front(run)), LastOp(run))
  {
    StepActions(After(Front(run)), run.max, LastOp(run));
    hide Next, Apply;
  }

  lemma CountIffComplete(actions: seq<Action>, full: seq<Action>, op: Op)
    requires Abridges(actions, full) && Compacts(actions, op)
    ensures var next, fullNext := Next(true, actions, op), Next(false, full, op);
            |next| == 8 && |fullNext| > 8 && (next[0].title == SummaryTitle(|fullNext| - 7) <==> actions == full)
  {
    SameChoice(actions, full, op.process);
    CompactedSummary(actions, op);
    SummaryTitleInjective(|actions| + 1 - 7, |full| + 1 - 7);
    assert |Next(false, full, op)| == |full| + 1 by { hide SummaryTitle, Abridges; }
    hide Next, Compacts, SummaryTitle, AllSameWork;
  }

  lemma CompactedSummary(actions: seq<Action>, op: Op)
    requires Compacts(actions, op)
    ensures var next := Next(true, actions, op);
            |next| == 8 && next[0].title == SummaryTitle(|actions| + 1 - 7)
  {
    var d := op.process;
    var list := actions + [NewAction(|actions|, d.kind, Choose(actions, d).title, d.detail)];
    CompactKeepsLastSeven(list);
    SummaryDescribesMerged(list);
    hide Compact, SummaryTitle, AllSameWork;
  }
}
