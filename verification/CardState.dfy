/**
 The action list of a streaming card and the merging of its oldest entries into one summary.
 An element id such as "panel_3" is represented by its number.
 */
module CardState {
  import opened Text

  datatype ActionType = Tool | Thinking | Process

  datatype ActionState = Running | Done | Failed

  datatype Action = Action(panel: nat, order: nat, kind: ActionType, title: string, state: ActionState, detail: string)

  const MAX_ACTIONS := 8

  function TitleForAction(a: Action): (title: string)
    ensures title != "" && (a.title == "" ==> title in ["Tool", "Thinking", "Process"])
  {
    if a.title != "" then a.title
    else match a.kind
      case Tool => "Tool"
      case Thinking => "Thinking"
      case Process => "Process"
  }

  function RenderActionContent(a: Action): (text: string)
    ensures text != ""
  {
    if a.detail == "" then "_Running..._" else a.detail
  }

  // ---- What compaction does to the list ----

  function SummaryTitle(merged: nat): string {
    "\U{1F4CB} " + Decimal(merged) + " earlier actions"
  }

  function TitleLines(merged: seq<Action>): (lines: seq<string>)
    ensures |lines| == |merged|
    ensures forall i | 0 <= i < |merged| :: lines[i] == "> " + TitleForAction(merged[i])
  {
    if merged == [] then [] else TitleLines(merged[..|merged| - 1]) + ["> " + TitleForAction(merged[|merged| - 1])]
  }

  function Summary(merged: seq<Action>): Action
    requires merged != []
  {
    Action(merged[0].panel, merged[0].order, Process, SummaryTitle(|merged|), Done,
           if Join(TitleLines(merged)) == "" then "_No detail_" else Join(TitleLines(merged)))
  }

  function Moved(a: Action, i: nat): Action {
    a.(panel := i, order := i)
  }

  /** The entries with the numbers `first`, `first + 1` and so on. */
  function Renumbered(rest: seq<Action>, first: nat): (moved: seq<Action>)
    ensures |moved| == |rest|
    ensures forall i | 0 <= i < |rest| :: moved[i] == Moved(rest[i], first + i)
  {
    if rest == [] then [] else [Moved(rest[0], first)] + Renumbered(rest[1..], first + 1)
  }

  function Compact(actions: seq<Action>): seq<Action> {
    if |actions| <= MAX_ACTIONS then actions
    else
      var overflow := |actions| - MAX_ACTIONS + 1;
      [Summary(actions[..overflow])] + Renumbered(actions[overflow..], 1)
  }

  lemma CompactUnfolds(actions: seq<Action>)
    ensures |actions| <= MAX_ACTIONS ==> Compact(actions) == actions
    ensures |actions| > MAX_ACTIONS ==>
              var overflow := |actions| - MAX_ACTIONS + 1;
              Compact(actions) == [Summary(actions[..overflow])] + Renumbered(actions[overflow..], 1)
  {
  }

  lemma SummaryUnfolds(merged: seq<Action>)
    requires merged != []
    ensures var detail := Join(TitleLines(merged));
            Summary(merged) == Action(merged[0].panel, merged[0].order, Process, SummaryTitle(|merged|), Done,
                                      if detail == "" then "_No detail_" else detail)
  {
  }

  method CompactActions(actions: seq<Action>) returns (result: seq<Action>)
    ensures result == Compact(actions)
  {
    CompactUnfolds(actions);
    hide Join, TitleLines, Renumbered, SummaryTitle, TitleForAction, Summary, Compact;
    if |actions| <= MAX_ACTIONS {
      return actions;
    }
    var overflow := |actions| - MAX_ACTIONS + 1;
    var merged, rest := actions[..overflow], actions[overflow..];
    var lines := [];
    for i := 0 to |merged|
      invariant |lines| == i
      invariant forall k | 0 <= k < i :: lines[k] == "> " + TitleForAction(merged[k])
    {
      lines := lines + ["> " + TitleForAction(merged[i])];
    }
    assert lines == TitleLines(merged);
    var detail := Join(lines);
    if detail == "" {
      detail := "_No detail_";
    }
    var summary := Action(merged[0].panel, merged[0].order, Process, SummaryTitle(|merged|), Done, detail);
    SummaryUnfolds(merged);
    ghost var original := rest;
    for i := 0 to |rest|
      invariant |rest| == |original|
      invariant forall k | 0 <= k < |rest| :: rest[k] == if k < i then Moved(original[k], k + 1) else original[k]
    {
      rest := rest[i := rest[i].(panel := i + 1, order := i + 1)];
    }
    assert rest == Renumbered(original, 1);
    result := [summary] + rest;
  }

  // ---- What a reader of the card needs from it ----

  /** Entry `i` is panel `i`. */
  ghost predicate Indexed(actions: seq<Action>) {
    forall i | 0 <= i < |actions| :: actions[i].panel == i && actions[i].order == i
  }

  /** The same work reported: everything but the position. */
  predicate SameWork(a: Action, b: Action) {
    a.kind == b.kind && a.title == b.title && a.state == b.state && a.detail == b.detail
  }

  ghost predicate AllSameWork(xs: seq<Action>, ys: seq<Action>) {
    |xs| == |ys| && forall i | 0 <= i < |xs| :: SameWork(xs[i], ys[i])
  }

  lemma CompactIsIndexed(actions: seq<Action>)
    requires Indexed(actions)
    ensures Indexed(Compact(actions))
  {
  }

  /** A long list becomes eight entries: a finished summary and the last seven, changed in position only. */
  lemma CompactKeepsLastSeven(actions: seq<Action>)
    requires |actions| > MAX_ACTIONS
    ensures |Compact(actions)| == MAX_ACTIONS && Compact(actions)[0].kind == Process
            && Compact(actions)[0].state == Done
    ensures AllSameWork(Compact(actions)[1..], actions[|actions| - 7..])
  {
  }

  /** The summary counts and lists, in order, the titles of exactly the entries that went. */
  lemma SummaryDescribesMerged(actions: seq<Action>)
    requires |actions| > MAX_ACTIONS
    ensures var gone := actions[..|actions| - 7];
            && Compact(actions)[0].title == SummaryTitle(|gone|) == "\U{1F4CB} " + Decimal(|gone|) + " earlier actions"
            && Compact(actions)[0].detail == Join(TitleLines(gone))
            && forall i | 0 <= i < |gone| :: TitleLines(gone)[i] == "> " + TitleForAction(gone[i])
  {
    JoinIsNotEmpty(TitleLines(actions[..|actions| - 7]));
  }

  lemma JoinIsNotEmpty(lines: seq<string>)
    requires lines != [] && lines[0] != ""
    ensures Join(lines) != ""
  {
  }

  lemma SummaryTitleInjective(m: nat, n: nat)
    ensures SummaryTitle(m) == SummaryTitle(n) <==> m == n
  {
    DecimalInjective(m, n);
    if SummaryTitle(m) == SummaryTitle(n) {
      var before, after := "\U{1F4CB} ", " earlier actions";
      var a, b := SummaryTitle(m), SummaryTitle(n);
      assert a[|before|..|a| - |after|] == Decimal(m);
      assert b[|before|..|b| - |after|] == Decimal(n);
    }
  }
}
