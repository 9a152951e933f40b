/** The streaming card renderer: the handle it updates in place and its four operations. */
module CardStreamingRenderer {
  import opened Text
  import opened CardState
  import opened RemoteCard
  import R = CardRendering

  class RenderHandle {
    const messageID: string
    var actions: seq<Action>
    var finalAnswer: string
    var finished: bool
    var lastSent: map<ElementID, string>
    var pendingDelta: string
    var sequence: nat
    var updates: nat
    var lastFlush: int

    function View(): R.Handle
      reads this
    {
      R.Handle(messageID, actions, finalAnswer, finished, lastSent, pendingDelta, sequence, updates, lastFlush)
    }

    constructor (messageID: string, now: int)
      ensures View() == R.Started(messageID, now).handle
      ensures this.messageID == messageID && actions == [] && finalAnswer == pendingDelta == "" && !finished
      ensures lastSent == map[] && sequence == 1 && updates == 0 && lastFlush == now
    {
      this.messageID := messageID;
      actions, finalAnswer, finished, lastSent, pendingDelta, sequence, updates, lastFlush := [], "", false, map[],
          "", 1, 0, now;
    }
  }

  /** A handle and the gateway holding its card. */
  function View(h: RenderHandle, gw: Gateway): R.State
    reads h, gw
  {
    R.State(h.View(), gw.View())
  }

  class CardStreamingRenderer {
    const gw: Gateway
    const maxUpdateChars: int

    constructor (gw: Gateway, maxUpdateChars: int)
      ensures this.gw == gw && this.maxUpdateChars == maxUpdateChars
    {
      this.gw, this.maxUpdateChars := gw, maxUpdateChars;
    }

    method Append(h: RenderHandle, delta: string, now: int, out: Outcome) returns (ok: bool)
      modifies h, gw
      ensures R.Reply(View(h, gw), ok) == R.Append(old(View(h, gw)), maxUpdateChars, delta, now, out)
    {
      h.finalAnswer := h.finalAnswer + delta;
      h.pendingDelta := h.pendingDelta + delta;
      if now - h.lastFlush >= R.BATCH_FLUSH_INTERVAL || Utf8Length(h.pendingDelta) >= maxUpdateChars {
        ok := FlushPendingDelta(h, out);
        return;
      }
      return true;
    }

    method FlushPendingDelta(h: RenderHandle, out: Outcome) returns (ok: bool)
      modifies h, gw
      ensures R.Reply(View(h, gw), ok) == R.FlushPendingDelta(old(View(h, gw)), maxUpdateChars, out)
    {
      var content := Truncate(h.finalAnswer, maxUpdateChars);
      if content == R.Sent(h.View(), Answer) {
        h.pendingDelta := "";
        return true;
      }
      var sequence := h.sequence;
      h.sequence := h.sequence + 1;
      gw.Deliver(Update(sequence, Answer, content), out);
      if !out.ok {
        return false;
      }
      h.lastSent := h.lastSent[Answer := content];
      h.updates := h.updates + 1;
      h.lastFlush := out.at;
      h.pendingDelta := "";
      return true;
    }

    method SyncLastAction(h: RenderHandle, out: Outcome) returns (ok: bool)
      requires h.actions != []
      modifies h, gw
      ensures R.Reply(View(h, gw), ok) == R.SyncLast(old(View(h, gw)), maxUpdateChars, out)
    {
      var last := h.actions[|h.actions| - 1];
      var content := Truncate(RenderActionContent(last), maxUpdateChars);
      var element := Content(last.panel);
      if content == R.Sent(h.View(), element) {
        return true;
      }
      var sequence := h.sequence;
      h.sequence := h.sequence + 1;
      gw.Deliver(Update(sequence, element, content), out);
      if !out.ok {
        return false;
      }
      h.lastSent := h.lastSent[element := content];
      h.updates := h.updates + 1;
      h.lastFlush := out.at;
      return true;
    }

    /** The steps common to the three places where an action is added. */
    method InsertAction(h: RenderHandle, kind: ActionType, title: string, detail: string, compacts: bool, out: Outcome)
      returns (ok: bool)
      modifies h, gw
      ensures var s := old(View(h, gw));
              R.Reply(View(h, gw), ok)
                  == R.InsertAction(s, R.NewAction(|s.handle.actions|, kind, title, detail), compacts, out)
    {
      hide Compact, Delivered;
      var act := Action(|h.actions|, |h.actions|, kind, title, Running, detail);
      h.actions := h.actions + [act];
      var sequence := h.sequence;
      h.sequence := h.sequence + 1;
      gw.Deliver(Insert(sequence, R.StreamingPanel(act)), out);
      if !out.ok {
        return false;
      }
      h.lastSent := h.lastSent[Content(act.panel) := act.detail];
      h.updates := h.updates + 1;
      h.lastFlush := out.at;
      if compacts {
        h.actions := CompactActions(h.actions);
      }
      return true;
    }

    method ExtendLast(h: RenderHandle, detail: string, fails: bool)
      requires h.actions != []
      modifies h`actions
      ensures h.actions == R.WithLast(old(h.actions), R.Extended(R.Last(old(h.actions)), detail, fails))
    {
      var at := |h.actions| - 1;
      h.actions := h.actions[at := h.actions[at].(detail := TrimSpace(h.actions[at].detail + "\n" + detail))];
      if fails {
        h.actions := h.actions[at := h.actions[at].(state := Failed)];
      }
    }

    method AppendProcess(h: RenderHandle, d: R.ProcessDelta, out: Outcome) returns (ok: bool)
      modifies h, gw
      ensures R.Reply(View(h, gw), ok) == R.AppendProcess(old(View(h, gw)), maxUpdateChars, d, out)
    {
      hide R.InsertAction, R.SyncLast, R.Extended;
      match d
      case Blank =>
        return true;
      case Delta(kind, title, continuation, failed, detail) =>
        if kind == Tool {
          if title != "" {
            ok := InsertAction(h, kind, title, detail, true, out);
            return;
          }
          if h.actions != [] && h.actions[|h.actions| - 1].kind == Tool {
            ExtendLast(h, detail, failed);
            ok := SyncLastAction(h, out);
            return;
          }
          ok := InsertAction(h, kind, "Tool", detail, false, out);
          return;
        }
        if h.actions != [] && h.actions[|h.actions| - 1].kind == kind && continuation {
          ExtendLast(h, detail, false);
          ok := SyncLastAction(h, out);
          return;
        }
        ok := InsertAction(h, kind, title, detail, true, out);
    }

    /** The streaming mode ends, and the finished card replaces the message. */
    method Close(h: RenderHandle, finalize: Outcome, patch: Outcome) returns (ok: bool)
      modifies h, gw
      ensures R.Reply(View(h, gw), ok) == R.Close(old(View(h, gw)), finalize, patch)
    {
      hide Delivered, R.FinalPanels;
      h.finished := true;
      var sequence := h.sequence;
      h.sequence := h.sequence + 1;
      gw.Deliver(RemoteCard.Finalize(sequence), finalize);
      if !finalize.ok {
        return false;
      }
      if h.messageID == "" {
        return true;
      }
      gw.Deliver(Patch(R.FinalCard(h.View())), patch);
      return patch.ok;
    }

    method Finish(h: RenderHandle, final: string, flush: Outcome, finalize: Outcome, patch: Outcome) returns (ok: bool)
      modifies h, gw
      ensures R.Reply(View(h, gw), ok) == R.Finish(old(View(h, gw)), maxUpdateChars, final, flush, finalize, patch)
    {
      hide R.FlushPendingDelta, R.Close;
      if final != "" {
        h.finalAnswer := final;
      }
      if h.pendingDelta != "" {
        ok := FlushPendingDelta(h, flush);
        if !ok {
          return;
        }
      }
      ok := Close(h, finalize, patch);
    }

    method Fail(h: RenderHandle, report: string, flush: Outcome, finalize: Outcome, patch: Outcome) returns (ok: bool)
      modifies h, gw
      ensures R.Reply(View(h, gw), ok) == R.Fail(old(View(h, gw)), maxUpdateChars, report, flush, finalize, patch)
    {
      hide R.FlushPendingDelta, R.Close, R.FailedActions;
      if h.pendingDelta != "" {
        var _ := FlushPendingDelta(h, flush);
      }
      FailActions(h, report);
      ok := Close(h, finalize, patch);
    }

    /** The last running action carries the error, or an entry of its own does. */
    method FailActions(h: RenderHandle, report: string)
      modifies h`actions
      ensures h.actions == R.FailedActions(old(h.actions), report)
    {
      var at := |h.actions| - 1;
      if h.actions != [] && h.actions[at].state == Running {
        var last := h.actions[at];
        h.actions := h.actions[at := last.(state := Failed, detail := TrimSpace(last.detail + "\n\n" + report))];
      } else {
        h.actions := h.actions + [Action(|h.actions|, |h.actions|, Process, "Error", Failed, report)];
      }
    }
  }
}
