/**
 The reservation rate limiter of the Lark renderers. Instants and durations are nanoseconds
 counted from the zero time of the clock, so that an unset reservation is 0.
 */
module RateLimiter {
  import opened Wrappers
  import Spacing

  datatype Rate = Rate(limit: int, window: int)

  /**
   The interval of a configured rate: the longest that fits the limit into the window. It is 0, and the
   limit off, without a limit or window and when the limit is larger than the window.
   */
  function RateInterval(rate: Rate): (interval: int)
    ensures interval > 0 <==> 0 < rate.limit <= rate.window
    ensures interval >= 0
    ensures 0 < rate.limit <= rate.window ==> rate.limit * interval <= rate.window < rate.limit * (interval + 1)
  {
    if rate.limit <= 0 || rate.window <= 0 then 0
    else
      TruncatingDivision(rate.window, rate.limit);
      rate.window / rate.limit
  }

  lemma TruncatingDivision(n: int, d: int)
    requires n > 0 && d > 0
    ensures d * (n / d) <= n < d * (n / d + 1)
    ensures n / d >= 0 && (n / d > 0 <==> d <= n)
  {
    var q := n / d;
    assert n == d * q + n % d;
    assert d * (q + 1) == d * q + d;
  }

  /** One reservation: who asked, what the clock said, and the slot handed out. */
  datatype Grant = Grant(chat: string, now: int, slot: int)

  /** `slot` is not before the reading and keeps both intervals to every earlier reservation. */
  ghost predicate Admissible(global: int, perChat: int, log: seq<Grant>, chat: string, now: int, slot: int) {
    && now <= slot && 0 <= slot
    && (global > 0 ==> forall k | 0 <= k < |log| :: log[k].slot + global <= slot)
    && (perChat > 0 ==> forall k | 0 <= k < |log| && log[k].chat == chat :: log[k].slot + perChat <= slot)
  }

  /** The reference: no earlier instant would do. */
  ghost predicate IsEarliest(global: int, perChat: int, log: seq<Grant>, chat: string, now: int, slot: int) {
    && Admissible(global, perChat, log, chat, now, slot)
    && forall t | Admissible(global, perChat, log, chat, now, t) :: slot <= t
  }

  /** A reservation history in which every slot was the earliest one that respected the rest. */
  ghost predicate LegalLog(global: int, perChat: int, log: seq<Grant>) {
    forall k | 0 <= k < |log| :: IsEarliest(global, perChat, log[..k], log[k].chat, log[k].now, log[k].slot)
  }

  function AllSlots(log: seq<Grant>): (slots: seq<int>)
    ensures |slots| == |log| && forall k | 0 <= k < |log| :: slots[k] == log[k].slot
  {
    seq(|log|, k requires 0 <= k < |log| => log[k].slot)
  }

  /** The slots reserved for one chat, oldest first. */
  function ChatSlots(log: seq<Grant>, chat: string): seq<int> {
    if log == [] then []
    else
      var front, last := ChatSlots(log[..|log| - 1], chat), log[|log| - 1];
      if last.chat == chat then front + [last.slot] else front
  }

  lemma {:induction false} ChatSlotsMembers(log: seq<Grant>, chat: string)
    ensures forall x :: x in ChatSlots(log, chat) <==>
            exists k :: 0 <= k < |log| && log[k].chat == chat && log[k].slot == x
  {
    if log != [] {
      var front, n := log[..|log| - 1], |log| - 1;
      ChatSlotsMembers(front, chat);
      forall x ensures x in ChatSlots(log, chat) <==>
             exists k :: 0 <= k < |log| && log[k].chat == chat && log[k].slot == x {
        if x in ChatSlots(front, chat) {
          var k :| 0 <= k < n && front[k].chat == chat && front[k].slot == x;
          assert log[k] == front[k];
        }
        if k :| 0 <= k < n && log[k].chat == chat && log[k].slot == x {
          assert front[k].chat == chat && front[k].slot == x;
        }
      }
    }
  }

  /** `next` is the zero time before any reservation and afterwards one gap past the latest slot. */
  ghost predicate NextAfter(next: int, gap: int, slots: seq<int>) {
    && (forall x | x in slots :: x + gap <= next)
    && (if slots == [] then next == 0 else exists x | x in slots :: next == x + gap)
  }

  /** A missing table entry reads as the zero time. */
  function Lookup(next: map<string, int>, chat: string): int {
    if chat in next then next[chat] else 0
  }

  /** The per-chat table follows every chat's own slots. */
  ghost predicate Reserved(next: map<string, int>, gap: int, log: seq<Grant>) {
    forall chat: string :: NextAfter(Lookup(next, chat), gap, ChatSlots(log, chat))
  }

  lemma ReservedFor(next: map<string, int>, gap: int, log: seq<Grant>, chat: string)
    requires Reserved(next, gap, log)
    ensures NextAfter(Lookup(next, chat), gap, ChatSlots(log, chat))
  {
  }

  lemma ReservedAppend(next: map<string, int>, gap: int, log: seq<Grant>, g: Grant)
    requires gap > 0 && Reserved(next, gap, log) && Lookup(next, g.chat) <= g.slot
    ensures Reserved(next[g.chat := g.slot + gap], gap, log + [g])
  {
    var grown := log + [g];
    assert grown[..|grown| - 1] == log;
    forall chat: string ensures NextAfter(Lookup(next[g.chat := g.slot + gap], chat), gap, ChatSlots(grown, chat)) {
      ReservedFor(next, gap, log, chat);
      if chat == g.chat {
        NextAfterAppend(Lookup(next, chat), gap, ChatSlots(log, chat), g.slot);
      }
    }
  }

  lemma NextAfterAppend(next: int, gap: int, slots: seq<int>, slot: int)
    requires gap > 0 && NextAfter(next, gap, slots) && next <= slot
    ensures NextAfter(slot + gap, gap, slots + [slot])
  {
    assert slot in slots + [slot];
    forall x | x in slots + [slot] ensures x + gap <= slot + gap {
      assert x in slots || x == slot;
    }
  }

  /** The latest of the reading and the two reservations is exactly the earliest admissible slot. */
  lemma ReservedIsEarliest(global: int, perChat: int, globalNext: int, chatNext: int,
                           log: seq<Grant>, chat: string, now: int, slot: int)
    requires global > 0 || perChat > 0
    requires global > 0 ==> NextAfter(globalNext, global, AllSlots(log))
    requires perChat > 0 ==> NextAfter(chatNext, perChat, ChatSlots(log, chat))
    requires now <= slot && (global > 0 ==> globalNext <= slot) && (perChat > 0 ==> chatNext <= slot)
    requires slot == now || (global > 0 && slot == globalNext) || (perChat > 0 && slot == chatNext)
    requires LegalLog(global, perChat, log)
    ensures IsEarliest(global, perChat, log, chat, now, slot)
  {
    ChatSlotsMembers(log, chat);
    assert Admissible(global, perChat, log, chat, now, slot) by {
      forall k | 0 <= k < |log| && global > 0 ensures log[k].slot + global <= slot {
        assert AllSlots(log)[k] in AllSlots(log);
      }
      forall k | 0 <= k < |log| && log[k].chat == chat && perChat > 0 ensures log[k].slot + perChat <= slot {
        assert log[k].slot in ChatSlots(log, chat);
      }
    }
    forall t | Admissible(global, perChat, log, chat, now, t) ensures slot <= t {
      if slot != now && global > 0 && slot == globalNext && log != [] {
        assert AllSlots(log)[0] in AllSlots(log);
        var x :| x in AllSlots(log) && globalNext == x + global;
        var k :| 0 <= k < |log| && AllSlots(log)[k] == x;
        assert log[k].slot + global <= t;
      } else if slot != now && perChat > 0 && slot == chatNext && ChatSlots(log, chat) != [] {
        var x :| x in ChatSlots(log, chat) && chatNext == x + perChat;
        var k :| 0 <= k < |log| && log[k].chat == chat && log[k].slot == x;
        assert log[k].slot + perChat <= t;
      }
    }
  }

  /** The two next-slot records agree with the history of reservations. */
  ghost predicate Consistent(global: int, perChat: int, globalNext: int, chatNext: map<string, int>, log: seq<Grant>) {
    && LegalLog(global, perChat, log)
    && (global > 0 ==> NextAfter(globalNext, global, AllSlots(log)))
    && (perChat > 0 ==> Reserved(chatNext, perChat, log))
  }

  function NextGlobal(global: int, next: int, g: Grant): int {
    if global > 0 then g.slot + global else next
  }

  function NextTable(perChat: int, next: map<string, int>, g: Grant): map<string, int> {
    if perChat > 0 then next[g.chat := g.slot + perChat] else next
  }

  lemma ConsistentAppend(global: int, perChat: int, globalNext: int, chatNext: map<string, int>, log: seq<Grant>,
                         g: Grant)
    requires global > 0 || perChat > 0
    requires Consistent(global, perChat, globalNext, chatNext, log)
    requires g.slot == LatestOf(global, perChat, globalNext, Lookup(chatNext, g.chat), g.now)
    ensures IsEarliest(global, perChat, log, g.chat, g.now, g.slot)
    ensures Consistent(global, perChat, NextGlobal(global, globalNext, g), NextTable(perChat, chatNext, g), log + [g])
  {
    hide LegalLog, IsEarliest, NextAfter, Reserved;
    if perChat > 0 {
      ReservedFor(chatNext, perChat, log, g.chat);
    }
    ReservedIsEarliest(global, perChat, globalNext, Lookup(chatNext, g.chat), log, g.chat, g.now, g.slot);
    LegalLogAppend(global, perChat, log, g);
    if global > 0 {
      NextAfterAppend(globalNext, global, AllSlots(log), g.slot);
      assert AllSlots(log + [g]) == AllSlots(log) + [g.slot];
    }
    if perChat > 0 {
      ReservedAppend(chatNext, perChat, log, g);
    }
  }

  /** The latest of the reading and the reservations of the limits that are on. */
  function LatestOf(global: int, perChat: int, globalNext: int, chatNext: int, now: int): int {
    var afterGlobal := if global > 0 && globalNext > now then globalNext else now;
    if perChat > 0 && chatNext > afterGlobal then chatNext else afterGlobal
  }

  lemma LegalLogAppend(global: int, perChat: int, log: seq<Grant>, g: Grant)
    requires LegalLog(global, perChat, log) && IsEarliest(global, perChat, log, g.chat, g.now, g.slot)
    ensures LegalLog(global, perChat, log + [g])
  {
    var grown := log + [g];
    forall k | 0 <= k < |grown|
      ensures IsEarliest(global, perChat, grown[..k], grown[k].chat, grown[k].now, grown[k].slot)
    {
      if k < |log| {
        assert grown[..k] == log[..k];
      } else {
        assert grown[..k] == log;
      }
    }
  }

  // ---- What every run keeps ----

  /** Over any run, whatever the clock reads: all slots keep the global gap, one chat's slots the per-chat gap. */
  lemma GrantsAreSpaced(global: int, perChat: int, log: seq<Grant>, chat: string)
    requires LegalLog(global, perChat, log)
    ensures global > 0 ==> Spacing.Spaced(AllSlots(log), global)
    ensures perChat > 0 ==> Spacing.Spaced(ChatSlots(log, chat), perChat)
  {
    forall i, j | 0 <= i < j < |log| && global > 0 ensures log[j].slot - log[i].slot >= global {
      assert IsEarliest(global, perChat, log[..j], log[j].chat, log[j].now, log[j].slot);
      assert log[..j][i] == log[i];
    }
    if perChat > 0 {
      ChatSlotsSpaced(global, perChat, log, chat);
    }
  }

  lemma {:induction false} ChatSlotsSpaced(global: int, perChat: int, log: seq<Grant>, chat: string)
    requires LegalLog(global, perChat, log) && perChat > 0
    ensures Spacing.Spaced(ChatSlots(log, chat), perChat)
  {
    if log != [] {
      var n := |log| - 1;
      var front := log[..n];
      assert forall k | 0 <= k < n :: front[..k] == log[..k] && front[k] == log[k];
      ChatSlotsSpaced(global, perChat, front, chat);
      ChatSlotsMembers(front, chat);
      assert IsEarliest(global, perChat, log[..n], log[n].chat, log[n].now, log[n].slot);
      var slots, kept := ChatSlots(log, chat), ChatSlots(front, chat);
      forall i, j | 0 <= i < j < |slots| ensures slots[j] - slots[i] >= perChat {
        assert slots[i] == kept[i] && kept[i] in kept;
      }
    }
  }

  /** Any half-open window as long as the rate's own holds at most Limit + ceil((Window mod Limit) / interval) slots. */
  lemma RateBound(global: Rate, perChat: Rate, log: seq<Grant>, chat: string, start: int)
    requires LegalLog(RateInterval(global), RateInterval(perChat), log)
    ensures 0 < global.limit <= global.window ==>
              |Spacing.InWindow(AllSlots(log), start, global.window)|
              <= global.limit + (global.window % global.limit + RateInterval(global) - 1) / RateInterval(global)
    ensures 0 < perChat.limit <= perChat.window ==>
              |Spacing.InWindow(ChatSlots(log, chat), start, perChat.window)|
              <= perChat.limit + (perChat.window % perChat.limit + RateInterval(perChat) - 1) / RateInterval(perChat)
  {
    GrantsAreSpaced(RateInterval(global), RateInterval(perChat), log, chat);
    if RateInterval(global) > 0 {
      Spacing.WindowBound(AllSlots(log), RateInterval(global), start, global.window);
      QuotientOfWindow(global);
    }
    if RateInterval(perChat) > 0 {
      Spacing.WindowBound(ChatSlots(log, chat), RateInterval(perChat), start, perChat.window);
      QuotientOfWindow(perChat);
    }
  }

  /** Limit + ceil((Window mod Limit) / interval). */
  function MostInWindow(rate: Rate): int
    requires 0 < rate.limit <= rate.window
  {
    rate.limit + (rate.window % rate.limit + RateInterval(rate) - 1) / RateInterval(rate)
  }

  lemma QuotientOfWindow(rate: Rate)
    requires 0 < rate.limit <= rate.window
    ensures (rate.window - 1) / RateInterval(rate) + 1 == MostInWindow(rate)
  {
    var q, r := RateInterval(rate), rate.window % rate.limit;
    assert rate.window == q * rate.limit + r;
    DivShift(r + q - 1, rate.limit - 1, q);
    assert q * (rate.limit - 1) == q * rate.limit - q;
  }

  lemma DivShift(a: int, k: nat, q: int)
    requires q > 0
    ensures (a + q * k) / q == a / q + k
  {
    var d, m := a / q, a % q;
    assert a + q * k == q * (d + k) + m by {
      assert q * (d + k) == q * d + q * k;
    }
    DivUnique(a + q * k, q, d + k, m);
  }

  lemma DivUnique(n: int, q: int, d: int, m: int)
    requires q > 0 && n == q * d + m && 0 <= m < q
    ensures n / q == d
  {
    var e := n / q;
    assert q * e <= n < q * e + q;
    assert e < d ==> q * (e + 1) <= q * d;
    assert d < e ==> q * (d + 1) <= q * e;
  }

  // ---- When the configured limit itself is kept ----

  /** In every run, every window of the rate's length holds at most Limit slots. */
  ghost predicate LimitHonoured(global: Rate, perChat: int) {
    forall log, start | LegalLog(RateInterval(global), perChat, log) ::
      |Spacing.InWindow(AllSlots(log), start, global.window)| <= global.limit
  }

  /** The truncating division honours the limit exactly when it does not truncate. */
  lemma LimitHonouredIffExact(global: Rate, perChat: int)
    requires 0 < global.limit <= global.window
    ensures LimitHonoured(global, perChat) <==> global.window % global.limit == 0
  {
    if global.window % global.limit == 0 {
      forall log, start | LegalLog(RateInterval(global), perChat, log)
        ensures |Spacing.InWindow(AllSlots(log), start, global.window)| <= global.limit
      {
        ExactDivisionHonours(global, perChat, log, start);
      }
    } else {
      TruncationExceeds(global, perChat);
    }
  }

  lemma ExactDivisionHonours(global: Rate, perChat: int, log: seq<Grant>, start: int)
    requires 0 < global.limit <= global.window && global.window % global.limit == 0
    requires LegalLog(RateInterval(global), perChat, log)
    ensures |Spacing.InWindow(AllSlots(log), start, global.window)| <= global.limit
  {
    var q := RateInterval(global);
    GrantsAreSpaced(q, perChat, log, "");
    Spacing.WindowBound(AllSlots(log), q, start, global.window);
    QuotientOfWindow(global);
    DivUnique(q - 1, q, 0, q - 1);
  }

  /** A burst of Limit + 1 requests all lands inside one window when the division truncates. */
  lemma TruncationExceeds(global: Rate, perChat: int)
    requires 0 < global.limit <= global.window && global.window % global.limit != 0
    ensures LegalLog(RateInterval(global), perChat, Burst(RateInterval(global), global.limit + 1))
    ensures |Spacing.InWindow(AllSlots(Burst(RateInterval(global), global.limit + 1)), 0, global.window)| > global.limit
  {
    var q := RateInterval(global);
    BurstIsLegal(q, perChat, global.limit + 1);
    assert q * global.limit < global.window;
    BurstInWindow(q, global.limit + 1, global.window);
  }

  /** `n` requests at the zero time, each from a chat of its own. */
  function Burst(q: int, n: nat): (log: seq<Grant>)
    ensures |log| == n
  {
    seq(n, k => Grant(ChatName(k), 0, q * k))
  }

  function ChatName(k: int): (name: string)
    ensures |name| == if k < 0 then 0 else k
  {
    seq(if k < 0 then 0 else k, _ => 'c')
  }

  lemma {:induction false} Multiples(q: int, i: nat, k: nat)
    requires q > 0 && i < k
    ensures 0 <= q * i && q * i + q <= q * k && (k == i + 1 ==> q * i + q == q * k)
    decreases k - i
  {
    Next(q, k - 1);
    if k > i + 1 {
      Multiples(q, i, k - 1);
    } else {
      NotNegative(q, i);
    }
  }

  lemma Next(q: int, n: int)
    ensures q * (n + 1) == q * n + q
  {
  }

  lemma NotNegative(q: int, i: nat)
    requires q > 0
    ensures q * i >= 0
  {
  }

  lemma BurstIsLegal(q: int, perChat: int, n: nat)
    requires q > 0
    ensures LegalLog(q, perChat, Burst(q, n))
  {
    var log := Burst(q, n);
    forall k | 0 <= k < n ensures IsEarliest(q, perChat, log[..k], log[k].chat, log[k].now, log[k].slot) {
      forall i | 0 <= i < k ensures log[..k][i].slot + q <= log[k].slot && log[..k][i].chat != log[k].chat {
        Multiples(q, i, k);
        assert |log[i].chat| == i && |log[k].chat| == k;
      }
      forall t | Admissible(q, perChat, log[..k], log[k].chat, log[k].now, t) ensures log[k].slot <= t {
        if k > 0 {
          assert log[..k][k - 1].slot + q <= t;
          Multiples(q, k - 1, k);
        }
      }
    }
  }

  lemma {:induction false} BurstInWindow(q: int, n: nat, window: int)
    requires q > 0 && (n > 0 ==> q * (n - 1) < window)
    ensures |Spacing.InWindow(AllSlots(Burst(q, n)), 0, window)| == n
  {
    if n > 0 {
      assert q * (n - 1) == q * (n - 2) + q;
      BurstInWindow(q, n - 1, window);
      assert AllSlots(Burst(q, n))[..n - 1] == AllSlots(Burst(q, n - 1));
    }
  }

  // ---- The same for one chat, whose slots also keep the global interval ----

  /** In every run, every window of the chat rate's length holds at most its limit of one chat's slots. */
  ghost predicate ChatLimitHonoured(global: int, perChat: Rate) {
    forall log, chat, start | LegalLog(global, RateInterval(perChat), log) ::
      |Spacing.InWindow(ChatSlots(log, chat), start, perChat.window)| <= perChat.limit
  }

  function Longer(global: int, perChat: int): int {
    if global > perChat then global else perChat
  }

  lemma {:induction false} ChatSlotsApart(global: int, perChat: int, log: seq<Grant>, chat: string)
    requires LegalLog(global, perChat, log) && perChat > 0
    ensures Spacing.Spaced(ChatSlots(log, chat), Longer(global, perChat))
  {
    if log != [] {
      var n := |log| - 1;
      var front := log[..n];
      assert forall k | 0 <= k < n :: front[..k] == log[..k] && front[k] == log[k];
      ChatSlotsApart(global, perChat, front, chat);
      ChatSlotsMembers(front, chat);
      assert IsEarliest(global, perChat, log[..n], log[n].chat, log[n].now, log[n].slot);
      var slots, kept := ChatSlots(log, chat), ChatSlots(front, chat);
      forall i, j | 0 <= i < j < |slots| ensures slots[j] - slots[i] >= Longer(global, perChat) {
        assert slots[i] == kept[i] && kept[i] in kept;
      }
    }
  }

  /** `n` requests of one chat at the zero time. */
  function ChatBurst(gap: int, n: nat): (log: seq<Grant>)
    ensures |log| == n && forall k | 0 <= k < n :: log[k] == Grant("", 0, gap * k)
  {
    seq(n, k => Grant("", 0, gap * k))
  }

  lemma ChatBurstIsLegal(global: int, perChat: int, n: nat)
    requires perChat > 0
    ensures LegalLog(global, perChat, ChatBurst(Longer(global, perChat), n))
  {
    var gap := Longer(global, perChat);
    var log := ChatBurst(gap, n);
    forall k | 0 <= k < n ensures IsEarliest(global, perChat, log[..k], log[k].chat, log[k].now, log[k].slot) {
      forall i | 0 <= i < k ensures log[..k][i].slot + gap <= log[k].slot {
        Multiples(gap, i, k);
      }
      forall t | Admissible(global, perChat, log[..k], log[k].chat, log[k].now, t) ensures log[k].slot <= t {
        if k > 0 {
          assert log[..k][k - 1].slot + gap <= t;
          Multiples(gap, k - 1, k);
        }
      }
    }
  }

  lemma {:induction false} ChatBurstInWindow(gap: int, n: nat, window: int)
    requires gap > 0 && (n > 0 ==> gap * (n - 1) < window)
    ensures |Spacing.InWindow(ChatSlots(ChatBurst(gap, n), ""), 0, window)| == n
  {
    if n > 0 {
      var log := ChatBurst(gap, n);
      assert gap * (n - 1) == gap * (n - 2) + gap;
      ChatBurstInWindow(gap, n - 1, window);
      assert log[..n - 1] == ChatBurst(gap, n - 1);
      var slots := ChatSlots(log, "");
      assert slots == ChatSlots(log[..n - 1], "") + [gap * (n - 1)];
      assert slots[..|slots| - 1] == ChatSlots(log[..n - 1], "");
      assert gap * (n - 1) >= 0;
    }
  }

  lemma QuotientBelow(x: int, gap: int, limit: int)
    requires gap > 0 && x < limit * gap
    ensures x / gap < limit
  {
    var d := x / gap;
    assert d >= limit ==> d * gap >= limit * gap;
  }

  /** One chat's limit is kept exactly when its window is at most Limit times the longer of the two intervals. */
  lemma ChatLimitHonouredIff(global: int, perChat: Rate)
    requires 0 < perChat.limit <= perChat.window
    ensures ChatLimitHonoured(global, perChat) <==>
            perChat.window <= perChat.limit * Longer(global, RateInterval(perChat))
  {
    var gap := Longer(global, RateInterval(perChat));
    if perChat.window <= perChat.limit * gap {
      forall log, chat, start | LegalLog(global, RateInterval(perChat), log)
        ensures |Spacing.InWindow(ChatSlots(log, chat), start, perChat.window)| <= perChat.limit
      {
        ChatSlotsApart(global, RateInterval(perChat), log, chat);
        Spacing.WindowBound(ChatSlots(log, chat), gap, start, perChat.window);
        QuotientBelow(perChat.window - 1, gap, perChat.limit);
      }
    } else {
      ChatBurstIsLegal(global, RateInterval(perChat), perChat.limit + 1);
      assert gap * perChat.limit == perChat.limit * gap;
      ChatBurstInWindow(gap, perChat.limit + 1, perChat.window);
    }
  }

  class StreamingLimiter {
    const globalInterval: int
    const perChatInterval: int
    var globalNext: int
    var perChatNext: map<string, int>
    ghost var log: seq<Grant>

    ghost predicate Valid()
      reads this
    {
      Consistent(globalInterval, perChatInterval, globalNext, perChatNext, log)
    }

    constructor (global: Rate, perChat: Rate)
      ensures Valid() && log == []
      ensures globalInterval == RateInterval(global) && perChatInterval == RateInterval(perChat)
      ensures globalInterval > 0 <==> 0 < global.limit <= global.window
      ensures perChatInterval > 0 <==> 0 < perChat.limit <= perChat.window
    {
      globalInterval := RateInterval(global);
      perChatInterval := RateInterval(perChat);
      globalNext, perChatNext, log := 0, map[], [];
    }

    /** Reserve a slot for `chat` at clock reading `now`; no slot is needed when both limits are off. */
    method Wait(chat: string, now: int) returns (slot: Option<int>)
      requires Valid()
      modifies this
      ensures Valid()
      ensures slot.None? <==> globalInterval <= 0 && perChatInterval <= 0
      ensures slot.None? ==> log == old(log)
      ensures slot.Some? ==> log == old(log) + [Grant(chat, now, slot.value)]
      ensures slot.Some? ==> IsEarliest(globalInterval, perChatInterval, old(log), chat, now, slot.value)
    {
      if globalInterval <= 0 && perChatInterval <= 0 {
        return None;
      }
      hide Consistent, IsEarliest;
      var chatNext := Lookup(perChatNext, chat);
      var availableAt := now;
      if globalInterval > 0 && globalNext > availableAt {
        availableAt := globalNext;
      }
      if perChatInterval > 0 && chatNext > availableAt {
        availableAt := chatNext;
      }
      ghost var grant := Grant(chat, now, availableAt);
      ConsistentAppend(globalInterval, perChatInterval, globalNext, perChatNext, log, grant);
      globalNext := NextGlobal(globalInterval, globalNext, Grant(chat, now, availableAt));
      perChatNext := NextTable(perChatInterval, perChatNext, Grant(chat, now, availableAt));
      log := log + [grant];
      return Some(availableAt);
    }
  }
}
