/**
 The self-message filter: which incoming events the bot must ignore because it caused them.
 Message ids are remembered in a map into a list ordered by age, pruned by age and capacity.
 Instants and durations are integers.
 */
module SelfFilter {

  datatype Entry = Entry(id: string, expiresAt: int)

  /** A list element; the handle stands for its address, which is what the map stores. */
  datatype Element = Element(handle: nat, entry: Entry)

  /** One call of `Remember` and the clock reading its expiry was computed from. */
  datatype Remembered = Remembered(id: string, at: int)

  datatype Event = Event(senderType: string, senderAppID: string, eventType: string, messageID: string)

  datatype Config = Config(senderTypes: seq<string>, selfAppID: string,
                           ignoreUpdateEvents: bool, ignoreCardEvents: bool,
                           ttl: int, maxMessageIDs: int)

  const MESSAGE_PATCH := "message_update"
  const CARD := "card"

  // ---- The specification: what the history of calls says about an id ----

  ghost predicate IsLast(history: seq<Remembered>, id: string, i: int) {
    0 <= i < |history| && history[i].id == id && forall j | i < j < |history| :: history[j].id != id
  }

  /** The distinct ids remembered after call `i`. */
  ghost function Since(history: seq<Remembered>, i: int): set<string> {
    set j | 0 <= j < |history| && i < j :: history[j].id
  }

  /** The latest call for `id` is at most `ttl` old and fewer than `max` other ids came after it. */
  ghost predicate Known(history: seq<Remembered>, ttl: int, max: int, id: string, now: int) {
    exists i | IsLast(history, id, i) :: now <= history[i].at + ttl && |Since(history, i)| < max
  }

  // ---- Lists of entries ----

  function Remove(list: seq<Entry>, id: string): (rest: seq<Entry>)
    ensures |list| - 1 <= |rest| <= |list|
  {
    if list == [] then []
    else if list[0].id == id then list[1..]
    else [list[0]] + Remove(list[1..], id)
  }

  function Ids(list: seq<Entry>): set<string> {
    if list == [] then {} else {list[0].id} + Ids(list[1..])
  }

  predicate DistinctIds(list: seq<Entry>) {
    list == [] || (list[0].id !in Ids(list[1..]) && DistinctIds(list[1..]))
  }

  predicate SortedByExpiry(list: seq<Entry>) {
    |list| <= 1 || (list[0].expiresAt <= list[1].expiresAt && SortedByExpiry(list[1..]))
  }

  /** Every id ever remembered, at the place and with the expiry of its latest call. */
  ghost function Latest(history: seq<Remembered>, ttl: int): seq<Entry> {
    if history == [] then []
    else
      var front, r := history[..|history| - 1], history[|history| - 1];
      Remove(Latest(front, ttl), r.id) + [Entry(r.id, r.at + ttl)]
  }

  /** An entry with `younger` entries behind it that a prune at `now` removes. */
  predicate Dead(e: Entry, younger: nat, now: int, max: int) {
    now > e.expiresAt || younger + 1 > max
  }

  /** The entries dropped from the front by one prune of a list sorted by expiry. */
  function Cut(list: seq<Entry>, now: int, max: int): (c: nat)
    ensures c <= |list|
    ensures c > 0 ==> Dead(list[c - 1], |list| - c, now, max)
    ensures c < |list| ==> !Dead(list[c], |list| - c - 1, now, max)
  {
    if list != [] && Dead(list[0], |list| - 1, now, max) then 1 + Cut(list[1..], now, max) else 0
  }

  /** What the walk of `prune` leaves of any list: it goes on past the first entry it keeps. */
  function Pruned(list: seq<Entry>, kept: nat, now: int, max: int): seq<Entry> {
    if list == [] then []
    else if Dead(list[0], kept + |list| - 1, now, max) then Pruned(list[1..], kept, now, max)
    else [list[0]] + Pruned(list[1..], kept + 1, now, max)
  }

  /** On a list sorted by expiry `prune` keeps the longest suffix without dead entries. */
  lemma {:induction false} PrunedIsLongestSuffix(list: seq<Entry>, now: int, max: int)
    requires SortedByExpiry(list)
    ensures Pruned(list, 0, now, max) == list[Cut(list, now, max)..]
  {
    if list != [] {
      if Dead(list[0], |list| - 1, now, max) {
        PrunedIsLongestSuffix(list[1..], now, max);
      } else {
        PrunedKeepsLive(list, 0, now, max);
      }
    }
  }

  /** From the first live entry on, everything is live. */
  lemma {:induction false} LiveAfterCut(list: seq<Entry>, now: int, max: int, k: nat)
    requires SortedByExpiry(list) && Cut(list, now, max) <= k < |list|
    ensures !Dead(list[k], |list| - k - 1, now, max)
  {
    if Cut(list, now, max) == 0 {
      SortedFirst(list, k);
    } else {
      LiveAfterCut(list[1..], now, max, k - 1);
    }
  }

  lemma {:induction false} PrunedKeepsLive(list: seq<Entry>, kept: nat, now: int, max: int)
    requires SortedByExpiry(list)
    requires list != [] ==> !Dead(list[0], kept + |list| - 1, now, max)
    ensures Pruned(list, kept, now, max) == list
  {
    if list != [] {
      PrunedKeepsLive(list[1..], kept + 1, now, max);
      assert list == [list[0]] + list[1..];
    }
  }

  lemma {:induction false} SortedFirst(list: seq<Entry>, k: nat)
    requires SortedByExpiry(list) && k < |list|
    ensures list[0].expiresAt <= list[k].expiresAt
  {
    if k > 0 {
      SortedFirst(list[1..], k - 1);
    }
  }

  lemma {:induction false} SortedLast(list: seq<Entry>, k: nat)
    requires SortedByExpiry(list) && k < |list|
    ensures list[k].expiresAt <= list[|list| - 1].expiresAt
  {
    if k == 0 {
      SortedFirst(list, |list| - 1);
    } else {
      SortedLast(list[1..], k - 1);
    }
  }

  lemma {:induction false} SortedSplit(a: seq<Entry>, b: seq<Entry>)
    requires SortedByExpiry(a + b)
    ensures SortedByExpiry(a) && SortedByExpiry(b)
  {
    if a == [] {
      assert a + b == b;
    } else {
      assert (a + b)[1..] == a[1..] + b;
      SortedSplit(a[1..], b);
      assert |a| > 1 ==> (a + b)[1] == a[1];
    }
  }

  lemma {:induction false} SortedAppend(list: seq<Entry>, e: Entry)
    requires SortedByExpiry(list) && (list != [] ==> list[|list| - 1].expiresAt <= e.expiresAt)
    ensures SortedByExpiry(list + [e])
  {
    if list != [] {
      assert (list + [e])[1..] == list[1..] + [e];
      SortedAppend(list[1..], e);
    }
  }

  lemma {:induction false} DistinctSplit(a: seq<Entry>, b: seq<Entry>)
    requires DistinctIds(a + b)
    ensures DistinctIds(a) && DistinctIds(b) && Ids(a) !! Ids(b)
  {
    if a == [] {
      assert a + b == b;
    } else {
      assert (a + b)[1..] == a[1..] + b;
      DistinctSplit(a[1..], b);
      IdsAppend(a[1..], b);
    }
  }

  lemma {:induction false} DistinctAppend(list: seq<Entry>, e: Entry)
    requires DistinctIds(list) && e.id !in Ids(list)
    ensures DistinctIds(list + [e])
  {
    if list != [] {
      assert (list + [e])[1..] == list[1..] + [e];
      DistinctAppend(list[1..], e);
      IdsAppend(list[1..], [e]);
    }
  }

  // ---- The latest list describes the history ----

  lemma {:induction false} IdsOf(list: seq<Entry>, id: string)
    ensures id in Ids(list) <==> exists k :: 0 <= k < |list| && list[k].id == id
  {
    if list != [] {
      IdsOf(list[1..], id);
      if id in Ids(list[1..]) {
        var k :| 0 <= k < |list[1..]| && list[1..][k].id == id;
        assert list[k + 1].id == id;
      }
      if k :| 0 < k < |list| && list[k].id == id {
        assert list[1..][k - 1].id == id;
      }
    }
  }

  lemma {:induction false} IdsAppend(a: seq<Entry>, b: seq<Entry>)
    ensures Ids(a + b) == Ids(a) + Ids(b)
  {
    if a == [] {
      assert a + b == b;
    } else {
      assert (a + b)[1..] == a[1..] + b;
      IdsAppend(a[1..], b);
    }
  }

  /** Removing an id takes it out and nothing else, except when it occurs twice. */
  lemma {:induction false} RemoveIds(list: seq<Entry>, id: string)
    ensures Ids(Remove(list, id)) <= Ids(list) <= Ids(Remove(list, id)) + {id}
    ensures id !in Ids(list) ==> Remove(list, id) == list
  {
    if list != [] && list[0].id != id {
      RemoveIds(list[1..], id);
    }
  }

  lemma {:induction false} RemoveKeepsDistinct(list: seq<Entry>, id: string)
    requires DistinctIds(list)
    ensures DistinctIds(Remove(list, id)) && Ids(Remove(list, id)) == Ids(list) - {id}
  {
    if list != [] && list[0].id != id {
      RemoveKeepsDistinct(list[1..], id);
    }
  }

  lemma {:induction false} RemoveKeepsOrder(list: seq<Entry>, id: string)
    requires SortedByExpiry(list)
    ensures SortedByExpiry(Remove(list, id))
    ensures Remove(list, id) != [] ==> list[0].expiresAt <= Remove(list, id)[0].expiresAt
  {
    if list != [] && list[0].id != id {
      RemoveKeepsOrder(list[1..], id);
    }
  }

  lemma {:induction false} RemoveLast(list: seq<Entry>, id: string)
    requires SortedByExpiry(list) && Remove(list, id) != []
    ensures Remove(list, id)[|Remove(list, id)| - 1].expiresAt <= list[|list| - 1].expiresAt
  {
    if list[0].id != id {
      if Remove(list[1..], id) == [] {
        SortedFirst(list, |list| - 1);
      } else {
        RemoveLast(list[1..], id);
      }
    }
  }

  lemma {:induction false} RemoveSplit(a: seq<Entry>, b: seq<Entry>, id: string)
    ensures Remove(a + b, id) == if id in Ids(a) then Remove(a, id) + b else a + Remove(b, id)
  {
    if a == [] {
      assert a + b == b;
    } else {
      var tail := a[1..];
      assert (a + b)[1..] == tail + b;
      RemoveSplit(tail, b, id);
      if a[0].id != id {
        assert Remove(a + b, id) == [a[0]] + Remove(tail + b, id);
        if id in Ids(tail) {
          Assoc([a[0]], Remove(tail, id), b);
        } else {
          Assoc([a[0]], tail, Remove(b, id));
          assert a == [a[0]] + tail;
        }
      }
    }
  }

  lemma Assoc(a: seq<Entry>, b: seq<Entry>, c: seq<Entry>)
    ensures a + (b + c) == (a + b) + c
  {
  }

  /** The clock readings of the history never go back. */
  predicate Monotone(history: seq<Remembered>) {
    |history| <= 1 || (history[|history| - 2].at <= history[|history| - 1].at && Monotone(history[..|history| - 1]))
  }

  lemma {:induction false} LatestIsDistinct(history: seq<Remembered>, ttl: int)
    ensures DistinctIds(Latest(history, ttl))
  {
    if history != [] {
      var front, r := history[..|history| - 1], history[|history| - 1];
      LatestIsDistinct(front, ttl);
      RemoveKeepsDistinct(Latest(front, ttl), r.id);
      DistinctAppend(Remove(Latest(front, ttl), r.id), Entry(r.id, r.at + ttl));
    }
  }

  lemma {:induction false} LatestIsSorted(history: seq<Remembered>, ttl: int)
    requires Monotone(history)
    ensures SortedByExpiry(Latest(history, ttl))
    ensures history != [] ==>
            Latest(history, ttl)[|Latest(history, ttl)| - 1].expiresAt == history[|history| - 1].at + ttl
  {
    if history != [] {
      var front, r := history[..|history| - 1], history[|history| - 1];
      var latest := Latest(front, ttl);
      LatestIsSorted(front, ttl);
      MoveKeepsOrder(latest, r.id, Entry(r.id, r.at + ttl));
    }
  }

  lemma MoveKeepsOrder(list: seq<Entry>, id: string, e: Entry)
    requires SortedByExpiry(list) && (list != [] ==> list[|list| - 1].expiresAt <= e.expiresAt)
    ensures SortedByExpiry(Remove(list, id) + [e])
  {
    RemoveKeepsOrder(list, id);
    if Remove(list, id) != [] {
      RemoveLast(list, id);
    }
    SortedAppend(Remove(list, id), e);
  }

  function LastIndex(history: seq<Remembered>, id: string): (i: int)
    ensures -1 <= i < |history|
    ensures if i < 0 then forall j | 0 <= j < |history| :: history[j].id != id else IsLast(history, id, i)
  {
    if history == [] then -1
    else if history[|history| - 1].id == id then |history| - 1
    else LastIndex(history[..|history| - 1], id)
  }

  /** In the latest list an id sits before exactly the ids remembered since. */
  lemma {:induction false} LatestDescribes(history: seq<Remembered>, ttl: int, id: string)
    returns (before: seq<Entry>, after: seq<Entry>)
    requires LastIndex(history, id) >= 0
    ensures Latest(history, ttl) == before + [Entry(id, history[LastIndex(history, id)].at + ttl)] + after
    ensures Ids(after) == Since(history, LastIndex(history, id))
  {
    var front, r := history[..|history| - 1], history[|history| - 1];
    var latest, e := Latest(front, ttl), Entry(r.id, r.at + ttl);
    assert Latest(history, ttl) == Remove(latest, r.id) + [e];
    if r.id == id {
      before, after := Remove(latest, id), [];
      assert before + [e] + after == before + [e];
      assert Since(history, |history| - 1) == {};
    } else {
      var a, b := LatestDescribes(front, ttl, id);
      var i := LastIndex(front, id);
      before, after := MoveToEnd(latest, a, Entry(id, front[i].at + ttl), b, e);
      SinceAppend(history, i);
    }
  }

  /** Remembering another id again moves it behind `x`. */
  lemma MoveToEnd(list: seq<Entry>, a: seq<Entry>, x: Entry, b: seq<Entry>, e: Entry)
    returns (before: seq<Entry>, after: seq<Entry>)
    requires list == a + [x] + b && x.id != e.id
    ensures Remove(list, e.id) + [e] == before + [x] + after
    ensures Ids(after) == Ids(b) + {e.id}
  {
    RemoveSplit(a + [x], b, e.id);
    RemoveSplit(a, [x], e.id);
    IdsAppend(a, [x]);
    if e.id in Ids(a) {
      before, after := Remove(a, e.id), b + [e];
      IdsAppend(b, [e]);
    } else {
      before, after := a, Remove(b, e.id) + [e];
      IdsAppend(Remove(b, e.id), [e]);
      RemoveIds(b, e.id);
    }
    Assoc(before + [x], if e.id in Ids(a) then b else Remove(b, e.id), [e]);
  }

  lemma SinceAppend(history: seq<Remembered>, i: int)
    requires 0 <= i < |history| - 1
    ensures Since(history, i) == Since(history[..|history| - 1], i) + {history[|history| - 1].id}
  {
    var front := history[..|history| - 1];
    forall id | id in Since(front, i) ensures id in Since(history, i) {
      var j :| 0 <= j < |front| && i < j && front[j].id == id;
      assert history[j].id == id;
    }
    forall id | id in Since(history, i) ensures id in Since(front, i) + {history[|history| - 1].id} {
      var j :| 0 <= j < |history| && i < j && history[j].id == id;
      if j < |front| {
        assert front[j].id == id;
      }
    }
  }

  // ---- The list held in memory is the live end of the latest list ----

  /**
   `forgotten` are the entries pruned so far, in latest-list order: the youngest of them is dead
   at the last clock reading, and so is everything before it.
   */
  ghost predicate Represents(history: seq<Remembered>, cfg: Config, forgotten: seq<Entry>, held: seq<Entry>,
                             last: int) {
    && Monotone(history)
    && (history != [] ==> history[|history| - 1].at <= last)
    && Latest(history, cfg.ttl) == forgotten + held
    && (forgotten != [] ==> Dead(forgotten[|forgotten| - 1], |held|, last, cfg.maxMessageIDs))
  }

  /** A prune splits a sorted list into dead entries and a list a second prune leaves alone. */
  lemma PruneSplits(held: seq<Entry>, now: int, max: int) returns (dropped: seq<Entry>)
    requires SortedByExpiry(held)
    ensures held == dropped + Pruned(held, 0, now, max)
    ensures Pruned(Pruned(held, 0, now, max), 0, now, max) == Pruned(held, 0, now, max)
    ensures dropped != [] ==> Dead(dropped[|dropped| - 1], |held| - |dropped|, now, max)
  {
    PrunedIsLongestSuffix(held, now, max);
    var c := Cut(held, now, max);
    dropped := held[..c];
    var kept := held[c..];
    assert held == dropped + kept;
    SortedSplit(dropped, kept);
    PrunedKeepsLive(kept, 0, now, max);
  }

  /** With clock readings that never go back, the list in memory is sorted by expiry. */
  lemma HeldIsSorted(history: seq<Remembered>, cfg: Config, forgotten: seq<Entry>, held: seq<Entry>, last: int)
    requires Represents(history, cfg, forgotten, held, last)
    ensures SortedByExpiry(held) && DistinctIds(held)
  {
    LatestIsSorted(history, cfg.ttl);
    LatestIsDistinct(history, cfg.ttl);
    SortedSplit(forgotten, held);
    DistinctSplit(forgotten, held);
  }

  lemma PruneRepresents(history: seq<Remembered>, cfg: Config, forgotten: seq<Entry>, held: seq<Entry>, last: int,
                        now: int)
    returns (dropped: seq<Entry>)
    requires Represents(history, cfg, forgotten, held, last) && last <= now
    ensures Represents(history, cfg, forgotten + dropped, Pruned(held, 0, now, cfg.maxMessageIDs), now)
    ensures Pruned(Pruned(held, 0, now, cfg.maxMessageIDs), 0, now, cfg.maxMessageIDs)
            == Pruned(held, 0, now, cfg.maxMessageIDs)
  {
    LatestIsSorted(history, cfg.ttl);
    SortedSplit(forgotten, held);
    dropped := PruneSplits(held, now, cfg.maxMessageIDs);
    Assoc(forgotten, dropped, Pruned(held, 0, now, cfg.maxMessageIDs));
    if dropped == [] {
      assert forgotten + dropped == forgotten;
    }
  }

  /** Where removing an id from the whole latest list takes it from, and what that leaves dead. */
  lemma RemoveFromSplit(forgotten: seq<Entry>, held: seq<Entry>, id: string)
    requires SortedByExpiry(forgotten + held) && DistinctIds(forgotten + held)
    ensures Remove(forgotten + held, id) == Remove(forgotten, id) + Remove(held, id)
    ensures Remove(forgotten, id) != [] ==>
              Remove(forgotten, id)[|Remove(forgotten, id)| - 1].expiresAt <= forgotten[|forgotten| - 1].expiresAt
  {
    SortedSplit(forgotten, held);
    DistinctSplit(forgotten, held);
    RemoveSplit(forgotten, held, id);
    RemoveIds(forgotten, id);
    RemoveIds(held, id);
    if Remove(forgotten, id) != [] {
      RemoveLast(forgotten, id);
    }
  }

  lemma RememberRepresents(history: seq<Remembered>, cfg: Config, forgotten: seq<Entry>, held: seq<Entry>,
                           last: int, r: Remembered)
    requires Represents(history, cfg, forgotten, held, last) && last <= r.at
    ensures Represents(history + [r], cfg, Remove(forgotten, r.id),
            Remove(held, r.id) + [Entry(r.id, r.at + cfg.ttl)], r.at)
  {
    assert (history + [r])[..|history|] == history;
    LatestIsSorted(history, cfg.ttl);
    LatestIsDistinct(history, cfg.ttl);
    RemoveFromSplit(forgotten, held, r.id);
    Assoc(Remove(forgotten, r.id), Remove(held, r.id), [Entry(r.id, r.at + cfg.ttl)]);
  }

  /** After a prune, the held ids are exactly the ids the history knows. */
  lemma HeldIffKnown(history: seq<Remembered>, cfg: Config, forgotten: seq<Entry>, held: seq<Entry>, now: int,
                     id: string)
    requires Represents(history, cfg, forgotten, held, now)
    requires Pruned(held, 0, now, cfg.maxMessageIDs) == held
    ensures id in Ids(held) <==> Known(history, cfg.ttl, cfg.maxMessageIDs, id, now)
  {
    var i := LastIndex(history, id);
    if i < 0 {
      NeverRemembered(history, cfg.ttl, id);
      IdsAppend(forgotten, held);
    } else {
      KnownIffLive(history, cfg, id, now, i);
      LatestIsSorted(history, cfg.ttl);
      SortedSplit(forgotten, held);
      LatestIsDistinct(history, cfg.ttl);
      DistinctSplit(forgotten, held);
      var k := PlaceInLatest(history, cfg.ttl, id);
      HeldIffLive(forgotten, held, k, now, cfg.maxMessageIDs);
    }
  }

  lemma PlaceInLatest(history: seq<Remembered>, ttl: int, id: string) returns (k: nat)
    requires LastIndex(history, id) >= 0
    ensures k < |Latest(history, ttl)|
    ensures Latest(history, ttl)[k] == Entry(id, history[LastIndex(history, id)].at + ttl)
    ensures |Latest(history, ttl)| - k - 1 == |Since(history, LastIndex(history, id))|
  {
    var before, after := LatestDescribes(history, ttl, id);
    k := |before|;
    LatestIsDistinct(history, ttl);
    DistinctSplit(before + [Latest(history, ttl)[k]], after);
    DistinctCount(after);
  }

  lemma KnownIffLive(history: seq<Remembered>, cfg: Config, id: string, now: int, i: int)
    requires IsLast(history, id, i)
    ensures Known(history, cfg.ttl, cfg.maxMessageIDs, id, now)
            <==> !Dead(Entry(id, history[i].at + cfg.ttl), |Since(history, i)|, now, cfg.maxMessageIDs)
  {
    assert forall j | IsLast(history, id, j) :: j == i;
  }

  /** An entry of the latest list is held exactly when it is still live. */
  lemma HeldIffLive(forgotten: seq<Entry>, held: seq<Entry>, k: nat, now: int, max: int)
    requires k < |forgotten + held|
    requires SortedByExpiry(forgotten) && SortedByExpiry(held) && Ids(forgotten) !! Ids(held)
    requires forgotten != [] ==> Dead(forgotten[|forgotten| - 1], |held|, now, max)
    requires Pruned(held, 0, now, max) == held
    ensures (forgotten + held)[k].id in Ids(held) <==>
            !Dead((forgotten + held)[k], |forgotten + held| - k - 1, now, max)
  {
    var n := |forgotten|;
    if k < n {
      ForgottenIsDead(forgotten, |held|, k, now, max);
    } else {
      assert (forgotten + held)[k] == held[k - n];
      IdsOf(held, held[k - n].id);
      AllHeldLive(held, k - n, now, max);
    }
  }

  lemma ForgottenIsDead(forgotten: seq<Entry>, held: nat, k: nat, now: int, max: int)
    requires SortedByExpiry(forgotten) && k < |forgotten|
    requires Dead(forgotten[|forgotten| - 1], held, now, max)
    ensures forgotten[k].id in Ids(forgotten) && Dead(forgotten[k], |forgotten| + held - k - 1, now, max)
  {
    IdsOf(forgotten, forgotten[k].id);
    SortedLast(forgotten, k);
  }

  lemma AllHeldLive(held: seq<Entry>, k: nat, now: int, max: int)
    requires SortedByExpiry(held) && Pruned(held, 0, now, max) == held && k < |held|
    ensures !Dead(held[k], |held| - k - 1, now, max)
  {
    PrunedIsLongestSuffix(held, now, max);
    assert |held[Cut(held, now, max)..]| == |held|;
    LiveAfterCut(held, now, max, k);
  }

  lemma {:induction false} NeverRemembered(history: seq<Remembered>, ttl: int, id: string)
    requires forall j | 0 <= j < |history| :: history[j].id != id
    ensures id !in Ids(Latest(history, ttl))
  {
    if history != [] {
      var front, r := history[..|history| - 1], history[|history| - 1];
      NeverRemembered(front, ttl, id);
      RemoveIds(Latest(front, ttl), r.id);
      IdsAppend(Remove(Latest(front, ttl), r.id), [Entry(r.id, r.at + ttl)]);
    }
  }

  lemma {:induction false} DistinctCount(list: seq<Entry>)
    requires DistinctIds(list)
    ensures |Ids(list)| == |list|
  {
    if list != [] {
      DistinctCount(list[1..]);
      IdsOf(list[1..], list[0].id);
    }
  }

  // ---- The filter itself ----

  function Entries(order: seq<Element>): (list: seq<Entry>)
    ensures |list| == |order|
  {
    if order == [] then [] else [order[0].entry] + Entries(order[1..])
  }

  /** Unlink the element at an address. */
  function Unlink(order: seq<Element>, handle: nat): (rest: seq<Element>)
    ensures |order| - 1 <= |rest| <= |order|
  {
    if order == [] then []
    else if order[0].handle == handle then order[1..]
    else [order[0]] + Unlink(order[1..], handle)
  }

  /** The map a list of elements should be indexed by. */
  function Index(order: seq<Element>): (index: map<string, nat>)
    ensures index.Keys == Ids(Entries(order))
  {
    if order == [] then map[] else Index(order[1..])[order[0].entry.id := order[0].handle]
  }

  /** Later elements were allocated later, all of them before `issued`. */
  predicate Ascending(order: seq<Element>, issued: nat) {
    order == [] || (order[0].handle < (if |order| > 1 then order[1].handle else issued)
        && Ascending(order[1..], issued))
  }

  /** The map and the list index each other: one element per id, found at its own address. */
  predicate Linked(entries: map<string, nat>, order: seq<Element>, issued: nat) {
    entries == Index(order) && DistinctIds(Entries(order)) && Ascending(order, issued)
  }

  lemma {:induction false} IndexedAbove(order: seq<Element>, issued: nat, id: string)
    requires Ascending(order, issued) && id in Index(order)
    ensures order[0].handle <= Index(order)[id] < issued
  {
    if |order| > 1 {
      if id in Index(order[1..]) {
        IndexedAbove(order[1..], issued, id);
      }
      IndexedAbove(order[1..], issued, order[1].entry.id);
    }
  }

  lemma {:induction false} IndexedAt(order: seq<Element>, i: nat)
    requires DistinctIds(Entries(order)) && i < |order|
    ensures Entries(order)[i] == order[i].entry
    ensures order[i].entry.id in Index(order) && Index(order)[order[i].entry.id] == order[i].handle
  {
    if i > 0 {
      IndexedAt(order[1..], i - 1);
    }
  }

  /** Unlinking the element a map entry points to takes out just that entry. */
  lemma {:induction false} UnlinkIndexed(order: seq<Element>, issued: nat, id: string)
    requires DistinctIds(Entries(order)) && Ascending(order, issued) && id in Index(order)
    ensures Entries(Unlink(order, Index(order)[id])) == Remove(Entries(order), id)
    ensures Index(Unlink(order, Index(order)[id])) == Index(order) - {id}
  {
    var tail, head := order[1..], order[0].entry.id;
    assert Entries(order)[1..] == Entries(tail);
    if head == id {
      assert Index(order) - {id} == Index(tail);
    } else {
      IndexedAbove(tail, issued, id);
      UnlinkIndexed(tail, issued, id);
      assert Index(order) - {id} == (Index(tail) - {id})[head := order[0].handle];
    }
  }

  lemma {:induction false} UnlinkAscending(order: seq<Element>, issued: nat, handle: nat)
    requires Ascending(order, issued)
    ensures Ascending(Unlink(order, handle), issued)
    ensures Unlink(order, handle) != [] ==> order[0].handle <= Unlink(order, handle)[0].handle
    ensures order != [] ==> order[0].handle < issued
  {
    if order != [] {
      UnlinkAscending(order[1..], issued, handle);
    }
  }

  lemma {:induction false} PushEntries(order: seq<Element>, x: Element)
    ensures Entries(order + [x]) == Entries(order) + [x.entry]
  {
    if order == [] {
      assert order + [x] == [x];
    } else {
      assert (order + [x])[1..] == order[1..] + [x];
      PushEntries(order[1..], x);
    }
  }

  lemma {:induction false} PushIndex(order: seq<Element>, x: Element)
    requires x.entry.id !in Index(order)
    ensures Index(order + [x]) == Index(order)[x.entry.id := x.handle]
  {
    if order == [] {
      assert order + [x] == [x];
    } else {
      assert (order + [x])[1..] == order[1..] + [x];
      PushIndex(order[1..], x);
    }
  }

  lemma {:induction false} PushAscending(order: seq<Element>, issued: nat, e: Entry)
    requires Ascending(order, issued)
    ensures Ascending(order + [Element(issued, e)], issued + 1)
  {
    if order != [] {
      assert (order + [Element(issued, e)])[1..] == order[1..] + [Element(issued, e)];
      PushAscending(order[1..], issued, e);
    }
  }

  /** Removing position `i` leaves what was before it and what was after it. */
  lemma {:induction false} RemoveAt(list: seq<Entry>, i: nat)
    requires DistinctIds(list) && i < |list|
    ensures Remove(list, list[i].id) == list[..i] + list[i + 1..]
  {
    if i > 0 {
      var tail := list[1..];
      assert tail[i - 1] == list[i];
      IdsOf(tail, list[i].id);
      RemoveAt(tail, i - 1);
      Assoc([list[0]], tail[..i - 1], tail[i..]);
      assert list[..i] == [list[0]] + tail[..i - 1] && list[i + 1..] == tail[i..];
    }
  }

  /** A walk that has kept the first `i` entries and will end with `target`. */
  predicate Walking(list: seq<Entry>, i: nat, now: int, max: int, target: seq<Entry>) {
    i <= |list| && list[..i] + Pruned(list[i..], i, now, max) == target
  }

  lemma WalkKeeps(list: seq<Entry>, i: nat, now: int, max: int, target: seq<Entry>)
    requires Walking(list, i, now, max, target) && i < |list| && !Dead(list[i], |list| - 1, now, max)
    ensures Walking(list, i + 1, now, max, target)
  {
    assert list[i..][1..] == list[i + 1..];
    assert list[..i + 1] == list[..i] + [list[i]];
    Assoc(list[..i], [list[i]], Pruned(list[i + 1..], i + 1, now, max));
  }

  lemma WalkDrops(list: seq<Entry>, i: nat, now: int, max: int, target: seq<Entry>)
    requires Walking(list, i, now, max, target) && i < |list| && Dead(list[i], |list| - 1, now, max)
    requires DistinctIds(list)
    ensures |Remove(list, list[i].id)| == |list| - 1
    ensures Walking(Remove(list, list[i].id), i, now, max, target)
  {
    RemoveAt(list, i);
    assert list[i..][1..] == list[i + 1..];
    var rest := list[..i] + list[i + 1..];
    assert rest[..i] == list[..i] && rest[i..] == list[i + 1..];
  }

  lemma WalkStarts(list: seq<Entry>, now: int, max: int)
    ensures Walking(list, 0, now, max, Pruned(list, 0, now, max))
  {
    assert list[0..] == list;
    assert list[..0] + Pruned(list, 0, now, max) == Pruned(list, 0, now, max);
  }

  lemma WalkEnds(list: seq<Entry>, now: int, max: int, target: seq<Entry>)
    requires Walking(list, |list|, now, max, target)
    ensures list == target
  {
    assert list[..|list|] + [] == list;
  }

  lemma LinkedAt(entries: map<string, nat>, order: seq<Element>, issued: nat, i: nat)
    requires Linked(entries, order, issued) && i < |order|
    ensures |entries| == |order| && DistinctIds(Entries(order))
    ensures Entries(order)[i] == order[i].entry
    ensures order[i].entry.id in entries && entries[order[i].entry.id] == order[i].handle
  {
    DistinctCount(Entries(order));
    assert |entries| == |entries.Keys|;
    IndexedAt(order, i);
  }

  lemma {:induction false} IndexFinds(order: seq<Element>, id: string)
    requires id in Index(order)
    ensures exists i :: 0 <= i < |order| && order[i].entry.id == id && order[i].handle == Index(order)[id]
  {
    if order[0].entry.id != id {
      IndexFinds(order[1..], id);
      var i :| 0 <= i < |order[1..]| && order[1..][i].entry.id == id && order[1..][i].handle == Index(order[1..])[id];
      assert order[i + 1] == order[1..][i];
    }
  }

  /**
   Map and list are in bijection: an id is in the map exactly if an element carries it, and it is where
   the map points.
   */
  lemma MapAndListAgree(entries: map<string, nat>, order: seq<Element>, issued: nat, id: string)
    requires Linked(entries, order, issued)
    ensures id in entries <==> exists i :: 0 <= i < |order| && order[i].entry.id == id
    ensures forall i | 0 <= i < |order| && order[i].entry.id == id :: id in entries && order[i].handle == entries[id]
    ensures forall i, j | 0 <= i < j < |order| :: order[i].handle != order[j].handle
  {
    if id in entries {
      IndexFinds(order, id);
    }
    forall i | 0 <= i < |order| && order[i].entry.id == id ensures id in entries && order[i].handle == entries[id] {
      LinkedAt(entries, order, issued, i);
    }
    forall i, j | 0 <= i < j < |order| ensures order[i].handle != order[j].handle {
      AscendingAt(order, issued, i, j);
    }
  }

  lemma {:induction false} AscendingAt(order: seq<Element>, issued: nat, i: nat, j: nat)
    requires Ascending(order, issued) && i < j < |order|
    ensures order[i].handle < order[j].handle
  {
    if i > 0 {
      AscendingAt(order[1..], issued, i - 1, j - 1);
    } else if j > 1 {
      AscendingAt(order[1..], issued, 0, j - 1);
    }
  }

  /** Dropping an id from the map and its element from the list, as both methods do. */
  lemma UnlinkId(entries: map<string, nat>, order: seq<Element>, issued: nat, id: string)
    requires Linked(entries, order, issued) && id in entries
    ensures Linked(entries - {id}, Unlink(order, entries[id]), issued)
    ensures Entries(Unlink(order, entries[id])) == Remove(Entries(order), id)
  {
    UnlinkIndexed(order, issued, id);
    UnlinkAscending(order, issued, entries[id]);
    RemoveKeepsDistinct(Entries(order), id);
  }

  /** Appending an element under an id the map may still point elsewhere for. */
  lemma PushId(entries: map<string, nat>, order: seq<Element>, issued: nat, e: Entry)
    requires Linked(entries - {e.id}, order, issued)
    ensures Linked(entries[e.id := issued], order + [Element(issued, e)], issued + 1)
    ensures Entries(order + [Element(issued, e)]) == Entries(order) + [e]
  {
    PushEntries(order, Element(issued, e));
    PushIndex(order, Element(issued, e));
    PushAscending(order, issued, e);
    DistinctAppend(Entries(order), e);
    assert entries[e.id := issued] == (entries - {e.id})[e.id := issued];
  }

  /** `order.Remove(elem)` for an id that is already in the map. */
  function Forget(entries: map<string, nat>, order: seq<Element>, id: string): seq<Element> {
    if id in entries then Unlink(order, entries[id]) else order
  }

  lemma RememberLinked(entries: map<string, nat>, order: seq<Element>, issued: nat, e: Entry)
    requires Linked(entries, order, issued)
    ensures Linked(entries[e.id := issued], Forget(entries, order, e.id) + [Element(issued, e)], issued + 1)
    ensures Entries(Forget(entries, order, e.id) + [Element(issued, e)]) == Remove(Entries(order), e.id) + [e]
  {
    RemoveIds(Entries(order), e.id);
    if e.id in entries {
      UnlinkId(entries, order, issued, e.id);
    } else {
      assert entries - {e.id} == entries;
    }
    PushId(entries, Forget(entries, order, e.id), issued, e);
  }

  /** What the fields of the filter mean together. */
  ghost predicate Good(cfg: Config, entries: map<string, nat>, order: seq<Element>, issued: nat,
                       history: seq<Remembered>, forgotten: seq<Entry>, last: int) {
    Linked(entries, order, issued) && Represents(history, cfg, forgotten, Entries(order), last)
  }

  lemma RememberGood(cfg: Config, entries: map<string, nat>, order: seq<Element>, issued: nat,
                     history: seq<Remembered>, forgotten: seq<Entry>, last: int, r: Remembered)
    requires Good(cfg, entries, order, issued, history, forgotten, last) && last <= r.at
    ensures Good(cfg, entries[r.id := issued],
            Forget(entries, order, r.id) + [Element(issued, Entry(r.id, r.at + cfg.ttl))],
                 issued + 1, history + [r], Remove(forgotten, r.id), r.at)
  {
    hide Linked, Represents, Entries, Forget, Remove;
    RememberLinked(entries, order, issued, Entry(r.id, r.at + cfg.ttl));
    RememberRepresents(history, cfg, forgotten, Entries(order), last, r);
  }

  /**
   The verdict the history calls for: an event from an ignored kind of sender, from the bot's own app or of an
   ignored kind, or one about a known message.
   */
  ghost predicate ShouldIgnore(cfg: Config, history: seq<Remembered>, ev: Event, now: int) {
    || ev.senderType in cfg.senderTypes
    || (ev.senderAppID != "" && ev.senderAppID == cfg.selfAppID)
    || (cfg.ignoreUpdateEvents && ev.eventType == "message_update")
    || (cfg.ignoreCardEvents && ev.eventType == "card")
    || (ev.messageID != "" && Known(history, cfg.ttl, cfg.maxMessageIDs, ev.messageID, now))
  }

  class SelfFilter {
    const cfg: Config
    var entries: map<string, nat>
    var order: seq<Element>
    var issued: nat
    ghost var history: seq<Remembered>
    ghost var forgotten: seq<Entry>
    ghost var lastReading: int

    ghost predicate Valid()
      reads this
    {
      Good(cfg, entries, order, issued, history, forgotten, lastReading)
    }

    constructor (cfg: Config, ghost start: int)
      ensures Valid() && this.cfg == cfg && history == [] && lastReading == start
    {
      this.cfg := cfg;
      entries, order, issued := map[], [], 0;
      history, forgotten, lastReading := [], [], start;
    }

    /** Ignore the event outright, or look its message id up after pruning at reading `now`. */
    method Ignore(ev: Event, now: int) returns (ignored: bool)
      requires Valid() && lastReading <= now
      modifies this
      ensures Valid() && history == old(history)
      ensures old(lastReading) <= lastReading <= now
      ensures ignored <==> ShouldIgnore(cfg, history, ev, now)
    {
      ignored := IgnoreSenderType(ev.senderType);
      if ignored {
        return;
      }
      if ev.senderAppID != "" && ev.senderAppID == cfg.selfAppID {
        return true;
      }
      if cfg.ignoreUpdateEvents && ev.eventType == MESSAGE_PATCH {
        return true;
      }
      if cfg.ignoreCardEvents && ev.eventType == CARD {
        return true;
      }
      if ev.messageID == "" {
        return false;
      }
      Prune(now);
      HeldIffKnown(history, cfg, forgotten, Entries(order), now, ev.messageID);
      return ev.messageID in entries;
    }

    method IgnoreSenderType(senderType: string) returns (ignored: bool)
      ensures ignored <==> senderType in cfg.senderTypes
    {
      for i := 0 to |cfg.senderTypes|
        invariant senderType !in cfg.senderTypes[..i]
      {
        if senderType == cfg.senderTypes[i] {
          return true;
        }
      }
      return false;
    }

    /** Note that the bot itself sent `messageID`: `at` is the expiry's reading, `now` the prune's. */
    method Remember(messageID: string, at: int, now: int)
      requires Valid() && lastReading <= at <= now
      modifies this
      ensures Valid()
      ensures history == if messageID == "" then old(history) else old(history) + [Remembered(messageID, at)]
      ensures lastReading == if messageID == "" then old(lastReading) else now
    {
      if messageID == "" {
        return;
      }
      hide Good;
      MoveToBack(messageID, at);
      Prune(now);
    }

    /** Take the id's old element out of the list, if it has one, and append a new one. */
    method MoveToBack(messageID: string, at: int)
      requires Valid() && lastReading <= at
      modifies this
      ensures Valid() && lastReading == at && history == old(history) + [Remembered(messageID, at)]
    {
      hide Good, Forget, Remove;
      var entry := Entry(messageID, at + cfg.ttl);
      RememberGood(cfg, entries, order, issued, history, forgotten, lastReading, Remembered(messageID, at));
      order := Forget(entries, order, messageID) + [Element(issued, entry)];
      entries := entries[messageID := issued];
      issued := issued + 1;
      forgotten := Remove(forgotten, messageID);
      history := history + [Remembered(messageID, at)];
      lastReading := at;
      assert Good(cfg, entries, order, issued, history, forgotten, lastReading);
    }

    /** Walk the list from the oldest element and delete what is too old or over capacity. */
    method Prune(now: int)
      requires Valid() && lastReading <= now
      modifies this
      ensures Valid() && history == old(history) && lastReading == now
      ensures Entries(order) == Pruned(old(Entries(order)), 0, now, cfg.maxMessageIDs)
      ensures Pruned(Entries(order), 0, now, cfg.maxMessageIDs) == Entries(order)
    {
      hide Represents, Linked, Walking, Entries, Unlink, Pruned;
      ghost var target := Pruned(Entries(order), 0, now, cfg.maxMessageIDs);
      ghost var dropped := PruneRepresents(history, cfg, forgotten, Entries(order), lastReading, now);
      WalkStarts(Entries(order), now, cfg.maxMessageIDs);
      var i := 0;
      while i < |order|
        modifies `entries, `order
        invariant i <= |order|
        invariant Linked(entries, order, issued)
        invariant Walking(Entries(order), i, now, cfg.maxMessageIDs, target)
        decreases |order| - i
      {
        var e := order[i];
        LinkedAt(entries, order, issued, i);
        if now > e.entry.expiresAt || |entries| > cfg.maxMessageIDs {
          WalkDrops(Entries(order), i, now, cfg.maxMessageIDs, target);
          UnlinkId(entries, order, issued, e.entry.id);
          entries := entries - {e.entry.id};
          order := Unlink(order, e.handle);
        } else {
          WalkKeeps(Entries(order), i, now, cfg.maxMessageIDs, target);
          i := i + 1;
        }
      }
      WalkEnds(Entries(order), now, cfg.maxMessageIDs, target);
      forgotten, lastReading := forgotten + dropped, now;
    }
  }

  // ---- Whole runs ----

  /** A call on the filter and its clock readings: a look-up, or a message id to remember. */
  datatype Use = Ask(ev: Event, now: int) | Note(messageID: string, at: int, pruned: int)

  function FirstReading(u: Use): int {
    if u.Ask? then u.now else u.at
  }

  function LastReading(u: Use): int {
    if u.Ask? then u.now else u.pruned
  }

  /** The clock never goes back during the run, from `start` on. */
  predicate InOrder(run: seq<Use>, start: int) {
    run == []
    || (InOrder(run[..|run| - 1], start)
        && ReadBefore(run[..|run| - 1], start) <= FirstReading(run[|run| - 1]) <= LastReading(run[|run| - 1]))
  }

  /** The clock when the run has ended. */
  function ReadBefore(run: seq<Use>, start: int): int {
    if run == [] then start else LastReading(run[|run| - 1])
  }

  /** What the calls of a run have remembered. */
  function HistoryOf(run: seq<Use>): seq<Remembered> {
    if run == [] then []
    else
      var u := run[|run| - 1];
      HistoryOf(run[..|run| - 1]) + if u.Note? && u.messageID != "" then [Remembered(u.messageID, u.at)] else []
  }

  lemma {:induction false} InOrderFront(run: seq<Use>, start: int, n: nat)
    requires InOrder(run, start) && n <= |run|
    ensures InOrder(run[..n], start)
    decreases |run|
  {
    if n < |run| {
      InOrderFront(run[..|run| - 1], start, n);
      assert run[..|run| - 1][..n] == run[..n];
    } else {
      assert run[..n] == run;
    }
  }

  lemma NothingUsed(start: int)
    ensures HistoryOf([]) == [] && ReadBefore([], start) == start
  {
  }

  /** The next use of a run: its readings, and what it adds to the history. */
  lemma NextUse(run: seq<Use>, start: int, i: nat)
    requires InOrder(run, start) && i < |run|
    ensures var u, before, after := run[i], run[..i], run[..i + 1];
            if u.Ask? then
              ReadBefore(before, start) <= u.now == ReadBefore(after, start) && HistoryOf(after) == HistoryOf(before)
            else
              && ReadBefore(before, start) <= u.at <= u.pruned == ReadBefore(after, start)
              && HistoryOf(after)
                 == HistoryOf(before) + if u.messageID != "" then [Remembered(u.messageID, u.at)] else []
  {
    InOrderFront(run, start, i + 1);
    assert run[..i + 1][..i] == run[..i];
  }

  /** A filter used over a whole run: every look-up answers what the calls before it remembered. */
  method UseFilter(cfg: Config, start: int, run: seq<Use>) returns (verdicts: seq<bool>)
    requires InOrder(run, start)
    ensures |verdicts| == |run|
    ensures forall i | 0 <= i < |run| && run[i].Ask? ::
              verdicts[i] <==> ShouldIgnore(cfg, HistoryOf(run[..i]), run[i].ev, run[i].now)
  {
    hide ShouldIgnore, Good, InOrder, ReadBefore, HistoryOf;
    NothingUsed(start);
    var filter := new SelfFilter(cfg, start);
    verdicts := [];
    for i := 0 to |run|
      invariant fresh(filter) && filter.Valid() && filter.cfg == cfg && |verdicts| == i
      invariant filter.history == HistoryOf(run[..i]) && filter.lastReading <= ReadBefore(run[..i], start)
      invariant forall j | 0 <= j < i && run[j].Ask? ::
                  verdicts[j] <==> ShouldIgnore(cfg, HistoryOf(run[..j]), run[j].ev, run[j].now)
    {
      NextUse(run, start, i);
      var verdict := false;
      if run[i].Ask? {
        verdict := filter.Ignore(run[i].ev, run[i].now);
      } else {
        filter.Remember(run[i].messageID, run[i].at, run[i].pruned);
      }
      verdicts := verdicts + [verdict];
    }
  }
}
