/** The key a conversation's session is stored under, before hashing. */
module SessionKey {
  const SCOPE_SENDER := "sender"
  const SCOPE_THREAD := "thread"
  const NUL := '\U{0000}'

  datatype Chat = Chat(agent: string, cwd: string, id: string, scope: string, sessionID: string, prefix: string)

  /** The fields that identify a session: the thread scope adds sender and thread, the sender scope the sender. */
  function Parts(chat: Chat, senderID: string, threadID: string): (parts: seq<string>)
    ensures |parts| >= 6
  {
    [chat.agent, chat.cwd, chat.id, chat.scope, chat.sessionID, chat.prefix]
    + (if chat.scope == SCOPE_SENDER then [senderID] else [])
    + (if chat.scope == SCOPE_THREAD then [senderID, threadID] else [])
  }

  function Join(parts: seq<string>): string
    requires parts != []
  {
    if |parts| == 1 then parts[0] else parts[0] + [NUL] + Join(parts[1..])
  }

  function PreHash(chat: Chat, senderID: string, threadID: string): string {
    Join(Parts(chat, senderID, threadID))
  }

  /** The stored key, for any hash. */
  function Key(hash: string -> string, chat: Chat, senderID: string, threadID: string): string {
    hash(PreHash(chat, senderID, threadID))
  }

  predicate NoNul(parts: seq<string>) {
    forall k | 0 <= k < |parts| :: NUL !in parts[k]
  }

  /** Two conversations that are meant to share a session. */
  predicate SameConversation(a: Chat, senderA: string, threadA: string, b: Chat, senderB: string, threadB: string) {
    && a == b
    && (a.scope == SCOPE_SENDER || a.scope == SCOPE_THREAD ==> senderA == senderB)
    && (a.scope == SCOPE_THREAD ==> threadA == threadB)
  }

  /** What stands before the first separator. */
  function FirstPart(s: string): string {
    if s == [] || s[0] == NUL then [] else [s[0]] + FirstPart(s[1..])
  }

  lemma {:induction false} FirstPartOf(part: string, rest: string)
    requires NUL !in part
    ensures FirstPart(part + [NUL] + rest) == part
  {
    if part != [] {
      assert (part + [NUL] + rest)[1..] == part[1..] + [NUL] + rest;
      FirstPartOf(part[1..], rest);
    }
  }

  lemma CutAtSeparator(p: string, q: string, x: string, y: string)
    requires NUL !in p && NUL !in q && p + [NUL] + x == q + [NUL] + y
    ensures p == q && x == y
  {
    FirstPartOf(p, x);
    FirstPartOf(q, y);
    var s := p + [NUL] + x;
    assert x == s[|p| + 1..] && y == s[|q| + 1..];
  }

  lemma SeparatorIff(parts: seq<string>)
    requires parts != [] && NoNul(parts)
    ensures NUL in Join(parts) <==> |parts| > 1
  {
    if |parts| > 1 {
      assert Join(parts)[|parts[0]|] == NUL;
    }
  }

  lemma {:induction false} JoinInjective(a: seq<string>, b: seq<string>)
    requires a != [] && b != [] && NoNul(a) && NoNul(b) && Join(a) == Join(b)
    ensures a == b
  {
    SeparatorIff(a);
    SeparatorIff(b);
    if |a| > 1 {
      CutAtSeparator(a[0], b[0], Join(a[1..]), Join(b[1..]));
      JoinInjective(a[1..], b[1..]);
      assert a == [a[0]] + a[1..] && b == [b[0]] + b[1..];
    }
  }

  lemma PartsIdentify(a: Chat, senderA: string, threadA: string, b: Chat, senderB: string, threadB: string)
    requires Parts(a, senderA, threadA) == Parts(b, senderB, threadB)
    ensures SameConversation(a, senderA, threadA, b, senderB, threadB)
  {
    var p, q := Parts(a, senderA, threadA), Parts(b, senderB, threadB);
    assert p[0] == q[0] && p[1] == q[1] && p[2] == q[2] && p[3] == q[3] && p[4] == q[4] && p[5] == q[5];
    if a.scope == SCOPE_SENDER {
      assert p[6] == q[6];
    } else if a.scope == SCOPE_THREAD {
      assert p[6] == q[6] && p[7] == q[7];
    }
  }

  /** Under an injective hash, two conversations share a key exactly when they are the same one. */
  lemma KeyIdentifies(hash: string -> string, a: Chat, senderA: string, threadA: string,
                      b: Chat, senderB: string, threadB: string)
    requires forall x, y :: hash(x) == hash(y) ==> x == y
    requires NoNul(Parts(a, senderA, threadA)) && NoNul(Parts(b, senderB, threadB))
    ensures Key(hash, a, senderA, threadA) == Key(hash, b, senderB, threadB)
            <==> SameConversation(a, senderA, threadA, b, senderB, threadB)
  {
    if PreHash(a, senderA, threadA) == PreHash(b, senderB, threadB) {
      JoinInjective(Parts(a, senderA, threadA), Parts(b, senderB, threadB));
      PartsIdentify(a, senderA, threadA, b, senderB, threadB);
    }
  }

  // ---- A NUL in a field ----

  const SCOPE_PART := 3

  /** A NUL in one of two neighbours can be read as the separator between two other values. */
  lemma Shift(p: string, q: string) returns (p': string, q': string)
    requires NUL in p || NUL in q
    ensures p + [NUL] + q == p' + [NUL] + q' && p' != p
  {
    if NUL in p {
      var j :| 0 <= j < |p| && p[j] == NUL;
      p', q' := p[..j], p[j + 1..] + [NUL] + q;
    } else {
      var j :| 0 <= j < |q| && q[j] == NUL;
      p', q' := p + [NUL] + q[..j], q[j + 1..];
    }
  }

  lemma JoinTwo(p: string, q: string, rest: seq<string>)
    ensures Join([p, q] + rest) == if rest == [] then p + [NUL] + q else (p + [NUL] + q) + [NUL] + Join(rest)
  {
    assert ([p, q] + rest)[1..] == [q] + rest && ([q] + rest)[1..] == rest;
    assert Join([p, q] + rest) == p + [NUL] + Join([q] + rest);
  }

  /** Neighbours that read the same together join the same. */
  lemma {:induction false} JoinNeighbours(before: seq<string>, p: string, q: string, p': string, q': string,
                                          rest: seq<string>)
    requires p + [NUL] + q == p' + [NUL] + q'
    ensures Join(before + [p, q] + rest) == Join(before + [p', q'] + rest)
  {
    if before == [] {
      assert before + [p, q] + rest == [p, q] + rest && before + [p', q'] + rest == [p', q'] + rest;
      JoinTwo(p, q, rest);
      JoinTwo(p', q', rest);
    } else {
      assert (before + [p, q] + rest)[1..] == before[1..] + [p, q] + rest;
      assert (before + [p', q'] + rest)[1..] == before[1..] + [p', q'] + rest;
      JoinNeighbours(before[1..], p, q, p', q', rest);
    }
  }

  /** The conversation with the values at parts `i` and `i + 1` replaced. */
  function Replaced(chat: Chat, i: nat, p: string, q: string): Chat {
    match i
    case 0 => chat.(agent := p, cwd := q)
    case 1 => chat.(cwd := p, id := q)
    case 4 => chat.(sessionID := p, prefix := q)
    case 5 => chat.(prefix := p)
    case _ => chat
  }

  function ReplacedSender(senderID: string, i: nat, p: string, q: string): string {
    if i == 5 then q else if i == 6 then p else senderID
  }

  function ReplacedThread(threadID: string, i: nat, q: string): string {
    if i == 6 then q else threadID
  }

  lemma ReplacedParts(chat: Chat, senderID: string, threadID: string, i: nat, p: string, q: string)
    requires i + 1 < |Parts(chat, senderID, threadID)| && i != SCOPE_PART && i + 1 != SCOPE_PART
    ensures Parts(Replaced(chat, i, p, q), ReplacedSender(senderID, i, p, q), ReplacedThread(threadID, i, q))
            == Parts(chat, senderID, threadID)[i := p][i + 1 := q]
  {
  }

  lemma SameParts(a: Chat, senderA: string, threadA: string, b: Chat, senderB: string, threadB: string)
    requires SameConversation(a, senderA, threadA, b, senderB, threadB)
    ensures Parts(a, senderA, threadA) == Parts(b, senderB, threadB)
  {
  }

  lemma Around(parts: seq<string>, i: nat, p: string, q: string)
    requires i + 1 < |parts|
    ensures parts == parts[..i] + [parts[i], parts[i + 1]] + parts[i + 2..]
    ensures parts[i := p][i + 1 := q] == parts[..i] + [p, q] + parts[i + 2..]
  {
  }

  /** Two neighbouring parts, none of them the scope, of which one contains NUL. */
  lemma NeighboursCollide(chat: Chat, senderID: string, threadID: string, i: nat)
    returns (b: Chat, senderB: string, threadB: string)
    requires i + 1 < |Parts(chat, senderID, threadID)| && i != SCOPE_PART && i + 1 != SCOPE_PART
    requires NUL in Parts(chat, senderID, threadID)[i] || NUL in Parts(chat, senderID, threadID)[i + 1]
    ensures PreHash(b, senderB, threadB) == PreHash(chat, senderID, threadID)
    ensures !SameConversation(chat, senderID, threadID, b, senderB, threadB)
  {
    var parts := Parts(chat, senderID, threadID);
    var p, q := Shift(parts[i], parts[i + 1]);
    b, senderB, threadB := Replaced(chat, i, p, q), ReplacedSender(senderID, i, p, q), ReplacedThread(threadID, i, q);
    JoinNeighbours(parts[..i], parts[i], parts[i + 1], p, q, parts[i + 2..]);
    Around(parts, i, p, q);
    ReplacedParts(chat, senderID, threadID, i, p, q);
    assert parts[i := p][i + 1 := q][i] == p;
    hide Join, Parts, Replaced, SameConversation;
    if SameConversation(chat, senderID, threadID, b, senderB, threadB) {
      SameParts(chat, senderID, threadID, b, senderB, threadB);
    }
  }

  /**
   Any field of the key but the scope: with a NUL in it there is another conversation with the same key,
   whatever the hash.
   */
  lemma NulAlwaysCollides(hash: string -> string, chat: Chat, senderID: string, threadID: string, k: nat)
    returns (b: Chat, senderB: string, threadB: string)
    requires k < |Parts(chat, senderID, threadID)| && k != SCOPE_PART && NUL in Parts(chat, senderID, threadID)[k]
    ensures Key(hash, b, senderB, threadB) == Key(hash, chat, senderID, threadID)
    ensures !SameConversation(chat, senderID, threadID, b, senderB, threadB)
  {
    var i: nat := if k == 0 || k == SCOPE_PART + 1 then k else k - 1;
    b, senderB, threadB := NeighboursCollide(chat, senderID, threadID, i);
  }
}
