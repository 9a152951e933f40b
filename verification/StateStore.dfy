/**
 The persistent tables: sessions, event dedupe and unknown-chat replies, with the hourly
 cleanup. Instants are nanoseconds from the zero time of the clock.
 */
module StateStore {
  import opened Wrappers

  datatype SessionRecord = SessionRecord(key: string, chatID: string, senderID: string, threadID: string,
                                         agentID: string, cwd: string, sessionID: string,
                                         createdAt: int, updatedAt: int, expiresAt: int, idleUntil: int)

  /** The three buckets: sessions by key, dedupe expiries by event key, last replies by chat. */
  datatype Tables = Tables(sessions: map<string, SessionRecord>, dedupe: map<string, int>, unknownChat: map<string,
                           int>)

  // ---- One operation ----

  function Seen(dedupe: map<string, int>, key: string, now: int): bool {
    key in dedupe && now < dedupe[key]
  }

  function Marked(dedupe: map<string, int>, key: string, ttl: int, now: int): map<string, int> {
    if Seen(dedupe, key, now) then dedupe else dedupe[key := now + ttl]
  }

  function Allowed(unknownChat: map<string, int>, chat: string, interval: int, now: int): bool {
    !(chat in unknownChat && now - unknownChat[chat] < interval)
  }

  function Replied(unknownChat: map<string, int>, chat: string, interval: int, now: int): map<string, int> {
    if Allowed(unknownChat, chat, interval, now) then unknownChat[chat := now] else unknownChat
  }

  /** A record whose key was lost reads as no record. */
  function GetSession(sessions: map<string, SessionRecord>, key: string): Option<SessionRecord> {
    if key in sessions && sessions[key].key != "" then Some(sessions[key]) else None
  }

  predicate SessionExpired(rec: SessionRecord, now: int) {
    (rec.expiresAt != 0 && now > rec.expiresAt) || (rec.idleUntil != 0 && now > rec.idleUntil)
  }

  /**
   What a cleanup leaves when it deletes the expired entries among the picked keys. Deleting
   while walking a bucket may skip entries, so any subset of the expired ones can be meant.
   */
  function Cleaned(t: Tables, now: int, interval: int, sessions: set<string>, dedupe: set<string>,
                   chats: set<string>): Tables {
    Tables(map k | k in t.sessions && !(k in sessions && SessionExpired(t.sessions[k], now)) :: t.sessions[k],
           map k | k in t.dedupe && !(k in dedupe && now > t.dedupe[k]) :: t.dedupe[k],
           map k | k in t.unknownChat
               && !(k in chats && interval > 0 && now - t.unknownChat[k] >= interval) :: t.unknownChat[k])
  }

  /** Nothing expired is skipped. */
  lemma CleanedAll(t: Tables, now: int, interval: int)
    ensures var left := Cleaned(t, now, interval, t.sessions.Keys, t.dedupe.Keys, t.unknownChat.Keys);
            && left.sessions == (map k | k in t.sessions && !SessionExpired(t.sessions[k], now) :: t.sessions[k])
            && left.dedupe == (map k | k in t.dedupe && t.dedupe[k] >= now :: t.dedupe[k])
            && left.unknownChat
               == (map k | k in t.unknownChat && (interval <= 0 || now - t.unknownChat[k] < interval) ::
                     t.unknownChat[k])
  {
    hide SessionExpired;
  }

  class BoltStore {
    var sessions: map<string, SessionRecord>
    var dedupe: map<string, int>
    var unknownChat: map<string, int>

    function View(): Tables
      reads this
    {
      Tables(sessions, dedupe, unknownChat)
    }

    constructor ()
      ensures View() == Tables(map[], map[], map[])
    {
      sessions, dedupe, unknownChat := map[], map[], map[];
    }

    method PutSession(rec: SessionRecord)
      modifies `sessions
      ensures sessions == old(sessions)[rec.key := rec]
    {
      sessions := sessions[rec.key := rec];
    }

    method DeleteSession(key: string)
      modifies `sessions
      ensures sessions == old(sessions) - {key}
    {
      sessions := sessions - {key};
    }

    method MarkSeen(key: string, ttl: int, now: int) returns (seen: bool)
      modifies `dedupe
      ensures seen == Seen(old(dedupe), key, now)
      ensures dedupe == Marked(old(dedupe), key, ttl, now)
      ensures if key in old(dedupe) && now < old(dedupe)[key] then seen && dedupe == old(dedupe)
              else !seen && dedupe == old(dedupe)[key := now + ttl]
    {
      seen := false;
      if key in dedupe && now < dedupe[key] {
        seen := true;
        return;
      }
      dedupe := dedupe[key := now + ttl];
    }

    method AllowUnknownChatReply(chat: string, interval: int, now: int) returns (allowed: bool)
      modifies `unknownChat
      ensures allowed == Allowed(old(unknownChat), chat, interval, now)
      ensures unknownChat == Replied(old(unknownChat), chat, interval, now)
      ensures if chat in old(unknownChat) && now - old(unknownChat)[chat] < interval then
                !allowed && unknownChat == old(unknownChat)
              else allowed && unknownChat == old(unknownChat)[chat := now]
    {
      allowed := false;
      if chat in unknownChat && now - unknownChat[chat] < interval {
        return;
      }
      allowed := true;
      unknownChat := unknownChat[chat := now];
    }

    method Cleanup(now: int, interval: int)
      modifies this
      ensures View() == Cleaned(old(View()), now, interval, old(sessions).Keys, old(dedupe).Keys, old(unknownChat).Keys)
      ensures sessions == map k | k in old(sessions) && !SessionExpired(old(sessions)[k], now) :: old(sessions)[k]
      ensures dedupe == map k | k in old(dedupe) && old(dedupe)[k] >= now :: old(dedupe)[k]
      ensures unknownChat
              == map k | k in old(unknownChat) && (interval <= 0 || now - old(unknownChat)[k] < interval) ::
                   old(unknownChat)[k]
    {
      hide SessionExpired, Cleaned;
      CleanedAll(View(), now, interval);
      CleanupSessions(now);
      dedupe := CleanupTimeBucket(dedupe, ts => now > ts);
      assert dedupe == map k | k in old(dedupe) && old(dedupe)[k] >= now :: old(dedupe)[k];
      if interval > 0 {
        unknownChat := CleanupTimeBucket(unknownChat, ts => now - ts >= interval);
      }
    }

    method CleanupSessions(now: int)
      modifies `sessions
      ensures sessions == map k | k in old(sessions) && !SessionExpired(old(sessions)[k], now) :: old(sessions)[k]
      ensures forall k | k in old(sessions) && k !in sessions ::
                var rec := old(sessions)[k];
                (rec.expiresAt != 0 && now > rec.expiresAt) || (rec.idleUntil != 0 && now > rec.idleUntil)
      ensures forall k | k in sessions ::
                && (sessions[k].expiresAt == 0 || now <= sessions[k].expiresAt)
                && (sessions[k].idleUntil == 0 || now <= sessions[k].idleUntil)
    {
      var todo, all := sessions.Keys, sessions;
      while todo != {}
        invariant todo <= all.Keys
        invariant sessions == map k | k in all && (k in todo || !SessionExpired(all[k], now)) :: all[k]
        decreases |todo|
      {
        var k :| k in todo;
        if SessionExpired(all[k], now) {
          sessions := sessions - {k};
        }
        todo := todo - {k};
      }
    }
  }

  /** Walk a bucket of instants and delete the expired ones. */
  method CleanupTimeBucket(bucket: map<string, int>, expired: int -> bool) returns (left: map<string, int>)
    ensures left == map k | k in bucket && !expired(bucket[k]) :: bucket[k]
  {
    left := bucket;
    var todo := bucket.Keys;
    while todo != {}
      invariant todo <= bucket.Keys
      invariant left == map k | k in bucket && (k in todo || !expired(bucket[k])) :: bucket[k]
      decreases |todo|
    {
      var k :| k in todo;
      if expired(bucket[k]) {
        left := left - {k};
      }
      todo := todo - {k};
    }
  }
}
