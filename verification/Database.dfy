/** The statements of internal/store as methods on the shared tables. `fault`
    says how the database ends the call: a statement can commit and still
    report an error. */
module Database {
  import opened Base
  import opened Tables
  import opened Inbox
  import Previews

  /** How ApplyEdit and RevokeMessage end: the statement ran in this chat, the
      message is not stored, it belongs to the other side, or an error. */
  datatype Outcome = Ran(chat: Jid) | Missing | NotAuthor | Error

  /** Neither query returns the row and no claim takes it. */
  ghost predicate GoneForGood(rows: Outbound, id: int)
    requires id in rows
  {
    && !Claimable(rows, id)
    && forall seconds :: !Eligible(rows[id], Pending, seconds) && !Eligible(rows[id], Resolve, seconds)
  }

  /** The row is in the queue it was in, with this many attempts, and comes up
      again exactly when the backoff after them is over. */
  ghost predicate WaitsFrom(row: OutboundRow, row': OutboundRow, attempts: int, at: int) {
    && row'.status == row.status && row'.waId == row.waId && row'.attempts == attempts
    && forall seconds ::
        Eligible(row', row.status, seconds) <==> attempts < MAX_ATTEMPTS && seconds - at > BackoffSeconds(attempts)
  }

  /** The kind of chat stays, a value that was there is still one, and at most
      one more message is unread. */
  predicate NothingLost(known: ChatRow, now: ChatRow) {
    && now.isGroup == known.isGroup
    && (known.displayName.Some? ==> now.displayName.Some?) && (known.phone.Some? ==> now.phone.Some?)
    && (known.lastAt.Some? ==> now.lastAt.Some?) && (known.lastPreview.Some? ==> now.lastPreview.Some?)
    && (now.unread == 0 || now.unread <= known.unread + 1)
  }

  ghost predicate OnlyThisChat(chats: Chats, chats': Chats, chat: Jid) {
    forall jid | jid in chats ::
      && jid in chats' && NothingLost(chats[jid], chats'[jid])
      && (jid != chat ==> chats'[jid] == chats[jid])
  }

  lemma UpsertLosesNothing(chats: Chats, c: Chat)
    ensures OnlyThisChat(chats, UpsertedChat(chats, c), c.jid) && OnlyThisChat(chats, chats, c.jid)
    ensures AsGiven(chats, c, UpsertedChat(chats, c))
  {
  }

  /** The inbound messages of the chat that are newer than every stored one of
      these; than the year 9999 when none of them is stored. */
  function NewerThan(messages: Messages, chat: Jid, ids: seq<MessageId>): set<MessageId> {
    set m | m in messages && messages[m].chat == chat && !messages[m].fromMe
      && messages[m].kind != "reaction" && messages[m].kind != "system"
      && (forall n | n in ids && n in messages :: messages[n].at < messages[m].at)
      && ((forall n | n in ids :: n !in messages) ==> 253402214400 < messages[m].at)
  }

  /** MAX(timestamp) is the time of a named message, and of none is later. */
  lemma {:induction false} NewestIsLatest(messages: Messages, ids: seq<MessageId>)
    ensures Newest(messages, ids).None? <==> forall n | n in ids :: n !in messages
    ensures Newest(messages, ids).Some? ==>
              && (forall n | n in ids && n in messages :: messages[n].at <= Newest(messages, ids).value)
              && exists n :: n in ids && n in messages && messages[n].at == Newest(messages, ids).value
  {
    if ids != [] {
      NewestIsLatest(messages, ids[1..]);
      forall n ensures n in ids <==> n == ids[0] || n in ids[1..] {}
    }
  }

  class Store {
    var db: Db

    constructor ()
      ensures db == Db(map[], map[], map[])
    {
      db := Db(map[], map[], map[]);
    }

    /** false means the row is no longer waiting, or already has an
        identifier: the caller must not send. */
    method ClaimNewChatMessageID(id: int, waId: MessageId, fault: Fault) returns (claimed: bool, err: bool)
      modifies this
      ensures db == old(db).(outbound := Committed(fault, old(db).outbound,
                                                   ClaimedOutbound(old(db).outbound, id, waId)))
      ensures err == !fault.Done?
      ensures claimed == (!err && Claimable(old(db).outbound, id))
      ensures claimed ==>
                && id in old(db).outbound && id in db.outbound
                && old(db).outbound[id].status.Resolve? && old(db).outbound[id].waId.None?
                && db.outbound[id] == old(db).outbound[id].(waId := Some(waId))
    {
      err := !fault.Done?;
      claimed := false;
      if Claimable(db.outbound, id) {
        if !fault.Refused? { db := db.(outbound := db.outbound[id := db.outbound[id].(waId := Some(waId))]); }
        claimed := !err;
      }
    }

    method MarkNewChatSent(id: int, waId: MessageId, fault: Fault) returns (err: bool)
      modifies this
      ensures db == old(db).(outbound := Committed(fault, old(db).outbound, SentOutbound(old(db).outbound, id, waId)))
      ensures err == !fault.Done?
      ensures !err && id in old(db).outbound ==>
                && id in db.outbound
                && db.outbound[id] == old(db).outbound[id].(status := Sent, waId := Some(waId), error := None)
    {
      err := !fault.Done?;
      if id in db.outbound && !fault.Refused? {
        db := db.(outbound := db.outbound[id := db.outbound[id].(status := Sent, waId := Some(waId), error := None)]);
      }
    }

    method FailOutbound(id: int, attempts: int, code: Code, at: int, fault: Fault) returns (err: bool)
      modifies this
      ensures db == old(db).(outbound := Committed(fault, old(db).outbound,
                                                   FailedOutbound(old(db).outbound, id, attempts, code, at)))
      ensures err == !fault.Done?
      // reported: nobody will read, claim or attempt the row again, and its identifier stays
      ensures !err && id in old(db).outbound ==>
                && GoneForGood(db.outbound, id)
                && db.outbound[id].waId == old(db).outbound[id].waId && db.outbound[id].error == Some(code)
                && db.outbound[id].attempts == attempts && db.outbound[id].lastAttempt == Some(at)
    {
      err := !fault.Done?;
      if id in db.outbound && !fault.Refused? {
        var row := db.outbound[id];
        row := row.(status := Failed, attempts := attempts, lastAttempt := Some(at), error := Some(code));
        db := db.(outbound := db.outbound[id := row]);
      }
    }

    /** The UPDATE inside markAttempt. */
    method BumpAttempts(id: int, attempts: int, at: int, fault: Fault) returns (err: bool)
      modifies this
      ensures db == old(db).(outbound := Committed(fault, old(db).outbound,
                                                   AttemptedOutbound(old(db).outbound, id, attempts, at)))
      ensures err == !fault.Done?
      // reported: the row waits on in its queue, for exactly its backoff
      ensures !err && id in old(db).outbound ==> WaitsFrom(old(db).outbound[id], db.outbound[id], attempts, at)
    {
      err := !fault.Done?;
      if id in db.outbound && !fault.Refused? {
        db := db.(outbound := db.outbound[id := db.outbound[id].(attempts := attempts, lastAttempt := Some(at))]);
      }
    }

    /** chat_jid is a foreign key: the statement fails when the chat is missing. */
    method SetOutboundChat(id: int, chat: Jid, fault: Fault) returns (err: bool)
      modifies this
      ensures chat in old(db).chats ==>
                db == old(db).(outbound := Committed(fault, old(db).outbound,
                                                     PointedOutbound(old(db).outbound, id, chat)))
      ensures chat !in old(db).chats ==> db == old(db)
      ensures err == !(fault.Done? && chat in old(db).chats)
      ensures !err && id in old(db).outbound ==>
                id in db.outbound && db.outbound[id] == old(db).outbound[id].(chat := Some(chat))
    {
      err := !fault.Done? || chat !in db.chats;
      if chat in db.chats && !fault.Refused? { db := db.(outbound := PointedOutbound(db.outbound, id, chat)); }
    }

    /** INSERT ... ON DUPLICATE KEY UPDATE: a value that is given replaces what
        is known, a NULL keeps it. */
    method UpsertChat(c: Chat, fault: Fault) returns (err: bool)
      modifies this
      ensures db == old(db).(chats := Committed(fault, old(db).chats, UpsertedChat(old(db).chats, c)))
      ensures err == !fault.Done?
      // committed or not: no chat goes, no other changes, nothing that was known is lost
      ensures OnlyThisChat(old(db).chats, db.chats, c.jid)
      // reported: each column is the one given or, where that is NULL, the one known
      ensures !err ==> AsGiven(old(db).chats, c, db.chats)
    {
      err := !fault.Done?;
      if !fault.Refused? {
        var unread := if c.incrementUnread && !c.fromMe then 1 else 0;
        var row := ChatRow(c.displayName, c.phone, c.isGroup, c.at, c.preview, c.fromMe, unread);
        if c.jid in db.chats {
          var known := db.chats[c.jid];
          row := known.(lastFromMe := c.fromMe);
          if c.displayName.Some? { row := row.(displayName := c.displayName); }
          if c.phone.Some? { row := row.(phone := c.phone); }
          if c.at.Some? { row := row.(lastAt := c.at); }
          if c.preview.Some? { row := row.(lastPreview := c.preview); }
          if c.fromMe {
            row := row.(unread := 0);
          } else if c.incrementUnread {
            row := row.(unread := known.unread + 1);
          }
        }
        db := db.(chats := db.chats[c.jid := row]);
      }
      UpsertLosesNothing(old(db).chats, c);
    }

    method InsertMessage(id: MessageId, m: MessageRow, fault: Fault) returns (err: bool)
      modifies this
      ensures db == Committed(fault, old(db), InsertedMessage(old(db), id, m))
      ensures err == !fault.Done?
      // reported: stored as it is, unless its key is taken or its chat is not there
      ensures !err && id !in old(db).messages && m.chat in old(db).chats ==> db.messages == old(db).messages[id := m]
      ensures id in old(db).messages || m.chat !in old(db).chats ==> db == old(db)
    {
      err := !fault.Done?;
      if !fault.Refused? && id !in db.messages && m.chat in db.chats {
        db := db.(messages := db.messages[id := m]);
      }
    }

    // --------------------------------------------------------------- inbox

    /** SELECT chat_jid, from_me ... WHERE id = ? AND chat_jid IN (...) */
    method LocateMessage(id: MessageId, chats: seq<Jid>) returns (found: Option<MessageRow>)
      ensures found.Some? <==> Locates(db.messages, id, chats)
      ensures found.Some? ==> found.value == db.messages[id] && found.value.chat in chats
    {
      if id == Blank || chats == [] { return None; }
      if id in db.messages && db.messages[id].chat in chats { return Some(db.messages[id]); }
      return None;
    }

    /** `readFails` is an error of the lookup, `fault` the end of the UPDATE. */
    method ApplyEdit(chats: seq<Jid>, target: MessageId, fromMe: bool, newBody: Option<string>, at: int,
                     readFails: bool, fault: Fault)
      returns (outcome: Outcome)
      modifies this
      ensures db.chats == old(db).chats && db.outbound == old(db).outbound
      ensures db.messages == if MayEdit(old(db).messages, target, chats, fromMe) && !readFails && !fault.Refused?
                             then old(db).messages[target := EditedRow(old(db).messages[target], newBody, at)]
                             else old(db).messages
      ensures outcome == if readFails then Error
                         else if !Locates(old(db).messages, target, chats) then Missing
                         else if old(db).messages[target].fromMe != fromMe then NotAuthor
                         else if fault.Done? then Ran(old(db).messages[target].chat) else Error
      // it has the new text, and keeps the first that was replaced
      ensures outcome.Ran? ==>
                && target in old(db).messages && target in db.messages
                && var m := old(db).messages[target];
                   db.messages[target] == m.(body := newBody, editedAt := Some(at),
                                             originalBody := if m.originalBody.Some? then m.originalBody else m.body)
      ensures outcome.Missing? || outcome.NotAuthor? ==> db == old(db)
    {
      if readFails { return Error; }
      var ref := LocateMessage(target, chats);
      if ref.None? { return Missing; }
      if ref.value.fromMe != fromMe { return NotAuthor; }
      if !fault.Refused? {
        // SET original_body, body, edited_at, in this order
        var m := db.messages[target];
        m := m.(originalBody := Coalesce(m.originalBody, m.body));
        m := m.(body := newBody);
        m := m.(editedAt := Some(at));
        db := db.(messages := db.messages[target := m]);
      }
      outcome := if fault.Done? then Ran(ref.value.chat) else Error;
    }

    method RevokeMessage(chats: seq<Jid>, target: MessageId, fromMe: bool, isGroup: bool, at: int, readFails: bool,
                         fault: Fault)
      returns (outcome: Outcome)
      modifies this
      ensures db.chats == old(db).chats && db.outbound == old(db).outbound
      ensures db.messages == if MayRevoke(old(db).messages, target, chats, fromMe, isGroup)
                                && !readFails && !fault.Refused?
                             then old(db).messages[target := RevokedRow(old(db).messages[target], at)]
                             else old(db).messages
      ensures outcome == if readFails then Error
                         else if !Locates(old(db).messages, target, chats) then Missing
                         else if !isGroup && old(db).messages[target].fromMe != fromMe then NotAuthor
                         else if fault.Done? then Ran(old(db).messages[target].chat) else Error
      // it is flagged, since its first delete
      ensures outcome.Ran? ==>
                && target in old(db).messages && target in db.messages
                && var m := old(db).messages[target];
                   db.messages[target] == m.(revokedAt := if m.revokedAt.Some? then m.revokedAt else Some(at))
      ensures outcome.Missing? || outcome.NotAuthor? ==> db == old(db)
    {
      if readFails { return Error; }
      var ref := LocateMessage(target, chats);
      if ref.None? { return Missing; }
      if !isGroup && ref.value.fromMe != fromMe { return NotAuthor; }
      if !fault.Refused? {
        var m := db.messages[target];
        m := m.(revokedAt := if m.revokedAt.Some? then m.revokedAt else Some(at));
        db := db.(messages := db.messages[target := m]);
      }
      outcome := if fault.Done? then Ran(ref.value.chat) else Error;
    }

    /** `existing` is what the lookup returned. */
    method UpsertReaction(r: Reaction, existing: Option<MessageId>, fault: Fault) returns (err: bool)
      requires IsExisting(db.messages, r, existing)
      modifies this
      ensures db == Committed(fault, old(db), Reacted(old(db), r, existing))
      ensures err ==> !fault.Done?
    {
      err := false;
      if r.target == Blank { return; }
      if existing.Some? {
        var m := db.messages[existing.value];
        if !fault.Refused? && m.at <= r.at {
          m := if r.emoji == "" then m.(kind := "system", body := None, at := r.at)
               else m.(kind := "reaction", body := Some(r.emoji), at := r.at);
          db := db.(messages := db.messages[existing.value := m]);
        }
        err := !fault.Done?;
        assert db.messages[existing.value := db.messages[existing.value]] == db.messages;
      } else if r.emoji != "" {
        err := InsertMessage(r.id, ReactionRow(r), fault);
      }
    }

    /** The count never goes up. */
    method ClearUnreadUpTo(chat: Jid, ids: seq<MessageId>)
      modifies this
      ensures db == Cleared(old(db), chat, ids)
      ensures chat in old(db).chats && old(db).chats[chat].unread >= 0 ==>
                0 <= db.chats[chat].unread <= old(db).chats[chat].unread
      // what is left are the inbound messages newer than every stored one that was named
      ensures ids != [] && chat in old(db).chats && old(db).chats[chat].unread > 0 ==>
                var left := |NewerThan(old(db).messages, chat, ids)|;
                db.chats[chat].unread == if left < old(db).chats[chat].unread then left else old(db).chats[chat].unread
    {
      if ids == [] { return; }
      if chat in db.chats && db.chats[chat].unread > 0 {
        var newest := Newest(db.messages, ids);
        var left := |UnreadSet(db.messages, chat, Some(if newest.Some? then newest.value else FAR_FUTURE))|;
        NewestIsLatest(db.messages, ids);
        assert UnreadSet(db.messages, chat, Some(if newest.Some? then newest.value else FAR_FUTURE))
            == NewerThan(db.messages, chat, ids);
        if left < db.chats[chat].unread {
          db := db.(chats := db.chats[chat := db.chats[chat].(unread := left)]);
        }
        assert db.chats[chat := db.chats[chat]] == db.chats;
      }
    }

    /** The current statuses a receipt of this rank may replace. */
    method LowerStatuses(target: nat) returns (allowed: seq<string>)
      requires target < 4
      ensures forall s :: s in allowed <==> Rank(s).Some? && Rank(s).value < target
    {
      allowed := [];
      for i := 0 to |STATUSES|
        invariant forall s :: s in allowed
                    <==> exists j :: 0 <= j < i && STATUSES[j] == s && Rank(s).Some? && Rank(s).value < target
      {
        if Rank(STATUSES[i]).Some? && Rank(STATUSES[i]).value < target { allowed := allowed + [STATUSES[i]]; }
      }
      forall s ensures s in allowed <==> Rank(s).Some? && Rank(s).value < target {
        if Rank(s).Some? { assert STATUSES[Rank(s).value] == s; }
      }
    }

    /** An unknown status is an error and touches nothing. */
    method MarkMessagesStatus(ids: seq<MessageId>, status: string, fault: Fault) returns (err: bool)
      modifies this
      ensures db.chats == old(db).chats && db.outbound == old(db).outbound
      ensures db.messages == Committed(fault, old(db).messages, Marked(old(db).messages, ids, status))
      ensures ids != [] && Rank(status).None? ==> err && db == old(db)
    {
      err := false;
      if ids == [] {
        assert Marked(db.messages, ids, status) == db.messages;
        return;
      }
      if Rank(status).None? {
        assert Marked(db.messages, ids, status) == db.messages;
        return true;
      }
      var allowed := LowerStatuses(Rank(status).value);
      if allowed == [] {
        assert "received" !in allowed;
        assert Marked(db.messages, ids, status) == db.messages;
        return;
      }
      assert allowed[0] in allowed;
      err := !fault.Done?;
      if !fault.Refused? {
        var messages := map id | id in db.messages ::
          if id in ids && db.messages[id].fromMe
            && (db.messages[id].status.None? || db.messages[id].status.value in allowed)
          then db.messages[id].(status := Some(status)) else db.messages[id];
        assert messages == Marked(db.messages, ids, status);
        db := db.(messages := messages);
      }
    }

    /** `tail` is what the SELECT returned. */
    method RecomputeChatTail(chat: Jid, tail: Option<MessageId>, fault: Fault) returns (err: bool)
      requires if tail.Some? then IsTail(db.messages, chat, tail.value)
               else forall id | id in db.messages :: !InChat(db.messages, chat, id)
      modifies this
      ensures db == Committed(fault, old(db), Recomputed(old(db), chat, tail))
      ensures err ==> !fault.Done?
      ensures !err && tail.Some? && chat in old(db).chats ==>
                && chat in db.chats
                && var t := old(db).messages[tail.value];
                   db.chats[chat] == old(db).chats[chat].(lastAt := Some(t.at), lastFromMe := t.fromMe,
                                                          lastPreview := Some(Previews.TailPreview(t)))
    {
      err := false;
      if tail.None? { return; }
      err := !fault.Done?;
      if chat in db.chats && !fault.Refused? {
        var t := db.messages[tail.value];
        db := db.(chats := db.chats[chat :=
          db.chats[chat].(lastAt := Some(t.at), lastPreview := Some(Previews.TailPreview(t)), lastFromMe := t.fromMe)]);
      }
    }
  }
}
