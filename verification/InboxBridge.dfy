/** The event handlers of internal/wabridge/wabridge.go as they are written:
    early returns, the store calls in order, storeRetry around edits and
    deletes. When no write fails each handler does what Inbox says. */
module InboxBridge {
  import opened Base
  import opened Tables
  import opened Text
  import opened Previews
  import opened Inbox
  import opened MessageHistory
  import InboxRuns
  import Database

  class Bridge {
    const store: Database.Store
    const ties: Ties
    /** How the k-th statement ends, and whether the k-th lookup fails. */
    const faults: nat -> Fault
    const readFails: nat -> bool
    var turn: nat

    constructor (store: Database.Store, ties: Ties, faults: nat -> Fault, readFails: nat -> bool)
      requires ties.Lawful()
      ensures this.store == store && this.ties == ties && this.faults == faults && this.readFails == readFails
    {
      this.store, this.ties, this.faults, this.readFails, this.turn := store, ties, faults, readFails, 0;
    }

    ghost predicate Quiet() {
      forall k :: faults(k) == Done && !readFails(k)
    }

    method NextTurn() returns (fault: Fault, readFails: bool)
      modifies this`turn
      ensures Quiet() ==> fault == Done && !readFails
    {
      fault, readFails := faults(turn), this.readFails(turn);
      turn := turn + 1;
    }

    /** One call of ApplyEdit; a lookup that fails commits nothing. */
    method EditOnce(e: Incoming, target: MessageId, newBody: Option<string>, now: int)
      returns (outcome: Database.Outcome, ghost a: Attempt)
      modifies this`turn, store
      ensures store.db == old(store.db).(messages := Attempted(old(store.db).messages, a))
      ensures a == Attempt(target, e.chats, e.fromMe, e.isGroup, EditTo(newBody, now), a.fault)
      ensures outcome == Database.Error || outcome == EditOutcome(old(store.db).messages, target, e)
      ensures (outcome == Database.Error ==> a.fault != Done) && (outcome.Ran? ==> a.fault == Done)
      ensures Quiet() ==> a.fault == Done && outcome != Database.Error
    {
      var fault, readFails := NextTurn();
      a := Attempt(target, e.chats, e.fromMe, e.isGroup, EditTo(newBody, now), if readFails then Refused else fault);
      outcome := store.ApplyEdit(e.chats, target, e.fromMe, newBody, now, readFails, fault);
    }

    /** storeRetry around ApplyEdit. Whatever fails, the messages are what the
        recorded attempts, all of this one event, make of them. */
    method EditWithRetry(e: Incoming, target: MessageId, newBody: Option<string>, now: int)
      returns (outcome: Database.Outcome, ghost attempts: seq<Attempt>)
      modifies this`turn, store
      ensures store.db == old(store.db).(messages := AfterAttempts(old(store.db).messages, attempts))
      ensures |attempts| <= 3
      ensures Repeats(attempts, Attempt(target, e.chats, e.fromMe, e.isGroup, EditTo(newBody, now), Done))
      ensures outcome == Database.Error || outcome == EditOutcome(old(store.db).messages, target, e)
      ensures outcome == Database.Error ==> AllFailed(attempts)
      ensures outcome.Ran? ==> Reported(attempts)
      ensures Quiet() ==> |attempts| == 1 && outcome != Database.Error && attempts[0].fault == Done
    {
      var tries := 0;
      outcome, attempts := Database.Error, [];
      while tries < STORE_TRIES && outcome == Database.Error
        invariant 0 <= tries <= STORE_TRIES && |attempts| == tries
        invariant store.db == old(store.db).(messages := AfterAttempts(old(store.db).messages, attempts))
        invariant Repeats(attempts, Attempt(target, e.chats, e.fromMe, e.isGroup, EditTo(newBody, now), Done))
        invariant outcome == Database.Error || outcome == EditOutcome(old(store.db).messages, target, e)
        invariant outcome == Database.Error ==> forall i | 0 <= i < |attempts| :: attempts[i].fault != Done
        invariant outcome.Ran? ==> Reported(attempts)
        invariant tries == 0 ==> outcome == Database.Error
        invariant Quiet() && tries > 0 ==> tries == 1 && outcome != Database.Error && attempts[0].fault == Done
      {
        SameOutcomes(old(store.db).messages, attempts, target, e);
        ghost var a;
        outcome, a := EditOnce(e, target, newBody, now);
        AttemptsSnoc(old(store.db).messages, attempts, a);
        attempts := attempts + [a];
        tries := tries + 1;
      }
    }

    /** One call of RevokeMessage; a lookup that fails commits nothing. */
    method RevokeOnce(e: Incoming, target: MessageId, now: int)
      returns (outcome: Database.Outcome, ghost a: Attempt)
      modifies this`turn, store
      ensures store.db == old(store.db).(messages := Attempted(old(store.db).messages, a))
      ensures a == Attempt(target, e.chats, e.fromMe, e.isGroup, RevokeAt(now), a.fault)
      ensures outcome == Database.Error || outcome == RevokeOutcome(old(store.db).messages, target, e)
      ensures (outcome == Database.Error ==> a.fault != Done) && (outcome.Ran? ==> a.fault == Done)
      ensures Quiet() ==> a.fault == Done && outcome != Database.Error
    {
      var fault, readFails := NextTurn();
      a := Attempt(target, e.chats, e.fromMe, e.isGroup, RevokeAt(now), if readFails then Refused else fault);
      outcome := store.RevokeMessage(e.chats, target, e.fromMe, e.isGroup, now, readFails, fault);
    }

    /** storeRetry around RevokeMessage. Whatever fails, the messages are what the
        recorded attempts, all of this one event, make of them. */
    method RevokeWithRetry(e: Incoming, target: MessageId, now: int)
      returns (outcome: Database.Outcome, ghost attempts: seq<Attempt>)
      modifies this`turn, store
      ensures store.db == old(store.db).(messages := AfterAttempts(old(store.db).messages, attempts))
      ensures |attempts| <= 3
      ensures Repeats(attempts, Attempt(target, e.chats, e.fromMe, e.isGroup, RevokeAt(now), Done))
      ensures outcome == Database.Error || outcome == RevokeOutcome(old(store.db).messages, target, e)
      ensures outcome == Database.Error ==> AllFailed(attempts)
      ensures outcome.Ran? ==> Reported(attempts)
      ensures Quiet() ==> |attempts| == 1 && outcome != Database.Error && attempts[0].fault == Done
    {
      var tries := 0;
      outcome, attempts := Database.Error, [];
      while tries < STORE_TRIES && outcome == Database.Error
        invariant 0 <= tries <= STORE_TRIES && |attempts| == tries
        invariant store.db == old(store.db).(messages := AfterAttempts(old(store.db).messages, attempts))
        invariant Repeats(attempts, Attempt(target, e.chats, e.fromMe, e.isGroup, RevokeAt(now), Done))
        invariant outcome == Database.Error || outcome == RevokeOutcome(old(store.db).messages, target, e)
        invariant outcome == Database.Error ==> forall i | 0 <= i < |attempts| :: attempts[i].fault != Done
        invariant outcome.Ran? ==> Reported(attempts)
        invariant tries == 0 ==> outcome == Database.Error
        invariant Quiet() && tries > 0 ==> tries == 1 && outcome != Database.Error && attempts[0].fault == Done
      {
        SameOutcomes(old(store.db).messages, attempts, target, e);
        ghost var a;
        outcome, a := RevokeOnce(e, target, now);
        AttemptsSnoc(old(store.db).messages, attempts, a);
        attempts := attempts + [a];
        tries := tries + 1;
      }
    }

    /** recomputeTail */
    method RecomputeTail(chat: Jid)
      requires ties.Lawful()
      modifies this`turn, store
      ensures store.db.messages == old(store.db).messages && store.db.outbound == old(store.db).outbound
      ensures Quiet() ==> store.db == RecomputedFor(ties, old(store.db), chat)
    {
      var tries := 0;
      var err := true;
      while err && tries < STORE_TRIES
        invariant 0 <= tries <= STORE_TRIES
        invariant store.db.messages == old(store.db).messages && store.db.outbound == old(store.db).outbound
        invariant tries == 0 ==> err && store.db == old(store.db)
        invariant Quiet() && tries > 0 ==> !err && store.db == RecomputedFor(ties, old(store.db), chat)
      {
        var fault, _ := NextTurn();
        err := store.RecomputeChatTail(chat, ties.tail(store.db.messages, chat), fault);
        tries := tries + 1;
      }
    }

    /** applyProtocolAction, an edit. Under any failures the messages are the
        history of its own attempts: one that was reported, or three that failed. */
    method HandleEdit(e: Incoming, now: int) returns (ghost attempts: seq<Attempt>)
      requires ties.Lawful() && e.Ok() && e.content.EditOf?
      modifies this`turn, store
      ensures Quiet() ==> store.db == Handled(ties, old(store.db), e, now)
      ensures store.db.messages == AfterAttempts(old(store.db).messages, attempts)
              && store.db.outbound == old(store.db).outbound
      ensures |attempts| <= 3
      ensures Repeats(attempts,
                      Attempt(e.content.target, e.chats, e.fromMe, e.isGroup,
                              EditTo(NullString(e.content.newBody), now), Done))
      ensures MayEdit(old(store.db).messages, e.content.target, e.chats, e.fromMe) ==>
                Reported(attempts) || AllFailed(attempts)
    {
      var outcome;
      outcome, attempts := EditWithRetry(e, e.content.target, NullString(e.content.newBody), now);
      if |attempts| == 1 { OneAttempt(old(store.db).messages, attempts); }
      if outcome.Ran? { RecomputeTail(outcome.chat); }
    }

    /** applyProtocolAction, a delete; false when the original is not stored or
        could not be flagged. Under any failures the messages are the history of
        its own attempts. */
    method HandleDelete(e: Incoming, now: int) returns (handled: bool, ghost attempts: seq<Attempt>)
      requires ties.Lawful() && e.Ok() && e.content.DeleteOf?
      modifies this`turn, store
      ensures Quiet() ==> handled == Locates(old(store.db).messages, e.content.target, e.chats)
      ensures Quiet() ==> store.db == if handled then Handled(ties, old(store.db), e, now) else old(store.db)
      ensures store.db.messages == AfterAttempts(old(store.db).messages, attempts)
              && store.db.outbound == old(store.db).outbound
      ensures |attempts| <= 3
      ensures Repeats(attempts, Attempt(e.content.target, e.chats, e.fromMe, e.isGroup, RevokeAt(now), Done))
      // used up only if the message was found, and flagged if the sender may; left to be stored if that failed
      ensures handled ==> Locates(old(store.db).messages, e.content.target, e.chats)
      ensures handled && MayRevoke(old(store.db).messages, e.content.target, e.chats, e.fromMe, e.isGroup) ==>
                Reported(attempts)
      ensures !handled && Locates(old(store.db).messages, e.content.target, e.chats) ==> AllFailed(attempts)
    {
      var outcome;
      outcome, attempts := RevokeWithRetry(e, e.content.target, now);
      if |attempts| == 1 { OneAttempt(old(store.db).messages, attempts); }
      if outcome == Database.NotAuthor { return true, attempts; }
      if outcome == Database.Error || outcome == Database.Missing { return false, attempts; }
      RecomputeTail(outcome.chat);
      return true, attempts;
    }

    /** applyProtocolAction: true means the event is handled and must not be
        stored as a message of its own. */
    method ApplyProtocolAction(e: Incoming, now: int) returns (handled: bool)
      requires ties.Lawful() && e.Ok()
      modifies this`turn, store
      ensures Quiet() ==> handled == !Falls(old(store.db), e)
      ensures Quiet() ==> store.db == if handled then Handled(ties, old(store.db), e, now) else old(store.db)
      ensures store.db.messages.Keys == old(store.db).messages.Keys && store.db.outbound == old(store.db).outbound
      ensures e.content.EditOf? || e.content.Dropped? ==> handled
      ensures e.content.DeleteOf? && handled ==> Locates(old(store.db).messages, e.content.target, e.chats)
    {
      handled := e.content.Dropped?;
      ghost var attempts := [];
      if e.content.EditOf? {
        attempts := HandleEdit(e, now);
        handled := true;
      } else if e.content.DeleteOf? {
        handled, attempts := HandleDelete(e, now);
      }
      AttemptsAreHistories(old(store.db).messages, attempts);
    }

    /** storeReaction: in the chat its target is stored under. */
    method StoreReaction(e: Incoming)
      requires ties.Lawful() && e.Ok() && e.content.ReactionTo?
      modifies this`turn, store
      ensures Quiet() ==> store.db == Handled(ties, old(store.db), e, 0)
      ensures store.db.chats == old(store.db).chats
    {
      if e.content.target == Blank { return; }
      var chat := e.chats[0];
      if |e.chats| > 1 {
        var ref := store.LocateMessage(e.content.target, e.chats);
        var _, readFails := NextTurn();
        if ref.Some? && !readFails { chat := ref.value.chat; }
      }
      var r := Reaction(e.id, chat, NullString(e.member), e.forms, e.fromMe, e.isGroup, e.content.target,
                        e.content.emoji, e.at);
      var fault, readFails := NextTurn();
      if !readFails {
        var _ := store.UpsertReaction(r, ties.reaction(store.db.messages, r), fault);
      }
    }

    /** handleMessage */
    method HandleMessage(e: Incoming, now: int)
      requires ties.Lawful() && e.Ok()
      modifies this`turn, store
      ensures Quiet() ==> store.db == Handled(ties, old(store.db), e, now)
      // an ordinary message is stored as what it is, and so is the delete of one that is not there
      ensures Quiet() && e.content.Ordinary? && e.content.kind != "system" ==>
                Arrived(old(store.db), store.db, e, e.content.kind, e.content.body, e.content.media)
      ensures Quiet() && e.content.DeleteOf? && !Locates(old(store.db).messages, e.content.target, e.chats) ==>
                Arrived(old(store.db), store.db, e, "revoked", "", None)
      ensures Quiet() && e.content.Ordinary? && e.content.kind == "system" ==> store.db == old(store.db)
    {
      var handled := ApplyProtocolAction(e, now);
      if handled { return; }
      if e.content.ReactionTo? {
        StoreReaction(e);
        return;
      }
      var kind, body, media := "revoked", "", None;
      if e.content.Ordinary? { kind, body, media := e.content.kind, e.content.body, e.content.media; }
      if kind == "system" { return; }
      Arrives(store.db, e, kind, body, media);
      var fault, _ := NextTurn();
      var err := store.UpsertChat(ChatOf(e, kind, body, media), fault);
      if err { return; }
      var fault2, _ := NextTurn();
      var _ := store.InsertMessage(e.id, StoredRow(e.chats[0], e.sender, e.fromMe, kind, body, media, e.at), fault2);
    }

    /** One message of handleHistorySync; whether it was inserted. */
    method FillItem(c: Conversation, it: HistoryItem) returns (inserted: bool)
      requires ties.Lawful() && c.Ok()
      modifies this`turn, store
      ensures store.db.chats == old(store.db).chats && store.db.outbound == old(store.db).outbound
      ensures Quiet() ==> store.db == Filled(ties, old(store.db), c, it) && inserted == Inserted(old(store.db), c, it)
    {
      if it.HistoryReaction? {
        var fault, readFails := NextTurn();
        if !readFails {
          var _ := store.UpsertReaction(it.r, ties.reaction(store.db.messages, it.r), fault);
        }
        return false;
      }
      if it.HistoryDelete? {
        var fault, readFails := NextTurn();
        var outcome := store.RevokeMessage(c.chats, it.target, it.fromMe, c.isGroup, c.now, readFails, fault);
        if outcome == Database.NotAuthor || outcome.Ran? { return false; }
      }
      var fault, _ := NextTurn();
      var err := store.InsertMessage(it.id, it.row, fault);
      inserted := !err;
    }

    /** One conversation of handleHistorySync: the chat without its tail, the
        messages in order, and the tail if any of them was inserted. */
    method SyncConversation(c: Conversation)
      requires ties.Lawful() && c.Ok()
      modifies this`turn, store
      ensures Quiet() ==> store.db == Synced(ties, old(store.db), c)
      ensures Quiet() ==> KnownAs(old(store.db).chats, c, store.db.chats)
      ensures store.db.outbound == old(store.db).outbound
    {
      var fault, _ := NextTurn();
      var err := store.UpsertChat(HistoryChat(c), fault);
      if err { return; }
      SyncedIsKnown(ties, old(store.db), c);
      ghost var db1 := store.db;
      var count := 0;
      for i := 0 to |c.items|
        invariant store.db.outbound == old(store.db).outbound
        invariant Quiet() ==> store.db == AllFilled(ties, db1, c, c.items[..i])
        invariant Quiet() ==> (count > 0 <==> AnyInserted(ties, db1, c, c.items[..i]))
        invariant count >= 0
      {
        FillsOn(ties, db1, c, c.items, i);
        var inserted := FillItem(c, c.items[i]);
        if inserted { count := count + 1; }
      }
      assert c.items[..|c.items|] == c.items;
      if count > 0 { RecomputeTail(c.chats[0]); }
    }

    /** handleReceipt: a read from one of our own devices clears the chat up to
        what it names, any other receipt moves the delivery status. */
    method HandleReceipt(fromMe: bool, kind: ReceiptKind, chat: Jid, ids: seq<MessageId>)
      modifies this`turn, store
      ensures Quiet() ==> store.db == ReceiptEffect(old(store.db), fromMe, kind, chat, ids)
      // which receipt moves which message to which status
      ensures Quiet() && !(fromMe && (kind.Read? || kind.ReadSelf?)) ==>
                && store.db.chats == old(store.db).chats && store.db.outbound == old(store.db).outbound
                && Moved(old(store.db).messages, store.db.messages, kind, ids)
      ensures fromMe && (kind.Read? || kind.ReadSelf?) ==>
                store.db.messages == old(store.db).messages && store.db.outbound == old(store.db).outbound
    {
      if !(fromMe && (kind.Read? || kind.ReadSelf?)) { ReceiptMoves(store.db, fromMe, kind, chat, ids); }
      if ids == [] { return; }
      if fromMe && (kind.Read? || kind.ReadSelf?) {
        store.ClearUnreadUpTo(chat, ids);
        return;
      }
      var status := if kind.Read? || kind.ReadSelf? || kind.Played? then "read" else "delivered";
      if kind.Other? { return; }
      var fault, _ := NextTurn();
      var _ := store.MarkMessagesStatus(ids, status, fault);
    }
  }

  /** The message is in its chat as it came, if it is new; the chat has the names
      it came with and those it had, and the message for its newest. Nothing
      else changed. */
  ghost predicate Arrived(db: Db, db': Db, e: Incoming, kind: string, body: string, media: Option<Media>)
    requires e.Ok()
  {
    var chat := e.chats[0];
    && chat in db'.chats && e.id in db'.messages
    && (e.id in db.messages ==> db'.messages == db.messages)
    && (e.id !in db.messages ==> IsMessage(db'.messages[e.id], e, kind, body, media))
    && IsChat(db.chats, db'.chats[chat], e, PreviewFor(kind, body, media))
    && db'.outbound == db.outbound
    && (forall id | id != e.id :: (id in db'.messages <==> id in db.messages)
                              && (id in db.messages ==> db'.messages[id] == db.messages[id]))
    && (forall j | j != chat :: (j in db'.chats <==> j in db.chats) && (j in db.chats ==> db'.chats[j] == db.chats[j]))
  }

  predicate IsMessage(m: MessageRow, e: Incoming, kind: string, body: string, media: Option<Media>)
    requires e.Ok()
  {
    && m.chat == e.chats[0] && m.fromMe == e.fromMe && m.at == e.at && m.kind == kind
    && m.sender == (if e.sender == "" then None else Some(e.sender))
    && m.body == (if body == "" then None else Some(body))
    && m.status == Some(if e.fromMe then "sent" else "received")
    && m.target.None? && m.originalBody.None? && m.editedAt.None? && m.revokedAt.None?
    && (media.None? ==> m.filename.None? && m.place.None?)
    && (media.Some? ==>
          && var d := media.value;
             && m.filename == (if d.kept && d.filename != "" then Some(d.filename) else None)
             && (|d.place| <= 255 ==> m.place == if d.place == "" then None else Some(d.place)))
  }

  predicate IsChat(before: Chats, now: ChatRow, e: Incoming, shown: string)
    requires e.Ok()
  {
    var chat := e.chats[0];
    && now.lastAt == Some(e.at) && now.lastFromMe == e.fromMe && (shown != "" ==> now.lastPreview == Some(shown))
    && if chat in before then
         && now.displayName == (if e.name.Some? then e.name else before[chat].displayName)
         && now.phone == (if e.phone.Some? then e.phone else before[chat].phone)
         && now.isGroup == before[chat].isGroup
         && now.unread == if e.fromMe then 0 else before[chat].unread + 1
       else
         && now.displayName == e.name && now.phone == e.phone && now.isGroup == e.isGroup
         && now.unread == if e.fromMe then 0 else 1
  }

  lemma Arrives(db: Db, e: Incoming, kind: string, body: string, media: Option<Media>)
    requires e.Ok() && kind != "system"
    ensures Arrived(db, Stored(db, e, kind, body, media), e, kind, body, media)
  {
  }

  /** The chat of a conversation has the names it came with, or those it had. */
  predicate KnownAs(before: Chats, c: Conversation, after: Chats)
    requires c.Ok()
  {
    var chat := c.chats[0];
    && chat in after
    && if chat in before then
         && after[chat].displayName == (if c.name.Some? then c.name else before[chat].displayName)
         && after[chat].phone == (if c.phone.Some? then c.phone else before[chat].phone)
         && after[chat].isGroup == before[chat].isGroup && after[chat].unread == before[chat].unread
       else
         && after[chat].displayName == c.name && after[chat].phone == c.phone
         && after[chat].isGroup == c.isGroup && after[chat].unread == 0
  }

  lemma SyncedIsKnown(ties: Ties, db: Db, c: Conversation)
    requires ties.Lawful() && c.Ok()
    ensures KnownAs(db.chats, c, Synced(ties, db, c).chats)
  {
    var db1 := db.(chats := UpsertedChat(db.chats, HistoryChat(c)));
    InboxRuns.FillingKeepsChats(ties, db1, c, c.items);
  }

  lemma FillsOn(ties: Ties, db: Db, c: Conversation, items: seq<HistoryItem>, i: nat)
    requires ties.Lawful() && i < |items|
    ensures var before := AllFilled(ties, db, c, items[..i]);
      && AllFilled(ties, db, c, items[..i + 1]) == Filled(ties, before, c, items[i])
      && (AnyInserted(ties, db, c, items[..i + 1]) <==>
            AnyInserted(ties, db, c, items[..i]) || Inserted(before, c, items[i]))
  {
    assert items[..i + 1][..i] == items[..i];
  }

  datatype ReceiptKind = Delivered | Read | ReadSelf | Played | Other

  function ReceiptEffect(db: Db, fromMe: bool, kind: ReceiptKind, chat: Jid, ids: seq<MessageId>): Db {
    if ids == [] then db
    else if fromMe && (kind.Read? || kind.ReadSelf?) then Cleared(db, chat, ids)
    else match kind
      case Other => db
      case Delivered => db.(messages := Marked(db.messages, ids, "delivered"))
      case _ => db.(messages := Marked(db.messages, ids, "read"))
  }

  /** A delivery receipt moves what was sent to "delivered"; a read or a played
      one moves that and what was delivered to "read"; only our messages that
      it names, never back, and never one that failed. */
  ghost predicate Moved(messages: Messages, messages': Messages, kind: ReceiptKind, ids: seq<MessageId>) {
    && messages'.Keys == messages.Keys
    && forall id | id in messages ::
         messages'[id] ==
           if id !in ids || !messages[id].fromMe || kind.Other? then messages[id]
           else messages[id].(status := Status(messages[id].status, kind.Delivered?))
  }

  function Status(status: Option<string>, delivery: bool): Option<string> {
    if delivery then
      if status.None? || status.value in ["received", "sent"] then Some("delivered") else status
    else
      if status.None? || status.value in ["received", "sent", "delivered"] then Some("read") else status
  }

  lemma StatusIs(m: MessageRow, delivery: bool)
    requires m.fromMe
    ensures MarkedRow(m, if delivery then "delivered" else "read") == m.(status := Status(m.status, delivery))
  {
  }

  lemma ReceiptMoves(db: Db, fromMe: bool, kind: ReceiptKind, chat: Jid, ids: seq<MessageId>)
    requires !(fromMe && (kind.Read? || kind.ReadSelf?))
    ensures var db' := ReceiptEffect(db, fromMe, kind, chat, ids);
            db'.chats == db.chats && db'.outbound == db.outbound && Moved(db.messages, db'.messages, kind, ids)
  {
    forall id | id in db.messages && db.messages[id].fromMe
      ensures var m := db.messages[id];
        && MarkedRow(m, "delivered") == m.(status := Status(m.status, true))
        && MarkedRow(m, "read") == m.(status := Status(m.status, false))
    {
      StatusIs(db.messages[id], true);
      StatusIs(db.messages[id], false);
    }
  }

  function EditOutcome(messages: Messages, target: MessageId, e: Incoming): Database.Outcome {
    if !Locates(messages, target, e.chats) then Database.Missing
    else if messages[target].fromMe != e.fromMe then Database.NotAuthor
    else Database.Ran(messages[target].chat)
  }

  function RevokeOutcome(messages: Messages, target: MessageId, e: Incoming): Database.Outcome {
    if !Locates(messages, target, e.chats) then Database.Missing
    else if !e.isGroup && messages[target].fromMe != e.fromMe then Database.NotAuthor
    else Database.Ran(messages[target].chat)
  }

  /** The event goes on past applyProtocolAction. */
  predicate Falls(db: Db, e: Incoming) {
    e.content.Ordinary? || e.content.ReactionTo?
    || (e.content.DeleteOf? && !Locates(db.messages, e.content.target, e.chats))
  }

  lemma SameSides(messages: Messages, attempts: seq<Attempt>)
    ensures var after := AfterAttempts(messages, attempts);
            after.Keys == messages.Keys
            && forall id | id in messages ::
                after[id].chat == messages[id].chat && after[id].fromMe == messages[id].fromMe
  {
    AttemptsAreHistories(messages, attempts);
    forall id | id in messages
      ensures var after := AfterAttempts(messages, attempts);
              after[id].chat == messages[id].chat && after[id].fromMe == messages[id].fromMe
    {
      EditHistory(messages[id], OpsOn(messages, id, attempts));
    }
  }

  /** Attempts change nothing that decides how the next one ends. */
  lemma SameOutcomes(messages: Messages, attempts: seq<Attempt>, target: MessageId, e: Incoming)
    ensures var after := AfterAttempts(messages, attempts);
      && EditOutcome(after, target, e) == EditOutcome(messages, target, e)
      && RevokeOutcome(after, target, e) == RevokeOutcome(messages, target, e)
  {
    SameSides(messages, attempts);
  }

  /** All of them are this one, however each ended. */
  ghost predicate Repeats(attempts: seq<Attempt>, a: Attempt) {
    forall i | 0 <= i < |attempts| :: attempts[i] == a.(fault := attempts[i].fault)
  }

  /** The last of them was reported as committed. */
  ghost predicate Reported(attempts: seq<Attempt>) {
    attempts != [] && attempts[|attempts| - 1].fault == Done
  }

  /** All tries are used up, each with an error. */
  ghost predicate AllFailed(attempts: seq<Attempt>) {
    |attempts| == 3 && forall i | 0 <= i < |attempts| :: attempts[i].fault != Done
  }

  lemma AttemptsSnoc(messages: Messages, attempts: seq<Attempt>, a: Attempt)
    ensures AfterAttempts(messages, attempts + [a]) == Attempted(AfterAttempts(messages, attempts), a)
  {
    assert (attempts + [a])[..|attempts|] == attempts;
  }

  lemma OneAttempt(messages: Messages, attempts: seq<Attempt>)
    requires |attempts| == 1
    ensures AfterAttempts(messages, attempts) == Attempted(messages, attempts[0])
  {
    assert attempts[..0] == [];
  }
}
