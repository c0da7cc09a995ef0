/** The existing-chat queue as wabridge.go works it: one tick reads a batch and
    handles its rows in order. Every state it passes through is a state of the
    machine in OutboundQueue. */
module OutboundBridge {
  import opened Base
  import opened Tables
  import opened OutboundQueue
  import opened Text
  import opened Previews
  import opened Inbox
  import opened OutboundPosts
  import Database

  /** The order and the limit of queryPendingOutbound. */
  ghost predicate IsBatch(rows: Outbound, seconds: int, batch: seq<int>) {
    && |batch| <= 10 && Taken(rows, seconds, batch)
    && (|batch| < 10 ==> forall id | id in rows && Eligible(rows[id], Pending, seconds) :: id in batch)
  }

  /** The eligible rows up to the last of these. */
  ghost predicate Taken(rows: Outbound, seconds: int, batch: seq<int>) {
    && (forall i | 0 <= i < |batch| :: batch[i] in rows && Eligible(rows[batch[i]], Pending, seconds))
    && (forall i, j | 0 <= i < j < |batch| :: batch[i] < batch[j])
    && (forall id | id in rows && Eligible(rows[id], Pending, seconds) && id !in batch ::
          forall i | 0 <= i < |batch| :: batch[i] < id)
  }

  lemma PickExtends(rows: Outbound, left: Outbound, seconds: int, batch: seq<int>, next: int)
    requires Taken(rows, seconds, batch)
    requires left == map id | id in rows && id !in batch :: rows[id]
    requires IsPick(left, Pending, seconds, next)
    ensures Taken(rows, seconds, batch + [next])
  {
    var batch' := batch + [next];
    assert next in rows && next !in batch;
    forall id | id in rows && Eligible(rows[id], Pending, seconds) && id !in batch'
      ensures forall i | 0 <= i < |batch'| :: batch'[i] < id
    {
      assert id !in batch && id != next by {
        assert next == batch'[|batch|];
        assert forall i | 0 <= i < |batch| :: batch[i] == batch'[i];
      }
      assert id in left && next <= id;
    }
  }

  class Bridge {
    const store: Database.Store
    const ties: Ties
    /** What happens elsewhere (time passes, rows are queued), and how WhatsApp
        and the database answer, at the k-th opportunity. */
    const others: nat -> seq<Event>
    const replies: nat -> Reply
    const faults: nat -> Fault
    var turn: nat
    var now: int
    ghost var queue: Queue
    ghost var trace: seq<Event>

    ghost predicate Valid()
      reads this, store
    {
      ties.Lawful() && queue == Exec(trace) && now == queue.now && store.db.outbound == queue.rows
    }

    constructor (store: Database.Store, ties: Ties, others: nat -> seq<Event>, replies: nat -> Reply,
                 faults: nat -> Fault)
      requires store.db.outbound == map[] && ties.Lawful()
      ensures Valid() && trace == [] && this.store == store && this.ties == ties
      ensures this.others == others && this.replies == replies && this.faults == faults
    {
      this.store, this.ties, this.others, this.replies, this.faults := store, ties, others, replies, faults;
      this.turn, this.now, this.queue, this.trace := 0, 0, NO_ROWS, [];
    }

    /** Rows that were there are as they were, and so are the threads. */
    twostate predicate Kept()
      reads this, store
    {
      && SameThreads(old(store.db), store.db) && old(trace) <= trace && old(now) <= now
      && queue.calls == old(queue.calls)
      && forall id | id in old(store.db.outbound) ::
          id in store.db.outbound && store.db.outbound[id] == old(store.db.outbound)[id]
    }

    /** Other rows that were there are as they were. */
    twostate predicate KeptBut(handled: int)
      reads this, store
    {
      && old(trace) <= trace && old(now) <= now
      && forall id | id in old(store.db.outbound) ::
        id in store.db.outbound && (id != handled ==> store.db.outbound[id] == old(store.db.outbound)[id])
    }

    /** Time passes, and rows are queued. */
    method Elsewhere()
      requires Valid()
      modifies this`turn, this`now, this`queue, this`trace, store
      ensures Valid() && Kept()
    {
      var es := others(turn);
      turn := turn + 1;
      for i := 0 to |es|
        invariant Valid() && Kept()
      {
        if !es[i].Handle? {
          Follow(es[i]);
        }
      }
    }

    method Follow(e: Event)
      requires Valid() && !e.Handle?
      modifies this`now, this`queue, this`trace, store
      ensures Valid() && Kept()
    {
      ExecSnoc(trace, e);
      match e {
        case Tick(to) => if now <= to { now := to; }
        case Enqueue(id, kind) =>
          if id !in store.db.outbound {
            store.db := store.db.(outbound := store.db.outbound[id := NewRow(kind, now)]);
          }
      }
      queue, trace := Next(queue, e), trace + [e];
    }

    method NextFault() returns (fault: Fault)
      modifies this`turn
      ensures fault == faults(old(turn))
    {
      fault := faults(turn);
      turn := turn + 1;
    }

    /** The write that ends a row's handling has been made: one step of the machine. */
    ghost method Took(id: int, readAt: int, reply: Reply, fault: Fault, rows: Outbound)
      requires ties.Lawful() && queue == Exec(trace) && now == queue.now && rows == queue.rows
              && Enabled(queue, id, readAt)
      requires store.db.outbound ==
                Committed(fault, rows, Effect(rows, id, rows[id].attempts, Decided(rows[id], reply), now))
      modifies this`queue, this`trace
      ensures Valid() && trace == old(trace) + [Handle(id, readAt, reply, fault)]
      ensures queue.calls == old(queue).calls + CallsOf(id, Decided(rows[id], reply))
      ensures store.db.outbound == if fault.Refused? then rows
                else rows[id := Ended(rows[id], Decided(rows[id], reply), now)]
    {
      EffectIsEnded(rows, id, Decided(rows[id], reply), now);
      ExecSnoc(trace, Handle(id, readAt, reply, fault));
      queue, trace := Next(queue, Handle(id, readAt, reply, fault)), trace + [Handle(id, readAt, reply, fault)];
    }

    /** markOutboundAttempt */
    method MarkOutboundAttempt(id: int, row: OutboundRow, readAt: int, reply: Reply)
      requires Valid() && Read(id, row, readAt) && Decided(row, reply).Retries?
      modifies this`turn, this`now, this`queue, this`trace, store
      ensures Ends(id, row, readAt, reply) && SameThreads(old(store.db), store.db)
    {
      Elsewhere();
      ghost var rows := store.db.outbound;
      var fault := NextFault();
      var nextAttempts := row.attempts + 1;
      if nextAttempts >= MAX_ATTEMPTS {
        var _ := store.FailOutbound(id, nextAttempts, SendFailed, now, fault);
      } else {
        var _ := store.BumpAttempts(id, nextAttempts, now, fault);
      }
      Took(id, readAt, reply, fault, rows);
    }

    /** markOutboundPermanentlyFailed */
    method MarkOutboundPermanentlyFailed(id: int, code: Code, ghost row: OutboundRow, ghost readAt: int,
                                         ghost reply: Reply)
      requires Valid() && Read(id, row, readAt) && Decided(row, reply) == Fails(code)
      modifies this`turn, this`now, this`queue, this`trace, store
      ensures Ends(id, row, readAt, reply) && SameThreads(old(store.db), store.db)
    {
      Elsewhere();
      ghost var rows := store.db.outbound;
      var fault := NextFault();
      var _ := store.FailOutbound(id, MAX_ATTEMPTS, code, now, fault);
      Took(id, readAt, reply, fault, rows);
    }

    /** The stamp of an acknowledged send; an error is only logged. */
    method StampSent(id: int, waId: MessageId, ghost row: OutboundRow, ghost readAt: int, ghost reply: Reply)
      requires Valid() && Read(id, row, readAt) && Decided(row, reply) == Acked(waId)
      modifies this`turn, this`now, this`queue, this`trace, store
      ensures Ends(id, row, readAt, reply) && SameThreads(old(store.db), store.db)
    {
      Elsewhere();
      ghost var rows := store.db.outbound;
      var fault := NextFault();
      if !fault.Refused? {
        store.db := store.db.(outbound := SentOutbound(store.db.outbound, id, waId));
      }
      Took(id, readAt, reply, fault, rows);
    }

    /** The end of sendOutboundRow: the message, then its chat. Errors are only
        logged. */
    method PostMessage(row: OutboundRow, p: Post, waId: MessageId)
      requires Valid() && !Reacts(row)
      modifies this`turn, store
      ensures Valid() && store.db.outbound == old(store.db.outbound)
      ensures PostedAs(ties, old(store.db), store.db, row, Some(waId), p, Reliable())
    {
      var kind := if row.kind.Or("") == "" then "text" else row.kind.value;
      var body := row.body.Or("");
      var msgRow := MessageRow(p.chat, NullString(p.self), true, kind, NullString(body), p.filename, None, None,
                               p.stamp, Some("sent"), None, None, None);
      var preview := body;
      if kind == "location" {
        msgRow := msgRow.(body := NullString(p.place.coordinates), place := NullString(p.place.name));
        preview := LocationLabel(p.place.name);
      } else if preview == "" {
        preview := PreviewForKind(kind, p.filename.Or(""));
      }
      assert msgRow == PostedRow(row, p);
      var first := NextFault();
      var _ := store.InsertMessage(waId, msgRow, first);
      var second := NextFault();
      var _ := store.UpsertChat(
        Chat(p.chat, None, None, false, Some(p.stamp), NullString(Truncate(preview, 160)), true, false), second);
      assert SameThreads(Posted(ties, old(store.db), row, p, waId, first, second), store.db);
    }

    /** The end of sendReactionRow. */
    method PostReaction(row: OutboundRow, p: Post, waId: MessageId)
      requires Valid() && Reacts(row)
      modifies this`turn, store
      ensures Valid() && store.db.outbound == old(store.db.outbound)
      ensures PostedAs(ties, old(store.db), store.db, row, Some(waId), p, Reliable())
    {
      var fault := NextFault();
      var r := Reaction(waId, p.chat, NullString(p.self), [], true, p.isGroup, p.target, row.body.Or(""), p.stamp);
      var _ := store.UpsertReaction(r, ties.reaction(store.db.messages, r), fault);
      assert SameThreads(Posted(ties, old(store.db), row, p, waId, fault, Done), store.db);
    }

    /** The row as it was read is the row as it is. */
    ghost predicate Read(id: int, row: OutboundRow, readAt: int)
      reads this, store
    {
      id in store.db.outbound && store.db.outbound[id] == row && readAt <= now && Eligible(row, Pending, readAt)
    }

    /** Handling the row ended in its one write, and made its one call or none. */
    twostate predicate Ends(id: int, row: OutboundRow, readAt: int, reply: Reply)
      reads this, store
    {
      && Valid() && KeptBut(id)
      && queue.calls == old(queue.calls) + CallsOf(id, Decided(row, reply))
      && id in store.db.outbound
      && (store.db.outbound[id] == row || store.db.outbound[id] == Ended(row, Decided(row, reply), now))
      && (Reliable() ==> store.db.outbound[id] == Ended(row, Decided(row, reply), now))
    }

    /** What the row shows, told from the answers alone: a permanent failure exactly
        for its cause, one attempt more for whatever may pass, the stamp for an
        acknowledged send. */
    twostate predicate Shows(id: int, row: OutboundRow, reply: Reply)
      reads this, store
    {
      && id in store.db.outbound
      && (Reliable() ==> EndsAs(row, store.db.outbound[id], reply, now))
      && (store.db.outbound[id] == row || EndsAs(row, store.db.outbound[id], reply, now))
      && queue.calls == old(queue.calls) + if GoesOut(row, reply) then [Call(id, reply.ack.Some?)] else []
    }

    /** What an acknowledged row sent is posted, as far as the writes commit;
        otherwise the threads stay. */
    twostate predicate Posts(row: OutboundRow, reply: Reply)
      requires ties.Lawful()
      reads this, store
    {
      PostedAs(ties, old(store.db), store.db, row, AckOf(Decided(row, reply)), reply.post, Reliable())
    }

    /** sendOutboundRow */
    method SendOutboundRow(id: int, row: OutboundRow, readAt: int, reply: Reply)
      requires Valid() && Read(id, row, readAt)
      modifies this`turn, this`now, this`queue, this`trace, store
      ensures Ends(id, row, readAt, reply) && Posts(row, reply) && Shows(id, row, reply)
    {
      EndedShows(id, row, reply);
      if !reply.jidOk {
        MarkOutboundPermanentlyFailed(id, InvalidJid, row, readAt, reply);
        return;
      }
      if row.kind.Or("") == "reaction" {
        SendReactionRow(id, row, readAt, reply);
        return;
      }
      if reply.named && reply.target.Unreadable? {
        MarkOutboundAttempt(id, row, readAt, reply);
        return;
      }
      match reply.build {
        case NoKind => MarkOutboundPermanentlyFailed(id, UnsupportedKind, row, readAt, reply);
        case BadMedia => MarkOutboundPermanentlyFailed(id, MediaMissing, row, readAt, reply);
        case BadPlace => MarkOutboundPermanentlyFailed(id, InvalidLocation, row, readAt, reply);
        case Unavailable => MarkOutboundAttempt(id, row, readAt, reply);
        case Built =>
          if reply.ack.None? {
            MarkOutboundAttempt(id, row, readAt, reply);
          } else {
            StampSent(id, reply.ack.value, row, readAt, reply);
            ghost var stamped := store.db;
            PostMessage(row, reply.post, reply.ack.value);
            PostsAfter(ties, old(store.db), stamped, store.db, row, reply.ack.value, reply.post, Reliable());
          }
      }
    }

    /** sendReactionRow */
    method SendReactionRow(id: int, row: OutboundRow, readAt: int, reply: Reply)
      requires Valid() && Read(id, row, readAt) && reply.jidOk && row.kind.Or("") == "reaction"
      modifies this`turn, this`now, this`queue, this`trace, store
      ensures Ends(id, row, readAt, reply) && Posts(row, reply) && Shows(id, row, reply)
    {
      EndedShows(id, row, reply);
      if !reply.named {
        MarkOutboundPermanentlyFailed(id, ReactionMissing, row, readAt, reply);
        return;
      }
      match reply.target {
        case Unreadable => MarkOutboundAttempt(id, row, readAt, reply);
        case NotFound => MarkOutboundPermanentlyFailed(id, ReactionMissing, row, readAt, reply);
        case Unquotable => MarkOutboundPermanentlyFailed(id, ReactionMissing, row, readAt, reply);
        case NoAuthor => MarkOutboundPermanentlyFailed(id, ReactionMissing, row, readAt, reply);
        case Resolved =>
          if reply.ack.None? {
            MarkOutboundAttempt(id, row, readAt, reply);
          } else {
            StampSent(id, reply.ack.value, row, readAt, reply);
            ghost var stamped := store.db;
            PostReaction(row, reply.post, reply.ack.value);
            PostsAfter(ties, old(store.db), stamped, store.db, row, reply.ack.value, reply.post, Reliable());
          }
      }
    }

    /** queryPendingOutbound: the first ten rows whose backoff is over. */
    method QueryPendingOutbound() returns (batch: seq<int>)
      requires Valid()
      ensures IsBatch(store.db.outbound, now, batch)
    {
      var rows := store.db.outbound;
      batch := [];
      while |batch| < BATCH
        invariant |batch| <= BATCH && Taken(rows, now, batch)
      {
        var left := map id | id in rows && id !in batch :: rows[id];
        forall k | k in left && Eligible(left[k], Pending, now) ensures exists id :: IsPick(left, Pending, now, id) {
          PickExists(left, Pending, now, k);
        }
        if next :| next in left && IsPick(left, Pending, now, next) {
          PickExtends(rows, left, now, batch, next);
          batch := batch + [next];
        } else {
          assert forall id | id in rows && id !in batch :: id in left && left[id] == rows[id];
          return;
        }
      }
    }

    /** The first |replied| rows are handled, made their calls and were posted. */
    ghost predicate SoFar(rows: Outbound, ids: seq<int>, replied: seq<Reply>, readAt: int, made: seq<Call>, db: Db)
      requires ties.Lawful() && |replied| <= |ids| && forall i | 0 <= i < |ids| :: ids[i] in rows
      reads this, store
    {
      && BatchHandled(rows, store.db.outbound, ids, replied, readAt, now, Reliable())
      && queue.calls == made + CallsOfBatch(rows, ids[..|replied|], replied)
      && BatchPosted(ties, db, store.db, rows, ids[..|replied|], replied, Reliable())
    }

    /** One turn of processOutboundBatch's loop; `made` are the calls and `db` the
        tables from before it. */
    method HandleNext(rows: Outbound, ids: seq<int>, i: nat, readAt: int, ghost replied: seq<Reply>,
                      ghost made: seq<Call>, ghost db: Db)
      returns (ghost reply: Reply)
      requires Valid() && i == |replied| < |ids| && readAt <= now
      requires IsBatch(rows, readAt, ids) && SoFar(rows, ids, replied, readAt, made, db)
      modifies this`turn, this`now, this`queue, this`trace, store
      ensures Valid() && old(trace) <= trace && old(now) <= now
      ensures SoFar(rows, ids, replied + [reply], readAt, made, db)
    {
      NotYetHandled(rows, store.db.outbound, ids, replied, readAt, now, Reliable());
      var next := replies(turn);
      reply := next;
      turn := turn + 1;
      HandleOne(rows, ids, i, readAt, next, replied);
      TurnEnds(ties, db, old(store.db), store.db, made, old(queue.calls), rows, ids, replied, next, Reliable());
    }

    /** The row itself; the other rows of the batch stay. */
    method HandleOne(rows: Outbound, ids: seq<int>, i: nat, readAt: int, next: Reply, ghost replied: seq<Reply>)
      requires Valid() && i == |replied| < |ids| && readAt <= now && IsBatch(rows, readAt, ids)
      requires BatchHandled(rows, store.db.outbound, ids, replied, readAt, now, Reliable())
      requires Read(ids[i], rows[ids[i]], readAt)
      modifies this`turn, this`now, this`queue, this`trace, store
      ensures Valid() && old(trace) <= trace && old(now) <= now && Posts(rows[ids[i]], next)
      ensures queue.calls == old(queue.calls) + CallsOf(ids[i], Decided(rows[ids[i]], next))
      ensures BatchHandled(rows, store.db.outbound, ids, replied + [next], readAt, now, Reliable())
    {
      SendOutboundRow(ids[i], rows[ids[i]], readAt, next);
      BatchGoesOn(rows, old(store.db.outbound), store.db.outbound, ids, replied, next, readAt, old(now), now,
                  Reliable());
    }

    /** processOutboundBatch: the first ten eligible rows, in order, are each
        handled once as they were read: each ends as its outcome says, or as it
        was when its write did not commit, made exactly its own calls, and was
        posted when it was acknowledged. No other row is touched. */
    method ProcessOutboundBatch() returns (ghost batch: seq<int>, ghost replied: seq<Reply>)
      requires Valid()
      modifies this`turn, this`now, this`queue, this`trace, store
      ensures Valid() && old(trace) <= trace && old(now) <= now
      ensures IsBatch(old(store.db.outbound), old(now), batch) && |replied| == |batch|
      ensures BatchHandled(old(store.db.outbound), store.db.outbound, batch, replied, old(now), now, Reliable())
      ensures queue.calls == old(queue.calls) + CallsOfBatch(old(store.db.outbound), batch, replied)
      ensures BatchPosted(ties, old(store.db), store.db, old(store.db.outbound), batch, replied, Reliable())
    {
      var ids := QueryPendingOutbound();
      batch := ids;
      replied := HandleBatch(store.db.outbound, ids, now);
    }

    /** Its loop. */
    method HandleBatch(rows: Outbound, ids: seq<int>, readAt: int) returns (ghost replied: seq<Reply>)
      requires Valid() && rows == store.db.outbound && readAt == now && IsBatch(rows, readAt, ids)
      modifies this`turn, this`now, this`queue, this`trace, store
      ensures Valid() && old(trace) <= trace && old(now) <= now && |replied| == |ids|
      ensures BatchHandled(rows, store.db.outbound, ids, replied, readAt, now, Reliable())
      ensures queue.calls == old(queue.calls) + CallsOfBatch(rows, ids, replied)
      ensures BatchPosted(ties, old(store.db), store.db, rows, ids, replied, Reliable())
    {
      replied := [];
      assert ids[..0] == [];
      for i := 0 to |ids|
        invariant Valid() && old(trace) <= trace && readAt <= now && |replied| == i
        invariant SoFar(rows, ids, replied, readAt, old(queue.calls), old(store.db))
      {
        ghost var reply := HandleNext(rows, ids, i, readAt, replied, old(queue.calls), old(store.db));
        replied := replied + [reply];
      }
      assert ids[..|ids|] == ids;
    }

    /** Every write is reported as committed. */
    ghost predicate Reliable()
    {
      forall k :: faults(k) == Done
    }
  }

  /** The answers for which a row is failed for good, by the code it gets. */
  predicate Cause(row: OutboundRow, reply: Reply, code: Code) {
    match code
    case InvalidJid => !reply.jidOk
    case ReactionMissing => reply.jidOk && IsReaction(row) && (!reply.named || NoTarget(reply))
    case UnsupportedKind => reply.jidOk && !IsReaction(row) && QuoteRead(reply) && reply.build.NoKind?
    case MediaMissing => reply.jidOk && !IsReaction(row) && QuoteRead(reply) && reply.build.BadMedia?
    case InvalidLocation => reply.jidOk && !IsReaction(row) && QuoteRead(reply) && reply.build.BadPlace?
    case _ => false
  }

  predicate IsReaction(row: OutboundRow) {
    row.kind == Some("reaction")
  }

  predicate NoTarget(reply: Reply) {
    reply.target.NotFound? || reply.target.Unquotable? || reply.target.NoAuthor?
  }

  /** The message it points at, if it names one, could be looked up. */
  predicate QuoteRead(reply: Reply) {
    reply.named ==> !reply.target.Unreadable?
  }

  /** SendMessage is called. */
  predicate GoesOut(row: OutboundRow, reply: Reply) {
    && reply.jidOk
    && if IsReaction(row) then reply.named && reply.target.Resolved? else QuoteRead(reply) && reply.build.Built?
  }

  /** Something failed that may pass: a lookup, the media, or the send itself. */
  predicate MayPass(row: OutboundRow, reply: Reply) {
    || (reply.jidOk && reply.named && reply.target.Unreadable?)
    || (reply.jidOk && !IsReaction(row) && QuoteRead(reply) && reply.build.Unavailable?)
    || (GoesOut(row, reply) && reply.ack.None?)
  }

  predicate EndsAs(row: OutboundRow, row': OutboundRow, reply: Reply, at: int) {
    && (forall code: Code | code in {InvalidJid, ReactionMissing, UnsupportedKind, MediaMissing, InvalidLocation} ::
          Cause(row, reply, code)
          <==> row'.status.Failed? && row'.attempts == 5 && row'.lastAttempt == Some(at) && row'.error == Some(code))
    && (MayPass(row, reply) ==>
          && row'.attempts == row.attempts + 1 && row'.lastAttempt == Some(at) && row'.waId == row.waId
          && if row.attempts + 1 < 5 then row'.status.Pending? && row'.error == row.error
             else row'.status.Failed? && row'.error == Some(SendFailed))
    && (GoesOut(row, reply) && reply.ack.Some? ==>
          row'.status.Sent? && row'.waId == reply.ack && row'.error.None? && row'.attempts == row.attempts)
  }

  lemma EndedShows(id: int, row: OutboundRow, reply: Reply)
    requires row.status.Pending? && row.attempts < MAX_ATTEMPTS
    ensures forall at :: EndsAs(row, Ended(row, Decided(row, reply), at), reply, at)
    ensures CallsOf(id, Decided(row, reply)) == if GoesOut(row, reply) then [Call(id, reply.ack.Some?)] else []
  {
    forall at ensures EndsAs(row, Ended(row, Decided(row, reply), at), reply, at) {}
  }

  /** The stamp before the posts moves no thread. */
  lemma PostsAfter(ties: Ties, db: Db, stamped: Db, db': Db, row: OutboundRow, waId: MessageId, p: Post, sure: bool)
    requires ties.Lawful() && SameThreads(db, stamped) && PostedAs(ties, stamped, db', row, Some(waId), p, sure)
    ensures PostedAs(ties, db, db', row, Some(waId), p, sure)
  {
    var first, second :| (sure ==> first == second == Done)
      && SameThreads(Posted(ties, stamped, row, p, waId, first, second), db');
    PostsAlike(ties, db, stamped, row, p, waId, first, second);
  }

  /** The acknowledged rows of the batch are posted, in order. */
  ghost predicate BatchPosted(ties: Ties, db: Db, db': Db, rows: Outbound, batch: seq<int>, replied: seq<Reply>,
                              sure: bool)
    requires ties.Lawful() && |batch| == |replied| && forall i | 0 <= i < |batch| :: batch[i] in rows
    decreases |batch|
  {
    if batch == [] then SameThreads(db, db')
    else
      var n := |batch| - 1;
      exists mid ::
        && BatchPosted(ties, db, mid, rows, batch[..n], replied[..n], sure)
        && PostedAs(ties, mid, db', rows[batch[n]], AckOf(Decided(rows[batch[n]], replied[n])), replied[n].post, sure)
  }

  lemma PostsGoOn(ties: Ties, db: Db, mid: Db, db': Db, rows: Outbound, ids: seq<int>, i: nat, replied: seq<Reply>,
                  reply: Reply, sure: bool)
    requires ties.Lawful() && i == |replied| < |ids| && (forall k | 0 <= k < |ids| :: ids[k] in rows)
    requires BatchPosted(ties, db, mid, rows, ids[..i], replied, sure)
    requires PostedAs(ties, mid, db', rows[ids[i]], AckOf(Decided(rows[ids[i]], reply)), reply.post, sure)
    ensures BatchPosted(ties, db, db', rows, ids[..i + 1], replied + [reply], sure)
  {
    var batch, all := ids[..i + 1], replied + [reply];
    assert batch[..i] == ids[..i] && all[..i] == replied && batch[i] == ids[i] && all[i] == reply;
  }

  lemma TurnEnds(ties: Ties, db: Db, mid: Db, db': Db, made: seq<Call>, calls: seq<Call>, rows: Outbound, ids: seq<int>,
                 replied: seq<Reply>, reply: Reply, sure: bool)
    requires ties.Lawful() && |replied| < |ids| && (forall k | 0 <= k < |ids| :: ids[k] in rows)
    requires calls == made + CallsOfBatch(rows, ids[..|replied|], replied)
    requires BatchPosted(ties, db, mid, rows, ids[..|replied|], replied, sure)
    requires var row := rows[ids[|replied|]];
             PostedAs(ties, mid, db', row, AckOf(Decided(row, reply)), reply.post, sure)
    ensures var all, n := replied + [reply], |replied| + 1;
            && |all| == n && BatchPosted(ties, db, db', rows, ids[..n], all, sure)
            && calls + CallsOf(ids[|replied|], Decided(rows[ids[|replied|]], reply))
               == made + CallsOfBatch(rows, ids[..n], all)
  {
    CallsGoOn(made, calls, rows, ids, |replied|, replied, reply);
    PostsGoOn(ties, db, mid, db', rows, ids, |replied|, replied, reply, sure);
  }

  /** What handling a row, some time in this span, may leave of it. */
  ghost predicate HandledAs(row: OutboundRow, row': OutboundRow, reply: Reply, from: int, to: int, sure: bool) {
    (exists t :: from <= t <= to && row' == Ended(row, Decided(row, reply), t)) || (!sure && row' == row)
  }

  /** The first |replied| rows of the batch are handled, each with its reply; no
      other row has moved. */
  ghost predicate BatchHandled(rows: Outbound, rows': Outbound, batch: seq<int>, replied: seq<Reply>, from: int,
                               to: int, sure: bool)
    requires |replied| <= |batch|
  {
    && (forall i | 0 <= i < |replied| ::
          && batch[i] in rows && batch[i] in rows'
          && HandledAs(rows[batch[i]], rows'[batch[i]], replied[i], from, to, sure))
    && (forall id | id in rows && id !in batch[..|replied|] :: id in rows' && rows'[id] == rows[id])
  }

  lemma NotYetHandled(rows: Outbound, rows': Outbound, batch: seq<int>, replied: seq<Reply>, from: int, to: int,
                      sure: bool)
    requires |replied| < |batch| && BatchHandled(rows, rows', batch, replied, from, to, sure)
    requires batch[|replied|] in rows && forall i, j | 0 <= i < j < |batch| :: batch[i] < batch[j]
    ensures batch[|replied|] in rows' && rows'[batch[|replied|]] == rows[batch[|replied|]]
  {
    var id := batch[|replied|];
    assert id in rows && id !in batch[..|replied|];
  }

  lemma BatchGoesOn(rows: Outbound, before: Outbound, after: Outbound, batch: seq<int>, replied: seq<Reply>,
                    reply: Reply, from: int, t: int, to: int, sure: bool)
    requires |replied| < |batch| && BatchHandled(rows, before, batch, replied, from, t, sure) && t <= to
    requires forall i, j | 0 <= i < j < |batch| :: batch[i] < batch[j]
    requires forall id | id in before :: id in after && (id != batch[|replied|] ==> after[id] == before[id])
    requires batch[|replied|] in rows && batch[|replied|] in after
    requires HandledAs(rows[batch[|replied|]], after[batch[|replied|]], reply, from, to, sure)
    ensures BatchHandled(rows, after, batch, replied + [reply], from, to, sure)
  {
    var n, all := |replied|, replied + [reply];
    assert batch[..n + 1] == batch[..n] + [batch[n]];
    forall i | 0 <= i < n + 1
      ensures batch[i] in rows && batch[i] in after
              && HandledAs(rows[batch[i]], after[batch[i]], all[i], from, to, sure)
    {
      if i < n {
        assert batch[i] in before && after[batch[i]] == before[batch[i]] && all[i] == replied[i];
        StillHandled(rows[batch[i]], before[batch[i]], replied[i], from, t, to, sure);
      }
    }
  }

  lemma StillHandled(row: OutboundRow, row': OutboundRow, reply: Reply, from: int, t: int, to: int, sure: bool)
    requires HandledAs(row, row', reply, from, t, sure) && t <= to
    ensures HandledAs(row, row', reply, from, to, sure)
  {
    if u :| from <= u <= t && row' == Ended(row, Decided(row, reply), u) {
      assert from <= u <= to;
    }
  }

  /** The calls of the rows in turn. */
  function CallsOfBatch(rows: Outbound, batch: seq<int>, replied: seq<Reply>): seq<Call>
    requires |batch| == |replied| && forall i | 0 <= i < |batch| :: batch[i] in rows
  {
    if batch == [] then []
    else
      var n := |batch| - 1;
      CallsOfBatch(rows, batch[..n], replied[..n]) + CallsOf(batch[n], Decided(rows[batch[n]], replied[n]))
  }

  lemma CallsGoOn(made: seq<Call>, calls: seq<Call>, rows: Outbound, ids: seq<int>, i: nat, replied: seq<Reply>,
                  reply: Reply)
    requires i == |replied| < |ids| && (forall k | 0 <= k < |ids| :: ids[k] in rows)
    requires calls == made + CallsOfBatch(rows, ids[..i], replied)
    ensures calls + CallsOf(ids[i], Decided(rows[ids[i]], reply)) ==
              made + CallsOfBatch(rows, ids[..i + 1], replied + [reply])
  {
    var batch, all := ids[..i + 1], replied + [reply];
    assert batch[..i] == ids[..i] && all[..i] == replied && batch[i] == ids[i] && all[i] == reply;
    var earlier, last := CallsOfBatch(rows, ids[..i], replied), CallsOf(ids[i], Decided(rows[ids[i]], reply));
    assert CallsOfBatch(rows, batch, all) == earlier + last;
    assert made + earlier + last == made + (earlier + last);
  }
}
