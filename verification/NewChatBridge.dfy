/** newchat.go as it is written: one bridge process, its newChatState, and the
    statements it runs in order, with other processes and the environment
    moving between any two of them. Every state it passes through is a state
    of the machine in NewChatSteps. */
module NewChatBridge {
  import opened Base
  import opened Tables
  import opened NewChatSteps
  import opened NewChatSafety
  import opened NewChatTruth
  import opened Text
  import Database
  import Addresses

  /** Events of this process, which only its own code may take. */
  predicate IsOf(e: Event, me: nat) {
    (e.Own? && e.q == me) || (e.Crash? && e.q == me)
  }

  /** What may happen elsewhere while the clock must not pass `limit`. */
  predicate Allowed(e: Event, me: nat, limit: Option<int>) {
    !IsOf(e, me) && (e.Tick? && limit.Some? ==> e.to <= limit.value)
  }

  lemma ElsewhereFrame(w: World, e: Event, me: nat)
    requires me in w.procs && !IsOf(e, me)
    ensures me in Next(w, e).procs && Next(w, e).procs[me] == w.procs[me]
    ensures w.now <= Next(w, e).now
    ensures !e.Tick? ==> Next(w, e).now == w.now
  {
    match e
    case Own(q, act) => if q in w.procs { OwnStepFrame(w, q, act); }
    case _ =>
  }

  /** What an event writes. */
  datatype Key = OfRow(id: int) | OfMessage(mid: MessageId) | OfChat(jid: Jid)

  ghost function Written(db: Db, db': Db): set<Key> {
    (set id | id in db.outbound && (id !in db'.outbound || db'.outbound[id] != db.outbound[id]) :: OfRow(id))
    + (set m | m in db'.messages && (m !in db.messages || db'.messages[m] != db.messages[m]) :: OfMessage(m))
    + (set j | j in db'.chats && (j !in db.chats || db'.chats[j] != db.chats[j]) :: OfChat(j))
  }

  lemma ElsewhereRows(w: World, e: Event, id: int)
    requires IdInv(w) && id in w.db.outbound
    ensures id in Next(w, e).db.outbound
    ensures !w.db.outbound[id].status.Resolve? ==> !Next(w, e).db.outbound[id].status.Resolve?
  {
    StepGrows(w, e);
  }

  /** The row is still there, stays out of 'resolve' once it is out, and has the
      status it had if nobody else wrote it. */
  ghost predicate StatusKept(rows: Outbound, rows': Outbound, touched: set<Key>, id: int) {
    id in rows ==>
      && id in rows'
      && (!rows[id].status.Resolve? ==> !rows'[id].status.Resolve?)
      && (OfRow(id) !in touched ==> rows'[id].status == rows[id].status)
  }

  /** The row is still there, as it was if nobody else wrote it. */
  ghost predicate RowKept(rows: Outbound, rows': Outbound, touched: set<Key>, id: int) {
    StatusKept(rows, rows', touched, id) && (id in rows && OfRow(id) !in touched ==> rows'[id] == rows[id])
  }

  /** No message or chat goes, and those nobody else wrote are as they were. */
  ghost predicate MessagesKept(db: Db, db': Db, touched: set<Key>) {
    && db.messages.Keys <= db'.messages.Keys
    && forall m | m in db'.messages && OfMessage(m) !in touched :: m in db.messages && db'.messages[m] == db.messages[m]
  }

  ghost predicate ChatsKept(db: Db, db': Db, touched: set<Key>) {
    && db.chats.Keys <= db'.chats.Keys
    && forall j | j in db'.chats && OfChat(j) !in touched :: j in db.chats && db'.chats[j] == db.chats[j]
  }

  ghost predicate ThreadsKept(db: Db, db': Db, touched: set<Key>) {
    MessagesKept(db, db', touched) && ChatsKept(db, db', touched)
  }

  lemma ThreadsGrow(w: World, e: Event)
    ensures w.db.messages.Keys <= Next(w, e).db.messages.Keys && w.db.chats.Keys <= Next(w, e).db.chats.Keys
  {
    match e
    case Own(q, act) =>
      if q in w.procs {
        OwnStepFrame(w, q, act);
        if act.Write? { WriteKeepsMessages(w, q, act.fault); }
      }
    case _ =>
  }

  lemma WriteKeepsMessages(w: World, q: nat, fault: Fault)
    requires q in w.procs
    ensures w.db.messages.Keys <= WriteStep(w, q, w.procs[q], fault).db.messages.Keys
  {
    match w.procs[q].pc
    case WritingMessage(_, _, _) =>
    case _ =>
  }

  /** A sent row's record: its stamp, and the chat it went to. */
  predicate Finished(row: OutboundRow, w: Writes) {
    row.status.Sent? && row.waId == Some(w.waId) && row.error.None? && row.chat == Some(w.chat.jid)
  }

  class Bridge {
    const me: nat
    const store: Database.Store
    /** What the environment does at the k-th opportunity: events elsewhere,
        and how a write ends. */
    const others: nat -> seq<Event>
    const faults: nat -> Fault
    var turn: nat

    /** newChatState, and how many identifiers were made. */
    var lastLookup: Option<int>
    var sent: map<int, Writes>
    var serial: nat

    var world: World
    ghost var trace: seq<Event>
    /** The rows this process read; and those somebody else wrote since it last
        began to handle one. */
    ghost var polled: seq<int>
    ghost var touched: set<Key>

    ghost predicate Valid()
      reads this, store
    {
      && world == Exec(EMPTY, trace)
      && world.db == store.db
      && me in world.procs
      && world.procs[me].lastLookup == lastLookup
      && world.procs[me].sent == sent
      && world.procs[me].serial == serial
    }

    /** A process starts in the middle of any run. */
    constructor (me: nat, store: Database.Store, world: World, ghost trace: seq<Event>,
                 others: nat -> seq<Event>, faults: nat -> Fault)
      requires world == Exec(EMPTY, trace) && store.db == world.db && me !in world.procs
      ensures Valid() && Pc() == Idle && Calls() == [] && this.trace == trace + [Start(me)] && polled == []
      ensures this.me == me && this.store == store && this.others == others && this.faults == faults
    {
      this.me, this.store, this.others, this.faults := me, store, others, faults;
      this.turn, this.lastLookup, this.sent, this.serial := 0, None, map[], 0;
      this.world := Next(world, Start(me));
      this.trace, this.polled, this.touched := trace + [Start(me)], [], {};
      new;
      ExecSnoc(trace, Start(me));
    }

    function Pc(): Pc
      requires me in world.procs
      reads this
    {
      world.procs[me].pc
    }

    function Calls(): seq<Call>
      requires me in world.procs
      reads this
    {
      world.procs[me].calls
    }

    function Rows(): Outbound
      reads this
    {
      world.db.outbound
    }

    /** Every write of this process is reported as committed. Others may do what
        they like, and time passes. */
    ghost predicate Reliable()
    {
      forall k :: faults(k) == Done
    }

    /** This process takes one step of the machine; its own fields and the
        tables have already been brought to the state after it. */
    method Take(act: Act)
      requires world == Exec(EMPTY, trace) && me in world.procs
      requires var w := Next(world, Own(me, act));
               && store.db == w.db && me in w.procs && w.procs[me].lastLookup == lastLookup
               && w.procs[me].sent == sent && w.procs[me].serial == serial
      modifies this`world, this`trace
      ensures Valid() && world == Next(old(world), Own(me, act)) && trace == old(trace) + [Own(me, act)]
    {
      ExecSnoc(trace, Own(me, act));
      world := Next(world, Own(me, act));
      trace := trace + [Own(me, act)];
    }

    /** Take, for the database writes. */
    method TakeWrite(fault: Fault)
      requires world == Exec(EMPTY, trace) && me in world.procs
      requires var w := WriteStep(world, me, world.procs[me], fault);
               && store.db == w.db && me in w.procs && w.procs[me].lastLookup == lastLookup
               && w.procs[me].sent == sent && w.procs[me].serial == serial
      modifies this`world, this`trace
      ensures Valid() && world == WriteStep(old(world), me, old(world).procs[me], fault)
      ensures trace == old(trace) + [Own(me, Act.Write(fault))]
    {
      Take(Act.Write(fault));
    }

    /** Take, for the checks before the lookup. */
    method TakeDecide(r: Picked)
      requires world == Exec(EMPTY, trace) && me in world.procs && Pc() == Deciding(r)
      requires var w := DecideStep(world, me, world.procs[me], r);
               && store.db == w.db && me in w.procs && w.procs[me].lastLookup == lastLookup
               && w.procs[me].sent == sent && w.procs[me].serial == serial
      modifies this`world, this`trace
      ensures Valid() && world == DecideStep(old(world), me, old(world).procs[me], r)
      ensures trace == old(trace) + [Own(me, Decide)]
    {
      Take(Decide);
    }

    /** Take, for reading a row. */
    method TakePoll(id: int)
      requires Valid() && Pc() == Idle && GapOver(lastLookup, world.now)
              && IsPick(Rows(), Resolve, world.now / SECOND, id)
      modifies this`world, this`trace, this`polled
      ensures Valid() && trace == old(trace) + [Own(me, Poll(id))] && polled == old(polled) + [id]
      ensures Pc() == Deciding(Picked(id, Rows()[id], world.now)) && world.db == old(world).db
              && Calls() == old(Calls())
    {
      polled := polled + [id];
      Take(Poll(id));
    }

    /** The rest of the world moves; `id` is the row this process is at. */
    method Elsewhere(limit: Option<int>, ghost id: int)
      requires Valid() && (limit.Some? ==> world.now <= limit.value)
      modifies this`world, this`trace, this`turn, this`touched, store
      ensures Valid() && old(trace) <= trace && old(touched) <= touched
      ensures world.procs[me] == old(world).procs[me]
      ensures limit.Some? ==> world.now <= limit.value
      ensures RowKept(old(Rows()), Rows(), touched, id) && ThreadsKept(old(store.db), store.db, touched)
    {
      var es := others(turn);
      turn := turn + 1;
      for i := 0 to |es|
        invariant Valid() && old(trace) <= trace && old(touched) <= touched
        invariant world.procs[me] == old(world).procs[me]
        invariant limit.Some? ==> world.now <= limit.value
        invariant RowKept(old(Rows()), Rows(), touched, id) && ThreadsKept(old(store.db), store.db, touched)
      {
        if Allowed(es[i], me, limit) {
          Follow(es[i], id);
        }
      }
    }

    /** One event elsewhere. */
    method Follow(e: Event, ghost id: int)
      requires Valid() && !IsOf(e, me)
      modifies this`world, this`trace, this`touched, store
      ensures Valid() && trace == old(trace) + [e] && old(touched) <= touched
      ensures world.procs[me] == old(world).procs[me] && old(world).now <= world.now
              && (!e.Tick? ==> world.now == old(world).now)
      ensures e.Tick? ==> world.now <= e.to || world.now == old(world).now
      ensures RowKept(old(Rows()), Rows(), touched, id) && ThreadsKept(old(store.db), store.db, touched)
    {
      ElsewhereFrame(world, e, me);
      IdsAlways(trace);
      if id in Rows() { ElsewhereRows(world, e, id); }
      ThreadsGrow(world, e);
      touched := touched + Written(world.db, Next(world, e).db);
      ExecSnoc(trace, e);
      world := Next(world, e);
      store.db := world.db;
      trace := trace + [e];
    }

    method NextFault() returns (fault: Fault)
      modifies this`turn
      ensures Reliable() ==> fault == Done
    {
      fault := faults(turn);
      turn := turn + 1;
    }

    /** One attempt more than was read is on the row, at this time: below the cap it
        waits on, at the cap it has failed for this reason. */
    ghost predicate Tried(before: Outbound, id: int, attempts: int, code: Code)
      reads this
    {
      && id in Rows() && Rows()[id].attempts == attempts + 1 && Rows()[id].lastAttempt == Some(world.now / SECOND)
      && if attempts + 1 < 5 then id in before && OfRow(id) !in touched ==> Rows()[id].status == before[id].status
         else Rows()[id].status.Failed? && Rows()[id].error == Some(code)
    }

    /** markAttempt: when its write succeeds the row counts one attempt more than
        was read, whatever others did before. */
    method MarkAttempt(id: int, attempts: int, code: Code)
      requires Valid() && Pc() == Marking(id, attempts, code)
      modifies this`world, this`trace, this`turn, this`touched, store
      ensures Valid() && old(trace) <= trace && old(touched) <= touched && Pc() == Idle && Calls() == old(Calls())
      ensures Reliable() && id in old(Rows()) ==>
                Tried(old(Rows()), id, attempts, code)
    {
      Elsewhere(None, id);
      var fault := NextFault();
      var nextAttempts := attempts + 1;
      if nextAttempts >= MAX_ATTEMPTS {
        var _ := store.FailOutbound(id, nextAttempts, code, world.now / SECOND, fault);
      } else {
        var _ := store.BumpAttempts(id, nextAttempts, world.now / SECOND, fault);
      }
      TakeWrite(fault);
    }

    /** failNewChat */
    method FailNewChat(id: int, code: Code)
      requires Valid() && Pc() == Failing(id, code)
      modifies this`world, this`trace, this`turn, this`touched, store
      ensures Valid() && old(trace) <= trace && old(touched) <= touched && Pc() == Idle && Calls() == old(Calls())
      ensures Reliable() && id in old(Rows()) ==>
                && id in Rows() && Rows()[id].status.Failed? && Rows()[id].attempts == MAX_ATTEMPTS
                && Rows()[id].error == Some(code)
    {
      Elsewhere(None, id);
      var fault := NextFault();
      var _ := store.FailOutbound(id, MAX_ATTEMPTS, code, world.now / SECOND, fault);
      TakeWrite(fault);
    }

    /** A check of sendNewChatRow failed the row. */
    method Reject(r: Picked, code: Code)
      requires Valid() && Pc() == Deciding(r)
      requires DecideStep(world, me, world.procs[me], r) == Go(world, me, world.procs[me], Failing(r.id, code))
      modifies this`world, this`trace, this`turn, this`touched, store
      ensures Valid() && old(trace) <= trace && old(touched) <= touched && Pc() == Idle && Calls() == old(Calls())
      ensures Reliable() && r.id in old(Rows()) ==> FailedFor(r.id, code)
    {
      TakeDecide(r);
      FailNewChat(r.id, code);
    }

    /** One try of the stamp; a reported stamp empties the guard. */
    method StampOnce(id: int, w: Writes, tries: nat) returns (err: bool)
      requires Valid() && Pc() == Stamping(id, w, tries)
      modifies this`world, this`trace, this`turn, this`touched, this`sent, store
      ensures Valid() && old(trace) <= trace && old(touched) <= touched && Calls() == old(Calls())
      ensures Pc() == if err then Retry(tries, Stamping(id, w, tries + 1), Idle) else WritingChat(id, w, 0)
      ensures sent == if err then old(sent) else old(sent) - {id}
      ensures !err && id in old(Rows()) ==> Stamped(id, w)
      ensures (id in old(Rows()) ==> id in Rows()) && (Reliable() ==> !err)
      ensures ThreadsKept(old(store.db), store.db, touched)
    {
      Elsewhere(None, id);
      var fault := NextFault();
      err := store.MarkNewChatSent(id, w.waId, fault);
      if !err { sent := sent - {id}; }
      TakeWrite(fault);
    }

    ghost predicate Stamped(id: int, w: Writes)
      reads this
    {
      id in Rows() && Rows()[id].status.Sent? && Rows()[id].waId == Some(w.waId) && Rows()[id].error.None?
    }

    method WriteChatOnce(id: int, w: Writes, tries: nat) returns (err: bool)
      requires Valid() && Pc() == WritingChat(id, w, tries)
      modifies this`world, this`trace, this`turn, this`touched, store
      ensures Valid() && old(trace) <= trace && old(touched) <= touched && Calls() == old(Calls())
      ensures Pc() == if err then Retry(tries, WritingChat(id, w, tries + 1), Idle) else WritingMessage(id, w, 0)
      ensures RowKept(old(Rows()), Rows(), touched, id) && MessagesKept(old(store.db), store.db, touched)
      ensures Reliable() ==> !err && ChatWritten(old(store.db), w)
    {
      Elsewhere(None, id);
      var fault := NextFault();
      err := store.UpsertChat(w.chat, fault);
      TakeWrite(fault);
    }

    /** The chat is there, and as given unless somebody else wrote it too. */
    ghost predicate ChatWritten(before: Db, w: Writes)
      reads this, store
    {
      w.chat.jid in store.db.chats && (OfChat(w.chat.jid) !in touched ==> AsGiven(before.chats, w.chat, store.db.chats))
    }

    /** The message is there, and is this one if nobody else stored it. */
    ghost predicate MessageWritten(before: Db, w: Writes)
      reads this, store
    {
      && w.waId in store.db.messages
      && (w.waId !in before.messages && OfMessage(w.waId) !in touched ==> store.db.messages[w.waId] == w.msg)
    }

    method WriteMessageOnce(id: int, w: Writes, tries: nat) returns (err: bool)
      requires Valid() && Pc() == WritingMessage(id, w, tries)
      modifies this`world, this`trace, this`turn, this`touched, store
      ensures Valid() && old(trace) <= trace && old(touched) <= touched && Calls() == old(Calls())
      ensures Pc() == if err then Retry(tries, WritingMessage(id, w, tries + 1), Pointing(id, w, 0))
                else Pointing(id, w, 0)
      ensures RowKept(old(Rows()), Rows(), touched, id) && ChatsKept(old(store.db), store.db, touched)
      ensures Reliable() && w.msg.chat in old(store.db.chats) ==> !err && MessageWritten(old(store.db), w)
    {
      Elsewhere(None, id);
      var fault := NextFault();
      err := store.InsertMessage(w.waId, w.msg, fault);
      TakeWrite(fault);
    }

    method PointOnce(id: int, w: Writes, tries: nat) returns (err: bool)
      requires Valid() && Pc() == Pointing(id, w, tries)
      modifies this`world, this`trace, this`turn, this`touched, store
      ensures Valid() && old(trace) <= trace && old(touched) <= touched && Calls() == old(Calls())
      ensures Pc() == if err then Retry(tries, Pointing(id, w, tries + 1), Idle) else Idle
      ensures StatusKept(old(Rows()), Rows(), touched, id) && ThreadsKept(old(store.db), store.db, touched)
      ensures Reliable() && w.chat.jid in old(store.db.chats) ==> !err && PointsAt(old(Rows()), id, w)
    {
      Elsewhere(None, id);
      var fault := NextFault();
      err := store.SetOutboundChat(id, w.chat.jid, fault);
      TakeWrite(fault);
    }

    /** The row is as it was, but for its chat. */
    ghost predicate PointsAt(before: Outbound, id: int, w: Writes)
      reads this
    {
      id in before && OfRow(id) !in touched ==> id in Rows() && Rows()[id] == before[id].(chat := Some(w.chat.jid))
    }

    /** storeRetry around each of the four writes. */
    method Stamp(id: int, w: Writes) returns (err: bool)
      requires Valid() && Pc() == Stamping(id, w, 0)
      modifies this`world, this`trace, this`turn, this`touched, this`sent, store
      ensures Valid() && old(trace) <= trace && old(touched) <= touched && Calls() == old(Calls())
      ensures Pc() == if err then Idle else WritingChat(id, w, 0)
      ensures sent == if err then old(sent) else old(sent) - {id}
      ensures !err && id in old(Rows()) ==> Stamped(id, w)
      ensures (Reliable() ==> !err) && ThreadsKept(old(store.db), store.db, touched)
    {
      var tries := 0;
      err := true;
      while err && tries < STORE_TRIES
        invariant 0 <= tries <= STORE_TRIES
        invariant Valid() && old(trace) <= trace && old(touched) <= touched && Calls() == old(Calls())
        invariant Pc() == if !err then WritingChat(id, w, 0)
                          else if tries < STORE_TRIES then Stamping(id, w, tries) else Idle
        invariant sent == if err then old(sent) else old(sent) - {id}
        invariant id in old(Rows()) ==> id in Rows()
        invariant !err && id in old(Rows()) ==> Stamped(id, w)
        invariant ThreadsKept(old(store.db), store.db, touched)
        invariant Reliable() && tries > 0 ==> !err
      {
        err := StampOnce(id, w, tries);
        tries := tries + 1;
      }
    }

    method WriteChat(id: int, w: Writes) returns (err: bool)
      requires Valid() && Pc() == WritingChat(id, w, 0)
      modifies this`world, this`trace, this`turn, this`touched, store
      ensures Valid() && old(trace) <= trace && old(touched) <= touched && Calls() == old(Calls())
      ensures Pc() == if err then Idle else WritingMessage(id, w, 0)
      ensures RowKept(old(Rows()), Rows(), touched, id) && MessagesKept(old(store.db), store.db, touched)
      ensures Reliable() ==> !err && ChatWritten(old(store.db), w)
    {
      var tries := 0;
      err := true;
      while err && tries < STORE_TRIES
        invariant 0 <= tries <= STORE_TRIES
        invariant Valid() && old(trace) <= trace && old(touched) <= touched && Calls() == old(Calls())
        invariant Pc() == if !err then WritingMessage(id, w, 0)
                          else if tries < STORE_TRIES then WritingChat(id, w, tries) else Idle
        invariant RowKept(old(Rows()), Rows(), touched, id) && MessagesKept(old(store.db), store.db, touched)
        invariant tries == 0 ==> err && store.db == old(store.db)
        invariant Reliable() && tries > 0 ==> !err && ChatWritten(old(store.db), w)
      {
        err := WriteChatOnce(id, w, tries);
        tries := tries + 1;
      }
    }

    /** An error of the last two is only logged. */
    method WriteMessage(id: int, w: Writes)
      requires Valid() && Pc() == WritingMessage(id, w, 0)
      modifies this`world, this`trace, this`turn, this`touched, store
      ensures Valid() && old(trace) <= trace && old(touched) <= touched && Calls() == old(Calls())
              && Pc() == Pointing(id, w, 0)
      ensures RowKept(old(Rows()), Rows(), touched, id) && ChatsKept(old(store.db), store.db, touched)
      ensures Reliable() && w.msg.chat in old(store.db.chats) ==> MessageWritten(old(store.db), w)
    {
      var tries := 0;
      var err := true;
      while err && tries < STORE_TRIES
        invariant 0 <= tries <= STORE_TRIES
        invariant Valid() && old(trace) <= trace && old(touched) <= touched && Calls() == old(Calls())
        invariant Pc() == if err && tries < STORE_TRIES then WritingMessage(id, w, tries) else Pointing(id, w, 0)
        invariant RowKept(old(Rows()), Rows(), touched, id) && ChatsKept(old(store.db), store.db, touched)
        invariant tries == 0 ==> err && store.db == old(store.db)
        invariant Reliable() && w.msg.chat in old(store.db.chats) && tries > 0 ==>
                    !err && MessageWritten(old(store.db), w)
      {
        err := WriteMessageOnce(id, w, tries);
        tries := tries + 1;
      }
    }

    method PointAtChat(id: int, w: Writes)
      requires Valid() && Pc() == Pointing(id, w, 0)
      modifies this`world, this`trace, this`turn, this`touched, store
      ensures Valid() && old(trace) <= trace && old(touched) <= touched && Calls() == old(Calls()) && Pc() == Idle
      ensures StatusKept(old(Rows()), Rows(), touched, id) && ThreadsKept(old(store.db), store.db, touched)
      ensures Reliable() && w.chat.jid in old(store.db.chats) ==> PointsAt(old(Rows()), id, w)
    {
      var tries := 0;
      var err := true;
      while err && tries < STORE_TRIES
        invariant 0 <= tries <= STORE_TRIES
        invariant Valid() && old(trace) <= trace && old(touched) <= touched && Calls() == old(Calls())
        invariant Pc() == if err && tries < STORE_TRIES then Pointing(id, w, tries) else Idle
        invariant StatusKept(old(Rows()), Rows(), touched, id) && ThreadsKept(old(store.db), store.db, touched)
        invariant tries == 0 ==> err && store.db == old(store.db) && Rows() == old(Rows())
        invariant Reliable() && w.chat.jid in old(store.db.chats) && tries > 0 ==> !err && PointsAt(old(Rows()), id, w)
      {
        err := PointOnce(id, w, tries);
        tries := tries + 1;
      }
    }

    /** finishNewChat, after the stamp. */
    method StoreSent(id: int, w: Writes)
      requires Valid() && Pc() == WritingChat(id, w, 0) && w.msg.chat == w.chat.jid
      modifies this`world, this`trace, this`turn, this`touched, store
      ensures Valid() && old(trace) <= trace && old(touched) <= touched && Calls() == old(Calls()) && Pc() == Idle
      ensures StatusKept(old(Rows()), Rows(), touched, id)
      ensures Reliable() ==> ChatWritten(old(store.db), w) && MessageWritten(old(store.db), w)
      ensures Reliable() ==> PointsAt(old(Rows()), id, w)
    {
      var err := WriteChat(id, w);
      if err { return; }
      WriteMessage(id, w);
      PointAtChat(id, w);
    }

    /** finishNewChat: the stamp first, then the chat, the message, the chat_jid.
        Once the stamp is reported the row never waits again, and it ends 'sent'
        unless somebody else wrote it. */
    method FinishNewChat(id: int, w: Writes)
      requires Valid() && Pc() == Stamping(id, w, 0)
      modifies this`world, this`trace, this`turn, this`touched, this`sent, store
      ensures Valid() && old(trace) <= trace && old(touched) <= touched && Calls() == old(Calls()) && Pc() == Idle
      ensures sent == old(sent) || sent == old(sent) - {id}
      ensures Reliable() ==> sent == old(sent) - {id}
      ensures id in old(Rows()) && (Reliable() || (id in old(sent) && id !in sent)) ==>
                id in Rows() && !Rows()[id].status.Resolve? && (OfRow(id) !in touched ==> Rows()[id].status.Sent?)
      // with its writes succeeding the send is in the list, in its thread, and found from its row
      ensures Reliable() ==> ChatWritten(old(store.db), w) && MessageWritten(old(store.db), w)
      ensures Reliable() && id in old(Rows()) && OfRow(id) !in touched ==> Finished(Rows()[id], w)
    {
      WritesMeet(trace, me);
      var err := Stamp(id, w);
      if err { return; }
      StoreSent(id, w);
    }

    /** queryResolveOutbound: the first waiting row, if any. */
    method QueryResolveOutbound() returns (id: Option<int>)
      requires Valid()
      ensures id.Some? ==> IsPick(Rows(), Resolve, world.now / SECOND, id.value)
      ensures id.None? ==> forall k :: k in Rows() ==> !Eligible(Rows()[k], Resolve, world.now / SECOND)
    {
      var rows, seconds := Rows(), world.now / SECOND;
      forall k | k in rows && Eligible(rows[k], Resolve, seconds)
        ensures exists first :: IsPick(rows, Resolve, seconds, first)
      {
        PickExists(rows, Resolve, seconds, k);
      }
      if first :| first in rows && IsPick(rows, Resolve, seconds, first) {
        id := Some(first);
      } else {
        id := None;
      }
    }

    /** processNewChats: nothing within the gap or with nothing waiting; else
        the first waiting row, and no other, is read and handled. When the
        writes succeed it makes progress, unless somebody else claimed it, which
        nobody did if nobody wrote it. */
    method ProcessNewChats(answer: Answer, ok: bool, self: Option<string>, stamp: int)
      requires Valid() && Pc() == Idle
      modifies this, store
      ensures Valid() && old(trace) <= trace && Pc() == Idle && old(Calls()) <= Calls()
      ensures TooSoon(old(lastLookup), old(world).now) ==> trace == old(trace)
      ensures (forall id | id in old(Rows()) :: !Eligible(old(Rows())[id], Resolve, old(world).now / SECOND)) ==>
                trace == old(trace)
      ensures forall id | !TooSoon(old(lastLookup), old(world).now)
              && IsPick(old(Rows()), Resolve, old(world).now / SECOND, id) ::
                && polled == old(polled) + [id] && old(trace) + [Own(me, Poll(id))] <= trace
                && (Reliable() ==> Advances(old(Rows())[id], Rows(), id))
                && (Reliable() && OfRow(id) !in touched ==> Progress(old(Rows())[id], Rows(), id))
    {
      if lastLookup.Some? && world.now - lastLookup.value < MIN_GAP { return; }
      var id := QueryResolveOutbound();
      if id.Some? {
        var r := Picked(id.value, store.db.outbound[id.value], world.now);
        OnlyPick(Rows(), world.now / SECOND, id.value);
        PickIsFresh(trace, r);
        TakePoll(id.value);
        SendNewChatRow(r, answer, ok, self, stamp);
      }
    }

    /** sendNewChatRow. The answers of the two WhatsApp calls are parameters. */
    method SendNewChatRow(r: Picked, answer: Answer, ok: bool, self: Option<string>, stamp: int)
      requires Valid() && Pc() == Deciding(r)
      modifies this`world, this`trace, this`turn, this`touched, this`sent, this`lastLookup, this`serial, store
      ensures Valid() && old(trace) <= trace && Pc() == Idle && old(Calls()) <= Calls()
      // a row in the guard is finished, not called about again; nor is an overdue or malformed one
      ensures r.id in old(sent) || !Young(r) || !IsText(r.row) || !IsMexican(r.row) ==>
                Calls() == old(Calls()) && lastLookup == old(lastLookup)
      // any other is looked up now
      ensures r.id !in old(sent) && Young(r) && IsText(r.row) && IsMexican(r.row) ==>
                LooksUp(r, old(world).now, old(Calls()))
      // a row that is not fails for the first of the three that it misses; one in the guard is stored
      ensures Reliable() && r.id in old(Rows()) && r.id !in old(sent) ==> RejectedFor(r)
      ensures Reliable() && r.id in old(sent) ==>
                ChatWritten(old(store.db), old(sent)[r.id]) && MessageWritten(old(store.db), old(sent)[r.id])
      // when its writes succeed the row leaves 'resolve' or uses up an attempt, unless somebody else claimed it
      ensures Reliable() && r.id in old(Rows()) ==> Advances(r.row, Rows(), r.id)
      ensures Reliable() && OfRow(r.id) !in touched && Fresh(r, old(Rows())) ==> Progress(r.row, Rows(), r.id)
    {
      touched := {};
      if r.id in sent {
        var w := sent[r.id];
        TakeDecide(r);
        FinishNewChat(r.id, w);
        return;
      }
      SendUnsent(r, answer, ok, self, stamp);
    }

    /** The number is looked up, at this time. */
    ghost predicate LooksUp(r: Picked, at: int, before: seq<Call>)
      requires me in world.procs
      reads this
    {
      && lastLookup == Some(at) && |before| < |Calls()|
      && Calls()[|before|] == Lookup(r.id, r.row.createdAt, r.readAt, at)
    }

    ghost predicate RejectedFor(r: Picked)
      reads this
    {
      if !Young(r) then FailedFor(r.id, Expired)
      else if !IsText(r.row) then FailedFor(r.id, UnsupportedKind)
      else IsMexican(r.row) || FailedFor(r.id, InvalidPhone)
    }

    /** The rest of sendNewChatRow, for a row that is not in the guard. */
    method SendUnsent(r: Picked, answer: Answer, ok: bool, self: Option<string>, stamp: int)
      requires Valid() && Pc() == Deciding(r) && r.id !in sent
      modifies this`world, this`trace, this`turn, this`touched, this`sent, this`lastLookup, this`serial, store
      ensures Valid() && old(trace) <= trace && Pc() == Idle && old(Calls()) <= Calls()
      ensures !Young(r) || !IsText(r.row) || !IsMexican(r.row) ==>
                Calls() == old(Calls()) && lastLookup == old(lastLookup)
      ensures Young(r) && IsText(r.row) && IsMexican(r.row) ==> LooksUp(r, old(world).now, old(Calls()))
      ensures Reliable() && r.id in old(Rows()) ==> RejectedFor(r)
      ensures Reliable() && r.id in old(Rows()) ==> Advances(r.row, Rows(), r.id)
      ensures Reliable() && OfRow(r.id) !in touched && Fresh(r, old(Rows())) ==> Progress(r.row, Rows(), r.id)
    {
      ShapesAre(r);
      if r.Overdue() {
        Reject(r, Expired);
        return;
      }
      if !PlainText(r.row) {
        Reject(r, UnsupportedKind);
        return;
      }
      if !MexicanPhone(r.row.toPhone.Or("")) {
        Reject(r, InvalidPhone);
        return;
      }
      lastLookup := Some(world.now);
      TakeDecide(r);
      LookedUp(r, answer, ok, self, stamp);
    }

    /** The lookup comes back within its deadline. */
    method AwaitLookup(r: Picked, answer: Answer)
      requires Valid() && Pc() == Looking(r, world.now)
      modifies this`world, this`trace, this`turn, this`touched, store
      ensures Valid() && old(trace) <= trace && old(touched) <= touched && Calls() == old(Calls())
      ensures answer.NoAnswer? ==> Pc() == Marking(r.id, r.row.attempts, LookupFailed)
      ensures answer.NotRegistered? ==> Pc() == Failing(r.id, NotOnWhatsApp)
      ensures answer.Hit? && !UserJid(answer.jid) ==> Pc() == Failing(r.id, InvalidPhone)
      ensures answer.Hit? && UserJid(answer.jid) ==>
                AtTarget(r, answer, Addresses.CanonicalChat(answer.lids, answer.jid))
      ensures RowKept(old(Rows()), Rows(), touched, r.id)
    {
      Elsewhere(Some(world.now + CALL_TIMEOUT), r.id);
      Take(LookupReturn(answer));
    }

    ghost predicate AtTarget(r: Picked, hit: Answer, target: Jid)
      reads this
    {
      me in world.procs && Pc().Found? && Pc().r == r && Pc().hit == hit && Pc().jid == target && hit.Hit?
    }

    ghost predicate AtSend(r: Picked, hit: Answer, target: Jid, waId: MessageId)
      reads this
    {
      && me in world.procs && Pc().Ready? && Pc().r == r && Pc().hit == hit && Pc().jid == target && Pc().waId == waId
      && hit.Hit?
    }

    /** What sendNewChatRow does with the answer: each leads to its own write. */
    method LookedUp(r: Picked, answer: Answer, ok: bool, self: Option<string>, stamp: int)
      requires Valid() && Pc() == Looking(r, world.now)
      modifies this`world, this`trace, this`turn, this`touched, this`sent, this`serial, store
      ensures Valid() && old(trace) <= trace && old(touched) <= touched && Pc() == Idle && old(Calls()) <= Calls()
      ensures !answer.Hit? || !UserJid(answer.jid) ==> Calls() == old(Calls())
      ensures Reliable() && r.id in old(Rows()) ==>
                match answer
                case NoAnswer => Retried(r, LookupFailed)
                case NotRegistered => FailedFor(r.id, NotOnWhatsApp)
                case Hit(jid, _, _, _) =>
                  if UserJid(jid) then Advances(r.row, Rows(), r.id) else FailedFor(r.id, InvalidPhone)
      ensures Reliable() && OfRow(r.id) !in touched && Fresh(r, old(Rows())) ==> Progress(r.row, Rows(), r.id)
    {
      AwaitLookup(r, answer);
      match answer {
        case NoAnswer =>
          MarkAttempt(r.id, r.row.attempts, LookupFailed);
        case NotRegistered =>
          FailNewChat(r.id, NotOnWhatsApp);
        case Hit(jid, lids, _, _) =>
          if !UserJid(jid) {
            FailNewChat(r.id, InvalidPhone);
          } else {
            var target := Addresses.CanonicalChat(lids, jid);
            var ready, waId := ClaimId(r, answer, target);
            if ready {
              ghost var _ := SendAndFinish(r, answer, target, waId, ok, self, stamp);
            }
          }
      }
    }

    ghost predicate FailedFor(id: int, code: Code)
      reads this
    {
      id in Rows() && Rows()[id].status.Failed? && Rows()[id].attempts == MAX_ATTEMPTS && Rows()[id].error == Some(code)
    }

    /** Reuse the row's identifier, or store a new one before the send. A send is
        given up only when the claim is not reported or, with writes succeeding,
        when the row is no longer there to be claimed. */
    method ClaimId(r: Picked, hit: Answer, target: Jid) returns (ready: bool, waId: MessageId)
      requires Valid() && AtTarget(r, hit, target)
      modifies this`world, this`trace, this`turn, this`touched, this`serial, store
      ensures Valid() && old(trace) <= trace && old(touched) <= touched && Calls() == old(Calls())
      ensures if ready then AtSend(r, hit, target, waId) else Pc() == Idle
      ensures ready ==> if HasClaim(r.row) then waId == r.row.waId.value
                        else r.id in Rows() && Rows()[r.id].waId == Some(waId) && waId == Minted(me, old(serial))
      ensures r.id in old(Rows()) ==> r.id in Rows()
      ensures Reliable() && !ready ==> !HasClaim(r.row) && !Claimable(Rows(), r.id)
      ensures Reliable() && OfRow(r.id) !in touched && Fresh(r, old(Rows())) ==> ready
    {
      Elsewhere(None, r.id);
      if HasClaim(r.row) {
        waId := r.row.waId.value;
        Take(Claim(Done));
        ready := true;
      } else {
        waId := Minted(me, serial);
        serial := serial + 1;
        var fault := NextFault();
        var claimed, err := store.ClaimNewChatMessageID(r.id, waId, fault);
        Take(Claim(fault));
        ready := !err && claimed;
      }
    }

    /** The send goes out with its deadline. */
    method StartSend(r: Picked, hit: Answer, target: Jid, waId: MessageId)
      requires Valid() && AtSend(r, hit, target, waId)
      modifies this`world, this`trace, this`turn, this`touched, store
      ensures Valid() && old(trace) <= trace && old(touched) <= touched && old(Calls()) <= Calls()
      ensures Pc() == Sending(r, hit, target, waId, world.now)
      ensures r.id in old(Rows()) ==> r.id in Rows()
      ensures ThreadsKept(old(store.db), store.db, touched)
      ensures |Calls()| == |old(Calls())| + 1 && var c := Calls()[|old(Calls())|];
                c.SendStarted? && c.row == r.id && c.jid == target && c.waId == waId && c.at == world.now
    {
      Elsewhere(None, r.id);
      Take(SendStart);
    }

    /** What a successful send has to store. */
    method Prepare(r: Picked, hit: Answer, target: Jid, waId: MessageId, self: Option<string>, stamp: int)
      returns (w: Writes)
      requires hit.Hit?
      ensures w == WritesFor(r, hit, target, waId, self, stamp)
      ensures HandsOver(r.row, hit, target, waId, self, stamp, w)
    {
      var body := r.row.body.Or("");
      var phone := if hit.phone.Some? then hit.phone else r.row.toPhone;
      var name := if hit.name.Some? then hit.name else NullString(Trim(r.row.toName.Or("")));
      w := Writes(
        Chat(target, name, phone, false, Some(stamp), NullString(Truncate(body, 160)), true, false),
        MessageRow(target, self, true, "text", NullString(body), None, None, None,
                   stamp, Some("sent"), None, None, None),
        waId);
    }

    /** It comes back; a success enters the guard at once. */
    method Send(r: Picked, hit: Answer, target: Jid, waId: MessageId, ok: bool, self: Option<string>, stamp: int)
      returns (w: Option<Writes>)
      requires Valid() && Pc() == Sending(r, hit, target, waId, world.now) && hit.Hit?
      modifies this`world, this`trace, this`turn, this`touched, this`sent, store
      ensures Valid() && old(trace) <= trace && old(touched) <= touched && old(Calls()) <= Calls()
      ensures ok <==> w.Some?
      ensures ok ==> HandsOver(r.row, hit, target, waId, self, stamp, w.value)
      ensures ThreadsKept(old(store.db), store.db, touched)
      ensures Pc() == if ok then Stamping(r.id, w.value, 0) else Marking(r.id, r.row.attempts, SendFailed)
      ensures sent == if ok then old(sent)[r.id := w.value] else old(sent)
      ensures r.id in old(Rows()) ==> r.id in Rows()
    {
      Elsewhere(Some(world.now + CALL_TIMEOUT), r.id);
      w := None;
      if ok {
        var writes := Prepare(r, hit, target, waId, self, stamp);
        sent := sent[r.id := writes];
        w := Some(writes);
      }
      Take(SendReturn(ok, self, stamp));
    }

    /** The send goes out and comes back. */
    method SendOut(r: Picked, hit: Answer, target: Jid, waId: MessageId, ok: bool, self: Option<string>, stamp: int)
      returns (w: Option<Writes>)
      requires Valid() && AtSend(r, hit, target, waId)
      modifies this`world, this`trace, this`turn, this`touched, this`sent, store
      ensures Valid() && old(trace) <= trace && old(touched) <= touched && old(Calls()) <= Calls()
      ensures ok <==> w.Some?
      ensures ok ==> HandsOver(r.row, hit, target, waId, self, stamp, w.value)
      ensures ThreadsKept(old(store.db), store.db, touched)
      ensures Pc() == if ok then Stamping(r.id, w.value, 0) else Marking(r.id, r.row.attempts, SendFailed)
      ensures r.id in old(Rows()) ==> r.id in Rows()
    {
      StartSend(r, hit, target, waId);
      w := Send(r, hit, target, waId, ok, self, stamp);
    }

    /** The send and what follows: when its writes succeed, an acknowledged send is
        stored as what it was, and any other is an attempt. */
    method SendAndFinish(r: Picked, hit: Answer, target: Jid, waId: MessageId, ok: bool, self: Option<string>,
                         stamp: int)
      returns (ghost w: Option<Writes>)
      requires Valid() && AtSend(r, hit, target, waId)
      modifies this`world, this`trace, this`turn, this`touched, this`sent, store
      ensures Valid() && old(trace) <= trace && old(touched) <= touched && Pc() == Idle && old(Calls()) <= Calls()
      ensures Reliable() && r.id in old(Rows()) ==> Progress(r.row, Rows(), r.id)
      ensures ok <==> w.Some?
      ensures ok ==> HandsOver(r.row, hit, target, waId, self, stamp, w.value)
      ensures Reliable() && ok ==> ChatWritten(old(store.db), w.value) && MessageWritten(old(store.db), w.value)
      ensures Reliable() && ok && r.id in old(Rows()) && OfRow(r.id) !in touched ==> Finished(Rows()[r.id], w.value)
      ensures Reliable() && !ok && r.id in old(Rows()) ==> Retried(r, SendFailed)
    {
      w := None;
      var writes := SendOut(r, hit, target, waId, ok, self, stamp);
      if writes.Some? {
        w := writes;
        FinishNewChat(r.id, writes.value);
      } else {
        MarkAttempt(r.id, r.row.attempts, SendFailed);
      }
    }

    /** The row counts one attempt more than was read, and has failed for this
        reason at the fifth. */
    ghost predicate Retried(r: Picked, code: Code)
      reads this
    {
      && r.id in Rows() && Rows()[r.id].attempts == r.row.attempts + 1
      && Rows()[r.id].lastAttempt == Some(world.now / SECOND)
      && (r.row.attempts + 1 >= 5 ==> Rows()[r.id].status.Failed? && Rows()[r.id].error == Some(code))
    }
  }

  /** What is stored of a send: a text of ours in the chat it went to, and that
      chat with the names and number the lookup or the row has. */
  predicate HandsOver(row: OutboundRow, hit: Answer, target: Jid, waId: MessageId, self: Option<string>, stamp: int,
                      w: Writes)
    requires hit.Hit?
  {
    && w.waId == waId && w.msg.chat == w.chat.jid == target
    && w.msg.fromMe && w.msg.kind == "text" && w.msg.status == Some("sent") && w.msg.sender == self
    && w.msg.at == stamp && w.chat.at == Some(stamp)
    && (row.body.Or("") != "" ==> w.msg.body == row.body)
    && w.msg.filename.None? && w.msg.target.None? && w.msg.place.None?
    && w.msg.originalBody.None? && w.msg.editedAt.None? && w.msg.revokedAt.None?
    && w.chat.fromMe && !w.chat.incrementUnread && !w.chat.isGroup
    && (0 < |row.body.Or("")| <= 160 ==> w.chat.preview == row.body)
    && (|row.body.Or("")| > 160 ==> w.chat.preview == Some(row.body.value[..160] + ELLIPSIS))
    && w.chat.phone == (if hit.phone.Some? then hit.phone else row.toPhone)
    && (hit.name.Some? ==> w.chat.displayName == hit.name)
    && (hit.name.None? && Trim(row.toName.Or("")) != "" ==> w.chat.displayName == Some(Trim(row.toName.value)))
  }

  /** A waiting row carries no identifier, or one a process made. */
  lemma PickIsFresh(trace: seq<Event>, r: Picked)
    requires var rows := Exec(EMPTY, trace).db.outbound; r.id in rows && rows[r.id] == r.row && r.row.status.Resolve?
    ensures Fresh(r, Exec(EMPTY, trace).db.outbound)
  {
    IdsAlways(trace);
    assert RowMinted(Exec(EMPTY, trace), r.id);
  }

  /** Less than 20 seconds after the last lookup. */
  predicate TooSoon(lastLookup: Option<int>, now: int) {
    lastLookup.Some? && now - lastLookup.value < 20_000
  }

  /** Read no later than 23 hours after it was queued. */
  predicate Young(r: Picked) {
    r.readAt / 1000 - r.row.createdAt <= 23 * 60 * 60
  }

  /** A text with something to see in it. */
  predicate IsText(row: OutboundRow) {
    row.kind == Some("text") && row.body.Some? && exists k :: 0 <= k < |row.body.value| && !IsSpace(row.body.value[k])
  }

  /** +52 and ten digits. */
  predicate IsMexican(row: OutboundRow) {
    && row.toPhone.Some?
    && var p := row.toPhone.value;
       |p| == 13 && p[0] == '+' && p[1] == '5' && p[2] == '2' && forall k | 3 <= k < 13 :: '0' <= p[k] <= '9'
  }

  lemma ShapesAre(r: Picked)
    ensures Young(r) <==> !r.Overdue()
    ensures IsText(r.row) <==> PlainText(r.row)
    ensures IsMexican(r.row) <==> MexicanPhone(r.row.toPhone.Or(""))
  {
    InkShows(r.row.body.Or(""));
    var p := r.row.toPhone.Or("");
    if |p| == 13 {
      assert p[..3] == "+52" <==> p[0] == '+' && p[1] == '5' && p[2] == '2';
      assert forall k | 0 <= k < 10 :: p[3..][k] == p[k + 3];
    }
  }

  /** The message of a send is for its chat. */
  lemma WritesMeet(trace: seq<Event>, q: nat)
    requires var procs := Exec(EMPTY, trace).procs; q in procs && procs[q].pc.Stamping?
    ensures var w := Exec(EMPTY, trace).procs[q].pc.w; w.msg.chat == w.chat.jid
  {
    TruthAlways(trace);
    assert ProcTrue(Exec(EMPTY, trace), q, Exec(EMPTY, trace).procs[q]);
  }

  lemma OnlyPick(rows: Outbound, seconds: int, id: int)
    requires IsPick(rows, Resolve, seconds, id)
    ensures forall other | IsPick(rows, Resolve, seconds, other) :: other == id
  {
  }

  /** The snapshot is the row as it stands, still waiting, with no identifier
      or one a process made (the empty string is never stored). */
  predicate Fresh(r: Picked, rows: Outbound) {
    && r.id in rows && rows[r.id] == r.row && r.row.status.Resolve?
    && (r.row.waId.None? || HasClaim(r.row))
  }

  /** The row left 'resolve', or its attempts are one more than was read. */
  predicate Progress(row: OutboundRow, rows: Outbound, id: int) {
    id in rows && (!rows[id].status.Resolve? || rows[id].attempts == row.attempts + 1)
  }

  /** Progress, or the row waits with an identifier somebody else gave it. */
  predicate Advances(row: OutboundRow, rows: Outbound, id: int) {
    Progress(row, rows, id) || (id in rows && !HasClaim(row) && rows[id].waId.Some?)
  }
}
