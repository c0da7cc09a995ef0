/** The existing-chat queue of internal/wabridge/wabridge.go: which rows a tick
    takes, what becomes of each, and what that means over many ticks. One
    bridge works the queue; anybody may add rows to it. Times are seconds. */
module OutboundQueue {
  import opened Base
  import opened Tables
  import opened Attempts
  import OutboundPosts

  const BATCH: nat := 10

  // -------------------------------------------------------------- one row

  datatype Target = Unreadable | NotFound | Unquotable | NoAuthor | Resolved
  datatype Build = Built | NoKind | BadMedia | BadPlace | Unavailable

  /** What WhatsApp and the database answer while a row is handled: whether
      chat_jid parses, the message it points at (if it names one), whether its
      content could be built, the identifier of an acknowledged send, and what is
      then stored of it. */
  datatype Reply = Reply(
    jidOk: bool, named: bool, target: Target, build: Build, ack: Option<MessageId>, post: OutboundPosts.Post)

  datatype Outcome = Fails(code: Code) | Retries(sent: bool) | Acked(waId: MessageId)

  /** sendOutboundRow and sendReactionRow, up to the write they end with. A
      reply without its target is sent as a plain message; a reaction is not. */
  function Decided(row: OutboundRow, reply: Reply): Outcome {
    var sent := if reply.ack.Some? then Acked(reply.ack.value) else Retries(true);
    if !reply.jidOk then Fails(InvalidJid)
    else if row.kind.Or("") == "reaction" then
      if !reply.named then Fails(ReactionMissing)
      else match reply.target
        case Unreadable => Retries(false)
        case Resolved => sent
        case _ => Fails(ReactionMissing)
    else if reply.named && reply.target.Unreadable? then Retries(false)
    else match reply.build
      case NoKind => Fails(UnsupportedKind)
      case BadMedia => Fails(MediaMissing)
      case BadPlace => Fails(InvalidLocation)
      case Unavailable => Retries(false)
      case Built => sent
  }

  /** The identifier a handled row was acknowledged with. */
  function AckOf(outcome: Outcome): Option<MessageId> {
    if outcome.Acked? then Some(outcome.waId) else None
  }

  function Effect(rows: Outbound, id: int, attempts: int, outcome: Outcome, at: int): Outbound {
    match outcome
    case Fails(code) => FailedOutbound(rows, id, MAX_ATTEMPTS, code, at)
    case Retries(_) => MarkedAttempt(rows, id, attempts, SendFailed, at)
    case Acked(waId) => SentOutbound(rows, id, waId)
  }

  /** The row its handling leaves behind, when the write commits. */
  function Ended(row: OutboundRow, outcome: Outcome, at: int): OutboundRow {
    match outcome
    case Fails(code) => row.(status := Failed, attempts := MAX_ATTEMPTS, lastAttempt := Some(at), error := Some(code))
    case Retries(_) =>
      if row.attempts + 1 < MAX_ATTEMPTS then row.(attempts := row.attempts + 1, lastAttempt := Some(at))
      else row.(status := Failed, attempts := row.attempts + 1, lastAttempt := Some(at), error := Some(SendFailed))
    case Acked(waId) => row.(status := Sent, waId := Some(waId), error := None)
  }

  lemma EffectIsEnded(rows: Outbound, id: int, outcome: Outcome, at: int)
    requires id in rows
    ensures Effect(rows, id, rows[id].attempts, outcome, at) == rows[id := Ended(rows[id], outcome, at)]
  {
  }

  /** A call of SendMessage for a row, and whether WhatsApp acknowledged it. */
  datatype Call = Call(row: int, acked: bool)

  function CallsOf(id: int, outcome: Outcome): seq<Call> {
    match outcome
    case Fails(_) => []
    case Retries(sent) => if sent then [Call(id, false)] else []
    case Acked(_) => [Call(id, true)]
  }

  function CountCalls(calls: seq<Call>, id: int): nat {
    if calls == [] then 0
    else CountCalls(calls[..|calls| - 1], id) + if calls[|calls| - 1].row == id then 1 else 0
  }

  function CountAcks(calls: seq<Call>, id: int): nat {
    if calls == [] then 0
    else CountAcks(calls[..|calls| - 1], id) + if calls[|calls| - 1] == Call(id, true) then 1 else 0
  }

  lemma CountOn(calls: seq<Call>, c: Call, id: int)
    ensures CountCalls(calls + [c], id) == CountCalls(calls, id) + if c.row == id then 1 else 0
    ensures CountAcks(calls + [c], id) == CountAcks(calls, id) + if c == Call(id, true) then 1 else 0
  {
    assert (calls + [c])[..|calls|] == calls;
  }

  lemma CountJoined(calls: seq<Call>, handled: int, outcome: Outcome, id: int)
    ensures CountCalls(calls + CallsOf(handled, outcome), id) ==
      CountCalls(calls, id) + if handled == id && (outcome.Acked? || (outcome.Retries? && outcome.sent)) then 1 else 0
    ensures CountAcks(calls + CallsOf(handled, outcome), id) ==
      CountAcks(calls, id) + if handled == id && outcome.Acked? then 1 else 0
  {
    var more := CallsOf(handled, outcome);
    if more == [] {
      assert calls + more == calls;
    } else {
      CountOn(calls, more[0], id);
    }
  }

  // ------------------------------------------------------------------ runs

  /** The queue as a machine: the clock, the rows, and (for the record) every
      call made and when each row's first attempt was written down. */
  datatype Queue = Queue(now: int, rows: Outbound, calls: seq<Call>, firsts: map<int, int>)

  datatype Event =
    | Tick(to: int)
    | Enqueue(id: int, kind: Option<string>)
    | Handle(id: int, readAt: int, reply: Reply, fault: Fault)

  const NO_ROWS := Queue(0, map[], [], map[])

  function NewRow(kind: Option<string>, at: int): OutboundRow {
    OutboundRow(Pending, None, None, None, kind, 0, None, at, None, None, None)
  }

  function Exec(es: seq<Event>): Queue {
    if es == [] then NO_ROWS else Next(Exec(es[..|es| - 1]), es[|es| - 1])
  }

  predicate Enabled(q: Queue, id: int, readAt: int) {
    id in q.rows && readAt <= q.now && Eligible(q.rows[id], Pending, readAt)
  }

  function Next(q: Queue, e: Event): Queue {
    match e
    case Tick(to) => if q.now <= to then q.(now := to) else q
    case Enqueue(id, kind) => if id in q.rows then q else q.(rows := q.rows[id := NewRow(kind, q.now)])
    case Handle(id, readAt, reply, fault) =>
      if Enabled(q, id, readAt) then Handled(q, id, Decided(q.rows[id], reply), fault) else q
  }

  function Handled(q: Queue, id: int, outcome: Outcome, fault: Fault): Queue
    requires id in q.rows
  {
    var rows' := Committed(fault, q.rows, Effect(q.rows, id, q.rows[id].attempts, outcome, q.now));
    Queue(q.now, rows', q.calls + CallsOf(id, outcome),
          if id in rows' && rows'[id].lastAttempt.Some? && id !in q.firsts
          then q.firsts[id := rows'[id].lastAttempt.value] else q.firsts)
  }

  lemma ExecSnoc(es: seq<Event>, e: Event)
    ensures Exec(es + [e]) == Next(Exec(es), e)
  {
    assert (es + [e])[..|es|] == es;
  }

  // ----------------------------------------------------------- what runs keep

  ghost predicate PaceInv(q: Queue) {
    && BelowCap(q.rows) && q.firsts.Keys <= q.rows.Keys
    && forall id | id in q.rows :: Paced(q.rows[id], FirstOf(q, id))
  }

  function FirstOf(q: Queue, id: int): Option<int> {
    if id in q.firsts then Some(q.firsts[id]) else None
  }

  /** A row that was handled had its backoff over when it was read. */
  lemma HandledRecords(q: Queue, id: int, readAt: int, outcome: Outcome, fault: Fault)
    requires Enabled(q, id, readAt) && (outcome.Fails? ==> !RetryCode(Some(outcome.code)))
    ensures var rows' := Handled(q, id, outcome, fault).rows;
      && rows'.Keys == q.rows.Keys && (forall k | k in rows' && k != id :: rows'[k] == q.rows[k])
      && (SameRecord(q.rows[id], rows'[id]) || Recorded(q.rows[id], rows'[id], q.now))
  {
  }

  lemma DecidedCodes(row: OutboundRow, reply: Reply)
    ensures Decided(row, reply).Fails? ==> !RetryCode(Some(Decided(row, reply).code))
  {
  }

  lemma HandleKeepsPace(q: Queue, id: int, readAt: int, outcome: Outcome, fault: Fault)
    requires PaceInv(q) && Enabled(q, id, readAt) && (outcome.Fails? ==> !RetryCode(Some(outcome.code)))
    ensures PaceInv(Handled(q, id, outcome, fault))
  {
    var q' := Handled(q, id, outcome, fault);
    HandledRecords(q, id, readAt, outcome, fault);
    RecordKeepsPace(q.rows[id], q'.rows[id], FirstOf(q, id), q.now);
    var waId := if outcome.Acked? then outcome.waId else Blank;
    StatementsKeepCap(q.rows, id, q.rows[id].attempts, SendFailed, q.now, waId, Jid("", Phone));
    if outcome.Fails? {
      StatementsKeepCap(q.rows, id, 0, outcome.code, q.now, Blank, Jid("", Phone));
    }
  }

  lemma {:induction false} PaceAlways(es: seq<Event>)
    ensures PaceInv(Exec(es))
  {
    if es != [] {
      var front, e := es[..|es| - 1], es[|es| - 1];
      var q := Exec(front);
      PaceAlways(front);
      if e.Handle? && Enabled(q, e.id, e.readAt) {
        DecidedCodes(q.rows[e.id], e.reply);
        HandleKeepsPace(q, e.id, e.readAt, Decided(q.rows[e.id], e.reply), e.fault);
      }
    }
  }

  /** Over every run, failed and lost writes included: no waiting row is stuck
      at the cap, and a row that used up its attempts took more than 220 s. */
  lemma QueueIsPaced(es: seq<Event>, id: int)
    requires id in Exec(es).rows
    ensures var row := Exec(es).rows[id];
      && (row.status.Pending? ==> 0 <= row.attempts < MAX_ATTEMPTS && BackoffSeconds(row.attempts) <= 120)
      && (row.attempts == MAX_ATTEMPTS && RetryCode(row.error) ==>
            && id in Exec(es).firsts && row.lastAttempt.Some?
            && row.lastAttempt.value - Exec(es).firsts[id] >= 10 + 30 + 60 + 120 + 4)
  {
    PaceAlways(es);
    Spans();
    assert Paced(Exec(es).rows[id], FirstOf(Exec(es), id));
  }

  // ------------------------------------------------ when the writes succeed

  ghost predicate WritesSucceed(es: seq<Event>) {
    forall k | 0 <= k < |es| :: es[k].Handle? ==> es[k].fault.Done?
  }

  /** n calls, of which `acks` acknowledged, are what this row accounts for. */
  predicate Accounts(row: OutboundRow, n: nat, acks: nat) {
    && (row.status.Pending? || row.status.Sent? || row.status.Failed?)
    && n <= row.attempts + (if row.status.Sent? then 1 else 0)
    && row.attempts <= (if row.status.Failed? then MAX_ATTEMPTS else MAX_ATTEMPTS - 1)
    && acks == (if row.status.Sent? then 1 else 0)
  }

  ghost predicate RowCounts(q: Queue, id: int)
    requires id in q.rows
  {
    Accounts(q.rows[id], CountCalls(q.calls, id), CountAcks(q.calls, id))
  }

  ghost predicate CountInv(q: Queue) {
    && (forall id | id in q.rows :: RowCounts(q, id))
    && (forall id | id !in q.rows :: CountCalls(q.calls, id) == 0 && CountAcks(q.calls, id) == 0)
  }

  lemma HandleKeepsCounts(q: Queue, id: int, readAt: int, outcome: Outcome)
    requires CountInv(q) && Enabled(q, id, readAt)
    ensures var q' := Handled(q, id, outcome, Done);
      && CountInv(q') && id in q'.rows && q'.rows[id].attempts <= MAX_ATTEMPTS && q.rows[id].attempts <= MAX_ATTEMPTS
      && Measure(q'.rows[id]) < Measure(q.rows[id])
  {
    var q' := Handled(q, id, outcome, Done);
    assert RowCounts(q, id);
    HandledCounts(q, id, readAt, outcome);
    forall k | k in q'.rows && k != id ensures RowCounts(q', k) {
      assert RowCounts(q, k);
      OthersCount(q, id, outcome, k);
    }
    forall k | k !in q'.rows ensures CountCalls(q'.calls, k) == 0 && CountAcks(q'.calls, k) == 0 {
      CountJoined(q.calls, id, outcome, k);
    }
  }

  lemma HandledCounts(q: Queue, id: int, readAt: int, outcome: Outcome)
    requires Enabled(q, id, readAt) && RowCounts(q, id)
    ensures var q' := Handled(q, id, outcome, Done);
      q'.rows.Keys == q.rows.Keys && RowCounts(q', id) && Measure(q'.rows[id]) < Measure(q.rows[id])
  {
    EffectIsEnded(q.rows, id, outcome, q.now);
    CountJoined(q.calls, id, outcome, id);
    EndedAccounts(q.rows[id], outcome, q.now, CountCalls(q.calls, id), CountAcks(q.calls, id));
  }

  lemma EndedAccounts(row: OutboundRow, outcome: Outcome, at: int, n: nat, acks: nat)
    requires row.status.Pending? && Accounts(row, n, acks)
    ensures var row' := Ended(row, outcome, at);
      && Accounts(row', n + (if outcome.Acked? || (outcome.Retries? && outcome.sent) then 1 else 0),
                  acks + if outcome.Acked? then 1 else 0)
      && Measure(row') < Measure(row)
  {
  }

  lemma OthersCount(q: Queue, id: int, outcome: Outcome, k: int)
    requires id in q.rows && k in q.rows && k != id && RowCounts(q, k)
    ensures var q' := Handled(q, id, outcome, Done); k in q'.rows && RowCounts(q', k)
  {
    CountJoined(q.calls, id, outcome, k);
  }

  lemma EnqueueKeepsCounts(q: Queue, id: int, kind: Option<string>)
    requires CountInv(q)
    ensures CountInv(Next(q, Enqueue(id, kind)))
  {
    var q' := Next(q, Enqueue(id, kind));
    forall k | k in q'.rows ensures RowCounts(q', k) {
      if k in q.rows { assert RowCounts(q, k); }
    }
  }

  lemma {:induction false} CountsAlways(es: seq<Event>)
    requires WritesSucceed(es)
    ensures CountInv(Exec(es))
  {
    if es == [] {
      assert forall id :: CountCalls(NO_ROWS.calls, id) == 0;
    } else {
      var front, e := es[..|es| - 1], es[|es| - 1];
      var q := Exec(front);
      assert forall k | 0 <= k < |front| :: front[k] == es[k];
      CountsAlways(front);
      match e
      case Tick(to) => assert forall id | id in q.rows :: RowCounts(q, id) && RowCounts(Next(q, e), id);
      case Enqueue(id, kind) => EnqueueKeepsCounts(q, id, kind);
      case Handle(id, readAt, reply, fault) =>
        if Enabled(q, id, readAt) { HandleKeepsCounts(q, id, readAt, Decided(q.rows[id], reply)); }
    }
  }

  /** While the writes succeed, a row is sent at most five times, acknowledged
      at most once and exactly when it is marked sent, and every time it is
      handled its measure goes down. */
  lemma AtMostFiveSends(es: seq<Event>, id: int)
    requires WritesSucceed(es)
    ensures CountCalls(Exec(es).calls, id) <= 5
    ensures CountAcks(Exec(es).calls, id) == if id in Exec(es).rows && Exec(es).rows[id].status.Sent? then 1 else 0
    ensures forall readAt, reply | Enabled(Exec(es), id, readAt) ::
      var q, q' := Exec(es), Next(Exec(es), Handle(id, readAt, reply, Done));
      && id in q'.rows && q.rows[id].attempts <= MAX_ATTEMPTS && q'.rows[id].attempts <= MAX_ATTEMPTS
      && Measure(q'.rows[id]) < Measure(q.rows[id])
  {
    CountsAlways(es);
    var q := Exec(es);
    if id in q.rows {
      assert RowCounts(q, id);
      forall readAt, reply | Enabled(q, id, readAt)
        ensures var q' := Next(q, Handle(id, readAt, reply, Done));
          id in q'.rows && q'.rows[id].attempts <= MAX_ATTEMPTS && Measure(q'.rows[id]) < Measure(q.rows[id])
      {
        HandleKeepsCounts(q, id, readAt, Decided(q.rows[id], reply));
      }
    }
  }

  /** Acknowledged sends of the row whose stamp did not commit. */
  function RefusedStamps(es: seq<Event>, id: int): nat {
    if es == [] then 0
    else
      var front, e := es[..|es| - 1], es[|es| - 1];
      RefusedStamps(front, id)
        + if e.Handle? && e.id == id && e.fault.Refused? && Enabled(Exec(front), id, e.readAt)
             && Decided(Exec(front).rows[id], e.reply).Acked? then 1 else 0
  }

  function SentOnce(q: Queue, id: int): nat {
    if id in q.rows && q.rows[id].status.Sent? then 1 else 0
  }

  /** Exactly how often a row is acknowledged, over every run: once for the
      send it is marked with, and once more for every stamp that did not
      commit. No other failed write adds any. So it is at most once exactly when
      no stamp was refused, or one was and the row was never marked. */
  lemma {:induction false} AcksAreExact(es: seq<Event>, id: int)
    ensures CountAcks(Exec(es).calls, id) == RefusedStamps(es, id) + SentOnce(Exec(es), id)
  {
    if es != [] {
      var front, e := es[..|es| - 1], es[|es| - 1];
      var q := Exec(front);
      AcksAreExact(front, id);
      if e.Handle? && Enabled(q, e.id, e.readAt) {
        HandledAcks(q, e.id, e.readAt, Decided(q.rows[e.id], e.reply), e.fault, id);
      }
    }
  }

  lemma HandledAcks(q: Queue, handled: int, readAt: int, outcome: Outcome, fault: Fault, id: int)
    requires Enabled(q, handled, readAt)
    ensures var q' := Handled(q, handled, outcome, fault);
      CountAcks(q'.calls, id) + SentOnce(q, id) ==
      CountAcks(q.calls, id) + SentOnce(q', id) + if handled == id && outcome.Acked? && fault.Refused? then 1 else 0
  {
    CountJoined(q.calls, handled, outcome, id);
    EffectIsEnded(q.rows, handled, outcome, q.now);
  }

  /** When the stamp of an acknowledged send does not commit, the row stays as
      it was and the next tick sends it again: two acknowledged sends. */
  lemma LostStampSendsAgain(waId: MessageId, post: OutboundPosts.Post) returns (es: seq<Event>)
    ensures CountAcks(Exec(es).calls, 1) == 2
  {
    var ok := Reply(true, false, Resolved, Built, Some(waId), post);
    var send := Handle(1, 0, ok, Refused);
    var row := NewRow(Some("text"), 0);
    es := [Enqueue(1, Some("text")), send, send];
    assert es[..2][..1][..0] == [] && es[..2] == [es[0], es[1]] && es[..2][..1] == [es[0]];
    assert Exec(es[..2][..1]) == Queue(0, map[1 := row], [], map[]);
    assert Exec(es[..2]) == Queue(0, map[1 := row], [Call(1, true)], map[]);
    assert Exec(es) == Queue(0, map[1 := row], [Call(1, true), Call(1, true)], map[]);
    CountOn([Call(1, true)], Call(1, true), 1);
    CountOn([], Call(1, true), 1);
    assert [Call(1, true)] + [Call(1, true)] == [Call(1, true), Call(1, true)]
            && [] + [Call(1, true)] == [Call(1, true)];
  }
}
