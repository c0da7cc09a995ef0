/** What the new-chat tables say is true: a 'sent' row was sent, a chat row
    this path made was earned, every reference points at something. */
module NewChatTruth {
  import opened Base
  import opened Tables
  import opened NewChatSteps
  import opened NewChatSafety

  /** A send acknowledged for row id is what `writes` describes. */
  ghost predicate WritesTrue(w: World, q: nat, id: int, writes: Writes) {
    && Ack(q, id, writes.chat.jid, writes.waId) in w.acks
    && writes.msg.chat == writes.chat.jid
  }

  ghost predicate IsSend(c: Call, id: int, jid: Jid, waId: MessageId) {
    c.SendStarted? && c.row == id && c.jid == jid && c.waId == waId
  }

  ghost predicate HasSend(calls: seq<Call>, id: int, jid: Jid, waId: MessageId) {
    exists k :: 0 <= k < |calls| && IsSend(calls[k], id, jid, waId)
  }

  ghost predicate PcTrue(w: World, q: nat, p: Proc) {
    match p.pc
    case Found(r, hit, jid, _, _) => hit.Hit? && jid in w.confirmed
    case Ready(r, hit, jid, _, _, _) => hit.Hit? && jid in w.confirmed
    case Sending(r, hit, jid, waId, _) => hit.Hit? && jid in w.confirmed && HasSend(p.calls, r.id, jid, waId)
    case Stamping(id, writes, _) => WritesTrue(w, q, id, writes)
    case WritingChat(id, writes, _) => WritesTrue(w, q, id, writes)
    case WritingMessage(id, writes, _) => WritesTrue(w, q, id, writes) && writes.chat.jid in w.db.chats
    case Pointing(id, writes, _) => WritesTrue(w, q, id, writes) && writes.chat.jid in w.db.chats
    case _ => true
  }

  ghost predicate ProcTrue(w: World, q: nat, p: Proc) {
    && PcTrue(w, q, p)
    && (forall id :: id in p.sent ==> WritesTrue(w, q, id, p.sent[id]))
    && (forall k :: 0 <= k < |p.calls| && p.calls[k].SendStarted? ==> p.calls[k].jid in w.confirmed)
  }

  /** An acknowledged send went to an address a lookup confirmed, with the
      identifier that is on the row. */
  ghost predicate AckTrue(w: World, a: Ack) {
    && a.process in w.procs && a.jid in w.confirmed && Bound(w, a.row, a.waId)
    && HasSend(w.procs[a.process].calls, a.row, a.jid, a.waId)
  }

  ghost predicate Delivered(w: World, id: int, waId: Option<MessageId>) {
    exists a :: a in w.acks && a.row == id && waId == Some(a.waId)
  }

  ghost predicate Earned(w: World, jid: Jid) {
    jid in w.db.chats && exists a :: a in w.acks && a.jid == jid
  }

  ghost predicate TableTrue(w: World) {
    && (forall a :: a in w.acks ==> AckTrue(w, a))
    && (forall id :: id in w.db.outbound && w.db.outbound[id].status.Sent? ==> Delivered(w, id, w.db.outbound[id].waId))
    && (forall jid :: jid in w.made ==> Earned(w, jid))
  }

  ghost predicate References(w: World) {
    && (forall m :: m in w.db.messages ==> w.db.messages[m].chat in w.db.chats)
    && (forall id :: id in w.db.outbound && w.db.outbound[id].chat.Some? ==> w.db.outbound[id].chat.value in w.db.chats)
  }

  ghost predicate TruthInv(w: World) {
    && IdInv(w)
    && TableTrue(w)
    && References(w)
    && (forall q :: q in w.procs ==> ProcTrue(w, q, w.procs[q]))
  }

  /** Nothing true is taken back. */
  ghost predicate Accumulates(w: World, w': World) {
    && Grows(w, w')
    && w.confirmed <= w'.confirmed && w.acks <= w'.acks
    && w.db.chats.Keys <= w'.db.chats.Keys
    && (forall q :: q in w.procs ==> q in w'.procs && w.procs[q].calls <= w'.procs[q].calls)
  }

  lemma StepAccumulates(w: World, e: Event)
    requires IdInv(w)
    ensures Accumulates(w, Next(w, e))
  {
    StepGrows(w, e);
    match e
    case Own(q, act) => if q in w.procs { OwnStepFrame(w, q, act); }
    case _ => OthersStepFrame(w, e);
  }

  lemma HasSendKept(calls: seq<Call>, calls': seq<Call>, id: int, jid: Jid, waId: MessageId)
    requires calls <= calls' && HasSend(calls, id, jid, waId)
    ensures HasSend(calls', id, jid, waId)
  {
    var k :| 0 <= k < |calls| && IsSend(calls[k], id, jid, waId);
    assert IsSend(calls'[k], id, jid, waId);
  }

  /** A process that did not move still tells the truth. */
  lemma ProcTrueKept(w: World, w': World, q: nat, p: Proc)
    requires Accumulates(w, w') && ProcTrue(w, q, p)
    ensures ProcTrue(w', q, p)
  {
  }

  lemma AcksKept(w: World, w': World)
    requires Accumulates(w, w') && forall a :: a in w.acks ==> AckTrue(w, a)
    ensures forall a :: a in w.acks ==> AckTrue(w', a)
  {
    forall a | a in w.acks ensures AckTrue(w', a) {
      assert AckTrue(w, a);
      HasSendKept(w.procs[a.process].calls, w'.procs[a.process].calls, a.row, a.jid, a.waId);
    }
  }

  lemma TablesKept(w: World, w': World)
    requires Accumulates(w, w') && TableTrue(w)
    requires w'.acks == w.acks && w'.made == w.made
    requires forall id :: id in w'.db.outbound && w'.db.outbound[id].status.Sent? ==>
               && id in w.db.outbound && w.db.outbound[id].status.Sent?
               && w'.db.outbound[id].waId == w.db.outbound[id].waId
    ensures TableTrue(w')
  {
    AcksKept(w, w');
    forall id | id in w'.db.outbound && w'.db.outbound[id].status.Sent?
      ensures Delivered(w', id, w'.db.outbound[id].waId)
    {
      assert Delivered(w, id, w.db.outbound[id].waId);
    }
    forall jid | jid in w'.made ensures Earned(w', jid) { assert Earned(w, jid); }
  }

  /** The processes that did not move tell the truth; q did, and is checked. */
  lemma ProcsKept(w: World, w': World, q: nat)
    requires Accumulates(w, w') && w'.procs.Keys == w.procs.Keys
    requires forall o :: o in w.procs ==> ProcTrue(w, o, w.procs[o])
    requires forall o :: o in w.procs && o != q ==> w'.procs[o] == w.procs[o]
    requires q in w'.procs ==> ProcTrue(w', q, w'.procs[q])
    ensures forall o :: o in w'.procs ==> ProcTrue(w', o, w'.procs[o])
  {
    forall o | o in w'.procs ensures ProcTrue(w', o, w'.procs[o]) {
      if o != q { ProcTrueKept(w, w', o, w.procs[o]); }
    }
  }

  lemma OthersKeepReferences(w: World, e: Event)
    requires References(w) && !e.Own?
    ensures References(Next(w, e))
  {
    match e
    case OtherChat(_) =>
    case OtherMessage(_, _) =>
    case _ =>
  }

  /** Steps of the environment. */
  lemma OthersKeepTruth(w: World, e: Event)
    requires TruthInv(w) && !e.Own?
    ensures TruthInv(Next(w, e))
  {
    var w' := Next(w, e);
    StepKeepsIds(w, e);
    StepAccumulates(w, e);
    OthersKeepReferences(w, e);
    OthersKeepTables(w, e);
    OthersKeepProcs(w, e);
  }

  lemma OthersKeepProcs(w: World, e: Event)
    requires !e.Own? && Accumulates(w, Next(w, e))
    requires forall q :: q in w.procs ==> ProcTrue(w, q, w.procs[q])
    ensures var w' := Next(w, e); forall q :: q in w'.procs ==> ProcTrue(w', q, w'.procs[q])
  {
    var w' := Next(w, e);
    OthersStepFrame(w, e);
    forall q | q in w'.procs ensures ProcTrue(w', q, w'.procs[q]) {
      if q in w.procs { ProcTrueKept(w, w', q, w.procs[q]); }
    }
  }

  lemma OthersKeepTables(w: World, e: Event)
    requires TruthInv(w) && !e.Own?
    ensures TableTrue(Next(w, e))
  {
    StepAccumulates(w, e);
    OthersSendNothing(w, e);
    TablesKept(w, Next(w, e));
  }

  lemma OthersSendNothing(w: World, e: Event)
    requires !e.Own?
    ensures var w' := Next(w, e);
            && w'.acks == w.acks && w'.made == w.made
            && forall id :: id in w'.db.outbound && w'.db.outbound[id].status.Sent? ==>
               && id in w.db.outbound && w.db.outbound[id].status.Sent?
               && w'.db.outbound[id].waId == w.db.outbound[id].waId
  {
  }

  /** Steps that neither write a table nor hear of a send. */
  lemma QuietStepKeepsTruth(w: World, q: nat, act: Act)
    requires TruthInv(w) && q in w.procs
    requires act.Poll? || act.Decide? || act.LookupReturn? || act.Claim? || act.SendStart?
    ensures TruthInv(Next(w, Own(q, act)))
  {
    var e := Own(q, act);
    var w' := Next(w, e);
    StepKeepsIds(w, e);
    StepAccumulates(w, e);
    QuietFrame(w, q, act);
    QuietProcTrue(w, q, act);
    ProcsKept(w, w', q);
    QuietTables(w, w');
  }

  /** A quiet step changes at most the identifier of a 'resolve' row. */
  lemma QuietFrame(w: World, q: nat, act: Act)
    requires q in w.procs
    requires act.Poll? || act.Decide? || act.LookupReturn? || act.Claim? || act.SendStart?
    ensures var w' := Next(w, Own(q, act));
            && OwnFrame(w, w', q, act)
            && (w'.db.outbound == w.db.outbound
                || exists id, waId :: Claimable(w.db.outbound, id)
                     && w'.db.outbound == w.db.outbound[id := w.db.outbound[id].(waId := Some(waId))])
  {
    OwnStepFrame(w, q, act);
    match act
    case Claim(_) =>
      var p := w.procs[q];
      if p.pc.Found? && Claimable(w.db.outbound, p.pc.r.id) {
        assert ClaimedOutbound(w.db.outbound, p.pc.r.id, Minted(q, p.serial))
            == w.db.outbound[p.pc.r.id := w.db.outbound[p.pc.r.id].(waId := Some(Minted(q, p.serial)))];
      }
    case _ =>
  }

  lemma QuietTables(w: World, w': World)
    requires Accumulates(w, w') && TableTrue(w) && References(w)
    requires w'.acks == w.acks && w'.made == w.made && w'.db.chats == w.db.chats && w'.db.messages == w.db.messages
    requires w'.db.outbound == w.db.outbound
             || exists id, waId :: Claimable(w.db.outbound, id)
                  && w'.db.outbound == w.db.outbound[id := w.db.outbound[id].(waId := Some(waId))]
    ensures TableTrue(w') && References(w')
  {
    TablesKept(w, w');
  }

  lemma QuietProcTrue(w: World, q: nat, act: Act)
    requires q in w.procs && ProcTrue(w, q, w.procs[q]) && Accumulates(w, Next(w, Own(q, act)))
    requires act.Poll? || act.Decide? || act.LookupReturn? || act.Claim? || act.SendStart?
    ensures var w' := Next(w, Own(q, act)); ProcTrue(w', q, w'.procs[q])
  {
    var w', p := Next(w, Own(q, act)), w.procs[q];
    ProcTrueKept(w, w', q, p);
    match act
    case Poll(_) =>
    case Decide => if p.pc.Deciding? { DecideProcTrue(w, q); }
    case LookupReturn(answer) => if p.pc.Looking? { AnswerProcTrue(w, q, answer); }
    case Claim(fault) => if p.pc.Found? { ClaimProcTrue(w, q, fault); }
    case SendStart =>
      if w' != w { assert IsSend(w'.procs[q].calls[|p.calls|], p.pc.r.id, p.pc.jid, p.pc.waId); }
  }

  lemma DecideProcTrue(w: World, q: nat)
    requires q in w.procs && w.procs[q].pc.Deciding? && ProcTrue(w, q, w.procs[q])
    requires Accumulates(w, DecideStep(w, q, w.procs[q], w.procs[q].pc.r))
    ensures var w' := DecideStep(w, q, w.procs[q], w.procs[q].pc.r); ProcTrue(w', q, w'.procs[q])
  {
    var w', p := DecideStep(w, q, w.procs[q], w.procs[q].pc.r), w.procs[q];
    ProcTrueKept(w, w', q, p);
    DecidePcTrue(w, q);
    NoSendTrue(w', q, p, w'.procs[q]);
  }

  /** What Decide goes on to is in the guard, or claims nothing. */
  lemma DecidePcTrue(w: World, q: nat)
    requires q in w.procs && w.procs[q].pc.Deciding? && ProcTrue(w, q, w.procs[q])
    ensures var w' := DecideStep(w, q, w.procs[q], w.procs[q].pc.r); PcTrue(w', q, w'.procs[q])
  {
  }

  /** A process that started no send in a step is true with its next pc. */
  lemma NoSendTrue(w: World, q: nat, p: Proc, p': Proc)
    requires ProcTrue(w, q, p) && PcTrue(w, q, p') && p'.sent == p.sent
    requires p.calls <= p'.calls && forall k | |p.calls| <= k < |p'.calls| :: !p'.calls[k].SendStarted?
    ensures ProcTrue(w, q, p')
  {
  }

  lemma AnswerProcTrue(w: World, q: nat, answer: Answer)
    requires q in w.procs && w.procs[q].pc.Looking? && ProcTrue(w, q, w.procs[q])
    requires Accumulates(w, AnswerStep(w, q, w.procs[q], answer))
    ensures var w' := AnswerStep(w, q, w.procs[q], answer); ProcTrue(w', q, w'.procs[q])
  {
    var w', p := AnswerStep(w, q, w.procs[q], answer), w.procs[q];
    ProcTrueKept(w, w', q, p);
    assert w'.procs[q].calls == p.calls && w'.procs[q].sent == p.sent;
  }

  lemma ClaimProcTrue(w: World, q: nat, fault: Fault)
    requires q in w.procs && w.procs[q].pc.Found? && ProcTrue(w, q, w.procs[q])
    requires Accumulates(w, ClaimStep(w, q, w.procs[q], fault))
    ensures var w' := ClaimStep(w, q, w.procs[q], fault); ProcTrue(w', q, w'.procs[q])
  {
    var w', p := ClaimStep(w, q, w.procs[q], fault), w.procs[q];
    ProcTrueKept(w, w', q, p);
    assert w'.procs[q].calls == p.calls && w'.procs[q].sent == p.sent;
  }

  lemma SendReturnTables(w: World, w': World, a: Ack)
    requires Accumulates(w, w') && TableTrue(w) && AckTrue(w', a)
    requires w'.db == w.db && w'.made == w.made && (w'.acks == w.acks || w'.acks == w.acks + {a})
    ensures TableTrue(w')
  {
    AcksKept(w, w');
    forall id | id in w'.db.outbound && w'.db.outbound[id].status.Sent?
      ensures Delivered(w', id, w'.db.outbound[id].waId)
    {
      assert Delivered(w, id, w.db.outbound[id].waId);
    }
    forall jid | jid in w'.made ensures Earned(w', jid) { assert Earned(w, jid); }
  }

  /** The process that hears of its send: its guard entry is backed by an ack. */
  lemma SendReturnProc(w: World, q: nat, ok: bool, self: Option<string>, stamp: int)
    requires q in w.procs && w.procs[q].pc.Sending?
    requires ProcTrue(w, q, w.procs[q]) && ProcBound(w, w.procs[q])
    requires Accumulates(w, SendReturnStep(w, q, w.procs[q], ok, self, stamp))
    ensures var w', c := SendReturnStep(w, q, w.procs[q], ok, self, stamp), w.procs[q].pc;
            && w'.procs.Keys == w.procs.Keys && ProcTrue(w', q, w'.procs[q])
            && AckTrue(w', Ack(q, c.r.id, c.jid, c.waId))
  {
    var w', p := SendReturnStep(w, q, w.procs[q], ok, self, stamp), w.procs[q];
    ProcTrueKept(w, w', q, p);
    HasSendKept(p.calls, w'.procs[q].calls, p.pc.r.id, p.pc.jid, p.pc.waId);
    assert Bound(w, p.pc.r.id, p.pc.waId);
  }

  lemma SendReturnKeepsTruth(w: World, q: nat, ok: bool, self: Option<string>, stamp: int)
    requires TruthInv(w) && q in w.procs && w.procs[q].pc.Sending?
    requires var w' := SendReturnStep(w, q, w.procs[q], ok, self, stamp);
             IdInv(w') && Accumulates(w, w') && OwnFrame(w, w', q, SendReturn(ok, self, stamp))
    ensures TruthInv(SendReturnStep(w, q, w.procs[q], ok, self, stamp))
  {
    var w' := SendReturnStep(w, q, w.procs[q], ok, self, stamp);
    SendReturnProc(w, q, ok, self, stamp);
    SendReturnTables(w, w', Ack(q, w.procs[q].pc.r.id, w.procs[q].pc.jid, w.procs[q].pc.waId));
    ProcsKept(w, w', q);
  }

  /** The row a stamp touches was delivered; the chat row it makes was earned. */
  lemma WriteKeepsTables(w: World, q: nat, fault: Fault)
    requires q in w.procs && ProcTrue(w, q, w.procs[q]) && ProcBound(w, w.procs[q])
    requires TableTrue(w) && Accumulates(w, WriteStep(w, q, w.procs[q], fault))
    requires WriteStep(w, q, w.procs[q], fault).acks == w.acks
    ensures TableTrue(WriteStep(w, q, w.procs[q], fault))
  {
    var w', p := WriteStep(w, q, w.procs[q], fault), w.procs[q];
    AcksKept(w, w');
    forall id | id in w'.db.outbound && w'.db.outbound[id].status.Sent?
      ensures Delivered(w', id, w'.db.outbound[id].waId)
    {
      if p.pc.Stamping? && id == p.pc.id {
        assert Ack(q, id, p.pc.w.chat.jid, p.pc.w.waId) in w'.acks;
      } else {
        WriteRow(w, q, fault, id);
        assert Delivered(w, id, w.db.outbound[id].waId);
      }
    }
    forall jid | jid in w'.made ensures Earned(w', jid) {
      if jid in w.made {
        assert Earned(w, jid);
      } else {
        assert Ack(q, p.pc.id, jid, p.pc.w.waId) in w'.acks;
      }
    }
  }

  /** Only a stamp makes a row 'sent', and no write but a stamp changes an identifier. */
  lemma WriteRow(w: World, q: nat, fault: Fault, id: int)
    requires q in w.procs && id in WriteStep(w, q, w.procs[q], fault).db.outbound
    requires !(w.procs[q].pc.Stamping? && w.procs[q].pc.id == id)
    ensures var row := WriteStep(w, q, w.procs[q], fault).db.outbound[id];
            && id in w.db.outbound && row.waId == w.db.outbound[id].waId
            && (row.status.Sent? ==> w.db.outbound[id].status.Sent?)
  {
    match w.procs[q].pc
    case WritingChat(_, _, _) =>
    case WritingMessage(_, _, _) =>
    case _ =>
  }

  lemma WriteKeepsReferences(w: World, q: nat, fault: Fault)
    requires q in w.procs && ProcTrue(w, q, w.procs[q]) && References(w)
    ensures References(WriteStep(w, q, w.procs[q], fault))
  {
    match w.procs[q].pc
    case WritingMessage(_, _, _) =>
    case Pointing(_, _, _) =>
    case _ =>
  }

  lemma WriteProcTrue(w: World, q: nat, fault: Fault)
    requires q in w.procs && ProcTrue(w, q, w.procs[q])
    requires Accumulates(w, WriteStep(w, q, w.procs[q], fault))
    ensures var w' := WriteStep(w, q, w.procs[q], fault);
            w'.procs.Keys == w.procs.Keys && ProcTrue(w', q, w'.procs[q])
  {
    ProcTrueKept(w, WriteStep(w, q, w.procs[q], fault), q, w.procs[q]);
    WritePcTrue(w, q, fault);
    WriteFrame(w, q, fault);
    WriteKeepsSent(w, q, fault);
  }

  lemma WritePcTrue(w: World, q: nat, fault: Fault)
    requires q in w.procs && PcTrue(w, q, w.procs[q])
    requires Accumulates(w, WriteStep(w, q, w.procs[q], fault))
    requires ProcTrue(WriteStep(w, q, w.procs[q], fault), q, w.procs[q])
    ensures var w' := WriteStep(w, q, w.procs[q], fault); PcTrue(w', q, w'.procs[q])
  {
    match w.procs[q].pc
    case WritingChat(_, _, _) =>
    case WritingMessage(_, _, _) =>
    case _ =>
  }

  lemma WriteKeepsSent(w: World, q: nat, fault: Fault)
    requires q in w.procs
    ensures forall id | id in WriteStep(w, q, w.procs[q], fault).procs[q].sent ::
      id in w.procs[q].sent && WriteStep(w, q, w.procs[q], fault).procs[q].sent[id] == w.procs[q].sent[id]
  {
    match w.procs[q].pc
    case WritingChat(_, _, _) =>
    case WritingMessage(_, _, _) =>
    case _ =>
  }

  lemma WriteKeepsTruth(w: World, q: nat, fault: Fault)
    requires TruthInv(w) && q in w.procs
    requires var w' := WriteStep(w, q, w.procs[q], fault);
             IdInv(w') && Accumulates(w, w') && OwnFrame(w, w', q, Write(fault))
    ensures TruthInv(WriteStep(w, q, w.procs[q], fault))
  {
    WriteKeepsTables(w, q, fault);
    WriteKeepsReferences(w, q, fault);
    WriteProcTrue(w, q, fault);
    ProcsKept(w, WriteStep(w, q, w.procs[q], fault), q);
  }

  lemma StepKeepsTruth(w: World, e: Event)
    requires TruthInv(w)
    ensures TruthInv(Next(w, e))
  {
    match e
    case Own(q, act) =>
      if q in w.procs && Next(w, e) != w {
        StepKeepsIds(w, e);
        StepAccumulates(w, e);
        OwnStepFrame(w, q, act);
        match act {
          case SendReturn(ok, self, stamp) => SendReturnKeepsTruth(w, q, ok, self, stamp);
          case Write(fault) => WriteKeepsTruth(w, q, fault);
          case _ => QuietStepKeepsTruth(w, q, act);
        }
      }
    case _ => OthersKeepTruth(w, e);
  }

  lemma {:induction false} TruthAlways(es: seq<Event>)
    ensures TruthInv(Exec(EMPTY, es))
  {
    if es != [] {
      TruthAlways(es[..|es| - 1]);
      StepKeepsTruth(Exec(EMPTY, es[..|es| - 1]), es[|es| - 1]);
    }
  }

  /** In every reachable state a row says 'sent' only if WhatsApp acknowledged
      a send of it with the identifier on the row, to an address a lookup
      confirmed; every chat row this path made had such a send; every message
      has its chat row; and a chat_jid that is set names an existing chat. */
  lemma WritesAreSound(es: seq<Event>)
    ensures var w := Exec(EMPTY, es);
            && (forall id :: id in w.db.outbound && w.db.outbound[id].status.Sent? ==>
                  exists a ::
                    a in w.acks && a.row == id && Some(a.waId) == w.db.outbound[id].waId && a.jid in w.confirmed)
            && (forall jid :: jid in w.made ==> jid in w.confirmed && exists a :: a in w.acks && a.jid == jid)
            && References(w)
  {
    TruthAlways(es);
    var w := Exec(EMPTY, es);
    forall id | id in w.db.outbound && w.db.outbound[id].status.Sent?
      ensures exists a :: a in w.acks && a.row == id && Some(a.waId) == w.db.outbound[id].waId && a.jid in w.confirmed
    {
      assert Delivered(w, id, w.db.outbound[id].waId);
      var a :| a in w.acks && a.row == id && w.db.outbound[id].waId == Some(a.waId);
      assert AckTrue(w, a);
    }
    forall jid | jid in w.made ensures jid in w.confirmed && exists a :: a in w.acks && a.jid == jid {
      assert Earned(w, jid);
      var a :| a in w.acks && a.jid == jid;
      assert AckTrue(w, a);
    }
  }
}
