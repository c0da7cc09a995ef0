/** What every run of the new-chat machine keeps, whatever interleaving,
    crashes, lost reports and lost sends it contains. */
module NewChatSafety {
  import opened Base
  import opened Tables
  import opened NewChatSteps

  // ----------------------------------------------------------------- frames

  /** What a step of process q leaves alone. */
  ghost predicate OwnFrame(w: World, w': World, q: nat, act: Act)
    requires q in w.procs
  {
    && w'.now == w.now && w'.procs.Keys == w.procs.Keys
    && (forall o :: o in w.procs && o != q ==> w'.procs[o] == w.procs[o])
    && w.procs[q].calls <= w'.procs[q].calls && w.procs[q].serial <= w'.procs[q].serial
    && w.confirmed <= w'.confirmed && w.acks <= w'.acks && w.db.chats.Keys <= w'.db.chats.Keys
    && (!act.SendReturn? ==> w'.acks == w.acks)
    && (!act.Write? ==> w'.made == w.made && w'.db.chats == w.db.chats && w'.db.messages == w.db.messages)
    && (!act.Write? && !act.Claim? ==> w'.db == w.db)
    && (act.Write? || act.Claim? ==> w'.procs[q].calls == w.procs[q].calls)
    && (!act.Write? && !act.SendReturn? ==> w'.procs[q].sent == w.procs[q].sent)
  }

  /** What a step that is not a process's own leaves alone. */
  ghost predicate OthersFrame(w: World, w': World) {
    && w.now <= w'.now && w'.acks == w.acks && w'.confirmed == w.confirmed && w'.made == w.made
    && w.db.chats.Keys <= w'.db.chats.Keys
    && (forall q ::
          q in w.procs ==> q in w'.procs && (w'.procs[q] == w.procs[q] || JustCrashed(w.procs[q], w'.procs[q])))
    && (forall q :: q in w'.procs && q !in w.procs ==> w'.procs[q] == FRESH_PROC)
  }

  ghost predicate JustCrashed(p: Proc, p': Proc) {
    p' == p.(pc := Crashed, lastLookup := None, sent := map[])
  }

  lemma OwnStepFrame(w: World, q: nat, act: Act)
    requires q in w.procs
    ensures OwnFrame(w, Next(w, Own(q, act)), q, act)
  {
    var p := w.procs[q];
    match act
    case Decide => if p.pc.Deciding? { DecideFrame(w, q, p.pc.r); }
    case LookupReturn(answer) => if p.pc.Looking? { AnswerFrame(w, q, answer); }
    case Claim(fault) => if p.pc.Found? { ClaimFrame(w, q, fault); }
    case Write(fault) => WriteFrame(w, q, fault);
    case SendReturn(ok, self, stamp) => if p.pc.Sending? { SendReturnFrame(w, q, ok, self, stamp); }
    case Poll(_) => StartFrame(w, q, act);
    case SendStart => StartFrame(w, q, act);
  }

  lemma StartFrame(w: World, q: nat, act: Act)
    requires q in w.procs && (act.Poll? || act.SendStart?)
    ensures OwnFrame(w, OwnStep(w, q, w.procs[q], act), q, act)
  {
  }

  lemma SendReturnFrame(w: World, q: nat, ok: bool, self: Option<string>, stamp: int)
    requires q in w.procs && w.procs[q].pc.Sending?
    ensures OwnFrame(w, SendReturnStep(w, q, w.procs[q], ok, self, stamp), q, SendReturn(ok, self, stamp))
  {
  }

  lemma DecideFrame(w: World, q: nat, r: Picked)
    requires q in w.procs
    ensures OwnFrame(w, DecideStep(w, q, w.procs[q], r), q, Decide)
  {
  }

  lemma AnswerFrame(w: World, q: nat, answer: Answer)
    requires q in w.procs && w.procs[q].pc.Looking?
    ensures OwnFrame(w, AnswerStep(w, q, w.procs[q], answer), q, LookupReturn(answer))
  {
  }

  lemma ClaimFrame(w: World, q: nat, fault: Fault)
    requires q in w.procs && w.procs[q].pc.Found?
    ensures OwnFrame(w, ClaimStep(w, q, w.procs[q], fault), q, Claim(fault))
  {
  }

  lemma WriteFrame(w: World, q: nat, fault: Fault)
    requires q in w.procs
    ensures OwnFrame(w, WriteStep(w, q, w.procs[q], fault), q, Write(fault))
  {
    match w.procs[q].pc
    case WritingChat(_, _, _) =>
    case WritingMessage(_, _, _) =>
    case _ =>
  }

  lemma OthersStepFrame(w: World, e: Event)
    requires !e.Own?
    ensures OthersFrame(w, Next(w, e))
  {
    match e
    case Crash(_) =>
    case _ =>
  }

  // ------------------------------------------------------------ identifiers

  /** Row id carries exactly this message identifier. */
  ghost predicate Bound(w: World, id: int, waId: MessageId) {
    id in w.db.outbound && w.db.outbound[id].waId == Some(waId)
  }

  ghost predicate SnapshotBound(w: World, r: Picked) {
    && r.id in w.db.outbound
    && (r.row.waId.Some? ==> Bound(w, r.id, r.row.waId.value))
  }

  ghost predicate PcBound(w: World, pc: Pc) {
    match pc
    case Deciding(r) => SnapshotBound(w, r)
    case Looking(r, _) => SnapshotBound(w, r)
    case Found(r, _, _, _, _) => SnapshotBound(w, r)
    case Ready(r, _, _, waId, _, _) => Bound(w, r.id, waId)
    case Sending(r, _, _, waId, _) => Bound(w, r.id, waId)
    case Stamping(id, writes, _) => Bound(w, id, writes.waId)
    case WritingChat(id, writes, _) => Bound(w, id, writes.waId)
    case WritingMessage(id, writes, _) => Bound(w, id, writes.waId)
    case Pointing(id, writes, _) => Bound(w, id, writes.waId)
    case _ => true
  }

  ghost predicate ProcBound(w: World, p: Proc) {
    && PcBound(w, p.pc)
    && (forall id :: id in p.sent ==> Bound(w, id, p.sent[id].waId))
    && (forall k :: 0 <= k < |p.calls| && p.calls[k].SendStarted? ==> Bound(w, p.calls[k].row, p.calls[k].waId))
  }

  /** Every identifier on a row was minted by a process that has moved on since. */
  ghost predicate RowMinted(w: World, id: int)
    requires id in w.db.outbound
  {
    var waId := w.db.outbound[id].waId;
    waId.Some? ==>
      && waId.value.Minted?
      && waId.value.process in w.procs
      && waId.value.serial < w.procs[waId.value.process].serial
  }

  /** Different rows carry different identifiers. */
  ghost predicate Distinct(rows: Outbound) {
    forall a, b | a in rows && b in rows && rows[a].waId.Some? && rows[a].waId == rows[b].waId :: a == b
  }

  ghost predicate RowsInv(w: World) {
    && (forall id :: id in w.db.outbound ==> RowMinted(w, id))
    && Distinct(w.db.outbound)
  }

  ghost predicate IdInv(w: World) {
    && RowsInv(w)
    && (forall q :: q in w.procs ==> ProcBound(w, w.procs[q]))
  }

  /** Rows never disappear, an identifier once written never changes, and no
      row goes back to 'resolve'. */
  ghost predicate Grows(w: World, w': World) {
    forall id :: id in w.db.outbound ==>
      && id in w'.db.outbound
      && (w.db.outbound[id].waId.Some? ==> w'.db.outbound[id].waId == w.db.outbound[id].waId)
      && (w'.db.outbound[id].status.Resolve? ==> w.db.outbound[id].status.Resolve?)
  }

  lemma StepGrows(w: World, e: Event)
    requires IdInv(w)
    ensures Grows(w, Next(w, e))
  {
    match e
    case Own(q, act) =>
      if q in w.procs {
        OwnStepFrame(w, q, act);
        match act {
          case Claim(fault) => if w.procs[q].pc.Found? { ClaimGrows(w, q, fault); }
          case Write(fault) => WriteGrows(w, q, fault);
          case _ =>
        }
      }
    case _ => OthersGrow(w, e);
  }

  lemma OthersGrow(w: World, e: Event)
    requires !e.Own?
    ensures Grows(w, Next(w, e))
  {
  }

  lemma ClaimGrows(w: World, q: nat, fault: Fault)
    requires q in w.procs && w.procs[q].pc.Found?
    ensures Grows(w, ClaimStep(w, q, w.procs[q], fault))
  {
  }

  lemma WriteGrows(w: World, q: nat, fault: Fault)
    requires IdInv(w) && q in w.procs
    ensures Grows(w, WriteStep(w, q, w.procs[q], fault))
  {
    assert ProcBound(w, w.procs[q]);
    match w.procs[q].pc
    case Stamping(id, writes, _) => assert Bound(w, id, writes.waId);
    case WritingChat(_, _, _) =>
    case WritingMessage(_, _, _) =>
    case _ =>
  }

  lemma BoundKept(w: World, w': World, p: Proc)
    requires Grows(w, w') && ProcBound(w, p)
    ensures ProcBound(w', p)
  {
  }

  /** No row has an identifier it did not have before, and no process forgets
      how many it has made. */
  ghost predicate NoNewIds(w: World, w': World) {
    && (forall id :: id in w'.db.outbound ==>
          w'.db.outbound[id].waId.None? || (id in w.db.outbound && w'.db.outbound[id].waId == w.db.outbound[id].waId))
    && (forall q :: q in w.procs ==> q in w'.procs && w.procs[q].serial <= w'.procs[q].serial)
  }

  lemma NoNewIdsKeepsRows(w: World, w': World)
    requires RowsInv(w) && NoNewIds(w, w')
    ensures RowsInv(w')
  {
  }

  lemma StepAddsNoIds(w: World, e: Event)
    requires IdInv(w) && !(e.Own? && e.act.Claim?)
    ensures NoNewIds(w, Next(w, e))
  {
    match e
    case Own(q, act) =>
      if q in w.procs {
        OwnStepFrame(w, q, act);
        if act.Write? { WriteAddsNoIds(w, q, act.fault); }
      }
    case _ =>
      OthersStepFrame(w, e);
      OthersAddNoIds(w, e);
  }

  lemma OthersAddNoIds(w: World, e: Event)
    requires !e.Own?
    ensures forall id :: id in Next(w, e).db.outbound ==>
              || Next(w, e).db.outbound[id].waId.None?
              || (id in w.db.outbound && Next(w, e).db.outbound[id].waId == w.db.outbound[id].waId)
  {
  }

  lemma WriteAddsNoIds(w: World, q: nat, fault: Fault)
    requires IdInv(w) && q in w.procs
    ensures var rows := WriteStep(w, q, w.procs[q], fault).db.outbound;
            forall id :: id in rows ==> id in w.db.outbound && rows[id].waId == w.db.outbound[id].waId
  {
    var p := w.procs[q];
    assert ProcBound(w, p);
    match p.pc
    case Stamping(id, writes, _) => assert Bound(w, id, writes.waId);
    case WritingChat(_, _, _) =>
    case WritingMessage(_, _, _) =>
    case _ =>
  }

  lemma ClaimKeepsRows(w: World, q: nat, fault: Fault)
    requires IdInv(w)
    ensures RowsInv(Next(w, Own(q, Claim(fault))))
  {
    var w' := Next(w, Own(q, Claim(fault)));
    if w'.db.outbound == w.db.outbound {
      NoNewIdsKeepsRows(w, w');
    } else {
      NewIdKeepsRows(w, w', q, w.procs[q].pc.r.id);
    }
  }

  lemma NewIdKeepsRows(w: World, w': World, q: nat, id: int)
    requires RowsInv(w) && q in w.procs && id in w.db.outbound
    requires w'.db.outbound == w.db.outbound[id := w.db.outbound[id].(waId := Some(Minted(q, w.procs[q].serial)))]
    requires w.procs.Keys <= w'.procs.Keys && w.procs[q].serial < w'.procs[q].serial
    requires forall o :: o in w.procs ==> w.procs[o].serial <= w'.procs[o].serial
    ensures RowsInv(w')
  {
    forall other | other in w'.db.outbound ensures RowMinted(w', other) {
      assert RowMinted(w, other);
    }
    forall other | other in w.db.outbound ensures w.db.outbound[other].waId != Some(Minted(q, w.procs[q].serial)) {
      assert RowMinted(w, other);
    }
  }

  lemma StepKeepsRows(w: World, e: Event)
    requires IdInv(w)
    ensures RowsInv(Next(w, e))
  {
    if e.Own? && e.act.Claim? {
      ClaimKeepsRows(w, e.q, e.act.fault);
    } else {
      StepAddsNoIds(w, e);
      NoNewIdsKeepsRows(w, Next(w, e));
    }
  }

  lemma StepKeepsIds(w: World, e: Event)
    requires IdInv(w)
    ensures IdInv(Next(w, e))
  {
    var w' := Next(w, e);
    StepGrows(w, e);
    StepKeepsRows(w, e);
    forall q | q in w'.procs ensures ProcBound(w', w'.procs[q]) {
      if q in w.procs { StepKeepsBound(w, e, q); }
    }
  }

  lemma StepKeepsBound(w: World, e: Event, q: nat)
    requires q in w.procs && ProcBound(w, w.procs[q]) && Grows(w, Next(w, e))
    ensures var w' := Next(w, e); q in w'.procs && ProcBound(w', w'.procs[q])
  {
    BoundKept(w, Next(w, e), w.procs[q]);
    match e
    case Own(o, act) => if o == q { OwnStepBound(w, q, act); } else if o in w.procs { OwnStepFrame(w, o, act); }
    case _ => OthersStepFrame(w, e);
  }

  lemma OwnStepBound(w: World, q: nat, act: Act)
    requires q in w.procs && ProcBound(w, w.procs[q]) && Grows(w, Next(w, Own(q, act)))
    ensures var w' := Next(w, Own(q, act)); ProcBound(w', w'.procs[q])
  {
    var p := w.procs[q];
    match act
    case Decide => if p.pc.Deciding? { DecideBound(w, q); }
    case LookupReturn(answer) => if p.pc.Looking? { AnswerBound(w, q, answer); }
    case Claim(fault) => if p.pc.Found? { ClaimBound(w, q, fault); }
    case SendReturn(ok, self, stamp) => if p.pc.Sending? { SendReturnBound(w, q, ok, self, stamp); }
    case Write(fault) => WriteStepBound(w, q, fault);
    case Poll(id) => PollBound(w, q, id);
    case SendStart => SendStartBound(w, q);
  }

  lemma PollBound(w: World, q: nat, id: int)
    requires q in w.procs && ProcBound(w, w.procs[q])
    ensures var w' := OwnStep(w, q, w.procs[q], Poll(id)); ProcBound(w', w'.procs[q])
  {
  }

  lemma SendStartBound(w: World, q: nat)
    requires q in w.procs && ProcBound(w, w.procs[q])
    ensures var w' := OwnStep(w, q, w.procs[q], SendStart); ProcBound(w', w'.procs[q])
  {
    OwnCallBound(w, w.procs[q], OwnStep(w, q, w.procs[q], SendStart).procs[q]);
  }

  lemma DecideBound(w: World, q: nat)
    requires q in w.procs && w.procs[q].pc.Deciding? && ProcBound(w, w.procs[q])
    requires Grows(w, DecideStep(w, q, w.procs[q], w.procs[q].pc.r))
    ensures var w' := DecideStep(w, q, w.procs[q], w.procs[q].pc.r); ProcBound(w', w'.procs[q])
  {
    BoundKept(w, DecideStep(w, q, w.procs[q], w.procs[q].pc.r), w.procs[q]);
  }

  lemma AnswerBound(w: World, q: nat, answer: Answer)
    requires q in w.procs && w.procs[q].pc.Looking? && ProcBound(w, w.procs[q])
    requires Grows(w, AnswerStep(w, q, w.procs[q], answer))
    ensures var w' := AnswerStep(w, q, w.procs[q], answer); ProcBound(w', w'.procs[q])
  {
    BoundKept(w, AnswerStep(w, q, w.procs[q], answer), w.procs[q]);
  }

  lemma ClaimBound(w: World, q: nat, fault: Fault)
    requires q in w.procs && w.procs[q].pc.Found? && ProcBound(w, w.procs[q])
    requires Grows(w, ClaimStep(w, q, w.procs[q], fault))
    ensures var w' := ClaimStep(w, q, w.procs[q], fault); ProcBound(w', w'.procs[q])
  {
    BoundKept(w, ClaimStep(w, q, w.procs[q], fault), w.procs[q]);
  }

  lemma SendReturnBound(w: World, q: nat, ok: bool, self: Option<string>, stamp: int)
    requires q in w.procs && w.procs[q].pc.Sending? && ProcBound(w, w.procs[q])
    requires Grows(w, SendReturnStep(w, q, w.procs[q], ok, self, stamp))
    ensures var w' := SendReturnStep(w, q, w.procs[q], ok, self, stamp); ProcBound(w', w'.procs[q])
  {
    var w' := SendReturnStep(w, q, w.procs[q], ok, self, stamp);
    BoundKept(w, w', w.procs[q]);
    OwnCallBound(w', w.procs[q], w'.procs[q]);
  }

  /** A history that grows by one call that is bound stays bound. */
  lemma OwnCallBound(w: World, p: Proc, p': Proc)
    requires ProcBound(w, p) && PcBound(w, p'.pc)
    requires |p'.calls| <= |p.calls| + 1 && p.calls <= p'.calls
    requires forall id :: id in p'.sent ==> Bound(w, id, p'.sent[id].waId)
    requires |p'.calls| > |p.calls| && p'.calls[|p.calls|].SendStarted? ==>
              Bound(w, p'.calls[|p.calls|].row, p'.calls[|p.calls|].waId)
    ensures ProcBound(w, p')
  {
  }

  lemma WriteStepBound(w: World, q: nat, fault: Fault)
    requires q in w.procs && ProcBound(w, w.procs[q]) && Grows(w, WriteStep(w, q, w.procs[q], fault))
    ensures var w' := WriteStep(w, q, w.procs[q], fault); ProcBound(w', w'.procs[q])
  {
    BoundKept(w, WriteStep(w, q, w.procs[q], fault), w.procs[q]);
    match w.procs[q].pc
    case WritingChat(_, _, _) =>
    case WritingMessage(_, _, _) =>
    case _ =>
  }

  lemma {:induction false} IdsAlways(es: seq<Event>)
    ensures IdInv(Exec(EMPTY, es))
  {
    if es != [] {
      IdsAlways(es[..|es| - 1]);
      StepKeepsIds(Exec(EMPTY, es[..|es| - 1]), es[|es| - 1]);
    }
  }

  /** At most once: over every run, two sends ever started by any processes
      carry the same identifier if and only if they are for the same row, and
      it is the identifier stored on that row. */
  lemma AtMostOnce(es: seq<Event>, p: nat, q: nat, j: nat, k: nat)
    requires p in Exec(EMPTY, es).procs && q in Exec(EMPTY, es).procs
    requires j < |Exec(EMPTY, es).procs[p].calls| && Exec(EMPTY, es).procs[p].calls[j].SendStarted?
    requires k < |Exec(EMPTY, es).procs[q].calls| && Exec(EMPTY, es).procs[q].calls[k].SendStarted?
    ensures var w := Exec(EMPTY, es);
            var s, t := w.procs[p].calls[j], w.procs[q].calls[k];
            && (s.row == t.row <==> s.waId == t.waId)
            && s.row in w.db.outbound && w.db.outbound[s.row].waId == Some(s.waId)
  {
    IdsAlways(es);
    var w := Exec(EMPTY, es);
    assert ProcBound(w, w.procs[p]) && ProcBound(w, w.procs[q]);
  }
}
