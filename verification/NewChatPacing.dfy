/** When a new-chat process calls WhatsApp: never again for a row it sent,
    never faster than the gap, never for a row read as too old. */
module NewChatPacing {
  import opened Base
  import opened Tables
  import opened NewChatSteps
  import opened NewChatSafety
  import opened NewChatTruth

  // ------------------------------------------------------- the memory guard

  /** WhatsApp acknowledged a send of row id to process q. */
  ghost predicate AckedTo(acks: set<Ack>, q: nat, id: int) {
    exists a :: a in acks && a.process == q && a.row == id
  }

  ghost predicate PcGuarded(acks: set<Ack>, q: nat, p: Proc) {
    match p.pc
    case Deciding(r) => AckedTo(acks, q, r.id) ==> r.id in p.sent
    case Looking(r, _) => !AckedTo(acks, q, r.id)
    case Found(r, _, _, _, _) => !AckedTo(acks, q, r.id)
    case Ready(r, _, _, _, _, _) => !AckedTo(acks, q, r.id)
    case Sending(r, _, _, _, _) => !AckedTo(acks, q, r.id)
    case Marking(id, _, _) => !AckedTo(acks, q, id)
    case Failing(id, _) => !AckedTo(acks, q, id)
    case _ => true
  }

  /** A row sent by a live process is in its guard until it has left 'resolve'. */
  ghost predicate Settled(acks: set<Ack>, rows: Outbound, q: nat, p: Proc) {
    forall a :: a in acks && a.process == q && a.row !in p.sent ==> a.row in rows && !rows[a.row].status.Resolve?
  }

  ghost predicate ProcGuarded(w: World, q: nat, p: Proc) {
    !p.pc.Crashed? ==> PcGuarded(w.acks, q, p) && Settled(w.acks, w.db.outbound, q, p)
  }

  ghost predicate GuardInv(w: World) {
    TruthInv(w) && forall q :: q in w.procs ==> ProcGuarded(w, q, w.procs[q])
  }

  /** Nothing new was acknowledged to q, and p is q as it was. */
  lemma GuardKept(w: World, w': World, q: nat, p: Proc)
    requires Grows(w, w') && w.acks <= w'.acks && ProcGuarded(w, q, p)
    requires forall a :: a in w'.acks && a.process == q ==> a in w.acks
    ensures ProcGuarded(w', q, p)
  {
  }

  lemma NobodyAckedTo(w: World, q: nat)
    requires TruthInv(w) && q !in w.procs
    ensures forall a :: a in w.acks ==> a.process != q
  {
    forall a | a in w.acks ensures a.process != q { assert AckTrue(w, a); }
  }

  lemma OthersKeepGuard(w: World, e: Event)
    requires GuardInv(w) && !e.Own?
    ensures GuardInv(Next(w, e))
  {
    var w' := Next(w, e);
    StepKeepsTruth(w, e);
    StepGrows(w, e);
    OthersStepFrame(w, e);
    forall q | q in w'.procs ensures ProcGuarded(w', q, w'.procs[q]) {
      if q in w.procs { GuardKept(w, w', q, w.procs[q]); }
      else { NobodyAckedTo(w, q); }
    }
  }

  lemma OwnKeepsGuard(w: World, q: nat, act: Act)
    requires GuardInv(w) && q in w.procs
    ensures GuardInv(Next(w, Own(q, act)))
  {
    StepKeepsTruth(w, Own(q, act));
    OwnKeepsGuards(w, q, act);
  }

  lemma OwnKeepsGuards(w: World, q: nat, act: Act)
    requires IdInv(w) && q in w.procs && forall o :: o in w.procs ==> ProcGuarded(w, o, w.procs[o])
    ensures var w' := Next(w, Own(q, act)); forall o :: o in w'.procs ==> ProcGuarded(w', o, w'.procs[o])
  {
    StepGrows(w, Own(q, act));
    OwnStepFrame(w, q, act);
    AcksAreOwn(w, q, act);
    NeighboursKeepGuard(w, Next(w, Own(q, act)), q);
    OwnStepGuarded(w, q, act);
  }

  lemma NeighboursKeepGuard(w: World, w': World, q: nat)
    requires Grows(w, w') && w.acks <= w'.acks && w'.procs.Keys == w.procs.Keys
    requires forall o :: o in w.procs ==> ProcGuarded(w, o, w.procs[o])
    requires forall o :: o in w.procs && o != q ==> w'.procs[o] == w.procs[o]
    requires forall a :: a in w'.acks && a !in w.acks ==> a.process == q
    ensures forall o :: o in w'.procs && o != q ==> ProcGuarded(w', o, w'.procs[o])
  {
    forall o | o in w'.procs && o != q ensures ProcGuarded(w', o, w'.procs[o]) {
      GuardKept(w, w', o, w.procs[o]);
    }
  }

  lemma AcksAreOwn(w: World, q: nat, act: Act)
    requires q in w.procs
    ensures forall a :: a in Next(w, Own(q, act)).acks && a !in w.acks ==> a.process == q
  {
    OwnStepFrame(w, q, act);
    match act
    case SendReturn(_, _, _) =>
    case _ =>
  }

  lemma StepKeepsGuard(w: World, e: Event)
    requires GuardInv(w)
    ensures GuardInv(Next(w, e))
  {
    match e
    case Own(q, act) => if q in w.procs { OwnKeepsGuard(w, q, act); }
    case _ => OthersKeepGuard(w, e);
  }

  lemma OwnStepGuarded(w: World, q: nat, act: Act)
    requires IdInv(w) && q in w.procs && ProcGuarded(w, q, w.procs[q])
    ensures var w' := OwnStep(w, q, w.procs[q], act); ProcGuarded(w', q, w'.procs[q])
  {
    var pc := w.procs[q].pc;
    match act
    case Poll(id) => PollGuarded(w, q, id);
    case Decide => if pc.Deciding? { DecideGuarded(w, q); }
    case LookupReturn(answer) => if pc.Looking? { AnswerGuarded(w, q, answer); }
    case Claim(fault) => if pc.Found? { ClaimGuarded(w, q, fault); }
    case SendStart => SendStartGuarded(w, q);
    case SendReturn(ok, self, stamp) => if pc.Sending? { SendReturnGuarded(w, q, ok, self, stamp); }
    case Write(fault) => if !pc.Crashed? { WriteGuarded(w, q, fault); }
  }

  lemma PollGuarded(w: World, q: nat, id: int)
    requires q in w.procs && ProcGuarded(w, q, w.procs[q])
    ensures var w' := OwnStep(w, q, w.procs[q], Poll(id)); ProcGuarded(w', q, w'.procs[q])
  {
  }

  lemma SendStartGuarded(w: World, q: nat)
    requires q in w.procs && ProcGuarded(w, q, w.procs[q])
    ensures var w' := OwnStep(w, q, w.procs[q], SendStart); ProcGuarded(w', q, w'.procs[q])
  {
  }

  lemma DecideGuarded(w: World, q: nat)
    requires q in w.procs && w.procs[q].pc.Deciding? && ProcGuarded(w, q, w.procs[q])
    ensures var w' := DecideStep(w, q, w.procs[q], w.procs[q].pc.r); ProcGuarded(w', q, w'.procs[q])
  {
  }

  lemma AnswerGuarded(w: World, q: nat, answer: Answer)
    requires q in w.procs && w.procs[q].pc.Looking? && ProcGuarded(w, q, w.procs[q])
    ensures var w' := AnswerStep(w, q, w.procs[q], answer); ProcGuarded(w', q, w'.procs[q])
  {
  }

  lemma ClaimGuarded(w: World, q: nat, fault: Fault)
    requires q in w.procs && w.procs[q].pc.Found? && ProcGuarded(w, q, w.procs[q])
    ensures var w' := ClaimStep(w, q, w.procs[q], fault); ProcGuarded(w', q, w'.procs[q])
  {
  }

  lemma SendReturnGuarded(w: World, q: nat, ok: bool, self: Option<string>, stamp: int)
    requires q in w.procs && w.procs[q].pc.Sending? && ProcGuarded(w, q, w.procs[q])
    ensures var w' := SendReturnStep(w, q, w.procs[q], ok, self, stamp); ProcGuarded(w', q, w'.procs[q])
  {
  }

  lemma WriteGuarded(w: World, q: nat, fault: Fault)
    requires IdInv(w) && q in w.procs && ProcGuarded(w, q, w.procs[q]) && !w.procs[q].pc.Crashed?
    ensures var w' := WriteStep(w, q, w.procs[q], fault); ProcGuarded(w', q, w'.procs[q])
  {
    var p := w.procs[q];
    WriteGrows(w, q, fault);
    WriteFrame(w, q, fault);
    WriteLeavesNoCall(w, q, fault);
    if p.pc.Stamping? && fault.Done? {
      assert ProcBound(w, p);
      StampSticks(w, q);
    }
    WrittenGuarded(w, WriteStep(w, q, p, fault), q);
  }

  /** Between calls it is enough that what leaves the guard has left 'resolve'. */
  lemma WrittenGuarded(w: World, w': World, q: nat)
    requires q in w.procs && ProcGuarded(w, q, w.procs[q]) && !w.procs[q].pc.Crashed?
    requires q in w'.procs && w'.acks == w.acks && Grows(w, w')
    requires var p, p' := w.procs[q], w'.procs[q];
             && (p' == p || !CallsNext(p'.pc))
             && forall id ::
                 id in p.sent && id !in p'.sent ==> id in w'.db.outbound && !w'.db.outbound[id].status.Resolve?
    ensures ProcGuarded(w', q, w'.procs[q])
  {
  }

  /** The process may be about to call WhatsApp, or to record that it failed. */
  predicate CallsNext(pc: Pc) {
    pc.Deciding? || pc.Looking? || pc.Found? || pc.Ready? || pc.Sending? || pc.Marking? || pc.Failing?
  }

  /** A write leads to no lookup or send, and only a reported stamp empties the guard. */
  lemma WriteLeavesNoCall(w: World, q: nat, fault: Fault)
    requires q in w.procs && !w.procs[q].pc.Crashed?
    ensures var p, p' := w.procs[q], WriteStep(w, q, w.procs[q], fault).procs[q];
            && (p' == p || !CallsNext(p'.pc))
            && p'.sent == if p.pc.Stamping? && fault.Done? then p.sent - {p.pc.id} else p.sent
  {
    match w.procs[q].pc
    case WritingChat(_, _, _) =>
    case WritingMessage(_, _, _) =>
    case _ =>
  }

  lemma StampSticks(w: World, q: nat)
    requires q in w.procs && w.procs[q].pc.Stamping? && w.procs[q].pc.id in w.db.outbound
    ensures var id := w.procs[q].pc.id;
            var rows := Next(w, Own(q, Write(Done))).db.outbound;
            id in rows && rows[id].status.Sent?
  {
  }

  lemma {:induction false} GuardAlways(es: seq<Event>)
    ensures GuardInv(Exec(EMPTY, es))
  {
    if es != [] {
      GuardAlways(es[..|es| - 1]);
      StepKeepsGuard(Exec(EMPTY, es[..|es| - 1]), es[|es| - 1]);
    }
  }

  /** The new calls of a step are not about row id. */
  ghost predicate NoNewCall(calls: seq<Call>, calls': seq<Call>, id: int) {
    calls <= calls' && forall k | |calls| <= k < |calls'| :: calls'[k].row != id
  }

  /** The guard holds for good: once WhatsApp acknowledged a row to a process,
      no later step makes that process look the row up or send it again, and
      no step of that process fails it (so it is never EXPIRED there). */
  lemma SentRowIsLeftAlone(es: seq<Event>, e: Event, q: nat, id: int)
    requires q in Exec(EMPTY, es).procs && AckedTo(Exec(EMPTY, es).acks, q, id)
    requires !Exec(EMPTY, es).procs[q].pc.Crashed?
    ensures var w, w' := Exec(EMPTY, es), Next(Exec(EMPTY, es), e);
            && q in w'.procs && NoNewCall(w.procs[q].calls, w'.procs[q].calls, id)
            && (e.Own? && e.q == q ==> NotFailedNow(w.db.outbound, w'.db.outbound, id))
  {
    GuardAlways(es);
    var w := Exec(EMPTY, es);
    match e
    case Own(o, act) =>
      if o in w.procs {
        OwnStepFrame(w, o, act);
        if o == q {
          OwnStepCallsNobody(w, q, act, id);
          OwnStepFailsNobody(w, q, act, id);
        }
      }
    case _ => OthersStepFrame(w, e);
  }

  ghost predicate NotFailedNow(rows: Outbound, rows': Outbound, id: int) {
    id in rows && !rows[id].status.Failed? ==> id in rows' && !rows'[id].status.Failed?
  }

  lemma OwnStepCallsNobody(w: World, q: nat, act: Act, id: int)
    requires q in w.procs && ProcGuarded(w, q, w.procs[q]) && AckedTo(w.acks, q, id) && !w.procs[q].pc.Crashed?
    ensures NoNewCall(w.procs[q].calls, Next(w, Own(q, act)).procs[q].calls, id)
  {
    match act
    case Decide => if w.procs[q].pc.Deciding? { DecideLeavesAlone(w, q, id); }
    case LookupReturn(answer) => AnswerCallsNobody(w, q, answer);
    case Claim(_) => OwnStepFrame(w, q, act);
    case Write(_) => OwnStepFrame(w, q, act);
    case _ =>
  }

  lemma OwnStepFailsNobody(w: World, q: nat, act: Act, id: int)
    requires q in w.procs && ProcGuarded(w, q, w.procs[q]) && AckedTo(w.acks, q, id) && !w.procs[q].pc.Crashed?
    ensures NotFailedNow(w.db.outbound, Next(w, Own(q, act)).db.outbound, id)
  {
    OwnStepFrame(w, q, act);
    match act
    case Claim(fault) => if w.procs[q].pc.Found? { ClaimFailsNobody(w, q, fault, id); }
    case Write(fault) => WriteLeavesAlone(w, q, fault, id);
    case _ =>
  }

  lemma ClaimFailsNobody(w: World, q: nat, fault: Fault, id: int)
    requires q in w.procs && w.procs[q].pc.Found?
    ensures NotFailedNow(w.db.outbound, ClaimStep(w, q, w.procs[q], fault).db.outbound, id)
  {
  }

  lemma DecideLeavesAlone(w: World, q: nat, id: int)
    requires q in w.procs && w.procs[q].pc.Deciding? && ProcGuarded(w, q, w.procs[q]) && AckedTo(w.acks, q, id)
    ensures NoNewCall(w.procs[q].calls, DecideStep(w, q, w.procs[q], w.procs[q].pc.r).procs[q].calls, id)
  {
  }

  lemma AnswerCallsNobody(w: World, q: nat, answer: Answer)
    requires q in w.procs
    ensures Next(w, Own(q, LookupReturn(answer))).procs[q].calls == w.procs[q].calls
  {
    OwnStepFrame(w, q, LookupReturn(answer));
  }

  lemma WriteLeavesAlone(w: World, q: nat, fault: Fault, id: int)
    requires q in w.procs && ProcGuarded(w, q, w.procs[q]) && AckedTo(w.acks, q, id) && !w.procs[q].pc.Crashed?
    ensures NotFailedNow(w.db.outbound, WriteStep(w, q, w.procs[q], fault).db.outbound, id)
  {
    match w.procs[q].pc
    case WritingChat(_, _, _) =>
    case WritingMessage(_, _, _) =>
    case _ =>
  }

  // ----------------------------------------------------------------- timing

  /** One call in its place: a lookup of a row young enough when it was read;
      a send right after its own answered lookup; a return in time. */
  ghost predicate CallTimed(calls: seq<Call>, k: nat)
    requires k < |calls|
  {
    match calls[k]
    case Lookup(_, created, readAt, at) => readAt <= at && readAt / SECOND - created <= MAX_AGE
    case SendStarted(row, _, _, created, readAt, lookedAt, answeredAt, at) =>
      k > 0 && calls[k - 1] == Lookup(row, created, readAt, lookedAt)
      && lookedAt <= answeredAt <= lookedAt + CALL_TIMEOUT && answeredAt <= at
    case SendReturned(row, at) =>
      k > 0 && calls[k - 1].SendStarted? && calls[k - 1].row == row
      && calls[k - 1].at <= at <= calls[k - 1].at + CALL_TIMEOUT
  }

  ghost predicate Gapped(calls: seq<Call>) {
    forall i, j | 0 <= i < j < |calls| && calls[i].Lookup? && calls[j].Lookup? ::
      calls[j].at - calls[i].at >= MIN_GAP
  }

  ghost predicate Timed(calls: seq<Call>) {
    Gapped(calls) && forall k | 0 <= k < |calls| :: CallTimed(calls, k)
  }

  ghost predicate LastIs(calls: seq<Call>, c: Call) {
    |calls| > 0 && calls[|calls| - 1] == c
  }

  ghost predicate PcTimed(now: int, p: Proc) {
    match p.pc
    case Deciding(r) => r.readAt <= now && GapOver(p.lastLookup, now)
    case Looking(r, since) => since <= now && LastIs(p.calls, Lookup(r.id, r.row.createdAt, r.readAt, since))
    case Found(r, _, _, since, answeredAt) =>
      since <= answeredAt <= since + CALL_TIMEOUT && answeredAt <= now
      && LastIs(p.calls, Lookup(r.id, r.row.createdAt, r.readAt, since))
    case Ready(r, _, _, _, since, answeredAt) =>
      since <= answeredAt <= since + CALL_TIMEOUT && answeredAt <= now
      && LastIs(p.calls, Lookup(r.id, r.row.createdAt, r.readAt, since))
    case Sending(r, _, _, _, since) =>
      since <= now && |p.calls| > 0 && p.calls[|p.calls| - 1].SendStarted?
      && p.calls[|p.calls| - 1].row == r.id && p.calls[|p.calls| - 1].at == since
    case _ => true
  }

  /** lastLookup is the newest lookup of a live process. */
  ghost predicate ClockOk(now: int, p: Proc) {
    p.pc.Crashed?
    || ((p.lastLookup.Some? ==> p.lastLookup.value <= now)
        && forall k | 0 <= k < |p.calls| && p.calls[k].Lookup? ::
             p.lastLookup.Some? && p.calls[k].at <= p.lastLookup.value)
  }

  ghost predicate ProcTimed(now: int, p: Proc) {
    Timed(p.calls) && ClockOk(now, p) && PcTimed(now, p)
  }

  ghost predicate TimeInv(w: World) {
    forall q :: q in w.procs ==> ProcTimed(w.now, w.procs[q])
  }

  lemma AppendTimed(calls: seq<Call>, c: Call)
    requires Timed(calls) && CallTimed(calls + [c], |calls|)
    requires c.Lookup? ==> forall k | 0 <= k < |calls| && calls[k].Lookup? :: c.at - calls[k].at >= MIN_GAP
    ensures Timed(calls + [c])
  {
    forall k | 0 <= k < |calls| + 1 ensures CallTimed(calls + [c], k) {
      if k < |calls| { assert CallTimed(calls, k); }
    }
  }

  lemma OwnStepTimed(w: World, q: nat, act: Act)
    requires TimeInv(w) && q in w.procs
    ensures var w' := Next(w, Own(q, act)); ProcTimed(w'.now, w'.procs[q])
  {
    assert ProcTimed(w.now, w.procs[q]);
    match act
    case Poll(_) =>
    case Decide => if w.procs[q].pc.Deciding? { DecideTimed(w, q); }
    case LookupReturn(answer) => AnswerTimed(w, q, answer);
    case Claim(_) => assert Next(w, Own(q, act)).procs[q].calls == w.procs[q].calls;
    case SendStart => SendStartTimed(w, q);
    case SendReturn(ok, self, stamp) => SendReturnTimed(w, q, ok, self, stamp);
    case Write(fault) => WriteTimed(w, q, fault);
  }

  lemma DecideTimed(w: World, q: nat)
    requires TimeInv(w) && q in w.procs && w.procs[q].pc.Deciding?
    ensures var w' := Next(w, Own(q, Decide)); ProcTimed(w'.now, w'.procs[q])
  {
    var p := w.procs[q];
    assert ProcTimed(w.now, p);
    var r := p.pc.r;
    if r.id !in p.sent && !r.Overdue() && PlainText(r.row) && MexicanPhone(r.row.toPhone.Or("")) {
      AppendTimed(p.calls, Lookup(r.id, r.row.createdAt, r.readAt, w.now));
    }
  }

  lemma SendStartTimed(w: World, q: nat)
    requires TimeInv(w) && q in w.procs
    ensures var w' := Next(w, Own(q, SendStart)); ProcTimed(w'.now, w'.procs[q])
  {
    var p := w.procs[q];
    assert ProcTimed(w.now, p);
    if p.pc.Ready? {
      var c := p.pc;
      AppendTimed(p.calls,
                  SendStarted(c.r.id, c.jid, c.waId, c.r.row.createdAt, c.r.readAt, c.since, c.answeredAt, w.now));
    }
  }

  lemma SendReturnTimed(w: World, q: nat, ok: bool, self: Option<string>, stamp: int)
    requires TimeInv(w) && q in w.procs
    ensures var w' := Next(w, Own(q, SendReturn(ok, self, stamp))); ProcTimed(w'.now, w'.procs[q])
  {
    var p := w.procs[q];
    assert ProcTimed(w.now, p);
    if p.pc.Sending? && w.now <= p.pc.since + CALL_TIMEOUT {
      AppendTimed(p.calls, SendReturned(p.pc.r.id, w.now));
    }
  }

  lemma AnswerTimed(w: World, q: nat, answer: Answer)
    requires TimeInv(w) && q in w.procs
    ensures var w' := Next(w, Own(q, LookupReturn(answer))); ProcTimed(w'.now, w'.procs[q])
  {
    AnswerCallsNobody(w, q, answer);
    assert ProcTimed(w.now, w.procs[q]);
  }

  lemma WriteTimed(w: World, q: nat, fault: Fault)
    requires TimeInv(w) && q in w.procs
    ensures var w' := WriteStep(w, q, w.procs[q], fault); ProcTimed(w'.now, w'.procs[q])
  {
    OwnStepFrame(w, q, Write(fault));
    assert ProcTimed(w.now, w.procs[q]);
    if !w.procs[q].pc.Crashed? { WriteLeavesNoCall(w, q, fault); }
    WriteKeepsClock(w, q, fault);
  }

  lemma WriteKeepsClock(w: World, q: nat, fault: Fault)
    requires q in w.procs
    ensures var p, w' := w.procs[q], WriteStep(w, q, w.procs[q], fault);
      && w'.now == w.now && w'.procs[q].lastLookup == p.lastLookup && w'.procs[q].calls == p.calls
      && (p.pc.Crashed? <==> w'.procs[q].pc.Crashed?)
  {
    match w.procs[q].pc
    case WritingChat(_, _, _) =>
    case WritingMessage(_, _, _) =>
    case _ =>
  }

  lemma ClockMovesOn(now: int, now': int, p: Proc)
    requires now <= now' && ProcTimed(now, p)
    ensures ProcTimed(now', p)
  {
  }

  lemma StepKeepsTime(w: World, e: Event)
    requires TimeInv(w)
    ensures TimeInv(Next(w, e))
  {
    match e
    case Own(q, act) =>
      if q in w.procs {
        OwnStepFrame(w, q, act);
        OwnStepTimed(w, q, act);
      }
    case _ => OthersKeepTime(w, e);
  }

  lemma OthersKeepTime(w: World, e: Event)
    requires TimeInv(w) && !e.Own?
    ensures TimeInv(Next(w, e))
  {
    var w' := Next(w, e);
    OthersStepFrame(w, e);
    forall q | q in w'.procs ensures ProcTimed(w'.now, w'.procs[q]) {
      if q in w.procs { ClockMovesOn(w.now, w'.now, w.procs[q]); }
    }
  }

  lemma {:induction false} TimeAlways(es: seq<Event>)
    ensures TimeInv(Exec(EMPTY, es))
  {
    if es != [] {
      TimeAlways(es[..|es| - 1]);
      StepKeepsTime(Exec(EMPTY, es[..|es| - 1]), es[|es| - 1]);
    }
  }

  /** No lookup or send starts for a row read as older than 23 h, and a send that has
      returned did so within 23 h and 1 s of the row's creation, plus the two
      deadlines, plus the time the process itself took before the lookup and
      between the answer and the send (the claim). */
  lemma ExpiryBound(es: seq<Event>, q: nat, k: nat)
    requires q in Exec(EMPTY, es).procs && k < |Exec(EMPTY, es).procs[q].calls|
    ensures var calls := Exec(EMPTY, es).procs[q].calls;
            && (calls[k].Lookup? || calls[k].SendStarted? ==> calls[k].readAt / 1000 - calls[k].created <= 82_800)
            && (calls[k].SendReturned? ==>
                  k > 0 && calls[k - 1].SendStarted? && calls[k - 1].row == calls[k].row
                  && var s := calls[k - 1];
                  calls[k].at - s.created * 1000
                    < 82_801_000 + (s.lookedAt - s.readAt) + 45_000 + (s.at - s.answeredAt) + 45_000)
  {
    TimeAlways(es);
    var calls := Exec(EMPTY, es).procs[q].calls;
    assert CallTimed(calls, k);
    if calls[k].SendStarted? { assert CallTimed(calls, k - 1); }
    if calls[k].SendReturned? {
      assert CallTimed(calls, k - 1);
      assert CallTimed(calls, k - 2);
    }
  }

  // ----------------------------------------------------------------- windows

  function LookupsIn(calls: seq<Call>, from: int, to: int): nat {
    if calls == [] then 0
    else
      var c := calls[|calls| - 1];
      LookupsIn(calls[..|calls| - 1], from, to) + if c.Lookup? && from <= c.at <= to then 1 else 0
  }

  /** Sends whose own lookup went out in the window. */
  function SendsAfterLookupsIn(calls: seq<Call>, from: int, to: int): nat {
    if calls == [] then 0
    else
      var c := calls[|calls| - 1];
      SendsAfterLookupsIn(calls[..|calls| - 1], from, to) + if c.SendStarted? && from <= c.lookedAt <= to then 1 else 0
  }

  lemma TimedPrefix(calls: seq<Call>)
    requires Timed(calls) && calls != []
    ensures Timed(calls[..|calls| - 1])
  {
    var front := calls[..|calls| - 1];
    forall k | 0 <= k < |front| ensures CallTimed(front, k) { assert CallTimed(calls, k); }
  }

  /** n lookups inside a window span at least n - 1 gaps: `last` is the
      newest of them. */
  lemma {:induction false} LookupsSpan(calls: seq<Call>, from: int, to: int) returns (last: nat)
    requires Timed(calls) && LookupsIn(calls, from, to) > 0
    ensures last < |calls| && calls[last].Lookup? && from <= calls[last].at <= to
    ensures (LookupsIn(calls, from, to) - 1) * MIN_GAP <= calls[last].at - from
  {
    var n := |calls| - 1;
    TimedPrefix(calls);
    last := n;
    if LookupsIn(calls[..n], from, to) > 0 {
      var k := LookupsSpan(calls[..n], from, to);
      if calls[n].Lookup? && from <= calls[n].at <= to {
        assert calls[n].at - calls[k].at >= MIN_GAP;
      } else {
        last := k;
      }
    }
  }

  lemma {:induction false} SendsFollowLookups(calls: seq<Call>, from: int, to: int)
    requires Timed(calls)
    ensures var open :=
              if calls != [] && calls[|calls| - 1].Lookup? && from <= calls[|calls| - 1].at <= to then 1 else 0;
            SendsAfterLookupsIn(calls, from, to) + open <= LookupsIn(calls, from, to)
  {
    if calls != [] {
      var n := |calls| - 1;
      TimedPrefix(calls);
      SendsFollowLookups(calls[..n], from, to);
      assert CallTimed(calls, n);
    }
  }

  /** Pacing: in any window of length T one process makes at most
      floor(T / 20 s) + 1 lookups, and starts at most as many sends on them. */
  lemma PacingWindow(es: seq<Event>, q: nat, from: int, length: nat)
    requires q in Exec(EMPTY, es).procs
    ensures var calls := Exec(EMPTY, es).procs[q].calls;
            SendsAfterLookupsIn(calls, from, from + length) <= LookupsIn(calls, from, from + length)
            && LookupsIn(calls, from, from + length) <= length / 20_000 + 1
  {
    TimeAlways(es);
    var calls := Exec(EMPTY, es).procs[q].calls;
    assert ProcTimed(Exec(EMPTY, es).now, Exec(EMPTY, es).procs[q]);
    SendsFollowLookups(calls, from, from + length);
    if LookupsIn(calls, from, from + length) > 0 { var _ := LookupsSpan(calls, from, from + length); }
  }
}
