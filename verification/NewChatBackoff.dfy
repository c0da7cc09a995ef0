/** The attempts of a new-chat row: never stuck at the cap, and no closer
    together than the backoff asks, but for exactly those that a process records
    on a row which is no longer as it read it. */
module NewChatBackoff {
  import opened Base
  import opened Tables
  import opened Attempts
  import opened NewChatSteps
  import opened NewChatSafety
  import opened Text

  // ------------------------------------------------------------------ the cap

  /** The attempts a process read and is about to count on from. */
  function CountOf(pc: Pc): Option<int> {
    match pc
    case Deciding(r) => Some(r.row.attempts)
    case Looking(r, _) => Some(r.row.attempts)
    case Found(r, _, _, _, _) => Some(r.row.attempts)
    case Ready(r, _, _, _, _, _) => Some(r.row.attempts)
    case Sending(r, _, _, _, _) => Some(r.row.attempts)
    case Marking(_, attempts, _) => Some(attempts)
    case _ => None
  }

  ghost predicate CountsNatural(w: World) {
    forall q | q in w.procs && CountOf(w.procs[q].pc).Some? :: CountOf(w.procs[q].pc).value >= 0
  }

  /** A failure a process is about to record is of the retried kind when it
      counts as an attempt, and only then. */
  predicate CodeFits(pc: Pc) {
    (pc.Marking? ==> RetryCode(Some(pc.code))) && (pc.Failing? ==> !RetryCode(Some(pc.code)))
  }

  ghost predicate CodesFit(w: World) {
    forall q | q in w.procs :: CodeFits(w.procs[q].pc)
  }

  ghost predicate CapInv(w: World) {
    BelowCap(w.db.outbound) && CountsNatural(w) && CodesFit(w)
  }

  lemma WriteKeepsCap(w: World, q: nat, fault: Fault)
    requires q in w.procs && BelowCap(w.db.outbound)
    requires CountOf(w.procs[q].pc).Some? ==> CountOf(w.procs[q].pc).value >= 0
    ensures BelowCap(WriteStep(w, q, w.procs[q], fault).db.outbound)
  {
    var rows, at, some := w.db.outbound, w.now / SECOND, Jid("", Phone);
    match w.procs[q].pc
    case Marking(id, attempts, code) => StatementsKeepCap(rows, id, attempts, code, at, Blank, some);
    case Failing(id, code) => StatementsKeepCap(rows, id, 0, code, at, Blank, some);
    case Stamping(id, writes, tries) => StatementsKeepCap(rows, id, 0, Expired, at, writes.waId, some);
    case Pointing(id, writes, tries) => StatementsKeepCap(rows, id, 0, Expired, at, Blank, writes.chat.jid);
    case _ =>
  }

  /** A process counts on from what it read. */
  lemma CountsComeFrom(w: World, q: nat, act: Act)
    requires q in w.procs
    ensures var pc, w' := w.procs[q].pc, Next(w, Own(q, act));
      var count := CountOf(w'.procs[q].pc);
      || count.None? || count == CountOf(pc)
      || (act.Poll? && act.id in w.db.outbound && count == Some(w.db.outbound[act.id].attempts))
  {
    match act
    case LookupReturn(answer) => if w.procs[q].pc.Looking? { AnswerCounts(w, q, answer); }
    case Write(fault) => WriteLetsGo(w, q, fault);
    case _ =>
  }

  lemma CodesComeFrom(w: World, q: nat, act: Act)
    requires q in w.procs && CodeFits(w.procs[q].pc)
    ensures CodeFits(Next(w, Own(q, act)).procs[q].pc)
  {
    match act
    case LookupReturn(answer) => if w.procs[q].pc.Looking? { AnswerCodes(w, q, answer); }
    case Write(fault) => WriteLetsGo(w, q, fault);
    case _ =>
  }

  lemma AnswerCodes(w: World, q: nat, answer: Answer)
    requires q in w.procs && w.procs[q].pc.Looking?
    ensures CodeFits(AnswerStep(w, q, w.procs[q], answer).procs[q].pc)
  {
  }

  lemma ClaimKeepsCap(w: World, q: nat, fault: Fault)
    requires q in w.procs && w.procs[q].pc.Found? && BelowCap(w.db.outbound)
    ensures BelowCap(ClaimStep(w, q, w.procs[q], fault).db.outbound)
  {
    StatementsKeepCap(w.db.outbound, w.procs[q].pc.r.id, 0, Expired, 0, Minted(q, w.procs[q].serial), Jid("", Phone));
  }

  lemma OwnKeepsCap(w: World, q: nat, act: Act)
    requires CapInv(w) && q in w.procs
    ensures CapInv(Next(w, Own(q, act)))
  {
    var w' := Next(w, Own(q, act));
    OwnStepFrame(w, q, act);
    OwnKeepsRowsBelow(w, q, act);
    CountsComeFrom(w, q, act);
    CodesComeFrom(w, q, act);
    forall p | p in w'.procs
      ensures CodeFits(w'.procs[p].pc) && (CountOf(w'.procs[p].pc).Some? ==> CountOf(w'.procs[p].pc).value >= 0)
    {
      if p != q { assert w'.procs[p] == w.procs[p]; }
    }
  }

  lemma OwnKeepsRowsBelow(w: World, q: nat, act: Act)
    requires CapInv(w) && q in w.procs
    ensures BelowCap(Next(w, Own(q, act)).db.outbound)
  {
    OwnStepFrame(w, q, act);
    match act
    case Claim(fault) => if w.procs[q].pc.Found? { ClaimKeepsCap(w, q, fault); }
    case Write(fault) => WriteKeepsCap(w, q, fault);
    case _ =>
  }

  lemma AnswerCounts(w: World, q: nat, answer: Answer)
    requires q in w.procs && w.procs[q].pc.Looking?
    ensures var pc := AnswerStep(w, q, w.procs[q], answer).procs[q].pc;
      CountOf(pc).None? || CountOf(pc) == CountOf(w.procs[q].pc)
  {
  }

  lemma OthersKeepCap(w: World, e: Event)
    requires CapInv(w) && !e.Own?
    ensures CapInv(Next(w, e))
  {
    OthersStepFrame(w, e);
  }

  /** No row is ever stuck: whatever the interleaving, the crashes and the
      failed writes, a row that can still be sent is below the cap. */
  lemma {:induction false} NobodyIsStuck(es: seq<Event>)
    ensures CapInv(Exec(EMPTY, es))
    ensures forall id | id in Exec(EMPTY, es).db.outbound && Live(Exec(EMPTY, es).db.outbound[id]) ::
      BackoffSeconds(Exec(EMPTY, es).db.outbound[id].attempts) <= 120
  {
    if es != [] {
      var front, e := es[..|es| - 1], es[|es| - 1];
      var w := Exec(EMPTY, front);
      NobodyIsStuck(front);
      if e.Own? {
        if e.q in w.procs { OwnKeepsCap(w, e.q, e.act); }
      } else {
        OthersKeepCap(w, e);
      }
    }
  }

  // ------------------------------------------------------ one process at a row

  function IdOf(pc: Pc): Option<int> {
    match pc
    case Deciding(r) => Some(r.id)
    case Looking(r, _) => Some(r.id)
    case Found(r, _, _, _, _) => Some(r.id)
    case Ready(r, _, _, _, _, _) => Some(r.id)
    case Sending(r, _, _, _, _) => Some(r.id)
    case Marking(id, _, _) => Some(id)
    case Failing(id, _) => Some(id)
    case _ => None
  }

  /** The row a process has read and not yet written back. */
  function At(pc: Pc): Option<int> {
    if pc.Stamping? then Some(pc.id) else IdOf(pc)
  }

  /** No process but q is at the row. */
  ghost predicate Free(w: World, id: int, q: nat) {
    forall p | p in w.procs && p != q :: At(w.procs[p].pc) != Some(id)
  }

  /** The event is a process reading this row. */
  ghost predicate Reads(w: World, e: Event, id: int) {
    e.Own? && e.act == Poll(id) && Next(w, e) != w
  }

  /** Bridges may overlap and be replaced, but none reads this row while
      another is at it. */
  ghost predicate Exclusive(es: seq<Event>, id: int) {
    es == [] ||
    (var front, e := es[..|es| - 1], es[|es| - 1];
     Exclusive(front, id) && (Reads(Exec(EMPTY, front), e, id) ==> Free(Exec(EMPTY, front), id, e.q)))
  }

  /** The row a process is at: its attempts as they were read, its backoff over. */
  ghost predicate Held(rows: Outbound, seconds: int, pc: Pc) {
    IdOf(pc).Some? ==>
      var id := IdOf(pc).value;
      && id in rows && rows[id].attempts < MAX_ATTEMPTS && BackoffOver(rows[id], seconds)
      && (CountOf(pc).Some? ==> rows[id].attempts == CountOf(pc).value)
      && (pc.Failing? ==> !RetryCode(Some(pc.code)))
  }

  ghost predicate OneAt(w: World, id: int) {
    forall p, q | p in w.procs && q in w.procs && At(w.procs[p].pc) == Some(id) && At(w.procs[q].pc) == Some(id) ::
        p == q
  }

  ghost predicate AllHeld(w: World, id: int) {
    forall q | q in w.procs && IdOf(w.procs[q].pc) == Some(id) :: Held(w.db.outbound, w.now / SECOND, w.procs[q].pc)
  }

  ghost predicate RowInv(w: World, id: int) {
    CapInv(w) && OneAt(w, id) && AllHeld(w, id)
  }

  /** The record of this row, if there is one, is the same. */
  ghost predicate SameAt(rows: Outbound, rows': Outbound, id: int) {
    id in rows ==> id in rows' && SameRecord(rows[id], rows'[id])
  }

  lemma HeldStays(rows: Outbound, rows': Outbound, seconds: int, seconds': int, pc: Pc)
    requires Held(rows, seconds, pc) && (IdOf(pc).Some? ==> SameAt(rows, rows', IdOf(pc).value)) && seconds <= seconds'
    ensures Held(rows', seconds', pc)
  {
  }

  lemma OthersRecordNothing(w: World, e: Event, id: int)
    requires !e.Own?
    ensures SameAt(w.db.outbound, Next(w, e).db.outbound, id)
    ensures id in Next(w, e).db.outbound && id !in w.db.outbound ==>
      Next(w, e).db.outbound[id].lastAttempt.None? && Next(w, e).db.outbound[id].attempts == 0
  {
  }

  lemma OthersMoveNobody(w: World, w': World)
    requires OthersFrame(w, w')
    ensures forall q | q in w'.procs && At(w'.procs[q].pc).Some? :: q in w.procs && w'.procs[q] == w.procs[q]
  {
  }

  lemma OthersKeepRow(w: World, e: Event, id: int)
    requires RowInv(w, id) && !e.Own?
    ensures RowInv(Next(w, e), id)
  {
    var w' := Next(w, e);
    OthersKeepCap(w, e);
    OthersStepFrame(w, e);
    OthersRecordNothing(w, e, id);
    OthersMoveNobody(w, w');
    forall q | q in w'.procs && IdOf(w'.procs[q].pc) == Some(id)
      ensures Held(w'.db.outbound, w'.now / SECOND, w'.procs[q].pc)
    {
      HeldStays(w.db.outbound, w'.db.outbound, w.now / SECOND, w'.now / SECOND, w.procs[q].pc);
    }
  }

  /** Only a database write of a process records an attempt, and only on the
      row the process is at. */
  lemma OwnRecordsNothing(w: World, q: nat, act: Act, id: int)
    requires q in w.procs && (act.Write? ==> IdOf(w.procs[q].pc) != Some(id))
    ensures SameAt(w.db.outbound, Next(w, Own(q, act)).db.outbound, id)
  {
    OwnStepFrame(w, q, act);
    match act
    case Claim(fault) => if w.procs[q].pc.Found? { ClaimRecordsNothing(w, q, fault, id); }
    case Write(fault) => WriteRecordsNothing(w, q, fault, id);
    case _ =>
  }

  lemma ClaimRecordsNothing(w: World, q: nat, fault: Fault, id: int)
    requires q in w.procs && w.procs[q].pc.Found?
    ensures SameAt(w.db.outbound, ClaimStep(w, q, w.procs[q], fault).db.outbound, id)
  {
  }

  lemma WriteRecordsNothing(w: World, q: nat, fault: Fault, id: int)
    requires q in w.procs && IdOf(w.procs[q].pc) != Some(id)
    ensures SameAt(w.db.outbound, WriteStep(w, q, w.procs[q], fault).db.outbound, id)
  {
    match w.procs[q].pc
    case Marking(i, attempts, code) =>
    case Failing(i, code) =>
    case Stamping(i, writes, tries) =>
    case Pointing(i, writes, tries) =>
    case _ =>
  }

  lemma PollHolds(w: World, q: nat, id: int)
    requires CapInv(w) && q in w.procs && Held(w.db.outbound, w.now / SECOND, w.procs[q].pc)
    ensures var w' := Next(w, Own(q, Poll(id))); Held(w'.db.outbound, w'.now / SECOND, w'.procs[q].pc)
  {
  }

  lemma DecideHolds(w: World, q: nat)
    requires q in w.procs && w.procs[q].pc.Deciding? && Held(w.db.outbound, w.now / SECOND, w.procs[q].pc)
    ensures var w' := DecideStep(w, q, w.procs[q], w.procs[q].pc.r);
      Held(w'.db.outbound, w'.now / SECOND, w'.procs[q].pc) && At(w'.procs[q].pc) == At(w.procs[q].pc)
  {
  }

  lemma AnswerHolds(w: World, q: nat, answer: Answer)
    requires q in w.procs && w.procs[q].pc.Looking? && Held(w.db.outbound, w.now / SECOND, w.procs[q].pc)
    ensures var w' := AnswerStep(w, q, w.procs[q], answer);
      Held(w'.db.outbound, w'.now / SECOND, w'.procs[q].pc) && At(w'.procs[q].pc) == At(w.procs[q].pc)
  {
  }

  lemma ClaimHolds(w: World, q: nat, fault: Fault)
    requires q in w.procs && w.procs[q].pc.Found? && Held(w.db.outbound, w.now / SECOND, w.procs[q].pc)
    ensures var w' := ClaimStep(w, q, w.procs[q], fault);
      && Held(w'.db.outbound, w'.now / SECOND, w'.procs[q].pc)
      && (At(w'.procs[q].pc) == At(w.procs[q].pc) || At(w'.procs[q].pc) == None)
  {
  }

  lemma SendReturnHolds(w: World, q: nat, ok: bool, self: Option<string>, stamp: int)
    requires q in w.procs && w.procs[q].pc.Sending? && Held(w.db.outbound, w.now / SECOND, w.procs[q].pc)
    ensures var w' := SendReturnStep(w, q, w.procs[q], ok, self, stamp);
      Held(w'.db.outbound, w'.now / SECOND, w'.procs[q].pc) && At(w'.procs[q].pc) == At(w.procs[q].pc)
  {
  }

  lemma WriteLetsGo(w: World, q: nat, fault: Fault)
    requires q in w.procs
    ensures var pc, pc' := w.procs[q].pc, WriteStep(w, q, w.procs[q], fault).procs[q].pc;
      && (IdOf(pc').None? || WriteStep(w, q, w.procs[q], fault) == w)
      && (At(pc').None? || At(pc') == At(pc))
  {
  }

  /** What a process is at, it keeps or drops, or it has just read it. */
  lemma OwnHolds(w: World, q: nat, act: Act)
    requires CapInv(w) && q in w.procs && Held(w.db.outbound, w.now / SECOND, w.procs[q].pc)
    ensures var w' := Next(w, Own(q, act));
      && q in w'.procs && Held(w'.db.outbound, w'.now / SECOND, w'.procs[q].pc)
      && (At(w'.procs[q].pc).None? || At(w'.procs[q].pc) == At(w.procs[q].pc)
          || (act.Poll? && At(w'.procs[q].pc) == Some(act.id)))
  {
    var pc := w.procs[q].pc;
    OwnStepFrame(w, q, act);
    match act
    case Poll(id) => PollHolds(w, q, id);
    case Decide => if pc.Deciding? { DecideHolds(w, q); }
    case LookupReturn(answer) => if pc.Looking? { AnswerHolds(w, q, answer); }
    case Claim(fault) => if pc.Found? { ClaimHolds(w, q, fault); }
    case SendStart =>
    case SendReturn(ok, self, stamp) => if pc.Sending? { SendReturnHolds(w, q, ok, self, stamp); }
    case Write(fault) => WriteLetsGo(w, q, fault);
  }

  /** The same for where it is, whatever it holds. */
  lemma AtComesFrom(w: World, q: nat, act: Act)
    requires q in w.procs
    ensures var pc, pc' := w.procs[q].pc, Next(w, Own(q, act)).procs[q].pc;
      At(pc').None? || At(pc') == At(pc) || (act.Poll? && At(pc') == Some(act.id))
  {
    match act
    case Write(fault) => WriteLetsGo(w, q, fault);
    case LookupReturn(answer) => if w.procs[q].pc.Looking? { AnswerStays(w, q, answer); }
    case _ =>
  }

  lemma AnswerStays(w: World, q: nat, answer: Answer)
    requires q in w.procs && w.procs[q].pc.Looking?
    ensures At(AnswerStep(w, q, w.procs[q], answer).procs[q].pc) == At(w.procs[q].pc)
  {
  }

  lemma OwnKeepsRow(w: World, q: nat, act: Act, id: int)
    requires RowInv(w, id) && q in w.procs && (Reads(w, Own(q, act), id) ==> Free(w, id, q))
    ensures RowInv(Next(w, Own(q, act)), id)
  {
    var w' := Next(w, Own(q, act));
    OwnKeepsCap(w, q, act);
    OwnStepFrame(w, q, act);
    AtComesFrom(w, q, act);
    OwnKeepsOneAt(w, q, act, id);
    if IdOf(w'.procs[q].pc) == Some(id) {
      if IdOf(w.procs[q].pc) == Some(id) { OwnHolds(w, q, act); } else { NewlyHeld(w, q, act, id); }
    }
    forall p | p in w'.procs && p != q && IdOf(w'.procs[p].pc) == Some(id)
      ensures Held(w'.db.outbound, w'.now / SECOND, w'.procs[p].pc)
    {
      assert w'.procs[p] == w.procs[p];
      OwnRecordsNothing(w, q, act, id);
      HeldStays(w.db.outbound, w'.db.outbound, w.now / SECOND, w'.now / SECOND, w.procs[p].pc);
    }
  }

  lemma OwnKeepsOneAt(w: World, q: nat, act: Act, id: int)
    requires OneAt(w, id) && q in w.procs && (Reads(w, Own(q, act), id) ==> Free(w, id, q))
    requires OwnFrame(w, Next(w, Own(q, act)), q, act)
    ensures OneAt(Next(w, Own(q, act)), id)
  {
    AtComesFrom(w, q, act);
  }

  /** A process comes to be at a row by reading it. */
  lemma NewlyHeld(w: World, q: nat, act: Act, id: int)
    requires CapInv(w) && q in w.procs && IdOf(w.procs[q].pc) != Some(id)
    requires IdOf(Next(w, Own(q, act)).procs[q].pc) == Some(id)
    ensures var w' := Next(w, Own(q, act)); Held(w'.db.outbound, w'.now / SECOND, w'.procs[q].pc)
  {
    AtComesFrom(w, q, act);
    match act
    case Write(fault) => WriteLetsGo(w, q, fault);
    case _ =>
  }

  lemma {:induction false} RowAlways(es: seq<Event>, id: int)
    requires Exclusive(es, id)
    ensures RowInv(Exec(EMPTY, es), id)
  {
    if es != [] {
      var front, e := es[..|es| - 1], es[|es| - 1];
      var w := Exec(EMPTY, front);
      RowAlways(front, id);
      if e.Own? {
        if e.q in w.procs { OwnKeepsRow(w, e.q, e.act, id); }
      } else {
        OthersKeepRow(w, e, id);
      }
    }
  }

  // ------------------------------------------------------ one bridge at a time

  ghost predicate AllDown(w: World) {
    forall q | q in w.procs :: w.procs[q].pc.Crashed?
  }

  /** A process starts only when every other has crashed: restarts, no overlap. */
  ghost predicate Solo(es: seq<Event>) {
    es == [] || (Solo(es[..|es| - 1]) && (es[|es| - 1].Start? ==> AllDown(Exec(EMPTY, es[..|es| - 1]))))
  }

  ghost predicate OneUp(w: World) {
    forall p, q | p in w.procs && q in w.procs && !w.procs[p].pc.Crashed? && !w.procs[q].pc.Crashed? :: p == q
  }

  lemma CrashedStays(w: World, q: nat, act: Act)
    requires q in w.procs && w.procs[q].pc.Crashed?
    ensures Next(w, Own(q, act)) == w
  {
  }

  lemma StepKeepsOneUp(w: World, e: Event)
    requires OneUp(w) && (e.Start? ==> AllDown(w))
    ensures OneUp(Next(w, e))
  {
    var w' := Next(w, e);
    if e.Own? {
      if e.q in w.procs {
        if w.procs[e.q].pc.Crashed? { CrashedStays(w, e.q, e.act); } else { OwnStepFrame(w, e.q, e.act); }
      }
    } else {
      OthersStepFrame(w, e);
    }
  }

  /** Without overlap no row is ever read while another process is at it. */
  lemma {:induction false} SoloIsExclusive(es: seq<Event>, id: int)
    requires Solo(es)
    ensures OneUp(Exec(EMPTY, es)) && Exclusive(es, id)
  {
    if es != [] {
      var front, e := es[..|es| - 1], es[|es| - 1];
      var w := Exec(EMPTY, front);
      SoloIsExclusive(front, id);
      StepKeepsOneUp(w, e);
    }
  }

  // -------------------------------------------------------------- the backoff

  /** The row is still as the process read it: with its count, its backoff over. */
  predicate AsRead(row: OutboundRow, pc: Pc, seconds: int) {
    row.attempts < MAX_ATTEMPTS && BackoffOver(row, seconds) && (pc.Marking? ==> row.attempts == pc.attempts)
  }

  /** The row already shows what the process is about to record. */
  predicate Shown(row: OutboundRow, pc: Pc, seconds: int) {
    && row.lastAttempt == Some(seconds)
    && row.attempts == (if pc.Marking? then pc.attempts + 1 else MAX_ATTEMPTS)
    && (pc.Marking? && pc.attempts + 1 >= MAX_ATTEMPTS ==> row.error == Some(pc.code))
  }

  /** The process records an attempt or a failure, this second, on a row that
      is no longer as it read it. */
  ghost predicate Stale(w: World, e: Event, id: int)
    requires id in w.db.outbound
  {
    && e.Own? && e.q in w.procs && e.act.Write? && !e.act.fault.Refused?
    && (w.procs[e.q].pc.Marking? || w.procs[e.q].pc.Failing?) && w.procs[e.q].pc.id == id
    && !AsRead(w.db.outbound[id], w.procs[e.q].pc, w.now / SECOND)
    && !Shown(w.db.outbound[id], w.procs[e.q].pc, w.now / SECOND)
  }

  lemma WriteRecords(w: World, q: nat, fault: Fault, id: int)
    requires CapInv(w) && q in w.procs && id in w.db.outbound
    ensures var rows' := WriteStep(w, q, w.procs[q], fault).db.outbound;
      && id in rows'
      && (SameRecord(w.db.outbound[id], rows'[id]) || Recorded(w.db.outbound[id], rows'[id], w.now / SECOND)
          <==> !Stale(w, Own(q, Act.Write(fault)), id))
  {
    assert CodeFits(w.procs[q].pc);
    match w.procs[q].pc
    case Marking(i, attempts, code) => assert CountOf(w.procs[q].pc) == Some(attempts);
    case Failing(i, code) =>
    case Stamping(i, writes, tries) =>
    case Pointing(i, writes, tries) =>
    case _ =>
  }

  lemma StepRecords(w: World, e: Event, id: int)
    requires CapInv(w) && id in w.db.outbound
    ensures var w' := Next(w, e);
      id in w'.db.outbound
      && (SameRecord(w.db.outbound[id], w'.db.outbound[id])
          || Recorded(w.db.outbound[id], w'.db.outbound[id], w'.now / SECOND)
          <==> !Stale(w, e, id))
  {
    if e.Own? && e.q in w.procs {
      OwnStepFrame(w, e.q, e.act);
      if e.act.Write? && IdOf(w.procs[e.q].pc) == Some(id) {
        WriteRecords(w, e.q, e.act.fault, id);
      } else {
        OwnRecordsNothing(w, e.q, e.act, id);
      }
    } else if !e.Own? {
      OthersRecordNothing(w, e, id);
    }
  }

  /** Over every run: a step leaves the record of a row alone, or adds to it
      later than the last attempt by more than its backoff and counts one up
      (unless the row is failed outright), exactly when it is not a process
      writing to a row that is no longer as it read it. */
  lemma AttemptsAreApart(es: seq<Event>, e: Event, id: int)
    requires id in Exec(EMPTY, es).db.outbound
    ensures var w, w' := Exec(EMPTY, es), Next(Exec(EMPTY, es), e);
      id in w'.db.outbound
      && (SameRecord(w.db.outbound[id], w'.db.outbound[id])
          || Recorded(w.db.outbound[id], w'.db.outbound[id], w'.now / SECOND)
          <==> !Stale(w, e, id))
  {
    NobodyIsStuck(es);
    StepRecords(Exec(EMPTY, es), e, id);
  }

  /** What a process is at while nobody else is, is as it read it. */
  lemma HeldIsAsRead(w: World, e: Event, id: int)
    requires RowInv(w, id) && id in w.db.outbound
    ensures !Stale(w, e, id)
  {
    if e.Own? && e.q in w.procs && IdOf(w.procs[e.q].pc) == Some(id) {
      assert Held(w.db.outbound, w.now / SECOND, w.procs[e.q].pc);
    }
  }

  /** No step of the run writes to this row as it no longer is. */
  ghost predicate Timely(es: seq<Event>, id: int) {
    es == [] ||
    (var front, e := es[..|es| - 1], es[|es| - 1];
     Timely(front, id) && (id in Exec(EMPTY, front).db.outbound ==> !Stale(Exec(EMPTY, front), e, id)))
  }

  lemma {:induction false} ExclusiveIsTimely(es: seq<Event>, id: int)
    requires Exclusive(es, id)
    ensures Timely(es, id)
  {
    if es != [] {
      var front, e := es[..|es| - 1], es[|es| - 1];
      ExclusiveIsTimely(front, id);
      RowAlways(front, id);
      if id in Exec(EMPTY, front).db.outbound { HeldIsAsRead(Exec(EMPTY, front), e, id); }
    }
  }

  /** What overlap does, in every state: of two processes that both read the row
      with the same count, the second to record it counts nothing up, however
      much later it does. */
  lemma SecondCountsNothing(w: World, p: nat, q: nat, to: int, id: int)
    requires id in w.db.outbound && p in w.procs && q in w.procs && p != q && w.now <= to
    requires w.procs[p].pc.Marking? && w.procs[q].pc.Marking? && w.procs[p].pc.id == w.procs[q].pc.id == id
    requires w.procs[p].pc.attempts == w.procs[q].pc.attempts
    ensures var w1 := Next(w, Own(p, Act.Write(Done)));
            var w2 := Next(w1, Tick(to));
            var w3 := Next(w2, Own(q, Act.Write(Done)));
            && id in w1.db.outbound && id in w3.db.outbound
            && w1.db.outbound[id].attempts == w3.db.outbound[id].attempts == w.procs[p].pc.attempts + 1
            && w3.db.outbound[id].lastAttempt == Some(to / SECOND)
  {
    MarkWrites(w, p, id);
    var w2 := Next(Next(w, Own(p, Act.Write(Done))), Tick(to));
    assert w2.procs[q] == w.procs[q];
    MarkWrites(w2, q, id);
  }

  lemma MarkWrites(w: World, q: nat, id: int)
    requires id in w.db.outbound && q in w.procs && w.procs[q].pc.Marking? && w.procs[q].pc.id == id
    ensures var w' := Next(w, Own(q, Act.Write(Done)));
            && id in w'.db.outbound && w'.db.outbound[id].attempts == w.procs[q].pc.attempts + 1
            && w'.db.outbound[id].lastAttempt == Some(w.now / SECOND)
            && w'.now == w.now && forall o | o in w.procs && o != q :: o in w'.procs && w'.procs[o] == w.procs[o]
  {
    OwnStepFrame(w, q, Act.Write(Done));
  }

  // -------------------------------------------------------------- in all

  /** When the first attempt of a row was recorded. */
  function First(es: seq<Event>, id: int): Option<int> {
    if es == [] then None
    else if First(es[..|es| - 1], id).Some? then First(es[..|es| - 1], id)
    else
      var rows := Exec(EMPTY, es).db.outbound;
      if id in rows then rows[id].lastAttempt else None
  }

  ghost predicate RowPaced(es: seq<Event>, id: int) {
    var rows := Exec(EMPTY, es).db.outbound;
    if id in rows then Paced(rows[id], First(es, id)) else First(es, id).None?
  }

  lemma {:induction false} PacedAlways(es: seq<Event>, id: int)
    requires Timely(es, id)
    ensures RowPaced(es, id)
  {
    if es != [] {
      var front, e := es[..|es| - 1], es[|es| - 1];
      var w := Exec(EMPTY, front);
      PacedAlways(front, id);
      NobodyIsStuck(front);
      if id in w.db.outbound {
        StepRecords(w, e, id);
        RecordKeepsPace(w.db.outbound[id], Next(w, e).db.outbound[id], First(front, id), Next(w, e).now / SECOND);
      } else if id in Next(w, e).db.outbound {
        NewRows(w, e, id);
      }
    }
  }

  lemma NewRows(w: World, e: Event, id: int)
    requires id !in w.db.outbound && id in Next(w, e).db.outbound
    ensures Next(w, e).db.outbound[id].lastAttempt.None? && Next(w, e).db.outbound[id].attempts == 0
  {
    if e.Own? && e.q in w.procs {
      OwnKeepsKeys(w, e.q, e.act);
    } else if !e.Own? {
      OthersRecordNothing(w, e, id);
    }
  }

  lemma OwnKeepsKeys(w: World, q: nat, act: Act)
    requires q in w.procs
    ensures Next(w, Own(q, act)).db.outbound.Keys == w.db.outbound.Keys
  {
    match act
    case Write(fault) => WriteKeepsKeys(w, q, fault);
    case Claim(fault) => if w.procs[q].pc.Found? { ClaimKeepsKeys(w, q, fault); }
    case _ => OwnStepFrame(w, q, act);
  }

  lemma ClaimKeepsKeys(w: World, q: nat, fault: Fault)
    requires q in w.procs && w.procs[q].pc.Found?
    ensures ClaimStep(w, q, w.procs[q], fault).db.outbound.Keys == w.db.outbound.Keys
  {
  }

  lemma WriteKeepsKeys(w: World, q: nat, fault: Fault)
    requires q in w.procs
    ensures WriteStep(w, q, w.procs[q], fault).db.outbound.Keys == w.db.outbound.Keys
  {
    match w.procs[q].pc
    case Marking(i, attempts, code) =>
    case Failing(i, code) =>
    case Stamping(i, writes, tries) =>
    case Pointing(i, writes, tries) =>
    case _ =>
  }

  /** A row that used up its five attempts took more than 220 s from the first
      to the last (the 300 s of the schedule are never waited), unless one of
      them was recorded on a row that had changed. */
  lemma FiveAttemptsTakeLong(es: seq<Event>, id: int)
    requires Timely(es, id) && id in Exec(EMPTY, es).db.outbound
    ensures var row, first := Exec(EMPTY, es).db.outbound[id], First(es, id);
      && (first.None? <==> row.attempts == 0)
      && (row.attempts == MAX_ATTEMPTS && RetryCode(row.error) ==>
            first.Some? && row.lastAttempt.Some? && row.lastAttempt.value - first.value >= 10 + 30 + 60 + 120 + 4)
  {
    PacedAlways(es, id);
    Spans();
  }

  // ------------------------------------------------------------- two at a time

  const PHONE := "+525512345678"
  const QUEUED := OutboundRow(Resolve, Some(PHONE), None, Some("hola"), Some("text"), 0, None, 0, None, None, None)

  lemma GoodRow()
    ensures PlainText(QUEUED) && MexicanPhone(PHONE)
  {
    InkStays("hola");
  }

  function Rows(attempts: int, last: Option<int>): Outbound {
    map[1 := QUEUED.(attempts := attempts, lastAttempt := last)]
  }

  function TwoProcs(now: int, rows: Outbound, zero: Proc, one: Proc): World {
    World(now, Db(rows, map[], map[]), map[0 := zero, 1 := one], {}, {}, {})
  }

  /** A poll and the checks after it, for the one row of this world. */
  lemma Calls(w: World, q: nat, attempts: int, last: Option<int>)
    requires q in w.procs && w.procs[q].pc == Idle && w.procs[q].sent == map[] && GapOver(w.procs[q].lastLookup, w.now)
    requires w.db.outbound == Rows(attempts, last) && 0 <= w.now / SECOND <= 20 && 0 <= attempts < MAX_ATTEMPTS
    requires BackoffOver(w.db.outbound[1], w.now / SECOND)
    ensures var r := Picked(1, w.db.outbound[1], w.now);
      Next(Next(w, Own(q, Poll(1))), Own(q, Decide)) ==
        w.(procs := w.procs[q := w.procs[q].(pc := Looking(r, w.now), lastLookup := Some(w.now),
                                             calls := w.procs[q].calls + [Lookup(1, 0, w.now, w.now)])])
  {
    GoodRow();
    var w', r, p := Next(w, Own(q, Poll(1))), Picked(1, w.db.outbound[1], w.now), w.procs[q];
    assert IsPick(w.db.outbound, Resolve, w.now / SECOND, 1);
    assert w' == w.(procs := w.procs[q := p.(pc := Deciding(r))]);
    var p' := w'.procs[q].(
      pc := Looking(r, w.now), lastLookup := Some(w.now), calls := p.calls + [Lookup(1, 0, w.now, w.now)]);
    assert !r.Overdue() && 1 !in p.sent;
    assert DecideStep(w', q, w'.procs[q], r) == w'.(procs := w'.procs[q := p']);
    assert w'.procs[q := p'] == w.procs[q := p'];
  }

  /** The lookup fails, and the attempt is recorded. */
  lemma NoAnswers(w: World, q: nat, attempts: int, last: Option<int>)
    requires q in w.procs && w.procs[q].pc.Looking? && w.now <= w.procs[q].pc.since + CALL_TIMEOUT
    requires w.procs[q].pc.r.id == 1 && w.procs[q].pc.r.row.attempts + 1 < MAX_ATTEMPTS
    requires w.db.outbound == Rows(attempts, last)
    ensures var w' := Next(w, Own(q, LookupReturn(NoAnswer)));
      && w'.db == w.db && w'.now == w.now
      && Next(w', Own(q, Act.Write(Done))) ==
         w.(db := w.db.(outbound := Rows(w.procs[q].pc.r.row.attempts + 1, Some(w.now / SECOND))),
            procs := w.procs[q := w.procs[q].(pc := Idle)])
  {
    var p, r := w.procs[q], w.procs[q].pc.r;
    var w' := Next(w, Own(q, LookupReturn(NoAnswer)));
    assert w' == AnswerStep(w, q, p, NoAnswer);
    assert w' == w.(procs := w.procs[q := p.(pc := Marking(1, r.row.attempts, LookupFailed))]);
    assert MarkedAttempt(w.db.outbound, 1, r.row.attempts, LookupFailed, w.now / SECOND)
        == Rows(r.row.attempts + 1, Some(w.now / SECOND));
    assert w'.procs[q := p.(pc := Idle)] == w.procs[q := p.(pc := Idle)];
  }

  lemma TwoMore(es: seq<Event>, a: Event, b: Event)
    ensures Exec(EMPTY, es + [a, b]) == Next(Next(Exec(EMPTY, es), a), b)
  {
    assert es + [a, b] == es + [a] + [b];
    ExecSnoc(es, a);
    ExecSnoc(es + [a], b);
  }

  const OPENING := [Enqueue(1, Some(PHONE), None, Some("hola"), Some("text")), Start(0), Start(1)]

  lemma Opens()
    ensures Exec(EMPTY, OPENING) == TwoProcs(0, Rows(0, None), FRESH_PROC, FRESH_PROC)
  {
    var es := OPENING;
    assert es[..2] == [es[0], es[1]] && es[..2][..1] == [es[0]] && es[..1][..0] == [];
    assert Exec(EMPTY, es[..0]) == EMPTY;
    assert Exec(EMPTY, es[..1]) == EMPTY.(db := Db(Rows(0, None), map[], map[]));
    assert Exec(EMPTY, es[..2]) == Exec(EMPTY, es[..1]).(procs := map[0 := FRESH_PROC]);
  }

  /** Process q of the two goes on as p. */
  function With(now: int, rows: Outbound, zero: Proc, one: Proc, q: nat, p: Proc): World {
    TwoProcs(now, rows, if q == 0 then p else zero, if q == 1 then p else one)
  }

  function Calling(p: Proc, now: int, row: OutboundRow): Proc {
    p.(pc := Looking(Picked(1, row, now), now), lastLookup := Some(now), calls := p.calls + [Lookup(1, 0, now, now)])
  }

  lemma Looks(es: seq<Event>, now: int, attempts: int, last: Option<int>, zero: Proc, one: Proc, q: nat)
    returns (es': seq<Event>)
    requires q < 2 && Exec(EMPTY, es) == TwoProcs(now, Rows(attempts, last), zero, one)
    requires var p := if q == 0 then zero else one; p.pc == Idle && p.sent == map[] && GapOver(p.lastLookup, now)
    requires 0 <= now / SECOND <= 20 && 0 <= attempts < MAX_ATTEMPTS
            && BackoffOver(Rows(attempts, last)[1], now / SECOND)
    ensures var p := if q == 0 then zero else one;
      Exec(EMPTY, es') == With(now, Rows(attempts, last), zero, one, q, Calling(p, now, Rows(attempts, last)[1]))
  {
    var w := Exec(EMPTY, es);
    Calls(w, q, attempts, last);
    TwoMore(es, Own(q, Poll(1)), Own(q, Decide));
    es' := es + [Own(q, Poll(1)), Own(q, Decide)];
    var p := Calling(if q == 0 then zero else one, now, Rows(attempts, last)[1]);
    assert map[0 := zero, 1 := one][q := p] == map[0 := if q == 0 then p else zero, 1 := if q == 1 then p else one];
  }

  lemma Fails(es: seq<Event>, now: int, attempts: int, last: Option<int>, zero: Proc, one: Proc, q: nat)
    returns (es': seq<Event>)
    requires q < 2 && Exec(EMPTY, es) == TwoProcs(now, Rows(attempts, last), zero, one)
    requires var p := if q == 0 then zero else one;
      p.pc.Looking? && p.pc.r.id == 1 && p.pc.r.row.attempts + 1 < MAX_ATTEMPTS && now <= p.pc.since + CALL_TIMEOUT
    ensures var p := if q == 0 then zero else one;
      Exec(EMPTY, es') == With(now, Rows(p.pc.r.row.attempts + 1, Some(now / SECOND)), zero, one, q, p.(pc := Idle))
    ensures es' == es + [Own(q, LookupReturn(NoAnswer)), Own(q, Act.Write(Done))]
    ensures Exec(EMPTY, es + [Own(q, LookupReturn(NoAnswer))]).db == Exec(EMPTY, es).db
  {
    var w := Exec(EMPTY, es);
    NoAnswers(w, q, attempts, last);
    ExecSnoc(es, Own(q, LookupReturn(NoAnswer)));
    TwoMore(es, Own(q, LookupReturn(NoAnswer)), Own(q, Act.Write(Done)));
    es' := es + [Own(q, LookupReturn(NoAnswer)), Own(q, Act.Write(Done))];
    var p := (if q == 0 then zero else one).(pc := Idle);
    assert map[0 := zero, 1 := one][q := p] == map[0 := if q == 0 then p else zero, 1 := if q == 1 then p else one];
  }

  lemma Ticks(es: seq<Event>, now: int, rows: Outbound, zero: Proc, one: Proc, to: int) returns (es': seq<Event>)
    requires now <= to && Exec(EMPTY, es) == TwoProcs(now, rows, zero, one)
    ensures Exec(EMPTY, es') == TwoProcs(to, rows, zero, one)
  {
    ExecSnoc(es, Tick(to));
    es' := es + [Tick(to)];
  }

  const WAITING := Calling(FRESH_PROC, 0, QUEUED)
  const AGAIN := Calling(WAITING.(pc := Idle), 20000, QUEUED.(attempts := 1, lastAttempt := Some(0)))

  /** Both processes read the row and look its number up; one records its
      attempt and, after the backoff, looks again. */
  lemma OneRetries() returns (es: seq<Event>)
    ensures Exec(EMPTY, es) == TwoProcs(20000, Rows(1, Some(0)), AGAIN, WAITING)
  {
    Opens();
    es := Looks(OPENING, 0, 0, None, FRESH_PROC, FRESH_PROC, 0);
    es := Looks(es, 0, 0, None, WAITING, FRESH_PROC, 1);
    es := Fails(es, 0, 0, None, WAITING, WAITING, 0);
    es := Ticks(es, 0, Rows(1, Some(0)), WAITING.(pc := Idle), WAITING, 20000);
    es := Looks(es, 20000, 1, Some(0), WAITING.(pc := Idle), WAITING, 0);
  }

  /** The other records what it had read long ago; a second passes. */
  lemma BothRecord() returns (es: seq<Event>)
    ensures Exec(EMPTY, es) == TwoProcs(21000, Rows(1, Some(20)), AGAIN, WAITING.(pc := Idle))
  {
    es := OneRetries();
    es := Fails(es, 20000, 1, Some(0), AGAIN, WAITING, 1);
    es := Ticks(es, 20000, Rows(1, Some(20)), AGAIN, WAITING.(pc := Idle), 21000);
  }

  lemma StaleIsOverlap(es: seq<Event>, e: Event, id: int)
    requires id in Exec(EMPTY, es).db.outbound
    requires var w' := Next(Exec(EMPTY, es), e);
             var rows, rows', now := Exec(EMPTY, es).db.outbound, w'.db.outbound, w'.now;
             id in rows' && !SameRecord(rows[id], rows'[id]) && !Recorded(rows[id], rows'[id], now / SECOND)
    ensures Stale(Exec(EMPTY, es), e, id) && !Exclusive(es, id)
  {
    AttemptsAreApart(es, e, id);
    if Exclusive(es, id) {
      RowAlways(es, id);
      HeldIsAsRead(Exec(EMPTY, es), e, id);
    }
  }

  /** Two bridges at a time break it: the second records the attempt it had
      read long ago, and the first its next one a second later. */
  lemma OverlapBreaksBackoff() returns (es: seq<Event>, e: Event)
    ensures var rows, rows' := Exec(EMPTY, es).db.outbound, Next(Exec(EMPTY, es), e).db.outbound;
      && !Exclusive(es, 1) && 1 in rows && 1 in rows'
      && rows[1].attempts == 1 && rows[1].lastAttempt == Some(20)
      && rows'[1].attempts == 2 && rows'[1].lastAttempt == Some(21)
      && Stale(Exec(EMPTY, es), e, 1)
  {
    es := BothRecord();
    var all := Fails(es, 21000, 1, Some(20), AGAIN, WAITING.(pc := Idle), 0);
    es, e := es + [Own(0, LookupReturn(NoAnswer))], Own(0, Act.Write(Done));
    assert all == es + [e];
    ExecSnoc(es, e);
    StaleIsOverlap(es, e, 1);
  }
}
