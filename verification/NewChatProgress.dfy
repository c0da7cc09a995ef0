/** How far a new-chat row can go: how often it is sent and acknowledged, over
    every run, and what every pass over it uses up. */
module NewChatProgress {
  import opened Base
  import opened Tables
  import opened NewChatSteps
  import opened NewChatSafety
  import opened NewChatBackoff

  // ---------------------------------------------------------------- counting

  /** The event starts a send of the row, by whatever process. */
  ghost predicate Sends(w: World, e: Event, id: int) {
    && e.Own? && e.q in w.procs && e.act.SendStart?
    && w.procs[e.q].pc.Ready? && w.procs[e.q].pc.r.id == id
  }

  /** WhatsApp acknowledges a send of the row. */
  ghost predicate Acks(w: World, e: Event, id: int) {
    && e.Own? && e.q in w.procs && e.act.SendReturn? && e.act.ok
    && w.procs[e.q].pc.Sending? && w.procs[e.q].pc.r.id == id && w.procs[e.q].pc.hit.Hit?
    && w.now <= w.procs[e.q].pc.since + CALL_TIMEOUT
  }

  /** A send of the row is out, or came back with an error not yet written down. */
  predicate Open(pc: Pc, id: int) {
    (pc.Sending? && pc.r.id == id) || (pc.Marking? && pc.id == id && pc.code == SendFailed)
  }

  predicate Stamps(pc: Pc, id: int) {
    pc.Stamping? && pc.id == id
  }

  /** An open send is written down as an attempt. */
  ghost predicate Records(w: World, e: Event, id: int) {
    && e.Own? && e.q in w.procs && e.act.Write? && !e.act.fault.Refused?
    && w.procs[e.q].pc.Marking? && Open(w.procs[e.q].pc, id)
  }

  /** A process at the row crashes, or what it writes on the row does not commit. */
  ghost predicate Loses(w: World, e: Event, id: int) {
    && (e.Crash? || (e.Own? && e.act.Write? && e.act.fault.Refused?))
    && e.q in w.procs && At(w.procs[e.q].pc) == Some(id)
  }

  /** The same, of an open send: nothing on the row tells of it. */
  ghost predicate LosesSend(w: World, e: Event, id: int) {
    Loses(w, e, id) && Open(w.procs[e.q].pc, id) && (e.Own? ==> w.procs[e.q].pc.Marking?)
  }

  ghost function SendCount(es: seq<Event>, id: int): nat {
    if es == [] then 0
    else More(SendCount(es[..|es| - 1], id), Sends(Exec(EMPTY, es[..|es| - 1]), es[|es| - 1], id))
  }

  ghost function AckCount(es: seq<Event>, id: int): nat {
    if es == [] then 0
    else More(AckCount(es[..|es| - 1], id), Acks(Exec(EMPTY, es[..|es| - 1]), es[|es| - 1], id))
  }

  ghost function RecordCount(es: seq<Event>, id: int): nat {
    if es == [] then 0
    else More(RecordCount(es[..|es| - 1], id), Records(Exec(EMPTY, es[..|es| - 1]), es[|es| - 1], id))
  }

  ghost function LostSends(es: seq<Event>, id: int): nat {
    if es == [] then 0
    else More(LostSends(es[..|es| - 1], id), LosesSend(Exec(EMPTY, es[..|es| - 1]), es[|es| - 1], id))
  }

  ghost function Losses(es: seq<Event>, id: int): nat {
    if es == [] then 0
    else More(Losses(es[..|es| - 1], id), Loses(Exec(EMPTY, es[..|es| - 1]), es[|es| - 1], id))
  }

  function More(n: nat, b: bool): nat {
    if b then n + 1 else n
  }

  // ------------------------------------------------- what becomes of every send

  ghost function OpenSends(w: World, id: int): set<nat> {
    set q | q in w.procs && Open(w.procs[q].pc, id)
  }

  /** One process moved: it alone can enter or leave the open ones. */
  lemma OneOpens(w: World, w': World, q: nat, id: int)
    requires q in w.procs && w'.procs.Keys == w.procs.Keys
    requires forall p | p in w.procs && p != q :: w'.procs[p] == w.procs[p]
    ensures var before, after := Open(w.procs[q].pc, id), Open(w'.procs[q].pc, id);
      |OpenSends(w', id)| == |OpenSends(w, id)| + (if after then 1 else 0) - if before then 1 else 0
  {
    OneApart(OpenSends(w, id), OpenSends(w', id), q);
  }

  /** A step of a process opens a send, or ends one in one of three ways. */
  lemma OwnAccounts(w: World, q: nat, act: Act, id: int)
    requires q in w.procs && q in Next(w, Own(q, act)).procs
    ensures var e, pc, pc' := Own(q, act), w.procs[q].pc, Next(w, Own(q, act)).procs[q].pc;
      && (Sends(w, e, id) ==> !Open(pc, id) && Open(pc', id))
      && (Acks(w, e, id) || Records(w, e, id) || LosesSend(w, e, id) ==> Open(pc, id) && !Open(pc', id))
      && (!Sends(w, e, id) && !Acks(w, e, id) && !Records(w, e, id) && !LosesSend(w, e, id) ==>
            Open(pc', id) == Open(pc, id))
  {
    match act
    case LookupReturn(answer) => if w.procs[q].pc.Looking? { AnswerOpensNothing(w, q, answer, id); }
    case Write(fault) => WriteLetsGo(w, q, fault);
    case _ =>
  }

  lemma AnswerOpensNothing(w: World, q: nat, answer: Answer, id: int)
    requires q in w.procs && w.procs[q].pc.Looking?
    ensures !Open(AnswerStep(w, q, w.procs[q], answer).procs[q].pc, id)
  {
  }

  lemma StepAccounts(w: World, e: Event, id: int)
    ensures |OpenSends(Next(w, e), id)|
         == |OpenSends(w, id)| + (if Sends(w, e, id) then 1 else 0) - (if Acks(w, e, id) then 1 else 0)
            - (if Records(w, e, id) then 1 else 0) - if LosesSend(w, e, id) then 1 else 0
  {
    var w' := Next(w, e);
    match e
    case Own(q, act) =>
      if q in w.procs {
        OwnStepFrame(w, q, act);
        OneOpens(w, w', q, id);
        OwnAccounts(w, q, act, id);
      }
    case Crash(q) => if q in w.procs { OneOpens(w, w', q, id); }
    case _ =>
      OthersStepFrame(w, e);
      assert OpenSends(w', id) == OpenSends(w, id);
  }

  /** Every send comes to exactly one of four ends, over every run, however many
      bridges overlap: it is still open, was acknowledged, was recorded as an
      attempt, or was lost with its process or in a write that did not commit. */
  lemma {:induction false} SendsAreAccounted(es: seq<Event>, id: int)
    ensures SendCount(es, id) ==
              |OpenSends(Exec(EMPTY, es), id)| + AckCount(es, id) + RecordCount(es, id) + LostSends(es, id)
  {
    if es == [] {
      assert OpenSends(EMPTY, id) == {};
    } else {
      SendsAreAccounted(es[..|es| - 1], id);
      StepAccounts(Exec(EMPTY, es[..|es| - 1]), es[|es| - 1], id);
    }
  }

  // ------------------------------------------------------------- the account

  /** What was sent and acknowledged, by what the row shows and where the
      process at it stands: every send is an attempt, a loss, the open one or
      the one being stamped. */
  ghost predicate Account(row: OutboundRow, pc: Pc, id: int, sends: nat, acks: nat, losses: nat) {
    && row.attempts <= MAX_ATTEMPTS
    && (if Stamps(pc, id) then sends <= row.attempts + 1 + losses <= MAX_ATTEMPTS + losses && acks <= 1 + losses
        else if IdOf(pc) == Some(id) then
          sends <= row.attempts + (if Open(pc, id) then 1 else 0) + losses && acks <= losses
        else if row.status.Resolve? then sends <= row.attempts + losses && acks <= losses
        else sends <= MAX_ATTEMPTS + losses && acks <= 1 + losses)
  }

  ghost predicate Nobody(w: World, id: int) {
    forall q | q in w.procs :: At(w.procs[q].pc) != Some(id)
  }

  ghost predicate Tally(w: World, id: int, sends: nat, acks: nat, losses: nat) {
    && RowInv(w, id)
    && (if id in w.db.outbound
        then (forall q | q in w.procs && At(w.procs[q].pc) == Some(id) ::
                Account(w.db.outbound[id], w.procs[q].pc, id, sends, acks, losses))
             && (Nobody(w, id) ==> Account(w.db.outbound[id], Idle, id, sends, acks, losses))
        else Nobody(w, id) && sends == 0 && acks == 0)
  }

  lemma Places(pc: Pc, id: int)
    ensures IdOf(pc) == Some(id) || Stamps(pc, id) <==> At(pc) == Some(id)
    ensures Open(pc, id) ==> IdOf(pc) == Some(id)
  {
  }

  // -------------------------------------------------------------- other steps

  /** The row's state is as it was, but for what is not counted. */
  ghost predicate Kept(rows: Outbound, rows': Outbound, id: int) {
    && (id in rows <==> id in rows')
    && (id in rows ==>
          && rows'[id].attempts == rows[id].attempts && rows'[id].waId == rows[id].waId
          && (rows'[id].status == rows[id].status || rows'[id].status.Failed?))
  }

  /** Every process at the row is where it was. */
  ghost predicate SamePlaces(w: World, w': World, id: int) {
    && (forall q | q in w.procs && At(w.procs[q].pc) == Some(id) :: q in w'.procs && w'.procs[q] == w.procs[q])
    && (forall q | q in w'.procs && At(w'.procs[q].pc) == Some(id) :: q in w.procs && w'.procs[q] == w.procs[q])
  }

  lemma QuietStepKeepsTally(w: World, w': World, id: int, sends: nat, acks: nat, losses: nat)
    requires Tally(w, id, sends, acks, losses) && RowInv(w', id)
    requires Kept(w.db.outbound, w'.db.outbound, id) && SamePlaces(w, w', id)
    ensures Tally(w', id, sends, acks, losses)
  {
    assert Nobody(w, id) <==> Nobody(w', id);
    if id in w.db.outbound && Nobody(w, id) && w.db.outbound[id].status.Resolve? {
      assert w.db.outbound[id].attempts < MAX_ATTEMPTS;
    }
    forall q | q in w'.procs && At(w'.procs[q].pc) == Some(id) && id in w'.db.outbound
      ensures Account(w'.db.outbound[id], w'.procs[q].pc, id, sends, acks, losses)
    {
      Places(w'.procs[q].pc, id);
    }
  }

  lemma OthersAreQuiet(w: World, e: Event, id: int)
    requires !e.Own? && !Loses(w, e, id) && !(e.Enqueue? && e.id == id)
    ensures Kept(w.db.outbound, Next(w, e).db.outbound, id) && SamePlaces(w, Next(w, e), id)
  {
    OthersStepFrame(w, e);
  }

  lemma EnqueueKeepsTally(w: World, e: Event, id: int, sends: nat, acks: nat, losses: nat)
    requires Tally(w, id, sends, acks, losses) && e.Enqueue? && e.id == id
    ensures Tally(Next(w, e), id, sends, acks, losses)
  {
    OthersKeepRow(w, e, id);
  }

  // --------------------------------------------- steps of a process elsewhere

  lemma WriteKeepsRow(w: World, q: nat, fault: Fault, id: int)
    requires q in w.procs && At(w.procs[q].pc) != Some(id)
    ensures Kept(w.db.outbound, WriteStep(w, q, w.procs[q], fault).db.outbound, id)
  {
    match w.procs[q].pc
    case Marking(i, attempts, code) =>
    case Failing(i, code) =>
    case Stamping(i, writes, tries) =>
    case Pointing(i, writes, tries) =>
    case _ =>
  }

  lemma ClaimAway(w: World, q: nat, fault: Fault, id: int)
    requires q in w.procs && w.procs[q].pc.Found? && w.procs[q].pc.r.id != id
    ensures Kept(w.db.outbound, ClaimStep(w, q, w.procs[q], fault).db.outbound, id)
  {
  }

  lemma AwayKeepsRow(w: World, q: nat, act: Act, id: int)
    requires q in w.procs && At(w.procs[q].pc) != Some(id)
    ensures Kept(w.db.outbound, Next(w, Own(q, act)).db.outbound, id)
  {
    OwnStepFrame(w, q, act);
    match act
    case Claim(fault) => if w.procs[q].pc.Found? { ClaimAway(w, q, fault, id); }
    case Write(fault) => WriteKeepsRow(w, q, fault, id);
    case _ =>
  }

  lemma AwayIsQuiet(w: World, q: nat, act: Act, id: int)
    requires q in w.procs && At(w.procs[q].pc) != Some(id) && !Reads(w, Own(q, act), id)
    ensures Kept(w.db.outbound, Next(w, Own(q, act)).db.outbound, id) && SamePlaces(w, Next(w, Own(q, act)), id)
  {
    OwnStepFrame(w, q, act);
    AwayKeepsRow(w, q, act, id);
    AtComesFrom(w, q, act);
  }

  // -------------------------------------------- steps of the process at the row

  /** Only process q has moved, and nobody else is at the row. */
  ghost predicate OnlyMoved(w: World, w': World, q: nat, id: int) {
    && q in w.procs && w'.procs.Keys == w.procs.Keys
    && (forall p | p in w.procs && p != q :: w'.procs[p] == w.procs[p] && At(w.procs[p].pc) != Some(id))
  }

  lemma TallyIsAccount(w: World, q: nat, id: int, sends: nat, acks: nat, losses: nat)
    requires Tally(w, id, sends, acks, losses) && q in w.procs && Free(w, id, q) && id in w.db.outbound
    ensures Account(w.db.outbound[id], w.procs[q].pc, id, sends, acks, losses)
  {
    Places(w.procs[q].pc, id);
    if At(w.procs[q].pc) != Some(id) { assert Nobody(w, id); }
  }

  lemma AccountIsTally(w: World, w': World, q: nat, id: int, sends: nat, acks: nat, losses: nat)
    requires RowInv(w', id) && OnlyMoved(w, w', q, id) && id in w'.db.outbound
    requires Account(w'.db.outbound[id], w'.procs[q].pc, id, sends, acks, losses)
    ensures Tally(w', id, sends, acks, losses)
  {
    forall p | p in w'.procs && At(w'.procs[p].pc) == Some(id) ensures p == q {}
    Places(w'.procs[q].pc, id);
  }

  /** What a step of the process at the row makes of the account. */
  ghost predicate Accounted(w: World, e: Event, id: int, sends: nat, acks: nat, losses: nat)
    requires (e.Own? || e.Crash?) && e.q in w.procs
  {
    var w' := Next(w, e);
    && id in w'.db.outbound && e.q in w'.procs
    && Account(w'.db.outbound[id], w'.procs[e.q].pc, id,
               More(sends, Sends(w, e, id)), More(acks, Acks(w, e, id)), More(losses, Loses(w, e, id)))
  }

  /** The process is at the row, the account is right. */
  ghost predicate Keeps(w: World, q: nat, id: int, sends: nat, acks: nat, losses: nat) {
    && q in w.procs && id in w.db.outbound && At(w.procs[q].pc) == Some(id)
    && Account(w.db.outbound[id], w.procs[q].pc, id, sends, acks, losses)
    && Held(w.db.outbound, w.now / SECOND, w.procs[q].pc)
  }

  lemma PollAccounts(w: World, q: nat, id: int, sends: nat, acks: nat, losses: nat)
    requires q in w.procs && id in w.db.outbound && Reads(w, Own(q, Poll(id)), id)
    requires Account(w.db.outbound[id], w.procs[q].pc, id, sends, acks, losses)
    ensures Accounted(w, Own(q, Poll(id)), id, sends, acks, losses)
  {
  }

  lemma DecideAccounts(w: World, q: nat, id: int, sends: nat, acks: nat, losses: nat)
    requires Keeps(w, q, id, sends, acks, losses)
    ensures Accounted(w, Own(q, Decide), id, sends, acks, losses)
  {
  }

  lemma AnswerAccounts(w: World, q: nat, answer: Answer, id: int, sends: nat, acks: nat, losses: nat)
    requires Keeps(w, q, id, sends, acks, losses)
    ensures Accounted(w, Own(q, LookupReturn(answer)), id, sends, acks, losses)
  {
  }

  lemma ClaimAccounts(w: World, q: nat, fault: Fault, id: int, sends: nat, acks: nat, losses: nat)
    requires Keeps(w, q, id, sends, acks, losses)
    ensures Accounted(w, Own(q, Claim(fault)), id, sends, acks, losses)
  {
  }

  lemma SendAccounts(w: World, q: nat, id: int, sends: nat, acks: nat, losses: nat)
    requires Keeps(w, q, id, sends, acks, losses)
    ensures Accounted(w, Own(q, SendStart), id, sends, acks, losses)
  {
  }

  lemma SendReturnAccounts(w: World, q: nat, ok: bool, self: Option<string>, stamp: int, id: int, sends: nat, acks: nat,
                           losses: nat)
    requires Keeps(w, q, id, sends, acks, losses)
    ensures Accounted(w, Own(q, SendReturn(ok, self, stamp)), id, sends, acks, losses)
  {
  }

  /** A stamp takes the row out of the queue; one that does not commit is a loss. */
  lemma StampAccounts(w: World, q: nat, fault: Fault, id: int, sends: nat, acks: nat, losses: nat)
    requires Keeps(w, q, id, sends, acks, losses) && w.procs[q].pc.Stamping?
    ensures Accounted(w, Own(q, Act.Write(fault)), id, sends, acks, losses)
  {
  }

  /** An attempt pays for the open send, a failure uses up all attempts. */
  lemma MarkAccounts(w: World, q: nat, fault: Fault, id: int, sends: nat, acks: nat, losses: nat)
    requires Keeps(w, q, id, sends, acks, losses) && (w.procs[q].pc.Marking? || w.procs[q].pc.Failing?)
    ensures Accounted(w, Own(q, Act.Write(fault)), id, sends, acks, losses)
  {
  }

  lemma WriteAccounts(w: World, q: nat, fault: Fault, id: int, sends: nat, acks: nat, losses: nat)
    requires Keeps(w, q, id, sends, acks, losses)
    ensures Accounted(w, Own(q, Act.Write(fault)), id, sends, acks, losses)
  {
    match w.procs[q].pc
    case Marking(_, _, _) => MarkAccounts(w, q, fault, id, sends, acks, losses);
    case Failing(_, _) => MarkAccounts(w, q, fault, id, sends, acks, losses);
    case Stamping(_, _, _) => StampAccounts(w, q, fault, id, sends, acks, losses);
    case _ =>
  }

  lemma AtStepAccounts(w: World, q: nat, act: Act, id: int, sends: nat, acks: nat, losses: nat)
    requires Keeps(w, q, id, sends, acks, losses)
    ensures Accounted(w, Own(q, act), id, sends, acks, losses)
  {
    match act
    case Poll(i) => assert Next(w, Own(q, act)) == w;
    case Decide => DecideAccounts(w, q, id, sends, acks, losses);
    case LookupReturn(answer) => AnswerAccounts(w, q, answer, id, sends, acks, losses);
    case Claim(fault) => ClaimAccounts(w, q, fault, id, sends, acks, losses);
    case SendStart => SendAccounts(w, q, id, sends, acks, losses);
    case SendReturn(ok, self, stamp) => SendReturnAccounts(w, q, ok, self, stamp, id, sends, acks, losses);
    case Write(fault) => WriteAccounts(w, q, fault, id, sends, acks, losses);
  }

  lemma CrashAccounts(w: World, q: nat, id: int, sends: nat, acks: nat, losses: nat)
    requires Keeps(w, q, id, sends, acks, losses)
    ensures Accounted(w, Crash(q), id, sends, acks, losses)
  {
    Places(w.procs[q].pc, id);
  }

  // -------------------------------------------------------------------- a step

  lemma RowIsThere(w: World, q: nat, id: int, sends: nat, acks: nat, losses: nat)
    requires Tally(w, id, sends, acks, losses) && q in w.procs && At(w.procs[q].pc) == Some(id)
    ensures Keeps(w, q, id, sends, acks, losses) && Free(w, id, q)
  {
    Places(w.procs[q].pc, id);
  }

  lemma OwnKeepsTally(w: World, q: nat, act: Act, id: int, sends: nat, acks: nat, losses: nat)
    requires Tally(w, id, sends, acks, losses) && q in w.procs && (Reads(w, Own(q, act), id) ==> Free(w, id, q))
    ensures var e := Own(q, act);
      Tally(Next(w, e), id, More(sends, Sends(w, e, id)), More(acks, Acks(w, e, id)), More(losses, Loses(w, e, id)))
  {
    var e, w' := Own(q, act), Next(w, Own(q, act));
    OwnKeepsRow(w, q, act, id);
    if At(w.procs[q].pc) == Some(id) {
      RowIsThere(w, q, id, sends, acks, losses);
      AtStepAccounts(w, q, act, id, sends, acks, losses);
      MovedKeepsTally(w, e, id, sends, acks, losses);
    } else if Reads(w, e, id) {
      TallyIsAccount(w, q, id, sends, acks, losses);
      PollAccounts(w, q, id, sends, acks, losses);
      MovedKeepsTally(w, e, id, sends, acks, losses);
    } else {
      AwayIsQuiet(w, q, act, id);
      QuietStepKeepsTally(w, w', id, sends, acks, losses);
    }
  }

  lemma MovedKeepsTally(w: World, e: Event, id: int, sends: nat, acks: nat, losses: nat)
    requires (e.Own? || e.Crash?) && e.q in w.procs && Free(w, id, e.q) && RowInv(Next(w, e), id)
    requires Accounted(w, e, id, sends, acks, losses)
    ensures Tally(Next(w, e), id, More(sends, Sends(w, e, id)), More(acks, Acks(w, e, id)),
                  More(losses, Loses(w, e, id)))
  {
    if e.Own? { OwnStepFrame(w, e.q, e.act); }
    AccountIsTally(w, Next(w, e), e.q, id, More(sends, Sends(w, e, id)), More(acks, Acks(w, e, id)),
                   More(losses, Loses(w, e, id)));
  }

  lemma StepKeepsTally(w: World, e: Event, id: int, sends: nat, acks: nat, losses: nat)
    requires Tally(w, id, sends, acks, losses) && (Reads(w, e, id) ==> Free(w, id, e.q))
    ensures Tally(Next(w, e), id, More(sends, Sends(w, e, id)), More(acks, Acks(w, e, id)),
                  More(losses, Loses(w, e, id)))
  {
    if e.Own? {
      if e.q in w.procs { OwnKeepsTally(w, e.q, e.act, id, sends, acks, losses); }
    } else if e.Enqueue? && e.id == id {
      EnqueueKeepsTally(w, e, id, sends, acks, losses);
    } else {
      OthersKeepRow(w, e, id);
      if Loses(w, e, id) {
        RowIsThere(w, e.q, id, sends, acks, losses);
        CrashAccounts(w, e.q, id, sends, acks, losses);
        MovedKeepsTally(w, e, id, sends, acks, losses);
      } else {
        OthersAreQuiet(w, e, id);
        QuietStepKeepsTally(w, Next(w, e), id, sends, acks, losses);
      }
    }
  }

  lemma {:induction false} TallyAlways(es: seq<Event>, id: int)
    requires Exclusive(es, id)
    ensures Tally(Exec(EMPTY, es), id, SendCount(es, id), AckCount(es, id), Losses(es, id))
  {
    if es != [] {
      var front, e := es[..|es| - 1], es[|es| - 1];
      TallyAlways(front, id);
      StepKeepsTally(Exec(EMPTY, front), e, id, SendCount(front, id), AckCount(front, id), Losses(front, id));
    }
  }

  // ----------------------------------------- what the processes have on record

  /** The sends of a row among these calls. */
  function SendsIn(calls: seq<Call>, id: int): nat {
    if calls == [] then 0
    else
      var c := calls[|calls| - 1];
      More(SendsIn(calls[..|calls| - 1], id), c.SendStarted? && c.row == id)
  }

  function SendsOf(w: World, q: nat, id: int): nat {
    if q in w.procs then SendsIn(w.procs[q].calls, id) else 0
  }

  /** The sends of a row among the calls of these processes. */
  function SendsBy(w: World, qs: seq<nat>, id: int): nat {
    if qs == [] then 0 else SendsOf(w, qs[0], id) + SendsBy(w, qs[1..], id)
  }

  lemma SendsInSnoc(calls: seq<Call>, c: Call, id: int)
    ensures SendsIn(calls + [c], id) == SendsIn(calls, id) + if c.SendStarted? && c.row == id then 1 else 0
  {
    assert (calls + [c])[..|calls|] == calls;
  }

  lemma SendsOfStep(w: World, e: Event, q: nat, id: int)
    ensures SendsOf(Next(w, e), q, id) == SendsOf(w, q, id) + if Sends(w, e, id) && e.q == q then 1 else 0
  {
    if e.Own? && e.q in w.procs {
      OwnStepFrame(w, e.q, e.act);
      if e.q == q { OwnCallsStep(w, q, e.act, id); }
    } else if !e.Own? {
      OthersStepFrame(w, e);
    }
  }

  lemma OwnCallsStep(w: World, q: nat, act: Act, id: int)
    requires q in w.procs
    ensures SendsOf(Next(w, Own(q, act)), q, id) == SendsOf(w, q, id) + if Sends(w, Own(q, act), id) then 1 else 0
  {
    var p := w.procs[q];
    OwnStepFrame(w, q, act);
    match act
    case Decide =>
      if p.pc.Deciding? {
        SendsInSnoc(p.calls, Lookup(p.pc.r.id, p.pc.r.row.createdAt, p.pc.r.readAt, w.now), id);
      }
    case LookupReturn(answer) => if p.pc.Looking? { AnswerRecordsNoCall(w, q, answer); }
    case SendStart =>
      if p.pc.Ready? {
        var c := p.pc;
        SendsInSnoc(
          p.calls, SendStarted(c.r.id, c.jid, c.waId, c.r.row.createdAt, c.r.readAt, c.since, c.answeredAt, w.now), id);
      }
    case SendReturn(ok, self, stamp) => if p.pc.Sending? { SendsInSnoc(p.calls, SendReturned(p.pc.r.id, w.now), id); }
    case _ =>
  }

  lemma AnswerRecordsNoCall(w: World, q: nat, answer: Answer)
    requires q in w.procs && w.procs[q].pc.Looking?
    ensures AnswerStep(w, q, w.procs[q], answer).procs[q].calls == w.procs[q].calls
  {
  }

  lemma {:induction false} SendsByStep(w: World, e: Event, qs: seq<nat>, id: int)
    requires NoRepeats(qs)
    ensures SendsBy(Next(w, e), qs, id) == SendsBy(w, qs, id) + if Sends(w, e, id) && e.q in qs then 1 else 0
  {
    if qs != [] {
      assert forall i, j | 0 <= i < j < |qs[1..]| :: qs[1..][i] == qs[i + 1] && qs[1..][j] == qs[j + 1];
      SendsOfStep(w, e, qs[0], id);
      SendsByStep(w, e, qs[1..], id);
      assert forall i | 0 <= i < |qs[1..]| :: qs[1..][i] == qs[i + 1];
    }
  }

  /** No choice of processes has recorded more sends of a row than there were. */
  lemma {:induction false} SendsAreRecorded(es: seq<Event>, qs: seq<nat>, id: int)
    requires NoRepeats(qs)
    ensures SendsBy(Exec(EMPTY, es), qs, id) <= SendCount(es, id)
  {
    if es == [] {
      NobodySent(qs, id);
    } else {
      SendsAreRecorded(es[..|es| - 1], qs, id);
      SendsByStep(Exec(EMPTY, es[..|es| - 1]), es[|es| - 1], qs, id);
    }
  }

  lemma {:induction false} NobodySent(qs: seq<nat>, id: int)
    ensures SendsBy(EMPTY, qs, id) == 0
  {
    if qs != [] {
      NobodySent(qs[1..], id);
    }
  }

  ghost function AcksOf(w: World, id: int): set<Ack> {
    set a | a in w.acks && a.row == id
  }

  /** Only an acknowledgement of the row is one. */
  lemma AcksAre(w: World, q: nat, act: Act, id: int)
    requires q in w.procs
    ensures var w', e := Next(w, Own(q, act)), Own(q, act);
      if Acks(w, e, id) then exists a :: AcksOf(w', id) == AcksOf(w, id) + {a} else AcksOf(w', id) == AcksOf(w, id)
  {
    OwnStepFrame(w, q, act);
    match act
    case SendReturn(ok, self, stamp) =>
      if Acks(w, Own(q, act), id) {
        var c := w.procs[q].pc;
        var a := Ack(q, c.r.id, c.jid, c.waId);
        assert Next(w, Own(q, act)).acks == w.acks + {a};
        assert AcksOf(Next(w, Own(q, act)), id) == AcksOf(w, id) + {a};
      }
    case _ =>
  }

  lemma {:induction false} AcksAreCounted(es: seq<Event>, id: int)
    ensures |AcksOf(Exec(EMPTY, es), id)| <= AckCount(es, id)
  {
    if es != [] {
      var front, e := es[..|es| - 1], es[|es| - 1];
      var w := Exec(EMPTY, front);
      AcksAreCounted(front, id);
      if e.Own? {
        if e.q in w.procs { AcksAre(w, e.q, e.act, id); }
      } else {
        OthersStepFrame(w, e);
      }
    }
  }

  // -------------------------------------------------------------- the results

  /** Bridges may overlap and be replaced, claims may end any way, and writes and
      processes may fail: while no bridge reads this row when another is at it,
      all of them together send it at most five times and once more for every
      crash at it and every write of it that does not commit, and one send is
      acknowledged and one more for each of those. */
  lemma SendsAreBounded(es: seq<Event>, id: int)
    requires Exclusive(es, id)
    ensures SendCount(es, id) <= 5 + Losses(es, id) && AckCount(es, id) <= 1 + Losses(es, id)
    ensures forall qs: seq<nat> | NoRepeats(qs) :: SendsBy(Exec(EMPTY, es), qs, id) <= 5 + Losses(es, id)
    ensures |AcksOf(Exec(EMPTY, es), id)| <= 1 + Losses(es, id)
  {
    TallyAlways(es, id);
    var w := Exec(EMPTY, es);
    if q :| q in w.procs && At(w.procs[q].pc) == Some(id) {
      Places(w.procs[q].pc, id);
    }
    forall qs: seq<nat> | NoRepeats(qs) ensures SendsBy(w, qs, id) <= 5 + Losses(es, id) {
      SendsAreRecorded(es, qs, id);
    }
    AcksAreCounted(es, id);
  }

  /** No bridge reads the row while another is at it, and nothing is lost. */
  ghost predicate Steady(es: seq<Event>, id: int) {
    Exclusive(es, id) && Losses(es, id) == 0
  }

  /** So then it is sent at most five times, and acknowledged at most once. */
  lemma AtMostFiveSends(es: seq<Event>, id: int)
    requires Steady(es, id)
    ensures SendCount(es, id) <= 5 && AckCount(es, id) <= 1
    ensures forall qs: seq<nat> | NoRepeats(qs) :: SendsBy(Exec(EMPTY, es), qs, id) <= 5
    ensures forall a, b | a in AcksOf(Exec(EMPTY, es), id) && b in AcksOf(Exec(EMPTY, es), id) :: a == b
  {
    SendsAreBounded(es, id);
    var acks := AcksOf(Exec(EMPTY, es), id);
    forall a, b | a in acks && b in acks ensures a == b {
      if a != b {
        assert {a, b} <= acks && |{a, b}| == 2;
        SubsetSize({a, b}, acks);
      }
    }
  }

  /** One bridge at a time, stopped only between two rows, with every write
      committing, is such a run for every row. */
  ghost predicate OneGoodBridge(es: seq<Event>) {
    es == [] ||
    (var front, e := es[..|es| - 1], es[|es| - 1];
     var procs := Exec(EMPTY, front).procs;
     && OneGoodBridge(front) && Solo(es)
     && (e.Crash? && e.q in procs ==> procs[e.q].pc.Idle? || procs[e.q].pc.Crashed?)
     && (e.Own? && e.act.Write? ==> !e.act.fault.Refused?))
  }

  lemma {:induction false} OneGoodBridgeIsSteady(es: seq<Event>, id: int)
    requires OneGoodBridge(es)
    ensures Steady(es, id)
  {
    if es != [] {
      OneGoodBridgeIsSteady(es[..|es| - 1], id);
      SoloIsExclusive(es, id);
    }
  }
}
