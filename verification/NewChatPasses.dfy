/** What a pass over a new-chat row uses up, from reading it to being idle again. */
module NewChatPasses {
  import opened Base
  import opened Tables
  import opened Attempts
  import opened NewChatSteps
  import opened NewChatSafety
  import opened NewChatBackoff
  import opened NewChatProgress

  // ------------------------------------------------------------- on the way

  /** The identifier of the row is still to be claimed. */
  predicate Unclaimed(pc: Pc) {
    pc.Deciding? || pc.Looking? || pc.Found?
  }

  /** A pass stands here over the row: m is the row's measure when it was read.
      Until its claim the row has the identifier it was read with, or none. */
  ghost predicate Passing(w: World, q: nat, id: int, m: nat) {
    && q in w.procs && id in w.db.outbound && w.db.outbound[id].attempts <= MAX_ATTEMPTS && 0 < m
    && Measure(w.db.outbound[id]) <= m && !w.db.outbound[id].status.Pending?
    && Free(w, id, q)
    && (At(w.procs[q].pc) == Some(id)
        || ((w.procs[q].pc.Crashed? || Storing(w.procs[q].pc)) && !Live(w.db.outbound[id])))
    && (Unclaimed(w.procs[q].pc) ==> w.db.outbound[id].waId == w.procs[q].pc.r.row.waId)
  }

  /** No bridge reads the row while another is at it, and nothing is lost. */
  ghost predicate Calm(w: World, e: Event, id: int) {
    (Reads(w, e, id) ==> Free(w, id, e.q)) && !Loses(w, e, id)
  }

  /** The writes after the stamp. */
  predicate Storing(pc: Pc) {
    pc.WritingChat? || pc.WritingMessage? || pc.Pointing?
  }

  lemma OthersMeasure(w: World, e: Event, id: int)
    requires !e.Own? && id in w.db.outbound
    ensures Kept(w.db.outbound, Next(w, e).db.outbound, id)
  {
  }

  lemma EnvironmentKeepsPass(w: World, e: Event, q: nat, id: int, m: nat)
    requires Passing(w, q, id, m) && !e.Own? && Calm(w, e, id)
    ensures Passing(Next(w, e), q, id, m)
  {
    OthersStepFrame(w, e);
    OthersMeasure(w, e, id);
  }

  /** Nobody else reads the row during the pass. */
  lemma NobodyReads(w: World, e: Event, q: nat, id: int, m: nat)
    requires Passing(w, q, id, m) && e.Own? && e.q != q && Calm(w, e, id)
    ensures !Reads(w, e, id)
  {
  }

  lemma OtherProcessKeepsPass(w: World, e: Event, q: nat, id: int, m: nat)
    requires Passing(w, q, id, m) && e.Own? && e.q != q && Calm(w, e, id)
    ensures Passing(Next(w, e), q, id, m)
  {
    NobodyReads(w, e, q, id, m);
    if e.q in w.procs {
      OwnStepFrame(w, e.q, e.act);
      AwayKeepsRow(w, e.q, e.act, id);
      AtComesFrom(w, e.q, e.act);
    }
  }

  /** A step of the process that is on the pass: it goes on, or ends with less
      than it began with, unless it is a claim that was not reported as stored. */
  ghost predicate PassesOn(w': World, q: nat, id: int, m: nat, claim: bool) {
    && q in w'.procs && id in w'.db.outbound && w'.db.outbound[id].attempts <= MAX_ATTEMPTS
    && (if w'.procs[q].pc.Idle?
        then Measure(w'.db.outbound[id]) < m || (claim && Measure(w'.db.outbound[id]) <= m)
        else Passing(w', q, id, m))
  }

  lemma CallPasses(w: World, q: nat, act: Act, id: int, m: nat)
    requires Passing(w, q, id, m) && At(w.procs[q].pc) == Some(id) && !act.Write? && !act.Claim?
    ensures PassesOn(Next(w, Own(q, act)), q, id, m, false)
  {
    OwnStepFrame(w, q, act);
    AtComesFrom(w, q, act);
    if act.LookupReturn? && w.procs[q].pc.Looking? { AnswerPasses(w, q, act.answer); }
  }

  lemma AnswerPasses(w: World, q: nat, answer: Answer)
    requires q in w.procs && w.procs[q].pc.Looking?
    ensures var pc, pc' := w.procs[q].pc, AnswerStep(w, q, w.procs[q], answer).procs[q].pc;
      At(pc') == At(pc) && (Unclaimed(pc') ==> pc'.r == pc.r)
  {
  }

  /** A claim that was reported as stored ends the pass only when the row has
      left 'resolve': its identifier is as it was read, so it was none. */
  lemma ClaimPasses(w: World, q: nat, fault: Fault, id: int, m: nat)
    requires Passing(w, q, id, m) && At(w.procs[q].pc) == Some(id) && w.procs[q].pc.Found?
    requires w.db.outbound[id].waId != Some(Blank)
    ensures PassesOn(ClaimStep(w, q, w.procs[q], fault), q, id, m, !fault.Done?)
  {
  }

  lemma WritePasses(w: World, q: nat, fault: Fault, id: int, m: nat)
    requires !fault.Refused? && Passing(w, q, id, m)
    requires At(w.procs[q].pc) == Some(id) && Held(w.db.outbound, w.now / SECOND, w.procs[q].pc)
    ensures PassesOn(WriteStep(w, q, w.procs[q], fault), q, id, m, false)
  {
    match w.procs[q].pc
    case Marking(i, attempts, code) =>
    case Failing(i, code) =>
    case Stamping(i, writes, tries) =>
    case _ =>
  }

  lemma StoringPasses(w: World, q: nat, act: Act, id: int, m: nat)
    requires Passing(w, q, id, m) && Storing(w.procs[q].pc)
    ensures PassesOn(Next(w, Own(q, act)), q, id, m, false)
  {
    OwnStepFrame(w, q, act);
    AwayKeepsRow(w, q, act, id);
    if act.Write? { StoringGoesOn(w, q, act.fault); }
  }

  lemma StoringGoesOn(w: World, q: nat, fault: Fault)
    requires q in w.procs && Storing(w.procs[q].pc)
    ensures var pc := WriteStep(w, q, w.procs[q], fault).procs[q].pc; pc.Idle? || Storing(pc)
  {
  }

  lemma OwnStepPasses(w: World, q: nat, act: Act, id: int, m: nat)
    requires Passing(w, q, id, m) && RowInv(w, id) && w.db.outbound[id].waId != Some(Blank)
    requires !Loses(w, Own(q, act), id)
    ensures PassesOn(Next(w, Own(q, act)), q, id, m, act.Claim? && !act.fault.Done?)
  {
    if w.procs[q].pc.Crashed? {
      CrashedStays(w, q, act);
    } else if At(w.procs[q].pc) != Some(id) {
      StoringPasses(w, q, act, id, m);
    } else if act.Write? {
      Places(w.procs[q].pc, id);
      WritePasses(w, q, act.fault, id, m);
    } else if !act.Claim? {
      CallPasses(w, q, act, id, m);
    } else if w.procs[q].pc.Found? {
      ClaimPasses(w, q, act.fault, id, m);
    }
  }

  lemma StepPasses(w: World, e: Event, q: nat, id: int, m: nat)
    requires Passing(w, q, id, m) && RowInv(w, id) && RowMinted(w, id) && Calm(w, e, id)
    ensures PassesOn(Next(w, e), q, id, m, ClaimFails(e, q))
  {
    if e.Own? && e.q == q {
      OwnStepPasses(w, q, e.act, id, m);
    } else if e.Own? {
      OtherProcessKeepsPass(w, e, q, id, m);
    } else {
      EnvironmentKeepsPass(w, e, q, id, m);
    }
  }

  /** The event is a claim of q that was not reported as stored. */
  predicate ClaimFails(e: Event, q: nat) {
    e.Own? && e.q == q && e.act.Claim? && !e.act.fault.Done?
  }

  lemma PassBegins(w: World, q: nat, id: int)
    requires Reads(w, Own(q, Poll(id)), id) && Free(w, id, q)
    ensures id in w.db.outbound && w.db.outbound[id].attempts <= MAX_ATTEMPTS
    ensures Passing(Next(w, Own(q, Poll(id))), q, id, Measure(w.db.outbound[id]))
  {
  }

  // -------------------------------------------------------------- whole runs

  /** The states from the k-th event of a run on. */
  ghost predicate BusySince(es: seq<Event>, k: nat, q: nat)
    requires k < |es|
  {
    forall j | k < j < |es| :: q in Exec(EMPTY, es[..j]).procs && !Exec(EMPTY, es[..j]).procs[q].pc.Idle?
  }

  /** The row as the k-th event reads it, with what may still happen to it. */
  ghost predicate ReadAs(es: seq<Event>, k: nat, q: nat, id: int, m: nat)
    requires k < |es|
  {
    var w := Exec(EMPTY, es[..k]);
    && es[k] == Own(q, Poll(id)) && Reads(w, es[k], id)
    && id in w.db.outbound && w.db.outbound[id].attempts <= MAX_ATTEMPTS && m == Measure(w.db.outbound[id])
  }

  lemma {:induction false} Prefixes(es: seq<Event>, id: int, n: nat)
    requires Exclusive(es, id) && n <= |es|
    ensures Exclusive(es[..n], id) && Losses(es[..n], id) <= Losses(es, id)
    decreases |es|
  {
    if n == |es| {
      assert es[..n] == es;
    } else {
      Prefixes(es[..|es| - 1], id, n);
      assert es[..|es| - 1][..n] == es[..n];
    }
  }

  lemma PrefixStep(es: seq<Event>, n: nat)
    requires n < |es|
    ensures es[..n + 1][..n] == es[..n] && es[..n + 1][n] == es[n]
    ensures Exec(EMPTY, es[..n + 1]) == Next(Exec(EMPTY, es[..n]), es[n])
  {
    assert es[..n + 1][..n] == es[..n];
  }

  /** Where nothing is lost from the k-th event on, every step is calm. */
  lemma StepIsCalm(es: seq<Event>, id: int, k: nat, n: nat)
    requires Exclusive(es, id) && k <= n < |es| && Losses(es, id) == Losses(es[..k], id)
    ensures Exclusive(es[..n], id) && Calm(Exec(EMPTY, es[..n]), es[n], id)
  {
    Prefixes(es, id, n);
    Prefixes(es, id, n + 1);
    Prefixes(es[..n], id, k);
    assert es[..n][..k] == es[..k];
    LastIsCalm(es[..n + 1], es[..n], es[n], id);
  }

  lemma LastIsCalm(es: seq<Event>, front: seq<Event>, e: Event, id: int)
    requires es != [] && front == es[..|es| - 1] && e == es[|es| - 1]
    requires Exclusive(es, id) && Losses(es, id) <= Losses(front, id)
    ensures Calm(Exec(EMPTY, front), e, id)
  {
  }

  lemma NextOfPass(es: seq<Event>, id: int, k: nat, q: nat, n: nat, m: nat)
    requires Exclusive(es, id) && k <= n < |es| && Losses(es, id) == Losses(es[..k], id)
    requires Passing(Exec(EMPTY, es[..n]), q, id, m)
    ensures PassesOn(Exec(EMPTY, es[..n + 1]), q, id, m, ClaimFails(es[n], q))
  {
    StepIsCalm(es, id, k, n);
    PrefixStep(es, n);
    RowAlways(es[..n], id);
    IdsAlways(es[..n]);
    StepPasses(Exec(EMPTY, es[..n]), es[n], q, id, m);
  }

  lemma FirstOfPass(es: seq<Event>, k: nat, q: nat, id: int, m: nat)
    requires Exclusive(es, id) && k < |es| && Losses(es, id) == Losses(es[..k], id) && ReadAs(es, k, q, id, m)
    ensures Passing(Exec(EMPTY, es[..k + 1]), q, id, m)
  {
    StepIsCalm(es, id, k, k);
    PrefixStep(es, k);
    PassBegins(Exec(EMPTY, es[..k]), q, id);
  }

  lemma {:induction false} PassGoesOn(es: seq<Event>, k: nat, q: nat, id: int, n: nat, m: nat)
    requires Exclusive(es, id) && k < n < |es| && Losses(es, id) == Losses(es[..k], id)
    requires ReadAs(es, k, q, id, m) && BusySince(es, k, q)
    ensures Passing(Exec(EMPTY, es[..n]), q, id, m)
    decreases n
  {
    if n == k + 1 {
      FirstOfPass(es, k, q, id, m);
    } else {
      PassGoesOn(es, k, q, id, n - 1, m);
      BusyPassGoesOn(es, id, k, q, n - 1, m);
    }
  }

  lemma BusyPassGoesOn(es: seq<Event>, id: int, k: nat, q: nat, n: nat, m: nat)
    requires Exclusive(es, id) && k <= n < n + 1 < |es| && Losses(es, id) == Losses(es[..k], id)
    requires Passing(Exec(EMPTY, es[..n]), q, id, m) && BusySince(es, k, q)
    ensures Passing(Exec(EMPTY, es[..n + 1]), q, id, m)
  {
    NextOfPass(es, id, k, q, n, m);
  }

  /** While no bridge reads the row when another is at it, and nothing is lost
      during the pass: from reading a row to being idle again a process lowers
      (live, tries left) of it, unless its claim was not reported as stored;
      then it does not raise it. A claim the row refused lowers it too: the row
      had left the queue. */
  lemma EveryPassCounts(es: seq<Event>, k: nat, q: nat, id: int, m: nat)
    requires Exclusive(es, id) && k + 1 < |es| && Losses(es, id) == Losses(es[..k], id) && ReadAs(es, k, q, id, m)
    requires BusySince(es, k, q) && q in Exec(EMPTY, es).procs && Exec(EMPTY, es).procs[q].pc.Idle?
    ensures var rows, e := Exec(EMPTY, es).db.outbound, es[|es| - 1];
      && id in rows && rows[id].attempts <= MAX_ATTEMPTS
      && Measure(rows[id]) <= m && (!ClaimFails(e, q) ==> Measure(rows[id]) < m)
  {
    var n := |es| - 1;
    assert es[..n + 1] == es;
    PassGoesOn(es, k, q, id, n, m);
    NextOfPass(es, id, k, q, n, m);
  }
}
