/** What edits, deletes and delivery receipts do to one stored message over
    any sequence of them, including the repeats of storeRetry. */
module MessageHistory {
  import opened Base
  import opened Tables
  import opened Inbox

  // ------------------------------------------------------- edits and deletes

  datatype RowOp = EditTo(body: Option<string>, at: int) | RevokeAt(at: int)

  function Done1(m: MessageRow, op: RowOp): MessageRow {
    match op
    case EditTo(body, at) => EditedRow(m, body, at)
    case RevokeAt(at) => RevokedRow(m, at)
  }

  function DoneAll(m: MessageRow, ops: seq<RowOp>): MessageRow {
    if ops == [] then m else Done1(DoneAll(m, ops[..|ops| - 1]), ops[|ops| - 1])
  }

  /** Every text the message has had, oldest first. */
  function Texts(m: MessageRow, ops: seq<RowOp>): seq<Option<string>>
    ensures |Texts(m, ops)| > 0
  {
    if ops == [] then [m.body]
    else
      var op := ops[|ops| - 1];
      Texts(m, ops[..|ops| - 1]) + if op.EditTo? then [op.body] else []
  }

  function FirstText(texts: seq<Option<string>>): Option<string> {
    if texts == [] then None else Coalesce(texts[0], FirstText(texts[1..]))
  }

  function FirstRevoke(ops: seq<RowOp>): Option<int> {
    if ops == [] then None
    else if ops[0].RevokeAt? then Some(ops[0].at) else FirstRevoke(ops[1..])
  }

  function LastEdit(ops: seq<RowOp>): Option<int> {
    if ops == [] then None
    else if ops[|ops| - 1].EditTo? then Some(ops[|ops| - 1].at) else LastEdit(ops[..|ops| - 1])
  }

  lemma {:induction false} FirstTextSnoc(texts: seq<Option<string>>, t: Option<string>)
    ensures FirstText(texts + [t]) == Coalesce(FirstText(texts), t)
  {
    if texts == [] {
      assert [t][1..] == [];
    } else {
      FirstTextSnoc(texts[1..], t);
      assert (texts + [t])[1..] == texts[1..] + [t];
    }
  }

  lemma {:induction false} FirstRevokeSnoc(ops: seq<RowOp>, op: RowOp)
    ensures FirstRevoke(ops + [op]) == Coalesce(FirstRevoke(ops), if op.RevokeAt? then Some(op.at) else None)
  {
    if ops == [] {
      assert [op][1..] == [];
    } else {
      FirstRevokeSnoc(ops[1..], op);
      assert (ops + [op])[1..] == ops[1..] + [op];
    }
  }

  /** What the history of operations says of the row they leave. */
  ghost predicate IsHistory(m: MessageRow, ops: seq<RowOp>, r: MessageRow, texts: seq<Option<string>>)
    requires texts != []
  {
    && r.body == texts[|texts| - 1]
    && r.originalBody == Coalesce(m.originalBody, FirstText(texts[..|texts| - 1]))
    && r.revokedAt == Coalesce(m.revokedAt, FirstRevoke(ops))
    && r.editedAt == (if LastEdit(ops).Some? then LastEdit(ops) else m.editedAt)
    && r.(body := m.body, originalBody := m.originalBody, revokedAt := m.revokedAt, editedAt := m.editedAt) == m
  }

  lemma EditGoesOn(m: MessageRow, ops: seq<RowOp>, op: RowOp, r: MessageRow, texts: seq<Option<string>>)
    requires texts != [] && IsHistory(m, ops, r, texts)
    ensures IsHistory(m, ops + [op], Done1(r, op), texts + if op.EditTo? then [op.body] else [])
  {
    FirstRevokeSnoc(ops, op);
    assert (ops + [op])[..|ops|] == ops;
    var n := |texts| - 1;
    if op.EditTo? {
      var all := texts + [op.body];
      assert all[..|all| - 1] == texts == texts[..n] + [texts[n]];
      FirstTextSnoc(texts[..n], texts[n]);
    } else {
      assert texts + [] == texts;
    }
  }

  /** Edit history: the body is the newest text; original_body is the first
      non-NULL text that an edit replaced; edited_at is the last edit and
      revoked_at the first delete; everything else stays. */
  lemma {:induction false} EditHistory(m: MessageRow, ops: seq<RowOp>)
    ensures IsHistory(m, ops, DoneAll(m, ops), Texts(m, ops))
  {
    if ops == [] {
      assert Texts(m, ops)[..0] == [];
    } else {
      var front, op := ops[..|ops| - 1], ops[|ops| - 1];
      EditHistory(m, front);
      EditGoesOn(m, front, op, DoneAll(m, front), Texts(m, front));
      assert front + [op] == ops;
    }
  }

  /** storeRetry applies an edit again after a commit that reported an error:
      both texts stay as the first application left them exactly when the edit
      replaced a text, an earlier original was kept, or the new text is NULL. */
  lemma RetriedEdit(m: MessageRow, newBody: Option<string>, at: int, again: int)
    ensures var once := EditedRow(m, newBody, at);
            var twice := EditedRow(once, newBody, again);
            twice.body == once.body
            && (twice.originalBody == once.originalBody <==> m.originalBody.Some? || m.body.Some? || newBody.None?)
  {
  }

  /** A retried delete changes nothing at all. */
  lemma RetriedRevoke(m: MessageRow, at: int, again: int)
    ensures RevokedRow(RevokedRow(m, at), again) == RevokedRow(m, at)
  {
  }

  /** One statement that some event, or a retry of it, sent to the table. */
  datatype Attempt = Attempt(target: MessageId, chats: seq<Jid>, fromMe: bool, isGroup: bool, op: RowOp, fault: Fault)

  predicate Permitted(messages: Messages, a: Attempt) {
    if a.op.EditTo? then MayEdit(messages, a.target, a.chats, a.fromMe)
    else MayRevoke(messages, a.target, a.chats, a.fromMe, a.isGroup)
  }

  function Attempted(messages: Messages, a: Attempt): Messages {
    if Permitted(messages, a) && !a.fault.Refused?
    then messages[a.target := Done1(messages[a.target], a.op)] else messages
  }

  function AfterAttempts(messages: Messages, attempts: seq<Attempt>): Messages {
    if attempts == [] then messages
    else Attempted(AfterAttempts(messages, attempts[..|attempts| - 1]), attempts[|attempts| - 1])
  }

  /** The committed operations on one message that its first row permits. */
  function OpsOn(messages: Messages, id: MessageId, attempts: seq<Attempt>): seq<RowOp> {
    if attempts == [] then []
    else
      var a := attempts[|attempts| - 1];
      OpsOn(messages, id, attempts[..|attempts| - 1])
        + if a.target == id && Permitted(messages, a) && !a.fault.Refused? then [a.op] else []
  }

  /** Chat and side decide what is permitted, and no operation changes them. */
  lemma PermittedStays(messages: Messages, before: Messages, a: Attempt)
    requires before.Keys == messages.Keys
    requires forall id | id in messages ::
              before[id].chat == messages[id].chat && before[id].fromMe == messages[id].fromMe
    ensures Permitted(before, a) == Permitted(messages, a)
  {
  }

  lemma DoneSnoc(m: MessageRow, ops: seq<RowOp>, op: RowOp)
    ensures DoneAll(m, ops + [op]) == Done1(DoneAll(m, ops), op)
  {
    assert (ops + [op])[..|ops|] == ops;
  }

  /** Over any interleaving of edits, deletes and retries from both sides, with
      any of them lost: no row comes or goes, and each row is the history of
      the operations its author was permitted. */
  lemma {:induction false} AttemptsAreHistories(messages: Messages, attempts: seq<Attempt>)
    ensures var after := AfterAttempts(messages, attempts);
            after.Keys == messages.Keys
            && forall id :: id in messages ==> after[id] == DoneAll(messages[id], OpsOn(messages, id, attempts))
  {
    if attempts != [] {
      var front, a := attempts[..|attempts| - 1], attempts[|attempts| - 1];
      AttemptsAreHistories(messages, front);
      var before := AfterAttempts(messages, front);
      forall id | id in messages
        ensures before[id].chat == messages[id].chat && before[id].fromMe == messages[id].fromMe
      {
        SideStays(messages[id], OpsOn(messages, id, front));
      }
      PermittedStays(messages, before, a);
      forall id | id in messages
        ensures Attempted(before, a)[id] == DoneAll(messages[id], OpsOn(messages, id, attempts))
      {
        RowGoesOn(messages, before, id, attempts);
      }
    }
  }

  lemma SideStays(m: MessageRow, ops: seq<RowOp>)
    ensures DoneAll(m, ops).chat == m.chat && DoneAll(m, ops).fromMe == m.fromMe
  {
    EditHistory(m, ops);
  }

  lemma RowGoesOn(messages: Messages, before: Messages, id: MessageId, attempts: seq<Attempt>)
    requires attempts != [] && id in messages && id in before
    requires Permitted(before, attempts[|attempts| - 1]) == Permitted(messages, attempts[|attempts| - 1])
    requires before[id] == DoneAll(messages[id], OpsOn(messages, id, attempts[..|attempts| - 1]))
    ensures var after := Attempted(before, attempts[|attempts| - 1]);
            id in after && after[id] == DoneAll(messages[id], OpsOn(messages, id, attempts))
  {
    var front, a := attempts[..|attempts| - 1], attempts[|attempts| - 1];
    DoneSnoc(messages[id], OpsOn(messages, id, front), a.op);
    assert OpsOn(messages, id, front) + [] == OpsOn(messages, id, front);
  }

  // --------------------------------------------------------------- receipts

  function RankOf(current: Option<string>): int {
    if current.None? then 0 else Rank(current.value).Or(0)
  }

  /** 'failed' and anything unknown is never raised. */
  predicate Sticky(current: Option<string>) {
    current.Some? && Rank(current.value).None?
  }

  function RaiseAll(current: Option<string>, statuses: seq<string>): Option<string> {
    if statuses == [] then current
    else
      var before := RaiseAll(current, statuses[..|statuses| - 1]);
      if Raises(before, statuses[|statuses| - 1]) then Some(statuses[|statuses| - 1]) else before
  }

  function MaxRank(statuses: seq<string>): nat {
    if statuses == [] then 0
    else
      var rest, last := MaxRank(statuses[..|statuses| - 1]), Rank(statuses[|statuses| - 1]).Or(0);
      if last > rest then last else rest
  }

  /** The join of a status and a rank. */
  function Joined(current: Option<string>, rank: nat): Option<string>
    requires rank < 4
  {
    if Sticky(current) || rank <= RankOf(current) then current else Some(STATUSES[rank])
  }

  /** Receipts form a join: whatever order they come in and however often,
      the row ends at the greatest of its status and theirs. */
  lemma {:induction false} ReceiptsJoin(current: Option<string>, statuses: seq<string>)
    ensures MaxRank(statuses) < 4
    ensures RaiseAll(current, statuses) == Joined(current, MaxRank(statuses))
  {
    if statuses != [] { ReceiptsJoin(current, statuses[..|statuses| - 1]); }
  }

  lemma {:induction false} MaxRankIsAMax(statuses: seq<string>)
    ensures forall k | 0 <= k < |statuses| :: Rank(statuses[k]).Or(0) <= MaxRank(statuses)
    ensures MaxRank(statuses) == 0 || exists k :: 0 <= k < |statuses| && Rank(statuses[k]).Or(0) == MaxRank(statuses)
  {
    if statuses != [] {
      var front := statuses[..|statuses| - 1];
      MaxRankIsAMax(front);
      if MaxRank(statuses) != 0 && Rank(statuses[|statuses| - 1]).Or(0) != MaxRank(statuses) {
        var k :| 0 <= k < |front| && Rank(front[k]).Or(0) == MaxRank(front);
        assert statuses[k] == front[k];
      }
    }
  }

  /** Only the set of receipts matters. */
  lemma ReceiptOrderDoesNotMatter(current: Option<string>, statuses: seq<string>, statuses': seq<string>)
    requires forall s :: s in statuses <==> s in statuses'
    ensures RaiseAll(current, statuses) == RaiseAll(current, statuses')
  {
    ReceiptsJoin(current, statuses);
    ReceiptsJoin(current, statuses');
    MaxRankBounded(statuses, statuses');
    MaxRankBounded(statuses', statuses);
  }

  lemma MaxRankBounded(statuses: seq<string>, statuses': seq<string>)
    requires forall s :: s in statuses ==> s in statuses'
    ensures MaxRank(statuses) <= MaxRank(statuses')
  {
    MaxRankIsAMax(statuses);
    MaxRankIsAMax(statuses');
    if MaxRank(statuses) != 0 {
      var k :| 0 <= k < |statuses| && Rank(statuses[k]).Or(0) == MaxRank(statuses);
      assert statuses[k] in statuses';
    }
  }

  datatype Call = Call(ids: seq<MessageId>, status: string)

  function AfterReceipts(messages: Messages, calls: seq<Call>): Messages {
    if calls == [] then messages
    else Marked(AfterReceipts(messages, calls[..|calls| - 1]), calls[|calls| - 1].ids, calls[|calls| - 1].status)
  }

  function StatusesFor(id: MessageId, calls: seq<Call>): seq<string> {
    if calls == [] then []
    else
      var c := calls[|calls| - 1];
      StatusesFor(id, calls[..|calls| - 1]) + if id in c.ids then [c.status] else []
  }

  /** Over any sequence of MarkMessagesStatus calls: a message of ours ends at
      the join of its status with every receipt that named it, an inbound one
      keeps its status, nothing else moves. */
  lemma {:induction false} ReceiptsOnTable(messages: Messages, calls: seq<Call>)
    ensures var after := AfterReceipts(messages, calls);
            after.Keys == messages.Keys
            && forall id | id in messages ::
                 after[id] == if messages[id].fromMe
                              then messages[id].(status := RaiseAll(messages[id].status, StatusesFor(id, calls)))
                              else messages[id]
  {
    if calls != [] {
      var front, c := calls[..|calls| - 1], calls[|calls| - 1];
      ReceiptsOnTable(messages, front);
      forall id | id in messages
        ensures AfterReceipts(messages, calls)[id]
             == if messages[id].fromMe
                then messages[id].(status := RaiseAll(messages[id].status, StatusesFor(id, calls))) else messages[id]
      {
        var ss := StatusesFor(id, front);
        assert (ss + [c.status])[..|ss|] == ss;
        assert ss + [] == ss;
      }
    }
  }
}
