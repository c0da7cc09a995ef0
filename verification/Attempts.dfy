/** Counting the attempts of a wa_outbound row, on either queue. */
module Attempts {
  import opened Base
  import opened Tables

  predicate Live(row: OutboundRow) {
    row.status.Pending? || row.status.Resolve?
  }

  /** A row somebody may still send has tries left, and a count the backoff
      schedule lists: its 300 s branch is for nobody. */
  ghost predicate BelowCap(rows: Outbound) {
    forall id | id in rows :: 0 <= rows[id].attempts && (Live(rows[id]) ==> rows[id].attempts < MAX_ATTEMPTS)
  }

  lemma StatementsKeepCap(rows: Outbound, id: int, attempts: int, code: Code, at: int, waId: MessageId, chat: Jid)
    requires BelowCap(rows)
    ensures attempts >= 0 ==> BelowCap(MarkedAttempt(rows, id, attempts, code, at))
    ensures BelowCap(FailedOutbound(rows, id, MAX_ATTEMPTS, code, at))
    ensures BelowCap(SentOutbound(rows, id, waId)) && BelowCap(ClaimedOutbound(rows, id, waId))
            && BelowCap(PointedOutbound(rows, id, chat))
  {
  }

  /** When a row comes up: at once if it is new, and again later than 10, 30, 60
      or 120 seconds after its first four attempts, never after the fifth. */
  lemma ComesUp(row: OutboundRow, status: OutStatus, seconds: int)
    requires row.attempts >= 0
    ensures Eligible(row, status, seconds) <==>
              && row.status == status && row.attempts < 5
              && (row.lastAttempt.None?
                  || (row.attempts == 0 && seconds - row.lastAttempt.value > 0)
                  || (row.attempts == 1 && seconds - row.lastAttempt.value > 10)
                  || (row.attempts == 2 && seconds - row.lastAttempt.value > 30)
                  || (row.attempts == 3 && seconds - row.lastAttempt.value > 60)
                  || (row.attempts == 4 && seconds - row.lastAttempt.value > 120))
  {
  }

  /** (live, tries left): how much may still happen to a row. */
  function Measure(row: OutboundRow): nat
    requires row.attempts <= MAX_ATTEMPTS
  {
    if Live(row) then 1 + MAX_ATTEMPTS - row.attempts else 0
  }

  predicate RetryCode(code: Option<Code>) {
    code == Some(SendFailed) || code == Some(LookupFailed)
  }

  /** Same attempts, same times, and no failure of the retried kind is new. */
  predicate SameRecord(row: OutboundRow, row': OutboundRow) {
    && row'.attempts == row.attempts && row'.lastAttempt == row.lastAttempt
    && (RetryCode(row'.error) ==> row'.error == row.error)
  }

  /** One attempt more is on record: later than the last by more than the
      backoff, and counted one up, unless the row was failed outright. */
  ghost predicate Recorded(row: OutboundRow, row': OutboundRow, seconds: int) {
    && row.attempts < MAX_ATTEMPTS && BackoffOver(row, seconds) && row'.lastAttempt == Some(seconds)
    && (row'.attempts == row.attempts + 1
        || (row'.attempts == MAX_ATTEMPTS && row'.status.Failed? && !RetryCode(row'.error)))
  }

  /** The least that k recorded attempts can span, in whole seconds. */
  function Span(k: int): int {
    if k <= 1 then 0 else Span(k - 1) + BackoffSeconds(k - 1) + 1
  }

  ghost predicate Paced(row: OutboundRow, first: Option<int>) {
    if first.None? then row.lastAttempt.None? && row.attempts == 0
    else
      && row.lastAttempt.Some? && row.attempts >= 1 && row.lastAttempt.value >= first.value
      && (row.attempts < MAX_ATTEMPTS || RetryCode(row.error) ==>
            row.lastAttempt.value - first.value >= Span(row.attempts))
  }

  lemma RecordKeepsPace(row: OutboundRow, row': OutboundRow, first: Option<int>, seconds: int)
    requires Paced(row, first)
    requires SameRecord(row, row') || Recorded(row, row', seconds)
    ensures Paced(row', if first.Some? then first else row'.lastAttempt)
  {
  }

  lemma Spans()
    ensures Span(2) == 11 && Span(3) == 42 && Span(4) == 103 && Span(5) == 224
  {
  }
}
