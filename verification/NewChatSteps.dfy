/** The new-chat path of internal/wabridge/newchat.go as a state machine.

    Any number of bridge processes share one database. A step is one statement,
    one WhatsApp call going out or coming back, one in-memory decision, a tick
    of the clock, or a write by somebody else. Steps of different processes
    interleave freely. A process may crash between any two of its steps; a
    restart is a new process, so overlapping and restarted bridges are the same
    thing here. A step that is not enabled changes nothing, which makes every
    sequence of steps a run.

    Bounds on the environment, all in the enabling conditions: a WhatsApp call
    returns within its 45 s deadline, the clock never goes back, identifiers
    are fresh (see Base.MessageId), and nobody else writes
    wa_outbound.whatsapp_message_id. */
module NewChatSteps {
  import opened Base
  import opened Tables
  import opened Text
  import Addresses

  /** The clock counts milliseconds; the database sees whole seconds. */
  const SECOND := 1000
  const MIN_GAP := 20 * SECOND
  const MAX_AGE := 23 * 60 * 60
  const CALL_TIMEOUT := 45 * SECOND

  /** A row as queryResolveOutbound read it, and when. */
  datatype Picked = Picked(id: int, row: OutboundRow, readAt: int) {
    predicate Overdue() {
      readAt / SECOND - row.createdAt > MAX_AGE
    }
  }

  /** What the lookup answers. `lids` is the phone-to-LID mapping the process
      knows at that moment; `phone` and `name` are what the answer and the
      address book add to the chat row. */
  datatype Answer =
    | NoAnswer
    | NotRegistered
    | Hit(jid: Jid, lids: map<string, string>, phone: Option<string>, name: Option<string>)

  /** What a successful send still has to store (newChatWrites). */
  datatype Writes = Writes(chat: Chat, msg: MessageRow, waId: MessageId)

  /** One WhatsApp call, as the ghost history of a process records it. A send
      carries the moments that led to it: the row read, the lookup sent and
      answered. */
  datatype Call =
    | Lookup(row: int, created: int, readAt: int, at: int)
    | SendStarted(row: int, jid: Jid, waId: MessageId, created: int, readAt: int, lookedAt: int, answeredAt: int,
                  at: int)
    | SendReturned(row: int, at: int)

  /** Where a process is inside processNewChats. */
  datatype Pc =
    | Idle
    | Deciding(r: Picked)
    | Looking(r: Picked, since: int)
    | Found(r: Picked, hit: Answer, jid: Jid, since: int, answeredAt: int)
    | Ready(r: Picked, hit: Answer, jid: Jid, waId: MessageId, since: int, answeredAt: int)
    | Sending(r: Picked, hit: Answer, jid: Jid, waId: MessageId, since: int)
    | Marking(id: int, attempts: int, code: Code)
    | Failing(id: int, code: Code)
    | Stamping(id: int, w: Writes, tries: nat)
    | WritingChat(id: int, w: Writes, tries: nat)
    | WritingMessage(id: int, w: Writes, tries: nat)
    | Pointing(id: int, w: Writes, tries: nat)
    | Crashed

  /** One bridge process: newChatState, the place in the code, and the ghost
      history of its WhatsApp calls. */
  datatype Proc = Proc(pc: Pc, lastLookup: Option<int>, sent: map<int, Writes>, serial: nat, calls: seq<Call>)

  /** An acknowledged send. */
  datatype Ack = Ack(process: nat, row: int, jid: Jid, waId: MessageId)

  /** The ghost parts: `confirmed` are the addresses a lookup said are on
      WhatsApp, `acks` the sends WhatsApp acknowledged, `made` the wa_chats
      rows this path inserted. */
  datatype World = World(
    now: int,
    db: Db,
    procs: map<nat, Proc>,
    confirmed: set<Jid>,
    acks: set<Ack>,
    made: set<Jid>)

  datatype Act =
    | Poll(id: int)
    | Decide
    | LookupReturn(answer: Answer)
    | Claim(fault: Fault)
    | SendStart
    | SendReturn(ok: bool, self: Option<string>, stamp: int)
    | Write(fault: Fault)

  datatype Event =
    | Tick(to: int)
    | Enqueue(id: int, phone: Option<string>, name: Option<string>, body: Option<string>, kind: Option<string>)
    | FailByHand(id: int)
    | OtherChat(c: Chat)
    | OtherMessage(mid: MessageId, m: MessageRow)
    | Start(q: nat)
    | Crash(q: nat)
    | Own(q: nat, act: Act)

  const EMPTY := World(0, Db(map[], map[], map[]), map[], {}, {}, {})
  const FRESH_PROC := Proc(Idle, None, map[], 0, [])

  // ------------------------------------------------------- in-memory checks

  /** mxPhoneRE: +52 and ten digits. */
  predicate MexicanPhone(s: string) {
    |s| == 13 && s[..3] == "+52" && AllDigits(s[3..])
  }

  predicate PlainText(row: OutboundRow) {
    row.kind.Or("") == "text" && Trim(row.body.Or("")) != ""
  }

  predicate UserJid(j: Jid) {
    j.user != "" && (j.server.Phone? || j.server.Lid?)
  }

  predicate GapOver(lastLookup: Option<int>, now: int) {
    lastLookup.None? || now - lastLookup.value >= MIN_GAP
  }

  predicate HasClaim(row: OutboundRow) {
    row.waId.Some? && !row.waId.value.Blank?
  }

  function WritesFor(r: Picked, hit: Answer, jid: Jid, waId: MessageId, self: Option<string>, stamp: int): Writes
    requires hit.Hit?
  {
    var body := r.row.body.Or("");
    Writes(
      Chat(jid,
           Coalesce(hit.name, NullString(Trim(r.row.toName.Or("")))),
           Coalesce(hit.phone, r.row.toPhone),
           false, Some(stamp), NullString(Truncate(body, 160)), true, false),
      MessageRow(jid, self, true, "text", NullString(body), None, None, None, stamp, Some("sent"), None, None, None),
      waId)
  }

  // ----------------------------------------------------------------- steps

  function Exec(w: World, es: seq<Event>): World {
    if es == [] then w else Next(Exec(w, es[..|es| - 1]), es[|es| - 1])
  }

  lemma ExecSnoc(es: seq<Event>, e: Event)
    ensures Exec(EMPTY, es + [e]) == Next(Exec(EMPTY, es), e)
  {
    assert (es + [e])[..|es|] == es;
  }

  function Next(w: World, e: Event): World {
    match e
    case Tick(to) => if w.now <= to then w.(now := to) else w
    case Enqueue(id, phone, name, body, kind) =>
      if id in w.db.outbound then w
      else WithOutbound(w, w.db.outbound[id :=
        OutboundRow(Resolve, phone, name, body, kind, 0, None, w.now / SECOND, None, None, None)])
    case FailByHand(id) =>
      if id in w.db.outbound
      then WithOutbound(w, w.db.outbound[id := w.db.outbound[id].(status := Failed, error := Some(ByHand))])
      else w
    case OtherChat(c) => w.(db := w.db.(chats := UpsertedChat(w.db.chats, c)))
    case OtherMessage(mid, m) => w.(db := InsertedMessage(w.db, mid, m))
    case Start(q) => if q in w.procs then w else w.(procs := w.procs[q := FRESH_PROC])
    case Crash(q) =>
      if q in w.procs then w.(procs := w.procs[q := w.procs[q].(pc := Crashed, lastLookup := None, sent := map[])])
      else w
    case Own(q, act) => if q in w.procs then OwnStep(w, q, w.procs[q], act) else w
  }

  function WithOutbound(w: World, rows: Outbound): World {
    w.(db := w.db.(outbound := rows))
  }

  function WithProc(w: World, q: nat, p: Proc): World {
    w.(procs := w.procs[q := p])
  }

  function Go(w: World, q: nat, p: Proc, pc: Pc): World {
    WithProc(w, q, p.(pc := pc))
  }

  /** One step of process q, whose state is p. */
  function OwnStep(w: World, q: nat, p: Proc, act: Act): World {
    match act
    case Poll(id) =>
      if p.pc.Idle? && GapOver(p.lastLookup, w.now) && IsPick(w.db.outbound, Resolve, w.now / SECOND, id)
      then Go(w, q, p, Deciding(Picked(id, w.db.outbound[id], w.now))) else w
    case Decide => if p.pc.Deciding? then DecideStep(w, q, p, p.pc.r) else w
    case LookupReturn(answer) =>
      if p.pc.Looking? && w.now <= p.pc.since + CALL_TIMEOUT then AnswerStep(w, q, p, answer) else w
    case Claim(fault) => if p.pc.Found? then ClaimStep(w, q, p, fault) else w
    case SendStart =>
      if p.pc.Ready? then
        var c := p.pc;
        WithProc(w, q, p.(
          pc := Sending(c.r, c.hit, c.jid, c.waId, w.now),
          calls := p.calls +
            [SendStarted(c.r.id, c.jid, c.waId, c.r.row.createdAt, c.r.readAt, c.since, c.answeredAt, w.now)]))
      else w
    case SendReturn(ok, self, stamp) =>
      if p.pc.Sending? && w.now <= p.pc.since + CALL_TIMEOUT then SendReturnStep(w, q, p, ok, self, stamp) else w
    case Write(fault) => WriteStep(w, q, p, fault)
  }

  /** The checks of sendNewChatRow up to the lookup going out. */
  function DecideStep(w: World, q: nat, p: Proc, r: Picked): World {
    if r.id in p.sent then Go(w, q, p, Stamping(r.id, p.sent[r.id], 0))
    else if r.Overdue() then Go(w, q, p, Failing(r.id, Expired))
    else if !PlainText(r.row) then Go(w, q, p, Failing(r.id, UnsupportedKind))
    else if !MexicanPhone(r.row.toPhone.Or("")) then Go(w, q, p, Failing(r.id, InvalidPhone))
    else WithProc(w, q, p.(
      pc := Looking(r, w.now),
      lastLookup := Some(w.now),
      calls := p.calls + [Lookup(r.id, r.row.createdAt, r.readAt, w.now)]))
  }

  /** The lookup came back. */
  function AnswerStep(w: World, q: nat, p: Proc, answer: Answer): World
    requires p.pc.Looking?
  {
    var r := p.pc.r;
    match answer
    case NoAnswer => Go(w, q, p, Marking(r.id, r.row.attempts, LookupFailed))
    case NotRegistered => Go(w, q, p, Failing(r.id, NotOnWhatsApp))
    case Hit(jid, lids, _, _) =>
      if !UserJid(jid) then Go(w, q, p, Failing(r.id, InvalidPhone))
      else
        var target := Addresses.CanonicalChat(lids, jid);
        Go(w, q, p, Found(r, answer, target, p.pc.since, w.now)).(confirmed := w.confirmed + {target})
  }

  /** Reuse the row's identifier, or make one and store it before the send. */
  function ClaimStep(w: World, q: nat, p: Proc, fault: Fault): World
    requires p.pc.Found?
  {
    var c := p.pc;
    if HasClaim(c.r.row) then Go(w, q, p, Ready(c.r, c.hit, c.jid, c.r.row.waId.value, c.since, c.answeredAt))
    else
      var waId := Minted(q, p.serial);
      var claimed := Claimable(w.db.outbound, c.r.id) && fault.Done?;
      var p' := p.(serial := p.serial + 1,
                   pc := if claimed then Ready(c.r, c.hit, c.jid, waId, c.since, c.answeredAt) else Idle);
      WithProc(
        WithOutbound(w, Committed(fault, w.db.outbound, ClaimedOutbound(w.db.outbound, c.r.id, waId))),
        q, p')
  }

  /** The send came back. An error says nothing about whether it went out. */
  function SendReturnStep(w: World, q: nat, p: Proc, ok: bool, self: Option<string>, stamp: int): World
    requires p.pc.Sending?
  {
    var c := p.pc;
    var p' := p.(calls := p.calls + [SendReturned(c.r.id, w.now)]);
    if ok && c.hit.Hit? then
      var writes := WritesFor(c.r, c.hit, c.jid, c.waId, self, stamp);
      WithProc(w, q, p'.(pc := Stamping(c.r.id, writes, 0), sent := p.sent[c.r.id := writes]))
        .(acks := w.acks + {Ack(q, c.r.id, c.jid, c.waId)})
    else Go(w, q, p', Marking(c.r.id, c.r.row.attempts, SendFailed))
  }

  /** The database writes: the attempt, the failure, and the four of finishNewChat. */
  function WriteStep(w: World, q: nat, p: Proc, fault: Fault): World {
    match p.pc
    case Marking(id, attempts, code) =>
      var rows := MarkedAttempt(w.db.outbound, id, attempts, code, w.now / SECOND);
      Go(WithOutbound(w, Committed(fault, w.db.outbound, rows)), q, p, Idle)
    case Failing(id, code) =>
      var rows := FailedOutbound(w.db.outbound, id, MAX_ATTEMPTS, code, w.now / SECOND);
      Go(WithOutbound(w, Committed(fault, w.db.outbound, rows)), q, p, Idle)
    case Stamping(id, writes, tries) =>
      WithProc(WithOutbound(w, Committed(fault, w.db.outbound, SentOutbound(w.db.outbound, id, writes.waId))), q,
        if fault.Done? then p.(pc := WritingChat(id, writes, 0), sent := p.sent - {id})
        else p.(pc := Retry(tries, Stamping(id, writes, tries + 1), Idle)))
    case WritingChat(id, writes, tries) =>
      Go(w, q, p, if fault.Done? then WritingMessage(id, writes, 0)
                  else Retry(tries, WritingChat(id, writes, tries + 1), Idle))
        .(db := w.db.(chats := Committed(fault, w.db.chats, UpsertedChat(w.db.chats, writes.chat))),
          made := if fault.Refused? || writes.chat.jid in w.db.chats then w.made else w.made + {writes.chat.jid})
    case WritingMessage(id, writes, tries) =>
      Go(w, q, p, if fault.Done? then Pointing(id, writes, 0)
                  else Retry(tries, WritingMessage(id, writes, tries + 1), Pointing(id, writes, 0)))
        .(db := Committed(fault, w.db, InsertedMessage(w.db, writes.waId, writes.msg)))
    case Pointing(id, writes, tries) =>
      var held := writes.chat.jid in w.db.chats;
      var rows := PointedOutbound(w.db.outbound, id, writes.chat.jid);
      Go(WithOutbound(w, if held then Committed(fault, w.db.outbound, rows) else w.db.outbound),
         q, p, if fault.Done? && held then Idle else Retry(tries, Pointing(id, writes, tries + 1), Idle))
    case _ => w
  }

  /** storeRetry gives up after STORE_TRIES attempts. */
  function Retry(tries: nat, again: Pc, after: Pc): Pc {
    if tries + 1 < STORE_TRIES then again else after
  }
}
