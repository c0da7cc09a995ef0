/** The three tables of the bridge and the statements internal/store runs on
    them, each as a function on table contents. */
module Tables {
  import opened Base

  datatype ChatRow = ChatRow(
    displayName: Option<string>,
    phone: Option<string>,
    isGroup: bool,
    lastAt: Option<int>,
    lastPreview: Option<string>,
    lastFromMe: bool,
    unread: int)

  datatype MessageRow = MessageRow(
    chat: Jid,
    sender: Option<string>,
    fromMe: bool,
    kind: string,
    body: Option<string>,
    filename: Option<string>,
    target: Option<MessageId>,
    place: Option<string>,
    at: int,
    status: Option<string>,
    originalBody: Option<string>,
    editedAt: Option<int>,
    revokedAt: Option<int>)

  datatype OutStatus = Pending | Resolve | Sent | Failed

  datatype Code =
    | NotOnWhatsApp | InvalidPhone | SendFailed | LookupFailed | UnsupportedKind | Expired
    | InvalidJid | InvalidLocation | MediaMissing | ReactionMissing | ByHand

  datatype OutboundRow = OutboundRow(
    status: OutStatus,
    toPhone: Option<string>,
    toName: Option<string>,
    body: Option<string>,
    kind: Option<string>,
    attempts: int,
    lastAttempt: Option<int>,
    createdAt: int,
    waId: Option<MessageId>,
    chat: Option<Jid>,
    error: Option<Code>)

  type Chats = map<Jid, ChatRow>
  type Messages = map<MessageId, MessageRow>
  type Outbound = map<int, OutboundRow>

  datatype Db = Db(outbound: Outbound, chats: Chats, messages: Messages)

  /** What UpsertChat is given. */
  datatype Chat = Chat(
    jid: Jid,
    displayName: Option<string>,
    phone: Option<string>,
    isGroup: bool,
    at: Option<int>,
    preview: Option<string>,
    fromMe: bool,
    incrementUnread: bool)

  // ------------------------------------------------------------- wa_chats

  function InsertedChat(c: Chat): ChatRow {
    ChatRow(c.displayName, c.phone, c.isGroup, c.at, c.preview, c.fromMe,
            if c.incrementUnread && !c.fromMe then 1 else 0)
  }

  /** The ON DUPLICATE KEY UPDATE list. last_message_from_me is overwritten
      even when last_message_at is not. */
  function UpdatedChat(o: ChatRow, c: Chat): ChatRow {
    ChatRow(
      Coalesce(c.displayName, o.displayName),
      Coalesce(c.phone, o.phone),
      o.isGroup,
      Coalesce(c.at, o.lastAt),
      Coalesce(c.preview, o.lastPreview),
      c.fromMe,
      if c.fromMe then 0 else if c.incrementUnread then o.unread + 1 else o.unread)
  }

  function UpsertedChat(chats: Chats, c: Chat): Chats {
    chats[c.jid := if c.jid in chats then UpdatedChat(chats[c.jid], c) else InsertedChat(c)]
  }

  /** A chat row after an upsert, column by column: what was given, or else what
      was known. */
  predicate AsGiven(before: Chats, c: Chat, after: Chats) {
    && c.jid in after
    && var now := after[c.jid];
       && now.lastFromMe == c.fromMe && (c.fromMe ==> now.unread == 0)
       && if c.jid !in before then
            && now.displayName == c.displayName && now.phone == c.phone && now.lastAt == c.at
            && now.lastPreview == c.preview && now.isGroup == c.isGroup
          else
            var known := before[c.jid];
            && now.displayName == (if c.displayName.Some? then c.displayName else known.displayName)
            && now.phone == (if c.phone.Some? then c.phone else known.phone)
            && now.lastAt == (if c.at.Some? then c.at else known.lastAt)
            && now.lastPreview == (if c.preview.Some? then c.preview else known.lastPreview)
            && now.isGroup == known.isGroup
  }

  // ---------------------------------------------------------- wa_messages

  /** INSERT IGNORE: a row whose key exists, or whose chat does not, is skipped. */
  function InsertedMessage(db: Db, id: MessageId, m: MessageRow): Db {
    if id in db.messages || m.chat !in db.chats then db
    else db.(messages := db.messages[id := m])
  }

  // ---------------------------------------------------------- wa_outbound

  const MAX_ATTEMPTS := 5

  /** FailOutbound: status and attempts move in one statement. */
  function FailedOutbound(rows: Outbound, id: int, attempts: int, code: Code, at: int): Outbound {
    if id !in rows then rows
    else rows[id := rows[id].(status := Failed, attempts := attempts, lastAttempt := Some(at), error := Some(code))]
  }

  /** The UPDATE of markAttempt below the cap: the status is not touched. */
  function AttemptedOutbound(rows: Outbound, id: int, attempts: int, at: int): Outbound {
    if id !in rows then rows
    else rows[id := rows[id].(attempts := attempts, lastAttempt := Some(at))]
  }

  /** markAttempt: the next attempt count, failed for good at the cap. */
  function MarkedAttempt(rows: Outbound, id: int, attempts: int, code: Code, at: int): Outbound {
    if attempts + 1 >= MAX_ATTEMPTS then FailedOutbound(rows, id, attempts + 1, code, at)
    else AttemptedOutbound(rows, id, attempts + 1, at)
  }

  /** The WHERE clause of ClaimNewChatMessageID. */
  predicate Claimable(rows: Outbound, id: int) {
    id in rows && rows[id].status.Resolve? && rows[id].waId.None?
  }

  function ClaimedOutbound(rows: Outbound, id: int, waId: MessageId): Outbound {
    if Claimable(rows, id) then rows[id := rows[id].(waId := Some(waId))] else rows
  }

  /** The stamp of MarkNewChatSent and of sendOutboundRow; no condition on the old status. */
  function SentOutbound(rows: Outbound, id: int, waId: MessageId): Outbound {
    if id !in rows then rows
    else rows[id := rows[id].(status := Sent, waId := Some(waId), error := None)]
  }

  /** SetOutboundChat, when the foreign key holds. */
  function PointedOutbound(rows: Outbound, id: int, chat: Jid): Outbound {
    if id !in rows then rows else rows[id := rows[id].(chat := Some(chat))]
  }

  // ------------------------------------------------------ outbound queries

  /** The CASE expression of outboundBackoffSQL, in seconds. */
  function BackoffSeconds(attempts: int): int {
    if attempts == 0 then 0
    else if attempts == 1 then 10
    else if attempts == 2 then 30
    else if attempts == 3 then 60
    else if attempts == 4 then 120
    else 300
  }

  predicate BackoffOver(row: OutboundRow, seconds: int) {
    row.lastAttempt.None? || row.lastAttempt.value < seconds - BackoffSeconds(row.attempts)
  }

  /** The WHERE clause shared by the pending and the new-chat queries. */
  predicate Eligible(row: OutboundRow, status: OutStatus, seconds: int) {
    row.status == status && row.attempts < MAX_ATTEMPTS && BackoffOver(row, seconds)
  }

  /** ORDER BY id LIMIT 1 */
  predicate IsPick(rows: Outbound, status: OutStatus, seconds: int, id: int) {
    && id in rows && Eligible(rows[id], status, seconds)
    && forall other | other in rows :: Eligible(rows[other], status, seconds) ==> id <= other
  }

  ghost function EligibleBelow(rows: Outbound, status: OutStatus, seconds: int, x: int): set<int> {
    set k | k in rows && Eligible(rows[k], status, seconds) && k < x
  }

  /** When any row is eligible, ORDER BY id LIMIT 1 finds one. */
  lemma {:induction false} PickExists(rows: Outbound, status: OutStatus, seconds: int, x: int)
    requires x in rows && Eligible(rows[x], status, seconds)
    ensures exists id :: IsPick(rows, status, seconds, id)
    decreases EligibleBelow(rows, status, seconds, x)
  {
    if y :| y in rows && Eligible(rows[y], status, seconds) && y < x {
      var below, belowX := EligibleBelow(rows, status, seconds, y), EligibleBelow(rows, status, seconds, x);
      assert below <= belowX && y in belowX && y !in below;
      PickExists(rows, status, seconds, y);
    } else {
      assert IsPick(rows, status, seconds, x);
    }
  }
}
