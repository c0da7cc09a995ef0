/** The inbox statements of internal/store (edit, revoke, reaction, read
    receipt, tail) and the event handlers of internal/wabridge that run them,
    as functions on the tables. Every write succeeds here; Database and
    InboxBridge give the same statements with failures. */
module Inbox {
  import opened Base
  import opened Tables
  import opened Text
  import opened Previews

  /** Message times are whole seconds. A read receipt that names no stored
      message clears up to this one, 9999-12-31. */
  const FAR_FUTURE := 253402214400

  // ---------------------------------------------------------------- locate

  /** LocateMessage: the key is stored, under one of the given chats. */
  predicate Locates(messages: Messages, id: MessageId, chats: seq<Jid>) {
    id != Blank && id in messages && messages[id].chat in chats
  }

  // --------------------------------------------------------- edit and revoke

  /** The SET list of ApplyEdit, left to right: original_body sees the old body. */
  function EditedRow(m: MessageRow, newBody: Option<string>, at: int): MessageRow {
    var m1 := m.(originalBody := Coalesce(m.originalBody, m.body));
    var m2 := m1.(body := newBody);
    m2.(editedAt := Some(at))
  }

  /** The SET list of RevokeMessage. */
  function RevokedRow(m: MessageRow, at: int): MessageRow {
    m.(revokedAt := Coalesce(m.revokedAt, Some(at)))
  }

  /** Only the side that wrote a message may edit it. */
  predicate MayEdit(messages: Messages, id: MessageId, chats: seq<Jid>, fromMe: bool) {
    Locates(messages, id, chats) && messages[id].fromMe == fromMe
  }

  /** In a group an admin may delete anyone's message. */
  predicate MayRevoke(messages: Messages, id: MessageId, chats: seq<Jid>, fromMe: bool, isGroup: bool) {
    Locates(messages, id, chats) && (isGroup || messages[id].fromMe == fromMe)
  }

  // ------------------------------------------------------------------- tail

  /** Reaction and system rows never count. */
  predicate Countable(m: MessageRow) {
    m.kind != "reaction" && m.kind != "system"
  }

  predicate InChat(messages: Messages, chat: Jid, id: MessageId) {
    id in messages && messages[id].chat == chat && Countable(messages[id])
  }

  /** A newest countable row of the chat. */
  predicate IsTail(messages: Messages, chat: Jid, id: MessageId) {
    InChat(messages, chat, id)
    && forall other | other in messages :: InChat(messages, chat, other) ==> messages[other].at <= messages[id].at
  }

  /** RecomputeChatTail, for the row the SELECT returned. */
  function Recomputed(db: Db, chat: Jid, tail: Option<MessageId>): Db
    requires tail.Some? ==> tail.value in db.messages
  {
    if tail.None? || chat !in db.chats then db
    else
      var t := db.messages[tail.value];
      db.(chats := db.chats[chat := db.chats[chat].(
        lastAt := Some(t.at), lastPreview := Some(TailPreview(t)), lastFromMe := t.fromMe)])
  }

  // -------------------------------------------------------------- reactions

  /** One reaction event (store.Reaction). */
  datatype Reaction = Reaction(
    id: MessageId, chat: Jid, sender: Option<string>, aliases: seq<string>,
    fromMe: bool, isGroup: bool, target: MessageId, emoji: string, at: int)

  function Senders(r: Reaction): seq<string> {
    if r.aliases == [] then [r.sender.Or("")] else r.aliases
  }

  predicate IsReactionRow(m: MessageRow) {
    (m.kind == "reaction" || m.kind == "system") && m.target.Some?
  }

  /** The WHERE clause of UpsertReaction's lookup. */
  predicate Matches(m: MessageRow, r: Reaction) {
    && IsReactionRow(m) && m.chat == r.chat && m.target.value == r.target && m.fromMe == r.fromMe
    && (!r.fromMe && r.isGroup ==> m.sender.Some? && m.sender.value in Senders(r))
  }

  /** What ORDER BY timestamp DESC LIMIT 1 may return. */
  predicate IsExisting(messages: Messages, r: Reaction, existing: Option<MessageId>) {
    match existing
    case Some(id) =>
      && id in messages && Matches(messages[id], r)
      && forall other | other in messages :: Matches(messages[other], r) ==> messages[other].at <= messages[id].at
    case None => forall other | other in messages :: !Matches(messages[other], r)
  }

  function ReactionRow(r: Reaction): MessageRow {
    MessageRow(r.chat, r.sender, r.fromMe, "reaction", Some(r.emoji), None, Some(r.target), None, r.at,
               Some(if r.fromMe then "sent" else "received"), None, None, None)
  }

  /** The UPDATE on an existing reaction row: only a newer event changes it. */
  function ReactedRow(m: MessageRow, r: Reaction): MessageRow {
    if m.at > r.at then m
    else if r.emoji == "" then m.(kind := "system", body := None, at := r.at)
    else m.(kind := "reaction", body := Some(r.emoji), at := r.at)
  }

  /** UpsertReaction, for the row the lookup returned. */
  function Reacted(db: Db, r: Reaction, existing: Option<MessageId>): Db
    requires existing.Some? ==> existing.value in db.messages
  {
    if r.target == Blank then db
    else if existing.Some? then
      db.(messages := db.messages[existing.value := ReactedRow(db.messages[existing.value], r)])
    else if r.emoji == "" then db
    else InsertedMessage(db, r.id, ReactionRow(r))
  }

  /** How MySQL picks among rows of the same time: any law-abiding choice. */
  datatype Ties = Ties(tail: (Messages, Jid) -> Option<MessageId>,
                       reaction: (Messages, Reaction) -> Option<MessageId>) {
    ghost predicate Lawful() {
      && (forall messages, chat :: var t := tail(messages, chat);
            if t.Some? then IsTail(messages, chat, t.value)
            else forall id | id in messages :: !InChat(messages, chat, id))
      && (forall messages, r :: IsExisting(messages, r, reaction(messages, r)))
    }
  }

  // ----------------------------------------------------------- read receipts

  /** Inbound messages of the chat newer than `mark`. */
  predicate Unread(messages: Messages, chat: Jid, mark: Option<int>, id: MessageId) {
    InChat(messages, chat, id) && !messages[id].fromMe && (mark.Some? ==> messages[id].at > mark.value)
  }

  function UnreadSet(messages: Messages, chat: Jid, mark: Option<int>): set<MessageId> {
    set id | id in messages && Unread(messages, chat, mark, id)
  }

  /** MAX(timestamp) over the named messages that are stored, in any chat. */
  function Newest(messages: Messages, ids: seq<MessageId>): Option<int> {
    if ids == [] then None
    else
      var rest := Newest(messages, ids[1..]);
      if ids[0] !in messages then rest
      else Some(if rest.Some? && rest.value > messages[ids[0]].at then rest.value else messages[ids[0]].at)
  }

  /** ClearUnreadUpTo */
  function Cleared(db: Db, chat: Jid, ids: seq<MessageId>): Db {
    if ids == [] || chat !in db.chats || db.chats[chat].unread <= 0 then db
    else
      var count := |UnreadSet(db.messages, chat, Some(Newest(db.messages, ids).Or(FAR_FUTURE)))|;
      var o := db.chats[chat];
      db.(chats := db.chats[chat := o.(unread := if count < o.unread then count else o.unread)])
  }

  // --------------------------------------------------------- delivery status

  const STATUSES := ["received", "sent", "delivered", "read"]

  /** The rank map of MarkMessagesStatus; NULL ranks with 'received'. */
  function Rank(status: string): Option<int> {
    if status == "received" then Some(0)
    else if status == "sent" then Some(1)
    else if status == "delivered" then Some(2)
    else if status == "read" then Some(3)
    else None
  }

  /** status IS NULL OR status IN (the lower ranks), unless there are none. */
  predicate Raises(current: Option<string>, status: string) {
    Rank(status).Some? && Rank(status).value > 0
    && (current.None? || (Rank(current.value).Some? && Rank(current.value).value < Rank(status).value))
  }

  function MarkedRow(m: MessageRow, status: string): MessageRow {
    if m.fromMe && Raises(m.status, status) then m.(status := Some(status)) else m
  }

  /** MarkMessagesStatus */
  function Marked(messages: Messages, ids: seq<MessageId>, status: string): Messages {
    map id | id in messages :: if id in ids then MarkedRow(messages[id], status) else messages[id]
  }

  // ---------------------------------------------------------------- handlers

  /** What an incoming event carries, once resolved and classified. */
  datatype Content =
    | Ordinary(kind: string, body: string, media: Option<Media>)
    | EditOf(target: MessageId, newBody: string)
    | DeleteOf(target: MessageId)
    | ReactionTo(target: MessageId, emoji: string)
    | Dropped

  /** An incoming event. `chats` are the forms its chat may be stored under,
      canonical first; `member` is the sender without a device suffix and
      `forms` every form of it. */
  datatype Incoming = Incoming(
    id: MessageId, chats: seq<Jid>, isGroup: bool, fromMe: bool, sender: string, member: string, forms: seq<string>,
    name: Option<string>, phone: Option<string>, at: int, content: Content)
  {
    predicate Ok() { chats != [] }
  }

  function ChatOf(e: Incoming, kind: string, body: string, media: Option<Media>): Chat
    requires e.Ok()
  {
    Chat(e.chats[0], e.name, e.phone, e.isGroup, Some(e.at), NullString(PreviewFor(kind, body, media)), e.fromMe,
         !e.fromMe)
  }

  /** The end of handleMessage: the chat row first, then the message. */
  function Stored(db: Db, e: Incoming, kind: string, body: string, media: Option<Media>): Db
    requires e.Ok()
  {
    if kind == "system" then db
    else
      var db1 := db.(chats := UpsertedChat(db.chats, ChatOf(e, kind, body, media)));
      InsertedMessage(db1, e.id, StoredRow(e.chats[0], e.sender, e.fromMe, kind, body, media, e.at))
  }

  /** The event storeReaction writes: in the chat its target is stored under. */
  function ReactionOf(db: Db, e: Incoming): Reaction
    requires e.Ok() && e.content.ReactionTo?
  {
    var target := e.content.target;
    var chat := if |e.chats| > 1 && Locates(db.messages, target, e.chats) then db.messages[target].chat else e.chats[0];
    Reaction(e.id, chat, NullString(e.member), e.forms, e.fromMe, e.isGroup, target, e.content.emoji, e.at)
  }

  function WithRow(db: Db, id: MessageId, m: MessageRow): Db {
    db.(messages := db.messages[id := m])
  }

  ghost function RecomputedFor(ties: Ties, db: Db, chat: Jid): Db
    requires ties.Lawful()
  {
    Recomputed(db, chat, ties.tail(db.messages, chat))
  }

  /** handleMessage with applyProtocolAction and storeReaction, at database time `now`. */
  ghost function Handled(ties: Ties, db: Db, e: Incoming, now: int): Db
    requires ties.Lawful() && e.Ok()
  {
    match e.content
    case Dropped => db
    case EditOf(target, newBody) =>
      if !MayEdit(db.messages, target, e.chats, e.fromMe) then db
      else
        var m := db.messages[target];
        RecomputedFor(ties, WithRow(db, target, EditedRow(m, NullString(newBody), now)), m.chat)
    case DeleteOf(target) =>
      if !Locates(db.messages, target, e.chats) then Stored(db, e, "revoked", "", None)
      else if !MayRevoke(db.messages, target, e.chats, e.fromMe, e.isGroup) then db
      else
        var m := db.messages[target];
        RecomputedFor(ties, WithRow(db, target, RevokedRow(m, now)), m.chat)
    case ReactionTo(target, _) =>
      if target == Blank then db
      else
        var r := ReactionOf(db, e);
        Reacted(db, r, ties.reaction(db.messages, r))
    case Ordinary(kind, body, media) => Stored(db, e, kind, body, media)
  }

  /** One message of a history conversation: a row, a delete with the row it
      becomes when its target is not stored, or a reaction. */
  datatype HistoryItem =
    | HistoryRow(id: MessageId, row: MessageRow)
    | HistoryDelete(target: MessageId, fromMe: bool, id: MessageId, row: MessageRow)
    | HistoryReaction(r: Reaction)

  /** One conversation of a history sync, at database time `now`. `chats` are
      the forms its chat may be stored under, canonical first. */
  datatype Conversation = Conversation(
    chats: seq<Jid>, name: Option<string>, phone: Option<string>, isGroup: bool, now: int, items: seq<HistoryItem>)
  {
    predicate Ok() { chats != [] }
  }

  /** The chat row of a conversation, without last_message_*. */
  function HistoryChat(c: Conversation): Chat
    requires c.Ok()
  {
    Chat(c.chats[0], c.name, c.phone, c.isGroup, None, None, false, false)
  }

  /** The item counts as inserted. */
  predicate Inserted(db: Db, c: Conversation, it: HistoryItem) {
    match it
    case HistoryRow(_, _) => true
    case HistoryDelete(target, _, _, _) => !Locates(db.messages, target, c.chats)
    case HistoryReaction(_) => false
  }

  ghost function Filled(ties: Ties, db: Db, c: Conversation, it: HistoryItem): Db
    requires ties.Lawful()
  {
    match it
    case HistoryRow(id, row) => InsertedMessage(db, id, row)
    case HistoryDelete(target, fromMe, id, row) =>
      if !Locates(db.messages, target, c.chats) then InsertedMessage(db, id, row)
      else if !MayRevoke(db.messages, target, c.chats, fromMe, c.isGroup) then db
      else WithRow(db, target, RevokedRow(db.messages[target], c.now))
    case HistoryReaction(r) => Reacted(db, r, ties.reaction(db.messages, r))
  }

  /** The messages of the conversation, in order. */
  ghost function AllFilled(ties: Ties, db: Db, c: Conversation, items: seq<HistoryItem>): Db
    requires ties.Lawful()
  {
    if items == [] then db else Filled(ties, AllFilled(ties, db, c, items[..|items| - 1]), c, items[|items| - 1])
  }

  ghost predicate AnyInserted(ties: Ties, db: Db, c: Conversation, items: seq<HistoryItem>)
    requires ties.Lawful()
  {
    items != [] &&
    (var front := items[..|items| - 1];
     AnyInserted(ties, db, c, front) || Inserted(AllFilled(ties, db, c, front), c, items[|items| - 1]))
  }

  /** The chat row first, then the messages, then the tail of the chat when at
      least one of them was inserted. */
  ghost function Synced(ties: Ties, db: Db, c: Conversation): Db
    requires ties.Lawful() && c.Ok()
  {
    var db1 := db.(chats := UpsertedChat(db.chats, HistoryChat(c)));
    var db2 := AllFilled(ties, db1, c, c.items);
    if AnyInserted(ties, db1, c, c.items) then RecomputedFor(ties, db2, c.chats[0]) else db2
  }

  /** handleMessage, handleReceipt and handleHistorySync, as one stream. */
  datatype InboxEvent =
    | Message(e: Incoming, now: int)
    | SelfRead(chat: Jid, ids: seq<MessageId>)
    | Receipt(ids: seq<MessageId>, status: string)
    | History(c: Conversation)

  ghost function Applied(ties: Ties, db: Db, ev: InboxEvent): Db
    requires ties.Lawful() && (ev.Message? ==> ev.e.Ok()) && (ev.History? ==> ev.c.Ok())
  {
    match ev
    case Message(e, now) => Handled(ties, db, e, now)
    case SelfRead(chat, ids) => Cleared(db, chat, ids)
    case Receipt(ids, status) => db.(messages := Marked(db.messages, ids, status))
    case History(c) => Synced(ties, db, c)
  }
}
