/** What an acknowledged send of an existing chat's row adds to the threads and
    to the chat list, and how that compares with what the inbox would show. */
module OutboundPosts {
  import opened Base
  import opened Tables
  import opened Text
  import opened Previews
  import opened Inbox
  import opened Reactions
  import InboxRuns

  /** A place as buildLocationMessage reads it, trimmed and clipped. */
  datatype Place = Place(coordinates: string, name: string)

  /** What is known of a send beside its row: the canonical chat, our own
      address, WhatsApp's time, and what the row's media, place or target are. */
  datatype Post = Post(
    chat: Jid, self: string, stamp: int, filename: Option<string>, place: Place, target: MessageId, isGroup: bool)

  predicate Reacts(row: OutboundRow) {
    row.kind.Or("") == "reaction"
  }

  /** message_type: a row without a kind is a text. */
  function KindOf(row: OutboundRow): string {
    if row.kind.Or("") == "" then "text" else row.kind.value
  }

  /** The wa_messages row of a sent message. */
  function PostedRow(row: OutboundRow, p: Post): MessageRow {
    var place := KindOf(row) == "location";
    MessageRow(
      p.chat, NullString(p.self), true, KindOf(row), NullString(if place then p.place.coordinates else row.body.Or("")),
      p.filename, None, if place then NullString(p.place.name) else None, p.stamp, Some("sent"), None, None, None)
  }

  /** previewForKind */
  function PreviewForKind(kind: string, filename: string): string {
    if kind == "image" then "\U{1F4F7} Imagen"
    else if kind == "video" then "\U{1F3AC} Video"
    else if kind == "audio" then "\U{1F3B5} Audio"
    else if kind == "document" then if filename != "" then "\U{1F4C4} " + filename else "\U{1F4C4} Documento"
    else ""
  }

  /** The chat-list label of a sent message. */
  function PostedLabel(row: OutboundRow, p: Post): string {
    Truncate(
      if KindOf(row) == "location" then LocationLabel(p.place.name)
      else if row.body.Or("") != "" then row.body.value
      else PreviewForKind(KindOf(row), p.filename.Or("")),
      PREVIEW_MAX)
  }

  function PostedChat(row: OutboundRow, p: Post): Chat {
    Chat(p.chat, None, None, false, Some(p.stamp), NullString(PostedLabel(row, p)), true, false)
  }

  function PostedReaction(row: OutboundRow, p: Post, waId: MessageId): Reaction {
    Reaction(waId, p.chat, NullString(p.self), [], true, p.isGroup, p.target, row.body.Or(""), p.stamp)
  }

  /** The writes after the stamp: a reaction is upserted; any other message is
      inserted first, then its chat is. */
  ghost function Posted(ties: Ties, db: Db, row: OutboundRow, p: Post, waId: MessageId, first: Fault, second: Fault): Db
    requires ties.Lawful()
  {
    if Reacts(row) then
      var r := PostedReaction(row, p, waId);
      Committed(first, db, Reacted(db, r, ties.reaction(db.messages, r)))
    else
      var db1 := Committed(first, db, InsertedMessage(db, waId, PostedRow(row, p)));
      db1.(chats := Committed(second, db1.chats, UpsertedChat(db1.chats, PostedChat(row, p))))
  }

  predicate SameThreads(db: Db, db': Db) {
    db'.chats == db.chats && db'.messages == db.messages
  }

  /** Handling a row posts what it sent, if anything, as far as the writes commit. */
  ghost predicate PostedAs(ties: Ties, db: Db, db': Db, row: OutboundRow, acked: Option<MessageId>, p: Post, sure: bool)
    requires ties.Lawful()
  {
    match acked
    case None => SameThreads(db, db')
    case Some(waId) =>
      exists first, second ::
        (sure ==> first == second == Done) && SameThreads(Posted(ties, db, row, p, waId, first, second), db')
  }

  /** What is posted depends on the threads alone. */
  lemma PostsAlike(ties: Ties, db: Db, db1: Db, row: OutboundRow, p: Post, waId: MessageId, first: Fault, second: Fault)
    requires ties.Lawful() && SameThreads(db, db1)
    ensures SameThreads(Posted(ties, db, row, p, waId, first, second), Posted(ties, db1, row, p, waId, first, second))
  {
    if Reacts(row) {
      var r := PostedReaction(row, p, waId);
      ReactsAlike(db, db1, r, ties.reaction(db.messages, r));
    }
  }

  lemma ReactsAlike(db: Db, db1: Db, r: Reaction, existing: Option<MessageId>)
    requires SameThreads(db, db1) && IsExisting(db.messages, r, existing)
    ensures SameThreads(Reacted(db, r, existing), Reacted(db1, r, existing))
  {
  }

  // ------------------------------------------------------------ what it shows

  /** What is stored of a sent message, column by column: ours, of the row's kind,
      with its text or its place, under the canonical chat; and the chat's row. */
  predicate SentRow(row: OutboundRow, p: Post, m: MessageRow) {
    && m.chat == p.chat && m.fromMe && m.at == p.stamp && m.status == Some("sent")
    && m.sender == (if p.self == "" then None else Some(p.self))
    && m.filename == p.filename && m.target.None?
    && m.originalBody.None? && m.editedAt.None? && m.revokedAt.None?
    && (row.kind.Or("") == "" ==> m.kind == "text") && (row.kind.Or("") != "" ==> m.kind == row.kind.value)
    && if row.kind == Some("location") then
         && m.body == (if p.place.coordinates == "" then None else Some(p.place.coordinates))
         && m.place == (if p.place.name == "" then None else Some(p.place.name))
       else m.place.None? && m.body == (if row.body.Or("") == "" then None else row.body)
  }

  /** The label: a place, a short text as it is, a long one cut, or the kind. */
  predicate SentLabel(row: OutboundRow, p: Post, shown: Option<string>) {
    var body := row.body.Or("");
    if row.kind == Some("location") then
      Trim(p.place.name) != "" && |p.place.name| < 158 ==> shown == Some(PIN + Trim(p.place.name))
    else if body != "" then
      shown == if |body| <= 160 then Some(body) else Some(body[..160] + ELLIPSIS)
    else
      && (row.kind == Some("image") ==> shown == Some("\U{1F4F7} Imagen"))
      && (row.kind == Some("video") ==> shown == Some("\U{1F3AC} Video"))
      && (row.kind == Some("audio") ==> shown == Some("\U{1F3B5} Audio"))
      && (row.kind == Some("document") && p.filename.Or("") == "" ==> shown == Some("\U{1F4C4} Documento"))
      && (row.kind == Some("document") && 0 < |p.filename.Or("")| <= 158 ==>
            shown == Some("\U{1F4C4} " + p.filename.value))
      && (row.kind.Or("") in {"", "text"} ==> shown.None?)
  }

  lemma SentIs(ties: Ties, db: Db, row: OutboundRow, p: Post, waId: MessageId)
    requires ties.Lawful() && !Reacts(row)
    ensures var db' := Posted(ties, db, row, p, waId, Done, Done);
            && (waId !in db.messages && p.chat in db.chats ==>
                  waId in db'.messages && SentRow(row, p, db'.messages[waId]))
            && (waId in db.messages || p.chat !in db.chats ==> db'.messages == db.messages)
            && (forall id | id in db.messages :: id in db'.messages && db'.messages[id] == db.messages[id])
            && (forall j | j in db.chats && j != p.chat :: j in db'.chats && db'.chats[j] == db.chats[j])
  {
  }

  lemma SentLabelIs(row: OutboundRow, p: Post)
    ensures SentLabel(row, p, NullString(PostedLabel(row, p)))
  {
    ShortPlace(p.place.name);
  }

  /** And its chat: with the label, the time and our side, nothing else new. */
  lemma SentChatIs(ties: Ties, db: Db, row: OutboundRow, p: Post, waId: MessageId) returns (shown: Option<string>)
    requires ties.Lawful() && !Reacts(row)
    ensures SentLabel(row, p, shown)
    ensures AsGiven(db.chats, Chat(p.chat, None, None, false, Some(p.stamp), shown, true, false),
                    Posted(ties, db, row, p, waId, Done, Done).chats)
  {
    shown := NullString(PostedLabel(row, p));
    SentLabelIs(row, p);
  }

  lemma ShortPlace(name: string)
    ensures |name| < 158 && Trim(name) != "" ==> LocationLabel(name) == PIN + Trim(name)
  {
    var left, right := TrimParts(name, IsSpace);
  }

  /** A sent reaction counts as an event of ours on its target, at WhatsApp's time. */
  lemma SentReactionCounts(q: People, ties: Ties, db: Db, rs: seq<Reaction>, row: OutboundRow, p: Post, waId: MessageId)
    requires ties.Lawful() && row.kind == Some("reaction") && AllShow(q, db.messages, rs)
    requires p.isGroup == p.chat.server.Group? && waId !in db.messages && p.chat in db.chats
    ensures var sender := if p.self == "" then None else Some(p.self);
            var r := Reaction(waId, p.chat, sender, [], true, p.isGroup, p.target, row.body.Or(""), p.stamp);
            AllShow(q, Posted(ties, db, row, p, waId, Done, Done).messages, rs + [r])
  {
    var r := PostedReaction(row, p, waId);
    StepShows(q, db, rs, r, ties.reaction(db.messages, r));
  }

  predicate Sendable(row: OutboundRow) {
    KindOf(row) in {"text", "image", "video", "audio", "document", "location"}
  }

  lemma CutTwice(s: string, n: nat)
    ensures Truncate(Truncate(s, n), n) == Truncate(s, n)
  {
  }

  /** A document's own label goes uncut in a recomputation. */
  lemma LongNames(filename: string)
    ensures var shown := "\U{1F4C4} " + filename;
            Truncate(shown, PREVIEW_MAX) == shown <==> Truncate(filename, PREVIEW_MAX - 2) == filename
  {
    var shown := "\U{1F4C4} " + filename;
    assert shown[2..] == filename;
    if |shown| > PREVIEW_MAX {
      assert shown[..PREVIEW_MAX] == "\U{1F4C4} " + filename[..PREVIEW_MAX - 2];
      assert Truncate(shown, PREVIEW_MAX) == "\U{1F4C4} " + Truncate(filename, PREVIEW_MAX - 2);
      assert ("\U{1F4C4} " + Truncate(filename, PREVIEW_MAX - 2))[2..] == Truncate(filename, PREVIEW_MAX - 2);
    }
  }

  /** The label a sent message gets is the one a recomputation gives its row,
      exactly when it has a caption, or is neither a video nor an audio and no
      document with a name too long for the label. */
  lemma SentLabelAgrees(row: OutboundRow, p: Post)
    requires Sendable(row)
    ensures PostedLabel(row, p) == TailPreview(PostedRow(row, p))
            <==> KindOf(row) == "location" || row.body.Or("") != ""
                 || (KindOf(row) !in {"video", "audio"}
                     && (KindOf(row) == "document" ==>
                           Truncate(p.filename.Or(""), PREVIEW_MAX - 2) == p.filename.Or("")))
  {
    var kind, filename := KindOf(row), p.filename.Or("");
    if kind == "location" {
      CutTwice(PIN + Trim(p.place.name), PREVIEW_MAX);
    } else if row.body.Or("") == "" {
      if kind == "document" { LongNames(filename); }
      assert "\U{1F3AC} Video"[0] != "\U{1F3A5} Video"[0] && "\U{1F3B5} Audio"[0] != "\U{1F3A4} Audio"[0];
    }
  }

  /** A sent message is in its thread exactly when the canonical chat already
      had a row (or the message was there): it is inserted before its chat is,
      and the foreign key drops it. The chat list shows it either way, and
      nothing of the chat is unread. */
  lemma SentIsInThread(ties: Ties, db: Db, row: OutboundRow, p: Post, waId: MessageId)
    requires ties.Lawful() && !Reacts(row)
    ensures var db' := Posted(ties, db, row, p, waId, Done, Done);
            && (waId in db'.messages <==> waId in db.messages || p.chat in db.chats)
            && p.chat in db'.chats && db'.chats[p.chat].lastAt == Some(p.stamp) && db'.chats[p.chat].lastFromMe
            && db'.chats[p.chat].unread == 0
  {
  }

  /** After the send the cached tail of its chat is what a recomputation would
      write exactly when the labels agree; an empty label leaves the old one. */
  lemma SentTailAgrees(ties: Ties, db: Db, row: OutboundRow, p: Post, waId: MessageId)
    requires ties.Lawful() && !Reacts(row) && Sendable(row) && p.chat in db.chats && waId !in db.messages
    requires forall id | id in db.messages && InChat(db.messages, p.chat, id) :: db.messages[id].at < p.stamp
    ensures var db' := Posted(ties, db, row, p, waId, Done, Done);
            p.chat in db'.chats
            && (InboxRuns.TailAgrees(db', p.chat)
                <==> Coalesce(NullString(PostedLabel(row, p)), db.chats[p.chat].lastPreview)
                     == Some(TailPreview(PostedRow(row, p))))
  {
    var db' := Posted(ties, db, row, p, waId, Done, Done);
    assert db'.messages == db.messages[waId := PostedRow(row, p)];
    assert InChat(db'.messages, p.chat, waId);
    forall id | InChat(db'.messages, p.chat, id) && id != waId ensures db'.messages[id].at < p.stamp {
      assert InChat(db.messages, p.chat, id);
    }
    assert IsTail(db'.messages, p.chat, waId);
    forall id | IsTail(db'.messages, p.chat, id) ensures id == waId {}
  }
}
