/** The two caches of wa_chats over whole runs: unread_count is a count of
    stored messages above a high-water mark, and the tail is what a
    recomputation would write. */
module InboxRuns {
  import opened Base
  import opened Tables
  import opened Text
  import opened Previews
  import opened Inbox

  /** The specification's memory: per chat the high-water mark of what was
      read, the time of the newest message so far, whether history came in, and
      whether any of it was out of order. */
  datatype Marks = Marks(high: map<Jid, int>, latest: Option<int>, backfilled: bool, disordered: bool)

  datatype Snapshot = Snapshot(db: Db, marks: Marks)

  const START := Snapshot(Db(map[], map[], map[]), Marks(map[], None, false, false))

  function HighOf(m: Marks, chat: Jid): Option<int> {
    if chat in m.high then Some(m.high[chat]) else None
  }

  function Later(a: Option<int>, b: int): int {
    if a.Some? && a.value > b then a.value else b
  }

  function Raised(m: Marks, chat: Jid, t: int): Marks {
    m.(high := m.high[chat := Later(HighOf(m, chat), t)])
  }

  function MarksAfterStore(m: Marks, e: Incoming): Marks
    requires e.Ok()
  {
    (if e.fromMe then Raised(m, e.chats[0], e.at) else m).(latest := Some(e.at))
  }

  /** The message is new and newer than everything. */
  predicate IsNew(s: Snapshot, e: Incoming) {
    e.Ok() && e.id !in s.db.messages && (s.marks.latest.Some? ==> e.at > s.marks.latest.value) && e.at <= FAR_FUTURE
  }

  /** The event ends as a message of its own. */
  predicate Stores(db: Db, e: Incoming) {
    (e.content.Ordinary? && e.content.kind != "system")
    || (e.content.DeleteOf? && !Locates(db.messages, e.content.target, e.chats))
  }

  /** The high-water mark of a chat: the last message from our side, the newest
      message a read receipt named, or everything so far when it named none
      that is stored. */
  ghost function NextMarks(ties: Ties, m: Marks, db: Db, ev: InboxEvent): Marks
    requires ties.Lawful() && (ev.Message? ==> ev.e.Ok()) && (ev.History? ==> ev.c.Ok())
  {
    match ev
    case Message(e, _) =>
      if !Stores(db, e) then m
      else MarksAfterStore(m, e)
    case SelfRead(chat, ids) =>
      MarksAfterRead(m, db, chat, ids)
    case Receipt(_, _) => m
    case History(c) =>
      m.(latest := LatestOf(m.latest, c.items), backfilled := true, disordered := m.disordered || !InOrder(ties, db, c))
  }

  /** A receipt reads a chat up to the newest stored row it names, or up to now. */
  function MarksAfterRead(m: Marks, db: Db, chat: Jid, ids: seq<MessageId>): Marks {
    if ids == [] then m
    else
      var newest := Newest(db.messages, ids);
      if newest.Some? then Raised(m, chat, newest.value).(latest := Some(Later(m.latest, newest.value)))
      else if m.latest.Some? then Raised(m, chat, m.latest.value)
      else m
  }

  /** A conversation of a history sync inserts a message, leaves no two messages
      with the same time, and deletes no other chat's newest message. */
  ghost predicate InOrder(ties: Ties, db: Db, c: Conversation)
    requires ties.Lawful() && c.Ok()
  {
    var db1 := db.(chats := UpsertedChat(db.chats, HistoryChat(c)));
    var messages' := AllFilled(ties, db1, c, c.items).messages;
    && AnyInserted(ties, db1, c, c.items) && DistinctTimes(messages')
    && forall chat, id | chat != c.chats[0] && id in db.messages && IsTail(db.messages, chat, id) ::
      SameLabel(db.messages, messages', id)
  }

  predicate SameLabel(messages: Messages, messages': Messages, id: MessageId) {
    id in messages && id in messages' && TailPreview(messages'[id]) == TailPreview(messages[id])
  }

  function LatestAfter(latest: Option<int>, it: HistoryItem): Option<int> {
    if it.HistoryReaction? then latest else Some(Later(latest, it.row.at))
  }

  function LatestOf(latest: Option<int>, items: seq<HistoryItem>): Option<int> {
    if items == [] then latest else LatestAfter(LatestOf(latest, items[..|items| - 1]), items[|items| - 1])
  }

  /** A message shows on arrival what its stored row shows. */
  predicate ShownAsStored(c: Content) {
    c.Ordinary? ==>
      && c.kind != "reaction" && PreviewFor(c.kind, c.body, c.media) != ""
      && (c.media.Some? ==>
            (c.media.value.kept || c.media.value.filename == "") && |c.media.value.place| <= LOCATION_NAME_MAX)
  }

  /** The hypotheses on the environment: message identifiers are distinct and
      message times strictly increase, also past what was read; no time is past
      the year 9999; labels are not empty and names were kept. */
  predicate Admissible(s: Snapshot, ev: InboxEvent) {
    match ev
    case Message(e, _) =>
      && e.Ok() && (Stores(s.db, e) ==> IsNew(s, e) && ShownAsStored(e.content))
      && (e.content.ReactionTo? ==> e.at <= FAR_FUTURE)
    case SelfRead(_, _) => true
    case Receipt(_, _) => true
    case History(c) => c.Ok() && forall k | 0 <= k < |c.items| :: ItemOk(c, c.items[k])
  }

  /** A row of a conversation is a message in its chat. */
  predicate ItemOk(c: Conversation, it: HistoryItem)
    requires c.Ok()
  {
    if it.HistoryReaction? then it.r.at <= FAR_FUTURE
    else it.row.chat == c.chats[0] && Countable(it.row) && it.row.at <= FAR_FUTURE
  }

  /** The state after a run; an event the hypotheses exclude is skipped. */
  ghost function After(ties: Ties, evs: seq<InboxEvent>): Snapshot
    requires ties.Lawful()
  {
    if evs == [] then START
    else
      var s, ev := After(ties, evs[..|evs| - 1]), evs[|evs| - 1];
      if Admissible(s, ev) then Snapshot(Applied(ties, s.db, ev), NextMarks(ties, s.marks, s.db, ev)) else s
  }

  // -------------------------------------------------------------- invariants

  ghost predicate HasChats(db: Db) {
    forall id :: id in db.messages ==> db.messages[id].chat in db.chats
  }

  /** No countable message and no mark is later than the newest message or read. */
  ghost predicate InTime(db: Db, m: Marks) {
    && (forall id :: id in db.messages ==> db.messages[id].at <= FAR_FUTURE)
    && (forall id ::
          id in db.messages && Countable(db.messages[id]) ==> m.latest.Some? && db.messages[id].at <= m.latest.value)
    && (forall chat :: chat in m.high ==> m.latest.Some? && m.high[chat] <= m.latest.value)
    && (m.latest.Some? ==> m.latest.value <= FAR_FUTURE)
  }

  ghost predicate Counted(db: Db, m: Marks, chat: Jid)
    requires chat in db.chats
  {
    var count := |UnreadSet(db.messages, chat, HighOf(m, chat))|;
    db.chats[chat].unread <= count && (!m.backfilled ==> db.chats[chat].unread == count)
  }

  ghost predicate AllCounted(db: Db, m: Marks) {
    forall chat :: chat in db.chats ==> Counted(db, m, chat)
  }

  ghost predicate DistinctTimes(messages: Messages) {
    forall a, b | a in messages && b in messages && Countable(messages[a]) && Countable(messages[b])
      && messages[a].at == messages[b].at :: a == b
  }

  /** The cached tail is the newest countable row. */
  ghost predicate TailAgrees(db: Db, chat: Jid)
    requires chat in db.chats
  {
    forall id | id in db.messages && IsTail(db.messages, chat, id) :: CacheIs(db.chats[chat], db.messages[id])
  }

  predicate CacheIs(c: ChatRow, t: MessageRow) {
    c.lastAt == Some(t.at) && c.lastPreview == Some(TailPreview(t)) && c.lastFromMe == t.fromMe
  }

  ghost predicate TailsAgree(db: Db) {
    DistinctTimes(db.messages) && forall chat :: chat in db.chats ==> TailAgrees(db, chat)
  }

  ghost predicate InboxInv(s: Snapshot) {
    && HasChats(s.db) && InTime(s.db, s.marks) && AllCounted(s.db, s.marks)
    && (!s.marks.disordered ==> TailsAgree(s.db))
  }

  // ------------------------------------------------- a message of its own

  lemma UnreadAfterInsert(messages: Messages, id: MessageId, m: MessageRow, chat: Jid, mark: Option<int>)
    requires id !in messages
    ensures var messages' := messages[id := m];
            UnreadSet(messages', chat, mark)
              == UnreadSet(messages, chat, mark) + if Unread(messages', chat, mark, id) then {id} else {}
  {
    var messages' := messages[id := m];
    forall other | other != id ensures Unread(messages', chat, mark, other) == Unread(messages, chat, mark, other) {}
  }

  /** Nothing stored so far is unread above the newest message. */
  lemma NothingAboveLatest(db: Db, m: Marks, chat: Jid, mark: int)
    requires InTime(db, m) && (m.latest.Some? ==> m.latest.value <= mark)
    ensures UnreadSet(db.messages, chat, Some(mark)) == {}
  {
  }

  lemma StoredIs(db: Db, e: Incoming, kind: string, body: string, media: Option<Media>)
    requires e.Ok() && kind != "system" && e.id !in db.messages
    ensures Stored(db, e, kind, body, media)
         == db.(chats := UpsertedChat(db.chats, ChatOf(e, kind, body, media)),
                messages := db.messages[e.id := StoredRow(e.chats[0], e.sender, e.fromMe, kind, body, media, e.at)])
  {
  }

  lemma StoreKeepsTimes(s: Snapshot, e: Incoming, row: MessageRow, chats': Chats)
    requires HasChats(s.db) && InTime(s.db, s.marks) && IsNew(s, e)
    requires row.at == e.at && row.chat in chats' && s.db.chats.Keys <= chats'.Keys
    ensures var db' := s.db.(chats := chats', messages := s.db.messages[e.id := row]);
            HasChats(db') && InTime(db', MarksAfterStore(s.marks, e))
  {
  }

  lemma StoreCounts(s: Snapshot, e: Incoming, kind: string, body: string, media: Option<Media>, chat: Jid)
    requires HasChats(s.db) && InTime(s.db, s.marks) && IsNew(s, e) && kind != "system" && kind != "reaction"
    requires chat in s.db.chats ==> Counted(s.db, s.marks, chat)
    requires chat in Stored(s.db, e, kind, body, media).chats
    ensures Counted(Stored(s.db, e, kind, body, media), MarksAfterStore(s.marks, e), chat)
  {
    var m' := MarksAfterStore(s.marks, e);
    var row := StoredRow(e.chats[0], e.sender, e.fromMe, kind, body, media, e.at);
    StoredIs(s.db, e, kind, body, media);
    UnreadAfterInsert(s.db.messages, e.id, row, chat, HighOf(m', chat));
    if chat == e.chats[0] {
      if e.fromMe {
        NothingAboveLatest(s.db, s.marks, chat, e.at);
      } else if chat !in s.db.chats {
        assert UnreadSet(s.db.messages, chat, HighOf(m', chat)) == {};
      }
    }
  }

  lemma StoreKeepsCounts(s: Snapshot, e: Incoming, kind: string, body: string, media: Option<Media>)
    requires InboxInv(s) && IsNew(s, e) && kind != "system" && kind != "reaction"
    ensures var db', m' := Stored(s.db, e, kind, body, media), MarksAfterStore(s.marks, e);
            HasChats(db') && InTime(db', m') && AllCounted(db', m')
  {
    var db', m' := Stored(s.db, e, kind, body, media), MarksAfterStore(s.marks, e);
    StoredIs(s.db, e, kind, body, media);
    StoreKeepsTimes(s, e, StoredRow(e.chats[0], e.sender, e.fromMe, kind, body, media, e.at), db'.chats);
    forall chat | chat in db'.chats ensures Counted(db', m', chat) {
      StoreCounts(s, e, kind, body, media, chat);
    }
  }

  lemma StoreKeepsTails(s: Snapshot, e: Incoming, kind: string, body: string, media: Option<Media>)
    requires HasChats(s.db) && InTime(s.db, s.marks) && TailsAgree(s.db) && IsNew(s, e) && kind != "system"
    requires ShownAsStored(Ordinary(kind, body, media))
    ensures TailsAgree(Stored(s.db, e, kind, body, media))
  {
    var db' := Stored(s.db, e, kind, body, media);
    var row := StoredRow(e.chats[0], e.sender, e.fromMe, kind, body, media, e.at);
    assert db'.messages == s.db.messages[e.id := row];
    PreviewsAgree(e.chats[0], e.sender, e.fromMe, kind, body, media, e.at);
    forall chat | chat in db'.chats ensures TailAgrees(db', chat) {
      forall id | id in db'.messages && IsTail(db'.messages, chat, id)
        ensures CacheIs(db'.chats[chat], db'.messages[id])
      {
        if chat == e.chats[0] {
          assert InChat(db'.messages, chat, e.id);
          assert id == e.id;
        } else {
          assert IsTail(s.db.messages, chat, id) by {
            forall other | other in s.db.messages && InChat(s.db.messages, chat, other)
              ensures s.db.messages[other].at <= s.db.messages[id].at
            {
              assert InChat(db'.messages, chat, other);
            }
          }
          assert TailAgrees(s.db, chat);
        }
      }
    }
  }

  // -------------------------------------------------------- edits and revokes

  /** The row keeps its place: chat, side, time and countability. */
  predicate SamePlace(m: MessageRow, m': MessageRow) {
    m'.chat == m.chat && m'.fromMe == m.fromMe && m'.at == m.at && m'.kind == m.kind
  }

  lemma InPlaceKeepsSets(messages: Messages, messages': Messages)
    requires messages'.Keys == messages.Keys
    requires forall id | id in messages :: SamePlace(messages[id], messages'[id])
    ensures forall chat, mark :: UnreadSet(messages', chat, mark) == UnreadSet(messages, chat, mark)
    ensures forall chat, id :: IsTail(messages', chat, id) == IsTail(messages, chat, id)
  {
    forall chat, id ensures InChat(messages', chat, id) == InChat(messages, chat, id) {}
    forall chat, mark ensures UnreadSet(messages', chat, mark) == UnreadSet(messages, chat, mark) {
      forall id ensures Unread(messages', chat, mark, id) == Unread(messages, chat, mark, id) {}
    }
    forall chat, id ensures IsTail(messages', chat, id) == IsTail(messages, chat, id) {
      if id in messages && InChat(messages, chat, id) {
        assert forall other | other in messages :: messages'[other].at == messages[other].at;
      }
    }
  }

  /** Rows that keep their place and unread counts that stay keep the counts. */
  lemma InPlaceKeepsCounts(s: Snapshot, db': Db)
    requires HasChats(s.db) && InTime(s.db, s.marks) && AllCounted(s.db, s.marks)
    requires db'.messages.Keys == s.db.messages.Keys && db'.chats.Keys == s.db.chats.Keys
    requires forall id | id in s.db.messages :: SamePlace(s.db.messages[id], db'.messages[id])
    requires forall chat | chat in s.db.chats :: db'.chats[chat].unread == s.db.chats[chat].unread
    ensures HasChats(db') && InTime(db', s.marks) && AllCounted(db', s.marks)
  {
    InPlaceKeepsSets(s.db.messages, db'.messages);
    forall chat | chat in db'.chats ensures Counted(db', s.marks, chat) { assert Counted(s.db, s.marks, chat); }
  }

  /** A text change followed by the recomputation of its chat. */
  lemma RewriteKeepsInv(ties: Ties, s: Snapshot, id: MessageId, m': MessageRow)
    requires ties.Lawful() && InboxInv(s) && id in s.db.messages && SamePlace(s.db.messages[id], m')
    ensures InboxInv(Snapshot(RecomputedFor(ties, WithRow(s.db, id, m'), m'.chat), s.marks))
  {
    var db1 := WithRow(s.db, id, m');
    var db2 := RecomputedFor(ties, db1, m'.chat);
    assert db2.messages == db1.messages && db2.chats.Keys == s.db.chats.Keys;
    InPlaceKeepsCounts(s, db2);
    if !s.marks.disordered { RewriteKeepsTails(ties, s.db, id, m'); }
  }

  lemma RewriteKeepsTails(ties: Ties, db: Db, id: MessageId, m': MessageRow)
    requires ties.Lawful() && TailsAgree(db) && id in db.messages && SamePlace(db.messages[id], m')
    ensures TailsAgree(RecomputedFor(ties, WithRow(db, id, m'), m'.chat))
  {
    var db1 := WithRow(db, id, m');
    var db2 := RecomputedFor(ties, db1, m'.chat);
    InPlaceKeepsSets(db.messages, db1.messages);
    assert db2.messages == db1.messages && db2.chats.Keys == db.chats.Keys;
    assert DistinctTimes(db2.messages);
    forall chat | chat in db2.chats ensures TailAgrees(db2, chat) {
      if chat == m'.chat {
        RecomputedAgrees(ties, db1, chat);
      } else {
        assert TailAgrees(db, chat);
        forall t | t in db2.messages && IsTail(db2.messages, chat, t)
          ensures CacheIs(db2.chats[chat], db2.messages[t])
        {
          assert t != id;
          assert IsTail(db.messages, chat, t);
        }
      }
    }
  }

  lemma RecomputedAgrees(ties: Ties, db: Db, chat: Jid)
    requires ties.Lawful() && DistinctTimes(db.messages) && chat in db.chats
    ensures var db' := RecomputedFor(ties, db, chat); chat in db'.chats && TailAgrees(db', chat)
  {
    var db' := RecomputedFor(ties, db, chat);
    var t := ties.tail(db.messages, chat);
    forall id | id in db'.messages && IsTail(db'.messages, chat, id)
      ensures CacheIs(db'.chats[chat], db'.messages[id])
    {
      assert InChat(db.messages, chat, id);
      assert t.Some? && IsTail(db.messages, chat, t.value);
      assert InChat(db.messages, chat, t.value);
      assert db.messages[id].at == db.messages[t.value].at;
    }
  }

  // ---------------------------------------------------------------- reactions

  /** Countable rows are untouched, and no row becomes countable. */
  ghost predicate SameCountable(messages: Messages, messages': Messages) {
    && (forall id :: id in messages && Countable(messages[id]) ==> id in messages' && messages'[id] == messages[id])
    && (forall id :: id in messages' && Countable(messages'[id]) ==> id in messages && messages'[id] == messages[id])
  }

  lemma ReactionLeavesMessages(db: Db, r: Reaction, existing: Option<MessageId>)
    requires IsExisting(db.messages, r, existing)
    ensures var db' := Reacted(db, r, existing);
            SameCountable(db.messages, db'.messages) && db'.chats == db.chats
            && (HasChats(db) ==> HasChats(db'))
            && forall id | id in db'.messages ::
                db'.messages[id].at == r.at || (id in db.messages && db'.messages[id].at == db.messages[id].at)
  {
    if r.target != Blank && existing.Some? { assert Matches(db.messages[existing.value], r); }
  }

  lemma SameCountableKeepsInv(s: Snapshot, messages': Messages)
    requires InboxInv(s) && SameCountable(s.db.messages, messages')
    requires forall id :: id in messages' ==> messages'[id].chat in s.db.chats && messages'[id].at <= FAR_FUTURE
    ensures InboxInv(Snapshot(s.db.(messages := messages'), s.marks))
  {
    var messages := s.db.messages;
    forall chat, id ensures InChat(messages', chat, id) == InChat(messages, chat, id) {}
    forall chat | chat in s.db.chats ensures Counted(s.db.(messages := messages'), s.marks, chat) {
      assert Counted(s.db, s.marks, chat);
      var mark := HighOf(s.marks, chat);
      forall id ensures Unread(messages', chat, mark, id) == Unread(messages, chat, mark, id) {}
      assert UnreadSet(messages', chat, mark) == UnreadSet(messages, chat, mark);
    }
    if !s.marks.disordered { SameCountableKeepsTails(s.db, messages'); }
  }

  lemma SameCountableKeepsTails(db: Db, messages': Messages)
    requires TailsAgree(db) && SameCountable(db.messages, messages')
    ensures TailsAgree(db.(messages := messages'))
  {
    var messages := db.messages;
    forall chat, id ensures InChat(messages', chat, id) == InChat(messages, chat, id) {}
    forall chat | chat in db.chats ensures TailAgrees(db.(messages := messages'), chat) {
      assert TailAgrees(db, chat);
      forall id | id in messages' && IsTail(messages', chat, id) ensures CacheIs(db.chats[chat], messages'[id]) {
        forall other | other in messages && InChat(messages, chat, other)
          ensures messages[other].at <= messages[id].at
        {
          assert InChat(messages', chat, other);
        }
        assert IsTail(messages, chat, id);
      }
    }
  }

  // ----------------------------------------------------------------- receipts

  lemma MarksAreInPlace(messages: Messages, ids: seq<MessageId>, status: string)
    ensures var messages' := Marked(messages, ids, status);
            messages'.Keys == messages.Keys
            && forall id | id in messages :: SamePlace(messages[id], messages'[id])
                 && TailPreview(messages'[id]) == TailPreview(messages[id])
  {
  }

  lemma ReceiptKeepsInv(s: Snapshot, ids: seq<MessageId>, status: string)
    requires InboxInv(s)
    ensures InboxInv(Snapshot(s.db.(messages := Marked(s.db.messages, ids, status)), s.marks))
  {
    MarksAreInPlace(s.db.messages, ids, status);
    InPlaceKeepsCounts(s, s.db.(messages := Marked(s.db.messages, ids, status)));
    if !s.marks.disordered { ReceiptKeepsTails(s.db, ids, status); }
  }

  lemma ReceiptKeepsTails(db: Db, ids: seq<MessageId>, status: string)
    requires TailsAgree(db)
    ensures TailsAgree(db.(messages := Marked(db.messages, ids, status)))
  {
    var db' := db.(messages := Marked(db.messages, ids, status));
    MarksAreInPlace(db.messages, ids, status);
    InPlaceKeepsSets(db.messages, db'.messages);
    forall chat | chat in db'.chats ensures TailAgrees(db', chat) {
      assert TailAgrees(db, chat);
      forall id | id in db'.messages && IsTail(db'.messages, chat, id)
        ensures CacheIs(db'.chats[chat], db'.messages[id])
      {
        assert IsTail(db.messages, chat, id);
      }
    }
  }

  lemma {:induction false} NewestIsStored(messages: Messages, ids: seq<MessageId>)
    ensures Newest(messages, ids).Some? ==>
              exists id :: id in ids && id in messages && messages[id].at == Newest(messages, ids).value
  {
    if ids != [] {
      NewestIsStored(messages, ids[1..]);
      if Newest(messages, ids).Some? && (ids[0] !in messages || messages[ids[0]].at != Newest(messages, ids).value) {
        var id :| id in ids[1..] && id in messages && messages[id].at == Newest(messages, ids[1..]).value;
        assert id in ids;
      } else if Newest(messages, ids).Some? {
        assert ids[0] in ids;
      }
    }
  }

  lemma UnreadShrinks(messages: Messages, chat: Jid, low: Option<int>, high: int)
    requires low.Some? ==> low.value <= high
    ensures UnreadSet(messages, chat, Some(high)) <= UnreadSet(messages, chat, low)
    ensures |UnreadSet(messages, chat, Some(high))| <= |UnreadSet(messages, chat, low)|
  {
    SubsetSize(UnreadSet(messages, chat, Some(high)), UnreadSet(messages, chat, low));
  }

  lemma ClearKeepsCounts(s: Snapshot, chat: Jid, ids: seq<MessageId>)
    requires InboxInv(s)
    ensures AllCounted(Cleared(s.db, chat, ids), MarksAfterRead(s.marks, s.db, chat, ids))
  {
    var db', m' := Cleared(s.db, chat, ids), MarksAfterRead(s.marks, s.db, chat, ids);
    forall other | other in db'.chats ensures Counted(db', m', other) {
      if other == chat && ids != [] { ClearCounts(s, chat, ids); } else { ClearCountsElsewhere(s, chat, ids, other); }
    }
  }

  lemma ClearCountsElsewhere(s: Snapshot, chat: Jid, ids: seq<MessageId>, other: Jid)
    requires other in s.db.chats && Counted(s.db, s.marks, other) && (other != chat || ids == [])
    ensures var db', m' := Cleared(s.db, chat, ids), MarksAfterRead(s.marks, s.db, chat, ids);
            other in db'.chats && Counted(db', m', other)
  {
  }

  lemma ClearKeepsInv(s: Snapshot, chat: Jid, ids: seq<MessageId>)
    requires InboxInv(s)
    ensures InboxInv(Snapshot(Cleared(s.db, chat, ids), MarksAfterRead(s.marks, s.db, chat, ids)))
  {
    ClearKeepsTimes(s, chat, ids);
    ClearKeepsCounts(s, chat, ids);
    if !s.marks.disordered { ClearKeepsTails(s.db, chat, ids); }
  }

  lemma ClearKeepsTimes(s: Snapshot, chat: Jid, ids: seq<MessageId>)
    requires HasChats(s.db) && InTime(s.db, s.marks)
    ensures var db', m' := Cleared(s.db, chat, ids), MarksAfterRead(s.marks, s.db, chat, ids);
            && HasChats(db') && InTime(db', m') && m'.backfilled == s.marks.backfilled
            && m'.disordered == s.marks.disordered
  {
    NewestIsStored(s.db.messages, ids);
  }

  lemma ClearKeepsTails(db: Db, chat: Jid, ids: seq<MessageId>)
    requires TailsAgree(db)
    ensures TailsAgree(Cleared(db, chat, ids))
  {
    var db' := Cleared(db, chat, ids);
    forall other | other in db'.chats ensures TailAgrees(db', other) {
      assert TailAgrees(db, other);
      assert db'.chats[other].lastPreview == db.chats[other].lastPreview;
    }
  }

  lemma ClearCounts(s: Snapshot, chat: Jid, ids: seq<MessageId>)
    requires InboxInv(s) && chat in s.db.chats && ids != []
    ensures Counted(Cleared(s.db, chat, ids), MarksAfterRead(s.marks, s.db, chat, ids), chat)
  {
    var messages, mark := s.db.messages, HighOf(s.marks, chat);
    assert Counted(s.db, s.marks, chat);
    NewestIsStored(messages, ids);
    var newest := Newest(messages, ids);
    if newest.Some? {
      UnreadShrinks(messages, chat, mark, Later(mark, newest.value));
      UnreadShrinks(messages, chat, Some(newest.value), Later(mark, newest.value));
    } else {
      NothingAboveLatest(s.db, s.marks, chat, FAR_FUTURE);
      if s.marks.latest.Some? {
        NothingAboveLatest(s.db, s.marks, chat, Later(mark, s.marks.latest.value));
      } else {
        assert UnreadSet(messages, chat, mark) == {};
      }
    }
  }

  // ------------------------------------------------------------------ history

  /** What is countable keeps its place, and what becomes so is in this chat. */
  ghost predicate OnlyAdds(messages: Messages, messages': Messages, chat: Jid) {
    && (forall id ::
          id in messages && Countable(messages[id]) ==> id in messages' && SamePlace(messages[id], messages'[id]))
    && (forall id :: id in messages' && Countable(messages'[id]) && (id in messages ==> !Countable(messages[id])) ==>
          messages'[id].chat == chat)
  }

  lemma RowOnlyAdds(db: Db, m: Marks, id: MessageId, row: MessageRow)
    requires HasChats(db) && InTime(db, m) && Countable(row) && row.at <= FAR_FUTURE
    ensures var db' := InsertedMessage(db, id, row);
            && HasChats(db') && db'.chats == db.chats && InTime(db', m.(latest := Some(Later(m.latest, row.at))))
            && OnlyAdds(db.messages, db'.messages, row.chat)
  {
  }

  lemma DeleteOnlyAdds(db: Db, m: Marks, id: MessageId, at: int, latest: int, chat: Jid)
    requires HasChats(db) && InTime(db, m) && id in db.messages && latest <= FAR_FUTURE
    ensures var db' := WithRow(db, id, RevokedRow(db.messages[id], at));
            && HasChats(db') && db'.chats == db.chats && InTime(db', m.(latest := Some(Later(m.latest, latest))))
            && OnlyAdds(db.messages, db'.messages, chat)
  {
  }

  lemma ReactionOnlyAdds(db: Db, m: Marks, r: Reaction, existing: Option<MessageId>, chat: Jid)
    requires HasChats(db) && InTime(db, m) && IsExisting(db.messages, r, existing) && r.at <= FAR_FUTURE
    ensures var db' := Reacted(db, r, existing);
            HasChats(db') && db'.chats == db.chats && InTime(db', m) && OnlyAdds(db.messages, db'.messages, chat)
  {
    ReactionLeavesMessages(db, r, existing);
  }

  lemma FilledOnlyAdds(ties: Ties, db: Db, m: Marks, c: Conversation, it: HistoryItem)
    requires ties.Lawful() && c.Ok() && ItemOk(c, it) && HasChats(db) && InTime(db, m)
    ensures var db' := Filled(ties, db, c, it);
            && HasChats(db') && db'.chats == db.chats && InTime(db', m.(latest := LatestAfter(m.latest, it)))
            && OnlyAdds(db.messages, db'.messages, c.chats[0])
  {
    match it
    case HistoryRow(id, row) => RowOnlyAdds(db, m, id, row);
    case HistoryDelete(target, fromMe, id, row) =>
      if Locates(db.messages, target, c.chats) {
        DeleteOnlyAdds(db, m, target, c.now, row.at, c.chats[0]);
      } else {
        RowOnlyAdds(db, m, id, row);
      }
    case HistoryReaction(r) => ReactionOnlyAdds(db, m, r, ties.reaction(db.messages, r), c.chats[0]);
  }

  lemma {:induction false} AllFilledOnlyAdd(ties: Ties, db: Db, m: Marks, c: Conversation, items: seq<HistoryItem>)
    requires ties.Lawful() && c.Ok() && HasChats(db) && InTime(db, m)
    requires forall k | 0 <= k < |items| :: ItemOk(c, items[k])
    ensures var db' := AllFilled(ties, db, c, items);
            && HasChats(db') && db'.chats == db.chats && InTime(db', m.(latest := LatestOf(m.latest, items)))
            && OnlyAdds(db.messages, db'.messages, c.chats[0])
  {
    if items != [] {
      var front := items[..|items| - 1];
      AllFilledOnlyAdd(ties, db, m, c, front);
      var m' := m.(latest := LatestOf(m.latest, front));
      FilledOnlyAdds(ties, AllFilled(ties, db, c, front), m', c, items[|items| - 1]);
    }
  }

  lemma MoreMessagesMoreUnread(messages: Messages, messages': Messages, chat: Jid, mark: Option<int>, home: Jid)
    requires OnlyAdds(messages, messages', home)
    ensures |UnreadSet(messages, chat, mark)| <= |UnreadSet(messages', chat, mark)|
  {
    forall id | id in UnreadSet(messages, chat, mark) ensures id in UnreadSet(messages', chat, mark) {
      assert InChat(messages', chat, id);
    }
    SubsetSize(UnreadSet(messages, chat, mark), UnreadSet(messages', chat, mark));
  }

  lemma HistoryKeepsInv(ties: Ties, s: Snapshot, c: Conversation)
    requires ties.Lawful() && InboxInv(s) && Admissible(s, History(c))
    ensures InboxInv(Snapshot(Synced(ties, s.db, c), NextMarks(ties, s.marks, s.db, History(c))))
  {
    var db1 := s.db.(chats := UpsertedChat(s.db.chats, HistoryChat(c)));
    var db2 := AllFilled(ties, db1, c, c.items);
    var m' := NextMarks(ties, s.marks, s.db, History(c));
    AllFilledOnlyAdd(ties, db1, s.marks, c, c.items);
    FillingKeepsCounts(s, db2, m', c);
    if AnyInserted(ties, db1, c, c.items) {
      RecomputeKeepsCounts(db2, m', c.chats[0], ties.tail(db2.messages, c.chats[0]));
    }
    if !m'.disordered { HistoryKeepsTails(ties, s.db, s.marks, c); }
  }

  lemma FillingKeepsCounts(s: Snapshot, db2: Db, m': Marks, c: Conversation)
    requires AllCounted(s.db, s.marks) && c.Ok() && OnlyAdds(s.db.messages, db2.messages, c.chats[0])
    requires db2.chats == UpsertedChat(s.db.chats, HistoryChat(c)) && m'.backfilled && m'.high == s.marks.high
    ensures AllCounted(db2, m')
  {
    forall chat | chat in db2.chats ensures Counted(db2, m', chat) {
      if chat in s.db.chats {
        assert Counted(s.db, s.marks, chat);
        MoreMessagesMoreUnread(s.db.messages, db2.messages, chat, HighOf(s.marks, chat), c.chats[0]);
      }
    }
  }

  /** The same rows are in the chat, each in its place. */
  ghost predicate SameChat(messages: Messages, messages': Messages, chat: Jid) {
    forall id ::
      && InChat(messages', chat, id) == InChat(messages, chat, id)
      && (InChat(messages, chat, id) ==> SamePlace(messages[id], messages'[id]))
  }

  lemma SameTail(messages: Messages, messages': Messages, chat: Jid, id: MessageId)
    requires SameChat(messages, messages', chat)
    ensures IsTail(messages', chat, id) <==> IsTail(messages, chat, id)
    ensures IsTail(messages, chat, id) ==> id in messages && id in messages' && SamePlace(messages[id], messages'[id])
  {
    if InChat(messages, chat, id) {
      forall other | InChat(messages, chat, other)
        ensures messages'[other].at == messages[other].at && InChat(messages', chat, other) {}
      forall other | InChat(messages', chat, other) ensures InChat(messages, chat, other) {}
    }
  }

  /** The tail of a chat whose cache and rows stayed is exact exactly when it
      shows what it showed. */
  lemma TailStays(db: Db, db': Db, chat: Jid, t: MessageId)
    requires chat in db.chats && chat in db'.chats && SameChat(db.messages, db'.messages, chat)
    requires var o, o' := db.chats[chat], db'.chats[chat]; o'.lastAt == o.lastAt && o'.lastPreview == o.lastPreview
    requires DistinctTimes(db.messages) && TailAgrees(db, chat) && t in db.messages && IsTail(db.messages, chat, t)
    ensures TailAgrees(db', chat)
            <==> db'.chats[chat].lastFromMe == db.messages[t].fromMe && SameLabel(db.messages, db'.messages, t)
  {
    assert CacheIs(db.chats[chat], db.messages[t]);
    SameTail(db.messages, db'.messages, chat, t);
    forall id | IsTail(db'.messages, chat, id) ensures id == t {
      SameTail(db.messages, db'.messages, chat, id);
      assert InChat(db.messages, chat, id) && InChat(db.messages, chat, t);
    }
  }

  /** Of any other chat the conversation leaves the cached tail as it is, so it
      is still exact if and only if no delete changed what its newest message
      shows: only the conversation's own chat is recomputed. */
  lemma OtherTails(ties: Ties, db: Db, m: Marks, c: Conversation, chat: Jid, t: MessageId)
    requires ties.Lawful() && c.Ok() && HasChats(db) && InTime(db, m)
    requires forall k | 0 <= k < |c.items| :: ItemOk(c, c.items[k])
    requires chat != c.chats[0] && chat in db.chats && DistinctTimes(db.messages) && TailAgrees(db, chat)
    requires t in db.messages && IsTail(db.messages, chat, t)
    ensures var db' := Synced(ties, db, c);
            chat in db'.chats && (TailAgrees(db', chat) <==> SameLabel(db.messages, db'.messages, t))
  {
    var db' := SyncedIs(ties, db, m, c);
    assert CacheIs(db.chats[chat], db.messages[t]);
    TailStays(db, db', chat, t);
  }

  /** What a conversation leaves of the messages, and of the other chats. */
  lemma SyncedIs(ties: Ties, db: Db, m: Marks, c: Conversation) returns (db': Db)
    requires ties.Lawful() && c.Ok() && HasChats(db) && InTime(db, m)
    requires forall k | 0 <= k < |c.items| :: ItemOk(c, c.items[k])
    ensures db' == Synced(ties, db, c)
    ensures db'.messages == AllFilled(ties, db.(chats := UpsertedChat(db.chats, HistoryChat(c))), c, c.items).messages
    ensures OnlyAdds(db.messages, db'.messages, c.chats[0])
    ensures !AnyInserted(ties, db.(chats := UpsertedChat(db.chats, HistoryChat(c))), c, c.items) ==>
              db'.chats == UpsertedChat(db.chats, HistoryChat(c))
    ensures db'.chats.Keys == db.chats.Keys + {c.chats[0]}
    ensures forall chat | chat in db.chats && chat != c.chats[0] :: db'.chats[chat] == db.chats[chat]
  {
    db' := Synced(ties, db, c);
    var db1 := db.(chats := UpsertedChat(db.chats, HistoryChat(c)));
    AllFilledOnlyAdd(ties, db1, m, c, c.items);
  }

  /** The chat's own tail is recomputed, and no other shows anything new. */
  lemma HistoryKeepsTails(ties: Ties, db: Db, m: Marks, c: Conversation)
    requires ties.Lawful() && c.Ok() && HasChats(db) && InTime(db, m) && TailsAgree(db) && InOrder(ties, db, c)
    requires forall k | 0 <= k < |c.items| :: ItemOk(c, c.items[k])
    ensures TailsAgree(Synced(ties, db, c))
  {
    var db' := SyncedIs(ties, db, m, c);
    var db1 := db.(chats := UpsertedChat(db.chats, HistoryChat(c)));
    AllFilledOnlyAdd(ties, db1, m, c, c.items);
    RecomputedAgrees(ties, AllFilled(ties, db1, c, c.items), c.chats[0]);
    forall chat | chat in db'.chats ensures TailAgrees(db', chat) {
      if chat != c.chats[0] { OtherTailStays(db, db', c.chats[0], chat); }
    }
  }

  lemma OtherTailStays(db: Db, db': Db, home: Jid, chat: Jid)
    requires chat in db.chats && chat in db'.chats && db'.chats[chat] == db.chats[chat] && TailAgrees(db, chat)
    requires OnlyAdds(db.messages, db'.messages, home) && chat != home
    requires forall id | id in db.messages && IsTail(db.messages, chat, id) :: SameLabel(db.messages, db'.messages, id)
    ensures TailAgrees(db', chat)
  {
    forall id | id in db'.messages && IsTail(db'.messages, chat, id)
      ensures CacheIs(db'.chats[chat], db'.messages[id])
    {
      SameTail(db.messages, db'.messages, chat, id);
      assert CacheIs(db.chats[chat], db.messages[id]);
    }
  }

  /** A stored message afterwards: as it was, but for its first delete. */
  predicate Remains(m: MessageRow, m': MessageRow) {
    m' == m.(revokedAt := m'.revokedAt) && (m.revokedAt.Some? ==> m' == m)
  }

  lemma FilledKeeps(ties: Ties, db: Db, c: Conversation, it: HistoryItem, id: MessageId)
    requires ties.Lawful() && id in db.messages
    ensures var after := Filled(ties, db, c, it);
            && after.chats == db.chats && id in after.messages
            && (Countable(db.messages[id]) ==> Remains(db.messages[id], after.messages[id]))
  {
    if it.HistoryReaction? { assert IsExisting(db.messages, it.r, ties.reaction(db.messages, it.r)); }
  }

  /** From the k-th item on. */
  lemma {:induction false} RestKeeps(ties: Ties, db: Db, c: Conversation, items: seq<HistoryItem>, k: nat,
                                     id: MessageId)
    requires ties.Lawful() && k <= |items| && id in AllFilled(ties, db, c, items[..k]).messages
    ensures var before, after := AllFilled(ties, db, c, items[..k]).messages, AllFilled(ties, db, c, items).messages;
            id in after && (Countable(before[id]) ==> Remains(before[id], after[id]))
  {
    if k == |items| {
      assert items[..k] == items;
    } else {
      var front := items[..|items| - 1];
      assert front[..k] == items[..k];
      RestKeeps(ties, db, c, front, k, id);
      FilledKeeps(ties, AllFilled(ties, db, c, front), c, items[|items| - 1], id);
    }
  }

  lemma {:induction false} FillingKeepsChats(ties: Ties, db: Db, c: Conversation, items: seq<HistoryItem>)
    requires ties.Lawful()
    ensures AllFilled(ties, db, c, items).chats == db.chats
  {
    if items != [] { FillingKeepsChats(ties, db, c, items[..|items| - 1]); }
  }

  /** What becomes of each message of a conversation: a new one is stored as it
      is; a delete flags its target, where it is found and the sender may, and
      is stored itself where it is not found. */
  lemma HistoryStores(ties: Ties, db: Db, c: Conversation, k: nat)
    requires ties.Lawful() && c.Ok() && k < |c.items| && ItemOk(c, c.items[k])
    ensures var db1 := db.(chats := UpsertedChat(db.chats, HistoryChat(c)));
            var before := AllFilled(ties, db1, c, c.items[..k]).messages;
            var after := Synced(ties, db, c).messages;
            match c.items[k]
            case HistoryRow(id, row) => id in after && (id !in before ==> Remains(row, after[id]))
            case HistoryDelete(target, fromMe, id, row) =>
              if Locates(before, target, c.chats) then
                (c.isGroup || before[target].fromMe == fromMe) && Countable(before[target]) ==>
                  target in after && after[target].revokedAt.Some? && after[target].body == before[target].body
              else id in after && (id !in before ==> Remains(row, after[id]))
            case HistoryReaction(_) => true
  {
    var db1 := db.(chats := UpsertedChat(db.chats, HistoryChat(c)));
    var front, it := c.items[..k], c.items[k];
    assert c.items[..k + 1][..k] == front;
    FillingKeepsChats(ties, db1, c, front);
    var before := AllFilled(ties, db1, c, front).messages;
    var id := if it.HistoryReaction? then Blank
              else if it.HistoryDelete? && Locates(before, it.target, c.chats) then it.target
              else it.id;
    if !it.HistoryReaction? { RestKeeps(ties, db1, c, c.items, k + 1, id); }
  }

  lemma RecomputeKeepsCounts(db: Db, m: Marks, chat: Jid, tail: Option<MessageId>)
    requires HasChats(db) && InTime(db, m) && AllCounted(db, m) && (tail.Some? ==> tail.value in db.messages)
    ensures var db' := Recomputed(db, chat, tail); HasChats(db') && InTime(db', m) && AllCounted(db', m)
  {
    var db' := Recomputed(db, chat, tail);
    forall other | other in db'.chats ensures Counted(db', m, other) { assert Counted(db, m, other); }
  }

  // ---------------------------------------------------------------- every run

  lemma StoreKeepsInv(s: Snapshot, e: Incoming, kind: string, body: string, media: Option<Media>)
    requires InboxInv(s) && IsNew(s, e) && kind != "system" && ShownAsStored(Ordinary(kind, body, media))
    ensures InboxInv(Snapshot(Stored(s.db, e, kind, body, media), MarksAfterStore(s.marks, e)))
  {
    StoreKeepsCounts(s, e, kind, body, media);
    if !s.marks.disordered { StoreKeepsTails(s, e, kind, body, media); }
  }

  lemma ReactKeepsInv(s: Snapshot, r: Reaction, existing: Option<MessageId>)
    requires InboxInv(s) && IsExisting(s.db.messages, r, existing)
    requires r.at <= FAR_FUTURE
    ensures InboxInv(Snapshot(Reacted(s.db, r, existing), s.marks))
  {
    var db' := Reacted(s.db, r, existing);
    ReactionLeavesMessages(s.db, r, existing);
    SameCountableKeepsInv(s, db'.messages);
    assert db' == s.db.(messages := db'.messages);
  }

  lemma DeleteKeepsInv(ties: Ties, s: Snapshot, e: Incoming, now: int)
    requires ties.Lawful() && InboxInv(s) && Admissible(s, Message(e, now)) && e.content.DeleteOf?
    ensures InboxInv(Snapshot(Handled(ties, s.db, e, now), NextMarks(ties, s.marks, s.db, Message(e, now))))
  {
    var target := e.content.target;
    if !Locates(s.db.messages, target, e.chats) {
      StoreKeepsInv(s, e, "revoked", "", None);
    } else if MayRevoke(s.db.messages, target, e.chats, e.fromMe, e.isGroup) {
      RewriteKeepsInv(ties, s, target, RevokedRow(s.db.messages[target], now));
    }
  }

  lemma MessageKeepsInv(ties: Ties, s: Snapshot, e: Incoming, now: int)
    requires ties.Lawful() && InboxInv(s) && Admissible(s, Message(e, now))
    ensures InboxInv(Snapshot(Handled(ties, s.db, e, now), NextMarks(ties, s.marks, s.db, Message(e, now))))
  {
    match e.content
    case Dropped =>
    case EditOf(target, newBody) =>
      if MayEdit(s.db.messages, target, e.chats, e.fromMe) {
        RewriteKeepsInv(ties, s, target, EditedRow(s.db.messages[target], NullString(newBody), now));
      }
    case DeleteOf(_) => DeleteKeepsInv(ties, s, e, now);
    case ReactionTo(target, _) =>
      if target != Blank {
        ReactKeepsInv(s, ReactionOf(s.db, e), ties.reaction(s.db.messages, ReactionOf(s.db, e)));
      }
    case Ordinary(kind, body, media) =>
      if kind != "system" { StoreKeepsInv(s, e, kind, body, media); }
  }

  lemma StepKeepsInv(ties: Ties, s: Snapshot, ev: InboxEvent)
    requires ties.Lawful() && InboxInv(s) && Admissible(s, ev)
    ensures InboxInv(Snapshot(Applied(ties, s.db, ev), NextMarks(ties, s.marks, s.db, ev)))
  {
    match ev
    case Message(e, now) => MessageKeepsInv(ties, s, e, now);
    case SelfRead(chat, ids) => ClearKeepsInv(s, chat, ids);
    case Receipt(ids, status) => ReceiptKeepsInv(s, ids, status);
    case History(c) => HistoryKeepsInv(ties, s, c);
  }

  lemma {:induction false} InboxAlways(ties: Ties, evs: seq<InboxEvent>)
    requires ties.Lawful()
    ensures InboxInv(After(ties, evs))
  {
    if evs != [] {
      InboxAlways(ties, evs[..|evs| - 1]);
      var s, ev := After(ties, evs[..|evs| - 1]), evs[|evs| - 1];
      if Admissible(s, ev) { StepKeepsInv(ties, s, ev); }
    }
  }

  /** Unread is exact: after every event of every run, unread_count is the
      number of stored inbound messages above the high-water mark, and with
      history backfill at most that. */
  lemma UnreadIsExact(ties: Ties, evs: seq<InboxEvent>, chat: Jid)
    requires ties.Lawful() && chat in After(ties, evs).db.chats
    ensures var s := After(ties, evs);
            var count := |UnreadSet(s.db.messages, chat, HighOf(s.marks, chat))|;
            s.db.chats[chat].unread <= count && (!s.marks.backfilled ==> s.db.chats[chat].unread == count)
  {
    InboxAlways(ties, evs);
    assert Counted(After(ties, evs).db, After(ties, evs).marks, chat);
  }

  /** Every conversation of every history sync so far was in order. */
  ghost predicate HistoryInOrder(ties: Ties, evs: seq<InboxEvent>)
    requires ties.Lawful()
  {
    evs == [] ||
    (var front, ev := evs[..|evs| - 1], evs[|evs| - 1];
     HistoryInOrder(ties, front) && (ev.History? && ev.c.Ok() ==> InOrder(ties, After(ties, front).db, ev.c)))
  }

  lemma {:induction false} InOrderIsNoted(ties: Ties, evs: seq<InboxEvent>)
    requires ties.Lawful() && HistoryInOrder(ties, evs)
    ensures !After(ties, evs).marks.disordered
  {
    if evs != [] {
      InOrderIsNoted(ties, evs[..|evs| - 1]);
    }
  }

  /** The tail is exact: after every run whose history, if any, is in order,
      recomputing any chat's tail changes nothing. */
  lemma TailIsExact(ties: Ties, evs: seq<InboxEvent>, chat: Jid)
    requires ties.Lawful() && HistoryInOrder(ties, evs)
    ensures var db := After(ties, evs).db; RecomputedFor(ties, db, chat) == db
  {
    InboxAlways(ties, evs);
    InOrderIsNoted(ties, evs);
    var db := After(ties, evs).db;
    var t := ties.tail(db.messages, chat);
    if t.Some? && chat in db.chats {
      assert TailAgrees(db, chat);
      assert IsTail(db.messages, chat, t.value);
      assert CacheIs(db.chats[chat], db.messages[t.value]);
      assert db.chats[chat := db.chats[chat]] == db.chats;
    }
  }

  // --------------------------------------------------- where the caches drift

  /** The hypothesis of distinct identifiers is needed: a message delivered
      again is not stored again but is counted again, so an inbound one leaves
      unread_count one above the exact count, whatever the state. */
  lemma RedeliveryOvercounts(db: Db, mark: Option<int>, e: Incoming, kind: string, body: string, media: Option<Media>)
    requires e.Ok() && kind != "system" && e.id in db.messages && e.chats[0] in db.chats
    requires db.chats[e.chats[0]].unread == |UnreadSet(db.messages, e.chats[0], mark)|
    ensures var db' := Stored(db, e, kind, body, media);
            var count := |UnreadSet(db'.messages, e.chats[0], mark)|;
            (db'.chats[e.chats[0]].unread == count <==> e.fromMe && count == 0)
            && (!e.fromMe ==> db'.chats[e.chats[0]].unread == count + 1)
  {
    assert Stored(db, e, kind, body, media).messages == db.messages;
  }

  /** A conversation that inserts nothing resets last_message_from_me and
      recomputes nothing: the cached tail survives it exactly when the newest
      message is not from our side and no delete changed what it shows. */
  lemma EmptyHistoryKeepsTail(ties: Ties, db: Db, m: Marks, c: Conversation, t: MessageId)
    requires ties.Lawful() && c.Ok() && HasChats(db) && InTime(db, m) && c.chats[0] in db.chats
    requires forall k | 0 <= k < |c.items| :: ItemOk(c, c.items[k])
    requires !AnyInserted(ties, db.(chats := UpsertedChat(db.chats, HistoryChat(c))), c, c.items)
    requires DistinctTimes(db.messages) && TailAgrees(db, c.chats[0])
    requires t in db.messages && IsTail(db.messages, c.chats[0], t)
    ensures var db' := Synced(ties, db, c);
            && c.chats[0] in db'.chats
            && (TailAgrees(db', c.chats[0]) <==> !db.messages[t].fromMe && SameLabel(db.messages, db'.messages, t))
  {
    var db1 := db.(chats := UpsertedChat(db.chats, HistoryChat(c)));
    NothingInserted(ties, db1, c, c.items);
    var db' := SyncedIs(ties, db, m, c);
    TailStays(db, db', c.chats[0], t);
  }

  /** No row becomes countable, those that are keep their place. */
  ghost predicate NothingNew(messages: Messages, messages': Messages) {
    && (forall id ::
          id in messages && Countable(messages[id]) ==> id in messages' && SamePlace(messages[id], messages'[id]))
    && (forall id :: id in messages' && Countable(messages'[id]) ==> id in messages && Countable(messages[id]))
  }

  lemma {:induction false} NothingInserted(ties: Ties, db: Db, c: Conversation, items: seq<HistoryItem>)
    requires ties.Lawful() && c.Ok() && !AnyInserted(ties, db, c, items)
    ensures NothingNew(db.messages, AllFilled(ties, db, c, items).messages)
  {
    if items != [] {
      var front, it := items[..|items| - 1], items[|items| - 1];
      NothingInserted(ties, db, c, front);
      var before := AllFilled(ties, db, c, front);
      if it.HistoryReaction? { ReactionLeavesMessages(before, it.r, ties.reaction(before.messages, it.r)); }
    }
  }
}
