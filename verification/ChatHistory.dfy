/** What UpsertChat leaves of a chat over time: a NULL never erases what is
    known, and a new value always replaces it. */
module ChatHistory {
  import opened Base
  import opened Tables

  function AfterUpserts(chats: Chats, cs: seq<Chat>): Chats {
    if cs == [] then chats else UpsertedChat(AfterUpserts(chats, cs[..|cs| - 1]), cs[|cs| - 1])
  }

  /** v is the last non-NULL value the calls gave this chat's column, or what
      it was when they gave none. */
  ghost predicate LastGiven<T>(cs: seq<Chat>, jid: Jid, given: Chat -> Option<T>, before: Option<T>, v: Option<T>) {
    || (v == before && forall k | 0 <= k < |cs| && cs[k].jid == jid :: given(cs[k]).None?)
    || (v.Some? && exists k :: 0 <= k < |cs| && GivenAt(cs, jid, given, k) && v == given(cs[k]))
  }

  ghost predicate GivenAt<T>(cs: seq<Chat>, jid: Jid, given: Chat -> Option<T>, k: nat)
    requires k < |cs|
  {
    cs[k].jid == jid && given(cs[k]).Some? && forall j | k < j < |cs| && cs[j].jid == jid :: given(cs[j]).None?
  }

  /** One call more. */
  lemma GivenOn<T>(cs: seq<Chat>, c: Chat, jid: Jid, given: Chat -> Option<T>, before: Option<T>, v: Option<T>)
    requires LastGiven(cs, jid, given, before, v)
    ensures LastGiven(cs + [c], jid, given, before, if c.jid == jid then Coalesce(given(c), v) else v)
  {
    var all := cs + [c];
    if c.jid == jid && given(c).Some? {
      assert GivenAt(all, jid, given, |cs|);
    } else if k :| 0 <= k < |cs| && GivenAt(cs, jid, given, k) && v == given(cs[k]) && v.Some? {
      assert GivenAt(all, jid, given, k) && v == given(all[k]);
    }
  }

  function Cell<T>(chats: Chats, jid: Jid, column: ChatRow -> Option<T>): Option<T> {
    if jid in chats then column(chats[jid]) else None
  }

  function NameOf(o: ChatRow): Option<string> { o.displayName }

  function NameGiven(c: Chat): Option<string> { c.displayName }

  function PhoneOf(o: ChatRow): Option<string> { o.phone }

  function PhoneGiven(c: Chat): Option<string> { c.phone }

  function TimeOf(o: ChatRow): Option<int> { o.lastAt }

  function TimeGiven(c: Chat): Option<int> { c.at }

  function PreviewOf(o: ChatRow): Option<string> { o.lastPreview }

  function PreviewGiven(c: Chat): Option<string> { c.preview }

  /** Over any sequence of UpsertChat calls: name, phone, time and preview of
      every chat are the last that were given, the side of the tail is the last
      call's, a chat never stops or starts being a group, and none disappears. */
  lemma {:induction false} ChatsRemember(chats: Chats, cs: seq<Chat>, jid: Jid)
    ensures var after := AfterUpserts(chats, cs);
      && LastGiven(cs, jid, NameGiven, Cell(chats, jid, NameOf), Cell(after, jid, NameOf))
      && LastGiven(cs, jid, PhoneGiven, Cell(chats, jid, PhoneOf), Cell(after, jid, PhoneOf))
      && LastGiven(cs, jid, TimeGiven, Cell(chats, jid, TimeOf), Cell(after, jid, TimeOf))
      && LastGiven(cs, jid, PreviewGiven, Cell(chats, jid, PreviewOf), Cell(after, jid, PreviewOf))
      && (jid in after <==> jid in chats || exists k :: 0 <= k < |cs| && cs[k].jid == jid)
      && (jid in chats ==> after[jid].isGroup == chats[jid].isGroup)
      && (cs != [] && cs[|cs| - 1].jid == jid ==> after[jid].lastFromMe == cs[|cs| - 1].fromMe)
  {
    if cs != [] {
      var front, c := cs[..|cs| - 1], cs[|cs| - 1];
      var before := AfterUpserts(chats, front);
      ChatsRemember(chats, front, jid);
      GivenOn(front, c, jid, NameGiven, Cell(chats, jid, NameOf), Cell(before, jid, NameOf));
      GivenOn(front, c, jid, PhoneGiven, Cell(chats, jid, PhoneOf), Cell(before, jid, PhoneOf));
      GivenOn(front, c, jid, TimeGiven, Cell(chats, jid, TimeOf), Cell(before, jid, TimeOf));
      GivenOn(front, c, jid, PreviewGiven, Cell(chats, jid, PreviewOf), Cell(before, jid, PreviewOf));
      assert front + [c] == cs;
    }
  }
}
