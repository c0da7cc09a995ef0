/** Chat addresses: one canonical form per chat, every form a chat may be
    stored under (canonicalChatJID, chatAliases), and what that means for
    events that name an earlier message. */
module Addresses {
  import opened Base
  import opened Tables
  import opened Inbox
  import opened Text

  /** canonicalChatJID: a phone address becomes its LID when the mapping knows it. */
  function CanonicalChat(lids: map<string, string>, raw: Jid): Jid {
    if !raw.server.Phone? || raw.user == "" then raw
    else if raw.user !in lids || lids[raw.user] == "" then raw
    else Jid(lids[raw.user], Lid)
  }

  /** What a process knows about phone and LID pairs, looked up both ways. */
  datatype LidMap = LidMap(lid: map<string, string>, phone: map<string, string>) {
    /** A partial bijection between non-empty users. */
    ghost predicate Bijective() {
      && (forall p :: p in lid ==> p != "" && lid[p] != "" && lid[p] in phone && phone[lid[p]] == p)
      && (forall l :: l in phone ==> l != "" && phone[l] != "" && phone[l] in lid && lid[phone[l]] == l)
    }

    /** Pairs are learned and never change. */
    ghost predicate Within(later: LidMap) {
      && (forall p :: p in lid ==> p in later.lid && later.lid[p] == lid[p])
      && (forall l :: l in phone ==> l in later.phone && later.phone[l] == phone[l])
    }

    /** The pair of this address is known. */
    predicate Knows(j: Jid) {
      (j.server.Phone? && j.user in lid) || (j.server.Lid? && j.user in phone)
    }

    function Canonical(raw: Jid): Jid {
      CanonicalChat(lid, raw)
    }
  }

  /** resolvePNForLID */
  function PhoneFor(m: LidMap, j: Jid): Option<Jid> {
    if j.server.Lid? && j.user in m.phone then Some(Jid(m.phone[j.user], Phone)) else None
  }

  function AliasSet(m: LidMap, raw: Jid): set<Jid> {
    var canonical := m.Canonical(raw);
    {canonical}
      + (if raw.user != "" then {raw} else {})
      + (if PhoneFor(m, canonical).Some? && PhoneFor(m, canonical).value.user != ""
         then {PhoneFor(m, canonical).value} else {})
      + (if PhoneFor(m, raw).Some? && PhoneFor(m, raw).value.user != "" then {PhoneFor(m, raw).value} else {})
  }

  /** The closure `add`: skip what has no user, skip repeats. */
  method Add(out: seq<Jid>, j: Option<Jid>) returns (out': seq<Jid>)
    requires NoRepeats(out)
    ensures out <= out' && NoRepeats(out')
    ensures forall x :: x in out' <==> x in out || (j == Some(x) && x.user != "")
  {
    out' := out;
    if j.None? || j.value.user == "" { return; }
    for i := 0 to |out|
      invariant out' == out && j.value !in out[..i]
    {
      if out[i] == j.value { return; }
    }
    assert out[..|out|] == out;
    out' := out + [j.value];
  }

  /** chatAliases: canonical first, no repeats, exactly the known forms. */
  method ChatAliases(m: LidMap, raw: Jid) returns (out: seq<Jid>)
    ensures |out| > 0 && out[0] == m.Canonical(raw)
    ensures NoRepeats(out)
    ensures forall j :: j in out <==> j in AliasSet(m, raw)
  {
    var canonical := m.Canonical(raw);
    out := [canonical];
    out := Add(out, Some(raw));
    out := Add(out, PhoneFor(m, canonical));
    out := Add(out, PhoneFor(m, raw));
  }

  /** Two addresses of one contact, in the end. */
  predicate SameContact(all: LidMap, a: Jid, b: Jid) {
    || a == b
    || (a.server.Phone? && b.server.Lid? && a.user in all.lid && all.lid[a.user] == b.user)
    || (b.server.Phone? && a.server.Lid? && b.user in all.lid && all.lid[b.user] == a.user)
  }

  lemma CanonicalIsIdempotent(m: LidMap, later: LidMap, raw: Jid)
    requires m.Bijective() && later.Bijective() && m.Within(later)
    ensures m.Canonical(m.Canonical(raw)) == m.Canonical(raw)
    ensures later.Canonical(m.Canonical(raw)) == later.Canonical(raw)
  {
  }

  /** What the process knew at one moment is part of one pairing that never changes. */
  ghost predicate Learned(all: LidMap, m: LidMap, later: LidMap) {
    && all.Bijective() && m.Bijective() && later.Bijective()
    && m.Within(later) && later.Within(all)
  }

  /** Alias completeness: a chat stored under its canonical form at one time is
      among the aliases of an event of the same contact at a later time exactly
      when the event came in the same form or the pair is known by then. */
  lemma FoundLater(all: LidMap, m: LidMap, later: LidMap, stored: Jid, raw: Jid)
    requires Learned(all, m, later) && SameContact(all, stored, raw)
    ensures m.Canonical(stored) in AliasSet(later, raw) <==> stored == raw || later.Knows(raw)
  {
  }

  /** An event of one contact never reaches a chat of another. */
  lemma StrangersNeverMeet(all: LidMap, m: LidMap, later: LidMap, stored: Jid, raw: Jid)
    requires Learned(all, m, later) && !SameContact(all, stored, raw)
    ensures m.Canonical(stored) !in AliasSet(later, raw)
  {
  }

  /** The message an event is about. */
  function TargetOf(c: Content): MessageId {
    match c
    case EditOf(target, _) => target
    case DeleteOf(target) => target
    case ReactionTo(target, _) => target
    case _ => Blank
  }

  /** Every row that is not as it was belongs to this chat, and so does every
      chat-list entry. */
  ghost predicate OnlyIn(db: Db, db': Db, chat: Jid) {
    && db'.outbound == db.outbound
    && (forall id | id in db'.messages ::
          (id in db.messages && db'.messages[id] == db.messages[id]) || db'.messages[id].chat == chat)
    && (forall id | id in db.messages :: id in db'.messages && db'.messages[id].chat == db.messages[id].chat)
    && (forall j | j != chat :: (j in db'.chats <==> j in db.chats) && (j in db.chats ==> db'.chats[j] == db.chats[j]))
  }

  /** An edit, a delete or a reaction names a message stored earlier: it finds
      it exactly when the sender is the same contact and the form or the pair
      is known. Then it acts in the chat the message is stored under and
      nowhere else; otherwise in no chat but its own. */
  lemma ActsWhereStored(all: LidMap, m: LidMap, later: LidMap, ties: Ties, db: Db, stored: Jid, raw: Jid, e: Incoming,
                        now: int)
    requires Learned(all, m, later) && ties.Lawful() && e.Ok()
    requires TargetOf(e.content) != Blank && TargetOf(e.content) in db.messages
    requires db.messages[TargetOf(e.content)].chat == m.Canonical(stored)
    requires e.chats[0] == later.Canonical(raw) && NoRepeats(e.chats)
            && forall j :: j in e.chats <==> j in AliasSet(later, raw)
    ensures Locates(db.messages, TargetOf(e.content), e.chats)
            <==> SameContact(all, stored, raw) && (stored == raw || later.Knows(raw))
    ensures OnlyIn(db, Handled(ties, db, e, now),
                   if Locates(db.messages, TargetOf(e.content), e.chats)
                   then m.Canonical(stored) else later.Canonical(raw))
  {
    if SameContact(all, stored, raw) {
      FoundLater(all, m, later, stored, raw);
    } else {
      StrangersNeverMeet(all, m, later, stored, raw);
    }
    ActsInOneChat(ties, db, e, now);
  }

  lemma ActsInOneChat(ties: Ties, db: Db, e: Incoming, now: int)
    requires ties.Lawful() && e.Ok() && TargetOf(e.content) != Blank && NoRepeats(e.chats)
    ensures OnlyIn(db, Handled(ties, db, e, now),
                   if Locates(db.messages, TargetOf(e.content), e.chats)
                   then db.messages[TargetOf(e.content)].chat else e.chats[0])
  {
    match e.content
    case EditOf(target, newBody) =>
      if MayEdit(db.messages, target, e.chats, e.fromMe) {
        RewritesOnlyIn(ties, db, target, EditedRow(db.messages[target], NullString(newBody), now));
      }
    case DeleteOf(target) =>
      if !Locates(db.messages, target, e.chats) {
        StoresOnlyIn(db, e);
      } else if MayRevoke(db.messages, target, e.chats, e.fromMe, e.isGroup) {
        RewritesOnlyIn(ties, db, target, RevokedRow(db.messages[target], now));
      }
    case ReactionTo(target, _) =>
      if |e.chats| == 1 { assert forall j | j in e.chats :: j == e.chats[0]; }
      ReactsOnlyIn(ties, db, ReactionOf(db, e));
    case _ =>
  }

  lemma RewritesOnlyIn(ties: Ties, db: Db, id: MessageId, row: MessageRow)
    requires ties.Lawful() && id in db.messages && row.chat == db.messages[id].chat
    ensures OnlyIn(db, RecomputedFor(ties, WithRow(db, id, row), row.chat), row.chat)
  {
  }

  lemma StoresOnlyIn(db: Db, e: Incoming)
    requires e.Ok()
    ensures OnlyIn(db, Stored(db, e, "revoked", "", None), e.chats[0])
  {
  }

  lemma ReactsOnlyIn(ties: Ties, db: Db, r: Reaction)
    requires ties.Lawful()
    ensures OnlyIn(db, Reacted(db, r, ties.reaction(db.messages, r)), r.chat)
  {
    assert IsExisting(db.messages, r, ties.reaction(db.messages, r));
  }
}
