/** Reactions as the handlers see them: whole runs of incoming events, each
    naming its target under whichever form of the chat it came in. */
module ReactionEvents {
  import opened Base
  import opened Tables
  import opened Inbox
  import opened Addresses
  import opened Reactions

  predicate IsReaction(e: Incoming) {
    e.Ok() && e.content.ReactionTo?
  }

  predicate AllReact(evs: seq<Incoming>) {
    evs == [] || (AllReact(evs[..|evs| - 1]) && IsReaction(evs[|evs| - 1]))
  }

  /** The target is there from the start, or it never comes. */
  ghost predicate TargetKnown(db: Db, evs: seq<Incoming>, e: Incoming)
    requires IsReaction(e)
  {
    e.content.target in db.messages || forall j | 0 <= j < |evs| :: evs[j].id != e.content.target
  }

  /** Every event reacts to a message that is there before them all, or to one
      that has not come when it does. */
  ghost predicate ReactTo(db: Db, evs: seq<Incoming>)
    requires AllReact(evs)
  {
    evs == [] ||
    (var front, e := evs[..|evs| - 1], evs[|evs| - 1]; ReactTo(db, front) && TargetKnown(db, front, e))
  }

  /** The tables after the events, as the handlers leave them. */
  ghost function AfterEvents(ties: Ties, db: Db, evs: seq<Incoming>): Db
    requires ties.Lawful() && AllReact(evs)
  {
    if evs == [] then db
    else Handled(ties, AfterEvents(ties, db, evs[..|evs| - 1]), evs[|evs| - 1], evs[|evs| - 1].at)
  }

  /** The reactions the events carry, each in the chat of its target. */
  function ReactionsIn(db: Db, evs: seq<Incoming>): seq<Reaction>
    requires AllReact(evs)
  {
    if evs == [] then [] else ReactionsIn(db, evs[..|evs| - 1]) + [ReactionOf(db, evs[|evs| - 1])]
  }

  lemma {:induction false} ReactionsAre(db: Db, evs: seq<Incoming>)
    requires AllReact(evs)
    ensures |ReactionsIn(db, evs)| == |evs|
    ensures forall k | 0 <= k < |evs| :: IsReaction(evs[k]) && ReactionsIn(db, evs)[k] == ReactionOf(db, evs[k])
  {
    if evs != [] {
      var front := evs[..|evs| - 1];
      ReactionsAre(db, front);
      assert forall k | 0 <= k < |front| :: front[k] == evs[k];
    }
  }

  /** What reactions leave of the rest: messages stay in their chats, and what
      is new is one of the events. */
  ghost predicate SameTargets(db: Db, db': Db, evs: seq<Incoming>) {
    && (forall id | id in db.messages :: id in db'.messages && db'.messages[id].chat == db.messages[id].chat)
    && (forall id | id in db'.messages && id !in db.messages :: exists j :: 0 <= j < |evs| && evs[j].id == id)
  }

  lemma TargetStays(db: Db, db': Db, evs: seq<Incoming>, e: Incoming)
    requires IsReaction(e) && SameTargets(db, db', evs)
    requires TargetKnown(db, evs, e)
    ensures ReactionOf(db', e) == ReactionOf(db, e)
  {
  }

  lemma StepKeepsTargets(ties: Ties, db: Db, db': Db, evs: seq<Incoming>, e: Incoming)
    requires ties.Lawful() && IsReaction(e) && SameTargets(db, db', evs)
    ensures SameTargets(db, Handled(ties, db', e, e.at), evs + [e])
  {
    var db2 := Handled(ties, db', e, e.at);
    var r := ReactionOf(db', e);
    assert IsExisting(db'.messages, r, ties.reaction(db'.messages, r));
    forall id | id in db2.messages && id !in db.messages
      ensures exists j :: 0 <= j < |evs + [e]| && (evs + [e])[j].id == id
    {
      if id in db'.messages {
        var j :| 0 <= j < |evs| && evs[j].id == id;
        assert (evs + [e])[j].id == id;
      } else {
        assert (evs + [e])[|evs|].id == id;
      }
    }
  }

  /** The handlers do to the tables what the reactions do, each in the chat its
      target was in before the run. */
  lemma {:induction false} EventsAreReactions(ties: Ties, db: Db, evs: seq<Incoming>)
    requires ties.Lawful() && AllReact(evs) && ReactTo(db, evs)
    ensures AfterEvents(ties, db, evs) == AfterReactions(ties, db, ReactionsIn(db, evs))
    ensures SameTargets(db, AfterEvents(ties, db, evs), evs)
  {
    if evs != [] {
      var front, e := evs[..|evs| - 1], evs[|evs| - 1];
      EventsAreReactions(ties, db, front);
      var before := AfterEvents(ties, db, front);
      LastEvent(ties, db, before, front, e);
      ReactionsSnoc(ties, db, ReactionsIn(db, front), ReactionOf(db, e), before);
      assert front + [e] == evs;
    }
  }

  lemma LastEvent(ties: Ties, db: Db, before: Db, front: seq<Incoming>, e: Incoming)
    requires ties.Lawful() && IsReaction(e) && SameTargets(db, before, front) && TargetKnown(db, front, e)
    ensures var r := ReactionOf(db, e);
            Handled(ties, before, e, e.at) == Reacted(before, r, ties.reaction(before.messages, r))
    ensures SameTargets(db, Handled(ties, before, e, e.at), front + [e])
  {
    StepKeepsTargets(ties, db, before, front, e);
    TargetStays(db, before, front, e);
    HandledReacts(ties, before, e);
  }

  lemma ReactionsSnoc(ties: Ties, db: Db, rs: seq<Reaction>, r: Reaction, before: Db)
    requires ties.Lawful() && before == AfterReactions(ties, db, rs)
    ensures AfterReactions(ties, db, rs + [r]) == Reacted(before, r, ties.reaction(before.messages, r))
  {
    assert (rs + [r])[..|rs|] == rs;
  }

  lemma HandledReacts(ties: Ties, db: Db, e: Incoming)
    requires ties.Lawful() && IsReaction(e)
    ensures var r := ReactionOf(db, e); Handled(ties, db, e, e.at) == Reacted(db, r, ties.reaction(db.messages, r))
  {
    var r := ReactionOf(db, e);
    assert IsExisting(db.messages, r, ties.reaction(db.messages, r));
  }

  /** Over any run of reaction events, starting with no reaction stored: each
      reactor has at most one row on a target, showing the fold of its events;
      and an event whose target is found counts for the chat that is in. */
  lemma OneReactionPerReactor(p: People, ties: Ties, db: Db, evs: seq<Incoming>)
    requires ties.Lawful() && AllReact(evs) && ReactTo(db, evs) && Storable(p, ties, db, ReactionsIn(db, evs))
    requires forall id :: id in db.messages ==> !IsReactionRow(db.messages[id])
    ensures AllShow(p, AfterEvents(ties, db, evs).messages, ReactionsIn(db, evs))
    ensures |ReactionsIn(db, evs)| == |evs|
    ensures forall k | 0 <= k < |evs| :: IsReaction(evs[k]) && CountsFor(db, evs[k], ReactionsIn(db, evs)[k])
  {
    EventsAreReactions(ties, db, evs);
    OneReactionEach(p, ties, db, ReactionsIn(db, evs));
    ReactionsAre(db, evs);
    forall k | 0 <= k < |evs| ensures IsReaction(evs[k]) && CountsFor(db, evs[k], ReactionsIn(db, evs)[k]) {
      if Locates(db.messages, evs[k].content.target, evs[k].chats) { LocatedChat(db, evs[k]); }
    }
  }

  /** The reaction is its event's, in the chat its target is found in, or else
      in the event's own. */
  predicate CountsFor(db: Db, e: Incoming, r: Reaction)
    requires IsReaction(e)
  {
    var target := e.content.target;
    && r.id == e.id && r.target == target && r.emoji == e.content.emoji && r.at == e.at && r.fromMe == e.fromMe
    && r.isGroup == e.isGroup && r.aliases == e.forms && r.sender == (if e.member == "" then None else Some(e.member))
    && r.chat == if Locates(db.messages, target, e.chats) then db.messages[target].chat else e.chats[0]
  }

  /** A reaction inside a history conversation counts like any other. */
  lemma HistoryReacts(p: People, ties: Ties, db: Db, rs: seq<Reaction>, c: Conversation, r: Reaction)
    requires ties.Lawful() && AllShow(p, db.messages, rs) && AliasesKnown(p, r)
    requires CanInsert(db, r, ties.reaction(db.messages, r))
    ensures AllShow(p, Filled(ties, db, c, HistoryReaction(r)).messages, rs + [r])
  {
    StepShows(p, db, rs, r, ties.reaction(db.messages, r));
  }

  lemma LocatedChat(db: Db, e: Incoming)
    requires IsReaction(e) && Locates(db.messages, e.content.target, e.chats)
    ensures ReactionOf(db, e).chat == db.messages[e.content.target].chat
  {
    var chat := db.messages[e.content.target].chat;
    if |e.chats| == 1 { assert forall j | j in e.chats :: j == e.chats[0]; }
  }

  /** The event came from this address when the process knew these pairs. */
  ghost predicate CameAs(known: LidMap, raw: Jid, e: Incoming) {
    e.chats != [] && e.chats[0] == known.Canonical(raw) && forall j :: j in e.chats <==> j in AliasSet(known, raw)
  }

  /** A reaction counts for the chat its target is stored under exactly when the
      sender is the same contact and the form or the pair is known by then. */
  lemma CountsWhereStored(all: LidMap, m: LidMap, known: LidMap, db: Db, stored: Jid, raw: Jid, e: Incoming)
    requires Learned(all, m, known) && IsReaction(e) && CameAs(known, raw, e)
    requires e.content.target != Blank && e.content.target in db.messages
    requires db.messages[e.content.target].chat == m.Canonical(stored)
    ensures ReactionOf(db, e).chat == m.Canonical(stored)
            <==> SameContact(all, stored, raw) && (stored == raw || known.Knows(raw))
  {
    if SameContact(all, stored, raw) {
      FoundLater(all, m, known, stored, raw);
    } else {
      StrangersNeverMeet(all, m, known, stored, raw);
    }
    if m.Canonical(stored) in e.chats { LocatedChat(db, e); }
  }

  /** Whichever forms two events of one reactor came in, at whatever times: they
      are the same reactor's, so the later of them replaces the other, when each
      came in the form the target's chat is stored from or with its pair known. */
  lemma FormsMeet(all: LidMap, m: LidMap, known: LidMap, known': LidMap, p: People, db: Db,
                  stored: Jid, raw: Jid, raw': Jid, e: Incoming, e': Incoming)
    requires Learned(all, m, known) && Learned(all, m, known')
    requires IsReaction(e) && IsReaction(e') && CameAs(known, raw, e) && CameAs(known', raw', e')
    requires e.content.target == e'.content.target && e.content.target != Blank && e.content.target in db.messages
    requires db.messages[e.content.target].chat == m.Canonical(stored)
    requires SameContact(all, stored, raw) && (stored == raw || known.Knows(raw))
    requires SameContact(all, stored, raw') && (stored == raw' || known'.Knows(raw'))
    requires e.fromMe == e'.fromMe && p.who(e.member) == p.who(e'.member)
    ensures var r, r' := ReactionOf(db, e), ReactionOf(db, e');
            EventReactor(p, r) == EventReactor(p, r') && r.chat == m.Canonical(stored)
  {
    CountsWhereStored(all, m, known, db, stored, raw, e);
    CountsWhereStored(all, m, known', db, stored, raw', e');
  }
}
