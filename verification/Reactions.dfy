/** One reaction per reactor and target, and the newest event wins. */
module Reactions {
  import opened Base
  import opened Tables
  import opened Inbox

  /** Who reacted to what. `person` is 0 except for members of a group, who
      are told apart. */
  datatype Reactor = Reactor(chat: Jid, target: MessageId, fromMe: bool, person: nat)

  /** `who` names the person behind a stored sender form; `forms` are the forms
      reactions are stored under. */
  datatype People = People(who: string -> nat, forms: set<string>)

  function ReactorOf(p: People, chat: Jid, target: MessageId, fromMe: bool, sender: Option<string>): Reactor {
    Reactor(chat, target, fromMe, if !fromMe && chat.server.Group? then p.who(sender.Or("")) else 0)
  }

  function RowReactor(p: People, m: MessageRow): Reactor
    requires IsReactionRow(m)
  {
    ReactorOf(p, m.chat, m.target.value, m.fromMe, m.sender)
  }

  function EventReactor(p: People, r: Reaction): Reactor {
    ReactorOf(p, r.chat, r.target, r.fromMe, r.sender)
  }

  /** A group member's aliases are known: of the forms in use, the event lists
      exactly those of its own sender. */
  ghost predicate AliasesKnown(p: People, r: Reaction) {
    && r.isGroup == r.chat.server.Group?
    && (!r.fromMe && r.isGroup ==>
          && r.sender.Some? && r.sender.value in p.forms
          && forall s :: s in p.forms ==> (s in Senders(r) <==> p.who(s) == p.who(r.sender.value)))
  }

  /** What a reactor shows on a target: nothing yet, or an emoji (None after a
      removal) with the time of the event that set it. */
  datatype Cell = Empty | Shown(at: int, emoji: Option<string>)

  function EmojiOf(r: Reaction): Option<string> {
    if r.emoji == "" then None else Some(r.emoji)
  }

  /** The cell after one event: a removal of nothing stores nothing; an older
      event changes nothing; among equals the later arrival wins. */
  function Turn(c: Cell, r: Reaction): Cell {
    match c
    case Empty => if r.emoji == "" then Empty else Shown(r.at, Some(r.emoji))
    case Shown(at, _) => if at > r.at then c else Shown(r.at, EmojiOf(r))
  }

  /** The cell after a sequence of one reactor's events. */
  function TurnAll(c: Cell, rs: seq<Reaction>): Cell {
    if rs == [] then c else Turn(TurnAll(c, rs[..|rs| - 1]), rs[|rs| - 1])
  }

  predicate IsOf(p: People, k: Reactor, r: Reaction) {
    r.target != Blank && EventReactor(p, r) == k
  }

  /** The events of one reactor, in order. */
  function OwnEvents(p: People, k: Reactor, rs: seq<Reaction>): seq<Reaction> {
    if rs == [] then []
    else
      var r := rs[|rs| - 1];
      OwnEvents(p, k, rs[..|rs| - 1]) + if IsOf(p, k, r) then [r] else []
  }

  function Folded(p: People, k: Reactor, rs: seq<Reaction>): Cell {
    TurnAll(Empty, OwnEvents(p, k, rs))
  }

  lemma FoldedSnoc(p: People, k: Reactor, rs: seq<Reaction>, r: Reaction)
    ensures Folded(p, k, rs + [r]) == if IsOf(p, k, r) then Turn(Folded(p, k, rs), r) else Folded(p, k, rs)
  {
    assert (rs + [r])[..|rs|] == rs;
    var own := OwnEvents(p, k, rs);
    assert (own + [r])[..|own|] == own;
    assert own + [] == own;
  }

  // ------------------------------------------------------------- the table

  ghost predicate IsRowOf(p: People, messages: Messages, k: Reactor, id: MessageId) {
    id in messages && IsReactionRow(messages[id]) && RowReactor(p, messages[id]) == k
  }

  /** A stored reaction row shows its cell. */
  function RowCell(m: MessageRow): Cell {
    Shown(m.at, if m.kind == "reaction" then m.body else None)
  }

  /** The table agrees with the cell: no row for an empty cell, else exactly
      one, showing it. */
  ghost predicate Shows(p: People, messages: Messages, k: Reactor, c: Cell) {
    match c
    case Empty => forall id :: !IsRowOf(p, messages, k, id)
    case Shown(_, _) =>
      exists id :: IsRowOf(p, messages, k, id) && RowCell(messages[id]) == c
        && forall other :: IsRowOf(p, messages, k, other) ==> other == id
  }

  /** Rows that group members reacted with are stored under a form in use. */
  ghost predicate FormsKnown(p: People, messages: Messages) {
    forall id ::
      id in messages && IsReactionRow(messages[id]) && !messages[id].fromMe && messages[id].chat.server.Group? ==>
      messages[id].sender.Some? && messages[id].sender.value in p.forms
  }

  /** The event finds exactly the row of its reactor. */
  lemma MatchesReactor(p: People, messages: Messages, r: Reaction, id: MessageId)
    requires FormsKnown(p, messages) && AliasesKnown(p, r) && id in messages
    ensures Matches(messages[id], r) <==> IsRowOf(p, messages, EventReactor(p, r), id)
  {
  }

  /** The event is new to the table where it has to insert: its own row is not
      there, and the chat of its target is. */
  predicate CanInsert(db: Db, r: Reaction, existing: Option<MessageId>) {
    existing.None? && r.emoji != "" && r.target != Blank ==> r.id !in db.messages && r.chat in db.chats
  }

  ghost predicate AllShow(p: People, messages: Messages, rs: seq<Reaction>) {
    FormsKnown(p, messages) && forall k :: Shows(p, messages, k, Folded(p, k, rs))
  }

  lemma UpdateShows(p: People, db: Db, r: Reaction, id: MessageId, k: Reactor, c: Cell)
    requires FormsKnown(p, db.messages) && AliasesKnown(p, r) && r.target != Blank
    requires IsExisting(db.messages, r, Some(id)) && Shows(p, db.messages, k, c)
    ensures var c' := if EventReactor(p, r) == k then Turn(c, r) else c;
            Shows(p, Reacted(db, r, Some(id)).messages, k, c')
  {
    var messages' := Reacted(db, r, Some(id)).messages;
    MatchesReactor(p, db.messages, r, id);
    forall other ensures IsRowOf(p, messages', k, other) == IsRowOf(p, db.messages, k, other) {}
    if c.Shown? {
      var x :| IsRowOf(p, db.messages, k, x) && RowCell(db.messages[x]) == c
        && forall other :: IsRowOf(p, db.messages, k, other) ==> other == x;
      assert IsRowOf(p, messages', k, x);
      if EventReactor(p, r) == k { assert x == id; }
    }
  }

  lemma InsertShows(p: People, db: Db, r: Reaction, k: Reactor, c: Cell)
    requires FormsKnown(p, db.messages) && AliasesKnown(p, r) && r.target != Blank && r.emoji != ""
    requires IsExisting(db.messages, r, None) && CanInsert(db, r, None) && Shows(p, db.messages, k, c)
    ensures var c' := if EventReactor(p, r) == k then Turn(c, r) else c;
            Shows(p, Reacted(db, r, None).messages, k, c')
  {
    var messages' := Reacted(db, r, None).messages;
    forall other | other != r.id ensures IsRowOf(p, messages', k, other) == IsRowOf(p, db.messages, k, other) {}
    if EventReactor(p, r) == k {
      forall other ensures !IsRowOf(p, db.messages, k, other) {
        if other in db.messages { MatchesReactor(p, db.messages, r, other); }
      }
      assert c == Empty;
      assert IsRowOf(p, messages', k, r.id);
    } else if c.Shown? {
      var x :| IsRowOf(p, db.messages, k, x) && RowCell(db.messages[x]) == c
        && forall other :: IsRowOf(p, db.messages, k, other) ==> other == x;
      assert x != r.id;
      assert IsRowOf(p, messages', k, x);
    }
  }

  lemma NothingShows(p: People, db: Db, r: Reaction, k: Reactor, c: Cell)
    requires FormsKnown(p, db.messages) && AliasesKnown(p, r) && r.emoji == ""
    requires IsExisting(db.messages, r, None) && Shows(p, db.messages, k, c)
    ensures EventReactor(p, r) == k ==> Turn(c, r) == c
  {
    if EventReactor(p, r) == k {
      forall other ensures !IsRowOf(p, db.messages, k, other) {
        if other in db.messages { MatchesReactor(p, db.messages, r, other); }
      }
    }
  }

  lemma ReactedKeepsForms(p: People, db: Db, r: Reaction, existing: Option<MessageId>)
    requires FormsKnown(p, db.messages) && AliasesKnown(p, r) && IsExisting(db.messages, r, existing)
    ensures FormsKnown(p, Reacted(db, r, existing).messages)
  {
  }

  lemma StepShows(p: People, db: Db, rs: seq<Reaction>, r: Reaction, existing: Option<MessageId>)
    requires AllShow(p, db.messages, rs) && AliasesKnown(p, r)
    requires IsExisting(db.messages, r, existing) && CanInsert(db, r, existing)
    ensures AllShow(p, Reacted(db, r, existing).messages, rs + [r])
  {
    var db' := Reacted(db, r, existing);
    ReactedKeepsForms(p, db, r, existing);
    forall k ensures Shows(p, db'.messages, k, Folded(p, k, rs + [r])) {
      FoldedSnoc(p, k, rs, r);
      var c := Folded(p, k, rs);
      assert Shows(p, db.messages, k, c);
      if r.target != Blank {
        if existing.Some? { UpdateShows(p, db, r, existing.value, k, c); }
        else if r.emoji == "" { NothingShows(p, db, r, k, c); }
        else { InsertShows(p, db, r, k, c); }
      }
    }
  }

  /** The tables after a sequence of reaction events. */
  ghost function AfterReactions(ties: Ties, db: Db, rs: seq<Reaction>): Db
    requires ties.Lawful()
  {
    if rs == [] then db
    else
      var before := AfterReactions(ties, db, rs[..|rs| - 1]);
      Reacted(before, rs[|rs| - 1], ties.reaction(before.messages, rs[|rs| - 1]))
  }

  /** Every event knows its sender's aliases and can be stored when it must be. */
  ghost predicate Storable(p: People, ties: Ties, db: Db, rs: seq<Reaction>)
    requires ties.Lawful()
  {
    forall k | 0 <= k < |rs| ::
      var before := AfterReactions(ties, db, rs[..k]);
      AliasesKnown(p, rs[k]) && CanInsert(before, rs[k], ties.reaction(before.messages, rs[k]))
  }

  lemma StorablePrefix(p: People, ties: Ties, db: Db, rs: seq<Reaction>)
    requires ties.Lawful() && rs != [] && Storable(p, ties, db, rs)
    ensures Storable(p, ties, db, rs[..|rs| - 1])
    ensures var before := AfterReactions(ties, db, rs[..|rs| - 1]); var r := rs[|rs| - 1];
            AliasesKnown(p, r) && CanInsert(before, r, ties.reaction(before.messages, r))
  {
    var front := rs[..|rs| - 1];
    forall k | 0 <= k < |front|
      ensures var before := AfterReactions(ties, db, front[..k]);
              AliasesKnown(p, front[k]) && CanInsert(before, front[k], ties.reaction(before.messages, front[k]))
    {
      assert front[..k] == rs[..k] && front[k] == rs[k];
    }
  }

  /** Over any sequence of reaction events, interleaved over any reactors and
      targets, starting with no reaction stored: each reactor has at most one
      row on a target, and it shows the fold of that reactor's events. */
  lemma {:induction false} OneReactionEach(p: People, ties: Ties, db: Db, rs: seq<Reaction>)
    requires ties.Lawful() && Storable(p, ties, db, rs)
    requires forall id :: id in db.messages ==> !IsReactionRow(db.messages[id])
    ensures AllShow(p, AfterReactions(ties, db, rs).messages, rs)
  {
    if rs != [] {
      var front, r := rs[..|rs| - 1], rs[|rs| - 1];
      StorablePrefix(p, ties, db, rs);
      OneReactionEach(p, ties, db, front);
      var before := AfterReactions(ties, db, front);
      StepShows(p, before, front, r, ties.reaction(before.messages, r));
      assert front + [r] == rs;
    }
  }

  // -------------------------------------------------------- newest event wins

  /** Once something is shown, the cell shows the newest of it and the later
      events: nothing in the run is newer, and it is either the start or the
      last to arrive among its time. */
  lemma {:induction false} NewestWins(c: Cell, rs: seq<Reaction>)
    requires c.Shown?
    ensures var f := TurnAll(c, rs);
            && f.Shown? && f.at >= c.at && (forall k | 0 <= k < |rs| :: rs[k].at <= f.at)
            && (f == c || exists k :: 0 <= k < |rs| && f == Shown(rs[k].at, EmojiOf(rs[k])))
            && (forall k | 0 <= k < |rs| && rs[k].at == f.at && (forall j | k < j < |rs| :: rs[j].at != f.at) ::
                  f.emoji == EmojiOf(rs[k]))
  {
    if rs != [] {
      var n := |rs| - 1;
      var front, r := rs[..n], rs[n];
      NewestWins(c, front);
      var g, f := TurnAll(c, front), TurnAll(c, rs);
      if g.at > r.at {
        assert f == g;
        if f != c {
          var k :| 0 <= k < |front| && g == Shown(front[k].at, EmojiOf(front[k]));
          assert rs[k] == front[k];
        }
        forall k | 0 <= k < |rs| && rs[k].at == f.at && (forall j | k < j < |rs| :: rs[j].at != f.at)
          ensures f.emoji == EmojiOf(rs[k])
        {
          assert rs[k] == front[k];
          assert forall j | k < j < |front| :: front[j].at == rs[j].at;
        }
      } else {
        assert f == Shown(rs[n].at, EmojiOf(rs[n]));
      }
    }
  }

  ghost predicate DistinctEvents(c: Cell, rs: seq<Reaction>) {
    && (forall j, k | 0 <= j < k < |rs| :: rs[j].at != rs[k].at)
    && (c.Shown? ==> forall k | 0 <= k < |rs| :: rs[k].at != c.at)
  }

  /** The cell after the events, told without order: the newest event, or the
      start when that is newer. */
  ghost predicate IsNewestOf(c: Cell, rs: seq<Reaction>, f: Cell) {
    && f.Shown? && c.Shown? && f.at >= c.at && (forall k | 0 <= k < |rs| :: rs[k].at <= f.at)
    && (f == c || exists k :: 0 <= k < |rs| && f == Shown(rs[k].at, EmojiOf(rs[k])))
  }

  lemma NewestIsUnique(c: Cell, rs: seq<Reaction>, f: Cell, g: Cell)
    requires DistinctEvents(c, rs) && IsNewestOf(c, rs, f) && IsNewestOf(c, rs, g)
    ensures f == g
  {
  }

  lemma NewestOfSameEvents(c: Cell, rs: seq<Reaction>, rs': seq<Reaction>, f: Cell)
    requires multiset(rs) == multiset(rs') && IsNewestOf(c, rs', f)
    ensures IsNewestOf(c, rs, f)
  {
    SameEvents(rs, rs');
    SameEvents(rs', rs);
    forall k | 0 <= k < |rs| ensures rs[k].at <= f.at {
      var j :| 0 <= j < |rs'| && rs'[j] == rs[k];
    }
    if f != c {
      var k' :| 0 <= k' < |rs'| && f == Shown(rs'[k'].at, EmojiOf(rs'[k']));
      var j :| 0 <= j < |rs| && rs[j] == rs'[k'];
    }
  }

  /** With distinct times the order of arrival does not matter. */
  lemma OrderDoesNotMatter(c: Cell, rs: seq<Reaction>, rs': seq<Reaction>)
    requires c.Shown? && DistinctEvents(c, rs) && multiset(rs) == multiset(rs')
    ensures TurnAll(c, rs) == TurnAll(c, rs')
  {
    NewestWins(c, rs);
    NewestWins(c, rs');
    NewestOfSameEvents(c, rs, rs', TurnAll(c, rs'));
    NewestIsUnique(c, rs, TurnAll(c, rs), TurnAll(c, rs'));
  }

  lemma SameEvents(rs: seq<Reaction>, rs': seq<Reaction>)
    requires multiset(rs) == multiset(rs')
    ensures forall k | 0 <= k < |rs| :: exists j :: 0 <= j < |rs'| && rs'[j] == rs[k]
  {
    forall k | 0 <= k < |rs| ensures exists j :: 0 <= j < |rs'| && rs'[j] == rs[k] {
      assert rs[k] in multiset(rs);
      assert rs[k] in multiset(rs');
      assert rs[k] in rs';
    }
  }

  /** Nothing is shown exactly when nothing was and only removals came. */
  lemma {:induction false} OnlyRemovals(c: Cell, rs: seq<Reaction>)
    ensures TurnAll(c, rs).Empty? <==> c.Empty? && forall k | 0 <= k < |rs| :: rs[k].emoji == ""
  {
    if rs != [] {
      var front := rs[..|rs| - 1];
      OnlyRemovals(c, front);
      assert forall k | 0 <= k < |front| :: front[k] == rs[k];
      assert TurnAll(c, rs) == Turn(TurnAll(c, front), rs[|rs| - 1]);
    }
  }

  /** Delivering an event again, after any others and from any start, changes
      nothing exactly when nothing is shown, or something newer, or what the
      event itself sets. */
  lemma {:induction false} Redelivery(c: Cell, rs: seq<Reaction>, k: nat)
    requires k < |rs|
    ensures var f := TurnAll(c, rs);
            TurnAll(c, rs + [rs[k]]) == f <==> f.Empty? || f.at > rs[k].at || f == Shown(rs[k].at, EmojiOf(rs[k]))
  {
    OnlyRemovals(c, rs);
    assert (rs + [rs[k]])[..|rs|] == rs;
  }

  /** So an event that was stored when it first came is safe to deliver again,
      unless another of its very time has replaced it since. */
  lemma StoredRedelivery(c: Cell, rs: seq<Reaction>, k: nat)
    requires k < |rs| && Turn(TurnAll(c, rs[..k]), rs[k]).Shown?
    ensures var f := TurnAll(c, rs);
            && f.Shown? && f.at >= rs[k].at
            && (TurnAll(c, rs + [rs[k]]) == f <==> f.at > rs[k].at || f.emoji == EmojiOf(rs[k]))
  {
    var since := rs[k + 1..];
    assert rs == rs[..k + 1] + since && rs[..k + 1][..k] == rs[..k];
    FoldSince(c, rs[..k + 1], since);
    NewestWins(TurnAll(c, rs[..k + 1]), since);
    Redelivery(c, rs, k);
  }

  /** One that was not stored is not safe: a removal that comes before the
      reaction it is newer than stores nothing, and does remove it when it is
      delivered again. */
  lemma EarlyRemovalComesBack(add: Reaction, removal: Reaction)
    requires add.emoji != "" && removal.emoji == "" && add.at < removal.at
    ensures TurnAll(Empty, [removal, add]) == Shown(add.at, Some(add.emoji))
    ensures TurnAll(Empty, [removal, add, removal]) == Shown(removal.at, None)
  {
    var one, two, three := [removal], [removal, add], [removal, add, removal];
    assert one[..0] == [] && two[..1] == one && three[..2] == two;
    assert TurnAll(Empty, one) == Empty;
    assert TurnAll(Empty, two) == Turn(Empty, add);
  }

  /** Events before the inserting one leave nothing behind: from any point
      where a reaction is shown, only the later events of that reactor count. */
  lemma {:induction false} FoldSince(c: Cell, before: seq<Reaction>, since: seq<Reaction>)
    ensures TurnAll(c, before + since) == TurnAll(TurnAll(c, before), since)
  {
    if since == [] {
      assert before + since == before;
    } else {
      var n := |since| - 1;
      FoldSince(c, before, since[..n]);
      assert (before + since)[..|before + since| - 1] == before + since[..n];
    }
  }
}
