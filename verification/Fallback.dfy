/** The self-adapting statements of internal/store: Fallback and its nested
    uses. The database has an unknown set of columns; when a statement names
    missing ones, the error names any one of them. Other goroutines may switch
    features off between any two steps. */
module Fallback {
  import opened Base
  import opened Text

  datatype Feature = Quotes | Edits | Location | OutboundLocation

  const QUOTE_COLUMNS := {"quoted_preview", "quoted_sender_jid", "target_message_id"}
  const EDIT_COLUMNS := {"revoked_at", "original_body", "edited_at"}
  const LOCATION_COLUMNS := {"location_name", "location_address"}
  const OUTBOUND_LOCATION_COLUMNS := {"wa_outbound.location_name", "wa_outbound.location_address",
                                      "wa_outbound.location_url"}

  /** The columns a feature's migration added, as its statements write them. */
  function ColumnsOf(f: Feature): set<string> {
    match f
    case Quotes => QUOTE_COLUMNS
    case Edits => EDIT_COLUMNS
    case Location => LOCATION_COLUMNS
    case OutboundLocation => OUTBOUND_LOCATION_COLUMNS
  }

  // ------------------------------------------------------- the error's column

  /** unknownColumnRef: the text between the first two quotes. */
  function UnknownColumnRef(msg: string): string {
    var i := IndexFrom(msg, '\'', 0);
    if i.None? then ""
    else
      var j := IndexFrom(msg, '\'', i.value + 1);
      if j.None? then "" else msg[i.value + 1..j.value]
  }

  /** unknownColumnName: what follows the last dot. */
  function Bare(col: string): string {
    if '.' !in col then col
    else if col[|col| - 1] == '.' then ""
    else Bare(col[..|col| - 1]) + [col[|col| - 1]]
  }

  /** columnFeature */
  function ColumnFeature(ref: string): Option<Feature> {
    if ref in LOCATION_COLUMNS then Some(Location)
    else if ref in OUTBOUND_LOCATION_COLUMNS then Some(OutboundLocation)
    else None
  }

  /** columnOwner's lookups: the name as written first, then the bare column. */
  function OwnerOf(ref: string): Option<Feature> {
    if ColumnFeature(ref).Some? then ColumnFeature(ref)
    else if Bare(ref) == ref then None
    else ColumnFeature(Bare(ref))
  }

  /** columnOwner */
  function ColumnOwner(msg: string): Option<Feature> {
    OwnerOf(UnknownColumnRef(msg))
  }

  /** MySQL's message for error 1054. */
  function UnknownColumnMessage(col: string): string {
    "Unknown column '" + col + "' in 'field list'"
  }

  /** Reading the column back out of the message gives the column. */
  lemma RefRoundTrip(col: string)
    requires '\'' !in col
    ensures UnknownColumnRef(UnknownColumnMessage(col)) == col
  {
    var head, tail := "Unknown column '", "' in 'field list'";
    var msg := UnknownColumnMessage(col);
    assert msg == head + col + tail;
    assert |head| == 16 && msg[15] == '\'';
    assert forall k | 0 <= k < 15 :: msg[k] == head[k] && head[k] != '\'';
    assert msg[16..16 + |col|] == col;
    assert msg[16 + |col|] == '\'';
    forall k | 16 <= k < 16 + |col| ensures msg[k] != '\'' { assert msg[k] == col[k - 16]; }
  }

  /** A bare column name, quotable as it is, with its first letter. */
  predicate BareName(col: string, first: set<char>) {
    '\'' !in col && '.' !in col && |col| > 0 && col[0] in first
  }

  lemma QuoteNames(col: string)
    requires col in QUOTE_COLUMNS
    ensures BareName(col, {'q', 't'})
  {
  }

  lemma EditNames(col: string)
    requires col in EDIT_COLUMNS
    ensures BareName(col, {'r', 'o', 'e'})
  {
  }

  lemma PlaceNames(col: string)
    requires col in LOCATION_COLUMNS
    ensures BareName(col, {'l'})
  {
  }

  lemma QualifiedNames(col: string)
    requires col in OUTBOUND_LOCATION_COLUMNS
    ensures '\'' !in col && |col| > 0 && col[0] == 'w'
  {
  }

  /** The two locations own theirs, by the name as the statement wrote it. */
  lemma PlacesAreOwned(f: Feature, col: string)
    requires f.Location? || f.OutboundLocation?
    requires col in ColumnsOf(f)
    ensures OwnerOf(col) == Some(f)
  {
    if f.OutboundLocation? {
      QualifiedNames(col);
      forall c | c in LOCATION_COLUMNS ensures BareName(c, {'l'}) { PlaceNames(c); }
    }
  }

  lemma BareNamesStay(col: string)
    requires '.' !in col
    ensures Bare(col) == col
  {
  }

  /** Nobody owns the others. */
  lemma OthersAreNot(col: string)
    requires BareName(col, {'q', 't'}) || BareName(col, {'r', 'o', 'e'})
    ensures OwnerOf(col) == None
  {
    forall c | c in LOCATION_COLUMNS ensures BareName(c, {'l'}) { PlaceNames(c); }
    forall c | c in OUTBOUND_LOCATION_COLUMNS ensures |c| > 0 && c[0] == 'w' { QualifiedNames(c); }
    BareNamesStay(col);
  }

  /** So an error about a feature's column is that feature's own if it is a
      place, and the innermost Fallback's otherwise. */
  lemma Owners(f: Feature, col: string)
    requires col in ColumnsOf(f)
    ensures ColumnOwner(UnknownColumnMessage(col)) == (if f.Location? || f.OutboundLocation? then Some(f) else None)
  {
    match f {
      case Quotes => QuoteNames(col); OthersAreNot(col);
      case Edits => EditNames(col); OthersAreNot(col);
      case Location => PlaceNames(col); PlacesAreOwned(f, col);
      case OutboundLocation => QualifiedNames(col); PlacesAreOwned(f, col);
    }
    RefRoundTrip(col);
  }

  lemma {:induction false} BareIsLast(q: string, b: string)
    requires '.' !in b
    ensures Bare(q + "." + b) == b
  {
    var col := q + "." + b;
    assert col[|q|] == '.';
    if b == "" {
      assert col[|col| - 1] == '.';
    } else {
      var n := |b| - 1;
      assert col[..|col| - 1] == q + "." + b[..n];
      BareIsLast(q, b[..n]);
    }
  }

  lemma QualifiedHaveDots(col: string)
    requires col in OUTBOUND_LOCATION_COLUMNS
    ensures '.' in col
  {
    assert "wa_outbound.location_name"[11] == '.' && "wa_outbound.location_address"[11] == '.'
            && "wa_outbound.location_url"[11] == '.';
  }

  /** Any bare column: a place column is Location's, no other is anybody's. */
  lemma BareOwner(b: string)
    requires '\'' !in b && '.' !in b
    ensures ColumnOwner(UnknownColumnMessage(b)) == if b in LOCATION_COLUMNS then Some(Location) else None
  {
    RefRoundTrip(b);
    BareNamesStay(b);
    if b in OUTBOUND_LOCATION_COLUMNS { QualifiedHaveDots(b); }
  }

  /** Any qualified column: one of wa_outbound's own three is OutboundLocation's,
      any other place column is Location's whatever qualifies it, no other is
      anybody's. */
  lemma QualifiedOwner(q: string, b: string)
    requires '\'' !in q && '\'' !in b && '.' !in b
    ensures var col := q + "." + b;
      ColumnOwner(UnknownColumnMessage(col)) ==
        if col in OUTBOUND_LOCATION_COLUMNS then Some(OutboundLocation)
        else if b in LOCATION_COLUMNS then Some(Location) else None
  {
    var col := q + "." + b;
    RefRoundTrip(col);
    BareIsLast(q, b);
    assert col[|q|] == '.';
    DottedIsNoPlace(col);
    if b in OUTBOUND_LOCATION_COLUMNS { QualifiedHaveDots(b); }
  }

  lemma DottedIsNoPlace(col: string)
    requires '.' in col
    ensures col !in LOCATION_COLUMNS
  {
    if col in LOCATION_COLUMNS { PlaceNames(col); }
  }

  // ------------------------------------------------------------- the database

  datatype DbError = NoError | UnknownColumn(msg: string) | OtherError

  predicate Lacks(schema: set<string>, f: Feature) {
    !(ColumnsOf(f) <= schema)
  }

  class Store {
    /** The columns the database has, and which missing one an error names. */
    const schema: set<string>
    const pick: set<string> -> string
    /** What other goroutines switch off at the k-th step; which statements
        fail for another reason. */
    const others: nat -> seq<Feature>
    const fails: nat -> bool
    var turn: nat
    /** The features switched off, the log lines about it, the statements run. */
    var off: set<Feature>
    var log: seq<Feature>
    var runs: seq<set<string>>
    /** What the database answered to the last of them. */
    ghost var answer: DbError

    constructor (schema: set<string>, pick: set<string> -> string, others: nat -> seq<Feature>, fails: nat -> bool)
      requires forall s :: s != {} ==> pick(s) in s
      ensures Valid() && this.schema == schema && this.pick == pick && this.others == others && this.fails == fails
      ensures off == {} && log == [] && runs == []
    {
      this.schema, this.pick, this.others, this.fails := schema, pick, others, fails;
      this.turn, this.off, this.log, this.runs, this.answer := 0, {}, [], [], NoError;
    }

    /** Only features that really lack a column are off, and each was logged once. */
    ghost predicate Valid()
      reads this
    {
      && (forall s :: s != {} ==> pick(s) in s)
      && (forall f :: f in off ==> Lacks(schema, f))
      && (forall f :: f in off <==> f in log)
      && NoRepeats(log)
    }

    /** No statement fails but for a missing column. */
    ghost predicate Sound() {
      forall k :: !fails(k)
    }

    /** No other goroutine switches anything off. */
    ghost predicate Quiet() {
      forall k :: others(k) == []
    }

    /** Fallback, once newFn has answered: is the error this feature's to absorb? */
    method Absorb(feature: Feature, err: DbError) returns (mine: bool)
      requires Valid()
      requires err.UnknownColumn? && ColumnOwner(err.msg).Or(feature) == feature ==> Lacks(schema, feature)
      modifies this`off, this`log
      ensures Valid() && mine == (err.UnknownColumn? && ColumnOwner(err.msg).Or(feature) == feature)
      ensures off == if mine then old(off) + {feature} else old(off)
      ensures log == if mine && feature !in old(off) then old(log) + [feature] else old(log)
    {
      if !err.UnknownColumn? { return false; }
      var owner := ColumnOwner(err.msg);
      if owner.Some? && owner.value != feature { return false; }
      var first := feature !in off;
      off := off + {feature};
      if first { log := log + [feature]; }
      return true;
    }

    /** Other goroutines run their own Fallbacks. */
    method Elsewhere()
      requires Valid()
      modifies this`off, this`log, this`turn
      ensures Valid() && old(off) <= off && (Quiet() ==> off == old(off))
    {
      var fs := others(turn);
      turn := turn + 1;
      for i := 0 to |fs|
        invariant Valid() && old(off) <= off
        invariant fs == [] ==> off == old(off)
      {
        if Lacks(schema, fs[i]) && fs[i] !in off {
          off := off + {fs[i]};
          log := log + [fs[i]];
        }
      }
    }

    method FeatureOff(feature: Feature) returns (isOff: bool)
      requires Valid()
      modifies this`off, this`log, this`turn
      ensures Valid() && old(off) <= off && (Quiet() ==> off == old(off)) && isOff == (feature in off)
    {
      Elsewhere();
      isOff := feature in off;
    }

    /** The database runs a statement naming these columns. */
    method Run(columns: set<string>) returns (err: DbError)
      requires Valid()
      modifies this`runs, this`turn, this`off, this`log, this`answer
      ensures Valid() && old(off) <= off && (Quiet() ==> off == old(off)) && runs == old(runs) + [columns]
      ensures err.NoError? ==> columns <= schema
      ensures err.UnknownColumn? ==>
                exists col :: col in columns - schema && err == UnknownColumn(UnknownColumnMessage(col))
      ensures answer == err && (Sound() ==> !err.OtherError?)
    {
      runs := runs + [columns];
      Elsewhere();
      var missing := columns - schema;
      assert forall c | c in columns :: c in schema || c in missing;
      err := if fails(turn) then OtherError
             else if missing == {} then NoError else UnknownColumn(UnknownColumnMessage(pick(missing)));
      answer := err;
    }

    /** The inner Fallback of the two nested uses: `inner` around a statement
        with and without its columns. */
    method Inner(inner: Feature, base: set<string>, innerColumns: set<string>, outerColumns: set<string>)
      returns (err: DbError)
      requires Valid() && Nests(inner, base, innerColumns, outerColumns, schema)
      modifies this`runs, this`turn, this`off, this`log, this`answer
      ensures Valid() && old(off) <= off
      ensures old(runs) < runs && |runs| <= |old(runs)| + 2
      ensures |runs| == |old(runs)| + 2 ==> inner !in old(off) && inner in off
      ensures innerColumns <= schema && outerColumns <= schema ==> |runs| == |old(runs)| + 1
      ensures Quiet() ==> off == old(off) || (off == old(off) + {inner} && !(innerColumns <= schema))
      ensures err.NoError? ==>
                Last() <= schema && Picked(Last(), base + outerColumns, innerColumns, inner, old(off), off)
      ensures err.UnknownColumn? ==>
                exists col :: col in outerColumns - schema && err == UnknownColumn(UnknownColumnMessage(col))
      // the error is the database's own, to the last statement run
      ensures err == answer && (Sound() ==> !err.OtherError?)
    {
      var isOff := FeatureOff(inner);
      if !isOff {
        err := Run(base + outerColumns + innerColumns);
        if err.UnknownColumn? {
          var col :| col in (base + outerColumns + innerColumns) - schema
            && err == UnknownColumn(UnknownColumnMessage(col));
          Owners(if col in outerColumns then Location else inner, col);
        }
        var mine := Absorb(inner, err);
        if !mine { return; }
      }
      err := Run(base + outerColumns);
    }

    /** Nested Fallbacks: Location's around the inner feature's. Every choice of
        the column an error names, and every interleaving, ends on the largest
        statement in at most three, and settles. */
    method Nested(inner: Feature, base: set<string>, innerColumns: set<string>, outerColumns: set<string>)
      returns (err: DbError)
      requires Valid() && Nests(inner, base, innerColumns, outerColumns, schema)
      modifies this`runs, this`turn, this`off, this`log, this`answer
      ensures Valid() && old(off) <= off && !err.UnknownColumn?
      ensures old(runs) < runs && |runs| <= |old(runs)| + 3
      ensures old(Settled(inner, innerColumns, outerColumns)) ==> |runs| == |old(runs)| + 1
      ensures Quiet() ==> OnlyMissing(old(off), off, schema, inner, innerColumns, outerColumns)
      ensures err.NoError? ==> Settled(inner, innerColumns, outerColumns) && Last() <= schema
      ensures err.NoError? && !Lacks(schema, inner) ==> innerColumns <= Last()
      ensures err.NoError? && !Lacks(schema, Location) ==> outerColumns <= Last()
      ensures err.NoError? && Quiet() ==> Last() == Largest(base, inner, innerColumns, outerColumns, schema, old(off))
      // it succeeds exactly when the last statement did, and fails only for another reason
      ensures err == answer && (Sound() ==> err.NoError?)
    {
      var isOff := FeatureOff(Location);
      if !isOff {
        err := Inner(inner, base, innerColumns, outerColumns);
        OuterIsPlace(err, outerColumns, schema);
        var mine := Absorb(Location, err);
        if !mine { return; }
      }
      err := Inner(inner, base, innerColumns, {});
    }

    /** InsertMessage: only a row with a place or an address names Location's
        columns, and only then can it switch Location off. */
    method InsertMessage(base: set<string>, hasPlace: bool) returns (err: DbError)
      requires Valid() && base <= schema
      modifies this`runs, this`turn, this`off, this`log, this`answer
      ensures Valid() && old(off) <= off && !err.UnknownColumn?
      ensures old(runs) < runs && |runs| <= |old(runs)| + (if hasPlace then 3 else 2)
      ensures old(Settled(Quotes, QUOTE_COLUMNS, Places(hasPlace))) ==> |runs| == |old(runs)| + 1
      ensures Quiet() ==> OnlyMissing(old(off), off, schema, Quotes, QUOTE_COLUMNS, Places(hasPlace))
      ensures err.NoError? ==> Settled(Quotes, QUOTE_COLUMNS, Places(hasPlace)) && Last() <= schema
      ensures err.NoError? && !Lacks(schema, Quotes) ==> QUOTE_COLUMNS <= Last()
      ensures err.NoError? && !Lacks(schema, Location) ==> Places(hasPlace) <= Last()
      ensures err.NoError? && Quiet() ==>
                Last() == Largest(base, Quotes, QUOTE_COLUMNS, Places(hasPlace), schema, old(off))
      // it succeeds exactly when the last statement did, and fails only for another reason
      ensures err == answer && (Sound() ==> err.NoError?)
    {
      if !hasPlace {
        err := Inner(Quotes, base, QUOTE_COLUMNS, {});
      } else {
        err := Nested(Quotes, base, QUOTE_COLUMNS, LOCATION_COLUMNS);
      }
    }

    /** RecomputeChatTail's SELECT: revoked_at and location_name, or literals for them. */
    method SelectTail(base: set<string>) returns (err: DbError)
      requires Valid() && base <= schema
      modifies this`runs, this`turn, this`off, this`log, this`answer
      ensures Valid() && old(off) <= off && !err.UnknownColumn?
      ensures old(runs) < runs && |runs| <= |old(runs)| + 3
      ensures old(Settled(Edits, {"revoked_at"}, {"location_name"})) ==> |runs| == |old(runs)| + 1
      ensures Quiet() ==> OnlyMissing(old(off), off, schema, Edits, {"revoked_at"}, {"location_name"})
      ensures err.NoError? ==> Settled(Edits, {"revoked_at"}, {"location_name"}) && Last() <= schema
      ensures err.NoError? && !Lacks(schema, Edits) ==> "revoked_at" in Last()
      ensures err.NoError? && !Lacks(schema, Location) ==> "location_name" in Last()
      ensures err.NoError? && Quiet() ==>
                Last() == Largest(base, Edits, {"revoked_at"}, {"location_name"}, schema, old(off))
      // it succeeds exactly when the last statement did, and fails only for another reason
      ensures err == answer && (Sound() ==> err.NoError?)
    {
      TailGroups();
      err := Nested(Edits, base, {"revoked_at"}, {"location_name"});
    }

    /** Nothing a statement of this shape names is missing, unless its feature is off. */
    ghost predicate Settled(inner: Feature, innerColumns: set<string>, outerColumns: set<string>)
      reads this`off
    {
      && (innerColumns <= schema || inner in off)
      && (outerColumns <= schema || Location in off)
    }

    ghost function Last(): set<string>
      requires |runs| > 0
      reads this
    {
      runs[|runs| - 1]
    }
  }

  /** The statement a Fallback ends on: with the feature's columns unless the
      feature is off; without them if it was off from the start, or the database
      has not got them. */
  ghost predicate Picked(last: set<string>, rest: set<string>, columns: set<string>, f: Feature, before: set<Feature>,
                         after: set<Feature>) {
    && (last == rest + columns || last == rest)
    && (last != rest + columns ==> f in after)
    && (f in before ==> last == rest)
  }

  function Places(hasPlace: bool): set<string> {
    if hasPlace then LOCATION_COLUMNS else {}
  }

  lemma TailGroups()
    ensures {"revoked_at"} <= EDIT_COLUMNS && {"location_name"} <= LOCATION_COLUMNS
  {
  }

  /** What a call switched off itself, it had to. */
  ghost predicate OnlyMissing(before: set<Feature>, after: set<Feature>, schema: set<string>, inner: Feature,
                              innerColumns: set<string>, outerColumns: set<string>) {
    && after <= before + {inner, Location}
    && (inner in after - before ==> !(innerColumns <= schema))
    && (Location in after - before ==> !(outerColumns <= schema))
  }

  /** The reference: each group is in exactly if the schema has it and its feature is on. */
  function Largest(base: set<string>, inner: Feature, innerColumns: set<string>, outerColumns: set<string>,
                   schema: set<string>, off: set<Feature>): set<string> {
    base + (if outerColumns <= schema && Location !in off then outerColumns else {})
    + (if innerColumns <= schema && inner !in off then innerColumns else {})
  }

  /** An error about an outer column is Location's own. */
  lemma OuterIsPlace(err: DbError, outerColumns: set<string>, schema: set<string>)
    requires outerColumns <= LOCATION_COLUMNS
    requires err.UnknownColumn? ==>
               exists col :: col in outerColumns - schema && err == UnknownColumn(UnknownColumnMessage(col))
    ensures err.UnknownColumn? ==> ColumnOwner(err.msg) == Some(Location) && !(outerColumns <= schema)
  {
    if err.UnknownColumn? {
      var col :| col in outerColumns - schema && err == UnknownColumn(UnknownColumnMessage(col));
      Owners(Location, col);
    }
  }

  /** How the two nested statements are made: base columns that exist, an inner
      feature's, and those of Location or none. */
  ghost predicate Nests(inner: Feature, base: set<string>, innerColumns: set<string>, outerColumns: set<string>,
                        schema: set<string>) {
    && (inner.Quotes? || inner.Edits?)
    && base <= schema && innerColumns <= ColumnsOf(inner) && outerColumns <= LOCATION_COLUMNS
  }
}
