/** The body of a location row: how internal/wabridge prints a position and
    reads one back. Positions are whole micro-degrees; what is read is the exact
    decimal, before it is rounded to a float. */
module Coordinates {
  import opened Base
  import opened Text

  /** units / 10^scale */
  datatype Decimal = Decimal(units: int, scale: nat)

  const MICRO := 1_000_000
  const DECIMALS: nat := 6

  function Pow10(n: nat): nat {
    if n == 0 then 1 else 10 * Pow10(n - 1)
  }

  lemma MicroIsPower()
    ensures Pow10(DECIMALS) == MICRO
  {
    assert Pow10(6) == MICRO;
  }

  // ----------------------------------------------------------------- printing

  function Digit(n: nat): char
    requires n < 10
  {
    ('0' as int + n) as char
  }

  function Digits(n: nat): string {
    if n < 10 then [Digit(n)] else Digits(n / 10) + [Digit(n % 10)]
  }

  /** The last `width` digits of n. */
  function Padded(n: nat, width: nat): string
    decreases width
  {
    if width == 0 then "" else Padded(n / 10, width - 1) + [Digit(n % 10)]
  }

  /** %.6f without its sign. */
  function PrintUnsigned(size: nat): string {
    Digits(size / MICRO) + "." + Padded(size % MICRO, DECIMALS)
  }

  /** %.6f */
  function PrintDegrees(micro: int): string {
    if micro < 0 then "-" + PrintUnsigned(-micro) else PrintUnsigned(micro)
  }

  /** coordinates */
  function Print(lat: int, lng: int): string {
    PrintDegrees(lat) + ", " + PrintDegrees(lng)
  }

  // ------------------------------------------------------------------ reading

  function Value(s: string): nat
    requires AllDigits(s)
  {
    if s == "" then 0 else 10 * Value(s[..|s| - 1]) + (s[|s| - 1] as int - '0' as int)
  }

  /** One to three digits, and with a point at least one more. */
  function ReadUnsigned(t: string): Option<Decimal> {
    var point := IndexFrom(t, '.', 0);
    var whole := if point.Some? then t[..point.value] else t;
    var fraction := if point.Some? then t[point.value + 1..] else "";
    if 1 <= |whole| <= 3 && AllDigits(whole) && AllDigits(fraction) && (point.Some? ==> fraction != "")
    then Some(Decimal(Value(whole + fraction), |fraction|))
    else None
  }

  /** One number of coordinatesRE. */
  function ReadNumber(s: string): Option<Decimal> {
    if s == "" || s[0] != '-' then ReadUnsigned(s)
    else
      var size := ReadUnsigned(s[1..]);
      if size.None? then None else Some(size.value.(units := -size.value.units))
  }

  /** The white space of a regular expression. */
  predicate ReSpace(c: char) {
    c in {'\t', '\n', '\U{0C}', '\r', ' '}
  }

  /** Space, a, space. */
  ghost predicate Holds(part: string, a: string) {
    exists left, right :: AllSpace(left, ReSpace) && AllSpace(right, ReSpace) && part == left + a + right
  }

  ghost predicate Spells(s: string, a: string, b: string, left: string, right: string) {
    s == left + "," + right && Holds(left, a) && Holds(right, b) && ReadNumber(a).Some? && ReadNumber(b).Some?
  }

  /** coordinatesRE matches s, with the groups a and b. */
  ghost predicate Matches(s: string, a: string, b: string) {
    exists left, right :: Spells(s, a, b, left, right)
  }

  /** Its two groups. */
  function Groups(s: string): Option<(string, string)> {
    var comma := IndexFrom(s, ',', 0);
    if comma.None? then None
    else
      var a, b := TrimOf(s[..comma.value], ReSpace), TrimOf(s[comma.value + 1..], ReSpace);
      if ReadNumber(a).Some? && ReadNumber(b).Some? then Some((a, b)) else None
  }

  predicate Within(d: Decimal, degrees: nat) {
    -(degrees * Pow10(d.scale)) <= d.units <= degrees * Pow10(d.scale)
  }

  /** parseCoordinates */
  function Parse(s: string): Option<(Decimal, Decimal)> {
    var g := Groups(s);
    if g.None? then None
    else
      var lat, lng := ReadNumber(g.value.0).value, ReadNumber(g.value.1).value;
      if Within(lat, 90) && Within(lng, 180) then Some((lat, lng)) else None
  }

  // --------------------------------------------------- the regular expression

  /** A text that can stand before or after the comma: no comma inside, no
      space at its ends. */
  predicate Token(a: string) {
    && a != "" && !ReSpace(a[0]) && !ReSpace(a[|a| - 1])
    && forall k | 0 <= k < |a| :: a[k] != ','
  }

  predicate Numeral(c: char) {
    '0' <= c <= '9' || c == '.'
  }

  lemma UnsignedChars(t: string)
    requires ReadUnsigned(t).Some?
    ensures t != "" && forall k | 0 <= k < |t| :: Numeral(t[k])
  {
    var point := IndexFrom(t, '.', 0);
    if point.Some? {
      var n := point.value;
      forall k | 0 <= k < |t| ensures Numeral(t[k]) {
        if k < n {
          assert t[k] == t[..n][k];
        } else if n < k {
          assert t[k] == t[n + 1..][k - n - 1];
        }
      }
    }
  }

  lemma NumbersAreTokens(a: string)
    requires ReadNumber(a).Some?
    ensures Token(a)
  {
    if a != "" && a[0] == '-' {
      UnsignedChars(a[1..]);
      assert forall k | 0 < k < |a| :: a[k] == a[1..][k - 1];
    } else {
      UnsignedChars(a);
    }
  }

  lemma TokenIsFound(part: string, a: string)
    requires Token(a) && Holds(part, a)
    ensures TrimOf(part, ReSpace) == a && forall k | 0 <= k < |part| :: part[k] != ','
  {
    var left, right :| AllSpace(left, ReSpace) && AllSpace(right, ReSpace) && part == left + a + right;
    TrimsBack(left, a, right, ReSpace);
  }

  lemma TrimmedIsHeld(part: string)
    ensures Holds(part, TrimOf(part, ReSpace))
  {
    var left, right := TrimParts(part, ReSpace);
  }

  lemma CommaIsFound(left: string, right: string)
    requires forall k | 0 <= k < |left| :: left[k] != ','
    ensures var s := left + "," + right;
      IndexFrom(s, ',', 0) == Some(|left|) && s[..|left|] == left && s[|left| + 1..] == right
  {
    var s := left + "," + right;
    assert s[|left|] == ',';
    assert forall k | 0 <= k < |left| :: s[k] == left[k];
  }

  /** Splitting at the comma finds exactly what the expression matches, so it
      matches in at most one way. */
  lemma GroupsAreMatches(s: string, a: string, b: string)
    ensures Groups(s) == Some((a, b)) <==> Matches(s, a, b)
  {
    if Groups(s) == Some((a, b)) {
      GroupsMatch(s, a, b);
    }
    if left, right :| Spells(s, a, b, left, right) {
      NumbersAreTokens(a);
      NumbersAreTokens(b);
      TokensAreGroups(left, a, right, b);
    }
  }

  /** -degrees <= units / 10^scale <= degrees, multiplied out. */
  predicate OnGlobe(lat: Decimal, lng: Decimal) {
    && -90 * Pow10(lat.scale) <= lat.units <= 90 * Pow10(lat.scale)
    && -180 * Pow10(lng.scale) <= lng.units <= 180 * Pow10(lng.scale)
  }

  /** What is read are the two numbers of the match, exactly when both are on
      the globe. */
  lemma ParseIs(s: string, a: string, b: string)
    requires Matches(s, a, b)
    ensures ReadNumber(a).Some? && ReadNumber(b).Some?
    ensures var lat, lng := ReadNumber(a).value, ReadNumber(b).value;
            Parse(s) == if OnGlobe(lat, lng) then Some((lat, lng)) else None
  {
    GroupsAreMatches(s, a, b);
  }

  /** Nothing is read where nothing matches. */
  lemma ParseNeedsMatch(s: string)
    ensures Parse(s).Some? ==> exists a, b :: Matches(s, a, b)
  {
    if Parse(s).Some? {
      var g := Groups(s).value;
      GroupsAreMatches(s, g.0, g.1);
    }
  }

  lemma GroupsMatch(s: string, a: string, b: string)
    requires Groups(s) == Some((a, b))
    ensures Matches(s, a, b)
  {
    var n := IndexFrom(s, ',', 0).value;
    TrimmedIsHeld(s[..n]);
    TrimmedIsHeld(s[n + 1..]);
    Rejoined(s, n);
    assert Spells(s, a, b, s[..n], s[n + 1..]);
  }

  lemma Rejoined(s: string, n: nat)
    requires n < |s| && s[n] == ','
    ensures s == s[..n] + "," + s[n + 1..]
  {
  }

  lemma TokensAreGroups(left: string, a: string, right: string, b: string)
    requires Token(a) && Token(b) && Holds(left, a) && Holds(right, b)
    ensures Groups(left + "," + right) == if ReadNumber(a).Some? && ReadNumber(b).Some? then Some((a, b)) else None
  {
    TokenIsFound(left, a);
    TokenIsFound(right, b);
    CommaIsFound(left, right);
  }

  // --------------------------------------------------------------- round trip

  lemma {:induction false} DigitsRead(n: nat)
    ensures AllDigits(Digits(n)) && Digits(n) != "" && Value(Digits(n)) == n
    ensures |Digits(n)| <= 1 <==> n < 10
    ensures |Digits(n)| <= 2 <==> n < 100
    ensures |Digits(n)| <= 3 <==> n < 1000
  {
    if n < 10 {
      assert Digits(n)[..0] == "";
    } else {
      DigitsRead(n / 10);
      assert Digits(n)[..|Digits(n)| - 1] == Digits(n / 10);
    }
  }

  /** Digits after the point go on where the whole degrees stopped. */
  lemma {:induction false} PaddedReads(whole: string, n: nat, width: nat)
    requires AllDigits(whole) && n < Pow10(width)
    ensures AllDigits(Padded(n, width)) && |Padded(n, width)| == width
    ensures Value(whole + Padded(n, width)) == Value(whole) * Pow10(width) + n
    decreases width
  {
    if width == 0 {
      assert whole + "" == whole;
    } else {
      var all, most := whole + Padded(n, width), whole + Padded(n / 10, width - 1);
      PaddedReads(whole, n / 10, width - 1);
      assert all[..|all| - 1] == most;
      assert all[|all| - 1] == Digit(n % 10);
      assert Value(all) == 10 * Value(most) + n % 10;
      Shift(Value(whole), Pow10(width - 1));
    }
  }

  lemma Shift(v: nat, p: nat)
    ensures 10 * (v * p) == v * (10 * p)
  {
  }

  lemma UnsignedReads(whole: string, fraction: string)
    requires AllDigits(whole) && AllDigits(fraction) && fraction != "" && whole != ""
    ensures ReadUnsigned(whole + "." + fraction)
            == if |whole| <= 3 then Some(Decimal(Value(whole + fraction), |fraction|)) else None
    ensures Token(whole + "." + fraction) && (whole + "." + fraction)[0] != '-'
  {
    PointAt(whole, fraction);
  }

  /** Digits are read from the left, in tens. */
  lemma {:induction false} ValueOf(a: string, b: string)
    requires AllDigits(a) && AllDigits(b)
    ensures AllDigits(a + b) && Value(a + b) == Value(a) * Pow10(|b|) + Value(b)
  {
    if b == "" {
      assert a + b == a;
    } else {
      var n := |b| - 1;
      ValueOf(a, b[..n]);
      assert (a + b)[..|a + b| - 1] == a + b[..n];
      Shift(Value(a), Pow10(n));
    }
  }

  lemma DigitValue(d: nat)
    requires d < 10
    ensures Value([('0' as int + d) as char]) == d
  {
    assert [('0' as int + d) as char][..0] == "";
  }

  /** A numeral as the regular expression has it: one to three digits, and a
      fraction of at least one digit or none. */
  predicate Written(t: string, whole: string, fraction: string) {
    && 1 <= |whole| <= 3 && AllDigits(whole) && AllDigits(fraction)
    && t == if fraction == "" then whole else whole + "." + fraction
  }

  lemma UnsignedNumeral(t: string, whole: string, fraction: string)
    requires Written(t, whole, fraction)
    ensures AllDigits(whole + fraction) && ReadUnsigned(t) == Some(Decimal(Value(whole + fraction), |fraction|))
    ensures t != "" && t[0] != '-'
  {
    if fraction == "" {
      assert whole + fraction == whole;
      assert IndexFrom(whole, '.', 0).None?;
    } else {
      UnsignedReads(whole, fraction);
    }
  }

  /** A number written so is read, with or without a sign, as its digits over the
      power of its decimals. */
  lemma NumeralReads(t: string, whole: string, fraction: string) returns (d: Decimal)
    requires Written(t, whole, fraction)
    ensures AllDigits(whole + fraction) && d == Decimal(Value(whole + fraction), |fraction|)
    ensures ReadNumber(t) == Some(d) && ReadNumber("-" + t) == Some(Decimal(-d.units, d.scale))
  {
    UnsignedNumeral(t, whole, fraction);
    d := ReadUnsigned(t).value;
    SignedNumeral(t, d);
  }

  lemma SignedNumeral(t: string, d: Decimal)
    requires t != "" && t[0] != '-' && ReadUnsigned(t) == Some(d)
    ensures ReadNumber(t) == Some(d) && ReadNumber("-" + t) == Some(Decimal(-d.units, d.scale))
  {
    assert ("-" + t)[1..] == t;
  }

  /** And nothing else is. */
  lemma ReadIsNumeral(s: string) returns (t: string, whole: string, fraction: string)
    requires ReadNumber(s).Some?
    ensures Written(t, whole, fraction) && (s == t || s == "-" + t)
  {
    t := Unsigned(s);
    whole, fraction := UnsignedIsNumeral(t);
  }

  lemma Unsigned(s: string) returns (t: string)
    requires ReadNumber(s).Some?
    ensures ReadUnsigned(t).Some? && (s == t || s == "-" + t)
  {
    t := s;
    if s != "" && s[0] == '-' {
      t := s[1..];
      assert s == "-" + t;
    }
  }

  lemma UnsignedIsNumeral(t: string) returns (whole: string, fraction: string)
    requires ReadUnsigned(t).Some?
    ensures Written(t, whole, fraction)
  {
    var point := IndexFrom(t, '.', 0);
    if point.Some? {
      whole, fraction := t[..point.value], t[point.value + 1..];
      Pieces(t, point.value);
    } else {
      whole, fraction := t, "";
    }
  }

  lemma Pieces(t: string, n: nat)
    requires n < |t| && t[n] == '.'
    ensures t == t[..n] + "." + t[n + 1..]
  {
  }

  /** The pieces of a printed number, around its point. */
  lemma PointAt(whole: string, fraction: string)
    requires AllDigits(whole)
    ensures var t := whole + "." + fraction;
            && t[|whole|] == '.' && t[..|whole|] == whole && t[|whole| + 1..] == fraction
            && IndexFrom(t, '.', 0) == Some(|whole|)
            && forall k | 0 <= k < |t| ::
              t[k] == if k < |whole| then whole[k] else if k == |whole| then '.' else fraction[k - |whole| - 1]
  {
    var t := whole + "." + fraction;
    assert t[|whole|] == '.' && t[..|whole|] == whole && t[|whole| + 1..] == fraction;
    assert IndexFrom(t, '.', 0) == Some(|whole|) by {
      assert forall k | 0 <= k < |whole| :: t[k] == whole[k];
    }
  }

  lemma UnsignedReadsBack(size: nat)
    ensures ReadUnsigned(PrintUnsigned(size)) == if size < 1000 * MICRO then Some(Decimal(size, DECIMALS)) else None
    ensures Token(PrintUnsigned(size)) && PrintUnsigned(size)[0] != '-'
  {
    var q, r := size / MICRO, size % MICRO;
    var whole, fraction := PiecesRead(q, r);
    UnsignedReads(whole, fraction);
    assert size < 1000 * MICRO <==> q < 1000;
  }

  lemma PiecesRead(q: nat, r: nat) returns (whole: string, fraction: string)
    requires r < MICRO
    ensures whole == Digits(q) && fraction == Padded(r, DECIMALS)
    ensures AllDigits(whole) && AllDigits(fraction) && |fraction| == DECIMALS && whole != ""
    ensures AllDigits(whole + fraction) && Value(whole + fraction) == q * MICRO + r
    ensures |whole| <= 3 <==> q < 1000
  {
    whole, fraction := Digits(q), Padded(r, DECIMALS);
    MicroIsPower();
    DigitsRead(q);
    PaddedReads(whole, r, DECIMALS);
  }

  lemma SignReads(t: string)
    requires Token(t) && t[0] != '-'
    ensures ReadNumber(t) == ReadUnsigned(t)
    ensures Token("-" + t)
    ensures ReadNumber("-" + t)
            == if ReadUnsigned(t).None? then None
               else Some(ReadUnsigned(t).value.(units := -ReadUnsigned(t).value.units))
  {
    assert ("-" + t)[1..] == t;
  }

  /** A printed number reads back as itself, or not at all past three digits. */
  lemma NumberReadsBack(micro: int)
    ensures ReadNumber(PrintDegrees(micro))
            == if -1000 * MICRO < micro < 1000 * MICRO then Some(Decimal(micro, DECIMALS)) else None
    ensures Token(PrintDegrees(micro))
  {
    var size := if micro < 0 then -micro else micro;
    UnsignedReadsBack(size);
    SignReads(PrintUnsigned(size));
  }

  /** Reading what was printed gives the position back, for exactly the
      positions that are on the globe. */
  lemma RoundTrip(lat: int, lng: int)
    ensures Parse(Print(lat, lng)) ==
            if -90 * MICRO <= lat <= 90 * MICRO && -180 * MICRO <= lng <= 180 * MICRO
            then Some((Decimal(lat, DECIMALS), Decimal(lng, DECIMALS))) else None
  {
    PrintedGroups(lat, lng);
    NumberReadsBack(lat);
    NumberReadsBack(lng);
    MicroWithin(lat, 90);
    MicroWithin(lng, 180);
  }

  lemma PrintedGroups(lat: int, lng: int)
    ensures var a, b := PrintDegrees(lat), PrintDegrees(lng);
      Groups(Print(lat, lng)) == if ReadNumber(a).Some? && ReadNumber(b).Some? then Some((a, b)) else None
  {
    NumberReadsBack(lat);
    NumberReadsBack(lng);
    PairIsGroups(PrintDegrees(lat), PrintDegrees(lng));
  }

  lemma PairIsGroups(a: string, b: string)
    requires Token(a) && Token(b)
    ensures Groups(a + ", " + b) == if ReadNumber(a).Some? && ReadNumber(b).Some? then Some((a, b)) else None
  {
    HeldBetween("", a, "");
    HeldBetween(" ", b, "");
    assert "" + a + "" == a && " " + b + "" == " " + b;
    assert a + ", " + b == a + "," + (" " + b);
    TokensAreGroups(a, a, " " + b, b);
  }

  lemma HeldBetween(left: string, a: string, right: string)
    requires AllSpace(left, ReSpace) && AllSpace(right, ReSpace)
    ensures Holds(left + a + right, a)
  {
  }

  lemma MicroWithin(micro: int, degrees: nat)
    ensures Within(Decimal(micro, DECIMALS), degrees) <==> -(degrees * MICRO) <= micro <= degrees * MICRO
  {
    MicroIsPower();
  }

  // ------------------------------------------------------------ normalisation

  function Micro(d: Decimal): int
    requires d.scale <= DECIMALS
  {
    d.units * Pow10(DECIMALS - d.scale)
  }

  /** The row of a sent location holds the body printed anew; with at most six
      decimals that is the place of its two numbers, and printing it again
      changes nothing. */
  lemma Normalised(body: string, a: string, b: string)
    requires Matches(body, a, b) && OnGlobe(ReadNumber(a).value, ReadNumber(b).value)
    requires ReadNumber(a).value.scale <= 6 && ReadNumber(b).value.scale <= 6
    ensures var lat, lng := Micro(ReadNumber(a).value), Micro(ReadNumber(b).value);
            && Parse(body) == Some((ReadNumber(a).value, ReadNumber(b).value))
            && Parse(Print(lat, lng)) == Some((Decimal(lat, DECIMALS), Decimal(lng, DECIMALS)))
            && SamePlace(ReadNumber(a).value, lat) && SamePlace(ReadNumber(b).value, lng)
  {
    var x, y := ReadNumber(a).value, ReadNumber(b).value;
    ParseIs(body, a, b);
    MicroFits(x, 90);
    MicroFits(y, 180);
    RoundTrip(Micro(x), Micro(y));
  }

  /** units / 10^scale == micro / 10^6, multiplied out. */
  predicate SamePlace(d: Decimal, micro: int) {
    micro * Pow10(d.scale) == d.units * MICRO
  }

  lemma MicroFits(d: Decimal, degrees: nat)
    requires d.scale <= DECIMALS && Within(d, degrees)
    ensures -(degrees * MICRO) <= Micro(d) <= degrees * MICRO && SamePlace(d, Micro(d))
  {
    var p, q := Pow10(d.scale), Pow10(DECIMALS - d.scale);
    assert p * q == MICRO by {
      assert Pow10(1) == 10 && Pow10(2) == 100 && Pow10(3) == 1000;
      assert Pow10(4) == 10000 && Pow10(5) == 100000 && Pow10(6) == MICRO;
    }
    assert (degrees * p) * q == degrees * MICRO;
    assert (d.units * q) * p == d.units * MICRO;
  }
}
