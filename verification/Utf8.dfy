/** Byte limits on text: clip, and the failure texts that go through it.
    Valid text is what section 4 of RFC 3629 generates. */
module Utf8 {
  import opened Tables

  type Byte = b: int | 0 <= b < 0x100

  predicate Tail(b: Byte) { 0x80 <= b <= 0xBF }

  /** utf8.RuneStart */
  predicate RuneStart(b: Byte) { !Tail(b) }

  /** How many bytes the first byte asks for; 0 when none may start with it. */
  function Wanted(b: Byte): nat {
    if b <= 0x7F then 1
    else if 0xC2 <= b <= 0xDF then 2
    else if 0xE0 <= b <= 0xEF then 3
    else if 0xF0 <= b <= 0xF4 then 4
    else 0
  }

  /** The ranges the second byte is held to. */
  predicate SecondFits(first: Byte, second: Byte) {
    && Tail(second)
    && (first == 0xE0 ==> second >= 0xA0)
    && (first == 0xED ==> second <= 0x9F)
    && (first == 0xF0 ==> second >= 0x90)
    && (first == 0xF4 ==> second <= 0x8F)
  }

  /** UTF8-char: s starts with a whole character. */
  predicate Whole(s: seq<Byte>) {
    && s != [] && 0 < Wanted(s[0]) <= |s|
    && (Wanted(s[0]) > 1 ==> SecondFits(s[0], s[1]))
    && (Wanted(s[0]) > 2 ==> Tail(s[2]))
    && (Wanted(s[0]) > 3 ==> Tail(s[3]))
  }

  /** UTF8-octets: nothing but whole characters. */
  predicate Valid(s: seq<Byte>) {
    s == [] || (Whole(s) && Valid(s[Wanted(s[0])..]))
  }

  // -------------------------------------------------------------- characters

  /** Unicode scalar values. */
  predicate Scalar(c: int) {
    0 <= c <= 0x10FFFF && !(0xD800 <= c <= 0xDFFF)
  }

  /** Section 3 of RFC 3629: six bits a byte after the first. */
  function Encode(c: int): seq<Byte>
    requires Scalar(c)
  {
    if c < 0x80 then [c]
    else if c < 0x800 then [0xC0 + c / 64, 0x80 + c % 64]
    else if c < 0x1_0000 then [0xE0 + c / 4096, 0x80 + c / 64 % 64, 0x80 + c % 64]
    else [0xF0 + c / 262144, 0x80 + c / 4096 % 64, 0x80 + c / 64 % 64, 0x80 + c % 64]
  }

  predicate Scalars(cs: seq<int>) {
    forall k | 0 <= k < |cs| :: Scalar(cs[k])
  }

  function EncodeAll(cs: seq<int>): seq<Byte>
    requires Scalars(cs)
  {
    if cs == [] then [] else Encode(cs[0]) + EncodeAll(cs[1..])
  }

  lemma EncodeIsWhole(c: int)
    requires Scalar(c)
    ensures Whole(Encode(c)) && Wanted(Encode(c)[0]) == |Encode(c)|
  {
    if 0x800 <= c {
      DivTwice(c);
      if c < 0x1_0000 { ThreeBytes(c / 64); } else { FourBytes(c / 4096); }
    }
  }

  /** The bits above the last six of three bytes. */
  lemma ThreeBytes(top: int)
    requires 0x20 <= top < 0x400 && !(0x360 <= top <= 0x37F)
    ensures 0 <= top / 64 <= 15 && (top / 64 == 0 ==> top % 64 >= 0x20) && (top / 64 == 13 ==> top % 64 <= 0x1F)
  {
  }

  /** The bits above the last twelve of four bytes. */
  lemma FourBytes(top: int)
    requires 0x10 <= top <= 0x10F
    ensures 0 <= top / 64 <= 4 && (top / 64 == 0 ==> top % 64 >= 0x10) && (top / 64 == 4 ==> top % 64 <= 0x0F)
  {
  }

  /** Six bits under others come off again. */
  lemma Bits(high: int, low: int)
    requires 0 <= high && 0 <= low < 64
    ensures (high * 64 + low) / 64 == high && (high * 64 + low) % 64 == low
  {
  }

  lemma DivTwice(c: int)
    requires 0 <= c
    ensures c / 4096 == c / 64 / 64 && c / 262144 == c / 64 / 64 / 64 && c / 262144 == c / 4096 / 64
  {
  }

  lemma DecodeThree(a: int, b: int, d: int) returns (c: int)
    requires 0 <= a < 16 && 0 <= b < 64 && 0 <= d < 64
    ensures c / 4096 == a && c / 64 % 64 == b && c % 64 == d && c == a * 4096 + b * 64 + d
  {
    c := (a * 64 + b) * 64 + d;
    Bits(a * 64 + b, d);
    Bits(a, b);
    DivTwice(c);
  }

  lemma DecodeFour(a: int, b: int, d: int, e: int) returns (c: int)
    requires 0 <= a < 8 && 0 <= b < 64 && 0 <= d < 64 && 0 <= e < 64
    ensures c / 262144 == a && c / 4096 % 64 == b && c / 64 % 64 == d && c % 64 == e
    ensures c == a * 262144 + b * 4096 + d * 64 + e
  {
    var top := a * 64 + b;
    c := (top * 64 + d) * 64 + e;
    Bits(top * 64 + d, e);
    Bits(top, d);
    Bits(a, b);
    DivTwice(c);
  }

  /** The character a whole one is the encoding of. */
  lemma DecodeFirst(s: seq<Byte>) returns (c: int)
    requires Whole(s)
    ensures Scalar(c) && s[..Wanted(s[0])] == Encode(c)
  {
    var n := Wanted(s[0]);
    if n == 1 {
      c := s[0];
    } else if n == 2 {
      c := (s[0] as int - 0xC0) * 64 + (s[1] as int - 0x80);
    } else if n == 3 {
      c := DecodeThree(s[0] as int - 0xE0, s[1] as int - 0x80, s[2] as int - 0x80);
    } else {
      c := DecodeFour(s[0] as int - 0xF0, s[1] as int - 0x80, s[2] as int - 0x80, s[3] as int - 0x80);
    }
  }

  /** Text is valid exactly when it encodes characters. */
  lemma ValidIsEncoded(s: seq<Byte>)
    ensures Valid(s) <==> exists cs :: Scalars(cs) && EncodeAll(cs) == s
  {
    if Valid(s) {
      var cs := Decoded(s);
    }
    if cs :| Scalars(cs) && EncodeAll(cs) == s {
      EncodedIsValid(cs);
    }
  }

  lemma {:induction false} Decoded(s: seq<Byte>) returns (cs: seq<int>)
    requires Valid(s)
    ensures Scalars(cs) && EncodeAll(cs) == s
  {
    if s == [] {
      cs := [];
    } else {
      var c := DecodeFirst(s);
      var rest := Decoded(s[Wanted(s[0])..]);
      cs := [c] + rest;
      assert cs[1..] == rest;
    }
  }

  lemma {:induction false} EncodedIsValid(cs: seq<int>)
    requires Scalars(cs)
    ensures Valid(EncodeAll(cs))
  {
    if cs != [] {
      EncodeIsWhole(cs[0]);
      EncodedIsValid(cs[1..]);
      var first, rest := Encode(cs[0]), EncodeAll(cs[1..]);
      assert (first + rest)[|first|..] == rest;
    }
  }

  // -------------------------------------------------------------- boundaries

  /** Valid text may be cut exactly before the bytes that start a character. */
  lemma {:induction false} Boundary(s: seq<Byte>, k: nat)
    requires Valid(s) && k < |s|
    ensures Valid(s[..k]) <==> RuneStart(s[k])
  {
    var n := Wanted(s[0]);
    if k >= n {
      assert s[..k][n..] == s[n..][..k - n];
      Boundary(s[n..], k - n);
    }
  }

  /** No character is longer than four bytes. */
  lemma {:induction false} NearBoundary(s: seq<Byte>, k: nat) returns (j: nat)
    requires Valid(s) && k < |s|
    ensures j <= k < j + 4 && RuneStart(s[j])
  {
    var n := Wanted(s[0]);
    if k < n {
      j := 0;
    } else {
      j := NearBoundary(s[n..], k - n);
      j := j + n;
    }
  }

  lemma {:induction false} Joined(a: seq<Byte>, b: seq<Byte>)
    requires Valid(a) && Valid(b)
    ensures Valid(a + b)
  {
    if a == [] {
      assert a + b == b;
    } else {
      var n := Wanted(a[0]);
      assert (a + b)[n..] == a[n..] + b;
      Joined(a[n..], b);
    }
  }

  // -------------------------------------------------------------------- clip

  /** Where clip cuts. */
  function CutAt(s: seq<Byte>, n: nat): (k: nat)
    requires n < |s|
    ensures k <= n && (k == 0 || RuneStart(s[k])) && forall j | k < j <= n :: Tail(s[j])
  {
    if n > 0 && Tail(s[n]) then CutAt(s, n - 1) else n
  }

  function Clipped(s: seq<Byte>, n: nat): seq<Byte> {
    if |s| <= n then s else s[..CutAt(s, n)]
  }

  /** clip: of valid text, the longest valid prefix the limit leaves room for. */
  method Clip(s: seq<Byte>, n: nat) returns (r: seq<Byte>)
    ensures r == Clipped(s, n) && r <= s && |r| <= n
    ensures Valid(s) ==> Valid(r) && forall k | |r| < k <= n && k <= |s| :: !Valid(s[..k])
    ensures Valid(s) && |s| > n ==> |r| > n - 4
  {
    if |s| <= n {
      assert s[..|s|] == s;
      return s;
    }
    var m := n;
    while m > 0 && !RuneStart(s[m])
      invariant 0 <= m <= n && CutAt(s, m) == CutAt(s, n)
    {
      m := m - 1;
    }
    r := s[..m];
    if Valid(s) {
      ClipIsLongest(s, n);
    }
  }

  lemma ClipIsLongest(s: seq<Byte>, n: nat)
    requires Valid(s) && n < |s|
    ensures Valid(Clipped(s, n)) && |Clipped(s, n)| > n - 4
    ensures forall k | |Clipped(s, n)| < k <= n :: !Valid(s[..k])
  {
    var c := CutAt(s, n);
    Boundary(s, c);
    var j := NearBoundary(s, n);
    forall k | c < k <= n ensures !Valid(s[..k]) { Boundary(s, k); }
  }

  // ----------------------------------------------------------- failure texts

  const MESSAGE_MAX := 500
  const COLON: seq<Byte> := [0x3A, 0x20]

  /** markAttempt's cut, which counts bytes only. */
  function ByteCut(msg: seq<Byte>): seq<Byte> {
    if |msg| > MESSAGE_MAX then msg[..MESSAGE_MAX] else msg
  }

  /** FailOutbound's error_message. */
  function FailText(code: seq<Byte>, detail: seq<Byte>): seq<Byte> {
    Clipped(code + COLON + detail, MESSAGE_MAX)
  }

  /** markAttempt's error_message: FailOutbound's at the cap, else the cut text. */
  function AttemptText(attempts: nat, code: seq<Byte>, msg: seq<Byte>): seq<Byte> {
    if attempts + 1 >= MAX_ATTEMPTS then FailText(code, ByteCut(msg)) else ByteCut(msg)
  }

  /** A failed row's text is the longest valid prefix of "code: detail" that 500
      bytes hold, so all of it when it fits, and always starts with the code. */
  lemma FailTextReads(code: seq<Byte>, detail: seq<Byte>)
    requires Valid(code) && Valid(detail) && |code| + 2 <= MESSAGE_MAX
    ensures var all, text := code + [0x3A, 0x20] + detail, FailText(code, detail);
            && text <= all && |text| <= 500 && Valid(text)
            && (forall k | |text| < k <= 500 && k <= |all| :: !Valid(all[..k]))
            && (|all| <= 500 ==> text == all)
            && code + [0x3A, 0x20] <= text
  {
    var head := code + COLON;
    var s := head + detail;
    assert Valid(COLON) by { assert COLON[1..][1..] == []; }
    Joined(code, COLON);
    Joined(head, detail);
    if |s| > MESSAGE_MAX {
      ClipIsLongest(s, MESSAGE_MAX);
      assert s[..|head|] == head;
    }
  }

  /** The byte cut before it never shows: what it split, the clip removes. */
  lemma CutDoesNotShow(code: seq<Byte>, msg: seq<Byte>)
    ensures FailText(code, ByteCut(msg)) == FailText(code, msg)
  {
    if |msg| > MESSAGE_MAX {
      var s, t := code + COLON + msg, code + COLON + ByteCut(msg);
      assert s[..|t|] == t;
      SameCut(s, t, MESSAGE_MAX);
    }
  }

  lemma {:induction false} SameCut(s: seq<Byte>, t: seq<Byte>, n: nat)
    requires t <= s && n < |t|
    ensures CutAt(s, n) == CutAt(t, n) && s[..CutAt(s, n)] == t[..CutAt(t, n)]
  {
    if n > 0 {
      SameCut(s, t, n - 1);
    }
  }

  /** So a recorded attempt leaves valid text exactly when it is the last, or
      byte 500 of the message starts a character, or there is none. */
  lemma AttemptTextIsValid(attempts: nat, code: seq<Byte>, msg: seq<Byte>)
    requires Valid(code) && Valid(msg) && |code| + 2 <= MESSAGE_MAX
    ensures |AttemptText(attempts, code, msg)| <= MESSAGE_MAX
    ensures Valid(AttemptText(attempts, code, msg))
      <==> (attempts + 1 >= MAX_ATTEMPTS || |msg| <= MESSAGE_MAX || RuneStart(msg[MESSAGE_MAX]))
  {
    if attempts + 1 >= MAX_ATTEMPTS {
      CutDoesNotShow(code, msg);
      FailTextReads(code, msg);
    } else if |msg| > MESSAGE_MAX {
      Boundary(msg, MESSAGE_MAX);
    }
  }

  /** A message on which the first four attempts leave half a character. */
  lemma HalfACharacter() returns (msg: seq<Byte>)
    ensures Valid(msg) && !Valid(AttemptText(0, [], msg))
  {
    var letters := seq(MESSAGE_MAX - 1, _ => 0x61 as Byte);
    msg := letters + [0xC3, 0xA9];
    Letters(letters);
    assert Valid([0xC3, 0xA9]);
    Joined(letters, [0xC3, 0xA9]);
    Boundary(msg, MESSAGE_MAX);
  }

  lemma {:induction false} Letters(s: seq<Byte>)
    requires forall k | 0 <= k < |s| :: s[k] == 0x61
    ensures Valid(s)
  {
    if s != [] {
      Letters(s[1..]);
    }
  }
}
