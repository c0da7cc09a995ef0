/** The log file of internal/logfile: a date before each line, and a new file
    once the current one is long enough. */
module LogFile {
  import opened Utf8

  const NEWLINE: Byte := 0x0A
  const MAX_SIZE := 10 * 0x10_0000

  /** A Write call: its bytes and the date it stamps lines with. */
  datatype Call = Call(p: seq<Byte>, stamp: seq<Byte>)

  /** Whether output that stood at a line's start (or not) does so after p. */
  function After(bol: bool, p: seq<Byte>): bool {
    if p == [] then bol else p[|p| - 1] == NEWLINE
  }

  /** p with a stamp before each line. */
  function Stamped(bol: bool, p: seq<Byte>, stamp: seq<Byte>): seq<Byte>
    decreases p
  {
    if p == [] then []
    else (if bol then stamp else []) + [p[0]] + Stamped(p[0] == NEWLINE, p[1..], stamp)
  }

  /** What is left of s without the n bytes before each line. */
  function Unstamped(bol: bool, s: seq<Byte>, n: nat): seq<Byte>
    decreases |s|
  {
    var t := if !bol then s else if |s| < n then [] else s[n..];
    if t == [] then [] else [t[0]] + Unstamped(t[0] == NEWLINE, t[1..], n)
  }

  /** The input can be read back from the log. */
  lemma {:induction false} RoundTrip(bol: bool, p: seq<Byte>, stamp: seq<Byte>)
    ensures Unstamped(bol, Stamped(bol, p, stamp), |stamp|) == p
    decreases p
  {
    if p != [] {
      var rest := Stamped(p[0] == NEWLINE, p[1..], stamp);
      var s := Stamped(bol, p, stamp);
      if bol {
        Regroup(stamp, [p[0]], rest);
        assert s[|stamp|..] == [p[0]] + rest;
      } else {
        assert s == [p[0]] + rest;
      }
      assert ([p[0]] + rest)[1..] == rest;
      RoundTrip(p[0] == NEWLINE, p[1..], stamp);
    }
  }

  lemma AfterJoin(bol: bool, a: seq<Byte>, b: seq<Byte>)
    ensures After(bol, a + b) == After(After(bol, a), b)
  {
    if b == [] {
      assert a + b == a;
    }
  }

  /** Stamping goes through the input once, whatever the pieces. */
  lemma {:induction false} StampedJoin(bol: bool, a: seq<Byte>, b: seq<Byte>, stamp: seq<Byte>)
    ensures Stamped(bol, a + b, stamp) == Stamped(bol, a, stamp) + Stamped(After(bol, a), b, stamp)
    decreases a
  {
    if a == [] {
      assert a + b == b;
    } else {
      assert (a + b)[1..] == a[1..] + b;
      StampedJoin(a[0] == NEWLINE, a[1..], b, stamp);
    }
  }

  /** Within a line nothing is added. */
  lemma {:induction false} OneLine(line: seq<Byte>, stamp: seq<Byte>)
    requires forall k | 0 <= k < |line| - 1 :: line[k] != NEWLINE
    ensures Stamped(false, line, stamp) == line
    ensures line != [] ==> Stamped(true, line, stamp) == stamp + line
  {
    if |line| > 1 {
      OneLine(line[1..], stamp);
    }
  }

  // ------------------------------------------------------------ many calls

  function Bytes(calls: seq<Call>): seq<Byte> {
    if calls == [] then [] else calls[0].p + Bytes(calls[1..])
  }

  /** The log of these calls: a line carries the date of the call that began it. */
  function Rendered(bol: bool, calls: seq<Call>): seq<Byte>
    decreases calls
  {
    if calls == [] then []
    else Stamped(bol, calls[0].p, calls[0].stamp) + Rendered(After(bol, calls[0].p), calls[1..])
  }

  lemma {:induction false} BytesSnoc(calls: seq<Call>, c: Call)
    ensures Bytes(calls + [c]) == Bytes(calls) + c.p
  {
    if calls == [] {
      assert calls + [c] == [c] && [c][1..] == [];
    } else {
      assert (calls + [c])[1..] == calls[1..] + [c];
      BytesSnoc(calls[1..], c);
    }
  }

  lemma {:induction false} RenderedSnoc(bol: bool, calls: seq<Call>, c: Call)
    ensures Rendered(bol, calls + [c]) == Rendered(bol, calls) + Stamped(After(bol, Bytes(calls)), c.p, c.stamp)
    decreases calls
  {
    if calls == [] {
      assert calls + [c] == [c] && [c][1..] == [];
      assert Rendered(After(bol, c.p), []) == [];
    } else {
      var first, rest, next := calls[0], calls[1..], After(bol, calls[0].p);
      var head, tail := Stamped(bol, first.p, first.stamp), Stamped(After(next, Bytes(rest)), c.p, c.stamp);
      RenderedSnoc(next, rest, c);
      AfterJoin(bol, first.p, Bytes(rest));
      assert (calls + [c])[0] == first && (calls + [c])[1..] == rest + [c];
      assert Rendered(bol, calls + [c]) == head + (Rendered(next, rest) + tail);
      Regroup(head, Rendered(next, rest), tail);
    }
  }

  /** On one date only the bytes count. */
  lemma {:induction false} AllTogether(bol: bool, calls: seq<Call>, stamp: seq<Byte>)
    requires forall c | c in calls :: c.stamp == stamp
    ensures Rendered(bol, calls) == Stamped(bol, Bytes(calls), stamp)
    decreases calls
  {
    if calls != [] {
      AllTogether(After(bol, calls[0].p), calls[1..], stamp);
      StampedJoin(bol, calls[0].p, Bytes(calls[1..]), stamp);
    }
  }

  /** However the bytes were split into calls, the log is the same, and it is
      the log of no other bytes. */
  lemma ChunksDoNotShow(bol: bool, a: seq<Call>, b: seq<Call>, stamp: seq<Byte>)
    requires forall c | c in a + b :: c.stamp == stamp
    ensures Rendered(bol, a) == Rendered(bol, b) <==> Bytes(a) == Bytes(b)
  {
    assert forall c | c in a :: c in a + b;
    assert forall c | c in b :: c in a + b;
    AllTogether(bol, a, stamp);
    AllTogether(bol, b, stamp);
    RoundTrip(bol, Bytes(a), stamp);
    RoundTrip(bol, Bytes(b), stamp);
  }

  // ------------------------------------------------------- the file it finds

  /** The stamp of the first call that writes anything. */
  function FirstStamp(calls: seq<Call>): seq<Byte> {
    if calls == [] then [] else if calls[0].p != [] then calls[0].stamp else FirstStamp(calls[1..])
  }

  /** Starting at a line's start costs one stamp more than going on inside a line. */
  lemma {:induction false} OneMoreStamp(calls: seq<Call>)
    ensures Rendered(true, calls) == FirstStamp(calls) + Rendered(false, calls)
  {
    if calls != [] {
      var c, rest := calls[0], calls[1..];
      if c.p == [] {
        OneMoreStamp(rest);
        assert Rendered(true, calls) == [] + Rendered(true, rest)
          && Rendered(false, calls) == [] + Rendered(false, rest);
      } else {
        var tail := [c.p[0]] + Stamped(c.p[0] == NEWLINE, c.p[1..], c.stamp);
        Regroup(c.stamp, [c.p[0]], Stamped(c.p[0] == NEWLINE, c.p[1..], c.stamp));
        assert Stamped(true, c.p, c.stamp) == c.stamp + tail;
        assert Stamped(false, c.p, c.stamp) == tail;
        Regroup(c.stamp, tail, Rendered(After(true, c.p), rest));
      }
    }
  }

  /** openRotating goes on as if at a line's start. The log is then what it would
      be had it looked at the file it found, exactly when that file ends with a
      whole line (or is empty), or nothing is ever stamped after it. */
  lemma FoundMidLine(found: seq<Byte>, calls: seq<Call>)
    ensures found + Rendered(true, calls) == found + Rendered(After(true, found), calls)
      <==> After(true, found) || FirstStamp(calls) == []
  {
    OneMoreStamp(calls);
    if !After(true, found) {
      var a, b := found + Rendered(true, calls), found + Rendered(false, calls);
      assert |a| == |b| + |FirstStamp(calls)|;
    }
  }

  // --------------------------------------------------------------- the file

  /** The scan for a newline inside Write's loop. */
  method FirstLine(rest: seq<Byte>) returns (line: seq<Byte>, ended: bool)
    requires rest != []
    ensures line != [] && line <= rest && (ended || line == rest)
    ensures ended <==> line[|line| - 1] == NEWLINE
    ensures forall k | 0 <= k < |line| - 1 :: line[k] != NEWLINE
  {
    line, ended := rest, false;
    var i := 0;
    while i < |rest|
      invariant 0 <= i <= |rest| && line == rest && !ended
      invariant forall k | 0 <= k < i :: rest[k] != NEWLINE
    {
      if rest[i] == NEWLINE {
        line, ended := rest[..i + 1], true;
        break;
      }
      i := i + 1;
    }
  }

  /** rotatingFile, with the bytes of the file it has open and of the one it
      rotated out last. No OS call fails. */
  class RotatingFile {
    var current: seq<Byte>
    var previous: seq<Byte>
    var size: nat
    var atLineStart: bool
    /** All that was ever rotated out, what the file held when it was opened,
        the calls, and how many of them came before the last rotation. */
    ghost var archived: seq<Byte>
    ghost const given: seq<Byte>
    ghost var calls: seq<Call>
    ghost var rotatedAt: nat

    /** The log so far is the given file and the stamped input; what was
        rotated out of it ends with a whole line of input. */
    ghost predicate Valid()
      reads this
    {
      && size == |current|
      && atLineStart == After(true, Bytes(calls))
      && archived + current == given + Rendered(true, calls)
      && rotatedAt <= |calls|
      && (archived == []
          || (archived == given + Rendered(true, calls[..rotatedAt]) && After(true, Bytes(calls[..rotatedAt]))))
    }

    /** openRotating: appends to the file it finds, as if at a line's start. */
    constructor (found: seq<Byte>)
      ensures Valid() && given == found && current == found && calls == [] && archived == []
    {
      current, previous, size, atLineStart := found, [], |found|, true;
      archived, given, calls, rotatedAt := [], found, [], 0;
    }

    method Rotate()
      requires Valid() && atLineStart
      modifies this`current, this`previous, this`size, this`archived, this`rotatedAt
      ensures Valid() && previous == old(current) && current == [] && archived == old(archived + current)
    {
      archived, rotatedAt := archived + current, |calls|;
      assert calls[..|calls|] == calls;
      previous, current, size := current, [], 0;
    }

    /** Write's loop: line by line, each after its stamp. */
    method Append(p: seq<Byte>, stamp: seq<Byte>) returns (written: nat)
      requires size == |current|
      modifies this`current, this`size, this`atLineStart
      ensures size == |current| && written == |p|
      ensures current == old(current) + Stamped(old(atLineStart), p, stamp)
      ensures atLineStart == After(old(atLineStart), p)
    {
      ghost var bol, start, done := atLineStart, current, [];
      written := 0;
      var rest := p;
      while |rest| > 0
        invariant written <= |p| && rest == p[written..]
        invariant done == Stamped(bol, p[..written], stamp)
        invariant current == start + done && size == |current|
        invariant atLineStart == After(bol, p[..written])
        decreases |rest|
      {
        var line, ended := FirstLine(rest);
        NextLine(bol, p, written, line, stamp);
        if atLineStart {
          Regroup(start, done, stamp);
          current := current + stamp;
          size := size + |stamp|;
          done := done + stamp;
        }
        atLineStart := ended;
        Regroup(start, done, line);
        current := current + line;
        size := size + |line|;
        done := done + line;
        written := written + |line|;
        rest := rest[|line|..];
      }
      assert p[..written] == p;
    }

    method Write(p: seq<Byte>, stamp: seq<Byte>) returns (written: nat)
      requires Valid()
      modifies this
      ensures Valid() && calls == old(calls) + [Call(p, stamp)] && written == |p|
      ensures archived + current == old(archived + current) + Stamped(old(atLineStart), p, stamp)
      ensures if old(size) >= MAX_SIZE && old(atLineStart)
                then archived == old(archived + current) && previous == old(current)
              else archived == old(archived) && previous == old(previous)
    {
      if size >= MAX_SIZE && atLineStart {
        Rotate();
      }
      Extended(archived + current, given, calls, Call(p, stamp));
      Regroup(archived, current, Stamped(atLineStart, p, stamp));
      written := Append(p, stamp);
      assert (calls + [Call(p, stamp)])[..rotatedAt] == calls[..rotatedAt];
      calls := calls + [Call(p, stamp)];
    }
  }

  lemma Regroup(a: seq<Byte>, b: seq<Byte>, c: seq<Byte>)
    ensures a + b + c == a + (b + c)
  {
  }

  /** One turn of Write's loop. */
  lemma NextLine(bol: bool, p: seq<Byte>, written: nat, line: seq<Byte>, stamp: seq<Byte>)
    requires written < |p| && line != [] && line <= p[written..]
    requires forall k | 0 <= k < |line| - 1 :: line[k] != NEWLINE
    ensures Stamped(bol, p[..written + |line|], stamp)
      == Stamped(bol, p[..written], stamp) + (if After(bol, p[..written]) then stamp else []) + line
    ensures After(bol, p[..written + |line|]) == (line[|line| - 1] == NEWLINE)
  {
    assert p[..written] + line == p[..written + |line|];
    AfterJoin(bol, p[..written], line);
    StampedJoin(bol, p[..written], line, stamp);
    OneLine(line, stamp);
  }

  /** One more call. */
  lemma Extended(log: seq<Byte>, given: seq<Byte>, calls: seq<Call>, c: Call)
    requires log == given + Rendered(true, calls)
    ensures log + Stamped(After(true, Bytes(calls)), c.p, c.stamp) == given + Rendered(true, calls + [c])
    ensures After(true, Bytes(calls + [c])) == After(After(true, Bytes(calls)), c.p)
  {
    RenderedSnoc(true, calls, c);
    BytesSnoc(calls, c);
    AfterJoin(true, Bytes(calls), c.p);
  }
}
