/** Values every part of the model shares: optional values, chat addresses,
    message identifiers and the outcome of a database write. */
module Base {
  /** A nullable column or a Go pointer. */
  datatype Option<+T> = None | Some(value: T) {
    function Or(default: T): T {
      if Some? then value else default
    }
  }

  /** COALESCE(first, second). */
  function Coalesce<T>(first: Option<T>, second: Option<T>): Option<T> {
    if first.Some? then first else second
  }

  /** The server part of a WhatsApp address: phone numbers, hidden (LID)
      users, groups, broadcast lists, and whatever else WhatsApp routes. */
  datatype Server = Phone | Lid | Group | Broadcast | Bot | OtherServer(name: string)

  /** A WhatsApp address without a device suffix. Its printed form is the
      key of wa_chats; printing is injective, so the model keys by the address. */
  datatype Jid = Jid(user: string, server: Server)

  /** A message identifier. An identifier the bridge makes is named by the
      process that made it and its serial number there: two processes never
      make the same one, and one process never repeats itself. `Blank` is
      the empty string, `Foreign` an identifier made by another client. */
  datatype MessageId = Blank | Minted(process: nat, serial: nat) | Foreign(text: string)

  /** How one write ends: committed and reported, not committed and reported
      as an error, or committed although an error is reported. */
  datatype Fault = Done | Refused | Lost

  /** storeRetry's attempts. */
  const STORE_TRIES := 3

  function Committed<T>(fault: Fault, before: T, after: T): T {
    if fault.Refused? then before else after
  }

  lemma SubsetSize<T>(a: set<T>, b: set<T>)
    requires a <= b
    ensures |a| <= |b|
  {
    assert b == a + (b - a);
  }

  /** Sets that agree but for one element. */
  lemma OneApart<T>(a: set<T>, b: set<T>, x: T)
    requires a - {x} == b - {x}
    ensures |b| == |a| + (if x in b then 1 else 0) - if x in a then 1 else 0
  {
    var rest := a - {x};
    assert a == if x in a then rest + {x} else rest;
    assert b == if x in b then rest + {x} else rest;
  }

  predicate NoRepeats<T(==)>(s: seq<T>) {
    forall i, j | 0 <= i < j < |s| :: s[i] != s[j]
  }
}
