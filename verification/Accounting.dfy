/** Values shared by the collectors and the store, and the ledger that the proofs keep beside them. */
module Accounting {

  datatype Option<+T> = None | Some(value: T)

  /** Connection ids and hostnames are text in the source. Only their equality and their order matter here,
      so each stands for the rank of its text. */
  type Id = nat
  type Name = nat

  /** Bookkeeping rows that are never folded and never a visited host. */
  const OTHER: Name := 0
  const UNATTRIBUTED: Name := 1
  const NO_DOMAIN: Name := 2

  datatype Counters = Counters(up: int, down: int)

  const ZERO := Counters(0, 0)

  predicate AtMost(a: Counters, b: Counters) {
    a.up <= b.up && a.down <= b.down
  }

  /** What one connection has been credited with. A retired one is closed but still replayable. */
  datatype Checkpoint = Checkpoint(counters: Counters, counted: bool, retiredAt: Option<int>)

  /** A pending bucket: local day, user, hostname, destination address ("" when it is a name). */
  datatype Key = Key(day: int, user: string, domain: Name, ip: string)

  /** A row of the per-domain table of one service. */
  datatype RowKey = RowKey(day: int, user: string, domain: Name)

  /** A row of the per-destination table. */
  datatype DestinationKey = DestinationKey(day: int, user: string, ip: string)

  datatype Bucket = Bucket(up: int, down: int, conns: int)

  const EMPTY := Bucket(0, 0, 0)

  function Plus(a: Bucket, b: Bucket): Bucket {
    Bucket(a.up + b.up, a.down + b.down, a.conns + b.conns)
  }

  lemma PlusEmpty(b: Bucket)
    ensures Plus(b, EMPTY) == b && Plus(EMPTY, b) == b
  {
  }

  function Row(key: Key): RowKey {
    RowKey(key.day, key.user, key.domain)
  }

  function Destination(key: Key): DestinationKey {
    DestinationKey(key.day, key.user, key.ip)
  }

  /** One charge: the bytes and opened connections that one event added to one bucket. */
  datatype Entry = Entry(id: Id, key: Key, bucket: Bucket)

  /** The ways a ledger is read: by connection, by pending bucket, by stored row, by one user's whole day, and by
      destination address. */
  datatype Selector =
    | ById(id: Id)
    | ByKey(key: Key)
    | ByRow(row: RowKey)
    | ByGroup(day: int, user: string)
    | ByDestination(destination: DestinationKey)

  predicate HitsKey(sel: Selector, key: Key) {
    match sel
    case ById(_) => false
    case ByKey(k) => key == k
    case ByRow(row) => key.day == row.day && key.user == row.user && key.domain == row.domain
    case ByGroup(day, user) => key.day == day && key.user == user
    case ByDestination(d) => key.ip != "" && key.day == d.day && key.user == d.user && key.ip == d.ip
  }

  predicate Hits(sel: Selector, e: Entry) {
    if sel.ById? then e.id == sel.id else HitsKey(sel, e.key)
  }

  function Sum(log: seq<Entry>, sel: Selector): Bucket {
    if log == [] then EMPTY
    else
      var rest := Sum(log[..|log| - 1], sel);
      if Hits(sel, log[|log| - 1]) then Plus(rest, log[|log| - 1].bucket) else rest
  }

  function Weight(b: Bucket): Counters {
    Counters(b.up, b.down)
  }

  predicate NonNegative(log: seq<Entry>) {
    forall e <- log :: 0 <= e.bucket.up && 0 <= e.bucket.down && 0 <= e.bucket.conns
  }

  lemma SumAppend(log: seq<Entry>, e: Entry, sel: Selector)
    ensures Sum(log + [e], sel) == if Hits(sel, e) then Plus(Sum(log, sel), e.bucket) else Sum(log, sel)
  {
    assert (log + [e])[..|log|] == log;
  }

  lemma {:induction false} SumConcat(a: seq<Entry>, b: seq<Entry>, sel: Selector)
    ensures Sum(a + b, sel) == Plus(Sum(a, sel), Sum(b, sel))
  {
    if b == [] {
      assert a + b == a;
    } else {
      var init, e := b[..|b| - 1], b[|b| - 1];
      assert b == init + [e];
      ConcatOne(a, init, e);
      SumConcat(a, init, sel);
      SumBothAppend(a + init, init, e, sel, Sum(a, sel));
    }
  }

  lemma ConcatOne(a: seq<Entry>, b: seq<Entry>, e: Entry)
    ensures a + (b + [e]) == (a + b) + [e]
  {
  }

  lemma SumBothAppend(log: seq<Entry>, part: seq<Entry>, e: Entry, sel: Selector, rest: Bucket)
    requires Sum(log, sel) == Plus(rest, Sum(part, sel))
    ensures Sum(log + [e], sel) == Plus(rest, Sum(part + [e], sel))
  {
    SumAppend(log, e, sel);
    SumAppend(part, e, sel);
  }

  lemma {:induction false} SumNonNegative(log: seq<Entry>, sel: Selector)
    requires NonNegative(log)
    ensures 0 <= Sum(log, sel).up && 0 <= Sum(log, sel).down && 0 <= Sum(log, sel).conns
  {
    if log != [] {
      SumNonNegative(log[..|log| - 1], sel);
      assert log[|log| - 1] in log;
    }
  }
}
