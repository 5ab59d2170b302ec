/** The connection aggregator: replayed events in, dated deltas and checkpoints out. */
module ConnectionTracking {
  import opened Accounting

  const RETENTION: nat := 4000

  /** The body of an event. An event without one carries the default body: no user, no totals. */
  datatype Connection = Connection(full: bool, user: string, domain: Name, ip: string,
                                   total: Counters, closedAt: int)

  datatype Event =
    | New(id: Id, connection: Connection)
    | Update(id: Id, delta: Counters)
    | Closed(id: Id, connection: Connection, closedAt: int)

  datatype Frame = Frame(reset: bool, events: seq<Event>)

  datatype Record = Record(user: string, domain: Name, ip: string, accounted: Counters, total: Counters)

  datatype Delta = Delta(key: Key, bucket: Bucket)

  datatype Batch = Batch(batchId: nat, deltas: seq<Delta>, checkpoints: map<Id, Checkpoint>, removed: set<Id>)

  /** The aggregator's fields as one value. The two ledgers exist for the proofs only. */
  datatype State = State(
    checkpoints: map<Id, Checkpoint>,
    records: map<Id, Record>,
    pending: map<Key, Bucket>,
    dirty: map<Id, Checkpoint>,
    removed: set<Id>,
    inflight: Option<Batch>,
    available: bool,
    ledger: seq<Entry>,
    inflightLedger: seq<Entry>)

  function Loaded(prior: map<Id, Checkpoint>): State {
    State(prior, map[], map[], map[], {}, None, false, [], [])
  }

  /** Every tracked record has an unretired checkpoint with the same counters. */
  ghost predicate Tracked(s: State) {
    forall id <- s.records ::
      id in s.checkpoints &&
      s.checkpoints[id] == Checkpoint(s.records[id].accounted, true, None)
  }

  function Max(a: int, b: int): int {
    if a < b then b else a
  }

  // --- single events -------------------------------------------------------

  function Charged(s: State, id: Id, r: Record, bucket: Bucket, day: int): State {
    if bucket == EMPTY then s
    else
      var key := Key(day, r.user, r.domain, r.ip);
      var bucketed := if key in s.pending then s.pending[key] else EMPTY;
      s.(pending := s.pending[key := Plus(bucketed, bucket)], ledger := s.ledger + [Entry(id, key, bucket)])
  }

  function Checkpointed(s: State, id: Id, counters: Counters): State {
    var checkpoint := Checkpoint(counters, true, None);
    var kept := s.(removed := s.removed - {id});
    if id in s.checkpoints && s.checkpoints[id] == checkpoint then kept
    else kept.(checkpoints := s.checkpoints[id := checkpoint], dirty := s.dirty[id := checkpoint])
  }

  /** The source raises KeyError when the checkpoint is missing. */
  function AfterRetire(s: State, id: Id, at: int): State
    requires id in s.checkpoints
  {
    var checkpoint := s.checkpoints[id].(retiredAt := Some(at));
    s.(records := s.records - {id},
    checkpoints := s.checkpoints[id := checkpoint],
    dirty := s.dirty[id := checkpoint])
  }

  function RecordFor(s: State, id: Id, c: Connection): (Record, bool) {
    if id in s.records then (s.records[id], true)
    else if id in s.checkpoints then
      (Record(c.user, c.domain, c.ip, s.checkpoints[id].counters, c.total), s.checkpoints[id].counted)
    else (Record(c.user, c.domain, c.ip, ZERO, c.total), false)
  }

  function Attributed(s: State, id: Id, r: Record, total: Counters, day: int, counted: bool): State {
    var owed := Bucket(Max(0, total.up - r.accounted.up), Max(0, total.down - r.accounted.down),
                       if counted then 0 else 1);
    var accounted := Counters(Max(r.accounted.up, total.up), Max(r.accounted.down, total.down));
    var charged := Charged(s, id, r, owed, day);
    Checkpointed(charged.(records := s.records[id := r.(accounted := accounted, total := total)]), id, accounted)
  }

  function AfterNew(s: State, id: Id, c: Connection, day: int): State {
    if c.user == "" then s
    else
      var (r, counted) := RecordFor(s, id, c);
      var settled := Attributed(s.(records := s.records[id := r]), id, r, c.total, day, counted);
      if c.closedAt != 0 then AfterRetire(settled, id, c.closedAt) else settled
  }

  function AfterUpdate(s: State, id: Id, delta: Counters, day: int): State {
    if id !in s.records || delta == ZERO then s
    else
      var r := s.records[id];
      var accounted := Counters(r.accounted.up + delta.up, r.accounted.down + delta.down);
      var total := Counters(r.total.up + delta.up, r.total.down + delta.down);
      var charged := Charged(s, id, r, Bucket(delta.up, delta.down, 0), day);
      Checkpointed(charged.(records := s.records[id := r.(accounted := accounted, total := total)]), id, accounted)
  }

  function CloseTime(e: Event, now: int): int
    requires e.Closed?
  {
    if e.closedAt != 0 then e.closedAt
    else if e.connection.closedAt != 0 then e.connection.closedAt
    else now
  }

  function AfterClosed(s: State, e: Event, day: int, now: int): State
    requires e.Closed? && Tracked(s)
  {
    var c := e.connection;
    if e.id !in s.records && c.user == "" then s
    else
      var (r, counted) := RecordFor(s, e.id, c);
      var tracked := s.(records := s.records[e.id := r]);
      var settled := if c.full || !counted then Attributed(tracked, e.id, r, c.total, day, counted) else tracked;
      AfterRetire(settled, e.id, CloseTime(e, now))
  }

  function AfterEvent(s: State, e: Event, day: int, now: int): State
    requires Tracked(s)
  {
    var seen := s.(available := true);
    match e
    case New(id, c) => AfterNew(seen, id, c, day)
    case Update(id, delta) => AfterUpdate(seen, id, delta, day)
    case Closed(_, _, _) => AfterClosed(seen, e, day, now)
  }

  // --- frames and retention ------------------------------------------------

  predicate Retired(checkpoints: map<Id, Checkpoint>, id: Id) {
    id in checkpoints && checkpoints[id].retiredAt.Some?
  }

  /** Retirement order: by time, then by id. */
  predicate After(t: int, id: Id, t': int, id': Id) {
    t > t' || (t == t' && id > id')
  }

  predicate RetiredAfter(checkpoints: map<Id, Checkpoint>, a: Id, b: Id) {
    Retired(checkpoints, a) && Retired(checkpoints, b) &&
    After(checkpoints[a].retiredAt.value, a, checkpoints[b].retiredAt.value, b)
  }

  function Newer(checkpoints: map<Id, Checkpoint>, id: Id): set<Id> {
    set k <- checkpoints.Keys | RetiredAfter(checkpoints, k, id)
  }

  /** The retired checkpoints that have RETENTION newer retired ones before them. */
  function Excess(checkpoints: map<Id, Checkpoint>): set<Id> {
    set id <- checkpoints.Keys | Retired(checkpoints, id) && |Newer(checkpoints, id)| >= RETENTION
  }

  function Without(m: map<Id, Checkpoint>, ids: set<Id>): map<Id, Checkpoint> {
    m - ids
  }

  function Dropped(s: State, ids: set<Id>): State {
    s.(checkpoints := Without(s.checkpoints, ids), dirty := Without(s.dirty, ids), removed := s.removed + ids)
  }

  function Pruned(s: State): State {
    Dropped(s, Excess(s.checkpoints))
  }

  function BeginReset(s: State, replayed: set<Id>): State {
    Dropped(s, s.checkpoints.Keys - replayed).(records := map[])
  }

  function AfterEvents(s: State, events: seq<Event>, day: int, now: int): State
    requires Tracked(s)
    ensures Tracked(AfterEvents(s, events, day, now))
  {
    if events == [] then s
    else
      EventKeepsTracked(AfterEvents(s, events[..|events| - 1], day, now), events[|events| - 1], day, now);
      AfterEvent(AfterEvents(s, events[..|events| - 1], day, now), events[|events| - 1], day, now)
  }

  function Replayed(events: seq<Event>): set<Id> {
    set e <- events :: e.id
  }

  function AfterFrame(s: State, frame: Frame, day: int, now: int): State
    requires Tracked(s)
  {
    var begun := if frame.reset then BeginReset(s, Replayed(frame.events)) else s;
    Pruned(AfterEvents(begun.(available := true), frame.events, day, now))
  }

  /** Writing a checkpoint sets exactly one entry, whether or not it was already there. */
  lemma PutCheckpointSets(s: State, id: Id, counters: Counters)
    ensures Checkpointed(s, id, counters).checkpoints == s.checkpoints[id := Checkpoint(counters, true, None)]
    ensures Checkpointed(s, id, counters).records == s.records
  {
  }

  lemma AttributeKeepsTracked(s: State, id: Id, r: Record, total: Counters, day: int, counted: bool)
    requires forall k <- s.records :: k != id ==>
      k in s.checkpoints && s.checkpoints[k] == Checkpoint(s.records[k].accounted, true, None)
    ensures var s' := Attributed(s, id, r, total, day, counted);
      Tracked(s') && id in s'.checkpoints
  {
    var owed := Bucket(Max(0, total.up - r.accounted.up), Max(0, total.down - r.accounted.down),
                       if counted then 0 else 1);
    var accounted := Counters(Max(r.accounted.up, total.up), Max(r.accounted.down, total.down));
    var charged := Charged(s, id, r, owed, day);
    PutCheckpointSets(charged.(records := s.records[id := r.(accounted := accounted, total := total)]), id, accounted);
  }

  lemma RetireKeepsTracked(s: State, id: Id, at: int)
    requires id in s.checkpoints
    requires forall k <- s.records :: k != id ==>
      k in s.checkpoints && s.checkpoints[k] == Checkpoint(s.records[k].accounted, true, None)
    ensures Tracked(AfterRetire(s, id, at))
  {
  }

  lemma EventKeepsTracked(s: State, e: Event, day: int, now: int)
    requires Tracked(s)
    ensures Tracked(AfterEvent(s, e, day, now))
  {
    var seen := s.(available := true);
    match e {
      case New(id, c) =>
        if c.user != "" {
          var (r, counted) := RecordFor(seen, id, c);
          var tracked := seen.(records := seen.records[id := r]);
          AttributeKeepsTracked(tracked, id, r, c.total, day, counted);
          if c.closedAt != 0 {
            RetireKeepsTracked(Attributed(tracked, id, r, c.total, day, counted), id, c.closedAt);
          }
        }
      case Update(id, delta) =>
        if id in seen.records && delta != ZERO {
          UpdateKeepsTracked(seen, id, delta, day);
        }
      case Closed(id, c, _) =>
        if id in seen.records || c.user != "" {
          var (r, counted) := RecordFor(seen, id, c);
          var tracked := seen.(records := seen.records[id := r]);
          if c.full || !counted {
            AttributeKeepsTracked(tracked, id, r, c.total, day, counted);
            RetireKeepsTracked(Attributed(tracked, id, r, c.total, day, counted), id, CloseTime(e, now));
          } else {
            RetireKeepsTracked(tracked, id, CloseTime(e, now));
          }
        }
    }
  }

  lemma UpdateKeepsTracked(s: State, id: Id, delta: Counters, day: int)
    requires Tracked(s) && id in s.records && delta != ZERO
    ensures Tracked(AfterUpdate(s, id, delta, day))
  {
    var r := s.records[id];
    var accounted := Counters(r.accounted.up + delta.up, r.accounted.down + delta.down);
    var total := Counters(r.total.up + delta.up, r.total.down + delta.down);
    var charged := Charged(s, id, r, Bucket(delta.up, delta.down, 0), day);
    PutCheckpointSets(charged.(records := s.records[id := r.(accounted := accounted, total := total)]), id, accounted);
  }

  lemma PruneKeepsTracked(s: State)
    requires Tracked(s)
    ensures Tracked(Pruned(s))
  {
  }

  /** The sorted-and-sliced form of retention: in any listing of the retired checkpoints from the newest
      to the oldest, the entries from position RETENTION on are exactly the excess. */
  lemma ExcessIsSortedTail(checkpoints: map<Id, Checkpoint>, listing: seq<Id>)
    requires forall id <- listing :: Retired(checkpoints, id)
    requires forall id <- checkpoints.Keys :: Retired(checkpoints, id) ==> id in listing
    requires forall i, j :: 0 <= i < j < |listing| ==> RetiredAfter(checkpoints, listing[i], listing[j])
    ensures Excess(checkpoints) == set i | RETENTION <= i < |listing| :: listing[i]
  {
    forall j | 0 <= j < |listing|
      ensures |Newer(checkpoints, listing[j])| == j
    {
      var before := set i | 0 <= i < j :: listing[i];
      assert Newer(checkpoints, listing[j]) == before by {
        forall k | k in Newer(checkpoints, listing[j]) ensures k in before {
          var i :| 0 <= i < |listing| && listing[i] == k;
          assert !(j < i) && i != j;
        }
      }
      PrefixSize(listing, j);
    }
    forall id | id in Excess(checkpoints) ensures id in set i | RETENTION <= i < |listing| :: listing[i] {
      var i :| 0 <= i < |listing| && listing[i] == id;
      assert |Newer(checkpoints, listing[i])| == i;
    }
  }

  lemma {:induction false} PrefixSize(listing: seq<Id>, n: nat)
    requires n <= |listing|
    requires forall i, j :: 0 <= i < j < |listing| ==> listing[i] != listing[j]
    ensures |set i | 0 <= i < n :: listing[i]| == n
  {
    if n > 0 {
      PrefixSize(listing, n - 1);
      assert (set i | 0 <= i < n :: listing[i]) == (set i | 0 <= i < n - 1 :: listing[i]) + {listing[n - 1]};
    }
  }

  function RetiredIds(checkpoints: map<Id, Checkpoint>): set<Id> {
    set id <- checkpoints.Keys | checkpoints[id].retiredAt.Some?
  }

  /** The one that retired first: all others come after it in the order. */
  lemma {:induction false} FirstRetired(checkpoints: map<Id, Checkpoint>, ids: set<Id>) returns (first: Id)
    requires ids != {} && ids <= RetiredIds(checkpoints)
    ensures first in ids && forall id <- ids - {first} :: RetiredAfter(checkpoints, id, first)
    decreases ids
  {
    var pick: Id :| pick in ids;
    first := pick;
    if ids != {pick} {
      var rest := FirstRetired(checkpoints, ids - {pick});
      if RetiredAfter(checkpoints, pick, rest) {
        first := rest;
      } else {
        assert RetiredAfter(checkpoints, rest, pick);
        forall id | id in ids - {pick} ensures RetiredAfter(checkpoints, id, pick) {
          assert id == rest || RetiredAfter(checkpoints, id, rest);
        }
      }
    }
  }

  lemma {:induction false} SubsetSize<T>(a: set<T>, b: set<T>)
    requires a <= b
    ensures |a| <= |b|
    decreases a
  {
    if a != {} {
      var x :| x in a;
      SubsetSize(a - {x}, b - {x});
    }
  }

  /** Retention: at most so many retired checkpoints stay, and the others all stay. */
  lemma RetentionHolds(checkpoints: map<Id, Checkpoint>)
    ensures |RetiredIds(Without(checkpoints, Excess(checkpoints)))| <= RETENTION
    ensures forall id <- checkpoints :: checkpoints[id].retiredAt.None? ==>
      id in Without(checkpoints, Excess(checkpoints))
  {
    var kept := RetiredIds(Without(checkpoints, Excess(checkpoints)));
    if kept != {} {
      var first := FirstRetired(checkpoints, kept);
      assert kept - {first} <= Newer(checkpoints, first);
      SubsetSize(kept - {first}, Newer(checkpoints, first));
    }
  }

  /** Whatever a frame held, the aggregator keeps so many retired checkpoints afterwards. */
  lemma FrameRetains(s: State, frame: Frame, day: int, now: int)
    requires Tracked(s)
    ensures |RetiredIds(AfterFrame(s, frame, day, now).checkpoints)| <= RETENTION
  {
    var begun := if frame.reset then BeginReset(s, Replayed(frame.events)) else s;
    RetentionHolds(AfterEvents(begun.(available := true), frame.events, day, now).checkpoints);
  }

  // --- batches -------------------------------------------------------------

  /** The deltas are the pending buckets, each exactly once. */
  ghost predicate Lists(deltas: seq<Delta>, pending: map<Key, Bucket>) {
    && (forall d <- deltas :: d.key in pending && pending[d.key] == d.bucket)
    && (forall i, j :: 0 <= i < j < |deltas| ==> deltas[i].key != deltas[j].key)
    && (forall key <- pending :: Delta(key, pending[key]) in deltas)
  }

  predicate Idle(s: State) {
    s.pending == map[] && s.dirty == map[] && s.removed == {}
  }

  /** Prepare keeps returning the same batch until it is acknowledged. */
  ghost predicate Prepares(s: State, s': State, batch: Option<Batch>) {
    if s.inflight.Some? then s' == s && batch == s.inflight
    else
      var p := Pruned(s);
      if Idle(p) then s' == p && batch == None
      else
        && batch.Some?
        && Lists(batch.value.deltas, p.pending)
        && batch.value.checkpoints == p.dirty
        && batch.value.removed == p.removed
        && s' == p.(pending := map[], dirty := map[], removed := {}, inflight := batch,
                    ledger := [], inflightLedger := p.ledger)
  }

  function Acknowledged(s: State): State {
    s.(inflight := None, inflightLedger := [])
  }

  /** Every day that an unacknowledged delta carries. */
  function PendingDays(s: State): set<int> {
    (set key <- s.pending :: key.day) +
    (if s.inflight.Some? then set d <- s.inflight.value.deltas :: d.key.day else {})
  }

  lemma DropOneMore(s: State, done: set<Id>, id: Id)
    ensures var t := Dropped(s, done);
      t.(checkpoints := t.checkpoints - {id}, dirty := t.dirty - {id}, removed := t.removed + {id})
        == Dropped(s, done + {id})
  {
  }

  class ConnectionAggregator {
    var checkpoints: map<Id, Checkpoint>
    var records: map<Id, Record>
    var pending: map<Key, Bucket>
    var dirty: map<Id, Checkpoint>
    var removed: set<Id>
    var inflight: Option<Batch>
    var available: bool
    ghost var ledger: seq<Entry>
    ghost var inflightLedger: seq<Entry>

    ghost function Snapshot(): State
      reads this
    {
      State(checkpoints, records, pending, dirty, removed, inflight, available, ledger, inflightLedger)
    }

    constructor (prior: map<Id, Checkpoint>)
      ensures Snapshot() == Loaded(prior)
    {
      checkpoints, records, pending, dirty, removed := prior, map[], map[], map[], {};
      inflight, available, ledger, inflightLedger := None, false, [], [];
    }

    method ApplyFrame(frame: Frame, day: int, now: int)
      requires Tracked(Snapshot())
      modifies this
      ensures Snapshot() == AfterFrame(old(Snapshot()), frame, day, now)
      ensures Tracked(Snapshot()) && available
    {
      if frame.reset {
        var replayed := Replayed(frame.events);
        PopAll(checkpoints.Keys - replayed);
        records := map[];
      }
      available := true;
      ghost var begun := Snapshot();
      for i := 0 to |frame.events|
        invariant Tracked(Snapshot()) && available
        invariant Snapshot() == AfterEvents(begun, frame.events[..i], day, now)
      {
        assert frame.events[..i + 1][..i] == frame.events[..i];
        ApplyEvent(frame.events[i], day, now);
      }
      assert frame.events[..|frame.events|] == frame.events;
      PruneKeepsTracked(Snapshot());
      PruneRetired();
    }

    method Disconnected()
      modifies this`available
      ensures Snapshot() == old(Snapshot()).(available := false) && !available
    {
      available := false;
    }

    method ApplyEvent(e: Event, day: int, now: int)
      requires Tracked(Snapshot())
      modifies this
      ensures Snapshot() == AfterEvent(old(Snapshot()), e, day, now)
      ensures Tracked(Snapshot()) && available
    {
      EventKeepsTracked(Snapshot(), e, day, now);
      available := true;
      match e
      case Update(id, delta) => ApplyUpdate(id, delta, day);
      case Closed(_, _, _) => ApplyClosed(e, day, now);
      case New(id, c) => ApplyNew(id, c, day);
    }

    method ApplyNew(id: Id, c: Connection, day: int)
      requires Tracked(Snapshot())
      modifies this
      ensures Snapshot() == AfterNew(old(Snapshot()), id, c, day)
    {
      if c.user == "" {
        return;
      }
      var r, counted := EnsureRecord(id, c);
      AttributeToTotal(id, r, c.total, day, counted);
      if c.closedAt != 0 {
        Retire(id, c.closedAt);
      }
    }

    method ApplyUpdate(id: Id, delta: Counters, day: int)
      modifies this
      ensures Snapshot() == AfterUpdate(old(Snapshot()), id, delta, day)
    {
      if id !in records {
        return;
      }
      if delta.up == 0 && delta.down == 0 {
        return;
      }
      var r := records[id];
      AddPending(id, r, Bucket(delta.up, delta.down, 0), day);
      r := r.(accounted := Counters(r.accounted.up + delta.up, r.accounted.down + delta.down));
      r := r.(total := Counters(r.total.up + delta.up, r.total.down + delta.down));
      PutRecord(id, r);
    }

    /** A record and its checkpoint move together. */
    method PutRecord(id: Id, r: Record)
      modifies this`records, this`checkpoints, this`dirty, this`removed
      ensures Snapshot() == Checkpointed(old(Snapshot()).(records := old(records)[id := r]), id, r.accounted)
      ensures id in checkpoints
    {
      records := records[id := r];
      PutCheckpoint(id, r.accounted);
    }

    method ApplyClosed(e: Event, day: int, now: int)
      requires e.Closed? && Tracked(Snapshot())
      modifies this
      ensures Snapshot() == AfterClosed(old(Snapshot()), e, day, now)
    {
      var c := e.connection;
      var counted := true;
      var r: Record;
      if e.id in records {
        r := records[e.id];
        assert records[e.id := r] == records;
      } else {
        if c.user == "" {
          return;
        }
        r, counted := EnsureRecord(e.id, c);
      }
      if c.full || !counted {
        AttributeToTotal(e.id, r, c.total, day, counted);
      }
      Retire(e.id, CloseTime(e, now));
    }

    method EnsureRecord(id: Id, c: Connection) returns (r: Record, counted: bool)
      modifies this`records
      ensures (r, counted) == RecordFor(old(Snapshot()), id, c)
      ensures Snapshot() == old(Snapshot()).(records := old(records)[id := r])
    {
      if id in records {
        assert records == records[id := records[id]];
        return records[id], true;
      }
      if id in checkpoints {
        r, counted := Record(c.user, c.domain, c.ip, checkpoints[id].counters, c.total), checkpoints[id].counted;
      } else {
        r, counted := Record(c.user, c.domain, c.ip, ZERO, c.total), false;
      }
      records := records[id := r];
    }

    method AttributeToTotal(id: Id, r: Record, total: Counters, day: int, counted: bool)
      modifies this
      ensures Snapshot() == Attributed(old(Snapshot()), id, r, total, day, counted)
      ensures id in checkpoints
    {
      var owedUp, owedDown := Max(0, total.up - r.accounted.up), Max(0, total.down - r.accounted.down);
      var updated := r.(total := total);
      if owedUp != 0 || owedDown != 0 || !counted {
        AddPending(id, updated, Bucket(owedUp, owedDown, if counted then 0 else 1), day);
      }
      updated := updated.(accounted := Counters(Max(r.accounted.up, total.up), Max(r.accounted.down, total.down)));
      PutRecord(id, updated);
    }

    method AddPending(id: Id, r: Record, bucket: Bucket, day: int)
      modifies this`pending, this`ledger
      ensures Snapshot() == Charged(old(Snapshot()), id, r, bucket, day)
    {
      if bucket.up == 0 && bucket.down == 0 && bucket.conns == 0 {
        return;
      }
      var key := Key(day, r.user, r.domain, r.ip);
      if key !in pending {
        pending := pending[key := EMPTY];
      }
      pending := pending[key := Plus(pending[key], bucket)];
      ledger := ledger + [Entry(id, key, bucket)];
    }

    method PutCheckpoint(id: Id, counters: Counters)
      modifies this`checkpoints, this`dirty, this`removed
      ensures Snapshot() == Checkpointed(old(Snapshot()), id, counters)
      ensures id in checkpoints
    {
      var checkpoint := Checkpoint(counters, true, None);
      if id !in checkpoints || checkpoints[id] != checkpoint {
        checkpoints := checkpoints[id := checkpoint];
        dirty := dirty[id := checkpoint];
      }
      removed := removed - {id};
    }

    method Retire(id: Id, at: int)
      requires id in checkpoints
      modifies this`records, this`checkpoints, this`dirty
      ensures Snapshot() == AfterRetire(old(Snapshot()), id, at)
    {
      records := records - {id};
      var checkpoint := checkpoints[id].(retiredAt := Some(at));
      checkpoints := checkpoints[id := checkpoint];
      dirty := dirty[id := checkpoint];
    }

    /** Forget each of these checkpoints and remember to delete its row. */
    method PopAll(ids: set<Id>)
      requires ids <= checkpoints.Keys
      modifies this`checkpoints, this`dirty, this`removed
      ensures Snapshot() == Dropped(old(Snapshot()), ids)
    {
      var left := ids;
      while left != {}
        invariant left <= ids
        invariant Snapshot() == Dropped(old(Snapshot()), ids - left)
        decreases left
      {
        var id :| id in left;
        DropOneMore(old(Snapshot()), ids - left, id);
        assert ids - (left - {id}) == ids - left + {id};
        checkpoints := checkpoints - {id};
        dirty := dirty - {id};
        removed := removed + {id};
        left := left - {id};
      }
      assert ids - left == ids;
    }

    method PruneRetired()
      modifies this`checkpoints, this`dirty, this`removed
      ensures Snapshot() == Pruned(old(Snapshot()))
    {
      PopAll(Excess(checkpoints));
    }

    method PrepareBatch(freshId: nat) returns (batch: Option<Batch>)
      modifies this
      ensures Prepares(old(Snapshot()), Snapshot(), batch)
      ensures old(inflight).None? && batch.Some? ==> batch.value.batchId == freshId
    {
      if inflight.Some? {
        return inflight;
      }
      PruneRetired();
      if pending == map[] && dirty == map[] && removed == {} {
        return None;
      }
      var deltas := ListPending();
      inflight := Some(Batch(freshId, deltas, dirty, removed));
      inflightLedger := ledger;
      pending, dirty, removed, ledger := map[], map[], {}, [];
      return inflight;
    }

    method ListPending() returns (deltas: seq<Delta>)
      ensures Lists(deltas, pending)
    {
      deltas := [];
      var left := pending.Keys;
      while left != {}
        invariant left <= pending.Keys
        invariant forall d <- deltas :: d.key in pending && d.key !in left && pending[d.key] == d.bucket
        invariant forall i, j :: 0 <= i < j < |deltas| ==> deltas[i].key != deltas[j].key
        invariant forall key <- pending :: key in left || Delta(key, pending[key]) in deltas
        decreases left
      {
        var key :| key in left;
        deltas := deltas + [Delta(key, pending[key])];
        left := left - {key};
      }
    }

    /** Acknowledging any other batch is an error and changes nothing. */
    method Acknowledge(batch: Batch) returns (ok: bool)
      modifies this`inflight, this`inflightLedger
      ensures ok == (old(inflight) == Some(batch))
      ensures Snapshot() == if ok then Acknowledged(old(Snapshot())) else old(Snapshot())
    {
      if inflight != Some(batch) {
        return false;
      }
      inflight, inflightLedger := None, [];
      return true;
    }

    method OldestPendingDate() returns (oldest: Option<int>)
      ensures oldest.None? <==> PendingDays(Snapshot()) == {}
      ensures oldest.Some? ==> oldest.value in PendingDays(Snapshot())
      ensures oldest.Some? ==> forall day <- PendingDays(Snapshot()) :: oldest.value <= day
    {
      var days := set key <- pending :: key.day;
      if inflight.Some? {
        days := days + set d <- inflight.value.deltas :: d.key.day;
      }
      oldest := None;
      var left := days;
      while left != {}
        invariant left <= days
        invariant oldest.None? ==> left == days
        invariant oldest.Some? ==> oldest.value in days && forall day <- days :: day in left || oldest.value <= day
        decreases left
      {
        var day :| day in left;
        if oldest.None? || day < oldest.value {
          oldest := Some(day);
        }
        left := left - {day};
      }
    }
  }
}
