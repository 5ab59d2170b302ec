/** The whole accounting loop of one service: a server that replays its connections, the aggregator, the
    store, and the failures between them. Each lock-protected region and each transaction is one step. */
module StreamSystem {
  import opened Accounting
  import opened ConnectionTracking
  import opened StreamStore

  // --- the server as the collector sees it ------------------------------------

  /** What a connection goes to: a host, and an address if the destination is one ("" otherwise). */
  datatype Target = Target(domain: Name, ip: string)

  /** How many closed connections the server can replay. */
  const RING_SIZE: nat := 4000

  /** truth holds every connection's real totals, owner its user ("" for DNS and health checks), closed the
      time it closed, and gone what the server can no longer replay. */
  datatype Server = Server(truth: map<Id, Counters>, owner: map<Id, string>, target: map<Id, Target>,
                           closed: map<Id, int>, gone: set<Id>)

  function Ring(v: Server): set<Id> {
    v.closed.Keys - v.gone
  }

  /** The replay ring is bounded and forgets its oldest closed connections first. */
  ghost predicate ServerOk(v: Server) {
    && v.closed.Keys <= v.truth.Keys && v.owner.Keys == v.truth.Keys && v.target.Keys == v.truth.Keys
    && v.gone <= v.truth.Keys
    && (forall id <- v.truth :: AtMost(ZERO, v.truth[id]))
    && (forall id <- v.closed :: v.closed[id] != 0)
    && |Ring(v)| <= RING_SIZE
    && (forall g <- v.gone, r <- Ring(v) :: g in v.closed ==>
          v.closed[r] > v.closed[g] || (v.closed[r] == v.closed[g] && r > g))
  }

  /** True totals never shrink and are final once closed; what is gone never returns. */
  ghost predicate ServerMoves(v: Server, v': Server) {
    && ServerOk(v')
    && (forall id <- v.truth :: id in v'.truth && AtMost(v.truth[id], v'.truth[id]))
    && (forall id <- v.owner :: id in v'.owner && v'.owner[id] == v.owner[id])
    && (forall id <- v.target :: id in v'.target && v'.target[id] == v.target[id])
    && (forall id <- v.closed :: id in v.truth && id in v'.truth && v'.truth[id] == v.truth[id])
    && (forall id <- v.closed :: id in v'.closed && v'.closed[id] == v.closed[id])
    && v.gone <= v'.gone
  }

  function ClosedAt(v: Server, id: Id): int {
    if id in v.closed then v.closed[id] else 0
  }

  /** An event's connection names the user and the destination. */
  predicate Describes(v: Server, id: Id, c: Connection) {
    && id in v.owner && c.user == v.owner[id]
    && id in v.target && c.domain == v.target[id].domain && c.ip == v.target[id].ip
  }

  /** What an event may say, given what this subscription has already reported of each connection. */
  ghost predicate EventOk(v: Server, reported: map<Id, Counters>, e: Event) {
    match e
    case New(id, c) =>
      && id in v.truth && id !in v.gone && c.total == v.truth[id] && c.closedAt == ClosedAt(v, id)
      && Describes(v, id, c)
    case Update(id, delta) =>
      id in reported ==>
        && id in v.truth && id !in v.gone && AtMost(ZERO, delta)
        && AtMost(Counters(reported[id].up + delta.up, reported[id].down + delta.down), v.truth[id])
    case Closed(id, c, at) =>
      && id in v.truth && id in v.closed && id !in v.gone
      && (at == v.closed[id] || (at == 0 && c.closedAt == v.closed[id]))
      && (if c.full then c.total == v.truth[id] && Describes(v, id, c) else c.user == "")
  }

  function Reports(reported: map<Id, Counters>, e: Event): map<Id, Counters> {
    match e
    case New(id, c) => reported[id := c.total]
    case Update(id, delta) =>
      if id in reported then reported[id := Counters(reported[id].up + delta.up, reported[id].down + delta.down)]
      else reported
    case Closed(id, c, _) => if c.full then reported[id := c.total] else reported
  }

  function ReportsAll(reported: map<Id, Counters>, events: seq<Event>): map<Id, Counters> {
    if events == [] then reported
    else Reports(ReportsAll(reported, events[..|events| - 1]), events[|events| - 1])
  }

  /** The server as the latest of some events saw it. */
  function LastView(v: Server, views: seq<Server>): Server {
    if views == [] then v else views[|views| - 1]
  }

  /** An event says what the server looked like when it was written; the server moves on between two events. */
  ghost predicate ViewOk(v: Server, views: seq<Server>, reported: map<Id, Counters>, events: seq<Event>, i: nat)
    requires i < |events| == |views|
  {
    ServerMoves(LastView(v, views[..i]), views[i]) && EventOk(views[i], ReportsAll(reported, events[..i]), events[i])
  }

  ghost predicate EventsOk(v: Server, views: seq<Server>, reported: map<Id, Counters>, events: seq<Event>) {
    |views| == |events| && forall i :: 0 <= i < |events| ==> ViewOk(v, views, reported, events, i)
  }

  /** A reset replays everything that can be replayed; other frames go on with a subscription. views holds the server
      as each event of the frame saw it. */
  ghost predicate FrameFits(v: Server, subscribed: bool, reported: map<Id, Counters>, frame: Frame,
                            views: seq<Server>) {
    && (frame.reset ==> v.truth.Keys - v.gone <= Replayed(frame.events))
    && (!frame.reset ==> subscribed)
    && EventsOk(v, views, if frame.reset then map[] else reported, frame.events)
  }

  /** Connections whose closing event carried no totals. */
  function Bare(events: seq<Event>): set<Id> {
    set e <- events | e.Closed? && !e.connection.full :: e.id
  }

  // --- the system ---------------------------------------------------------------

  /** durable is the ledger of every charge the store has committed; bare, the connections that closed
      without final totals; cutoff, the latest compaction limit ever chosen. */
  datatype System = System(
    server: Server,
    subscribed: bool,
    reported: map<Id, Counters>,
    bare: set<Id>,
    agg: State,
    tables: Tables,
    durable: seq<Entry>,
    today: int,
    cutoff: int,
    nextBatch: nat)

  datatype Step =
    | ServerStep(server: Server)
    | DeliverStep(frame: Frame, views: seq<Server>, now: int)
    | DisconnectStep
    | PrepareStep(batch: Option<Batch>)
    | CommitStep
    | AcknowledgeStep
    | CrashStep
    | CutoffStep(limit: int)
    | CompactStep(limit: int, topN: nat)
    | MidnightStep(today: int)
    | OtherServiceStep(day: int)

  predicate Committed(s: System) {
    s.agg.inflight.Some? && s.tables.lastBatch == Some(s.agg.inflight.value.batchId)
  }

  predicate Uncommitted(s: System) {
    s.agg.inflight.Some? && s.tables.lastBatch != Some(s.agg.inflight.value.batchId)
  }

  ghost predicate Init(s: System) {
    && ServerOk(s.server)
    && !s.subscribed && s.reported == map[] && s.bare == {}
    && s.agg == Loaded(map[]) && s.tables == NO_TABLES && s.durable == []
    && s.cutoff <= s.today && s.nextBatch == 0
  }

  ghost predicate FrameOk(s: System, frame: Frame, views: seq<Server>) {
    FrameFits(s.server, s.subscribed, s.reported, frame, views)
  }

  function Delivered(s: System, frame: Frame, views: seq<Server>, now: int): System
    requires Tracked(s.agg)
  {
    s.(server := LastView(s.server, views),
    agg := AfterFrame(s.agg, frame, s.today, now),
    reported := ReportsAll(if frame.reset then map[] else s.reported, frame.events),
    bare := s.bare + Bare(frame.events),
    subscribed := true)
  }

  function Shipped(s: System, agg: State): System {
    s.(agg := agg, nextBatch := s.nextBatch + 1)
  }

  /** The acknowledgement may be lost: nothing but the tables changes here. */
  function Stored(s: System): System
    requires s.agg.inflight.Some?
  {
    s.(tables := Commit(s.tables, s.agg.inflight.value),
    durable := if Uncommitted(s) && !MeetsCompactedDay(s.tables, s.agg.inflight.value)
               then s.durable + s.agg.inflightLedger else s.durable)
  }

  function Released(s: System): System {
    s.(agg := Acknowledged(s.agg))
  }

  function Disconnected(s: System): System {
    s.(subscribed := false, agg := s.agg.(available := false))
  }

  /** A new process knows what was committed and nothing else. */
  function Restarted(s: System): System {
    s.(agg := Loaded(s.tables.checkpoints), subscribed := false, reported := map[])
  }

  ghost predicate Compacts(t: Tables, t': Tables, limit: int, topN: nat) {
    && FoldsDays(t.rows, t'.rows, DueDays(t.days, limit), topN)
    && t'.days == MarkDays(t.days, DueDays(t.days, limit))
    && t'.destinations == t.destinations && t'.checkpoints == t.checkpoints && t'.lastBatch == t.lastBatch
  }

  ghost predicate Next(s: System, step: Step, s': System) {
    match step
    case ServerStep(server) =>
      ServerMoves(s.server, server) && s' == s.(server := server)
    case DeliverStep(frame, views, now) =>
      Tracked(s.agg) && FrameOk(s, frame, views) && s' == Delivered(s, frame, views, now)
    case DisconnectStep =>
      s' == Disconnected(s)
    case PrepareStep(batch) =>
      && Prepares(s.agg, s'.agg, batch)
      && (s.agg.inflight.None? && batch.Some? ==> batch.value.batchId == s.nextBatch)
      && s' == Shipped(s, s'.agg)
    case CommitStep =>
      s.agg.inflight.Some? && s' == Stored(s)
    case AcknowledgeStep =>
      Committed(s) && s' == Released(s)
    case CrashStep =>
      s' == Restarted(s)
    case CutoffStep(limit) =>
      && limit <= s.today && (forall day <- PendingDays(s.agg) :: limit <= day)
      && s' == s.(cutoff := Max(s.cutoff, limit))
    case CompactStep(limit, topN) =>
      limit <= s.cutoff && Compacts(s.tables, s'.tables, limit, topN) && s' == s.(tables := s'.tables)
    case MidnightStep(today) =>
      s.today <= today && s' == s.(today := today)
    case OtherServiceStep(day) =>
      day !in s.tables.days && s' == s.(tables := s.tables.(days := s.tables.days[day := false]))
  }

  ghost predicate NextAt(states: seq<System>, steps: seq<Step>, i: nat)
    requires i < |steps| && |states| == |steps| + 1
  {
    Next(states[i], steps[i], states[i + 1])
  }

  ghost predicate Run(states: seq<System>, steps: seq<Step>) {
    && |states| == |steps| + 1
    && Init(states[0])
    && forall i :: 0 <= i < |steps| ==> NextAt(states, steps, i)
  }

  // --- the invariant --------------------------------------------------------------

  /** Checkpoints never claim more than the server's truth; a retired one is closed and, unless its closing
      event was bare, holds exactly the final total. */
  ghost predicate CheckpointOk(v: Server, bare: set<Id>, id: Id, c: Checkpoint) {
    && c.counted && id in v.truth && AtMost(ZERO, c.counters) && AtMost(c.counters, v.truth[id])
    && (c.retiredAt.Some? ==>
          && id in v.closed && v.closed[id] == c.retiredAt.value
          && (id !in bare ==> c.counters == v.truth[id]))
  }

  ghost predicate CheckpointsOk(v: Server, bare: set<Id>, checkpoints: map<Id, Checkpoint>) {
    forall id <- checkpoints :: CheckpointOk(v, bare, id, checkpoints[id])
  }

  function Credit(c: Checkpoint): Bucket {
    Bucket(c.counters.up, c.counters.down, if c.counted then 1 else 0)
  }

  /** The ledger credits each checkpointed connection with exactly its checkpoint, and any other connection
      that can still be replayed with nothing. */
  ghost predicate Matches(log: seq<Entry>, checkpoints: map<Id, Checkpoint>, gone: set<Id>) {
    forall id: Id ::
      if id in checkpoints then Sum(log, ById(id)) == Credit(checkpoints[id])
      else id in gone || Sum(log, ById(id)) == EMPTY
  }

  predicate WithinTruth(b: Bucket, total: Counters) {
    0 <= b.up <= total.up && 0 <= b.down <= total.down && 0 <= b.conns <= 1
  }

  /** No connection is ever credited with more than it carried, nor counted twice. */
  ghost predicate Bounded(log: seq<Entry>, v: Server) {
    forall id: Id :: WithinTruth(Sum(log, ById(id)), if id in v.truth then v.truth[id] else ZERO)
  }

  /** Records agree with what this subscription reported. */
  ghost predicate ReportsOk(v: Server, subscribed: bool, reported: map<Id, Counters>, records: map<Id, Record>) {
    subscribed ==>
      && (forall id <- records :: id in reported && reported[id] == records[id].accounted)
      && (forall id <- records :: id in v.owner && v.owner[id] != "")
      && (forall id <- reported :: id in v.truth && AtMost(reported[id], v.truth[id]))
  }

  /** The dirty and removed sets are what separates the committed table from memory. */
  ghost predicate Overlays(base: map<Id, Checkpoint>, a: State) {
    && a.checkpoints == Without(base, a.removed) + a.dirty
    && a.removed !! a.dirty.Keys
  }

  ghost predicate PendingMatches(pending: map<Key, Bucket>, ledger: seq<Entry>) {
    && (forall e <- ledger :: e.key in pending)
    && (forall key <- pending :: pending[key] == Sum(ledger, ByKey(key)))
  }

  ghost predicate DeltasMatch(deltas: seq<Delta>, ledger: seq<Entry>) {
    && (forall i, j :: 0 <= i < j < |deltas| ==> deltas[i].key != deltas[j].key)
    && (forall i :: 0 <= i < |deltas| ==> deltas[i].bucket == Sum(ledger, ByKey(deltas[i].key)))
    && (forall e <- ledger :: Names(deltas, e.key))
  }

  /** Every user's day adds up to its charges, and so does every row of a day not yet compacted. */
  ghost predicate RowsMatch(t: Tables, durable: seq<Entry>) {
    && (forall day, user :: Total(Group(t.rows, day, user)) == Sum(durable, ByGroup(day, user)))
    && (forall row: RowKey :: !CompactedDay(t.days, row.day) ==> Value(t.rows, row) == Sum(durable, ByRow(row)))
    && DestinationsMatch(t.destinations, durable)
  }

  ghost predicate DestinationsMatch(destinations: map<DestinationKey, Bucket>, durable: seq<Entry>) {
    forall row :: DestinationValue(destinations, row) == Sum(durable, ByDestination(row))
  }

  ghost predicate DatesOk(today: int, cutoff: int, days: map<int, bool>, a: State) {
    && cutoff <= today
    && (forall day <- days :: days[day] ==> day < cutoff)
    && (forall day <- PendingDays(a) :: cutoff <= day)
  }

  /** The checkpoint table once the batch in flight is committed. */
  function Base(s: System): map<Id, Checkpoint> {
    if Uncommitted(s) then Overlaid(s.tables.checkpoints, s.agg.inflight.value) else s.tables.checkpoints
  }

  function Overlaid(checkpoints: map<Id, Checkpoint>, batch: Batch): map<Id, Checkpoint> {
    Without(checkpoints, batch.removed) + batch.checkpoints
  }

  function BaseLog(s: System): seq<Entry> {
    if Uncommitted(s) then s.durable + s.agg.inflightLedger else s.durable
  }

  function FullLog(s: System): seq<Entry> {
    BaseLog(s) + s.agg.ledger
  }

  ghost predicate BatchOk(s: System) {
    && (s.tables.lastBatch.Some? ==> s.tables.lastBatch.value < s.nextBatch)
    && (s.agg.inflight.Some? ==> s.agg.inflight.value.batchId < s.nextBatch)
    && (s.agg.inflight.Some? ==> DeltasMatch(s.agg.inflight.value.deltas, s.agg.inflightLedger))
    && (Uncommitted(s) ==> Excess(Base(s)) == {})
  }

  ghost predicate LedgersOk(s: System) {
    && NonNegative(FullLog(s))
    && Bounded(FullLog(s), s.server)
    && Matches(s.durable, s.tables.checkpoints, s.server.gone)
    && Matches(BaseLog(s), Base(s), s.server.gone)
    && Matches(FullLog(s), s.agg.checkpoints, s.server.gone)
  }

  ghost predicate CheckpointsHold(s: System) {
    && CheckpointsOk(s.server, s.bare, s.tables.checkpoints)
    && CheckpointsOk(s.server, s.bare, Base(s))
    && CheckpointsOk(s.server, s.bare, s.agg.checkpoints)
  }

  /** Everything about connections: it does not depend on the rows, the days or the calendar. */
  ghost predicate BooksOk(s: System) {
    && ServerOk(s.server)
    && Tracked(s.agg)
    && ReportsOk(s.server, s.subscribed, s.reported, s.agg.records)
    && Overlays(Base(s), s.agg)
    && PendingMatches(s.agg.pending, s.agg.ledger)
    && BatchOk(s)
    && LedgersOk(s)
    && CheckpointsHold(s)
  }

  ghost predicate Inv(s: System) {
    && BooksOk(s)
    && RowsMatch(s.tables, s.durable)
    && DatesOk(s.today, s.cutoff, s.tables.days, s.agg)
  }

  lemma SameViews(s: System, s': System)
    requires s'.tables.checkpoints == s.tables.checkpoints && s'.tables.lastBatch == s.tables.lastBatch
    requires s'.durable == s.durable && s'.agg.inflight == s.agg.inflight
    requires s'.agg.inflightLedger == s.agg.inflightLedger
    ensures Base(s') == Base(s) && BaseLog(s') == BaseLog(s)
    ensures s'.agg.ledger == s.agg.ledger ==> FullLog(s') == FullLog(s)
  {
  }

  // --- steps that touch one side only ------------------------------------------------

  lemma InitHolds(s: System)
    requires Init(s)
    ensures Inv(s)
  {
    InitBooks(s);
    forall day, user ensures Total(Group(NO_TABLES.rows, day, user)) == EMPTY {
      assert Group(NO_TABLES.rows, day, user) == map[];
    }
  }

  lemma InitBooks(s: System)
    requires Init(s)
    ensures BooksOk(s)
  {
    OverlayNothing(map[]);
    assert FullLog(s) == [];
  }

  lemma ServerKeeps(s: System, v: Server)
    requires BooksOk(s) && ServerMoves(s.server, v)
    ensures BooksOk(s.(server := v))
  {
    var s' := s.(server := v);
    SameViews(s, s');
    CheckpointsHoldOn(s, v);
    LedgersHoldOn(s, v);
    ReportsFollow(s.server, v, s.subscribed, s.reported, s.agg.records);
  }

  lemma CheckpointsHoldOn(s: System, v: Server)
    requires CheckpointsHold(s) && ServerMoves(s.server, v)
    ensures CheckpointsHold(s.(server := v))
  {
    CheckpointsFollow(s.server, v, s.bare, s.tables.checkpoints);
    CheckpointsFollow(s.server, v, s.bare, Base(s));
    CheckpointsFollow(s.server, v, s.bare, s.agg.checkpoints);
  }

  lemma LedgersHoldOn(s: System, v: Server)
    requires LedgersOk(s) && ServerMoves(s.server, v)
    ensures LedgersOk(s.(server := v))
  {
    SameViews(s, s.(server := v));
    BoundFollows(FullLog(s), s.server, v);
    MatchFollows(s.durable, s.tables.checkpoints, s.server.gone, v.gone);
    MatchFollows(BaseLog(s), Base(s), s.server.gone, v.gone);
    MatchFollows(FullLog(s), s.agg.checkpoints, s.server.gone, v.gone);
  }

  lemma ReportsFollow(v: Server, v': Server, subscribed: bool, reported: map<Id, Counters>, records: map<Id, Record>)
    requires ReportsOk(v, subscribed, reported, records) && ServerMoves(v, v')
    ensures ReportsOk(v', subscribed, reported, records)
  {
  }

  lemma BoundFollows(log: seq<Entry>, v: Server, v': Server)
    requires Bounded(log, v) && ServerMoves(v, v')
    ensures Bounded(log, v')
  {
    forall id: Id
      ensures WithinTruth(Sum(log, ById(id)), if id in v'.truth then v'.truth[id] else ZERO)
    {
      assert WithinTruth(Sum(log, ById(id)), if id in v.truth then v.truth[id] else ZERO);
    }
  }

  lemma MatchFollows(log: seq<Entry>, checkpoints: map<Id, Checkpoint>, gone: set<Id>, gone': set<Id>)
    requires Matches(log, checkpoints, gone) && gone <= gone'
    ensures Matches(log, checkpoints, gone')
  {
  }

  lemma CheckpointsFollow(v: Server, v': Server, bare: set<Id>, checkpoints: map<Id, Checkpoint>)
    requires ServerMoves(v, v') && CheckpointsOk(v, bare, checkpoints)
    ensures CheckpointsOk(v', bare, checkpoints)
  {
  }

  /** Charges are never negative, so what is durable is never more than what was charged. */
  lemma PrefixBounded(a: seq<Entry>, b: seq<Entry>, v: Server)
    requires NonNegative(a + b) && Bounded(a + b, v)
    ensures NonNegative(a) && NonNegative(b) && Bounded(a, v)
  {
    assert forall e <- a :: e in a + b;
    assert forall e <- b :: e in a + b;
    forall id: Id
      ensures WithinTruth(Sum(a, ById(id)), if id in v.truth then v.truth[id] else ZERO)
    {
      SumConcat(a, b, ById(id));
      SumNonNegative(a, ById(id));
      SumNonNegative(b, ById(id));
      assert WithinTruth(Sum(a + b, ById(id)), if id in v.truth then v.truth[id] else ZERO);
    }
  }

  lemma DurableBounded(s: System)
    requires Inv(s)
    ensures NonNegative(s.durable) && Bounded(s.durable, s.server)
    ensures NonNegative(BaseLog(s)) && Bounded(BaseLog(s), s.server)
  {
    PrefixBounded(BaseLog(s), s.agg.ledger, s.server);
    if Uncommitted(s) {
      PrefixBounded(s.durable, s.agg.inflightLedger, s.server);
    }
  }

  lemma RestartedViews(s: System)
    ensures Base(Restarted(s)) == s.tables.checkpoints
    ensures BaseLog(Restarted(s)) == s.durable && FullLog(Restarted(s)) == s.durable
    ensures PendingDays(Restarted(s).agg) == {}
  {
  }

  lemma RestartedLedgers(s: System)
    requires LedgersOk(s) && NonNegative(s.durable) && Bounded(s.durable, s.server)
    ensures LedgersOk(Restarted(s))
  {
    RestartedViews(s);
  }

  lemma RestartedBooks(s: System)
    requires BooksOk(s) && NonNegative(s.durable) && Bounded(s.durable, s.server)
    ensures BooksOk(Restarted(s))
  {
    RestartedViews(s);
    RestartedLedgers(s);
    OverlayNothing(s.tables.checkpoints);
  }

  /** After a crash the daemon knows exactly what is durable. */
  lemma CrashKeeps(s: System, s': System)
    requires Inv(s) && Next(s, CrashStep, s')
    ensures Inv(s')
  {
    DurableBounded(s);
    RestartedBooks(s);
    RestartedViews(s);
  }

  lemma WithoutNothing(m: map<Id, Checkpoint>)
    ensures Without(m, {}) == m
  {
  }

  lemma OverlayNothing(m: map<Id, Checkpoint>)
    ensures Without(m, {}) + map[] == m
  {
  }

  lemma AcknowledgeKeeps(s: System, s': System)
    requires Inv(s) && Next(s, AcknowledgeStep, s')
    ensures Inv(s')
  {
    assert Base(s') == Base(s) && BaseLog(s') == BaseLog(s) && FullLog(s') == FullLog(s);
    assert PendingDays(s'.agg) <= PendingDays(s.agg);
  }

  lemma CompactKeepsRows(t: Tables, t': Tables, limit: int, topN: nat, durable: seq<Entry>)
    requires RowsMatch(t, durable) && Compacts(t, t', limit, topN)
    ensures RowsMatch(t', durable)
  {
    forall day, user
      ensures Total(Group(t'.rows, day, user)) == Sum(durable, ByGroup(day, user))
    {
      FoldConserves(Group(t.rows, day, user), topN);
    }
    forall row: RowKey | !CompactedDay(t'.days, row.day)
      ensures Value(t'.rows, row) == Sum(durable, ByRow(row))
    {
      assert row.day !in DueDays(t.days, limit) && !CompactedDay(t.days, row.day);
      assert Group(t'.rows, row.day, row.user) == Group(t.rows, row.day, row.user);
      SameGroupSameValue(t.rows, t'.rows, row);
    }
  }

  lemma SameGroupSameValue(a: map<RowKey, Bucket>, b: map<RowKey, Bucket>, row: RowKey)
    requires Group(a, row.day, row.user) == Group(b, row.day, row.user)
    ensures Value(a, row) == Value(b, row)
  {
    assert row in a <==> row.domain in Group(a, row.day, row.user);
    assert row in b <==> row.domain in Group(b, row.day, row.user);
    if row in a {
      assert Group(a, row.day, row.user)[row.domain] == a[row];
      assert Group(b, row.day, row.user)[row.domain] == b[row];
    }
  }

  lemma DisconnectKeeps(s: System, s': System)
    requires Inv(s) && Next(s, DisconnectStep, s')
    ensures Inv(s')
  {
    assert PendingDays(s'.agg) == PendingDays(s.agg);
  }

  lemma SameBooks(s: System, rows: map<RowKey, Bucket>, days: map<int, bool>, today: int, cutoff: int)
    requires BooksOk(s)
    ensures BooksOk(s.(tables := s.tables.(rows := rows, days := days), today := today, cutoff := cutoff))
  {
  }

  lemma CompactKeepsDates(t: Tables, t': Tables, limit: int, topN: nat, today: int, cutoff: int, a: State)
    requires DatesOk(today, cutoff, t.days, a) && Compacts(t, t', limit, topN) && limit <= cutoff
    ensures DatesOk(today, cutoff, t'.days, a)
  {
  }

  // --- commit -----------------------------------------------------------------------------

  /** No batch that waits for a commit ever names a compacted day. */
  lemma NeverStranded(s: System)
    requires Inv(s) && s.agg.inflight.Some?
    ensures !MeetsCompactedDay(s.tables, s.agg.inflight.value)
  {
    var deltas := s.agg.inflight.value.deltas;
    forall i | 0 <= i < |deltas|
      ensures !CompactedDay(s.tables.days, deltas[i].key.day)
    {
      assert deltas[i] in deltas;
      assert deltas[i].key.day in PendingDays(s.agg);
    }
  }

  function SumDeltas(deltas: seq<Delta>, sel: Selector): Bucket {
    if deltas == [] then EMPTY
    else
      var rest := SumDeltas(deltas[..|deltas| - 1], sel);
      if HitsKey(sel, deltas[|deltas| - 1].key) then Plus(rest, deltas[|deltas| - 1].bucket) else rest
  }

  lemma {:induction false} AddRowsValue(rows: map<RowKey, Bucket>, deltas: seq<Delta>, row: RowKey)
    ensures Value(AddRows(rows, deltas), row) == Plus(Value(rows, row), SumDeltas(deltas, ByRow(row)))
  {
    if deltas == [] {
      PlusEmpty(Value(rows, row));
    } else {
      AddRowsValue(rows, deltas[..|deltas| - 1], row);
    }
  }

  lemma {:induction false} AddRowsTotal(rows: map<RowKey, Bucket>, deltas: seq<Delta>, day: int, user: string)
    ensures Total(Group(AddRows(rows, deltas), day, user))
         == Plus(Total(Group(rows, day, user)), SumDeltas(deltas, ByGroup(day, user)))
  {
    if deltas == [] {
      PlusEmpty(Total(Group(rows, day, user)));
    } else {
      var init, last := deltas[..|deltas| - 1], deltas[|deltas| - 1];
      AddRowsTotal(rows, init, day, user);
      AddRowTotal(AddRows(rows, init), last, day, user);
    }
  }

  lemma AddRowTotal(rows: map<RowKey, Bucket>, delta: Delta, day: int, user: string)
    ensures Total(Group(AddRow(rows, delta), day, user))
         == if HitsKey(ByGroup(day, user), delta.key) then Plus(Total(Group(rows, day, user)), delta.bucket)
            else Total(Group(rows, day, user))
  {
    var row := Row(delta.key);
    GroupPut(rows, row, Plus(Value(rows, row), delta.bucket), day, user);
    if HitsKey(ByGroup(day, user), delta.key) {
      var group := Group(rows, day, user);
      assert Value(rows, row) == if row.domain in group then group[row.domain] else EMPTY;
      TotalAdd(group, row.domain, delta.bucket);
    }
  }

  /** Summing the buckets of a list of distinct keys that covers a ledger is summing the ledger. */
  lemma DeltasSumLedger(deltas: seq<Delta>, ledger: seq<Entry>, sel: Selector)
    requires DeltasMatch(deltas, ledger) && !sel.ById?
    ensures SumDeltas(deltas, sel) == Sum(ledger, sel)
  {
    SumOverKeys(deltas, ledger, sel);
    KeysSum(deltas, ledger, sel);
  }

  /** The part of a ledger that lands on the keys of some deltas. */
  function SumKeys(deltas: seq<Delta>, ledger: seq<Entry>, sel: Selector): Bucket {
    if deltas == [] then EMPTY
    else
      var rest := SumKeys(deltas[..|deltas| - 1], ledger, sel);
      var key := deltas[|deltas| - 1].key;
      if HitsKey(sel, key) then Plus(rest, Sum(ledger, ByKey(key))) else rest
  }

  lemma {:induction false} SumOverKeys(deltas: seq<Delta>, ledger: seq<Entry>, sel: Selector)
    requires forall i :: 0 <= i < |deltas| ==> deltas[i].bucket == Sum(ledger, ByKey(deltas[i].key))
    ensures SumDeltas(deltas, sel) == SumKeys(deltas, ledger, sel)
  {
    if deltas != [] {
      SumOverKeys(deltas[..|deltas| - 1], ledger, sel);
    }
  }

  ghost predicate Names(deltas: seq<Delta>, key: Key) {
    exists i :: 0 <= i < |deltas| && deltas[i].key == key
  }

  lemma {:induction false} KeysSum(deltas: seq<Delta>, ledger: seq<Entry>, sel: Selector)
    requires forall i, j :: 0 <= i < j < |deltas| ==> deltas[i].key != deltas[j].key
    requires forall e <- ledger :: Names(deltas, e.key)
    requires !sel.ById?
    ensures SumKeys(deltas, ledger, sel) == Sum(ledger, sel)
    decreases |ledger|
  {
    if ledger == [] {
      KeysEmpty(deltas, sel);
    } else {
      var init, e := ledger[..|ledger| - 1], ledger[|ledger| - 1];
      KeysSum(deltas, init, sel);
      assert ledger == init + [e];
      assert e in ledger;
      KeysAppend(deltas, init, e, sel);
    }
  }

  lemma {:induction false} KeysEmpty(deltas: seq<Delta>, sel: Selector)
    ensures SumKeys(deltas, [], sel) == EMPTY
  {
    if deltas != [] {
      KeysEmpty(deltas[..|deltas| - 1], sel);
    }
  }

  lemma {:induction false} KeysAppend(deltas: seq<Delta>, ledger: seq<Entry>, e: Entry, sel: Selector)
    requires forall i, j :: 0 <= i < j < |deltas| ==> deltas[i].key != deltas[j].key
    ensures SumKeys(deltas, ledger + [e], sel)
         == if Names(deltas, e.key) && HitsKey(sel, e.key) then Plus(SumKeys(deltas, ledger, sel), e.bucket)
            else SumKeys(deltas, ledger, sel)
    decreases |deltas|
  {
    if deltas != [] {
      var init, key := deltas[..|deltas| - 1], deltas[|deltas| - 1].key;
      KeysAppend(init, ledger, e, sel);
      SumAppend(ledger, e, ByKey(key));
      assert Names(deltas, e.key) <==> Names(init, e.key) || e.key == key;
      assert e.key == key ==> !Names(init, e.key);
    }
  }

  lemma AddDestinationValue(destinations: map<DestinationKey, Bucket>, delta: Delta, row: DestinationKey)
    ensures DestinationValue(AddDestination(destinations, delta), row)
         == if HitsKey(ByDestination(row), delta.key) then Plus(DestinationValue(destinations, row), delta.bucket)
            else DestinationValue(destinations, row)
  {
  }

  lemma {:induction false} AddDestinationsValue(destinations: map<DestinationKey, Bucket>, deltas: seq<Delta>,
                                                row: DestinationKey)
    ensures DestinationValue(AddDestinations(destinations, deltas), row)
         == Plus(DestinationValue(destinations, row), SumDeltas(deltas, ByDestination(row)))
  {
    if deltas == [] {
      PlusEmpty(DestinationValue(destinations, row));
    } else {
      AddDestinationsValue(destinations, deltas[..|deltas| - 1], row);
      AddDestinationValue(AddDestinations(destinations, deltas[..|deltas| - 1]), deltas[|deltas| - 1], row);
    }
  }

  lemma CommitKeepsDestinations(t: Tables, batch: Batch, durable: seq<Entry>, ledger: seq<Entry>)
    requires DestinationsMatch(t.destinations, durable) && DeltasMatch(batch.deltas, ledger)
    ensures DestinationsMatch(AddDestinations(t.destinations, batch.deltas), durable + ledger)
  {
    forall row
      ensures DestinationValue(AddDestinations(t.destinations, batch.deltas), row)
          == Sum(durable + ledger, ByDestination(row))
    {
      AddDestinationsValue(t.destinations, batch.deltas, row);
      DeltasSumLedger(batch.deltas, ledger, ByDestination(row));
      SumConcat(durable, ledger, ByDestination(row));
    }
  }

  lemma CommitKeepsRows(t: Tables, batch: Batch, durable: seq<Entry>, ledger: seq<Entry>)
    requires RowsMatch(t, durable) && DeltasMatch(batch.deltas, ledger)
    requires t.lastBatch != Some(batch.batchId) && !MeetsCompactedDay(t, batch)
    ensures RowsMatch(Commit(t, batch), durable + ledger)
  {
    var t' := Commit(t, batch);
    CommitKeepsDestinations(t, batch, durable, ledger);
    forall day, user
      ensures Total(Group(t'.rows, day, user)) == Sum(durable + ledger, ByGroup(day, user))
    {
      AddRowsTotal(t.rows, batch.deltas, day, user);
      DeltasSumLedger(batch.deltas, ledger, ByGroup(day, user));
      SumConcat(durable, ledger, ByGroup(day, user));
    }
    forall row: RowKey | !CompactedDay(t'.days, row.day)
      ensures Value(t'.rows, row) == Sum(durable + ledger, ByRow(row))
    {
      AddDaysMarks(t.days, batch.deltas, row.day);
      AddRowsValue(t.rows, batch.deltas, row);
      DeltasSumLedger(batch.deltas, ledger, ByRow(row));
      SumConcat(durable, ledger, ByRow(row));
    }
  }

  /** The store's own retention limit never deletes a row that memory keeps. */
  lemma StorePruneDeletesNothing(s: System)
    requires Inv(s) && Uncommitted(s)
    ensures WriteCheckpoints(s.tables.checkpoints, s.agg.inflight.value) == Base(s)
  {
    WithoutNothing(Base(s));
  }

  lemma CommitKeeps(s: System, s': System)
    requires Inv(s) && Next(s, CommitStep, s')
    ensures Inv(s')
  {
    if Uncommitted(s) {
      var batch := s.agg.inflight.value;
      NeverStranded(s);
      StorePruneDeletesNothing(s);
      CommitKeepsRows(s.tables, batch, s.durable, s.agg.inflightLedger);
      CommitKeepsBooks(s, s');
      forall day | day in s'.tables.days && s'.tables.days[day] ensures day < s.cutoff {
        AddDaysMarks(s.tables.days, batch.deltas, day);
        assert CompactedDay(s.tables.days, day);
      }
    } else {
      assert s' == s;
    }
  }

  lemma CommitKeepsBooks(s: System, s': System)
    requires BooksOk(s) && Uncommitted(s)
    requires s'.tables.checkpoints == Base(s) && s'.tables.lastBatch == Some(s.agg.inflight.value.batchId)
    requires s'.durable == s.durable + s.agg.inflightLedger
    requires s' == s.(tables := s'.tables, durable := s'.durable)
    ensures BooksOk(s')
  {
    assert Base(s') == Base(s) && BaseLog(s') == BaseLog(s) && FullLog(s') == FullLog(s);
  }

  // --- forgetting ----------------------------------------------------------------------------

  /** The retention limit only ever forgets connections that the server can no longer replay. */
  lemma PruneForgetsOnlyGone(v: Server, bare: set<Id>, checkpoints: map<Id, Checkpoint>)
    requires ServerOk(v) && CheckpointsOk(v, bare, checkpoints)
    ensures Excess(checkpoints) <= v.gone
  {
    forall id | id in Excess(checkpoints) ensures id in v.gone {
      if id !in v.gone {
        var newer := Newer(checkpoints, id);
        assert CheckpointOk(v, bare, id, checkpoints[id]);
        forall k | k in newer ensures k in Ring(v) - {id} {
          assert CheckpointOk(v, bare, k, checkpoints[k]);
        }
        SubsetSize(newer, Ring(v) - {id});
      }
    }
  }

  lemma PrunedIsSmall(checkpoints: map<Id, Checkpoint>)
    ensures Excess(Without(checkpoints, Excess(checkpoints))) == {}
  {
    var left := Without(checkpoints, Excess(checkpoints));
    forall id | Retired(left, id) ensures |Newer(left, id)| < RETENTION {
      assert Newer(left, id) <= Newer(checkpoints, id);
      SubsetSize(Newer(left, id), Newer(checkpoints, id));
    }
  }

  lemma DropKeeps(s: System, s': System, ids: set<Id>)
    requires BooksOk(s) && ids <= s.server.gone
    requires s'.agg == Dropped(s.agg, ids).(records := s'.agg.records, available := s'.agg.available)
    requires s' == s.(agg := s'.agg, reported := s'.reported, subscribed := s'.subscribed)
    requires forall id <- s'.agg.records :: id in s.agg.records && id !in ids && s'.agg.records[id] == s.agg.records[id]
    requires ReportsOk(s'.server, s'.subscribed, s'.reported, s'.agg.records)
    ensures BooksOk(s')
  {
    SameViews(s, s');
    DropOverlays(Base(s), s.agg, ids);
    assert Matches(FullLog(s'), s'.agg.checkpoints, s'.server.gone);
    assert CheckpointsHold(s');
    assert Tracked(s'.agg);
  }

  lemma DropOverlays(base: map<Id, Checkpoint>, a: State, ids: set<Id>)
    requires Overlays(base, a)
    ensures Overlays(base, Dropped(a, ids))
  {
  }

  lemma PruneKeeps(s: System)
    requires BooksOk(s)
    ensures BooksOk(s.(agg := Pruned(s.agg)))
  {
    PruneForgetsOnlyGone(s.server, s.bare, s.agg.checkpoints);
    DropKeeps(s, s.(agg := Pruned(s.agg)), Excess(s.agg.checkpoints));
  }

  // --- prepare -----------------------------------------------------------------------------

  lemma PrepareKeeps(s: System, batch: Option<Batch>, s': System)
    requires Inv(s) && Next(s, PrepareStep(batch), s')
    ensures Inv(s')
  {
    PrepareKeepsDays(s.agg, s'.agg, batch);
    if s.agg.inflight.Some? {
      NextBatchKeeps(s);
    } else {
      PrepareKeepsBooks(s, batch, s');
    }
  }

  lemma PrepareKeepsBooks(s: System, batch: Option<Batch>, s': System)
    requires BooksOk(s) && Next(s, PrepareStep(batch), s') && s.agg.inflight.None?
    ensures BooksOk(s')
  {
    PruneKeeps(s);
    NextBatchKeeps(s.(agg := Pruned(s.agg)));
    PrunedIsSmall(s.agg.checkpoints);
    ShipPruned(s, s.(agg := Pruned(s.agg), nextBatch := s.nextBatch + 1), batch, s');
  }

  lemma ShipPruned(s: System, p: System, batch: Option<Batch>, s': System)
    requires BooksOk(p) && p == s.(agg := Pruned(s.agg), nextBatch := s.nextBatch + 1)
    requires Excess(p.agg.checkpoints) == {} && (s.tables.lastBatch.Some? ==> s.tables.lastBatch.value < s.nextBatch)
    requires Next(s, PrepareStep(batch), s') && s.agg.inflight.None?
    ensures BooksOk(s')
  {
    if Idle(p.agg) {
      assert s' == p;
    } else {
      ShipKeeps(p, s', batch.value);
    }
  }

  lemma NextBatchKeeps(s: System)
    requires BooksOk(s)
    ensures BooksOk(s.(nextBatch := s.nextBatch + 1))
  {
    SameViews(s, s.(nextBatch := s.nextBatch + 1));
  }

  lemma PrepareKeepsDays(a: State, a': State, batch: Option<Batch>)
    requires Prepares(a, a', batch)
    ensures PendingDays(a') == PendingDays(a)
  {
    if a.inflight.None? && batch.Some? {
      var deltas := batch.value.deltas;
      forall key | key in a.pending ensures key.day in PendingDays(a') {
        assert Delta(key, a.pending[key]) in deltas;
      }
    }
  }

  lemma ShipKeeps(p: System, s': System, batch: Batch)
    requires BooksOk(p) && p.agg.inflight.None? && Excess(p.agg.checkpoints) == {}
    requires batch.batchId < p.nextBatch && p.tables.lastBatch != Some(batch.batchId)
    requires Lists(batch.deltas, p.agg.pending)
    requires batch.checkpoints == p.agg.dirty && batch.removed == p.agg.removed
    requires s' == p.(agg := p.agg.(pending := map[], dirty := map[], removed := {}, inflight := Some(batch),
                                    ledger := [], inflightLedger := p.agg.ledger))
    ensures BooksOk(s')
  {
    assert Uncommitted(s') && !Uncommitted(p);
    assert Base(s') == p.agg.checkpoints;
    OverlayNothing(Base(s'));
    assert BaseLog(s') == FullLog(p) && FullLog(s') == FullLog(p);
    ListsMatch(batch.deltas, p.agg.pending, p.agg.ledger);
  }

  lemma ListsMatch(deltas: seq<Delta>, pending: map<Key, Bucket>, ledger: seq<Entry>)
    requires Lists(deltas, pending) && PendingMatches(pending, ledger)
    ensures DeltasMatch(deltas, ledger)
  {
    forall i | 0 <= i < |deltas| ensures deltas[i].bucket == Sum(ledger, ByKey(deltas[i].key)) {
      assert deltas[i] in deltas;
    }
    forall e | e in ledger ensures Names(deltas, e.key) {
      assert Delta(e.key, pending[e.key]) in deltas;
      var i :| 0 <= i < |deltas| && deltas[i] == Delta(e.key, pending[e.key]);
      assert deltas[i].key == e.key;
    }
  }

  // --- events -------------------------------------------------------------------------------

  function Before(checkpoints: map<Id, Checkpoint>, id: Id): Bucket {
    if id in checkpoints then Credit(checkpoints[id]) else EMPTY
  }

  /** a' is a with one connection's checkpoint set to c and one bucket charged. */
  ghost predicate Credits(a: State, a': State, id: Id, c: Checkpoint, key: Key, bucket: Bucket) {
    && a'.checkpoints == a.checkpoints[id := c]
    && (a'.dirty == a.dirty[id := c] || (a'.dirty == a.dirty && id in a.checkpoints && a.checkpoints[id] == c))
    && a'.removed == a.removed - {id}
    && a'.inflight == a.inflight && a'.inflightLedger == a.inflightLedger
    && a'.ledger == (if bucket == EMPTY then a.ledger else a.ledger + [Entry(id, key, bucket)])
    && a'.pending == (if bucket == EMPTY then a.pending
                      else a.pending[key := Plus(if key in a.pending then a.pending[key] else EMPTY, bucket)])
  }

  lemma CreditsOverlay(base: map<Id, Checkpoint>, a: State, a': State, id: Id, c: Checkpoint, key: Key, bucket: Bucket)
    requires Overlays(base, a) && Credits(a, a', id, c, key, bucket)
    ensures Overlays(base, a')
  {
    if a'.dirty == a.dirty {
      assert id !in a.removed;
      assert a.checkpoints[id := c] == a.checkpoints;
      assert a.removed - {id} == a.removed;
    }
  }

  lemma CreditsPending(a: State, a': State, id: Id, c: Checkpoint, key: Key, bucket: Bucket)
    requires PendingMatches(a.pending, a.ledger) && Credits(a, a', id, c, key, bucket)
    ensures PendingMatches(a'.pending, a'.ledger)
  {
    if bucket != EMPTY {
      NoEntryNoSum(a.ledger, key, a.pending);
      forall k | k in a'.pending ensures a'.pending[k] == Sum(a'.ledger, ByKey(k)) {
        SumAppend(a.ledger, Entry(id, key, bucket), ByKey(k));
      }
    }
  }

  lemma {:induction false} NoEntryNoSum(ledger: seq<Entry>, key: Key, pending: map<Key, Bucket>)
    requires forall e <- ledger :: e.key in pending
    ensures key !in pending ==> Sum(ledger, ByKey(key)) == EMPTY
  {
    if ledger != [] {
      assert ledger[|ledger| - 1] in ledger;
      NoEntryNoSum(ledger[..|ledger| - 1], key, pending);
    }
  }

  lemma SumIsBefore(log: seq<Entry>, checkpoints: map<Id, Checkpoint>, gone: set<Id>, id: Id)
    requires Matches(log, checkpoints, gone) && id !in gone
    ensures Sum(log, ById(id)) == Before(checkpoints, id)
  {
  }

  lemma CreditsSum(log: seq<Entry>, log': seq<Entry>, c: Checkpoint, e: Entry, k: Id)
    requires Credit(c) == Plus(Sum(log, ById(e.id)), e.bucket)
    requires log' == if e.bucket == EMPTY then log else log + [e]
    ensures Sum(log', ById(k)) == if k == e.id then Credit(c) else Sum(log, ById(k))
  {
    if e.bucket == EMPTY {
      PlusEmpty(Sum(log, ById(e.id)));
    } else {
      SumAppend(log, e, ById(k));
    }
  }

  lemma CreditsBounded(log: seq<Entry>, log': seq<Entry>, v: Server, c: Checkpoint, e: Entry)
    requires Bounded(log, v) && e.id in v.truth
    requires forall k: Id :: Sum(log', ById(k)) == if k == e.id then Credit(c) else Sum(log, ById(k))
    requires AtMost(ZERO, c.counters) && AtMost(c.counters, v.truth[e.id])
    ensures Bounded(log', v)
  {
    forall k: Id
      ensures WithinTruth(Sum(log', ById(k)), if k in v.truth then v.truth[k] else ZERO)
    {
      assert WithinTruth(Sum(log, ById(k)), if k in v.truth then v.truth[k] else ZERO);
    }
  }

  lemma CreditsMatch(log: seq<Entry>, log': seq<Entry>, checkpoints: map<Id, Checkpoint>, gone: set<Id>, c: Checkpoint,
                     e: Entry)
    requires Matches(log, checkpoints, gone)
    requires forall k: Id :: Sum(log', ById(k)) == if k == e.id then Credit(c) else Sum(log, ById(k))
    ensures Matches(log', checkpoints[e.id := c], gone)
  {
  }

  lemma CreditsLedger(log: seq<Entry>, log': seq<Entry>, checkpoints: map<Id, Checkpoint>, v: Server,
                      id: Id, c: Checkpoint, e: Entry)
    requires NonNegative(log) && Bounded(log, v) && Matches(log, checkpoints, v.gone)
    requires id in v.truth && id !in v.gone && e.id == id && NonNegative([e])
    requires Credit(c) == Plus(Before(checkpoints, id), e.bucket)
    requires AtMost(ZERO, c.counters) && AtMost(c.counters, v.truth[id])
    requires log' == if e.bucket == EMPTY then log else log + [e]
    ensures NonNegative(log') && Bounded(log', v) && Matches(log', checkpoints[id := c], v.gone)
  {
    SumIsBefore(log, checkpoints, v.gone, id);
    forall k: Id ensures Sum(log', ById(k)) == if k == e.id then Credit(c) else Sum(log, ById(k)) {
      CreditsSum(log, log', c, e, k);
    }
    CreditsBounded(log, log', v, c, e);
    CreditsMatch(log, log', checkpoints, v.gone, c, e);
    assert e in [e];
  }

  lemma CreditLedgers(s: System, s': System, id: Id, c: Checkpoint, key: Key, bucket: Bucket)
    requires LedgersOk(s) && id in s.server.truth && id !in s.server.gone
    requires s' == s.(agg := s'.agg, reported := s'.reported, bare := s'.bare)
    requires Credits(s.agg, s'.agg, id, c, key, bucket)
    requires NonNegative([Entry(id, key, bucket)]) && Credit(c) == Plus(Before(s.agg.checkpoints, id), bucket)
    requires CheckpointOk(s.server, s'.bare, id, c)
    ensures LedgersOk(s')
  {
    SameViews(s, s');
    FullLogGrows(s, s', Entry(id, key, bucket));
    CreditsLedger(FullLog(s), FullLog(s'), s.agg.checkpoints, s.server, id, c, Entry(id, key, bucket));
  }

  lemma CreditCheckpoints(s: System, s': System, id: Id, c: Checkpoint)
    requires CheckpointsHold(s) && s.bare <= s'.bare && CheckpointOk(s.server, s'.bare, id, c)
    requires s'.server == s.server && s'.tables == s.tables && Base(s') == Base(s)
    requires s'.agg.checkpoints == s.agg.checkpoints[id := c]
    ensures CheckpointsHold(s')
  {
    BareGrows(s.server, s.bare, s'.bare, s.tables.checkpoints);
    BareGrows(s.server, s.bare, s'.bare, Base(s));
    BareGrows(s.server, s.bare, s'.bare, s.agg.checkpoints);
  }

  /** One credit that brings a connection to a checkpoint within the truth keeps every book. */
  lemma CreditKeeps(s: System, s': System, id: Id, c: Checkpoint, key: Key, bucket: Bucket)
    requires BooksOk(s) && id in s.server.truth && id !in s.server.gone
    requires s' == s.(agg := s'.agg, reported := s'.reported, bare := s'.bare) && s.bare <= s'.bare
    requires Credits(s.agg, s'.agg, id, c, key, bucket)
    requires NonNegative([Entry(id, key, bucket)]) && Credit(c) == Plus(Before(s.agg.checkpoints, id), bucket)
    requires CheckpointOk(s.server, s'.bare, id, c)
    requires Tracked(s'.agg) && ReportsOk(s'.server, s'.subscribed, s'.reported, s'.agg.records)
    ensures BooksOk(s')
  {
    SameViews(s, s');
    CreditsOverlay(Base(s), s.agg, s'.agg, id, c, key, bucket);
    CreditsPending(s.agg, s'.agg, id, c, key, bucket);
    CreditLedgers(s, s', id, c, key, bucket);
    CreditCheckpoints(s, s', id, c);
  }

  lemma FullLogGrows(s: System, s': System, e: Entry)
    requires BaseLog(s') == BaseLog(s)
    requires s'.agg.ledger == if e.bucket == EMPTY then s.agg.ledger else s.agg.ledger + [e]
    ensures FullLog(s') == if e.bucket == EMPTY then FullLog(s) else FullLog(s) + [e]
  {
  }

  lemma BareGrows(v: Server, bare: set<Id>, bare': set<Id>, checkpoints: map<Id, Checkpoint>)
    requires CheckpointsOk(v, bare, checkpoints) && bare <= bare'
    ensures CheckpointsOk(v, bare', checkpoints)
  {
  }

  // --- what each event credits ---------------------------------------------------------------------

  function Prior(checkpoints: map<Id, Checkpoint>, id: Id): Counters {
    if id in checkpoints then checkpoints[id].counters else ZERO
  }

  function Owed(checkpoints: map<Id, Checkpoint>, id: Id, total: Counters): Bucket {
    Bucket(total.up - Prior(checkpoints, id).up, total.down - Prior(checkpoints, id).down,
           1 - Before(checkpoints, id).conns)
  }

  function KeyOf(day: int, r: Record): Key {
    Key(day, r.user, r.domain, r.ip)
  }

  lemma RecordHasPrior(a: State, id: Id, conn: Connection)
    requires Tracked(a)
    ensures var (r, counted) := RecordFor(a, id, conn);
      r.accounted == Prior(a.checkpoints, id) && Before(a.checkpoints, id).conns == if counted then 1 else 0
  {
  }

  lemma AttributedCredits(a: State, id: Id, conn: Connection, day: int, a': State)
    requires Tracked(a) && AtMost(Prior(a.checkpoints, id), conn.total)
    requires var (r, counted) := RecordFor(a, id, conn);
      a' == Attributed(a.(records := a.records[id := r]), id, r, conn.total, day, counted)
    ensures var (r, counted) := RecordFor(a, id, conn);
      && Credits(a, a', id, Checkpoint(conn.total, true, None), KeyOf(day, r), Owed(a.checkpoints, id, conn.total))
      && a'.records == a.records[id := r.(accounted := conn.total, total := conn.total)]
    ensures id in a'.checkpoints
  {
    RecordHasPrior(a, id, conn);
    var (r, counted) := RecordFor(a, id, conn);
    AttributedSettles(a, id, r, conn.total, day, counted, a');
  }

  lemma ChargedThenCheckpointed(a: State, id: Id, r: Record, r': Record, counters: Counters, bucket: Bucket, day: int,
                                a': State)
    requires a' == Checkpointed(Charged(a.(records := a.records[id := r]), id, r, bucket, day)
                                  .(records := a.records[id := r']), id, counters)
    ensures Credits(a, a', id, Checkpoint(counters, true, None), KeyOf(day, r), bucket)
    ensures a'.records == a.records[id := r'] && id in a'.checkpoints
  {
  }

  lemma AttributedIs(a: State, id: Id, r: Record, total: Counters, day: int, counted: bool)
    requires AtMost(r.accounted, total)
    ensures Attributed(a.(records := a.records[id := r]), id, r, total, day, counted)
         == Checkpointed(Charged(a.(records := a.records[id := r]), id, r,
                                 Bucket(total.up - r.accounted.up, total.down - r.accounted.down,
                                        if counted then 0 else 1), day)
                         .(records := a.records[id := r.(accounted := total, total := total)]), id, total)
  {
    assert a.records[id := r][id := r.(accounted := total, total := total)]
        == a.records[id := r.(accounted := total, total := total)];
  }

  lemma AttributedSettles(a: State, id: Id, r: Record, total: Counters, day: int, counted: bool, a': State)
    requires AtMost(r.accounted, total)
    requires a' == Attributed(a.(records := a.records[id := r]), id, r, total, day, counted)
    ensures Credits(a, a', id, Checkpoint(total, true, None), KeyOf(day, r),
                    Bucket(total.up - r.accounted.up, total.down - r.accounted.down, if counted then 0 else 1))
    ensures a'.records == a.records[id := r.(accounted := total, total := total)]
    ensures id in a'.checkpoints
  {
    AttributedIs(a, id, r, total, day, counted);
    ChargedThenCheckpointed(a, id, r, r.(accounted := total, total := total), total,
                            Bucket(total.up - r.accounted.up, total.down - r.accounted.down, if counted then 0 else 1),
                            day, a');
  }

  lemma RetiredCredits(a: State, a1: State, id: Id, counters: Counters, key: Key, bucket: Bucket, at: int)
    requires id in a1.checkpoints
    requires Credits(a, a1, id, Checkpoint(counters, true, None), key, bucket)
    ensures Credits(a, AfterRetire(a1, id, at), id, Checkpoint(counters, true, Some(at)), key, bucket)
  {
    assert a1.checkpoints[id := Checkpoint(counters, true, Some(at))]
        == a.checkpoints[id := Checkpoint(counters, true, Some(at))];
    assert a1.dirty[id := Checkpoint(counters, true, Some(at))]
        == a.dirty[id := Checkpoint(counters, true, Some(at))];
  }

  lemma UpdateCredits(a: State, id: Id, delta: Counters, day: int)
    requires Tracked(a) && id in a.records && delta != ZERO
    ensures var r := a.records[id];
      var counters := Counters(r.accounted.up + delta.up, r.accounted.down + delta.down);
      var total := Counters(r.total.up + delta.up, r.total.down + delta.down);
      var a' := AfterUpdate(a, id, delta, day);
      && Credits(a, a', id, Checkpoint(counters, true, None), KeyOf(day, r), Bucket(delta.up, delta.down, 0))
      && a'.records == a.records[id := r.(accounted := counters, total := total)]
  {
  }

  /** What is known of one aggregator and one connection before an event. */
  ghost predicate Ready(v: Server, a: State, reported: map<Id, Counters>, e: Event) {
    && Tracked(a) && ReportsOk(v, true, reported, a.records) && EventOk(v, reported, e)
    && (e.id in a.checkpoints ==>
          e.id in v.truth && AtMost(ZERO, a.checkpoints[e.id].counters)
          && AtMost(a.checkpoints[e.id].counters, v.truth[e.id]))
    && (e.id in v.truth ==> AtMost(ZERO, v.truth[e.id]))
    && (forall id <- v.closed :: v.closed[id] != 0)
  }

  predicate Ignored(a: State, e: Event) {
    match e
    case New(_, c) => c.user == ""
    case Update(id, delta) => id !in a.records || delta == ZERO
    case Closed(id, c, _) => id !in a.records && c.user == ""
  }

  /** An event that is not ignored is one credit, and it leaves the checkpoint c within the truth. */
  ghost predicate Settles(v: Server, a: State, reported: map<Id, Counters>, e: Event, a': State,
                          c: Checkpoint, key: Key, bucket: Bucket) {
    && e.id in v.truth && e.id !in v.gone
    && Credits(a, a', e.id, c, key, bucket)
    && 0 <= bucket.up && 0 <= bucket.down && 0 <= bucket.conns
    && Credit(c) == Plus(Before(a.checkpoints, e.id), bucket)
    && CheckpointOk(v, Bare([e]), e.id, c)
    && ReportsOk(v, true, Reports(reported, e), a'.records)
  }

  /** A record that holds the reported totals, or no record at all, agrees with what was reported. */
  lemma ReportsAgree(v: Server, reported: map<Id, Counters>, id: Id, counters: Counters,
                     records: map<Id, Record>, records': map<Id, Record>)
    requires ReportsOk(v, true, reported, records)
    requires id in v.truth && AtMost(counters, v.truth[id])
    requires forall k <- records' :: k != id ==> k in records && records'[k] == records[k]
    requires id in records' ==> records'[id].accounted == counters && id in v.owner && v.owner[id] != ""
    ensures ReportsOk(v, true, reported[id := counters], records')
  {
  }

  lemma TotalIsOwed(v: Server, a: State, id: Id, total: Counters, retiredAt: Option<int>)
    requires Tracked(a) && id in v.truth && total == v.truth[id] && AtMost(ZERO, total)
    requires id in a.checkpoints ==>
        AtMost(ZERO, a.checkpoints[id].counters) && AtMost(a.checkpoints[id].counters, total)
    requires retiredAt.Some? ==> id in v.closed && v.closed[id] == retiredAt.value
    ensures var bucket := Owed(a.checkpoints, id, total);
      && 0 <= bucket.up && 0 <= bucket.down && 0 <= bucket.conns
      && Credit(Checkpoint(total, true, retiredAt)) == Plus(Before(a.checkpoints, id), bucket)
    ensures CheckpointOk(v, {}, id, Checkpoint(total, true, retiredAt))
  {
  }

  lemma OpensAsCredit(a: State, e: Event, day: int, now: int)
    requires Tracked(a) && e.New? && !Ignored(a, e) && AtMost(Prior(a.checkpoints, e.id), e.connection.total)
    ensures var (id, conn) := (e.id, e.connection);
      var (r, counted) := RecordFor(a.(available := true), id, conn);
      var a' := AfterEvent(a, e, day, now);
      && Credits(a, a', id, Checkpoint(conn.total, true, if conn.closedAt != 0 then Some(conn.closedAt) else None),
                 KeyOf(day, r), Owed(a.checkpoints, id, conn.total))
      && (forall k <- a'.records :: k != id ==> k in a.records && a'.records[k] == a.records[k])
      && (id in a'.records ==> a'.records[id].accounted == conn.total)
  {
    var seen, id, conn := a.(available := true), e.id, e.connection;
    var (r, counted) := RecordFor(seen, id, conn);
    var a1 := Attributed(seen.(records := seen.records[id := r]), id, r, conn.total, day, counted);
    AttributedCredits(seen, id, conn, day, a1);
    if conn.closedAt != 0 {
      RetiredCredits(seen, a1, id, conn.total, KeyOf(day, r), Owed(a.checkpoints, id, conn.total), conn.closedAt);
    }
  }

  lemma ClosesAsCredit(a: State, e: Event, day: int, now: int)
    requires Tracked(a) && e.Closed? && e.connection.full && !Ignored(a, e)
        && AtMost(Prior(a.checkpoints, e.id), e.connection.total)
    ensures var (id, conn) := (e.id, e.connection);
      var (r, counted) := RecordFor(a.(available := true), id, conn);
      var a' := AfterEvent(a, e, day, now);
      && Credits(a, a', id, Checkpoint(conn.total, true, Some(CloseTime(e, now))), KeyOf(day, r),
                 Owed(a.checkpoints, id, conn.total))
      && (forall k <- a'.records :: k != id && k in a.records && a'.records[k] == a.records[k])
  {
    var seen, id, conn := a.(available := true), e.id, e.connection;
    var (r, counted) := RecordFor(seen, id, conn);
    var a1 := Attributed(seen.(records := seen.records[id := r]), id, r, conn.total, day, counted);
    AttributedCredits(seen, id, conn, day, a1);
    RetiredCredits(seen, a1, id, conn.total, KeyOf(day, r), Owed(a.checkpoints, id, conn.total), CloseTime(e, now));
  }

  lemma NewSettles(v: Server, a: State, reported: map<Id, Counters>, e: Event, day: int, now: int)
      returns (c: Checkpoint, key: Key, bucket: Bucket)
    requires Ready(v, a, reported, e) && e.New? && !Ignored(a, e)
    ensures Settles(v, a, reported, e, AfterEvent(a, e, day, now), c, key, bucket)
  {
    OpensAsCredit(a, e, day, now);
    c, key, bucket := TotalSettles(v, a, reported, e, AfterEvent(a, e, day, now),
                                   if e.connection.closedAt != 0 then Some(e.connection.closedAt) else None,
                                   KeyOf(day, RecordFor(a.(available := true), e.id, e.connection).0));
  }

  /** An event that carries the connection's true totals. */
  lemma TotalSettles(v: Server, a: State, reported: map<Id, Counters>, e: Event, a': State, retiredAt: Option<int>,
                     k: Key)
      returns (c: Checkpoint, key: Key, bucket: Bucket)
    requires Ready(v, a, reported, e) && (e.New? || (e.Closed? && e.connection.full)) && !Ignored(a, e)
    requires retiredAt.Some? ==> e.id in v.closed && v.closed[e.id] == retiredAt.value
    requires Credits(a, a', e.id, Checkpoint(e.connection.total, true, retiredAt), k,
                     Owed(a.checkpoints, e.id, e.connection.total))
    requires forall x <- a'.records :: x != e.id ==> x in a.records && a'.records[x] == a.records[x]
    requires e.id in a'.records ==>
        a'.records[e.id].accounted == e.connection.total && e.id in v.owner && v.owner[e.id] != ""
    ensures Settles(v, a, reported, e, a', c, key, bucket)
  {
    TotalIsOwed(v, a, e.id, e.connection.total, retiredAt);
    ReportsAgree(v, reported, e.id, e.connection.total, a.records, a'.records);
    c, key, bucket := Checkpoint(e.connection.total, true, retiredAt), k, Owed(a.checkpoints, e.id, e.connection.total);
  }

  lemma GrowsAsCredit(v: Server, a: State, reported: map<Id, Counters>, e: Event)
    requires Ready(v, a, reported, e) && e.Update? && !Ignored(a, e)
    ensures var r := a.records[e.id];
      var counters := Counters(r.accounted.up + e.delta.up, r.accounted.down + e.delta.down);
      && e.id in v.truth && e.id !in v.gone && AtMost(ZERO, e.delta) && AtMost(counters, v.truth[e.id])
      && e.id in reported && reported[e.id] == r.accounted && e.id in v.owner && v.owner[e.id] != ""
      && Credit(Checkpoint(counters, true, None))
          == Plus(Before(a.checkpoints, e.id), Bucket(e.delta.up, e.delta.down, 0))
      && CheckpointOk(v, {}, e.id, Checkpoint(counters, true, None))
  {
  }

  lemma GrowthIs(a: State, e: Event, day: int, now: int)
    requires Tracked(a) && e.Update? && !Ignored(a, e)
    ensures var r := a.records[e.id];
      var counters := Counters(r.accounted.up + e.delta.up, r.accounted.down + e.delta.down);
      var total := Counters(r.total.up + e.delta.up, r.total.down + e.delta.down);
      var a' := AfterEvent(a, e, day, now);
      && Credits(a, a', e.id, Checkpoint(counters, true, None), KeyOf(day, r), Bucket(e.delta.up, e.delta.down, 0))
      && a'.records == a.records[e.id := r.(accounted := counters, total := total)]
  {
    UpdateCredits(a.(available := true), e.id, e.delta, day);
  }

  lemma UpdateSettles(v: Server, a: State, reported: map<Id, Counters>, e: Event, day: int, now: int)
      returns (c: Checkpoint, key: Key, bucket: Bucket)
    requires Ready(v, a, reported, e) && e.Update? && !Ignored(a, e)
    ensures Settles(v, a, reported, e, AfterEvent(a, e, day, now), c, key, bucket)
  {
    GrowthIs(a, e, day, now);
    c, key, bucket := GrowthSettles(v, a, reported, e, AfterEvent(a, e, day, now), day);
  }

  lemma GrowthSettles(v: Server, a: State, reported: map<Id, Counters>, e: Event, a': State, day: int)
      returns (c: Checkpoint, key: Key, bucket: Bucket)
    requires Ready(v, a, reported, e) && e.Update? && !Ignored(a, e)
    requires var r := a.records[e.id];
      var counters := Counters(r.accounted.up + e.delta.up, r.accounted.down + e.delta.down);
      var total := Counters(r.total.up + e.delta.up, r.total.down + e.delta.down);
      && Credits(a, a', e.id, Checkpoint(counters, true, None), KeyOf(day, r), Bucket(e.delta.up, e.delta.down, 0))
      && a'.records == a.records[e.id := r.(accounted := counters, total := total)]
    ensures Settles(v, a, reported, e, a', c, key, bucket)
  {
    GrowsAsCredit(v, a, reported, e);
    var r := a.records[e.id];
    c := Checkpoint(Counters(r.accounted.up + e.delta.up, r.accounted.down + e.delta.down), true, None);
    bucket, key := Bucket(e.delta.up, e.delta.down, 0), KeyOf(day, r);
    UpdateReports(v, a, reported, e, a', c.counters);
  }

  lemma UpdateReports(v: Server, a: State, reported: map<Id, Counters>, e: Event, a': State, counters: Counters)
    requires ReportsOk(v, true, reported, a.records) && e.Update? && e.id in a.records && e.id in reported
    requires counters == Counters(reported[e.id].up + e.delta.up, reported[e.id].down + e.delta.down)
    requires e.id in v.truth && AtMost(counters, v.truth[e.id]) && e.id in v.owner && v.owner[e.id] != ""
    requires e.id in a'.records && a'.records == a.records[e.id := a'.records[e.id]]
        && a'.records[e.id].accounted == counters
    ensures ReportsOk(v, true, Reports(reported, e), a'.records)
  {
    ReportsAgree(v, reported, e.id, counters, a.records, a'.records);
  }

  lemma FullCloseSettles(v: Server, a: State, reported: map<Id, Counters>, e: Event, day: int, now: int)
      returns (c: Checkpoint, key: Key, bucket: Bucket)
    requires Ready(v, a, reported, e) && e.Closed? && e.connection.full && !Ignored(a, e)
    ensures Settles(v, a, reported, e, AfterEvent(a, e, day, now), c, key, bucket)
  {
    ClosesAsCredit(a, e, day, now);
    c, key, bucket := TotalSettles(v, a, reported, e, AfterEvent(a, e, day, now), Some(CloseTime(e, now)),
                                   KeyOf(day, RecordFor(a.(available := true), e.id, e.connection).0));
  }

  lemma BareCloseSettles(v: Server, a: State, reported: map<Id, Counters>, e: Event, day: int, now: int)
      returns (c: Checkpoint, key: Key, bucket: Bucket)
    requires Ready(v, a, reported, e) && e.Closed? && !e.connection.full && !Ignored(a, e)
    requires a.removed !! a.checkpoints.Keys
    ensures Settles(v, a, reported, e, AfterEvent(a, e, day, now), c, key, bucket)
  {
    var r := a.records[e.id];
    assert e in [e];
    assert a.removed - {e.id} == a.removed;
    c, key, bucket := Checkpoint(r.accounted, true, Some(CloseTime(e, now))), KeyOf(day, r), EMPTY;
    PlusEmpty(Before(a.checkpoints, e.id));
  }

  /** The state after one event of a subscription. */
  function Observed(s: System, e: Event, now: int): System
    requires Tracked(s.agg)
  {
    s.(agg := AfterEvent(s.agg, e, s.today, now), reported := Reports(s.reported, e), bare := s.bare + Bare([e]))
  }

  lemma IgnoredKeeps(s: System, e: Event, now: int)
    requires BooksOk(s) && s.subscribed && EventOk(s.server, s.reported, e) && Ignored(s.agg, e)
    ensures BooksOk(Observed(s, e, now))
  {
    var s' := Observed(s, e, now);
    IgnoredReports(s.server, s.agg, s.reported, e);
    AvailableKeeps(s, s');
  }

  lemma IgnoredReports(v: Server, a: State, reported: map<Id, Counters>, e: Event)
    requires ReportsOk(v, true, reported, a.records) && EventOk(v, reported, e) && Ignored(a, e)
    ensures ReportsOk(v, true, Reports(reported, e), a.records)
  {
  }

  lemma AvailableKeeps(s: System, s': System)
    requires BooksOk(s) && s.bare <= s'.bare
    requires s' == s.(agg := s.agg.(available := true), reported := s'.reported, bare := s'.bare)
    requires ReportsOk(s'.server, s'.subscribed, s'.reported, s'.agg.records)
    ensures BooksOk(s')
  {
    SameViews(s, s');
    BareGrows(s.server, s.bare, s'.bare, s.tables.checkpoints);
    BareGrows(s.server, s.bare, s'.bare, Base(s));
    BareGrows(s.server, s.bare, s'.bare, s.agg.checkpoints);
    assert CheckpointsHold(s');
  }

  lemma BooksReady(s: System, e: Event)
    requires BooksOk(s) && s.subscribed && EventOk(s.server, s.reported, e)
    ensures Ready(s.server, s.agg, s.reported, e)
    ensures s.agg.removed !! s.agg.checkpoints.Keys
  {
    if e.id in s.agg.checkpoints {
      assert CheckpointOk(s.server, s.bare, e.id, s.agg.checkpoints[e.id]);
    }
  }

  lemma EventKeeps(s: System, e: Event, now: int)
    requires BooksOk(s) && s.subscribed && EventOk(s.server, s.reported, e)
    ensures BooksOk(Observed(s, e, now))
  {
    if Ignored(s.agg, e) {
      IgnoredKeeps(s, e, now);
    } else {
      BooksReady(s, e);
      EventKeepsTracked(s.agg, e, s.today, now);
      var c, key, bucket;
      match e {
        case New(_, _) => c, key, bucket := NewSettles(s.server, s.agg, s.reported, e, s.today, now);
        case Update(_, _) => c, key, bucket := UpdateSettles(s.server, s.agg, s.reported, e, s.today, now);
        case Closed(_, conn, _) =>
          if conn.full {
            c, key, bucket := FullCloseSettles(s.server, s.agg, s.reported, e, s.today, now);
          } else {
            c, key, bucket := BareCloseSettles(s.server, s.agg, s.reported, e, s.today, now);
          }
      }
      SettledKeeps(s, Observed(s, e, now), e, c, key, bucket);
    }
  }

  lemma SettledKeeps(s: System, s': System, e: Event, c: Checkpoint, key: Key, bucket: Bucket)
    requires BooksOk(s) && s.subscribed && Tracked(s'.agg)
    requires s' == s.(agg := s'.agg, reported := Reports(s.reported, e), bare := s.bare + Bare([e]))
    requires Settles(s.server, s.agg, s.reported, e, s'.agg, c, key, bucket)
    ensures BooksOk(s')
  {
    BareIsAdded(s.server, s.bare, Bare([e]), e.id, c);
    CreditKeeps(s, s', e.id, c, key, bucket);
  }

  lemma BareIsAdded(v: Server, bare: set<Id>, more: set<Id>, id: Id, c: Checkpoint)
    requires CheckpointOk(v, more, id, c)
    ensures CheckpointOk(v, bare + more, id, c)
  {
  }

  // --- frames --------------------------------------------------------------------------------------

  function Begun(s: System, frame: Frame): System {
    if frame.reset then
      s.(agg := BeginReset(s.agg, Replayed(frame.events)).(available := true), reported := map[], subscribed := true)
    else s.(agg := s.agg.(available := true))
  }

  lemma BegunKeeps(s: System, frame: Frame, views: seq<Server>)
    requires BooksOk(s) && FrameOk(s, frame, views)
    ensures BooksOk(Begun(s, frame)) && Begun(s, frame).subscribed
  {
    var s' := Begun(s, frame);
    if frame.reset {
      var lost := s.agg.checkpoints.Keys - Replayed(frame.events);
      assert lost <= s.server.gone by {
        forall id | id in lost ensures id in s.server.gone {
          assert CheckpointOk(s.server, s.bare, id, s.agg.checkpoints[id]);
        }
      }
      DropKeeps(s, s', lost);
    } else {
      AvailableKeeps(s, s');
    }
  }

  function ObservedAll(s: System, events: seq<Event>, views: seq<Server>, now: int): System
    requires Tracked(s.agg)
  {
    s.(server := LastView(s.server, views), agg := AfterEvents(s.agg, events, s.today, now),
    reported := ReportsAll(s.reported, events), bare := s.bare + Bare(events))
  }

  /** The server moves on, then the event is observed: a connection may open, grow and close within one frame. */
  lemma {:induction false} EventsKeep(s: System, events: seq<Event>, views: seq<Server>, now: int)
    requires BooksOk(s) && s.subscribed && EventsOk(s.server, views, s.reported, events)
    ensures BooksOk(ObservedAll(s, events, views, now))
  {
    if events == [] {
      ObservedNone(s, now);
    } else {
      var n := |events| - 1;
      EventsOkPrefix(s.server, views, s.reported, events);
      EventsKeep(s, events[..n], views[..n], now);
      var before := ObservedAll(s, events[..n], views[..n], now);
      ServerKeeps(before, views[n]);
      ObservedLast(s, events, views, now);
      EventKeeps(before.(server := views[n]), events[n], now);
    }
  }

  lemma ObservedNone(s: System, now: int)
    requires Tracked(s.agg)
    ensures ObservedAll(s, [], [], now) == s
  {
    assert Bare([]) == {};
  }

  lemma EventsOkPrefix(v: Server, views: seq<Server>, reported: map<Id, Counters>, events: seq<Event>)
    requires EventsOk(v, views, reported, events) && events != []
    ensures var n := |events| - 1;
      && EventsOk(v, views[..n], reported, events[..n])
      && ServerMoves(LastView(v, views[..n]), views[n])
      && EventOk(views[n], ReportsAll(reported, events[..n]), events[n])
  {
    var n := |events| - 1;
    var init, seen := events[..n], views[..n];
    forall i | 0 <= i < n ensures ViewOk(v, seen, reported, init, i) {
      assert ViewOk(v, views, reported, events, i);
      assert init[..i] == events[..i] && seen[..i] == views[..i];
    }
    assert ViewOk(v, views, reported, events, n);
  }

  lemma ObservedLast(s: System, events: seq<Event>, views: seq<Server>, now: int)
    requires Tracked(s.agg) && events != [] && |views| == |events|
    ensures var n := |events| - 1;
      ObservedAll(s, events, views, now)
        == Observed(ObservedAll(s, events[..n], views[..n], now).(server := views[n]), events[n], now)
  {
    BareSplits(events);
  }

  lemma BareSplits(events: seq<Event>)
    requires events != []
    ensures Bare(events) == Bare(events[..|events| - 1]) + Bare([events[|events| - 1]])
  {
    var init, e := events[..|events| - 1], events[|events| - 1];
    assert events == init + [e];
    assert e in [e];
  }

  lemma ChargedDays(a: State, id: Id, r: Record, bucket: Bucket, day: int)
    ensures PendingDays(Charged(a, id, r, bucket, day)) <= PendingDays(a) + {day}
  {
  }

  lemma SamePendingDays(a: State, a': State)
    requires a'.pending == a.pending && a'.inflight == a.inflight
    ensures PendingDays(a') == PendingDays(a)
  {
  }

  lemma CheckpointedPending(a: State, id: Id, counters: Counters)
    ensures Checkpointed(a, id, counters).pending == a.pending && Checkpointed(a, id, counters).inflight == a.inflight
  {
  }

  lemma AttributedPending(a: State, id: Id, r: Record, total: Counters, day: int, counted: bool)
    ensures var owed := Bucket(Max(0, total.up - r.accounted.up), Max(0, total.down - r.accounted.down),
                               if counted then 0 else 1);
      var charged, a' := Charged(a, id, r, owed, day), Attributed(a, id, r, total, day, counted);
      a'.pending == charged.pending && a'.inflight == charged.inflight
  {
    var owed := Bucket(Max(0, total.up - r.accounted.up), Max(0, total.down - r.accounted.down),
                       if counted then 0 else 1);
    var counters := Counters(Max(r.accounted.up, total.up), Max(r.accounted.down, total.down));
    CheckpointedPending(Charged(a, id, r, owed, day)
                          .(records := a.records[id := r.(accounted := counters, total := total)]),
                        id, counters);
  }

  lemma AttributedDays(a: State, id: Id, r: Record, total: Counters, day: int, counted: bool)
    ensures PendingDays(Attributed(a, id, r, total, day, counted)) <= PendingDays(a) + {day}
  {
    var owed := Bucket(Max(0, total.up - r.accounted.up), Max(0, total.down - r.accounted.down),
                       if counted then 0 else 1);
    ChargedDays(a, id, r, owed, day);
    AttributedPending(a, id, r, total, day, counted);
    SamePendingDays(Charged(a, id, r, owed, day), Attributed(a, id, r, total, day, counted));
  }

  lemma TrackedDays(a: State, id: Id, r: Record, total: Counters, day: int, counted: bool)
    ensures PendingDays(Attributed(a.(records := a.records[id := r]), id, r, total, day, counted))
         <= PendingDays(a) + {day}
  {
    SamePendingDays(a, a.(records := a.records[id := r]));
    AttributedDays(a.(records := a.records[id := r]), id, r, total, day, counted);
  }

  lemma NewPending(a: State, id: Id, c: Connection, day: int)
    requires c.user != ""
    ensures var (r, counted) := RecordFor(a, id, c);
      var settled, a' := Attributed(a.(records := a.records[id := r]), id, r, c.total, day, counted),
          AfterNew(a, id, c, day);
      a'.pending == settled.pending && a'.inflight == settled.inflight
  {
  }

  lemma NewDays(a: State, id: Id, c: Connection, day: int)
    requires Tracked(a)
    ensures PendingDays(AfterNew(a, id, c, day)) <= PendingDays(a) + {day}
  {
    if c.user != "" {
      var (r, counted) := RecordFor(a, id, c);
      TrackedDays(a, id, r, c.total, day, counted);
      NewPending(a, id, c, day);
      SamePendingDays(Attributed(a.(records := a.records[id := r]), id, r, c.total, day, counted),
                      AfterNew(a, id, c, day));
    }
  }

  lemma UpdateDays(a: State, id: Id, delta: Counters, day: int)
    ensures PendingDays(AfterUpdate(a, id, delta, day)) <= PendingDays(a) + {day}
  {
    if id in a.records && delta != ZERO {
      ChargedDays(a, id, a.records[id], Bucket(delta.up, delta.down, 0), day);
      SamePendingDays(Charged(a, id, a.records[id], Bucket(delta.up, delta.down, 0), day),
                      AfterUpdate(a, id, delta, day));
    }
  }

  lemma ClosedDays(a: State, e: Event, day: int, now: int)
    requires Tracked(a) && e.Closed?
    ensures PendingDays(AfterClosed(a, e, day, now)) <= PendingDays(a) + {day}
  {
    if e.id in a.records || e.connection.user != "" {
      var (r, counted) := RecordFor(a, e.id, e.connection);
      TrackedDays(a, e.id, r, e.connection.total, day, counted);
      SamePendingDays(a, a.(records := a.records[e.id := r]));
      var tracked := a.(records := a.records[e.id := r]);
      var settled := if e.connection.full || !counted
                     then Attributed(tracked, e.id, r, e.connection.total, day, counted) else tracked;
      SamePendingDays(settled, AfterClosed(a, e, day, now));
    }
  }

  lemma EventDays(a: State, e: Event, day: int, now: int)
    requires Tracked(a)
    ensures PendingDays(AfterEvent(a, e, day, now)) <= PendingDays(a) + {day}
  {
    var seen := a.(available := true);
    SamePendingDays(a, seen);
    match e
    case New(id, c) => NewDays(seen, id, c, day);
    case Update(id, delta) => UpdateDays(seen, id, delta, day);
    case Closed(_, _, _) => ClosedDays(seen, e, day, now);
  }

  lemma {:induction false} EventsDays(a: State, events: seq<Event>, day: int, now: int)
    requires Tracked(a)
    ensures PendingDays(AfterEvents(a, events, day, now)) <= PendingDays(a) + {day}
  {
    if events != [] {
      EventsDays(a, events[..|events| - 1], day, now);
      EventDays(AfterEvents(a, events[..|events| - 1], day, now), events[|events| - 1], day, now);
    }
  }

  lemma DeliverKeeps(s: System, frame: Frame, views: seq<Server>, now: int, s': System)
    requires Inv(s) && Next(s, DeliverStep(frame, views, now), s')
    ensures Inv(s')
  {
    var b := Begun(s, frame);
    BegunKeeps(s, frame, views);
    EventsKeep(b, frame.events, views, now);
    PruneKeeps(ObservedAll(b, frame.events, views, now));
    assert s'.agg == Pruned(AfterEvents(b.agg, frame.events, s.today, now));
    assert s' == ObservedAll(b, frame.events, views, now).(agg := s'.agg);
    EventsDays(b.agg, frame.events, s.today, now);
    assert PendingDays(s'.agg) <= PendingDays(s.agg) + {s.today};
  }

  // --- the inductive invariant ------------------------------------------------------------------

  lemma CompactStepKeeps(s: System, limit: int, topN: nat, s': System)
    requires Inv(s) && Next(s, CompactStep(limit, topN), s')
    ensures Inv(s')
  {
    SameBooks(s, s'.tables.rows, s'.tables.days, s.today, s.cutoff);
    CompactKeepsRows(s.tables, s'.tables, limit, topN, s.durable);
    CompactKeepsDates(s.tables, s'.tables, limit, topN, s.today, s.cutoff, s.agg);
  }

  lemma CalendarStepKeeps(s: System, step: Step, s': System)
    requires Inv(s) && Next(s, step, s') && (step.CutoffStep? || step.MidnightStep?)
    ensures Inv(s')
  {
    SameBooks(s, s.tables.rows, s.tables.days, s'.today, s'.cutoff);
  }

  lemma NewDayKeeps(t: Tables, day: int, durable: seq<Entry>, today: int, cutoff: int, a: State)
    requires RowsMatch(t, durable) && DatesOk(today, cutoff, t.days, a) && day !in t.days
    ensures RowsMatch(t.(days := t.days[day := false]), durable)
    ensures DatesOk(today, cutoff, t.days[day := false], a)
  {
    forall row: RowKey ensures CompactedDay(t.days[day := false], row.day) == CompactedDay(t.days, row.day) {
    }
  }

  lemma OtherStepKeeps(s: System, day: int, s': System)
    requires Inv(s) && Next(s, OtherServiceStep(day), s')
    ensures Inv(s')
  {
    SameBooks(s, s.tables.rows, s'.tables.days, s.today, s.cutoff);
    NewDayKeeps(s.tables, day, s.durable, s.today, s.cutoff, s.agg);
  }

  lemma StepKeeps(s: System, step: Step, s': System)
    requires Inv(s) && Next(s, step, s')
    ensures Inv(s')
  {
    match step {
      case ServerStep(server) => ServerKeeps(s, server);
      case DeliverStep(frame, views, now) => DeliverKeeps(s, frame, views, now, s');
      case DisconnectStep => DisconnectKeeps(s, s');
      case PrepareStep(batch) => PrepareKeeps(s, batch, s');
      case CommitStep => CommitKeeps(s, s');
      case AcknowledgeStep => AcknowledgeKeeps(s, s');
      case CrashStep => CrashKeeps(s, s');
      case CutoffStep(_) => CalendarStepKeeps(s, step, s');
      case CompactStep(limit, topN) => CompactStepKeeps(s, limit, topN, s');
      case MidnightStep(_) => CalendarStepKeeps(s, step, s');
      case OtherServiceStep(day) => OtherStepKeeps(s, day, s');
    }
  }

  lemma StepAtKeeps(states: seq<System>, steps: seq<Step>, i: nat)
    requires i < |steps| && |states| == |steps| + 1 && NextAt(states, steps, i) && Inv(states[i])
    ensures Inv(states[i + 1])
  {
    StepKeeps(states[i], steps[i], states[i + 1]);
  }

  /** The invariant holds in every state of every run. */
  lemma RunKeeps(states: seq<System>, steps: seq<Step>, i: nat)
    requires Run(states, steps) && i < |states|
    ensures Inv(states[i])
  {
    InitHolds(states[0]);
    var k := 0;
    while k < i
      invariant k <= i && Inv(states[k])
    {
      StepAtKeeps(states, steps, k);
      k := k + 1;
    }
  }

  // --- the main results ------------------------------------------------------------------------------

  /** Exactly once: over every interleaving of frames, reconnects, batches, lost acknowledgements, crashes and
      compactions, the bytes stored for a connection are what its stored checkpoint says, never exceed what it
      carried, and equal its final total once it is retired; its connection is counted once. */
  lemma ExactlyOnce(states: seq<System>, steps: seq<Step>, i: nat, id: Id)
    requires Run(states, steps) && i < |states|
    ensures var s := states[i];
      var stored := Sum(s.durable, ById(id));
      && WithinTruth(stored, if id in s.server.truth then s.server.truth[id] else ZERO)
      && (id in s.tables.checkpoints ==>
            Weight(stored) == s.tables.checkpoints[id].counters && stored.conns == 1)
      && (Retired(s.tables.checkpoints, id) && id !in s.bare ==>
            id in s.server.truth && Weight(stored) == s.server.truth[id])
  {
    RunKeeps(states, steps, i);
    var s := states[i];
    DurableBounded(s);
    assert WithinTruth(Sum(s.durable, ById(id)), if id in s.server.truth then s.server.truth[id] else ZERO);
    if id in s.tables.checkpoints {
      assert Sum(s.durable, ById(id)) == Credit(s.tables.checkpoints[id]);
      assert CheckpointOk(s.server, s.bare, id, s.tables.checkpoints[id]);
    }
  }

  /** The rows hold the same charges: a user's day adds up to them even after folding, and each row does until
      its day is compacted. */
  lemma RowsHoldTheLedger(states: seq<System>, steps: seq<Step>, i: nat, row: RowKey)
    requires Run(states, steps) && i < |states|
    ensures var s := states[i];
      && Total(Group(s.tables.rows, row.day, row.user)) == Sum(s.durable, ByGroup(row.day, row.user))
      && (!CompactedDay(s.tables.days, row.day) ==> Value(s.tables.rows, row) == Sum(s.durable, ByRow(row)))
  {
    RunKeeps(states, steps, i);
  }

  /** The service's share of the destination table holds exactly the charges that carried an address. */
  lemma DestinationsHoldTheLedger(states: seq<System>, steps: seq<Step>, i: nat, row: DestinationKey)
    requires Run(states, steps) && i < |states|
    ensures DestinationValue(states[i].tables.destinations, row) == Sum(states[i].durable, ByDestination(row))
  {
    RunKeeps(states, steps, i);
  }

  /** Refinement: the table, overlaid with the batch in flight and then with the dirty and removed sets, is the
      in-memory map, and committing the batch deletes nothing else. */
  lemma CheckpointRefinement(states: seq<System>, steps: seq<Step>, i: nat)
    requires Run(states, steps) && i < |states|
    ensures var s := states[i];
      && s.agg.checkpoints == Without(Base(s), s.agg.removed) + s.agg.dirty
      && Tracked(s.agg)
      && (Uncommitted(s) ==> WriteCheckpoints(s.tables.checkpoints, s.agg.inflight.value) == Base(s))
      && Excess(s.agg.checkpoints) <= s.server.gone
      && (s.agg.inflight.None? && Idle(s.agg) ==> s.tables.checkpoints == s.agg.checkpoints)
  {
    RunKeeps(states, steps, i);
    var s := states[i];
    if Uncommitted(s) {
      StorePruneDeletesNothing(s);
    }
    PruneForgetsOnlyGone(s.server, s.bare, s.agg.checkpoints);
    OverlayNothing(Base(s));
  }

  /** A commit never meets a compacted day, however many commits failed across however many midnights. */
  lemma CompactionNeverStrandsABatch(states: seq<System>, steps: seq<Step>, i: nat)
    requires Run(states, steps) && i < |states| && states[i].agg.inflight.Some?
    ensures !MeetsCompactedDay(states[i].tables, states[i].agg.inflight.value)
  {
    RunKeeps(states, steps, i);
    NeverStranded(states[i]);
  }

  lemma DurableStep(states: seq<System>, steps: seq<Step>, i: nat)
    requires Run(states, steps) && i < |steps|
    ensures states[i].durable <= states[i + 1].durable
  {
    assert NextAt(states, steps, i);
  }

  /** What is durable stays durable. */
  lemma {:induction false} DurableGrows(states: seq<System>, steps: seq<Step>, i: nat, j: nat)
    requires Run(states, steps) && i <= j < |states|
    ensures states[i].durable <= states[j].durable
  {
    if i < j {
      DurableGrows(states, steps, i, j - 1);
      DurableStep(states, steps, j - 1);
    }
  }

  /** A closed connection stays closed with the same totals. */
  predicate StaysClosed(v: Server, v': Server, id: Id) {
    id in v.truth && id in v'.truth && v'.truth[id] == v.truth[id] && id in v'.closed
  }

  lemma MoveKeepsClosed(v: Server, v': Server, id: Id)
    requires ServerOk(v) && (v' == v || ServerMoves(v, v')) && id in v.closed
    ensures StaysClosed(v, v', id) && ServerOk(v')
  {
  }

  lemma ViewMoves(v: Server, views: seq<Server>, reported: map<Id, Counters>, events: seq<Event>, k: nat)
    requires EventsOk(v, views, reported, events) && k < |views|
    ensures ServerMoves(LastView(v, views[..k]), views[k]) && LastView(v, views[..k + 1]) == views[k]
  {
    assert ViewOk(v, views, reported, events, k);
    assert views[..k + 1][k] == views[k];
  }

  lemma ViewKeepsClosed(v: Server, views: seq<Server>, reported: map<Id, Counters>, events: seq<Event>, k: nat, id: Id)
    requires k < |views| && ServerOk(LastView(v, views[..k])) && StaysClosed(v, LastView(v, views[..k]), id)
    requires EventsOk(v, views, reported, events)
    ensures StaysClosed(v, LastView(v, views[..k + 1]), id) && ServerOk(LastView(v, views[..k + 1]))
  {
    ViewMoves(v, views, reported, events, k);
    MoveKeepsClosed(LastView(v, views[..k]), views[k], id);
  }

  lemma {:induction false} ViewsKeepClosed(v: Server, views: seq<Server>, reported: map<Id, Counters>,
                                           events: seq<Event>, n: nat, id: Id)
    requires ServerOk(v) && EventsOk(v, views, reported, events) && n <= |views| && id in v.closed
    ensures StaysClosed(v, LastView(v, views[..n]), id) && ServerOk(LastView(v, views[..n]))
  {
    if n > 0 {
      ViewsKeepClosed(v, views, reported, events, n - 1, id);
      ViewKeepsClosed(v, views, reported, events, n - 1, id);
    }
  }

  lemma FrameKeepsClosed(s: System, frame: Frame, views: seq<Server>, id: Id)
    requires ServerOk(s.server) && FrameOk(s, frame, views) && id in s.server.closed
    ensures StaysClosed(s.server, LastView(s.server, views), id)
  {
    ViewsKeepClosed(s.server, views, if frame.reset then map[] else s.reported, frame.events, |views|, id);
    assert views[..|views|] == views;
  }

  lemma NextKeepsClosed(s: System, step: Step, s': System, id: Id)
    requires ServerOk(s.server) && Next(s, step, s') && id in s.server.closed
    ensures StaysClosed(s.server, s'.server, id)
  {
    if step.DeliverStep? {
      FrameKeepsClosed(s, step.frame, step.views, id);
    } else if step.ServerStep? {
      MoveKeepsClosed(s.server, step.server, id);
    } else {
      OnlyFramesMoveTheServer(s, step, s');
      MoveKeepsClosed(s.server, s.server, id);
    }
  }

  lemma OnlyFramesMoveTheServer(s: System, step: Step, s': System)
    requires Next(s, step, s') && !step.DeliverStep? && !step.ServerStep?
    ensures s'.server == s.server
  {
  }

  lemma ServerHolds(states: seq<System>, steps: seq<Step>, i: nat)
    requires Run(states, steps) && i < |states|
    ensures ServerOk(states[i].server)
  {
    RunKeeps(states, steps, i);
  }

  lemma ClosedStep(states: seq<System>, steps: seq<Step>, i: nat, id: Id)
    requires Run(states, steps) && i < |steps| && id in states[i].server.closed
    ensures StaysClosed(states[i].server, states[i + 1].server, id)
  {
    ServerHolds(states, steps, i);
    assert NextAt(states, steps, i);
    NextKeepsClosed(states[i], steps[i], states[i + 1], id);
  }

  lemma ClosedBegins(states: seq<System>, steps: seq<Step>, i: nat, id: Id)
    requires i < |states| && id in states[i].server.closed
    requires Run(states, steps)
    ensures StaysClosed(states[i].server, states[i].server, id)
  {
    ServerHolds(states, steps, i);
  }

  lemma ClosedNext(states: seq<System>, steps: seq<Step>, i: nat, k: nat, id: Id)
    requires i <= k < |steps| && |states| == |steps| + 1 && StaysClosed(states[i].server, states[k].server, id)
    requires Run(states, steps)
    ensures StaysClosed(states[i].server, states[k + 1].server, id)
  {
    ClosedStep(states, steps, k, id);
  }

  lemma {:induction false} ClosedIsFinal(states: seq<System>, steps: seq<Step>, i: nat, j: nat, id: Id)
    requires Run(states, steps) && i <= j < |states| && id in states[i].server.closed
    ensures StaysClosed(states[i].server, states[j].server, id)
  {
    if i < j {
      ClosedIsFinal(states, steps, i, j - 1, id);
      ClosedNext(states, steps, i, j - 1, id);
    } else {
      ClosedBegins(states, steps, i, id);
    }
  }

  lemma PrefixSums(a: seq<Entry>, b: seq<Entry>, id: Id)
    requires a <= b && NonNegative(b)
    ensures Sum(a, ById(id)).up <= Sum(b, ById(id)).up && Sum(a, ById(id)).down <= Sum(b, ById(id)).down
    ensures Sum(a, ById(id)).conns <= Sum(b, ById(id)).conns
  {
    var rest := b[|a|..];
    assert b == a + rest;
    SumConcat(a, rest, ById(id));
    SumNonNegative(rest, ById(id));
  }

  /** Once the table says that a connection is retired with its final totals, what is stored for it equals them in every
      later state, counted once, even after its checkpoint has been forgotten. */
  lemma RetiredStaysExact(states: seq<System>, steps: seq<Step>, i: nat, j: nat, id: Id)
    requires Run(states, steps) && i <= j < |states|
    requires Retired(states[i].tables.checkpoints, id) && id !in states[i].bare
    ensures id in states[j].server.truth
    ensures Weight(Sum(states[j].durable, ById(id))) == states[j].server.truth[id]
    ensures Sum(states[j].durable, ById(id)).conns == 1
  {
    ExactlyOnce(states, steps, i, id);
    ExactlyOnce(states, steps, j, id);
    RetiredIsClosed(states, steps, i, id);
    ClosedIsFinal(states, steps, i, j, id);
    DurableGrows(states, steps, i, j);
    DurableIsNonNegative(states, steps, j);
    PrefixSums(states[i].durable, states[j].durable, id);
  }

  lemma RetiredIsClosed(states: seq<System>, steps: seq<Step>, i: nat, id: Id)
    requires Run(states, steps) && i < |states| && Retired(states[i].tables.checkpoints, id)
    ensures id in states[i].server.closed
  {
    RunKeeps(states, steps, i);
    var s := states[i];
    assert CheckpointOk(s.server, s.bare, id, s.tables.checkpoints[id]);
  }

  lemma DurableIsNonNegative(states: seq<System>, steps: seq<Step>, i: nat)
    requires Run(states, steps) && i < |states|
    ensures NonNegative(states[i].durable)
  {
    RunKeeps(states, steps, i);
    DurableBounded(states[i]);
  }

  lemma EarlierView(v: Server, views: seq<Server>, reported: map<Id, Counters>, events: seq<Event>,
                    view: Server, e: Event, i: nat)
    requires EventsOk(v, views, reported, events) && i < |events|
    ensures ViewOk(v, views + [view], reported, events + [e], i)
  {
    assert ViewOk(v, views, reported, events, i);
    assert (events + [e])[..i] == events[..i] && (views + [view])[..i] == views[..i];
  }

  lemma NewestView(v: Server, views: seq<Server>, reported: map<Id, Counters>, events: seq<Event>, view: Server,
                   e: Event)
    requires |views| == |events|
    requires ServerMoves(LastView(v, views), view) && EventOk(view, ReportsAll(reported, events), e)
    ensures ViewOk(v, views + [view], reported, events + [e], |events|)
  {
    assert (events + [e])[..|events|] == events && (views + [view])[..|events|] == views;
  }

  /** Frames grow by one event, written after the server moved on. */
  lemma AnotherEvent(v: Server, views: seq<Server>, reported: map<Id, Counters>, events: seq<Event>, view: Server,
                     e: Event)
    requires EventsOk(v, views, reported, events)
    requires ServerMoves(LastView(v, views), view) && EventOk(view, ReportsAll(reported, events), e)
    ensures EventsOk(v, views + [view], reported, events + [e])
  {
    NewestView(v, views, reported, events, view, e);
    forall i | 0 <= i < |events| ensures ViewOk(v, views + [view], reported, events + [e], i) {
      EarlierView(v, views, reported, events, view, e, i);
    }
  }

  lemma OpensFrame(v: Server, view: Server, reported: map<Id, Counters>, id: Id, c: Connection)
    requires ServerMoves(v, view) && EventOk(view, reported, New(id, c))
    ensures EventsOk(v, [view], reported, [New(id, c)])
    ensures ReportsAll(reported, [New(id, c)]) == reported[id := c.total]
  {
    var e := New(id, c);
    assert [e][..0] == [] && [] + [e] == [e] && [] + [view] == [view];
    NewestView(v, [], reported, [], view, e);
  }

  /** A short connection: it opens, carries bytes and closes between two frames, and one frame reports it all. */
  lemma ShortConnectionIsOneFrame(v: Server, before: Server, after: Server, reported: map<Id, Counters>,
                                  id: Id, c: Connection, d: Connection, at: int)
    requires ServerMoves(v, before) && ServerMoves(before, after)
    requires EventOk(before, reported, New(id, c)) && EventOk(after, reported[id := c.total], Closed(id, d, at))
    ensures EventsOk(v, [before] + [after], reported, [New(id, c)] + [Closed(id, d, at)])
  {
    OpensFrame(v, before, reported, id, c);
    AnotherEvent(v, [before], reported, [New(id, c)], after, Closed(id, d, at));
  }
}
