/** The collector's loop over one service: its aggregator, the store, and what a failure leaves behind. */
module ConnectionStats {
  import opened Accounting
  import opened ConnectionTracking
  import opened StreamStore
  import opened StreamSystem

  // --- runs that grow --------------------------------------------------------------------

  /** What happened so far. */
  datatype History = History(states: seq<System>, steps: seq<Step>)

  ghost predicate Happened(h: History) {
    Run(h.states, h.steps)
  }

  function Now(h: History): System
    requires h.states != []
  {
    h.states[|h.states| - 1]
  }

  function Then(h: History, step: Step, s: System): History {
    History(h.states + [s], h.steps + [step])
  }

  lemma HappenedAt(h: History, step: Step, s: System, i: nat)
    requires Happened(h) && Next(Now(h), step, s) && i <= |h.steps|
    ensures var next := Then(h, step, s); NextAt(next.states, next.steps, i)
  {
    var next := Then(h, step, s);
    if i < |h.steps| {
      assert NextAt(h.states, h.steps, i);
      assert next.states[i] == h.states[i] && next.steps[i] == h.steps[i] && next.states[i + 1] == h.states[i + 1];
    } else {
      assert next.states[i] == Now(h) && next.steps[i] == step && next.states[i + 1] == s;
    }
  }

  lemma Happens(h: History, step: Step, s: System)
    requires Happened(h) && Next(Now(h), step, s)
    ensures Happened(Then(h, step, s)) && Now(Then(h, step, s)) == s
  {
    var next := Then(h, step, s);
    assert next.states[0] == h.states[0];
    forall i | 0 <= i < |next.steps| ensures NextAt(next.states, next.steps, i) {
      HappenedAt(h, step, s, i);
    }
  }

  lemma HoldsNow(h: History)
    requires Happened(h)
    ensures Inv(Now(h))
  {
    RunKeeps(h.states, h.steps, |h.states| - 1);
  }

  lemma TrackedNow(h: History)
    requires Happened(h)
    ensures Tracked(Now(h).agg)
  {
    HoldsNow(h);
  }

  // --- the regions of a flush as steps of the whole system ------------------------------------

  lemma EmptyLedger(pending: map<Key, Bucket>, ledger: seq<Entry>)
    requires PendingMatches(pending, ledger) && pending == map[]
    ensures ledger == []
  {
    assert ledger != [] ==> ledger[0] in ledger && ledger[0].key in pending;
  }

  /** Everything charged so far is durable, nothing is in flight, and the table equals the map in memory. */
  predicate Settled(s: System) {
    s.agg.inflight.None? && Idle(s.agg) && FullLog(s) == s.durable && s.tables.checkpoints == s.agg.checkpoints
  }

  lemma IdleIsSettled(h: History)
    requires Happened(h) && Now(h).agg.inflight.None? && Idle(Now(h).agg)
    ensures Settled(Now(h))
  {
    HoldsNow(h);
    EmptyLedger(Now(h).agg.pending, Now(h).agg.ledger);
    CheckpointRefinement(h.states, h.steps, |h.states| - 1);
  }

  lemma PrepareKeepsLog(h: History, agg: State, batch: Option<Batch>)
    requires Happened(h) && Prepares(Now(h).agg, agg, batch)
    requires Now(h).agg.inflight.None? && batch.Some? ==> batch.value.batchId == Now(h).nextBatch
    ensures FullLog(Shipped(Now(h), agg)) == FullLog(Now(h))
    ensures batch.Some? && Now(h).agg.inflight.None? ==> BaseLog(Shipped(Now(h), agg)) == FullLog(Now(h))
    ensures Now(h).agg.inflight.Some? ==> BaseLog(Shipped(Now(h), agg)) == BaseLog(Now(h))
  {
    HoldsNow(h);
    NewBatchLog(Now(h), agg, batch);
  }

  lemma NewBatchLog(s: System, agg: State, batch: Option<Batch>)
    requires Prepares(s.agg, agg, batch) && BatchOk(s)
    requires s.agg.inflight.None? && batch.Some? ==> batch.value.batchId == s.nextBatch
    ensures FullLog(Shipped(s, agg)) == FullLog(s)
    ensures batch.Some? && s.agg.inflight.None? ==> BaseLog(Shipped(s, agg)) == FullLog(s)
    ensures s.agg.inflight.Some? ==> BaseLog(Shipped(s, agg)) == BaseLog(s)
  {
    if s.agg.inflight.None? && batch.Some? {
      assert s.durable + s.agg.ledger == s.durable + s.agg.ledger + [];
    }
  }

  lemma CommitGoesThrough(h: History)
    requires Happened(h) && Now(h).agg.inflight.Some?
    ensures !MeetsCompactedDay(Now(h).tables, Now(h).agg.inflight.value)
  {
    CompactionNeverStrandsABatch(h.states, h.steps, |h.states| - 1);
  }

  lemma StoredKeepsLog(s: System)
    requires s.agg.inflight.Some? && !MeetsCompactedDay(s.tables, s.agg.inflight.value)
    ensures FullLog(Stored(s)) == FullLog(s) && Committed(Stored(s)) && Stored(s).durable == BaseLog(s)
  {
  }

  lemma ReleasedKeepsLog(s: System)
    requires Committed(s)
    ensures FullLog(Released(s)) == FullLog(s)
  {
  }

  // --- what goes on meanwhile --------------------------------------------------------------------

  /** Whatever the lock lets happen between two regions of a flush, and what the rest of the world does. */
  datatype Happening =
    | Arrives(frame: Frame, views: seq<Server>, today: int, now: int)
    | StreamEnds
    | ServerGoesOn(server: Server)
    | MidnightPasses(today: int)
    | OtherCommits(day: int)

  /** The part of the system on which it depends what may happen next. */
  datatype Surroundings = Surroundings(server: Server, subscribed: bool, reported: map<Id, Counters>, today: int)

  function Around(s: System): Surroundings {
    Surroundings(s.server, s.subscribed, s.reported, s.today)
  }

  ghost predicate MayHappen(a: Surroundings, h: Happening) {
    match h
    case Arrives(frame, views, today, _) =>
      FrameFits(a.server, a.subscribed, a.reported, frame, views) && today == a.today
    case StreamEnds => true
    case ServerGoesOn(server) => ServerMoves(a.server, server)
    case MidnightPasses(today) => a.today <= today
    case OtherCommits(_) => true
  }

  function Afterwards(a: Surroundings, h: Happening): Surroundings {
    match h
    case Arrives(frame, views, _, _) =>
      a.(server := LastView(a.server, views),
      subscribed := true,
      reported := ReportsAll(if frame.reset then map[] else a.reported, frame.events))
    case StreamEnds => a.(subscribed := false)
    case ServerGoesOn(server) => a.(server := server)
    case MidnightPasses(today) => a.(today := today)
    case OtherCommits(_) => a
  }

  ghost predicate AllMayHappen(a: Surroundings, hs: seq<Happening>)
    decreases |hs|
  {
    hs == [] || (MayHappen(a, hs[0]) && AllMayHappen(Afterwards(a, hs[0]), hs[1..]))
  }

  ghost function AfterAll(a: Surroundings, hs: seq<Happening>): Surroundings
    decreases |hs|
  {
    if hs == [] then a else AfterAll(Afterwards(a, hs[0]), hs[1..])
  }

  lemma {:induction false} HappenInTurn(a: Surroundings, first: seq<Happening>, second: seq<Happening>)
    requires AllMayHappen(a, first + second)
    ensures AllMayHappen(a, first) && AllMayHappen(AfterAll(a, first), second)
    ensures AfterAll(a, first + second) == AfterAll(AfterAll(a, first), second)
    decreases |first|
  {
    if first == [] {
      assert first + second == second;
    } else {
      assert (first + second)[1..] == first[1..] + second;
      HappenInTurn(Afterwards(a, first[0]), first[1..], second);
    }
  }

  /** A happening as a change of the whole system. */
  ghost function WorldAfter(s: System, h: Happening): System
    requires Tracked(s.agg)
  {
    match h
    case Arrives(frame, views, _, now) => Delivered(s, frame, views, now)
    case StreamEnds => Disconnected(s)
    case ServerGoesOn(server) => s.(server := server)
    case MidnightPasses(today) => s.(today := today)
    case OtherCommits(day) =>
      if day in s.tables.days then s else s.(tables := s.tables.(days := s.tables.days[day := false]))
  }

  /** The batch in flight and the durable ledger stay; charges are only added. */
  predicate Undisturbed(s: System, s': System) {
    && s'.agg.inflight == s.agg.inflight && s'.agg.inflightLedger == s.agg.inflightLedger
    && s'.durable == s.durable && s'.tables.lastBatch == s.tables.lastBatch
    && s.agg.ledger <= s'.agg.ledger
  }

  lemma UndisturbedLogs(s: System, s': System)
    requires Undisturbed(s, s')
    ensures BaseLog(s') == BaseLog(s) && FullLog(s) <= FullLog(s') && Committed(s') == Committed(s)
  {
  }

  lemma PrefixChains(a: seq<Entry>, b: seq<Entry>, c: seq<Entry>)
    requires a <= b <= c
    ensures a <= c
  {
  }

  /** What no event of a frame touches, and what it only adds to. */
  predicate OnlyCharges(a: State, a': State) {
    a'.inflight == a.inflight && a'.inflightLedger == a.inflightLedger && a.ledger <= a'.ledger
  }

  lemma AttributedOnlyCharges(a: State, id: Id, r: Record, total: Counters, day: int, counted: bool)
    ensures OnlyCharges(a, Attributed(a, id, r, total, day, counted))
  {
  }

  lemma NewOnlyCharges(a: State, id: Id, c: Connection, day: int)
    ensures OnlyCharges(a, AfterNew(a, id, c, day))
  {
    if c.user != "" {
      var (r, counted) := RecordFor(a, id, c);
      AttributedOnlyCharges(a.(records := a.records[id := r]), id, r, c.total, day, counted);
    }
  }

  lemma UpdateOnlyCharges(a: State, id: Id, delta: Counters, day: int)
    ensures OnlyCharges(a, AfterUpdate(a, id, delta, day))
  {
  }

  lemma ClosedOnlyCharges(a: State, e: Event, day: int, now: int)
    requires Tracked(a) && e.Closed?
    ensures OnlyCharges(a, AfterClosed(a, e, day, now))
  {
    if e.id in a.records || e.connection.user != "" {
      var (r, counted) := RecordFor(a, e.id, e.connection);
      AttributedOnlyCharges(a.(records := a.records[e.id := r]), e.id, r, e.connection.total, day, counted);
    }
  }

  lemma EventOnlyCharges(a: State, e: Event, day: int, now: int)
    requires Tracked(a)
    ensures OnlyCharges(a, AfterEvent(a, e, day, now))
  {
    var seen := a.(available := true);
    match e
    case New(id, c) => NewOnlyCharges(seen, id, c, day);
    case Update(id, delta) => UpdateOnlyCharges(seen, id, delta, day);
    case Closed(_, _, _) => ClosedOnlyCharges(seen, e, day, now);
  }

  lemma {:induction false} EventsOnlyCharge(a: State, events: seq<Event>, day: int, now: int)
    requires Tracked(a)
    ensures OnlyCharges(a, AfterEvents(a, events, day, now))
  {
    if events != [] {
      var n := |events| - 1;
      EventsOnlyCharge(a, events[..n], day, now);
      EventOnlyCharges(AfterEvents(a, events[..n], day, now), events[n], day, now);
      PrefixChains(a.ledger, AfterEvents(a, events[..n], day, now).ledger, AfterEvents(a, events, day, now).ledger);
    }
  }

  lemma FrameOnlyCharges(a: State, frame: Frame, day: int, now: int)
    requires Tracked(a)
    ensures OnlyCharges(a, AfterFrame(a, frame, day, now))
  {
    var begun := (if frame.reset then BeginReset(a, Replayed(frame.events)) else a).(available := true);
    EventsOnlyCharge(begun, frame.events, day, now);
  }

  lemma HappeningDisturbsNothing(s: System, h: Happening)
    requires Tracked(s.agg)
    ensures Undisturbed(s, WorldAfter(s, h)) && Around(WorldAfter(s, h)) == Afterwards(Around(s), h)
  {
    if h.Arrives? {
      FrameOnlyCharges(s.agg, h.frame, s.today, h.now);
    }
  }

  // --- one round of a flush ------------------------------------------------------------------------

  /** What happens in the gaps of one round: while the batch waits for its commit, while its commit waits to be
      acknowledged, and after that; and whether the commit is broken off, or its answer lost. */
  datatype Gaps = Gaps(beforeCommit: seq<Happening>, beforeAcknowledge: seq<Happening>, afterwards: seq<Happening>,
                       broken: bool, lost: bool)

  predicate GoesThrough(g: Gaps) {
    !g.broken && !g.lost
  }

  function All(g: Gaps): seq<Happening> {
    g.beforeCommit + (g.beforeAcknowledge + g.afterwards)
  }

  datatype Outcome = Drained | Sent | Failed

  predicate PrepareLeaves(s: System, s': System, batch: Option<Batch>) {
    && batch == s'.agg.inflight && s'.durable == s.durable
    && FullLog(s') == FullLog(s) && Around(s') == Around(s)
    && (batch.None? ==> s.agg.inflight.None?)
    && (batch.None? || s.agg.inflight.None? ==> Idle(s'.agg))
    && (batch.Some? && s.agg.inflight.None? ==> BaseLog(s') == FullLog(s))
  }

  predicate CommitLeaves(s: System, s': System, ok: bool) {
    && s'.agg == s.agg && FullLog(s') == FullLog(s) && Around(s') == Around(s)
    && (ok ==> Committed(s') && s'.durable == BaseLog(s))
  }

  predicate MeanwhileLeaves(s: System, s': System, hs: seq<Happening>) {
    Undisturbed(s, s') && (hs == [] ==> s' == s)
  }

  /** A failed round loses nothing; one that found nothing to send leaves everything stored; and one that sent what
      was charged has stored what was charged before it. */
  predicate RoundLeaves(s: System, s': System, quiet: bool, outcome: Outcome) {
    && FullLog(s) <= FullLog(s')
    && (quiet ==> FullLog(s') == FullLog(s))
    && (outcome == Drained ==> Settled(s'))
    && (outcome == Sent ==> s'.agg.inflight.None?)
    && (outcome == Sent && s.agg.inflight.None? ==> FullLog(s) <= s'.durable && (quiet ==> Idle(s'.agg)))
  }

  lemma GapsInTurn(a: Surroundings, g: Gaps)
    requires AllMayHappen(a, All(g))
    ensures AllMayHappen(a, g.beforeCommit)
    ensures var b := AfterAll(a, g.beforeCommit);
            AllMayHappen(b, g.beforeAcknowledge) && AllMayHappen(AfterAll(b, g.beforeAcknowledge), g.afterwards) &&
            AfterAll(a, All(g)) == AfterAll(AfterAll(b, g.beforeAcknowledge), g.afterwards)
  {
    HappenInTurn(a, g.beforeCommit, g.beforeAcknowledge + g.afterwards);
    HappenInTurn(AfterAll(a, g.beforeCommit), g.beforeAcknowledge, g.afterwards);
  }

  predicate ReleaseLeaves(s: System, s': System, g: Gaps) {
    && FullLog(s) <= FullLog(s') && s'.durable == s.durable
    && s'.agg.inflight.None?
    && (g.beforeAcknowledge == [] && g.afterwards == [] ==> s' == Released(s))
  }

  lemma ReleasedMeanwhile(s: System, s': System, s'': System, g: Gaps)
    requires Committed(s) && MeanwhileLeaves(s, s', g.beforeAcknowledge)
    requires MeanwhileLeaves(Released(s'), s'', g.afterwards)
    ensures ReleaseLeaves(s, s'', g)
  {
    UndisturbedLogs(s, s');
    ReleasedKeepsLog(s');
    UndisturbedLogs(Released(s'), s'');
    PrefixChains(FullLog(s), FullLog(s'), FullLog(s''));
  }

  lemma SentRound(s0: System, s1: System, s2: System, s3: System, s4: System, batch: Batch, g: Gaps)
    requires PrepareLeaves(s0, s1, Some(batch)) && MeanwhileLeaves(s1, s2, g.beforeCommit)
    requires CommitLeaves(s2, s3, true) && ReleaseLeaves(s3, s4, g)
    ensures RoundLeaves(s0, s4, All(g) == [], Sent)
  {
    UndisturbedLogs(s1, s2);
    ReleasedKeepsLog(s3);
    PrefixChains(FullLog(s0), FullLog(s2), FullLog(s4));
  }

  lemma FailedRound(s0: System, s1: System, s2: System, s3: System, batch: Batch, g: Gaps)
    requires PrepareLeaves(s0, s1, Some(batch)) && MeanwhileLeaves(s1, s2, g.beforeCommit)
    requires CommitLeaves(s2, s3, false)
    ensures RoundLeaves(s0, s3, All(g) == [], Failed)
  {
    UndisturbedLogs(s1, s2);
  }

  /** No charge is lost; a clean flush has stored every charge made before it; and a clean flush during which
      nothing arrived has stored everything. */
  predicate FlushLeaves(s: System, s': System, quiet: bool, clean: bool) {
    && FullLog(s) <= FullLog(s')
    && (clean ==> FullLog(s) <= s'.durable)
    && (clean && quiet ==> Settled(s') && s'.durable == FullLog(s))
  }

  predicate SoFar(s0: System, s: System, rounds: nat, firstQuiet: bool, quiet: bool) {
    if rounds == 0 then s == s0
    else if rounds == 1 then RoundLeaves(s0, s, firstQuiet, Sent)
    else FlushLeaves(s0, s, quiet, true)
  }

  lemma FlushGoesOn(h: History, s0: System, s1: System, round: nat, firstQuiet: bool, thisQuiet: bool, quiet: bool,
                    outcome: Outcome)
    requires Happened(h) && round < 2 && SoFar(s0, s1, round, firstQuiet, quiet)
    requires RoundLeaves(s1, Now(h), thisQuiet, outcome)
    requires (quiet ==> firstQuiet && thisQuiet) && (round == 0 ==> thisQuiet == firstQuiet)
    ensures outcome == Sent ==> SoFar(s0, Now(h), round + 1, firstQuiet, quiet)
    ensures outcome != Sent ==> FlushLeaves(s0, Now(h), quiet, outcome == Drained)
  {
    if round == 1 {
      SecondRound(h, s0, s1, firstQuiet, thisQuiet, quiet, outcome);
    }
  }

  lemma SecondRound(h: History, s0: System, s1: System, firstQuiet: bool, thisQuiet: bool, quiet: bool,
                    outcome: Outcome)
    requires Happened(h) && (quiet ==> firstQuiet && thisQuiet)
    requires RoundLeaves(s0, s1, firstQuiet, Sent) && RoundLeaves(s1, Now(h), thisQuiet, outcome)
    ensures FlushLeaves(s0, Now(h), quiet, outcome != Failed)
  {
    PrefixChains(FullLog(s0), FullLog(s1), FullLog(Now(h)));
    if outcome == Sent {
      PrefixChains(FullLog(s0), FullLog(s1), Now(h).durable);
      if quiet {
        IdleIsSettled(h);
      }
    }
  }

  class ConnectionStreamCollector {
    var aggregator: ConnectionAggregator
    const store: TrafficStore
    var nextBatch: nat

    /** The run of the whole system that the code has gone through, one step for each region and transaction. */
    ghost var history: History

    ghost predicate Valid()
      reads this, aggregator, store
    {
      && history.states != [] && Happened(history)
      && Now(history).agg == aggregator.Snapshot()
      && Now(history).tables == store.Contents()
      && Now(history).nextBatch == nextBatch
    }

    /** Starts from what earlier processes committed. */
    constructor (store: TrafficStore, nextBatch: nat, ghost before: History)
      requires Happened(before) && Now(before).tables == store.Contents() && Now(before).nextBatch == nextBatch
      ensures Valid() && this.store == store && fresh(aggregator)
      ensures Now(history) == Restarted(Now(before))
    {
      this.store, this.nextBatch := store, nextBatch;
      aggregator := new ConnectionAggregator(store.checkpoints);
      history := Then(before, CrashStep, Restarted(Now(before)));
      new;
      Happens(before, CrashStep, Restarted(Now(before)));
    }

    /** A frame of the stream, applied under the lock. */
    method Deliver(frame: Frame, ghost views: seq<Server>, today: int, now: int)
      requires Valid() && FrameOk(Now(history), frame, views) && today == Now(history).today
      modifies this`history, aggregator
      ensures Valid()
      ensures Tracked(old(Now(history)).agg) && Now(history) == Delivered(old(Now(history)), frame, views, now)
    {
      TrackedNow(history);
      ghost var next := Delivered(Now(history), frame, views, now);
      Happens(history, DeliverStep(frame, views, now), next);
      aggregator.ApplyFrame(frame, today, now);
      history := Then(history, DeliverStep(frame, views, now), next);
    }

    /** However a stream ends, what it showed is no longer visible; the checkpoints stay. */
    method StreamEnded()
      requires Valid()
      modifies this`history, aggregator
      ensures Valid() && Now(history) == Disconnected(old(Now(history)))
    {
      Happens(history, DisconnectStep, Disconnected(Now(history)));
      aggregator.Disconnected();
      history := Then(history, DisconnectStep, Disconnected(Now(history)));
    }

    /** Steps that the collector's own code takes no part in. */
    ghost method Outside(step: Step, next: System)
      requires Valid() && Next(Now(history), step, next)
      requires next.agg == Now(history).agg && next.tables == Now(history).tables
      requires next.nextBatch == Now(history).nextBatch
      modifies this`history
      ensures Valid() && Now(history) == next
    {
      Happens(history, step, next);
      history := Then(history, step, next);
    }

    /** Another service of the same daemon commits to a day that was not in use before. */
    method OtherCommit(day: int)
      requires Valid() && day !in store.days
      modifies this`history, store`days
      ensures Valid() && Tracked(old(Now(history)).agg)
          && Now(history) == WorldAfter(old(Now(history)), OtherCommits(day))
    {
      TrackedNow(history);
      ghost var next := WorldAfter(Now(history), OtherCommits(day));
      Happens(history, OtherServiceStep(day), next);
      store.NoteDay(day);
      history := Then(history, OtherServiceStep(day), next);
    }

    method Happen(h: Happening)
      requires Valid() && MayHappen(Around(Now(history)), h)
      modifies this`history, aggregator, store`days
      ensures Valid()
      ensures Tracked(old(Now(history)).agg) && Now(history) == WorldAfter(old(Now(history)), h)
    {
      TrackedNow(history);
      match h
      case Arrives(frame, views, today, now) =>
        Deliver(frame, views, today, now);
      case StreamEnds =>
        StreamEnded();
      case ServerGoesOn(server) =>
        Outside(ServerStep(server), Now(history).(server := server));
      case MidnightPasses(today) =>
        Outside(MidnightStep(today), Now(history).(today := today));
      case OtherCommits(day) =>
        if day !in store.days {
          OtherCommit(day);
        }
    }

    method Meanwhile(hs: seq<Happening>)
      requires Valid() && AllMayHappen(Around(Now(history)), hs)
      modifies this`history, aggregator, store`days
      ensures Valid() && MeanwhileLeaves(old(Now(history)), Now(history), hs)
      ensures Around(Now(history)) == AfterAll(old(Around(Now(history))), hs)
      decreases |hs|
    {
      if hs == [] {
        return;
      }
      ghost var s := Now(history);
      TrackedNow(history);
      HappeningDisturbsNothing(s, hs[0]);
      Happen(hs[0]);
      ghost var middle := Now(history);
      Meanwhile(hs[1..]);
      PrefixChains(s.agg.ledger, middle.agg.ledger, Now(history).agg.ledger);
    }

    method Prepare() returns (batch: Option<Batch>)
      requires Valid()
      modifies this`history, this`nextBatch, aggregator
      ensures Valid() && PrepareLeaves(old(Now(history)), Now(history), batch)
    {
      batch := aggregator.PrepareBatch(nextBatch);
      PrepareKeepsLog(history, aggregator.Snapshot(), batch);
      Happens(history, PrepareStep(batch), Shipped(Now(history), aggregator.Snapshot()));
      history := Then(history, PrepareStep(batch), Shipped(Now(history), aggregator.Snapshot()));
      nextBatch := nextBatch + 1;
    }

    /** One transaction, which may fail; and its answer may be lost after it succeeded. */
    method CommitBatch(batch: Batch, broken: bool, lost: bool) returns (ok: bool)
      requires Valid() && Now(history).agg.inflight == Some(batch)
      modifies this`history, store
      ensures Valid() && CommitLeaves(old(Now(history)), Now(history), ok)
      ensures ok == (!broken && !lost)
    {
      if broken {
        return false;
      }
      CommitGoesThrough(history);
      StoredKeepsLog(Now(history));
      Happens(history, CommitStep, Stored(Now(history)));
      ok := store.CommitStreamBatch(batch);
      history := Then(history, CommitStep, Stored(Now(history)));
      ok := ok && !lost;
    }

    method Acknowledge(batch: Batch)
      requires Valid() && Committed(Now(history)) && Now(history).agg.inflight == Some(batch)
      modifies this`history, aggregator
      ensures Valid() && Now(history) == Released(old(Now(history)))
    {
      Happens(history, AcknowledgeStep, Released(Now(history)));
      var ok := aggregator.Acknowledge(batch);
      history := Then(history, AcknowledgeStep, Released(Now(history)));
    }

    method Send(batch: Batch, g: Gaps, ghost before: System) returns (ok: bool)
      requires Valid() && AllMayHappen(Around(Now(history)), All(g))
      requires PrepareLeaves(before, Now(history), Some(batch))
      modifies this`history, aggregator, store
      ensures Valid() && RoundLeaves(before, Now(history), All(g) == [], if ok then Sent else Failed)
      ensures ok == GoesThrough(g) && (ok ==> Around(Now(history)) == AfterAll(old(Around(Now(history))), All(g)))
    {
      ghost var s1 := Now(history);
      GapsInTurn(Around(s1), g);
      Meanwhile(g.beforeCommit);
      ghost var s2 := Now(history);
      ok := CommitBatch(batch, g.broken, g.lost);
      ghost var s3 := Now(history);
      if ok {
        Release(batch, g, s3);
        SentRound(before, s1, s2, s3, Now(history), batch, g);
      } else {
        FailedRound(before, s1, s2, s3, batch, g);
      }
    }

    method Release(batch: Batch, g: Gaps, ghost committed: System)
      requires Valid() && Now(history) == committed && Committed(committed) && committed.agg.inflight == Some(batch)
      requires AllMayHappen(Around(committed), g.beforeAcknowledge)
      requires AllMayHappen(AfterAll(Around(committed), g.beforeAcknowledge), g.afterwards)
      modifies this`history, aggregator, store`days
      ensures Valid() && ReleaseLeaves(committed, Now(history), g)
      ensures Around(Now(history)) == AfterAll(AfterAll(Around(committed), g.beforeAcknowledge), g.afterwards)
    {
      Meanwhile(g.beforeAcknowledge);
      ghost var s := Now(history);
      UndisturbedLogs(committed, s);
      Acknowledge(batch);
      Meanwhile(g.afterwards);
      ReleasedMeanwhile(committed, s, Now(history), g);
    }

    method FlushRound(g: Gaps) returns (outcome: Outcome)
      requires Valid() && AllMayHappen(Around(Now(history)), All(g))
      modifies this`history, this`nextBatch, aggregator, store
      ensures Valid() && RoundLeaves(old(Now(history)), Now(history), All(g) == [], outcome)
      ensures outcome == Sent ==> Around(Now(history)) == AfterAll(old(Around(Now(history))), All(g))
      ensures GoesThrough(g) ==> outcome != Failed
    {
      ghost var s0 := Now(history);
      var batch := Prepare();
      if batch.None? {
        IdleIsSettled(history);
        return Drained;
      }
      var ok := Send(batch.value, g, s0);
      outcome := if ok then Sent else Failed;
    }

    /** One retry, and what arrived while that batch was pending. Whatever fails and whatever arrives meanwhile,
        every charge is still owed or stored; when nothing fails, all that was charged before the flush is stored;
        and when nothing arrives either, nothing stays behind, so a clean shutdown discards nothing. */
    method Flush(first: Gaps, second: Gaps) returns (clean: bool)
      requires Valid() && AllMayHappen(Around(Now(history)), All(first) + All(second))
      modifies this`history, this`nextBatch, aggregator, store
      ensures Valid()
      ensures FlushLeaves(old(Now(history)), Now(history), All(first) + All(second) == [], clean)
      ensures GoesThrough(first) && GoesThrough(second) ==> clean
    {
      ghost var s0 := Now(history);
      ghost var quiet := All(first) + All(second) == [];
      HappenInTurn(Around(s0), All(first), All(second));
      clean := false;
      for round := 0 to 2
        invariant Valid() && SoFar(s0, Now(history), round, All(first) == [], quiet)
        invariant round == 0 ==> AllMayHappen(Around(Now(history)), All(first))
        invariant round == 1 ==> AllMayHappen(Around(Now(history)), All(second))
      {
        ghost var s1 := Now(history);
        var gaps := if round == 0 then first else second;
        var outcome := FlushRound(gaps);
        FlushGoesOn(history, s0, s1, round, All(first) == [], All(gaps) == [], quiet, outcome);
        if outcome != Sent {
          return outcome == Drained;
        }
      }
      clean := true;
    }

    /** Compaction stays behind every unacknowledged delta, of this service and of the others. The day was read
        when the flush began, and may be over. */
    method ChooseLimit(today: int, others: Option<int>) returns (limit: int)
      requires Valid() && today <= Now(history).today
      modifies this`history
      ensures Valid() && Now(history) == old(Now(history)).(cutoff := Max(old(Now(history)).cutoff, limit))
      ensures limit <= today && (others.Some? ==> limit <= others.value)
      ensures forall day <- PendingDays(Now(history).agg) :: limit <= day
      ensures limit == today || others == Some(limit) || limit in PendingDays(Now(history).agg)
    {
      var oldest := aggregator.OldestPendingDate();
      limit := if oldest.Some? && oldest.value < today then oldest.value else today;
      limit := if others.Some? && others.value < limit then others.value else limit;
      ghost var s := Now(history);
      Outside(CutoffStep(limit), s.(cutoff := Max(s.cutoff, limit)));
    }

    /** The transaction may be broken off; otherwise the days before the limit are compacted. */
    method CompactCompletedDays(today: int, others: Option<int>, topN: nat, broken: bool)
        returns (limit: int, folded: nat)
      requires Valid() && today <= Now(history).today
      modifies this`history, store
      ensures Valid() && Now(history).agg == old(Now(history)).agg && Now(history).durable == old(Now(history)).durable
      ensures if broken then store.Contents() == old(store.Contents())
              else Compacts(old(store.Contents()), store.Contents(), limit, topN)
      ensures limit == today || others == Some(limit) || limit in PendingDays(Now(history).agg)
    {
      limit := ChooseLimit(today, others);
      if broken {
        return limit, 0;
      }
      folded := store.CompactCompletedDays(limit, topN);
      ghost var next := Now(history).(tables := store.Contents());
      Happens(history, CompactStep(limit, topN), next);
      history := Then(history, CompactStep(limit, topN), next);
    }
  }
}
