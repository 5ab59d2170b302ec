/** To whom the stream's bytes go: every charge names the user, the host and the address of the connection that carried
    the bytes, and the day on which they were seen. */
module StreamAttribution {
  import opened Accounting
  import opened ConnectionTracking
  import opened StreamStore
  import opened StreamSystem

  import CS = ConnectionStats

  /** The connection's own user and destination. */
  predicate Names(v: Server, id: Id, user: string, domain: Name, ip: string) {
    && id in v.owner && id in v.target && v.owner[id] != ""
    && user == v.owner[id] && domain == v.target[id].domain && ip == v.target[id].ip
  }

  predicate Belongs(v: Server, e: Entry) {
    Names(v, e.id, e.key.user, e.key.domain, e.key.ip)
  }

  ghost predicate AllBelong(v: Server, log: seq<Entry>) {
    forall e <- log :: Belongs(v, e)
  }

  ghost predicate RecordsBelong(v: Server, records: map<Id, Record>) {
    forall id <- records :: Names(v, id, records[id].user, records[id].domain, records[id].ip)
  }

  /** New charges of some events, all of one day. */
  ghost predicate Charges(v: Server, more: seq<Entry>, ids: set<Id>, day: int) {
    forall e <- more :: Belongs(v, e) && e.key.day == day && e.id in ids
  }

  lemma NamesStay(v: Server, v': Server, id: Id, user: string, domain: Name, ip: string)
    requires ServerMoves(v, v') && Names(v, id, user, domain, ip)
    ensures Names(v', id, user, domain, ip)
  {
  }

  lemma BelongsStay(v: Server, v': Server, log: seq<Entry>)
    requires ServerMoves(v, v') && AllBelong(v, log)
    ensures AllBelong(v', log)
  {
  }

  lemma ChargesStay(v: Server, v': Server, more: seq<Entry>, ids: set<Id>, day: int)
    requires ServerMoves(v, v') && Charges(v, more, ids, day)
    ensures Charges(v', more, ids, day)
  {
  }

  lemma RecordsStay(v: Server, v': Server, records: map<Id, Record>)
    requires ServerMoves(v, v') && RecordsBelong(v, records)
    ensures RecordsBelong(v', records)
  {
  }

  // --- one event -------------------------------------------------------------------------------

  /** One event's effect on what is charged: at most one entry more, of its own connection. */
  ghost predicate ChargesOnce(v: Server, a: State, a': State, id: Id, day: int) {
    && RecordsBelong(v, a'.records)
    && (a'.ledger == a.ledger
        || exists e: Entry :: a'.ledger == a.ledger + [e] && Belongs(v, e) && e.key.day == day && e.id == id)
  }

  lemma ChargedOnce(v: Server, a: State, id: Id, r: Record, bucket: Bucket, day: int)
    requires Names(v, id, r.user, r.domain, r.ip)
    ensures var a' := Charged(a, id, r, bucket, day);
      || a'.ledger == a.ledger
      || exists e: Entry :: a'.ledger == a.ledger + [e] && Belongs(v, e) && e.key.day == day && e.id == id
  {
    if bucket != EMPTY {
      var e := Entry(id, Key(day, r.user, r.domain, r.ip), bucket);
      assert Charged(a, id, r, bucket, day).ledger == a.ledger + [e];
      assert Belongs(v, e);
    }
  }

  lemma AttributedOnce(v: Server, a: State, id: Id, r: Record, total: Counters, day: int, counted: bool)
    requires RecordsBelong(v, a.records) && Names(v, id, r.user, r.domain, r.ip)
    ensures ChargesOnce(v, a, Attributed(a, id, r, total, day, counted), id, day)
  {
    var owed := Bucket(Max(0, total.up - r.accounted.up), Max(0, total.down - r.accounted.down),
                       if counted then 0 else 1);
    ChargedOnce(v, a, id, r, owed, day);
  }

  lemma RecordNames(v: Server, a: State, id: Id, c: Connection)
    requires RecordsBelong(v, a.records) && (id !in a.records ==> Describes(v, id, c) && c.user != "")
    ensures var r := RecordFor(a, id, c).0; Names(v, id, r.user, r.domain, r.ip)
  {
  }

  lemma NewOnce(v: Server, a: State, id: Id, c: Connection, day: int)
    requires RecordsBelong(v, a.records) && Describes(v, id, c)
    ensures ChargesOnce(v, a, AfterNew(a, id, c, day), id, day)
  {
    if c.user != "" {
      var (r, counted) := RecordFor(a, id, c);
      RecordNames(v, a, id, c);
      AttributedOnce(v, a.(records := a.records[id := r]), id, r, c.total, day, counted);
    }
  }

  lemma UpdateOnce(v: Server, a: State, id: Id, delta: Counters, day: int)
    requires RecordsBelong(v, a.records)
    ensures ChargesOnce(v, a, AfterUpdate(a, id, delta, day), id, day)
  {
    if id in a.records && delta != ZERO {
      ChargedOnce(v, a, id, a.records[id], Bucket(delta.up, delta.down, 0), day);
    }
  }

  lemma ClosedOnce(v: Server, a: State, e: Event, day: int, now: int)
    requires Tracked(a) && e.Closed? && RecordsBelong(v, a.records)
    requires e.connection.full ==> Describes(v, e.id, e.connection)
    requires !e.connection.full ==> e.connection.user == ""
    ensures ChargesOnce(v, a, AfterClosed(a, e, day, now), e.id, day)
  {
    if e.id in a.records || e.connection.user != "" {
      var (r, counted) := RecordFor(a, e.id, e.connection);
      RecordNames(v, a, e.id, e.connection);
      AttributedOnce(v, a.(records := a.records[e.id := r]), e.id, r, e.connection.total, day, counted);
    }
  }

  lemma EventOnce(v: Server, a: State, reported: map<Id, Counters>, e: Event, day: int, now: int)
    requires Tracked(a) && RecordsBelong(v, a.records) && EventOk(v, reported, e)
    ensures ChargesOnce(v, a, AfterEvent(a, e, day, now), e.id, day)
  {
    var seen := a.(available := true);
    match e
    case New(id, c) => NewOnce(v, seen, id, c, day);
    case Update(id, delta) => UpdateOnce(v, seen, id, delta, day);
    case Closed(_, _, _) => ClosedOnce(v, seen, e, day, now);
  }

  // --- frames ----------------------------------------------------------------------------------

  /** What some events added to the ledger. */
  function Added(a: State, a': State): seq<Entry>
    requires a.ledger <= a'.ledger
  {
    a'.ledger[|a.ledger|..]
  }

  ghost predicate ChargesFor(v: Server, a: State, a': State, ids: set<Id>, day: int) {
    RecordsBelong(v, a'.records) && a.ledger <= a'.ledger && Charges(v, Added(a, a'), ids, day)
  }

  lemma OneMoreEvent(v: Server, a: State, a1: State, a2: State, ids: set<Id>, id: Id, day: int)
    requires ChargesFor(v, a, a1, ids, day) && ChargesOnce(v, a1, a2, id, day)
    ensures ChargesFor(v, a, a2, ids + {id}, day)
  {
    if a2.ledger != a1.ledger {
      var e: Entry :| a2.ledger == a1.ledger + [e] && Belongs(v, e) && e.key.day == day && e.id == id;
      assert Added(a, a2) == Added(a, a1) + [e];
    }
  }

  lemma ReplayedSplits(events: seq<Event>)
    requires events != []
    ensures Replayed(events) == Replayed(events[..|events| - 1]) + {events[|events| - 1].id}
  {
    assert events == events[..|events| - 1] + [events[|events| - 1]];
  }

  lemma {:induction false} EventsFor(v: Server, views: seq<Server>, a: State, reported: map<Id, Counters>,
                                     events: seq<Event>, day: int, now: int)
    requires Tracked(a) && RecordsBelong(v, a.records) && EventsOk(v, views, reported, events)
    ensures ChargesFor(LastView(v, views), a, AfterEvents(a, events, day, now), Replayed(events), day)
  {
    if events != [] {
      var n := |events| - 1;
      var a1 := AfterEvents(a, events[..n], day, now);
      EventsOkPrefix(v, views, reported, events);
      EventsFor(v, views[..n], a, reported, events[..n], day, now);
      RecordsStay(LastView(v, views[..n]), views[n], a1.records);
      ChargesStay(LastView(v, views[..n]), views[n], Added(a, a1), Replayed(events[..n]), day);
      EventOnce(views[n], a1, ReportsAll(reported, events[..n]), events[n], day, now);
      ReplayedSplits(events);
      OneMoreEvent(views[n], a, a1, AfterEvents(a, events, day, now), Replayed(events[..n]), events[n].id, day);
    }
  }

  lemma FrameFor(v: Server, subscribed: bool, views: seq<Server>, a: State, reported: map<Id, Counters>, frame: Frame,
                 day: int, now: int)
    requires Tracked(a) && RecordsBelong(v, a.records) && FrameFits(v, subscribed, reported, frame, views)
    ensures ChargesFor(LastView(v, views), a, AfterFrame(a, frame, day, now), Replayed(frame.events), day)
  {
    var begun := (if frame.reset then BeginReset(a, Replayed(frame.events)) else a).(available := true);
    EventsFor(v, views, begun, if frame.reset then map[] else reported, frame.events, day, now);
  }

  // --- runs ------------------------------------------------------------------------------------

  ghost predicate AttributionOk(s: System) {
    AllBelong(s.server, FullLog(s)) && RecordsBelong(s.server, s.agg.records)
  }

  /** What a step does to the ledger: a frame adds charges of its own connections on its own day, a crash loses the
      charges that were not stored, and nothing else touches it. */
  ghost predicate StepCharges(s: System, step: Step, s': System) {
    if step.DeliverStep? then
      && FullLog(s) <= FullLog(s')
      && Charges(s'.server, FullLog(s')[|FullLog(s)|..], Replayed(step.frame.events), s.today)
    else if step.CrashStep? then FullLog(s') == s.durable
    else FullLog(s') == FullLog(s)
  }

  lemma DeliverCharges(s: System, frame: Frame, views: seq<Server>, now: int)
    requires Tracked(s.agg) && AttributionOk(s) && FrameOk(s, frame, views)
    ensures StepCharges(s, DeliverStep(frame, views, now), Delivered(s, frame, views, now))
    ensures RecordsBelong(LastView(s.server, views), Delivered(s, frame, views, now).agg.records)
  {
    var s' := Delivered(s, frame, views, now);
    FrameFor(s.server, s.subscribed, views, s.agg, s.reported, frame, s.today, now);
    CS.FrameOnlyCharges(s.agg, frame, s.today, now);
    CS.UndisturbedLogs(s, s');
    assert FullLog(s')[|FullLog(s)|..] == Added(s.agg, s'.agg);
  }

  lemma LogStep(s: System, step: Step, s': System)
    requires Inv(s) && Next(s, step, s') && AttributionOk(s)
    ensures StepCharges(s, step, s')
  {
    match step
    case DeliverStep(frame, views, now) => DeliverCharges(s, frame, views, now);
    case PrepareStep(batch) => CS.NewBatchLog(s, s'.agg, batch);
    case CommitStep =>
      NeverStranded(s);
      CS.StoredKeepsLog(s);
    case AcknowledgeStep => CS.ReleasedKeepsLog(s);
    case CrashStep => RestartedViews(s);
    case _ =>
  }

  lemma RecordsStep(s: System, step: Step, s': System)
    requires Inv(s) && Next(s, step, s') && AttributionOk(s)
    ensures RecordsBelong(s'.server, s'.agg.records)
  {
    match step
    case DeliverStep(frame, views, now) => DeliverCharges(s, frame, views, now);
    case ServerStep(server) => RecordsStay(s.server, server, s.agg.records);
    case _ =>
  }

  lemma {:induction false} ViewsMove(v: Server, views: seq<Server>, reported: map<Id, Counters>, events: seq<Event>,
                                     log: seq<Entry>)
    requires EventsOk(v, views, reported, events) && AllBelong(v, log)
    ensures AllBelong(LastView(v, views), log)
    decreases |events|
  {
    if events != [] {
      var n := |events| - 1;
      EventsOkPrefix(v, views, reported, events);
      ViewsMove(v, views[..n], reported, events[..n], log);
      BelongsStay(LastView(v, views[..n]), views[n], log);
    }
  }

  lemma LogBelongs(s: System, step: Step, s': System)
    requires Inv(s) && Next(s, step, s') && AttributionOk(s)
    ensures AllBelong(s'.server, FullLog(s'))
  {
    LogStep(s, step, s');
    match step
    case DeliverStep(frame, views, now) =>
      ViewsMove(s.server, views, if frame.reset then map[] else s.reported, frame.events, FullLog(s));
      BelongJoined(s'.server, FullLog(s), FullLog(s'), Replayed(frame.events), s.today);
    case ServerStep(server) => BelongsStay(s.server, server, FullLog(s));
    case CrashStep => BelongPrefix(s.server, s.durable, FullLog(s));
    case _ =>
  }

  lemma BelongJoined(v: Server, log: seq<Entry>, log': seq<Entry>, ids: set<Id>, day: int)
    requires log <= log' && AllBelong(v, log) && Charges(v, log'[|log|..], ids, day)
    ensures AllBelong(v, log')
  {
    assert log' == log + log'[|log|..];
  }

  lemma BelongPrefix(v: Server, log: seq<Entry>, log': seq<Entry>)
    requires log <= log' && AllBelong(v, log')
    ensures AllBelong(v, log)
  {
    assert log' == log + log'[|log|..];
  }

  lemma StepAttributes(s: System, step: Step, s': System)
    requires Inv(s) && Next(s, step, s') && AttributionOk(s)
    ensures AttributionOk(s') && StepCharges(s, step, s')
  {
    LogStep(s, step, s');
    RecordsStep(s, step, s');
    LogBelongs(s, step, s');
  }

  lemma StepAtAttributes(states: seq<System>, steps: seq<Step>, k: nat)
    requires Run(states, steps) && k < |steps| && AttributionOk(states[k])
    ensures AttributionOk(states[k + 1]) && StepCharges(states[k], steps[k], states[k + 1])
  {
    RunKeeps(states, steps, k);
    assert NextAt(states, steps, k);
    StepAttributes(states[k], steps[k], states[k + 1]);
  }

  lemma RunBeginsAttributed(states: seq<System>, steps: seq<Step>)
    requires Run(states, steps)
    ensures AttributionOk(states[0])
  {
    NothingCharged(states[0]);
  }

  lemma {:induction false} RunAttributes(states: seq<System>, steps: seq<Step>, i: nat)
    requires Run(states, steps) && i < |states|
    ensures AttributionOk(states[i])
    decreases i
  {
    if i == 0 {
      RunBeginsAttributed(states, steps);
    } else {
      RunAttributes(states, steps, i - 1);
      StepAtAttributes(states, steps, i - 1);
    }
  }

  lemma NothingCharged(s: System)
    requires Init(s)
    ensures FullLog(s) == [] && AttributionOk(s)
  {
  }

  /** A frame of an event of this charge's connection, applied on the day that the charge names. */
  ghost predicate ChargedAt(states: seq<System>, steps: seq<Step>, k: nat, e: Entry)
    requires k < |steps| && |states| == |steps| + 1
  {
    steps[k].DeliverStep? && states[k].today == e.key.day && e.id in Replayed(steps[k].frame.events)
  }

  lemma StoredIsLogged(s: System)
    ensures forall e <- s.durable :: e in FullLog(s)
  {
  }

  lemma NewCharge(s: System, step: Step, s': System, e: Entry)
    requires StepCharges(s, step, s') && e in FullLog(s') && e !in FullLog(s)
    ensures step.DeliverStep? && s.today == e.key.day && e.id in Replayed(step.frame.events)
  {
    StoredIsLogged(s);
    if step.DeliverStep? {
      assert FullLog(s') == FullLog(s) + FullLog(s')[|FullLog(s)|..];
    }
  }

  lemma StepAtCharges(states: seq<System>, steps: seq<Step>, k: nat)
    requires Run(states, steps) && k < |steps|
    ensures StepCharges(states[k], steps[k], states[k + 1])
  {
    RunAttributes(states, steps, k);
    StepAtAttributes(states, steps, k);
  }

  ghost predicate Made(states: seq<System>, steps: seq<Step>, i: nat, e: Entry)
    requires i <= |steps| && |states| == |steps| + 1
  {
    exists k :: 0 <= k < i && ChargedAt(states, steps, k, e)
  }

  lemma MadeNext(states: seq<System>, steps: seq<Step>, k: nat, e: Entry)
    requires Run(states, steps) && k < |steps| && e in FullLog(states[k + 1])
    requires e in FullLog(states[k]) ==> Made(states, steps, k, e)
    ensures Made(states, steps, k + 1, e)
  {
    StepAtCharges(states, steps, k);
    if e !in FullLog(states[k]) {
      NewCharge(states[k], steps[k], states[k + 1], e);
      assert ChargedAt(states, steps, k, e);
    }
  }

  lemma NothingMade(states: seq<System>, steps: seq<Step>, e: Entry)
    requires Run(states, steps)
    ensures e !in FullLog(states[0])
  {
    NothingCharged(states[0]);
  }

  lemma ChargeIsMade(states: seq<System>, steps: seq<Step>, i: nat, e: Entry)
    requires Run(states, steps) && i < |states| && e in FullLog(states[i])
    ensures Made(states, steps, i, e)
  {
    NothingMade(states, steps, e);
    var k := 0;
    while k < i
      invariant k <= i
      invariant e in FullLog(states[k]) ==> Made(states, steps, k, e)
    {
      if e in FullLog(states[k + 1]) {
        MadeNext(states, steps, k, e);
      }
      k := k + 1;
    }
  }

  // --- the main results ------------------------------------------------------------------------

  /** To whom, where and when: over every run, every charge, stored or not, names the user who owns the connection, the
      host and the address that the connection goes to, and the day on which a frame with an event of it arrived. */
  lemma EveryChargeBelongs(states: seq<System>, steps: seq<Step>, i: nat, e: Entry)
    requires Run(states, steps) && i < |states| && e in FullLog(states[i])
    ensures var v := states[i].server;
      && e.id in v.owner && e.id in v.target && e.key.user == v.owner[e.id] && e.key.user != ""
      && e.key.domain == v.target[e.id].domain && e.key.ip == v.target[e.id].ip
    ensures exists k :: 0 <= k < i && ChargedAt(states, steps, k, e)
  {
    RunAttributes(states, steps, i);
    assert Belongs(states[i].server, e);
    ChargeIsMade(states, steps, i, e);
  }

  /** Whether a charge is traffic of this user, host or address, by what the server knows of its connection. */
  predicate Carries(v: Server, sel: Selector, e: Entry) {
    && e.id in v.owner && e.id in v.target
    && match sel
       case ByGroup(day, user) => e.key.day == day && v.owner[e.id] == user
       case ByRow(row) => e.key.day == row.day && v.owner[e.id] == row.user && v.target[e.id].domain == row.domain
       case ByDestination(d) =>
         e.key.day == d.day && v.owner[e.id] == d.user && v.target[e.id].ip == d.ip && d.ip != ""
       case _ => false
  }

  function Carried(log: seq<Entry>, v: Server, sel: Selector): Bucket {
    if log == [] then EMPTY
    else
      var rest := Carried(log[..|log| - 1], v, sel);
      if Carries(v, sel, log[|log| - 1]) then Plus(rest, log[|log| - 1].bucket) else rest
  }

  lemma {:induction false} SumIsCarried(log: seq<Entry>, v: Server, sel: Selector)
    requires AllBelong(v, log) && (sel.ByGroup? || sel.ByRow? || sel.ByDestination?)
    ensures Sum(log, sel) == Carried(log, v, sel)
  {
    if log != [] {
      var init, e := log[..|log| - 1], log[|log| - 1];
      assert log == init + [e];
      assert e in log && Belongs(v, e);
      SumIsCarried(init, v, sel);
    }
  }

  lemma StoredBelongs(states: seq<System>, steps: seq<Step>, i: nat)
    requires Run(states, steps) && i < |states|
    ensures AllBelong(states[i].server, states[i].durable)
  {
    RunAttributes(states, steps, i);
    BelongPrefix(states[i].server, states[i].durable, FullLog(states[i]));
  }

  /** The tables hold each user's traffic: a user's day adds up to what connections of that user carried on it; so does
      each host's row until the day is compacted; and so does each address's. */
  lemma TablesHoldTheTraffic(states: seq<System>, steps: seq<Step>, i: nat, row: RowKey, to: DestinationKey)
    requires Run(states, steps) && i < |states|
    ensures var s := states[i];
      && Total(Group(s.tables.rows, row.day, row.user)) == Carried(s.durable, s.server, ByGroup(row.day, row.user))
      && (!CompactedDay(s.tables.days, row.day) ==>
            Value(s.tables.rows, row) == Carried(s.durable, s.server, ByRow(row)))
      && DestinationValue(s.tables.destinations, to) == Carried(s.durable, s.server, ByDestination(to))
  {
    RowsHoldTheLedger(states, steps, i, row);
    DestinationsHoldTheLedger(states, steps, i, to);
    StoredBelongs(states, steps, i);
    var s := states[i];
    SumIsCarried(s.durable, s.server, ByGroup(row.day, row.user));
    SumIsCarried(s.durable, s.server, ByRow(row));
    SumIsCarried(s.durable, s.server, ByDestination(to));
  }
}
