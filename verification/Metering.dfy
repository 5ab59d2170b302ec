/** Polled counters, folded into days and billing months. */
module Metering {
  import opened Accounting
  import opened Calendar
  import opened Reconciliation

  datatype MonthRow = MonthRow(month: Month, user: Name, protocol: Name)

  datatype ServiceRow = ServiceRow(uptime: int, day: int)

  datatype UserKey = UserKey(protocol: Name, user: Name)

  datatype PollKey = PollKey(protocol: Name, user: Name, end: int)

  datatype PollRow = PollRow(start: int, counters: Counters)

  datatype Snapshot = Snapshot(uptime: int, counters: map<Name, Counters>)

  type DailyUsage = Residuals

  /** The poller's tables. Days are numbered; a month is named by the month its cycle starts in. */
  datatype Usage = Usage(
    services: map<Name, ServiceRow>,
    counters: map<UserKey, Counters>,
    daily: DailyUsage,
    monthly: map<MonthRow, Counters>,
    polls: map<PollKey, PollRow>)

  const NO_USAGE := Usage(map[], map[], map[], map[], map[])

  function CounterDelta(current: int, previous: int, restarted: bool): int {
    if restarted || current < previous then current else current - previous
  }

  function Stored(t: Usage, protocol: Name, user: Name): Counters {
    if UserKey(protocol, user) in t.counters then t.counters[UserKey(protocol, user)] else ZERO
  }

  predicate Restarted(t: Usage, protocol: Name, s: Snapshot) {
    protocol in t.services && s.uptime < t.services[protocol].uptime
  }

  function Delta(t: Usage, protocol: Name, s: Snapshot, user: Name): Counters
    requires user in s.counters
  {
    var previous, restarted := Stored(t, protocol, user), Restarted(t, protocol, s);
    Counters(CounterDelta(s.counters[user].up, previous.up, restarted),
             CounterDelta(s.counters[user].down, previous.down, restarted))
  }

  function Add(a: Counters, b: Counters): Counters {
    Counters(a.up + b.up, a.down + b.down)
  }

  function DayValue(m: DailyUsage, key: UsageKey): Counters {
    if key in m then m[key] else ZERO
  }

  function MonthValue(m: map<MonthRow, Counters>, row: MonthRow): Counters {
    if row in m then m[row] else ZERO
  }

  /** Whether this poll spans midnight without a restart, so that its bytes may belong to either side. */
  predicate Crosses(t: Usage, protocol: Name, day: int, s: Snapshot) {
    protocol in t.services && t.services[protocol].day < day && !Restarted(t, protocol, s)
  }

  function Poll(t: Usage, protocol: Name, s: Snapshot, user: Name): PollRow
    requires user in s.counters && protocol in t.services
  {
    var previous, delta := Stored(t, protocol, user), Delta(t, protocol, s, user);
    PollRow(t.services[protocol].day,
            Counters(if s.counters[user].up >= previous.up then delta.up else 0,
                     if s.counters[user].down >= previous.down then delta.down else 0))
  }

  // --- recording a snapshot --------------------------------------------------------------

  function DailyRows(t: Usage, protocol: Name, day: int, s: Snapshot, users: set<Name>): DailyUsage
    requires users <= s.counters.Keys
  {
    map user <- users ::
      UsageKey(day, user, protocol) :=
          Add(DayValue(t.daily, UsageKey(day, user, protocol)), Delta(t, protocol, s, user))
  }

  function DailyAfter(t: Usage, protocol: Name, day: int, s: Snapshot, users: set<Name>): DailyUsage
    requires users <= s.counters.Keys
  {
    t.daily + DailyRows(t, protocol, day, s, users)
  }

  function MonthlyRows(t: Usage, protocol: Name, month: Month, s: Snapshot, users: set<Name>): map<MonthRow, Counters>
    requires users <= s.counters.Keys
  {
    map user <- users ::
      MonthRow(month, user, protocol) :=
        Add(MonthValue(t.monthly, MonthRow(month, user, protocol)), Delta(t, protocol, s, user))
  }

  function MonthlyAfter(t: Usage, protocol: Name, month: Month, s: Snapshot, users: set<Name>): map<MonthRow, Counters>
    requires users <= s.counters.Keys
  {
    t.monthly + MonthlyRows(t, protocol, month, s, users)
  }

  /** A boundary already recorded for that day is kept. */
  function PollsAfter(t: Usage, protocol: Name, day: int, s: Snapshot, users: set<Name>): map<PollKey, PollRow>
    requires users <= s.counters.Keys
  {
    if !Crosses(t, protocol, day, s) then t.polls
    else (map user <- users :: PollKey(protocol, user, day) := Poll(t, protocol, s, user)) + t.polls
  }

  /** The baselines that stay when one service's are deleted. */
  function OtherServices(counters: map<UserKey, Counters>, protocol: Name): map<UserKey, Counters> {
    map key <- counters.Keys | key.protocol != protocol :: counters[key]
  }

  function Baselines(protocol: Name, s: Snapshot): map<UserKey, Counters> {
    map user <- s.counters.Keys :: UserKey(protocol, user) := s.counters[user]
  }

  function CountersAfter(counters: map<UserKey, Counters>, protocol: Name, s: Snapshot): map<UserKey, Counters> {
    OtherServices(counters, protocol) + Baselines(protocol, s)
  }

  function Recorded(t: Usage, protocol: Name, day: nat, s: Snapshot, billingDay: int): Usage {
    var users := s.counters.Keys;
    Usage(t.services[protocol := ServiceRow(s.uptime, day)],
          CountersAfter(t.counters, protocol, s),
          DailyAfter(t, protocol, day, s, users),
          MonthlyAfter(t, protocol, CycleKey(day, billingDay), s, users),
          PollsAfter(t, protocol, day, s, users))
  }

  /** The baseline that the next poll measures from. */
  lemma StoredAfter(t: Usage, protocol: Name, day: nat, s: Snapshot, billingDay: int, p: Name, user: Name)
    ensures Stored(Recorded(t, protocol, day, s, billingDay), p, user)
         == if p != protocol then Stored(t, p, user) else if user in s.counters then s.counters[user] else ZERO
  {
  }

  // --- what a snapshot leaves in each table -----------------------------------------------------

  /** The bytes that a counter has gained since the last poll; a restarted or fallen counter has gained all it shows. */
  predicate Gained(t: Usage, protocol: Name, s: Snapshot, user: Name, dir: Direction, bytes: int)
    requires user in s.counters
  {
    var now := Get(s.counters[user], dir);
    var last := if UserKey(protocol, user) in t.counters then Get(t.counters[UserKey(protocol, user)], dir) else 0;
    var restarted := protocol in t.services && s.uptime < t.services[protocol].uptime;
    bytes == if restarted || now < last then now else now - last
  }

  lemma DeltaIsGained(t: Usage, protocol: Name, s: Snapshot, user: Name, dir: Direction)
    requires user in s.counters
    ensures Gained(t, protocol, s, user, dir, Get(Delta(t, protocol, s, user), dir))
  {
  }

  /** Each reported user's row of that day, and its row of the month whose cycle holds the day, grow by what was
      gained; no other row of a user changes. */
  lemma RecordedBuckets(t: Usage, protocol: Name, day: nat, s: Snapshot, billingDay: int, key: UsageKey, row: MonthRow,
                        dir: Direction)
    ensures var t' := Recorded(t, protocol, day, s, billingDay);
      && (if key.day == day && key.protocol == protocol && key.user in s.counters
          then Gained(t, protocol, s, key.user, dir, At(t'.daily, key, dir) - At(t.daily, key, dir))
          else At(t'.daily, key, dir) == At(t.daily, key, dir))
      && (if row.month == CycleKey(day, billingDay) && row.protocol == protocol && row.user in s.counters
          then Gained(t, protocol, s, row.user, dir,
                      Get(MonthValue(t'.monthly, row), dir) - Get(MonthValue(t.monthly, row), dir))
          else MonthValue(t'.monthly, row) == MonthValue(t.monthly, row))
  {
    DailyMoves(t, protocol, day, s, key, dir);
    MonthlyMoves(t, protocol, CycleKey(day, billingDay), s, row, dir);
    if key.user in s.counters {
      DeltaIsGained(t, protocol, s, key.user, dir);
    }
    if row.user in s.counters {
      DeltaIsGained(t, protocol, s, row.user, dir);
    }
  }

  /** A boundary is new exactly when the service was polled on an earlier day, has not restarted, and none ends on this
      day yet. It starts on that earlier day. */
  lemma RecordedBoundaries(t: Usage, protocol: Name, day: nat, s: Snapshot, billingDay: int, key: PollKey)
    ensures var polls := Recorded(t, protocol, day, s, billingDay).polls;
      && (key in t.polls ==> key in polls && polls[key] == t.polls[key])
      && (key in polls && key !in t.polls <==>
            && key !in t.polls && key.protocol == protocol && key.end == day && key.user in s.counters
            && protocol in t.services && t.services[protocol].day < day && t.services[protocol].uptime <= s.uptime)
      && (key in polls && key !in t.polls ==> polls[key].start == t.services[protocol].day)
  {
  }

  /** In each direction a new boundary holds what its user's row of the day grew by, or nothing if the counter fell. */
  lemma RecordedBoundaryHolds(t: Usage, protocol: Name, day: nat, s: Snapshot, billingDay: int, user: Name,
                              dir: Direction)
    requires user in s.counters && PollKey(protocol, user, day) !in t.polls
    requires PollKey(protocol, user, day) in Recorded(t, protocol, day, s, billingDay).polls
    ensures var t', key := Recorded(t, protocol, day, s, billingDay), UsageKey(day, user, protocol);
      var last := if UserKey(protocol, user) in t.counters then Get(t.counters[UserKey(protocol, user)], dir) else 0;
      Get(t'.polls[PollKey(protocol, user, day)].counters, dir)
        == if Get(s.counters[user], dir) < last then 0 else At(t'.daily, key, dir) - At(t.daily, key, dir)
  {
    DailyMoves(t, protocol, day, s, UsageKey(day, user, protocol), dir);
  }

  /** The service remembers the day and the uptime, and the counters of exactly the users that were reported. */
  lemma RecordedBaselines(t: Usage, protocol: Name, day: nat, s: Snapshot, billingDay: int, key: UserKey)
    ensures Recorded(t, protocol, day, s, billingDay).services == t.services[protocol := ServiceRow(s.uptime, day)]
    ensures var counters := Recorded(t, protocol, day, s, billingDay).counters;
      if key.protocol == protocol
      then (key in counters <==> key.user in s.counters) && (key in counters ==> counters[key] == s.counters[key.user])
      else (key in counters <==> key in t.counters) && (key in counters ==> counters[key] == t.counters[key])
  {
    BaselineAt(t.counters, protocol, s, key);
  }

  lemma BaselineAt(counters: map<UserKey, Counters>, protocol: Name, s: Snapshot, key: UserKey)
    ensures var after := CountersAfter(counters, protocol, s);
      if key.protocol == protocol
      then (key in after <==> key.user in s.counters) && (key in after ==> after[key] == s.counters[key.user])
      else (key in after <==> key in counters) && (key in after ==> after[key] == counters[key])
  {
  }

  // --- the daily and monthly identity -------------------------------------------------------

  /** The total of one user's daily rows over a cycle's window. */
  function CycleTotal(daily: DailyUsage, row: MonthRow, billingDay: int, dir: Direction): int {
    OwnerTotal(daily, row.user, row.protocol, StartDay(row.month, billingDay), StartDay(Next(row.month), billingDay),
               dir)
  }

  /** Every month row is the sum of its user's and protocol's daily rows over that cycle's window. */
  ghost predicate Identity(t: Usage, billingDay: int) {
    forall row: MonthRow, dir :: ValidMonth(row.month) ==> Drift(t, billingDay, row, dir) == 0
  }

  /** Moving one day's row moves a span's total by the same amount, exactly when the span holds the day. */
  lemma {:induction false} MovedTotal(a: DailyUsage, b: DailyUsage, user: Name, protocol: Name, day: int, change: int,
                                      from: int, until: int, dir: Direction)
    requires forall d :: At(b, UsageKey(d, user, protocol), dir)
                      == At(a, UsageKey(d, user, protocol), dir) + if d == day then change else 0
    ensures OwnerTotal(b, user, protocol, from, until, dir)
         == OwnerTotal(a, user, protocol, from, until, dir) + if from <= day < until then change else 0
    decreases until - from
  {
    if from < until {
      MovedTotal(a, b, user, protocol, day, change, from, until - 1, dir);
    }
  }

  /** What a snapshot adds to one user's bucket. */
  function Change(t: Usage, protocol: Name, s: Snapshot, user: Name, p: Name, dir: Direction): int {
    if p == protocol && user in s.counters then Get(Delta(t, protocol, s, user), dir) else 0
  }

  lemma DailyMoves(t: Usage, protocol: Name, day: nat, s: Snapshot, key: UsageKey, dir: Direction)
    ensures At(DailyAfter(t, protocol, day, s, s.counters.Keys), key, dir)
         == At(t.daily, key, dir) + if key.day == day then Change(t, protocol, s, key.user, key.protocol, dir) else 0
  {
  }

  lemma MonthlyMoves(t: Usage, protocol: Name, month: Month, s: Snapshot, row: MonthRow, dir: Direction)
    ensures Get(MonthValue(MonthlyAfter(t, protocol, month, s, s.counters.Keys), row), dir)
         == Get(MonthValue(t.monthly, row), dir) +
             if row.month == month then Change(t, protocol, s, row.user, row.protocol, dir) else 0
  {
  }

  /** How far a month row is from the total of its days. */
  function Drift(t: Usage, billingDay: int, row: MonthRow, dir: Direction): int {
    Get(MonthValue(t.monthly, row), dir) - CycleTotal(t.daily, row, billingDay, dir)
  }

  /** Both buckets take the same delta, and a day lies in exactly the window of its key: a snapshot leaves the drift
      of every month row as it was. */
  lemma RecordKeepsDrift(t: Usage, protocol: Name, day: nat, s: Snapshot, billingDay: int, row: MonthRow,
                         dir: Direction)
    requires FIRST_DAY <= day && 1 <= billingDay <= 31 && ValidMonth(row.month)
    ensures Drift(Recorded(t, protocol, day, s, billingDay), billingDay, row, dir) == Drift(t, billingDay, row, dir)
  {
    RecordMovesTotal(t, protocol, day, s, row.user, row.protocol,
                     StartDay(row.month, billingDay), StartDay(Next(row.month), billingDay), dir);
    CyclesTile(day, billingDay, row.month);
    MonthlyMoves(t, protocol, CycleKey(day, billingDay), s, row, dir);
  }

  lemma RecordMovesTotal(t: Usage, protocol: Name, day: nat, s: Snapshot, user: Name, p: Name, from: int, until: int,
                         dir: Direction)
    ensures OwnerTotal(DailyAfter(t, protocol, day, s, s.counters.Keys), user, p, from, until, dir)
         == OwnerTotal(t.daily, user, p, from, until, dir) +
             if from <= day < until then Change(t, protocol, s, user, p, dir) else 0
  {
    var daily := DailyAfter(t, protocol, day, s, s.counters.Keys);
    var change := Change(t, protocol, s, user, p, dir);
    forall d ensures At(daily, UsageKey(d, user, p), dir)
                  == At(t.daily, UsageKey(d, user, p), dir) + if d == day then change else 0
    {
      DailyMoves(t, protocol, day, s, UsageKey(d, user, p), dir);
    }
    MovedTotal(t.daily, daily, user, p, day, change, from, until, dir);
  }

  ghost predicate OnDates(daily: DailyUsage) {
    forall key <- daily :: FIRST_DAY <= key.day
  }

  datatype PollEvent = PollEvent(protocol: Name, day: nat, snapshot: Snapshot)

  function AfterPolls(t: Usage, polls: seq<PollEvent>, billingDay: int): Usage {
    if polls == [] then t
    else
      var p := polls[|polls| - 1];
      Recorded(AfterPolls(t, polls[..|polls| - 1], billingDay), p.protocol, p.day, p.snapshot, billingDay)
  }

  lemma {:induction false} NoUsageTotal(user: Name, protocol: Name, from: int, until: int, dir: Direction)
    ensures OwnerTotal(map[], user, protocol, from, until, dir) == 0
    decreases until - from
  {
    if from < until {
      NoUsageTotal(user, protocol, from, until - 1, dir);
    }
  }

  lemma {:induction false} PollsKeepDrift(t: Usage, polls: seq<PollEvent>, billingDay: int, row: MonthRow,
                                          dir: Direction)
    requires 1 <= billingDay <= 31 && ValidMonth(row.month) && forall p <- polls :: FIRST_DAY <= p.day
    ensures Drift(AfterPolls(t, polls, billingDay), billingDay, row, dir) == Drift(t, billingDay, row, dir)
  {
    if polls != [] {
      var init, p := polls[..|polls| - 1], polls[|polls| - 1];
      assert polls == init + [p];
      assert p in polls;
      PollsKeepDrift(t, init, billingDay, row, dir);
      RecordKeepsDrift(AfterPolls(t, init, billingDay), p.protocol, p.day, p.snapshot, billingDay, row, dir);
    }
  }

  /** From an empty store, after any polls under one billing day, every month row is the sum of its user's and
      protocol's daily rows over that cycle's window. */
  lemma MonthsEqualTheirDays(polls: seq<PollEvent>, billingDay: int)
    requires 1 <= billingDay <= 31 && forall p <- polls :: FIRST_DAY <= p.day
    ensures Identity(AfterPolls(NO_USAGE, polls, billingDay), billingDay)
  {
    forall row: MonthRow, dir | ValidMonth(row.month)
      ensures Drift(AfterPolls(NO_USAGE, polls, billingDay), billingDay, row, dir) == 0
    {
      NoUsageTotal(row.user, row.protocol, StartDay(row.month, billingDay), StartDay(Next(row.month), billingDay), dir);
      PollsKeepDrift(NO_USAGE, polls, billingDay, row, dir);
    }
  }

  // --- poll intervals -----------------------------------------------------------------------

  predicate Follows(polls: map<PollKey, PollRow>, a: PollKey, b: PollKey)
    requires a in polls && b in polls
  {
    a.protocol == b.protocol && a.user == b.user && a.end < b.end ==> a.end <= polls[b].start
  }

  predicate Ended(polls: map<PollKey, PollRow>, services: map<Name, ServiceRow>, key: PollKey)
    requires key in polls
  {
    polls[key].start < key.end && key.protocol in services && key.end <= services[key.protocol].day
  }

  /** Each owner's poll intervals follow one another and end by the day the service was last polled. */
  ghost predicate PollsFollow(polls: map<PollKey, PollRow>, services: map<Name, ServiceRow>) {
    && (forall key <- polls :: Ended(polls, services, key))
    && (forall a <- polls, b <- polls :: Follows(polls, a, b))
  }

  /** Never negative, whatever the counters did: a counter that fell contributes nothing. */
  ghost predicate PollsAtLeastZero(polls: map<PollKey, PollRow>) {
    forall key <- polls :: AtLeastZero(polls[key].counters)
  }

  lemma RecordKeepsPollsAtLeastZero(t: Usage, protocol: Name, day: nat, s: Snapshot)
    requires PollsAtLeastZero(t.polls)
    ensures PollsAtLeastZero(PollsAfter(t, protocol, day, s, s.counters.Keys))
  {
  }

  lemma RecordKeepsDates(t: Usage, protocol: Name, day: nat, s: Snapshot)
    requires OnDates(t.daily) && FIRST_DAY <= day
    ensures OnDates(DailyAfter(t, protocol, day, s, s.counters.Keys))
  {
  }

  lemma PollRowsAfter(t: Usage, protocol: Name, day: nat, s: Snapshot, key: PollKey)
    requires key in PollsAfter(t, protocol, day, s, s.counters.Keys)
    ensures var polls := PollsAfter(t, protocol, day, s, s.counters.Keys);
      if key in t.polls then polls[key] == t.polls[key]
      else
        && Crosses(t, protocol, day, s) && key.protocol == protocol && key.end == day
        && polls[key].start == t.services[protocol].day
  {
  }

  /** When local dates never go backwards, intervals stay disjoint, and no poll ever meets a boundary recorded
      before. */
  lemma RecordKeepsPollsFollowing(t: Usage, protocol: Name, day: nat, s: Snapshot)
    requires PollsFollow(t.polls, t.services) && (protocol in t.services ==> t.services[protocol].day <= day)
    ensures PollsFollow(PollsAfter(t, protocol, day, s, s.counters.Keys),
                        t.services[protocol := ServiceRow(s.uptime, day)])
    ensures Crosses(t, protocol, day, s) ==> forall user :: PollKey(protocol, user, day) !in t.polls
  {
    var polls, services := PollsAfter(t, protocol, day, s, s.counters.Keys),
        t.services[protocol := ServiceRow(s.uptime, day)];
    forall key | key in polls ensures Ended(polls, services, key) {
      PollRowsAfter(t, protocol, day, s, key);
      assert key in t.polls ==> Ended(t.polls, t.services, key);
    }
    forall a, b | a in polls && b in polls ensures Follows(polls, a, b) {
      PollRowsAfter(t, protocol, day, s, a);
      PollRowsAfter(t, protocol, day, s, b);
      assert a in t.polls ==> Ended(t.polls, t.services, a);
      assert b in t.polls ==> Ended(t.polls, t.services, b);
      assert a in t.polls && b in t.polls ==> Follows(t.polls, a, b);
    }
    forall user ensures Crosses(t, protocol, day, s) ==> PollKey(protocol, user, day) !in t.polls {
      assert PollKey(protocol, user, day) in t.polls ==> Ended(t.polls, t.services, PollKey(protocol, user, day));
    }
  }

  ghost predicate PolledBy(t: Usage, day: int) {
    forall p <- t.services :: t.services[p].day <= day
  }

  lemma OneMoreFollows(t: Usage, p: PollEvent, billingDay: int, day: int)
    requires PollsFollow(t.polls, t.services) && PolledBy(t, p.day) && p.day <= day
    ensures var t' := Recorded(t, p.protocol, p.day, p.snapshot, billingDay);
      PollsFollow(t'.polls, t'.services) && PolledBy(t', day)
  {
    RecordKeepsPollsFollowing(t, p.protocol, p.day, p.snapshot);
  }

  lemma {:induction false} PollsStayFollowing(polls: seq<PollEvent>, billingDay: int, day: int)
    requires forall i, j :: 0 <= i < j < |polls| ==> polls[i].day <= polls[j].day
    requires polls != [] ==> polls[|polls| - 1].day <= day
    ensures var t := AfterPolls(NO_USAGE, polls, billingDay); PollsFollow(t.polls, t.services) && PolledBy(t, day)
  {
    if polls != [] {
      var init, p := polls[..|polls| - 1], polls[|polls| - 1];
      PollsStayFollowing(init, billingDay, p.day);
      OneMoreFollows(AfterPolls(NO_USAGE, init, billingDay), p, billingDay, day);
    }
  }

  predicate IsPoll(t: Usage, b: PollBoundary) {
    var key := PollKey(b.protocol, b.user, b.end);
    key in t.polls && b.start == t.polls[key].start && b.counters == t.polls[key].counters
  }

  /** The rows of the table, each once, in some order. */
  ghost predicate ListsPolls(rows: seq<PollBoundary>, t: Usage) {
    forall b :: multiset(rows)[b] == if IsPoll(t, b) then 1 else 0
  }

  /** So the matching of days across midnight always works on disjoint intervals. */
  lemma PollsAreDisjoint(t: Usage, rows: seq<PollBoundary>)
    requires PollsFollow(t.polls, t.services) && ListsPolls(rows, t)
    ensures Disjoint(multiset(rows))
  {
    forall b | b in multiset(rows) ensures b.start < b.end && multiset(rows)[b] == 1 {
      assert IsPoll(t, b) && Ended(t.polls, t.services, PollKey(b.protocol, b.user, b.end));
    }
    forall a, b | a in multiset(rows) && b in multiset(rows) && a != b ensures Apart(a, b) {
      assert IsPoll(t, a) && IsPoll(t, b);
      var i, j := PollKey(a.protocol, a.user, a.end), PollKey(b.protocol, b.user, b.end);
      assert Follows(t.polls, i, j) && Follows(t.polls, j, i);
    }
  }
}
