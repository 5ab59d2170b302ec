/** The poller's half of the store: snapshots, the billing day and the residuals that the stream left unexplained. */
module UsageStore {
  import opened Accounting
  import opened Calendar
  import opened Reconciliation
  import opened Metering
  import opened BillingDay

  const DEFAULT_BILLING_DAY := 1

  // --- recording user by user -----------------------------------------------------------------

  lemma OverlayPut<K, V>(a: map<K, V>, b: map<K, V>, key: K, value: V)
    ensures (a + b)[key := value] == a + b[key := value]
  {
  }

  lemma DailyRowsStep(t: Usage, protocol: Name, day: int, s: Snapshot, users: set<Name>, user: Name)
    requires users + {user} <= s.counters.Keys
    ensures var key := UsageKey(day, user, protocol);
      DailyRows(t, protocol, day, s, users + {user})
        == DailyRows(t, protocol, day, s, users)[key := Add(DayValue(t.daily, key), Delta(t, protocol, s, user))]
  {
  }

  lemma DailyStep(t: Usage, protocol: Name, day: int, s: Snapshot, users: set<Name>, user: Name)
    requires users + {user} <= s.counters.Keys && user !in users
    ensures var key, daily := UsageKey(day, user, protocol), DailyAfter(t, protocol, day, s, users);
      DailyAfter(t, protocol, day, s, users + {user})
          == daily[key := Add(DayValue(daily, key), Delta(t, protocol, s, user))]
  {
    var key, rows := UsageKey(day, user, protocol), DailyRows(t, protocol, day, s, users);
    DailyRowsStep(t, protocol, day, s, users, user);
    assert key !in rows;
    OverlayPut(t.daily, rows, key, Add(DayValue(t.daily, key), Delta(t, protocol, s, user)));
  }

  lemma MonthlyRowsStep(t: Usage, protocol: Name, month: Month, s: Snapshot, users: set<Name>, user: Name)
    requires users + {user} <= s.counters.Keys
    ensures var row := MonthRow(month, user, protocol);
      MonthlyRows(t, protocol, month, s, users + {user})
        == MonthlyRows(t, protocol, month, s, users)
             [row := Add(MonthValue(t.monthly, row), Delta(t, protocol, s, user))]
  {
  }

  lemma MonthlyStep(t: Usage, protocol: Name, month: Month, s: Snapshot, users: set<Name>, user: Name)
    requires users + {user} <= s.counters.Keys && user !in users
    ensures var row, monthly := MonthRow(month, user, protocol), MonthlyAfter(t, protocol, month, s, users);
      MonthlyAfter(t, protocol, month, s, users + {user})
          == monthly[row := Add(MonthValue(monthly, row), Delta(t, protocol, s, user))]
  {
    var row, rows := MonthRow(month, user, protocol), MonthlyRows(t, protocol, month, s, users);
    MonthlyRowsStep(t, protocol, month, s, users, user);
    assert row !in rows;
    OverlayPut(t.monthly, rows, row, Add(MonthValue(t.monthly, row), Delta(t, protocol, s, user)));
  }

  lemma PollsStep(t: Usage, protocol: Name, day: int, s: Snapshot, users: set<Name>, user: Name)
    requires users + {user} <= s.counters.Keys && user !in users
    ensures var key, polls := PollKey(protocol, user, day), PollsAfter(t, protocol, day, s, users);
      PollsAfter(t, protocol, day, s, users + {user})
        == if Crosses(t, protocol, day, s) && key !in polls then polls[key := Poll(t, protocol, s, user)] else polls
  {
  }

  lemma RecordedNothing(t: Usage, protocol: Name, day: int, month: Month, s: Snapshot)
    ensures DailyAfter(t, protocol, day, s, {}) == t.daily
    ensures MonthlyAfter(t, protocol, month, s, {}) == t.monthly
    ensures PollsAfter(t, protocol, day, s, {}) == t.polls
  {
  }

  // --- residuals --------------------------------------------------------------------------------

  /** What the polls saw and the stream did not attribute. */
  function Residual(daily: DailyUsage, observed: Residuals): Residuals {
    map key <- daily.Keys + observed.Keys ::
      Counters(At(daily, key, Up) - At(observed, key, Up), At(daily, key, Down) - At(observed, key, Down))
  }

  /** How much larger the gaps of these rows became. */
  function Growth(gaps: Residuals, before: Residuals, rows: seq<UsageKey>): (r: nat) {
    if rows == [] then 0
    else
      var key := rows[|rows| - 1];
      Growth(gaps, before, rows[..|rows| - 1])
      + Positive(At(gaps, key, Up) - At(before, key, Up)) + Positive(At(gaps, key, Down) - At(before, key, Down))
  }

  lemma GrowthAppend(gaps: Residuals, before: Residuals, rows: seq<UsageKey>, key: UsageKey)
    ensures Growth(gaps, before, rows + [key])
         == Growth(gaps, before, rows)
            + Positive(At(gaps, key, Up) - At(before, key, Up)) + Positive(At(gaps, key, Down) - At(before, key, Down))
  {
    assert (rows + [key])[..|rows|] == rows;
  }

  /** All bytes of some rows, and those of them that were there before. */
  function Bytes(gaps: Residuals, rows: seq<UsageKey>): int {
    if rows == [] then 0
    else
      var key := rows[|rows| - 1];
      Bytes(gaps, rows[..|rows| - 1]) + At(gaps, key, Up) + At(gaps, key, Down)
  }

  function Kept(gaps: Residuals, before: Residuals, rows: seq<UsageKey>): int {
    if rows == [] then 0
    else
      var key := rows[|rows| - 1];
      Kept(gaps, before, rows[..|rows| - 1])
      + Min(At(gaps, key, Up), At(before, key, Up)) + Min(At(gaps, key, Down), At(before, key, Down))
  }

  /** What is parked makes up, with what was parked before and still is, all that is parked now. */
  lemma {:induction false} ParkedIsNew(gaps: Residuals, before: Residuals, rows: seq<UsageKey>)
    ensures Growth(gaps, before, rows) == Bytes(gaps, rows) - Kept(gaps, before, rows)
  {
    if rows != [] {
      ParkedIsNew(gaps, before, rows[..|rows| - 1]);
    }
  }

  ghost predicate NoGapGrew(gaps: Residuals, before: Residuals) {
    forall key <- gaps, dir :: At(gaps, key, dir) <= At(before, key, dir)
  }

  ghost predicate ListsKeys(rows: seq<UsageKey>, gaps: Residuals) {
    (forall i, j :: 0 <= i < j < |rows| ==> rows[i] != rows[j]) && forall key :: key in rows <==> key in gaps
  }

  lemma {:induction false} GrowthIsNone(gaps: Residuals, before: Residuals, rows: seq<UsageKey>)
    ensures Growth(gaps, before, rows) == 0 <==> forall key <- rows, dir :: At(gaps, key, dir) <= At(before, key, dir)
  {
    if rows != [] {
      var init, last := rows[..|rows| - 1], rows[|rows| - 1];
      assert rows == init + [last];
      GrowthIsNone(gaps, before, init);
      assert last in rows;
      if Growth(gaps, before, rows) == 0 {
        forall key, dir | key in rows ensures At(gaps, key, dir) <= At(before, key, dir) {
          assert key in init || key == last;
          if dir == Up {} else {}
        }
      }
    }
  }

  /** Nothing was parked exactly when no gap grew. */
  lemma ParkedNothing(gaps: Residuals, before: Residuals, rows: seq<UsageKey>)
    requires ListsKeys(rows, gaps)
    ensures Growth(gaps, before, rows) == 0 <==> NoGapGrew(gaps, before)
  {
    GrowthIsNone(gaps, before, rows);
  }

  function Listed(t: Usage, done: set<PollKey>, b: PollBoundary): nat {
    if IsPoll(t, b) && PollKey(b.protocol, b.user, b.end) in done then 1 else 0
  }

  class UsageStore {
    var services: map<Name, ServiceRow>
    var counters: map<UserKey, Counters>
    var daily: DailyUsage
    var monthly: MonthlyUsage
    var polls: map<PollKey, PollRow>
    var basis: Option<int>
    var unattributed: Residuals
    var offsets: set<BoundaryOffset>

    ghost function Contents(): Usage
      reads this
    {
      Usage(services, counters, daily, monthly, polls)
    }

    /** A stored billing day is a valid one, and no poll row is negative. */
    ghost predicate Valid()
      reads this
    {
      && (basis.Some? ==> 1 <= basis.value <= 31)
      && OnDates(daily)
      && PollsAtLeastZero(polls)
    }

    constructor ()
      ensures Valid() && Contents() == NO_USAGE && basis == None && unattributed == map[] && offsets == {}
    {
      services, counters, daily, monthly, polls := map[], map[], map[], map[], map[];
      basis, unattributed, offsets := None, map[], {};
    }

    /** One poll's deltas go to the day and to the month whose cycle holds it. */
    method RecordSnapshot(protocol: Name, day: nat, s: Snapshot, billingDay: int)
      requires Valid() && FIRST_DAY <= day && 1 <= billingDay <= 31
      modifies this`services, this`counters, this`daily, this`monthly, this`polls
      ensures Valid() && Contents() == Recorded(old(Contents()), protocol, day, s, billingDay)
    {
      RecordKeepsPollsAtLeastZero(Contents(), protocol, day, s);
      RecordKeepsDates(Contents(), protocol, day, s);
      RecordUsers(protocol, day, CycleKey(day, billingDay), s);
      counters := OtherServices(counters, protocol);
      counters := counters + Baselines(protocol, s);
      services := services[protocol := ServiceRow(s.uptime, day)];
    }

    /** The buckets after some of the users have been recorded. */
    ghost predicate Holds(t: Usage, protocol: Name, day: int, month: Month, s: Snapshot, users: set<Name>)
      requires users <= s.counters.Keys
      reads this
    {
      && services == t.services && counters == t.counters
      && daily == DailyAfter(t, protocol, day, s, users)
      && monthly == MonthlyAfter(t, protocol, month, s, users)
      && polls == PollsAfter(t, protocol, day, s, users)
    }

    method RecordUsers(protocol: Name, day: nat, month: Month, s: Snapshot)
      modifies this`daily, this`monthly, this`polls
      ensures Holds(old(Contents()), protocol, day, month, s, s.counters.Keys)
    {
      ghost var t := Contents();
      var done, left := {}, s.counters.Keys;
      RecordedNothing(t, protocol, day, month, s);
      while left != {}
        invariant done !! left && done + left == s.counters.Keys
        invariant Holds(t, protocol, day, month, s, done)
        decreases left
      {
        var user: Name :| user in left;
        RecordUser(protocol, day, month, s, user, t, done);
        done, left := done + {user}, left - {user};
      }
    }

    method RecordUser(protocol: Name, day: nat, month: Month, s: Snapshot, user: Name, ghost t: Usage,
                      ghost done: set<Name>)
      requires done + {user} <= s.counters.Keys && user !in done
      requires Holds(t, protocol, day, month, s, done)
      modifies this`daily, this`monthly, this`polls
      ensures Holds(t, protocol, day, month, s, done + {user})
    {
      DailyStep(t, protocol, day, s, done, user);
      MonthlyStep(t, protocol, month, s, done, user);
      PollsStep(t, protocol, day, s, done, user);
      var restarted := protocol in services && s.uptime < services[protocol].uptime;
      var current := s.counters[user];
      var previous := if UserKey(protocol, user) in counters then counters[UserKey(protocol, user)] else ZERO;
      var delta := Counters(CounterDelta(current.up, previous.up, restarted),
                            CounterDelta(current.down, previous.down, restarted));
      if protocol in services && services[protocol].day < day && !restarted {
        if PollKey(protocol, user, day) !in polls {
          polls := polls[PollKey(protocol, user, day) :=
            PollRow(services[protocol].day, Counters(if current.up >= previous.up then delta.up else 0,
                                                     if current.down >= previous.down then delta.down else 0))];
        }
      }
      var row, key := MonthRow(month, user, protocol), UsageKey(day, user, protocol);
      monthly := monthly[row := Add(MonthValue(monthly, row), delta)];
      daily := daily[key := Add(DayValue(daily, key), delta)];
    }

    /** Rebuilds exactly when the billing day differs from the one the rows were built under. */
    method ReconcileBillingDay(billingDay: int) returns (rebuilt: bool, ghost months: set<Month>, ghost first: int)
      requires Valid() && 1 <= billingDay <= 31
      modifies this`monthly, this`basis
      ensures Valid() && rebuilt == (billingDay != if old(basis).Some? then old(basis).value else 1)
      ensures !rebuilt ==> monthly == old(monthly) && basis == old(basis)
      ensures rebuilt ==>
        && basis == Some(billingDay)
        && FromFirst(months, daily, first, billingDay)
        && Rebuilt(daily, old(monthly), monthly, months, billingDay)
    {
      var stored := if basis.Some? then basis.value else DEFAULT_BILLING_DAY;
      if stored == billingDay {
        return false, {}, 0;
      }
      monthly, months, first := RecomputeMonthlyUsage(daily, monthly, billingDay);
      basis := Some(billingDay);
      rebuilt := true;
    }

    method ListPolls() returns (rows: seq<PollBoundary>)
      ensures ListsPolls(rows, Contents())
    {
      rows := [];
      var done, left := {}, polls.Keys;
      while left != {}
        invariant done !! left && done + left == polls.Keys
        invariant forall b :: multiset(rows)[b] == Listed(Contents(), done, b)
        decreases left
      {
        var key :| key in left;
        rows := rows + [PollBoundary(polls[key].start, key.end, key.user, key.protocol, polls[key].counters)];
        done, left := done + {key}, left - {key};
      }
    }

    /** Replaces the unattributed rows and the offsets by what one matching pass leaves; observed holds the domain
        rows of the stream, summed per day, user and protocol. The ghost results name what the contract speaks of. */
    method ReconcileDomainAttribution(observed: Residuals)
        returns (parked: nat, ghost remaining: Residuals, ghost moved: seq<BoundaryOffset>,
                 ghost sorted: seq<PollBoundary>, ghost rows: seq<UsageKey>, ghost stages: seq<Residuals>,
                 ghost parts: seq<seq<BoundaryOffset>>)
      requires Valid()
      modifies this`unattributed, this`offsets
      ensures ListsPolls(sorted, Contents()) && Sorted(sorted)
      ensures Pass(Residual(daily, observed), remaining, moved, multiset(sorted), sorted)
      ensures Successively(stages, parts, sorted) && InParts(moved, parts, sorted)
      ensures stages[0] == Residual(daily, observed) && stages[|sorted|] == remaining
      ensures unattributed == GapsOf(remaining)
      ensures offsets == set o <- moved
      ensures ListsKeys(rows, unattributed) && parked == Growth(unattributed, old(unattributed), rows)
    {
      var residuals := Residual(daily, observed);
      var boundaries := ListPolls();
      forall b: PollBoundary | b in multiset(boundaries) ensures AtLeastZero(b.counters) {
        assert IsPoll(Contents(), b);
      }
      var gaps, shares, left, order, split, steps := ReconcileBoundaries(residuals, boundaries);
      remaining, moved, sorted, parts, stages := left, shares, order, split, steps;
      parked, rows := Parked(gaps, unattributed);
      unattributed := gaps;
      offsets := set o <- shares;
    }
  }

  /** The bytes by which gaps grew. */
  method Parked(gaps: Residuals, previous: Residuals) returns (parked: nat, ghost rows: seq<UsageKey>)
    ensures ListsKeys(rows, gaps) && parked == Growth(gaps, previous, rows)
  {
    parked, rows := 0, [];
    var keys := gaps.Keys;
    while keys != {}
      invariant keys <= gaps.Keys
      invariant forall i, j :: 0 <= i < j < |rows| ==> rows[i] != rows[j]
      invariant forall key :: key in rows <==> key in gaps && key !in keys
      invariant parked == Growth(gaps, previous, rows)
      decreases keys
    {
      var key :| key in keys;
      parked := parked + Positive(At(gaps, key, Up) - At(previous, key, Up))
                       + Positive(At(gaps, key, Down) - At(previous, key, Down));
      GrowthAppend(gaps, previous, rows, key);
      rows := rows + [key];
      keys := keys - {key};
    }
  }

  // --- what reconciling twice, or after more of the stream, does -----------------------------------

  lemma SamePolls(t: Usage, a: seq<PollBoundary>, b: seq<PollBoundary>)
    requires ListsPolls(a, t) && ListsPolls(b, t)
    ensures multiset(a) == multiset(b)
  {
    assert forall x :: multiset(a)[x] == multiset(b)[x];
  }

  lemma ListedAtLeastZero(t: Usage, rows: seq<PollBoundary>)
    requires ListsPolls(rows, t) && PollsAtLeastZero(t.polls)
    ensures forall b <- multiset(rows) :: AtLeastZero(b.counters)
  {
    forall b: PollBoundary | b in multiset(rows) ensures AtLeastZero(b.counters) {
      assert IsPoll(t, b);
    }
  }

  /** With no new data, reconciling again writes the same rows and parks nothing. */
  lemma RerunParksNothing(t: Usage, residuals: Residuals, m1: Residuals, m2: Residuals,
                          moved1: seq<BoundaryOffset>, moved2: seq<BoundaryOffset>,
                          sorted1: seq<PollBoundary>, sorted2: seq<PollBoundary>, rows: seq<UsageKey>)
    requires PollsFollow(t.polls, t.services) && PollsAtLeastZero(t.polls)
    requires ListsPolls(sorted1, t) && Sorted(sorted1) && Pass(residuals, m1, moved1, multiset(sorted1), sorted1)
    requires ListsPolls(sorted2, t) && Sorted(sorted2) && Pass(residuals, m2, moved2, multiset(sorted2), sorted2)
    requires ListsKeys(rows, GapsOf(m2))
    ensures GapsOf(m2) == GapsOf(m1) && (set o <- moved2) == (set o <- moved1)
    ensures Growth(GapsOf(m2), GapsOf(m1), rows) == 0
  {
    SamePolls(t, sorted1, sorted2);
    ListedAtLeastZero(t, sorted1);
    PollsAreDisjoint(t, sorted1);
    RerunAgrees(residuals, m1, m2, moved1, moved2, multiset(sorted1), sorted1, sorted2);
    ParkedNothing(GapsOf(m2), GapsOf(m1), rows);
  }

  /** Bytes that the stream attributes late never raise a gap. */
  lemma FlushNeverRaisesAGap(t: Usage, observed: Residuals, later: Residuals, m1: Residuals, m2: Residuals,
                             moved1: seq<BoundaryOffset>, moved2: seq<BoundaryOffset>,
                             sorted1: seq<PollBoundary>, sorted2: seq<PollBoundary>, key: UsageKey, dir: Direction)
    requires PollsFollow(t.polls, t.services) && PollsAtLeastZero(t.polls)
    requires forall k :: At(observed, k, dir) <= At(later, k, dir)
    requires ListsPolls(sorted1, t) && Sorted(sorted1)
        && Pass(Residual(t.daily, observed), m1, moved1, multiset(sorted1), sorted1)
    requires ListsPolls(sorted2, t) && Sorted(sorted2)
        && Pass(Residual(t.daily, later), m2, moved2, multiset(sorted2), sorted2)
    ensures At(GapsOf(m2), key, dir) <= At(GapsOf(m1), key, dir)
  {
    SamePolls(t, sorted1, sorted2);
    ListedAtLeastZero(t, sorted1);
    PollsAreDisjoint(t, sorted1);
    var low, high := Residual(t.daily, later), Residual(t.daily, observed);
    MatchingIsExact(high, m1, moved1, multiset(sorted1), sorted1, key, dir);
    MatchingIsExact(low, m2, moved2, multiset(sorted2), sorted2, key, dir);
    forall k ensures At(low, k, dir) <= At(high, k, dir) {
      ResidualAt(t.daily, later, k, dir);
      ResidualAt(t.daily, observed, k, dir);
    }
    LateFlushNeverRaisesAGap(low, high, multiset(sorted1), key, dir, At(GapsOf(m2), key, dir),
                             At(GapsOf(m1), key, dir));
  }

  lemma ResidualAt(daily: DailyUsage, observed: Residuals, key: UsageKey, dir: Direction)
    ensures At(Residual(daily, observed), key, dir) == At(daily, key, dir) - At(observed, key, dir)
  {
  }
}
