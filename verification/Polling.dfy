/** Polling a service that serves bytes, restarts to zero and is looked at at arbitrary moments. */
module Polling {
  import opened Accounting
  import opened Calendar
  import opened Reconciliation
  import opened Metering

  /** One service and the tables: its uptime and counters in the current run, all it ever served, and whether the
      current run has been polled. */
  datatype World = World(t: Usage, uptime: int, live: map<Name, Counters>, served: map<Name, Counters>, polled: bool)

  function Served(w: World, user: Name): Counters {
    if user in w.served then w.served[user] else ZERO
  }

  function Seen(w: World): Snapshot {
    Snapshot(w.uptime, w.live)
  }

  /** All that the daily rows hold for a user of the service. */
  function Bytes(t: Usage, protocol: Name, user: Name, horizon: int, dir: Direction): int {
    OwnerTotal(t.daily, user, protocol, 0, horizon, dir)
  }

  ghost predicate Serves(w: World, w': World) {
    && w' == w.(uptime := w'.uptime, live := w'.live, served := w'.served)
    && w.uptime <= w'.uptime && w'.live.Keys == w.live.Keys
    && (forall user <- w.live :: AtMost(w.live[user], w'.live[user]))
    && (forall user, dir :: Get(Served(w', user), dir) == Get(Served(w, user), dir)
          + if user in w.live then Get(w'.live[user], dir) - Get(w.live[user], dir) else 0)
  }

  /** A new run starts all its counters at zero; only then may the set of users change. */
  predicate Restarts(w: World, w': World) {
    && w' == w.(uptime := w'.uptime, live := w'.live, polled := false)
    && forall user <- w'.live :: w'.live[user] == ZERO
  }

  predicate IsPolled(w: World, w': World, protocol: Name, day: nat, billingDay: int) {
    w' == w.(t := Recorded(w.t, protocol, day, Seen(w), billingDay), polled := true)
  }

  predicate OtherPolled(w: World, w': World, other: Name, day: nat, s: Snapshot, billingDay: int) {
    w' == w.(t := Recorded(w.t, other, day, s, billingDay))
  }

  datatype Event =
    | Serve
    | Restart
    | PollIt(day: nat, billingDay: int)
    | PollOther(other: Name, day: nat, s: Snapshot, billingDay: int)

  ghost predicate Next(w: World, w': World, protocol: Name, e: Event) {
    match e
    case Serve => Serves(w, w')
    case Restart => Restarts(w, w')
    case PollIt(day, billingDay) => IsPolled(w, w', protocol, day, billingDay)
    case PollOther(other, day, s, billingDay) => other != protocol && OtherPolled(w, w', other, day, s, billingDay)
  }

  ghost predicate Run(worlds: seq<World>, events: seq<Event>, protocol: Name) {
    && |worlds| == |events| + 1
    && worlds[0].t == NO_USAGE && !worlds[0].polled && worlds[0].served == map[]
    && (forall user <- worlds[0].live :: worlds[0].live[user] == ZERO)
    && (forall i :: 0 <= i < |events| ==> Next(worlds[i], worlds[i + 1], protocol, events[i]))
  }

  /** Served in the current run and not recorded yet. */
  function Owed(w: World, protocol: Name, user: Name, dir: Direction): int {
    if user !in w.live then 0
    else Get(w.live[user], dir) - if w.polled then Get(Stored(w.t, protocol, user), dir) else 0
  }

  /** Whether a baseline lies between zero and what it was taken from. */
  predicate BaselineOk(w: World, protocol: Name, user: Name) {
    && AtMost(ZERO, Stored(w.t, protocol, user))
    && (user in w.live ==>
          AtMost(ZERO, w.live[user]) && (w.polled ==> AtMost(Stored(w.t, protocol, user), w.live[user])))
  }

  predicate Covers(w: World, protocol: Name, user: Name, horizon: int, dir: Direction) {
    Bytes(w.t, protocol, user, horizon, dir) + Owed(w, protocol, user, dir) <= Get(Served(w, user), dir)
  }

  ghost predicate Inv(w: World, protocol: Name, horizon: int) {
    && (w.polled ==> protocol in w.t.services && w.t.services[protocol].uptime <= w.uptime)
    && (forall user :: BaselineOk(w, protocol, user))
    && (forall user, dir :: Covers(w, protocol, user, horizon, dir))
  }

  lemma BytesAfter(t: Usage, protocol: Name, day: nat, s: Snapshot, billingDay: int, p: Name, user: Name, horizon: int,
                   dir: Direction)
    requires day < horizon
    ensures Bytes(Recorded(t, protocol, day, s, billingDay), p, user, horizon, dir)
         == Bytes(t, p, user, horizon, dir) + Change(t, protocol, s, user, p, dir)
  {
    RecordMovesTotal(t, protocol, day, s, user, p, 0, horizon, dir);
  }

  /** A poll records no more than is owed, whether or not it notices a restart. */
  lemma DeltaIsOwed(w: World, protocol: Name, user: Name, dir: Direction)
    requires BaselineOk(w, protocol, user) && user in w.live
    requires w.polled ==> !Restarted(w.t, protocol, Seen(w))
    ensures 0 <= Get(Delta(w.t, protocol, Seen(w), user), dir) <= Owed(w, protocol, user, dir)
    ensures w.polled ==> Get(Delta(w.t, protocol, Seen(w), user), dir) == Owed(w, protocol, user, dir)
  {
  }

  lemma PollKeeps(w: World, w': World, protocol: Name, day: nat, billingDay: int, horizon: int)
    requires Inv(w, protocol, horizon) && IsPolled(w, w', protocol, day, billingDay) && day < horizon
    ensures Inv(w', protocol, horizon)
  {
    forall user ensures BaselineOk(w', protocol, user) {
      assert BaselineOk(w, protocol, user);
      StoredAfter(w.t, protocol, day, Seen(w), billingDay, protocol, user);
    }
    forall user, dir ensures Covers(w', protocol, user, horizon, dir) {
      assert Covers(w, protocol, user, horizon, dir) && BaselineOk(w, protocol, user);
      StoredAfter(w.t, protocol, day, Seen(w), billingDay, protocol, user);
      BytesAfter(w.t, protocol, day, Seen(w), billingDay, protocol, user, horizon, dir);
      if user in w.live {
        DeltaIsOwed(w, protocol, user, dir);
      }
    }
  }

  lemma OtherPollKeeps(w: World, w': World, protocol: Name, other: Name, day: nat, s: Snapshot, billingDay: int,
                       horizon: int)
    requires Inv(w, protocol, horizon) && OtherPolled(w, w', other, day, s, billingDay) && other != protocol
        && day < horizon
    ensures Inv(w', protocol, horizon)
  {
    forall user ensures BaselineOk(w', protocol, user) {
      assert BaselineOk(w, protocol, user);
      StoredAfter(w.t, other, day, s, billingDay, protocol, user);
    }
    forall user, dir ensures Covers(w', protocol, user, horizon, dir) {
      assert Covers(w, protocol, user, horizon, dir);
      StoredAfter(w.t, other, day, s, billingDay, protocol, user);
      BytesAfter(w.t, other, day, s, billingDay, protocol, user, horizon, dir);
    }
  }

  lemma ServeKeeps(w: World, w': World, protocol: Name, horizon: int)
    requires Inv(w, protocol, horizon) && Serves(w, w')
    ensures Inv(w', protocol, horizon)
  {
    forall user ensures BaselineOk(w', protocol, user) {
      assert BaselineOk(w, protocol, user);
    }
    forall user, dir ensures Covers(w', protocol, user, horizon, dir) {
      assert Covers(w, protocol, user, horizon, dir);
    }
  }

  lemma RestartKeeps(w: World, w': World, protocol: Name, horizon: int)
    requires Inv(w, protocol, horizon) && Restarts(w, w')
    ensures Inv(w', protocol, horizon)
  {
    forall user ensures BaselineOk(w', protocol, user) {
      assert BaselineOk(w, protocol, user);
    }
    forall user, dir ensures Covers(w', protocol, user, horizon, dir) {
      assert Covers(w, protocol, user, horizon, dir) && BaselineOk(w, protocol, user);
    }
  }

  lemma {:induction false} RunKeeps(worlds: seq<World>, events: seq<Event>, protocol: Name, horizon: int, i: nat)
    requires Run(worlds, events, protocol) && i < |worlds|
    requires forall e <- events :: (e.PollIt? || e.PollOther?) ==> e.day < horizon
    ensures Inv(worlds[i], protocol, horizon)
  {
    if i == 0 {
      forall user, dir ensures Covers(worlds[0], protocol, user, horizon, dir) {
        NoUsageTotal(user, protocol, 0, horizon, dir);
      }
    } else {
      RunKeeps(worlds, events, protocol, horizon, i - 1);
      var w, w', e := worlds[i - 1], worlds[i], events[i - 1];
      assert e in events && Next(w, w', protocol, e);
      match e
      case Serve => ServeKeeps(w, w', protocol, horizon);
      case Restart => RestartKeeps(w, w', protocol, horizon);
      case PollIt(day, billingDay) => PollKeeps(w, w', protocol, day, billingDay, horizon);
      case PollOther(other, day, s, billingDay) => OtherPollKeeps(w, w', protocol, other, day, s, billingDay, horizon);
    }
  }

  /** Polling never overcounts: over every run, what the daily rows hold for a user is at most what was served. */
  lemma NeverOvercounts(worlds: seq<World>, events: seq<Event>, protocol: Name, horizon: int, i: nat, user: Name,
                        dir: Direction)
    requires Run(worlds, events, protocol) && i < |worlds|
    requires forall e <- events :: (e.PollIt? || e.PollOther?) ==> e.day < horizon
    ensures Bytes(worlds[i].t, protocol, user, horizon, dir) <= Get(Served(worlds[i], user), dir)
  {
    RunKeeps(worlds, events, protocol, horizon, i);
    assert Covers(worlds[i], protocol, user, horizon, dir) && BaselineOk(worlds[i], protocol, user);
  }

  // --- within one run ------------------------------------------------------------------------------

  predicate Reports(p: PollEvent, user: Name) {
    user in p.snapshot.counters
  }

  /** The counter that the user was last seen with, whether or not its baseline is still there. */
  function Latest(t: Usage, polls: seq<PollEvent>, protocol: Name, user: Name): Counters {
    if polls == [] then Stored(t, protocol, user)
    else
      var p := polls[|polls| - 1];
      if Reports(p, user) then p.snapshot.counters[user] else Latest(t, polls[..|polls| - 1], protocol, user)
  }

  /** The user is reported again after a poll that left it out. */
  predicate Returns(polls: seq<PollEvent>, user: Name, i: nat)
    requires i < |polls|
  {
    0 < i && Reports(polls[i], user) && !Reports(polls[i - 1], user)
  }

  /** At each return, the counter last seen before it. */
  function Forgotten(t: Usage, polls: seq<PollEvent>, protocol: Name, user: Name, dir: Direction): int {
    if polls == [] then 0
    else
      var init := polls[..|polls| - 1];
      Forgotten(t, init, protocol, user, dir)
      + if Returns(polls, user, |polls| - 1) then Get(Latest(t, init, protocol, user), dir) else 0
  }

  /** A poll of the same run as those before it: neither uptime nor the user's counter went back. */
  predicate Grows(t: Usage, polls: seq<PollEvent>, protocol: Name, user: Name, i: nat)
    requires i < |polls|
  {
    var p := polls[i];
    && p.protocol == protocol
    && (if i == 0 then protocol in t.services ==> t.services[protocol].uptime <= p.snapshot.uptime
        else polls[i - 1].snapshot.uptime <= p.snapshot.uptime)
    && (Reports(p, user) ==> AtMost(Latest(t, polls[..i], protocol, user), p.snapshot.counters[user]))
  }

  /** Polls of one run. Any of them may leave the user out. */
  ghost predicate SameRun(t: Usage, polls: seq<PollEvent>, protocol: Name, user: Name) {
    forall i :: 0 <= i < |polls| ==> Grows(t, polls, protocol, user, i)
  }

  /** The baseline after some polls: none if the last one left the user out. */
  function Baseline(t: Usage, polls: seq<PollEvent>, protocol: Name, user: Name): Counters {
    if polls == [] || Reports(polls[|polls| - 1], user) then Latest(t, polls, protocol, user) else ZERO
  }

  /** The bytes recorded by polls of one run. */
  predicate Telescoped(t: Usage, polls: seq<PollEvent>, t': Usage, protocol: Name, user: Name, horizon: int,
                       dir: Direction) {
    && Bytes(t', protocol, user, horizon, dir) - Bytes(t, protocol, user, horizon, dir)
         == Get(Latest(t, polls, protocol, user), dir) - Get(Stored(t, protocol, user), dir)
            + Forgotten(t, polls, protocol, user, dir)
    && Stored(t', protocol, user) == Baseline(t, polls, protocol, user)
    && (if polls == [] then t' == t
        else protocol in t'.services && t'.services[protocol].uptime == polls[|polls| - 1].snapshot.uptime)
  }

  /** What a poll adds without a restart to a user whose counter did not fall. */
  lemma BytesAdded(t: Usage, protocol: Name, day: nat, s: Snapshot, billingDay: int, user: Name, horizon: int,
                   dir: Direction)
    requires day < horizon && !Metering.Restarted(t, protocol, s)
    requires user in s.counters
    requires Stored(t, protocol, user) == ZERO || AtMost(Stored(t, protocol, user), s.counters[user])
    ensures Bytes(Recorded(t, protocol, day, s, billingDay), protocol, user, horizon, dir)
         == Bytes(t, protocol, user, horizon, dir) + Get(s.counters[user], dir) - Get(Stored(t, protocol, user), dir)
  {
    BytesAfter(t, protocol, day, s, billingDay, protocol, user, horizon, dir);
  }

  lemma SameRunPrefix(t: Usage, polls: seq<PollEvent>, protocol: Name, user: Name)
    requires polls != [] && SameRun(t, polls, protocol, user)
    ensures SameRun(t, polls[..|polls| - 1], protocol, user)
  {
    var init := polls[..|polls| - 1];
    forall i | 0 <= i < |init| ensures Grows(t, init, protocol, user, i) {
      assert Grows(t, polls, protocol, user, i);
      assert init[..i] == polls[..i];
    }
  }

  lemma {:induction false} LatestIsNonNegative(t: Usage, polls: seq<PollEvent>, protocol: Name, user: Name)
    requires SameRun(t, polls, protocol, user) && AtMost(ZERO, Stored(t, protocol, user))
    ensures AtMost(ZERO, Latest(t, polls, protocol, user))
  {
    if polls != [] {
      SameRunPrefix(t, polls, protocol, user);
      LatestIsNonNegative(t, polls[..|polls| - 1], protocol, user);
      assert Grows(t, polls, protocol, user, |polls| - 1);
    }
  }

  /** One more poll: what it adds, and the baseline that it leaves. */
  predicate Adds(t: Usage, t': Usage, p: PollEvent, user: Name, horizon: int, dir: Direction) {
    && Bytes(t', p.protocol, user, horizon, dir) - Bytes(t, p.protocol, user, horizon, dir)
         == (if Reports(p, user) then Get(p.snapshot.counters[user], dir) - Get(Stored(t, p.protocol, user), dir)
             else 0)
    && Stored(t', p.protocol, user) == (if Reports(p, user) then p.snapshot.counters[user] else ZERO)
    && p.protocol in t'.services && t'.services[p.protocol].uptime == p.snapshot.uptime
  }

  lemma PollAdds(t: Usage, p: PollEvent, billingDay: int, user: Name, horizon: int, dir: Direction)
    requires p.day < horizon && !Metering.Restarted(t, p.protocol, p.snapshot)
    requires Reports(p, user) ==>
        Stored(t, p.protocol, user) == ZERO || AtMost(Stored(t, p.protocol, user), p.snapshot.counters[user])
    ensures Adds(t, Recorded(t, p.protocol, p.day, p.snapshot, billingDay), p, user, horizon, dir)
  {
    StoredAfter(t, p.protocol, p.day, p.snapshot, billingDay, p.protocol, user);
    if Reports(p, user) {
      BytesAdded(t, p.protocol, p.day, p.snapshot, billingDay, user, horizon, dir);
    } else {
      BytesAfter(t, p.protocol, p.day, p.snapshot, billingDay, p.protocol, user, horizon, dir);
    }
  }

  lemma TelescopesOne(t: Usage, polls: seq<PollEvent>, t': Usage, t'': Usage, protocol: Name, user: Name, horizon: int,
                      dir: Direction)
    requires polls != [] && Grows(t, polls, protocol, user, |polls| - 1)
    requires Telescoped(t, polls[..|polls| - 1], t', protocol, user, horizon, dir)
    requires Adds(t', t'', polls[|polls| - 1], user, horizon, dir)
    ensures Telescoped(t, polls, t'', protocol, user, horizon, dir)
  {
  }

  lemma PollFits(t: Usage, polls: seq<PollEvent>, t': Usage, protocol: Name, user: Name, horizon: int, dir: Direction)
    requires polls != [] && Grows(t, polls, protocol, user, |polls| - 1)
    requires Telescoped(t, polls[..|polls| - 1], t', protocol, user, horizon, dir)
    ensures var p := polls[|polls| - 1];
      && p.protocol == protocol && !Metering.Restarted(t', protocol, p.snapshot)
      && (Reports(p, user) ==>
            Stored(t', protocol, user) == ZERO || AtMost(Stored(t', protocol, user), p.snapshot.counters[user]))
  {
  }

  lemma OneMorePoll(t: Usage, polls: seq<PollEvent>, t': Usage, billingDay: int, protocol: Name, user: Name,
                    horizon: int, dir: Direction)
    requires polls != [] && Grows(t, polls, protocol, user, |polls| - 1) && polls[|polls| - 1].day < horizon
    requires Telescoped(t, polls[..|polls| - 1], t', protocol, user, horizon, dir)
    ensures var p := polls[|polls| - 1];
      Telescoped(t, polls, Recorded(t', p.protocol, p.day, p.snapshot, billingDay), protocol, user, horizon, dir)
  {
    var p := polls[|polls| - 1];
    PollFits(t, polls, t', protocol, user, horizon, dir);
    PollAdds(t', p, billingDay, user, horizon, dir);
    TelescopesOne(t, polls, t', Recorded(t', p.protocol, p.day, p.snapshot, billingDay), protocol, user, horizon, dir);
  }

  /** Without a restart, recorded bytes are the last counter less the first baseline - and, because the baseline of an
      absent user is deleted, once more the counter last seen before each return. */
  lemma {:induction false} OneRunTelescopes(t: Usage, polls: seq<PollEvent>, billingDay: int, protocol: Name,
                                            user: Name, horizon: int, dir: Direction)
    requires SameRun(t, polls, protocol, user) && forall p <- polls :: p.day < horizon
    ensures Telescoped(t, polls, AfterPolls(t, polls, billingDay), protocol, user, horizon, dir)
  {
    if polls != [] {
      var init, p := polls[..|polls| - 1], polls[|polls| - 1];
      assert polls == init + [p];
      assert p in polls && Grows(t, polls, protocol, user, |polls| - 1);
      SameRunPrefix(t, polls, protocol, user);
      OneRunTelescopes(t, init, billingDay, protocol, user, horizon, dir);
      OneMorePoll(t, polls, AfterPolls(t, init, billingDay), billingDay, protocol, user, horizon, dir);
    }
  }

  /** Nothing that the user returned with was seen before. */
  ghost predicate ReturnsAtZero(t: Usage, polls: seq<PollEvent>, protocol: Name, user: Name, dir: Direction) {
    forall i :: 0 <= i < |polls| && Returns(polls, user, i) ==> Get(Latest(t, polls[..i], protocol, user), dir) == 0
  }

  lemma ReturnsAtZeroStep(t: Usage, polls: seq<PollEvent>, protocol: Name, user: Name, dir: Direction)
    requires polls != []
    ensures var init := polls[..|polls| - 1];
      ReturnsAtZero(t, polls, protocol, user, dir) <==>
        && ReturnsAtZero(t, init, protocol, user, dir)
        && (Returns(polls, user, |polls| - 1) ==> Get(Latest(t, init, protocol, user), dir) == 0)
  {
    var init := polls[..|polls| - 1];
    forall i | 0 <= i < |init|
      ensures Returns(init, user, i) == Returns(polls, user, i) && init[..i] == polls[..i]
    {
    }
  }

  lemma {:induction false} ForgottenIsNone(t: Usage, polls: seq<PollEvent>, protocol: Name, user: Name, dir: Direction)
    requires SameRun(t, polls, protocol, user) && AtMost(ZERO, Stored(t, protocol, user))
    ensures 0 <= Forgotten(t, polls, protocol, user, dir)
    ensures Forgotten(t, polls, protocol, user, dir) == 0 <==> ReturnsAtZero(t, polls, protocol, user, dir)
  {
    if polls != [] {
      var init := polls[..|polls| - 1];
      SameRunPrefix(t, polls, protocol, user);
      LatestIsNonNegative(t, init, protocol, user);
      ForgottenIsNone(t, init, protocol, user, dir);
      ReturnsAtZeroStep(t, polls, protocol, user, dir);
    }
  }

  /** Polling one run never records less than the counter grew by, and exactly that if and only if the user was never
      left out and reported again with bytes that had been seen before. */
  lemma OneRunIsExact(t: Usage, polls: seq<PollEvent>, billingDay: int, protocol: Name, user: Name, horizon: int,
                      dir: Direction)
    requires SameRun(t, polls, protocol, user) && AtMost(ZERO, Stored(t, protocol, user))
    requires forall p <- polls :: p.day < horizon
    ensures var recorded := Bytes(AfterPolls(t, polls, billingDay), protocol, user, horizon, dir)
                            - Bytes(t, protocol, user, horizon, dir);
      var grown := Get(Latest(t, polls, protocol, user), dir) - Get(Stored(t, protocol, user), dir);
      grown <= recorded && (recorded == grown <==> ReturnsAtZero(t, polls, protocol, user, dir))
  {
    OneRunTelescopes(t, polls, billingDay, protocol, user, horizon, dir);
    ForgottenIsNone(t, polls, protocol, user, dir);
  }

  /** A service whose user list shrinks for one poll and grows again, in one run. */
  function Interrupted(protocol: Name, user: Name, c: Counters, day: nat, uptime: int): seq<PollEvent> {
    [PollEvent(protocol, day, Snapshot(uptime, map[user := c])), PollEvent(protocol, day, Snapshot(uptime, map[])),
     PollEvent(protocol, day, Snapshot(uptime, map[user := c]))]
  }

  lemma InterruptedRun(protocol: Name, user: Name, c: Counters, day: nat, uptime: int)
    requires AtMost(ZERO, c)
    ensures var polls := Interrupted(protocol, user, c, day, uptime);
      && SameRun(NO_USAGE, polls, protocol, user) && Latest(NO_USAGE, polls, protocol, user) == c
      && forall dir :: Forgotten(NO_USAGE, polls, protocol, user, dir) == Get(c, dir)
  {
    var polls := Interrupted(protocol, user, c, day, uptime);
    assert polls[..3] == polls && polls[..2][..1] == polls[..1] && polls[..1][..0] == [] && polls[..0] == [];
    assert Latest(NO_USAGE, polls[..0], protocol, user) == ZERO;
    assert Latest(NO_USAGE, polls[..1], protocol, user) == c;
    assert Latest(NO_USAGE, polls[..2], protocol, user) == c;
    forall dir ensures Forgotten(NO_USAGE, polls, protocol, user, dir) == Get(c, dir) {
      assert Forgotten(NO_USAGE, polls[..1], protocol, user, dir) == 0;
      assert Forgotten(NO_USAGE, polls[..2], protocol, user, dir) == 0;
    }
  }

  /** An input for which more is recorded than was served: a counter that never exceeded c, polled three times from an
      empty store, the second time without its user, is recorded twice. */
  lemma InterruptedRunCountsTwice(protocol: Name, user: Name, c: Counters, day: nat, uptime: int, billingDay: int,
                                  horizon: int, dir: Direction)
    requires AtMost(ZERO, c) && day < horizon
    ensures Bytes(AfterPolls(NO_USAGE, Interrupted(protocol, user, c, day, uptime), billingDay),
                  protocol, user, horizon, dir) == 2 * Get(c, dir)
  {
    InterruptedRun(protocol, user, c, day, uptime);
    OneRunTelescopes(NO_USAGE, Interrupted(protocol, user, c, day, uptime), billingDay, protocol, user, horizon, dir);
    NoUsageTotal(user, protocol, 0, horizon, dir);
  }

  /** Two polls after anything: the second adds the user's whole counter again exactly when the first left it out. */
  lemma AbsentUserIsCountedAgain(t: Usage, protocol: Name, day: nat, first: Snapshot, later: nat, second: Snapshot,
                                 billingDay: int, user: Name, horizon: int, dir: Direction)
    requires day < horizon && later < horizon && first.uptime <= second.uptime
    requires user in second.counters && AtMost(ZERO, second.counters[user])
    requires user in first.counters ==> first.counters[user] == second.counters[user]
    ensures var t1 := Recorded(t, protocol, day, first, billingDay);
      var t2 := Recorded(t1, protocol, later, second, billingDay);
      Bytes(t2, protocol, user, horizon, dir) - Bytes(t1, protocol, user, horizon, dir)
        == if user in first.counters then 0 else Get(second.counters[user], dir)
  {
    var t1 := Recorded(t, protocol, day, first, billingDay);
    StoredAfter(t, protocol, day, first, billingDay, protocol, user);
    BytesAdded(t1, protocol, later, second, billingDay, user, horizon, dir);
  }
}
