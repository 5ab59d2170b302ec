/** Compaction in terms of rows: every stored row has its day in the table of days, so no day is ever overlooked. */
module StreamCompaction {
  import opened Accounting
  import opened ConnectionTracking
  import opened StreamStore
  import opened StreamSystem

  ghost predicate DaysKnown(t: Tables) {
    forall row <- t.rows :: row.day in t.days
  }

  lemma {:induction false} AddedRowsAre(rows: map<RowKey, Bucket>, deltas: seq<Delta>, row: RowKey)
    requires row in AddRows(rows, deltas)
    ensures row in rows || exists d <- deltas :: d.key.day == row.day
  {
    if deltas != [] {
      var init, last := deltas[..|deltas| - 1], deltas[|deltas| - 1];
      assert deltas == init + [last];
      if row in AddRows(rows, init) {
        AddedRowsAre(rows, init, row);
      } else {
        assert last in deltas;
      }
    }
  }

  lemma CommitKnows(t: Tables, batch: Batch)
    requires DaysKnown(t)
    ensures DaysKnown(Commit(t, batch))
  {
    DeltaDaysKnown(t.days, batch.deltas);
    forall row | row in AddRows(t.rows, batch.deltas) ensures row.day in AddDays(t.days, batch.deltas) {
      AddedRowsAre(t.rows, batch.deltas, row);
    }
  }

  /** A fold makes no row on a day that had none. */
  lemma FoldedRowHasDay(t: Tables, t': Tables, limit: int, topN: nat, row: RowKey)
    requires Compacts(t, t', limit, topN) && row in t'.rows
    ensures exists r <- t.rows :: r.day == row.day
  {
    var before, after := Group(t.rows, row.day, row.user), Group(t'.rows, row.day, row.user);
    assert row.domain in after;
    FoldKeepsReserved(before, topN);
    if before == map[] {
      assert after == map[];
    }
    var name :| name in before;
    assert RowKey(row.day, row.user, name) in t.rows;
  }

  lemma CompactKnows(t: Tables, t': Tables, limit: int, topN: nat)
    requires DaysKnown(t) && Compacts(t, t', limit, topN)
    ensures DaysKnown(t')
  {
    forall row | row in t'.rows ensures row.day in t'.days {
      FoldedRowHasDay(t, t', limit, topN, row);
    }
  }

  lemma StepKnows(s: System, step: Step, s': System)
    requires Next(s, step, s') && DaysKnown(s.tables)
    ensures DaysKnown(s'.tables)
  {
    match step
    case CommitStep => CommitKnows(s.tables, s.agg.inflight.value);
    case CompactStep(limit, topN) => CompactKnows(s.tables, s'.tables, limit, topN);
    case _ =>
  }

  lemma StepAtKnows(states: seq<System>, steps: seq<Step>, k: nat)
    requires Run(states, steps) && k < |steps| && DaysKnown(states[k].tables)
    ensures DaysKnown(states[k + 1].tables)
  {
    assert NextAt(states, steps, k);
    StepKnows(states[k], steps[k], states[k + 1]);
  }

  /** Over every run, each stored row has its day in the table of days. */
  lemma {:induction false} RowsHaveDays(states: seq<System>, steps: seq<Step>, i: nat)
    requires Run(states, steps) && i < |states|
    ensures forall row <- states[i].tables.rows :: row.day in states[i].tables.days
    decreases i
  {
    if i > 0 {
      RowsHaveDays(states, steps, i - 1);
      StepAtKnows(states, steps, i - 1);
    }
  }

  // --- what a compaction leaves --------------------------------------------------------------------

  /** One user's rows of a day for hosts that were visited. */
  function Hosts(rows: map<RowKey, Bucket>, day: int, user: string): set<RowKey> {
    set row <- rows.Keys |
      row.day == day && row.user == user && row.domain != OTHER && row.domain != UNATTRIBUTED && row.domain != NO_DOMAIN
  }

  /** The ranking: more bytes first, then the name. */
  predicate Outranks(rows: map<RowKey, Bucket>, a: RowKey, b: RowKey)
    requires a in rows && b in rows
  {
    var x, y := rows[a].up + rows[a].down, rows[b].up + rows[b].down;
    x > y || (x == y && a.domain < b.domain)
  }

  lemma {:induction false} HostsAreNamed(day: int, user: string, names: set<Name>, hosts: set<RowKey>)
    requires forall row <- hosts :: row.day == day && row.user == user && row.domain in names
    ensures |hosts| <= |names|
    decreases hosts
  {
    if hosts != {} {
      var row :| row in hosts;
      HostsAreNamed(day, user, names - {row.domain}, hosts - {row});
    }
  }

  lemma HostsAreSurvivors(rows: map<RowKey, Bucket>, day: int, user: string)
    ensures |Hosts(rows, day, user)| <= |Survivors(Group(rows, day, user))|
  {
    HostsAreNamed(day, user, Survivors(Group(rows, day, user)), Hosts(rows, day, user));
  }

  /** What a fold of one user's day leaves: at most topN hosts, unchanged, each ahead of every host that is gone, and
      the other bookkeeping rows as they were. */
  ghost predicate LeavesTop(rows: map<RowKey, Bucket>, rows': map<RowKey, Bucket>, day: int, user: string, topN: nat) {
    var before, after := Hosts(rows, day, user), Hosts(rows', day, user);
    && |after| <= topN && after <= before
    && (forall kept <- after :: rows'[kept] == rows[kept])
    && (forall kept <- after, gone <- before - after :: Outranks(rows, kept, gone))
    && Value(rows', RowKey(day, user, UNATTRIBUTED)) == Value(rows, RowKey(day, user, UNATTRIBUTED))
    && Value(rows', RowKey(day, user, NO_DOMAIN)) == Value(rows, RowKey(day, user, NO_DOMAIN))
  }

  lemma HostStays(rows: map<RowKey, Bucket>, rows': map<RowKey, Bucket>, topN: nat, row: RowKey)
    requires Group(rows', row.day, row.user) == Folded(Group(rows, row.day, row.user), topN)
    requires row in Hosts(rows', row.day, row.user)
    ensures row in Hosts(rows, row.day, row.user) && rows'[row] == rows[row]
    ensures row.domain in Survivors(Folded(Group(rows, row.day, row.user), topN))
  {
    var before, after := Group(rows, row.day, row.user), Group(rows', row.day, row.user);
    FoldSplits(before, topN);
    assert row.domain in Survivors(after);
    assert before[row.domain] == after[row.domain];
  }

  lemma HostGoes(rows: map<RowKey, Bucket>, rows': map<RowKey, Bucket>, topN: nat, row: RowKey)
    requires Group(rows', row.day, row.user) == Folded(Group(rows, row.day, row.user), topN)
    requires row in Hosts(rows, row.day, row.user) && row !in rows'
    ensures row.domain in Tail(Group(rows, row.day, row.user), topN)
  {
    var before, after := Group(rows, row.day, row.user), Group(rows', row.day, row.user);
    FoldSplits(before, topN);
    assert row.domain in before && row.domain !in after;
    assert row.domain !in Survivors(after);
  }

  lemma ReservedStays(rows: map<RowKey, Bucket>, rows': map<RowKey, Bucket>, topN: nat, row: RowKey)
    requires Group(rows', row.day, row.user) == Folded(Group(rows, row.day, row.user), topN)
    requires row.domain == UNATTRIBUTED || row.domain == NO_DOMAIN
    ensures Value(rows', row) == Value(rows, row)
  {
    var before, after := Group(rows, row.day, row.user), Group(rows', row.day, row.user);
    FoldKeepsReserved(before, topN);
    assert row in rows <==> row.domain in before;
    assert row in rows' <==> row.domain in after;
    if row in rows {
      assert before[row.domain] == rows[row] && after[row.domain] == rows'[row];
    }
  }

  lemma FoldLeavesTop(rows: map<RowKey, Bucket>, rows': map<RowKey, Bucket>, day: int, user: string, topN: nat)
    requires Group(rows', day, user) == Folded(Group(rows, day, user), topN)
    ensures LeavesTop(rows, rows', day, user, topN)
  {
    var before, after := Hosts(rows, day, user), Hosts(rows', day, user);
    FoldIsSmall(Group(rows, day, user), topN);
    HostsAreSurvivors(rows', day, user);
    forall row | row in after ensures row in before && rows'[row] == rows[row] {
      HostStays(rows, rows', topN, row);
    }
    forall kept, gone | kept in after && gone in before - after ensures Outranks(rows, kept, gone) {
      HostStays(rows, rows', topN, kept);
      HostGoes(rows, rows', topN, gone);
      SurvivorRanks(Group(rows, day, user), topN, kept.domain, gone.domain);
      assert Group(rows, day, user)[kept.domain] == rows[kept] && Group(rows, day, user)[gone.domain] == rows[gone];
    }
    ReservedStays(rows, rows', topN, RowKey(day, user, UNATTRIBUTED));
    ReservedStays(rows, rows', topN, RowKey(day, user, NO_DOMAIN));
  }

  /** No day is overlooked: a compaction, whenever it comes, leaves every user's every earlier day with at most topN
      hosts, and those are the top ones, unless the day was compacted before; and it marks each such day that has rows,
      and no other. */
  lemma CompactionIsComplete(states: seq<System>, steps: seq<Step>, i: nat, limit: int, topN: nat, day: int,
                             user: string)
    requires Run(states, steps) && i < |steps| && steps[i] == CompactStep(limit, topN)
    ensures var t, t' := states[i].tables, states[i + 1].tables;
      && (day < limit && !CompactedDay(t.days, day) ==> LeavesTop(t.rows, t'.rows, day, user, topN))
      && (day < limit && (exists row <- t.rows :: row.day == day) ==> CompactedDay(t'.days, day))
      && (limit <= day ==> Hosts(t'.rows, day, user) == Hosts(t.rows, day, user)
                           && CompactedDay(t'.days, day) == CompactedDay(t.days, day))
  {
    var t, t' := states[i].tables, states[i + 1].tables;
    RowsHaveDays(states, steps, i);
    assert NextAt(states, steps, i);
    CompactionLeaves(t, t', limit, topN, day, user);
  }

  lemma CompactionLeaves(t: Tables, t': Tables, limit: int, topN: nat, day: int, user: string)
    requires DaysKnown(t) && Compacts(t, t', limit, topN)
    ensures day < limit && !CompactedDay(t.days, day) ==> LeavesTop(t.rows, t'.rows, day, user, topN)
    ensures day < limit && (exists row <- t.rows :: row.day == day) ==> CompactedDay(t'.days, day)
    ensures limit <= day ==> Hosts(t'.rows, day, user) == Hosts(t.rows, day, user)
                             && CompactedDay(t'.days, day) == CompactedDay(t.days, day)
  {
    if day in DueDays(t.days, limit) {
      FoldLeavesTop(t.rows, t'.rows, day, user, topN);
    } else {
      SameHosts(t.rows, t'.rows, day, user);
      if day !in t.days {
        NoHostsNoFold(t, t', day, user, topN);
      }
    }
  }

  lemma SameHosts(rows: map<RowKey, Bucket>, rows': map<RowKey, Bucket>, day: int, user: string)
    requires Group(rows', day, user) == Group(rows, day, user)
    ensures Hosts(rows', day, user) == Hosts(rows, day, user)
  {
    forall row: RowKey | row.day == day && row.user == user ensures row in rows' <==> row in rows {
      assert row in rows' <==> row.domain in Group(rows', day, user);
      assert row in rows <==> row.domain in Group(rows, day, user);
    }
  }

  lemma NoHostsNoFold(t: Tables, t': Tables, day: int, user: string, topN: nat)
    requires DaysKnown(t) && day !in t.days && Group(t'.rows, day, user) == Group(t.rows, day, user)
    ensures LeavesTop(t.rows, t'.rows, day, user, topN)
  {
    assert Group(t.rows, day, user) == map[];
    FoldKeepsReserved(map[], topN);
    FoldLeavesTop(t.rows, t'.rows, day, user, topN);
  }
}
