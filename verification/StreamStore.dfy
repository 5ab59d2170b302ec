/** The tables that one service's stream daemon writes: domain rows, replay checkpoints, the last batch id and
    the days that have been compacted. Every method is one transaction. */
module StreamStore {
  import opened Accounting
  import opened ConnectionTracking

  /** days maps each day with domain rows to whether it has been compacted. The destination table adds up the shares of
      all services; destinations is the share of this one. */
  datatype Tables = Tables(
    rows: map<RowKey, Bucket>,
    destinations: map<DestinationKey, Bucket>,
    checkpoints: map<Id, Checkpoint>,
    lastBatch: Option<nat>,
    days: map<int, bool>)

  const NO_TABLES := Tables(map[], map[], map[], None, map[])

  function DestinationValue(destinations: map<DestinationKey, Bucket>, row: DestinationKey): Bucket {
    if row in destinations then destinations[row] else EMPTY
  }

  function Value(rows: map<RowKey, Bucket>, row: RowKey): Bucket {
    if row in rows then rows[row] else EMPTY
  }

  predicate CompactedDay(days: map<int, bool>, day: int) {
    day in days && days[day]
  }

  // --- commit --------------------------------------------------------------

  function AddRow(rows: map<RowKey, Bucket>, delta: Delta): map<RowKey, Bucket> {
    rows[Row(delta.key) := Plus(Value(rows, Row(delta.key)), delta.bucket)]
  }

  function AddRows(rows: map<RowKey, Bucket>, deltas: seq<Delta>): map<RowKey, Bucket> {
    if deltas == [] then rows else AddRow(AddRows(rows, deltas[..|deltas| - 1]), deltas[|deltas| - 1])
  }

  /** A delta without an address has no destination row. */
  function AddDestination(destinations: map<DestinationKey, Bucket>, delta: Delta): map<DestinationKey, Bucket> {
    if delta.key.ip == "" then destinations
    else
      var row := Destination(delta.key);
      destinations[row := Plus(DestinationValue(destinations, row), delta.bucket)]
  }

  function AddDestinations(destinations: map<DestinationKey, Bucket>, deltas: seq<Delta>): map<DestinationKey, Bucket> {
    if deltas == [] then destinations
    else AddDestination(AddDestinations(destinations, deltas[..|deltas| - 1]), deltas[|deltas| - 1])
  }

  /** INSERT OR IGNORE: a day that is already known keeps its mark. */
  function AddDays(days: map<int, bool>, deltas: seq<Delta>): map<int, bool> {
    if deltas == [] then days
    else
      var before := AddDays(days, deltas[..|deltas| - 1]);
      var day := deltas[|deltas| - 1].key.day;
      if day in before then before else before[day := false]
  }

  /** Deletions, upserts, then the retention limit. */
  function WriteCheckpoints(checkpoints: map<Id, Checkpoint>, batch: Batch): map<Id, Checkpoint> {
    var written := Without(checkpoints, batch.removed) + batch.checkpoints;
    Without(written, Excess(written))
  }

  predicate MeetsCompactedDay(t: Tables, batch: Batch) {
    exists i :: 0 <= i < |batch.deltas| && CompactedDay(t.days, batch.deltas[i].key.day)
  }

  function Commit(t: Tables, batch: Batch): Tables {
    if t.lastBatch == Some(batch.batchId) || MeetsCompactedDay(t, batch) then t
    else Tables(AddRows(t.rows, batch.deltas), AddDestinations(t.destinations, batch.deltas),
                WriteCheckpoints(t.checkpoints, batch),
                Some(batch.batchId), AddDays(t.days, batch.deltas))
  }

  lemma {:induction false} AddDaysMarks(days: map<int, bool>, deltas: seq<Delta>, day: int)
    ensures CompactedDay(AddDays(days, deltas), day) == CompactedDay(days, day)
  {
    if deltas != [] {
      AddDaysMarks(days, deltas[..|deltas| - 1], day);
    }
  }

  lemma {:induction false} DeltaDaysKnown(days: map<int, bool>, deltas: seq<Delta>)
    ensures forall day <- days :: day in AddDays(days, deltas)
    ensures forall d <- deltas :: d.key.day in AddDays(days, deltas)
    ensures forall day <- AddDays(days, deltas) :: day in days || exists d <- deltas :: d.key.day == day
  {
    if deltas != [] {
      var init, last := deltas[..|deltas| - 1], deltas[|deltas| - 1];
      assert deltas == init + [last];
      DeltaDaysKnown(days, init);
      assert last in deltas;
    }
  }

  /** The table's own retention, whatever it held and whatever a batch brings; and what a batch says of a connection
      that is not retired is what the table says afterwards, its deletions included. */
  lemma CommitRetains(checkpoints: map<Id, Checkpoint>, batch: Batch)
    ensures var after := WriteCheckpoints(checkpoints, batch);
      && |RetiredIds(after)| <= RETENTION
      && (forall id <- batch.checkpoints :: batch.checkpoints[id].retiredAt.None? ==>
            id in after && after[id] == batch.checkpoints[id])
      && (forall id <- after :: id in batch.checkpoints || (id in checkpoints && id !in batch.removed))
  {
    RetentionHolds(Without(checkpoints, batch.removed) + batch.checkpoints);
  }

  // --- totals of one user's day -----------------------------------------------

  function Group(rows: map<RowKey, Bucket>, day: int, user: string): map<Name, Bucket> {
    map row <- rows.Keys | row.day == day && row.user == user :: row.domain := rows[row]
  }

  ghost function Total(group: map<Name, Bucket>): Bucket {
    if group == map[] then EMPTY
    else
      var name :| name in group;
      Plus(group[name], Total(group - {name}))
  }

  lemma {:induction false} TotalRemove(group: map<Name, Bucket>, name: Name)
    requires name in group
    ensures Total(group) == Plus(group[name], Total(group - {name}))
    decreases |group|
  {
    var first: Name :| first in group && Total(group) == Plus(group[first], Total(group - {first}));
    if first != name {
      var a, b := group - {first}, group - {name};
      TotalRemove(a, name);
      TotalRemove(b, first);
      assert a - {name} == b - {first};
      assert a[name] == group[name];
      assert b[first] == group[first];
      assert Total(group) == Plus(group[first], Total(a));
      assert Total(a) == Plus(group[name], Total(a - {name}));
      assert Total(b) == Plus(group[first], Total(a - {name}));
    }
  }

  lemma TotalAdd(group: map<Name, Bucket>, name: Name, bucket: Bucket)
    ensures var was := if name in group then group[name] else EMPTY;
      Total(group[name := Plus(was, bucket)]) == Plus(Total(group), bucket)
  {
    var was := if name in group then group[name] else EMPTY;
    var after := group[name := Plus(was, bucket)];
    TotalRemove(after, name);
    if name in group {
      TotalRemove(group, name);
      assert after - {name} == group - {name};
    } else {
      assert after - {name} == group;
    }
  }

  lemma OnlyRemove(group: map<Name, Bucket>, part: set<Name>, name: Name)
    requires name in part && part <= group.Keys
    ensures Only(group, part) - {name} == Only(group, part - {name})
    ensures group - (part - {name}) - {name} == group - part
    ensures name in Only(group, part) && Only(group, part)[name] == group[name]
  {
  }

  lemma {:induction false} TotalSplit(group: map<Name, Bucket>, part: set<Name>)
    requires part <= group.Keys
    ensures Total(group) == Plus(Total(group - part), Total(Only(group, part)))
    decreases part
  {
    if part == {} {
      assert group - part == group;
      assert Only(group, part) == map[];
      PlusEmpty(Total(group));
    } else {
      var name: Name :| name in part;
      TotalSplit(group, part - {name});
      OnlyRemove(group, part, name);
      TotalRemove(group - (part - {name}), name);
      TotalRemove(Only(group, part), name);
    }
  }

  // --- compaction ------------------------------------------------------------

  predicate Ordinary(name: Name) {
    name != OTHER && name != UNATTRIBUTED && name != NO_DOMAIN
  }

  function Only(group: map<Name, Bucket>, names: set<Name>): map<Name, Bucket> {
    map name <- group.Keys | name in names :: group[name]
  }

  /** The order of the ranking: more bytes first, then the name. */
  predicate Ahead(group: map<Name, Bucket>, a: Name, b: Name) {
    && a in group && b in group && Ordinary(a) && Ordinary(b)
    && var sizeA, sizeB := group[a].up + group[a].down, group[b].up + group[b].down;
       sizeA > sizeB || (sizeA == sizeB && a < b)
  }

  function Leaders(group: map<Name, Bucket>, name: Name): set<Name> {
    set a <- group.Keys | Ahead(group, a, name)
  }

  /** The ordinary rows that have at least topN rows ahead of them. */
  function Tail(group: map<Name, Bucket>, topN: nat): set<Name> {
    set name <- group.Keys | Ordinary(name) && |Leaders(group, name)| >= topN
  }

  ghost function Folded(group: map<Name, Bucket>, topN: nat): map<Name, Bucket> {
    var tail := Tail(group, topN);
    if tail == {} then group
    else
      var other := if OTHER in group then group[OTHER] else EMPTY;
      (group - tail)[OTHER := Plus(other, Total(Only(group, tail)))]
  }

  function Survivors(group: map<Name, Bucket>): set<Name> {
    set name <- group.Keys | Ordinary(name)
  }

  lemma FoldConserves(group: map<Name, Bucket>, topN: nat)
    ensures Total(Folded(group, topN)) == Total(group)
  {
    var tail := Tail(group, topN);
    if tail != {} {
      TotalSplit(group, tail);
      TotalAdd(group - tail, OTHER, Total(Only(group, tail)));
      assert (if OTHER in group then group[OTHER] else EMPTY)
          == (if OTHER in group - tail then (group - tail)[OTHER] else EMPTY);
    }
  }

  lemma AheadTransitive(group: map<Name, Bucket>, a: Name, b: Name, c: Name)
    requires Ahead(group, a, b) && Ahead(group, b, c)
    ensures Ahead(group, a, c) && Leaders(group, a) <= Leaders(group, c)
  {
  }

  /** The last of some ordinary rows: every other one is ahead of it. */
  lemma {:induction false} LastOf(group: map<Name, Bucket>, names: set<Name>) returns (last: Name)
    requires names != {} && names <= Survivors(group)
    ensures last in names && forall name <- names - {last} :: Ahead(group, name, last)
    decreases names
  {
    var pick: Name :| pick in names;
    last := pick;
    if names != {pick} {
      var rest := LastOf(group, names - {pick});
      if Ahead(group, pick, rest) {
        last := rest;
      } else {
        assert Ahead(group, rest, pick);
        forall name | name in names - {pick} ensures Ahead(group, name, pick) {
          if name != rest {
            AheadTransitive(group, name, rest, pick);
          }
        }
      }
    }
  }

  lemma FoldSplits(group: map<Name, Bucket>, topN: nat)
    ensures Survivors(Folded(group, topN)) == Survivors(group) - Tail(group, topN)
    ensures forall kept <- Survivors(Folded(group, topN)) :: Folded(group, topN)[kept] == group[kept]
  {
  }

  /** Whoever has fewer leaders has more bytes, or as many and the smaller name. */
  lemma FewerLeaders(group: map<Name, Bucket>, kept: Name, gone: Name)
    requires kept in group && gone in group && Ordinary(kept) && Ordinary(gone)
    requires |Leaders(group, kept)| < |Leaders(group, gone)|
    ensures var bytes, tail := group[kept].up + group[kept].down, group[gone].up + group[gone].down;
      bytes > tail || (bytes == tail && kept < gone)
  {
    if !Ahead(group, kept, gone) && kept != gone {
      SubsetSize(Leaders(group, gone), Leaders(group, kept));
    }
  }

  lemma FoldIsSmall(group: map<Name, Bucket>, topN: nat)
    ensures |Survivors(Folded(group, topN))| <= topN
  {
    FoldSplits(group, topN);
    var left := Survivors(Folded(group, topN));
    if left != {} {
      var last := LastOf(group, left);
      assert left - {last} <= Leaders(group, last);
      SubsetSize(left - {last}, Leaders(group, last));
    }
  }

  lemma SurvivorRanks(group: map<Name, Bucket>, topN: nat, kept: Name, gone: Name)
    requires kept in Survivors(Folded(group, topN)) && gone in Tail(group, topN)
    ensures kept in group && gone in group
    ensures var bytes, tail := group[kept].up + group[kept].down, group[gone].up + group[gone].down;
      bytes > tail || (bytes == tail && kept < gone)
  {
    FoldSplits(group, topN);
    FewerLeaders(group, kept, gone);
  }

  /** At most topN ordinary rows survive, unchanged, and each of them has more bytes than every folded row, or as many
      and the smaller name. */
  lemma FoldKeepsTop(group: map<Name, Bucket>, topN: nat)
    ensures |Survivors(Folded(group, topN))| <= topN
    ensures forall kept <- Survivors(Folded(group, topN)), gone <- Tail(group, topN) ::
      && kept in group && gone in group
      && var bytes, tail := group[kept].up + group[kept].down, group[gone].up + group[gone].down;
         bytes > tail || (bytes == tail && kept < gone)
  {
    FoldIsSmall(group, topN);
    forall kept, gone | kept in Survivors(Folded(group, topN)) && gone in Tail(group, topN)
      ensures kept in group && gone in group
      ensures var bytes, tail := group[kept].up + group[kept].down, group[gone].up + group[gone].down;
        bytes > tail || (bytes == tail && kept < gone)
    {
      SurvivorRanks(group, topN, kept, gone);
    }
  }

  /** Only visited hosts are folded, and into one row: every other bookkeeping row stays as it is. */
  lemma FoldKeepsReserved(group: map<Name, Bucket>, topN: nat)
    ensures forall name <- Tail(group, topN) :: name !in {OTHER, UNATTRIBUTED, NO_DOMAIN}
    ensures forall name <- {UNATTRIBUTED, NO_DOMAIN} ::
      && (name in Folded(group, topN) <==> name in group)
      && (name in group ==> Folded(group, topN)[name] == group[name])
    ensures forall name <- Folded(group, topN) :: name in group || name == OTHER
    ensures group == map[] ==> Folded(group, topN) == map[]
  {
  }

  lemma FoldTwice(group: map<Name, Bucket>, topN: nat)
    ensures Tail(Folded(group, topN), topN) == {}
  {
    FoldIsSmall(group, topN);
    FoldSplits(group, topN);
    var folded := Folded(group, topN);
    forall name | name in folded && Ordinary(name)
      ensures |Leaders(folded, name)| < topN
    {
      assert Leaders(folded, name) <= Survivors(folded) - {name};
      SubsetSize(Leaders(folded, name), Survivors(folded) - {name});
    }
  }

  /** The rows that folding these days deletes. */
  function FoldedRows(rows: map<RowKey, Bucket>, days: set<int>, topN: nat): set<RowKey> {
    set row <- rows.Keys | row.day in days && row.domain in Tail(Group(rows, row.day, row.user), topN)
  }

  /** after is before with every group of these days folded, and nothing else changed. */
  ghost predicate FoldsDays(before: map<RowKey, Bucket>, after: map<RowKey, Bucket>, days: set<int>, topN: nat) {
    forall day, user ::
      Group(after, day, user) ==
      if day in days then Folded(Group(before, day, user), topN) else Group(before, day, user)
  }

  function DueDays(days: map<int, bool>, before: int): set<int> {
    set day <- days.Keys | day < before && !days[day]
  }

  function MarkDays(days: map<int, bool>, done: set<int>): map<int, bool> {
    map day <- days.Keys :: day in done || days[day]
  }

  /** after is before with these users' rows of one day folded, and nothing else changed. */
  ghost predicate FoldsUsers(before: map<RowKey, Bucket>, after: map<RowKey, Bucket>, day: int, users: set<string>,
                             topN: nat) {
    forall d, user ::
      Group(after, d, user) ==
      if d == day && user in users then Folded(Group(before, d, user), topN) else Group(before, d, user)
  }

  function RowsNamed(day: int, user: string, names: set<Name>): set<RowKey> {
    set name <- names :: RowKey(day, user, name)
  }

  function FoldedRowsOf(rows: map<RowKey, Bucket>, day: int, users: set<string>, topN: nat): set<RowKey> {
    set row <- FoldedRows(rows, {day}, topN) | row.user in users
  }

  lemma {:induction false} RowsNamedSize(day: int, user: string, names: set<Name>)
    ensures |RowsNamed(day, user, names)| == |names|
    decreases names
  {
    if names != {} {
      var name: Name :| name in names;
      RowsNamedSize(day, user, names - {name});
      assert RowsNamed(day, user, names) == RowsNamed(day, user, names - {name}) + {RowKey(day, user, name)};
    }
  }

  lemma TailRow(rows: map<RowKey, Bucket>, row: RowKey, topN: nat)
    requires row.domain in Tail(Group(rows, row.day, row.user), topN)
    ensures row in rows
  {
    assert row.domain in Group(rows, row.day, row.user);
  }

  lemma FoldedRowsOfOne(rows: map<RowKey, Bucket>, day: int, user: string, topN: nat)
    ensures FoldedRowsOf(rows, day, {user}, topN) == RowsNamed(day, user, Tail(Group(rows, day, user), topN))
  {
    forall row | row in RowsNamed(day, user, Tail(Group(rows, day, user), topN))
      ensures row in FoldedRowsOf(rows, day, {user}, topN)
    {
      TailRow(rows, row, topN);
    }
  }

  lemma FoldOneMoreUser(rows: map<RowKey, Bucket>, day: int, done: set<string>, user: string, topN: nat)
    requires user !in done
    ensures |FoldedRowsOf(rows, day, done + {user}, topN)|
         == |FoldedRowsOf(rows, day, done, topN)| + |Tail(Group(rows, day, user), topN)|
  {
    SplitFoldedUsers(rows, day, done, user, topN);
    FoldedRowsOfOne(rows, day, user, topN);
    RowsNamedSize(day, user, Tail(Group(rows, day, user), topN));
  }

  lemma SplitFoldedUsers(rows: map<RowKey, Bucket>, day: int, done: set<string>, user: string, topN: nat)
    requires user !in done
    ensures |FoldedRowsOf(rows, day, done + {user}, topN)|
         == |FoldedRowsOf(rows, day, done, topN)| + |FoldedRowsOf(rows, day, {user}, topN)|
  {
    assert FoldedRowsOf(rows, day, done + {user}, topN)
        == FoldedRowsOf(rows, day, done, topN) + FoldedRowsOf(rows, day, {user}, topN);
  }

  lemma NoRowsNoFold(rows: map<RowKey, Bucket>, day: int, users: set<string>, topN: nat)
    requires users == set row <- rows.Keys | row.day == day :: row.user
    ensures forall user :: user !in users ==> Folded(Group(rows, day, user), topN) == Group(rows, day, user)
  {
    forall user | user !in users
      ensures Folded(Group(rows, day, user), topN) == Group(rows, day, user)
    {
      assert Group(rows, day, user) == map[];
    }
  }

  lemma FoldUserStep(start: map<RowKey, Bucket>, middle: map<RowKey, Bucket>, after: map<RowKey, Bucket>,
                     day: int, done: set<string>, user: string, topN: nat)
    requires user !in done
    requires FoldsUsers(start, middle, day, done, topN) && FoldsUsers(middle, after, day, {user}, topN)
    ensures FoldsUsers(start, after, day, done + {user}, topN)
    ensures Group(middle, day, user) == Group(start, day, user)
  {
  }

  lemma FoldAllUsers(start: map<RowKey, Bucket>, after: map<RowKey, Bucket>, day: int, users: set<string>, topN: nat)
    requires users == set row <- start.Keys | row.day == day :: row.user
    requires FoldsUsers(start, after, day, users, topN)
    ensures FoldsDays(start, after, {day}, topN)
    ensures FoldedRowsOf(start, day, users, topN) == FoldedRows(start, {day}, topN)
  {
    NoRowsNoFold(start, day, users, topN);
  }

  lemma OnlyAdd(group: map<Name, Bucket>, done: set<Name>, name: Name)
    requires name !in done && done + {name} <= group.Keys
    ensures Total(Only(group, done + {name})) == Plus(Total(Only(group, done)), group[name])
  {
    OnlyRemove(group, done + {name}, name);
    assert done + {name} - {name} == done;
    TotalRemove(Only(group, done + {name}), name);
  }

  /** Deleting the tail rows and adding their total to the other row folds exactly one user's group. */
  lemma FoldGroupEffect(before: map<RowKey, Bucket>, after: map<RowKey, Bucket>, day: int, user: string, topN: nat)
    requires var group := Group(before, day, user);
      var tail := Tail(group, topN);
      var other := RowKey(day, user, OTHER);
      tail != {} &&
      after == (before - RowsNamed(day, user, tail))[other := Plus(Value(before, other), Total(Only(group, tail)))]
    ensures FoldsUsers(before, after, day, {user}, topN)
  {
    var group := Group(before, day, user);
    var tail := Tail(group, topN);
    var other := RowKey(day, user, OTHER);
    var bucket := Plus(Value(before, other), Total(Only(group, tail)));
    assert Value(before, other) == if OTHER in group then group[OTHER] else EMPTY;
    forall d, u
      ensures Group(after, d, u) == if d == day && u == user then Folded(group, topN) else Group(before, d, u)
    {
      GroupMinus(before, day, user, tail, d, u);
      GroupPut(before - RowsNamed(day, user, tail), other, bucket, d, u);
    }
  }

  lemma GroupMinus(rows: map<RowKey, Bucket>, day: int, user: string, names: set<Name>, d: int, u: string)
    ensures Group(rows - RowsNamed(day, user, names), d, u)
         == if d == day && u == user then Group(rows, d, u) - names else Group(rows, d, u)
  {
  }

  lemma RowsMinusOne(rows: map<RowKey, Bucket>, day: int, user: string, names: set<Name>, name: Name)
    ensures rows - RowsNamed(day, user, names) - {RowKey(day, user, name)}
         == rows - RowsNamed(day, user, names + {name})
  {
  }

  lemma GroupPut(rows: map<RowKey, Bucket>, row: RowKey, bucket: Bucket, d: int, u: string)
    ensures Group(rows[row := bucket], d, u)
         == if d == row.day && u == row.user then Group(rows, d, u)[row.domain := bucket] else Group(rows, d, u)
  {
  }

  lemma FoldOneMoreDay(start: map<RowKey, Bucket>, middle: map<RowKey, Bucket>, after: map<RowKey, Bucket>,
                       done: set<int>, day: int, topN: nat)
    requires day !in done
    requires FoldsDays(start, middle, done, topN) && FoldsDays(middle, after, {day}, topN)
    ensures FoldsDays(start, after, done + {day}, topN)
  {
  }

  lemma CountOneMoreDay(start: map<RowKey, Bucket>, middle: map<RowKey, Bucket>, done: set<int>, day: int, topN: nat)
    requires day !in done && FoldsDays(start, middle, done, topN)
    ensures |FoldedRows(start, done + {day}, topN)|
         == |FoldedRows(start, done, topN)| + |FoldedRows(middle, {day}, topN)|
  {
    SameDaySameFold(start, middle, day, topN);
    SplitFoldedRows(start, done, day, topN);
  }

  lemma SplitFoldedRows(rows: map<RowKey, Bucket>, done: set<int>, day: int, topN: nat)
    requires day !in done
    ensures |FoldedRows(rows, done + {day}, topN)| == |FoldedRows(rows, done, topN)| + |FoldedRows(rows, {day}, topN)|
  {
    assert FoldedRows(rows, done + {day}, topN) == FoldedRows(rows, done, topN) + FoldedRows(rows, {day}, topN);
  }

  lemma SameDaySameFold(a: map<RowKey, Bucket>, b: map<RowKey, Bucket>, day: int, topN: nat)
    requires forall user :: Group(a, day, user) == Group(b, day, user)
    ensures FoldedRows(a, {day}, topN) == FoldedRows(b, {day}, topN)
  {
    forall row: RowKey | row.day == day
      ensures row in FoldedRows(a, {day}, topN) <==> row in FoldedRows(b, {day}, topN)
    {
      var user := row.user;
      assert Group(a, day, user) == Group(b, day, user);
      if row.domain in Tail(Group(a, day, user), topN) {
        TailRow(a, row, topN);
        TailRow(b, row, topN);
      }
    }
  }

  class TrafficStore {
    var rows: map<RowKey, Bucket>
    var destinations: map<DestinationKey, Bucket>
    var checkpoints: map<Id, Checkpoint>
    var lastBatch: Option<nat>
    var days: map<int, bool>

    ghost function Contents(): Tables
      reads this
    {
      Tables(rows, destinations, checkpoints, lastBatch, days)
    }

    constructor ()
      ensures Contents() == NO_TABLES
    {
      rows, destinations, checkpoints, lastBatch, days := map[], map[], map[], None, map[];
    }

    /** A failed commit leaves every table as it was. */
    method CommitStreamBatch(batch: Batch) returns (ok: bool)
      modifies this
      ensures Contents() == Commit(old(Contents()), batch)
      ensures ok == (old(lastBatch) == Some(batch.batchId) || !MeetsCompactedDay(old(Contents()), batch))
      ensures ok && old(lastBatch) != Some(batch.batchId) ==> forall d <- batch.deltas :: d.key.day in days
    {
      if lastBatch != Some(batch.batchId) {
        DeltaDaysKnown(days, batch.deltas);
      }
      if lastBatch == Some(batch.batchId) {
        return true;
      }
      var newRows, newDestinations, newDays := rows, destinations, days;
      for i := 0 to |batch.deltas|
        invariant Contents() == old(Contents())
        invariant newRows == AddRows(rows, batch.deltas[..i])
        invariant newDestinations == AddDestinations(destinations, batch.deltas[..i])
        invariant newDays == AddDays(days, batch.deltas[..i])
        invariant forall j :: 0 <= j < i ==> !CompactedDay(days, batch.deltas[j].key.day)
      {
        var delta := batch.deltas[i];
        AddDaysMarks(days, batch.deltas[..i], delta.key.day);
        assert batch.deltas[..i + 1][..i] == batch.deltas[..i];
        if delta.key.day in newDays && newDays[delta.key.day] {
          assert CompactedDay(days, batch.deltas[i].key.day);
          return false;
        }
        if delta.key.day !in newDays {
          newDays := newDays[delta.key.day := false];
        }
        var row := Row(delta.key);
        newRows := newRows[row := Plus(if row in newRows then newRows[row] else EMPTY, delta.bucket)];
        if delta.key.ip != "" {
          var to := Destination(delta.key);
          newDestinations := newDestinations[to := Plus(DestinationValue(newDestinations, to), delta.bucket)];
        }
      }
      assert batch.deltas[..|batch.deltas|] == batch.deltas;
      var written := Without(checkpoints, batch.removed) + batch.checkpoints;
      rows, destinations, days, lastBatch := newRows, newDestinations, newDays, Some(batch.batchId);
      checkpoints := Without(written, Excess(written));
      return true;
    }

    /** Another service commits to a day that this table had not seen. */
    method NoteDay(day: int)
      requires day !in days
      modifies this`days
      ensures days == old(days)[day := false]
    {
      days := days[day := false];
    }

    method CompactCompletedDays(before: int, topN: nat) returns (folded: nat)
      modifies this`rows, this`days
      ensures FoldsDays(old(rows), rows, DueDays(old(days), before), topN)
      ensures days == MarkDays(old(days), DueDays(old(days), before))
      ensures folded == |FoldedRows(old(rows), DueDays(old(days), before), topN)|
    {
      var due := DueDays(days, before);
      ghost var start := rows;
      var left := due;
      folded := 0;
      while left != {}
        invariant left <= due
        invariant FoldsDays(start, rows, due - left, topN)
        invariant days == MarkDays(old(days), due - left)
        invariant folded == |FoldedRows(start, due - left, topN)|
        decreases left
      {
        var day: int :| day in left;
        ghost var middle := rows;
        var count := CompactDomainUsage(day, topN);
        FoldOneMoreDay(start, middle, rows, due - left, day, topN);
        CountOneMoreDay(start, middle, due - left, day, topN);
        folded := folded + count;
        days := days[day := true];
        assert due - (left - {day}) == due - left + {day};
        left := left - {day};
      }
      assert due - left == due;
    }

    method CompactDomainUsage(day: int, topN: nat) returns (folded: nat)
      modifies this`rows
      ensures FoldsDays(old(rows), rows, {day}, topN)
      ensures folded == |FoldedRows(old(rows), {day}, topN)|
    {
      var users := set row <- rows.Keys | row.day == day :: row.user;
      ghost var start := rows;
      var left := users;
      folded := 0;
      while left != {}
        invariant left <= users
        invariant FoldsUsers(start, rows, day, users - left, topN)
        invariant folded == |FoldedRowsOf(start, day, users - left, topN)|
        decreases left
      {
        var user :| user in left;
        ghost var middle := rows;
        var count := FoldGroup(day, user, topN);
        FoldUserStep(start, middle, rows, day, users - left, user, topN);
        FoldOneMoreUser(start, day, users - left, user, topN);
        folded := folded + count;
        assert users - (left - {user}) == users - left + {user};
        left := left - {user};
      }
      assert users - left == users;
      FoldAllUsers(start, rows, day, users, topN);
    }

    method FoldGroup(day: int, user: string, topN: nat) returns (folded: nat)
      modifies this`rows
      ensures FoldsUsers(old(rows), rows, day, {user}, topN)
      ensures folded == |Tail(Group(old(rows), day, user), topN)|
    {
      var group := Group(rows, day, user);
      var tail := Tail(group, topN);
      if tail == {} {
        return 0;
      }
      var newRows, moved;
      newRows, moved, folded := DeleteTail(rows, day, user, group, tail);
      var other := RowKey(day, user, OTHER);
      assert Value(newRows, other) == Value(rows, other);
      newRows := newRows[other := Plus(Value(newRows, other), moved)];
      FoldGroupEffect(rows, newRows, day, user, topN);
      rows := newRows;
    }
  }

  /** Row by row: the tail goes, its sums and its size are kept. */
  method DeleteTail(rows: map<RowKey, Bucket>, day: int, user: string, group: map<Name, Bucket>, tail: set<Name>)
      returns (left: map<RowKey, Bucket>, moved: Bucket, folded: nat)
    requires group == Group(rows, day, user) && tail <= group.Keys
    ensures left == rows - RowsNamed(day, user, tail)
    ensures moved == Total(Only(group, tail)) && folded == |tail|
  {
    var rest := tail;
    left, moved, folded := rows, EMPTY, 0;
    while rest != {}
      invariant rest <= tail
      invariant left == rows - RowsNamed(day, user, tail - rest)
      invariant moved == Total(Only(group, tail - rest))
      invariant folded + |rest| == |tail|
      decreases rest
    {
      var name: Name :| name in rest;
      OnlyAdd(group, tail - rest, name);
      RowsMinusOne(rows, day, user, tail - rest, name);
      assert tail - (rest - {name}) == tail - rest + {name};
      moved := Plus(moved, group[name]);
      left := left - {RowKey(day, user, name)};
      folded := folded + 1;
      rest := rest - {name};
    }
    assert tail - rest == tail;
  }
}
