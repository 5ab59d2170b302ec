/** Chrome's saved languages: the recovery record is durable before the profile changes. */
module ChromeLanguage {
  import opened Accounting

  type Words = nat

  datatype Key = AcceptLanguages | SelectedLanguages | ForcedLanguages | OtherKey(id: nat)

  /** A value of the preferences: a string, an empty list, or anything else. */
  datatype Json = Text(words: Words) | EmptyList | Raw(id: nat)

  type Intl = map<Key, Json>

  /** A preferences file: its `intl` container, that of the account store, and all the rest. */
  datatype Profile = Profile(intl: Option<Intl>, account: Option<Intl>, rest: nat)

  /** What sbc must know to undo its change of one profile. */
  datatype Record = Record(original: map<Key, Words>, hadIntl: bool, written: Words, previous: Option<Words>,
                           account: map<Key, Words>)

  datatype State = State(enabled: bool, target: Option<Words>, records: map<Id, Record>)

  const FIELDS: seq<Key> := [AcceptLanguages, SelectedLanguages]

  function Languages(p: Profile): Intl {
    if p.intl.Some? then p.intl.value else map[]
  }

  function AccountLanguages(p: Profile): Intl {
    if p.account.Some? then p.account.value else map[]
  }

  function Field(m: Intl, key: Key): Option<Json> {
    if key in m then Some(m[key]) else None
  }

  function Original(m: map<Key, Words>, key: Key): Option<Words> {
    if key in m then Some(m[key]) else None
  }

  predicate MatchesText(value: Option<Json>, words: Words) {
    value == Some(Text(words))
  }

  predicate MatchesWritten(value: Option<Json>, r: Record) {
    MatchesText(value, r.written) || (r.previous.Some? && MatchesText(value, r.previous.value))
  }

  predicate EqualValue(value: Option<Json>, original: Option<Words>) {
    if value.None? || original.None? then value.None? && original.None? else value.value == Text(original.value)
  }

  predicate HasForced(m: Intl) {
    ForcedLanguages in m && m[ForcedLanguages] != EmptyList
  }

  // --- what the two commands make of a profile --------------------------------------------

  function Applied(p: Profile, accountKeys: set<Key>, want: Words): Profile {
    Profile(Some(Languages(p)[AcceptLanguages := Text(want)][SelectedLanguages := Text(want)]),
            if p.account.None? then None
            else Some(map key <- p.account.value :: if key in accountKeys then Text(want) else p.account.value[key]),
            p.rest)
  }

  /** A value that sbc wrote goes back; any other value stays. */
  function RestoredField(m: Intl, key: Key, r: Record): Intl {
    if EqualValue(Field(m, key), Original(r.original, key)) || !MatchesWritten(Field(m, key), r) then m
    else if key in r.original then m[key := Text(r.original[key])]
    else m - {key}
  }

  predicate GoesBack(account: Intl, key: Key, r: Record) {
    && key in account && key in r.account
    && !EqualValue(Field(account, key), Original(r.account, key)) && MatchesWritten(Field(account, key), r)
  }

  function RestoredAccount(account: Intl, r: Record): Intl {
    map key <- account :: if GoesBack(account, key, r) then Text(r.account[key]) else account[key]
  }

  function RestoredIntl(p: Profile, r: Record): Intl {
    RestoredField(RestoredField(Languages(p), AcceptLanguages, r), SelectedLanguages, r)
  }

  /** Nothing is written when nothing goes back; a container that sbc created goes with its last field. */
  function Restored(p: Profile, r: Record): Profile {
    var intl, account := RestoredIntl(p, r), RestoredAccount(AccountLanguages(p), r);
    if intl == Languages(p) && account == AccountLanguages(p) then p
    else Profile(if !r.hadIntl && intl == map[] then None else Some(intl),
                 if p.account.None? then None else Some(account), p.rest)
  }

  // --- what a record promises ----------------------------------------------------------------

  predicate FieldKeys(m: map<Key, Words>) {
    forall key <- m :: key in FIELDS
  }

  /** A record that the next command accepts. */
  predicate RecordValid(r: Record) {
    FieldKeys(r.original) && FieldKeys(r.account) && (!r.hadIntl ==> r.original == map[])
  }

  predicate StateValid(s: State) {
    forall id <- s.records :: RecordValid(s.records[id])
  }

  /** The record holds the fields of the profile as it was before sbc. */
  predicate Describes(r: Record, before: Profile) {
    && r.hadIntl == before.intl.Some?
    && (forall key <- FIELDS :: EqualValue(Field(Languages(before), key), Original(r.original, key)))
    && (forall key <- FIELDS :: EqualValue(Field(AccountLanguages(before), key), Original(r.account, key)))
    && RecordValid(r)
  }

  /** The profile is as it was, or holds one of the two values that the record owns. */
  predicate Recoverable(r: Record, p: Profile, before: Profile) {
    && Describes(r, before)
    && (p == before || p == Applied(before, r.account.Keys, r.written)
        || (r.previous.Some? && p == Applied(before, r.account.Keys, r.previous.value)))
  }

  lemma RestoreUndoesApply(r: Record, before: Profile, want: Words)
    requires Describes(r, before)
    requires want == r.written || r.previous == Some(want)
    ensures Restored(Applied(before, r.account.Keys, want), r) == before
  {
    var p := Applied(before, r.account.Keys, want);
    var m := Languages(p);
    assert Field(m, AcceptLanguages) == Some(Text(want)) && Field(m, SelectedLanguages) == Some(Text(want));
    RestoredFields(r, before, want);
    RestoredAccounts(r, before, want);
  }

  lemma RestoredFields(r: Record, before: Profile, want: Words)
    requires Describes(r, before)
    requires want == r.written || r.previous == Some(want)
    ensures RestoredIntl(Applied(before, r.account.Keys, want), r) == Languages(before)
  {
    var a, b := AcceptLanguages, SelectedLanguages;
    var m := Languages(before);
    assert a in FIELDS && b in FIELDS;
    assert RestoredField(m[a := Text(want)][b := Text(want)], a, r) == (if a in m then m else m - {a})[b := Text(want)];
  }

  lemma RestoredAccounts(r: Record, before: Profile, want: Words)
    requires Describes(r, before)
    requires want == r.written || r.previous == Some(want)
    ensures RestoredAccount(AccountLanguages(Applied(before, r.account.Keys, want)), r) == AccountLanguages(before)
  {
    var account := AccountLanguages(Applied(before, r.account.Keys, want));
    forall key | key in AccountLanguages(before)
      ensures RestoredAccount(account, r)[key] == AccountLanguages(before)[key]
    {
      if key in r.account {
        assert key in FIELDS;
      }
    }
  }

  lemma RestoreKeepsOriginal(r: Record, before: Profile)
    requires Describes(r, before)
    ensures Restored(before, r) == before
  {
    var m := Languages(before);
    assert AcceptLanguages in FIELDS && SelectedLanguages in FIELDS;
    assert RestoredField(m, AcceptLanguages, r) == m;
    forall key | key in AccountLanguages(before) ensures !GoesBack(AccountLanguages(before), key, r) {
      if key in r.account {
        assert key in FIELDS;
      }
    }
    assert RestoredAccount(AccountLanguages(before), r) == AccountLanguages(before);
  }

  /** Wherever a crash left things, restoring gives back the profile as it was before sbc, with every unrelated
      preference and with or without its `intl` container. */
  lemma RestoreRecovers(r: Record, p: Profile, before: Profile)
    requires Recoverable(r, p, before)
    ensures Restored(p, r) == before
  {
    if p == before {
      RestoreKeepsOriginal(r, before);
    } else if p == Applied(before, r.account.Keys, r.written) {
      RestoreUndoesApply(r, before, r.written);
    } else {
      RestoreUndoesApply(r, before, r.previous.value);
    }
  }

  lemma ApplyTwice(p: Profile, keys: set<Key>, first: Words, second: Words)
    ensures Applied(Applied(p, keys, first), keys, second) == Applied(p, keys, second)
  {
    var m := Languages(p);
    var a, b := AcceptLanguages, SelectedLanguages;
    assert m[a := Text(first)][b := Text(first)][a := Text(second)][b := Text(second)]
        == m[a := Text(second)][b := Text(second)];
    if p.account.Some? {
      var once := map key <- p.account.value :: if key in keys then Text(first) else p.account.value[key];
      assert (map key <- once :: if key in keys then Text(second) else once[key])
          == map key <- p.account.value :: if key in keys then Text(second) else p.account.value[key];
    }
  }

  // --- ownership ----------------------------------------------------------------------------------

  /** One replacement of a preferences file, and the record that was durable at that moment. */
  datatype Write = Write(before: Profile, after: Profile, record: Record)

  predicate OwnsField(value: Option<Json>, original: Option<Words>, r: Record) {
    EqualValue(value, original) || MatchesWritten(value, r)
  }

  /** A command replaces a language value only by leave of the record, and touches nothing else. */
  ghost predicate OwnedChange(w: Write) {
    && w.after.rest == w.before.rest
    && (forall key :: Field(Languages(w.after), key) != Field(Languages(w.before), key) ==>
          key in FIELDS && OwnsField(Field(Languages(w.before), key), Original(w.record.original, key), w.record))
    && AccountLanguages(w.after).Keys == AccountLanguages(w.before).Keys
    && w.after.account.Some? == w.before.account.Some?
    && (forall key :: Field(AccountLanguages(w.after), key) != Field(AccountLanguages(w.before), key) ==>
          key in w.record.account && OwnsField(Field(AccountLanguages(w.before), key), Original(w.record.account, key),
                                               w.record))
  }

  predicate OwnsIntl(m: Intl, r: Record) {
    forall key <- FIELDS :: OwnsField(Field(m, key), Original(r.original, key), r)
  }

  predicate OwnsAccount(m: Intl, r: Record) {
    forall key <- r.account :: key in m ==> OwnsField(Field(m, key), Original(r.account, key), r)
  }

  lemma ApplyIsOwned(p: Profile, r: Record, want: Words)
    requires OwnsIntl(Languages(p), r) && OwnsAccount(AccountLanguages(p), r)
    ensures OwnedChange(Write(p, Applied(p, r.account.Keys, want), r))
  {
    assert AcceptLanguages in FIELDS && SelectedLanguages in FIELDS;
  }

  lemma RestoreIsOwned(p: Profile, r: Record)
    ensures OwnedChange(Write(p, Restored(p, r), r))
  {
    var a, b := AcceptLanguages, SelectedLanguages;
    var m := Languages(p);
    assert a in FIELDS && b in FIELDS;
    assert Languages(Restored(p, r)) == RestoredIntl(p, r);
    forall key | Field(RestoredIntl(p, r), key) != Field(m, key)
      ensures key in FIELDS && OwnsField(Field(m, key), Original(r.original, key), r)
    {
      assert key == a || key == b;
    }
    assert AccountLanguages(Restored(p, r)) == RestoredAccount(AccountLanguages(p), r) by {
      assert p.account.None? ==> RestoredAccount(AccountLanguages(p), r) == map[];
    }
  }

  /** Where a container holds a value that sbc wrote, the restored one holds the value that was there before. */
  predicate GoneBack(before: Intl, after: Intl, originals: map<Key, Words>, key: Key, r: Record) {
    key in before && (before[key] == Text(r.written) || (r.previous.Some? && before[key] == Text(r.previous.value))) ==>
      if key in originals then key in after && after[key] == Text(originals[key]) else key !in after
  }

  /** Each field goes back by itself, whatever somebody else chose for the others. */
  lemma RestoreIsComplete(p: Profile, r: Record)
    ensures forall key <- FIELDS :: GoneBack(Languages(p), Languages(Restored(p, r)), r.original, key, r)
    ensures forall key <- r.account ::
      GoneBack(AccountLanguages(p), AccountLanguages(Restored(p, r)), r.account, key, r)
  {
    assert Languages(Restored(p, r)) == RestoredIntl(p, r);
    assert AccountLanguages(Restored(p, r)) == RestoredAccount(AccountLanguages(p), r) by {
      assert p.account.None? ==> RestoredAccount(AccountLanguages(p), r) == map[];
    }
  }

  /** No field holds a value of sbc's any more, unless that is what it held before. */
  predicate GivenUp(m: Intl, originals: map<Key, Words>, key: Key, r: Record) {
    key in m && (m[key] == Text(r.written) || (r.previous.Some? && m[key] == Text(r.previous.value))) ==>
      key in originals && m[key] == Text(originals[key])
  }

  predicate AllGivenUp(p: Profile, r: Record) {
    && (forall key <- FIELDS :: GivenUp(Languages(p), r.original, key, r))
    && (forall key <- r.account :: GivenUp(AccountLanguages(p), r.account, key, r))
  }

  lemma RestoreGivesUp(p: Profile, r: Record)
    ensures AllGivenUp(Restored(p, r), r)
  {
    RestoreIsComplete(p, r);
    RestoreIsOwned(p, r);
    var after := Restored(p, r);
    forall key | key in FIELDS ensures GivenUp(Languages(after), r.original, key, r) {
      assert GoneBack(Languages(p), Languages(after), r.original, key, r);
      assert Field(Languages(after), key) == Field(Languages(p), key)
          || OwnsField(Field(Languages(p), key), Original(r.original, key), r);
    }
    forall key | key in r.account ensures GivenUp(AccountLanguages(after), r.account, key, r) {
      assert GoneBack(AccountLanguages(p), AccountLanguages(after), r.account, key, r);
      assert Field(AccountLanguages(after), key) == Field(AccountLanguages(p), key)
          || OwnsField(Field(AccountLanguages(p), key), Original(r.account, key), r);
    }
  }

  /** What is remembered of a profile is never altered; values of the account store may only be added. */
  predicate RecordGrows(r: Record, later: Record) {
    && later.original == r.original && later.hadIntl == r.hadIntl
    && forall key <- r.account :: key in later.account && later.account[key] == r.account[key]
  }

  ghost predicate RecordsGrow(a: map<Id, Record>, b: map<Id, Record>) {
    forall id <- a :: id in b && RecordGrows(a[id], b[id])
  }

  // --- reading a profile ---------------------------------------------------------------------------

  /** The languages of a profile that sbc meets for the first time, unless one of them is not a string. */
  function Captured(m: Intl): Option<map<Key, Words>> {
    if exists key <- FIELDS :: key in m && !m[key].Text? then None
    else Some(map key <- m | key in FIELDS && m[key].Text? :: m[key].words)
  }

  /** Every language of the account is text, and nobody changed one that is recorded. */
  predicate AccountFits(values: Intl, r: Record) {
    forall key <- FIELDS :: key in values ==>
      values[key].Text? && (key in r.account ==> OwnsField(Some(values[key]), Some(r.account[key]), r))
  }

  /** A profile that may take the target: no policy forces its languages, they are text, and those that are recorded
      hold what they held before or what sbc wrote, without another target half written. */
  predicate Ready(records: map<Id, Record>, id: Id, p: Profile, want: Words) {
    && Unforced(p)
    && if id in records then
         && OwnsIntl(Languages(p), records[id]) && AccountFits(AccountLanguages(p), records[id])
         && (records[id].previous == None || records[id].written == want)
       else
         forall key <- FIELDS ::
           (key in Languages(p) ==> Languages(p)[key].Text?)
           && (key in AccountLanguages(p) ==> AccountLanguages(p)[key].Text?)
  }

  ghost predicate AllReady(records: map<Id, Record>, profiles: map<Id, Profile>, want: Words) {
    forall id <- profiles :: Ready(records, id, profiles[id], want)
  }

  ghost predicate RecordsElsewhere(before: map<Id, Record>, after: map<Id, Record>, id: Id) {
    forall other: Id :: other != id ==>
      (other in after <==> other in before) && (other in after ==> after[other] == before[other])
  }

  ghost predicate StillReady(records: map<Id, Record>, ids: set<Id>, profiles: map<Id, Profile>, want: Words) {
    forall id <- ids :: id in profiles && Ready(records, id, profiles[id], want)
  }

  lemma OthersStayReady(records: map<Id, Record>, records': map<Id, Record>, ids: set<Id>,
                        profiles: map<Id, Profile>, profiles': map<Id, Profile>, id: Id, want: Words)
    requires StillReady(records, ids, profiles, want)
    requires RecordsElsewhere(records, records', id) && SameElsewhere(profiles, profiles', {}, Some(id))
    ensures StillReady(records', ids - {id}, profiles', want)
  {
    forall other | other in ids - {id} ensures other in profiles' && Ready(records', other, profiles'[other], want) {
      assert Ready(records, other, profiles[other], want);
    }
  }

  /** Adds the account's languages that are not recorded yet, field by field. Even when it fails half way, what it
      added stays in the record, which the caller shares. */
  method CaptureAccount(r: Record, values: Intl) returns (account: map<Key, Words>, ok: bool)
    requires RecordValid(r)
    ensures FieldKeys(account) && RecordGrows(r, r.(account := account))
    ensures forall key <- account :: key in r.account || Field(values, key) == Some(Text(account[key]))
    ensures ok ==> OwnsAccount(values, r.(account := account))
    ensures ok ==> forall key <- FIELDS :: key in values ==> key in account
    ensures AccountFits(values, r) ==> ok
  {
    account, ok := r.account, true;
    for i := 0 to |FIELDS|
      invariant FieldKeys(account) && RecordGrows(r, r.(account := account))
      invariant forall key <- account :: key in r.account || Field(values, key) == Some(Text(account[key]))
      invariant forall key <- FIELDS[i..] :: key in account ==> key in r.account
      invariant forall key <- FIELDS[..i] :: key in values ==>
          key in account && OwnsField(Field(values, key), Some(account[key]), r)
    {
      var key := FIELDS[i];
      if key in values {
        if !values[key].Text? {
          return account, false;
        }
        if key in account {
          if !MatchesWritten(Some(values[key]), r) && !EqualValue(Some(values[key]), Some(account[key])) {
            return account, false;
          }
        } else {
          account := account[key := values[key].words];
        }
      }
    }
  }

  // --- following every profile that nobody else edits ---------------------------------------------

  predicate Tracked(records: map<Id, Record>, id: Id, profiles: map<Id, Profile>, base: map<Id, Profile>) {
    && (id in profiles <==> id in base)
    && (id in profiles ==>
          if id in records then Recoverable(records[id], profiles[id], base[id]) else profiles[id] == base[id])
  }

  ghost predicate AllTracked(records: map<Id, Record>, touched: set<Id>, profiles: map<Id, Profile>,
                             base: map<Id, Profile>) {
    forall id: Id :: id !in touched ==> Tracked(records, id, profiles, base)
  }

  /** A new target is written with the old one still owned, until the profile holds it. */
  function Retargeted(r: Record, want: Words): Record {
    if r.written == want then r else r.(previous := Some(r.written), written := want)
  }

  function Met(p: Profile, original: map<Key, Words>, account: map<Key, Words>, want: Words): Record {
    Record(original, p.intl.Some?, want, None, account)
  }

  lemma MetDescribes(p: Profile, account: map<Key, Words>, want: Words)
    requires Captured(Languages(p)).Some? && FieldKeys(account)
    requires forall key <- account :: Field(AccountLanguages(p), key) == Some(Text(account[key]))
    requires forall key <- FIELDS :: key in AccountLanguages(p) ==> key in account
    ensures Recoverable(Met(p, Captured(Languages(p)).value, account, want), p, p)
  {
    var r := Met(p, Captured(Languages(p)).value, account, want);
    forall key | key in FIELDS
      ensures EqualValue(Field(Languages(p), key), Original(r.original, key))
      ensures EqualValue(Field(AccountLanguages(p), key), Original(account, key))
    {
    }
  }

  lemma RetargetKeeps(r: Record, p: Profile, before: Profile, account: map<Key, Words>, want: Words)
    requires Recoverable(r, p, before) && RecordGrows(r, r.(account := account)) && FieldKeys(account)
    requires forall key <- account :: key in r.account || Field(AccountLanguages(p), key) == Some(Text(account[key]))
    requires r.previous.Some? ==> r.written == want
    ensures account == r.account
    ensures Recoverable(Retargeted(r.(account := account), want), p, before)
  {
    SharedAccountIsSame(r, p, before, account);
  }

  lemma SharedAccountIsSame(r: Record, p: Profile, before: Profile, account: map<Key, Words>)
    requires Recoverable(r, p, before) && RecordGrows(r, r.(account := account)) && FieldKeys(account)
    requires forall key <- account :: key in r.account || Field(AccountLanguages(p), key) == Some(Text(account[key]))
    ensures account == r.account
  {
    forall key | key in account ensures key in r.account {
      assert key in FIELDS;
      assert EqualValue(Field(AccountLanguages(before), key), Original(r.account, key));
    }
  }

  lemma ApplyKeeps(r: Record, p: Profile, before: Profile)
    requires Recoverable(r, p, before)
    ensures Recoverable(r, Applied(p, r.account.Keys, r.written), before)
    ensures Recoverable(r.(previous := None), Applied(p, r.account.Keys, r.written), before)
  {
    ApplyTwice(before, r.account.Keys, r.written, r.written);
    if r.previous.Some? {
      ApplyTwice(before, r.account.Keys, r.previous.value, r.written);
    }
  }

  lemma GrowthChains(a: map<Id, Record>, b: map<Id, Record>, c: map<Id, Record>)
    requires RecordsGrow(a, b) && RecordsGrow(b, c)
    ensures RecordsGrow(a, c)
  {
    forall id | id in a ensures RecordGrows(a[id], c[id]) {
      assert RecordGrows(a[id], b[id]) && RecordGrows(b[id], c[id]);
    }
  }

  lemma OwnedStays(r: Record, later: Record, m: Intl)
    requires OwnsIntl(m, r) && RecordGrows(r, later)
    requires later.written == r.written || later.previous == Some(r.written)
    requires r.previous.Some? ==> later.written == r.written && later.previous == r.previous
    ensures OwnsIntl(m, later)
  {
  }

  lemma OwnedAccountStays(r: Record, later: Record, m: Intl)
    requires OwnsAccount(m, r) && later.account == r.account
    requires later.written == r.written || later.previous == Some(r.written)
    requires r.previous.Some? ==> later.written == r.written && later.previous == r.previous
    ensures OwnsAccount(m, later)
  {
  }

  /** A record of a profile that sbc meets for the first time. */
  method PlanNew(id: Id, p: Profile, want: Words) returns (planned: Option<Record>)
    ensures planned.Some? ==>
      && RecordValid(planned.value) && planned.value.written == want
      && OwnsIntl(Languages(p), planned.value) && OwnsAccount(AccountLanguages(p), planned.value)
      && Recoverable(planned.value, p, p) && Covers(planned.value, p)
    ensures Ready(map[], id, p, want) ==> planned.Some?
  {
    var original := Captured(Languages(p));
    if original.None? {
      return None;
    }
    var r := Met(p, original.value, map[], want);
    var account, ok := CaptureAccount(r, AccountLanguages(p));
    if !ok {
      return None;
    }
    MetDescribes(p, account, want);
    planned := Some(r.(account := account));
  }

  /** What a record's next version keeps of it. */
  ghost predicate Continues(r: Record, next: Record, p: Profile) {
    && RecordValid(next) && RecordGrows(r, next)
    && forall before :: Recoverable(r, p, before) ==> Recoverable(next, p, before)
  }

  /** The next version of a record, unless the profile must not be written. What was captured of the account stays in
      the record that the command holds in memory even then, because both share it. */
  method PlanOwned(r: Record, p: Profile, want: Words) returns (kept: Record, planned: Option<Record>)
    requires RecordValid(r)
    ensures Continues(r, kept, p)
    ensures planned.Some? ==>
      && Continues(r, planned.value, p) && planned.value.written == want && Covers(planned.value, p)
      && OwnsIntl(Languages(p), planned.value) && OwnsAccount(AccountLanguages(p), planned.value)
    ensures
      OwnsIntl(Languages(p), r) && AccountFits(AccountLanguages(p), r) && (r.previous == None || r.written == want) ==>
        planned.Some?
  {
    kept, planned := r, None;
    if !OwnsIntl(Languages(p), r) {
      return;
    }
    var account, ok := CaptureAccount(r, AccountLanguages(p));
    forall before | Recoverable(r, p, before) ensures account == r.account {
      SharedAccountIsSame(r, p, before, account);
    }
    if r.account != map[] {
      kept := r.(account := account);
    }
    if !ok || (r.previous.Some? && r.written != want) {
      return;
    }
    var shared := r.(account := account);
    var next := Retargeted(shared, want);
    OwnedStays(r, next, Languages(p));
    OwnedAccountStays(shared, next, AccountLanguages(p));
    forall before | Recoverable(r, p, before) ensures Recoverable(next, p, before) {
      RetargetKeeps(r, p, before, account, want);
    }
    planned := Some(next);
  }

  function With(state: State, id: Id, r: Record): State {
    state.(records := state.records[id := r])
  }

  /** Both language fields of a profile hold the given words, and so does each of them that its account store has. */
  predicate Speaks(p: Profile, want: Words) {
    && p.intl.Some?
    && (forall key <- FIELDS :: key in p.intl.value && p.intl.value[key] == Text(want))
    && (p.account.Some? ==>
          forall key <- FIELDS :: key in p.account.value ==> p.account.value[key] == Text(want))
  }

  /** No policy forces the languages of the profile, in neither container. */
  predicate Unforced(p: Profile) {
    && (p.intl.Some? && ForcedLanguages in p.intl.value ==> p.intl.value[ForcedLanguages] == EmptyList)
    && (p.account.Some? && ForcedLanguages in p.account.value ==> p.account.value[ForcedLanguages] == EmptyList)
  }

  predicate Covers(r: Record, p: Profile) {
    forall key <- FIELDS :: key in AccountLanguages(p) ==> key in r.account
  }

  lemma ApplicationSpeaks(p: Profile, r: Record, want: Words)
    requires Covers(r, p)
    ensures Speaks(Applied(p, r.account.Keys, want), want)
  {
    assert AcceptLanguages in FIELDS && SelectedLanguages in FIELDS;
  }

  /** What a target's application adds to the replacements: free profiles that speak its languages afterwards. */
  ghost predicate Adopts(earlier: seq<Write>, log: seq<Write>, want: Words) {
    && earlier <= log
    && forall i :: |earlier| <= i < |log| ==> Unforced(log[i].before) && Speaks(log[i].after, want)
  }

  /** Only this profile, and those that somebody else edits, may have changed. */
  ghost predicate SameElsewhere(before: map<Id, Profile>, after: map<Id, Profile>, touched: set<Id>, id: Option<Id>) {
    forall other: Id :: other !in touched && id != Some(other) ==>
      (other in after <==> other in before) && (other in after ==> after[other] == before[other])
  }

  lemma StillTracked(records: map<Id, Record>, touched: set<Id>, profiles: map<Id, Profile>, base: map<Id, Profile>,
                     id: Id, r: Record)
    requires AllTracked(records, touched, profiles, base)
    requires id !in touched && id in profiles ==> Recoverable(r, profiles[id], base[id])
    ensures AllTracked(records[id := r], touched, profiles, base)
  {
    forall other: Id | other !in touched ensures Tracked(records[id := r], other, profiles, base) {
      assert Tracked(records, other, profiles, base);
    }
  }

  datatype Outcome = Done | Refused | Failed | Crashed

  function OutcomeOf(result: Replaced): Outcome {
    match result
    case Ok => Done
    case Died => Crashed
    case _ => Failed
  }

  ghost predicate RecordsKept(before: map<Id, Record>, after: map<Id, Record>) {
    forall id <- after :: id in before && after[id] == before[id]
  }

  lemma WithoutTracked(records: map<Id, Record>, touched: set<Id>, profiles: map<Id, Profile>, base: map<Id, Profile>,
                       id: Id)
    requires AllTracked(records, touched, profiles, base)
    requires id !in touched && id in profiles ==> profiles[id] == base[id]
    ensures AllTracked(records - {id}, touched, profiles, base)
  {
    forall other: Id | other !in touched ensures Tracked(records - {id}, other, profiles, base) {
      assert Tracked(records, other, profiles, base);
    }
  }

  lemma RestoredIsRecoverable(r: Record, p: Profile, before: Profile)
    requires Recoverable(r, p, before)
    ensures Recoverable(r, Restored(p, r), before)
  {
    RestoreRecovers(r, p, before);
  }

  // --- restoring field by field ---------------------------------------------------------------------

  /** Whether somebody else's choice is kept: a value that is neither the original nor sbc's. */
  ghost predicate KeepsIntl(m: Intl, r: Record) {
    exists key <- FIELDS :: !OwnsField(Field(m, key), Original(r.original, key), r)
  }

  ghost predicate KeepsAccount(m: Intl, r: Record) {
    exists key <- r.account :: !OwnsField(Field(m, key), Original(r.account, key), r)
  }

  method RestoreIntl(p: Profile, r: Record) returns (intl: Intl, preserved: bool)
    ensures intl == RestoredIntl(p, r) && preserved == KeepsIntl(Languages(p), r)
  {
    intl, preserved := Languages(p), false;
    for i := 0 to 2
      invariant intl == if i == 0 then Languages(p)
                        else if i == 1 then RestoredField(Languages(p), AcceptLanguages, r) else RestoredIntl(p, r)
      invariant preserved == exists j ::
          0 <= j < i && !OwnsField(Field(Languages(p), FIELDS[j]), Original(r.original, FIELDS[j]), r)
    {
      var key := FIELDS[i];
      var value := Field(intl, key);
      if !EqualValue(value, Original(r.original, key)) {
        if !MatchesWritten(value, r) {
          preserved := true;
        } else if key in r.original {
          intl := intl[key := Text(r.original[key])];
        } else {
          intl := intl - {key};
        }
      }
    }
  }

  method RestoreAccount(p: Profile, r: Record) returns (account: Intl, preserved: bool)
    ensures account == RestoredAccount(AccountLanguages(p), r) && preserved == KeepsAccount(AccountLanguages(p), r)
  {
    var values := AccountLanguages(p);
    account, preserved := values, false;
    var left := r.account.Keys;
    while left != {}
      invariant left <= r.account.Keys && account.Keys == values.Keys
      invariant forall key <- account ::
        account[key] == if key in left || !GoesBack(values, key, r) then values[key] else Text(r.account[key])
      invariant preserved == exists key <- r.account.Keys - left ::
          !OwnsField(Field(values, key), Original(r.account, key), r)
      decreases left
    {
      var key :| key in left;
      var value := Field(account, key);
      ghost var taken := r.account.Keys - left;
      assert r.account.Keys - (left - {key}) == taken + {key};
      if !EqualValue(value, Some(r.account[key])) {
        if !MatchesWritten(value, r) {
          preserved := true;
        } else {
          account := account[key := Text(r.account[key])];
        }
      }
      left := left - {key};
    }
  }

  // --- the commands ---------------------------------------------------------------------------------

  /** An atomic replacement can fail, can succeed and still report an error, or can be the last thing that a process
      lives to do or not to do. */
  datatype Replaced = Ok | NotReplaced | Unsynced | Died

  class Manager {
    var stateFile: Option<State>
    var profiles: map<Id, Profile>

    /** Nothing fails and nobody else acts: files can be read and replaced, and Chrome is closed. */
    const healthy: bool

    /** The profiles before the first command, those that somebody else edited since, and every replacement so far. */
    ghost const base: map<Id, Profile>
    ghost var touched: set<Id>
    ghost var log: seq<Write>

    function Records(): map<Id, Record>
      reads this
    {
      if stateFile.Some? then stateFile.value.records else map[]
    }

    ghost predicate Inv()
      reads this
    {
      && (stateFile.Some? ==> StateValid(stateFile.value))
      && AllTracked(Records(), touched, profiles, base)
      && forall w <- log :: OwnedChange(w)
    }

    /** The state a command holds in memory follows the profiles as the one on disk does. */
    ghost predicate Follows(state: State)
      reads this
    {
      StateValid(state) && AllTracked(state.records, touched, profiles, base)
    }

    constructor (profiles: map<Id, Profile>, healthy: bool)
      ensures Inv() && stateFile == None && this.profiles == profiles && base == profiles && touched == {} && log == []
      ensures this.healthy == healthy
    {
      stateFile, this.profiles, base, touched, log := None, profiles, profiles, {}, [];
      this.healthy := healthy;
    }

    /** Somebody else edits, creates or removes a profile, or nobody does. */
    method Outside()
      requires Inv()
      modifies this`profiles, this`touched
      ensures Inv() && old(touched) <= touched
      ensures forall state :: old(Follows(state)) ==> Follows(state)
      ensures SameElsewhere(old(profiles), profiles, touched, None)
      ensures healthy ==> profiles == old(profiles) && touched == old(touched)
    {
      var edits: bool, removes: bool, id: Id, p: Profile := *, *, *, *;
      if edits && !healthy {
        profiles := if removes then profiles - {id} else profiles[id := p];
        touched := touched + {id};
      }
    }

    method Save(state: State) returns (result: Replaced)
      requires Inv() && Follows(state)
      modifies this`stateFile
      ensures Inv()
      ensures result == Ok || result == Unsynced ==> stateFile == Some(state)
      ensures result == NotReplaced ==> stateFile == old(stateFile)
      ensures stateFile == old(stateFile) || stateFile == Some(state)
      ensures healthy ==> result == Ok
    {
      var replaced: bool, reported: bool, dies: bool := *, *, *;
      if healthy {
        replaced, reported, dies := true, true, false;
      }
      if replaced {
        stateFile := Some(state);
      }
      result := if dies then Died else if !replaced then NotReplaced else if reported then Ok else Unsynced;
    }

    /** Replaces a preferences file if it is still what was read. */
    method WritePreferences(id: Id, read: Profile, after: Profile, ghost r: Record) returns (result: Replaced)
      requires Inv() && id in Records() && Records()[id] == r
      requires OwnedChange(Write(read, after, r))
      requires id !in touched ==> id in base && Recoverable(r, after, base[id])
      modifies this`profiles, this`touched, this`log
      ensures Inv() && old(touched) <= touched
      ensures log == old(log) || log == old(log) + [Write(read, after, r)]
      ensures result == Ok ==> id in profiles && profiles[id] == after
      ensures SameElsewhere(old(profiles), profiles, touched, Some(id))
      ensures healthy ==> touched == old(touched) && SameElsewhere(old(profiles), profiles, {}, Some(id))
      ensures healthy && id in old(profiles) && old(profiles)[id] == read ==> result == Ok
    {
      Outside();
      var closed: bool, replaced: bool, reported: bool, dies: bool := *, *, *, *;
      if healthy {
        closed, replaced, reported, dies := true, true, true, false;
      }
      if !closed || id !in profiles || profiles[id] != read {
        return NotReplaced;
      }
      if replaced {
        profiles := profiles[id := after];
        log := log + [Write(read, after, r)];
      }
      result := if dies then Died else if !replaced then NotReplaced else if reported then Ok else Unsynced;
    }

    /** Saves the record, replaces the profile, and saves again without the old target. */
    method Commit(state: State, id: Id, p: Profile, r: Record) returns (next: State, outcome: Outcome)
      requires Inv() && Follows(state) && RecordsGrow(Records(), state.records)
      requires id in state.records && state.records[id] == r && OwnsIntl(Languages(p), r)
          && OwnsAccount(AccountLanguages(p), r)
      requires id !in touched ==> id in base && Recoverable(r, p, base[id])
      requires Covers(r, p) && Unforced(p)
      modifies this
      ensures Inv() && Follows(next)
      ensures old(touched) <= touched && SameElsewhere(old(profiles), profiles, touched, Some(id))
      ensures Adopts(old(log), log, r.written)
      ensures RecordsGrow(old(Records()), Records()) && RecordsGrow(Records(), next.records)
          && RecordsGrow(state.records, next.records)
      ensures next.enabled == state.enabled && (state.enabled && old(Enabled()) ==> Enabled())
      ensures outcome == Done ==> id in profiles && Speaks(profiles[id], r.written)
      ensures RecordsElsewhere(state.records, next.records, id)
      ensures healthy ==> touched == old(touched) && SameElsewhere(old(profiles), profiles, {}, Some(id))
      ensures healthy && id in old(profiles) && old(profiles)[id] == p ==> outcome == Done
    {
      var saved := Save(state);
      if saved == Ok {
        next, outcome := Finish(state, id, p, r);
      } else {
        next, outcome := state, OutcomeOf(saved);
      }
    }

    method Finish(state: State, id: Id, p: Profile, r: Record) returns (next: State, outcome: Outcome)
      requires Inv() && stateFile == Some(state)
      requires id in state.records && state.records[id] == r && OwnsIntl(Languages(p), r)
          && OwnsAccount(AccountLanguages(p), r)
      requires id !in touched ==> id in base && Recoverable(r, p, base[id])
      requires Covers(r, p) && Unforced(p)
      modifies this
      ensures Inv() && Follows(next)
      ensures old(touched) <= touched && SameElsewhere(old(profiles), profiles, touched, Some(id))
      ensures Adopts(old(log), log, r.written)
      ensures RecordsGrow(state.records, Records()) && RecordsGrow(Records(), next.records)
          && RecordsGrow(state.records, next.records)
      ensures next.enabled == state.enabled && (state.enabled && old(Enabled()) ==> Enabled())
      ensures outcome == Done ==> id in profiles && Speaks(profiles[id], r.written)
      ensures RecordsElsewhere(state.records, next.records, id)
      ensures healthy ==> touched == old(touched) && SameElsewhere(old(profiles), profiles, {}, Some(id))
      ensures healthy && id in old(profiles) && old(profiles)[id] == p ==> outcome == Done
    {
      ApplyIsOwned(p, r, r.written);
      if id !in touched {
        ApplyKeeps(r, p, base[id]);
      }
      ApplicationSpeaks(p, r, r.written);
      next := state;
      var result := WritePreferences(id, p, Applied(p, r.account.Keys, r.written), r);
      if result == Ok {
        next, result := Forget(state, id, r);
      }
      outcome := OutcomeOf(result);
    }

    /** The profile holds the new target, so the old one is no longer owned. */
    method Forget(state: State, id: Id, r: Record) returns (next: State, result: Replaced)
      requires Inv() && stateFile == Some(state) && id in state.records && state.records[id] == r
      requires id !in touched && id in profiles ==> Recoverable(r.(previous := None), profiles[id], base[id])
      modifies this`stateFile
      ensures Inv() && Follows(next) && next.enabled == state.enabled && (state.enabled ==> Enabled())
      ensures RecordsGrow(state.records, Records()) && RecordsGrow(Records(), next.records)
          && RecordsGrow(state.records, next.records)
      ensures RecordsElsewhere(state.records, next.records, id) && (healthy ==> result == Ok)
    {
      next := With(state, id, r.(previous := None));
      StillTracked(state.records, touched, profiles, base, id, r.(previous := None));
      result := Save(next);
    }

    /** A profile that may be written: Chrome is closed, the file is readable and no policy forces its languages. */
    method Read(id: Id) returns (read: Option<Profile>)
      requires Inv()
      modifies this`profiles, this`touched
      ensures Inv() && old(touched) <= touched && SameElsewhere(old(profiles), profiles, touched, None)
      ensures forall state :: old(Follows(state)) ==> Follows(state)
      ensures read.Some? ==> id in profiles && profiles[id] == read.value && Unforced(read.value)
      ensures healthy ==> profiles == old(profiles) && touched == old(touched)
      ensures healthy && id in profiles && Unforced(profiles[id]) ==> read.Some?
    {
      Outside();
      var readable: bool, closed: bool := *, *;
      if healthy {
        readable, closed := true, true;
      }
      if !closed || !readable || id !in profiles || HasForced(Languages(profiles[id]))
          || HasForced(AccountLanguages(profiles[id])) {
        return None;
      }
      read := Some(profiles[id]);
    }

    method PlanRecord(state: State, id: Id, p: Profile, want: Words) returns (next: State, planned: Option<Record>)
      requires Follows(state) && id in profiles && profiles[id] == p
      ensures Follows(next) && RecordsGrow(state.records, next.records) && next.enabled == state.enabled
      ensures planned.Some? ==>
        && id in next.records && next.records[id] == planned.value && planned.value.written == want
        && Covers(planned.value, p)
        && OwnsIntl(Languages(p), planned.value) && OwnsAccount(AccountLanguages(p), planned.value)
        && (id !in touched ==> id in base && Recoverable(planned.value, p, base[id]))
      ensures RecordsElsewhere(state.records, next.records, id)
      ensures Ready(state.records, id, p, want) ==> planned.Some?
    {
      next := state;
      if id in state.records {
        var kept: Record;
        kept, planned := PlanOwned(state.records[id], p, want);
        next := With(state, id, kept);
        StillTracked(state.records, touched, profiles, base, id, kept);
      } else {
        planned := PlanNew(id, p, want);
      }
      if planned.Some? {
        StillTracked(state.records, touched, profiles, base, id, planned.value);
        next := With(state, id, planned.value);
      }
    }

    /** Writes one profile under a record that is durable first. */
    method ApplyProfile(state: State, id: Id, want: Words) returns (next: State, outcome: Outcome)
      requires Inv() && Follows(state) && RecordsGrow(Records(), state.records)
      modifies this
      ensures Inv() && Follows(next)
      ensures old(touched) <= touched && SameElsewhere(old(profiles), profiles, touched, Some(id))
      ensures Adopts(old(log), log, want)
      ensures RecordsGrow(old(Records()), Records()) && RecordsGrow(Records(), next.records)
          && RecordsGrow(state.records, next.records)
      ensures next.enabled == state.enabled && (state.enabled && old(Enabled()) ==> Enabled())
      ensures outcome == Done ==> id in profiles && Speaks(profiles[id], want)
      ensures RecordsElsewhere(state.records, next.records, id)
      ensures healthy ==> touched == old(touched) && SameElsewhere(old(profiles), profiles, {}, Some(id))
      ensures healthy && id in old(profiles) && Ready(state.records, id, old(profiles)[id], want) ==> outcome == Done
    {
      next, outcome := state, Failed;
      var read := Read(id);
      if read.Some? {
        next, outcome := ApplyTo(state, id, read.value, want);
      }
    }

    method ApplyTo(state: State, id: Id, p: Profile, want: Words) returns (next: State, outcome: Outcome)
      requires Inv() && Follows(state) && RecordsGrow(Records(), state.records)
      requires id in profiles && profiles[id] == p && Unforced(p)
      modifies this
      ensures Inv() && Follows(next)
      ensures old(touched) <= touched && SameElsewhere(old(profiles), profiles, touched, Some(id))
      ensures Adopts(old(log), log, want)
      ensures RecordsGrow(old(Records()), Records()) && RecordsGrow(Records(), next.records)
          && RecordsGrow(state.records, next.records)
      ensures next.enabled == state.enabled && (state.enabled && old(Enabled()) ==> Enabled())
      ensures outcome == Done ==> id in profiles && Speaks(profiles[id], want)
      ensures RecordsElsewhere(state.records, next.records, id)
      ensures healthy ==> touched == old(touched) && SameElsewhere(old(profiles), profiles, {}, Some(id))
      ensures healthy && Ready(state.records, id, p, want) ==> outcome == Done
    {
      outcome := Failed;
      var planned: Option<Record>;
      next, planned := PlanRecord(state, id, p, want);
      if planned.Some? {
        next, outcome := Commit(next, id, p, planned.value);
      }
    }

    /** Records intent before it writes each profile, and never runs over a cleanup that is pending. Every replacement
        was of a profile that no policy forces and speaks the target's languages; when it is done, so does every profile
        that nobody else edited. Nothing but a failure, an edit or a profile that is not ready keeps it from that. */
    method Enable(want: Words) returns (outcome: Outcome)
      requires Inv()
      modifies this
      ensures Inv() && old(touched) <= touched && Adopts(old(log), log, want)
      ensures RecordsGrow(old(Records()), Records())
      ensures old(Pending()) ==>
        && (outcome == Refused || outcome == Failed)
        && stateFile == old(stateFile) && profiles == old(profiles) && log == old(log)
      ensures outcome == Refused ==> old(Pending())
      ensures outcome == Done ==> Enabled() && forall id <- profiles :: id !in touched ==> Speaks(profiles[id], want)
      ensures healthy && !old(Pending()) && old(profiles) != map[] && AllReady(old(Records()), old(profiles), want) ==>
        outcome == Done
    {
      var readable: bool := *;
      if !readable && !healthy {
        return Failed;
      }
      var state := if stateFile.Some? then stateFile.value else State(false, None, map[]);
      if Pending() {
        return Refused;
      }
      state := state.(enabled := true, target := Some(want));
      var saved := Save(state);
      if saved != Ok {
        return OutcomeOf(saved);
      }
      outcome := ApplyAll(state, want);
    }

    predicate Enabled()
      reads this
    {
      stateFile.Some? && stateFile.value.enabled
    }

    predicate Pending()
      reads this
    {
      stateFile.Some? && !stateFile.value.enabled && stateFile.value.records != map[]
    }

    method ApplyAll(start: State, want: Words) returns (outcome: Outcome)
      requires Inv() && stateFile == Some(start) && start.enabled
      modifies this
      ensures Inv() && old(touched) <= touched && Adopts(old(log), log, want)
      ensures RecordsGrow(start.records, Records()) && outcome != Refused
      ensures outcome == Done ==> Enabled() && forall id <- profiles :: id !in touched ==> Speaks(profiles[id], want)
      ensures healthy && old(profiles) != map[] && AllReady(start.records, old(profiles), want) ==> outcome == Done
    {
      Outside();
      var discovered: bool := *;
      if !(discovered || healthy) || profiles.Keys == {} {
        return Failed;
      }
      outcome := ApplyEach(start, want);
    }

    method ApplyEach(start: State, want: Words) returns (outcome: Outcome)
      requires Inv() && stateFile == Some(start) && start.enabled
      modifies this
      ensures Inv() && old(touched) <= touched && Adopts(old(log), log, want)
      ensures RecordsGrow(start.records, Records()) && outcome != Refused
      ensures outcome == Done ==> Enabled() && forall id <- profiles :: id !in touched ==> Speaks(profiles[id], want)
      ensures healthy && AllReady(start.records, old(profiles), want) ==> outcome == Done
    {
      var state := start;
      outcome := Done;
      var left := profiles.Keys;
      while left != {}
        invariant Inv() && Follows(state) && state.enabled && Enabled() && outcome != Refused && outcome != Crashed
        invariant old(touched) <= touched && Adopts(old(log), log, want)
        invariant RecordsGrow(start.records, Records()) && RecordsGrow(Records(), state.records)
        invariant outcome == Done ==> forall id <- profiles :: id !in touched ==>
            id in left || Speaks(profiles[id], want)
        invariant healthy && AllReady(start.records, old(profiles), want) ==>
            outcome == Done && StillReady(state.records, left, profiles, want)
        decreases left
      {
        var id: Id :| id in left;
        var applied: Outcome;
        ghost var before, now, was := Records(), profiles, state.records;
        state, applied := ApplyProfile(state, id, want);
        GrowthChains(start.records, before, Records());
        if healthy && StillReady(was, left, now, want) {
          OthersStayReady(was, state.records, left, now, profiles, id, want);
        }
        if applied == Crashed {
          return Crashed;
        }
        if applied != Done {
          outcome := Failed;
        }
        left := left - {id};
      }
    }

    /** Records the opt-out before it restores anything. When it is done nothing is left to recover, and every profile
        that nobody else edited is exactly as it was before the first command. */
    method Disable() returns (outcome: Outcome)
      requires Inv()
      modifies this
      ensures Inv() && old(touched) <= touched && old(log) <= log && outcome != Refused
      ensures RecordsKept(old(Records()), Records())
      ensures outcome == Done ==>
        && !Enabled() && Records() == map[]
        && forall id <- base :: id !in touched ==> id in profiles && profiles[id] == base[id]
      ensures healthy ==> outcome == Done
    {
      if stateFile.None? {
        outcome := Done;
      } else {
        var readable: bool := *;
        if !readable && !healthy {
          return Failed;
        }
        var state := stateFile.value.(enabled := false);
        var saved := Save(state);
        if saved != Ok {
          return OutcomeOf(saved);
        }
        outcome := RestoreAll(state);
      }
      if outcome == Done {
        NothingLeft();
      }
    }

    lemma NothingLeft()
      requires Inv() && Records() == map[]
      ensures forall id <- base :: id !in touched ==> id in profiles && profiles[id] == base[id]
    {
      forall id | id in base && id !in touched ensures id in profiles && profiles[id] == base[id] {
        assert Tracked(Records(), id, profiles, base);
      }
    }

    method RestoreAll(start: State) returns (outcome: Outcome)
      requires Inv() && stateFile == Some(start) && !start.enabled
      modifies this
      ensures Inv() && old(touched) <= touched && old(log) <= log && outcome != Refused
      ensures RecordsKept(start.records, Records()) && !Enabled()
      ensures outcome == Done ==> Records() == map[]
      ensures healthy ==> outcome == Done
    {
      var state := start;
      outcome := Done;
      var left := start.records.Keys;
      while left != {}
        invariant Inv() && stateFile == Some(state) && !state.enabled && outcome != Refused && outcome != Crashed
        invariant old(touched) <= touched && old(log) <= log
        invariant RecordsKept(start.records, state.records) && left <= state.records.Keys
        invariant outcome == Done ==> state.records.Keys == left
        invariant healthy ==> outcome == Done
        decreases left
      {
        var id: Id :| id in left;
        var restored := RestoreProfile(id, state.records[id]);
        if restored == Crashed {
          return Crashed;
        }
        if restored == Done {
          WithoutTracked(state.records, touched, profiles, base, id);
          state := state.(records := state.records - {id});
          var saved := Save(state);
          if saved != Ok {
            return OutcomeOf(saved);
          }
        } else {
          outcome := Failed;
        }
        left := left - {id};
      }
    }

    /** A deleted profile needs nothing; an unchanged one is not written. When it is done, no value of sbc's is left,
        even beside fields that somebody else chose. */
    method RestoreProfile(id: Id, r: Record) returns (outcome: Outcome)
      requires Inv() && id in Records() && Records()[id] == r
      modifies this`profiles, this`touched, this`log
      ensures Inv() && old(touched) <= touched && old(log) <= log
      ensures outcome == Done && id !in touched && id in profiles ==> profiles[id] == base[id]
      ensures outcome == Done && id in profiles ==> AllGivenUp(profiles[id], r)
      ensures healthy ==> outcome == Done
    {
      Outside();
      if id !in profiles {
        return Done;
      }
      var readable: bool, closed: bool := *, *;
      if (!readable || !closed) && !healthy {
        return Failed;
      }
      var p := profiles[id];
      var intl, keptIntl := RestoreIntl(p, r);
      var account, keptAccount := RestoreAccount(p, r);
      RestoreGivesUp(p, r);
      if id !in touched {
        RestoreRecovers(r, p, base[id]);
        RestoredIsRecoverable(r, p, base[id]);
      }
      if intl == Languages(p) && account == AccountLanguages(p) {
        return Done;
      }
      var after := Profile(if !r.hadIntl && intl == map[] then None else Some(intl),
                           if p.account.None? then None else Some(account), p.rest);
      RestoreIsOwned(p, r);
      var result := WritePreferences(id, p, after, r);
      outcome := OutcomeOf(result);
    }

    /** Changes only the target of the record. */
    method NoteTarget(target: Option<Words>, dropMissing: bool) returns (noted: bool)
      requires Inv()
      modifies this`stateFile
      ensures Inv() && Records() == old(Records()) && Enabled() == old(Enabled())
      ensures !noted || (stateFile.Some? && stateFile.value.target == target)
      ensures healthy && old(stateFile).Some? && (Enabled() || Records() != map[]) && (target.Some? || dropMissing) ==>
        stateFile.value.target == target
    {
      var readable: bool := *;
      if stateFile.None? || (!readable && !healthy) || (!stateFile.value.enabled && stateFile.value.records == map[])
         || (target.None? && !dropMissing) || stateFile.value.target == target {
        return false;
      }
      var saved := Save(stateFile.value.(target := target));
      noted := saved == Ok;
    }
  }
}
