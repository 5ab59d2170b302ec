/** Matching the engine's connections to the sockets of one diagnostic command. */
module Observer {
  import opened Accounting

  /** Addresses, ports, hosts (without case) and tags are compared only. Host and id are absent when empty. */
  datatype Connection = Connection(id: Option<Id>, inbound: Name, tcp: bool, source: Name, sourcePort: Name,
                                   destination: Name, destinationPort: Name, host: Option<Name>, chains: seq<Name>)

  datatype Path = Unknown | Direct | Proxy(protocol: Name)

  datatype Evidence = Evidence(verified: bool, path: Path)

  const NO_EVIDENCE := Evidence(false, Unknown)

  datatype Socket = Socket(source: Name, port: Name, destination: Name, destinationPort: Name, host: Name,
                           began: int, ended: Option<int>, id: Option<Id>, evidence: Evidence, ambiguous: bool)

  /** A connection that fitted a socket in some snapshot, a snapshot's interval, and what verifies a socket. */
  datatype Match = Match(id: Id, index: nat)
  datatype Interval = Interval(began: int, ended: int)
  datatype Proof = Proof(snapshot: Interval, connection: Connection)

  const MAX_SOCKETS := 256
  const MAX_OWNERS := 4096

  const DIRECT_TAG: Name := 0

  // --- the path of a chain ------------------------------------------------------------------

  function Candidate(chain: Name, protocols: seq<Name>): Path {
    if chain in protocols then Proxy(chain) else if chain == DIRECT_TAG then Direct else Unknown
  }

  /** A tag that is a protocol names its proxy, and the direct tag, unless it is one, the direct path. */
  predicate Recognised(chain: Name, protocols: seq<Name>) {
    chain in protocols || chain == DIRECT_TAG
  }

  /** The one path that the recognised tags of a chain name, if there are some and they all name the same one. */
  ghost predicate IsPath(path: Path, chains: seq<Name>, protocols: seq<Name>) {
    match path
    case Unknown =>
      || (forall c <- chains :: !Recognised(c, protocols))
      || (exists a <- chains, b <- chains :: Recognised(a, protocols) && Recognised(b, protocols) && a != b)
    case Direct =>
      DIRECT_TAG in chains && DIRECT_TAG !in protocols
      && forall c <- chains :: Recognised(c, protocols) ==> c == DIRECT_TAG
    case Proxy(protocol) =>
      protocol in chains && protocol in protocols
      && forall c <- chains :: Recognised(c, protocols) ==> c == protocol
  }

  method PathOf(chains: seq<Name>, protocols: seq<Name>) returns (path: Path)
    ensures IsPath(path, chains, protocols)
  {
    path := Unknown;
    ghost var tag := DIRECT_TAG;
    for i := 0 to |chains|
      invariant path == Unknown ==> forall c <- chains[..i] :: !Recognised(c, protocols)
      invariant path != Unknown ==>
          tag in chains[..i] && Recognised(tag, protocols) && path == Candidate(tag, protocols)
      invariant path != Unknown ==> forall c <- chains[..i] :: Recognised(c, protocols) ==> c == tag
    {
      var candidate := if chains[i] == DIRECT_TAG then Direct else Unknown;
      for j := 0 to |protocols|
        invariant candidate == Candidate(chains[i], protocols[..j])
      {
        if chains[i] == protocols[j] {
          candidate := Proxy(chains[i]);
        }
      }
      assert protocols[..|protocols|] == protocols;
      if candidate != Unknown {
        if path != Unknown && path != candidate {
          assert chains[i] != tag && Recognised(chains[i], protocols) && tag in chains && chains[i] in chains;
          return Unknown;
        }
        path, tag := candidate, chains[i];
      }
    }
  }

  // --- what fits -----------------------------------------------------------------------------

  /** The snapshot lay wholly inside the socket's life, as far as that is known. */
  predicate Within(s: Socket, snapshot: Interval) {
    s.began <= snapshot.began && (s.ended.Some? ==> snapshot.ended < s.ended.value)
  }

  predicate Fits(c: Connection, s: Socket, snapshot: Interval, tun: bool) {
    && Within(s, snapshot)
    && c.source == s.source && c.sourcePort == s.port && c.destinationPort == s.destinationPort
    && (c.host.Some? ==> c.host.value == s.host)
    && (tun ==> c.destination == s.destination)
  }

  predicate Counts(c: Connection, baseline: set<Id>, inbound: Name) {
    c.id.Some? && c.id.value !in baseline && c.inbound == inbound && c.tcp
  }

  /** A connection of the observed engine, new since the baseline, that is the socket's as far as the two can be
      compared; only under TUN does the connection show the socket's own destination. */
  ghost predicate Alike(c: Connection, s: Socket, id: Id, baseline: set<Id>, inbound: Name, tun: bool) {
    && c.id == Some(id) && id !in baseline && c.inbound == inbound && c.tcp
    && c.source == s.source && c.sourcePort == s.port && c.destinationPort == s.destinationPort
    && (c.host == None || c.host == Some(s.host))
    && (!tun || c.destination == s.destination)
  }

  /** The snapshot began after the socket did, and ended before it. */
  ghost predicate Inside(s: Socket, snapshot: Interval) {
    s.began <= snapshot.began && (s.ended == None || snapshot.ended < s.ended.value)
  }

  /** Only what the observer learned about a socket may differ. */
  predicate SameSocket(a: Socket, b: Socket) {
    b == a.(id := b.id, evidence := b.evidence, ambiguous := b.ambiguous)
  }

  predicate SameSockets(a: seq<Socket>, b: seq<Socket>) {
    |a| == |b| && forall i :: 0 <= i < |a| ==> SameSocket(a[i], b[i])
  }

  // --- what verifies a socket ---------------------------------------------------------------------

  /** What an observer was told to watch. */
  datatype Watch = Watch(baseline: set<Id>, inbound: Name, tun: bool, protocols: seq<Name>)

  /** A connection like the socket, in a snapshot taken during its life, that took the reported path. */
  ghost predicate Proves(proof: Proof, s: Socket, w: Watch, clock: int) {
    && s.id.Some? && Alike(proof.connection, s, s.id.value, w.baseline, w.inbound, w.tun)
    && IsPath(s.evidence.path, proof.connection.chains, w.protocols)
    && s.began <= proof.snapshot.began <= proof.snapshot.ended <= clock
    && (s.ended.Some? ==> proof.snapshot.ended <= s.ended.value)
  }

  ghost predicate Proved(s: Socket, index: nat, proofs: map<nat, Proof>, w: Watch, clock: int) {
    && s.began <= clock
    && if s.evidence.verified then !s.ambiguous && index in proofs && Proves(proofs[index], s, w, clock)
       else s.evidence == NO_EVIDENCE
  }

  // --- one to one --------------------------------------------------------------------------------

  /** The socket matched two connections, or a connection that matched another socket as well. */
  ghost predicate Conflict(matches: set<Match>, index: nat) {
    || (exists a <- matches, b <- matches :: a.index == index && b.index == index && a.id != b.id)
    || (exists a <- matches, b <- matches :: a.index == index && a.id == b.id && b.index != index)
  }

  ghost predicate MatchOk(m: Match, sockets: seq<Socket>, owners: map<Id, nat>) {
    && m.index < |sockets| && m.id in owners && owners[m.id] < |sockets|
    && (if owners[m.id] == m.index then sockets[m.index].id == Some(m.id) || sockets[m.index].ambiguous
        else sockets[m.index].ambiguous && sockets[owners[m.id]].ambiguous)
  }

  ghost predicate SocketOk(index: nat, sockets: seq<Socket>, owners: map<Id, nat>, matches: set<Match>)
    requires index < |sockets|
  {
    var s := sockets[index];
    && (s.id.Some? ==> Match(s.id.value, index) in matches)
    && (s.evidence.verified <==> s.id.Some? && !s.ambiguous)
    && (s.ambiguous ==> Conflict(matches, index))
  }

  ghost predicate OneToOne(sockets: seq<Socket>, owners: map<Id, nat>, matches: set<Match>) {
    && (forall m <- matches :: MatchOk(m, sockets, owners))
    && (forall id <- owners :: Match(id, owners[id]) in matches)
    && (forall i :: 0 <= i < |sockets| ==> SocketOk(i, sockets, owners, matches))
  }

  /** Evidence is one-to-one: a socket is verified exactly when it matched one connection only, and that connection
      matched no other socket. */
  lemma VerifiedIsOneToOne(sockets: seq<Socket>, owners: map<Id, nat>, matches: set<Match>, index: nat)
    requires OneToOne(sockets, owners, matches) && index < |sockets|
    ensures sockets[index].evidence.verified
       <==> (exists m <- matches :: m.index == index) && !Conflict(matches, index)
  {
    var s := sockets[index];
    assert SocketOk(index, sockets, owners, matches);
    if s.evidence.verified {
      var id := s.id.value;
      forall a | a in matches && a.index == index ensures a.id == id && owners[id] == index {
        assert MatchOk(a, sockets, owners);
        assert MatchOk(Match(id, index), sockets, owners);
      }
      forall b | b in matches && b.id == id ensures b.index == index {
        assert MatchOk(b, sockets, owners);
        assert MatchOk(Match(id, index), sockets, owners);
      }
    } else if m :| m in matches && m.index == index {
      assert MatchOk(m, sockets, owners);
    }
  }

  // --- one match ------------------------------------------------------------------------------------

  function Invalidated(s: Socket): Socket {
    s.(ambiguous := true, evidence := NO_EVIDENCE)
  }

  function Learned(s: Socket, id: Id, path: Path): Socket {
    var t := if s.id.Some? && s.id != Some(id) then Invalidated(s) else s;
    if t.ambiguous then t.(id := Some(id)) else t.(id := Some(id), evidence := Evidence(true, path))
  }

  ghost predicate AllProved(sockets: seq<Socket>, proofs: map<nat, Proof>, w: Watch, clock: int) {
    forall i :: 0 <= i < |sockets| ==> Proved(sockets[i], i, proofs, w, clock)
  }

  lemma LearningKeepsProofs(sockets: seq<Socket>, index: nat, id: Id, path: Path, proof: Proof,
                            proofs: map<nat, Proof>, w: Watch, clock: int)
    requires AllProved(sockets, proofs, w, clock) && index < |sockets| && Within(sockets[index], proof.snapshot)
    requires Alike(proof.connection, sockets[index], id, w.baseline, w.inbound, w.tun)
    requires IsPath(path, proof.connection.chains, w.protocols)
    requires proof.snapshot.began <= proof.snapshot.ended <= clock
    ensures AllProved(sockets[index := Learned(sockets[index], id, path)], proofs[index := proof], w, clock)
  {
    LearnedIsProved(sockets[index], index, id, path, proof, proofs, w, clock);
  }

  lemma LearnedIsProved(s: Socket, index: nat, id: Id, path: Path, proof: Proof, proofs: map<nat, Proof>, w: Watch,
                        clock: int)
    requires Proved(s, index, proofs, w, clock) && Within(s, proof.snapshot)
    requires Alike(proof.connection, s, id, w.baseline, w.inbound, w.tun)
    requires IsPath(path, proof.connection.chains, w.protocols)
    requires proof.snapshot.began <= proof.snapshot.ended <= clock
    ensures Proved(Learned(s, id, path), index, proofs[index := proof], w, clock)
  {
  }

  /** What the observer knows: its sockets, and the socket that each connection matched first. */
  datatype Known = Known(sockets: seq<Socket>, owners: map<Id, nat>)

  function AfterMatch(k: Known, id: Id, index: nat, path: Path): Known
    requires index < |k.sockets| && (id in k.owners ==> k.owners[id] < |k.sockets|)
  {
    if id in k.owners && k.owners[id] != index then
      var owner := k.owners[id];
      k.(sockets := k.sockets[owner := Invalidated(k.sockets[owner])][index := Invalidated(k.sockets[index])])
    else if |k.owners| >= MAX_OWNERS then k
    else Known(k.sockets[index := Learned(k.sockets[index], id, path)], k.owners[id := index])
  }

  lemma ConflictGrows(matches: set<Match>, m: Match, index: nat)
    requires Conflict(matches, index)
    ensures Conflict(matches + {m}, index)
  {
    if a, b :| a in matches && b in matches && a.index == index && b.index == index && a.id != b.id {
      assert a in matches + {m} && b in matches + {m};
    } else {
      var a, b :| a in matches && b in matches && a.index == index && a.id == b.id && b.index != index;
      assert a in matches + {m} && b in matches + {m};
    }
  }

  lemma OwnedByAnother(sockets: seq<Socket>, owners: map<Id, nat>, matches: set<Match>, id: Id, index: nat)
    requires OneToOne(sockets, owners, matches) && index < |sockets|
    requires id in owners && owners[id] != index
    ensures owners[id] < |sockets|
    ensures OneToOne(sockets[owners[id] := Invalidated(sockets[owners[id]])][index := Invalidated(sockets[index])],
                     owners, matches + {Match(id, index)})
  {
    var owner := owners[id];
    assert MatchOk(Match(id, owner), sockets, owners);
    var next := sockets[owner := Invalidated(sockets[owner])][index := Invalidated(sockets[index])];
    var more := matches + {Match(id, index)};
    forall i | 0 <= i < |next| ensures SocketOk(i, next, owners, more) {
      assert SocketOk(i, sockets, owners, matches);
      if i == owner || i == index {
        assert Match(id, owner) in more && Match(id, index) in more;
      } else if sockets[i].ambiguous {
        ConflictGrows(matches, Match(id, index), i);
      }
    }
    forall m | m in more ensures MatchOk(m, next, owners) {
      assert m in matches ==> MatchOk(m, sockets, owners);
    }
  }

  lemma OwnedHere(sockets: seq<Socket>, owners: map<Id, nat>, matches: set<Match>, id: Id, index: nat, path: Path)
    requires OneToOne(sockets, owners, matches) && index < |sockets|
    requires id in owners ==> owners[id] == index
    ensures OneToOne(sockets[index := Learned(sockets[index], id, path)], owners[id := index],
                     matches + {Match(id, index)})
  {
    var next := sockets[index := Learned(sockets[index], id, path)];
    var more, later := matches + {Match(id, index)}, owners[id := index];
    forall i | 0 <= i < |next| ensures SocketOk(i, next, later, more) {
      assert SocketOk(i, sockets, owners, matches);
      if sockets[i].ambiguous {
        ConflictGrows(matches, Match(id, index), i);
      } else if i == index && sockets[i].id.Some? && sockets[i].id != Some(id) {
        assert Match(sockets[i].id.value, i) in more && Match(id, index) in more;
      }
    }
    forall m | m in more ensures MatchOk(m, next, later) {
      assert m in matches ==> MatchOk(m, sockets, owners);
    }
  }

  // --- when the table of owners is full --------------------------------------------------------

  /** Evidence says exactly what matched. */
  ghost predicate Exact(sockets: seq<Socket>, matches: set<Match>) {
    forall i :: 0 <= i < |sockets| ==>
      (sockets[i].evidence.verified <==> (exists m <- matches :: m.index == i) && !Conflict(matches, i))
  }

  lemma ConflictNeedsIndex(matches: set<Match>, m: Match, index: nat)
    requires Conflict(matches + {m}, index) && index != m.index
    requires forall a <- matches :: a.id != m.id
    ensures Conflict(matches, index)
  {
    if a, b :| a in matches + {m} && b in matches + {m} && a.index == index && b.index == index && a.id != b.id {
      assert a in matches && b in matches;
    } else {
      var a, b :| a in matches + {m} && b in matches + {m} && a.index == index && a.id == b.id && b.index != index;
      assert a in matches && b in matches;
    }
  }

  lemma OthersStayExact(sockets: seq<Socket>, owners: map<Id, nat>, matches: set<Match>, m: Match, i: nat)
    requires OneToOne(sockets, owners, matches) && m.id !in owners && i < |sockets| && i != m.index
    ensures sockets[i].evidence.verified
       <==> (exists a <- matches + {m} :: a.index == i) && !Conflict(matches + {m}, i)
  {
    VerifiedIsOneToOne(sockets, owners, matches, i);
    forall a | a in matches ensures a.id != m.id {
      assert MatchOk(a, sockets, owners);
    }
    if Conflict(matches, i) {
      ConflictGrows(matches, m, i);
    } else if Conflict(matches + {m}, i) {
      ConflictNeedsIndex(matches, m, i);
    }
    if a :| a in matches && a.index == i {
      assert a in matches + {m};
    }
  }

  /** A new connection that matches while the table is full is not noted. Evidence then stays exact if and only if
      the socket was ambiguous already. */
  lemma FullTableForgets(k: Known, matches: set<Match>, id: Id, index: nat, path: Path)
    requires OneToOne(k.sockets, k.owners, matches) && index < |k.sockets|
    requires |k.owners| >= MAX_OWNERS && id !in k.owners
    ensures Exact(AfterMatch(k, id, index, path).sockets, matches + {Match(id, index)})
       <==> k.sockets[index].ambiguous
  {
    var m := Match(id, index);
    assert AfterMatch(k, id, index, path) == k;
    forall i | 0 <= i < |k.sockets| && i != index
      ensures k.sockets[i].evidence.verified
         <==> (exists a <- matches + {m} :: a.index == i) && !Conflict(matches + {m}, i)
    {
      OthersStayExact(k.sockets, k.owners, matches, m, i);
    }
    ForgottenHere(k, matches, m);
  }

  lemma ForgottenHere(k: Known, matches: set<Match>, m: Match)
    requires OneToOne(k.sockets, k.owners, matches) && m.index < |k.sockets| && m.id !in k.owners
    ensures (exists a <- matches + {m} :: a.index == m.index)
    ensures (k.sockets[m.index].evidence.verified <==> !Conflict(matches + {m}, m.index))
       <==> k.sockets[m.index].ambiguous
  {
    var s := k.sockets[m.index];
    assert m in matches + {m};
    assert SocketOk(m.index, k.sockets, k.owners, matches);
    if s.ambiguous {
      ConflictGrows(matches, m, m.index);
    } else if s.id.Some? {
      var a := Match(s.id.value, m.index);
      assert MatchOk(a, k.sockets, k.owners);
      assert a in matches + {m} && a.id != m.id;
    } else {
      NothingMatched(k, matches, m);
    }
  }

  lemma NothingMatched(k: Known, matches: set<Match>, m: Match)
    requires OneToOne(k.sockets, k.owners, matches) && m.index < |k.sockets| && m.id !in k.owners
    requires k.sockets[m.index].id.None? && !k.sockets[m.index].ambiguous
    ensures !Conflict(matches + {m}, m.index)
  {
    forall a | a in matches ensures a.index != m.index && a.id != m.id {
      assert MatchOk(a, k.sockets, k.owners);
    }
  }

  // Two sockets, 4095 connections on the first and one on the second, and then another one on the second.

  function FillIndex(id: Id): nat {
    if id < MAX_OWNERS - 1 then 0 else 1
  }

  function Filled(n: nat, first: Socket, second: Socket, path: Path): (k: Known)
    ensures |k.sockets| == 2 && forall id <- k.owners :: k.owners[id] < 2
  {
    if n == 0 then Known([first, second], map[])
    else AfterMatch(Filled(n - 1, first, second, path), n - 1, FillIndex(n - 1), path)
  }

  function FillMatches(n: nat): set<Match> {
    if n == 0 then {} else FillMatches(n - 1) + {Match(n - 1, FillIndex(n - 1))}
  }

  predicate Blank(s: Socket) {
    s.id.None? && s.evidence == NO_EVIDENCE && !s.ambiguous
  }

  ghost predicate FillOk(k: Known, matches: set<Match>, n: nat, second: Socket) {
    && OneToOne(k.sockets, k.owners, matches)
    && |k.sockets| == 2 && |k.owners| == n && (forall id <- k.owners :: id < n)
    && (n < MAX_OWNERS ==> k.sockets[1] == second)
  }

  lemma FillOne(k: Known, matches: set<Match>, n: nat, second: Socket, path: Path)
    requires FillOk(k, matches, n, second) && n < MAX_OWNERS
    ensures FillOk(AfterMatch(k, n, FillIndex(n), path), matches + {Match(n, FillIndex(n))}, n + 1, second)
  {
    OwnedHere(k.sockets, k.owners, matches, n, FillIndex(n), path);
  }

  lemma NothingFilled(first: Socket, second: Socket)
    requires Blank(first) && Blank(second)
    ensures FillOk(Known([first, second], map[]), {}, 0, second)
  {
  }

  lemma {:induction false} Fills(n: nat, first: Socket, second: Socket, path: Path)
    requires Blank(first) && Blank(second) && n <= MAX_OWNERS
    ensures FillOk(Filled(n, first, second, path), FillMatches(n), n, second)
  {
    if n == 0 {
      NothingFilled(first, second);
    } else {
      var k := Filled(n - 1, first, second, path);
      Fills(n - 1, first, second, path);
      FillOne(k, FillMatches(n - 1), n - 1, second, path);
      assert Filled(n, first, second, path) == AfterMatch(k, n - 1, FillIndex(n - 1), path);
    }
  }

  /** Such an input: the second socket is reported as verified although two connections matched it. */
  lemma FullTableVerifiesTwo(n: nat, first: Socket, second: Socket, path: Path)
    requires Blank(first) && Blank(second) && n == MAX_OWNERS
    ensures var k := AfterMatch(Filled(n, first, second, path), n, 1, path);
      k.sockets[1].evidence == Evidence(true, path) && Conflict(FillMatches(n) + {Match(n, 1)}, 1)
  {
    var k := Filled(n - 1, first, second, path);
    Fills(n - 1, first, second, path);
    assert Filled(n, first, second, path) == AfterMatch(k, n - 1, 1, path);
    LastTwo(k, n, second, path);
    TwoConflict(FillMatches(n - 1), Match(n - 1, 1), Match(n, 1));
  }

  lemma LastTwo(k: Known, n: nat, second: Socket, path: Path)
    requires n == MAX_OWNERS && |k.sockets| == 2 && k.sockets[1] == second && Blank(second)
    requires |k.owners| == n - 1 && (forall id <- k.owners :: id < n - 1)
    ensures var last := AfterMatch(k, n - 1, 1, path);
      && |last.sockets| == 2 && n !in last.owners
      && AfterMatch(last, n, 1, path).sockets[1].evidence == Evidence(true, path)
  {
  }

  lemma TwoConflict(matches: set<Match>, a: Match, b: Match)
    requires a.index == b.index && a.id != b.id
    ensures Conflict(matches + {a} + {b}, a.index)
  {
    assert a in matches + {a} + {b} && b in matches + {a} + {b};
  }

  // --- the observer ------------------------------------------------------------------------------------

  /** A snapshot, and what decides which of its connections count. */
  datatype View = View(connections: seq<Connection>, snapshot: Interval, baseline: set<Id>, inbound: Name, tun: bool)

  predicate Fit(v: View, j: nat, sockets: seq<Socket>, index: nat)
    requires j < |v.connections| && index < |sockets|
  {
    Counts(v.connections[j], v.baseline, v.inbound) && Fits(v.connections[j], sockets[index], v.snapshot, v.tun)
  }

  /** A match of one of the first k connections, or of the next one with one of the first i sockets. */
  ghost predicate IsNew(m: Match, v: View, sockets: seq<Socket>, k: nat, i: nat) {
    exists j :: IsNewBy(m, v, sockets, k, i, j)
  }

  ghost predicate IsNewBy(m: Match, v: View, sockets: seq<Socket>, k: nat, i: nat, j: int) {
    && m.index < |sockets| && 0 <= j < |v.connections| && (j < k || (j == k && m.index < i))
    && Alike(v.connections[j], sockets[m.index], m.id, v.baseline, v.inbound, v.tun)
    && Inside(sockets[m.index], v.snapshot)
  }

  lemma FitIsAlike(v: View, j: nat, sockets: seq<Socket>, index: nat)
    requires j < |v.connections| && index < |sockets|
    ensures Fit(v, j, sockets, index) <==>
      && v.connections[j].id.Some? && Inside(sockets[index], v.snapshot)
      && Alike(v.connections[j], sockets[index], v.connections[j].id.value, v.baseline, v.inbound, v.tun)
  {
  }

  ghost predicate Records(matches: set<Match>, before: set<Match>, v: View, sockets: seq<Socket>, k: nat, i: nat) {
    forall m :: m in matches <==> m in before || IsNew(m, v, sockets, k, i)
  }

  lemma RecordStep(matches: set<Match>, before: set<Match>, v: View, sockets: seq<Socket>, k: nat, i: nat)
    requires k < |v.connections| && i < |sockets| && Records(matches, before, v, sockets, k, i)
    ensures Records(if Fit(v, k, sockets, i) then matches + {Match(v.connections[k].id.value, i)} else matches,
                    before, v, sockets, k, i + 1)
  {
    var next := if Fit(v, k, sockets, i) then matches + {Match(v.connections[k].id.value, i)} else matches;
    FitIsAlike(v, k, sockets, i);
    forall m ensures m in next <==> m in before || IsNew(m, v, sockets, k, i + 1) {
      if IsNew(m, v, sockets, k, i) {
        var j :| IsNewBy(m, v, sockets, k, i, j);
        assert IsNewBy(m, v, sockets, k, i + 1, j);
      }
      if IsNew(m, v, sockets, k, i + 1) && !IsNew(m, v, sockets, k, i) {
        var j :| IsNewBy(m, v, sockets, k, i + 1, j);
        assert !IsNewBy(m, v, sockets, k, i, j);
        assert m.index == i && j == k;
      }
      if Fit(v, k, sockets, i) && m == Match(v.connections[k].id.value, i) {
        assert IsNewBy(m, v, sockets, k, i + 1, k);
      }
    }
  }

  lemma RecordRow(matches: set<Match>, before: set<Match>, v: View, sockets: seq<Socket>, k: nat)
    requires k < |v.connections|
    requires Records(matches, before, v, sockets, k,
                     if Counts(v.connections[k], v.baseline, v.inbound) then |sockets| else 0)
    ensures Records(matches, before, v, sockets, k + 1, 0)
  {
    var i := if Counts(v.connections[k], v.baseline, v.inbound) then |sockets| else 0;
    forall m ensures IsNew(m, v, sockets, k, i) <==> IsNew(m, v, sockets, k + 1, 0) {
      if IsNew(m, v, sockets, k, i) {
        var j :| IsNewBy(m, v, sockets, k, i, j);
        assert IsNewBy(m, v, sockets, k + 1, 0, j);
      }
      if IsNew(m, v, sockets, k + 1, 0) {
        var j :| IsNewBy(m, v, sockets, k + 1, 0, j);
        if j == k {
          FitIsAlike(v, k, sockets, m.index);
        }
        assert IsNewBy(m, v, sockets, k, i, j);
      }
    }
  }

  class Observer {
    var sockets: seq<Socket>
    const baseline: set<Id>
    var owners: map<Id, nat>
    const inbound: Name
    const tun: bool
    const protocols: seq<Name>

    /** Every match so far, what verifies each verified socket, whether the table of owners was ever full,
        and the time. */
    ghost var matches: set<Match>
    ghost var proofs: map<nat, Proof>
    ghost var full: bool
    ghost var clock: int

    ghost function Settings(): Watch
    {
      Watch(baseline, inbound, tun, protocols)
    }

    ghost predicate Valid()
      reads this
    {
      && (!full ==> OneToOne(sockets, owners, matches))
      && (full ==> |owners| >= MAX_OWNERS)
      && |sockets| <= MAX_SOCKETS
      && (forall id <- owners :: owners[id] < |sockets|)
      && AllProved(sockets, proofs, Settings(), clock)
    }

    constructor (initial: seq<Connection>, inbound: Name, tun: bool, protocols: seq<Name>, ghost now: int)
      ensures Valid() && sockets == [] && owners == map[] && matches == {} && !full && clock == now
      ensures forall c <- initial :: c.id.Some? ==> c.id.value in baseline
      ensures this.inbound == inbound && this.tun == tun && this.protocols == protocols
    {
      baseline := set c <- initial | c.id.Some? :: c.id.value;
      this.inbound, this.tun, this.protocols := inbound, tun, protocols;
      sockets, owners, matches, proofs, full, clock := [], map[], {}, map[], false, now;
    }

    /** A new socket, unless there are too many. */
    method Track(source: Name, port: Name, destination: Name, destinationPort: Name, host: Name, now: int)
        returns (index: int)
      requires Valid() && clock <= now
      modifies this`sockets, this`clock
      ensures Valid() && clock == now
      ensures |old(sockets)| >= MAX_SOCKETS ==> index == -1 && sockets == old(sockets)
      ensures |old(sockets)| < MAX_SOCKETS ==> index == |old(sockets)|
      ensures |old(sockets)| < MAX_SOCKETS ==>
        sockets == old(sockets) + [Socket(source, port, destination, destinationPort, host, now, None, None,
                                          NO_EVIDENCE, false)]
    {
      clock := now;
      if |sockets| >= MAX_SOCKETS {
        return -1;
      }
      TrackKeeps(Socket(source, port, destination, destinationPort, host, now, None, None, NO_EVIDENCE, false));
      sockets := sockets + [Socket(source, port, destination, destinationPort, host, now, None, None, NO_EVIDENCE,
                                   false)];
      index := |sockets| - 1;
    }

    lemma TrackKeeps(s: Socket)
      requires !full ==> OneToOne(sockets, owners, matches)
      requires s.id == None && s.evidence == NO_EVIDENCE && !s.ambiguous
      ensures !full ==> OneToOne(sockets + [s], owners, matches)
    {
      if !full {
        var more := sockets + [s];
        forall i | 0 <= i < |more| ensures SocketOk(i, more, owners, matches) {
          assert i < |sockets| ==> SocketOk(i, sockets, owners, matches);
        }
        forall m | m in matches ensures MatchOk(m, more, owners) {
          assert MatchOk(m, sockets, owners);
        }
      }
    }

    /** A socket ends once. */
    method Finish(index: int, now: int)
      requires Valid() && clock <= now
      modifies this`sockets, this`clock
      ensures Valid() && clock == now
      ensures sockets == if 0 <= index < |old(sockets)| && old(sockets)[index].ended.None?
                         then old(sockets)[index := old(sockets)[index].(ended := Some(now))] else old(sockets)
    {
      clock := now;
      if 0 <= index < |sockets| && sockets[index].ended.None? {
        FinishKeeps(index, now);
        sockets := sockets[index := sockets[index].(ended := Some(now))];
      }
    }

    lemma FinishKeeps(index: nat, now: int)
      requires index < |sockets| && (!full ==> OneToOne(sockets, owners, matches))
      ensures !full ==> OneToOne(sockets[index := sockets[index].(ended := Some(now))], owners, matches)
    {
      if !full {
        var next := sockets[index := sockets[index].(ended := Some(now))];
        forall i | 0 <= i < |next| ensures SocketOk(i, next, owners, matches) {
          assert SocketOk(i, sockets, owners, matches);
        }
        forall m | m in matches ensures MatchOk(m, next, owners) {
          assert MatchOk(m, sockets, owners);
        }
      }
    }

    /** What is reported of a socket: nothing for an index that was never given. */
    method Report(index: int) returns (evidence: Evidence)
      requires Valid()
      ensures evidence == if 0 <= index < |sockets| then sockets[index].evidence else NO_EVIDENCE
      ensures evidence.verified && !full ==>
        && 0 <= index < |sockets|
        && (exists m <- matches :: m.index == index) && !Conflict(matches, index)
      ensures if evidence.verified then 0 <= index < |sockets| && index in proofs
                                             && Proves(proofs[index], sockets[index], Settings(), clock)
              else evidence == NO_EVIDENCE
    {
      if !(0 <= index < |sockets|) {
        return NO_EVIDENCE;
      }
      evidence := sockets[index].evidence;
      assert Proved(sockets[index], index, proofs, Settings(), clock);
      if !full {
        VerifiedIsOneToOne(sockets, owners, matches, index);
      }
    }

    /** Snapshots change only what is known of a socket, and ambiguity is for ever. */
    twostate predicate OnlyLearns()
      reads this
    {
      && (old(full) ==> full)
      && SameSockets(old(sockets), sockets)
      && (forall i :: 0 <= i < |sockets| && old(sockets)[i].ambiguous ==> sockets[i].ambiguous)
    }

    ghost function Knows(): Known
      reads this
    {
      Known(sockets, owners)
    }

    /** One connection and one socket that it fits. */
    method MatchOne(c: Connection, index: nat, snapshot: Interval) returns (path: Path)
      requires Valid() && c.id.Some? && index < |sockets| && Within(sockets[index], snapshot)
      requires Alike(c, sockets[index], c.id.value, baseline, inbound, tun)
      requires snapshot.began <= snapshot.ended <= clock
      modifies this`sockets, this`owners, this`matches, this`proofs, this`full
      ensures Valid() && OnlyLearns()
      ensures IsPath(path, c.chains, protocols) && Knows() == AfterMatch(old(Knows()), c.id.value, index, path)
      ensures matches == old(matches) + {Match(c.id.value, index)}
    {
      var id := c.id.value;
      path := PathOf(c.chains, protocols);
      if id in owners && owners[id] != index {
        InvalidateBoth(id, index);
      } else if |owners| >= MAX_OWNERS {
        matches := matches + {Match(id, index)};
        full := true;
      } else {
        Learn(id, index, path, Proof(snapshot, c));
      }
    }

    method InvalidateBoth(id: Id, index: nat)
      requires Valid() && index < |sockets| && id in owners && owners[id] != index
      modifies this`sockets, this`matches
      ensures Valid() && OnlyLearns()
      ensures matches == old(matches) + {Match(id, index)}
      ensures sockets == old(sockets)[owners[id] := Invalidated(old(sockets)[owners[id]])]
                                     [index := Invalidated(old(sockets)[index])]
    {
      if !full {
        OwnedByAnother(sockets, owners, matches, id, index);
      }
      matches := matches + {Match(id, index)};
      sockets := sockets[owners[id] := Invalidated(sockets[owners[id]])];
      sockets := sockets[index := Invalidated(sockets[index])];
    }

    method Learn(id: Id, index: nat, path: Path, ghost proof: Proof)
      requires Valid() && |owners| < MAX_OWNERS
      requires index < |sockets| && (id in owners ==> owners[id] == index) && Within(sockets[index], proof.snapshot)
      requires Alike(proof.connection, sockets[index], id, baseline, inbound, tun)
      requires IsPath(path, proof.connection.chains, protocols)
      requires proof.snapshot.began <= proof.snapshot.ended <= clock
      modifies this`sockets, this`owners, this`matches, this`proofs
      ensures Valid() && OnlyLearns()
      ensures matches == old(matches) + {Match(id, index)}
      ensures sockets == old(sockets)[index := Learned(old(sockets)[index], id, path)]
      ensures owners == old(owners)[id := index]
    {
      OwnedHere(sockets, owners, matches, id, index, path);
      LearningKeepsProofs(sockets, index, id, path, proof, proofs, Settings(), clock);
      matches := matches + {Match(id, index)};
      owners := owners[id := index];
      proofs := proofs[index := proof];
      sockets := sockets[index := Learned(sockets[index], id, path)];
    }

    /** One connection against every socket. */
    method ObserveConnection(v: View, k: nat, ghost before: set<Match>, ghost known: seq<Socket>)
      requires Valid() && v.snapshot.began <= v.snapshot.ended <= clock
      requires v.inbound == inbound && v.tun == tun && k < |v.connections|
          && v.baseline == baseline && Counts(v.connections[k], v.baseline, v.inbound)
      requires SameSockets(known, sockets) && Records(matches, before, v, known, k, 0)
      modifies this`sockets, this`owners, this`matches, this`proofs, this`full
      ensures Valid() && OnlyLearns()
      ensures SameSockets(known, sockets) && Records(matches, before, v, known, k, |sockets|)
    {
      for i := 0 to |sockets|
        invariant Valid() && |sockets| == |old(sockets)| && OnlyLearns()
        invariant SameSockets(known, sockets) && Records(matches, before, v, known, k, i)
      {
        assert SameSocket(known[i], sockets[i]);
        RecordStep(matches, before, v, known, k, i);
        FitIsAlike(v, k, sockets, i);
        if Fits(v.connections[k], sockets[i], v.snapshot, tun) {
          var path := MatchOne(v.connections[k], i, v.snapshot);
        }
      }
    }

    /** One snapshot of the engine's connections against every socket. */
    method Observe(connections: seq<Connection>, snapshot: Interval, ghost now: int)
      requires Valid() && clock <= now && snapshot.began <= snapshot.ended <= now
      modifies this`sockets, this`owners, this`matches, this`proofs, this`full, this`clock
      ensures Valid() && OnlyLearns() && clock == now
      ensures Records(matches, old(matches), View(connections, snapshot, baseline, inbound, tun), old(sockets),
                      |connections|, 0)
    {
      clock := now;
      var v := View(connections, snapshot, baseline, inbound, tun);
      for k := 0 to |connections|
        invariant Valid() && OnlyLearns() && clock == now
        invariant Records(matches, old(matches), v, old(sockets), k, 0)
      {
        if Counts(connections[k], baseline, inbound) {
          ObserveConnection(v, k, old(matches), old(sockets));
        }
        RecordRow(matches, old(matches), v, old(sockets), k);
      }
    }
  }
}
