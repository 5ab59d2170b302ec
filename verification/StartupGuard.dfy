/** The operation's side of startup, step by step, and the refresh that relies on it. Every answer of the system is an
    input: between two steps of the guard other processes go on, and what they do is given by a script. */
module StartupGuard {
  import opened Accounting
  import opened Startup

  type Config = nat

  /** What a probe of the engine lease says. */
  datatype Answer = Yes | No | Unknown

  /** An error is unconfirmed when blocking startup or stopping the engine failed. */
  datatype Result = Done | Failed(unconfirmed: bool)

  function Join(a: Result, b: Result): Result {
    if a == Done then b else if b == Done then a else Failed(a.unconfirmed || b.unconfirmed)
  }

  // --- what the system answers ---------------------------------------------------------------

  /** What engines do while time passes, if they can. */
  datatype Drift = Drift(exits: bool, starts: bool)

  /** held: somebody other than an engine holds the lease for a moment. */
  datatype Probe = Probe(drift: Drift, error: bool, held: bool)

  datatype Poll = Poll(probe: Probe, drift: Drift, answers: bool)

  /** polls is all that fits before the deadline. */
  datatype StopScript = StopScript(probe: Probe, active: bool, stopped: bool, polls: seq<Poll>, inactive: bool)

  datatype RestoreScript = RestoreScript(blocked: bool, stop: StopScript)

  datatype LaunchScript = LaunchScript(launched: bool, drift: Drift, polls: seq<Poll>)

  datatype GrantScript = GrantScript(granted: bool, blockedAtOnce: bool, launch: LaunchScript, drift: Drift,
                                     blocked: bool, restore: RestoreScript)

  datatype StartScript = StartScript(drift: Drift, activeFirst: bool, probe: Probe, active: bool, stop: StopScript,
                                     vacant: bool, grant: GrantScript)

  // --- what the guard makes of it --------------------------------------------------------------

  /** The guard, the configuration that the running engine loaded, and the live file. */
  datatype Host = Host(phase: Phase, attempted: bool, engine: Option<Config>, live: Config)

  /** From a stop until a grant no engine runs; from a grant on, any engine has loaded the live file. */
  predicate HostOk(h: Host) {
    && (match h.phase
        case Quiet | Stopped | Open | Granting | Revoked(_) | Blocked(_) => true
        case _ => false)
    && (h.phase == Stopped || h.phase == Open ==> h.engine == None)
    && (!Calm(h.phase) ==> h.engine == None || h.engine == Some(h.live))
    && (!h.attempted ==> h.phase == Quiet || h.phase == Stopped)
  }

  predicate Stoppable(phase: Phase) {
    phase == Quiet || phase == Stopped || phase.Blocked?
  }

  /** An engine may exit, and one may start unless the operation knows that nobody is authorized. */
  predicate EngineDrifts(h: Host, engine: Option<Config>) {
    engine == h.engine || engine == None || (!Calm(h.phase) && engine == Some(h.live))
  }

  function Drifted(h: Host, d: Drift): Host {
    if d.exits then h.(engine := None)
    else if d.starts && h.engine == None && !Calm(h.phase) then h.(engine := Some(h.live))
    else h
  }

  function Probed(h: Host, p: Probe): (Host, Answer) {
    var next := Drifted(h, p.drift);
    if p.error then (next, Unknown)
    else if next.engine.Some? || p.held then (next, Yes)
    else if next.phase == Granting then (next, No)
    else (next.(phase := Stopped), No)
  }

  function Waited(h: Host, started: bool, polls: seq<Poll>): (Host, bool)
    decreases |polls|
  {
    if polls == [] then (h, false)
    else
      var (next, busy) := Probed(h, polls[0].probe);
      if busy == Unknown then (next, false)
      else if !started && busy == No then (next, true)
      else if started && busy == Yes then
        var later := Drifted(next, polls[0].drift);
        if polls[0].answers && later.engine.Some? then (later, true) else Waited(later, started, polls[1..])
      else Waited(next, started, polls[1..])
  }

  function StopRun(h: Host, s: StopScript): (Host, Result) {
    var (probed, busy) := Probed(h, s.probe);
    if busy == Unknown || ((s.active || busy == Yes) && !s.stopped) then (probed, Failed(true))
    else
      var (next, free) := Waited(probed, false, s.polls);
      (next, if free && s.inactive then Done else Failed(true))
  }

  function Shut(h: Host): Host
    requires h.phase == Open || h.phase.Revoked?
  {
    h.(phase := if h.phase == Open then Stopped else Blocked(h.phase.started))
  }

  predicate Unshared(phase: Phase) {
    phase == Open || phase.Revoked?
  }

  function RestoreRun(h: Host, s: RestoreScript): (Host, Result) {
    if Unshared(h.phase) && !s.blocked then (h, Failed(true))
    else
      var next := if Unshared(h.phase) then Shut(h) else h;
      if next.attempted then StopRun(next, s.stop) else (next, Done)
  }

  function LaunchRun(h: Host, s: LaunchScript): (Host, bool) {
    var granting := h.(phase := Granting);
    var (next, ready) := if s.launched then Waited(Drifted(granting, s.drift), true, s.polls) else (granting, false);
    (next.(phase := Revoked(ready)), ready)
  }

  function GrantRun(h: Host, s: GrantScript): (Host, Result) {
    if !s.granted then
      if s.blockedAtOnce then (h.(phase := Stopped), Failed(false)) else (h.(phase := Open), Failed(true))
    else
      var (launched, ready) := LaunchRun(h.(phase := Open), s.launch);
      var revoked := Drifted(launched, s.drift);
      var result := if !s.blocked then Failed(true) else if ready then Done else Failed(false);
      var next := if s.blocked then revoked.(phase := Blocked(ready)) else revoked;
      if result == Done then (next, Done)
      else
        var (restored, stopped) := RestoreRun(next, s.restore);
        (restored, Join(result, stopped))
  }

  function AttemptRun(h: Host, s: StartScript): (Host, Result) {
    var (stopped, result) := StopRun(h, s.stop);
    if result != Done then (stopped, result)
    else if !s.vacant then (stopped, Failed(false))
    else GrantRun(stopped, s.grant)
  }

  /** A start is refused beside an engine that the service does not run. */
  function EnterRun(h: Host, s: StartScript): (Host, Result) {
    var (probed, busy) := Probed(h, s.probe);
    if busy == Unknown || (busy == Yes && !s.active) then (probed, Failed(false))
    else AttemptRun(probed.(attempted := true), s)
  }

  function StartRun(h: Host, restart: bool, s: StartScript): (Host, Result) {
    var first := Drifted(h, s.drift);
    if !restart && s.activeFirst then (first, Done) else EnterRun(first, s)
  }

  // --- the host is what the machine shows ----------------------------------------------------------

  predicate IsEngine(phase: Phase) {
    phase == Starting || phase == Ready
  }

  ghost predicate EngineRuns(m: Machine) {
    exists p: Pid :: IsEngine(At(m, p))
  }

  /** A host is what one operation of a machine may know: its own phase, and whether an engine runs. */
  ghost predicate Shows(m: Machine, p: Pid, h: Host) {
    At(m, p) == h.phase && (h.engine.Some? <==> EngineRuns(m))
  }

  /** Only a wrapper that is authorized, or that finds a grant, becomes an engine. */
  lemma EngineFrom(m: Machine, a: Phase, b: Phase)
    requires (OperationMoves(a, b) || WrapperMoves(a, b)) && Guard(m, a, b) && IsEngine(b)
    ensures Authorized(a) || (a == Leased && !CanShare(m.permission))
  {
  }

  /** While an operation is calm, no move of another process makes an engine start or get ready. */
  lemma NoStartUnderCalm(m: Machine, m': Machine, p: Pid, q: Pid, b: Phase)
    requires Inv(m) && Calm(At(m, p)) && q != p && Moves(m, m', q, b)
    ensures !IsEngine(b) && !Authorized(b)
  {
    assert NotBoth(m, p, q);
    MoveKeeps(m, m', q, b);
    assert At(m', p) == At(m, p) && At(m', q) == b && NotBoth(m', p, q);
    if IsEngine(b) {
      EngineFrom(m, At(m, q), b);
      NobodyCalm(m, q, p);
    }
  }

  lemma EnginesOnlyLeave(m: Machine, m': Machine, q: Pid, b: Phase)
    requires Moves(m, m', q, b) && !IsEngine(b) && EngineRuns(m')
    ensures EngineRuns(m)
  {
    var r: Pid :| IsEngine(At(m', r));
    assert r != q && At(m, r) == At(m', r);
  }

  /** So whatever another process does is a drift of the host: engines exit, and start only if that is allowed. */
  lemma OthersDrift(m: Machine, m': Machine, p: Pid, q: Pid, b: Phase, h: Host) returns (d: Drift)
    requires Inv(m) && Shows(m, p, h) && q != p && Moves(m, m', q, b)
    ensures Shows(m', p, Drifted(h, d))
  {
    d := Drift(EngineRuns(m) && !EngineRuns(m'), !EngineRuns(m) && EngineRuns(m'));
    assert At(m', p) == At(m, p);
    if d.starts && Calm(h.phase) {
      NoStartUnderCalm(m, m', p, q, b);
      EnginesOnlyLeave(m, m', q, b);
      assert false;
    }
  }

  /** A probe that gets the lease sees the machine without an engine. */
  lemma FreeLeaseShows(m: Machine, p: Pid)
    requires Inv(m) && (At(m, p) == StopProbe || At(m, p) == GrantProbe)
    ensures !EngineRuns(m)
  {
    forall q: Pid ensures !IsEngine(At(m, q)) {
      if q != p {
        Apart(m, p, q);
      }
    }
  }

  // --- what each of these keeps ------------------------------------------------------------------

  lemma DriftKeeps(h: Host, d: Drift)
    requires HostOk(h)
    ensures HostOk(Drifted(h, d)) && EngineDrifts(h, Drifted(h, d).engine)
    ensures Drifted(h, d) == h.(engine := Drifted(h, d).engine)
  {
  }

  /** A free lease shows that no engine runs and, while startup is blocked, that none is about to. */
  lemma ProbeKeeps(h: Host, p: Probe)
    requires HostOk(h) && (Stoppable(h.phase) || h.phase == Granting)
    ensures var (next, busy) := Probed(h, p);
      && HostOk(next) && EngineDrifts(h, next.engine) && next.live == h.live && next.attempted == h.attempted
      && next.phase == (if busy == No && h.phase != Granting then Stopped else h.phase)
      && (busy == No ==> next.engine == None)
  {
  }

  lemma DriftsOnce(h: Host, middle: Host, engine: Option<Config>)
    requires EngineDrifts(h, middle.engine) && EngineDrifts(middle, engine)
    requires middle.phase == h.phase && middle.live == h.live
    ensures EngineDrifts(h, engine)
  {
  }

  /** What waiting leaves behind. */
  predicate WaitLeaves(h: Host, started: bool, next: Host, ok: bool) {
    && HostOk(next) && EngineDrifts(h, next.engine) && next.live == h.live && next.attempted == h.attempted
    && next.phase == (if !started && ok then Stopped else h.phase)
    && (started && ok ==> next.engine == Some(h.live))
  }

  lemma {:induction false} WaitKeeps(h: Host, started: bool, polls: seq<Poll>)
    requires HostOk(h) && (if started then h.phase == Granting else Stoppable(h.phase))
    ensures var (next, ok) := Waited(h, started, polls); WaitLeaves(h, started, next, ok)
    decreases |polls|, 0
  {
    if polls != [] {
      var (next, busy) := Probed(h, polls[0].probe);
      ProbeKeeps(h, polls[0].probe);
      if busy == Yes {
        var later := if started then Drifted(next, polls[0].drift) else next;
        DriftKeeps(next, polls[0].drift);
        DriftsOnce(h, next, later.engine);
        WaitGoesOn(h, later, started, polls[1..]);
      } else if busy == No && started {
        WaitGoesOn(h, next, started, polls[1..]);
      }
    }
  }

  lemma {:induction false} WaitGoesOn(h: Host, later: Host, started: bool, polls: seq<Poll>)
    requires HostOk(later) && (if started then later.phase == Granting else Stoppable(later.phase))
    requires later == h.(engine := later.engine) && EngineDrifts(h, later.engine)
    ensures var (next, ok) := Waited(later, started, polls); WaitLeaves(h, started, next, ok)
    decreases |polls|, 1
  {
    WaitKeeps(later, started, polls);
    var (next, ok) := Waited(later, started, polls);
    DriftsOnce(h, later, next.engine);
  }

  /** Only a free engine lease counts as stopped. */
  predicate StopLeaves(h: Host, next: Host, result: Result) {
    && HostOk(next) && Stoppable(next.phase) && EngineDrifts(h, next.engine)
    && next.live == h.live && next.attempted == h.attempted
    && (next.phase == Stopped || next.phase == h.phase)
    && (result == Done ==> next.phase == Stopped)
    && (result != Done ==> result == Failed(true))
  }

  lemma StopKeeps(h: Host, s: StopScript)
    requires HostOk(h) && Stoppable(h.phase)
    ensures var (next, result) := StopRun(h, s); StopLeaves(h, next, result)
  {
    ProbeKeeps(h, s.probe);
    var (probed, busy) := Probed(h, s.probe);
    WaitKeeps(probed, false, s.polls);
  }

  predicate RestoreLeaves(h: Host, next: Host, result: Result) {
    && HostOk(next) && (Stoppable(next.phase) || Unshared(next.phase))
    && next.live == h.live && next.attempted == h.attempted
    && (result == Done ==> Held(next.phase).permission == Shared)
    && (result == Done ==> next.phase == if h.attempted then Stopped else h.phase)
    && (result != Done ==> result == Failed(true) && h.attempted)
    && (next.engine == h.engine || next.engine == None || next.engine == Some(h.live))
    && (!h.attempted ==> next == h)
  }

  lemma RestoreKeeps(h: Host, s: RestoreScript)
    requires HostOk(h) && (Stoppable(h.phase) || Unshared(h.phase))
    ensures var (next, result) := RestoreRun(h, s); RestoreLeaves(h, next, result)
  {
    if Stoppable(h.phase) {
      StopKeeps(h, s.stop);
    } else {
      StopKeeps(Shut(h), s.stop);
    }
  }

  lemma LaunchKeeps(h: Host, s: LaunchScript)
    requires HostOk(h) && h.phase == Open && h.attempted
    ensures var (next, ready) := LaunchRun(h, s);
      && HostOk(next) && next.phase == Revoked(ready) && next.live == h.live && next.attempted
      && (ready ==> next.engine == Some(h.live))
  {
    var granting := h.(phase := Granting);
    DriftKeeps(granting, s.drift);
    WaitKeeps(Drifted(granting, s.drift), true, s.polls);
  }

  predicate GrantLeaves(h: Host, next: Host, result: Result) {
    && HostOk(next) && Held(next.phase).permission != Exclusive
    && next.live == h.live && next.attempted
    && (match result
        case Done => next.phase == Blocked(true)
        case Failed(false) => next.phase == Stopped
        case Failed(true) => Stoppable(next.phase) || Unshared(next.phase))
    && (next.engine == None || next.engine == Some(h.live))
  }

  lemma GrantKeeps(h: Host, s: GrantScript)
    requires HostOk(h) && h.phase == Stopped && h.attempted
    ensures var (next, result) := GrantRun(h, s); GrantLeaves(h, next, result)
  {
    var (launched, ready) := LaunchRun(h.(phase := Open), s.launch);
    LaunchKeeps(h.(phase := Open), s.launch);
    var revoked := Drifted(launched, s.drift);
    DriftKeeps(launched, s.drift);
    RestoreKeeps(if s.blocked then revoked.(phase := Blocked(ready)) else revoked, s.restore);
  }

  /** Success means that the engine answered under the grant. Failure leaves the lease free and startup blocked,
      unless it says that blocking or stopping was not confirmed, or came before anything was touched. */
  predicate StartLeaves(h: Host, restart: bool, next: Host, result: Result) {
    && HostOk(next) && Held(next.phase).permission != Exclusive && next.live == h.live
    && (result == Done && restart ==> next.phase == Blocked(true))
    && (result == Done && !restart ==> next.phase == Blocked(true) || next.phase == h.phase)
    && (result == Failed(false) ==>
          next.phase == Stopped || (next.phase == h.phase && next.attempted == h.attempted))
    && (Stoppable(next.phase) || (Unshared(next.phase) && result == Failed(true)))
    && (next.engine == h.engine || next.engine == None || next.engine == Some(h.live))
    && (!next.attempted ==> next.engine == h.engine || next.engine == None)
    && (h.attempted ==> next.attempted)
  }

  predicate AttemptLeaves(h: Host, next: Host, result: Result) {
    && HostOk(next) && Held(next.phase).permission != Exclusive && next.live == h.live && next.attempted
    && (result == Done ==> next.phase == Blocked(true))
    && (result == Failed(false) ==> next.phase == Stopped)
    && (Stoppable(next.phase) || (Unshared(next.phase) && result == Failed(true)))
    && (next.engine == h.engine || next.engine == None || next.engine == Some(h.live))
  }

  lemma AttemptKeeps(h: Host, s: StartScript)
    requires HostOk(h) && Stoppable(h.phase) && h.attempted
    ensures var (next, result) := AttemptRun(h, s); AttemptLeaves(h, next, result)
  {
    StopKeeps(h, s.stop);
    var (stopped, result) := StopRun(h, s.stop);
    if result == Done {
      GrantKeeps(stopped, s.grant);
    }
  }

  lemma StartKeeps(h: Host, restart: bool, s: StartScript)
    requires HostOk(h) && Stoppable(h.phase)
    ensures var (next, result) := StartRun(h, restart, s); StartLeaves(h, restart, next, result)
  {
    var first := Drifted(h, s.drift);
    DriftKeeps(h, s.drift);
    var (probed, busy) := Probed(first, s.probe);
    ProbeKeeps(first, s.probe);
    AttemptKeeps(probed.(attempted := true), s);
  }

  // --- which answers a success needs, and which ones are enough ---------------------------------

  /** Some poll said what was waited for: the lease free, or an engine that answers. */
  ghost predicate Heard(started: bool, polls: seq<Poll>) {
    exists i :: 0 <= i < |polls| && !polls[i].probe.error && if started then polls[i].answers else !polls[i].probe.held
  }

  lemma {:induction false} WaitHears(h: Host, started: bool, polls: seq<Poll>)
    requires Waited(h, started, polls).1
    ensures Heard(started, polls)
    decreases |polls|
  {
    var (next, busy) := Probed(h, polls[0].probe);
    var later := Drifted(next, polls[0].drift);
    assert polls[0].probe.error ==> busy == Unknown;
    if started && busy == Yes && polls[0].answers && later.engine.Some? {
      assert Heard(started, polls);
    } else if started || busy != No {
      WaitHears(if started && busy == Yes then later else next, started, polls[1..]);
      var i :| 0 <= i < |polls| - 1 && polls[1..][i] == polls[i + 1] && !polls[i + 1].probe.error
        && if started then polls[i + 1].answers else !polls[i + 1].probe.held;
    }
  }

  /** A stop is confirmed by a lease that is free and a service that is not active, and a service that was active, or
      beside which the lease was busy, was asked to stop. */
  ghost predicate StopHears(h: Host, s: StopScript) {
    && !s.probe.error && s.inactive && Heard(false, s.polls)
    && (s.active || s.probe.held || (h.engine.Some? && !s.probe.drift.exits) ==> s.stopped)
  }

  lemma StopNeeds(h: Host, s: StopScript)
    requires StopRun(h, s).1 == Done
    ensures StopHears(h, s)
  {
    WaitHears(Probed(h, s.probe).0, false, s.polls);
  }

  /** An engine is started only after a confirmed stop, with the controller's port vacant and under a grant, and only an
      engine that answers counts as started. */
  ghost predicate AttemptHears(s: StartScript) {
    && s.stop.inactive && s.vacant && s.grant.granted && s.grant.launch.launched
    && Heard(true, s.grant.launch.polls) && s.grant.blocked
  }

  lemma AttemptNeeds(h: Host, s: StartScript)
    requires AttemptRun(h, s).1 == Done
    ensures AttemptHears(s)
  {
    StopNeeds(h, s.stop);
    var opened' := StopRun(h, s.stop).0.(phase := Open);
    WaitHears(Drifted(opened'.(phase := Granting), s.grant.launch.drift), true, s.grant.launch.polls);
  }

  /** The lease is free at the first poll, since the engine is gone and nobody else holds it. */
  predicate StopsAtOnce(s: StopScript) {
    && !s.probe.error && s.stopped && s.inactive
    && s.polls != [] && s.polls[0].probe.drift.exits && !s.polls[0].probe.error && !s.polls[0].probe.held
  }

  /** The engine starts when it is launched, and answers at the first poll. */
  predicate LaunchesAtOnce(s: LaunchScript) {
    && s.launched && s.drift.starts && !s.drift.exits
    && s.polls != [] && !s.polls[0].probe.error && !s.polls[0].probe.drift.exits && !s.polls[0].drift.exits
    && s.polls[0].answers
  }

  /** Nothing in the way of a start: it succeeds. */
  lemma StartSucceeds(h: Host, s: StartScript)
    requires HostOk(h) && Stoppable(h.phase)
    requires !s.probe.error && s.active && StopsAtOnce(s.stop) && s.vacant
    requires s.grant.granted && LaunchesAtOnce(s.grant.launch) && s.grant.blocked
    ensures StartRun(h, true, s).1 == Done
  {
    var probed := Probed(Drifted(h, s.drift), s.probe).0;
    var first := Probed(probed.(attempted := true), s.stop.probe).0;
    assert Waited(first, false, s.stop.polls).1;
    var stopped := StopRun(probed.(attempted := true), s.stop).0;
    assert stopped.engine == None;
    var granting := stopped.(phase := Granting);
    assert Waited(Drifted(granting, s.grant.launch.drift), true, s.grant.launch.polls).1;
  }

  // --- the guard -----------------------------------------------------------------------------------

  /** A sequence of phases that an operation may go through. */
  ghost predicate IsPath(trail: seq<Phase>) {
    trail != [] && forall i :: 0 <= i < |trail| - 1 ==> OperationMoves(trail[i], trail[i + 1])
  }

  lemma PathGrows(trail: seq<Phase>, b: Phase)
    requires IsPath(trail) && OperationMoves(trail[|trail| - 1], b)
    ensures IsPath(trail + [b])
  {
  }

  /** Startup was not granted since. */
  ghost predicate Ungranted(earlier: seq<Phase>, trail: seq<Phase>) {
    earlier <= trail && forall i :: |earlier| <= i < |trail| ==> trail[i] != Granting
  }

  class StartupGuard {
    var permission: Mode
    var attempted: bool
    var phase: Phase
    ghost var trail: seq<Phase>

    /** The machine around the guard. */
    var engine: Option<Config>
    var live: Config

    ghost function Now(): Host
      reads this
    {
      Host(phase, attempted, engine, live)
    }

    ghost predicate Valid()
      reads this
    {
      && permission == Held(phase).permission && HostOk(Now())
      && IsPath(trail) && trail[|trail| - 1] == phase
    }

    constructor (engine: Option<Config>, live: Config)
      ensures Valid() && Now() == Host(Quiet, false, engine, live)
    {
      permission, attempted, phase := Shared, false, Quiet;
      trail := [Quiet];
      this.engine, this.live := engine, live;
    }

    /** The next phase of the operation, with the permission lease that it holds there. */
    method Go(b: Phase)
      requires IsPath(trail) && trail[|trail| - 1] == phase && OperationMoves(phase, b)
      modifies this`permission, this`phase, this`trail
      ensures phase == b && permission == Held(b).permission
      ensures trail == old(trail) + [b] && IsPath(trail)
    {
      PathGrows(trail, b);
      permission, phase := Held(b).permission, b;
      trail := trail + [b];
    }

    method Pass(d: Drift)
      requires Valid()
      modifies this`engine
      ensures Valid() && Now() == Drifted(old(Now()), d)
    {
      DriftKeeps(Now(), d);
      if d.exits {
        engine := None;
      } else if d.starts && engine == None && !Calm(phase) {
        engine := Some(live);
      }
    }

    method EngineBusy(p: Probe) returns (busy: Answer)
      requires Valid() && (Stoppable(phase) || phase == Granting)
      modifies this`permission, this`engine, this`phase, this`trail
      ensures Valid() && (Now(), busy) == Probed(old(Now()), p)
      ensures if busy == No && old(phase) != Granting then phase == Stopped else phase == old(phase)
      ensures busy == No ==> engine == None
      ensures old(phase) != Granting ==> Ungranted(old(trail), trail)
    {
      ProbeKeeps(Now(), p);
      Pass(p.drift);
      if p.error {
        return Unknown;
      }
      if engine.Some? || p.held {
        return Yes;
      }
      if phase == Granting {
        Go(GrantProbe);
        Go(Granting);
      } else {
        Go(StopProbe);
        Go(Stopped);
      }
      return No;
    }

    method WaitEngine(started: bool, polls: seq<Poll>) returns (ok: bool)
      requires Valid() && (if started then phase == Granting else Stoppable(phase))
      modifies this`permission, this`engine, this`phase, this`trail
      ensures Valid() && (Now(), ok) == Waited(old(Now()), started, polls)
      ensures if !started && ok then phase == Stopped else phase == old(phase)
      ensures started && ok ==> engine == Some(live)
      ensures !started ==> Ungranted(old(trail), trail)
    {
      WaitKeeps(Now(), started, polls);
      for i := 0 to |polls|
        invariant Valid() && phase == old(phase)
        invariant Waited(Now(), started, polls[i..]) == Waited(old(Now()), started, polls)
        invariant !started ==> Ungranted(old(trail), trail)
      {
        var busy := EngineBusy(polls[i].probe);
        if busy == Unknown {
          return false;
        }
        if !started && busy == No {
          return true;
        }
        if started && busy == Yes {
          Pass(polls[i].drift);
          if polls[i].answers && engine.Some? {
            return true;
          }
        }
      }
      return false;
    }

    method Stop(s: StopScript) returns (result: Result)
      requires Valid() && Stoppable(phase)
      modifies this`permission, this`engine, this`phase, this`trail
      ensures Valid() && (Now(), result) == StopRun(old(Now()), s)
      ensures StopLeaves(old(Now()), Now(), result) && Ungranted(old(trail), trail)
      ensures result == Done ==> StopHears(old(Now()), s)
    {
      StopKeeps(Now(), s);
      if StopRun(Now(), s).1 == Done {
        StopNeeds(Now(), s);
      }
      var busy := EngineBusy(s.probe);
      if busy == Unknown {
        return Failed(true);
      }
      if (s.active || busy == Yes) && !s.stopped {
        return Failed(true);
      }
      var free := WaitEngine(false, s.polls);
      result := if free && s.inactive then Done else Failed(true);
    }

    /** Shares the permission again, unless the system refuses. */
    method Block(ok: bool)
      requires Valid() && Unshared(phase)
      modifies this`permission, this`phase, this`trail
      ensures Valid() && Now() == (if ok then Shut(old(Now())) else old(Now())) && Ungranted(old(trail), trail)
    {
      if ok {
        Go(if phase == Open then Stopped else Blocked(phase.started));
      }
    }

    /** Nothing may be restored before startup is blocked again and the attempted engine is gone. */
    method BeforeRestore(s: RestoreScript) returns (result: Result)
      requires Valid() && (Stoppable(phase) || Unshared(phase))
      modifies this`permission, this`engine, this`phase, this`trail
      ensures Valid() && (Now(), result) == RestoreRun(old(Now()), s)
      ensures RestoreLeaves(old(Now()), Now(), result) && Ungranted(old(trail), trail)
    {
      RestoreKeeps(Now(), s);
      if permission == Free {
        Block(s.blocked);
        if !s.blocked {
          return Failed(true);
        }
      }
      if attempted {
        result := Stop(s.stop);
      } else {
        result := Done;
      }
    }

    /** The window in which startup is granted. */
    method Launch(s: LaunchScript) returns (ready: bool)
      requires Valid() && phase == Open && attempted
      modifies this`permission, this`phase, this`trail, this`engine
      ensures Valid() && (Now(), ready) == LaunchRun(old(Now()), s)
      ensures phase == Revoked(ready) && (ready ==> engine == Some(live))
    {
      LaunchKeeps(Now(), s);
      Go(Granting);
      ready := false;
      if s.launched {
        Pass(s.drift);
        ready := WaitEngine(true, s.polls);
      }
      Go(Revoked(ready));
    }

    /** The grant is held from here until the engine answers or gives up, and is revoked on every way out. */
    method Grant(s: GrantScript) returns (result: Result)
      requires Valid() && phase == Stopped && attempted
      modifies this`permission, this`phase, this`trail, this`engine
      ensures Valid() && (Now(), result) == GrantRun(old(Now()), s)
      ensures GrantLeaves(old(Now()), Now(), result)
      ensures !s.granted ==> Ungranted(old(trail), trail)
    {
      GrantKeeps(Now(), s);
      Go(Open);
      if !s.granted {
        Block(s.blockedAtOnce);
        return Failed(!s.blockedAtOnce);
      }
      var ready := Launch(s.launch);
      result := if ready then Done else Failed(false);
      Pass(s.drift);
      Block(s.blocked);
      if !s.blocked {
        result := Join(result, Failed(true));
      }
      if result != Done {
        var stopped := BeforeRestore(s.restore);
        result := Join(result, stopped);
      }
    }

    method Start(restart: bool, s: StartScript) returns (result: Result)
      requires Valid() && Stoppable(phase)
      modifies this`permission, this`attempted, this`phase, this`trail, this`engine
      ensures Valid() && (Now(), result) == StartRun(old(Now()), restart, s)
      ensures StartLeaves(old(Now()), restart, Now(), result)
      ensures result == Done ==> (!restart && s.activeFirst && phase == old(phase)) || AttemptHears(s)
      ensures !s.stop.inactive || !s.vacant || !s.grant.granted ==> Ungranted(old(trail), trail)
    {
      StartKeeps(Now(), restart, s);
      Pass(s.drift);
      if restart || !s.activeFirst {
        result := Enter(s);
      } else {
        result := Done;
      }
    }

    method Enter(s: StartScript) returns (result: Result)
      requires Valid() && Stoppable(phase)
      modifies this`permission, this`attempted, this`phase, this`trail, this`engine
      ensures Valid() && (Now(), result) == EnterRun(old(Now()), s) && (result == Done ==> AttemptHears(s))
      ensures !s.stop.inactive || !s.vacant || !s.grant.granted ==> Ungranted(old(trail), trail)
    {
      var busy := EngineBusy(s.probe);
      if busy == Unknown {
        return Failed(false);
      }
      if busy == Yes && !s.active {
        return Failed(false);
      }
      attempted := true;
      result := Attempt(s);
    }

    method Attempt(s: StartScript) returns (result: Result)
      requires Valid() && Stoppable(phase) && attempted
      modifies this`permission, this`phase, this`trail, this`engine
      ensures Valid() && (Now(), result) == AttemptRun(old(Now()), s)
      ensures AttemptLeaves(old(Now()), Now(), result) && (result == Done ==> AttemptHears(s))
      ensures !s.stop.inactive || !s.vacant || !s.grant.granted ==> Ungranted(old(trail), trail)
    {
      AttemptKeeps(Now(), s);
      if AttemptRun(Now(), s).1 == Done {
        AttemptNeeds(Now(), s);
      }
      result := Stop(s.stop);
      if result != Done {
        return;
      }
      if !s.vacant {
        return Failed(false);
      }
      result := Grant(s.grant);
    }

    /** Live files are replaced only while startup is blocked and nobody is about to start. */
    method Publish(config: Config)
      requires Valid() && (phase == Quiet || phase == Stopped)
      modifies this`permission, this`live, this`phase, this`trail
      ensures Valid() && Now() == Published(old(Now()), config)
    {
      Go(Writing(false));
      live := config;
      Go(Quiet);
    }
  }

  function Published(h: Host, config: Config): Host {
    h.(phase := Quiet, live := config)
  }

  // --- the refresh -----------------------------------------------------------------------------------

  /** How a refresh ends. */
  datatype Refreshed = Unchanged | Applied | RolledBack | NotStaged | StopUnconfirmed | NotRestored | NotRestarted

  /** fetched is the new configuration, if the portal sent one; the other answers are of the file system, of the
      configuration check, and of what happens while the service is restarted. */
  datatype RefreshScript = RefreshScript(fetched: Option<Config>, staged: bool, checked: bool, saved: bool,
                                         renamed: bool,
                                         start: StartScript, restore: RestoreScript, restored: bool, again: StartScript)

  predicate RunsLive(h: Host) {
    h.engine == None || h.engine == Some(h.live)
  }

  /** The new configuration reaches the live file. */
  predicate Publishes(h: Host, s: RefreshScript) {
    s.fetched.Some? && s.fetched.value != h.live && s.staged && s.checked && s.saved && s.renamed
  }

  /** A service that was not running is not started. */
  function RestartRun(h: Host, active: bool, s: StartScript): (Host, bool) {
    if !active then (h, true)
    else
      var (next, result) := StartRun(h, true, s);
      (next, result == Done)
  }

  function PublishedRun(h: Host, previous: Config, active: bool, s: RefreshScript): (Host, Refreshed) {
    var (tried, started) := RestartRun(h, active, s.start);
    if started then (tried, Applied)
    else
      var (stopped, result) := RestoreRun(tried, s.restore);
      if result != Done then (stopped, StopUnconfirmed)
      else if !s.restored then (stopped, NotRestored)
      else
        var (last, again) := RestartRun(Published(stopped, previous), active, s.again);
        (last, if again then RolledBack else NotRestarted)
  }

  function RefreshRun(h: Host, active: bool, s: RefreshScript): (Host, Refreshed) {
    if s.fetched.None? || s.fetched.value == h.live then (h, Unchanged)
    else if !Publishes(h, s) then (h, NotStaged)
    else PublishedRun(Published(h, s.fetched.value), h.live, active, s)
  }

  /** The engine outlives a start that comes to nothing before it is asked to stop: the lease could not be probed, or
      it is busy while the service is not running. */
  predicate RefusedAlive(h: Host, s: StartScript) {
    && h.engine.Some? && !s.drift.exits && !s.probe.drift.exits
    && (s.probe.error || !s.active)
  }

  /** The first start after publishing either is refused, and then nothing was touched, or is an attempt. */
  lemma FirstStart(h: Host, s: StartScript)
    requires HostOk(h) && h.phase == Quiet
    ensures var (next, result) := StartRun(h, true, s);
      && StartLeaves(h, true, next, result)
      && (if next.attempted then h.attempted || !RefusedAlive(h, s)
          else next.phase == Quiet && result == Failed(false) && (next.engine == h.engine || next.engine == None)
               && (next.engine != None <==> RefusedAlive(h, s)))
  {
    StartKeeps(h, true, s);
    var first := Drifted(h, s.drift);
    var (probed, busy) := Probed(first, s.probe);
    DriftKeeps(h, s.drift);
    ProbeKeeps(first, s.probe);
    AttemptKeeps(probed.(attempted := true), s);
  }

  /** What is there to roll back: nothing runs, unless the start was refused. */
  lemma BeforeRollback(h: Host, start: StartScript, restore: RestoreScript)
    requires HostOk(h) && h.phase == Quiet
    ensures var (tried, result) := StartRun(h, true, start);
      var (stopped, confirmed) := RestoreRun(tried, restore);
      && (result == Done ==> RunsLive(tried) && (h.attempted || !RefusedAlive(h, start)))
      && (result != Done && confirmed == Done ==>
            && HostOk(stopped) && (stopped.phase == Quiet || stopped.phase == Stopped)
            && (stopped.engine == None || stopped.engine == h.engine)
            && (stopped.engine != None <==> RefusedAlive(h, start) && !h.attempted))
  {
    FirstStart(h, start);
    var (tried, result) := StartRun(h, true, start);
    if result != Done {
      RestoreKeeps(tried, restore);
    }
  }

  /** The restart after a rollback finds an engine, if any, that loaded the file that is back. */
  lemma RollbackAgrees(h: Host, previous: Config, s: StartScript)
    requires HostOk(h) && (h.phase == Quiet || h.phase == Stopped) && (h.engine == None || h.engine == Some(previous))
    ensures RunsLive(RestartRun(Published(h, previous), true, s).0)
  {
    StartKeeps(Published(h, previous), true, s);
  }

  /** The new file was published, and the old engine, never asked to stop, still runs: because the service that would
      be restarted was not running, or because its restart was refused at the start, as the first one of its operation,
      and then the old file could not be put back. */
  predicate LeavesOldEngine(h: Host, active: bool, s: RefreshScript) {
    Publishes(h, s) && if active then !h.attempted && RefusedAlive(h, s.start) && !s.restored else h.engine.Some?
  }

  /** Config and engine agree when a refresh returns, except after a shutdown that was not confirmed, and except
      exactly then. */
  lemma RefreshDisagrees(h: Host, active: bool, s: RefreshScript)
    requires HostOk(h) && h.phase == Quiet && RunsLive(h)
    requires RefreshRun(h, active, s).1 != StopUnconfirmed
    ensures !RunsLive(RefreshRun(h, active, s).0) <==> LeavesOldEngine(h, active, s)
  {
    if Publishes(h, s) && active {
      var published := Published(h, s.fetched.value);
      BeforeRollback(published, s.start, s.restore);
      var (tried, result) := StartRun(published, true, s.start);
      var (stopped, confirmed) := RestoreRun(tried, s.restore);
      if result != Done && confirmed == Done {
        RollbackAgrees(stopped, h.live, s.again);
      }
    }
  }

  lemma RefreshStrands(h: Host, active: bool, s: RefreshScript)
    requires HostOk(h) && h.phase == Quiet && RunsLive(h)
    ensures var (next, outcome) := RefreshRun(h, active, s);
      outcome != StopUnconfirmed ==> (!RunsLive(next) <==> LeavesOldEngine(h, active, s))
  {
    if RefreshRun(h, active, s).1 != StopUnconfirmed {
      RefreshDisagrees(h, active, s);
    }
  }

  /** Which file is live at each outcome. */
  predicate OutcomeLeaves(h: Host, previous: Config, active: bool, restored: bool, next: Host, outcome: Refreshed) {
    match outcome
    case Unchanged | NotStaged => false
    case Applied => next.live == h.live && (active ==> next.phase == Blocked(true))
    case RolledBack | NotRestarted => active && restored && next.live == previous
    case StopUnconfirmed => active && next.live == h.live
    case NotRestored => active && !restored && next.live == h.live
  }

  lemma PublishedLeaves(h: Host, previous: Config, active: bool, s: RefreshScript)
    requires HostOk(h) && h.phase == Quiet
    ensures var (next, outcome) := PublishedRun(h, previous, active, s);
      OutcomeLeaves(h, previous, active, s.restored, next, outcome)
  {
    BeforeRollback(h, s.start, s.restore);
    var (tried, result) := StartRun(h, true, s.start);
    StartKeeps(h, true, s.start);
    if result != Done {
      RestoreKeeps(tried, s.restore);
      var (stopped, confirmed) := RestoreRun(tried, s.restore);
      if confirmed == Done {
        StartKeeps(Published(stopped, previous), true, s.again);
      }
    }
  }

  const QUIETLY := Drift(false, false)
  const UNANSWERED := Probe(QUIETLY, true, false)
  const NO_STOP := StopScript(UNANSWERED, false, false, [], false)
  const NO_RESTORE := RestoreScript(false, NO_STOP)
  const NO_GRANT := GrantScript(false, false, LaunchScript(false, QUIETLY, []), QUIETLY, false, NO_RESTORE)

  /** A start whose first probe of the engine lease fails. */
  const REFUSED_START := StartScript(QUIETLY, false, UNANSWERED, true, NO_STOP, false, NO_GRANT)

  /** Such an input: the service runs, the probe before its restart fails, and so does the rename back. The old engine
      goes on beside the new file. */
  lemma RefusedRefreshDisagrees(before: Config, fetched: Config)
    requires fetched != before
    ensures var s := RefreshScript(Some(fetched), true, true, true, true, REFUSED_START, NO_RESTORE, false,
                                   REFUSED_START);
      RefreshRun(Host(Quiet, false, Some(before), before), true, s)
          == (Host(Quiet, false, Some(before), fetched), NotRestored)
  {
  }

  /** Another one: an engine started by hand beside a service that is not running. */
  lemma RefreshBesideForeignEngine(before: Config, fetched: Config)
    requires fetched != before
    ensures var s := RefreshScript(Some(fetched), true, true, true, true, REFUSED_START, NO_RESTORE, true,
                                   REFUSED_START);
      RefreshRun(Host(Quiet, false, Some(before), before), false, s)
          == (Host(Quiet, false, Some(before), fetched), Applied)
  {
  }

  /** Refreshing the configuration of the engine that the service manages; active says whether it was running. */
  class Installer {
    const guard: StartupGuard
    const active: bool
    var previous: Option<Config>

    constructor (guard: StartupGuard, active: bool)
      ensures this.guard == guard && this.active == active && previous == None
    {
      this.guard, this.active, previous := guard, active, None;
    }

    method Restart(s: StartScript) returns (ok: bool)
      requires guard.Valid() && Stoppable(guard.phase)
      modifies guard`permission, guard`attempted, guard`phase, guard`trail, guard`engine
      ensures guard.Valid() && (guard.Now(), ok) == RestartRun(old(guard.Now()), active, s)
      ensures guard.permission != Exclusive && (Stoppable(guard.phase) || Unshared(guard.phase))
      ensures guard.engine == old(guard.engine) || guard.engine == None || guard.engine == Some(guard.live)
      ensures ok && active ==> guard.phase == Blocked(true)
      ensures !active ==> ok && guard.Now() == old(guard.Now())
    {
      if !active {
        return true;
      }
      var result := guard.Start(true, s);
      ok := result == Done;
    }

    /** Whichever of publish, restart, readiness and rollback failed: an engine that runs when the refresh returns
        loaded exactly the bytes that are now in the live file, except as RefreshDisagrees says. */
    method Refresh(s: RefreshScript) returns (outcome: Refreshed)
      requires guard.Valid() && guard.phase == Quiet && RunsLive(guard.Now())
      modifies this, guard`permission, guard`attempted, guard`phase, guard`trail, guard`engine, guard`live
      ensures guard.Valid() && guard.permission != Exclusive
      ensures (guard.Now(), outcome) == RefreshRun(old(guard.Now()), active, s)
      ensures outcome != StopUnconfirmed ==> (!RunsLive(guard.Now()) <==> LeavesOldEngine(old(guard.Now()), active, s))
      ensures outcome == Unchanged <==> s.fetched.None? || s.fetched.value == old(guard.live)
      ensures outcome == Unchanged || !s.staged || !s.checked || !s.saved || !s.renamed <==>
          outcome == Unchanged || outcome == NotStaged
      ensures match outcome
        case Unchanged | NotStaged => guard.Now() == old(guard.Now())
        case Applied => s.fetched == Some(guard.live) && (active ==> guard.phase == Blocked(true))
        case RolledBack | NotRestarted => active && s.restored && guard.live == old(guard.live)
        case NotRestored => active && !s.restored && s.fetched == Some(guard.live)
        case StopUnconfirmed => active && s.fetched == Some(guard.live)
    {
      ghost var h := guard.Now();
      RefreshStrands(h, active, s);
      if s.fetched.None? || s.fetched.value == guard.live {
        return Unchanged;
      }
      if !s.staged || !s.checked {
        return NotStaged;
      }
      if !s.saved {
        return NotStaged;
      }
      previous := Some(guard.live);
      if !s.renamed {
        return NotStaged;
      }
      guard.Publish(s.fetched.value);
      outcome := TryPublished(s);
    }

    method TryPublished(s: RefreshScript) returns (outcome: Refreshed)
      requires guard.Valid() && guard.phase == Quiet && previous.Some?
      modifies this, guard`permission, guard`attempted, guard`phase, guard`trail, guard`engine, guard`live
      ensures guard.Valid() && guard.permission != Exclusive
      ensures (guard.Now(), outcome) == PublishedRun(old(guard.Now()), old(previous).value, active, s)
      ensures OutcomeLeaves(old(guard.Now()), old(previous).value, active, s.restored, guard.Now(), outcome)
    {
      PublishedLeaves(guard.Now(), previous.value, active, s);
      FirstStart(guard.Now(), s.start);
      var started := Restart(s.start);
      if started {
        return Applied;
      }
      var stopped := guard.BeforeRestore(s.restore);
      if stopped != Done {
        return StopUnconfirmed;
      }
      if !s.restored {
        return NotRestored;
      }
      guard.Publish(previous.value);
      previous := None;
      var again := Restart(s.again);
      outcome := if again then RolledBack else NotRestarted;
    }
  }
}
