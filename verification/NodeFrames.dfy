/** One stream of a node, split among the aggregators of its services. */
module NodeFrames {
  import opened Accounting
  import opened ConnectionTracking

  /** An event and the inbound that its connection came in by. An update carries no connection, and a closing event
      may come without one: then it names no inbound either. */
  datatype NodeEvent = NodeEvent(event: Event, inbound: string)

  const NAIVE := "naive"

  /** User names carry their protocol as a prefix, except for one protocol. */
  function StrippedUser(user: string, protocol: string): string {
    var prefix := protocol + ":";
    if protocol != NAIVE && prefix <= user then user[|prefix|..] else user
  }

  function Stripped(e: Event, protocol: string): Event {
    match e
    case New(id, c) => New(id, c.(user := StrippedUser(c.user, protocol)))
    case Closed(id, c, at) => Closed(id, c.(user := StrippedUser(c.user, protocol)), at)
    case Update(_, _) => e
  }

  /** A name behind its protocol's prefix comes out alone; any other name, and every name of the one protocol without
      prefixes, stays; and nothing else of an event changes. */
  lemma StrippingNames(e: Event, protocol: string, name: string)
    requires !e.Update?
    ensures var c := Stripped(e, protocol).connection;
      && c == e.connection.(user := c.user)
      && (protocol != "naive" && e.connection.user == protocol + ":" + name ==> c.user == name)
      && ((protocol == "naive" || !(protocol + ":" <= e.connection.user)) ==> c.user == e.connection.user)
    ensures Stripped(e, protocol).id == e.id && (Stripped(e, protocol).New? <==> e.New?)
    ensures e.Closed? ==> Stripped(e, protocol).Closed? && Stripped(e, protocol).closedAt == e.closedAt
  {
    var prefix := protocol + ":";
    if e.connection.user == prefix + name {
      assert (prefix + name)[|prefix|..] == name;
    }
  }

  predicate Goes(e: NodeEvent, protocol: string) {
    e.event.Update? || e.inbound == protocol
  }

  /** What one aggregator is given. */
  function Part(events: seq<NodeEvent>, protocol: string): seq<Event> {
    if events == [] then []
    else
      var rest, last := Part(events[..|events| - 1], protocol), events[|events| - 1];
      if Goes(last, protocol) then rest + [Stripped(last.event, protocol)] else rest
  }

  method Partition(events: seq<NodeEvent>, protocol: string) returns (part: seq<Event>)
    ensures part == Part(events, protocol)
  {
    part := [];
    for i := 0 to |events|
      invariant part == Part(events[..i], protocol)
    {
      assert events[..i + 1][..i] == events[..i];
      if events[i].event.Update? {
        part := part + [events[i].event];
      } else if events[i].inbound == protocol {
        part := part + [Stripped(events[i].event, protocol)];
      }
    }
    assert events[..|events|] == events;
  }

  /** An event of one service's connection that says so, or an update. */
  predicate Concerns(e: NodeEvent, protocol: string, owner: map<Id, string>) {
    Owns(owner, e.event.id, protocol) && (e.event.Update? || e.inbound != "")
  }

  /** What concerns one aggregator: the events of its own connections, updates included. */
  function OwnPart(events: seq<NodeEvent>, protocol: string, owner: map<Id, string>): seq<Event> {
    if events == [] then []
    else
      var rest, last := OwnPart(events[..|events| - 1], protocol, owner), events[|events| - 1];
      if Concerns(last, protocol, owner) then rest + [Stripped(last.event, protocol)] else rest
  }

  predicate Owns(owner: map<Id, string>, id: Id, protocol: string) {
    id in owner && owner[id] == protocol
  }

  /** A connection comes in by one inbound only, if an event names it. */
  ghost predicate OneInbound(events: seq<NodeEvent>, owner: map<Id, string>) {
    forall i :: 0 <= i < |events| && !events[i].event.Update? && events[i].inbound != "" ==>
                  Owns(owner, events[i].event.id, events[i].inbound)
  }

  /** An aggregator knows connections of its own service only. */
  ghost predicate OnlyOwn(s: State, owner: map<Id, string>, protocol: string) {
    && (forall id <- s.records :: Owns(owner, id, protocol))
    && (forall id <- s.checkpoints :: Owns(owner, id, protocol))
  }

  /** Only this connection's entries may be new. */
  predicate Touches(s: State, s': State, id: Id) {
    s'.records.Keys <= s.records.Keys + {id} && s'.checkpoints.Keys <= s.checkpoints.Keys + {id}
  }

  lemma AttributedTouches(s: State, id: Id, r: Record, total: Counters, day: int, counted: bool)
    ensures Touches(s, Attributed(s.(records := s.records[id := r]), id, r, total, day, counted), id)
    ensures id in Attributed(s.(records := s.records[id := r]), id, r, total, day, counted).checkpoints
  {
  }

  lemma NewTouches(s: State, id: Id, c: Connection, day: int)
    ensures Touches(s, AfterNew(s, id, c, day), id)
  {
    if c.user != "" {
      var (r, counted) := RecordFor(s, id, c);
      AttributedTouches(s, id, r, c.total, day, counted);
    }
  }

  lemma ClosedTouches(s: State, e: Event, day: int, now: int)
    requires Tracked(s) && e.Closed?
    ensures Touches(s, AfterClosed(s, e, day, now), e.id)
  {
    if e.id in s.records || e.connection.user != "" {
      var (r, counted) := RecordFor(s, e.id, e.connection);
      AttributedTouches(s, e.id, r, e.connection.total, day, counted);
    }
  }

  lemma EventTouches(s: State, e: Event, day: int, now: int)
    requires Tracked(s)
    ensures Touches(s, AfterEvent(s, e, day, now), e.id)
  {
    var seen := s.(available := true);
    match e
    case New(id, c) => NewTouches(seen, id, c, day);
    case Update(_, _) =>
    case Closed(_, _, _) => ClosedTouches(seen, e, day, now);
  }

  /** Only these connections' entries may be new. */
  ghost predicate TouchesOf(s: State, s': State, ids: set<Id>) {
    s'.records.Keys <= s.records.Keys + ids && s'.checkpoints.Keys <= s.checkpoints.Keys + ids
  }

  lemma TouchesMore(s: State, s1: State, s2: State, ids: set<Id>, id: Id)
    requires TouchesOf(s, s1, ids) && Touches(s1, s2, id)
    ensures TouchesOf(s, s2, ids + {id})
  {
  }

  lemma {:induction false} EventsTouch(s: State, events: seq<Event>, day: int, now: int)
    requires Tracked(s)
    ensures TouchesOf(s, AfterEvents(s, events, day, now), Replayed(events))
  {
    if events != [] {
      var init, last := events[..|events| - 1], events[|events| - 1];
      var before := AfterEvents(s, init, day, now);
      EventsTouch(s, init, day, now);
      EventTouches(before, last, day, now);
      TouchesMore(s, before, AfterEvent(before, last, day, now), Replayed(init), last.id);
      assert events == init + [last];
      ReplayedAppend(init, last);
    }
  }

  /** A reset frame is the whole truth: afterwards nothing is known but what it named, and every checkpoint that it left
      out is forgotten and will be deleted. */
  lemma ResetForgets(s: State, frame: Frame, day: int, now: int)
    requires Tracked(s) && frame.reset
    ensures var s' := AfterFrame(s, frame, day, now);
      && (forall id <- s'.records :: exists e <- frame.events :: e.id == id)
      && (forall id <- s'.checkpoints :: exists e <- frame.events :: e.id == id)
    ensures forall id <- s.checkpoints :: (forall e <- frame.events :: e.id != id) ==>
      id in BeginReset(s, Replayed(frame.events)).removed
  {
    EventsTouch(BeginReset(s, Replayed(frame.events)).(available := true), frame.events, day, now);
  }

  lemma EventKeepsOwn(s: State, e: Event, day: int, now: int, owner: map<Id, string>, protocol: string)
    requires Tracked(s) && OnlyOwn(s, owner, protocol) && Owns(owner, e.id, protocol)
    ensures OnlyOwn(AfterEvent(s, e, day, now), owner, protocol)
  {
    EventTouches(s, e, day, now);
  }

  /** An update of somebody else's connection changes nothing. */
  lemma ForeignUpdateIsIgnored(s: State, e: Event, day: int, now: int, owner: map<Id, string>, protocol: string)
    requires Tracked(s) && OnlyOwn(s, owner, protocol) && e.Update? && !Owns(owner, e.id, protocol) && s.available
    ensures AfterEvent(s, e, day, now) == s
  {
    assert e.id !in s.records;
  }

  lemma EventIsSeen(s: State, e: Event, day: int, now: int)
    requires Tracked(s)
    ensures AfterEvent(s, e, day, now).available
  {
  }

  lemma {:induction false} PartIsOwnPart(s: State, events: seq<NodeEvent>, day: int, now: int, owner: map<Id, string>,
                                         protocol: string)
    requires Tracked(s) && OnlyOwn(s, owner, protocol) && OneInbound(events, owner) && s.available && protocol != ""
    ensures AfterEvents(s, Part(events, protocol), day, now)
        == AfterEvents(s, OwnPart(events, protocol, owner), day, now)
    ensures OnlyOwn(AfterEvents(s, Part(events, protocol), day, now), owner, protocol)
    ensures AfterEvents(s, Part(events, protocol), day, now).available
    decreases |events|
  {
    if events != [] {
      var init, last := events[..|events| - 1], events[|events| - 1];
      PartIsOwnPart(s, init, day, now, owner, protocol);
      var before, e := AfterEvents(s, Part(init, protocol), day, now), Stripped(last.event, protocol);
      Appended(s, Part(init, protocol), e, day, now);
      Appended(s, OwnPart(init, protocol, owner), e, day, now);
      EventIsSeen(before, e, day, now);
      if Concerns(last, protocol, owner) {
        EventKeepsOwn(before, e, day, now, owner, protocol);
      } else if last.event.Update? {
        ForeignUpdateIsIgnored(before, e, day, now, owner, protocol);
      }
    }
  }

  lemma Appended(s: State, events: seq<Event>, e: Event, day: int, now: int)
    requires Tracked(s)
    ensures AfterEvents(s, events + [e], day, now) == AfterEvent(AfterEvents(s, events, day, now), e, day, now)
  {
    assert (events + [e])[..|events|] == events;
  }

  lemma {:induction false} ReplayedOwn(events: seq<NodeEvent>, owner: map<Id, string>, protocol: string, id: Id)
    requires OneInbound(events, owner) && Owns(owner, id, protocol) && protocol != ""
    ensures id in Replayed(Part(events, protocol)) <==> id in Replayed(OwnPart(events, protocol, owner))
  {
    if events != [] {
      var init, last := events[..|events| - 1], events[|events| - 1];
      ReplayedOwn(init, owner, protocol, id);
      ReplayedAppend(Part(init, protocol), Stripped(last.event, protocol));
      ReplayedAppend(OwnPart(init, protocol, owner), Stripped(last.event, protocol));
    }
  }

  lemma ReplayedAppend(events: seq<Event>, e: Event)
    ensures Replayed(events + [e]) == Replayed(events) + {e.id}
  {
  }

  /** Splitting a node's stream is exact: every aggregator ends up as if it had been sent the events of its own
      service's connections and nothing else, and goes on knowing only these. */
  lemma SplitIsExact(s: State, reset: bool, events: seq<NodeEvent>, day: int, now: int, owner: map<Id, string>,
                     protocol: string)
    requires Tracked(s) && OnlyOwn(s, owner, protocol) && OneInbound(events, owner) && protocol != ""
    ensures AfterFrame(s, Frame(reset, Part(events, protocol)), day, now)
         == AfterFrame(s, Frame(reset, OwnPart(events, protocol, owner)), day, now)
    ensures OnlyOwn(AfterFrame(s, Frame(reset, Part(events, protocol)), day, now), owner, protocol)
  {
    var given, own := Replayed(Part(events, protocol)), Replayed(OwnPart(events, protocol, owner));
    assert s.checkpoints.Keys - given == s.checkpoints.Keys - own by {
      forall id | id in s.checkpoints ensures id in given <==> id in own {
        ReplayedOwn(events, owner, protocol, id);
      }
    }
    var begun := (if reset then BeginReset(s, given) else s).(available := true);
    PartIsOwnPart(begun, events, day, now, owner, protocol);
  }

  /** A closing event without its connection reaches no aggregator: its connection stays tracked as it was, and only
      the next reset drops the record. */
  lemma BareCloseIsLost(s: State, reset: bool, events: seq<NodeEvent>, id: Id, c: Connection, at: int, day: int,
                        now: int, protocol: string)
    requires Tracked(s) && protocol != ""
    ensures AfterFrame(s, Frame(reset, Part(events + [NodeEvent(Closed(id, c, at), "")], protocol)), day, now)
         == AfterFrame(s, Frame(reset, Part(events, protocol)), day, now)
  {
    assert (events + [NodeEvent(Closed(id, c, at), "")])[..|events|] == events;
  }
}
