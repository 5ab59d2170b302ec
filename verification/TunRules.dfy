/** Route rules: one list for all modes, evaluated first match first, and its TUN variants. */
module TunRules {
  import opened Accounting

  // --- rules ---------------------------------------------------------------------------

  datatype Mode = DirectMode | AiOnly | GfwProxy | ChinaDirect | Global | Ai | Gfw | China

  datatype Network = Tcp | Udp

  datatype Sniffed = Dns | Stun | OtherProtocol

  datatype Tag = Proxy | Direct | DirectSystem

  datatype Server = Google | Aliyun | System

  datatype RuleSet = AdGuard | AiSets | GfwList | ChinaDomains | ChinaIp

  /** What the engine knows of a connection or of a query. */
  datatype Facts = Facts(network: Network, port: nat, protocol: Sniffed, ipv6: bool, private: bool,
                         excepted: bool, exceptedDomain: bool, sets: set<RuleSet>)

  /** A connection in some mode, as it is known before and after its first bytes were looked at. */
  datatype Connection = Connection(mode: Mode, before: Facts, after: Facts)

  datatype Condition =
    | Any | IsPrivate | IsDns | IsHidden | IsExcepted | IsExceptedDomain | InSet(ruleSet: RuleSet)
    | IsIpv6 | IsNtp | IsUdp

  datatype Action = Sniff | HijackDns | Reject | Outbound(tag: Tag) | Resolve(server: Server)

  datatype Rule = Rule(mode: Option<Mode>, condition: Condition, action: Action)

  function Canonical(m: Mode): Mode {
    match m
    case Ai => AiOnly
    case Gfw => GfwProxy
    case China => ChinaDirect
    case _ => m
  }

  predicate Holds(condition: Condition, f: Facts) {
    match condition
    case Any => true
    case IsPrivate => f.private
    case IsDns => f.protocol == Dns || f.port == 53
    case IsHidden => f.port == 853 || (f.network == Udp && f.port == 443) || f.protocol == Stun
    case IsExcepted => f.excepted
    case IsExceptedDomain => f.exceptedDomain
    case InSet(ruleSet) => ruleSet in f.sets
    case IsIpv6 => f.ipv6
    case IsNtp => f.network == Udp && f.port == 123
    case IsUdp => f.network == Udp
  }

  function Known(c: Connection, sniffed: bool): Facts {
    if sniffed then c.after else c.before
  }

  predicate Applies(r: Rule, c: Connection, sniffed: bool) {
    (r.mode == None || r.mode == Some(c.mode)) && Holds(r.condition, Known(c, sniffed))
  }

  /** The first rule that applies decides; looking at the first bytes only adds facts. */
  function Decide(rules: seq<Rule>, c: Connection, sniffed: bool): Option<Action> {
    if rules == [] then None
    else if !Applies(rules[0], c, sniffed) then Decide(rules[1..], c, sniffed)
    else if rules[0].action == Sniff then Decide(rules[1..], c, true)
    else Some(rules[0].action)
  }

  function Decision(rules: seq<Rule>, c: Connection, last: Action): Action {
    var d := Decide(rules, c, false);
    if d.Some? then d.value else last
  }

  // --- building the lists ----------------------------------------------------------------

  /** A mode and, where a client knows them, its older names. */
  function Names(mode: Mode, aliases: bool): seq<Mode> {
    [mode] + if !aliases then [] else
      match mode
      case AiOnly => [Ai]
      case GfwProxy => [Gfw]
      case ChinaDirect => [China]
      case _ => []
  }

  function ForNames(r: Rule, names: seq<Mode>): seq<Rule> {
    if names == [] then [] else [r.(mode := Some(names[0]))] + ForNames(r, names[1..])
  }

  function InMode(mode: Mode, rules: seq<Rule>, aliases: bool): seq<Rule> {
    if rules == [] then [] else ForNames(rules[0], Names(mode, aliases)) + InMode(mode, rules[1..], aliases)
  }

  const SNIFF := Rule(None, Any, Sniff)
  const PRIVATE := Rule(None, IsPrivate, Outbound(Direct))
  const HIJACK := Rule(None, IsDns, HijackDns)

  function Plain(condition: Condition, action: Action): Rule {
    Rule(None, condition, action)
  }

  function InDirect(condition: Condition, action: Action): Rule {
    Rule(Some(DirectMode), condition, action)
  }

  const SHARED: seq<Rule> := [
    InDirect(IsExcepted, Outbound(DirectSystem)),
    Plain(IsExcepted, Outbound(Direct)),
    InDirect(InSet(AiSets), Outbound(DirectSystem)),
    InDirect(InSet(AdGuard), Reject),
    InDirect(Any, Outbound(DirectSystem)),
    Plain(InSet(AiSets), Outbound(Proxy)),
    Plain(InSet(AdGuard), Reject)]

  const IN_CHINA: seq<Rule> := [
    Plain(InSet(GfwList), Outbound(Proxy)), Plain(InSet(ChinaDomains), Outbound(Direct)),
    Plain(InSet(ChinaIp), Outbound(Direct)), Plain(Any, Outbound(Proxy))]

  const IN_GFW: seq<Rule> := [Plain(InSet(GfwList), Outbound(Proxy)), Plain(Any, Outbound(Direct))]

  function Tail(aliases: bool): seq<Rule> {
    [Plain(IsHidden, Reject)]
    + InMode(AiOnly, [Plain(IsExcepted, Outbound(DirectSystem))], aliases)
    + SHARED
    + InMode(ChinaDirect, IN_CHINA, aliases)
    + InMode(GfwProxy, IN_GFW, aliases)
    + InMode(AiOnly, [Plain(Any, Outbound(DirectSystem))], aliases)
    + InMode(Global, [Plain(Any, Outbound(Proxy))], aliases)
  }

  /** The mixed client's list. */
  function RouteRules(aliases: bool): seq<Rule> {
    [SNIFF, PRIVATE, HIJACK] + Tail(aliases)
  }

  const CHINA_DNS: seq<Rule> := [
    Plain(InSet(GfwList), Resolve(Google)), Plain(InSet(ChinaDomains), Resolve(Aliyun)), Plain(Any, Resolve(Google))]

  const GFW_DNS: seq<Rule> := [Plain(InSet(GfwList), Resolve(Google)), Plain(Any, Resolve(Aliyun))]

  function DnsRules(domains: bool, aliases: bool): seq<Rule> {
    [InDirect(Any, Resolve(System))]
    + (if domains then
         InMode(AiOnly, [Plain(IsExceptedDomain, Resolve(System))], aliases)
         + [Plain(IsExceptedDomain, Resolve(Aliyun))]
       else [])
    + [Plain(InSet(AiSets), Resolve(Google))]
    + InMode(ChinaDirect, CHINA_DNS, aliases)
    + InMode(GfwProxy, GFW_DNS, aliases)
    + InMode(AiOnly, [Plain(Any, Resolve(System))], aliases)
    + InMode(Global, [Plain(Any, Resolve(Google))], aliases)
  }

  // --- the engine on arbitrary lists ---------------------------------------------------------

  lemma {:induction false} DecideConcat(a: seq<Rule>, b: seq<Rule>, c: Connection, sniffed: bool)
    requires forall r <- a :: r.action != Sniff
    ensures Decide(a + b, c, sniffed)
         == if Decide(a, c, sniffed).Some? then Decide(a, c, sniffed) else Decide(b, c, sniffed)
  {
    if a == [] {
      assert a + b == b;
    } else {
      assert (a + b)[1..] == a[1..] + b;
      assert forall r <- a[1..] :: r in a;
      assert a[0] in a;
      DecideConcat(a[1..], b, c, sniffed);
    }
  }

  /** Rules that never apply together can change places: here one rule moves past any number of others. */
  lemma MovePast(front: seq<Rule>, mid: seq<Rule>, r: Rule, back: seq<Rule>, c: Connection, sniffed: bool)
    requires forall x <- front + mid + [r] :: x.action != Sniff
    requires Decide(front, c, sniffed) == None && Applies(r, c, sniffed) ==> Decide(mid, c, sniffed) == None
    ensures Decide(front + [r] + mid + back, c, sniffed) == Decide(front + mid + [r] + back, c, sniffed)
  {
    assert forall x <- front :: x in front + mid + [r];
    assert forall x <- mid :: x in front + mid + [r];
    assert r in front + mid + [r];
    DecideConcat(front + [r] + mid, back, c, sniffed);
    DecideConcat(front + [r], mid, c, sniffed);
    DecideConcat(front, [r], c, sniffed);
    DecideConcat(front + mid + [r], back, c, sniffed);
    DecideConcat(front + mid, [r], c, sniffed);
    DecideConcat(front, mid, c, sniffed);
  }

  /** The names under which a client offers its modes. */
  predicate Offered(mode: Mode, aliases: bool) {
    aliases || Canonical(mode) == mode
  }

  // --- where each mode sends a connection ----------------------------------------------------------

  /** Private addresses stay direct, DNS is intercepted, what hides names from the engine is rejected; the rest goes as
      the mode says, with the portal's exceptions first, then the AI sets, then the blocked ones. */
  function Sends(mode: Mode, f: Facts): Action {
    if f.private then Outbound(Direct)
    else if f.protocol == Dns || f.port == 53 then HijackDns
    else if f.port == 853 || (f.network == Udp && f.port == 443) || f.protocol == Stun then Reject
    else
      match mode
      case DirectMode =>
        if AdGuard in f.sets && AiSets !in f.sets && !f.excepted then Reject else Outbound(DirectSystem)
      case AiOnly | Ai =>
        if f.excepted then Outbound(DirectSystem)
        else if AiSets in f.sets then Outbound(Proxy)
        else if AdGuard in f.sets then Reject else Outbound(DirectSystem)
      case _ =>
        if f.excepted then Outbound(Direct)
        else if AiSets in f.sets then Outbound(Proxy)
        else if AdGuard in f.sets then Reject
        else if GfwList in f.sets || mode == Global then Outbound(Proxy)
        else if mode == GfwProxy || mode == Gfw then Outbound(Direct)
        else if ChinaDomains in f.sets || ChinaIp in f.sets then Outbound(Direct) else Outbound(Proxy)
  }

  /** The resolver that a mode asks. */
  function Asks(mode: Mode, domains: bool, f: Facts): Server {
    match mode
    case DirectMode => System
    case AiOnly | Ai => if AiSets in f.sets && !(domains && f.exceptedDomain) then Google else System
    case _ =>
      if domains && f.exceptedDomain then Aliyun
      else if AiSets in f.sets || GfwList in f.sets || mode == Global then Google
      else if mode == GfwProxy || mode == Gfw then Aliyun
      else if ChinaDomains in f.sets then Aliyun else Google
  }

  predicate Unnamed(rules: seq<Rule>) {
    forall r <- rules :: r.mode == None && r.action != Sniff
  }

  lemma {:induction false} ForNamesDecides(r: Rule, names: seq<Mode>, c: Connection, sniffed: bool)
    requires r.action != Sniff
    ensures Decide(ForNames(r, names), c, sniffed)
         == if c.mode in names && Holds(r.condition, Known(c, sniffed)) then Some(r.action) else None
    ensures forall x <- ForNames(r, names) :: x.action != Sniff
  {
    if names != [] {
      ForNamesDecides(r, names[1..], c, sniffed);
      assert ForNames(r, names)[1..] == ForNames(r, names[1..]);
    }
  }

  /** A mode's rules are seen under each of its names, and under no other. */
  lemma {:induction false} InModeDecides(of: Mode, rules: seq<Rule>, aliases: bool, c: Connection, sniffed: bool)
    requires Canonical(of) == of && Offered(c.mode, aliases) && Unnamed(rules)
    ensures Decide(InMode(of, rules, aliases), c, sniffed)
         == if Canonical(c.mode) == of then Decide(rules, c, sniffed) else None
    ensures forall x <- InMode(of, rules, aliases) :: x.action != Sniff
  {
    if rules != [] {
      assert rules[0] in rules && forall r <- rules[1..] :: r in rules;
      var first := ForNames(rules[0], Names(of, aliases));
      InModeDecides(of, rules[1..], aliases, c, sniffed);
      ForNamesDecides(rules[0], Names(of, aliases), c, sniffed);
      DecideConcat(first, InMode(of, rules[1..], aliases), c, sniffed);
      assert c.mode in Names(of, aliases) <==> Canonical(c.mode) == of;
    }
  }

  lemma SharedDecides(c: Connection)
    ensures var f := c.after;
      Decide(SHARED, c, true)
        == if c.mode == DirectMode then
             Some(if !f.excepted && AiSets !in f.sets && AdGuard in f.sets then Reject else Outbound(DirectSystem))
           else if f.excepted then Some(Outbound(Direct))
           else if AiSets in f.sets then Some(Outbound(Proxy))
           else if AdGuard in f.sets then Some(Reject) else None
  {
    var last := [SHARED[5]] + ([SHARED[6]] + []);
    var mid := [SHARED[2]] + ([SHARED[3]] + ([SHARED[4]] + last));
    assert SHARED == [SHARED[0]] + ([SHARED[1]] + mid);
    DecideFront(SHARED[6], [], c, true);
    DecideFront(SHARED[5], [SHARED[6]] + [], c, true);
    DecideFront(SHARED[4], last, c, true);
    DecideFront(SHARED[3], [SHARED[4]] + last, c, true);
    DecideFront(SHARED[2], [SHARED[3]] + ([SHARED[4]] + last), c, true);
    DecideFront(SHARED[1], mid, c, true);
    DecideFront(SHARED[0], [SHARED[1]] + mid, c, true);
  }

  lemma ChinaDecides(c: Connection)
    ensures var f := c.after;
      Decide(IN_CHINA, c, true)
        == Some(Outbound(if GfwList in f.sets then Proxy
                         else if ChinaDomains in f.sets || ChinaIp in f.sets then Direct else Proxy))
  {
    assert IN_CHINA == [IN_CHINA[0]] + ([IN_CHINA[1]] + ([IN_CHINA[2]] + ([IN_CHINA[3]] + [])));
    DecideFront(IN_CHINA[3], [], c, true);
    DecideFront(IN_CHINA[2], [IN_CHINA[3]] + [], c, true);
    DecideFront(IN_CHINA[1], [IN_CHINA[2]] + ([IN_CHINA[3]] + []), c, true);
    DecideFront(IN_CHINA[0], [IN_CHINA[1]] + ([IN_CHINA[2]] + ([IN_CHINA[3]] + [])), c, true);
  }

  lemma GfwDecides(c: Connection)
    ensures Decide(IN_GFW, c, true) == Some(Outbound(if GfwList in c.after.sets then Proxy else Direct))
  {
    assert IN_GFW == [IN_GFW[0]] + ([IN_GFW[1]] + []);
    DecideFront(IN_GFW[1], [], c, true);
    DecideFront(IN_GFW[0], [IN_GFW[1]] + [], c, true);
  }

  lemma OneDecides(r: Rule, c: Connection, sniffed: bool)
    requires r.action != Sniff
    ensures Decide([r], c, sniffed) == if Applies(r, c, sniffed) then Some(r.action) else None
  {
  }

  /** The first of two lists that decides. */
  function OrElse(a: Option<Action>, b: Option<Action>): Option<Action> {
    if a.Some? then a else b
  }

  predicate Unsniffed(rules: seq<Rule>) {
    forall r <- rules :: r.action != Sniff
  }

  lemma DecideOrElse(a: seq<Rule>, b: seq<Rule>, c: Connection, sniffed: bool)
    requires Unsniffed(a) && Unsniffed(b)
    ensures Decide(a + b, c, sniffed) == OrElse(Decide(a, c, sniffed), Decide(b, c, sniffed)) && Unsniffed(a + b)
  {
    DecideConcat(a, b, c, sniffed);
  }

  /** What the four modes with rules of their own do when nothing before them decided. */
  function OwnAction(china: seq<Rule>, gfw: seq<Rule>, ai: Action, global: Action, c: Connection, sniffed: bool)
      : Option<Action> {
    match Canonical(c.mode)
    case ChinaDirect => Decide(china, c, sniffed)
    case GfwProxy => Decide(gfw, c, sniffed)
    case AiOnly => Some(ai)
    case Global => Some(global)
    case _ => None
  }

  function OwnRules(china: seq<Rule>, gfw: seq<Rule>, ai: Action, global: Action, aliases: bool): seq<Rule> {
    InMode(ChinaDirect, china, aliases) + InMode(GfwProxy, gfw, aliases)
    + InMode(AiOnly, [Plain(Any, ai)], aliases) + InMode(Global, [Plain(Any, global)], aliases)
  }

  lemma OwnRulesDecide(china: seq<Rule>, gfw: seq<Rule>, ai: Action, global: Action, aliases: bool, c: Connection,
                       sniffed: bool)
    requires Offered(c.mode, aliases) && Unnamed(china) && Unnamed(gfw) && ai != Sniff && global != Sniff
    ensures Unsniffed(OwnRules(china, gfw, ai, global, aliases))
    ensures Decide(OwnRules(china, gfw, ai, global, aliases), c, sniffed)
         == OwnAction(china, gfw, ai, global, c, sniffed)
  {
    var inChina, inGfw := InMode(ChinaDirect, china, aliases), InMode(GfwProxy, gfw, aliases);
    var inAi, inGlobal := InMode(AiOnly, [Plain(Any, ai)], aliases), InMode(Global, [Plain(Any, global)], aliases);
    InModeDecides(ChinaDirect, china, aliases, c, sniffed);
    InModeDecides(GfwProxy, gfw, aliases, c, sniffed);
    InModeDecides(AiOnly, [Plain(Any, ai)], aliases, c, sniffed);
    InModeDecides(Global, [Plain(Any, global)], aliases, c, sniffed);
    OneDecides(Plain(Any, ai), c, sniffed);
    OneDecides(Plain(Any, global), c, sniffed);
    DecideOrElse(inChina, inGfw, c, sniffed);
    DecideOrElse(inChina + inGfw, inAi, c, sniffed);
    DecideOrElse(inChina + inGfw + inAi, inGlobal, c, sniffed);
  }

  lemma FourAssociate(first: seq<Rule>, a: seq<Rule>, b: seq<Rule>, c: seq<Rule>, d: seq<Rule>)
    ensures first + a + b + c + d == first + (a + b + c + d)
  {
  }

  /** What comes before the modes' own rules. */
  function RouteFront(aliases: bool): seq<Rule> {
    [Plain(IsHidden, Reject)] + InMode(AiOnly, [Plain(IsExcepted, Outbound(DirectSystem))], aliases) + SHARED
  }

  function FrontSends(c: Connection): Option<Action> {
    var f := c.after;
    if Holds(IsHidden, f) then Some(Reject)
    else if f.excepted && Canonical(c.mode) in {AiOnly, DirectMode} then Some(Outbound(DirectSystem))
    else if f.excepted then Some(Outbound(Direct))
    else if c.mode == DirectMode then
      Some(if AdGuard in f.sets && AiSets !in f.sets then Reject else Outbound(DirectSystem))
    else if AiSets in f.sets then Some(Outbound(Proxy))
    else if AdGuard in f.sets then Some(Reject) else None
  }

  lemma FrontDecides(aliases: bool, c: Connection)
    requires Offered(c.mode, aliases)
    ensures Unsniffed(RouteFront(aliases)) && Decide(RouteFront(aliases), c, true) == FrontSends(c)
  {
    FrontInParts(aliases, c);
    SharedDecides(c);
  }

  lemma FrontInParts(aliases: bool, c: Connection)
    requires Offered(c.mode, aliases)
    ensures Unsniffed(RouteFront(aliases))
    ensures Decide(RouteFront(aliases), c, true)
         == if Holds(IsHidden, c.after) then Some(Reject)
            else if Canonical(c.mode) == AiOnly && c.after.excepted then Some(Outbound(DirectSystem))
            else Decide(SHARED, c, true)
  {
    var hidden := [Plain(IsHidden, Reject)];
    var ai := InMode(AiOnly, [Plain(IsExcepted, Outbound(DirectSystem))], aliases);
    InModeDecides(AiOnly, [Plain(IsExcepted, Outbound(DirectSystem))], aliases, c, true);
    OneDecides(Plain(IsHidden, Reject), c, true);
    OneDecides(Plain(IsExcepted, Outbound(DirectSystem)), c, true);
    DecideOrElse(hidden, ai, c, true);
    DecideOrElse(hidden + ai, SHARED, c, true);
  }

  lemma TailInTwo(aliases: bool)
    ensures Tail(aliases)
         == RouteFront(aliases) + OwnRules(IN_CHINA, IN_GFW, Outbound(DirectSystem), Outbound(Proxy), aliases)
  {
    FourAssociate(RouteFront(aliases),
                  InMode(ChinaDirect, IN_CHINA, aliases), InMode(GfwProxy, IN_GFW, aliases),
                  InMode(AiOnly, [Plain(Any, Outbound(DirectSystem))], aliases),
                  InMode(Global, [Plain(Any, Outbound(Proxy))], aliases));
  }

  lemma TailDecides(aliases: bool, c: Connection)
    requires Offered(c.mode, aliases)
    ensures Decide(Tail(aliases), c, true)
         == OrElse(FrontSends(c), OwnAction(IN_CHINA, IN_GFW, Outbound(DirectSystem), Outbound(Proxy), c, true))
  {
    FrontDecides(aliases, c);
    OwnRulesDecide(IN_CHINA, IN_GFW, Outbound(DirectSystem), Outbound(Proxy), aliases, c, true);
    TailInTwo(aliases);
    DecideOrElse(RouteFront(aliases), OwnRules(IN_CHINA, IN_GFW, Outbound(DirectSystem), Outbound(Proxy), aliases), c,
                 true);
  }

  lemma TailSends(c: Connection)
    requires !c.after.private && !Holds(IsDns, c.after)
    ensures OrElse(FrontSends(c), OwnAction(IN_CHINA, IN_GFW, Outbound(DirectSystem), Outbound(Proxy), c, true))
         == Some(Sends(Canonical(c.mode), c.after))
  {
    ChinaDecides(c);
    GfwDecides(c);
  }

  /** Where every offered mode, under any of its names, sends a connection. */
  lemma ModeSends(aliases: bool, c: Connection)
    requires Offered(c.mode, aliases)
    ensures Decision(RouteRules(aliases), c, Outbound(Proxy)) == Sends(Canonical(c.mode), c.after)
  {
    MixedDecides(aliases, c);
    if !c.after.private && !Holds(IsDns, c.after) {
      TailDecides(aliases, c);
      TailSends(c);
    }
  }

  /** Every mode a client offers decides every connection by its own rules, so the list's last resort is never used. */
  lemma EveryModeDecides(aliases: bool, c: Connection)
    requires Offered(c.mode, aliases)
    ensures Decide(RouteRules(aliases), c, false).Some?
  {
    MixedDecides(aliases, c);
    if !c.after.private && !Holds(IsDns, c.after) {
      TailDecides(aliases, c);
      TailSends(c);
    }
  }

  lemma ChinaAsks(c: Connection)
    ensures var f := c.before;
      Decide(CHINA_DNS, c, false)
        == Some(Resolve(if GfwList !in f.sets && ChinaDomains in f.sets then Aliyun else Google))
  {
    assert CHINA_DNS == [CHINA_DNS[0]] + ([CHINA_DNS[1]] + ([CHINA_DNS[2]] + []));
    DecideFront(CHINA_DNS[2], [], c, false);
    DecideFront(CHINA_DNS[1], [CHINA_DNS[2]] + [], c, false);
    DecideFront(CHINA_DNS[0], [CHINA_DNS[1]] + ([CHINA_DNS[2]] + []), c, false);
  }

  lemma GfwAsks(c: Connection)
    ensures Decide(GFW_DNS, c, false) == Some(Resolve(if GfwList in c.before.sets then Google else Aliyun))
  {
    assert GFW_DNS == [GFW_DNS[0]] + ([GFW_DNS[1]] + []);
    DecideFront(GFW_DNS[1], [], c, false);
    DecideFront(GFW_DNS[0], [GFW_DNS[1]] + [], c, false);
  }

  lemma DomainsAsk(domains: bool, aliases: bool, c: Connection)
    requires Offered(c.mode, aliases)
    ensures var own := InMode(AiOnly, [Plain(IsExceptedDomain, Resolve(System))], aliases);
      var rules := if domains then own + [Plain(IsExceptedDomain, Resolve(Aliyun))] else [];
      && Unsniffed(rules)
      && Decide(rules, c, false)
           == if domains && c.before.exceptedDomain
              then Some(Resolve(if Canonical(c.mode) == AiOnly then System else Aliyun)) else None
  {
    var own := InMode(AiOnly, [Plain(IsExceptedDomain, Resolve(System))], aliases);
    InModeDecides(AiOnly, [Plain(IsExceptedDomain, Resolve(System))], aliases, c, false);
    OneDecides(Plain(IsExceptedDomain, Resolve(System)), c, false);
    OneDecides(Plain(IsExceptedDomain, Resolve(Aliyun)), c, false);
    DecideOrElse(own, [Plain(IsExceptedDomain, Resolve(Aliyun))], c, false);
  }

  function DnsFront(domains: bool, aliases: bool): seq<Rule> {
    [InDirect(Any, Resolve(System))]
    + (if domains then
         InMode(AiOnly, [Plain(IsExceptedDomain, Resolve(System))], aliases)
         + [Plain(IsExceptedDomain, Resolve(Aliyun))]
       else [])
    + [Plain(InSet(AiSets), Resolve(Google))]
  }

  function FrontAsks(domains: bool, c: Connection): Option<Action> {
    if c.mode == DirectMode then Some(Resolve(System))
    else if domains && c.before.exceptedDomain
    then Some(Resolve(if Canonical(c.mode) == AiOnly then System else Aliyun))
    else if AiSets in c.before.sets then Some(Resolve(Google)) else None
  }

  lemma DnsFrontDecides(domains: bool, aliases: bool, c: Connection)
    requires Offered(c.mode, aliases)
    ensures Unsniffed(DnsFront(domains, aliases))
    ensures Decide(DnsFront(domains, aliases), c, false) == FrontAsks(domains, c)
  {
    var first, shared := [InDirect(Any, Resolve(System))], [Plain(InSet(AiSets), Resolve(Google))];
    var domain := if domains then InMode(AiOnly, [Plain(IsExceptedDomain, Resolve(System))], aliases)
                                  + [Plain(IsExceptedDomain, Resolve(Aliyun))] else [];
    DomainsAsk(domains, aliases, c);
    DecideOrElse(first, domain, c, false);
    DecideOrElse(first + domain, shared, c, false);
    OneDecides(first[0], c, false);
    OneDecides(shared[0], c, false);
  }

  lemma DnsInTwo(domains: bool, aliases: bool)
    ensures DnsRules(domains, aliases)
         == DnsFront(domains, aliases) + OwnRules(CHINA_DNS, GFW_DNS, Resolve(System), Resolve(Google), aliases)
  {
    FourAssociate(DnsFront(domains, aliases),
                  InMode(ChinaDirect, CHINA_DNS, aliases), InMode(GfwProxy, GFW_DNS, aliases),
                  InMode(AiOnly, [Plain(Any, Resolve(System))], aliases),
                  InMode(Global, [Plain(Any, Resolve(Google))], aliases));
  }

  lemma DnsDecides(domains: bool, aliases: bool, c: Connection)
    requires Offered(c.mode, aliases)
    ensures Decide(DnsRules(domains, aliases), c, false)
         == OrElse(FrontAsks(domains, c), OwnAction(CHINA_DNS, GFW_DNS, Resolve(System), Resolve(Google), c, false))
  {
    DnsFrontDecides(domains, aliases, c);
    OwnRulesDecide(CHINA_DNS, GFW_DNS, Resolve(System), Resolve(Google), aliases, c, false);
    DnsInTwo(domains, aliases);
    DecideOrElse(DnsFront(domains, aliases),
                 OwnRules(CHINA_DNS, GFW_DNS, Resolve(System), Resolve(Google), aliases), c, false);
  }

  lemma PartsAsk(domains: bool, c: Connection)
    ensures OrElse(FrontAsks(domains, c), OwnAction(CHINA_DNS, GFW_DNS, Resolve(System), Resolve(Google), c, false))
         == Some(Resolve(Asks(Canonical(c.mode), domains, c.before)))
  {
    ChinaAsks(c);
    GfwAsks(c);
  }

  /** Whom every offered mode asks for a name. */
  lemma ModeAsks(domains: bool, aliases: bool, c: Connection)
    requires Offered(c.mode, aliases)
    ensures Decision(DnsRules(domains, aliases), c, Resolve(Google))
         == Resolve(Asks(Canonical(c.mode), domains, c.before))
  {
    DnsDecides(domains, aliases, c);
    PartsAsk(domains, c);
  }

  // --- older names ----------------------------------------------------------------------------------

  /** The rules that a mode sees, without its name. */
  function Seen(rules: seq<Rule>, mode: Mode): seq<Rule> {
    if rules == [] then []
    else
      (if rules[0].mode == None || rules[0].mode == Some(mode) then [rules[0].(mode := None)] else [])
      + Seen(rules[1..], mode)
  }

  lemma {:induction false} SeenDecides(rules: seq<Rule>, c: Connection, sniffed: bool)
    ensures Decide(Seen(rules, c.mode), c, sniffed) == Decide(rules, c, sniffed)
  {
    if rules != [] {
      SeenDecides(rules[1..], c, sniffed);
      SeenDecides(rules[1..], c, true);
      var r := rules[0];
      if r.mode == None || r.mode == Some(c.mode) {
        assert Seen(rules, c.mode) == [r.(mode := None)] + Seen(rules[1..], c.mode);
        assert Seen(rules, c.mode)[1..] == Seen(rules[1..], c.mode);
      } else {
        assert Seen(rules, c.mode) == Seen(rules[1..], c.mode);
      }
    }
  }

  lemma {:induction false} NamelessDecides(rules: seq<Rule>, c: Connection, d: Connection, sniffed: bool)
    requires (forall r <- rules :: r.mode == None) && c.before == d.before && c.after == d.after
    ensures Decide(rules, c, sniffed) == Decide(rules, d, sniffed)
  {
    if rules != [] {
      assert rules[0] in rules;
      assert forall r <- rules[1..] :: r in rules;
      NamelessDecides(rules[1..], c, d, sniffed);
      NamelessDecides(rules[1..], c, d, true);
    }
  }

  lemma {:induction false} SeenNameless(rules: seq<Rule>, mode: Mode)
    ensures forall r <- Seen(rules, mode) :: r.mode == None
  {
    if rules != [] {
      SeenNameless(rules[1..], mode);
    }
  }

  lemma SeqAssociates(a: seq<Rule>, b: seq<Rule>, c: seq<Rule>)
    ensures a + (b + c) == (a + b) + c
  {
  }

  lemma {:induction false} SeenConcat(a: seq<Rule>, b: seq<Rule>, mode: Mode)
    ensures Seen(a + b, mode) == Seen(a, mode) + Seen(b, mode)
  {
    if a == [] {
      assert a + b == b;
    } else {
      var head := if a[0].mode == None || a[0].mode == Some(mode) then [a[0].(mode := None)] else [];
      assert (a + b)[1..] == a[1..] + b;
      assert Seen(a + b, mode) == head + Seen(a[1..] + b, mode);
      SeenConcat(a[1..], b, mode);
      SeqAssociates(head, Seen(a[1..], mode), Seen(b, mode));
    }
  }

  lemma {:induction false} ForNamesSeen(r: Rule, names: seq<Mode>, mode: Mode)
    requires forall i, j :: 0 <= i < j < |names| ==> names[i] != names[j]
    ensures Seen(ForNames(r, names), mode) == if mode in names then [r.(mode := None)] else []
  {
    if names != [] {
      ForNamesSeen(r, names[1..], mode);
      assert ForNames(r, names)[1..] == ForNames(r, names[1..]);
      assert mode in names <==> mode == names[0] || mode in names[1..];
    }
  }

  lemma NamesAgree(of: Mode, mode: Mode)
    requires Canonical(of) == of
    ensures mode in Names(of, true) <==> Canonical(mode) in Names(of, true)
    ensures forall i, j :: 0 <= i < j < |Names(of, true)| ==> Names(of, true)[i] != Names(of, true)[j]
  {
  }

  lemma {:induction false} InModeSeen(of: Mode, rules: seq<Rule>, mode: Mode)
    requires Canonical(of) == of
    ensures Seen(InMode(of, rules, true), mode) == Seen(InMode(of, rules, true), Canonical(mode))
  {
    if rules != [] {
      InModeSeen(of, rules[1..], mode);
      NamesAgree(of, mode);
      ForNamesSeen(rules[0], Names(of, true), mode);
      ForNamesSeen(rules[0], Names(of, true), Canonical(mode));
      SeenConcat(ForNames(rules[0], Names(of, true)), InMode(of, rules[1..], true), mode);
      SeenConcat(ForNames(rules[0], Names(of, true)), InMode(of, rules[1..], true), Canonical(mode));
    }
  }

  /** Rules that name no mode, or the one mode without another name. */
  predicate Neutral(rules: seq<Rule>) {
    forall r <- rules :: r.mode == None || r.mode == Some(DirectMode)
  }

  lemma {:induction false} NeutralSeen(rules: seq<Rule>, mode: Mode)
    requires Neutral(rules)
    ensures Seen(rules, mode) == Seen(rules, Canonical(mode))
  {
    if rules != [] {
      assert rules[0] in rules;
      assert forall r <- rules[1..] :: r in rules;
      NeutralSeen(rules[1..], mode);
    }
  }

  predicate Agree(rules: seq<Rule>, mode: Mode) {
    Seen(rules, mode) == Seen(rules, Canonical(mode))
  }

  lemma AgreeConcat(a: seq<Rule>, b: seq<Rule>, mode: Mode)
    requires Agree(a, mode) && Agree(b, mode)
    ensures Agree(a + b, mode)
  {
    SeenConcat(a, b, mode);
    SeenConcat(a, b, Canonical(mode));
  }

  lemma TailAgrees(mode: Mode)
    ensures Agree(Tail(true), mode)
  {
    var hidden := [Plain(IsHidden, Reject)];
    var ai := [Plain(IsExcepted, Outbound(DirectSystem))];
    var middle, china, gfw := SHARED, IN_CHINA, IN_GFW;
    NeutralSeen(hidden, mode);
    NeutralSeen(middle, mode);
    InModeSeen(AiOnly, ai, mode);
    InModeSeen(ChinaDirect, china, mode);
    InModeSeen(GfwProxy, gfw, mode);
    InModeSeen(AiOnly, [Plain(Any, Outbound(DirectSystem))], mode);
    InModeSeen(Global, [Plain(Any, Outbound(Proxy))], mode);
    AgreeConcat(hidden, InMode(AiOnly, ai, true), mode);
    AgreeConcat(hidden + InMode(AiOnly, ai, true), middle, mode);
    var one := hidden + InMode(AiOnly, ai, true) + middle;
    AgreeConcat(one, InMode(ChinaDirect, china, true), mode);
    var two := one + InMode(ChinaDirect, china, true);
    AgreeConcat(two, InMode(GfwProxy, gfw, true), mode);
    var three := two + InMode(GfwProxy, gfw, true);
    AgreeConcat(three, InMode(AiOnly, [Plain(Any, Outbound(DirectSystem))], true), mode);
    AgreeConcat(three + InMode(AiOnly, [Plain(Any, Outbound(DirectSystem))], true),
                InMode(Global, [Plain(Any, Outbound(Proxy))], true), mode);
  }

  lemma AgreeDecides(rules: seq<Rule>, c: Connection)
    requires Agree(rules, c.mode)
    ensures Decide(rules, c, false) == Decide(rules, c.(mode := Canonical(c.mode)), false)
  {
    var d := c.(mode := Canonical(c.mode));
    SeenDecides(rules, c, false);
    SeenDecides(rules, d, false);
    SeenNameless(rules, c.mode);
    NamelessDecides(Seen(rules, c.mode), c, d, false);
  }

  /** An older name of a mode decides exactly as the mode. */
  lemma AliasDecidesAlike(c: Connection)
    ensures Decision(RouteRules(true), c, Outbound(Proxy))
        == Decision(RouteRules(true), c.(mode := Canonical(c.mode)), Outbound(Proxy))
  {
    TailAgrees(c.mode);
    NeutralSeen([SNIFF, PRIVATE, HIJACK], c.mode);
    AgreeConcat([SNIFF, PRIVATE, HIJACK], Tail(true), c.mode);
    AgreeDecides(RouteRules(true), c);
  }

  lemma DnsTailAgrees(domains: bool, mode: Mode)
    ensures Agree(DnsRules(domains, true), mode)
  {
    var first := [InDirect(Any, Resolve(System))];
    var own := InMode(AiOnly, [Plain(IsExceptedDomain, Resolve(System))], true);
    var domain := if domains then own + [Plain(IsExceptedDomain, Resolve(Aliyun))] else [];
    var ai := [Plain(InSet(AiSets), Resolve(Google))];
    var china, gfw := CHINA_DNS, GFW_DNS;
    NeutralSeen(first, mode);
    NeutralSeen(ai, mode);
    NeutralSeen([Plain(IsExceptedDomain, Resolve(Aliyun))], mode);
    InModeSeen(AiOnly, [Plain(IsExceptedDomain, Resolve(System))], mode);
    InModeSeen(ChinaDirect, china, mode);
    InModeSeen(GfwProxy, gfw, mode);
    InModeSeen(AiOnly, [Plain(Any, Resolve(System))], mode);
    InModeSeen(Global, [Plain(Any, Resolve(Google))], mode);
    AgreeConcat(own, [Plain(IsExceptedDomain, Resolve(Aliyun))], mode);
    AgreeConcat(first, domain, mode);
    AgreeConcat(first + domain, ai, mode);
    var one := first + domain + ai;
    AgreeConcat(one, InMode(ChinaDirect, china, true), mode);
    var two := one + InMode(ChinaDirect, china, true);
    AgreeConcat(two, InMode(GfwProxy, gfw, true), mode);
    var three := two + InMode(GfwProxy, gfw, true);
    AgreeConcat(three, InMode(AiOnly, [Plain(Any, Resolve(System))], true), mode);
    AgreeConcat(three + InMode(AiOnly, [Plain(Any, Resolve(System))], true),
                InMode(Global, [Plain(Any, Resolve(Google))], true), mode);
  }

  lemma AliasResolvesAlike(domains: bool, c: Connection)
    ensures Decision(DnsRules(domains, true), c, Resolve(Google))
         == Decision(DnsRules(domains, true), c.(mode := Canonical(c.mode)), Resolve(Google))
  {
    DnsTailAgrees(domains, c.mode);
    AgreeDecides(DnsRules(domains, true), c);
  }

  // --- rewriting the list for TUN ------------------------------------------------------------------------

  const REJECT_IPV6 := Rule(None, IsIpv6, Reject)
  const NTP := Rule(None, IsNtp, Outbound(Direct))
  const REJECT_UDP := Rule(None, IsUdp, Reject)

  function Renamed(a: Action): Action {
    if a == Outbound(DirectSystem) then Outbound(Direct) else if a == Resolve(System) then Resolve(Aliyun) else a
  }

  function RenamedRules(rules: seq<Rule>): (r: seq<Rule>)
    ensures |r| == |rules|
    ensures forall i :: 0 <= i < |rules| ==> r[i] == rules[i].(action := Renamed(rules[i].action))
  {
    if rules == [] then [] else [rules[0].(action := Renamed(rules[0].action))] + RenamedRules(rules[1..])
  }

  lemma {:induction false} RenamedDecides(rules: seq<Rule>, c: Connection, sniffed: bool)
    ensures Decide(RenamedRules(rules), c, sniffed)
         == var d := Decide(rules, c, sniffed); if d.Some? then Some(Renamed(d.value)) else None
  {
    if rules != [] {
      assert RenamedRules(rules)[1..] == RenamedRules(rules[1..]);
      RenamedDecides(rules[1..], c, sniffed);
      RenamedDecides(rules[1..], c, true);
    }
  }

  /** The first rule with an action, if there is one. */
  method FirstAction(rules: seq<Rule>, action: Action) returns (at: nat)
    ensures at <= |rules| && (at < |rules| ==> rules[at].action == action)
    ensures forall i :: 0 <= i < at ==> rules[i].action != action
  {
    at := 0;
    while at < |rules| && rules[at].action != action
      invariant at <= |rules| && forall i :: 0 <= i < at ==> rules[i].action != action
    {
      at := at + 1;
    }
  }

  method FirstPrivate(rules: seq<Rule>) returns (at: nat)
    ensures at <= |rules| && (at < |rules| ==> rules[at].condition == IsPrivate)
    ensures forall i :: 0 <= i < at ==> rules[i].condition != IsPrivate
  {
    at := 0;
    while at < |rules| && rules[at].condition != IsPrivate
      invariant at <= |rules| && forall i :: 0 <= i < at ==> rules[i].condition != IsPrivate
    {
      at := at + 1;
    }
  }

  /** The three rules that every mixed list starts with. */
  predicate StartsMixed(rules: seq<Rule>) {
    |rules| >= 3 && rules[0] == SNIFF && rules[1] == PRIVATE && rules[2] == HIJACK
  }

  method RenameAll(mixed: seq<Rule>) returns (rules: seq<Rule>)
    ensures rules == RenamedRules(mixed)
  {
    rules := mixed;
    for i := 0 to |rules|
      invariant |rules| == |mixed|
      invariant forall j :: 0 <= j < |mixed| ==>
                  rules[j] == if j < i then mixed[j].(action := Renamed(mixed[j].action)) else mixed[j]
    {
      rules := rules[i := rules[i].(action := Renamed(rules[i].action))];
    }
  }

  /** Takes the interception out and puts it right after the sniffing. */
  method HijackAfterSniff(given: seq<Rule>) returns (rules: Option<seq<Rule>>)
    ensures StartsMixed(given) ==> rules == Some([SNIFF, HIJACK, PRIVATE] + given[3..])
  {
    var hijack := FirstAction(given, HijackDns);
    if hijack == |given| {
      return None;
    }
    var rest := given[..hijack] + given[hijack + 1..];
    assert StartsMixed(given) ==> hijack == 2 && rest[0] == SNIFF && rest[1] == PRIVATE && rest[2..] == given[3..];
    var sniff := FirstAction(rest, Sniff);
    if sniff == |rest| {
      return None;
    }
    assert StartsMixed(given) ==> sniff == 0;
    rules := Some(rest[..sniff + 1] + [given[hijack]] + rest[sniff + 1..]);
    if StartsMixed(given) {
      assert rest[..1] == [SNIFF] && rest[1..] == [PRIVATE] + given[3..];
      assert [SNIFF] + [HIJACK] + ([PRIVATE] + given[3..]) == [SNIFF, HIJACK, PRIVATE] + given[3..];
    }
  }

  method RejectAfterPrivate(given: seq<Rule>) returns (rules: Option<seq<Rule>>)
    ensures |given| >= 3 && given[..3] == [SNIFF, HIJACK, PRIVATE] ==>
      rules == Some([SNIFF, HIJACK, PRIVATE, REJECT_IPV6, NTP, REJECT_UDP] + given[3..])
  {
    var private := FirstPrivate(given);
    if private == |given| {
      assert |given| >= 3 ==> given[..3][2] == given[2];
      return None;
    }
    assert |given| >= 3 && given[..3] == [SNIFF, HIJACK, PRIVATE] ==> private == 2 by {
      assert |given| >= 3 ==> given[..3][0] == given[0] && given[..3][1] == given[1] && given[..3][2] == given[2];
    }
    rules := Some(given[..private + 1] + [REJECT_IPV6, NTP, REJECT_UDP] + given[private + 1..]);
    if |given| >= 3 && given[..3] == [SNIFF, HIJACK, PRIVATE] {
      assert [SNIFF, HIJACK, PRIVATE] + [REJECT_IPV6, NTP, REJECT_UDP] + given[3..]
          == [SNIFF, HIJACK, PRIVATE, REJECT_IPV6, NTP, REJECT_UDP] + given[3..];
    }
  }

  /** The Linux TUN list, edited in place from the mixed one; nothing when the list lacks a rule it looks for. */
  method LinuxTun(mixed: seq<Rule>) returns (tun: Option<seq<Rule>>)
    ensures StartsMixed(mixed) ==>
      tun == Some([SNIFF, HIJACK, PRIVATE, REJECT_IPV6, NTP, REJECT_UDP] + RenamedRules(mixed[3..]))
  {
    var rules := RenameAll(mixed);
    assert StartsMixed(mixed) ==> StartsMixed(rules) && rules[3..] == RenamedRules(mixed[3..]);
    var hijacked := HijackAfterSniff(rules);
    if hijacked.None? {
      return None;
    }
    assert StartsMixed(mixed) ==> hijacked.value[..3] == [SNIFF, HIJACK, PRIVATE] && hijacked.value[3..] == rules[3..];
    tun := RejectAfterPrivate(hijacked.value);
  }

  /** The mobile list only intercepts DNS before the private shortcut. */
  method Mobile(mixed: seq<Rule>) returns (mobile: Option<seq<Rule>>)
    ensures StartsMixed(mixed) ==> mobile == Some([SNIFF, HIJACK, PRIVATE] + mixed[3..])
  {
    var hijack := FirstAction(mixed, HijackDns);
    if hijack == |mixed| {
      return None;
    }
    var rest := mixed[..hijack] + mixed[hijack + 1..];
    assert StartsMixed(mixed) ==> hijack == 2 && rest[0] == SNIFF && rest[1] == PRIVATE && rest[2..] == mixed[3..];
    if rest == [] {
      return Some([mixed[hijack]]);
    }
    mobile := Some(rest[..1] + [mixed[hijack]] + rest[1..]);
    if StartsMixed(mixed) {
      assert rest[..1] == [SNIFF] && rest[1..] == [PRIVATE] + mixed[3..];
      assert [SNIFF] + [HIJACK] + ([PRIVATE] + mixed[3..]) == [SNIFF, HIJACK, PRIVATE] + mixed[3..];
    }
  }

  // --- what the TUN lists mean ---------------------------------------------------------------------------

  function TunRoute(aliases: bool): seq<Rule> {
    [SNIFF, HIJACK, PRIVATE, REJECT_IPV6, NTP, REJECT_UDP] + RenamedRules(Tail(aliases))
  }

  function MobileRoute(): seq<Rule> {
    [SNIFF, HIJACK, PRIVATE] + Tail(false)
  }

  lemma BuiltLists(aliases: bool)
    ensures StartsMixed(RouteRules(aliases)) && RouteRules(aliases)[3..] == Tail(aliases)
  {
  }

  lemma DecideFront(first: Rule, rest: seq<Rule>, c: Connection, sniffed: bool)
    requires first.action != Sniff
    ensures Decide([first] + rest, c, sniffed)
         == if Applies(first, c, sniffed) then Some(first.action) else Decide(rest, c, sniffed)
  {
    assert ([first] + rest)[1..] == rest;
  }

  lemma SniffFirst(rest: seq<Rule>, c: Connection)
    ensures Decide([SNIFF] + rest, c, false) == Decide(rest, c, true)
  {
    assert ([SNIFF] + rest)[1..] == rest;
  }

  lemma MixedFront(tail: seq<Rule>, c: Connection)
    ensures Decide([SNIFF, PRIVATE, HIJACK] + tail, c, false)
         == if c.after.private then Some(Outbound(Direct)) else if Holds(IsDns, c.after) then Some(HijackDns)
            else Decide(tail, c, true)
  {
    assert [SNIFF, PRIVATE, HIJACK] + tail == [SNIFF] + ([PRIVATE] + ([HIJACK] + tail));
    SniffFirst([PRIVATE] + ([HIJACK] + tail), c);
    DecideFront(PRIVATE, [HIJACK] + tail, c, true);
    DecideFront(HIJACK, tail, c, true);
  }

  lemma TunRejects(tail: seq<Rule>, c: Connection)
    ensures var f := c.after;
      Decide([REJECT_IPV6] + ([NTP] + ([REJECT_UDP] + tail)), c, true)
        == if f.ipv6 then Some(Reject)
           else if f.network == Udp then Some(if f.port == 123 then Outbound(Direct) else Reject)
           else Decide(tail, c, true)
  {
    DecideFront(REJECT_IPV6, [NTP] + ([REJECT_UDP] + tail), c, true);
    DecideFront(NTP, [REJECT_UDP] + tail, c, true);
    DecideFront(REJECT_UDP, tail, c, true);
  }

  lemma TunFront(rest: seq<Rule>, c: Connection)
    ensures Decide([SNIFF] + ([HIJACK] + ([PRIVATE] + rest)), c, false)
         == if Holds(IsDns, c.after) then Some(HijackDns) else if c.after.private then Some(Outbound(Direct))
             else Decide(rest, c, true)
  {
    SniffFirst([HIJACK] + ([PRIVATE] + rest), c);
    DecideFront(HIJACK, [PRIVATE] + rest, c, true);
    DecideFront(PRIVATE, rest, c, true);
  }

  /** A decision in a configuration that has neither the direct-system outbound nor the system's resolver. */
  function WithoutSystem(a: Action): Action {
    match a
    case Outbound(DirectSystem) => Outbound(Direct)
    case Resolve(System) => Resolve(Aliyun)
    case _ => a
  }

  lemma RenamedIs(a: Action)
    ensures Renamed(a) == WithoutSystem(a)
  {
  }

  function TunMeaning(f: Facts, mixed: Action): Action {
    if f.protocol == Dns || f.port == 53 then HijackDns
    else if f.private then Outbound(Direct)
    else if f.ipv6 then Reject
    else if f.network == Udp then (if f.port == 123 then Outbound(Direct) else Reject)
    else WithoutSystem(mixed)
  }

  lemma TunInOrder(tail: seq<Rule>, c: Connection)
    ensures var f := c.after;
      Decide([SNIFF, HIJACK, PRIVATE, REJECT_IPV6, NTP, REJECT_UDP] + tail, c, false)
        == if Holds(IsDns, f) then Some(HijackDns)
           else if f.private then Some(Outbound(Direct))
           else if f.ipv6 then Some(Reject)
           else if f.network == Udp then Some(if f.port == 123 then Outbound(Direct) else Reject)
           else Decide(tail, c, true)
  {
    var rest := [REJECT_IPV6] + ([NTP] + ([REJECT_UDP] + tail));
    assert [SNIFF, HIJACK, PRIVATE, REJECT_IPV6, NTP, REJECT_UDP] + tail
        == [SNIFF] + ([HIJACK] + ([PRIVATE] + rest));
    TunFront(rest, c);
    TunRejects(tail, c);
  }

  lemma TunTail(tail: seq<Rule>, c: Connection)
    ensures Decision([SNIFF, HIJACK, PRIVATE, REJECT_IPV6, NTP, REJECT_UDP] + RenamedRules(tail), c, Outbound(Proxy))
         == TunMeaning(c.after, Decision([SNIFF, PRIVATE, HIJACK] + tail, c, Outbound(Proxy)))
  {
    TunInOrder(RenamedRules(tail), c);
    RenamedDecides(tail, c, true);
    MixedFront(tail, c);
    RenamedIs(Decision([SNIFF, PRIVATE, HIJACK] + tail, c, Outbound(Proxy)));
  }

  lemma MixedDecides(aliases: bool, c: Connection)
    ensures Decide(RouteRules(aliases), c, false)
         == if c.after.private then Some(Outbound(Direct)) else if Holds(IsDns, c.after) then Some(HijackDns)
            else Decide(Tail(aliases), c, true)
  {
    MixedFront(Tail(aliases), c);
  }

  /** The TUN rewrite keeps meaning: DNS is intercepted even at private addresses, private addresses stay direct, public
      IPv6 and UDP other than time are rejected in every mode, and every other connection - IPv4 and TCP - gets the
      mixed list's decision, with direct-system read as direct. */
  lemma TunDecides(aliases: bool, c: Connection)
    ensures Decision(TunRoute(aliases), c, Outbound(Proxy))
         == TunMeaning(c.after, Decision(RouteRules(aliases), c, Outbound(Proxy)))
  {
    TunTail(Tail(aliases), c);
  }

  /** Every IPv4 TCP connection that is not DNS, private or not, in particular. */
  lemma TunKeepsTcp(aliases: bool, c: Connection)
    requires !c.after.ipv6 && c.after.network == Tcp && !Holds(IsDns, c.after)
    ensures Decision(TunRoute(aliases), c, Outbound(Proxy))
        == WithoutSystem(Decision(RouteRules(aliases), c, Outbound(Proxy)))
  {
    TunDecides(aliases, c);
    MixedDecides(aliases, c);
  }

  lemma MobileFront(tail: seq<Rule>, c: Connection)
    ensures Decide([SNIFF, HIJACK, PRIVATE] + tail, c, false) == Decide([SNIFF, PRIVATE, HIJACK] + tail, c, false)
       <==> !(c.after.private && Holds(IsDns, c.after))
  {
    assert [SNIFF, HIJACK, PRIVATE] + tail == [SNIFF] + ([] + [HIJACK] + [PRIVATE] + tail);
    assert [SNIFF, PRIVATE, HIJACK] + tail == [SNIFF] + ([] + [PRIVATE] + [HIJACK] + tail);
    SniffFirst([] + [HIJACK] + [PRIVATE] + tail, c);
    SniffFirst([] + [PRIVATE] + [HIJACK] + tail, c);
    if !(c.after.private && Holds(IsDns, c.after)) {
      MovePast([], [PRIVATE], HIJACK, tail, c, true);
    } else {
      MixedFront(tail, c);
      assert [SNIFF, HIJACK, PRIVATE] + tail == [SNIFF] + ([HIJACK] + ([PRIVATE] + tail));
      SniffFirst([HIJACK] + ([PRIVATE] + tail), c);
      DecideFront(HIJACK, [PRIVATE] + tail, c, true);
    }
  }

  /** Moving the interception forward changes a decision exactly for DNS at a private address. */
  lemma MobileDecides(c: Connection)
    ensures Decide(MobileRoute(), c, false) == Decide(RouteRules(false), c, false)
       <==> !(c.after.private && Holds(IsDns, c.after))
  {
    MobileFront(Tail(false), c);
  }

  /** TUN modes keep their older names as well. */
  lemma AliasTunsAlike(c: Connection)
    ensures Decision(TunRoute(true), c, Outbound(Proxy))
        == Decision(TunRoute(true), c.(mode := Canonical(c.mode)), Outbound(Proxy))
  {
    TunDecides(true, c);
    TunDecides(true, c.(mode := Canonical(c.mode)));
    AliasDecidesAlike(c);
  }

  /** Under TUN every query goes to the mixed list's server, with the system's resolver read as Aliyun. */
  lemma TunResolves(domains: bool, aliases: bool, c: Connection)
    ensures Decision(RenamedRules(DnsRules(domains, aliases)), c, Resolve(Google))
         == WithoutSystem(Decision(DnsRules(domains, aliases), c, Resolve(Google)))
  {
    RenamedDecides(DnsRules(domains, aliases), c, false);
    RenamedIs(Decision(DnsRules(domains, aliases), c, Resolve(Google)));
  }

  // --- the configurations that are built --------------------------------------------------------------------

  /** The TUN configuration's lists: never missing a rule they look for, and with the meaning of the mixed lists. */
  method BuildLinuxTun(domains: bool, aliases: bool) returns (route: Option<seq<Rule>>, dns: seq<Rule>)
    ensures route == Some(TunRoute(aliases))
    ensures forall c :: Decision(route.value, c, Outbound(Proxy))
                     == TunMeaning(c.after, Decision(RouteRules(aliases), c, Outbound(Proxy)))
    ensures forall c :: Decision(dns, c, Resolve(Google))
                     == WithoutSystem(Decision(DnsRules(domains, aliases), c, Resolve(Google)))
  {
    BuiltLists(aliases);
    route := LinuxTun(RouteRules(aliases));
    dns := RenameAll(DnsRules(domains, aliases));
    forall c
      ensures Decision(TunRoute(aliases), c, Outbound(Proxy))
           == TunMeaning(c.after, Decision(RouteRules(aliases), c, Outbound(Proxy)))
    {
      TunDecides(aliases, c);
    }
    forall c
      ensures Decision(dns, c, Resolve(Google))
           == WithoutSystem(Decision(DnsRules(domains, aliases), c, Resolve(Google)))
    {
      TunResolves(domains, aliases, c);
    }
  }

  /** The mobile configuration's list likewise, with one difference in meaning. */
  method BuildMobile() returns (route: Option<seq<Rule>>)
    ensures route == Some(MobileRoute())
    ensures forall c :: Decide(route.value, c, false) == Decide(RouteRules(false), c, false)
                   <==> !(c.after.private && Holds(IsDns, c.after))
  {
    BuiltLists(false);
    route := Mobile(RouteRules(false));
    forall c
      ensures Decide(MobileRoute(), c, false) == Decide(RouteRules(false), c, false)
         <==> !(c.after.private && Holds(IsDns, c.after))
    {
      MobileDecides(c);
    }
  }
}
