/** A profile and the flows it decides: what each flow gets, said without either engine's rules. */
module Policy {
  import opened Text
  import opened Routing
  import opened Meaning
  import opened Algebra

  datatype Strategy = AsIs | IPIfNonMatch | IPOnDemand

  datatype Profile = Profile(
    mode: string,
    tiers: seq<Tier>,
    strategy: Strategy,
    localNetworks: bool,
    disableIPv6: bool,
    disableUDP: bool)
  {
    predicate DirectAll() {
      mode == "direct-all"
    }

    predicate HasDirect() {
      exists t :: t in tiers && t.direct != []
    }

    predicate HasBlock() {
      exists t :: t in tiers && t.block != []
    }
  }

  // ---------------------------------------------------------------- flows

  datatype Addr = Addr(family: Family, value: nat)

  /** The inbound a flow arrives as: the app's, the per-app VPN flows', the core's exit echo. */
  datatype Inbound = AppTraffic | ForceFlow | ExitEcho

  /** A flow as the rules see it in one pass. No name is the empty string; `ips` holds the flow's
      own address, or what a name resolved to. */
  datatype View = View(inbound: Inbound, name: string, ips: set<Addr>, app: string, udp: bool, port: nat)

  /** How an engine matches a name, an address or an app: one arbitrary predicate each, shared by
      both engines. */
  datatype Matching = Matching(
    name: (MatchKind, string, string) -> bool,
    address: (MatchKind, string, Addr) -> bool,
    app: (string, string) -> bool)

  /** What the rules rely on: there are local networks, a bare address matches as its host prefix,
      the two default routes cover every address, and the pattern "." matches every name. */
  ghost predicate Sound(lx: Lexicon, m: Matching) {
    && lx.localNetworks != []
    && (forall v, a :: m.address(IPCIDR, NormalizeCIDR(lx, v), a) == m.address(IPCIDR, v, a))
    && (forall a :: m.address(IPCIDR, "0.0.0.0/0", a) || m.address(IPCIDR, "::/0", a))
    && (forall n :: n != "" ==> m.name(DomainRegex, ".", n))
  }

  predicate Matches(m: Matching, v: View, kind: MatchKind, value: string) {
    match kind
    case Process => m.app(value, v.app)
    case IPCIDR => exists a :: a in v.ips && m.address(kind, value, a)
    case GeoIP => exists a :: a in v.ips && m.address(kind, value, a)
    case _ => v.name != "" && m.name(kind, value, v.name)
  }

  function Hit(m: Matching, v: View): Entry -> bool {
    (e: Entry) => Matches(m, v, e.kind, e.value)
  }

  // ---------------------------------------------------------------- what a flow gets

  predicate KillSwitch(p: Profile, m: Matching, v: View) {
    || (p.disableIPv6 && Matches(m, v, IPCIDR, "::/0"))
    || (p.disableUDP && v.udp && v.port != 53)
  }

  predicate InLocalNetworks(lx: Lexicon, m: Matching, v: View) {
    exists c :: c in lx.localNetworks && Matches(m, v, IPCIDR, c)
  }

  /** Local networks apply to a flow addressed by IP only. */
  predicate GoesLocal(lx: Lexicon, p: Profile, m: Matching, v: View) {
    p.localNetworks && v.name == "" && InLocalNetworks(lx, m, v)
  }

  function ModeTarget(p: Profile): Target {
    if p.DirectAll() then Direct else Proxy
  }

  /** The first tier with a verdict decides. */
  ghost function TiersVerdict(lx: Lexicon, tiers: seq<Tier>, hit: Entry -> bool): Option<Target> {
    if tiers == [] then None
    else
      Or(TiersVerdict(lx, tiers[..|tiers| - 1], hit), Verdict(lx, EntrySet(lx, tiers[|tiers| - 1]), hit))
  }

  ghost predicate AnyBlockMatches(lx: Lexicon, tiers: seq<Tier>, hit: Entry -> bool) {
    exists t, e :: t in tiers && e in Listed(lx, t) && e.target == Block && hit(e)
  }

  /** What an app flow gets, given what the tiers say of it. */
  function AppDecision(lx: Lexicon, p: Profile, m: Matching, v: View, verdict: Option<Target>): Target {
    if KillSwitch(p, m, v) then Block
    else if verdict.Some? then verdict.value
    else if GoesLocal(lx, p, m, v) then Direct
    else ModeTarget(p)
  }

  ghost function AppPolicy(lx: Lexicon, p: Profile, m: Matching, v: View): Target {
    AppDecision(lx, p, m, v, TiersVerdict(lx, p.tiers, Hit(m, v)))
  }

  /** A per-app VPN flow fails closed: every block reaches it and no exception does. */
  function ForceDecision(lx: Lexicon, p: Profile, m: Matching, v: View, blocked: bool): Target {
    if KillSwitch(p, m, v) || blocked then Block
    else if GoesLocal(lx, p, m, v) then Direct
    else Proxy
  }

  ghost function ForcePolicy(lx: Lexicon, p: Profile, m: Matching, v: View): Target {
    ForceDecision(lx, p, m, v, AnyBlockMatches(lx, p.tiers, Hit(m, v)))
  }

  // ---------------------------------------------------------------- per-app rules

  function Fold(lx: Lexicon, s: string): string {
    Lower(lx, TrimSpace(s))
  }

  predicate NamesApp(lx: Lexicon, matcher: string, app: string) {
    var c := Classify(lx, matcher);
    c.Some? && c.value.0 == Process && Fold(lx, c.value.1) == app
  }

  function ListOf(t: Tier, target: Target): seq<string> {
    match target
    case Block => t.block
    case Direct => t.direct
    case Proxy => t.proxy
  }

  ghost predicate AppListed(lx: Lexicon, tiers: seq<Tier>, target: Target, app: string) {
    exists t :: t in tiers && AppIn(lx, ListOf(t, target), app)
  }

  /** The dialer reads one flat map: block beats direct beats proxy, whichever tiers hold them. */
  ghost function AppRule(lx: Lexicon, tiers: seq<Tier>, app: string): Option<Target> {
    if AppListed(lx, tiers, Block, app) then Some(Block)
    else if AppListed(lx, tiers, Direct, app) then Some(Direct)
    else if AppListed(lx, tiers, Proxy, app) then Some(Proxy)
    else None
  }

  /** An app is blocked wherever one tier blocks it, and proxied only where none blocks it or sends it
      direct. */
  lemma BlockBeatsDirectBeatsProxy(lx: Lexicon, tiers: seq<Tier>, app: string)
    ensures AppRule(lx, tiers, app) == Some(Block) <==> AppListed(lx, tiers, Block, app)
    ensures AppRule(lx, tiers, app) == Some(Proxy) <==>
      && AppListed(lx, tiers, Proxy, app)
      && !AppListed(lx, tiers, Direct, app) && !AppListed(lx, tiers, Block, app)
    ensures AppRule(lx, tiers, app) == None <==> forall target :: !AppListed(lx, tiers, target, app)
  {
  }

  ghost predicate HasProcessProxy(lx: Lexicon, tiers: seq<Tier>) {
    exists app :: AppRule(lx, tiers, app) == Some(Proxy)
  }

  ghost predicate AppIn(lx: Lexicon, matchers: seq<string>, app: string) {
    exists x :: x in matchers && NamesApp(lx, x, app)
  }

  lemma AppInStep(lx: Lexicon, matchers: seq<string>, i: nat, app: string)
    requires i < |matchers|
    ensures AppIn(lx, matchers[..i + 1], app) <==> AppIn(lx, matchers[..i], app) || NamesApp(lx, matchers[i], app)
  {
    assert matchers[..i + 1] == matchers[..i] + [matchers[i]];
  }

  method AddApps(lx: Lexicon, rules: map<string, Target>, matchers: seq<string>, target: Target)
    returns (out: map<string, Target>)
    ensures forall a :: a in out <==> a in rules || AppIn(lx, matchers, a)
    ensures forall a :: a in out ==> out[a] == if AppIn(lx, matchers, a) then target else rules[a]
  {
    out := rules;
    for i := 0 to |matchers|
      invariant forall a :: a in out <==> a in rules || AppIn(lx, matchers[..i], a)
      invariant forall a :: a in out ==> out[a] == if AppIn(lx, matchers[..i], a) then target else rules[a]
    {
      forall a
        ensures AppIn(lx, matchers[..i + 1], a) <==> AppIn(lx, matchers[..i], a) || NamesApp(lx, matchers[i], a)
      {
        AppInStep(lx, matchers, i, a);
      }
      var c := Classify(lx, matchers[i]);
      if c.Some? && c.value.0 == Process {
        out := out[Fold(lx, c.value.1) := target];
      }
    }
    assert matchers[..|matchers|] == matchers;
  }

  method AddTierApps(lx: Lexicon, rules: map<string, Target>, tiers: seq<Tier>, target: Target)
    returns (out: map<string, Target>)
    ensures forall a :: a in out <==> a in rules || AppListed(lx, tiers, target, a)
    ensures forall a :: a in out ==> out[a] == if AppListed(lx, tiers, target, a) then target else rules[a]
  {
    out := rules;
    for i := 0 to |tiers|
      invariant forall a :: a in out <==> a in rules || AppListed(lx, tiers[..i], target, a)
      invariant forall a :: a in out ==> out[a] == if AppListed(lx, tiers[..i], target, a) then target else rules[a]
    {
      out := AddApps(lx, out, ListOf(tiers[i], target), target);
      forall a ensures AppListed(lx, tiers[..i + 1], target, a)
          <==> AppListed(lx, tiers[..i], target, a) || AppIn(lx, ListOf(tiers[i], target), a) {
        AppListedStep(lx, tiers, i, target, a);
      }
    }
    assert tiers[..|tiers|] == tiers;
  }

  lemma AppListedStep(lx: Lexicon, tiers: seq<Tier>, i: nat, target: Target, a: string)
    requires i < |tiers|
    ensures AppListed(lx, tiers[..i + 1], target, a)
        <==> AppListed(lx, tiers[..i], target, a) || AppIn(lx, ListOf(tiers[i], target), a)
  {
    assert tiers[..i + 1] == tiers[..i] + [tiers[i]];
    assert tiers[i] in tiers[..i + 1];
  }

  /** `ProcessRules`: later writes win, so the last list written has the highest priority. */
  method ProcessRules(lx: Lexicon, tiers: seq<Tier>) returns (out: map<string, Target>)
    ensures forall a :: (if a in out then Some(out[a]) else None) == AppRule(lx, tiers, a)
  {
    var proxied := AddTierApps(lx, map[], tiers, Proxy);
    var direct := AddTierApps(lx, proxied, tiers, Direct);
    out := AddTierApps(lx, direct, tiers, Block);
  }

  method AnyProcessProxy(lx: Lexicon, tiers: seq<Tier>) returns (found: bool)
    ensures found == HasProcessProxy(lx, tiers)
  {
    var rules := ProcessRules(lx, tiers);
    found := exists app :: app in rules && rules[app] == Proxy;
    if found {
      ghost var app :| app in rules && rules[app] == Proxy;
      assert AppRule(lx, tiers, app) == Some(Proxy);
    }
  }

  // ---------------------------------------------------------------- the tiers' steps together

  lemma {:induction false} AllStepsVerdict(lx: Lexicon, tiers: seq<Tier>, hit: Entry -> bool)
    ensures FirstStep(AllSteps(lx, tiers), hit) == TiersVerdict(lx, tiers, hit)
  {
    if tiers != [] {
      var front, last := tiers[..|tiers| - 1], tiers[|tiers| - 1];
      AllStepsVerdict(lx, front, hit);
      LoweringPreservesMeaning(lx, last, hit);
      FirstStepConcat(AllSteps(lx, front), Steps(lx, last), hit);
    }
  }

  lemma AllPlainBlocks(lx: Lexicon, tiers: seq<Tier>, hit: Entry -> bool)
    ensures FirstStep(PlainBlocks(AllSteps(lx, tiers)), hit)
         == if AnyBlockMatches(lx, tiers, hit) then Some(Block) else None
  {
    var steps := AllSteps(lx, tiers);
    PlainBlocksMembers(steps);
    FirstOfBlocks(PlainBlocks(steps), hit);
    if s :| s in PlainBlocks(steps) && Any(s.entries, hit) {
      var e :| e in s.entries && hit(e);
      AllStepsHoldBlocks(lx, tiers, e);
    }
    if t, e :| t in tiers && e in Listed(lx, t) && e.target == Block && hit(e) {
      AllStepsHoldBlocks(lx, tiers, e);
      var s :| s in steps && IsPlainBlock(s) && e in s.entries;
      assert s in PlainBlocks(steps) && Any(s.entries, hit);
    }
  }

  lemma NoBlockListNoBlock(lx: Lexicon, p: Profile, hit: Entry -> bool)
    requires !p.HasBlock()
    ensures !AnyBlockMatches(lx, p.tiers, hit)
  {
    forall t, e | t in p.tiers && e in Listed(lx, t) ensures e.target != Block {
      assert t.block == [];
      EntryTargets(lx, t.direct, Direct);
      EntryTargets(lx, t.proxy, Proxy);
    }
  }
}
