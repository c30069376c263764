/** What the agreement of the engines buys, over every domain strategy and everything a resolver may
    answer. */
module Guarantees {
  import opened Text
  import opened Routing
  import opened Meaning
  import opened Algebra
  import opened Policy
  import opened Xray
  import opened XrayMeaning
  import opened Agreement
  import M = Mihomo

  // ---------------------------------------------------------------- xray under every strategy

  ghost predicate ListsAddress(lx: Lexicon, tiers: seq<Tier>) {
    exists t, e :: t in tiers && e in Listed(lx, t) && e.ByAddress()
  }

  /** A flow that shows no address is left to a second pass as long as a listed address could match
      it there. */
  ghost predicate AwaitsAddress(lx: Lexicon, p: Profile) {
    p.strategy == IPIfNonMatch && ListsAddress(lx, p.tiers)
  }

  /** That is when the catch-all rule waits. */
  lemma AwaitingIsWaiting(lx: Lexicon, p: Profile)
    ensures AwaitsAddress(lx, p) == WaitsForIPs(lx, p)
  {
    forall t, e ensures e in Listed(lx, t) <==> e in Entries(lx, t) {
      EntriesAreListed(lx, t);
    }
  }

  /** What one pass gives a routed flow, given what the tiers say of it. An app flow no tier takes
      goes direct to a local network and by the mode elsewhere, or waits for its address. */
  function PassDecision(
      lx: Lexicon, p: Profile, m: Matching, v: View, blocked: bool, verdict: Option<Target>, waits: bool)
    : Option<Target>
  {
    if v.inbound == ForceFlow then Some(ForceDecision(lx, p, m, v, blocked))
    else if waits && v.ips == {} && verdict.None? && !KillSwitch(p, m, v) then None
    else Some(AppDecision(lx, p, m, v, verdict))
  }

  ghost function PassPolicy(lx: Lexicon, p: Profile, m: Matching, v: View): Option<Target> {
    PassDecision(
      lx, p, m, v, AnyBlockMatches(lx, p.tiers, Hit(m, v)), TiersVerdict(lx, p.tiers, Hit(m, v)),
      AwaitsAddress(lx, p))
  }

  function Looked(f: Flow, resolved: set<Addr>): View {
    Seen(f, if f.name == "" then Own(f) else resolved)
  }

  /** Which pass decides, and the first outbound, a proxy, when none does. */
  function StrategyDecision(strategy: Strategy, named: bool, asIs: Option<Target>, looked: Option<Target>): Target {
    var taken := match strategy
      case AsIs => asIs
      case IPOnDemand => looked
      case IPIfNonMatch => if asIs.Some? || !named then asIs else looked;
    if taken.Some? then taken.value else Proxy
  }

  ghost function StrategyPolicy(lx: Lexicon, p: Profile, m: Matching, f: Flow, resolved: set<Addr>): Target {
    StrategyDecision(
      p.strategy, f.name != "", PassPolicy(lx, p, m, Seen(f, Own(f))), PassPolicy(lx, p, m, Looked(f, resolved)))
  }

  lemma TagDecision(
      lx: Lexicon, p: Profile, m: Matching, v: View, blocked: bool, tierTag: Option<Tag>, waits: bool)
    requires v.inbound == AppTraffic || v.inbound == ForceFlow
    ensures TargetsOf(RoutedTag(lx, p, m, v, blocked, tierTag, waits))
         == PassDecision(lx, p, m, v, blocked, TargetsOf(tierTag), waits)
  {
  }

  lemma OnePass(lx: Lexicon, p: Profile, m: Matching, f: Flow, ips: set<Addr>)
    requires Sound(lx, m) && Real(f) && Routed(lx, p, f)
    ensures TargetsOf(Route(Rules(lx, p), m, Seen(f, ips))) == PassPolicy(lx, p, m, Seen(f, ips))
  {
    var v := Seen(f, ips);
    AwaitingIsWaiting(lx, p);
    RulesRoute(lx, p, m, v);
    TierTargets(lx, p, m, v);
    TagDecision(
      lx, p, m, v, AnyBlockMatches(lx, p.tiers, Hit(m, v)), TierTag(Plans(lx, p), m, v), WaitsForIPs(lx, p));
  }

  /** xray's router under every strategy, for every set of addresses a name may resolve to. */
  lemma XrayUnderEveryStrategy(lx: Lexicon, p: Profile, m: Matching, f: Flow, resolved: set<Addr>)
    requires Sound(lx, m) && Real(f) && Routed(lx, p, f)
    ensures TagTarget(XrayTag(Rules(lx, p), p.strategy, m, f, resolved)) == StrategyPolicy(lx, p, m, f, resolved)
  {
    var looked := if f.name == "" then Own(f) else resolved;
    OnePass(lx, p, m, f, Own(f));
    OnePass(lx, p, m, f, looked);
    StrategyTarget(
      p.strategy, f.name != "", Route(Rules(lx, p), m, Seen(f, Own(f))), Route(Rules(lx, p), m, Seen(f, looked)));
  }

  lemma StrategyTarget(strategy: Strategy, named: bool, asIs: Option<Tag>, looked: Option<Tag>)
    ensures TagTarget(ByStrategy(ProxyTag, strategy, named, asIs, looked))
         == StrategyDecision(strategy, named, TargetsOf(asIs), TargetsOf(looked))
  {
  }

  // ---------------------------------------------------------------- per-app flows fail closed

  /** Blocked exactly when a kill switch or a block entry of any tier matches; direct exactly when
      unblocked, nameless and addressed in a local network the profile sends direct; proxied
      otherwise. */
  ghost predicate FailsClosed(lx: Lexicon, p: Profile, m: Matching, v: View, outcome: Target) {
    FailClosed(lx, p, m, v, AnyBlockMatches(lx, p.tiers, Hit(m, v)), outcome)
  }

  predicate FailClosed(lx: Lexicon, p: Profile, m: Matching, v: View, matched: bool, outcome: Target) {
    var blocked := KillSwitch(p, m, v) || matched;
    var local := p.localNetworks && v.name == "" && InLocalNetworks(lx, m, v);
    && (outcome == Block <==> blocked)
    && (outcome == Direct <==> !blocked && local)
    && (outcome == Proxy <==> !blocked && !local)
  }

  lemma ForceFlowTag(lx: Lexicon, p: Profile, m: Matching, f: Flow, ips: set<Addr>, dial: Option<Addr>)
    requires Sound(lx, m) && Real(f) && f.inbound == ForceFlow && HasProcessProxy(lx, p.tiers)
    ensures Route(Rules(lx, p), m, Seen(f, ips)).Some?
    ensures FailsClosed(lx, p, m, Seen(f, ips), Dialed(lx, p, m, Route(Rules(lx, p), m, Seen(f, ips)).value, dial))
  {
    var v := Seen(f, ips);
    RulesRoute(lx, p, m, v);
    ForceTagFailsClosed(
      lx, p, m, v, AnyBlockMatches(lx, p.tiers, Hit(m, v)), TierTag(Plans(lx, p), m, v), WaitsForIPs(lx, p), dial);
  }

  lemma ForceTagFailsClosed(
      lx: Lexicon, p: Profile, m: Matching, v: View, blocked: bool, tierTag: Option<Tag>, waits: bool,
      dial: Option<Addr>)
    requires v.inbound == ForceFlow
    ensures RoutedTag(lx, p, m, v, blocked, tierTag, waits).Some?
    ensures FailClosed(
              lx, p, m, v, blocked, Dialed(lx, p, m, RoutedTag(lx, p, m, v, blocked, tierTag, waits).value, dial))
  {
  }

  /** On both engines, and on xray under every strategy and whatever it then dials, a per-app flow
      fails closed. */
  lemma PerAppFlowsFailClosed(
      lx: Lexicon, p: Profile, target: M.Route, m: Matching, f: Flow, resolved: set<Addr>, dial: Option<Addr>)
    requires Sound(lx, m) && Real(f) && target.Named?
    requires f.inbound == ForceFlow && HasProcessProxy(lx, p.tiers)
    ensures ByMihomo(M.Rules(lx, p, target, true), m, f).Some?
    ensures FailsClosed(lx, p, m, Seen(f, Own(f)), ByMihomo(M.Rules(lx, p, target, true), m, f).value)
    ensures FailsClosed(
              lx, p, m, if p.strategy == IPOnDemand then Looked(f, resolved) else Seen(f, Own(f)),
              Dialed(lx, p, m, XrayTag(Rules(lx, p), p.strategy, m, f, resolved), dial))
  {
    MihomoForceFlow(lx, p, target, m, f);
    XrayForceFlow(lx, p, m, f, resolved, dial);
  }

  lemma MihomoForceFlow(lx: Lexicon, p: Profile, target: M.Route, m: Matching, f: Flow)
    requires Sound(lx, m) && Real(f) && target.Named?
    requires f.inbound == ForceFlow && HasProcessProxy(lx, p.tiers)
    ensures ByMihomo(M.Rules(lx, p, target, true), m, f).Some?
    ensures FailsClosed(lx, p, m, Seen(f, Own(f)), ByMihomo(M.Rules(lx, p, target, true), m, f).value)
  {
    M.ForceFlows(lx, p, target, m, Seen(f, Own(f)));
  }

  lemma XrayForceFlow(lx: Lexicon, p: Profile, m: Matching, f: Flow, resolved: set<Addr>, dial: Option<Addr>)
    requires Sound(lx, m) && Real(f) && f.inbound == ForceFlow && HasProcessProxy(lx, p.tiers)
    ensures FailsClosed(
              lx, p, m, if p.strategy == IPOnDemand then Looked(f, resolved) else Seen(f, Own(f)),
              Dialed(lx, p, m, XrayTag(Rules(lx, p), p.strategy, m, f, resolved), dial))
  {
    var looked := if f.name == "" then Own(f) else resolved;
    ForceFlowTag(lx, p, m, f, Own(f), dial);
    ForceFlowTag(lx, p, m, f, looked, dial);
    var rules := Rules(lx, p);
    var asIs, later := Route(rules, m, Seen(f, Own(f))), Route(rules, m, Seen(f, looked));
    assert ByStrategy(ProxyTag, p.strategy, f.name != "", asIs, later)
        == if p.strategy == IPOnDemand then later.value else asIs.value;
  }

  // ---------------------------------------------------------------- the exit echo

  lemma EchoRoute(lx: Lexicon, p: Profile, m: Matching, v: View)
    requires RealPort(v) && v.inbound == ExitEcho
    ensures Route(Rules(lx, p), m, v) == Some(if KillSwitch(p, m, v) then BlockTag else ProxyTag)
  {
    var rules := Rules(lx, p);
    var rest := rules[|KillRules(p)| + 1..];
    assert rules == KillRules(p) + [ECHO] + rest;
    KillRoute(p, m, v);
    RouteOne(ECHO, m, v);
    RouteConcat(KillRules(p), [ECHO], m, v);
    RouteConcat(KillRules(p) + [ECHO], rest, m, v);
  }

  /** The core's own exit echo goes through the proxy in every profile and under every strategy, unless
      a kill switch takes it. */
  lemma ExitEchoGoesThroughTheProxy(lx: Lexicon, p: Profile, m: Matching, f: Flow, resolved: set<Addr>)
    requires Real(f) && f.inbound == ExitEcho
    ensures
      var v := if p.strategy == IPOnDemand then Looked(f, resolved) else Seen(f, Own(f));
      XrayTag(Rules(lx, p), p.strategy, m, f, resolved) == if KillSwitch(p, m, v) then BlockTag else ProxyTag
  {
    EchoRoute(lx, p, m, Seen(f, Own(f)));
    EchoRoute(lx, p, m, Looked(f, resolved));
  }

  // ---------------------------------------------------------------- names keep off local networks

  lemma {:induction false} PlansIgnoreLocal(lx: Lexicon, p: Profile, tiers: seq<Tier>)
    ensures PlansOf(lx, p, tiers) == PlansOf(lx, p.(localNetworks := false), tiers)
  {
    if tiers != [] {
      PlansIgnoreLocal(lx, p, tiers[..|tiers| - 1]);
    }
  }

  lemma NamedPass(lx: Lexicon, p: Profile, m: Matching, f: Flow, ips: set<Addr>)
    requires Sound(lx, m) && Real(f) && Routed(lx, p, f) && f.name != ""
    ensures Route(Rules(lx, p), m, Seen(f, ips)) == Route(Rules(lx, p.(localNetworks := false)), m, Seen(f, ips))
  {
    var v, q := Seen(f, ips), p.(localNetworks := false);
    RulesRoute(lx, p, m, v);
    RulesRoute(lx, q, m, v);
    PlansIgnoreLocal(lx, p, p.tiers);
    NamedTag(lx, p, m, v, AnyBlockMatches(lx, p.tiers, Hit(m, v)), TierTag(Plans(lx, p), m, v), WaitsForIPs(lx, p));
  }

  lemma NamedTag(
      lx: Lexicon, p: Profile, m: Matching, v: View, blocked: bool, tierTag: Option<Tag>, waits: bool)
    requires v.name != "" && (v.inbound == AppTraffic || v.inbound == ForceFlow)
    ensures RoutedTag(lx, p, m, v, blocked, tierTag, waits)
         == RoutedTag(lx, p.(localNetworks := false), m, v, blocked, tierTag, waits)
  {
  }

  /** Sending local networks direct changes nothing for a flow that carries a name: whatever the
      strategy and the addresses it resolves to, it takes the outbound it would take without them. */
  lemma LocalNetworksNeverTakeNames(
      lx: Lexicon, p: Profile, target: M.Route, m: Matching, f: Flow, resolved: set<Addr>)
    requires Sound(lx, m) && Real(f) && Routed(lx, p, f) && f.name != "" && target.Named?
    ensures XrayTag(Rules(lx, p), p.strategy, m, f, resolved)
         == XrayTag(Rules(lx, p.(localNetworks := false)), p.strategy, m, f, resolved)
    ensures ByMihomo(M.Rules(lx, p, target, HasProcessProxy(lx, p.tiers)), m, f)
         == ByMihomo(M.Rules(lx, p.(localNetworks := false), target, HasProcessProxy(lx, p.tiers)), m, f)
  {
    NamedPass(lx, p, m, f, Own(f));
    NamedPass(lx, p, m, f, resolved);
    NamedByMihomo(lx, p, p.(localNetworks := false), target, m, f);
  }

  lemma NamedByMihomo(lx: Lexicon, p: Profile, q: Profile, target: M.Route, m: Matching, f: Flow)
    requires Sound(lx, m) && Real(f) && Routed(lx, p, f) && f.name != "" && target.Named?
    requires q == p.(localNetworks := false)
    ensures ByMihomo(M.Rules(lx, p, target, HasProcessProxy(lx, p.tiers)), m, f)
         == ByMihomo(M.Rules(lx, q, target, HasProcessProxy(lx, q.tiers)), m, f)
  {
    var v := Seen(f, Own(f));
    MihomoFollowsPolicy(lx, p, target, m, f);
    MihomoFollowsPolicy(lx, q, target, m, f);
    NamedDecisions(lx, p, q, m, v, AnyBlockMatches(lx, p.tiers, Hit(m, v)), TiersVerdict(lx, p.tiers, Hit(m, v)));
  }

  lemma NamedDecisions(
      lx: Lexicon, p: Profile, q: Profile, m: Matching, v: View, blocked: bool, verdict: Option<Target>)
    requires v.name != "" && q == p.(localNetworks := false)
    ensures AppDecision(lx, p, m, v, verdict) == AppDecision(lx, q, m, v, verdict)
    ensures ForceDecision(lx, p, m, v, blocked) == ForceDecision(lx, q, m, v, blocked)
  {
  }

  // ---------------------------------------------------------------- order does not matter

  ghost predicate SameProfile(p: Profile, q: Profile) {
    && q == p.(tiers := q.tiers)
    && |p.tiers| == |q.tiers|
    && forall i :: 0 <= i < |p.tiers| ==> SameLists(p.tiers[i], q.tiers[i])
  }

  lemma SameBack(p: Profile, q: Profile)
    requires SameProfile(p, q)
    ensures SameProfile(q, p)
  {
    forall i | 0 <= i < |q.tiers| ensures SameLists(q.tiers[i], p.tiers[i]) {
      assert SameLists(p.tiers[i], q.tiers[i]);
    }
  }

  lemma {:induction false} SameTiersVerdict(lx: Lexicon, a: seq<Tier>, b: seq<Tier>, hit: Entry -> bool)
    requires |a| == |b| && forall i :: 0 <= i < |a| ==> SameLists(a[i], b[i])
    ensures TiersVerdict(lx, a, hit) == TiersVerdict(lx, b, hit)
  {
    if a != [] {
      var n := |a| - 1;
      SameTiersVerdict(lx, a[..n], b[..n], hit);
      OrderAndRepetitionDoNotMatter(lx, a[n], b[n], hit);
    }
  }

  lemma SameBlocks(lx: Lexicon, p: Profile, q: Profile, hit: Entry -> bool)
    requires SameProfile(p, q)
    ensures AnyBlockMatches(lx, p.tiers, hit) ==> AnyBlockMatches(lx, q.tiers, hit)
  {
    if AnyBlockMatches(lx, p.tiers, hit) {
      var t, e :| t in p.tiers && e in Listed(lx, t) && e.target == Block && hit(e);
      var i :| 0 <= i < |p.tiers| && p.tiers[i] == t;
      SameListed(lx, t, q.tiers[i]);
      assert q.tiers[i] in q.tiers;
    }
  }

  lemma SameAddresses(lx: Lexicon, p: Profile, q: Profile)
    requires SameProfile(p, q)
    ensures ListsAddress(lx, p.tiers) ==> ListsAddress(lx, q.tiers)
  {
    if ListsAddress(lx, p.tiers) {
      var t, e :| t in p.tiers && e in Listed(lx, t) && e.ByAddress();
      var i :| 0 <= i < |p.tiers| && p.tiers[i] == t;
      SameListed(lx, t, q.tiers[i]);
      assert q.tiers[i] in q.tiers;
    }
  }

  lemma SamePerApp(lx: Lexicon, p: Profile, q: Profile)
    requires SameProfile(p, q)
    ensures HasProcessProxy(lx, p.tiers) == HasProcessProxy(lx, q.tiers)
  {
    forall app ensures AppRule(lx, p.tiers, app) == AppRule(lx, q.tiers, app) {
      SameApps(lx, p.tiers, q.tiers, app);
      SameApps(lx, q.tiers, p.tiers, app);
    }
  }

  lemma SameApps(lx: Lexicon, a: seq<Tier>, b: seq<Tier>, app: string)
    requires |a| == |b| && forall i :: 0 <= i < |a| ==> SameLists(a[i], b[i])
    ensures forall target :: AppListed(lx, a, target, app) ==> AppListed(lx, b, target, app)
  {
    forall target | AppListed(lx, a, target, app) ensures AppListed(lx, b, target, app) {
      var t :| t in a && AppIn(lx, ListOf(t, target), app);
      var i :| 0 <= i < |a| && a[i] == t;
      var x :| x in ListOf(t, target) && NamesApp(lx, x, app);
      assert x in ListOf(b[i], target);
      assert b[i] in b;
    }
  }

  lemma SamePass(lx: Lexicon, p: Profile, q: Profile, m: Matching, v: View)
    requires SameProfile(p, q)
    ensures PassPolicy(lx, p, m, v) == PassPolicy(lx, q, m, v)
    ensures HasProcessProxy(lx, p.tiers) == HasProcessProxy(lx, q.tiers)
    ensures AppPolicy(lx, p, m, v) == AppPolicy(lx, q, m, v) && ForcePolicy(lx, p, m, v) == ForcePolicy(lx, q, m, v)
  {
    SameMatches(lx, p, q, Hit(m, v));
    SamePerApp(lx, p, q);
    SameDecisions(
      lx, p, q, m, v, AnyBlockMatches(lx, p.tiers, Hit(m, v)), TiersVerdict(lx, p.tiers, Hit(m, v)),
      AwaitsAddress(lx, p));
  }

  lemma SameMatches(lx: Lexicon, p: Profile, q: Profile, hit: Entry -> bool)
    requires SameProfile(p, q)
    ensures TiersVerdict(lx, p.tiers, hit) == TiersVerdict(lx, q.tiers, hit)
    ensures AnyBlockMatches(lx, p.tiers, hit) == AnyBlockMatches(lx, q.tiers, hit)
    ensures AwaitsAddress(lx, p) == AwaitsAddress(lx, q) && WaitsForIPs(lx, p) == WaitsForIPs(lx, q)
  {
    SameTiersVerdict(lx, p.tiers, q.tiers, hit);
    BothBlock(lx, p, q, hit);
    BothWait(lx, p, q);
  }

  lemma BothBlock(lx: Lexicon, p: Profile, q: Profile, hit: Entry -> bool)
    requires SameProfile(p, q)
    ensures AnyBlockMatches(lx, p.tiers, hit) == AnyBlockMatches(lx, q.tiers, hit)
  {
    SameBack(p, q);
    SameBlocks(lx, p, q, hit);
    SameBlocks(lx, q, p, hit);
  }

  lemma BothWait(lx: Lexicon, p: Profile, q: Profile)
    requires SameProfile(p, q)
    ensures AwaitsAddress(lx, p) == AwaitsAddress(lx, q) && WaitsForIPs(lx, p) == WaitsForIPs(lx, q)
  {
    SameBack(p, q);
    SameAddresses(lx, p, q);
    SameAddresses(lx, q, p);
    AwaitingIsWaiting(lx, p);
    AwaitingIsWaiting(lx, q);
  }

  lemma SameDecisions(
      lx: Lexicon, p: Profile, q: Profile, m: Matching, v: View, blocked: bool, verdict: Option<Target>, waits: bool)
    requires q == p.(tiers := q.tiers)
    ensures PassDecision(lx, p, m, v, blocked, verdict, waits) == PassDecision(lx, q, m, v, blocked, verdict, waits)
    ensures AppDecision(lx, p, m, v, verdict) == AppDecision(lx, q, m, v, verdict)
    ensures ForceDecision(lx, p, m, v, blocked) == ForceDecision(lx, q, m, v, blocked)
  {
  }

  /** Reordering or repeating the matchers of any list of any tier changes no flow's outcome, on
      either engine; on xray, under every strategy, no flow's choice of block, direct or proxy. */
  lemma OrderChangesNoFlow(
      lx: Lexicon, p: Profile, q: Profile, target: M.Route, m: Matching, f: Flow, resolved: set<Addr>)
    requires SameProfile(p, q) && Sound(lx, m) && Real(f) && Routed(lx, p, f) && target.Named?
    ensures HasProcessProxy(lx, p.tiers) == HasProcessProxy(lx, q.tiers)
    ensures ByMihomo(M.Rules(lx, p, target, HasProcessProxy(lx, p.tiers)), m, f)
         == ByMihomo(M.Rules(lx, q, target, HasProcessProxy(lx, q.tiers)), m, f)
    ensures TagTarget(XrayTag(Rules(lx, p), p.strategy, m, f, resolved))
         == TagTarget(XrayTag(Rules(lx, q), q.strategy, m, f, resolved))
    ensures Unresolved(p, f) ==>
      (Dialed(lx, p, m, XrayTag(Rules(lx, p), p.strategy, m, f, resolved), f.addr)
       == Dialed(lx, q, m, XrayTag(Rules(lx, q), q.strategy, m, f, resolved), f.addr))
  {
    SamePass(lx, p, q, m, Seen(f, Own(f)));
    SamePass(lx, p, q, m, Looked(f, resolved));
    MihomoFollowsPolicy(lx, p, target, m, f);
    MihomoFollowsPolicy(lx, q, target, m, f);
    XrayUnderEveryStrategy(lx, p, m, f, resolved);
    XrayUnderEveryStrategy(lx, q, m, f, resolved);
    if Unresolved(p, f) {
      XrayFollowsPolicy(lx, p, m, f, resolved);
      XrayFollowsPolicy(lx, q, m, f, resolved);
    }
  }
}
