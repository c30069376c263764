/** Both engines against the policy: mihomo's rule list, and xray's rules with the tiers' own direct
    outbounds, give every flow the same. */
module Agreement {
  import opened Text
  import opened Routing
  import opened Meaning
  import opened Policy
  import opened Xray
  import opened XrayMeaning
  import M = Mihomo

  /** A flow as it arrives: with a name, an address, or a sniffed name beside its address. */
  datatype Flow = Flow(inbound: Inbound, name: string, addr: Option<Addr>, app: string, udp: bool, port: nat)

  function Own(f: Flow): set<Addr> {
    if f.addr.Some? then {f.addr.value} else {}
  }

  function Seen(f: Flow, ips: set<Addr>): View {
    View(f.inbound, f.name, ips, f.app, f.udp, f.port)
  }

  /** mihomo resolves no name for routing: it reads the flow as it arrived. */
  function ByMihomo(rs: M.RuleSet, m: Matching, f: Flow): Option<Target> {
    M.Outcome(rs, m, Seen(f, Own(f)))
  }

  /** xray's router. IPOnDemand shows the IP rules of a named flow what its name resolves to;
      IPIfNonMatch makes a second pass with it when the first took nothing. What no rule takes goes
      to the first outbound of the configuration. */
  function ConfigTag(
      obs: seq<Outbound>, rules: seq<FieldRule>, strategy: Strategy, m: Matching, f: Flow, resolved: set<Addr>): Tag
    requires obs != []
  {
    ByStrategy(
      obs[0].tag, strategy, f.name != "", Route(rules, m, Seen(f, Own(f))),
      Route(rules, m, Seen(f, if f.name == "" then Own(f) else resolved)))
  }

  /** The same where the first outbound is a proxy, as it is in every configuration built from links
      (Outbounds.FirstOutboundStaysAProxy). */
  function XrayTag(rules: seq<FieldRule>, strategy: Strategy, m: Matching, f: Flow, resolved: set<Addr>): Tag {
    ByStrategy(
      ProxyTag, strategy, f.name != "", Route(rules, m, Seen(f, Own(f))),
      Route(rules, m, Seen(f, if f.name == "" then Own(f) else resolved)))
  }

  function ByStrategy(first: Tag, strategy: Strategy, named: bool, asIs: Option<Tag>, looked: Option<Tag>): Tag {
    var taken := match strategy
      case AsIs => asIs
      case IPOnDemand => looked
      case IPIfNonMatch => if asIs.Some? || !named then asIs else looked;
    if taken.Some? then taken.value else first
  }

  /** What becomes of a flow whose dial goes to `dial`: a tier's own direct outbound refuses an
      address its final rules do not allow. */
  function Dialed(lx: Lexicon, p: Profile, m: Matching, tag: Tag, dial: Option<Addr>): Target {
    match tag
    case TierDirect(i) =>
      if i < |p.tiers| && dial.Some? && Allows(DirectFinalRules(Entries(lx, p.tiers[i])), m, dial.value)
      then Direct else Block
    case _ => TagTarget(tag)
  }

  /** The app flows, and the per-app flows where a process-to-proxy rule survives. */
  ghost predicate Routed(lx: Lexicon, p: Profile, f: Flow) {
    f.inbound == AppTraffic || (f.inbound == ForceFlow && HasProcessProxy(lx, p.tiers))
  }

  ghost predicate Real(f: Flow) {
    1 <= f.port <= 65535
  }

  ghost function FlowPolicy(lx: Lexicon, p: Profile, m: Matching, f: Flow): Target {
    var v := Seen(f, Own(f));
    if f.inbound == ForceFlow then ForcePolicy(lx, p, m, v) else AppPolicy(lx, p, m, v)
  }

  // ---------------------------------------------------------------- xray's whole list

  lemma RouteOfParts(
      kill: seq<FieldRule>, force: seq<FieldRule>, tiers: seq<FieldRule>, closing: seq<FieldRule>,
      m: Matching, v: View)
    requires v.inbound != ExitEcho
    ensures Route(kill + [ECHO] + force + tiers + closing, m, v)
         == Or(Route(kill, m, v), Or(Route(force, m, v), Or(Route(tiers, m, v), Route(closing, m, v))))
  {
    RouteOne(ECHO, m, v);
    RouteConcat(kill, [ECHO], m, v);
    RouteOfFour(kill + [ECHO], force, tiers, closing, m, v);
  }

  lemma RouteOfFour(
      a: seq<FieldRule>, b: seq<FieldRule>, c: seq<FieldRule>, d: seq<FieldRule>, m: Matching, v: View)
    ensures Route(a + b + c + d, m, v) == Or(Route(a, m, v), Or(Route(b, m, v), Or(Route(c, m, v), Route(d, m, v))))
  {
    RouteConcat(a, b, m, v);
    RouteConcat(a + b, c, m, v);
    RouteConcat(a + b + c, d, m, v);
  }

  /** Where a routed flow goes, seen with any set of addresses. */
  function RoutedTag(
      lx: Lexicon, p: Profile, m: Matching, v: View, blocked: bool, tierTag: Option<Tag>, waits: bool): Option<Tag> {
    if KillSwitch(p, m, v) then Some(BlockTag)
    else if v.inbound == ForceFlow then
      Some(if blocked then BlockTag else if GoesLocal(lx, p, m, v) then DirectTag else ProxyTag)
    else if tierTag.Some? then tierTag
    else ClosingTag(lx, p, waits, m, v)
  }

  lemma RouteFrom(
      lx: Lexicon, p: Profile, tierRules: seq<FieldRule>, blocks: seq<Step>, perApp: bool, waits: bool,
      m: Matching, v: View)
    requires Sound(lx, m) && RealPort(v)
    requires v.inbound == AppTraffic || (v.inbound == ForceFlow && perApp)
    requires AllShaped(blocks) && forall s :: s in blocks ==> IsPlainBlock(s)
    ensures Route(RulesFrom(lx, p, tierRules, blocks, perApp, waits), m, v)
         == RoutedTag(lx, p, m, v, FirstStep(blocks, Hit(m, v)).Some?, Route(tierRules, m, v), waits)
  {
    var force := if perApp then ForceRules(lx, p, blocks) else [];
    RouteOfParts(KillRules(p), force, tierRules, ClosingRules(lx, p, waits), m, v);
    KillRoute(p, m, v);
    ForceRoute(lx, p, blocks, m, v);
    ClosingRoute(lx, p, waits, m, v);
  }

  lemma RulesRoute(lx: Lexicon, p: Profile, m: Matching, v: View)
    requires Sound(lx, m) && RealPort(v)
    requires v.inbound == AppTraffic || (v.inbound == ForceFlow && HasProcessProxy(lx, p.tiers))
    ensures Route(Rules(lx, p), m, v)
         == RoutedTag(
              lx, p, m, v, AnyBlockMatches(lx, p.tiers, Hit(m, v)),
              TierTag(Plans(lx, p), m, v), WaitsForIPs(lx, p))
  {
    var steps := AllSteps(lx, p.tiers);
    AllStepsShaped(lx, p.tiers);
    PlainBlocksMembers(steps);
    AllPlainBlocks(lx, p.tiers, Hit(m, v));
    AllTierRulesRoute(Plans(lx, p), m, v);
    RouteFrom(
      lx, p, AllTierRules(Plans(lx, p)), PlainBlocks(steps), HasProcessProxy(lx, p.tiers), WaitsForIPs(lx, p), m, v);
  }

  lemma TierTargets(lx: Lexicon, p: Profile, m: Matching, v: View)
    ensures TargetsOf(TierTag(Plans(lx, p), m, v)) == TiersVerdict(lx, p.tiers, Hit(m, v))
  {
    PlansHoldSteps(lx, p);
    TierTagTarget(lx, p.tiers, Plans(lx, p), m, v);
  }

  // ---------------------------------------------------------------- a tier's direct outbound

  function AddressHit(m: Matching, a: Addr): Entry -> bool {
    (e: Entry) => m.address(e.kind, e.value, a)
  }

  lemma {:induction false} AllowsConcat(a: seq<FinalRule>, b: seq<FinalRule>, m: Matching, x: Addr)
    ensures Allows(a + b, m, x)
        == if exists r :: r in a && FinalHit(r, m, x) then Allows(a, m, x) else Allows(b, m, x)
  {
    if a == [] {
      assert a + b == b;
    } else {
      assert (a + b)[1..] == a[1..] + b;
      AllowsConcat(a[1..], b, m, x);
      assert a == [a[0]] + a[1..];
      if r :| r in a[1..] && FinalHit(r, m, x) {
        assert r in a;
      }
      if FinalHit(a[0], m, x) {
        assert a[0] in a;
      }
    }
  }

  ghost predicate AnyFinal(rules: seq<FinalRule>, m: Matching, x: Addr) {
    exists r :: r in rules && FinalHit(r, m, x)
  }

  lemma AddFinalMeaning(rules: seq<FinalRule>, e: Entry, m: Matching, x: Addr)
    ensures AnyFinal(AddFinal(rules, e), m, x) <==> AnyFinal(rules, m, x) || AddressHit(m, x)(e)
    ensures Allows(AddFinal(rules, e), m, x)
         == if AnyFinal(rules, m, x) then Allows(rules, m, x) else AddressHit(m, x)(e) && IsDirectAddress(e)
  {
    var n, spelling := |rules|, Spelling(e.kind, e.value);
    if n > 0 && rules[n - 1].allow == IsDirectAddress(e) {
      var front, last := rules[..n - 1], rules[n - 1];
      var grown := last.(ip := last.ip + [spelling]);
      assert rules == front + [last] && AddFinal(rules, e) == front + [grown];
      GrownFinal(last, spelling, m, x);
      FinalsConcat(front, last, m, x);
      FinalsConcat(front, grown, m, x);
    } else {
      var added := FinalRule(IsDirectAddress(e), [spelling]);
      assert AddFinal(rules, e) == rules + [added];
      assert FinalHit(added, m, x) == AddressHit(m, x)(e) by {
        assert spelling in added.ip;
      }
      FinalsConcat(rules, added, m, x);
    }
  }

  lemma GrownFinal(r: FinalRule, s: Spelling, m: Matching, x: Addr)
    ensures FinalHit(r.(ip := r.ip + [s]), m, x) == (FinalHit(r, m, x) || m.address(s.kind, s.value, x))
  {
    var grown := r.(ip := r.ip + [s]);
    assert s in grown.ip;
    if FinalHit(r, m, x) {
      var o :| o in r.ip && m.address(o.kind, o.value, x);
      assert o in grown.ip;
    }
  }

  lemma FinalsConcat(front: seq<FinalRule>, last: FinalRule, m: Matching, x: Addr)
    ensures AnyFinal(front + [last], m, x) <==> AnyFinal(front, m, x) || FinalHit(last, m, x)
    ensures Allows(front + [last], m, x)
         == if AnyFinal(front, m, x) then Allows(front, m, x) else FinalHit(last, m, x) && last.allow
  {
    AllowsConcat(front, [last], m, x);
    assert [last][1..] == [];
    assert last in front + [last];
    if AnyFinal(front, m, x) {
      var r :| r in front && FinalHit(r, m, x);
      assert r in front + [last];
    }
  }

  lemma {:induction false} FinalsMeaning(addresses: seq<Entry>, m: Matching, x: Addr)
    ensures AnyFinal(FinalsOf(addresses), m, x) <==> FirstHit(addresses, AddressHit(m, x)).Some?
    ensures Allows(FinalsOf(addresses), m, x)
        <==> var first := FirstHit(addresses, AddressHit(m, x)); first.Some? && IsDirectAddress(first.value)
  {
    if addresses != [] {
      var front, last := addresses[..|addresses| - 1], addresses[|addresses| - 1];
      FinalsMeaning(front, m, x);
      AddFinalMeaning(FinalsOf(front), last, m, x);
      FirstHitConcat(front, [last], AddressHit(m, x));
      assert addresses == front + [last];
    }
  }

  /** A tier's direct outbound allows an address exactly when the first of the tier's address entries
      to hold it is a direct one: neither the cut at the last direct entry nor the merging of runs
      changes that. */
  lemma DirectOutboundIsExact(entries: seq<Entry>, m: Matching, x: Addr)
    ensures Allows(DirectFinalRules(entries), m, x)
        <==> var first := FirstHit(OfPlane(entries, AddressPlane), AddressHit(m, x));
             first.Some? && first.value.target == Direct
  {
    var addresses := OfPlane(entries, AddressPlane);
    var n := ThroughLastDirect(addresses);
    OfPlaneMembers(entries, AddressPlane);
    FinalsMeaning(addresses[..n], m, x);
    assert addresses == addresses[..n] + addresses[n..];
    FirstHitConcat(addresses[..n], addresses[n..], AddressHit(m, x));
  }

  // ---------------------------------------------------------------- who reaches that outbound

  lemma {:induction false} GuardTargets(run: seq<Entry>, target: Target, other: seq<Entry>)
    ensures forall s :: s in Guards(run, target, other) ==> s.target == Block || s.target == target
    ensures forall s :: s in Guards(run, target, other) ==> s.entries == run
  {
    if other != [] {
      GuardTargets(run, target, other[..|other| - 1]);
      var steps := Guards(run, target, other[..|other| - 1]);
      if |steps| > 0 {
        assert steps[|steps| - 1] in steps;
      }
    }
  }

  lemma RunTargets(es: seq<Entry>, i: nat, j: nat, s: Step)
    requires i < j <= |es| && s in RunSteps(es, i, j)
    ensures s.entries == es[i..j] && (s.target == Block || s.target == es[i].target)
  {
    var run, plane, target := es[i..j], es[i].Plane(), es[i].target;
    if plane != AppPlane && target != Block {
      var other := OfPlane(es, Other(plane));
      GuardTargets(run, target, other[..ThroughLastBlock(other)]);
    }
  }

  lemma RunTaken(es: seq<Entry>, i: nat, j: nat, hit: Entry -> bool)
    requires i < j <= |es|
    requires forall k :: i < k < j ==> es[k].Plane() == es[i].Plane() && es[k].target == es[i].target
    ensures TakenBy(RunSteps(es, i, j), hit).Some? <==> FirstHit(es[i..j], hit).Some?
    ensures TakenBy(RunSteps(es, i, j), hit).Some? ==>
              Kept(TakenBy(RunSteps(es, i, j), hit).value, FirstHit(es[i..j], hit))
  {
    RunMeaning(es, i, j, hit);
    if TakenBy(RunSteps(es, i, j), hit).Some? {
      RunTargets(es, i, j, TakenBy(RunSteps(es, i, j), hit).value);
      var e := FirstHit(es[i..j], hit).value;
      var k :| 0 <= k < j - i && es[i..j][k] == e;
      assert e == es[i + k];
    }
  }

  ghost predicate Kept(s: Step, first: Option<Entry>) {
    first.Some? && first.value in s.entries && (s.target == Block || s.target == first.value.target)
  }

  /** The step that takes a flow holds the flow's first match, and keeps its outcome unless it
      blocks. */
  lemma {:induction false} TakenHoldsFirst(es: seq<Entry>, i: nat, hit: Entry -> bool)
    requires i <= |es| && TakenBy(StepsFrom(es, i), hit).Some?
    ensures Kept(TakenBy(StepsFrom(es, i), hit).value, FirstHit(es[i..], hit))
    decreases |es| - i
  {
    var j := RunEnd(es, i, i + 1);
    assert es[i..] == es[i..j] + es[j..];
    RunTaken(es, i, j, hit);
    if TakenBy(StepsFrom(es, j), hit).Some? {
      TakenHoldsFirst(es, j, hit);
    }
    KeptConcat(RunSteps(es, i, j), StepsFrom(es, j), es[i..j], es[j..], hit);
  }

  lemma KeptConcat(a: seq<Step>, b: seq<Step>, xs: seq<Entry>, ys: seq<Entry>, hit: Entry -> bool)
    requires TakenBy(a, hit).Some? <==> FirstHit(xs, hit).Some?
    requires TakenBy(a, hit).Some? ==> Kept(TakenBy(a, hit).value, FirstHit(xs, hit))
    requires TakenBy(b, hit).Some? ==> Kept(TakenBy(b, hit).value, FirstHit(ys, hit))
    ensures TakenBy(a + b, hit).Some? ==> Kept(TakenBy(a + b, hit).value, FirstHit(xs + ys, hit))
  {
    TakenConcat(a, b, hit);
    FirstHitConcat(xs, ys, hit);
  }

  /** What the address plane of a flow with one address matches is what that address matches. */
  lemma OneAddress(es: seq<Entry>, m: Matching, f: Flow)
    requires f.addr.Some?
    ensures FirstHit(OfPlane(es, AddressPlane), Hit(m, Seen(f, Own(f))))
         == FirstHit(OfPlane(es, AddressPlane), AddressHit(m, f.addr.value))
  {
    OfPlaneMembers(es, AddressPlane);
    var addresses := OfPlane(es, AddressPlane);
    forall e | e in addresses ensures Hit(m, Seen(f, Own(f)))(e) == AddressHit(m, f.addr.value)(e) {
      assert e.Plane() == AddressPlane;
    }
    SameHits(addresses, Hit(m, Seen(f, Own(f))), AddressHit(m, f.addr.value));
  }

  lemma {:induction false} SameHits(es: seq<Entry>, a: Entry -> bool, b: Entry -> bool)
    requires forall e :: e in es ==> a(e) == b(e)
    ensures FirstHit(es, a) == FirstHit(es, b)
  {
    if es != [] {
      SameHits(es[1..], a, b);
    }
  }

  lemma TakenByAddressIsAllowed(lx: Lexicon, es: seq<Entry>, m: Matching, f: Flow, s: Step)
    requires SortedByKey(lx, es) && AllShaped(StepsFrom(es, 0))
    requires TakenBy(StepsFrom(es, 0), Hit(m, Seen(f, Own(f)))) == Some(s)
    requires s.target == Direct && s.entries[0].ByAddress()
    ensures f.addr.Some? && Allows(DirectFinalRules(es), m, f.addr.value)
  {
    var hit := Hit(m, Seen(f, Own(f)));
    TakenHoldsFirst(es, 0, hit);
    assert es[0..] == es;
    FirstAddressIsAllowed(lx, es, m, f, FirstHit(es, hit).value);
  }

  lemma FirstAddressIsAllowed(lx: Lexicon, es: seq<Entry>, m: Matching, f: Flow, e: Entry)
    requires SortedByKey(lx, es) && FirstHit(es, Hit(m, Seen(f, Own(f)))) == Some(e)
    requires e.Plane() == AddressPlane && e.target == Direct
    ensures f.addr.Some? && Allows(DirectFinalRules(es), m, f.addr.value)
  {
    assert Hit(m, Seen(f, Own(f)))(e);
    FirstOfItsPlane(lx, es, Hit(m, Seen(f, Own(f))), e);
    OneAddress(es, m, f);
    DirectOutboundIsExact(es, m, f.addr.value);
  }

  /** The step of the tier that gave a flow its tag. */
  lemma {:induction false} TagComesFromAStep(
      lx: Lexicon, tiers: seq<Tier>, plans: seq<TierPlan>, m: Matching, v: View, tag: Tag)
    returns (i: nat, s: Step)
    requires HoldSteps(lx, tiers, plans)
    requires TierTag(plans, m, v) == Some(tag)
    ensures i < |plans| && TakenBy(Steps(lx, tiers[i]), Hit(m, v)) == Some(s) && tag == TagOf(s, i, plans[i].own)
  {
    var n := |plans| - 1;
    if TierTag(plans[..n], m, v).Some? {
      i, s := TagComesFromAStep(lx, tiers[..n], plans[..n], m, v, tag);
    } else {
      StepsShaped(lx, tiers[n]);
      TierRulesRoute(plans[n].steps, n, plans[n].own, m, v);
      i, s := n, TakenBy(Steps(lx, tiers[n]), Hit(m, v)).value;
    }
  }

  lemma OneTierDirectIsAllowed(lx: Lexicon, t: Tier, m: Matching, f: Flow, s: Step)
    requires TakenBy(Steps(lx, t), Hit(m, Seen(f, Own(f)))) == Some(s)
    requires s.target == Direct && s.entries != [] && s.entries[0].ByAddress()
    ensures f.addr.Some? && Allows(DirectFinalRules(Entries(lx, t)), m, f.addr.value)
  {
    StepsShaped(lx, t);
    SortIsSorted(lx, Listed(lx, t));
    TakenByAddressIsAllowed(lx, Entries(lx, t), m, f, s);
  }

  lemma TierDirectIsAllowed(
      lx: Lexicon, tiers: seq<Tier>, plans: seq<TierPlan>, m: Matching, f: Flow, i: nat)
    requires HoldSteps(lx, tiers, plans)
    requires TierTag(plans, m, Seen(f, Own(f))) == Some(TierDirect(i))
    ensures i < |tiers| && f.addr.Some? && Allows(DirectFinalRules(Entries(lx, tiers[i])), m, f.addr.value)
  {
    var n, s := TagComesFromAStep(lx, tiers, plans, m, Seen(f, Own(f)), TierDirect(i));
    OneTierDirectIsAllowed(lx, tiers[n], m, f, s);
  }

  // ---------------------------------------------------------------- the engines agree

  lemma TagFollowsPolicy(
      lx: Lexicon, p: Profile, m: Matching, v: View, blocked: bool, tierTag: Option<Tag>, verdict: Option<Target>,
      waits: bool)
    requires TargetsOf(tierTag) == verdict && (v.inbound == AppTraffic || v.inbound == ForceFlow)
    requires waits ==> v.name == "" && v.ips != {}
    ensures RoutedTag(lx, p, m, v, blocked, tierTag, waits).Some?
    ensures TagTarget(RoutedTag(lx, p, m, v, blocked, tierTag, waits).value)
         == if v.inbound == AppTraffic then AppDecision(lx, p, m, v, verdict)
            else ForceDecision(lx, p, m, v, blocked)
  {
  }

  /** No name is resolved for the flow: under AsIs, or when it is addressed by IP alone. */
  predicate Unresolved(p: Profile, f: Flow) {
    p.strategy == AsIs || (f.name == "" && f.addr.Some?)
  }

  /** Where no name is resolved xray gives every routed flow what the policy says, and a tier's own
      direct outbound never refuses a flow routed to it. */
  lemma XrayFollowsPolicy(lx: Lexicon, p: Profile, m: Matching, f: Flow, resolved: set<Addr>)
    requires Sound(lx, m) && Real(f) && Routed(lx, p, f) && Unresolved(p, f)
    ensures Dialed(lx, p, m, XrayTag(Rules(lx, p), p.strategy, m, f, resolved), f.addr) == FlowPolicy(lx, p, m, f)
    ensures TagTarget(XrayTag(Rules(lx, p), p.strategy, m, f, resolved)) == FlowPolicy(lx, p, m, f)
  {
    var v := Seen(f, Own(f));
    var blocked, waits := AnyBlockMatches(lx, p.tiers, Hit(m, v)), WaitsForIPs(lx, p);
    var tierTag := TierTag(Plans(lx, p), m, v);
    RulesRoute(lx, p, m, v);
    TierTargets(lx, p, m, v);
    TierTagDials(lx, p, m, f);
    TagFollowsPolicy(lx, p, m, v, blocked, tierTag, TiersVerdict(lx, p.tiers, Hit(m, v)), waits);
    TagDials(lx, p, m, v, f.addr, blocked, tierTag, waits);
    UnresolvedTag(Rules(lx, p), p, m, f, resolved);
  }

  /** The outbound of a tag does with the address what the tag says. */
  predicate Dials(lx: Lexicon, p: Profile, m: Matching, tag: Tag, dial: Option<Addr>) {
    Dialed(lx, p, m, tag, dial) == TagTarget(tag)
  }

  lemma TierTagDials(lx: Lexicon, p: Profile, m: Matching, f: Flow)
    ensures var tierTag := TierTag(Plans(lx, p), m, Seen(f, Own(f)));
            tierTag.Some? ==> Dials(lx, p, m, tierTag.value, f.addr)
  {
    var tierTag := TierTag(Plans(lx, p), m, Seen(f, Own(f)));
    if tierTag.Some? && tierTag.value.TierDirect? {
      PlansHoldSteps(lx, p);
      TierDirectIsAllowed(lx, p.tiers, Plans(lx, p), m, f, tierTag.value.tier);
    }
  }

  lemma TagDials(
      lx: Lexicon, p: Profile, m: Matching, v: View, dial: Option<Addr>, blocked: bool, tierTag: Option<Tag>,
      waits: bool)
    requires tierTag.Some? ==> Dials(lx, p, m, tierTag.value, dial)
    ensures var tag := RoutedTag(lx, p, m, v, blocked, tierTag, waits); tag.Some? ==> Dials(lx, p, m, tag.value, dial)
  {
  }

  lemma UnresolvedTag(rules: seq<FieldRule>, p: Profile, m: Matching, f: Flow, resolved: set<Addr>)
    requires Unresolved(p, f) && Route(rules, m, Seen(f, Own(f))).Some?
    ensures XrayTag(rules, p.strategy, m, f, resolved) == Route(rules, m, Seen(f, Own(f))).value
  {
  }

  /** The two backends agree on every routed flow: on all of them under AsIs, and under every strategy
      on those addressed by IP. */
  lemma BackendsAgree(lx: Lexicon, p: Profile, target: M.Route, m: Matching, f: Flow, resolved: set<Addr>)
    requires Sound(lx, m) && Real(f) && Routed(lx, p, f) && Unresolved(p, f) && target.Named?
    ensures ByMihomo(M.Rules(lx, p, target, HasProcessProxy(lx, p.tiers)), m, f)
         == Some(Dialed(lx, p, m, XrayTag(Rules(lx, p), p.strategy, m, f, resolved), f.addr))
  {
    XrayFollowsPolicy(lx, p, m, f, resolved);
    MihomoFollowsPolicy(lx, p, target, m, f);
  }

  lemma MihomoFollowsPolicy(lx: Lexicon, p: Profile, target: M.Route, m: Matching, f: Flow)
    requires Sound(lx, m) && Routed(lx, p, f) && target.Named?
    ensures ByMihomo(M.Rules(lx, p, target, HasProcessProxy(lx, p.tiers)), m, f) == Some(FlowPolicy(lx, p, m, f))
  {
    var v := Seen(f, Own(f));
    if f.inbound == AppTraffic {
      M.AppFlows(lx, p, target, HasProcessProxy(lx, p.tiers), m, v);
    } else {
      M.ForceFlows(lx, p, target, m, v);
    }
  }
}
