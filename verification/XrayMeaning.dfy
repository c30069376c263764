/** What xray's rule list gives each flow. */
module XrayMeaning {
  import opened Text
  import opened Routing
  import opened Meaning
  import opened Policy
  import opened Xray

  // ---------------------------------------------------------------- the shape of steps

  /** A step's entries share a plane, what it is paired with is of the other site plane, and every
      entry can be spelled. */
  ghost predicate Shaped(s: Step) {
    && s.entries != []
    && (forall e :: e in s.entries ==> e.value != "" && e.Plane() == s.entries[0].Plane())
    && (s.also != [] ==> s.entries[0].Plane() != AppPlane)
    && (forall e :: e in s.also ==> e.value != "" && e.Plane() == Other(s.entries[0].Plane()))
  }

  ghost predicate AllShaped(steps: seq<Step>) {
    forall s :: s in steps ==> Shaped(s)
  }

  lemma {:induction false} GuardsShaped(run: seq<Entry>, target: Target, other: seq<Entry>)
    requires run != [] && run[0].Plane() != AppPlane
    requires forall e :: e in run ==> e.value != "" && e.Plane() == run[0].Plane()
    requires forall e :: e in other ==> e.value != "" && e.Plane() == Other(run[0].Plane())
    ensures AllShaped(Guards(run, target, other))
    ensures forall s :: s in Guards(run, target, other) ==> s.entries == run
  {
    if other != [] {
      var front := other[..|other| - 1];
      GuardsShaped(run, target, front);
      AddGuardShaped(Guards(run, target, front), run, target, other[|other| - 1]);
    }
  }

  lemma AddGuardShaped(steps: seq<Step>, run: seq<Entry>, target: Target, e: Entry)
    requires run != [] && run[0].Plane() != AppPlane
    requires forall x :: x in run ==> x.value != "" && x.Plane() == run[0].Plane()
    requires e.value != "" && e.Plane() == Other(run[0].Plane())
    requires AllShaped(steps) && forall s :: s in steps ==> s.entries == run
    ensures AllShaped(AddGuard(steps, run, target, e))
    ensures forall s :: s in AddGuard(steps, run, target, e) ==> s.entries == run
  {
    if |steps| > 0 {
      assert steps[|steps| - 1] in steps;
    }
  }

  lemma RunShaped(es: seq<Entry>, i: nat, j: nat)
    requires i < j <= |es|
    requires forall k :: i < k < j ==> es[k].Plane() == es[i].Plane() && es[k].target == es[i].target
    requires forall e :: e in es ==> e.value != ""
    ensures AllShaped(RunSteps(es, i, j))
    ensures forall s :: s in RunSteps(es, i, j) ==> s.entries == es[i..j]
  {
    var run, plane, target := es[i..j], es[i].Plane(), es[i].target;
    forall e | e in run ensures e in es && e.Plane() == plane {
      var k :| 0 <= k < |run| && run[k] == e;
      assert e == es[i + k];
    }
    if plane != AppPlane && target != Block {
      var other := OfPlane(es, Other(plane));
      OfPlaneMembers(es, Other(plane));
      GuardsShaped(run, target, other[..ThroughLastBlock(other)]);
    }
  }

  lemma {:induction false} StepsFromShaped(es: seq<Entry>, i: nat)
    requires i <= |es| && forall e :: e in es ==> e.value != ""
    ensures AllShaped(StepsFrom(es, i))
    decreases |es| - i
  {
    if i < |es| {
      var j := RunEnd(es, i, i + 1);
      StepsFromShaped(es, j);
      RunShaped(es, i, j);
    }
  }

  lemma {:induction false} ClassifiedNonempty(lx: Lexicon, ms: seq<string>, target: Target)
    ensures forall e :: e in Classified(lx, ms, target) ==> e.value != ""
  {
    if ms != [] {
      ClassifiedNonempty(lx, ms[..|ms| - 1], target);
    }
  }

  lemma EntriesNonempty(lx: Lexicon, t: Tier)
    ensures forall e :: e in Entries(lx, t) ==> e.value != ""
  {
    EntriesAreListed(lx, t);
    ClassifiedNonempty(lx, t.block, Block);
    ClassifiedNonempty(lx, t.direct, Direct);
    ClassifiedNonempty(lx, t.proxy, Proxy);
  }

  lemma StepsShaped(lx: Lexicon, t: Tier)
    ensures AllShaped(Steps(lx, t))
  {
    EntriesNonempty(lx, t);
    StepsFromShaped(Entries(lx, t), 0);
  }

  lemma {:induction false} AllStepsShaped(lx: Lexicon, tiers: seq<Tier>)
    ensures AllShaped(AllSteps(lx, tiers))
  {
    if tiers != [] {
      AllStepsShaped(lx, tiers[..|tiers| - 1]);
      StepsShaped(lx, tiers[|tiers| - 1]);
    }
  }

  // ---------------------------------------------------------------- one step, one rule

  lemma {:induction false} SpelledOfPlane(es: seq<Entry>, p: Plane, m: Matching, v: View)
    requires forall e :: e in es ==> e.value != "" && e.Plane() == p
    ensures |Spelled(es, p)| == |es|
    ensures (exists s :: s in Spelled(es, p) && Matches(m, v, s.kind, s.value)) <==> Any(es, Hit(m, v))
  {
    if es != [] {
      var front, last := es[..|es| - 1], es[|es| - 1];
      SpelledOfPlane(front, p, m, v);
      assert es == front + [last];
      assert Spelled(es, p) == Spelled(front, p) + [Spelling(last.kind, last.value)];
      assert Any(es, Hit(m, v)) <==> Any(front, Hit(m, v)) || Hit(m, v)(last) by {
        if Any(front, Hit(m, v)) {
          var e :| e in front && Hit(m, v)(e);
          assert e in es;
        }
        assert last in es;
      }
    }
  }

  lemma {:induction false} SpelledOffPlane(es: seq<Entry>, p: Plane, q: Plane)
    requires p != q && forall e :: e in es ==> e.Plane() == p
    ensures Spelled(es, q) == []
  {
    if es != [] {
      SpelledOffPlane(es[..|es| - 1], p, q);
    }
  }

  lemma FieldsOfPlane(es: seq<Entry>, p: Plane, m: Matching, v: View)
    requires forall e :: e in es ==> e.value != "" && e.Plane() == p
    ensures forall q :: q != p ==> Spelled(es, q) == []
    ensures es == [] ==> Spelled(es, p) == []
    ensures es != [] ==> AnySpelled(es) && Spelled(es, p) != [] && FieldHit(Spelled(es, p), m, v) == Any(es, Hit(m, v))
  {
    SpelledOfPlane(es, p, m, v);
    forall q | q != p ensures Spelled(es, q) == [] {
      SpelledOffPlane(es, p, q);
    }
    if es != [] {
      assert es[0] in es && HasSpelling(es[0]);
    }
  }

  /** A step becomes one rule that applies to exactly the flows the step takes. */
  lemma StepRuleApplies(s: Step, inbounds: seq<Inbound>, tag: Tag, m: Matching, v: View)
    requires Shaped(s)
    ensures |StepRule(s, inbounds, tag)| == 1 && StepRule(s, inbounds, tag)[0].tag == tag
    ensures Applies(StepRule(s, inbounds, tag)[0], m, v)
        <==> (inbounds == [] || v.inbound in inbounds) && StepHit(s, Hit(m, v))
  {
    var p := s.entries[0].Plane();
    FieldsOfPlane(s.entries, p, m, v);
    if s.also != [] {
      FieldsOfPlane(s.also, Other(p), m, v);
    }
    forall q ensures FieldHit(FieldOf(s, q), m, v) == PlaneHit(s, p, q, m, v) {
      FieldOfStep(s, p, q, m, v);
    }
    var r := Bare(tag).(
      inbounds := inbounds, domain := FieldOf(s, NamePlane), ip := FieldOf(s, AddressPlane),
      process := FieldOf(s, AppPlane));
    assert StepRule(s, inbounds, tag) == [r];
    FieldsDecide(r, s, p, m, v);
  }

  function FieldOf(s: Step, q: Plane): seq<Spelling> {
    Spelled(s.entries, q) + Spelled(s.also, q)
  }

  /** What the field of plane `q` asks of a flow, for a step whose entries are of plane `p`. */
  predicate PlaneHit(s: Step, p: Plane, q: Plane, m: Matching, v: View) {
    if q == p then Any(s.entries, Hit(m, v))
    else p != AppPlane && q == Other(p) && s.also != [] ==> Any(s.also, Hit(m, v))
  }

  lemma FieldOfStep(s: Step, p: Plane, q: Plane, m: Matching, v: View)
    requires s.entries != [] && (s.also != [] ==> p != AppPlane)
    requires forall o :: o != p ==> Spelled(s.entries, o) == []
    requires FieldHit(Spelled(s.entries, p), m, v) == Any(s.entries, Hit(m, v))
    requires s.also != [] ==> FieldHit(Spelled(s.also, Other(p)), m, v) == Any(s.also, Hit(m, v))
    requires s.also != [] ==> forall o :: o != Other(p) ==> Spelled(s.also, o) == []
    ensures FieldHit(FieldOf(s, q), m, v) == PlaneHit(s, p, q, m, v)
  {
    if s.also == [] || q == p {
      assert FieldOf(s, q) == Spelled(s.entries, q);
    } else {
      assert FieldOf(s, q) == Spelled(s.also, q);
    }
  }

  lemma FieldsDecide(r: FieldRule, s: Step, p: Plane, m: Matching, v: View)
    requires !r.udpOnly && r.ports == [] && (s.also != [] ==> p != AppPlane)
    requires FieldHit(r.domain, m, v) == PlaneHit(s, p, NamePlane, m, v)
    requires FieldHit(r.ip, m, v) == PlaneHit(s, p, AddressPlane, m, v)
    requires FieldHit(r.process, m, v) == PlaneHit(s, p, AppPlane, m, v)
    ensures Applies(r, m, v) <==> (r.inbounds == [] || v.inbound in r.inbounds) && StepHit(s, Hit(m, v))
  {
  }

  lemma {:induction false} RouteConcat(a: seq<FieldRule>, b: seq<FieldRule>, m: Matching, v: View)
    ensures Route(a + b, m, v) == Or(Route(a, m, v), Route(b, m, v))
  {
    if a == [] {
      assert a + b == b;
    } else {
      assert (a + b)[1..] == a[1..] + b;
      RouteConcat(a[1..], b, m, v);
    }
  }

  lemma RouteOne(r: FieldRule, m: Matching, v: View)
    ensures Route([r], m, v) == if Applies(r, m, v) then Some(r.tag) else None
  {
  }

  // ---------------------------------------------------------------- the step that takes a flow

  function TakenBy(steps: seq<Step>, hit: Entry -> bool): (r: Option<Step>)
    ensures r.Some? ==> r.value in steps && StepHit(r.value, hit)
    ensures FirstStep(steps, hit) == if r.Some? then Some(r.value.target) else None
  {
    if steps == [] then None
    else if StepHit(steps[0], hit) then Some(steps[0])
    else TakenBy(steps[1..], hit)
  }

  lemma {:induction false} TakenConcat(a: seq<Step>, b: seq<Step>, hit: Entry -> bool)
    ensures TakenBy(a + b, hit) == Or(TakenBy(a, hit), TakenBy(b, hit))
  {
    if a == [] {
      assert a + b == b;
    } else {
      assert (a + b)[1..] == a[1..] + b;
      TakenConcat(a[1..], b, hit);
    }
  }

  lemma {:induction false} TierRulesRoute(steps: seq<Step>, tier: nat, own: bool, m: Matching, v: View)
    requires AllShaped(steps)
    ensures Route(TierRules(steps, tier, own), m, v)
         == match TakenBy(steps, Hit(m, v)) case None => None case Some(s) => Some(TagOf(s, tier, own))
  {
    if steps != [] {
      var front, s := steps[..|steps| - 1], steps[|steps| - 1];
      TierRulesRoute(front, tier, own, m, v);
      var rule := StepRule(s, [], TagOf(s, tier, own));
      assert s in steps;
      StepRuleApplies(s, [], TagOf(s, tier, own), m, v);
      assert rule == [rule[0]];
      RouteOne(rule[0], m, v);
      RouteConcat(TierRules(front, tier, own), rule, m, v);
      TakenConcat(front, [s], Hit(m, v));
      assert steps == front + [s];
    }
  }

  lemma {:induction false} BlockRulesRoute(steps: seq<Step>, inbounds: seq<Inbound>, m: Matching, v: View)
    requires AllShaped(steps) && forall s :: s in steps ==> IsPlainBlock(s)
    ensures Route(BlockRules(steps, inbounds), m, v)
         == if (inbounds == [] || v.inbound in inbounds) && FirstStep(steps, Hit(m, v)).Some?
            then Some(BlockTag) else None
  {
    if steps != [] {
      var front, s := steps[..|steps| - 1], steps[|steps| - 1];
      BlockRulesRoute(front, inbounds, m, v);
      var rule := StepRule(s, inbounds, BlockTag);
      assert s in steps;
      StepRuleApplies(s, inbounds, BlockTag, m, v);
      assert rule == [rule[0]];
      RouteOne(rule[0], m, v);
      RouteConcat(BlockRules(front, inbounds), rule, m, v);
      FirstStepConcat(front, [s], Hit(m, v));
      assert steps == front + [s];
    }
  }

  /** The block, direct or proxy a tag stands for, a tier's own direct outbound as direct. */
  function TagTarget(tag: Tag): Target {
    match tag
    case ProxyTag => Proxy
    case DirectTag => Direct
    case BlockTag => Block
    case TierDirect(_) => Direct
  }

  function TargetsOf(tag: Option<Tag>): Option<Target> {
    match tag
    case None => None
    case Some(t) => Some(TagTarget(t))
  }

  /** The tag of the first tier with a rule for the flow. */
  function TierTag(plans: seq<TierPlan>, m: Matching, v: View): Option<Tag> {
    if plans == [] then None
    else
      var n := |plans| - 1;
      Or(TierTag(plans[..n], m, v), Route(TierRules(plans[n].steps, n, plans[n].own), m, v))
  }

  lemma {:induction false} AllTierRulesRoute(plans: seq<TierPlan>, m: Matching, v: View)
    ensures Route(AllTierRules(plans), m, v) == TierTag(plans, m, v)
  {
    if plans != [] {
      var n := |plans| - 1;
      AllTierRulesRoute(plans[..n], m, v);
      RouteConcat(AllTierRules(plans[..n]), TierRules(plans[n].steps, n, plans[n].own), m, v);
    }
  }

  lemma StepsRouteTarget(steps: seq<Step>, tier: nat, own: bool, m: Matching, v: View)
    requires AllShaped(steps)
    ensures TargetsOf(Route(TierRules(steps, tier, own), m, v)) == FirstStep(steps, Hit(m, v))
  {
    TierRulesRoute(steps, tier, own, m, v);
    var taken := TakenBy(steps, Hit(m, v));
    if taken.Some? {
      TagOfTarget(taken.value, tier, own);
    }
  }

  lemma TagOfTarget(s: Step, tier: nat, own: bool)
    ensures TagTarget(TagOf(s, tier, own)) == s.target
  {
  }

  ghost predicate HoldSteps(lx: Lexicon, tiers: seq<Tier>, plans: seq<TierPlan>) {
    |plans| == |tiers| && forall i :: 0 <= i < |plans| ==> plans[i].steps == Steps(lx, tiers[i])
  }

  lemma PlansHoldSteps(lx: Lexicon, p: Profile)
    ensures HoldSteps(lx, p.tiers, Plans(lx, p))
  {
    forall i | 0 <= i < |p.tiers| ensures Plans(lx, p)[i].steps == Steps(lx, p.tiers[i]) {
      PlansAt(lx, p, p.tiers, i);
    }
  }

  lemma {:induction false} TierTagTarget(
      lx: Lexicon, tiers: seq<Tier>, plans: seq<TierPlan>, m: Matching, v: View)
    requires HoldSteps(lx, tiers, plans)
    ensures TargetsOf(TierTag(plans, m, v)) == TiersVerdict(lx, tiers, Hit(m, v))
  {
    if plans != [] {
      var n := |plans| - 1;
      TierTagTarget(lx, tiers[..n], plans[..n], m, v);
      StepsShaped(lx, tiers[n]);
      StepsRouteTarget(plans[n].steps, n, plans[n].own, m, v);
      LoweringPreservesMeaning(lx, tiers[n], Hit(m, v));
    }
  }

  // ---------------------------------------------------------------- the other rules

  /** Ports are 1 to 65535, as a flow's are. */
  ghost predicate RealPort(v: View) {
    1 <= v.port <= 65535
  }

  lemma KillRoute(p: Profile, m: Matching, v: View)
    requires RealPort(v)
    ensures Route(KillRules(p), m, v) == if KillSwitch(p, m, v) then Some(BlockTag) else None
  {
    assert Applies(NO_IPV6, m, v) == Matches(m, v, IPCIDR, "::/0") by {
      assert NO_IPV6.ip[0] in NO_IPV6.ip;
    }
    assert Applies(NO_UDP, m, v) == (v.udp && v.port != 53) by {
      assert NO_UDP.ports[0] in NO_UDP.ports && NO_UDP.ports[1] in NO_UDP.ports;
    }
    RouteOne(NO_IPV6, m, v);
    RouteOne(NO_UDP, m, v);
    RouteConcat(if p.disableIPv6 then [NO_IPV6] else [], if p.disableUDP then [NO_UDP] else [], m, v);
  }

  lemma LocalIPsHit(lx: Lexicon, m: Matching, v: View)
    requires Sound(lx, m)
    ensures FieldHit(LocalIPs(lx), m, v) == InLocalNetworks(lx, m, v)
  {
    var ips := LocalIPs(lx);
    if InLocalNetworks(lx, m, v) {
      var i :| 0 <= i < |lx.localNetworks| && Matches(m, v, IPCIDR, lx.localNetworks[i]);
      assert ips[i] in ips;
    }
  }

  lemma AnyDomainHit(lx: Lexicon, m: Matching, v: View)
    requires Sound(lx, m)
    ensures FieldHit([ANY_DOMAIN], m, v) == (v.name != "")
  {
    assert ANY_DOMAIN in [ANY_DOMAIN];
  }

  lemma AnyIPHit(lx: Lexicon, m: Matching, v: View)
    requires Sound(lx, m)
    ensures FieldHit(ANY_IP, m, v) == (v.ips != {})
  {
    assert ANY_IP[0] in ANY_IP && ANY_IP[1] in ANY_IP;
    if v.ips != {} {
      var a :| a in v.ips;
      assert m.address(IPCIDR, "0.0.0.0/0", a) || m.address(IPCIDR, "::/0", a);
    }
  }

  lemma RouteTwo(r: FieldRule, s: FieldRule, m: Matching, v: View)
    ensures Route([r, s], m, v)
         == if Applies(r, m, v) then Some(r.tag) else if Applies(s, m, v) then Some(s.tag) else None
  {
    assert [r, s][1..] == [s];
    RouteOne(s, m, v);
  }

  lemma ForceRoute(lx: Lexicon, p: Profile, blocks: seq<Step>, m: Matching, v: View)
    requires Sound(lx, m)
    requires AllShaped(blocks) && forall s :: s in blocks ==> IsPlainBlock(s)
    ensures v.inbound != ForceFlow ==> Route(ForceRules(lx, p, blocks), m, v) == None
    ensures v.inbound == ForceFlow ==>
      Route(ForceRules(lx, p, blocks), m, v)
      == Some(if FirstStep(blocks, Hit(m, v)).Some? then BlockTag
              else if GoesLocal(lx, p, m, v) then DirectTag
              else ProxyTag)
  {
    var named := Bare(ProxyTag).(inbounds := [ForceFlow], domain := [ANY_DOMAIN]);
    var lan := Bare(DirectTag).(inbounds := [ForceFlow], ip := LocalIPs(lx));
    var rest := Bare(ProxyTag).(inbounds := [ForceFlow]);
    var block, local := BlockRules(blocks, [ForceFlow]), if p.localNetworks then [named, lan] else [];
    BlockRulesRoute(blocks, [ForceFlow], m, v);
    AnyDomainHit(lx, m, v);
    LocalIPsHit(lx, m, v);
    RouteTwo(named, lan, m, v);
    RouteOne(rest, m, v);
    RouteConcat(block, local, m, v);
    RouteConcat(block + local, [rest], m, v);
  }

  lemma ClosingRoute(lx: Lexicon, p: Profile, waits: bool, m: Matching, v: View)
    requires Sound(lx, m)
    ensures Route(ClosingRules(lx, p, waits), m, v) == ClosingTag(lx, p, waits, m, v)
  {
    var named := Bare(ModeTag(p)).(
        inbounds := [AppTraffic], domain := [ANY_DOMAIN], ip := if waits then LocalIPs(lx) else []);
    var lan := Bare(DirectTag).(ip := LocalIPs(lx));
    var rest := Bare(ModeTag(p)).(inbounds := [AppTraffic], ip := if waits then ANY_IP else []);
    AnyDomainHit(lx, m, v);
    AnyIPHit(lx, m, v);
    LocalIPsHit(lx, m, v);
    RouteTwo(named, lan, m, v);
    RouteOne(rest, m, v);
    RouteConcat(if p.localNetworks then [named, lan] else [], [rest], m, v);
  }

  /** What the closing rules give a flow no tier took. */
  function ClosingTag(lx: Lexicon, p: Profile, waits: bool, m: Matching, v: View): Option<Tag> {
    if v.inbound != AppTraffic then
      if p.localNetworks && InLocalNetworks(lx, m, v) then Some(DirectTag) else None
    else if p.localNetworks && v.name != "" && (!waits || InLocalNetworks(lx, m, v)) then Some(ModeTag(p))
    else if p.localNetworks && InLocalNetworks(lx, m, v) then Some(DirectTag)
    else if waits && v.ips == {} then None
    else Some(ModeTag(p))
  }
}
