/** xray's field rules and direct outbounds for a profile (internal/xrayconfig/routing.go). */
module Xray {
  import opened Text
  import opened Routing
  import opened Policy

  /** Where a rule sends a flow: the proxy (or balancer), the plain direct outbound, a tier's own
      direct outbound, or the blackhole. */
  datatype Tag = ProxyTag | DirectTag | BlockTag | TierDirect(tier: nat)

  /** A matcher as it is spelled into a rule field. */
  datatype Spelling = Spelling(kind: MatchKind, value: string)

  /** xray ANDs the fields of one rule and ORs the matchers of one field; an empty field is absent. */
  datatype FieldRule = FieldRule(
    tag: Tag,
    inbounds: seq<Inbound>,
    domain: seq<Spelling>,
    ip: seq<Spelling>,
    process: seq<Spelling>,
    udpOnly: bool,
    ports: seq<(nat, nat)>)

  function Bare(tag: Tag): FieldRule {
    FieldRule(tag, [], [], [], [], false, [])
  }

  // ---------------------------------------------------------------- how xray reads a rule

  predicate FieldHit(field: seq<Spelling>, m: Matching, v: View) {
    field == [] || exists s :: s in field && Matches(m, v, s.kind, s.value)
  }

  predicate PortHit(ports: seq<(nat, nat)>, port: nat) {
    ports == [] || exists r :: r in ports && r.0 <= port <= r.1
  }

  predicate Applies(r: FieldRule, m: Matching, v: View) {
    && (r.inbounds == [] || v.inbound in r.inbounds)
    && FieldHit(r.domain, m, v)
    && FieldHit(r.ip, m, v)
    && FieldHit(r.process, m, v)
    && (r.udpOnly ==> v.udp)
    && PortHit(r.ports, v.port)
  }

  /** One pass over the rules. */
  function Route(rules: seq<FieldRule>, m: Matching, v: View): Option<Tag> {
    if rules == [] then None
    else if Applies(rules[0], m, v) then Some(rules[0].tag)
    else Route(rules[1..], m, v)
  }

  // ---------------------------------------------------------------- rules of steps

  /** A keyword, an address and an app are spelled by their value alone, so an empty one has no
      spelling. */
  predicate HasSpelling(e: Entry) {
    e.kind == DomainKeyword || e.kind == IPCIDR || e.kind == Process ==> e.value != ""
  }

  function Spelled(es: seq<Entry>, p: Plane): seq<Spelling> {
    if es == [] then []
    else
      var e := es[|es| - 1];
      Spelled(es[..|es| - 1], p)
      + (if HasSpelling(e) && e.Plane() == p then [Spelling(e.kind, e.value)] else [])
  }

  predicate AnySpelled(es: seq<Entry>) {
    exists e :: e in es && HasSpelling(e)
  }

  function StepRule(s: Step, inbounds: seq<Inbound>, tag: Tag): seq<FieldRule> {
    if !AnySpelled(s.entries) || !(s.also == [] || AnySpelled(s.also)) then []
    else [Bare(tag).(
      inbounds := inbounds,
      domain := Spelled(s.entries, NamePlane) + Spelled(s.also, NamePlane),
      ip := Spelled(s.entries, AddressPlane) + Spelled(s.also, AddressPlane),
      process := Spelled(s.entries, AppPlane) + Spelled(s.also, AppPlane))]
  }

  function BlockRules(steps: seq<Step>, inbounds: seq<Inbound>): seq<FieldRule> {
    if steps == [] then []
    else BlockRules(steps[..|steps| - 1], inbounds) + StepRule(steps[|steps| - 1], inbounds, BlockTag)
  }

  /** Which outbound a tier's step takes; `own` when the tier has a direct outbound of its own. */
  function TagOf(s: Step, tier: nat, own: bool): Tag {
    match s.target
    case Block => BlockTag
    case Proxy => ProxyTag
    case Direct => if own && s.entries != [] && s.entries[0].ByAddress() then TierDirect(tier) else DirectTag
  }

  function TierRules(steps: seq<Step>, tier: nat, own: bool): seq<FieldRule> {
    if steps == [] then []
    else
      var s := steps[|steps| - 1];
      TierRules(steps[..|steps| - 1], tier, own) + StepRule(s, [], TagOf(s, tier, own))
  }

  predicate IsDirectAddress(e: Entry) {
    e.target == Direct && e.ByAddress()
  }

  predicate HoldsDirectAddress(es: seq<Entry>) {
    exists e :: e in es && IsDirectAddress(e)
  }

  /** In proxy-all mode a tier with a direct address entry dials through its own outbound. */
  predicate OwnDirect(lx: Lexicon, p: Profile, t: Tier) {
    HoldsDirectAddress(Entries(lx, t)) && !p.DirectAll()
  }

  /** A tier ready to be spelled: its steps, whether it dials through its own outbound, and that
      outbound's final rules. */
  datatype TierPlan = TierPlan(steps: seq<Step>, own: bool, finals: seq<FinalRule>)

  function PlanOf(lx: Lexicon, p: Profile, t: Tier): TierPlan {
    TierPlan(
      Steps(lx, t), OwnDirect(lx, p, t),
      if OwnDirect(lx, p, t) then DirectFinalRules(Entries(lx, t)) else [])
  }

  function PlansOf(lx: Lexicon, p: Profile, tiers: seq<Tier>): (plans: seq<TierPlan>)
    ensures |plans| == |tiers|
  {
    if tiers == [] then []
    else PlansOf(lx, p, tiers[..|tiers| - 1]) + [PlanOf(lx, p, tiers[|tiers| - 1])]
  }

  lemma {:induction false} PlansAt(lx: Lexicon, p: Profile, tiers: seq<Tier>, i: nat)
    requires i < |tiers|
    ensures PlansOf(lx, p, tiers)[i] == PlanOf(lx, p, tiers[i])
  {
    if i < |tiers| - 1 {
      PlansAt(lx, p, tiers[..|tiers| - 1], i);
    }
  }

  function Plans(lx: Lexicon, p: Profile): seq<TierPlan> {
    PlansOf(lx, p, p.tiers)
  }

  function AllTierRules(plans: seq<TierPlan>): seq<FieldRule> {
    if plans == [] then []
    else
      var n := |plans| - 1;
      AllTierRules(plans[..n]) + TierRules(plans[n].steps, n, plans[n].own)
  }

  // ---------------------------------------------------------------- the other rules

  const NO_IPV6 := Bare(BlockTag).(ip := [Spelling(IPCIDR, "::/0")])
  const NO_UDP := Bare(BlockTag).(udpOnly := true, ports := [(1, 52), (54, 65535)])
  const ECHO := Bare(ProxyTag).(inbounds := [ExitEcho])
  const ANY_DOMAIN := Spelling(DomainRegex, ".")
  const ANY_IP := [Spelling(IPCIDR, "0.0.0.0/0"), Spelling(IPCIDR, "::/0")]

  function KillRules(p: Profile): seq<FieldRule> {
    (if p.disableIPv6 then [NO_IPV6] else []) + (if p.disableUDP then [NO_UDP] else [])
  }

  function LocalIPs(lx: Lexicon): (ips: seq<Spelling>)
    ensures |ips| == |lx.localNetworks|
    ensures forall i :: 0 <= i < |ips| ==> ips[i] == Spelling(IPCIDR, lx.localNetworks[i])
  {
    seq(|lx.localNetworks|, i requires 0 <= i < |lx.localNetworks| => Spelling(IPCIDR, lx.localNetworks[i]))
  }

  function ForceRules(lx: Lexicon, p: Profile, blocks: seq<Step>): seq<FieldRule> {
    BlockRules(blocks, [ForceFlow])
    + (if p.localNetworks
       then [Bare(ProxyTag).(inbounds := [ForceFlow], domain := [ANY_DOMAIN]),
             Bare(DirectTag).(inbounds := [ForceFlow], ip := LocalIPs(lx))]
       else [])
    + [Bare(ProxyTag).(inbounds := [ForceFlow])]
  }

  predicate TiersHoldIPs(lx: Lexicon, tiers: seq<Tier>) {
    exists t, e :: t in tiers && e in Entries(lx, t) && e.ByAddress()
  }

  /** The app's catch-all waits for a name to resolve only where an IP rule could still take it. */
  predicate WaitsForIPs(lx: Lexicon, p: Profile) {
    p.strategy == IPIfNonMatch && TiersHoldIPs(lx, p.tiers)
  }

  function ModeTag(p: Profile): Tag {
    if p.DirectAll() then DirectTag else ProxyTag
  }

  function ClosingRules(lx: Lexicon, p: Profile, waits: bool): seq<FieldRule> {
    (if p.localNetworks
     then [Bare(ModeTag(p)).(
             inbounds := [AppTraffic], domain := [ANY_DOMAIN], ip := if waits then LocalIPs(lx) else []),
           Bare(DirectTag).(ip := LocalIPs(lx))]
     else [])
    + [Bare(ModeTag(p)).(inbounds := [AppTraffic], ip := if waits then ANY_IP else [])]
  }

  /** The rules, from the tiers' own rules and blocks. */
  function RulesFrom(
      lx: Lexicon, p: Profile, tierRules: seq<FieldRule>, blocks: seq<Step>, perApp: bool, waits: bool)
    : seq<FieldRule>
  {
    KillRules(p) + [ECHO]
    + (if perApp then ForceRules(lx, p, blocks) else [])
    + tierRules
    + ClosingRules(lx, p, waits)
  }

  ghost function Rules(lx: Lexicon, p: Profile): seq<FieldRule> {
    RulesFrom(
      lx, p, AllTierRules(Plans(lx, p)), PlainBlocks(AllSteps(lx, p.tiers)),
      HasProcessProxy(lx, p.tiers), WaitsForIPs(lx, p))
  }

  // ---------------------------------------------------------------- a tier's direct outbound

  /** What a direct outbound does with the address it is about to dial; the first rule holding it
      decides, and the closing rule refuses every other. */
  datatype FinalRule = FinalRule(allow: bool, ip: seq<Spelling>)

  function ThroughLastDirect(addresses: seq<Entry>): (n: nat)
    ensures n <= |addresses|
    ensures forall k :: n <= k < |addresses| ==> addresses[k].target != Direct
  {
    if addresses == [] then 0
    else if addresses[|addresses| - 1].target == Direct then |addresses|
    else ThroughLastDirect(addresses[..|addresses| - 1])
  }

  function AddFinal(rules: seq<FinalRule>, e: Entry): seq<FinalRule> {
    var allow, n := IsDirectAddress(e), |rules|;
    if n > 0 && rules[n - 1].allow == allow
    then rules[n - 1 := rules[n - 1].(ip := rules[n - 1].ip + [Spelling(e.kind, e.value)])]
    else rules + [FinalRule(allow, [Spelling(e.kind, e.value)])]
  }

  function FinalsOf(addresses: seq<Entry>): seq<FinalRule> {
    if addresses == [] then []
    else AddFinal(FinalsOf(addresses[..|addresses| - 1]), addresses[|addresses| - 1])
  }

  function DirectFinalRules(entries: seq<Entry>): seq<FinalRule> {
    var addresses := OfPlane(entries, AddressPlane);
    FinalsOf(addresses[..ThroughLastDirect(addresses)])
  }

  predicate FinalHit(r: FinalRule, m: Matching, a: Addr) {
    exists s :: s in r.ip && m.address(s.kind, s.value, a)
  }

  predicate Allows(rules: seq<FinalRule>, m: Matching, a: Addr) {
    if rules == [] then false
    else if FinalHit(rules[0], m, a) then rules[0].allow
    else Allows(rules[1..], m, a)
  }

  // ---------------------------------------------------------------- building it all

  method AddMatchers(r: FieldRule, es: seq<Entry>) returns (out: FieldRule, matched: bool)
    ensures out == r.(domain := r.domain + Spelled(es, NamePlane),
                      ip := r.ip + Spelled(es, AddressPlane),
                      process := r.process + Spelled(es, AppPlane))
    ensures matched == AnySpelled(es)
  {
    var domain, ip, process := r.domain, r.ip, r.process;
    matched := false;
    for i := 0 to |es|
      invariant domain == r.domain + Spelled(es[..i], NamePlane)
      invariant ip == r.ip + Spelled(es[..i], AddressPlane)
      invariant process == r.process + Spelled(es[..i], AppPlane)
      invariant matched == AnySpelled(es[..i])
    {
      var e := es[i];
      SpelledStep(es, i, NamePlane);
      SpelledStep(es, i, AddressPlane);
      SpelledStep(es, i, AppPlane);
      AnySpelledStep(es, i);
      if HasSpelling(e) {
        matched := true;
        var s := [Spelling(e.kind, e.value)];
        match e.Plane()
        case NamePlane => domain := domain + s;
        case AddressPlane => ip := ip + s;
        case AppPlane => process := process + s;
      }
    }
    assert es[..|es|] == es;
    out := r.(domain := domain, ip := ip, process := process);
  }

  lemma SpelledStep(es: seq<Entry>, i: nat, p: Plane)
    requires i < |es|
    ensures Spelled(es[..i + 1], p)
         == Spelled(es[..i], p)
          + (if HasSpelling(es[i]) && es[i].Plane() == p then [Spelling(es[i].kind, es[i].value)] else [])
  {
    assert es[..i + 1][..i] == es[..i];
  }

  lemma AnySpelledStep(es: seq<Entry>, i: nat)
    requires i < |es|
    ensures AnySpelled(es[..i + 1]) <==> AnySpelled(es[..i]) || HasSpelling(es[i])
  {
    assert es[..i + 1] == es[..i] + [es[i]];
  }

  method BuildStepRule(s: Step, inbounds: seq<Inbound>, tag: Tag) returns (rules: seq<FieldRule>)
    ensures rules == StepRule(s, inbounds, tag)
  {
    var r, matched := AddMatchers(Bare(tag).(inbounds := inbounds), s.entries);
    assert r.domain == Spelled(s.entries, NamePlane);
    assert r.ip == Spelled(s.entries, AddressPlane);
    assert r.process == Spelled(s.entries, AppPlane);
    var also := s.also == [];
    var full, more := AddMatchers(r, s.also);
    if matched && (also || more) {
      rules := [full];
    } else {
      rules := [];
    }
  }

  method BuildTierRules(steps: seq<Step>, tier: nat, own: bool) returns (rules: seq<FieldRule>)
    ensures rules == TierRules(steps, tier, own)
  {
    rules := [];
    for i := 0 to |steps|
      invariant rules == TierRules(steps[..i], tier, own)
    {
      assert steps[..i + 1][..i] == steps[..i];
      var more := BuildStepRule(steps[i], [], TagOf(steps[i], tier, own));
      rules := rules + more;
    }
    assert steps[..|steps|] == steps;
  }

  method BuildBlockRules(steps: seq<Step>, inbounds: seq<Inbound>) returns (rules: seq<FieldRule>)
    ensures rules == BlockRules(steps, inbounds)
  {
    rules := [];
    for i := 0 to |steps|
      invariant rules == BlockRules(steps[..i], inbounds)
    {
      assert steps[..i + 1][..i] == steps[..i];
      var more := BuildStepRule(steps[i], inbounds, BlockTag);
      rules := rules + more;
    }
    assert steps[..|steps|] == steps;
  }

  method BuildDirectFinalRules(entries: seq<Entry>) returns (rules: seq<FinalRule>)
    ensures rules == DirectFinalRules(entries)
  {
    var addresses, end := CollectAddresses(entries);
    rules := MergeFinals(addresses[..end]);
  }

  method CollectAddresses(entries: seq<Entry>) returns (addresses: seq<Entry>, end: nat)
    ensures addresses == OfPlane(entries, AddressPlane) && end == ThroughLastDirect(addresses)
  {
    addresses, end := [], 0;
    for i := 0 to |entries|
      invariant addresses == OfPlane(entries[..i], AddressPlane)
      invariant end == ThroughLastDirect(addresses)
    {
      assert entries[..i + 1][..i] == entries[..i];
      var e := entries[i];
      if e.ByAddress() {
        addresses := addresses + [e];
        assert addresses[..|addresses| - 1] == OfPlane(entries[..i], AddressPlane);
      }
      if IsDirectAddress(e) {
        end := |addresses|;
      }
    }
    assert entries[..|entries|] == entries;
  }

  method MergeFinals(kept: seq<Entry>) returns (rules: seq<FinalRule>)
    ensures rules == FinalsOf(kept)
  {
    rules := [];
    for i := 0 to |kept|
      invariant rules == FinalsOf(kept[..i])
    {
      assert kept[..i + 1][..i] == kept[..i];
      var e := kept[i];
      var allow, n := IsDirectAddress(e), |rules|;
      if n > 0 && rules[n - 1].allow == allow {
        rules := rules[n - 1 := rules[n - 1].(ip := rules[n - 1].ip + [Spelling(e.kind, e.value)])];
      } else {
        rules := rules + [FinalRule(allow, [Spelling(e.kind, e.value)])];
      }
    }
    assert kept[..|kept|] == kept;
  }

  /** An outbound: a proxy of the links, a direct one with its final rules, or the blackhole. */
  datatype Outbound = Outbound(tag: Tag, finals: Option<seq<FinalRule>>)

  predicate HasOutbound(obs: seq<Outbound>, tag: Tag) {
    exists o :: o in obs && o.tag == tag
  }

  function Ensured(obs: seq<Outbound>, o: Outbound): seq<Outbound> {
    if HasOutbound(obs, o.tag) then obs else obs + [o]
  }

  function WithTierOutbounds(plans: seq<TierPlan>, obs: seq<Outbound>): seq<Outbound> {
    if plans == [] then obs
    else
      var n := |plans| - 1;
      var front := WithTierOutbounds(plans[..n], obs);
      if plans[n].own then Ensured(front, Outbound(TierDirect(n), Some(plans[n].finals))) else front
  }

  function NeedDirect(p: Profile): bool {
    p.DirectAll() || p.localNetworks || p.HasDirect()
  }

  function NeedBlock(p: Profile): bool {
    p.HasBlock() || p.disableIPv6 || p.disableUDP
  }

  function WithPlainOutbounds(p: Profile, obs: seq<Outbound>): seq<Outbound> {
    var direct := if NeedDirect(p) then Ensured(obs, Outbound(DirectTag, None)) else obs;
    if NeedBlock(p) then Ensured(direct, Outbound(BlockTag, None)) else direct
  }

  function Outbounds(lx: Lexicon, p: Profile, obs: seq<Outbound>): seq<Outbound> {
    WithTierOutbounds(Plans(lx, p), WithPlainOutbounds(p, obs))
  }

  /** The parts of xray's config `applyRouting` writes. */
  class Config {
    var outbounds: seq<Outbound>
    var rules: seq<FieldRule>
    var strategy: Strategy

    constructor (outbounds: seq<Outbound>)
      ensures this.outbounds == outbounds && rules == [] && strategy == AsIs
    {
      this.outbounds, rules, strategy := outbounds, [], AsIs;
    }

    method EnsureOutbound(o: Outbound)
      modifies this`outbounds
      ensures outbounds == Ensured(old(outbounds), o)
      ensures HasOutbound(old(outbounds), o.tag) ==> outbounds == old(outbounds)
      ensures !HasOutbound(old(outbounds), o.tag) ==> outbounds == old(outbounds) + [o]
    {
      if HasOutbound(outbounds, o.tag) {
        return;
      }
      outbounds := outbounds + [o];
    }

    method AddTiers(plans: seq<TierPlan>) returns (tierRules: seq<FieldRule>)
      modifies this`outbounds
      ensures tierRules == AllTierRules(plans)
      ensures outbounds == WithTierOutbounds(plans, old(outbounds))
    {
      tierRules := [];
      for i := 0 to |plans|
        invariant tierRules == AllTierRules(plans[..i])
        invariant outbounds == WithTierOutbounds(plans[..i], old(outbounds))
      {
        assert plans[..i + 1][..i] == plans[..i];
        if plans[i].own {
          EnsureOutbound(Outbound(TierDirect(i), Some(plans[i].finals)));
        }
        var more := BuildTierRules(plans[i].steps, i, plans[i].own);
        tierRules := tierRules + more;
      }
      assert plans[..|plans|] == plans;
    }

    method AddPlainOutbounds(p: Profile)
      modifies this`outbounds
      ensures outbounds == WithPlainOutbounds(p, old(outbounds))
    {
      if NeedDirect(p) {
        EnsureOutbound(Outbound(DirectTag, None));
      }
      if NeedBlock(p) {
        EnsureOutbound(Outbound(BlockTag, None));
      }
    }

    /** `applyRouting`: the whole rule list and the outbounds it names. */
    method ApplyRouting(lx: Lexicon, p: Profile)
      modifies this
      ensures rules == Rules(lx, p)
      ensures outbounds == Outbounds(lx, p, old(outbounds))
      ensures strategy == p.strategy
    {
      AddPlainOutbounds(p);
      var waits := TierEntriesWait(lx, p);
      var perApp := AnyProcessProxy(lx, p.tiers);
      var force := [];
      if perApp {
        force := BuildForceRules(lx, p);
      }
      var plans := BuildPlans(lx, p);
      var tierRules := AddTiers(plans);
      rules := KillRules(p) + [ECHO] + force + tierRules + ClosingRules(lx, p, waits);
      strategy := p.strategy;
    }
  }

  method BuildPlan(lx: Lexicon, p: Profile, t: Tier) returns (plan: TierPlan)
    ensures plan == PlanOf(lx, p, t)
  {
    var entries := CollectEntries(lx, t);
    var steps := LowerEntries(entries);
    plan := TierPlan(steps, false, []);
    if HoldsDirectAddress(entries) && !p.DirectAll() {
      var finals := BuildDirectFinalRules(entries);
      plan := plan.(own := true, finals := finals);
    }
  }

  method BuildPlans(lx: Lexicon, p: Profile) returns (plans: seq<TierPlan>)
    ensures plans == Plans(lx, p)
  {
    plans := [];
    for i := 0 to |p.tiers|
      invariant plans == PlansOf(lx, p, p.tiers[..i])
    {
      assert p.tiers[..i + 1][..i] == p.tiers[..i];
      var plan := BuildPlan(lx, p, p.tiers[i]);
      plans := plans + [plan];
    }
    assert p.tiers[..|p.tiers|] == p.tiers;
  }

  method BuildForceRules(lx: Lexicon, p: Profile) returns (rules: seq<FieldRule>)
    ensures rules == ForceRules(lx, p, PlainBlocks(AllSteps(lx, p.tiers)))
  {
    var steps := BuildAllSteps(lx, p.tiers);
    var blocks := KeepPlainBlocks(steps);
    rules := BuildBlockRules(blocks, [ForceFlow]);
    var local := [];
    if p.localNetworks {
      local := [Bare(ProxyTag).(inbounds := [ForceFlow], domain := [ANY_DOMAIN]),
                Bare(DirectTag).(inbounds := [ForceFlow], ip := LocalIPs(lx))];
    }
    rules := rules + local + [Bare(ProxyTag).(inbounds := [ForceFlow])];
  }

  method TierEntriesWait(lx: Lexicon, p: Profile) returns (waits: bool)
    ensures waits == WaitsForIPs(lx, p)
  {
    waits := false;
    if p.strategy == IPIfNonMatch {
      for i := 0 to |p.tiers|
        invariant waits == TiersHoldIPs(lx, p.tiers[..i])
      {
        assert p.tiers[..i + 1] == p.tiers[..i] + [p.tiers[i]];
        var entries := CollectEntries(lx, p.tiers[i]);
        waits := waits || exists e :: e in entries && e.ByAddress();
        TiersHoldIPsStep(lx, p.tiers, i);
      }
      assert p.tiers[..|p.tiers|] == p.tiers;
    }
  }

  lemma TiersHoldIPsStep(lx: Lexicon, tiers: seq<Tier>, i: nat)
    requires i < |tiers|
    ensures TiersHoldIPs(lx, tiers[..i + 1])
        <==> TiersHoldIPs(lx, tiers[..i]) || exists e :: e in Entries(lx, tiers[i]) && e.ByAddress()
  {
    assert tiers[..i + 1] == tiers[..i] + [tiers[i]];
    assert tiers[i] in tiers[..i + 1];
    if TiersHoldIPs(lx, tiers[..i]) {
      var t, e :| t in tiers[..i] && e in Entries(lx, t) && e.ByAddress();
      assert t in tiers[..i + 1];
    }
  }
}
