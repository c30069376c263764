/** mihomo's rule list for a profile (internal/mihomoconfig/mihomoconfig.go), its first-match
    reading, and the proof that it gives every flow what the policy says. */
module Mihomo {
  import opened Text
  import opened Routing
  import opened Meaning
  import opened Policy
  import opened Matchers

  /** A rule's condition. Address conditions carry no-resolve: they read the flow's own address. */
  datatype Cond =
    | Is(kind: MatchKind, value: string)
    | NetworkUDP
    | DstPort(port: nat)
    | InForceFlows
    | Not(c: Cond)
    | And(l: Cond, r: Cond)
    | OrOf(cs: seq<Cond>)

  /** The policy a line names: a built-in, or the proxy or group the links gave. */
  datatype Route = REJECT | DIRECT | Named(name: string)

  /** A rule line with its policy, a sub-rule, or the closing MATCH. */
  datatype Rule =
    | Line(cond: Cond, policy: Route)
    | SubRule(cond: Cond)
    | Match(policy: Route)

  /** The rules and the one sub-rule they enter, empty when there is none. */
  datatype RuleSet = RuleSet(rules: seq<Rule>, subRule: seq<Rule>)

  // ---------------------------------------------------------------- how mihomo reads them

  predicate Holds(c: Cond, m: Matching, v: View) {
    match c
    case Is(kind, value) => Matches(m, v, kind, value)
    case NetworkUDP => v.udp
    case DstPort(n) => v.port == n
    case InForceFlows => v.inbound == ForceFlow
    case Not(d) => !Holds(d, m, v)
    case And(l, r) => Holds(l, m, v) && Holds(r, m, v)
    case OrOf(cs) => exists d :: d in cs && Holds(d, m, v)
  }

  /** First match wins; a sub-rule none of whose lines match is passed over. */
  function First(rules: seq<Rule>, sub: seq<Rule>, m: Matching, v: View): Option<Route>
    decreases if sub == [] then 0 else 1, |rules|
  {
    if rules == [] then None
    else
      var here := match rules[0]
        case Line(c, policy) => if Holds(c, m, v) then Some(policy) else None
        case Match(policy) => Some(policy)
        case SubRule(c) => if Holds(c, m, v) && sub != [] then First(sub, [], m, v) else None;
      if here.Some? then here else First(rules[1..], sub, m, v)
  }

  function PolicyTarget(policy: Route): Target {
    match policy
    case REJECT => Block
    case DIRECT => Direct
    case Named(_) => Proxy
  }

  function Outcome(rs: RuleSet, m: Matching, v: View): Option<Target> {
    match First(rs.rules, rs.subRule, m, v)
    case None => None
    case Some(policy) => Some(PolicyTarget(policy))
  }

  // ---------------------------------------------------------------- the lists

  function RuleCondition(lx: Lexicon, e: Entry): Cond {
    Is(e.kind, if e.kind == IPCIDR then NormalizeCIDR(lx, e.value) else e.value)
  }

  function Conditions(lx: Lexicon, es: seq<Entry>): (cs: seq<Cond>)
    ensures |cs| == |es| && forall i :: 0 <= i < |es| ==> cs[i] == RuleCondition(lx, es[i])
  {
    seq(|es|, i requires 0 <= i < |es| => RuleCondition(lx, es[i]))
  }

  function AnyOf(operands: seq<Cond>): Option<Cond> {
    if operands == [] then None
    else if |operands| == 1 then Some(operands[0])
    else Some(OrOf(operands))
  }

  function LinesTo(cs: seq<Cond>, policy: Route): (lines: seq<Rule>)
    ensures |lines| == |cs| && forall i :: 0 <= i < |cs| ==> lines[i] == Line(cs[i], policy)
  {
    seq(|cs|, i requires 0 <= i < |cs| => Line(cs[i], policy))
  }

  function StepLines(lx: Lexicon, step: Step, policy: Route): seq<Rule> {
    if step.also == [] then LinesTo(Conditions(lx, step.entries), policy)
    else
      match (AnyOf(Conditions(lx, step.entries)), AnyOf(Conditions(lx, step.also)))
      case (Some(entries), Some(also)) => [Line(And(entries, also), policy)]
      case _ => []
  }

  function PolicyOf(t: Target, target: Route): Route {
    match t
    case Block => REJECT
    case Direct => DIRECT
    case Proxy => target
  }

  function LinesOfSteps(lx: Lexicon, steps: seq<Step>, target: Route): seq<Rule> {
    if steps == [] then []
    else
      var last := steps[|steps| - 1];
      LinesOfSteps(lx, steps[..|steps| - 1], target) + StepLines(lx, last, PolicyOf(last.target, target))
  }

  function CidrConditions(cidrs: seq<string>): (cs: seq<Cond>)
    ensures |cs| == |cidrs| && forall i :: 0 <= i < |cs| ==> cs[i] == Is(IPCIDR, cidrs[i])
  {
    seq(|cidrs|, i requires 0 <= i < |cidrs| => Is(IPCIDR, cidrs[i]))
  }

  /** Names keep off the local networks: DIRECT would dial the name. */
  function LocalLines(lx: Lexicon, p: Profile, named: Route): seq<Rule> {
    if p.localNetworks
    then [Line(Is(DomainRegex, "."), named)] + LinesTo(CidrConditions(lx.localNetworks), DIRECT)
    else []
  }

  predicate ForceFlowsNeedSubRule(p: Profile) {
    p.HasBlock() || p.localNetworks
  }

  function ForceFlowRules(lx: Lexicon, p: Profile, steps: seq<Step>, target: Route): seq<Rule> {
    LinesOfSteps(lx, PlainBlocks(steps), target) + LocalLines(lx, p, target) + [Match(target)]
  }

  const NO_IPV6 := Line(Is(IPCIDR, "::/0"), REJECT)
  const NO_UDP := Line(And(NetworkUDP, Not(DstPort(53))), REJECT)

  function KillLines(p: Profile): seq<Rule> {
    (if p.disableIPv6 then [NO_IPV6] else []) + (if p.disableUDP then [NO_UDP] else [])
  }

  function ForceLines(p: Profile, target: Route): seq<Rule> {
    [if ForceFlowsNeedSubRule(p) then SubRule(InForceFlows) else Line(InForceFlows, target),
     Line(InForceFlows, REJECT)]
  }

  function CatchAll(p: Profile, target: Route): Route {
    if p.DirectAll() then DIRECT else target
  }

  function MainRules(lx: Lexicon, p: Profile, steps: seq<Step>, target: Route, force: seq<Rule>): seq<Rule> {
    KillLines(p) + force + LinesOfSteps(lx, steps, target)
    + LocalLines(lx, p, CatchAll(p, target)) + [Match(CatchAll(p, target))]
  }

  function RulesFrom(lx: Lexicon, p: Profile, steps: seq<Step>, target: Route, forceProxy: bool): RuleSet {
    RuleSet(
      MainRules(lx, p, steps, target, if forceProxy then ForceLines(p, target) else []),
      if forceProxy && ForceFlowsNeedSubRule(p) then ForceFlowRules(lx, p, steps, target) else [])
  }

  function Rules(lx: Lexicon, p: Profile, target: Route, forceProxy: bool): RuleSet {
    RulesFrom(lx, p, AllSteps(lx, p.tiers), target, forceProxy)
  }

  // ---------------------------------------------------------------- the loops that build them

  method BuildConditions(lx: Lexicon, es: seq<Entry>) returns (operands: seq<Cond>)
    ensures operands == Conditions(lx, es)
  {
    operands := [];
    for i := 0 to |es|
      invariant operands == Conditions(lx, es[..i])
    {
      operands := operands + [RuleCondition(lx, es[i])];
    }
    assert es[..|es|] == es;
  }

  method BuildStepLines(lx: Lexicon, step: Step, policy: Route) returns (lines: seq<Rule>)
    ensures lines == StepLines(lx, step, policy)
  {
    lines := [];
    var operands := BuildConditions(lx, step.entries);
    if step.also == [] {
      for i := 0 to |operands|
        invariant lines == LinesTo(operands[..i], policy)
      {
        lines := lines + [Line(operands[i], policy)];
      }
      assert operands[..|operands|] == operands;
      return;
    }
    var others := BuildConditions(lx, step.also);
    var entries, also := AnyOf(operands), AnyOf(others);
    if entries.Some? && also.Some? {
      lines := [Line(And(entries.value, also.value), policy)];
    }
  }

  method BuildStepsLines(lx: Lexicon, steps: seq<Step>, target: Route) returns (lines: seq<Rule>)
    ensures lines == LinesOfSteps(lx, steps, target)
  {
    lines := [];
    for i := 0 to |steps|
      invariant lines == LinesOfSteps(lx, steps[..i], target)
    {
      assert steps[..i + 1][..i] == steps[..i];
      var more := BuildStepLines(lx, steps[i], PolicyOf(steps[i].target, target));
      lines := lines + more;
    }
    assert steps[..|steps|] == steps;
  }

  method BuildLocalLines(lx: Lexicon, p: Profile, named: Route) returns (lines: seq<Rule>)
    ensures lines == LocalLines(lx, p, named)
  {
    lines := [];
    if p.localNetworks {
      var cidrs := [];
      for i := 0 to |lx.localNetworks|
        invariant cidrs == LinesTo(CidrConditions(lx.localNetworks[..i]), DIRECT)
      {
        cidrs := cidrs + [Line(Is(IPCIDR, lx.localNetworks[i]), DIRECT)];
      }
      assert lx.localNetworks[..|lx.localNetworks|] == lx.localNetworks;
      lines := [Line(Is(DomainRegex, "."), named)] + cidrs;
    }
  }

  method BuildForceFlowRules(lx: Lexicon, p: Profile, steps: seq<Step>, target: Route) returns (rules: seq<Rule>)
    ensures rules == ForceFlowRules(lx, p, steps, target)
  {
    var blocks := KeepPlainBlocks(steps);
    rules := BuildStepsLines(lx, blocks, target);
    var local := BuildLocalLines(lx, p, target);
    rules := rules + local + [Match(target)];
  }

  method BuildKillLines(p: Profile) returns (rules: seq<Rule>)
    ensures rules == KillLines(p)
  {
    rules := [];
    if p.disableIPv6 {
      rules := rules + [NO_IPV6];
    }
    if p.disableUDP {
      rules := rules + [NO_UDP];
    }
  }

  method BuildRulesFrom(lx: Lexicon, p: Profile, steps: seq<Step>, target: Route, forceProxy: bool)
    returns (rs: RuleSet)
    ensures rs == RulesFrom(lx, p, steps, target, forceProxy)
  {
    var kill := BuildKillLines(p);
    var force, subRule := [], [];
    if forceProxy {
      var entry := Line(InForceFlows, target);
      if ForceFlowsNeedSubRule(p) {
        entry := SubRule(InForceFlows);
        subRule := BuildForceFlowRules(lx, p, steps, target);
      }
      force := [entry, Line(InForceFlows, REJECT)];
    }
    var tierLines := BuildStepsLines(lx, steps, target);
    var catchAll := if p.DirectAll() then DIRECT else target;
    var local := BuildLocalLines(lx, p, catchAll);
    rs := RuleSet(kill + force + tierLines + local + [Match(catchAll)], subRule);
  }

  /** `buildRules`, with the sub-rule `BuildConfig` adds beside it. */
  method BuildRules(lx: Lexicon, p: Profile, target: Route, forceProxy: bool) returns (rs: RuleSet)
    ensures rs == Rules(lx, p, target, forceProxy)
  {
    var steps := BuildAllSteps(lx, p.tiers);
    rs := BuildRulesFrom(lx, p, steps, target, forceProxy);
  }

  // ---------------------------------------------------------------- what the lists mean

  lemma {:induction false} FirstConcat(a: seq<Rule>, b: seq<Rule>, sub: seq<Rule>, m: Matching, v: View)
    ensures First(a + b, sub, m, v) == Or(First(a, sub, m, v), First(b, sub, m, v))
  {
    if a == [] {
      assert a + b == b;
    } else {
      assert (a + b)[1..] == a[1..] + b;
      FirstConcat(a[1..], b, sub, m, v);
    }
  }

  lemma {:induction false} LinesToFirst(cs: seq<Cond>, policy: Route, sub: seq<Rule>, m: Matching, v: View)
    ensures First(LinesTo(cs, policy), sub, m, v)
         == if exists c :: c in cs && Holds(c, m, v) then Some(policy) else None
  {
    if cs != [] {
      assert LinesTo(cs, policy)[1..] == LinesTo(cs[1..], policy);
      LinesToFirst(cs[1..], policy, sub, m, v);
      assert cs == [cs[0]] + cs[1..];
    }
  }

  lemma AnyOfHolds(cs: seq<Cond>, m: Matching, v: View)
    requires cs != []
    ensures AnyOf(cs).Some? && Holds(AnyOf(cs).value, m, v) == exists c :: c in cs && Holds(c, m, v)
  {
    assert cs[0] in cs;
  }

  /** An entry's condition holds of the flow exactly when the entry matches it. */
  ghost predicate Reads(lx: Lexicon, m: Matching, v: View, hit: Entry -> bool) {
    forall e :: Holds(RuleCondition(lx, e), m, v) == hit(e)
  }

  lemma ReadsHit(lx: Lexicon, m: Matching, v: View)
    requires Sound(lx, m)
    ensures Reads(lx, m, v, Hit(m, v))
  {
    forall e ensures Holds(RuleCondition(lx, e), m, v) == Hit(m, v)(e) {
      if e.kind == IPCIDR {
        assert forall a :: m.address(IPCIDR, NormalizeCIDR(lx, e.value), a) == m.address(IPCIDR, e.value, a);
      }
    }
  }

  lemma ConditionsHold(lx: Lexicon, es: seq<Entry>, m: Matching, v: View, hit: Entry -> bool)
    requires Reads(lx, m, v, hit)
    ensures (exists c :: c in Conditions(lx, es) && Holds(c, m, v)) <==> Any(es, hit)
  {
    var cs := Conditions(lx, es);
    if Any(es, hit) {
      var i :| 0 <= i < |es| && hit(es[i]);
      assert cs[i] in cs && Holds(cs[i], m, v);
    }
    if c :| c in cs && Holds(c, m, v) {
      var i :| 0 <= i < |cs| && cs[i] == c;
      assert es[i] in es && hit(es[i]);
    }
  }

  lemma StepLinesFirst(
      lx: Lexicon, s: Step, policy: Route, sub: seq<Rule>, m: Matching, v: View, hit: Entry -> bool)
    requires Reads(lx, m, v, hit)
    ensures First(StepLines(lx, s, policy), sub, m, v) == if StepHit(s, hit) then Some(policy) else None
  {
    ConditionsHold(lx, s.entries, m, v, hit);
    if s.also == [] {
      LinesToFirst(Conditions(lx, s.entries), policy, sub, m, v);
    } else {
      ConditionsHold(lx, s.also, m, v, hit);
      AnyOfHolds(Conditions(lx, s.also), m, v);
      if s.entries != [] {
        AnyOfHolds(Conditions(lx, s.entries), m, v);
      }
    }
  }

  function FlatLines(parts: seq<seq<Rule>>): seq<Rule> {
    if parts == [] then [] else FlatLines(parts[..|parts| - 1]) + parts[|parts| - 1]
  }

  lemma {:induction false} LinesAreFlat(lx: Lexicon, steps: seq<Step>, target: Route) returns (parts: seq<seq<Rule>>)
    ensures |parts| == |steps|
    ensures forall k :: 0 <= k < |steps| ==> parts[k] == StepLines(lx, steps[k], PolicyOf(steps[k].target, target))
    ensures LinesOfSteps(lx, steps, target) == FlatLines(parts)
  {
    if steps == [] {
      parts := [];
    } else {
      var last := steps[|steps| - 1];
      var front := LinesAreFlat(lx, steps[..|steps| - 1], target);
      parts := front + [StepLines(lx, last, PolicyOf(last.target, target))];
      assert parts[..|front|] == front;
    }
  }

  lemma {:induction false} FlatFirst(
      parts: seq<seq<Rule>>, steps: seq<Step>, target: Route, sub: seq<Rule>, m: Matching, v: View, hit: Entry -> bool)
    requires |parts| == |steps|
    requires forall k :: 0 <= k < |steps| ==>
      First(parts[k], sub, m, v) == if StepHit(steps[k], hit) then Some(PolicyOf(steps[k].target, target)) else None
    ensures First(FlatLines(parts), sub, m, v) == PolicyOfVerdict(FirstStep(steps, hit), target)
  {
    if steps != [] {
      var n := |steps| - 1;
      FlatFirst(parts[..n], steps[..n], target, sub, m, v, hit);
      LastStepJoins(FlatLines(parts[..n]), parts[n], steps[..n], steps[n], target, sub, m, v, hit);
      assert steps == steps[..n] + [steps[n]];
    }
  }

  lemma StepsFirst(
      lx: Lexicon, steps: seq<Step>, target: Route, sub: seq<Rule>, m: Matching, v: View, hit: Entry -> bool)
    requires Reads(lx, m, v, hit)
    ensures First(LinesOfSteps(lx, steps, target), sub, m, v) == PolicyOfVerdict(FirstStep(steps, hit), target)
  {
    var parts := LinesAreFlat(lx, steps, target);
    forall k | 0 <= k < |steps|
      ensures First(parts[k], sub, m, v)
           == if StepHit(steps[k], hit) then Some(PolicyOf(steps[k].target, target)) else None
    {
      StepLinesFirst(lx, steps[k], PolicyOf(steps[k].target, target), sub, m, v, hit);
    }
    FlatFirst(parts, steps, target, sub, m, v, hit);
  }

  function PolicyOfVerdict(verdict: Option<Target>, target: Route): Option<Route> {
    match verdict
    case None => None
    case Some(t) => Some(PolicyOf(t, target))
  }

  lemma LastStepJoins(
      a: seq<Rule>, b: seq<Rule>, front: seq<Step>, last: Step, target: Route,
      sub: seq<Rule>, m: Matching, v: View, hit: Entry -> bool)
    requires First(a, sub, m, v) == PolicyOfVerdict(FirstStep(front, hit), target)
    requires First(b, sub, m, v) == if StepHit(last, hit) then Some(PolicyOf(last.target, target)) else None
    ensures First(a + b, sub, m, v) == PolicyOfVerdict(FirstStep(front + [last], hit), target)
  {
    FirstConcat(a, b, sub, m, v);
    FirstStepConcat(front, [last], hit);
  }

  lemma LocalFirst(lx: Lexicon, p: Profile, named: Route, sub: seq<Rule>, m: Matching, v: View)
    requires Sound(lx, m)
    ensures First(LocalLines(lx, p, named), sub, m, v)
         == if !p.localNetworks then None
            else if v.name != "" then Some(named)
            else if InLocalNetworks(lx, m, v) then Some(DIRECT)
            else None
  {
    if p.localNetworks {
      var guard, cs := [Line(Is(DomainRegex, "."), named)], CidrConditions(lx.localNetworks);
      FirstConcat(guard, LinesTo(cs, DIRECT), sub, m, v);
      LinesToFirst(cs, DIRECT, sub, m, v);
      if InLocalNetworks(lx, m, v) {
        var i :| 0 <= i < |lx.localNetworks| && Matches(m, v, IPCIDR, lx.localNetworks[i]);
        assert cs[i] in cs && Holds(cs[i], m, v);
      }
    }
  }

  lemma KillLinesGive(sub: seq<Rule>, m: Matching, v: View)
    ensures First([NO_IPV6], sub, m, v) == if Matches(m, v, IPCIDR, "::/0") then Some(REJECT) else None
    ensures First([NO_UDP], sub, m, v) == if v.udp && v.port != 53 then Some(REJECT) else None
  {
    assert Holds(Not(DstPort(53)), m, v) == !Holds(DstPort(53), m, v);
    assert Holds(NO_UDP.cond, m, v) == (Holds(NetworkUDP, m, v) && Holds(Not(DstPort(53)), m, v));
  }

  lemma KillFirst(p: Profile, sub: seq<Rule>, m: Matching, v: View)
    ensures First(KillLines(p), sub, m, v) == if KillSwitch(p, m, v) then Some(REJECT) else None
  {
    KillLinesGive(sub, m, v);
    FirstConcat(if p.disableIPv6 then [NO_IPV6] else [], if p.disableUDP then [NO_UDP] else [], sub, m, v);
  }

  // ---------------------------------------------------------------- main results

  lemma FirstOfParts(
      kill: seq<Rule>, force: seq<Rule>, tiers: seq<Rule>, local: seq<Rule>, closing: Route,
      sub: seq<Rule>, m: Matching, v: View)
    ensures First(kill + force + tiers + local + [Match(closing)], sub, m, v)
         == Or(First(kill, sub, m, v),
            Or(First(force, sub, m, v),
            Or(First(tiers, sub, m, v),
            Or(First(local, sub, m, v), Some(closing)))))
  {
    FirstConcat(kill, force, sub, m, v);
    FirstOfThree(kill + force, tiers, local, sub, m, v);
    FirstClosing(kill + force + tiers + local, closing, sub, m, v);
  }

  lemma FirstClosing(a: seq<Rule>, closing: Route, sub: seq<Rule>, m: Matching, v: View)
    ensures First(a + [Match(closing)], sub, m, v) == Or(First(a, sub, m, v), Some(closing))
  {
    FirstConcat(a, [Match(closing)], sub, m, v);
  }

  lemma FirstOfThree(a: seq<Rule>, b: seq<Rule>, c: seq<Rule>, sub: seq<Rule>, m: Matching, v: View)
    ensures First(a + b + c, sub, m, v)
         == Or(First(a, sub, m, v), Or(First(b, sub, m, v), First(c, sub, m, v)))
  {
    FirstConcat(a, b, sub, m, v);
    FirstConcat(a + b, c, sub, m, v);
  }

  function AppRoute(lx: Lexicon, p: Profile, target: Route, m: Matching, v: View, verdict: Option<Target>): Route {
    if KillSwitch(p, m, v) then REJECT
    else if verdict.Some? then PolicyOf(verdict.value, target)
    else if GoesLocal(lx, p, m, v) then DIRECT
    else CatchAll(p, target)
  }

  /** The list an app flow meets, whatever stands in it for the per-app flows. */
  lemma AppFlowParts(
      lx: Lexicon, p: Profile, steps: seq<Step>, verdict: Option<Target>, target: Route,
      force: seq<Rule>, sub: seq<Rule>, m: Matching, v: View)
    requires Sound(lx, m) && FirstStep(steps, Hit(m, v)) == verdict
    requires First(force, sub, m, v) == None
    ensures First(MainRules(lx, p, steps, target, force), sub, m, v)
         == Some(AppRoute(lx, p, target, m, v, verdict))
  {
    var kill, tiers := KillLines(p), LinesOfSteps(lx, steps, target);
    var catchAll := CatchAll(p, target);
    var local := LocalLines(lx, p, catchAll);
    FirstOfParts(kill, force, tiers, local, catchAll, sub, m, v);
    KillFirst(p, sub, m, v);
    ReadsHit(lx, m, v);
    StepsFirst(lx, steps, target, sub, m, v, Hit(m, v));
    LocalFirst(lx, p, catchAll, sub, m, v);
  }

  lemma AppFlowsFrom(
      lx: Lexicon, p: Profile, steps: seq<Step>, verdict: Option<Target>, target: Route, forceProxy: bool,
      m: Matching, v: View)
    requires Sound(lx, m) && target.Named? && v.inbound == AppTraffic
    requires FirstStep(steps, Hit(m, v)) == verdict
    ensures Outcome(RulesFrom(lx, p, steps, target, forceProxy), m, v) == Some(AppDecision(lx, p, m, v, verdict))
  {
    var rules := RulesFrom(lx, p, steps, target, forceProxy);
    var force := if forceProxy then ForceLines(p, target) else [];
    AppFlowsSkipForceLines(p, target, rules.subRule, m, v);
    AppFlowParts(lx, p, steps, verdict, target, force, rules.subRule, m, v);
    AppRouteTarget(lx, p, target, m, v, verdict);
  }

  lemma AppRouteTarget(lx: Lexicon, p: Profile, target: Route, m: Matching, v: View, verdict: Option<Target>)
    requires target.Named?
    ensures PolicyTarget(AppRoute(lx, p, target, m, v, verdict)) == AppDecision(lx, p, m, v, verdict)
  {
  }

  lemma AppFlowsSkipForceLines(p: Profile, target: Route, sub: seq<Rule>, m: Matching, v: View)
    requires v.inbound == AppTraffic
    ensures First(ForceLines(p, target), sub, m, v) == None
  {
    var lines := ForceLines(p, target);
    assert lines == [lines[0]] + [lines[1]];
    FirstConcat([lines[0]], [lines[1]], sub, m, v);
  }

  /** Every app flow gets what the policy says. */
  lemma AppFlows(lx: Lexicon, p: Profile, target: Route, forceProxy: bool, m: Matching, v: View)
    requires Sound(lx, m) && target.Named? && v.inbound == AppTraffic
    ensures Outcome(Rules(lx, p, target, forceProxy), m, v) == Some(AppPolicy(lx, p, m, v))
  {
    AllStepsVerdict(lx, p.tiers, Hit(m, v));
    AppFlowsFrom(
      lx, p, AllSteps(lx, p.tiers), TiersVerdict(lx, p.tiers, Hit(m, v)), target, forceProxy, m, v);
  }

  lemma ForceFlowRulesFirst(lx: Lexicon, p: Profile, steps: seq<Step>, target: Route, m: Matching, v: View)
    requires Sound(lx, m)
    ensures First(ForceFlowRules(lx, p, steps, target), [], m, v)
         == Some(match FirstStep(PlainBlocks(steps), Hit(m, v))
                 case Some(t) => PolicyOf(t, target)
                 case None => if GoesLocal(lx, p, m, v) then DIRECT else target)
  {
    var blocks, local := LinesOfSteps(lx, PlainBlocks(steps), target), LocalLines(lx, p, target);
    ReadsHit(lx, m, v);
    StepsFirst(lx, PlainBlocks(steps), target, [], m, v, Hit(m, v));
    LocalFirst(lx, p, target, [], m, v);
    FirstConcat(blocks, local, [], m, v);
    FirstConcat(blocks + local, [Match(target)], [], m, v);
  }

  lemma ForceFlowsFrom(lx: Lexicon, p: Profile, steps: seq<Step>, target: Route, m: Matching, v: View)
    requires Sound(lx, m) && target.Named? && v.inbound == ForceFlow
    requires FirstStep(PlainBlocks(steps), Hit(m, v))
          == if AnyBlockMatches(lx, p.tiers, Hit(m, v)) then Some(Block) else None
    ensures Outcome(RulesFrom(lx, p, steps, target, true), m, v) == Some(ForcePolicy(lx, p, m, v))
  {
    var rs := RulesFrom(lx, p, steps, target, true);
    var sub, catchAll := rs.subRule, CatchAll(p, target);
    FirstOfParts(
      KillLines(p), ForceLines(p, target), LinesOfSteps(lx, steps, target), LocalLines(lx, p, catchAll), catchAll,
      sub, m, v);
    KillFirst(p, sub, m, v);
    if ForceFlowsNeedSubRule(p) {
      ForceFlowRulesFirst(lx, p, steps, target, m, v);
      assert sub == ForceFlowRules(lx, p, steps, target);
      assert sub != [];
      assert First(ForceLines(p, target), sub, m, v) == First(sub, [], m, v);
    } else {
      NoBlockListNoBlock(lx, p, Hit(m, v));
      assert First(ForceLines(p, target), sub, m, v) == Some(target);
    }
  }

  /** Every per-app VPN flow fails closed, with or without the sub-rule. */
  lemma ForceFlows(lx: Lexicon, p: Profile, target: Route, m: Matching, v: View)
    requires Sound(lx, m) && target.Named? && v.inbound == ForceFlow
    ensures Outcome(Rules(lx, p, target, true), m, v) == Some(ForcePolicy(lx, p, m, v))
  {
    AllPlainBlocks(lx, p.tiers, Hit(m, v));
    ForceFlowsFrom(lx, p, AllSteps(lx, p.tiers), target, m, v);
  }

  // ---------------------------------------------------------------- a proxy that cannot take the flow

  /** The rules as mihomo reads them for a flow some policy cannot carry, such as UDP through a proxy
      without it: a rule that matches and gives such a policy is passed over. */
  function FirstUsable(rules: seq<Rule>, sub: seq<Rule>, m: Matching, v: View, usable: Route -> bool): Option<Route> {
    if rules == [] then None
    else
      var here := First([rules[0]], sub, m, v);
      if here.Some? && usable(here.value) then here else FirstUsable(rules[1..], sub, m, v, usable)
  }

  lemma {:induction false} UsableConcat(
      a: seq<Rule>, b: seq<Rule>, sub: seq<Rule>, m: Matching, v: View, usable: Route -> bool)
    ensures FirstUsable(a + b, sub, m, v, usable)
         == Or(FirstUsable(a, sub, m, v, usable), FirstUsable(b, sub, m, v, usable))
  {
    if a == [] {
      assert a + b == b;
    } else {
      assert (a + b)[1..] == a[1..] + b;
      UsableConcat(a[1..], b, sub, m, v, usable);
    }
  }

  lemma UsableKill(p: Profile, sub: seq<Rule>, m: Matching, v: View, usable: Route -> bool)
    requires usable(REJECT)
    ensures FirstUsable(KillLines(p), sub, m, v, usable) == if KillSwitch(p, m, v) then Some(REJECT) else None
  {
    var ipv6, udp := if p.disableIPv6 then [NO_IPV6] else [], if p.disableUDP then [NO_UDP] else [];
    UsableConcat(ipv6, udp, sub, m, v, usable);
    assert [NO_IPV6][1..] == [] && [NO_UDP][1..] == [];
    KillLinesGive(sub, m, v);
  }

  /** Whatever the first line gives, what it gives and cannot be used is rejected by the second. */
  lemma UsableForce(first: Rule, sub: seq<Rule>, m: Matching, v: View, usable: Route -> bool)
    requires v.inbound == ForceFlow && usable(REJECT)
    ensures
      var given := First([first], sub, m, v);
      FirstUsable([first, Line(InForceFlows, REJECT)], sub, m, v, usable)
      == if given.Some? && usable(given.value) then given else Some(REJECT)
  {
    var lines := [first, Line(InForceFlows, REJECT)];
    assert lines[1..] == [Line(InForceFlows, REJECT)] && lines[1..][1..] == [];
    assert First([Line(InForceFlows, REJECT)], sub, m, v) == Some(REJECT);
  }

  /** A per-app flow that its proxy cannot carry is rejected, never passed on to the tiers. */
  lemma ForceFlowsStayInTheirLines(lx: Lexicon, p: Profile, target: Route, m: Matching, v: View, usable: Route -> bool)
    requires Sound(lx, m) && target.Named? && v.inbound == ForceFlow && usable(REJECT) && usable(DIRECT)
    ensures
      var rs := Rules(lx, p, target, true);
      FirstUsable(rs.rules, rs.subRule, m, v, usable)
      == match ForcePolicy(lx, p, m, v)
         case Block => Some(REJECT)
         case Direct => Some(DIRECT)
         case Proxy => if usable(target) then Some(target) else Some(REJECT)
  {
    AllPlainBlocks(lx, p.tiers, Hit(m, v));
    ForceLinesStay(lx, p, AllSteps(lx, p.tiers), target, m, v, usable);
  }

  lemma ForceLinesStay(
      lx: Lexicon, p: Profile, steps: seq<Step>, target: Route, m: Matching, v: View, usable: Route -> bool)
    requires Sound(lx, m) && target.Named? && v.inbound == ForceFlow && usable(REJECT) && usable(DIRECT)
    requires FirstStep(PlainBlocks(steps), Hit(m, v))
          == if AnyBlockMatches(lx, p.tiers, Hit(m, v)) then Some(Block) else None
    ensures
      var rs := RulesFrom(lx, p, steps, target, true);
      FirstUsable(rs.rules, rs.subRule, m, v, usable)
      == match ForcePolicy(lx, p, m, v)
         case Block => Some(REJECT)
         case Direct => Some(DIRECT)
         case Proxy => if usable(target) then Some(target) else Some(REJECT)
  {
    var sub, first := RulesFrom(lx, p, steps, target, true).subRule, ForceLines(p, target)[0];
    var rest := RestOfRules(lx, p, steps, target);
    RulesBehindForce(lx, p, steps, target);
    UsableInFront(p, first, rest, sub, m, v, usable);
    FirstForceLine(lx, p, steps, target, m, v);
  }

  function RestOfRules(lx: Lexicon, p: Profile, steps: seq<Step>, target: Route): seq<Rule> {
    LinesOfSteps(lx, steps, target) + LocalLines(lx, p, CatchAll(p, target)) + [Match(CatchAll(p, target))]
  }

  lemma RulesBehindForce(lx: Lexicon, p: Profile, steps: seq<Step>, target: Route)
    ensures RulesFrom(lx, p, steps, target, true).rules
         == KillLines(p) + [ForceLines(p, target)[0], Line(InForceFlows, REJECT)] + RestOfRules(lx, p, steps, target)
  {
    Regrouped(
      KillLines(p), ForceLines(p, target), LinesOfSteps(lx, steps, target), LocalLines(lx, p, CatchAll(p, target)),
      [Match(CatchAll(p, target))]);
  }

  lemma Regrouped(a: seq<Rule>, b: seq<Rule>, c: seq<Rule>, d: seq<Rule>, e: seq<Rule>)
    ensures a + b + c + d + e == a + b + (c + d + e)
  {
  }

  lemma UsableInFront(
      p: Profile, first: Rule, rest: seq<Rule>, sub: seq<Rule>, m: Matching, v: View, usable: Route -> bool)
    requires v.inbound == ForceFlow && usable(REJECT)
    ensures
      var given := First([first], sub, m, v);
      FirstUsable(KillLines(p) + [first, Line(InForceFlows, REJECT)] + rest, sub, m, v, usable)
      == if KillSwitch(p, m, v) then Some(REJECT)
         else if given.Some? && usable(given.value) then given else Some(REJECT)
  {
    var kill, force := KillLines(p), [first, Line(InForceFlows, REJECT)];
    UsableConcat(kill + force, rest, sub, m, v, usable);
    UsableConcat(kill, force, sub, m, v, usable);
    UsableKill(p, sub, m, v, usable);
    UsableForce(first, sub, m, v, usable);
  }

  lemma FirstForceLine(lx: Lexicon, p: Profile, steps: seq<Step>, target: Route, m: Matching, v: View)
    requires Sound(lx, m) && target.Named? && v.inbound == ForceFlow
    requires FirstStep(PlainBlocks(steps), Hit(m, v))
          == if AnyBlockMatches(lx, p.tiers, Hit(m, v)) then Some(Block) else None
    ensures
      !KillSwitch(p, m, v) ==>
        First([ForceLines(p, target)[0]], RulesFrom(lx, p, steps, target, true).subRule, m, v)
        == match ForcePolicy(lx, p, m, v)
           case Block => Some(REJECT)
           case Direct => Some(DIRECT)
           case Proxy => Some(target)
  {
    if ForceFlowsNeedSubRule(p) {
      ForceFlowRulesFirst(lx, p, steps, target, m, v);
      assert ForceFlowRules(lx, p, steps, target) != [];
    } else {
      NoBlockListNoBlock(lx, p, Hit(m, v));
    }
  }

  /** Every address condition is a network the parser reads. */
  lemma AddressConditionsAreNetworks(lx: Lexicon, t: Tier, e: Entry)
    requires ReadsHosts(lx) && e in Listed(lx, t) && e.kind == IPCIDR
    ensures RuleCondition(lx, e).Is? && RuleCondition(lx, e).kind == IPCIDR
    ensures lx.parseCIDR(RuleCondition(lx, e).value).Some?
  {
    ListedExactly(lx, t, e);
    var x :| x in ListOf(t, e.target) && Classify(lx, x) == Some((e.kind, e.value));
    AcceptedAddressIsANetwork(lx, x);
  }
}
