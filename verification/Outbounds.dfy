/** Every outbound an xray rule names is there, and a tier's own direct outbound is its own. */
module Outbounds {
  import opened Text
  import opened Routing
  import opened Meaning
  import opened Algebra
  import opened Policy
  import opened Xray
  import opened Agreement

  predicate HasTarget(es: seq<Entry>, target: Target) {
    exists k :: 0 <= k < |es| && es[k].target == target
  }

  lemma {:induction false} GuardTargetListed(run: seq<Entry>, target: Target, other: seq<Entry>, s: Step)
    requires s in Guards(run, target, other)
    ensures s.target == target || (s.target == Block && HasTarget(other, Block))
  {
    var front, e := other[..|other| - 1], other[|other| - 1];
    var before := Guards(run, target, front);
    if e.target == Block {
      assert other[|other| - 1].target == Block;
    }
    if s in before {
      GuardTargetListed(run, target, front, s);
      HasTargetGrows(front, other, Block);
    } else if before != [] && before[|before| - 1].target == s.target {
      GuardTargetListed(run, target, front, before[|before| - 1]);
      HasTargetGrows(front, other, Block);
    }
  }

  lemma HasTargetGrows(front: seq<Entry>, es: seq<Entry>, target: Target)
    requires front <= es
    ensures HasTarget(front, target) ==> HasTarget(es, target)
  {
  }

  lemma OfPlaneTargets(es: seq<Entry>, p: Plane, n: nat, target: Target)
    requires n <= |OfPlane(es, p)| && HasTarget(OfPlane(es, p)[..n], target)
    ensures HasTarget(es, target)
  {
    OfPlaneMembers(es, p);
    var k :| 0 <= k < n && OfPlane(es, p)[k].target == target;
    assert OfPlane(es, p)[k] in es;
    var i :| 0 <= i < |es| && es[i] == OfPlane(es, p)[k];
  }

  /** The outcome of a step is that of some entry. */
  lemma {:induction false} StepTargets(es: seq<Entry>, i: nat, s: Step)
    requires i <= |es| && s in StepsFrom(es, i)
    ensures HasTarget(es, s.target)
    decreases |es| - i
  {
    var j := RunEnd(es, i, i + 1);
    if s in RunSteps(es, i, j) {
      RunTargetListed(es, i, j, s);
    } else {
      StepTargets(es, j, s);
    }
  }

  lemma RunTargetListed(es: seq<Entry>, i: nat, j: nat, s: Step)
    requires i < j <= |es| && s in RunSteps(es, i, j)
    ensures HasTarget(es, s.target)
  {
    if s.target != es[i].target {
      var other := OfPlane(es, Other(es[i].Plane()));
      var n := ThroughLastBlock(other);
      GuardTargetListed(es[i..j], es[i].target, other[..n], s);
      OfPlaneTargets(es, Other(es[i].Plane()), n, Block);
    }
  }

  lemma ListedTargets(lx: Lexicon, t: Tier, e: Entry)
    requires e in Entries(lx, t)
    ensures ListOf(t, e.target) != []
  {
    EntriesAreListed(lx, t);
    EntryTargets(lx, t.block, Block);
    EntryTargets(lx, t.direct, Direct);
    EntryTargets(lx, t.proxy, Proxy);
  }

  lemma TierStepTargets(lx: Lexicon, t: Tier, s: Step)
    requires s in Steps(lx, t)
    ensures ListOf(t, s.target) != []
  {
    StepTargets(Entries(lx, t), 0, s);
    var k :| 0 <= k < |Entries(lx, t)| && Entries(lx, t)[k].target == s.target;
    ListedTargets(lx, t, Entries(lx, t)[k]);
  }

  // ---------------------------------------------------------------- what rules name

  lemma {:induction false} TierRuleComesFrom(steps: seq<Step>, tier: nat, own: bool, r: FieldRule) returns (s: Step)
    requires r in TierRules(steps, tier, own)
    ensures s in steps && r.tag == TagOf(s, tier, own) && r in StepRule(s, [], r.tag)
  {
    s := steps[|steps| - 1];
    if r !in StepRule(s, [], TagOf(s, tier, own)) {
      s := TierRuleComesFrom(steps[..|steps| - 1], tier, own, r);
    }
  }

  lemma {:induction false} AllTierRulesComeFrom(plans: seq<TierPlan>, r: FieldRule) returns (i: nat, s: Step)
    requires r in AllTierRules(plans)
    ensures i < |plans| && s in plans[i].steps && r.tag == TagOf(s, i, plans[i].own) && r in StepRule(s, [], r.tag)
  {
    i := |plans| - 1;
    if r in TierRules(plans[i].steps, i, plans[i].own) {
      s := TierRuleComesFrom(plans[i].steps, i, plans[i].own, r);
    } else {
      i, s := AllTierRulesComeFrom(plans[..i], r);
    }
  }

  lemma {:induction false} BlockRuleComesFrom(steps: seq<Step>, inbounds: seq<Inbound>, r: FieldRule) returns (s: Step)
    requires r in BlockRules(steps, inbounds)
    ensures s in steps && r.tag == BlockTag && r in StepRule(s, inbounds, BlockTag)
  {
    s := steps[|steps| - 1];
    if r !in StepRule(s, inbounds, BlockTag) {
      s := BlockRuleComesFrom(steps[..|steps| - 1], inbounds, r);
    }
  }

  lemma {:induction false} AllStepsComeFrom(lx: Lexicon, tiers: seq<Tier>, s: Step) returns (t: Tier)
    requires s in AllSteps(lx, tiers)
    ensures t in tiers && s in Steps(lx, t)
  {
    t := tiers[|tiers| - 1];
    if s !in Steps(lx, t) {
      t := AllStepsComeFrom(lx, tiers[..|tiers| - 1], s);
    }
  }

  lemma BlocksNeedABlockList(lx: Lexicon, p: Profile)
    requires PlainBlocks(AllSteps(lx, p.tiers)) != []
    ensures p.HasBlock()
  {
    var steps := AllSteps(lx, p.tiers);
    PlainBlocksMembers(steps);
    var s := PlainBlocks(steps)[0];
    var t := AllStepsComeFrom(lx, p.tiers, s);
    TierStepTargets(lx, t, s);
  }

  // ---------------------------------------------------------------- what the outbounds hold

  lemma {:induction false} TierOutboundsKeep(plans: seq<TierPlan>, obs: seq<Outbound>, o: Outbound)
    requires o in obs
    ensures o in WithTierOutbounds(plans, obs)
  {
    if plans != [] {
      TierOutboundsKeep(plans[..|plans| - 1], obs, o);
    }
  }

  lemma {:induction false} OwnTierHasOutbound(plans: seq<TierPlan>, obs: seq<Outbound>, i: nat)
    requires i < |plans| && plans[i].own
    ensures HasOutbound(WithTierOutbounds(plans, obs), TierDirect(i))
  {
    var n := |plans| - 1;
    var front := WithTierOutbounds(plans[..n], obs);
    if i < n {
      OwnTierHasOutbound(plans[..n], obs, i);
      var o :| o in front && o.tag == TierDirect(i);
      assert o in WithTierOutbounds(plans, obs);
    } else {
      var o := Outbound(TierDirect(n), Some(plans[n].finals));
      assert o in front + [o];
    }
  }

  lemma PlainOutboundsHold(p: Profile, obs: seq<Outbound>)
    ensures NeedDirect(p) ==> HasOutbound(WithPlainOutbounds(p, obs), DirectTag)
    ensures NeedBlock(p) ==> HasOutbound(WithPlainOutbounds(p, obs), BlockTag)
  {
    var direct, block := Outbound(DirectTag, None), Outbound(BlockTag, None);
    var first := if NeedDirect(p) then Ensured(obs, direct) else obs;
    EnsuredHolds(obs, direct);
    EnsuredHolds(first, block);
    if NeedDirect(p) {
      var o :| o in first && o.tag == DirectTag;
      assert o in WithPlainOutbounds(p, obs);
    }
  }

  lemma EnsuredHolds(obs: seq<Outbound>, o: Outbound)
    ensures HasOutbound(Ensured(obs, o), o.tag)
    ensures forall x :: x in obs ==> x in Ensured(obs, o)
  {
    assert o in obs + [o];
  }

  lemma PlainTagHolds(lx: Lexicon, p: Profile, obs: seq<Outbound>, tag: Tag)
    requires (tag == DirectTag && NeedDirect(p)) || (tag == BlockTag && NeedBlock(p))
    ensures HasOutbound(Outbounds(lx, p, obs), tag)
  {
    PlainOutboundsHold(p, obs);
    var o :| o in WithPlainOutbounds(p, obs) && o.tag == tag;
    TierOutboundsKeep(Plans(lx, p), WithPlainOutbounds(p, obs), o);
  }

  lemma TierRuleTagHolds(lx: Lexicon, p: Profile, obs: seq<Outbound>, r: FieldRule)
    requires r in AllTierRules(Plans(lx, p)) && r.tag != ProxyTag
    ensures HasOutbound(Outbounds(lx, p, obs), r.tag)
  {
    var plans := Plans(lx, p);
    var i, s := AllTierRulesComeFrom(plans, r);
    PlansAt(lx, p, p.tiers, i);
    TierStepTargets(lx, p.tiers[i], s);
    assert p.tiers[i] in p.tiers;
    if r.tag.TierDirect? {
      OwnTierHasOutbound(plans, WithPlainOutbounds(p, obs), i);
    } else {
      PlainTagHolds(lx, p, obs, r.tag);
    }
  }

  lemma ForceRuleTagHolds(lx: Lexicon, p: Profile, obs: seq<Outbound>, r: FieldRule)
    requires r in ForceRules(lx, p, PlainBlocks(AllSteps(lx, p.tiers))) && r.tag != ProxyTag
    ensures HasOutbound(Outbounds(lx, p, obs), r.tag)
  {
    var blocks := PlainBlocks(AllSteps(lx, p.tiers));
    if r in BlockRules(blocks, [ForceFlow]) {
      var s := BlockRuleComesFrom(blocks, [ForceFlow], r);
      BlocksNeedABlockList(lx, p);
    }
    PlainTagHolds(lx, p, obs, r.tag);
  }

  /** Every rule sends flows to the proxy or to an outbound that exists. */
  lemma NamedOutboundsExist(lx: Lexicon, p: Profile, obs: seq<Outbound>, r: FieldRule)
    requires r in Rules(lx, p) && r.tag != ProxyTag
    ensures HasOutbound(Outbounds(lx, p, obs), r.tag)
  {
    if r in AllTierRules(Plans(lx, p)) {
      TierRuleTagHolds(lx, p, obs, r);
    } else if r in ForceRules(lx, p, PlainBlocks(AllSteps(lx, p.tiers))) {
      ForceRuleTagHolds(lx, p, obs, r);
    } else {
      assert r in KillRules(p) || r in ClosingRules(lx, p, WaitsForIPs(lx, p));
      PlainTagHolds(lx, p, obs, r.tag);
    }
  }

  // ---------------------------------------------------------------- a tier's own outbound

  predicate NoTierTags(obs: seq<Outbound>) {
    forall o :: o in obs ==> !o.tag.TierDirect?
  }

  lemma {:induction false} TierOutboundIsItsOwn(plans: seq<TierPlan>, obs: seq<Outbound>, o: Outbound)
    requires NoTierTags(obs) && o in WithTierOutbounds(plans, obs) && o.tag.TierDirect?
    ensures o.tag.tier < |plans| && plans[o.tag.tier].own && o.finals == Some(plans[o.tag.tier].finals)
  {
    if plans != [] && o in WithTierOutbounds(plans[..|plans| - 1], obs) {
      TierOutboundIsItsOwn(plans[..|plans| - 1], obs, o);
    }
  }

  /** The outbound a tier's address rules dial through carries exactly the final rules of that tier. */
  lemma TierOutboundCarriesItsFinalRules(lx: Lexicon, p: Profile, obs: seq<Outbound>, o: Outbound)
    requires NoTierTags(obs) && o in Outbounds(lx, p, obs) && o.tag.TierDirect?
    ensures o.tag.tier < |p.tiers| && OwnDirect(lx, p, p.tiers[o.tag.tier])
    ensures o.finals == Some(DirectFinalRules(Entries(lx, p.tiers[o.tag.tier])))
  {
    var plans := Plans(lx, p);
    TierOutboundIsItsOwn(plans, WithPlainOutbounds(p, obs), o);
    PlansAt(lx, p, p.tiers, o.tag.tier);
  }

  // ---------------------------------------------------------------- what is added to the links' own

  lemma {:induction false} TierOutboundsExtend(plans: seq<TierPlan>, obs: seq<Outbound>)
    ensures obs <= WithTierOutbounds(plans, obs)
  {
    if plans != [] {
      TierOutboundsExtend(plans[..|plans| - 1], obs);
    }
  }

  /** The outbounds of the links stay in front, as they were. */
  lemma OutboundsExtend(lx: Lexicon, p: Profile, obs: seq<Outbound>)
    ensures obs <= Outbounds(lx, p, obs)
  {
    TierOutboundsExtend(Plans(lx, p), WithPlainOutbounds(p, obs));
  }

  /** From place `n` on no outbound has the tag of one before it. */
  predicate NewTagsFrom(obs: seq<Outbound>, n: nat) {
    forall i, j :: 0 <= i < j < |obs| && n <= j ==> obs[i].tag != obs[j].tag
  }

  lemma EnsuredKeepsTagsNew(obs: seq<Outbound>, n: nat, o: Outbound)
    requires n <= |obs| && NewTagsFrom(obs, n)
    ensures NewTagsFrom(Ensured(obs, o), n)
  {
  }

  lemma {:induction false} TierOutboundsKeepTagsNew(plans: seq<TierPlan>, obs: seq<Outbound>, n: nat)
    requires n <= |obs| && NewTagsFrom(obs, n)
    ensures NewTagsFrom(WithTierOutbounds(plans, obs), n)
  {
    if plans != [] {
      var k := |plans| - 1;
      TierOutboundsKeepTagsNew(plans[..k], obs, n);
      TierOutboundsExtend(plans[..k], obs);
      EnsuredKeepsTagsNew(WithTierOutbounds(plans[..k], obs), n, Outbound(TierDirect(k), Some(plans[k].finals)));
    }
  }

  /** No added outbound shares its tag with another; so where the links' own tags differ, all do. */
  lemma AddedTagsAreNew(lx: Lexicon, p: Profile, obs: seq<Outbound>)
    ensures NewTagsFrom(Outbounds(lx, p, obs), |obs|)
    ensures NewTagsFrom(obs, 0) ==> NewTagsFrom(Outbounds(lx, p, obs), 0)
  {
    AddedTagsAreNewFrom(lx, p, obs, |obs|);
    if NewTagsFrom(obs, 0) {
      AddedTagsAreNewFrom(lx, p, obs, 0);
    }
  }

  lemma AddedTagsAreNewFrom(lx: Lexicon, p: Profile, obs: seq<Outbound>, n: nat)
    requires n <= |obs| && NewTagsFrom(obs, n)
    ensures NewTagsFrom(Outbounds(lx, p, obs), n)
  {
    var direct, block := Outbound(DirectTag, None), Outbound(BlockTag, None);
    EnsuredKeepsTagsNew(obs, n, direct);
    EnsuredKeepsTagsNew(obs, n, block);
    EnsuredKeepsTagsNew(Ensured(obs, direct), n, block);
    TierOutboundsKeepTagsNew(Plans(lx, p), WithPlainOutbounds(p, obs), n);
  }

  /** What no rule takes leaves through the first outbound, and routing leaves that one a proxy. */
  lemma FirstOutboundStaysAProxy(
      lx: Lexicon, p: Profile, obs: seq<Outbound>, m: Matching, f: Flow, resolved: set<Addr>)
    requires obs != [] && obs[0].tag == ProxyTag
    ensures Outbounds(lx, p, obs) != [] && Outbounds(lx, p, obs)[0] == obs[0]
    ensures ConfigTag(Outbounds(lx, p, obs), Rules(lx, p), p.strategy, m, f, resolved)
         == XrayTag(Rules(lx, p), p.strategy, m, f, resolved)
  {
    OutboundsExtend(lx, p, obs);
  }

  /** The plain outbounds that are added have no final rules: they refuse nothing. */
  lemma PlainOutboundsHaveNoFinalRules(lx: Lexicon, p: Profile, obs: seq<Outbound>, o: Outbound)
    requires o in Outbounds(lx, p, obs) && o !in obs && !o.tag.TierDirect?
    ensures o == Outbound(DirectTag, None) || o == Outbound(BlockTag, None)
  {
    PlainComesFrom(Plans(lx, p), WithPlainOutbounds(p, obs), o);
  }

  lemma {:induction false} PlainComesFrom(plans: seq<TierPlan>, obs: seq<Outbound>, o: Outbound)
    requires o in WithTierOutbounds(plans, obs) && !o.tag.TierDirect?
    ensures o in obs
  {
    if plans != [] {
      PlainComesFrom(plans[..|plans| - 1], obs, o);
    }
  }

  /** The profile asks for an outbound of this tag. */
  ghost predicate Asked(lx: Lexicon, p: Profile, tag: Tag) {
    match tag
    case ProxyTag => false
    case DirectTag => p.mode == "direct-all" || p.localNetworks || exists t :: t in p.tiers && t.direct != []
    case BlockTag => p.disableIPv6 || p.disableUDP || exists t :: t in p.tiers && t.block != []
    case TierDirect(i) =>
      && i < |p.tiers| && p.mode != "direct-all"
      && exists e :: e in Listed(lx, p.tiers[i]) && e.target == Direct && (e.kind == IPCIDR || e.kind == GeoIP)
  }

  /** The configuration holds the links' outbounds and exactly those the profile asks for. */
  lemma HeldExactlyAsAsked(lx: Lexicon, p: Profile, obs: seq<Outbound>, tag: Tag)
    ensures HasOutbound(Outbounds(lx, p, obs), tag) <==> HasOutbound(obs, tag) || Asked(lx, p, tag)
  {
    PlainHeld(p, obs, tag);
    TierHeld(Plans(lx, p), WithPlainOutbounds(p, obs), tag);
    if tag.TierDirect? && tag.tier < |p.tiers| {
      PlansAt(lx, p, p.tiers, tag.tier);
      EntriesAreListed(lx, p.tiers[tag.tier]);
    }
  }

  lemma PlainHeld(p: Profile, obs: seq<Outbound>, tag: Tag)
    ensures HasOutbound(WithPlainOutbounds(p, obs), tag)
        <==> HasOutbound(obs, tag) || (tag == DirectTag && NeedDirect(p)) || (tag == BlockTag && NeedBlock(p))
  {
    EnsuredHas(obs, Outbound(DirectTag, None), tag);
    EnsuredHas(obs, Outbound(BlockTag, None), tag);
    EnsuredHas(Ensured(obs, Outbound(DirectTag, None)), Outbound(BlockTag, None), tag);
  }

  lemma EnsuredHas(obs: seq<Outbound>, o: Outbound, tag: Tag)
    ensures HasOutbound(Ensured(obs, o), tag) <==> HasOutbound(obs, tag) || tag == o.tag
  {
    EnsuredHolds(obs, o);
  }

  lemma {:induction false} TierHeld(plans: seq<TierPlan>, obs: seq<Outbound>, tag: Tag)
    ensures HasOutbound(WithTierOutbounds(plans, obs), tag)
        <==> HasOutbound(obs, tag) || (tag.TierDirect? && tag.tier < |plans| && plans[tag.tier].own)
  {
    if plans != [] {
      var n := |plans| - 1;
      TierHeld(plans[..n], obs, tag);
      EnsuredHas(WithTierOutbounds(plans[..n], obs), Outbound(TierDirect(n), Some(plans[n].finals)), tag);
    }
  }

  // ---------------------------------------------------------------- each field holds its own matchers

  predicate OnlyKinds(field: seq<Spelling>, kinds: set<MatchKind>) {
    forall s :: s in field ==> s.kind in kinds
  }

  /** Names and patterns of names in the domain field, addresses in the IP field, apps in the process
      field. */
  predicate FieldsKept(r: FieldRule) {
    && OnlyKinds(r.domain, {DomainSuffix, DomainFull, DomainKeyword, DomainRegex, GeoSite})
    && OnlyKinds(r.ip, {IPCIDR, GeoIP})
    && OnlyKinds(r.process, {Process})
  }

  lemma {:induction false} SpelledInPlane(es: seq<Entry>, p: Plane, s: Spelling)
    requires s in Spelled(es, p)
    ensures Entry(s.kind, s.value, Block).Plane() == p
  {
    var front, e := es[..|es| - 1], es[|es| - 1];
    if s in Spelled(front, p) {
      SpelledInPlane(front, p, s);
    }
  }

  lemma StepRuleKeepsFields(s: Step, inbounds: seq<Inbound>, tag: Tag, r: FieldRule)
    requires r in StepRule(s, inbounds, tag)
    ensures FieldsKept(r)
  {
    forall p, x | x in Spelled(s.entries, p) + Spelled(s.also, p) ensures Entry(x.kind, x.value, Block).Plane() == p {
      if x in Spelled(s.entries, p) {
        SpelledInPlane(s.entries, p, x);
      } else {
        SpelledInPlane(s.also, p, x);
      }
    }
  }

  /** In every rule each field holds the matchers xray reads it for. */
  lemma FieldsHoldTheirOwnMatchers(lx: Lexicon, p: Profile, r: FieldRule)
    requires r in Rules(lx, p)
    ensures FieldsKept(r)
  {
    var blocks := PlainBlocks(AllSteps(lx, p.tiers));
    if r in AllTierRules(Plans(lx, p)) {
      var i, s := AllTierRulesComeFrom(Plans(lx, p), r);
      StepRuleKeepsFields(s, [], r.tag, r);
    } else if r in BlockRules(blocks, [ForceFlow]) {
      var s := BlockRuleComesFrom(blocks, [ForceFlow], r);
      StepRuleKeepsFields(s, [ForceFlow], BlockTag, r);
    } else {
      OtherRules(
        lx, p, AllTierRules(Plans(lx, p)), blocks, HasProcessProxy(lx, p.tiers), WaitsForIPs(lx, p), r);
    }
  }

  lemma OtherRules(
      lx: Lexicon, p: Profile, tierRules: seq<FieldRule>, blocks: seq<Step>, perApp: bool, waits: bool, r: FieldRule)
    requires r in RulesFrom(lx, p, tierRules, blocks, perApp, waits)
    requires r !in tierRules && r !in BlockRules(blocks, [ForceFlow])
    ensures FieldsKept(r)
  {
    if r in ForceRules(lx, p, blocks) {
      FixedForceRules(lx, p, blocks, r);
    } else if r in ClosingRules(lx, p, waits) {
      FixedClosingRules(lx, p, waits, r);
    } else {
      assert r in KillRules(p) || r == ECHO;
    }
  }

  lemma FixedForceRules(lx: Lexicon, p: Profile, blocks: seq<Step>, r: FieldRule)
    requires r in ForceRules(lx, p, blocks) && r !in BlockRules(blocks, [ForceFlow])
    ensures FieldsKept(r)
  {
  }

  lemma FixedClosingRules(lx: Lexicon, p: Profile, waits: bool, r: FieldRule)
    requires r in ClosingRules(lx, p, waits)
    ensures FieldsKept(r)
  {
  }
}
