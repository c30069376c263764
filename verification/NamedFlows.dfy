/** Where a name may go direct in proxy-all mode, whatever it resolves to. */
module NamedFlows {
  import opened Text
  import opened Routing
  import opened Meaning
  import opened Policy
  import opened Xray
  import opened XrayMeaning
  import opened Agreement
  import opened Guarantees

  /** A direct step holds direct entries only, of one plane, and the tier lists them. */
  lemma DirectStepIsDirect(lx: Lexicon, t: Tier, s: Step)
    requires s in Steps(lx, t) && s.target == Direct
    ensures s.entries != []
    ensures forall e :: e in s.entries ==>
      e in Entries(lx, t) && e.target == Direct && e.ByAddress() == s.entries[0].ByAddress()
  {
    StepsShaped(lx, t);
    DirectStepOf(Entries(lx, t), 0, s);
  }

  lemma {:induction false} DirectStepOf(es: seq<Entry>, i: nat, s: Step)
    requires i <= |es| && s in StepsFrom(es, i) && s.target == Direct
    ensures forall e :: e in s.entries ==> e in es && e.target == Direct
    decreases |es| - i
  {
    var j := RunEnd(es, i, i + 1);
    if s in RunSteps(es, i, j) {
      RunTargets(es, i, j, s);
      forall e | e in s.entries ensures e in es && e.target == Direct {
        var k :| 0 <= k < j - i && es[i..j][k] == e;
        assert e == es[i + k];
      }
    } else {
      DirectStepOf(es, j, s);
    }
  }

  /** A tier's own outbound lets an address out exactly when the first of the tier's address entries
      to hold it is direct. */
  lemma TierDialIsExact(lx: Lexicon, p: Profile, m: Matching, i: nat, dial: Addr)
    requires i < |p.tiers|
    ensures Dialed(lx, p, m, TierDirect(i), Some(dial)) == Direct
        <==> var first := FirstHit(OfPlane(Entries(lx, p.tiers[i]), AddressPlane), AddressHit(m, dial));
             first.Some? && first.value.target == Direct
  {
    DirectOutboundIsExact(Entries(lx, p.tiers[i]), m, dial);
  }

  /** Outside the tiers no rule sends a name direct. */
  lemma NamedTagIsATiers(
      lx: Lexicon, p: Profile, m: Matching, v: View, blocked: bool, tierTag: Option<Tag>, waits: bool)
    requires v.name != "" && !p.DirectAll() && (v.inbound == AppTraffic || v.inbound == ForceFlow)
    requires var tag := RoutedTag(lx, p, m, v, blocked, tierTag, waits);
             tag.Some? && TagTarget(tag.value) == Direct
    ensures RoutedTag(lx, p, m, v, blocked, tierTag, waits) == tierTag
  {
  }

  /** The pass whose rule took the flow. */
  lemma TakenInAPass(rules: seq<FieldRule>, strategy: Strategy, m: Matching, f: Flow, resolved: set<Addr>)
    returns (v: View)
    requires XrayTag(rules, strategy, m, f, resolved) != ProxyTag
    ensures v == Seen(f, Own(f)) || v == Looked(f, resolved)
    ensures Route(rules, m, v) == Some(XrayTag(rules, strategy, m, f, resolved))
  {
    v := Seen(f, Own(f));
    if Route(rules, m, v) != Some(XrayTag(rules, strategy, m, f, resolved)) {
      v := Looked(f, resolved);
    }
  }

  /** In proxy-all mode, under every strategy and whatever a name resolves to, a named flow xray sends
      direct was taken by a step of some tier that matched it. The plain direct outbound is taken by
      name or app entries only. A step of address entries dials through its tier's own outbound, which
      lets out exactly the addresses whose first address entry in that tier is direct. */
  lemma NamesGoDirectByTheirEntriesOnly(
      lx: Lexicon, p: Profile, m: Matching, f: Flow, resolved: set<Addr>, dial: Addr)
    returns (v: View, i: nat, s: Step)
    requires Sound(lx, m) && Real(f) && Routed(lx, p, f) && f.name != "" && !p.DirectAll()
    requires TagTarget(XrayTag(Rules(lx, p), p.strategy, m, f, resolved)) == Direct
    ensures v == Seen(f, Own(f)) || v == Looked(f, resolved)
    ensures i < |p.tiers| && TakenBy(Steps(lx, p.tiers[i]), Hit(m, v)) == Some(s) && s.target == Direct
    ensures forall e :: e in s.entries ==> e in Entries(lx, p.tiers[i]) && e.target == Direct
    ensures var tag := XrayTag(Rules(lx, p), p.strategy, m, f, resolved);
            && (tag == DirectTag || tag == TierDirect(i))
            && (tag == DirectTag <==> forall e :: e in s.entries ==> !e.ByAddress())
            && (tag == TierDirect(i) <==> forall e :: e in s.entries ==> e.ByAddress())
            && (tag == TierDirect(i) ==>
                (Dialed(lx, p, m, tag, Some(dial)) == Direct <==>
                 var first := FirstHit(OfPlane(Entries(lx, p.tiers[i]), AddressPlane), AddressHit(m, dial));
                 first.Some? && first.value.target == Direct))
  {
    v := TakenByATier(lx, p, m, f, resolved);
    PlansHoldSteps(lx, p);
    i, s := TagComesFromAStep(
      lx, p.tiers, Plans(lx, p), m, v, XrayTag(Rules(lx, p), p.strategy, m, f, resolved));
    DirectStepIsDirect(lx, p.tiers[i], s);
    StepTag(lx, p, i, s);
    TierDialIsExact(lx, p, m, i, dial);
  }

  lemma TakenByATier(lx: Lexicon, p: Profile, m: Matching, f: Flow, resolved: set<Addr>) returns (v: View)
    requires Sound(lx, m) && Real(f) && Routed(lx, p, f) && f.name != "" && !p.DirectAll()
    requires TagTarget(XrayTag(Rules(lx, p), p.strategy, m, f, resolved)) == Direct
    ensures v == Seen(f, Own(f)) || v == Looked(f, resolved)
    ensures TierTag(Plans(lx, p), m, v) == Some(XrayTag(Rules(lx, p), p.strategy, m, f, resolved))
  {
    v := TakenInAPass(Rules(lx, p), p.strategy, m, f, resolved);
    RulesRoute(lx, p, m, v);
    NamedTagIsATiers(
      lx, p, m, v, AnyBlockMatches(lx, p.tiers, Hit(m, v)), TierTag(Plans(lx, p), m, v), WaitsForIPs(lx, p));
  }

  lemma StepTag(lx: Lexicon, p: Profile, i: nat, s: Step)
    requires i < |p.tiers| && !p.DirectAll() && s.target == Direct && s.entries != []
    requires forall e :: e in s.entries ==>
      e in Entries(lx, p.tiers[i]) && e.target == Direct && e.ByAddress() == s.entries[0].ByAddress()
    ensures TagOf(s, i, Plans(lx, p)[i].own) == if s.entries[0].ByAddress() then TierDirect(i) else DirectTag
  {
    assert s.entries[0] in s.entries;
    PlansAt(lx, p, p.tiers, i);
  }
}
