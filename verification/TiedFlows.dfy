/** What a tie can do to a whole flow: which outbound it takes and whether its dial is refused. */
module TiedFlows {
  import opened Text
  import opened Routing
  import opened Meaning
  import opened Algebra
  import opened Policy
  import opened Xray
  import opened XrayMeaning
  import opened Agreement
  import opened Guarantees
  import opened Ties

  // ---------------------------------------------------------------- one tier

  /** The outbound in the tier at `n`, from the one a tier with its own outbound would give. */
  function Placed(tag: Option<Tag>, n: nat, own: bool): Option<Tag> {
    match tag
    case Some(TierDirect(_)) => Some(if own then TierDirect(n) else DirectTag)
    case _ => tag
  }

  lemma TierRouteIsPlaced(lx: Lexicon, t: Tier, n: nat, own: bool, m: Matching, v: View)
    ensures Route(TierRules(Steps(lx, t), n, own), m, v) == Placed(TagBy(lx, t, Hit(m, v)), n, own)
    ensures TargetsOf(TagBy(lx, t, Hit(m, v))) == FirstStep(Steps(lx, t), Hit(m, v))
  {
    var steps, hit := Steps(lx, t), Hit(m, v);
    StepsShaped(lx, t);
    TierRulesRoute(steps, n, own, m, v);
    var taken := TakenBy(steps, hit);
    if taken.Some? {
      StepIsPlaced(taken.value, n, own);
    }
  }

  lemma StepIsPlaced(s: Step, n: nat, own: bool)
    ensures Some(TagOf(s, n, own)) == Placed(Some(TagOf(s, 0, true)), n, own)
    ensures TagTarget(TagOf(s, 0, true)) == s.target
  {
  }

  lemma PlacedByTarget(a: Option<Tag>, b: Option<Tag>, n: nat, own: bool)
    requires TargetsOf(a) == TargetsOf(b) && (own ==> a == b)
    ensures Placed(a, n, own) == Placed(b, n, own)
  {
  }

  lemma SameTierRoute(lx: Lexicon, t: Tier, u: Tier, n: nat, own: bool, m: Matching, v: View)
    requires Sound(lx, m) && SameLists(t, u) && (own ==> !HoldsTie(lx, t))
    ensures Route(TierRules(Steps(lx, t), n, own), m, v) == Route(TierRules(Steps(lx, u), n, own), m, v)
  {
    TierRouteIsPlaced(lx, t, n, own, m, v);
    TierRouteIsPlaced(lx, u, n, own, m, v);
    SameFirstStep(lx, t, u, Hit(m, v));
    if own {
      NoTieNoOrder(lx, t, u, m, v);
    }
    PlacedByTarget(TagBy(lx, t, Hit(m, v)), TagBy(lx, u, Hit(m, v)), n, own);
  }

  lemma SameOwn(lx: Lexicon, p: Profile, q: Profile, t: Tier, u: Tier)
    requires q == p.(tiers := q.tiers) && SameLists(t, u)
    ensures OwnDirect(lx, p, t) == OwnDirect(lx, q, u)
  {
    SameListed(lx, t, u);
    EntriesAreListed(lx, t);
    EntriesAreListed(lx, u);
    assert forall e :: e in Entries(lx, t) <==> e in Entries(lx, u);
  }

  // ---------------------------------------------------------------- all tiers

  /** Two plans of the tier at `n` give the flow the same outbound. */
  predicate SamePlanRoute(a: TierPlan, b: TierPlan, n: nat, m: Matching, v: View) {
    Route(TierRules(a.steps, n, a.own), m, v) == Route(TierRules(b.steps, n, b.own), m, v)
  }

  lemma {:induction false} SameTierTags(a: seq<TierPlan>, b: seq<TierPlan>, m: Matching, v: View)
    requires |a| == |b| && forall k :: 0 <= k < |a| ==> SamePlanRoute(a[k], b[k], k, m, v)
    ensures TierTag(a, m, v) == TierTag(b, m, v)
  {
    if a != [] {
      var n := |a| - 1;
      SameTierTags(a[..n], b[..n], m, v);
      assert SamePlanRoute(a[n], b[n], n, m, v);
    }
  }

  /** No tier that dials through its own outbound holds a tie. */
  ghost predicate Untied(lx: Lexicon, p: Profile) {
    p.DirectAll() || forall i :: 0 <= i < |p.tiers| ==> !HoldsTie(lx, p.tiers[i])
  }

  lemma SamePlans(lx: Lexicon, p: Profile, q: Profile, k: nat, m: Matching, v: View)
    requires SameProfile(p, q) && Untied(lx, p) && Sound(lx, m) && k < |p.tiers|
    ensures SamePlanRoute(PlanOf(lx, p, p.tiers[k]), PlanOf(lx, q, q.tiers[k]), k, m, v)
  {
    SameOwn(lx, p, q, p.tiers[k], q.tiers[k]);
    SameTierRoute(lx, p.tiers[k], q.tiers[k], k, OwnDirect(lx, p, p.tiers[k]), m, v);
  }

  lemma SameTierTag(lx: Lexicon, p: Profile, q: Profile, m: Matching, v: View)
    requires SameProfile(p, q) && Untied(lx, p) && Sound(lx, m)
    ensures TierTag(Plans(lx, p), m, v) == TierTag(Plans(lx, q), m, v)
  {
    var a, b := Plans(lx, p), Plans(lx, q);
    forall k | 0 <= k < |a| ensures SamePlanRoute(a[k], b[k], k, m, v) {
      PlansAt(lx, p, p.tiers, k);
      PlansAt(lx, q, q.tiers, k);
      SamePlans(lx, p, q, k, m, v);
    }
    SameTierTags(a, b, m, v);
  }

  lemma SameRoutedTag(
      lx: Lexicon, p: Profile, q: Profile, m: Matching, v: View, blocked: bool, tierTag: Option<Tag>, waits: bool)
    requires q == p.(tiers := q.tiers)
    ensures RoutedTag(lx, p, m, v, blocked, tierTag, waits) == RoutedTag(lx, q, m, v, blocked, tierTag, waits)
  {
  }

  lemma SameRoute(lx: Lexicon, p: Profile, q: Profile, m: Matching, f: Flow, ips: set<Addr>)
    requires SameProfile(p, q) && Untied(lx, p) && Sound(lx, m) && Real(f) && Routed(lx, p, f)
    ensures Route(Rules(lx, p), m, Seen(f, ips)) == Route(Rules(lx, q), m, Seen(f, ips))
  {
    var v := Seen(f, ips);
    SamePerApp(lx, p, q);
    RulesRoute(lx, p, m, v);
    RulesRoute(lx, q, m, v);
    SameMatches(lx, p, q, Hit(m, v));
    SameTierTag(lx, p, q, m, v);
    SameRoutedTag(
      lx, p, q, m, v, AnyBlockMatches(lx, p.tiers, Hit(m, v)), TierTag(Plans(lx, p), m, v), WaitsForIPs(lx, p));
  }

  // ---------------------------------------------------------------- the dial

  /** The first address entry to hold an address has the same outcome in any order. */
  lemma FirstAddressByOrder(lx: Lexicon, t: Tier, u: Tier, hit: Entry -> bool)
    requires SameLists(t, u)
    ensures var a := FirstHit(OfPlane(Entries(lx, t), AddressPlane), hit);
            var b := FirstHit(OfPlane(Entries(lx, u), AddressPlane), hit);
            a.Some? == b.Some? && (a.Some? ==> a.value.target == b.value.target)
  {
    SameListed(lx, t, u);
    AddressesSorted(lx, t);
    AddressesSorted(lx, u);
    FirstsAgree(lx, OfPlane(Entries(lx, t), AddressPlane), OfPlane(Entries(lx, u), AddressPlane), hit);
  }

  lemma AddressesSorted(lx: Lexicon, t: Tier)
    ensures SortedByKey(lx, OfPlane(Entries(lx, t), AddressPlane))
    ensures forall e :: e in OfPlane(Entries(lx, t), AddressPlane) <==> e in Listed(lx, t) && e.ByAddress()
  {
    SortIsSorted(lx, Listed(lx, t));
    EntriesAreListed(lx, t);
    OfPlaneSorted(lx, Entries(lx, t), AddressPlane);
    OfPlaneMembers(Entries(lx, t), AddressPlane);
  }

  lemma FirstsAgree(lx: Lexicon, a: seq<Entry>, b: seq<Entry>, hit: Entry -> bool)
    requires SortedByKey(lx, a) && SortedByKey(lx, b) && forall e :: e in a <==> e in b
    ensures FirstHit(a, hit).Some? == FirstHit(b, hit).Some?
    ensures FirstHit(a, hit).Some? ==> FirstHit(a, hit).value.target == FirstHit(b, hit).value.target
  {
    if FirstHit(a, hit).Some? && FirstHit(b, hit).Some? {
      FirstHitIsLeast(lx, a, hit);
      FirstHitIsLeast(lx, b, hit);
      TiedOutcome(lx, FirstHit(a, hit).value, FirstHit(b, hit).value);
    }
  }

  /** An outbound does the same with an address in any order. */
  lemma SameDial(lx: Lexicon, p: Profile, q: Profile, m: Matching, tag: Tag, dial: Option<Addr>)
    requires SameProfile(p, q)
    ensures Dialed(lx, p, m, tag, dial) == Dialed(lx, q, m, tag, dial)
  {
    if tag.TierDirect? && tag.tier < |p.tiers| && dial.Some? {
      var t, u := p.tiers[tag.tier], q.tiers[tag.tier];
      DirectOutboundIsExact(Entries(lx, t), m, dial.value);
      DirectOutboundIsExact(Entries(lx, u), m, dial.value);
      FirstAddressByOrder(lx, t, u, AddressHit(m, dial.value));
    }
  }

  /** Where no tier holds a tie, reordering or repeating matchers changes neither the outbound a flow
      takes nor what becomes of its dial, under every strategy, whatever the name resolves to and
      whichever address is dialed. */
  lemma OrderChangesNoDial(
      lx: Lexicon, p: Profile, q: Profile, m: Matching, f: Flow, resolved: set<Addr>, dial: Option<Addr>)
    requires SameProfile(p, q) && Untied(lx, p) && Sound(lx, m) && Real(f) && Routed(lx, p, f)
    ensures XrayTag(Rules(lx, p), p.strategy, m, f, resolved) == XrayTag(Rules(lx, q), q.strategy, m, f, resolved)
    ensures Dialed(lx, p, m, XrayTag(Rules(lx, p), p.strategy, m, f, resolved), dial)
         == Dialed(lx, q, m, XrayTag(Rules(lx, q), q.strategy, m, f, resolved), dial)
  {
    SameRoute(lx, p, q, m, f, Own(f));
    SameRoute(lx, p, q, m, f, if f.name == "" then Own(f) else resolved);
    SameDial(lx, p, q, m, XrayTag(Rules(lx, p), p.strategy, m, f, resolved), dial);
  }

  // ---------------------------------------------------------------- a tie decides a dial

  /** What becomes of a flow that xray dials to `dial`. */
  ghost function Outcome(
      lx: Lexicon, p: Profile, m: Matching, f: Flow, resolved: set<Addr>, dial: Addr): Target {
    Dialed(lx, p, m, XrayTag(Rules(lx, p), p.strategy, m, f, resolved), Some(dial))
  }

  const TIED_NAME := Flow(AppTraffic, "name", None, "", false, 443)

  function WithFirst(p: Profile, t: Tier): Profile
    requires p.tiers != []
  {
    p.(tiers := [t] + p.tiers[1..])
  }

  lemma FirstTierDecides(lx: Lexicon, p: Profile, m: Matching, v: View, tag: Tag)
    requires p.tiers != [] && OwnDirect(lx, p, p.tiers[0]) && TagBy(lx, p.tiers[0], Hit(m, v)) == Some(tag)
    requires tag == DirectTag || tag == TierDirect(0)
    ensures TierTag(Plans(lx, p), m, v) == Some(tag)
  {
    var plans := Plans(lx, p);
    PlansAt(lx, p, p.tiers, 0);
    TierRouteIsPlaced(lx, p.tiers[0], 0, true, m, v);
    FirstPlanDecides(plans, m, v, tag);
  }

  lemma {:induction false} FirstPlanDecides(plans: seq<TierPlan>, m: Matching, v: View, tag: Tag)
    requires plans != [] && Route(TierRules(plans[0].steps, 0, plans[0].own), m, v) == Some(tag)
    ensures TierTag(plans, m, v) == Some(tag)
  {
    var n := |plans| - 1;
    if n == 0 {
      assert plans[..0] == [];
    } else {
      FirstPlanDecides(plans[..n], m, v, tag);
    }
  }

  lemma TieHasItsOwnOutbound(lx: Lexicon, p: Profile, t: Tier, u: Tier)
    requires !p.DirectAll() && HoldsTie(lx, t) && SameLists(t, u)
    ensures OwnDirect(lx, p, u)
  {
    var a, b :| IsTie(lx, t, a, b);
    SameListed(lx, t, u);
    EntriesAreListed(lx, u);
    assert b in Entries(lx, u) && IsDirectAddress(b);
  }

  lemma WithFirstIsSame(p: Profile, u: Tier)
    requires p.tiers != [] && SameLists(p.tiers[0], u)
    ensures SameProfile(p, WithFirst(p, u))
  {
  }

  lemma TierTagIsTaken(lx: Lexicon, p: Profile, m: Matching, v: View, blocked: bool, tag: Tag, waits: bool)
    requires v.inbound == AppTraffic && !v.udp && !p.disableIPv6
    ensures RoutedTag(lx, p, m, v, blocked, Some(tag), waits) == Some(tag)
  {
  }

  lemma TiedNameRoute(lx: Lexicon, p: Profile, m: Matching, v: View, tag: Tag)
    requires Sound(lx, m) && RealPort(v) && v.inbound == AppTraffic && !v.udp && !p.disableIPv6
    requires TierTag(Plans(lx, p), m, v) == Some(tag)
    ensures Route(Rules(lx, p), m, v) == Some(tag)
  {
    RulesRoute(lx, p, m, v);
    TierTagIsTaken(lx, p, m, v, AnyBlockMatches(lx, p.tiers, Hit(m, v)), tag, WaitsForIPs(lx, p));
  }

  lemma OnDemand(rules: seq<FieldRule>, m: Matching, family: Family, tag: Tag)
    requires Route(rules, m, TiedFlow(family)) == Some(tag)
    ensures XrayTag(rules, IPOnDemand, m, TIED_NAME, TiedFlow(family).ips) == tag
  {
    assert TiedFlow(family) == Seen(TIED_NAME, TiedFlow(family).ips);
  }

  lemma TiedNameTakes(lx: Lexicon, p: Profile, t: Tier, m: Matching, family: Family, tag: Tag)
    requires p.tiers != [] && !p.DirectAll() && !p.disableIPv6 && Sound(lx, m)
    requires HoldsTie(lx, t) && SameLists(t, p.tiers[0])
    requires TagBy(lx, p.tiers[0], Hit(m, TiedFlow(family))) == Some(tag) && (tag == DirectTag || tag == TierDirect(0))
    ensures XrayTag(Rules(lx, p), IPOnDemand, m, TIED_NAME, TiedFlow(family).ips) == tag
  {
    TieHasItsOwnOutbound(lx, p, t, p.tiers[0]);
    FirstTierDecides(lx, p, m, TiedFlow(family), tag);
    TiedNameRoute(lx, p, m, TiedFlow(family), tag);
    OnDemand(Rules(lx, p), m, family, tag);
  }

  lemma SecondIsRefused(lx: Lexicon, p: Profile, m: Matching, a: Addr)
    requires p.tiers != []
    requires forall x :: x in Listed(lx, p.tiers[0]) && x.ByAddress() ==> !m.address(x.kind, x.value, a)
    ensures Dialed(lx, p, m, TierDirect(0), Some(a)) == Block
  {
    AddressesSorted(lx, p.tiers[0]);
    DirectOutboundIsExact(Entries(lx, p.tiers[0]), m, a);
  }

  lemma OrdersOfATie(lx: Lexicon, p: Profile) returns (u: Tier, w: Tier, m: Matching, family: Family)
    requires lx.localNetworks != [] && p.tiers != [] && HoldsTie(lx, p.tiers[0])
    ensures Sound(lx, m) && SameLists(p.tiers[0], u) && SameLists(p.tiers[0], w)
    ensures TagBy(lx, u, Hit(m, TiedFlow(family))) == Some(DirectTag)
    ensures TagBy(lx, w, Hit(m, TiedFlow(family))) == Some(TierDirect(0))
    ensures Dialed(lx, p, m, TierDirect(0), Some(Addr(family, 1))) == Block
  {
    var t := p.tiers[0];
    var a, b :| IsTie(lx, t, a, b);
    u, w, m, family := TieIsDecidedByOrder(lx, t, a, b);
    ReorderedIsSame(t, u);
    ReorderedIsSame(t, w);
    SecondIsRefused(lx, p, m, Addr(family, 1));
  }

  lemma TiedNameDials(lx: Lexicon, p: Profile, u: Tier, m: Matching, family: Family, tag: Tag, outcome: Target)
    requires p.tiers != [] && p.strategy == IPOnDemand && !p.DirectAll() && !p.disableIPv6 && Sound(lx, m)
    requires HoldsTie(lx, p.tiers[0]) && SameLists(p.tiers[0], u)
    requires TagBy(lx, u, Hit(m, TiedFlow(family))) == Some(tag) && (tag == DirectTag || tag == TierDirect(0))
    requires Dialed(lx, p, m, tag, Some(Addr(family, 1))) == outcome
    ensures var q := WithFirst(p, u);
            SameProfile(p, q) && Outcome(lx, q, m, TIED_NAME, TiedFlow(family).ips, Addr(family, 1)) == outcome
  {
    var q := WithFirst(p, u);
    WithFirstIsSame(p, u);
    TiedNameTakes(lx, q, p.tiers[0], m, family, tag);
    SameDial(lx, p, q, m, tag, Some(Addr(family, 1)));
  }

  /** In proxy-all mode under IPOnDemand a tie in the first tier lets the order of its list decide
      whether a name's dial goes out directly or is refused. */
  lemma TieDecidesADial(lx: Lexicon, p: Profile)
    returns (q: Profile, r: Profile, m: Matching, resolved: set<Addr>, dial: Addr)
    requires lx.localNetworks != [] && p.tiers != [] && HoldsTie(lx, p.tiers[0])
    requires p.strategy == IPOnDemand && !p.DirectAll() && !p.disableIPv6
    ensures Sound(lx, m) && SameProfile(p, q) && SameProfile(p, r) && dial in resolved
    ensures Outcome(lx, q, m, TIED_NAME, resolved, dial) == Direct
    ensures Outcome(lx, r, m, TIED_NAME, resolved, dial) == Block
  {
    var u, w, m', family := OrdersOfATie(lx, p);
    q, r, m, resolved, dial := WithFirst(p, u), WithFirst(p, w), m', TiedFlow(family).ips, Addr(family, 1);
    TiedNameDials(lx, p, u, m, family, DirectTag, Direct);
    TiedNameDials(lx, p, w, m, family, TierDirect(0), Block);
  }

  /** No order of the lists changes what becomes of a dial to any of a flow's addresses. */
  ghost predicate DialFree(lx: Lexicon, p: Profile) {
    forall q, m, f, resolved, dial ::
      SameProfile(p, q) && Sound(lx, m) && Real(f) && Routed(lx, p, f) && dial in resolved ==>
        Outcome(lx, p, m, f, resolved, dial) == Outcome(lx, q, m, f, resolved, dial)
  }

  lemma FreeBothWays(
      lx: Lexicon, p: Profile, q: Profile, r: Profile, m: Matching, resolved: set<Addr>, dial: Addr)
    requires DialFree(lx, p) && SameProfile(p, q) && SameProfile(p, r) && Sound(lx, m) && dial in resolved
    ensures Outcome(lx, q, m, TIED_NAME, resolved, dial) == Outcome(lx, r, m, TIED_NAME, resolved, dial)
  {
    assert Real(TIED_NAME) && Routed(lx, p, TIED_NAME);
    assert Outcome(lx, p, m, TIED_NAME, resolved, dial) == Outcome(lx, q, m, TIED_NAME, resolved, dial);
  }

  /** A profile of one tier under IPOnDemand is free of order exactly when it is direct-all or holds
      no tie. */
  lemma OrderDecidesDialsExactlyByTies(lx: Lexicon, p: Profile)
    requires lx.localNetworks != [] && |p.tiers| == 1 && p.strategy == IPOnDemand && !p.disableIPv6
    ensures DialFree(lx, p) <==> Untied(lx, p)
  {
    if Untied(lx, p) {
      forall q, m, f, resolved, dial
        | SameProfile(p, q) && Sound(lx, m) && Real(f) && Routed(lx, p, f) && dial in resolved
        ensures Outcome(lx, p, m, f, resolved, dial) == Outcome(lx, q, m, f, resolved, dial)
      {
        OrderChangesNoDial(lx, p, q, m, f, resolved, Some(dial));
      }
    } else if DialFree(lx, p) {
      var q, r, m, resolved, dial := TieDecidesADial(lx, p);
      FreeBothWays(lx, p, q, r, m, resolved, dial);
    }
  }
}
