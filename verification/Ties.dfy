/** Which direct outbound a tier's flow takes is the one thing the order of a list can decide. */
module Ties {
  import opened Text
  import opened Routing
  import opened Meaning
  import opened Algebra
  import opened Policy
  import opened Xray
  import opened XrayMeaning
  import opened Agreement

  /** The outbound of the step that takes a flow, in a tier with a direct outbound of its own. */
  function TagBy(lx: Lexicon, t: Tier, hit: Entry -> bool): Option<Tag> {
    match TakenBy(Steps(lx, t), hit)
    case None => None
    case Some(s) => Some(TagOf(s, 0, true))
  }

  function TagFrom(verdict: Option<Target>, byAddress: bool): Option<Tag> {
    match verdict
    case None => None
    case Some(Block) => Some(BlockTag)
    case Some(Proxy) => Some(ProxyTag)
    case Some(Direct) => Some(if byAddress then TierDirect(0) else DirectTag)
  }

  /** The first match and the verdict decide the outbound. */
  lemma TagByFirst(lx: Lexicon, t: Tier, hit: Entry -> bool)
    ensures FirstStep(Steps(lx, t), hit).Some? ==> FirstHit(Entries(lx, t), hit).Some?
    ensures FirstStep(Steps(lx, t), hit) == Some(Direct) ==> FirstHit(Entries(lx, t), hit).value.target == Direct
    ensures TagBy(lx, t, hit)
         == TagFrom(
              FirstStep(Steps(lx, t), hit),
              FirstHit(Entries(lx, t), hit).Some? && FirstHit(Entries(lx, t), hit).value.ByAddress())
  {
    var es := Entries(lx, t);
    var taken := TakenBy(Steps(lx, t), hit);
    if taken.Some? {
      TakenHoldsFirst(es, 0, hit);
      assert es[0..] == es;
      StepsShaped(lx, t);
      SamePlane(taken.value, FirstHit(es, hit).value);
    }
  }

  lemma SamePlane(s: Step, e: Entry)
    requires Shaped(s) && e in s.entries
    ensures s.entries[0].ByAddress() == e.ByAddress()
  {
  }

  /** Entries of one key lie in one plane, but for geosite and geoip. */
  lemma TiedPlanes(lx: Lexicon, a: Entry, b: Entry)
    requires NoLater(lx, a, b) && NoLater(lx, b, a) && a.ByAddress() && !b.ByAddress()
    ensures a.kind == GeoIP && b.kind == GeoSite
  {
  }

  /** A direct entry not listed as a block too. A flow cannot tell a block from a direct of the same
      kind and value, so such a block would lead. */
  ghost predicate OpenDirect(lx: Lexicon, t: Tier, e: Entry) {
    e in Listed(lx, t) && e.target == Direct && e.(target := Block) !in Listed(lx, t)
  }

  ghost predicate IsTie(lx: Lexicon, t: Tier, a: Entry, b: Entry) {
    OpenDirect(lx, t, a) && a.kind == GeoSite && OpenDirect(lx, t, b) && b.kind == GeoIP
  }

  const ANY_NAME := "."
  const ALL_V4 := "0.0.0.0/0"
  const ALL_V6 := "::/0"

  ghost predicate Lists(lx: Lexicon, t: Tier, kind: MatchKind, value: string) {
    exists target :: Entry(kind, value, target) in Listed(lx, t)
  }

  /** A more specific entry matches every name, or two of them every address, so no geosite and geoip
      ever lead together. */
  ghost predicate Overshadowed(lx: Lexicon, t: Tier) {
    Lists(lx, t, DomainRegex, ANY_NAME) || (Lists(lx, t, IPCIDR, ALL_V4) && Lists(lx, t, IPCIDR, ALL_V6))
  }

  ghost predicate HoldsTie(lx: Lexicon, t: Tier) {
    !Overshadowed(lx, t) && exists a, b :: IsTie(lx, t, a, b)
  }

  lemma FirstIsLeast(lx: Lexicon, t: Tier, hit: Entry -> bool)
    requires FirstHit(Entries(lx, t), hit).Some?
    ensures var e := FirstHit(Entries(lx, t), hit).value;
      e in Listed(lx, t) && hit(e) && forall x :: x in Listed(lx, t) && hit(x) ==> NoLater(lx, e, x)
  {
    SortIsSorted(lx, Listed(lx, t));
    EntriesAreListed(lx, t);
    FirstHitIsLeast(lx, Entries(lx, t), hit);
  }

  /** The entry matches the flow and no match comes before it. */
  ghost predicate Leads(lx: Lexicon, t: Tier, m: Matching, v: View, e: Entry) {
    e in Listed(lx, t) && Hit(m, v)(e) && forall x :: x in Listed(lx, t) && Hit(m, v)(x) ==> NoLater(lx, e, x)
  }

  /** A direct entry that leads every match of a flow has no block of its kind and value. */
  lemma LeaderHasNoBlock(lx: Lexicon, t: Tier, m: Matching, v: View, e: Entry)
    requires Leads(lx, t, m, v, e) && e.target == Direct
    ensures OpenDirect(lx, t, e)
  {
    assert !NoLater(lx, e, e.(target := Block));
  }

  /** A leading geosite shows that no entry matches every name. */
  lemma SiteLeaderIsUnshadowed(lx: Lexicon, t: Tier, m: Matching, v: View, e: Entry)
    requires Sound(lx, m) && Leads(lx, t, m, v, e) && e.kind == GeoSite
    ensures !Lists(lx, t, DomainRegex, ANY_NAME)
  {
    forall target ensures Entry(DomainRegex, ANY_NAME, target) !in Listed(lx, t) {
      var x := Entry(DomainRegex, ANY_NAME, target);
      assert Hit(m, v)(x) && !NoLater(lx, e, x);
    }
  }

  /** A leading geoip shows that the default routes are not both listed. */
  lemma IPLeaderIsUnshadowed(lx: Lexicon, t: Tier, m: Matching, v: View, e: Entry)
    requires Sound(lx, m) && Leads(lx, t, m, v, e) && e.kind == GeoIP
    ensures !(Lists(lx, t, IPCIDR, ALL_V4) && Lists(lx, t, IPCIDR, ALL_V6))
  {
    var a :| a in v.ips && m.address(e.kind, e.value, a);
    var all := if m.address(IPCIDR, ALL_V4, a) then ALL_V4 else ALL_V6;
    forall target ensures Entry(IPCIDR, all, target) !in Listed(lx, t) {
      var x := Entry(IPCIDR, all, target);
      assert Hit(m, v)(x) && !NoLater(lx, e, x);
    }
  }

  lemma TiedLeadersMakeATie(lx: Lexicon, t: Tier, m: Matching, v: View, a: Entry, b: Entry)
    requires Sound(lx, m) && Leads(lx, t, m, v, a) && Leads(lx, t, m, v, b)
    requires a.kind == GeoSite && a.target == Direct && b.kind == GeoIP && b.target == Direct
    ensures HoldsTie(lx, t)
  {
    LeaderHasNoBlock(lx, t, m, v, a);
    LeaderHasNoBlock(lx, t, m, v, b);
    SiteLeaderIsUnshadowed(lx, t, m, v, a);
    IPLeaderIsUnshadowed(lx, t, m, v, b);
    assert IsTie(lx, t, a, b);
  }

  /** Without a tie the outbound depends on the sets of matchers alone. */
  lemma NoTieNoOrder(lx: Lexicon, t: Tier, u: Tier, m: Matching, v: View)
    requires Sound(lx, m) && SameLists(t, u) && !HoldsTie(lx, t)
    ensures TagBy(lx, u, Hit(m, v)) == TagBy(lx, t, Hit(m, v))
  {
    SameFirstStep(lx, t, u, Hit(m, v));
    DirectPlanesAgree(lx, t, u, m, v);
    TagsAgree(lx, t, u, Hit(m, v));
  }

  /** The first matches of two tiers lie both in the address plane or both out of it. */
  ghost predicate SamePlaneFirst(lx: Lexicon, t: Tier, u: Tier, hit: Entry -> bool) {
    var x, y := FirstHit(Entries(lx, t), hit), FirstHit(Entries(lx, u), hit);
    x.Some? && y.Some? && x.value.ByAddress() == y.value.ByAddress()
  }

  lemma DirectPlanesAgree(lx: Lexicon, t: Tier, u: Tier, m: Matching, v: View)
    requires Sound(lx, m) && SameLists(t, u) && !HoldsTie(lx, t)
    requires FirstStep(Steps(lx, u), Hit(m, v)) == FirstStep(Steps(lx, t), Hit(m, v))
    ensures FirstStep(Steps(lx, t), Hit(m, v)) == Some(Direct) ==> SamePlaneFirst(lx, t, u, Hit(m, v))
  {
    if FirstStep(Steps(lx, t), Hit(m, v)) == Some(Direct) {
      TagByFirst(lx, t, Hit(m, v));
      TagByFirst(lx, u, Hit(m, v));
      FirstPlanesAgree(lx, t, u, m, v, FirstHit(Entries(lx, t), Hit(m, v)), FirstHit(Entries(lx, u), Hit(m, v)));
    }
  }

  lemma TagsAgree(lx: Lexicon, t: Tier, u: Tier, hit: Entry -> bool)
    requires FirstStep(Steps(lx, u), hit) == FirstStep(Steps(lx, t), hit)
    requires FirstStep(Steps(lx, t), hit) == Some(Direct) ==> SamePlaneFirst(lx, t, u, hit)
    ensures TagBy(lx, u, hit) == TagBy(lx, t, hit)
  {
    var verdict := FirstStep(Steps(lx, t), hit);
    var byAddress := verdict == Some(Direct) && FirstHit(Entries(lx, t), hit).value.ByAddress();
    TagIs(lx, t, hit, verdict, byAddress);
    TagIs(lx, u, hit, verdict, byAddress);
  }

  lemma TagIs(lx: Lexicon, t: Tier, hit: Entry -> bool, verdict: Option<Target>, byAddress: bool)
    requires verdict == FirstStep(Steps(lx, t), hit)
    requires verdict == Some(Direct) ==>
      FirstHit(Entries(lx, t), hit).Some? && byAddress == FirstHit(Entries(lx, t), hit).value.ByAddress()
    ensures TagBy(lx, t, hit) == TagFrom(verdict, byAddress)
  {
    TagByFirst(lx, t, hit);
  }

  lemma SameFirstStep(lx: Lexicon, t: Tier, u: Tier, hit: Entry -> bool)
    requires SameLists(t, u)
    ensures FirstStep(Steps(lx, u), hit) == FirstStep(Steps(lx, t), hit)
  {
    OrderAndRepetitionDoNotMatter(lx, t, u, hit);
  }

  lemma FirstPlanesAgree(lx: Lexicon, t: Tier, u: Tier, m: Matching, v: View, x: Option<Entry>, y: Option<Entry>)
    requires Sound(lx, m) && SameLists(t, u) && !HoldsTie(lx, t)
    requires x == FirstHit(Entries(lx, t), Hit(m, v)) && y == FirstHit(Entries(lx, u), Hit(m, v))
    requires x.Some? && y.Some? && x.value.target == Direct && y.value.target == Direct
    ensures x.value.ByAddress() == y.value.ByAddress()
  {
    FirstIsLeast(lx, t, Hit(m, v));
    FirstIsLeast(lx, u, Hit(m, v));
    SameListed(lx, t, u);
    LeadersShareAPlane(lx, t, m, v, x.value, y.value);
  }

  lemma LeadersShareAPlane(lx: Lexicon, t: Tier, m: Matching, v: View, a: Entry, b: Entry)
    requires Sound(lx, m) && !HoldsTie(lx, t) && Leads(lx, t, m, v, a) && Leads(lx, t, m, v, b)
    requires a.target == Direct && b.target == Direct
    ensures a.ByAddress() == b.ByAddress()
  {
    assert NoLater(lx, a, b) && NoLater(lx, b, a);
    if a.ByAddress() && !b.ByAddress() {
      TiedPlanes(lx, a, b);
      TiedLeadersMakeATie(lx, t, m, v, b, a);
    }
    if b.ByAddress() && !a.ByAddress() {
      TiedPlanes(lx, b, a);
      TiedLeadersMakeATie(lx, t, m, v, a, b);
    }
  }

  // ---------------------------------------------------------------- a tie is decided by order

  predicate HitAt(lx: Lexicon, k: Key, hit: Entry -> bool, e: Entry) {
    hit(e) && EvaluationKey(lx, e) == k
  }

  function AtKey(lx: Lexicon, k: Key, hit: Entry -> bool): Entry -> bool {
    (e: Entry) => HitAt(lx, k, hit, e)
  }

  lemma {:induction false} HitsOfOneKey(lx: Lexicon, es: seq<Entry>, k: Key, hit: Entry -> bool)
    ensures FirstHit(es, AtKey(lx, k, hit)) == FirstHit(WithKey(lx, es, k), hit)
  {
    if es != [] {
      HitsOfOneKey(lx, es[1..], k, hit);
      var rest := WithKey(lx, es[1..], k);
      assert ([es[0]] + rest)[1..] == rest;
      assert [] + rest == rest;
    }
  }

  /** In a sorted list the first match has the least key a match has. */
  lemma {:induction false} FirstHasLeastKey(lx: Lexicon, es: seq<Entry>, k: Key, hit: Entry -> bool)
    requires SortedByKey(lx, es)
    requires exists e :: e in es && HitAt(lx, k, hit, e)
    requires forall e :: e in es && hit(e) ==> k.Le(EvaluationKey(lx, e))
    ensures FirstHit(es, hit) == FirstHit(es, AtKey(lx, k, hit))
  {
    var least :| least in es && HitAt(lx, k, hit, least);
    if hit(es[0]) {
      assert NoLater(lx, es[0], least);
      assert HitAt(lx, k, hit, es[0]);
    } else {
      assert least in es[1..];
      FirstHasLeastKey(lx, es[1..], k, hit);
    }
  }

  /** Sorting moves no match before another of its key. */
  lemma FirstListed(lx: Lexicon, t: Tier, k: Key, hit: Entry -> bool)
    requires exists e :: e in Listed(lx, t) && HitAt(lx, k, hit, e)
    requires forall e :: e in Listed(lx, t) && hit(e) ==> k.Le(EvaluationKey(lx, e))
    ensures FirstHit(Entries(lx, t), hit) == FirstHit(Listed(lx, t), AtKey(lx, k, hit))
  {
    EntriesAreListed(lx, t);
    SortIsSorted(lx, Listed(lx, t));
    FirstHasLeastKey(lx, Entries(lx, t), k, hit);
    HitsOfOneKey(lx, Entries(lx, t), k, hit);
    HitsOfOneKey(lx, Listed(lx, t), k, hit);
    SortIsStable(lx, Listed(lx, t), k);
  }

  /** The lists hold the same matchers, each as often: one is an order of the other. */
  ghost predicate Reordered(t: Tier, u: Tier) {
    && multiset(t.block) == multiset(u.block)
    && multiset(t.direct) == multiset(u.direct)
    && multiset(t.proxy) == multiset(u.proxy)
  }

  lemma ReorderedIsSame(t: Tier, u: Tier)
    requires Reordered(t, u)
    ensures SameLists(t, u)
  {
    SameMembers(t.block, u.block);
    SameMembers(t.direct, u.direct);
    SameMembers(t.proxy, u.proxy);
  }

  lemma SameMembers(a: seq<string>, b: seq<string>)
    requires multiset(a) == multiset(b)
    ensures SameMatchers(a, b)
  {
    forall m ensures m in a <==> m in b {
      assert m in multiset(a) <==> m in multiset(b);
    }
  }

  /** The tier with the direct matcher at `i` moved to the head of its list. */
  function Led(t: Tier, i: nat): Tier
    requires i < |t.direct|
  {
    t.(direct := [t.direct[i]] + (t.direct[..i] + t.direct[i + 1..]))
  }

  lemma LedIsReordered(t: Tier, i: nat)
    requires i < |t.direct|
    ensures Reordered(t, Led(t, i))
  {
    assert t.direct == t.direct[..i] + [t.direct[i]] + t.direct[i + 1..];
  }

  lemma {:induction false} HeadIsClassifiedFirst(lx: Lexicon, matcher: string, rest: seq<string>, e: Entry)
    requires EntryOf(lx, matcher, Direct) == [e]
    ensures Classified(lx, [matcher] + rest, Direct) != [] && Classified(lx, [matcher] + rest, Direct)[0] == e
  {
    var all := [matcher] + rest;
    if rest == [] {
      assert all == [matcher] && all[..0] == [];
    } else {
      assert all[..|all| - 1] == [matcher] + rest[..|rest| - 1];
      HeadIsClassifiedFirst(lx, matcher, rest[..|rest| - 1], e);
    }
  }

  lemma LedComesFirst(lx: Lexicon, t: Tier, i: nat, e: Entry, hit: Entry -> bool)
    requires i < |t.direct| && EntryOf(lx, t.direct[i], Direct) == [e] && hit(e)
    requires forall x :: hit(x) ==> x.target == Direct
    ensures FirstHit(Listed(lx, Led(t, i)), hit) == Some(e)
  {
    var blocks := Classified(lx, t.block, Block);
    var direct := Classified(lx, Led(t, i).direct, Direct);
    var rest := direct + Classified(lx, t.proxy, Proxy);
    HeadIsClassifiedFirst(lx, t.direct[i], t.direct[..i] + t.direct[i + 1..], e);
    assert rest[0] == e;
    EntryTargets(lx, t.block, Block);
    assert FirstHit(blocks, hit).None?;
    FirstHitConcat(blocks, rest, hit);
    assert Listed(lx, Led(t, i)) == blocks + rest;
  }

  lemma DirectMatcher(lx: Lexicon, t: Tier, e: Entry) returns (i: nat)
    requires e in Listed(lx, t) && e.target == Direct
    ensures i < |t.direct| && EntryOf(lx, t.direct[i], Direct) == [e]
  {
    EntryTargets(lx, t.block, Block);
    EntryTargets(lx, t.proxy, Proxy);
    ClassifiedMembers(lx, t.direct, Direct);
    var matcher :| matcher in t.direct && EntryOf(lx, matcher, Direct) == [e];
    i :| 0 <= i < |t.direct| && t.direct[i] == matcher;
  }

  /** The key of a direct geosite and of a direct geoip. */
  const TIED := Key(1, 4, 0, 1)

  /** A flow that matches no block and nothing more specific goes by the tied entry listed first. */
  lemma LedTakesTheFlow(lx: Lexicon, t: Tier, i: nat, e: Entry, hit: Entry -> bool)
    requires e in Listed(lx, t) && (e.kind == GeoSite || e.kind == GeoIP) && hit(e)
    requires i < |t.direct| && EntryOf(lx, t.direct[i], Direct) == [e]
    requires forall x :: x in Listed(lx, t) && hit(x) ==> x.target != Block && TIED.Le(EvaluationKey(lx, x))
    ensures TagBy(lx, Led(t, i), hit) == Some(if e.ByAddress() then TierDirect(0) else DirectTag)
  {
    EntryIsDirect(lx, t.direct[i], e);
    LedIsReordered(t, i);
    TiedIsDirect(lx, hit);
    assert HitAt(lx, TIED, hit, e);
    LedComesFirst(lx, t, i, e, AtKey(lx, TIED, hit));
    ReorderedTakesTheFlow(lx, t, Led(t, i), e, hit);
  }

  lemma ReorderedTakesTheFlow(lx: Lexicon, t: Tier, u: Tier, e: Entry, hit: Entry -> bool)
    requires Reordered(t, u) && e in Listed(lx, t) && HitAt(lx, TIED, hit, e) && e.target == Direct
    requires FirstHit(Listed(lx, u), AtKey(lx, TIED, hit)) == Some(e)
    requires forall x :: x in Listed(lx, t) && hit(x) ==> x.target != Block && TIED.Le(EvaluationKey(lx, x))
    ensures TagBy(lx, u, hit) == Some(if e.ByAddress() then TierDirect(0) else DirectTag)
  {
    ReorderedIsSame(t, u);
    SameListed(lx, t, u);
    FirstTakesTheFlow(lx, u, e, hit);
  }

  lemma TiedIsDirect(lx: Lexicon, hit: Entry -> bool)
    ensures forall x :: AtKey(lx, TIED, hit)(x) ==> x.target == Direct
  {
    forall x | HitAt(lx, TIED, hit, x) ensures x.target == Direct {
      assert EvaluationKey(lx, x).outcome == OutcomeRank(x.target);
    }
  }

  lemma EntryIsDirect(lx: Lexicon, matcher: string, e: Entry)
    requires EntryOf(lx, matcher, Direct) == [e]
    ensures e.target == Direct
  {
    assert EntryOf(lx, matcher, Direct)[0] == e;
  }

  lemma FirstTakesTheFlow(lx: Lexicon, u: Tier, e: Entry, hit: Entry -> bool)
    requires e in Listed(lx, u) && HitAt(lx, TIED, hit, e) && e.target == Direct
    requires FirstHit(Listed(lx, u), AtKey(lx, TIED, hit)) == Some(e)
    requires forall x :: x in Listed(lx, u) && hit(x) ==> x.target != Block && TIED.Le(EvaluationKey(lx, x))
    ensures TagBy(lx, u, hit) == Some(if e.ByAddress() then TierDirect(0) else DirectTag)
  {
    FirstListed(lx, u, TIED, hit);
    UnblockedVerdict(lx, u, e, hit);
    TagByFirst(lx, u, hit);
  }

  lemma UnblockedVerdict(lx: Lexicon, t: Tier, e: Entry, hit: Entry -> bool)
    requires FirstHit(Entries(lx, t), hit) == Some(e)
    requires forall x :: x in Listed(lx, t) && hit(x) ==> x.target != Block
    ensures FirstStep(Steps(lx, t), hit) == Some(e.target)
  {
    var es := Entries(lx, t);
    EntriesAreListed(lx, t);
    OfPlaneMembers(es, NamePlane);
    OfPlaneMembers(es, AddressPlane);
    assert es[0..] == es;
    StepsFollowTheList(es, 0, hit);
  }

  // ---------------------------------------------------------------- a flow for every tie

  function DefaultRoute(family: Family): string {
    if family == V4 then ALL_V4 else ALL_V6
  }

  /** The matching of a name the geosite holds and the addresses the geoip holds. It is sound: "." and
      the default route of an address's own family match too. */
  function TiedMatching(lx: Lexicon, site: string, ip: string): Matching {
    Matching(
      (kind: MatchKind, value: string, name: string) =>
        (kind == GeoSite && value == site) || (kind == DomainRegex && value == ANY_NAME),
      (kind: MatchKind, value: string, a: Addr) =>
        (kind == GeoIP && value == ip && a.value == 0)
        || (kind == IPCIDR && NormalizeCIDR(lx, value) == DefaultRoute(a.family)),
      (value: string, app: string) => false)
  }

  /** A name of two addresses, the first of them in the geoip. */
  function TiedFlow(family: Family): View {
    View(AppTraffic, "name", {Addr(family, 0), Addr(family, 1)}, "", false, 443)
  }

  lemma NormalizedStays(lx: Lexicon, value: string)
    ensures NormalizeCIDR(lx, NormalizeCIDR(lx, value)) == NormalizeCIDR(lx, value)
  {
    var s := TrimSpace(value);
    TrimmedStays(value, IsSpace);
    if '/' !in s {
      assert TrimSpace(s + "/32") == s + "/32" && TrimSpace(s + "/128") == s + "/128";
      assert (s + "/32")[|s|] == '/' && (s + "/128")[|s|] == '/';
    }
  }

  lemma DefaultIsNormal(lx: Lexicon, family: Family)
    ensures NormalizeCIDR(lx, DefaultRoute(family)) == DefaultRoute(family)
  {
    assert TrimSpace(ALL_V4) == ALL_V4 && TrimSpace(ALL_V6) == ALL_V6;
    assert ALL_V4[7] == '/' && ALL_V6[2] == '/';
  }

  lemma TiedIsSound(lx: Lexicon, site: string, ip: string)
    requires lx.localNetworks != []
    ensures Sound(lx, TiedMatching(lx, site, ip))
  {
    DefaultIsNormal(lx, V4);
    DefaultIsNormal(lx, V6);
    forall value ensures NormalizeCIDR(lx, NormalizeCIDR(lx, value)) == NormalizeCIDR(lx, value) {
      NormalizedStays(lx, value);
    }
    var m := TiedMatching(lx, site, ip);
    forall a ensures m.address(IPCIDR, ALL_V4, a) || m.address(IPCIDR, ALL_V6, a) {
      assert a.family == V4 || a.family == V6;
    }
  }

  /** A listed address is spelled without spaces around it. */
  lemma ListedIsTrimmed(lx: Lexicon, t: Tier, e: Entry)
    requires e in Listed(lx, t) && e.kind == IPCIDR
    ensures TrimSpace(e.value) == e.value
  {
    ClassifiedMembers(lx, t.block, Block);
    ClassifiedMembers(lx, t.direct, Direct);
    ClassifiedMembers(lx, t.proxy, Proxy);
    var matcher, target :| EntryOf(lx, matcher, target) == [e];
    AddressIsTrimmed(lx, matcher, target, e);
  }

  lemma AddressIsTrimmed(lx: Lexicon, matcher: string, target: Target, e: Entry)
    requires EntryOf(lx, matcher, target) == [e] && e.kind == IPCIDR
    ensures TrimSpace(e.value) == e.value
  {
    TrimmedStays(matcher, IsSpace);
    assert EntryOf(lx, matcher, target)[0] == e;
  }

  /** Only a default route reads as one. */
  lemma OnlyTheDefaultReadsAsOne(lx: Lexicon, value: string, family: Family)
    requires TrimSpace(value) == value && NormalizeCIDR(lx, value) == DefaultRoute(family)
    ensures value == DefaultRoute(family)
  {
    assert DefaultRoute(family)[|DefaultRoute(family)| - 1] == '0';
    assert (value + "/32")[|value| + 2] == '2' && (value + "/128")[|value| + 3] == '8';
  }

  lemma TiedHits(lx: Lexicon, site: string, ip: string, family: Family, x: Entry)
    ensures Hit(TiedMatching(lx, site, ip), TiedFlow(family))(x) <==>
      || (x.kind == GeoSite && x.value == site) || (x.kind == GeoIP && x.value == ip)
      || (x.kind == DomainRegex && x.value == ANY_NAME)
      || (x.kind == IPCIDR && NormalizeCIDR(lx, x.value) == DefaultRoute(family))
  {
    assert Addr(family, 0) in TiedFlow(family).ips;
  }

  lemma TiedLeads(lx: Lexicon, t: Tier, a: Entry, b: Entry, family: Family, x: Entry)
    requires IsTie(lx, t, a, b) && !Lists(lx, t, DomainRegex, ANY_NAME)
    requires !Lists(lx, t, IPCIDR, DefaultRoute(family))
    requires x in Listed(lx, t) && Hit(TiedMatching(lx, a.value, b.value), TiedFlow(family))(x)
    ensures x.target != Block && TIED.Le(EvaluationKey(lx, x))
  {
    TiedHits(lx, a.value, b.value, family, x);
    assert x == Entry(x.kind, x.value, x.target);
    if x.kind == IPCIDR {
      ListedIsTrimmed(lx, t, x);
      OnlyTheDefaultReadsAsOne(lx, x.value, family);
    }
    assert x == a.(target := x.target) || x == b.(target := x.target);
  }

  lemma NothingHoldsTheSecond(lx: Lexicon, t: Tier, a: Entry, b: Entry, family: Family, x: Entry)
    requires !Lists(lx, t, IPCIDR, DefaultRoute(family)) && x in Listed(lx, t) && x.ByAddress()
    ensures !TiedMatching(lx, a.value, b.value).address(x.kind, x.value, Addr(family, 1))
  {
    assert x == Entry(x.kind, x.value, x.target);
    if x.kind == IPCIDR && NormalizeCIDR(lx, x.value) == DefaultRoute(family) {
      ListedIsTrimmed(lx, t, x);
      OnlyTheDefaultReadsAsOne(lx, x.value, family);
    }
  }

  /** For every such pair there are a flow, matched as an engine may match it, and two orders of the
      tier's own list that send it to different direct outbounds. No address entry of the tier holds
      the flow's second address. */
  lemma TieIsDecidedByOrder(lx: Lexicon, t: Tier, a: Entry, b: Entry)
    returns (u: Tier, w: Tier, m: Matching, family: Family)
    requires lx.localNetworks != [] && IsTie(lx, t, a, b) && !Overshadowed(lx, t)
    ensures Sound(lx, m) && Reordered(t, u) && Reordered(t, w)
    ensures var hit := Hit(m, TiedFlow(family));
            TagBy(lx, u, hit) == Some(DirectTag) && TagBy(lx, w, hit) == Some(TierDirect(0))
    ensures forall x :: x in Listed(lx, t) && x.ByAddress() ==> !m.address(x.kind, x.value, Addr(family, 1))
  {
    var i := DirectMatcher(lx, t, a);
    var j := DirectMatcher(lx, t, b);
    family := if Lists(lx, t, IPCIDR, ALL_V4) then V6 else V4;
    u, w, m := Led(t, i), Led(t, j), TiedMatching(lx, a.value, b.value);
    var hit := Hit(m, TiedFlow(family));
    TiedIsSound(lx, a.value, b.value);
    LedIsReordered(t, i);
    LedIsReordered(t, j);
    TiedHits(lx, a.value, b.value, family, a);
    TiedHits(lx, a.value, b.value, family, b);
    forall x | x in Listed(lx, t) && hit(x) ensures x.target != Block && TIED.Le(EvaluationKey(lx, x)) {
      TiedLeads(lx, t, a, b, family, x);
    }
    LedTakesTheFlow(lx, t, i, a, hit);
    LedTakesTheFlow(lx, t, j, b, hit);
    forall x | x in Listed(lx, t) && x.ByAddress() ensures !m.address(x.kind, x.value, Addr(family, 1)) {
      NothingHoldsTheSecond(lx, t, a, b, family, x);
    }
  }

  /** No order of the lists changes which outbound a flow takes, however an engine matches. */
  ghost predicate OrderFree(lx: Lexicon, t: Tier) {
    forall u, m, v :: Sound(lx, m) && Reordered(t, u) ==> TagBy(lx, u, Hit(m, v)) == TagBy(lx, t, Hit(m, v))
  }

  /** The same, when matchers may be repeated too. */
  ghost predicate RepetitionFree(lx: Lexicon, t: Tier) {
    forall u, m, v :: Sound(lx, m) && SameLists(t, u) ==> TagBy(lx, u, Hit(m, v)) == TagBy(lx, t, Hit(m, v))
  }

  /** In a tier with its own direct outbound the order of the lists decides between that outbound and
      the plain one for some flow exactly when the tier lists a direct geosite and a direct geoip,
      neither of them as a block too, and nothing more specific that matches every name or, taken
      together, every address. */
  lemma OrderDecidesExactlyTies(lx: Lexicon, t: Tier)
    requires lx.localNetworks != []
    ensures OrderFree(lx, t) <==> !HoldsTie(lx, t)
    ensures RepetitionFree(lx, t) <==> !HoldsTie(lx, t)
  {
    if HoldsTie(lx, t) {
      var a, b :| IsTie(lx, t, a, b);
      var u, w, m, family := TieIsDecidedByOrder(lx, t, a, b);
      ReorderedIsSame(t, u);
      ReorderedIsSame(t, w);
      assert TagBy(lx, u, Hit(m, TiedFlow(family))) != TagBy(lx, w, Hit(m, TiedFlow(family)));
    } else {
      forall u, m, v | Sound(lx, m) && SameLists(t, u) ensures TagBy(lx, u, Hit(m, v)) == TagBy(lx, t, Hit(m, v)) {
        NoTieNoOrder(lx, t, u, m, v);
      }
      forall u | Reordered(t, u) ensures SameLists(t, u) {
        ReorderedIsSame(t, u);
      }
    }
  }
}
