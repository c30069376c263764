/** What more block entries can do to a flow, on either engine and under every domain strategy. */
module Monotone {
  import opened Text
  import opened Routing
  import opened Meaning
  import opened Algebra
  import opened Policy
  import opened Xray
  import opened XrayMeaning
  import opened Agreement
  import opened Guarantees
  import M = Mihomo

  ghost predicate MoreBlocks(p: Profile, q: Profile) {
    && q == p.(tiers := q.tiers)
    && |p.tiers| == |q.tiers|
    && forall i :: 0 <= i < |p.tiers| ==> BlockGrown(p.tiers[i], q.tiers[i])
  }

  lemma {:induction false} GrownTiersVerdict(lx: Lexicon, a: seq<Tier>, b: seq<Tier>, hit: Entry -> bool)
    requires |a| == |b| && forall i :: 0 <= i < |a| ==> BlockGrown(a[i], b[i])
    ensures TiersVerdict(lx, b, hit) == TiersVerdict(lx, a, hit) || TiersVerdict(lx, b, hit) == Some(Block)
  {
    if a != [] {
      var n := |a| - 1;
      GrownTiersVerdict(lx, a[..n], b[..n], hit);
      BlockingIsMonotone(lx, a[n], b[n], hit);
      LoweringPreservesMeaning(lx, a[n], hit);
      LoweringPreservesMeaning(lx, b[n], hit);
    }
  }

  lemma GrownListsAddress(lx: Lexicon, p: Profile, q: Profile)
    requires MoreBlocks(p, q) && ListsAddress(lx, p.tiers)
    ensures ListsAddress(lx, q.tiers)
  {
    var t, e :| t in p.tiers && e in Listed(lx, t) && e.ByAddress();
    var i :| 0 <= i < |p.tiers| && p.tiers[i] == t;
    GrownListed(lx, t, q.tiers[i], e);
    assert q.tiers[i] in q.tiers;
  }

  lemma GrownListed(lx: Lexicon, t: Tier, u: Tier, e: Entry)
    requires BlockGrown(t, u) && e in Listed(lx, t)
    ensures e in Listed(lx, u)
  {
    GrownClassified(lx, t.block, u.block, Block);
    GrownClassified(lx, t.direct, u.direct, Direct);
    GrownClassified(lx, t.proxy, u.proxy, Proxy);
  }

  // ---------------------------------------------------------------- tiers without addresses

  lemma SameHitsSameVerdict(lx: Lexicon, es: set<Entry>, a: Entry -> bool, b: Entry -> bool)
    requires forall e :: e in es ==> a(e) == b(e)
    ensures Verdict(lx, es, a) == Verdict(lx, es, b)
  {
    forall p ensures BlockedIn(lx, es, a, p) == BlockedIn(lx, es, b, p) {
    }
    forall t ensures Chosen(lx, es, a, t) == Chosen(lx, es, b, t) {
    }
  }

  /** Tiers that hold no address entry say the same of a flow whatever addresses it is seen with. */
  lemma {:induction false} AddressesDoNotMatter(lx: Lexicon, tiers: seq<Tier>, m: Matching, v: View, w: View)
    requires !ListsAddress(lx, tiers) && w == v.(ips := w.ips)
    ensures TiersVerdict(lx, tiers, Hit(m, v)) == TiersVerdict(lx, tiers, Hit(m, w))
  {
    if tiers != [] {
      var front, last := tiers[..|tiers| - 1], tiers[|tiers| - 1];
      NoneHeld(lx, tiers, front, last);
      AddressesDoNotMatter(lx, front, m, v, w);
      NoAddressNoDifference(lx, last, m, v, w);
      SameHitsSameVerdict(lx, EntrySet(lx, last), Hit(m, v), Hit(m, w));
    }
  }

  lemma NoneHeld(lx: Lexicon, tiers: seq<Tier>, front: seq<Tier>, last: Tier)
    requires tiers == front + [last] && !ListsAddress(lx, tiers)
    ensures !ListsAddress(lx, front)
    ensures forall e :: e in Listed(lx, last) ==> !e.ByAddress()
  {
    forall t | t in front ensures t in tiers {
    }
    assert last in tiers;
  }

  lemma NoAddressNoDifference(lx: Lexicon, t: Tier, m: Matching, v: View, w: View)
    requires forall e :: e in Listed(lx, t) ==> !e.ByAddress()
    requires w == v.(ips := w.ips)
    ensures forall e :: e in EntrySet(lx, t) ==> Hit(m, v)(e) == Hit(m, w)(e)
  {
    forall e | e in EntrySet(lx, t) ensures Hit(m, v)(e) == Hit(m, w)(e) {
      assert e in Listed(lx, t);
    }
  }

  // ---------------------------------------------------------------- the exact condition

  /** The one way a block entry moves an outcome elsewhere than to a block: it is the first address
      entry of a direct-all profile under IPIfNonMatch, so the catch-all starts to wait for an
      address, and the flow never has one. */
  ghost predicate FallsThrough(lx: Lexicon, p: Profile, q: Profile, m: Matching, f: Flow, resolved: set<Addr>) {
    && p.strategy == IPIfNonMatch && p.DirectAll()
    && !ListsAddress(lx, p.tiers) && ListsAddress(lx, q.tiers)
    && f.addr.None? && (f.name == "" || resolved == {})
    && TiersVerdict(lx, q.tiers, Hit(m, Seen(f, {}))) == None
    && !KillSwitch(p, m, Seen(f, {}))
  }

  predicate SameOrBlock(before: Target, after: Target) {
    after == before || after == Block
  }

  lemma NoAddressIsNotLocal(lx: Lexicon, m: Matching, v: View)
    requires v.ips == {}
    ensures !InLocalNetworks(lx, m, v)
  {
  }

  /** As long as the catch-all waits as before, each pass gives what it gave or a block. */
  lemma SameWait(
      lx: Lexicon, p: Profile, q: Profile, m: Matching, v: View, blocked: bool, blocked': bool,
      before: Option<Target>, after: Option<Target>, waits: bool)
    requires q == p.(tiers := q.tiers) && v.inbound == AppTraffic && (after == before || after == Some(Block))
    ensures PassDecision(lx, q, m, v, blocked', after, waits) == PassDecision(lx, p, m, v, blocked, before, waits)
         || PassDecision(lx, q, m, v, blocked', after, waits) == Some(Block)
    ensures SameOrBlock(AppDecision(lx, p, m, v, before), AppDecision(lx, q, m, v, after))
  {
  }

  lemma SameWaitStrategy(
      strategy: Strategy, named: bool, asIs: Option<Target>, looked: Option<Target>,
      asIs': Option<Target>, looked': Option<Target>)
    requires asIs' == asIs || asIs' == Some(Block)
    requires looked' == looked || looked' == Some(Block)
    ensures SameOrBlock(
              StrategyDecision(strategy, named, asIs, looked), StrategyDecision(strategy, named, asIs', looked'))
  {
  }

  /** A pass of a catch-all that has begun to wait: as before or a block, unless the flow shows no
      address and no tier takes it. */
  lemma WaitingPass(
      lx: Lexicon, p: Profile, q: Profile, m: Matching, v: View, blocked: bool, blocked': bool,
      before: Option<Target>, after: Option<Target>)
    requires q == p.(tiers := q.tiers) && v.inbound == AppTraffic && (after == before || after == Some(Block))
    ensures var was := PassDecision(lx, p, m, v, blocked, before, false);
            var now := PassDecision(lx, q, m, v, blocked', after, true);
            && was.Some?
            && (now == None <==> v.ips == {} && after == None && !KillSwitch(p, m, v))
            && (now != None ==> now == was || now == Some(Block))
            && (now == None ==> was == Some(ModeTarget(p)))
  {
    if v.ips == {} {
      NoAddressIsNotLocal(lx, m, v);
    }
  }

  /** A named flow no tier takes goes by the mode, waiting or not. */
  lemma NamedGoesByMode(lx: Lexicon, p: Profile, m: Matching, v: View, blocked: bool)
    requires v.inbound == AppTraffic && v.name != "" && !KillSwitch(p, m, v)
    ensures PassDecision(lx, p, m, v, blocked, None, false) == Some(ModeTarget(p))
  {
  }

  /** Where the catch-all begins to wait, under IPIfNonMatch. */
  lemma BeginsToWait(
      lx: Lexicon, p: Profile, q: Profile, m: Matching, f: Flow, resolved: set<Addr>,
      blocked: bool, blocked': bool, blockedL: bool, blockedL': bool,
      vp: Option<Target>, vq: Option<Target>, lq: Option<Target>)
    requires q == p.(tiers := q.tiers) && f.inbound == AppTraffic
    requires (vq == vp || vq == Some(Block)) && (lq == vp || lq == Some(Block))
    requires Looked(f, resolved) == Seen(f, Own(f)) ==> lq == vq
    ensures var v := Seen(f, Own(f));
            var l := Looked(f, resolved);
            var before := PassDecision(lx, p, m, v, blocked, vp, false);
            var after := StrategyDecision(
              IPIfNonMatch, f.name != "", PassDecision(lx, q, m, v, blocked', vq, true),
              PassDecision(lx, q, m, l, blockedL', lq, true));
            && before.Some?
            && (SameOrBlock(before.value, after) <==>
                !(&& p.DirectAll() && f.addr.None? && (f.name == "" || resolved == {})
                  && vq == None && !KillSwitch(p, m, Seen(f, {}))))
  {
    var v, l := Seen(f, Own(f)), Looked(f, resolved);
    WaitingPass(lx, p, q, m, v, blocked, blocked', vp, vq);
    WaitingPass(lx, p, q, m, l, blockedL, blockedL', vp, lq);
    if f.name != "" && !KillSwitch(p, m, l) {
      NamedGoesByMode(lx, p, m, l, blockedL);
    }
  }

  lemma GrownStrategyPolicy(lx: Lexicon, p: Profile, q: Profile, m: Matching, f: Flow, resolved: set<Addr>)
    requires MoreBlocks(p, q) && f.inbound == AppTraffic
    ensures SameOrBlock(StrategyPolicy(lx, p, m, f, resolved), StrategyPolicy(lx, q, m, f, resolved))
        <==> !FallsThrough(lx, p, q, m, f, resolved)
  {
    if ListsAddress(lx, p.tiers) {
      GrownListsAddress(lx, p, q);
    }
    if AwaitsAddress(lx, p) == AwaitsAddress(lx, q) {
      KeepsWaiting(lx, p, q, m, f, resolved);
    } else {
      StartsWaiting(lx, p, q, m, f, resolved);
    }
  }

  lemma KeepsWaiting(lx: Lexicon, p: Profile, q: Profile, m: Matching, f: Flow, resolved: set<Addr>)
    requires MoreBlocks(p, q) && f.inbound == AppTraffic && AwaitsAddress(lx, p) == AwaitsAddress(lx, q)
    ensures SameOrBlock(StrategyPolicy(lx, p, m, f, resolved), StrategyPolicy(lx, q, m, f, resolved))
  {
    var v, l := Seen(f, Own(f)), Looked(f, resolved);
    OnePassGrown(lx, p, q, m, v);
    OnePassGrown(lx, p, q, m, l);
    SameWaitStrategy(
      p.strategy, f.name != "", PassPolicy(lx, p, m, v), PassPolicy(lx, p, m, l),
      PassPolicy(lx, q, m, v), PassPolicy(lx, q, m, l));
  }

  lemma OnePassGrown(lx: Lexicon, p: Profile, q: Profile, m: Matching, v: View)
    requires MoreBlocks(p, q) && v.inbound == AppTraffic && AwaitsAddress(lx, p) == AwaitsAddress(lx, q)
    ensures PassPolicy(lx, q, m, v) == PassPolicy(lx, p, m, v) || PassPolicy(lx, q, m, v) == Some(Block)
  {
    GrownTiersVerdict(lx, p.tiers, q.tiers, Hit(m, v));
    SameWait(
      lx, p, q, m, v, AnyBlockMatches(lx, p.tiers, Hit(m, v)), AnyBlockMatches(lx, q.tiers, Hit(m, v)),
      TiersVerdict(lx, p.tiers, Hit(m, v)), TiersVerdict(lx, q.tiers, Hit(m, v)), AwaitsAddress(lx, p));
  }

  lemma StartsWaiting(lx: Lexicon, p: Profile, q: Profile, m: Matching, f: Flow, resolved: set<Addr>)
    requires MoreBlocks(p, q) && f.inbound == AppTraffic && p.strategy == IPIfNonMatch
    requires !ListsAddress(lx, p.tiers) && ListsAddress(lx, q.tiers)
    ensures SameOrBlock(StrategyPolicy(lx, p, m, f, resolved), StrategyPolicy(lx, q, m, f, resolved))
        <==> !FallsThrough(lx, p, q, m, f, resolved)
  {
    var v, l := Seen(f, Own(f)), Looked(f, resolved);
    GrownTiersVerdict(lx, p.tiers, q.tiers, Hit(m, v));
    GrownTiersVerdict(lx, p.tiers, q.tiers, Hit(m, l));
    AddressesDoNotMatter(lx, p.tiers, m, v, l);
    BeginsToWait(
      lx, p, q, m, f, resolved, AnyBlockMatches(lx, p.tiers, Hit(m, v)), AnyBlockMatches(lx, q.tiers, Hit(m, v)),
      AnyBlockMatches(lx, p.tiers, Hit(m, l)), AnyBlockMatches(lx, q.tiers, Hit(m, l)),
      TiersVerdict(lx, p.tiers, Hit(m, v)), TiersVerdict(lx, q.tiers, Hit(m, v)), TiersVerdict(lx, q.tiers, Hit(m, l)));
  }

  lemma GrownPolicy(lx: Lexicon, p: Profile, q: Profile, m: Matching, v: View)
    requires MoreBlocks(p, q) && v.inbound == AppTraffic
    ensures SameOrBlock(AppPolicy(lx, p, m, v), AppPolicy(lx, q, m, v))
  {
    GrownTiersVerdict(lx, p.tiers, q.tiers, Hit(m, v));
    SameWait(
      lx, p, q, m, v, false, false, TiersVerdict(lx, p.tiers, Hit(m, v)), TiersVerdict(lx, q.tiers, Hit(m, v)), false);
  }

  /** Adding matchers to the block lists of any tiers moves an app flow's outcome only to a block: on
      mihomo always, on xray also after the dial where no name is resolved, and on xray's router under every strategy
      exactly where the flow does not fall through. A blocked flow stays blocked everywhere. */
  lemma BlocksNeverUnblock(
      lx: Lexicon, p: Profile, q: Profile, target: M.Route, m: Matching, f: Flow, resolved: set<Addr>)
    requires MoreBlocks(p, q) && Sound(lx, m) && Real(f) && f.inbound == AppTraffic && target.Named?
    ensures var before := ByMihomo(M.Rules(lx, p, target, HasProcessProxy(lx, p.tiers)), m, f);
            var after := ByMihomo(M.Rules(lx, q, target, HasProcessProxy(lx, q.tiers)), m, f);
            before.Some? && after.Some? && SameOrBlock(before.value, after.value)
    ensures Unresolved(p, f) ==>
            SameOrBlock(
              Dialed(lx, p, m, XrayTag(Rules(lx, p), p.strategy, m, f, resolved), f.addr),
              Dialed(lx, q, m, XrayTag(Rules(lx, q), q.strategy, m, f, resolved), f.addr))
    ensures var before := TagTarget(XrayTag(Rules(lx, p), p.strategy, m, f, resolved));
            var after := TagTarget(XrayTag(Rules(lx, q), q.strategy, m, f, resolved));
            && (SameOrBlock(before, after) <==> !FallsThrough(lx, p, q, m, f, resolved))
            && (before == Block ==> after == Block)
  {
    GrownPolicy(lx, p, q, m, Seen(f, Own(f)));
    MihomoFollowsPolicy(lx, p, target, m, f);
    MihomoFollowsPolicy(lx, q, target, m, f);
    if Unresolved(p, f) {
      XrayFollowsPolicy(lx, p, m, f, resolved);
      XrayFollowsPolicy(lx, q, m, f, resolved);
    }
    XrayUnderEveryStrategy(lx, p, m, f, resolved);
    XrayUnderEveryStrategy(lx, q, m, f, resolved);
    GrownStrategyPolicy(lx, p, q, m, f, resolved);
    if FallsThrough(lx, p, q, m, f, resolved) {
      FallsFromDirect(lx, p, q, m, f, resolved);
    }
  }

  lemma FallsFromDirect(lx: Lexicon, p: Profile, q: Profile, m: Matching, f: Flow, resolved: set<Addr>)
    requires MoreBlocks(p, q) && f.inbound == AppTraffic && FallsThrough(lx, p, q, m, f, resolved)
    ensures StrategyPolicy(lx, p, m, f, resolved) == Direct && StrategyPolicy(lx, q, m, f, resolved) == Proxy
  {
    var v := Seen(f, Own(f));
    assert Looked(f, resolved) == v;
    GrownTiersVerdict(lx, p.tiers, q.tiers, Hit(m, v));
    WaitingPass(
      lx, p, q, m, v, AnyBlockMatches(lx, p.tiers, Hit(m, v)), AnyBlockMatches(lx, q.tiers, Hit(m, v)),
      TiersVerdict(lx, p.tiers, Hit(m, v)), TiersVerdict(lx, q.tiers, Hit(m, v)));
  }

  // ---------------------------------------------------------------- a flow that falls through

  function OneAddressLexicon(): Lexicon {
    Lexicon(
      (c: char) => c, (s: string) => if s == "1.1.1.1" then Some(V4) else None, (s: string) => None, ["10.0.0.0/8"])
  }

  function EverythingMatches(): Matching {
    Matching(
      (kind: MatchKind, value: string, name: string) => true,
      (kind: MatchKind, value: string, a: Addr) => true,
      (value: string, app: string) => true)
  }

  const OPEN := Profile("direct-all", [Tier([], [], [])], IPIfNonMatch, false, false, false)
  const WITH_BLOCK := OPEN.(tiers := [Tier(["1.1.1.1"], [], [])])
  const UNRESOLVED := Flow(AppTraffic, "unresolved", None, "", false, 443)

  lemma BlockEntry(lx: Lexicon)
    requires lx == OneAddressLexicon()
    ensures Listed(lx, Tier(["1.1.1.1"], [], [])) == [Entry(IPCIDR, "1.1.1.1", Block)]
    ensures Listed(lx, Tier([], [], [])) == []
  {
    AddressIsClassified(lx, "1.1.1.1");
    OneClassified(lx, "1.1.1.1", Block);
  }

  lemma AddressIsClassified(lx: Lexicon, a: string)
    requires a == "1.1.1.1" && lx == OneAddressLexicon()
    ensures EntryOf(lx, a, Block) == [Entry(IPCIDR, a, Block)]
  {
    assert TrimSpace(a) == a;
  }

  lemma OneClassified(lx: Lexicon, matcher: string, target: Target)
    ensures Classified(lx, [matcher], target) == EntryOf(lx, matcher, target)
  {
    assert [matcher][..0] == [];
  }

  /** Blocking one address in a direct-all profile sends a name that does not resolve, direct before,
      to the proxy. */
  lemma OneBlockMovesAFlowToTheProxy()
    ensures var lx, m := OneAddressLexicon(), EverythingMatches();
            && MoreBlocks(OPEN, WITH_BLOCK) && Sound(lx, m) && Real(UNRESOLVED)
            && TagTarget(XrayTag(Rules(lx, OPEN), OPEN.strategy, m, UNRESOLVED, {})) == Direct
            && TagTarget(XrayTag(Rules(lx, WITH_BLOCK), WITH_BLOCK.strategy, m, UNRESOLVED, {})) == Proxy
  {
    var lx, m := OneAddressLexicon(), EverythingMatches();
    FallsThroughHere(lx, m);
    XrayUnderEveryStrategy(lx, OPEN, m, UNRESOLVED, {});
    XrayUnderEveryStrategy(lx, WITH_BLOCK, m, UNRESOLVED, {});
    FallsFromDirect(lx, OPEN, WITH_BLOCK, m, UNRESOLVED, {});
  }

  lemma FallsThroughHere(lx: Lexicon, m: Matching)
    requires lx == OneAddressLexicon() && m == EverythingMatches()
    ensures MoreBlocks(OPEN, WITH_BLOCK) && FallsThrough(lx, OPEN, WITH_BLOCK, m, UNRESOLVED, {})
  {
    var none, one := Tier([], [], []), Tier(["1.1.1.1"], [], []);
    var e := Entry(IPCIDR, "1.1.1.1", Block);
    BlockEntry(lx);
    EntriesAreListed(lx, none);
    EntriesAreListed(lx, one);
    assert OPEN.tiers[0] == none && WITH_BLOCK.tiers[0] == one;
    assert e in Entries(lx, one) && one in WITH_BLOCK.tiers && e.ByAddress();
    var hit := Hit(m, Seen(UNRESOLVED, {}));
    assert EntrySet(lx, one) == {e} && !hit(e);
    assert Verdict(lx, EntrySet(lx, one), hit) == None;
    assert WITH_BLOCK.tiers[..0] == [];
    assert TiersVerdict(lx, WITH_BLOCK.tiers, hit) == None;
  }
}
