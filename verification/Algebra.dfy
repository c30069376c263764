/** The algebra of a tier's verdict: it depends only on which matchers each list holds, and a block
    added to it can only turn an outcome into a block. */
module Algebra {
  import opened Text
  import opened Routing
  import opened Meaning

  ghost predicate SameMatchers(a: seq<string>, b: seq<string>) {
    forall m :: m in a <==> m in b
  }

  /** The lists hold the same matchers: reordered, repeated or not. */
  ghost predicate SameLists(t: Tier, u: Tier) {
    SameMatchers(t.block, u.block) && SameMatchers(t.direct, u.direct) && SameMatchers(t.proxy, u.proxy)
  }

  /** `u` is `t` with any number of matchers added to its block list, anywhere in it. */
  ghost predicate BlockGrown(t: Tier, u: Tier) {
    && (forall m :: m in t.block ==> m in u.block)
    && SameMatchers(t.direct, u.direct)
    && SameMatchers(t.proxy, u.proxy)
  }

  lemma {:induction false} ClassifiedMembers(lx: Lexicon, ms: seq<string>, target: Target)
    ensures forall e :: e in Classified(lx, ms, target) <==> exists m :: m in ms && EntryOf(lx, m, target) == [e]
  {
    if ms != [] {
      var front, last := ms[..|ms| - 1], ms[|ms| - 1];
      ClassifiedMembers(lx, front, target);
      assert ms == front + [last];
      forall e ensures e in Classified(lx, ms, target) <==> exists m :: m in ms && EntryOf(lx, m, target) == [e] {
        if e in EntryOf(lx, last, target) {
          assert last in ms && EntryOf(lx, last, target) == [e];
        }
        if e in Classified(lx, front, target) {
          var m :| m in front && EntryOf(lx, m, target) == [e];
          assert m in ms;
        }
      }
    }
  }

  lemma EntryTargets(lx: Lexicon, ms: seq<string>, target: Target)
    ensures forall e :: e in Classified(lx, ms, target) ==> e.target == target
  {
    ClassifiedMembers(lx, ms, target);
    forall e | e in Classified(lx, ms, target) ensures e.target == target {
      var m :| m in ms && EntryOf(lx, m, target) == [e];
      assert EntryOf(lx, m, target)[0] == e;
    }
  }

  lemma GrownClassified(lx: Lexicon, a: seq<string>, b: seq<string>, target: Target)
    requires forall m :: m in a ==> m in b
    ensures forall e :: e in Classified(lx, a, target) ==> e in Classified(lx, b, target)
  {
    ClassifiedMembers(lx, a, target);
    ClassifiedMembers(lx, b, target);
  }

  /** A tier's verdict depends only on the sets of its matchers, though the steps it is lowered to
      may differ. */
  lemma OrderAndRepetitionDoNotMatter(lx: Lexicon, t: Tier, u: Tier, hit: Entry -> bool)
    requires SameLists(t, u)
    ensures EntrySet(lx, t) == EntrySet(lx, u)
    ensures FirstStep(Steps(lx, t), hit) == FirstStep(Steps(lx, u), hit)
  {
    GrownClassified(lx, t.block, u.block, Block);
    GrownClassified(lx, u.block, t.block, Block);
    GrownClassified(lx, t.direct, u.direct, Direct);
    GrownClassified(lx, u.direct, t.direct, Direct);
    GrownClassified(lx, t.proxy, u.proxy, Proxy);
    GrownClassified(lx, u.proxy, t.proxy, Proxy);
    LoweringPreservesMeaning(lx, t, hit);
    LoweringPreservesMeaning(lx, u, hit);
  }

  lemma SameListed(lx: Lexicon, t: Tier, u: Tier)
    requires SameLists(t, u)
    ensures forall e :: e in Listed(lx, t) <==> e in Listed(lx, u)
  {
    OrderAndRepetitionDoNotMatter(lx, t, u, e => true);
    forall e ensures e in Listed(lx, t) <==> e in Listed(lx, u) {
      assert e in EntrySet(lx, t) <==> e in EntrySet(lx, u);
    }
  }

  // ---------------------------------------------------------------- blocking is monotone

  lemma {:induction false} LeastExists(lx: Lexicon, es: set<Entry>) returns (l: Entry)
    requires es != {}
    ensures l in es && forall e :: e in es ==> NoLater(lx, l, e)
    decreases |es|
  {
    var x :| x in es;
    if es == {x} {
      l := x;
    } else {
      var rest := LeastExists(lx, es - {x});
      l := if NoLater(lx, x, rest) then x else rest;
      forall e | e in es ensures NoLater(lx, l, e) {
        if e != x {
          assert NoLater(lx, rest, e);
        }
      }
    }
  }

  lemma GrownStaysBlocked(lx: Lexicon, es: set<Entry>, more: set<Entry>, hit: Entry -> bool, p: Plane)
    requires forall e :: e in more ==> e.target == Block
    requires BlockedIn(lx, es, hit, p)
    ensures BlockedIn(lx, es + more, hit, p)
  {
    var b :| b in es && hit(b) && b.Plane() == p && b.target == Block
             && forall e :: e in es && hit(e) && e.Plane() == p ==> NoLater(lx, b, e);
    var matching := set e | e in es + more && hit(e) && e.Plane() == p;
    assert b in matching;
    var l := LeastExists(lx, matching);
    if l !in more {
      TiedOutcome(lx, l, b);
    }
  }

  /** Blocks added to a tier leave its verdict as it was, or make it a block. */
  lemma BlocksOnlyBlock(lx: Lexicon, es: set<Entry>, more: set<Entry>, hit: Entry -> bool)
    requires forall e :: e in more ==> e.target == Block
    ensures Verdict(lx, es + more, hit) == Verdict(lx, es, hit) || Verdict(lx, es + more, hit) == Some(Block)
  {
    if exists p :: BlockedIn(lx, es, hit, p) {
      var p :| BlockedIn(lx, es, hit, p);
      GrownStaysBlocked(lx, es, more, hit, p);
    } else if !exists p :: BlockedIn(lx, es + more, hit, p) {
      forall t ensures Chosen(lx, es + more, hit, t) <==> Chosen(lx, es, hit, t) {
        ChosenUnlessBlocked(lx, es, more, hit, t);
      }
    }
  }

  lemma ChosenUnlessBlocked(lx: Lexicon, es: set<Entry>, more: set<Entry>, hit: Entry -> bool, t: Target)
    requires forall e :: e in more ==> e.target == Block
    requires !exists p :: BlockedIn(lx, es + more, hit, p)
    ensures Chosen(lx, es + more, hit, t) <==> Chosen(lx, es, hit, t)
  {
    var matching := set e | e in es + more && hit(e);
    if matching != {} {
      var l := LeastExists(lx, matching);
      if l.target == Block {
        assert BlockedIn(lx, es + more, hit, l.Plane());
      }
      assert l in es;
      if Chosen(lx, es, hit, t) {
        var c :| c in es && hit(c) && c.target == t && forall e :: e in es && hit(e) ==> NoLater(lx, c, e);
        TiedOutcome(lx, c, l);
      }
      if Chosen(lx, es + more, hit, t) {
        var c :| && c in es + more && hit(c) && c.target == t
                 && forall e :: e in es + more && hit(e) ==> NoLater(lx, c, e);
        TiedOutcome(lx, c, l);
      }
    } else {
      forall e | e in es + more ensures !hit(e) {
        assert e !in matching;
      }
    }
  }

  /** Blocking is monotone through sorting, run splitting and guard steps. */
  lemma BlockingIsMonotone(lx: Lexicon, t: Tier, u: Tier, hit: Entry -> bool)
    requires BlockGrown(t, u)
    ensures FirstStep(Steps(lx, u), hit) == FirstStep(Steps(lx, t), hit) || FirstStep(Steps(lx, u), hit) == Some(Block)
  {
    GrownClassified(lx, t.block, u.block, Block);
    GrownClassified(lx, t.direct, u.direct, Direct);
    GrownClassified(lx, u.direct, t.direct, Direct);
    GrownClassified(lx, t.proxy, u.proxy, Proxy);
    GrownClassified(lx, u.proxy, t.proxy, Proxy);
    EntryTargets(lx, u.block, Block);
    var more := SetOf(Classified(lx, u.block, Block));
    assert EntrySet(lx, u) == EntrySet(lx, t) + more;
    BlocksOnlyBlock(lx, EntrySet(lx, t), more, hit);
    LoweringPreservesMeaning(lx, t, hit);
    LoweringPreservesMeaning(lx, u, hit);
  }

  // ---------------------------------------------------------------- the verdict plane by plane

  ghost predicate AppSays(es: set<Entry>, hit: Entry -> bool, t: Target) {
    exists e :: e in es && hit(e) && e.kind == Process && e.target == t
  }

  /** The most specific name or address match has outcome `t`. */
  ghost predicate SiteChosen(lx: Lexicon, es: set<Entry>, hit: Entry -> bool, t: Target) {
    exists c ::
      && c in es && hit(c) && c.kind != Process && c.target == t
      && forall e :: e in es && hit(e) && e.kind != Process ==> NoLater(lx, c, e)
  }

  /** A matching app block blocks; so does the name plane's or the address plane's first match, if it
      is a block; else the most specific name or address match decides, and only where none matches
      the app's own direct or proxy. */
  ghost function PlaneVerdict(lx: Lexicon, es: set<Entry>, hit: Entry -> bool): Option<Target> {
    if AppSays(es, hit, Block) || BlockedIn(lx, es, hit, NamePlane) || BlockedIn(lx, es, hit, AddressPlane)
    then Some(Block)
    else if SiteChosen(lx, es, hit, Direct) then Some(Direct)
    else if SiteChosen(lx, es, hit, Proxy) then Some(Proxy)
    else if AppSays(es, hit, Direct) then Some(Direct)
    else if AppSays(es, hit, Proxy) then Some(Proxy)
    else None
  }

  lemma AppBlocksLead(lx: Lexicon, es: set<Entry>, hit: Entry -> bool)
    ensures AppSays(es, hit, Block) <==> BlockedIn(lx, es, hit, AppPlane)
  {
    if AppSays(es, hit, Block) {
      var b :| b in es && hit(b) && b.kind == Process && b.target == Block;
      assert forall e :: e in es && hit(e) && e.Plane() == AppPlane ==> NoLater(lx, b, e);
    }
  }

  lemma SitesDecide(lx: Lexicon, es: set<Entry>, hit: Entry -> bool, site: Entry, t: Target)
    requires site in es && hit(site) && site.kind != Process && !AppSays(es, hit, Block)
    ensures Chosen(lx, es, hit, t) <==> SiteChosen(lx, es, hit, t)
  {
    if Chosen(lx, es, hit, t) {
      var c :| c in es && hit(c) && c.target == t && forall e :: e in es && hit(e) ==> NoLater(lx, c, e);
      AppsComeAfter(lx, es, hit, c, site);
    }
    if SiteChosen(lx, es, hit, t) {
      var c :| c in es && hit(c) && c.kind != Process && c.target == t
               && forall e :: e in es && hit(e) && e.kind != Process ==> NoLater(lx, c, e);
      forall e | e in es && hit(e) ensures NoLater(lx, c, e) {
        AppsComeAfter(lx, es, hit, e, c);
      }
    }
  }

  /** Without a matching app block every matching app entry comes after every site entry. */
  lemma AppsComeAfter(lx: Lexicon, es: set<Entry>, hit: Entry -> bool, e: Entry, site: Entry)
    requires e in es && hit(e) && site.kind != Process && !AppSays(es, hit, Block)
    ensures e.kind == Process ==> NoLater(lx, site, e) && !NoLater(lx, e, site)
  {
  }

  lemma SomeSiteIsChosen(lx: Lexicon, es: set<Entry>, hit: Entry -> bool, site: Entry) returns (t: Target)
    requires site in es && hit(site) && site.kind != Process
    ensures SiteChosen(lx, es, hit, t)
    ensures t == Block ==> BlockedIn(lx, es, hit, NamePlane) || BlockedIn(lx, es, hit, AddressPlane)
  {
    var sites := set e | e in es && hit(e) && e.kind != Process;
    assert site in sites;
    var l := LeastExists(lx, sites);
    t := l.target;
    assert forall e :: e in es && hit(e) && e.kind != Process ==> e in sites;
    if t == Block {
      assert BlockedIn(lx, es, hit, l.Plane());
    }
  }

  lemma AppsClose(lx: Lexicon, es: set<Entry>, hit: Entry -> bool)
    requires forall e :: e in es && hit(e) ==> e.kind == Process && e.target != Block
    ensures Chosen(lx, es, hit, Direct) <==> AppSays(es, hit, Direct)
    ensures !AppSays(es, hit, Direct) ==> (Chosen(lx, es, hit, Proxy) <==> AppSays(es, hit, Proxy))
  {
    if AppSays(es, hit, Direct) {
      var c :| c in es && hit(c) && c.kind == Process && c.target == Direct;
      assert forall e :: e in es && hit(e) ==> NoLater(lx, c, e);
    } else if AppSays(es, hit, Proxy) {
      var c :| c in es && hit(c) && c.kind == Process && c.target == Proxy;
      assert forall e :: e in es && hit(e) ==> NoLater(lx, c, e);
    }
  }

  /** What the steps of a tier give every flow, in the words of its rules. */
  lemma StepsGiveThePlaneVerdict(lx: Lexicon, t: Tier, hit: Entry -> bool)
    ensures FirstStep(Steps(lx, t), hit) == PlaneVerdict(lx, EntrySet(lx, t), hit)
  {
    LoweringPreservesMeaning(lx, t, hit);
    VerdictPlaneByPlane(lx, EntrySet(lx, t), hit);
  }

  lemma VerdictPlaneByPlane(lx: Lexicon, es: set<Entry>, hit: Entry -> bool)
    ensures Verdict(lx, es, hit) == PlaneVerdict(lx, es, hit)
  {
    AppBlocksLead(lx, es, hit);
    var blocked := BlockedIn(lx, es, hit, NamePlane) || BlockedIn(lx, es, hit, AddressPlane);
    if AppSays(es, hit, Block) || blocked {
    } else if site :| site in es && hit(site) && site.kind != Process {
      var t := SomeSiteIsChosen(lx, es, hit, site);
      SitesDecide(lx, es, hit, site, Direct);
      SitesDecide(lx, es, hit, site, Proxy);
    } else {
      AppsClose(lx, es, hit);
    }
  }
}
