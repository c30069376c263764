/** The routing results at the target a list of links is built with. */
module LinkTargets {
  import opened Text
  import opened Routing
  import opened Policy
  import opened Xray
  import opened Agreement
  import opened Guarantees
  import opened O = Outbounds
  import M = Mihomo
  import P = ProxyNames

  /** How mihomo reads the policy at the end of a rule line: its own names are its own, whatever proxies
      there are, and none of them is a proxy. The two rejects block; a flow given any other leaves
      unproxied. */
  function RouteOf(name: string): M.Route {
    if name == "REJECT" || name == "REJECT-DROP" then M.REJECT
    else if name in P.BUILT_IN then M.DIRECT
    else M.Named(name)
  }

  /** The route proxied traffic takes in the configuration of `links`. */
  function TargetRoute(read: P.Reader, links: seq<string>): M.Route {
    RouteOf(P.Target(P.Names(read, links)))
  }

  /** However the links name themselves, the target is read as the proxy or group built for them. */
  lemma TargetIsReadAsAProxy(read: P.Reader, links: seq<string>)
    ensures TargetRoute(read, links) == M.Named(P.Target(P.Names(read, links)))
  {
    P.TargetIsNoBuiltIn(read, links);
    RejectsAreBuiltIn();
  }

  lemma RejectsAreBuiltIn()
    ensures "REJECT" in P.BUILT_IN && "REJECT-DROP" in P.BUILT_IN
  {
    assert P.BUILT_IN[1] == "REJECT" && P.BUILT_IN[2] == "REJECT-DROP";
  }

  /** The two backends agree for every list of links, even one whose links call themselves DIRECT. */
  lemma BackendsAgreeForLinks(
      lx: Lexicon, p: Profile, read: P.Reader, links: seq<string>, m: Matching, f: Flow, resolved: set<Addr>)
    requires Sound(lx, m) && Real(f) && Routed(lx, p, f) && Unresolved(p, f)
    ensures ByMihomo(M.Rules(lx, p, TargetRoute(read, links), HasProcessProxy(lx, p.tiers)), m, f)
         == Some(Dialed(lx, p, m, XrayTag(Rules(lx, p), p.strategy, m, f, resolved), f.addr))
  {
    TargetIsReadAsAProxy(read, links);
    BackendsAgree(lx, p, TargetRoute(read, links), m, f, resolved);
  }

  /** The same of the whole configurations: xray's rules with the outbounds they are built beside. */
  lemma ConfigurationsAgree(
      lx: Lexicon, p: Profile, read: P.Reader, links: seq<string>, obs: seq<Outbound>, m: Matching, f: Flow,
      resolved: set<Addr>)
    requires Sound(lx, m) && Real(f) && Routed(lx, p, f) && Unresolved(p, f)
    requires obs != [] && obs[0].tag == ProxyTag
    ensures Outbounds(lx, p, obs) != []
    ensures
      var tag := ConfigTag(Outbounds(lx, p, obs), Rules(lx, p), p.strategy, m, f, resolved);
      ByMihomo(M.Rules(lx, p, TargetRoute(read, links), HasProcessProxy(lx, p.tiers)), m, f)
      == Some(Dialed(lx, p, m, tag, f.addr))
  {
    FirstOutboundStaysAProxy(lx, p, obs, m, f, resolved);
    BackendsAgreeForLinks(lx, p, read, links, m, f, resolved);
  }

  /** A per-app flow never leaves unproxied under a link's name. */
  lemma PerAppFlowsFailClosedForLinks(
      lx: Lexicon, p: Profile, read: P.Reader, links: seq<string>, m: Matching, f: Flow)
    requires Sound(lx, m) && Real(f) && f.inbound == ForceFlow && HasProcessProxy(lx, p.tiers)
    ensures ByMihomo(M.Rules(lx, p, TargetRoute(read, links), true), m, f).Some?
    ensures FailsClosed(lx, p, m, Seen(f, Own(f)), ByMihomo(M.Rules(lx, p, TargetRoute(read, links), true), m, f).value)
  {
    TargetIsReadAsAProxy(read, links);
    MihomoForceFlow(lx, p, TargetRoute(read, links), m, f);
  }
}
