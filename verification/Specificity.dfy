/** What "more specific" means, said of the entries alone, and the proof that the evaluation key
    orders a tier by it. */
module Specificity {
  import opened Text
  import opened Routing
  import opened Meaning

  // ---------------------------------------------------------------- more specific

  /** `full:` before `domain:` before an address or network before `keyword:` and `regexp:` before the
      categories. */
  predicate Finer(a: MatchKind, b: MatchKind) {
    match a
    case DomainFull => b in {DomainSuffix, IPCIDR, DomainKeyword, DomainRegex, GeoSite, GeoIP}
    case DomainSuffix => b in {IPCIDR, DomainKeyword, DomainRegex, GeoSite, GeoIP}
    case IPCIDR => b in {DomainKeyword, DomainRegex, GeoSite, GeoIP}
    case DomainKeyword => b in {GeoSite, GeoIP}
    case DomainRegex => b in {GeoSite, GeoIP}
    case _ => false
  }

  function Labels(zone: string): nat {
    |Split(zone, '.')|
  }

  /** The mask of an address or network, as the parser reads its CIDR form. */
  function MaskOf(lx: Lexicon, value: string): Option<Mask> {
    lx.parseCIDR(NormalizeCIDR(lx, value))
  }

  /** The first network leaves fewer bits to the host; one the parser cannot read leaves none. */
  predicate NarrowerNetwork(lx: Lexicon, v: string, w: string) {
    match (MaskOf(lx, v), MaskOf(lx, w))
    case (Some(a), Some(b)) => a.bits - a.ones < b.bits - b.ones
    case (Some(a), None) => a.bits < a.ones
    case (None, Some(b)) => b.ones < b.bits
    case (None, None) => false
  }

  predicate Narrower(lx: Lexicon, a: Entry, b: Entry) {
    || (a.kind == DomainSuffix && b.kind == DomainSuffix && Labels(a.value) > Labels(b.value))
    || (a.kind == IPCIDR && b.kind == IPCIDR && NarrowerNetwork(lx, a.value, b.value))
  }

  predicate Outranks(a: Target, b: Target) {
    (a == Block && b != Block) || (a == Direct && b == Proxy)
  }

  /** App blocks lead the tier and the other app entries close it. */
  predicate Leading(e: Entry) {
    e.kind == Process && e.target == Block
  }

  predicate Closing(e: Entry) {
    e.kind == Process && e.target != Block
  }

  /** One entry is looked at before the other: by where an app entry goes, then by kind, then by
      breadth inside the kind, then by outcome. */
  predicate Precedes(lx: Lexicon, a: Entry, b: Entry) {
    if Leading(a) || Leading(b) then Leading(a) && !Leading(b)
    else if Closing(a) != Closing(b) then Closing(b)
    else if Finer(a.kind, b.kind) || Finer(b.kind, a.kind) then Finer(a.kind, b.kind)
    else if Narrower(lx, a, b) || Narrower(lx, b, a) then Narrower(lx, a, b)
    else Outranks(a.target, b.target)
  }

  // ---------------------------------------------------------------- labels

  lemma {:induction false} CountConcat(s: string, t: string, c: char)
    ensures Count(s + t, c) == Count(s, c) + Count(t, c)
  {
    if s == "" {
      assert s + t == t;
    } else {
      assert (s + t)[1..] == s[1..] + t;
      CountConcat(s[1..], t, c);
    }
  }

  lemma {:induction false} CountNone(s: string, c: char)
    requires c !in s
    ensures Count(s, c) == 0
  {
    if s != "" {
      CountNone(s[1..], c);
    }
  }

  lemma {:induction false} LabelsByDots(zone: string)
    ensures Labels(zone) == Count(zone, '.') + 1
    decreases |zone|
  {
    var i := IndexOf(zone, '.');
    if i == |zone| {
      CountNone(zone, '.');
    } else {
      LabelsByDots(zone[i + 1..]);
      CountNone(zone[..i], '.');
      CountConcat(zone[..i], zone[i..], '.');
      assert zone == zone[..i] + zone[i..] && zone[i..][1..] == zone[i + 1..];
    }
  }

  /** A name below a zone has more labels. */
  lemma SubzoneHasMoreLabels(zone: string, below: string)
    ensures Labels(below + "." + zone) > Labels(zone)
  {
    CountConcat(below + ".", zone, '.');
    CountConcat(below, ".", '.');
    assert Count(".", '.') == 1;
    LabelsByDots(zone);
    LabelsByDots(below + "." + zone);
  }

  // ---------------------------------------------------------------- the key follows it

  predicate SplitByBreadth(kind: MatchKind) {
    kind == DomainSuffix || kind == IPCIDR
  }

  lemma BreadthFollows(lx: Lexicon, a: Entry, b: Entry)
    requires a.kind == b.kind && SplitByBreadth(a.kind)
    ensures Narrower(lx, a, b) <==> EvaluationKey(lx, a).breadth < EvaluationKey(lx, b).breadth
  {
    LabelsByDots(a.value);
    LabelsByDots(b.value);
  }

  lemma OneKindFollows(lx: Lexicon, a: Entry, b: Entry)
    requires a.kind == b.kind && SplitByBreadth(a.kind)
    ensures NoLater(lx, a, b) <==> !Precedes(lx, b, a)
  {
    BreadthFollows(lx, a, b);
    BreadthFollows(lx, b, a);
  }

  lemma KindsFollow(lx: Lexicon, a: Entry, b: Entry)
    requires !(a.kind == b.kind && SplitByBreadth(a.kind))
    ensures NoLater(lx, a, b) <==> !Precedes(lx, b, a)
  {
    assert !Narrower(lx, a, b) && !Narrower(lx, b, a);
  }

  /** The evaluation order is the order of specificity: an entry comes no later than another exactly
      when the other does not precede it. */
  lemma OrderIsSpecificity(lx: Lexicon, a: Entry, b: Entry)
    ensures NoLater(lx, a, b) <==> !Precedes(lx, b, a)
  {
    if a.kind == b.kind && SplitByBreadth(a.kind) {
      OneKindFollows(lx, a, b);
    } else {
      KindsFollow(lx, a, b);
    }
  }

  predicate Before(lx: Lexicon, a: Entry, b: Entry) {
    NoLater(lx, a, b) && !NoLater(lx, b, a)
  }

  /** A zone comes after every zone below it, whatever either does with a flow. */
  lemma SubzoneComesFirst(lx: Lexicon, a: Entry, b: Entry, below: string)
    requires a.kind == DomainSuffix && b.kind == DomainSuffix && b.value == below + "." + a.value
    ensures Before(lx, b, a)
  {
    SubzoneHasMoreLabels(a.value, below);
    OrderIsSpecificity(lx, a, b);
    OrderIsSpecificity(lx, b, a);
  }

  /** Of two networks the narrower comes first, whatever either does with a flow. */
  lemma NarrowerNetworkComesFirst(lx: Lexicon, a: Entry, b: Entry)
    requires a.kind == IPCIDR && b.kind == IPCIDR
    requires MaskOf(lx, a.value).Some? && MaskOf(lx, b.value).Some?
    requires var ma, mb := MaskOf(lx, a.value).value, MaskOf(lx, b.value).value; ma.bits - ma.ones < mb.bits - mb.ones
    ensures Before(lx, a, b)
  {
    OrderIsSpecificity(lx, a, b);
    OrderIsSpecificity(lx, b, a);
  }

  /** The kinds in their order, and app entries around all of them. */
  lemma KindsComeInOrder(lx: Lexicon, a: Entry, b: Entry)
    ensures Finer(a.kind, b.kind) ==> Before(lx, a, b)
    ensures Leading(a) && !Leading(b) ==> Before(lx, a, b)
    ensures !Closing(a) && Closing(b) ==> Before(lx, a, b)
  {
    OrderIsSpecificity(lx, a, b);
    OrderIsSpecificity(lx, b, a);
  }

  /** At equal rank and breadth a block comes before a direct before a proxy. */
  lemma OutcomesComeInOrder(lx: Lexicon, a: Entry, b: Entry)
    requires !Finer(a.kind, b.kind) && !Finer(b.kind, a.kind) && (a.kind == Process <==> b.kind == Process)
    requires !Narrower(lx, a, b) && !Narrower(lx, b, a) && Outranks(a.target, b.target)
    ensures Before(lx, a, b)
  {
    OrderIsSpecificity(lx, a, b);
    OrderIsSpecificity(lx, b, a);
  }

  // ---------------------------------------------------------------- tiers

  /** A tier's entries in evaluation order never put one before an entry that precedes it. */
  lemma EntriesBySpecificity(lx: Lexicon, t: Tier, i: nat, j: nat)
    requires i < j < |Entries(lx, t)|
    ensures !Precedes(lx, Entries(lx, t)[j], Entries(lx, t)[i])
  {
    SortIsSorted(lx, Listed(lx, t));
    OrderIsSpecificity(lx, Entries(lx, t)[i], Entries(lx, t)[j]);
  }

  /** The entry matches and nothing that matches precedes it. */
  ghost predicate MostSpecific(lx: Lexicon, t: Tier, hit: Entry -> bool, e: Entry) {
    e in Listed(lx, t) && hit(e) && forall x :: x in Listed(lx, t) && hit(x) ==> !Precedes(lx, x, e)
  }

  /** The most specific match decides, unless it is no block and another plane's block matches. */
  lemma MostSpecificDecides(lx: Lexicon, t: Tier, hit: Entry -> bool, e: Entry)
    requires MostSpecific(lx, t, hit, e)
    requires forall x :: x in Listed(lx, t) && hit(x) && x.target == Block ==>
      e.target == Block || x.Plane() == e.Plane()
    ensures FirstStep(Steps(lx, t), hit) == Some(e.target)
  {
    var es := EntrySet(lx, t);
    forall x | x in es && hit(x) ensures NoLater(lx, e, x) {
      OrderIsSpecificity(lx, e, x);
    }
    LoweringPreservesMeaning(lx, t, hit);
    LeastDecides(lx, es, hit, e);
  }

  lemma LeastDecides(lx: Lexicon, es: set<Entry>, hit: Entry -> bool, e: Entry)
    requires e in es && hit(e) && forall x :: x in es && hit(x) ==> NoLater(lx, e, x)
    requires forall x :: x in es && hit(x) && x.target == Block ==> e.target == Block || x.Plane() == e.Plane()
    ensures Verdict(lx, es, hit) == Some(e.target)
  {
    if e.target == Block {
      assert BlockedIn(lx, es, hit, e.Plane());
    } else {
      forall p ensures !BlockedIn(lx, es, hit, p) {
        NotBlockedByLater(lx, es, hit, e, p);
      }
      forall t | Chosen(lx, es, hit, t) ensures t == e.target {
        var c :| c in es && hit(c) && c.target == t && forall x :: x in es && hit(x) ==> NoLater(lx, c, x);
        TiedOutcome(lx, c, e);
      }
    }
  }

  lemma NotBlockedByLater(lx: Lexicon, es: set<Entry>, hit: Entry -> bool, e: Entry, p: Plane)
    requires e in es && hit(e) && e.target != Block && forall x :: x in es && hit(x) ==> NoLater(lx, e, x)
    requires forall x :: x in es && hit(x) && x.target == Block ==> x.Plane() == e.Plane()
    ensures !BlockedIn(lx, es, hit, p)
  {
    if BlockedIn(lx, es, hit, p) {
      var b :| && b in es && hit(b) && b.Plane() == p && b.target == Block
               && forall x :: x in es && hit(x) && x.Plane() == p ==> NoLater(lx, b, x);
      TiedOutcome(lx, b, e);
    }
  }

  /** A block that nothing of its own plane precedes takes the flow, whatever the other plane says. */
  lemma LeadingBlockDecides(lx: Lexicon, t: Tier, hit: Entry -> bool, b: Entry)
    requires b in Listed(lx, t) && hit(b) && b.target == Block
    requires forall x :: x in Listed(lx, t) && hit(x) && x.Plane() == b.Plane() ==> !Precedes(lx, x, b)
    ensures FirstStep(Steps(lx, t), hit) == Some(Block)
  {
    forall x | x in EntrySet(lx, t) && hit(x) && x.Plane() == b.Plane() ensures NoLater(lx, b, x) {
      OrderIsSpecificity(lx, b, x);
    }
    assert BlockedIn(lx, EntrySet(lx, t), hit, b.Plane());
    LoweringPreservesMeaning(lx, t, hit);
  }

  lemma SubzoneIsNotPreceded(lx: Lexicon, zone: Entry, deeper: Entry, below: string)
    requires zone.kind == DomainSuffix && deeper.kind == DomainSuffix && deeper.value == below + "." + zone.value
    ensures Precedes(lx, deeper, zone) && !Precedes(lx, zone, deeper) && !Precedes(lx, deeper, deeper)
  {
    SubzoneHasMoreLabels(zone.value, below);
  }

  /** Where a flow matches a zone and one below it and nothing else, the one below decides. */
  lemma DeeperZoneDecides(lx: Lexicon, t: Tier, hit: Entry -> bool, zone: Entry, deeper: Entry, below: string)
    requires zone in Listed(lx, t) && hit(zone) && zone.kind == DomainSuffix
    requires deeper in Listed(lx, t) && hit(deeper) && deeper.kind == DomainSuffix
    requires deeper.value == below + "." + zone.value
    requires forall x :: x in Listed(lx, t) && hit(x) ==> x == zone || x == deeper
    ensures FirstStep(Steps(lx, t), hit) == Some(deeper.target)
  {
    SubzoneIsNotPreceded(lx, zone, deeper, below);
    MostSpecificDecides(lx, t, hit, deeper);
  }
}
