/** What a matcher of a list is read as, said of its spelling: spaces around it and after its colon,
    the prefix in any case, and the dots a zone is wrapped in. */
module Matchers {
  import opened Text
  import opened Routing
  import opened Algebra
  import opened Policy

  predicate IsDot(c: char) {
    c == '.'
  }

  /** A word that can stand before the first colon. */
  predicate IsWord(word: string) {
    word != "" && ':' !in word && !IsSpace(word[0])
  }

  function Prefixed(word: string, gap: string, value: string): string {
    word + ":" + gap + value
  }

  function Wrapped(before: string, s: string, after: string): string {
    before + s + after
  }

  predicate MeansZone(word: string) {
    word == "domain" || word == "full"
  }

  predicate IsPrefix(word: string) {
    MeansZone(word) || word in {"geoip", "geosite", "keyword", "regexp", "regex", "process"}
  }

  // ---------------------------------------------------------------- where a matcher splits

  lemma PrefixedIsTrimmed(word: string, gap: string, value: string)
    requires IsWord(word) && Trimmed(value, IsSpace) && (value == "" ==> gap == "")
    ensures Prefixed(word, gap, value) != "" && Trimmed(Prefixed(word, gap, value), IsSpace)
  {
    var e := Prefixed(word, gap, value);
    assert e[0] == word[0];
    assert e[|e| - 1] == if value == "" then ':' else value[|value| - 1];
  }

  /** A prefixed matcher is read by its prefix and the trimmed rest. */
  lemma ReadByPrefix(lx: Lexicon, before: string, word: string, gap: string, value: string, after: string)
    requires Only(before, IsSpace) && IsWord(word) && Only(gap, IsSpace) && Only(after, IsSpace)
    requires value != "" && Trimmed(value, IsSpace) && !IsIPOrCIDR(lx, Prefixed(word, gap, value))
    ensures
      var e := Prefixed(word, gap, value);
      && TrimSpace(Wrapped(before, e, after)) == e
      && 0 < IndexOf(e, ':') == |word| < |e| && e[..|word|] == word && TrimSpace(e[|word| + 1..]) == value
  {
    var e := Prefixed(word, gap, value);
    PrefixedIsTrimmed(word, gap, value);
    TrimTakesTheEnds(before, e, after, IsSpace);
    SplitsAt(word, ':', gap + value);
    assert e == word + ":" + (gap + value);
    TrimTakesTheEnds(gap, value, "", IsSpace);
    assert gap + value + "" == gap + value;
  }

  // ---------------------------------------------------------------- prefixes

  /** What the prefixes of categories, texts and apps give, in any case of the prefix. */
  lemma PrefixGivesKind(lx: Lexicon, before: string, word: string, gap: string, value: string, after: string)
    requires Only(before, IsSpace) && IsWord(word) && Only(gap, IsSpace) && Only(after, IsSpace)
    requires value != "" && Trimmed(value, IsSpace) && !IsIPOrCIDR(lx, Prefixed(word, gap, value))
    ensures
      var r := Classify(lx, Wrapped(before, Prefixed(word, gap, value), after));
      && (Lower(lx, word) == "geoip" ==> r == Some((GeoIP, Lower(lx, value))))
      && (Lower(lx, word) == "geosite" ==> r == Some((GeoSite, Lower(lx, value))))
      && (Lower(lx, word) == "keyword" ==> r == Some((DomainKeyword, value)))
      && (Lower(lx, word) == "regexp" ==> r == Some((DomainRegex, value)))
      && (Lower(lx, word) == "regex" ==> r == Some((DomainRegex, value)))
      && (Lower(lx, word) == "process" ==> r == Some((Process, value)))
  {
    ReadByPrefix(lx, before, word, gap, value, after);
  }

  lemma ZoneOf(kind: MatchKind, before: string, zone: string, after: string)
    requires Only(before, IsDot) && Trimmed(zone, IsDot) && Only(after, IsDot)
    ensures DomainEntry(kind, Wrapped(before, zone, after)) == if zone == "" then None else Some((kind, zone))
  {
    var all := Wrapped(before, zone, after);
    TrimTakesTheEnds(before, zone, after, IsDot);
    SameTrim(all, c => c == '.', IsDot);
  }

  /** `domain:` gives the zone and what is below it, `full:` the one name, without the dots around. */
  lemma PrefixGivesZone(
      lx: Lexicon, before: string, word: string, gap: string, dots: string, zone: string, more: string, after: string)
    requires Only(before, IsSpace) && IsWord(word) && Only(gap, IsSpace) && Only(after, IsSpace)
    requires Only(dots, IsDot) && Trimmed(zone, IsDot) && Only(more, IsDot)
    requires Wrapped(dots, zone, more) != "" && Trimmed(Wrapped(dots, zone, more), IsSpace)
    requires !IsIPOrCIDR(lx, Prefixed(word, gap, Wrapped(dots, zone, more)))
    ensures
      var r := Classify(lx, Wrapped(before, Prefixed(word, gap, Wrapped(dots, zone, more)), after));
      && (Lower(lx, word) == "domain" ==> r == if zone == "" then None else Some((DomainSuffix, zone)))
      && (Lower(lx, word) == "full" ==> r == if zone == "" then None else Some((DomainFull, zone)))
  {
    ReadByPrefix(lx, before, word, gap, Wrapped(dots, zone, more), after);
    ZoneOf(DomainSuffix, dots, zone, more);
    ZoneOf(DomainFull, dots, zone, more);
  }

  /** A prefix with nothing behind it is refused, whatever the prefix. */
  lemma PrefixAloneIsRefused(lx: Lexicon, before: string, word: string, after: string)
    requires Only(before, IsSpace) && IsWord(word) && Only(after, IsSpace) && !IsIPOrCIDR(lx, word + ":")
    ensures Classify(lx, before + word + ":" + after) == None
  {
    var e := Prefixed(word, "", "");
    assert e == word + ":" == word + ":" + "" && before + word + ":" + after == Wrapped(before, e, after);
    PrefixedIsTrimmed(word, "", "");
    TrimTakesTheEnds(before, e, after, IsSpace);
    SplitsAt(word, ':', "");
  }

  // ---------------------------------------------------------------- no prefix

  /** No known prefix stands before the first colon, if there is one, and something stands behind it. */
  predicate HasNoPrefix(lx: Lexicon, e: string) {
    var i := IndexOf(e, ':');
    i == 0 || i == |e| || (!Only(e[i + 1..], IsSpace) && !IsPrefix(Lower(lx, e[..i])))
  }

  /** A matcher without a prefix is a zone and what is below it, without the dots around. */
  lemma BareNameGivesZone(lx: Lexicon, before: string, dots: string, zone: string, more: string, after: string)
    requires Only(before, IsSpace) && Only(after, IsSpace)
    requires Only(dots, IsDot) && Trimmed(zone, IsDot) && Only(more, IsDot)
    requires
      var e := Wrapped(dots, zone, more);
      e != "" && Trimmed(e, IsSpace) && !IsIPOrCIDR(lx, e) && HasNoPrefix(lx, e)
    ensures Classify(lx, Wrapped(before, Wrapped(dots, zone, more), after))
         == if zone == "" then None else Some((DomainSuffix, zone))
  {
    var e := Wrapped(dots, zone, more);
    TrimTakesTheEnds(before, e, after, IsSpace);
    ZoneOf(DomainSuffix, dots, zone, more);
    ReadWhole(lx, Wrapped(before, e, after), e);
  }

  lemma ReadWhole(lx: Lexicon, entry: string, e: string)
    requires e == TrimSpace(entry) && e != "" && !IsIPOrCIDR(lx, e) && HasNoPrefix(lx, e)
    ensures Classify(lx, entry) == DomainEntry(DomainSuffix, e)
  {
    var i := IndexOf(e, ':');
    if 0 < i < |e| {
      TrimsToNothing(e[i + 1..], IsSpace);
    }
  }

  /** An address or a network is itself, before any prefix is looked for. */
  lemma AddressGivesItself(lx: Lexicon, before: string, e: string, after: string)
    requires Only(before, IsSpace) && e != "" && Trimmed(e, IsSpace) && Only(after, IsSpace)
    requires if '/' in e then lx.parseCIDR(e).Some? else lx.parseIP(e).Some?
    ensures Classify(lx, Wrapped(before, e, after)) == Some((IPCIDR, e))
  {
    TrimTakesTheEnds(before, e, after, IsSpace);
  }

  // ---------------------------------------------------------------- what is refused

  /** What follows the first colon, where a word stands before it. */
  predicate PrefixAlone(e: string) {
    var i := IndexOf(e, ':');
    0 < i < |e| && Only(e[i + 1..], IsSpace)
  }

  predicate DotsForAZone(lx: Lexicon, e: string) {
    var i := IndexOf(e, ':');
    if 0 < i < |e| && IsPrefix(Lower(lx, e[..i]))
    then MeansZone(Lower(lx, e[..i])) && Only(TrimSpace(e[i + 1..]), IsDot)
    else Only(e, IsDot)
  }

  /** A matcher is refused exactly when it is blank, or is no address and is either a prefix with
      nothing behind it or nothing but dots where a zone is meant. */
  lemma RefusedExactly(lx: Lexicon, entry: string)
    ensures Classify(lx, entry) == None <==>
      || Only(entry, IsSpace)
      || (var e := TrimSpace(entry); !IsIPOrCIDR(lx, e) && (PrefixAlone(e) || DotsForAZone(lx, e)))
  {
    var e := TrimSpace(entry);
    var i := IndexOf(e, ':');
    TrimsToNothing(entry, IsSpace);
    DotsAreNoZone(e);
    if 0 < i < |e| {
      TrimsToNothing(e[i + 1..], IsSpace);
      DotsAreNoZone(TrimSpace(e[i + 1..]));
    }
  }

  lemma DotsAreNoZone(s: string)
    ensures TrimWith(s, c => c == '.') == "" <==> Only(s, IsDot)
  {
    SameTrim(s, c => c == '.', IsDot);
    TrimsToNothing(s, IsDot);
  }

  // ---------------------------------------------------------------- addresses

  /** The parser reads an address as the network of itself alone. */
  ghost predicate ReadsHosts(lx: Lexicon) {
    forall s: string ::
      && (lx.parseIP(s) == Some(V4) ==> '/' !in s && lx.parseCIDR(s + "/32") == Some(Mask(32, 32)))
      && (lx.parseIP(s) == Some(V6) ==> '/' !in s && lx.parseCIDR(s + "/128") == Some(Mask(128, 128)))
  }

  /** Every accepted address has a CIDR form the parser reads: a network as it is written, and an
      address as the network of itself alone. */
  lemma AcceptedAddressIsANetwork(lx: Lexicon, entry: string)
    requires ReadsHosts(lx) && Classify(lx, entry).Some? && Classify(lx, entry).value.0 == IPCIDR
    ensures
      var e := Classify(lx, entry).value.1;
      var mask := lx.parseCIDR(NormalizeCIDR(lx, e));
      && mask.Some?
      && ('/' in e ==> NormalizeCIDR(lx, e) == e)
      && ('/' !in e ==> lx.parseIP(e).Some? && mask.value.ones == mask.value.bits && HostBits(lx, e) == 0)
  {
    TrimmedStays(entry, IsSpace);
    OnlyAddressesAreAccepted(lx, entry);
    var e := TrimSpace(entry);
    assert '/' in e || lx.parseIP(e).Some?;
  }

  lemma OnlyAddressesAreAccepted(lx: Lexicon, entry: string)
    requires Classify(lx, entry).Some? && Classify(lx, entry).value.0 == IPCIDR
    ensures Classify(lx, entry).value.1 == TrimSpace(entry) && IsIPOrCIDR(lx, TrimSpace(entry))
  {
  }

  /** The characters of ASCII that count as spaces. */
  lemma SpacesOfAscii(c: char)
    requires c < '\U{80}'
    ensures IsSpace(c) <==> c in [' ', '\t', '\n', '\r', '\U{0B}', '\U{0C}']
  {
  }

  // ---------------------------------------------------------------- a tier's entries

  /** A tier lists an entry exactly when a matcher of the list of its outcome is read as it. */
  lemma ListedExactly(lx: Lexicon, t: Tier, e: Entry)
    ensures e in Listed(lx, t) <==> exists x :: x in ListOf(t, e.target) && Classify(lx, x) == Some((e.kind, e.value))
  {
    ClassifiedExactly(lx, t.block, Block, e);
    ClassifiedExactly(lx, t.direct, Direct, e);
    ClassifiedExactly(lx, t.proxy, Proxy, e);
  }

  lemma ClassifiedExactly(lx: Lexicon, matchers: seq<string>, target: Target, e: Entry)
    ensures e in Classified(lx, matchers, target)
        <==> e.target == target && exists x :: x in matchers && Classify(lx, x) == Some((e.kind, e.value))
  {
    ClassifiedMembers(lx, matchers, target);
    forall x
      ensures EntryOf(lx, x, target) == [e] <==> e.target == target && Classify(lx, x) == Some((e.kind, e.value))
    {
      OneEntry(lx, x, target, e);
    }
  }

  lemma OneEntry(lx: Lexicon, x: string, target: Target, e: Entry)
    ensures EntryOf(lx, x, target) == [e] <==> e.target == target && Classify(lx, x) == Some((e.kind, e.value))
  {
    if EntryOf(lx, x, target) == [e] {
      assert EntryOf(lx, x, target)[0] == e;
    }
  }

  /** A process matcher names its app in any case of either. */
  lemma AppInAnyCase(lx: Lexicon, word: string, value: string, app: string)
    requires IsWord(word) && Lower(lx, word) == "process" && value != "" && Trimmed(value, IsSpace)
    requires !IsIPOrCIDR(lx, Prefixed(word, "", value))
    ensures NamesApp(lx, Prefixed(word, "", value), app) <==> app == Lower(lx, value)
  {
    PrefixGivesKind(lx, "", word, "", value, "");
    assert Wrapped("", Prefixed(word, "", value), "") == Prefixed(word, "", value);
    TrimTakesTheEnds("", value, "", IsSpace);
    assert "" + value + "" == value;
  }

  /** What an entry reads of a flow is what its plane is named for: its name, its addresses or its app. */
  lemma PlanesReadTheFlow(m: Matching, e: Entry, v: View, w: View)
    requires e.Plane() == NamePlane ==> v.name == w.name
    requires e.Plane() == AddressPlane ==> v.ips == w.ips
    requires e.Plane() == AppPlane ==> v.app == w.app
    ensures Hit(m, v)(e) == Hit(m, w)(e)
  {
  }
}
