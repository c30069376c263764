/** Naming the proxies of a mihomo configuration (internal/mihomoconfig/mihomoconfig.go) and finding
    a link again by the name the group reports (internal/core/engine_mihomo.go). */
module ProxyNames {

  import opened Text

  const GROUP_TAG := "vpn"

  /** The names mihomo defines itself. */
  const BUILT_IN := ["DIRECT", "REJECT", "REJECT-DROP", "COMPATIBLE", "PASS", "PASS-RULE", "GLOBAL"]

  /** What a link calls itself: a decoded fragment, the `ps` of a vmess link, or nothing readable.
      Reading it out of the link is `url.Parse`, `vmesslink.Parse` and `awgconfig.LinkName`. */
  datatype Remark = Fragment(text: string) | Ps(text: string) | Unreadable

  type Reader = string -> Remark

  // ---------------------------------------------------------------- unique names

  /** The `n`-th name tried: the name itself, then "name (2)", "name (3)" and so on. */
  function Candidate(name: string, n: nat): string {
    if n <= 1 then name else name + " (" + Decimal(n) + ")"
  }

  lemma CandidatesDiffer(name: string, m: nat, n: nat)
    requires 1 <= m < n
    ensures Candidate(name, m) != Candidate(name, n)
  {
    var b := Candidate(name, n);
    assert |b| > |name|;
    if m > 1 && Candidate(name, m) == b {
      assert b[|name| + 2..|b| - 1] == Decimal(n);
      assert Candidate(name, m)[|name| + 2..|b| - 1] == Decimal(m);
      DecimalReadsBack(m);
      DecimalReadsBack(n);
    }
  }

  ghost predicate IsCandidateFrom(name: string, n: nat, c: string) {
    exists m :: m >= n && c == Candidate(name, m)
  }

  /** The used names still ahead in the search: what makes it end. */
  ghost function Ahead(name: string, used: set<string>, n: nat): set<string> {
    set c | c in used && IsCandidateFrom(name, n, c)
  }

  lemma SearchEnds(name: string, used: set<string>, n: nat)
    requires 1 <= n && Candidate(name, n) in used
    ensures Ahead(name, used, n + 1) < Ahead(name, used, n)
  {
    var c := Candidate(name, n);
    assert c in Ahead(name, used, n);
    if IsCandidateFrom(name, n + 1, c) {
      var m :| m >= n + 1 && c == Candidate(name, m);
      CandidatesDiffer(name, n, m);
    }
    forall d | d in Ahead(name, used, n + 1) ensures d in Ahead(name, used, n) {
      var m :| m >= n + 1 && d == Candidate(name, m);
    }
  }

  /** The first free number, from `n` on. */
  function FreeFrom(name: string, used: set<string>, n: nat): (free: nat)
    requires 1 <= n
    ensures n <= free && Candidate(name, free) !in used
    ensures forall m :: n <= m < free ==> Candidate(name, m) in used
    decreases Ahead(name, used, n)
  {
    if Candidate(name, n) !in used then n else
      SearchEnds(name, used, n);
      FreeFrom(name, used, n + 1)
  }

  function Unique(name: string, used: set<string>): string {
    Candidate(name, FreeFrom(name, used, 1))
  }

  /** `uniqueName`; the map it changes is handed back. */
  method UniqueName(name: string, used: set<string>) returns (candidate: string, after: set<string>)
    ensures candidate == Unique(name, used) && after == used + {candidate}
  {
    candidate := name;
    var n := 2;
    while candidate in used
      invariant 2 <= n && candidate == Candidate(name, n - 1)
      invariant FreeFrom(name, used, n - 1) == FreeFrom(name, used, 1)
      decreases Ahead(name, used, n - 1)
    {
      SearchEnds(name, used, n - 1);
      candidate := name + " (" + Decimal(n) + ")";
      n := n + 1;
    }
    after := used + {candidate};
  }

  // ---------------------------------------------------------------- naming the links

  function CommaToSpace(c: char): char {
    if c == ',' then ' ' else c
  }

  function PlusToSpace(c: char): char {
    if c == '+' then ' ' else c
  }

  function Sanitized(s: string): string {
    TrimSpace(MapChars(MapChars(s, CommaToSpace), PlusToSpace))
  }

  function Named(remark: Remark): string {
    match remark
    case Fragment(text) => Sanitized(text)
    case Ps(text) => TrimSpace(MapChars(text, CommaToSpace))
    case Unreadable => ""
  }

  function LinkName(remark: Remark, i: nat): string {
    if Named(remark) != "" then Named(remark) else "proxy-" + Decimal(i)
  }

  /** What a fragment's name loses at its ends. */
  predicate BlankInFragment(c: char) {
    IsSpace(c) || c == ',' || c == '+'
  }

  predicate BlankInPs(c: char) {
    IsSpace(c) || c == ','
  }

  /** The text with a space for every character `gone`. */
  predicate Spaced(text: string, gone: set<char>, name: string) {
    |name| == |text| && forall i :: 0 <= i < |text| ==> name[i] == if text[i] in gone then ' ' else text[i]
  }

  lemma MapTrims(before: string, text: string, after: string, f: char -> char, blank: char -> bool)
    requires forall c :: blank(c) <==> IsSpace(f(c))
    requires Only(before, blank) && Trimmed(text, blank) && Only(after, blank)
    ensures TrimSpace(MapChars(before + text + after, f)) == MapChars(text, f)
  {
    var b, t, a := MapChars(before, f), MapChars(text, f), MapChars(after, f);
    assert MapChars(before + text + after, f) == b + t + a;
    TrimTakesTheEnds(b, t, a, IsSpace);
  }

  /** A link is named by its fragment, without the blanks around it and with a space for each comma and
      each plus sign; by its place if nothing is left. */
  lemma LinkIsNamedByItsFragment(before: string, text: string, after: string, i: nat)
    requires Only(before, BlankInFragment) && Trimmed(text, BlankInFragment) && Only(after, BlankInFragment)
    ensures
      var name := LinkName(Fragment(before + text + after), i);
      if text == "" then name == "proxy-" + Decimal(i) else Spaced(text, {',', '+'}, name)
  {
    SanitizedByOneMap(before + text + after);
    MapTrims(before, text, after, BothToSpace, BlankInFragment);
  }

  function BothToSpace(c: char): char {
    PlusToSpace(CommaToSpace(c))
  }

  lemma SanitizedByOneMap(s: string)
    ensures Sanitized(s) == TrimSpace(MapChars(s, BothToSpace))
  {
    assert MapChars(MapChars(s, CommaToSpace), PlusToSpace) == MapChars(s, BothToSpace);
  }

  /** A vmess link by its `ps`, with a space for each comma alone; an unreadable one by its place. */
  lemma LinkIsNamedByItsPs(before: string, text: string, after: string, i: nat)
    requires Only(before, BlankInPs) && Trimmed(text, BlankInPs) && Only(after, BlankInPs)
    ensures
      var name := LinkName(Ps(before + text + after), i);
      if text == "" then name == "proxy-" + Decimal(i) else Spaced(text, {','}, name)
    ensures LinkName(Unreadable, i) == "proxy-" + Decimal(i)
  {
    MapTrims(before, text, after, CommaToSpace, BlankInPs);
    assert Named(Ps(before + text + after)) == MapChars(text, CommaToSpace);
  }

  /** A free name is taken as it is. */
  lemma FreeNameIsKept(name: string, used: set<string>)
    requires name !in used
    ensures Unique(name, used) == name
  {
  }

  /** A taken name gets the first free number from two on. */
  lemma TakenNameIsNumbered(name: string, used: set<string>, n: nat)
    requires name in used && n >= 2 && name + " (" + Decimal(n) + ")" !in used
    requires forall m :: 2 <= m < n ==> name + " (" + Decimal(m) + ")" in used
    ensures Unique(name, used) == name + " (" + Decimal(n) + ")"
  {
    var free := FreeFrom(name, used, 1);
    assert Candidate(name, 1) in used && Candidate(name, n) !in used;
    assert forall m :: 2 <= m < n ==> Candidate(name, m) in used;
  }

  lemma LinkNameHasNoComma(remark: Remark, i: nat)
    ensures ',' !in LinkName(remark, i)
  {
    if Named(remark) == "" {
      assert ',' !in "proxy-";
    } else {
      var text := remark.text;
      assert ',' !in MapChars(text, CommaToSpace);
      assert ',' !in MapChars(MapChars(text, CommaToSpace), PlusToSpace);
    }
  }

  lemma CandidateHasNoComma(name: string, n: nat)
    requires ',' !in name
    ensures ',' !in Candidate(name, n)
  {
    assert ',' !in Decimal(n);
    assert ',' !in " (" && ',' !in ")";
  }

  function Reserved(): set<string> {
    (set name | name in BUILT_IN) + {GROUP_TAG}
  }

  /** The positions of the links that are not blank. */
  function Filled(links: seq<string>): (at: seq<nat>)
    ensures forall k :: 0 <= k < |at| ==> at[k] < |links| && TrimSpace(links[at[k]]) != ""
  {
    if links == [] then [] else
    Filled(links[..|links| - 1]) + if TrimSpace(links[|links| - 1]) != "" then [|links| - 1] else []
  }

  function NameSet(names: seq<string>): set<string> {
    set name | name in names
  }

  function Names(read: Reader, links: seq<string>): seq<string> {
    if links == [] then [] else
    var before := Names(read, links[..|links| - 1]);
    var i := |links| - 1;
    if TrimSpace(links[i]) == "" then before
    else before + [Unique(LinkName(read(TrimSpace(links[i])), i), Reserved() + NameSet(before))]
  }

  method BuildNames(read: Reader, links: seq<string>) returns (names: seq<string>)
    ensures names == Names(read, links)
  {
    names := [];
    var used := Reserved();
    for i := 0 to |links|
      invariant names == Names(read, links[..i])
      invariant used == Reserved() + NameSet(names)
    {
      assert links[..i + 1][..i] == links[..i];
      var trimmed := TrimSpace(links[i]);
      if trimmed != "" {
        var name, after := UniqueName(LinkName(read(trimmed), i), used);
        assert NameSet(names + [name]) == NameSet(names) + {name};
        names, used := names + [name], after;
      }
    }
    assert links[..|links|] == links;
  }

  /** One name per link that is not blank, in the order of the links: the first of its candidates
      that is neither reserved nor taken by a link before it. */
  lemma {:induction false} OneNamePerLink(read: Reader, links: seq<string>, k: nat)
    ensures |Names(read, links)| == |Filled(links)|
    ensures k < |Filled(links)| ==>
      var at := Filled(links)[k];
      var used := Reserved() + NameSet(Names(read, links)[..k]);
      Names(read, links)[k] == Unique(LinkName(read(TrimSpace(links[at])), at), used)
  {
    if links != [] {
      var front := links[..|links| - 1];
      OneNamePerLink(read, front, k);
      if k < |Filled(front)| {
        assert Names(read, links)[..k] == Names(read, front)[..k];
      } else if k < |Filled(links)| {
        assert Names(read, links)[..k] == Names(read, front);
      }
    }
  }

  /** A remark that needs no change, is not reserved and names no link before it is the link's name. */
  lemma {:induction false} PlainRemarkIsTheName(read: Reader, links: seq<string>, k: nat, text: string)
    requires k < |Filled(links)| && read(TrimSpace(links[Filled(links)[k]])) == Fragment(text)
    requires text != "" && Trimmed(text, IsSpace) && ',' !in text && '+' !in text
    ensures |Names(read, links)| == |Filled(links)|
    ensures text !in BUILT_IN && text != GROUP_TAG && text !in Names(read, links)[..k] ==> Names(read, links)[k] == text
  {
    OneNamePerLink(read, links, k);
    PlainFragment(text, Filled(links)[k]);
    var used := Reserved() + NameSet(Names(read, links)[..k]);
    if text !in used {
      FreeNameIsKept(text, used);
    }
  }

  lemma PlainFragment(text: string, i: nat)
    requires text != "" && Trimmed(text, IsSpace) && ',' !in text && '+' !in text
    ensures LinkName(Fragment(text), i) == text
  {
    assert "" + text + "" == text;
    NoBlankEnds(text);
    LinkIsNamedByItsFragment("", text, "", i);
    SpacedIsSame(text, {',', '+'}, LinkName(Fragment(text), i));
  }

  lemma NoBlankEnds(text: string)
    requires text != "" && Trimmed(text, IsSpace) && ',' !in text && '+' !in text
    ensures Trimmed(text, BlankInFragment)
  {
    assert text[0] in text && text[|text| - 1] in text;
  }

  lemma SpacedIsSame(text: string, gone: set<char>, name: string)
    requires Spaced(text, gone, name) && forall c :: c in text ==> c !in gone
    ensures name == text
  {
  }

  /** Names are distinct, none is one of mihomo's or the group's, and none holds a comma. */
  lemma {:induction false} NamesAreDistinct(read: Reader, links: seq<string>, j: nat, k: nat)
    requires j <= k < |Names(read, links)|
    ensures j < k ==> Names(read, links)[j] != Names(read, links)[k]
    ensures Names(read, links)[k] !in BUILT_IN && Names(read, links)[k] != GROUP_TAG
    ensures ',' !in Names(read, links)[k]
  {
    OneNamePerLink(read, links, k);
    var names := Names(read, links);
    var at := Filled(links)[k];
    var name := LinkName(read(TrimSpace(links[at])), at);
    var used := Reserved() + NameSet(names[..k]);
    LinkNameHasNoComma(read(TrimSpace(links[at])), at);
    CandidateHasNoComma(name, FreeFrom(name, used, 1));
    assert names[k] !in used;
    if j < k {
      assert names[..k][j] == names[j];
    }
  }

  // ---------------------------------------------------------------- back from a name to its link

  ghost predicate LastWins(names: seq<string>, m: map<string, nat>) {
    && (forall name :: name in m <==> name in names)
    && (forall name :: name in m ==> m[name] < |names| && names[m[name]] == name)
    && (forall i :: 0 <= i < |names| ==> names[i] in m && i <= m[names[i]])
  }

  method IndexByName(names: seq<string>) returns (m: map<string, nat>)
    ensures LastWins(names, m)
  {
    m := map[];
    for i := 0 to |names|
      invariant LastWins(names[..i], m)
    {
      assert names[..i + 1] == names[..i] + [names[i]];
      m := m[names[i] := i];
    }
    assert names[..|names|] == names;
  }

  /** The name the group reports leads back to the one link it was made for. */
  lemma {:induction false} NameLeadsBack(read: Reader, links: seq<string>, m: map<string, nat>, k: nat)
    requires LastWins(Names(read, links), m) && k < |Names(read, links)|
    ensures Names(read, links)[k] in m && m[Names(read, links)[k]] == k
  {
    var name := Names(read, links)[k];
    assert name in m;
    NamesAreDistinct(read, links, k, m[name]);
  }

  function Target(names: seq<string>): string {
    if names == [] then "" else if |names| == 1 then names[0] else GROUP_TAG
  }

  /** Proxied traffic is never sent to a name of mihomo's own, so never to DIRECT. */
  lemma {:induction false} TargetIsNoBuiltIn(read: Reader, links: seq<string>)
    ensures Target(Names(read, links)) !in BUILT_IN
    ensures Target(Names(read, links)) == "" <==> Filled(links) == []
    ensures |Filled(links)| == 1 ==> [Target(Names(read, links))] == Names(read, links)
    ensures |Filled(links)| > 1 ==> Target(Names(read, links)) == GROUP_TAG
  {
    OneNamePerLink(read, links, 0);
    if |Names(read, links)| == 1 {
      NamesAreDistinct(read, links, 0, 0);
    }
  }
}
