/** The engine-neutral routing policy: tiers, their evaluation order and the first-match steps
    they are lowered to (internal/routing/routing.go). */
module Routing {
  import opened Text

  datatype Target = Block | Direct | Proxy

  datatype MatchKind =
    | DomainSuffix | DomainFull | DomainKeyword | DomainRegex
    | GeoSite | GeoIP | IPCIDR | Process

  datatype Plane = NamePlane | AddressPlane | AppPlane

  datatype Family = V4 | V6
  datatype Mask = Mask(ones: int, bits: int)

  /** What the package takes from Go's Unicode tables and `net`, and the list of local networks:
      every result below holds whatever these are. */
  datatype Lexicon = Lexicon(
    lower: char -> char,
    parseIP: string -> Option<Family>,
    parseCIDR: string -> Option<Mask>,
    localNetworks: seq<string>)

  datatype Tier = Tier(block: seq<string>, direct: seq<string>, proxy: seq<string>)

  datatype Entry = Entry(kind: MatchKind, value: string, target: Target) {
    predicate ByAddress() {
      kind == IPCIDR || kind == GeoIP
    }

    function Plane(): Plane {
      if kind == Process then AppPlane else if ByAddress() then AddressPlane else NamePlane
    }
  }

  datatype Step = Step(entries: seq<Entry>, also: seq<Entry>, target: Target)

  // ---------------------------------------------------------------- lexing

  function Lower(lx: Lexicon, s: string): string {
    MapChars(s, lx.lower)
  }

  function NormalizeCIDR(lx: Lexicon, ipOrCIDR: string): string {
    var s := TrimSpace(ipOrCIDR);
    if '/' in s then s
    else match lx.parseIP(s)
      case Some(V4) => s + "/32"
      case Some(V6) => s + "/128"
      case None => s
  }

  predicate IsIPOrCIDR(lx: Lexicon, s: string) {
    if '/' in s then lx.parseCIDR(s).Some? else lx.parseIP(s).Some?
  }

  function HostBits(lx: Lexicon, ipOrCIDR: string): int {
    match lx.parseCIDR(NormalizeCIDR(lx, ipOrCIDR))
    case None => 0
    case Some(mask) => mask.bits - mask.ones
  }

  /** Strips the dots a zone is habitually wrapped in. */
  function DomainEntry(kind: MatchKind, val: string): (r: Option<(MatchKind, string)>)
    ensures r.Some? ==> r.value.1 != "" && r.value.0 == kind
  {
    var v := TrimWith(val, c => c == '.');
    if v == "" then None else Some((kind, v))
  }

  /** An address first (an IPv6 colon is no prefix), then a known prefix, else a domain suffix. No
      entry it accepts is empty, which is what lets both engines spell every one of them. */
  function Classify(lx: Lexicon, entry: string): (r: Option<(MatchKind, string)>)
    ensures r.Some? ==> r.value.1 != ""
  {
    var e := TrimSpace(entry);
    if e == "" then None
    else if IsIPOrCIDR(lx, e) then Some((IPCIDR, e))
    else
      var i := IndexOf(e, ':');
      if 0 < i < |e| then
        var val := TrimSpace(e[i + 1..]);
        var head := Lower(lx, e[..i]);
        if val == "" then None
        else if head == "geoip" then Some((GeoIP, Lower(lx, val)))
        else if head == "geosite" then Some((GeoSite, Lower(lx, val)))
        else if head == "domain" then DomainEntry(DomainSuffix, val)
        else if head == "full" then DomainEntry(DomainFull, val)
        else if head == "keyword" then Some((DomainKeyword, val))
        else if head == "regexp" || head == "regex" then Some((DomainRegex, val))
        else if head == "process" then Some((Process, val))
        else DomainEntry(DomainSuffix, e)
      else DomainEntry(DomainSuffix, e)
  }

  // ---------------------------------------------------------------- evaluation order

  /** `evaluationKey`: section, rank, breadth, outcome, compared left to right. */
  datatype Key = Key(section: int, rank: int, breadth: int, outcome: int) {
    predicate Le(that: Key) {
      || section < that.section
      || (section == that.section
          && (|| rank < that.rank
              || (rank == that.rank
                  && (|| breadth < that.breadth
                      || (breadth == that.breadth && outcome <= that.outcome)))))
    }
  }

  function OutcomeRank(t: Target): int {
    match t
    case Block => 0
    case Direct => 1
    case Proxy => 2
  }

  function EvaluationKey(lx: Lexicon, e: Entry): Key {
    var outcome := OutcomeRank(e.target);
    match e.kind
    case Process => if e.target == Block then Key(0, 0, 0, outcome) else Key(2, 0, 0, outcome)
    case DomainFull => Key(1, 0, 0, outcome)
    case DomainSuffix => Key(1, 1, 0 - Count(e.value, '.'), outcome)
    case IPCIDR => Key(1, 2, HostBits(lx, e.value), outcome)
    case DomainKeyword => Key(1, 3, 0, outcome)
    case DomainRegex => Key(1, 3, 0, outcome)
    case GeoSite => Key(1, 4, 0, outcome)
    case GeoIP => Key(1, 4, 0, outcome)
  }

  predicate NoLater(lx: Lexicon, a: Entry, b: Entry) {
    EvaluationKey(lx, a).Le(EvaluationKey(lx, b))
  }

  /** The entries a list of matchers gives, in list order, those `Classify` refuses left out. */
  function Classified(lx: Lexicon, matchers: seq<string>, target: Target): seq<Entry> {
    if matchers == [] then []
    else
      var last := matchers[|matchers| - 1];
      Classified(lx, matchers[..|matchers| - 1], target) + EntryOf(lx, last, target)
  }

  function EntryOf(lx: Lexicon, matcher: string, target: Target): seq<Entry> {
    match Classify(lx, matcher)
    case None => []
    case Some((kind, value)) => [Entry(kind, value, target)]
  }

  function Listed(lx: Lexicon, t: Tier): seq<Entry> {
    Classified(lx, t.block, Block) + Classified(lx, t.direct, Direct) + Classified(lx, t.proxy, Proxy)
  }

  /** `slices.SortStableFunc`: the one order that is sorted by key and keeps equal keys as listed
      (SortIsSorted, SortIsStable). */
  function StableSort(lx: Lexicon, es: seq<Entry>): seq<Entry> {
    if es == [] then [] else Insert(lx, es[0], StableSort(lx, es[1..]))
  }

  function Insert(lx: Lexicon, e: Entry, es: seq<Entry>): seq<Entry> {
    if es == [] || NoLater(lx, e, es[0]) then [e] + es
    else [es[0]] + Insert(lx, e, es[1..])
  }

  function Entries(lx: Lexicon, t: Tier): seq<Entry> {
    StableSort(lx, Listed(lx, t))
  }

  ghost predicate SortedByKey(lx: Lexicon, es: seq<Entry>) {
    forall i, j :: 0 <= i <= j < |es| ==> NoLater(lx, es[i], es[j])
  }

  function WithKey(lx: Lexicon, es: seq<Entry>, k: Key): seq<Entry> {
    if es == [] then []
    else (if EvaluationKey(lx, es[0]) == k then [es[0]] else []) + WithKey(lx, es[1..], k)
  }

  lemma {:induction false} SortIsSorted(lx: Lexicon, es: seq<Entry>)
    ensures SortedByKey(lx, StableSort(lx, es))
    ensures multiset(StableSort(lx, es)) == multiset(es)
  {
    if es != [] {
      SortIsSorted(lx, es[1..]);
      InsertKeepsOrder(lx, es[0], StableSort(lx, es[1..]));
      assert es == [es[0]] + es[1..];
    }
  }

  lemma {:induction false} InsertKeepsOrder(lx: Lexicon, e: Entry, es: seq<Entry>)
    requires SortedByKey(lx, es)
    ensures SortedByKey(lx, Insert(lx, e, es))
    ensures multiset(Insert(lx, e, es)) == multiset(es) + multiset{e}
  {
    if es == [] || NoLater(lx, e, es[0]) {
    } else {
      InsertKeepsOrder(lx, e, es[1..]);
      var rest := Insert(lx, e, es[1..]);
      assert es == [es[0]] + es[1..];
      forall x | x in rest ensures NoLater(lx, es[0], x) {
        assert x in multiset(rest);
        assert x == e || x in es[1..];
      }
    }
  }

  lemma {:induction false} SortIsStable(lx: Lexicon, es: seq<Entry>, k: Key)
    ensures WithKey(lx, StableSort(lx, es), k) == WithKey(lx, es, k)
  {
    if es != [] {
      SortIsStable(lx, es[1..], k);
      SortIsSorted(lx, es[1..]);
      InsertIsStable(lx, es[0], StableSort(lx, es[1..]), k);
      WithKeyHead(lx, es, k);
    }
  }

  lemma WithKeyHead(lx: Lexicon, es: seq<Entry>, k: Key)
    requires es != []
    ensures WithKey(lx, es, k) == WithKey(lx, [es[0]], k) + WithKey(lx, es[1..], k)
  {
  }

  lemma {:induction false} InsertIsStable(lx: Lexicon, e: Entry, es: seq<Entry>, k: Key)
    requires SortedByKey(lx, es)
    ensures WithKey(lx, Insert(lx, e, es), k) == WithKey(lx, [e], k) + WithKey(lx, es, k)
  {
    if es == [] || NoLater(lx, e, es[0]) {
      assert ([e] + es)[1..] == es;
    } else {
      InsertIsStable(lx, e, es[1..], k);
      assert ([es[0]] + Insert(lx, e, es[1..]))[1..] == Insert(lx, e, es[1..]);
    }
  }

  lemma ClassifiedNext(lx: Lexicon, matchers: seq<string>, i: nat, target: Target)
    requires i < |matchers|
    ensures Classified(lx, matchers[..i + 1], target)
         == Classified(lx, matchers[..i], target) + EntryOf(lx, matchers[i], target)
  {
    assert matchers[..i + 1][..i] == matchers[..i];
  }

  method AppendClassified(lx: Lexicon, entries: seq<Entry>, matchers: seq<string>, target: Target)
    returns (out: seq<Entry>)
    ensures out == entries + Classified(lx, matchers, target)
  {
    out := entries;
    for i := 0 to |matchers|
      invariant out == entries + Classified(lx, matchers[..i], target)
    {
      ClassifiedNext(lx, matchers, i, target);
      match Classify(lx, matchers[i])
      case None =>
      case Some((kind, value)) => out := out + [Entry(kind, value, target)];
    }
    assert matchers[..|matchers|] == matchers;
  }

  method CollectListed(lx: Lexicon, t: Tier) returns (listed: seq<Entry>)
    ensures listed == Listed(lx, t)
  {
    var blocked := AppendClassified(lx, [], t.block, Block);
    assert blocked == Classified(lx, t.block, Block);
    var direct := AppendClassified(lx, blocked, t.direct, Direct);
    listed := AppendClassified(lx, direct, t.proxy, Proxy);
  }

  method CollectEntries(lx: Lexicon, t: Tier) returns (entries: seq<Entry>)
    ensures entries == Entries(lx, t)
  {
    var listed := CollectListed(lx, t);
    entries := StableSort(lx, listed);
  }

  // ---------------------------------------------------------------- lowering to steps

  function OfPlane(es: seq<Entry>, p: Plane): seq<Entry> {
    if es == [] then []
    else
      OfPlane(es[..|es| - 1], p)
      + (if es[|es| - 1].Plane() == p then [es[|es| - 1]] else [])
  }

  /** Where the run of entries sharing the plane and the outcome of entry `i` ends, from `j` on. */
  function RunEnd(es: seq<Entry>, i: nat, j: nat): (end: nat)
    requires i < j <= |es|
    ensures j <= end <= |es|
    ensures forall k :: j <= k < end ==> es[k].Plane() == es[i].Plane() && es[k].target == es[i].target
    ensures end == |es| || es[end].Plane() != es[i].Plane() || es[end].target != es[i].target
    decreases |es| - j
  {
    if j < |es| && es[j].Plane() == es[i].Plane() && es[j].target == es[i].target
    then RunEnd(es, i, j + 1) else j
  }

  /** How many leading entries reach up to and including the last block. */
  function ThroughLastBlock(es: seq<Entry>): (n: nat)
    ensures n <= |es|
    ensures n > 0 ==> es[n - 1].target == Block
    ensures forall k :: n <= k < |es| ==> es[k].target != Block
  {
    if es == [] then 0
    else if es[|es| - 1].target == Block then |es|
    else ThroughLastBlock(es[..|es| - 1])
  }

  function GuardOutcome(target: Target, e: Entry): Target {
    if e.target == Block then Block else target
  }

  /** One more entry of the other plane: it joins the last guard of its outcome, or opens one. */
  function AddGuard(steps: seq<Step>, run: seq<Entry>, target: Target, e: Entry): seq<Step> {
    var outcome := GuardOutcome(target, e);
    var n := |steps|;
    if n > 0 && steps[n - 1].target == outcome
    then steps[n - 1 := steps[n - 1].(also := steps[n - 1].also + [e])]
    else steps + [Step(run, [e], outcome)]
  }

  function Guards(run: seq<Entry>, target: Target, other: seq<Entry>): seq<Step> {
    if other == [] then []
    else AddGuard(Guards(run, target, other[..|other| - 1]), run, target, other[|other| - 1])
  }

  function GuardSteps(run: seq<Entry>, target: Target, otherPlane: seq<Entry>): seq<Step> {
    Guards(run, target, otherPlane[..ThroughLastBlock(otherPlane)])
  }

  function Other(p: Plane): Plane
    requires p != AppPlane
  {
    if p == NamePlane then AddressPlane else NamePlane
  }

  /** The steps one run is lowered to. */
  function RunSteps(es: seq<Entry>, i: nat, j: nat): seq<Step>
    requires i < j <= |es|
  {
    var run, plane, target := es[i..j], es[i].Plane(), es[i].target;
    (if plane != AppPlane && target != Block
     then GuardSteps(run, target, OfPlane(es, Other(plane))) else [])
    + [Step(run, [], target)]
  }

  function StepsFrom(es: seq<Entry>, i: nat): seq<Step>
    requires i <= |es|
    decreases |es| - i
  {
    if i == |es| then []
    else
      var j := RunEnd(es, i, i + 1);
      RunSteps(es, i, j) + StepsFrom(es, j)
  }

  function Steps(lx: Lexicon, t: Tier): seq<Step> {
    StepsFrom(Entries(lx, t), 0)
  }

  method FindLastBlock(otherPlane: seq<Entry>) returns (last: int)
    ensures -1 <= last < |otherPlane| && last + 1 == ThroughLastBlock(otherPlane)
  {
    last := -1;
    for k := 0 to |otherPlane|
      invariant -1 <= last && last + 1 == ThroughLastBlock(otherPlane[..k])
    {
      assert otherPlane[..k + 1][..k] == otherPlane[..k];
      if otherPlane[k].target == Block {
        last := k;
      }
    }
    assert otherPlane[..|otherPlane|] == otherPlane;
  }

  method BuildGuardSteps(run: seq<Entry>, target: Target, otherPlane: seq<Entry>) returns (steps: seq<Step>)
    ensures steps == GuardSteps(run, target, otherPlane)
  {
    var last := FindLastBlock(otherPlane);
    if last < 0 {
      return [];
    }
    steps := MergeGuards(run, target, otherPlane[..last + 1]);
  }

  method MergeGuards(run: seq<Entry>, target: Target, reach: seq<Entry>) returns (steps: seq<Step>)
    ensures steps == Guards(run, target, reach)
  {
    steps := [];
    for k := 0 to |reach|
      invariant steps == Guards(run, target, reach[..k])
    {
      var e := reach[k];
      assert reach[..k + 1][..k] == reach[..k];
      var outcome := if e.target == Block then Block else target;
      var n := |steps|;
      if n > 0 && steps[n - 1].target == outcome {
        steps := steps[n - 1 := steps[n - 1].(also := steps[n - 1].also + [e])];
      } else {
        steps := steps + [Step(run, [e], outcome)];
      }
    }
    assert reach[..|reach|] == reach;
  }

  method GroupByPlane(entries: seq<Entry>) returns (byPlane: map<Plane, seq<Entry>>)
    ensures byPlane.Keys == {NamePlane, AddressPlane, AppPlane}
    ensures forall p :: p in byPlane ==> byPlane[p] == OfPlane(entries, p)
  {
    byPlane := map[NamePlane := [], AddressPlane := [], AppPlane := []];
    for k := 0 to |entries|
      invariant byPlane.Keys == {NamePlane, AddressPlane, AppPlane}
      invariant forall p :: p in byPlane ==> byPlane[p] == OfPlane(entries[..k], p)
    {
      var p := entries[k].Plane();
      assert entries[..k + 1][..k] == entries[..k];
      byPlane := byPlane[p := byPlane[p] + [entries[k]]];
    }
    assert entries[..|entries|] == entries;
  }

  method FindRunEnd(es: seq<Entry>, i: nat) returns (j: nat)
    requires i < |es|
    ensures j == RunEnd(es, i, i + 1)
    ensures forall k :: i <= k < j ==> es[k].Plane() == es[i].Plane() && es[k].target == es[i].target
    ensures j == |es| || es[j].Plane() != es[i].Plane() || es[j].target != es[i].target
  {
    j := i + 1;
    while j < |es| && es[j].Plane() == es[i].Plane() && es[j].target == es[i].target
      invariant i < j <= |es|
      invariant RunEnd(es, i, j) == RunEnd(es, i, i + 1)
    {
      j := j + 1;
    }
  }

  method BuildRunSteps(es: seq<Entry>, byPlane: map<Plane, seq<Entry>>, i: nat, j: nat) returns (steps: seq<Step>)
    requires i < j <= |es|
    requires byPlane.Keys == {NamePlane, AddressPlane, AppPlane}
    requires forall p :: p in byPlane ==> byPlane[p] == OfPlane(es, p)
    ensures steps == RunSteps(es, i, j)
  {
    var run, plane, target := es[i..j], es[i].Plane(), es[i].target;
    steps := [];
    if plane != AppPlane && target != Block {
      steps := BuildGuardSteps(run, target, byPlane[Other(plane)]);
    }
    steps := steps + [Step(run, [], target)];
  }

  method LowerEntries(entries: seq<Entry>) returns (steps: seq<Step>)
    ensures steps == StepsFrom(entries, 0)
  {
    var byPlane := GroupByPlane(entries);
    steps := [];
    var i := 0;
    while i < |entries|
      invariant i <= |entries|
      invariant steps + StepsFrom(entries, i) == StepsFrom(entries, 0)
    {
      var j := FindRunEnd(entries, i);
      var added := BuildRunSteps(entries, byPlane, i, j);
      ghost var rest := StepsFrom(entries, j);
      assert StepsFrom(entries, i) == added + rest;
      assert (steps + added) + rest == steps + (added + rest);
      steps := steps + added;
      i := j;
    }
  }

  method BuildSteps(lx: Lexicon, t: Tier) returns (steps: seq<Step>)
    ensures steps == Steps(lx, t)
  {
    var entries := CollectEntries(lx, t);
    steps := LowerEntries(entries);
  }

  /** The tiers' steps, tier after tier. */
  function AllSteps(lx: Lexicon, tiers: seq<Tier>): seq<Step> {
    if tiers == [] then []
    else AllSteps(lx, tiers[..|tiers| - 1]) + Steps(lx, tiers[|tiers| - 1])
  }

  method BuildAllSteps(lx: Lexicon, tiers: seq<Tier>) returns (steps: seq<Step>)
    ensures steps == AllSteps(lx, tiers)
  {
    steps := [];
    for i := 0 to |tiers|
      invariant steps == AllSteps(lx, tiers[..i])
    {
      assert tiers[..i + 1][..i] == tiers[..i];
      var more := BuildSteps(lx, tiers[i]);
      steps := steps + more;
    }
    assert tiers[..|tiers|] == tiers;
  }

  /** The blocks alone, in the order the tiers meet them. */
  predicate IsPlainBlock(s: Step) {
    s.target == Block && s.also == []
  }

  function PlainBlocks(steps: seq<Step>): seq<Step> {
    if steps == [] then []
    else
      PlainBlocks(steps[..|steps| - 1])
      + (if IsPlainBlock(steps[|steps| - 1]) then [steps[|steps| - 1]] else [])
  }

  method KeepPlainBlocks(steps: seq<Step>) returns (blocks: seq<Step>)
    ensures blocks == PlainBlocks(steps)
  {
    blocks := [];
    for k := 0 to |steps|
      invariant blocks == PlainBlocks(steps[..k])
    {
      assert steps[..k + 1][..k] == steps[..k];
      if steps[k].target == Block && |steps[k].also| == 0 {
        blocks := blocks + [steps[k]];
      }
    }
    assert steps[..|steps|] == steps;
  }
}
