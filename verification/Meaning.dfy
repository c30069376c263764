/** What a tier means, said over the set of its entries, and the proof that lowering it to
    first-match steps keeps that meaning. `hit` says which entries a flow matches: it is arbitrary
    throughout, so the results hold for every flow and every way an engine matches one. */
module Meaning {
  import opened Text
  import opened Routing

  // ---------------------------------------------------------------- the policy

  ghost function SetOf(es: seq<Entry>): set<Entry> {
    set e | e in es
  }

  ghost function EntrySet(lx: Lexicon, t: Tier): set<Entry> {
    SetOf(Listed(lx, t))
  }

  /** The plane's most specific matching entry is a block. */
  ghost predicate BlockedIn(lx: Lexicon, es: set<Entry>, hit: Entry -> bool, p: Plane) {
    exists b ::
      && b in es && hit(b) && b.Plane() == p && b.target == Block
      && forall e :: e in es && hit(e) && e.Plane() == p ==> NoLater(lx, b, e)
  }

  /** The most specific matching entry of all planes has outcome `t`. */
  ghost predicate Chosen(lx: Lexicon, es: set<Entry>, hit: Entry -> bool, t: Target) {
    exists c ::
      && c in es && hit(c) && c.target == t
      && forall e :: e in es && hit(e) ==> NoLater(lx, c, e)
  }

  /** A block yields only inside its own plane; otherwise the most specific match decides. */
  ghost function Verdict(lx: Lexicon, es: set<Entry>, hit: Entry -> bool): Option<Target> {
    if exists p :: BlockedIn(lx, es, hit, p) then Some(Block)
    else if Chosen(lx, es, hit, Direct) then Some(Direct)
    else if Chosen(lx, es, hit, Proxy) then Some(Proxy)
    else None
  }

  // ---------------------------------------------------------------- first-match semantics

  predicate Any(es: seq<Entry>, hit: Entry -> bool) {
    exists e :: e in es && hit(e)
  }

  predicate StepHit(s: Step, hit: Entry -> bool) {
    Any(s.entries, hit) && (s.also == [] || Any(s.also, hit))
  }

  function FirstStep(steps: seq<Step>, hit: Entry -> bool): Option<Target> {
    if steps == [] then None
    else if StepHit(steps[0], hit) then Some(steps[0].target)
    else FirstStep(steps[1..], hit)
  }

  function FirstHit(es: seq<Entry>, hit: Entry -> bool): (r: Option<Entry>)
    ensures r.None? ==> !Any(es, hit)
    ensures r.Some? ==> r.value in es && hit(r.value)
  {
    if es == [] then None
    else if hit(es[0]) then Some(es[0])
    else FirstHit(es[1..], hit)
  }

  function Or<T>(a: Option<T>, b: Option<T>): Option<T> {
    if a.Some? then a else b
  }

  lemma {:induction false} FirstStepConcat(a: seq<Step>, b: seq<Step>, hit: Entry -> bool)
    ensures FirstStep(a + b, hit) == Or(FirstStep(a, hit), FirstStep(b, hit))
  {
    if a == [] {
      assert a + b == b;
    } else {
      assert (a + b)[1..] == a[1..] + b;
      FirstStepConcat(a[1..], b, hit);
    }
  }

  lemma {:induction false} FirstHitConcat(a: seq<Entry>, b: seq<Entry>, hit: Entry -> bool)
    ensures FirstHit(a + b, hit) == Or(FirstHit(a, hit), FirstHit(b, hit))
  {
    if a == [] {
      assert a + b == b;
    } else {
      assert (a + b)[1..] == a[1..] + b;
      FirstHitConcat(a[1..], b, hit);
    }
  }

  lemma {:induction false} FirstHitIndex(es: seq<Entry>, hit: Entry -> bool) returns (i: nat)
    requires FirstHit(es, hit).Some?
    ensures i < |es| && FirstHit(es, hit).value == es[i]
    ensures forall k :: 0 <= k < i ==> !hit(es[k])
  {
    if hit(es[0]) {
      i := 0;
    } else {
      var rest := FirstHitIndex(es[1..], hit);
      i := rest + 1;
      forall k | 0 <= k < i ensures !hit(es[k]) {
        if k > 0 {
          assert es[k] == es[1..][k - 1];
        }
      }
    }
  }

  // ---------------------------------------------------------------- guard steps

  function GuardVerdict(run: seq<Entry>, target: Target, other: seq<Entry>, hit: Entry -> bool): Option<Target> {
    if !Any(run, hit) then None
    else match FirstHit(other, hit)
      case None => None
      case Some(e) => Some(GuardOutcome(target, e))
  }

  ghost predicate GuardShaped(steps: seq<Step>, run: seq<Entry>) {
    forall k :: 0 <= k < |steps| ==> steps[k].entries == run && steps[k].also != []
  }

  lemma {:induction false} GuardsMeaning(run: seq<Entry>, target: Target, other: seq<Entry>, hit: Entry -> bool)
    ensures GuardShaped(Guards(run, target, other), run)
    ensures FirstStep(Guards(run, target, other), hit) == GuardVerdict(run, target, other, hit)
  {
    if other != [] {
      var front, e := other[..|other| - 1], other[|other| - 1];
      GuardsMeaning(run, target, front, hit);
      AddGuardMeaning(Guards(run, target, front), run, target, e, hit);
      assert other == front + [e];
      FirstHitConcat(front, [e], hit);
    }
  }

  lemma AddGuardMeaning(steps: seq<Step>, run: seq<Entry>, target: Target, e: Entry, hit: Entry -> bool)
    requires GuardShaped(steps, run)
    ensures GuardShaped(AddGuard(steps, run, target, e), run)
    ensures FirstStep(AddGuard(steps, run, target, e), hit)
         == Or(FirstStep(steps, hit),
               if Any(run, hit) && hit(e) then Some(GuardOutcome(target, e)) else None)
  {
    var outcome := GuardOutcome(target, e);
    var n := |steps|;
    if n > 0 && steps[n - 1].target == outcome {
      var last := steps[n - 1];
      var grown := last.(also := last.also + [e]);
      assert steps == steps[..n - 1] + [last];
      assert AddGuard(steps, run, target, e) == steps[..n - 1] + [grown];
      FirstStepConcat(steps[..n - 1], [last], hit);
      FirstStepConcat(steps[..n - 1], [grown], hit);
      assert Any(grown.also, hit) == (Any(last.also, hit) || hit(e)) by {
        if Any(last.also, hit) {
          var x :| x in last.also && hit(x);
          assert x in grown.also;
        }
        if hit(e) {
          assert e in grown.also;
        }
      }
    } else {
      var added := Step(run, [e], outcome);
      FirstStepConcat(steps, [added], hit);
      assert Any([e], hit) == hit(e) by {
        assert e in [e];
      }
    }
  }

  /** Cutting the other plane at its last block loses nothing: past it every entry keeps the run's
      own outcome. */
  lemma GuardStepsMeaning(run: seq<Entry>, target: Target, other: seq<Entry>, hit: Entry -> bool)
    requires Any(run, hit)
    ensures Or(FirstStep(GuardSteps(run, target, other), hit), Some(target))
         == Some(match FirstHit(other, hit) case None => target case Some(e) => GuardOutcome(target, e))
  {
    var n := ThroughLastBlock(other);
    GuardsMeaning(run, target, other[..n], hit);
    assert other == other[..n] + other[n..];
    FirstHitConcat(other[..n], other[n..], hit);
  }

  lemma GuardStepsNeedTheRun(run: seq<Entry>, target: Target, other: seq<Entry>, hit: Entry -> bool)
    requires !Any(run, hit)
    ensures FirstStep(GuardSteps(run, target, other), hit) == None
  {
    GuardsMeaning(run, target, other[..ThroughLastBlock(other)], hit);
  }

  // ---------------------------------------------------------------- lowering, in list order

  /** What the steps give, said over the sorted entries: the first match, unless it is a direct or
      proxy site entry and the other plane's first match is a block. */
  function ListVerdict(es: seq<Entry>, i: nat, hit: Entry -> bool): Option<Target>
    requires i <= |es|
  {
    match FirstHit(es[i..], hit)
    case None => None
    case Some(e) =>
      if e.Plane() == AppPlane || e.target == Block then Some(e.target)
      else match FirstHit(OfPlane(es, Other(e.Plane())), hit)
        case None => Some(e.target)
        case Some(o) => Some(GuardOutcome(e.target, o))
  }

  lemma {:induction false} StepsFollowTheList(es: seq<Entry>, i: nat, hit: Entry -> bool)
    requires i <= |es|
    ensures FirstStep(StepsFrom(es, i), hit) == ListVerdict(es, i, hit)
    decreases |es| - i
  {
    if i < |es| {
      var j := RunEnd(es, i, i + 1);
      StepsFollowTheList(es, j, hit);
      FirstStepConcat(RunSteps(es, i, j), StepsFrom(es, j), hit);
      RunMeaning(es, i, j, hit);
      PastTheRun(es, i, j, hit);
    }
  }

  lemma PastTheRun(es: seq<Entry>, i: nat, j: nat, hit: Entry -> bool)
    requires i < j <= |es|
    ensures FirstHit(es[i..j], hit).None? ==> ListVerdict(es, i, hit) == ListVerdict(es, j, hit)
    ensures FirstHit(es[i..j], hit).Some? ==> ListVerdict(es, i, hit).Some?
  {
    assert es[i..] == es[i..j] + es[j..];
    FirstHitConcat(es[i..j], es[j..], hit);
  }

  lemma RunMeaning(es: seq<Entry>, i: nat, j: nat, hit: Entry -> bool)
    requires i < j <= |es|
    requires forall k :: i < k < j ==> es[k].Plane() == es[i].Plane() && es[k].target == es[i].target
    ensures FirstStep(RunSteps(es, i, j), hit)
         == if FirstHit(es[i..j], hit).None? then None else ListVerdict(es, i, hit)
  {
    var run, plane, target := es[i..j], es[i].Plane(), es[i].target;
    var own := [Step(run, [], target)];
    assert es[i..] == run + es[j..];
    FirstHitConcat(run, es[j..], hit);
    assert FirstStep(own, hit) == if Any(run, hit) then Some(target) else None;
    if plane != AppPlane && target != Block {
      var other := OfPlane(es, Other(plane));
      FirstStepConcat(GuardSteps(run, target, other), own, hit);
      if Any(run, hit) {
        GuardStepsMeaning(run, target, other, hit);
      } else {
        GuardStepsNeedTheRun(run, target, other, hit);
      }
    }
  }

  // ---------------------------------------------------------------- from the list to the policy

  lemma {:induction false} OfPlaneMembers(es: seq<Entry>, p: Plane)
    ensures forall e :: e in OfPlane(es, p) <==> e in es && e.Plane() == p
  {
    if es != [] {
      OfPlaneMembers(es[..|es| - 1], p);
      assert es == es[..|es| - 1] + [es[|es| - 1]];
    }
  }

  lemma {:induction false} OfPlaneSorted(lx: Lexicon, es: seq<Entry>, p: Plane)
    requires SortedByKey(lx, es)
    ensures SortedByKey(lx, OfPlane(es, p))
  {
    if es != [] {
      var front, last := es[..|es| - 1], es[|es| - 1];
      OfPlaneSorted(lx, front, p);
      OfPlaneMembers(front, p);
      forall e | e in OfPlane(front, p) ensures NoLater(lx, e, last) {
        var k :| 0 <= k < |front| && front[k] == e;
        assert es[k] == e;
      }
      assert NoLater(lx, last, last);
    }
  }

  /** In sorted order the first match is a least match. */
  lemma FirstHitIsLeast(lx: Lexicon, es: seq<Entry>, hit: Entry -> bool)
    requires SortedByKey(lx, es) && FirstHit(es, hit).Some?
    ensures forall e :: e in es && hit(e) ==> NoLater(lx, FirstHit(es, hit).value, e)
  {
    var i := FirstHitIndex(es, hit);
    forall e | e in es && hit(e) ensures NoLater(lx, es[i], e) {
      var k :| 0 <= k < |es| && es[k] == e;
      assert i <= k;
    }
  }

  /** Two entries neither of which comes later share their outcome: the outcome ends the key. */
  lemma TiedOutcome(lx: Lexicon, a: Entry, b: Entry)
    requires NoLater(lx, a, b) && NoLater(lx, b, a)
    ensures a.target == b.target
  {
  }

  /** A plane is blocked exactly when the first of its sorted entries to match is a block. */
  lemma BlockedInByOrder(lx: Lexicon, es: seq<Entry>, hit: Entry -> bool, p: Plane)
    requires SortedByKey(lx, es)
    ensures BlockedIn(lx, SetOf(es), hit, p)
        <==> var first := FirstHit(OfPlane(es, p), hit); first.Some? && first.value.target == Block
  {
    var plane, all := OfPlane(es, p), SetOf(es);
    OfPlaneMembers(es, p);
    OfPlaneSorted(lx, es, p);
    if FirstHit(plane, hit).Some? {
      var first := FirstHit(plane, hit).value;
      FirstHitIsLeast(lx, plane, hit);
      if BlockedIn(lx, all, hit, p) {
        var b :| && b in all && hit(b) && b.Plane() == p && b.target == Block
                 && forall e :: e in all && hit(e) && e.Plane() == p ==> NoLater(lx, b, e);
        TiedOutcome(lx, first, b);
      }
    }
  }

  lemma FirstOfItsPlane(lx: Lexicon, es: seq<Entry>, hit: Entry -> bool, e: Entry)
    requires SortedByKey(lx, es) && FirstHit(es, hit) == Some(e)
    ensures FirstHit(OfPlane(es, e.Plane()), hit).Some?
    ensures FirstHit(OfPlane(es, e.Plane()), hit).value.target == e.target
  {
    var plane := OfPlane(es, e.Plane());
    OfPlaneMembers(es, e.Plane());
    OfPlaneSorted(lx, es, e.Plane());
    assert e in plane;
    FirstHitIsLeast(lx, es, hit);
    FirstHitIsLeast(lx, plane, hit);
    TiedOutcome(lx, e, FirstHit(plane, hit).value);
  }

  lemma ChosenIsFirst(lx: Lexicon, es: seq<Entry>, hit: Entry -> bool, e: Entry)
    requires SortedByKey(lx, es) && FirstHit(es, hit) == Some(e)
    ensures forall t :: Chosen(lx, SetOf(es), hit, t) <==> t == e.target
  {
    var all := SetOf(es);
    FirstHitIsLeast(lx, es, hit);
    assert e in all;
    forall t | Chosen(lx, all, hit, t) ensures t == e.target {
      var c :| c in all && hit(c) && c.target == t && forall x :: x in all && hit(x) ==> NoLater(lx, c, x);
      TiedOutcome(lx, c, e);
    }
  }

  /** An app's block leads every tier and its other entries close it. */
  lemma AppEntriesEnclose(lx: Lexicon, e: Entry, x: Entry)
    requires NoLater(lx, e, x) && e.target != Block
    ensures x.Plane() == AppPlane ==> x.target != Block
    ensures e.Plane() == AppPlane ==> x.Plane() == AppPlane
  {
  }

  /** Which planes can still block once a direct or proxy entry is the first match. */
  lemma BlockedElsewhere(lx: Lexicon, es: seq<Entry>, hit: Entry -> bool, e: Entry)
    requires SortedByKey(lx, es) && FirstHit(es, hit) == Some(e) && e.target != Block
    ensures !BlockedIn(lx, SetOf(es), hit, e.Plane())
    ensures !BlockedIn(lx, SetOf(es), hit, AppPlane)
    ensures e.Plane() == AppPlane ==> forall p :: !BlockedIn(lx, SetOf(es), hit, p)
  {
    forall p | BlockedIn(lx, SetOf(es), hit, p) ensures p != e.Plane() && p != AppPlane && e.Plane() != AppPlane {
      var b :| b in SetOf(es) && hit(b) && b.Plane() == p && b.target == Block
               && forall x :: x in SetOf(es) && hit(x) && x.Plane() == p ==> NoLater(lx, b, x);
      FirstHitIsLeast(lx, es, hit);
      AppEntriesEnclose(lx, e, b);
      if p == e.Plane() {
        TiedOutcome(lx, e, b);
      }
    }
  }

  lemma ListVerdictIsVerdict(lx: Lexicon, es: seq<Entry>, hit: Entry -> bool)
    requires SortedByKey(lx, es)
    ensures ListVerdict(es, 0, hit) == Verdict(lx, SetOf(es), hit)
  {
    assert es[0..] == es;
    if FirstHit(es, hit).Some? {
      var e := FirstHit(es, hit).value;
      ChosenIsFirst(lx, es, hit, e);
      if e.target == Block {
        BlockedInByOrder(lx, es, hit, e.Plane());
        FirstOfItsPlane(lx, es, hit, e);
      } else {
        UnlessTheOtherPlaneBlocks(lx, es, hit, e);
      }
    }
  }

  /** The other site plane's first match is a block. */
  predicate OtherPlaneBlocks(es: seq<Entry>, hit: Entry -> bool, e: Entry) {
    if e.Plane() == AppPlane then false
    else
      var o := FirstHit(OfPlane(es, Other(e.Plane())), hit);
      o.Some? && o.value.target == Block
  }

  /** A direct or proxy match in the lead yields only to a block leading the other site plane. */
  lemma UnlessTheOtherPlaneBlocks(lx: Lexicon, es: seq<Entry>, hit: Entry -> bool, e: Entry)
    requires SortedByKey(lx, es) && FirstHit(es, hit) == Some(e) && e.target != Block
    ensures OtherPlaneBlocks(es, hit, e) <==> exists p :: BlockedIn(lx, SetOf(es), hit, p)
  {
    BlockedElsewhere(lx, es, hit, e);
    if e.Plane() != AppPlane {
      BlockedInByOrder(lx, es, hit, Other(e.Plane()));
    }
  }

  // ---------------------------------------------------------------- main results on one tier

  /** Lowering preserves meaning: for every tier and every flow the first step to match gives the
      tier's verdict. */
  lemma LoweringPreservesMeaning(lx: Lexicon, t: Tier, hit: Entry -> bool)
    ensures FirstStep(Steps(lx, t), hit) == Verdict(lx, EntrySet(lx, t), hit)
  {
    var es := Entries(lx, t);
    StepsFollowTheList(es, 0, hit);
    SortIsSorted(lx, Listed(lx, t));
    ListVerdictIsVerdict(lx, es, hit);
    EntriesAreListed(lx, t);
  }

  lemma EntriesAreListed(lx: Lexicon, t: Tier)
    ensures SetOf(Entries(lx, t)) == EntrySet(lx, t)
    ensures forall e :: e in Entries(lx, t) <==> e in Listed(lx, t)
  {
    SortIsSorted(lx, Listed(lx, t));
    forall e ensures e in Entries(lx, t) <==> e in Listed(lx, t) {
      assert e in multiset(Entries(lx, t)) <==> e in multiset(Listed(lx, t));
    }
  }

  // ---------------------------------------------------------------- plain blocks

  lemma {:induction false} PlainBlocksMembers(steps: seq<Step>)
    ensures forall s :: s in PlainBlocks(steps) <==> s in steps && IsPlainBlock(s)
  {
    if steps != [] {
      PlainBlocksMembers(steps[..|steps| - 1]);
      assert steps == steps[..|steps| - 1] + [steps[|steps| - 1]];
    }
  }

  lemma {:induction false} FirstOfBlocks(steps: seq<Step>, hit: Entry -> bool)
    requires forall s :: s in steps ==> IsPlainBlock(s)
    ensures FirstStep(steps, hit) == if exists s :: s in steps && Any(s.entries, hit) then Some(Block) else None
  {
    if steps != [] {
      assert steps == [steps[0]] + steps[1..];
      FirstOfBlocks(steps[1..], hit);
      if s :| s in steps[1..] && Any(s.entries, hit) {
        assert s in steps;
      }
      if Any(steps[0].entries, hit) {
        assert steps[0] in steps;
      }
    }
  }

  lemma {:induction false} GuardsArePaired(run: seq<Entry>, target: Target, other: seq<Entry>)
    ensures forall s :: s in Guards(run, target, other) ==> s.also != []
  {
    if other != [] {
      GuardsArePaired(run, target, other[..|other| - 1]);
    }
  }

  ghost predicate HoldsBlock(steps: seq<Step>, e: Entry) {
    exists s :: s in steps && IsPlainBlock(s) && e in s.entries
  }

  lemma HoldsBlockConcat(a: seq<Step>, b: seq<Step>, e: Entry)
    ensures HoldsBlock(a + b, e) <==> HoldsBlock(a, e) || HoldsBlock(b, e)
  {
    if HoldsBlock(a, e) {
      var s :| s in a && IsPlainBlock(s) && e in s.entries;
      assert s in a + b;
    }
    if HoldsBlock(b, e) {
      var s :| s in b && IsPlainBlock(s) && e in s.entries;
      assert s in a + b;
    }
  }

  /** The unpaired block steps hold exactly the block entries. */
  lemma {:induction false} StepsHoldBlocks(es: seq<Entry>, i: nat, e: Entry)
    requires i <= |es|
    ensures HoldsBlock(StepsFrom(es, i), e) <==> e in es[i..] && e.target == Block
    decreases |es| - i
  {
    if i < |es| {
      var j := RunEnd(es, i, i + 1);
      StepsHoldBlocks(es, j, e);
      HeadHoldsBlocks(es, i, j, StepsFrom(es, j), e);
    }
  }

  lemma HeadHoldsBlocks(es: seq<Entry>, i: nat, j: nat, rest: seq<Step>, e: Entry)
    requires i < j <= |es|
    requires forall k :: i < k < j ==> es[k].Plane() == es[i].Plane() && es[k].target == es[i].target
    requires HoldsBlock(rest, e) <==> e in es[j..] && e.target == Block
    ensures HoldsBlock(RunSteps(es, i, j) + rest, e) <==> e in es[i..] && e.target == Block
  {
    RunHoldsBlocks(es, i, j, e);
    BlocksJoin(RunSteps(es, i, j), rest, es[i..j], es[j..], e);
    assert es[i..] == es[i..j] + es[j..];
  }

  lemma BlocksJoin(a: seq<Step>, b: seq<Step>, xs: seq<Entry>, ys: seq<Entry>, e: Entry)
    requires HoldsBlock(a, e) <==> e in xs && e.target == Block
    requires HoldsBlock(b, e) <==> e in ys && e.target == Block
    ensures HoldsBlock(a + b, e) <==> e in xs + ys && e.target == Block
  {
    HoldsBlockConcat(a, b, e);
  }

  lemma RunHoldsBlocks(es: seq<Entry>, i: nat, j: nat, e: Entry)
    requires i < j <= |es|
    requires forall k :: i < k < j ==> es[k].Plane() == es[i].Plane() && es[k].target == es[i].target
    ensures HoldsBlock(RunSteps(es, i, j), e) <==> e in es[i..j] && e.target == Block
  {
    var run, plane, target := es[i..j], es[i].Plane(), es[i].target;
    var own := Step(run, [], target);
    assert own in RunSteps(es, i, j) && (e in run ==> e.target == target);
    if plane != AppPlane && target != Block {
      var other := OfPlane(es, Other(plane));
      GuardsArePaired(run, target, other[..ThroughLastBlock(other)]);
    }
  }

  ghost predicate TiersList(lx: Lexicon, tiers: seq<Tier>, e: Entry) {
    exists t :: t in tiers && e in Listed(lx, t)
  }

  lemma StepsOfTierHoldBlocks(lx: Lexicon, t: Tier, e: Entry)
    ensures HoldsBlock(Steps(lx, t), e) <==> e in Listed(lx, t) && e.target == Block
  {
    StepsHoldBlocks(Entries(lx, t), 0, e);
    assert Entries(lx, t)[0..] == Entries(lx, t);
    EntriesAreListed(lx, t);
  }

  function Flat(parts: seq<seq<Step>>): seq<Step> {
    if parts == [] then [] else Flat(parts[..|parts| - 1]) + parts[|parts| - 1]
  }

  function TierSteps(lx: Lexicon, tiers: seq<Tier>): seq<seq<Step>> {
    if tiers == [] then [] else TierSteps(lx, tiers[..|tiers| - 1]) + [Steps(lx, tiers[|tiers| - 1])]
  }

  lemma {:induction false} TierStepsAt(lx: Lexicon, tiers: seq<Tier>, k: nat)
    requires k < |tiers|
    ensures |TierSteps(lx, tiers)| == |tiers| && TierSteps(lx, tiers)[k] == Steps(lx, tiers[k])
  {
    if |tiers| > 1 {
      TierStepsAt(lx, tiers[..|tiers| - 1], 0);
    }
    if k < |tiers| - 1 {
      TierStepsAt(lx, tiers[..|tiers| - 1], k);
    }
  }

  lemma FlatLast(front: seq<seq<Step>>, last: seq<Step>)
    ensures Flat(front + [last]) == Flat(front) + last
  {
    assert (front + [last])[..|front|] == front;
  }

  lemma {:induction false} AllStepsAreFlat(lx: Lexicon, tiers: seq<Tier>)
    ensures AllSteps(lx, tiers) == Flat(TierSteps(lx, tiers))
  {
    if tiers != [] {
      AllStepsAreFlat(lx, tiers[..|tiers| - 1]);
      FlatLast(TierSteps(lx, tiers[..|tiers| - 1]), Steps(lx, tiers[|tiers| - 1]));
    }
  }

  /** The steps hold the entry in a plain block exactly when the tier lists it as one. */
  ghost predicate BlocksAsListed(lx: Lexicon, t: Tier, steps: seq<Step>, e: Entry) {
    HoldsBlock(steps, e) <==> e in Listed(lx, t) && e.target == Block
  }

  /** The same for the steps and the lists of several tiers. */
  ghost predicate AllBlocksAsListed(lx: Lexicon, tiers: seq<Tier>, steps: seq<Step>, e: Entry) {
    HoldsBlock(steps, e) <==> TiersList(lx, tiers, e) && e.target == Block
  }

  lemma {:induction false} FlatHoldsBlocks(lx: Lexicon, tiers: seq<Tier>, parts: seq<seq<Step>>, e: Entry)
    requires |parts| == |tiers| && forall k :: 0 <= k < |tiers| ==> BlocksAsListed(lx, tiers[k], parts[k], e)
    ensures AllBlocksAsListed(lx, tiers, Flat(parts), e)
  {
    if tiers == [] {
      NoTierNoBlocks(lx, e);
    } else {
      var n := |tiers| - 1;
      var front, last, fronts := tiers[..n], tiers[n], parts[..n];
      assert tiers == front + [last];
      assert BlocksAsListed(lx, last, parts[n], e);
      FlatHoldsBlocks(lx, front, fronts, e);
      TierBlocksJoin(lx, front, last, Flat(fronts), parts[n], e);
    }
  }

  lemma NoTierNoBlocks(lx: Lexicon, e: Entry)
    ensures AllBlocksAsListed(lx, [], [], e)
  {
  }

  lemma AllStepsHoldBlocks(lx: Lexicon, tiers: seq<Tier>, e: Entry)
    ensures HoldsBlock(AllSteps(lx, tiers), e) <==> TiersList(lx, tiers, e) && e.target == Block
  {
    var parts := TierSteps(lx, tiers);
    AllStepsAreFlat(lx, tiers);
    if tiers != [] {
      TierStepsAt(lx, tiers, 0);
    }
    forall k | 0 <= k < |tiers| ensures BlocksAsListed(lx, tiers[k], parts[k], e) {
      TierStepsAt(lx, tiers, k);
      StepsOfTierHoldBlocks(lx, tiers[k], e);
    }
    FlatHoldsBlocks(lx, tiers, parts, e);
  }

  lemma TierBlocksJoin(lx: Lexicon, front: seq<Tier>, last: Tier, a: seq<Step>, b: seq<Step>, e: Entry)
    requires AllBlocksAsListed(lx, front, a, e)
    requires BlocksAsListed(lx, last, b, e)
    ensures AllBlocksAsListed(lx, front + [last], a + b, e)
  {
    HoldsBlockConcat(a, b, e);
    TiersListConcat(lx, front, last, e);
  }

  lemma TiersListConcat(lx: Lexicon, front: seq<Tier>, last: Tier, e: Entry)
    ensures TiersList(lx, front + [last], e) <==> TiersList(lx, front, e) || e in Listed(lx, last)
  {
    assert last in front + [last];
    if TiersList(lx, front, e) {
      var t :| t in front && e in Listed(lx, t);
      assert t in front + [last];
    }
  }
}
