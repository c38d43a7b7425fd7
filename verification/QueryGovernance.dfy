/**
  Confidential query governor: rolling rate limit, differencing and overlap restrictions per scope.
  Timestamps and ratios are reals, so floating-point rounding is not modelled.
 */
module QueryGovernance {
  import opened Common

  datatype ReleaseKind = Aggregate | Individual

  datatype Scope = Scope(agent: Id, dataset: Id, session: Id, purpose: Id)

  datatype Request = Request(scope: Scope, subset: set<Id>, groupSize: nat, kind: ReleaseKind, at: real)

  datatype Action = Allow | Deny | Transform | RequireApproval

  datatype Code = PatternRisk | BudgetExceeded | ApprovalRequired

  datatype Decision = Decision(action: Action, reason: Option<Code>, rounding: Option<int>) {
    predicate Allowed() { !action.Deny? }
  }

  datatype Policy = Policy(
    window: real,
    maxDecrypts: Option<int>,
    minGroupSize: int,
    denyIndividual: bool,
    minDifference: int,
    maxOverlap: Option<real>,
    approvalBelow: Option<int>,
    roundDecimals: Option<int>)

  /** One recorded release. */
  datatype Release = Release(at: real, subset: set<Id>)

  /** The releases the window of a request at `now` looks back on; later ones count too. */
  function Recent(p: Policy, hist: seq<Release>, now: real): seq<Release> {
    if hist == [] then [] else
      var last := hist[|hist| - 1];
      Recent(p, hist[..|hist| - 1], now) + if last.at >= now - p.window then [last] else []
  }

  function SymmetricDifference(a: set<Id>, b: set<Id>): set<Id> { (a - b) + (b - a) }

  function Overlap(a: set<Id>, b: set<Id>): real
    requires a != {} && b != {}
  {
    var smaller := if |a| <= |b| then |a| else |b|;
    (|a * b| as real) / (smaller as real)
  }

  predicate Differencing(p: Policy, a: set<Id>, b: set<Id>) {
    p.minDifference > 0 && 0 < |SymmetricDifference(a, b)| < p.minDifference
  }

  predicate Overlapping(p: Policy, a: set<Id>, b: set<Id>) {
    a != {} && b != {} && p.maxOverlap.Some? && a != b && Overlap(a, b) > p.maxOverlap.value
  }

  predicate Conflict(p: Policy, a: set<Id>, b: set<Id>) {
    a != {} && b != {} && (Differencing(p, a, b) || Overlapping(p, a, b))
  }

  predicate AnyConflict(p: Policy, a: set<Id>, rs: seq<Release>) {
    exists i | 0 <= i < |rs| :: Conflict(p, a, rs[i].subset)
  }

  predicate OverRate(p: Policy, rs: seq<Release>) {
    p.maxDecrypts.Some? && |rs| >= p.maxDecrypts.value
  }

  /** Most restrictive rule first. */
  function Decide(p: Policy, hist: seq<Release>, r: Request): Decision {
    var recent := Recent(p, hist, r.at);
    if r.kind.Individual? && p.denyIndividual then Decision(Deny, Some(PatternRisk), None)
    else if r.groupSize < p.minGroupSize then Decision(Deny, Some(PatternRisk), None)
    else if OverRate(p, recent) then Decision(Deny, Some(BudgetExceeded), None)
    else if AnyConflict(p, r.subset, recent) then Decision(Deny, Some(PatternRisk), None)
    else if p.approvalBelow.Some? && r.groupSize < p.approvalBelow.value
    then Decision(RequireApproval, Some(ApprovalRequired), p.roundDecimals)
    else if p.roundDecimals.Some? then Decision(Transform, None, p.roundDecimals)
    else Decision(Allow, None, None)
  }

  /**
    Nothing is denied without cause: a request passes exactly when no rule, read off the whole history, stands against
    it.
   */
  lemma AllowedIff(p: Policy, hist: seq<Release>, r: Request)
    ensures Decide(p, hist, r).Allowed() <==>
              && !(r.kind.Individual? && p.denyIndividual)
              && r.groupSize >= p.minGroupSize
              && (p.maxDecrypts.Some? ==>
                 |set i | 0 <= i < |hist| && hist[i].at >= r.at - p.window| < p.maxDecrypts.value)
              && (forall i | 0 <= i < |hist| && hist[i].at >= r.at - p.window ::
                    Compatible(p, r.subset, hist[i].subset))
  {
    CompatibleIff(p);
    RecentCount(p, hist, r.at);
    RecentMembers(p, hist, r.at);
    var recent := Recent(p, hist, r.at);
    assert forall i | 0 <= i < |recent| :: recent[i] in recent;
    assert forall i | 0 <= i < |hist| :: hist[i] in hist;
  }

  /** Two subsets that may both be released: an empty one, equal ones, or two far enough apart. */
  ghost predicate Compatible(p: Policy, a: set<Id>, b: set<Id>) {
    || a == {} || b == {} || a == b
    || (&& |a - b| + |b - a| >= p.minDifference
        && (p.maxOverlap.Some? ==>
              && |a * b| as real <= p.maxOverlap.value * |a| as real
              && |a * b| as real <= p.maxOverlap.value * |b| as real))
  }

  lemma CompatibleIff(p: Policy)
    ensures forall a, b :: Compatible(p, a, b) <==> !Conflict(p, a, b)
  {
    forall a, b ensures Compatible(p, a, b) <==> !Conflict(p, a, b) {
      CompatiblePair(p, a, b);
    }
    hide Compatible, Conflict;
  }

  lemma CompatiblePair(p: Policy, a: set<Id>, b: set<Id>)
    ensures Compatible(p, a, b) <==> !Conflict(p, a, b)
  {
    hide Overlap, SymmetricDifference;
    if a != {} && b != {} {
      DifferenceSplits(a, b);
      DistinctDiffer(a, b);
      if p.maxOverlap.Some? { OverlapBound(a, b, p.maxOverlap.value); }
    }
  }

  lemma OverlapBound(a: set<Id>, b: set<Id>, ratio: real)
    requires a != {} && b != {}
    ensures Overlap(a, b) <= ratio <==>
              |a * b| as real <= ratio * |a| as real && |a * b| as real <= ratio * |b| as real
  {
    OverlapIsRatio(a, b);
    RatioBound(|a * b| as real, |a| as real, |b| as real, ratio);
    hide Overlap;
  }

  lemma DifferenceSplits(a: set<Id>, b: set<Id>)
    ensures |SymmetricDifference(a, b)| == |a - b| + |b - a|
  {
  }

  lemma OverlapIsRatio(a: set<Id>, b: set<Id>)
    requires a != {} && b != {}
    ensures Overlap(a, b) == (|a * b| as real) / (if |a| <= |b| then |a| as real else |b| as real)
  {
  }

  lemma RatioBound(common: real, x: real, y: real, ratio: real)
    requires x > 0.0 && y > 0.0 && common >= 0.0
    ensures common / (if x <= y then x else y) <= ratio <==> common <= ratio * x && common <= ratio * y
  {
    var m := if x <= y then x else y;
    var q := common / m;
    assert common == q * m;
    if q <= ratio {
      assert q >= 0.0;
      assert q * m <= ratio * m;
      assert ratio * m <= ratio * x && ratio * m <= ratio * y;
    } else {
      assert q * m > ratio * m;
    }
  }

  /** The three answers to a request that is not denied; each carries the rounding the policy asks for. */
  lemma UndeniedAnswer(p: Policy, hist: seq<Release>, r: Request)
    requires Decide(p, hist, r).action != Deny
    ensures var d, small := Decide(p, hist, r), exists n :: p.approvalBelow == Some(n) && r.groupSize < n;
            && (d.action == RequireApproval <==> small)
            && (d.action == Transform <==> !small && p.roundDecimals != None)
            && (d.action == Allow <==> !small && p.roundDecimals == None)
            && d.rounding == p.roundDecimals
            && d.reason == (if small then Some(ApprovalRequired) else None)
  {
    if p.approvalBelow.Some? { assert p.approvalBelow == Some(p.approvalBelow.value); }
  }

  /** A denial blames the budget exactly when the group rules pass and the window is full. */
  lemma DenialReason(p: Policy, hist: seq<Release>, r: Request)
    requires Decide(p, hist, r).action == Deny
    ensures var d := Decide(p, hist, r);
            var full := exists n :: p.maxDecrypts == Some(n)
                                    && |set i | 0 <= i < |hist| && hist[i].at >= r.at - p.window| >= n;
            var grouped := (r.kind == Individual ==> !p.denyIndividual) && r.groupSize >= p.minGroupSize;
            && d.reason == Some(if grouped && full then BudgetExceeded else PatternRisk)
            && d.rounding == None
  {
    RecentCount(p, hist, r.at);
    if p.maxDecrypts.Some? { assert p.maxDecrypts == Some(p.maxDecrypts.value); }
  }

  lemma {:induction false} RecentCount(p: Policy, hist: seq<Release>, now: real)
    ensures |Recent(p, hist, now)| == |set i | 0 <= i < |hist| && hist[i].at >= now - p.window|
  {
    var all := set i | 0 <= i < |hist| && hist[i].at >= now - p.window;
    if hist == [] {
      assert all == {};
    } else {
      var init, n := hist[..|hist| - 1], |hist| - 1;
      RecentCount(p, init, now);
      var rest := set i | 0 <= i < |init| && init[i].at >= now - p.window;
      assert all == if hist[n].at >= now - p.window then rest + {n} else rest;
    }
  }

  lemma {:induction false} RecentMembers(p: Policy, hist: seq<Release>, now: real)
    ensures forall x :: x in Recent(p, hist, now) <==> x in hist && x.at >= now - p.window
  {
    if hist != [] {
      RecentMembers(p, hist[..|hist| - 1], now);
      assert hist == hist[..|hist| - 1] + [hist[|hist| - 1]];
    }
  }

  type History = map<Scope, seq<Release>>

  function HistoryOf(h: History, s: Scope): seq<Release> {
    if s in h then h[s] else []
  }

  function GovernedRelease(p: Policy, h: History, r: Request): History {
    if Decide(p, HistoryOf(h, r.scope), r).Allowed()
    then h[r.scope := HistoryOf(h, r.scope) + [Release(r.at, r.subset)]]
    else h
  }

  function Run(p: Policy, rs: seq<Request>): History {
    if rs == [] then map[] else GovernedRelease(p, Run(p, rs[..|rs| - 1]), rs[|rs| - 1])
  }

  // ---------------------------------------------------------------------------
  // What every run keeps about one scope's history
  // ---------------------------------------------------------------------------

  /** Each release was admissible when it was recorded. */
  ghost predicate Governed(p: Policy, hist: seq<Release>) {
    hist != [] ==>
      var init, last := hist[..|hist| - 1], hist[|hist| - 1];
      var recent := Recent(p, init, last.at);
      Governed(p, init) && !OverRate(p, recent) && !AnyConflict(p, last.subset, recent)
  }

  lemma {:induction false} RunIsGoverned(p: Policy, rs: seq<Request>, s: Scope)
    ensures Governed(p, HistoryOf(Run(p, rs), s))
  {
    if rs != [] {
      var init, r := rs[..|rs| - 1], rs[|rs| - 1];
      RunIsGoverned(p, init, s);
      var was := HistoryOf(Run(p, init), s);
      if r.scope == s {
        assert (was + [Release(r.at, r.subset)])[..|was|] == was;
      }
    }
  }

  // ---------------------------------------------------------------------------
  // Rate
  // ---------------------------------------------------------------------------

  /** Releases with a timestamp in the closed interval [lo, hi]. */
  ghost function CountIn(hist: seq<Release>, lo: real, hi: real): nat {
    if hist == [] then 0 else
      CountIn(hist[..|hist| - 1], lo, hi) + if lo <= hist[|hist| - 1].at <= hi then 1 else 0
  }

  lemma {:induction false} CountWithinRecent(p: Policy, hist: seq<Release>, lo: real, hi: real, now: real)
    requires now - p.window <= lo
    ensures CountIn(hist, lo, hi) <= |Recent(p, hist, now)|
  {
    if hist != [] {
      CountWithinRecent(p, hist[..|hist| - 1], lo, hi, now);
    }
  }

  lemma {:induction false} GovernedRate(p: Policy, hist: seq<Release>, start: real)
    requires Governed(p, hist) && p.maxDecrypts.Some?
    ensures CountIn(hist, start, start + p.window) <= if p.maxDecrypts.value < 0 then 0 else p.maxDecrypts.value
  {
    if hist != [] {
      var init, last := hist[..|hist| - 1], hist[|hist| - 1];
      GovernedRate(p, init, start);
      if start <= last.at <= start + p.window {
        CountWithinRecent(p, init, start, start + p.window, last.at);
      }
    }
  }

  /** In every run, whatever the timestamps, no closed interval of one window length exceeds the limit. */
  lemma RateLimitHolds(p: Policy, rs: seq<Request>, s: Scope, start: real)
    requires p.maxDecrypts.Some? && p.maxDecrypts.value >= 0
    ensures CountIn(HistoryOf(Run(p, rs), s), start, start + p.window) <= p.maxDecrypts.value
  {
    RunIsGoverned(p, rs, s);
    GovernedRate(p, HistoryOf(Run(p, rs), s), start);
  }

  // ---------------------------------------------------------------------------
  // Pairs of releases
  // ---------------------------------------------------------------------------

  lemma {:induction false} GovernedPair(p: Policy, hist: seq<Release>, i: nat, j: nat)
    requires Governed(p, hist) && i < j < |hist| && hist[i].at >= hist[j].at - p.window
    ensures !Conflict(p, hist[j].subset, hist[i].subset)
  {
    var init := hist[..|hist| - 1];
    if j == |hist| - 1 {
      RecentMembers(p, init, hist[j].at);
      assert init[i] in init;
      var recent := Recent(p, init, hist[j].at);
      var k :| 0 <= k < |recent| && recent[k] == hist[i];
    } else {
      GovernedPair(p, init, i, j);
    }
  }

  lemma ConflictSymmetric(p: Policy, a: set<Id>, b: set<Id>)
    ensures Conflict(p, a, b) == Conflict(p, b, a)
  {
    assert SymmetricDifference(a, b) == SymmetricDifference(b, a);
    assert a * b == b * a;
  }

  lemma DistinctDiffer(a: set<Id>, b: set<Id>)
    ensures a == b <==> |SymmetricDifference(a, b)| == 0
  {
    assert forall x :: (x in a) != (x in b) <==> x in SymmetricDifference(a, b);
  }

  predicate WithinWindow(p: Policy, x: Release, y: Release) {
    x.at - y.at <= p.window && y.at - x.at <= p.window
  }

  /**
    In every run, two releases of one scope within a window of each other neither differ by too little nor overlap too
    much.
   */
  lemma PairwiseRestrictionsHold(p: Policy, rs: seq<Request>, s: Scope, i: nat, j: nat)
    requires var hist := HistoryOf(Run(p, rs), s);
             i < |hist| && j < |hist| && i != j && WithinWindow(p, hist[i], hist[j])
             && hist[i].subset != hist[j].subset && hist[i].subset != {} && hist[j].subset != {}
    ensures var a, b := HistoryOf(Run(p, rs), s)[i].subset, HistoryOf(Run(p, rs), s)[j].subset;
            && (p.minDifference > 0 ==> |SymmetricDifference(a, b)| >= p.minDifference)
            && (p.maxOverlap.Some? ==> Overlap(a, b) <= p.maxOverlap.value)
  {
    var hist := HistoryOf(Run(p, rs), s);
    var a, b := hist[i].subset, hist[j].subset;
    RunIsGoverned(p, rs, s);
    if i < j { GovernedPair(p, hist, i, j); } else { GovernedPair(p, hist, j, i); }
    ConflictSymmetric(p, a, b);
    assert !Conflict(p, a, b);
    DistinctDiffer(a, b);
  }

  lemma SelfRatio(x: real)
    requires x > 0.0
    ensures x / x == 1.0
  {
  }

  lemma SubsetIsSmaller(a: set<Id>, b: set<Id>)
    requires a <= b
    ensures a * b == a && |a| <= |b|
  {
    assert b == a + (b - a) && a !! (b - a);
  }

  lemma SubsetOverlapsFully(a: set<Id>, b: set<Id>)
    requires a <= b && a != {}
    ensures Overlap(a, b) == 1.0
  {
    hide Overlap;
    SubsetIsSmaller(a, b);
    OverlapIsRatio(a, b);
    SelfRatio(|a| as real);
  }

  /** With a ratio below one no recorded subset strictly contains another one of its window. */
  lemma NoStrictContainment(p: Policy, rs: seq<Request>, s: Scope, i: nat, j: nat)
    requires p.maxOverlap.Some? && p.maxOverlap.value < 1.0
    requires var hist := HistoryOf(Run(p, rs), s);
             i < |hist| && j < |hist| && WithinWindow(p, hist[i], hist[j]) && hist[i].subset != {}
    ensures !(HistoryOf(Run(p, rs), s)[i].subset < HistoryOf(Run(p, rs), s)[j].subset)
  {
    var hist := HistoryOf(Run(p, rs), s);
    if hist[i].subset < hist[j].subset {
      PairwiseRestrictionsHold(p, rs, s, i, j);
      SubsetOverlapsFully(hist[i].subset, hist[j].subset);
    }
  }

  /** The requests of one scope that were not denied when they were made, in order. */
  function Granted(p: Policy, rs: seq<Request>, s: Scope): seq<Request> {
    if rs == [] then [] else
      var init, r := rs[..|rs| - 1], rs[|rs| - 1];
      Granted(p, init, s)
      + if r.scope == s && Decide(p, HistoryOf(Run(p, init), s), r).action != Deny then [r] else []
  }

  /** A scope's history holds the time and the subset of exactly the requests that were not denied. */
  lemma {:induction false} HistoryIsWhatWasGranted(p: Policy, rs: seq<Request>, s: Scope)
    ensures var hist, granted := HistoryOf(Run(p, rs), s), Granted(p, rs, s);
            |hist| == |granted| && forall i | 0 <= i < |hist| :: hist[i] == Release(granted[i].at, granted[i].subset)
  {
    hide Decide;
    if rs != [] {
      HistoryIsWhatWasGranted(p, rs[..|rs| - 1], s);
    }
  }

  /** Requests of other scopes never influence a scope's history. */
  lemma {:induction false} ScopesAreIndependent(p: Policy, rs: seq<Request>, s: Scope)
    ensures HistoryOf(Run(p, rs), s) == HistoryOf(Run(p, OfScope(rs, s)), s)
  {
    if rs != [] {
      var init, r := rs[..|rs| - 1], rs[|rs| - 1];
      ScopesAreIndependent(p, init, s);
      var mine := OfScope(init, s);
      if r.scope == s {
        assert OfScope(rs, s) == mine + [r] && (mine + [r])[..|mine|] == mine;
      } else {
        assert OfScope(rs, s) == mine;
      }
    }
  }

  ghost function OfScope(rs: seq<Request>, s: Scope): seq<Request> {
    if rs == [] then [] else OfScope(rs[..|rs| - 1], s) + if rs[|rs| - 1].scope == s then [rs[|rs| - 1]] else []
  }

  // ---------------------------------------------------------------------------
  // The governor object
  // ---------------------------------------------------------------------------

  class QueryGovernor {
    const policy: Policy
    var history: History

    constructor (policy: Policy)
      ensures this.policy == policy && history == map[]
    {
      this.policy := policy;
      history := map[];
    }

    method RecentReleases(r: Request) returns (recent: seq<Release>)
      ensures recent == Recent(policy, HistoryOf(history, r.scope), r.at)
    {
      var start := r.at - policy.window;
      var hist := if r.scope in history then history[r.scope] else [];
      recent := [];
      var i := 0;
      while i < |hist|
        invariant 0 <= i <= |hist| && recent == Recent(policy, hist[..i], r.at)
      {
        if hist[i].at >= start {
          recent := recent + [hist[i]];
        }
        assert hist[..i + 1][..i] == hist[..i];
        i := i + 1;
      }
      assert hist[..|hist|] == hist;
    }

    /** Read-only decision; the scan over prior subsets stops at the first conflict. */
    method Evaluate(r: Request) returns (d: Decision)
      ensures d == Decide(policy, HistoryOf(history, r.scope), r)
    {
      hide Overlap, SymmetricDifference, Recent;
      var recent := RecentReleases(r);
      if r.kind.Individual? && policy.denyIndividual { return Decision(Deny, Some(PatternRisk), None); }
      if r.groupSize < policy.minGroupSize { return Decision(Deny, Some(PatternRisk), None); }
      if policy.maxDecrypts.Some? && |recent| >= policy.maxDecrypts.value {
        return Decision(Deny, Some(BudgetExceeded), None);
      }
      var cur := r.subset;
      var i := 0;
      while i < |recent|
        invariant 0 <= i <= |recent|
        invariant forall k | 0 <= k < i :: !Conflict(policy, cur, recent[k].subset)
      {
        var prev := recent[i].subset;
        if cur != {} && prev != {} {
          var difference := |SymmetricDifference(cur, prev)|;
          if policy.minDifference > 0 && 0 < difference < policy.minDifference {
            return Decision(Deny, Some(PatternRisk), None);
          }
          if policy.maxOverlap.Some? && cur != prev {
            var overlap := Overlap(cur, prev);
            if overlap > policy.maxOverlap.value { return Decision(Deny, Some(PatternRisk), None); }
          }
        }
        i := i + 1;
      }
      if policy.approvalBelow.Some? && r.groupSize < policy.approvalBelow.value {
        return Decision(RequireApproval, Some(ApprovalRequired), policy.roundDecimals);
      }
      if policy.roundDecimals.Some? { return Decision(Transform, None, policy.roundDecimals); }
      return Decision(Allow, None, None);
    }

    method Record(r: Request)
      modifies this`history
      ensures history == old(history)[r.scope := HistoryOf(old(history), r.scope) + [Release(r.at, r.subset)]]
    {
      var hist := if r.scope in history then history[r.scope] else [];
      history := history[r.scope := hist + [Release(r.at, r.subset)]];
    }

    method Govern(r: Request) returns (d: Decision)
      modifies this`history
      ensures d == Decide(policy, HistoryOf(old(history), r.scope), r)
      ensures history == GovernedRelease(policy, old(history), r)
    {
      d := Evaluate(r);
      if d.Allowed() { Record(r); }
    }
  }
}
