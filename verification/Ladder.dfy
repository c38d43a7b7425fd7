/**
  The containment ladder, the capability ceiling of each state and the threshold policy that assesses features.
 */
module Ladder {
  import opened Common

  datatype State = Normal | Suspicious | Restricted | Quarantined | Terminated

  function Severity(s: State): nat {
    match s
    case Normal => 0
    case Suspicious => 1
    case Restricted => 2
    case Quarantined => 3
    case Terminated => 4
  }

  function MoreSevere(a: State, b: State): State {
    if Severity(a) >= Severity(b) then a else b
  }

  /** States that deny new consequential tokens. */
  predicate Blocks(s: State) {
    Severity(s) >= Severity(Quarantined)
  }

  /** The order of the ladder, and where it starts to block. */
  lemma LadderOrder(s: State)
    ensures Severity(Normal) < Severity(Suspicious) < Severity(Restricted)
    ensures Severity(Restricted) < Severity(Quarantined) < Severity(Terminated)
    ensures Blocks(s) <==> s in {Quarantined, Terminated}
  {
  }

  // ---------------------------------------------------------------------------
  // Escalation is a join
  // ---------------------------------------------------------------------------

  /** The state after a sequence of assessments: each can only raise it. */
  function Escalate(start: State, assessed: seq<State>): State {
    if assessed == [] then start else MoreSevere(Escalate(start, assessed[..|assessed| - 1]), assessed[|assessed| - 1])
  }

  /** The result is the start or one of the assessments, and none of them is more severe. */
  lemma {:induction false} EscalateIsMaximum(start: State, assessed: seq<State>)
    ensures var s := Escalate(start, assessed);
            && (s == start || s in assessed)
            && Severity(start) <= Severity(s)
            && forall a | a in assessed :: Severity(a) <= Severity(s)
  {
    if assessed != [] {
      EscalateIsMaximum(start, assessed[..|assessed| - 1]);
      assert assessed == assessed[..|assessed| - 1] + [assessed[|assessed| - 1]];
    }
  }

  lemma SeverityInjective(a: State, b: State)
    ensures Severity(a) == Severity(b) <==> a == b
  {
  }

  /** The order and the multiplicity of the assessments do not matter. */
  lemma EscalateIgnoresOrder(start: State, one: seq<State>, two: seq<State>)
    requires forall a :: a in one <==> a in two
    ensures Escalate(start, one) == Escalate(start, two)
  {
    EscalateIsMaximum(start, one);
    EscalateIsMaximum(start, two);
    SeverityInjective(Escalate(start, one), Escalate(start, two));
  }

  // ---------------------------------------------------------------------------
  // Capability decay
  // ---------------------------------------------------------------------------

  datatype Attributes = Attributes(
    optionalHighRisk: bool,
    writes: bool,
    externalNetwork: bool,
    secretAccess: bool,
    newSubagent: bool,
    diagnostic: bool)

  const PLAIN_READ := Attributes(false, false, false, false, false, false)

  /** Removed by the ceiling of the restricted state. */
  predicate Consequential(a: Attributes) {
    a.optionalHighRisk || a.writes || a.externalNetwork || a.secretAccess || a.newSubagent
  }

  predicate CeilingAllows(s: State, a: Attributes) {
    match s
    case Normal => true
    case Suspicious => !a.optionalHighRisk
    case Restricted => !Consequential(a)
    case Quarantined => a.diagnostic
    case Terminated => false
  }

  type Profile = map<Id, Attributes>

  function AttributesOf(profile: Profile, c: Id): Attributes {
    if c in profile then profile[c] else PLAIN_READ
  }

  function EffectiveCapabilities(delegated: set<Id>, enterprise: set<Id>, runtime: set<Id>, s: State,
                                 profile: Profile): set<Id> {
    set c | c in delegated * enterprise * runtime && CeilingAllows(s, AttributesOf(profile, c))
  }

  /** What each state leaves of the capabilities that delegation, enterprise policy and runtime agree on. */
  lemma CeilingsByState(delegated: set<Id>, enterprise: set<Id>, runtime: set<Id>, profile: Profile)
    ensures var base := set c | c in delegated && c in enterprise && c in runtime;
            var known := set c | c in base && c in profile;
            && EffectiveCapabilities(delegated, enterprise, runtime, Normal, profile) == base
            && EffectiveCapabilities(delegated, enterprise, runtime, Suspicious, profile)
               == base - set c | c in known && profile[c].optionalHighRisk
            && EffectiveCapabilities(delegated, enterprise, runtime, Restricted, profile)
               == base - set c | c in known && (profile[c].optionalHighRisk || profile[c].writes
                                                || profile[c].externalNetwork || profile[c].secretAccess
                                                || profile[c].newSubagent)
            && EffectiveCapabilities(delegated, enterprise, runtime, Quarantined, profile)
               == set c | c in known && profile[c].diagnostic
            && EffectiveCapabilities(delegated, enterprise, runtime, Terminated, profile) == {}
  {
  }

  /** Escalating never enlarges the effective capabilities, whatever they are based on. */
  ghost predicate DecayOnly(profile: Profile) {
    forall d, e, r, s, t | Severity(s) <= Severity(t) ::
      EffectiveCapabilities(d, e, r, t, profile) <= EffectiveCapabilities(d, e, r, s, profile)
  }

  lemma CeilingTightens(a: Attributes, s: State, t: State)
    requires Severity(s) <= Severity(t) && CeilingAllows(t, a) && !(a.diagnostic && Consequential(a))
    ensures CeilingAllows(s, a)
  {
  }

  /** Decay is monotone exactly for profiles in which no diagnostic capability is also consequential. */
  lemma DecayOnlyIff(profile: Profile)
    ensures DecayOnly(profile) <==> forall c | c in profile :: !(profile[c].diagnostic && Consequential(profile[c]))
  {
    if DecayOnly(profile) {
      forall c | c in profile ensures !(profile[c].diagnostic && Consequential(profile[c])) {
        assert EffectiveCapabilities({c}, {c}, {c}, Quarantined, profile)
            <= EffectiveCapabilities({c}, {c}, {c}, Restricted, profile);
        assert c in {c} * {c} * {c};
        if profile[c].diagnostic {
          assert c in EffectiveCapabilities({c}, {c}, {c}, Quarantined, profile);
        }
      }
    } else {
      var d, e, r, s, t :| Severity(s) <= Severity(t)
        && !(EffectiveCapabilities(d, e, r, t, profile) <= EffectiveCapabilities(d, e, r, s, profile));
      var c :| c in EffectiveCapabilities(d, e, r, t, profile) && c !in EffectiveCapabilities(d, e, r, s, profile);
      if !(AttributesOf(profile, c).diagnostic && Consequential(AttributesOf(profile, c))) {
        CeilingTightens(AttributesOf(profile, c), s, t);
      }
    }
  }

  /** The documented monotone decay fails for a diagnostic capability that also writes. */
  lemma DecayCanGrow(c: Id)
    ensures var profile := map[c := PLAIN_READ.(diagnostic := true, writes := true)];
            EffectiveCapabilities({c}, {c}, {c}, Restricted, profile) == {}
            && EffectiveCapabilities({c}, {c}, {c}, Quarantined, profile) == {c}
  {
    assert {c} * {c} * {c} == {c};
  }

  // ---------------------------------------------------------------------------
  // Threshold policy
  // ---------------------------------------------------------------------------

  /** A dynamically typed feature value. */
  datatype Feature = Count(n: int) | Flag(b: bool) | Fraction(x: real) | Other(truthy: bool)

  type Features = map<Id, Feature>

  /** Conversion to an integer truncates toward zero. */
  function Truncate(x: real): int {
    if x >= 0.0 then x.Floor else -((-x).Floor)
  }

  function Get(f: Features, key: Id): int {
    if key !in f then 0 else
    match f[key]
    case Count(n) => n
    case Flag(b) => if b then 1 else 0
    case Fraction(x) => Truncate(x)
    case Other(_) => 0
  }

  predicate Raised(f: Features, key: Id) {
    key in f &&
    match f[key]
    case Count(n) => n != 0
    case Flag(b) => b
    case Fraction(x) => x != 0.0
    case Other(t) => t
  }

  const DENIALS_60S := Id("denials_60s")
  const DENIALS_5M := Id("denials_5m")
  const BYPASS_5M := Id("bypass_attempts_5m")
  const SECRET_PROBES := Id("secret_probe_count")

  datatype Thresholds = Thresholds(
    suspiciousDenials: int, suspiciousBypass: int,
    restrictedDenials: int, restrictedBypass: int,
    quarantineBypass: int, quarantineProbes: int,
    signals: set<Id>)

  predicate WarrantsSuspicion(t: Thresholds, f: Features) {
    Get(f, DENIALS_60S) >= t.suspiciousDenials || Get(f, BYPASS_5M) >= t.suspiciousBypass
  }

  predicate WarrantsRestriction(t: Thresholds, f: Features) {
    Get(f, DENIALS_5M) >= t.restrictedDenials || Get(f, BYPASS_5M) >= t.restrictedBypass
  }

  predicate WarrantsQuarantine(t: Thresholds, f: Features) {
    || (exists s | s in t.signals :: Raised(f, s))
    || Get(f, BYPASS_5M) >= t.quarantineBypass
    || Get(f, SECRET_PROBES) >= t.quarantineProbes
  }

  /** The highest state any rule warrants. */
  function Warranted(t: Thresholds, f: Features): State {
    if WarrantsQuarantine(t, f) then Quarantined
    else if WarrantsRestriction(t, f) then Restricted
    else if WarrantsSuspicion(t, f) then Suspicious
    else Normal
  }

  /** The rules applied one after the other, each overwriting the last. */
  method Assess(t: Thresholds, f: Features) returns (warranted: State)
    ensures warranted == Warranted(t, f) && !warranted.Terminated?
  {
    warranted := Normal;
    if Get(f, DENIALS_60S) >= t.suspiciousDenials || Get(f, BYPASS_5M) >= t.suspiciousBypass {
      warranted := Suspicious;
    }
    if Get(f, DENIALS_5M) >= t.restrictedDenials || Get(f, BYPASS_5M) >= t.restrictedBypass {
      warranted := Restricted;
    }
    var signal := exists s | s in t.signals :: Raised(f, s);
    if signal || Get(f, BYPASS_5M) >= t.quarantineBypass || Get(f, SECRET_PROBES) >= t.quarantineProbes {
      warranted := Quarantined;
    }
  }

  /** Which named feature has to reach which threshold for each state. */
  lemma AssessedIff(t: Thresholds, f: Features)
    ensures var s := Warranted(t, f);
            var bypass := Get(f, Id("bypass_attempts_5m"));
            var quarantine :=
              || (exists k | k in t.signals :: Raised(f, k))
              || bypass >= t.quarantineBypass
              || Get(f, Id("secret_probe_count")) >= t.quarantineProbes;
            var restrict := Get(f, Id("denials_5m")) >= t.restrictedDenials || bypass >= t.restrictedBypass;
            var suspect := Get(f, Id("denials_60s")) >= t.suspiciousDenials || bypass >= t.suspiciousBypass;
            && (Severity(s) >= Severity(Quarantined) <==> quarantine)
            && (Severity(s) >= Severity(Restricted) <==> restrict || quarantine)
            && (Severity(s) >= Severity(Suspicious) <==> suspect || restrict || quarantine)
            && s != Terminated
  {
  }

  /** The short-term denial count decides about suspicion only, the long-term one about nothing above restriction. */
  lemma RulesAreSeparate(t: Thresholds, f: Features, g: Features)
    requires forall k :: Raised(f, k) == Raised(g, k)
    requires forall k | k != Id("denials_60s") && k != Id("denials_5m") :: Get(f, k) == Get(g, k)
    ensures Warranted(t, f) == Quarantined <==> Warranted(t, g) == Quarantined
    ensures Get(f, Id("denials_5m")) == Get(g, Id("denials_5m")) ==>
              (Severity(Warranted(t, f)) >= Severity(Restricted) <==> Severity(Warranted(t, g)) >= Severity(Restricted))
    ensures Get(f, Id("denials_60s")) == Get(g, Id("denials_60s")) && Warranted(t, f) == Normal ==>
              Warranted(t, g) in {Normal, Restricted}
  {
    assert Id("denials_60s") != Id("denials_5m") && Id("denials_60s").text[7] == '_';
    assert BYPASS_5M.text[0] == 'b' && SECRET_PROBES.text[0] == 's';
  }

  /** What a feature value counts for. */
  lemma FeatureCounts(f: Features, k: Id)
    ensures k !in f ==> Get(f, k) == 0 && !Raised(f, k)
    ensures k in f && f[k].Count? ==> Get(f, k) == f[k].n && (Raised(f, k) <==> f[k].n != 0)
    ensures k in f && f[k].Flag? ==> Get(f, k) == (if f[k].b then 1 else 0) && Raised(f, k) == f[k].b
    ensures k in f && f[k].Fraction? && f[k].x >= 0.0 ==> Get(f, k) as real <= f[k].x < Get(f, k) as real + 1.0
    ensures k in f && f[k].Fraction? && f[k].x < 0.0 ==> Get(f, k) as real - 1.0 < f[k].x <= Get(f, k) as real
    ensures k in f && f[k].Other? ==> Get(f, k) == 0 && Raised(f, k) == f[k].truthy
  {
  }

  /** Worse behaviour never earns a milder assessment, whatever the thresholds. */
  lemma AssessmentIsMonotone(t: Thresholds, f: Features, g: Features)
    requires forall k :: Get(f, k) <= Get(g, k)
    requires forall k :: Raised(f, k) ==> Raised(g, k)
    ensures Severity(Warranted(t, f)) <= Severity(Warranted(t, g))
  {
    if s :| s in t.signals && Raised(f, s) {
      assert Raised(g, s);
    }
  }
}
