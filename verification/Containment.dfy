/**
  Containment engine: per-subject state machine, transition records and the shared capability epoch.
  Every operation is split where the engine takes and releases its locks, so that the pieces can be interleaved.
 */
module Containment {
  import opened Common
  import opened Ladder

  datatype EpochSet = EpochSet(agentRevocation: int, runtimeRevocation: int, policy: int, capability: int, risk: int)

  datatype Method = CooldownClean | FreshSession | AdminApproval | Reonboard

  function RecoveryAllowed(s: State): set<Method> {
    match s
    case Normal => {}
    case Suspicious => {CooldownClean, FreshSession, AdminApproval, Reonboard}
    case Restricted => {FreshSession, AdminApproval, Reonboard}
    case Quarantined => {AdminApproval, Reonboard}
    case Terminated => {Reonboard}
  }

  /** Why a transition was recorded. */
  datatype Cause =
    | Assessed(warranted: State)
    | Killed(requested: State)
    | Recovered(means: Method, approver: Option<Id>)

  datatype Transition = Transition(
    subject: Id, agent: Id, runtime: Option<Id>, oldState: State, newState: State, cause: Cause, epoch: int, at: int)

  datatype Subject = Subject(
    state: State, agent: Id, runtime: Option<Id>, lastAt: Option<int>, transitions: seq<Transition>)

  datatype Config = Config(thresholds: Thresholds, cooldown: int)

  datatype Engine = Engine(config: Config, subjects: map<Id, Subject>, epochs: EpochSet)

  datatype Action = Evaluate(features: Features) | Kill(target: State) | Recover(means: Method, approver: Option<Id>)

  datatype Op = Op(subject: Id, agent: Id, runtime: Option<Id>, now: int, action: Action)

  datatype Refusal = BadTarget | NotContained | MethodInsufficient | CooldownRunning | ApproverMissing

  // ---------------------------------------------------------------------------
  // The pieces of an operation
  // ---------------------------------------------------------------------------

  function StateOf(e: Engine, subject: Id): State {
    if subject in e.subjects then e.subjects[subject].state else Normal
  }

  function HistoryOf(e: Engine, subject: Id): seq<Transition> {
    if subject in e.subjects then e.subjects[subject].transitions else []
  }

  /** No subject's state or records differ. */
  ghost predicate SameHistory(a: Engine, b: Engine) {
    forall s :: StateOf(a, s) == StateOf(b, s) && HistoryOf(a, s) == HistoryOf(b, s)
  }

  predicate BadKill(op: Op) {
    op.action.Kill? && !op.action.target.Quarantined? && !op.action.target.Terminated?
  }

  /** Registers the subject or refreshes its identity; an empty agent id keeps the known one. */
  function Touch(e: Engine, op: Op): (r: Engine)
    ensures op.subject in r.subjects && r.config == e.config && r.epochs == e.epochs
  {
    var st := if op.subject !in e.subjects then Subject(Normal, op.agent, op.runtime, None, [])
              else var known := e.subjects[op.subject];
                   known.(agent := if op.agent.text != "" then op.agent else known.agent,
                          runtime := if op.runtime.Some? then op.runtime else known.runtime);
    e.(subjects := e.subjects[op.subject := st])
  }

  /** What an operation decides once it holds the subject's lock. */
  datatype Plan = Stay(refusal: Option<Refusal>) | Move(to: State, cause: Cause)

  function PlanFor(config: Config, st: Subject, op: Op): Plan {
    match op.action
    case Evaluate(features) =>
      var warranted := Warranted(config.thresholds, features);
      var target := MoreSevere(st.state, warranted);
      if Severity(target) <= Severity(st.state) then Stay(None) else Move(target, Assessed(warranted))
    case Kill(target) => Move(MoreSevere(st.state, target), Killed(target))
    case Recover(means, approver) =>
      if st.state.Normal? then Stay(Some(NotContained))
      else if means !in RecoveryAllowed(st.state) then Stay(Some(MethodInsufficient))
      else if means.CooldownClean? && st.lastAt.Some? && op.now - st.lastAt.value < config.cooldown
          then Stay(Some(CooldownRunning))
      else if (means.AdminApproval? || Severity(st.state) >= Severity(Quarantined)) && !means.Reonboard?
          && approver.None?
      then Stay(Some(ApproverMissing))
      else Move(Normal, Recovered(means, approver))
  }

  function Bump(e: Engine): Engine {
    e.(epochs := e.epochs.(capability := e.epochs.capability + 1))
  }

  /** Appends the record and sets the state, under an epoch drawn earlier. */
  function Write(e: Engine, op: Op, to: State, cause: Cause, epoch: int): Engine
    requires op.subject in e.subjects
  {
    var st := e.subjects[op.subject];
    var record := Transition(op.subject, st.agent, st.runtime, st.state, to, cause, epoch, op.now);
    e.(subjects :=
        e.subjects[op.subject := st.(state := to, lastAt := Some(op.now), transitions := st.transitions + [record])])
  }

  /** A whole operation as one atomic step. */
  function Apply(e: Engine, op: Op): Engine {
    if BadKill(op) then e else
    var b := Touch(e, op);
    match PlanFor(b.config, b.subjects[op.subject], op)
    case Stay(_) => b
    case Move(to, cause) => Write(Bump(b), op, to, cause, b.epochs.capability + 1)
  }

  function Outcome(e: Engine, op: Op): Option<Refusal> {
    if BadKill(op) then Some(BadTarget) else
    var b := Touch(e, op);
    match PlanFor(b.config, b.subjects[op.subject], op)
    case Stay(refusal) => refusal
    case Move(_, _) => None
  }

  // ---------------------------------------------------------------------------
  // What a subject's records say
  // ---------------------------------------------------------------------------

  /** A lawful step after the records `before`. */
  ghost predicate Lawful(config: Config, before: seq<Transition>, from: State, to: State, cause: Cause, at: int) {
    match cause
    case Assessed(w) => to == w && Severity(to) > Severity(from)
    case Killed(r) => (r.Quarantined? || r.Terminated?) && to == MoreSevere(from, r)
    case Recovered(means, approver) =>
      && to == Normal && from != Normal && means in RecoveryAllowed(from)
      && (means.CooldownClean? && before != [] ==> at - before[|before| - 1].at >= config.cooldown)
      && ((means.AdminApproval? || Severity(from) >= Severity(Quarantined)) && !means.Reonboard? ==> approver.Some?)
  }

  /** The records lead from Normal to `state` by lawful steps under strictly increasing epochs, none above `epoch`. */
  ghost predicate Trail(config: Config, ts: seq<Transition>, state: State, epoch: int) {
    if ts == [] then state == Normal
    else
      var init, last := ts[..|ts| - 1], ts[|ts| - 1];
      && last.newState == state && last.epoch <= epoch
      && Lawful(config, init, last.oldState, last.newState, last.cause, last.at)
      && Trail(config, init, last.oldState, last.epoch - 1)
  }

  ghost predicate SubjectOk(config: Config, st: Subject, epoch: int) {
    && Trail(config, st.transitions, st.state, epoch)
    && st.lastAt == (if st.transitions == [] then None else Some(st.transitions[|st.transitions| - 1].at))
  }

  lemma {:induction false} TrailWidens(config: Config, ts: seq<Transition>, state: State, lo: int, hi: int)
    requires Trail(config, ts, state, lo) && lo <= hi
    ensures Trail(config, ts, state, hi)
  {
  }

  lemma SubjectOkWidens(config: Config, st: Subject, lo: int, hi: int)
    requires SubjectOk(config, st, lo) && lo <= hi
    ensures SubjectOk(config, st, hi)
  {
    TrailWidens(config, st.transitions, st.state, lo, hi);
  }

  /** Epochs strictly increase along the records. */
  lemma {:induction false} EpochsIncrease(config: Config, ts: seq<Transition>, state: State, epoch: int, i: nat, j: nat)
    requires Trail(config, ts, state, epoch) && i < j < |ts|
    ensures ts[i].epoch < ts[j].epoch <= epoch
  {
    var init := ts[..|ts| - 1];
    if j < |ts| - 1 {
      EpochsIncrease(config, init, ts[|ts| - 1].oldState, ts[|ts| - 1].epoch - 1, i, j);
    } else if i < |init| - 1 {
      EpochsIncrease(config, init, ts[|ts| - 1].oldState, ts[|ts| - 1].epoch - 1, i, |init| - 1);
    }
  }

  /** Consecutive records join up, and a drop in severity is a recovery to Normal by a method its state allows. */
  lemma {:induction false} RecordsJoin(config: Config, ts: seq<Transition>, state: State, epoch: int, k: nat)
    requires Trail(config, ts, state, epoch) && k < |ts|
    ensures ts[k].oldState == if k == 0 then Normal else ts[k - 1].newState
    ensures Severity(ts[k].newState) < Severity(ts[k].oldState) ==>
              ts[k].newState == Normal && ts[k].cause.Recovered? && ts[k].cause.means in RecoveryAllowed(ts[k].oldState)
  {
    if k < |ts| - 1 {
      RecordsJoin(config, ts[..|ts| - 1], ts[|ts| - 1].oldState, ts[|ts| - 1].epoch - 1, k);
    } else if k > 0 {
      assert ts[..|ts| - 1][k - 1] == ts[k - 1];
    }
  }

  /** A planned move is lawful for the records so far. */
  lemma PlanIsLawful(config: Config, st: Subject, op: Op, epoch: int)
    requires SubjectOk(config, st, epoch) && !BadKill(op)
    ensures match PlanFor(config, st, op)
            case Stay(_) => true
            case Move(to, cause) => Lawful(config, st.transitions, st.state, to, cause, op.now)
  {
  }

  lemma WriteKeepsSubjectOk(config: Config, st: Subject, record: Transition, low: int, epoch: int)
    requires SubjectOk(config, st, low) && low < record.epoch <= epoch && record.oldState == st.state
    requires Lawful(config, st.transitions, st.state, record.newState, record.cause, record.at)
    ensures SubjectOk(config,
        st.(state := record.newState, lastAt := Some(record.at), transitions := st.transitions + [record]), epoch)
  {
    var ts := st.transitions + [record];
    assert ts[..|ts| - 1] == st.transitions;
    TrailWidens(config, st.transitions, st.state, low, record.epoch - 1);
  }

  // ---------------------------------------------------------------------------
  // Counting records
  // ---------------------------------------------------------------------------

  /** One pair per record of any subject. */
  ghost function RecordIds(subjects: map<Id, Subject>): set<(Id, int)> {
    set s, i | s in subjects && 0 <= i < |subjects[s].transitions| :: (s, i)
  }

  lemma RecordIdsGrow(subjects: map<Id, Subject>, s: Id, st: Subject, record: Transition)
    requires s in subjects && st.transitions == subjects[s].transitions + [record]
    ensures |RecordIds(subjects[s := st])| == |RecordIds(subjects)| + 1
  {
    var n := |subjects[s].transitions|;
    assert RecordIds(subjects[s := st]) == RecordIds(subjects) + {(s, n)};
    assert (s, n) !in RecordIds(subjects);
  }

  lemma RecordIdsSame(subjects: map<Id, Subject>, s: Id, st: Subject)
    requires st.transitions == if s in subjects then subjects[s].transitions else []
    ensures RecordIds(subjects[s := st]) == RecordIds(subjects)
  {
  }

  // ---------------------------------------------------------------------------
  // Atomic operations
  // ---------------------------------------------------------------------------

  ghost predicate Inv(e: Engine, initial: int) {
    && (forall s | s in e.subjects :: SubjectOk(e.config, e.subjects[s], e.epochs.capability))
    && e.epochs.capability == initial + |RecordIds(e.subjects)|
  }

  lemma TouchKeepsInv(e: Engine, op: Op, initial: int)
    requires Inv(e, initial)
    ensures Inv(Touch(e, op), initial)
  {
    RecordIdsSame(e.subjects, op.subject, Touch(e, op).subjects[op.subject]);
    hide Trail, RecordIds;
  }

  lemma MoveKeepsInv(e: Engine, op: Op, to: State, cause: Cause, initial: int)
    requires Inv(e, initial) && op.subject in e.subjects
    requires Lawful(e.config, e.subjects[op.subject].transitions, e.subjects[op.subject].state, to, cause, op.now)
    ensures Inv(Write(Bump(e), op, to, cause, e.epochs.capability + 1), initial)
  {
    hide SubjectOk, RecordIds, Lawful;
    var epoch := e.epochs.capability;
    var f := Write(Bump(e), op, to, cause, epoch + 1);
    var st := e.subjects[op.subject];
    var record := Transition(op.subject, st.agent, st.runtime, st.state, to, cause, epoch + 1, op.now);
    WriteKeepsSubjectOk(e.config, st, record, epoch, epoch + 1);
    RecordIdsGrow(e.subjects, op.subject, f.subjects[op.subject], record);
    forall s | s in f.subjects ensures SubjectOk(f.config, f.subjects[s], epoch + 1) {
      if s != op.subject {
        SubjectOkWidens(e.config, e.subjects[s], epoch, epoch + 1);
      }
    }
  }

  lemma PlannedMoveIsLawful(e: Engine, op: Op, initial: int)
    requires Inv(e, initial) && op.subject in e.subjects && !BadKill(op)
    ensures var st := e.subjects[op.subject];
            match PlanFor(e.config, st, op)
            case Stay(_) => true
            case Move(to, cause) => Lawful(e.config, st.transitions, st.state, to, cause, op.now)
  {
    hide RecordIds, Lawful, PlanFor, SubjectOk;
    PlanIsLawful(e.config, e.subjects[op.subject], op, e.epochs.capability);
  }

  lemma ApplyKeepsInv(e: Engine, op: Op, initial: int)
    requires Inv(e, initial)
    ensures Inv(Apply(e, op), initial)
  {
    hide Inv, Lawful, PlanFor, Write, Bump, Touch;
    if !BadKill(op) {
      var b := Touch(e, op);
      TouchKeepsInv(e, op, initial);
      PlannedMoveIsLawful(b, op, initial);
      match PlanFor(b.config, b.subjects[op.subject], op)
      case Stay(_) =>
      case Move(to, cause) => MoveKeepsInv(b, op, to, cause, initial);
    }
  }

  /** Every operation either leaves all states and records alone, or advances the epoch by one. */
  lemma EpochMarksEveryTransition(e: Engine, op: Op)
    ensures Apply(e, op).epochs == e.epochs || Apply(e, op).epochs == Bump(e).epochs
    ensures Apply(e, op).epochs == e.epochs ==>
              forall s :: StateOf(Apply(e, op), s) == StateOf(e, s) && HistoryOf(Apply(e, op), s) == HistoryOf(e, s)
  {
  }

  function Run(e: Engine, ops: seq<Op>): Engine {
    if ops == [] then e else Apply(Run(e, ops[..|ops| - 1]), ops[|ops| - 1])
  }

  /**
    A recovery is made exactly when the subject is contained, the method reaches its state, the cooldown has passed
    since the last record for a cooldown recovery, and an approval names its approver. It leads to Normal by one record.
   */
  lemma RecoveryMadeIff(e: Engine, op: Op, initial: int)
    requires Inv(e, initial) && op.action.Recover?
    ensures var s, ts, after := StateOf(e, op.subject), HistoryOf(e, op.subject), Apply(e, op);
            var reaches := match op.action.means
                           case CooldownClean => s == Suspicious
                           case FreshSession => s in {Suspicious, Restricted}
                           case AdminApproval => s in {Suspicious, Restricted, Quarantined}
                           case Reonboard => s in {Suspicious, Restricted, Quarantined, Terminated};
            var made :=
              && reaches
              && (op.action.means == CooldownClean && ts != [] ==> op.now - ts[|ts| - 1].at >= e.config.cooldown)
              && (op.action.means == AdminApproval ==> op.action.approver.Some?);
            && (Outcome(e, op).None? <==> made)
            && StateOf(after, op.subject) == (if made then Normal else s)
            && |HistoryOf(after, op.subject)| == |ts| + (if made then 1 else 0)
            && (!made ==> after.epochs == e.epochs)
  {
    hide RecordIds, Trail, Lawful;
    if op.subject in e.subjects { assert SubjectOk(e.config, e.subjects[op.subject], e.epochs.capability); }
  }

  /** A kill is made exactly for the two blocking targets; the milder one never lifts the harsher state. */
  lemma KillMadeIff(e: Engine, op: Op)
    requires op.action.Kill?
    ensures var s, target, after := StateOf(e, op.subject), op.action.target, Apply(e, op);
            && (Outcome(e, op).None? <==> target in {Quarantined, Terminated})
            && (Outcome(e, op).Some? ==> after == e)
            && (Outcome(e, op).None? ==>
                  && StateOf(after, op.subject) == (if Terminated in {s, target} then Terminated else Quarantined)
                  && |HistoryOf(after, op.subject)| == |HistoryOf(e, op.subject)| + 1)
  {
  }

  /** What a new record says: who, from where to where, under which epoch and when; other subjects keep theirs. */
  lemma AppendedRecord(e: Engine, op: Op)
    requires HistoryOf(Apply(e, op), op.subject) != HistoryOf(e, op.subject)
    ensures var was, ts, after := HistoryOf(e, op.subject), HistoryOf(Apply(e, op), op.subject), Apply(e, op);
            && |ts| == |was| + 1 && ts[..|was|] == was
            && var record := ts[|was|];
            && record.subject == op.subject && record.at == op.now && record.epoch == e.epochs.capability + 1
            && record.oldState == StateOf(e, op.subject) && record.newState == StateOf(after, op.subject)
            && after.epochs == e.epochs.(capability := record.epoch)
            && record.agent == (if op.agent.text == "" && op.subject in e.subjects then e.subjects[op.subject].agent
                                else op.agent)
            && record.runtime == (if op.runtime.None? && op.subject in e.subjects then e.subjects[op.subject].runtime
                                  else op.runtime)
    ensures forall s | s != op.subject ::
              HistoryOf(Apply(e, op), s) == HistoryOf(e, s) && StateOf(Apply(e, op), s) == StateOf(e, s)
  {
    hide PlanFor;
  }

  lemma {:induction false} RunKeepsInv(e: Engine, ops: seq<Op>, initial: int)
    requires Inv(e, initial)
    ensures Inv(Run(e, ops), initial)
  {
    if ops != [] {
      RunKeepsInv(e, ops[..|ops| - 1], initial);
      ApplyKeepsInv(Run(e, ops[..|ops| - 1]), ops[|ops| - 1], initial);
    }
  }

  function AssessmentsOf(config: Config, ops: seq<Op>, subject: Id): seq<State> {
    if ops == [] then [] else
      var op := ops[|ops| - 1];
      AssessmentsOf(config, ops[..|ops| - 1], subject) +
        if op.subject == subject && op.action.Evaluate? then [Warranted(config.thresholds, op.action.features)] else []
  }

  lemma AssessmentRaises(e: Engine, op: Op, subject: Id)
    requires op.action.Evaluate?
    ensures Apply(e, op).config == e.config
    ensures StateOf(Apply(e, op), subject) ==
            if op.subject == subject
                then MoreSevere(StateOf(e, subject), Warranted(e.config.thresholds, op.action.features))
            else StateOf(e, subject)
  {
  }

  /** Without kills and recoveries, a subject's state is the most severe of its start and all its assessments. */
  lemma {:induction false} AssessmentsEscalate(e: Engine, ops: seq<Op>, subject: Id)
    requires forall i | 0 <= i < |ops| :: ops[i].action.Evaluate?
    ensures Run(e, ops).config == e.config
    ensures StateOf(Run(e, ops), subject) == Escalate(StateOf(e, subject), AssessmentsOf(e.config, ops, subject))
  {
    if ops != [] {
      var init, op := ops[..|ops| - 1], ops[|ops| - 1];
      AssessmentsEscalate(e, init, subject);
      var was := AssessmentsOf(e.config, init, subject);
      assert op.action.Evaluate?;
      AssessmentRaises(Run(e, init), op, subject);
      hide Apply, StateOf, Warranted;
      if op.subject == subject {
        var w := Warranted(e.config.thresholds, op.action.features);
        assert (was + [w])[..|was|] == was;
      } else {
        assert AssessmentsOf(e.config, ops, subject) == was;
      }
    }
  }

  /** Under such a run the effective capabilities only shrink, for every profile whose decay is monotone. */
  lemma CapabilitiesDecay(e: Engine, ops: seq<Op>, subject: Id, profile: Profile, delegated: set<Id>,
                          enterprise: set<Id>, runtime: set<Id>)
    requires forall i | 0 <= i < |ops| :: ops[i].action.Evaluate?
    requires forall c | c in profile :: !(profile[c].diagnostic && Consequential(profile[c]))
    ensures EffectiveCapabilities(delegated, enterprise, runtime, StateOf(Run(e, ops), subject), profile)
         <= EffectiveCapabilities(delegated, enterprise, runtime, StateOf(e, subject), profile)
  {
    AssessmentsEscalate(e, ops, subject);
    EscalateIsMaximum(StateOf(e, subject), AssessmentsOf(e.config, ops, subject));
    DecayOnlyIff(profile);
    hide Run, StateOf, AssessmentsOf, Escalate, EffectiveCapabilities;
  }

  // ---------------------------------------------------------------------------
  // The engine object
  // ---------------------------------------------------------------------------

  /** Shared by the engine and the token validator. */
  class EpochSource {
    var epochs: EpochSet

    constructor (epochs: EpochSet)
      ensures this.epochs == epochs
    {
      this.epochs := epochs;
    }
  }

  class ContainmentEngine {
    const config: Config
    const source: EpochSource
    var subjects: map<Id, Subject>

    ghost function Value(): Engine
      reads this, source
    {
      Engine(config, subjects, source.epochs)
    }

    constructor (config: Config, source: EpochSource)
      ensures this.config == config && this.source == source && subjects == map[]
    {
      this.config, this.source := config, source;
      subjects := map[];
    }

    method Register(op: Op)
      modifies this
      ensures Value() == Touch(old(Value()), op)
    {
      if op.subject !in subjects {
        subjects := subjects[op.subject := Subject(Normal, op.agent, op.runtime, None, [])];
      } else {
        var st := subjects[op.subject];
        if op.agent.text != "" { st := st.(agent := op.agent); }
        if op.runtime.Some? { st := st.(runtime := op.runtime); }
        subjects := subjects[op.subject := st];
      }
    }

    method BumpCapabilityEpoch() returns (epoch: int)
      modifies source
      ensures Value() == Bump(old(Value())) && epoch == source.epochs.capability
    {
      var cur := source.epochs;
      source.epochs := cur.(capability := cur.capability + 1);
      epoch := source.epochs.capability;
    }

    method CommitTransition(op: Op, to: State, cause: Cause) returns (record: Transition)
      requires op.subject in subjects
      modifies this, source
      ensures Value() == Write(Bump(old(Value())), op, to, cause, old(Value()).epochs.capability + 1)
      ensures HistoryOf(Value(), op.subject) == HistoryOf(old(Value()), op.subject) + [record]
      ensures record.newState == to && record.cause == cause && record.epoch == source.epochs.capability
    {
      var st := subjects[op.subject];
      var epoch := BumpCapabilityEpoch();
      record := Transition(op.subject, st.agent, st.runtime, st.state, to, cause, epoch, op.now);
      subjects := subjects[op.subject :=
          st.(state := to, lastAt := Some(op.now), transitions := st.transitions + [record])];
    }

    method EvaluateFeatures(subject: Id, agent: Id, runtime: Option<Id>, features: Features, now: int)
      returns (record: Option<Transition>)
      modifies this, source
      ensures Value() == Apply(old(Value()), Op(subject, agent, runtime, now, Evaluate(features)))
      ensures var was := HistoryOf(old(Value()), subject);
              HistoryOf(Value(), subject) == if record.Some? then was + [record.value] else was
    {
      var op := Op(subject, agent, runtime, now, Evaluate(features));
      Register(op);
      var warranted := Assess(config.thresholds, features);
      var st := subjects[subject];
      var target := MoreSevere(st.state, warranted);
      if Severity(target) <= Severity(st.state) { return None; }
      var t := CommitTransition(op, target, Assessed(warranted));
      return Some(t);
    }

    method KillSwitch(subject: Id, agent: Id, runtime: Option<Id>, target: State, now: int)
      returns (r: Result<Transition, Refusal>)
      modifies this, source
      ensures Value() == Apply(old(Value()), Op(subject, agent, runtime, now, Kill(target)))
      ensures r.Err? <==> BadKill(Op(subject, agent, runtime, now, Kill(target)))
      ensures r.Ok? ==> HistoryOf(Value(), subject) == HistoryOf(old(Value()), subject) + [r.value]
      ensures r.Ok? ==> Blocks(StateOf(Value(), subject)) && r.value.newState == StateOf(Value(), subject)
    {
      if !target.Quarantined? && !target.Terminated? { return Err(BadTarget); }
      var op := Op(subject, agent, runtime, now, Kill(target));
      Register(op);
      var st := subjects[subject];
      var t := CommitTransition(op, MoreSevere(st.state, target), Killed(target));
      return Ok(t);
    }

    method RecoverSubject(subject: Id, agent: Id, runtime: Option<Id>, means: Method, approver: Option<Id>, now: int)
      returns (r: Result<Transition, Refusal>)
      modifies this, source
      ensures Value() == Apply(old(Value()), Op(subject, agent, runtime, now, Recover(means, approver)))
      ensures match Outcome(old(Value()), Op(subject, agent, runtime, now, Recover(means, approver)))
              case Some(refusal) => r == Err(refusal) && HistoryOf(Value(), subject) == HistoryOf(old(Value()), subject)
              case None =>
                && r.Ok? && StateOf(Value(), subject) == Normal
                && HistoryOf(Value(), subject) == HistoryOf(old(Value()), subject) + [r.value]
    {
      var op := Op(subject, agent, runtime, now, Recover(means, approver));
      Register(op);
      var current := subjects[subject].state;
      if current.Normal? { return Err(NotContained); }
      if means !in RecoveryAllowed(current) { return Err(MethodInsufficient); }
      if means.CooldownClean? {
        var last := subjects[subject].lastAt;
        if last.Some? && now - last.value < config.cooldown { return Err(CooldownRunning); }
      }
      if (means.AdminApproval? || Severity(current) >= Severity(Quarantined)) && !means.Reonboard? && approver.None? {
        return Err(ApproverMissing);
      }
      var t := CommitTransition(op, Normal, Recovered(means, approver));
      return Ok(t);
    }
  }
}
