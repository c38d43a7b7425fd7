/**
  The containment engine under any number of threads, interleaved at the granularity of its locks: entering the
  registry, taking the subject's lock, deciding, drawing an epoch under the epoch lock, and writing the record.
 */
module ContainmentInterleaving {
  import opened Common
  import opened Ladder
  import opened Containment

  /** Where a thread is inside an operation; a thread with no entry is outside. */
  datatype Pc =
    | Entered(op: Op)
    | Locked(op: Op)
    | Decided(op: Op, to: State, cause: Cause)
    | Drawn(op: Op, to: State, cause: Cause, epoch: int)

  datatype Machine = Machine(engine: Engine, locks: map<Id, nat>, pcs: map<nat, Pc>)

  datatype Step = Enter(t: nat, op: Op) | Lock(t: nat) | Decide(t: nat) | Draw(t: nat) | Commit(t: nat)

  predicate Enabled(m: Machine, step: Step) {
    match step
    case Enter(t, op) => t !in m.pcs && !BadKill(op)
    case Lock(t) => t in m.pcs && m.pcs[t].Entered? && m.pcs[t].op.subject !in m.locks
    case Decide(t) => t in m.pcs && m.pcs[t].Locked? && m.pcs[t].op.subject in m.engine.subjects
    case Draw(t) => t in m.pcs && m.pcs[t].Decided?
    case Commit(t) => t in m.pcs && m.pcs[t].Drawn? && m.pcs[t].op.subject in m.engine.subjects
  }

  function Leave(m: Machine, t: nat): Machine
    requires t in m.pcs
  {
    m.(locks := m.locks - {m.pcs[t].op.subject}, pcs := m.pcs - {t})
  }

  function Next(m: Machine, step: Step): Machine
    requires Enabled(m, step)
  {
    var e := m.engine;
    match step
    case Enter(t, op) => m.(engine := Touch(e, op), pcs := m.pcs[t := Entered(op)])
    case Lock(t) =>
      var op := m.pcs[t].op;
      m.(locks := m.locks[op.subject := t], pcs := m.pcs[t := Locked(op)])
    case Decide(t) =>
      var op := m.pcs[t].op;
      (match PlanFor(e.config, e.subjects[op.subject], op)
       case Stay(_) => Leave(m, t)
       case Move(to, cause) => m.(pcs := m.pcs[t := Decided(op, to, cause)]))
    case Draw(t) =>
      var pc := m.pcs[t];
      m.(engine := Bump(e), pcs := m.pcs[t := Drawn(pc.op, pc.to, pc.cause, e.epochs.capability + 1)])
    case Commit(t) =>
      var pc := m.pcs[t];
      Leave(m, t).(engine := Write(e, pc.op, pc.to, pc.cause, pc.epoch))
  }

  // ---------------------------------------------------------------------------
  // Joint invariant of engine, locks and threads
  // ---------------------------------------------------------------------------

  ghost function InFlight(pcs: map<nat, Pc>): set<nat> {
    set t | t in pcs && pcs[t].Drawn?
  }

  /** What holds of a thread at its position. */
  ghost predicate ThreadOk(m: Machine, t: nat) {
    t in m.pcs ==>
      var pc := m.pcs[t];
      var s := pc.op.subject;
      && s in m.engine.subjects && !BadKill(pc.op)
      && (!pc.Entered? ==> s in m.locks && m.locks[s] == t)
      && var st := m.engine.subjects[s];
      && (pc.Decided? || pc.Drawn? ==> Lawful(m.engine.config, st.transitions, st.state, pc.to, pc.cause, pc.op.now))
      && (pc.Drawn? ==> pc.epoch <= m.engine.epochs.capability && SubjectOk(m.engine.config, st, pc.epoch - 1))
  }

  ghost predicate SubjectsOk(e: Engine) {
    forall s | s in e.subjects :: SubjectOk(e.config, e.subjects[s], e.epochs.capability)
  }

  ghost predicate Inv(m: Machine, initial: int) {
    && SubjectsOk(m.engine)
    && (forall t {:trigger ThreadOk(m, t)} :: ThreadOk(m, t))
    && m.engine.epochs.capability == initial + |RecordIds(m.engine.subjects)| + |InFlight(m.pcs)|
  }

  /** Same state and records, whatever the recorded identity. */
  predicate SameRecords(a: Subject, b: Subject) {
    a.state == b.state && a.lastAt == b.lastAt && a.transitions == b.transitions
  }

  lemma SameRecordsOk(config: Config, a: Subject, b: Subject, epoch: int)
    requires SameRecords(a, b) && SubjectOk(config, a, epoch)
    ensures SubjectOk(config, b, epoch)
  {
  }

  lemma FreshSubjectOk(config: Config, op: Op, epoch: int)
    ensures SubjectOk(config, Subject(Normal, op.agent, op.runtime, None, []), epoch)
  {
  }

  /** Registering a subject again changes no record. */
  lemma TouchKeepsRecords(e: Engine, op: Op, s: Id)
    requires s in e.subjects
    ensures s in Touch(e, op).subjects && SameRecords(e.subjects[s], Touch(e, op).subjects[s])
  {
  }

  lemma EnterKeepsSubjects(e: Engine, op: Op)
    requires SubjectsOk(e)
    ensures SubjectsOk(Touch(e, op)) && RecordIds(Touch(e, op).subjects) == RecordIds(e.subjects)
  {
    var f := Touch(e, op);
    RecordIdsSame(e.subjects, op.subject, f.subjects[op.subject]);
    hide SubjectOk, RecordIds;
    FreshSubjectOk(e.config, op, e.epochs.capability);
    forall s | s in f.subjects ensures SubjectOk(f.config, f.subjects[s], f.epochs.capability) {
      if s in e.subjects { SameRecordsOk(e.config, e.subjects[s], f.subjects[s], e.epochs.capability); }
    }
  }

  lemma EnterKeepsThread(m: Machine, t: nat, op: Op, u: nat)
    requires Enabled(m, Enter(t, op)) && ThreadOk(m, u)
    ensures ThreadOk(Next(m, Enter(t, op)), u)
  {
    hide SubjectOk, Lawful;
    if u in m.pcs {
      var s := m.pcs[u].op.subject;
      TouchKeepsRecords(m.engine, op, s);
      if m.pcs[u].Drawn? {
        SameRecordsOk(m.engine.config, m.engine.subjects[s], Touch(m.engine, op).subjects[s], m.pcs[u].epoch - 1);
      }
    }
  }

  lemma EnterKeepsInv(m: Machine, t: nat, op: Op, initial: int)
    requires Inv(m, initial) && Enabled(m, Enter(t, op))
    ensures Inv(Next(m, Enter(t, op)), initial)
  {
    var n := Next(m, Enter(t, op));
    assert InFlight(n.pcs) == InFlight(m.pcs);
    EnterKeepsSubjects(m.engine, op);
    forall u ensures ThreadOk(n, u) {
      assert ThreadOk(m, u);
      EnterKeepsThread(m, t, op, u);
    }
    hide SubjectsOk, ThreadOk, RecordIds, InFlight;
  }

  lemma LockKeepsInv(m: Machine, t: nat, initial: int)
    requires Inv(m, initial) && Enabled(m, Lock(t))
    ensures Inv(Next(m, Lock(t)), initial)
  {
    var n := Next(m, Lock(t));
    assert InFlight(n.pcs) == InFlight(m.pcs);
    hide SubjectOk, Lawful, RecordIds, InFlight;
    forall u ensures ThreadOk(n, u) {
      assert ThreadOk(m, u);
    }
  }

  lemma DecideKeepsInv(m: Machine, t: nat, initial: int)
    requires Inv(m, initial) && Enabled(m, Decide(t))
    ensures Inv(Next(m, Decide(t)), initial)
  {
    var n := Next(m, Decide(t));
    var op := m.pcs[t].op;
    assert ThreadOk(m, t);
    PlanIsLawful(m.engine.config, m.engine.subjects[op.subject], op, m.engine.epochs.capability);
    assert InFlight(n.pcs) == InFlight(m.pcs);
    hide SubjectOk, Lawful, RecordIds, InFlight, PlanFor;
    forall u ensures ThreadOk(n, u) {
      assert ThreadOk(m, u);
    }
  }

  lemma DrawKeepsInv(m: Machine, t: nat, initial: int)
    requires Inv(m, initial) && Enabled(m, Draw(t))
    ensures Inv(Next(m, Draw(t)), initial)
  {
    var n := Next(m, Draw(t));
    var e, epoch := m.engine, m.engine.epochs.capability;
    assert ThreadOk(m, t);
    assert InFlight(n.pcs) == InFlight(m.pcs) + {t} && t !in InFlight(m.pcs);
    hide SubjectOk, Lawful, RecordIds, InFlight;
    forall s | s in e.subjects ensures SubjectOk(e.config, e.subjects[s], epoch + 1) {
      SubjectOkWidens(e.config, e.subjects[s], epoch, epoch + 1);
    }
    forall u ensures ThreadOk(n, u) {
      assert ThreadOk(m, u);
    }
  }

  /** The other threads do not work on the subject whose lock the writer holds. */
  lemma CommitKeepsThreads(m: Machine, t: nat, initial: int, u: nat)
    requires Inv(m, initial) && Enabled(m, Commit(t))
    ensures ThreadOk(Next(m, Commit(t)), u)
  {
    hide SubjectOk, Lawful, RecordIds, InFlight, SubjectsOk;
    assert ThreadOk(m, t) && ThreadOk(m, u);
  }

  lemma CommitKeepsSubjects(m: Machine, t: nat, initial: int)
    requires Inv(m, initial) && Enabled(m, Commit(t))
    ensures SubjectsOk(Next(m, Commit(t)).engine)
    ensures |RecordIds(Next(m, Commit(t)).engine.subjects)| == |RecordIds(m.engine.subjects)| + 1
  {
    var e, f, pc := m.engine, Next(m, Commit(t)).engine, m.pcs[t];
    var s := pc.op.subject;
    var st := e.subjects[s];
    assert ThreadOk(m, t);
    var record := f.subjects[s].transitions[|st.transitions|];
    hide SubjectOk, Lawful, RecordIds, InFlight;
    WriteKeepsSubjectOk(e.config, st, record, pc.epoch - 1, e.epochs.capability);
    RecordIdsGrow(e.subjects, s, f.subjects[s], record);
  }

  lemma InFlightLeaves(pcs: map<nat, Pc>, t: nat)
    requires t in pcs && pcs[t].Drawn?
    ensures |InFlight(pcs)| == |InFlight(pcs - {t})| + 1
  {
    assert InFlight(pcs) == InFlight(pcs - {t}) + {t};
  }

  lemma CommitKeepsInv(m: Machine, t: nat, initial: int)
    requires Inv(m, initial) && Enabled(m, Commit(t))
    ensures Inv(Next(m, Commit(t)), initial)
  {
    hide SubjectOk, Lawful, RecordIds, InFlight, SubjectsOk, ThreadOk;
    var n := Next(m, Commit(t));
    InFlightLeaves(m.pcs, t);
    CommitKeepsSubjects(m, t, initial);
    forall u ensures ThreadOk(n, u) {
      CommitKeepsThreads(m, t, initial, u);
    }
  }

  lemma StepKeepsInv(m: Machine, step: Step, initial: int)
    requires Inv(m, initial) && Enabled(m, step)
    ensures Inv(Next(m, step), initial)
  {
    hide Inv, Next;
    match step
    case Enter(t, op) => EnterKeepsInv(m, t, op, initial);
    case Lock(t) => LockKeepsInv(m, t, initial);
    case Decide(t) => DecideKeepsInv(m, t, initial);
    case Draw(t) => DrawKeepsInv(m, t, initial);
    case Commit(t) => CommitKeepsInv(m, t, initial);
  }

  ghost predicate Runs(m: Machine, steps: seq<Step>, n: Machine)
    decreases |steps|
  {
    if steps == [] then m == n
    else Enabled(m, steps[0]) && Runs(Next(m, steps[0]), steps[1..], n)
  }

  lemma {:induction false} RunKeepsInv(m: Machine, steps: seq<Step>, n: Machine, initial: int)
    requires Inv(m, initial) && Runs(m, steps, n)
    ensures Inv(n, initial)
    decreases |steps|
  {
    hide Inv, Next;
    if steps != [] {
      StepKeepsInv(m, steps[0], initial);
      RunKeepsInv(Next(m, steps[0]), steps[1..], n, initial);
    }
  }

  function Start(config: Config, epochs: EpochSet): Machine {
    Machine(Engine(config, map[], epochs), map[], map[])
  }

  /**
    Under every interleaving, each subject's records lead lawfully from Normal to its state under strictly increasing
    epochs, and the capability epoch counts the records written plus the epochs drawn but not yet recorded.
   */
  lemma EpochAccounting(config: Config, epochs: EpochSet, steps: seq<Step>, m: Machine)
    requires Runs(Start(config, epochs), steps, m)
    ensures forall s | s in m.engine.subjects ::
              Trail(m.engine.config, m.engine.subjects[s].transitions, m.engine.subjects[s].state,
                  m.engine.epochs.capability)
    ensures m.engine.epochs.capability == epochs.capability + |RecordIds(m.engine.subjects)| + |InFlight(m.pcs)|
    ensures m.pcs == map[] ==> m.engine.epochs.capability == epochs.capability + |RecordIds(m.engine.subjects)|
  {
    assert RecordIds(Start(config, epochs).engine.subjects) == {} && InFlight(map[]) == {};
    assert Inv(Start(config, epochs), epochs.capability);
    RunKeepsInv(Start(config, epochs), steps, m, epochs.capability);
    hide Trail, RecordIds, Runs;
  }

  /** The subject's lock excludes: no two threads decide, draw or write for one subject at a time. */
  lemma MutualExclusion(m: Machine, initial: int, t: nat, u: nat)
    requires Inv(m, initial) && t in m.pcs && u in m.pcs && m.pcs[t].op.subject == m.pcs[u].op.subject
    requires !m.pcs[t].Entered? && !m.pcs[u].Entered?
    ensures t == u
  {
    assert ThreadOk(m, t) && ThreadOk(m, u);
  }

  /** Run alone, the pieces of an operation make up its atomic form. */
  lemma PiecesMakeTheOperation(e: Engine, t: nat, op: Op)
    requires !BadKill(op)
    ensures var quiet := Machine(e, map[], map[]);
            exists steps :: Runs(quiet, steps, Machine(Apply(e, op), map[], map[]))
  {
    var m0 := Machine(e, map[], map[]);
    var m1 := Next(m0, Enter(t, op));
    var m2 := Next(m1, Lock(t));
    var m3 := Next(m2, Decide(t));
    match PlanFor(m2.engine.config, m2.engine.subjects[op.subject], op)
    case Stay(_) =>
      assert m3 == Machine(Apply(e, op), map[], map[]);
      ThreeSteps(m0, Enter(t, op), Lock(t), Decide(t));
    case Move(_, _) =>
      var m4 := Next(m3, Draw(t));
      var m5 := Next(m4, Commit(t));
      assert m5 == Machine(Apply(e, op), map[], map[]);
      TwoMore(m0, Enter(t, op), Lock(t), Decide(t), Draw(t), Commit(t));
  }

  lemma ThreeSteps(m: Machine, a: Step, b: Step, c: Step)
    requires Enabled(m, a) && Enabled(Next(m, a), b) && Enabled(Next(Next(m, a), b), c)
    ensures Runs(m, [a, b, c], Next(Next(Next(m, a), b), c))
  {
    hide Next, Enabled;
    assert [a, b, c][1..] == [b, c] && [b, c][1..] == [c] && [c][1..] == [];
    assert Runs(Next(Next(m, a), b), [c], Next(Next(Next(m, a), b), c));
    assert Runs(Next(m, a), [b, c], Next(Next(Next(m, a), b), c));
  }

  lemma TwoMore(m: Machine, a: Step, b: Step, c: Step, d: Step, e: Step)
    requires Enabled(m, a) && Enabled(Next(m, a), b)
    requires var n := Next(Next(m, a), b);
             Enabled(n, c) && Enabled(Next(n, c), d) && Enabled(Next(Next(n, c), d), e)
    ensures var n := Next(Next(m, a), b);
            Runs(m, [a, b, c, d, e], Next(Next(Next(n, c), d), e))
  {
    hide Next, Enabled;
    var n := Next(Next(m, a), b);
    ThreeSteps(n, c, d, e);
    assert [a, b, c, d, e][1..] == [b, c, d, e] && [b, c, d, e][1..] == [c, d, e];
    assert Runs(Next(m, a), [b, c, d, e], Next(Next(Next(n, c), d), e));
  }
}
