/**
  The authority protocol with every operation taken apart where it takes and releases a lock: containment operations,
  the plane's two containment reads, its epoch read and its mint, and the broker's look-up, validation, use count and
  receipt. Steps of any number of threads interleave freely.
  A plane thread starts from any pending mint, so evaluations and approvals are both covered.
 */
module AuthorityInterleaving {
  import opened Common
  import opened Ladder
  import opened Containment
  import CI = ContainmentInterleaving
  import opened Tokens
  import opened ControlPlane

  type Machine = CI.Machine

  /** A plane thread between its first containment read and its mint, with the engine as it was at each read. */
  datatype PlaneThread =
    | Seen(pending: Pending, d: Id, state: State, seen: Machine)
    | Passed(pending: Pending, d: Id, state: State, seen: Machine, gate: Machine)
    | Stamped(pending: Pending, d: Id, state: State, seen: Machine, gate: Machine, stamp: Machine)

  /** A broker thread between its look-up and its receipt; from the validation on, with the engine as it was then. */
  datatype BrokerThread =
    | Fetched(o: Observation, signed: SignedToken)
    | Checked(o: Observation, signed: SignedToken, at: Machine)
    | Spent(o: Observation, signed: SignedToken, at: Machine)
    | Refused(o: Observation, code: Code)

  /** Where a token came from; for the plane's own, the engine at the two reads and at the epoch read. */
  datatype Provenance = Elsewhere | Plane(subject: Id, seen: Machine, gate: Machine, stamp: Machine)

  /** `finished` keeps, for every receipt, the thread that emitted it. */
  datatype World = World(
    m: Machine,
    gateway: Gateway,
    mints: map<SignedToken, Provenance>,
    plane: map<nat, PlaneThread>,
    broker: map<nat, BrokerThread>,
    finished: seq<BrokerThread>)

  datatype Step =
    | Contain(step: CI.Step)
    | ReadState(t: nat, pending: Pending, d: Id)
    | ReadGate(t: nat)
    | ReadEpochs(t: nat)
    | Seal(t: nat, drawn: Drawn, now: int)
    | Present(signed: SignedToken)
    | IssueElsewhere(order: Order)
    | Fetch(t: nat, o: Observation)
    | Check(t: nat)
    | Spend(t: nat)
    | Finish(t: nat, run: Effecting)

  /** Token ids and nonces are drawn fresh. */
  ghost predicate Unused(w: World, tokenId: Id, nonce: Id) {
    forall signed | signed in w.mints :: signed.token.decisionId != tokenId && signed.token.nonce != nonce
  }

  ghost predicate Enabled(w: World, step: Step) {
    match step
    case Contain(s) => CI.Enabled(w.m, s)
    case ReadState(t, _, _) => t !in w.plane
    case ReadGate(t) => t in w.plane && w.plane[t].Seen?
    case ReadEpochs(t) => t in w.plane && w.plane[t].Passed?
    case Seal(t, drawn, _) => t in w.plane && w.plane[t].Stamped? && Unused(w, drawn.tokenId, drawn.nonce)
    case Present(_) => true
    case IssueElsewhere(order) => Unused(w, order.decisionId, order.nonce)
    case Fetch(t, _) => t !in w.broker
    case Check(t) => t in w.broker && w.broker[t].Fetched?
    case Spend(t) => t in w.broker && w.broker[t].Checked?
    case Finish(t, _) => t in w.broker && (w.broker[t].Spent? || w.broker[t].Refused?)
  }

  function Minted(w: World, signed: SignedToken, from: Provenance): World {
    w.(gateway := w.gateway.(issued := w.gateway.issued + {signed}), mints := w.mints[signed := from])
  }

  function SealedOrder(cfg: PlaneConfig, k: PlaneThread, drawn: Drawn, now: int): Order
    requires k.Stamped?
  {
    OrderFor(cfg, k.stamp.engine.epochs, k.pending, k.state, k.d, drawn, now)
  }

  function SealedFrom(k: PlaneThread): Provenance
    requires k.Stamped?
  {
    Plane(SubjectKey(k.pending.binding), k.seen, k.gate, k.stamp)
  }

  /** What validation finds against the token. */
  function Fault(h: Hash, g: Gateway, epochs: EpochSet, o: Observation, signed: SignedToken): Option<Code> {
    if signed !in g.issued then Some(TokenInvalid) else Defect(signed.token, h(o.action), o, epochs)
  }

  /** The end of a mediation: the boundary re-check, the effect and the receipt. */
  function Receipted(h: Hash, g: Gateway, b: BrokerThread, run: Effecting): Gateway
    requires b.Spent? || b.Refused?
  {
    if b.Refused? then Emit(g, h, b.o, None, Denied, Some(b.code), None) else
    var d := DecisionOf(b.signed.token);
    if !ExactMatch(b.o.action, h(b.o.action), d) then g
    else if d.effect != Allow then Emit(g, h, b.o, Some(d.decisionId), Denied, Some(EnforcementDenied), None)
    else match run
    case Raises(code) => Emit(g, h, b.o, Some(d.decisionId), Failed, Some(code), None)
    case Succeeds(result) => Emit(g, h, b.o, Some(d.decisionId), Executed, None, result)
  }

  ghost function Next(h: Hash, cfg: PlaneConfig, w: World, step: Step): World
    requires Enabled(w, step)
  {
    match step
    case Contain(s) => w.(m := CI.Next(w.m, s))
    case ReadState(t, p, d) =>
      w.(plane := w.plane[t := Seen(p, d, StateOf(w.m.engine, SubjectKey(p.binding)), w.m)])
    case ReadGate(t) =>
      var k := w.plane[t];
      if Blocks(StateOf(w.m.engine, SubjectKey(k.pending.binding))) then w.(plane := w.plane - {t})
      else w.(plane := w.plane[t := Passed(k.pending, k.d, k.state, k.seen, w.m)])
    case ReadEpochs(t) =>
      var k := w.plane[t];
      w.(plane := w.plane[t := Stamped(k.pending, k.d, k.state, k.seen, k.gate, w.m)])
    case Seal(t, drawn, now) =>
      var k, left := w.plane[t], w.(plane := w.plane - {t});
      (match Issue(h, SealedOrder(cfg, k, drawn, now))
       case Err(_) => left
       case Ok(signed) => Minted(left, signed, SealedFrom(k)))
    case Present(signed) => w.(gateway := PresentTo(w.gateway, signed))
    case IssueElsewhere(order) =>
      (match Issue(h, order) case Err(_) => w case Ok(signed) => Minted(w, signed, Elsewhere))
    case Fetch(t, o) =>
      var key := (o.audience, h(o.action));
      w.(broker := w.broker[t := if key in w.gateway.presented then Fetched(o, w.gateway.presented[key])
                                 else Refused(o, TokenInvalid)])
    case Check(t) =>
      var b := w.broker[t];
      var fault := Fault(h, w.gateway, w.m.engine.epochs, b.o, b.signed);
      w.(broker := w.broker[t := if fault.Some? then Refused(b.o, fault.value) else Checked(b.o, b.signed, w.m)])
    case Spend(t) =>
      var b := w.broker[t];
      if UsesOf(w.gateway.uses, b.signed.token.nonce) >= b.signed.token.maxUses
      then w.(broker := w.broker[t := Refused(b.o, TokenReplay)])
      else w.(gateway := Consume(w.gateway, b.signed.token.nonce), broker := w.broker[t := Spent(b.o, b.signed, b.at)])
    case Finish(t, run) =>
      var b, g := w.broker[t], Receipted(h, w.gateway, w.broker[t], run);
      w.(gateway := g, broker := w.broker - {t},
         finished := if |g.receipts| > |w.gateway.receipts| then w.finished + [b] else w.finished)
  }

  ghost predicate Runs(h: Hash, cfg: PlaneConfig, w: World, steps: seq<Step>, last: World)
    decreases |steps|
  {
    if steps == [] then w == last
    else Enabled(w, steps[0]) && Runs(h, cfg, Next(h, cfg, w, steps[0]), steps[1..], last)
  }

  function Start(config: Config, epochs: EpochSet): World {
    World(CI.Start(config, epochs), Gateway({}, map[], map[], []), map[], map[], map[], [])
  }

  // ---------------------------------------------------------------------------
  // Epochs drawn but not yet written
  // ---------------------------------------------------------------------------

  /** The epochs whose transition is still to be written. */
  ghost function Open(m: Machine): set<int> {
    set t | t in m.pcs && m.pcs[t].Drawn? :: m.pcs[t].epoch
  }

  ghost predicate OpenApart(m: Machine) {
    forall t, u | t in m.pcs && u in m.pcs && m.pcs[t].Drawn? && m.pcs[u].Drawn? && m.pcs[t].epoch == m.pcs[u].epoch ::
        t == u
  }

  /** Every epoch beyond the initial one was drawn once: it is open, or one record was written under it. */
  ghost predicate MachineOk(m: Machine, initial: int) {
    && CI.Inv(m, initial)
    && OpenApart(m)
    && (forall x | x in Open(m) :: x <= m.engine.epochs.capability)
    && m.engine.epochs.capability == initial + |RecordIds(m.engine.subjects)| + |Open(m)|
  }

  ghost predicate HistoriesGrow(a: Engine, b: Engine) {
    forall s :: HistoryOf(a, s) <= HistoryOf(b, s)
  }

  ghost function Between(lo: int, hi: int): (r: set<int>)
    ensures forall x :: x in r <==> lo < x <= hi
    ensures |r| == if lo <= hi then hi - lo else 0
    decreases hi - lo
  {
    if hi <= lo then {} else Between(lo, hi - 1) + {hi}
  }

  /** The epochs drawn after `a`, up to `b`. */
  ghost function Since(a: Machine, b: Machine): set<int> {
    Between(a.engine.epochs.capability, b.engine.epochs.capability)
  }

  /** `b` is `a` or a later machine of the same run. */
  ghost predicate Follows(a: Machine, b: Machine, initial: int) {
    && MachineOk(a, initial) && MachineOk(b, initial)
    && b.engine.epochs == a.engine.epochs.(capability := b.engine.epochs.capability)
    && a.engine.epochs.capability <= b.engine.epochs.capability
    && HistoriesGrow(a.engine, b.engine)
    && Open(b) <= Open(a) + Since(a, b)
  }

  // ---------------------------------------------------------------------------
  // What one containment step does to epochs and records
  // ---------------------------------------------------------------------------

  /** Nothing is drawn and nothing is written. */
  ghost predicate Idle(m: Machine, n: Machine) {
    && n.engine.epochs == m.engine.epochs && Open(n) == Open(m) && OpenApart(n)
    && forall s :: HistoryOf(n.engine, s) == HistoryOf(m.engine, s)
  }

  /** One epoch is drawn. */
  ghost predicate Draws(m: Machine, n: Machine) {
    var x := m.engine.epochs.capability + 1;
    && n.engine.epochs == m.engine.epochs.(capability := x) && Open(n) == Open(m) + {x} && OpenApart(n)
    && forall s :: HistoryOf(n.engine, s) == HistoryOf(m.engine, s)
  }

  /** One open epoch is closed by a record of `s`. */
  ghost predicate Writes(m: Machine, n: Machine, s: Id, x: int) {
    && n.engine.epochs == m.engine.epochs && x in Open(m) && Open(n) == Open(m) - {x} && OpenApart(n)
    && HistoriesGrow(m.engine, n.engine)
    && |HistoryOf(n.engine, s)| == |HistoryOf(m.engine, s)| + 1
  }

  lemma DrawDraws(m: Machine, t: nat)
    requires OpenApart(m) && (forall x | x in Open(m) :: x <= m.engine.epochs.capability) && CI.Enabled(m, CI.Draw(t))
    ensures Draws(m, CI.Next(m, CI.Draw(t)))
  {
    var n := CI.Next(m, CI.Draw(t));
    var x := m.engine.epochs.capability + 1;
    forall u | u in m.pcs && m.pcs[u].Drawn? ensures m.pcs[u].epoch < x {
      assert m.pcs[u].epoch in Open(m);
    }
    assert n.pcs[t].epoch in Open(n);
    forall y ensures y in Open(n) <==> y in Open(m) || y == x {
      if y in Open(m) {
        var u :| u in m.pcs && m.pcs[u].Drawn? && m.pcs[u].epoch == y;
        assert u in n.pcs && n.pcs[u] == m.pcs[u];
      }
    }
  }

  lemma CommitWrites(m: Machine, t: nat)
    requires OpenApart(m) && CI.Enabled(m, CI.Commit(t))
    ensures Writes(m, CI.Next(m, CI.Commit(t)), m.pcs[t].op.subject, m.pcs[t].epoch)
  {
    var n, x := CI.Next(m, CI.Commit(t)), m.pcs[t].epoch;
    forall y ensures y in Open(n) <==> y in Open(m) && y != x {
      if y in Open(m) && y != x {
        var u :| u in m.pcs && m.pcs[u].Drawn? && m.pcs[u].epoch == y;
        assert u in n.pcs && n.pcs[u] == m.pcs[u];
      }
    }
  }

  lemma QuietStepIsIdle(m: Machine, step: CI.Step)
    requires OpenApart(m) && CI.Enabled(m, step) && !step.Draw? && !step.Commit?
    ensures Idle(m, CI.Next(m, step))
  {
    var n := CI.Next(m, step);
    forall y ensures y in Open(n) <==> y in Open(m) {
      if y in Open(m) {
        var u :| u in m.pcs && m.pcs[u].Drawn? && m.pcs[u].epoch == y;
        assert u in n.pcs && n.pcs[u] == m.pcs[u];
      }
      if y in Open(n) {
        var u :| u in n.pcs && n.pcs[u].Drawn? && n.pcs[u].epoch == y;
        assert u in m.pcs && n.pcs[u] == m.pcs[u];
      }
    }
  }

  lemma RecordIdsByHistory(a: Engine, b: Engine)
    requires HistoriesGrow(a, b)
    ensures RecordIds(a.subjects) <= RecordIds(b.subjects)
    ensures (forall s :: HistoryOf(a, s) == HistoryOf(b, s)) <==> RecordIds(a.subjects) == RecordIds(b.subjects)
  {
    forall s: Id, i: int ensures (s, i) in RecordIds(a.subjects) <==> 0 <= i < |HistoryOf(a, s)|
                         ensures (s, i) in RecordIds(b.subjects) <==> 0 <= i < |HistoryOf(b, s)| {
    }
    assert forall s :: HistoryOf(a, s) <= HistoryOf(b, s);
    if RecordIds(a.subjects) == RecordIds(b.subjects) {
      forall s ensures HistoryOf(a, s) == HistoryOf(b, s) {
        var n := |HistoryOf(a, s)|;
        assert (s, n) !in RecordIds(a.subjects);
      }
    }
    hide RecordIds, HistoryOf;
  }

  lemma IdleKeepsMachine(m: Machine, n: Machine, initial: int)
    requires MachineOk(m, initial) && CI.Inv(n, initial) && Idle(m, n)
    ensures MachineOk(n, initial)
  {
    hide CI.Inv, RecordIds, Open, OpenApart;
    RecordIdsByHistory(m.engine, n.engine);
  }

  lemma DrawKeepsMachine(m: Machine, n: Machine, initial: int)
    requires MachineOk(m, initial) && CI.Inv(n, initial) && Draws(m, n)
    ensures MachineOk(n, initial)
  {
    hide CI.Inv, RecordIds, Open, OpenApart;
    RecordIdsByHistory(m.engine, n.engine);
  }

  lemma WriteKeepsMachine(m: Machine, n: Machine, s: Id, x: int, initial: int)
    requires MachineOk(m, initial) && CI.Inv(n, initial) && Writes(m, n, s, x)
    requires |RecordIds(n.engine.subjects)| == |RecordIds(m.engine.subjects)| + 1
    ensures MachineOk(n, initial)
  {
    hide CI.Inv, RecordIds, Open, OpenApart, HistoryOf, HistoriesGrow;
  }

  lemma StepKeepsMachine(m: Machine, step: CI.Step, initial: int)
    requires MachineOk(m, initial) && CI.Enabled(m, step)
    ensures MachineOk(CI.Next(m, step), initial)
  {
    hide CI.Inv, CI.Next, RecordIds, Open, OpenApart, Idle, Draws, Writes;
    var n := CI.Next(m, step);
    CI.StepKeepsInv(m, step, initial);
    if step.Draw? {
      DrawDraws(m, step.t);
      DrawKeepsMachine(m, n, initial);
    } else if step.Commit? {
      CommitWrites(m, step.t);
      CI.CommitKeepsSubjects(m, step.t, initial);
      WriteKeepsMachine(m, n, m.pcs[step.t].op.subject, m.pcs[step.t].epoch, initial);
    } else {
      QuietStepIsIdle(m, step);
      IdleKeepsMachine(m, n, initial);
    }
  }

  lemma FollowsSelf(m: Machine, initial: int)
    requires MachineOk(m, initial)
    ensures Follows(m, m, initial)
  {
    hide MachineOk;
  }

  lemma IdleFollows(a: Machine, m: Machine, n: Machine, initial: int)
    requires Follows(a, m, initial) && MachineOk(n, initial) && Idle(m, n)
    ensures Follows(a, n, initial)
  {
    hide MachineOk, Open, OpenApart, HistoryOf;
  }

  lemma DrawFollows(a: Machine, m: Machine, n: Machine, initial: int)
    requires Follows(a, m, initial) && MachineOk(n, initial) && Draws(m, n)
    ensures Follows(a, n, initial)
  {
    hide MachineOk, Open, OpenApart, HistoryOf;
  }

  lemma WriteFollows(a: Machine, m: Machine, n: Machine, s: Id, x: int, initial: int)
    requires Follows(a, m, initial) && MachineOk(n, initial) && Writes(m, n, s, x)
    ensures Follows(a, n, initial)
  {
    hide MachineOk, Open, OpenApart;
    forall z ensures HistoryOf(a.engine, z) <= HistoryOf(n.engine, z) {
      assert HistoryOf(a.engine, z) <= HistoryOf(m.engine, z) <= HistoryOf(n.engine, z);
    }
    hide HistoryOf;
  }

  lemma FollowsStep(a: Machine, m: Machine, step: CI.Step, initial: int)
    requires Follows(a, m, initial) && CI.Enabled(m, step)
    ensures Follows(a, CI.Next(m, step), initial)
  {
    hide CI.Inv, CI.Next, RecordIds, Open, OpenApart, Idle, Draws, Writes, HistoriesGrow, Since;
    var n := CI.Next(m, step);
    StepKeepsMachine(m, step, initial);
    if step.Draw? {
      DrawDraws(m, step.t);
      DrawFollows(a, m, n, initial);
    } else if step.Commit? {
      CommitWrites(m, step.t);
      WriteFollows(a, m, n, m.pcs[step.t].op.subject, m.pcs[step.t].epoch, initial);
    } else {
      QuietStepIsIdle(m, step);
      IdleFollows(a, m, n, initial);
    }
  }

  lemma SubsetOfSameSize(a: set<int>, b: set<int>)
    requires a <= b
    ensures |a| <= |b| && (|a| == |b| <==> a == b)
  {
    assert b == a + (b - a);
  }

  lemma PairsOfSameSize(a: set<(Id, int)>, b: set<(Id, int)>)
    requires a <= b
    ensures |a| == |b| <==> a == b
  {
    assert b == a + (b - a);
  }

  /** A subject's state is the one its records lead to. */
  lemma HistoryGivesState(m: Machine, n: Machine, initial: int, s: Id)
    requires CI.Inv(m, initial) && CI.Inv(n, initial) && HistoryOf(m.engine, s) == HistoryOf(n.engine, s)
    ensures StateOf(m.engine, s) == StateOf(n.engine, s)
  {
  }

  /** Between two machines nothing was written iff every epoch open then or drawn since is still open. */
  lemma HistoryKeptIff(a: Machine, b: Machine, initial: int)
    requires Follows(a, b, initial)
    ensures SameHistory(a.engine, b.engine) <==> Open(b) == Open(a) + Since(a, b)
  {
    var due := Open(a) + Since(a, b);
    assert Open(a) * Since(a, b) == {};
    SubsetOfSameSize(Open(b), due);
    RecordIdsByHistory(a.engine, b.engine);
    PairsOfSameSize(RecordIds(a.engine.subjects), RecordIds(b.engine.subjects));
    if RecordIds(a.engine.subjects) == RecordIds(b.engine.subjects) {
      forall s ensures StateOf(a.engine, s) == StateOf(b.engine, s) {
        HistoryGivesState(a, b, initial, s);
      }
    }
    hide CI.Inv, RecordIds, Open, OpenApart, HistoryOf, StateOf, HistoriesGrow;
  }

  /** A machine between two machines with the same history has that history too. */
  lemma HistoryBetween(a: Machine, b: Machine, c: Machine, initial: int, s: Id)
    requires Follows(a, b, initial) && Follows(b, c, initial) && SameHistory(a.engine, c.engine)
    ensures StateOf(b.engine, s) == StateOf(a.engine, s)
  {
    assert HistoryOf(a.engine, s) <= HistoryOf(b.engine, s) <= HistoryOf(c.engine, s);
    HistoryGivesState(a, b, initial, s);
  }

  // ---------------------------------------------------------------------------
  // What one step does to the tokens
  // ---------------------------------------------------------------------------

  /** The token a step issues, with its provenance. */
  ghost function NewToken(h: Hash, cfg: PlaneConfig, w: World, step: Step): Option<(SignedToken, Provenance)>
    requires Enabled(w, step)
  {
    match step
    case Seal(t, drawn, now) =>
      (match Issue(h, SealedOrder(cfg, w.plane[t], drawn, now))
       case Err(_) => None
       case Ok(signed) => Some((signed, SealedFrom(w.plane[t]))))
    case IssueElsewhere(order) =>
      (match Issue(h, order) case Err(_) => None case Ok(signed) => Some((signed, Elsewhere)))
    case _ => None
  }

  /** No other part of the world changes the machine or the issued tokens. */
  lemma StepEffect(h: Hash, cfg: PlaneConfig, w: World, step: Step)
    requires Enabled(w, step)
    ensures var n, added := Next(h, cfg, w, step), NewToken(h, cfg, w, step);
            && n.m == (if step.Contain? then CI.Next(w.m, step.step) else w.m)
            && n.mints == (if added.Some? then w.mints[added.value.0 := added.value.1] else w.mints)
            && n.gateway.issued == (if added.Some? then w.gateway.issued + {added.value.0} else w.gateway.issued)
  {
    hide CI.Next, CI.Enabled, Fault, Unused, ExactMatch, StateOf, Blocks, SubjectKey;
  }

  lemma NewTokenFacts(h: Hash, cfg: PlaneConfig, w: World, step: Step)
    requires Enabled(w, step) && NewToken(h, cfg, w, step).Some?
    ensures var signed, from := NewToken(h, cfg, w, step).value.0, NewToken(h, cfg, w, step).value.1;
            && Unused(w, signed.token.decisionId, signed.token.nonce) && signed.token.maxUses >= 1
            && (from.Plane? ==>
                  && step.Seal? && signed.token.maxUses == 1
                  && var k := w.plane[step.t];
                  && from == SealedFrom(k) && signed.token.epochs == k.stamp.engine.epochs
                  && signed.token.binding == k.pending.binding && signed.token.containment == k.state)
  {
    hide Unused, SubjectKey, CI.Enabled;
  }

  // ---------------------------------------------------------------------------
  // Tokens and plane threads along a run
  // ---------------------------------------------------------------------------

  /** Between `seen` and `now`, the gate read at `gate` let the subject through. */
  ghost predicate Gated(seen: Machine, gate: Machine, now: Machine, subject: Id, initial: int) {
    && Follows(seen, gate, initial) && Follows(gate, now, initial)
    && !Blocks(StateOf(gate.engine, subject))
  }

  ghost predicate PlaneOk(w: World, t: nat, initial: int) {
    t in w.plane ==>
      var k := w.plane[t];
      var subject := SubjectKey(k.pending.binding);
      && Follows(k.seen, w.m, initial) && k.state == StateOf(k.seen.engine, subject)
      && (!k.Seen? ==> Gated(k.seen, k.gate, w.m, subject, initial))
      && (k.Stamped? ==> Follows(k.seen, k.stamp, initial) && Follows(k.stamp, w.m, initial))
  }

  ghost predicate TokenOk(w: World, signed: SignedToken, initial: int) {
    signed in w.mints && w.mints[signed].Plane? ==>
      var Plane(subject, seen, gate, stamp) := w.mints[signed];
      && Follows(seen, w.m, initial) && Follows(seen, stamp, initial) && Follows(stamp, w.m, initial)
      && Gated(seen, gate, w.m, subject, initial)
      && signed.token.epochs == stamp.engine.epochs
      && subject == SubjectKey(signed.token.binding)
      && signed.token.containment == StateOf(seen.engine, subject)
  }

  /** What a validated mediation has seen: the token's own epochs, after the token's reads. */
  ghost predicate CheckOk(w: World, b: BrokerThread, initial: int) {
    b.Checked? || b.Spent? ==>
      && b.signed in w.mints && Follows(b.at, w.m, initial) && b.signed.token.epochs == b.at.engine.epochs
      && (w.mints[b.signed].Plane? ==>
            var Plane(subject, seen, gate, stamp) := w.mints[b.signed];
            Follows(seen, b.at, initial) && Gated(seen, gate, b.at, subject, initial))
  }

  ghost predicate BrokerSeen(w: World, t: nat, initial: int) {
    t in w.broker ==> CheckOk(w, w.broker[t], initial)
  }

  ghost predicate FinishedSeen(w: World, k: nat, initial: int) {
    k < |w.finished| ==> CheckOk(w, w.finished[k], initial)
  }

  ghost predicate TokenInv(w: World, initial: int) {
    && MachineOk(w.m, initial)
    && w.gateway.issued == w.mints.Keys
    && (forall signed {:trigger TokenOk(w, signed, initial)} :: TokenOk(w, signed, initial))
    && (forall t {:trigger PlaneOk(w, t, initial)} :: PlaneOk(w, t, initial))
    && (forall t {:trigger BrokerSeen(w, t, initial)} :: BrokerSeen(w, t, initial))
    && (forall k {:trigger FinishedSeen(w, k, initial)} :: FinishedSeen(w, k, initial))
  }

  lemma StepFollows(h: Hash, cfg: PlaneConfig, w: World, step: Step, a: Machine, initial: int)
    requires Enabled(w, step) && Follows(a, w.m, initial)
    ensures Follows(a, Next(h, cfg, w, step).m, initial)
  {
    hide Next, NewToken, Follows, CI.Next, CI.Enabled;
    StepEffect(h, cfg, w, step);
    if step.Contain? { FollowsStep(a, w.m, step.step, initial); }
  }

  lemma StepKeepsGated(h: Hash, cfg: PlaneConfig, w: World, step: Step, seen: Machine, gate: Machine, subject: Id,
                       initial: int)
    requires Enabled(w, step) && Gated(seen, gate, w.m, subject, initial)
    ensures Gated(seen, gate, Next(h, cfg, w, step).m, subject, initial)
  {
    hide Next, Follows, StateOf, Blocks, Enabled;
    StepFollows(h, cfg, w, step, gate, initial);
  }

  lemma OldTokenStaysOk(h: Hash, cfg: PlaneConfig, w: World, step: Step, signed: SignedToken, initial: int)
    requires Enabled(w, step) && TokenOk(w, signed, initial) && signed in w.mints
    requires signed in Next(h, cfg, w, step).mints && Next(h, cfg, w, step).mints[signed] == w.mints[signed]
    ensures TokenOk(Next(h, cfg, w, step), signed, initial)
  {
    hide Next, Follows, Gated, SubjectKey, StateOf, Enabled;
    if w.mints[signed].Plane? {
      var Plane(subject, seen, gate, stamp) := w.mints[signed];
      StepFollows(h, cfg, w, step, seen, initial);
      StepFollows(h, cfg, w, step, stamp, initial);
      StepKeepsGated(h, cfg, w, step, seen, gate, subject, initial);
    }
  }

  lemma NewTokenIsOk(h: Hash, cfg: PlaneConfig, w: World, step: Step, initial: int)
    requires TokenInv(w, initial) && Enabled(w, step) && NewToken(h, cfg, w, step).Some?
    ensures TokenOk(Next(h, cfg, w, step), NewToken(h, cfg, w, step).value.0, initial)
  {
    hide Next, NewToken, Follows, Gated, SubjectKey, StateOf, MachineOk;
    StepEffect(h, cfg, w, step);
    NewTokenFacts(h, cfg, w, step);
    if step.Seal? { assert PlaneOk(w, step.t, initial); }
  }

  lemma StepKeepsToken(h: Hash, cfg: PlaneConfig, w: World, step: Step, signed: SignedToken, initial: int)
    requires TokenInv(w, initial) && Enabled(w, step)
    ensures TokenOk(Next(h, cfg, w, step), signed, initial)
  {
    hide Next, NewToken, Enabled, MachineOk, Follows, Gated, SubjectKey, StateOf;
    StepEffect(h, cfg, w, step);
    var added := NewToken(h, cfg, w, step);
    assert TokenOk(w, signed, initial);
    if added.Some? && added.value.0 == signed {
      NewTokenIsOk(h, cfg, w, step, initial);
    } else if signed in w.mints {
      OldTokenStaysOk(h, cfg, w, step, signed, initial);
    }
  }

  /** A thread that the step does not move. */
  lemma OldPlaneStaysOk(h: Hash, cfg: PlaneConfig, w: World, step: Step, t: nat, initial: int)
    requires Enabled(w, step) && PlaneOk(w, t, initial)
    requires t in Next(h, cfg, w, step).plane ==> t in w.plane && Next(h, cfg, w, step).plane[t] == w.plane[t]
    ensures PlaneOk(Next(h, cfg, w, step), t, initial)
  {
    hide Next, Follows, Gated, SubjectKey, StateOf, Enabled;
    if t in w.plane {
      var k := w.plane[t];
      StepFollows(h, cfg, w, step, k.seen, initial);
      if !k.Seen? { StepKeepsGated(h, cfg, w, step, k.seen, k.gate, SubjectKey(k.pending.binding), initial); }
      if k.Stamped? { StepFollows(h, cfg, w, step, k.stamp, initial); }
    }
  }

  predicate Moves(step: Step, t: nat) {
    (step.ReadState? || step.ReadGate? || step.ReadEpochs?) && step.t == t
  }

  lemma OtherPlaneUnmoved(h: Hash, cfg: PlaneConfig, w: World, step: Step, t: nat)
    requires Enabled(w, step) && !Moves(step, t)
    ensures t in Next(h, cfg, w, step).plane ==> t in w.plane && Next(h, cfg, w, step).plane[t] == w.plane[t]
  {
    hide SubjectKey, StateOf, Blocks, CI.Next, CI.Enabled, Unused, Fault, Receipted, Issue;
  }

  lemma MovedPlaneIsOk(h: Hash, cfg: PlaneConfig, w: World, step: Step, t: nat, initial: int)
    requires MachineOk(w.m, initial) && PlaneOk(w, t, initial) && Enabled(w, step) && Moves(step, t)
    ensures PlaneOk(Next(h, cfg, w, step), t, initial)
  {
    FollowsSelf(w.m, initial);
    hide MachineOk, Follows, SubjectKey, StateOf, Blocks;
  }

  lemma StepKeepsPlane(h: Hash, cfg: PlaneConfig, w: World, step: Step, t: nat, initial: int)
    requires TokenInv(w, initial) && Enabled(w, step)
    ensures PlaneOk(Next(h, cfg, w, step), t, initial)
  {
    hide MachineOk, TokenOk, PlaneOk, Next, Enabled;
    assert PlaneOk(w, t, initial);
    if Moves(step, t) {
      MovedPlaneIsOk(h, cfg, w, step, t, initial);
    } else {
      OtherPlaneUnmoved(h, cfg, w, step, t);
      OldPlaneStaysOk(h, cfg, w, step, t, initial);
    }
  }

  /** Issued tokens keep their provenance. */
  lemma MintsKept(h: Hash, cfg: PlaneConfig, w: World, step: Step, signed: SignedToken)
    requires Enabled(w, step) && signed in w.mints
    ensures signed in Next(h, cfg, w, step).mints && Next(h, cfg, w, step).mints[signed] == w.mints[signed]
  {
    hide Next, NewToken, Enabled;
    StepEffect(h, cfg, w, step);
    if NewToken(h, cfg, w, step).Some? { NewTokenFacts(h, cfg, w, step); }
  }

  lemma OldCheckStaysOk(h: Hash, cfg: PlaneConfig, w: World, step: Step, b: BrokerThread, initial: int)
    requires Enabled(w, step) && CheckOk(w, b, initial)
    ensures CheckOk(Next(h, cfg, w, step), b, initial)
  {
    hide Next, Follows, Gated, Enabled;
    if b.Checked? || b.Spent? {
      MintsKept(h, cfg, w, step, b.signed);
      StepFollows(h, cfg, w, step, b.at, initial);
    }
  }

  /** `c` is `b`, or the same validated mediation a step further. */
  predicate Continues(b: BrokerThread, c: BrokerThread) {
    || b == c
    || c.Fetched? || c.Refused?
    || (b.Checked? && c == Spent(b.o, b.signed, b.at))
  }

  lemma ContinuedCheck(w: World, b: BrokerThread, c: BrokerThread, initial: int)
    requires CheckOk(w, b, initial) && Continues(b, c)
    ensures CheckOk(w, c, initial)
  {
    hide Follows, Gated;
  }

  /** A thread after a step continues one before it, was just looked up, or has just passed its validation. */
  lemma BrokerMoves(h: Hash, cfg: PlaneConfig, w: World, step: Step, t: nat)
    requires Enabled(w, step) && t in Next(h, cfg, w, step).broker
    ensures var c := Next(h, cfg, w, step).broker[t];
            || c.Fetched? || c.Refused?
            || (t in w.broker && Continues(w.broker[t], c))
            || (step == Check(t) && c == Checked(w.broker[t].o, w.broker[t].signed, w.m)
                && Fault(h, w.gateway, w.m.engine.epochs, c.o, c.signed).None?)
  {
    hide CI.Next, CI.Enabled, Fault, Unused, Receipted, StateOf, Blocks, SubjectKey, Issue;
  }

  lemma FaultlessFacts(h: Hash, g: Gateway, epochs: EpochSet, o: Observation, signed: SignedToken)
    requires Fault(h, g, epochs, o, signed).None?
    ensures signed in g.issued && signed.token.epochs == epochs && signed.token.binding == o.binding
    ensures signed.token.notBefore <= o.now < signed.token.expiresAt
  {
  }

  lemma NewCheckIsOk(h: Hash, w: World, o: Observation, signed: SignedToken, initial: int)
    requires TokenInv(w, initial) && Fault(h, w.gateway, w.m.engine.epochs, o, signed).None?
    ensures CheckOk(w, Checked(o, signed, w.m), initial)
  {
    FaultlessFacts(h, w.gateway, w.m.engine.epochs, o, signed);
    FollowsSelf(w.m, initial);
    assert TokenOk(w, signed, initial);
    hide Fault, Follows, Gated, MachineOk, SubjectKey, StateOf;
  }

  lemma StepKeepsBroker(h: Hash, cfg: PlaneConfig, w: World, step: Step, t: nat, initial: int)
    requires TokenInv(w, initial) && Enabled(w, step)
    ensures BrokerSeen(Next(h, cfg, w, step), t, initial)
  {
    hide Next, Enabled, CheckOk, Fault, TokenOk, PlaneOk, MachineOk, FinishedSeen, Continues;
    var n := Next(h, cfg, w, step);
    assert BrokerSeen(w, t, initial);
    if t in n.broker {
      BrokerMoves(h, cfg, w, step, t);
      var c := n.broker[t];
      if t in w.broker && Continues(w.broker[t], c) {
        ContinuedCheck(w, w.broker[t], c, initial);
        OldCheckStaysOk(h, cfg, w, step, c, initial);
      } else if !c.Fetched? && !c.Refused? {
        NewCheckIsOk(h, w, c.o, c.signed, initial);
        OldCheckStaysOk(h, cfg, w, step, c, initial);
      } else {
        LookedUpIsOk(n, c, initial);
      }
    }
  }

  lemma LookedUpIsOk(w: World, b: BrokerThread, initial: int)
    requires b.Fetched? || b.Refused?
    ensures CheckOk(w, b, initial)
  {
  }

  lemma FinishedGrows(h: Hash, cfg: PlaneConfig, w: World, step: Step)
    requires Enabled(w, step)
    ensures var n := Next(h, cfg, w, step);
            || n.finished == w.finished
            || (step.Finish? && step.t in w.broker && n.finished == w.finished + [w.broker[step.t]])
  {
    hide CI.Next, CI.Enabled, Fault, Unused, Receipted, StateOf, Blocks, SubjectKey, Issue;
  }

  lemma StepKeepsFinished(h: Hash, cfg: PlaneConfig, w: World, step: Step, k: nat, initial: int)
    requires TokenInv(w, initial) && Enabled(w, step)
    ensures FinishedSeen(Next(h, cfg, w, step), k, initial)
  {
    hide Next, Enabled, CheckOk, TokenOk, PlaneOk, MachineOk;
    FinishedGrows(h, cfg, w, step);
    assert FinishedSeen(w, k, initial);
    if k < |w.finished| {
      OldCheckStaysOk(h, cfg, w, step, w.finished[k], initial);
    } else if step.Finish? && step.t in w.broker {
      assert BrokerSeen(w, step.t, initial);
      OldCheckStaysOk(h, cfg, w, step, w.broker[step.t], initial);
    }
  }

  lemma StepKeepsTokenInv(h: Hash, cfg: PlaneConfig, w: World, step: Step, initial: int)
    requires TokenInv(w, initial) && Enabled(w, step)
    ensures TokenInv(Next(h, cfg, w, step), initial)
  {
    hide Next, NewToken, TokenOk, PlaneOk, BrokerSeen, FinishedSeen, MachineOk, CI.Next, CI.Enabled;
    StepEffect(h, cfg, w, step);
    if step.Contain? { StepKeepsMachine(w.m, step.step, initial); }
    forall signed ensures TokenOk(Next(h, cfg, w, step), signed, initial) {
      StepKeepsToken(h, cfg, w, step, signed, initial);
    }
    forall t ensures PlaneOk(Next(h, cfg, w, step), t, initial) {
      StepKeepsPlane(h, cfg, w, step, t, initial);
    }
    forall t ensures BrokerSeen(Next(h, cfg, w, step), t, initial) {
      StepKeepsBroker(h, cfg, w, step, t, initial);
    }
    forall k ensures FinishedSeen(Next(h, cfg, w, step), k, initial) {
      StepKeepsFinished(h, cfg, w, step, k, initial);
    }
  }

  lemma {:induction false} RunKeepsTokenInv(h: Hash, cfg: PlaneConfig, w: World, steps: seq<Step>, last: World,
                                            initial: int)
    requires TokenInv(w, initial) && Runs(h, cfg, w, steps, last)
    ensures TokenInv(last, initial)
    decreases |steps|
  {
    hide TokenInv, Next, Enabled;
    if steps != [] {
      StepKeepsTokenInv(h, cfg, w, steps[0], initial);
      RunKeepsTokenInv(h, cfg, Next(h, cfg, w, steps[0]), steps[1..], last, initial);
    }
  }

  lemma {:induction false} RunFollows(h: Hash, cfg: PlaneConfig, w: World, steps: seq<Step>, last: World, a: Machine,
                                      initial: int)
    requires Follows(a, w.m, initial) && Runs(h, cfg, w, steps, last)
    ensures Follows(a, last.m, initial)
    decreases |steps|
  {
    hide Follows, Next, Enabled;
    if steps != [] {
      StepFollows(h, cfg, w, steps[0], a, initial);
      RunFollows(h, cfg, Next(h, cfg, w, steps[0]), steps[1..], last, a, initial);
    }
  }

  lemma StartIsSound(config: Config, epochs: EpochSet)
    ensures TokenInv(Start(config, epochs), epochs.capability)
  {
    var m := CI.Start(config, epochs);
    assert RecordIds(m.engine.subjects) == {} && CI.InFlight(m.pcs) == {} && Open(m) == {};
  }
}
