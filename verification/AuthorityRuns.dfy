/**
  Whole runs of the authority protocol with every operation taken as one step: evaluations, approvals, denials,
  containment operations, presentations of arbitrary artifacts, issuing by other callers, and mediations, in any order.
  `AuthorityInterleaving` takes the same operations apart.
 */
module AuthorityRuns {
  import opened Common
  import opened Ladder
  import opened Containment
  import opened Tokens
  import opened Approvals
  import opened ControlPlane

  /** Where a token came from; for the plane's own, the engine as it was at the mint. */
  datatype Provenance = Elsewhere | Plane(engine: Engine)

  /** `asked` keeps the request behind every decision id. */
  datatype World = World(core: Core, mints: map<SignedToken, Provenance>, asked: map<Id, EvalRequest>)

  datatype Step =
    | Contain(op: Op)
    | Evaluating(r: EvalRequest)
    | Approving(d: Id, approver: Id, now: int, drawn: Drawn)
    | Denying(d: Id, approver: Id, reason: Option<Id>, now: int)
    | Presenting(signed: SignedToken)
    | Issuing(order: Order)
    | Mediating(o: Observation, run: Effecting)

  function Noted(w: World, next: (Core, Answer)): World {
    w.(core := next.0,
       mints := if next.1.Ok? && next.1.value.Some? then w.mints[next.1.value.value := Plane(w.core.engine)]
           else w.mints)
  }

  function Next(h: Hash, cfg: PlaneConfig, w: World, step: Step): World {
    var c := w.core;
    match step
    case Contain(op) => w.(core := c.(engine := Apply(c.engine, op)))
    case Evaluating(r) => Noted(w, EvaluateAction(h, cfg, c, r)).(asked := w.asked[r.decisionId := r])
    case Approving(d, approver, now, drawn) => Noted(w, ApproveDecision(h, cfg, c, d, approver, now, drawn))
    case Denying(d, approver, reason, now) => w.(core := DenyDecision(c, d, approver, reason, now).0)
    case Presenting(signed) => w.(core := c.(gateway := PresentTo(c.gateway, signed)))
    case Issuing(order) =>
      (match Issue(h, order)
       case Err(_) => w
       case Ok(signed) =>
         w.(core := c.(gateway := c.gateway.(issued := c.gateway.issued + {signed})),
            mints := w.mints[signed := Elsewhere]))
    case Mediating(o, run) => w.(core := c.(gateway := Mediate(h, c.gateway, c.engine.epochs, o, run).0))
  }

  /** Token ids and nonces are drawn fresh. */
  ghost predicate Unused(w: World, tokenId: Id, nonce: Id) {
    forall signed | signed in w.mints :: signed.token.decisionId != tokenId && signed.token.nonce != nonce
  }

  ghost predicate Enabled(w: World, step: Step) {
    match step
    case Evaluating(r) => Unused(w, r.drawn.tokenId, r.drawn.nonce) && r.decisionId !in w.asked
    case Approving(_, _, _, drawn) => Unused(w, drawn.tokenId, drawn.nonce)
    case Issuing(order) => Unused(w, order.decisionId, order.nonce)
    case _ => true
  }

  ghost predicate Runs(h: Hash, cfg: PlaneConfig, w: World, steps: seq<Step>, last: World)
    decreases |steps|
  {
    if steps == [] then w == last
    else Enabled(w, steps[0]) && Runs(h, cfg, Next(h, cfg, w, steps[0]), steps[1..], last)
  }

  function Start(config: Config, epochs: EpochSet): World {
    World(Core(Engine(config, map[], epochs), map[], map[], Gateway({}, map[], map[], [])), map[], map[])
  }

  // ---------------------------------------------------------------------------
  // Engines along a run
  // ---------------------------------------------------------------------------

  /** `b` is `a` or a later engine of the same run. */
  ghost predicate Precedes(a: Engine, b: Engine, initial: int) {
    && Containment.Inv(a, initial) && Containment.Inv(b, initial)
    && b.epochs == a.epochs.(capability := b.epochs.capability)
    && a.epochs.capability <= b.epochs.capability
    && (a.epochs.capability == b.epochs.capability ==> SameHistory(a, b))
  }

  lemma PrecedesSelf(a: Engine, initial: int)
    requires Containment.Inv(a, initial)
    ensures Precedes(a, a, initial)
  {
  }

  lemma PrecedesApply(a: Engine, b: Engine, op: Op, initial: int)
    requires Precedes(a, b, initial)
    ensures Precedes(a, Apply(b, op), initial)
  {
    EpochMarksEveryTransition(b, op);
    Containment.ApplyKeepsInv(b, op, initial);
    hide Containment.Inv, Apply;
  }

  /** The epoch tells exactly whether any transition of any subject happened in between. */
  lemma EpochTellsHistory(a: Engine, b: Engine, initial: int)
    requires Precedes(a, b, initial)
    ensures a.epochs == b.epochs <==> SameHistory(a, b)
  {
    if SameHistory(a, b) {
      forall s, i ensures (s, i) in RecordIds(a.subjects) <==> (s, i) in RecordIds(b.subjects) {
        assert HistoryOf(a, s) == HistoryOf(b, s);
      }
      assert RecordIds(a.subjects) == RecordIds(b.subjects);
    }
  }

  // ---------------------------------------------------------------------------
  // What one step does to the tokens
  // ---------------------------------------------------------------------------

  function AnswerToken(w: World, a: Answer): Option<(SignedToken, Provenance)> {
    if a.Ok? && a.value.Some? then Some((a.value.value, Plane(w.core.engine))) else None
  }

  /** The token a step issues, with its provenance. */
  function NewToken(h: Hash, cfg: PlaneConfig, w: World, step: Step): Option<(SignedToken, Provenance)> {
    var c := w.core;
    match step
    case Evaluating(r) => AnswerToken(w, EvaluateAction(h, cfg, c, r).1)
    case Approving(d, approver, now, drawn) => AnswerToken(w, ApproveDecision(h, cfg, c, d, approver, now, drawn).1)
    case Issuing(order) => (match Issue(h, order) case Err(_) => None case Ok(signed) => Some((signed, Elsewhere)))
    case _ => None
  }

  /** A plane call leaves the engine alone and issues what it answers with. */
  ghost predicate IssuesAnswer(c: Core, next: (Core, Answer)) {
    && next.0.engine == c.engine
    && next.0.gateway.issued ==
       if next.1.Ok? && next.1.value.Some? then c.gateway.issued + {next.1.value.value} else c.gateway.issued
  }

  lemma EvaluateIssuesAnswer(h: Hash, cfg: PlaneConfig, c: Core, r: EvalRequest)
    ensures IssuesAnswer(c, EvaluateAction(h, cfg, c, r))
  {
    hide StateOf, Blocks, BlockCode, SubjectKey;
  }

  lemma ApproveIssuesAnswer(h: Hash, cfg: PlaneConfig, c: Core, d: Id, approver: Id, now: int, drawn: Drawn)
    ensures IssuesAnswer(c, ApproveDecision(h, cfg, c, d, approver, now, drawn))
  {
    hide StateOf, Blocks, BlockCode, SubjectKey;
  }

  lemma StepEffect(h: Hash, cfg: PlaneConfig, w: World, step: Step)
    ensures var n, added := Next(h, cfg, w, step), NewToken(h, cfg, w, step);
            && n.mints == (if added.Some? then w.mints[added.value.0 := added.value.1] else w.mints)
            && n.core.gateway.issued
               == (if added.Some? then w.core.gateway.issued + {added.value.0} else w.core.gateway.issued)
            && n.core.engine == (if step.Contain? then Apply(w.core.engine, step.op) else w.core.engine)
  {
    hide Apply, SubjectKey, Authorize, ExactMatch, EvaluateAction, ApproveDecision, MintToken, StateOf, Blocks;
    match step
    case Evaluating(r) => EvaluateIssuesAnswer(h, cfg, w.core, r);
    case Approving(d, approver, now, drawn) => ApproveIssuesAnswer(h, cfg, w.core, d, approver, now, drawn);
    case _ =>
  }

  /** What is known of a plane token when it is issued. */
  lemma NewTokenFacts(h: Hash, cfg: PlaneConfig, w: World, step: Step)
    requires Enabled(w, step) && NewToken(h, cfg, w, step).Some?
    ensures var signed, from := NewToken(h, cfg, w, step).value.0, NewToken(h, cfg, w, step).value.1;
            && !step.Contain?
            && (from.Plane? ==>
                  && from.engine == w.core.engine && signed.token.epochs == w.core.engine.epochs
                  && signed.token.containment == StateOf(w.core.engine, SubjectKey(signed.token.binding))
                  && !Blocks(signed.token.containment))
  {
    hide SubjectKey, Unused;
  }

  // ---------------------------------------------------------------------------
  // Token freshness
  // ---------------------------------------------------------------------------

  ghost predicate TokenOk(w: World, signed: SignedToken, initial: int) {
    signed in w.mints && w.mints[signed].Plane? ==>
      var e := w.mints[signed].engine;
      && Precedes(e, w.core.engine, initial)
      && signed.token.epochs == e.epochs
      && signed.token.containment == StateOf(e, SubjectKey(signed.token.binding)) && !Blocks(signed.token.containment)
  }

  ghost predicate TokenInv(w: World, initial: int) {
    && Containment.Inv(w.core.engine, initial)
    && w.core.gateway.issued == w.mints.Keys
    && (forall signed {:trigger TokenOk(w, signed, initial)} :: TokenOk(w, signed, initial))
  }

  lemma StepKeepsEngines(h: Hash, cfg: PlaneConfig, w: World, step: Step, a: Engine, initial: int)
    requires Precedes(a, w.core.engine, initial)
    ensures Precedes(a, Next(h, cfg, w, step).core.engine, initial)
  {
    hide Next, Precedes, NewToken;
    StepEffect(h, cfg, w, step);
    if step.Contain? { PrecedesApply(a, w.core.engine, step.op, initial); }
  }

  lemma StepKeepsToken(h: Hash, cfg: PlaneConfig, w: World, step: Step, signed: SignedToken, initial: int)
    requires TokenInv(w, initial) && Enabled(w, step)
    ensures TokenOk(Next(h, cfg, w, step), signed, initial)
  {
    hide Next, NewToken, Precedes, SubjectKey, StateOf, Containment.Inv, Blocks, Enabled;
    assert TokenOk(w, signed, initial);
    StepEffect(h, cfg, w, step);
    var added := NewToken(h, cfg, w, step);
    if added.Some? && added.value.0 == signed {
      NewTokenFacts(h, cfg, w, step);
      PrecedesSelf(w.core.engine, initial);
    } else if signed in w.mints && w.mints[signed].Plane? {
      StepKeepsEngines(h, cfg, w, step, w.mints[signed].engine, initial);
    }
  }

  lemma StepKeepsTokenInv(h: Hash, cfg: PlaneConfig, w: World, step: Step, initial: int)
    requires TokenInv(w, initial) && Enabled(w, step)
    ensures TokenInv(Next(h, cfg, w, step), initial)
  {
    hide Next, NewToken, TokenOk, Containment.Inv, Apply, Enabled;
    StepEffect(h, cfg, w, step);
    if step.Contain? { Containment.ApplyKeepsInv(w.core.engine, step.op, initial); }
    forall signed ensures TokenOk(Next(h, cfg, w, step), signed, initial) {
      StepKeepsToken(h, cfg, w, step, signed, initial);
    }
  }

  lemma {:induction false} RunKeepsTokenInv(h: Hash, cfg: PlaneConfig, w: World, steps: seq<Step>, last: World,
                                            initial: int)
    requires TokenInv(w, initial) && Runs(h, cfg, w, steps, last)
    ensures TokenInv(last, initial)
    decreases |steps|
  {
    hide TokenInv, Next, Enabled;
    if steps != [] {
      StepKeepsTokenInv(h, cfg, w, steps[0], initial);
      RunKeepsTokenInv(h, cfg, Next(h, cfg, w, steps[0]), steps[1..], last, initial);
    }
  }

  lemma StartIsSound(config: Config, epochs: EpochSet)
    ensures TokenInv(Start(config, epochs), epochs.capability)
  {
    assert RecordIds(Start(config, epochs).core.engine.subjects) == {};
  }

  /**
    With atomic operations, when the validator accepts a token of the plane no transition of any subject has happened
    since it was minted, so the subject is in the state the token records, below quarantine.
   */
  lemma AtomicAcceptedTokenIsCurrent(h: Hash, cfg: PlaneConfig, config: Config, epochs: EpochSet, steps: seq<Step>,
                                     w: World, o: Observation)
    requires Runs(h, cfg, Start(config, epochs), steps, w)
    requires Authorize(h, w.core.gateway, w.core.engine.epochs, o).Ok?
    ensures var signed := Authorize(h, w.core.gateway, w.core.engine.epochs, o).value;
            && signed in w.mints
            && (w.mints[signed].Plane? ==>
                  && SameHistory(w.mints[signed].engine, w.core.engine)
                  && StateOf(w.core.engine, SubjectKey(o.binding)) == signed.token.containment
                  && !Blocks(StateOf(w.core.engine, SubjectKey(o.binding))))
  {
    StartIsSound(config, epochs);
    RunKeepsTokenInv(h, cfg, Start(config, epochs), steps, w, epochs.capability);
    var signed := Authorize(h, w.core.gateway, w.core.engine.epochs, o).value;
    assert signed.token.epochs == w.core.engine.epochs && signed.token.binding == o.binding;
    assert TokenOk(w, signed, epochs.capability);
    if signed in w.mints && w.mints[signed].Plane? {
      EpochTellsHistory(w.mints[signed].engine, w.core.engine, epochs.capability);
    }
    hide Runs, Authorize, Precedes, Containment.Inv, Blocks, SubjectKey, HistoryOf;
  }

  // ---------------------------------------------------------------------------
  // Approvals behind tokens
  // ---------------------------------------------------------------------------

  predicate NeedsApproval(cfg: PlaneConfig, r: EvalRequest) {
    r.policy.Ok? && (r.policy.value.requireApproval || r.policy.value.risk >= cfg.approvalTier)
  }

  /** A record answers a request that needed approval, for what was asked; a decision came before expiry. */
  ghost predicate RecordOk(h: Hash, cfg: PlaneConfig, w: World, d: Id) {
    d in w.core.approvals ==>
      var a := w.core.approvals[d];
      && d in w.asked && NeedsApproval(cfg, w.asked[d])
      && var r := w.asked[d];
      && a.approvalId == r.drawn.approvalId && a.agent == r.binding.agent && a.actionHash == h(r.action)
      && a.risk == r.policy.value.risk && a.classification == r.action.classification
      && a.requestedAt == r.now && a.expiresAt == r.now + cfg.approvalTtl
      && (a.state == Pending <==> a.decidedAt == None)
      && (a.decidedAt.Some? ==> a.decidedAt.value < a.expiresAt && a.approver.Some?)
  }

  /** A parked decision has a record and waits to mint what was asked. */
  ghost predicate PendingOk(cfg: PlaneConfig, w: World, d: Id) {
    d in w.core.decisions && w.core.decisions[d].pending.Some? ==>
      && d in w.asked && NeedsApproval(cfg, w.asked[d]) && d in w.core.approvals
      && var r, p := w.asked[d], w.core.decisions[d].pending.value;
      && p.action == r.action && p.binding == r.binding && p.audience == r.audience && p.policyHash == r.policyHash
      && p.risk == r.policy.value.risk
  }

  /** The token allows what the request asked for, once, for the configured lifetime. */
  ghost predicate Carries(h: Hash, cfg: PlaneConfig, t: Token, r: EvalRequest) {
    && t.binding == r.binding && t.audience == r.audience && t.policyHash == r.policyHash
    && r.policy.Ok? && t.risk == r.policy.value.risk
    && t.actionHash == h(r.action) && t.actionType == r.action.actionType && t.target == r.action.target
    && t.operation == r.action.operation && t.payloadHash == r.action.payloadHash
    && t.effect == Allow && t.maxUses == 1 && t.version == 3 && t.expiresAt == t.notBefore + cfg.ttl
  }

  /**
    A plane token mints what was asked and is the token of its decision; a record exists iff approval was needed, and it
    was granted at the mint.
   */
  ghost predicate MintOk(h: Hash, cfg: PlaneConfig, w: World, signed: SignedToken) {
    signed in w.mints && w.mints[signed].Plane? ==>
      var d := signed.token.requestId;
      && d in w.asked && Carries(h, cfg, signed.token, w.asked[d])
      && d in w.core.decisions && w.core.decisions[d] == Entry(Some(signed), None)
      && (d in w.core.approvals <==> NeedsApproval(cfg, w.asked[d]))
      && (d in w.core.approvals ==>
            w.core.approvals[d].state == Granted && w.core.approvals[d].decidedAt == Some(signed.token.notBefore))
      && (d !in w.core.approvals ==> signed.token.notBefore == w.asked[d].now)
  }

  ghost predicate ApprovalInv(h: Hash, cfg: PlaneConfig, w: World) {
    && (forall d {:trigger RecordOk(h, cfg, w, d)} :: RecordOk(h, cfg, w, d))
    && (forall d {:trigger PendingOk(cfg, w, d)} :: PendingOk(cfg, w, d))
    && (forall signed {:trigger MintOk(h, cfg, w, signed)} :: MintOk(h, cfg, w, signed))
  }

  /** The token mints what was pending, for the decision `d`. */
  ghost predicate MintsPending(h: Hash, cfg: PlaneConfig, t: Token, p: Pending, d: Id, now: int) {
    && t.requestId == d && t.notBefore == now && t.expiresAt == now + cfg.ttl
    && t.binding == p.binding && t.audience == p.audience && t.policyHash == p.policyHash && t.risk == p.risk
    && t.actionHash == h(p.action) && t.actionType == p.action.actionType && t.target == p.action.target
    && t.operation == p.action.operation && t.payloadHash == p.action.payloadHash
    && t.effect == Allow && t.maxUses == 1 && t.version == 3
  }

  /** An evaluation stops, parks the request or mints for it. */
  lemma EvaluateOutcome(h: Hash, cfg: PlaneConfig, c: Core, r: EvalRequest)
    ensures var (n, a) := EvaluateAction(h, cfg, c, r);
            var d := r.decisionId;
            || (n == c && !(a.Ok? && a.value.Some?))
            || (NeedsApproval(cfg, r) && a == Ok(None)
                && n.approvals == c.approvals[d := RequestedFor(h, cfg, r)]
                && n.decisions == c.decisions[d := Entry(None, Some(PendingOf(r, r.policy.value.risk)))])
            || (r.policy.Ok? && !NeedsApproval(cfg, r) && a.Ok? && a.value.Some?
                && MintsPending(h, cfg, a.value.value.token, PendingOf(r, r.policy.value.risk), d, r.now)
                && n.approvals == c.approvals && n.decisions == c.decisions[d := Entry(Some(a.value.value), None)])
  {
    hide SubjectKey, StateOf, Blocks, PresentTo;
  }

  lemma EvaluatingKeepsApprovals(h: Hash, cfg: PlaneConfig, w: World, r: EvalRequest, d: Id, signed: SignedToken)
    requires ApprovalInv(h, cfg, w) && Enabled(w, Evaluating(r))
    ensures var n := Next(h, cfg, w, Evaluating(r));
            RecordOk(h, cfg, n, d) && PendingOk(cfg, n, d) && MintOk(h, cfg, n, signed)
  {
    assert RecordOk(h, cfg, w, d) && PendingOk(cfg, w, d) && MintOk(h, cfg, w, signed);
    assert RecordOk(h, cfg, w, r.decisionId);
    EvaluateOutcome(h, cfg, w.core, r);
    hide Unused, ApprovalInv, EvaluateAction, NeedsApproval;
  }

  /** An approval leaves everything alone, or grants; a grant keeps the decision parked or mints what was parked. */
  lemma ApproveOutcome(h: Hash, cfg: PlaneConfig, c: Core, d: Id, approver: Id, now: int, drawn: Drawn)
    ensures var (n, a) := ApproveDecision(h, cfg, c, d, approver, now, drawn);
            || (n == c && !(a.Ok? && a.value.Some?))
            || (d in c.decisions && c.decisions[d].pending.Some? && d in c.approvals && c.approvals[d].state == Pending
                && now < c.approvals[d].expiresAt
                && n.approvals == c.approvals[d := c.approvals[d].(state := Granted, approver := Some(approver),
                                                                   decidedAt := Some(now), reason := None)]
                && if a.Ok? && a.value.Some?
                   then && n.decisions == c.decisions[d := Entry(Some(a.value.value), None)]
                        && MintsPending(h, cfg, a.value.value.token, c.decisions[d].pending.value, d, now)
                   else n.decisions == c.decisions)
  {
    hide SubjectKey, StateOf, Blocks, PresentTo;
  }

  lemma ApprovingKeepsApprovals(h: Hash, cfg: PlaneConfig, w: World, step: Step, d: Id, signed: SignedToken)
    requires ApprovalInv(h, cfg, w) && Enabled(w, step) && step.Approving?
    ensures var n := Next(h, cfg, w, step);
            RecordOk(h, cfg, n, d) && PendingOk(cfg, n, d) && MintOk(h, cfg, n, signed)
  {
    assert RecordOk(h, cfg, w, d) && PendingOk(cfg, w, d) && MintOk(h, cfg, w, signed);
    assert RecordOk(h, cfg, w, step.d) && PendingOk(cfg, w, step.d);
    ApproveOutcome(h, cfg, w.core, step.d, step.approver, step.now, step.drawn);
    hide Unused, ApprovalInv, ApproveDecision, NeedsApproval;
  }

  lemma OtherKeepsApprovals(h: Hash, cfg: PlaneConfig, w: World, step: Step, d: Id, signed: SignedToken)
    requires ApprovalInv(h, cfg, w) && Enabled(w, step) && !step.Approving? && !step.Evaluating?
    ensures var n := Next(h, cfg, w, step);
            RecordOk(h, cfg, n, d) && PendingOk(cfg, n, d) && MintOk(h, cfg, n, signed)
  {
    assert RecordOk(h, cfg, w, d) && PendingOk(cfg, w, d) && MintOk(h, cfg, w, signed);
    hide Unused, Apply, Mediate, ApprovalInv, NeedsApproval, PresentTo;
  }

  lemma StepKeepsApprovals(h: Hash, cfg: PlaneConfig, w: World, step: Step, d: Id, signed: SignedToken)
    requires ApprovalInv(h, cfg, w) && Enabled(w, step)
    ensures var n := Next(h, cfg, w, step);
            RecordOk(h, cfg, n, d) && PendingOk(cfg, n, d) && MintOk(h, cfg, n, signed)
  {
    hide Next, Enabled, RecordOk, PendingOk, MintOk, ApprovalInv;
    match step
    case Evaluating(r) => EvaluatingKeepsApprovals(h, cfg, w, r, d, signed);
    case Approving(_, _, _, _) => ApprovingKeepsApprovals(h, cfg, w, step, d, signed);
    case _ => OtherKeepsApprovals(h, cfg, w, step, d, signed);
  }

  lemma StepKeepsApprovalInv(h: Hash, cfg: PlaneConfig, w: World, step: Step)
    requires ApprovalInv(h, cfg, w) && Enabled(w, step)
    ensures ApprovalInv(h, cfg, Next(h, cfg, w, step))
  {
    hide Next, Enabled, RecordOk, PendingOk, MintOk;
    var n := Next(h, cfg, w, step);
    var anyId: Id, anyToken: SignedToken := *, *;
    forall d ensures RecordOk(h, cfg, n, d) && PendingOk(cfg, n, d) {
      StepKeepsApprovals(h, cfg, w, step, d, anyToken);
    }
    forall signed ensures MintOk(h, cfg, n, signed) {
      StepKeepsApprovals(h, cfg, w, step, anyId, signed);
    }
  }

  lemma {:induction false} RunKeepsApprovalInv(h: Hash, cfg: PlaneConfig, w: World, steps: seq<Step>, last: World)
    requires ApprovalInv(h, cfg, w) && Runs(h, cfg, w, steps, last)
    ensures ApprovalInv(h, cfg, last)
    decreases |steps|
  {
    hide ApprovalInv, Next, Enabled;
    if steps != [] {
      StepKeepsApprovalInv(h, cfg, w, steps[0]);
      RunKeepsApprovalInv(h, cfg, Next(h, cfg, w, steps[0]), steps[1..], last);
    }
  }

  lemma StartIsEmpty(h: Hash, cfg: PlaneConfig, config: Config, epochs: EpochSet)
    ensures ApprovalInv(h, cfg, Start(config, epochs))
  {
  }

  /**
    In every run of atomic operations a plane token allows exactly what the request behind it asked for, once, for the
    configured lifetime, and its decision has no other token. An approval record exists for that request iff it needed
    approval, and then it was granted, before its expiry, at the mint.
   */
  lemma NeededApprovalsWereGranted(h: Hash, cfg: PlaneConfig, config: Config, epochs: EpochSet, steps: seq<Step>,
                                   w: World, signed: SignedToken)
    requires Runs(h, cfg, Start(config, epochs), steps, w) && signed in w.mints && w.mints[signed].Plane?
    ensures var d := signed.token.requestId;
            && d in w.asked && Carries(h, cfg, signed.token, w.asked[d])
            && (NeedsApproval(cfg, w.asked[d]) <==> d in w.core.approvals)
            && (!NeedsApproval(cfg, w.asked[d]) ==> signed.token.notBefore == w.asked[d].now)
            && (NeedsApproval(cfg, w.asked[d]) ==>
                  var a := w.core.approvals[d];
                  && a.state == Granted && a.agent == signed.token.binding.agent
                  && a.actionHash == signed.token.actionHash && a.risk == signed.token.risk
                  && a.decidedAt == Some(signed.token.notBefore)
                  && signed.token.notBefore < a.expiresAt == w.asked[d].now + cfg.approvalTtl)
    ensures forall other |
              other in w.mints && w.mints[other].Plane? && other.token.requestId == signed.token.requestId ::
              other == signed
  {
    hide Runs, NeedsApproval, Carries, Start;
    StartIsEmpty(h, cfg, config, epochs);
    RunKeepsApprovalInv(h, cfg, Start(config, epochs), steps, w);
    assert MintOk(h, cfg, w, signed) && RecordOk(h, cfg, w, signed.token.requestId);
    assert Carries(h, cfg, signed.token, w.asked[signed.token.requestId]);
    forall other | other in w.mints && w.mints[other].Plane? && other.token.requestId == signed.token.requestId
      ensures other == signed
    {
      assert MintOk(h, cfg, w, other);
    }
    CarriesTerms(h, cfg, signed.token, w.asked[signed.token.requestId]);
  }

  lemma CarriesTerms(h: Hash, cfg: PlaneConfig, t: Token, r: EvalRequest)
    requires Carries(h, cfg, t, r)
    ensures t.binding == r.binding && t.actionHash == h(r.action) && r.policy.Ok? && t.risk == r.policy.value.risk
  {
  }

  // ---------------------------------------------------------------------------
  // Denials
  // ---------------------------------------------------------------------------

  predicate DeniedIn(w: World, d: Id) {
    d in w.core.approvals && w.core.approvals[d].state == Refused
  }

  /** A refused record is never replaced or decided again. */
  lemma StepKeepsDenied(h: Hash, cfg: PlaneConfig, w: World, step: Step, d: Id)
    requires ApprovalInv(h, cfg, w) && Enabled(w, step) && DeniedIn(w, d)
    ensures DeniedIn(Next(h, cfg, w, step), d)
  {
    assert RecordOk(h, cfg, w, d);
    match step
    case Evaluating(r) => EvaluateOutcome(h, cfg, w.core, r);
    case Approving(e, approver, now, drawn) => ApproveOutcome(h, cfg, w.core, e, approver, now, drawn);
    case Denying(e, approver, reason, now) => DenialAnswers(w.core, e, approver, reason, now);
    case _ =>
    hide Unused, ApprovalInv, EvaluateAction, ApproveDecision, DenyDecision, NeedsApproval, Apply, Mediate, PresentTo;
  }

  lemma {:induction false} RunKeepsDenied(h: Hash, cfg: PlaneConfig, w: World, steps: seq<Step>, last: World, d: Id)
    requires ApprovalInv(h, cfg, w) && Runs(h, cfg, w, steps, last) && DeniedIn(w, d)
    ensures ApprovalInv(h, cfg, last) && DeniedIn(last, d)
    decreases |steps|
  {
    hide ApprovalInv, Next, Enabled, DeniedIn;
    if steps != [] {
      StepKeepsApprovalInv(h, cfg, w, steps[0]);
      StepKeepsDenied(h, cfg, w, steps[0], d);
      RunKeepsDenied(h, cfg, Next(h, cfg, w, steps[0]), steps[1..], last, d);
    }
  }

  /**
    A denial through the plane is final: once it succeeds, the record is refused in every later state, and no plane
    token of the decision exists, then or ever.
   */
  lemma DeniedDecisionNeverMints(h: Hash, cfg: PlaneConfig, config: Config, epochs: EpochSet, before: seq<Step>,
                                 w: World, d: Id, approver: Id, reason: Option<Id>, now: int, after: seq<Step>,
                                 last: World)
    requires Runs(h, cfg, Start(config, epochs), before, w)
    requires DenyDecision(w.core, d, approver, reason, now).1.Ok?
    requires Runs(h, cfg, Next(h, cfg, w, Denying(d, approver, reason, now)), after, last)
    ensures DeniedIn(Next(h, cfg, w, Denying(d, approver, reason, now)), d) && DeniedIn(last, d)
    ensures forall signed | signed in last.mints && last.mints[signed].Plane? :: signed.token.requestId != d
  {
    var step := Denying(d, approver, reason, now);
    StartIsEmpty(h, cfg, config, epochs);
    DenialAnswers(w.core, d, approver, reason, now);
    hide Runs, Start, ApprovalInv, DenyDecision;
    RunKeepsApprovalInv(h, cfg, Start(config, epochs), before, w);
    StepKeepsApprovalInv(h, cfg, w, step);
    RunKeepsDenied(h, cfg, Next(h, cfg, w, step), after, last, d);
    forall signed | signed in last.mints && last.mints[signed].Plane? ensures signed.token.requestId != d {
      MintedIsGranted(h, cfg, last, signed);
    }
  }

  lemma MintedIsGranted(h: Hash, cfg: PlaneConfig, w: World, signed: SignedToken)
    requires ApprovalInv(h, cfg, w) && signed in w.mints && w.mints[signed].Plane?
    ensures !DeniedIn(w, signed.token.requestId)
  {
    assert MintOk(h, cfg, w, signed);
  }

  // ---------------------------------------------------------------------------
  // The token store
  // ---------------------------------------------------------------------------

  /** Every presented token lies under its own audience and action hash. */
  ghost predicate StoreOk(w: World) {
    forall key | key in w.core.gateway.presented ::
      var t := w.core.gateway.presented[key].token;
      key == (t.audience, t.actionHash)
  }

  lemma StepKeepsStore(h: Hash, cfg: PlaneConfig, w: World, step: Step)
    requires StoreOk(w)
    ensures StoreOk(Next(h, cfg, w, step))
  {
    match step
    case Evaluating(r) => EvaluatePresents(h, cfg, w.core, r);
    case Approving(d, approver, now, drawn) => ApprovePresents(h, cfg, w.core, d, approver, now, drawn);
    case Mediating(o, run) => MediatePresents(h, w.core.gateway, w.core.engine.epochs, o, run);
    case _ =>
    hide EvaluateAction, ApproveDecision, Apply, Mediate;
  }

  /** A plane call presents what it answers with, under its own key. */
  ghost predicate PresentsAnswer(c: Core, next: (Core, Answer)) {
    next.0.gateway.presented ==
    if next.1.Ok? && next.1.value.Some?
    then var signed := next.1.value.value;
         c.gateway.presented[(signed.token.audience, signed.token.actionHash) := signed]
    else c.gateway.presented
  }

  lemma EvaluatePresents(h: Hash, cfg: PlaneConfig, c: Core, r: EvalRequest)
    ensures PresentsAnswer(c, EvaluateAction(h, cfg, c, r))
  {
    hide StateOf, Blocks, BlockCode, SubjectKey;
  }

  lemma ApprovePresents(h: Hash, cfg: PlaneConfig, c: Core, d: Id, approver: Id, now: int, drawn: Drawn)
    ensures PresentsAnswer(c, ApproveDecision(h, cfg, c, d, approver, now, drawn))
  {
    hide StateOf, Blocks, BlockCode, SubjectKey;
  }

  lemma MediatePresents(h: Hash, g: Gateway, epochs: EpochSet, o: Observation, run: Effecting)
    ensures Mediate(h, g, epochs, o, run).0.presented == g.presented
  {
    hide Authorize, ExactMatch;
  }

  lemma {:induction false} RunKeepsStore(h: Hash, cfg: PlaneConfig, w: World, steps: seq<Step>, last: World)
    requires StoreOk(w) && Runs(h, cfg, w, steps, last)
    ensures StoreOk(last)
    decreases |steps|
  {
    hide StoreOk, Next, Enabled;
    if steps != [] {
      StepKeepsStore(h, cfg, w, steps[0]);
      RunKeepsStore(h, cfg, Next(h, cfg, w, steps[0]), steps[1..], last);
    }
  }

  /** The look-up by audience and hash makes the validator's audience check unreachable in every run. */
  lemma AudienceMismatchNeverArises(h: Hash, cfg: PlaneConfig, config: Config, epochs: EpochSet, steps: seq<Step>,
                                    w: World, o: Observation)
    requires Runs(h, cfg, Start(config, epochs), steps, w)
    ensures Authorize(h, w.core.gateway, w.core.engine.epochs, o) != Err(AudienceMismatch)
  {
    RunKeepsStore(h, cfg, Start(config, epochs), steps, w);
    hide Runs;
  }
}
