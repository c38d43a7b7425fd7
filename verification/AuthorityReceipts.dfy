/** Uses and receipts over every interleaving of the authority protocol. */
module AuthorityReceipts {
  import opened Common
  import opened Ladder
  import opened Containment
  import CI = ContainmentInterleaving
  import opened Tokens
  import opened ControlPlane
  import opened AuthorityInterleaving

  ghost function ReceiptsFor(rs: seq<Receipt>, d: Id): nat {
    if rs == [] then 0 else ReceiptsFor(rs[..|rs| - 1], d) + if rs[|rs| - 1].decisionId == Some(d) then 1 else 0
  }

  /** The mediations that have spent a use of the token and not yet emitted their receipt. */
  ghost function Owing(broker: map<nat, BrokerThread>, signed: SignedToken): set<nat> {
    set t | t in broker && broker[t].Spent? && broker[t].signed == signed
  }

  ghost predicate Named(w: World, d: Id) {
    exists signed | signed in w.mints :: signed.token.decisionId == d
  }

  ghost predicate NonceKnown(w: World, nonce: Id) {
    exists signed | signed in w.mints :: signed.token.nonce == nonce
  }

  ghost predicate TokensDistinct(w: World) {
    forall x, y | x in w.mints && y in w.mints && x != y ::
      x.token.decisionId != y.token.decisionId && x.token.nonce != y.token.nonce
  }

  /** Receipts naming a token and uses still without a receipt add up to the recorded uses, within the limit. */
  ghost predicate CountOk(w: World, signed: SignedToken) {
    signed in w.mints ==>
      && ReceiptsFor(w.gateway.receipts, signed.token.decisionId) + |Owing(w.broker, signed)|
         == UsesOf(w.gateway.uses, signed.token.nonce)
      && UsesOf(w.gateway.uses, signed.token.nonce) <= signed.token.maxUses
      && (w.mints[signed].Plane? ==> signed.token.maxUses == 1)
  }

  /** The token binds the observed action and its holder, and the observation falls in its window. */
  ghost predicate Binds(h: Hash, o: Observation, t: Token) {
    && t.actionHash == h(o.action) && t.audience == o.audience && t.actionType == o.action.actionType
    && t.target == o.action.target && t.payloadHash == o.action.payloadHash
    && (t.operation.Some? ==> t.operation == o.action.operation)
    && t.binding == o.binding && t.notBefore <= o.now < t.expiresAt
  }

  ghost predicate BrokerOk(h: Hash, w: World, t: nat) {
    t in w.broker && (w.broker[t].Checked? || w.broker[t].Spent?) ==>
      var b := w.broker[t];
      b.signed in w.mints && Binds(h, b.o, b.signed.token) && b.signed.token.epochs == b.at.engine.epochs
  }

  /**
    The receipt of a mediation that was validated for its action, its holder, its window and the epochs of the moment.
   */
  ghost predicate Authorised(h: Hash, w: World, r: Receipt, b: BrokerThread) {
    && b.Spent? && b.signed in w.mints && b.signed.token.effect == Allow
    && Binds(h, b.o, b.signed.token) && b.signed.token.epochs == b.at.engine.epochs
    && r.decisionId == Some(b.signed.token.decisionId) && r.actionHash == h(b.o.action)
    && r.actionType == b.o.action.actionType && r.target == b.o.action.target
    && r.operation == b.o.action.operation && r.audience == b.o.audience
  }

  ghost predicate ReceiptOk(h: Hash, w: World, r: Receipt, b: BrokerThread) {
    r.verdict == Executed ==> Authorised(h, w, r, b)
  }

  ghost predicate UseInv(h: Hash, w: World) {
    && w.gateway.issued == w.mints.Keys
    && TokensDistinct(w)
    && (forall signed {:trigger CountOk(w, signed)} :: CountOk(w, signed))
    && (forall t {:trigger BrokerOk(h, w, t)} :: BrokerOk(h, w, t))
    && (forall d | ReceiptsFor(w.gateway.receipts, d) != 0 :: Named(w, d))
    && (forall x | x in w.gateway.uses :: NonceKnown(w, x))
    && |w.finished| == |w.gateway.receipts|
    && (forall k | 0 <= k < |w.finished| :: ReceiptOk(h, w, w.gateway.receipts[k], w.finished[k]))
  }

  lemma NamesGrow(h: Hash, w: World, n: World)
    requires w.mints.Keys <= n.mints.Keys
    ensures forall d | Named(w, d) :: Named(n, d)
    ensures forall x | NonceKnown(w, x) :: NonceKnown(n, x)
    ensures forall r, b | ReceiptOk(h, w, r, b) :: ReceiptOk(h, n, r, b)
  {
    forall d | Named(w, d) ensures Named(n, d) {
      var signed :| signed in w.mints && signed.token.decisionId == d;
      assert signed in n.mints;
    }
    forall x | NonceKnown(w, x) ensures NonceKnown(n, x) {
      var signed :| signed in w.mints && signed.token.nonce == x;
      assert signed in n.mints;
    }
  }

  /** Adding a token with an unused id and nonce. */
  lemma IssueKeepsUseInv(h: Hash, w: World, n: World, signed: SignedToken, from: Provenance)
    requires UseInv(h, w) && Unused(w, signed.token.decisionId, signed.token.nonce)
    requires signed.token.maxUses >= 1 && (from.Plane? ==> signed.token.maxUses == 1)
    requires n.mints == w.mints[signed := from] && n.gateway.issued == w.gateway.issued + {signed}
        && n.broker == w.broker
    requires n.gateway.uses == w.gateway.uses && n.gateway.receipts == w.gateway.receipts
    requires n.finished == w.finished
    ensures UseInv(h, n)
  {
    NamesGrow(h, w, n);
    assert !Named(w, signed.token.decisionId) && !NonceKnown(w, signed.token.nonce);
    forall t ensures BrokerOk(h, n, t) && (t in w.broker && w.broker[t].Spent? ==> w.broker[t].signed != signed) {
      assert BrokerOk(h, w, t);
    }
    assert Owing(n.broker, signed) == {};
    hide Owing;
    forall x ensures CountOk(n, x) {
      assert CountOk(w, x);
    }
    hide Named, NonceKnown, ReceiptOk, ReceiptsFor, BrokerOk, CountOk;
  }

  /** Only broker threads move, and none of them comes to or from a spent use. */
  lemma BrokerKeepsUseInv(h: Hash, w: World, n: World, t: nat)
    requires UseInv(h, w) && BrokerOk(h, n, t)
    requires n.mints == w.mints && n.gateway.issued == w.gateway.issued
    requires n.gateway.uses == w.gateway.uses && n.gateway.receipts == w.gateway.receipts && n.finished == w.finished
    requires forall u | u != t :: (u in n.broker <==> u in w.broker) && (u in w.broker ==> n.broker[u] == w.broker[u])
    requires (t in w.broker ==> !w.broker[t].Spent?) && (t in n.broker ==> !n.broker[t].Spent?)
    ensures UseInv(h, n)
  {
    NamesGrow(h, w, n);
    forall u ensures BrokerOk(h, n, u) {
      assert BrokerOk(h, w, u);
    }
    forall x ensures CountOk(n, x) {
      assert CountOk(w, x);
      assert Owing(n.broker, x) == Owing(w.broker, x);
    }
    hide Named, NonceKnown, ReceiptOk, ReceiptsFor, BrokerOk, CountOk;
  }

  lemma SameKeepsUseInv(h: Hash, w: World, n: World)
    requires UseInv(h, w) && n.mints == w.mints && n.gateway.issued == w.gateway.issued && n.broker == w.broker
    requires n.gateway.uses == w.gateway.uses && n.gateway.receipts == w.gateway.receipts
    requires n.finished == w.finished
    ensures UseInv(h, n)
  {
    NamesGrow(h, w, n);
    forall u ensures BrokerOk(h, n, u) {
      assert BrokerOk(h, w, u);
    }
    forall x ensures CountOk(n, x) {
      assert CountOk(w, x);
    }
    hide Named, NonceKnown, ReceiptOk, ReceiptsFor, BrokerOk, CountOk;
  }

  lemma ReceiptsGrow(rs: seq<Receipt>, r: Receipt, d: Id)
    ensures ReceiptsFor(rs + [r], d) == ReceiptsFor(rs, d) + if r.decisionId == Some(d) then 1 else 0
  {
    assert (rs + [r])[..|rs|] == rs;
  }

  /** A spend counts one use and leaves one receipt owing. */
  lemma SpendKeepsCount(w: World, n: World, t: nat, signed: SignedToken, at: Machine, x: SignedToken)
    requires CountOk(w, x) && TokensDistinct(w) && signed in w.mints
    requires UsesOf(w.gateway.uses, signed.token.nonce) < signed.token.maxUses
    requires n.mints == w.mints && n.gateway.receipts == w.gateway.receipts
    requires n.gateway.uses == w.gateway.uses[signed.token.nonce := UsesOf(w.gateway.uses, signed.token.nonce) + 1]
    requires t in w.broker && !w.broker[t].Spent? && n.broker == w.broker[t := Spent(w.broker[t].o, signed, at)]
    ensures CountOk(n, x)
  {
    OwesOneMore(w.broker, t, Spent(w.broker[t].o, signed, at), x);
    hide ReceiptsFor, Owing;
  }

  lemma OwesOneMore(broker: map<nat, BrokerThread>, t: nat, b: BrokerThread, x: SignedToken)
    requires (t in broker ==> !broker[t].Spent?) && b.Spent?
    ensures |Owing(broker[t := b], x)| == |Owing(broker, x)| + if x == b.signed then 1 else 0
  {
    var more := Owing(broker[t := b], x);
    assert more == if x == b.signed then Owing(broker, x) + {t} else Owing(broker, x);
    assert t !in Owing(broker, x);
  }

  lemma OwesOneLess(broker: map<nat, BrokerThread>, t: nat, x: SignedToken)
    requires t in broker
    ensures |Owing(broker, x)| == |Owing(broker - {t}, x)| + if broker[t].Spent? && broker[t].signed == x then 1 else 0
  {
    var less := Owing(broker - {t}, x);
    assert Owing(broker, x) == if broker[t].Spent? && broker[t].signed == x then less + {t} else less;
    assert t !in less;
  }

  lemma MintedIsKnown(w: World, signed: SignedToken)
    requires signed in w.mints
    ensures Named(w, signed.token.decisionId) && NonceKnown(w, signed.token.nonce)
  {
  }

  lemma SpendKeepsBroker(h: Hash, w: World, n: World, t: nat, u: nat)
    requires BrokerOk(h, w, t) && BrokerOk(h, w, u) && t in w.broker && w.broker[t].Checked? && n.mints == w.mints
    requires n.broker == w.broker[t := Spent(w.broker[t].o, w.broker[t].signed, w.broker[t].at)]
    ensures BrokerOk(h, n, u)
  {
    hide Binds;
  }

  lemma SpendKeepsUseInv(h: Hash, w: World, n: World, t: nat)
    requires UseInv(h, w) && t in w.broker && w.broker[t].Checked?
    requires UsesOf(w.gateway.uses, w.broker[t].signed.token.nonce) < w.broker[t].signed.token.maxUses
    requires n == w.(gateway := Consume(w.gateway, w.broker[t].signed.token.nonce),
                     broker := w.broker[t := Spent(w.broker[t].o, w.broker[t].signed, w.broker[t].at)])
    ensures UseInv(h, n)
  {
    var signed := w.broker[t].signed;
    assert BrokerOk(h, w, t);
    hide Named, NonceKnown, ReceiptOk, ReceiptsFor, BrokerOk, CountOk, Owing;
    NamesGrow(h, w, n);
    MintedIsKnown(w, signed);
    forall u ensures BrokerOk(h, n, u) {
      assert BrokerOk(h, w, u);
      SpendKeepsBroker(h, w, n, t, u);
    }
    forall x ensures CountOk(n, x) {
      assert CountOk(w, x);
      SpendKeepsCount(w, n, t, signed, w.broker[t].at, x);
    }
  }

  /** Every mediation that gets past the look-up ends in exactly one receipt; it names the token iff a use was spent. */
  lemma FinishEmitsOne(h: Hash, w: World, t: nat, run: Effecting)
    requires UseInv(h, w) && Enabled(w, Finish(t, run))
    ensures var b, g := w.broker[t], Receipted(h, w.gateway, w.broker[t], run);
            && |g.receipts| == |w.gateway.receipts| + 1
            && var r := g.receipts[|w.gateway.receipts|];
            && g == w.gateway.(receipts := w.gateway.receipts + [r])
            && r.decisionId == (if b.Spent? then Some(b.signed.token.decisionId) else None)
            && var allowed := b.Spent? && b.signed.token.effect == Allow;
            && (r.verdict == Executed <==> allowed && run.Succeeds?)
            && (r.verdict == Failed <==> allowed && run.Raises?)
            && r.resultHash == (if allowed && run.Succeeds? then run.resultHash else None)
            && r.error == (if b.Refused? then Some(b.code)
                           else if !allowed then Some(EnforcementDenied)
                           else if run.Raises? then Some(run.code) else None)
            && ReceiptOk(h, w, r, b)
  {
    assert BrokerOk(h, w, t);
  }

  lemma FinishKeepsCount(w: World, n: World, t: nat, r: Receipt, x: SignedToken)
    requires CountOk(w, x) && TokensDistinct(w) && t in w.broker
    requires w.broker[t].Spent? ==> w.broker[t].signed in w.mints
    requires n.mints == w.mints && n.broker == w.broker - {t} && n.gateway.uses == w.gateway.uses
    requires n.gateway.receipts == w.gateway.receipts + [r]
    requires r.decisionId == if w.broker[t].Spent? then Some(w.broker[t].signed.token.decisionId) else None
    ensures CountOk(n, x)
  {
    ReceiptsGrow(w.gateway.receipts, r, x.token.decisionId);
    OwesOneLess(w.broker, t, x);
    hide ReceiptsFor, Owing;
  }

  lemma FinishKeepsUseInv(h: Hash, cfg: PlaneConfig, w: World, t: nat, run: Effecting)
    requires UseInv(h, w) && Enabled(w, Finish(t, run))
    ensures UseInv(h, Next(h, cfg, w, Finish(t, run)))
  {
    var n := Next(h, cfg, w, Finish(t, run));
    NamesGrow(h, w, n);
    FinishEmitsOne(h, w, t, run);
    var r := n.gateway.receipts[|w.gateway.receipts|];
    assert BrokerOk(h, w, t) && n.finished == w.finished + [w.broker[t]];
    assert w.broker[t].Spent? ==> Named(n, w.broker[t].signed.token.decisionId);
    forall u ensures BrokerOk(h, n, u) {
      assert BrokerOk(h, w, u);
    }
    forall x ensures CountOk(n, x) {
      assert CountOk(w, x);
      FinishKeepsCount(w, n, t, r, x);
    }
    forall d | ReceiptsFor(n.gateway.receipts, d) != 0 ensures Named(n, d) {
      ReceiptsGrow(w.gateway.receipts, r, d);
    }
    hide Named, NonceKnown, ReceiptOk, ReceiptsFor, BrokerOk, CountOk, Receipted;
  }

  lemma BrokerStepKeepsUseInv(h: Hash, cfg: PlaneConfig, w: World, step: Step)
    requires UseInv(h, w) && Enabled(w, step) && (step.Fetch? || step.Check? || step.Spend? || step.Finish?)
    ensures UseInv(h, Next(h, cfg, w, step))
  {
    assert BrokerOk(h, w, step.t);
    hide UseInv, Receipted;
    match step
    case Spend(t) =>
      if UsesOf(w.gateway.uses, w.broker[t].signed.token.nonce) < w.broker[t].signed.token.maxUses {
        SpendKeepsUseInv(h, w, Next(h, cfg, w, step), t);
      } else {
        BrokerKeepsUseInv(h, w, Next(h, cfg, w, step), t);
      }
    case Finish(t, run) => FinishKeepsUseInv(h, cfg, w, t, run);
    case Fetch(t, _) => BrokerKeepsUseInv(h, w, Next(h, cfg, w, step), t);
    case Check(t) =>
      CheckedBinds(h, cfg, w, t);
      BrokerKeepsUseInv(h, w, Next(h, cfg, w, step), t);
  }

  lemma CheckedBinds(h: Hash, cfg: PlaneConfig, w: World, t: nat)
    requires UseInv(h, w) && Enabled(w, Check(t))
    ensures BrokerOk(h, Next(h, cfg, w, Check(t)), t)
  {
  }

  lemma StepKeepsUseInv(h: Hash, cfg: PlaneConfig, w: World, step: Step)
    requires UseInv(h, w) && Enabled(w, step)
    ensures UseInv(h, Next(h, cfg, w, step))
  {
    hide UseInv, NewToken, Enabled, Next;
    if step.Fetch? || step.Check? || step.Spend? || step.Finish? {
      BrokerStepKeepsUseInv(h, cfg, w, step);
    } else {
      StepEffect(h, cfg, w, step);
      GatewayKept(h, cfg, w, step);
      var n, added := Next(h, cfg, w, step), NewToken(h, cfg, w, step);
      if added.Some? {
        NewTokenFacts(h, cfg, w, step);
        IssueKeepsUseInv(h, w, n, added.value.0, added.value.1);
      } else {
        SameKeepsUseInv(h, w, n);
      }
    }
  }

  lemma GatewayKept(h: Hash, cfg: PlaneConfig, w: World, step: Step)
    requires Enabled(w, step) && !(step.Fetch? || step.Check? || step.Spend? || step.Finish?)
    ensures var n := Next(h, cfg, w, step);
            && n.gateway.uses == w.gateway.uses && n.gateway.receipts == w.gateway.receipts
            && n.broker == w.broker && n.finished == w.finished
  {
    hide CI.Next, CI.Enabled, Unused, StateOf, Blocks, SubjectKey;
  }

  lemma {:induction false} RunKeepsUseInv(h: Hash, cfg: PlaneConfig, w: World, steps: seq<Step>, last: World)
    requires UseInv(h, w) && Runs(h, cfg, w, steps, last)
    ensures UseInv(h, last)
    decreases |steps|
  {
    hide UseInv, Next, Enabled;
    if steps != [] {
      StepKeepsUseInv(h, cfg, w, steps[0]);
      RunKeepsUseInv(h, cfg, Next(h, cfg, w, steps[0]), steps[1..], last);
    }
  }

  /**
    In every interleaving the receipts naming a token and the spent uses still without a receipt add up to its uses,
    never more than it allows; once no mediation is under way, receipts and uses are equal.
   */
  lemma ReceiptsAreBounded(h: Hash, cfg: PlaneConfig, config: Config, epochs: EpochSet, steps: seq<Step>, w: World,
                           signed: SignedToken)
    requires Runs(h, cfg, Start(config, epochs), steps, w) && signed in w.mints
    ensures var receipts, uses :=
        ReceiptsFor(w.gateway.receipts, signed.token.decisionId), UsesOf(w.gateway.uses, signed.token.nonce);
            && receipts + |Owing(w.broker, signed)| == uses <= signed.token.maxUses
            && (w.mints[signed].Plane? ==> uses <= 1)
            && (w.broker == map[] ==> receipts == uses)
  {
    assert UseInv(h, Start(config, epochs));
    RunKeepsUseInv(h, cfg, Start(config, epochs), steps, w);
    assert CountOk(w, signed);
    assert w.broker == map[] ==> Owing(w.broker, signed) == {};
  }

  /**
    In every interleaving an executed action was authorised by an issued token for that very action, target and
    audience, validated for the token's holder, in its window and under its epochs.
   */
  lemma ExecutionsAreAuthorised(h: Hash, cfg: PlaneConfig, config: Config, epochs: EpochSet, steps: seq<Step>, w: World,
                                k: nat)
    requires Runs(h, cfg, Start(config, epochs), steps, w)
    requires k < |w.gateway.receipts| && w.gateway.receipts[k].verdict == Executed
    ensures |w.finished| == |w.gateway.receipts| && Authorised(h, w, w.gateway.receipts[k], w.finished[k])
  {
    assert UseInv(h, Start(config, epochs));
    RunKeepsUseInv(h, cfg, Start(config, epochs), steps, w);
    assert ReceiptOk(h, w, w.gateway.receipts[k], w.finished[k]);
  }
}
