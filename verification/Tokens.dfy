/**
  Decision tokens: issuing, presenting, validating with use counting, and the broker's mediation flow.
  The keyed MAC is ideal: it verifies exactly for the artifacts the authority issued.
 */
module Tokens {
  import opened Common
  import Ladder
  import opened Containment

  datatype AgentAction = AgentAction(
    actionType: Id, target: Id, operation: Option<Id>, payloadHash: Option<Id>, classification: Id, rest: Id)

  /** The action commitment; nothing is assumed about it. */
  type Hash = AgentAction -> Id

  datatype Binding = Binding(agent: Id, runtime: Id, session: Id)

  datatype Effect = Allow | Deny | Redact

  datatype Token = Token(
    version: int,
    decisionId: Id,
    requestId: Id,
    binding: Binding,
    actionHash: Id,
    actionType: Id,
    target: Id,
    operation: Option<Id>,
    payloadHash: Option<Id>,
    policyHash: Id,
    risk: int,
    containment: Ladder.State,
    effect: Effect,
    notBefore: int,
    expiresAt: int,
    maxUses: int,
    nonce: Id,
    audience: Id,
    epochs: EpochSet)

  datatype SignedToken = SignedToken(token: Token, mac: Id)

  datatype Code =
    | SchemaInvalid | TokenInvalid | FinalBindingFailed | AudienceMismatch | Expired | EpochStale | TokenReplay
    | EnforcementDenied | ExecutionFailed | ApprovalRequired | ApprovalExpired
    | ContainmentRestricted | ContainmentQuarantined | ContainmentTerminated | Upstream(reason: Id)

  // ---------------------------------------------------------------------------
  // Authority
  // ---------------------------------------------------------------------------

  /** Everything that goes into one issued token; `decisionId`, `nonce` and `mac` are drawn fresh. */
  datatype Order = Order(
    action: AgentAction, binding: Binding, audience: Id, policyHash: Id, epochs: EpochSet, effect: Effect, risk: int,
    containment: Ladder.State, requestId: Id, maxUses: int, ttl: int, now: int, decisionId: Id, nonce: Id, mac: Id)

  function Issue(h: Hash, o: Order): Result<SignedToken, Code> {
    if o.maxUses < 1 || o.ttl <= 0 then Err(SchemaInvalid)
    else Ok(SignedToken(
      Token(3, o.decisionId, o.requestId, o.binding, h(o.action), o.action.actionType, o.action.target,
            o.action.operation, o.action.payloadHash, o.policyHash, o.risk, o.containment, o.effect,
            o.now, o.now + o.ttl, o.maxUses, o.nonce, o.audience, o.epochs),
      o.mac))
  }

  // ---------------------------------------------------------------------------
  // Validator
  // ---------------------------------------------------------------------------

  /** What the enforcement point observed. */
  datatype Observation = Observation(action: AgentAction, binding: Binding, audience: Id, now: int)

  /** The checks on a genuine token, in order; the first failing one decides. */
  function Defect(t: Token, actionHash: Id, o: Observation, epochs: EpochSet): Option<Code> {
    if t.version != 3 then Some(TokenInvalid)
    else if t.actionHash != actionHash then Some(FinalBindingFailed)
    else if t.actionType != o.action.actionType then Some(TokenInvalid)
    else if t.binding != o.binding then Some(TokenInvalid)
    else if t.audience != o.audience then Some(AudienceMismatch)
    else if o.now < t.notBefore || o.now >= t.expiresAt then Some(Expired)
    else if t.epochs != epochs then Some(EpochStale)
    else if t.target != o.action.target then Some(FinalBindingFailed)
    else if t.operation.Some? && t.operation != o.action.operation then Some(FinalBindingFailed)
    else if t.payloadHash != o.action.payloadHash then Some(FinalBindingFailed)
    else None
  }

  function UsesOf(uses: map<Id, int>, nonce: Id): int {
    if nonce in uses then uses[nonce] else 0
  }

  /** The gateway state that mediation reads and writes. */
  datatype Gateway = Gateway(
    issued: set<SignedToken>,
    presented: map<(Id, Id), SignedToken>,
    uses: map<Id, int>,
    receipts: seq<Receipt>)

  function PresentTo(g: Gateway, signed: SignedToken): Gateway {
    g.(presented := g.presented[(signed.token.audience, signed.token.actionHash) := signed])
  }

  /** The token found and accepted for an observation, or the error raised. */
  function Authorize(h: Hash, g: Gateway, epochs: EpochSet, o: Observation): Result<SignedToken, Code> {
    var key := (o.audience, h(o.action));
    if key !in g.presented then Err(TokenInvalid) else
    var signed := g.presented[key];
    if signed !in g.issued then Err(TokenInvalid) else
    var defect := Defect(signed.token, h(o.action), o, epochs);
    if defect.Some? then Err(defect.value)
    else if UsesOf(g.uses, signed.token.nonce) >= signed.token.maxUses then Err(TokenReplay)
    else Ok(signed)
  }

  function Consume(g: Gateway, nonce: Id): Gateway {
    g.(uses := g.uses[nonce := UsesOf(g.uses, nonce) + 1])
  }

  /** What the validator returns to the broker. */
  datatype Decision = Decision(
    decisionId: Id, effect: Effect, actionHash: Id, target: Id, operation: Option<Id>, payloadHash: Option<Id>,
        audience: Id)

  function DecisionOf(t: Token): Decision {
    Decision(t.decisionId, t.effect, t.actionHash, t.target, t.operation, t.payloadHash, t.audience)
  }

  // ---------------------------------------------------------------------------
  // Broker
  // ---------------------------------------------------------------------------

  datatype Verdict = Executed | Denied | Failed

  datatype Receipt = Receipt(
    decisionId: Option<Id>, actionHash: Id, actionType: Id, target: Id, operation: Option<Id>, audience: Id,
    verdict: Verdict, error: Option<Code>, resultHash: Option<Id>)

  /** What the effect does when it is run. */
  datatype Effecting = Succeeds(resultHash: Option<Id>) | Raises(code: Code)

  /** The broker's own re-check at the boundary. */
  predicate ExactMatch(action: AgentAction, actionHash: Id, d: Decision) {
    && d.actionHash == actionHash
    && d.target == action.target
    && (d.operation.Some? ==> d.operation == action.operation)
    && (d.payloadHash.Some? ==> d.payloadHash == action.payloadHash)
  }

  function Emit(g: Gateway, h: Hash, o: Observation, decisionId: Option<Id>, v: Verdict, error: Option<Code>,
                result: Option<Id>): Gateway {
    g.(receipts := g.receipts +
       [Receipt(decisionId, h(o.action), o.action.actionType, o.action.target, o.action.operation, o.audience, v, error,
           result)])
  }

  /** One mediation of an observed action. */
  function Mediate(h: Hash, g: Gateway, epochs: EpochSet, o: Observation,
                   run: Effecting): (Gateway, Result<Decision, Code>) {
    var found := Authorize(h, g, epochs, o);
    if found.Err? then (Emit(g, h, o, None, Denied, Some(found.error), None), Err(found.error)) else
    var d := DecisionOf(found.value.token);
    var used := Consume(g, found.value.token.nonce);
    if !ExactMatch(o.action, h(o.action), d) then (used, Err(FinalBindingFailed))
    else if d.effect != Allow
    then (Emit(used, h, o, Some(d.decisionId), Denied, Some(EnforcementDenied), None), Err(EnforcementDenied))
    else match run
    case Raises(code) => (Emit(used, h, o, Some(d.decisionId), Failed, Some(code), None), Err(code))
    case Succeeds(result) => (Emit(used, h, o, Some(d.decisionId), Executed, None, result), Ok(d))
  }

  /** A token the validator accepts always passes the boundary re-check. */
  lemma RecheckNeverFires(h: Hash, g: Gateway, epochs: EpochSet, o: Observation)
    requires Authorize(h, g, epochs, o).Ok?
    ensures ExactMatch(o.action, h(o.action), DecisionOf(Authorize(h, g, epochs, o).value.token))
  {
  }

  /**
    Round trip: an issued and presented token authorises the action it was issued for exactly while its holder is
    observed, its window is open, its epochs are current and a use is left; each failure has its own code.
   */
  lemma IssuedTokenAcceptedIff(h: Hash, g: Gateway, order: Order, epochs: EpochSet, binding: Binding, now: int)
    requires Issue(h, order).Ok?
    ensures var signed := Issue(h, order).value;
            var ready := PresentTo(g.(issued := g.issued + {signed}), signed);
            var found := Authorize(h, ready, epochs, Observation(order.action, binding, order.audience, now));
            var held, timely := binding == order.binding, order.now <= now < order.now + order.ttl;
            && (found.Ok? <==> held && timely && epochs == order.epochs && UsesOf(g.uses, order.nonce) < order.maxUses)
            && (found.Ok? ==> found.value == signed)
            && (found == Err(TokenInvalid) <==> !held)
            && (found == Err(Expired) <==> held && !timely)
            && (found == Err(EpochStale) <==> held && timely && epochs != order.epochs)
            && (found == Err(TokenReplay) <==>
                  held && timely && epochs == order.epochs && UsesOf(g.uses, order.nonce) >= order.maxUses)
  {
  }

  /** Issuing is refused exactly for an empty use limit or lifetime; the token carries what was ordered. */
  lemma IssuedAsOrdered(h: Hash, o: Order)
    ensures Issue(h, o).Ok? <==> o.maxUses >= 1 && o.ttl >= 1
    ensures Issue(h, o).Ok? ==>
              var t := Issue(h, o).value.token;
              && t.decisionId == o.decisionId && t.nonce == o.nonce && t.requestId == o.requestId
              && t.binding == o.binding && t.audience == o.audience && t.policyHash == o.policyHash
              && t.actionHash == h(o.action) && t.actionType == o.action.actionType && t.target == o.action.target
              && t.operation == o.action.operation && t.payloadHash == o.action.payloadHash
              && t.risk == o.risk && t.containment == o.containment && t.effect == o.effect && t.epochs == o.epochs
              && t.notBefore == o.now && t.expiresAt - t.notBefore == o.ttl && t.maxUses == o.maxUses && t.version == 3
              && Issue(h, o).value.mac == o.mac
  {
  }

  /** Without a presented token of the authority there is no authorisation. */
  lemma ForeignTokenRefused(h: Hash, g: Gateway, epochs: EpochSet, o: Observation)
    requires forall signed | signed in g.issued :: ((o.audience, h(o.action)), signed) !in g.presented.Items
    ensures Authorize(h, g, epochs, o) == Err(TokenInvalid)
  {
    var key := (o.audience, h(o.action));
    if key in g.presented { assert (key, g.presented[key]) in g.presented.Items; }
  }

  /**
    Every mediation of an observed action leaves exactly one receipt. It describes the observed action, names the token
    iff a use was spent, tells executed, failed and denied apart, and carries the code or the result; the caller gets
    the same code, or the decision iff the action was executed.
   */
  lemma OneReceiptPerMediation(h: Hash, g: Gateway, epochs: EpochSet, o: Observation, run: Effecting)
    ensures var found, (after, answer) := Authorize(h, g, epochs, o), Mediate(h, g, epochs, o, run);
            && |after.receipts| == |g.receipts| + 1 && after.receipts[..|g.receipts|] == g.receipts
            && var r := after.receipts[|g.receipts|];
            && r.decisionId == (if found.Ok? then Some(found.value.token.decisionId) else None)
            && after.uses == (if found.Ok? then Consume(g, found.value.token.nonce).uses else g.uses)
            && r.actionHash == h(o.action) && r.actionType == o.action.actionType && r.target == o.action.target
            && r.operation == o.action.operation && r.audience == o.audience
            && var allowed := found.Ok? && found.value.token.effect == Allow;
            && (r.verdict == Executed <==> allowed && run.Succeeds?)
            && (r.verdict == Failed <==> allowed && run.Raises?)
            && (r.verdict == Denied <==> !allowed)
            && r.resultHash == (if allowed && run.Succeeds? then run.resultHash else None)
            && r.error == (if found.Err? then Some(found.error)
                           else if !allowed then Some(EnforcementDenied)
                           else if run.Raises? then Some(run.code) else None)
            && (answer.Ok? <==> r.verdict == Executed)
            && (answer.Ok? ==> answer.value == DecisionOf(found.value.token))
            && (answer.Err? ==> r.error == Some(answer.error))
  {
    if Authorize(h, g, epochs, o).Ok? {
      RecheckNeverFires(h, g, epochs, o);
    }
  }

  // ---------------------------------------------------------------------------
  // The objects
  // ---------------------------------------------------------------------------

  class DecisionTokenAuthority {
    const h: Hash
    var issued: set<SignedToken>

    constructor (h: Hash)
      ensures this.h == h && issued == {}
    {
      this.h := h;
      issued := {};
    }

    method IssueToken(o: Order) returns (r: Result<SignedToken, Code>)
      modifies this`issued
      ensures r == Issue(h, o)
      ensures issued == if r.Ok? then old(issued) + {r.value} else old(issued)
    {
      if o.maxUses < 1 { return Err(SchemaInvalid); }
      if o.ttl <= 0 { return Err(SchemaInvalid); }
      var token := Token(3, o.decisionId, o.requestId, o.binding, h(o.action), o.action.actionType, o.action.target,
                         o.action.operation, o.action.payloadHash, o.policyHash, o.risk, o.containment, o.effect,
                         o.now, o.now + o.ttl, o.maxUses, o.nonce, o.audience, o.epochs);
      var signed := SignedToken(token, o.mac);
      issued := issued + {signed};
      return Ok(signed);
    }
  }

  class PresentedTokenStore {
    var byKey: map<(Id, Id), SignedToken>

    constructor ()
      ensures byKey == map[]
    {
      byKey := map[];
    }

    method Present(signed: SignedToken)
      modifies this
      ensures byKey == old(byKey)[(signed.token.audience, signed.token.actionHash) := signed]
    {
      byKey := byKey[(signed.token.audience, signed.token.actionHash) := signed];
    }
  }

  class TokenUseTracker {
    var counts: map<Id, int>

    constructor ()
      ensures counts == map[]
    {
      counts := map[];
    }

    method ConsumeUse(nonce: Id, maxUses: int) returns (ok: bool)
      modifies this
      ensures ok <==> UsesOf(old(counts), nonce) < maxUses
      ensures counts == if ok then old(counts)[nonce := UsesOf(old(counts), nonce) + 1] else old(counts)
    {
      var used := if nonce in counts then counts[nonce] else 0;
      if used >= maxUses { return false; }
      counts := counts[nonce := used + 1];
      return true;
    }
  }

  class DecisionTokenValidator {
    const authority: DecisionTokenAuthority
    const source: EpochSource
    const store: PresentedTokenStore
    const tracker: TokenUseTracker

    constructor (authority: DecisionTokenAuthority, source: EpochSource, store: PresentedTokenStore,
                 tracker: TokenUseTracker)
      ensures this.authority == authority && this.source == source && this.store == store && this.tracker == tracker
    {
      this.authority, this.source, this.store, this.tracker := authority, source, store, tracker;
    }

    ghost function Value(receipts: seq<Receipt>): Gateway
      reads authority, store, tracker
    {
      Gateway(authority.issued, store.byKey, tracker.counts, receipts)
    }

    method AuthorizeAction(o: Observation, actionHash: Id, ghost receipts: seq<Receipt>)
      returns (r: Result<Token, Code>)
      requires actionHash == authority.h(o.action)
      modifies tracker
      ensures match Authorize(authority.h, old(Value(receipts)), source.epochs, o)
              case Err(code) => r == Err(code) && Value(receipts) == old(Value(receipts))
              case Ok(signed) =>
                && r == Ok(signed.token)
                && Value(receipts) == Consume(old(Value(receipts)), signed.token.nonce)
    {
      if (o.audience, actionHash) !in store.byKey { return Err(TokenInvalid); }
      var signed := store.byKey[(o.audience, actionHash)];
      var token := signed.token;
      if signed !in authority.issued { return Err(TokenInvalid); }
      if token.version != 3 { return Err(TokenInvalid); }
      if token.actionHash != actionHash { return Err(FinalBindingFailed); }
      if token.actionType != o.action.actionType { return Err(TokenInvalid); }
      if token.binding.agent != o.binding.agent || token.binding.runtime != o.binding.runtime
          || token.binding.session != o.binding.session {
        return Err(TokenInvalid);
      }
      if token.audience != o.audience { return Err(AudienceMismatch); }
      if o.now < token.notBefore { return Err(Expired); }
      if o.now >= token.expiresAt { return Err(Expired); }
      if token.epochs != source.epochs { return Err(EpochStale); }
      if token.target != o.action.target { return Err(FinalBindingFailed); }
      if token.operation.Some? && token.operation != o.action.operation { return Err(FinalBindingFailed); }
      if token.payloadHash != o.action.payloadHash { return Err(FinalBindingFailed); }
      var ok := tracker.ConsumeUse(token.nonce, token.maxUses);
      if !ok { return Err(TokenReplay); }
      return Ok(token);
    }
  }

  class EnforcementBroker {
    const validator: DecisionTokenValidator
    const audience: Id
    var receipts: seq<Receipt>

    constructor (validator: DecisionTokenValidator, audience: Id)
      ensures this.validator == validator && this.audience == audience && receipts == []
    {
      this.validator, this.audience := validator, audience;
      receipts := [];
    }

    ghost function Value(): Gateway
      reads this, validator.authority, validator.store, validator.tracker
    {
      validator.Value(receipts)
    }

    method EmitReceipt(o: Observation, decisionId: Option<Id>, v: Verdict, error: Option<Code>, result: Option<Id>)
      modifies this
      ensures Value() == Emit(old(Value()), validator.authority.h, o, decisionId, v, error, result)
    {
      var a := o.action;
      receipts := receipts +
        [Receipt(decisionId, validator.authority.h(a), a.actionType, a.target, a.operation, o.audience, v, error,
            result)];
    }

    /** Mediates an observed action; `run` is what its effect will do. */
    method MediateAction(action: AgentAction, binding: Binding, now: int, run: Effecting)
      returns (r: Result<Decision, Code>)
      modifies this, validator.tracker
      ensures (Value(), r) == Mediate(validator.authority.h, old(Value()), validator.source.epochs,
                                      Observation(action, binding, audience, now), run)
    {
      var o := Observation(action, binding, audience, now);
      var actionHash := validator.authority.h(action);
      var found := validator.AuthorizeAction(o, actionHash, receipts);
      if found.Err? {
        EmitReceipt(o, None, Denied, Some(found.error), None);
        return Err(found.error);
      }
      var d := DecisionOf(found.value);
      if !ExactMatch(action, actionHash, d) { return Err(FinalBindingFailed); }
      if d.effect != Allow {
        EmitReceipt(o, Some(d.decisionId), Denied, Some(EnforcementDenied), None);
        return Err(EnforcementDenied);
      }
      match run
      case Raises(code) =>
        EmitReceipt(o, Some(d.decisionId), Failed, Some(code), None);
        return Err(code);
      case Succeeds(result) =>
        EmitReceipt(o, Some(d.decisionId), Executed, None, result);
        return Ok(d);
    }
  }
}
