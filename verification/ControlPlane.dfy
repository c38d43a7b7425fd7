/**
  The control plane: containment gate, policy, parking for approval, minting and presenting.
  Request verification, the replay commit, the session check and the policy decision are inputs.
 */
module ControlPlane {
  import opened Common
  import opened Ladder
  import opened Containment
  import opened Tokens
  import opened Approvals

  /** The containment subject of a binding. */
  function SubjectKey(b: Binding): Id {
    Id(b.agent.text + "|" + b.runtime.text + "|" + b.session.text)
  }

  datatype Policy = Policy(risk: int, requireApproval: bool)

  /** What is minted once the gate and, if needed, the approval are passed. */
  datatype Pending = PendingMint(action: AgentAction, binding: Binding, audience: Id, policyHash: Id, risk: int)

  datatype Entry = Entry(token: Option<SignedToken>, pending: Option<Pending>)

  /** Identifiers drawn by a call. */
  datatype Drawn = Drawn(tokenId: Id, nonce: Id, mac: Id, approvalId: Id)

  /** `upstream` is the error of an earlier check, `policy` the policy engine's answer. */
  datatype EvalRequest = EvalRequest(
    action: AgentAction, binding: Binding, audience: Id, policyHash: Id,
    upstream: Option<Code>, policy: Result<Policy, Code>, now: int, decisionId: Id, drawn: Drawn)

  datatype PlaneConfig = PlaneConfig(ttl: int, approvalTtl: int, approvalTier: int)

  datatype Core = Core(engine: Engine, approvals: map<Id, Approval>, decisions: map<Id, Entry>, gateway: Gateway)

  /** A token, or `None` when the decision was parked. */
  type Answer = Result<Option<SignedToken>, Code>

  function BlockCode(s: State): Code {
    match s
    case Quarantined => ContainmentQuarantined
    case Terminated => ContainmentTerminated
    case _ => ContainmentRestricted
  }

  function OrderFor(cfg: PlaneConfig, epochs: EpochSet, p: Pending, state: State, d: Id, drawn: Drawn,
                    now: int): Order {
    Order(p.action, p.binding, p.audience, p.policyHash, epochs, Allow, p.risk, state, d, 1, cfg.ttl, now,
          drawn.tokenId, drawn.nonce, drawn.mac)
  }

  /** Mints under the current epochs, presents the token and records the decision. */
  function MintToken(h: Hash, cfg: PlaneConfig, c: Core, p: Pending, state: State, d: Id, drawn: Drawn,
                     now: int): (Core, Answer) {
    match Issue(h, OrderFor(cfg, c.engine.epochs, p, state, d, drawn, now))
    case Err(code) => (c, Err(code))
    case Ok(signed) =>
      (c.(gateway := PresentTo(c.gateway.(issued := c.gateway.issued + {signed}), signed),
          decisions := c.decisions[d := Entry(Some(signed), None)]),
       Ok(Some(signed)))
  }

  function PendingOf(r: EvalRequest, risk: int): Pending {
    PendingMint(r.action, r.binding, r.audience, r.policyHash, risk)
  }

  /** The record filed for a request that needs approval. */
  function RequestedFor(h: Hash, cfg: PlaneConfig, r: EvalRequest): Approval
    requires r.policy.Ok?
  {
    Requested(r.drawn.approvalId, r.binding.agent, h(r.action), r.policy.value.risk, r.action.classification, r.now,
              cfg.approvalTtl)
  }

  function EvaluateAction(h: Hash, cfg: PlaneConfig, c: Core, r: EvalRequest): (Core, Answer) {
    if r.upstream.Some? then (c, Err(r.upstream.value)) else
    var state := StateOf(c.engine, SubjectKey(r.binding));
    if Blocks(state) then (c, Err(BlockCode(state)))
    else if r.policy.Err? then (c, Err(r.policy.error))
    else if r.policy.value.requireApproval || r.policy.value.risk >= cfg.approvalTier then
      (c.(approvals := c.approvals[r.decisionId := RequestedFor(h, cfg, r)],
          decisions := c.decisions[r.decisionId := Entry(None, Some(PendingOf(r, r.policy.value.risk)))]),
       Ok(None))
    else MintToken(h, cfg, c, PendingOf(r, r.policy.value.risk), state, r.decisionId, r.drawn, r.now)
  }

  function ApproveDecision(h: Hash, cfg: PlaneConfig, c: Core, d: Id, approver: Id, now: int,
                           drawn: Drawn): (Core, Answer) {
    if d !in c.decisions || c.decisions[d].pending.None? then (c, Err(ApprovalRequired)) else
    var p := c.decisions[d].pending.value;
    var decided := Decide(Find(c.approvals, d), Granted, approver, None, now);
    if decided.Err? then (c, Err(decided.error)) else
    var granted := c.(approvals := c.approvals[d := decided.value]);
    var confirmed := AssertGranted(Find(granted.approvals, d), now);
    if confirmed.Err? then (granted, Err(confirmed.error)) else
    var state := StateOf(granted.engine, SubjectKey(p.binding));
    if Blocks(state) then (granted, Err(BlockCode(state)))
    else MintToken(h, cfg, granted, p, state, d, drawn, now)
  }

  function DenyDecision(c: Core, d: Id, approver: Id, reason: Option<Id>, now: int): (Core, Result<Approval, Code>) {
    var decided := Decide(Find(c.approvals, d), Refused, approver, reason, now);
    (if decided.Ok? then c.(approvals := c.approvals[d := decided.value]) else c, decided)
  }

  // ---------------------------------------------------------------------------
  // What the plane answers
  // ---------------------------------------------------------------------------

  /** An evaluation mints or parks exactly when nothing upstream, no containment and no policy error is in the way. */
  lemma EvaluateAnswers(h: Hash, cfg: PlaneConfig, c: Core, r: EvalRequest)
    ensures var a, s := EvaluateAction(h, cfg, c, r).1, StateOf(c.engine, SubjectKey(r.binding));
            var open := r.upstream == None && s in {Normal, Suspicious, Restricted};
            var needs := r.policy.Ok? && (r.policy.value.requireApproval || r.policy.value.risk >= cfg.approvalTier);
            && (a == Ok(None) <==> open && needs)
            && (a.Ok? && a.value.Some? <==> open && r.policy.Ok? && !needs && cfg.ttl >= 1)
            && (r.upstream.Some? ==> a == Err(r.upstream.value))
            && (r.upstream == None && s == Quarantined ==> a == Err(ContainmentQuarantined))
            && (r.upstream == None && s == Terminated ==> a == Err(ContainmentTerminated))
            && (open && r.policy.Err? ==> a == Err(r.policy.error))
            && (a.Err? ==> EvaluateAction(h, cfg, c, r).0 == c)
  {
  }

  /** An approval mints exactly for a parked decision with a pending, unexpired record and an unblocked subject. */
  lemma ApproveAnswers(h: Hash, cfg: PlaneConfig, c: Core, d: Id, approver: Id, now: int, drawn: Drawn)
    ensures var (n, a) := ApproveDecision(h, cfg, c, d, approver, now, drawn);
            var parked := d in c.decisions && c.decisions[d].pending.Some?;
            var decidable := parked && d in c.approvals && c.approvals[d].state == Pending;
            var granted := decidable && now < c.approvals[d].expiresAt;
            && (a.Ok? <==> granted && cfg.ttl >= 1
                           && StateOf(c.engine, SubjectKey(c.decisions[d].pending.value.binding))
                              in {Normal, Suspicious, Restricted})
            && (a.Ok? ==> a.value.Some?)
            && (!decidable ==> a == Err(ApprovalRequired))
            && (decidable && !granted ==> a == Err(ApprovalExpired))
            && (!granted ==> n == c)
            && (granted && StateOf(c.engine, SubjectKey(c.decisions[d].pending.value.binding)) == Quarantined ==>
                  a == Err(ContainmentQuarantined))
            && (granted && StateOf(c.engine, SubjectKey(c.decisions[d].pending.value.binding)) == Terminated ==>
                  a == Err(ContainmentTerminated))
            && (granted ==>
                  d in n.approvals && n.approvals[d].state == Granted && n.approvals[d].approver == Some(approver))
  {
  }

  /** A denial succeeds exactly for a pending, unexpired record; it is stored, and nothing else changes. */
  lemma DenialAnswers(c: Core, d: Id, approver: Id, reason: Option<Id>, now: int)
    ensures var (n, a) := DenyDecision(c, d, approver, reason, now);
            && (a.Ok? <==> d in c.approvals && c.approvals[d].state == Pending && now < c.approvals[d].expiresAt)
            && (a.Ok? ==>
                  && a.value.state == Refused && a.value.approver == Some(approver) && a.value.decidedAt == Some(now)
                  && a.value.reason == reason && n == c.(approvals := c.approvals[d := a.value]))
            && (a.Err? ==> n == c)
            && (a == Err(ApprovalExpired) <==>
                  d in c.approvals && c.approvals[d].state == Pending && now >= c.approvals[d].expiresAt)
  {
  }

  function Bars(s: string): nat {
    if s == "" then 0 else Bars(s[..|s| - 1]) + if s[|s| - 1] == '|' then 1 else 0
  }

  lemma {:induction false} BarsAdd(s: string, t: string)
    ensures Bars(s + t) == Bars(s) + Bars(t)
  {
    if t == "" {
      assert s + t == s;
    } else {
      BarsAdd(s, t[..|t| - 1]);
      assert (s + t)[..|s + t| - 1] == s + t[..|t| - 1];
    }
  }

  lemma {:induction false} BarsIff(s: string)
    ensures Bars(s) == 0 <==> '|' !in s
  {
    if s != "" {
      BarsIff(s[..|s| - 1]);
      assert s == s[..|s| - 1] + [s[|s| - 1]];
    }
  }

  ghost predicate Barless(b: Binding) {
    '|' !in b.agent.text && '|' !in b.runtime.text && '|' !in b.session.text
  }

  lemma KeyBars(b: Binding)
    ensures Bars(SubjectKey(b).text) == Bars(b.agent.text) + Bars(b.runtime.text) + Bars(b.session.text) + 2
    ensures Barless(b) <==> Bars(SubjectKey(b).text) == 2
  {
    var x := b.runtime.text + "|" + b.session.text;
    assert SubjectKey(b).text == b.agent.text + "|" + x;
    BarsAdd(b.agent.text + "|", x);
    BarsAdd(b.agent.text, "|");
    BarsAdd(b.runtime.text + "|", b.session.text);
    BarsAdd(b.runtime.text, "|");
    assert "|"[..0] == "" && Bars("|") == 1;
    BarsIff(b.agent.text);
    BarsIff(b.runtime.text);
    BarsIff(b.session.text);
  }

  lemma SplitsAtBar(a: string, x: string, b: string, y: string)
    requires '|' !in a && '|' !in b && a + "|" + x == b + "|" + y
    ensures a == b && x == y
  {
    var s, t := a + "|" + x, b + "|" + y;
    assert s[|a|] == '|' && t[|b|] == '|';
    assert forall i | 0 <= i < |a| :: s[i] == a[i] && a[i] in a;
    assert forall i | 0 <= i < |b| :: t[i] == b[i] && b[i] in b;
    assert |a| == |b|;
    assert s[..|a|] == a && t[..|b|] == b && s[|a| + 1..] == x && t[|b| + 1..] == y;
  }

  lemma BarlessKeysDiffer(a: Binding, b: Binding)
    requires Barless(a) && Barless(b) && SubjectKey(a) == SubjectKey(b)
    ensures a == b
  {
    var x, y := a.runtime.text + "|" + a.session.text, b.runtime.text + "|" + b.session.text;
    assert SubjectKey(a).text == a.agent.text + "|" + x && SubjectKey(b).text == b.agent.text + "|" + y;
    SplitsAtBar(a.agent.text, x, b.agent.text, y);
    SplitsAtBar(a.runtime.text, a.session.text, b.runtime.text, b.session.text);
  }

  lemma Resplit(s: string, i: nat)
    requires i < |s| && s[i] == '|'
    ensures s == s[..i] + "|" + s[i + 1..] && |s[..i]| < |s|
  {
  }

  /** Four parts between three separators can be read as three in more than one way. */
  lemma Regroup(a: string, b: string, c: string, d: string)
    ensures a + "|" + b + "|" + c + "|" + d == a + "|" + (b + "|" + c) + "|" + d
    ensures a + "|" + b + "|" + c + "|" + d == a + "|" + b + "|" + (c + "|" + d)
  {
  }

  /** A binding with a separator in one part shares its key with another one. */
  lemma Twin(a: Binding) returns (b: Binding)
    requires !Barless(a)
    ensures b != a && SubjectKey(b) == SubjectKey(a)
  {
    if '|' in a.agent.text {
      b := TwinOfAgent(a);
    } else if '|' in a.runtime.text {
      b := TwinOfRuntime(a);
    } else {
      b := TwinOfSession(a);
    }
  }

  lemma TwinOfAgent(a: Binding) returns (b: Binding)
    requires '|' in a.agent.text
    ensures b != a && SubjectKey(b) == SubjectKey(a)
  {
    var x := a.agent.text;
    var i :| 0 <= i < |x| && x[i] == '|';
    Resplit(x, i);
    Regroup(x[..i], x[i + 1..], a.runtime.text, a.session.text);
    b := Binding(Id(x[..i]), Id(x[i + 1..] + "|" + a.runtime.text), a.session);
  }

  lemma TwinOfRuntime(a: Binding) returns (b: Binding)
    requires '|' in a.runtime.text
    ensures b != a && SubjectKey(b) == SubjectKey(a)
  {
    var y := a.runtime.text;
    var i :| 0 <= i < |y| && y[i] == '|';
    Resplit(y, i);
    Regroup(a.agent.text, y[..i], y[i + 1..], a.session.text);
    b := Binding(a.agent, Id(y[..i]), Id(y[i + 1..] + "|" + a.session.text));
  }

  lemma TwinOfSession(a: Binding) returns (b: Binding)
    requires '|' in a.session.text
    ensures b != a && SubjectKey(b) == SubjectKey(a)
  {
    var z := a.session.text;
    var i :| 0 <= i < |z| && z[i] == '|';
    Resplit(z, i);
    Regroup(a.agent.text, a.runtime.text, z[..i], z[i + 1..]);
    b := Binding(a.agent, Id(a.runtime.text + "|" + z[..i]), Id(z[i + 1..]));
  }

  /** A containment subject belongs to one agent, runtime and session exactly when none of them holds the separator. */
  lemma SubjectIsOwnIff(a: Binding)
    ensures (forall b | SubjectKey(b) == SubjectKey(a) :: b == a) <==> Barless(a)
  {
    if Barless(a) {
      forall b | SubjectKey(b) == SubjectKey(a) ensures b == a {
        KeyBars(a);
        KeyBars(b);
        BarlessKeysDiffer(a, b);
      }
    } else {
      var b := Twin(a);
    }
  }

  class ControlPlane {
    const cfg: PlaneConfig
    const containment: ContainmentEngine
    const approvals: ApprovalStore
    const authority: DecisionTokenAuthority
    const store: PresentedTokenStore
    var decisions: map<Id, Entry>

    ghost predicate Valid()
      reads this, approvals
    {
      approvals.Valid() && approvals.ttl == cfg.approvalTtl
    }

    /** The shared state, given the parts of the gateway the plane does not hold. */
    ghost function Value(uses: map<Id, int>, receipts: seq<Receipt>): Core
      requires Valid()
      reads this, containment, containment.source, approvals, authority, store
    {
      Core(containment.Value(), approvals.Value(), decisions, Gateway(authority.issued, store.byKey, uses, receipts))
    }

    constructor (cfg: PlaneConfig, containment: ContainmentEngine, approvals: ApprovalStore,
                 authority: DecisionTokenAuthority, store: PresentedTokenStore)
      requires approvals.Valid() && approvals.ttl == cfg.approvalTtl
      ensures Valid() && decisions == map[] && this.cfg == cfg && this.containment == containment
      ensures this.approvals == approvals && this.authority == authority && this.store == store
    {
      this.cfg, this.containment, this.approvals, this.authority, this.store :=
          cfg, containment, approvals, authority, store;
      decisions := map[];
    }

    method CurrentState(subject: Id) returns (s: State)
      ensures s == StateOf(containment.Value(), subject)
    {
      s := if subject in containment.subjects then containment.subjects[subject].state else Normal;
    }

    method BlocksNewTokens(subject: Id) returns (blocked: bool)
      ensures blocked == Blocks(StateOf(containment.Value(), subject))
    {
      var s := CurrentState(subject);
      blocked := Blocks(s);
    }

    method Mint(p: Pending, state: State, d: Id, drawn: Drawn, now: int, ghost uses: map<Id, int>,
                ghost receipts: seq<Receipt>)
      returns (a: Answer)
      requires Valid()
      modifies this, authority, store
      ensures Valid()
      ensures (Value(uses, receipts), a)
          == MintToken(authority.h, cfg, old(Value(uses, receipts)), p, state, d, drawn, now)
    {
      var order := Order(p.action, p.binding, p.audience, p.policyHash, containment.source.epochs, Allow, p.risk, state,
                         d, 1, cfg.ttl, now, drawn.tokenId, drawn.nonce, drawn.mac);
      var issued := authority.IssueToken(order);
      if issued.Err? { return Err(issued.error); }
      store.Present(issued.value);
      decisions := decisions[d := Entry(Some(issued.value), None)];
      return Ok(Some(issued.value));
    }

    method Evaluate(r: EvalRequest, ghost uses: map<Id, int>, ghost receipts: seq<Receipt>) returns (a: Answer)
      requires Valid() && r.drawn.approvalId !in approvals.byId
      modifies this, approvals, authority, store
      ensures Valid()
      ensures (Value(uses, receipts), a) == EvaluateAction(authority.h, cfg, old(Value(uses, receipts)), r)
    {
      if r.upstream.Some? { return Err(r.upstream.value); }
      var state := CurrentState(SubjectKey(r.binding));
      var blocked := BlocksNewTokens(SubjectKey(r.binding));
      if blocked { return Err(BlockCode(state)); }
      if r.policy.Err? { return Err(r.policy.error); }
      var risk := r.policy.value.risk;
      if r.policy.value.requireApproval || risk >= cfg.approvalTier {
        approvals.Request(r.decisionId, r.drawn.approvalId, r.binding.agent, authority.h(r.action), risk,
            r.action.classification, None, r.now);
        decisions := decisions[r.decisionId := Entry(None, Some(PendingOf(r, risk)))];
        return Ok(None);
      }
      a := Mint(PendingOf(r, risk), state, r.decisionId, r.drawn, r.now, uses, receipts);
    }

    method Approve(d: Id, approver: Id, now: int, drawn: Drawn, ghost uses: map<Id, int>,
                   ghost receipts: seq<Receipt>) returns (a: Answer)
      requires Valid()
      modifies this, approvals, authority, store
      ensures Valid()
      ensures (Value(uses, receipts), a)
          == ApproveDecision(authority.h, cfg, old(Value(uses, receipts)), d, approver, now, drawn)
    {
      if d !in decisions { return Err(ApprovalRequired); }
      var pending := decisions[d].pending;
      if pending.None? { return Err(ApprovalRequired); }
      var decided := approvals.DecideOn(d, Granted, approver, None, now);
      if decided.Err? { return Err(decided.error); }
      var confirmed := approvals.RequireGranted(d, now);
      if confirmed.Err? { return Err(confirmed.error); }
      var state := CurrentState(SubjectKey(pending.value.binding));
      var blocked := BlocksNewTokens(SubjectKey(pending.value.binding));
      if blocked { return Err(BlockCode(state)); }
      a := Mint(pending.value, state, d, drawn, now, uses, receipts);
    }

    method DenyApproval(d: Id, approver: Id, reason: Option<Id>, now: int, ghost uses: map<Id, int>,
                        ghost receipts: seq<Receipt>)
      returns (r: Result<Approval, Code>)
      requires Valid()
      modifies approvals
      ensures Valid()
      ensures (Value(uses, receipts), r) == DenyDecision(old(Value(uses, receipts)), d, approver, reason, now)
    {
      r := approvals.DecideOn(d, Refused, approver, reason, now);
    }
  }
}
