/**
  Agent identity and key lifecycle registry, with the key checks of request verification.
 */
module KeyRegistry {
  import opened Common

  datatype KeyState = Prepared | Active | Retired | Revoked

  /** No handle means verify-only. */
  datatype Key = Key(
    agent: Id,
    publicKey: Id,
    state: KeyState,
    notBefore: int,
    notAfter: Option<int>,
    handle: Option<Id>,
    revokedAt: Option<int>,
    reason: Option<Id>)
  {
    predicate WithinWindow(now: int) {
      notBefore <= now && (notAfter.Some? ==> now < notAfter.value)
    }
  }

  datatype Code = AgentUnknown | AgentDisabled | SchemaInvalid | KeyUnknown | KeyRevoked | MldsaInvalid

  /** `agents` maps an agent to whether it is enabled; `order` is the key dictionary's insertion order. */
  datatype Registry = Registry(agents: map<Id, bool>, keys: map<Id, Key>, order: seq<Id>)

  const EMPTY := Registry(map[], map[], [])

  function RequireAgent(agents: map<Id, bool>, a: Id): Result<bool, Code> {
    if a !in agents then Err(AgentUnknown)
    else if !agents[a] then Err(AgentDisabled)
    else Ok(true)
  }

  predicate OtherActive(k: Id, key: Key, agent: Id, keep: Id) {
    key.agent == agent && key.state.Active? && k != keep
  }

  function RetireOthers(keys: map<Id, Key>, agent: Id, keep: Id): map<Id, Key> {
    map k | k in keys :: if OtherActive(k, keys[k], agent, keep) then keys[k].(state := Retired) else keys[k]
  }

  predicate Live(key: Key, agent: Id) {
    key.agent == agent && !key.state.Revoked?
  }

  function Revoking(key: Key, now: int, reason: Option<Id>): Key {
    key.(state := Revoked, revokedAt := Some(now), reason := reason)
  }

  function RevokeAll(keys: map<Id, Key>, agent: Id, now: int, reason: Option<Id>): map<Id, Key> {
    map k | k in keys :: if Live(keys[k], agent) then Revoking(keys[k], now, reason) else keys[k]
  }

  /** Overwriting a dictionary entry keeps its position. */
  function Position(order: seq<Id>, keys: map<Id, Key>, k: Id): seq<Id> {
    if k in keys then order else order + [k]
  }

  datatype Op =
    | RegisterAgent(agent: Id)
    | DisableAgent(agent: Id)
    | Generate(agent: Id, state: KeyState, notBefore: int, notAfter: Option<int>, handle: Id, publicKey: Id, key: Id)
    | Import(agent: Id, state: KeyState, notBefore: int, notAfter: Option<int>, publicKey: Id, key: Id)
    | Activate(key: Id)
    | Revoke(key: Id, now: int, reason: Option<Id>)
    | RevokeAgent(agent: Id, now: int, reason: Option<Id>)

  /** The error a call raises, if any; a failed call changes nothing. */
  function Refusal(r: Registry, op: Op): Option<Code> {
    match op
    case RegisterAgent(_) => None
    case DisableAgent(a) => if a in r.agents then None else Some(AgentUnknown)
    case Generate(a, st, _, _, _, _, k) =>
      if RequireAgent(r.agents, a).Err? then Some(RequireAgent(r.agents, a).error)
      else if st.Revoked? || k in r.keys then Some(SchemaInvalid)
      else None
    case Import(a, _, _, _, _, _) =>
      if RequireAgent(r.agents, a).Err? then Some(RequireAgent(r.agents, a).error) else None
    case Activate(k) =>
      if k !in r.keys then Some(KeyUnknown)
      else if r.keys[k].state.Revoked? then Some(KeyRevoked)
      else if r.keys[k].handle.None? then Some(KeyUnknown)
      else None
    case Revoke(k, _, _) => if k in r.keys then None else Some(KeyUnknown)
    case RevokeAgent(_, _, _) => None
  }

  function Apply(r: Registry, op: Op): Registry {
    if Refusal(r, op).Some? then r else
    match op
    case RegisterAgent(a) => if a in r.agents then r else r.(agents := r.agents[a := true])
    case DisableAgent(a) => r.(agents := r.agents[a := false])
    case Generate(a, st, nb, na, h, pk, k) =>
      var keys := r.keys[k := Key(a, pk, st, nb, na, Some(h), None, None)];
      r.(keys := if st.Active? then RetireOthers(keys, a, k) else keys, order := r.order + [k])
    case Import(a, st, nb, na, pk, k) =>
      r.(keys := r.keys[k := Key(a, pk, st, nb, na, None, None, None)], order := Position(r.order, r.keys, k))
    case Activate(k) =>
      r.(keys := RetireOthers(r.keys[k := r.keys[k].(state := Active)], r.keys[k].agent, k))
    case Revoke(k, now, reason) => r.(keys := r.keys[k := Revoking(r.keys[k], now, reason)])
    case RevokeAgent(a, now, reason) =>
      r.(keys := RevokeAll(r.keys, a, now, reason), agents := if a in r.agents then r.agents[a := false] else r.agents)
  }

  function Run(r: Registry, ops: seq<Op>): Registry {
    if ops == [] then r else Apply(Run(r, ops[..|ops| - 1]), ops[|ops| - 1])
  }

  // ---------------------------------------------------------------------------
  // At most one signing key per agent
  // ---------------------------------------------------------------------------

  predicate Signs(key: Key, agent: Id) {
    key.agent == agent && key.state.Active? && key.handle.Some?
  }

  ghost predicate OneSigner(keys: map<Id, Key>) {
    forall k, l | k in keys && l in keys && k != l && Signs(keys[k], keys[k].agent) :: !Signs(keys[l], keys[k].agent)
  }

  ghost predicate Listed(r: Registry) {
    forall k :: k in r.order <==> k in r.keys
  }

  ghost predicate Inv(r: Registry) {
    OneSigner(r.keys) && Listed(r)
  }

  lemma ApplyKeepsInv(r: Registry, op: Op)
    requires Inv(r)
    ensures Inv(Apply(r, op))
  {
  }

  lemma {:induction false} RunKeepsInv(r: Registry, ops: seq<Op>)
    requires Inv(r)
    ensures Inv(Run(r, ops))
  {
    if ops != [] {
      RunKeepsInv(r, ops[..|ops| - 1]);
      ApplyKeepsInv(Run(r, ops[..|ops| - 1]), ops[|ops| - 1]);
    }
  }

  predicate SignsAt(key: Key, agent: Id, now: int) {
    Signs(key, agent) && key.WithinWindow(now)
  }

  /** The first matching key in the iteration order `order`. */
  function FirstSigner(keys: map<Id, Key>, order: seq<Id>, agent: Id, now: int): Option<Id> {
    if order == [] then None
    else if order[0] in keys && SignsAt(keys[order[0]], agent, now) then Some(order[0])
    else FirstSigner(keys, order[1..], agent, now)
  }

  lemma {:induction false} FirstSignerFinds(keys: map<Id, Key>, order: seq<Id>, agent: Id, now: int)
    ensures match FirstSigner(keys, order, agent, now)
            case Some(k) => k in order && k in keys && SignsAt(keys[k], agent, now)
            case None => forall k | k in order && k in keys :: !SignsAt(keys[k], agent, now)
  {
    if order != [] {
      FirstSignerFinds(keys, order[1..], agent, now);
    }
  }

  /** In every reachable registry the signing-key lookup does not depend on dictionary order. */
  lemma LookupIgnoresOrder(ops: seq<Op>, one: seq<Id>, two: seq<Id>, agent: Id, now: int)
    requires forall k :: k in one <==> k in Run(EMPTY, ops).keys
    requires forall k :: k in two <==> k in Run(EMPTY, ops).keys
    ensures FirstSigner(Run(EMPTY, ops).keys, one, agent, now) == FirstSigner(Run(EMPTY, ops).keys, two, agent, now)
  {
    var keys := Run(EMPTY, ops).keys;
    RunKeepsInv(EMPTY, ops);
    FirstSignerFinds(keys, one, agent, now);
    FirstSignerFinds(keys, two, agent, now);
  }

  // ---------------------------------------------------------------------------
  // Revoking an agent is permanent
  // ---------------------------------------------------------------------------

  /** Registered, disabled, and every key bound to it revoked. */
  ghost predicate Dead(r: Registry, agent: Id) {
    && agent in r.agents && !r.agents[agent]
    && forall k | k in r.keys && r.keys[k].agent == agent :: r.keys[k].state.Revoked?
  }

  lemma RevokeAgentKills(r: Registry, agent: Id, now: int, reason: Option<Id>)
    requires agent in r.agents
    ensures Dead(Apply(r, Op.RevokeAgent(agent, now, reason)), agent)
  {
  }

  lemma DeadStaysDead(r: Registry, op: Op, agent: Id)
    requires Dead(r, agent)
    ensures Dead(Apply(r, op), agent)
  {
  }

  lemma {:induction false} DeadForever(r: Registry, ops: seq<Op>, agent: Id)
    requires Dead(r, agent)
    ensures Dead(Run(r, ops), agent)
  {
    if ops != [] {
      DeadForever(r, ops[..|ops| - 1], agent);
      DeadStaysDead(Run(r, ops[..|ops| - 1]), ops[|ops| - 1], agent);
    }
  }

  /** The key part of request verification; `signatureOk` is the provider's answer. */
  function VerifyRequest(r: Registry, key: Id, agent: Id, now: int, signatureOk: bool): Result<bool, Code> {
    if key !in r.keys then Err(KeyUnknown)
    else if r.keys[key].agent != agent then Err(MldsaInvalid)
    else if r.keys[key].state.Revoked? then Err(KeyRevoked)
    else if r.keys[key].state.Prepared? then Err(KeyUnknown)
    else if !r.keys[key].WithinWindow(now) then Err(KeyUnknown)
    else if !signatureOk then Err(MldsaInvalid)
    else Ok(true)
  }

  /** Revoking stamps the moment and the reason on the keys it newly revokes, and changes no other key. */
  lemma RevocationStamps(r: Registry, op: Op, k: Id)
    requires k in r.keys && Refusal(r, op).None? && (op.Revoke? || op.RevokeAgent?)
    ensures var was, after := r.keys[k], Apply(r, op).keys;
            var hit := if op.Revoke? then k == op.key else was.agent == op.agent && was.state != Revoked;
            && after.Keys == r.keys.Keys
            && after[k] == if hit then Key(was.agent, was.publicKey, Revoked, was.notBefore, was.notAfter, was.handle,
                                           Some(op.now), op.reason)
                           else was
  {
  }

  predicate ShutsOut(op: Op, agent: Id) {
    (op.DisableAgent? || op.RevokeAgent?) && op.agent == agent
  }

  /** A registered agent is enabled until it is disabled or revoked, and never again after that. */
  lemma {:induction false} EnabledUntilDisabled(r: Registry, ops: seq<Op>, agent: Id)
    ensures agent in Run(r, ops).agents <==>
              agent in r.agents || exists i | 0 <= i < |ops| :: ops[i] == RegisterAgent(agent)
    ensures agent in r.agents ==>
              (Run(r, ops).agents[agent] <==> r.agents[agent] && forall i | 0 <= i < |ops| :: !ShutsOut(ops[i], agent))
  {
    if ops != [] {
      var init, op := ops[..|ops| - 1], ops[|ops| - 1];
      EnabledUntilDisabled(r, init, agent);
      assert ops == init + [op];
      AgentStep(Run(r, init), op, agent);
      hide Apply;
      assert forall i | 0 <= i < |init| :: ops[i] == init[i];
    }
  }

  /** What one call does to an agent's registration. */
  lemma AgentStep(r: Registry, op: Op, agent: Id)
    ensures agent in Apply(r, op).agents <==> agent in r.agents || op == RegisterAgent(agent)
    ensures agent in r.agents ==>
              (Apply(r, op).agents[agent] <==> r.agents[agent] && !ShutsOut(op, agent))
    ensures agent !in r.agents && op == RegisterAgent(agent) ==> Apply(r, op).agents[agent]
  {
  }

  /** A request verifies exactly under an in-window active or retired key bound to its agent. */
  lemma VerifiesIff(r: Registry, key: Id, agent: Id, now: int, signatureOk: bool)
    ensures VerifyRequest(r, key, agent, now, signatureOk).Ok? <==>
              && key in r.keys && r.keys[key].agent == agent && r.keys[key].state in {Active, Retired}
              && r.keys[key].notBefore <= now && (forall end | r.keys[key].notAfter == Some(end) :: now < end)
              && signatureOk
    ensures key in r.keys && r.keys[key].agent == agent && r.keys[key].state == Revoked ==>
              VerifyRequest(r, key, agent, now, signatureOk) == Err(KeyRevoked)
  {
    if key in r.keys && r.keys[key].notAfter.Some? { assert r.keys[key].notAfter == Some(r.keys[key].notAfter.value); }
  }

  /** An accepted activation or active generation. */
  predicate Rotates(r: Registry, op: Op) {
    Refusal(r, op).None? && (op.Activate? || (op.Generate? && op.state == Active))
  }

  /** Rotation loses nothing: requests under every other key, the replaced one included, verify exactly as before. */
  lemma RotationKeepsVerification(r: Registry, op: Op, key: Id, agent: Id, now: int, signatureOk: bool)
    requires Rotates(r, op) && key != op.key
    ensures VerifyRequest(Apply(r, op), key, agent, now, signatureOk) == VerifyRequest(r, key, agent, now, signatureOk)
  {
  }

  /** After a rotation the new key is the one its agent signs with, in its window, and it verifies. */
  lemma RotatedKeySigns(r: Registry, op: Op, now: int)
    requires Inv(r) && Rotates(r, op) && op.key in Apply(r, op).keys && Apply(r, op).keys[op.key].WithinWindow(now)
    ensures var n := Apply(r, op);
            var agent := n.keys[op.key].agent;
            && FirstSigner(n.keys, n.order, agent, now) == Some(op.key)
            && VerifyRequest(n, op.key, agent, now, true).Ok?
            && (op.Generate? ==> agent == op.agent)
            && (op.Activate? ==> agent == r.keys[op.key].agent)
  {
    var n := Apply(r, op);
    ApplyKeepsInv(r, op);
    FirstSignerFinds(n.keys, n.order, n.keys[op.key].agent, now);
    assert SignsAt(n.keys[op.key], n.keys[op.key].agent, now);
    hide OneSigner, RetireOthers, Listed;
    OnlySigner(n, op.key, now);
  }

  lemma OnlySigner(n: Registry, key: Id, now: int)
    requires Inv(n) && key in n.keys && SignsAt(n.keys[key], n.keys[key].agent, now)
    ensures key in n.order
    ensures forall k | k in n.keys && SignsAt(n.keys[k], n.keys[key].agent, now) :: k == key
  {
  }

  /** A registered key is what its caller asked for, and registration is refused exactly for the stated reasons. */
  lemma RegisteredAsAsked(r: Registry, op: Op)
    requires op.Generate? || op.Import?
    ensures Refusal(r, op).None? <==>
              && op.agent in r.agents && r.agents[op.agent]
              && (op.Generate? ==> op.state != Revoked && op.key !in r.keys)
    ensures Refusal(r, op).None? ==>
              var keys := Apply(r, op).keys;
              && op.key in keys
              && keys[op.key] == Key(op.agent, op.publicKey, op.state, op.notBefore, op.notAfter,
                                     if op.Generate? then Some(op.handle) else None, None, None)
              && forall k | k in r.keys && k != op.key ::
                   k in keys && keys[k] == if Rotates(r, op) && r.keys[k].agent == op.agent && r.keys[k].state == Active
                                           then r.keys[k].(state := Retired) else r.keys[k]
  {
  }

  /** Once a registered agent is revoked, no later calls make a request or a signing key of it acceptable again. */
  lemma RevokedAgentNeverReturns(r: Registry, agent: Id, at: int, reason: Option<Id>, later: seq<Op>, key: Id,
                                 now: int, signatureOk: bool)
    requires agent in r.agents
    ensures var s := Run(Apply(r, Op.RevokeAgent(agent, at, reason)), later);
            && VerifyRequest(s, key, agent, now, signatureOk).Err?
            && RequireAgent(s.agents, agent) == Err(AgentDisabled)
            && FirstSigner(s.keys, s.order, agent, now).None?
  {
    var dead := Apply(r, Op.RevokeAgent(agent, at, reason));
    RevokeAgentKills(r, agent, at, reason);
    DeadForever(dead, later, agent);
    FirstSignerFinds(Run(dead, later).keys, Run(dead, later).order, agent, now);
  }

  /** A single revoked key leaves that state exactly when an enabled agent imports the same key in another state. */
  lemma RevokedKeyReturnsIff(r: Registry, op: Op, key: Id)
    requires key in r.keys && r.keys[key].state.Revoked?
    ensures key in Apply(r, op).keys
    ensures !Apply(r, op).keys[key].state.Revoked? <==>
              op.Import? && op.key == key && !op.state.Revoked? && RequireAgent(r.agents, op.agent).Ok?
  {
  }

  /** The operation brings the revoked key `key` back. */
  ghost predicate Revives(r: Registry, op: Op, key: Id) {
    op.Import? && op.key == key && !op.state.Revoked? && RequireAgent(r.agents, op.agent).Ok?
  }

  /** The key is revoked after each of the first `|ops|` operations. */
  ghost predicate StaysRevoked(r: Registry, ops: seq<Op>, key: Id) {
    && (ops != [] ==> StaysRevoked(r, ops[..|ops| - 1], key))
    && key in Run(r, ops).keys && Run(r, ops).keys[key].state.Revoked?
  }

  /** No operation of the run is an accepted import of `key` in another state. */
  ghost predicate NeverRevived(r: Registry, ops: seq<Op>, key: Id) {
    ops != [] ==> NeverRevived(r, ops[..|ops| - 1], key) && !Revives(Run(r, ops[..|ops| - 1]), ops[|ops| - 1], key)
  }

  /**
    Over whole runs: a revoked key stays revoked throughout exactly when no enabled agent imports it in another state.
   */
  lemma {:induction false} RevokedKeyStaysIff(r: Registry, ops: seq<Op>, key: Id)
    requires key in r.keys && r.keys[key].state.Revoked?
    ensures StaysRevoked(r, ops, key) <==> NeverRevived(r, ops, key)
  {
    if ops != [] {
      var init := ops[..|ops| - 1];
      RevokedKeyStaysIff(r, init, key);
      if StaysRevoked(r, init, key) {
        RevokedKeyReturnsIff(Run(r, init), ops[|ops| - 1], key);
      }
    }
  }

  /** The exception is reachable: generated, revoked, then imported as active under the same id. */
  lemma RevokedKeyCanReturn(agent: Id, key: Id, handle: Id, publicKey: Id, now: int)
    ensures var ops :=
        [RegisterAgent(agent), Generate(agent, Active, now, None, handle, publicKey, key), Revoke(key, now, None)];
            var back := Import(agent, Active, now, None, publicKey, key);
            && key in Run(EMPTY, ops).keys && Run(EMPTY, ops).keys[key].state == Revoked
            && key in Run(EMPTY, ops + [back]).keys && Run(EMPTY, ops + [back]).keys[key].state == Active
            && VerifyRequest(Run(EMPTY, ops + [back]), key, agent, now, true).Ok?
  {
    var a, b, c :=
        RegisterAgent(agent), Generate(agent, Active, now, None, handle, publicKey, key), Revoke(key, now, None);
    var back := Import(agent, Active, now, None, publicKey, key);
    var ops := [a, b, c];
    assert [a][..0] == [] && [a, b][..1] == [a] && ops[..2] == [a, b] && (ops + [back])[..3] == ops;
    assert Run(EMPTY, [a]) == Apply(Run(EMPTY, []), a);
    assert Run(EMPTY, [a, b]) == Apply(Run(EMPTY, [a]), b);
  }

  // ---------------------------------------------------------------------------
  // The registry object
  // ---------------------------------------------------------------------------

  lemma NoRepeatsGrows(s: seq<Id>, k: Id)
    requires NoRepeats(s) && k !in s
    ensures NoRepeats(s + [k])
  {
  }

  class KeyStore {
    var agents: map<Id, bool>
    var keys: map<Id, Key>
    var order: seq<Id>

    ghost function State(): Registry
      reads this
    {
      Registry(agents, keys, order)
    }

    ghost predicate Valid()
      reads this
    {
      Inv(State())
    }

    constructor ()
      ensures Valid() && State() == EMPTY
    {
      agents, keys, order := map[], map[], [];
    }

    method Register(agent: Id)
      requires Valid()
      modifies this`agents
      ensures Valid() && State() == Apply(old(State()), RegisterAgent(agent))
    {
      if agent !in agents { agents := agents[agent := true]; }
    }

    method Disable(agent: Id) returns (error: Option<Code>)
      requires Valid()
      modifies this`agents
      ensures Valid() && error == Refusal(old(State()), DisableAgent(agent))
      ensures State() == Apply(old(State()), DisableAgent(agent))
    {
      if agent !in agents { return Some(AgentUnknown); }
      agents := agents[agent := false];
      return None;
    }

    /** Retires every other active key of the agent, one record at a time. */
    method RetireOtherActive(agent: Id, keep: Id)
      requires Listed(State())
      modifies this`keys
      ensures keys == RetireOthers(old(keys), agent, keep)
    {
      ghost var was := keys;
      var i := 0;
      while i < |order|
        invariant 0 <= i <= |order| && keys.Keys == was.Keys
        invariant forall k | k in was :: keys[k] == was[k] || keys[k] == RetireOthers(was, agent, keep)[k]
        invariant forall j | 0 <= j < i :: keys[order[j]] == RetireOthers(was, agent, keep)[order[j]]
      {
        var k := order[i];
        if OtherActive(k, keys[k], agent, keep) {
          keys := keys[k := keys[k].(state := Retired)];
        }
        i := i + 1;
      }
    }

    method GenerateKey(agent: Id, state: KeyState, notBefore: int, notAfter: Option<int>, handle: Id, publicKey: Id,
                       key: Id)
      returns (error: Option<Code>)
      requires Valid()
      modifies this`keys, this`order
      ensures Valid()
          && error == Refusal(old(State()), Generate(agent, state, notBefore, notAfter, handle, publicKey, key))
      ensures State() == Apply(old(State()), Generate(agent, state, notBefore, notAfter, handle, publicKey, key))
    {
      ApplyKeepsInv(State(), Generate(agent, state, notBefore, notAfter, handle, publicKey, key));
      hide OneSigner;
      if agent !in agents { return Some(AgentUnknown); }
      if !agents[agent] { return Some(AgentDisabled); }
      if state.Revoked? { return Some(SchemaInvalid); }
      if key in keys { return Some(SchemaInvalid); }
      keys := keys[key := Key(agent, publicKey, state, notBefore, notAfter, Some(handle), None, None)];
      order := order + [key];
      if state.Active? { RetireOtherActive(agent, key); }
      return None;
    }

    method ImportVerificationKey(agent: Id, state: KeyState, notBefore: int, notAfter: Option<int>, publicKey: Id,
                                 key: Id)
      returns (error: Option<Code>)
      requires Valid()
      modifies this`keys, this`order
      ensures Valid() && error == Refusal(old(State()), Import(agent, state, notBefore, notAfter, publicKey, key))
      ensures State() == Apply(old(State()), Import(agent, state, notBefore, notAfter, publicKey, key))
    {
      ApplyKeepsInv(State(), Import(agent, state, notBefore, notAfter, publicKey, key));
      hide Inv;
      if agent !in agents { return Some(AgentUnknown); }
      if !agents[agent] { return Some(AgentDisabled); }
      if key !in keys { order := order + [key]; }
      keys := keys[key := Key(agent, publicKey, state, notBefore, notAfter, None, None, None)];
      return None;
    }

    method ActivateKey(key: Id) returns (error: Option<Code>)
      requires Valid()
      modifies this`keys
      ensures Valid() && error == Refusal(old(State()), Activate(key))
      ensures State() == Apply(old(State()), Activate(key))
    {
      ApplyKeepsInv(State(), Activate(key));
      hide OneSigner;
      if key !in keys { return Some(KeyUnknown); }
      if keys[key].state.Revoked? { return Some(KeyRevoked); }
      if keys[key].handle.None? { return Some(KeyUnknown); }
      var agent := keys[key].agent;
      keys := keys[key := keys[key].(state := Active)];
      RetireOtherActive(agent, key);
      return None;
    }

    method RevokeKey(key: Id, now: int, reason: Option<Id>) returns (error: Option<Code>)
      requires Valid()
      modifies this`keys
      ensures Valid() && error == Refusal(old(State()), Revoke(key, now, reason))
      ensures State() == Apply(old(State()), Revoke(key, now, reason))
    {
      ApplyKeepsInv(State(), Revoke(key, now, reason));
      hide Inv;
      if key !in keys { return Some(KeyUnknown); }
      keys := keys[key := Revoking(keys[key], now, reason)];
      return None;
    }

    /** Revokes every live key of the agent and returns exactly those. */
    method RevokeLiveKeys(agent: Id, now: int, reason: Option<Id>) returns (revoked: seq<Id>)
      requires Listed(State())
      modifies this`keys
      ensures keys == RevokeAll(old(keys), agent, now, reason)
      ensures forall k :: k in revoked <==> old(k in keys && Live(keys[k], agent))
      ensures NoRepeats(revoked)
    {
      assert NoRepeats<Id>([]);
      hide NoRepeats;
      ghost var was := keys;
      revoked := [];
      var i := 0;
      while i < |order|
        invariant 0 <= i <= |order| && keys.Keys == was.Keys
        invariant forall k | k in was :: keys[k] == if k in revoked then Revoking(was[k], now, reason) else was[k]
        invariant forall k | k in revoked :: k in was && Live(was[k], agent)
        invariant NoRepeats(revoked)
        invariant forall j | 0 <= j < i && Live(was[order[j]], agent) :: order[j] in revoked
      {
        var k := order[i];
        if Live(keys[k], agent) {
          NoRepeatsGrows(revoked, k);
          keys := keys[k := Revoking(keys[k], now, reason)];
          revoked := revoked + [k];
        }
        i := i + 1;
      }
    }

    method RevokeWholeAgent(agent: Id, now: int, reason: Option<Id>) returns (revoked: seq<Id>)
      requires Valid()
      modifies this`keys, this`agents
      ensures Valid() && State() == Apply(old(State()), Op.RevokeAgent(agent, now, reason))
      ensures forall k :: k in revoked <==> old(k in keys && Live(keys[k], agent))
      ensures NoRepeats(revoked)
    {
      ApplyKeepsInv(State(), Op.RevokeAgent(agent, now, reason));
      hide OneSigner, RevokeAll;
      revoked := RevokeLiveKeys(agent, now, reason);
      if agent in agents { agents := agents[agent := false]; }
    }

    /** The one active in-window signing key, if there is one. */
    method ActiveSigningKey(agent: Id, now: int) returns (r: Result<Id, Code>)
      requires Valid()
      ensures RequireAgent(agents, agent).Err? ==> r == Err(RequireAgent(agents, agent).error)
      ensures RequireAgent(agents, agent).Ok? ==>
                match r
                case Ok(k) => k in keys && forall l | l in keys :: SignsAt(keys[l], agent, now) <==> l == k
                case Err(e) => e == KeyUnknown && forall l | l in keys :: !SignsAt(keys[l], agent, now)
    {
      if agent !in agents { return Err(AgentUnknown); }
      if !agents[agent] { return Err(AgentDisabled); }
      var i := 0;
      while i < |order|
        invariant 0 <= i <= |order|
        invariant forall j | 0 <= j < i :: !SignsAt(keys[order[j]], agent, now)
      {
        var k := order[i];
        if SignsAt(keys[k], agent, now) { return Ok(k); }
        i := i + 1;
      }
      return Err(KeyUnknown);
    }
  }
}
