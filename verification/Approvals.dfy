/** Human-approval records and the store that decides them once. */
module Approvals {
  import opened Common
  import opened Tokens

  datatype ApprovalState = Pending | Granted | Refused

  datatype Approval = Approval(
    approvalId: Id, agent: Id, actionHash: Id, risk: int, classification: Id, requestedAt: int, expiresAt: int,
    state: ApprovalState, approver: Option<Id>, decidedAt: Option<int>, reason: Option<Id>)

  function Requested(approvalId: Id, agent: Id, actionHash: Id, risk: int, classification: Id, now: int,
                     ttl: int): Approval {
    Approval(approvalId, agent, actionHash, risk, classification, now, now + ttl, Pending, None, None, None)
  }

  function Find(m: map<Id, Approval>, d: Id): Option<Approval> {
    if d in m then Some(m[d]) else None
  }

  /** An approval is decided at most once, and only before it expires. */
  function Decide(r: Option<Approval>, verdict: ApprovalState, approver: Id, reason: Option<Id>,
                  now: int): Result<Approval, Code> {
    if r.None? then Err(ApprovalRequired)
    else if r.value.state != Pending then Err(ApprovalRequired)
    else if now >= r.value.expiresAt then Err(ApprovalExpired)
    else Ok(r.value.(state := verdict, approver := Some(approver), decidedAt := Some(now), reason := reason))
  }

  function AssertGranted(r: Option<Approval>, now: int): Result<Approval, Code> {
    if r.None? || r.value.state == Pending then Err(ApprovalRequired)
    else if r.value.state == Refused then Err(ApprovalRequired)
    else if now >= r.value.expiresAt then Err(ApprovalExpired)
    else Ok(r.value)
  }

  /** A record is decided exactly once, before its expiry; the decision writes its four fields and nothing else. */
  lemma DecidedIff(r: Option<Approval>, verdict: ApprovalState, approver: Id, reason: Option<Id>, now: int)
    ensures var decided := Decide(r, verdict, approver, reason, now);
            && (decided.Ok? <==> r.Some? && r.value.state == Pending && now < r.value.expiresAt)
            && (decided.Ok? ==>
                  && decided.value == r.value.(state := verdict, approver := Some(approver), decidedAt := Some(now),
                                               reason := reason)
                  && (verdict != Pending ==> forall v, who, why, later ::
                        Decide(Some(decided.value), v, who, why, later) == Err(ApprovalRequired)))
            && (decided == Err(ApprovalExpired) <==> r.Some? && r.value.state == Pending && now >= r.value.expiresAt)
  {
  }

  /** A grant is confirmed at the same moment and until the record expires; a refusal never. */
  lemma GrantIsConfirmed(r: Approval, approver: Id, reason: Option<Id>, now: int, later: int)
    requires Decide(Some(r), Granted, approver, reason, now).Ok?
    ensures var granted := Decide(Some(r), Granted, approver, reason, now).value;
            var refused := Decide(Some(r), Refused, approver, reason, now).value;
            && AssertGranted(Some(granted), now) == Ok(granted)
            && AssertGranted(Some(granted), later)
               == (if later < r.expiresAt then Ok(granted) else Err(ApprovalExpired))
            && AssertGranted(Some(refused), later) == Err(ApprovalRequired)
  {
  }

  class ApprovalStore {
    const ttl: int
    var byId: map<Id, Approval>
    var byDecision: map<Id, Id>

    /** Every decision has its own record. */
    ghost predicate Valid()
      reads this
    {
      && (forall d | d in byDecision :: byDecision[d] in byId)
      && (forall d, e | d in byDecision && e in byDecision && byDecision[d] == byDecision[e] :: d == e)
    }

    ghost function Value(): map<Id, Approval>
      requires Valid()
      reads this
    {
      map d | d in byDecision :: byId[byDecision[d]]
    }

    constructor (ttl: int)
      ensures Valid() && Value() == map[] && this.ttl == ttl && byId == map[]
    {
      this.ttl := ttl;
      byId, byDecision := map[], map[];
    }

    /** `lifetime` overrides the store's own. */
    method Request(d: Id, approvalId: Id, agent: Id, actionHash: Id, risk: int, classification: Id,
                   lifetime: Option<int>, now: int)
      requires Valid() && approvalId !in byId
      modifies this
      ensures Valid()
      ensures var granted := if lifetime.Some? then lifetime.value else ttl;
              Value() == old(Value())[d := Requested(approvalId, agent, actionHash, risk, classification, now, granted)]
      ensures byId.Keys == old(byId.Keys) + {approvalId}
    {
      var life := if lifetime.None? then ttl else lifetime.value;
      var record :=
          Approval(approvalId, agent, actionHash, risk, classification, now, now + life, Pending, None, None, None);
      byId := byId[approvalId := record];
      byDecision := byDecision[d := approvalId];
    }

    method ByDecision(d: Id) returns (r: Option<Approval>)
      requires Valid()
      ensures r == Find(Value(), d)
    {
      if d in byDecision { return Some(byId[byDecision[d]]); }
      return None;
    }

    method DecideOn(d: Id, verdict: ApprovalState, approver: Id, reason: Option<Id>, now: int)
      returns (r: Result<Approval, Code>)
      requires Valid()
      modifies this`byId
      ensures Valid() && r == Decide(Find(old(Value()), d), verdict, approver, reason, now)
      ensures Value() == if r.Ok? then old(Value())[d := r.value] else old(Value())
      ensures byId.Keys == old(byId.Keys)
    {
      if d !in byDecision { return Err(ApprovalRequired); }
      var rec := byId[byDecision[d]];
      if rec.state != Pending { return Err(ApprovalRequired); }
      if now >= rec.expiresAt { return Err(ApprovalExpired); }
      rec := rec.(state := verdict, approver := Some(approver), decidedAt := Some(now), reason := reason);
      byId := byId[byDecision[d] := rec];
      return Ok(rec);
    }

    method RequireGranted(d: Id, now: int) returns (r: Result<Approval, Code>)
      requires Valid()
      ensures r == AssertGranted(Find(Value(), d), now)
    {
      var found := ByDecision(d);
      if found.None? || found.value.state == Pending { return Err(ApprovalRequired); }
      if found.value.state == Refused { return Err(ApprovalRequired); }
      if now >= found.value.expiresAt { return Err(ApprovalExpired); }
      return Ok(found.value);
    }
  }
}

/**
  Evaluating, approving and denying threads, interleaved at the granularity of the plane's and the store's locks.
 */
module ApprovalInterleaving {
  import opened Common
  import opened Approvals

  /** Where a thread is; a thread with no entry is outside. */
  datatype Pc =
    | Parking(d: Id)                          // approval requested, entry not yet stored
    | Fetched(d: Id, approver: Id, now: int)  // a pending entry was read
    | Won(d: Id, now: int)                    // this thread's grant was recorded
    | Confirmed(d: Id)                        // the grant was re-asserted
    | Cleared(d: Id)                          // the containment gate was passed
    | Minted(d: Id)                           // token minted, entry not yet overwritten

  datatype State = State(
    records: map<Id, Approval>,
    parked: set<Id>,
    mints: seq<Id>,
    threads: map<nat, Pc>)

  const START := State(map[], {}, [], map[])

  datatype Step =
    | Ask(t: nat, d: Id, record: Approval)
    | Park(t: nat)
    | MintDirectly(d: Id)
    | Fetch(t: nat, d: Id, approver: Id, now: int)
    | Grant(t: nat)
    | Confirm(t: nat)
    | Gate(t: nat, blocked: bool)
    | Mint(t: nat)
    | Store(t: nat)
    | Deny(d: Id, approver: Id, reason: Option<Id>, now: int)
    | Abort(t: nat)

  predicate Enabled(s: State, step: Step) {
    match step
    case Ask(t, d, record) => t !in s.threads && d !in s.records && d !in s.mints && record.state == Pending
    case Park(t) => t in s.threads && s.threads[t].Parking?
    case MintDirectly(d) => d !in s.records && d !in s.mints
    case Fetch(t, d, _, _) => t !in s.threads && d in s.parked
    case Grant(t) => t in s.threads && s.threads[t].Fetched?
    case Confirm(t) => t in s.threads && s.threads[t].Won?
    case Gate(t, _) => t in s.threads && s.threads[t].Confirmed?
    case Mint(t) => t in s.threads && s.threads[t].Cleared?
    case Store(t) => t in s.threads && s.threads[t].Minted?
    case Deny(_, _, _, _) => true
    case Abort(t) => t in s.threads
  }

  function Goto(s: State, t: nat, pc: Pc): State { s.(threads := s.threads[t := pc]) }

  function Exit(s: State, t: nat): State { s.(threads := s.threads - {t}) }

  function Next(s: State, step: Step): State
    requires Enabled(s, step)
  {
    match step
    case Ask(t, d, record) => Goto(s.(records := s.records[d := record]), t, Parking(d))
    case Park(t) => Exit(s.(parked := s.parked + {s.threads[t].d}), t)
    case MintDirectly(d) => s.(mints := s.mints + [d])
    case Fetch(t, d, approver, now) => Goto(s, t, Fetched(d, approver, now))
    case Grant(t) =>
      var Fetched(d, approver, now) := s.threads[t];
      var r := Decide(Find(s.records, d), Granted, approver, None, now);
      if r.Ok? then Goto(s.(records := s.records[d := r.value]), t, Won(d, now)) else Exit(s, t)
    case Confirm(t) =>
      var Won(d, now) := s.threads[t];
      if AssertGranted(Find(s.records, d), now).Ok? then Goto(s, t, Confirmed(d)) else Exit(s, t)
    case Gate(t, blocked) => if blocked then Exit(s, t) else Goto(s, t, Cleared(s.threads[t].d))
    case Mint(t) => Goto(s.(mints := s.mints + [s.threads[t].d]), t, Minted(s.threads[t].d))
    case Store(t) => Exit(s.(parked := s.parked - {s.threads[t].d}), t)
    case Deny(d, approver, reason, now) =>
      var r := Decide(Find(s.records, d), Refused, approver, reason, now);
      if r.Ok? then s.(records := s.records[d := r.value]) else s
    case Abort(t) => Exit(s, t)
  }

  // ---------------------------------------------------------------------------
  // Joint invariant
  // ---------------------------------------------------------------------------

  ghost function MintsOf(mints: seq<Id>, d: Id): nat { multiset(mints)[d] }

  /** The thread won the decision of `d` and may still mint for it. */
  ghost predicate Claims(s: State, t: nat, d: Id) {
    && t in s.threads && s.threads[t].d == d
    && (s.threads[t].Won? || s.threads[t].Confirmed? || s.threads[t].Cleared?)
  }

  ghost predicate DecisionOk(s: State, d: Id) {
    && MintsOf(s.mints, d) <= 1
    && (d in s.parked ==> d in s.records)
    && (d in s.records && s.records[d].state != Granted ==> MintsOf(s.mints, d) == 0)
    && (forall t | Claims(s, t, d) :: d in s.records && s.records[d].state == Granted && MintsOf(s.mints, d) == 0)
    && (forall t, u | Claims(s, t, d) && Claims(s, u, d) :: t == u)
  }

  ghost predicate ThreadsKnown(s: State) {
    forall t | t in s.threads :: s.threads[t].d in s.records
  }

  ghost predicate Inv(s: State) {
    ThreadsKnown(s) && forall d {:trigger DecisionOk(s, d)} :: DecisionOk(s, d)
  }

  lemma MintsGrow(mints: seq<Id>, x: Id, d: Id)
    ensures MintsOf(mints + [x], d) == MintsOf(mints, d) + if x == d then 1 else 0
  {
  }

  /** Only a successful grant creates a claim. */
  lemma ClaimsComeFromGrants(s: State, step: Step, t: nat, d: Id)
    requires Enabled(s, step) && Claims(Next(s, step), t, d)
    ensures Claims(s, t, d) || (step == Grant(t) && s.threads[t].d == d)
  {
  }

  lemma GrantKeepsDecision(s: State, t: nat, d: Id)
    requires Inv(s) && Enabled(s, Grant(t))
    ensures DecisionOk(Next(s, Grant(t)), d)
  {
    hide MintsOf;
    var n := Next(s, Grant(t));
    assert DecisionOk(s, d);
    forall u | Claims(n, u, d) ensures Claims(s, u, d) || (u == t && s.threads[t].d == d) {
      ClaimsComeFromGrants(s, Grant(t), u, d);
    }
    if s.threads[t].d == d && Find(s.records, d).Some? && s.records[d].state == Pending {
      assert forall u :: !Claims(s, u, d);
    }
  }

  lemma MintKeepsDecision(s: State, step: Step, d: Id)
    requires Inv(s) && Enabled(s, step) && (step.Mint? || step.MintDirectly?)
    ensures DecisionOk(Next(s, step), d)
  {
    var x := if step.Mint? then s.threads[step.t].d else step.d;
    MintsGrow(s.mints, x, d);
    hide MintsOf;
    assert DecisionOk(s, d) && DecisionOk(s, x);
    if step.Mint? {
      assert Claims(s, step.t, x);
    } else {
      assert MintsOf(s.mints, x) == 0 by { NoMints(s.mints, x); }
    }
    forall u | Claims(Next(s, step), u, d) ensures Claims(s, u, d) && x != d {
      ClaimsComeFromGrants(s, step, u, d);
    }
  }

  lemma NoMints(mints: seq<Id>, d: Id)
    requires d !in mints
    ensures MintsOf(mints, d) == 0
  {
  }

  lemma OtherKeepsDecision(s: State, step: Step, d: Id)
    requires Inv(s) && Enabled(s, step) && !step.Mint? && !step.MintDirectly? && !step.Grant?
    ensures DecisionOk(Next(s, step), d)
  {
    assert DecisionOk(s, d);
    if step.Ask? { NoMints(s.mints, step.d); }
    hide MintsOf;
    forall u | Claims(Next(s, step), u, d) ensures Claims(s, u, d) {
      ClaimsComeFromGrants(s, step, u, d);
    }
  }

  lemma StepKeepsInv(s: State, step: Step)
    requires Inv(s) && Enabled(s, step)
    ensures Inv(Next(s, step))
  {
    if step.Fetch? { assert DecisionOk(s, step.d); }
    hide DecisionOk;
    forall d ensures DecisionOk(Next(s, step), d) {
      if step.Grant? { GrantKeepsDecision(s, step.t, d); }
      else if step.Mint? || step.MintDirectly? { MintKeepsDecision(s, step, d); }
      else { OtherKeepsDecision(s, step, d); }
    }
  }

  ghost predicate Runs(s: State, steps: seq<Step>, last: State)
    decreases |steps|
  {
    if steps == [] then s == last
    else Enabled(s, steps[0]) && Runs(Next(s, steps[0]), steps[1..], last)
  }

  lemma {:induction false} RunKeepsInv(s: State, steps: seq<Step>, last: State)
    requires Inv(s) && Runs(s, steps, last)
    ensures Inv(last)
    decreases |steps|
  {
    hide Inv, Next;
    if steps != [] {
      StepKeepsInv(s, steps[0]);
      RunKeepsInv(Next(s, steps[0]), steps[1..], last);
    }
  }

  // ---------------------------------------------------------------------------
  // Results
  // ---------------------------------------------------------------------------

  /** Under every interleaving of evaluators, approvers and deniers, a decision mints at most one token. */
  lemma MintsAtMostOnce(steps: seq<Step>, s: State, d: Id)
    requires Runs(START, steps, s)
    ensures MintsOf(s.mints, d) <= 1
  {
    assert Inv(START);
    RunKeepsInv(START, steps, s);
    assert DecisionOk(s, d);
  }

  /** Under every interleaving a parked decision has a record, and one with a record mints only once that is granted. */
  lemma MintedRecordsAreGranted(steps: seq<Step>, s: State, d: Id)
    requires Runs(START, steps, s)
    ensures d in s.parked ==> d in s.records
    ensures d in s.records && MintsOf(s.mints, d) > 0 ==> s.records[d].state == Granted
  {
    assert Inv(START);
    RunKeepsInv(START, steps, s);
    assert DecisionOk(s, d);
  }

  /** Decided, not minted, and nobody left who could mint it. */
  ghost predicate Spent(s: State, d: Id) {
    && d in s.records && s.records[d].state != Pending
    && MintsOf(s.mints, d) == 0
    && forall t :: !Claims(s, t, d)
  }

  lemma StepKeepsSpent(s: State, step: Step, d: Id)
    requires Inv(s) && Enabled(s, step) && Spent(s, d)
    ensures Spent(Next(s, step), d)
  {
    if step.Mint? { MintsGrow(s.mints, s.threads[step.t].d, d); }
    if step.MintDirectly? { MintsGrow(s.mints, step.d, d); }
    hide MintsOf;
    if step.Mint? { assert Claims(s, step.t, s.threads[step.t].d); }
    forall t ensures !Claims(Next(s, step), t, d) {
      assert !Claims(s, t, d);
    }
  }

  lemma {:induction false} SpentForever(s: State, steps: seq<Step>, last: State, d: Id)
    requires Inv(s) && Runs(s, steps, last) && Spent(s, d)
    ensures Spent(last, d)
    decreases |steps|
  {
    hide Inv, Next, Spent;
    if steps != [] {
      StepKeepsInv(s, steps[0]);
      StepKeepsSpent(s, steps[0], d);
      SpentForever(Next(s, steps[0]), steps[1..], last, d);
    }
  }

  /** Once denied, never minted. */
  lemma DeniedNeverMints(before: seq<Step>, s: State, after: seq<Step>, last: State, d: Id)
    requires Runs(START, before, s) && Runs(s, after, last)
    requires d in s.records && s.records[d].state == Refused
    ensures MintsOf(last.mints, d) == 0
  {
    assert Inv(START);
    RunKeepsInv(START, before, s);
    assert DecisionOk(s, d);
    assert Spent(s, d);
    SpentForever(s, after, last, d);
  }

  /** Granted, but the winning approver stopped at the containment gate: never minted later, by anyone. */
  lemma BlockedNeverMints(before: seq<Step>, s: State, t: nat, after: seq<Step>, last: State)
    requires Runs(START, before, s) && t in s.threads && s.threads[t].Confirmed?
    requires Runs(Next(s, Gate(t, true)), after, last)
    ensures MintsOf(last.mints, s.threads[t].d) == 0
  {
    assert Inv(START);
    RunKeepsInv(START, before, s);
    var d := s.threads[t].d;
    var stopped := Next(s, Gate(t, true));
    assert Claims(s, t, d) && DecisionOk(s, d);
    StepKeepsInv(s, Gate(t, true));
    forall u ensures !Claims(stopped, u, d) {
      assert Claims(stopped, u, d) ==> Claims(s, u, d);
    }
    assert Spent(stopped, d);
    SpentForever(stopped, after, last, d);
  }

  /** The approvers of `d` under way, and all that still start, carry a clock at or past the expiry. */
  ghost predicate Late(s: State, steps: seq<Step>, d: Id, expiry: int) {
    && (forall t | t in s.threads && s.threads[t].Fetched? && s.threads[t].d == d :: s.threads[t].now >= expiry)
    && (forall i | 0 <= i < |steps| && steps[i].Fetch? && steps[i].d == d :: steps[i].now >= expiry)
  }

  /** Not granted: undecided with every approver late, or denied. */
  ghost predicate Ungranted(s: State, d: Id, expiry: int) {
    && d in s.records && s.records[d].state != Granted && s.records[d].expiresAt == expiry
  }

  lemma StepKeepsUngranted(s: State, steps: seq<Step>, d: Id, expiry: int)
    requires Inv(s) && steps != [] && Enabled(s, steps[0]) && Ungranted(s, d, expiry) && Late(s, steps, d, expiry)
    ensures Ungranted(Next(s, steps[0]), d, expiry) && Late(Next(s, steps[0]), steps[1..], d, expiry)
  {
    var step, n := steps[0], Next(s, steps[0]);
    forall t | t in n.threads && n.threads[t].Fetched? && n.threads[t].d == d ensures n.threads[t].now >= expiry {
      assert !(t in s.threads && s.threads[t].Fetched?) ==> step.Fetch? && step.t == t;
    }
  }

  /** Undecided until expiry: if every later approver's clock is past it, the decision never mints. */
  lemma {:induction false} ExpiredNeverMints(s: State, steps: seq<Step>, last: State, d: Id, expiry: int)
    requires Inv(s) && Runs(s, steps, last) && Ungranted(s, d, expiry) && Late(s, steps, d, expiry)
    ensures MintsOf(last.mints, d) == 0
    decreases |steps|
  {
    if steps == [] {
      assert DecisionOk(s, d);
    } else {
      StepKeepsInv(s, steps[0]);
      StepKeepsUngranted(s, steps, d, expiry);
      hide Inv, Next, Ungranted, Late;
      ExpiredNeverMints(Next(s, steps[0]), steps[1..], last, d, expiry);
    }
  }
}
