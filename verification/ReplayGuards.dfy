/**
  The freshness guards: the in-memory one, the atomic Lua script, whose per-session nonce set may expire at any
  moment, and the wrapper that checks the nonce length before it evaluates the script.
 */
module ReplayGuards {
  import opened Common

  const MIN_NONCE_HEX := 32

  datatype Call = Call(session: Id, nonce: Id, seqno: int)

  datatype Outcome = Accepted | SchemaInvalid | NonceReplay | SequenceInvalid

  predicate Short(c: Call) { |c.nonce.text| < MIN_NONCE_HEX }

  // ---------------------------------------------------------------------------
  // In-memory guard: one nonce set, one highest sequence per session
  // ---------------------------------------------------------------------------

  datatype Memory = Memory(nonces: set<Id>, highest: map<Id, int>)

  function MemoryCheck(m: Memory, c: Call): Outcome {
    if Short(c) then SchemaInvalid
    else if c.nonce in m.nonces then NonceReplay
    else if c.session in m.highest && c.seqno <= m.highest[c.session] then SequenceInvalid
    else Accepted
  }

  function MemoryCommit(m: Memory, c: Call): Memory {
    if MemoryCheck(m, c).Accepted? then Memory(m.nonces + {c.nonce}, m.highest[c.session := c.seqno]) else m
  }

  function MemoryRun(cs: seq<Call>): Memory {
    if cs == [] then Memory({}, map[]) else MemoryCommit(MemoryRun(cs[..|cs| - 1]), cs[|cs| - 1])
  }

  predicate MemoryAcceptsAll(cs: seq<Call>) {
    cs != [] ==> MemoryAcceptsAll(cs[..|cs| - 1]) && MemoryCheck(MemoryRun(cs[..|cs| - 1]), cs[|cs| - 1]).Accepted?
  }

  // ---------------------------------------------------------------------------
  // Lua guard: per-session nonce set with expiry, per-session sequence without
  // ---------------------------------------------------------------------------

  datatype Redis = Redis(nonces: map<Id, set<Id>>, sequence: map<Id, int>)

  datatype Event = Request(c: Call) | Expire(session: Id)

  function Members(r: Redis, session: Id): set<Id> {
    if session in r.nonces then r.nonces[session] else {}
  }

  function LastSequence(r: Redis, session: Id): int {
    if session in r.sequence then r.sequence[session] else -1
  }

  function LuaCheck(r: Redis, c: Call): Outcome {
    if c.nonce in Members(r, c.session) then NonceReplay
    else if c.seqno <= LastSequence(r, c.session) then SequenceInvalid
    else Accepted
  }

  function LuaStep(r: Redis, e: Event): Redis {
    match e
    case Expire(session) => r.(nonces := r.nonces - {session})
    case Request(c) =>
      if LuaCheck(r, c).Accepted?
      then Redis(r.nonces[c.session := Members(r, c.session) + {c.nonce}], r.sequence[c.session := c.seqno])
      else r
  }

  function LuaRun(es: seq<Event>): Redis {
    if es == [] then Redis(map[], map[]) else LuaStep(LuaRun(es[..|es| - 1]), es[|es| - 1])
  }

  /** The calls the script accepted, in order. */
  function LuaAccepted(es: seq<Event>): seq<Call> {
    if es == [] then [] else
      var init, e := es[..|es| - 1], es[|es| - 1];
      LuaAccepted(init) + if e.Request? && LuaCheck(LuaRun(init), e.c).Accepted? then [e.c] else []
  }

  function Requests(es: seq<Event>): seq<Call> {
    if es == [] then [] else Requests(es[..|es| - 1]) + if es[|es| - 1].Request? then [es[|es| - 1].c] else []
  }

  predicate LuaAcceptsAll(es: seq<Event>) {
    es != [] ==>
      && LuaAcceptsAll(es[..|es| - 1])
      && (es[|es| - 1].Request? ==> LuaCheck(LuaRun(es[..|es| - 1]), es[|es| - 1].c).Accepted?)
  }

  // ---------------------------------------------------------------------------
  // Wrapper: short nonces never reach the script
  // ---------------------------------------------------------------------------

  function WrapperCheck(r: Redis, c: Call): Outcome {
    if Short(c) then SchemaInvalid else LuaCheck(r, c)
  }

  function WrapperStep(r: Redis, e: Event): Redis {
    if e.Request? && Short(e.c) then r else LuaStep(r, e)
  }

  function WrapperRun(es: seq<Event>): Redis {
    if es == [] then Redis(map[], map[]) else WrapperStep(WrapperRun(es[..|es| - 1]), es[|es| - 1])
  }

  function WrapperAccepted(es: seq<Event>): seq<Call> {
    if es == [] then [] else
      var init, e := es[..|es| - 1], es[|es| - 1];
      WrapperAccepted(init) + if e.Request? && WrapperCheck(WrapperRun(init), e.c).Accepted? then [e.c] else []
  }

  predicate WrapperAcceptsAll(es: seq<Event>) {
    es != [] ==>
      && WrapperAcceptsAll(es[..|es| - 1])
      && (es[|es| - 1].Request? ==> WrapperCheck(WrapperRun(es[..|es| - 1]), es[|es| - 1].c).Accepted?)
  }

  // ---------------------------------------------------------------------------
  // What a call sequence looks like
  // ---------------------------------------------------------------------------

  function Nonces(cs: seq<Call>): set<Id> {
    if cs == [] then {} else Nonces(cs[..|cs| - 1]) + {cs[|cs| - 1].nonce}
  }

  /** The sequence number of the last call of a session, or `none` if there was no call. */
  function LastOf(cs: seq<Call>, session: Id, none: int): int {
    if cs == [] then none
    else if cs[|cs| - 1].session == session then cs[|cs| - 1].seqno
    else LastOf(cs[..|cs| - 1], session, none)
  }

  predicate Called(cs: seq<Call>, session: Id) {
    cs != [] && (cs[|cs| - 1].session == session || Called(cs[..|cs| - 1], session))
  }

  /** Sequence numbers climb strictly within each session. */
  predicate Climbing(cs: seq<Call>) {
    cs != [] ==>
      var init, c := cs[..|cs| - 1], cs[|cs| - 1];
      Climbing(init) && (Called(init, c.session) ==> c.seqno > LastOf(init, c.session, -1))
  }

  predicate NoncesDistinct(cs: seq<Call>) {
    cs != [] ==> NoncesDistinct(cs[..|cs| - 1]) && cs[|cs| - 1].nonce !in Nonces(cs[..|cs| - 1])
  }

  predicate AllLong(cs: seq<Call>) {
    cs != [] ==> AllLong(cs[..|cs| - 1]) && !Short(cs[|cs| - 1])
  }

  predicate NonNegative(cs: seq<Call>) {
    cs != [] ==> NonNegative(cs[..|cs| - 1]) && cs[|cs| - 1].seqno >= 0
  }

  // ---------------------------------------------------------------------------
  // Safety of the script under every expiry schedule
  // ---------------------------------------------------------------------------

  lemma {:induction false} SequenceTracksAccepted(es: seq<Event>, session: Id)
    ensures LastSequence(LuaRun(es), session) == LastOf(LuaAccepted(es), session, -1)
    ensures Called(LuaAccepted(es), session) <==> session in LuaRun(es).sequence
  {
    if es != [] {
      var init, e := es[..|es| - 1], es[|es| - 1];
      SequenceTracksAccepted(init, session);
      if e.Request? && LuaCheck(LuaRun(init), e.c).Accepted? {
        var was := LuaAccepted(init);
        assert (was + [e.c])[..|was|] == was;
      } else {
        assert LuaAccepted(es) == LuaAccepted(init);
      }
    }
  }

  lemma {:induction false} LuaAcceptedClimbs(es: seq<Event>)
    ensures Climbing(LuaAccepted(es)) && NonNegative(LuaAccepted(es))
  {
    if es != [] {
      var init, e := es[..|es| - 1], es[|es| - 1];
      LuaAcceptedClimbs(init);
      if e.Request? && LuaCheck(LuaRun(init), e.c).Accepted? {
        var was := LuaAccepted(init);
        assert (was + [e.c])[..|was|] == was;
        SequenceTracksAccepted(init, e.c.session);
        LastNonNegative(was, e.c.session);
      } else {
        assert LuaAccepted(es) == LuaAccepted(init);
      }
    }
  }

  lemma {:induction false} LastNonNegative(cs: seq<Call>, session: Id)
    requires NonNegative(cs)
    ensures LastOf(cs, session, -1) >= -1
  {
    if cs != [] && cs[|cs| - 1].session != session {
      LastNonNegative(cs[..|cs| - 1], session);
    }
  }

  lemma {:induction false} ClimbingPair(cs: seq<Call>, i: nat, j: nat)
    requires Climbing(cs) && i < j < |cs| && cs[i].session == cs[j].session
    ensures cs[i].seqno < cs[j].seqno
  {
    var init := cs[..|cs| - 1];
    if j < |cs| - 1 {
      ClimbingPair(init, i, j);
    } else {
      LastIsHighest(init, i);
    }
  }

  lemma {:induction false} LastIsHighest(cs: seq<Call>, i: nat)
    requires Climbing(cs) && i < |cs|
    ensures Called(cs, cs[i].session) && cs[i].seqno <= LastOf(cs, cs[i].session, -1)
  {
    if i < |cs| - 1 {
      LastIsHighest(cs[..|cs| - 1], i);
    }
  }

  /** Whatever expires when, accepted sequences strictly increase per session, so no call is accepted twice. */
  lemma NoReplayUnderExpiry(es: seq<Event>, i: nat, j: nat)
    requires i < j < |LuaAccepted(es)|
    ensures LuaAccepted(es)[i].session == LuaAccepted(es)[j].session ==>
        LuaAccepted(es)[i].seqno < LuaAccepted(es)[j].seqno
    ensures LuaAccepted(es)[i] != LuaAccepted(es)[j]
  {
    LuaAcceptedClimbs(es);
    if LuaAccepted(es)[i].session == LuaAccepted(es)[j].session {
      ClimbingPair(LuaAccepted(es), i, j);
    }
  }

  // ---------------------------------------------------------------------------
  // The two guards accept the same call sequences in full
  // ---------------------------------------------------------------------------

  lemma {:induction false} MemoryAcceptsAllIff(cs: seq<Call>)
    ensures MemoryAcceptsAll(cs) <==> AllLong(cs) && NoncesDistinct(cs) && Climbing(cs)
    ensures MemoryAcceptsAll(cs) ==> MemoryRun(cs).nonces == Nonces(cs)
    ensures MemoryAcceptsAll(cs) ==> forall s ::
              && (s in MemoryRun(cs).highest <==> Called(cs, s))
              && (s in MemoryRun(cs).highest ==> MemoryRun(cs).highest[s] == LastOf(cs, s, -1))
  {
    if cs != [] {
      MemoryAcceptsAllIff(cs[..|cs| - 1]);
    }
  }

  ghost predicate NoncesWithin(r: Redis, cs: seq<Call>) {
    forall s | s in r.nonces :: r.nonces[s] <= Nonces(cs)
  }

  lemma RequestsExtend(es: seq<Event>)
    requires es != []
    ensures var init, e := es[..|es| - 1], es[|es| - 1];
            if e.Request?
                then Requests(es) == Requests(init) + [e.c] && Requests(es)[..|Requests(es)| - 1] == Requests(init)
            else Requests(es) == Requests(init)
  {
  }

  lemma {:induction false} LuaAcceptsAllKeeps(es: seq<Event>)
    requires LuaAcceptsAll(es)
    ensures LuaAccepted(es) == Requests(es) && NoncesWithin(LuaRun(es), Requests(es))
  {
    if es != [] {
      LuaAcceptsAllKeeps(es[..|es| - 1]);
      RequestsExtend(es);
    }
  }

  /** Among calls with distinct nonces the script accepts exactly the climbing ones that start at zero or above. */
  lemma {:induction false} LuaAcceptsAllIff(es: seq<Event>)
    requires NoncesDistinct(Requests(es))
    ensures LuaAcceptsAll(es) <==> Climbing(Requests(es)) && NonNegative(Requests(es))
  {
    if LuaAcceptsAll(es) {
      LuaAcceptsAllKeeps(es);
      LuaAcceptedClimbs(es);
    }
    if es != [] {
      var init, e := es[..|es| - 1], es[|es| - 1];
      RequestsExtend(es);
      LuaAcceptsAllIff(init);
      if e.Request? && LuaAcceptsAll(init) {
        LuaAcceptsAllKeeps(init);
        SequenceTracksAccepted(init, e.c.session);
        NeverCalled(Requests(init), e.c.session);
      }
    }
  }

  lemma {:induction false} NeverCalled(cs: seq<Call>, session: Id)
    ensures !Called(cs, session) ==> LastOf(cs, session, -1) == -1
  {
    if cs != [] {
      NeverCalled(cs[..|cs| - 1], session);
    }
  }

  /**
    Exact relation of the in-memory guard and the script, for every expiry schedule: the guard accepts in full, with
    sequences at or above zero, exactly what the script accepts in full without a repeated or a short nonce.
   */
  lemma ScriptAgrees(es: seq<Event>)
    ensures MemoryAcceptsAll(Requests(es)) && NonNegative(Requests(es))
       <==> LuaAcceptsAll(es) && NoncesDistinct(Requests(es)) && AllLong(Requests(es))
  {
    MemoryAcceptsAllIff(Requests(es));
    if NoncesDistinct(Requests(es)) {
      LuaAcceptsAllIff(es);
    }
  }

  /** The wrapper accepts what the script would accept if the short requests had not been made. */
  lemma {:induction false} WrapperIsScriptOnLong(es: seq<Event>)
    ensures WrapperRun(es) == LuaRun(LongOnly(es)) && WrapperAccepted(es) == LuaAccepted(LongOnly(es))
  {
    if es != [] {
      var init, e := es[..|es| - 1], es[|es| - 1];
      WrapperIsScriptOnLong(init);
      if e.Request? && Short(e.c) {
        assert LongOnly(es) == LongOnly(init);
      } else {
        assert (LongOnly(init) + [e])[..|LongOnly(init)|] == LongOnly(init);
      }
    }
  }

  function LongOnly(es: seq<Event>): seq<Event> {
    if es == [] then [] else
      LongOnly(es[..|es| - 1]) + if es[|es| - 1].Request? && Short(es[|es| - 1].c) then [] else [es[|es| - 1]]
  }

  /** The wrapper inherits the script's safety: no call is accepted twice, whatever expires when. */
  lemma NoReplayThroughWrapper(es: seq<Event>, i: nat, j: nat)
    requires i < j < |WrapperAccepted(es)|
    ensures WrapperAccepted(es)[i].session == WrapperAccepted(es)[j].session ==>
              WrapperAccepted(es)[i].seqno < WrapperAccepted(es)[j].seqno
    ensures WrapperAccepted(es)[i] != WrapperAccepted(es)[j]
  {
    WrapperIsScriptOnLong(es);
    NoReplayUnderExpiry(LongOnly(es), i, j);
  }

  lemma {:induction false} WrapperAcceptsAllIff(es: seq<Event>)
    ensures WrapperAcceptsAll(es) <==> LuaAcceptsAll(es) && AllLong(Requests(es))
    ensures AllLong(Requests(es)) ==> WrapperRun(es) == LuaRun(es)
  {
    if es != [] {
      WrapperAcceptsAllIff(es[..|es| - 1]);
      RequestsExtend(es);
    }
  }

  /** Exact relation of the two deployable guards: they part only on repeated nonces and below zero. */
  lemma GuardsAgree(es: seq<Event>)
    ensures MemoryAcceptsAll(Requests(es)) && NonNegative(Requests(es))
       <==> WrapperAcceptsAll(es) && NoncesDistinct(Requests(es))
  {
    ScriptAgrees(es);
    WrapperAcceptsAllIff(es);
  }

  /** The script alone has no length rule: a short nonce passes it and is refused in memory. */
  lemma ShortNoncePassesScript(session: Id, nonce: Id)
    requires |nonce.text| < MIN_NONCE_HEX
    ensures var c := Call(session, nonce, 0); LuaAcceptsAll([Request(c)]) && !MemoryAcceptsAll([c])
  {
    var c := Call(session, nonce, 0);
    assert [c][..0] == [] && [Request(c)][..0] == [];
    assert LuaRun([]) == Redis(map[], map[]) && LuaAcceptsAll([]);
  }

  /** Below zero the guards part: the first call of a session with a negative sequence passes only in memory. */
  lemma NegativeSequencePartsGuards(session: Id, nonce: Id)
    requires |nonce.text| >= MIN_NONCE_HEX
    ensures MemoryAcceptsAll([Call(session, nonce, -1)]) && !LuaAcceptsAll([Request(Call(session, nonce, -1))])
  {
    var c := Call(session, nonce, -1);
    assert [c][..0] == [] && [Request(c)][..0] == [];
    assert MemoryRun([]) == Memory({}, map[]) && LuaRun([]) == Redis(map[], map[]);
    assert MemoryAcceptsAll([]);
  }

  // ---------------------------------------------------------------------------
  // What each guard answers to the next call
  // ---------------------------------------------------------------------------

  /** The calls the in-memory guard accepted, in order. */
  function MemoryAccepted(cs: seq<Call>): seq<Call> {
    if cs == [] then [] else
      var init, c := cs[..|cs| - 1], cs[|cs| - 1];
      MemoryAccepted(init) + if MemoryCheck(MemoryRun(init), c).Accepted? then [c] else []
  }

  lemma {:induction false} MemoryTracksAccepted(cs: seq<Call>, session: Id)
    ensures MemoryRun(cs).nonces == Nonces(MemoryAccepted(cs))
    ensures session in MemoryRun(cs).highest <==> Called(MemoryAccepted(cs), session)
    ensures session in MemoryRun(cs).highest ==>
              MemoryRun(cs).highest[session] == LastOf(MemoryAccepted(cs), session, -1)
  {
    if cs != [] {
      var init, c := cs[..|cs| - 1], cs[|cs| - 1];
      MemoryTracksAccepted(init, session);
      var was := MemoryAccepted(init);
      if MemoryCheck(MemoryRun(init), c).Accepted? {
        assert (was + [c])[..|was|] == was;
      } else {
        assert MemoryAccepted(cs) == was;
      }
    }
  }

  /** The answer of the in-memory guard, told from the calls it accepted before. */
  lemma MemoryAnswers(cs: seq<Call>, c: Call)
    ensures var answer, before := MemoryCheck(MemoryRun(cs), c), MemoryAccepted(cs);
            var long, seen := |c.nonce.text| >= 32, c.nonce in Nonces(before);
            var behind := Called(before, c.session) && c.seqno <= LastOf(before, c.session, -1);
            && (answer == SchemaInvalid <==> !long)
            && (answer == NonceReplay <==> long && seen)
            && (answer == SequenceInvalid <==> long && !seen && behind)
            && (answer == Accepted <==> long && !seen && !behind)
  {
    MemoryTracksAccepted(cs, c.session);
  }

  /** The nonces the script accepted in a session since the session's nonce set last expired. */
  function Remembered(es: seq<Event>, session: Id): set<Id> {
    if es == [] then {} else
      var init, e := es[..|es| - 1], es[|es| - 1];
      if e == Expire(session) then {}
      else if |LuaAccepted(es)| > |LuaAccepted(init)| && e.Request? && e.c.session == session
      then Remembered(init, session) + {e.c.nonce}
      else Remembered(init, session)
  }

  lemma {:induction false} MembersAreRemembered(es: seq<Event>, session: Id)
    ensures Members(LuaRun(es), session) == Remembered(es, session)
  {
    if es != [] {
      MembersAreRemembered(es[..|es| - 1], session);
    }
  }

  /** The answer of the script, told from the calls it accepted and the expiries so far. */
  lemma ScriptAnswers(es: seq<Event>, c: Call)
    ensures var answer, seen := LuaCheck(LuaRun(es), c), c.nonce in Remembered(es, c.session);
            var behind := c.seqno <= LastOf(LuaAccepted(es), c.session, -1);
            && (answer == NonceReplay <==> seen)
            && (answer == SequenceInvalid <==> !seen && behind)
            && (answer == Accepted <==> !seen && !behind)
  {
    MembersAreRemembered(es, c.session);
    SequenceTracksAccepted(es, c.session);
  }

  // ---------------------------------------------------------------------------
  // The guard objects
  // ---------------------------------------------------------------------------

  class InMemoryReplayGuard {
    var nonces: set<Id>
    var highest: map<Id, int>

    constructor ()
      ensures Memory(nonces, highest) == MemoryRun([])
    {
      nonces, highest := {}, map[];
    }

    method CheckAndCommit(c: Call) returns (o: Outcome)
      modifies this
      ensures o == MemoryCheck(old(Memory(nonces, highest)), c)
      ensures Memory(nonces, highest) == MemoryCommit(old(Memory(nonces, highest)), c)
    {
      if |c.nonce.text| < MIN_NONCE_HEX { return SchemaInvalid; }
      if c.nonce in nonces { return NonceReplay; }
      if c.session in highest && c.seqno <= highest[c.session] { return SequenceInvalid; }
      nonces := nonces + {c.nonce};
      highest := highest[c.session := c.seqno];
      return Accepted;
    }
  }

  class LuaReplayGuard {
    var nonces: map<Id, set<Id>>
    var sequence: map<Id, int>

    constructor ()
      ensures Redis(nonces, sequence) == LuaRun([])
    {
      nonces, sequence := map[], map[];
    }

    /** One atomic evaluation of the script. */
    method Eval(c: Call) returns (o: Outcome)
      modifies this
      ensures o == LuaCheck(old(Redis(nonces, sequence)), c)
      ensures Redis(nonces, sequence) == LuaStep(old(Redis(nonces, sequence)), Request(c))
    {
      var members := if c.session in nonces then nonces[c.session] else {};
      if c.nonce in members { return NonceReplay; }
      var last := if c.session in sequence then sequence[c.session] else -1;
      if c.seqno <= last { return SequenceInvalid; }
      nonces := nonces[c.session := members + {c.nonce}];
      sequence := sequence[c.session := c.seqno];
      return Accepted;
    }

    /** The store drops a session's nonce set. */
    method Lapse(session: Id)
      modifies this`nonces
      ensures Redis(nonces, sequence) == LuaStep(old(Redis(nonces, sequence)), Expire(session))
    {
      nonces := nonces - {session};
    }
  }

  class RedisReplayGuard {
    const script: LuaReplayGuard

    constructor (script: LuaReplayGuard)
      ensures this.script == script
    {
      this.script := script;
    }

    method CheckAndCommit(c: Call) returns (o: Outcome)
      modifies script
      ensures o == WrapperCheck(old(Redis(script.nonces, script.sequence)), c)
      ensures Redis(script.nonces, script.sequence)
          == WrapperStep(old(Redis(script.nonces, script.sequence)), Request(c))
    {
      if |c.nonce.text| < MIN_NONCE_HEX { return SchemaInvalid; }
      o := script.Eval(c);
    }
  }
}
