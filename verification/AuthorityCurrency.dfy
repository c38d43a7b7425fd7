/**
  When a token of the plane is current: at its validation, at its use and at its execution, over every interleaving of
  the authority protocol, with the runs that show the conditions are needed.
 */
module AuthorityCurrency {
  import opened Common
  import opened Ladder
  import opened Containment
  import CI = ContainmentInterleaving
  import opened Tokens
  import opened ControlPlane
  import opened AuthorityInterleaving
  import opened AuthorityReceipts

  // ---------------------------------------------------------------------------
  // The pieces run alone
  // ---------------------------------------------------------------------------

  lemma Prepend(h: Hash, cfg: PlaneConfig, w: World, step: Step, rest: seq<Step>, last: World)
    requires Enabled(w, step) && Runs(h, cfg, Next(h, cfg, w, step), rest, last)
    ensures Runs(h, cfg, w, [step] + rest, last)
  {
    hide Next, Enabled;
    assert ([step] + rest)[1..] == rest;
  }

  lemma {:induction false} Concat(h: Hash, cfg: PlaneConfig, w: World, a: seq<Step>, x: World, b: seq<Step>, y: World)
    requires Runs(h, cfg, w, a, x) && Runs(h, cfg, x, b, y)
    ensures Runs(h, cfg, w, a + b, y)
    decreases |a|
  {
    hide Next, Enabled;
    if a == [] {
      assert a + b == b;
    } else {
      Concat(h, cfg, Next(h, cfg, w, a[0]), a[1..], x, b, y);
      assert (a + b)[1..] == a[1..] + b;
    }
  }

  /** Containment steps are steps of the world. */
  lemma {:induction false} Lift(h: Hash, cfg: PlaneConfig, w: World, steps: seq<CI.Step>, n: Machine)
    returns (lifted: seq<Step>)
    requires CI.Runs(w.m, steps, n)
    ensures Runs(h, cfg, w, lifted, w.(m := n))
    decreases |steps|
  {
    hide CI.Next, CI.Enabled;
    if steps == [] {
      lifted := [];
    } else {
      var next := w.(m := CI.Next(w.m, steps[0]));
      var rest := Lift(h, cfg, next, steps[1..], n);
      Prepend(h, cfg, w, Contain(steps[0]), rest, w.(m := n));
      lifted := [Contain(steps[0])] + rest;
    }
  }

  /** A containment operation that meets no other thread takes its atomic effect. */
  lemma ContainAlone(h: Hash, cfg: PlaneConfig, w: World, op: Op) returns (steps: seq<Step>)
    requires w.m.locks == map[] && w.m.pcs == map[] && !BadKill(op)
    ensures Runs(h, cfg, w, steps, w.(m := CI.Machine(Apply(w.m.engine, op), map[], map[])))
  {
    hide Apply, CI.Runs;
    var n := CI.Machine(Apply(w.m.engine, op), map[], map[]);
    assert w.m == CI.Machine(w.m.engine, map[], map[]);
    CI.PiecesMakeTheOperation(w.m.engine, 0, op);
    var inner :| CI.Runs(w.m, inner, n);
    steps := Lift(h, cfg, w, inner, n);
  }

  /** From a passed gate on: stamp, seal and present, with nobody in between. */
  lemma SealAlone(h: Hash, cfg: PlaneConfig, w: World, t: nat, drawn: Drawn, now: int)
    returns (steps: seq<Step>, last: World, signed: SignedToken)
    requires t in w.plane && w.plane[t].Passed? && Unused(w, drawn.tokenId, drawn.nonce) && cfg.ttl > 0
    ensures Runs(h, cfg, w, steps, last)
    ensures last.m == w.m && last.broker == w.broker && last.finished == w.finished
    ensures var k := w.plane[t];
            var order := OrderFor(cfg, w.m.engine.epochs, k.pending, k.state, k.d, drawn, now);
            && Issue(h, order) == Ok(signed)
            && last.gateway == PresentTo(w.gateway.(issued := w.gateway.issued + {signed}), signed)
            && last.mints == w.mints[signed := Plane(SubjectKey(k.pending.binding), k.seen, k.gate, w.m)]
            && last.plane == w.plane - {t}
  {
    var k := w.plane[t];
    signed := Issue(h, OrderFor(cfg, w.m.engine.epochs, k.pending, k.state, k.d, drawn, now)).value;
    var a, b, c := ReadEpochs(t), Seal(t, drawn, now), Present(signed);
    hide Unused, SubjectKey;
    var x := Next(h, cfg, w, a);
    assert x.mints == w.mints && Unused(x, drawn.tokenId, drawn.nonce)
        by { UnusedSame(w, x, drawn.tokenId, drawn.nonce); }
    var y := Next(h, cfg, x, b);
    last := Next(h, cfg, y, c);
    assert x.plane - {t} == w.plane - {t};
    Prepend(h, cfg, y, c, [], last);
    Prepend(h, cfg, x, b, [c] + [], last);
    Prepend(h, cfg, w, a, [b] + ([c] + []), last);
    steps := [a] + ([b] + ([c] + []));
  }

  lemma UnusedSame(w: World, x: World, tokenId: Id, nonce: Id)
    requires w.mints == x.mints && Unused(w, tokenId, nonce)
    ensures Unused(x, tokenId, nonce)
  {
  }

  /** Run alone, the plane's reads and its mint make up the mint of the control plane. */
  lemma MintAlone(h: Hash, cfg: PlaneConfig, w: World, t: nat, p: Pending, d: Id, drawn: Drawn, now: int, c: Core)
    returns (steps: seq<Step>, last: World, signed: SignedToken)
    requires t !in w.plane && Unused(w, drawn.tokenId, drawn.nonce) && cfg.ttl > 0
    requires !Blocks(StateOf(w.m.engine, SubjectKey(p.binding))) && c.engine == w.m.engine && c.gateway == w.gateway
    ensures Runs(h, cfg, w, steps, last)
    ensures var minted := MintToken(h, cfg, c, p, StateOf(w.m.engine, SubjectKey(p.binding)), d, drawn, now);
            minted.1 == Ok(Some(signed)) && last.gateway == minted.0.gateway
    ensures last.m == w.m && last.plane == w.plane && last.broker == w.broker && last.finished == w.finished
    ensures last.mints == w.mints[signed := Plane(SubjectKey(p.binding), w.m, w.m, w.m)]
  {
    hide SubjectKey, Unused, StateOf, Blocks;
    var a, b := ReadState(t, p, d), ReadGate(t);
    var x := Next(h, cfg, w, a);
    var y := Next(h, cfg, x, b);
    UnusedSame(w, y, drawn.tokenId, drawn.nonce);
    var rest;
    rest, last, signed := SealAlone(h, cfg, y, t, drawn, now);
    assert y.plane - {t} == w.plane;
    Prepend(h, cfg, x, b, rest, last);
    Prepend(h, cfg, w, a, [b] + rest, last);
    steps := [a] + ([b] + rest);
  }

  /** From the use count on, with nobody in between. */
  lemma SpendAlone(h: Hash, cfg: PlaneConfig, w: World, t: nat, run: Effecting) returns (steps: seq<Step>, last: World)
    requires t in w.broker && w.broker[t].Checked?
    ensures Runs(h, cfg, w, steps, last)
    ensures last == w.(gateway := Charged(h, w.gateway, w.broker[t], run), broker := w.broker - {t},
                       finished := last.finished)
  {
    hide Receipted;
    var x := Next(h, cfg, w, Spend(t));
    last := Next(h, cfg, x, Finish(t, run));
    assert x.broker - {t} == w.broker - {t};
    Prepend(h, cfg, x, Finish(t, run), [], last);
    Prepend(h, cfg, w, Spend(t), [Finish(t, run)] + [], last);
    steps := [Spend(t)] + ([Finish(t, run)] + []);
  }

  /** The end of a mediation whose token passed every check but the use count. */
  function Charged(h: Hash, g: Gateway, b: BrokerThread, run: Effecting): Gateway
    requires b.Checked?
  {
    if UsesOf(g.uses, b.signed.token.nonce) >= b.signed.token.maxUses
        then Receipted(h, g, Refused(b.o, TokenReplay), run)
    else Receipted(h, Consume(g, b.signed.token.nonce), Spent(b.o, b.signed, b.at), run)
  }

  lemma RefusalAlone(h: Hash, cfg: PlaneConfig, w: World, t: nat, run: Effecting)
    returns (steps: seq<Step>, last: World)
    requires t in w.broker && w.broker[t].Refused?
    ensures Runs(h, cfg, w, steps, last)
    ensures last == w.(gateway := Receipted(h, w.gateway, w.broker[t], run), broker := w.broker - {t},
                       finished := last.finished)
  {
    hide Receipted;
    last := Next(h, cfg, w, Finish(t, run));
    Prepend(h, cfg, w, Finish(t, run), [], last);
    steps := [Finish(t, run)] + [];
  }

  /** The mediation of the broker, read off its pieces. */
  lemma MediateByPieces(h: Hash, w: World, o: Observation, run: Effecting)
    ensures var g, key := w.gateway, (o.audience, h(o.action));
            Mediate(h, g, w.m.engine.epochs, o, run).0 ==
            if key !in g.presented then Receipted(h, g, Refused(o, TokenInvalid), run)
            else var signed := g.presented[key];
                 var fault := Fault(h, g, w.m.engine.epochs, o, signed);
                 if fault.Some? then Receipted(h, g, Refused(o, fault.value), run)
                 else Charged(h, g, Checked(o, signed, w.m), run)
  {
    hide Defect, ExactMatch;
  }

  /** Run alone, the pieces of a mediation make up the broker's mediation. */
  lemma MediationAlone(h: Hash, cfg: PlaneConfig, w: World, t: nat, o: Observation, run: Effecting)
    returns (steps: seq<Step>, last: World)
    requires t !in w.broker
    ensures Runs(h, cfg, w, steps, last)
    ensures last == w.(gateway := Mediate(h, w.gateway, w.m.engine.epochs, o, run).0, finished := last.finished)
  {
    MediateByPieces(h, w, o, run);
    hide Mediate, Fault, Receipted, Charged;
    var a, b := Fetch(t, o), Check(t);
    var x := Next(h, cfg, w, a);
    assert x.broker - {t} == w.broker;
    var rest: seq<Step>;
    if x.broker[t].Refused? {
      rest, last := RefusalAlone(h, cfg, x, t, run);
    } else {
      var y := Next(h, cfg, x, b);
      assert y.broker - {t} == w.broker;
      if y.broker[t].Refused? {
        rest, last := RefusalAlone(h, cfg, y, t, run);
      } else {
        rest, last := SpendAlone(h, cfg, y, t, run);
      }
      Prepend(h, cfg, x, b, rest, last);
      rest := [b] + rest;
    }
    Prepend(h, cfg, w, a, rest, last);
    steps := [a] + rest;
  }

  // ---------------------------------------------------------------------------
  // Currency at validation, at use and at execution
  // ---------------------------------------------------------------------------

  /** The next step of `t`, the one that reads the epochs, finds nothing against its token. */
  ghost predicate Passes(h: Hash, w: World, t: nat) {
    && t in w.broker && w.broker[t].Fetched?
    && Fault(h, w.gateway, w.m.engine.epochs, w.broker[t].o, w.broker[t].signed).None?
  }

  /** The next step of `t` counts a use of its token. */
  ghost predicate Spends(w: World, t: nat) {
    && t in w.broker && w.broker[t].Checked?
    && UsesOf(w.gateway.uses, w.broker[t].signed.token.nonce) < w.broker[t].signed.token.maxUses
  }

  /** Nothing was written since the first read; then the recorded state is the current one, and not a blocking one. */
  lemma CurrentIff(seen: Machine, gate: Machine, at: Machine, subject: Id, initial: int)
    requires Follows(seen, at, initial) && Gated(seen, gate, at, subject, initial)
    ensures SameHistory(seen.engine, at.engine) <==> Open(at) == Open(seen) + Since(seen, at)
    ensures SameHistory(seen.engine, at.engine) ==>
              StateOf(at.engine, subject) == StateOf(seen.engine, subject) && !Blocks(StateOf(seen.engine, subject))
  {
    hide MachineOk, Open, Blocks, HistoriesGrow, Since;
    HistoryKeptIff(seen, at, initial);
    if SameHistory(seen.engine, at.engine) {
      HistoryBetween(seen, gate, at, initial, subject);
    }
  }

  lemma ReachableToken(h: Hash, cfg: PlaneConfig, config: Config, epochs: EpochSet, steps: seq<Step>, w: World,
                       signed: SignedToken)
    requires Runs(h, cfg, Start(config, epochs), steps, w)
    ensures TokenInv(w, epochs.capability) && TokenOk(w, signed, epochs.capability)
  {
    hide Runs, Start, TokenOk, PlaneOk, BrokerSeen, FinishedSeen, MachineOk;
    StartIsSound(config, epochs);
    RunKeepsTokenInv(h, cfg, Start(config, epochs), steps, w, epochs.capability);
  }

  /**
    At the validation, in every interleaving: since the first containment read of a plane token that passes no
    transition was written iff every epoch open at that read, or drawn from then to the token's epoch read, is still
    open. Then the subject is in the state the token records, below quarantine.
   */
  lemma CheckedTokenCurrentIff(h: Hash, cfg: PlaneConfig, config: Config, epochs: EpochSet, steps: seq<Step>, w: World,
                               t: nat)
    requires Runs(h, cfg, Start(config, epochs), steps, w) && Passes(h, w, t)
    ensures w.broker[t].signed in w.mints
    ensures w.mints[w.broker[t].signed].Plane? ==>
              var token, Plane(subject, seen, gate, stamp) := w.broker[t].signed.token, w.mints[w.broker[t].signed];
              && subject == SubjectKey(w.broker[t].o.binding)
              && (SameHistory(seen.engine, w.m.engine) <==> Open(w.m) == Open(seen) + Since(seen, stamp))
              && (SameHistory(seen.engine, w.m.engine) ==>
                    StateOf(w.m.engine, subject) == token.containment && !Blocks(token.containment))
  {
    var o, signed := w.broker[t].o, w.broker[t].signed;
    FaultlessFacts(h, w.gateway, w.m.engine.epochs, o, signed);
    ReachableToken(h, cfg, config, epochs, steps, w, signed);
    hide Runs, Start, Fault, Follows, Gated, MachineOk, PlaneOk, BrokerSeen, FinishedSeen, Open, SameHistory, Blocks,
         SubjectKey, StateOf;
    if w.mints[signed].Plane? {
      var Plane(subject, seen, gate, stamp) := w.mints[signed];
      CurrentIff(seen, gate, w.m, subject, epochs.capability);
    }
  }

  /** At the use, in every interleaving: the same with every epoch drawn up to the use. */
  lemma SpentTokenCurrentIff(h: Hash, cfg: PlaneConfig, config: Config, epochs: EpochSet, steps: seq<Step>, w: World,
                             t: nat)
    requires Runs(h, cfg, Start(config, epochs), steps, w) && Spends(w, t)
    ensures w.broker[t].signed in w.mints
    ensures w.mints[w.broker[t].signed].Plane? ==>
              var token, Plane(subject, seen, gate, stamp) := w.broker[t].signed.token, w.mints[w.broker[t].signed];
              && (SameHistory(seen.engine, w.m.engine) <==> Open(w.m) == Open(seen) + Since(seen, w.m))
              && (SameHistory(seen.engine, w.m.engine) ==>
                    StateOf(w.m.engine, subject) == token.containment && !Blocks(token.containment))
  {
    var signed := w.broker[t].signed;
    ReachableToken(h, cfg, config, epochs, steps, w, signed);
    assert BrokerSeen(w, t, epochs.capability);
    hide Runs, Start, Follows, Gated, MachineOk, PlaneOk, FinishedSeen, Open, SameHistory, Blocks, SubjectKey, StateOf,
         Since;
    if w.mints[signed].Plane? {
      var Plane(subject, seen, gate, stamp) := w.mints[signed];
      CurrentIff(seen, gate, w.m, subject, epochs.capability);
    }
  }

  /** Every executed action of a plane token: exactly when its token was current at the validation. */
  lemma ExecutedTokenCurrentIff(h: Hash, cfg: PlaneConfig, config: Config, epochs: EpochSet, steps: seq<Step>, w: World,
                                k: nat)
    requires Runs(h, cfg, Start(config, epochs), steps, w)
    requires k < |w.gateway.receipts| && w.gateway.receipts[k].verdict == Executed
    ensures k < |w.finished| && w.finished[k].Spent? && w.finished[k].signed in w.mints
    ensures w.mints[w.finished[k].signed].Plane? ==>
              var b, Plane(subject, seen, gate, stamp) := w.finished[k], w.mints[w.finished[k].signed];
              && (SameHistory(seen.engine, b.at.engine) <==> Open(b.at) == Open(seen) + Since(seen, stamp))
              && (SameHistory(seen.engine, b.at.engine) ==>
                    StateOf(b.at.engine, subject) == b.signed.token.containment && !Blocks(b.signed.token.containment))
  {
    ExecutionsAreAuthorised(h, cfg, config, epochs, steps, w, k);
    var b := w.finished[k];
    ReachableToken(h, cfg, config, epochs, steps, w, b.signed);
    assert FinishedSeen(w, k, epochs.capability);
    hide Runs, Start, Follows, Gated, MachineOk, PlaneOk, BrokerSeen, Open, SameHistory, Blocks, SubjectKey, StateOf,
         Binds;
    if w.mints[b.signed].Plane? {
      var Plane(subject, seen, gate, stamp) := w.mints[b.signed];
      CurrentIff(seen, gate, b.at, subject, epochs.capability);
    }
  }

  // ---------------------------------------------------------------------------
  // What is settled at the mint
  // ---------------------------------------------------------------------------

  /** Whenever any continuation validates the token, nothing has been written since the engine `seen`. */
  ghost predicate AlwaysCurrent(h: Hash, cfg: PlaneConfig, w: World, signed: SignedToken, seen: Machine) {
    forall more, last, t | Runs(h, cfg, w, more, last) && Passes(h, last, t) && last.broker[t].signed == signed ::
      SameHistory(seen.engine, last.m.engine)
  }

  /** Whenever any continuation counts a use of the token, nothing has been written since the engine `seen`. */
  ghost predicate AlwaysCurrentAtUse(h: Hash, cfg: PlaneConfig, w: World, signed: SignedToken, seen: Machine) {
    forall more, last, t | Runs(h, cfg, w, more, last) && Spends(last, t) && last.broker[t].signed == signed ::
      SameHistory(seen.engine, last.m.engine)
  }

  /** The token's epochs were those of its first containment read, and no transition was half done then. */
  ghost predicate CleanRead(seen: Machine, stamp: Machine) {
    seen.engine.epochs.capability == stamp.engine.epochs.capability && Open(seen) == {}
  }

  lemma PassFacts(h: Hash, w: World, t: nat)
    requires Passes(h, w, t)
    ensures w.broker[t].signed in w.gateway.issued && w.broker[t].signed.token.epochs == w.m.engine.epochs
  {
    hide Fault;
    FaultlessFacts(h, w.gateway, w.m.engine.epochs, w.broker[t].o, w.broker[t].signed);
  }

  lemma CleanTokenStaysCurrent(h: Hash, cfg: PlaneConfig, w: World, signed: SignedToken, seen: Machine, stamp: Machine,
                               initial: int, more: seq<Step>, last: World, t: nat)
    requires Follows(seen, w.m, initial) && Follows(stamp, w.m, initial) && signed.token.epochs == stamp.engine.epochs
    requires signed.token.epochs != w.m.engine.epochs || CleanRead(seen, stamp)
    requires Runs(h, cfg, w, more, last) && Passes(h, last, t) && last.broker[t].signed == signed
    ensures SameHistory(seen.engine, last.m.engine)
  {
    hide Runs, Fault, MachineOk, Open, HistoriesGrow, SameHistory;
    PassFacts(h, last, t);
    FollowsSelf(w.m, initial);
    RunFollows(h, cfg, w, more, last, seen, initial);
    RunFollows(h, cfg, w, more, last, w.m, initial);
    HistoryKeptIff(seen, last.m, initial);
  }

  /** Presented and looked up by a new mediation, a fresh token is about to pass. */
  lemma FreshTokenPasses(h: Hash, cfg: PlaneConfig, w: World, order: Order, signed: SignedToken)
    returns (steps: seq<Step>, last: World, t: nat)
    requires Issue(h, order) == Ok(signed) && signed in w.gateway.issued && order.epochs == w.m.engine.epochs
    ensures Runs(h, cfg, w, steps, last) && Passes(h, last, t) && last.broker[t].signed == signed
    ensures last.m == w.m && last.gateway.uses == w.gateway.uses && last.gateway.issued == w.gateway.issued
  {
    t := Above(w.broker.Keys);
    var o := Observation(order.action, order.binding, order.audience, order.now);
    var a, b := Present(signed), Fetch(t, o);
    var x := Next(h, cfg, w, a);
    last := Next(h, cfg, x, b);
    Prepend(h, cfg, x, b, [], last);
    Prepend(h, cfg, w, a, [b] + [], last);
    steps := [a] + ([b] + []);
  }

  /** In any world some transition can be written without touching tokens or mediations. */
  lemma SomethingWritten(h: Hash, cfg: PlaneConfig, w: World, seen: Machine, initial: int)
    returns (steps: seq<Step>, last: World)
    requires Follows(seen, w.m, initial)
    ensures Runs(h, cfg, w, steps, last) && last == w.(m := last.m) && !SameHistory(seen.engine, last.m.engine)
    ensures Open(w.m) != {} ==> last.m.engine.epochs == w.m.engine.epochs
  {
    hide SameHistory, CI.Next, CI.Runs, CI.Enabled, Follows, Open, Next, Runs;
    var inner: seq<CI.Step>, n, t := [], w.m, 0;
    if Open(w.m) != {} {
      t := OpenThread(seen, w.m, initial);
      NoSteps(w.m);
    } else {
      inner, n, t := NewKill(w.m);
    }
    var first := Lift(h, cfg, w, inner, n);
    var x := w.(m := n);
    RunFollows(h, cfg, w, first, x, seen, initial);
    CommitEndsHistory(seen, n, t, initial);
    last := w.(m := CI.Next(n, CI.Commit(t)));
    OneContainment(h, cfg, x, CI.Commit(t));
    Concat(h, cfg, w, first, x, [Contain(CI.Commit(t))], last);
    steps := first + [Contain(CI.Commit(t))];
  }

  lemma NoSteps(m: Machine)
    ensures CI.Runs(m, [], m)
  {
  }

  lemma OneContainment(h: Hash, cfg: PlaneConfig, w: World, step: CI.Step)
    requires CI.Enabled(w.m, step)
    ensures Runs(h, cfg, w, [Contain(step)], w.(m := CI.Next(w.m, step)))
  {
    hide CI.Next, CI.Enabled;
    Prepend(h, cfg, w, Contain(step), [], w.(m := CI.Next(w.m, step)));
    assert [Contain(step)] + [] == [Contain(step)];
  }

  /** A kill of an unknown subject by a new thread, up to its write. */
  lemma NewKill(m: Machine) returns (steps: seq<CI.Step>, n: Machine, t: nat)
    ensures CI.Runs(m, steps, n) && CI.Enabled(n, CI.Commit(t))
  {
    t := Above(m.pcs.Keys);
    var s := Unheard(m.locks.Keys);
    var op := Op(s, s, None, 0, Kill(Quarantined));
    var a, b, c, d := CI.Enter(t, op), CI.Lock(t), CI.Decide(t), CI.Draw(t);
    var m1 := CI.Next(m, a);
    var m2 := CI.Next(m1, b);
    var m3 := CI.Next(m2, c);
    assert m3.pcs[t].Decided?;
    n := CI.Next(m3, d);
    CI.ThreeSteps(m1, b, c, d);
    steps := [a, b, c, d];
    assert steps[1..] == [b, c, d];
  }

  lemma OpenThread(seen: Machine, m: Machine, initial: int) returns (t: nat)
    requires Follows(seen, m, initial) && Open(m) != {}
    ensures CI.Enabled(m, CI.Commit(t))
  {
    t :| t in m.pcs && m.pcs[t].Drawn?;
    assert CI.ThreadOk(m, t);
  }

  lemma CommitEndsHistory(seen: Machine, m: Machine, t: nat, initial: int)
    requires Follows(seen, m, initial) && CI.Enabled(m, CI.Commit(t))
    ensures !SameHistory(seen.engine, CI.Next(m, CI.Commit(t)).engine)
    ensures CI.Next(m, CI.Commit(t)).engine.epochs == m.engine.epochs
  {
    var n := CI.Next(m, CI.Commit(t));
    assert OpenApart(m);
    CommitWrites(m, t);
    FollowsStep(seen, m, CI.Commit(t), initial);
    HistoryKeptIff(seen, n, initial);
    assert m.pcs[t].epoch in Open(seen) + Since(seen, m);
    hide CI.Next, SameHistory, HistoriesGrow, MachineOk, Open, OpenApart;
  }

  /** Unless the first read was clean, some continuation validates the token after a transition was written. */
  lemma UncleanTokenCanLapse(h: Hash, cfg: PlaneConfig, w: World, order: Order, signed: SignedToken, seen: Machine,
                             stamp: Machine, initial: int)
    returns (more: seq<Step>, last: World, t: nat)
    requires Follows(seen, w.m, initial) && Follows(seen, stamp, initial) && !CleanRead(seen, stamp)
    requires stamp.engine.epochs == w.m.engine.epochs == order.epochs
    requires Issue(h, order) == Ok(signed) && signed in w.gateway.issued
    ensures Runs(h, cfg, w, more, last) && Passes(h, last, t) && last.broker[t].signed == signed
    ensures !SameHistory(seen.engine, last.m.engine)
  {
    hide Runs, SameHistory, Follows, CleanRead, Open, Issue, Fault;
    more, last, t := FreshTokenPasses(h, cfg, w, order, signed);
    if Open(w.m) == {} {
      NothingOpenButUnclean(seen, stamp, w.m, initial);
    } else {
      var x, rest := last, [];
      rest, last := SomethingWritten(h, cfg, x, seen, initial);
      Concat(h, cfg, w, more, x, rest, last);
      more := more + rest;
    }
  }

  lemma NothingOpenButUnclean(seen: Machine, stamp: Machine, m: Machine, initial: int)
    requires Follows(seen, m, initial) && Follows(seen, stamp, initial) && !CleanRead(seen, stamp) && Open(m) == {}
    requires stamp.engine.epochs == m.engine.epochs
    ensures !SameHistory(seen.engine, m.engine)
  {
    hide MachineOk, SameHistory, HistoriesGrow, Open;
    HistoryKeptIff(seen, m, initial);
    assert seen.engine.epochs.capability < stamp.engine.epochs.capability ==>
             stamp.engine.epochs.capability in Since(seen, m);
  }

  /**
    Exact condition at the mint: in every continuation, whenever the token passes its validation nothing has been
    written since its first containment read, iff the token is stale already, or the epochs were equal at that read and
    at the epoch read and no transition stood between its epoch and its write at the first read.
   */
  lemma CurrentForeverIff(h: Hash, cfg: PlaneConfig, config: Config, epochs: EpochSet, before: seq<Step>, v: World,
                          t: nat, drawn: Drawn, now: int)
    requires Runs(h, cfg, Start(config, epochs), before, v) && Enabled(v, Seal(t, drawn, now)) && cfg.ttl > 0
    ensures var k, w := v.plane[t], Next(h, cfg, v, Seal(t, drawn, now));
            var issued := Issue(h, SealedOrder(cfg, k, drawn, now));
            && issued.Ok?
            && (AlwaysCurrent(h, cfg, w, issued.value, k.seen) <==>
                  issued.value.token.epochs != w.m.engine.epochs || CleanRead(k.seen, k.stamp))
  {
    var initial := epochs.capability;
    var k, w := v.plane[t], Next(h, cfg, v, Seal(t, drawn, now));
    var order := SealedOrder(cfg, k, drawn, now);
    SealedWorld(h, cfg, config, epochs, before, v, t, drawn, now);
    var signed := Issue(h, order).value;
    hide Runs, Next, Enabled, Follows, CleanRead, Passes, SameHistory, Start, Issue;
    if signed.token.epochs != w.m.engine.epochs || CleanRead(k.seen, k.stamp) {
      forall more, last, b | Runs(h, cfg, w, more, last) && Passes(h, last, b) && last.broker[b].signed == signed
        ensures SameHistory(k.seen.engine, last.m.engine)
      {
        CleanTokenStaysCurrent(h, cfg, w, signed, k.seen, k.stamp, initial, more, last, b);
      }
    } else {
      var more, last, b := UncleanTokenCanLapse(h, cfg, w, order, signed, k.seen, k.stamp, initial);
    }
  }

  lemma SealedWorld(h: Hash, cfg: PlaneConfig, config: Config, epochs: EpochSet, before: seq<Step>, v: World, t: nat,
                    drawn: Drawn, now: int)
    requires Runs(h, cfg, Start(config, epochs), before, v) && Enabled(v, Seal(t, drawn, now)) && cfg.ttl > 0
    ensures var k, w, initial := v.plane[t], Next(h, cfg, v, Seal(t, drawn, now)), epochs.capability;
            var order := SealedOrder(cfg, k, drawn, now);
            && w.m == v.m && w.broker == v.broker && Issue(h, order).Ok? && Issue(h, order).value in w.gateway.issued
            && Issue(h, order).value !in v.mints
            && order.nonce !in w.gateway.uses && order.epochs == k.stamp.engine.epochs
            && Issue(h, order).value.token.epochs == order.epochs
            && Issue(h, order).value.token.nonce == order.nonce && Issue(h, order).value.token.maxUses == 1
            && Follows(k.seen, v.m, initial) && Follows(k.seen, k.stamp, initial) && Follows(k.stamp, v.m, initial)
  {
    StampedFollows(h, cfg, config, epochs, before, v, t);
    NonceIsFresh(h, cfg, config, epochs, before, v, drawn);
    hide Runs, Start, Follows, SubjectKey;
  }

  lemma StampedFollows(h: Hash, cfg: PlaneConfig, config: Config, epochs: EpochSet, before: seq<Step>, v: World, t: nat)
    requires Runs(h, cfg, Start(config, epochs), before, v) && t in v.plane && v.plane[t].Stamped?
    ensures var k, initial := v.plane[t], epochs.capability;
            Follows(k.seen, v.m, initial) && Follows(k.seen, k.stamp, initial) && Follows(k.stamp, v.m, initial)
  {
    hide Runs, Start, Follows, TokenOk, MachineOk, StateOf, Gated, SubjectKey, BrokerSeen, FinishedSeen;
    StartIsSound(config, epochs);
    RunKeepsTokenInv(h, cfg, Start(config, epochs), before, v, epochs.capability);
    assert PlaneOk(v, t, epochs.capability);
  }

  lemma NonceIsFresh(h: Hash, cfg: PlaneConfig, config: Config, epochs: EpochSet, before: seq<Step>, v: World,
                     drawn: Drawn)
    requires Runs(h, cfg, Start(config, epochs), before, v) && Unused(v, drawn.tokenId, drawn.nonce)
    ensures drawn.nonce !in v.gateway.uses
  {
    assert UseInv(h, Start(config, epochs));
    hide Runs, Start, CountOk, BrokerOk, ReceiptOk, ReceiptsFor;
    RunKeepsUseInv(h, cfg, Start(config, epochs), before, v);
    assert !NonceKnown(v, drawn.nonce);
  }

  /** No mediation has validated the token yet. */
  ghost predicate Unvalidated(w: World, signed: SignedToken) {
    forall t | t in w.broker && (w.broker[t].Checked? || w.broker[t].Spent?) :: w.broker[t].signed != signed
  }

  lemma StaleStepValidatesNothing(h: Hash, cfg: PlaneConfig, w: World, step: Step, signed: SignedToken)
    requires Enabled(w, step) && Unvalidated(w, signed) && signed.token.epochs != w.m.engine.epochs
    ensures Unvalidated(Next(h, cfg, w, step), signed)
  {
    hide Next, Enabled, Fault;
    var n := Next(h, cfg, w, step);
    forall t | t in n.broker && (n.broker[t].Checked? || n.broker[t].Spent?) ensures n.broker[t].signed != signed {
      BrokerMoves(h, cfg, w, step, t);
      var c := n.broker[t];
      if Fault(h, w.gateway, w.m.engine.epochs, c.o, c.signed).None? {
        FaultlessFacts(h, w.gateway, w.m.engine.epochs, c.o, c.signed);
      }
    }
  }

  /** A stale token is never validated again. */
  lemma {:induction false} StaleIsNeverValidated(h: Hash, cfg: PlaneConfig, w: World, steps: seq<Step>, last: World,
                                                 signed: SignedToken, stamp: Machine, initial: int)
    requires Runs(h, cfg, w, steps, last) && Unvalidated(w, signed) && Follows(stamp, w.m, initial)
    requires signed.token.epochs == stamp.engine.epochs != w.m.engine.epochs
    ensures Unvalidated(last, signed)
    decreases |steps|
  {
    hide Next, Enabled, Unvalidated, Follows;
    if steps != [] {
      var n := Next(h, cfg, w, steps[0]);
      StaleStepValidatesNothing(h, cfg, w, steps[0], signed);
      StepFollows(h, cfg, w, steps[0], stamp, initial);
      StaleStaysStale(h, cfg, w, steps[0], stamp, initial);
      StaleIsNeverValidated(h, cfg, n, steps[1..], last, signed, stamp, initial);
    }
  }

  lemma StaleStaysStale(h: Hash, cfg: PlaneConfig, w: World, step: Step, stamp: Machine, initial: int)
    requires Enabled(w, step) && Follows(stamp, w.m, initial) && stamp.engine.epochs != w.m.engine.epochs
    ensures stamp.engine.epochs != Next(h, cfg, w, step).m.engine.epochs
  {
    hide Next, Enabled, MachineOk, Open, HistoriesGrow;
    FollowsSelf(w.m, initial);
    StepFollows(h, cfg, w, step, w.m, initial);
  }

  /**
    Exact condition at the mint for the use: validation and use count are apart, so a transition can come in between.
    In every continuation nothing was written since the first read whenever a use of the token is counted, iff the token
    is stale already; then no use is ever counted.
   */
  lemma CurrentAtUseIff(h: Hash, cfg: PlaneConfig, config: Config, epochs: EpochSet, before: seq<Step>, v: World,
                        t: nat, drawn: Drawn, now: int)
    requires Runs(h, cfg, Start(config, epochs), before, v) && Enabled(v, Seal(t, drawn, now)) && cfg.ttl > 0
    ensures var k, w := v.plane[t], Next(h, cfg, v, Seal(t, drawn, now));
            var issued := Issue(h, SealedOrder(cfg, k, drawn, now));
            && issued.Ok?
            && (AlwaysCurrentAtUse(h, cfg, w, issued.value, k.seen) <==> issued.value.token.epochs != w.m.engine.epochs)
  {
    var initial := epochs.capability;
    var k, w := v.plane[t], Next(h, cfg, v, Seal(t, drawn, now));
    var order := SealedOrder(cfg, k, drawn, now);
    SealedWorld(h, cfg, config, epochs, before, v, t, drawn, now);
    var signed := Issue(h, order).value;
    NewIsUnvalidated(h, cfg, config, epochs, before, v, signed);
    hide Runs, Next, Enabled, Follows, SameHistory, Start, Issue;
    if signed.token.epochs != w.m.engine.epochs {
      forall more, last, b | Runs(h, cfg, w, more, last) ensures !(Spends(last, b) && last.broker[b].signed == signed) {
        StaleIsNeverValidated(h, cfg, w, more, last, signed, k.stamp, initial);
      }
    } else {
      var more, last, b := SpentAfterTransition(h, cfg, w, order, signed, k.seen, initial);
    }
  }

  lemma NewIsUnvalidated(h: Hash, cfg: PlaneConfig, config: Config, epochs: EpochSet, before: seq<Step>, v: World,
                         signed: SignedToken)
    requires Runs(h, cfg, Start(config, epochs), before, v) && signed !in v.mints
    ensures Unvalidated(v, signed)
  {
    hide Runs, Start, Follows, TokenOk, PlaneOk, MachineOk, Gated, FinishedSeen;
    StartIsSound(config, epochs);
    RunKeepsTokenInv(h, cfg, Start(config, epochs), before, v, epochs.capability);
    forall t | t in v.broker && (v.broker[t].Checked? || v.broker[t].Spent?) ensures v.broker[t].signed != signed {
      assert BrokerSeen(v, t, epochs.capability);
    }
  }

  /** Every token that is not stale at birth has a continuation that counts its use after a transition was written. */
  lemma SpentAfterTransition(h: Hash, cfg: PlaneConfig, w: World, order: Order, signed: SignedToken, seen: Machine,
                             initial: int)
    returns (more: seq<Step>, last: World, t: nat)
    requires Follows(seen, w.m, initial) && order.epochs == w.m.engine.epochs
    requires Issue(h, order) == Ok(signed) && signed in w.gateway.issued
    requires signed.token.nonce !in w.gateway.uses && signed.token.maxUses == 1
    ensures Runs(h, cfg, w, more, last) && Spends(last, t) && last.broker[t].signed == signed
    ensures !SameHistory(seen.engine, last.m.engine)
  {
    hide Runs, SameHistory, Follows, Issue, Fault;
    var first, x, b := FreshTokenPasses(h, cfg, w, order, signed);
    t := b;
    var y := Next(h, cfg, x, Check(t));
    var rest, z := SomethingWritten(h, cfg, y, seen, initial);
    last := z;
    Prepend(h, cfg, x, Check(t), rest, last);
    Concat(h, cfg, w, first, x, [Check(t)] + rest, last);
    more := first + ([Check(t)] + rest);
  }

  // ---------------------------------------------------------------------------
  // The conditions are needed
  // ---------------------------------------------------------------------------

  /** A mediation run in one piece would be accepted here. */
  ghost predicate Accepts(h: Hash, w: World, o: Observation, signed: SignedToken) {
    Authorize(h, w.gateway, w.m.engine.epochs, o) == Ok(signed)
  }

  function KillOf(p: Pending, now: int): Op {
    Op(SubjectKey(p.binding), p.binding.agent, None, now, Kill(Quarantined))
  }

  function RecoveryOf(p: Pending, approver: Id, now: int): Op {
    Op(SubjectKey(p.binding), p.binding.agent, None, now, Recover(AdminApproval, Some(approver)))
  }

  function Observed(p: Pending, now: int): Observation {
    Observation(p.action, p.binding, p.audience, now)
  }

  /** A kill that has drawn its epoch and not yet written its record. */
  lemma HalfDoneKill(config: Config, epochs: EpochSet, op: Op) returns (steps: seq<CI.Step>, m: Machine)
    requires op.action == Kill(Quarantined)
    ensures CI.Runs(CI.Start(config, epochs), steps, m)
    ensures StateOf(m.engine, op.subject) == Normal && CI.Enabled(m, CI.Commit(0))
    ensures CI.Next(m, CI.Commit(0)).engine.epochs == m.engine.epochs
    ensures StateOf(CI.Next(m, CI.Commit(0)).engine, op.subject) == Quarantined
  {
    var a, b, c, d := CI.Enter(0, op), CI.Lock(0), CI.Decide(0), CI.Draw(0);
    var m0 := CI.Start(config, epochs);
    var m1 := CI.Next(m0, a);
    var m2 := CI.Next(m1, b);
    var m3 := CI.Next(m2, c);
    assert m3.pcs[0] == CI.Decided(op, Quarantined, Killed(Quarantined));
    m := CI.Next(m3, d);
    CI.ThreeSteps(m1, b, c, d);
    steps := [a, b, c, d];
    assert steps[1..] == [b, c, d];
  }

  lemma FreshTokenAccepted(h: Hash, cfg: PlaneConfig, g: Gateway, epochs: EpochSet, p: Pending, state: State, d: Id,
                           drawn: Drawn, now: int, signed: SignedToken)
    requires Issue(h, OrderFor(cfg, epochs, p, state, d, drawn, now)) == Ok(signed) && drawn.nonce !in g.uses
    ensures Authorize(h, PresentTo(g.(issued := g.issued + {signed}), signed), epochs, Observed(p, now)) == Ok(signed)
  {
    IssuedTokenAcceptedIff(h, g, OrderFor(cfg, epochs, p, state, d, drawn, now), epochs, p.binding, now);
    hide Authorize;
  }

  /**
    A mint, even one run in a single piece, between the epoch and the write of a kill: the epochs are equal at the read
    and at the mint, the validator accepts, and the subject is quarantined.
   */
  lemma MintInsideKill(h: Hash, cfg: PlaneConfig, config: Config, epochs: EpochSet, p: Pending, d: Id, drawn: Drawn,
                       now: int)
    returns (steps: seq<Step>, w: World, signed: SignedToken)
    requires cfg.ttl > 0
    ensures Runs(h, cfg, Start(config, epochs), steps, w) && Accepts(h, w, Observed(p, now), signed)
    ensures signed in w.mints && w.mints[signed].Plane?
    ensures w.mints[signed].seen == w.mints[signed].gate == w.mints[signed].stamp
    ensures StateOf(w.m.engine, SubjectKey(p.binding)) == Quarantined
  {
    hide Authorize, SubjectKey, CI.Runs, CI.Next, CI.Enabled, StateOf;
    var op, w0 := KillOf(p, now), Start(config, epochs);
    var inner, m := HalfDoneKill(config, epochs, op);
    var first := Lift(h, cfg, w0, inner, m);
    var w1 := w0.(m := m);
    var c := Core(m.engine, map[], map[], w1.gateway);
    assert Blocks(Normal) == false;
    var second, w2, s := MintAlone(h, cfg, w1, 0, p, d, drawn, now, c);
    signed := s;
    FreshTokenAccepted(h, cfg, w1.gateway, m.engine.epochs, p, Normal, d, drawn, now, signed);
    var commit := Contain(CI.Commit(0));
    w := Next(h, cfg, w2, commit);
    Prepend(h, cfg, w2, commit, [], w);
    Concat(h, cfg, w1, second, w2, [commit] + [], w);
    Concat(h, cfg, w0, first, w1, second + ([commit] + []), w);
    steps := first + (second + ([commit] + []));
    hide Runs, MintToken;
  }

  /** A whole kill between the gate and the epoch read: accepted, and quarantined. */
  lemma KillBeforeEpochRead(h: Hash, cfg: PlaneConfig, config: Config, epochs: EpochSet, p: Pending, d: Id,
                            drawn: Drawn, now: int)
    returns (steps: seq<Step>, w: World, signed: SignedToken)
    requires cfg.ttl > 0
    ensures Runs(h, cfg, Start(config, epochs), steps, w) && Accepts(h, w, Observed(p, now), signed)
    ensures signed in w.mints && w.mints[signed].Plane? && Open(w.mints[signed].seen) == {}
    ensures StateOf(w.m.engine, SubjectKey(p.binding)) == Quarantined
  {
    hide Authorize, SubjectKey;
    var a, b, w0 := ReadState(0, p, d), ReadGate(0), Start(config, epochs);
    var w1 := Next(h, cfg, w0, a);
    var w2 := Next(h, cfg, w1, b);
    var first := ContainAlone(h, cfg, w2, KillOf(p, now));
    var w3 := w2.(m := CI.Machine(Apply(w2.m.engine, KillOf(p, now)), map[], map[]));
    assert Unused(w3, drawn.tokenId, drawn.nonce);
    var second, w4, s := SealAlone(h, cfg, w3, 0, drawn, now);
    w, signed := w4, s;
    FreshTokenAccepted(h, cfg, w3.gateway, w3.m.engine.epochs, p, Normal, d, drawn, now, signed);
    assert Open(w0.m) == {};
    Concat(h, cfg, w2, first, w3, second, w);
    Prepend(h, cfg, w1, b, first + second, w);
    Prepend(h, cfg, w0, a, [b] + (first + second), w);
    steps := [a] + ([b] + (first + second));
    hide Runs, Apply;
  }

  /** The two containment reads can disagree: the token records a blocking state that was left before the gate. */
  lemma ReadsCanDisagree(h: Hash, cfg: PlaneConfig, config: Config, epochs: EpochSet, p: Pending, d: Id, drawn: Drawn,
                         approver: Id, now: int)
    returns (steps: seq<Step>, w: World, signed: SignedToken)
    requires cfg.ttl > 0
    ensures Runs(h, cfg, Start(config, epochs), steps, w) && Accepts(h, w, Observed(p, now), signed)
    ensures signed in w.mints && w.mints[signed].Plane?
    ensures signed.token.containment == Quarantined && StateOf(w.m.engine, SubjectKey(p.binding)) == Normal
  {
    hide Authorize, SubjectKey;
    var a, b, w0 := ReadState(0, p, d), ReadGate(0), Start(config, epochs);
    var kill, recovery := KillOf(p, now), RecoveryOf(p, approver, now);
    var first := ContainAlone(h, cfg, w0, kill);
    var w1 := w0.(m := CI.Machine(Apply(w0.m.engine, kill), map[], map[]));
    var w2 := Next(h, cfg, w1, a);
    assert w2.plane[0].state == Quarantined;
    var second := ContainAlone(h, cfg, w2, recovery);
    var w3 := w2.(m := CI.Machine(Apply(w2.m.engine, recovery), map[], map[]));
    assert StateOf(w3.m.engine, SubjectKey(p.binding)) == Normal;
    var w4 := Next(h, cfg, w3, b);
    assert Unused(w4, drawn.tokenId, drawn.nonce);
    var third, w5, s := SealAlone(h, cfg, w4, 0, drawn, now);
    w, signed := w5, s;
    FreshTokenAccepted(h, cfg, w4.gateway, w4.m.engine.epochs, p, Quarantined, d, drawn, now, signed);
    Prepend(h, cfg, w3, b, third, w);
    Concat(h, cfg, w2, second, w3, [b] + third, w);
    Prepend(h, cfg, w1, a, second + ([b] + third), w);
    Concat(h, cfg, w0, first, w1, [a] + (second + ([b] + third)), w);
    steps := first + ([a] + (second + ([b] + third)));
    hide Runs, Apply;
  }

  /**
    A whole kill between the validation and the use count of a mediation: the first read was clean, the use is counted
    and the action executed although the subject is quarantined.
   */
  lemma KillBeforeUse(h: Hash, cfg: PlaneConfig, config: Config, epochs: EpochSet, p: Pending, d: Id, drawn: Drawn,
                      now: int, result: Option<Id>)
    returns (steps: seq<Step>, w: World, signed: SignedToken)
    requires cfg.ttl > 0
    ensures Runs(h, cfg, Start(config, epochs), steps, w)
    ensures signed in w.mints && w.mints[signed].Plane? && CleanRead(w.mints[signed].seen, w.mints[signed].stamp)
    ensures |w.gateway.receipts| == 1 && w.gateway.receipts[0].verdict == Executed
    ensures w.gateway.receipts[0].decisionId == Some(signed.token.decisionId)
    ensures StateOf(w.m.engine, SubjectKey(p.binding)) == Quarantined
  {
    hide SubjectKey, MintToken;
    var w0 := Start(config, epochs);
    var c := Core(w0.m.engine, map[], map[], w0.gateway);
    assert StateOf(w0.m.engine, SubjectKey(p.binding)) == Normal && Open(w0.m) == {};
    var first, w1, s := MintAlone(h, cfg, w0, 0, p, d, drawn, now, c);
    signed := s;
    MintedAtStart(h, cfg, c, p, Normal, d, drawn, now, signed);
    var second, w2 := ValidateFresh(h, cfg, w1, p, d, drawn, now, signed);
    var third := ContainAlone(h, cfg, w2, KillOf(p, now));
    var w3 := w2.(m := CI.Machine(Apply(w2.m.engine, KillOf(p, now)), map[], map[]));
    assert StateOf(w3.m.engine, SubjectKey(p.binding)) == Quarantined;
    hide Apply, Runs, StateOf, Open;
    var fourth, w4 := SpendAlone(h, cfg, w3, 0, Succeeds(result));
    w := w4;
    ChargedExecutes(h, w3.gateway, w3.broker[0], result);
    Concat(h, cfg, w2, third, w3, fourth, w);
    Concat(h, cfg, w1, second, w2, third + fourth, w);
    Concat(h, cfg, w0, first, w1, second + (third + fourth), w);
    steps := first + (second + (third + fourth));
  }

  lemma MintedAtStart(h: Hash, cfg: PlaneConfig, c: Core, p: Pending, state: State, d: Id, drawn: Drawn, now: int,
                      signed: SignedToken)
    requires MintToken(h, cfg, c, p, state, d, drawn, now).1 == Ok(Some(signed))
    ensures Issue(h, OrderFor(cfg, c.engine.epochs, p, state, d, drawn, now)) == Ok(signed)
    ensures MintToken(h, cfg, c, p, state, d, drawn, now).0.gateway
         == PresentTo(c.gateway.(issued := c.gateway.issued + {signed}), signed)
  {
  }

  /** Look-up and validation of a fresh, presented token. */
  lemma ValidateFresh(h: Hash, cfg: PlaneConfig, w: World, p: Pending, d: Id, drawn: Drawn, now: int,
                      signed: SignedToken)
    returns (steps: seq<Step>, last: World)
    requires 0 !in w.broker && signed in w.gateway.issued
    requires Issue(h, OrderFor(cfg, w.m.engine.epochs, p, Normal, d, drawn, now)) == Ok(signed)
    requires var key := (signed.token.audience, signed.token.actionHash);
             key in w.gateway.presented && w.gateway.presented[key] == signed
    ensures Runs(h, cfg, w, steps, last)
    ensures last == w.(broker := w.broker[0 := Checked(Observed(p, now), signed, w.m)])
  {
    var a, b := Fetch(0, Observed(p, now)), Check(0);
    var x := Next(h, cfg, w, a);
    last := Next(h, cfg, x, b);
    assert x.broker[0 := last.broker[0]] == w.broker[0 := last.broker[0]];
    Prepend(h, cfg, x, b, [], last);
    Prepend(h, cfg, w, a, [b] + [], last);
    steps := [a] + ([b] + []);
  }

  lemma ChargedExecutes(h: Hash, g: Gateway, b: BrokerThread, result: Option<Id>)
    requires b.Checked? && Binds(h, b.o, b.signed.token) && b.signed.token.effect == Allow
    requires b.signed.token.nonce !in g.uses && b.signed.token.maxUses == 1 && g.receipts == []
    ensures var r := Charged(h, g, b, Succeeds(result)).receipts;
            |r| == 1 && r[0].verdict == Executed && r[0].decisionId == Some(b.signed.token.decisionId)
  {
  }
}
