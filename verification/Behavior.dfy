/**
  Behaviour engine: per-scope deques pruned from the front, and cumulative counters, against the full event log.
  Times are microseconds.
 */
module Behavior {
  import opened Common

  const WINDOW_10S := 10_000_000
  const WINDOW_60S := 60_000_000
  const WINDOW_5M := 300_000_000

  datatype Kind = Proposed | Denied | BypassAttempted | Executed | Failed

  /** `None` stands for an absent or empty text. */
  datatype Event = Event(
    kind: Kind,
    at: int,
    resource: Option<Id>,
    destination: Option<Id>,
    bytesRead: int,
    bytesWritten: int,
    externalBytes: int,
    sensitiveRead: bool,
    secretAccess: bool,
    privilegeEscalation: bool,
    destructive: bool,
    recipient: Option<Id>)

  datatype Counters = Counters(
    bytesRead: int,
    bytesWritten: int,
    externalBytes: int,
    resources: set<Id>,
    secrets: int,
    denials: int,
    escalations: int,
    destructions: int,
    bypasses: int,
    destinations: set<Id>,
    newDestinations: int,
    recipients: set<Id>)

  datatype State = State(executed: seq<int>, sensitive: seq<int>, counters: Counters)

  const NO_COUNTERS := Counters(0, 0, 0, {}, 0, 0, 0, 0, 0, {}, 0, {})
  const INITIAL := State([], [], NO_COUNTERS)

  datatype Snapshot = Snapshot(
    last10s: int,
    last60s: int,
    last5m: int,
    sensitive5m: int,
    bytesRead: int,
    bytesWritten: int,
    externalBytes: int,
    uniqueResources: int,
    secretAccesses: int,
    policyDenials: int,
    escalationAttempts: int,
    newExternalDestinations: int,
    destructiveActions: int,
    messageFanout: int,
    bypassAttempts: int)

  // ---------------------------------------------------------------------------
  // Operations as functions of the scope state
  // ---------------------------------------------------------------------------

  function Prune(ts: seq<int>, cutoff: int): seq<int> {
    if ts != [] && ts[0] < cutoff then Prune(ts[1..], cutoff) else ts
  }

  function PruneState(st: State, now: int): State {
    st.(executed := Prune(st.executed, now - WINDOW_5M), sensitive := Prune(st.sensitive, now - WINDOW_5M))
  }

  function Add(s: set<Id>, x: Option<Id>): set<Id> {
    if x.Some? then s + {x.value} else s
  }

  function Bit(b: bool): int { if b then 1 else 0 }

  /** Denials and attempts count whatever the outcome. */
  function CountAttempt(c: Counters, e: Event): Counters {
    c.(denials := c.denials + Bit(e.kind.Denied?),
       bypasses := c.bypasses + Bit(e.kind.BypassAttempted?),
       escalations := c.escalations + Bit(e.privilegeEscalation && !e.kind.Failed?))
  }

  /** Effects are attributed to executed events only. */
  function CountEffect(c: Counters, e: Event): Counters
    requires e.kind.Executed?
  {
    c.(bytesRead := c.bytesRead + e.bytesRead,
       bytesWritten := c.bytesWritten + e.bytesWritten,
       externalBytes := c.externalBytes + e.externalBytes,
       resources := Add(c.resources, e.resource),
       secrets := c.secrets + Bit(e.secretAccess),
       destructions := c.destructions + Bit(e.destructive),
       destinations := Add(c.destinations, e.destination),
       newDestinations := c.newDestinations + Bit(e.destination.Some? && e.destination.value !in c.destinations),
       recipients := Add(c.recipients, e.recipient))
  }

  function CountEvent(c: Counters, e: Event): Counters {
    if e.kind.Executed? then CountEffect(CountAttempt(c, e), e) else CountAttempt(c, e)
  }

  function Record(st: State, e: Event, now: int): State {
    PruneState(State(
      st.executed + (if e.kind.Executed? then [e.at] else []),
      st.sensitive + (if e.kind.Executed? && e.sensitiveRead then [e.at] else []),
      CountEvent(st.counters, e)), now)
  }

  function CountSince(ts: seq<int>, cutoff: int): int {
    if ts == [] then 0 else CountSince(ts[..|ts| - 1], cutoff) + Bit(ts[|ts| - 1] >= cutoff)
  }

  /** The snapshot read off a pruned state. */
  function View(st: State, now: int): Snapshot {
    var c := st.counters;
    Snapshot(
      CountSince(st.executed, now - WINDOW_10S),
      CountSince(st.executed, now - WINDOW_60S),
      CountSince(st.executed, now - WINDOW_5M),
      CountSince(st.sensitive, now - WINDOW_5M),
      c.bytesRead, c.bytesWritten, c.externalBytes, |c.resources|, c.secrets, c.denials, c.escalations,
      c.newDestinations, c.destructions, |c.recipients|, c.bypasses)
  }

  // ---------------------------------------------------------------------------
  // The full event log
  // ---------------------------------------------------------------------------

  /** A call on one scope, with the clock value it was given. */
  datatype Call = Recorded(e: Event, now: int) | Read(now: int)

  function After(st: State, c: Call): State {
    match c
    case Recorded(e, now) => Record(st, e, now)
    case Read(now) => PruneState(st, now)
  }

  function Run(calls: seq<Call>): State {
    if calls == [] then INITIAL else After(Run(calls[..|calls| - 1]), calls[|calls| - 1])
  }

  function Log(calls: seq<Call>): seq<Event> {
    if calls == [] then [] else
      Log(calls[..|calls| - 1]) + match calls[|calls| - 1] case Recorded(e, _) => [e] case Read(_) => []
  }

  /** Times of the events satisfying `keep`, in recording order. */
  function Times(log: seq<Event>, keep: Event -> bool): seq<int> {
    if log == [] then [] else
      Times(log[..|log| - 1], keep) + if keep(log[|log| - 1]) then [log[|log| - 1].at] else []
  }

  function Sum(log: seq<Event>, f: Event -> int): int {
    if log == [] then 0 else Sum(log[..|log| - 1], f) + f(log[|log| - 1])
  }

  /** The distinct texts that executed events carry. */
  function Texts(log: seq<Event>, f: Event -> Option<Id>): set<Id> {
    set e | e in log && e.kind.Executed? && f(e).Some? :: f(e).value
  }

  function IsExecuted(e: Event): bool { e.kind.Executed? }
  function IsSensitive(e: Event): bool { e.kind.Executed? && e.sensitiveRead }
  function IsSecret(e: Event): int { Bit(e.kind.Executed? && e.secretAccess) }
  function IsDestructive(e: Event): int { Bit(e.kind.Executed? && e.destructive) }
  function IsDenied(e: Event): int { Bit(e.kind.Denied?) }
  function IsBypass(e: Event): int { Bit(e.kind.BypassAttempted?) }
  function IsEscalation(e: Event): int { Bit(e.privilegeEscalation && !e.kind.Failed?) }
  function ReadBytes(e: Event): int { if e.kind.Executed? then e.bytesRead else 0 }
  function WrittenBytes(e: Event): int { if e.kind.Executed? then e.bytesWritten else 0 }
  function ExternalBytes(e: Event): int { if e.kind.Executed? then e.externalBytes else 0 }
  function ResourceOf(e: Event): Option<Id> { e.resource }
  function DestinationOf(e: Event): Option<Id> { e.destination }
  function RecipientOf(e: Event): Option<Id> { e.recipient }

  /** What a snapshot means: every figure computed from the full log, nothing ever forgotten. */
  function Meaning(log: seq<Event>, now: int): Snapshot {
    Snapshot(
      CountSince(Times(log, IsExecuted), now - WINDOW_10S),
      CountSince(Times(log, IsExecuted), now - WINDOW_60S),
      CountSince(Times(log, IsExecuted), now - WINDOW_5M),
      CountSince(Times(log, IsSensitive), now - WINDOW_5M),
      Sum(log, ReadBytes), Sum(log, WrittenBytes), Sum(log, ExternalBytes), |Texts(log, ResourceOf)|,
      Sum(log, IsSecret), Sum(log, IsDenied), Sum(log, IsEscalation), |Texts(log, DestinationOf)|,
      Sum(log, IsDestructive), |Texts(log, RecipientOf)|, Sum(log, IsBypass))
  }

  // ---------------------------------------------------------------------------
  // Cumulative counters are folds over the log
  // ---------------------------------------------------------------------------

  function CountersOf(log: seq<Event>): Counters {
    Counters(
      Sum(log, ReadBytes), Sum(log, WrittenBytes), Sum(log, ExternalBytes), Texts(log, ResourceOf), Sum(log, IsSecret),
      Sum(log, IsDenied), Sum(log, IsEscalation), Sum(log, IsDestructive), Sum(log, IsBypass),
      Texts(log, DestinationOf), |Texts(log, DestinationOf)|, Texts(log, RecipientOf))
  }

  lemma TextsExtend(log: seq<Event>, e: Event, f: Event -> Option<Id>)
    ensures Texts(log + [e], f) == if e.kind.Executed? then Add(Texts(log, f), f(e)) else Texts(log, f)
  {
    var whole := log + [e];
    assert forall x :: x in whole <==> x in log || x == e;
  }

  lemma SumExtends(log: seq<Event>, e: Event, f: Event -> int)
    ensures Sum(log + [e], f) == Sum(log, f) + f(e)
  {
    assert (log + [e])[..|log|] == log;
  }

  lemma AddCounts(s: set<Id>, x: Option<Id>)
    ensures |Add(s, x)| == |s| + Bit(x.Some? && x.value !in s)
    ensures x.Some? && x.value in s ==> Add(s, x) == s
  {
  }

  lemma CountersExtend(log: seq<Event>, e: Event)
    ensures CountersOf(log + [e]) == CountEvent(CountersOf(log), e)
  {
    hide Sum, Texts;
    TextsExtend(log, e, ResourceOf);
    TextsExtend(log, e, DestinationOf);
    TextsExtend(log, e, RecipientOf);
    SumExtends(log, e, ReadBytes);
    SumExtends(log, e, WrittenBytes);
    SumExtends(log, e, ExternalBytes);
    SumExtends(log, e, IsSecret);
    SumExtends(log, e, IsDenied);
    SumExtends(log, e, IsEscalation);
    SumExtends(log, e, IsDestructive);
    SumExtends(log, e, IsBypass);
    AddCounts(Texts(log, DestinationOf), e.destination);
    var c, d := CountersOf(log + [e]), CountEvent(CountersOf(log), e);
    assert c.resources == d.resources && c.destinations == d.destinations && c.recipients == d.recipients;
    assert c.newDestinations == d.newDestinations;
    assert c.bytesRead == d.bytesRead && c.bytesWritten == d.bytesWritten && c.externalBytes == d.externalBytes;
    assert c.secrets == d.secrets && c.destructions == d.destructions;
    assert c.denials == d.denials && c.bypasses == d.bypasses && c.escalations == d.escalations;
  }

  lemma {:induction false} CountersAreFolds(calls: seq<Call>)
    ensures Run(calls).counters == CountersOf(Log(calls))
  {
    if calls != [] {
      var init, c := calls[..|calls| - 1], calls[|calls| - 1];
      CountersAreFolds(init);
      hide CountersOf, CountEvent;
      if c.Recorded? {
        CountersExtend(Log(init), c.e);
        assert Run(calls).counters == CountEvent(Run(init).counters, c.e);
        assert Log(calls) == Log(init) + [c.e];
      } else {
        assert Log(calls) == Log(init);
      }
    }
  }

  // ---------------------------------------------------------------------------
  // The deques agree with the full history
  // ---------------------------------------------------------------------------

  /** `ts` is `full` without a prefix of entries that all lie below `bound`. */
  ghost predicate Tail(ts: seq<int>, full: seq<int>, bound: int) {
    && |ts| <= |full|
    && ts == full[|full| - |ts|..]
    && forall i | 0 <= i < |full| - |ts| :: full[i] < bound
  }

  lemma {:induction false} PruneIsTail(ts: seq<int>, full: seq<int>, cutoff: int, bound: int)
    requires Tail(ts, full, bound) && cutoff <= bound
    ensures Tail(Prune(ts, cutoff), full, bound)
  {
    if ts != [] && ts[0] < cutoff {
      PruneIsTail(ts[1..], full, cutoff, bound);
    }
  }

  /** From the first recording on, every clock value given is at most `hi`. */
  ghost predicate Until(calls: seq<Call>, hi: int) {
    forall i, j | 0 <= i <= j < |calls| && calls[i].Recorded? :: calls[j].now <= hi
  }

  /** Before the first recording the deques are empty, whatever the clocks. */
  lemma {:induction false} QuietIsEmpty(calls: seq<Call>, keep: Event -> bool)
    requires forall i | 0 <= i < |calls| :: calls[i].Read?
    ensures Log(calls) == [] && Deque(calls, keep) == [] && Times(Log(calls), keep) == []
  {
    if calls != [] {
      QuietIsEmpty(calls[..|calls| - 1], keep);
    }
  }

  lemma TailExtends(ts: seq<int>, full: seq<int>, more: seq<int>, bound: int)
    requires Tail(ts, full, bound)
    ensures Tail(ts + more, full + more, bound)
  {
  }

  lemma TimesExtend(log: seq<Event>, e: Event, keep: Event -> bool)
    ensures Times(log + [e], keep) == Times(log, keep) + if keep(e) then [e.at] else []
  {
    assert (log + [e])[..|log|] == log;
  }

  /** The deque fed by the events satisfying `keep`. */
  function Deque(calls: seq<Call>, keep: Event -> bool): seq<int> {
    if calls == [] then [] else
      var c := calls[|calls| - 1];
      Prune(Deque(calls[..|calls| - 1], keep) + Pushed(c, keep), c.now - WINDOW_5M)
  }

  function Pushed(c: Call, keep: Event -> bool): seq<int> {
    if c.Recorded? && keep(c.e) then [c.e.at] else []
  }

  lemma {:induction false} RunDeques(calls: seq<Call>)
    ensures Run(calls).executed == Deque(calls, IsExecuted) && Run(calls).sensitive == Deque(calls, IsSensitive)
  {
    if calls != [] {
      var init := calls[..|calls| - 1];
      RunDeques(init);
      hide Prune, CountEvent;
      var st := Run(init);
      assert st.executed + [] == st.executed && st.sensitive + [] == st.sensitive;
    }
  }

  lemma PushedTimes(calls: seq<Call>, keep: Event -> bool)
    requires calls != []
    ensures Times(Log(calls), keep) == Times(Log(calls[..|calls| - 1]), keep) + Pushed(calls[|calls| - 1], keep)
  {
    var init, c := calls[..|calls| - 1], calls[|calls| - 1];
    if c.Recorded? {
      TimesExtend(Log(init), c.e, keep);
    } else {
      assert Log(calls) == Log(init);
    }
  }

  lemma DequeStep(calls: seq<Call>, keep: Event -> bool)
    requires calls != []
    ensures var c := calls[|calls| - 1];
            Deque(calls, keep) == Prune(Deque(calls[..|calls| - 1], keep) + Pushed(c, keep), c.now - WINDOW_5M)
  {
    hide Prune, Pushed;
  }

  lemma DequeTailStep(calls: seq<Call>, keep: Event -> bool, hi: int)
    requires calls != [] && calls[|calls| - 1].now <= hi
    requires Tail(Deque(calls[..|calls| - 1], keep), Times(Log(calls[..|calls| - 1]), keep), hi - WINDOW_5M)
    ensures Tail(Deque(calls, keep), Times(Log(calls), keep), hi - WINDOW_5M)
  {
    hide Tail, Deque, Prune, Times, Log, Pushed;
    var init, c := calls[..|calls| - 1], calls[|calls| - 1];
    DequeStep(calls, keep);
    PushedTimes(calls, keep);
    TailExtends(Deque(init, keep), Times(Log(init), keep), Pushed(c, keep), hi - WINDOW_5M);
    PruneIsTail(Deque(init, keep) + Pushed(c, keep), Times(Log(calls), keep), c.now - WINDOW_5M, hi - WINDOW_5M);
  }

  lemma {:induction false} DequeIsTail(calls: seq<Call>, keep: Event -> bool, hi: int)
    requires Until(calls, hi)
    ensures Tail(Deque(calls, keep), Times(Log(calls), keep), hi - WINDOW_5M)
  {
    if forall i | 0 <= i < |calls| :: calls[i].Read? {
      QuietIsEmpty(calls, keep);
    } else {
      DequeIsTail(calls[..|calls| - 1], keep, hi);
      DequeTailStep(calls, keep, hi);
    }
    hide Deque, Times, Log;
  }

  lemma RunIsTail(calls: seq<Call>, hi: int)
    requires Until(calls, hi)
    ensures Tail(Run(calls).executed, Times(Log(calls), IsExecuted), hi - WINDOW_5M)
    ensures Tail(Run(calls).sensitive, Times(Log(calls), IsSensitive), hi - WINDOW_5M)
  {
    RunDeques(calls);
    DequeIsTail(calls, IsExecuted, hi);
    DequeIsTail(calls, IsSensitive, hi);
  }

  lemma {:induction false} CountSplits(a: seq<int>, b: seq<int>, cutoff: int)
    ensures CountSince(a + b, cutoff) == CountSince(a, cutoff) + CountSince(b, cutoff)
  {
    if b == [] {
      assert a + b == a;
    } else {
      CountSplits(a, b[..|b| - 1], cutoff);
      assert (a + b)[..|a + b| - 1] == a + b[..|b| - 1];
    }
  }

  lemma {:induction false} CountZeroIff(ts: seq<int>, cutoff: int)
    ensures CountSince(ts, cutoff) >= 0
    ensures CountSince(ts, cutoff) == 0 <==> forall i | 0 <= i < |ts| :: ts[i] < cutoff
  {
    if ts != [] {
      CountZeroIff(ts[..|ts| - 1], cutoff);
    }
  }

  /** A tail counts like the full history exactly when nothing at or after the cutoff was dropped. */
  lemma TailCountsIff(ts: seq<int>, full: seq<int>, bound: int, cutoff: int)
    requires Tail(ts, full, bound)
    ensures CountSince(ts, cutoff) == CountSince(full, cutoff)
       <==> forall i | 0 <= i < |full| - |ts| :: full[i] < cutoff
  {
    var dropped := full[..|full| - |ts|];
    assert full == dropped + ts;
    CountSplits(dropped, ts, cutoff);
    CountZeroIff(dropped, cutoff);
  }

  // ---------------------------------------------------------------------------
  // When the windowed counts are exact
  // ---------------------------------------------------------------------------

  /** The window count read off the pruned deque is the count over the full log. */
  ghost predicate CountExact(calls: seq<Call>, now: int, cutoff: int, keep: Event -> bool) {
    CountSince(Deque(calls + [Read(now)], keep), cutoff) == CountSince(Times(Log(calls), keep), cutoff)
  }

  lemma ReadLogsNothing(calls: seq<Call>, now: int)
    ensures Log(calls + [Read(now)]) == Log(calls)
  {
    assert (calls + [Read(now)])[..|calls|] == calls;
  }

  /** Clocks up to one window past the cutoff do no harm. */
  lemma EarlyClocksCount(calls: seq<Call>, now: int, cutoff: int, keep: Event -> bool)
    requires Until(calls + [Read(now)], cutoff + WINDOW_5M)
    ensures CountExact(calls, now, cutoff, keep)
  {
    var all := calls + [Read(now)];
    ReadLogsNothing(calls, now);
    DequeIsTail(all, keep, cutoff + WINDOW_5M);
    TailCountsIff(Deque(all, keep), Times(Log(calls), keep), cutoff, cutoff);
    hide Deque, Times, Log, CountSince, Until;
  }

  /** The same calls and clocks, with other events. */
  ghost predicate SamePattern(a: seq<Call>, b: seq<Call>) {
    && |a| == |b|
    && forall i | 0 <= i < |a| :: a[i].Recorded? == b[i].Recorded? && a[i].now == b[i].now
  }

  lemma UntilIsPattern(a: seq<Call>, b: seq<Call>, hi: int)
    requires SamePattern(a, b) && Until(a, hi)
    ensures Until(b, hi)
  {
    forall i, j | 0 <= i <= j < |b| && b[i].Recorded? ensures b[j].now <= hi {
      assert a[i].Recorded? && a[j].now == b[j].now;
    }
  }

  function Redo(c: Call, e: Event): Call {
    if c.Recorded? then Recorded(e, c.now) else c
  }

  /** Every recording call records `e`. */
  function Uniform(calls: seq<Call>, e: Event): seq<Call> {
    seq(|calls|, i requires 0 <= i < |calls| => Redo(calls[i], e))
  }

  ghost predicate AllAt(ts: seq<int>, t: int) {
    forall i | 0 <= i < |ts| :: ts[i] == t
  }

  lemma {:induction false} PruneUniform(ts: seq<int>, t: int, cutoff: int)
    requires AllAt(ts, t)
    ensures Prune(ts, cutoff) == if t < cutoff then [] else ts
  {
    if ts != [] && ts[0] < cutoff {
      PruneUniform(ts[1..], t, cutoff);
    }
  }

  lemma {:induction false} CountUniform(ts: seq<int>, t: int)
    requires AllAt(ts, t)
    ensures CountSince(ts, t) == |ts|
  {
    if ts != [] {
      CountUniform(ts[..|ts| - 1], t);
    }
  }

  /** The deque and the full history of a uniform run, one call further. */
  lemma UniformStep(calls: seq<Call>, keep: Event -> bool, e: Event)
    requires calls != [] && keep(e)
    ensures var init, c := calls[..|calls| - 1], calls[|calls| - 1];
            var more := if c.Recorded? then [e.at] else [];
            && Deque(Uniform(calls, e), keep) == Prune(Deque(Uniform(init, e), keep) + more, c.now - WINDOW_5M)
            && Times(Log(Uniform(calls, e)), keep) == Times(Log(Uniform(init, e)), keep) + more
  {
    var init, u := calls[..|calls| - 1], Uniform(calls, e);
    assert u[..|u| - 1] == Uniform(init, e);
    PushedTimes(u, keep);
    hide Prune, Times, Log;
  }

  lemma UniformStart(keep: Event -> bool, e: Event)
    ensures Deque(Uniform([], e), keep) == [] && Times(Log(Uniform([], e)), keep) == []
  {
    assert Uniform([], e) == [];
  }

  /** A uniform deque against a uniform history, one call further. */
  lemma UniformGrows(deque: seq<int>, full: seq<int>, more: seq<int>, t: int, cutoff: int)
    requires AllAt(deque, t) && AllAt(full, t) && AllAt(more, t) && |deque| <= |full|
    ensures AllAt(Prune(deque + more, cutoff), t) && AllAt(full + more, t)
    ensures |Prune(deque + more, cutoff)| <= |full + more|
    ensures t < cutoff ==> Prune(deque + more, cutoff) == []
    ensures |deque| < |full| ==> |Prune(deque + more, cutoff)| < |full + more|
  {
    PruneUniform(deque + more, t, cutoff);
  }

  lemma {:induction false} UniformTimes(calls: seq<Call>, keep: Event -> bool, e: Event)
    requires keep(e)
    ensures AllAt(Deque(Uniform(calls, e), keep), e.at) && AllAt(Times(Log(Uniform(calls, e)), keep), e.at)
    ensures |Deque(Uniform(calls, e), keep)| <= |Times(Log(Uniform(calls, e)), keep)|
  {
    hide Deque, Times, Log, Uniform, Prune;
    if calls == [] {
      UniformStart(keep, e);
    } else {
      var init, c := calls[..|calls| - 1], calls[|calls| - 1];
      UniformTimes(init, keep, e);
      UniformStep(calls, keep, e);
      var more := if c.Recorded? then [e.at] else [];
      UniformGrows(Deque(Uniform(init, e), keep), Times(Log(Uniform(init, e)), keep), more, e.at, c.now - WINDOW_5M);
    }
  }

  lemma {:induction false} RecordedTimes(calls: seq<Call>, keep: Event -> bool, e: Event, i: nat)
    requires keep(e) && i < |calls| && calls[i].Recorded?
    ensures Times(Log(Uniform(calls, e)), keep) != []
  {
    hide Deque, Times, Log, Uniform, Prune;
    UniformStep(calls, keep, e);
    if i < |calls| - 1 {
      RecordedTimes(calls[..|calls| - 1], keep, e, i);
    }
  }

  /** Once a clock is more than a window past the events' time, everything recorded so far is forgotten for good. */
  lemma {:induction false} LateClockForgets(calls: seq<Call>, keep: Event -> bool, e: Event, i: nat, j: nat)
    requires keep(e) && i <= j < |calls| && calls[i].Recorded? && calls[j].now - WINDOW_5M > e.at
    ensures |Deque(Uniform(calls, e), keep)| < |Times(Log(Uniform(calls, e)), keep)|
  {
    hide Deque, Times, Log, Uniform, Prune;
    var init, c := calls[..|calls| - 1], calls[|calls| - 1];
    UniformTimes(init, keep, e);
    UniformStep(calls, keep, e);
    RecordedTimes(calls, keep, e, i);
    var more := if c.Recorded? then [e.at] else [];
    UniformGrows(Deque(Uniform(init, e), keep), Times(Log(Uniform(init, e)), keep), more, e.at, c.now - WINDOW_5M);
    if j < |init| {
      LateClockForgets(init, keep, e, i, j);
    }
  }

  lemma UniformKeepsPattern(calls: seq<Call>, e: Event)
    ensures SamePattern(calls, Uniform(calls, e))
  {
  }

  lemma UniformRead(calls: seq<Call>, now: int, e: Event)
    ensures Uniform(calls + [Read(now)], e) == Uniform(calls, e) + [Read(now)]
  {
  }

  lemma LateClockMiscounts(calls: seq<Call>, now: int, cutoff: int, keep: Event -> bool, e: Event)
    requires keep(e) && e.at == cutoff && !Until(calls + [Read(now)], cutoff + WINDOW_5M)
    ensures SamePattern(calls, Uniform(calls, e)) && !CountExact(Uniform(calls, e), now, cutoff, keep)
  {
    hide Deque, Times, Log, CountSince, Uniform, SamePattern;
    var all := calls + [Read(now)];
    UniformKeepsPattern(calls, e);
    UniformRead(calls, now, e);
    ReadLogsNothing(Uniform(calls, e), now);
    var i, j :| 0 <= i <= j < |all| && all[i].Recorded? && all[j].now > cutoff + WINDOW_5M;
    LateClockForgets(all, keep, e, i, j);
    UniformTimes(all, keep, e);
    CountUniform(Deque(Uniform(all, e), keep), cutoff);
    CountUniform(Times(Log(Uniform(all, e)), keep), cutoff);
  }

  /**
    Exact condition on the clocks: whatever the events are, a window count is exact iff from the first recording on no
    clock, the reader's included, is more than five minutes past the cutoff.
   */
  lemma CountExactIff(calls: seq<Call>, now: int, cutoff: int, keep: Event -> bool, e: Event)
    requires keep(e) && e.at == cutoff
    ensures (forall others | SamePattern(calls, others) :: CountExact(others, now, cutoff, keep))
       <==> Until(calls + [Read(now)], cutoff + WINDOW_5M)
  {
    if Until(calls + [Read(now)], cutoff + WINDOW_5M) {
      forall others | SamePattern(calls, others) ensures CountExact(others, now, cutoff, keep) {
        UntilIsPattern(calls + [Read(now)], others + [Read(now)], cutoff + WINDOW_5M);
        EarlyClocksCount(others, now, cutoff, keep);
      }
    } else {
      LateClockMiscounts(calls, now, cutoff, keep, e);
    }
    hide CountExact, Uniform;
  }

  /** An executed sensitive read at `t`. */
  function ReadAt(t: int): Event {
    Event(Executed, t, None, None, 0, 0, 0, true, false, false, false, None)
  }

  /** The same for the two deques of the engine. */
  lemma WindowCountsExactIff(calls: seq<Call>, now: int, cutoff: int)
    ensures (forall others | SamePattern(calls, others) ::
               CountSince(Run(others + [Read(now)]).executed, cutoff)
                   == CountSince(Times(Log(others), IsExecuted), cutoff))
       <==> Until(calls + [Read(now)], cutoff + WINDOW_5M)
    ensures (forall others | SamePattern(calls, others) ::
               CountSince(Run(others + [Read(now)]).sensitive, cutoff)
                   == CountSince(Times(Log(others), IsSensitive), cutoff))
       <==> Until(calls + [Read(now)], cutoff + WINDOW_5M)
  {
    CountExactIff(calls, now, cutoff, IsExecuted, ReadAt(cutoff));
    CountExactIff(calls, now, cutoff, IsSensitive, ReadAt(cutoff));
    forall others
      ensures CountSince(Run(others + [Read(now)]).executed, cutoff)
          == CountSince(Times(Log(others), IsExecuted), cutoff)
         <==> CountExact(others, now, cutoff, IsExecuted)
      ensures CountSince(Run(others + [Read(now)]).sensitive, cutoff)
          == CountSince(Times(Log(others), IsSensitive), cutoff)
         <==> CountExact(others, now, cutoff, IsSensitive)
    {
      RunDeques(others + [Read(now)]);
    }
    hide Run, Deque, Times, Log, CountSince, Until, SamePattern, CountExact;
  }

  /**
    If from the first recording on no clock was later than the reader's, the snapshot equals the one over the full log.
   */
  lemma SnapshotIsExact(calls: seq<Call>, now: int)
    requires Until(calls, now)
    ensures View(Run(calls + [Read(now)]), now) == Meaning(Log(calls), now)
  {
    var all := calls + [Read(now)];
    var st, log := Run(all), Log(calls);
    ReadLogsNothing(calls, now);
    RunIsTail(all, now);
    CountersAreFolds(all);
    var bound := now - WINDOW_5M;
    TailCountsIff(st.executed, Times(log, IsExecuted), bound, now - WINDOW_10S);
    TailCountsIff(st.executed, Times(log, IsExecuted), bound, now - WINDOW_60S);
    TailCountsIff(st.executed, Times(log, IsExecuted), bound, bound);
    TailCountsIff(st.sensitive, Times(log, IsSensitive), bound, bound);
    hide Tail, Run, CountSince, Times, Sum, Texts;
  }

  /**
    Whatever the events are, the whole snapshot is exact iff from the first recording on no clock was later than its
    own.
   */
  lemma SnapshotExactIff(calls: seq<Call>, now: int)
    ensures (forall others | SamePattern(calls, others) ::
        View(Run(others + [Read(now)]), now) == Meaning(Log(others), now))
       <==> Until(calls, now)
  {
    if Until(calls, now) {
      forall others | SamePattern(calls, others)
        ensures View(Run(others + [Read(now)]), now) == Meaning(Log(others), now)
      {
        UntilIsPattern(calls, others, now);
        SnapshotIsExact(others, now);
      }
    } else {
      var e, bound := ReadAt(now - WINDOW_5M), now - WINDOW_5M;
      var i, j :| 0 <= i <= j < |calls| && calls[i].Recorded? && calls[j].now > now;
      var all := calls + [Read(now)];
      assert all[i].Recorded? && all[j].now > now;
      LateClockMiscounts(calls, now, bound, IsExecuted, e);
      RunDeques(Uniform(calls, e) + [Read(now)]);
      assert View(Run(Uniform(calls, e) + [Read(now)]), now).last5m != Meaning(Log(Uniform(calls, e)), now).last5m;
    }
    hide View, Run, Meaning, Uniform;
  }

  lemma LateRecordDropped(e: Event)
    requires e.kind.Executed? && e.at == 0
    ensures Run([Recorded(e, WINDOW_5M + 1)]).executed == []
    ensures Run([Recorded(e, WINDOW_5M + 1), Read(0)]).executed == []
  {
    var r, q := Recorded(e, WINDOW_5M + 1), Read(0);
    assert [] + [0] == [0] && [0][1..] == [] && Prune([0], 1) == [];
    assert [r][..0] == [] && [r, q][..1] == [r];
    assert Run([r]) == After(INITIAL, r) && Run([r, q]) == After(Run([r]), q);
  }

  lemma OneEventCounted(e: Event, now: int)
    requires e.kind.Executed? && e.at == 0
    ensures Log([Recorded(e, now)]) == [e] && CountSince(Times([e], IsExecuted), -WINDOW_10S) == 1
  {
    assert [Recorded(e, now)][..0] == [] && [e][..0] == [] && [0][..0] == [];
    assert Times([e], IsExecuted) == [] + [0] == [0];
  }

  /** A clock that steps back can lose an event: recorded at a late clock, it is dropped before the earlier snapshot. */
  lemma BackwardClockLosesEvents(e: Event)
    requires e.kind.Executed? && e.at == 0
    ensures View(Run([Recorded(e, WINDOW_5M + 1), Read(0)]), 0).last10s == 0
    ensures Meaning(Log([Recorded(e, WINDOW_5M + 1)]), 0).last10s == 1
  {
    LateRecordDropped(e);
    OneEventCounted(e, WINDOW_5M + 1);
    hide Run, Log, Times;
  }

  // ---------------------------------------------------------------------------
  // The engine
  // ---------------------------------------------------------------------------

  class ScopeState {
    var executed: seq<int>
    var sensitive: seq<int>
    var counters: Counters

    ghost function Value(): State
      reads this
    {
      State(executed, sensitive, counters)
    }

    constructor ()
      ensures Value() == INITIAL
    {
      executed, sensitive, counters := [], [], NO_COUNTERS;
    }

    method PruneAt(now: int)
      modifies this
      ensures Value() == PruneState(old(Value()), now)
    {
      var cutoff := now - WINDOW_5M;
      executed := PruneDeque(executed, cutoff);
      sensitive := PruneDeque(sensitive, cutoff);
    }

    static method PruneDeque(dq: seq<int>, cutoff: int) returns (r: seq<int>)
      ensures r == Prune(dq, cutoff)
    {
      r := dq;
      while |r| > 0 && r[0] < cutoff
        invariant Prune(r, cutoff) == Prune(dq, cutoff)
        decreases |r|
      {
        r := r[1..];
      }
    }

    static method TallyAttempt(c: Counters, e: Event) returns (d: Counters)
      ensures d == CountAttempt(c, e)
    {
      var denials, bypasses, escalations := c.denials, c.bypasses, c.escalations;
      if e.kind.Denied? { denials := denials + 1; }
      if e.kind.BypassAttempted? { bypasses := bypasses + 1; }
      if e.privilegeEscalation && (e.kind.Proposed? || e.kind.Denied? || e.kind.BypassAttempted? || e.kind.Executed?) {
        escalations := escalations + 1;
      }
      d := c.(denials := denials, bypasses := bypasses, escalations := escalations);
    }

    static method TallyEffect(c: Counters, e: Event) returns (d: Counters)
      requires e.kind.Executed?
      ensures d == CountEffect(c, e)
    {
      AddCounts(c.destinations, e.destination);
      var resources, secrets, destructions, recipients := c.resources, c.secrets, c.destructions, c.recipients;
      var destinations, newDestinations := c.destinations, c.newDestinations;
      if e.resource.Some? { resources := resources + {e.resource.value}; }
      if e.secretAccess { secrets := secrets + 1; }
      if e.destructive { destructions := destructions + 1; }
      if e.destination.Some? && e.destination.value !in destinations {
        destinations, newDestinations := destinations + {e.destination.value}, newDestinations + 1;
      }
      if e.recipient.Some? { recipients := recipients + {e.recipient.value}; }
      d := Counters(c.bytesRead + e.bytesRead, c.bytesWritten + e.bytesWritten, c.externalBytes + e.externalBytes,
                    resources, secrets, c.denials, c.escalations, destructions, c.bypasses,
                    destinations, newDestinations, recipients);
    }

    method Apply(e: Event, now: int)
      modifies this
      ensures Value() == Record(old(Value()), e, now)
    {
      assert executed + [] == executed && sensitive + [] == sensitive;
      hide CountAttempt, CountEffect, Prune;
      counters := TallyAttempt(counters, e);
      if e.kind.Executed? {
        counters := TallyEffect(counters, e);
        executed := executed + [e.at];
        if e.sensitiveRead { sensitive := sensitive + [e.at]; }
      }
      PruneAt(now);
    }

    static method Tally(ts: seq<int>, cutoff: int) returns (n: int)
      ensures n == CountSince(ts, cutoff)
    {
      n := 0;
      var i := 0;
      while i < |ts|
        invariant 0 <= i <= |ts| && n == CountSince(ts[..i], cutoff)
      {
        if ts[i] >= cutoff { n := n + 1; }
        assert ts[..i + 1][..i] == ts[..i];
        i := i + 1;
      }
      assert ts[..|ts|] == ts;
    }

    method TakeSnapshot(now: int) returns (s: Snapshot)
      modifies this
      ensures Value() == PruneState(old(Value()), now) && s == View(Value(), now)
    {
      PruneAt(now);
      var n10 := Tally(executed, now - WINDOW_10S);
      var n60 := Tally(executed, now - WINDOW_60S);
      var n5m := Tally(executed, now - WINDOW_5M);
      var sens := Tally(sensitive, now - WINDOW_5M);
      var c := counters;
      s := Snapshot(n10, n60, n5m, sens, c.bytesRead, c.bytesWritten, c.externalBytes, |c.resources|, c.secrets,
                    c.denials, c.escalations, c.newDestinations, c.destructions, |c.recipients|, c.bypasses);
    }
  }

  datatype ScopeKey = ScopeKey(agent: Id, session: Id, runtime: Id, delegation: Option<Id>)

  class BehaviorEngine {
    var scopes: map<ScopeKey, ScopeState>

    /** Different keys never share a state object. */
    ghost predicate Valid()
      reads this
    {
      forall k, l | k in scopes && l in scopes && k != l :: scopes[k] != scopes[l]
    }

    ghost function ValueOf(k: ScopeKey): State
      reads this, scopes.Values
    {
      if k in scopes then scopes[k].Value() else INITIAL
    }

    constructor ()
      ensures Valid() && forall k :: ValueOf(k) == INITIAL
    {
      scopes := map[];
    }

    method StateOf(k: ScopeKey) returns (st: ScopeState)
      requires Valid()
      modifies this
      ensures Valid() && k in scopes && scopes[k] == st
      ensures forall l :: ValueOf(l) == old(ValueOf(l))
      ensures st in old(scopes.Values) || fresh(st)
      ensures scopes.Values == old(scopes.Values) + {st}
    {
      if k in scopes {
        assert scopes[k] in scopes.Values;
        return scopes[k];
      }
      st := new ScopeState();
      ghost var was := scopes;
      scopes := scopes[k := st];
      assert forall l | l in was :: was[l] in was.Values;
      assert scopes.Values == was.Values + {st} by {
        assert scopes[k] in scopes.Values;
        forall x | x in was.Values ensures x in scopes.Values {
          var l :| l in was && was[l] == x;
          assert scopes[l] == x;
        }
      }
    }

    method RecordEvent(k: ScopeKey, e: Event, now: int)
      requires Valid()
      modifies this, scopes.Values
      ensures Valid() && ValueOf(k) == After(old(ValueOf(k)), Recorded(e, now))
      ensures forall l | l != k :: ValueOf(l) == old(ValueOf(l))
    {
      var st := StateOf(k);
      st.Apply(e, now);
      assert forall l | l in scopes && l != k :: scopes[l] != st;
    }

    method ReadScope(k: ScopeKey, now: int) returns (s: Snapshot)
      requires Valid()
      modifies this, scopes.Values
      ensures Valid() && ValueOf(k) == After(old(ValueOf(k)), Read(now)) && s == View(ValueOf(k), now)
      ensures forall l | l != k :: ValueOf(l) == old(ValueOf(l))
    {
      var st := StateOf(k);
      s := st.TakeSnapshot(now);
      assert forall l | l in scopes && l != k :: scopes[l] != st;
    }
  }
}
