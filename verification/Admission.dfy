/**
  Bounded admission: the atomic sections of `admit`, interleaved by any number of threads.
  Each thread is where its set says it is; a thread in no set is outside `admit`.
 */
module Admission {
  import opened Common

  datatype State = State(
    capacity: nat,
    permits: int,
    inflight: int,
    admitted: int,
    shed: int,
    attempts: int,
    acquired: set<nat>,
    running: set<nat>,
    leaving: set<nat>,
    refused: set<nat>)
  {
    predicate Idle(t: nat) {
      t !in acquired && t !in running && t !in leaving && t !in refused
    }

    predicate Quiescent() {
      acquired == {} && running == {} && leaving == {} && refused == {}
    }
  }

  function Initial(capacity: nat): State {
    State(capacity, capacity, 0, 0, 0, 0, {}, {}, {}, {})
  }

  /** The atomic sections: the non-blocking acquire, the three counter updates and the bounded release. */
  datatype Step = TryAcquire(t: nat) | CountShed(t: nat) | CountIn(t: nat) | CountOut(t: nat) | Release(t: nat)

  predicate Enabled(s: State, step: Step) {
    match step
    case TryAcquire(t) => s.Idle(t)
    case CountShed(t) => t in s.refused
    case CountIn(t) => t in s.acquired
    case CountOut(t) => t in s.running
    case Release(t) => t in s.leaving
  }

  /** Releasing a bounded semaphore at its initial value is an error. */
  predicate Overflows(s: State, step: Step) {
    step.Release? && s.permits >= s.capacity
  }

  function Apply(s: State, step: Step): State
    requires Enabled(s, step)
  {
    match step
    case TryAcquire(t) =>
      if s.permits > 0
      then s.(permits := s.permits - 1, attempts := s.attempts + 1, acquired := s.acquired + {t})
      else s.(attempts := s.attempts + 1, refused := s.refused + {t})
    case CountShed(t) => s.(shed := s.shed + 1, refused := s.refused - {t})
    case CountIn(t) =>
      s.(inflight := s.inflight + 1, admitted := s.admitted + 1,
         acquired := s.acquired - {t}, running := s.running + {t})
    case CountOut(t) => s.(inflight := s.inflight - 1, running := s.running - {t}, leaving := s.leaving + {t})
    case Release(t) => s.(permits := s.permits + 1, leaving := s.leaving - {t})
  }

  /** No thread is in two places. */
  ghost predicate Apart(s: State) {
    && (forall t | t in s.acquired :: t !in s.running && t !in s.leaving && t !in s.refused)
    && (forall t | t in s.running :: t !in s.leaving && t !in s.refused)
    && (forall t | t in s.leaving :: t !in s.refused)
  }

  ghost function Holders(s: State): set<nat> {
    s.acquired + s.running + s.leaving
  }

  ghost predicate Inv(s: State) {
    && Apart(s)
    && s.permits >= 0
    && s.permits + |s.acquired| + |s.running| + |s.leaving| == s.capacity
    && s.inflight == |s.running|
    && s.admitted + s.shed + |s.acquired| + |s.refused| == s.attempts
  }

  lemma StepKeepsInv(s: State, step: Step)
    requires Inv(s) && Enabled(s, step)
    ensures Inv(Apply(s, step)) && !Overflows(s, step)
  {
    if step.Release? {
      assert |s.leaving - {step.t}| == |s.leaving| - 1;
    }
  }

  lemma HoldersCount(s: State)
    requires Inv(s)
    ensures |Holders(s)| + s.permits == s.capacity
  {
    assert |s.acquired + s.running| == |s.acquired| + |s.running|;
    assert |s.acquired + s.running + s.leaving| == |s.acquired + s.running| + |s.leaving|;
  }

  /** A request is shed only while every permit is held. */
  lemma ShedOnlyWhenFull(s: State, t: nat)
    requires Inv(s) && s.Idle(t)
    ensures t in Apply(s, TryAcquire(t)).refused <==> |Holders(s)| == s.capacity
  {
    HoldersCount(s);
  }

  ghost predicate Runs(s: State, steps: seq<Step>, last: State)
    decreases |steps|
  {
    if steps == [] then s == last
    else Enabled(s, steps[0]) && Runs(Apply(s, steps[0]), steps[1..], last)
  }

  lemma {:induction false} RunKeepsInv(s: State, steps: seq<Step>, last: State)
    requires Inv(s) && Runs(s, steps, last)
    ensures Inv(last) && last.capacity == s.capacity
    decreases |steps|
  {
    if steps != [] {
      StepKeepsInv(s, steps[0]);
      RunKeepsInv(Apply(s, steps[0]), steps[1..], last);
    }
  }

  /** Under every interleaving at most `capacity` jobs are in flight, permits are conserved and no release overflows. */
  lemma AdmissionIsBounded(capacity: nat, steps: seq<Step>, s: State)
    requires Runs(Initial(capacity), steps, s)
    ensures 0 <= s.inflight <= capacity
    ensures |Holders(s)| + s.permits == capacity
    ensures forall step | Enabled(s, step) :: !Overflows(s, step)
  {
    RunKeepsInv(Initial(capacity), steps, s);
    HoldersCount(s);
    forall step | Enabled(s, step) ensures !Overflows(s, step) {
      StepKeepsInv(s, step);
    }
  }

  /** Once every thread is out, nothing is in flight, every permit is back and each attempt was admitted or shed. */
  lemma QuiescentAccounts(capacity: nat, steps: seq<Step>, s: State)
    requires Runs(Initial(capacity), steps, s) && s.Quiescent()
    ensures s.inflight == 0 && s.permits == capacity && s.admitted + s.shed == s.attempts
  {
    RunKeepsInv(Initial(capacity), steps, s);
  }

  /** The object whose lock-protected sections the threads interleave. */
  class BoundedAdmission {
    const capacity: nat
    var permits: int
    var inflight: int
    var admitted: int
    var shed: int
    ghost var threads: State

    ghost predicate Valid()
      reads this
    {
      && Inv(threads)
      && threads.capacity == capacity && threads.permits == permits && threads.inflight == inflight
      && threads.admitted == admitted && threads.shed == shed
    }

    constructor (capacity: nat)
      requires capacity >= 1
      ensures Valid() && threads == Initial(capacity)
    {
      this.capacity := capacity;
      permits, inflight, admitted, shed := capacity, 0, 0, 0;
      threads := Initial(capacity);
    }

    /** Refuses a capacity below one. */
    static method Create(capacity: int) returns (r: Option<BoundedAdmission>)
      ensures r.Some? <==> capacity >= 1
      ensures r.Some? ==> fresh(r.value) && r.value.Valid() && r.value.threads == Initial(capacity)
    {
      if capacity < 1 { return None; }
      var admission := new BoundedAdmission(capacity);
      return Some(admission);
    }

    method Acquire(ghost t: nat) returns (ok: bool)
      requires Valid() && threads.Idle(t)
      modifies this
      ensures Valid() && threads == Apply(old(threads), TryAcquire(t)) && ok == (old(permits) > 0)
    {
      StepKeepsInv(threads, TryAcquire(t));
      ok := permits > 0;
      if ok { permits := permits - 1; }
      threads := Apply(threads, TryAcquire(t));
    }

    method NoteShed(ghost t: nat)
      requires Valid() && t in threads.refused
      modifies this
      ensures Valid() && threads == Apply(old(threads), CountShed(t))
    {
      StepKeepsInv(threads, CountShed(t));
      shed := shed + 1;
      threads := Apply(threads, CountShed(t));
    }

    method Enter(ghost t: nat)
      requires Valid() && t in threads.acquired
      modifies this
      ensures Valid() && threads == Apply(old(threads), CountIn(t)) && inflight <= capacity
    {
      StepKeepsInv(threads, CountIn(t));
      inflight, admitted := inflight + 1, admitted + 1;
      threads := Apply(threads, CountIn(t));
    }

    method Leave(ghost t: nat)
      requires Valid() && t in threads.running
      modifies this
      ensures Valid() && threads == Apply(old(threads), CountOut(t)) && inflight >= 0
    {
      StepKeepsInv(threads, CountOut(t));
      inflight := inflight - 1;
      threads := Apply(threads, CountOut(t));
    }

    method PutBack(ghost t: nat)
      requires Valid() && t in threads.leaving
      modifies this
      ensures Valid() && threads == Apply(old(threads), Release(t)) && permits <= capacity
    {
      StepKeepsInv(threads, Release(t));
      permits := permits + 1;
      threads := Apply(threads, Release(t));
    }
  }
}
