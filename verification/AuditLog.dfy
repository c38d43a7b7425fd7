/**
  Hash-chained audit log. The commitment function is a parameter: nothing is assumed about it, and every
  tamper-evidence result hands back a concrete collision when its conclusion fails.
 */
module AuditLog {
  import opened Common

  datatype Stage =
    | Proposed | Authorized | TokenIssued | ActualActionObserved | Executed | Denied | Failed | Receipt | Admin

  datatype Event = Event(seqno: int, stage: Stage, at: Id, prevHash: Id, payload: Id)

  /** The two kinds of value committed to in the audit domain. */
  datatype Body = Genesis | Link(event: Event)

  type Commit = Body -> Id

  function Head(h: Commit, log: seq<Event>): Id {
    if log == [] then h(Genesis) else h(Link(log[|log| - 1]))
  }

  /** What the caller supplies for one entry, together with the clock reading. */
  datatype Entry = Entry(stage: Stage, at: Id, payload: Id)

  function Append(h: Commit, log: seq<Event>, e: Entry): seq<Event> {
    log + [Event(|log|, e.stage, e.at, Head(h, log), e.payload)]
  }

  /** The log built by appending `entries` one after the other. */
  function Build(h: Commit, entries: seq<Entry>): seq<Event> {
    if entries == [] then [] else Append(h, Build(h, entries[..|entries| - 1]), entries[|entries| - 1])
  }

  /** Every link is intact. */
  ghost predicate Intact(h: Commit, log: seq<Event>) {
    log != [] ==>
      var init, last := log[..|log| - 1], log[|log| - 1];
      Intact(h, init) && last.seqno == |init| && last.prevHash == Head(h, init)
  }

  function Entries(log: seq<Event>): seq<Entry> {
    seq(|log|, i requires 0 <= i < |log| => Entry(log[i].stage, log[i].at, log[i].payload))
  }

  lemma {:induction false} BuiltIsIntact(h: Commit, entries: seq<Entry>)
    ensures Intact(h, Build(h, entries)) && Entries(Build(h, entries)) == entries
  {
    if entries != [] {
      var init := entries[..|entries| - 1];
      BuiltIsIntact(h, init);
      assert Build(h, entries)[..|init|] == Build(h, init);
      assert entries == init + [entries[|init|]];
    }
  }

  /** The logs that verify are exactly the logs that appending can build. */
  lemma {:induction false} IntactIffBuilt(h: Commit, log: seq<Event>)
    ensures Intact(h, log) <==> log == Build(h, Entries(log))
  {
    BuiltIsIntact(h, Entries(log));
    if Intact(h, log) {
      IntactRebuilds(h, log);
    }
  }

  lemma {:induction false} IntactRebuilds(h: Commit, log: seq<Event>)
    requires Intact(h, log)
    ensures log == Build(h, Entries(log))
  {
    if log != [] {
      var init := log[..|log| - 1];
      IntactRebuilds(h, init);
      assert Entries(log)[..|log| - 1] == Entries(init);
    }
  }

  lemma {:induction false} PrefixIntact(h: Commit, log: seq<Event>, n: nat)
    requires Intact(h, log) && n <= |log|
    ensures Intact(h, log[..n])
  {
    if n == |log| {
      assert log[..n] == log;
    } else {
      PrefixIntact(h, log[..|log| - 1], n);
      assert log[..|log| - 1][..n] == log[..n];
    }
  }

  ghost predicate Collision(h: Commit, x: Body, y: Body) {
    x != y && h(x) == h(y)
  }

  /** Two verifying logs with the same head are the same log, or they exhibit a collision. */
  lemma {:induction false} SameHeadSameLog(h: Commit, a: seq<Event>, b: seq<Event>) returns (x: Body, y: Body)
    requires Intact(h, a) && Intact(h, b) && Head(h, a) == Head(h, b)
    ensures a == b || Collision(h, x, y)
  {
    x := if a == [] then Genesis else Link(a[|a| - 1]);
    y := if b == [] then Genesis else Link(b[|b| - 1]);
    if x == y && a != [] {
      x, y := SameHeadSameLog(h, a[..|a| - 1], b[..|b| - 1]);
      assert a == a[..|a| - 1] + [a[|a| - 1]] && b == b[..|b| - 1] + [b[|b| - 1]];
    }
  }

  /** For a collision-free commitment the head alone determines the whole log, its length included. */
  lemma HeadDeterminesLog(h: Commit, a: seq<Event>, b: seq<Event>)
    requires forall x, y :: h(x) == h(y) ==> x == y
    requires Intact(h, a) && Intact(h, b)
    ensures Head(h, a) == Head(h, b) <==> a == b
  {
    if Head(h, a) == Head(h, b) {
      var x, y := SameHeadSameLog(h, a, b);
    }
  }

  /** An intact log that keeps its last event cannot be edited, shortened or extended before it. */
  lemma TamperingShows(h: Commit, a: seq<Event>, b: seq<Event>) returns (x: Body, y: Body)
    requires Intact(h, a) && a != b && a != [] && b != [] && a[|a| - 1] == b[|b| - 1]
    ensures !Intact(h, b) || Collision(h, x, y)
  {
    x, y := Genesis, Genesis;
    if Intact(h, b) {
      x, y := SameHeadSameLog(h, a, b);
    }
  }

  /** Only the last event of an intact log can be replaced unseen, and only keeping its number and its link. */
  lemma ReplacementShowsIff(h: Commit, log: seq<Event>, i: nat, e: Event) returns (x: Body, y: Body)
    requires Intact(h, log) && i < |log| && e != log[i]
    ensures Collision(h, x, y) ||
            (Intact(h, log[i := e]) <==> i == |log| - 1 && e.seqno == log[i].seqno && e.prevHash == log[i].prevHash)
  {
    x, y := Link(e), Link(log[i]);
    var b := log[i := e];
    if i == |log| - 1 {
      assert b[..i] == log[..i];
    } else if Intact(h, b) {
      PrefixIntact(h, b, i + 2);
      PrefixIntact(h, log, i + 2);
      assert b[..i + 2][..i + 1] == b[..i + 1] && log[..i + 2][..i + 1] == log[..i + 1];
      assert b[i + 1] == log[i + 1];
    }
  }

  /** The pair a checkpoint signs. */
  datatype Checkpoint = Checkpoint(coversThrough: int, head: Id)

  function Covered(h: Commit, log: seq<Event>): Checkpoint {
    Checkpoint(|log| - 1, Head(h, log))
  }

  /** `log` extends the prefix that `c` was taken of. */
  ghost predicate Covers(h: Commit, log: seq<Event>, c: Checkpoint) {
    -1 <= c.coversThrough < |log| && c == Covered(h, log[..c.coversThrough + 1])
  }

  /** Any two intact logs under the same checkpoint agree on everything it covers. */
  lemma CheckpointFixesPrefix(h: Commit, a: seq<Event>, b: seq<Event>, c: Checkpoint) returns (x: Body, y: Body)
    requires Intact(h, a) && Intact(h, b) && Covers(h, a, c) && Covers(h, b, c)
    ensures a[..c.coversThrough + 1] == b[..c.coversThrough + 1] || Collision(h, x, y)
  {
    PrefixIntact(h, a, c.coversThrough + 1);
    PrefixIntact(h, b, c.coversThrough + 1);
    x, y := SameHeadSameLog(h, a[..c.coversThrough + 1], b[..c.coversThrough + 1]);
  }

  /** Appending never disturbs what an earlier checkpoint covers. */
  lemma AppendKeepsCheckpoint(h: Commit, log: seq<Event>, e: Entry, c: Checkpoint)
    requires Intact(h, log) && Covers(h, log, c)
    ensures Intact(h, Append(h, log, e)) && Covers(h, Append(h, log, e), c)
  {
    var n := c.coversThrough + 1;
    assert Append(h, log, e)[..|log|] == log;
    assert Append(h, log, e)[..n] == log[..n];
  }

  class HashChainedAuditLog {
    const h: Commit
    var events: seq<Event>

    constructor (h: Commit)
      ensures this.h == h && events == [] && Intact(h, events)
    {
      this.h := h;
      events := [];
    }

    method HeadHash() returns (d: Id)
      ensures d == Head(h, events)
    {
      d := if |events| > 0 then h(Link(events[|events| - 1])) else h(Genesis);
    }

    method Put(stage: Stage, at: Id, payload: Id) returns (event: Event)
      modifies this`events
      ensures events == Append(h, old(events), Entry(stage, at, payload)) && event == events[|events| - 1]
      ensures old(Intact(h, events)) ==> Intact(h, events)
    {
      var prev := if |events| > 0 then h(Link(events[|events| - 1])) else h(Genesis);
      event := Event(|events|, stage, at, prev, payload);
      ghost var was := events;
      events := events + [event];
      assert events[..|events| - 1] == was;
    }

    /** The re-walk accepts exactly the intact logs. */
    method Verify() returns (ok: bool)
      ensures ok <==> Intact(h, events)
    {
      var prev := h(Genesis);
      var i := 0;
      while i < |events|
        invariant 0 <= i <= |events|
        invariant Intact(h, events[..i]) && prev == Head(h, events[..i])
      {
        var event := events[i];
        assert events[..i + 1][..i] == events[..i];
        if event.seqno != i || event.prevHash != prev {
          if Intact(h, events) {
            PrefixIntact(h, events, i + 1);
          }
          return false;
        }
        prev := h(Link(event));
        i := i + 1;
      }
      assert events[..|events|] == events;
      return true;
    }

    /** Refuses a broken chain; otherwise returns the pair to be signed. */
    method TakeCheckpoint() returns (c: Option<Checkpoint>)
      ensures c.Some? <==> Intact(h, events)
      ensures c.Some? ==> Covers(h, events, c.value) && c.value.coversThrough == |events| - 1
    {
      var ok := Verify();
      if !ok { return None; }
      assert events[..|events|] == events;
      var head := HeadHash();
      return Some(Checkpoint(|events| - 1, head));
    }
  }
}
