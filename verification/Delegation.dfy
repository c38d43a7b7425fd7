/**
  Delegation registry: root grants, attenuated child grants, the ancestry walk of
  `validate_for_agent` and the fixpoint sweep of `revoke`.
 */
module Delegations {
  import opened Common

  datatype Clearance = Public | Internal | Confidential | Secret

  function ClearanceRank(c: Clearance): nat {
    match c
    case Public => 0
    case Internal => 1
    case Confidential => 2
    case Secret => 3
  }

  /** What an issuer asks for: the same fields for a root and for a child. */
  datatype Grant = Grant(
    subject: Id,
    capabilities: set<Id>,
    scopes: set<Id>,
    clearance: Clearance,
    notBefore: int,
    notAfter: int)

  datatype Delegation = Delegation(
    grant: Grant,
    maxDepth: int,
    depth: nat,
    parent: Option<Id>,
    issuer: Id,
    revoked: bool,
    revokedAt: Option<int>)
  {
    predicate ValidAt(now: int) {
      !revoked && grant.notBefore <= now < grant.notAfter
    }
  }

  /** The reasons behind the single DELEGATION_INVALID code. */
  datatype Reason =
    | Untrusted | SelfGrant | EmptyWindow | BadDepth
    | Unknown | ParentInvalid | DepthExceeded | WidensCapabilities | WidensScopes
    | WidensClearance | WidensWindow | NotBound | Cycle | ChainInvalid

  /** `order` is the dictionary's insertion order. */
  datatype Registry = Registry(
    authorities: set<Id>,
    delegations: map<Id, Delegation>,
    order: seq<Id>)

  function Initial(trusted: set<Id>): Registry {
    Registry(trusted, map[], [])
  }

  // ---------------------------------------------------------------------------
  // Invariant of every reachable registry
  // ---------------------------------------------------------------------------

  /** The parent of `d` exists and depth counts the links to the root. */
  ghost predicate Linked(m: map<Id, Delegation>, d: Id) {
    d in m ==>
      match m[d].parent
      case None => m[d].depth == 0
      case Some(p) => p in m && m[d].depth == m[p].depth + 1
  }

  ghost predicate Forest(m: map<Id, Delegation>) {
    forall d {:trigger Linked(m, d)} :: Linked(m, d)
  }

  /** `inner` holds no more authority than `outer`. */
  predicate Within(inner: Grant, outer: Grant) {
    && inner.capabilities <= outer.capabilities
    && inner.scopes <= outer.scopes
    && ClearanceRank(inner.clearance) <= ClearanceRank(outer.clearance)
    && outer.notBefore <= inner.notBefore
    && inner.notAfter <= outer.notAfter
  }

  /** How a child record relates to its parent record. */
  ghost predicate Narrows(child: Delegation, parent: Delegation) {
    && Within(child.grant, parent.grant)
    && child.maxDepth == parent.maxDepth
    && child.issuer == parent.grant.subject
    && (parent.revoked ==> child.revoked)
  }

  ghost predicate NarrowsParent(m: map<Id, Delegation>, d: Id) {
    d in m && m[d].parent.Some? && m[d].parent.value in m ==> Narrows(m[d], m[m[d].parent.value])
  }

  ghost predicate Attenuated(m: map<Id, Delegation>) {
    forall d {:trigger NarrowsParent(m, d)} :: NarrowsParent(m, d)
  }

  /** Windows are non-empty, the depth bound holds and roots come from trusted authorities. */
  ghost predicate Sound(authorities: set<Id>, d: Delegation) {
    && d.grant.notBefore < d.grant.notAfter
    && d.depth <= d.maxDepth
    && (d.parent.None? ==> d.issuer in authorities && d.issuer != d.grant.subject)
  }

  ghost predicate Issued(authorities: set<Id>, m: map<Id, Delegation>) {
    forall d | d in m :: Sound(authorities, m[d])
  }

  /** Insertion order lists every delegation once, each after its parent. */
  ghost predicate Ordered(m: map<Id, Delegation>, order: seq<Id>) {
    && NoRepeats(order)
    && (forall d :: d in order <==> d in m)
    && (forall i, j | 0 <= i < |order| && 0 <= j < |order| && m[order[i]].parent == Some(order[j]) :: j < i)
  }

  ghost predicate Inv(r: Registry) {
    && Forest(r.delegations)
    && Attenuated(r.delegations)
    && Issued(r.authorities, r.delegations)
    && Ordered(r.delegations, r.order)
  }

  // ---------------------------------------------------------------------------
  // Ancestry
  // ---------------------------------------------------------------------------

  /** `a` is `d` or an ancestor of `d`. */
  ghost predicate Descends(m: map<Id, Delegation>, d: Id, a: Id)
    requires Forest(m) && d in m
    decreases m[d].depth
  {
    assert Linked(m, d);
    d == a || (m[d].parent.Some? && Descends(m, m[d].parent.value, a))
  }

  /** The chain from `d` up to its root. */
  ghost function Chain(m: map<Id, Delegation>, d: Id): (c: seq<Id>)
    requires Forest(m) && d in m
    ensures |c| == m[d].depth + 1 && c[0] == d
    ensures c[|c| - 1] in m && m[c[|c| - 1]].parent.None?
    decreases m[d].depth
  {
    assert Linked(m, d);
    match m[d].parent
    case None => [d]
    case Some(p) => [d] + Chain(m, p)
  }

  lemma {:induction false} ChainIsAncestry(m: map<Id, Delegation>, d: Id, a: Id)
    requires Forest(m) && d in m
    ensures a in Chain(m, d) <==> Descends(m, d, a)
    decreases m[d].depth
  {
    assert Linked(m, d);
    if m[d].parent.Some? {
      ChainIsAncestry(m, m[d].parent.value, a);
    }
  }

  /** No ancestor is ever widened by any number of re-delegations. */
  lemma {:induction false} AncestorEnvelope(m: map<Id, Delegation>, d: Id, a: Id)
    requires Forest(m) && Attenuated(m) && d in m && Descends(m, d, a)
    ensures a in m && Within(m[d].grant, m[a].grant) && m[d].maxDepth == m[a].maxDepth
    ensures m[a].revoked ==> m[d].revoked
    ensures m[a].depth <= m[d].depth && (m[a].depth == m[d].depth ==> a == d)
    decreases m[d].depth
  {
    if d != a {
      assert Linked(m, d) && NarrowsParent(m, d);
      AncestorEnvelope(m, m[d].parent.value, a);
    }
  }

  lemma {:induction false} DescendsTransitive(m: map<Id, Delegation>, x: Id, y: Id, z: Id)
    requires Forest(m) && x in m && y in m && Descends(m, x, y) && Descends(m, y, z)
    ensures Descends(m, x, z)
    decreases m[x].depth
  {
    if x != y {
      assert Linked(m, x);
      DescendsTransitive(m, m[x].parent.value, y, z);
    }
  }

  /** Every link of the ancestry is valid: what the walk of `validate_for_agent` looks for. */
  ghost predicate ChainValid(m: map<Id, Delegation>, d: Id, now: int)
    requires Forest(m) && d in m
  {
    forall a | a in m && Descends(m, d, a) :: m[a].ValidAt(now)
  }

  /** Windows nest and revocation is closed downwards, so one local check decides the whole chain. */
  lemma ChainValidIffSelfValid(m: map<Id, Delegation>, d: Id, now: int)
    requires Forest(m) && Attenuated(m) && d in m
    ensures ChainValid(m, d, now) <==> m[d].ValidAt(now)
  {
    if m[d].ValidAt(now) {
      forall a | a in m && Descends(m, d, a) ensures m[a].ValidAt(now) {
        AncestorEnvelope(m, d, a);
      }
    }
  }

  // ---------------------------------------------------------------------------
  // Operations as functions of the registry
  // ---------------------------------------------------------------------------

  function Insert(r: Registry, id: Id, d: Delegation): Registry {
    r.(delegations := r.delegations[id := d], order := r.order + [id])
  }

  function IssueRoot(r: Registry, authority: Id, g: Grant, maxDepth: int, id: Id): Result<Registry, Reason> {
    if authority !in r.authorities then Err(Untrusted)
    else if authority == g.subject then Err(SelfGrant)
    else if g.notAfter <= g.notBefore then Err(EmptyWindow)
    else if maxDepth < 0 then Err(BadDepth)
    else Ok(Insert(r, id, Delegation(g, maxDepth, 0, None, authority, false, None)))
  }

  function IssueChild(r: Registry, parent: Id, g: Grant, now: int, id: Id): Result<Registry, Reason> {
    if parent !in r.delegations then Err(Unknown) else
    var p := r.delegations[parent];
    if !p.ValidAt(now) then Err(ParentInvalid)
    else if p.depth + 1 > p.maxDepth then Err(DepthExceeded)
    else if !(g.capabilities <= p.grant.capabilities) then Err(WidensCapabilities)
    else if !(g.scopes <= p.grant.scopes) then Err(WidensScopes)
    else if ClearanceRank(g.clearance) > ClearanceRank(p.grant.clearance) then Err(WidensClearance)
    else if g.notBefore < p.grant.notBefore || g.notAfter > p.grant.notAfter then Err(WidensWindow)
    else if g.notAfter <= g.notBefore then Err(EmptyWindow)
    else Ok(Insert(r, id, Delegation(g, p.maxDepth, p.depth + 1, Some(parent), p.grant.subject, false, None)))
  }

  /** The part of the subtree of `d` that is still unrevoked. */
  ghost function LiveSubtree(m: map<Id, Delegation>, d: Id): set<Id>
    requires Forest(m)
  {
    set x | x in m && Descends(m, x, d) && !m[x].revoked
  }

  ghost function Mark(m: map<Id, Delegation>, ids: set<Id>, now: int): map<Id, Delegation> {
    map x | x in m :: if x in ids then m[x].(revoked := true, revokedAt := Some(now)) else m[x]
  }

  /** The members of `s` that lie in `keep`, in the order of `s`. */
  ghost function Keep(s: seq<Id>, keep: set<Id>): seq<Id> {
    if s == [] then [] else Keep(s[..|s| - 1], keep) + if s[|s| - 1] in keep then [s[|s| - 1]] else []
  }

  ghost function RevokedIds(r: Registry, d: Id): seq<Id>
    requires Forest(r.delegations) && d in r.delegations
  {
    (if r.delegations[d].revoked then [] else [d]) + Keep(r.order, LiveSubtree(r.delegations, d) - {d})
  }

  // ---------------------------------------------------------------------------
  // Every operation keeps the invariant
  // ---------------------------------------------------------------------------

  lemma InsertKeepsInv(r: Registry, id: Id, d: Delegation)
    requires Inv(r) && id !in r.delegations && Sound(r.authorities, d)
    requires match d.parent
             case None => d.depth == 0
             case Some(p) =>
               && p in r.delegations && d.depth == r.delegations[p].depth + 1
               && Narrows(d, r.delegations[p])
    ensures Inv(Insert(r, id, d))
  {
    var m, n := r.delegations, r.delegations[id := d];
    var order := r.order + [id];
    forall x ensures Linked(n, x) && NarrowsParent(n, x) {
      assert Linked(m, x) && NarrowsParent(m, x);
    }
    forall i, j | 0 <= i < |order| && 0 <= j < |order| && n[order[i]].parent == Some(order[j]) ensures j < i {
      if i < |r.order| {
        assert order[i] == r.order[i] && Linked(m, r.order[i]);
        assert order[j] in m && j < |r.order| && order[j] == r.order[j];
      } else {
        assert order[j] != id;
      }
    }
  }

  lemma RevokeKeepsInv(r: Registry, d: Id, now: int)
    requires Inv(r)
    ensures Inv(r.(delegations := Mark(r.delegations, LiveSubtree(r.delegations, d), now)))
  {
    var m := r.delegations;
    var n := Mark(m, LiveSubtree(m, d), now);
    forall x ensures Linked(n, x) && NarrowsParent(n, x) {
      assert Linked(m, x) && NarrowsParent(m, x);
      if x in m && m[x].parent.Some? {
        assert Descends(m, m[x].parent.value, d) ==> Descends(m, x, d);
      }
    }
    assert forall x | x in m :: n[x].parent == m[x].parent;
  }

  // ---------------------------------------------------------------------------
  // The ids returned by `revoke`
  // ---------------------------------------------------------------------------

  lemma {:induction false} KeepMembers(s: seq<Id>, keep: set<Id>)
    ensures forall x :: x in Keep(s, keep) <==> x in s && x in keep
  {
    if s != [] {
      KeepMembers(s[..|s| - 1], keep);
      assert s == s[..|s| - 1] + [s[|s| - 1]];
    }
  }

  lemma {:induction false} KeepDistinct(s: seq<Id>, keep: set<Id>)
    requires NoRepeats(s)
    ensures NoRepeats(Keep(s, keep))
  {
    if s != [] {
      KeepDistinct(s[..|s| - 1], keep);
      KeepMembers(s[..|s| - 1], keep);
    }
  }

  /** Whatever precedes in `s` precedes in `Keep`. */
  lemma {:induction false} KeepFollowsOrder(s: seq<Id>, keep: set<Id>, i: nat, k: nat)
    requires NoRepeats(s) && k < |Keep(s, keep)| && i < |s| && s[i] in keep
    requires forall j | 0 <= j < |s| && s[j] == Keep(s, keep)[k] :: i < j
    ensures s[i] in Keep(s, keep)[..k]
  {
    var t := s[..|s| - 1];
    KeepMembers(s, keep);
    KeepMembers(t, keep);
    if k < |Keep(t, keep)| {
      assert Keep(t, keep)[k] in t;
      var j :| 0 <= j < |t| && t[j] == Keep(t, keep)[k];
      assert s[j] == Keep(s, keep)[k];
      KeepFollowsOrder(t, keep, i, k);
      assert Keep(s, keep)[..k] == Keep(t, keep)[..k];
    } else {
      assert s[|s| - 1] == Keep(s, keep)[k];
      assert t[i] == s[i];
      assert Keep(s, keep)[..k] == Keep(t, keep);
    }
  }

  /** The id at `k` is `d` itself or comes after its parent's id. */
  ghost predicate ParentBefore(m: map<Id, Delegation>, ids: seq<Id>, d: Id, k: nat)
    requires k < |ids|
  {
    ids[k] == d || (ids[k] in m && m[ids[k]].parent.Some? && m[ids[k]].parent.value in ids[..k])
  }

  lemma LiveParent(m: map<Id, Delegation>, d: Id, x: Id)
    requires Forest(m) && Attenuated(m) && d in m && x in LiveSubtree(m, d) - {d}
    ensures m[x].parent.Some? && m[x].parent.value in LiveSubtree(m, d) && m[x].parent.value in m && !m[d].revoked
  {
    assert Linked(m, x) && NarrowsParent(m, x);
    AncestorEnvelope(m, m[x].parent.value, d);
  }

  lemma RevokedIdParentBefore(r: Registry, d: Id, k: nat)
    requires Inv(r) && d in r.delegations && k < |RevokedIds(r, d)|
    ensures ParentBefore(r.delegations, RevokedIds(r, d), d, k)
  {
    hide Keep, LiveSubtree, Forest, Attenuated, Issued;
    var m, ids := r.delegations, RevokedIds(r, d);
    var strict := LiveSubtree(m, d) - {d};
    if ids[k] != d {
      KeepMembers(r.order, strict);
      assert ids[k] in strict;
      LiveParent(m, d, ids[k]);
      var p := m[ids[k]].parent.value;
      assert ids[..k][0] == d;
      if p != d {
        var i :| 0 <= i < |r.order| && r.order[i] == p;
        KeepFollowsOrder(r.order, strict, i, k - 1);
        assert ids[..k] == [d] + Keep(r.order, strict)[..k - 1];
      }
    }
  }

  /** The returned ids are the live subtree, once each, every parent before its children. */
  lemma RevokedIdsExact(r: Registry, d: Id)
    requires Inv(r) && d in r.delegations
    ensures forall x :: x in RevokedIds(r, d) <==> x in LiveSubtree(r.delegations, d)
    ensures NoRepeats(RevokedIds(r, d))
    ensures forall k | 0 <= k < |RevokedIds(r, d)| :: ParentBefore(r.delegations, RevokedIds(r, d), d, k)
  {
    var m, live := r.delegations, LiveSubtree(r.delegations, d);
    KeepMembers(r.order, live - {d});
    KeepDistinct(r.order, live - {d});
    if m[d].revoked {
      forall x ensures x !in live {
        if x in live { AncestorEnvelope(m, x, d); }
      }
    }
    forall k | 0 <= k < |RevokedIds(r, d)| ensures ParentBefore(m, RevokedIds(r, d), d, k) {
      RevokedIdParentBefore(r, d, k);
    }
  }

  // ---------------------------------------------------------------------------
  // The sweep
  // ---------------------------------------------------------------------------

  /** What is revoked once the first sweep has passed over `s`. */
  ghost function SweptOver(m: map<Id, Delegation>, id: Id, s: seq<Id>): set<Id>
    requires Forest(m)
  {
    set x | x in LiveSubtree(m, id) && (x == id || x in s)
  }

  /** The test the sweep applies to each record. */
  predicate Orphaned(m: map<Id, Delegation>, x: Id)
    requires x in m
  {
    && !m[x].revoked
    && m[x].parent.Some?
    && m[x].parent.value in m
    && m[m[x].parent.value].revoked
  }

  /** In insertion order the parent's fate is settled first, so one visit settles each record. */
  lemma SweepVisit(r: Registry, id: Id, now: int, i: nat)
    requires Inv(r) && id in r.delegations && i < |r.order|
    ensures r.order[i] in r.delegations
    ensures Orphaned(Mark(r.delegations, SweptOver(r.delegations, id, r.order[..i]), now), r.order[i])
       <==> r.order[i] in LiveSubtree(r.delegations, id) - {id}
  {
    var m, x := r.delegations, r.order[i];
    assert Linked(m, x) && NarrowsParent(m, x);
    if m[x].parent.Some? {
      var p := m[x].parent.value;
      var j :| 0 <= j < |r.order| && r.order[j] == p;
      assert r.order[..i][j] == p;
      assert Descends(m, x, id) <==> x == id || Descends(m, p, id);
    }
  }

  /** Once the subtree is revoked no record is left for a further sweep. */
  lemma SweepSettled(r: Registry, id: Id, now: int, x: Id)
    requires Inv(r) && x in r.delegations
    ensures !Orphaned(Mark(r.delegations, LiveSubtree(r.delegations, id), now), x)
  {
    var m := r.delegations;
    assert Linked(m, x) && NarrowsParent(m, x);
    if m[x].parent.Some? {
      assert Descends(m, x, id) <==> x == id || Descends(m, m[x].parent.value, id);
    }
  }

  lemma SweepStart(m: map<Id, Delegation>, id: Id, now: int)
    requires Forest(m) && id in m
    ensures Mark(m, SweptOver(m, id, []), now) ==
            if m[id].revoked then m else m[id := m[id].(revoked := true, revokedAt := Some(now))]
    ensures Keep([], LiveSubtree(m, id) - {id}) == []
  {
  }

  lemma SweptAll(r: Registry, id: Id)
    requires Inv(r)
    ensures SweptOver(r.delegations, id, r.order) == LiveSubtree(r.delegations, id)
  {
  }

  /** How one visit extends the swept set and the list of ids. */
  lemma SweepAdvance(m: map<Id, Delegation>, id: Id, now: int, order: seq<Id>, i: nat)
    requires Forest(m) && i < |order| && order[i] in m
    ensures var x, live := order[i], LiveSubtree(m, id) - {id};
            var was := Mark(m, SweptOver(m, id, order[..i]), now);
            && Mark(m, SweptOver(m, id, order[..i + 1]), now) ==
               (if x in live then was[x := was[x].(revoked := true, revokedAt := Some(now))] else was)
            && Keep(order[..i + 1], live) == Keep(order[..i], live) + (if x in live then [x] else [])
  {
    assert order[..i + 1] == order[..i] + [order[i]];
    assert order[..i + 1][..i] == order[..i];
  }

  /** A pass that has visited the first `i` records; a repeated pass finds nothing to do. */
  ghost predicate SweepState(r: Registry, id: Id, now: int, again: bool, i: nat, cur: map<Id, Delegation>, ids: seq<Id>)
    requires Forest(r.delegations) && i <= |r.order|
  {
    var live := LiveSubtree(r.delegations, id);
    if again then cur == Mark(r.delegations, live, now) && ids == []
    else
      && cur == Mark(r.delegations, SweptOver(r.delegations, id, r.order[..i]), now)
      && ids == Keep(r.order[..i], live - {id})
  }

  function Revoking(m: map<Id, Delegation>, x: Id, now: int): map<Id, Delegation>
    requires x in m
  {
    m[x := m[x].(revoked := true, revokedAt := Some(now))]
  }

  lemma SweepStep(r: Registry, id: Id, now: int, again: bool, i: nat, cur: map<Id, Delegation>, ids: seq<Id>)
    requires Inv(r) && id in r.delegations && i < |r.order| && SweepState(r, id, now, again, i, cur, ids)
    ensures r.order[i] in cur
    ensures if Orphaned(cur, r.order[i])
            then SweepState(r, id, now, again, i + 1, Revoking(cur, r.order[i], now), ids + [r.order[i]])
            else SweepState(r, id, now, again, i + 1, cur, ids)
  {
    SweepVisit(r, id, now, i);
    SweepAdvance(r.delegations, id, now, r.order, i);
    SweepSettled(r, id, now, r.order[i]);
  }

  lemma SweepBegin(r: Registry, id: Id, now: int, again: bool)
    requires Inv(r) && id in r.delegations
    ensures Forest(r.delegations)
    ensures var swept := SweptOver(r.delegations, id, if again then r.order else []);
            SweepState(r, id, now, again, 0, Mark(r.delegations, swept, now), [])
  {
    SweptAll(r, id);
    SweepStart(r.delegations, id, now);
    assert r.order[..0] == [];
  }

  lemma SweepEnd(r: Registry, id: Id, now: int, again: bool, cur: map<Id, Delegation>, ids: seq<Id>)
    requires Inv(r) && SweepState(r, id, now, again, |r.order|, cur, ids)
    ensures cur == Mark(r.delegations, LiveSubtree(r.delegations, id), now)
    ensures ids == if again then [] else Keep(r.order, LiveSubtree(r.delegations, id) - {id})
  {
    SweptAll(r, id);
    assert r.order[..|r.order|] == r.order;
  }

  // ---------------------------------------------------------------------------
  // Whole runs
  // ---------------------------------------------------------------------------

  /** `id` is the fresh identifier drawn by the call. */
  datatype Op =
    | RegisterAuthority(authority: Id)
    | RootOp(authority: Id, g: Grant, maxDepth: int, id: Id)
    | ChildOp(parent: Id, g: Grant, now: int, id: Id)
    | RevokeOp(d: Id, now: int)

  ghost predicate Fresh(r: Registry, op: Op) {
    match op
    case RootOp(_, _, _, id) => id !in r.delegations
    case ChildOp(_, _, _, id) => id !in r.delegations
    case _ => true
  }

  /** A refused call changes nothing. */
  ghost function Apply(r: Registry, op: Op): Registry
    requires Inv(r)
  {
    match op
    case RegisterAuthority(a) => r.(authorities := r.authorities + {a})
    case RootOp(a, g, k, id) => var o := IssueRoot(r, a, g, k, id); if o.Ok? then o.value else r
    case ChildOp(p, g, now, id) => var o := IssueChild(r, p, g, now, id); if o.Ok? then o.value else r
    case RevokeOp(d, now) =>
      if d in r.delegations then r.(delegations := Mark(r.delegations, LiveSubtree(r.delegations, d), now)) else r
  }

  lemma ApplyKeepsInv(r: Registry, op: Op)
    requires Inv(r) && Fresh(r, op)
    ensures Inv(Apply(r, op))
  {
    match op
    case RegisterAuthority(_) =>
    case RootOp(a, g, k, id) =>
      if IssueRoot(r, a, g, k, id).Ok? {
        InsertKeepsInv(r, id, Delegation(g, k, 0, None, a, false, None));
      }
    case ChildOp(p, g, now, id) =>
      if IssueChild(r, p, g, now, id).Ok? {
        var o := r.delegations[p];
        InsertKeepsInv(r, id, Delegation(g, o.maxDepth, o.depth + 1, Some(p), o.grant.subject, false, None));
      }
    case RevokeOp(d, now) =>
      RevokeKeepsInv(r, d, now);
  }

  /** A child is issued exactly when every link above it is valid and it asks for no more than its parent holds. */
  lemma ChildIssuedIff(r: Registry, parent: Id, g: Grant, now: int, id: Id)
    requires Inv(r)
    ensures IssueChild(r, parent, g, now, id).Ok? <==>
              && parent in r.delegations
              && ChainValid(r.delegations, parent, now)
              && Within(g, r.delegations[parent].grant)
              && r.delegations[parent].depth < r.delegations[parent].maxDepth
              && g.notBefore < g.notAfter
  {
    if parent in r.delegations {
      ChainValidIffSelfValid(r.delegations, parent, now);
    }
  }

  /** A root is issued exactly by a registered authority to somebody else, with a window and a depth bound. */
  lemma RootIssuedIff(r: Registry, authority: Id, g: Grant, maxDepth: int, id: Id)
    ensures IssueRoot(r, authority, g, maxDepth, id).Ok? <==>
              authority in r.authorities && authority != g.subject && g.notBefore < g.notAfter && maxDepth >= 0
  {
  }

  /** Clearances in rising order. */
  lemma ClearanceOrder(a: Clearance, b: Clearance)
    ensures ClearanceRank(a) <= ClearanceRank(b) <==>
              a == b || a == Public || b == Secret || (a == Internal && b == Confidential)
  {
  }

  /** Revocation stamps the live subtree with its moment and touches nothing else of any record. */
  lemma RevocationMarks(r: Registry, d: Id, now: int, x: Id)
    requires Inv(r) && d in r.delegations && x in r.delegations
    ensures var was, after := r.delegations[x], Apply(r, RevokeOp(d, now)).delegations;
            && x in after && after.Keys == r.delegations.Keys
            && after[x] == if Descends(r.delegations, x, d) && !was.revoked
                           then Delegation(was.grant, was.maxDepth, was.depth, was.parent, was.issuer, true, Some(now))
                           else was
  {
  }

  /** `r` leads to `s` by the calls `ops`, each drawing a fresh identifier. */
  ghost predicate Runs(r: Registry, ops: seq<Op>, s: Registry)
    decreases |ops|
  {
    if ops == [] then r == s
    else Inv(r) && Fresh(r, ops[0]) && Runs(Apply(r, ops[0]), ops[1..], s)
  }

  lemma {:induction false} RunKeepsInv(r: Registry, ops: seq<Op>, s: Registry)
    requires Inv(r) && Runs(r, ops, s)
    ensures Inv(s)
    decreases |ops|
  {
    if ops != [] {
      ApplyKeepsInv(r, ops[0]);
      RunKeepsInv(Apply(r, ops[0]), ops[1..], s);
    }
  }

  /** The chain of `d` ends at a root issued by a registered authority to somebody else. */
  ghost predicate Rooted(r: Registry, d: Id)
    requires Forest(r.delegations) && d in r.delegations
  {
    var c := Chain(r.delegations, d);
    var root := r.delegations[c[|c| - 1]];
    && |c| == r.delegations[d].depth + 1 <= root.maxDepth + 1
    && root.parent.None? && root.issuer in r.authorities && root.issuer != root.grant.subject
  }

  lemma ChainsAreRooted(r: Registry, d: Id)
    requires Inv(r) && d in r.delegations
    ensures Rooted(r, d)
  {
    var m, c := r.delegations, Chain(r.delegations, d);
    ChainIsAncestry(m, d, c[|c| - 1]);
    AncestorEnvelope(m, d, c[|c| - 1]);
    assert Sound(r.authorities, m[d]) && Sound(r.authorities, m[c[|c| - 1]]);
  }

  /** For every call sequence: no delegation exceeds any ancestor, and every chain ends at a trusted root. */
  lemma NoAuthorityLaundering(trusted: set<Id>, ops: seq<Op>, r: Registry, d: Id, a: Id)
    requires Runs(Initial(trusted), ops, r) && d in r.delegations
    ensures Forest(r.delegations) && Rooted(r, d)
    ensures Descends(r.delegations, d, a) ==>
              && a in r.delegations
              && Within(r.delegations[d].grant, r.delegations[a].grant)
              && r.delegations[d].depth <= r.delegations[a].maxDepth
  {
    RunKeepsInv(Initial(trusted), ops, r);
    ChainsAreRooted(r, d);
    if Descends(r.delegations, d, a) {
      AncestorEnvelope(r.delegations, d, a);
    }
  }

  /** The calls of a run that issued something, in order. */
  ghost function Issuances(r: Registry, ops: seq<Op>): seq<Op>
    decreases |ops|
  {
    if ops == [] || !Inv(r) then [] else
      (if Issues(r, ops[0]) then [ops[0]] else []) + Issuances(Apply(r, ops[0]), ops[1..])
  }

  /** The call meets every condition of issuing. */
  ghost predicate Issues(r: Registry, op: Op)
    requires Inv(r)
  {
    match op
    case RootOp(a, g, k, _) => a in r.authorities && a != g.subject && g.notBefore < g.notAfter && k >= 0
    case ChildOp(p, g, now, _) =>
      && p in r.delegations && ChainValid(r.delegations, p, now) && Within(g, r.delegations[p].grant)
      && r.delegations[p].depth < r.delegations[p].maxDepth && g.notBefore < g.notAfter
    case _ => false
  }

  /** The record of `op.id` is what `op` asked for: its grant, its parent, its issuer and its bound. */
  ghost predicate AsAsked(m: map<Id, Delegation>, op: Op)
    requires op.RootOp? || op.ChildOp?
  {
    && op.id in m && m[op.id].grant == op.g
    && match op
       case RootOp(a, _, k, id) => m[id].parent == None && m[id].issuer == a && m[id].maxDepth == k
       case ChildOp(p, _, _, id) =>
         && m[id].parent == Some(p) && p in m
         && m[id].issuer == m[p].grant.subject && m[id].maxDepth == m[p].maxDepth
  }

  /** Everything but the revocation mark. */
  ghost predicate SameTerms(a: Delegation, b: Delegation) {
    a.(revoked := b.revoked, revokedAt := b.revokedAt) == b
  }

  /** A call issues exactly under its conditions, and then adds one record, as asked; other terms stay. */
  lemma StepIssues(r: Registry, op: Op)
    requires Inv(r) && Fresh(r, op)
    ensures var n := Apply(r, op).delegations;
            && (if Issues(r, op) then n.Keys == r.delegations.Keys + {op.id} && AsAsked(n, op) && !n[op.id].revoked
                else n.Keys == r.delegations.Keys)
            && forall x | x in r.delegations :: SameTerms(r.delegations[x], n[x])
  {
    match op
    case RootOp(a, g, k, id) => RootIssuedIff(r, a, g, k, id);
    case ChildOp(p, g, now, id) => ChildIssuedIff(r, p, g, now, id);
    case _ =>
    hide Inv, ChainValid, Within, LiveSubtree;
  }

  lemma TermsLast(m: map<Id, Delegation>, n: map<Id, Delegation>, op: Op)
    requires (op.RootOp? || op.ChildOp?) && AsAsked(m, op)
    requires forall x | x in m :: x in n && SameTerms(m[x], n[x])
    ensures AsAsked(n, op)
  {
  }

  /** From `m` to `n` exactly the calls `all` issued something, each under an id of its own, and as asked. */
  ghost predicate IssuedBetween(m: map<Id, Delegation>, all: seq<Op>, n: map<Id, Delegation>) {
    && (forall i | 0 <= i < |all| :: (all[i].RootOp? || all[i].ChildOp?) && AsAsked(n, all[i]) && all[i].id !in m)
    && (forall i, j | 0 <= i < j < |all| :: all[i].id != all[j].id)
    && (forall d | d in n :: d in m || exists i | 0 <= i < |all| :: all[i].id == d)
    && (forall d | d in m :: d in n && SameTerms(m[d], n[d]))
  }

  lemma OneMoreIssued(m: map<Id, Delegation>, op: Op, n: map<Id, Delegation>, rest: seq<Op>, last: map<Id, Delegation>)
    requires (op.RootOp? || op.ChildOp?) && AsAsked(n, op) && n.Keys == m.Keys + {op.id} && op.id !in m
    requires forall x | x in m :: SameTerms(m[x], n[x])
    requires IssuedBetween(n, rest, last)
    ensures IssuedBetween(m, [op] + rest, last)
  {
    hide AsAsked, SameTerms;
    TermsLast(n, last, op);
    var all := [op] + rest;
    assert forall i | 0 < i < |all| :: all[i] == rest[i - 1];
    forall d | d in m ensures d in last && SameTerms(m[d], last[d]) {
      SameTermsChain(m[d], n[d], last[d]);
    }
    forall d | d in last ensures d in m || exists i | 0 <= i < |all| :: all[i].id == d {
      if d == op.id {
        assert all[0].id == d;
      } else if d !in m {
        var i :| 0 <= i < |rest| && rest[i].id == d;
        assert all[i + 1].id == d;
      }
    }
  }

  lemma SameTermsChain(a: Delegation, b: Delegation, c: Delegation)
    requires SameTerms(a, b) && SameTerms(b, c)
    ensures SameTerms(a, c)
  {
  }

  lemma NothingMoreIssued(m: map<Id, Delegation>, n: map<Id, Delegation>, rest: seq<Op>, last: map<Id, Delegation>)
    requires n.Keys == m.Keys && (forall x | x in m :: SameTerms(m[x], n[x])) && IssuedBetween(n, rest, last)
    ensures IssuedBetween(m, rest, last)
  {
    hide AsAsked, SameTerms;
    forall d | d in m ensures d in last && SameTerms(m[d], last[d]) {
      SameTermsChain(m[d], n[d], last[d]);
    }
  }

  lemma {:induction false} RunIssues(r: Registry, ops: seq<Op>, s: Registry)
    requires Inv(r) && Runs(r, ops, s)
    ensures IssuedBetween(r.delegations, Issuances(r, ops), s.delegations)
    decreases |ops|
  {
    if ops != [] {
      var n := Apply(r, ops[0]);
      StepIssues(r, ops[0]);
      ApplyKeepsInv(r, ops[0]);
      hide Inv, Issues, Apply, IssuedBetween, AsAsked, SameTerms;
      RunIssues(n, ops[1..], s);
      var rest := Issuances(n, ops[1..]);
      if Issues(r, ops[0]) {
        OneMoreIssued(r.delegations, ops[0], n.delegations, rest, s.delegations);
      } else {
        assert [] + rest == rest;
        NothingMoreIssued(r.delegations, n.delegations, rest, s.delegations);
      }
    }
  }

  /**
    In every run each delegation was issued by exactly one call, and holds exactly the grant, the parent, the issuer and
    the bound that call asked for; refused calls leave nothing behind.
   */
  lemma GrantsAreAsAsked(trusted: set<Id>, ops: seq<Op>, r: Registry)
    requires Runs(Initial(trusted), ops, r)
    ensures var all := Issuances(Initial(trusted), ops);
            && (forall i | 0 <= i < |all| :: (all[i].RootOp? || all[i].ChildOp?) && AsAsked(r.delegations, all[i]))
            && (forall i, j | 0 <= i < j < |all| :: all[i].id != all[j].id)
            && (forall d :: d in r.delegations <==> exists i | 0 <= i < |all| :: all[i].id == d)
  {
    assert Inv(Initial(trusted));
    RunIssues(Initial(trusted), ops, r);
  }

  /** The bound of a delegation is the one asked for at the root of its chain. */
  lemma BoundComesFromRoot(trusted: set<Id>, ops: seq<Op>, r: Registry, d: Id) returns (i: nat)
    requires Runs(Initial(trusted), ops, r) && d in r.delegations
    ensures Forest(r.delegations)
    ensures var all, c := Issuances(Initial(trusted), ops), Chain(r.delegations, d);
            && i < |all| && all[i].RootOp? && all[i].id == c[|c| - 1]
            && r.delegations[d].maxDepth == all[i].maxDepth && r.delegations[c[|c| - 1]].issuer == all[i].authority
  {
    GrantsAreAsAsked(trusted, ops, r);
    RunKeepsInv(Initial(trusted), ops, r);
    var m := r.delegations;
    var c := Chain(m, d);
    ChainIsAncestry(m, d, c[|c| - 1]);
    AncestorEnvelope(m, d, c[|c| - 1]);
    hide Runs, Inv, Issuances;
    var all := Issuances(Initial(trusted), ops);
    var k :| 0 <= k < |all| && all[k].id == c[|c| - 1];
    i := k;
    assert AsAsked(m, all[i]);
  }

  ghost function Children(m: map<Id, Delegation>, d: Id): set<Id> {
    set x | x in m && m[x].parent == Some(d)
  }

  lemma StepAfterRevocation(r: Registry, op: Op, d: Id)
    requires Inv(r) && Fresh(r, op) && d in r.delegations && r.delegations[d].revoked
    ensures var s := Apply(r, op);
            && d in s.delegations && s.delegations[d] == r.delegations[d]
            && Children(s.delegations, d) == Children(r.delegations, d)
  {
    var s := Apply(r, op);
    assert forall x :: x in Children(s.delegations, d) <==> x in Children(r.delegations, d);
  }

  /** Revocation is final: the record is frozen and the delegation never gains a child, whatever is called next. */
  lemma {:induction false} RevocationIsFinal(r: Registry, ops: seq<Op>, s: Registry, d: Id)
    requires Inv(r) && Runs(r, ops, s) && d in r.delegations && r.delegations[d].revoked
    ensures d in s.delegations && s.delegations[d] == r.delegations[d]
    ensures Children(s.delegations, d) == Children(r.delegations, d)
    decreases |ops|
  {
    if ops != [] {
      ApplyKeepsInv(r, ops[0]);
      StepAfterRevocation(r, ops[0], d);
      RevocationIsFinal(Apply(r, ops[0]), ops[1..], s, d);
    }
  }

  // ---------------------------------------------------------------------------
  // The registry object
  // ---------------------------------------------------------------------------

  class DelegationRegistry {
    var authorities: set<Id>
    var delegations: map<Id, Delegation>
    var order: seq<Id>

    ghost function State(): Registry
      reads this
    {
      Registry(authorities, delegations, order)
    }

    ghost predicate Valid()
      reads this
    {
      Inv(State())
    }

    constructor (trusted: set<Id>)
      ensures Valid() && State() == Initial(trusted)
    {
      authorities, delegations, order := trusted, map[], [];
    }

    method RegisterAuthority(authority: Id)
      requires Valid()
      modifies this
      ensures Valid() && State() == Apply(old(State()), Op.RegisterAuthority(authority))
    {
      authorities := authorities + {authority};
    }

    method IssueRoot(authority: Id, g: Grant, maxDepth: int, id: Id) returns (r: Result<Delegation, Reason>)
      requires Valid() && id !in delegations
      modifies this
      ensures Valid() && State() == Apply(old(State()), RootOp(authority, g, maxDepth, id))
      ensures r.Ok? <==> id in delegations
      ensures r.Ok? ==> r.value == delegations[id] && r.value.grant == g && r.value.issuer == authority
      ensures r.Err? ==> State() == old(State())
    {
      ApplyKeepsInv(State(), RootOp(authority, g, maxDepth, id));
      hide Inv;
      if authority !in authorities { return Err(Untrusted); }
      if authority == g.subject { return Err(SelfGrant); }
      if g.notAfter <= g.notBefore { return Err(EmptyWindow); }
      if maxDepth < 0 { return Err(BadDepth); }
      var d := Delegation(g, maxDepth, 0, None, authority, false, None);
      delegations, order := delegations[id := d], order + [id];
      return Ok(d);
    }

    method IssueChild(parent: Id, g: Grant, now: int, id: Id) returns (r: Result<Delegation, Reason>)
      requires Valid() && id !in delegations
      modifies this
      ensures Valid() && State() == Apply(old(State()), ChildOp(parent, g, now, id))
      ensures r.Ok? <==> id in delegations
      ensures r.Ok? ==> r.value == delegations[id] && r.value.grant == g && r.value.parent == Some(parent)
      ensures r.Ok? ==> old(parent in delegations && !delegations[parent].revoked)
      ensures r.Err? ==> State() == old(State())
    {
      ApplyKeepsInv(State(), ChildOp(parent, g, now, id));
      hide Inv;
      if parent !in delegations { return Err(Unknown); }
      var p := delegations[parent];
      if !p.ValidAt(now) { return Err(ParentInvalid); }
      var depth := p.depth + 1;
      if depth > p.maxDepth { return Err(DepthExceeded); }
      if !(g.capabilities <= p.grant.capabilities) { return Err(WidensCapabilities); }
      if !(g.scopes <= p.grant.scopes) { return Err(WidensScopes); }
      if ClearanceRank(g.clearance) > ClearanceRank(p.grant.clearance) { return Err(WidensClearance); }
      if g.notBefore < p.grant.notBefore || g.notAfter > p.grant.notAfter { return Err(WidensWindow); }
      if g.notAfter <= g.notBefore { return Err(EmptyWindow); }
      var d := Delegation(g, p.maxDepth, depth, Some(parent), p.grant.subject, false, None);
      delegations, order := delegations[id := d], order + [id];
      return Ok(d);
    }

    /**
      The walk up the ancestry. It accepts exactly the delegations whose whole chain is valid, which is
      exactly the locally valid ones; it takes at most depth + 1 steps and never meets a cycle.
     */
    method ValidateForAgent(id: Id, agent: Id, now: int)
      returns (r: Result<Delegation, Reason>, ghost steps: nat)
      requires Valid()
      ensures r.Ok? <==> id in delegations && delegations[id].grant.subject == agent && ChainValid(delegations, id, now)
      ensures r.Ok? <==>
                && id in delegations && delegations[id].grant.subject == agent && !delegations[id].revoked
                && delegations[id].grant.notBefore <= now < delegations[id].grant.notAfter
      ensures r.Ok? ==> r.value == delegations[id]
      ensures r != Err(Cycle)
      ensures id in delegations ==> steps <= delegations[id].depth + 1
    {
      steps := 0;
      if id !in delegations { return Err(Unknown), 0; }
      ChainValidIffSelfValid(delegations, id, now);
      var d := delegations[id];
      if d.grant.subject != agent { return Err(NotBound), 0; }
      var node: Option<Id> := Some(id);
      var seen: set<Id> := {};
      while node.Some?
        invariant node.Some? ==> node.value in delegations && Descends(delegations, id, node.value)
        invariant node.Some? ==>
            forall x | x in seen :: x in delegations && delegations[node.value].depth < delegations[x].depth
        invariant node.Some? ==> steps + delegations[node.value].depth == d.depth
        invariant steps <= d.depth + 1
        invariant id !in seen ==> node == Some(id)
        invariant id in seen ==> d.ValidAt(now)
        decreases if node.Some? then delegations[node.value].depth + 1 else 0
      {
        var n := node.value;
        if n in seen { return Err(Cycle), steps; }
        seen := seen + {n};
        steps := steps + 1;
        if !delegations[n].ValidAt(now) { return Err(ChainInvalid), steps; }
        assert Linked(delegations, n);
        if delegations[n].parent.Some? {
          DescendsTransitive(delegations, id, n, delegations[n].parent.value);
        }
        node := delegations[n].parent;
      }
      return Ok(d), steps;
    }

    /** One pass over the records: revokes every child of a revoked parent it meets. */
    method Sweep(id: Id, now: int, ghost r0: Registry, ghost again: bool) returns (ids: seq<Id>, changed: bool)
      requires Inv(r0) && id in r0.delegations && order == r0.order
      requires delegations == Mark(r0.delegations, SweptOver(r0.delegations, id, if again then r0.order else []), now)
      modifies this`delegations
      ensures delegations == Mark(r0.delegations, LiveSubtree(r0.delegations, id), now)
      ensures ids == if again then [] else Keep(order, LiveSubtree(r0.delegations, id) - {id})
      ensures changed <==> ids != []
    {
      hide *;
      SweepBegin(r0, id, now, again);
      ids, changed := [], false;
      var i := 0;
      while i < |order|
        invariant 0 <= i <= |order| && SweepState(r0, id, now, again, i, delegations, ids)
        invariant changed <==> ids != []
      {
        SweepStep(r0, id, now, again, i, delegations, ids);
        var x := order[i];
        if Orphaned(delegations, x) {
          delegations := Revoking(delegations, x, now);
          ids := ids + [x];
          changed := true;
        }
        i := i + 1;
      }
      SweepEnd(r0, id, now, again, delegations, ids);
    }

    /**
      Revocation sweeps until a pass changes nothing. It stops after at most two passes, having revoked
      exactly the unrevoked part of the subtree.
     */
    method Revoke(id: Id, now: int) returns (r: Result<seq<Id>, Reason>, ghost passes: nat)
      requires Valid()
      modifies this`delegations
      ensures Valid() && State() == Apply(old(State()), RevokeOp(id, now))
      ensures r.Ok? <==> old(id in delegations)
      ensures r.Ok? ==> r.value == RevokedIds(old(State()), id) && passes <= 2
    {
      passes := 0;
      if id !in delegations { return Err(Unknown), 0; }
      ghost var r0 := State();
      ghost var live := LiveSubtree(delegations, id);
      RevokeKeepsInv(r0, id, now);
      SweepStart(delegations, id, now);
      SweptAll(r0, id);
      hide Inv, Forest, Mark, Keep, LiveSubtree, SweptOver;
      var ids: seq<Id> := [];
      if !delegations[id].revoked {
        delegations := Revoking(delegations, id, now);
        ids := [id];
      }
      ghost var first := ids;
      var changed := true;
      while changed
        invariant passes == 0 ==>
            changed && ids == first && delegations == Mark(r0.delegations, SweptOver(r0.delegations, id, []), now)
        invariant passes > 0 ==>
            ids == first + Keep(order, live - {id}) && delegations == Mark(r0.delegations, live, now)
        invariant passes + (if changed then 1 else 0) <= 2
        decreases 2 - passes
      {
        var more;
        more, changed := Sweep(id, now, r0, passes > 0);
        ids := ids + more;
        passes := passes + 1;
      }
      return Ok(ids), passes;
    }
  }
}
