/** Which parts go on to grinding, in every run, and where that departs from the products'
    routes. */
module PartRoutes {
  import opened Basics
  import opened Retention
  import opened PartQueue
  import M = Models
  import opened PartFlow
  import opened PartFlowSafety
  import opened PartClaims

  /** The products that milling hands on to grinding. */
  const GROUND: set<Product> := {P3, P5}

  predicate GoesOn(p: Part) { p.step == MillingOp && p.product in GROUND }

  predicate HasChild(all: seq<Part>, i: nat) { exists j :: 0 <= j < |all| && all[j].parent == i + 1 && all[j].step == GrindingOp }

  /** A part carries on what its parent was made for, from where that was completed. */
  predicate Inherits(p: Part, parent: Part) { p.order == parent.order && p.source == parent.target }

  predicate RootsAtMilling(all: seq<Part>) { forall i :: 0 <= i < |all| && all[i].parent == 0 ==> all[i].step == MillingOp }

  predicate Inherited(all: seq<Part>) {
    forall i :: 0 <= i < |all| && 0 < all[i].parent <= |all| ==> Inherits(all[i], all[all[i].parent - 1])
  }

  predicate Named(all: seq<Part>) {
    forall i :: 0 <= i < |all| ==> all[i].next == if GoesOn(all[i]) then Some(GrindingOp) else None
  }

  predicate Continued(all: seq<Part>) {
    forall i :: 0 <= i < |all| && all[i].status.Completed? && GoesOn(all[i]) ==> HasChild(all, i)
  }

  /** Roots are at milling, a part inherits from its parent, each part names its next operation, and
      a completed part that goes on has a successor. */
  predicate Routed(all: seq<Part>) { RootsAtMilling(all) && Inherited(all) && Named(all) && Continued(all) }

  /** What a station does with a part it has completed. */
  lemma StationHandsOn(p: Part)
    requires AtStation(p)
    ensures NextStep(p, p.target) == if GoesOn(p) then Some((GrindingOp, M.Grinding)) else None
    ensures NextOperation(p.product, p.step) == if GoesOn(p) then Some(GrindingOp) else None
  {
    hide TakeOver;
    var at := PlaceInRoute(p.product, p.step);
    if at.Some? {
      var rest := Route(p.product)[at.value + 1..];
      assert at.value + 1 < |Route(p.product)| ==> rest == [Route(p.product)[at.value + 1]];
      TakeOverOne(rest, p.target);
    }
  }

  /** With at most one step left. */
  lemma TakeOverOne(rest: seq<Operation>, completedBy: M.Node)
    requires |rest| <= 1
    ensures rest == [] ==> TakeOver(rest, completedBy).None?
    ensures rest == [GrindingOp] ==> TakeOver(rest, completedBy) == Some((GrindingOp, M.Grinding))
    ensures rest == [InspectionOp] || rest == [TurningOp] ==> TakeOver(rest, completedBy).None?
  {
    if |rest| == 1 { assert rest[1..] == []; }
  }

  // ----------------------------------------------------------------- preservation

  /** A change that completes no part. */
  predicate Moved(p: Part, q: Part) {
    && q.product == p.product && q.step == p.step && q.parent == p.parent && q.next == p.next
    && q.order == p.order && q.source == p.source && q.target == p.target
    && (q.status.Completed? ==> p.status.Completed?)
  }

  lemma MovesKeepRouted(all: seq<Part>, next: seq<Part>)
    requires Routed(all) && |next| == |all| && forall i :: 0 <= i < |all| ==> Moved(all[i], next[i])
    ensures Routed(next)
  {
    forall i | 0 <= i < |next| && next[i].status.Completed? && GoesOn(next[i])
      ensures HasChild(next, i)
    {
      assert HasChild(all, i);
      var j :| 0 <= j < |all| && all[j].parent == i + 1 && all[j].step == GrindingOp;
      assert next[j].parent == i + 1 && next[j].step == GrindingOp;
    }
  }

  lemma ChildStays(all: seq<Part>, tail: seq<Part>, i: nat)
    requires HasChild(all, i)
    ensures HasChild(all + tail, i)
  {
    var j :| 0 <= j < |all| && all[j].parent == i + 1 && all[j].step == GrindingOp;
    assert (all + tail)[j] == all[j];
  }

  lemma AppendKeepsInherited(all: seq<Part>, p: Part)
    requires Inherited(all) && p.parent == 0 && forall i :: 0 <= i < |all| ==> all[i].parent <= i
    ensures Inherited(all + [p])
  {
    hide Inherits;
  }

  lemma AppendKeepsContinued(all: seq<Part>, p: Part)
    requires Continued(all) && p.status.Ready?
    ensures Continued(all + [p])
  {
    hide HasChild, GoesOn;
    forall i | 0 <= i < |all| && all[i].status.Completed? && GoesOn(all[i])
      ensures HasChild(all + [p], i)
    {
      ChildStays(all, [p], i);
    }
  }

  lemma NewRootKeepsRouted(all: seq<Part>, p: Part)
    requires Routed(all) && AtStation(p) && p.status.Ready? && p.next == NextOperation(p.product, p.step)
    requires p.step == MillingOp && p.parent == 0 && forall i :: 0 <= i < |all| ==> all[i].parent <= i
    ensures Routed(all + [p])
  {
    hide NextOperation, AtStation, Inherited, Continued;
    StationHandsOn(p);
    AppendKeepsInherited(all, p);
    AppendKeepsContinued(all, p);
  }

  /** The successor a completion adds. */
  lemma SuccessorIsRouted(p: Part, id: nat)
    requires AtStation(p) && p.id > 0
    ensures var child := Downstream(p, p.target, id);
            && |child| == (if GoesOn(p) then 1 else 0)
            && (GoesOn(p) ==> && child[0].parent == p.id && child[0].step == GrindingOp && child[0].next.None?
                              && child[0].status.Ready? && Inherits(child[0], p))
  {
    hide NextOperation, NextStep, AtStation;
    StationHandsOn(p);
    GrindingNames(p.product);
  }

  lemma CompletionKeepsInherited(all: seq<Part>, j: nat, child: seq<Part>)
    requires Inherited(all) && j < |all| && |child| <= 1 && forall i :: 0 <= i < |all| ==> all[i].parent <= i
    requires child != [] ==> child[0].parent == j + 1 && Inherits(child[0], all[j])
    ensures Inherited(all[j := CompleteOne(all[j])] + child)
  {
    var after := all[j := CompleteOne(all[j])] + child;
    forall i | 0 <= i < |after| && 0 < after[i].parent <= |after|
      ensures Inherits(after[i], after[after[i].parent - 1])
    {
      if i < |all| { assert Inherits(all[i], all[all[i].parent - 1]); }
    }
  }

  lemma CompletionKeepsContinued(all: seq<Part>, j: nat, child: seq<Part>)
    requires Continued(all) && j < |all| && |child| <= 1
    requires child != [] ==> child[0].parent == j + 1 && child[0].step == GrindingOp && child[0].status.Ready?
    requires GoesOn(all[j]) ==> child != []
    ensures Continued(all[j := CompleteOne(all[j])] + child)
  {
    hide HasChild;
    var marked := all[j := CompleteOne(all[j])];
    var after := marked + child;
    forall i | 0 <= i < |after| && after[i].status.Completed? && GoesOn(after[i])
      ensures HasChild(after, i)
    {
      if i == j {
        LastIsChild(after, i);
      } else {
        assert HasChild(all, i);
        MarkedKeepsChild(all, j, i);
        ChildStays(marked, child, i);
      }
    }
  }

  lemma CompletionKeepsNames(all: seq<Part>, j: nat, child: seq<Part>)
    requires Named(all) && RootsAtMilling(all) && j < |all| && |child| <= 1
    requires child != [] ==> child[0].step == GrindingOp && child[0].next.None? && child[0].parent > 0
    ensures Named(all[j := CompleteOne(all[j])] + child) && RootsAtMilling(all[j := CompleteOne(all[j])] + child)
  {}

  lemma CompletionKeepsRouted(all: seq<Part>, j: nat)
    requires Routed(all) && j < |all| && AtStation(all[j]) && all[j].id == j + 1
    requires forall i :: 0 <= i < |all| ==> all[i].parent <= i
    ensures Routed(all[j := CompleteOne(all[j])] + Downstream(all[j], all[j].target, |all| + 1))
  {
    hide AtStation, Downstream, CompleteOne, Inherited, Named, Continued, RootsAtMilling, Inherits, GoesOn;
    var child := Downstream(all[j], all[j].target, |all| + 1);
    SuccessorIsRouted(all[j], |all| + 1);
    CompletionKeepsInherited(all, j, child);
    CompletionKeepsContinued(all, j, child);
    CompletionKeepsNames(all, j, child);
  }

  lemma LastIsChild(all: seq<Part>, i: nat)
    requires all != [] && all[|all| - 1].parent == i + 1 && all[|all| - 1].step == GrindingOp
    ensures HasChild(all, i)
  {}

  lemma MarkedKeepsChild(all: seq<Part>, j: nat, i: nat)
    requires j < |all| && HasChild(all, i)
    ensures HasChild(all[j := CompleteOne(all[j])], i)
  {
    var k :| 0 <= k < |all| && all[k].parent == i + 1 && all[k].step == GrindingOp;
    var marked := all[j := CompleteOne(all[j])];
    assert marked[k].parent == i + 1 && marked[k].step == GrindingOp;
  }

  lemma GrindingNames(p: Product)
    ensures NextOperation(p, GrindingOp).None?
  {}

  // ---------------------------------------------------------------------- the steps

  lemma ReleaseMoves(s: Flow, run: string, now: int)
    ensures |ReleaseStep(s, run, now).all| == |s.all|
    ensures forall i :: 0 <= i < |s.all| ==> Moved(s.all[i], ReleaseStep(s, run, now).all[i])
  {
    hide ReleaseUpTo;
    ReleaseUpToList(s, run, now, |s.all|);
  }

  lemma ClaimMoves(s: Flow, node: M.Node, run: string, ttl: int, now: int, token: nat)
    ensures var t := Next(s, Claim(node, run, ttl, now, token));
            |t.all| == |s.all| && forall i :: 0 <= i < |s.all| ==> Moved(s.all[i], t.all[i])
  {
    hide Next, ReleaseStep;
    ClaimAddsNone(s, node, run, ttl, now, token);
    if Fresh(s.log, token) {
      ReleaseMoves(s, run, now);
      forall i | 0 <= i < |s.all|
        ensures Moved(s.all[i], Next(s, Claim(node, run, ttl, now, token)).all[i])
      {
        ClaimTakesOneReady(s, node, run, ttl, now, token, i);
      }
    } else {
      StaleClaimIsNothing(s, node, run, ttl, now, token);
    }
  }

  lemma ClaimAddsNone(s: Flow, node: M.Node, run: string, ttl: int, now: int, token: nat)
    ensures |Next(s, Claim(node, run, ttl, now, token)).all| == |s.all|
  {
    hide ReleaseUpTo, NextReady;
  }

  lemma StaleClaimIsNothing(s: Flow, node: M.Node, run: string, ttl: int, now: int, token: nat)
    requires !Fresh(s.log, token)
    ensures Next(s, Claim(node, run, ttl, now, token)) == s
  {}

  lemma CompleteKeepsRouted(s: Flow, node: M.Node, id: nat, token: nat)
    requires Inv(s) && Routed(s.all)
    ensures Routed(Next(s, Complete(node, id, token)).all)
  {
    hide CompletionError, ById, Downstream, Next, Routed, AtStation, ParentOk, LogOk, LastN, Base;
    if CompletionError(Live(s), node, id, token).None? {
      CompletionFindsPart(Live(s), node, id, token);
      CompletedHistory(s, node, id, token);
      WindowIsSuffix(s.all, RETAINED_PARTS);
      var j := Start(s) + ById(Live(s), id).value;
      assert AtStation(s.all[j]) && s.all[j].id == j + 1 && s.all[j].target == node;
      ParentsAreEarlier(s.all);
      CompletionKeepsRouted(s.all, j);
    } else {
      RefusedCompletion(s, node, id, token);
    }
  }

  lemma ParentsAreEarlier(all: seq<Part>)
    requires Lineage(all)
    ensures forall i :: 0 <= i < |all| ==> all[i].parent <= i
  {
    hide AtStation, Remaining;
    forall i | 0 <= i < |all| ensures all[i].parent <= i { assert ParentOk(all, i); }
  }

  lemma CreateKeepsRouted(s: Flow, run: string, order: string, product: Product)
    requires Inv(s) && Routed(s.all)
    ensures Routed(Next(s, CreatePart(run, order, product)).all)
  {
    hide Routed, NextOperation, Lineage, LogOk;
    ParentsAreEarlier(s.all);
    NewRootKeepsRouted(s.all, RootPart(|s.all| + 1, run, order, product));
  }

  lemma {:induction false} RunIsRouted(actions: seq<Action>)
    ensures Routed(Run(actions).all)
  {
    hide Next, Routed, Inv, Moved, ReleaseStep;
    if actions == [] {
      NothingIsRouted();
    } else {
      var front := actions[..|actions| - 1];
      var s := Run(front);
      RunIsRouted(front);
      RunKeepsInv(front);
      match actions[|actions| - 1]
      case CreatePart(run, order, product) => CreateKeepsRouted(s, run, order, product);
      case Release(run, now) => ReleaseMoves(s, run, now); ReleaseIsStep(s, run, now); MovesKeepRouted(s.all, ReleaseStep(s, run, now).all);
      case Claim(node, run, ttl, now, token) =>
        ClaimMoves(s, node, run, ttl, now, token);
        MovesKeepRouted(s.all, Next(s, Claim(node, run, ttl, now, token)).all);
      case Complete(node, id, token) => CompleteKeepsRouted(s, node, id, token);
    }
  }

  lemma NothingIsRouted()
    ensures Routed([])
  {}

  // --------------------------------------------------------------------- theorems

  /** A part with a parent is at grinding, and its parent was at milling, of a product that goes on. */
  lemma ChildOfMilling(all: seq<Part>, j: nat)
    requires Lineage(all) && j < |all| && all[j].parent > 0
    ensures ParentOk(all, j) && GoesOn(all[all[j].parent - 1]) && all[j].step == GrindingOp
  {
    hide Remaining;
    assert ParentOk(all, j);
    var p, q := all[j], all[all[j].parent - 1];
    assert AtStation(p) && AtStation(q);
    ShorterMeansGrinding(p, q);
  }

  lemma ShorterMeansGrinding(p: Part, q: Part)
    requires AtStation(p) && AtStation(q) && p.product == q.product && 1 <= Remaining(p) < Remaining(q)
    ensures GoesOn(q) && p.step == GrindingOp
  {}

  predicate IsSuccessor(all: seq<Part>, i: nat, j: nat) { j < |all| && all[j].parent == i + 1 }

  lemma SuccessorsAreNamed(all: seq<Part>, i: nat, j: nat)
    requires Lineage(all) && Routed(all) && i < |all| && IsSuccessor(all, i, j)
    ensures all[i].next == Some(all[j].step) && Inherits(all[j], all[i])
  {
    hide Lineage, HasChild, Inherits;
    ChildOfMilling(all, j);
  }

  lemma NamedHasSuccessor(all: seq<Part>, i: nat) returns (j: nat)
    requires Routed(all) && i < |all| && all[i].status.Completed? && all[i].next.Some?
    ensures IsSuccessor(all, i, j)
  {
    assert HasChild(all, i);
    j :| 0 <= j < |all| && all[j].parent == i + 1 && all[j].step == GrindingOp;
  }

  lemma NamesNextIff(all: seq<Part>, i: nat)
    requires Routed(all) && i < |all|
    ensures all[i].next == Some(GrindingOp) <==> all[i].step == MillingOp && all[i].product in {P3, P5}
  {
    hide HasChild;
  }

  /** In every run a completed part has a successor exactly when it names a next operation, which
      is the case exactly for P3 and P5 at milling; the successor is at that operation, for the same
      order, from where the part was completed. */
  lemma SuccessorIff(actions: seq<Action>, i: nat)
    requires i < |Run(actions).all| && Run(actions).all[i].status.Completed?
    ensures var all := Run(actions).all;
            && (all[i].next == Some(GrindingOp) <==> all[i].step == MillingOp && all[i].product in {P3, P5})
            && ((exists j: nat :: IsSuccessor(all, i, j)) <==> all[i].next.Some?)
            && (forall j: nat :: IsSuccessor(all, i, j) ==> all[i].next == Some(all[j].step) && Inherits(all[j], all[i]))
  {
    hide Run, Lineage, LogOk, Routed, IsSuccessor, Inherits;
    RunKeepsInv(actions);
    RunIsRouted(actions);
    var all := Run(actions).all;
    NamesNextIff(all, i);
    forall j: nat | IsSuccessor(all, i, j)
      ensures j < |all| && all[i].next == Some(all[j].step) && Inherits(all[j], all[i])
    {
      SuccessorInRange(all, i, j);
      SuccessorsAreNamed(all, i, j);
    }
    if all[i].next.Some? { var j := NamedHasSuccessor(all, i); }
  }

  lemma SuccessorInRange(all: seq<Part>, i: nat, j: nat)
    requires IsSuccessor(all, i, j)
    ensures j < |all|
  {}

  /** The queue departs from the routes: P1 and P4 call for grinding, but their parts start at
      milling, which is not on their route, and none is ever at grinding. */
  lemma SomeRoutesAreCutShort(actions: seq<Action>, i: nat)
    requires i < |Run(actions).all| && Run(actions).all[i].product in {P1, P4}
    ensures Run(actions).all[i].step != GrindingOp
    ensures GrindingOp in Route(Run(actions).all[i].product)
  {
    hide Run, LogOk, HasChild;
    RunKeepsInv(actions);
    RunIsRouted(actions);
    var all := Run(actions).all;
    if all[i].parent > 0 { ChildOfMilling(all, i); }
    assert Route(P1)[1] == GrindingOp && Route(P4)[1] == GrindingOp;
  }

  /** So the queue takes a product through its grinding, if it has any, for all but P1 and P4. */
  lemma GrindingReachedIff(product: Product)
    ensures (GrindingOp in Route(product) ==> product in GROUND) <==> product !in {P1, P4}
  {
    assert Route(P1)[1] == GrindingOp && Route(P4)[1] == GrindingOp;
  }
}
