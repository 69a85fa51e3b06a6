/** Every action of the part queue keeps lineages, the event log and the material balance. */
module PartFlowSafety {
  import opened Basics
  import opened Retention
  import opened PartQueue
  import M = Models
  import opened PartFlow

  /** A change that neither completes a part nor moves it. */
  predicate Retouched(p: Part, q: Part) {
    && q.id == p.id && q.run == p.run && q.parent == p.parent && q.product == p.product
    && q.step == p.step && q.target == p.target && p.events <= q.events
    && !p.status.Completed? && !q.status.Completed?
  }

  // ------------------------------------------------------------------- lineages

  /** A part may change while it is open; what it is and where it came from stay. */
  predicate Grown(p: Part, q: Part) {
    && q.id == p.id && q.run == p.run && q.parent == p.parent && q.product == p.product
    && q.step == p.step && q.target == p.target && p.events <= q.events
    && (p.status.Completed? ==> q == p)
  }

  lemma ParentStaysOk(all: seq<Part>, j: nat, q: Part, i: nat)
    requires j < |all| && i < |all| && ParentOk(all, i) && Grown(all[j], q)
    ensures ParentOk(all[j := q], i)
  {
    hide Remaining;
    var after := all[j := q];
    SameRemaining(all[i], after[i]);
    if all[i].parent > 0 {
      var k := all[i].parent - 1;
      assert after[k] == all[k];
    }
  }

  lemma GrowthKeepsLineage(all: seq<Part>, j: nat, q: Part)
    requires Lineage(all) && j < |all| && Grown(all[j], q)
    ensures Lineage(all[j := q])
  {
    hide AtStation, ParentOk;
    var after := all[j := q];
    SameStation(all[j], q);
    forall i | 0 <= i < |all|
      ensures after[i].id == i + 1 && AtStation(after[i]) && ParentOk(after, i)
    {
      ParentStaysOk(all, j, q, i);
    }
    assert forall i :: 0 <= i < |all| ==> after[i].parent == all[i].parent;
  }

  lemma SameStation(p: Part, q: Part)
    requires p.step == q.step && p.target == q.target
    ensures AtStation(p) == AtStation(q)
  {}

  lemma SameRemaining(p: Part, q: Part)
    requires p.step == q.step && p.product == q.product
    ensures Remaining(p) == Remaining(q)
  {}

  lemma ParentOkAppend(all: seq<Part>, p: Part, i: nat)
    requires i < |all| && ParentOk(all, i)
    ensures ParentOk(all + [p], i)
  {
    hide Remaining;
  }

  lemma AppendKeepsLineage(all: seq<Part>, p: Part)
    requires Lineage(all) && AtStation(p) && p.id == |all| + 1
    requires ParentOk(all + [p], |all|)
    requires p.parent > 0 ==> forall i :: 0 <= i < |all| ==> all[i].parent != p.parent
    ensures Lineage(all + [p])
  {
    hide AtStation, ParentOk;
    var after := all + [p];
    forall i | 0 <= i < |after|
      ensures after[i].id == i + 1 && AtStation(after[i]) && ParentOk(after, i)
    {
      if i < |all| { ParentOkAppend(all, p, i); }
    }
  }

  lemma CompletionKeepsLineage(all: seq<Part>, j: nat, node: M.Node)
    requires Lineage(all) && j < |all| && !all[j].status.Completed?
    ensures Lineage(all[j := CompleteOne(all[j])] + Downstream(all[j], node, |all| + 1))
  {
    hide AtStation, Remaining, Downstream, Lineage;
    var p := all[j];
    var marked := all[j := CompleteOne(p)];
    GrowthKeepsLineage(all, j, CompleteOne(p));
    var child := Downstream(p, node, |all| + 1);
    if child != [] {
      DownstreamShrinks(p, node, |all| + 1);
      assert child == [child[0]];
      OpenPartHasNoChild(all, j);
      SameRemaining(p, CompleteOne(p));
      assert ParentOk(marked + [child[0]], |all|);
      AppendKeepsLineage(marked, child[0]);
    } else {
      assert marked + child == marked;
    }
  }

  lemma OpenPartHasNoChild(all: seq<Part>, j: nat)
    requires Lineage(all) && j < |all| && !all[j].status.Completed?
    ensures all[j].id == j + 1
    ensures forall i :: 0 <= i < |all| ==> all[i].parent != j + 1
  {}

  // -------------------------------------------------------------------- the log

  lemma LastOnAppend(log: seq<Event>, e: Event, part: nat)
    ensures LastOn(log + [e], part) == if e.part == part then Some(|log|) else LastOn(log, part)
  {}

  /** What an event may do to the part it belongs to. */
  predicate Explains(p: Part, q: Part, e: Event, log: seq<Event>) {
    && q.id == p.id && e.part == p.id && !p.status.Completed?
    && match e
       case ReleaseEvent(_) => q.status.Ready? && q.token == 0 && q.claimedBy.None? && q.expiresAt.None?
       case ClaimEvent(_, token, _, _) => q.status.Claimed? && ClaimedBy(q, e) && Fresh(log, token)
       case CompleteEvent(_, token) => p.status.Claimed? && p.token == token && q.status.Completed? && q.accepted
  }

  lemma EventKeepsCompletions(all: seq<Part>, log: seq<Event>, j: nat, q: Part, e: Event)
    requires LogOk(all, log) && j < |all| && all[j].id == j + 1 && Explains(all[j], q, e, log)
    ensures CompletionIsFinal(log + [e]) && CompletionsFenced(log + [e]) && TokensOnce(log + [e])
  {
    hide LastOn;
    var after := log + [e];
    assert StatusFromLog(all[j], log);
    assert forall i :: 0 <= i < |log| && log[i].CompleteEvent? ==> log[i].part != e.part;
    forall k | 0 <= k < |after| && after[k].CompleteEvent?
      ensures var last := LastOn(after[..k], after[k].part);
              last.Some? && after[last.value].ClaimEvent? && after[last.value].token == after[k].token
    {
      assert after[..k] == log[..k];
      assert log[..|log|] == log;
    }
  }

  lemma EventKeepsLog(all: seq<Part>, log: seq<Event>, j: nat, q: Part, e: Event)
    requires LogOk(all, log) && j < |all| && Explains(all[j], q, e, log)
    requires forall i :: 0 <= i < |all| ==> all[i].id == i + 1
    ensures LogOk(all[j := q], log + [e])
  {
    hide TokensOnce, CompletionsFenced, CompletionIsFinal, LastOn;
    EventKeepsCompletions(all, log, j, q, e);
    var after := all[j := q];
    forall i | 0 <= i < |all|
      ensures StatusFromLog(after[i], log + [e])
    {
      LastOnAppend(log, e, i + 1);
      assert StatusFromLog(all[i], log);
    }
  }

  lemma NewPartKeepsLog(all: seq<Part>, log: seq<Event>, p: Part)
    requires LogOk(all, log) && p.id == |all| + 1 && p.status.Ready?
    requires p.token == 0 && p.claimedBy.None? && p.expiresAt.None?
    ensures LogOk(all + [p], log)
  {}

  // ------------------------------------------------------------------- the steps

  lemma RetouchKeepsInv(s: Flow, j: nat, q: Part, e: Event)
    requires Inv(s) && j < |s.all| && Retouched(s.all[j], q) && Explains(s.all[j], q, e, s.log)
    ensures Inv(Flow(s.all[j := q], s.log + [e]))
    ensures forall run, products :: Conserved(s.all, run, products) ==> Conserved(s.all[j := q], run, products)
  {
    hide Explains, LogOk, ParentOk, AtStation, Conserved;
    GrowthKeepsLineage(s.all, j, q);
    EventKeepsLog(s.all, s.log, j, q, e);
    forall run, products | Conserved(s.all, run, products)
      ensures Conserved(s.all[j := q], run, products)
    {
      RetouchKeepsBalance(s.all, j, q, run, products);
    }
  }

  lemma RetouchKeepsBalance(all: seq<Part>, j: nat, q: Part, run: string, products: set<Product>)
    requires j < |all| && Retouched(all[j], q) && Conserved(all, run, products)
    ensures Conserved(all[j := q], run, products)
  {
    hide NextStep;
    CountUpdate(all, j, q, Roots(run, products));
    CountUpdate(all, j, q, Active(run, products));
    CountUpdate(all, j, q, Ended(run, products));
  }

  lemma {:induction false} ReleaseKeepsInv(s: Flow, run: string, now: int, n: nat)
    requires Inv(s) && Start(s) <= n <= |s.all|
    ensures Inv(ReleaseUpTo(s, run, now, n))
    ensures forall r, products :: Conserved(s.all, r, products) ==> Conserved(ReleaseUpTo(s, run, now, n).all, r, products)
    decreases n
  {
    hide Inv, Conserved, Start;
    if n == Start(s) {
    } else {
      ReleaseKeepsInv(s, run, now, n - 1);
      var t := ReleaseUpTo(s, run, now, n - 1);
      if ExpiredClaim(t.all[n - 1], run, now) {
        var p := t.all[n - 1];
        RetouchKeepsInv(t, n - 1, ReleaseOne(p, run, now), ReleaseEvent(p.id));
      }
    }
  }

  lemma {:induction false} ReleaseAddsNoClaim(s: Flow, run: string, now: int, n: nat, token: nat)
    requires Start(s) <= n <= |s.all| && Fresh(s.log, token)
    ensures Fresh(ReleaseUpTo(s, run, now, n).log, token)
    decreases n
  {
    if n == Start(s) {
    } else {
      ReleaseAddsNoClaim(s, run, now, n - 1, token);
    }
  }

  lemma ClaimKeepsInv(s: Flow, node: M.Node, run: string, ttl: int, now: int, token: nat)
    requires Inv(s)
    ensures Inv(Next(s, Claim(node, run, ttl, now, token)))
    ensures forall r, products :: Conserved(s.all, r, products) ==>
              Conserved(Next(s, Claim(node, run, ttl, now, token)).all, r, products)
  {
    hide Inv, Conserved, ReleaseUpTo;
    if Fresh(s.log, token) {
      var t := ReleaseStep(s, run, now);
      ReleaseKeepsInv(s, run, now, |s.all|);
      ReleaseAddsNoClaim(s, run, now, |s.all|, token);
      var at := NextReady(Live(t), node, run);
      if at.Some? && Start(t) + at.value < |t.all| {
        var j := Start(t) + at.value;
        assert t.all[j] == Live(t)[at.value];
        RetouchKeepsInv(t, j, ClaimOne(t.all[j], node, token, ttl, now), ClaimEvent(t.all[j].id, token, now, ttl));
      }
    }
  }

  lemma CompletionKeepsBalance(all: seq<Part>, j: nat, run: string, products: set<Product>)
    requires j < |all| && !all[j].status.Completed? && Conserved(all, run, products)
    requires all[j].id > 0
    ensures Conserved(all[j := CompleteOne(all[j])] + Downstream(all[j], all[j].target, |all| + 1), run, products)
  {
    hide TakeOver, PlaceInRoute, NextOperation;
    var p := all[j];
    var q := CompleteOne(p);
    var child := Downstream(p, p.target, |all| + 1);
    CountUpdate(all, j, q, Roots(run, products));
    CountUpdate(all, j, q, Active(run, products));
    CountUpdate(all, j, q, Ended(run, products));
    CountAppend(all[j := q], child, Roots(run, products));
    CountAppend(all[j := q], child, Active(run, products));
    CountAppend(all[j := q], child, Ended(run, products));
    assert NextStep(q, q.target) == NextStep(p, p.target);
    DownstreamCounts(p, |all| + 1, run, products);
  }

  lemma DownstreamCounts(p: Part, id: nat, run: string, products: set<Product>)
    requires p.id > 0
    ensures var child := Downstream(p, p.target, id);
            && Count(child, Roots(run, products)) == 0
            && Count(child, Ended(run, products)) == 0
            && Count(child, Active(run, products))
               == if NextStep(p, p.target).Some? && Selected(p, run, products) then 1 else 0
  {}

  lemma CompleteAtKeepsInv(s: Flow, j: nat, token: nat)
    requires Inv(s) && j < |s.all| && s.all[j].status.Claimed? && s.all[j].token == token
    ensures Inv(CompleteAt(s, j, s.all[j].target, token))
  {
    hide Downstream, LogOk, ParentOk, AtStation;
    var p := s.all[j];
    CompletionKeepsLineage(s.all, j, p.target);
    EventKeepsLog(s.all, s.log, j, CompleteOne(p), CompleteEvent(p.id, token));
    ChildKeepsLog(s.all[j := CompleteOne(p)], s.log + [CompleteEvent(p.id, token)], p, p.target, |s.all| + 1);
  }

  lemma CompleteKeepsInv(s: Flow, node: M.Node, id: nat, token: nat)
    requires Inv(s)
    ensures Inv(Next(s, Complete(node, id, token)))
    ensures forall r, products :: Conserved(s.all, r, products) ==> Conserved(Next(s, Complete(node, id, token)).all, r, products)
  {
    hide Conserved, CompletionError, ById, CompleteAt, Inv, Next, LastN, Base;
    if CompletionError(Live(s), node, id, token).Some? {
      RefusedCompletion(s, node, id, token);
    } else {
      CompletionFindsPart(Live(s), node, id, token);
      CompletedHistory(s, node, id, token);
      WindowIsSuffix(s.all, RETAINED_PARTS);
      var j := Start(s) + ById(Live(s), id).value;
      CompleteAtKeepsInv(s, j, token);
      CompleteAtKeepsBalance(s, j, token);
    }
  }

  lemma RefusedCompletion(s: Flow, node: M.Node, id: nat, token: nat)
    requires CompletionError(Live(s), node, id, token).Some?
    ensures Next(s, Complete(node, id, token)) == s
  {}

  lemma CompleteAtKeepsBalance(s: Flow, j: nat, token: nat)
    requires Inv(s) && j < |s.all| && !s.all[j].status.Completed?
    ensures forall r, products :: Conserved(s.all, r, products) ==>
              Conserved(CompleteAt(s, j, s.all[j].target, token).all, r, products)
  {
    hide Conserved, Downstream, LogOk, ParentOk, AtStation;
    forall r, products | Conserved(s.all, r, products)
      ensures Conserved(CompleteAt(s, j, s.all[j].target, token).all, r, products)
    {
      CompletionKeepsBalance(s.all, j, r, products);
    }
  }

  lemma ChildKeepsLog(all: seq<Part>, log: seq<Event>, p: Part, node: M.Node, id: nat)
    requires LogOk(all, log) && id == |all| + 1
    ensures LogOk(all + Downstream(p, node, id), log)
  {}

  lemma CreateKeepsInv(s: Flow, run: string, order: string, product: Product)
    requires Inv(s)
    ensures Inv(Next(s, CreatePart(run, order, product)))
    ensures forall r, products :: Conserved(s.all, r, products) ==>
              Conserved(Next(s, CreatePart(run, order, product)).all, r, products)
  {
    hide LogOk, NextOperation, Lineage, Conserved;
    var p := RootPart(|s.all| + 1, run, order, product);
    RootIsOrphan(s.all, p);
    AppendKeepsLineage(s.all, p);
    NewPartKeepsLog(s.all, s.log, p);
    forall r, products | Conserved(s.all, r, products)
      ensures Conserved(s.all + [p], r, products)
    {
      RootKeepsBalance(s.all, p, r, products);
    }
  }

  lemma RootIsOrphan(all: seq<Part>, p: Part)
    requires p.parent == 0
    ensures ParentOk(all + [p], |all|)
  {}

  lemma RootKeepsBalance(all: seq<Part>, p: Part, run: string, products: set<Product>)
    requires p.parent == 0 && p.status.Ready? && Conserved(all, run, products)
    ensures Conserved(all + [p], run, products)
  {
    hide NextStep;
    CountAppend(all, [p], Roots(run, products));
    CountAppend(all, [p], Active(run, products));
    CountAppend(all, [p], Ended(run, products));
  }

  /** Everything above, in every run. */
  lemma {:induction false} RunKeepsInv(actions: seq<Action>)
    ensures Inv(Run(actions))
    ensures forall run, products :: Conserved(Run(actions).all, run, products)
  {
    hide Inv, Conserved, Next;
    if actions == [] {
      EmptyIsSound();
    } else {
      var s := Run(actions[..|actions| - 1]);
      RunKeepsInv(actions[..|actions| - 1]);
      match actions[|actions| - 1]
      case CreatePart(run, order, product) => CreateKeepsInv(s, run, order, product);
      case Release(run, now) => ReleaseKeepsInv(s, run, now, |s.all|); ReleaseIsNext(s, run, now);
      case Claim(node, run, ttl, now, token) => ClaimKeepsInv(s, node, run, ttl, now, token);
      case Complete(node, id, token) => CompleteKeepsInv(s, node, id, token);
    }
  }

  lemma ReleaseIsNext(s: Flow, run: string, now: int)
    ensures Next(s, Release(run, now)) == ReleaseUpTo(s, run, now, |s.all|)
  {}

  lemma EmptyIsSound()
    ensures Inv(EMPTY) && forall run, products :: Conserved(EMPTY.all, run, products)
  {}
}
