/** What holds of the part queue in every run: fencing by claim token, chains of parts, and
    conservation of material. */
module PartFlowTheorems {
  import opened Basics
  import opened Retention
  import opened PartQueue
  import M = Models
  import opened PartFlow
  import opened PartFlowSafety

  // --------------------------------------------------------------------- fencing

  /** Among the last 500 parts created. */
  predicate Retained(s: Flow, id: nat) { 1 <= id <= |s.all| && |s.all| - 500 < id }

  /** The part's latest event is the claim that handed out this token. */
  predicate HoldsClaim(s: Flow, id: nat, token: nat) {
    var last := LastOn(s.log, id);
    last.Some? && s.log[last.value].ClaimEvent? && s.log[last.value].token == token
  }

  /** A retained part is found at its place in the window, an evicted or unknown one is not. */
  lemma PartInWindow(s: Flow, id: nat)
    requires forall i :: 0 <= i < |s.all| ==> s.all[i].id == i + 1
    ensures ById(Live(s), id) == if Retained(s, id) then Some(id - 1 - Start(s)) else None
    ensures Retained(s, id) ==> id - 1 - Start(s) < |Live(s)| && Live(s)[id - 1 - Start(s)] == s.all[id - 1]
  {
    hide ById;
    WindowIsSuffix(s.all, RETAINED_PARTS);
    if Retained(s, id) { FoundAt(Live(s), id, id - 1 - Start(s)); }
  }

  lemma FoundAt(q: seq<Part>, id: nat, at: nat)
    requires at < |q| && q[at].id == id && forall i :: 0 <= i < |q| && i != at ==> q[i].id != id
    ensures ById(q, id) == Some(at)
  {}

  /** A part is claimed under a token exactly when its latest event is that claim. */
  lemma ClaimedIffHeld(p: Part, log: seq<Event>, token: nat)
    requires StatusFromLog(p, log) && TokensOnce(log)
    ensures p.status.Claimed? && p.token == token && token != 0
            <==> var last := LastOn(log, p.id);
                 last.Some? && log[last.value].ClaimEvent? && log[last.value].token == token
  {
    hide LastOn;
    var last := LastOn(log, p.id);
    if last.Some? && log[last.value].ClaimEvent? { ClaimTokenIsReal(log, last.value); }
  }

  /** What a completion needs of a part found at a place. */
  lemma NoErrorIff(q: seq<Part>, node: M.Node, id: nat, token: nat)
    ensures CompletionError(q, node, id, token).None?
            <==> (&& ById(q, id).Some?
                  && var p := q[ById(q, id).value];
                     p.target == node && p.status.Claimed? && p.token == token && token != 0)
  {}

  lemma AcceptedIff(s: Flow, node: M.Node, id: nat, token: nat)
    requires Inv(s)
    ensures CompletionError(Live(s), node, id, token).None?
            <==> Retained(s, id) && s.all[id - 1].target == node && HoldsClaim(s, id, token)
  {
    hide AtStation, ParentOk, TokensOnce, CompletionsFenced, CompletionIsFinal, CompletionError, ById, Live, LastOn, StatusFromLog;
    PartInWindow(s, id);
    NoErrorIff(Live(s), node, id, token);
    if Retained(s, id) {
      assert StatusFromLog(s.all[id - 1], s.log);
      ClaimedIffHeld(s.all[id - 1], s.log, token);
    }
  }

  /** A completion is accepted exactly when the part is retained, is this node's, and its latest
      event is the claim that handed out the presented token. */
  lemma CompletionAcceptedIff(actions: seq<Action>, node: M.Node, id: nat, token: nat)
    ensures var s := Run(actions);
            CompletionError(Live(s), node, id, token).None?
            <==> Retained(s, id) && s.all[id - 1].target == node && HoldsClaim(s, id, token)
  {
    hide Run, Inv, CompletionError, HoldsClaim;
    RunKeepsInv(actions);
    AcceptedIff(Run(actions), node, id, token);
  }

  /** Why a completion is refused, in every run: an unknown or evicted part, another station's,
      one that is not claimed, or a token other than the claim's. */
  lemma CompletionRefusedBecause(actions: seq<Action>, node: M.Node, id: nat, token: nat)
    ensures var s := Run(actions);
            var e := CompletionError(Live(s), node, id, token);
            && (e == Some(PartNotFound) <==> !Retained(s, id))
            && (e == Some(AssignedElsewhere) <==> Retained(s, id) && s.all[id - 1].target != node)
            && (e == Some(PartNotClaimed) <==> Retained(s, id) && s.all[id - 1].target == node && !s.all[id - 1].status.Claimed?)
            && (e == Some(InvalidToken)
                <==> Retained(s, id) && s.all[id - 1].target == node && s.all[id - 1].status.Claimed? && !HoldsClaim(s, id, token))
  {
    hide Run, ParentOk, AtStation, LogOk, ById, HoldsClaim, Live, Retained;
    RunKeepsInv(actions);
    PartInWindow(Run(actions), id);
    CompletionAcceptedIff(actions, node, id, token);
    RetainedInRange(Run(actions), id);
  }

  lemma RetainedInRange(s: Flow, id: nat)
    ensures Retained(s, id) ==> 1 <= id <= |s.all|
  {}

  lemma ClaimTokenIsReal(log: seq<Event>, k: nat)
    requires k < |log| && log[k].ClaimEvent? && TokensOnce(log)
    ensures log[k].token != 0
  {}

  /** A token is refused for good, for every node and part, once anything else happened to the
      part it was handed out for: expiry, a new claim or the completion itself. */
  lemma StaleTokenRefused(actions: seq<Action>, k: nat, m: nat, node: M.Node, id: nat)
    requires var log := Run(actions).log;
             k < m < |log| && log[k].ClaimEvent? && log[m].part == log[k].part
    ensures CompletionError(Live(Run(actions)), node, id, Run(actions).log[k].token).Some?
  {
    hide Run, CompletionError, Lineage, CompletionsFenced, CompletionIsFinal;
    var s := Run(actions);
    RunKeepsInv(actions);
    CompletionAcceptedIff(actions, node, id, s.log[k].token);
  }

  /** Every completion on record used the token of the claim directly before it on that part,
      and nothing happens to the part afterwards; in particular it completes at most once. */
  lemma CompletionsAreFenced(actions: seq<Action>, k: nat)
    requires k < |Run(actions).log| && Run(actions).log[k].CompleteEvent?
    ensures var log := Run(actions).log;
            var last := LastOn(log[..k], log[k].part);
            && last.Some? && log[last.value].ClaimEvent? && log[last.value].token == log[k].token
            && (forall m :: k < m < |log| ==> log[m].part != log[k].part)
            && 1 <= log[k].part <= |Run(actions).all|
            && Run(actions).all[log[k].part - 1].status.Completed?
  {
    hide Run, Lineage;
    var s := Run(actions);
    RunKeepsInv(actions);
    var i := s.log[k].part - 1;
    assert s.all[i].id == i + 1 by { IdsAreNumbers(s, i); }
    assert StatusFromLog(s.all[i], s.log);
    assert LastOn(s.log, i + 1) == Some(k);
  }

  lemma IdsAreNumbers(s: Flow, i: nat)
    requires Inv(s) && i < |s.all|
    ensures s.all[i].id == i + 1
  {}

  // -------------------------------------------------------------------- lineages

  predicate IsRoot(all: seq<Part>, i: nat)
    requires i < |all|
  {
    all[i].parent == 0 || all[i].parent > i
  }

  /** How many generations a part is away from its root. */
  function Depth(all: seq<Part>, i: nat): nat
    requires i < |all|
  {
    if IsRoot(all, i) then 0 else 1 + Depth(all, all[i].parent - 1)
  }

  /** The ancestor that many generations up, and the root of the lineage. */
  function Ancestor(all: seq<Part>, i: nat, up: nat): (r: nat)
    requires i < |all|
    ensures r < |all| && (up == 0 ==> r == i)
  {
    if up == 0 || IsRoot(all, i) then i else Ancestor(all, all[i].parent - 1, up - 1)
  }

  function Root(all: seq<Part>, i: nat): nat
    requires i < |all|
  {
    Ancestor(all, i, Depth(all, i))
  }

  lemma RootOfParent(all: seq<Part>, i: nat)
    requires Lineage(all) && i < |all| && all[i].parent > 0
    ensures !IsRoot(all, i)
    ensures Depth(all, i) == 1 + Depth(all, all[i].parent - 1)
    ensures Root(all, i) == Root(all, all[i].parent - 1)
  {}

  lemma {:induction false} AncestorFacts(all: seq<Part>, i: nat, up: nat)
    requires Lineage(all) && i < |all| && up <= Depth(all, i)
    ensures var a := Ancestor(all, i, up);
            && Depth(all, a) == Depth(all, i) - up && Root(all, a) == Root(all, i)
            && (up > 0 ==> all[a].status.Completed? && Remaining(all[i]) >= 1)
            && all[a].product == all[i].product
            && Remaining(all[i]) + up <= Remaining(all[a])
    decreases up
  {
    hide AtStation, Remaining, Root;
    if up == 0 {
    } else {
      assert ParentOk(all, i);
      hide ParentOk, Lineage;
      RootOfParent(all, i);
      AncestorFacts(all, all[i].parent - 1, up - 1);
    }
  }

  /** A lineage has one part per generation. */
  lemma {:induction false} OnePartPerGeneration(all: seq<Part>, i: nat, j: nat)
    requires Lineage(all) && i < |all| && j < |all|
    requires Root(all, i) == Root(all, j) && Depth(all, i) == Depth(all, j)
    ensures i == j
    decreases i
  {
    hide AtStation, ParentOk;
    if Depth(all, i) == 0 {
    } else {
      RootOfParent(all, i);
      RootOfParent(all, j);
      OnePartPerGeneration(all, all[i].parent - 1, all[j].parent - 1);
    }
  }

  /** In every run each lineage is a chain: of two of its parts one is the other's ancestor,
      and every part but the youngest is completed. */
  lemma LineageIsChain(actions: seq<Action>, i: nat, j: nat)
    requires i < |Run(actions).all| && j < |Run(actions).all|
    requires Root(Run(actions).all, i) == Root(Run(actions).all, j)
    requires Depth(Run(actions).all, i) <= Depth(Run(actions).all, j)
    ensures var all := Run(actions).all;
            && i == Ancestor(all, j, Depth(all, j) - Depth(all, i))
            && (i != j ==> all[i].status.Completed?)
  {
    hide Run, Lineage, Root, LogOk, Depth, Ancestor;
    RunKeepsInv(actions);
    var all := Run(actions).all;
    var up := Depth(all, j) - Depth(all, i);
    AncestorFacts(all, j, up);
    OnePartPerGeneration(all, i, Ancestor(all, j, up));
  }

  /** So at most one part of a lineage is open at any time. */
  lemma OneOpenPartPerLineage(actions: seq<Action>, i: nat, j: nat)
    requires i < |Run(actions).all| && j < |Run(actions).all|
    requires Root(Run(actions).all, i) == Root(Run(actions).all, j)
    requires !Run(actions).all[i].status.Completed? && !Run(actions).all[j].status.Completed?
    ensures i == j
  {
    hide Run, Root;
    var all := Run(actions).all;
    if Depth(all, i) <= Depth(all, j) { LineageIsChain(actions, i, j); }
    else { LineageIsChain(actions, j, i); }
  }

  /** And it ends within the length of the product's route. */
  lemma LineageEndsWithinRoute(actions: seq<Action>, i: nat)
    requires i < |Run(actions).all|
    ensures Depth(Run(actions).all, i) < |Route(Run(actions).all[i].product)|
  {
    hide Run, Lineage, LogOk, Route;
    RunKeepsInv(actions);
    var all := Run(actions).all;
    AncestorFacts(all, i, Depth(all, i));
    RoutesAreSimple(all[i].product);
  }

  // ---------------------------------------------------------------- conservation

  /** part_queue_flow_projection: operation-boundary counts over the retained queue. */
  datatype Projection = Projection(millingInput: nat, grindingInput: nat, grindingOutput: nat)

  function OpenAt(run: string, products: set<Product>, op: Operation): Part -> bool {
    (p: Part) => Selected(p, run, products) && !p.status.Completed? && p.step == op
  }

  function DoneAt(run: string, products: set<Product>, op: Operation): Part -> bool {
    (p: Part) => Selected(p, run, products) && p.status.Completed? && p.step == op
  }

  /** The counts for some of the products. */
  function Project(q: seq<Part>, run: string, products: set<Product>): Projection {
    Projection(Count(q, OpenAt(run, products, MillingOp)), Count(q, OpenAt(run, products, GrindingOp)),
               Count(q, DoneAt(run, products, GrindingOp)))
  }

  /** The code's projection, which looks at no product. */
  function ProjectRun(q: seq<Part>, run: string): Projection {
    Projection(Count(q, (p: Part) => InRun(p, run) && !p.status.Completed? && p.step == MillingOp),
               Count(q, (p: Part) => InRun(p, run) && !p.status.Completed? && p.step == GrindingOp),
               Count(q, (p: Part) => InRun(p, run) && p.status.Completed? && p.step == GrindingOp))
  }

  const CATALOGUE: set<Product> := {P1, P2, P3, P4, P5, Uncatalogued}

  lemma EveryProductIsListed(p: Product)
    ensures p in CATALOGUE
  {}

  lemma {:induction false} CountSame<T>(q: seq<T>, f: T -> bool, g: T -> bool)
    requires forall x :: f(x) == g(x)
    ensures Count(q, f) == Count(q, g)
  {
    if q == [] {
    } else {
      CountSame(q[1..], f, g);
    }
  }

  /** Over the whole catalogue the counts are the code's projection. */
  lemma ProjectionOfCatalogue(q: seq<Part>, run: string)
    ensures Project(q, run, CATALOGUE) == ProjectRun(q, run)
  {
    hide CATALOGUE;
    assert forall p: Part :: Selected(p, run, CATALOGUE) == InRun(p, run) by {
      forall p: Part ensures Selected(p, run, CATALOGUE) == InRun(p, run) { EveryProductIsListed(p.product); }
    }
    CountSame(q, OpenAt(run, CATALOGUE, MillingOp), (p: Part) => InRun(p, run) && !p.status.Completed? && p.step == MillingOp);
    CountSame(q, OpenAt(run, CATALOGUE, GrindingOp), (p: Part) => InRun(p, run) && !p.status.Completed? && p.step == GrindingOp);
    CountSame(q, DoneAt(run, CATALOGUE, GrindingOp), (p: Part) => InRun(p, run) && p.status.Completed? && p.step == GrindingOp);
  }

  /** Parts whose route ends at milling, completed there. */
  function MilledOut(run: string, products: set<Product>): Part -> bool {
    (p: Part) =>
      Selected(p, run, products) && p.status.Completed? && p.step == MillingOp && NextStep(p, M.Milling).None?
  }

  lemma {:induction false} OpenByStation(q: seq<Part>, run: string, products: set<Product>)
    requires forall i :: 0 <= i < |q| ==> AtStation(q[i])
    ensures Count(q, Active(run, products))
            == Count(q, OpenAt(run, products, MillingOp)) + Count(q, OpenAt(run, products, GrindingOp))
    ensures Count(q, Ended(run, products))
            == Count(q, DoneAt(run, products, GrindingOp)) + Count(q, MilledOut(run, products))
  {
    hide NextStep, Selected;
    if q == [] {
    } else {
      OpenByStation(q[1..], run, products);
      assert AtStation(q[0]);
      GrindingIsLast(q[0]);
    }
  }

  /** Parts of these products and this run that the retention limit has pushed out, while open
      or when finished. */
  function Evicted(s: Flow, run: string, products: set<Product>): nat {
    Count(s.all[..Start(s)], Active(run, products)) + Count(s.all[..Start(s)], Ended(run, products))
  }

  lemma NoneEvictedWithinLimit(s: Flow, run: string, products: set<Product>)
    requires |s.all| <= RETAINED_PARTS
    ensures Evicted(s, run, products) == 0
  {}

  /** Material balance of every run, for any choice of products: the roots created are the
      projection's milling input, grinding input and grinding output, plus the parts whose
      route ends at milling, plus what the retention limit evicted. */
  lemma MaterialIsConserved(actions: seq<Action>, run: string, products: set<Product>)
    ensures var s := Run(actions);
            var shown := Project(Live(s), run, products);
            Count(s.all, Roots(run, products))
            == shown.millingInput + shown.grindingInput + shown.grindingOutput
               + Count(Live(s), MilledOut(run, products)) + Evicted(s, run, products)
  {
    hide Run, LogOk, AtStation, ParentOk;
    var s := Run(actions);
    RunKeepsInv(actions);
    assert Conserved(s.all, run, products);
    WindowIsSuffix(s.all, RETAINED_PARTS);
    CountAppend(s.all[..Start(s)], Live(s), Active(run, products));
    CountAppend(s.all[..Start(s)], Live(s), Ended(run, products));
    OpenByStation(Live(s), run, products);
  }

  /** For turning-milling-grinding parts: roots are, on the retained queue, active at milling,
      active at grinding or completed at grinding, or were evicted. */
  lemma TurningMillingGrindingBalance(actions: seq<Action>, run: string)
    ensures var s := Run(actions);
            var shown := Project(Live(s), run, {P3});
            Count(s.all, Roots(run, {P3}))
            == shown.millingInput + shown.grindingInput + shown.grindingOutput + Evicted(s, run, {P3})
  {
    hide Run;
    MaterialIsConserved(actions, run, {P3});
    NoneMilledOut(Live(Run(actions)), run);
  }

  lemma {:induction false} NoneMilledOut(q: seq<Part>, run: string)
    ensures Count(q, MilledOut(run, {P3})) == 0
  {
    hide NextStep;
    if q == [] {
    } else {
      NoneMilledOut(q[1..], run);
      MillingGoesOn(q[0]);
    }
  }

  lemma MillingGoesOn(p: Part)
    ensures p.product.P3? && p.step == MillingOp ==> NextStep(p, M.Milling) == Some((GrindingOp, M.Grinding))
  {}
}
