/** The part queue over whole runs: every part ever created, and the log of claim, release and
    completion events. The queue the store keeps is the window of the last 500 parts. */
module PartFlow {
  import opened Basics
  import opened Retention
  import opened PartQueue
  import M = Models

  datatype Event =
    | ClaimEvent(part: nat, token: nat, at: int, ttlSeconds: int)
    | ReleaseEvent(part: nat)
    | CompleteEvent(part: nat, token: nat)

  datatype Flow = Flow(all: seq<Part>, log: seq<Event>)

  const EMPTY := Flow([], [])

  datatype Action =
    | CreatePart(run: string, order: string, product: Product)
    | Release(run: string, now: int)
    | Claim(node: M.Node, run: string, ttlSeconds: int, now: int, token: nat)
    | Complete(node: M.Node, id: nat, token: nat)

  function Live(s: Flow): seq<Part> { LastN(s.all, RETAINED_PARTS) }

  function Start(s: Flow): nat { Base(s.all, RETAINED_PARTS) }

  /** A fresh token was never handed out before and is not empty (a random UUID). */
  predicate Fresh(log: seq<Event>, token: nat) {
    token != 0 && forall k :: 0 <= k < |log| && log[k].ClaimEvent? ==> log[k].token != token
  }

  /** The release loop, up to (not including) history index n. */
  function ReleaseUpTo(s: Flow, run: string, now: int, n: nat): (t: Flow)
    requires Start(s) <= n <= |s.all|
    ensures |t.all| == |s.all|
    decreases n
  {
    if n == Start(s) then s
    else
      var t := ReleaseUpTo(s, run, now, n - 1);
      if ExpiredClaim(t.all[n - 1], run, now)
      then Flow(t.all[n - 1 := ReleaseOne(t.all[n - 1], run, now)], t.log + [ReleaseEvent(t.all[n - 1].id)])
      else t
  }

  function ReleaseStep(s: Flow, run: string, now: int): Flow { ReleaseUpTo(s, run, now, |s.all|) }

  function ClaimAt(s: Flow, j: nat, node: M.Node, ttlSeconds: int, now: int, token: nat): Flow
    requires j < |s.all|
  {
    Flow(s.all[j := ClaimOne(s.all[j], node, token, ttlSeconds, now)], s.log + [ClaimEvent(s.all[j].id, token, now, ttlSeconds)])
  }

  function CompleteAt(s: Flow, j: nat, node: M.Node, token: nat): Flow
    requires j < |s.all|
  {
    Flow(s.all[j := CompleteOne(s.all[j])] + Downstream(s.all[j], node, |s.all| + 1),
         s.log + [CompleteEvent(s.all[j].id, token)])
  }

  function Next(s: Flow, a: Action): Flow {
    match a
    case CreatePart(run, order, product) => s.(all := s.all + [RootPart(|s.all| + 1, run, order, product)])
    case Release(run, now) => ReleaseStep(s, run, now)
    case Claim(node, run, ttl, now, token) =>
      if !Fresh(s.log, token) then s
      else
        var t := ReleaseStep(s, run, now);
        var at := NextReady(Live(t), node, run);
        if at.None? || Start(t) + at.value >= |t.all| then t
        else ClaimAt(t, Start(t) + at.value, node, ttl, now, token)
    case Complete(node, id, token) =>
      if CompletionError(Live(s), node, id, token).Some? then s
      else
        var j := Start(s) + ById(Live(s), id).value;
        if j >= |s.all| then s else CompleteAt(s, j, node, token)
  }

  function Run(actions: seq<Action>): Flow {
    if actions == [] then EMPTY else Next(Run(actions[..|actions| - 1]), actions[|actions| - 1])
  }

  // ---------------------------------------------- the window is the store's queue

  lemma {:induction false} ReleaseUpToList(s: Flow, run: string, now: int, n: nat)
    requires Start(s) <= n <= |s.all|
    ensures var t := ReleaseUpTo(s, run, now, n);
            forall i :: 0 <= i < |s.all| ==>
              t.all[i] == if Start(s) <= i < n then ReleaseOne(s.all[i], run, now) else s.all[i]
    decreases n
  {
    hide ReleaseOne, ExpiredClaim;
    if n == Start(s) {
    } else {
      ReleaseUpToList(s, run, now, n - 1);
      UnexpiredStays(s.all[n - 1], run, now);
    }
  }

  lemma UnexpiredStays(p: Part, run: string, now: int)
    ensures !ExpiredClaim(p, run, now) ==> ReleaseOne(p, run, now) == p
  {}

  lemma ReleaseOnHistory(s: Flow, run: string, now: int)
    ensures Live(ReleaseStep(s, run, now)) == ReleaseAll(Live(s), run, now)
  {
    hide ReleaseOne;
    ReleaseUpToList(s, run, now, |s.all|);
  }

  /** Each action on the history acts on the retained queue as the store's operation does. */
  lemma ClaimOnHistory(s: Flow, node: M.Node, run: string, ttl: int, now: int, token: nat)
    requires Fresh(s.log, token)
    ensures Live(Next(s, Claim(node, run, ttl, now, token))) == ClaimNext(Live(s), node, run, ttl, now, token)
  {
    hide ClaimOne, ReleaseOne, ReleaseAll, ReleaseStep;
    ReleaseOnHistory(s, run, now);
  }

  lemma CompleteOnHistory(s: Flow, node: M.Node, id: nat, token: nat)
    requires CompletionError(Live(s), node, id, token).None?
    ensures var q := Queue(Live(s), |s.all|);
            var t := Next(s, Complete(node, id, token));
            Live(t) == CompleteStep(q, node, id, token).parts && |t.all| == CompleteStep(q, node, id, token).issued
  {
    hide Downstream, CompleteOne, CompletionError, Rewrite, LastN, Base, ById, CompleteStep, Next;
    CompletionFindsPart(Live(s), node, id, token);
    var at := ById(Live(s), id).value;
    var p := Live(s)[at];
    var child := Downstream(p, node, |s.all| + 1);
    RewriteAt(s.all, RETAINED_PARTS, at, CompleteOne(p), child);
    CompletedHistory(s, node, id, token);
    CompleteStepTrims(Queue(Live(s), |s.all|), node, id, token);
  }

  lemma CompletedHistory(s: Flow, node: M.Node, id: nat, token: nat)
    requires CompletionError(Live(s), node, id, token).None?
    ensures ById(Live(s), id).Some? && Start(s) + ById(Live(s), id).value < |s.all|
    ensures Next(s, Complete(node, id, token)) == CompleteAt(s, Start(s) + ById(Live(s), id).value, node, token)
  {}

  lemma CompleteStepTrims(q: Queue, node: M.Node, id: nat, token: nat)
    requires CompletionError(q.parts, node, id, token).None? && |q.parts| <= RETAINED_PARTS
    ensures ById(q.parts, id).Some?
    ensures var at := ById(q.parts, id).value;
            var child := Downstream(q.parts[at], node, q.issued + 1);
            && CompleteStep(q, node, id, token).parts == LastN(q.parts[at := CompleteOne(q.parts[at])] + child, RETAINED_PARTS)
            && CompleteStep(q, node, id, token).issued == q.issued + |child|
  {
    hide Downstream, CompleteOne, CompletionError, ById;
    CompletionFindsPart(q.parts, node, id, token);
    DownstreamIsShort(q.parts[ById(q.parts, id).value], node, q.issued + 1);
  }

  lemma CompletionFindsPart(q: seq<Part>, node: M.Node, id: nat, token: nat)
    requires CompletionError(q, node, id, token).None?
    ensures ById(q, id).Some?
    ensures var p := q[ById(q, id).value];
            p.id == id && p.target == node && p.status.Claimed? && p.token == token && token != 0
  {}

  lemma DownstreamIsShort(p: Part, node: M.Node, id: nat)
    ensures |Downstream(p, node, id)| <= 1
  {}

  lemma CreateOnHistory(s: Flow, run: string, order: string, product: Product)
    ensures var q := Queue(Live(s), |s.all|);
            var t := Next(s, CreatePart(run, order, product));
            Queue(Live(t), |t.all|) == CreateRoot(q, run, order, product)
  {}

  // ------------------------------------------------------------- shape of the parts

  /** Steps of the route from the part's own step to the end; 0 when it is off the route. */
  function Remaining(p: Part): nat {
    var at := PlaceInRoute(p.product, p.step);
    if at.None? then 0 else |Route(p.product)| - at.value
  }

  predicate AtStation(p: Part) {
    (p.step == MillingOp && p.target == M.Milling) || (p.step == GrindingOp && p.target == M.Grinding)
  }

  lemma RoutesAreSimple(p: Product)
    ensures forall i, j :: 0 <= i < j < |Route(p)| ==> Route(p)[i] != Route(p)[j]
    ensures DrillingOp !in Route(p)
    ensures 2 <= |Route(p)| <= 3
  {}

  lemma {:induction false} TakeOverIsAhead(rest: seq<Operation>, completedBy: M.Node)
    requires DrillingOp !in rest && TakeOver(rest, completedBy).Some?
    ensures var step := TakeOver(rest, completedBy).value;
            && step.0 in rest
            && ((step.0 == MillingOp && step.1 == M.Milling) || (step.0 == GrindingOp && step.1 == M.Grinding))
  {
    var workshop := WorkshopOf(rest[0]);
    if !(workshop == Some(GrindingOp)) && !(workshop == Some(MillingOp) && completedBy != M.Milling) {
      TakeOverIsAhead(rest[1..], completedBy);
    }
  }

  /** The route ahead strictly shrinks from a part to the part generated from it. */
  lemma DownstreamShrinks(p: Part, node: M.Node, id: nat)
    requires Downstream(p, node, id) != []
    ensures var d := Downstream(p, node, id)[0];
            && Remaining(d) < Remaining(p) && Remaining(d) >= 1
            && AtStation(d) && d.status.Ready? && d.parent == p.id && d.id == id
            && d.product == p.product && d.run == p.run && d.events == p.events + 2
    ensures |Downstream(p, node, id)| == 1
  {
    hide NextStep, NextOperation, PlaceInRoute, Route;
    NextStepIsAhead(p, node);
    var step := NextStep(p, node).value.0;
    assert Remaining(Downstream(p, node, id)[0]) == |Route(p.product)| - PlaceInRoute(p.product, step).value;
  }

  lemma NextStepIsAhead(p: Part, node: M.Node)
    requires NextStep(p, node).Some?
    ensures var step := NextStep(p, node).value;
            && PlaceInRoute(p.product, p.step).Some? && PlaceInRoute(p.product, step.0).Some?
            && PlaceInRoute(p.product, p.step).value < PlaceInRoute(p.product, step.0).value < |Route(p.product)|
            && ((step.0 == MillingOp && step.1 == M.Milling) || (step.0 == GrindingOp && step.1 == M.Grinding))
  {
    hide Route;
    var route := Route(p.product);
    var at := PlaceInRoute(p.product, p.step).value;
    var rest := route[at + 1..];
    RoutesAreSimple(p.product);
    TakeOverIsAhead(rest, node);
    var step := TakeOver(rest, node).value.0;
    var k :| 0 <= k < |rest| && rest[k] == step;
    assert route[at + 1 + k] == step;
    var place := PlaceInRoute(p.product, step).value;
    assert place == at + 1 + k;
  }

  /** No route goes on after grinding. */
  lemma GrindingIsLast(p: Part)
    ensures p.step == GrindingOp ==> NextStep(p, M.Grinding).None?
  {}

  // ------------------------------------------------------------------- lineages

  predicate ParentOk(all: seq<Part>, i: nat)
    requires i < |all|
  {
    var p := all[i];
    && p.parent <= i
    && (p.parent > 0 ==>
          var q := all[p.parent - 1];
          && q.status.Completed? && q.product == p.product && q.run == p.run
          && 1 <= Remaining(p) < Remaining(q) && q.events < p.events)
  }

  predicate Lineage(all: seq<Part>) {
    && (forall i :: 0 <= i < |all| ==> all[i].id == i + 1 && AtStation(all[i]) && ParentOk(all, i))
    && (forall i, j :: 0 <= i < |all| && 0 <= j < |all| && all[i].parent == all[j].parent > 0 ==> i == j)
  }

  // -------------------------------------------------------------------- the log

  /** Index of the last event of a part. */
  function LastOn(log: seq<Event>, part: nat): (r: Option<nat>)
    ensures r.Some? ==> && r.value < |log| && log[r.value].part == part
                        && forall k :: r.value < k < |log| ==> log[k].part != part
    ensures r.None? ==> forall k :: 0 <= k < |log| ==> log[k].part != part
  {
    if log == [] then None
    else if log[|log| - 1].part == part then Some(|log| - 1)
    else LastOn(log[..|log| - 1], part)
  }

  function Least(a: int, b: int): int { if a <= b then a else b }

  function Greatest(a: int, b: int): int { if a >= b then a else b }

  /** When a claim runs out: 1 to 3600 seconds after it was made, 30 unless asked otherwise. */
  function Deadline(e: Event): int
    requires e.ClaimEvent?
  {
    var asked := if e.ttlSeconds == 0 then 30 else e.ttlSeconds;
    e.at + Greatest(1, Least(asked, 3600)) * M.TICKS_PER_SECOND
  }

  /** The part is claimed by the workshop it waits for, under the event's token and deadline. */
  predicate ClaimedBy(p: Part, e: Event) {
    && e.ClaimEvent? && p.token == e.token && p.expiresAt == Some(Deadline(e))
    && p.claimedBy == Some(p.target)
  }

  /** A part's status is what its last event left. */
  predicate StatusFromLog(p: Part, log: seq<Event>) {
    var last := LastOn(log, p.id);
    match p.status
    case Ready =>
      p.token == 0 && p.claimedBy.None? && p.expiresAt.None? && (last.Some? ==> log[last.value].ReleaseEvent?)
    case Claimed => last.Some? && ClaimedBy(p, log[last.value])
    case Completed => p.accepted && last.Some? && log[last.value].CompleteEvent?
  }

  predicate TokensOnce(log: seq<Event>) {
    && (forall i :: 0 <= i < |log| && log[i].ClaimEvent? ==> log[i].token != 0)
    && (forall i, j :: 0 <= i < j < |log| && log[i].ClaimEvent? && log[j].ClaimEvent? ==> log[i].token != log[j].token)
  }

  /** The event before a completion, on that part, is the claim that handed out its token. */
  predicate CompletionsFenced(log: seq<Event>) {
    forall k :: 0 <= k < |log| && log[k].CompleteEvent? ==>
      var last := LastOn(log[..k], log[k].part);
      last.Some? && log[last.value].ClaimEvent? && log[last.value].token == log[k].token
  }

  predicate CompletionIsFinal(log: seq<Event>) {
    forall i, j :: 0 <= i < j < |log| && log[i].CompleteEvent? ==> log[j].part != log[i].part
  }

  predicate LogOk(all: seq<Part>, log: seq<Event>) {
    && (forall i :: 0 <= i < |all| ==> StatusFromLog(all[i], log))
    && (forall k :: 0 <= k < |log| ==> 1 <= log[k].part <= |all|)
    && TokensOnce(log) && CompletionsFenced(log) && CompletionIsFinal(log)
  }

  // ---------------------------------------------------------------- conservation

  predicate Selected(p: Part, run: string, products: set<Product>) { InRun(p, run) && p.product in products }

  /** Completed, with no workshop left on its route. */
  predicate Finished(p: Part) { p.status.Completed? && NextStep(p, p.target).None? }

  function Roots(run: string, products: set<Product>): Part -> bool {
    (p: Part) => Selected(p, run, products) && p.parent == 0
  }

  function Active(run: string, products: set<Product>): Part -> bool {
    (p: Part) => Selected(p, run, products) && !p.status.Completed?
  }

  function Ended(run: string, products: set<Product>): Part -> bool {
    (p: Part) => Selected(p, run, products) && Finished(p)
  }

  /** Every root is still somewhere as one active part or has ended as one finished part. */
  predicate Conserved(all: seq<Part>, run: string, products: set<Product>) {
    Count(all, Roots(run, products)) == Count(all, Active(run, products)) + Count(all, Ended(run, products))
  }

  predicate Inv(s: Flow) { Lineage(s.all) && LogOk(s.all, s.log) }
}
