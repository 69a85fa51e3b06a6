/** The part queue between workshops: ready parts, claims with token and expiry, completion and
    downstream generation along a product's route. Operations are specified on the retained
    list and implemented by `PartStore`, which updates it in place. */
module PartQueue {
  import opened Basics
  import opened Retention
  import M = Models

  const RETAINED_PARTS: nat := 500

  datatype Operation = TurningOp | MillingOp | GrindingOp | DrillingOp | InspectionOp

  /** Canonical catalogue entries; the aliases A1-A5 denote P1-P5. */
  datatype Product = P1 | P2 | P3 | P4 | P5 | Uncatalogued

  function Route(p: Product): seq<Operation> {
    match p
    case P1 => [TurningOp, GrindingOp]
    case P2 => [TurningOp, MillingOp]
    case P3 => [TurningOp, MillingOp, GrindingOp]
    case P4 => [TurningOp, GrindingOp]
    case P5 => [MillingOp, GrindingOp]
    case Uncatalogued => [TurningOp, InspectionOp]
  }

  /** The workshop type that prefers a step. */
  function WorkshopOf(op: Operation): Option<Operation> {
    match op
    case DrillingOp => Some(MillingOp)
    case InspectionOp => None
    case _ => Some(op)
  }

  datatype PartStatus = Ready | Claimed | Completed

  /** `id` is the number in the part id; parent 0 means a root. Token 0 is the empty token. */
  datatype Part = Part(
    id: nat,
    run: string,
    parent: nat,
    order: string,
    product: Product,
    step: Operation,
    next: Option<Operation>,
    source: M.Node,
    target: M.Node,
    status: PartStatus,
    claimedBy: Option<M.Node>,
    token: nat,
    expiresAt: Option<int>,
    accepted: bool,
    events: nat)

  function PlaceInRoute(p: Product, op: Operation): (r: Option<nat>)
    ensures r.Some? ==> r.value < |Route(p)| && Route(p)[r.value] == op
    ensures r.None? ==> op !in Route(p)
  {
    First(Route(p), (o: Operation) => o == op)
  }

  function NextOperation(p: Product, op: Operation): Option<Operation> {
    var at := PlaceInRoute(p, op);
    if at.Some? && at.value + 1 < |Route(p)| then Some(Route(p)[at.value + 1]) else None
  }

  predicate InRun(p: Part, run: string) { run == "" || p.run == run }

  // ------------------------------------------------------------------ creation

  function NewPart(id: nat, run: string, parent: nat, order: string, product: Product, step: Operation,
                   source: M.Node, target: M.Node, events: nat): Part {
    Part(id, run, parent, order, product, step, NextOperation(product, step), source, target,
         Ready, None, 0, None, false, events)
  }

  /** A part as the turning heartbeat creates it: ready for milling. */
  function RootPart(id: nat, run: string, order: string, product: Product): Part {
    NewPart(id, run, 0, order, product, MillingOp, M.Turning, M.Milling, 1)
  }

  // ------------------------------------------------------------ release and claim

  predicate ExpiredClaim(p: Part, run: string, now: int) {
    p.status.Claimed? && InRun(p, run) && p.expiresAt.Some? && p.expiresAt.value <= now
  }

  function ReleaseOne(p: Part, run: string, now: int): Part {
    if ExpiredClaim(p, run, now)
    then p.(status := Ready, claimedBy := None, token := 0, expiresAt := None, events := p.events + 1) else p
  }

  function ReleaseAll(q: seq<Part>, run: string, now: int): seq<Part> {
    seq(|q|, i requires 0 <= i < |q| => ReleaseOne(q[i], run, now))
  }

  predicate ReadyFor(p: Part, node: M.Node, run: string) { p.target == node && p.status.Ready? && InRun(p, run) }

  function NextReady(q: seq<Part>, node: M.Node, run: string): (r: Option<nat>)
    ensures r.Some? ==> r.value < |q| && ReadyFor(q[r.value], node, run)
                        && forall j :: 0 <= j < r.value ==> !ReadyFor(q[j], node, run)
    ensures r.None? ==> forall j :: 0 <= j < |q| ==> !ReadyFor(q[j], node, run)
  {
    First(q, (p: Part) => ReadyFor(p, node, run))
  }

  /** max(1, min(int(ttl or 30), 3600)) seconds. */
  function ClaimTtl(ttlSeconds: int): int {
    var ttl := if ttlSeconds == 0 then 30 else ttlSeconds;
    if ttl > 3600 then 3600 else if ttl < 1 then 1 else ttl
  }

  function ClaimOne(p: Part, node: M.Node, token: nat, ttlSeconds: int, now: int): Part {
    p.(status := Claimed, claimedBy := Some(node), token := token, events := p.events + 1,
       expiresAt := Some(now + ClaimTtl(ttlSeconds) * M.TICKS_PER_SECOND))
  }

  function ClaimNext(q: seq<Part>, node: M.Node, run: string, ttlSeconds: int, now: int, token: nat): seq<Part> {
    var released := ReleaseAll(q, run, now);
    var at := NextReady(released, node, run);
    if at.None? then released
    else released[at.value := ClaimOne(released[at.value], node, token, ttlSeconds, now)]
  }

  // ---------------------------------------------------------------- completion

  datatype PartError = PartNotFound | AssignedElsewhere | PartNotClaimed | InvalidToken

  function CompleteOne(p: Part): Part {
    p.(status := Completed, accepted := true, events := p.events + 1, expiresAt := None)
  }

  /** First step of `rest` that a queue workshop can take over. */
  function TakeOver(rest: seq<Operation>, completedBy: M.Node): Option<(Operation, M.Node)> {
    if rest == [] then None
    else
      var workshop := WorkshopOf(rest[0]);
      if workshop == Some(GrindingOp) then Some((GrindingOp, M.Grinding))
      else if workshop == Some(MillingOp) && completedBy != M.Milling then Some((MillingOp, M.Milling))
      else TakeOver(rest[1..], completedBy)
  }

  function NextStep(p: Part, completedBy: M.Node): Option<(Operation, M.Node)> {
    var at := PlaceInRoute(p.product, p.step);
    if at.None? then None else TakeOver(Route(p.product)[at.value + 1..], completedBy)
  }

  /** The part generated for the next workshop, if the route goes on. */
  function Downstream(p: Part, node: M.Node, id: nat): seq<Part> {
    var step := NextStep(p, node);
    if step.None? then []
    else [NewPart(id, p.run, p.id, p.order, p.product, step.value.0, node, step.value.1, CompleteOne(p).events + 1)]
  }

  function ById(q: seq<Part>, id: nat): (r: Option<nat>)
    ensures r.Some? ==> r.value < |q| && q[r.value].id == id
    ensures r.None? ==> forall j :: 0 <= j < |q| ==> q[j].id != id
  {
    First(q, (p: Part) => p.id == id)
  }

  function CompletionError(q: seq<Part>, node: M.Node, id: nat, token: nat): Option<PartError> {
    var at := ById(q, id);
    if at.None? then Some(PartNotFound)
    else if q[at.value].target != node then Some(AssignedElsewhere)
    else if !q[at.value].status.Claimed? then Some(PartNotClaimed)
    else if token == 0 || q[at.value].token != token then Some(InvalidToken)
    else None
  }

  /** The list after a completion, before the retention cut. */
  function CompletedList(q: seq<Part>, nextId: nat, node: M.Node, id: nat, token: nat): seq<Part>
    requires CompletionError(q, node, id, token).None?
  {
    var at := ById(q, id).value;
    q[at := CompleteOne(q[at])] + Downstream(q[at], node, nextId)
  }

  // -------------------------------------------------------- heartbeat-driven flow

  const MAX_ADVANCE: nat := 20

  /** New output reported since the watermark; the first report only sets the watermark. */
  function ReportedDelta(previous: Option<int>, finished: int): nat {
    if previous.None? || finished <= previous.value then 0
    else if finished - previous.value > MAX_ADVANCE then MAX_ADVANCE
    else finished - previous.value
  }

  datatype Queue = Queue(parts: seq<Part>, issued: nat)

  function CreateRoot(s: Queue, run: string, order: string, product: Product): Queue {
    Queue(LastN(s.parts + [RootPart(s.issued + 1, run, order, product)], RETAINED_PARTS), s.issued + 1)
  }

  function CreateRoots(s: Queue, run: string, order: string, product: Product, n: nat): Queue {
    if n == 0 then s else CreateRoot(CreateRoots(s, run, order, product, n - 1), run, order, product)
  }

  function CompleteStep(s: Queue, node: M.Node, id: nat, token: nat): Queue
    requires CompletionError(s.parts, node, id, token).None?
  {
    var list := CompletedList(s.parts, s.issued + 1, node, id, token);
    if |list| == |s.parts| then s.(parts := list) else Queue(LastN(list, RETAINED_PARTS), s.issued + 1)
  }

  /** Claims and completes ready parts one after the other, up to n of them; each claim takes
      the next token. Returns the queue and how many were completed. */
  function Drain(s: Queue, node: M.Node, run: string, now: int, tokens: seq<nat>, n: nat): (Queue, nat)
    requires n <= |tokens|
    decreases n
  {
    var claimed := s.(parts := if n == 0 then s.parts else ClaimNext(s.parts, node, run, 30, now, tokens[0]));
    if n == 0 then (s, 0)
    else
      var at := NextReady(ReleaseAll(s.parts, run, now), node, run);
      if at.None? then (claimed, 0)
      else
        var id := claimed.parts[at.value].id;
        if CompletionError(claimed.parts, node, id, tokens[0]).Some? then (claimed, 0)
        else
          var rest := Drain(CompleteStep(claimed, node, id, tokens[0]), node, run, now, tokens[1..], n - 1);
          (rest.0, rest.1 + 1)
  }

  /** One round of the drain, on the tokens from k on. */
  lemma DrainStep(s: Queue, node: M.Node, run: string, now: int, tokens: seq<nat>, k: nat, n: nat)
    requires k < n <= |tokens|
    ensures var claimed := s.(parts := ClaimNext(s.parts, node, run, 30, now, tokens[k]));
            var at := NextReady(ReleaseAll(s.parts, run, now), node, run);
            var whole := Drain(s, node, run, now, tokens[k..], n - k);
            if at.None? then whole == (claimed, 0)
            else
              && at.value < |claimed.parts|
              && var id := claimed.parts[at.value].id;
                 if CompletionError(claimed.parts, node, id, tokens[k]).Some? then whole == (claimed, 0)
                 else
                   var rest := Drain(CompleteStep(claimed, node, id, tokens[k]), node, run, now, tokens[k + 1..], n - k - 1);
                   whole == (rest.0, rest.1 + 1)
  {
    hide CompleteStep, CompletionError, ReleaseOne, ClaimOne;
    assert tokens[k..][0] == tokens[k] && tokens[k..][1..] == tokens[k + 1..];
  }

  lemma DrainNothing(s: Queue, node: M.Node, run: string, now: int, tokens: seq<nat>)
    ensures Drain(s, node, run, now, tokens, 0) == (s, 0)
  {}

  // ------------------------------------------------------------- implementation

  class PartStore {
    var parts: seq<Part>
    var issued: nat
    var watermark: map<(M.Node, string), int>

    function State(): Queue
      reads this
    {
      Queue(parts, issued)
    }

    constructor ()
      ensures State() == Queue([], 0) && watermark == map[]
    {
      parts, issued, watermark := [], 0, map[];
    }

    method CreateReadyPart(run: string, order: string, product: Product) returns (part: Part)
      modifies this`parts, this`issued
      ensures State() == CreateRoot(old(State()), run, order, product)
      ensures part == RootPart(issued, run, order, product)
    {
      hide RootPart;
      issued := issued + 1;
      part := RootPart(issued, run, order, product);
      parts := parts + [part];
      if |parts| > RETAINED_PARTS { parts := parts[|parts| - RETAINED_PARTS..]; }
    }

    method ReleaseExpiredClaims(run: string, now: int) returns (released: nat)
      modifies this`parts
      ensures parts == ReleaseAll(old(parts), run, now)
      ensures released == Count(old(parts), (p: Part) => ExpiredClaim(p, run, now))
    {
      released := 0;
      ghost var expired := (p: Part) => ExpiredClaim(p, run, now);
      for i := 0 to |parts|
        invariant |parts| == |old(parts)|
        invariant forall j :: 0 <= j < i ==> parts[j] == ReleaseOne(old(parts)[j], run, now)
        invariant forall j :: i <= j < |parts| ==> parts[j] == old(parts)[j]
        invariant released == Count(old(parts)[..i], expired)
      {
        var p := parts[i];
        assert old(parts)[..i + 1] == old(parts)[..i] + [p];
        CountAppend(old(parts)[..i], [p], expired);
        if ExpiredClaim(p, run, now) {
          parts := parts[i := p.(status := Ready, claimedBy := None, token := 0, expiresAt := None, events := p.events + 1)];
          released := released + 1;
        }
      }
      assert old(parts)[..|parts|] == old(parts);
    }

    method ClaimNextPart(node: M.Node, run: string, ttlSeconds: int, now: int, token: nat) returns (claimed: Option<nat>)
      modifies this`parts
      ensures parts == ClaimNext(old(parts), node, run, ttlSeconds, now, token)
      ensures claimed == NextReady(ReleaseAll(old(parts), run, now), node, run)
      ensures claimed.Some? ==> claimed.value < |parts|
    {
      var _ := ReleaseExpiredClaims(run, now);
      for i := 0 to |parts|
        invariant parts == ReleaseAll(old(parts), run, now)
        invariant forall j :: 0 <= j < i ==> !ReadyFor(parts[j], node, run)
      {
        var p := parts[i];
        if ReadyFor(p, node, run) {
          p := p.(status := Claimed, claimedBy := Some(node), token := token, events := p.events + 1,
                  expiresAt := Some(now + ClaimTtl(ttlSeconds) * M.TICKS_PER_SECOND));
          parts := parts[i := p];
          return Some(i);
        }
      }
      return None;
    }

    method CompleteClaimedPart(node: M.Node, id: nat, token: nat) returns (error: Option<PartError>)
      modifies this`parts, this`issued
      ensures error == CompletionError(old(parts), node, id, token)
      ensures State() == if error.Some? then old(State()) else CompleteStep(old(State()), node, id, token)
    {
      hide NextStep, NewPart;
      var at := Find(id);
      if at.None? { return Some(PartNotFound); }
      var p := parts[at.value];
      if p.target != node { return Some(AssignedElsewhere); }
      if p.status != Claimed { return Some(PartNotClaimed); }
      if token == 0 || p.token != token { return Some(InvalidToken); }
      var done := p.(status := Completed, accepted := true, events := p.events + 1, expiresAt := None);
      var list := parts[at.value := done];
      var step := NextStep(p, node);
      if step.Some? {
        list := list + [NewPart(issued + 1, p.run, p.id, p.order, p.product, step.value.0, node, step.value.1, done.events + 1)];
      }
      assert list == CompletedList(parts, issued + 1, node, id, token);
      if step.Some? {
        issued := issued + 1;
        if |list| > RETAINED_PARTS { list := list[|list| - RETAINED_PARTS..]; }
      }
      parts := list;
      return None;
    }

    method Find(id: nat) returns (at: Option<nat>)
      ensures at == ById(parts, id)
    {
      for i := 0 to |parts|
        invariant forall j :: 0 <= j < i ==> parts[j].id != id
      {
        if parts[i].id == id { return Some(i); }
      }
      return None;
    }

    /** _advance_part_flow_from_heartbeat: turning creates parts, milling and grinding consume
        ready ones, as far as the reported counter has moved past its watermark. */
    method AdvanceFromHeartbeat(node: M.Node, nodeRun: string, run: string, finished: int, order: string,
                                product: Product, now: int, tokens: seq<nat>)
      returns (created: nat, completed: nat, limited: bool)
      requires |tokens| >= MAX_ADVANCE
      modifies this
      ensures watermark == old(watermark)[(node, nodeRun) := finished]
      ensures var previous := if (node, nodeRun) in old(watermark) then Some(old(watermark)[(node, nodeRun)]) else None;
              var delta := ReportedDelta(previous, finished);
              match node
              case Turning =>
                && State() == CreateRoots(old(State()), run, order, product, delta)
                && created == delta && completed == 0 && !limited
              case OtherNode(_) => State() == old(State()) && created == 0 && completed == 0 && !limited
              case _ =>
                && (State(), completed) == Drain(old(State()), node, run, now, tokens, delta)
                && created == 0 && limited == (completed < delta)
    {
      var previous := if (node, nodeRun) in watermark then Some(watermark[(node, nodeRun)]) else None;
      watermark := watermark[(node, nodeRun) := finished];
      var delta := ReportedDelta(previous, finished);
      created, completed, limited := 0, 0, false;
      if node == M.Turning {
        for i := 0 to delta
          invariant State() == CreateRoots(old(State()), run, order, product, i)
          invariant watermark == old(watermark)[(node, nodeRun) := finished]
        {
          var _ := CreateReadyPart(run, order, product);
        }
        created := delta;
      } else if node == M.Milling || node == M.Grinding {
        completed := ConsumeReady(node, run, now, tokens, delta);
        limited := completed < delta;
      }
    }

    method ConsumeReady(node: M.Node, run: string, now: int, tokens: seq<nat>, n: nat) returns (completed: nat)
      requires n <= |tokens|
      modifies this`parts, this`issued
      ensures (State(), completed) == Drain(old(State()), node, run, now, tokens, n)
    {
      hide Drain, ClaimNext, CompleteStep, CompletionError, ReleaseAll, NextReady;
      completed := 0;
      assert tokens[0..] == tokens;
      while completed < n
        invariant completed <= n
        invariant var whole := Drain(old(State()), node, run, now, tokens, n);
                  var rest := Drain(State(), node, run, now, tokens[completed..], n - completed);
                  whole == (rest.0, rest.1 + completed)
      {
        DrainStep(State(), node, run, now, tokens, completed, n);
        var at := ClaimNextPart(node, run, 30, now, tokens[completed]);
        if at.None? { return; }
        var error := CompleteClaimedPart(node, parts[at.value].id, tokens[completed]);
        if error.Some? { return; }
        completed := completed + 1;
      }
      DrainNothing(State(), node, run, now, tokens[completed..]);
    }
  }
}
