/** Output of a workshop: the discrete-event simulation of staggered machines against the
    closed-form count. Event times are integers in units of 1/count seconds, so machine i
    first fires at cycle*(i+1) and then every cycle*count. */
module Machines {
  datatype Profile = Profile(count: nat, cycle: nat) {
    predicate Valid() { count > 0 && cycle > 0 }
  }

  lemma Monotone(x: int, y: int, c: int)
    requires 0 < c
    ensures x <= y ==> x * c <= y * c
    ensures x < y ==> x * c < y * c && c * x < c * y
  {}

  /** machine_state: elapsed seconds times machines, divided by the cycle, rounded down. */
  function ClosedForm(p: Profile, elapsed: nat): nat
    requires p.Valid()
  {
    elapsed * p.count / p.cycle
  }

  /** The simulation runs until 0.0001 s past the elapsed time, here in units of 1/10000 of a
      time unit; an event exactly at the limit is not processed. */
  function Limit(p: Profile, elapsed: nat): nat { 10000 * (elapsed * p.count) + p.count }

  predicate BeforeLimit(p: Profile, elapsed: nat, time: int) { 10000 * time < Limit(p, elapsed) }

  function Quotient(x: nat, y: nat): nat
    requires 0 < y
  {
    x / y
  }

  /** Number of events strictly before the limit when they come at cycle, 2*cycle, 3*cycle, ... */
  function EventCount(p: Profile, elapsed: nat): nat
    requires p.Valid()
  {
    if elapsed == 0 then 0 else Quotient(Limit(p, elapsed) - 1, 10000 * p.cycle)
  }

  lemma DivisionUnique(x: int, y: int, q: int)
    requires 0 < y && q * y <= x < q * y + y
    ensures x / y == q
  {
    var d := x / y;
    assert x == d * y + x % y;
    assert (d + 1) * y == d * y + y && (q + 1) * y == q * y + y;
    Monotone(d + 1, q, y);
    Monotone(q + 1, d, y);
  }

  /** Event number m + 1 is past the limit and event m is not: then m events happen. */
  lemma CountFromBoundary(p: Profile, elapsed: nat, m: nat)
    requires p.Valid() && elapsed > 0
    requires m == 0 || BeforeLimit(p, elapsed, p.cycle * m)
    requires !BeforeLimit(p, elapsed, p.cycle * (m + 1))
    ensures EventCount(p, elapsed) == m
  {
    var x := Limit(p, elapsed) - 1;
    var y := 10000 * p.cycle;
    assert 10000 * (p.cycle * m) == m * y;
    assert 10000 * (p.cycle * (m + 1)) == m * y + y;
    DivisionUnique(x, y, m);
  }

  /** Next firing time of machine i after m = rounds*count + turn events. */
  function NextFiring(p: Profile, rounds: nat, turn: nat, i: nat): int {
    p.cycle * (i + 1 + p.count * (if i < turn then rounds + 1 else rounds))
  }

  /** The machine whose turn it is fires strictly before every other one. */
  lemma TurnIsEarliest(p: Profile, rounds: nat, turn: nat, i: nat)
    requires p.Valid() && turn < p.count && i < p.count && i != turn
    ensures NextFiring(p, rounds, turn, turn) < NextFiring(p, rounds, turn, i)
  {
    var mine := turn + 1 + p.count * rounds;
    var other := i + 1 + p.count * (if i < turn then rounds + 1 else rounds);
    assert p.count * (rounds + 1) == p.count * rounds + p.count;
    Monotone(mine, other, p.cycle);
  }

  /** simpy_machine_state: one process per machine on a shared event queue; the earliest event
      is processed, and its machine schedules its next one a cycle later. */
  method Simulate(p: Profile, elapsed: nat) returns (finished: nat)
    requires p.Valid()
    ensures finished == EventCount(p, elapsed)
  {
    finished := 0;
    if elapsed == 0 { return; }
    var limit := Limit(p, elapsed);
    var next := new int[p.count](i => p.cycle * (i + 1));
    ghost var rounds: nat, turn: nat := 0, 0;
    while true
      invariant turn < p.count && finished == rounds * p.count + turn
      invariant forall i :: 0 <= i < p.count ==> next[i] == NextFiring(p, rounds, turn, i)
      invariant finished == 0 || BeforeLimit(p, elapsed, p.cycle * finished)
      decreases Limit(p, elapsed) - 10000 * (p.cycle * finished)
    {
      var first := Earliest(next);
      if first != turn {
        TurnIsEarliest(p, rounds, turn, first);
      }
      assert next[first] == p.cycle * (finished + 1) by {
        assert turn + 1 + p.count * rounds == finished + 1;
      }
      if 10000 * next[first] >= limit {
        CountFromBoundary(p, elapsed, finished);
        return;
      }
      Reschedule(p, rounds, turn);
      assert p.cycle * (finished + 1) == p.cycle * finished + p.cycle;
      finished := finished + 1;
      next[first] := next[first] + p.cycle * p.count;
      if turn + 1 < p.count {
        turn := turn + 1;
      } else {
        rounds, turn := rounds + 1, 0;
      }
    }
  }

  /** After its turn a machine's firing time is one cycle later, and the turn passes on. */
  lemma Reschedule(p: Profile, rounds: nat, turn: nat)
    requires p.Valid() && turn < p.count
    ensures var r, t := if turn + 1 < p.count then rounds else rounds + 1, if turn + 1 < p.count then turn + 1 else 0;
            && r * p.count + t == rounds * p.count + turn + 1
            && forall i: nat :: i < p.count ==>
                 NextFiring(p, r, t, i)
                 == NextFiring(p, rounds, turn, i) + (if i == turn then p.cycle * p.count else 0)
  {}

  method Earliest(a: array<int>) returns (best: nat)
    requires a.Length > 0
    ensures best < a.Length && forall i :: 0 <= i < a.Length ==> a[best] <= a[i]
  {
    best := 0;
    for i := 1 to a.Length
      invariant best < a.Length && forall j :: 0 <= j < i ==> a[best] <= a[j]
    {
      if a[i] < a[best] { best := i; }
    }
  }

  /** The two engines agree exactly when no event falls into the 0.0001 s beyond the elapsed
      time, that is when count <= 10000*(cycle - elapsed*count mod cycle). */
  lemma EnginesAgreeIff(p: Profile, elapsed: nat)
    requires p.Valid()
    ensures EventCount(p, elapsed) == ClosedForm(p, elapsed)
            <==> elapsed == 0 || p.count <= 10000 * (p.cycle - elapsed * p.count % p.cycle)
  {
    if elapsed == 0 {
      assert elapsed * p.count == 0;
    } else {
      var total := elapsed * p.count;
      var q, r := total / p.cycle, total % p.cycle;
      var y := 10000 * p.cycle;
      var x := Limit(p, elapsed) - 1;
      assert total == q * p.cycle + r;
      assert 10000 * (q * p.cycle) == q * y;
      assert x == q * y + 10000 * r + p.count - 1;
      if p.count <= 10000 * (p.cycle - r) {
        DivisionUnique(x, y, q);
      } else {
        var d := x / y;
        assert x == d * y + x % y;
        Monotone(d, q, y);
      }
    }
  }

  /** For every workshop of up to 10000 machines the simulated count is the closed form, at
      every moment: staggering the machines hides no part and invents none. */
  lemma EnginesAgree(p: Profile, elapsed: nat)
    requires p.Valid() && p.count <= 10000
    ensures EventCount(p, elapsed) == ClosedForm(p, elapsed)
  {
    EnginesAgreeIff(p, elapsed);
    assert elapsed * p.count % p.cycle < p.cycle;
  }

  // ------------------------------------------------------------ Hermite's identity

  /** Whether the event scheduled at place j of the combined sequence lies within the elapsed
      time. Machine i owns the places i+1, i+1+count, i+1+2*count, ... */
  predicate HasFired(p: Profile, elapsed: nat, j: nat) { p.cycle * j <= elapsed * p.count }

  lemma FiredIff(p: Profile, elapsed: nat, j: nat)
    requires p.Valid()
    ensures HasFired(p, elapsed, j) <==> j <= ClosedForm(p, elapsed)
  {
    var total := ClosedForm(p, elapsed);
    assert elapsed * p.count == total * p.cycle + elapsed * p.count % p.cycle;
    assert (total + 1) * p.cycle == total * p.cycle + p.cycle;
    Monotone(j, total, p.cycle);
    Monotone(total + 1, j, p.cycle);
  }

  /** How often one machine fires from its place j on: fire, wait a cycle, repeat. */
  function Firings(p: Profile, elapsed: nat, j: nat): nat
    requires p.Valid()
    decreases ClosedForm(p, elapsed) + 1 - j
  {
    FiredIff(p, elapsed, j);
    if HasFired(p, elapsed, j) then 1 + Firings(p, elapsed, j + p.count) else 0
  }

  function FiringsOfFirst(p: Profile, elapsed: nat, machines: nat): nat
    requires p.Valid() && machines <= p.count
  {
    if machines == 0 then 0 else FiringsOfFirst(p, elapsed, machines - 1) + Firings(p, elapsed, machines)
  }

  /** A machine at place j fires once per whole round that still fits. */
  lemma {:induction false} FiringsFromPlace(p: Profile, elapsed: nat, j: nat, left: nat, rest: nat)
    requires p.Valid() && rest < p.count
    requires ClosedForm(p, elapsed) + p.count == j + left * p.count + rest
    ensures Firings(p, elapsed, j) == left
    decreases left
  {
    hide HasFired, ClosedForm;
    FiredIff(p, elapsed, j);
    if left == 0 {
    } else {
      assert left * p.count == (left - 1) * p.count + p.count;
      assert 0 <= (left - 1) * p.count;
      FiringsFromPlace(p, elapsed, j + p.count, left - 1, rest);
    }
  }

  /** With the closed form equal to rounds*count + turn, machine i fires once per round, and
      once more if its place is within the turn. */
  lemma FiringsByRound(p: Profile, elapsed: nat, rounds: nat, turn: nat, i: nat)
    requires p.Valid() && turn < p.count && i < p.count
    requires ClosedForm(p, elapsed) == rounds * p.count + turn
    ensures Firings(p, elapsed, i + 1) == rounds + (if i < turn then 1 else 0)
  {
    hide ClosedForm, Firings;
    if i < turn {
      assert (rounds + 1) * p.count == rounds * p.count + p.count;
      FiringsFromPlace(p, elapsed, i + 1, rounds + 1, turn - i - 1);
    } else {
      FiringsFromPlace(p, elapsed, i + 1, rounds, p.count + turn - i - 1);
    }
  }

  lemma {:induction false} FirstByRound(p: Profile, elapsed: nat, rounds: nat, turn: nat, machines: nat)
    requires p.Valid() && turn < p.count && machines <= p.count
    requires ClosedForm(p, elapsed) == rounds * p.count + turn
    ensures FiringsOfFirst(p, elapsed, machines)
            == machines * rounds + (if machines < turn then machines else turn)
  {
    if machines == 0 {
    } else {
      FirstByRound(p, elapsed, rounds, turn, machines - 1);
      FiringsByRound(p, elapsed, rounds, turn, machines - 1);
      assert machines * rounds == (machines - 1) * rounds + rounds;
    }
  }

  /** Hermite's identity on the shop floor: the firings of n machines staggered by cycle/n add
      up to the single floor of the combined rate, at every elapsed time. */
  lemma HermiteIdentity(p: Profile, elapsed: nat)
    requires p.Valid()
    ensures FiringsOfFirst(p, elapsed, p.count) == ClosedForm(p, elapsed)
  {
    var total := ClosedForm(p, elapsed);
    var rounds, turn := total / p.count, total % p.count;
    assert total == rounds * p.count + turn;
    FirstByRound(p, elapsed, rounds, turn, p.count);
  }
}
