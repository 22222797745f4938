/**
 * Producers and their carry-over time accumulator (src/continuum/entities.rs).
 *
 * A producer adds the milliseconds of every tick to an accumulator. Once the
 * accumulator strictly exceeds the production period, every whole period in it
 * is paid out as one cycle of the product and only the leftover milliseconds
 * are kept, so no elapsed time is lost between ticks.
 */
module Entities {

  /** A good that producers make; `valuePerUnit` is carried but never read here. */
  datatype ProductType = ProductType(name: string, productionQuantity: real, valuePerUnit: real)

  /** Everything a producer holds, as a value. */
  datatype ProducerState = ProducerState(
    id: string,
    productType: ProductType,
    productionTimeMs: nat,
    timeElapsed: nat)

  /**
   * What one tick does to a producer: the state afterwards and the number of whole
   * cycles drained from the accumulator (the quantity returned is that many cycles'
   * worth of the product, see `ProducerEntity.OnTick`).
   */
  datatype TickOutcome = TickOutcome(next: ProducerState, cycles: nat)

  /** The effect of `on_tick(delta)` on a producer in state `s`. */
  function Tick(s: ProducerState, delta: nat): (r: TickOutcome)
    requires s.productionTimeMs > 0
    // only the accumulator changes
    ensures r.next == s.(timeElapsed := r.next.timeElapsed)
    // no time is lost: drained cycles plus the remainder make up old remainder plus delta
    ensures r.cycles * s.productionTimeMs + r.next.timeElapsed == s.timeElapsed + delta
    // a cycle is paid out exactly when the total strictly exceeds the period
    // (and the quantity is not zero, which the source cannot divide back out)
    ensures r.cycles > 0 <==>
              s.timeElapsed + delta > s.productionTimeMs && s.productType.productionQuantity != 0.0
    ensures r.cycles > 0 ==> r.cycles == (s.timeElapsed + delta) / s.productionTimeMs
    // the accumulator never holds more than one period afterwards, and less when it paid out
    ensures s.productType.productionQuantity != 0.0 ==> r.next.timeElapsed <= s.productionTimeMs
    ensures r.cycles > 0 ==> r.next.timeElapsed < s.productionTimeMs
  {
    var total := s.timeElapsed + delta;
    var p := s.productionTimeMs;
    var q := s.productType.productionQuantity;
    if total > p then
      // the source recovers the drained count as CycleCount(produced, q); RecoverCount
      // shows that, in exact arithmetic, this is the whole number of periods, or 0 for a
      // zero quantity
      var drained := if q == 0.0 then 0 else total / p;
      WholeCycles(total, p);
      TickOutcome(s.(timeElapsed := total - p * drained), drained)
    else
      TickOutcome(s.(timeElapsed := total), 0)
  }

  /**
   * The cycle count recovered from a produced quantity, `(produced / quantity) as u64`,
   * in exact arithmetic: for a zero quantity the produced amount is 0.0 too, and
   * 0.0 / 0.0 is NaN; the cast turns NaN and a negative ratio into 0 and truncates
   * the rest.
   */
  function CycleCount(produced: real, quantity: real): (r: nat)
    ensures quantity == 0.0 ==> r == 0
    ensures quantity != 0.0 && produced / quantity >= 0.0 ==>
              r as real <= produced / quantity < r as real + 1.0
    ensures quantity != 0.0 && produced / quantity < 0.0 ==> r == 0
  {
    if quantity == 0.0 then 0
    else if produced / quantity < 0.0 then 0
    else (produced / quantity).Floor
  }

  /** A total above one period holds at least one whole period and leaves less than one. */
  lemma WholeCycles(total: nat, p: nat)
    requires total > p > 0
    ensures total / p >= 1
    ensures p * (total / p) <= total < p * (total / p) + p
  {
  }

  /**
   * In exact arithmetic, dividing `c` cycles' worth of a quantity back by that
   * quantity gives `c`, or 0 when the quantity is zero.
   */
  lemma RecoverCount(c: nat, q: real, produced: real)
    requires produced == c as real * q
    ensures CycleCount(produced, q) == if q == 0.0 then 0 else c
  {
    if q != 0.0 {
      var ratio := produced / q;
      assert ratio == c as real;
      assert ratio.Floor == c;
    }
  }

  /** The sum of a sequence of tick lengths. */
  function Sum(deltas: seq<nat>): nat
  {
    if deltas == [] then 0 else deltas[0] + Sum(deltas[1..])
  }

  /** The result of a series of ticks: the final state and the total cycles paid out. */
  datatype RunOutcome = RunOutcome(final: ProducerState, cycles: nat)

  /** A producer in state `s` ticked with each of `deltas` in order. */
  function Run(s: ProducerState, deltas: seq<nat>): (r: RunOutcome)
    requires s.productionTimeMs > 0
    ensures r.final == s.(timeElapsed := r.final.timeElapsed)
    decreases |deltas|
  {
    if deltas == [] then RunOutcome(s, 0)
    else
      var t := Tick(s, deltas[0]);
      var rest := Run(t.next, deltas[1..]);
      RunOutcome(rest.final, t.cycles + rest.cycles)
  }

  /** A tick that brings the total exactly to the period pays nothing: the test is a strict `>`. */
  lemma PeriodReachedExactlyPaysNothing(s: ProducerState, delta: nat)
    requires s.productionTimeMs > 0
    requires s.timeElapsed + delta == s.productionTimeMs
    ensures Tick(s, delta).cycles == 0
    ensures Tick(s, delta).next.timeElapsed == s.productionTimeMs
  {
  }

  /** Over any series of ticks: cycles times period plus the final remainder is the initial remainder plus all the time given. */
  lemma {:induction false} RunConservation(s: ProducerState, deltas: seq<nat>)
    requires s.productionTimeMs > 0
    ensures Run(s, deltas).cycles * s.productionTimeMs + Run(s, deltas).final.timeElapsed
            == s.timeElapsed + Sum(deltas)
    decreases |deltas|
  {
    if deltas != [] {
      var t := Tick(s, deltas[0]);
      var rest := Run(t.next, deltas[1..]);
      RunConservation(t.next, deltas[1..]);
      assert Run(s, deltas).cycles == t.cycles + rest.cycles;
      Distribute(t.cycles, rest.cycles, s.productionTimeMs);
    }
  }

  /** Ticking with `a` and then with `b` is ticking with `a + b`. */
  lemma {:induction false} RunSplit(s: ProducerState, a: seq<nat>, b: seq<nat>)
    requires s.productionTimeMs > 0
    ensures var first := Run(s, a);
            var second := Run(first.final, b);
            Run(s, a + b) == RunOutcome(second.final, first.cycles + second.cycles)
    decreases |a|
  {
    if a == [] {
      assert a + b == b;
    } else {
      var t := Tick(s, a[0]);
      assert (a + b)[0] == a[0];
      assert (a + b)[1..] == a[1..] + b;
      RunSplit(t.next, a[1..], b);
    }
  }

  /** After at least one tick with a nonzero quantity, the accumulator holds at most one period. */
  lemma {:induction false} RunBound(s: ProducerState, deltas: seq<nat>)
    requires s.productionTimeMs > 0
    requires s.productType.productionQuantity != 0.0
    requires deltas != [] || s.timeElapsed <= s.productionTimeMs
    ensures Run(s, deltas).final.timeElapsed <= s.productionTimeMs
    decreases |deltas|
  {
    if deltas != [] {
      var t := Tick(s, deltas[0]);
      RunBound(t.next, deltas[1..]);
    }
  }

  /**
   * However the elapsed time is split into ticks, the cycles paid out are the whole
   * periods in the total, except that one cycle is still held back exactly when the
   * accumulator ends on a full period.
   */
  lemma CyclesOfTotal(s: ProducerState, deltas: seq<nat>)
    requires s.productionTimeMs > 0
    requires s.productType.productionQuantity != 0.0
    requires deltas != [] || s.timeElapsed <= s.productionTimeMs
    ensures var r := Run(s, deltas);
            var total := s.timeElapsed + Sum(deltas);
            if r.final.timeElapsed == s.productionTimeMs
            then r.cycles + 1 == total / s.productionTimeMs
            else r.cycles == total / s.productionTimeMs
  {
    var r := Run(s, deltas);
    var p := s.productionTimeMs;
    RunConservation(s, deltas);
    RunBound(s, deltas);
    var total := s.timeElapsed + Sum(deltas);
    assert r.cycles * p + r.final.timeElapsed == total;
    if r.final.timeElapsed == p {
      Distribute(r.cycles, 1, p);
      DivOfMultiple(total, r.cycles + 1, 0, p);
    } else {
      DivOfMultiple(total, r.cycles, r.final.timeElapsed, p);
    }
  }

  /** Multiplication distributes over addition. */
  lemma Distribute(a: nat, b: nat, p: nat)
    ensures (a + b) * p == a * p + b * p
  {
  }

  /** Division undoes a multiple plus a remainder smaller than the divisor. */
  lemma DivOfMultiple(n: nat, c: nat, rem: nat, p: nat)
    requires rem < p
    requires n == c * p + rem
    ensures n / p == c
  {
    var k := n / p;
    var m := n % p;
    assert n == k * p + m;
    if k > c {
      Distribute(k - c, c, p);
      MulAtLeast(k - c, p);
    } else if k < c {
      Distribute(c - k, k, p);
      MulAtLeast(c - k, p);
    }
  }

  /** A positive multiple of `p` is at least `p`. */
  lemma MulAtLeast(d: nat, p: nat)
    requires d >= 1
    ensures d * p >= p
  {
  }

  /** One tick of 2500 ms on a 1000 ms, one-unit producer pays two units and keeps 500 ms. */
  lemma ExampleBacklogTick()
    ensures var s := ProducerState("p", ProductType("x", 1.0, 0.0), 1000, 0);
            var t := Tick(s, 2500);
            t.cycles == 2 && t.next.timeElapsed == 500
  {
  }

  /** Three ticks of 800 ms on a 1000 ms, one-unit producer pay 0, 1 and 1 and keep 400 ms. */
  lemma ExampleThreeTicks()
    ensures var s0 := ProducerState("p", ProductType("x", 1.0, 0.0), 1000, 0);
            var t1 := Tick(s0, 800);
            var t2 := Tick(t1.next, 800);
            var t3 := Tick(t2.next, 800);
            t1.cycles == 0 && t2.cycles == 1 && t3.cycles == 1 && t3.next.timeElapsed == 400
  {
  }

  /** Splitting 2000 ms as 1500 + 500 pays one cycle where one 2000 ms tick pays two. */
  lemma ExampleSplitDefersCycle()
    ensures var s := ProducerState("p", ProductType("x", 1.0, 0.0), 1000, 0);
            Run(s, [2000]).cycles == 2 && Run(s, [1500, 500]).cycles == 1
            && Run(s, [1500, 500]).final.timeElapsed == 1000
  {
  }

  /** A producer with a 1000 ms period and one unit per cycle, given one 2500 ms tick, returns 2.0 and keeps 500 ms. */
  method ExampleBacklogOnTick() returns (produced: real, remainder: nat)
    ensures produced == 2.0 && remainder == 500
  {
    var p := new ProducerEntity("p", ProductType("x", 1.0, 0.0), 1000, 0);
    produced := p.OnTick(2500);
    remainder := p.timeElapsed;
  }

  /** The same producer given three 800 ms ticks returns 0.0, 1.0 and 1.0 and keeps 400 ms. */
  method ExampleThreeOnTicks() returns (first: real, second: real, third: real, remainder: nat)
    ensures first == 0.0 && second == 1.0 && third == 1.0 && remainder == 400
  {
    var p := new ProducerEntity("p", ProductType("x", 1.0, 0.0), 1000, 0);
    first := p.OnTick(800);
    second := p.OnTick(800);
    third := p.OnTick(800);
    remainder := p.timeElapsed;
  }

  /** A producer (`ProducerEntity`), whose accumulator is updated in place. */
  class ProducerEntity {
    var id: string
    var productType: ProductType
    var productionTimeMs: nat
    var timeElapsed: nat

    /** The producer's fields as a value. */
    function State(): ProducerState
      reads this
    {
      ProducerState(id, productType, productionTimeMs, timeElapsed)
    }

    constructor (id: string, productType: ProductType, productionTimeMs: nat, timeElapsed: nat)
      ensures State() == ProducerState(id, productType, productionTimeMs, timeElapsed)
    {
      this.id := id;
      this.productType := productType;
      this.productionTimeMs := productionTimeMs;
      this.timeElapsed := timeElapsed;
    }

    function Id(): (r: string)
      reads this
      ensures r == State().id
    {
      id
    }

    function ProductionTime(): (r: nat)
      reads this
      ensures r == State().productionTimeMs
    {
      productionTimeMs
    }

    function ProductionQuantity(): (r: real)
      reads this
      ensures r == State().productType.productionQuantity
    {
      productType.productionQuantity
    }

    function Product(): (r: ProductType)
      reads this
      ensures r == State().productType
    {
      productType
    }

    method SetProductionTime(t: nat)
      modifies this
      ensures ProductionTime() == t
      ensures State() == old(State()).(productionTimeMs := t)
    {
      productionTimeMs := t;
    }

    method SetProductionQuantity(quantity: real)
      modifies this
      ensures ProductionQuantity() == quantity
      ensures State() == old(State()).(productType := old(productType).(productionQuantity := quantity))
    {
      productType := productType.(productionQuantity := quantity);
    }

    /** Advance the accumulator by `delta` milliseconds and return the quantity produced. */
    method OnTick(delta: nat) returns (produced: real)
      requires productionTimeMs > 0
      modifies this
      ensures State() == Tick(old(State()), delta).next
      ensures produced == Tick(old(State()), delta).cycles as real * productType.productionQuantity
      ensures productType.productionQuantity >= 0.0 ==> produced >= 0.0
    {
      ghost var before := State();
      timeElapsed := timeElapsed + delta;
      var q := productType.productionQuantity;
      if timeElapsed > productionTimeMs {
        var total, period := timeElapsed, productionTimeMs;
        produced := (total / period) as real * q;
        WholeCycles(total, period);
        RecoverCount(total / period, q, produced);
        var drained := CycleCount(produced, q);
        timeElapsed := total - period * drained;
        assert Tick(before, delta) == TickOutcome(State(), drained);
      } else {
        produced := 0.0;
      }
    }
  }
}
