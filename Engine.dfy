/**
 * The engine's producer collection (src/continuum/engine.rs): producers are
 * registered in order and every tick advances each of them once by the same
 * elapsed time. The tick thread, the timer and their locks are not modelled.
 */
module Engine {
  import opened Entities

  /** The engine's configuration: how long the timer sleeps between ticks. */
  datatype EngineConfig = EngineConfig(tickTimeoutMs: nat)

  /** The two states of the engine's timer. */
  datatype TimerState = Stopped | Running

  /** The states of a sequence of producers, slot by slot. */
  function States(ps: seq<ProducerEntity>): (r: seq<ProducerState>)
    reads ps
    ensures |r| == |ps|
    ensures forall i :: 0 <= i < |ps| ==> r[i] == ps[i].State()
  {
    if ps == [] then [] else [ps[0].State()] + States(ps[1..])
  }

  /** Every producer in `ss` can be ticked: its period is positive. */
  predicate AllTickable(ss: seq<ProducerState>)
  {
    forall i :: 0 <= i < |ss| ==> ss[i].productionTimeMs > 0
  }

  /** One engine tick on producer states: each producer ticked on its own by `elapsed`. */
  function TickAll(ss: seq<ProducerState>, elapsed: nat): (r: seq<ProducerState>)
    requires AllTickable(ss)
    ensures |r| == |ss|
    ensures forall i :: 0 <= i < |ss| ==> r[i] == Tick(ss[i], elapsed).next
  {
    if ss == [] then [] else [Tick(ss[0], elapsed).next] + TickAll(ss[1..], elapsed)
  }

  /** The engine ticked with each of `ticks` in order. */
  function TickEach(ss: seq<ProducerState>, ticks: seq<nat>): (r: seq<ProducerState>)
    requires AllTickable(ss)
    ensures |r| == |ss| && AllTickable(r)
    decreases |ticks|
  {
    if ticks == [] then ss else TickEach(TickAll(ss, ticks[0]), ticks[1..])
  }

  /**
   * After an engine tick every producer whose quantity is not zero holds at most one
   * period in its accumulator, and ids, products and periods are as before.
   */
  lemma TickAllBounded(ss: seq<ProducerState>, elapsed: nat)
    requires AllTickable(ss)
    ensures AllTickable(TickAll(ss, elapsed))
    ensures forall i :: 0 <= i < |ss| ==>
              TickAll(ss, elapsed)[i].id == ss[i].id
              && TickAll(ss, elapsed)[i].productType == ss[i].productType
              && TickAll(ss, elapsed)[i].productionTimeMs == ss[i].productionTimeMs
    ensures forall i :: 0 <= i < |ss| && ss[i].productType.productionQuantity != 0.0 ==>
              TickAll(ss, elapsed)[i].timeElapsed <= ss[i].productionTimeMs
  {
  }

  /**
   * Producers do not interact: over any series of engine ticks, each producer ends
   * where ticking it alone with the same series would leave it.
   */
  lemma {:induction false} TickEachIsRunPerProducer(ss: seq<ProducerState>, ticks: seq<nat>, i: nat)
    requires AllTickable(ss)
    requires i < |ss|
    ensures TickEach(ss, ticks)[i] == Run(ss[i], ticks).final
    decreases |ticks|
  {
    if ticks != [] {
      var next := TickAll(ss, ticks[0]);
      TickEachIsRunPerProducer(next, ticks[1..], i);
      assert next[i] == Tick(ss[i], ticks[0]).next;
    }
  }

  /** The state behind `Engine`: its configuration, timer and producers (`EngineInner`). */
  class EngineInner {
    var config: EngineConfig
    var timerTimeoutMs: nat
    var timerState: TimerState
    var hasTimerHandle: bool
    var producers: seq<ProducerEntity>

    /** Each producer is owned once: no object fills two slots. */
    ghost predicate Valid()
      reads this
    {
      forall i, j :: 0 <= i < j < |producers| ==> producers[i] != producers[j]
    }

    /** The producers' states, slot by slot. */
    function Snapshot(): seq<ProducerState>
      reads this, producers
    {
      States(producers)
    }

    constructor (config: EngineConfig)
      ensures Valid()
      ensures this.config == config
      ensures timerTimeoutMs == config.tickTimeoutMs && timerState == Stopped
      ensures !hasTimerHandle
      ensures producers == []
    {
      this.config := config;
      timerTimeoutMs := config.tickTimeoutMs;
      timerState := Stopped;
      hasTimerHandle := false;
      producers := [];
    }

    /** Register `p` after the producers already there. */
    method AddProducer(p: ProducerEntity)
      requires Valid()
      requires p !in producers
      modifies this
      ensures Valid()
      ensures producers == old(producers) + [p]
      ensures Snapshot() == old(Snapshot()) + [p.State()]
      ensures config == old(config) && timerTimeoutMs == old(timerTimeoutMs)
      ensures timerState == old(timerState) && hasTimerHandle == old(hasTimerHandle)
    {
      producers := producers + [p];
    }

    /** Advance every registered producer, in order, by `elapsed`; their outputs are discarded. */
    method ProcessTick(elapsed: nat)
      requires Valid()
      requires AllTickable(Snapshot())
      modifies producers
      ensures producers == old(producers)
      ensures Snapshot() == TickAll(old(Snapshot()), elapsed)
      ensures forall i :: 0 <= i < |producers| && producers[i].productType.productionQuantity != 0.0 ==>
                producers[i].timeElapsed <= producers[i].productionTimeMs
    {
      ghost var before := Snapshot();
      var i := 0;
      while i < |producers|
        invariant 0 <= i <= |producers|
        invariant forall j :: 0 <= j < i ==>
                    producers[j].State() == Tick(old(producers[j].State()), elapsed).next
        invariant forall j :: i <= j < |producers| ==> producers[j].State() == old(producers[j].State())
      {
        var p := producers[i];
        assert p.State() == old(p.State());
        var _ := p.OnTick(elapsed);
        i := i + 1;
      }
      TickAllBounded(before, elapsed);
    }
  }

  /** The engine's public handle (`Engine`), which owns an `EngineInner`. */
  class Engine {
    const inner: EngineInner

    constructor New(config: EngineConfig)
      ensures fresh(inner) && inner.Valid()
      ensures inner.config == config
      ensures inner.timerTimeoutMs == config.tickTimeoutMs && inner.timerState == Stopped
      ensures !inner.hasTimerHandle
      ensures inner.producers == []
    {
      inner := new EngineInner(config);
    }

    /** Register `p` with the engine. */
    method AddProducer(p: ProducerEntity)
      requires inner.Valid()
      requires p !in inner.producers
      modifies inner
      ensures inner.Valid()
      ensures inner.producers == old(inner.producers) + [p]
      ensures inner.Snapshot() == old(inner.Snapshot()) + [p.State()]
      ensures inner.config == old(inner.config) && inner.timerTimeoutMs == old(inner.timerTimeoutMs)
      ensures inner.timerState == old(inner.timerState) && inner.hasTimerHandle == old(inner.hasTimerHandle)
    {
      inner.AddProducer(p);
    }
  }
}
