/** Events and accumulators shared by the receiver, the ticker and the worker
    (src/mcstat/domain.py, duplicated as Event/Term/Tick/Stat/Aggr in src/mcstat/core.py). */
module Domain {
  import opened Text

  /** A monitored multicast channel: (address text, port). Equality is by value. */
  datatype Channel = Channel(addr: string, port: int)

  /** A snapshot of an accumulator's two counters. Events carry these values. */
  datatype Counts = Counts(packets: int, bytes: int) {
    /** Field-wise sum, the arithmetic done by `Aggr.__iadd__`. */
    function Plus(b: Counts): Counts {
      Counts(packets + b.packets, bytes + b.bytes)
    }

    predicate NonNegative() { packets >= 0 && bytes >= 0 }
  }

  const Zero: Counts := Counts(0, 0)

  /** Metric for one channel: bitrate in kbit/s and packets per second. */
  datatype Metric = Metric(timestamp: real, channel: Channel, bitrate: real, packets: real)

  /** The events passed between threads. `Sample` is core.py's `Stat`. */
  datatype Event =
    | Term(timestamp: real)
    | Tick(timestamp: real)
    | Sample(timestamp: real, channel: Channel, aggr: Counts)
    | MetricEvent(metric: Metric)
  {
    /** `Event.timestamp`; a MetricEvent takes its metric's timestamp. */
    function Timestamp(): (t: real)
      ensures MetricEvent? ==> t == metric.timestamp
      ensures !MetricEvent? ==> t == timestamp
    {
      match this
      case MetricEvent(m) => m.timestamp
      case _ => timestamp
    }

    /** `is_term()`: overridden to True only by Term. */
    predicate IsTerm() { Term? }

    /** `is_tick()`: overridden to True only by Tick. */
    predicate IsTick() { Tick? }
  }

  /** The mutable accumulator `Aggr`. */
  class Aggr {
    var packets: int
    var bytes: int

    function Value(): Counts
      reads this
    {
      Counts(packets, bytes)
    }

    constructor (packets: int, bytes: int)
      ensures this.packets == packets && this.bytes == bytes
    {
      this.packets := packets;
      this.bytes := bytes;
    }

    /** `Aggr.empty()`: a fresh accumulator at zero. */
    static method Empty() returns (a: Aggr)
      ensures fresh(a)
      ensures a.packets == 0 && a.bytes == 0
    {
      a := new Aggr(0, 0);
    }

    /** `self += b`: adds `b` into this object in place. Like `__iadd__`, it
        returns nothing (None), so only the original object holds the sum.
        When `b` is another object it is left unchanged; `a += a` doubles. */
    method IAdd(b: Aggr) returns (rebound: Option<Aggr>)
      modifies this
      ensures rebound == None
      ensures Value() == old(Value()).Plus(old(b.Value()))
      ensures b != this ==> b.Value() == old(b.Value())
      ensures old(Value()).NonNegative() && old(b.Value()).NonNegative() ==>
                Value().NonNegative() && packets >= old(packets) && bytes >= old(bytes)
    {
      packets := packets + b.packets;
      bytes := bytes + b.bytes;
      rebound := None;
    }
  }
}
