/** Properties of the worker loop of src/mcstat/core.py:93-115, stated over
    the specification functions `Step` and `Consume`. */
module WorkerProps {
  import opened Domain
  import opened Worker
  import Stat

  /** Once the worker has stopped, later events change nothing: they are never
      taken from the queue. */
  lemma {:induction false} StopIgnoresLaterEvents(s: State, events: seq<Event>, more: seq<Event>)
    requires Consume(s, events).stop != Waiting
    ensures Consume(s, events + more) == Consume(s, events)
    decreases |events|
  {
    assert events != [];
    assert (events + more)[0] == events[0];
    assert (events + more)[1..] == events[1..] + more;
    match Step(s, events[0])
    case Halt(_) =>
    case Next(s', _) => StopIgnoresLaterEvents(s', events[1..], more);
  }

  /** A Term at position `k` stops the worker at or before it. */
  lemma {:induction false} TermStops(s: State, events: seq<Event>, k: nat)
    requires k < |events| && events[k].Term?
    ensures Consume(s, events).stop != Waiting
    ensures Consume(s, events).consumed <= k + 1
    decreases k
  {
    if k > 0 {
      match Step(s, events[0])
      case Halt(_) =>
      case Next(s', _) => TermStops(s', events[1..], k - 1);
    }
  }

  /** A Term at the head of the queue is taken, nothing is printed, and the
      worker stops with its dictionary untouched. */
  lemma TermFirst(s: State, ts: real, rest: seq<Event>)
    ensures Consume(s, [Term(ts)] + rest) == RunResult(s, [], 1, Terminated)
  {
    ConsumeHalt(s, [Term(ts)] + rest, Terminated);
  }

  /** Two Ticks in a row: the first prints the accumulated counts, the second
      prints (0, 0) for every known channel, and the key set never changes. */
  lemma ConsecutiveTicks(s: State, t1: real, t2: real)
    ensures var r := Consume(s, [Tick(t1), Tick(t2)]);
      && r.stop == Waiting && r.consumed == 2
      && r.final.keys == s.keys && (forall c :: c in r.final.stats <==> c in s.stats)
      && |r.records| == 2 * |s.keys|
      && r.records[..|s.keys|] == Report(t1, s)
      && (forall i :: |s.keys| <= i < |r.records| ==>
            r.records[i] == Line(t2, s.keys[i - |s.keys|], Zero))
  {
    var after := Reset(s);
    ConsumeNext(s, [Tick(t1), Tick(t2)], after, Report(t1, s));
    assert [Tick(t1), Tick(t2)][1..] == [Tick(t2)];
    ConsumeNext(after, [Tick(t2)], Reset(after), Report(t2, after));
    var r := Consume(s, [Tick(t1), Tick(t2)]);
    assert r.records == Report(t1, s) + (Report(t2, after) + []);
    forall i | |s.keys| <= i < |r.records|
      ensures r.records[i] == Line(t2, s.keys[i - |s.keys|], Zero)
    {
      LinesAt(t2, after.keys, after, i - |s.keys|);
    }
  }

  /** After the first Tick the dictionary is a plain dict: a Sample for a
      channel it has never seen raises KeyError, the bare `except` swallows it
      and the worker ends without a trace, whatever is still queued. */
  lemma UnknownChannelAfterTick(s: State, t1: real, t2: real, c: Channel, delta: Counts, rest: seq<Event>)
    requires c !in s.stats
    ensures Consume(s, [Tick(t1), Sample(t2, c, delta)] + rest)
         == RunResult(Reset(s), Report(t1, s), 2, Crashed(KeyError(c)))
  {
    var events := [Tick(t1), Sample(t2, c, delta)] + rest;
    ConsumeNext(s, events, Reset(s), Report(t1, s));
    assert events[1..][0] == Sample(t2, c, delta);
    ConsumeHalt(Reset(s), events[1..], Crashed(KeyError(c)));
  }

  /** Before any Tick the same Sample is accepted: its channel is added with
      an empty accumulator, then the delta is added. */
  lemma UnknownChannelBeforeTick(t: real, c: Channel, delta: Counts)
    ensures var r := Consume(Initial, [Sample(t, c, delta)]);
      r.stop == Waiting && r.final.keys == [c] && r.final.stats == map[c := delta]
  {
    var s' := State([c], map[c := Zero.Plus(delta)], true);
    ConsumeNext(Initial, [Sample(t, c, delta)], s', []);
  }

  /** The events of a measurement window: Samples only, each for a channel
      the worker will accept. */
  ghost predicate Accepted(s: State, window: seq<Event>) {
    forall e :: e in window ==> e.Sample? && (s.lazy || e.channel in s.stats)
  }

  /** The sum of the deltas that Samples in `window` carry for channel `c`. */
  function SumFor(window: seq<Event>, c: Channel): Counts
    decreases |window|
  {
    if window == [] then Zero
    else
      Delta(window[0], c).Plus(SumFor(window[1..], c))
  }

  /** The state after the worker has handled every Sample of `window`. */
  function Absorb(s: State, window: seq<Event>): (r: State)
    requires Accepted(s, window)
    decreases |window|
    ensures r.lazy == s.lazy && forall c :: c in s.stats ==> c in r.stats
    ensures !s.lazy ==> r.keys == s.keys && forall c :: c in r.stats <==> c in s.stats
  {
    if window == [] then s
    else
      var e := window[0];
      var s' := AddSample(s, e.channel, e.aggr).state;
      Absorb(s', window[1..])
  }

  /** A Sample the worker accepts is consumed silently. */
  lemma ConsumeSample(s: State, events: seq<Event>)
    requires events != [] && events[0].Sample?
    requires AddSample(s, events[0].channel, events[0].aggr).Next?
    ensures Consume(s, events) == Prefixed([], 1, Consume(AddSample(s, events[0].channel, events[0].aggr).state, events[1..]))
  {
    ConsumeNext(s, events, AddSample(s, events[0].channel, events[0].aggr).state, []);
  }

  lemma PlusAssoc(a: Counts, b: Counts, c: Counts)
    ensures a.Plus(b).Plus(c) == a.Plus(b.Plus(c))
  {
  }

  /** One Sample of a window: the state it leads to takes the rest. */
  lemma AbsorbUnfold(s: State, window: seq<Event>)
    requires Accepted(s, window) && window != []
    ensures window[0].Sample?
    ensures AddSample(s, window[0].channel, window[0].aggr).Next?
    ensures Accepted(AddSample(s, window[0].channel, window[0].aggr).state, window[1..])
    ensures Absorb(s, window) == Absorb(AddSample(s, window[0].channel, window[0].aggr).state, window[1..])
  {
    var e := window[0];
    assert e in window;
    var s' := AddSample(s, e.channel, e.aggr).state;
    forall x | x in window[1..] ensures x.Sample? && (s'.lazy || x.channel in s'.stats) {
      assert x in window;
    }
  }

  /** One Sample of a window: what it does to the state and to the sums. */
  lemma AbsorbStep(s: State, window: seq<Event>, c: Channel)
    requires Accepted(s, window) && window != []
    ensures window[0].Sample?
    ensures AddSample(s, window[0].channel, window[0].aggr).Next?
    ensures Accepted(AddSample(s, window[0].channel, window[0].aggr).state, window[1..])
    ensures Absorb(s, window) == Absorb(AddSample(s, window[0].channel, window[0].aggr).state, window[1..])
    ensures SumFor(window, c) == Delta(window[0], c).Plus(SumFor(window[1..], c))
    ensures Count(AddSample(s, window[0].channel, window[0].aggr).state, c) == Count(s, c).Plus(Delta(window[0], c))
  {
    AbsorbUnfold(s, window);
    AddSampleCount(s, window[0].channel, window[0].aggr, c);
  }

  lemma AddSampleCount(s: State, ch: Channel, delta: Counts, c: Channel)
    requires AddSample(s, ch, delta).Next?
    ensures Count(AddSample(s, ch, delta).state, c) == Count(s, c).Plus(if ch == c then delta else Zero)
  {
  }

  /** What the Sample `e` adds to channel `c`. */
  function Delta(e: Event, c: Channel): Counts {
    if e.Sample? && e.channel == c then e.aggr else Zero
  }

  /** Handling a window consumes all of it, prints nothing, and leaves the
      worker in `Absorb(s, window)`. */
  lemma {:induction false} ConsumeWindow(s: State, window: seq<Event>, more: seq<Event>)
    requires Accepted(s, window)
    ensures Consume(s, window + more) == Prefixed([], |window|, Consume(Absorb(s, window), more))
    decreases |window|
  {
    if window == [] {
      assert window + more == more;
    } else {
      var e := window[0];
      var s' := AddSample(s, e.channel, e.aggr).state;
      AbsorbUnfold(s, window);
      assert (window + more)[0] == e;
      ConsumeSample(s, window + more);
      assert (window + more)[1..] == window[1..] + more;
      ConsumeWindow(s', window[1..], more);
      var x := Consume(Absorb(s, window), more);
      assert [] + ([] + x.records) == [] + x.records;
    }
  }

  /** Every accumulator after a window equals its value before plus the sum of
      that channel's deltas in the window. */
  lemma {:induction false} AbsorbSums(s: State, window: seq<Event>, c: Channel)
    requires Accepted(s, window)
    ensures Count(Absorb(s, window), c) == Count(s, c).Plus(SumFor(window, c))
    decreases |window|
  {
    if window == [] {
      assert Absorb(s, window) == s && SumFor(window, c) == Zero;
      assert Count(s, c).Plus(Zero) == Count(s, c);
    } else {
      AbsorbStep(s, window, c);
      var e := window[0];
      var s' := AddSample(s, e.channel, e.aggr).state;
      AbsorbSums(s', window[1..], c);
      SumChain(Count(Absorb(s, window), c), Count(s, c), Count(s', c),
               Delta(e, c), SumFor(window[1..], c), SumFor(window, c));
    }
  }

  lemma SumChain(total: Counts, before: Counts, mid: Counts, d: Counts, rest: Counts, sum: Counts)
    requires total == mid.Plus(rest) && mid == before.Plus(d) && sum == d.Plus(rest)
    ensures total == before.Plus(sum)
  {
    PlusAssoc(before, d, rest);
  }

  /** The measurement window of core.py:103-112: starting right after a Tick,
      a window of Samples for known channels followed by a Tick prints, for
      every channel in key order, exactly the sum of that window's deltas, and
      leaves the worker reset again. */
  lemma WindowReport(s0: State, window: seq<Event>, ts: real)
    requires Accepted(Reset(s0), window)
    ensures Consume(Reset(s0), window + [Tick(ts)])
         == RunResult(Reset(s0), WindowLines(s0.keys, window, ts), |window| + 1, Waiting)
  {
    var s := Reset(s0);
    var a := Absorb(s, window);
    ConsumeWindow(s, window, [Tick(ts)]);
    ConsumeNext(a, [Tick(ts)], Reset(a), Report(ts, a));
    assert Reset(a) == s;
    WindowTotals(s0, window, ts);
  }

  /** The lines a report for `keys` shows when each channel carries the sum of
      its deltas in `window`. */
  function WindowLines(keys: seq<Channel>, window: seq<Event>, ts: real): (r: seq<TickRecord>)
    ensures |r| == |keys|
    ensures forall i :: 0 <= i < |keys| ==> r[i] == Line(ts, keys[i], SumFor(window, keys[i]))
  {
    seq(|keys|, i requires 0 <= i < |keys| => Line(ts, keys[i], SumFor(window, keys[i])))
  }

  lemma WindowTotals(s0: State, window: seq<Event>, ts: real)
    requires Accepted(Reset(s0), window)
    ensures Report(ts, Absorb(Reset(s0), window)) == WindowLines(s0.keys, window, ts)
  {
    var s := Reset(s0);
    var a := Absorb(s, window);
    var lines := WindowLines(s0.keys, window, ts);
    assert a.keys == s0.keys;
    forall i | 0 <= i < |s0.keys| ensures Report(ts, a)[i] == lines[i] {
      LinesAt(ts, a.keys, a, i);
      WindowTotal(s0, window, s0.keys[i]);
    }
  }

  lemma WindowTotal(s0: State, window: seq<Event>, c: Channel)
    requires Accepted(Reset(s0), window)
    ensures Count(Absorb(Reset(s0), window), c) == SumFor(window, c)
  {
    AbsorbSums(Reset(s0), window, c);
    assert Count(Reset(s0), c) == Zero;
    assert Zero.Plus(SumFor(window, c)) == SumFor(window, c);
  }

  /** Number of datagram Samples (packet delta 1) for channel `c` in `window`. */
  function Datagrams(window: seq<Event>, c: Channel): nat
    decreases |window|
  {
    if window == [] then 0
    else (if window[0].Sample? && window[0].channel == c && window[0].aggr.packets == 1 then 1 else 0)
         + Datagrams(window[1..], c)
  }

  /** The deltas the receiver sends: a zero "channel seen" marker, or (1, n)
      for one datagram. */
  ghost predicate ReceiverDeltas(window: seq<Event>) {
    forall e :: e in window && e.Sample? ==> e.aggr == Zero || e.aggr.packets == 1
  }

  /** Summed over a window of receiver Samples, the packet counter is the
      number of datagrams. */
  lemma {:induction false} SumCountsDatagrams(window: seq<Event>, c: Channel)
    requires ReceiverDeltas(window)
    ensures SumFor(window, c).packets == Datagrams(window, c)
    decreases |window|
  {
    if window != [] {
      assert window[0] in window;
      SumCountsDatagrams(window[1..], c);
    }
  }

  /** Reported packet rate for a window of receiver Samples: the number of
      datagrams seen for the channel divided by the configured interval (not
      the time that actually elapsed between the two Ticks). */
  lemma WindowPacketRate(window: seq<Event>, ts: real, interval: real, c: Channel)
    requires interval > 0.0 && ReceiverDeltas(window)
    ensures Stat.Metrics(ts, interval, c, SumFor(window, c)).packets == Datagrams(window, c) as real / interval
  {
    SumCountsDatagrams(window, c);
  }
}
