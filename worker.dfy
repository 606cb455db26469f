/** The aggregator loop `worker` of src/mcstat/core.py:93-115.

    The worker reads events until one stops it. A Sample adds its delta into
    the accumulator of its channel; a Tick prints one line per known channel
    and replaces the dictionary by a plain one with every accumulator reset;
    a Term stops it. Any exception raised while handling an event is caught
    by the bare `except` and also stops it, silently. */
module Worker {
  import opened Domain
  import Text

  /** One line printed on a Tick: timestamp, address, port, packets, bytes. */
  datatype TickRecord = TickRecord(timestamp: real, addr: string, port: int, packets: int, bytes: int)

  /** The exceptions the bare `except` swallows. */
  datatype Crash =
    | KeyError(channel: Channel)   // a Sample for an unknown channel once `stats` is a plain dict
    | AttributeError               // an event without a `channel` (a MetricEvent)

  /** Why the loop ended: a Term, a swallowed exception, or (in the model) the
      end of the finite input, where the real worker would block in `queue.get()`. */
  datatype Stop = Terminated | Crashed(reason: Crash) | Waiting

  /** The worker's `stats` dictionary: its keys in iteration (insertion) order,
      the accumulated counts, and whether it is still the `defaultdict` of
      core.py:94 (`lazy`) or the plain dict built on every Tick at core.py:109. */
  datatype State = State(keys: seq<Channel>, stats: map<Channel, Counts>, lazy: bool)

  const Initial: State := State([], map[], true)

  /** The keys are distinct and are exactly the map's domain. The worker keeps
      this invariant (`ConsumeFacts`); the functions below do not need it. */
  ghost predicate Wf(s: State) {
    && (forall i, j :: 0 <= i < j < |s.keys| ==> s.keys[i] != s.keys[j])
    && (forall c :: c in s.stats <==> c in s.keys)
  }

  /** The accumulator of `c`, or an empty one when `c` is not a key. */
  function Count(s: State, c: Channel): Counts {
    if c in s.stats then s.stats[c] else Zero
  }

  /** What one event does: either the loop goes on with a new state and the
      lines it printed, or it stops. */
  datatype Outcome = Next(state: State, out: seq<TickRecord>) | Halt(stop: Stop)

  function Line(ts: real, c: Channel, a: Counts): TickRecord {
    TickRecord(ts, c.addr, c.port, a.packets, a.bytes)
  }

  /** The lines printed for `keys` by a Tick at `ts` (core.py:105-108). */
  function Lines(ts: real, keys: seq<Channel>, s: State): (r: seq<TickRecord>)
    ensures |r| == |keys|
  {
    if keys == [] then [] else [Line(ts, keys[0], Count(s, keys[0]))] + Lines(ts, keys[1..], s)
  }

  /** The lines printed by a Tick at `ts`: one per key, in key order. */
  function Report(ts: real, s: State): seq<TickRecord> {
    Lines(ts, s.keys, s)
  }

  lemma {:induction false} LinesAt(ts: real, keys: seq<Channel>, s: State, i: nat)
    requires i < |keys|
    ensures Lines(ts, keys, s)[i] == Line(ts, keys[i], Count(s, keys[i]))
  {
    if i > 0 {
      LinesAt(ts, keys[1..], s, i - 1);
    }
  }

  /** A Tick prints exactly one line per channel in `stats`, carrying the
      Tick's timestamp and that channel's accumulated packets and bytes; no
      channel is printed twice. */
  lemma ReportOnePerChannel(ts: real, s: State)
    requires Wf(s)
    ensures |Report(ts, s)| == |s.stats|
    ensures forall i :: 0 <= i < |Report(ts, s)| ==>
              var r := Report(ts, s)[i];
              var c := Channel(r.addr, r.port);
              c in s.stats && r.timestamp == ts &&
              r.packets == s.stats[c].packets && r.bytes == s.stats[c].bytes
    ensures forall i, j :: 0 <= i < j < |Report(ts, s)| ==>
              (Report(ts, s)[i].addr, Report(ts, s)[i].port) != (Report(ts, s)[j].addr, Report(ts, s)[j].port)
    ensures forall c :: c in s.stats ==>
              exists i :: 0 <= i < |Report(ts, s)| && Report(ts, s)[i] == Line(ts, c, s.stats[c])
  {
    DistinctCard(s);
    var r := Report(ts, s);
    forall i | 0 <= i < |r| ensures r[i] == Line(ts, s.keys[i], s.stats[s.keys[i]]) {
      LinesAt(ts, s.keys, s, i);
    }
    forall c | c in s.stats
      ensures exists i :: 0 <= i < |r| && r[i] == Line(ts, c, s.stats[c])
    {
      var i :| 0 <= i < |s.keys| && s.keys[i] == c;
      assert r[i] == Line(ts, c, s.stats[c]);
    }
  }

  lemma DistinctCard(s: State)
    requires Wf(s)
    ensures |s.stats| == |s.keys|
  {
    assert s.stats.Keys == set c | c in s.keys;
    DistinctSize(s.keys);
  }

  lemma {:induction false} DistinctSize<T>(xs: seq<T>)
    requires forall i, j :: 0 <= i < j < |xs| ==> xs[i] != xs[j]
    ensures |set x | x in xs| == |xs|
  {
    if xs != [] {
      DistinctSize(xs[1..]);
      assert (set x | x in xs) == (set x | x in xs[1..]) + {xs[0]};
      assert xs[0] !in xs[1..];
    }
  }

  /** The dict comprehension of core.py:109: same keys, every accumulator
      empty, and no longer a defaultdict. */
  function Reset(s: State): (r: State)
    ensures r.keys == s.keys && !r.lazy
    ensures forall c :: c in r.stats <==> c in s.stats
    ensures forall c :: c in r.stats ==> r.stats[c] == Zero
  {
    State(s.keys, map c | c in s.stats :: Zero, false)
  }

  /** `aggr = stats[event.channel]; aggr += event.aggr` (core.py:111-112):
      the defaultdict creates a missing key with an empty accumulator, the
      plain dict raises KeyError. */
  function AddSample(s: State, c: Channel, delta: Counts): (r: Outcome)
    ensures r.Halt? <==> (c !in s.stats && !s.lazy)
    ensures r.Halt? ==> r.stop == Crashed(KeyError(c))
    ensures r.Next? ==>
              && r.out == []
              && r.state.lazy == s.lazy
              && (forall d :: d in r.state.stats <==> d in s.stats || d == c)
              && Count(r.state, c) == Count(s, c).Plus(delta)
              && (forall d :: d != c ==> Count(r.state, d) == Count(s, d))
              && r.state.keys == (if c in s.stats then s.keys else s.keys + [c])
  {
    if c in s.stats then
      Next(State(s.keys, s.stats[c := s.stats[c].Plus(delta)], s.lazy), [])
    else if s.lazy then
      Next(State(s.keys + [c], s.stats[c := Zero.Plus(delta)], true), [])
    else
      Halt(Crashed(KeyError(c)))
  }

  /** One iteration of the `while True` loop (core.py:97-113). */
  function Step(s: State, e: Event): (r: Outcome)
    ensures r.Halt? && r.stop == Terminated <==> e.IsTerm()
  {
    if e.IsTerm() then Halt(Terminated)
    else if e.IsTick() then Next(Reset(s), Report(e.timestamp, s))
    else match e
      case Sample(_, c, delta) => AddSample(s, c, delta)
      case _ => Halt(Crashed(AttributeError))
  }

  lemma StepPreservesWf(s: State, e: Event)
    requires Wf(s)
    ensures Step(s, e).Next? ==> Wf(Step(s, e).state)
  {
  }

  /** The worker run over a finite queue content: the final state, every line
      printed, how many events were taken from the queue, and why it stopped. */
  datatype RunResult = RunResult(final: State, records: seq<TickRecord>, consumed: nat, stop: Stop)

  function Consume(s: State, events: seq<Event>): (r: RunResult)
    decreases |events|
    ensures r.consumed <= |events|
    ensures r.stop == Waiting ==> r.consumed == |events|
  {
    if events == [] then RunResult(s, [], 0, Waiting)
    else match Step(s, events[0])
      case Halt(stop) => RunResult(s, [], 1, stop)
      case Next(s', out) =>
        var rest := Consume(s', events[1..]);
        RunResult(rest.final, out + rest.records, 1 + rest.consumed, rest.stop)
  }

  /** Unfolds one iteration of the loop that does not stop it. */
  lemma ConsumeNext(s: State, events: seq<Event>, s': State, out: seq<TickRecord>)
    requires events != [] && Step(s, events[0]) == Next(s', out)
    ensures Consume(s, events) == Prefixed(out, 1, Consume(s', events[1..]))
  {
  }

  /** Unfolds the iteration that stops the loop. */
  lemma ConsumeHalt(s: State, events: seq<Event>, stop: Stop)
    requires events != [] && Step(s, events[0]) == Halt(stop)
    ensures Consume(s, events) == RunResult(s, [], 1, stop)
  {
  }

  /** The worker keeps its dictionary well formed, and it stops exactly at
      the first event that halts it: that event is the last one consumed, and
      no Term comes before it. */
  lemma {:induction false} ConsumeFacts(s: State, events: seq<Event>)
    requires Wf(s)
    decreases |events|
    ensures var r := Consume(s, events);
      && Wf(r.final)
      && (r.stop != Waiting ==> 1 <= r.consumed && Step(r.final, events[r.consumed - 1]) == Halt(r.stop))
      && (forall k :: 0 <= k < r.consumed - 1 ==> !events[k].Term?)
  {
    if events != [] {
      StepPreservesWf(s, events[0]);
      match Step(s, events[0])
      case Halt(_) =>
      case Next(s', _) =>
        ConsumeFacts(s', events[1..]);
        var rest := Consume(s', events[1..]);
        forall k | 1 <= k < 1 + rest.consumed - 1 ensures !events[k].Term? {
          assert events[k] == events[1..][k - 1];
        }
    }
  }

  /** The loop as it executes, over the `stats` dictionary it rebinds. */
  class Aggregator {
    var keys: seq<Channel>
    var stats: map<Channel, Counts>
    var lazy: bool

    function Current(): State
      reads this
    {
      State(keys, stats, lazy)
    }

    ghost predicate Valid()
      reads this
    {
      Wf(Current())
    }

    /** `stats = collections.defaultdict(Aggr.empty)`. */
    constructor ()
      ensures Valid() && Current() == Initial
    {
      keys, stats, lazy := [], map[], true;
    }

    /** The printing loop of core.py:105-108. */
    method PrintTick(now: real) returns (out: seq<TickRecord>)
      requires Valid()
      ensures out == Report(now, Current())
    {
      out := [];
      var i := 0;
      while i < |keys|
        invariant 0 <= i <= |keys|
        invariant |out| == i
        invariant forall k :: 0 <= k < i ==> out[k] == Line(now, keys[k], stats[keys[k]])
      {
        var c := keys[i];
        out := out + [Line(now, c, stats[c])];
        i := i + 1;
      }
      forall k | 0 <= k < |keys| ensures out[k] == Report(now, Current())[k] {
        LinesAt(now, keys, Current(), k);
      }
    }

    /** Handles one event; `stop` is set when the loop must end, and then the
        state is left as it was. */
    method Handle(e: Event) returns (out: seq<TickRecord>, stop: Text.Option<Stop>)
      requires Valid()
      modifies this
      ensures Valid()
      ensures stop.None? ==> Step(old(Current()), e) == Next(Current(), out)
      ensures stop.Some? ==> Step(old(Current()), e) == Halt(stop.value) && Current() == old(Current())
    {
      out := [];
      stop := Text.None;
      if e.IsTerm() {
        stop := Text.Some(Terminated);
      } else if e.IsTick() {
        out := PrintTick(e.timestamp);
        stats := map c | c in stats :: Zero;
        lazy := false;
      } else if e.Sample? {
        var c := e.channel;
        if c in stats {
          stats := stats[c := stats[c].Plus(e.aggr)];
        } else if lazy {
          keys := keys + [c];
          stats := stats[c := Zero.Plus(e.aggr)];
        } else {
          stop := Text.Some(Crashed(KeyError(c)));
        }
      } else {
        stop := Text.Some(Crashed(AttributeError));
      }
    }

    /** The `while True` loop of core.py:96-115 over a finite queue content. */
    method Run(events: seq<Event>) returns (records: seq<TickRecord>, consumed: nat, stop: Stop)
      requires Valid()
      modifies this
      ensures Valid()
      ensures Consume(old(Current()), events) == RunResult(Current(), records, consumed, stop)
    {
      records, consumed, stop := [], 0, Waiting;
      ghost var start := Current();
      while consumed < |events|
        invariant Valid()
        invariant consumed <= |events|
        invariant Consume(start, events) == Prefixed(records, consumed, Consume(Current(), events[consumed..]))
      {
        ghost var before := Current();
        StepPreservesWf(before, events[consumed]);
        var out, halt := Handle(events[consumed]);
        if halt.Some? {
          RunHalts(start, events, records, consumed, before, halt.value);
          consumed, stop := consumed + 1, halt.value;
          return;
        }
        RunContinues(start, events, records, consumed, before, Current(), out);
        records, consumed := records + out, consumed + 1;
      }
    }
  }

  lemma RunContinues(start: State, events: seq<Event>, records: seq<TickRecord>, consumed: nat,
                     before: State, after: State, out: seq<TickRecord>)
    requires consumed < |events|
    requires Consume(start, events) == Prefixed(records, consumed, Consume(before, events[consumed..]))
    requires Step(before, events[consumed]) == Next(after, out)
    ensures Consume(start, events) == Prefixed(records + out, consumed + 1, Consume(after, events[consumed + 1..]))
  {
    var rest := events[consumed..];
    assert rest[1..] == events[consumed + 1..];
    ConsumeNext(before, rest, after, out);
    var tail := Consume(after, rest[1..]);
    assert records + (out + tail.records) == (records + out) + tail.records;
  }

  lemma RunHalts(start: State, events: seq<Event>, records: seq<TickRecord>, consumed: nat,
                 before: State, stop: Stop)
    requires consumed < |events|
    requires Consume(start, events) == Prefixed(records, consumed, Consume(before, events[consumed..]))
    requires Step(before, events[consumed]) == Halt(stop)
    ensures Consume(start, events) == RunResult(before, records, consumed + 1, stop)
  {
    ConsumeHalt(before, events[consumed..], stop);
  }

  /** A run that first took `n` events and printed `recs`, then went on as `r`. */
  function Prefixed(recs: seq<TickRecord>, n: nat, r: RunResult): RunResult {
    RunResult(r.final, recs + r.records, n + r.consumed, r.stop)
  }
}
