/** Properties of the receiver's emission order (src/mcstat/core.py:53-90)
    and of how the worker takes its output. */
module ReceiverProps {
  import opened Domain
  import opened Receiver
  import Worker
  import WorkerProps

  /** A Sample for one datagram read from one of the channels' sockets. */
  predicate IsDatagram(e: Event, channels: seq<Channel>) {
    e.Sample? && e.channel in channels && e.aggr.packets == 1 && 0 <= e.aggr.bytes <= BufferSize
  }

  /** Every event a ready list produces is a datagram Sample of the batch's time. */
  lemma {:induction false} DrainDatagrams(channels: seq<Channel>, now: real, ready: seq<Ready>)
    ensures forall e :: e in Drain(channels, now, ready).events ==> IsDatagram(e, channels) && e.timestamp == now
    decreases |ready|
  {
    if ready != [] && ready[0].Data? && ready[0].fd < |channels| {
      DrainDatagrams(channels, now, ready[1..]);
    }
  }

  lemma {:induction false} PollDatagrams(channels: seq<Channel>, batches: seq<Batch>)
    ensures forall e :: e in Poll(channels, batches).events ==> IsDatagram(e, channels)
    decreases |batches|
  {
    if batches != [] {
      DrainDatagrams(channels, batches[0].now, batches[0].ready);
      PollDatagrams(channels, batches[1..]);
    }
  }

  lemma {:induction false} ZerosAt(now: real, channels: seq<Channel>, i: nat)
    requires i < |channels|
    ensures Zeros(now, channels)[i] == Sample(now, channels[i], Zero)
    decreases i
  {
    if i > 0 {
      ZerosAt(now, channels[1..], i - 1);
    }
  }

  /** The order of core.py:68-90 once setup succeeded: first one zero Sample
      per channel at the start time, in channel order; then only datagram
      Samples, each counting one packet of at most 4096 bytes; then, unless the
      receiver is still polling, Term with the time read in `finally`. */
  lemma EmissionOrder(channels: seq<Channel>, start: real, batches: seq<Batch>, end: real)
    ensures var r := Receive(channels, Complete, start, batches, end);
      && |channels| <= |r.events|
      && (forall i :: 0 <= i < |channels| ==> r.events[i] == Sample(start, channels[i], Zero))
      && (forall i :: |channels| <= i < |r.events| ==>
            IsDatagram(r.events[i], channels) || (i == |r.events| - 1 && r.ending != Polling && r.events[i] == Term(end)))
  {
    var r := Receive(channels, Complete, start, batches, end);
    var p := Poll(channels, batches);
    PollDatagrams(channels, batches);
    forall i | 0 <= i < |channels| ensures r.events[i] == Sample(start, channels[i], Zero) {
      ZerosAt(start, channels, i);
    }
    forall i | |channels| <= i < |channels| + |p.events| ensures IsDatagram(r.events[i], channels) {
      assert r.events[i] == p.events[i - |channels|];
    }
  }

  /** Term is put at most once, and only as the last event. It is put
      whenever the receiver leaves its loop, by the wake-up descriptor or by
      an exception while reading, and whenever setup raises inside the `try`
      without the `finally` block raising too. While it is still polling no
      Term has been put. */
  lemma TermOnceLast(channels: seq<Channel>, setup: Setup, start: real, batches: seq<Batch>, end: real)
    ensures var r := Receive(channels, setup, start, batches, end);
      && (r.ending != Polling && SetupEnds(|channels|, setup) != Escaped ==>
            |r.events| > 0 && r.events[|r.events| - 1] == Term(end))
      && (forall i :: 0 <= i < |r.events| && r.events[i].Term? ==> r.ending != Polling && i == |r.events| - 1)
  {
    if SetupEnds(|channels|, setup) == Opened {
      EmissionOrder(channels, start, batches, end);
    }
  }

  /** A failure while opening a socket or registering the wake-up descriptor
      puts no Sample at all, only Term, and lets the exception through. */
  lemma SetupFailurePutsOnlyTerm(channels: seq<Channel>, k: nat, start: real, batches: seq<Batch>, end: real)
    requires k < |channels|
    ensures Receive(channels, OpenFails(k), start, batches, end) == Emission([Term(end)], Raised)
    ensures Receive(channels, WakeFails, start, batches, end) == Emission([Term(end)], Raised)
  {
  }

  /** A failure of `select.epoll()`, or of `epoll.register` for a channel's
      socket, puts nothing on the queue, not even Term. The worker then only
      ever receives the ping thread's Ticks, and it never stops. */
  lemma SetupEscapes(channels: seq<Channel>, k: nat, start: real, batches: seq<Batch>, end: real,
                     s: Worker.State, ticks: seq<Event>)
    requires k < |channels|
    requires forall i :: 0 <= i < |ticks| ==> ticks[i].Tick?
    ensures Receive(channels, EpollFails, start, batches, end) == Emission([], Raised)
    ensures var r := Receive(channels, RegisterFails(k), start, batches, end);
      r == Emission([], Raised) && Worker.Consume(s, r.events + ticks).stop == Worker.Waiting
  {
    assert [] + ticks == ticks;
    TicksNeverStop(s, ticks);
  }

  /** However many Ticks arrive, the worker prints them and waits for more. */
  lemma {:induction false} TicksNeverStop(s: Worker.State, ticks: seq<Event>)
    requires forall i :: 0 <= i < |ticks| ==> ticks[i].Tick?
    ensures Worker.Consume(s, ticks).stop == Worker.Waiting
    ensures Worker.Consume(s, ticks).consumed == |ticks|
    decreases |ticks|
  {
    if ticks != [] {
      assert ticks[0].Tick?;
      var s' := Worker.Reset(s);
      assert Worker.Step(s, ticks[0]).Next? && Worker.Step(s, ticks[0]).state == s';
      TicksNeverStop(s', ticks[1..]);
    }
  }

  /** With the registration order corrected, Term ends every emission that
      leaves the `try`, so a worker that takes the receiver's output stops. */
  lemma FixedPutsTerm(channels: seq<Channel>, setup: Setup, start: real, batches: seq<Batch>, end: real, s: Worker.State)
    requires setup != EpollFails
    ensures var r := ReceiveFixed(channels, setup, start, batches, end);
      && (r.ending != Polling ==> |r.events| > 0 && r.events[|r.events| - 1] == Term(end))
      && (r.ending != Polling ==> Worker.Consume(s, r.events).stop != Worker.Waiting)
  {
    var r := ReceiveFixed(channels, setup, start, batches, end);
    if SetupEndsFixed(|channels|, setup) == Opened {
      EmissionOrder(channels, start, batches, end);
    }
    if r.ending != Polling {
      WorkerProps.TermStops(s, r.events, |r.events| - 1);
    }
  }

  /** The correction changes nothing but the registration-failure path. */
  lemma FixedAgrees(channels: seq<Channel>, setup: Setup, start: real, batches: seq<Batch>, end: real)
    ensures (ReceiveFixed(channels, setup, start, batches, end) == Receive(channels, setup, start, batches, end)) <==>
              !(setup.RegisterFails? && setup.k < |channels|)
  {
  }

  /** Entries after the wake-up descriptor in the same ready list are never
      read (the `break` of core.py:80). */
  lemma {:induction false} WakeHidesRest(channels: seq<Channel>, now: real, pre: seq<Ready>, post: seq<Ready>)
    ensures Drain(channels, now, pre + [Wake] + post) == Drain(channels, now, pre + [Wake])
    decreases |pre|
  {
    if pre == [] {
      assert ([Wake] + post)[0] == Wake;
      assert [Wake][0] == Wake;
    } else {
      assert (pre + [Wake] + post)[0] == pre[0];
      assert (pre + [Wake])[0] == pre[0];
      assert (pre + [Wake] + post)[1..] == pre[1..] + [Wake] + post;
      assert (pre + [Wake])[1..] == pre[1..] + [Wake];
      WakeHidesRest(channels, now, pre[1..], post);
    }
  }

  /** Once the loop is left, later poll results are never looked at. */
  lemma {:induction false} StoppedIgnoresLaterBatches(channels: seq<Channel>, batches: seq<Batch>, more: seq<Batch>)
    requires Poll(channels, batches).ending != Polling
    ensures Poll(channels, batches + more) == Poll(channels, batches)
    decreases |batches|
  {
    assert (batches + more)[0] == batches[0];
    if Drain(channels, batches[0].now, batches[0].ready).ending == Polling {
      assert (batches + more)[1..] == batches[1..] + more;
      StoppedIgnoresLaterBatches(channels, batches[1..], more);
    }
  }

  /** A ready list only datagrams on the channels' sockets. */
  predicate AllData(channels: seq<Channel>, ready: seq<Ready>) {
    forall r :: r in ready ==> r.Data? && r.fd < |channels|
  }

  lemma {:induction false} DrainPolling(channels: seq<Channel>, now: real, ready: seq<Ready>)
    ensures Drain(channels, now, ready).ending == Polling <==> AllData(channels, ready)
    decreases |ready|
  {
    if ready != [] {
      assert ready[0] in ready;
      DrainPolling(channels, now, ready[1..]);
      if AllData(channels, ready[1..]) && ready[0].Data? && ready[0].fd < |channels| {
        forall r | r in ready ensures r.Data? && r.fd < |channels| {
          if r != ready[0] {
            assert r in ready[1..];
          }
        }
      }
    }
  }

  /** The receiver is still in its loop exactly when every entry of every
      ready list so far was a datagram on one of its sockets: no wake-up,
      no failing read, no unknown descriptor. */
  lemma {:induction false} PollingIffOnlyData(channels: seq<Channel>, batches: seq<Batch>)
    ensures Poll(channels, batches).ending == Polling <==>
              forall j :: 0 <= j < |batches| ==> AllData(channels, batches[j].ready)
    decreases |batches|
  {
    if batches != [] {
      DrainPolling(channels, batches[0].now, batches[0].ready);
      PollingIffOnlyData(channels, batches[1..]);
      assert forall j :: 1 <= j < |batches| ==> batches[j] == batches[1..][j - 1];
    }
  }

  /** Every delta the receiver sends is one the worker's packet count can
      rely on: zero for the startup Samples, one packet for each datagram. */
  lemma ReceiverSendsDeltas(channels: seq<Channel>, setup: Setup, start: real, batches: seq<Batch>, end: real)
    ensures WorkerProps.ReceiverDeltas(Receive(channels, setup, start, batches, end).events)
  {
    var r := Receive(channels, setup, start, batches, end);
    if SetupEnds(|channels|, setup) == Opened {
      EmissionOrder(channels, start, batches, end);
      forall e | e in r.events && e.Sample? ensures e.aggr == Zero || e.aggr.packets == 1 {
        var i :| 0 <= i < |r.events| && r.events[i] == e;
      }
    }
  }

  /** The startup Samples register every channel with the worker while its
      dictionary is still a defaultdict: afterwards each channel is a key with
      an empty accumulator and nothing has been printed. This is why a
      datagram Sample for one of the channels cannot make the worker raise
      KeyError after the first Tick. */
  lemma ZerosRegister(start: real, channels: seq<Channel>)
    ensures var r := Worker.Consume(Worker.Initial, Zeros(start, channels));
      && r.stop == Worker.Waiting && r.records == [] && r.consumed == |channels|
      && (forall c :: c in r.final.stats <==> c in channels)
      && (forall c :: Worker.Count(r.final, c) == Zero)
  {
    var zs := Zeros(start, channels);
    ZerosAreZeroSamples(start, channels);
    ZeroSamplesAccepted(Worker.Initial, zs);
    ZerosRun(zs);
    var a := WorkerProps.Absorb(Worker.Initial, zs);
    AbsorbKeys(Worker.Initial, zs);
    ChannelsOfZeros(start, channels);
    assert forall c :: c in a.stats <==> c in channels;
    AbsorbZeroCounts(Worker.Initial, zs);
  }

  /** The worker takes a window of zero Samples silently. */
  lemma ZerosRun(zs: seq<Event>)
    requires WorkerProps.Accepted(Worker.Initial, zs)
    ensures Worker.Consume(Worker.Initial, zs) == Worker.RunResult(WorkerProps.Absorb(Worker.Initial, zs), [], |zs|, Worker.Waiting)
  {
    WorkerProps.ConsumeWindow(Worker.Initial, zs, []);
    assert zs + [] == zs;
  }

  lemma AbsorbZeroCounts(s: Worker.State, window: seq<Event>)
    requires ZeroSamples(window) && WorkerProps.Accepted(s, window)
    ensures forall c :: Worker.Count(WorkerProps.Absorb(s, window), c) == Worker.Count(s, c)
  {
    forall c ensures Worker.Count(WorkerProps.Absorb(s, window), c) == Worker.Count(s, c) {
      WorkerProps.AbsorbSums(s, window, c);
      ZeroSums(window, c);
      PlusZero(Worker.Count(s, c));
    }
  }

  lemma PlusZero(a: Counts)
    ensures a.Plus(Zero) == a
  {
  }

  lemma ZeroSamplesAccepted(s: Worker.State, window: seq<Event>)
    requires s.lazy && ZeroSamples(window)
    ensures WorkerProps.Accepted(s, window)
  {
  }

  /** Every event of `window` is a Sample with a zero delta. */
  ghost predicate ZeroSamples(window: seq<Event>) {
    forall e :: e in window ==> e.Sample? && e.aggr == Zero
  }

  /** The channels the Samples of `window` carry. */
  function Channels(window: seq<Event>): set<Channel>
    decreases |window|
  {
    if window == [] then {}
    else (if window[0].Sample? then {window[0].channel} else {}) + Channels(window[1..])
  }

  lemma {:induction false} ZerosAreZeroSamples(start: real, channels: seq<Channel>)
    ensures ZeroSamples(Zeros(start, channels))
  {
    var zs := Zeros(start, channels);
    forall e | e in zs ensures e.Sample? && e.aggr == Zero {
      var i :| 0 <= i < |zs| && zs[i] == e;
      ZerosAt(start, channels, i);
    }
  }

  lemma {:induction false} ChannelsOfZeros(start: real, channels: seq<Channel>)
    ensures forall c :: c in Channels(Zeros(start, channels)) <==> c in channels
    decreases |channels|
  {
    if channels != [] {
      ChannelsOfZeros(start, channels[1..]);
      forall c ensures c in channels <==> c == channels[0] || c in channels[1..] {
        if c in channels && c != channels[0] {
          var i :| 0 <= i < |channels| && channels[i] == c;
          assert channels[1..][i - 1] == c;
        }
      }
    }
  }

  /** Zero deltas add up to zero. */
  lemma {:induction false} ZeroSums(window: seq<Event>, c: Channel)
    requires ZeroSamples(window)
    ensures WorkerProps.SumFor(window, c) == Zero
    decreases |window|
  {
    if window != [] {
      assert window[0] in window;
      ZeroSums(window[1..], c);
    }
  }

  /** While the dictionary is a defaultdict, absorbing a window adds exactly
      the window's channels as keys. */
  lemma {:induction false} AbsorbKeys(s: Worker.State, window: seq<Event>)
    requires s.lazy && WorkerProps.Accepted(s, window)
    ensures forall c :: c in WorkerProps.Absorb(s, window).stats <==> c in s.stats || c in Channels(window)
    decreases |window|
  {
    if window != [] {
      var e := window[0];
      assert e in window;
      var s' := Worker.AddSample(s, e.channel, e.aggr).state;
      WorkerProps.AbsorbUnfold(s, window);
      AbsorbKeys(s', window[1..]);
      forall c ensures c in WorkerProps.Absorb(s, window).stats <==> c in s.stats || c in Channels(window) {
        assert c in s'.stats <==> c in s.stats || c == e.channel;
        assert c in Channels(window) <==> c == e.channel || c in Channels(window[1..]);
      }
    }
  }
}
