/** The order in which `receiver` (src/mcstat/core.py:53-90) puts events on
    the queue, over an abstract script of what the operating system does.

    Opening a socket, `epoll.poll()`, `recv_into` and the clock are not
    modelled; instead the receiver is given the outcome of the setup phase,
    the sequence of ready lists `poll()` returns (each with the time read
    just after it), and the time read in the `finally` block. Socket `i`
    is the socket of `channels[i]`, and its file descriptor is `i`. */
module Receiver {
  import opened Domain

  /** Size of the receive buffer, `bytearray(4096)` (core.py:58). */
  const BufferSize: nat := 4096

  /** One entry of a ready list returned by `epoll.poll()`. */
  datatype Ready =
    | Data(fd: nat, size: nat)   // a datagram of `size` bytes waits on socket `fd`
    | Fault(fd: nat)             // reading socket `fd` raises
    | Wake                       // the wake-up descriptor is readable

  /** One return of `epoll.poll()` and the time read right after it (core.py:75-76). */
  datatype Batch = Batch(now: real, ready: seq<Ready>)

  /** Where the setup of core.py:56-66 raises, if it does: `select.epoll()`
      before the `try`; opening the socket of `channels[k]`; registering the
      socket of `channels[k]`, which is already in `socks_map` by then; or
      registering the wake-up descriptor. A failure at a `k` with no channel
      there is never reached. */
  datatype Setup =
    | Complete
    | EpollFails
    | OpenFails(k: nat)
    | RegisterFails(k: nat)
    | WakeFails

  /** How setup ends: every socket registered; an exception that the
      `finally` block unwinds, putting Term; or an exception that escapes
      without Term, because it came before the `try` or because the `finally`
      block itself raised. */
  datatype SetupEnd = Opened | Unwound | Escaped

  /** How setup ends for `n` channels. A registration failure leaves a socket
      in `socks_map` that was never registered, so the `finally` block's
      `epoll.unregister` of it raises ENOENT before Term is put (core.py:85-90). */
  function SetupEnds(n: nat, setup: Setup): SetupEnd {
    match setup
    case Complete => Opened
    case EpollFails => Escaped
    case OpenFails(k) => if k < n then Unwound else Opened
    case RegisterFails(k) => if k < n then Escaped else Opened
    case WakeFails => Unwound
  }

  /** How setup would end had each socket entered `socks_map` only once it
      was registered: a registration failure then unwinds like any other. */
  function SetupEndsFixed(n: nat, setup: Setup): SetupEnd {
    match setup
    case Complete => Opened
    case EpollFails => Escaped
    case OpenFails(k) => if k < n then Unwound else Opened
    case RegisterFails(k) => if k < n then Unwound else Opened
    case WakeFails => Unwound
  }

  /** How far the receiver got: still polling when the script ran out, left
      the loop because of the wake-up descriptor, or raised: in the loop, or
      during setup. */
  datatype Ending = Polling | Woken | Raised

  /** What the receiver put on the queue, in order, and how it ended. */
  datatype Emission = Emission(events: seq<Event>, ending: Ending)

  function Min(a: int, b: int): int {
    if a <= b then a else b
  }

  /** The Sample for one datagram: `recv_into` fills at most the buffer. */
  function DatagramSample(now: real, c: Channel, size: nat): Event {
    Sample(now, c, Counts(1, Min(size, BufferSize)))
  }

  function Prepend(e: Event, r: Emission): Emission {
    Emission([e] + r.events, r.ending)
  }

  /** The `for fileno, event in events` loop of core.py:77-83 over one ready
      list. A descriptor that is not in `socks_map` raises KeyError. */
  function Drain(channels: seq<Channel>, now: real, ready: seq<Ready>): Emission
    decreases |ready|
  {
    if ready == [] then Emission([], Polling)
    else match ready[0]
      case Wake => Emission([], Woken)
      case Fault(_) => Emission([], Raised)
      case Data(fd, size) =>
        if fd < |channels| then Prepend(DatagramSample(now, channels[fd], size), Drain(channels, now, ready[1..]))
        else Emission([], Raised)
  }

  /** The `while loop` of core.py:74-83 over the script of poll results. */
  function Poll(channels: seq<Channel>, batches: seq<Batch>): Emission
    decreases |batches|
  {
    if batches == [] then Emission([], Polling)
    else
      var d := Drain(channels, batches[0].now, batches[0].ready);
      if d.ending == Polling then
        var rest := Poll(channels, batches[1..]);
        Emission(d.events + rest.events, rest.ending)
      else d
  }

  /** One zero-delta Sample per channel, in `socks_map` order (core.py:68-70). */
  function Zeros(now: real, channels: seq<Channel>): (r: seq<Event>)
    ensures |r| == |channels|
  {
    if channels == [] then [] else [Sample(now, channels[0], Zero)] + Zeros(now, channels[1..])
  }

  /** Everything `receiver` puts on the queue. */
  function Receive(channels: seq<Channel>, setup: Setup, start: real, batches: seq<Batch>, end: real): Emission {
    Emit(channels, SetupEnds(|channels|, setup), start, batches, end)
  }

  /** What the receiver would put with the registration order corrected. */
  function ReceiveFixed(channels: seq<Channel>, setup: Setup, start: real, batches: seq<Batch>, end: real): Emission {
    Emit(channels, SetupEndsFixed(|channels|, setup), start, batches, end)
  }

  /** The events put after setup ended as `how`. */
  function Emit(channels: seq<Channel>, how: SetupEnd, start: real, batches: seq<Batch>, end: real): Emission {
    match how
    case Escaped => Emission([], Raised)
    case Unwound => Emission([Term(end)], Raised)
    case Opened =>
      var p := Poll(channels, batches);
      var events := Zeros(start, channels) + p.events;
      if p.ending == Polling then Emission(events, Polling)
      else Emission(events + [Term(end)], p.ending)
  }

  /** `receiver(channels, queue, wake_up_fd)` with the queue as the sequence
      it returns. */
  method Run(channels: seq<Channel>, setup: Setup, start: real, batches: seq<Batch>, end: real)
    returns (queue: seq<Event>, ending: Ending)
    ensures Emission(queue, ending) == Receive(channels, setup, start, batches, end)
  {
    queue := [];
    ending := Raised;
    if setup == EpollFails {
      return;
    }
    var socks, registered, ok := OpenAll(channels, setup);
    if !ok {
      var clean := Unwind(|channels|, socks, registered);
      if clean {
        queue := [Term(end)];
      }
      return;
    }
    ending := Polling;

    queue := PutZeros(channels, socks, start);

    ghost var zeros := queue;
    var b := 0;
    var loop := true;
    while loop && b < |batches|
      invariant 0 <= b <= |batches|
      invariant ending == Polling || ending == Raised
      invariant ending == Raised ==> loop && b == |batches|
      invariant loop && ending == Polling ==> Glue(zeros, Poll(channels, batches)) == Glue(queue, Poll(channels, batches[b..]))
      invariant !loop ==> Glue(zeros, Poll(channels, batches)) == Emission(queue, Woken)
      invariant ending == Raised ==> Glue(zeros, Poll(channels, batches)) == Emission(queue, Raised)
    {
      var out, e := ReadReady(channels, socks, batches[b].now, batches[b].ready);
      PollStep(channels, batches, b, queue, out, e);
      queue := queue + out;
      if e == Woken {
        loop := false;
      } else if e == Raised {
        ending := Raised;
        b := |batches|;
      } else {
        b := b + 1;
      }
    }
    if loop && ending == Polling {
      assert batches[b..] == [] && queue + [] == queue;
    }
    ghost var stop := if !loop then Woken else ending;
    assert Glue(zeros, Poll(channels, batches)) == Emission(queue, stop);
    ghost var polled := queue;
    if !loop || ending == Raised {
      ending := if loop then Raised else Woken;
      var clean := Unwind(|channels|, socks, registered);
      if clean {
        queue := queue + [Term(end)];
      }
    }
    Finish(channels, start, batches, end, polled, stop);
  }

  /** The setup loop of core.py:61-66: a socket per channel, put in
      `socks_map` under its descriptor and then registered, and at the end
      the wake-up descriptor. `registered` is what `epoll` holds. */
  method OpenAll(channels: seq<Channel>, setup: Setup) returns (socks: map<nat, Channel>, registered: set<nat>, ok: bool)
    requires setup != EpollFails
    ensures ok <==> SetupEnds(|channels|, setup) == Opened
    ensures forall fd :: fd in socks ==> fd < |channels| && socks[fd] == channels[fd]
    ensures ok ==> forall fd: nat :: fd < |channels| ==> fd in socks
    ensures (forall fd :: fd in socks ==> fd in registered) <==> SetupEnds(|channels|, setup) != Escaped
  {
    socks, registered := map[], {};
    var i := 0;
    while i < |channels|
      invariant 0 <= i <= |channels|
      invariant setup.OpenFails? ==> i <= setup.k
      invariant setup.RegisterFails? ==> i <= setup.k
      invariant forall fd: nat :: (fd in socks <==> fd < i) && (fd in socks ==> socks[fd] == channels[fd])
      invariant registered == socks.Keys
    {
      if setup == OpenFails(i) {
        return socks, registered, false;
      }
      socks := socks[i := channels[i]];
      if setup == RegisterFails(i) {
        assert i !in registered;
        return socks, registered, false;
      }
      registered := registered + {i};
      i := i + 1;
    }
    ok := setup != WakeFails;
  }

  /** The unregistering loop of the `finally` block (core.py:85-87):
      `epoll.unregister` of a descriptor `epoll` does not hold raises, and
      Term is put only when every socket in `socks_map` was unregistered. */
  method Unwind(n: nat, socks: map<nat, Channel>, registered: set<nat>) returns (clean: bool)
    requires forall fd :: fd in socks ==> fd < n
    ensures clean <==> forall fd :: fd in socks ==> fd in registered
  {
    var j := 0;
    while j < n
      invariant 0 <= j <= n
      invariant forall fd :: fd in socks && fd < j ==> fd in registered
    {
      if j in socks && j !in registered {
        return false;
      }
      j := j + 1;
    }
    return true;
  }

  /** The loop of core.py:69-70: one zero-delta Sample per socket, in
      `socks_map` order. */
  method PutZeros(channels: seq<Channel>, socks: map<nat, Channel>, now: real) returns (queue: seq<Event>)
    requires forall fd: nat :: (fd in socks <==> fd < |channels|) && (fd in socks ==> socks[fd] == channels[fd])
    ensures queue == Zeros(now, channels)
  {
    queue := [];
    var j := 0;
    while j < |channels|
      invariant 0 <= j <= |channels|
      invariant queue == Zeros(now, channels[..j])
    {
      queue := queue + [Sample(now, socks[j], Zero)];
      ZerosSnoc(now, channels[..j], channels[j]);
      assert channels[..j + 1] == channels[..j] + [channels[j]];
      j := j + 1;
    }
    assert channels[..j] == channels;
  }

  /** The `for fileno, event in events` loop of core.py:77-83 over one
      ready list; `e` tells why it stopped. */
  method ReadReady(channels: seq<Channel>, socks: map<nat, Channel>, now: real, ready: seq<Ready>)
    returns (out: seq<Event>, e: Ending)
    requires forall fd: nat :: (fd in socks <==> fd < |channels|) && (fd in socks ==> socks[fd] == channels[fd])
    ensures Emission(out, e) == Drain(channels, now, ready)
  {
    out, e := [], Polling;
    var k := 0;
    while k < |ready|
      invariant 0 <= k <= |ready|
      invariant Drain(channels, now, ready) == Glue(out, Drain(channels, now, ready[k..]))
    {
      var item := ready[k];
      if item.Wake? {
        DrainWake(channels, now, ready, k);
        e := Woken;
        return;
      } else if item.Fault? || item.fd !in socks {
        DrainRaise(channels, now, ready, k);
        e := Raised;
        return;
      }
      DrainData(channels, now, ready, k, out);
      out := out + [DatagramSample(now, socks[item.fd], item.size)];
      k := k + 1;
    }
  }

  lemma Finish(channels: seq<Channel>, start: real, batches: seq<Batch>, end: real, queue: seq<Event>, e: Ending)
    requires Glue(Zeros(start, channels), Poll(channels, batches)) == Emission(queue, e)
    ensures Emit(channels, Opened, start, batches, end) ==
              if e == Polling then Emission(queue, Polling) else Emission(queue + [Term(end)], e)
  {
  }

  /** An emission that first put `events` and then went on as `r`. */
  function Glue(events: seq<Event>, r: Emission): Emission {
    Emission(events + r.events, r.ending)
  }

  lemma {:induction false} ZerosSnoc(now: real, channels: seq<Channel>, c: Channel)
    ensures Zeros(now, channels + [c]) == Zeros(now, channels) + [Sample(now, c, Zero)]
    decreases |channels|
  {
    if channels == [] {
      assert Zeros(now, [c]) == [Sample(now, c, Zero)] + Zeros(now, []);
    } else {
      assert (channels + [c])[1..] == channels[1..] + [c];
      ZerosSnoc(now, channels[1..], c);
    }
  }

  lemma DrainAt(channels: seq<Channel>, now: real, ready: seq<Ready>, k: nat)
    requires k < |ready|
    ensures ready[k].Wake? ==> Drain(channels, now, ready[k..]) == Emission([], Woken)
    ensures ready[k].Fault? ==> Drain(channels, now, ready[k..]) == Emission([], Raised)
    ensures ready[k].Data? ==>
              (Drain(channels, now, ready[k..]) ==
                 if ready[k].fd < |channels|
                 then Prepend(DatagramSample(now, channels[ready[k].fd], ready[k].size), Drain(channels, now, ready[k + 1..]))
                 else Emission([], Raised))
  {
    assert ready[k..][0] == ready[k];
    assert ready[k..][1..] == ready[k + 1..];
  }

  lemma DrainWake(channels: seq<Channel>, now: real, ready: seq<Ready>, k: nat)
    requires k < |ready| && ready[k] == Wake
    ensures Drain(channels, now, ready[k..]) == Emission([], Woken)
  {
    DrainAt(channels, now, ready, k);
  }

  lemma DrainRaise(channels: seq<Channel>, now: real, ready: seq<Ready>, k: nat)
    requires k < |ready|
    requires ready[k].Fault? || (ready[k].Data? && ready[k].fd >= |channels|)
    ensures Drain(channels, now, ready[k..]) == Emission([], Raised)
  {
    DrainAt(channels, now, ready, k);
  }

  lemma DrainData(channels: seq<Channel>, now: real, ready: seq<Ready>, k: nat, out: seq<Event>)
    requires k < |ready| && ready[k].Data? && ready[k].fd < |channels|
    requires Drain(channels, now, ready) == Glue(out, Drain(channels, now, ready[k..]))
    ensures var x := DatagramSample(now, channels[ready[k].fd], ready[k].size);
      Drain(channels, now, ready) == Glue(out + [x], Drain(channels, now, ready[k + 1..]))
  {
    DrainAt(channels, now, ready, k);
    var x := DatagramSample(now, channels[ready[k].fd], ready[k].size);
    var rest := Drain(channels, now, ready[k + 1..]);
    assert out + ([x] + rest.events) == (out + [x]) + rest.events;
  }

  /** One pass of the outer loop over the batch `b`, whose ready list put
      `mine` on the queue and ended as `e`. */
  lemma PollStep(channels: seq<Channel>, batches: seq<Batch>, b: nat, head: seq<Event>, mine: seq<Event>, e: Ending)
    requires b < |batches|
    requires Drain(channels, batches[b].now, batches[b].ready) == Emission(mine, e)
    ensures e != Polling ==> Glue(head, Poll(channels, batches[b..])) == Emission(head + mine, e)
    ensures e == Polling ==> Glue(head, Poll(channels, batches[b..])) == Glue(head + mine, Poll(channels, batches[b + 1..]))
  {
    PollAt(channels, batches, b);
    if e == Polling {
      var rest := Poll(channels, batches[b + 1..]);
      assert head + (mine + rest.events) == (head + mine) + rest.events;
    }
  }

  lemma PollAt(channels: seq<Channel>, batches: seq<Batch>, b: nat)
    requires b < |batches|
    ensures var d := Drain(channels, batches[b].now, batches[b].ready);
      Poll(channels, batches[b..]) == if d.ending == Polling then Glue(d.events, Poll(channels, batches[b + 1..])) else d
  {
    assert batches[b..][0] == batches[b];
    assert batches[b..][1..] == batches[b + 1..];
  }
}
