# mcstat in Dafny

mcstat watches a set of IP multicast channels. A channel is a multicast
address and a UDP port. The program counts the packets and bytes that arrive
on each channel and prints the counts once per interval. This project models
its sequential core and proves properties of it.

- **Events and accumulators** (`Domain`). The events passed between threads
  are `Term`, `Tick`, `Sample` (core.py's `Stat`) and `MetricEvent`. `Aggr` is
  the mutable accumulator, with its in-place `+=`.
- **Metrics** (`Stat`). The bitrate and packet-rate formula, over exact reals.
- **Worker** (`Worker`, `WorkerProps`). The aggregator loop. A Sample adds its
  delta into the accumulator of its channel. A Tick prints one line per known
  channel and then swaps the `defaultdict` for a plain dict with every
  accumulator reset. A Term, or any exception the bare `except` catches, ends
  the loop. `Step` and `Consume` specify the loop as functions. The class
  `Aggregator` runs it imperatively and is proved equal to `Consume`.
- **Receiver** (`Receiver`, `ReceiverProps`). The order in which the receiver
  puts events on the queue. The operating system is given as a script: where
  setup raised, if it did, the ready lists `epoll.poll()` returned, and the
  times read. Setup can fail in `select.epoll()`, in opening a socket, in
  registering a socket, or in registering the wake-up descriptor. The
  `finally` block's unregistering loop is modelled, so a registration failure
  ends without Term (see "## Findings").
- **Address parsing** (`Text`, `Bits`, `Net`). The integer, mask and CIDR
  arithmetic of `net.py`, over a strict model of `socket.inet_aton` and
  `int()`. All masking happens on 32-bit words. This is exact, because every
  value net.py masks is below 2^32.
- **Command line and configuration** (`Cli`, `Config`). Both copies of the
  `multicast_address` argument type, and the settings `main` and `merge`
  derive from the parsed arguments. Also the `is_multicast` assertion loop at
  the start of `main2`.

`cidr_to_mask` counts its `/bits` suffix as host bits to clear, not as a
prefix length. So `is_multicast`, which tests against `"224.0.0.0/28"`,
accepts exactly the block 224.0.0.0 to 239.255.255.255
(`Net.MulticastRange`).

## Model

| member | source | states |
|---|---|---|
| Domain.Event.Timestamp | src/mcstat/domain.py:35-40 | A MetricEvent's timestamp is its metric's; every other event keeps the timestamp it was built with |
| Domain.Aggr.constructor | src/mcstat/domain.py:45-47 | A new accumulator holds exactly the packets and bytes it was given |
| Domain.Aggr.Empty | src/mcstat/domain.py:53-55 | `Aggr.empty()` is a fresh accumulator at (0, 0) |
| Domain.Aggr.IAdd | src/mcstat/domain.py:49-51 | `a += b` adds both fields of `b` into `a` in place. It leaves a distinct `b` unchanged and returns None. Non-negative inputs give non-negative, non-decreasing fields |
| Stat.Metrics | src/mcstat/stat.py:4-19 | Timestamp and channel pass through; bitrate × interval × 1024 = 8 × bytes; packet rate × interval = packets |
| Stat.ZeroRates | src/mcstat/stat.py:17-18 | An empty accumulator gives zero bitrate and zero packet rate for any positive interval |
| Stat.Monotone | src/mcstat/stat.py:17-18 | For a fixed positive interval, bitrate grows with bytes and packet rate with packets |
| Stat.TenDatagrams | src/mcstat/stat.py:17-18 | Ten 100-byte datagrams in one second give 10 packets/s and 7.8125 kbit/s |
| Worker.ReportOnePerChannel | src/mcstat/core.py:103-108 | A Tick prints one line per key of `stats`, each with the tick's timestamp and that key's packets and bytes. No key is printed twice, and every key is printed |
| Worker.Reset | src/mcstat/core.py:109 | After a Tick the keys are the same, in the same order; every accumulator is (0, 0); the dict is no longer a defaultdict |
| Worker.AddSample | src/mcstat/core.py:110-112 | A Sample adds its delta to its channel only. An unknown channel is created empty while `stats` is a defaultdict and raises KeyError once it is a plain dict |
| Worker.Step | src/mcstat/core.py:97-113 | One event stops the loop with Terminated exactly when it is a Term |
| Worker.StepPreservesWf | src/mcstat/core.py:97-113 | Handling an event keeps the keys distinct and equal to the dict's domain |
| Worker.Consume | src/mcstat/core.py:96-115 | The loop takes at most the queued events, and it takes all of them unless something stops it |
| Worker.ConsumeFacts | src/mcstat/core.py:96-115 | The loop keeps `stats` well formed, stops on the event that stops it, and takes no event after a Term |
| Worker.Aggregator.constructor | src/mcstat/core.py:94 | The worker starts with an empty defaultdict |
| Worker.Aggregator.PrintTick | src/mcstat/core.py:105-108 | The printing loop produces exactly `Report`, one line per key in key order |
| Worker.Aggregator.Handle | src/mcstat/core.py:97-113 | One pass of the loop body does what `Step` specifies. A stopping event leaves the state untouched |
| Worker.Aggregator.Run | src/mcstat/core.py:96-115 | The `while True` loop over a queue content returns what `Consume` specifies: lines printed, events taken, why it stopped, and the final dict |
| WorkerProps.StopIgnoresLaterEvents | src/mcstat/core.py:99-100 | Once the worker has stopped, events queued later are never taken |
| WorkerProps.TermStops | src/mcstat/core.py:99-100 | A Term at position k stops the worker after at most k + 1 events |
| WorkerProps.TermFirst | src/mcstat/core.py:98-100 | A Term at the head of the queue is taken alone, prints nothing and leaves `stats` as it was |
| WorkerProps.ConsecutiveTicks | src/mcstat/core.py:103-109 | Of two Ticks in a row, the first prints the accumulated counts and the second prints (0, 0) for every known channel. The key set is unchanged |
| WorkerProps.UnknownChannelAfterTick | src/mcstat/core.py:109-115 | After a Tick, a Sample for a new channel ends the worker silently with KeyError, whatever is still queued |
| WorkerProps.UnknownChannelBeforeTick | src/mcstat/core.py:94 | Before any Tick, a Sample for a new channel adds that channel with its delta |
| WorkerProps.Absorb | src/mcstat/core.py:110-112 | A window of Samples never removes a key. On a plain dict it keeps the key set and order |
| WorkerProps.ConsumeWindow | src/mcstat/core.py:110-113 | A window of accepted Samples is taken whole and prints nothing |
| WorkerProps.AbsorbSums | src/mcstat/core.py:111-112 | After a window, each accumulator is its old value plus the sum of its channel's deltas |
| WorkerProps.WindowReport | src/mcstat/core.py:103-112 | From a reset dict, a window of Samples followed by a Tick prints, for each channel in key order, the sum of that window's deltas. It leaves the dict reset again |
| WorkerProps.WindowTotals | src/mcstat/core.py:105-109 | The report at the end of a window is the per-channel sums of the window |
| WorkerProps.WindowTotal | src/mcstat/core.py:109-112 | From a reset dict, each accumulator after a window is exactly its channel's sum |
| WorkerProps.SumCountsDatagrams | src/mcstat/core.py:111-112 | Over Samples with the receiver's deltas, the summed packet count is the number of datagrams |
| WorkerProps.WindowPacketRate | src/mcstat/stat.py:18 | The packet rate for a window of receiver Samples is the number of datagrams divided by the interval |
| Receiver.Run | src/mcstat/core.py:53-90 | The receiver puts on the queue exactly what `Receive` specifies, and ends the same way. This covers every setup failure: before the `try`, unwound by `finally`, or raising again in `finally` |
| Receiver.OpenAll | src/mcstat/core.py:60-66 | Setup succeeds exactly when every socket and the wake-up fd are registered. `socks_map` maps each descriptor it holds to its channel. Every socket in it is registered unless a registration failed |
| Receiver.Unwind | src/mcstat/core.py:85-87 | The unregistering loop of `finally` gets through exactly when every socket in `socks_map` is registered with `epoll` |
| Receiver.PutZeros | src/mcstat/core.py:68-70 | The startup loop puts one zero-delta Sample per channel, in `socks_map` order |
| Receiver.ReadReady | src/mcstat/core.py:77-83 | The loop over one ready list puts what `Drain` specifies and stops the way `Drain` says |
| ReceiverProps.ZerosAt | src/mcstat/core.py:69-70 | The i-th startup Sample is a zero delta for the i-th channel, stamped with the start time |
| ReceiverProps.DrainDatagrams | src/mcstat/core.py:81-83 | Each datagram Sample from one ready list is (1, n) with n ≤ 4096, for a known channel, stamped with that poll's time |
| ReceiverProps.PollDatagrams | src/mcstat/core.py:74-83 | Every event the polling loop puts is such a datagram Sample |
| ReceiverProps.EmissionOrder | src/mcstat/core.py:68-90 | After a successful setup the order is: one zero Sample per channel, then datagram Samples only, then Term last when the loop ended |
| ReceiverProps.TermOnceLast | src/mcstat/core.py:84-90 | Term is put at most once, only as the last event, and never while polling. It is put whenever the receiver stops, unless setup raised before the `try` or the `finally` block raised itself |
| ReceiverProps.SetupFailurePutsOnlyTerm | src/mcstat/core.py:60-90 | A failure opening a socket or registering the wake-up fd puts only Term, and the exception propagates |
| ReceiverProps.SetupEscapes | src/mcstat/core.py:56-90 | A failure of `select.epoll()` or of registering a channel's socket puts nothing at all. The worker, fed only Ticks afterwards, never stops |
| ReceiverProps.TicksNeverStop | src/mcstat/core.py:103-109 | A worker that receives only Ticks takes them all and keeps waiting |
| ReceiverProps.FixedPutsTerm | src/mcstat/core.py:60-90 | With each socket entering `socks_map` only once registered, every emission that leaves the `try` ends with Term, and the worker taking it stops |
| ReceiverProps.FixedAgrees | src/mcstat/core.py:63-64 | The corrected order changes the emission exactly on the registration-failure path |
| ReceiverProps.WakeHidesRest | src/mcstat/core.py:77-80 | Entries after the wake-up fd in the same ready list are never read |
| ReceiverProps.StoppedIgnoresLaterBatches | src/mcstat/core.py:74-80 | Once the loop is left, later poll results are never looked at |
| ReceiverProps.DrainPolling | src/mcstat/core.py:77-83 | A ready list keeps the loop going exactly when every entry is a readable datagram on a known socket |
| ReceiverProps.PollingIffOnlyData | src/mcstat/core.py:74-83 | The receiver is still polling exactly when every ready list held only datagrams on known sockets |
| ReceiverProps.ReceiverSendsDeltas | src/mcstat/core.py:70 | Every delta the receiver sends is zero or one packet |
| ReceiverProps.ZerosRegister | src/mcstat/core.py:68-70 | The startup Samples make the worker know exactly the receiver's channels, all at (0, 0), with nothing printed |
| ReceiverProps.AbsorbKeys | src/mcstat/core.py:94 | While `stats` is a defaultdict, a window adds exactly its Samples' channels as keys |
| Text.SplitOnceParts | src/mcstat/main.py:88 | `s.split(c, 1)` gives one piece exactly when `c` does not occur. Otherwise it gives the `c`-free text before the first `c` and the rest, which rejoin to `s` |
| Text.SplitJoin | src/mcstat/net.py:9 | The pieces of `s.split(c)` hold no `c` and rejoin to `s` |
| Text.IntTextRoundTrip | src/mcstat/main.py:96 | `int(str(i)) == i` for every integer |
| Bits.ClearLowBits | src/mcstat/net.py:13-14 | `(x >> b) << b` keeps exactly the bits of `x` at positions ≥ b |
| Bits.SameHighBits | src/mcstat/net.py:29 | `x & mask == value` for `/b` holds exactly when `x` and the network agree above the low `b` bits |
| Net.InetAton | src/mcstat/net.py:19 | An accepted address gives four bytes, each below 256 |
| Net.AddressChars | src/mcstat/net.py:19 | An accepted address holds only digits and dots |
| Net.DottedIpToInt | src/mcstat/net.py:18-20 | The value is below 2^32. OSError is raised exactly when `inet_aton` rejects the text |
| Net.UnpackFour | src/mcstat/net.py:20 | Four bytes read big-endian are a·2^24 + b·2^16 + c·2^8 + d |
| Net.PackUnpack | src/mcstat/net.py:20 | Unpacking the bytes of a value that fits gives the value |
| Net.UnpackPack | src/mcstat/net.py:20 | Packing the value of some bytes gives the bytes |
| Net.InetAtonQuad | src/mcstat/net.py:19 | `inet_aton` of the dotted text of four bytes gives those bytes |
| Net.DottedValue | src/mcstat/net.py:18-20 | `dotted_ip_to_int("a.b.c.d") = a·2^24 + b·2^16 + c·2^8 + d` |
| Net.DottedRoundTrip | src/mcstat/net.py:18-20 | Every 32-bit value, written as a dotted quad, parses back to itself |
| Net.CidrToMask | src/mcstat/net.py:9 | Text that is not exactly one `/` raises ValueError |
| Net.Masks | src/mcstat/net.py:12-15 | The assertion passes exactly when 0 ≤ bits ≤ 32, else AssertionError. On success `value & mask == value` |
| Net.CidrSteps | src/mcstat/net.py:9-12 | The failure order: the split, then the address (OSError), then the count (ValueError), then the assertion and the shifts |
| Net.CidrMaskBits | src/mcstat/net.py:12-14 | `address/bits` succeeds exactly when 0 ≤ bits ≤ 32. The mask has its low `bits` bits clear and the rest set. The value is the address with its low `bits` bits cleared |
| Net.CidrParses | src/mcstat/net.py:9-11 | The text `a.b.c.d/n` splits and parses to the value of the bytes and n |
| Net.CidrOfBytes | src/mcstat/net.py:5-15 | `cidr_to_mask("a.b.c.d/n")` for n ≤ 32 is the shifted value and mask |
| Net.MatchesCidr | src/mcstat/net.py:23-29 | A malformed cidr propagates its error, and an unparsable address gives False. Otherwise the result is `(ip & mask) == value` |
| Net.MatchesHighBits | src/mcstat/net.py:23-29 | An address matches `ip/bits` exactly when it parses and agrees with `ip` above the low `bits` bits |
| Net.MulticastMask | src/mcstat/net.py:33 | `cidr_to_mask("224.0.0.0/28")` is (0xE0000000, 0xF0000000), so `is_multicast` never raises |
| Net.MulticastRange | src/mcstat/net.py:32-33 | `is_multicast` holds exactly for values in [0xE0000000, 0xF0000000), which are the dotted quads with a first octet of 224 to 239 |
| Net.MulticastExamples | src/mcstat/tests/test_net.py:6-10 | 224.0.0.0 and 239.0.0.0 are multicast; 240.0.0.0 and 223.255.255.255 are not |
| Cli.MulticastAddress | src/mcstat/main.py:87-105 | An accepted pair has a multicast address with no ':' |
| Cli.NoColon | src/mcstat/main.py:88-91 | Text is rejected as "Missing port" exactly when it has no ':' |
| Cli.FirstColon | src/mcstat/main.py:88-105 | Text is cut at the first ':' and the rest is the port. An invalid port is reported before an invalid address. Success gives (prefix, int(rest)) with no port-range check |
| Cli.FormatRoundTrip | src/mcstat/main.py:87-105 | `ip:port` written from a multicast address and any integer parses back to (ip, port) |
| Cli.Dedup | src/mcstat/main.py:155 | `list(set(addr))` has no repeats and the same elements as `addr` |
| Cli.DedupSize | src/mcstat/main.py:155 | Its length is the number of distinct pairs |
| Cli.DedupDistinct | src/mcstat/main.py:155 | A list without repeats comes out with the same length, so it loses no element |
| Cli.LoggingLevel | src/mcstat/main.py:149-152 | DEBUG exactly when verbose, otherwise INFO |
| Cli.Main | src/mcstat/main.py:145-156 | `main` passes on the verbose-dependent level, each distinct pair once, and the interval unchanged |
| Cli.CheckAddresses | src/mcstat/main.py:71-72 | The assertion loop returns the first address that is not multicast, or passes every address |
| Cli.AcceptedAddressesPass | src/mcstat/main.py:71-72 | Addresses that `multicast_address` accepted, after deduplication, never trip `main2`'s assertion |
| Config.MulticastAddress | src/mcstat/config.py:83-109 | config.py's copy agrees with main.py's on every input, so the Cli lemmas hold for it |
| Config.Merge | src/mcstat/config.py:112-134 | DEBUG exactly when verbose, otherwise INFO. `addr` has no repeats and the same elements. `interval` is copied |
| Config.ConfigIgnored | src/mcstat/config.py:128-129 | The configuration file does not affect the result |
| Config.MergeLikeMain | src/mcstat/config.py:123-132 | `merge` settles level, addresses and interval as `main` does, with one address per distinct pair |

## Left out

- Sockets, `epoll`, multicast group membership, `recv_into` and the `fcntl`
  calls (net.py:36-79). These are OS I/O. The receiver instead gets a script
  of setup outcome, ready lists and clock readings. Socket `i` belongs to
  `channels[i]` and has descriptor `i`.
- Threads, `ThreadWithLog`, the ping thread and `signal_to_pipe`
  (main.py:23-84, core.py:118-122). These are concurrency and timing. Queues
  are sequences, and `put_nowait` raising `Full` is not modelled.
- `queue.get()` blocking on an empty queue. A finite queue content ends with
  the stop reason `Waiting` instead. `queue.task_done()` has no observable
  effect here.
- Worker: the dict holds `Counts` values, not shared `Aggr` objects. This is
  exact because the worker never hands an accumulator out. The
  `aggr += event.aggr` that rebinds `aggr` to None is `Domain.Aggr.IAdd`.
- Worker: dictionary iteration order is modelled as insertion order. Python
  2 dicts iterate in hash order, which is not specified.
- Printed lines are `TickRecord` values. The `{:f}` formatting and the
  logging calls are not modelled.
- Stat.Metrics: a zero interval raises ZeroDivisionError in Python. The model
  requires a non-zero interval instead of modelling that exception. Floating
  point is modelled as exact reals.
- Net.InetAton: only strict dotted quads are accepted: four decimal octets,
  no leading zeros, each at most 255. `socket.inet_aton` also accepts shorter
  forms and hexadecimal or octal octets, which the model rejects.
- `int()` is modelled as an optional sign followed by ASCII digits. Python
  also allows surrounding whitespace and underscores.
- Cli.Dedup: `list(set(...))` orders its result by hash. The model keeps the
  last occurrence of each pair. Only the element set and the absence of
  repeats are promised.
- argparse itself (`cmdline`, `parse_commandline`), `load_config`,
  `make_config` and `setup_logging`. These are library glue and file I/O.
  The parsed namespaces are the datatypes `Cli.Args` and `Config.Args`.
- Config.Merge: the `_DB` slots of `Config` are never assigned by `merge`.
  Reading them raises AttributeError; the model's `Settings` leaves them out.
- The database and console backends. They print or call psycopg2.

## Findings

| source | as written | input that shows it | evidently intended | confidence | as-written member | corrected member |
|---|---|---|---|---|---|---|
| src/mcstat/core.py:63-64 | A socket enters `socks_map` before `epoll.register` is called for it. If that registration raises, `finally` calls `epoll.unregister` on an unregistered descriptor, which raises ENOENT, so Term (core.py:90) is never put | two channels, with `epoll.register` raising ENOMEM for the second socket | The `finally` block puts Term whenever the `try` is left, so the worker stops | high; not executed | ReceiverProps.SetupEscapes | ReceiverProps.FixedPutsTerm |

`Receiver.Receive` and `Receiver.Run` model the code as written.
`Receiver.ReceiveFixed` is the corrected receiver. `ReceiverProps.FixedAgrees`
shows that the two differ only on the registration-failure path, so every
other receiver property holds for both.
