/** The command-line side of src/mcstat/main.py: the `multicast_address`
    argument type, the settings `main` derives from the parsed arguments
    (logging level, each distinct address once) and the assertion loop at
    the head of `main2`. */
module Cli {
  import opened Text
  import Net

  /** The `argparse.ArgumentTypeError`s of `multicast_address`, each with
      the text its message quotes. */
  datatype ArgError =
    | MissingPort(text: string)
    | InvalidPort(text: string)
    | InvalidMulticastAddress(text: string)

  datatype Parsed<T> = Accepted(value: T) | Rejected(error: ArgError)

  /** An `(ip, port)` pair as `multicast_address` returns it. */
  type Address = (string, int)

  /** `multicast_address(s)`: split at the first ':', read the port with
      `int()`, then check the address with `is_multicast`. */
  function MulticastAddress(s: string): (r: Parsed<Address>)
    ensures r.Accepted? ==> Net.IsMulticast(r.value.0) && ':' !in r.value.0
  {
    SplitOnceParts(s, ':');
    var chunks := SplitOnce(s, ':');
    if |chunks| == 1 then Rejected(MissingPort(s))
    else
      var addr := chunks[0];
      var portText := chunks[1];
      match ParseInt(portText)
      case None => Rejected(InvalidPort(portText))
      case Some(port) =>
        if Net.IsMulticast(addr) then Accepted((addr, port))
        else Rejected(InvalidMulticastAddress(addr))
  }

  /** Text without ':' is rejected as a missing port, and only such text. */
  lemma NoColon(s: string)
    ensures MulticastAddress(s) == Rejected(MissingPort(s)) <==> ':' !in s
  {
    SplitOnceParts(s, ':');
  }

  /** Text with a ':' is cut at its first ':'; everything after it, further
      colons included, is the port text. A port `int()` rejects is reported
      before an address `is_multicast` rejects, and on success the port is
      whatever integer `int()` read, with no range check. */
  lemma FirstColon(pre: string, post: string)
    requires ':' !in pre
    ensures MulticastAddress(pre + ":" + post) ==
      if ParseInt(post).None? then Rejected(InvalidPort(post))
      else if !Net.IsMulticast(pre) then Rejected(InvalidMulticastAddress(pre))
      else Accepted((pre, ParseInt(post).value))
  {
    var s := pre + ":" + post;
    FindAfter(pre, ':', post);
    assert s[..|pre|] == pre && s[|pre| + 1..] == post;
  }

  /** A multicast address has no ':', since `inet_aton` accepts it. */
  lemma MulticastHasNoColon(addr: string)
    requires Net.IsMulticast(addr)
    ensures ':' !in addr
  {
    Net.MulticastRange(addr);
    Net.AddressChars(addr);
  }

  /** Writing a multicast address and any port as `ip:port` and reading it
      back gives the pair. */
  lemma FormatRoundTrip(addr: string, port: int)
    requires Net.IsMulticast(addr)
    ensures MulticastAddress(addr + ":" + IntText(port)) == Accepted((addr, port))
  {
    MulticastHasNoColon(addr);
    IntTextRoundTrip(port);
    FirstColon(addr, IntText(port));
  }

  predicate Distinct(xs: seq<Address>) {
    forall i, j :: 0 <= i < j < |xs| ==> xs[i] != xs[j]
  }

  /** `list(set(xs))`: every distinct element exactly once. Python's order
      follows the set's hashing; this keeps the last occurrence of each. */
  function Dedup(xs: seq<Address>): (r: seq<Address>)
    ensures forall x :: x in r <==> x in xs
    ensures Distinct(r)
  {
    if xs == [] then []
    else
      var rest := Dedup(xs[1..]);
      if xs[0] in xs[1..] then rest else [xs[0]] + rest
  }

  /** As many addresses come out as there are distinct ones. */
  lemma {:induction false} DedupSize(xs: seq<Address>)
    ensures |Dedup(xs)| == |set x | x in xs|
  {
    if xs != [] {
      DedupSize(xs[1..]);
      var all := set x | x in xs;
      var tail := set x | x in xs[1..];
      assert xs == [xs[0]] + xs[1..];
      assert all == {xs[0]} + tail;
      if xs[0] in xs[1..] {
        assert all == tail;
      } else {
        assert xs[0] !in tail;
        assert |all| == |tail| + 1;
      }
    }
  }

  /** A list with no repeats loses no element: with `Dedup`'s own
      contract, the result holds each of its elements exactly once. */
  lemma {:induction false} DedupDistinct(xs: seq<Address>)
    requires Distinct(xs)
    ensures |Dedup(xs)| == |xs|
  {
    if xs != [] {
      assert Distinct(xs[1..]);
      DedupDistinct(xs[1..]);
      forall j | 0 <= j < |xs[1..]| ensures xs[1..][j] != xs[0] {
        assert xs[1..][j] == xs[j + 1];
      }
    }
  }

  /** The `logging` levels `main` chooses between. */
  const Debug: int := 10
  const Info: int := 20

  function LoggingLevel(verbose: bool): (level: int)
    ensures level == Debug <==> verbose
    ensures level == Info <==> !verbose
  {
    if verbose then Debug else Info
  }

  datatype Action = Output | Db

  /** The namespace `cmdline` returns. `action` is the `-s`/`-d` choice,
      which `main` does not read. */
  datatype Args = Args(action: Action, interval: int, verbose: bool, addr: seq<Address>)

  /** What `main` hands on: the level for `setup_logging`, and the
      addresses and interval for `main2`. */
  datatype Start = Start(level: int, addr: seq<Address>, interval: int)

  function Main(args: Args): (s: Start)
    ensures s.level == Debug <==> args.verbose
    ensures s.level == Info <==> !args.verbose
    ensures forall a :: a in s.addr <==> a in args.addr
    ensures Distinct(s.addr)
    ensures s.interval == args.interval
  {
    Start(LoggingLevel(args.verbose), Dedup(args.addr), args.interval)
  }

  /** The loop at the head of `main2`, `assert is_multicast(ip)` for each
      address in turn: the index of the first address that fails, where the
      AssertionError stops `main2` before any thread starts, or `|addr|`
      when every address passes. */
  method CheckAddresses(addr: seq<Address>) returns (failed: nat)
    ensures failed <= |addr|
    ensures forall k :: 0 <= k < failed ==> Net.IsMulticast(addr[k].0)
    ensures failed < |addr| ==> !Net.IsMulticast(addr[failed].0)
  {
    failed := 0;
    while failed < |addr|
      invariant failed <= |addr|
      invariant forall k :: 0 <= k < failed ==> Net.IsMulticast(addr[k].0)
    {
      var ip := addr[failed].0;
      if !Net.IsMulticast(ip) {
        return;
      }
      forall k | 0 <= k <= failed ensures Net.IsMulticast(addr[k].0) {
        if k == failed {
          assert addr[k].0 == ip;
        }
      }
      failed := failed + 1;
    }
  }

  /** Addresses that `multicast_address` accepted, passed through `main`,
      never trip the assertion of `main2`. */
  lemma AcceptedAddressesPass(args: Args, texts: seq<string>)
    requires |texts| == |args.addr|
    requires forall k :: 0 <= k < |texts| ==> MulticastAddress(texts[k]) == Accepted(args.addr[k])
    ensures forall a :: a in Main(args).addr ==> Net.IsMulticast(a.0)
  {
    forall a | a in Main(args).addr ensures Net.IsMulticast(a.0) {
      var k :| 0 <= k < |args.addr| && args.addr[k] == a;
      assert MulticastAddress(texts[k]).Accepted?;
    }
  }
}
