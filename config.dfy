/** src/mcstat/config.py: its own copy of the `multicast_address` argument
    type, and `merge`, which builds the final `Config` from the parsed
    command line and an optional configuration file. */
module Config {
  import opened Text
  import Net
  import Cli

  /** config.py's `multicast_address`, written out as config.py has it. It
      agrees with main.py's on every input, so `Cli.NoColon`,
      `Cli.FirstColon` and `Cli.FormatRoundTrip` hold for it too. */
  function MulticastAddress(s: string): (r: Cli.Parsed<Cli.Address>)
    ensures r == Cli.MulticastAddress(s)
  {
    SplitOnceParts(s, ':');
    var chunks := SplitOnce(s, ':');
    if |chunks| == 1 then Cli.Rejected(Cli.MissingPort(s))
    else
      var addr := chunks[0];
      var portText := chunks[1];
      match ParseInt(portText)
      case None => Cli.Rejected(Cli.InvalidPort(portText))
      case Some(port) =>
        if Net.IsMulticast(addr) then Cli.Accepted((addr, port))
        else Cli.Rejected(Cli.InvalidMulticastAddress(addr))
  }

  /** The namespace `parse_commandline` returns: `-c FILE`, `-v`, the
      `-s`/`-d` action, `-n` and the addresses. */
  datatype Args = Args(
    config: Option<string>, verbose: bool, action: Cli.Action, interval: int, addr: seq<Cli.Address>)

  /** A configuration file as `ConfigParser` holds it: section, option,
      value. */
  type ConfigFile = map<string, map<string, string>>

  /** The `_MAIN` slots of `Config` that `merge` fills. The `_DB` slots are
      never assigned. */
  datatype Settings = Settings(loggingLevel: int, addr: seq<Cli.Address>, interval: int)

  /** `merge(args, config)`. */
  function Merge(args: Args, config: Option<ConfigFile>): (r: Settings)
    ensures r.loggingLevel == Cli.Debug <==> args.verbose
    ensures r.loggingLevel == Cli.Info <==> !args.verbose
    ensures forall a :: a in r.addr <==> a in args.addr
    ensures Cli.Distinct(r.addr)
    ensures r.interval == args.interval
  {
    Settings(Cli.LoggingLevel(args.verbose), Cli.Dedup(args.addr), args.interval)
  }

  /** The configuration file, read or not, does not change the result. */
  lemma ConfigIgnored(args: Args, c1: Option<ConfigFile>, c2: Option<ConfigFile>)
    ensures Merge(args, c1) == Merge(args, c2)
  {
  }

  /** `merge` settles the logging level, the addresses and the interval as
      `main` of main.py does from the same arguments, and keeps one address
      per distinct pair. */
  lemma MergeLikeMain(args: Args, config: Option<ConfigFile>)
    ensures var r := Merge(args, config);
      var s := Cli.Main(Cli.Args(args.action, args.interval, args.verbose, args.addr));
      r.loggingLevel == s.level && r.addr == s.addr && r.interval == s.interval
    ensures |Merge(args, config).addr| == |set a | a in args.addr|
  {
    Cli.DedupSize(args.addr);
  }
}
